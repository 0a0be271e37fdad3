/**
 What the connection manager can tell of the selector: which connections it holds live, which of them
 are queued, and whether a device is switched on, with the effect of every call on each view.
*/
module SelectorViews {
  import opened Basics
  import opened History
  import opened SelectorModel

  /** The selector's entry for the worker's ids holds this very connection, queued or assigned. */
  predicate Live(s: Sel, w: Worker) {
    && w.Worker? && w.deviceID in s.devices && w.id in s.devices[w.deviceID].seen
    && s.devices[w.deviceID].seen[w.id].conn == w && s.devices[w.deviceID].seen[w.id].goneAt == None
  }

  predicate Queued(s: Sel, w: Worker): (q: bool)
    ensures q ==> w.Worker?
  {
    && w.Worker? && w.deviceID in s.devices && w.id in s.devices[w.deviceID].seen
    && s.devices[w.deviceID].seen[w.id].conn == w && w.id in s.devices[w.deviceID].queue
  }

  predicate SameIds(v: Worker, w: Worker) {
    v.Worker? && w.Worker? && v.deviceID == w.deviceID && v.id == w.id
  }

  /** None for a device the selector does not know. */
  function Switch(s: Sel, d: string): Option<bool> {
    if d in s.devices then Some(s.devices[d].enabled) else None
  }

  /** Live is exactly queued or assigned. */
  lemma LiveIsQueuedOrAssigned(s: Sel, w: Worker)
    requires Inv(s) && w.Worker? && w.deviceID in s.devices && w.id in s.devices[w.deviceID].seen
    requires s.devices[w.deviceID].seen[w.id].conn == w
    ensures Live(s, w) <==> Queued(s, w) || s.devices[w.deviceID].seen[w.id].weight > 0
  {
    assert SlotOk(s.devices[w.deviceID], w.id);
  }

  /** The id keeps its connection, and stays gone or not. */
  predicate SameView(d: Dev, d': Dev, id: string)
    requires id in d.seen
  {
    id in d'.seen && d'.seen[id].conn == d.seen[id].conn && d'.seen[id].goneAt == d.seen[id].goneAt
  }

  lemma ReleaseViews(d: Dev, id: string, other: string)
    requires Accounting(d) && Shaped(d) && id in d.seen && other in d.seen
    ensures var d' := Release(d, id);
            && SameView(d, d', other)
            && (other in d'.queue <==> other in d.queue && other != id) && d'.enabled == d.enabled
  {
    assert SlotOk(d, id);
    WithoutMembers(d.queue, id);
  }

  lemma AnnounceViews(d: Dev, w: Worker, id: string)
    requires Accounting(d) && Shaped(d) && w.Worker?
    ensures var d' := Announce(d, w);
            && d'.enabled == d.enabled
            && w.id in d'.seen && d'.seen[w.id] == Slot(w, 0, None) && w.id in d'.queue
            && (id != w.id ==> (id in d'.seen <==> id in d.seen))
            && (id != w.id && id in d.seen ==> SameView(d, d', id) && (id in d'.queue <==> id in d.queue))
  {
    hide Accounting;
    if id in d.seen && w.id in d.seen {
      ReleaseViews(d, w.id, id);
    }
    if w.id in d.seen {
      ReleaseViews(d, w.id, w.id);
    }
  }

  lemma AvailableViews(s: Sel, w: Worker, v: Worker, d: string)
    requires Inv(s) && w.Worker?
    ensures var s' := WorkerAvailable(s, w);
            && (Live(s', v) <==> v == w || (Live(s, v) && !SameIds(v, w)))
            && (Queued(s', v) <==> v == w || (Queued(s, v) && !SameIds(v, w)))
            && Switch(s', d) == if d == w.deviceID && d !in s.devices then Some(true) else Switch(s, d)
  {
    hide Accounting, Announce;
    NewDevAccounts(true);
    ShapedIfAccounted(s, w.deviceID);
    if v.Worker? {
      AnnounceViews(DevOrNew(s, w.deviceID), w, v.id);
    }
    AnnounceViews(DevOrNew(s, w.deviceID), w, w.id);
  }

  lemma DepartViews(d: Dev, w: Worker, now: int, id: string)
    requires Accounting(d) && Shaped(d) && w.Worker?
    ensures var d' := Depart(d, w, now);
            && d'.enabled == d.enabled && d'.seen.Keys == d.seen.Keys
            && (id in d.seen && id == w.id && d.seen[id].conn == w ==>
                  d'.seen[id].conn == w && d'.seen[id].goneAt == Some(now))
            && (id in d.seen && !(id == w.id && d.seen[id].conn == w) ==> SameView(d, d', id))
            && (id in d.seen ==> (id in d'.queue <==> id in d.queue && !(id == w.id && d.seen[id].conn == w)))
  {
    if w.id in d.seen && d.seen[w.id].conn == w {
      assert SlotOk(d, w.id);
      WithoutMembers(d.queue, w.id);
    }
  }

  lemma UnavailableViews(s: Sel, w: Worker, now: int, v: Worker, d: string)
    requires Inv(s) && w.Worker?
    ensures var s' := WorkerUnavailable(s, w, now);
            && (Live(s', v) <==> Live(s, v) && v != w)
            && (Queued(s', v) <==> Queued(s, v) && v != w)
            && Switch(s', d) == Switch(s, d)
  {
    hide Accounting, Depart;
    ShapedIfAccounted(s, w.deviceID);
    if w.deviceID in s.devices {
      if v.Worker? {
        DepartViews(s.devices[w.deviceID], w, now, v.id);
      }
      DepartViews(s.devices[w.deviceID], w, now, w.id);
    }
  }

  lemma SwitchViews(s: Sel, on: bool, d: string, v: Worker, e: string)
    ensures var s' := if on then SetEnabled(s, d) else SetDisabled(s, d);
            && (Live(s', v) <==> Live(s, v)) && (Queued(s', v) <==> Queued(s, v))
            && Switch(s', e) == if e == d && (!on || d in s.devices) then Some(on) else Switch(s, e)
  {
  }

  lemma RemoveViews(s: Sel, d: string, v: Worker, e: string)
    ensures var s' := RemoveIfDead(s, d);
            && (v.Worker? && v.deviceID != d ==> (Live(s', v) <==> Live(s, v)))
            && (Live(s', v) ==> Live(s, v)) && (Queued(s', v) <==> Queued(s, v) && v.deviceID in s'.devices)
            && (e != d ==> Switch(s', e) == Switch(s, e))
  {
    hide HasAssigned;
  }

  lemma ForgetViews(s: Sel, dur: int, now: int, v: Worker, e: string)
    ensures var s' := ForgetAll(s, dur, now);
            && (Live(s', v) <==> Live(s, v)) && (Queued(s', v) ==> Queued(s, v)) && Switch(s', e) == Switch(s, e)
            && (Live(s, v) ==> (Queued(s', v) <==> Queued(s, v)))
  {
  }

  lemma LookedViews(s: Sel, now: int, v: Worker, e: string)
    ensures var s' := LookedAll(s, now);
            && s'.devices.Keys == s.devices.Keys
            && (Live(s', v) <==> Live(s, v)) && (Queued(s', v) <==> Queued(s, v)) && Switch(s', e) == Switch(s, e)
  {
  }

  lemma ClaimViews(d: Dev, weight: int, limit: Limit, now: int, id: string)
    requires Accounting(d) && |d.used| == MAXIMUM_WEIGHT + 1 && MINIMUM_WEIGHT <= weight <= MAXIMUM_WEIGHT
    requires d.queue != [] && d.queue[0] in d.seen
    ensures var d' := Claim(d, weight, limit, now);
            && d'.enabled == d.enabled && d'.seen.Keys == d.seen.Keys && (id in d.seen ==> SameView(d, d', id))
            && (id in d'.queue <==> id in d.queue && id != d.queue[0])
  {
    assert d.queue == [d.queue[0]] + d.queue[1..];
  }

  lemma PutClaimViews(s: Sel, p: string, weight: int, limit: Limit, now: int, v: Worker, e: string)
    requires Inv(s) && p in s.devices && s.devices[p].queue != [] && MINIMUM_WEIGHT <= weight <= MAXIMUM_WEIGHT
    requires |s.devices[p].used| == MAXIMUM_WEIGHT + 1 && s.devices[p].queue[0] in s.devices[p].seen
    ensures var dev := s.devices[p];
            var s' := Put(s, p, Claim(dev, weight, limit, now));
            && (Live(s', v) <==> Live(s, v)) && Switch(s', e) == Switch(s, e)
            && (Queued(s', v) <==> Queued(s, v) && v != dev.seen[dev.queue[0]].conn)
            && Queued(s, dev.seen[dev.queue[0]].conn)
  {
    hide Accounting, Claim;
    var dev := s.devices[p];
    assert dev.queue[0] in dev.queue;
    ClaimViews(dev, weight, limit, now, dev.queue[0]);
    if v.Worker? {
      ClaimViews(dev, weight, limit, now, v.id);
    }
  }

  lemma SelectedViews(s: Sel, weight: int, now: int, pick: Option<string>, v: Worker, e: string)
    requires Inv(s) && (pick.Some? ==> pick.value in s.devices && s.devices[pick.value].queue != [])
    ensures var s' := Selected(s, weight, now, pick);
            && (Live(s', v) <==> Live(s, v)) && Switch(s', e) == Switch(s, e)
            && (Queued(s', v) <==> Queued(s, v) && v != Handout(s, pick))
            && (pick.Some? ==> Queued(s, Handout(s, pick)))
  {
    hide Accounting, Claim, Live, Queued, Switch, Prune;
    LookedViews(s, now, v, e);
    if pick.Some? {
      var p := pick.value;
      ClaimAccounts(s.devices[p], ClampWeight(weight), s.limit, now);
      LookedAllKeepsInv(s, now);
      PutClaimViews(LookedAll(s, now), p, ClampWeight(weight), s.limit, now, v, e);
      LookedViews(s, now, Handout(s, pick), e);
    }
  }

  /** A device none of whose connections is live has none assigned, so nothing keeps it in the selector. */
  lemma DeadIsRemoved(s: Sel, d: string)
    requires Inv(s) && forall v: Worker :: v.Worker? && v.deviceID == d ==> !Live(s, v)
    ensures d !in RemoveIfDead(s, d).devices
  {
    if d in s.devices {
      forall id | id in s.devices[d].seen ensures s.devices[d].seen[id].weight <= 0 {
        assert SlotOk(s.devices[d], id);
        assert !Live(s, s.devices[d].seen[id].conn);
      }
    }
  }
}
