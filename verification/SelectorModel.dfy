/**
 The worker selector of libs/selector/base_selector.go and balanced_selector.go, on values.

 Each function is what one locked section of the selector does to its state; the classes in
 Selector.dfy are proved to do exactly this.  Go's pointers into workerIDsSeen become worker ids:
 `Accounting` (proved to hold in every state) makes the two the same.
*/
module SelectorModel {
  import opened Basics
  import opened History

  const MINIMUM_WEIGHT := 1
  const MAXIMUM_WEIGHT := 10
  const DEFAULT_WEIGHT := 5

  const SCORE_TOTAL_PERIOD := 600_000_000_000
  const SCORE_BUCKET_PERIOD := 30_000_000_000
  const SCORE_BUCKETS := 20

  /** One worker connection.  The serial stands for pointer identity: two connections may share both ids. */
  datatype Worker = NoWorker | Worker(serial: int, deviceID: string, id: string)

  /** What the selector remembers of a worker id it has seen. */
  datatype Slot = Slot(conn: Worker, weight: int, goneAt: Option<int>)

  datatype Dev = Dev(
    seen: map<string, Slot>, queue: seq<string>,
    inUse: int, used: seq<int>, currentWeight: int,
    lastSelection: Option<int>, history: seq<int>, enabled: bool)

  datatype Sel = Sel(devices: map<string, Dev>, limit: Limit)

  function NewDev(enabled: bool): Dev {
    Dev(map[], [], 0, seq(MAXIMUM_WEIGHT + 1, _ => 0), 0, None, [], enabled)
  }

  // ------------------------------------------------------------ one device

  /** Removes the first occurrence. */
  function Without(q: seq<string>, x: string): seq<string> {
    if q == [] then [] else if q[0] == x then q[1..] else [q[0]] + Without(q[1..], x)
  }

  predicate Shaped(d: Dev) {
    |d.used| == MAXIMUM_WEIGHT + 1 && forall id :: id in d.seen ==> 0 <= d.seen[id].weight <= MAXIMUM_WEIGHT
  }

  /** removeWorkerFromDevice */
  function Release(d: Dev, id: string): Dev
    requires Shaped(d) && id in d.seen
  {
    var w := d.seen[id].weight;
    if w > 0
    then d.(inUse := d.inUse - 1, used := d.used[w := d.used[w] - 1], currentWeight := d.currentWeight - w,
            seen := d.seen[id := d.seen[id].(weight := 0)])
    else d.(queue := Without(d.queue, id))
  }

  /** SetWorkerAvailable */
  function Announce(d: Dev, w: Worker): Dev
    requires Shaped(d) && w.Worker?
  {
    var d1 := if w.id in d.seen then Release(d, w.id) else d;
    d1.(seen := d1.seen[w.id := Slot(w, 0, None)], queue := d1.queue + [w.id])
  }

  /** SetWorkerUnavailable: only for the connection now held under the id. */
  function Depart(d: Dev, w: Worker, now: int): Dev
    requires Shaped(d) && w.Worker?
  {
    if w.id in d.seen && d.seen[w.id].conn == w
    then Release(d.(seen := d.seen[w.id := d.seen[w.id].(goneAt := Some(now))]), w.id)
    else d
  }

  /** claimWorkerFromDevice */
  function Claim(d: Dev, weight: int, limit: Limit, now: int): Dev
    requires |d.used| == MAXIMUM_WEIGHT + 1 && MINIMUM_WEIGHT <= weight <= MAXIMUM_WEIGHT
    requires d.queue != [] && d.queue[0] in d.seen
  {
    var id := d.queue[0];
    d.(queue := d.queue[1..], inUse := d.inUse + 1, used := d.used[weight := d.used[weight] + 1],
       currentWeight := d.currentWeight + weight, lastSelection := Some(now),
       history := Recorded(d.history, limit, now), seen := d.seen[id := d.seen[id].(weight := weight)])
  }

  predicate LongGone(slot: Slot, dur: int, now: int) {
    slot.goneAt.Some? && now - slot.goneAt.value >= dur
  }

  /** PruneWorkerIDsSeen */
  function Forget(d: Dev, dur: int, now: int): Dev {
    d.(seen := map id | id in d.seen && !LongGone(d.seen[id], dur, now) :: d.seen[id])
  }

  // ------------------------------------------------------------ choosing a device

  predicate Eligible(d: Dev, limit: Limit, now: int) {
    d.queue != [] && d.enabled && !AtMax(d.history, limit, now)
  }

  /** Looking at a device for selection prunes its history, unless an earlier check passes it over. */
  function Looked(d: Dev, limit: Limit, now: int): Dev {
    if d.queue != [] && d.enabled then d.(history := Prune(d.history, now - limit.duration)) else d
  }

  /** 1, or 10 to 200 for a device selected within the last ten minutes. */
  function Penalty(d: Dev, now: int): int {
    match d.lastSelection
    case None => 1
    case Some(t) =>
      if now - t < SCORE_TOTAL_PERIOD
      then 10 * (SCORE_BUCKETS - TruncDiv(now - t, SCORE_BUCKET_PERIOD))
      else 1
  }

  function Capacity(d: Dev): int {
    MAXIMUM_WEIGHT * |d.seen|
  }

  /** The device's load once `weight` is assigned to it. */
  function Load(d: Dev, weight: int): real
    requires |d.seen| > 0
  {
    (d.currentWeight + weight) as real / Capacity(d) as real
  }

  function Rank(d: Dev, weight: int, now: int): real
    requires |d.seen| > 0
  {
    Penalty(d, now) as real * Load(d, weight)
  }

  function ClampWeight(weight: int): int {
    if weight < MINIMUM_WEIGHT then DEFAULT_WEIGHT else if weight > MAXIMUM_WEIGHT then MAXIMUM_WEIGHT else weight
  }

  // ------------------------------------------------------------ accounting

  function Bearers(seen: map<string, Slot>, lo: int, hi: int): set<string> {
    set id | id in seen && lo <= seen[id].weight <= hi
  }

  ghost function TotalWeight(seen: map<string, Slot>): int
    decreases |seen|
  {
    if seen == map[] then 0
    else
      var id :| id in seen;
      seen[id].weight + TotalWeight(seen - {id})
  }

  predicate Distinct(q: seq<string>) {
    forall i, j :: 0 <= i < j < |q| ==> q[i] != q[j]
  }

  /** A seen worker is exactly one of queued, assigned and gone. */
  predicate SlotOk(d: Dev, id: string)
    requires id in d.seen
  {
    var slot := d.seen[id];
    && 0 <= slot.weight <= MAXIMUM_WEIGHT
    && (if slot.weight > 0 then id !in d.queue && slot.goneAt == None
        else id in d.queue <==> slot.goneAt == None)
  }

  ghost predicate Accounting(d: Dev) {
    && |d.used| == MAXIMUM_WEIGHT + 1
    && Distinct(d.queue)
    && (forall id :: id in d.queue ==> id in d.seen)
    && (forall id :: id in d.seen ==> SlotOk(d, id))
    && d.inUse == |Bearers(d.seen, 1, MAXIMUM_WEIGHT)|
    && (forall k :: 0 < k <= MAXIMUM_WEIGHT ==> d.used[k] == |Bearers(d.seen, k, k)|)
    && d.used[0] == 0
    && d.currentWeight == TotalWeight(d.seen)
  }

  lemma {:induction false} WithoutMembers(q: seq<string>, x: string)
    requires Distinct(q)
    ensures Distinct(Without(q, x))
    ensures forall y :: y in Without(q, x) <==> y in q && y != x
  {
    if q != [] {
      assert Distinct(q[1..]);
      assert q == [q[0]] + q[1..];
      if q[0] != x {
        WithoutMembers(q[1..], x);
        var rest := Without(q[1..], x);
        assert q[0] !in q[1..];
        forall i, j | 0 <= i < j < |[q[0]] + rest| ensures ([q[0]] + rest)[i] != ([q[0]] + rest)[j] {
          assert rest[j - 1] in rest;
        }
      }
    }
  }

  lemma {:induction false} TotalWeightSplits(seen: map<string, Slot>, id: string)
    requires id in seen
    ensures TotalWeight(seen) == seen[id].weight + TotalWeight(seen - {id})
    decreases |seen|
  {
    var first :| first in seen && TotalWeight(seen) == seen[first].weight + TotalWeight(seen - {first});
    if first != id {
      TotalWeightSplits(seen - {first}, id);
      TotalWeightSplits(seen - {id}, first);
      assert seen - {first} - {id} == seen - {id} - {first};
    }
  }

  lemma TotalWeightUpdate(seen: map<string, Slot>, id: string, slot: Slot)
    ensures TotalWeight(seen[id := slot])
         == TotalWeight(seen) + slot.weight - (if id in seen then seen[id].weight else 0)
  {
    TotalWeightSplits(seen[id := slot], id);
    assert seen[id := slot] - {id} == seen - {id};
    if id in seen {
      TotalWeightSplits(seen, id);
    } else {
      assert seen - {id} == seen;
    }
  }

  predicate Within(seen: map<string, Slot>, id: string, lo: int, hi: int) {
    id in seen && lo <= seen[id].weight <= hi
  }

  lemma BearersUpdate(seen: map<string, Slot>, id: string, slot: Slot, lo: int, hi: int)
    ensures |Bearers(seen[id := slot], lo, hi)|
         == |Bearers(seen, lo, hi)| - (if Within(seen, id, lo, hi) then 1 else 0)
            + (if lo <= slot.weight <= hi then 1 else 0)
  {
    var others := Bearers(seen, lo, hi) - {id};
    assert Bearers(seen, lo, hi) == if Within(seen, id, lo, hi) then others + {id} else others;
    assert Bearers(seen[id := slot], lo, hi) == if lo <= slot.weight <= hi then others + {id} else others;
  }

  /** The counters follow when one slot changes its weight. */
  lemma CountersFollow(d: Dev, id: string, slot: Slot, d': Dev)
    requires Accounting(d) && 0 <= slot.weight <= MAXIMUM_WEIGHT && d'.seen == d.seen[id := slot]
    requires var was := if id in d.seen then d.seen[id].weight else 0;
             && d'.inUse == d.inUse - (if was > 0 then 1 else 0) + (if slot.weight > 0 then 1 else 0)
             && d'.currentWeight == d.currentWeight - was + slot.weight
             && |d'.used| == |d.used| && d'.used[0] == 0
             && forall k :: 0 < k <= MAXIMUM_WEIGHT ==>
                  d'.used[k] == d.used[k] - (if was == k then 1 else 0) + (if slot.weight == k then 1 else 0)
    ensures d'.inUse == |Bearers(d'.seen, 1, MAXIMUM_WEIGHT)|
    ensures forall k :: 0 < k <= MAXIMUM_WEIGHT ==> d'.used[k] == |Bearers(d'.seen, k, k)|
    ensures d'.currentWeight == TotalWeight(d'.seen)
  {
    assert id in d.seen ==> SlotOk(d, id);
    BearersUpdate(d.seen, id, slot, 1, MAXIMUM_WEIGHT);
    TotalWeightUpdate(d.seen, id, slot);
    forall k | 0 < k <= MAXIMUM_WEIGHT ensures d'.used[k] == |Bearers(d'.seen, k, k)| {
      BearersUpdate(d.seen, id, slot, k, k);
    }
  }

  lemma QueueIsSeen(d: Dev)
    requires Accounting(d)
    ensures forall i :: 0 <= i < |d.queue| ==> d.queue[i] in d.seen
  {
    forall i | 0 <= i < |d.queue| ensures d.queue[i] in d.seen { assert d.queue[i] in d.queue; }
  }

  lemma NewDevAccounts(enabled: bool)
    ensures Accounting(NewDev(enabled))
  {
  }

  lemma AnnounceAccounts(d: Dev, w: Worker)
    requires Accounting(d) && w.Worker?
    ensures Shaped(d) && Accounting(Announce(d, w))
  {
    assert forall id :: id in d.seen ==> SlotOk(d, id);
    var d' := Announce(d, w);
    WithoutMembers(d.queue, w.id);
    CountersFollow(d, w.id, Slot(w, 0, None), d');
    forall id | id in d'.seen ensures SlotOk(d', id) {
      assert id != w.id ==> SlotOk(d, id);
    }
  }

  lemma DepartAccounts(d: Dev, w: Worker, now: int)
    requires Accounting(d) && w.Worker?
    ensures Shaped(d) && Accounting(Depart(d, w, now))
  {
    assert forall id :: id in d.seen ==> SlotOk(d, id);
    if w.id in d.seen && d.seen[w.id].conn == w {
      var d' := Depart(d, w, now);
      WithoutMembers(d.queue, w.id);
      assert d'.seen == d.seen[w.id := Slot(w, 0, Some(now))];
      CountersFollow(d, w.id, Slot(w, 0, Some(now)), d');
      forall id | id in d'.seen ensures SlotOk(d', id) {
        assert SlotOk(d, id);
      }
    }
  }

  lemma ClaimAccounts(d: Dev, weight: int, limit: Limit, now: int)
    requires Accounting(d) && MINIMUM_WEIGHT <= weight <= MAXIMUM_WEIGHT && d.queue != []
    ensures d.queue[0] in d.seen && |d.used| == MAXIMUM_WEIGHT + 1 && Accounting(Claim(d, weight, limit, now))
  {
    var id := d.queue[0];
    assert id in d.queue && SlotOk(d, id);
    var d' := Claim(d, weight, limit, now);
    CountersFollow(d, id, d.seen[id].(weight := weight), d');
    assert d.queue == [id] + d'.queue;
    forall id' | id' in d'.seen ensures SlotOk(d', id') {
      assert SlotOk(d, id');
    }
  }

  lemma {:induction false} TotalWeightWithout(seen: map<string, Slot>, gone: set<string>)
    requires forall id :: id in gone ==> id in seen && seen[id].weight == 0
    ensures TotalWeight(seen - gone) == TotalWeight(seen)
    decreases |gone|
  {
    if gone == {} {
      assert seen - gone == seen;
    } else {
      var id :| id in gone;
      TotalWeightSplits(seen, id);
      TotalWeightWithout(seen - {id}, gone - {id});
      assert seen - {id} - (gone - {id}) == seen - gone;
    }
  }

  lemma ForgetAccounts(d: Dev, dur: int, now: int)
    requires Accounting(d)
    ensures Accounting(Forget(d, dur, now))
  {
    var d' := Forget(d, dur, now);
    var gone := set id | id in d.seen && LongGone(d.seen[id], dur, now);
    forall id | id in d.seen ensures id in gone ==> d.seen[id].weight == 0 && id !in d.queue {
      assert SlotOk(d, id);
    }
    assert d'.seen == d.seen - gone;
    TotalWeightWithout(d.seen, gone);
    forall lo, hi | 1 <= lo ensures Bearers(d'.seen, lo, hi) == Bearers(d.seen, lo, hi) {
    }
    forall id | id in d'.seen ensures SlotOk(d', id) {
      assert SlotOk(d, id);
    }
  }

  /** The bounds that make every score well defined. */
  lemma {:induction false} WeightWithinCapacity(d: Dev)
    requires Accounting(d)
    ensures 0 <= d.currentWeight <= Capacity(d)
    ensures d.queue != [] ==> Capacity(d) > 0
  {
    forall id | id in d.seen ensures 0 <= d.seen[id].weight <= MAXIMUM_WEIGHT {
      assert SlotOk(d, id);
    }
    TotalWeightBounds(d.seen);
    if d.queue != [] {
      assert d.queue[0] in d.queue;
      assert d.queue[0] in d.seen.Keys;
    }
  }

  lemma {:induction false} TotalWeightBounds(seen: map<string, Slot>)
    requires forall id :: id in seen ==> 0 <= seen[id].weight <= MAXIMUM_WEIGHT
    ensures 0 <= TotalWeight(seen) <= MAXIMUM_WEIGHT * |seen|
    decreases |seen|
  {
    if seen != map[] {
      var id :| id in seen && TotalWeight(seen) == seen[id].weight + TotalWeight(seen - {id});
      TotalWeightBounds(seen - {id});
      assert (seen - {id}).Keys == seen.Keys - {id};
    }
  }

  // ------------------------------------------------------------ the whole selector

  /** Every slot holds a connection of its own device and worker id. */
  predicate Keyed(d: Dev, deviceID: string) {
    forall id :: id in d.seen ==>
      d.seen[id].conn.Worker? && d.seen[id].conn.deviceID == deviceID && d.seen[id].conn.id == id
  }

  ghost predicate Inv(s: Sel) {
    forall d :: d in s.devices ==> Accounting(s.devices[d]) && Keyed(s.devices[d], d)
  }

  /** One call on the selector.  `pick` is the device a Get selects, which map order may decide among equals. */
  datatype Op =
    | SetAvailable(w: Worker)
    | SetUnavailable(w: Worker, now: int)
    | EnableDevice(d: string)
    | DisableDevice(d: string)
    | RemoveDead(d: string, now: int)   // the time of the call, which the code does not look at
    | PruneSeen(dur: int, now: int)
    | Get(weight: int, now: int, pick: Option<string>)
    | Configure(limit: Limit)

  /** pick is an eligible device of lowest rank. */
  ghost predicate Best(s: Sel, weight: int, now: int, pick: string) {
    && pick in s.devices && Eligible(s.devices[pick], s.limit, now)
    && |s.devices[pick].seen| > 0
    && forall e :: e in s.devices && Eligible(s.devices[e], s.limit, now) ==>
         |s.devices[e].seen| > 0 && Rank(s.devices[pick], weight, now) <= Rank(s.devices[e], weight, now)
  }

  /** What a Get may answer: None exactly when no device is eligible. */
  ghost predicate MayPick(s: Sel, weight: int, now: int, pick: Option<string>) {
    match pick
    case Some(p) => Best(s, ClampWeight(weight), now, p)
    case None => forall e :: e in s.devices ==> !Eligible(s.devices[e], s.limit, now)
  }

  /** A selection answers with some device of least rank; any other call can come at any time. */
  ghost predicate CanApply(s: Sel, op: Op) {
    op.Get? ==> MayPick(s, op.weight, op.now, op.pick)
  }

  predicate HasAssigned(d: Dev) {
    exists id :: id in d.seen && d.seen[id].weight > 0
  }

  function Put(s: Sel, d: string, dev: Dev): Sel {
    s.(devices := s.devices[d := dev])
  }

  /** Announcing to a device the selector does not know creates it, enabled. */
  function DevOrNew(s: Sel, d: string): Dev {
    if d in s.devices then s.devices[d] else NewDev(true)
  }

  function WorkerAvailable(s: Sel, w: Worker): Sel
    requires Inv(s)
  {
    if w.NoWorker? then s
    else
      ShapedIfAccounted(s, w.deviceID);
      Put(s, w.deviceID, Announce(DevOrNew(s, w.deviceID), w))
  }

  function WorkerUnavailable(s: Sel, w: Worker, now: int): Sel
    requires Inv(s)
  {
    if w.NoWorker? || w.deviceID !in s.devices then s
    else
      ShapedIfAccounted(s, w.deviceID);
      Put(s, w.deviceID, Depart(s.devices[w.deviceID], w, now))
  }

  function SetEnabled(s: Sel, d: string): Sel {
    if d in s.devices then Put(s, d, s.devices[d].(enabled := true)) else s
  }

  function SetDisabled(s: Sel, d: string): Sel {
    Put(s, d, if d in s.devices then s.devices[d].(enabled := false) else NewDev(false))
  }

  function RemoveIfDead(s: Sel, d: string): Sel {
    if d in s.devices && !HasAssigned(s.devices[d]) then s.(devices := s.devices - {d}) else s
  }

  function ForgetAll(s: Sel, dur: int, now: int): Sel {
    s.(devices := map d | d in s.devices :: Forget(s.devices[d], dur, now))
  }

  function LookedAll(s: Sel, now: int): Sel {
    s.(devices := map d | d in s.devices :: Looked(s.devices[d], s.limit, now))
  }

  function Selected(s: Sel, weight: int, now: int, pick: Option<string>): Sel
    requires Inv(s) && (pick.Some? ==> pick.value in s.devices && s.devices[pick.value].queue != [])
  {
    var looked := LookedAll(s, now);
    if pick.None? then looked
    else
      ClaimAccounts(s.devices[pick.value], ClampWeight(weight), s.limit, now);
      Put(looked, pick.value, Claim(looked.devices[pick.value], ClampWeight(weight), s.limit, now))
  }

  /** The connection a selection hands out: that of the worker at the head of the picked device's queue. */
  function Handout(s: Sel, pick: Option<string>): Worker {
    if pick.None? || pick.value !in s.devices then NoWorker
    else
      var d := s.devices[pick.value];
      if d.queue != [] && d.queue[0] in d.seen then d.seen[d.queue[0]].conn else NoWorker
  }

  /** Every call keeps the accounting. */
  function Apply(s: Sel, op: Op): (s': Sel)
    requires Inv(s) && CanApply(s, op)
    ensures Inv(s')
  {
    hide Accounting;
    match op
    case SetAvailable(w) => WorkerAvailableKeepsInv(s, w); WorkerAvailable(s, w)
    case SetUnavailable(w, now) => WorkerUnavailableKeepsInv(s, w, now); WorkerUnavailable(s, w, now)
    case EnableDevice(d) => SwitchKeepsInv(s, d); SetEnabled(s, d)
    case DisableDevice(d) => SwitchKeepsInv(s, d); SetDisabled(s, d)
    case RemoveDead(d, _) => RemoveKeepsInv(s, d); RemoveIfDead(s, d)
    case PruneSeen(dur, now) => ForgetAllKeepsInv(s, dur, now); ForgetAll(s, dur, now)
    case Get(weight, now, pick) => SelectedKeepsInv(s, weight, now, pick); Selected(s, weight, now, pick)
    case Configure(limit) => if ValidLimit(limit) then s.(limit := limit) else s
  }

  lemma ShapedIfAccounted(s: Sel, d: string)
    requires Inv(s)
    ensures Shaped(DevOrNew(s, d))
  {
    if d in s.devices {
      assert forall id :: id in s.devices[d].seen ==> SlotOk(s.devices[d], id);
    }
  }

  lemma PutKeepsInv(s: Sel, d: string, dev: Dev)
    requires Inv(s) && Accounting(dev) && Keyed(dev, d)
    ensures Inv(Put(s, d, dev))
  {
    hide Accounting;
  }

  lemma WorkerAvailableKeepsInv(s: Sel, w: Worker)
    requires Inv(s)
    ensures Inv(WorkerAvailable(s, w))
  {
    hide Accounting;
    if w.Worker? {
      NewDevAccounts(true);
      AnnounceAccounts(DevOrNew(s, w.deviceID), w);
      PutKeepsInv(s, w.deviceID, Announce(DevOrNew(s, w.deviceID), w));
    }
  }

  lemma WorkerUnavailableKeepsInv(s: Sel, w: Worker, now: int)
    requires Inv(s)
    ensures Inv(WorkerUnavailable(s, w, now))
  {
    hide Accounting;
    if w.Worker? && w.deviceID in s.devices {
      DepartAccounts(s.devices[w.deviceID], w, now);
      PutKeepsInv(s, w.deviceID, Depart(s.devices[w.deviceID], w, now));
    }
  }

  /** Neither the flag nor the history has a part in the accounting. */
  lemma FlagsDoNotCount(d: Dev, enabled: bool, history: seq<int>)
    requires Accounting(d)
    ensures Accounting(d.(enabled := enabled, history := history))
  {
    var d' := d.(enabled := enabled, history := history);
    forall id | id in d'.seen ensures SlotOk(d', id) {
      assert SlotOk(d, id);
    }
  }

  lemma SwitchKeepsInv(s: Sel, d: string)
    requires Inv(s)
    ensures Inv(SetEnabled(s, d)) && Inv(SetDisabled(s, d))
  {
    hide Accounting;
    NewDevAccounts(false);
    if d in s.devices {
      var dev := s.devices[d];
      FlagsDoNotCount(dev, true, dev.history);
      FlagsDoNotCount(dev, false, dev.history);
      PutKeepsInv(s, d, dev.(enabled := true));
      PutKeepsInv(s, d, dev.(enabled := false));
    } else {
      PutKeepsInv(s, d, NewDev(false));
    }
  }

  lemma ForgetAllKeepsInv(s: Sel, dur: int, now: int)
    requires Inv(s)
    ensures Inv(ForgetAll(s, dur, now))
  {
    hide Accounting;
    forall d | d in s.devices ensures Accounting(Forget(s.devices[d], dur, now)) {
      ForgetAccounts(s.devices[d], dur, now);
    }
  }

  lemma LookedAllKeepsInv(s: Sel, now: int)
    requires Inv(s)
    ensures Inv(LookedAll(s, now))
  {
    hide Accounting;
    forall d | d in s.devices ensures Accounting(Looked(s.devices[d], s.limit, now)) {
      FlagsDoNotCount(s.devices[d], s.devices[d].enabled, Prune(s.devices[d].history, now - s.limit.duration));
    }
  }

  lemma PutClaimKeepsInv(s: Sel, d: string, weight: int, limit: Limit, now: int)
    requires Inv(s) && d in s.devices && s.devices[d].queue != [] && MINIMUM_WEIGHT <= weight <= MAXIMUM_WEIGHT
    requires s.devices[d].queue[0] in s.devices[d].seen
    ensures |s.devices[d].used| == MAXIMUM_WEIGHT + 1
    ensures Inv(Put(s, d, Claim(s.devices[d], weight, limit, now)))
  {
    hide Accounting;
    ClaimAccounts(s.devices[d], weight, limit, now);
    PutKeepsInv(s, d, Claim(s.devices[d], weight, limit, now));
  }

  lemma SelectedKeepsInv(s: Sel, weight: int, now: int, pick: Option<string>)
    requires Inv(s) && (pick.Some? ==> pick.value in s.devices && s.devices[pick.value].queue != [])
    ensures Inv(Selected(s, weight, now, pick))
  {
    hide Accounting;
    LookedAllKeepsInv(s, now);
    if pick.Some? {
      QueueIsSeen(s.devices[pick.value]);
      PutClaimKeepsInv(LookedAll(s, now), pick.value, ClampWeight(weight), s.limit, now);
    }
  }

  lemma RemoveKeepsInv(s: Sel, d: string)
    requires Inv(s)
    ensures Inv(RemoveIfDead(s, d))
  {
    hide Accounting;
  }
}
