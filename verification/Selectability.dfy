/** Which devices the selector may choose from, over whole runs of the manager. */
module Selectability {
  import opened Basics
  import opened History
  import opened SelectorModel
  import opened SelectorViews
  import opened ConnStats
  import opened ManagerModel
  import opened ManagerRuns
  import opened Scenario

  /**
   A device switched off by request is off in the selector; one that is on and connected is not off there;
   one without a connection is known there, and on exactly if a request has switched it on meanwhile.
  */
  predicate SwitchedRight(s: Sys, d: string)
    requires d in s.m.devices
  {
    var dev, switch := s.m.devices[d], Switch(s.m.sel, d);
    && (!dev.enabled ==> switch == Some(false))
    && (dev.enabled && dev.conn.Some? ==> switch != Some(false))
    && (if dev.conn.None? then switch == Some(d in s.flipped) else d !in s.flipped)
  }

  ghost predicate Selectable(s: Sys) {
    s.flipped <= s.m.devices.Keys && forall d :: d in s.m.devices ==> SwitchedRight(s, d)
  }

  lemma JoinKeepsSelectable(s: Sys, w: Worker, origin: string)
    requires Inv(s.m.sel) && w.Worker? && Selectable(s)
    ensures Selectable(OnJoinBegins(s, w, origin))
  {
    hide Inv, Live, Queued, SetDisabled;
    var s' := OnJoinBegins(s, w, origin);
    if WorkerRefusal(w, origin).None? {
      forall d | d in s'.m.devices ensures SwitchedRight(s', d) {
        assert d in s.m.devices ==> SwitchedRight(s, d);
        SwitchViews(s.m.sel, false, w.deviceID, w, d);
      }
    }
  }

  lemma EntryKeepsSelectable(s: Sys)
    requires Inv(s.m.sel) && s.pending.Joining? && s.pending.w.Worker? && Selectable(s)
    ensures Selectable(OnJoinEnds(s))
  {
    hide Inv, Live, Queued, WorkerAvailable;
    var s' := OnJoinEnds(s);
    forall d | d in s'.m.devices ensures SwitchedRight(s', d) {
      assert SwitchedRight(s, d);
      AvailableViews(s.m.sel, s.pending.w, s.pending.w, d);
    }
  }

  lemma CloseKeepsSelectable(s: Sys, w: Worker, now: int)
    requires Inv(s.m.sel) && w.Worker? && Selectable(s)
    ensures Selectable(OnCloseBegins(s, w, now))
  {
    hide Inv, Live, Queued, WorkerUnavailable;
    var s' := OnCloseBegins(s, w, now);
    forall d | d in s'.m.devices ensures SwitchedRight(s', d) {
      assert SwitchedRight(s, d);
      UnavailableViews(s.m.sel, w, now, w, d);
    }
  }

  lemma DeviceJoinKeepsSelectable(s: Sys, d: string, origin: string, conn: int, st: Stats)
    requires Inv(s.m.sel) && Selectable(s)
    ensures Selectable(OnDeviceJoins(s, d, origin, conn, st))
  {
    hide Inv, Live, Queued, SetEnabled, DeviceRegistered;
    var s' := OnDeviceJoins(s, d, origin, conn, st);
    if DeviceRefusal(d, origin).None? {
      RegisteredAtOnce(s.m, d, origin, conn, CountedBy(s, Current(s, d)));
      assert s'.m.devices.Keys == s.m.devices.Keys + {d};
      forall e | e in s'.m.devices ensures SwitchedRight(s', e) {
        assert e in s.m.devices ==> SwitchedRight(s, e);
        SwitchViews(s.m.sel, true, d, NoWorker, e);
      }
    }
  }

  lemma DeviceCloseKeepsSelectable(s: Sys, conn: int)
    requires Inv(s.m.sel) && Selectable(s) && conn in s.conns
    ensures Selectable(OnDeviceCloses(s, conn))
  {
    hide Inv, Live, Queued, SetDisabled;
    var s' := OnDeviceCloses(s, conn);
    forall e | e in s'.m.devices ensures SwitchedRight(s', e) {
      assert SwitchedRight(s, e);
      SwitchViews(s.m.sel, false, s.conns[conn], NoWorker, e);
    }
  }

  lemma RequestsKeepSelectable(s: Sys, d: string)
    requires Inv(s.m.sel) && Selectable(s)
    ensures Selectable(OnEnables(s, d)) && Selectable(OnDisables(s, d))
  {
    hide Inv, Live, Queued, SetEnabled, SetDisabled;
    var s', s'' := OnEnables(s, d), OnDisables(s, d);
    forall e | e in s.m.devices ensures SwitchedRight(s', e) && SwitchedRight(s'', e) {
      assert SwitchedRight(s, e) && (d in s.m.devices ==> SwitchedRight(s, d));
      SwitchViews(s.m.sel, true, d, NoWorker, e);
      SwitchViews(s.m.sel, false, d, NoWorker, e);
    }
  }

  lemma DeleteKeepsSelectable(s: Sys, d: string)
    requires Inv(s.m.sel) && Selectable(s)
    ensures Selectable(OnDeletes(s, d))
  {
    hide Inv, Live, Queued, Switch, RemoveIfDead, DeletionRefusal;
    var s' := OnDeletes(s, d);
    if DeletionRefusal(s.m, d).None? {
      assert s'.m.devices.Keys == s.m.devices.Keys - {d};
      forall e | e in s.m.devices && e != d ensures SwitchedRight(s', e) {
        assert SwitchedRight(s, e);
        RemoveViews(s.m.sel, d, NoWorker, e);
      }
    }
  }

  lemma ClaimKeepsSelectable(s: Sys, ctrl: int, weight: int, now: int, pick: Option<string>)
    requires Inv(s.m.sel) && MayPick(s.m.sel, ClampWeight(weight), now, pick) && Selectable(s)
    ensures Selectable(OnClaims(s, ctrl, weight, now, pick))
  {
    hide Inv, Live, Queued, Selected, AtMax, Rank;
    var s' := OnClaims(s, ctrl, weight, now, pick);
    forall d | d in s'.m.devices ensures SwitchedRight(s', d) {
      assert SwitchedRight(s, d);
      SelectedViews(s.m.sel, ClampWeight(weight), now, pick, NoWorker, d);
    }
  }

  lemma GiveBackKeepsSelectable(s: Sys, ctrl: int)
    requires Inv(s.m.sel) && ctrl in s.holders && Selectable(s)
    ensures Selectable(OnGivesBack(s, ctrl))
  {
    hide Inv, Live, Queued, Announce;
    var s' := OnGivesBack(s, ctrl);
    forall d | d in s'.m.devices ensures SwitchedRight(s', d) {
      assert SwitchedRight(s, d);
      if s.holders[ctrl].worker.Worker? {
        AvailableViews(s.m.sel, s.holders[ctrl].worker, NoWorker, d);
      }
    }
  }

  lemma NextKeepsSelectable(s: Sys, e: Event)
    requires Inv(s.m.sel) && CanHappen(s, e) && Selectable(s)
    ensures Selectable(Next(s, e))
  {
    hide Inv, MayPick, SwitchedRight, OnJoinBegins, OnJoinEnds, OnCloseBegins, OnDeviceJoins, OnDeviceCloses;
    hide OnEnables, OnDisables, OnDeletes, OnClaims, OnGivesBack;
    match e
    case JoinBegins(w, origin) => JoinKeepsSelectable(s, w, origin);
    case JoinEnds => EntryKeepsSelectable(s);
    case CloseBegins(w, now) => CloseKeepsSelectable(s, w, now);
    case DeviceJoins(d, origin, conn, st) => DeviceJoinKeepsSelectable(s, d, origin, conn, st);
    case DeviceCloses(conn) => DeviceCloseKeepsSelectable(s, conn);
    case Enables(d) => RequestsKeepSelectable(s, d);
    case Disables(d) => RequestsKeepSelectable(s, d);
    case Deletes(d) => DeleteKeepsSelectable(s, d);
    case Claims(ctrl, weight, now, pick) => ClaimKeepsSelectable(s, ctrl, weight, now, pick);
    case GivesBack(ctrl) => GiveBackKeepsSelectable(s, ctrl);
    case _ => SameSwitches(s, Next(s, e));
  }

  lemma SameSwitches(s: Sys, s': Sys)
    requires Selectable(s) && s'.flipped == s.flipped && s'.m.devices == s.m.devices
    requires s'.m.sel.devices.Keys == s.m.sel.devices.Keys
    requires forall d :: d in s.m.sel.devices ==> s'.m.sel.devices[d].enabled == s.m.sel.devices[d].enabled
    ensures Selectable(s')
  {
    forall d | d in s'.m.devices ensures SwitchedRight(s', d) {
      assert SwitchedRight(s, d);
    }
  }

  lemma {:induction false} RunKeepsSelectable(s: Sys, es: seq<Event>)
    requires Inv(s.m.sel) && CanRun(s, es) && Selectable(s)
    ensures Selectable(Run(s, es))
    decreases |es|
  {
    hide CanHappen, Next, Selectable;
    if es != [] {
      NextKeepsSelectable(s, es[0]);
      RunKeepsSelectable(Next(s, es[0]), es[1..]);
    }
  }

  /** A request that switches a device on while it has no control connection. */
  predicate Flips(s: Sys, e: Event) {
    e.Enables? && e.d in s.m.devices && !s.m.devices[e.d].enabled && s.m.devices[e.d].conn.None?
  }

  ghost predicate NeverFlips(s: Sys, es: seq<Event>)
    requires Inv(s.m.sel) && CanRun(s, es)
    decreases |es|
  {
    es != [] ==> !Flips(s, es[0]) && NeverFlips(Next(s, es[0]), es[1..])
  }

  lemma NextKeepsFlipped(s: Sys, e: Event)
    requires Inv(s.m.sel) && CanHappen(s, e) && !Flips(s, e)
    ensures Next(s, e).flipped <= s.flipped
  {
    hide Inv, MayPick;
  }

  lemma {:induction false} NothingFlipped(s: Sys, es: seq<Event>)
    requires Inv(s.m.sel) && CanRun(s, es) && NeverFlips(s, es)
    ensures Run(s, es).flipped <= s.flipped
    decreases |es|
  {
    hide CanHappen, Next, Flips;
    if es != [] {
      NextKeepsFlipped(s, es[0]);
      NothingFlipped(Next(s, es[0]), es[1..]);
    }
  }

  /**
   Main result: in every reachable state a device switched off by request is off in the selector, a connected one
   that is on is not off there, and a device without a connection is off there unless a request has switched it on
   meanwhile.  So where no request does that, a device without a connection is never selected.
  */
  lemma SwitchedAsRequested(limit: Limit, es: seq<Event>, d: string)
    requires CanRun(Start(limit), es) && d in Run(Start(limit), es).m.devices
    ensures var s := Run(Start(limit), es);
            var dev, switch := s.m.devices[d], Switch(s.m.sel, d);
            && (!dev.enabled ==> switch == Some(false))
            && (dev.enabled && dev.conn.Some? ==> switch != Some(false))
            && (dev.conn.None? ==> switch == Some(d in s.flipped))
            && (dev.conn.None? && NeverFlips(Start(limit), es) ==> switch == Some(false))
  {
    RunKeepsSelectable(Start(limit), es);
    hide CanHappen, CanRun, Next, Run, NeverFlips;
    assert SwitchedRight(Run(Start(limit), es), d);
    if NeverFlips(Start(limit), es) {
      NothingFlipped(Start(limit), es);
    }
  }

  // ------------------------------------------------------------ the exception

  /**
   Switched off, disconnected and switched on again by request: the device has no connection and is on in the
   selector.
  */
  lemma FlipOne(s: Sys) returns (s1: Sys, s2: Sys, s3: Sys)
    requires Inv(s.m.sel) && Inv(Sel(map[], LIMIT)) && OneJoined(s)
    ensures CanHappen(s, Disables("d")) && s1 == Next(s, Disables("d"))
    ensures CanHappen(s1, DeviceCloses(7)) && s2 == Next(s1, DeviceCloses(7))
    ensures CanHappen(s2, Enables("d")) && s3 == Next(s2, Enables("d"))
    ensures "d" in s3.m.devices && s3.m.devices["d"].conn.None?
    ensures s3.pending == NoSection && s3.holders == map[] && s3.m.sel == s.m.sel
  {
    hide OnJoinBegins, OnJoinEnds, OnCloseBegins, OnCloseEnds, OnDeviceJoins, OnDeletes, OnClaims;
    hide OnGivesBack, OnCompletes, OnTraffic;
    hide Inv, MayPick, WorkerAvailable, Plus;
    AnnouncedIsOn();
    s1 := Next(s, Disables("d"));
    s2 := Next(s1, DeviceCloses(7));
    s3 := Next(s2, Enables("d"));
    assert SetEnabled(SetDisabled(s.m.sel, "d"), "d").devices == s.m.sel.devices;
  }

  lemma AnnouncedIsOn()
    ensures Inv(Sel(map[], LIMIT))
    ensures var s := WorkerAvailable(Sel(map[], LIMIT), WORKER); "d" in s.devices && s.devices["d"].enabled
  {
    Empty();
    hide Inv;
  }

  /** The worker of a device without a control connection is handed out next. */
  ghost predicate HandsOutUnconnected(s: Sys, d: string, e: Event)
    requires Inv(s.m.sel)
  {
    && d in s.m.devices && s.m.devices[d].conn.None? && Switch(s.m.sel, d) == Some(true)
    && CanHappen(s, e) && e.Claims? && e.pick == Some(d) && Handout(s.m.sel, e.pick).Worker?
  }

  /** The exception is real: after an enable request on an unconnected device, a controller can be given its worker. */
  lemma FlippedDeviceIsSelected()
    ensures exists es: seq<Event>, e: Event ::
              CanRun(Start(LIMIT), es) && HandsOutUnconnected(Run(Start(LIMIT), es), "d", e)
  {
    hide Inv, CanHappen, Next, OneJoined, HandsOutUnconnected;
    var before := JoinOne();
    var s := Run(Start(LIMIT), before);
    var s1, s2, s3 := FlipOne(s);
    FlippedOffers(s, s3);
    NoMore(s3);
    var rest2 := RunOne(s2, Enables("d"), s3, []);
    var rest1 := RunOne(s1, DeviceCloses(7), s2, rest2);
    var rest := RunOne(s, Disables("d"), s1, rest1);
    RunTwice(Start(LIMIT), before, rest);
    assert HandsOutUnconnected(Run(Start(LIMIT), before + rest), "d", Claims(1, 5, 1, Some("d")));
  }

  lemma FlippedOffers(s: Sys, s3: Sys)
    requires Inv(s3.m.sel) && Inv(Sel(map[], LIMIT)) && OneJoined(s)
    requires "d" in s3.m.devices && s3.m.devices["d"].conn.None?
    requires s3.pending == NoSection && s3.holders == map[] && s3.m.sel == s.m.sel
    ensures HandsOutUnconnected(s3, "d", Claims(1, 5, 1, Some("d")))
  {
    hide Inv, CanHappen, WorkerAvailable, Handout;
    AnnouncedIsOn();
    ClaimOne(s3);
    Offered();
  }
}
