/**
 The manager's table of workers against the selector's.  With the section in progress finished, they agree in every run
 whose give-backs do no harm, and a give-back does none exactly under a condition on the manager's table.
*/
module TableAgreement {
  import opened Basics
  import opened History
  import opened SelectorModel
  import opened SelectorViews
  import opened ConnStats
  import opened ManagerModel
  import opened ManagerRuns
  import opened Scenario

  /** A connection is in the manager's table exactly when the selector holds it, queued or assigned. */
  ghost predicate Agree(m: Mgr) {
    forall w: Worker :: Tabled(m, w) <==> Live(m.sel, w)
  }

  /** The manager as the section in progress, if any, will leave it. */
  function Finish(s: Sys): Mgr
    requires Inv(s.m.sel)
  {
    match s.pending
    case NoSection => s.m
    case Joining(w) => if w.Worker? then WorkerEntered(s.m, w) else s.m
    case Closing(w) => WorkerUntabled(s.m, w)
  }

  /**
   Giving w back does no harm: it is current in the table the section in progress will leave, or the very
   worker being registered takes its place at once.
  */
  predicate Harmless(s: Sys, w: Worker)
    requires Inv(s.m.sel)
  {
    Tabled(Finish(s), w) || (s.pending.Joining? && SameIds(w, s.pending.w))
  }

  lemma JoinKeepsAgree(m: Mgr, w: Worker, origin: string)
    requires Inv(m.sel) && w.Worker? && Agree(m)
    ensures Agree(WorkerRegistered(m, w, origin))
  {
    hide Inv, Live;
    if WorkerRefusal(w, origin).None? {
      SwitchKeepsInv(m.sel, w.deviceID);
      forall v: Worker
        ensures Tabled(WorkerRegistered(m, w, origin), v) <==> Live(WorkerRegistered(m, w, origin).sel, v)
      {
        assert Tabled(m, v) <==> Live(m.sel, v);
        SwitchViews(m.sel, false, w.deviceID, v, "");
        AvailableViews(DeviceForWorker(m, w.deviceID, origin).sel, w, v, "");
      }
    }
  }

  lemma CloseKeepsAgree(m: Mgr, w: Worker, now: int)
    requires Inv(m.sel) && w.Worker? && Agree(m)
    ensures Agree(WorkerClosed(m, w, now))
  {
    hide Inv, Live, WorkerUnavailable;
    forall v: Worker ensures Tabled(WorkerClosed(m, w, now), v) <==> Live(WorkerClosed(m, w, now).sel, v) {
      assert Tabled(m, v) <==> Live(m.sel, v);
      UnavailableViews(m.sel, w, now, v, "");
    }
  }

  /** Under agreement a delete the manager accepts takes the device out of the selector as well. */
  lemma DeleteRemovesFromSelector(m: Mgr, d: string)
    requires Inv(m.sel) && Agree(m) && DeletionRefusal(m, d).None?
    ensures d !in DeviceDeleted(m, d).sel.devices
  {
    hide Inv, Live;
    forall v: Worker | v.Worker? && v.deviceID == d ensures !Live(m.sel, v) {
      assert Tabled(m, v) <==> Live(m.sel, v);
    }
    DeadIsRemoved(m.sel, d);
  }

  lemma DeleteKeepsAgree(m: Mgr, d: string)
    requires Inv(m.sel) && Agree(m)
    ensures Agree(DeviceDeleted(m, d))
  {
    hide Inv, RemoveIfDead;
    if DeletionRefusal(m, d).None? {
      DeleteRemovesFromSelector(m, d);
      forall v: Worker ensures Tabled(DeviceDeleted(m, d), v) <==> Live(DeviceDeleted(m, d).sel, v) {
        assert Tabled(m, v) <==> Live(m.sel, v);
        RemoveViews(m.sel, d, v, "");
      }
    }
  }

  // ------------------------------------------------------------ the give-back

  /** From agreeing tables at rest, the condition is that the worker is current. */
  lemma GiveBackAtRest(m: Mgr, w: Worker)
    requires Inv(m.sel) && w.Worker? && Agree(m)
    ensures Agree(WorkerGivenBack(m, w)) <==> Tabled(m, w)
  {
    hide Inv, Live, WorkerAvailable;
    var m' := WorkerGivenBack(m, w);
    forall v: Worker ensures Live(m'.sel, v) <==> v == w || (Live(m.sel, v) && !SameIds(v, w)) {
      AvailableViews(m.sel, w, v, "");
    }
    assert Live(m'.sel, w) && (Tabled(m', w) <==> Tabled(m, w));
    if Tabled(m, w) {
      forall v: Worker ensures Tabled(m', v) <==> Live(m'.sel, v) {
        assert Tabled(m, v) <==> Live(m.sel, v);
      }
    }
  }

  /** What is live once w has been given back and v then registered. */
  lemma GivenBackThenEntered(m: Mgr, w: Worker, v: Worker, x: Worker)
    requires Inv(m.sel) && w.Worker? && v.Worker?
    ensures Inv(WorkerGivenBack(m, w).sel)
    ensures var before, after := WorkerEntered(m, v), WorkerEntered(WorkerGivenBack(m, w), v);
            && (Tabled(after, x) <==> Tabled(before, x))
            && (Live(after.sel, x) <==> if SameIds(w, v) then Live(before.sel, x)
                                        else x == w || (Live(before.sel, x) && !SameIds(x, w)))
  {
    hide Inv, Live, WorkerAvailable;
    WorkerAvailableKeepsInv(m.sel, w);
    AvailableViews(m.sel, w, x, "");
    AvailableViews(m.sel, v, x, "");
    AvailableViews(WorkerAvailable(m.sel, w), v, x, "");
  }

  lemma GiveBackDuringJoin(m: Mgr, w: Worker, v: Worker)
    requires Inv(m.sel) && w.Worker? && v.Worker? && Agree(WorkerEntered(m, v))
    ensures Inv(WorkerGivenBack(m, w).sel)
    ensures Agree(WorkerEntered(WorkerGivenBack(m, w), v)) <==> Tabled(WorkerEntered(m, v), w) || SameIds(w, v)
  {
    hide Inv, Live, WorkerEntered, WorkerGivenBack;
    GivenBackThenEntered(m, w, v, w);
    var before, after := WorkerEntered(m, v), WorkerEntered(WorkerGivenBack(m, w), v);
    assert Tabled(before, w) <==> Live(before.sel, w);
    if Tabled(before, w) || SameIds(w, v) {
      forall x: Worker ensures Tabled(after, x) <==> Live(after.sel, x) {
        GivenBackThenEntered(m, w, v, x);
        assert Tabled(before, x) <==> Live(before.sel, x);
      }
    } else {
      assert !Tabled(after, w) && Live(after.sel, w);
    }
  }

  lemma GiveBackDuringClose(m: Mgr, w: Worker, v: Worker)
    requires Inv(m.sel) && w.Worker? && Agree(WorkerUntabled(m, v))
    ensures Agree(WorkerUntabled(WorkerGivenBack(m, w), v)) <==> Tabled(WorkerUntabled(m, v), w)
  {
    hide Inv, WorkerAvailable;
    assert WorkerUntabled(WorkerGivenBack(m, w), v) == WorkerGivenBack(WorkerUntabled(m, v), w);
    GiveBackAtRest(WorkerUntabled(m, v), w);
  }

  /** Once the section in progress is done, the tables agree. */
  ghost predicate AgreeInTheEnd(s: Sys)
    requires Inv(s.m.sel)
  {
    Agree(Finish(s)) && (s.pending.Joining? ==> s.pending.w.Worker?)
  }

  /**
   The exact condition: wherever it falls, a give-back keeps the tables on the way to agreement if and only if
   it is harmless, a test the code does not make.
  */
  lemma GiveBackAgreesExactly(s: Sys, ctrl: int)
    requires Inv(s.m.sel) && CanHappen(s, GivesBack(ctrl)) && s.holders[ctrl].worker.Worker? && AgreeInTheEnd(s)
    ensures AgreeInTheEnd(Next(s, GivesBack(ctrl))) <==> Harmless(s, s.holders[ctrl].worker)
  {
    hide Inv, Agree, Live, WorkerEntered, WorkerUntabled, WorkerGivenBack, Tabled;
    var w := s.holders[ctrl].worker;
    match s.pending
    case NoSection => GiveBackAtRest(s.m, w);
    case Joining(v) => GiveBackDuringJoin(s.m, w, v);
    case Closing(v) => GiveBackDuringClose(s.m, w, v);
  }

  // ------------------------------------------------------------ whole runs

  /** Neither table names a device the manager does not know. */
  predicate KnowsNoMore(m: Mgr) {
    m.sel.devices.Keys <= m.devices.Keys && m.workers.Keys <= m.devices.Keys
  }

  ghost predicate Tidy(s: Sys)
    requires Inv(s.m.sel)
  {
    && AgreeInTheEnd(s) && KnowsNoMore(Finish(s))
    && forall c :: c in s.holders ==> s.holders[c].worker.Worker?
  }

  /** Events that leave the workers in both tables alone. */
  predicate Aside(e: Event) {
    !(e.JoinBegins? || e.JoinEnds? || e.CloseBegins? || e.CloseEnds? || e.GivesBack? || e.Deletes?)
  }

  lemma JoinTouchesNoTable(m: Mgr, d: string, origin: string, conn: int, folded: Stats, w: Worker)
    ensures var m' := DeviceRegistered(m, d, origin, conn, folded);
            (Tabled(m', w) <==> Tabled(m, w)) && (Live(m'.sel, w) <==> Live(m.sel, w))
  {
    hide Live, Queued, Switch, SetEnabled, Plus;
    SwitchViews(m.sel, true, d, w, "");
  }

  lemma DeviceEventTouchesNoTable(s: Sys, e: Event, w: Worker)
    requires Inv(s.m.sel) && CanHappen(s, e) && (e.DeviceJoins? || e.DeviceCloses? || e.Enables? || e.Disables?)
    ensures (Tabled(Next(s, e).m, w) <==> Tabled(s.m, w)) && (Live(Next(s, e).m.sel, w) <==> Live(s.m.sel, w))
  {
    hide OnJoinBegins, OnJoinEnds, OnCloseBegins, OnCloseEnds, OnDeletes, OnClaims, OnGivesBack, OnCompletes, OnTraffic;
    hide Inv, Live, Queued, Switch, SetEnabled, SetDisabled, LogOf, Entry, Plus, Grown, DeviceRegistered, MayPick;
    match e
    case DeviceJoins(d, origin, conn, _) => JoinTouchesNoTable(s.m, d, origin, conn, CountedBy(s, Current(s, d)), w);
    case DeviceCloses(conn) => SwitchViews(s.m.sel, false, s.conns[conn], w, "");
    case Enables(d) => SwitchViews(s.m.sel, true, d, w, "");
    case Disables(d) => SwitchViews(s.m.sel, false, d, w, "");
    case _ =>
  }

  lemma SelectorEventTouchesNoTable(s: Sys, e: Event, w: Worker)
    requires Inv(s.m.sel) && CanHappen(s, e) && (e.Prunes? || e.Claims? || e.Configures?)
    ensures (Tabled(Next(s, e).m, w) <==> Tabled(s.m, w)) && (Live(Next(s, e).m.sel, w) <==> Live(s.m.sel, w))
  {
    hide OnJoinBegins, OnJoinEnds, OnCloseBegins, OnCloseEnds, OnDeviceJoins, OnDeviceCloses, OnEnables;
    hide OnDisables, OnDeletes, OnGivesBack, OnCompletes, OnTraffic;
    hide Inv, Live, Queued, Switch, ForgetAll, Selected, AtMax, Rank, Handout;
    match e
    case Prunes(now) => ForgetViews(s.m.sel, SEEN_RETENTION, now, w, "");
    case Claims(_, weight, now, pick) => SelectedViews(s.m.sel, ClampWeight(weight), now, pick, w, "");
    case Configures(limit) => LimitViews(s.m.sel, limit, w);
    case _ =>
  }

  /** The other events leave both tables as they were. */
  lemma TablesUntouched(s: Sys, e: Event, w: Worker)
    requires Inv(s.m.sel) && CanHappen(s, e) && Aside(e)
    ensures (Tabled(Next(s, e).m, w) <==> Tabled(s.m, w)) && (Live(Next(s, e).m.sel, w) <==> Live(s.m.sel, w))
  {
    if e.DeviceJoins? || e.DeviceCloses? || e.Enables? || e.Disables? {
      DeviceEventTouchesNoTable(s, e, w);
    } else if e.Prunes? || e.Claims? || e.Configures? {
      SelectorEventTouchesNoTable(s, e, w);
    } else {
      hide Inv, MayPick, Tabled, Live;
    }
  }

  lemma SelectedKnows(s: Sel, weight: int, now: int, pick: Option<string>)
    requires Inv(s) && MayPick(s, ClampWeight(weight), now, pick)
    ensures Selected(s, ClampWeight(weight), now, pick).devices.Keys == s.devices.Keys
  {
    hide Inv, Rank, AtMax, Claim, Looked;
  }

  /** Nor do they make known to the tables a device the manager does not know. */
  lemma AsideKnowsNoMore(s: Sys, e: Event)
    requires Inv(s.m.sel) && CanHappen(s, e) && Aside(e) && KnowsNoMore(s.m)
    ensures KnowsNoMore(Next(s, e).m)
    ensures s.pending == NoSection ==> Next(s, e).pending == NoSection
  {
    if e.DeviceJoins? || e.DeviceCloses? || e.Enables? || e.Disables? {
      DeviceEventKnowsNoMore(s, e);
    } else {
      if e.Claims? {
        SelectedKnows(s.m.sel, e.weight, e.now, e.pick);
      }
      hide OnDeviceJoins, OnDeviceCloses, OnEnables, OnDisables, OnJoinBegins, OnJoinEnds, OnCloseBegins;
      hide OnCloseEnds, OnDeletes, OnGivesBack;
      hide Inv, MayPick, Plus, Grown, Selected, Forget;
    }
  }

  lemma DeviceEventKnowsNoMore(s: Sys, e: Event)
    requires Inv(s.m.sel) && CanHappen(s, e) && (e.DeviceJoins? || e.DeviceCloses? || e.Enables? || e.Disables?)
    requires KnowsNoMore(s.m)
    ensures KnowsNoMore(Next(s, e).m) && Next(s, e).pending == s.pending
  {
    if e.DeviceJoins? {
      RegisteredKnowsNoMore(s.m, e.d, e.origin, e.conn, CountedBy(s, Current(s, e.d)));
    }
    hide OnJoinBegins, OnJoinEnds, OnCloseBegins, OnCloseEnds, OnDeletes, OnClaims, OnGivesBack, OnCompletes, OnTraffic;
    hide Inv, MayPick, Plus, Grown, LogOf, Entry, DeviceRegistered, CountedBy;
  }

  lemma RegisteredKnowsNoMore(m: Mgr, d: string, origin: string, conn: int, folded: Stats)
    requires KnowsNoMore(m)
    ensures KnowsNoMore(DeviceRegistered(m, d, origin, conn, folded))
  {
    hide Plus;
  }

  /** What a failed registration gives back does no harm. */
  predicate DoesNoHarm(s: Sys, e: Event)
    requires Inv(s.m.sel)
  {
    e.GivesBack? && e.ctrl in s.holders ==> Harmless(s, s.holders[e.ctrl].worker)
  }

  ghost predicate GiveBacksDoNoHarm(s: Sys, es: seq<Event>)
    requires Inv(s.m.sel) && CanRun(s, es)
    decreases |es|
  {
    es != [] ==> DoesNoHarm(s, es[0]) && GiveBacksDoNoHarm(Next(s, es[0]), es[1..])
  }

  ghost predicate HoldWorkers(s: Sys) {
    forall c :: c in s.holders ==> s.holders[c].worker.Worker?
  }

  lemma NextKeepsHolders(s: Sys, e: Event)
    requires Inv(s.m.sel) && CanHappen(s, e) && HoldWorkers(s)
    ensures HoldWorkers(Next(s, e))
  {
    hide Inv, MayPick, Handout, Selected;
    if e.Claims? && e.pick.Some? {
      PickIsQueued(s.m.sel, ClampWeight(e.weight), e.now, e.pick);
    }
  }

  lemma PickIsQueued(s: Sel, weight: int, now: int, pick: Option<string>)
    requires Inv(s) && MayPick(s, weight, now, pick) && pick.Some?
    ensures Handout(s, pick).Worker?
  {
    hide Inv, Rank, AtMax, Handout, Selected, Live, Queued;
    SelectedViews(s, weight, now, pick, NoWorker, "");
  }

  lemma JoinBeginsTidily(s: Sys, w: Worker, origin: string)
    requires Inv(s.m.sel) && w.Worker? && s.pending == NoSection && Tidy(s)
    ensures Tidy(OnJoinBegins(s, w, origin))
  {
    hide Inv, Agree, WorkerAvailable, SetDisabled;
    JoinKeepsAgree(s.m, w, origin);
    SwitchKeepsInv(s.m.sel, w.deviceID);
    RegisteredKnows(s.m, w, origin);
    assert WorkerRefusal(w, origin).None? ==> Finish(OnJoinBegins(s, w, origin)) == WorkerRegistered(s.m, w, origin);
  }

  lemma RegisteredKnows(m: Mgr, w: Worker, origin: string)
    requires Inv(m.sel) && w.Worker? && KnowsNoMore(m)
    ensures KnowsNoMore(WorkerRegistered(m, w, origin))
  {
    hide Inv, Announce;
  }

  lemma CloseBeginsTidily(s: Sys, w: Worker, now: int)
    requires Inv(s.m.sel) && w.Worker? && s.pending == NoSection && Tidy(s)
    ensures Tidy(OnCloseBegins(s, w, now))
  {
    hide Inv, Agree, Depart;
    CloseKeepsAgree(s.m, w, now);
  }

  lemma SectionEndsTidily(s: Sys, e: Event)
    requires Inv(s.m.sel) && CanHappen(s, e) && (e.JoinEnds? || e.CloseEnds?) && Tidy(s)
    ensures Tidy(Next(s, e))
  {
    hide Inv, Agree, WorkerEntered, WorkerUntabled;
    assert Finish(Next(s, e)) == Finish(s);
  }

  lemma GivesBackIs(s: Sys, ctrl: int)
    requires Inv(s.m.sel) && CanHappen(s, GivesBack(ctrl))
    ensures ctrl in s.holders
    ensures Next(s, GivesBack(ctrl))
         == s.(m := WorkerGivenBack(s.m, s.holders[ctrl].worker), holders := s.holders - {ctrl})
  {
    hide OnJoinBegins, OnJoinEnds, OnCloseBegins, OnCloseEnds, OnDeviceJoins, OnDeviceCloses, OnEnables;
    hide OnDisables, OnDeletes, OnClaims, OnCompletes, OnTraffic;
    hide Inv, MayPick, WorkerGivenBack;
  }

  lemma GivenBackTidily(s: Sys, ctrl: int)
    requires Inv(s.m.sel) && CanHappen(s, GivesBack(ctrl)) && Tidy(s) && Harmless(s, s.holders[ctrl].worker)
    ensures Tidy(Next(s, GivesBack(ctrl)))
  {
    GivesBackIs(s, ctrl);
    GiveBackAgreesExactly(s, ctrl);
    hide Inv, CanHappen, Next, AgreeInTheEnd, KnowsNoMore, WorkerGivenBack, Harmless;
    GivenBackKnows(s, Next(s, GivesBack(ctrl)), s.holders[ctrl].worker);
  }

  lemma GivenBackKnows(s: Sys, s': Sys, w: Worker)
    requires Inv(s.m.sel) && w.Worker? && KnowsNoMore(Finish(s)) && Harmless(s, w)
    requires s'.m == WorkerGivenBack(s.m, w) && s'.pending == s.pending
    ensures Inv(s'.m.sel) && KnowsNoMore(Finish(s'))
  {
    HarmlessIsKnown(s, w);
    WorkerAvailableKeepsInv(s.m.sel, w);
    AnnouncedKeys(s.m.sel, w);
    FinishKeys(s);
    FinishKeys(s');
    hide Inv, Finish, WorkerAvailable, Harmless;
  }

  /** The device of a worker about to be entered. */
  function Entering(s: Sys): set<string> {
    if s.pending.Joining? && s.pending.w.Worker? then {s.pending.w.deviceID} else {}
  }

  lemma FinishKeys(s: Sys)
    requires Inv(s.m.sel)
    ensures Finish(s).devices == s.m.devices
    ensures Finish(s).workers.Keys == s.m.workers.Keys + Entering(s)
    ensures Finish(s).sel.devices.Keys == s.m.sel.devices.Keys + Entering(s)
  {
    hide Inv, WorkerEntered, WorkerUntabled;
    match s.pending
    case NoSection =>
    case Joining(w) => if w.Worker? { EnteredKeys(s.m, w); }
    case Closing(w) => UntabledKeys(s.m, w);
  }

  lemma EnteredKeys(m: Mgr, w: Worker)
    requires Inv(m.sel) && w.Worker?
    ensures var m' := WorkerEntered(m, w);
            && m'.devices == m.devices && m'.workers.Keys == m.workers.Keys + {w.deviceID}
            && m'.sel.devices.Keys == m.sel.devices.Keys + {w.deviceID}
  {
    AnnouncedKeys(m.sel, w);
    hide Inv, WorkerAvailable;
  }

  lemma UntabledKeys(m: Mgr, w: Worker)
    ensures var m' := WorkerUntabled(m, w);
            m'.devices == m.devices && m'.workers.Keys == m.workers.Keys && m'.sel == m.sel
  {
  }

  lemma AnnouncedKeys(s: Sel, w: Worker)
    requires Inv(s) && w.Worker?
    ensures WorkerAvailable(s, w).devices.Keys == s.devices.Keys + {w.deviceID}
  {
    hide Inv, Announce;
  }

  lemma HarmlessIsKnown(s: Sys, w: Worker)
    requires Inv(s.m.sel) && Harmless(s, w)
    ensures w.Worker? && w.deviceID in Finish(s).workers.Keys
  {
    hide Inv, WorkerAvailable;
  }

  lemma DeletedTidily(s: Sys, d: string)
    requires Inv(s.m.sel) && s.pending == NoSection && Tidy(s)
    ensures Tidy(OnDeletes(s, d))
  {
    hide Inv, Agree, HasAssigned;
    DeleteKeepsAgree(s.m, d);
    if DeletionRefusal(s.m, d).None? {
      DeleteRemovesFromSelector(s.m, d);
    }
  }

  lemma AsideTidily(s: Sys, e: Event)
    requires Inv(s.m.sel) && CanHappen(s, e) && Aside(e) && s.pending == NoSection && Tidy(s)
    ensures Tidy(Next(s, e))
  {
    NextKeepsHolders(s, e);
    AsideKnowsNoMore(s, e);
    hide Inv, CanHappen, Next, Tabled, Live, KnowsNoMore;
    forall w: Worker ensures Tabled(Next(s, e).m, w) <==> Live(Next(s, e).m.sel, w) {
      TablesUntouched(s, e, w);
      assert Tabled(s.m, w) <==> Live(s.m.sel, w);
    }
  }

  /** A change of the limit in the middle of a section. */
  lemma LimitTidily(s: Sys, limit: Limit)
    requires Inv(s.m.sel) && Tidy(s)
    ensures Tidy(Next(s, Configures(limit)))
  {
    hide Inv, Live, Announce;
    var s' := Next(s, Configures(limit));
    assert ValidLimit(limit) ==> Finish(s') == Finish(s).(sel := Finish(s).sel.(limit := limit));
    forall w: Worker ensures Tabled(Finish(s'), w) <==> Live(Finish(s').sel, w) {
      assert Tabled(Finish(s), w) <==> Live(Finish(s).sel, w);
      LimitViews(Finish(s).sel, limit, w);
    }
  }

  lemma TrafficTidily(s: Sys, conn: int, st: Stats)
    requires Inv(s.m.sel) && CanHappen(s, Traffic(conn, st)) && Tidy(s)
    ensures Tidy(Next(s, Traffic(conn, st)))
  {
    hide Inv, Agree;
    assert Finish(Next(s, Traffic(conn, st))) == Finish(s);
  }

  lemma NextKeepsTidy(s: Sys, e: Event)
    requires Inv(s.m.sel) && CanHappen(s, e) && Tidy(s) && DoesNoHarm(s, e)
    ensures Tidy(Next(s, e))
  {
    hide Inv, Tidy, Harmless, MayPick, OnJoinBegins, OnCloseBegins, OnJoinEnds, OnCloseEnds, OnDeletes;
    hide OnGivesBack, OnDeviceJoins, OnDeviceCloses, OnEnables, OnDisables, OnClaims, OnTraffic;
    match e
    case JoinBegins(w, origin) => JoinBeginsTidily(s, w, origin);
    case JoinEnds => SectionEndsTidily(s, e);
    case CloseBegins(w, now) => CloseBeginsTidily(s, w, now);
    case CloseEnds => SectionEndsTidily(s, e);
    case GivesBack(ctrl) => GivenBackTidily(s, ctrl);
    case Deletes(d) => DeletedTidily(s, d);
    case Configures(limit) => LimitTidily(s, limit);
    case Traffic(conn, st) => TrafficTidily(s, conn, st);
    case _ => AsideTidily(s, e);
  }

  lemma {:induction false} RunKeepsTidy(s: Sys, es: seq<Event>)
    requires Inv(s.m.sel) && CanRun(s, es) && Tidy(s) && GiveBacksDoNoHarm(s, es)
    ensures Tidy(Run(s, es))
    decreases |es|
  {
    hide CanHappen, Next, Tidy, DoesNoHarm, Inv;
    if es != [] {
      NextKeepsTidy(s, es[0]);
      RunKeepsTidy(Next(s, es[0]), es[1..]);
    }
  }

  lemma StartsTidy(limit: Limit)
    ensures Tidy(Start(limit))
  {
  }

  /**
   Main result, table agreement: in every run whose give-backs do no harm, with the section in progress finished, a
   connection is in the manager's table exactly when the selector holds it live, neither table names a device the
   manager does not know, and any delete the manager would accept also takes the device out of the selector.
  */
  lemma TablesAgree(limit: Limit, es: seq<Event>, d: string)
    requires CanRun(Start(limit), es) && GiveBacksDoNoHarm(Start(limit), es)
    ensures var m := Finish(Run(Start(limit), es));
            && (forall w: Worker :: Tabled(m, w) <==> Live(m.sel, w))
            && KnowsNoMore(m)
            && (DeletionRefusal(m, d).None? ==> d !in DeviceDeleted(m, d).sel.devices)
  {
    StartsTidy(limit);
    hide CanHappen, CanRun, Next, Run, GiveBacksDoNoHarm, Start;
    RunKeepsTidy(Start(limit), es);
    var s := Run(Start(limit), es);
    FinishKeepsInv(s);
    var m := Finish(s);
    if DeletionRefusal(m, d).None? {
      DeleteRemovesFromSelector(m, d);
    }
  }

  lemma FinishKeepsInv(s: Sys)
    requires Inv(s.m.sel)
    ensures Inv(Finish(s).sel)
  {
    hide Inv;
  }

  // ------------------------------------------------------------ give-backs that do harm

  /** The connection is on offer, with no entry in the manager's table and no section in progress. */
  predicate LivesUntabled(s: Sys, w: Worker) {
    s.pending == NoSection && !Tabled(s.m, w) && Live(s.m.sel, w)
  }

  /** Given back, a connection is on offer, whatever the manager's table says. */
  lemma GivenBackIsLive(s: Sys, ctrl: int)
    requires Inv(s.m.sel) && CanHappen(s, GivesBack(ctrl)) && s.holders[ctrl].worker.Worker?
    ensures var w, s' := s.holders[ctrl].worker, Next(s, GivesBack(ctrl));
            && Live(s'.m.sel, w)
            && s'.m.workers == s.m.workers && s'.m.devices == s.m.devices && s'.pending == s.pending
  {
    GivesBackIs(s, ctrl);
    hide Inv, WorkerAvailable, Live, Queued, Switch, CanHappen, Next;
    AvailableViews(s.m.sel, s.holders[ctrl].worker, s.holders[ctrl].worker, "");
  }

  /** The worker's close, with its connection claimed by registration 1. */
  lemma ClaimedCloses(s: Sys, now: int)
    requires Inv(s.m.sel) && OneClaimed(s)
    ensures CanHappen(s, CloseBegins(WORKER, now))
    ensures var s' := Next(s, CloseBegins(WORKER, now));
            && s'.m.devices == s.m.devices && s'.m.workers == map["d" := map["w" := WORKER]]
            && s'.holders == map[1 := Pending(WORKER)] && s'.pending == Closing(WORKER) && s'.conns == s.conns
  {
    hide OnJoinBegins, OnJoinEnds, OnCloseEnds, OnDeviceJoins, OnDeviceCloses, OnEnables, OnDisables;
    hide OnDeletes, OnClaims, OnGivesBack, OnCompletes, OnTraffic;
    hide Inv, WorkerUnavailable, MayPick;
  }

  lemma ClaimedCanFail(s: Sys)
    requires Inv(s.m.sel) && s.holders == map[1 := Pending(WORKER)]
    ensures CanHappen(s, GivesBack(1))
  {
    hide Inv, MayPick;
  }

  lemma CloseEndsUntabled(s: Sys)
    requires Inv(s.m.sel) && s.pending == Closing(WORKER) && s.m.workers == map["d" := map["w" := WORKER]]
    ensures CanHappen(s, CloseEnds)
    ensures var s' := Next(s, CloseEnds);
            && s'.m.workers == map["d" := map[]] && s'.pending == NoSection
            && s'.m.devices == s.m.devices && s'.m.sel == s.m.sel && s'.holders == s.holders && s'.conns == s.conns
  {
    hide OnJoinBegins, OnJoinEnds, OnCloseBegins, OnDeviceJoins, OnDeviceCloses, OnEnables, OnDisables;
    hide OnDeletes, OnClaims, OnGivesBack, OnCompletes, OnTraffic;
    hide Inv, MayPick;
    assert map["w" := WORKER] - {"w"} == map[];
  }

  /** A worker closes during a registration, which then fails: the connection is offered again, untabled. */
  lemma StaleGiveBackBreaksAgreement()
    ensures exists es: seq<Event> :: CanRun(Start(LIMIT), es) && LivesUntabled(Run(Start(LIMIT), es), WORKER)
  {
    hide Inv, CanHappen, Next, Live;
    var before := JoinAndClaim();
    var s := Run(Start(LIMIT), before);
    ClaimedCloses(s, 2);
    var s1 := Next(s, CloseBegins(WORKER, 2));
    CloseEndsUntabled(s1);
    var s2 := Next(s1, CloseEnds);
    ClaimedCanFail(s2);
    GivenBackIsLive(s2, 1);
    var s3 := Next(s2, GivesBack(1));
    hide CanHappen, Next, OneClaimed, Live;
    NoMore(s3);
    var rest2 := RunOne(s2, GivesBack(1), s3, []);
    var rest1 := RunOne(s1, CloseEnds, s2, rest2);
    var rest := RunOne(s, CloseBegins(WORKER, 2), s1, rest1);
    RunTwice(Start(LIMIT), before, rest);
  }

  /** The close of a claimed worker, with the give-back between its two steps. */
  lemma GivenBackMidClose(s: Sys) returns (s1: Sys, s2: Sys, s3: Sys)
    requires Inv(s.m.sel) && OneClaimed(s)
    ensures CanHappen(s, CloseBegins(WORKER, 2)) && s1 == Next(s, CloseBegins(WORKER, 2)) && Tabled(s1.m, WORKER)
    ensures CanHappen(s1, GivesBack(1)) && s2 == Next(s1, GivesBack(1))
    ensures CanHappen(s2, CloseEnds) && s3 == Next(s2, CloseEnds) && LivesUntabled(s3, WORKER)
  {
    hide Inv, CanHappen, Next, Live, OneClaimed, Tabled;
    ClaimedCloses(s, 2);
    s1 := Next(s, CloseBegins(WORKER, 2));
    ClaimedCanFail(s1);
    GivenBackIsLive(s1, 1);
    s2 := Next(s1, GivesBack(1));
    CloseEndsUntabled(s2);
    s3 := Next(s2, CloseEnds);
    ThereOrNot(s1.m, s3.m);
  }

  lemma ThereOrNot(there: Mgr, gone: Mgr)
    requires there.workers == map["d" := map["w" := WORKER]] && gone.workers == map["d" := map[]]
    ensures Tabled(there, WORKER) && !Tabled(gone, WORKER)
  {
  }

  /**
   Being current at the moment is not enough: a give-back between the two steps of its own close is, and breaks
   them too.
  */
  lemma CurrentGiveBackCanBreakAgreement()
    ensures exists before: seq<Event> :: CanRun(Start(LIMIT), before) && BreaksThoughCurrent(Run(Start(LIMIT), before))
  {
    var claimed := JoinAndClaim();
    var s := Run(Start(LIMIT), claimed);
    var s1, s2, s3 := GivenBackMidClose(s);
    hide CanHappen, Next, OneClaimed, LivesUntabled, Tabled;
    NoMore(s1);
    var close := RunOne(s, CloseBegins(WORKER, 2), s1, []);
    RunTwice(Start(LIMIT), claimed, close);
    assert BreaksThoughCurrent(s1);
  }

  /**
   The worker is in the table, and its give-back now leaves it on offer and out of the table once the section
   is done.
  */
  ghost predicate BreaksThoughCurrent(s: Sys)
    requires Inv(s.m.sel)
  {
    && Tabled(s.m, WORKER) && CanHappen(s, GivesBack(1))
    && CanHappen(Next(s, GivesBack(1)), CloseEnds)
    && LivesUntabled(Next(Next(s, GivesBack(1)), CloseEnds), WORKER)
  }

  lemma {:induction false} NoneGivenBack(s: Sys, es: seq<Event>)
    requires Inv(s.m.sel) && CanRun(s, es) && NoneGivesBack(es)
    ensures GiveBacksDoNoHarm(s, es)
    decreases |es|
  {
    hide Inv, CanHappen, Next, Harmless;
    if es != [] {
      var rest := es[1..];
      assert !es[0].GivesBack? && forall i :: 0 <= i < |rest| ==> rest[i] == es[i + 1];
      NoneGivenBack(Next(s, es[0]), rest);
    }
  }

  lemma LastConnCloses(s: Sys)
    requires Inv(s.m.sel) && s.pending == NoSection && s.conns == map[7 := "d"]
    requires s.m.devices == map["d" := Device("o", Some(7), true, ZERO_STATS)] && s.m.workers == map["d" := map[]]
    ensures CanHappen(s, DeviceCloses(7))
    ensures var s' := Next(s, DeviceCloses(7));
            && s'.pending == NoSection && s'.m.devices.Keys == {"d"} && s'.m.devices["d"].conn.None?
            && s'.m.workers == s.m.workers && s'.holders == s.holders
  {
    hide OnJoinBegins, OnJoinEnds, OnCloseBegins, OnCloseEnds, OnDeviceJoins, OnEnables, OnDisables;
    hide OnDeletes, OnClaims, OnGivesBack, OnCompletes, OnTraffic;
    hide Inv, SetDisabled, Plus, MayPick;
  }

  /** The selector may choose from a device the manager does not know. */
  predicate Revived(m: Mgr, d: string) {
    d !in m.devices && Switch(m.sel, d) == Some(true)
  }

  lemma DeletedThenGivenBack(s: Sys)
    requires Inv(s.m.sel) && s.pending == NoSection && s.holders == map[1 := Pending(WORKER)]
    requires s.m.workers == map["d" := map[]]
    requires s.m.devices.Keys == {"d"} && s.m.devices["d"].conn.None? && "d" !in RemoveIfDead(s.m.sel, "d").devices
    ensures CanHappen(s, Deletes("d")) && CanHappen(Next(s, Deletes("d")), GivesBack(1))
    ensures Revived(Next(Next(s, Deletes("d")), GivesBack(1)).m, "d")
  {
    hide Inv, Announce, RemoveIfDead;
    hide OnJoinBegins, OnJoinEnds, OnCloseBegins, OnCloseEnds, OnDeviceJoins, OnDeviceCloses, OnEnables;
    hide OnDisables, OnClaims, OnGivesBack, OnCompletes, OnTraffic, MayPick;
    var s' := Next(s, Deletes("d"));
    ClaimedCanFail(s');
    GivesBackIs(s', 1);
    AvailableViews(s'.m.sel, WORKER, WORKER, "d");
  }

  /** A give-back after the device's delete brings it back, in the selector alone, switched on. */
  lemma StaleGiveBackRevivesADevice()
    ensures exists es: seq<Event> :: CanRun(Start(LIMIT), es) && Revived(Run(Start(LIMIT), es).m, "d")
  {
    hide Inv, CanHappen, Next, Live;
    var before := JoinAndClaim();
    var s := Run(Start(LIMIT), before);
    ClaimedCloses(s, 2);
    var s1 := Next(s, CloseBegins(WORKER, 2));
    CloseEndsUntabled(s1);
    var s2 := Next(s1, CloseEnds);
    LastConnCloses(s2);
    var s3 := Next(s2, DeviceCloses(7));
    NoneGivenBack(Start(LIMIT), before);
    StartsTidy(LIMIT);
    RunKeepsTidy(Start(LIMIT), before);
    NextKeepsTidy(s, CloseBegins(WORKER, 2));
    NextKeepsTidy(s1, CloseEnds);
    NextKeepsTidy(s2, DeviceCloses(7));
    DeleteRemovesFromSelector(s3.m, "d");
    DeletedThenGivenBack(s3);
    var s4 := Next(s3, Deletes("d"));
    var s5 := Next(s4, GivesBack(1));
    hide CanHappen, Next, OneClaimed, Revived;
    NoMore(s5);
    var rest4 := RunOne(s4, GivesBack(1), s5, []);
    var rest3 := RunOne(s3, Deletes("d"), s4, rest4);
    var rest2 := RunOne(s2, DeviceCloses(7), s3, rest3);
    var rest1 := RunOne(s1, CloseEnds, s2, rest2);
    var rest := RunOne(s, CloseBegins(WORKER, 2), s1, rest1);
    RunTwice(Start(LIMIT), before, rest);
  }
}
