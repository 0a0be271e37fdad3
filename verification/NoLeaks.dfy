/** Over whole runs of the manager no worker connection is lost: one that is live is on offer, or held. */
module NoLeaks {
  import opened Basics
  import opened History
  import opened SelectorModel
  import opened SelectorViews
  import opened ManagerModel
  import opened ManagerRuns

  /** The selector holds the connection live, but would not hand it out: it is assigned. */
  predicate Taken(s: Sys, w: Worker) {
    Live(s.m.sel, w) && !Queued(s.m.sel, w)
  }

  ghost predicate Held(s: Sys, w: Worker) {
    exists c :: Holds(s, c, w)
  }

  ghost predicate TakenAreHeld(s: Sys) {
    forall w :: Taken(s, w) ==> Held(s, w)
  }

  /** Every event but a claim takes nothing, and a connection announced is not taken. */
  lemma NothingNewTaken(s: Sys, e: Event, w: Worker)
    requires Inv(s.m.sel) && CanHappen(s, e) && !e.Claims? && !e.GivesBack? && !e.Completes?
    ensures Taken(Next(s, e), w) ==> Taken(s, w)
  {
    hide Inv, Live, Queued, SetEnabled, SetDisabled, ForgetAll, RemoveIfDead, WorkerUnavailable, WorkerAvailable;
    match e
    case JoinBegins(v, _) => SwitchViews(s.m.sel, false, v.deviceID, w, "");
    case JoinEnds => AvailableViews(s.m.sel, s.pending.w, w, "");
    case CloseBegins(v, now) => UnavailableViews(s.m.sel, v, now, w, "");
    case CloseEnds =>
    case DeviceJoins(d, _, _, _) => SwitchViews(s.m.sel, true, d, w, "");
    case DeviceCloses(conn) => SwitchViews(s.m.sel, false, s.conns[conn], w, "");
    case Enables(d) => SwitchViews(s.m.sel, true, d, w, "");
    case Disables(d) => SwitchViews(s.m.sel, false, d, w, "");
    case Deletes(d) => RemoveKeepsTaken(s.m.sel, d, w);
    case Prunes(now) => ForgetViews(s.m.sel, SEEN_RETENTION, now, w, "");
    case ControllerCloses(_) =>
    case Traffic(_, _) =>
    case Configures(limit) => LimitViews(s.m.sel, limit, w);
  }

  lemma RemoveKeepsTaken(s: Sel, d: string, w: Worker)
    ensures Live(RemoveIfDead(s, d), w) && !Queued(RemoveIfDead(s, d), w) ==> Live(s, w) && !Queued(s, w)
  {
    RemoveViews(s, d, w, "");
  }

  lemma HoldersKept(s: Sys, e: Event)
    requires Inv(s.m.sel) && CanHappen(s, e) && !e.Claims? && !e.GivesBack? && !e.Completes?
    ensures Next(s, e).holders == s.holders
  {
    hide OnClaims, OnGivesBack, OnCompletes, Inv, MayPick;
  }

  lemma OthersKeepHeld(s: Sys, e: Event)
    requires Inv(s.m.sel) && CanHappen(s, e) && TakenAreHeld(s) && !e.Claims? && !e.GivesBack? && !e.Completes?
    ensures TakenAreHeld(Next(s, e))
  {
    hide Next, CanHappen, Inv, Taken;
    HoldersKept(s, e);
    forall w | Taken(Next(s, e), w) ensures Held(Next(s, e), w) {
      NothingNewTaken(s, e, w);
      var c :| Holds(s, c, w);
      assert Holds(Next(s, e), c, w);
    }
  }

  lemma SelectionTakes(s: Sel, weight: int, now: int, pick: Option<string>, w: Worker)
    requires Inv(s) && (pick.Some? ==> pick.value in s.devices && s.devices[pick.value].queue != [])
    ensures var s' := Selected(s, weight, now, pick);
            Live(s', w) && !Queued(s', w) ==>
              (Live(s, w) && !Queued(s, w)) || (pick.Some? && w == Handout(s, pick))
  {
    hide Inv, Selected, Queued;
    SelectedViews(s, weight, now, pick, w, "");
  }

  /** What a claim takes, its own registration holds. */
  lemma ClaimKeepsHeld(s: Sys, ctrl: int, weight: int, now: int, pick: Option<string>)
    requires Inv(s.m.sel) && TakenAreHeld(s) && ctrl !in s.holders && MayPick(s.m.sel, ClampWeight(weight), now, pick)
    ensures TakenAreHeld(OnClaims(s, ctrl, weight, now, pick))
  {
    hide Inv, Live, Queued, Selected, Handout, AtMax, Rank;
    var s' := OnClaims(s, ctrl, weight, now, pick);
    forall w | Taken(s', w) ensures Held(s', w) {
      SelectionTakes(s.m.sel, ClampWeight(weight), now, pick, w);
      if Taken(s, w) {
        var c :| Holds(s, c, w);
        assert Holds(s', c, w);
      } else {
        assert Holds(s', ctrl, w);
      }
    }
  }

  /** What is given back is on offer again, if it was anything. */
  lemma GiveBackKeepsHeld(s: Sys, ctrl: int)
    requires Inv(s.m.sel) && TakenAreHeld(s) && ctrl in s.holders
    ensures TakenAreHeld(OnGivesBack(s, ctrl))
  {
    hide Inv, Live, Queued;
    var s', h := OnGivesBack(s, ctrl), s.holders[ctrl].worker;
    forall w | Taken(s', w) ensures Held(s', w) {
      GivenBackIsNotTaken(s.m.sel, h, w);
      assert Taken(s, w);
      var c :| Holds(s, c, w);
      assert Holds(s', c, w);
    }
  }

  lemma GivenBackIsNotTaken(s: Sel, h: Worker, w: Worker)
    requires Inv(s)
    ensures var s' := WorkerAvailable(s, h);
            Live(s', w) && !Queued(s', w) ==> w != h && Live(s, w) && !Queued(s, w)
  {
    hide Inv;
    if h.Worker? {
      AvailableViews(s, h, w, "");
    }
  }

  lemma CompleteKeepsHeld(s: Sys, ctrl: int, uuid: string)
    requires TakenAreHeld(s) && ctrl in s.holders
    ensures TakenAreHeld(OnCompletes(s, ctrl, uuid))
  {
    hide Live, Queued;
    var s' := OnCompletes(s, ctrl, uuid);
    forall w | Taken(s', w) ensures Held(s', w) {
      assert Taken(s, w);
      var c :| Holds(s, c, w);
      assert Holds(s', c, w);
    }
  }

  lemma NextKeepsHeld(s: Sys, e: Event)
    requires Inv(s.m.sel) && CanHappen(s, e) && TakenAreHeld(s)
    ensures TakenAreHeld(Next(s, e))
  {
    hide Inv, TakenAreHeld, MayPick;
    hide OnJoinBegins, OnJoinEnds, OnCloseBegins, OnCloseEnds, OnDeviceJoins, OnDeviceCloses, OnEnables, OnDisables;
    hide OnDeletes, OnClaims, OnGivesBack, OnCompletes, OnTraffic;
    match e
    case Claims(ctrl, weight, now, pick) => ClaimKeepsHeld(s, ctrl, weight, now, pick);
    case GivesBack(ctrl) => GiveBackKeepsHeld(s, ctrl);
    case Completes(ctrl, uuid) => CompleteKeepsHeld(s, ctrl, uuid);
    case _ => OthersKeepHeld(s, e);
  }

  lemma {:induction false} RunKeepsHeld(s: Sys, es: seq<Event>)
    requires Inv(s.m.sel) && CanRun(s, es) && TakenAreHeld(s)
    ensures TakenAreHeld(Run(s, es))
    decreases |es|
  {
    hide CanHappen, Next, TakenAreHeld;
    if es != [] {
      NextKeepsHeld(s, es[0]);
      RunKeepsHeld(Next(s, es[0]), es[1..]);
    }
  }

  lemma HeldExactlyWhenNotOnOffer(s: Sys, w: Worker)
    requires Exclusive(s) && TakenAreHeld(s) && Live(s.m.sel, w)
    ensures Queued(s.m.sel, w) <==> forall c :: !Holds(s, c, w)
    ensures forall c, c' :: Holds(s, c, w) && Holds(s, c', w) ==> c == c'
  {
    hide Queued, Live;
    if Queued(s.m.sel, w) {
      assert OnOffer(s, w);
    } else {
      assert Taken(s, w);
    }
  }

  /**
   Main result, nothing leaks: in every reachable state a worker connection the selector holds live is either on offer
   and held by no registration, or not on offer and held by exactly one.
  */
  lemma NothingLeaks(limit: Limit, es: seq<Event>, w: Worker)
    requires CanRun(Start(limit), es) && Live(Run(Start(limit), es).m.sel, w)
    ensures var s := Run(Start(limit), es);
            && (Queued(s.m.sel, w) <==> forall c :: !Holds(s, c, w))
            && (!Queued(s.m.sel, w) <==> exists c :: Holds(s, c, w) && forall c' :: Holds(s, c', w) ==> c' == c)
  {
    hide CanHappen, Next, Run, CanRun, Queued, Live, Exclusive, TakenAreHeld;
    StartsWithNothing(limit);
    RunKeepsExclusive(Start(limit), es);
    RunKeepsHeld(Start(limit), es);
    HeldExactlyWhenNotOnOffer(Run(Start(limit), es), w);
  }

  lemma StartsWithNothing(limit: Limit)
    ensures Exclusive(Start(limit)) && TakenAreHeld(Start(limit))
  {
  }
}
