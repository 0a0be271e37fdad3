/**
 Whole runs of the connection manager: any interleaving of connections, closes, requests, prunes and
 controller registrations, each registration being a claim followed, later, by success or by a give-back.

 A step is what runs under one lock.  The give-back holds the selector's lock alone, so it can also fall inside a
 section under the manager's.  Where a section calls the selector once, that is no different from before or after it,
 as the rest of the section and the give-back touch different state; the two sections that also change the table of
 workers, a worker's registration and its close, are therefore two steps each, with `pending` between them.

 Beside the manager's state a run keeps what happened in the world: which connections were ever
 registered, what each has counted, which registrations hold which worker, and what was folded where.
*/
module ManagerRuns {
  import opened Basics
  import opened History
  import opened SelectorModel
  import opened SelectorViews
  import opened ConnStats
  import opened ManagerModel

  /** A controller registration that has claimed a worker, and has or has not completed yet. */
  datatype Holder = Pending(worker: Worker) | Done(worker: Worker, uuid: string)

  /** A connection's statistics as they were when they were added to the device's. */
  datatype Fold = Fold(conn: int, stats: Stats)

  /** A section under the manager's lock that is half done. */
  datatype Section = NoSection | Joining(w: Worker) | Closing(w: Worker)

  datatype Sys = Sys(
    m: Mgr,
    pending: Section,
    joined: set<Worker>,                 // worker connections ever registered
    holders: map<int, Holder>,           // controller registrations that hold, or at last held, a worker
    conns: map<int, string>,             // control connections ever accepted, with their device
    wire: map<int, Stats>,               // what each control connection has counted so far
    accepted: map<string, seq<int>>,     // per device in the table, its control connections in order
    ledger: map<string, seq<Fold>>,      // per device in the table, what has been folded, in order
    late: set<int>,                      // connections with any activity when no longer their device's own
    missed: set<int>,                    // those of them that counted more then
    flipped: set<string>)                // devices switched on by request while they had no connection

  datatype Event =
    | JoinBegins(w: Worker, origin: string)
    | JoinEnds
    | CloseBegins(w: Worker, now: int)
    | CloseEnds
    | DeviceJoins(d: string, origin: string, conn: int, st: Stats)
    | DeviceCloses(conn: int)
    | Enables(d: string)
    | Disables(d: string)
    | Deletes(d: string)
    | Prunes(now: int)
    | Claims(ctrl: int, weight: int, now: int, pick: Option<string>)
    | GivesBack(ctrl: int)
    | Completes(ctrl: int, uuid: string)
    | ControllerCloses(uuid: string)
    | Traffic(conn: int, st: Stats)
    | Configures(limit: Limit)

  function Start(limit: Limit): (s: Sys)
    ensures Inv(s.m.sel)
  {
    Sys(Mgr(map[], map[], map[], Sel(map[], limit)), NoSection, {}, map[], map[], map[], map[], map[], {}, {}, {})
  }

  /** Events that need the manager's lock wait for a section to finish. */
  predicate NeedsManagerLock(e: Event) {
    !(e.JoinEnds? || e.CloseEnds? || e.GivesBack? || e.Traffic? || e.Configures?)
  }

  /** What the world allows: connections are registered once, and their statistics only grow. */
  ghost predicate CanHappen(s: Sys, e: Event) {
    && (NeedsManagerLock(e) ==> s.pending == NoSection)
    && match e
       case JoinBegins(w, _) => w.Worker? && w !in s.joined
       case JoinEnds => s.pending.Joining? && s.pending.w.Worker?
       case CloseBegins(w, _) => w in s.joined && w.Worker?
       case CloseEnds => s.pending.Closing?
       case DeviceJoins(_, _, conn, st) => conn !in s.conns && Grown(ZERO_STATS, st)
       case DeviceCloses(conn) => conn in s.conns
       case Claims(ctrl, weight, now, pick) => ctrl !in s.holders && MayPick(s.m.sel, ClampWeight(weight), now, pick)
       case GivesBack(ctrl) => ctrl in s.holders && s.holders[ctrl].Pending?
       case Completes(ctrl, uuid) => ctrl in s.holders && s.holders[ctrl].Pending? && uuid !in s.m.controllers
       case Traffic(conn, st) => conn in s.wire && Grown(s.wire[conn], st)
       case _ => true
  }

  function Current(s: Sys, d: string): Option<int> {
    if d in s.m.devices then s.m.devices[d].conn else None
  }

  function CountedBy(s: Sys, conn: Option<int>): Stats {
    if conn.Some? && conn.value in s.wire then s.wire[conn.value] else ZERO_STATS
  }

  function LogOf<T>(logs: map<string, seq<T>>, d: string): seq<T> {
    if d in logs then logs[d] else []
  }

  function Entry(s: Sys, conn: Option<int>): seq<Fold> {
    if conn.Some? then [Fold(conn.value, CountedBy(s, conn))] else []
  }

  /** The ledger records a fold for every connection whose statistics the manager adds to its device's. */
  function OnDeviceJoins(s: Sys, d: string, origin: string, conn: int, st: Stats): (s': Sys)
    requires Inv(s.m.sel)
    ensures Inv(s'.m.sel)
  {
    hide Inv, MayPick;
    DevicesKeepInv(s.m, d, origin, conn, CountedBy(s, Current(s, d)));
    if DeviceRefusal(d, origin).Some? then s
    else
      s.(m := DeviceRegistered(s.m, d, origin, conn, CountedBy(s, Current(s, d))),
         conns := s.conns[conn := d], wire := s.wire[conn := st],
         accepted := s.accepted[d := LogOf(s.accepted, d) + [conn]],
         ledger := s.ledger[d := LogOf(s.ledger, d) + Entry(s, Current(s, d))],
         flipped := s.flipped - {d})
  }

  function OnDeviceCloses(s: Sys, conn: int): (s': Sys)
    requires Inv(s.m.sel) && conn in s.conns
    ensures Inv(s'.m.sel)
  {
    hide Inv, MayPick;
    DevicesKeepInv(s.m, s.conns[conn], "", conn, CountedBy(s, Some(conn)));
    var d := s.conns[conn];
    s.(m := DeviceClosed(s.m, d, conn, CountedBy(s, Some(conn))),
       ledger := if Current(s, d) == Some(conn) then s.ledger[d := LogOf(s.ledger, d) + Entry(s, Some(conn))]
                 else s.ledger)
  }

  /** A worker may bring a device into the table. */
  function OnJoinBegins(s: Sys, w: Worker, origin: string): (s': Sys)
    requires Inv(s.m.sel) && w.Worker?
    ensures Inv(s'.m.sel)
  {
    hide Inv, MayPick;
    SwitchKeepsInv(s.m.sel, w.deviceID);
    if WorkerRefusal(w, origin).Some? then s
    else
      s.(m := DeviceForWorker(s.m, w.deviceID, origin), pending := Joining(w),
         accepted := s.accepted[w.deviceID := LogOf(s.accepted, w.deviceID)],
         ledger := s.ledger[w.deviceID := LogOf(s.ledger, w.deviceID)])
  }

  function OnJoinEnds(s: Sys): (s': Sys)
    requires Inv(s.m.sel) && s.pending.Joining? && s.pending.w.Worker?
    ensures Inv(s'.m.sel)
  {
    hide Inv;
    s.(m := WorkerEntered(s.m, s.pending.w), joined := s.joined + {s.pending.w}, pending := NoSection)
  }

  function OnCloseBegins(s: Sys, w: Worker, now: int): (s': Sys)
    requires Inv(s.m.sel)
    ensures Inv(s'.m.sel)
  {
    hide Inv;
    WorkerUnavailableKeepsInv(s.m.sel, w, now);
    s.(m := s.m.(sel := WorkerUnavailable(s.m.sel, w, now)), pending := Closing(w))
  }

  function OnCloseEnds(s: Sys): Sys
    requires s.pending.Closing?
  {
    s.(m := WorkerUntabled(s.m, s.pending.w), pending := NoSection)
  }

  /** The connection is its device's own. */
  predicate Own(s: Sys, conn: int) {
    conn in s.conns && Current(s, s.conns[conn]) == Some(conn)
  }

  function OnTraffic(s: Sys, conn: int, st: Stats): Sys
    requires conn in s.wire
  {
    s.(wire := s.wire[conn := st],
       late := if Own(s, conn) || st == s.wire[conn] then s.late else s.late + {conn},
       missed := if Own(s, conn) || SameCounts(st, s.wire[conn]) then s.missed else s.missed + {conn})
  }

  function OnEnables(s: Sys, d: string): (s': Sys)
    requires Inv(s.m.sel)
    ensures Inv(s'.m.sel)
  {
    hide Inv, MayPick;
    DevicesKeepInv(s.m, d, "", 0, ZERO_STATS);
    s.(m := DeviceEnabled(s.m, d),
       flipped := if d in s.m.devices && !s.m.devices[d].enabled && s.m.devices[d].conn.None? then s.flipped + {d}
                  else s.flipped)
  }

  function OnDisables(s: Sys, d: string): (s': Sys)
    requires Inv(s.m.sel)
    ensures Inv(s'.m.sel)
  {
    hide Inv, MayPick;
    DevicesKeepInv(s.m, d, "", 0, ZERO_STATS);
    s.(m := DeviceDisabled(s.m, d),
       flipped := if d in s.m.devices && s.m.devices[d].enabled then s.flipped - {d} else s.flipped)
  }

  function OnDeletes(s: Sys, d: string): (s': Sys)
    requires Inv(s.m.sel)
    ensures Inv(s'.m.sel)
  {
    hide Inv, MayPick;
    DevicesKeepInv(s.m, d, "", 0, ZERO_STATS);
    if DeletionRefusal(s.m, d).Some? then s
    else
      s.(m := DeviceDeleted(s.m, d), accepted := s.accepted - {d}, ledger := s.ledger - {d},
         flipped := s.flipped - {d})
  }

  function OnClaims(s: Sys, ctrl: int, weight: int, now: int, pick: Option<string>): (s': Sys)
    requires Inv(s.m.sel) && MayPick(s.m.sel, ClampWeight(weight), now, pick)
    ensures Inv(s'.m.sel)
  {
    hide Inv, MayPick;
    ClaimedKeepsInv(s.m, weight, now, pick);
    s.(m := WorkerClaimed(s.m, weight, now, pick),
       holders := if pick.Some? then s.holders[ctrl := Pending(Handout(s.m.sel, pick))] else s.holders)
  }

  function OnGivesBack(s: Sys, ctrl: int): (s': Sys)
    requires Inv(s.m.sel) && ctrl in s.holders
    ensures Inv(s'.m.sel)
  {
    hide Inv, MayPick;
    WorkerAvailableKeepsInv(s.m.sel, s.holders[ctrl].worker);
    s.(m := WorkerGivenBack(s.m, s.holders[ctrl].worker), holders := s.holders - {ctrl})
  }

  function OnCompletes(s: Sys, ctrl: int, uuid: string): Sys
    requires ctrl in s.holders
  {
    var w := s.holders[ctrl].worker;
    s.(m := ControllerRegistered(s.m, uuid, w), holders := s.holders[ctrl := Done(w, uuid)])
  }

  /** Every event keeps the selector's accounting. */
  function Next(s: Sys, e: Event): (s': Sys)
    requires Inv(s.m.sel) && CanHappen(s, e)
    ensures Inv(s'.m.sel)
  {
    hide Inv, MayPick, OnJoinBegins, OnJoinEnds, OnCloseBegins, OnCloseEnds, OnDeviceJoins, OnDeviceCloses;
    hide OnEnables, OnDisables, OnDeletes, OnClaims, OnGivesBack;
    match e
    case JoinBegins(w, origin) => OnJoinBegins(s, w, origin)
    case JoinEnds => OnJoinEnds(s)
    case CloseBegins(w, now) => OnCloseBegins(s, w, now)
    case CloseEnds => UntabledKeepsInv(s); OnCloseEnds(s)
    case DeviceJoins(d, origin, conn, st) => OnDeviceJoins(s, d, origin, conn, st)
    case DeviceCloses(conn) => OnDeviceCloses(s, conn)
    case Enables(d) => OnEnables(s, d)
    case Disables(d) => OnDisables(s, d)
    case Deletes(d) => OnDeletes(s, d)
    case Prunes(now) => ForgetAllKeepsInv(s.m.sel, SEEN_RETENTION, now); s.(m := Pruned(s.m, now))
    case Claims(ctrl, weight, now, pick) => OnClaims(s, ctrl, weight, now, pick)
    case GivesBack(ctrl) => OnGivesBack(s, ctrl)
    case Completes(ctrl, uuid) => OnCompletes(s, ctrl, uuid)
    case ControllerCloses(uuid) => s.(m := ControllerClosed(s.m, uuid))
    case Traffic(conn, st) => OnTraffic(s, conn, st)
    case Configures(limit) =>
      LimitKeepsInv(s.m.sel, limit);
      if ValidLimit(limit) then s.(m := s.m.(sel := s.m.sel.(limit := limit))) else s
  }

  ghost predicate CanRun(s: Sys, es: seq<Event>)
    requires Inv(s.m.sel)
    decreases |es|
  {
    es != [] ==> CanHappen(s, es[0]) && CanRun(Next(s, es[0]), es[1..])
  }

  ghost function Run(s: Sys, es: seq<Event>): (s': Sys)
    requires Inv(s.m.sel) && CanRun(s, es)
    ensures Inv(s'.m.sel)
    decreases |es|
  {
    if es == [] then s else Run(Next(s, es[0]), es[1..])
  }

  lemma UntabledKeepsInv(s: Sys)
    requires Inv(s.m.sel) && s.pending.Closing?
    ensures Inv(OnCloseEnds(s).m.sel)
  {
  }

  lemma LimitKeepsInv(s: Sel, limit: Limit)
    requires Inv(s)
    ensures Inv(s.(limit := limit))
  {
    hide Accounting;
  }

  // ------------------------------------------------------------ exclusive allocation

  /** The worker connection can still be handed out. */
  predicate OnOffer(s: Sys, w: Worker) {
    Queued(s.m.sel, w)
  }

  predicate Holds(s: Sys, c: int, w: Worker) {
    c in s.holders && s.holders[c].worker == w
  }

  ghost predicate Serves(s: Sys, uuid: string) {
    uuid in s.m.controllers && exists c :: c in s.holders && s.holders[c] == Done(s.m.controllers[uuid], uuid)
  }

  /**
   No two registrations hold one connection, what is held is not on offer, and every controller in the
   manager's table is served by the connection its own registration holds.
  */
  ghost predicate Exclusive(s: Sys) {
    && (s.pending.Joining? ==> s.pending.w.Worker? && s.pending.w !in s.joined)
    && (forall w :: OnOffer(s, w) ==> w in s.joined)
    && (forall c :: c in s.holders ==> s.holders[c].worker in s.joined && !OnOffer(s, s.holders[c].worker))
    && (forall c, c', w :: Holds(s, c, w) && Holds(s, c', w) ==> c == c')
    && (forall uuid :: uuid in s.m.controllers ==> Serves(s, uuid))
  }

  /** Nothing newly on offer, no one newly holding. */
  lemma OfferShrinks(s: Sys, s': Sys)
    requires Exclusive(s) && s'.holders == s.holders && s.joined <= s'.joined
    requires s'.pending.Joining? ==> s'.pending.w.Worker? && s'.pending.w !in s'.joined
    requires s'.m.controllers.Keys <= s.m.controllers.Keys
    requires forall uuid :: uuid in s'.m.controllers ==> s'.m.controllers[uuid] == s.m.controllers[uuid]
    requires forall w :: OnOffer(s', w) ==> OnOffer(s, w) || (w in s'.joined && w !in s.joined)
    ensures Exclusive(s')
  {
    hide OnOffer;
    forall c, c', w | Holds(s', c, w) && Holds(s', c', w) ensures c == c' {
      assert Holds(s, c, w) && Holds(s, c', w);
    }
    forall uuid | uuid in s'.m.controllers ensures Serves(s', uuid) {
      assert Serves(s, uuid);
    }
  }

  lemma JoinKeepsExclusive(s: Sys, w: Worker, origin: string)
    requires Inv(s.m.sel) && Exclusive(s) && w.Worker? && w !in s.joined && s.pending == NoSection
    ensures Exclusive(OnJoinBegins(s, w, origin))
  {
    hide Inv, Live, Queued, Exclusive;
    var s' := OnJoinBegins(s, w, origin);
    if WorkerRefusal(w, origin).None? {
      forall v | OnOffer(s', v) ensures OnOffer(s, v) {
        SwitchViews(s.m.sel, false, w.deviceID, v, "");
      }
      OfferShrinks(s, s');
    }
  }

  lemma EntryKeepsExclusive(s: Sys)
    requires Inv(s.m.sel) && Exclusive(s) && s.pending.Joining? && s.pending.w.Worker?
    ensures Exclusive(OnJoinEnds(s))
  {
    hide Inv, Live, Queued;
    var s' := OnJoinEnds(s);
    forall v | OnOffer(s', v) ensures OnOffer(s, v) || (v in s'.joined && v !in s.joined) {
      AvailableViews(s.m.sel, s.pending.w, v, "");
    }
    OfferShrinks(s, s');
  }

  lemma ClaimKeepsExclusive(s: Sys, ctrl: int, weight: int, now: int, pick: Option<string>)
    requires Inv(s.m.sel) && Exclusive(s) && ctrl !in s.holders && MayPick(s.m.sel, ClampWeight(weight), now, pick)
    ensures Exclusive(OnClaims(s, ctrl, weight, now, pick))
  {
    hide Inv, Live, Queued, Selected, Handout, AtMax, Rank;
    var s' := OnClaims(s, ctrl, weight, now, pick);
    var h := Handout(s.m.sel, pick);
    forall v ensures OnOffer(s', v) ==> OnOffer(s, v) && v != h {
      SelectedViews(s.m.sel, ClampWeight(weight), now, pick, v, "");
    }
    if pick.Some? {
      SelectedViews(s.m.sel, ClampWeight(weight), now, pick, h, "");
      assert OnOffer(s, h);
      forall c, c', w | Holds(s', c, w) && Holds(s', c', w) ensures c == c' {
        assert c != ctrl ==> Holds(s, c, w);
        assert c' != ctrl ==> Holds(s, c', w);
      }
      forall uuid | uuid in s'.m.controllers ensures Serves(s', uuid) {
        assert Serves(s, uuid);
        var c :| c in s.holders && s.holders[c] == Done(s.m.controllers[uuid], uuid);
        assert s'.holders[c] == s.holders[c];
      }
    } else {
      OfferShrinks(s, s');
    }
  }

  lemma GiveBackKeepsExclusive(s: Sys, ctrl: int)
    requires Inv(s.m.sel) && Exclusive(s) && ctrl in s.holders && s.holders[ctrl].Pending?
    ensures Exclusive(OnGivesBack(s, ctrl))
  {
    hide Inv, Live, Queued;
    var s' := OnGivesBack(s, ctrl);
    var h := s.holders[ctrl].worker;
    assert Holds(s, ctrl, h);
    forall v ensures OnOffer(s', v) ==> OnOffer(s, v) || v == h {
      if h.Worker? {
        AvailableViews(s.m.sel, h, v, "");
      }
    }
    forall c | c in s'.holders ensures s'.holders[c].worker != h {
      assert Holds(s, c, s.holders[c].worker);
    }
    forall c, c', w | Holds(s', c, w) && Holds(s', c', w) ensures c == c' {
      assert Holds(s, c, w) && Holds(s, c', w);
    }
    forall uuid | uuid in s'.m.controllers ensures Serves(s', uuid) {
      assert Serves(s, uuid);
      var c :| c in s.holders && s.holders[c] == Done(s.m.controllers[uuid], uuid);
      assert c in s'.holders && s'.holders[c] == s.holders[c];
    }
  }

  lemma CompleteKeepsExclusive(s: Sys, ctrl: int, uuid: string)
    requires Exclusive(s) && ctrl in s.holders && s.holders[ctrl].Pending? && uuid !in s.m.controllers
    ensures Exclusive(OnCompletes(s, ctrl, uuid))
  {
    hide Queued;
    var s' := OnCompletes(s, ctrl, uuid);
    forall w ensures OnOffer(s', w) == OnOffer(s, w) {
    }
    forall c, c', w | Holds(s', c, w) && Holds(s', c', w) ensures c == c' {
      assert Holds(s, c, w) && Holds(s, c', w);
    }
    forall u | u in s'.m.controllers ensures Serves(s', u) {
      if u == uuid {
        assert s'.holders[ctrl] == Done(s'.m.controllers[u], u);
      } else {
        assert Serves(s, u);
        var c :| c in s.holders && s.holders[c] == Done(s.m.controllers[u], u);
        assert c in s'.holders && s'.holders[c] == s.holders[c];
      }
    }
  }

  /** Every other event puts nothing on offer. */
  lemma NothingNewOnOffer(s: Sys, e: Event, w: Worker)
    requires Inv(s.m.sel) && CanHappen(s, e) && !e.JoinBegins? && !e.JoinEnds? && !e.Claims? && !e.GivesBack?
    requires !e.Completes?
    ensures OnOffer(Next(s, e), w) ==> OnOffer(s, w)
  {
    hide Inv, Live, Queued, SetEnabled, SetDisabled, ForgetAll, RemoveIfDead, WorkerUnavailable;
    match e
    case CloseBegins(v, now) => UnavailableViews(s.m.sel, v, now, w, "");
    case CloseEnds =>
    case DeviceJoins(d, _, _, _) => SwitchViews(s.m.sel, true, d, w, "");
    case DeviceCloses(conn) => SwitchViews(s.m.sel, false, s.conns[conn], w, "");
    case Enables(d) => SwitchViews(s.m.sel, true, d, w, "");
    case Disables(d) => SwitchViews(s.m.sel, false, d, w, "");
    case Deletes(d) => RemoveViews(s.m.sel, d, w, "");
    case Prunes(now) => ForgetViews(s.m.sel, SEEN_RETENTION, now, w, "");
    case ControllerCloses(_) =>
    case Traffic(_, _) =>
    case Configures(limit) => LimitViews(s.m.sel, limit, w);
  }

  lemma LimitViews(s: Sel, limit: Limit, w: Worker)
    ensures Queued(s.(limit := limit), w) == Queued(s, w) && Live(s.(limit := limit), w) == Live(s, w)
  {
  }

  lemma NextKeepsExclusive(s: Sys, e: Event)
    requires Inv(s.m.sel) && CanHappen(s, e) && Exclusive(s)
    ensures Exclusive(Next(s, e))
  {
    hide Inv, Exclusive, OnOffer, MayPick, OnJoinBegins, OnJoinEnds, OnCloseBegins, OnCloseEnds, OnClaims;
    hide OnGivesBack, OnCompletes, OnDeviceJoins, OnDeviceCloses, OnEnables, OnDisables, OnDeletes;
    match e
    case JoinBegins(w, origin) => JoinKeepsExclusive(s, w, origin);
    case JoinEnds => EntryKeepsExclusive(s);
    case Claims(ctrl, weight, now, pick) => ClaimKeepsExclusive(s, ctrl, weight, now, pick);
    case GivesBack(ctrl) => GiveBackKeepsExclusive(s, ctrl);
    case Completes(ctrl, uuid) => CompleteKeepsExclusive(s, ctrl, uuid);
    case _ => OthersKeepExclusive(s, e);
  }

  lemma OthersKeepExclusive(s: Sys, e: Event)
    requires Inv(s.m.sel) && CanHappen(s, e) && !e.JoinBegins? && !e.JoinEnds? && !e.Claims? && !e.GivesBack?
    requires !e.Completes? && Exclusive(s)
    ensures Exclusive(Next(s, e))
  {
    hide Next, CanHappen, Inv, OnOffer;
    HoldersUntouched(s, e);
    forall w | OnOffer(Next(s, e), w) ensures OnOffer(s, w) {
      NothingNewOnOffer(s, e, w);
    }
    OfferShrinks(s, Next(s, e));
  }

  lemma HoldersUntouched(s: Sys, e: Event)
    requires Inv(s.m.sel) && CanHappen(s, e) && !e.JoinBegins? && !e.JoinEnds? && !e.Claims? && !e.GivesBack?
    requires !e.Completes?
    ensures Next(s, e).holders == s.holders && Next(s, e).joined == s.joined
    ensures Next(s, e).pending.Joining? ==> s.pending == Next(s, e).pending
    ensures || Next(s, e).m.controllers == s.m.controllers
            || (e.ControllerCloses? && Next(s, e).m.controllers == s.m.controllers - {e.uuid})
  {
    hide OnJoinBegins, OnJoinEnds, OnClaims, OnGivesBack, OnCompletes;
    hide Inv, MayPick, LogOf, Entry, CountedBy, Plus, Grown, SetEnabled, SetDisabled, RemoveIfDead;
    hide WorkerUnavailable, Own;
  }

  lemma {:induction false} RunKeepsExclusive(s: Sys, es: seq<Event>)
    requires Inv(s.m.sel) && CanRun(s, es) && Exclusive(s)
    ensures Exclusive(Run(s, es))
    decreases |es|
  {
    hide CanHappen, Next, Exclusive;
    if es != [] {
      NextKeepsExclusive(s, es[0]);
      RunKeepsExclusive(Next(s, es[0]), es[1..]);
    }
  }

  /**
   Main result, exclusive allocation: whatever the interleaving, no worker connection is held by two
   registrations, completed or not; one that is held is not on offer; and no two controllers
   in the manager's table were given the same connection.
  */
  lemma ExclusiveAllocation(limit: Limit, es: seq<Event>)
    requires CanRun(Start(limit), es)
    ensures var s := Run(Start(limit), es);
            && (forall c, c' :: c in s.holders && c' in s.holders && s.holders[c].worker == s.holders[c'].worker ==>
                  c == c')
            && (forall c :: c in s.holders ==> !Queued(s.m.sel, s.holders[c].worker))
            && (forall u, u' ::
                  u in s.m.controllers && u' in s.m.controllers && s.m.controllers[u] == s.m.controllers[u'] ==>
                    u == u')
  {
    RunKeepsExclusive(Start(limit), es);
    hide CanHappen, Next, Run, CanRun, Queued;
    var s := Run(Start(limit), es);
    forall c, c' | c in s.holders && c' in s.holders && s.holders[c].worker == s.holders[c'].worker ensures c == c' {
      assert Holds(s, c, s.holders[c].worker) && Holds(s, c', s.holders[c].worker);
    }
    forall c | c in s.holders ensures !Queued(s.m.sel, s.holders[c].worker) {
      assert !OnOffer(s, s.holders[c].worker);
    }
    forall u, u' | u in s.m.controllers && u' in s.m.controllers && s.m.controllers[u] == s.m.controllers[u']
      ensures u == u'
    {
      assert Serves(s, u) && Serves(s, u');
      var c :| c in s.holders && s.holders[c] == Done(s.m.controllers[u], u);
      var c' :| c' in s.holders && s.holders[c'] == Done(s.m.controllers[u'], u');
      assert Holds(s, c, s.m.controllers[u]) && Holds(s, c', s.m.controllers[u]);
    }
  }
}
