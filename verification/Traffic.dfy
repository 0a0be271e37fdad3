/** Traffic conservation: what each device reports over whole runs of the manager. */
module Traffic {
  import opened Basics
  import opened History
  import opened SelectorModel
  import opened ConnStats
  import opened ManagerModel
  import opened ManagerRuns
  import opened Scenario

  function FoldedConns(log: seq<Fold>): seq<int> {
    seq(|log|, (i: int) requires 0 <= i < |log| => log[i].conn)
  }

  function FoldedStats(log: seq<Fold>): seq<Stats> {
    seq(|log|, (i: int) requires 0 <= i < |log| => log[i].stats)
  }

  function CurrentConn(dev: Device): seq<int> {
    if dev.conn.Some? then [dev.conn.value] else []
  }

  predicate Once(conns: seq<int>) {
    forall i, j :: 0 <= i < j < |conns| ==> conns[i] != conns[j]
  }

  /** The entry is what its connection has counted, short only of what a late one counted since. */
  predicate Counted(s: Sys, fold: Fold) {
    && fold.conn in s.wire && Grown(ZERO_STATS, fold.stats) && Grown(fold.stats, s.wire[fold.conn])
    && (fold.conn !in s.late ==> fold.stats == s.wire[fold.conn])
    && (fold.conn !in s.missed <==> SameCounts(fold.stats, s.wire[fold.conn]))
  }

  /**
   The connections accepted are those folded, in that order, and then the current one, each of them once;
   and the total over past connections is the sum of what was folded.
  */
  predicate Balanced(dev: Device, accepted: seq<int>, log: seq<Fold>) {
    && accepted == FoldedConns(log) + CurrentConn(dev)
    && Once(accepted)
    && dev.previous == SumStats(FoldedStats(log))
  }

  /**
   Each control connection the device accepted has been folded exactly once, except for the current one,
   which has not been; nothing else has; and what was folded is what the connection had counted.
  */
  predicate Conserved(s: Sys, d: string)
    requires d in s.m.devices
  {
    && Balanced(s.m.devices[d], LogOf(s.accepted, d), LogOf(s.ledger, d))
    && (forall c :: c in LogOf(s.accepted, d) ==> c in s.conns && s.conns[c] == d)
    && (forall fold :: fold in LogOf(s.ledger, d) ==> Counted(s, fold))
  }

  /** What a device's own connection counts is not missed. */
  predicate OwnAreNotMissed(s: Sys) {
    forall c :: c in s.missed ==> c in s.conns && !Own(s, c)
  }

  ghost predicate AllConserved(s: Sys) {
    && OwnAreNotMissed(s)
    && s.conns.Keys == s.wire.Keys
    && s.accepted.Keys == s.ledger.Keys == s.m.devices.Keys
    && (forall c :: c in s.wire ==> Grown(ZERO_STATS, s.wire[c]))
    && (forall d :: d in s.m.devices ==> Conserved(s, d))
  }

  /** What the manager reports of a device: its past connections and the current one. */
  function Reported(s: Sys, d: string): Stats
    requires d in s.m.devices
  {
    var dev := s.m.devices[d];
    if dev.conn.None? then dev.previous else Plus(dev.previous, CountedBy(s, dev.conn))
  }

  lemma SumOneMore(log: seq<Fold>, fold: Fold)
    ensures SumStats(FoldedStats(log + [fold])) == Plus(SumStats(FoldedStats(log)), fold.stats)
    ensures FoldedConns(log + [fold]) == FoldedConns(log) + [fold.conn]
  {
    hide Plus;
    var all := FoldedStats(log + [fold]);
    assert all[..|all| - 1] == FoldedStats(log);
  }

  lemma FreshIsBalanced(origin: string)
    ensures Balanced(FreshDevice(origin), [], [])
  {
  }

  /** A new connection folds the one it replaces. */
  lemma JoinBalances(dev: Device, accepted: seq<int>, log: seq<Fold>, conn: int, folded: Stats, dev': Device)
    requires Balanced(dev, accepted, log) && conn !in accepted && dev'.conn == Some(conn)
    requires dev'.previous == if dev.conn.Some? then Plus(dev.previous, folded) else dev.previous
    ensures Balanced(dev', accepted + [conn], if dev.conn.Some? then log + [Fold(dev.conn.value, folded)] else log + [])
  {
    hide Plus, SumStats, FoldedStats, FoldedConns;
    assert log + [] == log;
    if dev.conn.Some? {
      SumOneMore(log, Fold(dev.conn.value, folded));
    }
  }

  /** A close folds the connection closed. */
  lemma CloseBalances(dev: Device, accepted: seq<int>, log: seq<Fold>, folded: Stats)
    requires Balanced(dev, accepted, log) && dev.conn.Some?
    ensures Balanced(dev.(conn := None, previous := Plus(dev.previous, folded)), accepted,
                     log + [Fold(dev.conn.value, folded)])
  {
    hide Plus, SumStats, FoldedStats, FoldedConns;
    SumOneMore(log, Fold(dev.conn.value, folded));
  }

  /** Connections keep their device, and their statistics only grow; those of one not its device's own make it late. */
  predicate WorldMovesOn(s: Sys, s': Sys) {
    && s.late <= s'.late
    && (forall c :: c in s.conns ==> c in s'.conns && s'.conns[c] == s.conns[c])
    && (forall c :: c in s.wire ==> c in s'.wire && Grown(s.wire[c], s'.wire[c]))
    && (forall c :: c in s.wire ==> s'.wire[c] == s.wire[c] || c in s'.late || Own(s, c))
    && (forall c :: c in s.wire && !Own(s, c) ==>
          (c in s'.missed <==> c in s.missed || !SameCounts(s.wire[c], s'.wire[c])))
  }

  lemma WorldStays(s: Sys, s': Sys)
    requires s'.late == s.late && s'.missed == s.missed
    requires forall c :: c in s.conns ==> c in s'.conns && s'.conns[c] == s.conns[c]
    requires forall c :: c in s.wire ==> c in s'.wire && s'.wire[c] == s.wire[c]
    ensures WorldMovesOn(s, s')
  {
  }

  lemma StillCounted(s: Sys, s': Sys, fold: Fold)
    requires WorldMovesOn(s, s') && Counted(s, fold) && !Own(s, fold.conn)
    ensures Counted(s', fold)
  {
  }

  lemma SameWireCounted(s: Sys, s': Sys, fold: Fold)
    requires Counted(s, fold) && s'.late == s.late && s'.missed == s.missed
    requires fold.conn in s.wire ==> fold.conn in s'.wire && s'.wire[fold.conn] == s.wire[fold.conn]
    ensures Counted(s', fold)
  {
  }

  /** What has been folded is not its device's own connection any more. */
  lemma FoldedIsNotOwn(s: Sys, d: string, fold: Fold)
    requires d in s.m.devices && Conserved(s, d) && fold in LogOf(s.ledger, d)
    ensures !Own(s, fold.conn) && fold.conn in LogOf(s.accepted, d)
  {
    hide SumStats, FoldedStats, Counted;
    var log, accepted := LogOf(s.ledger, d), LogOf(s.accepted, d);
    var i :| 0 <= i < |log| && log[i] == fold;
    assert FoldedConns(log)[i] == fold.conn && accepted[i] == fold.conn;
    assert accepted[i] in accepted;
    var own := s.m.devices[d].conn;
    assert own.Some? ==> |accepted| == |log| + 1 && accepted[|log|] == own.value;
  }

  /** Another device's events change nothing. */
  lemma ConservedStays(s: Sys, s': Sys, d: string)
    requires d in s.m.devices && d in s'.m.devices && Conserved(s, d) && WorldMovesOn(s, s')
    requires LogOf(s'.accepted, d) == LogOf(s.accepted, d) && LogOf(s'.ledger, d) == LogOf(s.ledger, d)
    requires s'.m.devices[d].conn == s.m.devices[d].conn && s'.m.devices[d].previous == s.m.devices[d].previous
    ensures Conserved(s', d)
  {
    hide Counted, SumStats, FoldedStats, FoldedConns;
    forall fold | fold in LogOf(s.ledger, d) ensures Counted(s', fold) {
      FoldedIsNotOwn(s, d, fold);
      StillCounted(s, s', fold);
    }
  }

  lemma CurrentIsCounted(s: Sys, d: string)
    requires AllConserved(s) && d in s.m.devices && s.m.devices[d].conn.Some?
    ensures Counted(s, Entry(s, s.m.devices[d].conn)[0]) && s.m.devices[d].conn.value in LogOf(s.accepted, d)
  {
    hide SumStats, FoldedStats, FoldedConns;
    assert Conserved(s, d);
    var conns, c := LogOf(s.accepted, d), s.m.devices[d].conn.value;
    assert conns[|conns| - 1] == c;
    assert c in conns && Own(s, c);
    GrowsFromItself(s);
  }

  /** A device's own connection is its own still, or a new one is. */
  lemma MissedStay(s: Sys, s': Sys)
    requires OwnAreNotMissed(s) && s'.missed == s.missed
    requires forall c :: c in s.conns ==> c in s'.conns && s'.conns[c] == s.conns[c]
    requires forall d, c :: Current(s', d) == Some(c) ==> Current(s, d) == Some(c) || c !in s.conns
    ensures OwnAreNotMissed(s')
  {
  }

  lemma JoinKeepsMissed(s: Sys, d: string, origin: string, conn: int, st: Stats)
    requires Inv(s.m.sel) && OwnAreNotMissed(s) && conn !in s.conns && DeviceRefusal(d, origin).None?
    ensures OwnAreNotMissed(OnDeviceJoins(s, d, origin, conn, st))
  {
    RegisteredAtOnce(s.m, d, origin, conn, CountedBy(s, Current(s, d)));
    hide Inv, Plus, DeviceRegistered;
    MissedStay(s, OnDeviceJoins(s, d, origin, conn, st));
  }

  lemma CloseKeepsMissed(s: Sys, conn: int)
    requires Inv(s.m.sel) && OwnAreNotMissed(s) && conn in s.conns
    ensures OwnAreNotMissed(OnDeviceCloses(s, conn))
  {
    hide Inv, Plus, SetDisabled;
    MissedStay(s, OnDeviceCloses(s, conn));
  }

  lemma JoinKeepsConserved(s: Sys, d: string, origin: string, conn: int, st: Stats)
    requires Inv(s.m.sel) && AllConserved(s) && conn !in s.conns && Grown(ZERO_STATS, st)
    ensures AllConserved(OnDeviceJoins(s, d, origin, conn, st))
  {
    hide Inv, Conserved, Plus, Grown, DeviceRegistered, OwnAreNotMissed, SameCounts;
    var s' := OnDeviceJoins(s, d, origin, conn, st);
    if DeviceRefusal(d, origin).None? {
      RegisteredAtOnce(s.m, d, origin, conn, CountedBy(s, Current(s, d)));
      GrowsFromItself(s);
      JoinKeepsMissed(s, d, origin, conn, st);
      WorldStays(s, s');
      hide WorldMovesOn;
      forall e | e in s'.m.devices ensures Conserved(s', e) {
        if e != d {
          ConservedStays(s, s', e);
        } else {
          JoinConserves(s, d, origin, conn, st);
        }
      }
    }
  }

  lemma JoinConserves(s: Sys, d: string, origin: string, conn: int, st: Stats)
    requires Inv(s.m.sel) && AllConserved(s) && conn !in s.conns && Grown(ZERO_STATS, st)
    requires DeviceRefusal(d, origin).None?
    ensures Conserved(OnDeviceJoins(s, d, origin, conn, st), d)
  {
    hide Inv, Plus, Balanced, Counted, Grown, DeviceRegistered, OwnAreNotMissed, SameCounts;
    var s' := OnDeviceJoins(s, d, origin, conn, st);
    RegisteredAtOnce(s.m, d, origin, conn, CountedBy(s, Current(s, d)));
    var log, log' := LogOf(s.ledger, d), LogOf(s'.ledger, d);
    var dev := if d in s.m.devices then s.m.devices[d] else FreshDevice(origin);
    assert d in s.m.devices ==> Conserved(s, d);
    FreshIsBalanced(origin);
    JoinBalances(dev, LogOf(s.accepted, d), log, conn, CountedBy(s, dev.conn), s'.m.devices[d]);
    GrowsFromItself(s);
    forall fold | fold in log' ensures Counted(s', fold) {
      if fold !in log {
        CurrentIsCounted(s, d);
      }
      SameWireCounted(s, s', fold);
    }
  }

  lemma CloseKeepsConserved(s: Sys, conn: int)
    requires Inv(s.m.sel) && AllConserved(s) && conn in s.conns
    ensures AllConserved(OnDeviceCloses(s, conn))
  {
    hide Inv, Plus, Balanced, Counted, Grown, OwnAreNotMissed, SameCounts;
    var s' := OnDeviceCloses(s, conn);
    var d := s.conns[conn];
    CloseKeepsMissed(s, conn);
    WorldStays(s, s');
    hide WorldMovesOn, Own;
    forall e | e in s'.m.devices ensures Conserved(s', e) {
      assert Conserved(s, e);
      if e == d && Current(s, d) == Some(conn) {
        CloseBalances(s.m.devices[d], LogOf(s.accepted, d), LogOf(s.ledger, d), CountedBy(s, Some(conn)));
        CurrentIsCounted(s, d);
        forall fold | fold in LogOf(s'.ledger, d) ensures Counted(s', fold) {
          SameWireCounted(s, s', fold);
        }
      } else {
        ConservedStays(s, s', e);
      }
    }
  }

  /** The device's books are as they were, or just opened. */
  predicate SameBook(s: Sys, s': Sys, d: string)
    requires d in s'.m.devices
  {
    && LogOf(s'.accepted, d) == LogOf(s.accepted, d) && LogOf(s'.ledger, d) == LogOf(s.ledger, d)
    && s'.m.devices[d].conn == (if d in s.m.devices then s.m.devices[d].conn else None)
    && s'.m.devices[d].previous == (if d in s.m.devices then s.m.devices[d].previous else ZERO_STATS)
  }

  lemma SameBooksConserve(s: Sys, s': Sys)
    requires AllConserved(s) && s'.conns == s.conns && s'.wire == s.wire && s'.late == s.late && s'.missed == s.missed
    requires s'.accepted.Keys == s'.ledger.Keys == s'.m.devices.Keys
    requires forall d :: d in s'.m.devices ==> SameBook(s, s', d)
    ensures AllConserved(s')
  {
    hide Conserved, Grown;
    GrowsFromItself(s);
    forall d, c | Current(s', d) == Some(c) ensures Current(s, d) == Some(c) || c !in s.conns {
      assert SameBook(s, s', d);
    }
    MissedStay(s, s');
    forall d | d in s'.m.devices ensures Conserved(s', d) {
      assert SameBook(s, s', d);
      if d in s.m.devices {
        ConservedStays(s, s', d);
      } else {
        OpenedConserves(s', d);
      }
    }
  }

  lemma OpenedConserves(s: Sys, d: string)
    requires d in s.m.devices && s.m.devices[d].conn.None? && s.m.devices[d].previous == ZERO_STATS
    requires LogOf(s.accepted, d) == [] && LogOf(s.ledger, d) == []
    ensures Conserved(s, d)
  {
  }

  lemma WorkerKeepsConserved(s: Sys, w: Worker, origin: string)
    requires Inv(s.m.sel) && w.Worker? && AllConserved(s)
    ensures AllConserved(OnJoinBegins(s, w, origin))
  {
    hide Inv, Conserved, Grown, SetDisabled;
    if WorkerRefusal(w, origin).None? {
      var s' := OnJoinBegins(s, w, origin);
      assert s'.m.devices.Keys == s.m.devices.Keys + {w.deviceID};
      forall d | d in s'.m.devices ensures SameBook(s, s', d) {
      }
      hide OnJoinBegins;
      SameBooksConserve(s, s');
    }
  }

  lemma DeleteKeepsConserved(s: Sys, d: string)
    requires Inv(s.m.sel) && AllConserved(s)
    ensures AllConserved(OnDeletes(s, d))
  {
    hide Inv, RemoveIfDead, Conserved, Grown;
    var s' := OnDeletes(s, d);
    forall e | e in s'.m.devices ensures SameBook(s, s', e) {
    }
    SameBooksConserve(s, s');
  }

  lemma TrafficKeepsConserved(s: Sys, conn: int, st: Stats)
    requires Inv(s.m.sel) && AllConserved(s) && conn in s.wire && Grown(s.wire[conn], st)
    ensures AllConserved(OnTraffic(s, conn, st))
  {
    hide Conserved;
    var s' := OnTraffic(s, conn, st);
    forall d | d in s'.m.devices ensures Conserved(s', d) {
      ConservedStays(s, s', d);
    }
  }

  /** Events that touch no control connection and bring or take no device. */
  lemma OthersKeepConserved(s: Sys, e: Event)
    requires Inv(s.m.sel) && CanHappen(s, e) && AllConserved(s)
    requires !e.JoinBegins? && !e.DeviceJoins? && !e.DeviceCloses? && !e.Deletes? && !e.Traffic?
    ensures AllConserved(Next(s, e))
  {
    hide Conserved, Grown, OwnAreNotMissed, Next, CanHappen, Inv;
    BooksUntouched(s, e);
    forall d | d in Next(s, e).m.devices ensures SameBook(s, Next(s, e), d) {
      DeviceUntouched(s, e, d);
    }
    SameBooksConserve(s, Next(s, e));
  }

  lemma BooksUntouched(s: Sys, e: Event)
    requires Inv(s.m.sel) && CanHappen(s, e)
    requires !e.JoinBegins? && !e.DeviceJoins? && !e.DeviceCloses? && !e.Deletes? && !e.Traffic?
    ensures var s' := Next(s, e);
            && s'.m.devices.Keys == s.m.devices.Keys && s'.accepted == s.accepted && s'.ledger == s.ledger
            && s'.conns == s.conns && s'.wire == s.wire && s'.late == s.late && s'.missed == s.missed
  {
    hide OnDeviceJoins, OnDeviceCloses, OnDeletes, OnJoinBegins, OnTraffic;
    hide Inv, MayPick, WorkerAvailable, WorkerUnavailable, Selected, ForgetAll, SetEnabled, SetDisabled, Handout;
  }

  lemma GrowsFromItself(s: Sys)
    ensures forall c :: c in s.wire ==> Grown(s.wire[c], s.wire[c])
  {
  }

  lemma NextKeepsConserved(s: Sys, e: Event)
    requires Inv(s.m.sel) && CanHappen(s, e) && AllConserved(s)
    ensures AllConserved(Next(s, e))
  {
    hide Inv, MayPick, AllConserved;
    match e
    case JoinBegins(w, origin) => WorkerKeepsConserved(s, w, origin);
    case DeviceJoins(d, origin, conn, st) => JoinKeepsConserved(s, d, origin, conn, st);
    case DeviceCloses(conn) => CloseKeepsConserved(s, conn);
    case Deletes(d) => DeleteKeepsConserved(s, d);
    case Traffic(conn, st) => TrafficKeepsConserved(s, conn, st);
    case _ => OthersKeepConserved(s, e);
  }

  lemma {:induction false} RunKeepsConserved(s: Sys, es: seq<Event>)
    requires Inv(s.m.sel) && CanRun(s, es) && AllConserved(s)
    ensures AllConserved(Run(s, es))
    decreases |es|
  {
    hide CanHappen, Next, AllConserved;
    if es != [] {
      NextKeepsConserved(s, es[0]);
      RunKeepsConserved(Next(s, es[0]), es[1..]);
    }
  }

  // ------------------------------------------------------------ what a device reports

  /** What the connections have counted, each by itself. */
  function WireOf(s: Sys, conns: seq<int>): seq<Stats> {
    seq(|conns|, (i: int) requires 0 <= i < |conns| => CountedBy(s, Some(conns[i])))
  }

  predicate NoneLate(s: Sys, conns: seq<int>) {
    forall c :: c in conns ==> c !in s.late
  }

  predicate NoneMissed(s: Sys, conns: seq<int>) {
    forall c :: c in conns ==> c !in s.missed
  }

  /** What the device reports, connection by connection: as they were folded, and the current one as it is. */
  function Sessions(s: Sys, d: string): seq<Stats>
    requires d in s.m.devices
  {
    var conn := s.m.devices[d].conn;
    FoldedStats(LogOf(s.ledger, d)) + if conn.Some? then [CountedBy(s, conn)] else []
  }

  lemma ReportedIsTheSum(s: Sys, d: string)
    requires d in s.m.devices && Conserved(s, d)
    ensures Reported(s, d) == SumStats(Sessions(s, d)) && |Sessions(s, d)| == |LogOf(s.accepted, d)|
  {
    hide Plus, SumStats, CountedBy, Counted;
    var folded, conn := FoldedStats(LogOf(s.ledger, d)), s.m.devices[d].conn;
    assert folded + [] == folded;
    SumOfLast(folded, CountedBy(s, conn));
  }

  /** What is reported for the connection against what it has counted. */
  predicate InStep(s: Sys, conn: int, session: Stats) {
    var now := CountedBy(s, Some(conn));
    && Grown(ZERO_STATS, session) && Grown(session, now)
    && (conn !in s.late ==> session == now)
    && (conn !in s.missed <==> SameCounts(session, now))
  }

  lemma SessionInStep(s: Sys, d: string, i: nat)
    requires AllConserved(s) && d in s.m.devices && i < |LogOf(s.accepted, d)| == |Sessions(s, d)|
    ensures InStep(s, LogOf(s.accepted, d)[i], Sessions(s, d)[i])
  {
    assert Conserved(s, d);
    var log := LogOf(s.ledger, d);
    if i < |log| {
      assert log[i] in log && FoldedConns(log)[i] == log[i].conn && Counted(s, log[i]);
    } else {
      OwnIsNotMissed(s, d);
      CurrentIsCounted(s, d);
    }
  }

  lemma SumsInStep(s: Sys, conns: seq<int>, sessions: seq<Stats>)
    requires |conns| == |sessions| && forall i :: 0 <= i < |conns| ==> InStep(s, conns[i], sessions[i])
    ensures var total, all := SumStats(sessions), SumStats(WireOf(s, conns));
            && Grown(total, all)
            && (SameCounts(total, all) <==> NoneMissed(s, conns))
            && (NoneLate(s, conns) ==> total == all)
  {
    hide SumStats, Grown, SameCounts, CountedBy;
    var wire := WireOf(s, conns);
    SumGrows(sessions, wire);
    SumCountsExactly(sessions, wire);
    assert forall i :: 0 <= i < |conns| ==> conns[i] in conns;
    assert NoneLate(s, conns) ==> sessions == wire;
  }

  lemma SumsInStepExactly(s: Sys, conns: seq<int>, sessions: seq<Stats>)
    requires |conns| == |sessions| && forall i :: 0 <= i < |conns| ==> InStep(s, conns[i], sessions[i])
    ensures var total := SumStats(sessions);
            total == SumStats(WireOf(s, conns)) <==>
            NoneMissed(s, conns) && forall c :: c in conns && c in s.late ==> NotAfter(CountedBy(s, Some(c)), total)
  {
    var total, wire := SumStats(sessions), WireOf(s, conns);
    forall i | 0 <= i < |conns| && conns[i] !in s.late ensures NotAfter(wire[i], total) {
      SessionWithinSum(sessions, i);
    }
    hide SumStats, Grown, SameCounts, CountedBy, NotAfter;
    SumExactly(sessions, wire);
    assert forall i :: 0 <= i < |conns| ==> conns[i] in conns;
  }

  /** Nothing a connection did when it was no longer the device's own is more recent than what is reported. */
  predicate NoneNewer(s: Sys, d: string)
    requires d in s.m.devices
  {
    forall c :: c in LogOf(s.accepted, d) && c in s.late ==> NotAfter(CountedBy(s, Some(c)), Reported(s, d))
  }

  /**
   In words: never more than was counted; all the counts exactly if none is missed; all of it exactly if, besides, no
   late activity is more recent than what is reported, and in particular if there is none.
  */
  predicate ReportsWhatWasCounted(s: Sys, d: string)
    requires d in s.m.devices
  {
    var accepted := LogOf(s.accepted, d);
    var all := SumStats(WireOf(s, accepted));
    && Grown(Reported(s, d), all)
    && (SameCounts(Reported(s, d), all) <==> NoneMissed(s, accepted))
    && (Reported(s, d) == all <==> NoneMissed(s, accepted) && NoneNewer(s, d))
    && (NoneLate(s, accepted) ==> Reported(s, d) == all)
  }

  lemma ReportedAgainstWire(s: Sys, d: string)
    requires AllConserved(s) && d in s.m.devices
    ensures ReportsWhatWasCounted(s, d)
  {
    DeviceConserved(s, d);
    ReportedIsTheSum(s, d);
    hide Reported, SumStats, Grown, SameCounts, NotAfter, CountedBy, AllConserved, Conserved, Sessions, InStep;
    var accepted, sessions := LogOf(s.accepted, d), Sessions(s, d);
    forall i | 0 <= i < |accepted| ensures InStep(s, accepted[i], sessions[i]) {
      SessionInStep(s, d, i);
    }
    SumsInStep(s, accepted, sessions);
    SumsInStepExactly(s, accepted, sessions);
  }

  lemma OwnIsNotMissed(s: Sys, d: string)
    requires AllConserved(s) && d in s.m.devices && s.m.devices[d].conn.Some?
    ensures s.m.devices[d].conn.value !in s.missed
  {
    hide Balanced, Counted, Grown;
    CurrentIsCounted(s, d);
    assert Conserved(s, d);
    assert Own(s, s.m.devices[d].conn.value);
  }

  /** Along the run, this connection counts more when it is not its device's own. */
  ghost predicate CountsWhenNotOwn(s: Sys, es: seq<Event>, conn: int)
    requires Inv(s.m.sel) && CanRun(s, es)
    decreases |es|
  {
    es != [] && (MissesTraffic(s, es[0], conn) || CountsWhenNotOwn(Next(s, es[0]), es[1..], conn))
  }

  predicate MissesTraffic(s: Sys, e: Event, conn: int) {
    e.Traffic? && e.conn == conn && conn in s.wire && !Own(s, conn) && !SameCounts(e.st, s.wire[conn])
  }

  lemma MissedByOne(s: Sys, e: Event, conn: int)
    requires Inv(s.m.sel) && CanHappen(s, e)
    ensures conn in Next(s, e).missed <==> conn in s.missed || MissesTraffic(s, e, conn)
  {
    hide Inv, MayPick, Own, SameCounts, Grown, Plus;
  }

  lemma {:induction false} MissedOnTheRun(s: Sys, es: seq<Event>, conn: int)
    requires Inv(s.m.sel) && CanRun(s, es)
    ensures conn in Run(s, es).missed <==> conn in s.missed || CountsWhenNotOwn(s, es, conn)
    decreases |es|
  {
    hide CanHappen, Next, MissesTraffic;
    if es != [] {
      MissedByOne(s, es[0], conn);
      MissedOnTheRun(Next(s, es[0]), es[1..], conn);
    }
  }

  /**
   Main result, conservation.  In every reachable state, per device: the control connections accepted have each been
   folded exactly once, in order, but for the current one, and the device never reports more than they have counted.
   Its counts are theirs if and only if along the run none of them counted more when it was no longer the device's own;
   and its timestamps are theirs too if and only if, besides, no such late activity is the most recent of its kind.
  */
  lemma TrafficIsConserved(limit: Limit, es: seq<Event>, d: string)
    requires CanRun(Start(limit), es) && d in Run(Start(limit), es).m.devices
    ensures var s := Run(Start(limit), es);
            var accepted := LogOf(s.accepted, d);
            var all := SumStats(WireOf(s, accepted));
            var noneLost := forall c :: c in accepted ==> !CountsWhenNotOwn(Start(limit), es, c);
            && Conserved(s, d)
            && Grown(Reported(s, d), all)
            && (SameCounts(Reported(s, d), all) <==> noneLost)
            && (Reported(s, d) == all <==> noneLost && NoneNewer(s, d))
            && (NoneLate(s, accepted) ==> Reported(s, d) == all)
  {
    hide CanHappen, CanRun, Next, Run, Conserved, SumStats, WireOf, Reported, Grown, SameCounts;
    hide NoneLate, NoneNewer, CountsWhenNotOwn;
    StartsConserved(limit);
    RunKeepsConserved(Start(limit), es);
    hide AllConserved;
    var s := Run(Start(limit), es);
    DeviceConserved(s, d);
    ReportedAgainstWire(s, d);
    forall c ensures c in s.missed <==> CountsWhenNotOwn(Start(limit), es, c) {
      MissedOnTheRun(Start(limit), es, c);
    }
  }

  /** Whatever a connection counts once replaced or closed is lost: the report stays, and falls short from then on. */
  lemma LateTrafficIsLost(s: Sys, d: string, conn: int, st: Stats)
    requires Inv(s.m.sel) && AllConserved(s) && d in s.m.devices && conn in LogOf(s.accepted, d) && !Own(s, conn)
    requires CanHappen(s, Traffic(conn, st)) && !SameCounts(st, s.wire[conn])
    ensures var s' := Next(s, Traffic(conn, st));
            && d in s'.m.devices && Reported(s', d) == Reported(s, d)
            && !SameCounts(Reported(s', d), SumStats(WireOf(s', LogOf(s'.accepted, d))))
  {
    CurrentIsElsewhere(s, d, conn);
    NextByName(s, Traffic(conn, st));
    NextKeepsConserved(s, Traffic(conn, st));
    hide CanHappen, Next, AllConserved, Inv;
    LateTrafficIsMissed(s, d, conn, st);
    ReportedAgainstWire(OnTraffic(s, conn, st), d);
    hide OnTraffic, Reported, SameCounts, WireOf, SumStats, Own;
  }

  lemma LateTrafficIsMissed(s: Sys, d: string, conn: int, st: Stats)
    requires conn in s.wire && d in s.m.devices && !Own(s, conn) && s.m.devices[d].conn != Some(conn)
    requires !SameCounts(st, s.wire[conn])
    ensures var s' := OnTraffic(s, conn, st);
            d in s'.m.devices && Reported(s', d) == Reported(s, d) && s'.accepted == s.accepted && conn in s'.missed
  {
    hide Own, SameCounts, Plus;
  }

  lemma CurrentIsElsewhere(s: Sys, d: string, conn: int)
    requires AllConserved(s) && d in s.m.devices && conn in LogOf(s.accepted, d) && !Own(s, conn)
    ensures s.m.devices[d].conn != Some(conn)
  {
    hide Balanced, Counted, Grown;
    assert Conserved(s, d);
  }

  const ONE_MESSAGE := ZERO_STATS.(messagesReceived := 1)

  /** The failing side is ordinary: a message read from a connection that has just been replaced. */
  lemma ReplacedConnectionLosesTraffic(limit: Limit)
    ensures var es := [DeviceJoins("d", "o", 7, ZERO_STATS), DeviceJoins("d", "o", 8, ZERO_STATS),
                       Traffic(7, ONE_MESSAGE)];
            && CanRun(Start(limit), es)
            && var s := Run(Start(limit), es);
               && "d" in s.m.devices && LogOf(s.accepted, "d") == [7, 8]
               && Reported(s, "d").messagesReceived == 0
               && SumStats(WireOf(s, [7, 8])).messagesReceived == 1
  {
    hide Inv, CanHappen, Next;
    var s0 := Start(limit);
    var s1, s2, s3 := ReplaceAndRead(limit);
    NoMore(s3);
    var rest2 := RunOne(s2, Traffic(7, ONE_MESSAGE), s3, []);
    var rest1 := RunOne(s1, DeviceJoins("d", "o", 8, ZERO_STATS), s2, rest2);
    var es := RunOne(s0, DeviceJoins("d", "o", 7, ZERO_STATS), s1, rest1);
    assert es == [DeviceJoins("d", "o", 7, ZERO_STATS), DeviceJoins("d", "o", 8, ZERO_STATS), Traffic(7, ONE_MESSAGE)];
    assert WireOf(s3, [7, 8]) == [ONE_MESSAGE, ZERO_STATS];
    SumOfLast([ONE_MESSAGE], ZERO_STATS);
    SumOfLast([], ONE_MESSAGE);
    assert [ONE_MESSAGE] + [ZERO_STATS] == [ONE_MESSAGE, ZERO_STATS] && [] + [ONE_MESSAGE] == [ONE_MESSAGE];
  }

  lemma ReplaceAndRead(limit: Limit) returns (s1: Sys, s2: Sys, s3: Sys)
    ensures var join := DeviceJoins("d", "o", 7, ZERO_STATS);
            CanHappen(Start(limit), join) && s1 == Next(Start(limit), join)
    ensures var join := DeviceJoins("d", "o", 8, ZERO_STATS); CanHappen(s1, join) && s2 == Next(s1, join)
    ensures var read := Traffic(7, ONE_MESSAGE); CanHappen(s2, read) && s3 == Next(s2, read)
    ensures LogOf(s3.accepted, "d") == [7, 8] && s3.wire == map[7 := ONE_MESSAGE, 8 := ZERO_STATS]
    ensures "d" in s3.m.devices && s3.m.devices["d"].conn == Some(8) && s3.m.devices["d"].previous == ZERO_STATS
  {
    hide OnJoinBegins, OnJoinEnds, OnCloseBegins, OnCloseEnds, OnDeviceCloses, OnEnables, OnDisables, OnDeletes;
    hide Inv, MayPick, OnClaims, OnGivesBack, OnCompletes, SetEnabled;
    s1 := Next(Start(limit), DeviceJoins("d", "o", 7, ZERO_STATS));
    assert s1.m.devices == map["d" := Device("o", Some(7), true, ZERO_STATS)] && s1.wire == map[7 := ZERO_STATS];
    s2 := Next(s1, DeviceJoins("d", "o", 8, ZERO_STATS));
    assert s2.m.devices == map["d" := Device("o", Some(8), true, ZERO_STATS)];
    s3 := Next(s2, Traffic(7, ONE_MESSAGE));
  }

  lemma StartsConserved(limit: Limit)
    ensures AllConserved(Start(limit))
  {
  }

  lemma DeviceConserved(s: Sys, d: string)
    requires AllConserved(s) && d in s.m.devices
    ensures Conserved(s, d)
  {
  }

  /** Accepted on the device as it is now in the table, and not folded yet. */
  predicate Unfolded(s: Sys, conn: int) {
    && conn in s.conns && s.conns[conn] in s.m.devices
    && conn in LogOf(s.accepted, s.conns[conn]) && conn !in FoldedConns(LogOf(s.ledger, s.conns[conn]))
  }

  lemma OwnIsUnfolded(s: Sys, conn: int)
    requires AllConserved(s) && conn in s.conns
    ensures Own(s, conn) <==> Unfolded(s, conn)
  {
    hide SumStats, FoldedStats, FoldedConns, Counted;
    var d := s.conns[conn];
    if d in s.m.devices {
      assert Conserved(s, d);
      var folded, accepted := FoldedConns(LogOf(s.ledger, d)), LogOf(s.accepted, d);
      assert accepted == folded + CurrentConn(s.m.devices[d]);
      if Own(s, conn) {
        assert accepted[|folded|] == conn;
        forall i | 0 <= i < |folded| ensures folded[i] != conn {
          assert accepted[i] == folded[i];
        }
      }
    }
  }

  /**
   In every reachable state the close of a control connection changes something, in the manager, in the selector or
   in what is reported, exactly when the connection has not been folded yet; and a second close changes nothing.
  */
  lemma CloseChangesOnlyTheUnfolded(limit: Limit, es: seq<Event>, conn: int)
    requires CanRun(Start(limit), es) && CanHappen(Run(Start(limit), es), DeviceCloses(conn))
    ensures var s := Run(Start(limit), es);
            var s' := Next(s, DeviceCloses(conn));
            && (s' == s <==> !Unfolded(s, conn))
            && CanHappen(s', DeviceCloses(conn)) && Next(s', DeviceCloses(conn)) == s'
  {
    StartsConserved(limit);
    RunKeepsConserved(Start(limit), es);
    var s := Run(Start(limit), es);
    OwnIsUnfolded(s, conn);
    hide AllConserved, Unfolded, CanRun, Run;
    ClosesOnce(s, conn);
  }

  lemma ClosesOnce(s: Sys, conn: int)
    requires Inv(s.m.sel) && CanHappen(s, DeviceCloses(conn))
    ensures var s' := Next(s, DeviceCloses(conn));
            && (s' == s <==> !Own(s, conn))
            && CanHappen(s', DeviceCloses(conn)) && Next(s', DeviceCloses(conn)) == s'
  {
    hide OnJoinBegins, OnJoinEnds, OnCloseBegins, OnCloseEnds, OnDeviceJoins, OnEnables, OnDisables;
    hide OnDeletes, OnClaims, OnGivesBack, OnCompletes, OnTraffic;
    hide Inv, MayPick, Plus, SetDisabled;
    var s' := Next(s, DeviceCloses(conn));
    assert Own(s, conn) ==> s'.m.devices[s.conns[conn]].conn.None?;
    assert !Own(s', conn);
  }

  lemma ZeroAddsNothing(a: Stats, b: Stats)
    requires Grown(ZERO_STATS, b)
    ensures Grown(a, Plus(a, b))
  {
  }

  lemma PlusIsMonotone(a: Stats, b: Stats, b': Stats)
    requires Grown(b, b')
    ensures Grown(Plus(a, b), Plus(a, b'))
  {
  }

  /** The devices whose connection and past total an event can change are those whose connection joins or closes. */
  lemma DeviceUntouched(s: Sys, e: Event, d: string)
    requires Inv(s.m.sel) && CanHappen(s, e) && !e.DeviceJoins? && !e.DeviceCloses? && d in s.m.devices
    requires d in Next(s, e).m.devices
    ensures Next(s, e).m.devices[d].conn == s.m.devices[d].conn
    ensures Next(s, e).m.devices[d].previous == s.m.devices[d].previous
    ensures !e.Traffic? ==> Next(s, e).wire == s.wire
  {
    hide OnDeviceJoins, OnDeviceCloses;
    hide Inv, MayPick, WorkerAvailable, WorkerUnavailable, Selected, ForgetAll, SetEnabled, SetDisabled, RemoveIfDead;
  }

  lemma JoinReports(s: Sys, d': string, origin: string, conn: int, st: Stats, d: string)
    requires Inv(s.m.sel) && AllConserved(s) && conn !in s.conns && Grown(ZERO_STATS, st) && d in s.m.devices
    ensures Grown(Reported(s, d), Reported(OnDeviceJoins(s, d', origin, conn, st), d))
  {
    hide Inv, Plus, Grown, Conserved, Counted, SetEnabled;
    if s.m.devices[d].conn.Some? {
      CurrentIsAccepted(s, d);
    }
    ReportedFromItself(s, d);
    ZeroAddsNothing(Reported(s, d), st);
  }

  lemma CurrentIsAccepted(s: Sys, d: string)
    requires AllConserved(s) && d in s.m.devices && s.m.devices[d].conn.Some?
    ensures s.m.devices[d].conn.value in s.wire && s.m.devices[d].conn.value in s.conns
  {
    hide Balanced;
    CurrentIsCounted(s, d);
    assert Conserved(s, d);
  }

  lemma CloseReports(s: Sys, conn: int, d: string)
    requires Inv(s.m.sel) && conn in s.conns && d in s.m.devices
    ensures Reported(OnDeviceCloses(s, conn), d) == Reported(s, d)
  {
    hide Inv, Plus, SetDisabled;
  }

  lemma TrafficReports(s: Sys, conn: int, st: Stats, d: string)
    requires conn in s.wire && Grown(s.wire[conn], st) && d in s.m.devices
    ensures Grown(Reported(s, d), Reported(OnTraffic(s, conn, st), d))
  {
    hide Plus;
    var s' := OnTraffic(s, conn, st);
    var known := s.m.devices[d];
    ReportedFromItself(s, d);
    PlusIsMonotone(known.previous, CountedBy(s, known.conn), CountedBy(s', known.conn));
  }

  /** No event makes a device report less: not traffic, not a replacement, not a close. */
  lemma ReportedNeverFalls(s: Sys, e: Event, d: string)
    requires Inv(s.m.sel) && CanHappen(s, e) && AllConserved(s) && d in s.m.devices && d in Next(s, e).m.devices
    ensures Grown(Reported(s, d), Reported(Next(s, e), d))
  {
    hide Next, AllConserved, Plus, Grown;
    ReportedFromItself(s, d);
    NextByName(s, e);
    match e
    case DeviceJoins(d', origin, conn, st) => JoinReports(s, d', origin, conn, st, d);
    case DeviceCloses(conn) => CloseReports(s, conn, d);
    case Traffic(conn, st) => TrafficReports(s, conn, st, d);
    case _ => DeviceUntouched(s, e, d);
  }

  lemma NextByName(s: Sys, e: Event)
    requires Inv(s.m.sel) && CanHappen(s, e)
    ensures e.DeviceJoins? ==> Next(s, e) == OnDeviceJoins(s, e.d, e.origin, e.conn, e.st)
    ensures e.DeviceCloses? ==> Next(s, e) == OnDeviceCloses(s, e.conn)
    ensures e.Traffic? ==> Next(s, e) == OnTraffic(s, e.conn, e.st)
  {
  }

  ghost predicate Stays(s: Sys, es: seq<Event>, d: string)
    requires Inv(s.m.sel) && CanRun(s, es)
    decreases |es|
  {
    d in s.m.devices && (es != [] ==> Stays(Next(s, es[0]), es[1..], d))
  }

  /** Nor do any number of events, from any reachable state on, while the device is not deleted. */
  lemma {:induction false} ReportedOnlyGrows(s: Sys, es: seq<Event>, d: string)
    requires Inv(s.m.sel) && CanRun(s, es) && AllConserved(s) && Stays(s, es, d)
    ensures d in Run(s, es).m.devices && Grown(Reported(s, d), Reported(Run(s, es), d))
    decreases |es|
  {
    hide CanHappen, Next, AllConserved, Reported;
    if es == [] {
      ReportedFromItself(s, d);
    } else {
      var s', rest := Next(s, es[0]), es[1..];
      assert Stays(s', rest, d);
      NextKeepsConserved(s, es[0]);
      ReportedOnlyGrows(s', rest, d);
      assert d in s'.m.devices;
      ReportedNeverFalls(s, es[0], d);
    }
  }

  lemma ReportedFromItself(s: Sys, d: string)
    requires d in s.m.devices
    ensures Grown(Reported(s, d), Reported(s, d))
  {
  }
}
