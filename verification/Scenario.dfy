/** One short run of the manager, which several others continue: a device, its worker, and a claim. */
module Scenario {
  import opened Basics
  import opened History
  import opened SelectorModel
  import SelectorRuns
  import opened SelectorViews
  import opened ConnStats
  import opened ManagerModel
  import opened ManagerRuns

  const LIMIT := Limit(true, 1, 100)
  const WORKER := Worker(0, "d", "w")

  lemma RunOne(s: Sys, e: Event, s': Sys, rest: seq<Event>) returns (es: seq<Event>)
    requires Inv(s.m.sel) && CanHappen(s, e) && Next(s, e) == s' && CanRun(s', rest)
    ensures es == [e] + rest && CanRun(s, es) && Run(s, es) == Run(s', rest)
  {
    hide CanHappen, Next;
    es := [e] + rest;
    assert es[1..] == rest;
  }

  lemma {:induction false} RunTwice(s: Sys, first: seq<Event>, second: seq<Event>)
    requires Inv(s.m.sel) && CanRun(s, first) && CanRun(Run(s, first), second)
    ensures CanRun(s, first + second) && Run(s, first + second) == Run(Run(s, first), second)
    decreases |first|
  {
    hide CanHappen, Next;
    if first == [] {
      assert first + second == second;
    } else {
      RunTwice(Next(s, first[0]), first[1..], second);
      assert (first + second)[1..] == first[1..] + second;
    }
  }

  lemma NoMore(s: Sys)
    requires Inv(s.m.sel)
    ensures CanRun(s, []) && Run(s, []) == s
  {
  }

  /** The device is connected and on, its one worker announced. */
  predicate OneJoined(s: Sys)
    requires Inv(Sel(map[], LIMIT))
  {
    && s.pending == NoSection && s.joined == {WORKER} && s.conns == map[7 := "d"]
    && s.m.devices == map["d" := Device("o", Some(7), true, ZERO_STATS)]
    && s.m.workers == map["d" := map["w" := WORKER]]
    && s.holders == map[] && s.m.sel == WorkerAvailable(Sel(map[], LIMIT), WORKER)
  }

  /** The worker is claimed by registration 1. */
  predicate OneClaimed(s: Sys) {
    && s.pending == NoSection && s.joined == {WORKER} && s.conns == map[7 := "d"]
    && s.m.devices == map["d" := Device("o", Some(7), true, ZERO_STATS)]
    && s.m.workers == map["d" := map["w" := WORKER]]
    && s.holders == map[1 := Pending(WORKER)]
  }

  lemma Empty()
    ensures Inv(Sel(map[], LIMIT))
  {
  }

  lemma DeviceJoinsFirst() returns (s1: Sys)
    ensures CanHappen(Start(LIMIT), DeviceJoins("d", "o", 7, ZERO_STATS))
    ensures s1 == Next(Start(LIMIT), DeviceJoins("d", "o", 7, ZERO_STATS))
    ensures s1.pending == NoSection && s1.joined == {} && s1.conns == map[7 := "d"] && s1.holders == map[]
    ensures s1.m == Mgr(map["d" := Device("o", Some(7), true, ZERO_STATS)], map[], map[], Sel(map[], LIMIT))
  {
    hide Inv, Plus;
    s1 := Next(Start(LIMIT), DeviceJoins("d", "o", 7, ZERO_STATS));
  }

  lemma WorkerJoinsNext(s: Sys) returns (s1: Sys, s2: Sys)
    requires s.pending == NoSection && s.joined == {} && s.conns == map[7 := "d"] && s.holders == map[]
    requires s.m == Mgr(map["d" := Device("o", Some(7), true, ZERO_STATS)], map[], map[], Sel(map[], LIMIT))
    ensures Inv(s.m.sel) && CanHappen(s, JoinBegins(WORKER, "o")) && s1 == Next(s, JoinBegins(WORKER, "o"))
    ensures CanHappen(s1, JoinEnds) && s2 == Next(s1, JoinEnds)
    ensures Inv(Sel(map[], LIMIT)) && OneJoined(s2)
  {
    Empty();
    hide Inv, Announce;
    s1 := Next(s, JoinBegins(WORKER, "o"));
    assert s1.m == s.m;
    s2 := Next(s1, JoinEnds);
    assert TableOf(s.m, "d") == map[];
  }

  lemma JoinOne() returns (es: seq<Event>)
    ensures CanRun(Start(LIMIT), es) && Inv(Sel(map[], LIMIT)) && OneJoined(Run(Start(LIMIT), es)) && NoneGivesBack(es)
  {
    var s := DeviceJoinsFirst();
    var s1, s2 := WorkerJoinsNext(s);
    hide Inv, CanHappen, Next, OneJoined;
    NoMore(s2);
    var rest1 := RunOne(s1, JoinEnds, s2, []);
    var rest := RunOne(s, JoinBegins(WORKER, "o"), s1, rest1);
    es := RunOne(Start(LIMIT), DeviceJoins("d", "o", 7, ZERO_STATS), s, rest);
  }

  lemma HandoutAfterAnnounce(limit: Limit, w: Worker)
    requires w.Worker? && Inv(Sel(map[], limit))
    ensures Handout(WorkerAvailable(Sel(map[], limit), w), Some(w.deviceID)) == w
  {
  }

  /** The selector offers the worker. */
  lemma Offered()
    ensures Inv(Sel(map[], LIMIT)) && Inv(WorkerAvailable(Sel(map[], LIMIT), WORKER))
    ensures MayPick(WorkerAvailable(Sel(map[], LIMIT), WORKER), 5, 1, Some("d"))
    ensures Handout(WorkerAvailable(Sel(map[], LIMIT), WORKER), Some("d")) == WORKER
  {
    var sel1, sel2 := SelectorRuns.AnnounceAndClaim(LIMIT, WORKER, 1);
    HandoutAfterAnnounce(LIMIT, WORKER);
    hide Inv, MayPick, Handout, Announce;
  }

  lemma ClaimOne(s: Sys)
    requires Inv(s.m.sel) && Inv(Sel(map[], LIMIT)) && s.m.sel == WorkerAvailable(Sel(map[], LIMIT), WORKER)
    requires s.pending == NoSection && s.holders == map[]
    ensures CanHappen(s, Claims(1, 5, 1, Some("d")))
    ensures var s' := Next(s, Claims(1, 5, 1, Some("d")));
            s' == s.(m := s'.m, holders := map[1 := Pending(WORKER)]) && s'.m == s.m.(sel := s'.m.sel)
  {
    Offered();
    hide Inv, MayPick, Selected, WorkerAvailable, Handout;
    assert ClampWeight(5) == 5;
  }

  predicate NoneGivesBack(es: seq<Event>) {
    forall i :: 0 <= i < |es| ==> !es[i].GivesBack?
  }

  lemma JoinAndClaim() returns (es: seq<Event>)
    ensures CanRun(Start(LIMIT), es) && OneClaimed(Run(Start(LIMIT), es)) && NoneGivesBack(es)
  {
    var first := JoinOne();
    var s := Run(Start(LIMIT), first);
    ClaimOne(s);
    var s' := Next(s, Claims(1, 5, 1, Some("d")));
    assert OneClaimed(s');
    hide Inv, CanHappen, Next, OneJoined, OneClaimed;
    NoMore(s');
    var rest := RunOne(s, Claims(1, 5, 1, Some("d")), s', []);
    RunTwice(Start(LIMIT), first, rest);
    es := first + rest;
  }
}
