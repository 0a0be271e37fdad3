/**
 What a selection answers, told by the calls of a run.

 When each device was served is read off the calls; whether a selection answers, with which device, and how heavily
 a recently selected one is held back, follow from that and from the queues, switches and weights.
*/
module SelectorLaws {
  import opened Basics
  import opened History
  import opened SelectorModel
  import opened SelectorRuns
  import opened Scoring

  /** When device d was selected, since it came into the selector: `before` and what the calls add. */
  ghost function Served(s: Sel, ops: seq<Op>, d: string, before: seq<int>): seq<int>
    requires Inv(s) && CanRun(s, ops)
    decreases |ops|
  {
    if ops == [] then before
    else Served(Apply(s, ops[0]), ops[1..], d, if Removes(s, ops[0], d) then [] else before + ClaimTime(ops[0], d))
  }

  predicate NeverConfigures(ops: seq<Op>) {
    forall i :: 0 <= i < |ops| ==> !ops[i].Configure?
  }

  function LastSelection(s: Sel, d: string): Option<int> {
    if d in s.devices then s.devices[d].lastSelection else None
  }

  function LastOfLog(served: seq<int>): Option<int> {
    if served == [] then None else Some(served[|served| - 1])
  }

  /** The selector's memory of device d is that of the log. */
  ghost predicate Remembered(s: Sel, d: string, served: seq<int>, last: int) {
    Mirrors(s, d, served, last) && LastSelection(s, d) == LastOfLog(served)
  }

  lemma LastSelectionAfter(s: Sel, op: Op, d: string)
    requires Inv(s) && CanApply(s, op) && !op.Get?
    ensures LastSelection(Apply(s, op), d) == if Removes(s, op, d) then None else LastSelection(s, d)
  {
    hide Accounting, TotalWeight, Bearers;
  }

  lemma LastSelectionOnGet(s: Sel, op: Op, d: string)
    requires Inv(s) && CanApply(s, op) && op.Get?
    ensures LastSelection(Apply(s, op), d) == if Claims(op, d) then Some(op.now) else LastSelection(s, d)
  {
    hide Accounting, TotalWeight, Bearers, Rank, Prune;
  }

  lemma RemovedIsForgotten(s: Sel, op: Op, d: string, last: int)
    requires Inv(s) && CanApply(s, op) && Removes(s, op, d)
    ensures Mirrors(Apply(s, op), d, [], last) && Apply(s, op).limit == s.limit
  {
    hide Inv, CanApply, Apply, Mirrors, Removes;
    RemovedIsUnknown(s, op, d);
    UnknownMirrorsNothing(Apply(s, op), d, last);
  }

  lemma UnknownMirrorsNothing(s: Sel, d: string, last: int)
    requires d !in s.devices
    ensures Mirrors(s, d, [], last)
  {
    NothingToRemember([], last - s.limit.duration);
    hide Remembers;
  }

  lemma StaysRemembered(s: Sel, op: Op, d: string, served: seq<int>, last: int)
    requires Inv(s) && CanApply(s, op) && !op.Configure? && last <= After(op, last)
    requires Remembered(s, d, served, last)
    ensures var served' := if Removes(s, op, d) then [] else served + ClaimTime(op, d);
            Remembered(Apply(s, op), d, served', After(op, last)) && Apply(s, op).limit == s.limit
  {
    if op.Get? {
      LastSelectionOnGet(s, op, d);
    } else {
      LastSelectionAfter(s, op, d);
    }
    hide Inv, CanApply, Apply, Mirrors, LastSelection;
    assert served + [] == served;
    if Removes(s, op, d) {
      RemovedIsForgotten(s, op, d, After(op, last));
    } else {
      StaysMirrored(s, op, d, served, last);
    }
  }

  lemma {:induction false} RunRemembers(s: Sel, ops: seq<Op>, d: string, served: seq<int>, last: int)
    requires Inv(s) && CanRun(s, ops) && Ordered(last, ops) && NeverConfigures(ops) && Remembered(s, d, served, last)
    ensures Remembered(Run(s, ops), d, Served(s, ops, d, served), LastOf(ops, last)) && Run(s, ops).limit == s.limit
    decreases |ops|
  {
    hide Inv, CanApply, Apply, Remembered;
    if ops != [] {
      var op, rest := ops[0], ops[1..];
      assert NeverConfigures(rest);
      StaysRemembered(s, op, d, served, last);
      RunRemembers(Apply(s, op), rest, d, if Removes(s, op, d) then [] else served + ClaimTime(op, d), After(op, last));
    }
  }

  // ------------------------------------------------------------ what a selection answers

  /** The device's selections of the last Duration are as many as an enabled limit allows. */
  predicate UsedUp(served: seq<int>, limit: Limit, now: int) {
    limit.enabled && |Between(served, now - limit.duration, now)| >= limit.maxSelections
  }

  /** Something queued, switched on, and not used up. */
  predicate Offers(s: Sel, d: string, served: seq<int>, now: int) {
    d in s.devices && s.devices[d].queue != [] && s.devices[d].enabled && !UsedUp(served, s.limit, now)
  }

  lemma OffersIfEligible(s: Sel, d: string, served: seq<int>, last: int, now: int)
    requires d in s.devices && Remembered(s, d, served, last) && last <= now
    ensures Eligible(s.devices[d], s.limit, now) <==> Offers(s, d, served, now)
  {
    WhatMirrorsMeans(s, d, served, last, now);
    hide Mirrors, Prune, Between;
  }

  /** With no selections held back, a selection answers as long as any device that is on has something queued. */
  lemma LimitOffNeverRefuses(s: Sel, weight: int, now: int, pick: Option<string>, d: string)
    requires Inv(s) && MayPick(s, weight, now, pick) && !s.limit.enabled
    requires d in s.devices && s.devices[d].enabled && s.devices[d].queue != []
    ensures pick.Some? && Handout(s, pick).Worker?
  {
    assert Eligible(s.devices[d], s.limit, now);
    PickHandsOut(s, weight, now, pick);
  }

  /** What is handed out is the connection of the worker at the head of the picked device's queue. */
  lemma PickHandsOut(s: Sel, weight: int, now: int, pick: Option<string>)
    requires Inv(s) && MayPick(s, weight, now, pick)
    ensures pick.None? ==> Handout(s, pick) == NoWorker
    ensures pick.Some? ==>
      && pick.value in s.devices && s.devices[pick.value].queue != []
      && Handout(s, pick).Worker? && Handout(s, pick).deviceID == pick.value
      && Handout(s, pick).id == s.devices[pick.value].queue[0]
  {
    if pick.Some? {
      QueueIsSeen(s.devices[pick.value]);
    }
    hide Accounting, Rank, AtMax;
  }

  /** The weight a request is served with: its own between 1 and 10, 5 below that, 10 above. */
  function ServedWeight(weight: int): int {
    if 1 <= weight <= 10 then weight else if weight < 1 then 5 else 10
  }

  /** How heavily a device is held back: by 200 less 10 for every half minute since it was selected, for ten minutes. */
  function Handicap(last: Option<int>, now: int): int {
    if last.None? || now >= last.value + 600_000_000_000 then 1
    else if now >= last.value then 200 - 10 * ((now - last.value) / 30_000_000_000)
    else 200 + 10 * ((last.value - now) / 30_000_000_000)
  }

  lemma PenaltyIsHandicap(d: Dev, now: int)
    ensures Penalty(d, now) == Handicap(d.lastSelection, now)
  {
  }

  lemma RatiosCompare(a: int, m: int, b: int, n: int)
    requires m > 0 && n > 0
    ensures a as real / m as real <= b as real / n as real <==> a * n <= b * m
  {
    var x, y := a as real / m as real, b as real / n as real;
    var f := m as real * n as real;
    assert x * m as real == a as real && y * n as real == b as real;
    assert f * x == a as real * n as real == (a * n) as real;
    assert f * y == b as real * m as real == (b * m) as real;
    ScaledCompare(f, x, y);
  }

  /** Handicap times load, compared without division: the load is the weight borne over the number of workers. */
  predicate NoHeavier(p: Dev, e: Dev, weight: int, now: int) {
    Handicap(p.lastSelection, now) * (p.currentWeight + weight) * |e.seen|
      <= Handicap(e.lastSelection, now) * (e.currentWeight + weight) * |p.seen|
  }

  lemma RankInPlainNumbers(p: Dev, e: Dev, weight: int, now: int)
    requires |p.seen| > 0 && |e.seen| > 0
    ensures Rank(p, weight, now) <= Rank(e, weight, now) <==> NoHeavier(p, e, weight, now)
  {
    PenaltyIsHandicap(p, now);
    PenaltyIsHandicap(e, now);
    hide Penalty, Handicap;
    var a, b := Penalty(p, now), Penalty(e, now);
    RankIsRatio(p, weight, now);
    RankIsRatio(e, weight, now);
    hide Rank;
    RatiosCompare(a * (p.currentWeight + weight), 10 * |p.seen|, b * (e.currentWeight + weight), 10 * |e.seen|);
    TenTimes(a * (p.currentWeight + weight), |e.seen|);
    TenTimes(b * (e.currentWeight + weight), |p.seen|);
  }

  lemma TenTimes(x: int, n: int)
    ensures x * (10 * n) == 10 * (x * n)
  {
  }

  lemma RankIsRatio(d: Dev, weight: int, now: int)
    requires |d.seen| > 0
    ensures Rank(d, weight, now) == (Penalty(d, now) * (d.currentWeight + weight)) as real / (10 * |d.seen|) as real
  {
    hide Penalty;
    var x, w, m := Penalty(d, now) as real, (d.currentWeight + weight) as real, (10 * |d.seen|) as real;
    assert x * (w / m) == (x * w) / m;
  }

  /** For each device, the selections that the selector remembers. */
  ghost predicate AllRemembered(s: Sel, served: string -> seq<int>, last: int) {
    forall d :: d in s.devices ==> Remembered(s, d, served(d), last)
  }

  /**
   A selection answers None exactly when no device offers anything; what it picks offers something, and is no heavier
   than any other device that does.
  */
  ghost predicate AnswersRight(s: Sel, served: string -> seq<int>, weight: int, now: int, pick: Option<string>) {
    && (pick.None? <==> forall d :: !Offers(s, d, served(d), now))
    && (pick.Some? ==>
          && Offers(s, pick.value, served(pick.value), now)
          && forall e :: Offers(s, e, served(e), now) ==>
               NoHeavier(s.devices[pick.value], s.devices[e], ServedWeight(weight), now))
  }

  lemma SelectionAnswersRight(s: Sel, served: string -> seq<int>, last: int, weight: int, now: int,
                              pick: Option<string>)
    requires Inv(s) && MayPick(s, weight, now, pick) && AllRemembered(s, served, last) && last <= now
    ensures AnswersRight(s, served, weight, now, pick)
  {
    assert ClampWeight(weight) == ServedWeight(weight);
    hide Inv, Remembered, Eligible, Rank, NoHeavier, ClampWeight, ServedWeight;
    forall d | d in s.devices ensures Eligible(s.devices[d], s.limit, now) <==> Offers(s, d, served(d), now) {
      OffersIfEligible(s, d, served(d), last, now);
    }
    hide UsedUp;
    if pick.Some? {
      var p := pick.value;
      forall e | Offers(s, e, served(e), now) ensures NoHeavier(s.devices[p], s.devices[e], ServedWeight(weight), now) {
        assert Eligible(s.devices[e], s.limit, now);
        RankInPlainNumbers(s.devices[p], s.devices[e], ServedWeight(weight), now);
      }
    }
  }

  /**
   Main result.  After any calls from an empty selector that leave the limit alone, a selection answers None if and only
   if every device has nothing queued, is switched off or, the limit being enabled, was selected MaxSelections times or
   more in the last Duration; the device it picks is none of these, and the lightest of those that are none.
  */
  lemma SelectionFollowsFromTheCalls(s: Sel, ops: seq<Op>, from: int, weight: int, now: int, pick: Option<string>)
    requires Inv(s) && s.devices == map[] && CanRun(s, ops) && Ordered(from, ops) && NeverConfigures(ops)
    requires LastOf(ops, from) <= now && MayPick(Run(s, ops), weight, now, pick)
    ensures AnswersRight(Run(s, ops), d => Served(s, ops, d, []), weight, now, pick)
  {
    RunKeepsInv(s, ops);
    hide Inv, CanRun, Run, Ordered, MayPick, Remembered, AnswersRight, NeverConfigures;
    forall d ensures Remembered(Run(s, ops), d, Served(s, ops, d, []), LastOf(ops, from)) {
      NothingRemembered(s, d, from);
      RunRemembers(s, ops, d, [], from);
    }
    SelectionAnswersRight(Run(s, ops), d => Served(s, ops, d, []), LastOf(ops, from), weight, now, pick);
  }

  lemma NothingRemembered(s: Sel, d: string, from: int)
    requires s.devices == map[]
    ensures Remembered(s, d, [], from)
  {
    UnknownMirrorsNothing(s, d, from);
    hide Mirrors;
  }

  /** Where no device is removed with recent selections, all the calls' selections of a device may be counted. */
  lemma SteadySelectionFollowsFromTheCalls(s: Sel, ops: seq<Op>, from: int, weight: int, now: int, pick: Option<string>)
    requires Inv(s) && s.devices == map[] && CanRun(s, ops) && Ordered(from, ops) && NeverConfigures(ops)
    requires LastOf(ops, from) <= now && MayPick(Run(s, ops), weight, now, pick)
    requires forall d :: Steady(s, ops, d)
    ensures AnswersRight(Run(s, ops), d => ClaimTimes(ops, d), weight, now, pick)
  {
    hide Inv, CanRun, Run, Ordered, MayPick, NeverConfigures, Steady, ClaimTimes, LastOf, Offers, AnswersRight, Served;
    SelectionFollowsFromTheCalls(s, ops, from, weight, now, pick);
    var s' := Run(s, ops);
    forall d ensures Offers(s', d, ClaimTimes(ops, d), now) <==> Offers(s', d, Served(s, ops, d, []), now) {
      SameInTheWindow(s, ops, d, from, now);
      SameOffers(s', d, ClaimTimes(ops, d), Served(s, ops, d, []), now);
    }
    SameAnswers(s', d => Served(s, ops, d, []), d => ClaimTimes(ops, d), weight, now, pick);
  }

  lemma SameOffers(s: Sel, d: string, served: seq<int>, served': seq<int>, now: int)
    requires Between(served, now - s.limit.duration, now) == Between(served', now - s.limit.duration, now)
    ensures Offers(s, d, served, now) <==> Offers(s, d, served', now)
  {
    hide Between;
  }

  lemma SameAnswers(s: Sel, served: string -> seq<int>, served': string -> seq<int>, weight: int, now: int,
                    pick: Option<string>)
    requires AnswersRight(s, served, weight, now, pick)
    requires forall d :: Offers(s, d, served'(d), now) <==> Offers(s, d, served(d), now)
    ensures AnswersRight(s, served', weight, now, pick)
  {
    hide UsedUp, NoHeavier;
  }

  lemma SameInTheWindow(s: Sel, ops: seq<Op>, d: string, from: int, now: int)
    requires Inv(s) && s.devices == map[] && CanRun(s, ops) && Ordered(from, ops) && NeverConfigures(ops)
    requires LastOf(ops, from) <= now && Steady(s, ops, d)
    ensures Run(s, ops).limit == s.limit
    ensures Between(ClaimTimes(ops, d), now - s.limit.duration, now)
         == Between(Served(s, ops, d, []), now - s.limit.duration, now)
  {
    hide Inv, CanRun, Run, Ordered, NeverConfigures, Steady, ClaimTimes, Between, Mirrors, Prune, HistoryOf;
    HistoryIsTheRecentLog(s, ops, d, from, now);
    NothingRemembered(s, d, from);
    RunRemembers(s, ops, d, [], from);
    WhatMirrorsMeans(Run(s, ops), d, Served(s, ops, d, []), LastOf(ops, from), now);
  }

  // ------------------------------------------------------------ settings, weights, queues and retention

  /** A limit given is taken if it is off, or allows something. */
  function LimitGiven(op: Op, before: Limit): Limit {
    if op.Configure? && (op.limit.enabled ==> op.limit.maxSelections > 0 && op.limit.duration > 0) then op.limit
    else before
  }

  function LimitAfter(ops: seq<Op>, before: Limit): Limit
    decreases |ops|
  {
    if ops == [] then before else LimitAfter(ops[1..], LimitGiven(ops[0], before))
  }

  lemma LimitOnApply(s: Sel, op: Op)
    requires Inv(s) && CanApply(s, op)
    ensures Apply(s, op).limit == LimitGiven(op, s.limit)
  {
    hide Inv, MayPick, Announce, Depart, Claim, Rank;
  }

  lemma {:induction false} LimitFollowsFromTheCalls(s: Sel, ops: seq<Op>)
    requires Inv(s) && CanRun(s, ops)
    ensures Run(s, ops).limit == LimitAfter(ops, s.limit)
    decreases |ops|
  {
    hide Inv, CanApply, Apply;
    if ops != [] {
      LimitOnApply(s, ops[0]);
      LimitFollowsFromTheCalls(Apply(s, ops[0]), ops[1..]);
    }
  }

  /** A selection puts the request's weight, brought into 1 to 10, on the worker handed out and on no other. */
  lemma SelectionAssigns(s: Sel, weight: int, now: int, p: string, d: string, id: string)
    requires Inv(s) && MayPick(s, weight, now, Some(p)) && d in s.devices && id in s.devices[d].seen
    ensures p in s.devices && s.devices[p].queue != []
    ensures var s' := Selected(s, weight, now, Some(p));
            var w := Handout(s, Some(p));
            && d in s'.devices && id in s'.devices[d].seen && w.Worker?
            && s'.devices[d].seen[id].weight
                 == if d == w.deviceID && id == w.id then ServedWeight(weight) else s.devices[d].seen[id].weight
  {
    PickHandsOut(s, weight, now, Some(p));
    hide Inv, MayPick, Handout;
    SelectedSlots(s, weight, now, p, d, id);
    hide Selected, ServedWeight;
  }

  lemma SelectedSlots(s: Sel, weight: int, now: int, p: string, d: string, id: string)
    requires Inv(s) && p in s.devices && s.devices[p].queue != [] && d in s.devices && id in s.devices[d].seen
    ensures var s' := Selected(s, weight, now, Some(p));
            && d in s'.devices && id in s'.devices[d].seen
            && s'.devices[d].seen[id].weight
                 == if d == p && id == s.devices[p].queue[0] then ServedWeight(weight) else s.devices[d].seen[id].weight
  {
    ClaimAccounts(s.devices[p], ClampWeight(weight), s.limit, now);
    ServedWeightIsClamped(weight);
    LookedKeepsQueue(s.devices[p], s.limit, now);
    LookedKeepsQueue(s.devices[d], s.limit, now);
    hide Inv, ClampWeight, ServedWeight, Claim, Accounting, Looked, Shaped;
    ClaimPutsWeight(Looked(s.devices[p], s.limit, now), ServedWeight(weight), s.limit, now, id);
  }

  lemma ServedWeightIsClamped(weight: int)
    ensures ClampWeight(weight) == ServedWeight(weight) && 1 <= ServedWeight(weight) <= 10
  {
  }

  lemma LookedKeepsQueue(d: Dev, limit: Limit, now: int)
    ensures var looked := Looked(d, limit, now);
            looked.seen == d.seen && looked.queue == d.queue && looked.used == d.used
  {
  }

  lemma ClaimPutsWeight(d: Dev, weight: int, limit: Limit, now: int, id: string)
    requires |d.used| == MAXIMUM_WEIGHT + 1 && MINIMUM_WEIGHT <= weight <= MAXIMUM_WEIGHT
    requires d.queue != [] && d.queue[0] in d.seen
    ensures id in d.seen ==> id in Claim(d, weight, limit, now).seen
    ensures id in d.seen ==>
      Claim(d, weight, limit, now).seen[id].weight == if id == d.queue[0] then weight else d.seen[id].weight
  {
  }

  /** An announced id goes to the back of the queue, whether it was queued already or not; no other changes place. */
  lemma AnnouncedGoesToTheBack(d: Dev, w: Worker, i: nat)
    requires Accounting(d) && Shaped(d) && w.Worker?
    ensures w.id !in d.queue ==> Announce(d, w).queue == d.queue + [w.id]
    ensures i < |d.queue| && d.queue[i] == w.id ==> Announce(d, w).queue == d.queue[..i] + d.queue[i + 1..] + [w.id]
  {
    if w.id in d.seen {
      assert SlotOk(d, w.id);
    }
    if w.id !in d.queue {
      WithoutAbsent(d.queue, w.id);
    } else if i < |d.queue| && d.queue[i] == w.id {
      assert Distinct(d.queue);
      WithoutAt(d.queue, w.id, i);
    }
  }

  lemma {:induction false} WithoutAbsent(q: seq<string>, x: string)
    requires forall j :: 0 <= j < |q| ==> q[j] != x
    ensures Without(q, x) == q
  {
    if q != [] {
      WithoutAbsent(q[1..], x);
    }
  }

  lemma {:induction false} WithoutAt(q: seq<string>, x: string, i: nat)
    requires i < |q| && q[i] == x && forall j :: 0 <= j < i ==> q[j] != x
    ensures Without(q, x) == q[..i] + q[i + 1..]
  {
    if i > 0 {
      WithoutAt(q[1..], x, i - 1);
      assert q[..i] == [q[0]] + q[1..][..i - 1];
    }
  }

  /** A departing connection leaves its place in the queue, and what is remembered of it is when it left. */
  lemma DepartedLeavesTheQueue(d: Dev, w: Worker, now: int, i: nat)
    requires Accounting(d) && Shaped(d) && w.Worker? && w.id in d.seen && d.seen[w.id].conn == w
    ensures Depart(d, w, now).seen[w.id] == Slot(w, 0, Some(now))
    ensures i < |d.queue| && d.queue[i] == w.id ==> Depart(d, w, now).queue == d.queue[..i] + d.queue[i + 1..]
    ensures w.id !in d.queue && d.seen[w.id].weight > 0 ==> Depart(d, w, now).queue == d.queue
  {
    assert SlotOk(d, w.id);
    hide Accounting;
    if i < |d.queue| && d.queue[i] == w.id {
      assert Distinct(d.queue);
      WithoutAt(d.queue, w.id, i);
    }
  }

  /** A connection that left at `left` is forgotten by a prune at `now` exactly if that is `dur` later or more. */
  lemma ForgottenExactlyAfter(d: Dev, w: Worker, left: int, dur: int, now: int)
    requires Accounting(d) && Shaped(d) && w.Worker? && w.id in d.seen && d.seen[w.id].conn == w
    ensures w.id !in Forget(Depart(d, w, left), dur, now).seen <==> now >= left + dur
    ensures forall id :: id in d.seen && d.seen[id].goneAt.None? ==> id in Forget(d, dur, now).seen
  {
    DepartedLeavesTheQueue(d, w, left, 0);
    hide Depart, Accounting;
  }
}
