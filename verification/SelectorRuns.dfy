/**
 Whole runs of the selector: the rate limit, bounded bypass, and accounting in every reachable state.
*/
module SelectorRuns {
  import opened Basics
  import opened History
  import opened SelectorModel

  ghost predicate CanRun(s: Sel, ops: seq<Op>)
    requires Inv(s)
    decreases |ops|
  {
    ops != [] ==> CanApply(s, ops[0]) && CanRun(Apply(s, ops[0]), ops[1..])
  }

  ghost function Run(s: Sel, ops: seq<Op>): Sel
    requires Inv(s) && CanRun(s, ops)
    decreases |ops|
  {
    if ops == [] then s
    else Run(Apply(s, ops[0]), ops[1..])
  }

  ghost predicate Sound(d: Dev) {
    && Accounting(d)
    && 0 <= d.currentWeight <= Capacity(d)
    && (d.queue != [] ==> Capacity(d) > 0)
  }

  /** Accounting holds after any calls whatever, so every selection divides by a positive capacity. */
  lemma EveryReachableStateAccounts(s: Sel, ops: seq<Op>, d: string)
    requires Inv(s) && CanRun(s, ops) && d in Run(s, ops).devices
    ensures Sound(Run(s, ops).devices[d])
  {
    RunKeepsInv(s, ops);
    WeightWithinCapacity(Run(s, ops).devices[d]);
  }

  lemma {:induction false} RunKeepsInv(s: Sel, ops: seq<Op>)
    requires Inv(s) && CanRun(s, ops)
    ensures Inv(Run(s, ops))
    decreases |ops|
  {
    hide Accounting;
    if ops != [] {
      RunKeepsInv(Apply(s, ops[0]), ops[1..]);
    }
  }

  // ------------------------------------------------------------ rate limit

  predicate Claims(op: Op, d: string) {
    op.Get? && op.pick == Some(d)
  }

  function ClaimTime(op: Op, d: string): seq<int> {
    if Claims(op, d) then [op.now] else []
  }

  /** When device d was selected, in order. */
  function ClaimTimes(ops: seq<Op>, d: string): seq<int>
    decreases |ops|
  {
    if ops == [] then []
    else ClaimTime(ops[0], d) + ClaimTimes(ops[1..], d)
  }

  /** The clock once op is done, as far as selections and removals show it. */
  function After(op: Op, last: int): int {
    if op.Get? || op.RemoveDead? then op.now else last
  }

  /** Selections and removals happen at nondecreasing times, none before `from`. */
  predicate Ordered(from: int, ops: seq<Op>)
    decreases |ops|
  {
    ops != [] ==> from <= After(ops[0], from) && Ordered(After(ops[0], from), ops[1..])
  }

  /** What the selector remembers of device d's selections; nothing for a device it does not know. */
  function HistoryOf(s: Sel, d: string): seq<int> {
    if d in s.devices then s.devices[d].history else []
  }

  /** The call takes device d, and with it the device's history, out of the selector. */
  predicate Removes(s: Sel, op: Op, d: string) {
    op.RemoveDead? && op.d == d && d in s.devices && !HasAssigned(s.devices[d])
  }

  /** It does so while the history still holds a selection of the last Duration. */
  predicate Forgets(s: Sel, op: Op, d: string) {
    Removes(s, op, d) && Prune(HistoryOf(s, d), op.now - s.limit.duration) != []
  }

  /** No call in the stretch changes the limit, or removes the device too soon. */
  ghost predicate Steady(s: Sel, ops: seq<Op>, d: string)
    requires Inv(s) && CanRun(s, ops)
    decreases |ops|
  {
    ops != [] ==> !ops[0].Configure? && !Forgets(s, ops[0], d) && Steady(Apply(s, ops[0]), ops[1..], d)
  }

  function InWindow(log: seq<int>, limit: Limit, t: int): int {
    |Between(log, t - limit.duration, t)|
  }

  ghost predicate WithinLimit(log: seq<int>, limit: Limit) {
    forall t :: InWindow(log, limit, t) <= limit.maxSelections
  }

  /** The device's history knows every selection of the stretch that can still matter. */
  ghost predicate Tracks(s: Sel, d: string, log: seq<int>, last: int) {
    Remembers(HistoryOf(s, d), log, last - s.limit.duration)
  }

  lemma {:induction false} BetweenShrinks(log: seq<int>, from: int, from': int, to: int, to': int)
    requires from <= from' && forall i :: 0 <= i < |log| ==> log[i] <= to
    ensures |Between(log, from', to')| <= |Between(log, from, to)|
  {
    if log != [] {
      BetweenShrinks(log[..|log| - 1], from, from', to, to');
    }
  }

  lemma OneMoreWithinLimit(log: seq<int>, now: int, limit: Limit)
    requires WithinLimit(log, limit) && forall i :: 0 <= i < |log| ==> log[i] <= now
    requires InWindow(log, limit, now) < limit.maxSelections
    ensures WithinLimit(log + [now], limit)
  {
    forall t ensures InWindow(log + [now], limit, t) <= limit.maxSelections {
      assert (log + [now])[..|log|] == log;
      assert InWindow(log, limit, t) <= limit.maxSelections;
      if t >= now {
        BetweenShrinks(log, now - limit.duration, t - limit.duration, now, t);
      }
    }
  }

  lemma HistoryUntouched(s: Sel, op: Op, d: string)
    requires Inv(s) && CanApply(s, op) && !op.Get? && !op.Configure?
    ensures Apply(s, op).limit == s.limit
    ensures HistoryOf(Apply(s, op), d) == if Removes(s, op, d) then [] else HistoryOf(s, d)
  {
    hide Accounting, TotalWeight, Bearers;
  }

  lemma HistoryOnGet(s: Sel, op: Op, d: string)
    requires Inv(s) && CanApply(s, op) && op.Get?
    ensures Apply(s, op).limit == s.limit
    ensures var kept := Prune(HistoryOf(s, d), op.now - s.limit.duration);
            var history' := HistoryOf(Apply(s, op), d);
            if Claims(op, d) then history' == Prune(kept, op.now - s.limit.duration) + [op.now]
            else history' == kept || history' == HistoryOf(s, d)
  {
    hide Accounting, TotalWeight, Bearers, Rank, Prune;
  }

  lemma StepTracks(s: Sel, op: Op, d: string, log: seq<int>, last: int)
    requires Inv(s) && CanApply(s, op) && !op.Get? && !op.Configure? && !Forgets(s, op, d) && last <= After(op, last)
    requires Tracks(s, d, log, last)
    ensures Tracks(Apply(s, op), d, log, After(op, last)) && Apply(s, op).limit == s.limit
  {
    hide Inv, CanApply, Apply, Remembers;
    HistoryUntouched(s, op, d);
    RemembersLater(HistoryOf(s, d), log, last - s.limit.duration, After(op, last) - s.limit.duration);
    PruneRemembers(HistoryOf(s, d), log, last - s.limit.duration, After(op, last) - s.limit.duration);
  }

  lemma GetTracks(s: Sel, op: Op, d: string, log: seq<int>, last: int)
    requires Inv(s) && CanApply(s, op) && op.Get? && last <= op.now
    requires Tracks(s, d, log, last)
    ensures Tracks(Apply(s, op), d, log + ClaimTime(op, d), op.now) && Apply(s, op).limit == s.limit
  {
    hide Inv, CanApply, Apply, Remembers;
    HistoryOnGet(s, op, d);
    assert log + [] == log;
    var cutoff := op.now - s.limit.duration;
    var history := HistoryOf(s, d);
    RemembersLater(history, log, last - s.limit.duration, cutoff);
    PruneRemembers(history, log, last - s.limit.duration, cutoff);
    PruneIdempotent(history, cutoff);
    RecordRemembers(history, log, s.limit, last - s.limit.duration, op.now);
  }

  lemma RemembersLater(entries: seq<int>, log: seq<int>, cutoff: int, cutoff': int)
    requires Remembers(entries, log, cutoff) && cutoff <= cutoff'
    ensures Remembers(entries, log, cutoff')
  {
    var n :| KeptFrom(entries, log, cutoff, n);
    assert KeptFrom(entries, log, cutoff', n);
  }

  lemma PickedIsEligible(s: Sel, op: Op, d: string)
    requires Inv(s) && CanApply(s, op) && Claims(op, d)
    ensures d in s.devices && Eligible(s.devices[d], s.limit, op.now)
  {
    hide Accounting;
  }

  lemma PickedHasRoom(s: Sel, op: Op, d: string, log: seq<int>, last: int)
    requires Inv(s) && CanApply(s, op) && Claims(op, d) && last <= op.now && s.limit.enabled
    requires Tracks(s, d, log, last)
    ensures InWindow(log, s.limit, op.now) < s.limit.maxSelections
  {
    hide Inv, CanApply, Apply;
    PickedIsEligible(s, op, d);
    BelowMaxMeansFew(HistoryOf(s, d), log, s.limit, last - s.limit.duration, op.now);
  }

  /** Where a stretch stands: what the history tracks, and what the selections so far respect. */
  ghost predicate OnTrack(s: Sel, d: string, log: seq<int>, last: int) {
    Tracks(s, d, log, last) && WithinLimit(log, s.limit) && forall i :: 0 <= i < |log| ==> log[i] <= last
  }

  lemma StaysOnTrack(s: Sel, op: Op, d: string, log: seq<int>, last: int)
    requires Inv(s) && CanApply(s, op) && !op.Configure? && !Forgets(s, op, d) && last <= After(op, last)
    requires s.limit.enabled && OnTrack(s, d, log, last)
    ensures OnTrack(Apply(s, op), d, log + ClaimTime(op, d), After(op, last)) && Apply(s, op).limit == s.limit
  {
    hide Inv, CanApply, Apply, Tracks, WithinLimit;
    if op.Get? {
      GetTracks(s, op, d, log, last);
      if Claims(op, d) {
        PickedHasRoom(s, op, d, log, last);
        OneMoreWithinLimit(log, op.now, s.limit);
      } else {
        assert log + [] == log;
      }
    } else {
      assert log + [] == log;
      StepTracks(s, op, d, log, last);
    }
  }

  lemma {:induction false} LimitHoldsFrom(s: Sel, ops: seq<Op>, d: string, log: seq<int>, last: int)
    requires Inv(s) && CanRun(s, ops) && Ordered(last, ops) && Steady(s, ops, d)
    requires s.limit.enabled && OnTrack(s, d, log, last)
    ensures WithinLimit(log + ClaimTimes(ops, d), s.limit)
    decreases |ops|
  {
    hide Inv, CanApply, Apply, Tracks, WithinLimit;
    if ops == [] {
      assert log + ClaimTimes(ops, d) == log;
    } else {
      var op, rest := ops[0], ops[1..];
      StaysOnTrack(s, op, d, log, last);
      LimitHoldsFrom(Apply(s, op), rest, d, log + ClaimTime(op, d), After(op, last));
      assert log + ClaimTimes(ops, d) == log + ClaimTime(op, d) + ClaimTimes(rest, d);
    }
  }

  /**
   Main result: over any stretch of calls, from any state, in which the limit is enabled and unchanged and the
   device is not removed while a selection of it is within Duration, no window (t - Duration, t] sees more than
   MaxSelections selections of the device.
   */
  lemma RateLimit(s: Sel, ops: seq<Op>, d: string, from: int, t: int)
    requires Inv(s) && CanRun(s, ops) && Ordered(from, ops) && Steady(s, ops, d)
    requires s.limit.enabled && ValidLimit(s.limit)
    ensures InWindow(ClaimTimes(ops, d), s.limit, t) <= s.limit.maxSelections
  {
    hide Inv, CanRun, Steady, Ordered, OnTrack, ClaimTimes;
    StartsOnTrack(s, d, from);
    LimitHoldsFrom(s, ops, d, [], from);
    assert [] + ClaimTimes(ops, d) == ClaimTimes(ops, d);
  }

  lemma NothingToRemember(entries: seq<int>, cutoff: int)
    ensures Remembers(entries, [], cutoff)
  {
    assert entries[|entries|..] == [];
    assert KeptFrom(entries, [], cutoff, 0);
  }

  lemma NothingWithinLimit(limit: Limit)
    requires limit.maxSelections >= 0
    ensures WithinLimit([], limit)
  {
    forall t ensures InWindow([], limit, t) <= limit.maxSelections {
      assert Between([], t - limit.duration, t) == [];
    }
  }

  lemma StartsOnTrack(s: Sel, d: string, from: int)
    requires ValidLimit(s.limit) && s.limit.enabled
    ensures OnTrack(s, d, [], from)
  {
    hide Remembers, WithinLimit, HistoryOf;
    NothingToRemember(HistoryOf(s, d), from - s.limit.duration);
    NothingWithinLimit(s.limit);
  }

  // ------------------------------------------------------------ the history is the recent log

  /** The clock at the end of a stretch that began at `from`. */
  function LastOf(ops: seq<Op>, from: int): int
    decreases |ops|
  {
    if ops == [] then from else LastOf(ops[1..], After(ops[0], from))
  }

  predicate InOrder(log: seq<int>, last: int) {
    Sorted(log) && forall i :: 0 <= i < |log| ==> log[i] <= last
  }

  predicate EndOf(s: Sel, d: string, log: seq<int>) {
    EndsWith(log, HistoryOf(s, d))
  }

  /** The device's history is the end of the log, and complete as far as it can still matter. */
  ghost predicate Mirrors(s: Sel, d: string, log: seq<int>, last: int) {
    Tracks(s, d, log, last) && InOrder(log, last) && EndOf(s, d, log)
  }

  lemma OrderContinues(op: Op, d: string, log: seq<int>, last: int)
    requires InOrder(log, last) && last <= After(op, last)
    ensures InOrder(log + ClaimTime(op, d), After(op, last))
  {
  }

  lemma SuffixRecorded(entries: seq<int>, log: seq<int>, now: int)
    requires EndsWith(log, entries)
    ensures EndsWith(log + [now], entries + [now])
  {
    assert (log + [now])[|log| - |entries|..] == log[|log| - |entries|..] + [now];
  }

  lemma SuffixAfter(s: Sel, op: Op, d: string, log: seq<int>)
    requires Inv(s) && CanApply(s, op) && !op.Configure?
    requires EndOf(s, d, log)
    ensures EndOf(Apply(s, op), d, log + ClaimTime(op, d))
  {
    hide Inv, CanApply, Apply, EndsWith, Prune, HistoryOf;
    assert log + [] == log;
    if op.Get? {
      HistoryOnGet(s, op, d);
      var cutoff := op.now - s.limit.duration;
      var kept := Prune(HistoryOf(s, d), cutoff);
      SuffixPruned(HistoryOf(s, d), log, cutoff);
      SuffixPruned(kept, log, cutoff);
      SuffixRecorded(Prune(kept, cutoff), log, op.now);
    } else {
      HistoryUntouched(s, op, d);
      SuffixEmpty(log);
    }
  }

  lemma SuffixEmpty(log: seq<int>)
    ensures EndsWith(log, [])
  {
  }

  lemma StaysMirrored(s: Sel, op: Op, d: string, log: seq<int>, last: int)
    requires Inv(s) && CanApply(s, op) && !op.Configure? && !Forgets(s, op, d) && last <= After(op, last)
    requires Mirrors(s, d, log, last)
    ensures Mirrors(Apply(s, op), d, log + ClaimTime(op, d), After(op, last)) && Apply(s, op).limit == s.limit
  {
    hide Inv, CanApply, Apply, Tracks, InOrder, EndOf;
    SuffixAfter(s, op, d, log);
    OrderContinues(op, d, log, last);
    assert log + [] == log;
    if op.Get? {
      GetTracks(s, op, d, log, last);
    } else {
      StepTracks(s, op, d, log, last);
    }
  }

  lemma {:induction false} MirrorsFrom(s: Sel, ops: seq<Op>, d: string, log: seq<int>, last: int)
    requires Inv(s) && CanRun(s, ops) && Ordered(last, ops) && Steady(s, ops, d) && Mirrors(s, d, log, last)
    ensures Mirrors(Run(s, ops), d, log + ClaimTimes(ops, d), LastOf(ops, last)) && Run(s, ops).limit == s.limit
    decreases |ops|
  {
    hide Inv, CanApply, Apply, Mirrors;
    if ops == [] {
      assert log + ClaimTimes(ops, d) == log;
    } else {
      var op, rest := ops[0], ops[1..];
      StaysMirrored(s, op, d, log, last);
      MirrorsFrom(Apply(s, op), rest, d, log + ClaimTime(op, d), After(op, last));
      assert log + ClaimTimes(ops, d) == log + ClaimTime(op, d) + ClaimTimes(rest, d);
    }
  }

  /**
   Over any run from an empty selector that does not change the limit or remove the device, the device's history,
   pruned at any later time, is the log of its selections filtered to the window before that time.
  */
  lemma HistoryIsTheRecentLog(s: Sel, ops: seq<Op>, d: string, from: int, now: int)
    requires Inv(s) && s.devices == map[] && CanRun(s, ops) && Ordered(from, ops) && Steady(s, ops, d)
    requires LastOf(ops, from) <= now
    ensures Prune(HistoryOf(Run(s, ops), d), now - s.limit.duration)
         == Between(ClaimTimes(ops, d), now - s.limit.duration, now)
  {
    hide Inv, CanRun, Run, Steady, Ordered, ClaimTimes, Prune, Between;
    assert KeptFrom([], [], from - s.limit.duration, 0);
    assert Mirrors(s, d, [], from);
    MirrorsFrom(s, ops, d, [], from);
    hide Mirrors, HistoryOf;
    assert [] + ClaimTimes(ops, d) == ClaimTimes(ops, d);
    WhatMirrorsMeans(Run(s, ops), d, ClaimTimes(ops, d), LastOf(ops, from), now);
  }

  lemma WhatMirrorsMeans(s: Sel, d: string, log: seq<int>, last: int, now: int)
    requires Mirrors(s, d, log, last) && last <= now
    ensures Prune(HistoryOf(s, d), now - s.limit.duration) == Between(log, now - s.limit.duration, now)
  {
    TailIsFilter(HistoryOf(s, d), log, last - s.limit.duration, now - s.limit.duration, now);
  }

  // ------------------------------------------------------------ exactly when a removal breaks the limit

  /** A continuation from time `from` without another removal of the device, or a change of the limit. */
  ghost predicate Continues(s: Sel, ops: seq<Op>, d: string, from: int)
    requires Inv(s)
  {
    CanRun(s, ops) && Ordered(from, ops) && forall i :: 0 <= i < |ops| ==> KeepsOn(ops[i], d)
  }

  predicate KeepsOn(op: Op, d: string) {
    !op.Configure? && !(op.RemoveDead? && op.d == d)
  }

  lemma {:induction false} ContinuesSteadily(s: Sel, ops: seq<Op>, d: string)
    requires Inv(s) && CanRun(s, ops) && forall i :: 0 <= i < |ops| ==> KeepsOn(ops[i], d)
    ensures Steady(s, ops, d)
    decreases |ops|
  {
    hide Inv, CanApply, Apply;
    if ops != [] {
      var rest := ops[1..];
      assert KeepsOn(ops[0], d);
      forall i | 0 <= i < |rest| ensures KeepsOn(rest[i], d) {
        assert rest[i] == ops[i + 1];
      }
      ContinuesSteadily(Apply(s, ops[0]), rest, d);
    }
  }

  /** Device d alone can be selected, if any, and has been selected k times, all at `now`. */
  predicate OnlyOn(s: Sel, d: string, k: nat, now: int) {
    && HistoryOf(s, d) == seq(k, _ => now)
    && (forall e :: e in s.devices ==> s.devices[e].enabled == (e == d))
  }

  lemma AnnounceOnly(s: Sel, w: Worker, k: nat, now: int)
    requires Inv(s) && w.Worker? && OnlyOn(s, w.deviceID, k, now)
    ensures CanApply(s, SetAvailable(w)) && OnlyOn(Apply(s, SetAvailable(w)), w.deviceID, k, now)
    ensures var s' := Apply(s, SetAvailable(w));
            s'.limit == s.limit && w.deviceID in s'.devices && s'.devices[w.deviceID].queue != []
  {
    hide Accounting, Release;
    ShapedIfAccounted(s, w.deviceID);
    ReleaseKeepsFlags(DevOrNew(s, w.deviceID), w.id);
  }

  lemma ReleaseKeepsFlags(d: Dev, id: string)
    requires Shaped(d)
    ensures id in d.seen ==> Release(d, id).enabled == d.enabled && Release(d, id).history == d.history
  {
  }

  lemma {:induction false} PruneNone(k: nat, now: int, cutoff: int)
    requires cutoff < now
    ensures Prune(seq(k, _ => now), cutoff) == seq(k, _ => now)
  {
  }

  lemma SelectOnly(s: Sel, d: string, k: nat, now: int)
    requires Inv(s) && OnlyOn(s, d, k, now) && d in s.devices && s.devices[d].queue != []
    requires ValidLimit(s.limit) && s.limit.enabled && k < s.limit.maxSelections
    ensures var get := Get(DEFAULT_WEIGHT, now, Some(d));
            CanApply(s, get) && OnlyOn(Apply(s, get), d, k + 1, now) && Apply(s, get).limit == s.limit
  {
    hide Inv, CanApply, Apply, Prune;
    var get := Get(DEFAULT_WEIGHT, now, Some(d));
    OnlyCandidate(s, d, k, now);
    HistoryOnGet(s, get, d);
    PruneNone(k, now, now - s.limit.duration);
    assert seq(k, _ => now) + [now] == seq(k + 1, _ => now);
    GetKeepsFlags(s, get);
  }

  lemma OnlyCandidate(s: Sel, d: string, k: nat, now: int)
    requires Inv(s) && OnlyOn(s, d, k, now) && d in s.devices && s.devices[d].queue != []
    requires ValidLimit(s.limit) && s.limit.enabled && k < s.limit.maxSelections
    ensures CanApply(s, Get(DEFAULT_WEIGHT, now, Some(d)))
  {
    PruneNone(k, now, now - s.limit.duration);
    WeightWithinCapacity(s.devices[d]);
    hide Accounting, Inv, Rank;
  }

  lemma GetKeepsFlags(s: Sel, op: Op)
    requires Inv(s) && CanApply(s, op) && op.Get?
    ensures var s' := Apply(s, op);
            && s'.devices.Keys == s.devices.Keys
            && forall e :: e in s.devices ==> s'.devices[e].enabled == s.devices[e].enabled
  {
    hide Accounting, Rank, Prune;
  }

  /** One more call at the front of a continuation. */
  lemma OneMoreContinues(s: Sel, op: Op, s': Sel, rest: seq<Op>, d: string, now: int) returns (ops: seq<Op>)
    requires Inv(s) && CanApply(s, op) && Apply(s, op) == s' && Inv(s') && Continues(s', rest, d, now)
    requires KeepsOn(op, d) && After(op, now) == now
    ensures Continues(s, ops, d, now) && ClaimTimes(ops, d) == ClaimTime(op, d) + ClaimTimes(rest, d)
  {
    hide Inv, CanApply, Apply, CanRun, Ordered, ClaimTimes;
    ops := RunOne(s, op, s', rest);
    forall i | 0 <= i < |ops| ensures KeepsOn(ops[i], d) {
      assert i > 0 ==> ops[i] == rest[i - 1];
    }
  }

  /** One worker announced and selected once more. */
  lemma SelectAgain(s: Sel, d: string, k: nat, now: int) returns (announce: Op, get: Op, s1: Sel, s2: Sel)
    requires Inv(s) && ValidLimit(s.limit) && s.limit.enabled && k < s.limit.maxSelections && OnlyOn(s, d, k, now)
    ensures announce.SetAvailable? && get == Get(DEFAULT_WEIGHT, now, Some(d))
    ensures CanApply(s, announce) && s1 == Apply(s, announce) && CanApply(s1, get) && s2 == Apply(s1, get)
    ensures s2.limit == s.limit && OnlyOn(s2, d, k + 1, now)
  {
    hide Inv, CanApply, Apply, OnlyOn;
    announce, get := SetAvailable(Worker(0, d, "w")), Get(DEFAULT_WEIGHT, now, Some(d));
    AnnounceOnly(s, announce.w, k, now);
    s1 := Apply(s, announce);
    SelectOnly(s1, d, k, now);
    s2 := Apply(s1, get);
  }

  /** Rounds of announcing one worker and selecting it, all at one time, until the limit refuses. */
  lemma {:induction false} SelectTillFull(s: Sel, d: string, k: nat, now: int) returns (ops: seq<Op>)
    requires Inv(s) && ValidLimit(s.limit) && s.limit.enabled && k <= s.limit.maxSelections && OnlyOn(s, d, k, now)
    ensures Continues(s, ops, d, now) && ClaimTimes(ops, d) == seq(s.limit.maxSelections - k, _ => now)
    decreases s.limit.maxSelections - k
  {
    hide Inv, CanApply, Apply, OnlyOn, Continues, ClaimTimes;
    if k == s.limit.maxSelections {
      ops := [];
      NothingContinues(s, d, now);
    } else {
      var announce, get, s1, s2 := SelectAgain(s, d, k, now);
      var rest := SelectTillFull(s2, d, k + 1, now);
      var more := OneMoreContinues(s1, get, s2, rest, d, now);
      ops := OneMoreContinues(s, announce, s1, more, d, now);
      assert ClaimTimes(ops, d) == [] + ([now] + seq(s.limit.maxSelections - k - 1, _ => now));
    }
  }

  lemma NothingContinues(s: Sel, d: string, now: int)
    requires Inv(s)
    ensures Continues(s, [], d, now) && ClaimTimes([], d) == []
  {
  }

  lemma DisableOne(s: Sel, e: string, now: int)
    requires Inv(s)
    ensures CanApply(s, DisableDevice(e))
    ensures var s' := Apply(s, DisableDevice(e));
            && s'.limit == s.limit && s'.devices.Keys == s.devices.Keys + {e} && !s'.devices[e].enabled
            && (forall d :: d in s.devices && d != e ==> s'.devices[d] == s.devices[d])
  {
    hide Accounting;
  }

  /** Every other device can be switched off first. */
  lemma {:induction false} FillAfterRemoval(s: Sel, others: set<string>, d: string, now: int) returns (ops: seq<Op>)
    requires Inv(s) && ValidLimit(s.limit) && s.limit.enabled && d !in s.devices && others <= s.devices.Keys
    requires forall e :: e in s.devices && e !in others ==> !s.devices[e].enabled
    ensures Continues(s, ops, d, now) && ClaimTimes(ops, d) == seq(s.limit.maxSelections, _ => now)
    decreases |others|
  {
    hide Inv, CanApply, Apply, Continues, ClaimTimes;
    if others == {} {
      ops := SelectTillFull(s, d, 0, now);
    } else {
      var e :| e in others;
      DisableOne(s, e, now);
      var s' := Apply(s, DisableDevice(e));
      var rest := FillAfterRemoval(s', others - {e}, d, now);
      ops := OneMoreContinues(s, DisableDevice(e), s', rest, d, now);
      assert ClaimTimes(ops, d) == [] + ClaimTimes(rest, d);
    }
  }

  lemma {:induction false} BetweenFull(log: seq<int>, k: nat, from: int, now: int)
    requires Between(log, from, now) != [] && from < now
    ensures |Between(log + seq(k, _ => now), from, now)| > k
  {
    BetweenOfConcat(log, seq(k, _ => now), from, now);
    BetweenAll(seq(k, _ => now), from, now);
  }

  /** Every continuation keeps the limit. */
  ghost predicate SafeFrom(s: Sel, d: string, log: seq<int>, now: int)
    requires Inv(s)
  {
    forall ops :: Continues(s, ops, d, now) ==> WithinLimit(log + ClaimTimes(ops, d), s.limit)
  }

  lemma ForgottenIsUnsafe(s: Sel, op: Op, d: string, log: seq<int>, last: int)
    requires Inv(s) && CanApply(s, op) && Forgets(s, op, d) && last <= op.now
    requires s.limit.enabled && ValidLimit(s.limit) && Mirrors(s, d, log, last)
    ensures !SafeFrom(Apply(s, op), d, log, op.now)
  {
    var now, s' := op.now, Apply(s, op);
    RemovedIsUnknown(s, op, d);
    WhatMirrorsMeans(s, d, log, last, now);
    hide Inv, CanApply, Apply, Mirrors, Continues, ClaimTimes, Prune, Between;
    var ops := FillAfterRemoval(s', s'.devices.Keys, d, now);
    TooMany(log, s.limit, now);
  }

  lemma RemovedIsUnknown(s: Sel, op: Op, d: string)
    requires Inv(s) && CanApply(s, op) && Removes(s, op, d)
    ensures d !in Apply(s, op).devices && Apply(s, op).limit == s.limit
  {
    hide Inv, HasAssigned;
  }

  /** One selection in the window, and MaxSelections more. */
  lemma TooMany(log: seq<int>, limit: Limit, now: int)
    requires limit.enabled && ValidLimit(limit) && Between(log, now - limit.duration, now) != []
    ensures !WithinLimit(log + seq(limit.maxSelections, _ => now), limit)
  {
    var all := log + seq(limit.maxSelections, _ => now);
    BetweenFull(log, limit.maxSelections, now - limit.duration, now);
    assert InWindow(all, limit, now) > limit.maxSelections;
  }

  lemma ExpiredIsSafe(s: Sel, op: Op, d: string, log: seq<int>, last: int)
    requires Inv(s) && CanApply(s, op) && Removes(s, op, d) && !Forgets(s, op, d) && last <= op.now
    requires s.limit.enabled && OnTrack(s, d, log, last)
    ensures SafeFrom(Apply(s, op), d, log, op.now)
  {
    StaysOnTrack(s, op, d, log, last);
    hide Inv, CanApply, Apply, OnTrack, CanRun, WithinLimit;
    assert log + [] == log;
    var s' := Apply(s, op);
    forall ops | Continues(s', ops, d, op.now) ensures WithinLimit(log + ClaimTimes(ops, d), s'.limit) {
      ContinuesSteadily(s', ops, d);
      LimitHoldsFrom(s', ops, d, log, op.now);
    }
  }

  /**
   The exact condition.  In any state whose history mirrors a log that respects the limit, a removal leaves every
   continuation within the limit if and only if the history, pruned at the time of the removal, is empty.
  */
  lemma RemovalIsExact(s: Sel, op: Op, d: string, log: seq<int>, last: int)
    requires Inv(s) && CanApply(s, op) && Removes(s, op, d) && last <= op.now
    requires s.limit.enabled && ValidLimit(s.limit) && Mirrors(s, d, log, last) && WithinLimit(log, s.limit)
    ensures SafeFrom(Apply(s, op), d, log, op.now) <==> Prune(HistoryOf(s, d), op.now - s.limit.duration) == []
  {
    hide Inv, CanApply, Apply, SafeFrom, WithinLimit, Tracks;
    if Forgets(s, op, d) {
      ForgottenIsUnsafe(s, op, d, log, last);
    } else {
      ExpiredIsSafe(s, op, d, log, last);
    }
  }

  /** A worker announced to an empty selector, and claimed. */
  lemma AnnounceAndClaim(limit: Limit, w: Worker, now: int) returns (s1: Sel, s2: Sel)
    requires limit == Limit(true, 1, 100) && w.Worker?
    ensures var s0 := Sel(map[], limit);
            var get := Get(5, now, Some(w.deviceID));
            && Inv(s0) && CanApply(s0, SetAvailable(w)) && s1 == Apply(s0, SetAvailable(w))
            && CanApply(s1, get) && s2 == Apply(s1, get)
            && Inv(s2) && s2.limit == limit && s2.devices.Keys == {w.deviceID}
            && s2.devices[w.deviceID].seen == map[w.id := Slot(w, 5, None)]
  {
    hide Accounting, Rank;
    var s0 := Sel(map[], limit);
    s1 := Apply(s0, SetAvailable(w));
    WorkerAvailableKeepsInv(s0, w);
    assert s1.devices.Keys == {w.deviceID};
    var get := Get(5, now, Some(w.deviceID));
    assert CanApply(s1, get);
    s2 := Apply(s1, get);
  }

  lemma LeaveAndRemove(s: Sel, w: Worker, now: int) returns (s': Sel)
    requires Inv(s) && w.Worker? && s.devices.Keys == {w.deviceID}
    requires s.devices[w.deviceID].seen == map[w.id := Slot(w, 5, None)]
    ensures CanApply(s, SetUnavailable(w, now))
    ensures s' == Apply(s, SetUnavailable(w, now)) && CanApply(s', RemoveDead(w.deviceID, now))
    ensures Apply(s', RemoveDead(w.deviceID, now)) == Sel(map[], s.limit)
  {
    hide Inv, Depart;
    ShapedIfAccounted(s, w.deviceID);
    DepartOnly(s.devices[w.deviceID], w, now);
    s' := Apply(s, SetUnavailable(w, now));
    assert s'.devices.Keys == {w.deviceID};
    assert Apply(s', RemoveDead(w.deviceID, now)).devices == map[];
  }

  lemma DepartOnly(d: Dev, w: Worker, now: int)
    requires Shaped(d) && w.Worker? && d.seen == map[w.id := Slot(w, 5, None)]
    ensures !HasAssigned(Depart(d, w, now))
  {
    assert Depart(d, w, now).seen == map[w.id := Slot(w, 0, Some(now))];
  }

  lemma RunOne(s: Sel, op: Op, s': Sel, rest: seq<Op>) returns (ops: seq<Op>)
    requires Inv(s) && CanApply(s, op) && Apply(s, op) == s' && Inv(s') && CanRun(s', rest)
    ensures ops == [op] + rest && CanRun(s, ops)
    ensures forall d :: ClaimTimes(ops, d) == ClaimTime(op, d) + ClaimTimes(rest, d)
    ensures forall from :: Ordered(After(op, from), rest) && from <= After(op, from) ==> Ordered(from, ops)
  {
    hide Inv, Apply;
    ops := [op] + rest;
    assert ops[1..] == rest;
  }

  lemma TwoInWindow(limit: Limit)
    requires limit == Limit(true, 1, 100)
    ensures InWindow([1, 2], limit, 2) == 2
  {
    assert [1, 2][..1] == [1] && [1][..0] == [];
    assert Between([1, 2], -98, 2) == [1, 2];
  }

  /** The run: a worker joins, is claimed and leaves, the device is removed, and the same happens again. */
  lemma ClaimRemoveClaim(limit: Limit) returns (ops: seq<Op>)
    requires limit == Limit(true, 1, 100)
    ensures CanRun(Sel(map[], limit), ops) && ClaimTimes(ops, "d") == [1, 2] && Ordered(0, ops)
    ensures forall i :: 0 <= i < |ops| ==> !ops[i].Configure?
  {
    hide Inv, CanApply, Apply, CanRun;
    var s0 := Sel(map[], limit);
    var w, w' := Worker(0, "d", "w"), Worker(1, "d", "w");
    var s1, s2 := AnnounceAndClaim(limit, w, 1);
    var s3 := LeaveAndRemove(s2, w, 1);
    var s5, s6 := AnnounceAndClaim(limit, w', 2);
    EmptyRun(s6);
    var rest5 := RunOne(s5, Get(5, 2, Some("d")), s6, []);
    var rest4 := RunOne(s0, SetAvailable(w'), s5, rest5);
    var rest3 := RunOne(s3, RemoveDead("d", 1), s0, rest4);
    var rest2 := RunOne(s2, SetUnavailable(w, 1), s3, rest3);
    var rest1 := RunOne(s1, Get(5, 1, Some("d")), s2, rest2);
    ops := RunOne(s0, SetAvailable(w), s1, rest1);
  }

  lemma EmptyRun(s: Sel)
    requires Inv(s)
    ensures CanRun(s, [])
  {
  }

  /**
   Removal matters: a device removed and announced again starts with an empty history, whatever it served just
   before.
  */
  lemma RemovalForgetsTheLimit()
    ensures exists s: Sel, ops: seq<Op>, d: string, t: int ::
      && Inv(s) && CanRun(s, ops) && Ordered(0, ops) && s.limit.enabled && ValidLimit(s.limit)
      && (forall i :: 0 <= i < |ops| ==> !ops[i].Configure?)
      && InWindow(ClaimTimes(ops, d), s.limit, t) > s.limit.maxSelections
  {
    var limit := Limit(true, 1, 100);
    var ops := ClaimRemoveClaim(limit);
    TwoInWindow(limit);
    var s := Sel(map[], limit);
    assert Inv(s);
    hide Inv, CanRun, Ordered, ClaimTimes;
    assert InWindow(ClaimTimes(ops, "d"), s.limit, 2) > s.limit.maxSelections;
  }

  // ------------------------------------------------------------ bounded bypass

  /** The connections handed out on device d, in order. */
  ghost function Handed(s: Sel, ops: seq<Op>, d: string): seq<Worker>
    requires Inv(s) && CanRun(s, ops)
    decreases |ops|
  {
    if ops == [] then []
    else (if Claims(ops[0], d) then [Handout(s, ops[0].pick)] else []) + Handed(Apply(s, ops[0]), ops[1..], d)
  }

  /**
   The call neither announces the connection's ids again, nor reports this very connection gone, nor removes its device.
   The late close of a connection it replaced, and a removal the selector refuses, are none of these.
  */
  predicate Spares(s: Sel, op: Op, c: Worker)
    requires c.Worker?
  {
    match op
    case SetAvailable(w) => w.Worker? ==> !(w.deviceID == c.deviceID && w.id == c.id)
    case SetUnavailable(w, _) => w != c
    case RemoveDead(_, _) => !Removes(s, op, c.deviceID)
    case _ => true
  }

  ghost predicate LeftAlone(s: Sel, ops: seq<Op>, c: Worker)
    requires Inv(s) && CanRun(s, ops) && c.Worker?
    decreases |ops|
  {
    ops != [] ==> Spares(s, ops[0], c) && LeftAlone(Apply(s, ops[0]), ops[1..], c)
  }

  /** The connection is queued, with i others before it. */
  predicate QueuedAt(s: Sel, c: Worker, i: int) {
    && c.Worker? && c.deviceID in s.devices
    && 0 <= i < |s.devices[c.deviceID].queue| && s.devices[c.deviceID].queue[i] == c.id
    && c.id in s.devices[c.deviceID].seen && s.devices[c.deviceID].seen[c.id].conn == c
  }

  ghost predicate QueuedBy(s: Sel, c: Worker, bound: int) {
    exists i :: 0 <= i <= bound && QueuedAt(s, c, i)
  }

  lemma {:induction false} WithoutMovesUp(q: seq<string>, x: string, i: nat) returns (j: nat)
    requires i < |q| && q[i] != x
    ensures j <= i && j < |Without(q, x)| && Without(q, x)[j] == q[i]
  {
    if q[0] == x {
      j := i - 1;
    } else if i == 0 {
      j := 0;
    } else {
      var k := WithoutMovesUp(q[1..], x, i - 1);
      j := k + 1;
    }
  }

  lemma ReleaseMovesUp(d: Dev, other: string, i: nat) returns (j: nat)
    requires Shaped(d) && other in d.seen && i < |d.queue| && d.queue[i] != other && d.queue[i] in d.seen
    ensures j <= i && j < |Release(d, other).queue| && Release(d, other).queue[j] == d.queue[i]
    ensures d.queue[i] in Release(d, other).seen && Release(d, other).seen[d.queue[i]] == d.seen[d.queue[i]]
  {
    j := i;
    if d.seen[other].weight == 0 {
      j := WithoutMovesUp(d.queue, other, i);
    }
  }

  lemma AnnounceMovesUp(s: Sel, op: Op, c: Worker, i: nat)
    requires Inv(s) && CanApply(s, op) && op.SetAvailable? && c.Worker? && Spares(s, op, c) && QueuedAt(s, c, i)
    ensures QueuedBy(Apply(s, op), c, i)
  {
    hide Accounting, Release;
    ShapedIfAccounted(s, c.deviceID);
    var dev, j: nat := s.devices[c.deviceID], i;
    if op.w.Worker? && op.w.deviceID == c.deviceID && op.w.id in dev.seen {
      j := ReleaseMovesUp(dev, op.w.id, i);
    }
    assert QueuedAt(Apply(s, op), c, j);
  }

  /** A departure under the same ids is of a connection replaced, and ignored; another's makes room. */
  lemma DepartMovesUp(s: Sel, op: Op, c: Worker, i: nat)
    requires Inv(s) && CanApply(s, op) && op.SetUnavailable? && c.Worker? && Spares(s, op, c) && QueuedAt(s, c, i)
    ensures QueuedBy(Apply(s, op), c, i)
  {
    hide Accounting, Release;
    ShapedIfAccounted(s, c.deviceID);
    var w, dev, j: nat := op.w, s.devices[c.deviceID], i;
    if w.Worker? && w.deviceID == c.deviceID && w.id in dev.seen && dev.seen[w.id].conn == w {
      j := ReleaseMovesUp(dev.(seen := dev.seen[w.id := dev.seen[w.id].(goneAt := Some(op.now))]), w.id, i);
    }
    assert QueuedAt(Apply(s, op), c, j);
  }

  /** The other calls leave the device's queue and the connection's slot in place. */
  lemma OthersLeaveQueued(s: Sel, op: Op, c: Worker, i: nat)
    requires Inv(s) && CanApply(s, op) && !op.SetAvailable? && !op.SetUnavailable? && !op.Get?
    requires c.Worker? && Spares(s, op, c) && QueuedAt(s, c, i)
    ensures QueuedAt(Apply(s, op), c, i)
  {
    var dev := s.devices[c.deviceID];
    assert dev.queue[i] in dev.queue && SlotOk(dev, c.id);
    hide Accounting, Distinct, HasAssigned;
  }

  lemma SelectionLeavesQueued(s: Sel, op: Op, c: Worker, i: nat)
    requires Inv(s) && CanApply(s, op) && op.Get? && c.Worker? && !Claims(op, c.deviceID) && QueuedAt(s, c, i)
    ensures QueuedAt(Apply(s, op), c, i)
  {
    hide Accounting, Rank, Prune, Claim, AtMax;
  }

  lemma QueuedMovesUp(s: Sel, op: Op, c: Worker, i: nat)
    requires Inv(s) && CanApply(s, op) && c.Worker? && Spares(s, op, c) && !Claims(op, c.deviceID) && QueuedAt(s, c, i)
    ensures QueuedBy(Apply(s, op), c, i)
  {
    hide Inv, CanApply, Apply, Spares, QueuedAt;
    if op.SetAvailable? {
      AnnounceMovesUp(s, op, c, i);
    } else if op.SetUnavailable? {
      DepartMovesUp(s, op, c, i);
    } else if op.Get? {
      SelectionLeavesQueued(s, op, c, i);
    } else {
      OthersLeaveQueued(s, op, c, i);
    }
  }

  lemma ClaimPops(s: Sel, op: Op, c: Worker, i: nat)
    requires Inv(s) && CanApply(s, op) && c.Worker? && Claims(op, c.deviceID) && QueuedAt(s, c, i)
    ensures i == 0 ==> Handout(s, op.pick) == c
    ensures i > 0 ==> QueuedAt(Apply(s, op), c, i - 1)
  {
    var dev := s.devices[c.deviceID];
    QueueIsSeen(dev);
    assert i > 0 ==> dev.queue[0] != dev.queue[i];
    hide Accounting, Rank, Prune, Recorded;
  }

  lemma {:induction false} BypassFrom(s: Sel, ops: seq<Op>, c: Worker, i: nat)
    requires Inv(s) && CanRun(s, ops) && c.Worker? && LeftAlone(s, ops, c) && QueuedAt(s, c, i)
    ensures var handed := Handed(s, ops, c.deviceID);
            if |handed| > i then c in handed[..i + 1]
            else c in handed || QueuedBy(Run(s, ops), c, i - |handed|)
    decreases |ops|
  {
    hide Inv, CanApply, Apply, Spares, QueuedAt;
    if ops != [] {
      var op, d := ops[0], c.deviceID;
      var s', rest := Apply(s, op), ops[1..];
      var handed, later := Handed(s, ops, d), Handed(s', rest, d);
      if Claims(op, d) {
        assert handed == [Handout(s, op.pick)] + later;
        ClaimPops(s, op, c, i);
        if i == 0 {
          assert handed[0] == c;
        } else {
          BypassFrom(s', rest, c, i - 1);
          assert |later| > i - 1 ==> handed[..i + 1] == [handed[0]] + later[..i];
        }
      } else {
        assert handed == later;
        QueuedMovesUp(s, op, c, i);
        var j :| 0 <= j <= i && QueuedAt(s', c, j);
        BypassFrom(s', rest, c, j);
        SoonerIsEnough(later, c, j, i);
      }
    }
  }

  lemma SoonerIsEnough(handed: seq<Worker>, c: Worker, j: nat, i: nat)
    requires j <= i
    ensures |handed| > j && c in handed[..j + 1] ==> c in handed && (|handed| > i ==> c in handed[..i + 1])
  {
    if |handed| > j && c in handed[..j + 1] {
      var k :| 0 <= k < j + 1 && handed[..j + 1][k] == c;
      assert handed[k] == c;
      assert |handed| > i ==> handed[..i + 1][k] == c;
    }
  }

  /**
   Bounded bypass: a connection queued behind i others and left alone is handed out by the (i+1)-th later claim on
   its device, whoever else joins, leaves, is released or forgotten meanwhile, the connection it replaced included;
   until then it is still queued, and no further back.
   */
  lemma BoundedBypass(s: Sel, ops: seq<Op>, c: Worker, i: nat)
    requires Inv(s) && CanRun(s, ops) && c.Worker? && LeftAlone(s, ops, c) && QueuedAt(s, c, i)
    ensures var handed := Handed(s, ops, c.deviceID);
            && (|handed| > i ==> c in handed[..i + 1])
            && (c !in handed ==> |handed| <= i && QueuedBy(Run(s, ops), c, i - |handed|))
  {
    BypassFrom(s, ops, c, i);
    var handed := Handed(s, ops, c.deviceID);
    if |handed| > i {
      assert forall x :: x in handed[..i + 1] ==> x in handed;
    }
  }
}
