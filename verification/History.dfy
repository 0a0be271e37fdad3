/**
 The sliding-window selection limiter of libs/selector/history.go.  The settings container
 becomes a parameter; times are integers (nanoseconds).
*/
module History {

  datatype Limit = Limit(enabled: bool, maxSelections: int, duration: int)

  /** The settings PutSettings lets through. */
  predicate ValidLimit(cfg: Limit) {
    cfg.enabled ==> cfg.maxSelections > 0 && cfg.duration > 0
  }

  /** Drops entries up to the first one after the cutoff. */
  function Prune(entries: seq<int>, cutoff: int): seq<int> {
    if entries == [] || entries[0] > cutoff then entries else Prune(entries[1..], cutoff)
  }

  lemma {:induction false} PruneIsTail(entries: seq<int>, cutoff: int)
    ensures var kept := Prune(entries, cutoff);
            && |kept| <= |entries| && kept == entries[|entries| - |kept|..]
            && (forall i :: 0 <= i < |entries| - |kept| ==> entries[i] <= cutoff)
  {
    if entries != [] && entries[0] <= cutoff {
      PruneIsTail(entries[1..], cutoff);
    }
  }

  function Recorded(entries: seq<int>, cfg: Limit, now: int): seq<int> {
    Prune(entries, now - cfg.duration) + [now]
  }

  predicate AtMax(entries: seq<int>, cfg: Limit, now: int) {
    cfg.enabled && |Prune(entries, now - cfg.duration)| >= cfg.maxSelections
  }

  class SelectionHistory {
    var history: seq<int>

    constructor ()
      ensures history == []
    {
      history := [];
    }

    method PruneTo(cfg: Limit, now: int)
      modifies this
      ensures history == Prune(old(history), now - cfg.duration)
    {
      var entries := history;
      if |entries| == 0 {
        return;
      }
      var cutoff := now - cfg.duration;
      for idx := 0 to |entries|
        invariant history == entries == old(history)
        invariant Prune(entries, cutoff) == Prune(entries[idx..], cutoff)
      {
        if entries[idx] > cutoff {
          history := entries[idx..];
          return;
        }
        assert entries[idx..][1..] == entries[idx + 1..];
      }
      history := entries[..0];
    }

    method Record(cfg: Limit, now: int)
      modifies this
      ensures history == Recorded(old(history), cfg, now)
    {
      PruneTo(cfg, now);
      history := history + [now];
    }

    method IsAtMaxSelections(cfg: Limit, now: int) returns (max: bool)
      modifies this
      ensures history == Prune(old(history), now - cfg.duration)
      ensures max == AtMax(old(history), cfg, now)
      ensures max <==> cfg.enabled && |history| >= cfg.maxSelections
    {
      PruneTo(cfg, now);
      if cfg.enabled {
        return |history| >= cfg.maxSelections;
      }
      return false;
    }
  }

  // ------------------------------------------------------------ the log behind the history

  predicate Sorted(ts: seq<int>) {
    forall i, j :: 0 <= i < j < |ts| ==> ts[i] <= ts[j]
  }

  /** The times in (from, to]. */
  function Between(ts: seq<int>, from: int, to: int): seq<int> {
    if ts == [] then []
    else
      var before := Between(ts[..|ts| - 1], from, to);
      if from < ts[|ts| - 1] <= to then before + [ts[|ts| - 1]] else before
  }

  lemma {:induction false} BetweenOfConcat(a: seq<int>, b: seq<int>, from: int, to: int)
    ensures Between(a + b, from, to) == Between(a, from, to) + Between(b, from, to)
  {
    if b == [] {
      assert a + b == a;
    } else {
      assert (a + b)[..|a + b| - 1] == a + b[..|b| - 1];
      BetweenOfConcat(a, b[..|b| - 1], from, to);
    }
  }

  lemma {:induction false} BetweenAll(ts: seq<int>, from: int, to: int)
    requires forall i :: 0 <= i < |ts| ==> from < ts[i] <= to
    ensures Between(ts, from, to) == ts
  {
    if ts != [] {
      BetweenAll(ts[..|ts| - 1], from, to);
      assert ts == ts[..|ts| - 1] + [ts[|ts| - 1]];
    }
  }

  lemma {:induction false} BetweenNone(ts: seq<int>, from: int, to: int)
    requires forall i :: 0 <= i < |ts| ==> ts[i] <= from
    ensures Between(ts, from, to) == []
  {
    if ts != [] {
      BetweenNone(ts[..|ts| - 1], from, to);
    }
  }

  /** On a history in time order, pruning is filtering to the times after the cutoff. */
  lemma {:induction false} PruneOfSorted(ts: seq<int>, cutoff: int, now: int)
    requires Sorted(ts) && forall i :: 0 <= i < |ts| ==> ts[i] <= now
    ensures Prune(ts, cutoff) == Between(ts, cutoff, now)
  {
    if ts == [] {
    } else if ts[0] > cutoff {
      forall i | 0 <= i < |ts| ensures cutoff < ts[i] { assert ts[0] <= ts[i]; }
      BetweenAll(ts, cutoff, now);
    } else {
      PruneOfSorted(ts[1..], cutoff, now);
      assert ts == ts[..1] + ts[1..];
      BetweenNone(ts[..1], cutoff, now);
      BetweenOfConcat(ts[..1], ts[1..], cutoff, now);
    }
  }

  /** Pruning twice at one cutoff is pruning once. */
  lemma {:induction false} PruneIdempotent(entries: seq<int>, cutoff: int)
    ensures Prune(Prune(entries, cutoff), cutoff) == Prune(entries, cutoff)
  {
    if entries != [] && entries[0] <= cutoff {
      PruneIdempotent(entries[1..], cutoff);
    }
  }

  /**
   `entries` has kept everything of `log` that lies after the last cutoff used: some tail of what came
   before it, then the log less a front part that is at or before that cutoff.
   */
  ghost predicate Remembers(entries: seq<int>, log: seq<int>, cutoff: int) {
    exists n :: KeptFrom(entries, log, cutoff, n)
  }

  predicate KeptFrom(entries: seq<int>, log: seq<int>, cutoff: int, n: int) {
    0 <= n <= |log| && EndsWith(entries, log[n..]) && forall i :: 0 <= i < n ==> log[i] <= cutoff
  }

  predicate EndsWith(s: seq<int>, tail: seq<int>) {
    |tail| <= |s| && s[|s| - |tail|..] == tail
  }

  lemma EndsWithAppend(s: seq<int>, log: seq<int>, m: int, x: int)
    requires 0 <= m <= |log| && EndsWith(s, log[m..])
    ensures EndsWith(s + [x], (log + [x])[m..])
  {
    assert (log + [x])[m..] == log[m..] + [x];
  }

  lemma PruneKeeps(entries: seq<int>, log: seq<int>, cutoff: int, n: int, cutoff': int) returns (m: int)
    requires KeptFrom(entries, log, cutoff, n) && cutoff <= cutoff'
    ensures KeptFrom(Prune(entries, cutoff'), log, cutoff', m)
  {
    PruneIsTail(entries, cutoff');
    var kept := Prune(entries, cutoff');
    if |kept| >= |log| - n {
      m := n;
      assert kept[|kept| - (|log| - n)..] == entries[|entries| - (|log| - n)..];
    } else {
      m := |log| - |kept|;
      assert entries[|entries| - |kept|..] == log[n..][(|log| - n) - |kept|..];
      assert kept == log[m..];
      forall i | 0 <= i < m ensures log[i] <= cutoff' {
        if i >= n {
          assert log[i] == log[n..][i - n] == entries[|entries| - (|log| - n) + (i - n)];
        }
      }
    }
  }

  lemma PruneRemembers(entries: seq<int>, log: seq<int>, cutoff: int, cutoff': int)
    requires Remembers(entries, log, cutoff) && cutoff <= cutoff'
    ensures Remembers(Prune(entries, cutoff'), log, cutoff')
  {
    var n :| KeptFrom(entries, log, cutoff, n);
    var m := PruneKeeps(entries, log, cutoff, n, cutoff');
  }

  lemma RecordRemembers(entries: seq<int>, log: seq<int>, cfg: Limit, cutoff: int, now: int)
    requires Remembers(entries, log, cutoff) && cutoff <= now - cfg.duration
    ensures Remembers(Recorded(entries, cfg, now), log + [now], now - cfg.duration)
  {
    var n :| KeptFrom(entries, log, cutoff, n);
    var m := PruneKeeps(entries, log, cutoff, n, now - cfg.duration);
    EndsWithAppend(Prune(entries, now - cfg.duration), log, m, now);
    assert KeptFrom(Recorded(entries, cfg, now), log + [now], now - cfg.duration, m);
  }

  /** A device that is not at its maximum has made fewer than that many selections in the window. */
  lemma BelowMaxMeansFew(entries: seq<int>, log: seq<int>, cfg: Limit, cutoff: int, now: int)
    requires Remembers(entries, log, cutoff) && cutoff <= now - cfg.duration
    requires cfg.enabled && !AtMax(entries, cfg, now)
    ensures |Between(log, now - cfg.duration, now)| < cfg.maxSelections
  {
    var n :| KeptFrom(entries, log, cutoff, n);
    var m := PruneKeeps(entries, log, cutoff, n, now - cfg.duration);
    BetweenSkips(log, m, now - cfg.duration, now);
  }

  lemma {:induction false} BetweenSkips(log: seq<int>, n: nat, from: int, to: int)
    requires n <= |log| && forall i :: 0 <= i < n ==> log[i] <= from
    ensures |Between(log, from, to)| <= |log| - n
  {
    if n < |log| {
      BetweenSkips(log[..|log| - 1], n, from, to);
    } else if log != [] {
      BetweenSkips(log[..|log| - 1], n - 1, from, to);
    }
  }

  lemma SuffixPruned(entries: seq<int>, log: seq<int>, cutoff: int)
    requires EndsWith(log, entries)
    ensures EndsWith(log, Prune(entries, cutoff))
  {
    PruneIsTail(entries, cutoff);
    var kept := Prune(entries, cutoff);
    assert log[|log| - |kept|..] == entries[|entries| - |kept|..];
  }

  /**
   Entries that are the end of the log and have kept all that matters are, once pruned, the log filtered to the
   window.
  */
  lemma TailIsFilter(entries: seq<int>, log: seq<int>, cutoff: int, cutoff': int, now: int)
    requires Remembers(entries, log, cutoff) && EndsWith(log, entries) && cutoff <= cutoff'
    requires Sorted(log) && forall i :: 0 <= i < |log| ==> log[i] <= now
    ensures Prune(entries, cutoff') == Between(log, cutoff', now)
  {
    var n :| KeptFrom(entries, log, cutoff, n);
    var m := |log| - |entries|;
    assert log == log[..m] + log[m..] && entries == log[m..];
    forall i, j | 0 <= i < j < |entries| ensures entries[i] <= entries[j] {
      assert entries[i] == log[m + i] && entries[j] == log[m + j];
    }
    PruneOfSorted(entries, cutoff', now);
    BetweenNone(log[..m], cutoff', now);
    BetweenOfConcat(log[..m], log[m..], cutoff', now);
  }
}
