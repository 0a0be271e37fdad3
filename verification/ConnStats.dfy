/**
 Connection statistics: libs/ws/stats.go, and how libs/mitm/device.go carries them over from one
 control connection of a device to the next.  Times are nanoseconds; the zero time is 0.
*/
module ConnStats {
  const ZERO_TIME := 0

  /** A copy of a ConnStats: what is passed and returned by value. */
  datatype Stats = Stats(
    connectedAt: int,
    lastReceivedAt: int, messagesReceived: int, bytesReceived: int,
    lastSentAt: int, messagesSent: int, bytesSent: int,
    lastPongAt: int)

  const ZERO_STATS := Stats(ZERO_TIME, ZERO_TIME, 0, 0, ZERO_TIME, 0, 0, ZERO_TIME)

  function Latest(a: int, b: int): int {
    if b > a then b else a
  }

  /** Counts add up; of two timestamps the latest is kept. */
  function Plus(a: Stats, b: Stats): Stats {
    Stats(Latest(a.connectedAt, b.connectedAt),
          Latest(a.lastReceivedAt, b.lastReceivedAt),
          a.messagesReceived + b.messagesReceived, a.bytesReceived + b.bytesReceived,
          Latest(a.lastSentAt, b.lastSentAt), a.messagesSent + b.messagesSent, a.bytesSent + b.bytesSent,
          Latest(a.lastPongAt, b.lastPongAt))
  }

  /** No total and no timestamp of a is ahead of b's. */
  predicate Grown(a: Stats, b: Stats) {
    && a.connectedAt <= b.connectedAt
    && a.lastReceivedAt <= b.lastReceivedAt
    && a.messagesReceived <= b.messagesReceived && a.bytesReceived <= b.bytesReceived
    && a.lastSentAt <= b.lastSentAt && a.messagesSent <= b.messagesSent && a.bytesSent <= b.bytesSent
    && a.lastPongAt <= b.lastPongAt
  }

  /** The four counts are the same, whatever the timestamps. */
  predicate SameCounts(a: Stats, b: Stats) {
    && a.messagesReceived == b.messagesReceived && a.bytesReceived == b.bytesReceived
    && a.messagesSent == b.messagesSent && a.bytesSent == b.bytesSent
  }

  /** No timestamp of a is later than b's. */
  predicate NotAfter(a: Stats, b: Stats) {
    && a.connectedAt <= b.connectedAt && a.lastReceivedAt <= b.lastReceivedAt
    && a.lastSentAt <= b.lastSentAt && a.lastPongAt <= b.lastPongAt
  }

  /** The most recent activity. */
  function LastSeen(st: Stats): int {
    Latest(Latest(st.connectedAt, st.lastReceivedAt), Latest(st.lastSentAt, st.lastPongAt))
  }

  class ConnStats {
    var connectedAt: int
    var lastReceivedAt: int
    var messagesReceived: int
    var bytesReceived: int
    var lastSentAt: int
    var messagesSent: int
    var bytesSent: int
    var lastPongAt: int

    constructor ()
      ensures Value() == ZERO_STATS
    {
      connectedAt, lastReceivedAt, messagesReceived, bytesReceived := ZERO_TIME, ZERO_TIME, 0, 0;
      lastSentAt, messagesSent, bytesSent, lastPongAt := ZERO_TIME, 0, 0, ZERO_TIME;
    }

    constructor CopyOf(st: Stats)
      ensures Value() == st
    {
      connectedAt, lastReceivedAt := st.connectedAt, st.lastReceivedAt;
      messagesReceived, bytesReceived := st.messagesReceived, st.bytesReceived;
      lastSentAt, messagesSent, bytesSent, lastPongAt := st.lastSentAt, st.messagesSent, st.bytesSent, st.lastPongAt;
    }

    function Value(): Stats
      reads this
    {
      Stats(connectedAt, lastReceivedAt, messagesReceived, bytesReceived,
            lastSentAt, messagesSent, bytesSent, lastPongAt)
    }

    method Add(other: Stats)
      modifies this
      ensures Value() == Plus(old(Value()), other)
    {
      if other.connectedAt > connectedAt {
        connectedAt := other.connectedAt;
      }
      if other.lastReceivedAt > lastReceivedAt {
        lastReceivedAt := other.lastReceivedAt;
      }
      messagesReceived := messagesReceived + other.messagesReceived;
      bytesReceived := bytesReceived + other.bytesReceived;
      if other.lastSentAt > lastSentAt {
        lastSentAt := other.lastSentAt;
      }
      messagesSent := messagesSent + other.messagesSent;
      bytesSent := bytesSent + other.bytesSent;
      if other.lastPongAt > lastPongAt {
        lastPongAt := other.lastPongAt;
      }
    }

    /** The latest of the four timestamps: none is later, and it is one of them. */
    method LastSeenAt() returns (latest: int)
      ensures latest == LastSeen(Value())
      ensures latest >= connectedAt && latest >= lastReceivedAt && latest >= lastSentAt && latest >= lastPongAt
      ensures latest in {connectedAt, lastReceivedAt, lastSentAt, lastPongAt}
    {
      latest := connectedAt;
      var times := [lastReceivedAt, lastSentAt, lastPongAt];
      for i := 0 to |times|
        invariant latest >= connectedAt && forall j :: 0 <= j < i ==> latest >= times[j]
        invariant latest == connectedAt || latest in times[..i]
      {
        if times[i] > latest {
          latest := times[i];
        }
        assert times[..i + 1] == times[..i] + [times[i]];
      }
      assert latest >= times[0] && latest >= times[1] && latest >= times[2];
    }

    method SetMessageReceived(now: int, n: int)
      modifies this
      ensures Value() == old(Value()).(
                lastReceivedAt := now, messagesReceived := old(messagesReceived) + 1,
                bytesReceived := old(bytesReceived) + n)
      ensures n >= 0 && now >= old(lastReceivedAt) ==> Grown(old(Value()), Value())
    {
      lastReceivedAt, messagesReceived, bytesReceived := now, messagesReceived + 1, bytesReceived + n;
    }

    method SetMessageSent(now: int, n: int)
      modifies this
      ensures Value() == old(Value()).(
                lastSentAt := now, messagesSent := old(messagesSent) + 1, bytesSent := old(bytesSent) + n)
      ensures n >= 0 && now >= old(lastSentAt) ==> Grown(old(Value()), Value())
    {
      lastSentAt, messagesSent, bytesSent := now, messagesSent + 1, bytesSent + n;
    }

    method SetPongReceived(now: int)
      modifies this
      ensures Value() == old(Value()).(lastPongAt := now)
      ensures now >= old(lastPongAt) ==> Grown(old(Value()), Value())
    {
      lastPongAt := now;
    }
  }

  /** Merging sessions sees the activity of each of them, and no other. */
  lemma LastSeenOfPlus(a: Stats, b: Stats)
    ensures LastSeen(Plus(a, b)) == Latest(LastSeen(a), LastSeen(b))
  {
  }

  function SumStats(sessions: seq<Stats>): Stats {
    if sessions == [] then ZERO_STATS else Plus(SumStats(sessions[..|sessions| - 1]), sessions[|sessions| - 1])
  }

  lemma PlusAssociates(a: Stats, b: Stats, c: Stats)
    ensures Plus(Plus(a, b), c) == Plus(a, Plus(b, c))
  {
  }

  lemma PlusZero(a: Stats)
    requires Grown(ZERO_STATS, a)
    ensures Plus(a, ZERO_STATS) == a == Plus(ZERO_STATS, a)
  {
  }

  lemma PlusStaysAboveZero(a: Stats, b: Stats)
    requires Grown(ZERO_STATS, a) && Grown(ZERO_STATS, b)
    ensures Grown(ZERO_STATS, Plus(a, b)) && Grown(a, Plus(a, b)) && Grown(b, Plus(a, b))
  {
  }

  lemma PlusGrows(a: Stats, a': Stats, b: Stats, b': Stats)
    requires Grown(a, a') && Grown(b, b')
    ensures Grown(Plus(a, b), Plus(a', b'))
  {
  }

  lemma GrownTwice(a: Stats, b: Stats, c: Stats)
    requires Grown(a, b) && Grown(b, c)
    ensures Grown(a, c)
  {
  }

  lemma SumOfLast(sessions: seq<Stats>, last: Stats)
    ensures SumStats(sessions + [last]) == Plus(SumStats(sessions), last)
  {
    hide Plus;
    assert (sessions + [last])[..|sessions|] == sessions;
  }

  lemma {:induction false} SumAboveZero(sessions: seq<Stats>)
    requires forall i :: 0 <= i < |sessions| ==> Grown(ZERO_STATS, sessions[i])
    ensures Grown(ZERO_STATS, SumStats(sessions))
  {
    hide Grown, Plus;
    if sessions == [] {
      assert Grown(ZERO_STATS, ZERO_STATS) by { GrownFromItself(ZERO_STATS); }
    } else {
      var rest, last := sessions[..|sessions| - 1], sessions[|sessions| - 1];
      SumAboveZero(rest);
      PlusStaysAboveZero(SumStats(rest), last);
    }
  }

  lemma GrownFromItself(a: Stats)
    ensures Grown(a, a)
  {
  }

  /** The total does not depend on how the sessions are batched. */
  lemma {:induction false} SumOfBoth(a: seq<Stats>, b: seq<Stats>)
    requires forall i :: 0 <= i < |a| ==> Grown(ZERO_STATS, a[i])
    ensures SumStats(a + b) == Plus(SumStats(a), SumStats(b))
  {
    hide Grown, Plus;
    if b == [] {
      assert a + b == a;
      SumAboveZero(a);
      PlusZero(SumStats(a));
    } else {
      var rest, last := b[..|b| - 1], b[|b| - 1];
      SumOfBoth(a, rest);
      assert a + b == (a + rest) + [last];
      SumOfLast(a + rest, last);
      PlusAssociates(SumStats(a), SumStats(rest), last);
    }
  }

  /** Each session is within the total: nothing merged is lost. */
  lemma {:induction false} SessionWithinSum(sessions: seq<Stats>, i: nat)
    requires i < |sessions| && forall j :: 0 <= j < |sessions| ==> Grown(ZERO_STATS, sessions[j])
    ensures Grown(sessions[i], SumStats(sessions))
  {
    hide Grown, Plus;
    var rest, last := sessions[..|sessions| - 1], sessions[|sessions| - 1];
    SumAboveZero(rest);
    PlusStaysAboveZero(SumStats(rest), last);
    if i < |rest| {
      SessionWithinSum(rest, i);
      GrownTwice(sessions[i], SumStats(rest), SumStats(sessions));
    }
  }

  /** Larger sessions make a larger total. */
  lemma {:induction false} SumGrows(a: seq<Stats>, b: seq<Stats>)
    requires |a| == |b| && forall i :: 0 <= i < |a| ==> Grown(a[i], b[i])
    ensures Grown(SumStats(a), SumStats(b))
  {
    hide Grown, Plus;
    if a == [] {
      GrownFromItself(ZERO_STATS);
    } else {
      SumGrows(a[..|a| - 1], b[..|b| - 1]);
      PlusGrows(SumStats(a[..|a| - 1]), SumStats(b[..|b| - 1]), a[|a| - 1], b[|b| - 1]);
    }
  }

  lemma SameCountsOfPlus(a: Stats, a': Stats, b: Stats, b': Stats)
    requires Grown(a, a') && Grown(b, b')
    ensures SameCounts(Plus(a, b), Plus(a', b')) <==> SameCounts(a, a') && SameCounts(b, b')
  {
  }

  /** Where every session has grown, if at all, the totals count the same exactly when every session does. */
  lemma {:induction false} SumCountsExactly(a: seq<Stats>, b: seq<Stats>)
    requires |a| == |b| && forall i :: 0 <= i < |a| ==> Grown(a[i], b[i])
    ensures SameCounts(SumStats(a), SumStats(b)) <==> forall i :: 0 <= i < |a| ==> SameCounts(a[i], b[i])
  {
    hide Grown, Plus;
    if a == [] {
      assert SumStats(a) == SumStats(b);
    } else {
      var n := |a| - 1;
      SumCountsExactly(a[..n], b[..n]);
      SumGrows(a[..n], b[..n]);
      SameCountsOfPlus(SumStats(a[..n]), SumStats(b[..n]), a[n], b[n]);
      hide SameCounts;
      assert (forall i :: 0 <= i < n ==> SameCounts(a[..n][i], b[..n][i])) <==>
             forall i :: 0 <= i < n ==> SameCounts(a[i], b[i]);
    }
  }

  lemma {:induction false} SumNotAfter(sessions: seq<Stats>, bound: Stats)
    requires NotAfter(ZERO_STATS, bound) && forall i :: 0 <= i < |sessions| ==> NotAfter(sessions[i], bound)
    ensures NotAfter(SumStats(sessions), bound)
  {
    if sessions != [] {
      SumNotAfter(sessions[..|sessions| - 1], bound);
    }
  }

  lemma SameWhenNotBehind(a: Stats, b: Stats)
    requires Grown(a, b)
    ensures a == b <==> SameCounts(a, b) && NotAfter(b, a)
  {
  }

  /** And the totals are the same altogether exactly when, besides, no session has become more recent than the total. */
  lemma SumExactly(a: seq<Stats>, b: seq<Stats>)
    requires |a| == |b| && forall i :: 0 <= i < |a| ==> Grown(ZERO_STATS, a[i]) && Grown(a[i], b[i])
    ensures SumStats(a) == SumStats(b) <==>
            forall i :: 0 <= i < |a| ==> SameCounts(a[i], b[i]) && NotAfter(b[i], SumStats(a))
  {
    SumAboveZero(a);
    SumGrows(a, b);
    SumCountsExactly(a, b);
    SameWhenNotBehind(SumStats(a), SumStats(b));
    if forall i :: 0 <= i < |a| ==> NotAfter(b[i], SumStats(a)) {
      SumNotAfter(b, SumStats(a));
    }
    if SumStats(a) == SumStats(b) {
      forall i | 0 <= i < |b| ensures NotAfter(b[i], SumStats(b)) {
        WithinSumOfLarger(a, b, i);
      }
    }
    hide SumStats, SameCounts, NotAfter, Grown;
  }

  lemma WithinSumOfLarger(a: seq<Stats>, b: seq<Stats>, i: nat)
    requires i < |b| && |a| == |b| && forall j :: 0 <= j < |a| ==> Grown(ZERO_STATS, a[j]) && Grown(a[j], b[j])
    ensures NotAfter(b[i], SumStats(b))
  {
    forall j | 0 <= j < |b| ensures Grown(ZERO_STATS, b[j]) {
      GrownTwice(ZERO_STATS, a[j], b[j]);
    }
    SessionWithinSum(b, i);
  }

  // ------------------------------------------------------------ in plain numbers

  function SumOf(ns: seq<int>): int {
    if ns == [] then 0 else SumOf(ns[..|ns| - 1]) + ns[|ns| - 1]
  }

  /** The latest of the times, from the zero time on. */
  predicate IsLatest(latest: int, times: seq<int>) {
    && latest >= ZERO_TIME && (forall t :: t in times ==> latest >= t)
    && (latest == ZERO_TIME || latest in times)
  }

  function Field(sessions: seq<Stats>, f: Stats -> int): (ns: seq<int>)
    ensures |ns| == |sessions|
  {
    seq(|sessions|, (i: int) requires 0 <= i < |sessions| => f(sessions[i]))
  }

  lemma FieldOfMore(sessions: seq<Stats>, f: Stats -> int)
    requires sessions != []
    ensures var n := |sessions| - 1;
            Field(sessions, f) == Field(sessions[..n], f) + [f(sessions[n])]
  {
  }

  lemma SumOfMore(ns: seq<int>, n: int)
    ensures SumOf(ns + [n]) == SumOf(ns) + n
  {
    assert (ns + [n])[..|ns|] == ns;
  }

  lemma {:induction false} CountIsSum(sessions: seq<Stats>, f: Stats -> int)
    requires f(ZERO_STATS) == 0 && forall a, b :: f(Plus(a, b)) == f(a) + f(b)
    ensures f(SumStats(sessions)) == SumOf(Field(sessions, f))
  {
    hide Plus;
    if sessions != [] {
      var n := |sessions| - 1;
      CountIsSum(sessions[..n], f);
      FieldOfMore(sessions, f);
      SumOfMore(Field(sessions[..n], f), f(sessions[n]));
    }
  }

  lemma {:induction false} TimeIsLatest(sessions: seq<Stats>, f: Stats -> int)
    requires f(ZERO_STATS) == ZERO_TIME && forall a, b :: f(Plus(a, b)) == if f(b) > f(a) then f(b) else f(a)
    ensures IsLatest(f(SumStats(sessions)), Field(sessions, f))
  {
    hide Plus;
    if sessions != [] {
      var n := |sessions| - 1;
      TimeIsLatest(sessions[..n], f);
      FieldOfMore(sessions, f);
      assert SumStats(sessions) == Plus(SumStats(sessions[..n]), sessions[n]);
      assert f(sessions[n]) in Field(sessions, f) by {
        assert Field(sessions, f)[n] == f(sessions[n]);
      }
    }
  }

  /** Merged sessions in plain numbers: each count is the sum of theirs, each timestamp the latest of theirs. */
  lemma MergedInPlainNumbers(sessions: seq<Stats>)
    ensures var total := SumStats(sessions);
            && total.messagesReceived == SumOf(Field(sessions, (st: Stats) => st.messagesReceived))
            && total.bytesReceived == SumOf(Field(sessions, (st: Stats) => st.bytesReceived))
            && total.messagesSent == SumOf(Field(sessions, (st: Stats) => st.messagesSent))
            && total.bytesSent == SumOf(Field(sessions, (st: Stats) => st.bytesSent))
            && IsLatest(total.connectedAt, Field(sessions, (st: Stats) => st.connectedAt))
            && IsLatest(total.lastReceivedAt, Field(sessions, (st: Stats) => st.lastReceivedAt))
            && IsLatest(total.lastSentAt, Field(sessions, (st: Stats) => st.lastSentAt))
            && IsLatest(total.lastPongAt, Field(sessions, (st: Stats) => st.lastPongAt))
  {
    CountIsSum(sessions, (st: Stats) => st.messagesReceived);
    CountIsSum(sessions, (st: Stats) => st.bytesReceived);
    CountIsSum(sessions, (st: Stats) => st.messagesSent);
    CountIsSum(sessions, (st: Stats) => st.bytesSent);
    TimeIsLatest(sessions, (st: Stats) => st.connectedAt);
    TimeIsLatest(sessions, (st: Stats) => st.lastReceivedAt);
    TimeIsLatest(sessions, (st: Stats) => st.lastSentAt);
    TimeIsLatest(sessions, (st: Stats) => st.lastPongAt);
  }
}
