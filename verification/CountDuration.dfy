/**
 The time-bucket ring buffer of libs/stats/count_duration.go.

 `Collector` is the circular pair of arrays.  `Ring` is the same data read newest
 bucket first, without head or modulus; every method of `Collector` is proved to act on
 it as the functions below say.  The last section proves that a `Ring` driven by
 any sequence of calls is an exact summary of the log of the events added.
*/
module CountDuration {
  import opened Basics

  datatype Bucket = Bucket(sum: int, count: int)

  const EMPTY := Bucket(0, 0)

  /** One position of the ring: its count bucket and its duration bucket. */
  datatype Slot = Slot(counts: Bucket, durations: Bucket)

  const BLANK := Slot(EMPTY, EMPTY)

  datatype Ring = Ring(slots: seq<Slot>, headTime: int)

  datatype Period = Period(sum: int, count: int, startTime: int, endTime: int)

  // ------------------------------------------------------------ rotation

  function Rotate(r: Ring, d: int): Ring
    requires |r.slots| > 0
  {
    Ring([BLANK] + r.slots[..|r.slots| - 1], r.headTime + d)
  }

  /** `k` single rotations, one bucket each. */
  function RotateBy(r: Ring, d: int, k: nat): (r': Ring)
    requires |r.slots| > 0
    ensures |r'.slots| == |r.slots|
  {
    if k == 0 then r else Rotate(RotateBy(r, d, k - 1), d)
  }

  /** How many buckets an advance moves on; none for a clock behind the head bucket. */
  function Steps(r: Ring, d: int, now: int): nat
    requires d != 0
  {
    var k := TruncDiv(now - r.headTime, d);
    if k < 0 then 0 else k
  }

  function Advance(r: Ring, d: int, now: int): Ring
    requires d != 0 && |r.slots| > 0
  {
    RotateBy(r, d, Steps(r, d, now))
  }

  lemma {:induction false} RotateByMovesHeadTime(r: Ring, d: int, k: nat)
    requires |r.slots| > 0
    ensures RotateBy(r, d, k).headTime == r.headTime + k * d
  {
    if k > 0 {
      RotateByMovesHeadTime(r, d, k - 1);
    }
  }

  /** What the bulk reset relies on: a whole turn of the ring leaves nothing behind. */
  lemma {:induction false} RotateByAt(r: Ring, d: int, k: nat, j: nat)
    requires j < |r.slots|
    ensures RotateBy(r, d, k).slots[j] == if j < k then BLANK else r.slots[j - k]
  {
    if k > 0 && j > 0 {
      RotateByAt(r, d, k - 1, j - 1);
    }
  }

  ghost predicate Aligned(t: int, createdAt: int, d: int)
    requires d > 0
  {
    (t - createdAt) % d == 0
  }

  lemma AlignedSteps(t: int, createdAt: int, d: int, k: int)
    requires d > 0 && Aligned(t, createdAt, d)
    ensures Aligned(t + k * d, createdAt, d)
  {
    var q := (t - createdAt) / d;
    assert t - createdAt == q * d;
    assert t + k * d - createdAt == (q + k) * d;
    MultipleModulo(q + k, d);
  }

  /** After any advance the clock lies in the head bucket, which is still aligned to the creation time. */
  lemma AdvanceRestoresHead(r: Ring, d: int, now: int, createdAt: int)
    requires d > 0 && |r.slots| > 0 && r.headTime <= now
    requires Aligned(r.headTime, createdAt, d)
    ensures var r' := Advance(r, d, now);
            r'.headTime <= now < r'.headTime + d && Aligned(r'.headTime, createdAt, d)
  {
    var k := Steps(r, d, now);
    TruncDivBounds(now - r.headTime, d);
    RotateByMovesHeadTime(r, d, k);
    AlignedSteps(r.headTime, createdAt, d, k);
  }

  /** Within the head bucket, and for a clock behind it, nothing moves on. */
  lemma AdvancesOnlyForward(r: Ring, d: int, now: int)
    requires d > 0 && |r.slots| > 0 && now < r.headTime + d
    ensures Advance(r, d, now) == r
  {
    if now >= r.headTime {
      TruncDivBounds(now - r.headTime, d);
      var k := TruncDiv(now - r.headTime, d);
      assert k >= 1 ==> k * d >= d;
    }
  }

  lemma MultipleModulo(q: int, d: int)
    requires d > 0
    ensures (q * d) % d == 0
  {
    var rem := (q * d) % d;
    var quo := (q * d) / d;
    assert (q - quo) * d == rem;
    assert q - quo >= 1 ==> (q - quo) * d >= d;
    assert q - quo <= -1 ==> (q - quo) * d <= -d;
  }

  // ------------------------------------------------------------ adding and reading

  function Bump(b: Bucket, x: int): Bucket {
    Bucket(b.sum + x, b.count + 1)
  }

  function AddTo(s: Slot, count: int, duration: int): Slot {
    Slot(Bump(s.counts, count), Bump(s.durations, duration))
  }

  function Add(r: Ring, d: int, now: int, count: int, duration: int): Ring
    requires d != 0 && |r.slots| > 0
  {
    var a := Advance(r, d, now);
    a.(slots := a.slots[0 := AddTo(a.slots[0], count, duration)])
  }

  function Plus(a: Bucket, b: Bucket): Bucket {
    Bucket(a.sum + b.sum, a.count + b.count)
  }

  function Merge(a: Slot, b: Slot): Slot {
    Slot(Plus(a.counts, b.counts), Plus(a.durations, b.durations))
  }

  /** The newest `k` buckets together. */
  function Newest(slots: seq<Slot>, k: nat): Slot
    requires k <= |slots|
  {
    if k == 0 then BLANK else Merge(Newest(slots, k - 1), slots[k - 1])
  }

  /** How many buckets a window covers. */
  function Scanned(window: int, d: int, n: nat): nat
    requires d != 0
  {
    var k := TruncDiv(window, d);
    if k < 0 then 0 else if k < n then k else n
  }

  /** The period reported for a window: it never starts before the collector existed. */
  function Answer(total: Bucket, window: int, now: int, createdAt: int): Period {
    Period(total.sum, total.count, if now - window < createdAt then createdAt else now - window, now)
  }

  // ------------------------------------------------------------ the circular arrays

  lemma WrapOnce(x: nat, n: nat)
    requires x < 2 * n
    ensures x % n == if x < n then x else x - n
  {
    var q := x / n;
    assert q * n + x % n == x;
    assert q >= 2 ==> q * n >= 2 * n;
    assert q == 1 ==> q * n == n;
  }

  function Index(head: nat, j: nat, n: nat): (i: nat)
    requires head < n && j < n
    ensures i < n && i == if j <= head then head - j else head - j + n
  {
    WrapOnce(head - j + n, n);
    (head - j + n) % n
  }

  function Unroll(counts: seq<Bucket>, durations: seq<Bucket>, head: nat): (slots: seq<Slot>)
    requires |counts| == |durations| && head < |counts|
    ensures |slots| == |counts|
  {
    seq(|counts|, (j: nat) requires j < |counts| =>
        Slot(counts[Index(head, j, |counts|)], durations[Index(head, j, |counts|)]))
  }

  function NextHead(head: nat, n: nat): (i: nat)
    requires head < n
    ensures i == if head + 1 == n then 0 else head + 1
  {
    WrapOnce(head + 1, n);
    (head + 1) % n
  }

  /** Moving the head on and clearing that bucket is one rotation. */
  lemma NextHeadRotates(counts: seq<Bucket>, durations: seq<Bucket>, head: nat, headTime: int, d: int)
    requires |counts| == |durations| && head < |counts|
    ensures var head' := NextHead(head, |counts|);
            Ring(Unroll(counts[head' := EMPTY], durations[head' := EMPTY], head'), headTime + d)
            == Rotate(Ring(Unroll(counts, durations, head), headTime), d)
  {
    var head' := NextHead(head, |counts|);
    var u, u' := Unroll(counts, durations, head), Unroll(counts[head' := EMPTY], durations[head' := EMPTY], head');
    forall j: nat | 0 < j < |counts| ensures u'[j] == u[j - 1] {
      assert Index(head', j, |counts|) == Index(head, j - 1, |counts|) != head';
    }
    assert u' == [BLANK] + u[..|u| - 1];
  }

  /** Clearing every bucket and restarting at head 0 is the same as a whole turn, or more, of rotations. */
  lemma BulkResetRotates(counts: seq<Bucket>, durations: seq<Bucket>, r: Ring, d: int, k: nat)
    requires |counts| == |durations| == |r.slots| > 0 && k >= |r.slots|
    requires forall m :: 0 <= m < |counts| ==> counts[m] == durations[m] == EMPTY
    ensures Ring(Unroll(counts, durations, 0), r.headTime + k * d) == RotateBy(r, d, k)
  {
    RotateByMovesHeadTime(r, d, k);
    forall j: nat | j < |r.slots| ensures Unroll(counts, durations, 0)[j] == RotateBy(r, d, k).slots[j] {
      RotateByAt(r, d, k, j);
    }
    assert Unroll(counts, durations, 0) == RotateBy(r, d, k).slots;
  }

  class Collector {
    const bucketDuration: int
    const maxWindow: int
    const countBuckets: array<Bucket>
    const durationBuckets: array<Bucket>
    var head: nat
    var headTime: int
    const createdAt: int
    ghost var calls: seq<Call>   // every Add and GetWindows so far, in order

    ghost predicate Valid()
      reads this
    {
      && bucketDuration != 0
      && countBuckets.Length == durationBuckets.Length > 0
      && countBuckets != durationBuckets
      && head < countBuckets.Length
    }

    ghost function Logical(): Ring
      requires Valid()
      reads this, countBuckets, durationBuckets
    {
      Ring(Unroll(countBuckets[..], durationBuckets[..], head), headTime)
    }

    /** The ring is what the calls have made of a new one. */
    ghost predicate Faithful()
      requires Valid() && bucketDuration > 0
      reads this, countBuckets, durationBuckets
    {
      Logical() == Play(Created(countBuckets.Length - 1, createdAt), bucketDuration, calls)
    }

    constructor (maxWindow: int, bucketDuration: int, now: int)
      requires bucketDuration != 0 && 1 + TruncDiv(maxWindow, bucketDuration) > 0
      ensures Valid() && fresh(countBuckets) && fresh(durationBuckets)
      ensures this.bucketDuration == bucketDuration && this.maxWindow == maxWindow && createdAt == now
      ensures Logical() == Created(TruncDiv(maxWindow, bucketDuration), now)
      ensures calls == [] && (bucketDuration > 0 ==> Faithful())
    {
      var numBuckets := 1 + TruncDiv(maxWindow, bucketDuration);
      this.bucketDuration, this.maxWindow := bucketDuration, maxWindow;
      countBuckets := new Bucket[numBuckets](_ => EMPTY);
      durationBuckets := new Bucket[numBuckets](_ => EMPTY);
      head, headTime, createdAt := 0, now, now;
      calls := [];
      new;
      assert Unroll(countBuckets[..], durationBuckets[..], 0) == seq(numBuckets, _ => BLANK);
    }

    /** One step of the head: the bucket it comes to is cleared. */
    method RotateOnce()
      requires Valid()
      modifies this, countBuckets, durationBuckets
      ensures Valid() && Logical() == Rotate(old(Logical()), bucketDuration) && calls == old(calls)
    {
      NextHeadRotates(countBuckets[..], durationBuckets[..], head, headTime, bucketDuration);
      head := NextHead(head, countBuckets.Length);
      countBuckets[head] := EMPTY;
      durationBuckets[head] := EMPTY;
      headTime := headTime + bucketDuration;
      assert countBuckets[..] == old(countBuckets[..])[head := EMPTY];
      assert durationBuckets[..] == old(durationBuckets[..])[head := EMPTY];
    }

    /** The fast path, for a whole turn of the ring or more. */
    method BulkReset(bucketsToAdvance: int)
      requires Valid() && bucketsToAdvance >= countBuckets.Length
      modifies this, countBuckets, durationBuckets
      ensures Valid() && Logical() == RotateBy(old(Logical()), bucketDuration, bucketsToAdvance) && calls == old(calls)
    {
      var numBuckets := countBuckets.Length;
      for i := 0 to numBuckets
        invariant head == old(head) && headTime == old(headTime) && calls == old(calls)
        invariant forall m :: 0 <= m < i ==> countBuckets[m] == durationBuckets[m] == EMPTY
      {
        countBuckets[i] := EMPTY;
        durationBuckets[i] := EMPTY;
      }
      headTime := headTime + bucketsToAdvance * bucketDuration;
      head := 0;
      BulkResetRotates(countBuckets[..], durationBuckets[..], old(Logical()), bucketDuration, bucketsToAdvance);
    }

    /** The bulk reset and the loop of single steps have the same effect on the ring. */
    method AdvanceTo(now: int)
      requires Valid()
      modifies this, countBuckets, durationBuckets
      ensures Valid() && calls == old(calls)
      ensures Logical() == Advance(old(Logical()), bucketDuration, now)
    {
      hide Unroll, Rotate;
      var elapsed := now - headTime;
      var bucketsToAdvance := TruncDiv(elapsed, bucketDuration);
      if bucketsToAdvance == 0 {
        return;
      }
      if bucketsToAdvance >= countBuckets.Length {
        BulkReset(bucketsToAdvance);
        return;
      }
      var step := 0;
      while step < bucketsToAdvance
        invariant Valid() && 0 <= step && (step <= bucketsToAdvance || step == 0) && calls == old(calls)
        invariant Logical() == RotateBy(old(Logical()), bucketDuration, step)
      {
        RotateOnce();
        step := step + 1;
      }
    }

    method AddEvent(count: int, duration: int, now: int)
      requires Valid()
      modifies this, countBuckets, durationBuckets
      ensures Valid()
      ensures Logical() == Add(old(Logical()), bucketDuration, now, count, duration)
      ensures calls == old(calls) + [AddCall(Event(now, count, duration))]
      ensures bucketDuration > 0 && old(Faithful()) ==> Faithful()
    {
      AdvanceTo(now);
      ghost var a := Logical();
      countBuckets[head] := Bump(countBuckets[head], count);
      durationBuckets[head] := Bump(durationBuckets[head], duration);
      assert Logical().slots == a.slots[0 := AddTo(a.slots[0], count, duration)];
      calls := calls + [AddCall(Event(now, count, duration))];
      assert calls[..|calls| - 1] == old(calls);
    }

    /** One window's turn of the loop: the newest buckets it covers, summed up. */
    method SumWindow(window: int, now: int) returns (counts: Period, durations: Period)
      requires Valid()
      ensures var total := Newest(Logical().slots, Scanned(window, bucketDuration, |Logical().slots|));
              && counts == Answer(total.counts, window, now, createdAt)
              && durations == Answer(total.durations, window, now, createdAt)
    {
      var numBuckets := countBuckets.Length;
      var bucketsToScan := Scanned(window, bucketDuration, numBuckets);
      var countSum, durationSum := 0, 0;
      var countN, durationN := 0, 0;
      for j := 0 to bucketsToScan
        invariant Newest(Logical().slots, j) == Slot(Bucket(countSum, countN), Bucket(durationSum, durationN))
      {
        var idx := Index(head, j, numBuckets);
        countSum := countSum + countBuckets[idx].sum;
        countN := countN + countBuckets[idx].count;
        durationSum := durationSum + durationBuckets[idx].sum;
        durationN := durationN + durationBuckets[idx].count;
      }
      var startTime := now - window;
      if startTime < createdAt {
        startTime := createdAt;
      }
      counts, durations := Period(countSum, countN, startTime, now), Period(durationSum, durationN, startTime, now);
    }

    /** Where the clock has not run backwards, each window is answered with the plain sums of the events logged. */
    method GetWindows(windows: seq<int>, now: int) returns (counts: seq<Period>, durations: seq<Period>)
      requires Valid()
      modifies this, countBuckets, durationBuckets
      ensures Valid()
      ensures Logical() == Advance(old(Logical()), bucketDuration, now)
      ensures |counts| == |durations| == |windows|
      ensures forall i :: 0 <= i < |windows| ==>
        var total := Newest(Logical().slots, Scanned(windows[i], bucketDuration, |Logical().slots|));
        && counts[i] == Answer(total.counts, windows[i], now, createdAt)
        && durations[i] == Answer(total.durations, windows[i], now, createdAt)
      ensures calls == old(calls) + [QueryCall(now)]
      ensures bucketDuration > 0 && old(Faithful()) ==> Faithful()
      ensures bucketDuration > 0 && old(Faithful()) && Nondecreasing(createdAt, calls) ==>
        forall i :: 0 <= i < |windows| ==>
          var since := Since(createdAt, bucketDuration, countBuckets.Length, windows[i], now);
          Reports(Log(calls), since, now, windows[i], createdAt, counts[i], durations[i])
    {
      hide Unroll, Newest, Nondecreasing, Log, Since, Reports, Advance, Answer, TruncDiv;
      AdvanceTo(now);
      counts, durations := [], [];
      ghost var r := Logical();
      for i := 0 to |windows|
        invariant Valid() && Logical() == r && calls == old(calls)
        invariant |counts| == |durations| == i
        invariant forall m :: 0 <= m < i ==>
          var total := Newest(r.slots, Scanned(windows[m], bucketDuration, |r.slots|));
          && counts[m] == Answer(total.counts, windows[m], now, createdAt)
          && durations[m] == Answer(total.durations, windows[m], now, createdAt)
      {
        var windowCounts, windowDurations := SumWindow(windows[i], now);
        counts, durations := counts + [windowCounts], durations + [windowDurations];
      }
      calls := calls + [QueryCall(now)];
      assert calls[..|calls| - 1] == old(calls);
      if bucketDuration > 0 && old(Faithful()) && Nondecreasing(createdAt, calls) {
        WindowsArePlainSums(createdAt, bucketDuration, countBuckets.Length - 1, old(calls), now,
                            windows, counts, durations);
      }
    }
  }

  /**
   Nil is the answer to a geometry that does not divide; the other two come of negative durations, which Go
   lets through.
  */
  datatype Construction =
    | Nil
    | Panics                 // make is asked for a negative number of buckets
    | NoBuckets              // a collector whose every Add indexes an empty slice
    | Made(collector: Collector)

  method NewCountDurationCollector(maxWindow: int, bucketDuration: int, now: int) returns (c: Construction)
    ensures c.Nil? <==> bucketDuration == 0 || maxWindow % bucketDuration != 0
    ensures !c.Nil? ==>
      var numBuckets := 1 + TruncDiv(maxWindow, bucketDuration);
      && (c.Panics? <==> numBuckets < 0)
      && (c.NoBuckets? <==> numBuckets == 0)
      && (c.Made? <==> numBuckets > 0)
    ensures c.Made? ==> fresh(c.collector) && c.collector.Valid()
    ensures c.Made? ==> c.collector.bucketDuration == bucketDuration && c.collector.createdAt == now
    ensures c.Made? ==> c.collector.Logical() == Created(TruncDiv(maxWindow, bucketDuration), now)
    ensures c.Made? ==> c.collector.calls == [] && (bucketDuration > 0 ==> c.collector.Faithful())
    ensures maxWindow >= 0 && bucketDuration > 0 ==> c.Nil? || c.Made?
  {
    if bucketDuration == 0 {
      return Nil;
    }
    if maxWindow % bucketDuration != 0 {
      return Nil;
    }
    var numBuckets := 1 + TruncDiv(maxWindow, bucketDuration);
    if numBuckets < 0 {
      return Panics;
    }
    if numBuckets == 0 {
      return NoBuckets;
    }
    var collector := new Collector(maxWindow, bucketDuration, now);
    c := Made(collector);
  }

  /** A new ring: one bucket more than the window has. */
  function Created(windowBuckets: int, now: int): Ring
    requires windowBuckets >= 0
  {
    Ring(seq(1 + windowBuckets, _ => BLANK), now)
  }

  // ------------------------------------------------------------ the event log

  datatype Event = Event(at: int, count: int, duration: int)

  /** The calls a collector may receive. */
  datatype Call = AddCall(event: Event) | QueryCall(now: int)

  function TimeOf(c: Call): int {
    match c
    case AddCall(e) => e.at
    case QueryCall(now) => now
  }

  function Play(r: Ring, d: int, calls: seq<Call>): (r': Ring)
    requires d > 0 && |r.slots| > 0
    ensures |r'.slots| == |r.slots|
  {
    if calls == [] then r
    else
      var before := Play(r, d, calls[..|calls| - 1]);
      match calls[|calls| - 1]
      case AddCall(e) => Add(before, d, e.at, e.count, e.duration)
      case QueryCall(now) => Advance(before, d, now)
  }

  function Log(calls: seq<Call>): seq<Event> {
    if calls == [] then []
    else
      var before := Log(calls[..|calls| - 1]);
      match calls[|calls| - 1]
      case AddCall(e) => before + [e]
      case QueryCall(_) => before
  }

  /** The clock never runs backwards between creation and the last call. */
  predicate Nondecreasing(createdAt: int, calls: seq<Call>) {
    calls != [] ==>
      var earlier := calls[..|calls| - 1];
      Nondecreasing(createdAt, earlier) && LastTime(createdAt, earlier) <= TimeOf(calls[|calls| - 1])
  }

  function LastTime(createdAt: int, calls: seq<Call>): int {
    if calls == [] then createdAt else TimeOf(calls[|calls| - 1])
  }

  /** Everything logged at a time in [from, to). */
  function Total(log: seq<Event>, from: int, to: int): Slot {
    if log == [] then BLANK
    else Include(Total(log[..|log| - 1], from, to), log[|log| - 1], from, to)
  }

  function Include(s: Slot, e: Event, from: int, to: int): Slot {
    if from <= e.at < to then AddTo(s, e.count, e.duration) else s
  }

  /** Bucket j holds exactly the events of its own interval, and no event is newer than the head bucket. */
  ghost predicate Summarizes(r: Ring, d: int, log: seq<Event>) {
    && (forall e :: e in log ==> e.at < r.headTime + d)
    && (forall j {:trigger r.slots[j]} :: 0 <= j < |r.slots| ==>
          r.slots[j] == Total(log, Opens(r.headTime, j + 1, d), Opens(r.headTime, j, d)))
  }

  /** When the interval covered by the newest k buckets opened. */
  function Opens(headTime: int, k: nat, d: int): int {
    if k == 0 then headTime + d else Opens(headTime, k - 1, d) - d
  }

  lemma {:induction false} OpensAt(headTime: int, k: nat, d: int)
    ensures Opens(headTime, k, d) == headTime - (k - 1) * d
  {
    if k > 0 {
      OpensAt(headTime, k - 1, d);
    }
  }

  lemma {:induction false} OpensInOrder(headTime: int, k: nat, d: int)
    requires d > 0
    ensures Opens(headTime, k, d) <= headTime + d
    ensures Opens(headTime + d, k + 1, d) == Opens(headTime, k, d)
  {
    if k > 0 {
      OpensInOrder(headTime, k - 1, d);
    }
  }

  lemma {:induction false} TotalOfNone(log: seq<Event>, from: int, to: int)
    requires forall e :: e in log ==> !(from <= e.at < to)
    ensures Total(log, from, to) == BLANK
  {
    if log != [] {
      TotalOfNone(log[..|log| - 1], from, to);
      assert log[|log| - 1] in log;
    }
  }

  lemma MergeWithBlank(s: Slot)
    ensures Merge(s, BLANK) == s == Merge(BLANK, s)
  {
  }

  lemma MergeIncludes(late: Slot, early: Slot, e: Event, from: int, mid: int, to: int)
    requires from <= mid <= to
    ensures Include(Merge(late, early), e, from, to) == Merge(Include(late, e, mid, to), Include(early, e, from, mid))
  {
  }

  lemma {:induction false} TotalSplits(log: seq<Event>, from: int, mid: int, to: int)
    requires from <= mid <= to
    ensures Total(log, from, to) == Merge(Total(log, mid, to), Total(log, from, mid))
  {
    if log != [] {
      var before, e := log[..|log| - 1], log[|log| - 1];
      TotalSplits(before, from, mid, to);
      MergeIncludes(Total(before, mid, to), Total(before, from, mid), e, from, mid, to);
    } else {
      MergeWithBlank(Total(log, mid, to));
    }
  }

  lemma RotateSummarizes(r: Ring, d: int, log: seq<Event>)
    requires d > 0 && |r.slots| > 0 && Summarizes(r, d, log)
    ensures Summarizes(Rotate(r, d), d, log)
  {
    var r' := Rotate(r, d);
    forall j | 0 <= j < |r'.slots|
      ensures r'.slots[j] == Total(log, Opens(r'.headTime, j + 1, d), Opens(r'.headTime, j, d))
    {
      OpensInOrder(r.headTime, j, d);
      if j == 0 {
        TotalOfNone(log, r'.headTime, r'.headTime + d);
      } else {
        assert r'.slots[j] == r.slots[j - 1];
        OpensInOrder(r.headTime, j - 1, d);
      }
    }
  }

  lemma {:induction false} RotateBySummarizes(r: Ring, d: int, log: seq<Event>, k: nat)
    requires d > 0 && |r.slots| > 0 && Summarizes(r, d, log)
    ensures Summarizes(RotateBy(r, d, k), d, log)
  {
    if k > 0 {
      RotateBySummarizes(r, d, log, k - 1);
      RotateSummarizes(RotateBy(r, d, k - 1), d, log);
    }
  }

  lemma LogIntoHead(r: Ring, d: int, log: seq<Event>, e: Event)
    requires d > 0 && |r.slots| > 0 && Summarizes(r, d, log)
    requires r.headTime <= e.at < r.headTime + d
    ensures Summarizes(r.(slots := r.slots[0 := AddTo(r.slots[0], e.count, e.duration)]), d, log + [e])
  {
    var r' := r.(slots := r.slots[0 := AddTo(r.slots[0], e.count, e.duration)]);
    forall j | 0 <= j < |r'.slots|
      ensures r'.slots[j] == Total(log + [e], Opens(r'.headTime, j + 1, d), Opens(r'.headTime, j, d))
    {
      assert (log + [e])[..|log|] == log;
      assert r.slots[j] == Total(log, Opens(r.headTime, j + 1, d), Opens(r.headTime, j, d));
      if j > 0 {
        OpensInOrder(r.headTime, j - 1, d);
      }
    }
  }

  lemma AdvanceSummarizes(r: Ring, d: int, createdAt: int, log: seq<Event>, now: int)
    requires d > 0 && |r.slots| > 0 && r.headTime <= now
    requires Aligned(r.headTime, createdAt, d) && Summarizes(r, d, log)
    ensures var r' := Advance(r, d, now);
            && Summarizes(r', d, log)
            && Aligned(r'.headTime, createdAt, d)
            && r'.headTime <= now < r'.headTime + d
  {
    RotateBySummarizes(r, d, log, Steps(r, d, now));
    AdvanceRestoresHead(r, d, now, createdAt);
  }

  /** Any sequence of calls at nondecreasing times leaves the ring an exact summary of the log. */
  lemma {:induction false} PlaySummarizes(createdAt: int, d: int, windowBuckets: nat, calls: seq<Call>)
    requires d > 0 && Nondecreasing(createdAt, calls)
    ensures var r := Play(Created(windowBuckets, createdAt), d, calls);
            && Summarizes(r, d, Log(calls))
            && Aligned(r.headTime, createdAt, d)
            && r.headTime <= LastTime(createdAt, calls)
  {
    if calls != [] {
      var earlier, last := calls[..|calls| - 1], calls[|calls| - 1];
      PlaySummarizes(createdAt, d, windowBuckets, earlier);
      var r := Play(Created(windowBuckets, createdAt), d, earlier);
      AdvanceSummarizes(r, d, createdAt, Log(earlier), TimeOf(last));
      if last.AddCall? {
        LogIntoHead(Advance(r, d, TimeOf(last)), d, Log(earlier), last.event);
      }
    }
  }

  /** The newest k buckets hold precisely the events since their interval opened. */
  lemma {:induction false} NewestIsTotal(r: Ring, d: int, log: seq<Event>, k: nat)
    requires d > 0 && Summarizes(r, d, log) && k <= |r.slots|
    ensures Newest(r.slots, k) == Total(log, Opens(r.headTime, k, d), r.headTime + d)
    decreases k
  {
    hide Summarizes, Total, Merge;
    if k == 0 {
      TotalOfNone(log, r.headTime + d, r.headTime + d);
    } else {
      NewestIsTotal(r, d, log, k - 1);
      NewestOneMore(r, d, log, k - 1);
    }
  }

  lemma NewestOneMore(r: Ring, d: int, log: seq<Event>, j: nat)
    requires d > 0 && Summarizes(r, d, log) && j < |r.slots|
    requires Newest(r.slots, j) == Total(log, Opens(r.headTime, j, d), r.headTime + d)
    ensures Newest(r.slots, j + 1) == Total(log, Opens(r.headTime, j + 1, d), r.headTime + d)
  {
    OpensInOrder(r.headTime, j, d);
    assert r.slots[j] == Total(log, Opens(r.headTime, j + 1, d), Opens(r.headTime, j, d));
    TotalSplits(log, Opens(r.headTime, j + 1, d), Opens(r.headTime, j, d), r.headTime + d);
  }

  lemma {:induction false} TotalIgnoresTheFuture(log: seq<Event>, from: int, to: int, to': int)
    requires forall e :: e in log ==> e.at < to && e.at < to'
    ensures Total(log, from, to) == Total(log, from, to')
  {
    if log != [] {
      assert log[|log| - 1] in log;
      forall e | e in log[..|log| - 1] ensures e.at < to && e.at < to' {
        assert e in log;
      }
      TotalIgnoresTheFuture(log[..|log| - 1], from, to, to');
    }
  }

  /**
   What the ring answers for a window, in terms of the log.  With k the number of buckets scanned, it is the total
   of the events since `cutoff`, where cutoff is headTime - (k-1)*d.  For a window shorter than a bucket that is
   nothing; for one within the ring's span, cutoff lies after now - window by less than two buckets; for a longer one
   it is where the oldest bucket opened.
  */
  ghost predicate AnswersFromLog(r: Ring, d: int, log: seq<Event>, now: int, window: int)
    requires d > 0
  {
    var k := Scanned(window, d, |r.slots|);
    && Newest(r.slots, k) == Total(log, r.headTime - (k - 1) * d, now + 1)
    && CutoffFits(r.headTime, now, window, d, |r.slots|, k)
  }

  /** Where the cutoff lies for k of n buckets scanned. */
  predicate CutoffFits(headTime: int, now: int, window: int, d: int, n: nat, k: nat) {
    var cutoff := headTime - (k - 1) * d;
    && (window < d ==> k == 0 && cutoff > now)
    && (0 <= window < n * d ==> now - window < cutoff < now - window + 2 * d)
    && (window >= n * d ==> k == n)
  }

  /** The ring after any calls, advanced to the time of a query. */
  function Asked(createdAt: int, d: int, windowBuckets: nat, calls: seq<Call>, now: int): Ring
    requires d > 0
  {
    Advance(Play(Created(windowBuckets, createdAt), d, calls), d, now)
  }

  /** Main result.  Any window, asked for at any time after any sequence of calls, is answered from the log. */
  lemma AnyWindowCountsTheLog(createdAt: int, d: int, windowBuckets: nat, calls: seq<Call>, now: int, window: int)
    requires d > 0 && Nondecreasing(createdAt, calls) && LastTime(createdAt, calls) <= now
    ensures var r := Asked(createdAt, d, windowBuckets, calls, now);
            && r.headTime <= now < r.headTime + d && |r.slots| == windowBuckets + 1
            && AnswersFromLog(r, d, Log(calls), now, window)
  {
    hide AnswersFromLog, Summarizes, Aligned, Nondecreasing, Log, Steps;
    var before := Play(Created(windowBuckets, createdAt), d, calls);
    PlaySummarizes(createdAt, d, windowBuckets, calls);
    AdvanceSummarizes(before, d, createdAt, Log(calls), now);
    LogWithinLastTime(createdAt, calls);
    WindowOfSummary(Advance(before, d, now), d, Log(calls), now, window);
  }

  /**
   For a window of k whole buckets, k <= maxWindow/d, all k are scanned: every event at or after now - window + d
   is in, and every event at or before now - window is out.
  */
  lemma WindowCountsTheLog(createdAt: int, d: int, windowBuckets: nat, calls: seq<Call>, now: int, k: nat)
    requires d > 0 && Nondecreasing(createdAt, calls) && LastTime(createdAt, calls) <= now
    requires k <= windowBuckets
    ensures var r := Asked(createdAt, d, windowBuckets, calls, now);
            var window := k * d;
            var cutoff := r.headTime - (k - 1) * d;
            && Scanned(window, d, |r.slots|) == k
            && now - window < cutoff <= now - window + d
            && Newest(r.slots, k) == Total(Log(calls), cutoff, now + 1)
  {
    hide Asked, Nondecreasing, Log;
    WholeBuckets(k, d);
    AnyWindowCountsTheLog(createdAt, d, windowBuckets, calls, now, k * d);
    CutoffWithinOneBucket(Asked(createdAt, d, windowBuckets, calls, now).headTime, now, k, d);
  }

  lemma WindowOfSummary(r: Ring, d: int, log: seq<Event>, now: int, window: int)
    requires d > 0 && Summarizes(r, d, log) && r.headTime <= now < r.headTime + d
    requires forall e :: e in log ==> e.at <= now
    ensures AnswersFromLog(r, d, log, now, window)
  {
    hide Summarizes, Newest, Total, CutoffFits;
    ScannedFits(r.headTime, now, window, d, |r.slots|);
    NewestSince(r, d, log, now, Scanned(window, d, |r.slots|));
  }

  lemma ScannedFits(headTime: int, now: int, window: int, d: int, n: nat)
    requires d > 0 && headTime <= now < headTime + d
    ensures Scanned(window, d, n) <= n && CutoffFits(headTime, now, window, d, n, Scanned(window, d, n))
  {
    ScannedBuckets(window, d, n);
    hide Scanned;
    CutoffOfWindow(headTime, now, window, Scanned(window, d, n), d);
  }

  lemma NewestSince(r: Ring, d: int, log: seq<Event>, now: int, k: nat)
    requires d > 0 && Summarizes(r, d, log) && r.headTime <= now < r.headTime + d
    requires k <= |r.slots| && forall e :: e in log ==> e.at <= now
    ensures Newest(r.slots, k) == Total(log, r.headTime - (k - 1) * d, now + 1)
  {
    hide Newest, Total;
    NewestIsTotal(r, d, log, k);
    TotalIgnoresTheFuture(log, Opens(r.headTime, k, d), r.headTime + d, now + 1);
    OpensAt(r.headTime, k, d);
  }

  lemma ScannedBuckets(window: int, d: int, n: nat)
    requires d > 0
    ensures var k := Scanned(window, d, n);
            && k <= n
            && (window < d ==> k == 0)
            && (0 <= window < n * d ==> k * d <= window < k * d + d)
            && (window >= n * d ==> k == n)
  {
    var q := TruncDiv(window, d);
    assert n * d >= 0;
    if window >= 0 {
      TruncDivBounds(window, d);
      hide TruncDiv;
      QuotientReaches(q, n, window, d);
      QuotientReaches(q, 1, window, d);
    }
  }

  /** The quotient reaches n exactly when the window covers n buckets. */
  lemma QuotientReaches(q: int, n: int, window: int, d: int)
    requires d > 0 && q * d <= window < q * d + d
    ensures q >= n <==> window >= n * d
  {
    if q >= n {
      MulOrder(n, q, d);
    } else {
      MulOrder(q + 1, n, d);
      assert (q + 1) * d == q * d + d;
    }
  }

  lemma MulOrder(x: int, y: int, d: int)
    requires d > 0 && x <= y
    ensures x * d <= y * d
  {
  }

  lemma CutoffOfWindow(headTime: int, now: int, window: int, k: nat, d: int)
    requires headTime <= now < headTime + d
    ensures k == 0 ==> headTime - (k - 1) * d > now
    ensures k * d <= window < k * d + d ==> now - window < headTime - (k - 1) * d < now - window + 2 * d
  {
    assert (k - 1) * d == k * d - d;
  }

  lemma CutoffWithinOneBucket(headTime: int, now: int, k: nat, d: int)
    requires headTime <= now < headTime + d
    ensures now - k * d < headTime - (k - 1) * d <= now - k * d + d
  {
    assert (k - 1) * d == k * d - d;
  }

  lemma WholeBuckets(k: nat, d: int)
    requires d > 0
    ensures TruncDiv(k * d, d) == k
  {
    var q := TruncDiv(k * d, d);
    assert k * d >= 0;
    TruncDivBounds(k * d, d);
    hide TruncDiv;
    QuotientReaches(q, k, k * d, d);
    QuotientReaches(q, k + 1, k * d, d);
  }

  lemma {:induction false} LogWithinLastTime(createdAt: int, calls: seq<Call>)
    requires Nondecreasing(createdAt, calls)
    ensures forall e :: e in Log(calls) ==> e.at <= LastTime(createdAt, calls)
  {
    if calls != [] {
      LogWithinLastTime(createdAt, calls[..|calls| - 1]);
    }
  }

  // ------------------------------------------------------------ in plain numbers

  /** The event lies in [from, to]. */
  predicate Falls(e: Event, from: int, to: int) {
    from <= e.at <= to
  }

  function SumOfCounts(log: seq<Event>, from: int, to: int): int {
    if log == [] then 0
    else
      var e := log[|log| - 1];
      SumOfCounts(log[..|log| - 1], from, to) + if Falls(e, from, to) then e.count else 0
  }

  function SumOfDurations(log: seq<Event>, from: int, to: int): int {
    if log == [] then 0
    else
      var e := log[|log| - 1];
      SumOfDurations(log[..|log| - 1], from, to) + if Falls(e, from, to) then e.duration else 0
  }

  function NumberOf(log: seq<Event>, from: int, to: int): int {
    if log == [] then 0
    else NumberOf(log[..|log| - 1], from, to) + if Falls(log[|log| - 1], from, to) then 1 else 0
  }

  lemma {:induction false} TotalInPlainNumbers(log: seq<Event>, from: int, to: int)
    ensures Total(log, from, to + 1).counts == Bucket(SumOfCounts(log, from, to), NumberOf(log, from, to))
    ensures Total(log, from, to + 1).durations == Bucket(SumOfDurations(log, from, to), NumberOf(log, from, to))
  {
    if log != [] {
      TotalInPlainNumbers(log[..|log| - 1], from, to);
    }
  }

  /** Since when a window asked for now reaches: whole buckets back from the end of the one in progress. */
  function Since(createdAt: int, d: int, numBuckets: nat, window: int, now: int): int
    requires d > 0
  {
    var headTime := createdAt + (now - createdAt) / d * d;
    var buckets := if window < 0 then 0 else if window / d < numBuckets then window / d else numBuckets;
    headTime + d - buckets * d
  }

  /** The reported periods are the sums over the events of the log in [since, now], with their number. */
  predicate Reports(
    log: seq<Event>, since: int, now: int, window: int, createdAt: int, counts: Period, durations: Period)
  {
    && counts.sum == SumOfCounts(log, since, now) && durations.sum == SumOfDurations(log, since, now)
    && counts.count == durations.count == NumberOf(log, since, now)
    && counts.startTime == durations.startTime
    && counts.startTime >= now - window && counts.startTime >= createdAt
    && (counts.startTime == now - window || counts.startTime == createdAt)
    && counts.endTime == durations.endTime == now
  }

  lemma OpenedAt(headTime: int, createdAt: int, d: int, now: int)
    requires d > 0 && Aligned(headTime, createdAt, d) && headTime <= now < headTime + d
    ensures createdAt + (now - createdAt) / d * d == headTime
  {
    var q, p := (headTime - createdAt) / d, (now - createdAt) / d;
    assert headTime - createdAt == q * d;
    assert (q + 1) * d == q * d + d;
    QuotientReaches(p, q, now - createdAt, d);
    QuotientReaches(p, q + 1, now - createdAt, d);
  }

  lemma ScannedPlainly(window: int, d: int, n: nat)
    requires d > 0
    ensures Scanned(window, d, n) == if window < 0 then 0 else if window / d < n then window / d else n
  {
  }

  lemma HeadOfAsked(createdAt: int, d: int, windowBuckets: nat, calls: seq<Call>, now: int)
    requires d > 0 && Nondecreasing(createdAt, calls) && LastTime(createdAt, calls) <= now
    ensures Asked(createdAt, d, windowBuckets, calls, now).headTime == createdAt + (now - createdAt) / d * d
  {
    hide Summarizes, Log, Nondecreasing;
    PlaySummarizes(createdAt, d, windowBuckets, calls);
    AdvanceSummarizes(Play(Created(windowBuckets, createdAt), d, calls), d, createdAt, Log(calls), now);
    OpenedAt(Asked(createdAt, d, windowBuckets, calls, now).headTime, createdAt, d, now);
  }

  lemma SinceIsCutoff(createdAt: int, d: int, numBuckets: nat, window: int, now: int, headTime: int)
    requires d > 0 && headTime == createdAt + (now - createdAt) / d * d
    ensures headTime - (Scanned(window, d, numBuckets) - 1) * d == Since(createdAt, d, numBuckets, window, now)
  {
    ScannedPlainly(window, d, numBuckets);
    var k := Scanned(window, d, numBuckets);
    assert (k - 1) * d == k * d - d;
  }

  /** Main result.  After any calls at nondecreasing times every window is answered with the plain sums of the log. */
  lemma WindowIsPlainSums(createdAt: int, d: int, windowBuckets: nat, calls: seq<Call>, now: int, window: int)
    requires d > 0 && Nondecreasing(createdAt, calls + [QueryCall(now)])
    ensures var r := Asked(createdAt, d, windowBuckets, calls, now);
            var total := Newest(r.slots, Scanned(window, d, |r.slots|));
            var since := Since(createdAt, d, windowBuckets + 1, window, now);
            Reports(Log(calls + [QueryCall(now)]), since, now, window, createdAt,
                    Answer(total.counts, window, now, createdAt), Answer(total.durations, window, now, createdAt))
  {
    assert (calls + [QueryCall(now)])[..|calls|] == calls;
    assert Nondecreasing(createdAt, calls) && LastTime(createdAt, calls) <= now;
    assert Log(calls + [QueryCall(now)]) == Log(calls);
    AnyWindowCountsTheLog(createdAt, d, windowBuckets, calls, now, window);
    HeadOfAsked(createdAt, d, windowBuckets, calls, now);
    hide Asked, Nondecreasing, Log, Since, CutoffFits, Newest, Scanned;
    var headTime := Asked(createdAt, d, windowBuckets, calls, now).headTime;
    SinceIsCutoff(createdAt, d, windowBuckets + 1, window, now, headTime);
    TotalInPlainNumbers(Log(calls), Since(createdAt, d, windowBuckets + 1, window, now), now);
    hide Total, SumOfCounts, SumOfDurations, NumberOf;
  }

  lemma WindowsArePlainSums(createdAt: int, d: int, windowBuckets: nat, calls: seq<Call>, now: int,
                            windows: seq<int>, counts: seq<Period>, durations: seq<Period>)
    requires d > 0 && Nondecreasing(createdAt, calls + [QueryCall(now)]) && |counts| == |durations| == |windows|
    requires var r := Asked(createdAt, d, windowBuckets, calls, now);
             forall i :: 0 <= i < |windows| ==>
               var total := Newest(r.slots, Scanned(windows[i], d, |r.slots|));
               && counts[i] == Answer(total.counts, windows[i], now, createdAt)
               && durations[i] == Answer(total.durations, windows[i], now, createdAt)
    ensures forall i :: 0 <= i < |windows| ==>
              var since := Since(createdAt, d, windowBuckets + 1, windows[i], now);
              Reports(Log(calls + [QueryCall(now)]), since, now, windows[i], createdAt, counts[i], durations[i])
  {
    hide Newest, Nondecreasing, Log, Since, Reports, Asked;
    forall i | 0 <= i < |windows|
      ensures var since := Since(createdAt, d, windowBuckets + 1, windows[i], now);
              Reports(Log(calls + [QueryCall(now)]), since, now, windows[i], createdAt, counts[i], durations[i])
    {
      WindowIsPlainSums(createdAt, d, windowBuckets, calls, now, windows[i]);
    }
  }
}
