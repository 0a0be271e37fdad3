/**
 The scoring of libs/selector/balanced_selector.go: the score computed device by device ranks the
 devices exactly as penalty times projected load does, and what choosing the least of it means
 for load balance.
*/
module Scoring {
  import opened Basics
  import opened History
  import opened SelectorModel

  /** The score as the selector computes it, from the totals over all eligible devices. */
  function Score(d: Dev, weight: int, now: int, totalCapacity: int, projectedTotalWeight: int): real
    requires |d.seen| > 0 && totalCapacity > 0 && projectedTotalWeight > 0
  {
    var deviceCapacity := |d.seen| * MAXIMUM_WEIGHT;
    var projected := (d.currentWeight + weight) as real / deviceCapacity as real;
    var ideal := Ideal(deviceCapacity as real, totalCapacity as real, projectedTotalWeight as real);
    IdealIsShared(deviceCapacity as real, totalCapacity as real, projectedTotalWeight as real);
    var score := 100.0 * projected / ideal;
    match d.lastSelection
    case Some(t) =>
      if now - t < SCORE_TOTAL_PERIOD
      then score * 10.0 * (SCORE_BUCKETS - TruncDiv(now - t, SCORE_BUCKET_PERIOD)) as real
      else score
    case None => score
  }

  function Ideal(capacity: real, totalCapacity: real, projectedTotal: real): real
    requires capacity > 0.0 && totalCapacity > 0.0
  {
    capacity / totalCapacity * projectedTotal / capacity
  }

  /** The ideal ratio of weight to capacity is the same for every device. */
  lemma IdealIsShared(capacity: real, totalCapacity: real, projectedTotal: real)
    requires capacity > 0.0 && totalCapacity > 0.0 && projectedTotal > 0.0
    ensures Ideal(capacity, totalCapacity, projectedTotal) == projectedTotal / totalCapacity > 0.0
  {
    var share := capacity / totalCapacity;
    assert share * totalCapacity == capacity;
    var r := projectedTotal / totalCapacity;
    assert r * totalCapacity == projectedTotal;
    assert share * projectedTotal == share * (r * totalCapacity) == (share * totalCapacity) * r == capacity * r;
    DivideBack(capacity, r);
    Positive(projectedTotal, totalCapacity);
  }

  lemma DivideBack(a: real, b: real)
    requires a != 0.0
    ensures a * b / a == b
  {
    assert (a * b / a) * a == a * b;
  }

  lemma Positive(a: real, b: real)
    requires a > 0.0 && b > 0.0
    ensures a / b > 0.0
  {
    assert (a / b) * b == a;
  }

  function Factor(totalCapacity: int, projectedTotalWeight: int): real
    requires totalCapacity > 0 && projectedTotalWeight > 0
  {
    Positive(projectedTotalWeight as real, totalCapacity as real);
    100.0 / (projectedTotalWeight as real / totalCapacity as real)
  }

  /** A device's score is its rank times one positive factor common to all devices. */
  lemma ScoreIsScaledRank(d: Dev, weight: int, now: int, totalCapacity: int, projectedTotalWeight: int)
    requires |d.seen| > 0 && totalCapacity > 0 && projectedTotalWeight > 0
    ensures var factor := Factor(totalCapacity, projectedTotalWeight);
            factor > 0.0 && Score(d, weight, now, totalCapacity, projectedTotalWeight) == factor * Rank(d, weight, now)
  {
    var ideal := projectedTotalWeight as real / totalCapacity as real;
    Positive(projectedTotalWeight as real, totalCapacity as real);
    Positive(100.0, ideal);
    IdealIsShared((|d.seen| * MAXIMUM_WEIGHT) as real, totalCapacity as real, projectedTotalWeight as real);
    var load := Load(d, weight);
    var p := Penalty(d, now) as real;
    var factor := Factor(totalCapacity, projectedTotalWeight);
    assert factor * ideal == 100.0;
    Rearrange(load, ideal, factor);
    Reassociate(factor, load, p);
    var score := Score(d, weight, now, totalCapacity, projectedTotalWeight);
    if d.lastSelection.Some? && now - d.lastSelection.value < SCORE_TOTAL_PERIOD {
      var m := (SCORE_BUCKETS - TruncDiv(now - d.lastSelection.value, SCORE_BUCKET_PERIOD)) as real;
      assert p == 10.0 * m;
      assert score == factor * load * 10.0 * m;
      Reassociate3(factor * load, m);
    } else {
      assert p == 1.0;
      assert score == factor * load;
    }
  }

  lemma Rearrange(load: real, ideal: real, factor: real)
    requires ideal > 0.0 && factor * ideal == 100.0
    ensures 100.0 * load / ideal == factor * load
  {
    assert 100.0 * load == ideal * (factor * load);
    DivideBack(ideal, factor * load);
  }

  lemma Reassociate(a: real, b: real, c: real)
    ensures a * (c * b) == a * b * c
  {
  }

  lemma Reassociate3(x: real, m: real)
    ensures x * 10.0 * m == x * (10.0 * m)
  {
  }

  /** So comparing scores is comparing ranks. */
  lemma ScoresCompareAsRanks(d: Dev, e: Dev, weight: int, now: int, totalCapacity: int, projectedTotalWeight: int)
    requires |d.seen| > 0 && |e.seen| > 0 && totalCapacity > 0 && projectedTotalWeight > 0
    ensures Score(d, weight, now, totalCapacity, projectedTotalWeight)
              <= Score(e, weight, now, totalCapacity, projectedTotalWeight)
       <==> Rank(d, weight, now) <= Rank(e, weight, now)
  {
    var f, s1, r1 := ScoreAndRank(d, weight, now, totalCapacity, projectedTotalWeight);
    var f2, s2, r2 := ScoreAndRank(e, weight, now, totalCapacity, projectedTotalWeight);
    CompareVia(f, s1, r1, s2, r2);
  }

  lemma ScoreAndRank(d: Dev, weight: int, now: int, totalCapacity: int, projectedTotalWeight: int)
    returns (f: real, score: real, rank: real)
    requires |d.seen| > 0 && totalCapacity > 0 && projectedTotalWeight > 0
    ensures f == Factor(totalCapacity, projectedTotalWeight) > 0.0
    ensures score == Score(d, weight, now, totalCapacity, projectedTotalWeight)
    ensures rank == Rank(d, weight, now)
    ensures score == f * rank
  {
    ScoreIsScaledRank(d, weight, now, totalCapacity, projectedTotalWeight);
    f, rank := Factor(totalCapacity, projectedTotalWeight), Rank(d, weight, now);
    score := Score(d, weight, now, totalCapacity, projectedTotalWeight);
  }

  lemma CompareVia(f: real, s1: real, r1: real, s2: real, r2: real)
    requires f > 0.0 && s1 == f * r1 && s2 == f * r2
    ensures s1 <= s2 <==> r1 <= r2
  {
    ScaledCompare(f, r1, r2);
  }

  lemma ScaledCompare(f: real, x: real, y: real)
    requires f > 0.0
    ensures f * x <= f * y <==> x <= y
  {
    assert f * y - f * x == f * (y - x);
    assert y - x >= 0.0 ==> f * (y - x) >= 0.0;
    assert y - x < 0.0 ==> f * (y - x) < 0.0;
  }

  /** While the clock does not run backwards the penalty is 1, or 10 to 200, and only falls as time passes. */
  lemma PenaltyFalls(d: Dev, now: int, later: int)
    requires d.lastSelection.Some? ==> d.lastSelection.value <= now <= later
    ensures Penalty(d, now) == 1 || 10 <= Penalty(d, now) <= 200
    ensures d.lastSelection.Some? ==> Penalty(d, later) <= Penalty(d, now)
  {
  }

  /**
   A device just selected is penalised in full for half a minute, less and less for ten minutes, and then not
   at all.
  */
  lemma SelectionIsPenalized(d: Dev, weight: int, limit: Limit, now: int, later: int)
    requires |d.used| == MAXIMUM_WEIGHT + 1 && MINIMUM_WEIGHT <= weight <= MAXIMUM_WEIGHT
    requires d.queue != [] && d.queue[0] in d.seen && now <= later
    ensures var penalty := Penalty(Claim(d, weight, limit, now), later);
            && (penalty == 200 <==> later - now < SCORE_BUCKET_PERIOD)
            && (penalty == 1 <==> later - now >= SCORE_TOTAL_PERIOD)
            && (later - now < SCORE_TOTAL_PERIOD ==> 10 <= penalty <= 200)
  {
  }

  // ------------------------------------------------------------ load balance

  datatype Pool = Pool(weight: int, capacity: int)

  /** Current weight and capacity summed over a set of devices. */
  ghost function Pooled(s: Sel, ds: set<string>): Pool
    requires ds <= s.devices.Keys
  {
    if ds == {} then Pool(0, 0)
    else
      var d :| d in ds;
      var rest := Pooled(s, ds - {d});
      Pool(s.devices[d].currentWeight + rest.weight, Capacity(s.devices[d]) + rest.capacity)
  }

  /** The totals do not depend on the order of the devices. */
  lemma {:induction false} PooledSplits(s: Sel, ds: set<string>, d: string)
    requires ds <= s.devices.Keys && d in ds
    ensures var rest := Pooled(s, ds - {d});
            Pooled(s, ds) == Pool(s.devices[d].currentWeight + rest.weight, Capacity(s.devices[d]) + rest.capacity)
  {
    hide Capacity;
    var first :| first in ds && (var rest := Pooled(s, ds - {first});
      Pooled(s, ds) == Pool(s.devices[first].currentWeight + rest.weight, Capacity(s.devices[first]) + rest.capacity));
    if first != d {
      PooledSplits(s, ds - {first}, d);
      PooledSplits(s, ds - {d}, first);
      assert ds - {first} - {d} == ds - {d} - {first};
    }
  }

  lemma PooledNone(s: Sel)
    ensures Pooled(s, {}) == Pool(0, 0)
  {
  }

  /** One more device taken off those still to come. */
  lemma PooledOneMore(s: Sel, ds: set<string>, todo: set<string>, d: string)
    requires ds <= s.devices.Keys && d in todo && d in s.devices
    ensures var before, after := Pooled(s, ds - todo), Pooled(s, ds - (todo - {d}));
            after == if d in ds
                     then Pool(s.devices[d].currentWeight + before.weight, Capacity(s.devices[d]) + before.capacity)
                     else before
  {
    hide Capacity;
    if d in ds {
      PooledSplits(s, ds - (todo - {d}), d);
      assert ds - (todo - {d}) - {d} == ds - todo;
    } else {
      assert ds - (todo - {d}) == ds - todo;
    }
  }

  lemma {:induction false} PooledPositive(s: Sel, ds: set<string>)
    requires Inv(s) && ds <= s.devices.Keys && forall d :: d in ds ==> s.devices[d].queue != []
    ensures Pooled(s, ds).weight >= 0 && Pooled(s, ds).capacity >= 0 && (ds != {} ==> Pooled(s, ds).capacity > 0)
  {
    hide Accounting;
    if ds != {} {
      var d :| d in ds;
      PooledSplits(s, ds, d);
      PooledPositive(s, ds - {d});
      WeightWithinCapacity(s.devices[d]);
    }
  }

  lemma CrossMultiply(a: real, b: real, c: real, d: real)
    requires b > 0.0 && d > 0.0
    ensures a / b <= c / d <==> a * d <= c * b
  {
    var x, y := a / b, c / d;
    assert x * b == a && y * d == c;
    assert a * d == x * (b * d) && c * b == y * (b * d);
    assert b * d > 0.0;
    ScaledCompare(b * d, x, y);
  }

  /** A load no larger than each one's is no larger than the pooled load. */
  lemma {:induction false} PooledLoad(s: Sel, ds: set<string>, p: Dev, weight: int)
    requires ds <= s.devices.Keys && |p.seen| > 0
    requires forall e :: e in ds ==> |s.devices[e].seen| > 0 && Load(p, weight) <= Load(s.devices[e], weight)
    ensures (p.currentWeight + weight) * Pooled(s, ds).capacity <= (Pooled(s, ds).weight + |ds| * weight) * Capacity(p)
    ensures ds != {} ==> Pooled(s, ds).capacity > 0
    ensures Pooled(s, ds).capacity >= 0
  {
    hide Capacity, Load, Pooled;
    if ds == {} {
      PooledNone(s);
    } else {
      var e :| e in ds;
      var rest, dev := Pooled(s, ds - {e}), s.devices[e];
      PooledSplits(s, ds, e);
      PooledLoad(s, ds - {e}, p, weight);
      LoadsCross(p, dev, weight);
      assert |ds| == |ds - {e}| + 1;
      PoolStep(p.currentWeight + weight, Capacity(p), Capacity(dev), dev.currentWeight, rest, |ds - {e}|, weight);
      CapacityIsPositive(dev);
    }
  }

  lemma CapacityIsPositive(d: Dev)
    requires |d.seen| > 0
    ensures Capacity(d) > 0
  {
  }

  lemma PoolStep(a: int, c: int, capacity: int, current: int, rest: Pool, n: int, weight: int)
    requires a * capacity <= (current + weight) * c && a * rest.capacity <= (rest.weight + n * weight) * c
    ensures a * (capacity + rest.capacity) <= (current + rest.weight + (n + 1) * weight) * c
  {
    var x, y := current + weight, rest.weight + n * weight;
    assert (n + 1) * weight == n * weight + weight;
    assert (x + y) * c == x * c + y * c;
    assert a * (capacity + rest.capacity) == a * capacity + a * rest.capacity;
  }

  lemma LoadsCross(p: Dev, e: Dev, weight: int)
    requires |p.seen| > 0 && |e.seen| > 0 && Load(p, weight) <= Load(e, weight)
    ensures (p.currentWeight + weight) * Capacity(e) <= (e.currentWeight + weight) * Capacity(p)
  {
    IntsCross(p.currentWeight + weight, Capacity(p), e.currentWeight + weight, Capacity(e));
  }

  lemma ProductsAsReals(a: int, b: int)
    ensures (a * b) as real == a as real * b as real
  {
  }

  lemma RankUnpenalized(d: Dev, weight: int, now: int)
    requires |d.seen| > 0 && (d.lastSelection.None? || now - d.lastSelection.value >= SCORE_TOTAL_PERIOD)
    ensures Rank(d, weight, now) == Load(d, weight)
  {
  }

  lemma IntsCross(a: int, b: int, c: int, d: int)
    requires b > 0 && d > 0
    ensures a as real / b as real <= c as real / d as real <==> a * d <= c * b
  {
    CrossMultiply(a as real, b as real, c as real, d as real);
    ProductsAsReals(a, d);
    ProductsAsReals(c, b);
  }

  ghost function EligibleIn(s: Sel, now: int): set<string> {
    set d | d in s.devices && Eligible(s.devices[d], s.limit, now)
  }

  /**
   Load bound: when no eligible device carries a penalty, the chosen one ends up no more loaded than
   all n eligible devices would be, pooled, with the new weight on every one of them.
   */
  lemma LoadBound(s: Sel, weight: int, now: int, pick: string)
    requires Best(s, weight, now, pick)
    requires forall d :: d in EligibleIn(s, now) ==>
               s.devices[d].lastSelection.None? || now - s.devices[d].lastSelection.value >= SCORE_TOTAL_PERIOD
    ensures var pool := Pooled(s, EligibleIn(s, now));
            && pool.capacity > 0
            && Load(s.devices[pick], weight)
                 <= (pool.weight + |EligibleIn(s, now)| * weight) as real / pool.capacity as real
  {
    var ds := EligibleIn(s, now);
    var p := s.devices[pick];
    assert pick in ds;
    forall e | e in ds ensures |s.devices[e].seen| > 0 && Load(p, weight) <= Load(s.devices[e], weight) {
      RankUnpenalized(p, weight, now);
      RankUnpenalized(s.devices[e], weight, now);
    }
    PooledLoad(s, ds, p, weight);
    IntsCross(p.currentWeight + weight, Capacity(p), Pooled(s, ds).weight + |ds| * weight, Pooled(s, ds).capacity);
  }
}
