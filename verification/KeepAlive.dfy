/**
 The keep-alive loop of libs/ws/wsconn.go: pings (RFC 6455, section 5.5.2), pongs (section
 5.5.3), and the ping and data timeouts.

 `Decides` says what one turn of the loop must do, in terms of deadlines; `Conn.TimeoutLoop`
 is the loop itself, proved to do that on every turn.  The lemmas below are about whole runs.
 Times and durations are integers (nanoseconds); the zero time is 0.
*/
module KeepAlive {
  import opened Basics

  datatype Error = ReadTimeout | PingWriteFailed | ReadDataTimeout

  datatype PingSettings = PingSettings(interval: int, timeout: int)

  const IDLE_WAKE := 3_600_000_000_000

  /** What one turn of the loop reads from the clock, the settings, the socket and the stats. */
  datatype Turn = Turn(
    now: int, ping: PingSettings, dataTimeout: int, pingWriteOk: bool,
    connectedAt: int, lastReceivedAt: int, lastPongAt: int)

  datatype Verdict = Dead(error: Error) | Sleep(wake: int)

  datatype Outcome = Outcome(verdict: Verdict, lastPing: int, pinged: bool)

  // ------------------------------------------------------------ pure helpers

  function LaterTime(a: int, b: int): (t: int)
    ensures t >= a && t >= b && (t == a || t == b)
  {
    if a > b then a else b
  }

  /** The smaller of two durations, where one that is not positive means "not scheduled". */
  function MinPositiveDuration(a: int, b: int): (m: int)
    ensures m > 0 <==> a > 0 || b > 0
    ensures a > 0 ==> m <= a
    ensures b > 0 ==> m <= b
    ensures m == a || m == b
    ensures (a <= 0 ==> m == b) && (a > 0 && b <= 0 ==> m == a)
  {
    if a <= 0 then b else if b <= 0 then a else if a < b then a else b
  }

  function LastData(t: Turn): int {
    LaterTime(t.connectedAt, t.lastReceivedAt)
  }

  function LastPongOrData(t: Turn): int {
    LaterTime(LastData(t), t.lastPongAt)
  }

  // ------------------------------------------------------------ what a turn decides

  predicate PingDue(lastPing: int, t: Turn) {
    t.ping.interval > 0 && t.now - lastPing >= t.ping.interval
  }

  predicate Expired(timeout: int, lastActivity: int, now: int) {
    timeout > 0 && now >= lastActivity + timeout
  }

  /** The deadlines in force after the turn's ping, if any, has gone out. */
  ghost function Deadlines(lastPing: int, t: Turn): set<int> {
    (if t.ping.interval > 0 then {lastPing + t.ping.interval} else {})
    + (if t.ping.timeout > 0 then {LastPongOrData(t) + t.ping.timeout} else {})
    + (if t.dataTimeout > 0 then {LastData(t) + t.dataTimeout} else {})
  }

  /** The loop wakes exactly at the earliest deadline, or after an hour when there is none. */
  ghost predicate WakesAtEarliest(deadlines: set<int>, now: int, wake: int) {
    if deadlines == {} then wake == IDLE_WAKE
    else now + wake in deadlines && forall at :: at in deadlines ==> now + wake <= at
  }

  ghost predicate Decides(lastPing: int, t: Turn, o: Outcome) {
    && o.pinged == (PingDue(lastPing, t) && t.pingWriteOk)
    && o.lastPing == (if o.pinged then t.now else lastPing)
    && (if PingDue(lastPing, t) && !t.pingWriteOk then o.verdict == Dead(PingWriteFailed)
        else if Expired(t.ping.timeout, LastPongOrData(t), t.now) then o.verdict == Dead(ReadTimeout)
        else if Expired(t.dataTimeout, LastData(t), t.now) then o.verdict == Dead(ReadDataTimeout)
        else o.verdict.Sleep? && WakesAtEarliest(Deadlines(o.lastPing, t), t.now, o.verdict.wake))
  }

  /** The loop's lastPing as turn i begins. */
  function PingBefore(start: int, outcomes: seq<Outcome>, i: nat): int
    requires i <= |outcomes|
  {
    if i == 0 then start else outcomes[i - 1].lastPing
  }

  /** A run: every outcome but the last is a sleep, each turn starts with the lastPing the one before left. */
  ghost predicate IsRun(start: int, turns: seq<Turn>, outcomes: seq<Outcome>) {
    && |outcomes| <= |turns|
    && (forall i :: 0 <= i < |outcomes| ==> Decides(PingBefore(start, outcomes, i), turns[i], outcomes[i]))
    && (forall i :: 0 <= i < |outcomes| - 1 ==> outcomes[i].verdict.Sleep?)
  }

  lemma RunExtends(start: int, turns: seq<Turn>, outcomes: seq<Outcome>, o: Outcome)
    requires |outcomes| < |turns| && IsRun(start, turns, outcomes)
    requires forall i :: 0 <= i < |outcomes| ==> outcomes[i].verdict.Sleep?
    requires Decides(PingBefore(start, outcomes, |outcomes|), turns[|outcomes|], o)
    ensures IsRun(start, turns, outcomes + [o])
  {
    var outs := outcomes + [o];
    forall i | 0 <= i < |outs| ensures Decides(PingBefore(start, outs, i), turns[i], outs[i]) {
      assert PingBefore(start, outs, i) == PingBefore(start, outcomes, i);
      if i < |outcomes| {
        assert outs[i] == outcomes[i];
        assert Decides(PingBefore(start, outcomes, i), turns[i], outcomes[i]);
      } else {
        assert i == |outcomes| && outs[i] == o;
      }
    }
  }

  class Conn {
    var readErr: Option<Error>

    constructor ()
      ensures readErr == None
    {
      readErr := None;
    }

    /** The error stored first is the one that stays. */
    method StoreReadErr(err: Error)
      modifies this
      ensures readErr == if old(readErr) == None then Some(err) else old(readErr)
    {
      if readErr == None {
        readErr := Some(err);
      }
    }

    method CheckTimeout(timeout: int, lastActivity: int, now: int, deadErr: Error) returns (remaining: int, dead: bool)
      modifies this
      ensures dead <==> Expired(timeout, lastActivity, now)
      ensures dead ==> remaining == -1 && readErr == if old(readErr) == None then Some(deadErr) else old(readErr)
      ensures !dead ==> readErr == old(readErr)
      ensures !dead ==> remaining == if timeout <= 0 then -1 else lastActivity + timeout - now
      ensures !dead && timeout > 0 ==> remaining > 0
    {
      if timeout <= 0 {
        return -1, false;
      }
      var deadline := lastActivity + timeout;
      if now >= deadline {
        StoreReadErr(deadErr);
        return -1, true;
      }
      return deadline - now, false;
    }

    /**
     The loop.  `turns` scripts what its surroundings show it, turn by turn; the loop ends when it
     declares the connection dead or, as on cancellation, when the script ends.
     */
    method TimeoutLoop(start: int, turns: seq<Turn>) returns (outcomes: seq<Outcome>)
      requires readErr == None
      modifies this
      ensures IsRun(start, turns, outcomes)
      ensures |outcomes| < |turns| ==> |outcomes| > 0 && outcomes[|outcomes| - 1].verdict.Dead?
      ensures readErr == if |outcomes| > 0 && outcomes[|outcomes| - 1].verdict.Dead?
                         then Some(outcomes[|outcomes| - 1].verdict.error) else None
    {
      var lastPing := start;
      outcomes := [];
      while |outcomes| < |turns|
        invariant IsRun(start, turns, outcomes)
        invariant forall i :: 0 <= i < |outcomes| ==> outcomes[i].verdict.Sleep?
        invariant lastPing == PingBefore(start, outcomes, |outcomes|)
        invariant readErr == None
        decreases |turns| - |outcomes|
      {
        var t := turns[|outcomes|];
        var now := t.now;
        var nextPing := -1;
        var pinged := false;
        if t.ping.interval > 0 {
          var elapsed := now - lastPing;
          if elapsed >= t.ping.interval {
            if !t.pingWriteOk {
              StoreReadErr(PingWriteFailed);
              RunExtends(start, turns, outcomes, Outcome(Dead(PingWriteFailed), lastPing, false));
              outcomes := outcomes + [Outcome(Dead(PingWriteFailed), lastPing, false)];
              return;
            }
            lastPing := now;
            pinged := true;
            nextPing := t.ping.interval;
          } else {
            nextPing := t.ping.interval - elapsed;
          }
        }
        var lastData := LaterTime(t.connectedAt, t.lastReceivedAt);
        var lastPongOrData := LaterTime(lastData, t.lastPongAt);
        var wakePing, dead := CheckTimeout(t.ping.timeout, lastPongOrData, now, ReadTimeout);
        if dead {
          RunExtends(start, turns, outcomes, Outcome(Dead(ReadTimeout), lastPing, pinged));
          outcomes := outcomes + [Outcome(Dead(ReadTimeout), lastPing, pinged)];
          return;
        }
        var wakeData, deadData := CheckTimeout(t.dataTimeout, lastData, now, ReadDataTimeout);
        if deadData {
          RunExtends(start, turns, outcomes, Outcome(Dead(ReadDataTimeout), lastPing, pinged));
          outcomes := outcomes + [Outcome(Dead(ReadDataTimeout), lastPing, pinged)];
          return;
        }
        var wake := MinPositiveDuration(MinPositiveDuration(nextPing, wakePing), wakeData);
        if wake <= 0 {
          wake := IDLE_WAKE;
        }
        WakeIsEarliest(lastPing, t, nextPing, wakePing, wakeData, wake);
        RunExtends(start, turns, outcomes, Outcome(Sleep(wake), lastPing, pinged));
        outcomes := outcomes + [Outcome(Sleep(wake), lastPing, pinged)];
      }
    }
  }

  lemma WakeIsEarliest(lastPing: int, t: Turn, nextPing: int, wakePing: int, wakeData: int, wake: int)
    requires nextPing == if t.ping.interval > 0 then lastPing + t.ping.interval - t.now else -1
    requires wakePing == if t.ping.timeout > 0 then LastPongOrData(t) + t.ping.timeout - t.now else -1
    requires wakeData == if t.dataTimeout > 0 then LastData(t) + t.dataTimeout - t.now else -1
    requires t.ping.interval > 0 ==> nextPing > 0
    requires t.ping.timeout > 0 ==> wakePing > 0
    requires t.dataTimeout > 0 ==> wakeData > 0
    requires var m := MinPositiveDuration(MinPositiveDuration(nextPing, wakePing), wakeData);
             wake == if m <= 0 then IDLE_WAKE else m
    ensures WakesAtEarliest(Deadlines(lastPing, t), t.now, wake)
  {
    var ds := Deadlines(lastPing, t);
    if t.ping.interval > 0 {
      assert lastPing + t.ping.interval in ds;
    } else if t.ping.timeout > 0 {
      assert LastPongOrData(t) + t.ping.timeout in ds;
    } else if t.dataTimeout > 0 {
      assert LastData(t) + t.dataTimeout in ds;
    } else {
      assert ds == {};
    }
  }

  // ------------------------------------------------------------ deadline exactness

  /** A turn has exactly one outcome. */
  lemma DecisionIsUnique(lastPing: int, t: Turn, o1: Outcome, o2: Outcome)
    requires Decides(lastPing, t, o1) && Decides(lastPing, t, o2)
    ensures o1 == o2
  {
    if o1.verdict.Sleep? {
      var ds := Deadlines(o1.lastPing, t);
      assert WakesAtEarliest(ds, t.now, o1.verdict.wake) && WakesAtEarliest(ds, t.now, o2.verdict.wake);
    }
  }

  /** One turn: death by timeout is not early; the sleep is positive and passes no enabled deadline. */
  lemma DeathIsNeverEarly(lastPing: int, t: Turn, o: Outcome)
    requires Decides(lastPing, t, o)
    ensures o.verdict == Dead(ReadTimeout) ==> t.ping.timeout > 0 && t.now >= LastPongOrData(t) + t.ping.timeout
    ensures o.verdict == Dead(ReadDataTimeout) ==> t.dataTimeout > 0 && t.now >= LastData(t) + t.dataTimeout
    ensures o.verdict.Sleep? ==>
      && o.verdict.wake > 0
      && (t.ping.interval > 0 ==> t.now + o.verdict.wake <= o.lastPing + t.ping.interval)
      && (t.ping.timeout > 0 ==> t.now + o.verdict.wake <= LastPongOrData(t) + t.ping.timeout)
      && (t.dataTimeout > 0 ==> t.now + o.verdict.wake <= LastData(t) + t.dataTimeout)
  {
    if o.verdict.Sleep? {
      var ds := Deadlines(o.lastPing, t);
      assert t.ping.interval > 0 ==> o.lastPing + t.ping.interval in ds;
      assert t.ping.timeout > 0 ==> LastPongOrData(t) + t.ping.timeout in ds;
      assert t.dataTimeout > 0 ==> LastData(t) + t.dataTimeout in ds;
    }
  }

  /** Data counts for both activity times; a pong for one. */
  lemma LaterActivityCounts(t: Turn, pongAt: int, receivedAt: int)
    requires receivedAt >= t.lastReceivedAt && pongAt >= t.lastPongAt
    ensures LastData(t.(lastPongAt := pongAt)) == LastData(t)
    ensures LastPongOrData(t.(lastPongAt := pongAt)) == LaterTime(LastPongOrData(t), pongAt)
    ensures LastData(t.(lastReceivedAt := receivedAt)) == LaterTime(LastData(t), receivedAt)
    ensures LastPongOrData(t.(lastReceivedAt := receivedAt)) == LaterTime(LastPongOrData(t), receivedAt)
  {
  }

  /** A later activity only puts the wake-up off. */
  lemma WakesLater(lastPing: int, t: Turn, wake: int, t': Turn, wake': int)
    requires t'.now == t.now && SameSettings(t, t')
    requires LastData(t) <= LastData(t') && LastPongOrData(t) <= LastPongOrData(t')
    requires WakesAtEarliest(Deadlines(lastPing, t), t.now, wake)
    requires WakesAtEarliest(Deadlines(lastPing, t'), t.now, wake')
    ensures wake <= wake'
  {
    var ds, ds' := Deadlines(lastPing, t), Deadlines(lastPing, t');
    if t.ping.interval > 0 {
      assert lastPing + t.ping.interval in ds && lastPing + t.ping.interval in ds';
    }
    if t.ping.timeout > 0 {
      assert LastPongOrData(t) + t.ping.timeout in ds && LastPongOrData(t') + t.ping.timeout in ds';
    }
    if t.dataTimeout > 0 {
      assert LastData(t) + t.dataTimeout in ds && LastData(t') + t.dataTimeout in ds';
    }
  }

  /**
   A later pong changes nothing but the ping timeout: it never makes that timeout fire, and prevents it exactly when
   the pong itself is recent enough; the data timeout fires or not as before, except that it now shows where the ping
   timeout had been decided first; and the loop sleeps no shorter.
  */
  lemma PongResetsOnlyThePingTimeout(lastPing: int, t: Turn, o: Outcome, pongAt: int, o': Outcome)
    requires pongAt >= t.lastPongAt
    requires Decides(lastPing, t, o) && Decides(lastPing, t.(lastPongAt := pongAt), o')
    ensures o'.pinged == o.pinged && o'.lastPing == o.lastPing
    ensures o'.verdict == Dead(PingWriteFailed) <==> o.verdict == Dead(PingWriteFailed)
    ensures o'.verdict == Dead(ReadTimeout) <==>
            o.verdict == Dead(ReadTimeout) && t.now >= pongAt + t.ping.timeout
    ensures o'.verdict == Dead(ReadDataTimeout) <==>
            || o.verdict == Dead(ReadDataTimeout)
            || (o.verdict == Dead(ReadTimeout) && t.now < pongAt + t.ping.timeout
                && Expired(t.dataTimeout, LastData(t), t.now))
    ensures o.verdict.Sleep? ==> o'.verdict.Sleep? && o.verdict.wake <= o'.verdict.wake
  {
    var t' := t.(lastPongAt := pongAt);
    LaterActivityCounts(t, pongAt, t.lastReceivedAt);
    if o.verdict.Sleep? {
      WakesLater(o.lastPing, t, o.verdict.wake, t', o'.verdict.wake);
    }
  }

  /** Data received later makes neither timeout fire, and prevents each of them exactly when it is recent enough. */
  lemma DataResetsBothTimeouts(lastPing: int, t: Turn, o: Outcome, receivedAt: int, o': Outcome)
    requires receivedAt >= t.lastReceivedAt
    requires Decides(lastPing, t, o) && Decides(lastPing, t.(lastReceivedAt := receivedAt), o')
    ensures o'.pinged == o.pinged && o'.lastPing == o.lastPing
    ensures o'.verdict == Dead(ReadTimeout) <==>
            o.verdict == Dead(ReadTimeout) && t.now >= receivedAt + t.ping.timeout
    ensures o'.verdict == Dead(ReadDataTimeout) <==>
            && (|| o.verdict == Dead(ReadDataTimeout)
                || (o.verdict == Dead(ReadTimeout) && t.now < receivedAt + t.ping.timeout))
            && Expired(t.dataTimeout, LaterTime(LastData(t), receivedAt), t.now)
    ensures o.verdict.Sleep? ==> o'.verdict.Sleep? && o.verdict.wake <= o'.verdict.wake
  {
    var t' := t.(lastReceivedAt := receivedAt);
    LaterActivityCounts(t, t.lastPongAt, receivedAt);
    if o.verdict.Sleep? {
      WakesLater(o.lastPing, t, o.verdict.wake, t', o'.verdict.wake);
    }
  }

  // ------------------------------------------------------------ pings

  /** When the last ping before turn i was written, as the turns alone tell it. */
  function LastPingBefore(start: int, turns: seq<Turn>, i: nat): int
    requires i <= |turns|
  {
    if i == 0 then start else PingNext(LastPingBefore(start, turns, i - 1), turns[i - 1])
  }

  /** A ping goes out when the last one is an interval old and its write succeeds. */
  function PingNext(last: int, t: Turn): int {
    if t.ping.interval > 0 && t.now - last >= t.ping.interval && t.pingWriteOk then t.now else last
  }

  /** At turn i the last ping is an interval old or older. */
  predicate PingDueAt(start: int, turns: seq<Turn>, i: nat)
    requires i < |turns|
  {
    turns[i].ping.interval > 0 && turns[i].now >= LastPingBefore(start, turns, i) + turns[i].ping.interval
  }

  lemma PingOfTurn(start: int, turns: seq<Turn>, outcomes: seq<Outcome>, i: nat)
    requires IsRun(start, turns, outcomes) && i < |outcomes|
    ensures var lastPing, t, o := PingBefore(start, outcomes, i), turns[i], outcomes[i];
            var due := t.ping.interval > 0 && t.now >= lastPing + t.ping.interval;
            && (o.pinged <==> due && t.pingWriteOk)
            && (o.verdict == Dead(PingWriteFailed) <==> due && !t.pingWriteOk)
            && o.lastPing == PingNext(lastPing, t)
  {
    hide WakesAtEarliest, Deadlines;
    assert Decides(PingBefore(start, outcomes, i), turns[i], outcomes[i]);
  }

  lemma {:induction false} PingsAreTold(start: int, turns: seq<Turn>, outcomes: seq<Outcome>, i: nat)
    requires IsRun(start, turns, outcomes) && i <= |outcomes|
    ensures PingBefore(start, outcomes, i) == LastPingBefore(start, turns, i)
  {
    assert |outcomes| <= |turns|;
    hide IsRun, Decides, PingNext;
    if i > 0 {
      PingOfTurn(start, turns, outcomes, i - 1);
      PingsAreTold(start, turns, outcomes, i - 1);
    }
  }

  /**
   Pings over a run.  A turn writes a ping exactly if one is due and the write succeeds.  A turn that has one due and
   does not end the run for that has it written.  The run ends with PingWriteFailed exactly at the first turn at
   which a ping is due and its write fails.
  */
  lemma PingsAreWrittenWhenDue(start: int, turns: seq<Turn>, outcomes: seq<Outcome>, i: nat)
    requires IsRun(start, turns, outcomes) && i < |outcomes|
    ensures outcomes[i].pinged <==> PingDueAt(start, turns, i) && turns[i].pingWriteOk
    ensures outcomes[i].verdict == Dead(PingWriteFailed) <==> PingDueAt(start, turns, i) && !turns[i].pingWriteOk
    ensures outcomes[i].lastPing == LastPingBefore(start, turns, i + 1)
    ensures outcomes[i].verdict == Dead(PingWriteFailed) ==>
              i == |outcomes| - 1 && forall j :: 0 <= j < i ==> !(PingDueAt(start, turns, j) && !turns[j].pingWriteOk)
  {
    hide Decides, LastPingBefore;
    forall j: nat | j <= i
      ensures outcomes[j].pinged <==> PingDueAt(start, turns, j) && turns[j].pingWriteOk
      ensures outcomes[j].verdict == Dead(PingWriteFailed) <==> PingDueAt(start, turns, j) && !turns[j].pingWriteOk
    {
      PingsAreTold(start, turns, outcomes, j);
      PingOfTurn(start, turns, outcomes, j);
    }
    PingsAreTold(start, turns, outcomes, i + 1);
    forall j | 0 <= j < i ensures outcomes[j].verdict.Sleep? {
      assert j < |outcomes| - 1;
    }
  }

  predicate SameSettings(a: Turn, b: Turn) {
    a.ping == b.ping && a.dataTimeout == b.dataTimeout
  }

  /** Activity is only ever added. */
  predicate LaterActivity(a: Turn, b: Turn) {
    a.connectedAt == b.connectedAt && a.lastReceivedAt <= b.lastReceivedAt && a.lastPongAt <= b.lastPongAt
  }

  /**
   The timing of a run with late wake-ups and settings changes.  changes[i] is the time of the last change before
   turn i, the loop's own start being the first.  A change wakes the loop, which turns within `delay` of it; without
   one, the loop turns no later than `delay` after the wake-up it asked for.  Earlier turns are always possible.
  */
  ghost predicate Punctual(turns: seq<Turn>, outcomes: seq<Outcome>, changes: seq<int>, delay: int)
    requires |outcomes| <= |turns| == |changes|
  {
    && (turns != [] ==> turns[0].now <= changes[0] + delay)
    && forall i :: 0 <= i < |outcomes| - 1 ==>
         NextInTime(turns[i], outcomes[i], changes[i], turns[i + 1], changes[i + 1], delay)
  }

  ghost predicate NextInTime(t: Turn, o: Outcome, changed: int, t': Turn, changed': int, delay: int) {
    && t.now <= t'.now && LaterActivity(t, t') && changed <= changed'
    && (if changed' == changed
        then SameSettings(t, t') && (o.verdict.Sleep? ==> t'.now <= t.now + o.verdict.wake + delay)
        else t'.now <= changed' + delay)
  }

  /** No enabled timeout has run out. */
  predicate BeforeDeadlines(t: Turn) {
    && (t.ping.timeout > 0 ==> t.now < LastPongOrData(t) + t.ping.timeout)
    && (t.dataTimeout > 0 ==> t.now < LastData(t) + t.dataTimeout)
  }

  /**
   A timeout is reported no earlier than its deadline, and at most `delay` after it or after the last change of
   settings.
  */
  predicate DiesInTime(t: Turn, o: Outcome, changed: int, delay: int) {
    && (o.verdict == Dead(ReadTimeout) ==>
          var deadline := LastPongOrData(t) + t.ping.timeout;
          t.ping.timeout > 0 && deadline <= t.now <= LaterTime(deadline, changed) + delay)
    && (o.verdict == Dead(ReadDataTimeout) ==>
          var deadline := LastData(t) + t.dataTimeout;
          t.dataTimeout > 0 && deadline <= t.now <= LaterTime(deadline, changed) + delay)
  }

  lemma NextDiesInTime(lastPing: int, t: Turn, o: Outcome, changed: int, t': Turn, o': Outcome, changed': int,
                       delay: int)
    requires Decides(lastPing, t, o) && o.verdict.Sleep? && Decides(o.lastPing, t', o')
    requires NextInTime(t, o, changed, t', changed', delay)
    ensures DiesInTime(t', o', changed', delay)
  {
    DeathIsNeverEarly(lastPing, t, o);
  }

  /**
   Main result, deadline exactness over a run: a timeout declared at any turn lies between its deadline and one
   delay after it, or after the last change of settings where that is later, and at no earlier turn was an enabled
   timeout out.
  */
  lemma DeathIsExact(start: int, turns: seq<Turn>, outcomes: seq<Outcome>, changes: seq<int>, delay: int, n: nat)
    requires IsRun(start, turns, outcomes) && |changes| == |turns| && n < |outcomes|
    requires Punctual(turns, outcomes, changes, delay)
    ensures DiesInTime(turns[n], outcomes[n], changes[n], delay)
    ensures forall i :: 0 <= i < n ==> BeforeDeadlines(turns[i])
  {
    assert Decides(PingBefore(start, outcomes, n), turns[n], outcomes[n]);
    if n > 0 {
      assert Decides(PingBefore(start, outcomes, n - 1), turns[n - 1], outcomes[n - 1]);
      NextDiesInTime(PingBefore(start, outcomes, n - 1), turns[n - 1], outcomes[n - 1], changes[n - 1],
                     turns[n], outcomes[n], changes[n], delay);
    }
    forall i | 0 <= i < n ensures BeforeDeadlines(turns[i]) {
      assert Decides(PingBefore(start, outcomes, i), turns[i], outcomes[i]) && outcomes[i].verdict.Sleep?;
    }
  }

  // ------------------------------------------------------------ responsive peers survive

  /** Wake-ups come no later than `delay` after the time asked for; an early wake-up is always possible. */
  ghost predicate Timely(turns: seq<Turn>, outcomes: seq<Outcome>, delay: int)
    requires |outcomes| == |turns|
  {
    forall i :: 0 <= i < |turns| - 1 && outcomes[i].verdict.Sleep? ==>
      turns[i].now <= turns[i + 1].now <= turns[i].now + outcomes[i].verdict.wake + delay
  }

  /** Every ping sent is answered, visibly to any turn at or after `within` from its sending. */
  ghost predicate Answered(turns: seq<Turn>, outcomes: seq<Outcome>, within: int)
    requires |outcomes| == |turns|
  {
    forall i, j :: 0 <= i < j < |turns| && outcomes[i].pinged && turns[j].now >= turns[i].now + within ==>
      turns[j].lastPongAt >= turns[i].now
  }

  ghost predicate ActivityGrows(turns: seq<Turn>) {
    forall i, j :: 0 <= i < j < |turns| ==> LastPongOrData(turns[i]) <= LastPongOrData(turns[j])
  }

  /** The later of the last ping sent and an activity known from before the first turn. */
  ghost function LastProof(known: int, outcomes: seq<Outcome>, i: nat): int
    requires i < |outcomes|
  {
    LaterTime(known, outcomes[i].lastPing)
  }

  /**
   The activity a loop must begin with: its first ping then goes out, and is answered, before the timeout runs
   out.
  */
  function SurvivalFloor(start: int, now: int, interval: int, delay: int): int {
    if now - start >= interval then now - interval - delay else start
  }

  /**
   If the deadline were reached at turn n, the answers to all pings before n would have been seen, one after
   another.
  */
  lemma {:induction false} ProofsAccumulate(
    start: int, turns: seq<Turn>, outcomes: seq<Outcome>, interval: int, pongWait: int, delay: int, known: int,
    n: nat, i: nat)
    requires Responsive(start, turns, outcomes, interval, pongWait, delay) && i < n < |turns|
    requires known == SurvivalFloor(start, turns[0].now, interval, delay) && known <= LastPongOrData(turns[n])
    requires turns[n].now >= LastPongOrData(turns[n]) + interval + pongWait
    ensures LastPongOrData(turns[n]) >= LastProof(known, outcomes, i)
    decreases i
  {
    assert Decides(PingBefore(start, outcomes, i), turns[i], outcomes[i]);
    if i > 0 {
      ProofsAccumulate(start, turns, outcomes, interval, pongWait, delay, known, n, i - 1);
      DeathIsNeverEarly(PingBefore(start, outcomes, i - 1), turns[i - 1], outcomes[i - 1]);
      assert turns[i].now <= LastProof(known, outcomes, i - 1) + interval + delay;
    }
  }

  /**
   A run with fixed Timeout = Interval + PongWait, wake-ups late by at most `delay`, and every ping answered
   within PongWait - delay.  Other activity, early wake-ups and the data timeout are free.
  */
  ghost predicate Responsive(start: int, turns: seq<Turn>, outcomes: seq<Outcome>, interval: int, pongWait: int,
                             delay: int)
  {
    && interval > 0 && 0 <= delay < pongWait
    && IsRun(start, turns, outcomes) && |outcomes| == |turns|
    && (forall i :: 0 <= i < |turns| ==> turns[i].ping == PingSettings(interval, interval + pongWait))
    && Timely(turns, outcomes, delay) && Answered(turns, outcomes, pongWait - delay) && ActivityGrows(turns)
  }

  /** Such a peer survives every run that begins with activity no older than the floor. */
  lemma ResponsivePeerSurvives(start: int, turns: seq<Turn>, outcomes: seq<Outcome>, interval: int,
                               pongWait: int, delay: int)
    requires Responsive(start, turns, outcomes, interval, pongWait, delay)
    requires turns != [] ==> LastPongOrData(turns[0]) >= SurvivalFloor(start, turns[0].now, interval, delay)
    ensures NeverTimesOut(outcomes)
  {
    forall n | 0 <= n < |turns| ensures outcomes[n].verdict != Dead(ReadTimeout) {
      assert Decides(PingBefore(start, outcomes, n), turns[n], outcomes[n]);
      var known := SurvivalFloor(start, turns[0].now, interval, delay);
      if n > 0 && turns[n].now >= LastPongOrData(turns[n]) + interval + pongWait {
        ProofsAccumulate(start, turns, outcomes, interval, pongWait, delay, known, n, n - 1);
        DeathIsNeverEarly(PingBefore(start, outcomes, n - 1), turns[n - 1], outcomes[n - 1]);
      }
    }
  }

  predicate NeverTimesOut(outcomes: seq<Outcome>) {
    forall i :: 0 <= i < |outcomes| ==> outcomes[i].verdict != Dead(ReadTimeout)
  }

  // ------------------------------------------------------------ and otherwise need not

  /** A turn at which nothing has been heard since `active`. */
  function Silent(now: int, active: int, interval: int, pongWait: int): Turn {
    Turn(now, PingSettings(interval, interval + pongWait), 0, true, active, active, active)
  }

  ghost predicate AllSilent(turns: seq<Turn>, active: int, interval: int, pongWait: int) {
    forall i :: 0 <= i < |turns| ==> turns[i] == Silent(turns[i].now, active, interval, pongWait)
  }

  /**
   A run that ends in a timeout at or before `end`, with no ping sent early enough for its answer to be seen by
   then.
  */
  ghost predicate DiesUnanswered(lastPing: int, turns: seq<Turn>, outcomes: seq<Outcome>, active: int,
                                 interval: int, pongWait: int, delay: int, end: int)
  {
    && |turns| == |outcomes| > 0 && AllSilent(turns, active, interval, pongWait)
    && IsRun(lastPing, turns, outcomes) && Timely(turns, outcomes, delay)
    && outcomes[|outcomes| - 1].verdict == Dead(ReadTimeout)
    && TooLate(turns, outcomes, pongWait - delay, end)
  }

  /** By `end` no ping but the last turn's has been out for `within`. */
  predicate TooLate(turns: seq<Turn>, outcomes: seq<Outcome>, within: int, end: int)
    requires |turns| == |outcomes|
  {
    && (forall i :: 0 <= i < |turns| ==> turns[i].now <= end)
    && (forall i :: 0 <= i < |turns| - 1 && outcomes[i].pinged ==> end < turns[i].now + within)
  }

  lemma DiesAtOnce(lastPing: int, now: int, active: int, interval: int, pongWait: int, delay: int)
      returns (turns: seq<Turn>, outcomes: seq<Outcome>)
    requires interval > 0 && 0 <= delay < pongWait && now >= active + interval + pongWait
    ensures DiesUnanswered(lastPing, turns, outcomes, active, interval, pongWait, delay, now)
    ensures turns[0] == Silent(now, active, interval, pongWait)
  {
    var t := Silent(now, active, interval, pongWait);
    var o := Outcome(Dead(ReadTimeout), if PingDue(lastPing, t) then now else lastPing, PingDue(lastPing, t));
    assert Decides(lastPing, t, o);
    turns, outcomes := [t], [o];
  }

  /**
   What a silent turn before the deadline does: it pings if one is due, and sleeps to the next ping or the
   deadline.
  */
  lemma SilentTurn(lastPing: int, now: int, active: int, interval: int, pongWait: int) returns (o: Outcome)
    requires interval > 0 && pongWait > 0 && now < active + interval + pongWait
    ensures var t := Silent(now, active, interval, pongWait);
            var pinged := now - lastPing >= interval;
            var sent := if pinged then now else lastPing;
            var deadline := active + interval + pongWait;
            var wake := if sent + interval < deadline then sent + interval - now else deadline - now;
            Decides(lastPing, t, o) && o == Outcome(Sleep(wake), sent, pinged)
  {
    var t := Silent(now, active, interval, pongWait);
    var sent := if PingDue(lastPing, t) then now else lastPing;
    var next, deadline := sent + interval, active + interval + pongWait;
    o := Outcome(Sleep((if next < deadline then next else deadline) - now), sent, PingDue(lastPing, t));
    assert Deadlines(sent, t) == {next, deadline};
    assert WakesAtEarliest(Deadlines(sent, t), now, o.verdict.wake);
  }

  /** A turn in front of a run. */
  lemma RunPrepends(lastPing: int, t: Turn, o: Outcome, turns: seq<Turn>, outcomes: seq<Outcome>)
    requires Decides(lastPing, t, o) && o.verdict.Sleep? && |turns| == |outcomes| && IsRun(o.lastPing, turns, outcomes)
    ensures IsRun(lastPing, [t] + turns, [o] + outcomes)
  {
    hide Decides;
    var ts, os := [t] + turns, [o] + outcomes;
    forall i | 0 <= i < |os| ensures Decides(PingBefore(lastPing, os, i), ts[i], os[i]) {
      if i > 0 {
        assert ts[i] == turns[i - 1] && os[i] == outcomes[i - 1];
        assert PingBefore(lastPing, os, i) == PingBefore(o.lastPing, outcomes, i - 1);
        assert Decides(PingBefore(o.lastPing, outcomes, i - 1), turns[i - 1], outcomes[i - 1]);
      }
    }
    forall i | 0 <= i < |os| - 1 ensures os[i].verdict.Sleep? {
      assert i > 0 ==> os[i] == outcomes[i - 1];
    }
  }

  lemma DiesLater(
    lastPing: int, t: Turn, o: Outcome, turns: seq<Turn>, outcomes: seq<Outcome>,
    active: int, interval: int, pongWait: int, delay: int, end: int)
    requires Decides(lastPing, t, o) && o.verdict.Sleep? && t == Silent(t.now, active, interval, pongWait)
    requires DiesUnanswered(o.lastPing, turns, outcomes, active, interval, pongWait, delay, end)
    requires t.now <= turns[0].now <= t.now + o.verdict.wake + delay
    requires o.pinged ==> end < t.now + pongWait - delay
    ensures DiesUnanswered(lastPing, [t] + turns, [o] + outcomes, active, interval, pongWait, delay, end)
  {
    RunPrepends(lastPing, t, o, turns, outcomes);
    TimelyPrepends(t, o, turns, outcomes, delay);
    TooLatePrepends(t, o, turns, outcomes, pongWait - delay, end);
    SilentPrepends(t, turns, active, interval, pongWait);
    hide IsRun, Decides, Timely, TooLate, AllSilent;
    assert ([o] + outcomes)[|outcomes|] == outcomes[|outcomes| - 1];
  }

  lemma TimelyPrepends(t: Turn, o: Outcome, turns: seq<Turn>, outcomes: seq<Outcome>, delay: int)
    requires |turns| == |outcomes| > 0 && Timely(turns, outcomes, delay) && o.verdict.Sleep?
    requires t.now <= turns[0].now <= t.now + o.verdict.wake + delay
    ensures Timely([t] + turns, [o] + outcomes, delay)
  {
    var ts, os := [t] + turns, [o] + outcomes;
    forall i | 0 <= i < |ts| - 1 && os[i].verdict.Sleep?
      ensures ts[i].now <= ts[i + 1].now <= ts[i].now + os[i].verdict.wake + delay
    {
      assert ts[i + 1] == turns[i];
      if i > 0 {
        assert ts[i] == turns[i - 1] && os[i] == outcomes[i - 1] && turns[i] == turns[(i - 1) + 1];
      }
    }
  }

  lemma TooLatePrepends(t: Turn, o: Outcome, turns: seq<Turn>, outcomes: seq<Outcome>, within: int, end: int)
    requires |turns| == |outcomes| > 0 && TooLate(turns, outcomes, within, end)
    requires t.now <= turns[0].now && (o.pinged ==> end < t.now + within)
    ensures TooLate([t] + turns, [o] + outcomes, within, end)
  {
    var ts, os := [t] + turns, [o] + outcomes;
    assert turns[0].now <= end;
    forall i | 0 <= i < |ts| ensures ts[i].now <= end && (i < |ts| - 1 && os[i].pinged ==> end < ts[i].now + within) {
      if i > 0 {
        assert ts[i] == turns[i - 1] && os[i] == outcomes[i - 1];
      }
    }
  }

  lemma SilentPrepends(t: Turn, turns: seq<Turn>, active: int, interval: int, pongWait: int)
    requires t == Silent(t.now, active, interval, pongWait) && AllSilent(turns, active, interval, pongWait)
    ensures AllSilent([t] + turns, active, interval, pongWait)
  {
    hide Silent;
    var ts := [t] + turns;
    forall i | 0 <= i < |ts| ensures ts[i] == Silent(ts[i].now, active, interval, pongWait) {
      assert i > 0 ==> ts[i] == turns[i - 1];
    }
  }

  /**
   Every wake-up comes as late as allowed, until the deadline: each ping goes out too late for its answer to
   count.
  */
  lemma {:induction false} DiesFrom(lastPing: int, now: int, active: int, interval: int, pongWait: int, delay: int)
      returns (turns: seq<Turn>, outcomes: seq<Outcome>)
    requires interval > 0 && 0 <= delay < pongWait && now < active + interval + pongWait
    requires var sent := if now - lastPing >= interval then now else lastPing + interval + delay;
             active + interval + pongWait < sent + pongWait - delay
    ensures DiesUnanswered(lastPing, turns, outcomes, active, interval, pongWait, delay, active + interval + pongWait)
    ensures turns[0] == Silent(now, active, interval, pongWait)
    decreases active + interval + pongWait - now
  {
    hide Decides, DiesUnanswered;
    var deadline := active + interval + pongWait;
    var t := Silent(now, active, interval, pongWait);
    var o := SilentTurn(lastPing, now, active, interval, pongWait);
    var next := o.lastPing + interval + delay;
    if deadline <= next {
      turns, outcomes := DiesAtOnce(o.lastPing, deadline, active, interval, pongWait, delay);
    } else {
      turns, outcomes := DiesFrom(o.lastPing, next, active, interval, pongWait, delay);
    }
    NotEmpty(o.lastPing, turns, outcomes, active, interval, pongWait, delay, deadline);
    DiesLater(lastPing, t, o, turns, outcomes, active, interval, pongWait, delay, deadline);
    turns, outcomes := [t] + turns, [o] + outcomes;
  }

  lemma NotEmpty(lastPing: int, turns: seq<Turn>, outcomes: seq<Outcome>, active: int, interval: int,
                 pongWait: int, delay: int, end: int)
    requires DiesUnanswered(lastPing, turns, outcomes, active, interval, pongWait, delay, end)
    ensures |turns| == |outcomes| > 0 && turns[0] == Silent(turns[0].now, active, interval, pongWait)
  {
  }

  lemma UnansweredIsResponsive(
    start: int, turns: seq<Turn>, outcomes: seq<Outcome>, active: int, interval: int, pongWait: int, delay: int,
    end: int)
    requires interval > 0 && 0 <= delay < pongWait
    requires DiesUnanswered(start, turns, outcomes, active, interval, pongWait, delay, end)
    ensures Responsive(start, turns, outcomes, interval, pongWait, delay) && !NeverTimesOut(outcomes)
    ensures turns != [] && LastPongOrData(turns[0]) == active
  {
    hide IsRun, Decides;
    assert outcomes[|outcomes| - 1].verdict == Dead(ReadTimeout);
  }

  /**
   Activity older than the floor kills in some run: the peer answers every ping in time, and the ping timeout
   fires.
  */
  lemma StaleActivityKills(start: int, now: int, active: int, interval: int, pongWait: int, delay: int)
      returns (turns: seq<Turn>, outcomes: seq<Outcome>)
    requires interval > 0 && 0 <= delay < pongWait && start <= now
    requires active < SurvivalFloor(start, now, interval, delay)
    ensures Responsive(start, turns, outcomes, interval, pongWait, delay) && !NeverTimesOut(outcomes)
    ensures turns != [] && turns[0].now == now && LastPongOrData(turns[0]) == active
  {
    var deadline := active + interval + pongWait;
    if now >= deadline {
      turns, outcomes := DiesAtOnce(start, now, active, interval, pongWait, delay);
      UnansweredIsResponsive(start, turns, outcomes, active, interval, pongWait, delay, now);
    } else {
      turns, outcomes := DiesFrom(start, now, active, interval, pongWait, delay);
      UnansweredIsResponsive(start, turns, outcomes, active, interval, pongWait, delay, deadline);
    }
  }

  /** What a loop begins with. */
  predicate Begins(turns: seq<Turn>, now: int, active: int) {
    turns != [] && turns[0].now == now && LastPongOrData(turns[0]) == active
  }

  /**
   Main result.  The ping timeout fires in no responsive run exactly when the loop begins with activity no older
   than its own lastPing or, where a ping is due at once, than Interval and one delay before the first turn.
  */
  lemma SurvivalIsExact(start: int, now: int, active: int, interval: int, pongWait: int, delay: int)
    requires interval > 0 && 0 <= delay < pongWait && start <= now
    ensures (forall turns, outcomes ::
               Responsive(start, turns, outcomes, interval, pongWait, delay) && Begins(turns, now, active) ==>
                 NeverTimesOut(outcomes))
       <==> active >= SurvivalFloor(start, now, interval, delay)
  {
    hide Responsive, NeverTimesOut, SurvivalFloor;
    if active >= SurvivalFloor(start, now, interval, delay) {
      forall turns, outcomes |
        Responsive(start, turns, outcomes, interval, pongWait, delay) && Begins(turns, now, active)
        ensures NeverTimesOut(outcomes)
      {
        ResponsivePeerSurvives(start, turns, outcomes, interval, pongWait, delay);
      }
    } else {
      var turns, outcomes := StaleActivityKills(start, now, active, interval, pongWait, delay);
    }
  }
}
