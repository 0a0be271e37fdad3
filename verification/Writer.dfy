/**
 The background writer and Flush of libs/ws/wsconn.go: any number of callers queue messages,
 one goroutine takes them in order, writes them, counts them and answers whoever waits.

 As in Commands, an `Action` is one atomic step and a run is any sequence of actions whose guards
 hold.  Whether a socket write succeeds is left open.
*/
module Writer {

  const CAPACITY := 10

  /** What a caller queues.  A flush has no payload; only waiting callers have a response channel. */
  datatype Ticket = Message(size: int, waits: bool) | Flush

  datatype Result = Nil | ContextError | ClosedError | WriteError

  /** A response channel of capacity one: what was put in and not yet received, and whether it is closed. */
  datatype Resp = Resp(answer: Answer, closed: bool)

  datatype Answer = NoAnswer | Ok | Failed

  /** Where the writer is with the ticket it took last. */
  datatype Pc =
    | Idle
    | Wrote                      // written, not yet counted
    | Answering(failed: bool)    // about to answer a waiting caller
    | Closing(failed: bool)      // about to close the response channel
    | Stopped

  datatype State = State(
    queued: seq<Ticket>,         // everything ever put on the channel, in order
    taken: int,                  // how many of these the writer has received
    wire: seq<int>,              // the tickets whose payload was written, in order of writing
    messagesSent: int, bytesSent: int,
    pc: Pc,
    failed: bool,                // a socket write has failed
    done: bool,                  // the connection's context is cancelled
    resps: map<int, Resp>, cancelled: set<int>, results: map<int, Result>)

  datatype Action =
    | Enqueue(ticket: Ticket)
    | CancelContext(caller: int)
    | Shutdown
    | Take(writeOk: bool)
    | Count
    | Respond(skip: bool)        // the select between the caller's context and its channel
    | CloseResp
    | Notice                     // the writer sees the cancelled context
    | Collect(caller: int, result: Result)

  const INITIAL := State([], 0, [], 0, 0, Idle, false, false, map[], {}, map[])

  predicate Waits(t: Ticket) {
    t.Flush? || t.waits
  }

  /** The ticket in the writer's hands. */
  function Current(s: State): int {
    s.taken - 1
  }

  predicate CanDo(s: State, a: Action) {
    0 <= s.taken <= |s.queued| &&
    match a
    case Enqueue(_) => |s.queued| - s.taken < CAPACITY
    case CancelContext(k) => 0 <= k < |s.queued|
    case Shutdown => true
    case Take(_) => s.pc == Idle && s.taken < |s.queued|
    case Count => s.pc == Wrote && 0 < s.taken && s.queued[Current(s)].Message?
    case Respond(skip) =>
      s.pc.Answering? && 0 < s.taken && Current(s) in s.resps && (skip ==> Current(s) in s.cancelled)
    case CloseResp => s.pc.Closing? && 0 < s.taken && Current(s) in s.resps
    case Notice => s.pc == Idle && s.done
    case Collect(k, result) =>
      && 0 <= k < |s.queued| && Waits(s.queued[k]) && k !in s.results && k in s.resps
      && (match result
          case ContextError => k in s.cancelled
          case ClosedError => s.done
          case WriteError => s.resps[k].answer == Failed
          case Nil => s.resps[k].answer == Ok || (s.resps[k].answer == NoAnswer && s.resps[k].closed))
  }

  /** After a ticket is dealt with the writer answers, or loops, or stops on failure (closing the connection). */
  function Proceed(s: State, failed: bool): State
    requires 0 < s.taken <= |s.queued|
  {
    if Waits(s.queued[Current(s)]) then s.(pc := Answering(failed)) else LoopOrStop(s, failed)
  }

  function LoopOrStop(s: State, failed: bool): State {
    if failed then s.(pc := Stopped, done := true) else s.(pc := Idle)
  }

  function Do(s: State, a: Action): State
    requires CanDo(s, a)
  {
    match a
    case Enqueue(t) =>
      var k := |s.queued|;
      s.(queued := s.queued + [t], resps := if Waits(t) then s.resps[k := Resp(NoAnswer, false)] else s.resps)
    case CancelContext(k) => s.(cancelled := s.cancelled + {k})
    case Shutdown => s.(done := true)
    case Take(writeOk) =>
      var taken := s.(taken := s.taken + 1);
      if s.queued[s.taken].Flush? then Proceed(taken, false)
      else if writeOk then taken.(wire := s.wire + [s.taken], pc := Wrote)
      else Proceed(taken.(failed := true), true)
    case Count =>
      Proceed(s.(messagesSent := s.messagesSent + 1, bytesSent := s.bytesSent + s.queued[Current(s)].size), false)
    case Respond(skip) =>
      var k := Current(s);
      var answer := if s.pc.failed then Failed else Ok;
      var answered := if skip then s else s.(resps := s.resps[k := s.resps[k].(answer := answer)]);
      answered.(pc := Closing(s.pc.failed))
    case CloseResp =>
      var k := Current(s);
      LoopOrStop(s.(resps := s.resps[k := s.resps[k].(closed := true)]), s.pc.failed)
    case Notice => s.(pc := Stopped)
    case Collect(k, result) => s.(results := s.results[k := result])
  }

  predicate CanRun(s: State, actions: seq<Action>)
    decreases |actions|
  {
    actions != [] ==> CanDo(s, actions[0]) && CanRun(Do(s, actions[0]), actions[1..])
  }

  function Run(s: State, actions: seq<Action>): State
    requires CanRun(s, actions)
    decreases |actions|
  {
    if actions == [] then s else Run(Do(s, actions[0]), actions[1..])
  }

  // ------------------------------------------------------------ the invariant

  /** The messages among the first n tickets, in order. */
  function MessagesOf(queued: seq<Ticket>, n: int): seq<int>
    requires 0 <= n <= |queued|
  {
    if n == 0 then []
    else if queued[n - 1].Message? then MessagesOf(queued, n - 1) + [n - 1]
    else MessagesOf(queued, n - 1)
  }

  function BytesOf(queued: seq<Ticket>, n: int): int
    requires 0 <= n <= |queued|
  {
    if n == 0 then 0
    else if queued[n - 1].Message? then BytesOf(queued, n - 1) + queued[n - 1].size
    else BytesOf(queued, n - 1)
  }

  /** Tickets handled without a failed write: all that were taken, but for the one whose write failed. */
  function Handled(s: State): int {
    if s.failed then s.taken - 1 else s.taken
  }

  predicate OnWire(s: State, k: int) {
    k in s.wire
  }

  /** The writer's position agrees with the ticket in its hands. */
  predicate PcOk(s: State)
    requires 0 <= s.taken <= |s.queued|
  {
    var holding := s.pc.Wrote? || s.pc.Answering? || s.pc.Closing?;
    && (s.failed || holding ==> 0 < s.taken)
    && (s.failed ==> s.queued[Current(s)].Message? && (s.pc.Answering? || s.pc.Closing? || s.pc.Stopped?))
    && (s.pc.Wrote? ==> s.queued[Current(s)].Message?)
    && (s.pc.Stopped? ==> s.done)
    && (s.pc.Answering? || s.pc.Closing? ==> s.pc.failed == s.failed && Waits(s.queued[Current(s)]))
  }

  /** Tickets the writer is through with. */
  function Dealt(s: State): int {
    if s.pc.Wrote? || s.pc.Answering? || s.pc.Closing? then s.taken - 1 else s.taken
  }

  /**
   What a response channel can tell: success only of a ticket handled, failure only of the one whose write failed, and
   nothing at all only to a cancelled caller.  It is closed exactly when the writer is through with the ticket.
  */
  predicate RespOk(s: State, k: int)
    requires k in s.resps
  {
    && 0 <= k < |s.queued| && Waits(s.queued[k])
    && (s.resps[k].answer == Ok ==> k < Handled(s))
    && (s.resps[k].answer == Failed ==> s.failed && k == Current(s) && s.queued[k].Message?)
    && (s.resps[k].closed <==> k < Dealt(s))
    && (s.resps[k].closed || s.resps[k].answer != NoAnswer ==> k < s.taken)
    && (s.resps[k].closed && s.resps[k].answer == NoAnswer ==> k in s.cancelled)
    && (k == Current(s) && (s.pc.Wrote? || s.pc.Answering?) ==> s.resps[k] == Resp(NoAnswer, false))
    && (k == Current(s) && s.pc.Closing? && s.resps[k].answer == NoAnswer ==> k in s.cancelled)
  }

  predicate ResultOk(s: State, k: int)
    requires k in s.results
  {
    s.results[k] == Nil ==>
      0 <= k < s.taken && k < |s.queued| && (k < Handled(s) || (k in s.cancelled && s.queued[k].Message?))
  }

  /** The counters describe what is on the wire, but for a message written and about to be counted. */
  predicate CountsOk(s: State)
    requires 0 <= Handled(s) <= |s.queued|
  {
    if s.pc.Wrote? && 0 < s.taken <= |s.queued| && s.queued[Current(s)].Message?
    then s.messagesSent == |s.wire| - 1 && s.bytesSent == BytesOf(s.queued, Handled(s)) - s.queued[Current(s)].size
    else s.messagesSent == |s.wire| && s.bytesSent == BytesOf(s.queued, Handled(s))
  }

  ghost predicate Inv(s: State) {
    && 0 <= s.taken <= |s.queued|
    && PcOk(s)
    && s.wire == MessagesOf(s.queued, Handled(s))
    && CountsOk(s)
    && ChannelsOk(s)
  }

  ghost predicate ChannelsOk(s: State) {
    && (forall k :: 0 <= k < |s.queued| && Waits(s.queued[k]) ==> k in s.resps)
    && (forall k :: k in s.resps ==> RespOk(s, k))
    && (forall k :: k in s.results ==> ResultOk(s, k))
  }

  lemma {:induction false} PrefixIgnoresTheRest(queued: seq<Ticket>, t: Ticket, n: int)
    requires 0 <= n <= |queued|
    ensures MessagesOf(queued + [t], n) == MessagesOf(queued, n)
    ensures BytesOf(queued + [t], n) == BytesOf(queued, n)
  {
    if n > 0 {
      PrefixIgnoresTheRest(queued, t, n - 1);
    }
  }

  ghost predicate Ascending(ks: seq<int>) {
    forall i, j :: 0 <= i < j < |ks| ==> ks[i] < ks[j]
  }

  /** The messages among the first n tickets are exactly those, in ascending order. */
  lemma {:induction false} MessagesOfMembers(queued: seq<Ticket>, n: int)
    requires 0 <= n <= |queued|
    ensures forall k :: k in MessagesOf(queued, n) <==> 0 <= k < n && queued[k].Message?
    ensures Ascending(MessagesOf(queued, n))
  {
    if n > 0 {
      MessagesOfMembers(queued, n - 1);
      var before := MessagesOf(queued, n - 1);
      forall i | 0 <= i < |before| ensures before[i] < n - 1 {
        assert before[i] in before;
      }
      assert Ascending(before + [n - 1]);
    }
  }

  lemma EnqueueKeepsInv(s: State, t: Ticket)
    requires Inv(s) && CanDo(s, Enqueue(t))
    ensures Inv(Do(s, Enqueue(t)))
  {
    var s' := Do(s, Enqueue(t));
    PrefixIgnoresTheRest(s.queued, t, Handled(s));
    forall k | k in s'.resps ensures RespOk(s', k) {
      if k in s.resps { assert RespOk(s, k); }
    }
    forall k | k in s'.results ensures ResultOk(s', k) { assert ResultOk(s, k); }
  }

  /** The channels after a step of the writer, given that each one is in order by itself. */
  lemma ChannelsOneByOne(s: State, s': State)
    requires s'.queued == s.queued && s'.results == s.results && s'.resps.Keys == s.resps.Keys
    requires Inv(s) && Handled(s) <= Handled(s') && s.taken <= s'.taken && s.cancelled <= s'.cancelled
    requires forall k :: k in s'.resps ==> RespOk(s', k)
    ensures ChannelsOk(s')
  {
    forall k | k in s'.results ensures ResultOk(s', k) { assert ResultOk(s, k); }
    forall k | 0 <= k < |s.queued| && Waits(s.queued[k]) ensures k in s'.resps { assert k in s.resps.Keys; }
  }

  lemma TakeKeepsResp(s: State, writeOk: bool, k: int)
    requires 0 <= s.taken < |s.queued| && PcOk(s) && s.pc == Idle && k in s.resps && RespOk(s, k)
    ensures CanDo(s, Take(writeOk)) && k in Do(s, Take(writeOk)).resps && RespOk(Do(s, Take(writeOk)), k)
  {
  }

  lemma TakeKeepsChannels(s: State, writeOk: bool)
    requires Inv(s) && CanDo(s, Take(writeOk))
    ensures ChannelsOk(Do(s, Take(writeOk)))
  {
    hide MessagesOf, BytesOf, CountsOk;
    var s' := Do(s, Take(writeOk));
    forall k | k in s'.resps ensures RespOk(s', k) {
      assert RespOk(s, k);
      TakeKeepsResp(s, writeOk, k);
    }
    ChannelsOneByOne(s, s');
  }

  lemma TakeKeepsInv(s: State, writeOk: bool)
    requires Inv(s) && CanDo(s, Take(writeOk))
    ensures Inv(Do(s, Take(writeOk)))
  {
    TakeKeepsChannels(s, writeOk);
  }

  lemma CountKeepsChannels(s: State)
    requires Inv(s) && CanDo(s, Count)
    ensures ChannelsOk(Do(s, Count))
  {
    var s' := Do(s, Count);
    forall k | k in s'.resps ensures RespOk(s', k) { assert RespOk(s, k); }
    ChannelsOneByOne(s, s');
  }

  lemma RespondKeepsChannels(s: State, skip: bool)
    requires Inv(s) && CanDo(s, Respond(skip))
    ensures ChannelsOk(Do(s, Respond(skip)))
  {
    var s' := Do(s, Respond(skip));
    assert RespOk(s, Current(s));
    forall k | k in s'.resps ensures RespOk(s', k) { assert RespOk(s, k); }
    ChannelsOneByOne(s, s');
  }

  lemma CloseRespKeepsChannels(s: State)
    requires Inv(s) && CanDo(s, CloseResp)
    ensures ChannelsOk(Do(s, CloseResp))
  {
    var s' := Do(s, CloseResp);
    assert RespOk(s, Current(s));
    forall k | k in s'.resps ensures RespOk(s', k) { assert RespOk(s, k); }
    ChannelsOneByOne(s, s');
  }

  lemma NoticeKeepsChannels(s: State)
    requires Inv(s) && CanDo(s, Notice)
    ensures ChannelsOk(Do(s, Notice))
  {
    var s' := Do(s, Notice);
    forall k | k in s'.resps ensures RespOk(s', k) { assert RespOk(s, k); }
    ChannelsOneByOne(s, s');
  }

  lemma CountKeepsInv(s: State)
    requires Inv(s) && CanDo(s, Count)
    ensures Inv(Do(s, Count))
  {
    CountKeepsChannels(s);
  }

  lemma RespondKeepsInv(s: State, skip: bool)
    requires Inv(s) && CanDo(s, Respond(skip))
    ensures Inv(Do(s, Respond(skip)))
  {
    RespondKeepsChannels(s, skip);
  }

  lemma CloseRespKeepsInv(s: State)
    requires Inv(s) && CanDo(s, CloseResp)
    ensures Inv(Do(s, CloseResp))
  {
    CloseRespKeepsChannels(s);
  }

  lemma NoticeKeepsInv(s: State)
    requires Inv(s) && CanDo(s, Notice)
    ensures Inv(Do(s, Notice))
  {
    NoticeKeepsChannels(s);
  }

  lemma CallerKeepsInv(s: State, a: Action)
    requires Inv(s) && CanDo(s, a) && (a.CancelContext? || a.Shutdown? || a.Collect?)
    ensures Inv(Do(s, a))
  {
    var s' := Do(s, a);
    forall k | k in s'.resps ensures RespOk(s', k) { assert RespOk(s, k); }
    forall k | k in s'.results ensures ResultOk(s', k) {
      if k in s.results { assert ResultOk(s, k); }
      if a.Collect? && k == a.caller { assert RespOk(s, k); }
    }
  }

  lemma StepKeepsInv(s: State, a: Action)
    requires Inv(s) && CanDo(s, a)
    ensures Inv(Do(s, a))
  {
    hide Inv;
    match a {
      case Enqueue(t) => EnqueueKeepsInv(s, t);
      case Take(ok) => TakeKeepsInv(s, ok);
      case CancelContext(_) => CallerKeepsInv(s, a);
      case Shutdown => CallerKeepsInv(s, a);
      case Collect(_, _) => CallerKeepsInv(s, a);
      case Count => CountKeepsInv(s);
      case Respond(skip) => RespondKeepsInv(s, skip);
      case CloseResp => CloseRespKeepsInv(s);
      case Notice => NoticeKeepsInv(s);
    }
  }

  lemma {:induction false} RunKeepsInv(s: State, actions: seq<Action>)
    requires Inv(s) && CanRun(s, actions)
    ensures Inv(Run(s, actions))
    decreases |actions|
  {
    hide Inv, CanDo, Do;
    if actions != [] {
      StepKeepsInv(s, actions[0]);
      RunKeepsInv(Do(s, actions[0]), actions[1..]);
    }
  }

  // ------------------------------------------------------------ main results

  /**
   In every run the messages on the wire are exactly the messages among the first tickets queued,
   in queue order, and the counters are their number and size (short of the one being counted).
   */
  lemma WireIsAPrefixOfTheQueue(actions: seq<Action>)
    requires CanRun(INITIAL, actions)
    ensures var s := Run(INITIAL, actions);
            && 0 <= Handled(s) <= |s.queued|
            && s.wire == MessagesOf(s.queued, Handled(s))
            && CountsOk(s)
  {
    RunKeepsInv(INITIAL, actions);
  }

  /** A Flush that returned nil: every message queued before it has been written. */
  lemma FlushMeansWritten(actions: seq<Action>, flush: int)
    requires CanRun(INITIAL, actions)
    requires var s := Run(INITIAL, actions);
             0 <= flush < |s.queued| && s.queued[flush].Flush? && flush in s.results && s.results[flush] == Nil
    ensures var s := Run(INITIAL, actions);
            forall k :: 0 <= k < flush && s.queued[k].Message? ==> OnWire(s, k)
  {
    RunKeepsInv(INITIAL, actions);
    var s := Run(INITIAL, actions);
    assert ResultOk(s, flush);
    MessagesOfMembers(s.queued, Handled(s));
  }

  /**
   A waiting Write that returned nil and whose context was never cancelled: its message, and every one before
   it, has been written.
  */
  lemma WriteMeansWritten(actions: seq<Action>, write: int)
    requires CanRun(INITIAL, actions)
    requires var s := Run(INITIAL, actions);
             0 <= write < |s.queued| && write in s.results && s.results[write] == Nil && write !in s.cancelled
    ensures var s := Run(INITIAL, actions);
            forall k :: 0 <= k <= write && s.queued[k].Message? ==> OnWire(s, k)
  {
    RunKeepsInv(INITIAL, actions);
    var s := Run(INITIAL, actions);
    assert ResultOk(s, write);
    MessagesOfMembers(s.queued, Handled(s));
  }

  /** The context matters: a cancelled Write can return nil although its message was never written. */
  lemma CancelledWriteCanReportSuccess()
    ensures exists actions :: CanRun(INITIAL, actions) && ReportsUnwritten(Run(INITIAL, actions), 0)
  {
    var open, shut := Resp(NoAnswer, false), Resp(NoAnswer, true);
    var s1 := INITIAL.(queued := [Message(8, true)], resps := map[0 := open]);
    var s2 := s1.(cancelled := {0});
    var s3 := s2.(taken := 1, failed := true, pc := Answering(true));
    var s4 := s3.(pc := Closing(true));
    var s5 := s4.(resps := map[0 := shut], pc := Stopped, done := true);
    var s6 := s5.(results := map[0 := Nil]);
    var rest5 := RunOne(s5, Collect(0, Nil), s6, []);
    var rest4 := RunOne(s4, CloseResp, s5, rest5);
    var rest3 := RunOne(s3, Respond(true), s4, rest4);
    var rest2 := RunOne(s2, Take(false), s3, rest3);
    var rest1 := RunOne(s1, CancelContext(0), s2, rest2);
    var actions := RunOne(INITIAL, Enqueue(Message(8, true)), s1, rest1);
    assert CanRun(INITIAL, actions);
  }

  // ------------------------------------------------------------ exactly when a nil cannot be trusted

  /**
   A message reported written is not, exactly when it is the one whose write failed; its caller had then been
   cancelled.
  */
  lemma UnwrittenIsTheFailedWrite(actions: seq<Action>, k: int)
    requires CanRun(INITIAL, actions)
    requires var s := Run(INITIAL, actions);
             0 <= k < |s.queued| && s.queued[k].Message? && k in s.results && s.results[k] == Nil
    ensures var s := Run(INITIAL, actions);
            && (!OnWire(s, k) <==> s.failed && k == s.taken - 1)
            && (!OnWire(s, k) ==> k in s.cancelled)
  {
    RunKeepsInv(INITIAL, actions);
    var s := Run(INITIAL, actions);
    assert ResultOk(s, k);
    MessagesOfMembers(s.queued, Handled(s));
  }

  predicate NeverCancels(actions: seq<Action>, k: int) {
    forall i :: 0 <= i < |actions| ==> actions[i] != CancelContext(k)
  }

  lemma {:induction false} RunTwice(s: State, first: seq<Action>, second: seq<Action>)
    requires CanRun(s, first) && CanRun(Run(s, first), second)
    ensures CanRun(s, first + second) && Run(s, first + second) == Run(Run(s, first), second)
    decreases |first|
  {
    hide CanDo, Do;
    if first == [] {
      assert first + second == second;
    } else {
      RunTwice(Do(s, first[0]), first[1..], second);
      assert (first + second)[1..] == first[1..] + second;
    }
  }

  /** The next n tickets are taken, and neither the queue nor what callers know has changed. */
  predicate Ahead(s: State, s': State, n: int) {
    s'.taken == s.taken + n && s'.queued == s.queued && s'.cancelled == s.cancelled && s'.results == s.results
  }

  lemma InvBounds(s: State)
    requires Inv(s)
    ensures 0 <= s.taken <= |s.queued| && forall k :: 0 <= k < |s.queued| && Waits(s.queued[k]) ==> k in s.resps
  {
  }

  lemma TakeNext(s: State) returns (s': State)
    requires Inv(s) && s.pc == Idle && s.taken < |s.queued|
    ensures CanDo(s, Take(true)) && s' == Do(s, Take(true)) && Inv(s') && Ahead(s, s', 1)
    ensures s'.pc == if s.queued[s.taken].Message? then Wrote else Answering(false)
  {
    TakeKeepsInv(s, true);
    s' := Do(s, Take(true));
  }

  lemma CountNext(s: State) returns (s': State)
    requires Inv(s) && s.pc == Wrote
    ensures CanDo(s, Count) && s' == Do(s, Count) && Inv(s') && Ahead(s, s', 0)
    ensures 0 < s.taken <= |s.queued| && s'.pc == if Waits(s.queued[s.taken - 1]) then Answering(false) else Idle
  {
    CountKeepsInv(s);
    s' := Do(s, Count);
  }

  /** A success is answered and the channel closed. */
  lemma AnswerNext(s: State) returns (actions: seq<Action>)
    requires Inv(s) && s.pc == Answering(false)
    ensures actions == [Respond(false), CloseResp] && CanRun(s, actions)
    ensures var s' := Run(s, actions); Inv(s') && s'.pc == Idle && Ahead(s, s', 0)
  {
    InvBounds(s);
    var s1 := Do(s, Respond(false));
    RespondKeepsInv(s, false);
    var s2 := Do(s1, CloseResp);
    CloseRespKeepsInv(s1);
    hide Inv, Do, CanDo;
    var rest := RunOne(s1, CloseResp, s2, []);
    actions := RunOne(s, Respond(false), s1, rest);
  }

  lemma CloseNext(s: State) returns (s': State)
    requires Inv(s) && s.pc == Closing(false)
    ensures CanDo(s, CloseResp) && s' == Do(s, CloseResp) && Inv(s') && s'.pc == Idle && Ahead(s, s', 0)
  {
    InvBounds(s);
    CloseRespKeepsInv(s);
    s' := Do(s, CloseResp);
  }

  /** The writer has stopped, or will without taking another ticket: a write has failed. */
  predicate Halted(s: State) {
    s.pc.Stopped? || ((s.pc.Answering? || s.pc.Closing?) && s.pc.failed)
  }

  /** Any other writer can finish with the ticket in its hands. */
  lemma FinishCurrent(s: State) returns (actions: seq<Action>)
    requires Inv(s) && !Halted(s)
    ensures CanRun(s, actions) && forall k :: NeverCancels(actions, k)
    ensures var s' := Run(s, actions); Inv(s') && s'.pc == Idle && Ahead(s, s', 0)
  {
    hide Inv, Do, CanDo;
    match s.pc
    case Idle => actions := [];
    case Wrote =>
      var s' := CountNext(s);
      var answer := [];
      if s'.pc != Idle {
        answer := AnswerNext(s');
      }
      actions := RunOne(s, Count, s', answer);
    case Answering(_) => actions := AnswerNext(s);
    case Closing(_) =>
      var s' := CloseNext(s);
      actions := RunOne(s, CloseResp, s', []);
  }

  lemma DealWithNext(s: State) returns (actions: seq<Action>)
    requires Inv(s) && s.pc == Idle && s.taken < |s.queued|
    ensures CanRun(s, actions) && forall k :: NeverCancels(actions, k)
    ensures var s' := Run(s, actions); Inv(s') && s'.pc == Idle && Ahead(s, s', 1)
  {
    hide Inv, Do, CanDo, Run, CanRun;
    var s' := TakeNext(s);
    var rest := FinishCurrent(s');
    actions := RunOne(s, Take(true), s', rest);
    forall k ensures NeverCancels(actions, k) {
      assert NeverCancels(rest, k);
    }
  }

  /** The write fails, the writer skips a cancelled caller, closes the channel and stops. */
  lemma FailNext(s: State) returns (s1: State, s2: State, s3: State)
    requires Inv(s) && s.pc == Idle && s.taken < |s.queued| && s.taken in s.cancelled
    requires s.queued[s.taken].Message? && s.queued[s.taken].waits
    ensures CanDo(s, Take(false)) && s1 == Do(s, Take(false))
    ensures CanDo(s1, Respond(true)) && s2 == Do(s1, Respond(true))
    ensures CanDo(s2, CloseResp) && s3 == Do(s2, CloseResp)
    ensures Ahead(s, s3, 1) && s3.wire == s.wire && s.taken in s3.resps && s3.resps[s.taken] == Resp(NoAnswer, true)
  {
    TakeKeepsInv(s, false);
    s1 := Do(s, Take(false));
    InvBounds(s1);
    assert RespOk(s1, s.taken);
    s2 := Do(s1, Respond(true));
    s3 := Do(s2, CloseResp);
  }

  lemma NotYetWritten(s: State)
    requires Inv(s) && s.pc == Idle
    ensures !OnWire(s, s.taken)
  {
    MessagesOfMembers(s.queued, Handled(s));
  }

  /** The caller, cancelled, reads nil from the channel closed without an answer. */
  lemma FailAndCollect(s: State) returns (actions: seq<Action>)
    requires Inv(s) && s.pc == Idle && 0 <= s.taken < |s.queued| && s.taken in s.cancelled && s.taken !in s.results
    requires s.queued[s.taken].Message? && s.queued[s.taken].waits
    ensures CanRun(s, actions) && NeverCancels(actions, s.taken) && ReportsUnwritten(Run(s, actions), s.taken)
  {
    NotYetWritten(s);
    hide Inv;
    var k := s.taken;
    var s1, s2, s3 := FailNext(s);
    assert CanDo(s3, Collect(k, Nil));
    var s4 := Do(s3, Collect(k, Nil));
    assert ReportsUnwritten(s4, k);
    hide CanDo, Do, ReportsUnwritten;
    var rest3 := RunOne(s3, Collect(k, Nil), s4, []);
    var rest2 := RunOne(s2, CloseResp, s3, rest3);
    var rest1 := RunOne(s1, Respond(true), s2, rest2);
    actions := RunOne(s, Take(false), s1, rest1);
  }

  lemma {:induction false} IdleWriterCanMislead(s: State, k: int) returns (actions: seq<Action>)
    requires Inv(s) && s.pc == Idle && s.taken <= k < |s.queued|
    requires s.queued[k].Message? && s.queued[k].waits && k in s.cancelled && k !in s.results
    ensures CanRun(s, actions) && NeverCancels(actions, k) && ReportsUnwritten(Run(s, actions), k)
    decreases k - s.taken
  {
    InvBounds(s);
    hide Inv, CanDo, Do;
    if s.taken == k {
      actions := FailAndCollect(s);
    } else {
      var first := DealWithNext(s);
      var second := IdleWriterCanMislead(Run(s, first), k);
      RunTwice(s, first, second);
      assert NeverCancels(first, k);
      actions := first + second;
    }
  }

  /** Unless the writer is halted, a queued write whose caller is cancelled can come to report what was not written. */
  lemma CancelledWriteCanAlwaysMislead(s: State, k: int) returns (actions: seq<Action>)
    requires Inv(s) && !Halted(s) && s.taken <= k < |s.queued|
    requires s.queued[k].Message? && s.queued[k].waits && k in s.cancelled && k !in s.results
    ensures CanRun(s, actions) && NeverCancels(actions, k) && ReportsUnwritten(Run(s, actions), k)
  {
    hide Inv, CanDo, Do, Run, CanRun, ReportsUnwritten;
    var first := FinishCurrent(s);
    var second := IdleWriterCanMislead(Run(s, first), k);
    RunTwice(s, first, second);
    assert NeverCancels(first, k);
    actions := first + second;
  }

  lemma HaltedStays(s: State, a: Action)
    requires CanDo(s, a) && Halted(s)
    ensures Halted(Do(s, a)) && Do(s, a).taken == s.taken
  {
  }

  lemma {:induction false} HaltedTakesNoMore(s: State, actions: seq<Action>)
    requires CanRun(s, actions) && Halted(s)
    ensures Halted(Run(s, actions)) && Run(s, actions).taken == s.taken
    decreases |actions|
  {
    hide CanDo, Do, Halted;
    if actions != [] {
      HaltedStays(s, actions[0]);
      HaltedTakesNoMore(Do(s, actions[0]), actions[1..]);
    }
  }

  lemma ResultStep(s: State, a: Action, k: int)
    requires CanDo(s, a) && k in s.results
    ensures k in Do(s, a).results && Do(s, a).results[k] == s.results[k]
  {
  }

  lemma {:induction false} ResultStays(s: State, actions: seq<Action>, k: int)
    requires CanRun(s, actions) && k in s.results
    ensures k in Run(s, actions).results && Run(s, actions).results[k] == s.results[k]
    decreases |actions|
  {
    hide CanDo, Do;
    if actions != [] {
      ResultStep(s, actions[0], k);
      ResultStays(Do(s, actions[0]), actions[1..], k);
    }
  }

  /** Behind a failed write, and once its caller has an answer, a write not taken can never report success. */
  lemma CannotMislead(s: State, actions: seq<Action>, k: int)
    requires Inv(s) && CanRun(s, actions) && s.taken <= k && (Halted(s) || k in s.results)
    ensures !ReportsUnwritten(Run(s, actions), k)
  {
    RunKeepsInv(s, actions);
    hide Run, CanRun;
    if k in s.results {
      assert ResultOk(s, k);
      ResultStays(s, actions, k);
    } else {
      HaltedTakesNoMore(s, actions);
      var s' := Run(s, actions);
      assert k in s'.results ==> ResultOk(s', k);
    }
  }

  lemma CancelStep(s: State, a: Action, k: int)
    requires CanDo(s, a) && a != CancelContext(k)
    ensures k in Do(s, a).cancelled <==> k in s.cancelled
  {
  }

  lemma {:induction false} CancelledByCancelAlone(s: State, actions: seq<Action>, k: int)
    requires CanRun(s, actions) && NeverCancels(actions, k)
    ensures k in Run(s, actions).cancelled <==> k in s.cancelled
    decreases |actions|
  {
    hide CanDo, Do;
    if actions != [] {
      var s', rest := Do(s, actions[0]), actions[1..];
      assert actions[0] != CancelContext(k);
      CancelStep(s, actions[0], k);
      assert forall i :: 0 <= i < |rest| ==> rest[i] == actions[i + 1];
      CancelledByCancelAlone(s', rest, k);
    }
  }

  /**
   In every reachable state, a write not taken yet can come to return nil unwritten, with no further cancellation of
   its caller, exactly when that caller is cancelled and still waiting and the writer is not halted.
  */
  lemma NilMisleadsExactlyWhenCancelled(before: seq<Action>, k: int)
    requires CanRun(INITIAL, before)
    requires var s := Run(INITIAL, before);
             0 <= s.taken <= k < |s.queued| && s.queued[k].Message? && s.queued[k].waits
    ensures var s := Run(INITIAL, before);
            (exists more :: CanRun(s, more) && NeverCancels(more, k) && ReportsUnwritten(Run(s, more), k)) <==>
            k in s.cancelled && k !in s.results && !Halted(s)
  {
    RunKeepsInv(INITIAL, before);
    hide Inv;
    var s := Run(INITIAL, before);
    if k in s.cancelled && k !in s.results && !Halted(s) {
      var more := CancelledWriteCanAlwaysMislead(s, k);
    }
    forall more | CanRun(s, more) && NeverCancels(more, k) && ReportsUnwritten(Run(s, more), k)
      ensures k in s.cancelled && k !in s.results && !Halted(s)
    {
      MisleadsOnlyTheCancelled(s, more, k);
      CancelledByCancelAlone(s, more, k);
      if k in s.results || Halted(s) {
        CannotMislead(s, more, k);
      }
    }
  }

  lemma MisleadsOnlyTheCancelled(s: State, more: seq<Action>, k: int)
    requires Inv(s) && CanRun(s, more) && ReportsUnwritten(Run(s, more), k)
    ensures k in Run(s, more).cancelled
  {
    RunKeepsInv(s, more);
    var s' := Run(s, more);
    assert ResultOk(s', k);
    MessagesOfMembers(s'.queued, Handled(s'));
  }

  predicate ReportsUnwritten(s: State, k: int) {
    0 <= k < |s.queued| && s.queued[k].Message? && k in s.results && s.results[k] == Nil && !OnWire(s, k)
  }

  /** Puts one action in front of a run. */
  lemma RunOne(s: State, a: Action, s': State, rest: seq<Action>) returns (actions: seq<Action>)
    requires CanDo(s, a) && Do(s, a) == s' && CanRun(s', rest)
    ensures actions == [a] + rest && CanRun(s, actions) && Run(s, actions) == Run(s', rest)
  {
    actions := [a] + rest;
    assert actions[1..] == rest;
  }
}
