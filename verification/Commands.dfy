/**
 Device commands and their replies: executeCommand and processCommandReply of
 libs/mitm/deviceconn.go, as an interleaving of any number of callers with the one reader
 of the device's socket.

 An `Action` is one atomic step of one goroutine: a locked section, a channel operation, or
 the outcome of a write.  Anything the interleaving allows is a sequence of actions whose
 guards hold (`CanDo`).  Closing a closed channel, sending on a closed channel and sending to a
 full one are not excluded by the guards: the lemmas prove that no run gets there.
*/
module Commands {
  import opened Basics

  datatype Reply = Reply(id: int, status: int, body: seq<char>)

  datatype Result =
    | Replied(reply: Reply)
    | ZeroReply               // what a receive from a closed, drained channel yields
    | WriteFailed
    | TimedOut
    | Cancelled

  /** Where a caller is in executeCommand. */
  datatype Pc =
    | Numbered                // has its message id and its channel
    | Listed                  // its channel is in the messages map
    | Waiting                 // the request is queued; in the select
    | Leaving(result: Result) // has its result; the deferred section is still to run
    | Returned(result: Result)

  /** A reply channel of capacity one. */
  datatype Chan = Chan(buffer: Option<Reply>, sends: int, closes: int)

  /** Where the reader is in processCommandReply. */
  datatype Reader = Reading | Sending(reply: Reply, call: nat) | Closing(call: nat)

  /** Call k is the k-th to draw a message id: the counter gives it id k + 1. */
  datatype State = State(
    calls: seq<Pc>, chans: seq<Chan>, messages: map<int, nat>, reader: Reader, arrived: seq<Reply>)

  datatype Action =
    | Number                  // messageID.Add(1), make(chan, 1)
    | List(call: nat)         // the first locked section
    | Written(call: nat) | FailToWrite(call: nat)
    | Receive(call: nat) | TimeOut(call: nat) | Cancel(call: nat)
    | Leave(call: nat)        // the deferred locked section
    | Arrive(reply: Reply)    // the reader's locked section, for a reply just decoded
    | Send | Close

  const INITIAL := State([], [], map[], Reading, [])

  function IdOf(call: nat): int {
    call + 1
  }

  predicate At(s: State, call: nat, pc: Pc) {
    call < |s.calls| && s.calls[call] == pc
  }

  predicate CanDo(s: State, a: Action) {
    |s.chans| == |s.calls| &&
    match a
    case Number => true
    case List(k) => At(s, k, Numbered)
    case Written(k) => At(s, k, Listed)
    case FailToWrite(k) => At(s, k, Listed)
    case Receive(k) => At(s, k, Waiting) && (s.chans[k].buffer.Some? || s.chans[k].closes > 0)
    case TimeOut(k) => At(s, k, Waiting)
    case Cancel(k) => At(s, k, Waiting)
    case Leave(k) => k < |s.calls| && s.calls[k].Leaving?
    case Arrive(_) => s.reader.Reading?
    case Send => s.reader.Sending? && s.reader.call < |s.chans|
    case Close => s.reader.Closing? && s.reader.call < |s.chans|
  }

  function Move(s: State, call: nat, pc: Pc): State
    requires call < |s.calls|
  {
    s.(calls := s.calls[call := pc])
  }

  function CloseChan(s: State, call: nat): State
    requires call < |s.chans|
  {
    s.(chans := s.chans[call := s.chans[call].(closes := s.chans[call].closes + 1)])
  }

  function Do(s: State, a: Action): State
    requires CanDo(s, a)
  {
    match a
    case Number => s.(calls := s.calls + [Numbered], chans := s.chans + [Chan(None, 0, 0)])
    case List(k) => Move(s, k, Listed).(messages := s.messages[IdOf(k) := k])
    case Written(k) => Move(s, k, Waiting)
    case FailToWrite(k) => Move(s, k, Leaving(WriteFailed))
    case Receive(k) =>
      (match s.chans[k].buffer
       case Some(r) => Move(s, k, Leaving(Replied(r))).(chans := s.chans[k := s.chans[k].(buffer := None)])
       case None => Move(s, k, Leaving(ZeroReply)))
    case TimeOut(k) => Move(s, k, Leaving(TimedOut))
    case Cancel(k) => Move(s, k, Leaving(Cancelled))
    case Leave(k) =>
      var left := Move(s, k, Returned(s.calls[k].result));
      if IdOf(k) in s.messages then CloseChan(left.(messages := s.messages - {IdOf(k)}), k) else left
    case Arrive(r) =>
      var seen := s.(arrived := s.arrived + [r]);
      if r.id in s.messages
      then seen.(messages := s.messages - {r.id}, reader := Sending(r, s.messages[r.id]))
      else seen
    case Send =>
      var k := s.reader.call;
      var c := s.chans[k];
      s.(chans := s.chans[k := c.(buffer := Some(s.reader.reply), sends := c.sends + 1)], reader := Closing(k))
    case Close => CloseChan(s, s.reader.call).(reader := Reading)
  }

  /** A run: a sequence of actions each possible where it happens. */
  predicate CanRun(s: State, actions: seq<Action>)
    decreases |actions|
  {
    actions != [] ==> CanDo(s, actions[0]) && CanRun(Do(s, actions[0]), actions[1..])
  }

  function Run(s: State, actions: seq<Action>): State
    requires CanRun(s, actions)
    decreases |actions|
  {
    if actions == [] then s else Run(Do(s, actions[0]), actions[1..])
  }

  // ------------------------------------------------------------ the invariant

  predicate Holds(s: State, call: nat) {
    !s.reader.Reading? && s.reader.call == call
  }

  /** The life of a call's channel, in its only order. */
  predicate Fresh(s: State, k: nat)
    requires k < |s.chans|
  {
    s.chans[k] == Chan(None, 0, 0) && !Holds(s, k)
  }

  predicate Taken(s: State, k: nat)
    requires k < |s.chans|
  {
    && s.reader.Sending? && s.reader.call == k
    && s.reader.reply.id == IdOf(k) && s.reader.reply in s.arrived
    && s.chans[k] == Chan(None, 0, 0)
  }

  predicate Delivered(s: State, k: nat)
    requires k < |s.chans|
  {
    && s.chans[k].sends == 1
    && (match s.chans[k].buffer
        case Some(r) => r.id == IdOf(k) && r in s.arrived
        case None => k < |s.calls| && (s.calls[k].Leaving? || s.calls[k].Returned?))
    && (if Holds(s, k) then s.reader == Closing(k) && s.chans[k].closes == 0 else s.chans[k].closes == 1)
  }

  predicate GaveUp(s: State, k: nat)
    requires k < |s.chans|
  {
    s.chans[k] == Chan(None, 0, 1) && !Holds(s, k) && k < |s.calls| && s.calls[k].Returned?
  }

  predicate Genuine(s: State, k: nat, result: Result) {
    result != ZeroReply && (result.Replied? ==> result.reply.id == IdOf(k) && result.reply in s.arrived)
  }

  predicate CallOk(s: State, k: nat)
    requires k < |s.calls| == |s.chans|
  {
    var listed := IdOf(k) in s.messages;
    && (listed ==> s.messages[IdOf(k)] == k && Fresh(s, k))
    && (match s.calls[k]
        case Numbered => !listed && Fresh(s, k)
        case Listed => listed || Taken(s, k) || Delivered(s, k)
        case Waiting => listed || Taken(s, k) || Delivered(s, k)
        case Leaving(result) => (listed || Taken(s, k) || Delivered(s, k)) && Genuine(s, k, result)
        case Returned(result) => !listed && (Taken(s, k) || Delivered(s, k) || GaveUp(s, k)) && Genuine(s, k, result))
  }

  ghost predicate Inv(s: State) {
    && |s.chans| == |s.calls|
    && (forall id :: id in s.messages ==> 0 < id <= |s.calls|)
    && (s.reader.Reading? || s.reader.call < |s.calls|)
    && (forall k: nat :: k < |s.calls| ==> CallOk(s, k))
  }

  lemma InvHoldsForOthers(s: State, s': State, k: nat)
    requires Inv(s) && k < |s.calls| <= |s'.calls| == |s'.chans|
    requires s'.calls[k] == s.calls[k] && s'.chans[k] == s.chans[k]
    requires (IdOf(k) in s'.messages <==> IdOf(k) in s.messages)
    requires IdOf(k) in s.messages ==> s'.messages[IdOf(k)] == s.messages[IdOf(k)]
    requires Holds(s, k) ==> s'.reader == s.reader
    requires !Holds(s, k) ==> !Holds(s', k)
    requires forall r :: r in s.arrived ==> r in s'.arrived
    ensures CallOk(s', k)
  {
    assert CallOk(s, k);
  }

  lemma ActorKeepsOk(s: State, a: Action, k: nat)
    requires Inv(s) && CanDo(s, a) && k < |s.calls| && Touches(s, a, k)
    ensures CallOk(Do(s, a), k)
  {
    if a.Arrive? {
      assert CallOk(s, a.reply.id - 1);
    }
    assert CallOk(s, k);
  }

  lemma StepKeepsInv(s: State, a: Action)
    requires Inv(s) && CanDo(s, a)
    ensures Inv(Do(s, a))
  {
    var s' := Do(s, a);
    if a.Arrive? && a.reply.id in s.messages {
      assert CallOk(s, a.reply.id - 1);
    }
    forall k: nat | k < |s'.calls| ensures CallOk(s', k) {
      if k < |s.calls| {
        assert CallOk(s, k);
        if Touches(s, a, k) {
          ActorKeepsOk(s, a, k);
        } else {
          InvHoldsForOthers(s, s', k);
        }
      }
    }
  }

  /** The call an action may change. */
  predicate Touches(s: State, a: Action, k: nat)
    requires CanDo(s, a)
  {
    match a
    case Number => false
    case Arrive(r) => r.id in s.messages && s.messages[r.id] == k
    case Send => s.reader.call == k
    case Close => s.reader.call == k
    case _ => a.call == k
  }

  lemma {:induction false} RunKeepsInv(s: State, actions: seq<Action>)
    requires Inv(s) && CanRun(s, actions)
    ensures Inv(Run(s, actions))
    decreases |actions|
  {
    if actions != [] {
      StepKeepsInv(s, actions[0]);
      RunKeepsInv(Do(s, actions[0]), actions[1..]);
    }
  }

  // ------------------------------------------------------------ what every interleaving keeps

  /**
   No run reaches a Go panic or a blocked reader: the send finds an open, empty channel; both closes find an
   open one.
  */
  lemma ReaderNeverBlocksOrPanics(actions: seq<Action>)
    requires CanRun(INITIAL, actions)
    ensures var s := Run(INITIAL, actions);
            && (s.reader.Sending? ==>
                  CanDo(s, Send) && s.chans[s.reader.call].buffer == None && s.chans[s.reader.call].closes == 0)
            && (s.reader.Closing? ==> CanDo(s, Close) && s.chans[s.reader.call].closes == 0)
            && (forall k: nat :: k < |s.calls| == |s.chans| && s.calls[k].Leaving? && IdOf(k) in s.messages ==>
                  s.chans[k].closes == 0)
  {
    RunKeepsInv(INITIAL, actions);
    var s := Run(INITIAL, actions);
    if !s.reader.Reading? {
      assert CallOk(s, s.reader.call);
    }
    forall k: nat | k < |s.calls| && IdOf(k) in s.messages ensures s.chans[k].closes == 0 {
      assert CallOk(s, k);
    }
  }

  /**
   A call that has returned got a reply the device sent with the call's own id, or an error, never
   the zero value of a closed channel; its id is out of the map; and its channel is sent to at most
   once and closed exactly once, by now or by the step the reader is at.
   */
  lemma ReturnedCallsAreClean(actions: seq<Action>, k: nat)
    requires CanRun(INITIAL, actions)
    requires var s := Run(INITIAL, actions); k < |s.calls| && s.calls[k].Returned?
    ensures var s := Run(INITIAL, actions);
            && Genuine(s, k, s.calls[k].result)
            && IdOf(k) !in s.messages
            && |s.chans| == |s.calls|
            && s.chans[k].sends <= 1
            && s.chans[k].closes == (if Holds(s, k) then 0 else 1)
  {
    RunKeepsInv(INITIAL, actions);
    assert CallOk(Run(INITIAL, actions), k);
  }

  /** The map only ever names calls between their listing and their leaving, each under its own id. */
  lemma MapNamesOnlyLiveCalls(actions: seq<Action>, id: int)
    requires CanRun(INITIAL, actions) && id in Run(INITIAL, actions).messages
    ensures var s := Run(INITIAL, actions);
            var k := s.messages[id];
            && id == IdOf(k) && k < |s.calls|
            && (s.calls[k].Listed? || s.calls[k].Waiting? || s.calls[k].Leaving?)
  {
    RunKeepsInv(INITIAL, actions);
    assert CallOk(Run(INITIAL, actions), id - 1);
  }

  /** A reply nobody is listed for changes nothing but the record of arrivals: late and repeated replies are dropped. */
  lemma LateAndDuplicateRepliesAreDropped(actions: seq<Action>, r: Reply, k: nat)
    requires CanRun(INITIAL, actions) && CanDo(Run(INITIAL, actions), Arrive(r))
    requires var s := Run(INITIAL, actions);
             && r.id == IdOf(k) && k < |s.calls| && |s.chans| == |s.calls|
             && (s.calls[k].Returned? || s.chans[k].sends > 0)
    ensures var s := Run(INITIAL, actions);
            Do(s, Arrive(r)) == s.(arrived := s.arrived + [r])
  {
    RunKeepsInv(INITIAL, actions);
    assert CallOk(Run(INITIAL, actions), k);
  }
}
