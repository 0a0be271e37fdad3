/**
 What the writer answers: every ticket's fate, told by the actions of a run alone.

 Writer says what each action does; here the writes that succeeded or failed, the answers given and the results
 collected are read off the sequence of actions, and proved to be what the run arrives at.
*/
module WriterAnswers {
  import opened Writer

  /** The tickets queued so far, in order. */
  function QueuedBy(actions: seq<Action>): seq<Ticket> {
    if actions == [] then []
    else
      var before, a := QueuedBy(actions[..|actions| - 1]), actions[|actions| - 1];
      if a.Enqueue? then before + [a.ticket] else before
  }

  /** How many tickets the writer has taken: the next one it takes has this number. */
  function TakenBy(actions: seq<Action>): int {
    if actions == [] then 0
    else TakenBy(actions[..|actions| - 1]) + if actions[|actions| - 1].Take? then 1 else 0
  }

  /** The action has happened when n tickets had been taken. */
  predicate Happened(actions: seq<Action>, a: Action, n: int) {
    exists i :: 0 <= i < |actions| && actions[i] == a && TakenBy(actions[..i]) == n
  }

  /** The socket write of ticket k was made, and succeeded or not. */
  predicate WriteMade(actions: seq<Action>, k: int, ok: bool) {
    0 <= k < |QueuedBy(actions)| && QueuedBy(actions)[k].Message? && Happened(actions, Take(ok), k)
  }

  /** The caller of ticket k was sent the outcome, rather than skipped. */
  predicate Answered(actions: seq<Action>, k: int) {
    Happened(actions, Respond(false), k + 1)
  }

  /** The channel of ticket k was closed. */
  predicate Closed(actions: seq<Action>, k: int) {
    Happened(actions, CloseResp, k + 1)
  }

  lemma TakenByMore(actions: seq<Action>, a: Action)
    ensures TakenBy(actions + [a]) == TakenBy(actions) + (if a.Take? then 1 else 0)
    ensures QueuedBy(actions + [a]) == if a.Enqueue? then QueuedBy(actions) + [a.ticket] else QueuedBy(actions)
  {
    assert (actions + [a])[..|actions|] == actions;
  }

  lemma HappenedMore(actions: seq<Action>, b: Action, a: Action, n: int)
    ensures Happened(actions + [b], a, n) <==> Happened(actions, a, n) || (a == b && TakenBy(actions) == n)
  {
    var more := actions + [b];
    forall i | 0 <= i <= |actions| ensures more[..i] == actions[..i] {
    }
    if i :| 0 <= i < |actions| && actions[i] == a && TakenBy(actions[..i]) == n {
      assert more[i] == a && TakenBy(more[..i]) == n;
    }
    if a == b && TakenBy(actions) == n {
      assert actions[..|actions|] == actions;
      assert more[|actions|] == a && TakenBy(more[..|actions|]) == n;
    }
  }

  // ------------------------------------------------------------ what the actions account for

  predicate QueueTold(done: seq<Action>, s: State) {
    && s.queued == QueuedBy(done) && s.taken == TakenBy(done)
    && (s.done <==> Shutdown in done || (s.failed && s.pc.Stopped?))
  }

  predicate WritesTold(done: seq<Action>, s: State, k: int) {
    && (WriteMade(done, k, true) <==> OnWire(s, k))
    && (WriteMade(done, k, false) <==> s.failed && k == Current(s))
    && (forall ok :: Happened(done, Take(ok), k) ==> k < s.taken)
  }

  predicate AnswersTold(done: seq<Action>, s: State, k: int) {
    && (k in s.resps ==>
          && (Answered(done, k) <==> s.resps[k].answer != NoAnswer)
          && (Closed(done, k) <==> s.resps[k].closed))
    && (Answered(done, k) || Closed(done, k) ==> k < s.taken)
  }

  predicate CallerTold(done: seq<Action>, s: State, k: int) {
    && (k in s.cancelled <==> CancelContext(k) in done)
    && (forall x :: Collect(k, x) in done <==> k in s.results && s.results[k] == x)
    && (k in s.results ==> k in s.resps && Backed(s, k, s.results[k]))
  }

  /** The result is one the caller's channel or contexts give. */
  predicate Backed(s: State, k: int, x: Result)
    requires k in s.resps
  {
    match x
    case ContextError => k in s.cancelled
    case ClosedError => s.done
    case WriteError => s.resps[k].answer == Failed
    case Nil => s.resps[k].answer == Ok || (s.resps[k].answer == NoAnswer && s.resps[k].closed)
  }

  ghost predicate AccountsFor(done: seq<Action>, s: State) {
    && Inv(s) && QueueTold(done, s)
    && forall k :: WritesTold(done, s, k) && AnswersTold(done, s, k) && CallerTold(done, s, k)
  }

  lemma QueueAfter(done: seq<Action>, s: State, a: Action)
    requires Inv(s) && CanDo(s, a) && QueueTold(done, s)
    ensures QueueTold(done + [a], Do(s, a))
  {
    TakenByMore(done, a);
    assert forall b :: b in done + [a] <==> b in done || b == a;
    hide MessagesOf, BytesOf, ChannelsOk, CountsOk;
  }

  lemma WireAfter(s: State, a: Action, k: int)
    requires Inv(s) && CanDo(s, a)
    ensures OnWire(Do(s, a), k) <==> OnWire(s, k) || (a == Take(true) && k == s.taken && s.queued[k].Message?)
    ensures OnWire(s, k) ==> 0 <= k < s.taken
  {
    MessagesOfMembers(s.queued, Handled(s));
    hide MessagesOf, BytesOf, ChannelsOk, CountsOk;
  }

  lemma FailedAfter(s: State, a: Action)
    requires Inv(s) && CanDo(s, a)
    ensures var s' := Do(s, a);
            && (s'.failed <==> s.failed || (a == Take(false) && s.queued[s.taken].Message?))
            && (s.failed ==> s'.taken == s.taken && !a.Take?)
            && s'.taken == s.taken + (if a.Take? then 1 else 0)
  {
    hide MessagesOf, BytesOf, ChannelsOk, CountsOk;
  }

  lemma WritesAfter(done: seq<Action>, s: State, a: Action, k: int)
    requires Inv(s) && CanDo(s, a) && QueueTold(done, s) && WritesTold(done, s, k)
    ensures WritesTold(done + [a], Do(s, a), k)
  {
    WireAfter(s, a, k);
    FailedAfter(s, a);
    TakenByMore(done, a);
    forall ok
      ensures Happened(done + [a], Take(ok), k) <==> Happened(done, Take(ok), k) || (a == Take(ok) && s.taken == k)
    {
      HappenedMore(done, a, Take(ok), k);
    }
    hide Happened, OnWire, Do, Inv, QueuedBy, TakenBy;
  }

  /** A channel changes only by the writer's answer and close, while its ticket is in the writer's hands. */
  lemma RespAfter(s: State, a: Action, k: int)
    requires Inv(s) && CanDo(s, a)
    ensures k in s.resps ==> k in Do(s, a).resps
    ensures k in Do(s, a).resps ==>
      var before, after := if k in s.resps then s.resps[k] else Resp(NoAnswer, false), Do(s, a).resps[k];
      && (k !in s.resps ==> k == |s.queued|)
      && (a == Respond(false) && k + 1 == s.taken ==> before.answer == NoAnswer != after.answer)
      && (a != Respond(false) || k + 1 != s.taken ==> after.answer == before.answer)
      && (after.closed <==> before.closed || (a == CloseResp && k + 1 == s.taken))
  {
    hide MessagesOf, BytesOf, CountsOk;
    if k in s.resps {
      assert RespOk(s, k);
    }
  }

  lemma AnswersAfter(done: seq<Action>, s: State, a: Action, k: int)
    requires Inv(s) && CanDo(s, a) && QueueTold(done, s) && AnswersTold(done, s, k)
    ensures AnswersTold(done + [a], Do(s, a), k)
  {
    RespAfter(s, a, k);
    FailedAfter(s, a);
    HappenedMore(done, a, Respond(false), k + 1);
    HappenedMore(done, a, CloseResp, k + 1);
    assert 0 <= s.taken <= |s.queued|;
    hide Happened, Do, Inv, QueuedBy, TakenBy;
  }

  lemma CallerAfter(done: seq<Action>, s: State, a: Action, k: int)
    requires Inv(s) && CanDo(s, a) && CallerTold(done, s, k)
    ensures CallerTold(done + [a], Do(s, a), k)
  {
    assert forall b :: b in done + [a] <==> b in done || b == a;
    RespAfter(s, a, k);
    CallerFields(s, a, k);
    BackedAfter(s, a, k);
    hide Inv, Backed, Do, CanDo;
  }

  lemma CallerFields(s: State, a: Action, k: int)
    requires CanDo(s, a)
    ensures k in Do(s, a).cancelled <==> k in s.cancelled || a == CancelContext(k)
    ensures a.Collect? && a.caller == k ==>
              k !in s.results && k in s.resps && Do(s, a).results == s.results[k := a.result]
    ensures !(a.Collect? && a.caller == k) ==>
              (k in Do(s, a).results <==> k in s.results) && (k in s.results ==> Do(s, a).results[k] == s.results[k])
  {
  }

  lemma BackedAfter(s: State, a: Action, k: int)
    requires Inv(s) && CanDo(s, a)
    ensures k in s.results && k in s.resps && Backed(s, k, s.results[k]) ==>
              k in Do(s, a).resps && Backed(Do(s, a), k, s.results[k])
    ensures a.Collect? && a.caller == k ==> k in Do(s, a).resps && Backed(Do(s, a), k, a.result)
  {
    RespAfter(s, a, k);
    if k in s.resps {
      assert RespOk(s, k);
    }
    hide MessagesOf, BytesOf, CountsOk, ChannelsOk;
  }

  lemma StepAccounts(done: seq<Action>, s: State, a: Action)
    requires AccountsFor(done, s) && CanDo(s, a)
    ensures AccountsFor(done + [a], Do(s, a))
  {
    StepKeepsInv(s, a);
    QueueAfter(done, s, a);
    hide Inv, CanDo, Do, QueueTold, WritesTold, AnswersTold, CallerTold;
    forall k
      ensures WritesTold(done + [a], Do(s, a), k) && AnswersTold(done + [a], Do(s, a), k)
      ensures CallerTold(done + [a], Do(s, a), k)
    {
      WritesAfter(done, s, a, k);
      AnswersAfter(done, s, a, k);
      CallerAfter(done, s, a, k);
    }
  }

  lemma {:induction false} RunAccounts(done: seq<Action>, s: State, actions: seq<Action>)
    requires AccountsFor(done, s) && CanRun(s, actions)
    ensures AccountsFor(done + actions, Run(s, actions))
    decreases |actions|
  {
    hide AccountsFor, CanDo, Do;
    if actions == [] {
      assert done + actions == done;
    } else {
      StepAccounts(done, s, actions[0]);
      RunAccounts(done + [actions[0]], Do(s, actions[0]), actions[1..]);
      assert done + [actions[0]] + actions[1..] == done + actions;
    }
  }

  lemma RunFromStart(actions: seq<Action>)
    requires CanRun(INITIAL, actions)
    ensures AccountsFor(actions, Run(INITIAL, actions))
  {
    assert AccountsFor([], INITIAL);
    hide AccountsFor;
    RunAccounts([], INITIAL, actions);
    assert [] + actions == actions;
  }

  // ------------------------------------------------------------ main results

  /** What is on the wire is exactly the messages whose write was made and succeeded. */
  lemma WireIsWhatWasWritten(actions: seq<Action>, k: int)
    requires CanRun(INITIAL, actions)
    ensures var s := Run(INITIAL, actions);
            && s.queued == QueuedBy(actions)
            && (OnWire(s, k) <==> WriteMade(actions, k, true))
            && (WriteMade(actions, k, false) ==> k == s.taken - 1)
  {
    hide CanRun, Run, QueuedBy, WriteMade;
    RunFromStart(actions);
    assert WritesTold(actions, Run(INITIAL, actions), k);
  }

  /**
   What a waiting caller that has no result yet can be told, in every reachable state: a write error exactly if its own
   write failed and it was answered; nil exactly if it was answered and its write did not fail, or was skipped, its
   channel closed; its context's error exactly if that was cancelled.
  */
  lemma CallersCanCollectExactly(actions: seq<Action>, k: int)
    requires CanRun(INITIAL, actions)
    requires var s := Run(INITIAL, actions); 0 <= k < |s.queued| && Waits(s.queued[k]) && k !in s.results
    ensures var s := Run(INITIAL, actions);
            && (CanDo(s, Collect(k, WriteError)) <==> Answered(actions, k) && WriteMade(actions, k, false))
            && (CanDo(s, Collect(k, Nil)) <==>
                  if Answered(actions, k) then !WriteMade(actions, k, false) else Closed(actions, k))
            && (CanDo(s, Collect(k, ContextError)) <==> CancelContext(k) in actions)
  {
    hide CanRun, Run, QueuedBy, WriteMade, Answered, Closed;
    RunFromStart(actions);
    var s := Run(INITIAL, actions);
    assert WritesTold(actions, s, k) && AnswersTold(actions, s, k) && CallerTold(actions, s, k);
    InvBounds(s);
    assert RespOk(s, k);
    hide Inv;
  }

  /**
   Results, in every reachable state: each is the one its caller collected.  A write error is only ever the result of a
   waiting message whose own write failed, so never of a flush; nil is that of a ticket dealt with whose write did not
   fail, or of a cancelled caller that was skipped.
  */
  lemma ResultsAreExact(actions: seq<Action>, k: int)
    requires CanRun(INITIAL, actions) && k in Run(INITIAL, actions).results
    ensures var s := Run(INITIAL, actions);
            var x := s.results[k];
            && Collect(k, x) in actions && 0 <= k < |s.queued| && Waits(s.queued[k])
            && (x == WriteError ==>
                  && s.queued[k].Message? && WriteMade(actions, k, false) && Answered(actions, k)
                  && s.failed && k == s.taken - 1 && !OnWire(s, k))
            && (x == Nil ==>
                  if Answered(actions, k) then k < s.taken && !WriteMade(actions, k, false)
                  else Closed(actions, k) && CancelContext(k) in actions)
            && (x == ContextError ==> CancelContext(k) in actions)
            && (x == ClosedError ==> Shutdown in actions || (s.failed && s.pc.Stopped?))
  {
    hide CanRun, Run, QueuedBy, WriteMade, Answered, Closed;
    RunFromStart(actions);
    var s := Run(INITIAL, actions);
    assert WritesTold(actions, s, k) && AnswersTold(actions, s, k) && CallerTold(actions, s, k);
    assert RespOk(s, k);
    MessagesOfMembers(s.queued, Handled(s));
    hide Inv, MessagesOf;
  }

  /**
   No one is left without an answer: a waiting caller the writer is through with, whose context was not cancelled, can
   collect what became of its own write, a write error if that failed and nil otherwise, and not the other.
  */
  lemma DealtWithMeansAnswered(actions: seq<Action>, k: int)
    requires CanRun(INITIAL, actions)
    requires var s := Run(INITIAL, actions);
             0 <= k < Dealt(s) && k < |s.queued| && Waits(s.queued[k]) && k !in s.results && k !in s.cancelled
    ensures var s := Run(INITIAL, actions);
            && Answered(actions, k) && Closed(actions, k)
            && if WriteMade(actions, k, false)
               then CanDo(s, Collect(k, WriteError)) && !CanDo(s, Collect(k, Nil))
               else CanDo(s, Collect(k, Nil)) && !CanDo(s, Collect(k, WriteError))
  {
    hide CanRun, Run, QueuedBy, WriteMade, Answered, Closed;
    RunFromStart(actions);
    CallersCanCollectExactly(actions, k);
    var s := Run(INITIAL, actions);
    assert AnswersTold(actions, s, k);
    InvBounds(s);
    assert RespOk(s, k);
    hide Inv, CanDo;
  }
}
