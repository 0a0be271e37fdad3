/**
 Who gets which reply: the outcome of every command, told by the actions of a run alone.

 Commands says what each action does; here a call's reply, its place in executeCommand and its result are read off
 the sequence of actions, and proved to be what the run arrives at.
*/
module CommandReplies {
  import opened Basics
  import opened Commands

  predicate RepliesTo(a: Action, k: nat) {
    a.Arrive? && a.reply.id == k + 1
  }

  /** The i-th action is the arrival of the first reply to call k between its listing and its leaving. */
  predicate FirstReplyAt(actions: seq<Action>, k: nat, i: int) {
    && 0 <= i < |actions| && RepliesTo(actions[i], k)
    && List(k) in actions[..i] && Leave(k) !in actions[..i]
    && forall j :: 0 <= j < i && RepliesTo(actions[j], k) ==> List(k) !in actions[..j]
  }

  predicate IsFirstReply(actions: seq<Action>, k: nat, r: Reply) {
    exists i :: 0 <= i < |actions| && FirstReplyAt(actions, k, i) && actions[i] == Arrive(r)
  }

  /** Listed, not gone, and nothing arrived yet. */
  predicate Awaits(actions: seq<Action>, k: nat) {
    && List(k) in actions && Leave(k) !in actions
    && forall i :: 0 <= i < |actions| ==> !FirstReplyAt(actions, k, i)
  }

  lemma FirstReplyOfMore(actions: seq<Action>, a: Action, k: nat, i: int)
    requires 0 <= i < |actions|
    ensures FirstReplyAt(actions + [a], k, i) <==> FirstReplyAt(actions, k, i)
  {
    forall j | 0 <= j <= i ensures (actions + [a])[..j] == actions[..j] {
    }
  }

  /** A further action brings the first reply exactly to a call that awaits one. */
  lemma FirstReplyNow(actions: seq<Action>, a: Action, k: nat)
    ensures FirstReplyAt(actions + [a], k, |actions|) <==> Awaits(actions, k) && RepliesTo(a, k)
  {
    var more := actions + [a];
    assert more[..|actions|] == actions;
    if List(k) in actions && Leave(k) !in actions {
      if j :| 0 <= j < |actions| && RepliesTo(actions[j], k) && List(k) in actions[..j] {
        var i := EarliestReply(actions, k, j);
        assert RepliesTo(more[i], k) && more[..i] == actions[..i];
      } else {
        forall j | 0 <= j < |actions| && RepliesTo(more[j], k) ensures List(k) !in more[..j] {
          assert more[..j] == actions[..j];
        }
      }
    }
  }

  lemma {:induction false} EarliestReply(actions: seq<Action>, k: nat, j: int) returns (i: int)
    requires 0 <= j < |actions| && RepliesTo(actions[j], k) && List(k) in actions[..j] && Leave(k) !in actions
    ensures FirstReplyAt(actions, k, i)
    decreases j
  {
    if h :| 0 <= h < j && RepliesTo(actions[h], k) && List(k) in actions[..h] {
      i := EarliestReply(actions, k, h);
    } else {
      i := j;
    }
  }

  lemma FirstReplyAfter(actions: seq<Action>, a: Action, k: nat, r: Reply)
    ensures IsFirstReply(actions + [a], k, r) <==>
            IsFirstReply(actions, k, r) || (Awaits(actions, k) && RepliesTo(a, k) && a.reply == r)
  {
    hide FirstReplyAt, Awaits;
    var more := actions + [a];
    FirstReplyNow(actions, a, k);
    forall i | 0 <= i < |actions| ensures FirstReplyAt(more, k, i) <==> FirstReplyAt(actions, k, i) {
      FirstReplyOfMore(actions, a, k, i);
    }
    if i :| 0 <= i < |actions| && FirstReplyAt(actions, k, i) && actions[i] == Arrive(r) {
      assert FirstReplyAt(more, k, i) && more[i] == Arrive(r);
    }
    if Awaits(actions, k) && RepliesTo(a, k) && a.reply == r {
      assert FirstReplyAt(more, k, |actions|) && more[|actions|] == Arrive(r);
    }
  }

  lemma AwaitsAfter(actions: seq<Action>, a: Action, k: nat)
    requires a == List(k) ==> forall i :: 0 <= i < |actions| ==> !FirstReplyAt(actions, k, i)
    ensures Awaits(actions + [a], k) <==>
            a != Leave(k) && ((Awaits(actions, k) && !RepliesTo(a, k)) || (a == List(k) && Leave(k) !in actions))
  {
    hide FirstReplyAt;
    var more := actions + [a];
    FirstReplyNow(actions, a, k);
    forall i | 0 <= i < |actions| ensures FirstReplyAt(more, k, i) <==> FirstReplyAt(actions, k, i) {
      FirstReplyOfMore(actions, a, k, i);
    }
    assert !Awaits(more, k) || !FirstReplyAt(more, k, |actions|);
  }

  // ------------------------------------------------------------ where the actions have brought a call

  predicate Ended(actions: seq<Action>, k: nat) {
    FailToWrite(k) in actions || Receive(k) in actions || TimeOut(k) in actions || Cancel(k) in actions
  }

  /** The call's place in executeCommand follows from which of its own actions have happened. */
  predicate PlaceOk(done: seq<Action>, s: State, k: nat) {
    if k < |s.calls| then
      match s.calls[k]
      case Numbered => List(k) !in done && Written(k) !in done && !Ended(done, k) && Leave(k) !in done
      case Listed => List(k) in done && Written(k) !in done && !Ended(done, k) && Leave(k) !in done
      case Waiting => List(k) in done && Written(k) in done && !Ended(done, k) && Leave(k) !in done
      case Leaving(result) => List(k) in done && Earned(done, k, result) && Leave(k) !in done
      case Returned(result) => List(k) in done && Earned(done, k, result) && Leave(k) in done
    else List(k) !in done && Written(k) !in done && !Ended(done, k) && Leave(k) !in done
  }

  /** Exactly one way of ending a call has happened, and the result is that one's. */
  predicate Earned(done: seq<Action>, k: nat, result: Result) {
    && (FailToWrite(k) in done <==> result.WriteFailed?)
    && (TimeOut(k) in done <==> result.TimedOut?)
    && (Cancel(k) in done <==> result.Cancelled?)
    && (Receive(k) in done <==> result.Replied?)
    && (Written(k) in done <==> !result.WriteFailed?)
    && (result.Replied? ==> IsFirstReply(done, k, result.reply))
  }

  /** In the reader's hands for the call, in the call's channel, or received by it. */
  predicate Reached(s: State, k: nat, r: Reply) {
    || s.reader == Sending(r, k)
    || (k < |s.chans| && s.chans[k].buffer == Some(r))
    || (k < |s.calls| && s.calls[k] in {Leaving(Replied(r)), Returned(Replied(r))})
  }

  ghost predicate MailOk(done: seq<Action>, s: State, k: nat) {
    && (Awaits(done, k) <==> IdOf(k) in s.messages)
    && (forall r :: IsFirstReply(done, k, r) <==> Reached(s, k, r))
  }

  ghost predicate AccountsFor(done: seq<Action>, s: State) {
    && Inv(s)
    && forall k: nat :: PlaceOk(done, s, k) && MailOk(done, s, k)
  }

  /** A step of the call's own goroutine. */
  predicate Own(a: Action, k: nat) {
    a in {List(k), Written(k), FailToWrite(k), Receive(k), TimeOut(k), Cancel(k), Leave(k)}
  }

  lemma PlaceKept(done: seq<Action>, s: State, a: Action, k: nat)
    requires CanDo(s, a) && PlaceOk(done, s, k) && !Own(a, k)
    ensures PlaceOk(done + [a], Do(s, a), k)
  {
    assert forall b :: b in done + [a] <==> b in done || b == a;
    forall r ensures IsFirstReply(done, k, r) ==> IsFirstReply(done + [a], k, r) {
      FirstReplyAfter(done, a, k, r);
    }
    hide IsFirstReply;
    var s' := Do(s, a);
    assert k < |s.calls| ==> s'.calls[k] == s.calls[k];
    assert |s.calls| <= k < |s'.calls| ==> s'.calls[k] == Numbered;
    hide Do, CanDo;
  }

  lemma PlaceMoves(done: seq<Action>, s: State, a: Action, k: nat)
    requires CanDo(s, a) && PlaceOk(done, s, k) && Own(a, k) && a != Receive(k)
    ensures PlaceOk(done + [a], Do(s, a), k)
  {
    assert forall b :: b in done + [a] <==> b in done || b == a;
    forall r ensures IsFirstReply(done, k, r) ==> IsFirstReply(done + [a], k, r) {
      FirstReplyAfter(done, a, k, r);
    }
    hide IsFirstReply;
  }

  /** What is received is what was in the channel. */
  lemma ReceiptMoves(done: seq<Action>, s: State, k: nat)
    requires Inv(s) && CanDo(s, Receive(k)) && PlaceOk(done, s, k) && MailOk(done, s, k)
    ensures PlaceOk(done + [Receive(k)], Do(s, Receive(k)), k)
  {
    assert forall b :: b in done + [Receive(k)] <==> b in done || b == Receive(k);
    ReceivesFromChannel(s, k);
    var r := s.chans[k].buffer.value;
    FirstReplyAfter(done, Receive(k), k, r);
    assert Reached(s, k, r);
    hide IsFirstReply, Awaits, Reached, Inv;
  }

  lemma ReceivesFromChannel(s: State, k: nat)
    requires Inv(s) && CanDo(s, Receive(k))
    ensures s.chans[k].buffer.Some?
  {
    assert CallOk(s, k);
  }

  /** What reaches a call is what arrives for it while it is listed, and it stays reached. */
  lemma ReachedAfter(s: State, a: Action, k: nat, r: Reply)
    requires Inv(s) && CanDo(s, a)
    ensures Reached(Do(s, a), k, r) <==>
            Reached(s, k, r) || (a == Arrive(r) && RepliesTo(a, k) && IdOf(k) in s.messages)
  {
    if k < |s.calls| {
      assert CallOk(s, k);
    }
    if a.Arrive? && a.reply.id in s.messages {
      assert CallOk(s, a.reply.id - 1);
    }
  }

  lemma MessagesAfter(s: State, a: Action, k: nat)
    requires Inv(s) && CanDo(s, a)
    ensures IdOf(k) in Do(s, a).messages <==>
            a == List(k) || (IdOf(k) in s.messages && a != Leave(k) && !RepliesTo(a, k))
  {
  }

  lemma NotListedNoReply(done: seq<Action>, k: nat)
    requires List(k) !in done
    ensures !Awaits(done, k) && forall i :: 0 <= i < |done| ==> !FirstReplyAt(done, k, i)
  {
  }

  lemma MailAfter(done: seq<Action>, s: State, a: Action, k: nat)
    requires Inv(s) && CanDo(s, a) && PlaceOk(done, s, k) && MailOk(done, s, k)
    ensures MailOk(done + [a], Do(s, a), k)
  {
    if a == List(k) {
      NotListedNoReply(done, k);
    }
    AwaitsAfter(done, a, k);
    MessagesAfter(s, a, k);
    var s' := Do(s, a);
    assert a == List(k) ==> Leave(k) !in done;
    hide Awaits, FirstReplyAt, IsFirstReply, Reached, Inv, CanDo, Do;
    forall r ensures IsFirstReply(done + [a], k, r) <==> Reached(s', k, r) {
      FirstReplyAfter(done, a, k, r);
      ReachedAfter(s, a, k, r);
    }
  }

  lemma StepAccounts(done: seq<Action>, s: State, a: Action)
    requires AccountsFor(done, s) && CanDo(s, a)
    ensures AccountsFor(done + [a], Do(s, a))
  {
    StepKeepsInv(s, a);
    hide Inv, CanDo, Do, PlaceOk, MailOk;
    forall k: nat ensures PlaceOk(done + [a], Do(s, a), k) && MailOk(done + [a], Do(s, a), k) {
      MailAfter(done, s, a, k);
      if a == Receive(k) {
        ReceiptMoves(done, s, k);
      } else if Own(a, k) {
        PlaceMoves(done, s, a, k);
      } else {
        PlaceKept(done, s, a, k);
      }
    }
  }

  lemma {:induction false} RunAccounts(done: seq<Action>, s: State, actions: seq<Action>)
    requires AccountsFor(done, s) && CanRun(s, actions)
    ensures AccountsFor(done + actions, Run(s, actions))
    decreases |actions|
  {
    hide AccountsFor, CanDo, Do;
    if actions == [] {
      assert done + actions == done;
    } else {
      StepAccounts(done, s, actions[0]);
      RunAccounts(done + [actions[0]], Do(s, actions[0]), actions[1..]);
      assert done + [actions[0]] + actions[1..] == done + actions;
    }
  }

  lemma RunFromStart(actions: seq<Action>)
    requires CanRun(INITIAL, actions)
    ensures AccountsFor(actions, Run(INITIAL, actions))
  {
    assert AccountsFor([], INITIAL);
    hide AccountsFor;
    RunAccounts([], INITIAL, actions);
    assert [] + actions == actions;
  }

  // ------------------------------------------------------------ main results

  /**
   Delivery.  The first reply that arrives for a call between its listing and its leaving is in the reader's hands for
   it, in its channel, or received by it; and nothing else ever is.
  */
  lemma FirstReplyReachesItsCaller(actions: seq<Action>, k: nat, r: Reply)
    requires CanRun(INITIAL, actions)
    ensures var s := Run(INITIAL, actions);
            IsFirstReply(actions, k, r) <==>
            || s.reader == Sending(r, k)
            || (k < |s.chans| && s.chans[k].buffer == Some(r))
            || (k < |s.calls| && s.calls[k] in {Leaving(Replied(r)), Returned(Replied(r))})
  {
    hide CanRun, Run, IsFirstReply;
    RunFromStart(actions);
    assert MailOk(actions, Run(INITIAL, actions), k);
  }

  /** A result is what its caller did: received that first reply, failed to write, timed out or was cancelled. */
  lemma ResultsAreEarned(actions: seq<Action>, k: nat)
    requires CanRun(INITIAL, actions) && k < |Run(INITIAL, actions).calls|
    ensures var pc := Run(INITIAL, actions).calls[k];
            && (pc.Leaving? || pc.Returned? <==> Ended(actions, k))
            && (pc.Leaving? || pc.Returned? ==>
                  && (pc.result.Replied? <==> Receive(k) in actions)
                  && (pc.result.Replied? ==> IsFirstReply(actions, k, pc.result.reply))
                  && (pc.result.WriteFailed? <==> FailToWrite(k) in actions)
                  && (pc.result.TimedOut? <==> TimeOut(k) in actions)
                  && (pc.result.Cancelled? <==> Cancel(k) in actions)
                  && !pc.result.ZeroReply?)
  {
    hide CanRun, Run, IsFirstReply;
    RunFromStart(actions);
    var s := Run(INITIAL, actions);
    assert PlaceOk(actions, s, k) && CallOk(s, k);
  }

  /** Where a call is follows from its own actions alone. */
  lemma PlaceFollowsFromActions(actions: seq<Action>, k: nat)
    requires CanRun(INITIAL, actions) && k < |Run(INITIAL, actions).calls|
    ensures var pc := Run(INITIAL, actions).calls[k];
            && (pc.Numbered? <==> List(k) !in actions)
            && (pc.Listed? <==> List(k) in actions && Written(k) !in actions && !Ended(actions, k))
            && (pc.Waiting? <==> Written(k) in actions && !Ended(actions, k))
            && (pc.Returned? <==> Leave(k) in actions)
  {
    hide CanRun, Run, IsFirstReply;
    RunFromStart(actions);
    var s := Run(INITIAL, actions);
    assert PlaceOk(actions, s, k) && CallOk(s, k);
  }

  /**
   A reply is dropped exactly when no call awaits it: not listed yet, gone, or answered already.  Otherwise the reader
   takes the call out of the map and turns to its channel.
  */
  lemma RepliesAreDroppedExactly(actions: seq<Action>, r: Reply)
    requires CanRun(INITIAL, actions) && CanDo(Run(INITIAL, actions), Arrive(r))
    ensures var s := Run(INITIAL, actions);
            var s' := Do(s, Arrive(r));
            && (s' == s.(arrived := s.arrived + [r]) <==>
                  forall k: nat :: RepliesTo(Arrive(r), k) ==> !Awaits(actions, k))
            && (forall k: nat :: RepliesTo(Arrive(r), k) && Awaits(actions, k) ==>
                  s'.reader == Sending(r, k) && s'.messages == s.messages - {r.id})
  {
    RunFromStart(actions);
    var s := Run(INITIAL, actions);
    hide CanRun, Run, Awaits, IsFirstReply;
    if r.id > 0 {
      assert RepliesTo(Arrive(r), r.id - 1) && MailOk(actions, s, r.id - 1);
      assert r.id in s.messages ==> CallOk(s, r.id - 1);
    }
  }

  /**
   No call is stuck, and no reply: a waiting call whose first reply has arrived receives that very reply, after at most
   the reader's send; without one it can still time out or be cancelled; and a call with a result can leave.
  */
  lemma NoCallIsStuck(actions: seq<Action>, k: nat)
    requires CanRun(INITIAL, actions) && k < |Run(INITIAL, actions).calls|
    ensures var s := Run(INITIAL, actions);
            && (s.calls[k].Numbered? ==> CanDo(s, List(k)))
            && (s.calls[k].Listed? ==> CanDo(s, Written(k)) && CanDo(s, FailToWrite(k)))
            && (s.calls[k].Waiting? ==> CanDo(s, TimeOut(k)) && CanDo(s, Cancel(k)))
            && (s.calls[k].Leaving? ==> CanDo(s, Leave(k)))
    ensures var s := Run(INITIAL, actions);
            forall r :: s.calls[k].Waiting? && IsFirstReply(actions, k, r) ==>
              if s.reader == Sending(r, k) then CanDo(s, Send) && CanReceive(Do(s, Send), k, r) else CanReceive(s, k, r)
  {
    FirstRepliesReach(actions, k);
    RunFromStart(actions);
    hide CanRun, Run, IsFirstReply;
    assert CallOk(Run(INITIAL, actions), k);
  }

  lemma FirstRepliesReach(actions: seq<Action>, k: nat)
    requires CanRun(INITIAL, actions)
    ensures forall r :: IsFirstReply(actions, k, r) <==> Reached(Run(INITIAL, actions), k, r)
  {
    hide CanRun, Run, IsFirstReply;
    RunFromStart(actions);
    assert MailOk(actions, Run(INITIAL, actions), k);
  }

  predicate CanReceive(s: State, k: nat, r: Reply) {
    CanDo(s, Receive(k)) && k < |Do(s, Receive(k)).calls| && Do(s, Receive(k)).calls[k] == Leaving(Replied(r))
  }
}
