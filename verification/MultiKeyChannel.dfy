/**
  The multi-key channel with its receiver, on objects: sending, dropping a message and the
  receiver's `sync_pop`, during which other threads push. `MultiKeySystem` has the same turns as
  steps of whole runs.
 */
module MultiKeyChannels {
  import opened Util
  import opened Keys
  import opened ConflictSpec
  import opened ReceiverLoop
  import opened CallOrder
  import opened ReceiverSpec
  import opened SegQueues
  import opened ConflictManagers

  /** How `sync_pop` ends; `Waits` stands for blocking on the listener. */
  datatype Popped = Message(ks: seq<Key>, v: Value) | Closed | Waits | Panics(why: Panic)

  lemma CallOrdered(start: ManagerCall<Value>, ms: seq<ManagerMove<Value>>, now: ManagerCall<Value>)
    requires CallLeads(start, ms, now) && start.pc.PopDrop? && start.got.Nothing?
    ensures var nq, nd := |start.q|, |start.dropq|;
            && KeysFirst(TakesKey, nd, ms) && PresentKeysFirst(TakesKey, nd, ms)
            && (now.pc.Decide? ==> EmptyTwice(TakesKey, nq, nd, ms) && BothEmptyOnce(TakesKey, nq, nd, ms))
            && (now.pc.Decide? && (forall mv | mv in ms :: !mv.Others?) ==> now.q == [] && now.dropq == [])
    ensures !now.got.Nothing? ==> ms != [] && ms[|ms| - 1].Take?
  {
    OrderOfCall(Takes, Nothing, TakesKey, start, ms, now);
  }

  class Channel {
    const q: SegQueue<Msg<Value>>
    const dropKeyQ: SegQueue<Key>
    var sendersDropped: bool
    var receiverDropped: bool
    /** How often `wake_recv_event` was notified. */
    var notified: nat

    constructor ()
      ensures Apart() && fresh(q) && fresh(dropKeyQ) && q.items == [] && dropKeyQ.items == []
      ensures !sendersDropped && !receiverDropped && notified == 0
    {
      q := new SegQueue();
      dropKeyQ := new SegQueue();
      sendersDropped, receiverDropped, notified := false, false, 0;
    }

    ghost predicate Apart() {
      q as object != dropKeyQ
    }

    method Notify()
      modifies this`notified
      ensures notified == old(notified) + 1
    {
      notified := notified + 1;
    }

    /** `Err(Closed)` once the receiver is gone, a push and a notification otherwise. */
    method Send(ks: seq<Key>, v: Value) returns (ok: bool)
      modifies q, this`notified
      ensures ok <==> !receiverDropped
      ensures q.items == if ok then old(q.items) + [Msg(ks, v)] else old(q.items)
      ensures notified == if ok then old(notified) + 1 else old(notified)
    {
      if receiverDropped {
        return false;
      }
      q.Push(Msg(ks, v));
      Notify();
      return true;
    }

    /** Dropping a message pushes its keys, last key first, and notifies once. */
    method DropMessage(keys: seq<Key>)
      modifies dropKeyQ, this`notified
      ensures dropKeyQ.items == old(dropKeyQ.items) + Reversed(keys)
      ensures notified == old(notified) + 1
    {
      var ks := keys;
      while ks != []
        invariant ks <= keys && notified == old(notified)
        invariant dropKeyQ.items == old(dropKeyQ.items) + Reversed(keys)[..|keys| - |ks|]
        decreases |ks|
      {
        ReversedAt(keys, |keys| - |ks|);
        dropKeyQ.Push(ks[|ks| - 1]);
        ks := ks[..|ks| - 1];
      }
      assert Reversed(keys)[..|keys|] == Reversed(keys);
      Notify();
    }

    /** The last sender is gone. */
    method DropSenders()
      modifies this`sendersDropped, this`notified
      ensures sendersDropped && notified == old(notified) + 1
    {
      sendersDropped := true;
      Notify();
    }

    /** The receiver is gone. */
    method DropReceiver()
      modifies this`receiverDropped, this`notified
      ensures receiverDropped && notified == old(notified) + 1
    {
      receiverDropped := true;
      Notify();
    }

    /** The senders may go away meanwhile. (The body is one such outcome.) */
    method SendersMayLeave()
      modifies this`sendersDropped
      ensures old(sendersDropped) ==> sendersDropped
    {
    }

    ghost function GotOf(res: Popped): Got<Value> {
      match res
      case Message(ks, v) => Got(ks, v)
      case Panics(why) => Panicked(why)
      case _ => Nothing
    }

    /** Do the moves `ms` of the call lead to `res`? Without a message, both queues were found empty twice. */
    ghost predicate Answers(cm: ConflictManager, start: ManagerCall<Value>, ms: seq<ManagerMove<Value>>, res: Popped)
      reads this, q, dropKeyQ, cm, cm.states, cm.msgs
    {
      && LeadsTo(Takes, Nothing, start, ms, GotOf(res))
      && (res.Message? ==> cm.Valid() && CallLeads(start, ms, cm.Standing(q, dropKeyQ, PopDrop).(got := GotOf(res))))
      && (res.Closed? || res.Waits? ==>
            && cm.Valid() && CallLeads(start, ms, cm.Standing(q, dropKeyQ, Decide))
            && (res.Closed? <==> cm.model.waiting == map[] && sendersDropped))
    }

    /** The message popped from the queue becomes active or waits; `done` unless the loop goes on. */
    method TakeNew(cm: ConflictManager, next: Msg<Value>,
                   ghost start: ManagerCall<Value>, ghost before: seq<ManagerMove<Value>>)
      returns (done: bool, res: Popped, ghost ms: seq<ManagerMove<Value>>)
      requires Apart() && cm.Valid()
      requires CallLeads(start, before, Call([next] + q.items, dropKeyQ.items, cm.model, PopQ, Nothing))
      modifies cm, cm.states`using, cm.states`waitingmsgs
      ensures done ==> Answers(cm, start, ms, res) && !res.Closed? && !res.Waits?
      ensures !done ==> cm.Valid() && CallLeads(start, ms, cm.Standing(q, dropKeyQ, PopDrop))
      ensures forall s | s in cm.states :: s in old(cm.states) || fresh(s)
      ensures forall w | w in cm.msgs :: w in old(cm.msgs) || fresh(w)
    {
      ghost var c := Call([next] + q.items, dropKeyQ.items, cm.model, PopQ, Nothing);
      ghost var o := DoTurn(Recv(c.q, c.dropq, c.m), NewTurn);
      OneMoreMove(Takes, Nothing, start, before, c, Take(NewTurn), Call(o.r.q, o.r.dropq, o.r.m, PopDrop, o.got));
      ms := before + [Take(NewTurn)];
      var got := cm.HandleNewMsg(next.ks, next.v);
      match got {
        case Got(ks, v) => done, res := true, Message(ks, v);
        case Panicked(why) => done, res := true, Panics(why);
        case Nothing => done, res := false, Waits;
      }
    }

    /** The receiver's loop, once around. */
    method TryPopOnce(cm: ConflictManager, room: nat,
                      ghost start: ManagerCall<Value>, ghost before: seq<ManagerMove<Value>>)
      returns (done: bool, res: Popped, left: nat, ghost ms: seq<ManagerMove<Value>>)
      requires Apart() && cm.Valid() && CallLeads(start, before, cm.Standing(q, dropKeyQ, PopDrop))
      modifies q, dropKeyQ, cm, cm.states`using, cm.states`waitingmsgs, cm.msgs`ksV, cm.msgs`alive, this`sendersDropped
      ensures done ==> Answers(cm, start, ms, res)
      ensures !done ==> cm.Valid() && CallLeads(start, ms, cm.Standing(q, dropKeyQ, PopDrop))
      ensures !done ==> |q.items| + |dropKeyQ.items| + 2 * left < old(|q.items| + |dropKeyQ.items|) + 2 * room
      ensures forall s | s in cm.states :: s in old(cm.states) || fresh(s)
      ensures forall w | w in cm.msgs :: w in old(cm.msgs) || fresh(w)
    {
      var got;
      got, left, ms := cm.UnuseAllDropedKey(dropKeyQ, q, room, start, before);
      match got {
        case Got(ks, v) => return true, Message(ks, v), left, ms;
        case Panicked(why) => return true, Panics(why), left, ms;
        case Nothing => done, res, left, ms := PopNew(cm, left, start, ms);
      }
    }

    /** All dropped keys are released: one message from the queue, if there is one. */
    method PopNew(cm: ConflictManager, room: nat,
                  ghost start: ManagerCall<Value>, ghost before: seq<ManagerMove<Value>>)
      returns (done: bool, res: Popped, left: nat, ghost ms: seq<ManagerMove<Value>>)
      requires Apart() && cm.Valid() && dropKeyQ.items == [] && CallLeads(start, before, cm.Standing(q, dropKeyQ, PopQ))
      modifies q, dropKeyQ, cm, cm.states`using, cm.states`waitingmsgs, this`sendersDropped
      ensures done ==> Answers(cm, start, ms, res)
      ensures !done ==> cm.Valid() && CallLeads(start, ms, cm.Standing(q, dropKeyQ, PopDrop))
      ensures !done ==> |q.items| + |dropKeyQ.items| + 2 * left < old(|q.items| + |dropKeyQ.items|) + 2 * room
      ensures forall s | s in cm.states :: s in old(cm.states) || fresh(s)
      ensures forall w | w in cm.msgs :: w in old(cm.msgs) || fresh(w)
    {
      var next;
      next, left, ms := PopMessage(cm, room, start, before);
      if next.Some? {
        done, res, ms := TakeNew(cm, next.value, start, ms);
      } else {
        done, res, left, ms := Idle(cm, left, start, ms);
      }
    }

    /** `q.pop()`, after other threads pushed. */
    method PopMessage(cm: ConflictManager, room: nat,
                      ghost start: ManagerCall<Value>, ghost before: seq<ManagerMove<Value>>)
      returns (next: Option<Msg<Value>>, left: nat, ghost ms: seq<ManagerMove<Value>>)
      requires Apart() && CallLeads(start, before, cm.Standing(q, dropKeyQ, PopQ))
      modifies q, dropKeyQ
      ensures next.Some? ==>
                CallLeads(start, ms, Call([next.value] + q.items, dropKeyQ.items, cm.model, PopQ, Nothing))
      ensures next == None ==> q.items == [] && CallLeads(start, ms, cm.Standing(q, dropKeyQ, CheckQ))
      ensures |q.items| + |dropKeyQ.items| + 2 * left + (if next.Some? then 1 else 0)
           <= old(|q.items| + |dropKeyQ.items|) + 2 * room
      ensures next == None && dropKeyQ.items != old(dropKeyQ.items) ==>
                |q.items| + |dropKeyQ.items| + 2 * left < old(|q.items| + |dropKeyQ.items|) + 2 * room
    {
      left, ms := OthersPush(q, dropKeyQ, room, Takes, Nothing, start, before, cm.Standing(q, dropKeyQ, PopQ));
      ghost var c := cm.Standing(q, dropKeyQ, PopQ);
      next := q.Pop();
      if next.Some? {
        assert c.q == [next.value] + q.items;
      } else {
        OneMoreMove(Takes, Nothing, start, ms, c, FoundEmpty, cm.Standing(q, dropKeyQ, CheckQ));
        ms := ms + [FoundEmpty];
      }
    }

    /** Nothing was popped: the queues are tested again before the receiver gives up or waits. */
    method Idle(cm: ConflictManager, room: nat, ghost start: ManagerCall<Value>, ghost before: seq<ManagerMove<Value>>)
      returns (done: bool, res: Popped, left: nat, ghost ms: seq<ManagerMove<Value>>)
      requires Apart() && cm.Valid() && q.items == [] && CallLeads(start, before, cm.Standing(q, dropKeyQ, CheckQ))
      modifies q, dropKeyQ, this`sendersDropped
      ensures done ==> Answers(cm, start, ms, res)
      ensures !done ==> cm.Valid() && CallLeads(start, ms, cm.Standing(q, dropKeyQ, PopDrop))
      ensures !done ==>
                |q.items| + |dropKeyQ.items| + 2 * left
                  < old(|q.items| + |dropKeyQ.items|) + 2 * room + (if old(dropKeyQ.items) == [] then 0 else 1)
    {
      res := Waits;
      var more;
      more, left, ms := TestAgain(q, dropKeyQ, room, CheckQ, Takes, Nothing, start, before, cm.model);
      if more {
        return false, res, left, ms;
      }
      more, left, ms := TestAgain(q, dropKeyQ, left, CheckDrop, Takes, Nothing, start, ms, cm.model);
      if more {
        return false, res, left, ms;
      }
      done := true;
      res := GiveUpOrWait(cm, start, ms);
    }

    /** Both queues were empty: the table and the senders' flag decide. */
    method GiveUpOrWait(cm: ConflictManager, ghost start: ManagerCall<Value>, ghost ms: seq<ManagerMove<Value>>)
      returns (res: Popped)
      requires cm.Valid() && CallLeads(start, ms, cm.Standing(q, dropKeyQ, Decide))
      modifies this`sendersDropped
      ensures Answers(cm, start, ms, res)
    {
      SendersMayLeave();
      var waitingExist := cm.WaitingmsgsExist();
      res := if !waitingExist && sendersDropped then Closed else Waits;
    }

    /** The moves that lead to an answer are in order. */
    lemma AnswersInOrder(cm: ConflictManager, start: ManagerCall<Value>, ms: seq<ManagerMove<Value>>, res: Popped)
      requires Answers(cm, start, ms, res) && start.pc.PopDrop? && start.got.Nothing?
      ensures var nq, nd := |start.q|, |start.dropq|;
              && KeysFirst(TakesKey, nd, ms) && PresentKeysFirst(TakesKey, nd, ms)
              && (res.Message? || res.Panics? ==> ms != [] && ms[|ms| - 1].Take?)
              && (res.Closed? || res.Waits? ==>
                    && EmptyTwice(TakesKey, nq, nd, ms) && BothEmptyOnce(TakesKey, nq, nd, ms)
                    && ((forall mv | mv in ms :: !mv.Others?) ==> q.items == [] && dropKeyQ.items == []))
    {
      var now: ManagerCall<Value> :| Leads(Takes, Nothing, start, ms, now) && now.got == GotOf(res);
      CallOrdered(start, ms, now);
      if res.Closed? || res.Waits? {
        CallOrdered(start, ms, cm.Standing(q, dropKeyQ, Decide));
      }
    }

    /**
      The receiver's loop, while other threads push at most `room` more messages and keys: moves up
      to the first that hands out a message or panics. It ends without one only after both queues
      were found empty and then empty again: closed if nothing waits and the senders are gone,
      blocked otherwise.
     */
    method SyncPop(cm: ConflictManager, room: nat) returns (res: Popped, ghost ms: seq<ManagerMove<Value>>)
      requires Apart() && cm.Valid()
      modifies q, dropKeyQ, cm, cm.states`using, cm.states`waitingmsgs, cm.msgs`ksV, cm.msgs`alive, this`sendersDropped
      ensures Answers(cm, old(cm.Standing(q, dropKeyQ, PopDrop)), ms, res)
      ensures KeysFirst(TakesKey, old(|dropKeyQ.items|), ms) && PresentKeysFirst(TakesKey, old(|dropKeyQ.items|), ms)
      ensures res.Message? || res.Panics? ==> ms != [] && ms[|ms| - 1].Take?
      ensures res.Closed? || res.Waits? ==>
                && EmptyTwice(TakesKey, old(|q.items|), old(|dropKeyQ.items|), ms)
                && BothEmptyOnce(TakesKey, old(|q.items|), old(|dropKeyQ.items|), ms)
                && ((forall mv | mv in ms :: !mv.Others?) ==> q.items == [] && dropKeyQ.items == [])
    {
      ghost var start := cm.Standing(q, dropKeyQ, PopDrop);
      var left := room;
      ms := [];
      while true
        invariant cm.Valid() && CallLeads(start, ms, cm.Standing(q, dropKeyQ, PopDrop))
        invariant forall s | s in cm.states :: s in old(cm.states) || fresh(s)
        invariant forall w | w in cm.msgs :: w in old(cm.msgs) || fresh(w)
        decreases |q.items| + |dropKeyQ.items| + 2 * left
      {
        var done;
        done, res, left, ms := TryPopOnce(cm, left, start, ms);
        if done {
          AnswersInOrder(cm, start, ms, res);
          return;
        }
      }
    }
  }
}
