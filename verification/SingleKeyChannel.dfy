/** The single-key channel: its receiver's turns and its `sync_pop` on objects, during which other threads push. */
module SingleKeyChannels {
  import opened Keys
  import opened SegQueues
  import opened ReceiverLoop
  import opened CallOrder
  import opened Util

  datatype Item<V> = Item(k: Key, v: V)

  /** Both queues, and for every key in use the messages waiting for it. */
  datatype Recv<V> = Recv(q: seq<Item<V>>, dropq: seq<Key>, using: map<Key, seq<Item<V>>>)

  datatype Got<V> = Got(e: Item<V>) | Nothing | MissingKey

  datatype Outcome<V> = Outcome(r: Recv<V>, got: Got<V>)

  datatype Turn = DropTurn | NewTurn

  predicate CanTurn<V>(r: Recv<V>, t: Turn) {
    match t
    case DropTurn => r.dropq != []
    case NewTurn => r.q != []
  }

  /**
    A dropped key passes to the first message waiting for it, or stops being in use; a new message
    waits exactly if its key is in use.
   */
  function DoTurn<V>(r: Recv<V>, t: Turn): Outcome<V>
    requires CanTurn(r, t)
  {
    match t
    case DropTurn =>
      var k, r' := r.dropq[0], r.(dropq := r.dropq[1..]);
      if k !in r.using then Outcome(r', MissingKey)
      else if r.using[k] != [] then Outcome(r'.(using := r.using[k := r.using[k][1..]]), Got(r.using[k][0]))
      else Outcome(r'.(using := r.using - {k}), Nothing)
    case NewTurn =>
      var e, r' := r.q[0], r.(q := r.q[1..]);
      if e.k in r.using then Outcome(r'.(using := r.using[e.k := r.using[e.k] + [e]]), Nothing)
      else Outcome(r'.(using := r.using[e.k := []]), Got(e))
  }

  // ---------------------------------------------------------------- a whole call

  type Table<V> = map<Key, seq<Item<V>>>
  type TableCall<V> = Call<Item<V>, Table<V>, Got<V>>
  type TableMove<V> = Move<Turn, Item<V>>

  /** The loop takes a dropped key or a message and does its turn. */
  ghost predicate Takes<V>(c: TableCall<V>, t: Turn, c': TableCall<V>) {
    var r := Recv(c.q, c.dropq, c.m);
    && (if t.DropTurn? then c.pc.PopDrop? else c.pc.PopQ?)
    && CanTurn(r, t)
    && var o := DoTurn(r, t); c' == Call(o.r.q, o.r.dropq, o.r.using, PopDrop, o.got)
  }

  predicate TakesKey(t: Turn) {
    t.DropTurn?
  }

  /** The moves `ms` lead the call from `start` to `now`. */
  ghost predicate CallLeads<V(!new)>(start: TableCall<V>, ms: seq<TableMove<V>>, now: TableCall<V>) {
    Leads(Takes, Nothing, start, ms, now)
  }

  lemma CallOrdered(start: TableCall<Value>, ms: seq<TableMove<Value>>, now: TableCall<Value>)
    requires CallLeads(start, ms, now) && start.pc.PopDrop? && start.got.Nothing?
    ensures var nq, nd := |start.q|, |start.dropq|;
            && KeysFirst(TakesKey, nd, ms) && PresentKeysFirst(TakesKey, nd, ms)
            && (now.pc.Decide? ==> EmptyTwice(TakesKey, nq, nd, ms) && BothEmptyOnce(TakesKey, nq, nd, ms))
            && (now.pc.Decide? && (forall mv | mv in ms :: !mv.Others?) ==> now.q == [] && now.dropq == [])
    ensures !now.got.Nothing? ==> ms != [] && ms[|ms| - 1].Take?
  {
    OrderOfCall(Takes, Nothing, TakesKey, start, ms, now);
  }

  /** How `sync_pop` ends; `Waits` stands for blocking on the listener. */
  datatype Popped = Message(k: Key, v: Value) | Closed | Waits | PanicMissingKey

  function GotOf(res: Popped): Got<Value> {
    match res
    case Message(k, v) => Got(Item(k, v))
    case PanicMissingKey => MissingKey
    case _ => Nothing
  }

  class Channel {
    const q: SegQueue<Item<Value>>
    const dropKeyQ: SegQueue<Key>
    var sendersDropped: bool
    var receiverDropped: bool
    /** How often `wake_recv_event` was notified. */
    var notified: nat
    /** The receiver's table: keys in use and the messages waiting for them. */
    var usingKeys: map<Key, seq<Item<Value>>>

    ghost predicate Apart() {
      q as object != dropKeyQ
    }

    /** Where a call stands whose receiver has not handed out anything yet. */
    ghost function Standing(pc: LoopPc): TableCall<Value>
      reads this`usingKeys, q, dropKeyQ
    {
      Call(q.items, dropKeyQ.items, usingKeys, pc, Nothing)
    }

    constructor ()
      ensures Apart() && fresh(q) && fresh(dropKeyQ) && Standing(PopDrop) == Call([], [], map[], PopDrop, Nothing)
      ensures !sendersDropped && !receiverDropped && notified == 0
    {
      q := new SegQueue();
      dropKeyQ := new SegQueue();
      sendersDropped, receiverDropped, notified, usingKeys := false, false, 0, map[];
    }

    method Notify()
      modifies this`notified
      ensures notified == old(notified) + 1
    {
      notified := notified + 1;
    }

    /** `Err(Closed)` once the receiver is gone, a push and a notification otherwise. */
    method Send(k: Key, v: Value) returns (ok: bool)
      modifies q, this`notified
      ensures ok <==> !receiverDropped
      ensures q.items == if ok then old(q.items) + [Item(k, v)] else old(q.items)
      ensures notified == if ok then old(notified) + 1 else old(notified)
    {
      if receiverDropped {
        return false;
      }
      q.Push(Item(k, v));
      Notify();
      return true;
    }

    /** Dropping a message gives its key back and notifies. */
    method DropMessage(k: Key)
      modifies dropKeyQ, this`notified
      ensures dropKeyQ.items == old(dropKeyQ.items) + [k] && notified == old(notified) + 1
    {
      dropKeyQ.Push(k);
      Notify();
    }

    /** The last sender is gone. */
    method DropSenders()
      modifies this`sendersDropped, this`notified
      ensures sendersDropped && notified == old(notified) + 1
    {
      sendersDropped := true;
      Notify();
    }

    /** The receiver is gone; nobody is notified. */
    method DropReceiver()
      modifies this`receiverDropped
      ensures receiverDropped
    {
      receiverDropped := true;
    }

    /** The senders may go away meanwhile. (The body is one such outcome.) */
    method SendersMayLeave()
      modifies this`sendersDropped
      ensures old(sendersDropped) ==> sendersDropped
    {
    }

    /** Pops one dropped key, whose first waiting message takes it over; `done` unless the loop goes on. */
    method ReleaseNext(ghost start: TableCall<Value>, ghost before: seq<TableMove<Value>>)
      returns (done: bool, got: Got<Value>, ghost ms: seq<TableMove<Value>>)
      requires Apart() && CallLeads(start, before, Standing(PopDrop))
      modifies this`usingKeys, dropKeyQ
      ensures CallLeads(start, ms, Standing(if done && got.Nothing? then PopQ else PopDrop).(got := got))
      ensures done && got.Nothing? ==> dropKeyQ.items == []
      ensures !done ==> got.Nothing? && |dropKeyQ.items| < |old(dropKeyQ.items)|
      ensures |dropKeyQ.items| <= |old(dropKeyQ.items)|
    {
      ghost var c := Standing(PopDrop);
      var k := dropKeyQ.Pop();
      if k.None? {
        OneMoreMove(Takes, Nothing, start, before, c, FoundEmpty, Standing(PopQ));
        return true, Nothing, before + [FoundEmpty];
      }
      ghost var o := DoTurn(Recv(c.q, c.dropq, c.m), DropTurn);
      OneMoreMove(Takes, Nothing, start, before, c, Take(DropTurn), Call(o.r.q, o.r.dropq, o.r.using, PopDrop, o.got));
      ms := before + [Take(DropTurn)];
      if k.value !in usingKeys {
        return true, MissingKey, ms;
      }
      var waiting := usingKeys[k.value];
      if waiting != [] {
        usingKeys := usingKeys[k.value := waiting[1..]];
        return true, Got(waiting[0]), ms;
      }
      usingKeys := usingKeys - {k.value};
      return false, Nothing, ms;
    }

    /** The `while let` loop over dropped keys. */
    method ReleaseDropped(room: nat, ghost start: TableCall<Value>, ghost before: seq<TableMove<Value>>)
      returns (got: Got<Value>, left: nat, ghost ms: seq<TableMove<Value>>)
      requires Apart() && CallLeads(start, before, Standing(PopDrop))
      modifies this`usingKeys, q, dropKeyQ
      ensures CallLeads(start, ms, Standing(if got.Nothing? then PopQ else PopDrop).(got := got))
      ensures got.Nothing? ==> dropKeyQ.items == []
      ensures |q.items| + |dropKeyQ.items| + 2 * left <= old(|q.items| + |dropKeyQ.items|) + 2 * room
    {
      left, ms := room, before;
      while true
        invariant CallLeads(start, ms, Standing(PopDrop))
        invariant |q.items| + |dropKeyQ.items| + 2 * left <= old(|q.items| + |dropKeyQ.items|) + 2 * room
        decreases |q.items| + |dropKeyQ.items| + 2 * left
      {
        left, ms := OthersPush(q, dropKeyQ, left, Takes, Nothing, start, ms, Standing(PopDrop));
        var done;
        done, got, ms := ReleaseNext(start, ms);
        if done {
          return;
        }
      }
    }

    /** Do the moves `ms` of the call lead to `res`? Without a message, both queues were found empty twice. */
    ghost predicate Answers(start: TableCall<Value>, ms: seq<TableMove<Value>>, res: Popped)
      reads this, q, dropKeyQ
    {
      && CallLeads(start, ms, Standing(if res.Closed? || res.Waits? then Decide else PopDrop).(got := GotOf(res)))
      && (res.Closed? || res.Waits? ==> (res.Closed? <==> usingKeys == map[] && sendersDropped))
    }

    /** The message popped from the queue waits for its key or is handed out; `done` unless the loop goes on. */
    method TakeNew(e: Item<Value>, ghost start: TableCall<Value>, ghost before: seq<TableMove<Value>>)
      returns (done: bool, ghost ms: seq<TableMove<Value>>)
      requires CallLeads(start, before, Call([e] + q.items, dropKeyQ.items, usingKeys, PopQ, Nothing))
      modifies this`usingKeys
      ensures CallLeads(start, ms, Standing(PopDrop).(got := if done then Got(e) else Nothing))
    {
      ghost var c := Call([e] + q.items, dropKeyQ.items, usingKeys, PopQ, Nothing);
      ghost var o := DoTurn(Recv(c.q, c.dropq, c.m), NewTurn);
      OneMoreMove(Takes, Nothing, start, before, c, Take(NewTurn), Call(o.r.q, o.r.dropq, o.r.using, PopDrop, o.got));
      ms := before + [Take(NewTurn)];
      if e.k in usingKeys {
        usingKeys := usingKeys[e.k := usingKeys[e.k] + [e]];
        done := false;
      } else {
        usingKeys := usingKeys[e.k := []];
        done := true;
      }
    }

    /** Nothing was popped: the queues are tested again before the receiver gives up or waits. */
    method Idle(room: nat, ghost start: TableCall<Value>, ghost before: seq<TableMove<Value>>)
      returns (done: bool, res: Popped, left: nat, ghost ms: seq<TableMove<Value>>)
      requires Apart() && q.items == [] && CallLeads(start, before, Standing(CheckQ))
      modifies q, dropKeyQ, this`sendersDropped
      ensures if done then Answers(start, ms, res) else CallLeads(start, ms, Standing(PopDrop))
      ensures !done ==>
                |q.items| + |dropKeyQ.items| + 2 * left
                  < old(|q.items| + |dropKeyQ.items|) + 2 * room + (if old(dropKeyQ.items) == [] then 0 else 1)
    {
      res := Waits;
      var more;
      more, left, ms := TestAgain(q, dropKeyQ, room, CheckQ, Takes, Nothing, start, before, usingKeys);
      if more {
        return false, res, left, ms;
      }
      more, left, ms := TestAgain(q, dropKeyQ, left, CheckDrop, Takes, Nothing, start, ms, usingKeys);
      if more {
        return false, res, left, ms;
      }
      SendersMayLeave();
      done, res := true, if usingKeys == map[] && sendersDropped then Closed else Waits;
    }

    /** The receiver's loop, once around. */
    method TryPopOnce(room: nat, ghost start: TableCall<Value>, ghost before: seq<TableMove<Value>>)
      returns (done: bool, res: Popped, left: nat, ghost ms: seq<TableMove<Value>>)
      requires Apart() && CallLeads(start, before, Standing(PopDrop))
      modifies this`usingKeys, this`sendersDropped, q, dropKeyQ
      ensures if done then Answers(start, ms, res) else CallLeads(start, ms, Standing(PopDrop))
      ensures !done ==> |q.items| + |dropKeyQ.items| + 2 * left < old(|q.items| + |dropKeyQ.items|) + 2 * room
    {
      var got;
      got, left, ms := ReleaseDropped(room, start, before);
      match got {
        case Got(e) => return true, Message(e.k, e.v), left, ms;
        case MissingKey => return true, PanicMissingKey, left, ms;
        case Nothing =>
      }
      left, ms := OthersPush(q, dropKeyQ, left, Takes, Nothing, start, ms, Standing(PopQ));
      ghost var c := Standing(PopQ);
      var next := q.Pop();
      if next.Some? {
        assert c.q == [next.value] + q.items;
        done, ms := TakeNew(next.value, start, ms);
        res := Message(next.value.k, next.value.v);
        return;
      }
      OneMoreMove(Takes, Nothing, start, ms, c, FoundEmpty, Standing(CheckQ));
      done, res, left, ms := Idle(left, start, ms + [FoundEmpty]);
    }

    /**
      The nested loops of the receiver, while other threads push at most `room` more messages and
      keys: dropped keys first, then new messages, up to the first that is handed out. It ends
      without one only after both queues were found empty and then empty again: closed if no key is
      in use and the senders are gone, blocked otherwise.
     */
    method SyncPop(room: nat) returns (res: Popped, ghost ms: seq<TableMove<Value>>)
      requires Apart()
      modifies this`usingKeys, this`sendersDropped, q, dropKeyQ
      ensures Answers(old(Standing(PopDrop)), ms, res)
      ensures KeysFirst(TakesKey, old(|dropKeyQ.items|), ms) && PresentKeysFirst(TakesKey, old(|dropKeyQ.items|), ms)
      ensures res.Message? || res.PanicMissingKey? ==> ms != [] && ms[|ms| - 1].Take?
      ensures res.Closed? || res.Waits? ==>
                && EmptyTwice(TakesKey, old(|q.items|), old(|dropKeyQ.items|), ms)
                && BothEmptyOnce(TakesKey, old(|q.items|), old(|dropKeyQ.items|), ms)
                && ((forall mv | mv in ms :: !mv.Others?) ==> q.items == [] && dropKeyQ.items == [])
    {
      ghost var start := Standing(PopDrop);
      var left := room;
      ms := [];
      while true
        invariant CallLeads(start, ms, Standing(PopDrop))
        decreases |q.items| + |dropKeyQ.items| + 2 * left
      {
        var done;
        done, res, left, ms := TryPopOnce(left, start, ms);
        if done {
          CallOrdered(start, ms, Standing(if res.Closed? || res.Waits? then Decide else PopDrop).(got := GotOf(res)));
          return;
        }
      }
    }
  }
}
