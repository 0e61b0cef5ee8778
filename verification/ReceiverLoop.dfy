/**
  The loop of `sync_pop`, which both channels share: it pops dropped keys, then messages, and
  tests both queues again before it gives up or waits. Other threads push all the while. What a
  channel does with a key or a message it passes as the relation `take`.
 */
module ReceiverLoop {
  import opened Keys
  import opened SegQueues

  /** Where the loop stands: about to pop a key or a message, to test one of the queues again, or to decide. */
  datatype LoopPc = PopDrop | PopQ | CheckQ | CheckDrop | Decide

  /** A call in progress: both queues, the receiver's tables, and what it has to hand out. */
  datatype Call<I, M, G> = Call(q: seq<I>, dropq: seq<Key>, m: M, pc: LoopPc, got: G)

  /** What can happen during a call. */
  datatype Move<T, I> =
    | Take(turn: T)                                // something was popped and dealt with
    | FoundEmpty                                   // the queue at hand is empty
    | FoundMore                                    // it is not, so the loop starts again
    | Others(msgs: seq<I>, keys: seq<Key>)         // other threads push

  /** The queue at hand was empty. */
  function After(pc: LoopPc): LoopPc {
    match pc
    case PopDrop => PopQ
    case PopQ => CheckQ
    case CheckQ => CheckDrop
    case _ => Decide
  }

  /** The queue that the loop looks at next is empty. */
  predicate SeesNothing<I, M, G>(c: Call<I, M, G>) {
    match c.pc
    case PopDrop => c.dropq == []
    case CheckDrop => c.dropq == []
    case Decide => false
    case _ => c.q == []
  }

  /** The move `mv` leads from `c` to `c'`; `idle` is what a call has to hand out while it goes on. */
  ghost predicate Moves<T, I, M, G>(
    take: (Call<I, M, G>, T, Call<I, M, G>) -> bool, idle: G,
    c: Call<I, M, G>, mv: Move<T, I>, c': Call<I, M, G>)
  {
    && c.got == idle
    && match mv
       case Take(turn) => take(c, turn, c')
       case FoundEmpty => SeesNothing(c) && c' == c.(pc := After(c.pc))
       case FoundMore => (c.pc.CheckQ? || c.pc.CheckDrop?) && !SeesNothing(c) && c' == c.(pc := PopDrop)
       case Others(msgs, keys) => c' == c.(q := c.q + msgs, dropq := c.dropq + keys)
  }

  /** The moves `ms` lead the call from `start` to `now`. */
  ghost predicate Leads<T, I(!new), M(!new), G(!new)>(
    take: (Call<I, M, G>, T, Call<I, M, G>) -> bool, idle: G,
    start: Call<I, M, G>, ms: seq<Move<T, I>>, now: Call<I, M, G>)
    decreases |ms|
  {
    if ms == [] then now == start
    else
      var n := |ms| - 1;
      exists c :: Leads(take, idle, start, ms[..n], c) && Moves(take, idle, c, ms[n], now)
  }

  lemma OneMoreMove<T, I(!new), M(!new), G(!new)>(
    take: (Call<I, M, G>, T, Call<I, M, G>) -> bool, idle: G,
    start: Call<I, M, G>, ms: seq<Move<T, I>>, c: Call<I, M, G>, mv: Move<T, I>, c': Call<I, M, G>)
    requires Leads(take, idle, start, ms, c) && Moves(take, idle, c, mv, c')
    ensures Leads(take, idle, start, ms + [mv], c')
  {
    assert (ms + [mv])[..|ms|] == ms;
  }

  /** The moves `ms` are possible and leave `got` to hand out. */
  ghost predicate LeadsTo<T, I(!new), M(!new), G(!new)>(
    take: (Call<I, M, G>, T, Call<I, M, G>) -> bool, idle: G,
    start: Call<I, M, G>, ms: seq<Move<T, I>>, got: G)
  {
    exists c :: Leads(take, idle, start, ms, c) && c.got == got
  }

  /**
    Other threads push messages and dropped keys, at most `room` in all. (The body is one such
    outcome; callers see the contract only.)
   */
  method OthersPush<T, I(!new), M(!new), G(!new)>(
    q: SegQueue<I>, dropq: SegQueue<Key>, room: nat,
    ghost take: (Call<I, M, G>, T, Call<I, M, G>) -> bool, ghost idle: G,
    ghost start: Call<I, M, G>, ghost before: seq<Move<T, I>>, ghost c: Call<I, M, G>)
    returns (left: nat, ghost ms: seq<Move<T, I>>)
    requires dropq as object != q
    requires Leads(take, idle, start, before, c) && c.got == idle && c.q == q.items && c.dropq == dropq.items
    modifies q, dropq
    ensures Leads(take, idle, start, ms, c.(q := q.items, dropq := dropq.items))
    ensures exists msgs, keys :: ms == before + [Others(msgs, keys)]
    ensures old(q.items) <= q.items && old(dropq.items) <= dropq.items
    ensures left + (|q.items| - |old(q.items)|) + (|dropq.items| - |old(dropq.items)|) <= room
  {
    ghost var mv: Move<T, I> := Others([], []);
    left, ms := room, before + [mv];
    assert c.q + [] == c.q && c.dropq + [] == c.dropq;
    OneMoreMove(take, idle, start, before, c, mv, c);
  }

  /** One test of a queue, after other threads pushed: empty, or the loop starts again. */
  method TestAgain<T, I(!new), M(!new), G(!new)>(
    q: SegQueue<I>, dropq: SegQueue<Key>, room: nat, pc: LoopPc,
    ghost take: (Call<I, M, G>, T, Call<I, M, G>) -> bool, ghost idle: G,
    ghost start: Call<I, M, G>, ghost before: seq<Move<T, I>>, ghost m: M)
    returns (more: bool, left: nat, ghost ms: seq<Move<T, I>>)
    requires dropq as object != q && (pc.CheckQ? || pc.CheckDrop?)
    requires Leads(take, idle, start, before, Call(q.items, dropq.items, m, pc, idle))
    modifies q, dropq
    ensures Leads(take, idle, start, ms, Call(q.items, dropq.items, m, if more then PopDrop else After(pc), idle))
    ensures old(q.items) <= q.items && old(dropq.items) <= dropq.items
    ensures left + (|q.items| - |old(q.items)|) + (|dropq.items| - |old(dropq.items)|) <= room
    ensures more <==> (if pc.CheckQ? then q.items != [] else dropq.items != [])
  {
    left, ms := OthersPush(q, dropq, room, take, idle, start, before, Call(q.items, dropq.items, m, pc, idle));
    more := if pc.CheckQ? then q.items != [] else dropq.items != [];
    ghost var c := Call(q.items, dropq.items, m, pc, idle);
    ghost var mv: Move<T, I> := if more then FoundMore else FoundEmpty;
    OneMoreMove(take, idle, start, ms, c, mv, c.(pc := if more then PopDrop else After(pc)));
    ms := ms + [mv];
  }
}
