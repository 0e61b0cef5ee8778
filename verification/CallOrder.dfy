/**
  The order of a call of `sync_pop`, told by its moves alone: which queue was found empty when,
  and which turns came before which. Nothing here speaks of where the loop stands, except the
  proof that the calls of `ReceiverLoop` keep to it.
 */
module CallOrder {
  import opened Keys
  import opened ReceiverLoop

  /** The two queues, of dropped keys and of messages. */
  datatype Side = DroppedKeys | Messages

  /** What is left in a queue of `n` elements after the moves `ms`; `takesKey` tells the turns apart. */
  function Left<T, I>(takesKey: T -> bool, side: Side, n: nat, ms: seq<Move<T, I>>): int {
    if ms == [] then n
    else
      var before := Left(takesKey, side, n, ms[..|ms| - 1]);
      match ms[|ms| - 1]
      case Take(turn) => if takesKey(turn) == side.DroppedKeys? then before - 1 else before
      case Others(msgs, keys) => before + if side.DroppedKeys? then |keys| else |msgs|
      case _ => before
  }

  /** How many dropped keys the moves have dealt with. */
  function KeyTurns<T, I>(takesKey: T -> bool, ms: seq<Move<T, I>>): nat {
    if ms == [] then 0
    else KeyTurns(takesKey, ms[..|ms| - 1]) + if IsKeyTurn(takesKey, ms[|ms| - 1]) then 1 else 0
  }

  predicate IsKeyTurn<T, I>(takesKey: T -> bool, mv: Move<T, I>) {
    mv.Take? && takesKey(mv.turn)
  }

  predicate IsNewTurn<T, I>(takesKey: T -> bool, mv: Move<T, I>) {
    mv.Take? && !takesKey(mv.turn)
  }

  /** From `p` on, the loop has dealt with nothing and not begun anew. */
  predicate Still<T, I>(ms: seq<Move<T, I>>, p: nat) {
    forall i | p <= i < |ms| :: ms[i].FoundEmpty? || ms[i].Others?
  }

  /** The loop looked at the queue, and the queue was empty. */
  predicate SeenEmpty<T, I>(takesKey: T -> bool, side: Side, n: nat, ms: seq<Move<T, I>>, p: nat) {
    p < |ms| && ms[p].FoundEmpty? && Left(takesKey, side, n, ms[..p]) == 0
  }

  /** Which queue the loop looks at: keys, messages, and then messages and keys again. */
  function LooksAt(k: nat): Side {
    if k == 0 || k == 3 then DroppedKeys else Messages
  }

  /** `looks` are the places of the loop's looks at its queues since its last turn or restart; all were empty. */
  predicate Looked<T, I>(takesKey: T -> bool, nq: nat, nd: nat, ms: seq<Move<T, I>>, looks: seq<nat>) {
    && |looks| <= 4
    && (looks != [] ==> Still(ms, looks[0]))
    && (forall i, j | 0 <= i < j < |looks| :: looks[i] < looks[j])
    && (forall i | 0 <= i < |looks| ::
          SeenEmpty(takesKey, LooksAt(i), if LooksAt(i) == DroppedKeys then nd else nq, ms, looks[i]))
  }

  /** The queue of dropped keys has been found empty since the last turn or restart. */
  ghost predicate KeysGone<T(!new), I(!new)>(takesKey: T -> bool, nd: nat, ms: seq<Move<T, I>>) {
    exists p: nat :: Still(ms, p) && SeenEmpty(takesKey, DroppedKeys, nd, ms, p)
  }

  /** A message is taken only when no dropped key was left. */
  ghost predicate KeysFirst<T(!new), I(!new)>(takesKey: T -> bool, nd: nat, ms: seq<Move<T, I>>) {
    forall j | 0 <= j < |ms| && IsNewTurn(takesKey, ms[j]) :: KeysGone(takesKey, nd, ms[..j])
  }

  /**
    Before a message is taken, as many keys have been dealt with since the beginning of the call, or
    since any earlier turn, as there were then.
   */
  ghost predicate PresentKeysFirst<T, I>(takesKey: T -> bool, nd: nat, ms: seq<Move<T, I>>) {
    forall i, j | 0 <= i <= j < |ms| && IsNewTurn(takesKey, ms[j]) && (i == 0 || ms[i - 1].Take?) ::
      KeyTurns(takesKey, ms[..j]) - KeyTurns(takesKey, ms[..i]) >= Left(takesKey, DroppedKeys, nd, ms[..i])
  }

  /** Since its last turn or restart the loop found keys, messages, messages and keys gone, in this order. */
  ghost predicate EmptyTwice<T(!new), I(!new)>(takesKey: T -> bool, nq: nat, nd: nat, ms: seq<Move<T, I>>) {
    exists looks: seq<nat> :: |looks| == 4 && Looked(takesKey, nq, nd, ms, looks)
  }

  /** Both queues were empty at once, later than the last turn. */
  ghost predicate BothEmptyOnce<T(!new), I(!new)>(takesKey: T -> bool, nq: nat, nd: nat, ms: seq<Move<T, I>>) {
    exists p: nat :: p < |ms| && Still(ms, p)
      && Left(takesKey, DroppedKeys, nd, ms[..p]) == 0 && Left(takesKey, Messages, nq, ms[..p]) == 0
  }

  // ---------------------------------------------------------------- what follows from the looks

  lemma LeftNext<T, I>(takesKey: T -> bool, side: Side, n: nat, ms: seq<Move<T, I>>, q: nat)
    requires q < |ms|
    ensures var before, after := Left(takesKey, side, n, ms[..q]), Left(takesKey, side, n, ms[..q + 1]);
            match ms[q]
            case Take(turn) => after == if takesKey(turn) == side.DroppedKeys? then before - 1 else before
            case Others(msgs, keys) => after == before + if side.DroppedKeys? then |keys| else |msgs|
            case _ => after == before
    ensures KeyTurns(takesKey, ms[..q + 1]) ==
              KeyTurns(takesKey, ms[..q]) + if IsKeyTurn(takesKey, ms[q]) then 1 else 0
  {
    assert ms[..q + 1][..q] == ms[..q];
  }

  /** While nothing is dealt with, the queues only grow. */
  lemma {:induction false} LeftGrows<T, I>(takesKey: T -> bool, side: Side, n: nat, ms: seq<Move<T, I>>, p: nat, q: nat)
    requires p <= q <= |ms| && Still(ms, p)
    ensures Left(takesKey, side, n, ms[..p]) <= Left(takesKey, side, n, ms[..q])
    ensures (forall mv | mv in ms :: !mv.Others?) ==>
              Left(takesKey, side, n, ms[..p]) == Left(takesKey, side, n, ms[..q])
  {
    if p == q {
    } else {
      LeftGrows(takesKey, side, n, ms, p, q - 1);
      LeftNext(takesKey, side, n, ms, q - 1);
    }
  }

  lemma EmptyAtOnce<T(!new), I(!new)>(takesKey: T -> bool, nq: nat, nd: nat, ms: seq<Move<T, I>>)
    requires EmptyTwice(takesKey, nq, nd, ms)
    ensures BothEmptyOnce(takesKey, nq, nd, ms)
    ensures (forall mv | mv in ms :: !mv.Others?) ==>
              Left(takesKey, DroppedKeys, nd, ms) == 0 && Left(takesKey, Messages, nq, ms) == 0
  {
    var looks: seq<nat> :| |looks| == 4 && Looked(takesKey, nq, nd, ms, looks);
    var a, c, d := looks[0], looks[2], looks[3];
    assert SeenEmpty(takesKey, LooksAt(0), nd, ms, a) && SeenEmpty(takesKey, LooksAt(3), nd, ms, d);
    assert SeenEmpty(takesKey, LooksAt(2), nq, ms, c) && Still(ms, c);
    LeftGrows(takesKey, DroppedKeys, nd, ms, a, c);
    LeftGrows(takesKey, DroppedKeys, nd, ms, c, d);
    LeftGrows(takesKey, DroppedKeys, nd, ms, c, |ms|);
    LeftGrows(takesKey, Messages, nq, ms, c, |ms|);
    assert ms[..|ms|] == ms;
  }

  /** The keys dealt with are those that were there and those that came, but for those left. */
  lemma {:induction false} KeysAddUp<T, I>(takesKey: T -> bool, nd: nat, ms: seq<Move<T, I>>, p: nat, q: nat)
    requires p <= q <= |ms|
    ensures KeyTurns(takesKey, ms[..p]) <= KeyTurns(takesKey, ms[..q])
    ensures KeyTurns(takesKey, ms[..p]) + Left(takesKey, DroppedKeys, nd, ms[..p])
         <= KeyTurns(takesKey, ms[..q]) + Left(takesKey, DroppedKeys, nd, ms[..q])
  {
    if p == q {
    } else {
      KeysAddUp(takesKey, nd, ms, p, q - 1);
      LeftNext(takesKey, DroppedKeys, nd, ms, q - 1);
    }
  }

  lemma PresentKeysGo<T(!new), I(!new)>(takesKey: T -> bool, nd: nat, ms: seq<Move<T, I>>)
    requires KeysFirst(takesKey, nd, ms)
    ensures PresentKeysFirst(takesKey, nd, ms)
  {
    forall i, j | 0 <= i <= j < |ms| && IsNewTurn(takesKey, ms[j]) && (i == 0 || ms[i - 1].Take?)
      ensures KeyTurns(takesKey, ms[..j]) - KeyTurns(takesKey, ms[..i]) >= Left(takesKey, DroppedKeys, nd, ms[..i])
    {
      KeysGoneSince(takesKey, nd, ms, i, j);
    }
  }

  lemma KeysGoneSince<T(!new), I(!new)>(takesKey: T -> bool, nd: nat, ms: seq<Move<T, I>>, i: nat, j: nat)
    requires i <= j < |ms| && KeysGone(takesKey, nd, ms[..j]) && (i == 0 || ms[i - 1].Take?)
    ensures KeyTurns(takesKey, ms[..j]) - KeyTurns(takesKey, ms[..i]) >= Left(takesKey, DroppedKeys, nd, ms[..i])
  {
    var p: nat :| Still(ms[..j], p) && SeenEmpty(takesKey, DroppedKeys, nd, ms[..j], p);
    assert i > 0 ==> ms[..j][i - 1] == ms[i - 1];
    assert ms[..j][..p] == ms[..p];
    KeysAddUp(takesKey, nd, ms, i, p);
    KeysAddUp(takesKey, nd, ms, p, j);
  }

  // ---------------------------------------------------------------- calls keep to it

  /** A turn takes one element from its queue, keys first, and the loop begins anew. */
  ghost predicate TakesOne<T, I, M, G>(takesKey: T -> bool, c: Call<I, M, G>, t: T, c': Call<I, M, G>) {
    && c'.pc.PopDrop?
    && if takesKey(t) then c.pc.PopDrop? && |c'.dropq| == |c.dropq| - 1 && |c'.q| == |c.q|
       else c.pc.PopQ? && |c'.q| == |c.q| - 1 && |c'.dropq| == |c.dropq|
  }

  ghost predicate TakesInTurn<T(!new), I(!new), M(!new), G(!new)>(
    take: (Call<I, M, G>, T, Call<I, M, G>) -> bool, takesKey: T -> bool)
  {
    forall c, t, c' | take(c, t, c') :: TakesOne(takesKey, c, t, c')
  }

  function Looks(pc: LoopPc): nat {
    match pc
    case PopDrop => 0
    case PopQ => 1
    case CheckQ => 2
    case CheckDrop => 3
    case Decide => 4
  }

  /** The moves so far are in order, and `looks` are the loop's latest looks. */
  ghost predicate InOrder<T(!new), I(!new), M, G>(
    takesKey: T -> bool, nq: nat, nd: nat, ms: seq<Move<T, I>>, c: Call<I, M, G>, looks: seq<nat>)
  {
    && Left(takesKey, Messages, nq, ms) == |c.q| && Left(takesKey, DroppedKeys, nd, ms) == |c.dropq|
    && KeysFirst(takesKey, nd, ms)
    && |looks| == Looks(c.pc) && Looked(takesKey, nq, nd, ms, looks)
  }

  lemma LookedStays<T, I>(takesKey: T -> bool, nq: nat, nd: nat, ms: seq<Move<T, I>>, mv: Move<T, I>, looks: seq<nat>)
    requires Looked(takesKey, nq, nd, ms, looks) && (mv.FoundEmpty? || mv.Others?)
    ensures Looked(takesKey, nq, nd, ms + [mv], looks)
  {
    forall i | 0 <= i < |looks|
      ensures SeenEmpty(takesKey, LooksAt(i), if LooksAt(i) == DroppedKeys then nd else nq, ms + [mv], looks[i])
    {
      assert SeenEmpty(takesKey, LooksAt(i), if LooksAt(i) == DroppedKeys then nd else nq, ms, looks[i]);
      assert (ms + [mv])[..looks[i]] == ms[..looks[i]];
    }
  }

  lemma OneMoreLook<T, I>(takesKey: T -> bool, nq: nat, nd: nat, ms: seq<Move<T, I>>, looks: seq<nat>)
    requires Looked(takesKey, nq, nd, ms, looks) && |looks| < 4
    requires Left(takesKey, LooksAt(|looks|), if LooksAt(|looks|) == DroppedKeys then nd else nq, ms) == 0
    ensures Looked(takesKey, nq, nd, ms + [FoundEmpty], looks + [|ms|])
  {
    var ms', looks' := ms + [FoundEmpty], looks + [|ms|];
    LookedStays(takesKey, nq, nd, ms, FoundEmpty, looks);
    forall i | 0 <= i < |looks'|
      ensures SeenEmpty(takesKey, LooksAt(i), if LooksAt(i) == DroppedKeys then nd else nq, ms', looks'[i])
    {
      if i == |looks| {
        assert ms'[..|ms|] == ms;
      } else {
        assert SeenEmpty(takesKey, LooksAt(i), if LooksAt(i) == DroppedKeys then nd else nq, ms', looks[i]);
      }
    }
    LooksAreBefore(takesKey, nq, nd, ms, looks);
  }

  lemma LooksAreBefore<T, I>(takesKey: T -> bool, nq: nat, nd: nat, ms: seq<Move<T, I>>, looks: seq<nat>)
    requires Looked(takesKey, nq, nd, ms, looks)
    ensures forall i | 0 <= i < |looks| :: looks[i] < |ms|
  {
    forall i | 0 <= i < |looks| ensures looks[i] < |ms| {
      assert SeenEmpty(takesKey, LooksAt(i), if LooksAt(i) == DroppedKeys then nd else nq, ms, looks[i]);
    }
  }

  lemma KeysFirstNext<T(!new), I(!new)>(takesKey: T -> bool, nd: nat, ms: seq<Move<T, I>>, mv: Move<T, I>)
    requires KeysFirst(takesKey, nd, ms) && (IsNewTurn(takesKey, mv) ==> KeysGone(takesKey, nd, ms))
    ensures KeysFirst(takesKey, nd, ms + [mv])
  {
    forall j | 0 <= j <= |ms| && IsNewTurn(takesKey, (ms + [mv])[j]) ensures KeysGone(takesKey, nd, (ms + [mv])[..j]) {
      assert (ms + [mv])[..j] == ms[..j];
      assert ms[..|ms|] == ms;
    }
  }

  lemma OrderNext<T(!new), I(!new), M(!new), G(!new)>(
    take: (Call<I, M, G>, T, Call<I, M, G>) -> bool, idle: G, takesKey: T -> bool, nq: nat, nd: nat,
    ms: seq<Move<T, I>>, c: Call<I, M, G>, mv: Move<T, I>, c': Call<I, M, G>, looks: seq<nat>)
    returns (looks': seq<nat>)
    requires TakesInTurn(take, takesKey) && Moves(take, idle, c, mv, c') && InOrder(takesKey, nq, nd, ms, c, looks)
    ensures InOrder(takesKey, nq, nd, ms + [mv], c', looks')
  {
    if c.pc.PopQ? {
      assert SeenEmpty(takesKey, LooksAt(0), nd, ms, looks[0]);
    }
    KeysFirstNext(takesKey, nd, ms, mv) by {
      assert mv.Take? ==> TakesOne(takesKey, c, mv.turn, c');
    }
    assert (ms + [mv])[..|ms|] == ms;
    match mv {
      case Take(turn) =>
        assert TakesOne(takesKey, c, turn, c');
        looks' := [];
      case FoundMore => looks' := [];
      case Others(_, _) =>
        LookedStays(takesKey, nq, nd, ms, mv, looks);
        looks' := looks;
      case FoundEmpty =>
        OneMoreLook(takesKey, nq, nd, ms, looks);
        looks' := looks + [|ms|];
    }
  }

  /** Wherever a call has come to, its moves are in order. */
  lemma {:induction false} CallInOrder<T(!new), I(!new), M(!new), G(!new)>(
    take: (Call<I, M, G>, T, Call<I, M, G>) -> bool, idle: G, takesKey: T -> bool,
    start: Call<I, M, G>, ms: seq<Move<T, I>>, c: Call<I, M, G>)
    returns (looks: seq<nat>)
    requires TakesInTurn(take, takesKey) && Leads(take, idle, start, ms, c) && start.pc.PopDrop?
    ensures InOrder(takesKey, |start.q|, |start.dropq|, ms, c, looks)
    decreases |ms|
  {
    if ms == [] {
      looks := [];
    } else {
      var n := |ms| - 1;
      var b :| Leads(take, idle, start, ms[..n], b) && Moves(take, idle, b, ms[n], c);
      looks := CallInOrder(take, idle, takesKey, start, ms[..n], b);
      looks := OrderNext(take, idle, takesKey, |start.q|, |start.dropq|, ms[..n], b, ms[n], c, looks);
      assert ms == ms[..n] + [ms[n]];
    }
  }

  /** The order of a call that has come to `c`. */
  lemma OrderOfCall<T(!new), I(!new), M(!new), G(!new)>(
    take: (Call<I, M, G>, T, Call<I, M, G>) -> bool, idle: G, takesKey: T -> bool,
    start: Call<I, M, G>, ms: seq<Move<T, I>>, c: Call<I, M, G>)
    requires TakesInTurn(take, takesKey) && Leads(take, idle, start, ms, c) && start.pc.PopDrop? && start.got == idle
    ensures var nq, nd := |start.q|, |start.dropq|;
            && KeysFirst(takesKey, nd, ms) && PresentKeysFirst(takesKey, nd, ms)
            && (c.pc.Decide? ==> EmptyTwice(takesKey, nq, nd, ms) && BothEmptyOnce(takesKey, nq, nd, ms))
            && (c.pc.Decide? && (forall mv | mv in ms :: !mv.Others?) ==> c.q == [] && c.dropq == [])
    ensures c.got != idle ==> ms != [] && ms[|ms| - 1].Take?
  {
    var looks := CallInOrder(take, idle, takesKey, start, ms, c);
    PresentKeysGo(takesKey, |start.dropq|, ms);
    if c.pc.Decide? {
      EmptyAtOnce(takesKey, |start.q|, |start.dropq|, ms);
    }
  }
}
