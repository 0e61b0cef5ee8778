/**
  The queue of the priority channel: a map from priorities to queues, in ascending order.
  `pop` takes from the first queue that has something; emptied queues stay in the map.
 */
module PriorityQueues {
  import opened Util

  datatype Item<I> = Item(priority: int, value: I)
  datatype Entry<I> = Entry(priority: int, queue: seq<I>)

  /** The ordered map of the source, as its entries in iteration order. */
  ghost predicate Ascending<I>(es: seq<Entry<I>>) {
    forall i, j | 0 <= i < j < |es| :: es[i].priority < es[j].priority
  }

  predicate ContainsKey<I>(es: seq<Entry<I>>, p: int) {
    es != [] && (es[0].priority == p || ContainsKey(es[1..], p))
  }

  /** The queue of a priority, empty if it has none. */
  function Queue<I>(es: seq<Entry<I>>, p: int): seq<I> {
    if es == [] then [] else if es[0].priority == p then es[0].queue else Queue(es[1..], p)
  }

  /** Gives `p` the queue `q`, replacing the one it may have. */
  function Insert<I>(es: seq<Entry<I>>, p: int, q: seq<I>): seq<Entry<I>> {
    if es == [] || p < es[0].priority then [Entry(p, q)] + es
    else if p == es[0].priority then [Entry(p, q)] + es[1..]
    else [es[0]] + Insert(es[1..], p, q)
  }

  /** A push that runs alone. */
  function PushTo<I>(es: seq<Entry<I>>, x: Item<I>): seq<Entry<I>> {
    Insert(es, x.priority, Queue(es, x.priority) + [x.value])
  }

  function PopFrom<I>(es: seq<Entry<I>>): (Option<Item<I>>, seq<Entry<I>>) {
    if es == [] then (None, es)
    else if es[0].queue != [] then
      (Some(Item(es[0].priority, es[0].queue[0])), [Entry(es[0].priority, es[0].queue[1..])] + es[1..])
    else var (x, rest) := PopFrom(es[1..]); (x, [es[0]] + rest)
  }

  // ---------------------------------------------------------------- what the queue is for

  ghost predicate Sorted<I>(s: seq<Item<I>>) {
    forall i, j | 0 <= i < j < |s| :: s[i].priority <= s[j].priority
  }

  /** The values of one priority, in order. */
  function OfPriority<I>(s: seq<Item<I>>, p: int): seq<I> {
    if s == [] then []
    else if s[0].priority == p then [s[0].value] + OfPriority(s[1..], p)
    else OfPriority(s[1..], p)
  }

  ghost predicate StablySorts<I>(out: seq<Item<I>>, input: seq<Item<I>>) {
    Sorted(out) && forall p :: OfPriority(out, p) == OfPriority(input, p)
  }

  lemma {:induction false} PriorityOccurs<I>(s: seq<Item<I>>, p: int)
    requires OfPriority(s, p) != []
    ensures exists i | 0 <= i < |s| :: s[i].priority == p
  {
    if s[0].priority == p {
    } else {
      PriorityOccurs(s[1..], p);
      var i :| 0 <= i < |s[1..]| && s[1..][i].priority == p;
      assert s[i + 1].priority == p;
    }
  }

  /** Some item of `a` has the priority of the first item of `b`. */
  lemma FirstPriorityOccurs<I>(a: seq<Item<I>>, b: seq<Item<I>>)
    requires forall p :: OfPriority(a, p) == OfPriority(b, p)
    ensures b != [] ==> exists i | 0 <= i < |a| :: a[i].priority == b[0].priority
  {
    if b != [] {
      assert OfPriority(a, b[0].priority) == OfPriority(b, b[0].priority);
      PriorityOccurs(a, b[0].priority);
    }
  }

  /** There is only one stable sort. */
  lemma {:induction false} SortedIsDetermined<I>(a: seq<Item<I>>, b: seq<Item<I>>)
    requires StablySorts(a, b) && Sorted(b)
    ensures a == b
  {
    FirstPriorityOccurs(a, b);
    FirstPriorityOccurs(b, a);
    if a == [] {
    } else {
      var p := a[0].priority;
      assert p == b[0].priority;
      assert OfPriority(a, p) == OfPriority(b, p);
      assert OfPriority(a, p)[0] == a[0].value && OfPriority(b, p)[0] == b[0].value;
      forall r ensures OfPriority(a[1..], r) == OfPriority(b[1..], r) {
        assert OfPriority(a, r) == OfPriority(b, r);
        if r == p {
          assert OfPriority(a[1..], r) == OfPriority(a, r)[1..];
          assert OfPriority(b[1..], r) == OfPriority(b, r)[1..];
        }
      }
      SortedIsDetermined(a[1..], b[1..]);
    }
  }

  // ---------------------------------------------------------------- the map as a sorted list

  function Tagged<I>(p: int, q: seq<I>): seq<Item<I>> {
    seq(|q|, i requires 0 <= i < |q| => Item(p, q[i]))
  }

  function Flatten<I>(es: seq<Entry<I>>): seq<Item<I>> {
    if es == [] then [] else Tagged(es[0].priority, es[0].queue) + Flatten(es[1..])
  }

  lemma {:induction false} OfPriorityAppends<I>(a: seq<Item<I>>, b: seq<Item<I>>, p: int)
    ensures OfPriority(a + b, p) == OfPriority(a, p) + OfPriority(b, p)
  {
    if a == [] {
      assert a + b == b;
    } else {
      OfPriorityAppends(a[1..], b, p);
      assert (a + b)[1..] == a[1..] + b;
    }
  }

  lemma {:induction false} OfPriorityTagged<I>(p: int, q: seq<I>, r: int)
    ensures OfPriority(Tagged(p, q), r) == if r == p then q else []
  {
    if q == [] {
    } else {
      OfPriorityTagged(p, q[1..], r);
      assert Tagged(p, q)[1..] == Tagged(p, q[1..]);
    }
  }

  lemma {:induction false} NoSmallerKey<I>(es: seq<Entry<I>>, p: int)
    requires forall i | 0 <= i < |es| :: p < es[i].priority
    ensures !ContainsKey(es, p)
  {
    if es == [] {
    } else {
      NoSmallerKey(es[1..], p);
    }
  }

  lemma {:induction false} FlattenOfPriority<I>(es: seq<Entry<I>>, p: int)
    requires Ascending(es)
    ensures OfPriority(Flatten(es), p) == Queue(es, p)
    ensures !ContainsKey(es, p) ==> Queue(es, p) == []
  {
    if es == [] {
    } else {
      FlattenOfPriority(es[1..], p);
      OfPriorityTagged(es[0].priority, es[0].queue, p);
      OfPriorityAppends(Tagged(es[0].priority, es[0].queue), Flatten(es[1..]), p);
      NoSmallerKey(es[1..], es[0].priority);
    }
  }

  lemma {:induction false} FlattenFrom<I>(es: seq<Entry<I>>, low: int)
    requires Ascending(es) && forall i | 0 <= i < |es| :: low <= es[i].priority
    ensures Sorted(Flatten(es)) && forall i | 0 <= i < |Flatten(es)| :: low <= Flatten(es)[i].priority
  {
    if es == [] {
    } else {
      FlattenFrom(es[1..], es[0].priority);
    }
  }

  /** The flattened map is sorted, and lists each priority's queue in order. */
  lemma FlattenSorted<I>(es: seq<Entry<I>>)
    requires Ascending(es)
    ensures Sorted(Flatten(es)) && forall p :: OfPriority(Flatten(es), p) == Queue(es, p)
  {
    if es != [] {
      FlattenFrom(es, es[0].priority);
    }
    forall p ensures OfPriority(Flatten(es), p) == Queue(es, p) {
      FlattenOfPriority(es, p);
    }
  }

  lemma {:induction false} InsertAscending<I>(es: seq<Entry<I>>, p: int, q: seq<I>)
    requires Ascending(es)
    ensures Ascending(Insert(es, p, q))
    ensures Insert(es, p, q)[0].priority == if es == [] || p < es[0].priority then p else es[0].priority
    ensures forall r :: ContainsKey(Insert(es, p, q), r) <==> ContainsKey(es, r) || r == p
  {
    if es != [] && es[0].priority < p {
      InsertAscending(es[1..], p, q);
    } else {
      assert es != [] && es[0].priority != p ==> Insert(es, p, q)[1..] == es;
      assert es != [] && es[0].priority == p ==> Insert(es, p, q)[1..] == es[1..];
    }
  }

  lemma {:induction false} InsertQueue<I>(es: seq<Entry<I>>, p: int, q: seq<I>, r: int)
    requires Ascending(es)
    ensures Queue(Insert(es, p, q), r) == if r == p then q else Queue(es, r)
  {
    if es == [] || p <= es[0].priority {
    } else {
      InsertQueue(es[1..], p, q, r);
    }
  }

  lemma {:induction false} PopKeepsPriorities<I>(es: seq<Entry<I>>)
    ensures var es' := PopFrom(es).1;
            |es'| == |es| && forall i | 0 <= i < |es| :: es'[i].priority == es[i].priority
  {
    if es == [] || es[0].queue != [] {
    } else {
      PopKeepsPriorities(es[1..]);
    }
  }

  lemma {:induction false} PopTakesHead<I>(es: seq<Entry<I>>)
    ensures var (x, es') := PopFrom(es);
            && (x == None <==> Flatten(es) == [])
            && Flatten(es) == (if x.Some? then [x.value] else []) + Flatten(es')
  {
    if es == [] {
    } else if es[0].queue != [] {
      assert Tagged(es[0].priority, es[0].queue)
          == [Item(es[0].priority, es[0].queue[0])] + Tagged(es[0].priority, es[0].queue[1..]);
    } else {
      PopTakesHead(es[1..]);
      assert Flatten(es) == Flatten(es[1..]);
      assert PopFrom(es).1 == [es[0]] + PopFrom(es[1..]).1;
      assert Flatten(PopFrom(es).1) == Flatten(PopFrom(es[1..]).1);
    }
  }

  /** A pop takes the head of the sorted list. */
  lemma PopTakesFirst<I>(es: seq<Entry<I>>)
    requires Ascending(es)
    ensures var (x, es') := PopFrom(es);
            && Ascending(es') && |es'| == |es|
            && (forall i | 0 <= i < |es| :: es'[i].priority == es[i].priority)
            && (x == None <==> Flatten(es) == [])
            && Flatten(es) == (if x.Some? then [x.value] else []) + Flatten(es')
  {
    PopKeepsPriorities(es);
    PopTakesHead(es);
  }

  /** Taking the first value out of the queue at position `n`. */
  function PopAtIndex<I>(es: seq<Entry<I>>, n: nat): (r: seq<Entry<I>>)
    requires n < |es| && es[n].queue != []
    ensures |r| == |es| && forall i | 0 <= i < |es| :: r[i].priority == es[i].priority
  {
    es[n := Entry(es[n].priority, es[n].queue[1..])]
  }

  lemma {:induction false} QueueAt<I>(es: seq<Entry<I>>, n: nat)
    requires Ascending(es) && n < |es|
    ensures Queue(es, es[n].priority) == es[n].queue
  {
    if n == 0 {
    } else {
      QueueAt(es[1..], n - 1);
    }
  }

  lemma {:induction false} PopAtIndexElsewhere<I>(es: seq<Entry<I>>, n: nat, p: int)
    requires Ascending(es) && n < |es| && es[n].queue != [] && p != es[n].priority
    ensures Queue(PopAtIndex(es, n), p) == Queue(es, p)
  {
    if n > 0 {
      PopAtIndexElsewhere(es[1..], n - 1, p);
      assert PopAtIndex(es, n)[1..] == PopAtIndex(es[1..], n - 1);
    } else {
      assert PopAtIndex(es, 0)[1..] == es[1..];
    }
  }

  /** Wherever it is taken from, a priority loses its first value and the others nothing. */
  lemma PopAtIndexQueue<I>(es: seq<Entry<I>>, n: nat, p: int)
    requires Ascending(es) && n < |es| && es[n].queue != []
    ensures var x := Item(es[n].priority, es[n].queue[0]);
            Queue(es, p) == (if x.priority == p then [x.value] else []) + Queue(PopAtIndex(es, n), p)
    ensures Ascending(PopAtIndex(es, n))
  {
    QueueAt(es, n);
    QueueAt(PopAtIndex(es, n), n);
    if p != es[n].priority {
      PopAtIndexElsewhere(es, n, p);
    }
  }

  /** The list that a push leaves: still sorted, the new item last in its priority. */
  ghost predicate Pushed<I>(s: seq<Item<I>>, x: Item<I>, s': seq<Item<I>>) {
    Sorted(s') && forall p :: OfPriority(s', p) == OfPriority(s, p) + if p == x.priority then [x.value] else []
  }

  lemma PushIsLastOfItsPriority<I>(es: seq<Entry<I>>, x: Item<I>)
    requires Ascending(es)
    ensures Ascending(PushTo(es, x)) && Pushed(Flatten(es), x, Flatten(PushTo(es, x)))
  {
    var q := Queue(es, x.priority) + [x.value];
    InsertAscending(es, x.priority, q);
    FlattenSorted(es);
    FlattenSorted(PushTo(es, x));
    forall p
      ensures OfPriority(Flatten(PushTo(es, x)), p)
           == OfPriority(Flatten(es), p) + if p == x.priority then [x.value] else []
    {
      InsertQueue(es, x.priority, q, p);
    }
  }

  function PushAll<I>(es: seq<Entry<I>>, items: seq<Item<I>>): seq<Entry<I>> {
    if items == [] then es else PushTo(PushAll(es, items[..|items| - 1]), items[|items| - 1])
  }

  /** What popping until None returns. */
  ghost function Drain<I>(es: seq<Entry<I>>): seq<Item<I>>
    requires Ascending(es)
    decreases |Flatten(es)|
  {
    PopTakesFirst(es);
    var (x, es') := PopFrom(es);
    if x == None then [] else [x.value] + Drain(es')
  }

  lemma {:induction false} DrainIsFlatten<I>(es: seq<Entry<I>>)
    requires Ascending(es)
    ensures Drain(es) == Flatten(es)
    decreases |Flatten(es)|
  {
    PopTakesFirst(es);
    if PopFrom(es).0.None? {
    } else {
      DrainIsFlatten(PopFrom(es).1);
    }
  }

  lemma {:induction false} PushAllSorts<I>(items: seq<Item<I>>)
    ensures Ascending(PushAll([], items)) && StablySorts(Flatten(PushAll([], items)), items)
  {
    if items == [] {
    } else {
      var n := |items| - 1;
      var es := PushAll([], items[..n]);
      PushAllSorts(items[..n]);
      PushIsLastOfItsPriority(es, items[n]);
      forall p ensures OfPriority(Flatten(PushTo(es, items[n])), p) == OfPriority(items, p) {
        assert items == items[..n] + [items[n]];
        OfPriorityAppends(items[..n], [items[n]], p);
        assert OfPriority([items[n]], p) == if p == items[n].priority then [items[n].value] else [];
      }
    }
  }

  /** Pushing any list and popping until None gives the one stable sort of it. */
  lemma SortsStably<I>(items: seq<Item<I>>, sorted: seq<Item<I>>)
    ensures Ascending(PushAll([], items))
    ensures StablySorts(sorted, items) <==> sorted == Drain(PushAll([], items))
  {
    PushAllSorts(items);
    var es := PushAll([], items);
    DrainIsFlatten(es);
    if StablySorts(sorted, items) {
      SortedIsDetermined(sorted, Flatten(es));
    }
  }

  // ---------------------------------------------------------------- the methods

  class PriorityQueue<I> {
    var queues: seq<Entry<I>>

    ghost predicate Valid()
      reads this
    {
      Ascending(queues)
    }

    /** What is queued, in the order in which it would be popped. */
    ghost function Contents(): seq<Item<I>>
      reads this
    {
      Flatten(queues)
    }

    constructor ()
      ensures Valid() && Contents() == []
    {
      queues := [];
    }

    method Push(i: I, p: int)
      requires Valid()
      modifies this
      ensures Valid() && queues == PushTo(old(queues), Item(p, i))
      ensures Pushed(old(Contents()), Item(p, i), Contents())
    {
      PushIsLastOfItsPriority(queues, Item(p, i));
      if !ContainsKey(queues, p) {
        FlattenOfPriority(queues, p);
        queues := Insert(queues, p, []);
        InsertAgain(old(queues), p, [], Queue(old(queues), p) + [i]);
        InsertQueue(old(queues), p, [], p);
      }
      queues := Insert(queues, p, Queue(queues, p) + [i]);
    }

    method Pop() returns (r: Option<I>)
      requires Valid()
      modifies this
      ensures Valid() && queues == PopFrom(old(queues)).1
      ensures r == None <==> old(Contents()) == []
      ensures r == None ==> queues == old(queues)
      ensures r.Some? ==> r.value == old(Contents())[0].value && Contents() == old(Contents())[1..]
    {
      PopTakesFirst(queues);
      for n := 0 to |queues|
        invariant queues == old(queues)
        invariant forall k | 0 <= k < n :: queues[k].queue == []
      {
        if queues[n].queue != [] {
          PopAt(queues, n);
          r := Some(queues[n].queue[0]);
          queues := queues[n := Entry(queues[n].priority, queues[n].queue[1..])];
          return;
        }
      }
      PopNothing(queues);
      r := None;
    }
  }

  lemma {:induction false} InsertAgain<I>(es: seq<Entry<I>>, p: int, q: seq<I>, r: seq<I>)
    requires Ascending(es)
    ensures Insert(Insert(es, p, q), p, r) == Insert(es, p, r)
  {
    if es == [] || p <= es[0].priority {
    } else {
      InsertAgain(es[1..], p, q, r);
    }
  }

  lemma {:induction false} PopAt<I>(es: seq<Entry<I>>, n: nat)
    requires n < |es| && es[n].queue != [] && forall k | 0 <= k < n :: es[k].queue == []
    ensures PopFrom(es) == (Some(Item(es[n].priority, es[n].queue[0])),
                        es[n := Entry(es[n].priority, es[n].queue[1..])])
  {
    if n > 0 {
      PopAt(es[1..], n - 1);
      assert es[n := Entry(es[n].priority, es[n].queue[1..])]
          == [es[0]] + es[1..][n - 1 := Entry(es[n].priority, es[n].queue[1..])];
    } else {
      assert es[0 := Entry(es[0].priority, es[0].queue[1..])] == [Entry(es[0].priority, es[0].queue[1..])] + es[1..];
    }
  }

  lemma {:induction false} PopNothing<I>(es: seq<Entry<I>>)
    requires forall k | 0 <= k < |es| :: es[k].queue == []
    ensures PopFrom(es) == (None, es)
  {
    if es == [] {
    } else {
      PopNothing(es[1..]);
      assert es == [es[0]] + es[1..];
    }
  }
}
