/**
  The priority queue with several pushing threads. `push` looks for the priority's queue under
  the read lock; if it is there, the value is appended under that same lock. If not, the lock is
  given up, and the value goes into a new queue under the write lock, without looking again.
  `pop` walks the map under the read lock, queue by queue, while other threads append.
 */
module PriorityRaces {
  import opened PriorityQueues

  /** What a thread is about to do. */
  datatype Pc =
    | Idle
    | Look(x: Item<nat>)     // read lock: append, or find the priority absent
    | Create(x: Item<nat>)   // write lock: insert a new queue and append

  /**
    `pop` under the read lock: the first `n` queues were found empty; `began` is the map as it was
    when the walk began.
   */
  datatype Walk = Away | At(n: nat, began: seq<Entry<nat>>)

  datatype State = State(
    entries: seq<Entry<nat>>,
    threads: map<nat, Pc>,
    walk: Walk,
    pushed: seq<Item<nat>>,   // in the order in which the values were appended
    popped: seq<Item<nat>>)

  datatype Event = Begin(t: nat, x: Item<nat>) | Push(t: nat) | Pop | Visit

  ghost predicate Init(s: State) {
    && s.entries == [] && s.pushed == [] && s.popped == [] && s.walk == Away
    && forall t | t in s.threads :: s.threads[t] == Idle
  }

  predicate CanDo(s: State, e: Event) {
    match e
    case Begin(t, _) => t in s.threads && s.threads[t] == Idle
    case Push(t) => t in s.threads && s.threads[t] != Idle && (s.threads[t].Create? ==> s.walk.Away?)
    case Pop => s.walk.Away?
    case Visit => s.walk.At?
  }

  function Do(s: State, e: Event): State
    requires CanDo(s, e)
  {
    match e
    case Begin(t, x) => s.(threads := s.threads[t := Look(x)])
    case Push(t) => DoPush(s, t)
    case Pop => s.(walk := At(0, s.entries))
    case Visit =>
      var n := s.walk.n;
      if n >= |s.entries| then s.(walk := Away)
      else if s.entries[n].queue == [] then s.(walk := s.walk.(n := n + 1))
      else
        var x := Item(s.entries[n].priority, s.entries[n].queue[0]);
        s.(entries := PopAtIndex(s.entries, n), popped := s.popped + [x], walk := Away)
  }

  function DoPush(s: State, t: nat): State
    requires CanDo(s, Push(t))
  {
    match s.threads[t]
    case Look(x) =>
      if ContainsKey(s.entries, x.priority) then
        s.(entries := PushTo(s.entries, x), pushed := s.pushed + [x], threads := s.threads[t := Idle])
      else s.(threads := s.threads[t := Create(x)])
    case Create(x) =>
      s.(entries := Insert(s.entries, x.priority, [x.value]), pushed := s.pushed + [x], threads := s.threads[t := Idle])
  }

  /** The event puts a new queue in the place of one that has values in it. */
  predicate Overwrites(s: State, e: Event) {
    && e.Push? && e.t in s.threads && s.threads[e.t].Create?
    && Queue(s.entries, s.threads[e.t].x.priority) != []
  }

  /** The values of a priority come out in the order in which they went in, and the rest is still there. */
  ghost predicate Balanced(s: State, p: int) {
    OfPriority(s.pushed, p) == OfPriority(s.popped, p) + Queue(s.entries, p)
  }

  ghost predicate Lossless(s: State) {
    forall p :: Balanced(s, p)
  }

  /** How many values of a priority are gone. */
  function Missing(s: State, p: int): int {
    |OfPriority(s.pushed, p)| - |OfPriority(s.popped, p)| - |Queue(s.entries, p)|
  }

  ghost predicate Inv(s: State) {
    Ascending(s.entries) && forall p :: Missing(s, p) >= 0
  }

  lemma OfPriorityLast(s: seq<Item<nat>>, x: Item<nat>, p: int)
    ensures OfPriority(s + [x], p) == OfPriority(s, p) + if x.priority == p then [x.value] else []
  {
    OfPriorityAppends(s, [x], p);
  }

  /** What an event does to the values of one priority. */
  ghost predicate Kept(s: State, e: Event, p: int)
    requires CanDo(s, e)
  {
    var s' := Do(s, e);
    && Ascending(s'.entries)
    && (Balanced(s, p) && !Overwrites(s, e) ==> Balanced(s', p))
    && Missing(s', p) >= Missing(s, p)
    && (Overwrites(s, e) && s.threads[e.t].x.priority == p ==> Missing(s', p) > Missing(s, p))
  }

  /** The element that moves from the front of the queue to the end of what was popped. */
  lemma Regroup(popped: seq<nat>, x: seq<nat>, queue: seq<nat>)
    ensures popped + (x + queue) == (popped + x) + queue
  {
  }

  lemma VisitOnPriority(s: State, p: int)
    requires Ascending(s.entries) && CanDo(s, Visit)
    ensures Kept(s, Visit, p)
  {
    var n := s.walk.n;
    if n < |s.entries| && s.entries[n].queue != [] {
      var x := Item(s.entries[n].priority, s.entries[n].queue[0]);
      var taken := if x.priority == p then [x.value] else [];
      PopAtIndexQueue(s.entries, n, p);
      OfPriorityLast(s.popped, x, p);
      assert OfPriority(Do(s, Visit).popped, p) == OfPriority(s.popped, p) + taken;
      Regroup(OfPriority(s.popped, p), taken, Queue(PopAtIndex(s.entries, n), p));
    }
  }

  lemma AppendOnPriority(s: State, t: nat, p: int)
    requires Ascending(s.entries) && CanDo(s, Push(t)) && s.threads[t].Look?
    ensures Kept(s, Push(t), p)
  {
    var x, s' := s.threads[t].x, Do(s, Push(t));
    if ContainsKey(s.entries, x.priority) {
      var add := if x.priority == p then [x.value] else [];
      AppendAdds(s.entries, x, p);
      OfPriorityLast(s.pushed, x, p);
      assert OfPriority(s'.pushed, p) == OfPriority(s.pushed, p) + add;
      assert Queue(s'.entries, p) == Queue(s.entries, p) + add;
      Regroup(OfPriority(s.popped, p), Queue(s.entries, p), add);
    }
  }

  lemma AppendAdds(es: seq<Entry<nat>>, x: Item<nat>, p: int)
    requires Ascending(es)
    ensures Ascending(PushTo(es, x))
    ensures Queue(PushTo(es, x), p) == Queue(es, p) + if x.priority == p then [x.value] else []
  {
    var q := Queue(es, x.priority) + [x.value];
    InsertAscending(es, x.priority, q);
    InsertQueue(es, x.priority, q, p);
  }

  lemma CreateOnPriority(s: State, t: nat, p: int)
    requires Ascending(s.entries) && CanDo(s, Push(t)) && s.threads[t].Create?
    ensures Kept(s, Push(t), p)
  {
    var x := s.threads[t].x;
    InsertAscending(s.entries, x.priority, [x.value]);
    InsertQueue(s.entries, x.priority, [x.value], p);
    OfPriorityLast(s.pushed, x, p);
    if x.priority == p && Queue(s.entries, p) == [] {
      Regroup(OfPriority(s.popped, p), [], [x.value]);
    }
  }

  lemma StepOnPriority(s: State, e: Event, p: int)
    requires Ascending(s.entries) && CanDo(s, e)
    ensures Kept(s, e, p)
  {
    match e
    case Begin(t, x) =>
    case Pop =>
    case Visit => VisitOnPriority(s, p);
    case Push(t) =>
      if s.threads[t].Look? {
        AppendOnPriority(s, t, p);
      } else {
        CreateOnPriority(s, t, p);
      }
  }

  // ---------------------------------------------------------------- runs

  /** `ss` are the states that the events `es` lead through. */
  ghost predicate Trace(ss: seq<State>, es: seq<Event>) {
    && |ss| == |es| + 1 && Init(ss[0])
    && forall k | 0 <= k < |es| :: CanDo(ss[k], es[k]) && ss[k + 1] == Do(ss[k], es[k])
  }

  lemma {:induction false} EveryTrace(ss: seq<State>, es: seq<Event>, n: nat)
    requires Trace(ss, es) && n < |ss|
    ensures Inv(ss[n])
    ensures Lossless(ss[n]) <==> forall k | 0 <= k < n :: !Overwrites(ss[k], es[k])
    ensures (exists k | 0 <= k < n :: Overwrites(ss[k], es[k])) ==> exists p :: Missing(ss[n], p) > 0
  {
    if n == 0 {
    } else {
      var s, e := ss[n - 1], es[n - 1];
      EveryTrace(ss, es, n - 1);
      forall p ensures Missing(ss[n], p) >= Missing(s, p) {
        StepOnPriority(s, e, p);
      }
      if p :| Missing(s, p) > 0 {
        assert Missing(ss[n], p) > 0 && !Balanced(ss[n], p);
      }
      if Overwrites(s, e) {
        StepOnPriority(s, e, s.threads[e.t].x.priority);
        assert Missing(ss[n], s.threads[e.t].x.priority) > 0 && !Balanced(ss[n], s.threads[e.t].x.priority);
      } else if Lossless(s) {
        forall p ensures Balanced(ss[n], p) {
          StepOnPriority(s, e, p);
        }
      }
      StepOnPriority(s, e, 0);
    }
  }

  /** No two threads are about to create the queue of the same priority. */
  ghost predicate NoRace(s: State) {
    forall t, u | t in s.threads && u in s.threads && t != u && s.threads[t].Create? && s.threads[u].Create? ::
      s.threads[t].x.priority != s.threads[u].x.priority
  }

  /** Whoever is about to create a queue still finds none. */
  ghost predicate FoundNone(s: State) {
    forall t | t in s.threads && s.threads[t].Create? :: !ContainsKey(s.entries, s.threads[t].x.priority)
  }

  lemma {:induction false} PopKeepsKeys(es: seq<Entry<nat>>, n: nat, p: int)
    requires n < |es| && es[n].queue != []
    ensures ContainsKey(PopAtIndex(es, n), p) <==> ContainsKey(es, p)
  {
    if n > 0 {
      PopKeepsKeys(es[1..], n - 1, p);
      assert PopAtIndex(es, n)[1..] == PopAtIndex(es[1..], n - 1);
    } else {
      assert PopAtIndex(es, 0)[1..] == es[1..];
    }
  }

  lemma StepKeepsFoundNone(s: State, e: Event)
    requires Ascending(s.entries) && FoundNone(s) && NoRace(s) && CanDo(s, e)
    ensures FoundNone(Do(s, e)) && !Overwrites(s, e)
  {
    var s' := Do(s, e);
    if e.Visit? && s.walk.n < |s.entries| && s.entries[s.walk.n].queue != [] {
      forall p ensures ContainsKey(s'.entries, p) <==> ContainsKey(s.entries, p) {
        PopKeepsKeys(s.entries, s.walk.n, p);
      }
    }
    if e.Push? {
      var x := s.threads[e.t].x;
      FlattenOfPriority(s.entries, x.priority);
      var q := if s.threads[e.t].Create? then [x.value] else Queue(s.entries, x.priority) + [x.value];
      InsertAscending(s.entries, x.priority, q);
    }
    forall t | t in s'.threads && s'.threads[t].Create?
      ensures !ContainsKey(s'.entries, s'.threads[t].x.priority)
    {
    }
  }

  /**
    While first pushes of the same priority do not race, nothing is lost and every priority is
    first-in first-out.
   */
  lemma {:induction false} NoRaceNoLoss(ss: seq<State>, es: seq<Event>, n: nat)
    requires Trace(ss, es) && n < |ss| && forall k | 0 <= k < n :: NoRace(ss[k])
    ensures Lossless(ss[n]) && FoundNone(ss[n])
  {
    EveryTrace(ss, es, n);
    if n == 0 {
    } else {
      NoRaceNoLoss(ss, es, n - 1);
      EveryTrace(ss, es, n - 1);
      StepKeepsFoundNone(ss[n - 1], es[n - 1]);
    }
  }

  /** Two first pushes of one priority, each having found it absent: the second throws the first value away. */
  lemma RacingFirstPushesLose(x: Item<nat>, y: Item<nat>) returns (ss: seq<State>, es: seq<Event>)
    requires x.priority == y.priority
    ensures Trace(ss, es) && |es| == 6 && Overwrites(ss[5], es[5])
    ensures ss[6].pushed == [x, y] && ss[6].popped == [] && Flatten(ss[6].entries) == [y]
  {
    var p := x.priority;
    es := [Begin(0, x), Begin(1, y), Push(0), Push(1), Push(0), Push(1)];
    var s0 := State([], map[0 := Idle, 1 := Idle], Away, [], []);
    var s1 := Do(s0, es[0]);
    var s2 := Do(s1, es[1]);
    var s3 := Do(s2, es[2]);
    var s4 := Do(s3, es[3]);
    var s5 := Do(s4, es[4]);
    assert s5.entries == [Entry(p, [x.value])] && s5.threads[1] == Create(y);
    var s6 := Do(s5, es[5]);
    ss := [s0, s1, s2, s3, s4, s5, s6];
    assert s6.entries == [Entry(p, [y.value])] + [];
  }

  // ---------------------------------------------------------------- what a walk returns

  /** The keys stay as they were; queues only grow, and those passed by were empty when the walk began. */
  ghost predicate WalkOk(entries: seq<Entry<nat>>, walk: Walk) {
    walk.At? ==>
      && |walk.began| == |entries|
      && (forall k | 0 <= k < |entries| ::
            walk.began[k].priority == entries[k].priority && walk.began[k].queue <= entries[k].queue)
      && (forall k | 0 <= k < walk.n && k < |entries| :: walk.began[k].queue == [])
  }

  lemma {:induction false} InsertInPlace(es: seq<Entry<nat>>, p: int, q: seq<nat>)
    requires Ascending(es) && ContainsKey(es, p)
    ensures var r := Insert(es, p, q);
            && |r| == |es|
            && forall k | 0 <= k < |es| :: r[k] == if es[k].priority == p then Entry(p, q) else es[k]
  {
    if es[0].priority < p {
      InsertInPlace(es[1..], p, q);
    } else if p < es[0].priority {
      NoSmallerKey(es, p);
    }
  }

  lemma {:induction false} QueueIsAt(es: seq<Entry<nat>>, k: nat, p: int)
    requires Ascending(es) && k < |es| && es[k].priority == p
    ensures Queue(es, p) == es[k].queue
  {
    QueueAt(es, k);
  }

  lemma PushKeepsWalk(s: State, t: nat)
    requires Ascending(s.entries) && WalkOk(s.entries, s.walk) && CanDo(s, Push(t))
    ensures WalkOk(Do(s, Push(t)).entries, Do(s, Push(t)).walk)
  {
    var x := s.threads[t].x;
    if s.threads[t].Look? && ContainsKey(s.entries, x.priority) {
      var q := Queue(s.entries, x.priority) + [x.value];
      InsertInPlace(s.entries, x.priority, q);
      forall k | 0 <= k < |s.entries| && s.entries[k].priority == x.priority ensures s.entries[k].queue <= q {
        QueueIsAt(s.entries, k, x.priority);
      }
    }
  }

  lemma StepKeepsWalk(s: State, e: Event)
    requires Ascending(s.entries) && WalkOk(s.entries, s.walk) && CanDo(s, e)
    ensures WalkOk(Do(s, e).entries, Do(s, e).walk)
  {
    if e.Push? {
      PushKeepsWalk(s, e.t);
    }
  }

  lemma {:induction false} EveryWalk(ss: seq<State>, es: seq<Event>, n: nat)
    requires Trace(ss, es) && n < |ss|
    ensures WalkOk(ss[n].entries, ss[n].walk)
  {
    if n == 0 {
    } else {
      EveryWalk(ss, es, n - 1);
      EveryTrace(ss, es, n - 1);
      StepKeepsWalk(ss[n - 1], es[n - 1]);
    }
  }

  lemma {:induction false} FlattenedFrom(es: seq<Entry<nat>>, y: Item<nat>) returns (k: nat)
    requires y in Flatten(es)
    ensures k < |es| && es[k].priority == y.priority && es[k].queue != []
  {
    if y in Tagged(es[0].priority, es[0].queue) {
      k := 0;
    } else {
      k := FlattenedFrom(es[1..], y);
      k := k + 1;
    }
  }

  /** The walk is about to take `x`. */
  predicate Takes(s: State, x: Item<nat>) {
    && s.walk.At? && s.walk.n < |s.entries| && s.entries[s.walk.n].queue != []
    && x == Item(s.entries[s.walk.n].priority, s.entries[s.walk.n].queue[0])
  }

  /** What the walk takes is no later than what was queued when it began. */
  lemma TakesLowest(s: State, x: Item<nat>)
    requires Ascending(s.entries) && WalkOk(s.entries, s.walk) && Takes(s, x)
    ensures forall y | y in Flatten(s.walk.began) :: x.priority <= y.priority
    ensures var q := Queue(s.walk.began, x.priority); q != [] ==> x.value == q[0]
  {
    var began, n := s.walk.began, s.walk.n;
    forall y | y in Flatten(began) ensures x.priority <= y.priority {
      var k := FlattenedFrom(began, y);
      assert k >= n;
    }
    assert Ascending(began);
    QueueIsAt(began, n, x.priority);
  }

  lemma PassedAllIsEmpty(s: State)
    requires WalkOk(s.entries, s.walk) && s.walk.At? && s.walk.n >= |s.entries|
    ensures Flatten(s.walk.began) == []
  {
    var began := s.walk.began;
    if Flatten(began) != [] {
      var k := FlattenedFrom(began, Flatten(began)[0]);
    }
  }

  /**
    With other threads appending during its walk, `pop` returns an item whose priority is at most
    that of every item that was queued when the walk began, and the oldest of its own priority.
   */
  lemma PopsLowest(ss: seq<State>, es: seq<Event>, i: nat, x: Item<nat>)
    requires Trace(ss, es) && i < |es| && es[i] == Visit && Takes(ss[i], x)
    ensures ss[i + 1].popped == ss[i].popped + [x] && ss[i + 1].walk == Away
    ensures forall y | y in Flatten(ss[i].walk.began) :: x.priority <= y.priority
    ensures var q := Queue(ss[i].walk.began, x.priority); q != [] ==> x.value == q[0]
  {
    EveryTrace(ss, es, i);
    EveryWalk(ss, es, i);
    TakesLowest(ss[i], x);
  }

  /** And it returns nothing only if nothing was queued when the walk began. */
  lemma PopsNothingOnlyFromEmpty(ss: seq<State>, es: seq<Event>, i: nat)
    requires Trace(ss, es) && i < |es| && es[i] == Visit && ss[i].walk.n >= |ss[i].entries|
    ensures ss[i + 1].popped == ss[i].popped && ss[i].walk.At? && Flatten(ss[i].walk.began) == []
  {
    EveryWalk(ss, es, i);
    PassedAllIsEmpty(ss[i]);
  }
}
