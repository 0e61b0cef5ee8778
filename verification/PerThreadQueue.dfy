/**
  The queue without an order among producers: each producer thread pushes to a queue of its own,
  in a map under a read-write lock. Looking for the queue, inserting it and pushing to it are
  separate lock sections; the consumer walks the map under the read lock, in any order.
 */
module PerThreadQueues {
  import opened Util
  import Runs

  /** What a producer is about to do with a value. */
  datatype Pc =
    | Idle
    | Look(v: nat)     // read lock: is the thread's id in the map?
    | Create(v: nat)   // write lock: insert an empty queue
    | Append(v: nat)   // read lock: get the queue and push
    | Panicked         // the queue was not there

  /** The consumer between calls, or under the read lock with some queues still to visit. */
  datatype Consumer = Away | Scan(left: set<nat>, before: map<nat, seq<nat>>)

  /** `pushed` and `popped` record, per producer, the values in the order of the pushes and pops. */
  datatype State = State(
    queues: map<nat, seq<nat>>,
    threads: map<nat, Pc>,
    consumer: Consumer,
    pushed: map<nat, seq<nat>>,
    popped: map<nat, seq<nat>>)

  datatype Event =
    | Push(t: nat, v: nat)
    | Go(t: nat)
    | TryPop
    | Visit(k: nat)
    | GiveUp

  ghost predicate Init(s: State) {
    && s.queues == map[] && s.consumer == Away
    && s.pushed.Keys == s.threads.Keys && s.popped.Keys == s.threads.Keys
    && forall t | t in s.threads :: s.threads[t] == Idle && s.pushed[t] == [] && s.popped[t] == []
  }

  ghost predicate SameThreads(s: State) {
    s.pushed.Keys == s.threads.Keys && s.popped.Keys == s.threads.Keys && s.queues.Keys <= s.threads.Keys
  }

  predicate CanDo(s: State, e: Event) {
    match e
    case Push(t, _) => t in s.threads && s.threads[t] == Idle
    case Go(t) =>
      && t in s.threads && t in s.pushed && !s.threads[t].Idle? && !s.threads[t].Panicked?
      && (s.threads[t].Create? ==> s.consumer.Away?)
    case TryPop => s.consumer.Away?
    case Visit(k) => s.consumer.Scan? && k in s.consumer.left && k in s.queues && k in s.popped
    case GiveUp => s.consumer.Scan? && s.consumer.left == {}
  }

  function Do(s: State, e: Event): State
    requires CanDo(s, e)
  {
    match e
    case Push(t, v) => s.(threads := s.threads[t := Look(v)])
    case Go(t) => (
      match s.threads[t]
      case Look(v) => s.(threads := s.threads[t := if t in s.queues then Append(v) else Create(v)])
      case Create(v) => s.(queues := s.queues[t := []], threads := s.threads[t := Append(v)])
      case Append(v) =>
        if t in s.queues then
          s.(queues := s.queues[t := s.queues[t] + [v]],
             pushed := s.pushed[t := s.pushed[t] + [v]],
             threads := s.threads[t := Idle])
        else s.(threads := s.threads[t := Panicked])
      case _ => s)
    case TryPop => s.(consumer := Scan(s.queues.Keys, s.pushed))
    case Visit(k) =>
      if s.queues[k] == [] then s.(consumer := s.consumer.(left := s.consumer.left - {k}))
      else
        s.(queues := s.queues[k := s.queues[k][1..]],
           popped := s.popped[k := s.popped[k] + [s.queues[k][0]]],
           consumer := Away)
    case GiveUp => s.(consumer := Away)
  }

  ghost predicate Step(s: State, s': State) {
    exists e :: CanDo(s, e) && s' == Do(s, e)
  }

  // ---------------------------------------------------------------- invariants

  function QueueOf(s: State, t: nat): seq<nat> {
    if t in s.queues then s.queues[t] else []
  }

  ghost predicate ThreadOk(s: State, t: nat)
    requires SameThreads(s) && t in s.threads
  {
    && s.pushed[t] == s.popped[t] + QueueOf(s, t)
    && (s.threads[t].Create? ==> t !in s.queues)
    && (s.threads[t].Append? ==> t in s.queues)
    && !s.threads[t].Panicked?
  }

  /** A visited queue was found empty: whatever was pushed to it before the scan has been popped. */
  ghost predicate ScanOk(s: State)
    requires SameThreads(s)
  {
    s.consumer.Scan? ==>
      && s.consumer.left <= s.queues.Keys && s.consumer.before.Keys == s.threads.Keys
      && forall t | t in s.threads ::
           && s.consumer.before[t] <= s.pushed[t]
           && (t !in s.consumer.left ==> s.consumer.before[t] <= s.popped[t])
  }

  ghost predicate Inv(s: State) {
    SameThreads(s) && (forall t | t in s.threads :: ThreadOk(s, t)) && ScanOk(s)
  }

  lemma GoKeepsThread(s: State, t: nat, u: nat)
    requires SameThreads(s) && CanDo(s, Go(t)) && u in s.threads && ThreadOk(s, u) && ThreadOk(s, t)
    ensures SameThreads(Do(s, Go(t))) && ThreadOk(Do(s, Go(t)), u)
  {
  }

  lemma GoKeepsScan(s: State, t: nat)
    requires SameThreads(s) && ScanOk(s) && CanDo(s, Go(t))
    ensures SameThreads(Do(s, Go(t))) && ScanOk(Do(s, Go(t)))
  {
  }

  lemma GoKeepsInv(s: State, t: nat)
    requires Inv(s) && CanDo(s, Go(t))
    ensures Inv(Do(s, Go(t)))
  {
    GoKeepsScan(s, t);
    forall u | u in s.threads ensures ThreadOk(Do(s, Go(t)), u) {
      GoKeepsThread(s, t, u);
    }
  }

  lemma VisitKeepsThread(s: State, k: nat, u: nat)
    requires SameThreads(s) && CanDo(s, Visit(k)) && u in s.threads && ThreadOk(s, u)
    ensures SameThreads(Do(s, Visit(k))) && ThreadOk(Do(s, Visit(k)), u)
  {
  }

  lemma VisitKeepsScan(s: State, k: nat)
    requires SameThreads(s) && ScanOk(s) && CanDo(s, Visit(k)) && ThreadOk(s, k)
    ensures SameThreads(Do(s, Visit(k))) && ScanOk(Do(s, Visit(k)))
  {
  }

  lemma VisitKeepsInv(s: State, k: nat)
    requires Inv(s) && CanDo(s, Visit(k))
    ensures Inv(Do(s, Visit(k)))
  {
    assert ThreadOk(s, k);
    VisitKeepsScan(s, k);
    forall u | u in s.threads ensures ThreadOk(Do(s, Visit(k)), u) {
      VisitKeepsThread(s, k, u);
    }
  }

  /** The beginning of a push or a walk, and the end of a walk. */
  lemma BeginKeepsInv(s: State, e: Event)
    requires Inv(s) && CanDo(s, e) && !e.Go? && !e.Visit?
    ensures Inv(Do(s, e))
  {
    var s' := Do(s, e);
    forall u | u in s'.threads ensures ThreadOk(s', u) {
      assert ThreadOk(s, u);
    }
  }

  lemma StepKeepsInv(s: State, e: Event)
    requires Inv(s) && CanDo(s, e)
    ensures Inv(Do(s, e))
  {
    match e
    case Go(t) => GoKeepsInv(s, t);
    case Visit(k) => VisitKeepsInv(s, k);
    case _ => BeginKeepsInv(s, e);
  }

  // ---------------------------------------------------------------- theorems

  lemma {:induction false} EveryRun(ss: seq<State>, i: nat)
    requires Runs.Run(Init, Step, ss) && i < |ss|
    ensures Inv(ss[i])
  {
    if i == 0 {
    } else {
      EveryRun(ss, i - 1);
      Runs.StepAt(Init, Step, ss, i);
      var e :| CanDo(ss[i - 1], e) && ss[i] == Do(ss[i - 1], e);
      StepKeepsInv(ss[i - 1], e);
    }
  }

  /** Each producer's values come out in the order in which it pushed them, and none is lost or made up. */
  lemma NothingLostOrReordered(ss: seq<State>, i: nat, t: nat)
    requires Runs.Run(Init, Step, ss) && i < |ss| && t in ss[i].threads
    ensures t in ss[i].pushed && t in ss[i].popped
    ensures ss[i].popped[t] + QueueOf(ss[i], t) == ss[i].pushed[t] && ss[i].popped[t] <= ss[i].pushed[t]
  {
    EveryRun(ss, i);
    assert ThreadOk(ss[i], t);
  }

  /**
    The insert never replaces a queue, although the check is not repeated under the write lock, and
    the queue is there when it is pushed to.
   */
  lemma InsertNeverOverwrites(ss: seq<State>, i: nat, t: nat)
    requires Runs.Run(Init, Step, ss) && i < |ss| && t in ss[i].threads
    ensures ss[i].threads[t].Create? ==> t !in ss[i].queues
    ensures ss[i].threads[t].Append? ==> t in ss[i].queues
    ensures !ss[i].threads[t].Panicked?
  {
    EveryRun(ss, i);
    assert ThreadOk(ss[i], t);
  }

  /** When `try_pop` finds nothing, all that was pushed before it began has been popped. */
  lemma NoneMeansDrained(ss: seq<State>, i: nat, t: nat)
    requires Runs.Run(Init, Step, ss) && i < |ss| && CanDo(ss[i], GiveUp)
    ensures ss[i].consumer.before.Keys == ss[i].popped.Keys
    ensures t in ss[i].consumer.before ==> ss[i].consumer.before[t] <= ss[i].popped[t]
  {
    EveryRun(ss, i);
  }

  // ---------------------------------------------------------------- the methods

  /**
    What any number of steps of the others may do, seen by producer `t`: nobody else touches its
    entry but to pop.
   */
  ghost predicate ProducerRely(s: State, s': State, t: nat) {
    && Inv(s') && t in s.threads && t in s'.threads && t in s.pushed
    && s'.threads[t] == s.threads[t] && s'.pushed[t] == s.pushed[t] && (t in s'.queues <==> t in s.queues)
  }

  /** What a lock section leaves as it is for the producers that do not run. */
  ghost predicate SameFor(s: State, s': State, t: nat) {
    && (t in s'.threads <==> t in s.threads) && (t in s'.pushed <==> t in s.pushed)
    && (t in s.threads ==> t in s'.threads && s'.threads[t] == s.threads[t])
    && (t in s.pushed ==> t in s'.pushed && s'.pushed[t] == s.pushed[t])
    && (t in s'.queues <==> t in s.queues)
  }

  lemma GoLeavesOthers(s: State, u: nat, t: nat)
    requires CanDo(s, Go(u)) && u != t
    ensures SameFor(s, Do(s, Go(u)), t)
  {
  }

  lemma ConsumerLeavesProducers(s: State, e: Event, t: nat)
    requires CanDo(s, e) && (e.TryPop? || e.Visit? || e.GiveUp?)
    ensures SameFor(s, Do(s, e), t)
  {
  }

  lemma OthersRelyProducer(s: State, s': State, t: nat, e: Event)
    requires ProducerRely(s, s', t) && CanDo(s', e) && (e.Push? || e.Go? ==> e.t != t)
    ensures ProducerRely(s, Do(s', e), t)
  {
    StepKeepsInv(s', e);
    match e
    case Push(u, v) =>
    case Go(u) => GoLeavesOthers(s', u, t);
    case _ => ConsumerLeavesProducers(s', e, t);
  }

  /**
    What any number of steps of the producers may do, seen by the consumer; under its read lock no
    queue is inserted.
   */
  ghost predicate ConsumerRely(s: State, s': State) {
    && Inv(s') && s'.consumer == s.consumer && s'.popped == s.popped
    && (forall t | t in s.pushed :: t in s'.pushed && s.pushed[t] <= s'.pushed[t])
  }

  lemma ProducersLeaveConsumer(s: State, e: Event)
    requires CanDo(s, e) && (e.Push? || e.Go?)
    ensures var s' := Do(s, e);
            && s'.consumer == s.consumer && s'.popped == s.popped
            && forall t | t in s.pushed :: t in s'.pushed && s.pushed[t] <= s'.pushed[t]
  {
  }

  lemma ProducersRely(s: State, s': State, e: Event)
    requires ConsumerRely(s, s') && CanDo(s', e) && (e.Push? || e.Go?)
    ensures ConsumerRely(s, Do(s', e))
  {
    StepKeepsInv(s', e);
    ProducersLeaveConsumer(s', e);
  }

  class MpscNoOrderQueue {
    var threadsQueues: map<nat, seq<nat>>
    ghost var threads: map<nat, Pc>
    ghost var consumer: Consumer
    ghost var pushed: map<nat, seq<nat>>
    ghost var popped: map<nat, seq<nat>>

    ghost function M(): State
      reads this
    {
      State(threadsQueues, threads, consumer, pushed, popped)
    }

    constructor (ghost ts: set<nat>)
      ensures Init(M()) && Inv(M()) && threads.Keys == ts
    {
      threadsQueues, consumer := map[], Away;
      threads := map t | t in ts :: Idle;
      pushed := map t | t in ts :: [];
      popped := map t | t in ts :: [];
    }

    /** Other producers and the consumer run. */
    method OthersRun(ghost t: nat)
      requires Inv(M()) && t in threads
      modifies this
      ensures ProducerRely(old(M()), M(), t)
    {
    }

    /** The producers run. */
    method ProducersRun()
      requires Inv(M())
      modifies this
      ensures ConsumerRely(old(M()), M())
    {
    }

    ghost method Moved(before: State, e: Event)
      requires Inv(before) && CanDo(before, e) && threadsQueues == Do(before, e).queues
      modifies this`threads, this`consumer, this`pushed, this`popped
      ensures M() == Do(before, e) && Inv(M())
    {
      var s := Do(before, e);
      threads, consumer, pushed, popped := s.threads, s.consumer, s.pushed, s.popped;
      StepKeepsInv(before, e);
    }

    /** Thread `t` pushes: whatever runs in between, exactly `v` is added to what it pushed. */
    method Push(t: nat, v: nat)
      requires Inv(M()) && t in threads && threads[t] == Idle
      modifies this
      ensures Inv(M()) && t in threads && threads[t] == Idle
      ensures pushed[t] == old(pushed[t]) + [v]
    {
      Moved(M(), Event.Push(t, v));
      OthersRun(t);
      ghost var m := M();
      var present := t in threadsQueues;
      Moved(m, Go(t));
      if !present {
        CreateQueue(t, v);
      }
      OthersRun(t);
      AppendValue(t, v);
    }

    method CreateQueue(t: nat, ghost v: nat)
      requires Inv(M()) && t in threads && threads[t] == Create(v)
      modifies this
      ensures Inv(M()) && t in threads && threads[t] == Append(v) && pushed[t] == old(pushed[t])
    {
      AwaitWriteLock(t);
      ghost var m := M();
      threadsQueues := threadsQueues[t := []];
      Moved(m, Go(t));
    }

    method AppendValue(t: nat, v: nat)
      requires Inv(M()) && t in threads && threads[t] == Append(v)
      modifies this
      ensures Inv(M()) && t in threads && threads[t] == Idle && pushed[t] == old(pushed[t]) + [v]
    {
      ghost var m := M();
      assert ThreadOk(m, t);
      threadsQueues := threadsQueues[t := threadsQueues[t] + [v]];
      Moved(m, Go(t));
    }

    /** The others run until the consumer has given up the read lock. (The body is one such outcome.) */
    method AwaitWriteLock(ghost t: nat)
      requires Inv(M()) && t in threads
      modifies this
      ensures ProducerRely(old(M()), M(), t) && consumer.Away?
    {
      consumer := Away;
    }

    method VisitQueue(k: nat) returns (r: Option<nat>)
      requires Inv(M()) && consumer.Scan? && k in consumer.left
      modifies this
      ensures Inv(M()) && k in old(popped)
      ensures r.Some? ==> consumer == Away && popped == old(popped)[k := old(popped[k]) + [r.value]]
      ensures r == None ==> consumer == Scan(old(consumer.left) - {k}, old(consumer.before)) && popped == old(popped)
    {
      ProducersRun();
      ghost var m := M();
      var q := threadsQueues[k];
      r := None;
      if q != [] {
        threadsQueues := threadsQueues[k := q[1..]];
        r := Some(q[0]);
      }
      Moved(m, Visit(k));
    }

    /**
      Walks the map under the read lock while the producers go on. A value comes from the front of
      one producer's queue; None means that all that had been pushed before has been popped.
     */
    method TryPop() returns (r: Option<nat>)
      requires Inv(M()) && consumer.Away?
      modifies this
      ensures Inv(M()) && consumer.Away?
      ensures r.Some? ==> exists t :: t in old(popped) && popped == old(popped)[t := old(popped[t]) + [r.value]]
      ensures r == None ==> popped == old(popped)
      ensures r == None ==> forall t | t in old(pushed) :: t in popped && old(pushed[t]) <= popped[t]
    {
      Moved(M(), Event.TryPop);
      var left := threadsQueues.Keys;
      ghost var m := M();
      while left != {}
        invariant Inv(M()) && consumer == Scan(left, old(pushed)) && popped == old(popped)
        decreases left
      {
        var k := NextOf(left);
        r := VisitQueue(k);
        if r.Some? {
          return;
        }
        left := left - {k};
      }
      m := M();
      Moved(m, GiveUp);
      r := None;
    }
  }
}
