/**
  The order in which the priority channel hands out its items: as far as the queue goes, every
  step of the channel is a step of `PriorityRaces` or changes nothing.
 */
module PriorityOrder {
  import opened Util
  import opened PriorityQueues
  import opened PriorityChannels
  import R = PriorityRaces
  import W = AtomicWakers
  import Runs

  function RoleOf(tx: Tx): R.Pc {
    match tx
    case Look(x) => R.Look(x)
    case Create(x) => R.Create(x)
    case _ => R.Idle
  }

  /** What the queue and its users look like. */
  function Queueing(s: State): R.State {
    R.State(s.entries,
            map t | t in s.tx :: RoleOf(s.tx[t]),
            if s.rx.Scan? then R.At(s.rx.n, s.rx.began) else R.Away,
            s.pushed, s.popped)
  }

  /** The event of the queue that an event of the channel amounts to. */
  function RaceEvent(s: State, e: Event): Option<R.Event> {
    match e
    case Poll => Some(R.Pop)
    case RxStep => if s.rx.Scan? then Some(R.Visit) else if s.rx.Registering? then Some(R.Pop) else None
    case TxStep(t) =>
      if t !in s.tx then None
      else if !s.tx[t].CheckFlag? then Some(R.Push(t))
      else if s.ended then None
      else Some(R.Begin(t, s.tx[t].x))
    case _ => None
  }

  /** The queue goes from `r` to `r'` by the event `x`, or stays. */
  ghost predicate Follows(r: R.State, x: Option<R.Event>, r': R.State) {
    match x
    case None => r' == r
    case Some(e) => R.CanDo(r, e) && r' == R.Do(r, e)
  }

  lemma PushProjects(s: State, t: nat)
    requires CanDo(s, TxStep(t)) && !s.tx[t].CheckFlag?
    ensures Follows(Queueing(s), Some(R.Push(t)), Queueing(DoTx(s, t)))
  {
    var r, r' := Queueing(s), Queueing(DoTx(s, t));
    assert R.CanDo(r, R.Push(t));
    assert r'.threads == R.Do(r, R.Push(t)).threads;
  }

  lemma CheckProjects(s: State, t: nat)
    requires CanDo(s, TxStep(t)) && s.tx[t].CheckFlag?
    ensures Follows(Queueing(s), RaceEvent(s, TxStep(t)), Queueing(DoTx(s, t)))
  {
    var r, r' := Queueing(s), Queueing(DoTx(s, t));
    if s.ended {
      assert r'.threads == r.threads;
    } else {
      assert r'.threads == R.Do(r, R.Begin(t, s.tx[t].x)).threads;
    }
  }

  lemma RxProjects(s: State)
    requires CanDo(s, RxStep)
    ensures Follows(Queueing(s), RaceEvent(s, RxStep), Queueing(DoRx(s)))
  {
  }

  lemma WakerProjects(s: State, t: nat, panics: bool)
    requires Inv(s) && CanDo(s, Waker(t, panics))
    ensures Queueing(Do(s, Waker(t, panics))) == Queueing(s)
  {
    assert s.rx.Scan? ==> s.m.threads[0] == W.Idle;
  }

  /** Every event of the channel is one of the queue's, or none. */
  lemma EventProjects(s: State, e: Event)
    requires Inv(s) && CanDo(s, e)
    ensures Follows(Queueing(s), RaceEvent(s, e), Queueing(Do(s, e)))
  {
    match e
    case Poll =>
    case RxStep => RxProjects(s);
    case Waker(t, panics) => WakerProjects(s, t, panics);
    case Send(t, x) => assert Queueing(Do(s, e)).threads == Queueing(s).threads;
    case TxStep(t) =>
      if s.tx[t].CheckFlag? {
        CheckProjects(s, t);
      } else {
        PushProjects(s, t);
      }
    case DropSenders =>
  }

  ghost predicate Ordered(s: State) {
    Inv(s) && Ascending(s.entries) && R.WalkOk(s.entries, Queueing(s).walk)
  }

  lemma StepKeepsOrdered(s: State, s': State)
    requires Ordered(s) && Step(s, s')
    ensures Ordered(s')
  {
    EventKeepsInv(s, s');
    var e :| CanDo(s, e) && s' == Do(s, e);
    EventProjects(s, e);
    var x := RaceEvent(s, e);
    if x.Some? {
      R.StepOnPriority(Queueing(s), x.value, 0);
      R.StepKeepsWalk(Queueing(s), x.value);
    }
  }

  lemma {:induction false} EveryRunOrdered(ss: seq<State>, i: nat)
    requires Runs.Run(Init, Step, ss) && i < |ss|
    ensures Ordered(ss[i])
  {
    if i == 0 {
    } else {
      EveryRunOrdered(ss, i - 1);
      Runs.StepAt(Init, Step, ss, i);
      StepKeepsOrdered(ss[i - 1], ss[i]);
    }
  }

  // ---------------------------------------------------------------- theorems

  /**
    In every run of the channel, an item that `recv` takes has a priority at most that of every
    item that was queued when its scan began, and is the oldest of its priority.
   */
  lemma ReceivesLowest(ss: seq<State>, i: nat, x: Item<nat>)
    requires Runs.Run(Init, Step, ss) && i < |ss| && ss[i].rx.Scan? && R.Takes(Queueing(ss[i]), x)
    ensures DoRx(ss[i]).popped == ss[i].popped + [x] && DoRx(ss[i]).rx == Done(Some(x))
    ensures forall y | y in Flatten(ss[i].rx.began) :: x.priority <= y.priority
    ensures var q := Queue(ss[i].rx.began, x.priority); q != [] ==> x.value == q[0]
  {
    EveryRunOrdered(ss, i);
    R.TakesLowest(Queueing(ss[i]), x);
  }

  /** A scan that finds nothing began on an empty queue. */
  lemma FindsNothingOnlyInEmpty(ss: seq<State>, i: nat)
    requires Runs.Run(Init, Step, ss) && i < |ss| && ss[i].rx.Scan? && DoRx(ss[i]).rx.Flag?
    ensures Flatten(ss[i].rx.began) == []
  {
    EveryRunOrdered(ss, i);
    R.PassedAllIsEmpty(Queueing(ss[i]));
  }

  /** The event puts a new queue in the place of one that has values in it. */
  predicate OverwritesBy(s: State, e: Event) {
    && e.TxStep? && e.t in s.tx && s.tx[e.t].Create? && Queue(s.entries, s.tx[e.t].x.priority) != []
  }

  /** The step does. */
  ghost predicate Overwrites(s: State, s': State) {
    exists e :: CanDo(s, e) && s' == Do(s, e) && OverwritesBy(s, e)
  }

  /** Values of some priority are gone. */
  ghost predicate SomethingMissing(s: State) {
    exists p :: R.Missing(Queueing(s), p) > 0
  }

  lemma OverwritingProjects(s: State, e: Event)
    requires RaceEvent(s, e).Some?
    ensures R.Overwrites(Queueing(s), RaceEvent(s, e).value) <==> OverwritesBy(s, e)
  {
  }

  /** What an event does to the values of a priority. */
  lemma EventOnQueue(s: State, e: Event, p: int)
    requires Ordered(s) && CanDo(s, e)
    ensures R.Missing(Queueing(Do(s, e)), p) >= R.Missing(Queueing(s), p)
    ensures !OverwritesBy(s, e) && R.Balanced(Queueing(s), p) ==> R.Balanced(Queueing(Do(s, e)), p)
    ensures OverwritesBy(s, e) && s.tx[e.t].x.priority == p ==>
              R.Missing(Queueing(Do(s, e)), p) > R.Missing(Queueing(s), p)
  {
    EventProjects(s, e);
    if RaceEvent(s, e).Some? {
      OverwritingProjects(s, e);
      R.StepOnPriority(Queueing(s), RaceEvent(s, e).value, p);
    }
  }

  lemma OverwritingLoses(s: State, s': State)
    requires Ordered(s) && Overwrites(s, s') && forall p :: R.Missing(Queueing(s), p) >= 0
    ensures SomethingMissing(s')
  {
    var e :| CanDo(s, e) && s' == Do(s, e) && OverwritesBy(s, e);
    var p := s.tx[e.t].x.priority;
    EventOnQueue(s, e, p);
    assert R.Missing(Queueing(s'), p) > 0;
  }

  lemma StepOnQueue(s: State, s': State, p: int)
    requires Ordered(s) && Step(s, s')
    ensures R.Missing(Queueing(s'), p) >= R.Missing(Queueing(s), p)
    ensures !Overwrites(s, s') && R.Balanced(Queueing(s), p) ==> R.Balanced(Queueing(s'), p)
  {
    var e :| CanDo(s, e) && s' == Do(s, e);
    EventOnQueue(s, e, p);
  }

  /** The `k`-th step of the run does. */
  ghost predicate OverwritesAt(ss: seq<State>, k: nat) {
    k + 1 < |ss| && Overwrites(ss[k], ss[k + 1])
  }

  /** Nothing is missing, or something is and the loss shows. */
  ghost predicate Counted(s: State) {
    && (forall p :: R.Missing(Queueing(s), p) >= 0)
    && (!R.Lossless(Queueing(s)) ==> SomethingMissing(s))
  }

  lemma StartsCounted(s: State)
    requires Init(s)
    ensures Counted(s) && R.Lossless(Queueing(s))
  {
  }

  /**
    In every run of the channel, every priority is lossless and first-in first-out if and only if
    no step has put a new queue in the place of one that had values in it.
   */
  lemma {:induction false} FifoExactly(ss: seq<State>, i: nat)
    requires Runs.Run(Init, Step, ss) && i < |ss|
    ensures R.Lossless(Queueing(ss[i])) <==> forall k: nat | k < i :: !OverwritesAt(ss, k)
    ensures Counted(ss[i])
  {
    if i == 0 {
      StartsCounted(ss[0]);
    } else {
      FifoExactly(ss, i - 1);
      EveryRunOrdered(ss, i - 1);
      Runs.StepAt(Init, Step, ss, i);
      CountOn(ss, i);
      assert (forall k: nat | k < i :: !OverwritesAt(ss, k)) <==>
             (forall k: nat | k < i - 1 :: !OverwritesAt(ss, k)) && !OverwritesAt(ss, i - 1);
    }
  }

  lemma CountOn(ss: seq<State>, i: nat)
    requires 0 < i < |ss| && Ordered(ss[i - 1]) && Step(ss[i - 1], ss[i]) && Counted(ss[i - 1])
    ensures Counted(ss[i])
    ensures R.Lossless(Queueing(ss[i])) <==> R.Lossless(Queueing(ss[i - 1])) && !OverwritesAt(ss, i - 1)
  {
    NextLossless(ss[i - 1], ss[i]);
  }

  lemma MissingMeansLoss(s: State)
    requires SomethingMissing(s)
    ensures !R.Lossless(Queueing(s))
  {
    var p :| R.Missing(Queueing(s), p) > 0;
    assert !R.Balanced(Queueing(s), p);
  }

  lemma NextLossless(s: State, s': State)
    requires Ordered(s) && Step(s, s') && Counted(s)
    ensures R.Lossless(Queueing(s')) <==> R.Lossless(Queueing(s)) && !Overwrites(s, s')
    ensures Counted(s')
  {
    forall p
      ensures R.Missing(Queueing(s'), p) >= R.Missing(Queueing(s), p)
      ensures !Overwrites(s, s') && R.Balanced(Queueing(s), p) ==> R.Balanced(Queueing(s'), p)
    {
      StepOnQueue(s, s', p);
    }
    if Overwrites(s, s') {
      OverwritingLoses(s, s');
      MissingMeansLoss(s');
    } else if !R.Lossless(Queueing(s)) {
      var p :| R.Missing(Queueing(s), p) > 0;
      assert R.Missing(Queueing(s'), p) > 0;
      MissingMeansLoss(s');
    }
  }

  lemma NextFifo(ss: seq<State>, i: nat)
    requires Runs.Run(Init, Step, ss) && i + 1 < |ss|
    requires var r := Queueing(ss[i]); R.NoRace(r) && R.Lossless(r) && R.FoundNone(r)
    ensures var r' := Queueing(ss[i + 1]); R.Lossless(r') && R.FoundNone(r')
  {
    EveryRunOrdered(ss, i);
    Runs.StepAt(Init, Step, ss, i + 1);
    var e :| CanDo(ss[i], e) && ss[i + 1] == Do(ss[i], e);
    EventProjects(ss[i], e);
    var r, x := Queueing(ss[i]), RaceEvent(ss[i], e);
    if x.Some? {
      R.StepKeepsFoundNone(r, x.value);
      var r' := Queueing(ss[i + 1]);
      forall p ensures R.Balanced(r', p) {
        R.StepOnPriority(r, x.value, p);
      }
    }
  }

  /** While no two first pushes of one priority race, every priority is lossless and first-in first-out. */
  lemma {:induction false} FifoPerPriority(ss: seq<State>, i: nat)
    requires Runs.Run(Init, Step, ss) && i < |ss| && forall k | 0 <= k < i :: R.NoRace(Queueing(ss[k]))
    ensures R.Lossless(Queueing(ss[i])) && R.FoundNone(Queueing(ss[i]))
  {
    if i == 0 {
    } else {
      FifoPerPriority(ss, i - 1);
      NextFifo(ss, i - 1);
    }
  }
}
