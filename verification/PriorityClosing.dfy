/**
  What `Ready(None)` leaves behind. `recv` reads the end flag after it found the queue empty; what
  the senders do in between decides whether a value stays in the queue for good.
 */
module PriorityClosing {
  import opened Util
  import opened PriorityQueues
  import opened PriorityChannels
  import PriorityAnswers
  import W = AtomicWakers
  import Runs

  lemma {:induction false} SomethingListed(es: Entries, k: nat)
    requires k < |es| && es[k].queue != []
    ensures Flatten(es) != []
  {
    if k == 0 {
    } else {
      SomethingListed(es[1..], k - 1);
    }
  }

  /** If `Ready(None)` leaves a value behind, no scan of that call began after the senders were gone. */
  lemma ClosedMeansEmpty(ss: seq<State>, k: nat, j: nat)
    requires Runs.Run(Init, Step, ss) && PriorityAnswers.ScanBegins(ss, k) && k < j < |ss|
    requires ss[j].rx == Done(None) && NonEmpty(ss[j])
    ensures !ss[k].ended
  {
    if ss[k].ended {
      PriorityAnswers.DrainsInOrder(ss, k, j);
    }
    var n :| 0 <= n < |ss[j].entries| && ss[j].entries[n].queue != [];
    SomethingListed(ss[j].entries, n);
  }

  ghost predicate Follows(s: State, es: seq<Event>, s': State)
    decreases es
  {
    if es == [] then s' == s else CanDo(s, es[0]) && Follows(Do(s, es[0]), es[1..], s')
  }

  lemma Before(e: Event, s: State, es: seq<Event>, s': State) returns (more: seq<Event>)
    requires CanDo(s, e) && Follows(Do(s, e), es, s')
    ensures more == [e] + es && Follows(s, more, s')
  {
    more := [e] + es;
    assert more[1..] == es;
  }

  lemma {:induction false} Then(s: State, a: seq<Event>, s1: State, b: seq<Event>, s2: State)
    requires Follows(s, a, s1) && Follows(s1, b, s2)
    ensures Follows(s, a + b, s2)
    decreases |a|
  {
    if a == [] {
      assert a + b == b;
    } else {
      Then(Do(s, a[0]), a[1..], s1, b, s2);
      assert (a + b)[1..] == a[1..] + b;
    }
  }

  // ---------------------------------------------------------------- exactly when

  /** The receiver does nothing. */
  predicate SendersOnly(es: seq<Event>) {
    forall e | e in es :: !e.Poll? && !e.RxStep?
  }

  /** The senders lead from `s` to a state in which the receiver reads a set flag and leaves a value behind. */
  ghost predicate LeavesBehind(s: State, es: seq<Event>, s': State) {
    && Follows(s, es, s') && SendersOnly(es)
    && s'.rx == s.rx && CanDo(s', RxStep) && DoRx(s').rx == Done(None) && NonEmpty(DoRx(s'))
  }

  /**
    When `recv` has found nothing and is about to read the end flag, `Ready(None)` can leave a
    value behind if and only if some sender is still there, or a value is already in the queue.
   */
  lemma ClosedLeavesExactly(s: State)
    requires Inv(s) && s.rx.Flag? && s.tx != map[]
    ensures (exists es, s' :: LeavesBehind(s, es, s')) <==> !s.ended || NonEmpty(s)
  {
    if !s.ended {
      var es, s' := PushAndLeave(s);
    } else if NonEmpty(s) {
      assert LeavesBehind(s, [], s);
    }
    forall es, s' | LeavesBehind(s, es, s') && s.ended ensures NonEmpty(s) {
      NothingArrives(s, es, s');
    }
  }

  /** Once the senders are gone, nothing is pushed. */
  lemma {:induction false} NothingArrives(s: State, es: seq<Event>, s': State)
    requires s.ended && (forall t | t in s.tx :: s.tx[t] == Rest)
    requires Follows(s, es, s') && SendersOnly(es)
    ensures s'.entries == s.entries
    decreases |es|
  {
    if es == [] {
    } else {
      assert es[0] in es;
      NothingArrives(Do(s, es[0]), es[1..], s');
    }
  }

  /** The steps that thread `t` has at most to do until its call is over. */
  function StepsLeft(s: State, t: nat): nat
    requires t in s.tx && t in s.m.threads
  {
    match s.tx[t]
    case CheckFlag(_) => 7
    case Look(_) => 6
    case Create(_) => 5
    case Rest =>
      match s.m.threads[t]
      case WakeStart => 4
      case WakeLocked => 3
      case WakeTaken(_) => 2
      case WakeCall(_) => 1
      case _ => 0
  }

  /** Senders stand where they stood, but for `t`; the receiver is about to read the flag, which is not set. */
  ghost predicate OnlyMoves(s: State, s': State, t: nat) {
    && Inv(s') && s'.rx == s.rx && s'.ended == s.ended && s'.tx.Keys == s.tx.Keys
    && (forall u | u in s.tx && u != t :: s'.tx[u] == s.tx[u])
    && (forall u | u in s.m.threads && u != t :: u in s'.m.threads && s'.m.threads[u] == s.m.threads[u])
  }

  lemma {:induction false} InsertedIsThere(es: Entries, p: int, q: seq<nat>)
    requires q != []
    ensures SomethingBefore(Insert(es, p, q), |Insert(es, p, q)|)
  {
    var r := Insert(es, p, q);
    if es != [] && es[0].priority < p {
      InsertedIsThere(es[1..], p, q);
      var k :| 0 <= k < |r[1..]| && r[1..][k].queue != [];
      assert r[k + 1].queue != [];
    } else {
      assert r[0].queue == q;
    }
  }

  lemma WakingStep(s: State, t: nat)
    requires Inv(s) && s.rx.Flag? && t in s.tx && s.tx[t] == Rest && StepsLeft(s, t) > 0
    ensures CanDo(s, Waker(t, false))
    ensures var s' := Do(s, Waker(t, false));
            OnlyMoves(s, s', t) && s'.tx == s.tx && s'.entries == s.entries && StepsLeft(s', t) < StepsLeft(s, t)
  {
    WakerKeepsInv(s, t, false);
  }

  lemma AppendMoves(s: State, t: nat, entries: Entries, x: Item<nat>)
    requires Inv(s) && s.rx.Flag? && CanDo(s, TxStep(t))
    ensures var s' := AppendAndWake(s, t, entries, x);
            OnlyMoves(s, s', t) && s'.tx[t] == Rest && StepsLeft(s', t) == 4 && s'.entries == entries
  {
    AppendKeepsInv(s, t, entries, x);
  }

  lemma PushingStep(s: State, t: nat)
    requires Inv(s) && s.rx.Flag? && !s.ended && t in s.tx && s.tx[t] != Rest
    ensures CanDo(s, TxStep(t))
    ensures var s' := Do(s, TxStep(t));
            OnlyMoves(s, s', t) && StepsLeft(s', t) < StepsLeft(s, t) && (s'.tx[t] == Rest ==> NonEmpty(s'))
  {
    match s.tx[t]
    case CheckFlag(x) => TxKeepsInv(s, t);
    case Look(x) =>
      if ContainsKey(s.entries, x.priority) {
        AppendMoves(s, t, PushTo(s.entries, x), x);
        InsertedIsThere(s.entries, x.priority, Queue(s.entries, x.priority) + [x.value]);
      } else {
        TxKeepsInv(s, t);
      }
    case Create(x) =>
      AppendMoves(s, t, Insert(s.entries, x.priority, [x.value]), x);
      InsertedIsThere(s.entries, x.priority, [x.value]);
  }

  /** Thread `t` finishes its call. */
  lemma {:induction false} Finish(s: State, t: nat) returns (es: seq<Event>, s': State)
    requires Inv(s) && s.rx.Flag? && !s.ended && t in s.tx
    ensures Follows(s, es, s') && SendersOnly(es)
    ensures OnlyMoves(s, s', t) && StepsLeft(s', t) == 0
    ensures s.tx[t] != Rest || NonEmpty(s) ==> NonEmpty(s')
    decreases StepsLeft(s, t)
  {
    if StepsLeft(s, t) == 0 {
      es, s' := [], s;
    } else {
      var e := if s.tx[t] == Rest then Waker(t, false) else TxStep(t);
      if s.tx[t] == Rest {
        WakingStep(s, t);
      } else {
        PushingStep(s, t);
      }
      var rest;
      rest, s' := Finish(Do(s, e), t);
      es := Before(e, s, rest, s');
    }
  }

  ghost function Busy(s: State): set<nat>
    requires Inv(s)
  {
    set t | t in s.tx && StepsLeft(s, t) > 0
  }

  /** All threads finish their calls, one after the other. */
  lemma {:induction false} FinishAll(s: State) returns (es: seq<Event>, s': State)
    requires Inv(s) && s.rx.Flag? && !s.ended
    ensures Follows(s, es, s') && SendersOnly(es)
    ensures Inv(s') && s'.rx == s.rx && !s'.ended && s'.tx.Keys == s.tx.Keys && Busy(s') == {}
    decreases Busy(s)
  {
    if Busy(s) == {} {
      es, s' := [], s;
    } else {
      var t := SomeMember(Busy(s));
      var first, s1 := Finish(s, t);
      forall u | u in s.tx && u != t ensures StepsLeft(s1, u) == StepsLeft(s, u) {
      }
      assert t in Busy(s) && t !in Busy(s1) && Busy(s1) <= Busy(s);
      var rest;
      rest, s' := FinishAll(s1);
      es := first + rest;
      Then(s, first, s1, rest, s');
    }
  }

  lemma IdleAtRest(s: State)
    requires Inv(s) && Busy(s) == {}
    ensures forall t | t in s.tx :: s.tx[t] == Rest && PcIdle(s.m, t)
  {
    forall t | t in s.tx ensures s.tx[t] == Rest && PcIdle(s.m, t) {
      assert t !in Busy(s);
      assert t in s.m.threads && !W.InRegister(s.m.threads[t]);
    }
  }

  /** One more call of `send_sync`, while all other threads rest. */
  lemma SendOnce(s: State, t: nat) returns (es: seq<Event>, s': State)
    requires Inv(s) && s.rx.Flag? && !s.ended && t in s.tx && Busy(s) == {}
    ensures Follows(s, es, s') && SendersOnly(es)
    ensures Inv(s') && s'.rx == s.rx && Busy(s') == {} && NonEmpty(s')
  {
    IdleAtRest(s);
    var send := Send(t, Item(0, 0));
    StepKeepsInv(s, send);
    var s1 := Do(s, send);
    var rest;
    rest, s' := Finish(s1, t);
    forall u | u in s'.tx ensures StepsLeft(s', u) == 0 {
      assert u != t ==> u !in Busy(s) && StepsLeft(s', u) == StepsLeft(s, u);
    }
    es := Before(send, s, rest, s');
  }

  /** Everyone finishes, one sender sends once more, and all leave. */
  lemma PushAndLeave(s: State) returns (es: seq<Event>, s': State)
    requires Inv(s) && s.rx.Flag? && !s.ended && s.tx != map[]
    ensures LeavesBehind(s, es, s')
  {
    var t := SomeMember(s.tx.Keys);
    var a, s1 := FinishAll(s);
    var b, s2 := SendOnce(s1, t);
    var c;
    c, s' := AllLeave(s2);
    Then(s1, b, s2, c, s');
    Then(s, a, s1, b + c, s');
    es := a + (b + c);
  }

  lemma AllLeave(s: State) returns (es: seq<Event>, s': State)
    requires Inv(s) && s.rx.Flag? && Busy(s) == {} && NonEmpty(s)
    ensures Follows(s, es, s') && SendersOnly(es)
    ensures s'.rx == s.rx && CanDo(s', RxStep) && DoRx(s').rx == Done(None) && NonEmpty(DoRx(s'))
  {
    IdleAtRest(s);
    s' := Do(s, DropSenders);
    es := Before(DropSenders, s, [], s');
  }

  // ---------------------------------------------------------------- a run

  function Start(): State {
    State(W.Machine(W.WAITING, None, map[0 := W.Idle, 1 := W.Idle], multiset{}, 0),
          Resting, 0, [], map[1 := Rest], false, [], [])
  }

  /** The scan found nothing, and then a value was pushed. */
  function Late(x: Item<nat>): State {
    State(W.Machine(W.WAITING, None, map[0 := W.Idle, 1 := W.WakeStart], multiset{}, 0),
          Flag(false, false), 1, [Entry(x.priority, [x.value])], map[1 := Rest], false, [x], [])
  }

  /**
    From the start: the last sender pushes, finds no waker to call and leaves between the scan and
    the reading of the flag.
   */
  lemma ClosedMayLeaveMessage(x: Item<nat>) returns (es: seq<Event>, s: State)
    ensures Init(Start()) && Follows(Start(), [Poll] + es, s)
    ensures s.rx == Flag(false, false) && s.ended && CanDo(s, RxStep)
    ensures DoRx(s).rx == Done(None) && Flatten(DoRx(s).entries) == [x]
  {
    s := Left(x);
    var s1 := Do(Start(), Poll);
    es := WakeAndLeave(x);
    es := PushLate(x, es);
    es := Before(RxStep, s1, es, s);
    var all := Before(Poll, Start(), es, s);
    assert s.entries == [Entry(x.priority, [x.value])] + [];
  }

  /** The scan of the empty map is over. */
  function Found(): State {
    Start().(rx := Flag(false, false), epoch := 1)
  }

  lemma PushLate(x: Item<nat>, es: seq<Event>) returns (more: seq<Event>)
    requires Follows(Late(x), es, Left(x))
    ensures Follows(Found(), more, Left(x))
  {
    var s3 := Found().(tx := map[1 := CheckFlag(x)]);
    var s4 := Found().(tx := map[1 := Look(x)]);
    var s5 := Found().(tx := map[1 := Create(x)]);
    assert Do(s5, TxStep(1)) == Late(x);
    more := Before(TxStep(1), s5, es, Left(x));
    assert Do(s4, TxStep(1)) == s5;
    more := Before(TxStep(1), s4, more, Left(x));
    assert Do(s3, TxStep(1)) == s4;
    more := Before(TxStep(1), s3, more, Left(x));
    assert Do(Found(), Send(1, x)) == s3;
    more := Before(Send(1, x), Found(), more, Left(x));
  }

  function Left(x: Item<nat>): State {
    Late(x).(m := Start().m.(wakes := 1), ended := true)
  }

  lemma WakeAndLeave(x: Item<nat>) returns (es: seq<Event>)
    ensures Follows(Late(x), es, Left(x))
  {
    W.WordBits(W.WAITING);
    W.WordBits(W.WAKING);
    var s7 := Do(Late(x), Waker(1, false));
    assert s7.m.threads[1] == W.WakeLocked;
    var s8 := Do(s7, Waker(1, false));
    assert s8.m.threads[1] == W.WakeTaken(None);
    var s9 := Do(s8, Waker(1, false));
    assert Do(s9, DropSenders) == Left(x);
    es := Before(DropSenders, s9, [], Left(x));
    es := Before(Waker(1, false), s8, es, Left(x));
    es := Before(Waker(1, false), s7, es, Left(x));
    es := Before(Waker(1, false), Late(x), es, Left(x));
  }

  // ---------------------------------------------------------------- the receiver is not woken

  /** All threads are at rest, the senders for good. */
  ghost predicate AllGone(s: State) {
    && s.ended && s.rx.Pending?
    && (forall t | t in s.tx :: s.tx[t] == Rest)
    && (forall t | t in s.m.threads :: s.m.threads[t] == W.Idle)
  }

  lemma {:induction false} NothingHappens(s: State, es: seq<Event>, s': State)
    requires AllGone(s) && Follows(s, es, s') && forall e | e in es :: e != Poll
    ensures s' == s
    decreases |es|
  {
    if es == [] {
    } else {
      assert es[0] in es;
      assert Do(s, es[0]) == s;
      assert forall e | e in es[1..] :: e in es;
      NothingHappens(s, es[1..], s');
    }
  }

  /**
    Dropping the last sender does not wake the receiver: a pending `recv` that was asleep before
    stays asleep, and short of another poll nothing ever happens again.
   */
  lemma DropSendersWakesNobody(s: State, es: seq<Event>, s': State)
    requires Inv(s) && s.rx.Pending? && CanDo(s, DropSenders)
    requires Follows(Do(s, DropSenders), es, s') && forall e | e in es :: e != Poll
    ensures s' == Do(s, DropSenders) && s'.ended
    ensures Asleep(s') <==> Asleep(s)
  {
    forall t | t in s.m.threads ensures s.m.threads[t] == W.Idle {
      assert t == 0 || t in s.tx;
    }
    NothingHappens(Do(s, DropSenders), es, s');
  }

  /** The receiver has registered and waits, with its waker in the cell. */
  function Sleeping(): State {
    Start().(rx := Pending, epoch := 1, m := Start().m.(cell := Some(1)))
  }

  /** The receiver's registration, from the flag to the second scan. */
  lemma Registers() returns (es: seq<Event>)
    ensures Follows(Found(), es, Found().(rx := Scan(true, 0, false, []), m := Sleeping().m))
  {
    var end := Found().(rx := Scan(true, 0, false, []), m := Sleeping().m);
    var m := Start().m;
    var s1 := Found().(rx := Registering, m := m.(threads := m.threads[0 := W.RegStart(1)]));
    var s2 := s1.(m := s1.m.(word := W.REGISTERING, threads := m.threads[0 := W.RegLocked(1)]));
    var s3 := s1.(m := s1.m.(word := W.REGISTERING, cell := Some(1), threads := m.threads[0 := W.RegStored(None)]));
    var s4 := s1.(m := Sleeping().m);
    assert Do(s4, RxStep) == end;
    es := Before(RxStep, s4, [], end);
    assert Do(s3, Waker(0, false)) == s4;
    es := Before(Waker(0, false), s3, es, end);
    assert Do(s2, Waker(0, false)) == s3;
    es := Before(Waker(0, false), s2, es, end);
    assert Do(s1, Waker(0, false)) == s2;
    es := Before(Waker(0, false), s1, es, end);
    assert Do(Found(), RxStep) == s1;
    es := Before(RxStep, Found(), es, end);
  }

  /** So a run can end with the senders gone, the flag set, and the receiver asleep. */
  lemma SleepsThroughTheEnd() returns (es: seq<Event>, s: State)
    ensures Init(Start()) && Follows(Start(), [Poll] + es, s)
    ensures Asleep(s) && s.ended && AllGone(s)
  {
    s := Sleeping().(ended := true);
    es := Before(DropSenders, Sleeping(), [], s);
    var flag := Sleeping().(rx := Flag(true, false));
    es := Before(RxStep, flag, es, s);
    var scan := Sleeping().(rx := Scan(true, 0, false, []));
    es := Before(RxStep, scan, es, s);
    var first := Registers();
    Then(Found(), first, scan, es, s);
    es := Before(RxStep, Do(Start(), Poll), first + es, s);
    var all := Before(Poll, Start(), es, s);
  }
}
