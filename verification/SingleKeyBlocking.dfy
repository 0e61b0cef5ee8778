/**
  The single-key channel and its way of blocking in one system: what the threads do to the queues
  they do in `SingleKeySystem` and in `ListenerProtocol` at once.
 */
module SingleKeyBlocking {
  import opened Keys
  import opened Util
  import opened SingleKeyChannels
  import S = SingleKeySystem
  import L = ListenerProtocol
  import Runs

  datatype State = State(l: L.State, s: S.Sys)

  datatype Event =
    | Send(p: nat, x: Item<Value>)
    | GiveKey(p: nat, i: nat)    // a message is dropped by thread `p`
    | Pop(turn: Turn)            // the receiver pops a key or a message and deals with it
    | Other(e: L.Event)          // everything that leaves the queues as they are

  ghost predicate Init(b: State) {
    L.Init(b.l) && S.Init(b.s)
  }

  predicate CanDo(b: State, e: Event) {
    && !b.s.panicked
    && match e
       case Send(p, x) => L.CanDo(b.l, L.Push(p)) && S.CanDo(b.s, S.Send(x))
       case GiveKey(p, i) => L.CanDo(b.l, L.PushKey(p)) && S.CanDo(b.s, S.DropMessage(i))
       case Pop(turn) =>
         && S.CanDo(b.s, S.Receive(turn))
         && (if turn.DropTurn? then b.l.pc.PopDrop? && b.l.dropq > 0 else b.l.pc.PopQ? && b.l.q > 0)
       case Other(e) => L.CanDo(b.l, e) && L.LeavesQueues(b.l, e)
  }

  /** The receiver's step of the protocol that goes with a turn. */
  function Going(s: S.Sys, turn: Turn): L.Event
    requires S.CanDo(s, S.Receive(turn))
  {
    L.Go(DoTurn(s.r, turn).got.Got?, DoTurn(s.r, turn).r.using == map[])
  }

  function Do(b: State, e: Event): State
    requires CanDo(b, e)
  {
    match e
    case Send(p, x) => State(L.Do(b.l, L.Push(p)), S.Do(b.s, S.Send(x)))
    case GiveKey(p, i) => State(L.Do(b.l, L.PushKey(p)), S.Do(b.s, S.DropMessage(i)))
    case Pop(turn) => State(L.Do(b.l, Going(b.s, turn)), S.Do(b.s, S.Receive(turn)))
    case Other(e) => b.(l := L.Do(b.l, e))
  }

  ghost predicate Step(b: State, b': State) {
    exists e :: CanDo(b, e) && b' == Do(b, e)
  }

  /** The protocol's counts are the lengths of the queues, and its flag tells of the table of used keys. */
  predicate Coupled(l: L.State, s: S.Sys) {
    l.q == |s.r.q| && l.dropq == |s.r.dropq| && (l.tableEmpty <==> s.r.using == map[])
  }

  ghost predicate Inv(b: State) {
    L.Inv(b.l) && S.Inv(b.s) && Coupled(b.l, b.s)
  }

  lemma SendKeepsInv(b: State, p: nat, x: Item<Value>)
    requires Inv(b) && CanDo(b, Send(p, x))
    ensures Inv(Do(b, Send(p, x)))
  {
    L.StepKeepsInv(b.l, L.Push(p));
    S.StepKeepsInv(b.s, S.Send(x));
  }

  lemma GiveKeyKeepsInv(b: State, p: nat, i: nat)
    requires Inv(b) && CanDo(b, GiveKey(p, i))
    ensures Inv(Do(b, GiveKey(p, i)))
  {
    L.StepKeepsInv(b.l, L.PushKey(p));
    S.StepKeepsInv(b.s, S.DropMessage(i));
  }

  lemma PopKeepsCoupled(b: State, turn: Turn)
    requires Coupled(b.l, b.s) && CanDo(b, Pop(turn)) && !Do(b, Pop(turn)).s.panicked
    ensures var b' := Do(b, Pop(turn)); Coupled(b'.l, b'.s)
  {
  }

  lemma PopKeepsInv(b: State, turn: Turn)
    requires Inv(b) && CanDo(b, Pop(turn))
    ensures Inv(Do(b, Pop(turn)))
  {
    L.StepKeepsInv(b.l, Going(b.s, turn));
    S.StepKeepsInv(b.s, S.Receive(turn));
    PopKeepsCoupled(b, turn);
  }

  lemma StepKeepsInv(b: State, e: Event)
    requires Inv(b) && CanDo(b, e)
    ensures Inv(Do(b, e))
  {
    match e
    case Send(p, x) => SendKeepsInv(b, p, x);
    case GiveKey(p, i) => GiveKeyKeepsInv(b, p, i);
    case Pop(turn) => PopKeepsInv(b, turn);
    case Other(e) =>
      L.StepKeepsInv(b.l, e);
      L.QueuesStay(b.l, e);
  }

  lemma {:induction false} EveryRun(bs: seq<State>, i: nat)
    requires Runs.Run(Init, Step, bs) && i < |bs|
    ensures Inv(bs[i])
  {
    if i == 0 {
      S.InitInv(bs[0].s);
    } else {
      EveryRun(bs, i - 1);
      Runs.StepAt(Init, Step, bs, i);
      var e :| CanDo(bs[i - 1], e) && bs[i] == Do(bs[i - 1], e);
      StepKeepsInv(bs[i - 1], e);
    }
  }

  /**
    A receiver that sleeps un-notified, with nobody about to notify it, sleeps for good reason: the
    key of every message not delivered is held by a living one, and if the senders are gone there
    is a living message.
   */
  lemma SleepsOnlyForKeys(bs: seq<State>, i: nat)
    requires Runs.Run(Init, Step, bs) && i < |bs|
    requires bs[i].l.pc == L.Blocked && !bs[i].l.notified && !L.SomeoneWillNotify(bs[i].l.prods)
    ensures var s := bs[i].s;
            && s.r.q == [] && s.r.dropq == []
            && (forall t | t in S.Pending(s) :: exists j :: j in s.out && s.out[j] == s.accepted[t].k)
            && (bs[i].l.flag ==> s.out != map[])
  {
    EveryRun(bs, i);
    var s := bs[i].s;
    forall t | t in S.Pending(s) ensures exists j :: j in s.out && s.out[j] == s.accepted[t].k {
      S.BlockingJustified(s, t);
    }
    if bs[i].l.flag {
      var k := SomeMember(s.r.using.Keys);
      assert exists j :: j in s.out && s.out[j] == k;
    }
  }

  /**
    When `recv` has answered `Closed`, the senders are gone and no key is in use: no message waits
    or lives, no dropped key is left, and what was not delivered is still in the send queue.
   */
  lemma ClosedLeavesOnlyQueued(bs: seq<State>, i: nat)
    requires Runs.Run(Init, Step, bs) && i < |bs| && bs[i].l.pc == L.Closed
    ensures bs[i].l.flag && bs[i].l.senders == {}
    ensures var s := bs[i].s;
            && s.r.using == map[] && s.out == map[] && s.r.dropq == []
            && forall t: nat | t < |s.accepted| :: S.IsDelivered(s, t) || S.Tagged(s.accepted)[t] in s.r.q
  {
    EveryRun(bs, i);
    var s := bs[i].s;
    NoKeyNoOwner(s);
    forall t: nat | t < |s.accepted| && !S.IsDelivered(s, t) ensures S.Tagged(s.accepted)[t] in s.r.q {
      StillQueued(s, t);
    }
  }

  lemma NoKeyNoOwner(s: S.Sys)
    requires S.Owned(s)
    ensures s.r.using == map[] ==> s.out == map[] && s.r.dropq == []
  {
    assert s.out == map[] || exists j :: j in s.out;
    if s.r.dropq != [] {
      assert s.r.dropq[0] in s.r.dropq;
    }
  }

  lemma StillQueued(s: S.Sys, t: nat)
    requires S.Inv(s) && s.r.using == map[] && t < |s.accepted| && !S.IsDelivered(s, t)
    ensures S.Tagged(s.accepted)[t] in s.r.q
  {
    var k, x := s.accepted[t].k, S.Tagged(s.accepted)[t];
    S.InOf(k, S.Tagged(s.accepted), t);
    assert S.LinedAt(s, k);
    S.OfHasKey(k, s.delivered);
    S.OfHasKey(k, s.r.q);
    forall d | d in s.delivered ensures d.v != t {
      var i :| 0 <= i < |s.delivered| && s.delivered[i] == d;
    }
  }

  /** A call of `recv` comes back with a message exactly when one is handed out, and each call with one. */
  lemma ReturnsWhatIsHandedOut(bs: seq<State>, i: nat)
    requires Runs.Run(Init, Step, bs) && i + 1 < |bs| && !bs[i + 1].s.panicked
    ensures var b, b' := bs[i], bs[i + 1];
            if b'.l.pc == L.Ready && b.l.pc != L.Ready
            then |b'.s.delivered| == |b.s.delivered| + 1 && b'.s.delivered[..|b.s.delivered|] == b.s.delivered
            else b'.s.delivered == b.s.delivered
  {
    Runs.StepAt(Init, Step, bs, i + 1);
    var e :| CanDo(bs[i], e) && bs[i + 1] == Do(bs[i], e);
    if e.Pop? {
      TurnReturns(bs[i], e.turn);
    } else if e.Other? {
      OtherReturnsNothing(bs[i], e.e);
    }
  }

  lemma TurnReturns(b: State, turn: Turn)
    requires CanDo(b, Pop(turn)) && !Do(b, Pop(turn)).s.panicked
    ensures var b' := Do(b, Pop(turn));
            if b'.l.pc == L.Ready && b.l.pc != L.Ready
            then |b'.s.delivered| == |b.s.delivered| + 1 && b'.s.delivered[..|b.s.delivered|] == b.s.delivered
            else b'.s.delivered == b.s.delivered
  {
  }

  lemma OtherReturnsNothing(b: State, e: L.Event)
    requires CanDo(b, Other(e))
    ensures var b' := Do(b, Other(e)); b'.s == b.s && (b'.l.pc == L.Ready ==> b.l.pc == L.Ready)
  {
    if e.Go? {
      match b.l.pc
      case PopDrop =>
      case PopQ =>
      case _ =>
    }
  }
}
