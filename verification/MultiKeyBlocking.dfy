/**
  The multi-key channel and its way of blocking in one system: what the threads do to the queues
  they do in `MultiKeySystem` and in `ListenerProtocol` at once.
 */
module MultiKeyBlocking {
  import opened Keys
  import opened Util
  import opened ReceiverSpec
  import S = MultiKeySystem
  import K = KeyLedgers
  import T = MultiKeyTheorems
  import L = ListenerProtocol
  import Runs

  datatype State = State(l: L.State, s: S.Sys)

  datatype Event =
    | Send(p: nat, msg: Msg<Value>)
    | GiveKey(p: nat, t: nat)    // a message being dropped by thread `p` pushes its last key
    | Gone(t: nat)               // it has no key left
    | Pop(turn: Turn)            // the receiver pops a key or a message and deals with it
    | Other(e: L.Event)          // everything that leaves the queues as they are

  ghost predicate Init(b: State) {
    L.Init(b.l) && S.Init(b.s)
  }

  ghost predicate CanDo(b: State, e: Event) {
    && b.s.panic.None?
    && match e
       case Send(p, msg) => L.CanDo(b.l, L.Push(p)) && S.CanDo(b.s, S.Send(msg))
       case GiveKey(p, t) => L.CanDo(b.l, L.PushKey(p)) && S.CanDo(b.s, S.DropKey(t))
       case Gone(t) => S.CanDo(b.s, S.DropEnd(t))
       case Pop(turn) =>
         && S.CanDo(b.s, S.Receive(turn))
         && (if turn.DropTurn? then b.l.pc.PopDrop? && b.l.dropq > 0 else b.l.pc.PopQ? && b.l.q > 0)
       case Other(e) => L.CanDo(b.l, e) && L.LeavesQueues(b.l, e)
  }

  /** The receiver's step of the protocol that goes with a turn. */
  ghost function Going(s: S.Sys, turn: Turn): L.Event
    requires S.CanDo(s, S.Receive(turn))
  {
    L.Go(DoTurn(s.r, turn).got.Got?, S.Do(s, S.Receive(turn)).r.m.waiting == map[])
  }

  ghost function Do(b: State, e: Event): State
    requires CanDo(b, e)
  {
    match e
    case Send(p, msg) => State(L.Do(b.l, L.Push(p)), S.Do(b.s, S.Send(msg)))
    case GiveKey(p, t) => State(L.Do(b.l, L.PushKey(p)), S.Do(b.s, S.DropKey(t)))
    case Gone(t) => b.(s := S.Do(b.s, S.DropEnd(t)))
    case Pop(turn) => State(L.Do(b.l, Going(b.s, turn)), S.Do(b.s, S.Receive(turn)))
    case Other(e) => b.(l := L.Do(b.l, e))
  }

  ghost predicate Step(b: State, b': State) {
    exists e :: CanDo(b, e) && b' == Do(b, e)
  }

  /** The protocol's counts are the lengths of the queues, and its flag tells of the waiting table. */
  ghost predicate Coupled(l: L.State, s: S.Sys) {
    s.panic.None? ==>
      && l.q == |s.r.q| && l.dropq == |s.r.dropq|
      && (l.tableEmpty <==> s.r.m.waiting == map[])
  }

  ghost predicate Inv(b: State) {
    L.Inv(b.l) && S.Inv(b.s) && Coupled(b.l, b.s)
  }

  lemma SendKeepsInv(b: State, p: nat, msg: Msg<Value>)
    requires Inv(b) && CanDo(b, Send(p, msg))
    ensures Inv(Do(b, Send(p, msg)))
  {
    L.StepKeepsInv(b.l, L.Push(p));
    S.StepKeepsInv(b.s, S.Send(msg));
  }

  lemma GiveKeyKeepsInv(b: State, p: nat, t: nat)
    requires Inv(b) && CanDo(b, GiveKey(p, t))
    ensures Inv(Do(b, GiveKey(p, t)))
  {
    L.StepKeepsInv(b.l, L.PushKey(p));
    S.StepKeepsInv(b.s, S.DropKey(t));
  }

  lemma PopKeepsInv(b: State, turn: Turn)
    requires Inv(b) && CanDo(b, Pop(turn))
    ensures Inv(Do(b, Pop(turn)))
  {
    L.StepKeepsInv(b.l, Going(b.s, turn));
    S.StepKeepsInv(b.s, S.Receive(turn));
    PopKeepsCoupled(b, turn);
  }

  lemma PopKeepsCoupled(b: State, turn: Turn)
    requires Coupled(b.l, b.s) && CanDo(b, Pop(turn))
    ensures var b' := Do(b, Pop(turn)); Coupled(b'.l, b'.s)
  {
  }

  lemma OtherKeepsInv(b: State, e: L.Event)
    requires Inv(b) && CanDo(b, Other(e))
    ensures Inv(Do(b, Other(e)))
  {
    L.StepKeepsInv(b.l, e);
    L.QueuesStay(b.l, e);
  }

  lemma StepKeepsInv(b: State, e: Event)
    requires Inv(b) && CanDo(b, e)
    ensures Inv(Do(b, e))
  {
    match e
    case Send(p, msg) => SendKeepsInv(b, p, msg);
    case GiveKey(p, t) => GiveKeyKeepsInv(b, p, t);
    case Gone(t) => S.StepKeepsInv(b.s, S.DropEnd(t));
    case Pop(turn) => PopKeepsInv(b, turn);
    case Other(e) => OtherKeepsInv(b, e);
  }

  lemma {:induction false} EveryRun(bs: seq<State>, i: nat)
    requires Runs.Run(Init, Step, bs) && i < |bs|
    ensures Inv(bs[i])
  {
    if i == 0 {
      S.InitInv(bs[0].s);
    } else {
      EveryRun(bs, i - 1);
      Runs.StepAt(Init, Step, bs, i);
      var e :| CanDo(bs[i - 1], e) && bs[i] == Do(bs[i - 1], e);
      StepKeepsInv(bs[i - 1], e);
    }
  }

  /**
    A receiver that sleeps un-notified, with nobody about to notify it, sleeps for good reason:
    every message not delivered shares a key with a message that is still alive, and if the senders
    are gone there is such a message.
   */
  lemma SleepsOnlyForKeys(bs: seq<State>, i: nat)
    requires Runs.Run(Init, Step, bs) && i < |bs| && bs[i].s.panic.None?
    requires bs[i].l.pc == L.Blocked && !bs[i].l.notified && !L.SomeoneWillNotify(bs[i].l.prods)
    ensures var s := bs[i].s;
            && s.r.q == [] && s.r.dropq == [] && |s.place| == |s.accepted|
            && (forall t: nat | t < |s.accepted| && !s.place[t].Delivered? ::
                  exists u, k :: K.Holds(s.out, u, k) && k in s.accepted[t].ks)
            && (bs[i].l.flag ==> exists t: nat :: t < |s.accepted| && s.place[t].Waiting?)
  {
    EveryRun(bs, i);
    var s := bs[i].s;
    forall t: nat | t < |s.accepted| && !s.place[t].Delivered?
      ensures exists u, k :: K.Holds(s.out, u, k) && k in s.accepted[t].ks
    {
      T.BlockingJustified(s, t);
    }
    if bs[i].l.flag {
      var id := SomeMember(s.r.m.waiting.Keys);
      assert s.place[s.r.m.waiting[id].v] == S.Waiting(id);
    }
  }

  /**
    When `recv` has answered `Closed`, the senders are gone and no message waits: all that was
    accepted was delivered, once, or is still in the send queue.
   */
  lemma ClosedLeavesOnlyQueued(bs: seq<State>, i: nat)
    requires Runs.Run(Init, Step, bs) && i < |bs| && bs[i].s.panic.None? && bs[i].l.pc == L.Closed
    ensures bs[i].l.flag && bs[i].l.senders == {}
    ensures var s := bs[i].s;
            && s.r.m.waiting == map[] && |s.place| == |s.accepted|
            && forall t: nat | t < |s.accepted| ::
                 if s.place[t].Delivered? then s.place[t].i < |s.delivered| && s.delivered[s.place[t].i].v == t
                 else exists a :: 0 <= a < |s.r.q| && s.r.q[a].v == t
  {
    EveryRun(bs, i);
    var s := bs[i].s;
    forall t: nat | t < |s.accepted| && !s.place[t].Delivered? ensures exists a :: 0 <= a < |s.r.q| && s.r.q[a].v == t {
      assert s.place[t].InQueue?;
      assert s.r.q[t - S.Base(s)].v == t;
    }
  }

  /** A call of `recv` comes back with a message exactly when one is handed out, and each call with one. */
  lemma ReturnsWhatIsHandedOut(bs: seq<State>, i: nat)
    requires Runs.Run(Init, Step, bs) && i + 1 < |bs| && bs[i + 1].s.panic.None?
    ensures var b, b' := bs[i], bs[i + 1];
            if b'.l.pc == L.Ready && b.l.pc != L.Ready
            then |b'.s.delivered| == |b.s.delivered| + 1 && b'.s.delivered[..|b.s.delivered|] == b.s.delivered
            else b'.s.delivered == b.s.delivered
  {
    Runs.StepAt(Init, Step, bs, i + 1);
    var e :| CanDo(bs[i], e) && bs[i + 1] == Do(bs[i], e);
    if e.Pop? {
      TurnReturns(bs[i], e.turn);
    } else if e.Other? {
      OtherReturnsNothing(bs[i], e.e);
    }
  }

  lemma TurnReturns(b: State, turn: Turn)
    requires CanDo(b, Pop(turn)) && Do(b, Pop(turn)).s.panic.None?
    ensures var b' := Do(b, Pop(turn));
            if b'.l.pc == L.Ready && b.l.pc != L.Ready
            then |b'.s.delivered| == |b.s.delivered| + 1 && b'.s.delivered[..|b.s.delivered|] == b.s.delivered
            else b'.s.delivered == b.s.delivered
  {
  }

  lemma OtherReturnsNothing(b: State, e: L.Event)
    requires CanDo(b, Other(e))
    ensures var b' := Do(b, Other(e)); b'.s == b.s && (b'.l.pc == L.Ready ==> b.l.pc == L.Ready)
  {
    if e.Go? {
      match b.l.pc
      case PopDrop =>
      case PopQ =>
      case _ =>
    }
  }
}
