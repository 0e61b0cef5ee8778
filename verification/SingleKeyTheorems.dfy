/** The single-key channel refines the abstract channel and drains completely. */
module SingleKeyTheorems {
  import opened Util
  import opened Keys
  import opened SingleKeyChannels
  import opened SingleKeySystem
  import A = AbstractChannel

  ghost function Abstract(s: Sys): A.Abs {
    A.Abs(seq(|s.accepted|, i requires 0 <= i < |s.accepted| => [s.accepted[i].k]),
          Pending(s), s.r.using.Keys,
          seq(|s.delivered|, i requires 0 <= i < |s.delivered| => s.delivered[i].v))
  }

  /** The abstract actions that an event amounts to. */
  ghost function ActionsOf(s: Sys, e: Event): seq<A.Action>
    requires CanDo(s, e)
  {
    match e
    case Send(x) => [A.Accept([x.k])]
    case DropMessage(_) => []
    case Receive(turn) =>
      var got := DoTurn(s.r, turn).got;
      (if turn.DropTurn? then [A.Release(s.r.dropq[0])] else [])
      + (if got.Got? then [A.Deliver(got.e.v)] else [])
  }

  /** Every event is a sequence of enabled abstract actions: a message goes out only when its key is not held. */
  lemma Refines(s: Sys, e: Event)
    requires SingleKeySystem.Inv(s) && CanDo(s, e)
    ensures A.Acts(Abstract(s), ActionsOf(s, e), Abstract(Do(s, e)))
  {
    match e
    case Send(x) => RefinesSend(s, x);
    case DropMessage(i) => assert Abstract(s) == Abstract(Do(s, e));
    case Receive(NewTurn) => RefinesNew(s);
    case Receive(DropTurn) => RefinesDrop(s);
  }

  lemma RefinesSend(s: Sys, x: Item<Value>)
    requires SingleKeySystem.Inv(s) && CanDo(s, Send(x))
    ensures A.Acts(Abstract(s), [A.Accept([x.k])], Abstract(Do(s, Send(x))))
  {
    var s' := Do(s, Send(x));
    assert !IsDelivered(s, |s.accepted|) by {
      forall i | 0 <= i < |s.delivered| ensures s.delivered[i].v != |s.accepted| {
        DeliveredAccepted(s, i);
      }
    }
    assert Pending(s') == Pending(s) + {|s.accepted|};
    assert A.Act(Abstract(s), A.Accept([x.k])) == Abstract(s');
    A.OneAct(Abstract(s), A.Accept([x.k]));
  }

  /** Handing out a pending message. */
  lemma HandOut(s: Sys, s': Sys, e: Item<nat>)
    requires e.v in Pending(s) && s'.accepted == s.accepted && s'.delivered == s.delivered + [e]
    ensures Pending(s') == Pending(s) - {e.v}
  {
    forall t: nat ensures IsDelivered(s', t) <==> IsDelivered(s, t) || t == e.v {
      assert s'.delivered[|s.delivered|] == e;
      if i :| 0 <= i < |s.delivered| && s.delivered[i].v == t {
        assert s'.delivered[i].v == t;
      }
    }
  }

  lemma DeliverIs(s: Sys, held: set<Key>, s': Sys, e: Item<nat>)
    requires e.v in Pending(s) && s.accepted[e.v].k == e.k && e.k !in held
    requires s'.accepted == s.accepted && s'.delivered == s.delivered + [e] && s'.r.using.Keys == held + {e.k}
    ensures A.Enabled(Abstract(s).(held := held), A.Deliver(e.v))
    ensures A.Act(Abstract(s).(held := held), A.Deliver(e.v)) == Abstract(s')
  {
    HandOut(s, s', e);
    assert SetOf([e.k]) == {e.k};
  }

  lemma RefinesNew(s: Sys)
    requires SingleKeySystem.Inv(s) && CanDo(s, Receive(NewTurn))
    ensures A.Acts(Abstract(s), ActionsOf(s, Receive(NewTurn)), Abstract(Do(s, Receive(NewTurn))))
  {
    var e, s' := s.r.q[0], Do(s, Receive(NewTurn));
    if e.k in s.r.using {
      assert Abstract(s') == Abstract(s);
    } else {
      NotYetDelivered(s, e);
      DeliverIs(s, s.r.using.Keys, s', e);
      assert Abstract(s).(held := s.r.using.Keys) == Abstract(s);
      A.OneAct(Abstract(s), A.Deliver(e.v));
    }
  }

  lemma RefinesDrop(s: Sys)
    requires SingleKeySystem.Inv(s) && CanDo(s, Receive(DropTurn))
    ensures A.Acts(Abstract(s), ActionsOf(s, Receive(DropTurn)), Abstract(Do(s, Receive(DropTurn))))
  {
    var k, s' := s.r.dropq[0], Do(s, Receive(DropTurn));
    assert k in s.r.dropq && k in s.r.using;
    var released := A.Act(Abstract(s), A.Release(k));
    if s.r.using[k] != [] {
      var e := s.r.using[k][0];
      assert e in WaitingFor(s.r.using, k);
      WaitsInOwnLine(s, k, e);
      NotYetDelivered(s, e);
      DeliverIs(s, s.r.using.Keys - {k}, s', e);
      assert released == Abstract(s).(held := s.r.using.Keys - {k});
      A.TwoActs(Abstract(s), A.Release(k), A.Deliver(e.v));
      assert ActionsOf(s, Receive(DropTurn)) == [A.Release(k), A.Deliver(e.v)];
    } else {
      assert released == Abstract(s');
      A.OneAct(Abstract(s), A.Release(k));
      assert ActionsOf(s, Receive(DropTurn)) == [A.Release(k)];
    }
  }

  // ---------------------------------------------------------------- drain

  predicate Quiet(s: Sys) {
    s.r.q == [] && s.r.dropq == [] && s.out == map[]
  }

  predicate CanDrain(s: Sys, e: Event) {
    CanDo(s, e) && !e.Send?
  }

  lemma NotStuck(s: Sys)
    requires SingleKeySystem.Inv(s) && !Quiet(s)
    ensures exists e :: CanDrain(s, e)
  {
    if s.r.q != [] {
      assert CanDrain(s, Receive(NewTurn));
    } else if s.r.dropq != [] {
      assert CanDrain(s, Receive(DropTurn));
    } else {
      var i := SomeMember(s.out.Keys);
      assert CanDrain(s, DropMessage(i));
    }
  }

  /** A scheduler that always picks a possible event and never a send. */
  ghost predicate Drains(pick: Sys -> Event) {
    forall s | SingleKeySystem.Inv(s) && !Quiet(s) :: CanDrain(s, pick(s))
  }

  ghost predicate LessLeft(s': Sys, s: Sys) {
    if Pending(s') != Pending(s) then Pending(s') < Pending(s)
    else if |s'.r.q| != |s.r.q| then |s'.r.q| < |s.r.q|
    else if s'.out.Keys != s.out.Keys then s'.out.Keys < s.out.Keys
    else |s'.r.dropq| < |s.r.dropq|
  }

  lemma Shrinks(s: Sys, e: Event)
    requires SingleKeySystem.Inv(s) && CanDrain(s, e)
    ensures LessLeft(Do(s, e), s)
    ensures Do(s, e).accepted == s.accepted && s.delivered <= Do(s, e).delivered
  {
    var s' := Do(s, e);
    match e
    case DropMessage(i) =>
      assert Pending(s') == Pending(s);
      assert i in s.out.Keys && i !in s'.out.Keys;
    case Receive(turn) =>
      assert turn.DropTurn? ==> s.r.dropq[0] in s.r.dropq;
      var got := DoTurn(s.r, turn).got;
      if got.Got? {
        if turn.DropTurn? { WaitsInOwnLine(s, s.r.dropq[0], got.e); }
        NotYetDelivered(s, got.e);
        HandOut(s, s', got.e);
        assert got.e.v in Pending(s);
      } else {
        assert Pending(s') == Pending(s);
      }
  }

  /**
    The state in which a schedule without sends comes to rest: everything accepted was delivered,
    every key is free.
   */
  ghost function RunDry(s: Sys, pick: Sys -> Event): (r: Sys)
    requires SingleKeySystem.Inv(s) && Drains(pick)
    ensures SingleKeySystem.Inv(r) && Quiet(r)
    ensures r.accepted == s.accepted && s.delivered <= r.delivered
    ensures Pending(r) == {} && r.r.using == map[]
    decreases Pending(s), |s.r.q|, s.out.Keys, |s.r.dropq|
  {
    if Quiet(s) then
      QuietIsDone(s);
      s
    else
      var e := pick(s);
      StepKeepsInv(s, e);
      Shrinks(s, e);
      RunDry(Do(s, e), pick)
  }

  lemma QuietIsDone(s: Sys)
    requires SingleKeySystem.Inv(s) && Quiet(s)
    ensures Pending(s) == {} && s.r.using == map[]
  {
    assert forall k :: k !in s.r.using;
    forall t | t in Pending(s) ensures false {
      BlockingJustified(s, t);
    }
  }

  /** At rest, what was delivered for a key is what was accepted for it, in the same order. */
  lemma DrainedInOrder(s: Sys, pick: Sys -> Event, k: Key)
    requires SingleKeySystem.Inv(s) && Drains(pick)
    ensures Of(k, RunDry(s, pick).delivered) == Of(k, Tagged(s.accepted))
  {
    assert LinedAt(RunDry(s, pick), k);
  }
}
