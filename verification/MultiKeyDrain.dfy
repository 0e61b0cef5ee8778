/**
  Draining the multi-key channel: once nothing more is sent, any order of receiving and
  dropping ends. Whether it ends with everything delivered or in a panic can be told from the
  state in which it starts, for every order and for some order.
 */
module MultiKeyDrain {
  import opened Util
  import opened Keys
  import opened ConflictSpec
  import opened ReceiverSpec
  import opened KeyLedgers
  import opened MultiKeySystem
  import opened MultiKeyTheorems
  import opened MultiKeyDeadHandle
  import Runs

  ghost predicate CanDrain(s: Sys, e: Event) {
    CanDo(s, e) && !e.Send?
  }

  lemma DropNotStuck(s: Sys)
    requires MultiKeySystem.Inv(s) && s.panic.None? && s.r.dropq != []
    ensures exists c :: CanDrain(s, Receive(DropTurn(c)))
  {
    var m, k := s.r.m, s.r.dropq[0];
    if k !in m.held {
      assert CanDrain(s, Receive(DropTurn(NoneFree)));
    } else {
      ChoicesPossible(s);
      if id :| Link(k, id) in s.departed {
        assert CanDrain(s, Receive(DropTurn(Dead(id))));
      } else if id :| FreedBy(m, k, id) {
        assert CanDrain(s, Receive(DropTurn(Found(id))));
      } else {
        assert CanDrain(s, Receive(DropTurn(NoneFree)));
      }
    }
  }

  /** As long as the channel is not quiet, some event other than a send is possible. */
  lemma NotStuck(s: Sys)
    requires MultiKeySystem.Inv(s) && !Quiet(s)
    ensures exists e :: CanDrain(s, e)
    ensures s.r.q == [] || s.r.dropq != [] || s.out != map[] ==> exists e :: CanDrain(s, e) && e != Receive(NewTurn)
  {
    if s.r.dropq != [] {
      DropNotStuck(s);
      var c :| CanDrain(s, Receive(DropTurn(c)));
      assert Receive(DropTurn(c)) != Receive(NewTurn);
    } else if s.out != map[] {
      var t := SomeMember(s.out.Keys);
      assert CanDrain(s, if s.out[t] == [] then DropEnd(t) else DropKey(t));
    } else {
      assert CanDrain(s, Receive(NewTurn));
    }
  }

  /** A scheduler that always picks a possible event and never a send. */
  ghost predicate Drains(pick: Sys -> Event) {
    forall s | MultiKeySystem.Inv(s) && !Quiet(s) :: CanDrain(s, pick(s))
  }

  /** Less is left to do: to deliver, to take from the send queue, to give back, to drop, to release. */
  ghost predicate LessLeft(s': Sys, s: Sys) {
    if Pending(s') != Pending(s) then Pending(s') < Pending(s)
    else if |s'.r.q| != |s.r.q| then |s'.r.q| < |s.r.q|
    else if ToGive(s'.delivered, s'.out) != ToGive(s.delivered, s.out) then
      ToGive(s'.delivered, s'.out) < ToGive(s.delivered, s.out)
    else if s'.out.Keys != s.out.Keys then s'.out.Keys < s.out.Keys
    else |s'.r.dropq| < |s.r.dropq|
  }

  lemma DropKeyShrinks(s: Sys, t: nat)
    requires MultiKeySystem.Inv(s) && CanDo(s, DropKey(t))
    ensures LessLeft(Do(s, DropKey(t)), s)
  {
    TagsDistinct(s);
    var j :| 0 <= j < |s.delivered| && s.delivered[j].v == t;
    OneGives(s.delivered, s.out, j, s.out[t][..|s.out[t]| - 1]);
    assert Pending(Do(s, DropKey(t))) == Pending(s);
  }

  lemma DropEndShrinks(s: Sys, t: nat)
    requires MultiKeySystem.Inv(s) && CanDo(s, DropEnd(t))
    ensures LessLeft(Do(s, DropEnd(t)), s)
  {
    var s' := Do(s, DropEnd(t));
    SameToGive(s.delivered, s.out, s'.out);
    assert t in s.out.Keys && t !in s'.out.Keys && Pending(s') == Pending(s);
  }

  lemma Shrinks(s: Sys, e: Event)
    requires MultiKeySystem.Inv(s) && CanDrain(s, e) && Do(s, e).panic.None?
    ensures LessLeft(Do(s, e), s)
  {
    match e {
      case DropKey(t) => DropKeyShrinks(s, t);
      case DropEnd(t) => DropEndShrinks(s, t);
      case Receive(NewTurn) => NewShrinks(s);
      case Receive(DropTurn(c)) => DropShrinks(s, c);
    }
  }

  /** The message at the head of the queue leaves it; handed out, it is no longer pending. */
  lemma NewHandedOut(s: Sys)
    requires MultiKeySystem.Inv(s) && CanDo(s, Receive(NewTurn)) && DoTurn(s.r, NewTurn).got.Got?
    ensures Pending(Do(s, Receive(NewTurn))) < Pending(s)
  {
    var s', e := Do(s, Receive(NewTurn)), s.r.q[0];
    NewHandsOutNew(s);
    assert e.v in Pending(s) && e.v !in Pending(s');
  }

  lemma NewWaits(s: Sys)
    requires MultiKeySystem.Inv(s) && CanDo(s, Receive(NewTurn)) && DoTurn(s.r, NewTurn).got.Nothing?
    ensures Pending(Do(s, Receive(NewTurn))) == Pending(s)
  {
    assert s.r.q[0] == Msg(s.accepted[Base(s)].ks, Base(s)) && s.place[s.r.q[0].v].InQueue?;
  }

  lemma NewShrinks(s: Sys)
    requires MultiKeySystem.Inv(s) && CanDo(s, Receive(NewTurn)) && Do(s, Receive(NewTurn)).panic.None?
    ensures LessLeft(Do(s, Receive(NewTurn)), s)
  {
    if DoTurn(s.r, NewTurn).got.Got? {
      NewHandedOut(s);
    } else {
      NewWaits(s);
    }
  }

  lemma FoundHandedOut(s: Sys, id: int)
    requires MultiKeySystem.Inv(s) && CanDo(s, Receive(DropTurn(Found(id))))
    requires Do(s, Receive(DropTurn(Found(id)))).panic.None?
    ensures Pending(Do(s, Receive(DropTurn(Found(id))))) < Pending(s)
  {
    var s' := Do(s, Receive(DropTurn(Found(id))));
    NoPanicInUse(s, Found(id));
    FoundHandsOutNew(s, id);
    var t := DoTurn(s.r, DropTurn(Found(id))).got.v;
    assert t in Pending(s) && t !in Pending(s');
  }

  lemma DropShrinks(s: Sys, c: Choice)
    requires MultiKeySystem.Inv(s) && CanDo(s, Receive(DropTurn(c))) && Do(s, Receive(DropTurn(c))).panic.None?
    ensures LessLeft(Do(s, Receive(DropTurn(c))), s)
  {
    if c.Found? {
      FoundHandedOut(s, c.id);
    } else {
      NoPanicInUse(s, c);
      assert Pending(Do(s, Receive(DropTurn(c)))) == Pending(s);
    }
  }

  /** Waiting ids the drain may still use up: one for every queued message. */
  predicate EnoughIds(s: Sys) {
    s.r.m.next + |s.r.q| <= I32_MAX
  }

  lemma DrainKeepsIds(s: Sys, e: Event)
    requires MultiKeySystem.Inv(s) && CanDrain(s, e)
    ensures EnoughIds(s) ==> EnoughIds(Do(s, e)) && Do(s, e).panic != Some(IdOverflow)
  {
    if e == Receive(NewTurn) {
      NewPanicsExactly(s);
    }
  }

  // ---------------------------------------------------------------- when every order panics

  /** The channel is doomed, or a message in the queue repeats a key. */
  ghost predicate Condemned(s: Sys) {
    Doomed(s) || exists j :: 0 <= j < |s.r.q| && !Distinct(s.r.q[j].ks)
  }

  /** A repeating message is taken sooner or later: it panics at once, or waits and dooms the channel. */
  lemma NewStaysCondemned(s: Sys)
    requires MultiKeySystem.Inv(s) && Condemned(s) && CanDo(s, Receive(NewTurn))
    ensures Do(s, Receive(NewTurn)).panic.Some? || Condemned(Do(s, Receive(NewTurn)))
  {
    var s' := Do(s, Receive(NewTurn));
    if Doomed(s) {
      StepStaysDoomed(s, Receive(NewTurn));
    } else if s'.panic.None? {
      var j :| 0 <= j < |s.r.q| && !Distinct(s.r.q[j].ks);
      if j == 0 {
        NewPanicsExactly(s);
        assert |Reversed(s.r.q[0].ks)| == |s.r.q[0].ks| >= 2;
        assert s.r.m.next in s'.r.m.waiting;
      } else {
        assert s'.r.q[j - 1] == s.r.q[j];
      }
    }
  }

  lemma StaysCondemned(s: Sys, e: Event)
    requires MultiKeySystem.Inv(s) && Condemned(s) && CanDrain(s, e)
    ensures Do(s, e).panic.Some? || Condemned(Do(s, e))
  {
    if e == Receive(NewTurn) {
      NewStaysCondemned(s);
    } else {
      assert Do(s, e).r.q == s.r.q;
      if Doomed(s) {
        StepStaysDoomed(s, e);
      }
    }
  }

  /** One event of a schedule. */
  lemma DrainStep(s: Sys, e: Event)
    requires MultiKeySystem.Inv(s) && CanDrain(s, e)
    ensures MultiKeySystem.Inv(Do(s, e))
    ensures Do(s, e).panic.None? ==> LessLeft(Do(s, e), s)
    ensures Do(s, e).accepted == s.accepted && s.delivered <= Do(s, e).delivered
    ensures EnoughIds(s) ==> EnoughIds(Do(s, e)) && Do(s, e).panic != Some(IdOverflow)
    ensures Clean(s) ==> Clean(Do(s, e))
    ensures NothingDeparted(s) ==> NothingDeparted(Do(s, e))
    ensures DeadHeld(s) ==> DeadHeld(Do(s, e))
    ensures Condemned(s) ==> Do(s, e).panic.Some? || Condemned(Do(s, e))
    ensures s.r.q == [] && !Doomed(s) ==> Do(s, e).r.q == [] && Do(s, e).panic.None? && !Doomed(Do(s, e))
  {
    StepKeepsInv(s, e);
    EmptyStaysSafe(s, e);
    DrainKeepsIds(s, e);
    DrainKeepsClean(s, e);
    if DeadHeld(s) {
      StepKeepsDeadHeld(s, e);
    }
    if Condemned(s) {
      StaysCondemned(s, e);
    }
    if Do(s, e).panic.None? {
      Shrinks(s, e);
    }
  }

  /** With an empty queue, what is not doomed stays so and does not panic. */
  lemma EmptyStaysSafe(s: Sys, e: Event)
    requires MultiKeySystem.Inv(s) && CanDrain(s, e)
    ensures s.r.q == [] && !Doomed(s) ==> Do(s, e).r.q == [] && Do(s, e).panic.None? && !Doomed(Do(s, e))
  {
    if s.r.q == [] && !Doomed(s) {
      PanicsOnlyDoomed(s, e);
      OnlyNewDooms(s, e);
    }
  }

  lemma DrainKeepsClean(s: Sys, e: Event)
    requires MultiKeySystem.Inv(s) && CanDrain(s, e)
    ensures Clean(s) ==> Clean(Do(s, e))
    ensures NothingDeparted(s) ==> NothingDeparted(Do(s, e))
  {
    if Clean(s) {
      StepKeepsClean(s, e);
    }
    if NothingDeparted(s) && OneKeyEach(Do(s, e)) {
      OneKeyStep(s, e);
    }
  }

  /**
    The state in which a schedule without sends comes to rest. Without a panic everything
    accepted has been delivered and every key is free again. It cannot be an id overflow if there
    are enough ids, nor a dead handle if messages carry at most one key. From a doomed start, or
    with a repeating message in the queue, every schedule ends in a panic.
   */
  ghost function RunDry(s: Sys, pick: Sys -> Event): (r: Sys)
    requires MultiKeySystem.Inv(s) && Drains(pick)
    ensures MultiKeySystem.Inv(r) && Quiet(r)
    ensures r.accepted == s.accepted && s.delivered <= r.delivered
    ensures r.panic.None? ==> Pending(r) == {} && r.r.m.held == {} && r.r.m.waiting == map[]
    ensures EnoughIds(s) && s.panic != Some(IdOverflow) ==> r.panic != Some(IdOverflow)
    ensures Clean(s) ==> Clean(r)
    ensures NothingDeparted(s) ==> NothingDeparted(r)
    ensures OneKeyEach(s) && s.departed == {} && s.panic.None? ==> r.panic != Some(DeadHandle)
    ensures DeadHeld(s) ==> DeadHeld(r)
    ensures DeadHeld(s) && s.r.q == [] && s.panic.None? ==> (r.panic.Some? <==> Doomed(s))
    ensures DeadHeld(s) && Condemned(s) ==> r.panic.Some?
    ensures DeadHeld(s) && Clean(s) && r.panic != Some(IdOverflow) ==>
              (r.panic.Some? <==> Doomed(r)) && (r.panic.Some? <==> r.departed != {})
    decreases if s.panic.None? then 1 else 0,
              Pending(s), |s.r.q|, ToGive(s.delivered, s.out), s.out.Keys, |s.r.dropq|
  {
    if Quiet(s) then
      QuietIsDone(s);
      RestDecides(s);
      s
    else
      var e := pick(s);
      DrainStep(s, e);
      RunDry(Do(s, e), pick)
  }

  lemma RestDecides(s: Sys)
    requires MultiKeySystem.Inv(s) && Quiet(s)
    ensures DeadHeld(s) && Condemned(s) ==> s.panic.Some?
    ensures DeadHeld(s) && Clean(s) && s.panic != Some(IdOverflow) ==>
              (s.panic.Some? <==> Doomed(s)) && (s.panic.Some? <==> s.departed != {})
  {
    if DeadHeld(s) && s.panic != Some(IdOverflow) {
      QuietPanicsExactly(s);
    }
  }

  /** Takes a new message only when there is nothing else to do. */
  ghost function DropsFirst(s: Sys): Event {
    if MultiKeySystem.Inv(s) && !Quiet(s) then
      NotStuck(s);
      if exists e :: CanDrain(s, e) && e != Receive(NewTurn) then
        var e :| CanDrain(s, e) && e != Receive(NewTurn);
        e
      else Receive(NewTurn)
    else DropEnd(0)
  }

  lemma DropsFirstDrains()
    ensures Drains(DropsFirst)
  {
    forall s | MultiKeySystem.Inv(s) && !Quiet(s) ensures CanDrain(s, DropsFirst(s)) {
      NotStuck(s);
    }
  }

  /** A message that is taken while no key is in use does not wait. */
  lemma TakenAlone(s: Sys)
    requires MultiKeySystem.Inv(s) && !Condemned(s) && CanDo(s, Receive(NewTurn)) && s.r.dropq == [] && s.out == map[]
    ensures var s' := Do(s, Receive(NewTurn)); s'.panic.None? && !Condemned(s')
  {
    forall k ensures k !in s.r.m.held {
      if k in s.r.m.held {
        HeldHasOwner(s.r.m.held, s.r.dropq, s.delivered, s.out, k);
      }
    }
    var s' := Do(s, Receive(NewTurn));
    NewPanicsExactly(s);
    assert Distinct(s.r.q[0].ks) && !Meets(s.r.m.held, s.r.q[0].ks);
    assert forall j | 0 <= j < |s'.r.q| :: s'.r.q[j] == s.r.q[j + 1];
    assert s'.r.m.waiting == s.r.m.waiting;
  }

  lemma DropsFirstStep(s: Sys)
    requires MultiKeySystem.Inv(s) && s.panic.None? && !Quiet(s) && !Condemned(s) && EnoughIds(s)
    ensures CanDrain(s, DropsFirst(s))
    ensures Do(s, DropsFirst(s)).panic.None? && !Condemned(Do(s, DropsFirst(s)))
  {
    NotStuck(s);
    DropsFirstDrains();
    var e := DropsFirst(s);
    if e == Receive(NewTurn) {
      TakenAlone(s);
    } else {
      OnlyNewDooms(s, e);
      PanicsOnlyDoomed(s, e);
      DrainKeepsIds(s, e);
      assert Do(s, e).r.q == s.r.q;
    }
  }

  /** Taking new messages last avoids the panic if anything does. */
  lemma {:induction false} DropsFirstIsSafe(s: Sys)
    requires MultiKeySystem.Inv(s) && s.panic.None? && !Condemned(s) && EnoughIds(s) && Drains(DropsFirst)
    ensures RunDry(s, DropsFirst).panic.None?
    decreases Pending(s), |s.r.q|, ToGive(s.delivered, s.out), s.out.Keys, |s.r.dropq|
  {
    if Quiet(s) {
    } else {
      DropsFirstStep(s);
      DrainStep(s, DropsFirst(s));
      DropsFirstIsSafe(Do(s, DropsFirst(s)));
    }
  }

  /**
    Every schedule ends in a panic if and only if, at the start, a message with two keys waits or
    has waited, a delivered one repeats a key, or one in the queue does.
   */
  lemma EveryOrderPanicsExactly(s: Sys)
    requires MultiKeySystem.Inv(s) && DeadHeld(s) && EnoughIds(s) && s.panic.None?
    ensures (forall pick | Drains(pick) :: RunDry(s, pick).panic.Some?) <==> Condemned(s)
  {
    DropsFirstDrains();
    if !Condemned(s) {
      DropsFirstIsSafe(s);
      assert RunDry(s, DropsFirst).panic.None?;
    }
  }

  // ---------------------------------------------------------------- when some order panics

  predicate Shares(a: seq<Key>, b: seq<Key>) {
    exists k | k in a :: k in b
  }

  /** A message with two keys in the queue meets a key in use, or shares one with a message ahead of it. */
  ghost predicate Clash(s: Sys) {
    exists j :: 0 <= j < |s.r.q| && Clashes(s, j)
  }

  ghost predicate Clashes(s: Sys, j: nat)
    requires j < |s.r.q|
  {
    && |s.r.q[j].ks| >= 2
    && (Meets(s.r.m.held, s.r.q[j].ks) || exists i :: 0 <= i < j && Shares(s.r.q[i].ks, s.r.q[j].ks))
  }

  /** Takes new messages before anything else. */
  ghost function NewFirst(s: Sys): Event {
    if MultiKeySystem.Inv(s) && !Quiet(s) && s.r.q == [] then
      NotStuck(s);
      var e :| CanDrain(s, e);
      e
    else Receive(NewTurn)
  }

  lemma NewFirstDrains()
    ensures Drains(NewFirst)
  {
    forall s | MultiKeySystem.Inv(s) && !Quiet(s) ensures CanDrain(s, NewFirst(s)) {
      if s.r.q == [] {
        NotStuck(s);
      }
    }
  }

  /** The head of the queue is taken: what clashed with it now meets a key in use. */
  lemma ClashComesTrue(s: Sys)
    requires MultiKeySystem.Inv(s) && Clash(s) && !Condemned(s) && CanDo(s, Receive(NewTurn))
    ensures var s' := Do(s, Receive(NewTurn)); s'.panic.Some? || Condemned(s') || Clash(s')
  {
    var s' := Do(s, Receive(NewTurn));
    NewPanicsExactly(s);
    var j :| 0 <= j < |s.r.q| && Clashes(s, j);
    var h := s.r.q[0].ks;
    if s'.panic.None? {
      if Meets(s.r.m.held, h) && |h| >= 2 {
        assert |Reversed(h)| >= 2 && s.r.m.next in s'.r.m.waiting;
      } else {
        assert j > 0 && s'.r.q[j - 1] == s.r.q[j];
        HeadOccupies(s, j);
        assert Clashes(s', j - 1);
      }
    }
  }

  lemma HeadOccupies(s: Sys, j: nat)
    requires CanDo(s, Receive(NewTurn)) && Do(s, Receive(NewTurn)).panic.None? && 0 < j < |s.r.q| && Clashes(s, j)
    requires !Meets(s.r.m.held, s.r.q[0].ks) || |s.r.q[0].ks| <= 1
    ensures Clashes(Do(s, Receive(NewTurn)), j - 1)
  {
    var s', h, ks := Do(s, Receive(NewTurn)), s.r.q[0].ks, s.r.q[j].ks;
    if Meets(s.r.m.held, ks) {
      assert Meets(s'.r.m.held, ks);
    } else {
      var i :| 0 <= i < j && Shares(s.r.q[i].ks, ks);
      if i == 0 {
        var k :| k in h && k in ks;
        assert Meets(s.r.m.held, h) ==> h == [k];
        assert Meets(s'.r.m.held, ks);
      } else {
        assert Shares(s'.r.q[i - 1].ks, ks);
      }
    }
  }

  /** Taking new messages first brings the panic about if anything does. */
  lemma {:induction false} NewFirstPanics(s: Sys)
    requires MultiKeySystem.Inv(s) && DeadHeld(s) && Drains(NewFirst)
    requires s.panic.Some? || Condemned(s) || Clash(s)
    ensures RunDry(s, NewFirst).panic.Some?
    decreases if s.panic.None? then 1 else 0,
              Pending(s), |s.r.q|, ToGive(s.delivered, s.out), s.out.Keys, |s.r.dropq|
  {
    if Quiet(s) || Condemned(s) {
      QuietMeansEmpty(s);
    } else {
      DrainStep(s, NewFirst(s));
      ClashComesTrue(s);
      NewFirstPanics(Do(s, NewFirst(s)));
    }
  }

  lemma QuietMeansEmpty(s: Sys)
    ensures Quiet(s) && s.panic.None? ==> !Clash(s)
  {
  }

  /** Nothing in the queue can be made to wait with two keys, and stays so. */
  lemma StaysClear(s: Sys, e: Event)
    requires MultiKeySystem.Inv(s) && !Condemned(s) && !Clash(s) && EnoughIds(s) && CanDrain(s, e)
    ensures Do(s, e).panic.None? && !Condemned(Do(s, e)) && !Clash(Do(s, e))
  {
    PanicsOnlyDoomed(s, e);
    DrainKeepsIds(s, e);
    if e == Receive(NewTurn) {
      NewStaysClear(s);
    } else {
      assert Do(s, e).r.q == s.r.q;
      OnlyNewDooms(s, e);
      OthersKeepHeld(s, e);
      ClearIfHeldShrinks(s, Do(s, e));
    }
  }

  lemma ClearIfHeldShrinks(s: Sys, s': Sys)
    requires !Clash(s) && s'.r.q == s.r.q && s'.r.m.held <= s.r.m.held
    ensures !Clash(s')
  {
    forall j | 0 <= j < |s'.r.q| ensures !Clashes(s', j) {
      assert !Clashes(s, j);
    }
  }

  /** A freed message with one key takes just the key that was released. */
  lemma OthersKeepHeld(s: Sys, e: Event)
    requires MultiKeySystem.Inv(s) && !Doomed(s) && CanDrain(s, e) && e != Receive(NewTurn)
    ensures Do(s, e).r.m.held <= s.r.m.held
  {
    if e.Receive? && Do(s, e).panic.None? {
      NoPanicInUse(s, e.turn.c);
      if e.turn.c.Found? {
        FoundFacts(s.r.m, s.r.dropq[0], e.turn.c.id);
        OneKeyLeavesNothing(s.r.m, e.turn.c.id, s.r.dropq[0]);
      }
    }
  }

  lemma NewStaysClear(s: Sys)
    requires MultiKeySystem.Inv(s) && !Condemned(s) && !Clash(s) && EnoughIds(s) && CanDo(s, Receive(NewTurn))
    ensures var s' := Do(s, Receive(NewTurn)); !Condemned(s') && !Clash(s')
  {
    var s', h := Do(s, Receive(NewTurn)), s.r.q[0].ks;
    NewPanicsExactly(s);
    assert !Clashes(s, 0) && Distinct(h);
    assert Meets(s.r.m.held, h) ==> |Reversed(h)| == |h| <= 1;
    forall j | 0 <= j < |s'.r.q| ensures !Clashes(s', j) && Distinct(s'.r.q[j].ks) {
      assert s'.r.q[j] == s.r.q[j + 1] && !Clashes(s, j + 1);
      if |s'.r.q[j].ks| >= 2 {
        assert !Shares(h, s'.r.q[j].ks);
        forall i | 0 <= i < j ensures !Shares(s'.r.q[i].ks, s'.r.q[j].ks) {
          assert s'.r.q[i] == s.r.q[i + 1];
        }
      }
    }
    NewDoomsByWaiting(s);
  }

  lemma {:induction false} ClearIsSafe(s: Sys, pick: Sys -> Event)
    requires MultiKeySystem.Inv(s) && s.panic.None? && !Condemned(s) && !Clash(s) && EnoughIds(s) && Drains(pick)
    ensures RunDry(s, pick).panic.None?
    decreases Pending(s), |s.r.q|, ToGive(s.delivered, s.out), s.out.Keys, |s.r.dropq|
  {
    if Quiet(s) {
    } else {
      DrainStep(s, pick(s));
      StaysClear(s, pick(s));
      ClearIsSafe(Do(s, pick(s)), pick);
    }
  }

  /**
    Some schedule ends in a panic if and only if every one does, or, at the start, a message with
    two keys in the queue meets a key in use or shares one with a message ahead of it.
   */
  lemma SomeOrderPanicsExactly(s: Sys)
    requires MultiKeySystem.Inv(s) && DeadHeld(s) && EnoughIds(s) && s.panic.None?
    ensures (exists pick :: Drains(pick) && RunDry(s, pick).panic.Some?) <==> Condemned(s) || Clash(s)
  {
    NewFirstDrains();
    if Condemned(s) || Clash(s) {
      NewFirstPanics(s);
      assert Drains(NewFirst) && RunDry(s, NewFirst).panic.Some?;
    } else {
      forall pick | Drains(pick) ensures RunDry(s, pick).panic.None? {
        ClearIsSafe(s, pick);
      }
    }
  }

  // ---------------------------------------------------------------- the panic that does happen

  /**
    Two messages with the same two keys suffice: the second waits, is freed through the released
    key after which it has no key in use, and its id stays behind at the other key. Releasing
    that key again panics.
   */
  lemma DeadHandleHappens(a: Key, b: Key, v: Value) returns (run: seq<Sys>)
    requires a != b
    ensures Runs.Run(Init, Step, run) && run[|run| - 1].panic == Some(DeadHandle)
  {
    var m := Msg([a, b], v);
    run := [Sys([], [], Recv([], [], Empty()), map[], [], {}, None)];
    run := OneMore(run, Send(m));
    run := OneMore(run, Send(m));
    run := FirstActiveSecondWaits(run, a, b, m);
    run := SecondFreed(run, a, b);
    assert Link(b, 0) in run[|run| - 1].r.m.index;
    run := OneMore(run, DropKey(1));
    run := OneMore(run, Receive(DropTurn(Dead(0))));
  }

  lemma FirstActiveSecondWaits(ss: seq<Sys>, a: Key, b: Key, m: Msg<Value>) returns (run: seq<Sys>)
    requires a != b && m.ks == [a, b] && Runs.Run(Init, Step, ss)
    requires ss[|ss| - 1] == Sys([m, m], [InQueue, InQueue], Recv([Msg(m.ks, 0), Msg(m.ks, 1)], [], Empty()),
                                 map[], [], {}, None)
    ensures Runs.Run(Init, Step, run)
    ensures Contended(run[|run| - 1], a, b, {a, b}, map[0 := [a, b]], [])
  {
    run := OneMore(ss, Receive(NewTurn));
    var s := run[|run| - 1];
    assert s.r.q == [Msg(m.ks, 1)] && s.r.m == Manager({a, b}, {a, b}, {}, map[], 0);
    ReversedIs([a, b], [b, a]);
    assert a in m.ks;
    run := OneMore(run, Receive(NewTurn));
    var s' := run[|run| - 1];
    assert s'.r.m.index == {Link(a, 0), Link(b, 0)};
  }

  /** The second message waits under id 0 for both keys. */
  ghost predicate Contended(s: Sys, a: Key, b: Key, held: set<Key>, out: map<nat, seq<Key>>, dropq: seq<Key>) {
    && s.panic.None? && s.r.q == [] && s.departed == {} && s.out == out && s.r.dropq == dropq
    && s.r.m == Manager({a, b}, held, {Link(a, 0), Link(b, 0)}, map[0 := Parked([b, a], 1)], 1)
  }

  /** Dropping the first message releases `b`, while `a` still keeps the second one waiting. */
  lemma FirstKeyBack(ss: seq<Sys>, a: Key, b: Key) returns (run: seq<Sys>)
    requires a != b && Runs.Run(Init, Step, ss)
    requires Contended(ss[|ss| - 1], a, b, {a, b}, map[0 := [a, b]], [])
    ensures Runs.Run(Init, Step, run)
    ensures Contended(run[|run| - 1], a, b, {a}, map[0 := []], [a])
  {
    assert [a, b][..1] == [a];
    run := OneMore(ss, DropKey(0));
    assert Contended(run[|run| - 1], a, b, {a, b}, map[0 := [a]], [b]);
    run := OneMore(run, DropKey(0));
    var s := run[|run| - 1];
    assert Contended(s, a, b, {a, b}, map[0 := []], [b, a]);
    assert a in [b, a] && Link(b, 0) in s.r.m.index;
    run := OneMore(run, Receive(DropTurn(NoneFree)));
  }

  /** Then it releases `a`; the second is free, and `b`'s index keeps its id. */
  lemma SecondFreed(ss: seq<Sys>, a: Key, b: Key) returns (run: seq<Sys>)
    requires a != b && Runs.Run(Init, Step, ss)
    requires Contended(ss[|ss| - 1], a, b, {a, b}, map[0 := [a, b]], [])
    ensures Runs.Run(Init, Step, run)
    ensures var s := run[|run| - 1];
            && s.panic.None? && s.r.dropq == [] && 1 in s.out && s.out[1] == [a, b]
            && s.r.m == Manager({a, b}, {a, b}, {Link(b, 0)}, map[], 1)
  {
    run := FirstKeyBack(ss, a, b);
    ReversedIs([b, a], [a, b]);
    run := OneMore(run, Receive(DropTurn(Found(0))));
  }
}
