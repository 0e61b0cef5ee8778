/**
  When the channel panics. A message with two keys that has waited leaves its id behind at every
  key but the one through which it is freed. Such a key stays in use for good, so the channel
  cannot come to rest without releasing it once more, and that release panics. If its keys are
  copies of one, it is handed out with a copy too many, and giving that back panics.
 */
module MultiKeyDeadHandle {
  import opened Util
  import opened Keys
  import opened ConflictSpec
  import opened ReceiverSpec
  import opened KeyLedgers
  import opened MultiKeySystem
  import opened MultiKeyTheorems
  import Runs

  /** Nothing is left to do: the channel panicked, or both queues are empty and all message objects are gone. */
  predicate Quiet(s: Sys) {
    s.panic.Some? || (s.r.q == [] && s.r.dropq == [] && s.out == map[])
  }

  /** A key whose index lists a departed message is in use, and only such a key makes the search panic. */
  ghost predicate DeadHeld(s: Sys) {
    && (forall l | l in s.departed :: l.k in s.r.m.held)
    && (s.panic == Some(DeadHandle) ==> s.departed != {})
  }

  /** A message with two keys, or two copies of one, waits. */
  ghost predicate TwoKeysWait(m: Manager<nat>) {
    exists id :: id in m.waiting && |m.waiting[id].handles| >= 2
  }

  /** A message with two keys waits, or one has waited and left behind its id or a copy too many. */
  ghost predicate Doomed(s: Sys) {
    s.departed != {} || TwoKeysWait(s.r.m) || !AllDistinct(s.delivered)
  }

  /** The receiver takes a message that repeats a key and conflicts with none. */
  ghost predicate TakesRepeating(s: Sys, e: Event) {
    && e == Receive(NewTurn) && s.r.q != []
    && !Meets(s.r.m.held, s.r.q[0].ks) && !Distinct(s.r.q[0].ks)
  }

  // ---------------------------------------------------------------- steps

  /** A message with two keys that leaves the waiting table leaves one of them listed, or repeats its only one. */
  lemma LeavesTrace(s: Sys, id: int, k: Key)
    requires MultiKeySystem.Inv(s) && id in s.r.m.waiting && |s.r.m.waiting[id].handles| >= 2
    ensures LeftBehind(s.r.m, k, id) != {} || !Distinct(Reversed(s.r.m.waiting[id].handles))
  {
    var hs := s.r.m.waiting[id].handles;
    ReversedDistinct(hs);
    if hs[0] != hs[1] {
      var h := if hs[0] == k then hs[1] else hs[0];
      assert h in hs && h != k;
      assert Link(h, id) in LeftBehind(s.r.m, k, id);
    }
  }

  lemma OneKeyLeavesNothing(m: Manager<nat>, id: int, k: Key)
    requires id in m.waiting && |m.waiting[id].handles| <= 1 && k in m.waiting[id].handles
    ensures LeftBehind(m, k, id) == {} && Distinct(Reversed(m.waiting[id].handles))
  {
    assert m.waiting[id].handles == [k];
  }

  lemma NewKeepsDeadHeld(s: Sys)
    requires MultiKeySystem.Inv(s) && DeadHeld(s) && CanDo(s, Receive(NewTurn))
    ensures DeadHeld(Do(s, Receive(NewTurn)))
  {
    NewPanicsExactly(s);
  }

  /**
    A search cannot end without a result while the index lists a departed message, and a found
    message takes the key again.
   */
  lemma DropKeepsDeadHeld(s: Sys, c: Choice)
    requires MultiKeySystem.Inv(s) && DeadHeld(s) && CanDo(s, Receive(DropTurn(c)))
    ensures DeadHeld(Do(s, Receive(DropTurn(c))))
  {
    var k, s' := s.r.dropq[0], Do(s, Receive(DropTurn(c)));
    if k in s.r.m.held {
      ChoicePanics(s, c);
      match c {
        case Dead(id) => assert Link(k, id) in s.departed;
        case NoneFree =>
          forall l | l in s'.departed ensures l.k in s'.r.m.held {
            assert l.k == k ==> Link(k, l.id) in s.departed;
          }
        case Found(id) =>
          FoundFacts(s.r.m, k, id);
      }
    }
  }

  lemma StepKeepsDeadHeld(s: Sys, e: Event)
    requires MultiKeySystem.Inv(s) && DeadHeld(s) && CanDo(s, e)
    ensures DeadHeld(Do(s, e))
  {
    match e
    case Receive(NewTurn) => NewKeepsDeadHeld(s);
    case Receive(DropTurn(c)) => DropKeepsDeadHeld(s, c);
    case _ =>
  }

  lemma NewStaysDoomed(s: Sys)
    requires MultiKeySystem.Inv(s) && Doomed(s) && CanDo(s, Receive(NewTurn))
    ensures Doomed(Do(s, Receive(NewTurn)))
  {
    var s' := Do(s, Receive(NewTurn));
    DeliveredGrows(s, Receive(NewTurn));
    if id :| id in s.r.m.waiting && |s.r.m.waiting[id].handles| >= 2 {
      assert id < s.r.m.next;
      assert id in s'.r.m.waiting && s'.r.m.waiting[id] == s.r.m.waiting[id];
    }
  }

  /** Deliveries stay; a repeated key among them stays with them. */
  lemma DeliveredGrows(s: Sys, e: Event)
    requires CanDo(s, e)
    ensures s.delivered <= Do(s, e).delivered
    ensures !AllDistinct(s.delivered) ==> !AllDistinct(Do(s, e).delivered)
  {
    var s' := Do(s, e);
    if j :| 0 <= j < |s.delivered| && !Distinct(s.delivered[j].ks) {
      assert s'.delivered[j] == s.delivered[j];
    }
  }

  lemma DropStaysDoomed(s: Sys, c: Choice)
    requires MultiKeySystem.Inv(s) && Doomed(s) && CanDo(s, Receive(DropTurn(c)))
    ensures Doomed(Do(s, Receive(DropTurn(c))))
  {
    var k, s' := s.r.dropq[0], Do(s, Receive(DropTurn(c)));
    DeliveredGrows(s, Receive(DropTurn(c)));
    if s'.panic.None? {
      NoPanicInUse(s, c);
      if id :| id in s.r.m.waiting && |s.r.m.waiting[id].handles| >= 2 {
        if c == Found(id) {
          FoundFacts(s.r.m, k, id);
          LeavesTrace(s, id, k);
          assert s'.delivered[|s.delivered|].ks == Reversed(s.r.m.waiting[id].handles);
        } else {
          assert id in s'.r.m.waiting && s'.r.m.waiting[id] == s.r.m.waiting[id];
        }
      }
    }
  }

  lemma NoPanicInUse(s: Sys, c: Choice)
    requires MultiKeySystem.Inv(s) && CanDo(s, Receive(DropTurn(c))) && Do(s, Receive(DropTurn(c))).panic.None?
    ensures s.r.dropq[0] in s.r.m.held && s.r.dropq[0] in s.r.m.entries
  {
    if s.r.dropq[0] !in s.r.m.held {
      UnusedPanics(s, c);
    }
  }

  /** Nothing undoes the doom. */
  lemma StepStaysDoomed(s: Sys, e: Event)
    requires MultiKeySystem.Inv(s) && Doomed(s) && CanDo(s, e)
    ensures Doomed(Do(s, e))
  {
    match e
    case Receive(NewTurn) => NewStaysDoomed(s);
    case Receive(DropTurn(c)) => DropStaysDoomed(s, c);
    case _ => assert Do(s, e).r.m == s.r.m;
  }

  lemma DropNeverDooms(s: Sys, c: Choice)
    requires MultiKeySystem.Inv(s) && !Doomed(s) && CanDo(s, Receive(DropTurn(c)))
    ensures !Doomed(Do(s, Receive(DropTurn(c))))
  {
    var s' := Do(s, Receive(DropTurn(c)));
    if s'.panic.None? {
      NoPanicInUse(s, c);
      if c.Found? {
        FoundFacts(s.r.m, s.r.dropq[0], c.id);
        OneKeyLeavesNothing(s.r.m, c.id, s.r.dropq[0]);
      }
    }
  }

  /** Only taking a new message from the queue can bring the doom about. */
  lemma OnlyNewDooms(s: Sys, e: Event)
    requires MultiKeySystem.Inv(s) && !Doomed(s) && CanDo(s, e) && e != Receive(NewTurn)
    ensures !Doomed(Do(s, e))
  {
    if e.Receive? {
      DropNeverDooms(s, e.turn.c);
    }
  }

  /** And it does so only by making a message with two keys wait. */
  lemma NewDoomsByWaiting(s: Sys)
    requires MultiKeySystem.Inv(s) && !Doomed(s) && CanDo(s, Receive(NewTurn))
    ensures var s' := Do(s, Receive(NewTurn)); Doomed(s') ==> TwoKeysWait(s'.r.m)
  {
    NewPanicsExactly(s);
  }

  /**
    A panic other than the id overflow strikes a doomed channel, or a message that repeats a key and
    conflicts with none.
   */
  lemma PanicsOnlyDoomed(s: Sys, e: Event)
    requires MultiKeySystem.Inv(s) && CanDo(s, e)
    ensures Do(s, e).panic.Some? && Do(s, e).panic != Some(IdOverflow) ==> Doomed(s) || TakesRepeating(s, e)
    ensures TakesRepeating(s, e) ==> Do(s, e).panic.Some?
  {
    if e == Receive(NewTurn) {
      NewPanicsExactly(s);
    } else if e.Receive? && Do(s, e).panic.Some? {
      DropPanicsOnlyDoomed(s, e.turn.c);
    }
  }

  lemma DropPanicsOnlyDoomed(s: Sys, c: Choice)
    requires MultiKeySystem.Inv(s) && CanDo(s, Receive(DropTurn(c))) && Do(s, Receive(DropTurn(c))).panic.Some?
    ensures Doomed(s)
  {
    var k := s.r.dropq[0];
    if k in s.r.m.held {
      ChoicePanics(s, c);
    } else {
      assert Balanced(s.r.m.held, s.r.dropq, s.delivered, s.out, k);
      assert k in s.r.dropq && Copies(s.r.dropq, k) > 0;
      SurplusIsRepeated(s.delivered, k);
    }
  }

  lemma QuietIsDone(s: Sys)
    requires MultiKeySystem.Inv(s) && Quiet(s)
    ensures s.panic.None? ==> Pending(s) == {} && s.r.m.held == {} && s.r.m.waiting == map[] && AllDistinct(s.delivered)
  {
    if s.panic.None? {
      forall t | t in Pending(s) ensures false {
        BlockingJustified(s, t);
      }
      forall k ensures Surplus(s.delivered, k) == 0 && k !in s.r.m.held {
        assert Balanced(s.r.m.held, s.r.dropq, s.delivered, s.out, k);
        if HeldCopies(s.delivered, s.out, k) > 0 {
          var t := SomeoneHolds(s.delivered, s.out, k);
        }
      }
      NoSurplusExactly(s.delivered);
      assert forall id :: id !in s.r.m.waiting;
    }
  }

  /**
    At rest without a panic the channel is not doomed. If no message repeats a key, the dead-handle
    panic has happened at rest if and only if a message with two keys has waited.
   */
  lemma QuietPanicsExactly(s: Sys)
    requires MultiKeySystem.Inv(s) && DeadHeld(s) && Quiet(s) && s.panic != Some(IdOverflow)
    ensures Doomed(s) ==> s.panic.Some?
    ensures Clean(s) ==> (s.panic.Some? <==> Doomed(s)) && (s.panic.Some? <==> s.departed != {})
  {
    if s.panic.None? {
      QuietIsDone(s);
    }
  }

  // ---------------------------------------------------------------- runs

  ghost predicate DeadInv(s: Sys) {
    MultiKeySystem.Inv(s) && DeadHeld(s)
  }

  /** In every run, keys with a departed waiter stay in use. */
  lemma {:induction false} EveryRunDeadHeld(ss: seq<Sys>, i: nat)
    requires Runs.Run(Init, Step, ss) && i < |ss|
    ensures DeadInv(ss[i])
  {
    if i == 0 {
      InitInv(ss[0]);
    } else {
      EveryRunDeadHeld(ss, i - 1);
      Runs.StepAt(Init, Step, ss, i);
      var e :| CanDo(ss[i - 1], e) && ss[i] == Do(ss[i - 1], e);
      StepKeepsInv(ss[i - 1], e);
      StepKeepsDeadHeld(ss[i - 1], e);
    }
  }

  lemma OneStepDoomed(ss: seq<Sys>, i: nat)
    requires Runs.Run(Init, Step, ss) && i + 1 < |ss| && Doomed(ss[i])
    ensures Doomed(ss[i + 1])
  {
    EveryRun(ss, i);
    Runs.StepAt(Init, Step, ss, i + 1);
    var e :| CanDo(ss[i], e) && ss[i + 1] == Do(ss[i], e);
    StepStaysDoomed(ss[i], e);
  }

  lemma {:induction false} StaysDoomed(ss: seq<Sys>, i: nat, j: nat)
    requires Runs.Run(Init, Step, ss) && i <= j < |ss| && Doomed(ss[i])
    ensures Doomed(ss[j])
    decreases j - i
  {
    if i == j {
    } else {
      OneStepDoomed(ss, i);
      StaysDoomed(ss, i + 1, j);
    }
  }

  /** A doomed channel has had a message with two keys waiting. */
  lemma {:induction false} FirstWait(ss: seq<Sys>, j: nat) returns (i: nat)
    requires Runs.Run(Init, Step, ss) && j < |ss| && Doomed(ss[j])
    ensures i <= j && TwoKeysWait(ss[i].r.m)
    decreases j
  {
    if TwoKeysWait(ss[j].r.m) {
      i := j;
    } else {
      DoomIsInherited(ss, j);
      i := FirstWait(ss, j - 1);
    }
  }

  lemma DoomIsInherited(ss: seq<Sys>, j: nat)
    requires Runs.Run(Init, Step, ss) && j < |ss| && Doomed(ss[j]) && !TwoKeysWait(ss[j].r.m)
    ensures j > 0 && Doomed(ss[j - 1])
  {
    assert j > 0;
    EveryRun(ss, j - 1);
    Runs.StepAt(Init, Step, ss, j);
    var e :| CanDo(ss[j - 1], e) && ss[j] == Do(ss[j - 1], e);
    if !Doomed(ss[j - 1]) {
      if e == Receive(NewTurn) {
        NewDoomsByWaiting(ss[j - 1]);
      } else {
        OnlyNewDooms(ss[j - 1], e);
      }
    }
  }

  /** The step from `s` to `s'` takes a message that repeats a key and conflicts with none. */
  ghost predicate TookRepeating(s: Sys, s': Sys) {
    exists e :: CanDo(s, e) && s' == Do(s, e) && TakesRepeating(s, e)
  }

  /** What was wrong when the channel panicked. */
  lemma {:induction false} PanicHasCause(ss: seq<Sys>, j: nat)
    requires Runs.Run(Init, Step, ss) && j < |ss| && ss[j].panic.Some? && ss[j].panic != Some(IdOverflow)
    ensures || (exists i :: 0 <= i <= j && TwoKeysWait(ss[i].r.m))
            || (j > 0 && TookRepeating(ss[j - 1], ss[j]))
  {
    assert j > 0;
    EveryRun(ss, j - 1);
    Runs.StepAt(Init, Step, ss, j);
    var e :| CanDo(ss[j - 1], e) && ss[j] == Do(ss[j - 1], e);
    PanicsOnlyDoomed(ss[j - 1], e);
    if Doomed(ss[j - 1]) {
      var i := FirstWait(ss, j - 1);
    }
  }

  /** The run ends with the panic over a message that repeats a key and conflicts with none. */
  lemma RepeatingEnds(ss: seq<Sys>, i: nat)
    requires Runs.Run(Init, Step, ss) && i + 1 < |ss| && TookRepeating(ss[i], ss[i + 1])
    ensures ss[i + 1].panic.Some? && i + 2 == |ss|
  {
    EveryRun(ss, i);
    var e :| CanDo(ss[i], e) && ss[i + 1] == Do(ss[i], e) && TakesRepeating(ss[i], e);
    PanicsOnlyDoomed(ss[i], e);
    if i + 2 < |ss| {
      Runs.StepAt(Init, Step, ss, i + 2);
    }
  }

  /**
    In every run that comes to rest before the ids are used up, whatever the senders sent, there
    has been a panic if and only if at some point a message with two keys waited, or at the end the
    receiver took one that repeats a key and conflicts with none.
   */
  lemma RestsInPanicExactly(ss: seq<Sys>, j: nat)
    requires Runs.Run(Init, Step, ss) && j < |ss| && Quiet(ss[j]) && ss[j].panic != Some(IdOverflow)
    ensures ss[j].panic.Some? <==>
              || (exists i :: 0 <= i <= j && TwoKeysWait(ss[i].r.m))
              || (j > 0 && TookRepeating(ss[j - 1], ss[j]))
  {
    EveryRunDeadHeld(ss, j);
    QuietPanicsExactly(ss[j]);
    if i :| 0 <= i <= j && TwoKeysWait(ss[i].r.m) {
      StaysDoomed(ss, i, j);
    }
    if j > 0 && TookRepeating(ss[j - 1], ss[j]) {
      RepeatingEnds(ss, j - 1);
    }
    if ss[j].panic.Some? {
      PanicHasCause(ss, j);
    }
  }

  /** If no message repeats a key, that panic is the dead handle, and the cause is a waiting message with two keys. */
  lemma RestsOnDeadHandleExactly(ss: seq<Sys>, j: nat)
    requires Runs.Run(Init, Step, ss) && j < |ss| && Quiet(ss[j]) && ss[j].panic != Some(IdOverflow)
    requires KeysDistinct(ss[j])
    ensures ss[j].panic == Some(DeadHandle) <==> exists i :: 0 <= i <= j && TwoKeysWait(ss[i].r.m)
  {
    DistinctRunIsClean(ss, j);
    RestsInPanicExactly(ss, j);
  }
}
