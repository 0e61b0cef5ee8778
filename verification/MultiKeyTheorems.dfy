/** What holds in every run of the multi-key channel. */
module MultiKeyTheorems {
  import opened Util
  import opened Keys
  import opened ConflictSpec
  import opened ReceiverSpec
  import opened KeyLedgers
  import opened MultiKeySystem
  import Runs
  import A = AbstractChannel

  ghost predicate Step(s: Sys, s': Sys) {
    exists e :: CanDo(s, e) && s' == Do(s, e)
  }

  lemma EventKeepsInv(s: Sys, s': Sys)
    requires MultiKeySystem.Inv(s) && Step(s, s')
    ensures MultiKeySystem.Inv(s')
  {
    var e :| CanDo(s, e) && s' == Do(s, e);
    StepKeepsInv(s, e);
  }

  lemma {:induction false} EveryRun(ss: seq<Sys>, i: nat)
    requires Runs.Run(Init, Step, ss) && i < |ss|
    ensures MultiKeySystem.Inv(ss[i])
  {
    if i == 0 {
      InitInv(ss[0]);
    } else {
      EveryRun(ss, i - 1);
      Runs.StepAt(Init, Step, ss, i);
      EventKeepsInv(ss[i - 1], ss[i]);
    }
  }

  /** No message accepted so far repeats a key. */
  ghost predicate KeysDistinct(s: Sys) {
    forall i | 0 <= i < |s.accepted| :: Distinct(s.accepted[i].ks)
  }

  lemma EventKeepsClean(s: Sys, s': Sys)
    requires Step(s, s') && KeysDistinct(s') && (KeysDistinct(s) ==> Clean(s))
    ensures Clean(s')
  {
    var e :| CanDo(s, e) && s' == Do(s, e);
    assert KeysDistinct(s) by {
      forall i | 0 <= i < |s.accepted| ensures Distinct(s.accepted[i].ks) {
        assert s'.accepted[i] == s.accepted[i];
      }
    }
    assert e.Send? ==> s'.accepted[|s.accepted|] == e.msg;
    StepKeepsClean(s, e);
  }

  /** As long as no message repeats a key, the only panics are the dead handle and the id overflow. */
  lemma {:induction false} DistinctRunIsClean(ss: seq<Sys>, i: nat)
    requires Runs.Run(Init, Step, ss) && i < |ss|
    ensures KeysDistinct(ss[i]) ==> Clean(ss[i])
  {
    if i == 0 {
      InitInv(ss[0]);
    } else {
      DistinctRunIsClean(ss, i - 1);
      Runs.StepAt(Init, Step, ss, i);
      if KeysDistinct(ss[i]) {
        EventKeepsClean(ss[i - 1], ss[i]);
      }
    }
  }

  /**
    In every run, each key in use has exactly one owner, a living message or the drop queue, if and
    only if no message handed out so far repeats a key. Then no two living messages share a key,
    and a key given back but not released yet belongs to none.
   */
  lemma MutualExclusion(ss: seq<Sys>, i: nat)
    requires Runs.Run(Init, Step, ss) && i < |ss|
    ensures var s := ss[i];
            && (Owned(s.r.m.held, s.r.dropq, s.out) <==>
                  forall j | 0 <= j < |s.delivered| :: Distinct(s.delivered[j].ks))
            && ((forall j | 0 <= j < |s.delivered| :: Distinct(s.delivered[j].ks)) ==> Exclusive(s))
  {
    EveryRun(ss, i);
    OwnedIffDistinct(ss[i]);
    if AllDistinct(ss[i].delivered) {
      OwnedIsExclusive(ss[i]);
    }
  }

  ghost predicate Exclusive(s: Sys) {
    && (forall t, t' | t in s.out && t' in s.out && t != t' :: SetOf(s.out[t]) !! SetOf(s.out[t']))
    && (forall t | t in s.out :: SetOf(s.out[t]) !! SetOf(s.r.dropq))
    && (forall k :: k in s.r.m.held <==> k in s.r.dropq || exists t :: Holds(s.out, t, k))
  }

  lemma OwnedIsExclusive(s: Sys)
    requires Owned(s.r.m.held, s.r.dropq, s.out)
    ensures Exclusive(s)
  {
    forall t, t' | t in s.out && t' in s.out && t != t' ensures SetOf(s.out[t]) !! SetOf(s.out[t']) {
      forall k | k in s.out[t] ensures k !in s.out[t'] {
        assert Holds(s.out, t, k);
        if k in s.out[t'] { assert Holds(s.out, t', k); }
      }
    }
    forall t | t in s.out ensures SetOf(s.out[t]) !! SetOf(s.r.dropq) {
      forall k | k in s.out[t] ensures k !in s.r.dropq {
        assert Holds(s.out, t, k);
      }
    }
  }

  /** Every accepted message is queued, waits or was delivered, never twice, and comes out with its keys as sent. */
  lemma DeliveredOnceAsSent(ss: seq<Sys>, i: nat)
    requires Runs.Run(Init, Step, ss) && i < |ss|
    ensures var s := ss[i];
            && (forall a, b | 0 <= a < b < |s.delivered| :: s.delivered[a].v != s.delivered[b].v)
            && (forall a | 0 <= a < |s.delivered| ::
                  s.delivered[a].v < |s.accepted| && s.delivered[a].ks == s.accepted[s.delivered[a].v].ks)
            && (forall t: nat :: t < |s.accepted| <==> Somewhere(s, t))
  {
    EveryRun(ss, i);
    var s := ss[i];
    forall t: nat ensures t < |s.accepted| <==> Somewhere(s, t) {
      if t < |s.accepted| {
        match s.place[t]
        case InQueue => assert s.r.q[t - Base(s)].v == t;
        case Waiting(id) => assert id in s.r.m.waiting;
        case Delivered(a) => assert s.delivered[a].v == t;
      }
    }
    forall a, b | 0 <= a < b < |s.delivered| ensures s.delivered[a].v != s.delivered[b].v {
      assert s.place[s.delivered[a].v] == Delivered(a);
    }
  }

  ghost predicate Somewhere(s: Sys, t: nat) {
    || (exists a :: 0 <= a < |s.r.q| && s.r.q[a].v == t)
    || (exists id :: id in s.r.m.waiting && s.r.m.waiting[id].v == t)
    || (exists a :: 0 <= a < |s.delivered| && s.delivered[a].v == t)
  }

  /**
    No message is ever stranded: each waiting one needs a key that a living message holds or that is
    still to be released.
   */
  lemma NoneStranded(ss: seq<Sys>, i: nat, id: int)
    requires Runs.Run(Init, Step, ss) && i < |ss| && id in ss[i].r.m.waiting
    ensures var s := ss[i]; var t := s.r.m.waiting[id].v;
            && t < |s.accepted|
            && exists k :: k in s.accepted[t].ks && (k in s.r.dropq || exists u :: Holds(s.out, u, k))
  {
    EveryRun(ss, i);
    var s := ss[i];
    ReversedMembers(s.r.m.waiting[id].handles);
    assert !Free(s.r.m, id);
    var k :| k in s.r.m.waiting[id].handles && k in s.r.m.held;
    assert k in s.accepted[s.r.m.waiting[id].v].ks;
    HeldHasOwner(s.r.m.held, s.r.dropq, s.delivered, s.out, k);
  }

  lemma OneMore(ss: seq<Sys>, e: Event) returns (ss': seq<Sys>)
    requires Runs.Run(Init, Step, ss) && CanDo(ss[|ss| - 1], e)
    ensures Runs.Run(Init, Step, ss') && ss'[|ss'| - 1] == Do(ss[|ss| - 1], e)
  {
    ss' := ss + [Do(ss[|ss| - 1], e)];
    assert Step(ss[|ss| - 1], Do(ss[|ss| - 1], e));
    forall i | 0 <= i < |ss'| - 1 ensures Step(ss'[i], ss'[i + 1]) {
      if i < |ss| - 1 {
        assert Step(ss[i], ss[i + 1]);
      }
    }
  }

  // ---------------------------------------------------------------- panics

  /** A message waits for the key `k` and for no other one in use. */
  predicate FreedBy(m: Manager<nat>, k: Key, id: int) {
    WaitsFor(m, id, k) && Free(Unuse(m, k), id)
  }

  /** Handing it out fails an assertion, because it repeats another key. */
  predicate Repeats(m: Manager<nat>, k: Key, id: int) {
    id in m.waiting && RepeatsOther(m.waiting[id].handles, k)
  }

  /** The search of `k`'s index meets a departed message. */
  ghost predicate ListsDeparted(s: Sys, k: Key) {
    exists id :: Link(k, id) in s.departed
  }

  /** What the end `c` of a search means for a key in use. */
  lemma ChoicePanics(s: Sys, c: Choice)
    requires MultiKeySystem.Inv(s) && CanTurn(s.r, DropTurn(c)) && s.r.dropq[0] in s.r.m.held
    ensures var m, k := s.r.m, s.r.dropq[0];
            && (DoTurn(s.r, DropTurn(c)).got.Panicked? <==> c.Dead? || (c.Found? && Repeats(m, k, c.id)))
            && (c.Dead? ==> Link(k, c.id) in s.departed)
            && (c.Found? ==> FreedBy(m, k, c.id))
            && (c.NoneFree? ==> !ListsDeparted(s, k) && forall id :: !FreedBy(m, k, id))
  {
    var m, k := s.r.m, s.r.dropq[0];
    if c.Found? {
      FoundFacts(m, k, c.id);
    } else if c.NoneFree? {
      forall id ensures !FreedBy(m, k, id) && Link(k, id) !in s.departed {
        if WaitsFor(m, id, k) { assert Link(k, id) in m.index; }
      }
    }
  }

  lemma ChoicesPossible(s: Sys)
    requires MultiKeySystem.Inv(s) && s.r.dropq != [] && s.r.dropq[0] in s.r.m.held
    ensures var m, k := s.r.m, s.r.dropq[0];
            && (forall id | Link(k, id) in s.departed :: CanTurn(s.r, DropTurn(Dead(id))))
            && (forall id | FreedBy(m, k, id) :: CanTurn(s.r, DropTurn(Found(id))))
            && (!ListsDeparted(s, k) && (forall id :: !FreedBy(m, k, id)) ==> CanTurn(s.r, DropTurn(NoneFree)))
  {
    var m, k := s.r.m, s.r.dropq[0];
    forall id | FreedBy(m, k, id) ensures CanTurn(s.r, DropTurn(Found(id))) {
      assert Link(k, id) in m.index;
    }
    if !ListsDeparted(s, k) && forall id :: !FreedBy(m, k, id) {
      NoneFreePossible(m, k, s.departed);
    }
  }

  lemma NoneFreePossible(m: Manager<nat>, k: Key, departed: set<Link>)
    requires Indexed(m) && Remembered(departed, m)
    requires forall id :: Link(k, id) !in departed
    requires forall id :: !FreedBy(m, k, id)
    ensures CanChoose(Unuse(m, k), k, NoneFree)
  {
    forall id | Link(k, id) in m.index ensures id in m.waiting && !Free(Unuse(m, k), id) {
      assert Link(k, id) !in departed;
      assert WaitsFor(m, Link(k, id).id, k) && !FreedBy(m, k, id);
    }
  }

  lemma ReleaseInUsePanics(s: Sys)
    requires MultiKeySystem.Inv(s) && s.r.dropq != [] && s.r.dropq[0] in s.r.m.held
    ensures var m, k := s.r.m, s.r.dropq[0];
            && ((exists c :: CanTurn(s.r, DropTurn(c)) && DoTurn(s.r, DropTurn(c)).got.Panicked?)
                <==> ListsDeparted(s, k) || exists id :: FreedBy(m, k, id) && Repeats(m, k, id))
            && ((forall c | CanTurn(s.r, DropTurn(c)) :: DoTurn(s.r, DropTurn(c)).got.Panicked?)
                <==> (ListsDeparted(s, k) || exists id :: FreedBy(m, k, id))
                     && forall id | FreedBy(m, k, id) :: Repeats(m, k, id))
  {
    ChoicesPossible(s);
    forall c | CanTurn(s.r, DropTurn(c))
      ensures var m, k := s.r.m, s.r.dropq[0];
              && (DoTurn(s.r, DropTurn(c)).got.Panicked? <==> c.Dead? || (c.Found? && Repeats(m, k, c.id)))
              && (c.Dead? ==> Link(k, c.id) in s.departed)
              && (c.Found? ==> FreedBy(m, k, c.id))
              && (c.NoneFree? ==> !ListsDeparted(s, k) && forall id :: !FreedBy(m, k, id))
    {
      ChoicePanics(s, c);
    }
  }

  /**
    Releasing `k` can panic exactly if it is not in use, or a message that waited for `k` was freed
    through another key, or a message that it frees repeats another key. It must panic exactly if
    it is not in use, or something is found and every message that it frees repeats another key.
   */
  lemma ReleasePanicsExactly(s: Sys)
    requires MultiKeySystem.Inv(s) && s.r.dropq != []
    ensures var m, k := s.r.m, s.r.dropq[0];
            && ((exists c :: CanTurn(s.r, DropTurn(c)) && DoTurn(s.r, DropTurn(c)).got.Panicked?)
                <==> k !in m.held || ListsDeparted(s, k) || exists id :: FreedBy(m, k, id) && Repeats(m, k, id))
            && ((forall c | CanTurn(s.r, DropTurn(c)) :: DoTurn(s.r, DropTurn(c)).got.Panicked?)
                <==> k !in m.held
                     || ((ListsDeparted(s, k) || exists id :: FreedBy(m, k, id))
                         && forall id | FreedBy(m, k, id) :: Repeats(m, k, id)))
            && (Clean(s) ==> k in m.held && forall id :: !Repeats(m, k, id))
  {
    if s.r.dropq[0] in s.r.m.held {
      ReleaseInUsePanics(s);
    } else {
      assert CanTurn(s.r, DropTurn(NoneFree)) && DoTurn(s.r, DropTurn(NoneFree)).got.Panicked?;
    }
    if Clean(s) {
      NoRepeats(s);
    }
  }

  /** Without repeated keys, a key in the drop queue is in use and no waiting message repeats another. */
  lemma NoRepeats(s: Sys)
    requires Clean(s) && s.r.dropq != []
    ensures s.r.dropq[0] in s.r.m.held && forall id :: !Repeats(s.r.m, s.r.dropq[0], id)
  {
    DroppedInUse(s);
    forall id ensures !Repeats(s.r.m, s.r.dropq[0], id) {
      if id in s.r.m.waiting {
        ReversedDistinct(s.r.m.waiting[id].handles);
      }
    }
  }

  /** A new message panics exactly if it conflicts and the ids are used up, or does not and repeats a key. */
  lemma NewPanicsExactly(s: Sys)
    requires MultiKeySystem.Inv(s) && s.r.q != []
    ensures var m, ks, got := s.r.m, s.r.q[0].ks, DoTurn(s.r, NewTurn).got;
            && (got.Panicked? <==> if Meets(m.held, ks) then m.next == I32_MAX else !Distinct(ks))
            && (got.Panicked? ==> got == Panicked(if Meets(m.held, ks) then IdOverflow else DoubleUse))
            && (Clean(s) ==> Distinct(ks))
  {
    assert s.r.q[0] == Msg(s.accepted[Base(s)].ks, Base(s));
  }

  /** A message that was in the queue begins to wait. */
  ghost predicate BeginsToWait(s: Sys, s': Sys) {
    exists t :: 0 <= t < |s.place| && t < |s'.place| && s.place[t].InQueue? && s'.place[t].Waiting?
  }

  /** How many messages have begun to wait, each with an id of its own. */
  ghost function Waits(ss: seq<Sys>, i: nat): nat
    requires i < |ss|
  {
    if i == 0 then 0 else Waits(ss, i - 1) + if BeginsToWait(ss[i - 1], ss[i]) then 1 else 0
  }

  lemma NextCounts(s: Sys, s': Sys)
    requires MultiKeySystem.Inv(s) && Step(s, s')
    ensures s'.r.m.next == s.r.m.next + if BeginsToWait(s, s') then 1 else 0
  {
    var e :| CanDo(s, e) && s' == Do(s, e);
    if e == Receive(NewTurn) {
      NewCounts(s);
    } else {
      OthersBeginNoWait(s, e);
    }
  }

  lemma NewCounts(s: Sys)
    requires MultiKeySystem.Inv(s) && CanDo(s, Receive(NewTurn))
    ensures var s' := Do(s, Receive(NewTurn)); s'.r.m.next == s.r.m.next + if BeginsToWait(s, s') then 1 else 0
  {
    var s', t := Do(s, Receive(NewTurn)), s.r.q[0].v;
    assert s.r.q[0] == Msg(s.accepted[Base(s)].ks, Base(s)) && s.place[t].InQueue?;
    if s'.panic.None? && Meets(s.r.m.held, s.r.q[0].ks) {
      assert s'.place[t].Waiting?;
    }
  }

  lemma OthersBeginNoWait(s: Sys, e: Event)
    requires CanDo(s, e) && e != Receive(NewTurn)
    ensures Do(s, e).r.m.next == s.r.m.next && !BeginsToWait(s, Do(s, e))
  {
  }

  lemma {:induction false} NextIsWaits(ss: seq<Sys>, i: nat)
    requires Runs.Run(Init, Step, ss) && i < |ss|
    ensures ss[i].r.m.next == Waits(ss, i)
  {
    if i == 0 {
    } else {
      NextIsWaits(ss, i - 1);
      EveryRun(ss, i - 1);
      Runs.StepAt(Init, Step, ss, i);
      NextCounts(ss[i - 1], ss[i]);
    }
  }

  /**
    The ids of waiting messages suffice for 2147483647 of them: a conflicting message panics
    exactly if as many have waited.
   */
  lemma IdsLastExactly(ss: seq<Sys>, i: nat)
    requires Runs.Run(Init, Step, ss) && i < |ss| && ss[i].r.q != [] && Meets(ss[i].r.m.held, ss[i].r.q[0].ks)
    ensures DoTurn(ss[i].r, NewTurn).got == if Waits(ss, i) < 2147483647 then Nothing else Panicked(IdOverflow)
    ensures Waits(ss, i) <= 2147483647
  {
    EveryRun(ss, i);
    NextIsWaits(ss, i);
  }

  lemma RepeatsReversed<T>(hs: seq<T>, x: T)
    ensures RepeatsOther(Reversed(hs), x) <==> RepeatsOther(hs, x)
  {
    var n, rs := |hs|, Reversed(hs);
    forall i | 0 <= i < n ensures rs[i] == hs[n - 1 - i] {
      ReversedAt(hs, i);
    }
    if i, j :| 0 <= i < j < n && hs[i] == hs[j] && hs[i] != x {
      assert rs[n - 1 - j] == hs[j] && rs[n - 1 - i] == hs[i];
    }
    if i, j :| 0 <= i < j < n && rs[i] == rs[j] && rs[i] != x {
      assert hs[n - 1 - j] == hs[n - 1 - i];
    }
  }

  /**
    A message that repeats a key is handed out exactly when it waited and a search through a
    released key frees it that is the only one it repeats.
   */
  lemma RepeatedHandedOutExactly(s: Sys, turn: Turn, t: nat)
    requires MultiKeySystem.Inv(s) && CanDo(s, Receive(turn))
    requires t < |s.accepted| && !Distinct(s.accepted[t].ks)
    ensures (DoTurn(s.r, turn).got.Got? && DoTurn(s.r, turn).got.v == t) <==>
              && turn.DropTurn? && turn.c.Found? && s.r.dropq[0] in s.r.m.held
              && turn.c.id in s.r.m.waiting && s.r.m.waiting[turn.c.id].v == t
              && !RepeatsOther(s.accepted[t].ks, s.r.dropq[0])
  {
    match turn {
      case NewTurn => assert s.r.q[0] == Msg(s.accepted[Base(s)].ks, Base(s));
      case DropTurn(c) =>
        if c.Found? && s.r.dropq[0] in s.r.m.held {
          FoundFacts(s.r.m, s.r.dropq[0], c.id);
          RepeatsReversed(s.r.m.waiting[c.id].handles, s.r.dropq[0]);
        }
    }
  }

  ghost predicate OneKeyEach(s: Sys) {
    forall i | 0 <= i < |s.accepted| :: |s.accepted[i].ks| <= 1
  }

  ghost predicate NothingDeparted(s: Sys) {
    OneKeyEach(s) ==> Clean(s) && s.departed == {} && s.panic != Some(DeadHandle)
  }

  /** While messages carry at most one key, no dead handle exists, so the search never panics. */
  lemma {:induction false} OneKeyNeverDead(ss: seq<Sys>, i: nat)
    requires Runs.Run(Init, Step, ss) && i < |ss|
    ensures OneKeyEach(ss[i]) ==> ss[i].departed == {} && ss[i].panic != Some(DeadHandle)
    ensures NothingDeparted(ss[i])
  {
    if i == 0 {
      InitInv(ss[0]);
    } else {
      OneKeyNeverDead(ss, i - 1);
      Runs.StepAt(Init, Step, ss, i);
      if OneKeyEach(ss[i]) {
        var e :| CanDo(ss[i - 1], e) && ss[i] == Do(ss[i - 1], e);
        OneKeyStep(ss[i - 1], e);
      }
    }
  }

  lemma OneKeyBefore(s: Sys, e: Event)
    requires CanDo(s, e) && OneKeyEach(Do(s, e))
    ensures OneKeyEach(s)
  {
    forall i | 0 <= i < |s.accepted| ensures |s.accepted[i].ks| <= 1 {
      assert Do(s, e).accepted[i] == s.accepted[i];
    }
  }

  lemma OneKeyStep(s: Sys, e: Event)
    requires NothingDeparted(s) && CanDo(s, e) && OneKeyEach(Do(s, e))
    ensures Clean(Do(s, e)) && Do(s, e).departed == {} && Do(s, e).panic != Some(DeadHandle)
  {
    OneKeyBefore(s, e);
    assert e.Send? ==> Do(s, e).accepted[|s.accepted|] == e.msg;
    StepKeepsClean(s, e);
    if e.Receive? && e.turn.DropTurn? {
      OneKeyDrop(s, e.turn.c);
    } else if e == Receive(NewTurn) {
      NewPanicsExactly(s);
    }
  }

  lemma OneKeyDrop(s: Sys, c: Choice)
    requires Clean(s) && OneKeyEach(s) && s.departed == {} && CanDo(s, Receive(DropTurn(c)))
    ensures Do(s, Receive(DropTurn(c))).departed == {} && Do(s, Receive(DropTurn(c))).panic != Some(DeadHandle)
  {
    DroppedInUse(s);
    DropPanics(s, c);
    ChoicePanics(s, c);
    if c.Found? {
      var hs := s.r.m.waiting[c.id].handles;
      assert |hs| == |Reversed(hs)| <= 1;
      assert hs == [s.r.dropq[0]];
    }
  }

  // ---------------------------------------------------------------- blocking

  /** When the receiver has to wait, every undelivered message shares a key with a message that is still alive. */
  lemma BlockingJustified(s: Sys, t: nat)
    requires MultiKeySystem.Inv(s) && s.r.q == [] && s.r.dropq == []
    requires t < |s.accepted| && !s.place[t].Delivered?
    ensures exists t', k :: Holds(s.out, t', k) && k in s.accepted[t].ks
  {
    assert s.place[t].Waiting?;
    var id := s.place[t].id;
    assert !Free(s.r.m, id);
    var k :| k in s.r.m.waiting[id].handles && k in s.r.m.held;
    ReversedMembers(s.r.m.waiting[id].handles);
    HeldHasOwner(s.r.m.held, s.r.dropq, s.delivered, s.out, k);
    var t' :| Holds(s.out, t', k);
    assert Holds(s.out, t', k) && k in s.accepted[t].ks;
  }

  // ---------------------------------------------------------------- refinement

  ghost function Pending(s: Sys): set<nat> {
    set t: nat | t < |s.place| && !s.place[t].Delivered?
  }

  ghost function Abstract(s: Sys): A.Abs {
    A.Abs(seq(|s.accepted|, i requires 0 <= i < |s.accepted| => s.accepted[i].ks),
          Pending(s), s.r.m.held,
          seq(|s.delivered|, i requires 0 <= i < |s.delivered| => s.delivered[i].v))
  }

  /** The abstract actions that an event amounts to. */
  ghost function ActionsOf(s: Sys, e: Event): seq<A.Action>
    requires CanDo(s, e)
  {
    match e
    case Send(msg) => [A.Accept(msg.ks)]
    case Receive(turn) =>
      var got := DoTurn(s.r, turn).got;
      if got.Panicked? then []
      else (if turn.DropTurn? then [A.Release(s.r.dropq[0])] else [])
           + (if got.Got? then [A.Deliver(got.v)] else [])
    case _ => []
  }

  /**
    Every event is a sequence of abstract actions, all of them enabled: a message goes out only when
    its keys miss the held ones.
   */
  lemma Refines(s: Sys, e: Event)
    requires MultiKeySystem.Inv(s) && CanDo(s, e)
    ensures A.Acts(Abstract(s), ActionsOf(s, e), Abstract(Do(s, e)))
  {
    match e
    case Send(msg) =>
      A.OneAct(Abstract(s), A.Accept(msg.ks));
      assert A.Act(Abstract(s), A.Accept(msg.ks)) == Abstract(Do(s, e));
    case DropKey(_) => assert Abstract(s) == Abstract(Do(s, e));
    case DropEnd(_) => assert Abstract(s) == Abstract(Do(s, e));
    case Receive(NewTurn) => RefinesNew(s);
    case Receive(DropTurn(c)) => RefinesDrop(s, c);
  }

  lemma DeliverIs(s: Sys, held: set<Key>, t: nat, s': Sys, ks: seq<Key>)
    requires |s.place| == |s.accepted| && t < |s.place| && !s.place[t].Delivered? && ks == s.accepted[t].ks
    requires s'.accepted == s.accepted && s'.place == s.place[t := Delivered(|s.delivered|)]
    requires s'.delivered == s.delivered + [Msg(ks, t)] && s'.r.m.held == held + SetOf(ks) && !Meets(held, ks)
    ensures A.Enabled(Abstract(s).(held := held), A.Deliver(t))
    ensures A.Act(Abstract(s).(held := held), A.Deliver(t)) == Abstract(s')
  {
    assert Pending(s') == Pending(s) - {t};
  }

  lemma RefinesNew(s: Sys)
    requires MultiKeySystem.Inv(s) && CanDo(s, Receive(NewTurn))
    ensures A.Acts(Abstract(s), ActionsOf(s, Receive(NewTurn)), Abstract(Do(s, Receive(NewTurn))))
  {
    var e, s' := s.r.q[0], Do(s, Receive(NewTurn));
    NewHandsOutNew(s);
    assert e == Msg(s.accepted[Base(s)].ks, Base(s)) && s.place[e.v].InQueue?;
    var got := DoTurn(s.r, NewTurn).got;
    if got.Got? {
      DeliverIs(s, s.r.m.held, e.v, s', e.ks);
      assert Abstract(s).(held := s.r.m.held) == Abstract(s);
      A.OneAct(Abstract(s), A.Deliver(e.v));
    } else {
      assert Pending(s') == Pending(s);
      assert Abstract(s') == Abstract(s);
    }
  }

  lemma RefinesDrop(s: Sys, c: Choice)
    requires MultiKeySystem.Inv(s) && CanDo(s, Receive(DropTurn(c)))
    ensures A.Acts(Abstract(s), ActionsOf(s, Receive(DropTurn(c))), Abstract(Do(s, Receive(DropTurn(c)))))
  {
    var got := DoTurn(s.r, DropTurn(c)).got;
    if got.Panicked? {
      assert Abstract(Do(s, Receive(DropTurn(c)))) == Abstract(s);
    } else if c.Found? {
      RefinesFound(s, c.id);
    } else {
      RefinesNoneFree(s);
    }
  }

  lemma RefinesFound(s: Sys, id: int)
    requires MultiKeySystem.Inv(s) && CanDo(s, Receive(DropTurn(Found(id))))
    requires !DoTurn(s.r, DropTurn(Found(id))).got.Panicked?
    ensures var e := Receive(DropTurn(Found(id))); A.Acts(Abstract(s), ActionsOf(s, e), Abstract(Do(s, e)))
  {
    var m, k, s' := s.r.m, s.r.dropq[0], Do(s, Receive(DropTurn(Found(id))));
    var got := DoTurn(s.r, DropTurn(Found(id))).got;
    FoundHandsOutNew(s, id);
    FoundFacts(m, k, id);
    var released := A.Act(Abstract(s), A.Release(k));
    assert released == Abstract(s).(held := m.held - {k});
    assert (m.held - {k}) + SetOf(m.waiting[id].handles) + {k} == (m.held - {k}) + SetOf(got.ks);
    DeliverIs(s, m.held - {k}, got.v, s', got.ks);
    A.TwoActs(Abstract(s), A.Release(k), A.Deliver(got.v));
    assert ActionsOf(s, Receive(DropTurn(Found(id)))) == [A.Release(k), A.Deliver(got.v)];
  }

  lemma RefinesNoneFree(s: Sys)
    requires MultiKeySystem.Inv(s) && CanDo(s, Receive(DropTurn(NoneFree)))
    requires !DoTurn(s.r, DropTurn(NoneFree)).got.Panicked?
    ensures var e := Receive(DropTurn(NoneFree)); A.Acts(Abstract(s), ActionsOf(s, e), Abstract(Do(s, e)))
  {
    var k, s' := s.r.dropq[0], Do(s, Receive(DropTurn(NoneFree)));
    assert Pending(s') == Pending(s);
    assert A.Act(Abstract(s), A.Release(k)) == Abstract(s');
    A.OneAct(Abstract(s), A.Release(k));
    assert ActionsOf(s, Receive(DropTurn(NoneFree))) == [A.Release(k)];
  }
}
