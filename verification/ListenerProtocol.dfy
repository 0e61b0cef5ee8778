/**
  How the keyed channels block: the receiver re-tests both queues while its listener is
  registered, and every producer notifies after its push. Steps of the receiver, of any number
  of senders and of threads that drop messages interleave; the queues are counted, the
  receiver's table is a flag that tells whether it is empty.
 */
module ListenerProtocol {
  import opened Util
  import Runs

  /** Where the receiver is in `sync_pop`. */
  datatype RecvPc =
    | PopDrop        // about to take a dropped key
    | PopQ           // about to take a message
    | CheckQ         // about to test the send queue for emptiness
    | CheckDrop      // about to test the drop queue
    | CheckSenders   // about to look at the table and the senders' flag
    | Take           // about to take the listener out of its slot
    | Blocked        // waiting on the listener
    | Relisten       // woken, about to register a new listener
    | Ready          // a message was returned, or nothing asked for yet
    | Closed         // `None` was returned

  /** A producer thread between calls, or after a push or a store and before its `notify`. */
  datatype ProdPc = Rest | MustNotify

  datatype State = State(
    q: nat, dropq: nat, flag: bool,           // queue lengths, senders_dropped
    pc: RecvPc, tableEmpty: bool,
    slot: bool,                               // the receiver holds a listener
    registered: bool, notified: bool,         // that listener is in the event's list, and its bit
    prods: map<nat, ProdPc>,                  // sender and dropper threads
    senders: set<nat>)                        // threads that still own a sender

  datatype Event =
    | Push(p: nat)          // a sender's `q.push`
    | PushKey(p: nat)       // a key of a message being dropped
    | Leave(p: nat)         // a sender goes away
    | SetFlag(p: nat)       // the last one is gone
    | Notify(p: nat)        // the `notify(1)` that follows
    | Stray                 // a notification of no consequence to the queues
    | Call                  // `recv`
    | Go(handsOut: bool, empty: bool)   // the receiver's next step; what it finds in its table is arbitrary

  ghost predicate Init(s: State) {
    && s.q == 0 && s.dropq == 0 && !s.flag && s.pc == Ready && s.tableEmpty
    && s.slot && s.registered && !s.notified
    && (forall p | p in s.prods :: s.prods[p] == Rest)
    && s.senders <= s.prods.Keys
  }

  predicate CanDo(s: State, e: Event) {
    match e
    case Push(p) => p in s.senders && p in s.prods && s.prods[p] == Rest
    case PushKey(p) => p in s.prods
    case Leave(p) => p in s.senders && p in s.prods && s.prods[p] == Rest
    case SetFlag(p) => s.senders == {} && p in s.prods
    case Notify(p) => p in s.prods && s.prods[p] == MustNotify
    case Stray => true
    case Call => s.pc == Ready || s.pc == Closed
    case Go(_, _) => !s.pc.Ready? && !s.pc.Closed? && (s.pc == Blocked ==> s.notified)
  }

  function Signal(s: State): State {
    if s.registered then s.(notified := true) else s
  }

  function Do(s: State, e: Event): State
    requires CanDo(s, e)
  {
    match e
    case Push(p) => s.(q := s.q + 1, prods := s.prods[p := MustNotify])
    case PushKey(p) => s.(dropq := s.dropq + 1, prods := s.prods[p := MustNotify])
    case Leave(p) => s.(senders := s.senders - {p})
    case SetFlag(p) => s.(flag := true, prods := s.prods[p := MustNotify])
    case Notify(p) => Signal(s.(prods := s.prods[p := Rest]))
    case Stray => Signal(s)
    case Call => s.(pc := PopDrop)
    case Go(handsOut, empty) =>
      match s.pc
      case PopDrop =>
        if s.dropq == 0 then s.(pc := PopQ)
        else s.(dropq := s.dropq - 1, tableEmpty := empty, pc := if handsOut then Ready else PopDrop)
      case PopQ =>
        if s.q == 0 then s.(pc := CheckQ)
        else s.(q := s.q - 1, tableEmpty := empty, pc := if handsOut then Ready else PopDrop)
      case CheckQ => s.(pc := if s.q != 0 then PopDrop else CheckDrop)
      case CheckDrop => s.(pc := if s.dropq != 0 then PopDrop else CheckSenders)
      case CheckSenders => s.(pc := if s.tableEmpty && s.flag then Closed else Take)
      case Take => s.(slot := false, pc := Blocked)
      case Blocked => s.(registered := false, pc := Relisten)
      case Relisten => s.(slot := true, registered := true, notified := false, pc := PopDrop)
      case _ => s
  }

  ghost predicate Step(s: State, s': State) {
    exists e :: CanDo(s, e) && s' == Do(s, e)
  }

  ghost predicate SomeoneWillNotify(prods: map<nat, ProdPc>) {
    exists p :: p in prods && prods[p] == MustNotify
  }

  /** The receiver found the send queue empty and has not gone round since. */
  predicate PastQ(pc: RecvPc) {
    pc.CheckDrop? || PastDrop(pc)
  }

  predicate PastDrop(pc: RecvPc) {
    pc.CheckSenders? || PastSenders(pc)
  }

  predicate PastSenders(pc: RecvPc) {
    pc.Take? || pc.Blocked?
  }

  /** Something happened that the receiver's tests did not see. */
  predicate Missed(s: State) {
    || (PastQ(s.pc) && s.q > 0)
    || (PastDrop(s.pc) && s.dropq > 0)
    || (PastSenders(s.pc) && s.flag && s.tableEmpty)
  }

  ghost predicate Inv(s: State) {
    && (s.slot <==> !s.pc.Blocked? && !s.pc.Relisten?)
    && (s.registered <==> s.pc != Relisten)
    && (Missed(s) && !s.notified ==> SomeoneWillNotify(s.prods))
    && (s.flag ==> s.senders == {})
    && (s.pc == Closed ==> s.flag && s.tableEmpty)
  }

  lemma GoKeepsInv(s: State, handsOut: bool, empty: bool)
    requires Inv(s) && CanDo(s, Go(handsOut, empty))
    ensures Inv(Do(s, Go(handsOut, empty)))
  {
    match s.pc {
      case PopDrop =>
      case PopQ =>
      case CheckQ =>
      case CheckDrop =>
      case CheckSenders =>
      case Take =>
      case Blocked =>
      case Relisten =>
    }
  }

  /** The receiver's own steps that pop nothing, and steps of other threads that push nothing. */
  predicate LeavesQueues(s: State, e: Event) {
    match e
    case Push(_) => false
    case PushKey(_) => false
    case Go(_, _) => !(s.pc.PopDrop? && s.dropq > 0) && !(s.pc.PopQ? && s.q > 0)
    case _ => true
  }

  lemma QueuesStay(s: State, e: Event)
    requires CanDo(s, e) && LeavesQueues(s, e)
    ensures var s' := Do(s, e); s'.q == s.q && s'.dropq == s.dropq && s'.tableEmpty == s.tableEmpty
  {
    if e.Go? {
      GoingKeepsQueues(s, e);
    }
  }

  lemma GoingKeepsQueues(s: State, e: Event)
    requires e.Go? && CanDo(s, e) && LeavesQueues(s, e)
    ensures var s' := Do(s, e); s'.q == s.q && s'.dropq == s.dropq && s'.tableEmpty == s.tableEmpty
  {
    match s.pc {
      case PopDrop =>
      case PopQ =>
      case CheckQ =>
      case CheckDrop =>
      case CheckSenders =>
      case _ =>
    }
  }

  lemma StepKeepsInv(s: State, e: Event)
    requires Inv(s) && CanDo(s, e)
    ensures Inv(Do(s, e))
  {
    match e
    case Push(p) => assert Do(s, e).prods[p] == MustNotify;
    case PushKey(p) => assert Do(s, e).prods[p] == MustNotify;
    case SetFlag(p) => assert Do(s, e).prods[p] == MustNotify;
    case Leave(p) => assert Do(s, e).prods == s.prods;
    case Notify(p) =>
    case Stray => assert Do(s, e).prods == s.prods;
    case Call =>
    case Go(handsOut, empty) => GoKeepsInv(s, handsOut, empty);
  }

  lemma EveryRun(ss: seq<State>, i: nat)
    requires Runs.Run(Init, Step, ss) && i < |ss|
    ensures Inv(ss[i])
  {
    forall s, s' | Inv(s) && Step(s, s') ensures Inv(s') {
      var e :| CanDo(s, e) && s' == Do(s, e);
      StepKeepsInv(s, e);
    }
    Runs.Invariant(Init, Step, Inv, ss, i);
  }

  /**
    No wake is lost: a receiver that blocks with work at hand - a queued message, a dropped key,
    or all senders gone and nothing left in its table - was notified or is about to be. And the
    listener slot is never empty when the receiver takes from it.
   */
  lemma NoLostWake(ss: seq<State>, i: nat)
    requires Runs.Run(Init, Step, ss) && i < |ss|
    ensures var s := ss[i];
            && (s.pc == Blocked && (s.q > 0 || s.dropq > 0 || (s.flag && s.tableEmpty)) ==>
                  s.notified || SomeoneWillNotify(s.prods))
            && (s.pc == Take ==> s.slot)
  {
    EveryRun(ss, i);
  }

  /** The listener was registered at `k` and un-notified, and was notified then. */
  ghost predicate NotifiedAt(ss: seq<State>, k: nat, j: nat) {
    && k < j < |ss| && !ss[k].notified && ss[k + 1].notified
    && forall m | k <= m <= j :: ss[m].registered
  }

  /**
    A listener is notified only by a notification that came after it was registered, so that no
    receiver wakes by itself.
   */
  lemma {:induction false} WokenByNotification(ss: seq<State>, j: nat)
    requires Runs.Run(Init, Step, ss) && j < |ss| && ss[j].registered && ss[j].notified
    ensures exists k: nat :: NotifiedAt(ss, k, j)
  {
    if j == 0 {
    } else {
      Runs.StepAt(Init, Step, ss, j);
      NotifiedStep(ss[j - 1], ss[j]);
      if ss[j - 1].notified {
        WokenByNotification(ss, j - 1);
        var k: nat :| NotifiedAt(ss, k, j - 1);
        assert NotifiedAt(ss, k, j);
      } else {
        assert NotifiedAt(ss, j - 1, j);
      }
    }
  }

  lemma NotifiedStep(s: State, s': State)
    requires Step(s, s') && s'.registered && s'.notified
    ensures s.registered
  {
    var e :| CanDo(s, e) && s' == Do(s, e);
    if e.Go? {
      GoRegisters(s, e);
    } else {
      OthersRegisterNothing(s, e);
    }
  }

  lemma GoRegisters(s: State, e: Event)
    requires CanDo(s, e) && e.Go?
    ensures Do(s, e).registered && Do(s, e).notified ==> s.registered
  {
    match s.pc
    case Relisten =>
    case PopDrop =>
    case PopQ =>
    case _ =>
  }

  lemma OthersRegisterNothing(s: State, e: Event)
    requires CanDo(s, e) && !e.Go?
    ensures Do(s, e).registered == s.registered
  {
  }

  /** Just before it came to where it is at `j`, the receiver was at `pc`, with the queue in question empty. */
  ghost predicate CameFrom(ss: seq<State>, j: nat, pc: RecvPc, ofKeys: bool) {
    exists k: nat :: k < j < |ss| && ss[k].pc == pc && (if ofKeys then ss[k].dropq else ss[k].q) == 0
      && forall m | k < m <= j :: ss[m].pc == ss[j].pc
  }

  /**
    The receiver turns to the messages only from an empty queue of dropped keys, and decides whether
    to close or to wait only after the messages, the messages again and the keys were gone as well.
   */
  lemma {:induction false} LooksInOrder(ss: seq<State>, j: nat)
    requires Runs.Run(Init, Step, ss) && j < |ss|
    ensures ss[j].pc == PopQ ==> CameFrom(ss, j, PopDrop, true)
    ensures ss[j].pc == CheckQ ==> CameFrom(ss, j, PopQ, false)
    ensures ss[j].pc == CheckDrop ==> CameFrom(ss, j, CheckQ, false)
    ensures ss[j].pc == CheckSenders ==> CameFrom(ss, j, CheckDrop, true)
  {
    if j == 0 {
    } else {
      LooksInOrder(ss, j - 1);
      Runs.StepAt(Init, Step, ss, j);
      if ss[j].pc == ss[j - 1].pc {
        StaysFrom(ss, j);
      } else {
        LookStep(ss[j - 1], ss[j]);
        JustCame(ss, j);
      }
    }
  }

  /** The receiver moves on only past an empty queue. */
  predicate Passes(s: State, s': State) {
    match s'.pc
    case PopQ => s.pc == PopDrop && s.dropq == 0
    case CheckQ => s.pc == PopQ && s.q == 0
    case CheckDrop => s.pc == CheckQ && s.q == 0
    case CheckSenders => s.pc == CheckDrop && s.dropq == 0
    case _ => true
  }

  lemma LookStep(s: State, s': State)
    requires Step(s, s') && s'.pc != s.pc
    ensures Passes(s, s')
  {
    var e :| CanDo(s, e) && s' == Do(s, e);
    if e.Go? {
      GoPasses(s, e);
    } else {
      OthersStay(s, e);
    }
  }

  lemma OthersStay(s: State, e: Event)
    requires CanDo(s, e) && !e.Go?
    ensures Do(s, e).pc == s.pc || Do(s, e).pc == PopDrop
  {
  }

  lemma GoPasses(s: State, e: Event)
    requires CanDo(s, e) && e.Go? && Do(s, e).pc != s.pc
    ensures Passes(s, Do(s, e))
  {
    match s.pc
    case PopDrop =>
    case PopQ =>
    case CheckQ =>
    case CheckDrop =>
    case _ =>
  }

  lemma JustCame(ss: seq<State>, j: nat)
    requires 0 < j < |ss|
    ensures ss[j - 1].dropq == 0 ==> CameFrom(ss, j, ss[j - 1].pc, true)
    ensures ss[j - 1].q == 0 ==> CameFrom(ss, j, ss[j - 1].pc, false)
  {
    assert forall m | j - 1 < m <= j :: ss[m].pc == ss[j].pc;
  }

  lemma StaysFrom(ss: seq<State>, j: nat)
    requires 0 < j < |ss| && ss[j].pc == ss[j - 1].pc
    ensures forall pc, ofKeys | CameFrom(ss, j - 1, pc, ofKeys) :: CameFrom(ss, j, pc, ofKeys)
  {
    forall pc, ofKeys | CameFrom(ss, j - 1, pc, ofKeys) ensures CameFrom(ss, j, pc, ofKeys) {
      var k: nat :| k < j - 1 && ss[k].pc == pc && (if ofKeys then ss[k].dropq else ss[k].q) == 0
        && forall m | k < m <= j - 1 :: ss[m].pc == ss[j - 1].pc;
      assert forall m | k < m <= j :: ss[m].pc == ss[j].pc;
    }
  }

  // ---------------------------------------------------------------- `Closed` is not always final

  /** `Closed` is answered only when no sender is left and nothing in the receiver's table. */
  lemma ClosedOnlyWhenGone(ss: seq<State>, i: nat)
    requires Runs.Run(Init, Step, ss) && i < |ss| && ss[i].pc == Closed
    ensures ss[i].flag && ss[i].senders == {} && ss[i].tableEmpty
  {
    EveryRun(ss, i);
  }

  predicate Deciding(pc: RecvPc) {
    pc.CheckDrop? || pc.CheckSenders?
  }

  /**
    `ss` are steps that start in `s`; up to the last state the receiver has yet to test the drop
    queue or read the flag.
   */
  ghost predicate Stretch(s: State, ss: seq<State>) {
    && |ss| > 0 && ss[0] == s
    && (forall i | 0 <= i < |ss| - 1 :: Deciding(ss[i].pc) && Step(ss[i], ss[i + 1]))
  }

  /** The receiver, having found the send queue empty, comes to answer `Closed`. */
  ghost predicate Closing(s: State, ss: seq<State>) {
    Stretch(s, ss) && ss[|ss| - 1].pc == Closed
  }

  /**
    `Closed` may leave a message behind, and it may do so exactly if some sender was alive when
    the receiver looked at the send queue: the flag is read later, after that sender pushed and left.
   */
  lemma ClosedLeavesMessage(s: State)
    requires Inv(s) && s.pc == CheckDrop && s.q == 0 && s.dropq == 0 && s.tableEmpty
    requires s.senders <= s.prods.Keys && s.prods != map[]
    ensures (exists ss: seq<State> :: Closing(s, ss) && ss[|ss| - 1].q > 0) <==> s.senders != {}
  {
    if s.senders != {} {
      var ss := LeaveMessage(s);
    }
    forall ss: seq<State> | s.senders == {} && Closing(s, ss) ensures ss[|ss| - 1].q == 0 {
      NothingComes(s, ss, |ss| - 1);
    }
  }

  lemma {:induction false} NothingComes(s: State, ss: seq<State>, i: nat)
    requires s.q == 0 && s.senders == {} && i < |ss| && Stretch(s, ss)
    ensures ss[i].q == 0 && ss[i].senders == {}
  {
    if i == 0 {
    } else {
      NothingComes(s, ss, i - 1);
      assert Step(ss[i - 1], ss[i - 1 + 1]);
      NoPush(ss[i - 1], ss[i]);
    }
  }

  lemma NoPush(s: State, s': State)
    requires s.q == 0 && s.senders == {} && Step(s, s')
    ensures s'.q == 0 && s'.senders == {}
  {
    var e :| CanDo(s, e) && s' == Do(s, e);
    if e.Go? {
      GoAddsNothing(s, e);
    } else {
      NobodyPushes(s, e);
    }
  }

  lemma NobodyPushes(s: State, e: Event)
    requires s.senders == {} && !e.Go? && CanDo(s, e)
    ensures Do(s, e).q == s.q && Do(s, e).senders == {}
  {
  }

  lemma GoAddsNothing(s: State, e: Event)
    requires e.Go? && CanDo(s, e)
    ensures Do(s, e).q <= s.q && Do(s, e).senders == s.senders
  {
    match s.pc
    case PopDrop =>
    case PopQ =>
    case _ =>
  }

  lemma OneMore(s: State, ss: seq<State>, e: Event) returns (ss': seq<State>)
    requires Stretch(s, ss) && Deciding(ss[|ss| - 1].pc) && CanDo(ss[|ss| - 1], e)
    ensures Stretch(s, ss') && ss'[|ss'| - 1] == Do(ss[|ss| - 1], e)
  {
    ss' := ss + [Do(ss[|ss| - 1], e)];
    assert Step(ss[|ss| - 1], ss'[|ss|]);
    forall i | 0 <= i < |ss'| - 1 ensures Deciding(ss'[i].pc) && Step(ss'[i], ss'[i + 1]) {
      if i < |ss| - 1 {
        assert Step(ss[i], ss[i + 1]);
      }
    }
  }

  /** One sender pushes, all leave, the flag is set, and the receiver reads it. */
  lemma LeaveMessage(s: State) returns (ss: seq<State>)
    requires s.pc == CheckDrop && s.q == 0 && s.dropq == 0 && s.tableEmpty
    requires s.senders <= s.prods.Keys && s.senders != {}
    ensures Closing(s, ss) && ss[|ss| - 1].q > 0
  {
    var p := SomeMember(s.senders);
    ss := PushOne(s, p);
    ss := EveryoneLeaves(s, ss);
    ss := OneMore(s, ss, SetFlag(p));
    ss := OneMore(s, ss, Go(false, true));
    ss := OneMore(s, ss, Go(false, true));
  }

  lemma PushOne(s: State, p: nat) returns (ss: seq<State>)
    requires s.pc == CheckDrop && p in s.senders && p in s.prods
    ensures Stretch(s, ss) && ss[|ss| - 1].pc == CheckDrop
    ensures var b := ss[|ss| - 1];
            && b.q == s.q + 1 && b.dropq == s.dropq && b.tableEmpty == s.tableEmpty
            && b.senders == s.senders && b.prods.Keys == s.prods.Keys
  {
    ss := [s];
    if s.prods[p] == MustNotify {
      ss := OneMore(s, ss, Notify(p));
    }
    var a := ss[|ss| - 1];
    assert a.prods.Keys == s.prods.Keys && a.prods[p] == Rest && a.q == s.q;
    ss := OneMore(s, ss, Push(p));
  }

  lemma {:induction false} EveryoneLeaves(s: State, ss: seq<State>) returns (ss': seq<State>)
    requires Stretch(s, ss) && Deciding(ss[|ss| - 1].pc)
    requires ss[|ss| - 1].senders <= ss[|ss| - 1].prods.Keys
    ensures Stretch(s, ss')
    ensures var a, b := ss[|ss| - 1], ss'[|ss'| - 1];
            && b.senders == {} && b.prods.Keys == a.prods.Keys
            && b.pc == a.pc && b.q == a.q && b.dropq == a.dropq && b.tableEmpty == a.tableEmpty
    decreases ss[|ss| - 1].senders
  {
    var a := ss[|ss| - 1];
    if a.senders == {} {
      ss' := ss;
    } else {
      var p := SomeMember(a.senders);
      ss' := OneLeaves(s, ss, p);
      assert p in a.senders && p !in ss'[|ss'| - 1].senders;
      ss' := EveryoneLeaves(s, ss');
    }
  }

  lemma OneLeaves(s: State, ss: seq<State>, p: nat) returns (ss': seq<State>)
    requires Stretch(s, ss) && Deciding(ss[|ss| - 1].pc)
    requires p in ss[|ss| - 1].senders && p in ss[|ss| - 1].prods
    ensures Stretch(s, ss')
    ensures var a, b := ss[|ss| - 1], ss'[|ss'| - 1];
            && b.senders == a.senders - {p} && b.prods.Keys == a.prods.Keys
            && b.pc == a.pc && b.q == a.q && b.dropq == a.dropq && b.tableEmpty == a.tableEmpty
  {
    ss' := ss;
    if ss[|ss| - 1].prods[p] == MustNotify {
      ss' := OneMore(s, ss', Notify(p));
    }
    ss' := OneMore(s, ss', Leave(p));
  }
}
