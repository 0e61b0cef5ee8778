/**
  The priority channel as a whole: one receiving task, any number of sending threads, the map of
  queues and the atomic waker, in steps of single atomic operations and lock sections.
  Thread 0 of the waker is the receiver; every poll registers a waker of its own.
 */
module PriorityChannels {
  import opened Util
  import Runs
  import opened PriorityQueues
  import W = AtomicWakers

  type Entries = seq<Entry<nat>>

  /**
    Where `recv` stands. `closedBefore` records whether the senders were gone when the scan began,
    and `began` what was queued then.
   */
  datatype Rx =
    | Resting                                          // not polled yet
    | Scan(second: bool, n: nat, closedBefore: bool, began: Entries)   // read lock, the first n queues found empty
    | Flag(second: bool, closedBefore: bool)   // nothing found, the end flag still to be read
    | Registering
    | Unwinding                                        // cloning the waker panicked
    | Pending
    | Done(answer: Option<Item<nat>>)                  // returned Ready(answer)
    | Unwound                                          // the panic was passed on

  /** Where `send_sync` stands before it wakes. */
  datatype Tx =
    | Rest
    | CheckFlag(x: Item<nat>)
    | Look(x: Item<nat>)      // read lock: append, or find the priority absent
    | Create(x: Item<nat>)    // write lock: new queue

  /** `pushed` and `popped` record the items in the order in which they went in and out. */
  datatype State = State(
    m: W.Machine, rx: Rx, epoch: nat, entries: Entries, tx: map<nat, Tx>, ended: bool,
    pushed: seq<Item<nat>>, popped: seq<Item<nat>>)

  datatype Event =
    | Poll
    | RxStep
    | Waker(t: nat, panics: bool)
    | Send(t: nat, x: Item<nat>)
    | TxStep(t: nat)
    | DropSenders

  ghost predicate Init(s: State) {
    && W.Init(s.m) && s.rx == Resting && s.epoch == 0 && s.entries == [] && !s.ended && s.pushed == [] && s.popped == []
    && 0 !in s.tx && s.m.threads.Keys == s.tx.Keys + {0}
    && forall t | t in s.tx :: s.tx[t] == Rest
  }

  predicate PcIdle(m: W.Machine, t: nat) {
    t in m.threads && m.threads[t] == W.Idle
  }

  /** No poll is under way. */
  predicate AtCaller(rx: Rx) {
    rx.Resting? || rx.Pending? || rx.Done? || rx.Unwound?
  }

  predicate CanDo(s: State, e: Event) {
    match e
    case Poll => AtCaller(s.rx)
    case RxStep => s.rx.Scan? || ((s.rx.Flag? || s.rx.Registering? || s.rx.Unwinding?) && PcIdle(s.m, 0))
    case Waker(t, panics) => W.CanDo(s.m, W.Run(t, panics))
    case Send(t, _) => t in s.tx && s.tx[t] == Rest && PcIdle(s.m, t) && !s.ended
    case TxStep(t) => t in s.tx && s.tx[t] != Rest && PcIdle(s.m, t) && (s.tx[t].Create? ==> !s.rx.Scan?)
    case DropSenders => forall t | t in s.tx :: s.tx[t] == Rest && PcIdle(s.m, t)
  }

  function DoRx(s: State): State
    requires CanDo(s, RxStep)
  {
    match s.rx
    case Scan(second, n, before, _) =>
      if n >= |s.entries| then s.(rx := Flag(second, before))
      else if s.entries[n].queue == [] then s.(rx := s.rx.(n := n + 1))
      else
        var x := Item(s.entries[n].priority, s.entries[n].queue[0]);
        s.(entries := PopAtIndex(s.entries, n), popped := s.popped + [x], rx := Done(Some(x)))
    case Flag(second, before) =>
      if s.ended then s.(rx := Done(None))
      else if second then s.(rx := Pending)
      else s.(rx := Registering, m := W.Do(s.m, W.BeginRegister(0, s.epoch)))
    case Registering => s.(rx := Scan(true, 0, s.ended, s.entries))
    case Unwinding => s.(rx := Unwound)
    case _ => s
  }

  /** After the push the thread goes on to wake. */
  function AppendAndWake(s: State, t: nat, entries: Entries, x: Item<nat>): State
    requires PcIdle(s.m, t)
  {
    s.(entries := entries, pushed := s.pushed + [x], tx := s.tx[t := Rest], m := W.Do(s.m, W.BeginWake(t)))
  }

  function DoTx(s: State, t: nat): State
    requires CanDo(s, TxStep(t))
  {
    match s.tx[t]
    case CheckFlag(x) => s.(tx := s.tx[t := if s.ended then Rest else Look(x)])
    case Look(x) =>
      if ContainsKey(s.entries, x.priority) then AppendAndWake(s, t, PushTo(s.entries, x), x)
      else s.(tx := s.tx[t := Create(x)])
    case Create(x) => AppendAndWake(s, t, Insert(s.entries, x.priority, [x.value]), x)
    case Rest => s
  }

  function Do(s: State, e: Event): State
    requires CanDo(s, e)
  {
    match e
    case Poll => s.(rx := Scan(false, 0, s.ended, s.entries), epoch := s.epoch + 1)
    case RxStep => DoRx(s)
    case Waker(t, panics) =>
      s.(m := W.Do(s.m, W.Run(t, panics)),
         rx := if t == 0 && panics && s.m.threads[0].RegLocked? then Unwinding else s.rx)
    case Send(t, x) => s.(tx := s.tx[t := CheckFlag(x)])
    case TxStep(t) => DoTx(s, t)
    case DropSenders => s.(ended := true)
  }

  ghost predicate Step(s: State, s': State) {
    exists e :: CanDo(s, e) && s' == Do(s, e)
  }

  // ---------------------------------------------------------------- invariants

  /** Thread 0 only registers, the others only wake. */
  ghost predicate Roles(m: W.Machine) {
    && 0 in m.threads
    && (m.threads[0] == W.Idle || W.InRegister(m.threads[0]))
    && W.OnlyRegistrant(m, 0)
  }

  /** The registration of the current poll is on its way or has left the waker in good hands. */
  ghost predicate Registered(m: W.Machine, rx: Rx, epoch: nat)
    requires 0 in m.threads
  {
    && (!rx.Registering? && !rx.Unwinding? ==> m.threads[0] == W.Idle)
    && (rx.Registering? ==> || m.threads[0] == W.RegStart(epoch)
                            || m.threads[0] == W.RegLocked(epoch)
                            || (Stored(m.threads[0]) && W.Kept(m, epoch, 0)))
    && (Rescanning(rx) ==> W.Kept(m, epoch, 0))
  }

  predicate Stored(pc: W.Pc) {
    !pc.RegStart? && !pc.RegLocked?
  }

  /** After the registration. */
  predicate Rescanning(rx: Rx) {
    (rx.Scan? && rx.second) || (rx.Flag? && rx.second) || rx.Pending?
  }

  /** How many queues have been looked at since the registration. */
  function Scanned(rx: Rx, entries: Entries): int {
    if rx.Scan? then rx.n else |entries|
  }

  /** Some thread is about to set the WAKING bit, or has set it and not yet taken the cell. */
  ghost predicate WakeComing(m: W.Machine) {
    m.word == W.WAKING || exists t :: t in m.threads && m.threads[t] == W.WakeStart
  }

  predicate SomethingBefore(entries: Entries, n: int) {
    exists k | 0 <= k < n && k < |entries| :: entries[k].queue != []
  }

  /** A value that arrives behind the second scan has a wake behind it. */
  ghost predicate Covered(m: W.Machine, rx: Rx, epoch: nat, entries: Entries) {
    Rescanning(rx) && m.cell == Some(epoch) && SomethingBefore(entries, Scanned(rx, entries)) ==> WakeComing(m)
  }

  /** Once the senders are gone, none is sending, and what a later scan found empty stays so. */
  ghost predicate Over(rx: Rx, entries: Entries, tx: map<nat, Tx>, ended: bool) {
    && (ended ==> forall t | t in tx :: tx[t] == Rest)
    && (rx.Scan? && rx.closedBefore ==> ended && !SomethingBefore(entries, rx.n))
    && (rx.Flag? && rx.closedBefore ==> ended && !SomethingBefore(entries, |entries|))
  }

  /** A thread that is still to push is not waking. */
  ghost predicate TxIdle(m: W.Machine, tx: map<nat, Tx>) {
    && m.threads.Keys == tx.Keys + {0} && 0 !in tx
    && forall t | t in tx && tx[t] != Rest :: m.threads[t] == W.Idle
  }

  ghost predicate Inv(s: State) {
    && W.Inv(s.m) && Roles(s.m) && TxIdle(s.m, s.tx)
    && Registered(s.m, s.rx, s.epoch)
    && Covered(s.m, s.rx, s.epoch, s.entries)
    && Over(s.rx, s.entries, s.tx, s.ended)
  }

  /** The receiver has registered and found nothing, and its waker has not been called. */
  predicate Asleep(s: State) {
    s.rx.Pending? && s.epoch !in s.m.woken
  }

  predicate NonEmpty(s: State) {
    SomethingBefore(s.entries, |s.entries|)
  }

  // ---------------------------------------------------------------- steps of the waker

  /** With one registrant, its first step finds the word WAITING or WAKING. */
  lemma RegisterSeesNoRegistrant(m: W.Machine)
    requires W.Inv(m) && Roles(m) && !W.Inside(m.threads[0])
    ensures m.word == W.WAITING || m.word == W.WAKING
  {
    if m.word != W.WAITING {
      var u :| u in m.threads && W.Inside(m.threads[u]);
      assert u != 0 && W.Waking(m.threads[u]) && W.Matches(m.threads[u], m.word, m.cell);
    }
  }

  lemma AdvanceKeepsRole(m: W.Machine, pc: W.Pc, panics: bool)
    ensures var pc' := W.Advance(m, pc, panics).3;
            && (W.InRegister(pc) ==> pc' == W.Idle || W.InRegister(pc'))
            && (!W.InRegister(pc) ==> !W.InRegister(pc'))
            && (Stored(pc) ==> Stored(pc'))
  {
  }

  lemma WakerKeepsRoles(m: W.Machine, t: nat, panics: bool)
    requires Roles(m) && W.CanDo(m, W.Run(t, panics))
    ensures Roles(W.Do(m, W.Run(t, panics)))
  {
    AdvanceKeepsRole(m, m.threads[t], panics);
  }

  /** The two steps by which the receiver's waker gets into the cell, or is called because a wake is under way. */
  lemma RegisterStores(m: W.Machine, e: nat, panics: bool)
    requires W.Inv(m) && Roles(m) && (m.threads[0] == W.RegStart(e) || m.threads[0] == W.RegLocked(e))
    ensures var m' := W.Do(m, W.Run(0, panics));
            || m'.threads[0] == W.RegLocked(e) || (panics && m'.threads[0] == W.RegPanicked)
            || (Stored(m'.threads[0]) && W.Kept(m', e, 0))
  {
    if m.threads[0] == W.RegStart(e) {
      RegisterSeesNoRegistrant(m);
      assert m.word == W.WAKING ==> W.WillWake(W.Do(m, W.Run(0, panics)).threads[0], e);
    }
  }

  lemma WakerKeepsRegistered(s: State, t: nat, panics: bool)
    requires W.Inv(s.m) && Roles(s.m) && Registered(s.m, s.rx, s.epoch) && CanDo(s, Waker(t, panics))
    ensures var s' := Do(s, Waker(t, panics)); 0 in s'.m.threads && Registered(s'.m, s'.rx, s'.epoch)
  {
    var m, e := s.m, s.epoch;
    AdvanceKeepsRole(m, m.threads[t], panics);
    if t == 0 && (m.threads[0] == W.RegStart(e) || m.threads[0] == W.RegLocked(e)) {
      RegisterStores(m, e, panics);
    } else if W.Kept(m, e, 0) && (t == 0 ==> Stored(m.threads[0])) {
      W.KeptUntilReplaced(m, W.Run(t, panics), e, 0);
    }
  }

  lemma WakeStaysComing(m: W.Machine, t: nat, panics: bool)
    requires W.Inv(m) && Roles(m) && m.threads[0] == W.Idle && W.CanDo(m, W.Run(t, panics))
    ensures var m' := W.Do(m, W.Run(t, panics));
            && (m'.cell == m.cell || m'.cell == None)
            && (WakeComing(m) ==> m'.cell == None || WakeComing(m'))
  {
    RegisterSeesNoRegistrant(m);
    W.WordBits(m.word);
    var m', pc := W.Do(m, W.Run(t, panics)), m.threads[t];
    assert !W.InRegister(pc);
    if WakeComing(m) && m.word != W.WAKING {
      var u :| u in m.threads && m.threads[u] == W.WakeStart;
      assert m'.word == W.WAKING || (u in m'.threads && m'.threads[u] == W.WakeStart);
    }
  }

  lemma WakerKeepsCovered(s: State, t: nat, panics: bool)
    requires W.Inv(s.m) && Roles(s.m) && Registered(s.m, s.rx, s.epoch) && Covered(s.m, s.rx, s.epoch, s.entries)
    requires CanDo(s, Waker(t, panics))
    ensures var s' := Do(s, Waker(t, panics)); Covered(s'.m, s'.rx, s'.epoch, s'.entries)
  {
    if s.m.threads[0] == W.Idle {
      WakeStaysComing(s.m, t, panics);
    }
  }

  lemma WakerKeepsTxIdle(s: State, t: nat, panics: bool)
    requires TxIdle(s.m, s.tx) && CanDo(s, Waker(t, panics))
    ensures TxIdle(Do(s, Waker(t, panics)).m, s.tx)
  {
  }

  lemma WakerKeepsInv(s: State, t: nat, panics: bool)
    requires Inv(s) && CanDo(s, Waker(t, panics))
    ensures Inv(Do(s, Waker(t, panics)))
  {
    W.StepKeepsInv(s.m, W.Run(t, panics));
    WakerKeepsRoles(s.m, t, panics);
    WakerKeepsRegistered(s, t, panics);
    WakerKeepsCovered(s, t, panics);
    WakerKeepsTxIdle(s, t, panics);
  }

  // ---------------------------------------------------------------- steps of the receiver and the senders

  /** The next queue is empty, or its first value ends the scan. */
  lemma ScanKeepsCovered(s: State)
    requires Covered(s.m, s.rx, s.epoch, s.entries) && s.rx.Scan?
    ensures var s' := DoRx(s); Covered(s'.m, s'.rx, s'.epoch, s'.entries)
  {
  }

  lemma ScanKeepsOver(s: State)
    requires Over(s.rx, s.entries, s.tx, s.ended) && s.rx.Scan?
    ensures var s' := DoRx(s); Over(s'.rx, s'.entries, s'.tx, s'.ended)
  {
  }

  lemma ScanKeepsRegistered(s: State)
    requires 0 in s.m.threads && Registered(s.m, s.rx, s.epoch) && s.rx.Scan?
    ensures var s' := DoRx(s); 0 in s'.m.threads && Registered(s'.m, s'.rx, s'.epoch)
  {
  }

  lemma ScanKeepsInv(s: State)
    requires Inv(s) && s.rx.Scan?
    ensures Inv(DoRx(s))
  {
    ScanKeepsCovered(s);
    ScanKeepsOver(s);
    ScanKeepsRegistered(s);
  }

  lemma FlagKeepsInv(s: State)
    requires Inv(s) && s.rx.Flag? && CanDo(s, RxStep)
    ensures Inv(DoRx(s))
  {
    W.StepKeepsInv(s.m, W.BeginRegister(0, s.epoch));
  }

  lemma RxKeepsInv(s: State)
    requires Inv(s) && CanDo(s, RxStep)
    ensures Inv(DoRx(s))
  {
    if s.rx.Scan? {
      ScanKeepsInv(s);
    } else if s.rx.Flag? {
      FlagKeepsInv(s);
    }
  }

  /** However the map changes, the thread that changed it is now about to wake. */
  lemma AppendKeepsInv(s: State, t: nat, entries: Entries, x: Item<nat>)
    requires Inv(s) && CanDo(s, TxStep(t))
    ensures Inv(AppendAndWake(s, t, entries, x))
  {
    var e := W.BeginWake(t);
    W.StepKeepsInv(s.m, e);
    var m' := W.Do(s.m, e);
    assert m'.threads[t] == W.WakeStart && t in m'.threads && t != 0;
    assert WakeComing(m');
    assert !s.ended;
    if W.Kept(s.m, s.epoch, 0) {
      W.KeptUntilReplaced(s.m, e, s.epoch, 0);
    }
  }

  lemma TxKeepsInv(s: State, t: nat)
    requires Inv(s) && CanDo(s, TxStep(t))
    ensures Inv(DoTx(s, t))
  {
    match s.tx[t]
    case Look(x) =>
      if ContainsKey(s.entries, x.priority) {
        AppendKeepsInv(s, t, PushTo(s.entries, x), x);
      }
    case Create(x) => AppendKeepsInv(s, t, Insert(s.entries, x.priority, [x.value]), x);
    case _ =>
  }

  lemma StepKeepsInv(s: State, e: Event)
    requires Inv(s) && CanDo(s, e)
    ensures Inv(Do(s, e))
  {
    match e
    case RxStep => RxKeepsInv(s);
    case Waker(t, panics) => WakerKeepsInv(s, t, panics);
    case TxStep(t) => TxKeepsInv(s, t);
    case _ =>
  }

  // ---------------------------------------------------------------- theorems

  lemma EventKeepsInv(s: State, s': State)
    requires Inv(s) && Step(s, s')
    ensures Inv(s')
  {
    var e :| CanDo(s, e) && s' == Do(s, e);
    StepKeepsInv(s, e);
  }

  lemma {:induction false} EveryRun(ss: seq<State>, i: nat)
    requires Runs.Run(Init, Step, ss) && i < |ss|
    ensures Inv(ss[i])
  {
    if i == 0 {
    } else {
      EveryRun(ss, i - 1);
      Runs.StepAt(Init, Step, ss, i);
      EventKeepsInv(ss[i - 1], ss[i]);
    }
  }

  /**
    No message wake is lost: while the receiver sleeps on a queue that has something, a sender has
    pushed and is still to do its fetch_or with the receiver's waker in the cell, or a thread
    owns the taking of that waker, or a thread holds it and is still to call it.
   */
  lemma NoLostWake(ss: seq<State>, i: nat)
    requires Runs.Run(Init, Step, ss) && i < |ss| && Asleep(ss[i]) && NonEmpty(ss[i])
    ensures var m, w := ss[i].m, ss[i].epoch;
            || (m.cell == Some(w) && exists t :: t in m.threads && t != 0 && m.threads[t] == W.WakeStart)
            || (m.cell == Some(w) && exists t :: t in m.threads && t != 0 && m.threads[t] == W.WakeLocked)
            || W.SomeoneWillWake(m, w)
  {
    EveryRun(ss, i);
    var m, w := ss[i].m, ss[i].epoch;
    if m.cell == Some(w) && m.word == W.WAKING {
      var t :| t in m.threads && W.Inside(m.threads[t]);
      assert W.Matches(m.threads[t], m.word, m.cell);
      assert m.threads[t] == W.WakeLocked;
    }
  }

  /**
    So when every call of a sender has returned, the sleeping receiver has been woken or there is
    nothing to receive.
   */
  lemma WokenInTheEnd(ss: seq<State>, i: nat)
    requires Runs.Run(Init, Step, ss) && i < |ss|
    requires ss[i].rx.Pending? && NonEmpty(ss[i])
    requires forall t | t in ss[i].m.threads :: ss[i].m.threads[t] == W.Idle
    ensures ss[i].epoch in ss[i].m.woken
  {
    if Asleep(ss[i]) {
      NoLostWake(ss, i);
    }
  }

  /** A sender's check of the end flag never fails: the flag is set only when no sender is left. */
  lemma SendNeverRefuses(ss: seq<State>, i: nat, t: nat)
    requires Runs.Run(Init, Step, ss) && i < |ss|
    requires t in ss[i].tx && ss[i].tx[t].CheckFlag?
    ensures CanDo(ss[i], TxStep(t)) && Do(ss[i], TxStep(t)).tx[t] == Look(ss[i].tx[t].x)
  {
    EveryRun(ss, i);
  }

  // ---------------------------------------------------------------- every poll's waker is new

  predicate Below(pc: W.Pc, n: nat) {
    match pc
    case RegStart(w) => w <= n
    case RegLocked(w) => w <= n
    case RegStored(p) => p.Some? ==> p.value <= n
    case RegHandover(p, _) => p.Some? ==> p.value <= n
    case RegTaken(w, p, _) => (w.Some? ==> w.value <= n) && (p.Some? ==> p.value <= n)
    case RegWake(p, w) => (w.Some? ==> w.value <= n) && (p.Some? ==> p.value <= n)
    case RegSelfWake(w) => w <= n
    case WakeTaken(w) => w.Some? ==> w.value <= n
    case WakeCall(w) => w <= n
    case _ => true
  }

  ghost predicate Fresh(m: W.Machine, n: nat) {
    && (m.cell.Some? ==> m.cell.value <= n)
    && (forall w | w in m.woken :: w <= n)
    && (forall t | t in m.threads :: Below(m.threads[t], n))
  }

  lemma AdvanceStaysBelow(m: W.Machine, pc: W.Pc, panics: bool, n: nat)
    requires Below(pc, n) && (m.cell.Some? ==> m.cell.value <= n) && forall w | w in m.woken :: w <= n
    ensures var (word, cell, woken, pc') := W.Advance(m, pc, panics);
            Below(pc', n) && (cell.Some? ==> cell.value <= n) && forall w | w in woken :: w <= n
  {
  }

  lemma WakerStaysFresh(m: W.Machine, e: W.Event, n: nat)
    requires Fresh(m, n) && W.CanDo(m, e) && (e.BeginRegister? ==> e.w <= n)
    ensures Fresh(W.Do(m, e), n)
  {
    if e.Run? {
      AdvanceStaysBelow(m, m.threads[e.t], e.panics, n);
    }
  }

  lemma LaterIsFresh(m: W.Machine, n: nat)
    requires Fresh(m, n)
    ensures Fresh(m, n + 1)
  {
    forall t | t in m.threads ensures Below(m.threads[t], n + 1) {
      assert Below(m.threads[t], n);
    }
  }

  ghost predicate FreshNow(s: State) {
    Fresh(s.m, s.epoch)
  }

  lemma StepKeepsFresh(s: State, e: Event)
    requires FreshNow(s) && CanDo(s, e)
    ensures FreshNow(Do(s, e))
  {
    match e
    case Waker(t, panics) => WakerStaysFresh(s.m, W.Run(t, panics), s.epoch);
    case Poll => LaterIsFresh(s.m, s.epoch);
    case RxStep =>
      if s.rx.Flag? {
        WakerStaysFresh(s.m, W.BeginRegister(0, s.epoch), s.epoch);
      }
    case TxStep(t) => WakerStaysFresh(s.m, W.BeginWake(t), s.epoch);
    case _ =>
  }

  /** A poll starts with a waker that nobody has, or has ever called: being notified means since the poll began. */
  lemma PollStartsUnnotified(ss: seq<State>, i: nat)
    requires Runs.Run(Init, Step, ss) && i < |ss| && CanDo(ss[i], Poll)
    ensures var s' := Do(ss[i], Poll); !W.Kept(s'.m, s'.epoch, 0)
  {
    forall s, s' | FreshNow(s) && Step(s, s') ensures FreshNow(s') {
      var e :| CanDo(s, e) && s' == Do(s, e);
      StepKeepsFresh(s, e);
    }
    Runs.Invariant(Init, Step, FreshNow, ss, i);
  }
}
