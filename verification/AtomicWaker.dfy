/**
  The atomic waker: a word with two bits that lock the waker cell, and any number of threads
  that register and wake. First the machine of its atomic steps, then the source's methods as
  code, with other threads let in after every atomic step.
 */
module AtomicWakers {
  import opened Util
  import Runs

  type Word = bv64

  const WAITING: Word := 0
  const REGISTERING: Word := 1
  const WAKING: Word := 2
  const BOTH: Word := REGISTERING | WAKING

  /** Wakers are told apart by number. */
  type Waker = nat

  /** What a thread is about to do. */
  datatype Pc =
    | Idle
    | RegStart(w: Waker)                 // compare_exchange(WAITING, REGISTERING)
    | RegLocked(w: Waker)                // clone the waker, swap it into the cell
    | RegStored(prev: Option<Waker>)      // compare_exchange(REGISTERING, WAITING)
    | RegPanicked                        // the same, after the clone panicked
    | RegHandover(prev: Option<Waker>, panicked: bool)                        // take the cell
    | RegTaken(waker: Option<Waker>, prev: Option<Waker>, panicked: bool)     // swap(WAITING)
    | RegWake(prev: Option<Waker>, waker: Option<Waker>)                      // wake these two
    | RegSelfWake(w: Waker)              // wake the waker that could not be stored
    | WakeStart                          // fetch_or(WAKING)
    | WakeLocked                         // take the cell
    | WakeTaken(taken: Option<Waker>)    // fetch_and(!WAKING)
    | WakeCall(w: Waker)                 // wake it

  /** `woken` records the calls of wakers, `wakes` how often a thread has done its fetch_or. */
  datatype Machine = Machine(
    word: Word, cell: Option<Waker>, threads: map<nat, Pc>, woken: multiset<Waker>, wakes: nat)

  datatype Event =
    | BeginRegister(t: nat, w: Waker)
    | BeginWake(t: nat)
    | Run(t: nat, panics: bool)   // `panics` says whether cloning the waker does

  ghost predicate Init(m: Machine) {
    && m.word == WAITING && m.cell == None && m.woken == multiset{} && m.wakes == 0
    && forall t | t in m.threads :: m.threads[t] == Idle
  }

  predicate CanDo(m: Machine, e: Event) {
    match e
    case Run(t, _) => t in m.threads && m.threads[t] != Idle
    case _ => e.t in m.threads && m.threads[e.t] == Idle
  }

  function Woken(woken: multiset<Waker>, w: Option<Waker>): multiset<Waker> {
    if w.Some? then woken + multiset{w.value} else woken
  }

  /** The word, the cell, the wakers called and the thread's position after its next step. */
  function Advance(m: Machine, pc: Pc, panics: bool): (Word, Option<Waker>, multiset<Waker>, Pc) {
    match pc
    case Idle => (m.word, m.cell, m.woken, Idle)
    case RegStart(w) =>
      if m.word == WAITING then (REGISTERING, m.cell, m.woken, RegLocked(w))
      else if m.word == WAKING then (m.word, m.cell, m.woken, RegSelfWake(w))
      else (m.word, m.cell, m.woken, Idle)
    case RegLocked(w) =>
      if panics then (m.word, m.cell, m.woken, RegPanicked)
      else (m.word, Some(w), m.woken, RegStored(m.cell))
    case RegStored(prev) =>
      if m.word == REGISTERING then (WAITING, m.cell, m.woken, Idle)
      else (m.word, m.cell, m.woken, RegHandover(prev, false))
    case RegPanicked =>
      if m.word == REGISTERING then (WAITING, m.cell, m.woken, Idle)
      else (m.word, m.cell, m.woken, RegHandover(None, true))
    case RegHandover(prev, p) => (m.word, None, m.woken, RegTaken(m.cell, prev, p))
    case RegTaken(waker, prev, p) =>
      (WAITING, m.cell, m.woken, if p then RegWake(waker, None) else RegWake(prev, waker))
    case RegWake(prev, waker) =>
      if prev.Some? then (m.word, m.cell, Woken(m.woken, prev), RegWake(None, waker))
      else (m.word, m.cell, Woken(m.woken, waker), Idle)
    case RegSelfWake(w) => (m.word, m.cell, m.woken + multiset{w}, Idle)
    case WakeStart => (m.word | WAKING, m.cell, m.woken, if m.word == WAITING then WakeLocked else Idle)
    case WakeLocked => (m.word, None, m.woken, WakeTaken(m.cell))
    case WakeTaken(w) => (m.word & !WAKING, m.cell, m.woken, if w.Some? then WakeCall(w.value) else Idle)
    case WakeCall(w) => (m.word, m.cell, m.woken + multiset{w}, Idle)
  }

  function Do(m: Machine, e: Event): Machine
    requires CanDo(m, e)
  {
    match e
    case BeginRegister(t, w) => m.(threads := m.threads[t := RegStart(w)])
    case BeginWake(t) => m.(threads := m.threads[t := WakeStart])
    case Run(t, panics) =>
      var (word, cell, woken, pc) := Advance(m, m.threads[t], panics);
      Machine(word, cell, m.threads[t := pc], woken, if m.threads[t].WakeStart? then m.wakes + 1 else m.wakes)
  }

  ghost predicate Step(m: Machine, m': Machine) {
    exists e :: CanDo(m, e) && m' == Do(m, e)
  }

  /** In the registering critical section. */
  predicate Registering(pc: Pc) {
    pc.RegLocked? || pc.RegStored? || pc.RegPanicked? || HandingOver(pc)
  }

  /** A concurrent wake was noticed. */
  predicate HandingOver(pc: Pc) {
    pc.RegHandover? || pc.RegTaken?
  }

  /** In the waking critical section. */
  predicate Waking(pc: Pc) {
    pc.WakeLocked? || pc.WakeTaken?
  }

  predicate Inside(pc: Pc) {
    Registering(pc) || Waking(pc)
  }

  /** The word tells who is inside; a thread that took the cell left it empty. */
  predicate Matches(pc: Pc, word: Word, cell: Option<Waker>) {
    && (Registering(pc) ==> word == REGISTERING || word == BOTH)
    && (HandingOver(pc) ==> word == BOTH)
    && (Waking(pc) ==> word == WAKING)
    && (pc.RegTaken? || pc.WakeTaken? ==> cell == None)
    && (pc.RegTaken? && pc.panicked ==> pc.prev == None)
    && (pc.RegHandover? && pc.panicked ==> pc.prev == None)
  }

  ghost predicate Inv(m: Machine) {
    && (forall t | t in m.threads :: Matches(m.threads[t], m.word, m.cell))
    && (forall t, u | t in m.threads && u in m.threads && Inside(m.threads[t]) && Inside(m.threads[u]) :: t == u)
    && (m.word != WAITING ==> exists t :: t in m.threads && Inside(m.threads[t]))
    && IsWord(m.word)
  }

  lemma WordBits(w: Word)
    requires IsWord(w)
    ensures w | WAKING == (if w == WAITING || w == WAKING then WAKING else BOTH)
    ensures w == WAKING ==> w & !WAKING == WAITING
    ensures BOTH == 3
  {
  }

  predicate IsWord(w: Word) {
    w == WAITING || w == REGISTERING || w == WAKING || w == BOTH
  }

  /** A thread enters only from WAITING, and leaves only to WAITING. */
  lemma EntersAndLeaves(m: Machine, pc: Pc, panics: bool)
    requires IsWord(m.word) && Matches(pc, m.word, m.cell)
    ensures var (word, cell, woken, pc') := Advance(m, pc, panics);
            && IsWord(word) && Matches(pc', word, cell)
            && (Inside(pc') && !Inside(pc) ==> m.word == WAITING)
            && (Inside(pc) && !Inside(pc') ==> word == WAITING)
            && (!Inside(pc) && !Inside(pc') && m.word == WAITING ==> word == WAITING)
  {
    WordBits(m.word);
  }

  /**
    A thread that stays outside leaves the cell alone and adds at most the WAKING bit to a word that
    is not WAITING.
   */
  lemma OutsideIsHarmless(m: Machine, pc: Pc, panics: bool, inside: Pc)
    requires IsWord(m.word) && !Inside(pc) && !Inside(Advance(m, pc, panics).3)
    requires Inside(inside) && Matches(inside, m.word, m.cell)
    ensures var (word, cell, woken, pc') := Advance(m, pc, panics); Matches(inside, word, cell) && cell == m.cell
  {
    WordBits(m.word);
  }

  lemma RunKeepsInv(m: Machine, t: nat, panics: bool)
    requires Inv(m) && CanDo(m, Run(t, panics))
    ensures Inv(Do(m, Run(t, panics)))
  {
    var m', pc := Do(m, Run(t, panics)), m.threads[t];
    EntersAndLeaves(m, pc, panics);
    forall u | u in m.threads && u != t ensures Matches(m.threads[u], m'.word, m'.cell) {
      if Inside(m.threads[u]) {
        assert !Inside(pc) && m.word != WAITING;
        OutsideIsHarmless(m, pc, panics, m.threads[u]);
      }
    }
    if Inside(m'.threads[t]) {
      assert t in m'.threads;
    } else if m'.word != WAITING {
      var u :| u in m.threads && Inside(m.threads[u]);
      assert u in m'.threads && m'.threads[u] == m.threads[u];
    }
  }

  lemma StepKeepsInv(m: Machine, e: Event)
    requires Inv(m) && CanDo(m, e)
    ensures Inv(Do(m, e))
  {
    if e.Run? {
      RunKeepsInv(m, e.t, e.panics);
    } else {
      BeginKeepsInv(m, e.t, if e.BeginWake? then WakeStart else RegStart(e.w));
    }
  }

  /** A thread that begins stays outside. */
  lemma BeginKeepsInv(m: Machine, t: nat, pc: Pc)
    requires Inv(m) && t in m.threads && m.threads[t] == Idle && (pc.WakeStart? || pc.RegStart?)
    ensures Inv(m.(threads := m.threads[t := pc]))
  {
    var m' := m.(threads := m.threads[t := pc]);
    if m.word != WAITING {
      var u :| u in m.threads && Inside(m.threads[u]);
      assert u in m'.threads && m'.threads[u] == m.threads[u];
    }
  }

  // ---------------------------------------------------------------- theorems

  lemma EveryRun(ms: seq<Machine>, i: nat)
    requires Runs.Run(Init, Step, ms) && i < |ms|
    ensures Inv(ms[i])
  {
    forall m, m' | Inv(m) && Step(m, m') ensures Inv(m') {
      var e :| CanDo(m, e) && m' == Do(m, e);
      StepKeepsInv(m, e);
    }
    Runs.Invariant(Init, Step, Inv, ms, i);
  }

  /**
    At most one thread is in a critical section, the word tells of which kind, and it is WAITING
    exactly when there is none.
   */
  lemma CellExclusion(ms: seq<Machine>, i: nat, t: nat, u: nat)
    requires Runs.Run(Init, Step, ms) && i < |ms| && t in ms[i].threads && u in ms[i].threads
    ensures var m := ms[i];
            && (Inside(m.threads[t]) && Inside(m.threads[u]) ==> t == u)
            && (Registering(m.threads[t]) ==> m.word == REGISTERING || m.word == BOTH)
            && (Waking(m.threads[t]) ==> m.word == WAKING)
            && (m.word == WAITING <==> forall v | v in m.threads :: !Inside(m.threads[v]))
  {
    EveryRun(ms, i);
    if v :| v in ms[i].threads && Inside(ms[i].threads[v]) {
      assert Matches(ms[i].threads[v], ms[i].word, ms[i].cell);
    }
  }

  /**
    Only a thread inside touches the cell, and every way out of a critical section - with or
    without a missed wake, and after a panicking clone - leaves the word WAITING with nobody inside.
   */
  lemma ReleasesUnlock(m: Machine, t: nat, panics: bool)
    requires Inv(m) && CanDo(m, Run(t, panics))
    ensures var m' := Do(m, Run(t, panics));
            && (m'.cell != m.cell ==> Inside(m.threads[t]))
            && (Inside(m.threads[t]) && !Inside(m'.threads[t]) ==>
                  m'.word == WAITING && forall u | u in m'.threads :: !Inside(m'.threads[u]))
            && (m.threads[t].RegTaken? ==> m.word == BOTH && m'.word == WAITING)
            && (m.threads[t].WakeTaken? ==> m.word == WAKING && m'.word == WAITING)
            && ((m.threads[t].RegStored? || m.threads[t].RegPanicked?) && Inside(m'.threads[t]) ==> m.word == BOTH)
  {
    EntersAndLeaves(m, m.threads[t], panics);
    RunKeepsInv(m, t, panics);
    WordBits(m.word);
  }

  /** The thread holds `w` and is going to call it. */
  predicate WillWake(pc: Pc, w: Waker) {
    match pc
    case RegHandover(prev, panicked) => prev == Some(w) && !panicked
    case RegTaken(waker, prev, panicked) => waker == Some(w) || (prev == Some(w) && !panicked)
    case RegWake(prev, waker) => prev == Some(w) || waker == Some(w)
    case RegSelfWake(x) => x == w
    case WakeTaken(taken) => taken == Some(w)
    case WakeCall(x) => x == w
    case _ => false
  }

  ghost predicate SomeoneWillWake(m: Machine, w: Waker) {
    exists t :: t in m.threads && WillWake(m.threads[t], w)
  }

  /**
    `w` was called more often than `n` times, or exactly as often and is in the cell or in the hands
    of a thread that will call it.
   */
  ghost predicate Kept(m: Machine, w: Waker, n: nat) {
    n <= m.woken[w] && (m.woken[w] > n || m.cell == Some(w) || SomeoneWillWake(m, w))
  }

  ghost predicate KeepsKept(m: Machine, m': Machine) {
    forall w: Waker, n: nat | Kept(m, w, n) :: Kept(m', w, n)
  }

  /** One step: whoever holds `w` calls it or still holds it, and whoever empties the cell holds what was there. */
  lemma HandsOn(m: Machine, pc: Pc, panics: bool, w: Waker)
    ensures var (word, cell, woken, pc') := Advance(m, pc, panics);
            && m.woken <= woken
            && (WillWake(pc, w) ==> woken[w] > m.woken[w] || WillWake(pc', w))
            && (m.cell == Some(w) && (pc.RegLocked? ==> panics) ==> cell == Some(w) || WillWake(pc', w))
  {
    match pc
    case RegHandover(prev, p) =>
    case RegTaken(waker, prev, p) =>
    case RegWake(prev, waker) =>
    case _ =>
  }

  /** A waker in the cell is not lost: only storing another one can displace it. */
  lemma KeptUntilReplaced(m: Machine, e: Event, w: Waker, n: nat)
    requires CanDo(m, e) && Kept(m, w, n)
    requires e.Run? ==> m.threads[e.t].RegLocked? ==> e.panics
    ensures Kept(Do(m, e), w, n)
  {
    var m' := Do(m, e);
    if e.Run? {
      HandsOn(m, m.threads[e.t], e.panics, w);
    }
    if m.woken[w] > n {
    } else if u :| u in m.threads && WillWake(m.threads[u], w) {
      assert u in m'.threads && (m'.woken[w] > n || WillWake(m'.threads[u], w));
    } else {
      assert e.t in m'.threads && (m'.cell == Some(w) || WillWake(m'.threads[e.t], w));
    }
  }

  /** A registering thread has displaced `w` from the cell. */
  predicate Displaced(pc: Pc, w: Waker) {
    pc.RegStored? && pc.prev == Some(w)
  }

  predicate WakingBit(word: Word) {
    word == WAKING || word == BOTH
  }

  /**
    A wake has reached `w`: it was called more than `n` times, or whoever holds it, or the thread
    inside, will call it.
   */
  ghost predicate Claimed(m: Machine, w: Waker, n: nat) {
    && n <= m.woken[w]
    && (m.woken[w] > n || SomeoneWillWake(m, w) || Marked(m, w))
  }

  /** `w` is in the cell, or displaced from it, and the WAKING bit is set. */
  ghost predicate Marked(m: Machine, w: Waker) {
    WakingBit(m.word) && (m.cell == Some(w) || exists t :: t in m.threads && Displaced(m.threads[t], w))
  }

  ghost predicate KeepsClaims(m: Machine, m': Machine) {
    forall w: Waker, n: nat | Claimed(m, w, n) :: Claimed(m', w, n)
  }

  /** What the WAKING bit promises of the cell and of a displaced waker, no step takes back. */
  lemma ClaimHandsOn(m: Machine, pc: Pc, panics: bool, w: Waker)
    requires WakingBit(m.word) && Matches(pc, m.word, m.cell)
    ensures var (word, cell, woken, pc') := Advance(m, pc, panics);
            && (m.cell == Some(w) ==> WillWake(pc', w) || (WakingBit(word) && (cell == Some(w) || Displaced(pc', w))))
            && (Displaced(pc, w) ==> WillWake(pc', w))
            && (!Inside(pc) ==> WakingBit(word))
  {
    WordBits(m.word);
  }

  lemma MarkedOrHeld(m: Machine, e: Event, w: Waker)
    requires Inv(m) && CanDo(m, e) && Marked(m, w)
    ensures Marked(Do(m, e), w) || SomeoneWillWake(Do(m, e), w)
  {
    var m' := Do(m, e);
    if e.Run? {
      ClaimHandsOn(m, m.threads[e.t], e.panics, w);
      assert e.t in m'.threads;
    }
    if u :| u in m.threads && Displaced(m.threads[u], w) {
      assert u in m'.threads && (u != e.t ==> m'.threads[u] == m.threads[u]);
    }
  }

  /** No step of any thread, registering ones included, takes a claim back. */
  lemma ClaimedForGood(m: Machine, e: Event, w: Waker, n: nat)
    requires Inv(m) && CanDo(m, e) && Claimed(m, w, n)
    ensures Claimed(Do(m, e), w, n)
  {
    var m' := Do(m, e);
    if e.Run? {
      HandsOn(m, m.threads[e.t], e.panics, w);
    }
    if u :| u in m.threads && WillWake(m.threads[u], w) {
      assert u in m'.threads && (m'.woken[w] > n || WillWake(m'.threads[u], w));
    } else if Marked(m, w) {
      MarkedOrHeld(m, e, w);
    }
  }

  /** The first step of a wake claims the waker in the cell. */
  lemma WakeClaims(m: Machine, t: nat, w: Waker)
    requires Inv(m) && t in m.threads && m.threads[t] == WakeStart && m.cell == Some(w)
    ensures Claimed(Do(m, Run(t, false)), w, m.woken[w])
  {
    WordBits(m.word);
  }

  lemma ClaimedNext(ms: seq<Machine>, j: nat, w: Waker, n: nat)
    requires Runs.Run(Init, Step, ms) && j + 1 < |ms| && Claimed(ms[j], w, n)
    ensures Claimed(ms[j + 1], w, n)
  {
    EveryRun(ms, j);
    assert Step(ms[j], ms[j + 1]);
    var e :| CanDo(ms[j], e) && ms[j + 1] == Do(ms[j], e);
    ClaimedForGood(ms[j], e, w, n);
  }

  lemma {:induction false} StaysClaimed(ms: seq<Machine>, i: nat, j: nat, w: Waker, n: nat)
    requires Runs.Run(Init, Step, ms) && i <= j < |ms| && Claimed(ms[i], w, n)
    ensures Claimed(ms[j], w, n)
    decreases j - i
  {
    if i == j {
    } else {
      ClaimedNext(ms, i, w, n);
      StaysClaimed(ms, i + 1, j, w, n);
    }
  }

  /**
    A wake reaches the waker that is in the cell when its fetch_or runs, however many threads
    register and wake around it: once all threads are done, that waker has been called at least once more.
   */
  lemma WakeIsNeverLost(ms: seq<Machine>, i: nat, j: nat, t: nat, w: Waker)
    requires Runs.Run(Init, Step, ms) && i < j < |ms|
    requires t in ms[i].threads && ms[i].threads[t] == WakeStart && ms[i].cell == Some(w)
    requires ms[i + 1] == Do(ms[i], Run(t, false))
    requires forall u | u in ms[j].threads :: ms[j].threads[u] == Idle
    ensures ms[j].woken[w] > ms[i].woken[w]
  {
    EveryRun(ms, i);
    WakeClaims(ms[i], t, w);
    StaysClaimed(ms, i + 1, j, w, ms[i].woken[w]);
    EveryRun(ms, j);
  }

  // ---------------------------------------------------------------- no call without a cause

  /** The waker that the thread's next step calls. */
  function CallOf(pc: Pc): Option<Waker> {
    match pc
    case RegWake(prev, waker) => if prev.Some? then prev else waker
    case RegSelfWake(w) => Some(w)
    case WakeCall(w) => Some(w)
    case _ => None
  }

  lemma WokenAdds(a: multiset<Waker>, b: multiset<Waker>, w: Option<Waker>)
    ensures b + (Woken(a, w) - a) == Woken(b, w)
  {
  }

  /** One step calls at most one waker, which the thread holds for that. */
  lemma CallsWhatItHolds(m: Machine, pc: Pc, panics: bool)
    ensures Advance(m, pc, panics).2 == Woken(m.woken, CallOf(pc))
    ensures CallOf(pc).Some? ==> WillWake(pc, CallOf(pc).value)
  {
  }

  /** No wake has begun: nobody was called, and nobody is going to be. */
  ghost predicate Undisturbed(m: Machine) {
    && m.woken == multiset{} && (m.word == WAITING || m.word == REGISTERING)
    && forall t | t in m.threads ::
         var pc := m.threads[t]; pc == Idle || pc.RegStart? || pc.RegLocked? || pc.RegStored? || pc.RegPanicked?
  }

  ghost predicate NobodyWakes(m: Machine) {
    forall t | t in m.threads :: m.threads[t] != WakeStart
  }

  lemma StaysUndisturbed(m: Machine, m': Machine)
    requires Undisturbed(m) && Inv(m) && Step(m, m') && NobodyWakes(m')
    ensures Undisturbed(m')
  {
    var e :| CanDo(m, e) && m' == Do(m, e);
    if e.Run? {
      assert Matches(m.threads[e.t], m.word, m.cell);
    } else {
      assert m'.threads[e.t] == if e.BeginWake? then WakeStart else RegStart(e.w);
    }
  }

  lemma UndisturbedNext(ms: seq<Machine>, i: nat)
    requires Runs.Run(Init, Step, ms) && 0 < i < |ms| && Undisturbed(ms[i - 1]) && NobodyWakes(ms[i])
    ensures Undisturbed(ms[i])
  {
    EveryRun(ms, i - 1);
    Runs.StepAt(Init, Step, ms, i);
    StaysUndisturbed(ms[i - 1], ms[i]);
  }

  /** As long as no thread has begun a wake, no waker is called, however many register. */
  lemma {:induction false} NoWakeNoCall(ms: seq<Machine>, i: nat)
    requires Runs.Run(Init, Step, ms) && i < |ms| && forall k | 0 <= k <= i :: NobodyWakes(ms[k])
    ensures ms[i].woken == multiset{} && Undisturbed(ms[i])
  {
    if i == 0 {
    } else {
      NoWakeNoCall(ms, i - 1);
      UndisturbedNext(ms, i);
    }
  }

  /** The sum of `f` over the threads. */
  ghost function Total(threads: map<nat, Pc>, f: Pc -> nat): nat
    decreases |threads|
  {
    if threads == map[] then 0
    else var t :| t in threads; f(threads[t]) + Total(threads - {t}, f)
  }

  lemma {:induction false} TotalPicks(threads: map<nat, Pc>, f: Pc -> nat, t: nat)
    requires t in threads
    ensures Total(threads, f) == f(threads[t]) + Total(threads - {t}, f)
    decreases |threads|
  {
    var u :| u in threads && Total(threads, f) == f(threads[u]) + Total(threads - {u}, f);
    if u != t {
      TotalPicks(threads - {u}, f, t);
      TotalPicks(threads - {t}, f, u);
      assert threads - {u} - {t} == threads - {t} - {u};
    }
  }

  lemma TotalChanges(threads: map<nat, Pc>, f: Pc -> nat, t: nat, pc: Pc)
    requires t in threads
    ensures Total(threads[t := pc], f) + f(threads[t]) == Total(threads, f) + f(pc)
  {
    TotalPicks(threads, f, t);
    TotalPicks(threads[t := pc], f, t);
    assert threads[t := pc] - {t} == threads - {t};
  }

  lemma {:induction false} TotalOfIdle(threads: map<nat, Pc>, f: Pc -> nat)
    requires forall t | t in threads :: f(threads[t]) == 0
    ensures Total(threads, f) == 0
    decreases |threads|
  {
    if threads == map[] {
    } else {
      var t := SomeMember(threads.Keys);
      TotalPicks(threads, f, t);
      TotalOfIdle(threads - {t}, f);
    }
  }

  /** The calls that a thread outside is about to make. */
  function Due(pc: Pc): nat {
    match pc
    case RegWake(prev, waker) => (if prev.Some? then 1 else 0) + if waker.Some? then 1 else 0
    case RegSelfWake(_) => 1
    case WakeCall(_) => 1
    case _ => 0
  }

  /**
    The calls that the WAKING bit stands for: a wake that is inside makes one, a registration that
    a wake met two.
   */
  function Promised(word: Word): nat {
    if word == WAKING then 1 else if word == BOTH then 2 else 0
  }

  /** What a step gives cause for. */
  function CauseOf(word: Word, pc: Pc): nat {
    match pc
    case WakeStart => if word == WAITING then 1 else if word == REGISTERING then 2 else 0
    case RegStart(_) => if word == WAKING then 1 else 0
    case _ => 0
  }

  lemma PaysForCalls(m: Machine, pc: Pc, panics: bool)
    requires IsWord(m.word) && Matches(pc, m.word, m.cell)
    ensures var (word, cell, woken, pc') := Advance(m, pc, panics);
            |woken| + Due(pc') + Promised(word) <= |m.woken| + Due(pc) + Promised(m.word) + CauseOf(m.word, pc)
  {
    WordBits(m.word);
  }

  /** The thread that moved between two states. */
  ghost predicate Moves(m: Machine, m': Machine, t: nat) {
    t in m.threads && t in m'.threads && m'.threads[t] != m.threads[t]
  }

  /**
    The calls that the step gives cause for: one if a thread begins to wake alone, two if it meets a
    registration, one if a registration meets a wake.
   */
  ghost function Cause(m: Machine, m': Machine): nat {
    if t :| Moves(m, m', t) then CauseOf(m.word, m.threads[t]) else 0
  }

  ghost function Causes(ms: seq<Machine>, i: nat): nat
    requires i < |ms|
  {
    if i == 0 then 0 else Causes(ms, i - 1) + Cause(ms[i - 1], ms[i])
  }

  lemma MovesByItself(m: Machine, e: Event)
    requires CanDo(m, e)
    ensures forall t | Moves(m, Do(m, e), t) :: t == e.t
    ensures Moves(m, Do(m, e), e.t) || (e.Run? && CauseOf(m.word, m.threads[e.t]) == 0)
  {
  }

  lemma CauseIs(m: Machine, e: Event)
    requires CanDo(m, e)
    ensures Cause(m, Do(m, e)) == if e.Run? then CauseOf(m.word, m.threads[e.t]) else 0
  {
    MovesByItself(m, e);
  }

  ghost predicate Paid(m: Machine, causes: nat) {
    |m.woken| + Total(m.threads, Due) + Promised(m.word) <= causes
  }

  lemma PaidStep(m: Machine, e: Event, causes: nat)
    requires Inv(m) && CanDo(m, e) && Paid(m, causes)
    ensures Paid(Do(m, e), causes + Cause(m, Do(m, e)))
  {
    CauseIs(m, e);
    TotalChanges(m.threads, Due, e.t, Do(m, e).threads[e.t]);
    if e.Run? {
      PaysForCalls(m, m.threads[e.t], e.panics);
    }
  }

  lemma PaidNext(ms: seq<Machine>, i: nat, causes: nat)
    requires Runs.Run(Init, Step, ms) && 0 < i < |ms| && Paid(ms[i - 1], causes)
    ensures Paid(ms[i], causes + Cause(ms[i - 1], ms[i]))
  {
    EveryRun(ms, i - 1);
    Runs.StepAt(Init, Step, ms, i);
    var e :| CanDo(ms[i - 1], e) && ms[i] == Do(ms[i - 1], e);
    PaidStep(ms[i - 1], e, causes);
  }

  /**
    In every run, no more calls are made than were given cause for, and those still to come are
    among these: a registration that no wake meets calls nobody.
   */
  lemma {:induction false} CallsHaveCauses(ms: seq<Machine>, i: nat)
    requires Runs.Run(Init, Step, ms) && i < |ms|
    ensures |ms[i].woken| + Total(ms[i].threads, Due) <= Causes(ms, i)
    ensures Paid(ms[i], Causes(ms, i))
  {
    if i == 0 {
      TotalOfIdle(ms[0].threads, Due);
    } else {
      CallsHaveCauses(ms, i - 1);
      PaidNext(ms, i, Causes(ms, i - 1));
    }
  }

  // ---------------------------------------------------------------- one call for a registration

  function Count(x: Option<Waker>, w: Waker): nat {
    if x == Some(w) then 1 else 0
  }

  /** How often the thread has `w` in hand. */
  function Holding(w: Waker): Pc -> nat {
    (pc: Pc) =>
      match pc
      case RegStart(x) => Count(Some(x), w)
      case RegLocked(x) => Count(Some(x), w)
      case RegStored(prev) => Count(prev, w)
      case RegHandover(prev, _) => Count(prev, w)
      case RegTaken(waker, prev, _) => Count(waker, w) + Count(prev, w)
      case RegWake(prev, waker) => Count(prev, w) + Count(waker, w)
      case RegSelfWake(x) => Count(Some(x), w)
      case WakeTaken(taken) => Count(taken, w)
      case WakeCall(x) => Count(Some(x), w)
      case _ => 0
  }

  /** A step calls, stores or passes on what the thread had, or drops it; it doubles nothing. */
  lemma DoublesNothing(m: Machine, pc: Pc, panics: bool, w: Waker)
    ensures var (word, cell, woken, pc') := Advance(m, pc, panics);
            woken[w] + Count(cell, w) + Holding(w)(pc') <= m.woken[w] + Count(m.cell, w) + Holding(w)(pc)
  {
  }

  /** A thread begins to register `w`. */
  ghost predicate Registers(m: Machine, m': Machine, w: Waker) {
    exists t :: Moves(m, m', t) && m.threads[t] == Idle && m'.threads[t] == RegStart(w)
  }

  ghost function Registrations(ms: seq<Machine>, i: nat, w: Waker): nat
    requires i < |ms|
  {
    if i == 0 then 0 else Registrations(ms, i - 1, w) + if Registers(ms[i - 1], ms[i], w) then 1 else 0
  }

  ghost predicate Afforded(m: Machine, w: Waker, n: nat) {
    m.woken[w] + Count(m.cell, w) + Total(m.threads, Holding(w)) <= n
  }

  lemma AffordedStep(m: Machine, e: Event, w: Waker, n: nat)
    requires CanDo(m, e) && Afforded(m, w, n)
    ensures Afforded(Do(m, e), w, n + if Registers(m, Do(m, e), w) then 1 else 0)
  {
    TotalChanges(m.threads, Holding(w), e.t, Do(m, e).threads[e.t]);
    match e
    case Run(t, panics) => DoublesNothing(m, m.threads[t], panics, w);
    case BeginRegister(t, x) => assert Moves(m, Do(m, e), t);
    case BeginWake(t) =>
  }

  lemma AffordedNext(ms: seq<Machine>, i: nat, w: Waker, n: nat)
    requires Runs.Run(Init, Step, ms) && 0 < i < |ms| && Afforded(ms[i - 1], w, n)
    ensures Afforded(ms[i], w, n + if Registers(ms[i - 1], ms[i], w) then 1 else 0)
  {
    Runs.StepAt(Init, Step, ms, i);
    var e :| CanDo(ms[i - 1], e) && ms[i] == Do(ms[i - 1], e);
    AffordedStep(ms[i - 1], e, w, n);
  }

  /** A waker is called at most as often as it was registered, counting the calls that are still to come. */
  lemma {:induction false} CalledOncePerRegistration(ms: seq<Machine>, i: nat, w: Waker)
    requires Runs.Run(Init, Step, ms) && i < |ms|
    ensures ms[i].woken[w] + Count(ms[i].cell, w) <= Registrations(ms, i, w)
    ensures Afforded(ms[i], w, Registrations(ms, i, w))
  {
    if i == 0 {
      TotalOfIdle(ms[0].threads, Holding(w));
    } else {
      CalledOncePerRegistration(ms, i - 1, w);
      AffordedNext(ms, i, w, Registrations(ms, i - 1, w));
    }
  }

  // ---------------------------------------------------------------- a thread by itself

  function StepsToIdle(pc: Pc): nat {
    match pc
    case Idle => 0
    case RegStart(_) => 8
    case RegLocked(_) => 7
    case RegStored(_) => 6
    case RegPanicked => 6
    case RegHandover(_, _) => 5
    case RegTaken(_, _, _) => 4
    case RegWake(prev, _) => if prev.Some? then 2 else 1
    case RegSelfWake(_) => 1
    case WakeStart => 4
    case WakeLocked => 3
    case WakeTaken(_) => 2
    case WakeCall(_) => 1
  }

  lemma GetsCloser(m: Machine, pc: Pc)
    requires pc != Idle
    ensures StepsToIdle(Advance(m, pc, false).3) < StepsToIdle(pc)
  {
  }

  /** Thread `t` goes through with its call while no other thread runs. */
  function Finished(m: Machine, t: nat): Machine
    requires t in m.threads
    decreases StepsToIdle(m.threads[t])
  {
    if m.threads[t] == Idle then m
    else
      GetsCloser(m, m.threads[t]);
      Finished(Do(m, Run(t, false)), t)
  }

  /**
    A wake with nobody around calls the waker of the cell exactly once, and no other; if somebody
    is inside it calls none.
   */
  lemma WakeAlone(m: Machine, t: nat)
    requires Inv(m) && t in m.threads && m.threads[t] == WakeStart
    ensures Finished(m, t) ==
              var idle := m.(threads := m.threads[t := Idle], wakes := m.wakes + 1);
              if m.word == WAITING then idle.(cell := None, woken := Woken(m.woken, m.cell))
              else idle.(word := m.word | WAKING)
  {
    WordBits(m.word);
    var m1 := Do(m, Run(t, false));
    assert Finished(m, t) == Finished(m1, t);
    if m.word == WAITING {
      assert m1 == m.(word := WAKING, threads := m.threads[t := WakeLocked], wakes := m.wakes + 1);
      TakeAlone(m1, t);
      assert m1.threads[t := Idle] == m.threads[t := Idle];
    }
  }

  lemma TakeAlone(m: Machine, t: nat)
    requires t in m.threads && m.threads[t] == WakeLocked && m.word == WAKING
    ensures Finished(m, t) ==
              m.(word := WAITING, cell := None, threads := m.threads[t := Idle], woken := Woken(m.woken, m.cell))
  {
    WordBits(WAKING);
    var m1 := m.(cell := None, threads := m.threads[t := WakeTaken(m.cell)]);
    assert Do(m, Run(t, false)) == m1;
    var m2 := m1.(word := WAITING, threads := m.threads[t := if m.cell.Some? then WakeCall(m.cell.value) else Idle]);
    assert Do(m1, Run(t, false)) == m2;
    assert Finished(m, t) == Finished(m1, t) == Finished(m2, t);
    if m.cell.Some? {
      var m3 := m2.(woken := m.woken + multiset{m.cell.value}, threads := m.threads[t := Idle]);
      assert Do(m2, Run(t, false)) == m3;
      assert Finished(m2, t) == Finished(m3, t);
    }
  }

  /**
    A registration with nobody around puts its waker into the cell, drops the one that was there and
    calls none; if a wake is under way it calls its own waker instead.
   */
  lemma RegisterAlone(m: Machine, t: nat, w: Waker)
    requires Inv(m) && t in m.threads && m.threads[t] == RegStart(w)
    ensures Finished(m, t) ==
              var idle := m.(threads := m.threads[t := Idle]);
              if m.word == WAITING then idle.(cell := Some(w))
              else if m.word == WAKING then idle.(woken := m.woken + multiset{w})
              else idle
  {
    var m1 := Do(m, Run(t, false));
    if m.word == WAITING {
      var m2 := Do(m1, Run(t, false));
      var m3 := Do(m2, Run(t, false));
      assert Finished(m, t) == Finished(m2, t) == Finished(m3, t);
      assert m3.threads == m.threads[t := Idle];
    } else if m.word == WAKING {
      assert Finished(m1, t) == Do(m1, Run(t, false));
    }
  }

  // ---------------------------------------------------------------- the methods

  /** A position inside `register`. */
  predicate InRegister(pc: Pc) {
    pc.RegStart? || Registering(pc) || pc.RegWake? || pc.RegSelfWake?
  }

  /** No other thread than `t` registers. */
  ghost predicate OnlyRegistrant(m: Machine, t: nat) {
    forall u | u in m.threads && u != t :: !InRegister(m.threads[u])
  }

  /**
    What any number of steps of other threads may do, seen by `t`: claimed wakers stay so, and kept
    ones too unless another thread registers. While `t` is inside, nobody else touches the cell, and
    the word changes only by a wake.
   */
  ghost predicate Rely(m: Machine, m': Machine, t: nat) {
    && Inv(m') && t in m'.threads && t in m.threads && m'.threads[t] == m.threads[t]
    && m.woken <= m'.woken && KeepsClaims(m, m') && m.wakes <= m'.wakes
    && (Inside(m.threads[t]) ==> m'.cell == m.cell && (m'.word != m.word ==> m'.wakes > m.wakes))
    && (OnlyRegistrant(m, t) ==> OnlyRegistrant(m', t) && KeepsKept(m, m'))
  }

  /**
    Such changes are made of single steps: none at all, or one more step of another thread, which
    does not begin to register next to a lone `t`.
   */
  lemma OthersRely(m: Machine, m': Machine, e: Event, t: nat)
    requires Inv(m) && t in m.threads && CanDo(m', e) && e.t != t
    requires m' == m || Rely(m, m', t)
    requires OnlyRegistrant(m, t) ==> !e.BeginRegister?
    ensures Rely(m, Do(m', e), t)
  {
    StepKeepsInv(m', e);
    StepKeepsClaims(m', e);
    if Inside(m.threads[t]) {
      BesideInside(m', e, t);
    }
    if OnlyRegistrant(m, t) {
      LoneStep(m', e, t);
      StepKeepsKept(m', e);
    }
  }

  lemma BesideInside(m: Machine, e: Event, t: nat)
    requires Inv(m) && CanDo(m, e) && t in m.threads && e.t != t && Inside(m.threads[t])
    ensures Do(m, e).cell == m.cell && (Do(m, e).word != m.word ==> Do(m, e).wakes == m.wakes + 1)
  {
    assert !Inside(m.threads[e.t]) && m.word != WAITING;
    WordBits(m.word);
  }

  lemma StepKeepsClaims(m: Machine, e: Event)
    requires Inv(m) && CanDo(m, e)
    ensures m.woken <= Do(m, e).woken && KeepsClaims(m, Do(m, e))
  {
    if e.Run? {
      HandsOn(m, m.threads[e.t], e.panics, 0);
    }
    forall w: Waker, n: nat | Claimed(m, w, n) ensures Claimed(Do(m, e), w, n) {
      ClaimedForGood(m, e, w, n);
    }
  }

  lemma StepKeepsKept(m: Machine, e: Event)
    requires CanDo(m, e) && (e.Run? ==> m.threads[e.t].RegLocked? ==> e.panics)
    ensures KeepsKept(m, Do(m, e))
  {
    forall w: Waker, n: nat | Kept(m, w, n) ensures Kept(Do(m, e), w, n) {
      KeptUntilReplaced(m, e, w, n);
    }
  }

  lemma LoneStep(m: Machine, e: Event, t: nat)
    requires OnlyRegistrant(m, t) && CanDo(m, e) && e.t != t && !e.BeginRegister?
    ensures OnlyRegistrant(Do(m, e), t)
    ensures !InRegister(m.threads[e.t])
  {
    assert !InRegister(m.threads[e.t]);
  }

  class AtomicWaker {
    var state: Word
    var waker: Option<Waker>
    /** Where every thread is, and the wakers called so far, as often as they were. */
    ghost var threads: map<nat, Pc>
    ghost var woken: multiset<Waker>
    /** How often a thread has done its fetch_or, and who called which wakers. */
    ghost var wakes: nat
    ghost var calls: map<nat, multiset<Waker>>

    ghost function M(): Machine
      reads this
    {
      Machine(state, waker, threads, woken, wakes)
    }

    /** The wakers that thread `t` has called. */
    ghost function Called(t: nat): multiset<Waker>
      reads this`calls
    {
      if t in calls then calls[t] else multiset{}
    }

    constructor (ghost ts: set<nat>)
      ensures Init(M()) && Inv(M()) && threads.Keys == ts
    {
      state, waker := WAITING, None;
      threads, woken, wakes, calls := map t | t in ts :: Idle, multiset{}, 0, map[];
    }

    /** Other threads run: any number of their atomic steps. */
    method OthersRun(ghost t: nat)
      requires Inv(M()) && t in threads
      modifies this
      ensures Rely(old(M()), M(), t) && Called(t) == old(Called(t))
    {
    }

    /** Thread `t` completes one atomic step of the machine. */
    ghost method Moved(before: Machine, t: nat, panics: bool)
      requires Inv(before) && CanDo(before, Run(t, panics))
      requires var (w, c, k, pc) := Advance(before, before.threads[t], panics);
               state == w && waker == c && woken == before.woken && threads == before.threads && wakes == before.wakes
      modifies this`threads, this`woken, this`wakes, this`calls
      ensures M() == Do(before, Run(t, panics)) && Inv(M())
      ensures Called(t) == Woken(old(Called(t)), CallOf(before.threads[t]))
      ensures before.woken <= woken && KeepsClaims(before, M())
    {
      var (w, c, k, pc) := Advance(before, before.threads[t], panics);
      CallsWhatItHolds(before, before.threads[t], panics);
      WokenAdds(woken, Called(t), CallOf(before.threads[t]));
      calls := calls[t := Called(t) + (k - woken)];
      threads, woken, wakes := threads[t := pc], k, Do(before, Run(t, panics)).wakes;
      StepKeepsInv(before, Run(t, panics));
      StepKeepsClaims(before, Run(t, panics));
    }

    /** Takes the waker out, or leaves the wake to the thread inside; calls nobody. */
    method TakeWaker(ghost t: nat) returns (taken: Option<Waker>)
      requires Inv(M()) && t in threads && threads[t] == WakeStart
      modifies this
      ensures Inv(M()) && t in threads
      ensures threads[t] == if taken.Some? then WakeCall(taken.value) else Idle
      ensures taken == (if old(state) == WAITING then old(waker) else None) && Called(t) == old(Called(t))
      ensures KeepsClaims(old(M()), M())
      ensures old(waker).Some? ==> Claimed(M(), old(waker).value, old(woken)[old(waker).value])
    {
      ghost var m := M();
      var prev := state;
      state := state | WAKING;
      Moved(m, t, false);
      if m.cell.Some? {
        WakeClaims(m, t, m.cell.value);
      }
      if prev == WAITING {
        OthersRun(t);
        taken := TakeLocked(t);
      } else {
        assert prev == REGISTERING || prev == BOTH || prev == WAKING;
        taken := None;
      }
    }

    /** The branch that obtained the lock. */
    method TakeLocked(ghost t: nat) returns (taken: Option<Waker>)
      requires Inv(M()) && t in threads && threads[t] == WakeLocked
      modifies this
      ensures Inv(M()) && t in threads
      ensures taken == old(waker) && Called(t) == old(Called(t))
      ensures threads[t] == if taken.Some? then WakeCall(taken.value) else Idle
      ensures KeepsClaims(old(M()), M())
    {
      ghost var m := M();
      taken := waker;
      waker := None;
      Moved(m, t, false);

      OthersRun(t);
      m := M();
      assert Matches(threads[t], state, waker);
      assert state == WAKING;
      state := state & !WAKING;
      Moved(m, t, false);
    }

    /**
      Whatever the other threads do, the waker found in the cell has been called once more or is going
      to be. This thread calls it exactly once, and no other, if nobody was inside; else it calls none.
     */
    method Wake(ghost t: nat)
      requires Inv(M()) && t in threads && threads[t] == WakeStart
      modifies this
      ensures Inv(M()) && t in threads && threads[t] == Idle
      ensures Called(t) == if old(state) == WAITING then Woken(old(Called(t)), old(waker)) else old(Called(t))
      ensures KeepsClaims(old(M()), M())
      ensures old(waker).Some? ==> Claimed(M(), old(waker).value, old(woken)[old(waker).value])
    {
      var taken := TakeWaker(t);
      if taken.Some? {
        OthersRun(t);
        Call(t);
      }
    }

    /** `waker.wake()` on the waker that the thread holds. */
    method Call(ghost t: nat)
      requires Inv(M()) && t in threads && (threads[t].WakeCall? || threads[t].RegWake? || threads[t].RegSelfWake?)
      modifies this
      ensures M() == Do(old(M()), Run(t, false)) && Inv(M())
      ensures Called(t) == Woken(old(Called(t)), CallOf(old(threads[t])))
      ensures KeepsClaims(old(M()), M())
    {
      Moved(M(), t, false);
    }

    /**
      `do_register`; `panics` tells whether cloning the waker does, and `panicked` whether the
      panic is handed to the caller. If no other thread registers, the waker is not lost: it has
      been called since, sits in the cell, or some thread will call it. This thread calls nobody if
      it found the word WAITING and no wake came meanwhile; if one came, it calls the waker that it
      displaced and the one that it stored; and if one was under way, its own.
     */
    method DoRegister(ghost t: nat, w: Waker, panics: bool) returns (panicked: bool)
      requires Inv(M()) && t in threads && threads[t] == RegStart(w)
      modifies this
      ensures Inv(M()) && t in threads && threads[t] == Idle
      ensures panicked ==> panics
      ensures old(state) == WAITING && wakes == old(wakes) ==> Called(t) == old(Called(t))
      ensures old(state) == WAITING ==>
                Called(t) == old(Called(t)) || Called(t) == BothCalled(old(Called(t)), old(waker), w, panics)
      ensures old(state) == WAKING ==> Called(t) == old(Called(t)) + multiset{w}
      ensures old(state) != WAITING && old(state) != WAKING ==> Called(t) == old(Called(t))
      ensures old(OnlyRegistrant(M(), t)) && !panicked ==> OnlyRegistrant(M(), t) && Kept(M(), w, old(woken)[w])
    {
      panicked := false;
      var actual := TryLock(t, w);
      if actual == WAITING {
        OthersRun(t);
        panicked := Locked(t, w, panics);
      } else if actual == WAKING {
        OthersRun(t);
        Call(t);
      } else {
        assert actual == REGISTERING || actual == BOTH;
      }
    }

    /**
      The first exchange; `actual` is what it found. If that is neither WAITING nor WAKING,
      another thread registers.
     */
    method TryLock(ghost t: nat, w: Waker) returns (actual: Word)
      requires Inv(M()) && t in threads && threads[t] == RegStart(w)
      modifies this
      ensures M() == Do(old(M()), Run(t, false)) && Inv(M())
      ensures actual == old(state) && IsWord(actual) && Called(t) == old(Called(t))
      ensures actual != WAITING && actual != WAKING ==> !old(OnlyRegistrant(M(), t))
    {
      ghost var m := M();
      actual := state;
      if state == WAITING {
        state := REGISTERING;
      }
      Moved(m, t, false);
      if actual == REGISTERING || actual == BOTH {
        assert exists u :: u in m.threads && u != t && InRegister(m.threads[u]) by {
          var u :| u in m.threads && Inside(m.threads[u]);
          assert Matches(m.threads[u], m.word, m.cell);
        }
      }
    }

    /** After the handover of a wake: the displaced waker is called, and the stored one unless cloning it panicked. */
    static ghost function BothCalled(called: multiset<Waker>, prev: Option<Waker>, w: Waker, panics: bool)
      : multiset<Waker>
    {
      if panics then Woken(called, prev) else Woken(called, prev) + multiset{w}
    }

    /** The branch that obtained the lock. */
    method Locked(ghost t: nat, w: Waker, panics: bool) returns (panicked: bool)
      requires Inv(M()) && t in threads && threads[t] == RegLocked(w)
      modifies this
      ensures Inv(M()) && t in threads && threads[t] == Idle
      ensures panicked <==> panics
      ensures wakes >= old(wakes)
      ensures old(state) == REGISTERING && wakes == old(wakes) ==> Called(t) == old(Called(t))
      ensures Called(t) == old(Called(t)) || Called(t) == BothCalled(old(Called(t)), old(waker), w, panics)
      ensures old(OnlyRegistrant(M(), t)) ==> OnlyRegistrant(M(), t) && (!panics ==> Kept(M(), w, old(woken)[w]))
    {
      panicked := panics;
      var prevWaker := Store(t, w, panics);
      OthersRun(t);
      Unlock(t, prevWaker, panics);
    }

    /** The cloned waker goes into the cell, unless cloning panicked. */
    method Store(ghost t: nat, w: Waker, panics: bool) returns (prevWaker: Option<Waker>)
      requires Inv(M()) && t in threads && threads[t] == RegLocked(w)
      modifies this
      ensures Inv(M()) && t in threads && woken == old(woken)
      ensures state == old(state) && wakes == old(wakes) && Called(t) == old(Called(t))
      ensures threads[t] == if panics then RegPanicked else RegStored(prevWaker)
      ensures if panics then prevWaker == None && waker == old(waker) else prevWaker == old(waker) && waker == Some(w)
      ensures old(OnlyRegistrant(M(), t)) ==> OnlyRegistrant(M(), t)
    {
      ghost var m := M();
      prevWaker := None;
      if !panics {
        prevWaker := waker;
        waker := Some(w);
      }
      Moved(m, t, panics);
    }

    /** Done with the cell: unlock, or take over the wake that came in between. */
    method Unlock(ghost t: nat, prevWaker: Option<Waker>, panicked: bool)
      requires Inv(M()) && t in threads
      requires threads[t] == if panicked then RegPanicked else RegStored(prevWaker)
      requires panicked ==> prevWaker == None
      modifies this
      ensures Inv(M()) && t in threads && threads[t] == Idle && wakes >= old(wakes)
      ensures Called(t) == if old(state) == REGISTERING then old(Called(t))
                           else Woken(Woken(old(Called(t)), prevWaker), old(waker))
      ensures old(OnlyRegistrant(M(), t)) ==>
                OnlyRegistrant(M(), t) && KeepsKept(old(M()), M())
    {
      ghost var m := M();
      var actual := state;
      if state == REGISTERING {
        state := WAITING;
      }
      Moved(m, t, false);
      KeepAll(m, t);
      if actual != REGISTERING {
        assert Matches(m.threads[t], m.word, m.cell);
        assert actual == BOTH;
        OthersRun(t);
        HandOver(t, prevWaker, panicked);
      }
    }

    /** A wake came in between: take the waker, unlock, and wake in the other thread's stead. */
    method HandOver(ghost t: nat, prev: Option<Waker>, panicked: bool)
      requires Inv(M()) && t in threads && threads[t] == RegHandover(prev, panicked)
      modifies this
      ensures Inv(M()) && t in threads && threads[t] == Idle && wakes >= old(wakes)
      ensures Called(t) == Woken(Woken(old(Called(t)), prev), old(waker))
      ensures old(OnlyRegistrant(M(), t)) ==>
                OnlyRegistrant(M(), t) && KeepsKept(old(M()), M())
    {
      var taken := TakeAndUnlock(t, prev, panicked);
      var prevWaker := prev;
      if panicked {
        assert prevWaker == None;
        prevWaker := taken;
        taken := None;
      }
      assert taken.Some? ==> !panicked;
      OthersRun(t);
      CallBoth(t, prevWaker, taken);
    }

    /** The waker of the cell is taken out, and the word goes back to WAITING. */
    method TakeAndUnlock(ghost t: nat, prev: Option<Waker>, panicked: bool) returns (taken: Option<Waker>)
      requires Inv(M()) && t in threads && threads[t] == RegHandover(prev, panicked)
      modifies this
      ensures Inv(M()) && t in threads && (panicked ==> prev == None) && wakes >= old(wakes)
      ensures threads[t] == if panicked then RegWake(taken, None) else RegWake(prev, taken)
      ensures taken == old(waker) && Called(t) == old(Called(t))
      ensures old(OnlyRegistrant(M(), t)) ==>
                OnlyRegistrant(M(), t) && KeepsKept(old(M()), M())
    {
      ghost var m := M();
      assert Matches(threads[t], state, waker);
      taken := waker;
      waker := None;
      Moved(m, t, false);
      KeepAll(m, t);
      OthersRun(t);
      SwapWord(t, taken, prev, panicked);
    }

    /** `swap(WAITING)`, which finds both bits set. */
    method SwapWord(ghost t: nat, taken: Option<Waker>, prev: Option<Waker>, panicked: bool)
      requires Inv(M()) && t in threads && threads[t] == RegTaken(taken, prev, panicked)
      modifies this
      ensures Inv(M()) && t in threads && wakes == old(wakes) && Called(t) == old(Called(t))
      ensures threads[t] == if panicked then RegWake(taken, None) else RegWake(prev, taken)
      ensures old(OnlyRegistrant(M(), t)) ==>
                OnlyRegistrant(M(), t) && KeepsKept(old(M()), M())
    {
      ghost var m := M();
      assert Matches(threads[t], state, waker);
      assert state == BOTH;
      state := WAITING;
      Moved(m, t, false);
      KeepAll(m, t);
    }

    method CallBoth(ghost t: nat, prev: Option<Waker>, taken: Option<Waker>)
      requires Inv(M()) && t in threads && threads[t] == RegWake(prev, taken)
      modifies this
      ensures Inv(M()) && t in threads && threads[t] == Idle && wakes >= old(wakes)
      ensures Called(t) == Woken(Woken(old(Called(t)), prev), taken)
      ensures old(OnlyRegistrant(M(), t)) ==>
                OnlyRegistrant(M(), t) && KeepsKept(old(M()), M())
    {
      ghost var m := M();
      if prev.Some? {
        Call(t);
        KeepAll(m, t);
        OthersRun(t);
      }
      m := M();
      Call(t);
      KeepAll(m, t);
    }

    /** The thread's own step keeps what is kept. */
    lemma KeepAll(m: Machine, t: nat)
      requires Inv(m) && CanDo(m, Run(t, false)) && !m.threads[t].RegLocked? && M() == Do(m, Run(t, false))
      ensures OnlyRegistrant(m, t) ==> OnlyRegistrant(M(), t)
      ensures KeepsKept(m, M())
    {
      StepKeepsKept(m, Run(t, false));
    }
  }
}
