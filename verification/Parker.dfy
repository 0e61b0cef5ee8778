/**
  The parker with a timeout: one parking thread and any number of unparking ones share a state
  word, a mutex and a condition variable. Every step is one atomic operation.
 */
module Parkers {
  import Runs

  const EMPTY: nat := 0
  const PARKED_CONDVAR: nat := 1
  const NOTIFIED: nat := 3

  /** Where `park` stands. */
  datatype Parker =
    | Rest
    | Try(k: nat)               // the k-th compare_exchange(NOTIFIED, EMPTY) out of three
    | Lock
    | Commit                    // holds the mutex: compare_exchange(EMPTY, PARKED_CONDVAR)
    | Consume                   // holds the mutex: swap(EMPTY)
    | Committed                 // holds the mutex: about to wait
    | Waiting(signalled: bool)  // waits on the condition variable, the mutex released
    | Relock                    // woken, by a signal, the timeout or for no reason
    | Reset                     // holds the mutex: store(EMPTY)
    | Leave                     // holds the mutex: about to release it and return
    | ParkPanicked

  /** Where `unpark` stands. */
  datatype Unparker =
    | Free
    | Swap                      // swap(NOTIFIED)
    | Enter                     // found PARKED_CONDVAR: lock the mutex
    | Exit                      // release the mutex
    | Notify                    // notify_one
    | UnparkPanicked

  datatype Holder = Nobody | TheParker | AnUnparker(u: nat)

  /**
    `taken` counts the notifications that `park` has consumed, `swaps` how often an unparker has set
    the word, and `used` how often it had when a `park` last took or reset the word.
   */
  datatype State = State(
    word: nat, mutex: Holder, parker: Parker, unparkers: map<nat, Unparker>, taken: nat, swaps: nat, used: nat)

  datatype Event =
    | Park
    | Run(wakes: bool)   // the parker's next step; `wakes` lets it leave the wait unsignalled
    | Unpark(u: nat)
    | RunUnpark(u: nat)

  ghost predicate Init(s: State) {
    && s.word == EMPTY && s.mutex == Nobody && s.parker == Rest && s.taken == s.swaps == s.used == 0
    && forall u | u in s.unparkers :: s.unparkers[u] == Free
  }

  predicate CanDo(s: State, e: Event) {
    match e
    case Park => s.parker == Rest
    case Run(wakes) => (
      match s.parker
      case Rest => false
      case ParkPanicked => false
      case Lock => s.mutex == Nobody
      case Relock => s.mutex == Nobody
      case Waiting(signalled) => signalled || wakes
      case _ => true)
    case Unpark(u) => u in s.unparkers && s.unparkers[u] == Free
    case RunUnpark(u) =>
      && u in s.unparkers && s.unparkers[u] != Free && s.unparkers[u] != UnparkPanicked
      && (s.unparkers[u] == Enter ==> s.mutex == Nobody)
  }

  function RunParker(s: State): State {
    match s.parker
    case Rest => s
    case Try(k) =>
      if s.word == NOTIFIED then s.(word := EMPTY, parker := Rest, taken := s.taken + 1, used := s.swaps)
      else s.(parker := if k < 2 then Try(k + 1) else Lock)
    case Lock => s.(mutex := TheParker, parker := Commit)
    case Commit =>
      if s.word == EMPTY then s.(word := PARKED_CONDVAR, parker := Committed)
      else s.(parker := if s.word == NOTIFIED then Consume else ParkPanicked)
    case Consume =>
      if s.word == NOTIFIED then s.(word := EMPTY, parker := Leave, taken := s.taken + 1, used := s.swaps)
      else s.(word := EMPTY, parker := ParkPanicked)
    case Committed => s.(mutex := Nobody, parker := Waiting(false))
    case Waiting(_) => s.(parker := Relock)
    case Relock => s.(mutex := TheParker, parker := Reset)
    case Reset =>
      s.(word := EMPTY, parker := Leave, taken := if s.word == NOTIFIED then s.taken + 1 else s.taken, used := s.swaps)
    case Leave => s.(mutex := Nobody, parker := Rest)
    case ParkPanicked => s
  }

  function RunUnparker(s: State, u: nat): State
    requires u in s.unparkers
  {
    match s.unparkers[u]
    case Free => s
    case Swap =>
      s.(word := NOTIFIED, swaps := s.swaps + 1,
         unparkers := s.unparkers[u := if s.word == NOTIFIED || s.word == EMPTY then Free
                                       else if s.word == PARKED_CONDVAR then Enter else UnparkPanicked])
    case Enter => s.(mutex := AnUnparker(u), unparkers := s.unparkers[u := Exit])
    case Exit => s.(mutex := Nobody, unparkers := s.unparkers[u := Notify])
    case Notify =>
      s.(parker := if s.parker.Waiting? then Waiting(true) else s.parker, unparkers := s.unparkers[u := Free])
    case UnparkPanicked => s
  }

  function Do(s: State, e: Event): State
    requires CanDo(s, e)
  {
    match e
    case Park => s.(parker := Try(0))
    case Run(_) => RunParker(s)
    case Unpark(u) => s.(unparkers := s.unparkers[u := Swap])
    case RunUnpark(u) => RunUnparker(s, u)
  }

  ghost predicate Step(s: State, s': State) {
    exists e :: CanDo(s, e) && s' == Do(s, e)
  }

  // ---------------------------------------------------------------- invariants

  predicate HasMutex(p: Parker) {
    p.Commit? || p.Consume? || p.Committed? || p.Reset? || p.Leave?
  }

  /** Between committing to wait and resetting the word. */
  predicate Parked(p: Parker) {
    p.Committed? || p.Waiting? || p.Relock? || p.Reset?
  }

  predicate WordMatches(word: nat, p: Parker) {
    && (word == EMPTY || word == PARKED_CONDVAR || word == NOTIFIED)
    && (Parked(p) ==> word != EMPTY)
    && (word == PARKED_CONDVAR ==> Parked(p))
    && (p.Consume? ==> word == NOTIFIED)
    && p != ParkPanicked
  }

  ghost predicate MutexMatches(mutex: Holder, p: Parker, us: map<nat, Unparker>) {
    && (mutex == TheParker <==> HasMutex(p))
    && (forall u | u in us :: us[u] == Exit <==> mutex == AnUnparker(u))
    && (forall u | u in us :: us[u] != UnparkPanicked)
    && (mutex.AnUnparker? ==> mutex.u in us)
  }

  /** The unparker still has its notify_one to do. */
  predicate Notifying(u: Unparker) {
    u.Enter? || u.Exit? || u.Notify?
  }

  ghost predicate NotifyComing(us: map<nat, Unparker>) {
    exists u :: u in us && Notifying(us[u])
  }

  ghost predicate EnterComing(us: map<nat, Unparker>) {
    exists u :: u in us && us[u] == Enter
  }

  /** A notification that finds the parker parked has a signal behind it. */
  ghost predicate Followed(word: nat, p: Parker, us: map<nat, Unparker>) {
    && (word == NOTIFIED && p.Committed? ==> EnterComing(us))
    && (word == NOTIFIED && p == Waiting(false) ==> NotifyComing(us))
  }

  /** The word is NOTIFIED exactly while an `unpark` is not used up. */
  predicate Spent(s: State) {
    s.used <= s.swaps && (s.word == NOTIFIED <==> s.used < s.swaps)
  }

  ghost predicate Inv(s: State) {
    && Spent(s)
    && WordMatches(s.word, s.parker)
    && MutexMatches(s.mutex, s.parker, s.unparkers)
    && Followed(s.word, s.parker, s.unparkers)
  }

  lemma ParkerKeepsInv(s: State, wakes: bool)
    requires Inv(s) && CanDo(s, Run(wakes))
    ensures Inv(RunParker(s))
  {
    if s.parker.Committed? && s.word == NOTIFIED {
      var u :| u in s.unparkers && s.unparkers[u] == Enter;
      assert Notifying(s.unparkers[u]);
    }
  }

  lemma UnparkerKeepsInv(s: State, u: nat)
    requires Inv(s) && CanDo(s, RunUnpark(u))
    ensures Inv(RunUnparker(s, u))
  {
    var s' := RunUnparker(s, u);
    assert u in s'.unparkers;
    if v :| v in s.unparkers && v != u && Notifying(s.unparkers[v]) {
      assert v in s'.unparkers && s'.unparkers[v] == s.unparkers[v];
    }
    if v :| v in s.unparkers && v != u && s.unparkers[v] == Enter {
      assert v in s'.unparkers && s'.unparkers[v] == s.unparkers[v];
    }
  }

  lemma StepKeepsInv(s: State, e: Event)
    requires Inv(s) && CanDo(s, e)
    ensures Inv(Do(s, e))
  {
    match e
    case Run(wakes) => ParkerKeepsInv(s, wakes);
    case RunUnpark(u) => UnparkerKeepsInv(s, u);
    case Unpark(u) =>
      var us := Do(s, e).unparkers;
      if v :| v in s.unparkers && Notifying(s.unparkers[v]) {
        assert v in us && us[v] == s.unparkers[v];
      }
      if v :| v in s.unparkers && s.unparkers[v] == Enter {
        assert v in us && us[v] == s.unparkers[v];
      }
    case Park =>
  }

  // ---------------------------------------------------------------- theorems

  lemma EveryRun(ss: seq<State>, i: nat)
    requires Runs.Run(Init, Step, ss) && i < |ss|
    ensures Inv(ss[i])
  {
    forall s, s' | Inv(s) && Step(s, s') ensures Inv(s') {
      var e :| CanDo(s, e) && s' == Do(s, e);
      StepKeepsInv(s, e);
    }
    Runs.Invariant(Init, Step, Inv, ss, i);
  }

  /**
    No notification is lost. If the word is NOTIFIED while the parker holds the mutex on its way
    to wait, some unparker has yet to get the mutex; while it waits unsignalled, some unparker has
    its notify_one still to come.
   */
  lemma NoLostNotification(ss: seq<State>, i: nat)
    requires Runs.Run(Init, Step, ss) && i < |ss| && ss[i].word == NOTIFIED
    ensures ss[i].parker.Committed? ==> exists u :: u in ss[i].unparkers && ss[i].unparkers[u] == Enter
    ensures ss[i].parker == Waiting(false) ==> exists u :: u in ss[i].unparkers && Notifying(ss[i].unparkers[u])
  {
    EveryRun(ss, i);
  }

  /** With every `unpark` returned, a parker that still waits unsignalled has not been notified since it committed. */
  lemma SilentMeansUnnotified(ss: seq<State>, i: nat)
    requires Runs.Run(Init, Step, ss) && i < |ss| && ss[i].parker == Waiting(false)
    requires forall u | u in ss[i].unparkers :: ss[i].unparkers[u] == Free
    ensures ss[i].word == PARKED_CONDVAR
  {
    EveryRun(ss, i);
  }

  /** Neither inconsistent-state panic is reachable, nor the debug assertion after the swap. */
  lemma NeverPanics(ss: seq<State>, i: nat, u: nat)
    requires Runs.Run(Init, Step, ss) && i < |ss| && u in ss[i].unparkers
    ensures ss[i].parker != ParkPanicked && ss[i].unparkers[u] != UnparkPanicked
    ensures ss[i].parker == Consume ==> ss[i].word == NOTIFIED
  {
    EveryRun(ss, i);
  }

  /** Waits, or is about to. */
  predicate Blocking(p: Parker) {
    p.Committed? || p.Waiting?
  }

  /**
    A notification stays until a `park` takes it, and that `park` waits no further; nor does a park
    begin to wait before it is taken.
   */
  lemma TakenOnlyByReturning(s: State, e: Event)
    requires Inv(s) && s.word == NOTIFIED && CanDo(s, e)
    ensures var s' := Do(s, e);
            || (s'.word == NOTIFIED && s'.taken == s.taken && (Blocking(s'.parker) ==> Blocking(s.parker)))
            || (e.Run? && s'.word == EMPTY && s'.taken == s.taken + 1 && (s'.parker == Rest || s'.parker == Leave))
  {
  }

  /** Since `s`, where it was notified, the parker has not waited, or a `park` has returned with the notification. */
  predicate Heard(s: State, s': State) {
    s'.taken > s.taken || (s'.taken == s.taken && s'.word == NOTIFIED && !Blocking(s'.parker))
  }

  lemma HeardStep(s: State, s1: State, s2: State)
    requires Heard(s, s1) && Inv(s1) && Step(s1, s2)
    ensures Heard(s, s2)
  {
    var e :| CanDo(s1, e) && s2 == Do(s1, e);
    if s1.word == NOTIFIED {
      TakenOnlyByReturning(s1, e);
    }
  }

  lemma HeardNext(ss: seq<State>, s: State, j: nat)
    requires Runs.Run(Init, Step, ss) && j + 1 < |ss| && Heard(s, ss[j])
    ensures Heard(s, ss[j + 1])
  {
    EveryRun(ss, j);
    HeardStep(s, ss[j], ss[j + 1]);
  }

  /** Once notified while not waiting, the parker does not wait before a `park` has returned with the notification. */
  lemma {:induction false} NotifiedParkReturns(ss: seq<State>, i: nat, j: nat)
    requires Runs.Run(Init, Step, ss) && i <= j < |ss|
    requires ss[i].word == NOTIFIED && !Blocking(ss[i].parker)
    ensures Heard(ss[i], ss[j])
  {
    if i == j {
    } else {
      NotifiedParkReturns(ss, i, j - 1);
      HeardNext(ss, ss[i], j - 1);
    }
  }

  // ---------------------------------------------------------------- a notification serves once

  /** An unparker does its `swap(NOTIFIED)`. */
  ghost predicate SwapStep(s: State, s': State) {
    exists u :: u in s.unparkers && u in s'.unparkers && s.unparkers[u] == Swap && s'.unparkers[u] != Swap
  }

  ghost predicate NoSwap(ss: seq<State>, i: nat, j: nat) {
    forall k | i <= k < j && k + 1 < |ss| :: !SwapStep(ss[k], ss[k + 1])
  }

  /** In a `park` that is still to take or to reset the word. */
  predicate Uncleared(p: Parker) {
    p != Rest && p != Leave && p != ParkPanicked
  }

  /** A `park` takes the word or resets it. */
  predicate Clears(s: State, s': State) {
    (s.parker.Try? && s'.parker == Rest) || ((s.parker == Consume || s.parker == Reset) && s'.parker == Leave)
  }

  /** It takes the word, so that it returns without waiting. */
  predicate GetsBy(s: State, s': State) {
    (s.parker.Try? && s'.parker == Rest) || (s.parker == Consume && s'.parker == Leave)
  }

  /** What a step does to the word and to the counts. */
  lemma SpendingStep(s: State, s': State)
    requires Inv(s) && Step(s, s')
    ensures s'.swaps == if SwapStep(s, s') then s.swaps + 1 else s.swaps
    ensures s'.used == if Clears(s, s') then s.swaps else s.used
    ensures Clears(s, s') ==> s'.word == EMPTY && !SwapStep(s, s')
    ensures GetsBy(s, s') ==> s.word == NOTIFIED
    ensures Uncleared(s.parker) && !Uncleared(s'.parker) ==> Clears(s, s')
  {
    var e :| CanDo(s, e) && s' == Do(s, e);
    if e.RunUnpark? && s.unparkers[e.u] == Swap {
      assert e.u in s'.unparkers && s'.unparkers[e.u] != Swap;
    }
  }

  lemma SpendingAt(ss: seq<State>, j: nat)
    requires Runs.Run(Init, Step, ss) && 0 < j < |ss|
    ensures Inv(ss[j - 1]) && Inv(ss[j]) && Step(ss[j - 1], ss[j])
  {
    EveryRun(ss, j - 1);
    EveryRun(ss, j);
    Runs.StepAt(Init, Step, ss, j);
  }

  lemma {:induction false} QuietSwaps(ss: seq<State>, i: nat, j: nat)
    requires Runs.Run(Init, Step, ss) && i <= j < |ss| && NoSwap(ss, i, j)
    ensures ss[j].swaps == ss[i].swaps
  {
    if i == j {
    } else {
      QuietSwaps(ss, i, j - 1);
      SpendingAt(ss, j);
      SpendingStep(ss[j - 1], ss[j]);
      assert !SwapStep(ss[j - 1], ss[j - 1 + 1]);
    }
  }

  /** What had been notified while the park had the word still to clear is used up once it has. */
  lemma {:induction false} ClearsAll(ss: seq<State>, i: nat, j: nat)
    requires Runs.Run(Init, Step, ss) && i <= j < |ss| && Uncleared(ss[i].parker)
    ensures Cleared(ss[i].swaps, ss[j])
  {
    if i == j {
    } else {
      ClearsAll(ss, i, j - 1);
      ClearedNext(ss, j, ss[i].swaps);
    }
  }

  /** The first `n` notifications are used up, or the `park` that will use them is under way. */
  predicate Cleared(n: nat, s: State) {
    n <= s.swaps && (Uncleared(s.parker) || n <= s.used)
  }

  lemma ClearedNext(ss: seq<State>, j: nat, n: nat)
    requires Runs.Run(Init, Step, ss) && 0 < j < |ss| && Cleared(n, ss[j - 1])
    ensures Cleared(n, ss[j])
  {
    SpendingAt(ss, j);
    SpendingStep(ss[j - 1], ss[j]);
  }

  /**
    A `park` uses up every notification that came before it took or reset the word, however it was
    woken: if at `i` it had still to do so, at `j` no `park` is under way, and no unparker set the
    word in between, the word is EMPTY.
   */
  lemma UsedUp(ss: seq<State>, i: nat, j: nat)
    requires Runs.Run(Init, Step, ss) && i <= j < |ss|
    requires Uncleared(ss[i].parker) && ss[j].parker == Rest && NoSwap(ss, i, j)
    ensures ss[j].word == EMPTY
  {
    ClearsAll(ss, i, j);
    QuietSwaps(ss, i, j);
    EveryRun(ss, j);
  }

  /** The `unpark`s, and the `park`s that returned without waiting, from `i` to `j`. */
  ghost function SwapsIn(ss: seq<State>, i: nat, j: nat): nat
    requires i <= j < |ss|
  {
    if i == j then 0 else SwapsIn(ss, i, j - 1) + if SwapStep(ss[j - 1], ss[j]) then 1 else 0
  }

  function GetBysIn(ss: seq<State>, i: nat, j: nat): nat
    requires i <= j < |ss|
  {
    if i == j then 0 else GetBysIn(ss, i, j - 1) + if GetsBy(ss[j - 1], ss[j]) then 1 else 0
  }

  predicate FreshlyCleared(ss: seq<State>, i: nat)
    requires i < |ss|
  {
    i == 0 || Clears(ss[i - 1], ss[i])
  }

  /**
    At most one `park` gets by per `unpark`: counted from the beginning, or from where a `park` took
    or reset the word, no more `park`s return without waiting than `unpark`s set the word.
   */
  lemma {:induction false} OneParkPerUnpark(ss: seq<State>, i: nat, j: nat)
    requires Runs.Run(Init, Step, ss) && i <= j < |ss| && FreshlyCleared(ss, i)
    ensures GetBysIn(ss, i, j) + (if ss[j].word == NOTIFIED then 1 else 0) <= SwapsIn(ss, i, j)
  {
    if i == j {
      if i > 0 {
        SpendingAt(ss, i);
        SpendingStep(ss[i - 1], ss[i]);
      }
    } else {
      OneParkPerUnpark(ss, i, j - 1);
      SpendingAt(ss, j);
      SpendingStep(ss[j - 1], ss[j]);
    }
  }

  /** A `park` looks at the word and does not find it NOTIFIED. */
  predicate FailsToTake(s: State, s': State) {
    s.parker.Try? && s'.parker != s.parker && s.word != NOTIFIED
  }

  function FailuresIn(ss: seq<State>, i: nat, j: nat): nat
    requires i <= j < |ss|
  {
    if i == j then 0 else FailuresIn(ss, i, j - 1) + if FailsToTake(ss[j - 1], ss[j]) then 1 else 0
  }

  /** The `park` at hand has looked `n` times in vain. */
  predicate HasLooked(p: Parker, n: nat) {
    if p.Try? then p.k == n < 3 else n == 3
  }

  lemma LooksNext(ss: seq<State>, j: nat, n: nat)
    requires Runs.Run(Init, Step, ss) && 0 < j < |ss| && ss[j - 1].parker != Rest && ss[j].parker != Rest
    requires HasLooked(ss[j - 1].parker, n)
    ensures HasLooked(ss[j].parker, n + if FailsToTake(ss[j - 1], ss[j]) then 1 else 0)
  {
    Runs.StepAt(Init, Step, ss, j);
    var e :| CanDo(ss[j - 1], e) && ss[j] == Do(ss[j - 1], e);
  }

  lemma BeginsToTry(ss: seq<State>, i: nat)
    requires Runs.Run(Init, Step, ss) && 0 < i < |ss| && ss[i - 1].parker == Rest && ss[i].parker != Rest
    ensures HasLooked(ss[i].parker, 0)
  {
    Runs.StepAt(Init, Step, ss, i);
    var e :| CanDo(ss[i - 1], e) && ss[i] == Do(ss[i - 1], e);
  }

  lemma {:induction false} LooksAdd(ss: seq<State>, i: nat, j: nat)
    requires Runs.Run(Init, Step, ss) && i <= j < |ss| && HasLooked(ss[i].parker, 0)
    requires forall m | i <= m <= j :: ss[m].parker != Rest
    ensures HasLooked(ss[j].parker, FailuresIn(ss, i, j))
  {
    if i == j {
    } else {
      LooksAdd(ss, i, j - 1);
      LooksNext(ss, j, FailuresIn(ss, i, j - 1));
    }
  }

  /** A `park` goes for the mutex only after it has looked for a notification three times in vain. */
  lemma LooksThreeTimes(ss: seq<State>, i: nat, j: nat)
    requires Runs.Run(Init, Step, ss) && 0 < i <= j < |ss| && ss[i - 1].parker == Rest
    requires (forall m | i <= m <= j :: ss[m].parker != Rest) && ss[j].parker == Lock
    ensures FailuresIn(ss, i, j) == 3
  {
    BeginsToTry(ss, i);
    LooksAdd(ss, i, j);
  }

  /** Found the parker parked, and so goes on to signal. */
  ghost predicate FoundParked(ss: seq<State>, k: nat, u: nat) {
    && k + 1 < |ss| && u in ss[k].unparkers && u in ss[k + 1].unparkers
    && ss[k].unparkers[u] == Swap && ss[k + 1].unparkers[u] == Enter
    && Parked(ss[k].parker)
  }

  /** An unparker signals only if its `swap` found the parker committed to wait and not yet reset. */
  lemma {:induction false} NoIdleSignal(ss: seq<State>, j: nat, u: nat)
    requires Runs.Run(Init, Step, ss) && j < |ss| && u in ss[j].unparkers && Notifying(ss[j].unparkers[u])
    ensures exists k | 0 <= k < j :: FoundParked(ss, k, u)
  {
    if j == 0 {
    } else {
      SpendingAt(ss, j);
      SignallingStep(ss[j - 1], ss[j], u);
      if Notifying(ss[j - 1].unparkers[u]) {
        NoIdleSignal(ss, j - 1, u);
      } else {
        assert FoundParked(ss, j - 1, u);
      }
    }
  }

  lemma SignallingStep(s: State, s': State, u: nat)
    requires Inv(s) && Step(s, s') && u in s'.unparkers && Notifying(s'.unparkers[u])
    ensures u in s.unparkers
    ensures Notifying(s.unparkers[u]) || (s.unparkers[u] == Swap && s'.unparkers[u] == Enter && Parked(s.parker))
  {
    var e :| CanDo(s, e) && s' == Do(s, e);
  }

  /**
    Whoever is kept from the mutex waits for a thread that can release it: unless all unparkers are
    done and the parker rests or sleeps, some thread can take its next step.
   */
  lemma NeverStuck(ss: seq<State>, i: nat)
    requires Runs.Run(Init, Step, ss) && i < |ss|
    requires || (ss[i].parker != Rest && ss[i].parker != Waiting(false))
             || exists u :: u in ss[i].unparkers && ss[i].unparkers[u] != Free
    ensures CanDo(ss[i], Run(false)) || exists u :: CanDo(ss[i], RunUnpark(u))
  {
    EveryRun(ss, i);
    var s := ss[i];
    if s.mutex.AnUnparker? {
      assert CanDo(s, RunUnpark(s.mutex.u));
    } else if u :| u in s.unparkers && s.unparkers[u] != Free {
      assert s.mutex == Nobody ==> CanDo(s, RunUnpark(u));
    }
  }

  // ---------------------------------------------------------------- the methods

  /** What any number of steps of the unparkers may do, seen by the parker. */
  ghost predicate ParkerRely(s: State, s': State) {
    && Inv(s')
    && (s'.parker == s.parker || (s.parker.Waiting? && s'.parker == Waiting(true)))
    && s'.swaps >= s.swaps && s'.word == (if s'.swaps == s.swaps then s.word else NOTIFIED)
    && s'.taken == s.taken && s'.used == s.used && s'.unparkers.Keys == s.unparkers.Keys
  }

  lemma UnparkersRely(s: State, s': State, e: Event)
    requires ParkerRely(s, s') && CanDo(s', e) && (e.Unpark? || e.RunUnpark?)
    ensures ParkerRely(s, Do(s', e))
  {
    StepKeepsInv(s', e);
  }

  /**
    What any number of steps of other threads may do, seen by an unparker: a notification is there
    until a `park` takes it.
   */
  ghost predicate UnparkerRely(s: State, s': State, u: nat) {
    && Inv(s') && u in s.unparkers && u in s'.unparkers && s'.unparkers[u] == s.unparkers[u]
    && (s.word == NOTIFIED ==> s'.word == NOTIFIED || s'.taken > s.taken)
    && s'.taken >= s.taken && s'.swaps >= s.swaps
  }

  lemma OthersRely(s: State, s': State, u: nat, e: Event)
    requires UnparkerRely(s, s', u) && CanDo(s', e) && (e.Unpark? || e.RunUnpark? ==> e.u != u)
    ensures UnparkerRely(s, Do(s', e), u)
  {
    StepKeepsInv(s', e);
  }

  class Inner {
    var state: nat
    /** Who holds the mutex. */
    var mutex: Holder
    /** Where the threads stand. */
    var parker: Parker
    var unparkers: map<nat, Unparker>
    var taken: nat
    var swaps: nat
    var used: nat

    function M(): State
      reads this
    {
      State(state, mutex, parker, unparkers, taken, swaps, used)
    }

    constructor (us: set<nat>)
      ensures Init(M()) && Inv(M()) && unparkers.Keys == us
    {
      state, mutex := EMPTY, Nobody;
      parker, unparkers := Rest, map u | u in us :: Free;
      taken, swaps, used := 0, 0, 0;
    }

    /** The unparkers run. */
    method UnparkersRun()
      requires Inv(M())
      modifies this
      ensures ParkerRely(old(M()), M())
    {
    }

    /** The parker waits for the mutex while the unparkers run; whoever holds it can release it. */
    method ParkerAwaitsMutex()
      requires Inv(M()) && !HasMutex(parker)
      modifies this
      ensures ParkerRely(old(M()), M()) && mutex == Nobody
    {
      if mutex.AnUnparker? {
        UnparkerKeepsInv(M(), mutex.u);
        unparkers := unparkers[mutex.u := Notify];
        mutex := Nobody;
      }
    }

    /** The parker completes one step of the machine. */
    method Moved(before: State, wakes: bool)
      requires Inv(before) && CanDo(before, Run(wakes))
      requires RunParker(before).word == state && RunParker(before).mutex == mutex && before.unparkers == unparkers
      requires before.swaps == swaps
      modifies this`parker, this`taken, this`used
      ensures M() == RunParker(before) && Inv(M())
    {
      parker, taken, used := RunParker(before).parker, RunParker(before).taken, RunParker(before).used;
      ParkerKeepsInv(before, wakes);
    }

    /**
      Returns with a pending notification without waiting, and always returns unpanicked. Every
      notification from before is used up then: the word is NOTIFIED only if it was set since, and
      without a new notification the next call waits.
     */
    method Park() returns (waited: bool)
      requires Inv(M()) && parker == Rest
      modifies this
      ensures Inv(M()) && parker == Rest
      ensures old(swaps) <= used <= swaps && state == if used == swaps then EMPTY else NOTIFIED
      ensures !waited ==> used > old(used)
      ensures old(state) == EMPTY && swaps == old(swaps) ==> waited && state == EMPTY
      ensures old(state) == NOTIFIED ==> !waited && taken == old(taken) + 1
      ensures !waited ==> taken == old(taken) + 1
    {
      parker := Try(0);
      for k := 0 to 3
        invariant Inv(M()) && parker == if k < 3 then Try(k) else Lock
        invariant old(state) == NOTIFIED ==> state == NOTIFIED && k == 0
        invariant taken == old(taken) && swaps >= old(swaps) && used == old(used)
      {
        UnparkersRun();
        var m := M();
        if state == NOTIFIED {
          state := EMPTY;
          Moved(m, false);
          return false;
        }
        Moved(m, false);
      }
      waited := ParkCondvar();
    }

    /** `waited` tells whether the thread slept, from which a signal, the timeout or nothing at all woke it. */
    method ParkCondvar() returns (waited: bool)
      requires Inv(M()) && parker == Lock
      modifies this
      ensures Inv(M()) && parker == Rest
      ensures old(swaps) <= used <= swaps && state == if used == swaps then EMPTY else NOTIFIED
      ensures !waited ==> used > old(used)
      ensures !waited ==> taken == old(taken) + 1
    {
      ParkerAwaitsMutex();
      var m := M();
      mutex := TheParker;
      Moved(m, false);

      UnparkersRun();
      m := M();
      var actual := state;
      if state == EMPTY {
        state := PARKED_CONDVAR;
      }
      Moved(m, false);
      if actual == EMPTY {
        waited := true;
        Sleep();
      } else {
        assert actual == NOTIFIED;
        waited := false;
        TakeNotification();
      }
      Unlock();
    }

    method TakeNotification()
      requires Inv(M()) && parker == Consume
      modifies this
      ensures Inv(M()) && parker == Leave && taken == old(taken) + 1
      ensures used >= old(swaps) && used > old(used)
    {
      UnparkersRun();
      var m := M();
      var prev := state;
      state := EMPTY;
      assert prev == NOTIFIED;
      Moved(m, false);
    }

    method Unlock()
      requires Inv(M()) && parker == Leave
      modifies this
      ensures Inv(M()) && parker == Rest && taken == old(taken) && used == old(used)
    {
      UnparkersRun();
      var m := M();
      mutex := Nobody;
      Moved(m, false);
    }

    /** `wait_timeout`, and the store that follows it. */
    method Sleep()
      requires Inv(M()) && parker == Committed
      modifies this
      ensures Inv(M()) && parker == Leave && used >= old(swaps)
    {
      UnparkersRun();
      var m := M();
      mutex := Nobody;
      Moved(m, false);

      UnparkersRun();
      m := M();
      Moved(m, true);
      WakeUp();
    }

    /** The store clears whatever notification there is by now. */
    method WakeUp()
      requires Inv(M()) && parker == Relock
      modifies this
      ensures Inv(M()) && parker == Leave && used >= old(swaps)
    {
      ParkerAwaitsMutex();
      var m := M();
      mutex := TheParker;
      Moved(m, false);

      UnparkersRun();
      m := M();
      state := EMPTY;
      Moved(m, false);
    }

    /** The parker and the unparkers other than `u` run. */
    method OthersRun(u: nat)
      requires Inv(M()) && u in unparkers
      modifies this
      ensures UnparkerRely(old(M()), M(), u)
    {
    }

    /** Unparker `u` waits for the mutex while the others run; whoever holds it can release it. */
    method UnparkerAwaitsMutex(u: nat)
      requires Inv(M()) && u in unparkers && unparkers[u] == Enter
      modifies this
      ensures UnparkerRely(old(M()), M(), u) && mutex == Nobody
    {
      if mutex.AnUnparker? {
        UnparkerKeepsInv(M(), mutex.u);
        unparkers := unparkers[mutex.u := Notify];
        mutex := Nobody;
      } else if mutex == TheParker {
        while mutex == TheParker
          invariant UnparkerRely(old(M()), M(), u) && HasMutex(parker) == (mutex == TheParker) && !mutex.AnUnparker?
          decreases if parker.Commit? then 3 else if parker.Leave? then 1 else if HasMutex(parker) then 2 else 0
        {
          OthersRely(old(M()), M(), u, Run(false));
          var s' := RunParker(M());
          state, mutex := s'.word, s'.mutex;
          parker, taken, used := s'.parker, s'.taken, s'.used;
        }
      }
    }

    /** Unparker `u` completes one step of the machine. */
    method UnparkMoved(before: State, u: nat)
      requires Inv(before) && CanDo(before, RunUnpark(u))
      requires RunUnparker(before, u).word == state && RunUnparker(before, u).mutex == mutex
      requires before.parker == parker && before.unparkers == unparkers && before.taken == taken
      requires before.swaps == swaps && before.used == used
      modifies this`parker, this`unparkers, this`swaps
      ensures M() == RunUnparker(before, u) && Inv(M())
    {
      parker, unparkers := RunUnparker(before, u).parker, RunUnparker(before, u).unparkers;
      swaps := RunUnparker(before, u).swaps;
      UnparkerKeepsInv(before, u);
    }

    /** When `unpark` returns, the notification is there, or a `park` has taken it; it never panics. */
    method Unpark(u: nat)
      requires Inv(M()) && u in unparkers && unparkers[u] == Free
      modifies this
      ensures Inv(M()) && u in unparkers && unparkers[u] == Free
      ensures state == NOTIFIED || taken > old(taken)
      ensures state == NOTIFIED && parker == Waiting(false) ==>
                exists v :: v in unparkers && v != u && Notifying(unparkers[v])
    {
      StepKeepsInv(M(), Event.Unpark(u));
      unparkers := unparkers[u := Swap];
      OthersRun(u);
      var m := M();
      var prev := state;
      state := NOTIFIED;
      UnparkMoved(m, u);
      if prev == PARKED_CONDVAR {
        OthersRun(u);
        UnparkCondvar(u);
      } else {
        assert prev == NOTIFIED || prev == EMPTY;
      }
    }

    method UnparkCondvar(u: nat)
      requires Inv(M()) && u in unparkers && unparkers[u] == Enter
      modifies this
      ensures Inv(M()) && u in unparkers && unparkers[u] == Free
      ensures taken >= old(taken) && (old(state) == NOTIFIED ==> state == NOTIFIED || taken > old(taken))
    {
      UnparkerAwaitsMutex(u);
      var m := M();
      mutex := AnUnparker(u);
      UnparkMoved(m, u);

      OthersRun(u);
      m := M();
      mutex := Nobody;
      UnparkMoved(m, u);

      OthersRun(u);
      m := M();
      UnparkMoved(m, u);
    }
  }
}
