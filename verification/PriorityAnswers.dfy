/**
  What `recv` answers. A poll ends with `Ready(Some)`, `Ready(None)` or `Pending`; which of them,
  and with which item, is told here by what was queued and who was there in the course of the run.
 */
module PriorityAnswers {
  import opened Util
  import opened PriorityQueues
  import opened PriorityChannels
  import O = PriorityOrder
  import W = AtomicWakers
  import Runs

  /** A poll begins with the step from `k`. */
  predicate PollAt(ss: seq<State>, k: nat) {
    k + 1 < |ss| && AtCaller(ss[k].rx) && !AtCaller(ss[k + 1].rx)
  }

  /** No other poll begins after `k` and before `j`. */
  predicate NoPoll(ss: seq<State>, k: nat, j: nat) {
    forall m: nat | k < m < j :: !PollAt(ss, m)
  }

  /** The first or the second scan of a poll begins. */
  predicate ScanBegins(ss: seq<State>, k: nat) {
    k + 1 < |ss| && !ss[k].rx.Scan? && ss[k + 1].rx.Scan?
  }

  predicate SecondScanBegins(ss: seq<State>, k: nat) {
    k + 1 < |ss| && ss[k].rx.Registering? && ss[k + 1].rx.Scan?
  }

  /** A scan ends without having found anything. */
  predicate FindsNothing(ss: seq<State>, k: nat) {
    k + 1 < |ss| && ss[k].rx.Scan? && ss[k + 1].rx.Flag?
  }

  function First(s: seq<Item<nat>>): Option<Item<nat>> {
    if s == [] then None else Some(s[0])
  }

  // ---------------------------------------------------------------- an answer and what was taken

  /** Since `before` had been taken, the answer has been taken, if there is one. */
  predicate Took(before: seq<Item<nat>>, s: State) {
    s.popped == before + if s.rx.Done? && s.rx.answer.Some? then [s.rx.answer.value] else []
  }

  /** Thread 0 of the waker does nothing while `recv` scans or is over. */
  lemma WakerLeavesRx(s: State, t: nat, panics: bool)
    requires Inv(s) && CanDo(s, Waker(t, panics)) && !s.rx.Registering?
    ensures Do(s, Waker(t, panics)) == s.(m := W.Do(s.m, W.Run(t, panics)))
  {
    assert t == 0 ==> s.rx.Unwinding?;
  }

  lemma TookNext(before: seq<Item<nat>>, s: State, s': State)
    requires Inv(s) && Step(s, s') && Took(before, s) && !(AtCaller(s.rx) && !AtCaller(s'.rx))
    ensures Took(before, s')
  {
    var e :| CanDo(s, e) && s' == Do(s, e);
    OnlyRxMoves(s, e);
    if e.RxStep? {
      TookRx(before, s);
    }
  }

  lemma TookRx(before: seq<Item<nat>>, s: State)
    requires Took(before, s) && CanDo(s, RxStep)
    ensures Took(before, DoRx(s))
  {
  }

  /** Nobody else moves `recv`, but that a registration may panic. */
  lemma OnlyRxMoves(s: State, e: Event)
    requires Inv(s) && CanDo(s, e)
    ensures !e.Poll? && !e.RxStep? ==> Do(s, e).popped == s.popped
    ensures !e.Poll? && !e.RxStep? ==> Do(s, e).rx == s.rx || (s.rx.Registering? && Do(s, e).rx.Unwinding?)
    ensures s.ended ==> Do(s, e).ended
  {
    match e
    case Waker(t, panics) =>
      if !s.rx.Registering? {
        WakerLeavesRx(s, t, panics);
      }
    case TxStep(t) =>
    case _ =>
  }

  lemma TookFirst(s: State, s': State)
    requires Inv(s) && Step(s, s') && AtCaller(s.rx) && !AtCaller(s'.rx)
    ensures Took(s.popped, s')
  {
    var e :| CanDo(s, e) && s' == Do(s, e);
  }

  /**
    A poll that answers `Ready(Some(x))` has taken `x` from the queue and nothing else; any other
    has taken nothing.
   */
  lemma AnswersWhatItTakes(ss: seq<State>, k: nat, j: nat)
    requires Runs.Run(Init, Step, ss) && PollAt(ss, k) && k < j < |ss| && NoPoll(ss, k, j)
    ensures Took(ss[k].popped, ss[j])
  {
    var before := ss[k].popped;
    TookFrom(ss, k);
    forall m | k + 1 < m <= j ensures Took(before, ss[m - 1]) ==> Took(before, ss[m]) {
      TookAt(ss, m, before);
    }
    Runs.Onward(s => Took(before, s), ss, k + 1, j);
  }

  lemma OneStep(ss: seq<State>, j: nat)
    requires Runs.Run(Init, Step, ss) && 0 < j < |ss|
    ensures Inv(ss[j - 1]) && Step(ss[j - 1], ss[j])
  {
    EveryRun(ss, j - 1);
    Runs.StepAt(Init, Step, ss, j);
  }

  lemma TookFrom(ss: seq<State>, k: nat)
    requires Runs.Run(Init, Step, ss) && PollAt(ss, k)
    ensures Took(ss[k].popped, ss[k + 1])
  {
    OneStep(ss, k + 1);
    TookFirst(ss[k], ss[k + 1]);
  }

  lemma TookAt(ss: seq<State>, j: nat, before: seq<Item<nat>>)
    requires Runs.Run(Init, Step, ss) && 0 < j < |ss| && !PollAt(ss, j - 1)
    ensures Took(before, ss[j - 1]) ==> Took(before, ss[j])
  {
    OneStep(ss, j);
    if Took(before, ss[j - 1]) {
      TookNext(before, ss[j - 1], ss[j]);
    }
  }

  // ---------------------------------------------------------------- when the senders are gone

  lemma {:induction false} TakenFirst(es: Entries, n: nat)
    requires n < |es| && !SomethingBefore(es, n) && es[n].queue != []
    ensures Flatten(es) == [Item(es[n].priority, es[n].queue[0])] + Flatten(PopAtIndex(es, n))
  {
    if n == 0 {
      assert PopAtIndex(es, 0)[1..] == es[1..];
      assert Tagged(es[0].priority, es[0].queue)
          == [Item(es[0].priority, es[0].queue[0])] + Tagged(es[0].priority, es[0].queue[1..]);
    } else {
      assert es[0].queue == [];
      forall k | 0 <= k < n - 1 ensures es[1..][k].queue == [] {
        assert es[k + 1].queue == [];
      }
      TakenFirst(es[1..], n - 1);
      assert PopAtIndex(es, n)[1..] == PopAtIndex(es[1..], n - 1);
      assert Tagged(es[0].priority, es[0].queue) == [];
    }
  }

  lemma {:induction false} NothingListed(es: Entries)
    requires !SomethingBefore(es, |es|)
    ensures Flatten(es) == []
  {
    if es == [] {
    } else {
      assert es[0].queue == [];
      forall k | 0 <= k < |es[1..]| ensures es[1..][k].queue == [] {
        assert es[k + 1].queue == [];
      }
      NothingListed(es[1..]);
    }
  }

  /** The senders are gone for good, and `recv` is on its way to an answer or has given one. */
  ghost predicate Draining(s: State) {
    && s.ended && (forall t | t in s.tx :: s.tx[t] == Rest)
    && match s.rx
       case Scan(_, n, _, _) => !SomethingBefore(s.entries, n)
       case Flag(_, _) => !SomethingBefore(s.entries, |s.entries|)
       case Done(answer) => answer == None ==> Flatten(s.entries) == []
       case _ => false
  }

  lemma DrainingScan(s: State)
    requires Inv(s) && Draining(s) && s.rx.Scan?
    ensures Draining(DoRx(s))
    ensures DoRx(s).popped + Flatten(DoRx(s).entries) == s.popped + Flatten(s.entries)
  {
    var n := s.rx.n;
    if n < |s.entries| && s.entries[n].queue != [] {
      TakenFirst(s.entries, n);
    }
  }

  lemma DrainingNext(s: State, s': State)
    requires Inv(s) && Draining(s) && Step(s, s')
    ensures Draining(s') && s'.popped + Flatten(s'.entries) == s.popped + Flatten(s.entries)
  {
    var e :| CanDo(s, e) && s' == Do(s, e);
    match e
    case RxStep =>
      if s.rx.Scan? {
        DrainingScan(s);
      } else {
        NothingListed(s.entries);
      }
    case Waker(t, panics) => WakerLeavesRx(s, t, panics);
    case _ =>
  }

  lemma DrainingBegins(s: State, s': State)
    requires Inv(s) && Step(s, s') && s.ended && !s.rx.Scan? && s'.rx.Scan?
    ensures Draining(s') && s'.popped == s.popped && s'.entries == s.entries
  {
    var e :| CanDo(s, e) && s' == Do(s, e);
  }

  /**
    Once a scan has begun after the senders were gone, `recv` never registers or answers `Pending`
    again: every poll ends in an answer, and the answers are what was queued, in the order of the
    stable sort, with `Ready(None)` only after the last.
   */
  lemma {:induction false} DrainsInOrder(ss: seq<State>, k: nat, j: nat)
    requires Runs.Run(Init, Step, ss) && ScanBegins(ss, k) && ss[k].ended && k < j < |ss|
    ensures ss[j].rx.Scan? || ss[j].rx.Flag? || ss[j].rx.Done?
    ensures ss[j].rx == Done(None) ==> Flatten(ss[j].entries) == []
    ensures ss[j].popped + Flatten(ss[j].entries) == ss[k].popped + Flatten(ss[k].entries)
    ensures Sorted(Flatten(ss[k].entries)) && Draining(ss[j])
  {
    if j == k + 1 {
      DrainingFrom(ss, k);
    } else {
      DrainsInOrder(ss, k, j - 1);
      DrainingAt(ss, j);
    }
  }

  lemma DrainingFrom(ss: seq<State>, k: nat)
    requires Runs.Run(Init, Step, ss) && ScanBegins(ss, k) && ss[k].ended
    ensures Draining(ss[k + 1]) && ss[k + 1].popped == ss[k].popped && ss[k + 1].entries == ss[k].entries
    ensures Sorted(Flatten(ss[k].entries))
  {
    OneStep(ss, k + 1);
    DrainingBegins(ss[k], ss[k + 1]);
    O.EveryRunOrdered(ss, k);
    FlattenSorted(ss[k].entries);
  }

  lemma DrainingAt(ss: seq<State>, j: nat)
    requires Runs.Run(Init, Step, ss) && 0 < j < |ss| && Draining(ss[j - 1])
    ensures Draining(ss[j])
    ensures ss[j].popped + Flatten(ss[j].entries) == ss[j - 1].popped + Flatten(ss[j - 1].entries)
  {
    OneStep(ss, j);
    DrainingNext(ss[j - 1], ss[j]);
  }

  /**
    A poll that begins after the senders were gone never registers and is never pending; it
    answers the first of the queued items, or `None` if there is none.
   */
  lemma GonePollAnswers(ss: seq<State>, k: nat, j: nat)
    requires Runs.Run(Init, Step, ss) && PollAt(ss, k) && ss[k].ended && k < j < |ss| && NoPoll(ss, k, j)
    ensures !ss[j].rx.Registering? && !ss[j].rx.Unwinding? && !ss[j].rx.Unwound? && !ss[j].rx.Pending?
    ensures ss[j].rx.Done? ==> ss[j].rx.answer == First(Flatten(ss[k].entries))
  {
    OneStep(ss, k + 1);
    PollScans(ss[k], ss[k + 1]);
    DrainsInOrder(ss, k, j);
    AnswersWhatItTakes(ss, k, j);
    if ss[j].rx.Done? {
      AnswersFirst(ss[k].popped, ss[j].rx.answer, Flatten(ss[j].entries), Flatten(ss[k].entries));
    }
  }

  lemma AnswersFirst(before: seq<Item<nat>>, answer: Option<Item<nat>>, left: seq<Item<nat>>, queued: seq<Item<nat>>)
    requires before + (if answer.Some? then [answer.value] else []) + left == before + queued
    requires answer == None ==> left == []
    ensures answer == First(queued)
  {
    var taken := if answer.Some? then [answer.value] else [];
    assert before + taken + left == before + (taken + left);
    assert (before + (taken + left))[|before|..] == taken + left && (before + queued)[|before|..] == queued;
  }

  lemma PollScans(s: State, s': State)
    requires Inv(s) && Step(s, s') && AtCaller(s.rx) && !AtCaller(s'.rx)
    ensures !s.rx.Scan? && s'.rx.Scan?
  {
    var e :| CanDo(s, e) && s' == Do(s, e);
  }

  // ---------------------------------------------------------------- `Pending`

  /** The second scan of the poll at hand began at `k`. */
  predicate RescansSince(ss: seq<State>, k: nat, j: nat) {
    k < j && SecondScanBegins(ss, k) && NoPoll(ss, k, j)
  }

  lemma {:induction false} HasRescanned(ss: seq<State>, j: nat) returns (k: nat)
    requires Runs.Run(Init, Step, ss) && j < |ss| && Rescanning(ss[j].rx)
    ensures RescansSince(ss, k, j)
  {
    k := 0;
    if j > 0 {
      RescanAt(ss, j);
      k := j - 1;
      if Rescanning(ss[j - 1].rx) {
        k := HasRescanned(ss, j - 1);
        StillSince(ss, k, j);
      }
    }
  }

  lemma StillSince(ss: seq<State>, k: nat, j: nat)
    requires 0 < j && RescansSince(ss, k, j - 1) && !PollAt(ss, j - 1)
    ensures RescansSince(ss, k, j)
  {
  }

  lemma RescanAt(ss: seq<State>, j: nat)
    requires Runs.Run(Init, Step, ss) && 0 < j < |ss| && Rescanning(ss[j].rx)
    ensures if Rescanning(ss[j - 1].rx) then !PollAt(ss, j - 1) else SecondScanBegins(ss, j - 1)
  {
    OneStep(ss, j);
    RescanStep(ss[j - 1], ss[j]);
  }

  lemma RescanStep(s: State, s': State)
    requires Inv(s) && Step(s, s') && Rescanning(s'.rx)
    ensures if Rescanning(s.rx) then !(AtCaller(s.rx) && !AtCaller(s'.rx)) else s.rx.Registering? && s'.rx.Scan?
  {
    var e :| CanDo(s, e) && s' == Do(s, e);
    OnlyRxMoves(s, e);
  }

  /** `Pending` is answered only after a second scan, and only if the senders were not yet gone when that began. */
  lemma PendingOnlyWhileOpen(ss: seq<State>, j: nat)
    requires Runs.Run(Init, Step, ss) && j < |ss| && ss[j].rx.Pending?
    ensures exists k: nat :: RescansSince(ss, k, j) && !ss[k].ended
  {
    var k := HasRescanned(ss, j);
    if ss[k].ended {
      DrainsInOrder(ss, k, j);
    }
  }

  // ---------------------------------------------------------------- `Ready(None)`

  /** `recv` is at the flag, or answered `Ready(None)` there. */
  predicate AtFlag(rx: Rx) {
    rx.Flag? || rx == Done(None)
  }

  /** The scan that ended at `k` found nothing, and since then nothing was left but to read the flag. */
  predicate NothingSince(ss: seq<State>, k: nat, j: nat) {
    k < j < |ss| && FindsNothing(ss, k) && forall m | k < m <= j :: AtFlag(ss[m].rx)
  }

  lemma FlagStep(s: State, s': State)
    requires Inv(s) && Step(s, s') && AtFlag(s'.rx)
    ensures AtFlag(s.rx) || (s.rx.Scan? && s'.rx.Flag?)
    ensures s.ended ==> s'.ended
    ensures s'.rx == Done(None) ==> s.rx == Done(None) || s.ended
  {
    var e :| CanDo(s, e) && s' == Do(s, e);
    OnlyRxMoves(s, e);
  }

  lemma FlagAt(ss: seq<State>, j: nat)
    requires Runs.Run(Init, Step, ss) && 0 < j < |ss| && AtFlag(ss[j].rx)
    ensures AtFlag(ss[j - 1].rx) || FindsNothing(ss, j - 1)
    ensures ss[j].rx == Done(None) ==> ss[j - 1].rx == Done(None) || ss[j].ended
    ensures ss[j - 1].ended ==> ss[j].ended
  {
    OneStep(ss, j);
    FlagStep(ss[j - 1], ss[j]);
  }

  lemma {:induction false} HasFoundNothing(ss: seq<State>, j: nat) returns (k: nat)
    requires Runs.Run(Init, Step, ss) && j < |ss| && AtFlag(ss[j].rx)
    ensures NothingSince(ss, k, j) && (ss[j].rx == Done(None) ==> ss[j].ended)
  {
    k := 0;
    if j > 0 {
      FlagAt(ss, j);
      k := j - 1;
      if AtFlag(ss[j - 1].rx) {
        k := HasFoundNothing(ss, j - 1);
      }
    }
  }

  /**
    `Ready(None)` is answered only when the senders are gone, after a scan that began on an empty
    queue and found nothing.
   */
  lemma NoneOnlyAfterTheEnd(ss: seq<State>, j: nat)
    requires Runs.Run(Init, Step, ss) && j < |ss| && ss[j].rx == Done(None)
    ensures ss[j].ended
    ensures exists k: nat :: NothingSince(ss, k, j) && Flatten(ss[k].rx.began) == []
  {
    var k := HasFoundNothing(ss, j);
    OneStep(ss, k + 1);
    ScanEnds(ss[k], ss[k + 1]);
    O.FindsNothingOnlyInEmpty(ss, k);
  }

  lemma ScanEnds(s: State, s': State)
    requires Inv(s) && Step(s, s') && s.rx.Scan? && s'.rx.Flag?
    ensures s' == DoRx(s)
  {
    var e :| CanDo(s, e) && s' == Do(s, e);
    OnlyRxMoves(s, e);
  }

  // ---------------------------------------------------------------- what a scan remembers

  /** What a scan records of its beginning is what there was: who had gone, and what was queued. */
  lemma {:induction false} ScanRemembers(ss: seq<State>, k: nat, j: nat)
    requires Runs.Run(Init, Step, ss) && ScanBegins(ss, k) && k < j < |ss|
    requires forall m | k < m <= j :: ss[m].rx.Scan?
    ensures Remembers(ss[k], ss[j])
  {
    if j == k + 1 {
      RemembersFrom(ss, k);
    } else {
      ScanRemembers(ss, k, j - 1);
      RemembersAt(ss, j, ss[k]);
    }
  }

  predicate Remembers(s: State, s': State) {
    s'.rx.Scan? && s'.rx.closedBefore == s.ended && s'.rx.began == s.entries
  }

  lemma RemembersFrom(ss: seq<State>, k: nat)
    requires Runs.Run(Init, Step, ss) && ScanBegins(ss, k)
    ensures Remembers(ss[k], ss[k + 1])
  {
    OneStep(ss, k + 1);
    ScanStep(ss[k], ss[k + 1]);
  }

  lemma RemembersAt(ss: seq<State>, j: nat, s: State)
    requires Runs.Run(Init, Step, ss) && 0 < j < |ss| && Remembers(s, ss[j - 1]) && ss[j].rx.Scan?
    ensures Remembers(s, ss[j])
  {
    OneStep(ss, j);
    ScanStep(ss[j - 1], ss[j]);
  }

  lemma ScanStep(s: State, s': State)
    requires Inv(s) && Step(s, s') && s'.rx.Scan?
    ensures if s.rx.Scan? then s'.rx.closedBefore == s.rx.closedBefore && s'.rx.began == s.rx.began
            else s'.rx.closedBefore == s.ended && s'.rx.began == s.entries
  {
    var e :| CanDo(s, e) && s' == Do(s, e);
    OnlyRxMoves(s, e);
  }
}
