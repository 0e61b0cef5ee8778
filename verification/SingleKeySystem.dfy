/**
  Runs of the single-key channel: senders, the receiver's turns and drops of delivered
  messages, interleaved at every queue operation. Values travel as tags, the positions of
  their messages in the order of acceptance.
 */
module SingleKeySystem {
  import opened Util
  import opened Keys
  import opened SingleKeyChannels
  import Runs

  datatype Sys = Sys(
    accepted: seq<Item<Value>>,    // every message pushed, in push order
    r: Recv<nat>,                  // both queues and the table of keys in use
    out: map<nat, Key>,            // living `Message` objects, by their place among the delivered
    delivered: seq<Item<nat>>,     // what the receiver handed out, in order
    panicked: bool)

  datatype Event = Send(e: Item<Value>) | DropMessage(i: nat) | Receive(turn: Turn)

  ghost predicate Init(s: Sys) {
    s == Sys([], Recv([], [], map[]), map[], [], false)
  }

  predicate CanDo(s: Sys, e: Event) {
    && !s.panicked
    && match e
       case Send(_) => true
       case DropMessage(i) => i in s.out
       case Receive(turn) => CanTurn(s.r, turn)
  }

  function Do(s: Sys, e: Event): Sys
    requires CanDo(s, e)
  {
    match e
    case Send(x) => s.(accepted := s.accepted + [x], r := s.r.(q := s.r.q + [Item(x.k, |s.accepted|)]))
    case DropMessage(i) => s.(out := s.out - {i}, r := s.r.(dropq := s.r.dropq + [s.out[i]]))
    case Receive(turn) =>
      var o := DoTurn(s.r, turn);
      match o.got
      case MissingKey => s.(panicked := true)
      case Nothing => s.(r := o.r)
      case Got(x) => s.(r := o.r, out := s.out[|s.delivered| := x.k], delivered := s.delivered + [x])
  }

  ghost predicate Step(s: Sys, s': Sys) {
    exists e :: CanDo(s, e) && s' == Do(s, e)
  }

  // ---------------------------------------------------------------- invariant

  /** The messages of key `k`, in order. */
  function Of<V>(k: Key, s: seq<Item<V>>): seq<Item<V>> {
    if s == [] then []
    else if s[0].k == k then [s[0]] + Of(k, s[1..])
    else Of(k, s[1..])
  }

  lemma {:induction false} OfConcat<V>(k: Key, a: seq<Item<V>>, b: seq<Item<V>>)
    ensures Of(k, a + b) == Of(k, a) + Of(k, b)
  {
    if a == [] {
      assert a + b == b;
    } else {
      OfConcat(k, a[1..], b);
      assert (a + b)[1..] == a[1..] + b;
    }
  }

  lemma OfOne<V>(k: Key, e: Item<V>)
    ensures Of(k, [e]) == if e.k == k then [e] else []
  {
    assert [e][1..] == [];
  }

  function Tagged(accepted: seq<Item<Value>>): (r: seq<Item<nat>>)
    ensures |r| == |accepted|
  {
    seq(|accepted|, i requires 0 <= i < |accepted| => Item(accepted[i].k, i))
  }

  function WaitingFor(using: map<Key, seq<Item<nat>>>, k: Key): seq<Item<nat>> {
    if k in using then using[k] else []
  }

  /** Per key, what was delivered, then what waits, then what is queued is what was accepted, in order. */
  ghost predicate LinedAt(s: Sys, k: Key) {
    Of(k, s.delivered) + WaitingFor(s.r.using, k) + Of(k, s.r.q) == Of(k, Tagged(s.accepted))
  }

  ghost predicate Lined(s: Sys) {
    forall k :: LinedAt(s, k)
  }

  /**
    The keys in use are the disjoint union of those of the living messages and those in the drop
    queue, each once.
   */
  ghost predicate Owned(s: Sys) {
    && Distinct(s.r.dropq)
    && (forall k | k in s.r.dropq :: k in s.r.using)
    && (forall i | i in s.out :: s.out[i] in s.r.using && s.out[i] !in s.r.dropq)
    && (forall i, j | i in s.out && j in s.out && s.out[i] == s.out[j] :: i == j)
    && (forall k | k in s.r.using && k !in s.r.dropq :: exists i :: i in s.out && s.out[i] == k)
    && (forall i | i in s.out :: i < |s.delivered| && s.delivered[i].k == s.out[i])
  }

  ghost predicate Inv(s: Sys) {
    Owned(s) && Lined(s) && !s.panicked
  }

  lemma InitInv(s: Sys)
    requires Init(s)
    ensures Inv(s)
  {
  }

  lemma SendKeepsLined(s: Sys, x: Item<Value>, k: Key)
    requires LinedAt(s, k) && CanDo(s, Send(x))
    ensures LinedAt(Do(s, Send(x)), k)
  {
    var e: Item<nat> := Item(x.k, |s.accepted|);
    assert Tagged(Do(s, Send(x)).accepted) == Tagged(s.accepted) + [e];
    OfAppend(k, s.r.q, e);
    OfAppend(k, Tagged(s.accepted), e);
  }

  /** An element may sit at the end of one part of a line or at the start of the next. */
  lemma Regroup<T>(a: seq<T>, b: seq<T>, c: seq<T>, x: T)
    ensures a + (b + [x]) + c == a + b + ([x] + c)
    ensures (a + [x]) + b + c == a + ([x] + b) + c
  {
  }

  lemma NewKeepsLined(s: Sys, k: Key)
    requires LinedAt(s, k) && CanDo(s, Receive(NewTurn))
    ensures LinedAt(Do(s, Receive(NewTurn)), k)
  {
    var e, rest := s.r.q[0], s.r.q[1..];
    var s' := Do(s, Receive(NewTurn));
    OfQueue(k, s.r.q);
    OfAppend(k, s.delivered, e);
    Regroup(Of(k, s.delivered), WaitingFor(s.r.using, k), Of(k, rest), e);
    if e.k != k {
      assert WaitingFor(s'.r.using, k) == WaitingFor(s.r.using, k) && Of(k, s'.delivered) == Of(k, s.delivered);
    }
  }

  lemma OfQueue(k: Key, q: seq<Item<nat>>)
    requires q != []
    ensures Of(k, q) == if q[0].k == k then [q[0]] + Of(k, q[1..]) else Of(k, q[1..])
  {
  }

  lemma OfAppend(k: Key, s: seq<Item<nat>>, e: Item<nat>)
    ensures Of(k, s + [e]) == if e.k == k then Of(k, s) + [e] else Of(k, s)
  {
    OfConcat(k, s, [e]);
    OfOne(k, e);
  }

  lemma DropKeepsLined(s: Sys, k: Key)
    requires LinedAt(s, k) && CanDo(s, Receive(DropTurn))
    requires forall e | e in WaitingFor(s.r.using, s.r.dropq[0]) :: e.k == s.r.dropq[0]
    ensures LinedAt(Do(s, Receive(DropTurn)), k)
  {
    var line := WaitingFor(s.r.using, s.r.dropq[0]);
    if line != [] {
      var e, rest := line[0], line[1..];
      assert e in line && line == [e] + rest;
      OfAppend(k, s.delivered, e);
      Regroup(Of(k, s.delivered), rest, Of(k, s.r.q), e);
    }
  }

  /** A message waits only in the line of its own key. */
  lemma WaitsInOwnLine(s: Sys, k: Key, e: Item<nat>)
    requires Lined(s) && e in WaitingFor(s.r.using, k)
    ensures e.k == k
  {
    assert LinedAt(s, k);
    OfHasKey(k, Tagged(s.accepted));
    assert e in Of(k, Tagged(s.accepted));
  }

  lemma {:induction false} OfHasKey<V>(k: Key, s: seq<Item<V>>)
    ensures forall e | e in Of(k, s) :: e.k == k && e in s
  {
    if s == [] {
    } else {
      OfHasKey(k, s[1..]);
      assert forall e | e in s[1..] :: e in s;
    }
  }

  lemma StepKeepsInv(s: Sys, e: Event)
    requires Inv(s) && CanDo(s, e)
    ensures Inv(Do(s, e))
  {
    match e
    case Send(x) =>
      forall k ensures LinedAt(Do(s, e), k) { SendKeepsLined(s, x, k); }
    case DropMessage(i) =>
      DropMessageKeepsOwned(s, i);
      forall k ensures LinedAt(Do(s, e), k) { assert LinedAt(s, k); }
    case Receive(NewTurn) =>
      forall k ensures LinedAt(Do(s, e), k) { NewKeepsLined(s, k); }
      NewKeepsOwned(s);
    case Receive(DropTurn) =>
      var d := s.r.dropq[0];
      assert d in s.r.dropq;
      forall x | x in WaitingFor(s.r.using, d) ensures x.k == d {
        WaitsInOwnLine(s, d, x);
      }
      forall k ensures LinedAt(Do(s, e), k) { DropKeepsLined(s, k); }
      DropKeepsOwned(s);
  }

  lemma DropMessageKeepsOwned(s: Sys, i: nat)
    requires Owned(s) && CanDo(s, DropMessage(i))
    ensures Owned(Do(s, DropMessage(i)))
  {
    var s' := Do(s, DropMessage(i));
    forall k | k in s'.r.using && k !in s'.r.dropq ensures exists j :: j in s'.out && s'.out[j] == k {
      var j :| j in s.out && s.out[j] == k;
      assert j in s'.out;
    }
  }

  /** A delivered message becomes the owner of a key that is not in use, or was just released. */
  lemma NewOwner(s: Sys, s': Sys, x: Item<nat>)
    requires Owned(s) && s'.r.dropq == s.r.dropq && x.k !in s.r.using
    requires s'.r.using.Keys == s.r.using.Keys + {x.k}
    requires s'.delivered == s.delivered + [x] && s'.out == s.out[|s.delivered| := x.k]
    ensures Owned(s')
  {
    forall k | k in s'.r.using && k !in s'.r.dropq ensures exists j :: j in s'.out && s'.out[j] == k {
      if k in s.r.using {
        var j :| j in s.out && s.out[j] == k;
        assert j in s'.out && s'.out[j] == k;
      } else {
        assert s'.out[|s.delivered|] == k;
      }
    }
  }

  lemma NewKeepsOwned(s: Sys)
    requires Owned(s) && CanDo(s, Receive(NewTurn))
    ensures Owned(Do(s, Receive(NewTurn)))
  {
    if s.r.q[0].k !in s.r.using {
      NewOwner(s, Do(s, Receive(NewTurn)), s.r.q[0]);
    }
  }

  /** The key at the head of the drop queue has no owner any more. */
  lemma KeyReleased(s: Sys, s': Sys)
    requires Owned(s) && s.r.dropq != [] && s'.r.dropq == s.r.dropq[1..]
    requires s'.r.using.Keys == s.r.using.Keys - {s.r.dropq[0]}
    requires s'.delivered == s.delivered && s'.out == s.out
    ensures Owned(s') && s.r.dropq[0] !in s'.r.using
  {
    var d := s.r.dropq[0];
    assert s.r.dropq == [d] + s.r.dropq[1..];
    assert forall k :: k in s.r.dropq <==> k == d || k in s.r.dropq[1..];
  }

  lemma DropKeepsOwned(s: Sys)
    requires Owned(s) && CanDo(s, Receive(DropTurn)) && s.r.dropq[0] in s.r.using
    requires forall e | e in s.r.using[s.r.dropq[0]] :: e.k == s.r.dropq[0]
    ensures Owned(Do(s, Receive(DropTurn))) && !Do(s, Receive(DropTurn)).panicked
  {
    var s', d := Do(s, Receive(DropTurn)), s.r.dropq[0];
    var released := s.(r := s.r.(dropq := s.r.dropq[1..], using := s.r.using - {d}));
    KeyReleased(s, released);
    if s.r.using[d] != [] {
      assert s.r.using[d][0] in s.r.using[d];
      NewOwner(released, s', s.r.using[d][0]);
    }
  }

  // ---------------------------------------------------------------- theorems

  /**
    In every run, per-key order and the ownership of keys hold, and neither the missing-key panic
    nor the insert assertion is reached.
   */
  lemma EveryRun(ss: seq<Sys>, i: nat)
    requires Runs.Run(Init, Step, ss) && i < |ss|
    ensures Inv(ss[i])
  {
    forall s | Init(s) ensures Inv(s) {
      InitInv(s);
    }
    forall s, s' | Inv(s) && Step(s, s') ensures Inv(s') {
      var e :| CanDo(s, e) && s' == Do(s, e);
      StepKeepsInv(s, e);
    }
    Runs.Invariant(Init, Step, Inv, ss, i);
  }

  /** Tags of one key's accepted messages grow. */
  lemma {:induction false} TagsGrow(k: Key, accepted: seq<Item<Value>>)
    ensures forall e | e in Of(k, Tagged(accepted)) :: e.k == k && e.v < |accepted| && accepted[e.v].k == k
    ensures forall i, j | 0 <= i < j < |Of(k, Tagged(accepted))| ::
              Of(k, Tagged(accepted))[i].v < Of(k, Tagged(accepted))[j].v
  {
    if accepted == [] {
    } else {
      var n := |accepted| - 1;
      var e: Item<nat> := Item(accepted[n].k, n);
      TagsGrow(k, accepted[..n]);
      assert Tagged(accepted) == Tagged(accepted[..n]) + [e];
      OfConcat(k, Tagged(accepted[..n]), [e]);
      OfOne(k, e);
    }
  }

  lemma {:induction false} InOf<V>(k: Key, s: seq<Item<V>>, i: nat)
    requires i < |s| && s[i].k == k
    ensures s[i] in Of(k, s)
  {
    if i == 0 {
    } else {
      InOf(k, s[1..], i - 1);
    }
  }

  ghost predicate IsDelivered(s: Sys, t: nat) {
    exists i :: 0 <= i < |s.delivered| && s.delivered[i].v == t
  }

  ghost function Pending(s: Sys): set<nat> {
    set t: nat | t < |s.accepted| && !IsDelivered(s, t)
  }

  /** A message that still waits or is queued was accepted and not delivered. */
  lemma NotYetDelivered(s: Sys, e: Item<nat>)
    requires Inv(s) && e in WaitingFor(s.r.using, e.k) + Of(e.k, s.r.q)
    ensures e.v in Pending(s) && s.accepted[e.v].k == e.k
  {
    var before, rest := Of(e.k, s.delivered), WaitingFor(s.r.using, e.k) + Of(e.k, s.r.q);
    assert LinedAt(s, e.k) && before + rest == Of(e.k, Tagged(s.accepted));
    LaterTags(e.k, s.accepted, before, rest, e);
    forall i | 0 <= i < |s.delivered| ensures s.delivered[i].v != e.v {
      DeliveredAccepted(s, i);
      if s.delivered[i].k == e.k {
        InOf(e.k, s.delivered, i);
      }
    }
  }

  lemma LaterTags(k: Key, accepted: seq<Item<Value>>, before: seq<Item<nat>>, rest: seq<Item<nat>>, e: Item<nat>)
    requires before + rest == Of(k, Tagged(accepted)) && e in rest
    ensures e.v < |accepted| && accepted[e.v].k == k
    ensures forall x | x in before :: x.v < e.v
  {
    TagsGrow(k, accepted);
    var all := before + rest;
    var j :| 0 <= j < |rest| && rest[j] == e;
    assert all[|before| + j] == e && e in all;
    forall x | x in before ensures x.v < e.v {
      var b :| 0 <= b < |before| && before[b] == x;
      assert all[b] == x;
    }
  }

  lemma DeliveredAccepted(s: Sys, i: nat)
    requires Inv(s) && i < |s.delivered|
    ensures s.delivered[i].v < |s.accepted| && s.accepted[s.delivered[i].v].k == s.delivered[i].k
  {
    var x := s.delivered[i];
    InOf(x.k, s.delivered, i);
    assert LinedAt(s, x.k);
    assert x in Of(x.k, Tagged(s.accepted));
    TagsGrow(x.k, s.accepted);
  }

  /** When the receiver has to wait, every undelivered message's key is held by a living message. */
  lemma BlockingJustified(s: Sys, t: nat)
    requires Inv(s) && s.r.q == [] && s.r.dropq == [] && t in Pending(s)
    ensures exists i :: i in s.out && s.out[i] == s.accepted[t].k
  {
    var k := s.accepted[t].k;
    var e := Tagged(s.accepted)[t];
    InOf(k, Tagged(s.accepted), t);
    assert LinedAt(s, k);
    OfHasKey(k, s.delivered);
    forall x | x in s.delivered ensures x.v != t {
      var i :| 0 <= i < |s.delivered| && s.delivered[i] == x;
    }
    assert e in WaitingFor(s.r.using, k);
    assert k in s.r.using;
  }
}
