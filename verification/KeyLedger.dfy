/**
  Who has how many copies of a key. Messages may repeat a key; a message that waited with a
  repeated key is handed out with it, and then gives it back as often as it carries it.
 */
module KeyLedgers {
  import opened Util
  import opened Keys
  import opened ReceiverSpec

  /** Message object `t` still holds key `k`. */
  predicate Holds(out: map<nat, seq<Key>>, t: nat, k: Key) {
    t in out && k in out[t]
  }

  /**
    The keys in use are the disjoint union of those the living messages hold and those in the drop
    queue, each once.
   */
  ghost predicate Owned(held: set<Key>, dropq: seq<Key>, out: map<nat, seq<Key>>) {
    && Distinct(dropq)
    && (forall k | k in dropq :: k in held)
    && (forall t | t in out :: Distinct(out[t]))
    && (forall t, k | Holds(out, t, k) :: k in held && k !in dropq)
    && (forall t, t', k | Holds(out, t, k) && Holds(out, t', k) :: t == t')
    && (forall k | k in held && k !in dropq :: exists t :: Holds(out, t, k))
  }

  function Copies(ks: seq<Key>, k: Key): nat {
    multiset(ks)[k]
  }

  /** The copies of `k` that the message object with tag `t`, if it lives, still holds. */
  function CopiesOf(out: map<nat, seq<Key>>, t: nat, k: Key): nat {
    if t in out then Copies(out[t], k) else 0
  }

  /** The copies of `k` that the living ones of the delivered messages still hold. */
  function HeldCopies(delivered: seq<Msg<nat>>, out: map<nat, seq<Key>>, k: Key): nat {
    if delivered == [] then 0
    else
      var n := |delivered| - 1;
      HeldCopies(delivered[..n], out, k) + CopiesOf(out, delivered[n].v, k)
  }

  /** How many copies of `k` the delivered messages carried beyond the first each. */
  function Surplus(delivered: seq<Msg<nat>>, k: Key): nat {
    if delivered == [] then 0
    else
      var n := |delivered| - 1;
      Surplus(delivered[..n], k) + Copies(delivered[n].ks, k) - (if k in delivered[n].ks then 1 else 0)
  }

  /** Of every key, the copies not yet released are the one in use and the surplus ones. */
  ghost predicate Ledger(held: set<Key>, dropq: seq<Key>, delivered: seq<Msg<nat>>, out: map<nat, seq<Key>>) {
    forall k :: Balanced(held, dropq, delivered, out, k)
  }

  ghost predicate Balanced(held: set<Key>, dropq: seq<Key>, delivered: seq<Msg<nat>>, out: map<nat, seq<Key>>, k: Key) {
    Copies(dropq, k) + HeldCopies(delivered, out, k) == (if k in held then 1 else 0) + Surplus(delivered, k)
  }

  ghost predicate DistinctTags(delivered: seq<Msg<nat>>) {
    forall i, j | 0 <= i < j < |delivered| :: delivered[i].v != delivered[j].v
  }

  /** Living message objects are delivered ones. */
  ghost predicate OnlyDelivered(delivered: seq<Msg<nat>>, out: map<nat, seq<Key>>) {
    forall t | t in out :: exists j :: 0 <= j < |delivered| && delivered[j].v == t
  }

  lemma {:induction false} DistinctCopies(ks: seq<Key>)
    ensures Distinct(ks) <==> forall k :: Copies(ks, k) <= 1
  {
    if ks == [] {
    } else {
      var n := |ks| - 1;
      DistinctCopies(ks[..n]);
      assert ks == ks[..n] + [ks[n]];
      forall k ensures Copies(ks, k) == Copies(ks[..n], k) + if k == ks[n] then 1 else 0 {
      }
      if Distinct(ks) {
        assert ks[n] !in ks[..n];
      }
      if forall k :: Copies(ks, k) <= 1 {
        assert Copies(ks, ks[n]) <= 1;
        assert ks[n] !in ks[..n];
        forall k ensures Copies(ks[..n], k) <= 1 {
          assert Copies(ks, k) <= 1;
        }
      }
    }
  }

  // ---------------------------------------------------------------- what changes the counts

  lemma {:induction false} SameCopies(
    delivered: seq<Msg<nat>>, out: map<nat, seq<Key>>, out': map<nat, seq<Key>>, k: Key)
    requires forall j | 0 <= j < |delivered| :: CopiesOf(out', delivered[j].v, k) == CopiesOf(out, delivered[j].v, k)
    ensures HeldCopies(delivered, out', k) == HeldCopies(delivered, out, k)
  {
    if delivered == [] {
    } else {
      SameCopies(delivered[..|delivered| - 1], out, out', k);
    }
  }

  /** One message object comes to hold other keys. */
  lemma {:induction false} OneChanges(delivered: seq<Msg<nat>>, out: map<nat, seq<Key>>, j: nat, ks: seq<Key>, k: Key)
    requires DistinctTags(delivered) && j < |delivered|
    ensures var t := delivered[j].v;
            HeldCopies(delivered, out[t := ks], k) + CopiesOf(out, t, k)
              == HeldCopies(delivered, out, k) + Copies(ks, k)
  {
    var n, t := |delivered| - 1, delivered[j].v;
    if j == n {
      SameCopies(delivered[..n], out, out[t := ks], k);
    } else {
      OneChanges(delivered[..n], out, j, ks, k);
    }
  }

  /** A message object gives back its last key. */
  lemma GivesBack(held: set<Key>, dropq: seq<Key>, delivered: seq<Msg<nat>>, out: map<nat, seq<Key>>, t: nat, n: nat)
    requires Ledger(held, dropq, delivered, out) && DistinctTags(delivered) && OnlyDelivered(delivered, out)
    requires t in out && |out[t]| == n + 1
    ensures Ledger(held, dropq + [out[t][n]], delivered, out[t := out[t][..n]])
  {
    var j :| 0 <= j < |delivered| && delivered[j].v == t;
    assert out[t] == out[t][..n] + [out[t][n]];
    var dropq', out' := dropq + [out[t][n]], out[t := out[t][..n]];
    forall k ensures Balanced(held, dropq', delivered, out', k) {
      assert Balanced(held, dropq, delivered, out, k);
      OneChanges(delivered, out, j, out[t][..n], k);
    }
  }

  /** A message object without keys goes away. */
  lemma GoesAway(held: set<Key>, dropq: seq<Key>, delivered: seq<Msg<nat>>, out: map<nat, seq<Key>>, t: nat)
    requires Ledger(held, dropq, delivered, out) && t in out && out[t] == []
    ensures Ledger(held, dropq, delivered, out - {t})
  {
    var out' := out - {t};
    forall k ensures Balanced(held, dropq, delivered, out', k) {
      assert Balanced(held, dropq, delivered, out, k);
      SameCopies(delivered, out, out', k);
    }
  }

  /** A message that meets no key in use is handed out. */
  lemma IsHandedOut(held: set<Key>, dropq: seq<Key>, delivered: seq<Msg<nat>>, out: map<nat, seq<Key>>, e: Msg<nat>)
    requires Ledger(held, dropq, delivered, out) && forall k | k in e.ks :: k !in held
    requires forall j | 0 <= j < |delivered| :: delivered[j].v != e.v
    ensures Ledger(held + SetOf(e.ks), dropq, delivered + [e], out[e.v := e.ks])
  {
    var held', delivered', out' := held + SetOf(e.ks), delivered + [e], out[e.v := e.ks];
    forall k ensures Balanced(held', dropq, delivered', out', k) {
      assert Balanced(held, dropq, delivered, out, k);
      SameCopies(delivered, out, out', k);
      assert delivered'[..|delivered|] == delivered;
    }
  }

  /** The head of the drop queue, a key in use, is released. */
  lemma IsReleased(held: set<Key>, dropq: seq<Key>, delivered: seq<Msg<nat>>, out: map<nat, seq<Key>>)
    requires Ledger(held, dropq, delivered, out) && dropq != [] && dropq[0] in held
    ensures Ledger(held - {dropq[0]}, dropq[1..], delivered, out)
  {
    assert dropq == [dropq[0]] + dropq[1..];
    var held', dropq' := held - {dropq[0]}, dropq[1..];
    forall k ensures Balanced(held', dropq', delivered, out, k) {
      assert Balanced(held, dropq, delivered, out, k);
    }
  }

  /** The keys that the living messages have still to give back, copies included. */
  function ToGive(delivered: seq<Msg<nat>>, out: map<nat, seq<Key>>): nat {
    if delivered == [] then 0
    else
      var n := |delivered| - 1;
      ToGive(delivered[..n], out) + (if delivered[n].v in out then |out[delivered[n].v]| else 0)
  }

  lemma {:induction false} SameToGive(delivered: seq<Msg<nat>>, out: map<nat, seq<Key>>, out': map<nat, seq<Key>>)
    requires forall j | 0 <= j < |delivered| ::
               var t := delivered[j].v;
               (if t in out then |out[t]| else 0) == (if t in out' then |out'[t]| else 0)
    ensures ToGive(delivered, out') == ToGive(delivered, out)
  {
    if delivered == [] {
    } else {
      SameToGive(delivered[..|delivered| - 1], out, out');
    }
  }

  lemma {:induction false} OneGives(delivered: seq<Msg<nat>>, out: map<nat, seq<Key>>, j: nat, ks: seq<Key>)
    requires DistinctTags(delivered) && j < |delivered| && delivered[j].v in out
    ensures var t := delivered[j].v;
            ToGive(delivered, out[t := ks]) + |out[t]| == ToGive(delivered, out) + |ks|
  {
    var n, t := |delivered| - 1, delivered[j].v;
    if j == n {
      SameToGive(delivered[..n], out, out[t := ks]);
    } else {
      OneGives(delivered[..n], out, j, ks);
    }
  }

  // ---------------------------------------------------------------- what the counts mean

  lemma {:induction false} SomeoneHolds(delivered: seq<Msg<nat>>, out: map<nat, seq<Key>>, k: Key) returns (t: nat)
    requires HeldCopies(delivered, out, k) > 0
    ensures Holds(out, t, k)
  {
    var n := |delivered| - 1;
    if CopiesOf(out, delivered[n].v, k) > 0 {
      t := delivered[n].v;
    } else {
      t := SomeoneHolds(delivered[..n], out, k);
    }
  }

  /** Every key in use has an owner, whatever the messages repeat. */
  lemma HeldHasOwner(held: set<Key>, dropq: seq<Key>, delivered: seq<Msg<nat>>, out: map<nat, seq<Key>>, k: Key)
    requires Ledger(held, dropq, delivered, out) && k in held
    ensures k in dropq || exists t :: Holds(out, t, k)
  {
    assert Balanced(held, dropq, delivered, out, k);
    if k !in dropq {
      var t := SomeoneHolds(delivered, out, k);
    }
  }

  lemma {:induction false} CountsAtLeast(delivered: seq<Msg<nat>>, out: map<nat, seq<Key>>, j: nat, k: Key)
    requires j < |delivered|
    ensures HeldCopies(delivered, out, k) >= CopiesOf(out, delivered[j].v, k)
  {
    var n := |delivered| - 1;
    if j == n {
    } else {
      CountsAtLeast(delivered[..n], out, j, k);
    }
  }

  lemma {:induction false} CountsBoth(delivered: seq<Msg<nat>>, out: map<nat, seq<Key>>, i: nat, j: nat, k: Key)
    requires i < j < |delivered|
    ensures HeldCopies(delivered, out, k) >= CopiesOf(out, delivered[i].v, k) + CopiesOf(out, delivered[j].v, k)
  {
    var n := |delivered| - 1;
    if j == n {
      CountsAtLeast(delivered[..n], out, i, k);
    } else {
      CountsBoth(delivered[..n], out, i, j, k);
    }
  }

  /** With a single owner of single copies there is at most one copy. */
  lemma {:induction false} CountsOnce(delivered: seq<Msg<nat>>, out: map<nat, seq<Key>>, k: Key)
    requires DistinctTags(delivered) && forall t | t in out :: Distinct(out[t])
    requires forall t, t' | Holds(out, t, k) && Holds(out, t', k) :: t == t'
    ensures HeldCopies(delivered, out, k) <= 1
  {
    if delivered == [] {
    } else {
      var n := |delivered| - 1;
      CountsOnce(delivered[..n], out, k);
      var t := delivered[n].v;
      if t in out {
        DistinctCopies(out[t]);
      }
      if CopiesOf(out, t, k) > 0 {
        forall j | 0 <= j < n ensures CopiesOf(map[], delivered[j].v, k) == CopiesOf(out, delivered[j].v, k) {
          assert Holds(out, t, k) && !Holds(out, delivered[j].v, k);
        }
        SameCopies(delivered[..n], out, map[], k);
        NobodyHolds(delivered[..n], k);
      }
    }
  }

  lemma {:induction false} NobodyHolds(delivered: seq<Msg<nat>>, k: Key)
    ensures HeldCopies(delivered, map[], k) == 0
  {
    if delivered == [] {
    } else {
      NobodyHolds(delivered[..|delivered| - 1], k);
    }
  }

  ghost predicate AllDistinct(delivered: seq<Msg<nat>>) {
    forall j | 0 <= j < |delivered| :: Distinct(delivered[j].ks)
  }

  lemma {:induction false} NoSurplusExactly(delivered: seq<Msg<nat>>)
    ensures AllDistinct(delivered) <==> forall k :: Surplus(delivered, k) == 0
  {
    if delivered == [] {
    } else {
      var n := |delivered| - 1;
      NoSurplusExactly(delivered[..n]);
      DistinctCopies(delivered[n].ks);
      if AllDistinct(delivered) {
        assert AllDistinct(delivered[..n]) && Distinct(delivered[n].ks);
        forall k ensures Surplus(delivered, k) == 0 {
          assert Surplus(delivered[..n], k) == 0 && Copies(delivered[n].ks, k) <= 1;
        }
      } else if AllDistinct(delivered[..n]) {
        assert !Distinct(delivered[n].ks);
        var k :| Copies(delivered[n].ks, k) > 1;
        assert Surplus(delivered, k) > 0;
      } else {
        var k :| Surplus(delivered[..n], k) != 0;
        assert Surplus(delivered, k) > 0;
      }
    }
  }

  lemma {:induction false} SurplusIsRepeated(delivered: seq<Msg<nat>>, k: Key)
    requires Surplus(delivered, k) > 0
    ensures !AllDistinct(delivered)
  {
    var n := |delivered| - 1;
    if Surplus(delivered[..n], k) > 0 {
      SurplusIsRepeated(delivered[..n], k);
      var j :| 0 <= j < n && !Distinct(delivered[..n][j].ks);
      assert !Distinct(delivered[j].ks);
    } else {
      DistinctCopies(delivered[n].ks);
      assert Copies(delivered[n].ks, k) > 1;
    }
  }

  lemma OwnedMeansNoSurplus(held: set<Key>, dropq: seq<Key>, delivered: seq<Msg<nat>>, out: map<nat, seq<Key>>, k: Key)
    requires Ledger(held, dropq, delivered, out) && DistinctTags(delivered) && Owned(held, dropq, out)
    ensures Surplus(delivered, k) == 0
  {
    assert Balanced(held, dropq, delivered, out, k);
    DistinctCopies(dropq);
    CountsOnce(delivered, out, k);
    if HeldCopies(delivered, out, k) > 0 {
      var t := SomeoneHolds(delivered, out, k);
      assert k !in dropq;
    }
  }

  /** One copy at most, in the hands of the drop queue or of one living message. */
  lemma OneOwner(held: set<Key>, dropq: seq<Key>, delivered: seq<Msg<nat>>, out: map<nat, seq<Key>>, t: nat, k: Key)
    requires Ledger(held, dropq, delivered, out) && OnlyDelivered(delivered, out) && Surplus(delivered, k) == 0
    requires Holds(out, t, k)
    ensures k in held && k !in dropq && Copies(out[t], k) == 1
    ensures forall t' | Holds(out, t', k) :: t' == t
  {
    assert Balanced(held, dropq, delivered, out, k);
    var j :| 0 <= j < |delivered| && delivered[j].v == t;
    CountsAtLeast(delivered, out, j, k);
    forall t' | Holds(out, t', k) ensures t' == t {
      var i :| 0 <= i < |delivered| && delivered[i].v == t';
      if i < j {
        CountsBoth(delivered, out, i, j, k);
      } else if j < i {
        CountsBoth(delivered, out, j, i, k);
      }
    }
  }

  lemma NoSurplusMeansOwned(held: set<Key>, dropq: seq<Key>, delivered: seq<Msg<nat>>, out: map<nat, seq<Key>>)
    requires Ledger(held, dropq, delivered, out) && OnlyDelivered(delivered, out)
    requires forall k :: Surplus(delivered, k) == 0
    ensures Owned(held, dropq, out)
  {
    forall k ensures Copies(dropq, k) <= 1 && (k in dropq ==> k in held) {
      assert Balanced(held, dropq, delivered, out, k);
    }
    DistinctCopies(dropq);
    forall t, k | Holds(out, t, k) ensures k in held && k !in dropq && Copies(out[t], k) == 1 {
      OneOwner(held, dropq, delivered, out, t, k);
    }
    forall t | t in out ensures Distinct(out[t]) {
      forall k ensures Copies(out[t], k) <= 1 {
        assert k in out[t] ==> Holds(out, t, k);
      }
      DistinctCopies(out[t]);
    }
    forall t, t', k | Holds(out, t, k) && Holds(out, t', k) ensures t == t' {
      OneOwner(held, dropq, delivered, out, t, k);
    }
    forall k | k in held && k !in dropq ensures exists t :: Holds(out, t, k) {
      HeldHasOwner(held, dropq, delivered, out, k);
    }
  }

  /** Keys are owned exclusively if and only if no message that was handed out repeats a key. */
  lemma OwnedExactly(held: set<Key>, dropq: seq<Key>, delivered: seq<Msg<nat>>, out: map<nat, seq<Key>>)
    requires Ledger(held, dropq, delivered, out) && DistinctTags(delivered) && OnlyDelivered(delivered, out)
    ensures Owned(held, dropq, out) <==> AllDistinct(delivered)
  {
    NoSurplusExactly(delivered);
    if AllDistinct(delivered) {
      NoSurplusMeansOwned(held, dropq, delivered, out);
    } else if Owned(held, dropq, out) {
      forall k ensures Surplus(delivered, k) == 0 {
        OwnedMeansNoSurplus(held, dropq, delivered, out, k);
      }
    }
  }
}
