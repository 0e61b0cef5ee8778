/** Small shared vocabulary: options, duplicate-free and reversed sequences. */
module Util {

  datatype Option<+T> = None | Some(value: T)

  /** No element occurs twice. */
  predicate Distinct<T(==)>(s: seq<T>) {
    forall i, j :: 0 <= i < j < |s| ==> s[i] != s[j]
  }

  function SetOf<T>(s: seq<T>): (r: set<T>) {
    set x | x in s
  }

  lemma SomeMember<T>(s: set<T>) returns (x: T)
    requires s != {}
    ensures x in s
  {
    x :| x in s;
  }

  /** The next id of a hash map iteration: any that was not visited yet. */
  method NextOf<T>(unvisited: set<T>) returns (id: T)
    requires unvisited != {}
    ensures id in unvisited
  {
    id :| id in unvisited;
  }

  /** Some listing of a finite set. */
  lemma {:induction false} SomeOrder<T>(s: set<T>) returns (r: seq<T>)
    ensures Distinct(r) && forall x :: x in r <==> x in s
    decreases s
  {
    if s == {} {
      r := [];
    } else {
      var x := SomeMember(s);
      r := SomeOrder(s - {x});
      r := [x] + r;
    }
  }

  /** The elements in the opposite order, as popping a vector from the back yields them. */
  function Reversed<T>(s: seq<T>): (r: seq<T>)
    ensures |r| == |s|
  {
    if s == [] then [] else [s[|s| - 1]] + Reversed(s[..|s| - 1])
  }

  lemma {:induction false} ReversedAt<T>(s: seq<T>, i: nat)
    requires i < |s|
    ensures Reversed(s)[i] == s[|s| - 1 - i]
  {
    if i == 0 {
    } else {
      ReversedAt(s[..|s| - 1], i - 1);
    }
  }

  lemma ReversedIs<T>(s: seq<T>, r: seq<T>)
    requires |r| == |s| && forall i | 0 <= i < |s| :: r[i] == s[|s| - 1 - i]
    ensures r == Reversed(s)
  {
    forall i | 0 <= i < |s| ensures r[i] == Reversed(s)[i] {
      ReversedAt(s, i);
    }
  }

  lemma ReversedTwice<T>(s: seq<T>)
    ensures Reversed(Reversed(s)) == s
  {
    forall i | 0 <= i < |s| ensures s[i] == Reversed(s)[|s| - 1 - i] {
      ReversedAt(s, |s| - 1 - i);
    }
    ReversedIs(Reversed(s), s);
  }

  lemma ReversedMembers<T>(s: seq<T>)
    ensures forall x :: x in Reversed(s) <==> x in s
    ensures SetOf(Reversed(s)) == SetOf(s)
  {
    forall i | 0 <= i < |s| ensures Reversed(s)[i] in s && s[i] in Reversed(s) {
      ReversedAt(s, i);
      ReversedAt(s, |s| - 1 - i);
    }
  }

  lemma ReversedDistinct<T>(s: seq<T>)
    ensures Distinct(Reversed(s)) <==> Distinct(s)
  {
    var r := Reversed(s);
    forall i | 0 <= i < |s| ensures r[i] == s[|s| - 1 - i] {
      ReversedAt(s, i);
    }
    if Distinct(r) {
      forall i, j | 0 <= i < j < |s| ensures s[i] != s[j] {
        assert r[|s| - 1 - j] != r[|s| - 1 - i];
      }
    }
  }
}
