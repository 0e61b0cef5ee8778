/**
  What both keyed channels promise, without any of their tables: a log of accepted messages,
  the ones not delivered yet, and the keys that are held. A message may be delivered exactly
  when none of its keys is held; delivering it takes its keys, releasing gives one back.
 */
module AbstractChannel {
  import opened Util
  import opened Keys

  datatype Abs = Abs(log: seq<seq<Key>>, pending: set<nat>, held: set<Key>, delivered: seq<nat>)

  datatype Action = Accept(ks: seq<Key>) | Deliver(t: nat) | Release(k: Key)

  predicate Enabled(a: Abs, x: Action) {
    match x
    case Accept(_) => true
    case Deliver(t) => t in a.pending && t < |a.log| && forall k | k in a.log[t] :: k !in a.held
    case Release(k) => k in a.held
  }

  function Act(a: Abs, x: Action): Abs
    requires Enabled(a, x)
  {
    match x
    case Accept(ks) => a.(log := a.log + [ks], pending := a.pending + {|a.log|})
    case Deliver(t) =>
      a.(pending := a.pending - {t}, held := a.held + SetOf(a.log[t]), delivered := a.delivered + [t])
    case Release(k) => a.(held := a.held - {k})
  }

  /** `xs` leads from `a` to `b`. */
  ghost predicate Acts(a: Abs, xs: seq<Action>, b: Abs)
    decreases xs
  {
    if xs == [] then a == b else Enabled(a, xs[0]) && Acts(Act(a, xs[0]), xs[1..], b)
  }

  lemma OneAct(a: Abs, x: Action)
    requires Enabled(a, x)
    ensures Acts(a, [x], Act(a, x))
  {
    assert [x][1..] == [];
  }

  lemma TwoActs(a: Abs, x: Action, y: Action)
    requires Enabled(a, x) && Enabled(Act(a, x), y)
    ensures Acts(a, [x, y], Act(Act(a, x), y))
  {
    OneAct(Act(a, x), y);
    assert [x, y][1..] == [y];
  }
}
