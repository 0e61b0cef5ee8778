/**
  The calls of the single-key `sync_pop` as parts of runs. On the objects messages carry values,
  in `SingleKeySystem` the positions of their messages in the order of acceptance; the moves of a
  call are events of the system, and what they hand out agrees.
 */
module SingleKeyCalls {
  import opened Keys
  import opened ReceiverLoop
  import opened SingleKeyChannels
  import opened SingleKeySystem

  // ---------------------------------------------------------------- values for tags

  /** `a` holds the messages of `b`, with the values that their tags stand for. */
  ghost predicate ItemsAgree(vs: seq<Value>, a: seq<Item<Value>>, b: seq<Item<nat>>) {
    && |a| == |b|
    && forall i | 0 <= i < |b| :: b[i].v < |vs| && a[i] == Item(b[i].k, vs[b[i].v])
  }

  ghost predicate TablesAgree(vs: seq<Value>, a: Table<Value>, b: Table<nat>) {
    a.Keys == b.Keys && forall k | k in b :: ItemsAgree(vs, a[k], b[k])
  }

  /** What the call works on is what the receiver of the system works on. */
  ghost predicate WorkAgrees(vs: seq<Value>, c: TableCall<Value>, r: Recv<nat>) {
    ItemsAgree(vs, c.q, r.q) && c.dropq == r.dropq && TablesAgree(vs, c.m, r.using)
  }

  function Values(s: Sys): seq<Value> {
    seq(|s.accepted|, i requires 0 <= i < |s.accepted| => s.accepted[i].v)
  }

  /** The call has come as far as the system; in particular it has not panicked. */
  ghost predicate InStep(c: TableCall<Value>, s: Sys) {
    && Inv(s) && WorkAgrees(Values(s), c, s.r)
    && match c.got
       case MissingKey => false
       case Nothing => true
       case Got(e) =>
         && s.delivered != []
         && var d := s.delivered[|s.delivered| - 1]; d.v < |s.accepted| && e == Item(d.k, s.accepted[d.v].v)
  }

  // ---------------------------------------------------------------- turns

  /** The two results agree. */
  ghost predicate SameGot(vs: seq<Value>, g: Got<Value>, t: Got<nat>) {
    match t
    case Got(e) => e.v < |vs| && g == Got(Item(e.k, vs[e.v]))
    case Nothing => g == Nothing
    case MissingKey => g == MissingKey
  }

  lemma NewAgrees(vs: seq<Value>, c: TableCall<Value>, r: Recv<nat>, c': TableCall<Value>)
    requires WorkAgrees(vs, c, r) && Takes(c, NewTurn, c')
    ensures CanTurn(r, NewTurn)
    ensures WorkAgrees(vs, c', DoTurn(r, NewTurn).r) && SameGot(vs, c'.got, DoTurn(r, NewTurn).got)
  {
    var e := r.q[0];
    assert c.q[0] == Item(e.k, vs[e.v]);
    if e.k in r.using {
      assert ItemsAgree(vs, c.m[e.k], r.using[e.k]);
      assert ItemsAgree(vs, c.m[e.k] + [c.q[0]], r.using[e.k] + [e]);
    }
  }

  lemma DropAgrees(vs: seq<Value>, c: TableCall<Value>, r: Recv<nat>, c': TableCall<Value>)
    requires WorkAgrees(vs, c, r) && Takes(c, DropTurn, c')
    ensures CanTurn(r, DropTurn)
    ensures WorkAgrees(vs, c', DoTurn(r, DropTurn).r) && SameGot(vs, c'.got, DoTurn(r, DropTurn).got)
  {
    var k := r.dropq[0];
    if k in r.using {
      assert ItemsAgree(vs, c.m[k], r.using[k]);
      if r.using[k] != [] {
        assert ItemsAgree(vs, c.m[k][1..], r.using[k][1..]);
      }
    }
  }

  lemma ReceiveKeepsValues(s: Sys, t: Turn)
    requires CanDo(s, Receive(t))
    ensures Values(Do(s, Receive(t))) == Values(s)
  {
    assert Do(s, Receive(t)).accepted == s.accepted;
  }

  /** A turn of the call is an event of the system, and does not panic. */
  lemma TurnIsEvent(c: TableCall<Value>, s: Sys, t: Turn, c': TableCall<Value>)
    requires InStep(c, s) && c.got.Nothing? && Takes(c, t, c')
    ensures CanDo(s, Receive(t)) && InStep(c', Do(s, Receive(t)))
  {
    match t {
      case NewTurn => NewAgrees(Values(s), c, s.r, c');
      case DropTurn => DropAgrees(Values(s), c, s.r, c');
    }
    StepKeepsInv(s, Receive(t));
    ReceiveKeepsValues(s, t);
  }

  // ---------------------------------------------------------------- pushes of other threads

  /** The events are possible one after the other. */
  predicate AllCan(s: Sys, es: seq<Event>)
    decreases |es|
  {
    es == [] || (CanDo(s, es[0]) && AllCan(Do(s, es[0]), es[1..]))
  }

  function DoAll(s: Sys, es: seq<Event>): Sys
    requires AllCan(s, es)
    decreases |es|
  {
    if es == [] then s else DoAll(Do(s, es[0]), es[1..])
  }

  /** What the other threads' events add to the send queue and to the drop queue. */
  function MessagesOf(es: seq<Event>): seq<Item<Value>> {
    if es == [] then []
    else (if es[0].Send? then [es[0].e] else []) + MessagesOf(es[1..])
  }

  function KeysOf(s: Sys, es: seq<Event>): seq<Key>
    requires AllCan(s, es)
    decreases |es|
  {
    if es == [] then []
    else (if es[0].DropMessage? then [s.out[es[0].i]] else []) + KeysOf(Do(s, es[0]), es[1..])
  }

  /** The events `es` of other threads are what the call sees as the pushes of `mv`. */
  ghost predicate Arrivals(s: Sys, mv: TableMove<Value>, es: seq<Event>) {
    && mv.Others? && (forall e | e in es :: !e.Receive?)
    && AllCan(s, es) && MessagesOf(es) == mv.msgs && KeysOf(s, es) == mv.keys
  }

  lemma MoreValues(vs: seq<Value>, vs': seq<Value>, c: TableCall<Value>, r: Recv<nat>)
    requires vs <= vs' && WorkAgrees(vs, c, r)
    ensures WorkAgrees(vs', c, r)
  {
    assert forall k | k in r.using :: ItemsAgree(vs, c.m[k], r.using[k]) && ItemsAgree(vs', c.m[k], r.using[k]);
  }

  lemma SendArrives(c: TableCall<Value>, s: Sys, x: Item<Value>)
    requires WorkAgrees(Values(s), c, s.r) && CanDo(s, Send(x))
    ensures WorkAgrees(Values(Do(s, Send(x))), c.(q := c.q + [x]), Do(s, Send(x)).r)
  {
    assert Values(Do(s, Send(x))) == Values(s) + [x.v];
    MoreValues(Values(s), Values(Do(s, Send(x))), c, s.r);
  }

  lemma DropArrives(c: TableCall<Value>, s: Sys, i: nat)
    requires WorkAgrees(Values(s), c, s.r) && CanDo(s, DropMessage(i))
    ensures WorkAgrees(Values(Do(s, DropMessage(i))), c.(dropq := c.dropq + [s.out[i]]), Do(s, DropMessage(i)).r)
  {
    assert Values(Do(s, DropMessage(i))) == Values(s);
  }

  lemma {:induction false} AllKeepInv(s: Sys, es: seq<Event>)
    requires Inv(s) && AllCan(s, es)
    ensures Inv(DoAll(s, es))
    decreases |es|
  {
    if es == [] {
    } else {
      StepKeepsInv(s, es[0]);
      AllKeepInv(Do(s, es[0]), es[1..]);
    }
  }

  /** The call after other threads have pushed. */
  function Pushed(c: TableCall<Value>, ms: seq<Item<Value>>, ks: seq<Key>): TableCall<Value> {
    c.(q := c.q + ms, dropq := c.dropq + ks)
  }

  lemma PushedTwice(c: TableCall<Value>, ms: seq<Item<Value>>, ks: seq<Key>, ms': seq<Item<Value>>, ks': seq<Key>)
    ensures Pushed(Pushed(c, ms, ks), ms', ks') == Pushed(c, ms + ms', ks + ks')
  {
    assert c.q + ms + ms' == c.q + (ms + ms') && c.dropq + ks + ks' == c.dropq + (ks + ks');
  }

  /** Pushes of other threads, seen from the call. */
  lemma {:induction false} ArrivalsAgree(c: TableCall<Value>, s: Sys, es: seq<Event>)
    requires WorkAgrees(Values(s), c, s.r) && AllCan(s, es) && forall e | e in es :: !e.Receive?
    ensures WorkAgrees(Values(DoAll(s, es)), Pushed(c, MessagesOf(es), KeysOf(s, es)), DoAll(s, es).r)
    decreases |es|
  {
    if es == [] {
      assert c.q + [] == c.q && c.dropq + [] == c.dropq;
    } else {
      var e, s1 := es[0], Do(s, es[0]);
      assert e in es && forall x | x in es[1..] :: x in es;
      var m1, k1 := if e.Send? then [e.e] else [], if e.DropMessage? then [s.out[e.i]] else [];
      OneArrives(c, s, e);
      ArrivalsAgree(Pushed(c, m1, k1), s1, es[1..]);
      PushedTwice(c, m1, k1, MessagesOf(es[1..]), KeysOf(s1, es[1..]));
    }
  }

  lemma OneArrives(c: TableCall<Value>, s: Sys, e: Event)
    requires WorkAgrees(Values(s), c, s.r) && CanDo(s, e) && !e.Receive?
    ensures var m1, k1 := if e.Send? then [e.e] else [], if e.DropMessage? then [s.out[e.i]] else [];
            WorkAgrees(Values(Do(s, e)), Pushed(c, m1, k1), Do(s, e).r)
  {
    assert c.q + [] == c.q && c.dropq + [] == c.dropq;
    match e
    case Send(x) => SendArrives(c, s, x);
    case DropMessage(i) => DropArrives(c, s, i);
  }

  // ---------------------------------------------------------------- whole calls

  function EventsOf(mv: TableMove<Value>, es: seq<Event>): seq<Event> {
    match mv
    case Take(t) => [Receive(t)]
    case Others(_, _) => es
    case _ => []
  }

  /** `ess` gives, for each push of other threads in `ms`, events that are possible there. */
  ghost predicate Plausible(s: Sys, ms: seq<TableMove<Value>>, ess: seq<seq<Event>>)
    decreases |ms|, 0
  {
    && |ess| == |ms|
    && (ms == [] ||
        var n := |ms| - 1;
        && Plausible(s, ms[..n], ess[..n])
        && (ms[n].Others? ==> Arrivals(Played(s, ms[..n], ess[..n]), ms[n], ess[n])))
  }

  /** The state after the events that the moves stand for, as far as they are possible. */
  function Played(s: Sys, ms: seq<TableMove<Value>>, ess: seq<seq<Event>>): Sys
    requires |ess| == |ms|
    decreases |ms|, 1
  {
    if ms == [] then s
    else
      var n := |ms| - 1;
      var s1, es := Played(s, ms[..n], ess[..n]), EventsOf(ms[n], ess[n]);
      if AllCan(s1, es) then DoAll(s1, es) else s1
  }

  /** They are all possible. */
  predicate AllPossible(s: Sys, ms: seq<TableMove<Value>>, ess: seq<seq<Event>>)
    requires |ess| == |ms|
    decreases |ms|
  {
    ms == [] ||
    (var n := |ms| - 1;
     AllPossible(s, ms[..n], ess[..n]) && AllCan(Played(s, ms[..n], ess[..n]), EventsOf(ms[n], ess[n])))
  }

  lemma MoveIsEvents(c: TableCall<Value>, mv: TableMove<Value>, c': TableCall<Value>, s: Sys, es: seq<Event>)
    requires InStep(c, s) && Moves(Takes, Nothing, c, mv, c') && (mv.Others? ==> Arrivals(s, mv, es))
    ensures AllCan(s, EventsOf(mv, es)) && InStep(c', DoAll(s, EventsOf(mv, es)))
  {
    match mv
    case Take(t) =>
      TurnIsEvent(c, s, t, c');
      assert [Receive(t)][1..] == [];
    case Others(msgs, keys) =>
      ArrivalsAgree(c, s, es);
      AllKeepInv(s, es);
    case _ =>
  }

  /**
    Whatever a call of `sync_pop` does, step by step and with pushes of other threads in between,
    is a run of the system in which each of its turns is a possible event. It never panics, its
    queues and its table are those of the system, and so is what it hands out.
   */
  lemma {:induction false} CallIsRun(
    c: TableCall<Value>, ms: seq<TableMove<Value>>, c': TableCall<Value>, s: Sys, ess: seq<seq<Event>>)
    requires InStep(c, s) && CallLeads(c, ms, c') && Plausible(s, ms, ess)
    ensures AllPossible(s, ms, ess)
    ensures InStep(c', Played(s, ms, ess))
    decreases |ms|
  {
    if ms == [] {
    } else {
      var n := |ms| - 1;
      var mid :| Leads(Takes, Nothing, c, ms[..n], mid) && Moves(Takes, Nothing, mid, ms[n], c');
      CallIsRun(c, ms[..n], mid, s, ess[..n]);
      MoveIsEvents(mid, ms[n], c', Played(s, ms[..n], ess[..n]), ess[n]);
    }
  }
}
