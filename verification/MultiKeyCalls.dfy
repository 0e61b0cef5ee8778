/**
  The calls of `sync_pop` as parts of runs. On the objects messages carry values, in
  `MultiKeySystem` the positions of their messages in the order of acceptance. No code looks at
  a value, so the moves of a call are events of the system, and what they hand out agrees.
 */
module MultiKeyCalls {
  import opened Util
  import opened Keys
  import opened ConflictSpec
  import opened ReceiverLoop
  import opened ReceiverSpec
  import opened MultiKeySystem

  // ---------------------------------------------------------------- values for tags

  /** All tags of a receiver's state stand for values of `vs`. */
  ghost predicate TagsIn(vs: seq<Value>, r: Recv<nat>) {
    && (forall i | 0 <= i < |r.q| :: r.q[i].v < |vs|)
    && (forall id | id in r.m.waiting :: r.m.waiting[id].v < |vs|)
  }

  function Sent(vs: seq<Value>, q: seq<Msg<nat>>): seq<Msg<Value>>
    requires forall i | 0 <= i < |q| :: q[i].v < |vs|
  {
    seq(|q|, i requires 0 <= i < |q| => Msg(q[i].ks, vs[q[i].v]))
  }

  function ValuedM(vs: seq<Value>, m: Manager<nat>): Manager<Value>
    requires forall id | id in m.waiting :: m.waiting[id].v < |vs|
  {
    Manager(m.entries, m.held, m.index,
            map id | id in m.waiting :: Parked(m.waiting[id].handles, vs[m.waiting[id].v]),
            m.next)
  }

  ghost function Valued(vs: seq<Value>, r: Recv<nat>): Recv<Value>
    requires TagsIn(vs, r)
  {
    Recv(Sent(vs, r.q), r.dropq, ValuedM(vs, r.m))
  }

  /** The two results agree. */
  ghost predicate SameGot(vs: seq<Value>, g: Got<Value>, t: Got<nat>) {
    match t
    case Got(ks, i) => i < |vs| && g == Got(ks, vs[i])
    case Nothing => g == Nothing
    case Panicked(why) => g == Panicked(why)
  }

  lemma ChoicesAgree(vs: seq<Value>, m: Manager<nat>, k: Key, c: Choice)
    requires forall id | id in m.waiting :: m.waiting[id].v < |vs|
    ensures CanChoose(ValuedM(vs, m), k, c) <==> CanChoose(m, k, c)
  {
    var v := ValuedM(vs, m);
    forall id | id in m.waiting ensures Free(v, id) <==> Free(m, id) {
    }
  }

  lemma NewAgrees(vs: seq<Value>, m: Manager<nat>, ks: seq<Key>, i: nat)
    requires i < |vs| && forall id | id in m.waiting :: m.waiting[id].v < |vs|
    ensures var o := HandleNew(m, ks, i);
            && (forall id | id in o.m.waiting :: o.m.waiting[id].v < |vs|)
            && HandleNew(ValuedM(vs, m), ks, vs[i]).m == ValuedM(vs, o.m)
            && SameGot(vs, HandleNew(ValuedM(vs, m), ks, vs[i]).got, o.got)
  {
  }

  lemma ReleaseAgrees(vs: seq<Value>, m: Manager<nat>, k: Key, c: Choice)
    requires (forall id | id in m.waiting :: m.waiting[id].v < |vs|) && CanRelease(m, k, c)
    ensures CanRelease(ValuedM(vs, m), k, c)
    ensures var o := Release(m, k, c);
            && (forall id | id in o.m.waiting :: o.m.waiting[id].v < |vs|)
            && Release(ValuedM(vs, m), k, c).m == ValuedM(vs, o.m)
            && SameGot(vs, Release(ValuedM(vs, m), k, c).got, o.got)
  {
    ChoicesAgree(vs, Unuse(m, k), k, c);
    assert ValuedM(vs, Unuse(m, k)) == Unuse(ValuedM(vs, m), k);
  }

  /** A turn on values is possible exactly if it is on tags, and does the same. */
  lemma TurnsAgree(vs: seq<Value>, r: Recv<nat>, t: Turn)
    requires TagsIn(vs, r)
    ensures CanTurn(Valued(vs, r), t) <==> CanTurn(r, t)
    ensures CanTurn(r, t) ==>
              var o := DoTurn(r, t);
              && TagsIn(vs, o.r)
              && DoTurn(Valued(vs, r), t).r == Valued(vs, o.r)
              && SameGot(vs, DoTurn(Valued(vs, r), t).got, o.got)
  {
    match t {
      case DropTurn(c) =>
        if r.dropq != [] {
          ChoicesAgree(vs, Unuse(r.m, r.dropq[0]), r.dropq[0], c);
          assert ValuedM(vs, Unuse(r.m, r.dropq[0])) == Unuse(ValuedM(vs, r.m), r.dropq[0]);
          if CanTurn(r, t) {
            ReleaseAgrees(vs, r.m, r.dropq[0], c);
          }
        }
      case NewTurn =>
        if r.q != [] {
          NewAgrees(vs, r.m, r.q[0].ks, r.q[0].v);
          assert Sent(vs, r.q)[1..] == Sent(vs, r.q[1..]);
        }
    }
  }

  // ---------------------------------------------------------------- moves and events

  function Values(s: Sys): seq<Value> {
    seq(|s.accepted|, i requires 0 <= i < |s.accepted| => s.accepted[i].v)
  }

  lemma TagsAccepted(s: Sys)
    requires MultiKeySystem.Inv(s)
    ensures TagsIn(Values(s), s.r)
  {
  }

  /** What the receiver works on in state `s`, with the values that were sent. */
  ghost function Shown(s: Sys): Recv<Value>
    requires MultiKeySystem.Inv(s)
  {
    TagsAccepted(s);
    Valued(Values(s), s.r)
  }

  /** What the call works on. */
  function Work(c: ManagerCall<Value>): Recv<Value> {
    Recv(c.q, c.dropq, c.m)
  }

  /** The call has come as far as the system. */
  ghost predicate InStep(c: ManagerCall<Value>, s: Sys) {
    && MultiKeySystem.Inv(s)
    && match c.got
       case Panicked(why) => s.panic == Some(why)
       case Nothing => s.panic.None? && Work(c) == Shown(s)
       case Got(ks, v) =>
         && s.panic.None? && Work(c) == Shown(s)
         && s.delivered != []
         && var d := s.delivered[|s.delivered| - 1]; d.ks == ks && d.v < |s.accepted| && s.accepted[d.v].v == v
  }

  /** The events are possible one after the other. */
  ghost predicate AllCan(s: Sys, es: seq<Event>)
    decreases |es|
  {
    es == [] || (CanDo(s, es[0]) && AllCan(Do(s, es[0]), es[1..]))
  }

  ghost function DoAll(s: Sys, es: seq<Event>): Sys
    requires AllCan(s, es)
    decreases |es|
  {
    if es == [] then s else DoAll(Do(s, es[0]), es[1..])
  }

  /** What the other threads' events add to the send queue, with values, and to the drop queue. */
  function MessagesOf(es: seq<Event>): seq<Msg<Value>> {
    if es == [] then []
    else (if es[0].Send? then [es[0].msg] else []) + MessagesOf(es[1..])
  }

  ghost function KeysOf(s: Sys, es: seq<Event>): seq<Key>
    requires AllCan(s, es)
    decreases |es|
  {
    if es == [] then []
    else (if es[0].DropKey? then [s.out[es[0].t][|s.out[es[0].t]| - 1]] else []) + KeysOf(Do(s, es[0]), es[1..])
  }

  /** The events `es` of other threads are what the call sees as the pushes of `mv`. */
  ghost predicate Arrivals(s: Sys, mv: ManagerMove<Value>, es: seq<Event>) {
    && mv.Others? && (forall e | e in es :: !e.Receive?)
    && AllCan(s, es) && MessagesOf(es) == mv.msgs && KeysOf(s, es) == mv.keys
  }

  /** Nothing but pushes happened between the two states. */
  ghost predicate Grew(s: Sys, s': Sys, msgs: seq<Msg<Value>>, keys: seq<Key>) {
    && MultiKeySystem.Inv(s) && MultiKeySystem.Inv(s') && s'.panic.None?
    && Shown(s').m == Shown(s).m
    && Shown(s').q == Shown(s).q + msgs
    && Shown(s').dropq == Shown(s).dropq + keys
  }

  lemma GrewTwice(s: Sys, s1: Sys, s2: Sys, ms1: seq<Msg<Value>>, ms2: seq<Msg<Value>>, ks1: seq<Key>, ks2: seq<Key>)
    requires Grew(s, s1, ms1, ks1) && Grew(s1, s2, ms2, ks2)
    ensures Grew(s, s2, ms1 + ms2, ks1 + ks2)
  {
    assert Shown(s).q + ms1 + ms2 == Shown(s).q + (ms1 + ms2);
    assert Shown(s).dropq + ks1 + ks2 == Shown(s).dropq + (ks1 + ks2);
  }

  /** Further accepted messages do not change the values of the earlier ones. */
  lemma MoreValues(vs: seq<Value>, vs': seq<Value>, m: Manager<nat>, q: seq<Msg<nat>>)
    requires vs <= vs'
    requires (forall id | id in m.waiting :: m.waiting[id].v < |vs|) && forall i | 0 <= i < |q| :: q[i].v < |vs|
    ensures ValuedM(vs', m) == ValuedM(vs, m) && Sent(vs', q) == Sent(vs, q)
  {
    var w, w' := ValuedM(vs, m).waiting, ValuedM(vs', m).waiting;
    assert w.Keys == m.waiting.Keys && w'.Keys == m.waiting.Keys;
    forall id | id in m.waiting ensures w'[id] == w[id] {
    }
    assert w' == w;
  }

  lemma SendArrives(s: Sys, msg: Msg<Value>)
    requires MultiKeySystem.Inv(s) && CanDo(s, Send(msg))
    ensures Grew(s, Do(s, Send(msg)), [msg], [])
  {
    var s' := Do(s, Send(msg));
    StepKeepsInv(s, Send(msg));
    TagsAccepted(s);
    TagsAccepted(s');
    assert Values(s') == Values(s) + [msg.v];
    MoreValues(Values(s), Values(s'), s.r.m, s.r.q);
    assert Sent(Values(s'), s'.r.q) == Sent(Values(s'), s.r.q) + [msg];
    assert s.r.dropq + [] == s.r.dropq;
  }

  lemma DropArrives(s: Sys, e: Event)
    requires MultiKeySystem.Inv(s) && CanDo(s, e) && (e.DropKey? || e.DropEnd?)
    ensures Grew(s, Do(s, e), [], if e.DropKey? then [s.out[e.t][|s.out[e.t]| - 1]] else [])
  {
    StepKeepsInv(s, e);
    TagsAccepted(s);
    TagsAccepted(Do(s, e));
    assert Values(Do(s, e)) == Values(s);
  }

  /** Pushes of other threads, seen from the call. */
  lemma {:induction false} ArrivalsAgree(s: Sys, es: seq<Event>)
    requires MultiKeySystem.Inv(s) && s.panic.None? && AllCan(s, es) && forall e | e in es :: !e.Receive?
    ensures Grew(s, DoAll(s, es), MessagesOf(es), KeysOf(s, es))
    decreases |es|
  {
    if es == [] {
      assert Shown(s).q + [] == Shown(s).q && Shown(s).dropq + [] == Shown(s).dropq;
    } else {
      var e, s1 := es[0], Do(s, es[0]);
      assert e in es;
      if e.Send? {
        SendArrives(s, e.msg);
      } else {
        DropArrives(s, e);
      }
      ArrivalsAgree(s1, es[1..]);
      var ms := if e.Send? then [e.msg] else [];
      var ks := if e.DropKey? then [s.out[e.t][|s.out[e.t]| - 1]] else [];
      GrewTwice(s, s1, DoAll(s1, es[1..]), ms, MessagesOf(es[1..]), ks, KeysOf(s1, es[1..]));
    }
  }

  /** A turn of the call is an event of the system. */
  lemma TurnIsEvent(c: ManagerCall<Value>, s: Sys, t: Turn, c': ManagerCall<Value>)
    requires InStep(c, s) && c.got.Nothing? && Takes(c, t, c')
    ensures CanDo(s, Receive(t)) && InStep(c', Do(s, Receive(t)))
  {
    TagsAccepted(s);
    TurnsAgree(Values(s), s.r, t);
    StepKeepsInv(s, Receive(t));
    TagsAccepted(Do(s, Receive(t)));
    assert Values(Do(s, Receive(t))) == Values(s);
  }

  // ---------------------------------------------------------------- whole calls

  function EventsOf(mv: ManagerMove<Value>, es: seq<Event>): seq<Event> {
    match mv
    case Take(t) => [Receive(t)]
    case Others(_, _) => es
    case _ => []
  }

  /** `ess` gives, for each push of other threads in `ms`, events that are possible there. */
  ghost predicate Plausible(s: Sys, ms: seq<ManagerMove<Value>>, ess: seq<seq<Event>>)
    decreases |ms|, 0
  {
    && |ess| == |ms|
    && (ms == [] ||
        var n := |ms| - 1;
        && Plausible(s, ms[..n], ess[..n])
        && (ms[n].Others? ==> Arrivals(Played(s, ms[..n], ess[..n]), ms[n], ess[n])))
  }

  /** The state after the events that the moves stand for, as far as they are possible. */
  ghost function Played(s: Sys, ms: seq<ManagerMove<Value>>, ess: seq<seq<Event>>): Sys
    requires |ess| == |ms|
    decreases |ms|, 1
  {
    if ms == [] then s
    else
      var n := |ms| - 1;
      var s1, es := Played(s, ms[..n], ess[..n]), EventsOf(ms[n], ess[n]);
      if AllCan(s1, es) then DoAll(s1, es) else s1
  }

  /** They are all possible. */
  ghost predicate AllPossible(s: Sys, ms: seq<ManagerMove<Value>>, ess: seq<seq<Event>>)
    requires |ess| == |ms|
    decreases |ms|
  {
    ms == [] ||
    (var n := |ms| - 1;
     AllPossible(s, ms[..n], ess[..n]) && AllCan(Played(s, ms[..n], ess[..n]), EventsOf(ms[n], ess[n])))
  }

  lemma MoveIsEvents(c: ManagerCall<Value>, mv: ManagerMove<Value>, c': ManagerCall<Value>, s: Sys, es: seq<Event>)
    requires InStep(c, s) && Moves(Takes, Nothing, c, mv, c') && (mv.Others? ==> Arrivals(s, mv, es))
    ensures AllCan(s, EventsOf(mv, es)) && InStep(c', DoAll(s, EventsOf(mv, es)))
  {
    match mv
    case Take(t) =>
      TurnIsEvent(c, s, t, c');
      assert [Receive(t)][1..] == [];
    case Others(msgs, keys) => ArrivalsAgree(s, es);
    case _ =>
  }

  /**
    Whatever a call of `sync_pop` does, step by step and with pushes of other threads in between,
    is a run of the system in which each of its turns is a possible event; in the end the
    receiver's queues and tables are those of the system, and so is what the call hands out.
   */
  lemma {:induction false} CallIsRun(
    c: ManagerCall<Value>, ms: seq<ManagerMove<Value>>, c': ManagerCall<Value>, s: Sys, ess: seq<seq<Event>>)
    requires InStep(c, s) && CallLeads(c, ms, c') && Plausible(s, ms, ess)
    ensures AllPossible(s, ms, ess)
    ensures InStep(c', Played(s, ms, ess))
    decreases |ms|
  {
    if ms == [] {
    } else {
      var n := |ms| - 1;
      var mid :| Leads(Takes, Nothing, c, ms[..n], mid) && Moves(Takes, Nothing, mid, ms[n], c');
      CallIsRun(c, ms[..n], mid, s, ess[..n]);
      MoveIsEvents(mid, ms[n], c', Played(s, ms[..n], ess[..n]), ess[n]);
    }
  }
}
