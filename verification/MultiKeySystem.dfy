/**
  Runs of the multi-key channel: any number of senders, the receiver's turns and the drops
  of delivered messages, interleaved at every queue operation. Values travel as tags, the
  positions of their messages in the order of acceptance; the manager never looks at values.
 */
module MultiKeySystem {
  import opened Util
  import opened Keys
  import opened ConflictSpec
  import opened ReceiverSpec
  import opened KeyLedgers

  /** Where an accepted message is. */
  datatype Place = InQueue | Waiting(id: int) | Delivered(i: nat)

  datatype Sys = Sys(
    accepted: seq<Msg<Value>>,     // every message pushed, in push order
    place: seq<Place>,             // where each of them is now
    r: Recv<nat>,                  // both queues and the conflict manager
    out: map<nat, seq<Key>>,       // living `Message` objects: the keys each has not given back yet
    delivered: seq<Msg<nat>>,      // what the receiver handed out, in order
    departed: set<Link>,           // links left behind by messages freed through another key
    panic: Option<Panic>)

  datatype Event =
    | Send(msg: Msg<Value>)
    | DropKey(t: nat)       // a `Message` being dropped pushes its last key
    | DropEnd(t: nat)       // it has no key left
    | Receive(turn: Turn)

  ghost predicate Init(s: Sys) {
    s == Sys([], [], Recv([], [], Empty()), map[], [], {}, None)
  }

  ghost predicate CanDo(s: Sys, e: Event) {
    && s.panic.None?
    && match e
       case Send(_) => true
       case DropKey(t) => t in s.out && s.out[t] != []
       case DropEnd(t) => t in s.out && s.out[t] == []
       case Receive(turn) => CanTurn(s.r, turn)
  }

  /** The links that freeing message `id` through key `k` leaves behind. */
  ghost function LeftBehind(m: Manager<nat>, k: Key, id: int): set<Link>
    requires id in m.waiting
  {
    Links(m.waiting[id].handles, id) - {Link(k, id)}
  }

  ghost function DepartedAfter(s: Sys, turn: Turn): set<Link>
    requires CanTurn(s.r, turn)
  {
    match turn
    case DropTurn(Found(id)) =>
      if id in s.r.m.waiting then s.departed + LeftBehind(s.r.m, s.r.dropq[0], id) else s.departed
    case _ => s.departed
  }

  ghost function Do(s: Sys, e: Event): Sys
    requires CanDo(s, e)
  {
    match e
    case Send(msg) =>
      s.(accepted := s.accepted + [msg], place := s.place + [InQueue],
         r := s.r.(q := s.r.q + [Msg(msg.ks, |s.accepted|)]))
    case DropKey(t) =>
      var n := |s.out[t]| - 1;
      s.(out := s.out[t := s.out[t][..n]], r := s.r.(dropq := s.r.dropq + [s.out[t][n]]))
    case DropEnd(t) => s.(out := s.out - {t})
    case Receive(turn) =>
      var o := DoTurn(s.r, turn);
      match o.got
      case Panicked(why) => s.(panic := Some(why))
      case Nothing =>
        s.(r := o.r, place := if turn.NewTurn? then Move(s.place, s.r.q[0].v, Waiting(s.r.m.next)) else s.place)
      case Got(ks, t) =>
        s.(r := o.r, place := Move(s.place, t, Delivered(|s.delivered|)), departed := DepartedAfter(s, turn),
           out := s.out[t := ks], delivered := s.delivered + [Msg(ks, t)])
  }

  function Move(place: seq<Place>, t: nat, p: Place): seq<Place> {
    if t < |place| then place[t := p] else place
  }

  // ---------------------------------------------------------------- invariant

  /** The number of accepted messages that left the send queue. */
  function Base(s: Sys): int {
    |s.accepted| - |s.r.q|
  }

  /** The send queue is the tail of the accepted messages. */
  ghost predicate QueueIsTail(accepted: seq<Msg<Value>>, q: seq<Msg<nat>>) {
    && |q| <= |accepted|
    && forall i | 0 <= i < |q| ::
         q[i] == Msg(accepted[|accepted| - |q| + i].ks, |accepted| - |q| + i)
  }

  /** Waiting and delivered messages are accepted ones, with the keys in the order sent. */
  ghost predicate Faithful(accepted: seq<Msg<Value>>, base: int,
                           waiting: map<int, Parked<nat>>, delivered: seq<Msg<nat>>) {
    && 0 <= base <= |accepted|
    && (forall id | id in waiting ::
          waiting[id].v < base && Reversed(waiting[id].handles) == accepted[waiting[id].v].ks)
    && (forall i | 0 <= i < |delivered| ::
          delivered[i].v < base && delivered[i].ks == accepted[delivered[i].v].ks)
  }

  /** Every accepted message is in exactly one place: the queue's tail, the waiting table or the deliveries. */
  ghost predicate Placed(place: seq<Place>, base: int, waiting: map<int, Parked<nat>>, delivered: seq<Msg<nat>>) {
    && (forall t | 0 <= t < |place| ::
          match place[t]
          case InQueue => base <= t
          case Waiting(id) => t < base && id in waiting && waiting[id].v == t
          case Delivered(i) => t < base && i < |delivered| && delivered[i].v == t)
    && (forall id | id in waiting :: waiting[id].v < |place| && place[waiting[id].v] == Waiting(id))
    && (forall i | 0 <= i < |delivered| :: delivered[i].v < |place| && place[delivered[i].v] == Delivered(i))
  }

  /** Living message objects are delivered messages that gave back some keys from the end. */
  ghost predicate OutIsDelivered(accepted: seq<Msg<Value>>, place: seq<Place>, out: map<nat, seq<Key>>) {
    && |place| == |accepted|
    && forall t | t in out :: t < |place| && place[t].Delivered? && out[t] <= accepted[t].ks
  }

  /** The dead links are those that messages freed through another key left behind. */
  ghost predicate Remembered(departed: set<Link>, m: Manager<nat>) {
    forall l :: l in departed <==> l in m.index && l.id !in m.waiting
  }

  /** Everything but the manager's own invariant. */
  ghost predicate Books(s: Sys) {
    && Ledger(s.r.m.held, s.r.dropq, s.delivered, s.out)
    && QueueIsTail(s.accepted, s.r.q)
    && Faithful(s.accepted, Base(s), s.r.m.waiting, s.delivered)
    && Placed(s.place, Base(s), s.r.m.waiting, s.delivered)
    && OutIsDelivered(s.accepted, s.place, s.out)
    && Remembered(s.departed, s.r.m)
  }

  /** What holds whatever the senders send. */
  ghost predicate Inv(s: Sys) {
    ConflictSpec.Inv(s.r.m) && Books(s)
  }

  /** What holds besides if no message repeats a key. */
  ghost predicate Clean(s: Sys) {
    && Inv(s)
    && (forall i | 0 <= i < |s.accepted| :: Distinct(s.accepted[i].ks))
    && (s.panic.Some? ==> s.panic.value in {DeadHandle, IdOverflow})
  }

  lemma TagsDistinct(s: Sys)
    requires Placed(s.place, Base(s), s.r.m.waiting, s.delivered)
    requires OutIsDelivered(s.accepted, s.place, s.out)
    ensures DistinctTags(s.delivered) && OnlyDelivered(s.delivered, s.out)
  {
    forall i, j | 0 <= i < j < |s.delivered| ensures s.delivered[i].v != s.delivered[j].v {
      assert s.place[s.delivered[i].v] == Delivered(i) && s.place[s.delivered[j].v] == Delivered(j);
    }
    forall t | t in s.out ensures exists j :: 0 <= j < |s.delivered| && s.delivered[j].v == t {
      assert s.delivered[s.place[t].i].v == t;
    }
  }

  /** Keys are owned exclusively if and only if no message that was handed out repeats a key. */
  lemma OwnedIffDistinct(s: Sys)
    requires Inv(s)
    ensures Owned(s.r.m.held, s.r.dropq, s.out) <==> AllDistinct(s.delivered)
  {
    TagsDistinct(s);
    OwnedExactly(s.r.m.held, s.r.dropq, s.delivered, s.out);
  }

  lemma CleanOwned(s: Sys)
    requires Clean(s)
    ensures Owned(s.r.m.held, s.r.dropq, s.out)
  {
    OwnedIffDistinct(s);
  }

  /** Without repeated keys, the key at the head of the drop queue is in use. */
  lemma DroppedInUse(s: Sys)
    requires Clean(s) && s.r.dropq != []
    ensures s.r.dropq[0] in s.r.dropq && s.r.dropq[0] in s.r.m.held && s.r.dropq[0] in s.r.m.entries
  {
    CleanOwned(s);
    assert s.r.dropq[0] in s.r.dropq;
  }

  lemma InitInv(s: Sys)
    requires Init(s)
    ensures Inv(s) && Clean(s)
  {
  }

  lemma SendKeepsBooks(s: Sys, msg: Msg<Value>)
    requires Books(s) && CanDo(s, Send(msg))
    ensures Books(Do(s, Send(msg)))
  {
    assert Base(Do(s, Send(msg))) == Base(s);
  }

  lemma DropKeyKeepsBooks(s: Sys, t: nat)
    requires Books(s) && CanDo(s, DropKey(t))
    ensures Books(Do(s, DropKey(t)))
  {
    TagsDistinct(s);
    GivesBack(s.r.m.held, s.r.dropq, s.delivered, s.out, t, |s.out[t]| - 1);
  }

  lemma DropEndKeepsBooks(s: Sys, t: nat)
    requires Books(s) && CanDo(s, DropEnd(t))
    ensures Books(Do(s, DropEnd(t)))
  {
    GoesAway(s.r.m.held, s.r.dropq, s.delivered, s.out, t);
  }

  // ---------------------------------------------------------------- the receiver's turns

  /** A turn that ends the call hands out an accepted message, with its keys, that was not delivered before. */
  ghost predicate HandsOutNew(s: Sys, turn: Turn)
    requires CanTurn(s.r, turn)
  {
    var got := DoTurn(s.r, turn).got;
    got.Got? ==>
      && got.v < |s.place| == |s.accepted| && !s.place[got.v].Delivered? && got.v !in s.out
      && got.ks == s.accepted[got.v].ks
  }

  lemma NewHandsOutNew(s: Sys)
    requires Books(s) && CanTurn(s.r, NewTurn)
    ensures HandsOutNew(s, NewTurn)
  {
    var e := s.r.q[0];
    assert e == Msg(s.accepted[Base(s)].ks, Base(s));
    assert !s.place[e.v].Waiting? && !s.place[e.v].Delivered?;
  }

  lemma FoundHandsOutNew(s: Sys, id: int)
    requires Books(s) && Indexed(s.r.m) && CanTurn(s.r, DropTurn(Found(id)))
    requires s.r.dropq[0] in s.r.m.held && s.r.dropq[0] in s.r.m.entries
    ensures HandsOutNew(s, DropTurn(Found(id)))
  {
    FoundFacts(s.r.m, s.r.dropq[0], id);
    assert s.place[s.r.m.waiting[id].v] == Waiting(id);
  }

  /** An undelivered message's tag is not among those of the delivered ones. */
  lemma NotAmongDelivered(s: Sys, t: nat)
    requires Placed(s.place, Base(s), s.r.m.waiting, s.delivered) && t < |s.place| && !s.place[t].Delivered?
    ensures forall j | 0 <= j < |s.delivered| :: s.delivered[j].v != t
  {
  }

  lemma NewKeepsLedger(s: Sys)
    requires Books(s) && CanDo(s, Receive(NewTurn)) && HandsOutNew(s, NewTurn)
    ensures var s' := Do(s, Receive(NewTurn)); Ledger(s'.r.m.held, s'.r.dropq, s'.delivered, s'.out)
  {
    var e := s.r.q[0];
    if HandleNew(s.r.m, e.ks, e.v).got.Got? {
      NotAmongDelivered(s, e.v);
      IsHandedOut(s.r.m.held, s.r.dropq, s.delivered, s.out, e);
    }
  }

  lemma DropKeepsLedger(s: Sys, c: Choice)
    requires Books(s) && Indexed(s.r.m) && s.r.m.held <= s.r.m.entries
    requires CanDo(s, Receive(DropTurn(c))) && s.r.dropq[0] in s.r.m.held && HandsOutNew(s, DropTurn(c))
    ensures var s' := Do(s, Receive(DropTurn(c))); Ledger(s'.r.m.held, s'.r.dropq, s'.delivered, s'.out)
  {
    var m, k := s.r.m, s.r.dropq[0];
    IsReleased(m.held, s.r.dropq, s.delivered, s.out);
    if c.Found? {
      FoundFacts(m, k, c.id);
      var got := Release(m, k, c).got;
      if got.Got? {
        NotAmongDelivered(s, got.v);
        IsHandedOut(m.held - {k}, s.r.dropq[1..], s.delivered, s.out, Msg(got.ks, got.v));
        assert (m.held - {k}) + SetOf(m.waiting[c.id].handles) + {k} == (m.held - {k}) + SetOf(got.ks);
      }
    }
  }

  lemma TurnKeepsQueue(s: Sys, turn: Turn)
    requires QueueIsTail(s.accepted, s.r.q) && CanDo(s, Receive(turn))
    ensures var s' := Do(s, Receive(turn)); QueueIsTail(s'.accepted, s'.r.q)
  {
  }

  lemma TurnKeepsOut(s: Sys, turn: Turn)
    requires OutIsDelivered(s.accepted, s.place, s.out) && CanDo(s, Receive(turn)) && HandsOutNew(s, turn)
    requires turn.NewTurn? ==> s.r.q[0].v < |s.place| && s.place[s.r.q[0].v].InQueue?
    ensures var s' := Do(s, Receive(turn)); OutIsDelivered(s'.accepted, s'.place, s'.out)
  {
  }

  lemma NewKeepsFaithful(s: Sys)
    requires Faithful(s.accepted, Base(s), s.r.m.waiting, s.delivered)
    requires CanDo(s, Receive(NewTurn)) && Base(s) < |s.accepted|
    requires s.r.q[0] == Msg(s.accepted[Base(s)].ks, Base(s))
    ensures var s' := Do(s, Receive(NewTurn)); Faithful(s'.accepted, Base(s'), s'.r.m.waiting, s'.delivered)
  {
    ReversedTwice(s.r.q[0].ks);
  }

  /** The message at the head of the queue is handed out. */
  lemma ActivePlaced(place: seq<Place>, base: nat, waiting: map<int, Parked<nat>>, delivered: seq<Msg<nat>>,
                     e: Msg<nat>)
    requires Placed(place, base, waiting, delivered) && base < |place| && e.v == base
    ensures Placed(Move(place, base, Delivered(|delivered|)), base + 1, waiting, delivered + [e])
  {
    assert place[base].InQueue?;
  }

  /** The message at the head of the queue becomes a waiting one. */
  lemma ParkedPlaced(place: seq<Place>, base: nat, waiting: map<int, Parked<nat>>, delivered: seq<Msg<nat>>,
                     id: int, p: Parked<nat>)
    requires Placed(place, base, waiting, delivered) && base < |place| && p.v == base && id !in waiting
    ensures Placed(Move(place, base, Waiting(id)), base + 1, waiting[id := p], delivered)
  {
    assert place[base].InQueue?;
  }

  lemma NewKeepsPlaced(s: Sys)
    requires Placed(s.place, Base(s), s.r.m.waiting, s.delivered)
    requires CanDo(s, Receive(NewTurn)) && 0 <= Base(s) < |s.place|
    requires s.r.q[0].v == Base(s) && s.r.m.next !in s.r.m.waiting
    ensures var s' := Do(s, Receive(NewTurn)); Placed(s'.place, Base(s'), s'.r.m.waiting, s'.delivered)
  {
    var e := s.r.q[0];
    if Meets(s.r.m.held, e.ks) {
      ParkedPlaced(s.place, Base(s), s.r.m.waiting, s.delivered, s.r.m.next, Parked(Reversed(e.ks), e.v));
    } else {
      ActivePlaced(s.place, Base(s), s.r.m.waiting, s.delivered, e);
    }
  }

  lemma FreedPlaced(place: seq<Place>, base: int, waiting: map<int, Parked<nat>>, delivered: seq<Msg<nat>>,
                    id: int, e: Msg<nat>)
    requires Placed(place, base, waiting, delivered) && id in waiting && e.v == waiting[id].v
    ensures Placed(Move(place, e.v, Delivered(|delivered|)), base, waiting - {id}, delivered + [e])
  {
    assert place[e.v] == Waiting(id);
  }

  lemma DropKeepsFaithful(s: Sys, c: Choice)
    requires Faithful(s.accepted, Base(s), s.r.m.waiting, s.delivered) && CanDo(s, Receive(DropTurn(c)))
    ensures var s' := Do(s, Receive(DropTurn(c))); Faithful(s'.accepted, Base(s'), s'.r.m.waiting, s'.delivered)
  {
    var s' := Do(s, Receive(DropTurn(c)));
    assert Base(s') == Base(s);
    if s'.panic.None? && c.Found? {
      var p := s.r.m.waiting[c.id];
      assert s'.delivered == s.delivered + [Msg(Reversed(p.handles), p.v)];
      assert s'.r.m.waiting == s.r.m.waiting - {c.id};
    }
  }

  lemma DropKeepsPlaced(s: Sys, c: Choice)
    requires Placed(s.place, Base(s), s.r.m.waiting, s.delivered) && CanDo(s, Receive(DropTurn(c)))
    ensures var s' := Do(s, Receive(DropTurn(c))); Placed(s'.place, Base(s'), s'.r.m.waiting, s'.delivered)
  {
    var s' := Do(s, Receive(DropTurn(c)));
    assert Base(s') == Base(s);
    if s'.panic.None? && c.Found? {
      var p := s.r.m.waiting[c.id];
      FreedPlaced(s.place, Base(s), s.r.m.waiting, s.delivered, c.id, Msg(Reversed(p.handles), p.v));
    }
  }

  /** What the freed message leaves behind in the other keys' indices is what becomes dead. */
  lemma TurnKeepsRemembered(s: Sys, turn: Turn)
    requires Remembered(s.departed, s.r.m) && Indexed(s.r.m) && CanDo(s, Receive(turn))
    ensures var s' := Do(s, Receive(turn)); Remembered(s'.departed, s'.r.m)
  {
    var m, s' := s.r.m, Do(s, Receive(turn));
    if turn.DropTurn? && turn.c.Found? && s'.panic.None? {
      var id := turn.c.id;
      forall l ensures l in s'.departed <==> l in s'.r.m.index && l.id !in s'.r.m.waiting {
        if l.id == id {
          assert l in m.index <==> WaitsFor(m, id, l.k);
        }
      }
    }
  }

  /** The found message no longer meets the keys in use once `k` is released. */
  lemma FoundFacts(m: Manager<nat>, k: Key, id: int)
    requires Indexed(m) && k in m.held && k in m.entries && CanRelease(m, k, Found(id))
    ensures id in m.waiting && k in m.waiting[id].handles
    ensures var ks := Reversed(m.waiting[id].handles);
            && SetOf(ks) == SetOf(m.waiting[id].handles) && !Meets(m.held - {k}, ks)
            && (Distinct(ks) ==> !RepeatsOther(m.waiting[id].handles, k))
            && (!RepeatsOther(m.waiting[id].handles, k) ==>
                  Release(m, k, Found(id)) ==
                    Result(Depart(Claim(Unuse(m, k), k, id), id), Got(ks, m.waiting[id].v)))
  {
    var hs := m.waiting[id].handles;
    ReversedDistinct(hs);
    ReversedMembers(hs);
    assert WaitsFor(m, id, k) by { assert Link(k, id) in m.index && Link(k, id).id in m.waiting; }
  }

  lemma NewKeepsBooks(s: Sys)
    requires Books(s) && Indexed(s.r.m) && CanDo(s, Receive(NewTurn))
    ensures Books(Do(s, Receive(NewTurn)))
  {
    NewHandsOutNew(s);
    NewKeepsLedger(s);
    TurnKeepsQueue(s, NewTurn);
    assert s.r.q[0] == Msg(s.accepted[Base(s)].ks, Base(s)) && s.place[Base(s)].InQueue?;
    TurnKeepsOut(s, NewTurn);
    NewKeepsFaithful(s);
    NewKeepsPlaced(s);
    TurnKeepsRemembered(s, NewTurn);
  }

  /** Releasing a key that is not in use fails an assertion or finds no entry. */
  lemma UnusedPanics(s: Sys, c: Choice)
    requires CanDo(s, Receive(DropTurn(c))) && s.r.dropq[0] !in s.r.m.held
    ensures DoTurn(s.r, DropTurn(c)).got.Panicked?
  {
  }

  lemma DropKeepsBooks(s: Sys, c: Choice)
    requires Books(s) && Indexed(s.r.m) && s.r.m.held <= s.r.m.entries && CanDo(s, Receive(DropTurn(c)))
    ensures Books(Do(s, Receive(DropTurn(c))))
  {
    if s.r.dropq[0] !in s.r.m.held {
      UnusedPanics(s, c);
    } else {
      if c.Found? { FoundHandsOutNew(s, c.id); }
      DropKeepsLedger(s, c);
      TurnKeepsQueue(s, DropTurn(c));
      TurnKeepsOut(s, DropTurn(c));
      DropKeepsFaithful(s, c);
      DropKeepsPlaced(s, c);
      TurnKeepsRemembered(s, DropTurn(c));
    }
  }

  lemma TurnKeepsInv(s: Sys, turn: Turn)
    requires Inv(s) && CanDo(s, Receive(turn))
    ensures Inv(Do(s, Receive(turn)))
  {
    match turn {
      case NewTurn =>
        HandleNewKeepsInv(s.r.m, s.r.q[0].ks, s.r.q[0].v);
        NewKeepsBooks(s);
      case DropTurn(c) =>
        ReleaseKeepsInv(s.r.m, s.r.dropq[0], c);
        DropKeepsBooks(s, c);
    }
  }

  lemma StepKeepsInv(s: Sys, e: Event)
    requires Inv(s) && CanDo(s, e)
    ensures Inv(Do(s, e))
  {
    match e
    case Send(msg) => SendKeepsBooks(s, msg);
    case DropKey(t) => DropKeyKeepsBooks(s, t);
    case DropEnd(t) => DropEndKeepsBooks(s, t);
    case Receive(turn) => TurnKeepsInv(s, turn);
  }

  // ---------------------------------------------------------------- without repeated keys

  /** Releasing a dropped key can only panic on a dead handle. */
  lemma DropPanics(s: Sys, c: Choice)
    requires Clean(s) && CanTurn(s.r, DropTurn(c))
    ensures DoTurn(s.r, DropTurn(c)).got.Panicked? <==> c.Dead?
    ensures c.Dead? ==> DoTurn(s.r, DropTurn(c)).got == Panicked(DeadHandle)
  {
    DroppedInUse(s);
    if c.Found? {
      FoundFacts(s.r.m, s.r.dropq[0], c.id);
    }
  }

  lemma StepKeepsClean(s: Sys, e: Event)
    requires Clean(s) && CanDo(s, e) && (e.Send? ==> Distinct(e.msg.ks))
    ensures Clean(Do(s, e))
  {
    StepKeepsInv(s, e);
    if e.Receive? {
      match e.turn
      case DropTurn(c) => DropPanics(s, c);
      case NewTurn => assert s.r.q[0] == Msg(s.accepted[Base(s)].ks, Base(s));
    }
  }
}
