/**
  The receiver's turns: one iteration of the loop over dropped keys, and the handling of
  one message taken from the send queue. `sync_pop` is a sequence of such turns that ends
  with the first one that hands out a message.
 */
module ReceiverSpec {
  import opened Keys
  import opened ConflictSpec
  import opened ReceiverLoop

  /** A message in the send queue. */
  datatype Msg<V> = Msg(ks: seq<Key>, v: V)

  /** What the receiver works on. */
  datatype Recv<V> = Recv(q: seq<Msg<V>>, dropq: seq<Key>, m: Manager<V>)

  datatype Turn = DropTurn(c: Choice) | NewTurn

  datatype Outcome<V> = Outcome(r: Recv<V>, got: Got<V>)

  ghost predicate CanTurn<V>(r: Recv<V>, t: Turn) {
    match t
    case DropTurn(c) => r.dropq != [] && CanRelease(r.m, r.dropq[0], c)
    case NewTurn => r.q != []
  }

  ghost function DoTurn<V>(r: Recv<V>, t: Turn): Outcome<V>
    requires CanTurn(r, t)
  {
    match t
    case DropTurn(c) =>
      var x := Release(r.m, r.dropq[0], c);
      Outcome(r.(dropq := r.dropq[1..], m := x.m), x.got)
    case NewTurn =>
      var x := HandleNew(r.m, r.q[0].ks, r.q[0].v);
      Outcome(r.(q := r.q[1..], m := x.m), x.got)
  }

  // ---------------------------------------------------------------- a whole call

  type ManagerCall<V> = Call<Msg<V>, Manager<V>, Got<V>>
  type ManagerMove<V> = Move<Turn, Msg<V>>

  /** The loop takes a dropped key or a message and does its turn. */
  ghost predicate Takes<V>(c: ManagerCall<V>, t: Turn, c': ManagerCall<V>) {
    var r := Recv(c.q, c.dropq, c.m);
    && (if t.DropTurn? then c.pc.PopDrop? else c.pc.PopQ?)
    && CanTurn(r, t)
    && var o := DoTurn(r, t); c' == Call(o.r.q, o.r.dropq, o.r.m, PopDrop, o.got)
  }

  predicate TakesKey(t: Turn) {
    t.DropTurn?
  }

  /** The moves `ms` lead the call from `start` to `now`. */
  ghost predicate CallLeads<V(!new)>(start: ManagerCall<V>, ms: seq<ManagerMove<V>>, now: ManagerCall<V>) {
    Leads(Takes, Nothing, start, ms, now)
  }
}
