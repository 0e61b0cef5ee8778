/**
  The conflict manager as the objects of `kv_mpsc_multik.rs`: key states shared between
  the key table and the waiting messages, waiting messages listed by weak handles, and the
  manager that owns both tables. Each method is proved against `ConflictSpec`. An `assert!`
  or `panic!` of the source that no caller can reach appears here as a proved `assert`; one
  that the history can reach is an outcome.
 */
module ConflictManagers {
  import opened Util
  import opened Keys
  import opened ConflictSpec
  import opened ReceiverLoop
  import opened ReceiverSpec
  import opened SegQueues

  /** The names of the keys behind a message's handles. */
  ghost function Names(hs: seq<KeyState>): (r: seq<Key>)
    requires forall h | h in hs :: h.k.Some?
    ensures |r| == |hs| && forall i | 0 <= i < |hs| :: r[i] == hs[i].k.value
  {
    seq(|hs|, i requires 0 <= i < |hs| => hs[i].k.value)
  }

  class WaitingMsg {
    const id: int
    /** The message itself, until it is taken out. */
    var ksV: Option<(seq<KeyState>, Value)>
    /** A strong reference remains, so that weak ones upgrade. */
    var alive: bool

    constructor (id: int, v: Value)
      ensures this.id == id && ksV == Some(([], v)) && alive
    {
      this.id, ksV, alive := id, Some(([], v)), true;
    }

    method AddKstate(k: KeyState)
      requires ksV.Some?
      modifies this`ksV
      ensures ksV == Some((old(ksV.value.0) + [k], old(ksV.value.1)))
    {
      ksV := Some((ksV.value.0 + [k], ksV.value.1));
    }

    /** Hands out value and keys; popping the handles restores the order in which the keys were sent. */
    method TakeKv() returns (ks: seq<Key>, v: Value)
      requires ksV.Some?
      requires forall h | h in ksV.value.0 :: h.k.Some?
      modifies this`ksV
      ensures ksV.None?
      ensures ks == Reversed(Names(old(ksV.value.0))) && v == old(ksV.value.1)
    {
      var (kstates, value) := ksV.value;
      v := value;
      ksV := None;
      ks := [];
      ghost var all := kstates;
      while kstates != []
        invariant kstates <= all
        invariant |ks| == |all| - |kstates|
        invariant forall i | 0 <= i < |ks| :: ks[i] == Names(all)[|all| - 1 - i]
        decreases |kstates|
      {
        var k := kstates[|kstates| - 1];
        kstates := kstates[..|kstates| - 1];
        assert k in all;
        ks := ks + [k.k.value];
      }
      ReversedIs(Names(all), ks);
    }
  }

  class KeyState {
    const k: Option<Key>
    /** The key is held by an active message. */
    var using: bool
    /** Weak handles of the waiting messages that need the key. */
    var waitingmsgs: map<int, WaitingMsg>

    constructor (k: Key)
      ensures this.k == Some(k) && !using && waitingmsgs == map[]
    {
      this.k, using, waitingmsgs := Some(k), false, map[];
    }

    method AddWaitingmsg(weak: WaitingMsg)
      requires weak.alive
      modifies this`waitingmsgs
      ensures waitingmsgs == old(waitingmsgs)[weak.id := weak]
    {
      waitingmsgs := waitingmsgs[weak.id := weak];
    }

    method RemoveWaitingmsg(id: int)
      requires id in waitingmsgs
      modifies this`waitingmsgs
      ensures waitingmsgs == old(waitingmsgs) - {id}
    {
      waitingmsgs := waitingmsgs - {id};
    }

    method SetUse()
      requires !using
      modifies this`using
      ensures using
    {
      using := true;
    }

    method SetUnuse()
      requires using
      modifies this`using
      ensures !using
    {
      using := false;
    }

    /** `w`'s message is there and all of its keys are unused. */
    ghost predicate Ready(w: WaitingMsg, frame: set<KeyState>)
      reads w, frame
    {
      w.alive && w.ksV.Some? && forall h | h in w.ksV.value.0 :: h in frame && !h.using
    }

    /**
      Searches the index, in no particular order, for a message without a key in use and
      marks its keys. While the search iterates, this state is borrowed, so that marking
      skips it (`try_borrow_mut` fails) and `SetUse` marks it afterwards. A departed message
      ends the search, and so does a key that is marked twice.
     */
    method TryGetStopWaitingMsg(ghost frame: set<KeyState>) returns (c: Choice, doubleUse: bool)
      requires this in frame && !using
      requires forall id | id in waitingmsgs && waitingmsgs[id].alive ::
                 waitingmsgs[id].ksV.Some? && forall h | h in waitingmsgs[id].ksV.value.0 :: h in frame
      modifies frame`using, this`waitingmsgs
      ensures match c
              case Dead(id) =>
                id in old(waitingmsgs) && !old(waitingmsgs)[id].alive
              case NoneFree =>
                && waitingmsgs == old(waitingmsgs)
                && (forall h | h in frame :: h.using == old(h.using))
                && (forall id | id in waitingmsgs ::
                      waitingmsgs[id].alive && waitingmsgs[id].ksV.Some? &&
                      exists h :: h in waitingmsgs[id].ksV.value.0 && h in frame && h.using)
              case Found(id) =>
                && id in old(waitingmsgs)
                && old(Ready(waitingmsgs[id], frame))
                && var hs := old(waitingmsgs)[id].ksV.value.0;
                   && (doubleUse <==> RepeatsOther(hs, this))
                   && (!doubleUse ==>
                         && waitingmsgs == old(waitingmsgs) - {id}
                         && forall h | h in frame :: h.using == (old(h.using) || h in hs || h == this))
      ensures doubleUse ==> c.Found?
    {
      doubleUse := false;
      var unvisited := waitingmsgs.Keys;
      while unvisited != {}
        invariant unvisited <= waitingmsgs.Keys == old(waitingmsgs).Keys
        invariant waitingmsgs == old(waitingmsgs)
        invariant forall h | h in frame :: h.using == old(h.using)
        invariant forall id | id in waitingmsgs && id !in unvisited ::
                    waitingmsgs[id].alive && waitingmsgs[id].ksV.Some? &&
                    exists h :: h in waitingmsgs[id].ksV.value.0 && h in frame && h.using
      {
        var id := NextOf(unvisited);
        var msg := waitingmsgs[id];
        if !msg.alive {
          return Dead(id), false;
        }
        var ks := msg.ksV.value.0;
        var free := AllUnused(ks);
        if free {
          doubleUse := MarkOthers(ks, frame);
          if !doubleUse {
            SetUse();
            RemoveWaitingmsg(id);
          }
          return Found(id), doubleUse;
        }
        unvisited := unvisited - {id};
      }
      return NoneFree, false;
    }

    method AllUnused(ks: seq<KeyState>) returns (free: bool)
      ensures free <==> forall h | h in ks :: !h.using
    {
      for i := 0 to |ks|
        invariant forall j | 0 <= j < i :: !ks[j].using
      {
        if ks[i].using { return false; }
      }
      return true;
    }

    /** Marks every handle but the borrowed one; a handle met twice fails the assertion in `try_set_use`. */
    method MarkOthers(ks: seq<KeyState>, ghost frame: set<KeyState>) returns (doubleUse: bool)
      requires forall h | h in ks :: h in frame && !h.using
      modifies frame`using
      ensures doubleUse <==> RepeatsOther(ks, this)
      ensures !doubleUse ==> forall h | h in frame :: h.using == (old(h.using) || (h in ks && h != this))
    {
      for i := 0 to |ks|
        invariant forall h | h in frame :: h.using == (old(h.using) || (h in ks[..i] && h != this))
        invariant !RepeatsOther(ks[..i], this)
      {
        if ks[i] != this {
          if ks[i].using {
            var j :| 0 <= j < i && ks[j] == ks[i];
            return true;
          }
          ks[i].using := true;
        }
        assert ks[..i + 1] == ks[..i] + [ks[i]];
      }
      assert ks[..|ks|] == ks;
      return false;
    }
  }

  class ConflictManager {
    /** Waiting messages, held by strong references. */
    var waitingmsgs: map<int, WaitingMsg>
    var keysStates: map<Key, KeyState>
    var nextWaitingmsgId: int
    /** What the tables amount to; `Coherent` ties it to the objects. */
    ghost var model: Manager<Value>
    /** Every waiting message ever made, by its id, and every key state ever made. */
    ghost var issued: map<int, WaitingMsg>
    ghost var msgs: set<WaitingMsg>
    ghost var states: set<KeyState>

    /** The table's state for `k` carries that key, its flag and exactly the weak handles its index lists. */
    ghost predicate StateOk(k: Key)
      requires k in keysStates
      reads this`keysStates, this`model, this`issued, this`states, states`using, states`waitingmsgs
    {
      var s := keysStates[k];
      && s in states && s.k == Some(k)
      && (s.using <==> k in model.held)
      && (forall id :: id in s.waitingmsgs <==> Link(k, id) in model.index)
      && (forall id | id in s.waitingmsgs :: id in issued && s.waitingmsgs[id] == issued[id])
    }

    /** A weak handle upgrades exactly while the message waits. */
    ghost predicate IssuedOk(id: int)
      requires id in issued
      reads this`nextWaitingmsgId, this`model, this`issued, this`msgs, msgs`alive
    {
      var w := issued[id];
      w in msgs && w.id == id < nextWaitingmsgId && (w.alive <==> id in model.waiting)
    }

    /** A waiting message is whole, and every key state it holds is the very object in the key table. */
    ghost predicate MsgOk(id: int)
      requires id in model.waiting
      reads this`keysStates, this`model, this`issued, this`msgs, msgs`ksV
    {
      var hs := model.waiting[id].handles;
      && id in issued && issued[id] in msgs && issued[id].ksV.Some?
      && issued[id].ksV.value.1 == model.waiting[id].v
      && |issued[id].ksV.value.0| == |hs|
      && forall i | 0 <= i < |hs| :: hs[i] in keysStates && issued[id].ksV.value.0[i] == keysStates[hs[i]]
    }

    ghost predicate Coherent()
      reads this`keysStates, this`nextWaitingmsgId, this`model, this`issued, this`msgs, this`states
      reads states`using, states`waitingmsgs, msgs`ksV, msgs`alive
    {
      && model.next == nextWaitingmsgId
      && model.held <= model.entries == keysStates.Keys
      && (forall l | l in model.index :: l.k in keysStates)
      && (forall k {:trigger StateOk(k)} | k in keysStates :: StateOk(k))
      && (forall id {:trigger IssuedOk(id)} | id in issued :: IssuedOk(id))
      && (forall id {:trigger MsgOk(id)} | id in model.waiting :: MsgOk(id))
    }

    /** The waiting table holds exactly the waiting messages. */
    ghost predicate Tabled()
      reads this`waitingmsgs, this`model, this`issued
    {
      && waitingmsgs.Keys == model.waiting.Keys
      && forall id | id in waitingmsgs :: id in issued && waitingmsgs[id] == issued[id]
    }

    ghost predicate Valid()
      reads this, states, msgs
    {
      Coherent() && Tabled() && Inv(model)
    }

    constructor ()
      ensures Valid() && model == Empty() && states == {} && msgs == {}
    {
      waitingmsgs, keysStates, nextWaitingmsgId := map[], map[], 0;
      model, issued, msgs, states := Empty(), map[], {}, {};
    }

    /** A state stays right while the table, its index and its flag do. */
    twostate lemma KeepState(g: Key)
      requires g in old(keysStates) && old(StateOk(g))
      requires g in keysStates && keysStates[g] == old(keysStates[g])
      requires old(states) <= states
      requires keysStates[g].waitingmsgs == old(keysStates[g].waitingmsgs)
      requires keysStates[g].using <==> g in model.held
      requires forall id :: Link(g, id) in model.index <==> Link(g, id) in old(model.index)
      requires forall id | id in old(issued) :: id in issued && issued[id] == old(issued)[id]
      ensures StateOk(g)
    {
    }

    /** A message stays right while it and the table's states for its keys do. */
    twostate lemma KeepMsg(id: int)
      requires id in old(model.waiting) && old(MsgOk(id))
      requires id in model.waiting && model.waiting[id] == old(model.waiting[id])
      requires id in issued && issued[id] == old(issued[id]) && issued[id].ksV == old(issued[id].ksV)
      requires old(msgs) <= msgs
      requires forall k | k in model.waiting[id].handles ::
                 k in old(keysStates) && k in keysStates && keysStates[k] == old(keysStates)[k]
      ensures MsgOk(id)
    {
    }

    method WaitingmsgsExist() returns (b: bool)
      requires Valid()
      ensures b <==> model.waiting != map[]
    {
      b := waitingmsgs != map[];
      assert model.waiting.Keys == waitingmsgs.Keys;
    }

    /** `keys_states.entry(k).or_insert_with(..)`. */
    method EntryFor(k: Key) returns (s: KeyState)
      requires Coherent()
      modifies this`keysStates, this`states, this`model
      ensures Coherent() && k in keysStates && s == keysStates[k] && s in states && StateOk(k)
      ensures s in old(states) || fresh(s)
      ensures states == old(states) + {s}
      ensures model == old(model).(entries := old(model).entries + {k})
    {
      if k in keysStates {
        s := keysStates[k];
        assert StateOk(k);
      } else {
        s := new KeyState(k);
        AddState(k, s);
      }
    }

    method AddState(k: Key, s: KeyState)
      requires Coherent() && k !in keysStates
      requires s.k == Some(k) && !s.using && s.waitingmsgs == map[]
      modifies this`keysStates, this`states, this`model
      ensures Coherent() && keysStates == old(keysStates)[k := s] && StateOk(k)
      ensures states == old(states) + {s}
      ensures model == old(model).(entries := old(model).entries + {k})
    {
      keysStates, states := keysStates[k := s], states + {s};
      model := model.(entries := model.entries + {k});
      forall g | g in keysStates ensures StateOk(g) {
        if g != k {
          assert old(StateOk(g));
          KeepState(g);
        }
      }
      forall id | id in issued ensures IssuedOk(id) {
        assert old(IssuedOk(id));
      }
      forall id | id in model.waiting ensures MsgOk(id) {
        assert old(MsgOk(id));
        KeepMsg(id);
      }
    }

    /** Marks one key in use, unless it already is. */
    method UseKey(k: Key) returns (already: bool)
      requires Coherent()
      modifies this`keysStates, this`states, this`model, states`using
      ensures forall s | s in states :: s in old(states) || fresh(s)
      ensures already <==> k in old(model.held)
      ensures !already ==> Coherent() && model == Occupy(old(model), [k])
    {
      var s := EntryFor(k);
      already := s.using;
      if !already {
        SetUseAt(k);
      }
    }

    method SetUseAt(k: Key)
      requires Coherent() && k in keysStates && k !in model.held
      modifies this`model, states`using
      ensures Coherent() && model == Occupy(old(model), [k])
    {
      assert StateOk(k);
      keysStates[k].SetUse();
      model := Occupy(model, [k]);
      forall g | g in keysStates ensures StateOk(g) {
        assert old(StateOk(g));
        KeepState(g);
      }
      forall id | id in issued ensures IssuedOk(id) {
        assert old(IssuedOk(id));
      }
      forall id | id in model.waiting ensures MsgOk(id) {
        assert old(MsgOk(id));
        KeepMsg(id);
      }
    }

    /** Marks all keys of a message that meets no key in use; a repeated key fails the assertion in `set_use`. */
    method Activate(ks: seq<Key>) returns (doubleUse: bool)
      requires Coherent() && !Meets(model.held, ks)
      modifies this`keysStates, this`states, this`model, states`using
      ensures forall s | s in states :: s in old(states) || fresh(s)
      ensures doubleUse <==> !Distinct(ks)
      ensures !doubleUse ==> Coherent() && model == Occupy(old(model), ks)
    {
      ghost var m := model;
      doubleUse := false;
      assert Occupy(m, ks[..0]) == m;
      for i := 0 to |ks|
        invariant forall s | s in states :: s in old(states) || fresh(s)
        invariant Coherent() && model == Occupy(m, ks[..i])
        invariant Distinct(ks[..i])
      {
        OccupyOneMore(m, ks, i);
        var already := UseKey(ks[i]);
        if already {
          return true;
        }
      }
      assert ks[..|ks|] == ks;
    }

    /** `new_waiting_msg`: the next id, no handle yet. */
    method NewWaitingMsg(v: Value) returns (w: WaitingMsg)
      requires Coherent() && Indexed(model)
      modifies this`nextWaitingmsgId, this`issued, this`msgs, this`model
      ensures Coherent() && fresh(w) && w.id == old(nextWaitingmsgId)
      ensures issued == old(issued)[w.id := w] && w.id !in old(issued) && msgs == old(msgs) + {w}
      ensures model == Park(old(model), [], v)
    {
      w := new WaitingMsg(nextWaitingmsgId, v);
      assert forall id | id in issued :: IssuedOk(id);
      nextWaitingmsgId := nextWaitingmsgId + 1;
      issued, msgs, model := issued[w.id := w], msgs + {w}, Park(model, [], v);
      forall g | g in keysStates ensures StateOk(g) {
        assert old(StateOk(g));
        KeepState(g);
      }
      forall id | id in issued ensures IssuedOk(id) {
        if id != w.id { assert old(IssuedOk(id)); }
      }
      forall id | id in model.waiting ensures MsgOk(id) {
        if id != w.id {
          assert old(MsgOk(id));
          KeepMsg(id);
        }
      }
    }

    /** Gives the message under construction one more key, and the key's index the message. */
    method AttachKey(w: WaitingMsg, k: Key)
      requires Coherent() && w.id in model.waiting && w.id in issued && issued[w.id] == w
      modifies this`keysStates, this`states, this`model, states`waitingmsgs, w`ksV
      ensures Coherent() && (forall s | s in states :: s in old(states) || fresh(s))
      ensures model == Attached(old(model), w.id, k)
    {
      var s := EntryFor(k);
      Connect(w, k, s);
    }

    method Connect(w: WaitingMsg, k: Key, s: KeyState)
      requires Coherent() && w.id in model.waiting && w.id in issued && issued[w.id] == w
      requires k in keysStates && keysStates[k] == s
      modifies this`model, s`waitingmsgs, w`ksV
      ensures Coherent() && model == Attached(old(model), w.id, k)
    {
      assert StateOk(k) && MsgOk(w.id) && IssuedOk(w.id);
      w.AddKstate(s);
      s.AddWaitingmsg(w);
      model := Attached(model, w.id, k);
      forall g | g in keysStates ensures StateOk(g) {
        assert old(StateOk(g));
        if g != k { KeepState(g); }
      }
      forall id | id in issued ensures IssuedOk(id) {
        assert old(IssuedOk(id));
      }
      forall id | id in model.waiting ensures MsgOk(id) {
        assert old(MsgOk(id));
        if id != w.id {
          assert IssuedOk(id);
          KeepMsg(id);
        }
      }
    }

    /** Attaches the keys to the message under construction, popping them from the back. */
    method AttachAll(w: WaitingMsg, keys: seq<Key>)
      requires Coherent() && w.id in model.waiting && w.id in issued && issued[w.id] == w
      modifies this`keysStates, this`states, this`model, states`waitingmsgs, w`ksV
      ensures Coherent() && (forall s | s in states :: s in old(states) || fresh(s))
      ensures model == AttachedUpTo(old(model), w.id, Reversed(keys), |keys|)
    {
      ghost var m, hs := model, Reversed(keys);
      var ks := keys;
      while ks != []
        invariant ks <= keys
        invariant Coherent() && (forall s | s in states :: s in old(states) || fresh(s))
        invariant model == AttachedUpTo(m, w.id, hs, |hs| - |ks|)
        decreases |ks|
      {
        var k := ks[|ks| - 1];
        ks := ks[..|ks| - 1];
        ReversedAt(keys, |hs| - |ks| - 1);
        AttachKey(w, k);
      }
    }

    /** Builds a waiting message with all its keys, not yet entered in the table. */
    method BuildWaiting(ks: seq<Key>, v: Value) returns (w: WaitingMsg)
      requires Coherent() && Indexed(model)
      modifies this`keysStates, this`nextWaitingmsgId, this`model, this`issued, this`msgs, this`states
      modifies states`waitingmsgs
      ensures Coherent() && model == Park(old(model), Reversed(ks), v)
      ensures w.id == old(model).next && w.id !in old(issued) && issued == old(issued)[w.id := w]
      ensures forall s | s in states :: s in old(states) || fresh(s)
      ensures msgs == old(msgs) + {w} && fresh(w)
    {
      ghost var m := model;
      w := NewWaitingMsg(v);
      AttachAll(w, ks);
      AttachedUpToIsPark(m, Reversed(ks), v, |ks|);
      assert Reversed(ks)[..|ks|] == Reversed(ks);
    }

    /** Turns a message that meets a key in use into a waiting one. */
    method BecomeWaiting(ks: seq<Key>, v: Value)
      requires Coherent() && Tabled() && Indexed(model)
      modifies this, states`waitingmsgs
      ensures Coherent() && Tabled() && model == Park(old(model), Reversed(ks), v)
      ensures forall s | s in states :: s in old(states) || fresh(s)
      ensures forall w | w in msgs :: w in old(msgs) || fresh(w)
    {
      var w := BuildWaiting(ks, v);
      assert w.id !in waitingmsgs;
      waitingmsgs := waitingmsgs[w.id := w];
    }

    method MeetsUsed(ks: seq<Key>) returns (b: bool)
      requires Coherent()
      ensures b <==> Meets(model.held, ks)
    {
      for i := 0 to |ks|
        invariant forall j | 0 <= j < i :: ks[j] !in model.held
      {
        if ks[i] in keysStates {
          assert StateOk(ks[i]);
          if keysStates[ks[i]].using {
            assert ks[i] in ks && ks[i] in model.held;
            return true;
          }
        }
      }
      return false;
    }

    /** The message meets a key in use, so it waits, if there is an id left for it. */
    method MakeWaiting(ks: seq<Key>, v: Value) returns (got: Got<Value>)
      requires Valid() && Meets(model.held, ks)
      modifies this, states`using, states`waitingmsgs
      ensures got == HandleNew(old(model), ks, v).got
      ensures !got.Panicked? ==> Valid() && model == HandleNew(old(model), ks, v).m
      ensures forall s | s in states :: s in old(states) || fresh(s)
      ensures forall w | w in msgs :: w in old(msgs) || fresh(w)
    {
      HandleNewKeepsInv(model, ks, v);
      if nextWaitingmsgId == I32_MAX {
        return Panicked(IdOverflow);
      }
      BecomeWaiting(ks, v);
      return Nothing;
    }

    /** The message becomes active, unless it repeats a key. */
    method MakeActive(ks: seq<Key>, v: Value) returns (got: Got<Value>)
      requires Valid() && !Meets(model.held, ks)
      modifies this, states`using, states`waitingmsgs
      ensures got == HandleNew(old(model), ks, v).got
      ensures !got.Panicked? ==> Valid() && model == HandleNew(old(model), ks, v).m
      ensures forall s | s in states :: s in old(states) || fresh(s)
      ensures msgs == old(msgs)
    {
      HandleNewKeepsInv(model, ks, v);
      var doubleUse := Activate(ks);
      return if doubleUse then Panicked(DoubleUse) else Got(ks, v);
    }

    /** Takes a new message: it becomes active if no key of it is in use, and waits otherwise. */
    method HandleNewMsg(ks: seq<Key>, v: Value) returns (got: Got<Value>)
      requires Valid()
      modifies this, states`using, states`waitingmsgs
      ensures got == HandleNew(old(model), ks, v).got
      ensures !got.Panicked? ==> Valid() && model == HandleNew(old(model), ks, v).m
      ensures forall s | s in states :: s in old(states) || fresh(s)
      ensures forall w | w in msgs :: w in old(msgs) || fresh(w)
    {
      var waits := MeetsUsed(ks);
      if waits {
        got := MakeWaiting(ks, v);
      } else {
        got := MakeActive(ks, v);
      }
    }

    method SetUnuseAt(k: Key)
      requires Coherent() && k in keysStates && k in model.held
      modifies this`model, states`using
      ensures Coherent() && model == Unuse(old(model), k)
    {
      assert StateOk(k);
      keysStates[k].SetUnuse();
      model := Unuse(model, k);
      forall g | g in keysStates ensures StateOk(g) {
        assert old(StateOk(g));
        KeepState(g);
      }
      forall id | id in issued ensures IssuedOk(id) {
        assert old(IssuedOk(id));
      }
      forall id | id in model.waiting ensures MsgOk(id) {
        assert old(MsgOk(id));
        KeepMsg(id);
      }
    }

    /** The handles of a waiting message, by key. */
    lemma HandlesOf(id: int)
      requires Coherent() && id in model.waiting
      ensures id in issued && issued[id] in msgs && issued[id].alive && issued[id].ksV.Some?
      ensures var hs, ks := issued[id].ksV.value.0, model.waiting[id].handles;
              |hs| == |ks| && forall i | 0 <= i < |hs| ::
                ks[i] in keysStates && hs[i] == keysStates[ks[i]] && hs[i] in states &&
                hs[i].k == Some(ks[i]) && (hs[i].using <==> ks[i] in model.held)
    {
      assert MsgOk(id) && IssuedOk(id);
      forall k | k in model.waiting[id].handles && k in keysStates ensures StateOk(k) {
      }
    }

    /**
      Handle coherence: two waiting messages that need the same key hold the very same key state,
      it is the one in the key table, and its index upgrades both ids to these messages.
     */
    lemma OneStatePerKey(a: int, b: int, i: nat, j: nat)
      requires Valid() && a in waitingmsgs && b in waitingmsgs
      requires waitingmsgs[a].ksV.Some? && i < |waitingmsgs[a].ksV.value.0|
      requires waitingmsgs[b].ksV.Some? && j < |waitingmsgs[b].ksV.value.0|
      requires waitingmsgs[a].ksV.value.0[i].k == waitingmsgs[b].ksV.value.0[j].k
      ensures var s := waitingmsgs[a].ksV.value.0[i];
              && s == waitingmsgs[b].ksV.value.0[j]
              && s.k.Some? && s.k.value in keysStates && keysStates[s.k.value] == s
              && a in s.waitingmsgs && s.waitingmsgs[a] == waitingmsgs[a] && waitingmsgs[a].alive
              && b in s.waitingmsgs && s.waitingmsgs[b] == waitingmsgs[b] && waitingmsgs[b].alive
    {
      HandlesOf(a);
      HandlesOf(b);
      var k := model.waiting[a].handles[i];
      assert WaitsFor(model, a, k) && WaitsFor(model, b, k);
      assert StateOk(k);
    }

    /** A message is ready exactly when the model calls it free. */
    lemma ReadyIsFree(id: int)
      requires Coherent() && id in model.waiting
      ensures id in issued && issued[id].ksV.Some?
      ensures Free(model, id) <==> forall h | h in issued[id].ksV.value.0 :: h in states && !h.using
    {
      HandlesOf(id);
    }

    /** Handles repeat as their keys do. */
    lemma RepeatsByKey(id: int, k: Key)
      requires Coherent() && id in model.waiting && k in keysStates
      ensures id in issued && issued[id].ksV.Some?
      ensures RepeatsOther(issued[id].ksV.value.0, keysStates[k]) <==> RepeatsOther(model.waiting[id].handles, k)
    {
      HandlesOf(id);
      assert StateOk(k);
      var hs, ks := issued[id].ksV.value.0, model.waiting[id].handles;
      forall i | 0 <= i < |hs| ensures hs[i] == keysStates[k] <==> ks[i] == k {
      }
      forall i, j | 0 <= i < j < |hs| ensures hs[i] == hs[j] <==> ks[i] == ks[j] {
      }
    }

    /** What the search does to the objects of a found message is what `Claim` says. */
    twostate lemma ClaimCoherent(new k: Key, new id: int)
      requires old(Coherent())
      requires k in old(keysStates)
      requires id in old(model.waiting)
      requires id in old(issued)
      requires old(issued[id].ksV.Some?)
      requires keysStates == old(keysStates) && issued == old(issued) && msgs == old(msgs) && states == old(states)
      requires nextWaitingmsgId == old(nextWaitingmsgId) && model == Claim(old(model), k, id)
      requires forall w | w in msgs :: unchanged(w)
      requires keysStates[k].waitingmsgs == old(keysStates[k].waitingmsgs) - {id}
      requires forall s | s in states && s != keysStates[k] :: s.waitingmsgs == old(s.waitingmsgs)
      requires forall s | s in states ::
                 s.using == (old(s.using) || s in old(issued[id].ksV.value.0) || s == keysStates[k])
      requires forall g | g in keysStates ::
                 keysStates[g] in old(issued[id].ksV.value.0) <==> g in old(model.waiting[id].handles)
      ensures Coherent()
    {
      assert old(StateOk(k));
      assert old(MsgOk(id));
      forall g | g in keysStates ensures StateOk(g) {
        assert old(StateOk(g));
        if g != k { KeepState(g); }
      }
      forall i | i in issued ensures IssuedOk(i) {
        assert old(IssuedOk(i));
      }
      forall i | i in model.waiting ensures MsgOk(i) {
        assert old(MsgOk(i));
        KeepMsg(i);
      }
    }

    /** A state is among a message's handles exactly when its key is among the message's keys. */
    lemma HandleByKey(id: int, g: Key)
      requires Coherent() && id in model.waiting && g in keysStates
      ensures id in issued && issued[id].ksV.Some?
      ensures keysStates[g] in issued[id].ksV.value.0 <==> g in model.waiting[id].handles
    {
      HandlesOf(id);
      assert StateOk(g);
      var hs, ks := issued[id].ksV.value.0, model.waiting[id].handles;
      if keysStates[g] in hs {
        var i :| 0 <= i < |hs| && hs[i] == keysStates[g];
        assert ks[i] == g;
      }
      if g in ks {
        var i :| 0 <= i < |ks| && ks[i] == g;
        assert hs[i] == keysStates[g];
      }
    }

    /** What the search needs to know of the waiting messages. */
    lemma WaitingAreWhole()
      requires Coherent()
      ensures forall id | id in issued :: IssuedOk(id)
      ensures forall id | id in model.waiting ::
                && id in issued && issued[id].ksV.Some?
                && forall h | h in issued[id].ksV.value.0 :: h in states
    {
      forall id | id in model.waiting
        ensures id in issued && issued[id].ksV.Some? && forall h | h in issued[id].ksV.value.0 :: h in states
      {
        HandlesOf(id);
      }
    }

    lemma ReadyAreFree()
      requires Coherent()
      ensures forall id | id in model.waiting ::
                && id in issued && issued[id].ksV.Some?
                && (Free(model, id) <==> forall h | h in issued[id].ksV.value.0 :: h in states && !h.using)
    {
      forall id | id in model.waiting
        ensures id in issued && issued[id].ksV.Some?
        ensures Free(model, id) <==> forall h | h in issued[id].ksV.value.0 :: h in states && !h.using
      {
        ReadyIsFree(id);
      }
    }

    lemma AllHandlesByKey()
      requires Coherent()
      ensures forall id | id in model.waiting :: id in issued && issued[id].ksV.Some?
      ensures forall id, g | id in model.waiting && g in keysStates ::
                keysStates[g] in issued[id].ksV.value.0 <==> g in model.waiting[id].handles
    {
      forall id | id in model.waiting ensures id in issued && issued[id].ksV.Some? {
        HandlesOf(id);
      }
      forall id, g | id in model.waiting && g in keysStates
        ensures keysStates[g] in issued[id].ksV.value.0 <==> g in model.waiting[id].handles
      {
        HandleByKey(id, g);
      }
    }

    lemma AllRepeatsByKey(k: Key)
      requires Coherent() && k in keysStates
      ensures forall id | id in model.waiting ::
                && id in issued && issued[id].ksV.Some?
                && (RepeatsOther(issued[id].ksV.value.0, keysStates[k]) <==> RepeatsOther(model.waiting[id].handles, k))
    {
      forall id | id in model.waiting
        ensures id in issued && issued[id].ksV.Some?
        ensures RepeatsOther(issued[id].ksV.value.0, keysStates[k]) <==> RepeatsOther(model.waiting[id].handles, k)
      {
        RepeatsByKey(id, k);
      }
    }

    /** The search ended without a result and changed nothing. */
    twostate lemma StatesStay()
      requires old(Coherent()) && model == old(model) && nextWaitingmsgId == old(nextWaitingmsgId)
      requires keysStates == old(keysStates) && issued == old(issued) && msgs == old(msgs) && states == old(states)
      requires forall w | w in msgs :: unchanged(w)
      requires forall s | s in states :: s.using == old(s.using) && s.waitingmsgs == old(s.waitingmsgs)
      ensures Coherent()
    {
      forall g | g in keysStates ensures StateOk(g) {
        assert old(StateOk(g));
      }
      forall i | i in issued ensures IssuedOk(i) {
        assert old(IssuedOk(i));
      }
      forall i | i in model.waiting ensures MsgOk(i) {
        assert old(MsgOk(i));
        KeepMsg(i);
      }
    }

    /** The search of `k`'s index, in terms of the model. */
    method Search(k: Key, s: KeyState) returns (c: Choice, doubleUse: bool)
      requires Coherent() && k in keysStates && keysStates[k] == s && k !in model.held
      modifies this`model, states`using, s`waitingmsgs
      ensures CanChoose(old(model), k, c) && (doubleUse ==> c.Found?)
      ensures c.NoneFree? ==> Coherent() && model == old(model)
      ensures c.Found? ==>
                && (doubleUse <==> RepeatsOther(old(model).waiting[c.id].handles, k))
                && (!doubleUse ==> Coherent() && model == Claim(old(model), k, c.id))
    {
      assert StateOk(k);
      WaitingAreWhole();
      c, doubleUse := RawSearch(k, s);
      if c.NoneFree? {
        StatesStay();
      } else if c.Found? && !doubleUse {
        model := Claim(model, k, c.id);
        ClaimCoherent(k, c.id);
      }
    }

    /** The search as the key state does it; what it found is then recorded by `Search`. */
    method RawSearch(k: Key, s: KeyState) returns (c: Choice, doubleUse: bool)
      requires Coherent() && k in keysStates && keysStates[k] == s && k !in model.held
      modifies states`using, s`waitingmsgs
      ensures CanChoose(model, k, c) && (doubleUse ==> c.Found?)
      ensures c.NoneFree? ==> forall h | h in states :: h.using == old(h.using) && h.waitingmsgs == old(h.waitingmsgs)
      ensures c.Found? ==>
                && c.id in issued && issued[c.id].ksV.Some?
                && var hs := issued[c.id].ksV.value.0;
                && (doubleUse <==> RepeatsOther(model.waiting[c.id].handles, k))
                && (forall g | g in keysStates :: keysStates[g] in hs <==> g in model.waiting[c.id].handles)
                && (!doubleUse ==>
                      && s.waitingmsgs == old(s.waitingmsgs) - {c.id}
                      && forall h | h in states :: h.using == (old(h.using) || h in hs || h == s))
    {
      assert StateOk(k);
      WaitingAreWhole();
      ReadyAreFree();
      AllHandlesByKey();
      AllRepeatsByKey(k);
      c, doubleUse := s.TryGetStopWaitingMsg(states);
    }

    /** Takes the found message out of the table and hands it out; its last strong reference goes away. */
    method TakeOut(id: int) returns (ks: seq<Key>, v: Value)
      requires Coherent() && Tabled() && id in model.waiting
      modifies this`waitingmsgs, this`model, msgs`ksV, msgs`alive
      ensures Coherent() && Tabled() && model == Depart(old(model), id)
      ensures ks == Reversed(old(model).waiting[id].handles) && v == old(model).waiting[id].v
    {
      HandlesOf(id);
      assert MsgOk(id);
      var msg := waitingmsgs[id];
      waitingmsgs := waitingmsgs - {id};
      assert Names(msg.ksV.value.0) == model.waiting[id].handles;
      ks, v := msg.TakeKv();
      msg.alive := false;
      model := Depart(model, id);
      forall g | g in keysStates ensures StateOk(g) {
        assert old(StateOk(g));
        KeepState(g);
      }
      forall i | i in issued ensures IssuedOk(i) {
        assert old(IssuedOk(i)) && old(IssuedOk(id));
      }
      forall i | i in model.waiting ensures MsgOk(i) {
        assert old(MsgOk(i)) && old(IssuedOk(i)) && old(IssuedOk(id));
        KeepMsg(i);
      }
    }

    /** `keys_states.remove(&k)` once no message holds the key and no index entry is left. */
    method RemoveIdle(k: Key, s: KeyState)
      requires Coherent() && k in keysStates && keysStates[k] == s && k !in model.held
      requires forall id | id in model.waiting :: k !in model.waiting[id].handles || Link(k, id) in model.index
      modifies this`keysStates, this`model
      ensures Coherent() && model == Tidy(old(model), k)
    {
      assert StateOk(k);
      if s.waitingmsgs == map[] {
        keysStates := keysStates - {k};
        model := model.(entries := model.entries - {k});
        forall g | g in keysStates ensures StateOk(g) {
          assert old(StateOk(g));
          KeepState(g);
        }
        forall i | i in issued ensures IssuedOk(i) {
          assert old(IssuedOk(i));
        }
        forall i | i in model.waiting ensures MsgOk(i) {
          assert old(MsgOk(i));
          KeepMsg(i);
        }
      } else {
        ghost var id := SomeMember(s.waitingmsgs.Keys);
        assert Link(k, id) in model.index;
      }
    }

    /** What is done with the end of a search that did not panic. */
    method Finish(k: Key, s: KeyState, choice: Choice) returns (got: Got<Value>)
      requires Coherent() && Tabled() && !choice.Dead?
      requires choice.Found? ==> choice.id in model.waiting
      requires choice.NoneFree? ==> k in keysStates && keysStates[k] == s && k !in model.held
      requires forall id | id in model.waiting ::
                 k !in model.waiting[id].handles || choice.Found? || Link(k, id) in model.index
      modifies this`waitingmsgs, this`keysStates, this`model, msgs`ksV, msgs`alive
      ensures Coherent() && Tabled()
      ensures match choice
              case Found(id) =>
                && model == Depart(old(model), id)
                && got == Got(Reversed(old(model).waiting[id].handles), old(model).waiting[id].v)
              case _ => model == Tidy(old(model), k) && got == Nothing
    {
      if choice.Found? {
        var ks, v := TakeOut(choice.id);
        got := Got(ks, v);
      } else {
        RemoveIdle(k, s);
        got := Nothing;
      }
    }

    /** Searches the released key's waiters and acts on what the search ends with. */
    method SettleKey(k: Key, s: KeyState) returns (got: Got<Value>, ghost c: Choice)
      requires Coherent() && Tabled() && Indexed(model)
      requires k in keysStates && keysStates[k] == s && k !in model.held
      modifies this, states`using, s`waitingmsgs, msgs`ksV, msgs`alive
      ensures CanChoose(old(model), k, c) && got == Settle(old(model), k, c).got
      ensures !got.Panicked? ==> Coherent() && Tabled() && model == Settle(old(model), k, c).m
      ensures states == old(states) && msgs == old(msgs)
    {
      assert forall id | WaitsFor(model, id, k) :: Link(k, id) in model.index;
      var choice, doubleUse := Search(k, s);
      c := choice;
      if choice.Dead? {
        got := Panicked(DeadHandle);
      } else if doubleUse {
        got := Panicked(DoubleUse);
      } else {
        got := Finish(k, s, choice);
      }
    }

    /** One turn of the drop-queue loop. */
    method ReleaseKey(k: Key) returns (got: Got<Value>, ghost c: Choice)
      requires Valid()
      modifies this, states`using, states`waitingmsgs, msgs`ksV, msgs`alive
      ensures CanRelease(old(model), k, c) && got == Release(old(model), k, c).got
      ensures !got.Panicked? ==> Valid() && model == Release(old(model), k, c).m
      ensures states == old(states) && msgs == old(msgs)
    {
      if k !in keysStates {
        return Panicked(MissingKey), NoneFree;
      }
      assert StateOk(k);
      if !keysStates[k].using {
        return Panicked(ReleaseUnused), NoneFree;
      }
      var s := keysStates[k];
      SetUnuseAt(k);
      got, c := SettleKey(k, s);
      ReleaseKeepsInv(old(model), k, c);
    }

    /** Where a call stands whose receiver has not handed out anything yet. */
    ghost function Standing(q: SegQueue<Msg<Value>>, dropq: SegQueue<Key>, pc: LoopPc): ManagerCall<Value>
      reads this`model, q, dropq
    {
      Call(q.items, dropq.items, model, pc, Nothing)
    }

    /** Pops one dropped key and releases it; `done` unless the loop goes on. */
    method ReleaseNext(dropq: SegQueue<Key>, ghost q: SegQueue<Msg<Value>>,
                       ghost start: ManagerCall<Value>, ghost before: seq<ManagerMove<Value>>)
      returns (done: bool, got: Got<Value>, ghost ms: seq<ManagerMove<Value>>)
      requires dropq as object != q
      requires Valid() && CallLeads(start, before, Standing(q, dropq, PopDrop))
      modifies this, states`using, states`waitingmsgs, msgs`ksV, msgs`alive, dropq
      ensures states == old(states) && msgs == old(msgs) && (!got.Panicked? ==> Valid())
      ensures !done ==> got.Nothing? && |dropq.items| < |old(dropq.items)|
      ensures !done ==> CallLeads(start, ms, Standing(q, dropq, PopDrop))
      ensures done && got.Nothing? ==> dropq.items == [] && CallLeads(start, ms, Standing(q, dropq, PopQ))
      ensures done && got.Got? ==> CallLeads(start, ms, Standing(q, dropq, PopDrop).(got := got))
      ensures done ==> |dropq.items| <= |old(dropq.items)| && LeadsTo(Takes, Nothing, start, ms, got)
    {
      ghost var c := Standing(q, dropq, PopDrop);
      var k := dropq.Pop();
      if k.None? {
        OneMoreMove(Takes, Nothing, start, before, c, FoundEmpty, Standing(q, dropq, PopQ));
        return true, Nothing, before + [FoundEmpty];
      }
      ghost var choice;
      got, choice := ReleaseKey(k.value);
      ghost var o := DoTurn(Recv(c.q, c.dropq, c.m), DropTurn(choice));
      OneMoreMove(Takes, Nothing, start, before, c,
                  Take(DropTurn(choice)), Call(o.r.q, o.r.dropq, o.r.m, PopDrop, o.got));
      done, ms := !got.Nothing?, before + [Take(DropTurn(choice))];
    }

    /**
      Releases dropped keys until one frees a message or none is left, while other threads push;
      `start` and `before` record what has happened in the call so far.
     */
    method UnuseAllDropedKey(dropq: SegQueue<Key>, q: SegQueue<Msg<Value>>, room: nat,
                             ghost start: ManagerCall<Value>, ghost before: seq<ManagerMove<Value>>)
      returns (got: Got<Value>, left: nat, ghost ms: seq<ManagerMove<Value>>)
      requires dropq as object != q
      requires Valid() && CallLeads(start, before, Standing(q, dropq, PopDrop))
      modifies this, states`using, states`waitingmsgs, msgs`ksV, msgs`alive, dropq, q
      ensures states == old(states) && msgs == old(msgs) && (!got.Panicked? ==> Valid())
      ensures LeadsTo(Takes, Nothing, start, ms, got)
      ensures got.Nothing? ==> dropq.items == [] && CallLeads(start, ms, Standing(q, dropq, PopQ))
      ensures got.Got? ==> CallLeads(start, ms, Standing(q, dropq, PopDrop).(got := got))
      ensures |q.items| + |dropq.items| + 2 * left <= old(|q.items| + |dropq.items|) + 2 * room
    {
      ms, left := before, room;
      while true
        invariant Valid() && states == old(states) && msgs == old(msgs)
        invariant CallLeads(start, ms, Standing(q, dropq, PopDrop))
        invariant |q.items| + |dropq.items| + 2 * left <= old(|q.items| + |dropq.items|) + 2 * room
        decreases |q.items| + |dropq.items| + 2 * left
      {
        left, ms := OthersPush(q, dropq, left, Takes, Nothing, start, ms, Standing(q, dropq, PopDrop));
        var done;
        done, got, ms := ReleaseNext(dropq, q, start, ms);
        if done {
          return;
        }
      }
    }
  }

  function Attached(m: Manager<Value>, id: int, k: Key): Manager<Value>
    requires id in m.waiting
  {
    m.(entries := m.entries + {k},
       index := m.index + {Link(k, id)},
       waiting := m.waiting[id := Parked(m.waiting[id].handles + [k], m.waiting[id].v)])
  }

  /** The first `n` handles of `hs` attached one by one. */
  ghost function AttachedUpTo(m: Manager<Value>, id: int, hs: seq<Key>, n: nat): (r: Manager<Value>)
    requires id in m.waiting && n <= |hs|
    ensures id in r.waiting
  {
    if n == 0 then m else Attached(AttachedUpTo(m, id, hs, n - 1), id, hs[n - 1])
  }

  /** Attaching the handles one by one to an empty message is what `Park` describes at once. */
  lemma {:induction false} AttachedUpToIsPark(m: Manager<Value>, hs: seq<Key>, v: Value, n: nat)
    requires n <= |hs|
    ensures AttachedUpTo(Park(m, [], v), m.next, hs, n) == Park(m, hs[..n], v)
  {
    if n == 0 {
      assert hs[..0] == [];
    } else {
      AttachedUpToIsPark(m, hs, v, n - 1);
      ParkOneMore(m, hs, v, n - 1);
    }
  }

  lemma ParkOneMore(m: Manager<Value>, hs: seq<Key>, v: Value, i: nat)
    requires i < |hs|
    ensures Attached(Park(m, hs[..i], v), m.next, hs[i]) == Park(m, hs[..i + 1], v)
  {
    assert hs[..i + 1] == hs[..i] + [hs[i]];
    assert Links(hs[..i + 1], m.next) == Links(hs[..i], m.next) + {Link(hs[i], m.next)};
  }

  lemma OccupyOneMore(m: Manager<Value>, ks: seq<Key>, i: nat)
    requires i < |ks| && !Meets(m.held, ks) && Distinct(ks[..i])
    ensures Occupy(Occupy(m, ks[..i]), [ks[i]]) == Occupy(m, ks[..i + 1])
    ensures ks[i] in Occupy(m, ks[..i]).held <==> ks[i] in ks[..i]
    ensures ks[i] in ks[..i] ==> !Distinct(ks)
    ensures ks[i] !in ks[..i] ==> Distinct(ks[..i + 1])
  {
    assert ks[..i + 1] == ks[..i] + [ks[i]];
    assert ks[i] in ks && ks[i] !in m.held;
  }
}
