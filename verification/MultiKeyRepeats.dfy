/**
  A message that repeats a key breaks exclusion without any panic. Having waited, it is found
  through that key, which is then marked once; dropped, it gives the key back twice, and each
  time the key is released another message gets it.
 */
module MultiKeyRepeats {
  import opened Util
  import opened Keys
  import opened ConflictSpec
  import opened ReceiverSpec
  import opened MultiKeySystem
  import opened MultiKeyTheorems
  import Runs

  function Sends(a: Key, v: Value): seq<Msg<Value>> {
    [Msg([a], v), Msg([a, a], v), Msg([a], v), Msg([a], v)]
  }

  function Wait(a: Key): map<int, Parked<nat>> {
    map[0 := Parked([a, a], 1), 1 := Parked([a], 2), 2 := Parked([a], 3)]
  }

  /** All four are sent. */
  function Sent(a: Key, v: Value): Sys {
    Sys(Sends(a, v), [InQueue, InQueue, InQueue, InQueue],
        Recv([Msg([a], 0), Msg([a, a], 1), Msg([a], 2), Msg([a], 3)], [], Empty()), map[], [], {}, None)
  }

  /** The first is handed out. */
  function FirstOut(a: Key, v: Value): Sys {
    Sys(Sends(a, v), [Delivered(0), InQueue, InQueue, InQueue],
        Recv([Msg([a, a], 1), Msg([a], 2), Msg([a], 3)], [], Manager({a}, {a}, {}, map[], 0)),
        map[0 := [a]], [Msg([a], 0)], {}, None)
  }

  function OneWaits(a: Key, v: Value): Sys {
    FirstOut(a, v).(place := [Delivered(0), Waiting(0), InQueue, InQueue],
                    r := Recv([Msg([a], 2), Msg([a], 3)], [],
                              Manager({a}, {a}, {Link(a, 0)}, map[0 := Parked([a, a], 1)], 1)))
  }

  function TwoWait(a: Key, v: Value): Sys {
    FirstOut(a, v).(place := [Delivered(0), Waiting(0), Waiting(1), InQueue],
                    r := Recv([Msg([a], 3)], [],
                              Manager({a}, {a}, {Link(a, 0), Link(a, 1)},
                                      map[0 := Parked([a, a], 1), 1 := Parked([a], 2)], 2)))
  }

  /** The other three wait for the key. */
  function ThreeWait(a: Key, v: Value): Sys {
    FirstOut(a, v).(place := [Delivered(0), Waiting(0), Waiting(1), Waiting(2)],
                    r := Recv([], [], Manager({a}, {a}, {Link(a, 0), Link(a, 1), Link(a, 2)}, Wait(a), 3)))
  }

  lemma SendAll(a: Key, v: Value) returns (run: seq<Sys>)
    ensures Runs.Run(Init, Step, run) && run[|run| - 1] == Sent(a, v)
  {
    run := [Sys([], [], Recv([], [], Empty()), map[], [], {}, None)];
    run := OneMore(run, Send(Msg([a], v)));
    run := OneMore(run, Send(Msg([a, a], v)));
    run := OneMore(run, Send(Msg([a], v)));
    run := OneMore(run, Send(Msg([a], v)));
  }

  lemma TakeFirst(a: Key, v: Value)
    ensures CanDo(Sent(a, v), Receive(NewTurn)) && Do(Sent(a, v), Receive(NewTurn)) == FirstOut(a, v)
  {
    var m := Occupy<nat>(Empty(), [a]);
    assert m == Manager({a}, {a}, {}, map[], 0);
  }

  lemma TakeSecond(a: Key, v: Value)
    ensures CanDo(FirstOut(a, v), Receive(NewTurn)) && Do(FirstOut(a, v), Receive(NewTurn)) == OneWaits(a, v)
  {
    ReversedIs([a, a], [a, a]);
    assert a in [a, a];
    var m := Park(FirstOut(a, v).r.m, [a, a], 1);
    assert m == OneWaits(a, v).r.m;
  }

  lemma TakeThird(a: Key, v: Value)
    ensures CanDo(OneWaits(a, v), Receive(NewTurn)) && Do(OneWaits(a, v), Receive(NewTurn)) == TwoWait(a, v)
  {
    ReversedIs([a], [a]);
    assert a in [a];
    var m := Park(OneWaits(a, v).r.m, [a], 2);
    assert m == TwoWait(a, v).r.m;
  }

  lemma TakeFourth(a: Key, v: Value)
    ensures CanDo(TwoWait(a, v), Receive(NewTurn)) && Do(TwoWait(a, v), Receive(NewTurn)) == ThreeWait(a, v)
  {
    ReversedIs([a], [a]);
    assert a in [a];
    var m := Park(TwoWait(a, v).r.m, [a], 3);
    assert m == ThreeWait(a, v).r.m;
  }

  lemma TakeAll(a: Key, v: Value) returns (run: seq<Sys>)
    ensures Runs.Run(Init, Step, run) && run[|run| - 1] == ThreeWait(a, v)
  {
    run := SendAll(a, v);
    TakeFirst(a, v);
    run := OneMore(run, Receive(NewTurn));
    TakeSecond(a, v);
    run := OneMore(run, Receive(NewTurn));
    TakeThird(a, v);
    run := OneMore(run, Receive(NewTurn));
    TakeFourth(a, v);
    run := OneMore(run, Receive(NewTurn));
  }

  /** The first message has given its key back. */
  function FirstBack(a: Key, v: Value): Sys {
    ThreeWait(a, v).(out := map[0 := []], r := ThreeWait(a, v).r.(dropq := [a]))
  }

  /** The message that repeats the key is out in its place. */
  function SecondOut(a: Key, v: Value, out: seq<Key>, dropq: seq<Key>): Sys {
    Sys(Sends(a, v), [Delivered(0), Delivered(1), Waiting(1), Waiting(2)],
        Recv([], dropq, Manager({a}, {a}, {Link(a, 1), Link(a, 2)}, Wait(a) - {0}, 3)),
        map[0 := [], 1 := out], [Msg([a], 0), Msg([a, a], 1)], {}, None)
  }

  lemma FreeSecond(a: Key, v: Value)
    ensures var s, e := FirstBack(a, v), Receive(DropTurn(Found(0)));
            CanDo(s, e) && Do(s, e) == SecondOut(a, v, [a, a], [])
  {
    var s := FirstBack(a, v);
    ReversedIs([a, a], [a, a]);
    assert CanChoose(Unuse(s.r.m, a), a, Found(0));
    assert !RepeatsOther([a, a], a);
    assert Depart(Claim(Unuse(s.r.m, a), a, 0), 0) == SecondOut(a, v, [a, a], []).r.m;
    assert a in [a, a];
    assert LeftBehind(s.r.m, a, 0) == {};
  }

  /** The third message gets the key when it is released for the first time, the fourth for the second. */
  function ThirdOut(a: Key, v: Value): Sys {
    Sys(Sends(a, v), [Delivered(0), Delivered(1), Delivered(2), Waiting(2)],
        Recv([], [a], Manager({a}, {a}, {Link(a, 2)}, Wait(a) - {0} - {1}, 3)),
        map[0 := [], 1 := [], 2 := [a]], [Msg([a], 0), Msg([a, a], 1), Msg([a], 2)], {}, None)
  }

  lemma FreeThird(a: Key, v: Value)
    ensures var s, e := SecondOut(a, v, [], [a, a]), Receive(DropTurn(Found(1)));
            CanDo(s, e) && Do(s, e) == ThirdOut(a, v)
  {
    var s := SecondOut(a, v, [], [a, a]);
    ReversedIs([a], [a]);
    assert CanChoose(Unuse(s.r.m, a), a, Found(1));
    assert Depart(Claim(Unuse(s.r.m, a), a, 1), 1) == ThirdOut(a, v).r.m;
    assert a in [a];
    assert LeftBehind(s.r.m, a, 1) == {};
  }

  lemma FreeFourth(a: Key, v: Value)
    ensures var s, e := ThirdOut(a, v), Receive(DropTurn(Found(2)));
            && CanDo(s, e) && Do(s, e).panic.None?
            && Do(s, e).out == map[0 := [], 1 := [], 2 := [a], 3 := [a]]
  {
    var s := ThirdOut(a, v);
    ReversedIs([a], [a]);
    assert CanChoose(Unuse(s.r.m, a), a, Found(2));
  }

  lemma GiveBackTwice(ss: seq<Sys>, a: Key, v: Value) returns (run: seq<Sys>)
    requires Runs.Run(Init, Step, ss) && ss[|ss| - 1] == SecondOut(a, v, [a, a], [])
    ensures Runs.Run(Init, Step, run) && run[|run| - 1] == SecondOut(a, v, [], [a, a])
  {
    assert [a, a][..1] == [a];
    run := OneMore(ss, DropKey(1));
    assert run[|run| - 1] == SecondOut(a, v, [a], [a]);
    run := OneMore(run, DropKey(1));
  }

  /** Two living messages hold the one key, and nothing has panicked. */
  lemma RepeatedKeyBreaksExclusion(a: Key, v: Value) returns (run: seq<Sys>)
    ensures Runs.Run(Init, Step, run)
    ensures var s := run[|run| - 1];
            && s.panic.None? && s.out == map[0 := [], 1 := [], 2 := [a], 3 := [a]] && !Exclusive(s)
  {
    run := TakeAll(a, v);
    run := OneMore(run, DropKey(0));
    assert run[|run| - 1] == FirstBack(a, v);
    FreeSecond(a, v);
    run := OneMore(run, Receive(DropTurn(Found(0))));
    run := GiveBackTwice(run, a, v);
    FreeThird(a, v);
    run := OneMore(run, Receive(DropTurn(Found(1))));
    FreeFourth(a, v);
    run := OneMore(run, Receive(DropTurn(Found(2))));
    var s := run[|run| - 1];
    assert a in SetOf(s.out[2]) && a in SetOf(s.out[3]);
  }
}
