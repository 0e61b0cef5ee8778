/**
  The conflict manager of the multi-key channel as a mathematical object: what
  handling a new message and releasing a dropped key compute, which panics they
  can raise, and the invariant that both keep.
 */
module ConflictSpec {
  import opened Util
  import opened Keys

  /** Waiting ids are `i32`; the increment of this value is the overflow. */
  const I32_MAX: int := 0x7FFF_FFFF

  /** The panics that depend on the input or the history (the others are proved unreachable on the objects). */
  datatype Panic =
    | DeadHandle      // the search meets a waiting message that no longer exists
    | DoubleUse       // a key is set in use twice
    | ReleaseUnused   // a key that is not in use is released
    | MissingKey      // a key without an entry is released
    | IdOverflow      // the next waiting id does not fit

  /** A waiting message: its key handles, last key first, and its value. */
  datatype Parked<V> = Parked(handles: seq<Key>, v: V)

  /** Key `k`'s reverse index lists waiting id `id`. */
  datatype Link = Link(k: Key, id: int)

  datatype Manager<V> = Manager(
    entries: set<Key>,              // the keys of the key table
    held: set<Key>,                 // those whose state is in use
    index: set<Link>,               // the reverse indices of all key states
    waiting: map<int, Parked<V>>,   // the waiting table
    next: int)                      // the next waiting id

  /** What one call hands back to the receiver. */
  datatype Got<V> = Got(ks: seq<Key>, v: V) | Nothing | Panicked(why: Panic)

  datatype Result<V> = Result(m: Manager<V>, got: Got<V>)

  /** What the search over a released key's waiters, in an arbitrary order, ends with. */
  datatype Choice = Found(id: int) | Dead(id: int) | NoneFree

  function Empty<V>(): Manager<V> {
    Manager({}, {}, {}, map[], 0)
  }

  /** `ks` shares a key with `held`. */
  predicate Meets(held: set<Key>, ks: seq<Key>) {
    exists k | k in ks :: k in held
  }

  function Links(ks: seq<Key>, id: int): set<Link> {
    set k | k in ks :: Link(k, id)
  }

  // ---------------------------------------------------------------- a new message

  /** Enter a message with handles `hs` as waiting id `m.next`: every key gets the id in its index. */
  function Park<V>(m: Manager<V>, hs: seq<Key>, v: V): Manager<V> {
    m.(entries := m.entries + SetOf(hs),
       index := m.index + Links(hs, m.next),
       waiting := m.waiting[m.next := Parked(hs, v)],
       next := m.next + 1)
  }

  /** Mark all of `ks` in use. */
  function Occupy<V>(m: Manager<V>, ks: seq<Key>): Manager<V> {
    m.(entries := m.entries + SetOf(ks), held := m.held + SetOf(ks))
  }

  function HandleNew<V>(m: Manager<V>, ks: seq<Key>, v: V): Result<V> {
    if Meets(m.held, ks) then
      if m.next == I32_MAX then Result(m, Panicked(IdOverflow))
      else Result(Park(m, Reversed(ks), v), Nothing)
    else if !Distinct(ks) then Result(m, Panicked(DoubleUse))
    else Result(Occupy(m, ks), Got(ks, v))
  }

  // ---------------------------------------------------------------- a released key

  function Unuse<V>(m: Manager<V>, k: Key): Manager<V> {
    m.(held := m.held - {k})
  }

  /** None of the waiting message's keys is in use. */
  predicate Free<V>(m: Manager<V>, id: int)
    requires id in m.waiting
  {
    !Meets(m.held, m.waiting[id].handles)
  }

  /** An element other than `x` occurs twice. */
  predicate RepeatsOther<T(==)>(s: seq<T>, x: T) {
    exists i, j :: 0 <= i < j < |s| && s[i] == s[j] && s[i] != x
  }

  /** The search over `k`'s index (after `k` stopped being in use) may end with `c`. */
  ghost predicate CanChoose<V>(m: Manager<V>, k: Key, c: Choice) {
    match c
    case Found(id) => Link(k, id) in m.index && id in m.waiting && Free(m, id)
    case Dead(id) => Link(k, id) in m.index && id !in m.waiting
    case NoneFree => forall id | Link(k, id) in m.index :: id in m.waiting && !Free(m, id)
  }

  /** The search itself, over the waiters in the order in which a hash map happens to yield them. */
  function Scan<V>(m: Manager<V>, order: seq<int>): Choice {
    if order == [] then NoneFree
    else if order[0] !in m.waiting then Dead(order[0])
    else if Free(m, order[0]) then Found(order[0])
    else Scan(m, order[1..])
  }

  /** `order` lists `k`'s index, each id once. */
  ghost predicate Enumerates<V>(order: seq<int>, m: Manager<V>, k: Key) {
    Distinct(order) && forall id :: id in order <==> Link(k, id) in m.index
  }

  /** The possible ends of a search are exactly the results of scanning the index in some order. */
  lemma ScansAreChoices<V>(m: Manager<V>, k: Key, c: Choice)
    ensures CanChoose(m, k, c) <==> exists order :: Enumerates(order, m, k) && Scan(m, order) == c
  {
    if CanChoose(m, k, c) {
      var order := ScanWith(m, k, c);
    }
    forall order | Enumerates(order, m, k) ensures CanChoose(m, k, Scan(m, order)) {
      ScanStops(m, order);
      assert forall id | Link(k, id) in m.index :: id in order;
    }
  }

  /** A scan ends at an element, or it saw only blocked messages. */
  lemma {:induction false} ScanStops<V>(m: Manager<V>, order: seq<int>)
    ensures match Scan(m, order)
            case Dead(id) => id in order && id !in m.waiting
            case Found(id) => id in order && id in m.waiting && Free(m, id)
            case NoneFree => forall id | id in order :: id in m.waiting && !Free(m, id)
  {
    if order == [] || order[0] !in m.waiting || Free(m, order[0]) {
    } else {
      ScanStops(m, order[1..]);
      assert forall id | id in order :: id == order[0] || id in order[1..];
    }
  }

  lemma ScanWith<V>(m: Manager<V>, k: Key, c: Choice) returns (order: seq<int>)
    requires CanChoose(m, k, c)
    ensures Enumerates(order, m, k) && Scan(m, order) == c
  {
    var ids := set l | l in m.index && l.k == k :: l.id;
    forall id ensures id in ids <==> Link(k, id) in m.index {
      if Link(k, id) in m.index { assert Link(k, id).id == id; }
    }
    if c.NoneFree? {
      order := SomeOrder(ids);
      ScanStops(m, order);
      assert forall id | id in order :: Link(k, id) in m.index;
    } else {
      var rest := SomeOrder(ids - {c.id});
      order := [c.id] + rest;
    }
  }

  /** The found message's keys become in use and `k`'s index, but no other one, forgets it. */
  function Claim<V>(m: Manager<V>, k: Key, id: int): Manager<V>
    requires id in m.waiting
  {
    m.(held := m.held + SetOf(m.waiting[id].handles) + {k}, index := m.index - {Link(k, id)})
  }

  /** The waiting table drops the message. */
  function Depart<V>(m: Manager<V>, id: int): Manager<V> {
    m.(waiting := m.waiting - {id})
  }

  /** A key that nobody holds and that no index lists loses its entry. */
  ghost function Tidy<V>(m: Manager<V>, k: Key): Manager<V> {
    if exists id :: Link(k, id) in m.index then m else m.(entries := m.entries - {k})
  }

  ghost function Settle<V>(m: Manager<V>, k: Key, c: Choice): Result<V>
    requires CanChoose(m, k, c)
  {
    match c
    case Dead(_) => Result(m, Panicked(DeadHandle))
    case Found(id) =>
      var msg := m.waiting[id];
      if RepeatsOther(msg.handles, k) then Result(m, Panicked(DoubleUse))
      else Result(Depart(Claim(m, k, id), id), Got(Reversed(msg.handles), msg.v))
    case NoneFree => Result(Tidy(m, k), Nothing)
  }

  ghost predicate CanRelease<V>(m: Manager<V>, k: Key, c: Choice) {
    k in m.entries && k in m.held ==> CanChoose(Unuse(m, k), k, c)
  }

  /** One turn of the drop-queue loop. */
  ghost function Release<V>(m: Manager<V>, k: Key, c: Choice): Result<V>
    requires CanRelease(m, k, c)
  {
    if k !in m.entries then Result(m, Panicked(MissingKey))
    else if k !in m.held then Result(m, Panicked(ReleaseUnused))
    else Settle(Unuse(m, k), k, c)
  }

  // ---------------------------------------------------------------- invariant

  /** Waiting message `id` needs key `k`. */
  predicate WaitsFor<V>(m: Manager<V>, id: int, k: Key) {
    id in m.waiting && k in m.waiting[id].handles
  }

  /** Table and index agree on live messages; an index may also list ids of departed ones. */
  ghost predicate Indexed<V>(m: Manager<V>) {
    && 0 <= m.next <= I32_MAX
    && (forall id | id in m.waiting :: 0 <= id < m.next)
    && (forall id, k | WaitsFor(m, id, k) :: Link(k, id) in m.index)
    && (forall l | l in m.index :: l.k in m.entries && 0 <= l.id < m.next)
    && (forall l | l in m.index && l.id in m.waiting :: WaitsFor(m, l.id, l.k))
  }

  /** No waiting message is stranded: each one waits for a key that is in use. */
  ghost predicate NoStranded<V>(m: Manager<V>) {
    forall id | id in m.waiting :: !Free(m, id)
  }

  /** Entries are the keys in use and the keys some index lists for a waiter, departed or not. */
  ghost predicate NoIdleEntry<V>(m: Manager<V>) {
    && m.held <= m.entries
    && forall k | k in m.entries :: k in m.held || exists id :: Link(k, id) in m.index
  }

  ghost predicate Inv<V>(m: Manager<V>) {
    Indexed(m) && NoStranded(m) && NoIdleEntry(m)
  }

  /** Every listed id is the id of a message still waiting. */
  ghost predicate NoDead<V>(m: Manager<V>) {
    forall l | l in m.index :: l.id in m.waiting
  }

  /** Handling a new message keeps the invariant. */
  lemma HandleNewKeepsInv<V>(m: Manager<V>, ks: seq<Key>, v: V)
    requires Inv(m)
    ensures Inv(HandleNew(m, ks, v).m)
    ensures NoDead(m) ==> NoDead(HandleNew(m, ks, v).m)
  {
    if Meets(m.held, ks) {
      if m.next < I32_MAX {
        ParkKeepsInv(m, ks, v);
      }
    } else {
      OccupyKeepsInv(m, ks);
    }
  }

  lemma ParkKeepsInv<V>(m: Manager<V>, ks: seq<Key>, v: V)
    requires Inv(m) && Meets(m.held, ks) && m.next < I32_MAX
    ensures Inv(Park(m, Reversed(ks), v))
    ensures NoDead(m) ==> NoDead(Park(m, Reversed(ks), v))
  {
    ReversedMembers(ks);
    var r := Park(m, Reversed(ks), v);
    forall id, k | WaitsFor(r, id, k) ensures Link(k, id) in r.index {
      assert id == m.next || WaitsFor(m, id, k);
    }
    forall id | id in r.waiting ensures !Free(r, id) {
      var k :| k in (if id == m.next then ks else m.waiting[id].handles) && k in m.held;
      assert k in r.waiting[id].handles;
    }
    forall k | k in r.entries ensures k in r.held || exists id :: Link(k, id) in r.index {
      if k in Reversed(ks) {
        assert Link(k, m.next) in r.index;
      } else if k !in m.held {
        var id :| Link(k, id) in m.index;
        assert Link(k, id) in r.index;
      }
    }
  }

  lemma OccupyKeepsInv<V>(m: Manager<V>, ks: seq<Key>)
    requires Inv(m)
    ensures Inv(Occupy(m, ks))
    ensures NoDead(m) ==> NoDead(Occupy(m, ks))
  {
    var r := Occupy(m, ks);
    forall id, k | WaitsFor(r, id, k) ensures Link(k, id) in r.index {
      assert WaitsFor(m, id, k);
    }
    forall l | l in r.index && l.id in r.waiting ensures WaitsFor(r, l.id, l.k) {
      assert WaitsFor(m, l.id, l.k);
    }
    forall id | id in r.waiting ensures !Free(r, id) {
      assert !Free(m, id);
    }
    forall k | k in r.entries ensures k in r.held || exists id :: Link(k, id) in r.index {
    }
  }

  /** One turn of the drop loop keeps the invariant: a search of the released key's own waiters strands nobody. */
  lemma ReleaseKeepsInv<V>(m: Manager<V>, k: Key, c: Choice)
    requires Inv(m) && CanRelease(m, k, c)
    ensures !Release(m, k, c).got.Panicked? ==> Inv(Release(m, k, c).m)
  {
    if !Release(m, k, c).got.Panicked? {
      match c
      case Found(id) => FoundKeepsInv(m, k, id);
      case NoneFree => NoneFreeKeepsInv(m, k);
    }
  }

  lemma FoundKeepsInv<V>(m: Manager<V>, k: Key, id: int)
    requires Inv(m) && k in m.held && id in m.waiting && Link(k, id) in m.index
    ensures Inv(Depart(Claim(Unuse(m, k), k, id), id))
  {
    var r := Depart(Claim(Unuse(m, k), k, id), id);
    forall i, g | WaitsFor(r, i, g) ensures Link(g, i) in r.index {
      assert WaitsFor(m, i, g);
    }
    forall l | l in r.index && l.id in r.waiting ensures WaitsFor(r, l.id, l.k) {
      assert WaitsFor(m, l.id, l.k);
    }
    forall i | i in r.waiting ensures !Free(r, i) {
      assert !Free(m, i);
    }
    forall h | h in m.waiting[id].handles ensures h in m.entries {
      assert WaitsFor(m, id, h) && Link(h, id) in m.index;
    }
    forall g | g in r.entries ensures g in r.held || exists i :: Link(g, i) in r.index {
      if g !in m.held {
        var i :| Link(g, i) in m.index;
        assert Link(g, i) in r.index;
      }
    }
  }

  lemma NoneFreeKeepsInv<V>(m: Manager<V>, k: Key)
    requires Inv(m) && k in m.held && CanChoose(Unuse(m, k), k, NoneFree)
    ensures Inv(Tidy(Unuse(m, k), k))
  {
    var r := Tidy(Unuse(m, k), k);
    forall i, g | WaitsFor(r, i, g) ensures Link(g, i) in r.index {
      assert WaitsFor(m, i, g);
    }
    forall l | l in r.index && l.id in r.waiting ensures WaitsFor(r, l.id, l.k) {
      assert WaitsFor(m, l.id, l.k);
    }
    forall id | id in r.waiting ensures !Free(r, id) {
      assert !Free(m, id);
      if WaitsFor(m, id, k) {
        assert Link(k, id) in m.index;
        assert !Free(Unuse(m, k), id);
      }
    }
  }
}
