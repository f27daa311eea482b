/** The mark-and-sweep collector over its intrusive singly linked list.

    Objects on the list are the ones the collector may free. Functions, constants
    and the none/true/false singletons are created outside the list: they get
    marked and are never unmarked, and collection stays exact all the same. */
module Collector {

  /** `successors` is what the object's `follow` visits, in order; `dynamicBytes`
      are its outstanding dynamic charges, refunded when it is deleted. */
  class Collectable {
    var marked: bool
    var next: Collectable?
    var baseBytes: nat
    var dynamicBytes: int
    var successors: seq<Collectable>

    constructor (bytes: nat, succs: seq<Collectable>)
      ensures !marked && next == null && baseBytes == bytes && dynamicBytes == 0 && successors == succs
    {
      marked, next, baseBytes, dynamicBytes, successors := false, null, bytes, 0, succs;
    }
  }

  // ---------------------------------------------------------------- sequences of objects

  ghost predicate Distinct(s: seq<Collectable>) {
    forall i, j :: 0 <= i < j < |s| ==> s[i] != s[j]
  }

  lemma {:induction false} DistinctWithout(s: seq<Collectable>, i: nat)
    requires Distinct(s) && i < |s|
    ensures Distinct(s[..i] + s[i + 1..])
  {
    var r := s[..i] + s[i + 1..];
    forall j, k | 0 <= j < k < |r| ensures r[j] != r[k] {
      assert r[j] == s[if j < i then j else j + 1] && r[k] == s[if k < i then k else k + 1];
    }
  }

  /** The chain skips a node once its predecessor points past it. */
  lemma {:induction false} ChainedWithout(s: seq<Collectable>, i: nat)
    requires i < |s|
    requires forall k :: 0 <= k < |s| && k != i ==> s[k].next == NodeAt(s, if k + 1 == i then i + 1 else k + 1)
    ensures Chained(s[..i] + s[i + 1..])
  {
    var r := s[..i] + s[i + 1..];
    forall k | 0 <= k < |r| ensures r[k].next == NodeAt(r, k + 1) {
      assert r[k] == s[if k < i then k else k + 1];
    }
  }

  lemma {:induction false} HeadIsNew(a: seq<Collectable>, b: seq<Collectable>)
    requires Distinct(a + b) && b != []
    ensures b[0] in b && b[0] !in b[1..] && b[0] !in a
  {
    var s := a + b;
    forall k | 1 <= k < |b| ensures b[k] != b[0] { assert s[|a| + k] == b[k] && s[|a|] == b[0]; }
    forall k | 0 <= k < |a| ensures a[k] != b[0] { assert s[k] == a[k] && s[|a|] == b[0]; }
  }

  /** Exactly the objects of `s` in `keep` are marked. */
  ghost predicate Marks(s: seq<Collectable>, keep: set<Collectable>)
    reads s`marked
  {
    forall x :: x in s ==> (x.marked <==> x in keep)
  }

  lemma {:induction false} MarksSplit(a: seq<Collectable>, b: seq<Collectable>, keep: set<Collectable>)
    ensures Marks([], keep)
    ensures Marks(a + b, keep) ==> Marks(a, keep) && Marks(b, keep)
  {}

  lemma {:induction false} MarksOne(x: Collectable, keep: set<Collectable>)
    ensures Marks([x], keep) <==> (x.marked <==> x in keep)
  {
    assert x in [x];
  }

  lemma {:induction false} MarksJoin(a: seq<Collectable>, x: Collectable)
    ensures Marks(a, {}) && !x.marked ==> Marks(a + [x], {})
  {}

  /** The elements of `s` in `keep`, in order. */
  ghost function Restrict(s: seq<Collectable>, keep: set<Collectable>): (r: seq<Collectable>)
    ensures forall x :: x in r ==> x in s && x in keep
    ensures forall x :: x in s ==> x in keep ==> x in r
    decreases |s|
  {
    if s == [] then []
    else
      var rest := Restrict(s[..|s|-1], keep);
      var last := s[|s|-1];
      assert s == s[..|s|-1] + [last];
      if last in keep then rest + [last] else rest
  }

  lemma {:induction false} RestrictStep(s: seq<Collectable>, x: Collectable, keep: set<Collectable>)
    ensures Restrict(s + [x], keep) == Restrict(s, keep) + (if x in keep then [x] else [])
  {
    assert (s + [x])[..|s|] == s;
  }

  /** The elements of `s` that are not in `keep`. */
  ghost function Dropped(s: seq<Collectable>, keep: set<Collectable>): set<Collectable> {
    set x | x in s && x !in keep
  }

  lemma {:induction false} DroppedStep(s: seq<Collectable>, x: Collectable, keep: set<Collectable>)
    ensures Dropped(s + [x], keep) == Dropped(s, keep) + (if x in keep then {} else {x})
  {}

  /** The sweep is at the first object of `rest` and has kept `kept`. */
  ghost predicate Progress(all: seq<Collectable>, done: seq<Collectable>, kept: seq<Collectable>,
      rest: seq<Collectable>, keep: set<Collectable>)
  {
    all == done + rest && kept == Restrict(done, keep)
  }

  lemma {:induction false} NothingYet(all: seq<Collectable>, keep: set<Collectable>)
    ensures Progress(all, [], [], all, keep) && Dropped([], keep) == {}
  {}

  lemma {:induction false} ProgressStep(all: seq<Collectable>, done: seq<Collectable>, kept: seq<Collectable>,
      rest: seq<Collectable>, keep: set<Collectable>)
    requires Progress(all, done, kept, rest, keep) && rest != []
    ensures var o := rest[0];
      && o in all && rest == [o] + rest[1..] && (kept + [o]) + rest[1..] == kept + rest
      && Progress(all, done + [o], if o in keep then kept + [o] else kept, rest[1..], keep)
      && Dropped(done + [o], keep) == Dropped(done, keep) + (if o in keep then {} else {o})
  {
    var o := rest[0];
    assert rest == [o] + rest[1..] && all == (done + [o]) + rest[1..];
    RestrictStep(done, o, keep);
    DroppedStep(done, o, keep);
  }

  lemma {:induction false} ProgressDone(all: seq<Collectable>, done: seq<Collectable>, kept: seq<Collectable>,
      rest: seq<Collectable>, keep: set<Collectable>)
    requires Progress(all, done, kept, rest, keep) && rest == []
    ensures done == all && kept == Restrict(all, keep) && kept + rest == kept
  {
    assert all == done;
  }

  lemma {:induction false} RestrictAll(s: seq<Collectable>, keep: set<Collectable>)
    requires forall x :: x in s ==> x in keep
    ensures Restrict(s, keep) == s
    decreases |s|
  {
    if s != [] {
      RestrictAll(s[..|s|-1], keep);
    }
  }

  /** Bytes charged for the objects of `s`. */
  ghost function Charged(s: seq<Collectable>): int
    reads s`baseBytes, s`dynamicBytes
    decreases |s|
  {
    if s == [] then 0 else s[0].baseBytes + s[0].dynamicBytes + Charged(s[1..])
  }

  lemma {:induction false} ChargedConcat(a: seq<Collectable>, b: seq<Collectable>)
    ensures Charged(a + b) == Charged(a) + Charged(b)
    decreases |a|
  {
    if a == [] {
      assert a + b == b;
    } else {
      assert (a + b)[1..] == a[1..] + b;
      ChargedConcat(a[1..], b);
    }
  }

  lemma {:induction false} ChargedFront(o: Collectable, s: seq<Collectable>)
    ensures Charged([o] + s) == o.baseBytes + o.dynamicBytes + Charged(s)
  {
    assert ([o] + s)[1..] == s;
  }

  lemma {:induction false} ChargedSplit(s: seq<Collectable>, k: nat)
    requires k < |s|
    ensures s == s[..k] + [s[k]] + s[k + 1..]
    ensures Charged(s) == Charged(s[..k]) + (s[k].baseBytes + s[k].dynamicBytes) + Charged(s[k + 1..])
  {
    assert s == s[..k] + s[k..] && s[k..][1..] == s[k + 1..];
    ChargedConcat(s[..k], s[k..]);
  }

  lemma {:induction false} ChargedWithout(s: seq<Collectable>, i: nat)
    requires i < |s|
    ensures Charged(s[..i] + s[i + 1..]) == Charged(s) - (s[i].baseBytes + s[i].dynamicBytes)
  {
    assert s == s[..i] + s[i..] && s[i..][1..] == s[i + 1..];
    ChargedConcat(s[..i], s[i..]);
    ChargedConcat(s[..i], s[i + 1..]);
  }

  // ---------------------------------------------------------------- linked list

  datatype Iterator = Iterator(previous: Collectable?, current: Collectable?)

  /** `size_` is a 16-bit counter. */
  function Counter(n: nat): nat { n % 65536 }
  function Incremented(size: nat): nat { (size + 1) % 65536 }
  function Decremented(size: nat): nat { (size + 65535) % 65536 }

  lemma {:induction false} CounterSteps(n: nat)
    ensures Incremented(Counter(n)) == Counter(n + 1)
    ensures n > 0 ==> Decremented(Counter(n)) == Counter(n - 1)
  {
    var q, r := n / 65536, n % 65536;
    assert n == q * 65536 + r;
    if r == 65535 { assert n + 1 == (q + 1) * 65536; }
    if n > 0 && r == 0 { assert n - 1 == (q - 1) * 65536 + 65535; }
  }

  /** What the `next_` pointer of the object before position `i` must be. */
  ghost function NodeAt(s: seq<Collectable>, i: nat): Collectable? {
    if i < |s| then s[i] else null
  }

  ghost predicate Chained(s: seq<Collectable>)
    reads s`next
  {
    forall i :: 0 <= i < |s| ==> s[i].next == NodeAt(s, i + 1)
  }

  ghost function Only(x: Collectable?): set<Collectable> {
    if x == null then {} else {x}
  }

  /** Intrusive list; `size` is a 16-bit counter. */
  class LinkedList {
    var head: Collectable?
    var size: nat
    ghost var nodes: seq<Collectable>

    ghost predicate Valid()
      reads this, nodes`next
    {
      && Distinct(nodes)
      && head == NodeAt(nodes, 0)
      && Chained(nodes)
      && size == Counter(|nodes|)
    }

    /** The iterator is at position `i`. */
    ghost predicate IsAt(it: Iterator, i: nat)
      reads this
    {
      && i <= |nodes|
      && it.current == NodeAt(nodes, i)
      && (if i > 0 then it.previous == nodes[i - 1] else it.previous == null)
    }

    constructor ()
      ensures Valid() && nodes == []
    {
      head, size, nodes := null, 0, [];
    }

    /** Despite its name it links the node in front. */
    method PushBack(node: Collectable)
      requires Valid() && node !in nodes
      modifies this, node`next
      ensures Valid() && nodes == [node] + old(nodes)
    {
      hide Counter, Incremented;
      ghost var was := nodes;
      node.next := head;
      head := node;
      size := Incremented(size);
      CounterSteps(|nodes|);
      nodes := [node] + was;
      forall k | 0 < k < |nodes| ensures nodes[k].next == NodeAt(nodes, k + 1) {
        assert nodes[k] == was[k - 1] && was[k - 1] in was;
        assert old(was[k - 1].next) == NodeAt(was, k);
      }
    }

    method Begin() returns (it: Iterator)
      requires Valid()
      ensures IsAt(it, 0)
    {
      it := Iterator(null, head);
    }

    method Advance(it: Iterator, ghost i: nat) returns (r: Iterator)
      requires Valid() && IsAt(it, i)
      ensures IsAt(r, if i < |nodes| then i + 1 else i)
    {
      if it.current != null {
        r := Iterator(it.current, it.current.next);
      } else {
        r := it;
      }
    }

    /** Unlinks the node at the iterator; the iterator returned is at the node
        that took its place. Erasing at the end does nothing. */
    method Erase(it: Iterator, ghost i: nat) returns (r: Iterator)
      requires Valid() && IsAt(it, i)
      modifies this, Only(it.previous)`next
      ensures Valid()
      ensures i < |old(nodes)| ==> nodes == old(nodes)[..i] + old(nodes)[i + 1..] && IsAt(r, i)
      ensures i == |old(nodes)| ==> nodes == old(nodes) && r.current == null
    {
      if it.current == null {
        return Iterator(null, null);
      }
      hide Counter, Decremented;
      ghost var was := nodes;
      size := Decremented(size);
      var node := it.current;
      assert node == was[i] && head == was[0] && node.next == NodeAt(was, i + 1);
      if node == head {
        assert i == 0;
        head := node.next;
        r := Iterator(null, head);
      } else {
        assert it.previous == was[i - 1];
        it.previous.next := node.next;
        r := Iterator(it.previous, it.previous.next);
      }
      CounterSteps(|nodes|);
      nodes := was[..i] + was[i + 1..];
      assert Distinct(nodes) by { DistinctWithout(was, i); }
      assert Chained(nodes) by { ChainedWithout(was, i); }
    }
  }

  // ---------------------------------------------------------------- heap

  class CollectedHeap {
    const objects: LinkedList
    var memoryBytes: int
    /** Bytes tracked for anything that is not a listed object. */
    ghost var overhead: int
    /** Every live object, listed or not. */
    ghost var universe: set<Collectable>

    constructor (bytes: nat)
      ensures Valid() && fresh(objects) && objects.nodes == [] && universe == {}
      ensures memoryBytes == overhead == bytes
    {
      objects := new LinkedList();
      memoryBytes, overhead, universe := bytes, bytes, {};
    }

    /** Successors are live objects, and what is outside the list only refers to
        what is outside the list. */
    ghost predicate GraphOk()
      reads this, objects, universe`successors
    {
      && (forall x :: x in objects.nodes ==> x in universe)
      && (forall x, y :: x in universe && y in x.successors ==> y in universe)
      && (forall x, y :: x in universe && x !in objects.nodes && y in x.successors ==> y !in objects.nodes)
    }

    /** Between collections: listed objects are unmarked, and the marks left on
        unlisted objects are closed under successors. */
    ghost predicate MarksOk()
      reads this, objects, universe`marked, universe`successors, objects.nodes`marked
    {
      && (forall x :: x in objects.nodes ==> !x.marked)
      && (forall x, y :: x in universe && x.marked && y in x.successors && y in universe ==> y.marked)
    }

    ghost predicate LedgerOk()
      reads this, objects, objects.nodes`baseBytes, objects.nodes`dynamicBytes
    {
      memoryBytes == overhead + Charged(objects.nodes)
    }

    ghost predicate Valid()
      reads this, objects, universe`successors, universe`marked, objects.nodes
    {
      objects.Valid() && GraphOk() && MarksOk() && LedgerOk()
    }

    // -------------------------------------------------------------- mutator

    /** A new listed object is charged its base size and what its containers
        reserve at once. */
    method Allocate(bytes: nat, reserved: int, successors: seq<Collectable>) returns (o: Collectable)
      requires Valid() && forall y :: y in successors ==> y in universe
      modifies this, objects
      ensures Valid() && fresh(o)
      ensures objects.nodes == [o] + old(objects.nodes) && universe == old(universe) + {o}
      ensures o.successors == successors && memoryBytes == old(memoryBytes) + bytes + reserved && overhead == old(overhead)
    {
      hide Charged, Distinct, Chained, Counter, NodeAt;
      o := new Collectable(bytes, successors);
      assert o !in objects.nodes;
      objects.PushBack(o);
      memoryBytes := memoryBytes + o.baseBytes;
      universe := universe + {o};
      assert LedgerOk() by { ChargedFront(o, old(objects.nodes)); }
      assert GraphOk() && MarksOk() by { hide LedgerOk; }
      hide LedgerOk, GraphOk, MarksOk;
      Charge(o, reserved);
    }

    /** A function or constant, made by the compiler outside the list. */
    method CreateOutside(bytes: nat, successors: seq<Collectable>) returns (o: Collectable)
      requires Valid() && forall y :: y in successors ==> y in universe && y !in objects.nodes
      modifies this
      ensures Valid() && fresh(o) && o !in objects.nodes && universe == old(universe) + {o}
      ensures objects.nodes == old(objects.nodes) && o.successors == successors && memoryBytes == old(memoryBytes)
    {
      o := new Collectable(bytes, successors);
      universe := universe + {o};
    }

    /** A listed object changes what it refers to: a store to a local, a record
        field, an operand pushed or popped. */
    method Relink(o: Collectable, successors: seq<Collectable>)
      requires Valid() && o in objects.nodes && forall y :: y in successors ==> y in universe
      modifies o`successors
      ensures Valid() && o.successors == successors
    {
      o.successors := successors;
    }

    /** A record field with a new name, or a growing operand stack. */
    method Charge(o: Collectable, bytes: int)
      requires Valid() && o in objects.nodes
      modifies this`memoryBytes, o`dynamicBytes
      ensures Valid() && memoryBytes == old(memoryBytes) + bytes
    {
      hide Charged, Chained, Counter, NodeAt;
      ghost var k :| 0 <= k < |objects.nodes| && objects.nodes[k] == o;
      ChargedSplit(objects.nodes, k);
      memoryBytes := memoryBytes + bytes;
      o.dynamicBytes := o.dynamicBytes + bytes;
      assert o !in objects.nodes[..k] && o !in objects.nodes[k + 1..];
      ChargedSplit(objects.nodes, k);
      assert LedgerOk() && objects.Valid() && GraphOk();
    }

    // -------------------------------------------------------------- reachability

    ghost predicate ClosedSet(s: set<Collectable>)
      reads s`successors
    {
      forall x, y :: x in s && y in x.successors ==> y in s
    }

    /** Member of every closed set of live objects that contains the roots. */
    ghost predicate Reachable(roots: set<Collectable>, x: Collectable)
      reads this, universe`successors
    {
      x in universe && forall s: set<Collectable> :: s <= universe && roots <= s && ClosedSet(s) ==> x in s
    }

    ghost function ReachableSet(roots: set<Collectable>): (r: set<Collectable>)
      reads this, universe`successors
      ensures r <= universe && forall x :: x in universe ==> (x in r <==> Reachable(roots, x))
    {
      set x | x in universe && Reachable(roots, x)
    }

    // -------------------------------------------------------------- mark

    ghost function Unmarked(): set<Collectable>
      reads this, universe`marked
    {
      set x | x in universe && !x.marked
    }

    /** Marks what is new and reachable; marking an object leaves none of its
        successors unmarked, whatever cycles there are. */
    method MarkSuccessors(o: Collectable)
      requires GraphOk() && o in universe
      modifies universe`marked
      ensures o.marked
      ensures forall x :: x in universe && old(x.marked) ==> x.marked
      ensures forall x, y :: x in universe && x.marked && !old(x.marked) && y in x.successors ==> y.marked
      ensures forall x :: x in universe && x.marked && !old(x.marked) ==> Reachable({o}, x)
      decreases Unmarked(), 0
    {
      if o.marked { return; }
      ghost var before := Unmarked();
      o.marked := true;
      assert o in before && o !in Unmarked() && Unmarked() <= before;
      Follow(o);
    }

    method Follow(o: Collectable)
      requires GraphOk() && o in universe
      modifies universe`marked
      ensures forall x :: x in universe && old(x.marked) ==> x.marked
      ensures forall y :: y in o.successors ==> y.marked
      ensures forall x, y :: x in universe && x.marked && !old(x.marked) && y in x.successors ==> y.marked
      ensures forall x :: x in universe && x.marked && !old(x.marked) ==> Reachable({o}, x)
      decreases Unmarked(), 1
    {
      for i := 0 to |o.successors|
        invariant forall x :: x in universe && old(x.marked) ==> x.marked
        invariant forall j :: 0 <= j < i ==> o.successors[j].marked
        invariant forall x, y :: x in universe && x.marked && !old(x.marked) && y in x.successors ==> y.marked
        invariant forall x :: x in universe && x.marked && !old(x.marked) ==> Reachable({o}, x)
      {
        var y := o.successors[i];
        MarkSuccessors(y);
        assert forall s: set<Collectable> :: {o} <= s && ClosedSet(s) ==> {y} <= s;
      }
    }

    /** The mark phase: among listed objects exactly the reachable ones are marked,
        and marks are closed under successors. */
    method MarkRoots(roots: seq<Collectable>)
      requires GraphOk() && MarksOk() && forall r :: r in roots ==> r in universe
      modifies universe`marked
      ensures Marks(objects.nodes, ReachableSet(set r | r in roots))
      ensures forall x, y :: x in universe && x.marked && y in x.successors ==> y.marked
    {
      ghost var all := set r | r in roots;
      for i := 0 to |roots|
        invariant forall x :: x in universe && old(x.marked) ==> x.marked
        invariant forall j :: 0 <= j < i ==> roots[j].marked
        invariant forall x, y :: x in universe && x.marked && !old(x.marked) && y in x.successors ==> y.marked
        invariant forall x :: x in universe && x.marked && !old(x.marked) ==> Reachable(all, x)
      {
        MarkSuccessors(roots[i]);
        assert forall s: set<Collectable> :: all <= s && ClosedSet(s) ==> {roots[i]} <= s;
      }
      ghost var marks := set x | x in universe && x.marked;
      assert ClosedSet(marks) && all <= marks && marks <= universe;
    }

    // -------------------------------------------------------------- sweep

    /** Takes the object at the iterator off the list and deletes it: its base size
        and, in its destructor, its outstanding dynamic charges are refunded. */
    method Delete(it: Iterator, ghost i: nat) returns (r: Iterator)
      requires objects.Valid() && objects.IsAt(it, i) && i < |objects.nodes| && LedgerOk()
      modifies this, objects, Only(it.previous)`next
      ensures objects.Valid() && objects.IsAt(r, i) && LedgerOk() && overhead == old(overhead)
      ensures objects.nodes == old(objects.nodes)[..i] + old(objects.nodes)[i + 1..]
      ensures universe == old(universe) - {old(objects.nodes)[i]}
    {
      hide Counter, Charged, Distinct, Chained;
      var o := it.current;
      ChargedWithout(objects.nodes, i);
      memoryBytes := memoryBytes - o.baseBytes;
      r := objects.Erase(it, i);
      memoryBytes := memoryBytes - o.dynamicBytes;
      universe := universe - {o};
    }

    /** One round of the sweep, at the first object of `rest`. */
    method SweepOne(it: Iterator, ghost kept: seq<Collectable>, ghost rest: seq<Collectable>) returns (r: Iterator)
      requires objects.Valid() && objects.IsAt(it, |kept|) && LedgerOk()
      requires objects.nodes == kept + rest && rest != []
      modifies this, objects, Only(it.previous)`next, Only(it.current)`marked
      ensures objects.Valid() && LedgerOk() && overhead == old(overhead)
      ensures !rest[0].marked
      ensures objects.nodes == if old(rest[0].marked) then kept + rest else kept + rest[1..]
      ensures objects.IsAt(r, if old(rest[0].marked) then |kept| + 1 else |kept|)
      ensures r.previous == if old(rest[0].marked) then rest[0] else it.previous
      ensures universe == if old(rest[0].marked) then old(universe) else old(universe) - {rest[0]}
    {
      hide Distinct, Chained;
      assert it.current == rest[0];
      if !it.current.marked {
        r := Delete(it, |kept|);
        assert objects.nodes == kept + rest[1..];
      } else {
        it.current.marked := false;
        r := objects.Advance(it, |kept|);
      }
    }

    /** A round within the loop: what was swept stays swept, the rest is still to come. */
    method SweepRound(it: Iterator, ghost all: seq<Collectable>, ghost done: seq<Collectable>, ghost kept: seq<Collectable>,
        ghost rest: seq<Collectable>, ghost keep: set<Collectable>) returns (r: Iterator)
      requires rest != [] && Progress(all, done, kept, rest, keep)
      requires objects.Valid() && objects.IsAt(it, |kept|) && objects.nodes == kept + rest
      requires Marks(kept, {}) && Marks(rest, keep) && LedgerOk() && (it.previous == null || it.previous in all)
      modifies this, objects, Only(it.previous)`next, Only(it.current)`marked
      ensures var o := rest[0];
        var kept' := if o in keep then kept + [o] else kept;
        && Progress(all, done + [o], kept', rest[1..], keep)
        && objects.Valid() && objects.IsAt(r, |kept'|) && objects.nodes == kept' + rest[1..]
        && Marks(kept', {}) && Marks(rest[1..], keep)
        && universe == old(universe) - (if o in keep then {} else {o})
      ensures LedgerOk() && overhead == old(overhead) && (r.previous == null || r.previous in all)
    {
      hide Progress, Dropped, Distinct, Charged, Chained, LedgerOk, Counter, Marks;
      ghost var o := rest[0];
      HeadIsNew(kept, rest);
      ProgressStep(all, done, kept, rest, keep);
      MarksSplit([o], rest[1..], keep);
      MarksOne(o, keep);
      assert Only(it.current) == {o};
      r := SweepOne(it, kept, rest);
      MarksJoin(kept, o);
      assert Marks(kept, {}) && Marks(kept + [o], {}) && Marks(rest[1..], keep);
    }

    /** The sweep erases while iterating. */
    method Sweep(ghost keep: set<Collectable>)
      requires objects.Valid() && LedgerOk() && Marks(objects.nodes, keep)
      modifies this, objects, objects.nodes`marked, objects.nodes`next
      ensures objects.Valid() && LedgerOk() && Marks(objects.nodes, {})
      ensures objects.nodes == Restrict(old(objects.nodes), keep)
      ensures overhead == old(overhead)
      ensures universe == old(universe) - Dropped(old(objects.nodes), keep)
    {
      hide Progress, Dropped, Distinct, Charged, Chained, LedgerOk, Counter, Marks;
      ghost var all := objects.nodes;
      ghost var done: seq<Collectable>, kept: seq<Collectable>, rest: seq<Collectable> := [], [], all;
      var it := objects.Begin();
      NothingYet(all, keep);
      MarksSplit([], all, {});
      while it.current != null
        invariant Progress(all, done, kept, rest, keep)
        invariant objects.Valid() && objects.IsAt(it, |kept|) && objects.nodes == kept + rest
        invariant Marks(kept, {}) && Marks(rest, keep)
        invariant it.previous == null || it.previous in all
        invariant LedgerOk() && overhead == old(overhead)
        invariant universe == old(universe) - Dropped(done, keep)
        decreases |rest|
      {
        ghost var o := rest[0];
        ProgressStep(all, done, kept, rest, keep);
        it := SweepRound(it, all, done, kept, rest, keep);
        done, rest, kept := done + [o], rest[1..], if o in keep then kept + [o] else kept;
      }
      ProgressDone(all, done, kept, rest, keep);
    }

    // -------------------------------------------------------------- collection

    /** Exactness: afterwards the list is the old list restricted to what is
        reachable from the roots, in the same order; everything else on the list
        is gone, no live object refers to it, and the heap is ready to collect
        again. */
    method Gc(roots: seq<Collectable>)
      requires Valid() && forall r :: r in roots ==> r in universe
      modifies this, objects, universe`marked, universe`next
      ensures Valid()
      ensures objects.nodes == Restrict(old(objects.nodes), old(ReachableSet(set r | r in roots)))
      ensures overhead == old(overhead)
      ensures universe == old(universe) - Dropped(old(objects.nodes), old(ReachableSet(set r | r in roots)))
    {
      hide Charged, Distinct, Chained, Counter, Restrict, NodeAt;
      ghost var keep := ReachableSet(set r | r in roots);
      MarkRoots(roots);
      assert ClosedSet(keep);
      Sweep(keep);
      assert GraphOk();
    }

    /** Marks left behind on unlisted objects do not disturb the next collection:
        with the same roots it removes nothing. */
    method GcTwice(roots: seq<Collectable>)
      requires Valid() && forall r :: r in roots ==> r in universe
      modifies this, objects, universe`marked, universe`next
      ensures Valid()
      ensures objects.nodes == Restrict(old(objects.nodes), old(ReachableSet(set r | r in roots)))
    {
      hide Charged, Distinct, Chained, Counter, LedgerOk, MarksOk, Restrict;
      ghost var all := set r | r in roots;
      ghost var keep := ReachableSet(all);
      Gc(roots);
      assert forall x :: x in objects.nodes ==> x in keep && x in universe;
      assert forall x :: x in objects.nodes ==> Reachable(all, x);
      RestrictAll(objects.nodes, ReachableSet(all));
      Gc(roots);
    }
  }
}
