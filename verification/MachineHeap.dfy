/** The machine's heap as the collector's list of objects: what the machine calls
    live is what the collector reaches, and a collection of the list is the
    machine's collection. */
module MachineHeap {
  import opened Machine
  import opened Collector
  import opened Transparency

  /** `at` places every heap object of the machine on the collector's list, and what
      an object's `follow` visits on the list is what the machine's object points to.
      Functions and constants are objects outside the list. */
  ghost predicate Represents(heap: CollectedHeap, at: map<Addr, Collectable>, h: Heap)
    reads heap, heap.objects, heap.objects.nodes`successors
  {
    && at.Keys == h.Keys
    && (forall a :: a in at ==> at[a] in heap.objects.nodes)
    && (forall a, b :: a in at && b in at && a != b ==> at[a] != at[b])
    && (forall x :: x in heap.objects.nodes ==> exists a :: a in at && at[a] == x)
    && (forall a, b :: a in at && b in at ==> (at[b] in at[a].successors <==> b in Pointees(h[a])))
  }

  /** The roots handed to the collector are the machine's, as far as they are listed. */
  ghost predicate SameRoots(roots: set<Collectable>, at: map<Addr, Collectable>, vm: Machine) {
    forall a :: a in at ==> (at[a] in roots <==> a in Roots(vm))
  }

  lemma {:induction false} LiveIsReachable(heap: CollectedHeap, at: map<Addr, Collectable>, vm: Machine, roots: set<Collectable>, a: Addr)
    requires heap.GraphOk() && Represents(heap, at, vm.mem.heap) && SameRoots(roots, at, vm) && roots <= heap.universe && a in at
    ensures Live(vm, a) <==> heap.Reachable(roots, at[a])
  {
    if Live(vm, a) {
      forall s: set<Collectable> | s <= heap.universe && roots <= s && heap.ClosedSet(s) ensures at[a] in s {
        AddressesClosed(heap, at, vm, roots, s);
      }
    }
    if heap.Reachable(roots, at[a]) {
      var h := vm.mem.heap;
      forall d: set<Addr> | d <= h.Keys && Roots(vm) * h.Keys <= d && Closed(h, d) ensures a in d {
        ObjectsClosed(heap, at, vm, roots, d, a);
      }
    }
  }

  /** A closed set of objects holds a closed set of addresses. */
  lemma {:induction false} AddressesClosed(heap: CollectedHeap, at: map<Addr, Collectable>, vm: Machine, roots: set<Collectable>, s: set<Collectable>)
    requires Represents(heap, at, vm.mem.heap) && SameRoots(roots, at, vm)
    requires roots <= s && heap.ClosedSet(s)
    ensures var d := set b | b in at && at[b] in s; Roots(vm) * vm.mem.heap.Keys <= d && Closed(vm.mem.heap, d) && d <= vm.mem.heap.Keys
  {
    hide Roots, Pointees;
    var h, d := vm.mem.heap, set b | b in at && at[b] in s;
    forall b, c | b in d && b in h && c in Pointees(h[b]) && c in h ensures c in d {
      assert at[c] in at[b].successors;
    }
  }

  /** A closed set of addresses, with everything outside the list, is a closed set
      of objects. */
  lemma {:induction false} ObjectsClosed(heap: CollectedHeap, at: map<Addr, Collectable>, vm: Machine, roots: set<Collectable>,
      d: set<Addr>, a: Addr)
    requires heap.GraphOk() && Represents(heap, at, vm.mem.heap) && SameRoots(roots, at, vm) && roots <= heap.universe && a in at
    requires d <= vm.mem.heap.Keys && Roots(vm) * vm.mem.heap.Keys <= d && Closed(vm.mem.heap, d)
    requires heap.Reachable(roots, at[a])
    ensures a in d
  {
    hide Roots, Pointees;
    var s := set x | x in heap.universe && (x !in heap.objects.nodes || exists b :: b in d && at[b] == x);
    forall r | r in roots ensures r in s {
      if r in heap.objects.nodes {
        var b :| b in at && at[b] == r;
        assert b in d;
      }
    }
    forall x, y | x in s && y in x.successors ensures y in s {
      if y in heap.objects.nodes {
        var b :| b in d && at[b] == x;
        var c :| c in at && at[c] == y;
        assert c in Pointees(vm.mem.heap[b]);
      }
    }
    assert heap.ClosedSet(s);
    var b :| b in d && at[b] == at[a];
  }

  ghost function LiveObjects(at: map<Addr, Collectable>, vm: Machine): set<Collectable> {
    set a | a in at && Live(vm, a) :: at[a]
  }

  lemma {:induction false} KeepsTheLive(heap: CollectedHeap, at: map<Addr, Collectable>, vm: Machine, roots: set<Collectable>)
    requires heap.GraphOk() && Represents(heap, at, vm.mem.heap) && SameRoots(roots, at, vm) && roots <= heap.universe
    ensures Restrict(heap.objects.nodes, heap.ReachableSet(roots)) == Restrict(heap.objects.nodes, LiveObjects(at, vm))
  {
    hide Live, Roots, Pointees, Restrict;
    var keep := heap.ReachableSet(roots);
    forall a | a in at ensures Live(vm, a) <==> at[a] in keep { LiveIsReachable(heap, at, vm, roots, a); }
    forall x | x in heap.objects.nodes ensures x in keep <==> x in LiveObjects(at, vm) {
      var a :| a in at && at[a] == x;
    }
    RestrictOnlyBy(heap.objects.nodes, keep, LiveObjects(at, vm));
  }

  /** The same arrows between fewer objects. */
  ghost predicate Arrows(at: map<Addr, Collectable>, h: Heap)
    requires at.Keys == h.Keys
    reads at.Values`successors
  {
    forall a, b :: a in at && b in at ==> (at[b] in at[a].successors <==> b in Pointees(h[a]))
  }

  lemma {:induction false} EveryNodeLives(nodes: seq<Collectable>, at: map<Addr, Collectable>, at': map<Addr, Collectable>, vm: Machine, x: Collectable)
    requires forall y :: y in nodes ==> exists a :: a in at && at[a] == y
    requires forall a, b :: a in at && b in at && a != b ==> at[a] != at[b]
    requires at' == map a | a in at && Live(vm, a) :: at[a]
    requires x in Restrict(nodes, LiveObjects(at, vm))
    ensures exists a :: a in at' && at'[a] == x
  {
    hide Live, Restrict;
    var a :| a in at && Live(vm, a) && at[a] == x;
    assert a in at';
  }

  lemma {:induction false} StillRepresents(heap: CollectedHeap, nodes: seq<Collectable>, at: map<Addr, Collectable>, at': map<Addr, Collectable>, vm: Machine)
    requires at.Keys == vm.mem.heap.Keys && Arrows(at, vm.mem.heap)
    requires forall a :: a in at ==> at[a] in nodes
    requires forall a, b :: a in at && b in at && a != b ==> at[a] != at[b]
    requires forall x :: x in nodes ==> exists a :: a in at && at[a] == x
    requires at' == map a | a in at && Live(vm, a) :: at[a]
    requires heap.objects.nodes == Restrict(nodes, LiveObjects(at, vm))
    ensures Represents(heap, at', Collect(vm).mem.heap)
  {
    hide Live, Roots, Pointees, Restrict;
    forall x | x in heap.objects.nodes ensures exists a :: a in at' && at'[a] == x {
      EveryNodeLives(nodes, at, at', vm, x);
    }
  }

  /** The collector, run on the machine's heap, leaves the collected machine's heap. */
  method CollectMachine(heap: CollectedHeap, ghost at: map<Addr, Collectable>, ghost vm: Machine, roots: seq<Collectable>)
    returns (ghost at': map<Addr, Collectable>)
    requires heap.Valid() && Represents(heap, at, vm.mem.heap) && SameRoots((set r | r in roots), at, vm)
    requires forall r :: r in roots ==> r in heap.universe
    modifies heap, heap.objects, heap.universe`marked, heap.universe`next
    ensures heap.Valid() && Represents(heap, at', Collect(vm).mem.heap)
    ensures at' == map a | a in at && Live(vm, a) :: at[a]
    ensures heap.objects.nodes == Restrict(old(heap.objects.nodes), LiveObjects(at, vm))
  {
    hide Live, Roots, Pointees, Restrict, LiveObjects, Collect, SameRoots;
    ghost var nodes := heap.objects.nodes;
    KeepsTheLive(heap, at, vm, set r | r in roots);
    heap.Gc(roots);
    at' := map a | a in at && Live(vm, a) :: at[a];
    StillRepresents(heap, nodes, at, at', vm);
  }

  lemma {:induction false} RestrictOnlyBy(s: seq<Collectable>, keep: set<Collectable>, live: set<Collectable>)
    requires forall x :: x in s ==> (x in keep <==> x in live)
    ensures Restrict(s, keep) == Restrict(s, live)
    decreases |s|
  {
    if s != [] {
      assert s[|s|-1] in s;
      RestrictOnlyBy(s[..|s|-1], keep, live);
    }
  }

  // ---------------------------------------------------------------- every heap is such a list

  /** The objects at some addresses, in any order. */
  method InSomeOrder(at: map<Addr, Collectable>, targets: set<Addr>) returns (s: seq<Collectable>)
    ensures forall x :: x in s <==> exists b :: b in at && b in targets && at[b] == x
  {
    s := [];
    var todo := set b | b in at && b in targets;
    ghost var all := todo;
    while todo != {}
      invariant todo <= all
      invariant forall x :: x in s <==> exists b :: b in all - todo && at[b] == x
    {
      var b :| b in todo;
      todo := todo - {b};
      s := s + [at[b]];
    }
  }

  /** The list holds one unmarked object for each address laid out so far. */
  ghost predicate LaidOut(nodes: seq<Collectable>, at: map<Addr, Collectable>) {
    && (forall a :: a in at ==> at[a] in nodes)
    && (forall a, b :: a in at && b in at && a != b ==> at[a] != at[b])
    && (forall x :: x in nodes ==> exists a :: a in at && at[a] == x)
  }

  lemma {:induction false} OneMore(nodes: seq<Collectable>, at: map<Addr, Collectable>, a: Addr, o: Collectable)
    requires LaidOut(nodes, at) && a !in at && o !in nodes
    ensures LaidOut([o] + nodes, at[a := o])
  {
    var at' := at[a := o];
    forall x | x in [o] + nodes ensures exists b :: b in at' && at'[b] == x {
      if x == o {
        assert a in at' && at'[a] == x;
      } else {
        var b :| b in at && at[b] == x;
        assert b in at' && at'[b] == x;
      }
    }
  }

  /** The objects in `done` point where the machine's point; the others nowhere yet. */
  ghost predicate Linked(heap: CollectedHeap, at: map<Addr, Collectable>, h: Heap, done: set<Addr>)
    requires at.Keys == h.Keys
    reads at.Values`successors
  {
    forall a, b :: a in at && b in at && a in done ==> (at[b] in at[a].successors <==> b in Pointees(h[a]))
  }

  method LayOut(addresses: set<Addr>) returns (heap: CollectedHeap, at: map<Addr, Collectable>)
    ensures fresh(heap) && fresh(heap.objects) && heap.Valid() && LaidOut(heap.objects.nodes, at) && at.Keys == addresses
    ensures heap.universe == set x | x in heap.objects.nodes
    ensures fresh(heap.universe)
  {
    hide CollectedHeap.Valid;
    heap := new CollectedHeap(0);
    at := map[];
    var todo := addresses;
    while todo != {}
      invariant fresh(heap) && fresh(heap.objects) && heap.Valid() && LaidOut(heap.objects.nodes, at)
      invariant todo <= addresses && at.Keys == addresses - todo
      invariant heap.universe == set x | x in heap.objects.nodes
      invariant fresh(heap.universe)
    {
      var a :| a in todo;
      ghost var before := heap.objects.nodes;
      var o := heap.Allocate(0, 0, []);
      OneMore(before, at, a, o);
      at := at[a := o];
      todo := todo - {a};
    }
  }

  /** The machine's heap meets the collector's invariants: it can be built as its
      list, object by object, and then linked. */
  method Represent(h: Heap) returns (heap: CollectedHeap, at: map<Addr, Collectable>)
    ensures fresh(heap) && heap.Valid() && Represents(heap, at, h)
  {
    hide Pointees, CollectedHeap.Valid;
    heap, at := LayOut(h.Keys);
    var todo := h.Keys;
    while todo != {}
      invariant fresh(heap) && fresh(heap.objects) && fresh(heap.universe) && heap.Valid() && LaidOut(heap.objects.nodes, at)
      invariant heap.universe == set x | x in heap.objects.nodes
      invariant todo <= h.Keys && Linked(heap, at, h, h.Keys - todo)
    {
      var a :| a in todo;
      var s := InSomeOrder(at, Pointees(h[a]));
      assert at[a] in heap.universe;
      heap.Relink(at[a], s);
      todo := todo - {a};
    }
  }
}
