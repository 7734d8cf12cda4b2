/** isJsonValue of desktop-api.ts: a depth-first search over an object graph that may be
    cyclic, with the current path kept in a set that is shared by the whole search. */
module JsonGraph {

  /** A JavaScript value. Objects are nodes of a heap, so that they can be shared and cyclic. */
  datatype Value = Null | Text | Boolean | Number(finite: bool) | Other | Object(node: nat)

  /** An array, an object whose prototype is Object.prototype or null, or any other object. */
  datatype Kind = Array | Plain | Exotic

  /** `children` are the elements of an array, or the values of the own enumerable properties. */
  datatype Node = Node(kind: Kind, children: seq<Value>)

  type Heap = map<nat, Node>

  predicate InHeap(heap: Heap, v: Value) {
    v.Object? ==> v.node in heap
  }

  ghost predicate Closed(heap: Heap) {
    forall n | n in heap :: forall v | v in heap[n].children :: InHeap(heap, v)
  }

  // ----- what a JSON value is -----

  predicate IsLeaf(v: Value) {
    v.Null? || v.Text? || v.Boolean? || (v.Number? && v.finite)
  }

  /** A node that is an array or a plain object, and whose direct values that are not objects are JSON. */
  predicate JsonNode(heap: Heap, n: nat) {
    n in heap && !heap[n].kind.Exotic? && forall v | v in heap[n].children :: v.Object? || IsLeaf(v)
  }

  predicate Edge(heap: Heap, a: nat, b: nat) {
    a in heap && !heap[a].kind.Exotic? && Object(b) in heap[a].children
  }

  predicate IsPath(heap: Heap, p: seq<nat>) {
    p != [] && (|p| > 1 ==> Edge(heap, p[0], p[1]) && IsPath(heap, p[1..]))
  }

  predicate PathFrom(heap: Heap, a: nat, p: seq<nat>) {
    IsPath(heap, p) && p[0] == a
  }

  predicate PathTo(heap: Heap, a: nat, p: seq<nat>, b: nat) {
    PathFrom(heap, a, p) && p[|p| - 1] == b
  }

  ghost predicate Reachable(heap: Heap, a: nat, b: nat) {
    exists p :: PathTo(heap, a, p, b)
  }

  /** On a cycle: a path of at least one edge leads back to the node. */
  ghost predicate OnCycle(heap: Heap, n: nat) {
    exists p :: PathTo(heap, n, p, n) && |p| > 1
  }

  /** JSON: only JSON nodes can be reached, and none of them lies on a cycle. */
  ghost predicate IsJson(heap: Heap, v: Value) {
    if v.Object? then forall n | Reachable(heap, v.node, n) :: JsonNode(heap, n) && !OnCycle(heap, n)
    else IsLeaf(v)
  }

  // ----- what the search establishes, with a path already open -----

  predicate Distinct(p: seq<nat>) {
    forall i, j | 0 <= i < j < |p| :: p[i] != p[j]
  }

  predicate Avoids(p: seq<nat>, seen: set<nat>) {
    forall n | n in p :: n !in seen
  }

  predicate CleanPath(heap: Heap, seen: set<nat>, p: seq<nat>) {
    p != [] && JsonNode(heap, p[|p| - 1]) && Distinct(p) && Avoids(p, seen)
  }

  ghost predicate Clean(heap: Heap, seen: set<nat>, v: Value) {
    if v.Object? then forall p | PathFrom(heap, v.node, p) :: CleanPath(heap, seen, p)
    else IsLeaf(v)
  }

  /** One step of the search: a node off the path is clean exactly when it is a JSON container
      and every child is clean with the node on the path. */
  lemma CleanStep(heap: Heap, seen: set<nat>, n: nat)
    requires n in heap
    ensures Clean(heap, seen, Object(n)) <==>
            && n !in seen && !heap[n].kind.Exotic?
            && forall v | v in heap[n].children :: Clean(heap, seen + {n}, v)
  {
    if n in seen || heap[n].kind.Exotic? {
      assert PathFrom(heap, n, [n]) && !CleanPath(heap, seen, [n]);
    } else {
      if Clean(heap, seen, Object(n)) {
        assert PathFrom(heap, n, [n]);
        assert CleanPath(heap, seen, [n]) && JsonNode(heap, n);
        forall v | v in heap[n].children ensures Clean(heap, seen + {n}, v) {
          if v.Object? {
            forall p | PathFrom(heap, v.node, p) ensures CleanPath(heap, seen + {n}, p) {
              CleanTail(heap, seen, n, p);
            }
          }
        }
      }
      if forall v | v in heap[n].children :: Clean(heap, seen + {n}, v) {
        forall p | PathFrom(heap, n, p) ensures CleanPath(heap, seen, p) {
          if |p| == 1 {
            assert JsonNode(heap, n);
          } else {
            assert Clean(heap, seen + {n}, Object(p[1]));
            assert PathFrom(heap, p[1], p[1..]);
            assert CleanPath(heap, seen + {n}, p[1..]);
            CleanHead(heap, seen, p);
          }
        }
      }
    }
  }

  lemma CleanTail(heap: Heap, seen: set<nat>, n: nat, p: seq<nat>)
    requires Clean(heap, seen, Object(n)) && IsPath(heap, p) && Edge(heap, n, p[0])
    ensures CleanPath(heap, seen + {n}, p)
  {
    var q := [n] + p;
    assert q[1..] == p;
    assert PathFrom(heap, n, q);
    assert CleanPath(heap, seen, q);
    DistinctTail(n, p);
  }

  lemma DistinctTail(n: nat, p: seq<nat>)
    requires Distinct([n] + p)
    ensures Distinct(p) && n !in p
  {
    var q := [n] + p;
    forall i | 0 <= i < |p| ensures p[i] != n {
      assert q[0] != q[i + 1];
    }
    forall i, j | 0 <= i < j < |p| ensures p[i] != p[j] {
      assert q[i + 1] != q[j + 1];
    }
  }

  lemma CleanHead(heap: Heap, seen: set<nat>, p: seq<nat>)
    requires |p| > 1 && p[0] !in seen && CleanPath(heap, seen + {p[0]}, p[1..])
    ensures CleanPath(heap, seen, p)
  {
    var t := p[1..];
    assert forall i | 1 <= i < |p| :: p[i] == t[i - 1] && t[i - 1] in t;
  }

  // ----- the code -----

  class Search {
    const heap: Heap
    var seen: set<nat>

    constructor (heap: Heap)
      ensures this.heap == heap && seen == {}
    {
      this.heap := heap;
      seen := {};
    }

    /** Terminates on every finite heap, because each nested call has one more node on the
        path; and leaves the path set as it found it, also when it answers false. */
    method IsJsonValue(value: Value) returns (ok: bool)
      requires Closed(heap) && InHeap(heap, value)
      modifies this
      ensures seen == old(seen)
      ensures ok <==> Clean(heap, seen, value)
      decreases heap.Keys - seen, 0
    {
      if value.Null? || value.Text? || value.Boolean? {
        return true;
      }
      if value.Number? {
        return value.finite;
      }
      if !value.Object? {
        return false;
      }
      var n := value.node;
      CleanStep(heap, seen, n);
      if n in seen {
        return false;
      }
      seen := seen + {n};
      if heap[n].kind.Exotic? {
        ok := false;
      } else {
        ok := Every(heap[n].children);
      }
      seen := seen - {n};
    }

    /** `children.every((item) => isJsonValue(item, seen))`: stops at the first refusal. */
    method Every(children: seq<Value>) returns (ok: bool)
      requires Closed(heap) && forall v | v in children :: InHeap(heap, v)
      modifies this
      ensures seen == old(seen)
      ensures ok <==> forall v | v in children :: Clean(heap, seen, v)
      decreases heap.Keys - seen, 1
    {
      for i := 0 to |children|
        invariant seen == old(seen)
        invariant forall j | 0 <= j < i :: Clean(heap, seen, children[j])
      {
        ok := IsJsonValue(children[i]);
        if !ok {
          assert children[i] in children;
          return false;
        }
      }
      ok := true;
    }
  }

  // ----- what it means from the empty path -----

  lemma {:induction false} PathConcat(heap: Heap, p: seq<nat>, q: seq<nat>)
    requires IsPath(heap, p) && IsPath(heap, q) && p[|p| - 1] == q[0]
    ensures IsPath(heap, p + q[1..])
    decreases |p|
  {
    if |p| == 1 {
      assert p + q[1..] == q;
    } else {
      PathConcat(heap, p[1..], q);
      assert (p + q[1..])[1..] == p[1..] + q[1..];
    }
  }

  lemma {:induction false} PathSlice(heap: Heap, p: seq<nat>, i: nat, j: nat)
    requires IsPath(heap, p) && i < j <= |p|
    ensures IsPath(heap, p[i..j])
    decreases |p|
  {
    if i > 0 {
      PathSlice(heap, p[1..], i - 1, j - 1);
      assert p[1..][i - 1..j - 1] == p[i..j];
    } else if j > 1 {
      PathSlice(heap, p[1..], 0, j - 1);
      assert p[0..j][1..] == p[1..][0..j - 1];
    }
  }

  /** With nothing on the path, the search decides exactly the JSON values. */
  lemma CleanIsJson(heap: Heap, v: Value)
    ensures Clean(heap, {}, v) <==> IsJson(heap, v)
  {
    if v.Object? {
      if Clean(heap, {}, v) {
        forall n | Reachable(heap, v.node, n) ensures JsonNode(heap, n) && !OnCycle(heap, n) {
          ReachedIsFine(heap, v, n);
        }
      }
      if IsJson(heap, v) {
        forall p | PathFrom(heap, v.node, p) ensures CleanPath(heap, {}, p) {
          assert PathTo(heap, v.node, p, p[|p| - 1]);
          assert Reachable(heap, v.node, p[|p| - 1]);
          JsonPathDistinct(heap, v, p);
        }
      }
    }
  }

  lemma ReachedIsFine(heap: Heap, v: Value, n: nat)
    requires v.Object? && Clean(heap, {}, v) && Reachable(heap, v.node, n)
    ensures JsonNode(heap, n) && !OnCycle(heap, n)
  {
    var p :| PathTo(heap, v.node, p, n);
    assert CleanPath(heap, {}, p);
    if OnCycle(heap, n) {
      var q :| PathTo(heap, n, q, n) && |q| > 1;
      PathConcat(heap, p, q);
      Repeats(p, q);
      assert PathFrom(heap, v.node, p + q[1..]);
    }
  }

  lemma Repeats(p: seq<nat>, q: seq<nat>)
    requires p != [] && |q| > 1 && p[|p| - 1] == q[0] == q[|q| - 1]
    ensures !Distinct(p + q[1..])
  {
    var r := p + q[1..];
    assert r[|p| - 1] == r[|r| - 1];
  }

  lemma JsonPathDistinct(heap: Heap, v: Value, p: seq<nat>)
    requires v.Object? && IsJson(heap, v) && PathFrom(heap, v.node, p)
    ensures Distinct(p)
  {
    forall i, j | 0 <= i < j < |p| ensures p[i] != p[j] {
      PathSlice(heap, p, 0, i + 1);
      assert PathTo(heap, v.node, p[0..i + 1], p[i]);
      assert Reachable(heap, v.node, p[i]);
      PathSlice(heap, p, i, j + 1);
      assert PathTo(heap, p[i], p[i..j + 1], p[j]);
      assert |p[i..j + 1]| > 1;
    }
  }

  /** Sharing is allowed: a heap whose edges all lead downwards is JSON from any node, however
      many parents a node has. */
  lemma SharedIsJson(heap: Heap, rank: nat -> nat, v: Value)
    requires v.Object? && v.node in heap && Closed(heap)
    requires forall n | n in heap :: JsonNode(heap, n)
    requires forall a, b | Edge(heap, a, b) :: rank(b) < rank(a)
    ensures IsJson(heap, v)
  {
    forall n | Reachable(heap, v.node, n) ensures JsonNode(heap, n) && !OnCycle(heap, n) {
      var p :| PathTo(heap, v.node, p, n);
      Downwards(heap, rank, p);
      if OnCycle(heap, n) {
        var q :| PathTo(heap, n, q, n) && |q| > 1;
        Downwards(heap, rank, q);
      }
    }
  }

  lemma {:induction false} Downwards(heap: Heap, rank: nat -> nat, p: seq<nat>)
    requires Closed(heap) && IsPath(heap, p) && p[0] in heap
    requires forall a, b | Edge(heap, a, b) :: rank(b) < rank(a)
    ensures p[|p| - 1] in heap
    ensures |p| > 1 ==> rank(p[|p| - 1]) < rank(p[0])
    decreases |p|
  {
    if |p| > 1 {
      assert InHeap(heap, Object(p[1]));
      Downwards(heap, rank, p[1..]);
    }
  }

  /** The call without a path set. */
  method IsJsonValue(heap: Heap, value: Value) returns (ok: bool)
    requires Closed(heap) && InHeap(heap, value)
    ensures ok <==> IsJson(heap, value)
  {
    var search := new Search(heap);
    ok := search.IsJsonValue(value);
    CleanIsJson(heap, value);
  }
}
