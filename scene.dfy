/**
 * The loaded LDraw scene as a tree of three.js objects, what disposing it
 * releases, and the index-based visibility rule of step mode.
 */
module Scene {
  import opened Wrappers

  /**
   * A geometry or material slot of an object: either a resource with a
   * `dispose` method (named by `id`), or nothing that can be disposed
   * (the field is missing or null, or the object has no `dispose`).
   */
  datatype Slot = Inert | Disposable(id: nat)

  /** An object's `material`: absent, one material, or an array of them. */
  datatype Material = NoMaterial | SingleMaterial(slot: Slot) | MaterialArray(slots: seq<Slot>)

  /** A `THREE.Object3D`: its resources, its `visible` flag and its ordered children. */
  datatype Node = Node(geometry: Slot, material: Material, visible: bool, children: seq<Node>)

  function SlotDisposals(s: Slot): seq<nat> {
    if s.Disposable? then [s.id] else []
  }

  function SlotsDisposals(ss: seq<Slot>): seq<nat> {
    if ss == [] then [] else SlotDisposals(ss[0]) + SlotsDisposals(ss[1..])
  }

  /** A material array disposes exactly its disposable elements. */
  lemma {:induction false} SlotsDisposalsMembers(ss: seq<Slot>, id: nat)
    ensures id in SlotsDisposals(ss) <==> exists k :: 0 <= k < |ss| && ss[k] == Disposable(id)
    decreases |ss|
  {
    if ss != [] {
      SlotsDisposalsMembers(ss[1..], id);
      if id in SlotsDisposals(ss[1..]) {
        var k :| 0 <= k < |ss[1..]| && ss[1..][k] == Disposable(id);
        assert ss[k + 1] == Disposable(id);
      }
      if exists k :: 0 <= k < |ss| && ss[k] == Disposable(id) {
        var k :| 0 <= k < |ss| && ss[k] == Disposable(id);
        if k > 0 {
          assert ss[1..][k - 1] == Disposable(id);
        }
      }
    }
  }

  /** The `dispose` calls made for one object: its geometry, then its material or each element of its material array in order. */
  function OwnDisposals(n: Node): seq<nat> {
    SlotDisposals(n.geometry)
    + match n.material
      case NoMaterial => []
      case SingleMaterial(s) => SlotDisposals(s)
      case MaterialArray(ss) => SlotsDisposals(ss)
  }

  /** All `dispose` calls of a traversal of `n`: `n` first, then each child's subtree in order, as `Object3D.traverse` visits them. */
  function Disposals(n: Node): seq<nat>
    decreases n, 1
  {
    OwnDisposals(n) + ForestDisposals(n.children)
  }

  function ForestDisposals(ns: seq<Node>): seq<nat>
    decreases ns, 0
  {
    if ns == [] then [] else Disposals(ns[0]) + ForestDisposals(ns[1..])
  }

  lemma {:induction false} ForestDisposalsAppend(ns: seq<Node>, n: Node)
    ensures ForestDisposals(ns + [n]) == ForestDisposals(ns) + Disposals(n)
    decreases |ns|
  {
    if ns == [] {
      assert [] + [n] == [n];
    } else {
      assert (ns + [n])[1..] == ns[1..] + [n];
      ForestDisposalsAppend(ns[1..], n);
    }
  }

  /** The traversal callback on one object: dispose its geometry, then its material or each element of a material array. */
  method DisposeOwn(n: Node) returns (calls: seq<nat>)
    ensures calls == OwnDisposals(n)
  {
    calls := SlotDisposals(n.geometry);
    match n.material {
      case NoMaterial =>
      case SingleMaterial(s) =>
        calls := calls + SlotDisposals(s);
      case MaterialArray(ss) =>
        ghost var geometryCalls := calls;
        for k := 0 to |ss|
          invariant calls == geometryCalls + SlotsDisposals(ss[..k])
        {
          SlotsDisposalsAppend(ss[..k], ss[k]);
          assert ss[..k + 1] == ss[..k] + [ss[k]];
          calls := calls + SlotDisposals(ss[k]);
        }
        assert ss[..|ss|] == ss;
    }
  }

  /** `root.traverse(...)` disposing each object's resources; the result is the sequence of `dispose` calls made, in order. */
  method DisposeTree(n: Node) returns (calls: seq<nat>)
    ensures calls == Disposals(n)
    decreases n
  {
    var children := n.children;
    var own := DisposeOwn(n);
    calls := own;
    for i := 0 to |children|
      invariant calls == own + ForestDisposals(children[..i])
    {
      var sub := DisposeTree(children[i]);
      ForestDisposalsAppend(children[..i], children[i]);
      assert children[..i + 1] == children[..i] + [children[i]];
      calls := calls + sub;
    }
    assert children[..|children|] == children;
  }

  lemma {:induction false} SlotsDisposalsAppend(ss: seq<Slot>, s: Slot)
    ensures SlotsDisposals(ss + [s]) == SlotsDisposals(ss) + SlotDisposals(s)
    decreases |ss|
  {
    if ss == [] {
      assert [] + [s] == [s];
    } else {
      assert (ss + [s])[1..] == ss[1..] + [s];
      SlotsDisposalsAppend(ss[1..], s);
    }
  }

  /** `disposeObject3D`: a null root is a no-op. */
  method DisposeObject3D(root: Option<Node>) returns (calls: seq<nat>)
    ensures root == None ==> calls == []
    ensures root.Some? ==> calls == Disposals(root.value)
  {
    calls := [];
    if root.Some? {
      calls := DisposeTree(root.value);
    }
  }

  /** `d` is `n` or one of its descendants. */
  ghost predicate InTree(d: Node, n: Node)
    decreases n
  {
    d == n || exists k :: 0 <= k < |n.children| && InTree(d, n.children[k])
  }

  lemma {:induction false} ForestContains(ns: seq<Node>, k: nat)
    requires k < |ns|
    ensures forall id :: id in Disposals(ns[k]) ==> id in ForestDisposals(ns)
    decreases ns
  {
    if k > 0 {
      ForestContains(ns[1..], k - 1);
    }
  }

  /** Disposal reaches every object of the tree: each one's own resources are among the calls. */
  lemma {:induction false} DisposesEveryNode(n: Node, d: Node)
    requires InTree(d, n)
    ensures forall id :: id in OwnDisposals(d) ==> id in Disposals(n)
    decreases n
  {
    if d != n {
      var k :| 0 <= k < |n.children| && InTree(d, n.children[k]);
      DisposesEveryNode(n.children[k], d);
      ForestContains(n.children, k);
    }
  }

  lemma {:induction false} ForestOrigin(ns: seq<Node>, id: nat)
    requires id in ForestDisposals(ns)
    ensures exists k :: 0 <= k < |ns| && id in Disposals(ns[k])
    decreases ns
  {
    if id !in Disposals(ns[0]) {
      ForestOrigin(ns[1..], id);
      var k :| 0 <= k < |ns[1..]| && id in Disposals(ns[1..][k]);
      assert id in Disposals(ns[k + 1]);
    }
  }

  /** And nothing else is disposed: every call belongs to some object of the tree. */
  lemma {:induction false} DisposesOnlyTree(n: Node, id: nat)
    requires id in Disposals(n)
    ensures exists d :: InTree(d, n) && id in OwnDisposals(d)
    decreases n
  {
    if id !in OwnDisposals(n) {
      ForestOrigin(n.children, id);
      var k :| 0 <= k < |n.children| && id in Disposals(n.children[k]);
      DisposesOnlyTree(n.children[k], id);
      var d :| InTree(d, n.children[k]) && id in OwnDisposals(d);
      assert InTree(d, n);
    } else {
      assert InTree(n, n);
    }
  }

  // ---------------------------------------------------------------------
  // Step mode
  // ---------------------------------------------------------------------

  /** The group after step `currentStep`: top-level child `i` is visible iff `i < currentStep`; nothing else changes. */
  function WithStepVisibility(g: Node, currentStep: int): (r: Node)
    ensures r.geometry == g.geometry && r.material == g.material && r.visible == g.visible
    ensures |r.children| == |g.children|
    ensures forall i :: 0 <= i < |g.children| ==>
              r.children[i] == g.children[i].(visible := i < currentStep)
  {
    g.(children := seq(|g.children|, i requires 0 <= i < |g.children| => g.children[i].(visible := i < currentStep)))
  }

  /** The step-mode effect's `forEach` over the group's children. */
  method ApplyStepVisibility(g: Node, currentStep: int) returns (r: Node)
    ensures r == WithStepVisibility(g, currentStep)
  {
    var children := g.children;
    for i := 0 to |children|
      invariant |children| == |g.children|
      invariant forall j :: 0 <= j < i ==> children[j] == g.children[j].(visible := j < currentStep)
      invariant forall j :: i <= j < |children| ==> children[j] == g.children[j]
    {
      children := children[i := children[i].(visible := i < currentStep)];
    }
    r := g.(children := children);
  }

  /** How many of the given objects are visible. */
  function VisibleCount(ns: seq<Node>): (c: nat)
    ensures c <= |ns|
  {
    if ns == [] then 0 else VisibleCount(ns[..|ns| - 1]) + (if ns[|ns| - 1].visible then 1 else 0)
  }

  function Clamp(k: int, lo: int, hi: int): int
    requires lo <= hi
  {
    if k < lo then lo else if k > hi then hi else k
  }

  lemma {:induction false} VisiblePrefix(ns: seq<Node>, k: int)
    requires forall i :: 0 <= i < |ns| ==> (ns[i].visible <==> i < k)
    ensures VisibleCount(ns) == Clamp(k, 0, |ns|)
    decreases |ns|
  {
    if ns != [] {
      VisiblePrefix(ns[..|ns| - 1], k);
    }
  }

  /**
   * Step `k` shows the first `k` top-level parts, clamped to [0, |children|]:
   * step 1 shows one part, a step at or above the part count shows all.
   */
  lemma StepShowsFirstParts(g: Node, k: int)
    ensures VisibleCount(WithStepVisibility(g, k).children) == Clamp(k, 0, |g.children|)
  {
    VisiblePrefix(WithStepVisibility(g, k).children, k);
  }

  /** Step visibility only touches the `visible` flags, so it releases the same resources. */
  lemma {:induction false} StepKeepsResources(g: Node, k: int)
    ensures Disposals(WithStepVisibility(g, k)) == Disposals(g)
  {
    var r := WithStepVisibility(g, k);
    SameForest(r.children, g.children);
  }

  lemma {:induction false} SameForest(a: seq<Node>, b: seq<Node>)
    requires |a| == |b|
    requires forall i :: 0 <= i < |a| ==> a[i] == b[i].(visible := a[i].visible)
    ensures ForestDisposals(a) == ForestDisposals(b)
    decreases |a|
  {
    if a != [] {
      SameForest(a[1..], b[1..]);
      assert OwnDisposals(a[0]) == OwnDisposals(b[0]);
      assert a[0].children == b[0].children;
    }
  }
}
