/**
 * WorldTransformCalculator: every element's world transform is its local
 * matrix (from its `transforms` list) multiplied on the right by its
 * parent's world transform; roots take the identity as parent.
 *
 * The traversal is depth first, pre-order: an element's world transform is
 * stored before its children are visited. A `transforms` list that is null
 * or not sixteen long makes listToMatrix4f throw, and the exception ends the
 * whole traversal: elements already visited keep their new world transform,
 * the failing element and everything after it keep their old one.
 *
 * `Visit` and `VisitAll` say this on tree values; the methods do it on the
 * element objects and are proved to act as `Visit` and `VisitAll` do.
 */
module WorldTransformCalculator {
  import opened Wrappers
  import opened Matrix
  import opened Model
  import opened TransformUtils

  /**
   * The traversal on a value: the updated tree, and whether it ran to the
   * end (false: the IllegalArgumentException escaped).
   */
  function Visit(node: Option<Tree>, parent: Matrix4f): (r: (Option<Tree>, bool))
    decreases node
    ensures r.0.None? <==> node.None?
  {
    match node
    case None => (None, true)
    case Some(t) =>
      var local := ListToMatrix4f(t.transforms);
      if local.Failure? then (node, false)
      else
        var world := Mul(local.value, parent);
        match t.children
        case NullChildren => (Some(t.(worldTransform := Some(world))), true)
        case Children(cs) =>
          var (cs', ok) := VisitAll(cs, world);
          (Some(t.(worldTransform := Some(world), children := Children(cs'))), ok)
  }

  /** The siblings in order, all with the same parent; stops at the first failure. */
  function VisitAll(nodes: seq<Option<Tree>>, parent: Matrix4f): (r: (seq<Option<Tree>>, bool))
    decreases nodes
    ensures |r.0| == |nodes|
  {
    if nodes == [] then ([], true)
    else
      var (first, ok) := Visit(nodes[0], parent);
      if !ok then ([first] + nodes[1..], false)
      else
        var (rest, ok') := VisitAll(nodes[1..], parent);
        ([first] + rest, ok')
  }

  /** The tree with every world transform cleared: everything the traversal must not change. */
  function Erase(node: Option<Tree>): (r: Option<Tree>)
    decreases node
    ensures r.None? <==> node.None?
  {
    match node
    case None => None
    case Some(t) =>
      match t.children
      case NullChildren => Some(t.(worldTransform := None))
      case Children(cs) => Some(t.(worldTransform := None, children := Children(EraseAll(cs))))
  }

  function EraseAll(nodes: seq<Option<Tree>>): (r: seq<Option<Tree>>)
    decreases nodes
    ensures |r| == |nodes|
  {
    if nodes == [] then [] else [Erase(nodes[0])] + EraseAll(nodes[1..])
  }

  /** Every element reachable through non-null links has a sixteen-number transforms list. */
  predicate WellFormed(node: Option<Tree>)
    decreases node
  {
    match node
    case None => true
    case Some(t) =>
      ListToMatrix4f(t.transforms).Success? &&
      (t.children.Children? ==> AllWellFormed(t.children.entries))
  }

  predicate AllWellFormed(nodes: seq<Option<Tree>>)
    decreases nodes
  {
    nodes == [] || (WellFormed(nodes[0]) && AllWellFormed(nodes[1..]))
  }

  /**
   * Every reachable element's world transform is its local matrix times its
   * parent's world transform, the roots' parent being `parent`.
   */
  predicate Consistent(node: Option<Tree>, parent: Matrix4f)
    decreases node
  {
    match node
    case None => true
    case Some(t) =>
      var local := ListToMatrix4f(t.transforms);
      local.Success? &&
      t.worldTransform == Some(Mul(local.value, parent)) &&
      (t.children.Children? ==> AllConsistent(t.children.entries, Mul(local.value, parent)))
  }

  predicate AllConsistent(nodes: seq<Option<Tree>>, parent: Matrix4f)
    decreases nodes
  {
    nodes == [] || (Consistent(nodes[0], parent) && AllConsistent(nodes[1..], parent))
  }

  /** The traversal changes world transforms and nothing else, whether or not it fails. */
  lemma {:induction false} VisitKeepsAllButWorld(node: Option<Tree>, parent: Matrix4f)
    decreases node
    ensures Erase(Visit(node, parent).0) == Erase(node)
  {
    match node
    case None =>
    case Some(t) =>
      var local := ListToMatrix4f(t.transforms);
      if local.Success? && t.children.Children? {
        VisitAllKeepsAllButWorld(t.children.entries, Mul(local.value, parent));
      }
  }

  lemma {:induction false} VisitAllKeepsAllButWorld(nodes: seq<Option<Tree>>, parent: Matrix4f)
    decreases nodes
    ensures EraseAll(VisitAll(nodes, parent).0) == EraseAll(nodes)
  {
    if nodes != [] {
      VisitKeepsAllButWorld(nodes[0], parent);
      var (first, ok) := Visit(nodes[0], parent);
      if ok {
        VisitAllKeepsAllButWorld(nodes[1..], parent);
        var rest := VisitAll(nodes[1..], parent).0;
        assert ([first] + rest)[1..] == rest;
      } else {
        assert ([first] + nodes[1..])[1..] == nodes[1..];
      }
    }
  }

  /** The traversal runs to the end exactly when every reachable transforms list has sixteen numbers. */
  lemma {:induction false} VisitSucceedsIffWellFormed(node: Option<Tree>, parent: Matrix4f)
    decreases node
    ensures Visit(node, parent).1 <==> WellFormed(node)
  {
    match node
    case None =>
    case Some(t) =>
      var local := ListToMatrix4f(t.transforms);
      if local.Success? && t.children.Children? {
        VisitAllSucceedsIffWellFormed(t.children.entries, Mul(local.value, parent));
      }
  }

  lemma {:induction false} VisitAllSucceedsIffWellFormed(nodes: seq<Option<Tree>>, parent: Matrix4f)
    decreases nodes
    ensures VisitAll(nodes, parent).1 <==> AllWellFormed(nodes)
  {
    if nodes != [] {
      VisitSucceedsIffWellFormed(nodes[0], parent);
      VisitAllSucceedsIffWellFormed(nodes[1..], parent);
    }
  }

  /** A traversal that runs to the end leaves every world transform consistent. */
  lemma {:induction false} VisitEstablishesConsistency(node: Option<Tree>, parent: Matrix4f)
    decreases node
    requires Visit(node, parent).1
    ensures Consistent(Visit(node, parent).0, parent)
  {
    match node
    case None =>
    case Some(t) =>
      var local := ListToMatrix4f(t.transforms);
      if t.children.Children? {
        VisitAllEstablishesConsistency(t.children.entries, Mul(local.value, parent));
      }
  }

  lemma {:induction false} VisitAllEstablishesConsistency(nodes: seq<Option<Tree>>, parent: Matrix4f)
    decreases nodes
    requires VisitAll(nodes, parent).1
    ensures AllConsistent(VisitAll(nodes, parent).0, parent)
  {
    if nodes != [] {
      VisitEstablishesConsistency(nodes[0], parent);
      VisitAllEstablishesConsistency(nodes[1..], parent);
      var r := VisitAll(nodes, parent).0;
      assert r[1..] == VisitAll(nodes[1..], parent).0;
    }
  }

  /** A consistent tree is exactly one the traversal leaves as it is and completes on. */
  lemma {:induction false} ConsistentIsFixedPoint(node: Option<Tree>, parent: Matrix4f)
    decreases node
    ensures Consistent(node, parent) <==> Visit(node, parent) == (node, true)
  {
    match node
    case None =>
    case Some(t) =>
      var local := ListToMatrix4f(t.transforms);
      if local.Success? && t.children.Children? {
        AllConsistentIsFixedPoint(t.children.entries, Mul(local.value, parent));
      }
  }

  lemma {:induction false} AllConsistentIsFixedPoint(nodes: seq<Option<Tree>>, parent: Matrix4f)
    decreases nodes
    ensures AllConsistent(nodes, parent) <==> VisitAll(nodes, parent) == (nodes, true)
  {
    if nodes != [] {
      ConsistentIsFixedPoint(nodes[0], parent);
      AllConsistentIsFixedPoint(nodes[1..], parent);
      var (first, ok) := Visit(nodes[0], parent);
      assert [nodes[0]] + nodes[1..] == nodes;
      if ok {
        var rest := VisitAll(nodes[1..], parent).0;
        if VisitAll(nodes, parent) == (nodes, true) {
          assert ([first] + rest)[0] == first && ([first] + rest)[1..] == rest;
        }
      } else {
        assert ([first] + nodes[1..])[0] == first;
      }
    }
  }

  /** Running the traversal a second time, with the same parent, changes nothing more. */
  lemma {:induction false} VisitIdempotent(node: Option<Tree>, parent: Matrix4f)
    decreases node
    ensures Visit(Visit(node, parent).0, parent) == Visit(node, parent)
  {
    match node
    case None =>
    case Some(t) =>
      var local := ListToMatrix4f(t.transforms);
      if local.Success? && t.children.Children? {
        VisitAllIdempotent(t.children.entries, Mul(local.value, parent));
      }
  }

  lemma {:induction false} VisitAllIdempotent(nodes: seq<Option<Tree>>, parent: Matrix4f)
    decreases nodes
    ensures VisitAll(VisitAll(nodes, parent).0, parent) == VisitAll(nodes, parent)
  {
    if nodes != [] {
      VisitIdempotent(nodes[0], parent);
      var (first, ok) := Visit(nodes[0], parent);
      if ok {
        VisitAllIdempotent(nodes[1..], parent);
        var rest := VisitAll(nodes[1..], parent).0;
        assert ([first] + rest)[0] == first && ([first] + rest)[1..] == rest;
      } else {
        assert ([first] + nodes[1..])[0] == first && ([first] + nodes[1..])[1..] == nodes[1..];
      }
    }
  }

  /**
   * A failed traversal stops at the first ill-formed sibling k: the siblings
   * before it are fully visited, k itself is partly visited, and the
   * siblings after it are untouched.
   */
  lemma {:induction false} VisitAllStopsAtFirstFailure(nodes: seq<Option<Tree>>, p: Matrix4f)
    decreases nodes
    requires !VisitAll(nodes, p).1
    ensures exists k :: 0 <= k < |nodes| && FailsAt(nodes, p, k)
  {
    VisitSucceedsIffWellFormed(nodes[0], p);
    var (first, ok) := Visit(nodes[0], p);
    if !ok {
      assert nodes[..0] == [];
      assert VisitAll(nodes[..0], p).0 + [first] + nodes[1..] == [first] + nodes[1..];
      assert FailsAt(nodes, p, 0);
    } else {
      VisitAllStopsAtFirstFailure(nodes[1..], p);
      var k :| 0 <= k < |nodes[1..]| && FailsAt(nodes[1..], p, k);
      FailsAtShift(nodes, p, k);
    }
  }

  /** A failure at sibling k of the tail is a failure at sibling k + 1 of the whole list. */
  lemma FailsAtShift(nodes: seq<Option<Tree>>, p: Matrix4f, k: nat)
    requires 0 < |nodes| && WellFormed(nodes[0]) && Visit(nodes[0], p).1
    requires k < |nodes| - 1 && FailsAt(nodes[1..], p, k)
    ensures FailsAt(nodes, p, k + 1)
  {
    var first := Visit(nodes[0], p).0;
    assert nodes[1..][..k] == nodes[1..k + 1];
    assert nodes[..k + 1] == [nodes[0]] + nodes[1..k + 1];
    assert nodes[1..][k + 1..] == nodes[k + 2..];
    assert nodes[1..][k] == nodes[k + 1];
    var a := VisitAll(nodes[1..k + 1], p).0;
    var v := Visit(nodes[k + 1], p).0;
    assert VisitAll(nodes, p) == ([first] + (a + [v] + nodes[k + 2..]), false);
    assert VisitAll(nodes[..k + 1], p).0 == [first] + a by {
      assert nodes[..k + 1][0] == nodes[0] && nodes[..k + 1][1..] == nodes[1..k + 1];
    }
    assert [first] + (a + [v] + nodes[k + 2..]) == [first] + a + [v] + nodes[k + 2..];
    assert AllWellFormed(nodes[..k + 1]) by {
      assert nodes[..k + 1][0] == nodes[0] && nodes[..k + 1][1..] == nodes[1..k + 1];
    }
  }

  /** Sibling k is the first whose subtree is ill-formed, and the result is as described above. */
  ghost predicate FailsAt(nodes: seq<Option<Tree>>, p: Matrix4f, k: nat)
    requires k < |nodes|
  {
    AllWellFormed(nodes[..k]) && !WellFormed(nodes[k]) &&
    VisitAll(nodes, p) == (VisitAll(nodes[..k], p).0 + [Visit(nodes[k], p).0] + nodes[k + 1..], false)
  }

  /** A root's world transform is its own local matrix: the roots' parent is the identity. */
  lemma RootWorldIsLocal(roots: seq<Option<Tree>>, i: nat)
    requires i < |roots| && roots[i].Some?
    requires VisitAll(roots, Identity()).1
    ensures ListToMatrix4f(roots[i].value.transforms).Success?
    ensures VisitAll(roots, Identity()).0[i].Some?
    ensures VisitAll(roots, Identity()).0[i].value.worldTransform
         == Some(ListToMatrix4f(roots[i].value.transforms).value)
  {
    VisitAllEstablishesConsistency(roots, Identity());
    VisitAllKeepsAllButWorld(roots, Identity());
    var r := VisitAll(roots, Identity()).0;
    AllConsistentAt(r, Identity(), i);
    EraseAllAt(r, roots, i);
    MulIdentityRight(ListToMatrix4f(roots[i].value.transforms).value);
  }

  lemma {:induction false} AllConsistentAt(nodes: seq<Option<Tree>>, parent: Matrix4f, i: nat)
    decreases i
    requires i < |nodes| && AllConsistent(nodes, parent)
    ensures Consistent(nodes[i], parent)
  {
    if i > 0 {
      AllConsistentAt(nodes[1..], parent, i - 1);
    }
  }

  lemma {:induction false} EraseAllAt(a: seq<Option<Tree>>, b: seq<Option<Tree>>, i: nat)
    decreases i
    requires i < |a| == |b| && EraseAll(a) == EraseAll(b)
    ensures Erase(a[i]) == Erase(b[i])
    ensures a[i].Some? ==> a[i].value.transforms == b[i].value.transforms
  {
    if i == 0 {
      assert EraseAll(a)[0] == Erase(a[0]);
      assert EraseAll(b)[0] == Erase(b[0]);
    } else {
      assert EraseAll(a)[1..] == EraseAll(a[1..]);
      assert EraseAll(b)[1..] == EraseAll(b[1..]);
      EraseAllAt(a[1..], b[1..], i - 1);
    }
  }

  /** A matrix as the scene format writes it: its sixteen slots read row by row. */
  function RowMajorView(m: Matrix4f): (v: Matrix4f)
    ensures v == Transpose(m)
  {
    FromRowMajor(Slots(m))
  }

  /**
   * In the scene format's row-by-row reading, an element's world transform
   * is its parent's world transform times its own local transform: the
   * product local * parent on the stored matrices is parent * local on the
   * matrices as written.
   */
  lemma WorldIsParentTimesLocalRowMajor(t: Tree, parent: Matrix4f)
    requires Consistent(Some(t), parent)
    ensures t.transforms.Some? && |t.transforms.value| == 16 && t.worldTransform.Some?
    ensures RowMajorView(t.worldTransform.value)
         == Mul(RowMajorView(parent), FromRowMajor(t.transforms.value))
  {
    var l := t.transforms.value;
    var local := ListToMatrix4f(t.transforms).value;
    assert local == FromSlots(l);
    FromRowMajorIsTransposedSlots(l);
    TransposeOfProduct(local, parent);
  }

  /**
   * A root with local list l1 and a single child with local list l2: after a
   * completed traversal the child's world transform, as written, is
   * l1 * l2, both read row by row.
   */
  lemma ChildOfRootComposes(root: Tree, child: Tree)
    requires root.children == Children([Some(child)])
    requires VisitAll([Some(root)], Identity()).1
    ensures root.transforms.Some? && |root.transforms.value| == 16
    ensures child.transforms.Some? && |child.transforms.value| == 16
    ensures VisitAll([Some(root)], Identity()).0[0].Some?
    ensures var r := VisitAll([Some(root)], Identity()).0[0].value;
      r.children.Children? && |r.children.entries| == 1 && r.children.entries[0].Some? &&
      r.children.entries[0].value.worldTransform.Some? &&
      RowMajorView(r.children.entries[0].value.worldTransform.value)
      == Mul(FromRowMajor(root.transforms.value), FromRowMajor(child.transforms.value))
  {
    var l1 := ListToMatrix4f(root.transforms).value;
    var w1 := Mul(l1, Identity());
    MulIdentityRight(l1);
    var (cs', ok) := VisitAll([Some(child)], w1);
    assert Visit(Some(child), w1).1;
    var c := Visit(Some(child), w1).0.value;
    assert cs' == [Some(c)];
    VisitEstablishesConsistency(Some(child), w1);
    WorldIsParentTimesLocalRowMajor(c, w1);
    assert RowMajorView(w1) == FromRowMajor(root.transforms.value) by {
      FromRowMajorIsTransposedSlots(root.transforms.value);
    }
  }

  /**
   * calculateWorldTransforms: visits the roots in order with the identity as
   * parent; a null or empty list does nothing. Only elements below the
   * roots may change. `ok` is false when listToMatrix4f threw
   * (the exception escapes to the caller); `repr` holds every element below
   * the roots, and possibly others, which are not written.
   */
  method CalculateWorldTransforms(rootElements: Option<seq<Element?>>, ghost repr: set<Element>)
    returns (ok: bool)
    requires rootElements.Some? ==> ForestValid(rootElements.value, repr)
    modifies (if rootElements.None? then {} else Footprint(rootElements.value))`worldTransform
    ensures rootElements.None? || rootElements.value == [] ==> ok && unchanged(repr)
    ensures rootElements.Some? ==> ForestValid(rootElements.value, repr)
    ensures rootElements.Some? ==>
      (ForestModel(rootElements.value, repr), ok)
      == VisitAll(old(ForestModel(rootElements.value, repr)), Identity())
  {
    if rootElements.None? {
      return true;
    }
    ghost var reachable := Footprint(rootElements.value);
    ForestWithin(rootElements.value, repr);
    var initialParentTransform := Identity();
    ok := CalculateAll(rootElements.value, initialParentTransform, reachable);
    ForestWiden(rootElements.value, reachable, repr);
  }

  /** A valid forest lies within the elements reachable from it, and means the same there. */
  lemma ForestWithin(cs: seq<Element?>, repr: set<Element>)
    requires ForestValid(cs, repr)
    ensures Footprint(cs) <= repr
    ensures ForestValid(cs, Footprint(cs)) && ForestModel(cs, Footprint(cs)) == ForestModel(cs, repr)
  {
    FootprintWithin(cs, repr);
    ForestWiden(cs, Footprint(cs), repr);
  }

  /** Enlarging the set a forest is valid in keeps it valid and keeps its value. */
  lemma ForestWiden(cs: seq<Element?>, small: set<Element>, big: set<Element>)
    requires small <= big
    requires forall i :: 0 <= i < |cs| && cs[i] != null ==> cs[i] in small && cs[i].Repr <= small && cs[i].Valid()
    requires forall i, j :: 0 <= i < j < |cs| && cs[i] != null && cs[j] != null ==> cs[i].Repr !! cs[j].Repr
    ensures ForestValid(cs, small) && ForestValid(cs, big)
    ensures ForestModel(cs, small) == ForestModel(cs, big)
  {
  }

  /**
   * calculateTransformRecursive: stores the element's local matrix times
   * the parent's world transform as its world transform, then visits its
   * children with that product as their parent.
   */
  method CalculateTransformRecursive(element: Element?, parentWorldTransform: Matrix4f)
    returns (ok: bool)
    requires element != null ==> element.Valid()
    modifies (if element == null then {} else element.Repr)`worldTransform
    decreases if element == null then {} else element.Repr, 0
    ensures element == null ==> ok
    ensures element != null ==> element.Valid() && element.Repr == old(element.Repr)
    ensures element != null ==>
      (Some(element.Model()), ok) == Visit(Some(old(element.Model())), parentWorldTransform)
  {
    if element == null {
      return true;
    }
    var localMatrix := ListToMatrix4f(element.transforms);
    if localMatrix.Failure? {
      return false;
    }
    var currentElementWorldTransform := Mul(localMatrix.value, parentWorldTransform);
    element.SetWorldTransform(Some(currentElementWorldTransform));
    ok := true;
    if element.children.Some? {
      ok := CalculateAll(element.children.value, currentElementWorldTransform, element.Repr - {element});
      FootprintUnchanged(element.children.value);
    }
  }

  /**
   * The loop over a list of siblings, each visited with the same parent; it
   * stops at the first element whose visit throws.
   */
  method CalculateAll(elements: seq<Element?>, parentWorldTransform: Matrix4f, ghost repr: set<Element>)
    returns (ok: bool)
    requires ForestValid(elements, repr)
    modifies repr`worldTransform
    decreases repr, 2
    ensures ForestValid(elements, repr)
    ensures (ForestModel(elements, repr), ok) == VisitAll(old(ForestModel(elements, repr)), parentWorldTransform)
  {
    ghost var before := ForestModel(elements, repr);
    ghost var p := parentWorldTransform;
    ok := true;
    var i := 0;
    VisitAllFromStart(before, p);
    while i < |elements|
      invariant 0 <= i <= |elements|
      invariant ok
      invariant ForestValid(elements, repr)
      invariant VisitAllProgress(before, p, ForestModel(elements, repr), i)
    {
      ghost var current := ForestModel(elements, repr);
      ok := CalculateEntry(elements, i, parentWorldTransform, repr);
      VisitAllStep(before, p, current, ForestModel(elements, repr), i, ok);
      if !ok {
        return;
      }
      i := i + 1;
    }
    VisitAllAtEnd(before, p, ForestModel(elements, repr));
  }

  /** One turn of the sibling loop: entry i is visited, and no other entry changes. */
  method CalculateEntry(elements: seq<Element?>, i: nat, parentWorldTransform: Matrix4f, ghost repr: set<Element>)
    returns (ok: bool)
    requires i < |elements| && ForestValid(elements, repr)
    modifies (if elements[i] == null then {} else elements[i].Repr)`worldTransform
    decreases repr, 1
    ensures ForestValid(elements, repr)
    ensures ForestModel(elements, repr)
         == old(ForestModel(elements, repr))[i := Visit(old(ForestModel(elements, repr))[i], parentWorldTransform).0]
    ensures ok == Visit(old(ForestModel(elements, repr))[i], parentWorldTransform).1
  {
    ghost var current := ForestModel(elements, repr);
    ok := CalculateTransformRecursive(elements[i], parentWorldTransform);
    ghost var next := ForestModel(elements, repr);
    assert forall j :: 0 <= j < |elements| && j != i ==> next[j] == current[j];
  }

  /**
   * The loop's invariant: the first i entries of `now` are what VisitAll
   * produced for them, the rest are still as in `before`, and all of them
   * visited from here on give VisitAll's result on the whole list.
   */
  ghost predicate VisitAllProgress(before: seq<Option<Tree>>, p: Matrix4f, now: seq<Option<Tree>>, i: nat)
  {
    i <= |before| == |now| &&
    now[i..] == before[i..] &&
    VisitAll(before, p).0 == now[..i] + VisitAll(before[i..], p).0 &&
    VisitAll(before, p).1 == VisitAll(before[i..], p).1
  }

  lemma VisitAllFromStart(before: seq<Option<Tree>>, p: Matrix4f)
    ensures VisitAllProgress(before, p, before, 0)
  {
    assert before[0..] == before;
    assert before[..0] + VisitAll(before, p).0 == VisitAll(before, p).0;
  }

  /** What VisitAll does at entry i, in terms of the entries after it. */
  lemma VisitAllUnfold(before: seq<Option<Tree>>, p: Matrix4f, i: nat)
    requires i < |before|
    ensures Visit(before[i], p).1 ==>
      VisitAll(before[i..], p) == ([Visit(before[i], p).0] + VisitAll(before[i + 1..], p).0, VisitAll(before[i + 1..], p).1)
    ensures !Visit(before[i], p).1 ==>
      VisitAll(before[i..], p) == ([Visit(before[i], p).0] + before[i + 1..], false)
  {
    assert before[i..][0] == before[i];
    assert before[i..][1..] == before[i + 1..];
  }

  /** Visiting entry i, which changes that entry alone, moves the loop on or ends it. */
  lemma VisitAllStep(before: seq<Option<Tree>>, p: Matrix4f, current: seq<Option<Tree>>,
                     next: seq<Option<Tree>>, i: nat, ok: bool)
    requires VisitAllProgress(before, p, current, i) && i < |before|
    requires next == current[i := Visit(current[i], p).0] && ok == Visit(current[i], p).1
    ensures ok ==> VisitAllProgress(before, p, next, i + 1)
    ensures !ok ==> VisitAll(before, p) == (next, false)
  {
    assert current[i] == current[i..][0] == before[i..][0] == before[i];
    VisitAllUnfold(before, p, i);
    var rest := VisitAll(before[i + 1..], p).0;
    Splice(current, next, before, i, rest);
  }

  /** Sequence bookkeeping for one loop step: entry i replaced, the rest as before. */
  lemma Splice<T>(current: seq<T>, next: seq<T>, before: seq<T>, i: nat, rest: seq<T>)
    requires |current| == |next| == |before| && i < |current|
    requires current[i..] == before[i..]
    requires next == current[i := next[i]]
    ensures next[i + 1..] == before[i + 1..]
    ensures current[..i] + ([next[i]] + rest) == next[..i + 1] + rest
    ensures next == current[..i] + ([next[i]] + before[i + 1..])
  {
    assert current[i + 1..] == current[i..][1..];
    assert next[..i + 1] == current[..i] + [next[i]];
  }

  lemma VisitAllAtEnd(before: seq<Option<Tree>>, p: Matrix4f, now: seq<Option<Tree>>)
    requires VisitAllProgress(before, p, now, |before|)
    ensures VisitAll(before, p) == (now, true)
  {
    assert now[..|before|] == now;
    assert before[|before|..] == [];
    assert now + [] == now;
  }
}
