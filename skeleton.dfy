/**
 * The skeleton builder (MHX2Model::BuildSkeleton, GetBone, GetBoneMatrix):
 * the parsed bone records become a tree of IBone objects, each bone linked to
 * the first bone of its parent's name found by a preorder walk from the root.
 *
 * The bones live in an arena: a bone's `parent` and `children` are indices
 * into the skeleton's `nodes`, in place of the source's pointers, and a bone
 * created by the builder gets the next free index.
 */
module SkeletonBuilder {
  import opened Wrappers
  import opened Math3D
  import opened ModelSpec

  /** An IBone: its name, its parent, the bones it owns, and its pose data. */
  datatype BoneNode = BoneNode(
    name: string, parent: Option<nat>, children: seq<nat>,
    head: Vector3, tail: Vector3, roll: real, matrix: Matrix4x4)

  /** The bone arena of an ISkeleton and its root bone (m_pRoot). */
  datatype Tree = Tree(nodes: seq<BoneNode>, root: Option<nat>)

  /** The outcome of building: whether it succeeded and the tree it left. */
  datatype Built = Built(ok: bool, tree: Tree)

  /** Every child index lies after the bone listing it and inside the arena, so the bone graph has no cycle. */
  ghost predicate Ordered(nodes: seq<BoneNode>) {
    forall i, k :: 0 <= i < |nodes| && 0 <= k < |nodes[i].children| ==> i < nodes[i].children[k] < |nodes|
  }

  /**
   * The shape the builder keeps: the arena is ordered; every child's parent
   * is the bone listing it; every bone with a parent is listed by it; the
   * root is bone 0 and the only bone without a parent; no root means no bone.
   */
  ghost predicate WellFormed(t: Tree) {
    && Ordered(t.nodes)
    && (forall i, k :: 0 <= i < |t.nodes| && 0 <= k < |t.nodes[i].children| ==>
          t.nodes[t.nodes[i].children[k]].parent == Some(i))
    && (forall i :: 0 <= i < |t.nodes| && t.nodes[i].parent.Some? ==>
          t.nodes[i].parent.value < |t.nodes| && i in t.nodes[t.nodes[i].parent.value].children)
    && (t.root.None? <==> t.nodes == [])
    && (t.root.Some? ==> t.root.value == 0)
    && (forall i :: 0 <= i < |t.nodes| ==> (t.nodes[i].parent.None? <==> i == 0))
  }

  /** The bones of the subtree rooted at b, in preorder: the bone, then each child's subtree in order. */
  ghost function PreOrder(nodes: seq<BoneNode>, b: nat): (r: seq<nat>)
    requires Ordered(nodes) && b < |nodes|
    decreases |nodes| - b, 1
    ensures r != [] && r[0] == b
    ensures forall m :: 0 <= m < |r| ==> b <= r[m] < |nodes|
  {
    [b] + PreOrderFrom(nodes, b, 0)
  }

  /** The subtrees of the children of b from the k-th on, in preorder. */
  ghost function PreOrderFrom(nodes: seq<BoneNode>, b: nat, k: nat): (r: seq<nat>)
    requires Ordered(nodes) && b < |nodes| && k <= |nodes[b].children|
    decreases |nodes| - b, 0, |nodes[b].children| - k
    ensures forall m :: 0 <= m < |r| ==> b < r[m] < |nodes|
  {
    if k == |nodes[b].children| then []
    else PreOrder(nodes, nodes[b].children[k]) + PreOrderFrom(nodes, b, k + 1)
  }

  /** The first bone of s named `name`. */
  ghost function FirstNamed(nodes: seq<BoneNode>, s: seq<nat>, name: string): (r: Option<nat>)
    requires forall m :: 0 <= m < |s| ==> s[m] < |nodes|
    ensures r.Some? ==> r.value in s && nodes[r.value].name == name
    ensures r.None? <==> forall m :: 0 <= m < |s| ==> nodes[s[m]].name != name
  {
    if s == [] then None
    else if nodes[s[0]].name == name then Some(s[0])
    else FirstNamed(nodes, s[1..], name)
  }

  /** Searching a concatenation searches the first part, then the second. */
  lemma {:induction false} FirstNamedAppend(nodes: seq<BoneNode>, a: seq<nat>, b: seq<nat>, name: string)
    requires forall m :: 0 <= m < |a| ==> a[m] < |nodes|
    requires forall m :: 0 <= m < |b| ==> b[m] < |nodes|
    ensures FirstNamed(nodes, a + b, name) ==
      if FirstNamed(nodes, a, name).Some? then FirstNamed(nodes, a, name) else FirstNamed(nodes, b, name)
    decreases |a|
  {
    if a != [] {
      assert (a + b)[0] == a[0] && (a + b)[1..] == a[1..] + b;
      FirstNamedAppend(nodes, a[1..], b, name);
    } else {
      assert a + b == b;
    }
  }

  /** The match found first is preceded in s only by bones of other names. */
  lemma {:induction false} FirstNamedIsFirst(nodes: seq<BoneNode>, s: seq<nat>, name: string)
    requires forall m :: 0 <= m < |s| ==> s[m] < |nodes|
    requires FirstNamed(nodes, s, name).Some?
    ensures exists k ::
      0 <= k < |s| && s[k] == FirstNamed(nodes, s, name).value && (forall m :: 0 <= m < k ==> nodes[s[m]].name != name)
    decreases |s|
  {
    if nodes[s[0]].name != name {
      FirstNamedIsFirst(nodes, s[1..], name);
      var k :| 0 <= k < |s[1..]| && s[1..][k] == FirstNamed(nodes, s[1..], name).value &&
        forall m :: 0 <= m < k ==> nodes[s[1..][m]].name != name;
      assert s[k + 1] == s[1..][k];
      assert forall m :: 0 <= m < k + 1 ==> nodes[s[m]].name != name by {
        forall m | 0 <= m < k + 1 ensures nodes[s[m]].name != name {
          if m > 0 {
            assert s[m] == s[1..][m - 1];
          }
        }
      }
    } else {
      assert s[0] == FirstNamed(nodes, s, name).value;
    }
  }

  /**
   * GetBone: the bone named `name` in the subtree rooted at `bone`, searched
   * in preorder; nothing for a null bone or when no bone of the subtree has
   * that name.
   */
  method GetBone(nodes: seq<BoneNode>, name: string, bone: Option<nat>) returns (r: Option<nat>)
    requires Ordered(nodes) && (bone.Some? ==> bone.value < |nodes|)
    decreases if bone.Some? then |nodes| - bone.value else 0
    ensures bone.None? ==> r.None?
    ensures bone.Some? ==> r == FirstNamed(nodes, PreOrder(nodes, bone.value), name)
  {
    if bone.None? {
      return None;
    }
    var b := bone.value;
    if nodes[b].name == name {
      return bone;
    }
    assert PreOrder(nodes, b)[1..] == PreOrderFrom(nodes, b, 0);
    var count := |nodes[b].children|;
    var i := 0;
    while i < count
      invariant i <= count
      invariant FirstNamed(nodes, PreOrder(nodes, b), name) == FirstNamed(nodes, PreOrderFrom(nodes, b, i), name)
    {
      var child := GetBone(nodes, name, Some(nodes[b].children[i]));
      FirstNamedAppend(nodes, PreOrder(nodes, nodes[b].children[i]), PreOrderFrom(nodes, b, i + 1), name);
      if child.Some? {
        return child;
      }
      i := i + 1;
    }
    return None;
  }

  /** A child of a bone of the subtree is in the subtree. */
  lemma {:induction false} ChildInPreOrder(nodes: seq<BoneNode>, b: nat, p: nat, k: nat)
    requires Ordered(nodes) && b < |nodes| && p < |nodes| && k < |nodes[p].children|
    requires p in PreOrder(nodes, b)
    ensures nodes[p].children[k] in PreOrder(nodes, b)
    decreases |nodes| - b, 1
  {
    if p == b {
      ChildListed(nodes, b, 0, k);
    } else {
      assert PreOrder(nodes, b) == [b] + PreOrderFrom(nodes, b, 0);
      ChildInPreOrderFrom(nodes, b, 0, p, k);
    }
  }

  lemma {:induction false} ChildInPreOrderFrom(nodes: seq<BoneNode>, b: nat, j: nat, p: nat, k: nat)
    requires Ordered(nodes) && b < |nodes| && j <= |nodes[b].children| && p < |nodes| && k < |nodes[p].children|
    requires p in PreOrderFrom(nodes, b, j)
    ensures nodes[p].children[k] in PreOrderFrom(nodes, b, j)
    decreases |nodes| - b, 0, |nodes[b].children| - j
  {
    var c := nodes[b].children[j];
    if p in PreOrder(nodes, c) {
      ChildInPreOrder(nodes, c, p, k);
    } else {
      ChildInPreOrderFrom(nodes, b, j + 1, p, k);
    }
  }

  /** The k-th child of b starts its own subtree inside the children's walk. */
  lemma {:induction false} ChildListed(nodes: seq<BoneNode>, b: nat, j: nat, k: nat)
    requires Ordered(nodes) && b < |nodes| && j <= k < |nodes[b].children|
    ensures nodes[b].children[k] in PreOrderFrom(nodes, b, j)
    decreases k - j
  {
    if j < k {
      ChildListed(nodes, b, j + 1, k);
    } else {
      assert PreOrder(nodes, nodes[b].children[k])[0] == nodes[b].children[k];
    }
  }

  /** Every bone of a well-formed tree is reached by the walk from its root. */
  lemma {:induction false} AllReachable(t: Tree, i: nat)
    requires WellFormed(t) && i < |t.nodes|
    ensures i in PreOrder(t.nodes, 0)
    decreases i
  {
    if i != 0 {
      var p := t.nodes[i].parent.value;
      var k :| 0 <= k < |t.nodes[p].children| && t.nodes[p].children[k] == i;
      AllReachable(t, p);
      ChildInPreOrder(t.nodes, 0, p, k);
    }
  }

  /**
   * The parent a bone is linked to: none for an empty parent name or an
   * empty skeleton, otherwise the first bone of that name in the preorder
   * walk from the root.
   */
  ghost function ParentOf(t: Tree, bone: BoneData): (r: Option<nat>)
    requires WellFormed(t)
    ensures r.Some? ==> r.value < |t.nodes| && t.nodes[r.value].name == bone.parent
  {
    if bone.parent == "" || t.root.None? then None
    else FirstNamed(t.nodes, PreOrder(t.nodes, t.root.value), bone.parent)
  }

  /** A non-empty parent name is resolved exactly when some bone built so far carries it. */
  lemma ParentResolvesIffEarlier(t: Tree, bone: BoneData)
    requires WellFormed(t) && bone.parent != ""
    ensures ParentOf(t, bone).Some? <==> exists i :: 0 <= i < |t.nodes| && t.nodes[i].name == bone.parent
  {
    if i :| 0 <= i < |t.nodes| && t.nodes[i].name == bone.parent {
      AllReachable(t, i);
      var s := PreOrder(t.nodes, 0);
      var m :| 0 <= m < |s| && s[m] == i;
      assert t.nodes[s[m]].name == bone.parent;
    }
  }

  /** The IBone made from a bone record, with the given parent and no children yet. */
  function NodeOf(bone: BoneData, parent: Option<nat>): BoneNode {
    BoneNode(bone.name, parent, [], bone.head, bone.tail, bone.roll, bone.matrix)
  }

  /** A bone carries the record it was made from. */
  ghost predicate Carries(n: BoneNode, bone: BoneData) {
    n.name == bone.name && n.head == bone.head && n.tail == bone.tail && n.roll == bone.roll && n.matrix == bone.matrix
  }

  /** Two bones carry the same record. */
  ghost predicate SamePayload(m: BoneNode, n: BoneNode) {
    m.name == n.name && m.head == n.head && m.tail == n.tail && m.roll == n.roll && m.matrix == n.matrix
  }

  /** The arena after a new bone is stored at the end and listed as the last child of bone p. */
  function Attach(nodes: seq<BoneNode>, p: nat, n: BoneNode): (r: seq<BoneNode>)
    requires p < |nodes|
    ensures |r| == |nodes| + 1 && r[|nodes|] == n
    ensures r[p].children == nodes[p].children + [|nodes|] && SamePayload(r[p], nodes[p]) && r[p].parent == nodes[p].parent
    ensures forall j :: 0 <= j < |nodes| && j != p ==> r[j] == nodes[j]
  {
    nodes[p := nodes[p].(children := nodes[p].children + [|nodes|])] + [n]
  }

  /**
   * One pass of the builder's loop: the bone is linked to its parent and
   * listed among the parent's children; an unresolved bone becomes the root
   * of an empty skeleton and is an error otherwise.
   */
  ghost function AddBone(t: Tree, bone: BoneData): (r: Built)
    requires WellFormed(t)
  {
    match ParentOf(t, bone)
    case None =>
      if t.root.None? then Built(true, Tree(t.nodes + [NodeOf(bone, None)], Some(|t.nodes|)))
      else Built(false, t)
    case Some(p) => Built(true, Tree(Attach(t.nodes, p, NodeOf(bone, Some(p))), t.root))
  }

  lemma AttachOrdered(t: Tree, p: nat, bone: BoneData)
    requires WellFormed(t) && p < |t.nodes|
    ensures Ordered(Attach(t.nodes, p, NodeOf(bone, Some(p))))
  {
    var n := Attach(t.nodes, p, NodeOf(bone, Some(p)));
    forall j, k | 0 <= j < |n| && 0 <= k < |n[j].children| ensures j < n[j].children[k] < |n| {
      if j == p && k == |t.nodes[p].children| {
        assert n[j].children[k] == |t.nodes|;
      } else if j < |t.nodes| {
        assert n[j].children[k] == t.nodes[j].children[k];
      }
    }
  }

  lemma AttachLinks(t: Tree, p: nat, bone: BoneData)
    requires WellFormed(t) && p < |t.nodes|
    ensures var n := Attach(t.nodes, p, NodeOf(bone, Some(p)));
      forall j, k :: 0 <= j < |n| && 0 <= k < |n[j].children| ==> n[n[j].children[k]].parent == Some(j)
  {
    var n := Attach(t.nodes, p, NodeOf(bone, Some(p)));
    forall j, k | 0 <= j < |n| && 0 <= k < |n[j].children| ensures n[n[j].children[k]].parent == Some(j) {
      if j == p && k == |t.nodes[p].children| {
        assert n[j].children[k] == |t.nodes|;
      } else if j < |t.nodes| {
        var c := t.nodes[j].children[k];
        assert n[j].children[k] == c && c < |t.nodes|;
        assert n[c].parent == t.nodes[c].parent;
      }
    }
  }

  lemma AttachListed(t: Tree, p: nat, bone: BoneData)
    requires WellFormed(t) && p < |t.nodes|
    ensures var n := Attach(t.nodes, p, NodeOf(bone, Some(p)));
      forall j :: 0 <= j < |n| && n[j].parent.Some? ==> n[j].parent.value < |n| && j in n[n[j].parent.value].children
  {
    var n := Attach(t.nodes, p, NodeOf(bone, Some(p)));
    forall j | 0 <= j < |n| && n[j].parent.Some? ensures n[j].parent.value < |n| && j in n[n[j].parent.value].children {
      if j < |t.nodes| {
        var q := t.nodes[j].parent.value;
        assert n[j].parent == t.nodes[j].parent;
        assert j in t.nodes[q].children;
        assert t.nodes[q].children <= n[q].children;
      }
    }
  }

  /** Adding a bone keeps the tree well formed. */
  lemma AddBoneWellFormed(t: Tree, bone: BoneData)
    requires WellFormed(t)
    ensures WellFormed(AddBone(t, bone).tree)
  {
    if ParentOf(t, bone).Some? {
      var p := ParentOf(t, bone).value;
      AttachOrdered(t, p, bone);
      AttachLinks(t, p, bone);
      AttachListed(t, p, bone);
      var n := Attach(t.nodes, p, NodeOf(bone, Some(p)));
      assert forall j :: 0 <= j < |n| ==> (n[j].parent.None? <==> j == 0) by {
        forall j | 0 <= j < |n| ensures n[j].parent.None? <==> j == 0 {
          if j < |t.nodes| {
            assert n[j].parent == t.nodes[j].parent;
          }
        }
      }
    }
  }

  /**
   * Adding a bone fails, changing nothing, exactly when the bone is
   * unresolved and a root exists. Otherwise the new last bone carries the
   * record, has the resolved parent and no child, a resolved parent lists it
   * as its last child, and an unresolved bone becomes the root. Earlier
   * bones keep their data.
   */
  lemma AddBoneOutcome(t: Tree, bone: BoneData)
    requires WellFormed(t)
    ensures var r := AddBone(t, bone);
      && (r.ok <==> ParentOf(t, bone).Some? || t.root.None?)
      && (!r.ok ==> r.tree == t)
      && (r.ok ==> |r.tree.nodes| == |t.nodes| + 1 && Carries(r.tree.nodes[|t.nodes|], bone)
                   && r.tree.nodes[|t.nodes|].parent == ParentOf(t, bone)
                   && r.tree.nodes[|t.nodes|].children == [])
      && (forall k :: 0 <= k < |t.nodes| ==> SamePayload(r.tree.nodes[k], t.nodes[k]))
      && (ParentOf(t, bone).Some? ==> var p := ParentOf(t, bone).value;
            r.tree.nodes[p].children == t.nodes[p].children + [|t.nodes|])
      && (r.ok && ParentOf(t, bone).None? ==> r.tree.root == Some(|t.nodes|))
  {
  }

  /**
   * The builder's bone loop: the bones in list order, stopping at the first
   * one that fails. It keeps the tree well formed.
   */
  ghost function BuildBones(t: Tree, bones: seq<BoneData>): (r: Built)
    requires WellFormed(t)
    ensures WellFormed(r.tree)
    decreases |bones|
  {
    if bones == [] then Built(true, t)
    else
      AddBoneWellFormed(t, bones[0]);
      var a := AddBone(t, bones[0]);
      if !a.ok then a else BuildBones(a.tree, bones[1..])
  }

  /** Building keeps the bones already there, with their data, and adds at most one bone per record. */
  lemma {:induction false} BuildBonesKeeps(t: Tree, bones: seq<BoneData>)
    requires WellFormed(t)
    ensures var r := BuildBones(t, bones);
      && |t.nodes| <= |r.tree.nodes| <= |t.nodes| + |bones|
      && (|r.tree.nodes| == |t.nodes| + |bones| <==> r.ok)
      && forall k :: 0 <= k < |t.nodes| ==> SamePayload(r.tree.nodes[k], t.nodes[k])
    decreases |bones|
  {
    if bones != [] {
      AddBoneOutcome(t, bones[0]);
      AddBoneWellFormed(t, bones[0]);
      var a := AddBone(t, bones[0]);
      if a.ok {
        BuildBonesKeeps(a.tree, bones[1..]);
        var r := BuildBones(a.tree, bones[1..]);
        assert BuildBones(t, bones) == r;
        assert |a.tree.nodes| == |t.nodes| + 1;
        forall k | 0 <= k < |t.nodes| ensures SamePayload(r.tree.nodes[k], t.nodes[k]) {
          assert SamePayload(r.tree.nodes[k], a.tree.nodes[k]);
        }
      }
    }
  }

  /** A successful build gives one bone per record, in list order, after the bones already there. */
  lemma {:induction false} BuildBonesCarries(t: Tree, bones: seq<BoneData>)
    requires WellFormed(t)
    ensures var r := BuildBones(t, bones); r.ok ==> CarriesAll(r.tree.nodes, |t.nodes|, bones)
    decreases |bones|
  {
    if bones != [] {
      AddBoneOutcome(t, bones[0]);
      AddBoneWellFormed(t, bones[0]);
      var a := AddBone(t, bones[0]);
      if a.ok {
        BuildBonesCarries(a.tree, bones[1..]);
        BuildBonesKeeps(a.tree, bones[1..]);
        var r := BuildBones(a.tree, bones[1..]);
        assert BuildBones(t, bones) == r;
        if r.ok {
          assert SamePayload(r.tree.nodes[|t.nodes|], a.tree.nodes[|t.nodes|]);
          CarriesCons(r.tree.nodes, |t.nodes|, bones);
        }
      }
    }
  }

  /** From index n on, the arena holds exactly one bone per record, in order. */
  ghost predicate CarriesAll(nodes: seq<BoneNode>, n: nat, bones: seq<BoneData>) {
    |nodes| == n + |bones| && forall k :: 0 <= k < |bones| ==> Carries(nodes[n + k], bones[k])
  }

  lemma CarriesCons(nodes: seq<BoneNode>, n: nat, bones: seq<BoneData>)
    requires bones != [] && CarriesAll(nodes, n + 1, bones[1..]) && Carries(nodes[n], bones[0])
    ensures CarriesAll(nodes, n, bones)
  {
    forall k | 0 < k < |bones| ensures Carries(nodes[n + k], bones[k]) {
      assert bones[1..][k - 1] == bones[k] && n + 1 + (k - 1) == n + k;
    }
  }

  /**
   * From an empty skeleton: zero bones give success and no root; otherwise a
   * successful build has bone 0 as its root, and the second bone whose parent
   * is not resolved makes the build fail.
   */
  lemma {:induction false} BuildFromEmpty(bones: seq<BoneData>)
    ensures bones == [] ==> BuildBones(Tree([], None), bones) == Built(true, Tree([], None))
    ensures var r := BuildBones(Tree([], None), bones);
      r.ok ==> (r.tree.root.None? <==> bones == []) && (bones != [] ==> r.tree.root == Some(0))
  {
    BuildBonesKeeps(Tree([], None), bones);
  }

  /** A bone whose parent is not resolved, added to a skeleton that already has a root, fails the build. */
  lemma SecondRootFails(t: Tree, bone: BoneData, rest: seq<BoneData>)
    requires WellFormed(t) && t.root.Some? && ParentOf(t, bone).None?
    ensures BuildBones(t, [bone] + rest) == Built(false, t)
  {
    assert ([bone] + rest)[0] == bone;
  }

  /** ISkeleton: its name, scale, offset, and its bones with their root. */
  class Skeleton {
    var name: string
    var offset: Vector3
    var scale: real
    var tree: Tree

    /** A new skeleton: unnamed, scale 1, no bone. */
    constructor ()
      ensures name == "" && offset == ZERO3 && scale == 1.0 && tree == Tree([], None)
    {
      name := "";
      offset := ZERO3;
      scale := 1.0;
      tree := Tree([], None);
    }
  }

  /**
   * BuildSkeleton: copies the skeleton record's name, scale and offset, then
   * builds the bones in list order; a null skeleton is an error.
   */
  method BuildSkeleton(item: SkeletonData, skeleton: Skeleton?) returns (ok: bool)
    requires skeleton != null ==> WellFormed(skeleton.tree)
    modifies skeleton
    ensures skeleton == null ==> !ok
    ensures skeleton != null ==>
      && skeleton.name == item.name && skeleton.scale == item.scale && skeleton.offset == item.offset
      && WellFormed(skeleton.tree)
      && var r := BuildBones(old(skeleton.tree), item.bones);
         ok == r.ok && skeleton.tree == r.tree
  {
    if skeleton == null {
      return false;
    }
    skeleton.name := item.name;
    skeleton.scale := item.scale;
    skeleton.offset := item.offset;
    var i := 0;
    while i < |item.bones|
      invariant i <= |item.bones|
      invariant skeleton.name == item.name && skeleton.scale == item.scale && skeleton.offset == item.offset
      invariant WellFormed(skeleton.tree)
      invariant BuildBones(old(skeleton.tree), item.bones) == BuildBones(skeleton.tree, item.bones[i..])
    {
      ok := AddBoneTo(skeleton, item.bones[i]);
      assert item.bones[i..][0] == item.bones[i] && item.bones[i..][1..] == item.bones[i + 1..];
      if !ok {
        return false;
      }
      i := i + 1;
    }
    assert item.bones[i..] == [];
    return true;
  }

  /** One pass of BuildSkeleton's loop, on the skeleton's tree. */
  method AddBoneTo(skeleton: Skeleton, bone: BoneData) returns (ok: bool)
    requires WellFormed(skeleton.tree)
    modifies skeleton
    ensures skeleton.name == old(skeleton.name) && skeleton.scale == old(skeleton.scale) && skeleton.offset == old(skeleton.offset)
    ensures var r := AddBone(old(skeleton.tree), bone); ok == r.ok && skeleton.tree == r.tree
    ensures WellFormed(skeleton.tree)
  {
    AddBoneWellFormed(skeleton.tree, bone);
    var nodes := skeleton.tree.nodes;
    var parent := None;
    if bone.parent != "" {
      parent := GetBone(nodes, bone.parent, skeleton.tree.root);
    }
    var node := NodeOf(bone, parent);
    if parent.None? {
      if skeleton.tree.root.None? {
        skeleton.tree := Tree(nodes + [node], Some(|nodes|));
        return true;
      }
      return false;
    }
    var p := parent.value;
    skeleton.tree := Tree(nodes[p := nodes[p].(children := nodes[p].children + [|nodes|])] + [node], skeleton.tree.root);
    return true;
  }
}

/**
 * GetBoneMatrix: the product of a bone's matrix with those of its parents,
 * up to the root. Matrix multiplication is a parameter of the model.
 */
module BoneMatrix {
  import opened Wrappers
  import opened Math3D
  import opened SkeletonBuilder

  /** Every bone's parent comes before it in the arena. */
  ghost predicate ParentsBefore(nodes: seq<BoneNode>) {
    forall i :: 0 <= i < |nodes| && nodes[i].parent.Some? ==> nodes[i].parent.value < i
  }

  lemma WellFormedParentsBefore(t: Tree)
    requires WellFormed(t)
    ensures ParentsBefore(t.nodes)
  {
    forall i | 0 <= i < |t.nodes| && t.nodes[i].parent.Some? ensures t.nodes[i].parent.value < i {
      var p := t.nodes[i].parent.value;
      var k :| 0 <= k < |t.nodes[p].children| && t.nodes[p].children[k] == i;
    }
  }

  /** The bone b, then its parent, and so on up to a bone without a parent. */
  ghost function Ancestors(nodes: seq<BoneNode>, b: nat): (r: seq<nat>)
    requires ParentsBefore(nodes) && b < |nodes|
    ensures r != [] && r[0] == b
    ensures forall k :: 0 <= k < |r| ==> r[k] < |nodes|
    decreases b
  {
    match nodes[b].parent
    case None => [b]
    case Some(p) => [b] + Ancestors(nodes, p)
  }

  /** The path from a bone goes parent by parent and stops at a bone without a parent. */
  lemma {:induction false} AncestorsFollowParents(nodes: seq<BoneNode>, b: nat)
    requires ParentsBefore(nodes) && b < |nodes|
    ensures var a := Ancestors(nodes, b);
      && nodes[a[|a| - 1]].parent.None?
      && forall k :: 0 <= k < |a| - 1 ==> nodes[a[k]].parent == Some(a[k + 1])
    decreases b
  {
    if nodes[b].parent.Some? {
      var p := nodes[b].parent.value;
      AncestorsFollowParents(nodes, p);
      var a := Ancestors(nodes, b);
      var rest := Ancestors(nodes, p);
      assert a == [b] + rest;
      assert a[|a| - 1] == rest[|rest| - 1];
      forall k | 0 <= k < |a| - 1 ensures nodes[a[k]].parent == Some(a[k + 1]) {
        if k > 0 {
          assert a[k] == rest[k - 1] && a[k + 1] == rest[k];
        }
      }
    }
  }

  /** In a well-formed tree the path from any bone ends at the root. */
  lemma AncestorsReachRoot(t: Tree, b: nat)
    requires WellFormed(t) && b < |t.nodes|
    ensures ParentsBefore(t.nodes) && var a := Ancestors(t.nodes, b); a[|a| - 1] == 0 && t.root == Some(0)
  {
    WellFormedParentsBefore(t);
    AncestorsFollowParents(t.nodes, b);
  }

  /** The matrices of the bones of a path, multiplied onto acc from the right in path order. */
  ghost function Stack(mul: (Matrix4x4, Matrix4x4) -> Matrix4x4, nodes: seq<BoneNode>, path: seq<nat>, acc: Matrix4x4): Matrix4x4
    requires forall k :: 0 <= k < |path| ==> path[k] < |nodes|
    decreases |path|
  {
    if path == [] then acc else Stack(mul, nodes, path[1..], mul(acc, nodes[path[0]].matrix))
  }

  /**
   * GetBoneMatrix: a null bone leaves the output as it was; otherwise the
   * output is the identity multiplied by the bone's matrix and then each
   * parent's in turn, and finally by the initial matrix unless that is the
   * identity.
   */
  method GetBoneMatrix(mul: (Matrix4x4, Matrix4x4) -> Matrix4x4, nodes: seq<BoneNode>, bone: Option<nat>,
                       initial: Matrix4x4, matrix: Matrix4x4) returns (r: Matrix4x4)
    requires ParentsBefore(nodes) && (bone.Some? ==> bone.value < |nodes|)
    ensures bone.None? ==> r == matrix
    ensures bone.Some? ==>
      var m := Stack(mul, nodes, Ancestors(nodes, bone.value), IDENTITY);
      r == if initial == IDENTITY then m else mul(m, initial)
  {
    if bone.None? {
      return matrix;
    }
    r := IDENTITY;
    var current := bone;
    while current.Some?
      invariant current.Some? ==> current.value < |nodes|
      invariant Stack(mul, nodes, Ancestors(nodes, bone.value), IDENTITY) ==
        if current.None? then r else Stack(mul, nodes, Ancestors(nodes, current.value), r)
      decreases if current.Some? then current.value + 1 else 0
    {
      var b := current.value;
      var a := Ancestors(nodes, b);
      assert a[0] == b;
      r := mul(r, nodes[b].matrix);
      current := nodes[b].parent;
      if current.Some? {
        assert a[1..] == Ancestors(nodes, current.value);
      } else {
        assert a[1..] == [];
      }
    }
    if initial != IDENTITY {
      r := mul(r, initial);
    }
  }
}
