/**
 * NamedNode.swift: the tree of directories and images the app browses. A
 * node's name and parent never change after creation; its children grow
 * through `child(named:)`, which creates a child only for a name not yet
 * present.
 */
module NamedNodes {
  import opened Common
  import opened Seqs

  class NamedNode {
    const name: string
    const parent: NamedNode?
    var children: seq<NamedNode>
    /** How many ancestors the node has; it only serves to bound the walk up the parents. */
    ghost const depth: nat

    /** The parents lead to a root, each one level up. */
    ghost predicate Rooted()
      decreases depth
    {
      if parent == null then depth == 0 else parent.depth + 1 == depth && parent.Rooted()
    }

    /** Every child names this node as its parent. */
    ghost predicate OwnsChildren()
      reads this
    {
      forall i :: 0 <= i < |children| ==> children[i].parent == this
    }

    /** No two children share a name. */
    ghost predicate UniqueNames()
      reads this
    {
      forall i, j :: 0 <= i < j < |children| ==> children[i].name != children[j].name
    }

    /** `init(_:parent:)`: a node without children. */
    constructor (name: string, parent: NamedNode?)
      requires parent != null ==> parent.Rooted()
      ensures this.name == name && this.parent == parent && children == [] && IsLeaf()
      ensures Rooted() && OwnsChildren() && UniqueNames()
    {
      this.name := name;
      this.parent := parent;
      children := [];
      depth := if parent == null then 0 else parent.depth + 1;
    }

    /** `isLeaf`. */
    predicate IsLeaf()
      reads this
    {
      children == []
    }

    /**
     * `path`: the names from the root down to this node, joined by '/'; a
     * root's path is its own name.
     */
    function Path(): (r: string)
      requires Rooted()
      ensures parent == null ==> r == name
      decreases depth
    {
      if parent == null then name
      else
        var directory := parent.Path();
        directory + "/" + name
    }

    /** The names from the root down to this node. */
    ghost function Ancestry(): (r: seq<string>)
      requires Rooted()
      ensures |r| == depth + 1 && r[|r| - 1] == name
      decreases depth
    {
      if parent == null then [name] else parent.Ancestry() + [name]
    }

    /** `==`: the same name under the identical parent object. */
    function Equals(other: NamedNode): (r: bool)
      ensures r && Rooted() && other.Rooted() ==> Path() == other.Path()
    {
      name == other.name && parent == other.parent
    }

    /**
     * `child(named:)`: the first child of that name when there is one, the
     * children unchanged; otherwise a new leaf of that name, whose parent is
     * this node, appended at the end.
     */
    method Child(name: string) returns (c: NamedNode)
      requires Rooted()
      modifies this
      ensures c in children && c.name == name && !IsLeaf()
      ensures (exists i :: 0 <= i < |old(children)| && old(children)[i].name == name) ==>
        children == old(children) &&
        exists k :: 0 <= k < |children| && children[k] == c && forall j :: 0 <= j < k ==> children[j].name != name
      ensures (forall i :: 0 <= i < |old(children)| ==> old(children)[i].name != name) ==>
        fresh(c) && c.parent == this && c.children == [] && c.Rooted() && children == old(children) + [c]
      ensures old(OwnsChildren()) ==> OwnsChildren() && c.parent == this
      ensures old(UniqueNames()) ==> UniqueNames()
    {
      var existing := FirstIndexWhere(children, (n: NamedNode) => n.name == name);
      if existing.Some? {
        c := children[existing.value];
        return;
      }
      c := new NamedNode(name, this);
      children := children + [c];
      assert children[|children| - 1] == c;
    }
  }

  /** A path ends with the node's name, and below a root that name follows a '/'. */
  lemma PathEndsWithName(n: NamedNode)
    requires n.Rooted()
    ensures var p := n.Path();
      |p| >= |n.name| && p[|p| - |n.name|..] == n.name &&
      (n.parent != null ==> |p| > |n.name| && p[|p| - |n.name| - 1] == '/')
  {
    if n.parent != null {
      var d := n.parent.Path();
      assert n.Path() == d + "/" + n.name;
      assert n.Path()[|d|] == '/';
    }
  }

  /** Below a root, the path is the parent's path, a '/', and the node's name. */
  lemma PathOfChild(n: NamedNode)
    requires n.Rooted() && n.parent != null
    ensures n.Path() == n.parent.Path() + "/" + n.name
  {
  }

  /** The names of `names`, in order, separated by '/'. */
  function JoinPath(names: seq<string>): (r: string)
    requires names != []
    ensures |r| == Sum(names) + |names| - 1
  {
    if |names| == 1 then names[0]
    else
      var front := names[..|names| - 1];
      SumAppend(front, names[|names| - 1]);
      assert front + [names[|names| - 1]] == names;
      JoinPath(front) + "/" + names[|names| - 1]
  }

  /** The path is the ancestry of the node, root first, joined by '/'. */
  lemma {:induction false} PathJoinsAncestry(n: NamedNode)
    requires n.Rooted()
    ensures n.Path() == JoinPath(n.Ancestry())
    decreases n.depth
  {
    if n.parent != null {
      PathJoinsAncestry(n.parent);
      var a := n.Ancestry();
      assert a[..|a| - 1] == n.parent.Ancestry();
    }
  }

  /** The path's length is the total length of the names from the root down, plus one '/' per level. */
  lemma {:induction false} PathSteps(n: NamedNode)
    requires n.Rooted()
    ensures |n.Path()| == Sum(n.Ancestry()) + n.depth
    decreases n.depth
  {
    if n.parent != null {
      PathSteps(n.parent);
      SumAppend(n.parent.Ancestry(), n.name);
    }
  }

  /** The total length of the names in `names`. */
  function Sum(names: seq<string>): nat {
    if names == [] then 0 else Sum(names[..|names| - 1]) + |names[|names| - 1]|
  }

  lemma SumAppend(names: seq<string>, x: string)
    ensures Sum(names + [x]) == Sum(names) + |x|
  {
    assert (names + [x])[..|names|] == names;
  }

  /** `==` is an equivalence, and equal nodes have the same path. */
  lemma EqualsIsEquivalence(a: NamedNode, b: NamedNode, c: NamedNode)
    ensures a.Equals(a)
    ensures a.Equals(b) ==> b.Equals(a)
    ensures a.Equals(b) && b.Equals(c) ==> a.Equals(c)
    ensures a.Equals(b) && a.Rooted() && b.Rooted() ==> a.Path() == b.Path()
  {
  }
}
