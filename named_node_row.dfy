/**
 * NamedNodeRow.swift: the list of a directory's entries, narrowed by a search
 * text, with a navigation title and a test of whether an entry is an image
 * that can still be loaded. Whether the runtime has loaded the image at a
 * path is a question for the class-dump library, passed in as a predicate.
 */
module NamedNodeRows {
  import opened Seqs
  import opened Strings
  import opened NamedNodes

  /** `children`: every child while the search text is empty, else those whose name contains it, in order. */
  function Children(node: NamedNode, searchText: string): (r: seq<NamedNode>)
    reads node
    ensures searchText == [] ==> r == node.children
    ensures IsSubsequence(r, node.children)
    ensures searchText != [] ==> forall i :: 0 <= i < |r| ==> ContainsIgnoringCase(r[i].name, searchText)
    ensures forall i :: 0 <= i < |node.children| && ContainsIgnoringCase(node.children[i].name, searchText) ==>
      node.children[i] in r
  {
    if searchText == [] then
      SubsequenceOfItself(node.children);
      node.children
    else
      var matches := (c: NamedNode) => ContainsIgnoringCase(c.name, searchText);
      var r := Filter(node.children, matches);
      assert forall i :: 0 <= i < |r| ==> matches(r[i]);
      r
  }

  /**
   * No name contains the empty search text, so without the `isEmpty` guard
   * an empty search would hide every child.
   */
  lemma EmptySearchMatchesNothing(node: NamedNode)
    ensures forall i :: 0 <= i < |node.children| ==> !ContainsIgnoringCase(node.children[i].name, "")
  {
  }

  /** Searching ignores case: a name matches a search text exactly when it matches its lower-case form. */
  lemma SearchIgnoresCase(name: string, searchText: string)
    ensures ContainsIgnoringCase(name, searchText) <==> ContainsIgnoringCase(name, Lower(searchText))
  {
    assert Lower(Lower(searchText)) == Lower(searchText);
  }

  /** `couldLoad(node:)`: a leaf whose image the runtime has not loaded yet. */
  function CouldLoad(node: NamedNode, isImageLoaded: string -> bool): (r: bool)
    requires node.Rooted()
    reads node
    ensures r ==> node.children == []
    ensures isImageLoaded(node.Path()) ==> !r
  {
    node.IsLeaf() && !isImageLoaded(node.Path())
  }

  /** The navigation title: "/" for the nameless root, the node's name otherwise. */
  function Title(node: NamedNode): (r: string)
    ensures r == "/" || r == node.name
    ensures r == [] <==> node.name == [] && node.parent != null
    ensures node.name != [] ==> r == node.name
  {
    if node.name == [] && node.parent == null then "/" else node.name
  }
}
