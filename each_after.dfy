/** `eachAfter(node, callback)`: a two-phase explicit-stack post-order walk.
    The first loop collects every node into `next` in mirrored pre-order; the
    second pops `next`, so the callback sees the nodes in post-order. */
module PostOrderWalk {
  import opened Seqs
  import opened Hierarchy

  /** The callback sees every node after all of its descendants: children
      left to right, then the node, so the root comes last. The list of nodes
      to visit is complete before the first callback. */
  method EachAfter<T>(root: Node<T>) returns (visited: seq<Node<T>>)
    ensures visited == PostOrder(root)
  {
    var nodes := [root];
    var next: seq<Node<T>> := [];
    assert PreForestRL(nodes) == PreOrderRL(root) + PreForestRL([]);
    while nodes != []
      invariant next + PreForestRL(nodes) == PreOrderRL(root)
      decreases |PreOrderRL(root)| - |next|
    {
      ghost var before := next;
      var node := nodes[|nodes| - 1];
      nodes := nodes[..|nodes| - 1];
      next := next + [node];
      var children := node.children;
      ghost var below := nodes;
      var i := 0;
      while i < |children|
        invariant 0 <= i <= |children|
        invariant nodes == below + children[..i]
      {
        assert children[..i + 1] == children[..i] + [children[i]];
        nodes := nodes + [children[i]];
        i := i + 1;
      }
      assert children[..i] == children;
      PreForestRLAppend(below, children);
      Regroup(before, node, PreForestRL(children), PreForestRL(below));
    }
    assert next == PreOrderRL(root);
    ReverseMirroredPreOrder(root);
    visited := [];
    ghost var collected := next;
    while next != []
      invariant visited + Reverse(next) == Reverse(collected)
      decreases |next|
    {
      var node := next[|next| - 1];
      PopInto(visited, next);
      next := next[..|next| - 1];
      visited := visited + [node];
    }
    assert Reverse(next) == [];
    assert visited + [] == visited;
  }

  /** Popping the last entry of `next` onto `visited` keeps the reversal. */
  lemma PopInto<T>(visited: seq<T>, next: seq<T>)
    requires next != []
    ensures (visited + [next[|next| - 1]]) + Reverse(next[..|next| - 1]) == visited + Reverse(next)
  {
    var rest := Reverse(next[..|next| - 1]);
    assert Reverse(next) == [next[|next| - 1]] + rest;
    Regroup(visited, next[|next| - 1], rest, []);
    assert rest + [] == rest;
  }

  /** Each node of the tree is visited exactly once per occurrence, the same
      nodes as the pre-order walk visits, and the root last. */
  lemma EachAfterVisitsAll<T>(root: Node<T>)
    ensures |PostOrder(root)| == Size(root)
    ensures multiset(PostOrder(root)) == multiset(PreOrder(root))
    ensures PostOrder(root)[|PostOrder(root)| - 1] == root
  {
    PostOrderLength(root);
    PreAndPostSameNodes(root);
  }
}
