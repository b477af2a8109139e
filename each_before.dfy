/** `eachBefore(node, callback)`: an explicit-stack pre-order walk. The
    callback is modelled by the sequence of nodes it is called with. */
module PreOrderWalk {
  import opened Seqs
  import opened Hierarchy

  /** The pre-order of what the stack still holds: its top (the last entry)
      is visited first. */
  function StackPreOrder<T>(nodes: seq<Node<T>>): seq<Node<T>>
  {
    if nodes == [] then []
    else PreOrder(nodes[|nodes| - 1]) + StackPreOrder(nodes[..|nodes| - 1])
  }

  /** The callback sees the tree in pre-order: the root first, each node
      before its children, children left to right. */
  method EachBefore<T>(root: Node<T>) returns (visited: seq<Node<T>>)
    ensures visited == PreOrder(root)
  {
    var nodes := [root];
    visited := [];
    assert nodes[..0] == [];
    while nodes != []
      invariant visited + StackPreOrder(nodes) == PreOrder(root)
      decreases |PreOrder(root)| - |visited|
    {
      ghost var before := visited;
      PopNode(nodes);
      var node := nodes[|nodes| - 1];
      nodes := nodes[..|nodes| - 1];
      visited := visited + [node];
      var children := node.children;
      ghost var below := nodes;
      var i := |children| - 1;
      assert children[i + 1..] == [];
      while i >= 0
        invariant -1 <= i < |children|
        invariant nodes == below + Reverse(children[i + 1..])
      {
        ReversePrepend(children, i);
        nodes := nodes + [children[i]];
        i := i - 1;
      }
      assert children[0..] == children;
      StackOfReversed(below, children);
      Regroup(before, node, PreForest(children), StackPreOrder(below));
    }
  }

  /** Popping the top of the stack visits it, then what its children and
      the rest of the stack hold. */
  lemma PopNode<T>(nodes: seq<Node<T>>)
    requires nodes != []
    ensures StackPreOrder(nodes) ==
            [nodes[|nodes| - 1]] + PreForest(nodes[|nodes| - 1].children) + StackPreOrder(nodes[..|nodes| - 1])
  {
  }

  /** Pushing `children[i]` on top of its right siblings keeps the pushed
      children in reverse order. */
  lemma ReversePrepend<T>(children: seq<Node<T>>, i: nat)
    requires i < |children|
    ensures Reverse(children[i + 1..]) + [children[i]] == Reverse(children[i..])
  {
    assert children[i..] == [children[i]] + children[i + 1..];
    ReverseAppend([children[i]], children[i + 1..]);
  }

  /** Children pushed in reverse come off the stack left to right. */
  lemma {:induction false} StackOfReversed<T>(below: seq<Node<T>>, cs: seq<Node<T>>)
    ensures StackPreOrder(below + Reverse(cs)) == PreForest(cs) + StackPreOrder(below)
  {
    if cs == [] {
      assert below + Reverse(cs) == below;
    } else {
      var c, rest := cs[0], cs[1..];
      assert cs == [c] + rest;
      ReverseAppend([c], rest);
      var stack := below + Reverse(rest) + [c];
      assert below + Reverse(cs) == stack;
      assert stack[..|stack| - 1] == below + Reverse(rest);
      StackOfReversed(below, rest);
    }
  }

  /** Each node of the tree is visited exactly once per occurrence. */
  lemma EachBeforeVisitsAll<T>(root: Node<T>)
    ensures |PreOrder(root)| == Size(root)
    ensures PreOrder(root)[0] == root
  {
    PreOrderLength(root);
  }
}
