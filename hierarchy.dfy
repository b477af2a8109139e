/** Finite trees as the traversal helpers see them: a node with an ordered
    list of children, and the recursive visit orders the explicit-stack walks
    are measured against. */
module Hierarchy {
  import opened Seqs

  datatype Node<T> = Node(value: T, children: seq<Node<T>>)

  /** Number of nodes in a tree, and in a list of trees. */
  function Size<T>(t: Node<T>): nat
    decreases t, 1
  {
    1 + ForestSize(t.children)
  }

  function ForestSize<T>(f: seq<Node<T>>): nat
    decreases f, 0
  {
    if f == [] then 0 else ForestSize(f[..|f| - 1]) + Size(f[|f| - 1])
  }

  /** Pre-order: a node, then its children's subtrees left to right. */
  function PreOrder<T>(t: Node<T>): seq<Node<T>>
    decreases t, 1
  {
    [t] + PreForest(t.children)
  }

  function PreForest<T>(f: seq<Node<T>>): seq<Node<T>>
    decreases f, 0
  {
    if f == [] then [] else PreOrder(f[0]) + PreForest(f[1..])
  }

  /** Post-order: the children's subtrees left to right, then the node. */
  function PostOrder<T>(t: Node<T>): seq<Node<T>>
    decreases t, 1
  {
    PostForest(t.children) + [t]
  }

  function PostForest<T>(f: seq<Node<T>>): seq<Node<T>>
    decreases f, 0
  {
    if f == [] then [] else PostForest(f[..|f| - 1]) + PostOrder(f[|f| - 1])
  }

  /** Mirrored pre-order: a node, then its children's subtrees right to left. */
  function PreOrderRL<T>(t: Node<T>): seq<Node<T>>
    decreases t, 1
  {
    [t] + PreForestRL(t.children)
  }

  function PreForestRL<T>(f: seq<Node<T>>): seq<Node<T>>
    decreases f, 0
  {
    if f == [] then [] else PreOrderRL(f[|f| - 1]) + PreForestRL(f[..|f| - 1])
  }

  /** Every order lists each node once: its length is the tree's size. */
  lemma {:induction false} PreOrderLength<T>(t: Node<T>)
    ensures |PreOrder(t)| == Size(t)
    decreases t, 1
  {
    PreForestLength(t.children);
  }

  lemma {:induction false} PreForestLength<T>(f: seq<Node<T>>)
    ensures |PreForest(f)| == ForestSize(f)
    decreases f, 0
  {
    if f != [] {
      PreOrderLength(f[0]);
      PreForestLength(f[1..]);
      ForestSizeCons(f);
    }
  }

  /** The size of a list, counted from the front. */
  lemma {:induction false} ForestSizeCons<T>(f: seq<Node<T>>)
    requires f != []
    ensures ForestSize(f) == Size(f[0]) + ForestSize(f[1..])
  {
    if |f| > 1 {
      var init := f[..|f| - 1];
      assert init[1..] == f[1..][..|f[1..]| - 1];
      assert init[0] == f[0];
      ForestSizeCons(init);
    }
  }

  lemma {:induction false} PostOrderLength<T>(t: Node<T>)
    ensures |PostOrder(t)| == Size(t)
    decreases t, 1
  {
    PostForestLength(t.children);
  }

  lemma {:induction false} PostForestLength<T>(f: seq<Node<T>>)
    ensures |PostForest(f)| == ForestSize(f)
    decreases f, 0
  {
    if f != [] {
      PostOrderLength(f[|f| - 1]);
      PostForestLength(f[..|f| - 1]);
    }
  }

  /** Pre-order of a list grown at the end. */
  lemma {:induction false} PreForestSnoc<T>(f: seq<Node<T>>, x: Node<T>)
    ensures PreForest(f + [x]) == PreForest(f) + PreOrder(x)
  {
    if f == [] {
      assert ([] + [x])[1..] == [];
    } else {
      assert (f + [x])[1..] == f[1..] + [x];
      PreForestSnoc(f[1..], x);
    }
  }

  /** Pre-order and post-order list the same nodes. */
  lemma {:induction false} PreAndPostSameNodes<T>(t: Node<T>)
    ensures multiset(PreOrder(t)) == multiset(PostOrder(t))
    decreases t, 1
  {
    PreAndPostForestSameNodes(t.children);
  }

  lemma {:induction false} PreAndPostForestSameNodes<T>(f: seq<Node<T>>)
    ensures multiset(PreForest(f)) == multiset(PostForest(f))
    decreases f, 0
  {
    if f != [] {
      var init, last := f[..|f| - 1], f[|f| - 1];
      assert f == init + [last];
      PreForestSnoc(init, last);
      PreAndPostForestSameNodes(init);
      PreAndPostSameNodes(last);
    }
  }

  /** Reversing the mirrored pre-order gives post-order. */
  lemma {:induction false} ReverseMirroredPreOrder<T>(t: Node<T>)
    ensures Reverse(PreOrderRL(t)) == PostOrder(t)
    decreases t, 1
  {
    ReverseAppend([t], PreForestRL(t.children));
    ReverseMirroredPreForest(t.children);
  }

  lemma {:induction false} ReverseMirroredPreForest<T>(f: seq<Node<T>>)
    ensures Reverse(PreForestRL(f)) == PostForest(f)
    decreases f, 0
  {
    if f != [] {
      var init, last := f[..|f| - 1], f[|f| - 1];
      ReverseAppend(PreOrderRL(last), PreForestRL(init));
      ReverseMirroredPreOrder(last);
      ReverseMirroredPreForest(init);
    }
  }

  /** Mirrored pre-order of two stacked lists: the later one comes first. */
  lemma {:induction false} PreForestRLAppend<T>(a: seq<Node<T>>, b: seq<Node<T>>)
    ensures PreForestRL(a + b) == PreForestRL(b) + PreForestRL(a)
  {
    if b == [] {
      assert a + b == a;
    } else {
      assert (a + b)[..|a + b| - 1] == a + b[..|b| - 1];
      assert (a + b)[|a + b| - 1] == b[|b| - 1];
      PreForestRLAppend(a, b[..|b| - 1]);
    }
  }

  /** Every node is listed by post-order right after its whole subtree: the
      `Size(n)` entries ending at `n` are exactly `PostOrder(n)`. */
  lemma {:induction false} PostOrderSubtreeBefore<T>(t: Node<T>, i: nat)
    requires i < |PostOrder(t)|
    ensures Size(PostOrder(t)[i]) <= i + 1
    ensures PostOrder(t)[i + 1 - Size(PostOrder(t)[i])..i + 1] == PostOrder(PostOrder(t)[i])
    decreases t, 1
  {
    var p, pf := PostOrder(t), PostForest(t.children);
    PostOrderLength(t);
    if i == |p| - 1 {
      assert p[i] == t;
      assert p[0..i + 1] == p;
    } else {
      assert p[i] == pf[i];
      PostForestSubtreeBefore(t.children, i);
      var n := pf[i];
      SliceOfAppend(pf, [t], i + 1 - Size(n), i + 1);
    }
  }

  lemma {:induction false} PostForestSubtreeBefore<T>(f: seq<Node<T>>, i: nat)
    requires i < |PostForest(f)|
    ensures Size(PostForest(f)[i]) <= i + 1
    ensures PostForest(f)[i + 1 - Size(PostForest(f)[i])..i + 1] == PostOrder(PostForest(f)[i])
    decreases f, 0
  {
    var init, last := f[..|f| - 1], f[|f| - 1];
    var p, a, b := PostForest(f), PostForest(init), PostOrder(last);
    assert p == a + b;
    if i < |a| {
      assert p[i] == a[i];
      PostForestSubtreeBefore(init, i);
      var n := a[i];
      SliceOfAppend(a, b, i + 1 - Size(n), i + 1);
    } else {
      var j := i - |a|;
      assert p[i] == b[j];
      PostOrderSubtreeBefore(last, j);
      var n := b[j];
      assert Size(n) <= j + 1;
      SliceOfAppend(a, b, i + 1 - Size(n), i + 1);
    }
  }
}
