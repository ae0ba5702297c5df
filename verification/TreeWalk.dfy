/**
 The accessibility walk: an explicit-stack depth-first traversal under node, depth and time
 caps, over a child graph that may be cyclic, against the recursive pre-order listing.
 */
module TreeWalk {
  import opened Results
  import opened Sequences

  const MAX_NODES: nat := 2000
  const MAX_DEPTH: nat := 48

  /** An object of the accessibility bus; `Null` is the bus's null reference. */
  datatype Ref = Null | Ref(id: string)

  /** One recorded node: who it is, who its parent was, how deep it is. */
  datatype Node = Node(id: Ref, parent: Option<Ref>, depth: nat)

  /** What the bus answers when asked for the children of an object. */
  type Graph = Ref -> seq<Ref>

  // ---- the recursive listing ----

  /** Pre-order listing of the unfolding of `g` below `node`, cut off at MAX_DEPTH. */
  function Listing(g: Graph, node: Node): (l: seq<Node>)
    decreases MAX_DEPTH - node.depth, 1, 0
  {
    [node] + Below(g, node)
  }

  function Below(g: Graph, node: Node): seq<Node>
    decreases MAX_DEPTH - node.depth, 0, 0
  {
    if node.depth < MAX_DEPTH then Forest(g, Children(node, g(node.id)), node.depth + 1) else []
  }

  /** The listings of sibling nodes at depth `d`, one after the other. */
  function Forest(g: Graph, nodes: seq<Node>, d: nat): seq<Node>
    requires d <= MAX_DEPTH && forall i :: 0 <= i < |nodes| ==> nodes[i].depth == d
    decreases MAX_DEPTH - d, 2, |nodes|
  {
    if nodes == [] then [] else Listing(g, nodes[0]) + Forest(g, nodes[1..], d)
  }

  /** The non-null children of `node`, in document order. */
  function Children(node: Node, kids: seq<Ref>): (c: seq<Node>)
    ensures forall i :: 0 <= i < |c| ==> c[i].depth == node.depth + 1
  {
    if kids == [] then []
    else if kids[0].Null? then Children(node, kids[1..])
    else [Node(kids[0], Some(node.id), node.depth + 1)] + Children(node, kids[1..])
  }

  /** What is still to be listed when these nodes are on the stack (its top is the last element). */
  function Pending(g: Graph, stack: seq<Node>): seq<Node> {
    if stack == [] then []
    else Listing(g, stack[|stack| - 1]) + Pending(g, stack[..|stack| - 1])
  }

  /** The complete listing of several roots. */
  function Everything(g: Graph, roots: seq<Ref>): seq<Node> {
    if roots == [] then [] else Listing(g, Root(roots[0])) + Everything(g, roots[1..])
  }

  function Root(r: Ref): Node { Node(r, None, 0) }

  // ---- the tree under construction ----

  class RawTree {
    var nodes: seq<Node>
    var truncated: bool

    constructor ()
      ensures nodes == [] && !truncated
    {
      nodes, truncated := [], false;
    }
  }

  predicate Touches(nodes: seq<Node>) { exists i :: 0 <= i < |nodes| && nodes[i].depth >= MAX_DEPTH }

  /** A walk must stop before recording its n-th node: the node cap, or the clock's answer at that check. */
  predicate Stops(late: nat -> bool, n: nat) { n >= MAX_NODES || late(n) }

  /** `done` is the part of `all` recorded, from position `n0` on, before the first check that stops the walk. */
  ghost predicate Recorded(late: nat -> bool, n0: nat, all: seq<Node>, done: seq<Node>) {
    && done <= all
    && (forall n :: n0 <= n < n0 + |done| ==> !Stops(late, n))
    && (done != all ==> Stops(late, n0 + |done|))
  }

  /** The non-null children of `top` as they go on the stack: last child first, so that they pop in document order. */
  function Pushed(top: Node, kids: seq<Ref>): (p: seq<Node>)
    ensures forall i :: 0 <= i < |p| ==> p[i].depth == top.depth + 1
  {
    if kids == [] then []
    else if kids[0].Null? then Pushed(top, kids[1..])
    else Pushed(top, kids[1..]) + [Node(kids[0], Some(top.id), top.depth + 1)]
  }

  lemma {:induction false} PushChildren(g: Graph, stack: seq<Node>, top: Node, kids: seq<Ref>)
    requires top.depth < MAX_DEPTH
    ensures Pending(g, stack + Pushed(top, kids)) == Forest(g, Children(top, kids), top.depth + 1) + Pending(g, stack)
    decreases |kids|
  {
    if kids == [] {
      Empty(stack);
    } else {
      hide Pending, Forest;
      PushChildren(g, stack, top, kids[1..]);
      if !kids[0].Null? {
        PushOne(g, stack, Pushed(top, kids[1..]), Node(kids[0], Some(top.id), top.depth + 1), Children(top, kids[1..]));
      }
    }
  }

  lemma PushOne(g: Graph, stack: seq<Node>, pushed: seq<Node>, kid: Node, later: seq<Node>)
    requires kid.depth <= MAX_DEPTH && forall i :: 0 <= i < |later| ==> later[i].depth == kid.depth
    requires Pending(g, stack + pushed) == Forest(g, later, kid.depth) + Pending(g, stack)
    ensures Pending(g, stack + (pushed + [kid])) == Forest(g, [kid] + later, kid.depth) + Pending(g, stack)
  {
    Associative(stack, pushed, [kid]);
    PendingTop(g, stack + pushed, kid);
    ForestFirst(g, kid, later);
    Associative(Listing(g, kid), Forest(g, later, kid.depth), Pending(g, stack));
  }

  lemma PendingTop(g: Graph, stack: seq<Node>, top: Node)
    ensures Pending(g, stack + [top]) == Listing(g, top) + Pending(g, stack)
  {
    hide Listing;
    assert (stack + [top])[..|stack|] == stack;
  }

  lemma ForestFirst(g: Graph, first: Node, rest: seq<Node>)
    requires first.depth <= MAX_DEPTH && forall i :: 0 <= i < |rest| ==> rest[i].depth == first.depth
    ensures Forest(g, [first] + rest, first.depth) == Listing(g, first) + Forest(g, rest, first.depth)
  {
    hide Listing;
    assert ([first] + rest)[1..] == rest;
  }

  /** The loop invariant of the walk: recorded so far, plus what the stack still holds, is the listing. */
  ghost predicate InProgress(g: Graph, late: nat -> bool, n0: nat, all: seq<Node>, done: seq<Node>, stack: seq<Node>)
  {
    && done + Pending(g, stack) == all
    && (forall n :: n0 <= n < n0 + |done| ==> !Stops(late, n))
    && (forall i :: 0 <= i < |stack| ==> stack[i].depth <= MAX_DEPTH)
  }

  /** The stack `rest` after its top node was popped and recorded. */
  function PushedOn(g: Graph, rest: seq<Node>, top: Node): seq<Node> {
    if top.depth < MAX_DEPTH then rest + Pushed(top, g(top.id)) else rest
  }

  lemma PopTop(g: Graph, stack: seq<Node>)
    requires stack != []
    ensures Pending(g, stack) == [stack[|stack| - 1]] + Pending(g, PushedOn(g, stack[..|stack| - 1], stack[|stack| - 1]))
  {
    var top, rest := stack[|stack| - 1], stack[..|stack| - 1];
    var below := Below(g, top);
    assert Pending(g, stack) == Listing(g, top) + Pending(g, rest);
    Associative([top], below, Pending(g, rest));
    BelowOnStack(g, rest, top);
  }

  lemma BelowOnStack(g: Graph, rest: seq<Node>, top: Node)
    ensures Below(g, top) + Pending(g, rest) == Pending(g, PushedOn(g, rest, top))
  {
    hide Pending;
    if top.depth < MAX_DEPTH {
      PushChildren(g, rest, top, g(top.id));
    } else {
      assert [] + Pending(g, rest) == Pending(g, rest);
    }
  }

  lemma Visit(g: Graph, late: nat -> bool, n0: nat, all: seq<Node>, done: seq<Node>, stack: seq<Node>)
    requires InProgress(g, late, n0, all, done, stack) && stack != [] && !Stops(late, n0 + |done|)
    ensures InProgress(g, late, n0, all, done + [stack[|stack| - 1]], PushedOn(g, stack[..|stack| - 1], stack[|stack| - 1]))
    ensures |done| < |all|
  {
    PopTop(g, stack);
    hide Pending;
    var top, rest := stack[|stack| - 1], stack[..|stack| - 1];
    Associative(done, [top], Pending(g, PushedOn(g, rest, top)));
  }

  lemma StopHere(g: Graph, late: nat -> bool, n0: nat, all: seq<Node>, done: seq<Node>, stack: seq<Node>)
    requires InProgress(g, late, n0, all, done, stack)
    requires stack == [] || Stops(late, n0 + |done|)
    ensures Recorded(late, n0, all, done)
    ensures stack == [] <==> done == all
  {
  }

  /** `walk_subtree`: appends to `tree` the listing of one root, as far as the caps allow. */
  method WalkSubtree(g: Graph, root: Ref, late: nat -> bool, tree: RawTree) returns (ghost done: seq<Node>)
    modifies tree
    ensures tree.nodes == old(tree.nodes) + done
    ensures Recorded(late, |old(tree.nodes)|, Listing(g, Root(root)), done)
    ensures tree.truncated <==> old(tree.truncated) || done != Listing(g, Root(root)) || Touches(done)
  {
    ghost var all, n0 := Listing(g, Root(root)), |tree.nodes|;
    var stack := [Root(root)];
    done := [];
    assert Pending(g, stack) == all;
    while stack != []
      invariant tree.nodes == old(tree.nodes) + done
      invariant InProgress(g, late, n0, all, done, stack)
      invariant tree.truncated <==> old(tree.truncated) || Touches(done)
      decreases |all| - |done|
    {
      hide InProgress, Pending, Listing;
      ghost var stack0 := stack;
      var top := stack[|stack| - 1];
      stack := stack[..|stack| - 1];
      if |tree.nodes| >= MAX_NODES || late(|tree.nodes|) {
        StopHere(g, late, n0, all, done, stack0);
        tree.truncated := true;
        return;
      }
      Visit(g, late, n0, all, done, stack0);
      TouchesMore(done, top);
      tree.nodes := tree.nodes + [top];
      done := done + [top];
      if top.depth < MAX_DEPTH {
        stack := PushAll(stack, top, g(top.id));
      } else {
        tree.truncated := true;
      }
    }
    StopHere(g, late, n0, all, done, stack);
  }

  lemma TouchesMore(done: seq<Node>, top: Node)
    ensures Touches(done + [top]) <==> Touches(done) || top.depth >= MAX_DEPTH
  {
    if Touches(done) {
      var i :| 0 <= i < |done| && done[i].depth >= MAX_DEPTH;
      assert (done + [top])[i] == done[i];
    }
    if top.depth >= MAX_DEPTH {
      assert (done + [top])[|done|] == top;
    }
  }

  /** The inner loop: pushes the non-null children in reverse. */
  method PushAll(stack: seq<Node>, top: Node, kids: seq<Ref>) returns (pushed: seq<Node>)
    ensures pushed == stack + Pushed(top, kids)
  {
    pushed := stack;
    for i := |kids| downto 0
      invariant pushed == stack + Pushed(top, kids[i..])
    {
      assert kids[i..][1..] == kids[i + 1..];
      if !kids[i].Null? {
        pushed := pushed + [Node(kids[i], Some(top.id), top.depth + 1)];
      }
    }
    assert kids[0..] == kids;
  }

  // ---- all roots ----

  lemma {:induction false} EverythingSplits(g: Graph, roots: seq<Ref>, r: nat)
    requires r <= |roots|
    ensures Everything(g, roots) == Everything(g, roots[..r]) + Everything(g, roots[r..])
  {
    hide Listing;
    if r == 0 {
      assert roots[0..] == roots;
    } else {
      EverythingSplits(g, roots[1..], r - 1);
      assert roots[..r][1..] == roots[1..][..r - 1] && roots[1..][r - 1..] == roots[r..];
    }
  }

  /** The root loop of `snapshot`: walks the roots in turn until one walk is truncated. */
  method Snapshot(g: Graph, roots: seq<Ref>, late: nat -> bool) returns (tree: RawTree)
    ensures fresh(tree)
    ensures tree.nodes <= Everything(g, roots) && |tree.nodes| <= 2000
    ensures forall n :: 0 <= n < |tree.nodes| ==> !late(n)
    ensures late(|tree.nodes|) || |tree.nodes| == 2000 || exists r :: 0 <= r <= |roots| && tree.nodes == Everything(g, roots[..r])
    ensures tree.truncated <==> tree.nodes != Everything(g, roots) || Touches(tree.nodes)
    ensures FromRoots(g, roots, tree.nodes) && InOrder(g, roots, tree.nodes)
    ensures !tree.truncated ==> Complete(g, tree.nodes) && Direct(tree.nodes, -1) == roots
  {
    EverythingFromRoots(g, roots);
    EverythingComplete(g, roots);
    hide Complete, InOrder, FromRoots;
    tree := new RawTree();
    for i := 0 to |roots|
      invariant fresh(tree)
      invariant !tree.truncated && !Touches(tree.nodes)
      invariant tree.nodes == Everything(g, roots[..i])
      invariant forall n :: 0 <= n < |tree.nodes| ==> !Stops(late, n)
    {
      ghost var before := tree.nodes;
      ghost var done := WalkSubtree(g, roots[i], late, tree);
      RootWalked(g, roots, i, late, before, done);
      if tree.truncated {
        PrefixFromRoots(g, roots, tree.nodes, Everything(g, roots));
        PrefixInOrder(g, roots, tree.nodes, Everything(g, roots));
        NodesBounded(late, tree.nodes);
        return;
      }
    }
    assert roots[..|roots|] == roots;
    PrefixInOrder(g, roots, tree.nodes, Everything(g, roots));
    NodesBounded(late, tree.nodes);
  }

  lemma NodesBounded(late: nat -> bool, nodes: seq<Node>)
    requires forall n :: 0 <= n < |nodes| ==> !Stops(late, n)
    ensures |nodes| <= MAX_NODES && forall n :: 0 <= n < |nodes| ==> !late(n)
  {
    if nodes != [] {
      assert !Stops(late, |nodes| - 1);
    }
    forall n | 0 <= n < |nodes| ensures !late(n) { assert !Stops(late, n); }
  }

  lemma RootWalked(g: Graph, roots: seq<Ref>, i: nat, late: nat -> bool, before: seq<Node>, done: seq<Node>)
    requires i < |roots| && before == Everything(g, roots[..i]) && !Touches(before)
    requires forall n :: 0 <= n < |before| ==> !Stops(late, n)
    requires Recorded(late, |before|, Listing(g, Root(roots[i])), done)
    ensures before + done <= Everything(g, roots) && |before + done| <= MAX_NODES
    ensures forall n :: 0 <= n < |before| + |done| ==> !Stops(late, n)
    ensures if done == Listing(g, Root(roots[i])) then before + done == Everything(g, roots[..i + 1])
            else Stops(late, |before + done|) && before + done != Everything(g, roots)
    ensures Touches(before + done) <==> Touches(done)
  {
    hide Everything, Listing;
    EverythingStep(g, roots, i);
    NodesBounded(late, before + done);
    PrefixOfAppend(before, done, Listing(g, Root(roots[i])), Everything(g, roots[i + 1..]));
    TouchesConcat(before, done);
  }

  lemma EverythingStep(g: Graph, roots: seq<Ref>, i: nat)
    requires i < |roots|
    ensures Everything(g, roots[..i + 1]) == Everything(g, roots[..i]) + Listing(g, Root(roots[i]))
    ensures Everything(g, roots) == Everything(g, roots[..i + 1]) + Everything(g, roots[i + 1..])
  {
    hide Listing;
    assert Everything(g, [roots[i]]) == Listing(g, Root(roots[i])) + Everything(g, []);
    Empty(Listing(g, Root(roots[i])));
    EverythingSplits(g, roots, i + 1);
    EverythingSplits(g, roots[..i + 1], i);
    hide Everything;
    assert roots[..i + 1][..i] == roots[..i] && roots[..i + 1][i..] == [roots[i]];
  }

  lemma TouchesConcat(s: seq<Node>, t: seq<Node>)
    requires !Touches(s)
    ensures Touches(s + t) <==> Touches(t)
  {
    if Touches(t) {
      var i :| 0 <= i < |t| && t[i].depth >= MAX_DEPTH;
      assert (s + t)[|s| + i] == t[i];
    }
  }

  // ---- what the listing says about the graph ----

  /**
   The parent link of every listed node below the first: the nearest earlier node that is less
   deep is exactly one level up, is the recorded parent, and has the node among its children.
   */
  ghost predicate Linked(g: Graph, l: seq<Node>, i: nat, p: nat)
    requires p < i < |l|
  {
    && l[i].depth == l[p].depth + 1 && l[i].parent == Some(l[p].id)
    && l[i].id.Ref? && l[i].id in g(l[p].id)
    && forall k :: p < k < i ==> l[k].depth >= l[i].depth
  }

  ghost predicate HasParent(g: Graph, l: seq<Node>, i: nat)
    requires i < |l|
  {
    exists p :: 0 <= p < i && Linked(g, l, i, p)
  }

  ghost predicate WellLinked(g: Graph, l: seq<Node>) {
    && l != []
    && (forall i :: 1 <= i < |l| ==> l[0].depth < l[i].depth <= MAX_DEPTH)
    && (forall i :: 1 <= i < |l| ==> HasParent(g, l, i))
  }

  /** Every node of a listing has its true parent, recorded at the right depth, before it. */
  lemma {:induction false} ListingLinked(g: Graph, node: Node)
    requires node.depth <= MAX_DEPTH
    ensures Listing(g, node) != [] && Listing(g, node)[0] == node && WellLinked(g, Listing(g, node))
    decreases MAX_DEPTH - node.depth, 1, 0
  {
    if node.depth < MAX_DEPTH {
      ChildrenAreChildren(g, node, g(node.id));
      ForestLinked(g, node, Children(node, g(node.id)), [node]);
    }
  }

  /** Appending the listings of children of `node` to a listing that starts with it. */
  lemma {:induction false} ForestLinked(g: Graph, node: Node, kids: seq<Node>, front: seq<Node>)
    requires node.depth < MAX_DEPTH
    requires forall i :: 0 <= i < |kids| ==> kids[i].depth == node.depth + 1 && IsChild(g, node, kids[i])
    requires WellLinked(g, front) && front[0] == node
    ensures var l := front + Forest(g, kids, node.depth + 1); l[0] == node && WellLinked(g, l)
    decreases MAX_DEPTH - node.depth - 1, 2, |kids|
  {
    if kids == [] {
      assert front + [] == front;
    } else {
      var first := Listing(g, kids[0]);
      ListingLinked(g, kids[0]);
      AppendSubtree(g, front, first);
      ForestLinked(g, node, kids[1..], front + first);
      Associative(front, first, Forest(g, kids[1..], node.depth + 1));
    }
  }

  ghost predicate IsChild(g: Graph, node: Node, kid: Node) {
    kid.depth == node.depth + 1 && kid.parent == Some(node.id) && kid.id.Ref? && kid.id in g(node.id)
  }

  lemma {:induction false} ChildrenAreChildren(g: Graph, node: Node, kids: seq<Ref>)
    requires forall k :: k in kids ==> k in g(node.id)
    ensures forall i :: 0 <= i < |Children(node, kids)| ==> IsChild(g, node, Children(node, kids)[i])
  {
    if kids != [] {
      assert kids[0] in kids;
      ChildrenAreChildren(g, node, kids[1..]);
    }
  }

  lemma AppendSubtree(g: Graph, front: seq<Node>, sub: seq<Node>)
    requires WellLinked(g, front) && WellLinked(g, sub)
    requires IsChild(g, front[0], sub[0]) && sub[0].depth <= MAX_DEPTH
    ensures WellLinked(g, front + sub)
  {
    var l, n := front + sub, |front|;
    forall i | 1 <= i < |l| ensures HasParent(g, l, i) {
      if i < n {
        assert HasParent(g, front, i);
        var p :| 0 <= p < i && Linked(g, front, i, p);
        assert Linked(g, l, i, p);
      } else if i == n {
        assert Linked(g, l, i, 0);
      } else {
        var j := i - n;
        assert HasParent(g, sub, j);
        var p :| 0 <= p < j && Linked(g, sub, j, p);
        assert forall k :: p + n < k < i ==> l[k] == sub[k - n];
        assert Linked(g, l, i, p + n);
      }
    }
  }

  /** Every node is one of the roots, or has its true parent recorded before it. */
  ghost predicate FromRoots(g: Graph, roots: seq<Ref>, l: seq<Node>) {
    forall i :: 0 <= i < |l| ==> IsRoot(roots, l[i]) || HasParent(g, l, i)
  }

  predicate IsRoot(roots: seq<Ref>, node: Node) { node == Root(node.id) && node.id in roots }

  /** A parent stays one when the list becomes part of a longer one. */
  lemma HasParentWithin(g: Graph, l: seq<Node>, i: nat, whole: seq<Node>, n: nat)
    requires i < |l| && HasParent(g, l, i) && n + i < |whole| && forall k :: 0 <= k <= i ==> whole[n + k] == l[k]
    ensures HasParent(g, whole, n + i)
  {
    var p :| 0 <= p < i && Linked(g, l, i, p);
    assert forall k :: n + p < k < n + i ==> whole[k] == l[k - n];
    assert Linked(g, whole, n + i, n + p);
  }

  lemma PrefixFromRoots(g: Graph, roots: seq<Ref>, l: seq<Node>, whole: seq<Node>)
    requires l <= whole && FromRoots(g, roots, whole)
    ensures FromRoots(g, roots, l)
  {
    forall i | 0 <= i < |l| && !IsRoot(roots, l[i]) ensures HasParent(g, l, i) {
      var p :| 0 <= p < i && Linked(g, whole, i, p);
      assert Linked(g, l, i, p);
    }
  }

  lemma {:induction false} EverythingFromRoots(g: Graph, roots: seq<Ref>)
    ensures FromRoots(g, roots, Everything(g, roots))
  {
    if roots != [] {
      var first, rest := Listing(g, Root(roots[0])), Everything(g, roots[1..]);
      ListingLinked(g, Root(roots[0]));
      EverythingFromRoots(g, roots[1..]);
      assert Everything(g, roots) == first + rest;
      hide Everything, Listing;
      ConcatFromRoots(g, roots, first, rest);
    }
  }

  lemma ConcatFromRoots(g: Graph, roots: seq<Ref>, first: seq<Node>, rest: seq<Node>)
    requires roots != [] && WellLinked(g, first) && first[0] == Root(roots[0]) && FromRoots(g, roots[1..], rest)
    ensures FromRoots(g, roots, first + rest)
  {
    assert IsRoot(roots, first[0]);
    hide HasParent, IsRoot;
    forall i | 0 <= i < |first + rest| ensures IsRoot(roots, (first + rest)[i]) || HasParent(g, first + rest, i) {
      if 1 <= i < |first| {
        FirstWithin(g, first, rest, i);
      } else if |first| <= i {
        var k := i - |first|;
        assert IsRoot(roots[1..], rest[k]) || HasParent(g, rest, k);
        RestWithin(g, roots, first, rest, k);
      }
    }
  }

  lemma FirstWithin(g: Graph, first: seq<Node>, rest: seq<Node>, i: nat)
    requires i < |first| && HasParent(g, first, i)
    ensures HasParent(g, first + rest, i)
  {
    hide HasParent;
    HasParentWithin(g, first, i, first + rest, 0);
  }

  lemma RestWithin(g: Graph, roots: seq<Ref>, first: seq<Node>, rest: seq<Node>, k: nat)
    requires roots != [] && k < |rest| && (IsRoot(roots[1..], rest[k]) || HasParent(g, rest, k))
    ensures IsRoot(roots, (first + rest)[|first| + k]) || HasParent(g, first + rest, |first| + k)
  {
    hide HasParent, IsRoot;
    if IsRoot(roots[1..], rest[k]) {
      RootOfMore(roots, rest[k]);
    } else {
      HasParentWithin(g, rest, k, first + rest, |first|);
    }
  }

  lemma RootOfMore(roots: seq<Ref>, node: Node)
    requires roots != [] && IsRoot(roots[1..], node)
    ensures IsRoot(roots, node)
  {
  }

  // ---- every child is listed, in document order ----

  /** The ids one level below `d`, as far as the list stays below it. */
  function Direct(l: seq<Node>, d: int): seq<Ref> {
    if l == [] || l[0].depth <= d then []
    else (if l[0].depth == d + 1 then [l[0].id] else []) + Direct(l[1..], d)
  }

  /** The references of a list that are not null, in order. */
  function NonNull(kids: seq<Ref>): seq<Ref> {
    if kids == [] then []
    else NonNull(kids[..|kids| - 1]) + if kids[|kids| - 1].Null? then [] else [kids[|kids| - 1]]
  }

  /** What must be listed directly below a node. */
  function Kids(g: Graph, node: Node): seq<Ref> { if node.depth < 48 then NonNull(g(node.id)) else [] }

  ghost predicate Complete(g: Graph, l: seq<Node>) {
    forall i :: 0 <= i < |l| ==> CompleteAt(g, l, i)
  }

  ghost predicate CompleteAt(g: Graph, l: seq<Node>, i: nat)
    requires i < |l|
  {
    Direct(l[i + 1..], l[i].depth) == Kids(g, l[i])
  }

  ghost predicate Deeper(l: seq<Node>, d: int) { forall i :: 0 <= i < |l| ==> l[i].depth > d }

  lemma {:induction false} DirectConcat(a: seq<Node>, b: seq<Node>, d: int)
    requires Deeper(a, d)
    ensures Direct(a + b, d) == Direct(a, d) + Direct(b, d)
    decreases |a|
  {
    if a == [] {
      assert a + b == b;
    } else {
      DirectConcat(a[1..], b, d);
      assert (a + b)[1..] == a[1..] + b;
      Associative(if a[0].depth == d + 1 then [a[0].id] else [], Direct(a[1..], d), Direct(b, d));
    }
  }

  /** What follows at or above the level does not count. */
  lemma {:induction false} DirectStops(a: seq<Node>, b: seq<Node>, d: int)
    requires b == [] || b[0].depth <= d
    ensures Direct(a + b, d) == Direct(a, d)
    decreases |a|
  {
    if a == [] {
      assert a + b == b;
    } else {
      DirectStops(a[1..], b, d);
      assert (a + b)[1..] == a[1..] + b;
    }
  }

  lemma {:induction false} DirectDeeper(l: seq<Node>, d: int)
    requires Deeper(l, d + 1)
    ensures Direct(l, d) == []
  {
    if l != [] {
      DirectDeeper(l[1..], d);
    }
  }

  /** The ids of nodes. */
  function Ids(nodes: seq<Node>): (ids: seq<Ref>)
    ensures |ids| == |nodes| && forall i :: 0 <= i < |ids| ==> ids[i] == nodes[i].id
  {
    seq(|nodes|, i requires 0 <= i < |nodes| => nodes[i].id)
  }

  lemma {:induction false} ChildrenIds(node: Node, kids: seq<Ref>)
    ensures Ids(Children(node, kids)) == NonNull(kids)
  {
    if kids != [] {
      ChildrenIds(node, kids[1..]);
      NonNullFirst(kids);
    }
  }

  lemma {:induction false} NonNullFirst(kids: seq<Ref>)
    requires kids != []
    ensures NonNull(kids) == (if kids[0].Null? then [] else [kids[0]]) + NonNull(kids[1..])
  {
    var n := |kids| - 1;
    if n > 0 {
      NonNullFirst(kids[..n]);
      assert kids[..n][1..] == kids[1..][..n - 1];
    }
  }

  lemma ListingDeeper(g: Graph, node: Node)
    requires node.depth <= MAX_DEPTH
    ensures Listing(g, node) == [node] + Below(g, node) && Deeper(Below(g, node), node.depth)
  {
    ListingLinked(g, node);
    var l := Listing(g, node);
    assert forall i :: 0 <= i < |Below(g, node)| ==> Below(g, node)[i] == l[i + 1];
  }

  /** One level above it, a listing counts as its first node. */
  lemma TreeDirect(g: Graph, node: Node, rest: seq<Node>)
    requires node.depth <= MAX_DEPTH
    ensures Direct(Listing(g, node) + rest, node.depth - 1) == [node.id] + Direct(rest, node.depth - 1)
    ensures Deeper(Listing(g, node), node.depth - 1)
  {
    var l, below, d := Listing(g, node), Below(g, node), node.depth - 1;
    ListingDeeper(g, node);
    assert l[1..] == below && Deeper(l, d);
    hide Listing, Below, Deeper;
    DirectDeeper(below, d);
    assert Direct(l, d) == [node.id];
    DirectConcat(l, rest, d);
  }

  lemma DeeperConcat(a: seq<Node>, b: seq<Node>, d: int)
    requires Deeper(a, d) && Deeper(b, d)
    ensures Deeper(a + b, d)
  {
  }

  /** The nodes one level below the forest's parent are its roots. */
  lemma {:induction false} ForestDirect(g: Graph, nodes: seq<Node>, d: nat)
    requires d <= MAX_DEPTH && forall i :: 0 <= i < |nodes| ==> nodes[i].depth == d
    ensures Direct(Forest(g, nodes, d), d - 1) == Ids(nodes) && Deeper(Forest(g, nodes, d), d - 1)
    decreases |nodes|
  {
    if nodes != [] {
      var first, rest := Listing(g, nodes[0]), Forest(g, nodes[1..], d);
      ForestDirect(g, nodes[1..], d);
      assert Forest(g, nodes, d) == first + rest;
      assert Ids(nodes) == [nodes[0].id] + Ids(nodes[1..]);
      hide Listing, Forest, Below, Direct, Deeper, Ids;
      TreeDirect(g, nodes[0], rest);
      DeeperConcat(first, rest, d - 1);
    }
  }

  /** Two complete lists, the second of which starts no deeper than anything in the first. */
  lemma CompleteConcat(g: Graph, a: seq<Node>, b: seq<Node>, d: nat)
    requires Complete(g, a) && Complete(g, b) && Deeper(a, d - 1) && (b == [] || b[0].depth <= d)
    ensures Complete(g, a + b)
  {
    forall i | 0 <= i < |a + b| ensures CompleteAt(g, a + b, i) {
      if i < |a| {
        assert CompleteAt(g, a, i);
        DirectStops(a[i + 1..], b, a[i].depth);
        assert (a + b)[i + 1..] == a[i + 1..] + b;
      } else {
        assert CompleteAt(g, b, i - |a|);
        assert (a + b)[i + 1..] == b[i - |a| + 1..];
      }
    }
  }

  /** Below every listed node, down to the depth limit, come exactly its children that are not null, in document order. */
  lemma {:induction false} ListingComplete(g: Graph, node: Node)
    requires node.depth <= MAX_DEPTH
    ensures Complete(g, Listing(g, node))
    decreases MAX_DEPTH - node.depth, 1, 0
  {
    hide *;
    BelowIs(g, node);
    if node.depth < MAX_DEPTH {
      var kids := Children(node, g(node.id));
      ForestComplete(g, kids, node.depth + 1);
      ForestDirect(g, kids, node.depth + 1);
      ChildrenIds(node, g(node.id));
    } else {
      NothingBelow(g, node.depth);
    }
    FirstComplete(g, node, Below(g, node));
  }

  lemma BelowIs(g: Graph, node: Node)
    ensures Listing(g, node) == [node] + Below(g, node)
    ensures node.depth < MAX_DEPTH ==>
              Below(g, node) == Forest(g, Children(node, g(node.id)), node.depth + 1) && Kids(g, node) == NonNull(g(node.id))
    ensures node.depth >= MAX_DEPTH ==> Below(g, node) == [] && Kids(g, node) == []
  {
    hide Forest, Children, NonNull;
  }

  lemma NothingBelow(g: Graph, d: int)
    ensures Direct([], d) == [] && Complete(g, [])
  {
  }

  lemma FirstComplete(g: Graph, node: Node, below: seq<Node>)
    requires Direct(below, node.depth) == Kids(g, node) && Complete(g, below)
    ensures Complete(g, [node] + below)
  {
    hide Kids, Direct;
    var l := [node] + below;
    forall i | 0 <= i < |l| ensures CompleteAt(g, l, i) {
      if i == 0 {
        assert l[1..] == below;
      } else {
        assert CompleteAt(g, below, i - 1);
        assert l[i + 1..] == below[i..];
      }
    }
  }

  lemma {:induction false} ForestComplete(g: Graph, nodes: seq<Node>, d: nat)
    requires d <= MAX_DEPTH && forall i :: 0 <= i < |nodes| ==> nodes[i].depth == d
    ensures Complete(g, Forest(g, nodes, d))
    decreases MAX_DEPTH - d, 2, |nodes|
  {
    if nodes != [] {
      var first, rest := Listing(g, nodes[0]), Forest(g, nodes[1..], d);
      ListingComplete(g, nodes[0]);
      ListingDeeper(g, nodes[0]);
      ForestComplete(g, nodes[1..], d);
      ForestStarts(g, nodes[1..], d);
      hide Listing, Forest, Below, Complete;
      CompleteConcat(g, first, rest, d);
    }
  }

  lemma ForestStarts(g: Graph, nodes: seq<Node>, d: nat)
    requires d <= MAX_DEPTH && forall i :: 0 <= i < |nodes| ==> nodes[i].depth == d
    ensures if nodes == [] then Forest(g, nodes, d) == [] else Forest(g, nodes, d) != [] && Forest(g, nodes, d)[0].depth == d
  {
    if nodes != [] {
      ListingDeeper(g, nodes[0]);
      hide Listing, Below;
    }
  }

  /** Over all roots: the roots themselves, in order, each with everything below it. */
  lemma {:induction false} EverythingComplete(g: Graph, roots: seq<Ref>)
    ensures Complete(g, Everything(g, roots)) && Direct(Everything(g, roots), -1) == roots
    ensures Everything(g, roots) == [] || Everything(g, roots)[0].depth == 0
  {
    if roots != [] {
      var first, rest := Listing(g, Root(roots[0])), Everything(g, roots[1..]);
      EverythingComplete(g, roots[1..]);
      ListingComplete(g, Root(roots[0]));
      ListingDeeper(g, Root(roots[0]));
      assert Everything(g, roots) == first + rest;
      hide Listing, Everything, Below, Complete;
      CompleteConcat(g, first, rest, 0);
      TreeDirect(g, Root(roots[0]), rest);
    }
  }

  /** As far as a walk came: the first roots, and below each node the first of its children, in document order. */
  ghost predicate InOrder(g: Graph, roots: seq<Ref>, l: seq<Node>) {
    Direct(l, -1) <= roots && forall i :: 0 <= i < |l| ==> Direct(l[i + 1..], l[i].depth) <= Kids(g, l[i])
  }

  lemma {:induction false} DirectPrefix(l: seq<Node>, whole: seq<Node>, d: int)
    requires l <= whole
    ensures Direct(l, d) <= Direct(whole, d)
  {
    if l != [] {
      DirectPrefix(l[1..], whole[1..], d);
    }
  }

  lemma PrefixInOrder(g: Graph, roots: seq<Ref>, l: seq<Node>, whole: seq<Node>)
    requires l <= whole && Complete(g, whole) && Direct(whole, -1) == roots
    ensures InOrder(g, roots, l)
  {
    DirectPrefix(l, whole, -1);
    forall i | 0 <= i < |l| ensures Direct(l[i + 1..], l[i].depth) <= Kids(g, l[i]) {
      assert CompleteAt(g, whole, i);
      DirectPrefix(l[i + 1..], whole[i + 1..], l[i].depth);
    }
  }
}
