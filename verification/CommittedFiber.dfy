/** committed of edge_extension/conversation-evidence.js: from any fiber of the page up to its
    root, and down again through the committed tree, within fixed budgets. The heap may hold
    any graph, with cycles of return and of sibling links. */
module CommittedFiber {
  import opened Basics

  const MAX_PATH := 2048
  const SIBLING_BUDGET := 4096
  const HOST_ROOT := 3

  class FiberRoot {
    var current: Fiber?
  }

  class Fiber {
    var tag: int
    var stateNode: FiberRoot?   // of a host root
    var parent: Fiber?          // the field named return
    var child: Fiber?
    var sibling: Fiber?
    var alternate: Fiber?
  }

  // ---------------------------------------------------------------- what the walk means

  /** The return links of path lead to top, the first host root among them. */
  ghost predicate Climbs(at: Fiber?, path: seq<Fiber>, top: Fiber)
    reads *
    decreases |path|
  {
    at != null &&
    if path == [] then at == top && at.tag == 3
    else path[0] == at && at.tag != 3 && Climbs(at.parent, path[1..], top)
  }

  /** list is the whole sibling chain that starts at child. */
  ghost predicate SiblingChain(child: Fiber?, list: seq<Fiber>)
    reads *
    decreases |list|
  {
    if list == [] then child == null else child == list[0] && SiblingChain(list[0].sibling, list[1..])
  }

  /** child is the walked fiber p or its alternate. */
  predicate Matches(c: Fiber, p: Fiber)
    reads p
  {
    c == p || p.alternate == c
  }

  predicate MatchAt(list: seq<Fiber>, p: Fiber, j: nat)
    requires j < |list|
    reads p
  {
    list[j] == p || list[j] == p.alternate
  }

  /** Position j of a sibling chain is the only one that matches p. */
  ghost predicate OnlyMatch(list: seq<Fiber>, p: Fiber, j: nat)
    reads p
  {
    j < |list| && forall i: nat :: i < |list| ==> (MatchAt(list, p, i) <==> i == j)
  }

  // ---------------------------------------------------------------- as functions of the heap

  datatype Route = Route(path: seq<Fiber>, top: Fiber)

  /** The climb with n fibers to look at. */
  ghost function Climb(at: Fiber?, n: nat): (r: Option<Route>)
    reads *
    ensures r.Some? ==> |r.value.path| < n && Climbs(at, r.value.path, r.value.top)
  {
    if n == 0 || at == null then None
    else if at.tag == HOST_ROOT then Some(Route([], at))
    else
      var above := Climb(at.parent, n - 1);
      if above.None? then None else Some(Route([at] + above.value.path, above.value.top))
  }

  /** The sibling chain, if it has at most n members. */
  ghost function Siblings(child: Fiber?, n: nat): (r: Option<seq<Fiber>>)
    reads *
    ensures r.Some? ==> |r.value| <= n && SiblingChain(child, r.value)
  {
    if child == null then Some([])
    else if n == 0 then None
    else
      var rest := Siblings(child.sibling, n - 1);
      if rest.None? then None else Some([child] + rest.value)
  }

  ghost function Matching(list: seq<Fiber>, p: Fiber): (r: seq<Fiber>)
    reads p
    ensures |r| <= |list|
  {
    if list == [] then []
    else Matching(list[..|list| - 1], p) + if Matches(list[|list| - 1], p) then [list[|list| - 1]] else []
  }

  /** One level down: the only matching child of node, with what is left of the budget. */
  ghost function Descend(node: Fiber, p: Fiber, budget: nat): Option<(Fiber, nat)>
    reads *
  {
    var list := Siblings(node.child, budget);
    if list.None? || |Matching(list.value, p)| != 1 then None
    else Some((Matching(list.value, p)[0], budget - |list.value|))
  }

  /** The committed fibers from the walked one up to node. */
  ghost function Walk(path: seq<Fiber>, node: Fiber, budget: nat): (r: Option<seq<Fiber>>)
    reads *
    ensures r.Some? ==> |r.value| == |path| + 1 && r.value[|path|] == node
    decreases |path|
  {
    if path == [] then Some([node])
    else
      var down := Descend(node, path[|path| - 1], budget);
      if down.None? then None
      else
        var below := Walk(path[..|path| - 1], down.value.0, down.value.1);
        if below.None? then None else Some(below.value + [node])
  }

  ghost predicate CurrentOf(top: Fiber, current: Fiber)
    reads *
  {
    top.stateNode != null && top.stateNode.current == current && (current == top || top.alternate == current)
  }

  /** The view committed returns: its nodes from the walked fiber up to the current root. */
  ghost function CommittedView(fiber: Fiber?): Option<seq<Fiber>>
    reads *
  {
    var route := Climb(fiber, MAX_PATH);
    if route.None? || route.value.top.stateNode == null || route.value.top.stateNode.current == null
       || !CurrentOf(route.value.top, route.value.top.stateNode.current)
    then None
    else Walk(route.value.path, route.value.top.stateNode.current, SIBLING_BUDGET)
  }

  // ---------------------------------------------------------------- soundness and completeness

  lemma {:induction false} OneMatch(list: seq<Fiber>, p: Fiber)
    requires |Matching(list, p)| == 1
    ensures exists j: nat :: OnlyMatch(list, p, j) && list[j] == Matching(list, p)[0]
    decreases |list|
  {
    var front, last := list[..|list| - 1], list[|list| - 1];
    if Matches(last, p) {
      NoMatch(front, p);
      assert forall i: nat :: i < |front| ==> MatchAt(list, p, i) == MatchAt(front, p, i);
      assert OnlyMatch(list, p, |list| - 1);
    } else {
      OneMatch(front, p);
      var j: nat :| OnlyMatch(front, p, j) && front[j] == Matching(front, p)[0];
      assert forall i: nat :: i < |front| ==> MatchAt(list, p, i) == MatchAt(front, p, i);
      assert OnlyMatch(list, p, j);
    }
  }

  lemma {:induction false} NoMatch(list: seq<Fiber>, p: Fiber)
    requires Matching(list, p) == []
    ensures forall i: nat :: i < |list| ==> !MatchAt(list, p, i)
    decreases |list|
  {
    if list != [] {
      var front := list[..|list| - 1];
      NoMatch(front, p);
      assert forall i: nat :: i < |front| ==> MatchAt(list, p, i) == MatchAt(front, p, i);
    }
  }

  ghost function Total(lists: seq<seq<Fiber>>): nat {
    if lists == [] then 0 else Total(lists[..|lists| - 1]) + |lists[|lists| - 1]|
  }

  /** A descent along path: view[i] is the only match for path[i] in the sibling chain lists[i]
      of the children of view[i + 1]. */
  ghost predicate Descent(path: seq<Fiber>, view: seq<Fiber>, lists: seq<seq<Fiber>>, at: seq<nat>)
    reads *
  {
    && |view| == |path| + 1 && |lists| == |path| == |at|
    && forall i: nat :: i < |path| ==> DescentAt(path[i], view[i], view[i + 1], lists[i], at[i])
  }

  ghost predicate DescentAt(p: Fiber, lower: Fiber, upper: Fiber, list: seq<Fiber>, j: nat)
    reads *
  {
    SiblingChain(upper.child, list) && OnlyMatch(list, p, j) && list[j] == lower
  }

  lemma DescentMore(path: seq<Fiber>, below: seq<Fiber>, node: Fiber, lists: seq<seq<Fiber>>, at: seq<nat>, list: seq<Fiber>, j: nat)
    requires path != [] && Descent(path[..|path| - 1], below, lists, at)
    requires DescentAt(path[|path| - 1], below[|path| - 1], node, list, j)
    ensures Descent(path, below + [node], lists + [list], at + [j]) && Total(lists + [list]) == Total(lists) + |list|
  {
    var last, view := |path| - 1, below + [node];
    hide DescentAt;
    assert (lists + [list])[..|lists|] == lists;
    forall i: nat | i < |path| ensures DescentAt(path[i], view[i], view[i + 1], (lists + [list])[i], (at + [j])[i]) {
      if i < last {
        assert DescentAt(path[..last][i], below[i], below[i + 1], lists[i], at[i]);
      }
    }
  }

  lemma LevelIsSound(node: Fiber, p: Fiber, budget: nat) returns (list: seq<Fiber>, j: nat)
    requires Descend(node, p, budget).Some?
    ensures DescentAt(p, Descend(node, p, budget).value.0, node, list, j)
    ensures Descend(node, p, budget).value.1 + |list| == budget
  {
    list := Siblings(node.child, budget).value;
    OneMatch(list, p);
    j :| OnlyMatch(list, p, j) && list[j] == Matching(list, p)[0];
  }

  lemma {:induction false} WalkIsSound(path: seq<Fiber>, node: Fiber, budget: nat) returns (lists: seq<seq<Fiber>>, at: seq<nat>)
    requires Walk(path, node, budget).Some?
    ensures Descent(path, Walk(path, node, budget).value, lists, at) && Total(lists) <= budget
    decreases |path|
  {
    if path == [] {
      lists, at := [], [];
    } else {
      var last := |path| - 1;
      var list, j := LevelIsSound(node, path[last], budget);
      var down := Descend(node, path[last], budget).value;
      hide Descend, DescentAt;
      lists, at := WalkIsSound(path[..last], down.0, down.1);
      DescentMore(path, Walk(path[..last], down.0, down.1).value, node, lists, at, list, j);
      lists, at := lists + [list], at + [j];
    }
  }

  /** The node is the current one of the root's own record, and the host root or its alternate. */
  ghost predicate IsCurrent(top: Fiber, node: Fiber)
    reads *
  {
    top.stateNode != null && top.stateNode.current == node && (node == top || top.alternate == node)
  }

  /** A view, from the root's current node down to the walked fiber or its alternate: each node is
      a child of the one above it and, among its siblings, the only one that is the walked fiber of
      its level or that fiber's alternate; the path has fewer than 2048 fibers, and all the sibling
      chains passed together at most 4096. */
  ghost predicate CommittedPath(fiber: Fiber?, view: seq<Fiber>, path: seq<Fiber>, top: Fiber, lists: seq<seq<Fiber>>, at: seq<nat>)
    reads *
  {
    && Climbs(fiber, path, top) && |path| < 2048
    && Descent(path, view, lists, at) && Total(lists) <= 4096 && IsCurrent(top, view[|path|])
  }

  /** Any view that committed returns is that of a committed path. */
  lemma ViewIsACommittedPath(fiber: Fiber?)
    requires CommittedView(fiber).Some?
    ensures exists path, top, lists, at :: CommittedPath(fiber, CommittedView(fiber).value, path, top, lists, at)
  {
    var view, route := CommittedView(fiber).value, Climb(fiber, MAX_PATH).value;
    var lists, at := WalkIsSound(route.path, view[|route.path|], SIBLING_BUDGET);
    assert CommittedPath(fiber, view, route.path, route.top, lists, at);
  }

  lemma {:induction false} ClimbFinds(at: Fiber?, path: seq<Fiber>, top: Fiber, n: nat)
    requires Climbs(at, path, top) && |path| < n
    ensures Climb(at, n) == Some(Route(path, top))
    decreases |path|
  {
    if path != [] {
      ClimbFinds(at.parent, path[1..], top, n - 1);
      assert [at] + path[1..] == path;
    }
  }

  lemma {:induction false} SiblingsFinds(child: Fiber?, list: seq<Fiber>, n: nat)
    requires SiblingChain(child, list) && |list| <= n
    ensures Siblings(child, n) == Some(list)
    decreases |list|
  {
    if list != [] {
      SiblingsFinds(list[0].sibling, list[1..], n - 1);
      assert [child] + list[1..] == list;
    }
  }

  lemma {:induction false} MatchingFinds(list: seq<Fiber>, p: Fiber, j: nat)
    requires OnlyMatch(list, p, j)
    ensures Matching(list, p) == [list[j]]
    decreases |list|
  {
    var front, last := list[..|list| - 1], |list| - 1;
    assert forall i: nat :: i < |front| ==> MatchAt(list, p, i) == MatchAt(front, p, i);
    assert MatchAt(list, p, last) <==> last == j;
    if j == last {
      NothingMatches(front, p);
    } else {
      MatchingFinds(front, p, j);
    }
  }

  lemma {:induction false} NothingMatches(list: seq<Fiber>, p: Fiber)
    requires forall i: nat :: i < |list| ==> !MatchAt(list, p, i)
    ensures Matching(list, p) == []
    decreases |list|
  {
    if list != [] {
      var front := list[..|list| - 1];
      assert forall i: nat :: i < |front| ==> MatchAt(list, p, i) == MatchAt(front, p, i);
      assert !MatchAt(list, p, |list| - 1);
      NothingMatches(front, p);
    }
  }

  lemma {:induction false} WalkFinds(path: seq<Fiber>, view: seq<Fiber>, lists: seq<seq<Fiber>>, at: seq<nat>, budget: nat)
    requires Descent(path, view, lists, at) && Total(lists) <= budget
    ensures Walk(path, view[|path|], budget) == Some(view)
    decreases |path|
  {
    if path == [] {
      assert view == [view[0]];
    } else {
      var last := |path| - 1;
      assert DescentAt(path[last], view[last], view[last + 1], lists[last], at[last]);
      SiblingsFinds(view[|path|].child, lists[last], budget);
      MatchingFinds(lists[last], path[last], at[last]);
      assert Descent(path[..last], view[..|path|], lists[..last], at[..last]) by {
        forall i: nat | i < last
          ensures DescentAt(path[..last][i], view[..|path|][i], view[..|path|][i + 1], lists[..last][i], at[..last][i])
        {
          assert DescentAt(path[i], view[i], view[i + 1], lists[i], at[i]);
        }
      }
      WalkFinds(path[..last], view[..|path|], lists[..last], at[..last], budget - |lists[last]|);
      assert view[..|path|] + [view[|path|]] == view;
    }
  }

  /** And every such path is found. */
  lemma CommittedPathIsFound(fiber: Fiber?, path: seq<Fiber>, top: Fiber, view: seq<Fiber>, lists: seq<seq<Fiber>>, at: seq<nat>)
    requires CommittedPath(fiber, view, path, top, lists, at)
    ensures CommittedView(fiber) == Some(view)
  {
    ClimbFinds(fiber, path, top, MAX_PATH);
    WalkFinds(path, view, lists, at, SIBLING_BUDGET);
  }

  // ---------------------------------------------------------------- the reader

  /** The fibers passed so far: none of them a host root, each returning to the next. */
  ghost predicate Linked(path: seq<Fiber>, at: Fiber?)
    reads *
  {
    forall i: nat :: i < |path| ==> LinkedAt(path, at, i)
  }

  ghost predicate LinkedAt(path: seq<Fiber>, at: Fiber?, i: nat)
    requires i < |path|
    reads *
  {
    var next := i + 1;
    path[i].tag != HOST_ROOT && path[i].parent == if next < |path| then path[next] else at
  }

  /** A return chain that comes back to itself never reaches a host root. */
  lemma {:induction false} CycleNeverEnds(path: seq<Fiber>, at: Fiber, j: nat, i: nat, n: nat)
    requires Linked(path, at) && j <= i < |path| && path[j] == at
    ensures Climb(path[i], n) == None
    decreases n
  {
    if n > 0 {
      assert LinkedAt(path, at, i);
      CycleNeverEnds(path, at, j, if i + 1 < |path| then i + 1 else j, n - 1);
    }
  }

  ghost function Below(path: seq<Fiber>, r: Option<Route>): Option<Route> {
    if r.None? then None else Some(Route(path + r.value.path, r.value.top))
  }

  /** Nothing above, below or beside changes nothing. */
  lemma Nothing(r: Option<Route>, l: Option<seq<Fiber>>)
    ensures Below([], r) == r && After([], l) == l && Under(l, []) == l
  {
    if r.Some? {
      assert [] + r.value.path == r.value.path;
    }
    if l.Some? {
      assert [] + l.value == l.value == l.value + [];
    }
  }

  lemma BelowOneMore(path: seq<Fiber>, at: Fiber, n: nat)
    requires at.tag != HOST_ROOT && n > 0
    ensures Below(path, Climb(at, n)) == Below(path + [at], Climb(at.parent, n - 1))
  {
    var above := Climb(at.parent, n - 1);
    if above.Some? {
      assert path + ([at] + above.value.path) == (path + [at]) + above.value.path;
    }
  }

  lemma LinkedOneMore(path: seq<Fiber>, at: Fiber)
    requires Linked(path, at) && at.tag != HOST_ROOT
    ensures Linked(path + [at], at.parent)
  {
    var path' := path + [at];
    forall i: nat | i < |path'| ensures LinkedAt(path', at.parent, i) {
      if i < |path| {
        assert LinkedAt(path, at, i);
      }
    }
  }

  ghost function After(done: seq<Fiber>, r: Option<seq<Fiber>>): Option<seq<Fiber>> {
    if r.None? then None else Some(done + r.value)
  }

  lemma AfterOneMore(done: seq<Fiber>, child: Fiber, n: nat)
    requires n > 0
    ensures After(done, Siblings(child, n)) == After(done + [child], Siblings(child.sibling, n - 1))
  {
    var rest := Siblings(child.sibling, n - 1);
    if rest.Some? {
      assert done + ([child] + rest.value) == (done + [child]) + rest.value;
    }
  }

  lemma MatchingOneMore(done: seq<Fiber>, child: Fiber, p: Fiber)
    ensures Matching(done + [child], p) == Matching(done, p) + if Matches(child, p) then [child] else []
  {
    assert (done + [child])[..|done|] == done;
  }

  lemma {:induction false} MatchingGrows(done: seq<Fiber>, rest: seq<Fiber>, p: Fiber)
    ensures |Matching(done, p)| <= |Matching(done + rest, p)|
    decreases |rest|
  {
    if rest == [] {
      assert done + rest == done;
    } else {
      MatchingGrows(done, rest[..|rest| - 1], p);
      assert (done + rest)[..|done + rest| - 1] == done + rest[..|rest| - 1];
    }
  }

  lemma ClimbEnds(at: Fiber?, n: nat, path: seq<Fiber>)
    ensures at == null || n == 0 ==> Climb(at, n) == None
    ensures at != null && n > 0 && at.tag == HOST_ROOT ==> Below(path, Climb(at, n)) == Some(Route(path, at))
  {
    assert path + [] == path;
  }

  /** The climb from a fiber to its root. It always ends: the path is bounded, and a fiber met
      again ends it at once. */
  method ClimbToRoot(fiber: Fiber?) returns (r: Option<Route>)
    ensures r == Climb(fiber, MAX_PATH)
  {
    var path: seq<Fiber>, seen: set<Fiber>, at: Fiber? := [], {}, fiber;
    hide Climb;
    Nothing(Climb(fiber, MAX_PATH), None);
    while at != null && |path| < MAX_PATH
      invariant |path| <= MAX_PATH && seen == set f | f in path
      invariant Linked(path, at)
      invariant Climb(fiber, MAX_PATH) == Below(path, Climb(at, MAX_PATH - |path|))
      decreases MAX_PATH - |path|
    {
      if at in seen {
        var j: nat :| j < |path| && path[j] == at;
        CycleNeverEnds(path, at, j, j, MAX_PATH - |path|);
        return None;
      }
      seen := seen + {at};
      ClimbEnds(at, MAX_PATH - |path|, path);
      if at.tag == HOST_ROOT {
        return Some(Route(path, at));
      }
      LinkedOneMore(path, at);
      BelowOneMore(path, at, MAX_PATH - |path|);
      path := path + [at];
      at := at.parent;
    }
    ClimbEnds(at, MAX_PATH - |path|, path);
    return None;
  }

  lemma ChainEnds(child: Fiber?, n: nat, done: seq<Fiber>)
    ensures child == null ==> Siblings(child, n) == Some([]) && After(done, Siblings(child, n)) == Some(done)
    ensures child != null && n == 0 ==> Siblings(child, n) == None
  {
    assert done + [] == done;
  }

  lemma NoLevel(node: Fiber, p: Fiber, start: nat, done: seq<Fiber>)
    requires Siblings(node.child, start) == After(done, None)
    ensures Descend(node, p, start) == None
  {
  }

  lemma NoMatches(p: Fiber)
    ensures Matching([], p) == []
  {
  }

  /** Two matches so far stay two, however the chain goes on. */
  lemma TwoMatches(node: Fiber, p: Fiber, start: nat, done: seq<Fiber>, rest: Option<seq<Fiber>>)
    requires Siblings(node.child, start) == After(done, rest) && |Matching(done, p)| > 1
    ensures Descend(node, p, start) == None
  {
    if rest.Some? {
      MatchingGrows(done, rest.value, p);
    }
  }

  /** The walk over one level: the matching child, provided it is the only one. */
  method DescendOne(node: Fiber, p: Fiber, start: nat) returns (selected: Fiber?, left: nat)
    ensures if selected == null then Descend(node, p, start) == None else Descend(node, p, start) == Some((selected, left))
  {
    hide Siblings, Matching, After;
    var child, budget: nat := node.child, start;
    ghost var done: seq<Fiber> := [];
    Nothing(None, Siblings(node.child, start));
    NoMatches(p);
    selected := null;
    while child != null
      invariant budget <= start && |done| == start - budget
      invariant Siblings(node.child, start) == After(done, Siblings(child, budget))
      invariant Matching(done, p) == if selected == null then [] else [selected]
      decreases budget
    {
      ChainEnds(child, budget, done);
      if budget == 0 {
        NoLevel(node, p, start, done);
        return null, 0;
      }
      AfterOneMore(done, child, budget);
      MatchingOneMore(done, child, p);
      budget := budget - 1;
      done := done + [child];
      if child == p || child == p.alternate {
        if selected != null {
          TwoMatches(node, p, start, done, Siblings(child.sibling, budget));
          return null, budget;
        }
        selected := child;
      }
      child := child.sibling;
    }
    ChainEnds(child, budget, done);
    return selected, budget;
  }

  ghost function Under(r: Option<seq<Fiber>>, upper: seq<Fiber>): Option<seq<Fiber>> {
    if r.None? then None else Some(r.value + upper)
  }

  lemma UnderOneMore(path: seq<Fiber>, node: Fiber, budget: nat, upper: seq<Fiber>)
    requires path != []
    ensures var down := Descend(node, path[|path| - 1], budget);
      Under(Walk(path, node, budget), upper)
      == if down.None? then None else Under(Walk(path[..|path| - 1], down.value.0, down.value.1), [node] + upper)
  {
    var down := Descend(node, path[|path| - 1], budget);
    if down.Some? {
      var below := Walk(path[..|path| - 1], down.value.0, down.value.1);
      if below.Some? {
        assert (below.value + [node]) + upper == below.value + ([node] + upper);
      }
    }
  }

  /** committed. The view is built from the root downwards. */
  method Committed(fiber: Fiber?) returns (r: Option<seq<Fiber>>)
    ensures r == CommittedView(fiber)
    ensures r.Some? ==> exists path, top, lists, at :: CommittedPath(fiber, r.value, path, top, lists, at)
  {
    var route := ClimbToRoot(fiber);
    if route.None? {
      return None;
    }
    var path, top := route.value.path, route.value.top;
    var root := top.stateNode;
    if root == null {
      return None;
    }
    var current := root.current;
    if current == null || (current != top && current != top.alternate) {
      return None;
    }
    r := WalkDown(path, root, current);
    if r.Some? {
      ViewIsACommittedPath(fiber);
    }
    hide *;
  }

  /** From the current root down along the path; the root must stay current throughout. */
  method WalkDown(path: seq<Fiber>, root: FiberRoot, current: Fiber) returns (r: Option<seq<Fiber>>)
    requires root.current == current
    ensures r == Walk(path, current, SIBLING_BUDGET)
  {
    hide Descend;
    var node: Fiber, index: nat, budget: nat := current, |path|, SIBLING_BUDGET;
    var upper: seq<Fiber> := [];
    Nothing(None, Walk(path, current, SIBLING_BUDGET));
    assert path[..|path|] == path;
    while index > 0
      invariant index <= |path|
      invariant Walk(path, current, SIBLING_BUDGET) == Under(Walk(path[..index], node, budget), upper)
    {
      UnderOneMore(path[..index], node, budget, upper);
      assert path[..index][..index - 1] == path[..index - 1];
      index := index - 1;
      var selected, left := DescendOne(node, path[index], budget);
      if selected == null || root.current != current {
        return None;
      }
      upper, budget := [node] + upper, left;
      node := selected;
    }
    return Some([node] + upper);
  }
}
