/** The causal forest of a session (cmd/gt-mcp/trace_timeline.go:160-275). */
module Timelines {
  import opened Util

  /** `cause` is empty when the event has none. Ids may repeat; events are named by their position. */
  datatype Event = Event(id: string, cause: string, time: int)

  /** The last event with an id: later ones replace earlier ones in the index. */
  function Last(ev: seq<Event>, id: string): (r: Option<nat>)
    ensures r.Some? ==> r.value < |ev| && ev[r.value].id == id
    ensures r.None? <==> forall k :: 0 <= k < |ev| ==> ev[k].id != id
  {
    if ev == [] then None
    else if ev[|ev| - 1].id == id then Some(|ev| - 1)
    else Last(ev[..|ev| - 1], id)
  }

  function Parent(ev: seq<Event>, i: nat): (r: Option<nat>)
    requires i < |ev|
    ensures r.Some? ==> r.value < |ev|
  {
    if ev[i].cause == "" then None else Last(ev, ev[i].cause)
  }

  /** The parent of every event, the shape of the whole forest. */
  ghost function Parents(ev: seq<Event>): (par: seq<Option<nat>>)
    ensures |par| == |ev| && Ok(par) && forall i :: 0 <= i < |ev| ==> par[i] == Parent(ev, i)
  {
    seq(|ev|, i requires 0 <= i < |ev| => Parent(ev, i))
  }

  lemma {:induction false} LastIsLast(ev: seq<Event>, id: string)
    ensures var r := Last(ev, id); r.Some? ==> forall k :: r.value < k < |ev| ==> ev[k].id != id
  {
    if ev != [] && ev[|ev| - 1].id != id { LastIsLast(ev[..|ev| - 1], id); }
  }

  /** An event hangs from the last event that has its cause for an id, itself included, and from none exactly if it
      names no cause or none in the window has that id. */
  lemma ParentExactly(ev: seq<Event>, i: nat, p: nat)
    requires i < |ev|
    ensures Parents(ev)[i] == Some(p) <==>
              && ev[i].cause != "" && p < |ev| && ev[p].id == ev[i].cause
              && forall k :: p < k < |ev| ==> ev[k].id != ev[i].cause
    ensures Parents(ev)[i].None? <==> ev[i].cause == "" || forall k :: 0 <= k < |ev| ==> ev[k].id != ev[i].cause
  {
    LastIsLast(ev, ev[i].cause);
  }

  ghost predicate Ok(par: seq<Option<nat>>) {
    forall i :: 0 <= i < |par| && par[i].Some? ==> par[i].value < |par|
  }

  /** The nodes before `k` hanging from `p`, and those that hang from nothing, in order. */
  ghost function Kids(par: seq<Option<nat>>, p: Option<nat>, k: nat): seq<nat>
    requires k <= |par|
  {
    if k == 0 then [] else Kids(par, p, k - 1) + (if par[k - 1] == p then [k - 1] else [])
  }

  ghost predicate Rising(s: seq<nat>) { forall i, j :: 0 <= i < j < |s| ==> s[i] < s[j] }

  lemma {:induction false} KidsShape(par: seq<Option<nat>>, p: Option<nat>, k: nat)
    requires k <= |par|
    ensures Rising(Kids(par, p, k))
    ensures forall x: nat :: x in Kids(par, p, k) <==> x < k && par[x] == p
  {
    if k > 0 {
      KidsShape(par, p, k - 1);
      var c := Kids(par, p, k - 1);
      forall i | 0 <= i < |c| ensures c[i] < k - 1 { assert c[i] in c; }
    }
  }

  // ---------- Depth and ancestors ----------

  /** The chain of causes from `i` ends at a root after `d` steps. */
  ghost predicate Depth(par: seq<Option<nat>>, i: nat, d: nat)
    requires Ok(par) && i < |par|
    decreases d
  {
    if d == 0 then par[i].None? else par[i].Some? && Depth(par, par[i].value, d - 1)
  }

  lemma {:induction false} DepthUnique(par: seq<Option<nat>>, i: nat, d: nat, e: nat)
    requires Ok(par) && i < |par| && Depth(par, i, d) && Depth(par, i, e)
    ensures d == e
    decreases d
  {
    if d > 0 && e > 0 { DepthUnique(par, par[i].value, d - 1, e - 1); }
  }

  /** The ancestor of `i`, itself at depth `e`, that is at depth `d`. */
  ghost function Ancestor(par: seq<Option<nat>>, i: nat, e: nat, d: nat): (a: nat)
    requires Ok(par) && i < |par| && Depth(par, i, e) && d <= e
    ensures a < |par| && Depth(par, a, d)
    decreases e
  {
    if e == d then i else Ancestor(par, par[i].value, e - 1, d)
  }

  lemma {:induction false} AncestorStep(par: seq<Option<nat>>, i: nat, e: nat, d: nat)
    requires Ok(par) && i < |par| && Depth(par, i, e) && d < e
    ensures par[Ancestor(par, i, e, d + 1)] == Some(Ancestor(par, i, e, d))
    decreases e
  {
    if d + 1 < e { AncestorStep(par, par[i].value, e - 1, d); }
  }

  ghost function Chain(par: seq<Option<nat>>, i: nat, d: nat): (s: seq<nat>)
    requires Ok(par) && i < |par| && Depth(par, i, d)
    decreases d
    ensures |s| == d + 1 && forall j :: 0 <= j <= d ==> s[j] < |par| && Depth(par, s[j], d - j)
  {
    if d == 0 then [i] else [i] + Chain(par, par[i].value, d - 1)
  }

  /** No chain from an event to a root is longer than there are events. */
  lemma DepthBounded(par: seq<Option<nat>>, i: nat, d: nat)
    requires Ok(par) && i < |par| && Depth(par, i, d)
    ensures d < |par|
  {
    var s := Chain(par, i, d);
    forall j, k | 0 <= j < k < |s| ensures s[j] != s[k] {
      if s[j] == s[k] { DepthUnique(par, s[j], d - j, d - k); }
    }
    Pigeonhole(s, |par|);
  }

  // ---------- Which nodes the forest holds ----------

  /** `i` lies at or below one of `nodes`, all of which are at depth `d`. */
  ghost predicate Under(par: seq<Option<nat>>, i: nat, d: nat, nodes: seq<nat>)
    requires Ok(par) && i < |par|
  {
    exists e: nat :: d <= e && Depth(par, i, e) && Ancestor(par, i, e, d) in nodes
  }

  ghost predicate AtDepth(par: seq<Option<nat>>, nodes: seq<nat>, d: nat)
    requires Ok(par)
  {
    Distinct(nodes) && forall j :: 0 <= j < |nodes| ==> nodes[j] < |par| && Depth(par, nodes[j], d)
  }

  /** Below `x` are `x` itself and what is below its children. */
  lemma UnderOne(par: seq<Option<nat>>, i: nat, e: nat, d: nat, x: nat)
    requires Ok(par) && i < |par| && x < |par| && Depth(par, x, d) && Depth(par, i, e) && d <= e
    ensures Ancestor(par, i, e, d) == x <==> i == x || (d < e && Ancestor(par, i, e, d + 1) in Kids(par, Some(x), |par|))
    ensures i == x ==> e == d
  {
    KidsShape(par, Some(x), |par|);
    if d < e { AncestorStep(par, i, e, d); }
    if i == x { DepthUnique(par, i, d, e); }
  }

  /** The child lists: some arrangement of each node's children. */
  ghost predicate Lists(par: seq<Option<nat>>, ch: seq<seq<nat>>) {
    |ch| == |par| && forall x :: 0 <= x < |par| ==> Lists1(par, ch[x], x)
  }

  ghost predicate Lists1(par: seq<Option<nat>>, c: seq<nat>, x: nat) {
    Distinct(c) && forall y: nat :: y in c <==> y < |par| && par[y] == Some(x)
  }

  lemma ListAtDepth(par: seq<Option<nat>>, c: seq<nat>, x: nat, d: nat)
    requires Ok(par) && x < |par| && Depth(par, x, d) && Lists1(par, c, x)
    ensures AtDepth(par, c, d + 1)
  {
    forall j | 0 <= j < |c| ensures c[j] < |par| && Depth(par, c[j], d + 1) { assert c[j] in c; }
  }

  datatype Tree = Node(index: nat, children: seq<Tree>)

  /** The trees below `nodes`, all at depth `d`, as the serialised timeline shows them. */
  ghost function Trees(par: seq<Option<nat>>, ch: seq<seq<nat>>, nodes: seq<nat>, d: nat): seq<Tree>
    requires Ok(par) && Lists(par, ch) && AtDepth(par, nodes, d)
    decreases if d <= |par| then |par| - d else 0, |nodes|
  {
    if nodes == [] then []
    else
      var x := nodes[0];
      DepthBounded(par, x, d);
      ListAtDepth(par, ch[x], x, d);
      [Node(x, Trees(par, ch, ch[x], d + 1))] + Trees(par, ch, nodes[1..], d)
  }

  ghost function Count(trees: seq<Tree>, i: nat): nat {
    if trees == [] then 0
    else (if trees[0].index == i then 1 else 0) + Count(trees[0].children, i) + Count(trees[1..], i)
  }

  lemma UnderHead(par: seq<Option<nat>>, ch: seq<seq<nat>>, nodes: seq<nat>, d: nat, i: nat)
    requires Ok(par) && Lists(par, ch) && AtDepth(par, nodes, d) && nodes != [] && i < |par|
    ensures var x := nodes[0];
            var here, below, rest := i == x, Under(par, i, d + 1, ch[x]), Under(par, i, d, nodes[1..]);
            && (Under(par, i, d, nodes) <==> here || below || rest)
            && !(here && below) && !(here && rest) && !(below && rest)
  {
    var x := nodes[0];
    assert Lists1(par, ch[x], x);
    KidsShape(par, Some(x), |par|);
    if e: nat :| Depth(par, i, e) {
      forall f: nat | Depth(par, i, f) ensures f == e { DepthUnique(par, i, e, f); }
      if d <= e {
        UnderOne(par, i, e, d, x);
        assert nodes == [x] + nodes[1..] && x !in nodes[1..];
        if d < e { AncestorStep(par, i, e, d); }
      }
      if i == x { DepthUnique(par, i, d, e); }
    }
  }

  /** An event occurs in the trees once if it is below their roots, and not at all otherwise. */
  lemma {:induction false} CountUnder(par: seq<Option<nat>>, ch: seq<seq<nat>>, nodes: seq<nat>, d: nat, i: nat)
    requires Ok(par) && Lists(par, ch) && AtDepth(par, nodes, d) && i < |par|
    ensures Count(Trees(par, ch, nodes, d), i) == if Under(par, i, d, nodes) then 1 else 0
    decreases if d <= |par| then |par| - d else 0, |nodes|
  {
    if nodes != [] {
      var x := nodes[0];
      DepthBounded(par, x, d);
      ListAtDepth(par, ch[x], x, d);
      CountUnder(par, ch, ch[x], d + 1, i);
      CountUnder(par, ch, nodes[1..], d, i);
      UnderHead(par, ch, nodes, d, i);
      CountCons(Node(x, Trees(par, ch, ch[x], d + 1)), Trees(par, ch, nodes[1..], d), i);
    }
  }

  lemma CountCons(t: Tree, ts: seq<Tree>, i: nat)
    ensures Count([t] + ts, i) == (if t.index == i then 1 else 0) + Count(t.children, i) + Count(ts, i)
  {
    assert ([t] + ts)[1..] == ts;
  }

  ghost predicate Rooted(par: seq<Option<nat>>, i: nat)
    requires Ok(par) && i < |par|
  {
    exists d: nat :: Depth(par, i, d)
  }

  lemma RootsAtDepth(par: seq<Option<nat>>)
    requires Ok(par)
    ensures AtDepth(par, Kids(par, None, |par|), 0)
  {
    var r := Kids(par, None, |par|);
    KidsShape(par, None, |par|);
    forall j | 0 <= j < |r| ensures r[j] < |par| && Depth(par, r[j], 0) { assert r[j] in r; }
  }

  lemma UnderRoots(par: seq<Option<nat>>, i: nat)
    requires Ok(par) && i < |par|
    ensures Under(par, i, 0, Kids(par, None, |par|)) <==> Rooted(par, i)
  {
    KidsShape(par, None, |par|);
    if e: nat :| Depth(par, i, e) {
      var a := Ancestor(par, i, e, 0);
      assert Depth(par, a, 0);
      assert a in Kids(par, None, |par|);
    }
  }

  /** In the returned trees an event occurs exactly once if its chain of causes ends, and never if the chain
      runs into a cycle. */
  lemma OccursOnceIffRooted(par: seq<Option<nat>>, ch: seq<seq<nat>>, i: nat)
    requires Ok(par) && Lists(par, ch) && i < |par|
    ensures AtDepth(par, Kids(par, None, |par|), 0)
    ensures Count(Trees(par, ch, Kids(par, None, |par|), 0), i) == if Rooted(par, i) then 1 else 0
  {
    RootsAtDepth(par);
    CountUnder(par, ch, Kids(par, None, |par|), 0, i);
    UnderRoots(par, i);
  }

  // ---------- Cycles ----------

  /** The ancestor `k` generations up, if there are so many. */
  ghost function Up(par: seq<Option<nat>>, i: nat, k: nat): (a: Option<nat>)
    requires Ok(par) && i < |par|
    ensures a.Some? ==> a.value < |par|
    decreases k
  {
    if k == 0 then Some(i) else if par[i].None? then None else Up(par, par[i].value, k - 1)
  }

  ghost predicate Acyclic(par: seq<Option<nat>>)
    requires Ok(par)
  {
    forall i: nat, k: nat :: i < |par| && k > 0 ==> Up(par, i, k) != Some(i)
  }

  lemma {:induction false} UpDepth(par: seq<Option<nat>>, i: nat, d: nat, k: nat)
    requires Ok(par) && i < |par| && Depth(par, i, d) && Up(par, i, k).Some?
    ensures k <= d && Depth(par, Up(par, i, k).value, d - k)
    decreases k
  {
    if k > 0 { UpDepth(par, par[i].value, d - 1, k - 1); }
  }

  lemma UnrootedParent(par: seq<Option<nat>>, i: nat)
    requires Ok(par) && i < |par| && !Rooted(par, i)
    ensures par[i].Some? && !Rooted(par, par[i].value)
  {
    assert !Depth(par, i, 0);
    if Rooted(par, par[i].value) {
      var d: nat :| Depth(par, par[i].value, d);
      assert Depth(par, i, d + 1);
    }
  }

  ghost function Walk(par: seq<Option<nat>>, i: nat, k: nat): (s: seq<nat>)
    requires Ok(par) && i < |par| && !Rooted(par, i)
    ensures |s| == k + 1 && s[0] == i && forall j :: 0 <= j <= k ==> s[j] < |par|
    decreases k
  {
    UnrootedParent(par, i);
    if k == 0 then [i] else [i] + Walk(par, par[i].value, k - 1)
  }

  lemma {:induction false} WalkUp(par: seq<Option<nat>>, i: nat, k: nat, a: nat, b: nat)
    requires Ok(par) && i < |par| && !Rooted(par, i) && a <= b <= k
    ensures Up(par, Walk(par, i, k)[a], b - a) == Some(Walk(par, i, k)[b])
    decreases k, b
  {
    UnrootedParent(par, i);
    if a > 0 {
      WalkUp(par, par[i].value, k - 1, a - 1, b - 1);
    } else if b > 0 {
      WalkUp(par, par[i].value, k - 1, 0, b - 1);
    }
  }

  /** Every event is in the trees exactly if causation has no cycle, self-causes included. */
  lemma AllOnceIffAcyclic(par: seq<Option<nat>>)
    requires Ok(par)
    ensures Acyclic(par) <==> forall i: nat :: i < |par| ==> Rooted(par, i)
  {
    if Acyclic(par) {
      forall i: nat | i < |par| ensures Rooted(par, i) {
        if !Rooted(par, i) { RunsInCircle(par, i); }
      }
    } else {
      var i: nat, k: nat :| i < |par| && k > 0 && Up(par, i, k) == Some(i);
      if Rooted(par, i) {
        var d: nat :| Depth(par, i, d);
        UpDepth(par, i, d, k);
        DepthUnique(par, i, d, d - k);
      }
    }
  }

  lemma RunsInCircle(par: seq<Option<nat>>, i: nat)
    requires Ok(par) && i < |par| && !Rooted(par, i)
    ensures !Acyclic(par)
  {
    var s := Walk(par, i, |par|);
    if Distinct(s) { Pigeonhole(s, |par|); }
    var a, b :| 0 <= a < b < |s| && s[a] == s[b];
    WalkUp(par, i, |par|, a, b);
  }

  // ---------- Sorting the children ----------

  function TimeOf(ev: seq<Event>, i: nat): int { if i < |ev| then ev[i].time else 0 }

  /** Behind everything that is not later, as a stable sort places an element that came after the others. */
  function Insert(ev: seq<Event>, s: seq<nat>, x: nat): seq<nat>
  {
    if s == [] || TimeOf(ev, s[|s| - 1]) <= TimeOf(ev, x) then s + [x]
    else Insert(ev, s[..|s| - 1], x) + [s[|s| - 1]]
  }

  lemma {:induction false} InsertMembers(ev: seq<Event>, s: seq<nat>, x: nat)
    ensures multiset(Insert(ev, s, x)) == multiset(s) + multiset{x}
  {
    if s != [] && TimeOf(ev, s[|s| - 1]) > TimeOf(ev, x) {
      InsertMembers(ev, s[..|s| - 1], x);
      assert s == s[..|s| - 1] + [s[|s| - 1]];
    }
  }

  /** By time, and among equal times by position in the input. */
  ghost predicate Before(ev: seq<Event>, a: nat, b: nat)
  {
    TimeOf(ev, a) < TimeOf(ev, b) || (TimeOf(ev, a) == TimeOf(ev, b) && a < b)
  }

  ghost predicate Chronological(ev: seq<Event>, s: seq<nat>) {
    forall j, k :: 0 <= j < k < |s| ==> Before(ev, s[j], s[k])
  }

  lemma AppendSorted(ev: seq<Event>, s: seq<nat>, x: nat)
    requires Chronological(ev, s) && forall j :: 0 <= j < |s| ==> Before(ev, s[j], x)
    ensures Chronological(ev, s + [x])
  {}

  lemma {:induction false} InsertSorted(ev: seq<Event>, s: seq<nat>, x: nat)
    requires Chronological(ev, s) && forall j :: 0 <= j < |s| ==> s[j] < x
    ensures Chronological(ev, Insert(ev, s, x))
  {
    if s != [] && TimeOf(ev, s[|s| - 1]) > TimeOf(ev, x) {
      var front, z := s[..|s| - 1], s[|s| - 1];
      InsertSorted(ev, front, x);
      assert front + [z] == s;
      var r := Insert(ev, front, x);
      forall j | 0 <= j < |r| ensures Before(ev, r[j], z) { InsertBefore(ev, front, x, z, j); }
      AppendSorted(ev, r, z);
    } else {
      forall j | 0 <= j < |s| ensures Before(ev, s[j], x) {
        if j < |s| - 1 { assert Before(ev, s[j], s[|s| - 1]); }
      }
      AppendSorted(ev, s, x);
    }
  }

  lemma InsertBefore(ev: seq<Event>, front: seq<nat>, x: nat, z: nat, j: nat)
    requires Chronological(ev, front + [z]) && TimeOf(ev, z) > TimeOf(ev, x) && j < |Insert(ev, front, x)|
    ensures Before(ev, Insert(ev, front, x)[j], z)
  {
    var y := Insert(ev, front, x)[j];
    InsertMembers(ev, front, x);
    assert y in multiset(front) + multiset{x};
    if y != x {
      assert y in front;
      var k :| 0 <= k < |front| && front[k] == y;
      assert Before(ev, (front + [z])[k], (front + [z])[|front|]);
    }
  }

  function StableSort(ev: seq<Event>, s: seq<nat>): (r: seq<nat>)
    ensures multiset(r) == multiset(s)
  {
    if s == [] then []
    else
      var front := StableSort(ev, s[..|s| - 1]);
      InsertMembers(ev, front, s[|s| - 1]);
      assert s == s[..|s| - 1] + [s[|s| - 1]];
      Insert(ev, front, s[|s| - 1])
  }

  /** Children in input order come out in order of time, ties in input order. */
  lemma {:induction false} StableSorts(ev: seq<Event>, s: seq<nat>)
    requires Rising(s)
    ensures Chronological(ev, StableSort(ev, s))
  {
    if s != [] {
      var front, z := s[..|s| - 1], s[|s| - 1];
      StableSorts(ev, front);
      var f := StableSort(ev, front);
      forall i | 0 <= i < |f| ensures f[i] < z {
        assert f[i] in multiset(front);
        var j :| 0 <= j < |front| && front[j] == f[i];
        assert s[j] == f[i];
      }
      InsertSorted(ev, f, z);
    }
  }

  // ---------- Building the forest ----------

  /** A node's list after sorting those at or below `nodes`. */
  ghost function SortedUnder(ev: seq<Event>, par: seq<Option<nat>>, i: nat, d: nat, nodes: seq<nat>, c: seq<nat>): seq<nat>
    requires Ok(par) && i < |par|
  {
    if Under(par, i, d, nodes) then StableSort(ev, c) else c
  }

  lemma SortedStaysList(ev: seq<Event>, par: seq<Option<nat>>, c: seq<nat>, x: nat)
    requires Lists1(par, c, x)
    ensures Lists1(par, StableSort(ev, c), x)
  {
    SameMembers(c, StableSort(ev, c));
  }

  lemma SameMembers(a: seq<nat>, b: seq<nat>)
    requires multiset(a) == multiset(b) && Distinct(a)
    ensures Distinct(b) && forall y :: y in b <==> y in a
  {
    forall y ensures y in b <==> y in a { assert y in multiset(b) <==> y in multiset(a); }
    forall i, j | 0 <= i < j < |b| ensures b[i] != b[j] {
      if b[i] == b[j] { Twice(b, i, j); OnceEach(a, b[i]); }
    }
  }

  lemma {:induction false} OnceEach(a: seq<nat>, y: nat)
    requires Distinct(a)
    ensures multiset(a)[y] <= 1
  {
    if a != [] {
      assert a == [a[0]] + a[1..];
      OnceEach(a[1..], y);
    }
  }

  lemma Twice(b: seq<nat>, i: nat, j: nat)
    requires i < j < |b| && b[i] == b[j]
    ensures multiset(b)[b[i]] >= 2
  {
    assert b == b[..j] + [b[j]] + b[j + 1..];
    assert b[i] in b[..j];
  }

  lemma UnderNothing(par: seq<Option<nat>>, d: nat, i: nat)
    requires Ok(par) && i < |par|
    ensures !Under(par, i, d, [])
  {}

  /** At most one node of a list is above `i`. */
  lemma Extends(par: seq<Option<nat>>, nodes: seq<nat>, d: nat, k: nat, i: nat)
    requires Ok(par) && AtDepth(par, nodes, d) && k < |nodes| && i < |par|
    ensures Under(par, i, d, nodes[..k + 1]) <==> Under(par, i, d, nodes[..k]) || Under(par, i, d, [nodes[k]])
    ensures !(Under(par, i, d, nodes[..k]) && Under(par, i, d, [nodes[k]]))
  {
    assert nodes[..k + 1] == nodes[..k] + [nodes[k]];
    if e: nat :| Depth(par, i, e) {
      forall f: nat | Depth(par, i, f) ensures f == e { DepthUnique(par, i, e, f); }
    }
  }

  /** sortRoots: recursion along the children. It ends on every input because no chain from a root is longer
      than there are events; it sorts every list at or below `nodes` and touches no other. */
  method SortRoots(ev: seq<Event>, nodes: seq<nat>, ch: array<seq<nat>>, ghost par: seq<Option<nat>>, ghost d: nat)
    requires Ok(par) && Lists(par, ch[..]) && AtDepth(par, nodes, d)
    modifies ch
    ensures Lists(par, ch[..])
    ensures forall i :: 0 <= i < |par| ==> ch[i] == SortedUnder(ev, par, i, d, nodes, old(ch[..])[i])
    decreases if d <= |par| then |par| - d else 0, 1
  {
    ghost var was := ch[..];
    forall i | 0 <= i < |par| ensures ch[i] == SortedUnder(ev, par, i, d, nodes[..0], was[i]) { UnderNothing(par, d, i); }
    for k := 0 to |nodes|
      invariant Lists(par, ch[..])
      invariant forall i :: 0 <= i < |par| ==> ch[i] == SortedUnder(ev, par, i, d, nodes[..k], was[i])
    {
      SortOne(ev, nodes[k], ch, par, d);
      forall i | 0 <= i < |par| ensures ch[i] == SortedUnder(ev, par, i, d, nodes[..k + 1], was[i]) {
        Extends(par, nodes, d, k, i);
      }
    }
    assert nodes[..|nodes|] == nodes;
  }

  /** One pass of the loop of sortRoots: sort a node's children, then go on below it. */
  method SortOne(ev: seq<Event>, x: nat, ch: array<seq<nat>>, ghost par: seq<Option<nat>>, ghost d: nat)
    requires Ok(par) && Lists(par, ch[..]) && x < |par| && Depth(par, x, d)
    modifies ch
    ensures Lists(par, ch[..])
    ensures forall i :: 0 <= i < |par| ==> ch[i] == SortedUnder(ev, par, i, d, [x], old(ch[..])[i])
    decreases if d <= |par| then |par| - d else 0, 0
  {
    DepthBounded(par, x, d);
    ghost var was := ch[..];
    assert Lists1(par, was[x], x);
    SortedStaysList(ev, par, was[x], x);
    if |ch[x]| > 1 {
      ch[x] := StableSort(ev, ch[x]);
    } else {
      ShortIsSorted(ev, ch[x]);
    }
    ghost var now := ch[..];
    assert now == was[x := StableSort(ev, was[x])];
    var kids := ch[x];
    ListAtDepth(par, kids, x, d);
    SortRoots(ev, kids, ch, par, d + 1);
    forall i | 0 <= i < |par| ensures ch[i] == SortedUnder(ev, par, i, d, [x], was[i]) { UnderSingle(par, now, x, d, i); }
  }

  lemma UnderSingle(par: seq<Option<nat>>, ch: seq<seq<nat>>, x: nat, d: nat, i: nat)
    requires Ok(par) && Lists(par, ch) && x < |par| && Depth(par, x, d) && i < |par|
    ensures Under(par, i, d, [x]) <==> i == x || Under(par, i, d + 1, ch[x])
    ensures i == x ==> !Under(par, i, d + 1, ch[x])
  {
    UnderHead(par, ch, [x], d, i);
    UnderNothing(par, d, i);
    assert [x][1..] == [];
  }

  lemma ShortIsSorted(ev: seq<Event>, c: seq<nat>)
    requires |c| <= 1
    ensures StableSort(ev, c) == c
  {
    if |c| == 1 { assert c[..0] == [] && StableSort(ev, []) == []; }
  }

  ghost predicate Indexes(ev: seq<Event>, index: map<string, nat>) {
    forall id: string :: Last(ev, id) == if id in index then Some(index[id]) else None
  }

  /** The children lists after building: sorted where the node is in the forest, in input order where a
      cycle keeps it out. */
  ghost function Listed(ev: seq<Event>, i: nat): seq<nat>
    requires i < |ev|
  {
    var kids := Kids(Parents(ev), Some(i), |ev|);
    if Rooted(Parents(ev), i) then StableSort(ev, kids) else kids
  }

  method IndexById(ev: seq<Event>) returns (index: map<string, nat>)
    ensures Indexes(ev, index)
  {
    index := map[];
    for k := 0 to |ev|
      invariant Indexes(ev[..k], index)
    {
      assert ev[..k + 1][..k] == ev[..k];
      index := index[ev[k].id := k];
    }
    assert ev[..|ev|] == ev;
  }

  /** Hang every event from its cause, if the window has it. */
  method LinkParents(ev: seq<Event>, index: map<string, nat>) returns (roots: seq<nat>, ch: array<seq<nat>>)
    requires Indexes(ev, index)
    ensures fresh(ch) && ch.Length == |ev| && roots == Kids(Parents(ev), None, |ev|)
    ensures forall p :: 0 <= p < |ev| ==> ch[p] == Kids(Parents(ev), Some(p), |ev|)
  {
    ghost var par := Parents(ev);
    roots := [];
    ch := new seq<nat>[|ev|](i => []);
    for k := 0 to |ev|
      invariant roots == Kids(par, None, k)
      invariant forall p :: 0 <= p < |ev| ==> ch[p] == Kids(par, Some(p), k)
    {
      var c := ev[k].cause;
      assert par[k] == if c == "" then None else Last(ev, c);
      if c != "" && c in index {
        ch[index[c]] := ch[index[c]] + [k];
      } else {
        roots := roots + [k];
      }
    }
  }

  /** buildTimeline: the roots in input order and every node's children; `roots` is RootCount long. */
  method BuildTimeline(ev: seq<Event>) returns (roots: seq<nat>, ch: array<seq<nat>>)
    ensures fresh(ch) && ch.Length == |ev| && roots == Kids(Parents(ev), None, |ev|)
    ensures Lists(Parents(ev), ch[..])
    ensures forall i :: 0 <= i < |ev| ==> ch[i] == Listed(ev, i)
  {
    var index := IndexById(ev);
    roots, ch := LinkParents(ev, index);
    ghost var par := Parents(ev);
    forall p | 0 <= p < |ev| ensures Lists1(par, ch[p], p) { KidsShape(par, Some(p), |ev|); }
    RootsAtDepth(par);
    SortRoots(ev, roots, ch, par, 0);
    forall i | 0 <= i < |ev| ensures ch[i] == Listed(ev, i) { UnderRoots(par, i); }
  }

  // ---------- Counting the roots ----------

  ghost function NoCause(ev: seq<Event>, k: nat): nat
    requires k <= |ev|
  {
    if k == 0 then 0 else NoCause(ev, k - 1) + (if ev[k - 1].cause == "" then 1 else 0)
  }

  ghost predicate Outside(ev: seq<Event>, cause: string) {
    cause != "" && forall j :: 0 <= j < |ev| ==> ev[j].id != cause
  }

  ghost function Dangling(ev: seq<Event>, k: nat): nat
    requires k <= |ev|
  {
    if k == 0 then 0 else Dangling(ev, k - 1) + (if Outside(ev, ev[k - 1].cause) then 1 else 0)
  }

  method CountDanglingCausation(ev: seq<Event>) returns (n: nat)
    ensures n == Dangling(ev, |ev|)
  {
    var ids: set<string> := {};
    for k := 0 to |ev|
      invariant forall id :: id in ids <==> exists j :: 0 <= j < k && ev[j].id == id
    {
      ids := ids + {ev[k].id};
    }
    n := 0;
    for k := 0 to |ev|
      invariant n == Dangling(ev, k)
    {
      if ev[k].cause != "" && ev[k].cause !in ids { n := n + 1; }
    }
  }

  /** RootCount: the events without a cause plus the dangling ones, whatever the causation looks like. */
  lemma {:induction false} RootCount(ev: seq<Event>, k: nat)
    requires k <= |ev|
    ensures |Kids(Parents(ev), None, k)| == NoCause(ev, k) + Dangling(ev, k)
  {
    if k > 0 { RootCount(ev, k - 1); }
  }
}
