/**
  The numbering every liveness and region decision compares: one walk gives each
  node its post-order index and the lowest index in its subtree.

  `Post` lists a tree's nodes in post-order. `ComputeOrder` says the walk numbers the
  nodes by their place in that list, and `ContainmentIsARange` that with distinct
  ids a node is inside another exactly when its index lies in the other's interval.
*/
module NodeOrder {

  /** A node and what `for_each_child` enumerates. */
  datatype Node = Node(id: nat, children: seq<Node>)

  datatype Place = Place(index: nat, low: int)

  function Post(n: Node): (r: seq<Node>)
    ensures |r| > 0 && r[|r| - 1] == n
    decreases n, 0
  {
    PostAll(n.children) + [n]
  }

  function PostAll(ns: seq<Node>): seq<Node>
    decreases ns, 1
  {
    if ns == [] then [] else Post(ns[0]) + PostAll(ns[1..])
  }

  // ----- the walk ------------------------------------------------------------------------------------------

  /** The places of `nodes` numbered from `next` on; an id met twice keeps its last place. */
  function Numbered(at: map<nat, Place>, nodes: seq<Node>, next: nat): map<nat, Place>
    decreases |nodes|
  {
    if nodes == [] then at
    else
      var k := |nodes| - 1;
      Numbered(at, nodes[..k], next)[nodes[k].id := Place(next + k, next + k + 1 - |Post(nodes[k])|)]
  }

  lemma {:induction false} NumberedJoin(at: map<nat, Place>, a: seq<Node>, b: seq<Node>, next: nat)
    ensures Numbered(at, a + b, next) == Numbered(Numbered(at, a, next), b, next + |a|)
    decreases |b|
  {
    if b == [] {
      assert a + b == a;
    } else {
      NumberedJoin(at, a, b[..|b| - 1], next);
      assert (a + b)[..|a + b| - 1] == a + b[..|b| - 1];
    }
  }

  class Numbering {
    var at: map<nat, Place>
    var next: nat

    constructor ()
      ensures at == map[] && next == 0
    {
      at, next := map[], 0;
    }

    method Visit(h: Node)
      modifies this
      ensures at == Numbered(old(at), Post(h), old(next)) && next == old(next) + |Post(h)|
      decreases h, 0
    {
      var low := next;
      VisitEach(h.children);
      NumberedJoin(old(at), PostAll(h.children), [h], old(next));
      assert [h][..0] == [];
      at := at[h.id := Place(next, low)];
      next := next + 1;
    }

    method VisitEach(children: seq<Node>)
      modifies this
      ensures at == Numbered(old(at), PostAll(children), old(next)) && next == old(next) + |PostAll(children)|
      decreases children, 1
    {
      hide Post, PostAll, Numbered;
      var i := 0;
      NothingNumbered(at, children, next);
      while i < |children|
        invariant 0 <= i <= |children|
        invariant at == Numbered(old(at), PostAll(children[..i]), old(next))
                  && next == old(next) + |PostAll(children[..i])|
      {
        Visit(children[i]);
        PostAllSnoc(children[..i], children[i]);
        NumberedJoin(old(at), PostAll(children[..i]), Post(children[i]), old(next));
        assert children[..i + 1] == children[..i] + [children[i]];
        i := i + 1;
      }
      assert children[..i] == children;
    }
  }

  lemma NothingNumbered(at: map<nat, Place>, ns: seq<Node>, next: nat)
    ensures PostAll(ns[..0]) == [] && Numbered(at, [], next) == at
  {}

  method ComputeOrder(h: Node) returns (at: map<nat, Place>)
    ensures at == Numbered(map[], Post(h), 0)
    ensures forall path, d :: Leads(h, path, d) ==> d.id in at
  {
    var walk := new Numbering();
    walk.Visit(h);
    at := walk.at;
    forall path, d | Leads(h, path, d) ensures d.id in at { EveryNodeIsNumbered(h, path, d); }
  }

  // ----- every node is numbered ----------------------------------------------------------------------------

  /** `d` is where `path`, a step into a child at a time, leads from `n`. */
  predicate Leads(n: Node, path: seq<nat>, d: Node)
    decreases |path|
  {
    if path == [] then d == n else path[0] < |n.children| && Leads(n.children[path[0]], path[1..], d)
  }

  lemma {:induction false} LedToIsListed(n: Node, path: seq<nat>, d: Node)
    requires Leads(n, path, d)
    ensures d in Post(n)
    decreases |path|
  {
    if path != [] {
      LedToIsListed(n.children[path[0]], path[1..], d);
      var q := PlaceIn(n.children, path[0], d);
      assert Post(n)[q] == d;
    }
  }

  lemma {:induction false} ListedIsLedTo(n: Node, d: Node) returns (path: seq<nat>)
    requires d in Post(n)
    ensures Leads(n, path, d)
    decreases n
  {
    path := [];
    if d != n {
      assert d in PostAll(n.children);
      var i := ListedUnder(n.children, d);
      var rest := ListedIsLedTo(n.children[i], d);
      path := [i] + rest;
      assert path[1..] == rest;
    }
  }

  lemma {:induction false} ListedUnder(ns: seq<Node>, d: Node) returns (i: nat)
    requires d in PostAll(ns)
    ensures i < |ns| && d in Post(ns[i])
    decreases |ns|
  {
    i := 0;
    if d !in Post(ns[0]) {
      i := ListedUnder(ns[1..], d);
      i := i + 1;
    }
  }

  lemma {:induction false} ListedIsNumbered(at: map<nat, Place>, nodes: seq<Node>, next: nat, d: Node)
    requires d in nodes
    ensures d.id in Numbered(at, nodes, next)
    decreases |nodes|
  {
    var k := |nodes| - 1;
    if nodes[k] != d {
      assert d in nodes[..k];
      ListedIsNumbered(at, nodes[..k], next, d);
    }
  }

  /** Every node that child steps lead to from the root is numbered, whatever the ids. */
  lemma EveryNodeIsNumbered(h: Node, path: seq<nat>, d: Node)
    requires Leads(h, path, d)
    ensures d.id in Numbered(map[], Post(h), 0)
  {
    LedToIsListed(h, path, d);
    ListedIsNumbered(map[], Post(h), 0, d);
  }

  /** Child steps lead from `n` to `d`. */
  ghost predicate Under(n: Node, d: Node) {
    exists path :: Leads(n, path, d)
  }

  lemma UnderIsListed(n: Node, d: Node)
    ensures Under(n, d) <==> d in Post(n)
  {
    hide Post;
    if Under(n, d) {
      var path :| Leads(n, path, d);
      LedToIsListed(n, path, d);
    }
    if d in Post(n) { var path := ListedIsLedTo(n, d); }
  }

  /** Containment, by paths: a node is under another exactly when its index is in the other's interval. */
  lemma UnderIsARange(h: Node, n: Node, d: Node)
    requires DistinctIds(Post(h)) && Under(h, n) && Under(h, d)
    ensures var at := Numbered(map[], Post(h), 0);
            && n.id in at && d.id in at
            && (Under(n, d) <==> at[n.id].low <= at[d.id].index <= at[n.id].index)
  {
    hide Post, Numbered, Under;
    UnderIsListed(h, n);
    UnderIsListed(h, d);
    UnderIsListed(n, d);
    ContainmentIsARange(h, n, d);
  }

  lemma {:induction false} PostAllSnoc(ns: seq<Node>, n: Node)
    ensures PostAll(ns + [n]) == PostAll(ns) + Post(n)
    decreases |ns|
  {
    if ns == [] {
      assert [n][1..] == [] && ns + [n] == [n];
    } else {
      PostAllSnoc(ns[1..], n);
      assert (ns + [n])[1..] == ns[1..] + [n];
    }
  }

  // ----- what the numbering means ----------------------------------------------------------------------------

  predicate DistinctIds(nodes: seq<Node>) {
    forall i, j :: 0 <= i < j < |nodes| ==> nodes[i].id != nodes[j].id
  }

  /** With distinct ids the indices are dense and in post-order, and `low` is where the subtree begins. */
  lemma {:induction false} NumberedAt(at: map<nat, Place>, nodes: seq<Node>, next: nat, i: nat)
    requires DistinctIds(nodes) && i < |nodes|
    ensures nodes[i].id in Numbered(at, nodes, next)
    ensures Numbered(at, nodes, next)[nodes[i].id] == Place(next + i, next + i + 1 - |Post(nodes[i])|)
    decreases |nodes|
  {
    if i < |nodes| - 1 { NumberedAt(at, nodes[..|nodes| - 1], next, i); }
  }

  /** A node's subtree is the slice of the list that ends at it. */
  lemma {:induction false} SubtreeIsSlice(h: Node, k: nat)
    requires k < |Post(h)|
    ensures var n := |Post(Post(h)[k])|; n <= k + 1 && Post(h)[k + 1 - n..k + 1] == Post(Post(h)[k])
    decreases h, 0
  {
    hide PostAll;
    var inner := PostAll(h.children);
    if k < |inner| {
      SubtreesAreSlices(h.children, k);
      var n := |Post(inner[k])|;
      SliceLeft(inner, [h], k + 1 - n, k + 1);
    } else {
      assert Post(h)[0..k + 1] == Post(h);
    }
  }

  lemma SliceLeft(a: seq<Node>, b: seq<Node>, lo: nat, hi: nat)
    requires lo <= hi <= |a|
    ensures (a + b)[lo..hi] == a[lo..hi]
  {}

  lemma SliceRight(a: seq<Node>, b: seq<Node>, lo: nat, hi: nat)
    requires lo <= hi <= |b|
    ensures (a + b)[|a| + lo..|a| + hi] == b[lo..hi]
  {}

  lemma {:induction false} SubtreesAreSlices(ns: seq<Node>, k: nat)
    requires k < |PostAll(ns)|
    ensures var n := |Post(PostAll(ns)[k])|; n <= k + 1 && PostAll(ns)[k + 1 - n..k + 1] == Post(PostAll(ns)[k])
    decreases ns, 1
  {
    hide Post;
    var head, rest := Post(ns[0]), PostAll(ns[1..]);
    if k < |head| {
      SubtreeIsSlice(ns[0], k);
      SliceLeft(head, rest, k + 1 - |Post(head[k])|, k + 1);
    } else {
      var j := k - |head|;
      SubtreesAreSlices(ns[1..], j);
      SliceRight(head, rest, j + 1 - |Post(rest[j])|, j + 1);
    }
  }

  /**
    Containment is a range test: of two nodes of a tree with distinct ids, one is
    in the other's subtree exactly when its index lies between the other's `low`
    and index.
  */
  lemma ContainmentIsARange(h: Node, n: Node, d: Node)
    requires DistinctIds(Post(h)) && n in Post(h) && d in Post(h)
    ensures var at := Numbered(map[], Post(h), 0);
            && n.id in at && d.id in at
            && (d in Post(n) <==> at[n.id].low <= at[d.id].index <= at[n.id].index)
  {
    hide Post, Numbered;
    var nodes := Post(h);
    var k :| 0 <= k < |nodes| && nodes[k] == n;
    var j :| 0 <= j < |nodes| && nodes[j] == d;
    NumberedAt(map[], nodes, 0, k);
    NumberedAt(map[], nodes, 0, j);
    SubtreeIsSlice(h, k);
    SliceHolds(nodes, k + 1 - |Post(n)|, k + 1, j);
  }

  /** In a list of distinct nodes, a slice holds exactly the nodes placed in it. */
  lemma SliceHolds(nodes: seq<Node>, lo: nat, hi: nat, j: nat)
    requires DistinctIds(nodes) && lo <= hi <= |nodes| && j < |nodes|
    ensures nodes[j] in nodes[lo..hi] <==> lo <= j < hi
  {
    var slice := nodes[lo..hi];
    if lo <= j < hi { assert slice[j - lo] == nodes[j]; }
    if nodes[j] in slice {
      var i :| 0 <= i < |slice| && slice[i] == nodes[j];
      assert nodes[lo + i] == nodes[j];
    }
  }

  /** A descendant ranks below its ancestor, and an earlier sibling's subtree below a later sibling's. */
  lemma SiblingsRankInOrder(h: Node, n: Node, i: nat, j: nat, a: Node, b: Node)
    requires DistinctIds(Post(h)) && n in Post(h) && i < j < |n.children|
    requires a in Post(n.children[i]) && b in Post(n.children[j])
    ensures var at := Numbered(map[], Post(h), 0);
            a.id in at && b.id in at && n.id in at && at[a.id].index < at[b.id].index < at[n.id].index
  {
    hide Post, PostAll, Numbered, DistinctIds;
    var k, p, q := PlacesIn(h, n, i, j, a, b);
    InOrder(Post(h), p, q, k);
  }

  lemma PlacesIn(h: Node, n: Node, i: nat, j: nat, a: Node, b: Node) returns (k: nat, p: nat, q: nat)
    requires n in Post(h) && i < j < |n.children| && a in Post(n.children[i]) && b in Post(n.children[j])
    ensures p < q < k < |Post(h)| && Post(h)[p] == a && Post(h)[q] == b && Post(h)[k] == n
  {
    hide Post, PostAll;
    k :| 0 <= k < |Post(h)| && Post(h)[k] == n;
    SubtreeIsSlice(h, k);
    var s, r := PlacesUnder(n, i, j, a, b);
    p := SlicePlace(Post(h), Post(n), k, s);
    q := SlicePlace(Post(h), Post(n), k, r);
  }

  lemma InOrder(nodes: seq<Node>, p: nat, q: nat, r: nat)
    requires DistinctIds(nodes) && p < q < r < |nodes|
    ensures var at := Numbered(map[], nodes, 0);
            && nodes[p].id in at && nodes[q].id in at && nodes[r].id in at
            && at[nodes[p].id].index < at[nodes[q].id].index < at[nodes[r].id].index
  {
    hide Numbered;
    NumberedAt(map[], nodes, 0, p);
    NumberedAt(map[], nodes, 0, q);
    NumberedAt(map[], nodes, 0, r);
  }

  lemma PlacesUnder(n: Node, i: nat, j: nat, a: Node, b: Node) returns (p: nat, q: nat)
    requires i < j < |n.children| && a in Post(n.children[i]) && b in Post(n.children[j])
    ensures p < q < |Post(n)| - 1 && Post(n)[p] == a && Post(n)[q] == b
  {
    hide PostAll;
    p, q := SiblingPlaces(n.children, i, j, a, b);
  }

  /** A place in the slice that ends at `k` is a place in the whole. */
  lemma SlicePlace(nodes: seq<Node>, slice: seq<Node>, k: nat, p: nat) returns (q: nat)
    requires p < |slice| <= k + 1 <= |nodes| && nodes[k + 1 - |slice|..k + 1] == slice
    ensures q == k + 1 - |slice| + p && q < |nodes| && nodes[q] == slice[p]
  {
    q := k + 1 - |slice| + p;
  }

  lemma {:induction false} SiblingPlaces(ns: seq<Node>, i: nat, j: nat, a: Node, b: Node) returns (p: nat, q: nat)
    requires i < j < |ns| && a in Post(ns[i]) && b in Post(ns[j])
    ensures p < q < |PostAll(ns)| && PostAll(ns)[p] == a && PostAll(ns)[q] == b
    decreases |ns|
  {
    var head := Post(ns[0]);
    if i > 0 {
      p, q := SiblingPlaces(ns[1..], i - 1, j - 1, a, b);
      p, q := p + |head|, q + |head|;
    } else {
      p :| 0 <= p < |head| && head[p] == a;
      q := PlaceIn(ns[1..], j - 1, b);
      q := q + |head|;
    }
  }

  lemma {:induction false} PlaceIn(ns: seq<Node>, j: nat, b: Node) returns (q: nat)
    requires j < |ns| && b in Post(ns[j])
    ensures q < |PostAll(ns)| && PostAll(ns)[q] == b
    decreases |ns|
  {
    var head := Post(ns[0]);
    if j == 0 {
      q :| 0 <= q < |head| && head[q] == b;
    } else {
      q := PlaceIn(ns[1..], j - 1, b);
      q := q + |head|;
    }
  }
}
