/**
  Escape propagation: a worklist that grows a set of atoms backward over the
  binding-definition edges and, when asked, over capture and pair edges. It stops
  with exactly the least set that holds the seeds and is closed under those edges.
*/
module Escape {
  import opened Options

  datatype Atom = Binding(b: nat) | Lambda(id: nat)

  datatype Graph = Graph(
    edges: map<nat, seq<Atom>>,
    captures: Option<map<nat, seq<nat>>>,
    pairs: Option<map<nat, seq<Atom>>>)

  /** What an escaping atom pulls in, in the order the walk meets it. */
  function Pulled(g: Graph, a: Atom): seq<Atom> {
    match a
    case Binding(b) =>
      (if b in g.edges then g.edges[b] else []) + (if g.pairs.Some? && b in g.pairs.value then g.pairs.value[b] else [])
    case Lambda(l) =>
      if g.captures.Some? && l in g.captures.value then BindingsOf(g.captures.value[l]) else []
  }

  function BindingsOf(bs: seq<nat>): seq<Atom> {
    seq(|bs|, i requires 0 <= i < |bs| => Binding(bs[i]))
  }

  /** `s` holds what the bindings in it are defined from. */
  ghost predicate ClosedUnder(edges: map<nat, seq<Atom>>, s: set<Atom>) {
    forall b, i :: Binding(b) in s && b in edges && 0 <= i < |edges[b]| ==> edges[b][i] in s
  }

  /** `s` holds what the lambdas in it capture. */
  ghost predicate ClosedOver(captures: map<nat, seq<nat>>, s: set<Atom>) {
    forall l, i :: Lambda(l) in s && l in captures && 0 <= i < |captures[l]| ==> Binding(captures[l][i]) in s
  }

  ghost predicate Closed(g: Graph, s: set<Atom>) {
    && ClosedUnder(g.edges, s)
    && (g.pairs.Some? ==> ClosedUnder(g.pairs.value, s))
    && (g.captures.Some? ==> ClosedOver(g.captures.value, s))
  }

  /** What the walk follows is what the graph says, edge by edge. */
  lemma ClosedIsPulled(g: Graph, s: set<Atom>)
    ensures Closed(g, s) <==> forall a, i :: a in s && 0 <= i < |Pulled(g, a)| ==> Pulled(g, a)[i] in s
  {
    if Closed(g, s) {
      forall a, i | a in s && 0 <= i < |Pulled(g, a)| ensures Pulled(g, a)[i] in s {
        match a
        case Binding(b) =>
          var own := if b in g.edges then g.edges[b] else [];
          if i < |own| { assert g.edges[b][i] in s; } else { assert g.pairs.value[b][i - |own|] in s; }
        case Lambda(l) => assert Binding(g.captures.value[l][i]) in s;
      }
    }
    if forall a, i :: a in s && 0 <= i < |Pulled(g, a)| ==> Pulled(g, a)[i] in s {
      forall b, i | Binding(b) in s && b in g.edges && 0 <= i < |g.edges[b]| ensures g.edges[b][i] in s {
        assert Pulled(g, Binding(b))[i] == g.edges[b][i];
      }
      if g.pairs.Some? {
        var pairs := g.pairs.value;
        forall b, i | Binding(b) in s && b in pairs && 0 <= i < |pairs[b]| ensures pairs[b][i] in s {
          var own := if b in g.edges then g.edges[b] else [];
          assert Pulled(g, Binding(b))[|own| + i] == pairs[b][i];
        }
      }
      if g.captures.Some? {
        var captures := g.captures.value;
        forall l, i | Lambda(l) in s && l in captures && 0 <= i < |captures[l]| ensures Binding(captures[l][i]) in s {
          assert Pulled(g, Lambda(l))[i] == Binding(captures[l][i]);
        }
      }
    }
  }

  ghost predicate Holds(s: set<Atom>, seeds: seq<Atom>) {
    forall i :: 0 <= i < |seeds| ==> seeds[i] in s
  }

  /** The least set that holds the seeds and is closed. */
  ghost predicate Least(g: Graph, seeds: seq<Atom>, s: set<Atom>) {
    Holds(s, seeds) && Closed(g, s) && forall t :: Holds(t, seeds) && Closed(g, t) ==> s <= t
  }

  /** Every atom the walk can ever meet: a finite bound for it to stop at. */
  ghost function Atoms(g: Graph, seeds: seq<Atom>): set<Atom> {
    Mentioned(seeds) + EdgeAtoms(g.edges)
    + (if g.pairs.Some? then EdgeAtoms(g.pairs.value) else {})
    + (if g.captures.Some? then CaptureAtoms(g.captures.value) else {})
  }

  ghost function Mentioned(atoms: seq<Atom>): set<Atom> {
    set i | 0 <= i < |atoms| :: atoms[i]
  }

  ghost function EdgeAtoms(edges: map<nat, seq<Atom>>): set<Atom> {
    set k, i | k in edges && 0 <= i < |edges[k]| :: edges[k][i]
  }

  ghost function CaptureAtoms(captures: map<nat, seq<nat>>): set<Atom> {
    set k, i | k in captures && 0 <= i < |captures[k]| :: Binding(captures[k][i])
  }

  lemma PulledAreAtoms(g: Graph, seeds: seq<Atom>, a: Atom, i: nat)
    requires i < |Pulled(g, a)|
    ensures Pulled(g, a)[i] in Atoms(g, seeds)
  {
    match a
    case Binding(b) =>
      var own := if b in g.edges then g.edges[b] else [];
      if i < |own| {
        assert g.edges[b][i] in EdgeAtoms(g.edges);
      } else {
        assert g.pairs.value[b][i - |own|] in EdgeAtoms(g.pairs.value);
      }
    case Lambda(l) => assert Binding(g.captures.value[l][i]) in CaptureAtoms(g.captures.value);
  }

  /**
    The walk's state: what escapes, and the part of it still to be followed. Every
    atom that is not waiting has been followed, and everything in the set is in
    every closed set that holds the seeds.
  */
  ghost predicate Sound(g: Graph, seeds: seq<Atom>, escaping: set<Atom>, work: seq<Atom>) {
    && (forall i :: 0 <= i < |work| ==> work[i] in escaping)
    && escaping <= Atoms(g, seeds)
    && forall t :: Holds(t, seeds) && Closed(g, t) ==> escaping <= t
  }

  ghost predicate Followed(g: Graph, escaping: set<Atom>, work: seq<Atom>) {
    forall a, i :: a in escaping && a !in work && 0 <= i < |Pulled(g, a)| ==> Pulled(g, a)[i] in escaping
  }

  /** Backward reachability from `seeds`, as a worklist. */
  method Propagate(g: Graph, seeds: seq<Atom>) returns (escaping: set<Atom>)
    ensures Least(g, seeds, escaping)
  {
    hide Sound, Followed, Atoms, Holds, Least;
    var work: seq<Atom>;
    escaping, work := {}, [];
    NothingYet(g, seeds);
    var k := 0;
    while k < |seeds|
      invariant 0 <= k <= |seeds| && Sound(g, seeds, escaping, work) && Followed(g, escaping, work)
      invariant forall i :: 0 <= i < k ==> seeds[i] in escaping
    {
      if seeds[k] !in escaping {
        SeedSound(g, seeds, escaping, work, k);
        escaping, work := escaping + {seeds[k]}, work + [seeds[k]];
      }
      k := k + 1;
    }
    assert Holds(escaping, seeds) by { SeedsHeld(seeds, escaping); }
    while work != []
      invariant Sound(g, seeds, escaping, work) && Followed(g, escaping, work) && Holds(escaping, seeds)
      decreases Atoms(g, seeds) - escaping, |work|
    {
      var a := work[|work| - 1];
      var rest := work[..|work| - 1];
      assert rest + [a] == work;
      TopIsSound(g, seeds, escaping, work);
      ghost var was := escaping;
      escaping, work := Follow(g, seeds, escaping, rest, a);
      StillHeld(g, seeds, was, escaping, work);
    }
    DoneIsLeast(g, seeds, escaping);
  }

  lemma NothingYet(g: Graph, seeds: seq<Atom>)
    ensures Sound(g, seeds, {}, []) && Followed(g, {}, [])
  {}

  lemma SeedSound(g: Graph, seeds: seq<Atom>, escaping: set<Atom>, work: seq<Atom>, k: nat)
    requires k < |seeds| && Sound(g, seeds, escaping, work) && Followed(g, escaping, work)
    ensures Sound(g, seeds, escaping + {seeds[k]}, work + [seeds[k]])
    ensures Followed(g, escaping + {seeds[k]}, work + [seeds[k]])
  {
    assert seeds[k] in Mentioned(seeds);
    ReachSound(g, seeds, escaping, work, seeds[k]);
  }

  lemma SeedsHeld(seeds: seq<Atom>, escaping: set<Atom>)
    requires forall i :: 0 <= i < |seeds| ==> seeds[i] in escaping
    ensures Holds(escaping, seeds)
  {}

  lemma TopIsSound(g: Graph, seeds: seq<Atom>, escaping: set<Atom>, work: seq<Atom>)
    requires work != [] && Sound(g, seeds, escaping, work)
    ensures work[|work| - 1] in escaping && Sound(g, seeds, escaping, work[..|work| - 1])
  {}

  lemma StillHeld(g: Graph, seeds: seq<Atom>, was: set<Atom>, now: set<Atom>, work: seq<Atom>)
    requires Holds(was, seeds) && was <= now && Sound(g, seeds, now, work)
    ensures Holds(now, seeds) && now <= Atoms(g, seeds)
  {}

  lemma DoneIsLeast(g: Graph, seeds: seq<Atom>, escaping: set<Atom>)
    requires Sound(g, seeds, escaping, []) && Followed(g, escaping, []) && Holds(escaping, seeds)
    ensures Least(g, seeds, escaping)
  {
    ClosedIsPulled(g, escaping);
  }

  lemma ReachSound(g: Graph, seeds: seq<Atom>, escaping: set<Atom>, work: seq<Atom>, a: Atom)
    requires Sound(g, seeds, escaping, work) && a in Atoms(g, seeds)
    requires forall t :: Holds(t, seeds) && Closed(g, t) ==> a in t
    ensures Sound(g, seeds, escaping + {a}, work + [a])
  {}

  /** Everything `a` pulls in joins the set, and the new part joins the work. */
  method Follow(g: Graph, ghost seeds: seq<Atom>, escaping: set<Atom>, work: seq<Atom>, a: Atom)
    returns (grown: set<Atom>, queue: seq<Atom>)
    requires Sound(g, seeds, escaping, work) && a in escaping
    requires Followed(g, escaping, work + [a])
    ensures Sound(g, seeds, grown, queue) && Followed(g, grown, queue) && escaping <= grown
    ensures grown == escaping ==> queue == work
  {
    hide Sound, Followed, Pulled, Atoms;
    grown, queue := escaping, work;
    var pulled := Pulled(g, a);
    var i := 0;
    while i < |pulled|
      invariant 0 <= i <= |pulled| && escaping <= grown && Sound(g, seeds, grown, queue)
      invariant grown == escaping ==> queue == work
      invariant forall x :: x in grown && x !in queue ==> x in escaping && x !in work
      invariant forall j :: 0 <= j < i ==> pulled[j] in grown
    {
      PulledAreAtoms(g, seeds, a, i);
      if pulled[i] !in grown {
        PulledSound(g, seeds, grown, queue, a, escaping, work, i);
        grown, queue := grown + {pulled[i]}, queue + [pulled[i]];
      }
      i := i + 1;
    }
    FollowedAfter(g, escaping, work, a, grown, queue);
  }

  lemma PulledSound(g: Graph, seeds: seq<Atom>, grown: set<Atom>, queue: seq<Atom>, a: Atom, escaping: set<Atom>,
          work: seq<Atom>, i: nat)
    requires Sound(g, seeds, grown, queue) && Sound(g, seeds, escaping, work) && a in escaping
    requires i < |Pulled(g, a)| && Pulled(g, a)[i] in Atoms(g, seeds)
    ensures Sound(g, seeds, grown + {Pulled(g, a)[i]}, queue + [Pulled(g, a)[i]])
  {
    forall t | Holds(t, seeds) && Closed(g, t) ensures Pulled(g, a)[i] in t {
      ClosedIsPulled(g, t);
      assert a in t;
    }
    ReachSound(g, seeds, grown, queue, Pulled(g, a)[i]);
  }

  lemma FollowedAfter(g: Graph, escaping: set<Atom>, work: seq<Atom>, a: Atom, grown: set<Atom>, queue: seq<Atom>)
    requires Followed(g, escaping, work + [a]) && escaping <= grown
    requires forall x :: x in grown && x !in queue ==> x in escaping && x !in work
    requires forall j :: 0 <= j < |Pulled(g, a)| ==> Pulled(g, a)[j] in grown
    ensures Followed(g, grown, queue)
  {
    forall x, i | x in grown && x !in queue && 0 <= i < |Pulled(g, x)| ensures Pulled(g, x)[i] in grown {
      if x != a { assert x !in work + [a]; }
    }
  }

  ghost predicate Fewer<T(!new)>(edges: map<nat, seq<T>>, more: map<nat, seq<T>>) {
    forall b, i :: b in edges && 0 <= i < |edges[b]| ==> b in more && edges[b][i] in more[b]
  }

  /** More seeds and more edges give no less. */
  lemma PropagateGrows(g: Graph, h: Graph, seeds: seq<Atom>, more: seq<Atom>, s: set<Atom>, t: set<Atom>)
    requires Least(g, seeds, s) && Least(h, more, t)
    requires forall i :: 0 <= i < |seeds| ==> seeds[i] in more
    requires Fewer(g.edges, h.edges)
    requires g.pairs.Some? ==> h.pairs.Some? && Fewer(g.pairs.value, h.pairs.value)
    requires g.captures.Some? ==> h.captures.Some? && Fewer(g.captures.value, h.captures.value)
    ensures s <= t
  {
    assert Holds(t, seeds) by {
      forall i | 0 <= i < |seeds| ensures seeds[i] in t {
        var j :| 0 <= j < |more| && more[j] == seeds[i];
      }
    }
    assert ClosedUnder(g.edges, t);
    assert g.pairs.Some? ==> ClosedUnder(g.pairs.value, t);
    assert g.captures.Some? ==> ClosedOver(g.captures.value, t);
  }

  /** What flows to the frontiers of a unit. */
  datatype FlowGraph = FlowGraph(
    edges: map<nat, seq<Atom>>, captures: map<nat, seq<nat>>, pairContents: map<nat, seq<Atom>>,
    returnSeeds: seq<Atom>, storeSeeds: seq<Atom>, pairSeeds: seq<Atom>, fiberSeeds: seq<Atom>)

  datatype EscapeInfo = EscapeInfo(escaping: set<Atom>, returned: set<Atom>, contained: set<Atom>)

  /** The facets `analyze_escape` builds. What is returned escapes. */
  method AnalyzeEscape(f: FlowGraph) returns (info: EscapeInfo)
    ensures Least(Graph(f.edges, None, None), f.returnSeeds, info.returned)
    ensures Least(Graph(f.edges, Some(f.captures), Some(f.pairContents)), f.storeSeeds, info.contained)
    ensures Least(Graph(f.edges, Some(f.captures), None), f.returnSeeds + f.fiberSeeds + (f.storeSeeds + f.pairSeeds),
              info.escaping)
    ensures info.returned <= info.escaping
  {
    var aliasing := Graph(f.edges, None, None);
    var capturing := Graph(f.edges, Some(f.captures), None);
    var seeds := f.returnSeeds + f.fiberSeeds + (f.storeSeeds + f.pairSeeds);
    var returned := Propagate(aliasing, f.returnSeeds);
    var contained := Propagate(Graph(f.edges, Some(f.captures), Some(f.pairContents)), f.storeSeeds);
    var escaping := Propagate(capturing, seeds);
    PropagateGrows(aliasing, capturing, f.returnSeeds, seeds, returned, escaping);
    info := EscapeInfo(escaping, returned, contained);
  }
}
