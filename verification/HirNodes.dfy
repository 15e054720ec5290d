/**
  The nodes of a tree, by the steps that lead to them.

  `Kids` lists what stands directly under a node, in the order of its fields, and
  `At` follows a path of child positions. Properties of a pass that speak of every
  node of its output are stated over paths, so that they rest on the constructors
  alone and on nothing the pass itself computes.
*/
module HirNodes {
  import opened HirSyntax

  function Listed(es: Hirs): seq<Hir> {
    match es
    case HNil => []
    case HCons(e, rest) => [e] + Listed(rest)
  }

  function Inits(bs: Binds): seq<Hir> {
    match bs
    case BNil => []
    case BCons(_, e, rest) => [e] + Inits(rest)
  }

  /** The sites of a binding list: each name with its initializer. */
  function Pairs(bs: Binds): seq<(Binding, Hir)> {
    match bs
    case BNil => []
    case BCons(b, e, rest) => [(b, e)] + Pairs(rest)
  }

  function ClauseParts(cl: Clauses): seq<Hir> {
    match cl
    case NoElse => []
    case Else(e) => [e]
    case Clause(c, b, rest) => [c, b] + ClauseParts(rest)
  }

  function ArmParts(arms: Arms): seq<Hir> {
    match arms
    case ANil => []
    case ACons(_, g, b, rest) => (if g.Some? then [g.value, b] else [b]) + ArmParts(rest)
  }

  function Kids(e: Hir): seq<Hir> {
    match e
    case Lit(_) => []
    case Var(_) => []
    case Poison => []
    case Let(_, bs, body) => Inits(bs) + [body]
    case Lambda(_, _, _, body) => [body]
    case If(c, t, f) => [c, t, f]
    case Cond(cl) => ClauseParts(cl)
    case Begin(es) => Listed(es)
    case Block(_, es) => Listed(es)
    case Break(_, v) => [v]
    case Call(args, _, f, _) => Listed(args) + [f]
    case While(c, body) => [c, body]
    case Loop(bs, body) => Inits(bs) + [body]
    case Match(v, arms) => [v] + ArmParts(arms)
    case Logic(_, es) => Listed(es)
    case Parameterize(ps, body) => Listed(ps) + [body]
    case Strict(_, args) => Listed(args)
    case Return(v) => [v]
  }

  /** `x` is where `path` leads from `e`. */
  predicate At(e: Hir, path: seq<nat>, x: Hir)
    decreases |path|
  {
    if path == [] then x == e else path[0] < |Kids(e)| && At(Kids(e)[path[0]], path[1..], x)
  }

  lemma {:induction false} ListedIsSmaller(es: Hirs, i: nat)
    requires i < |Listed(es)|
    ensures Listed(es)[i] < es
    decreases es
  {
    if i > 0 { ListedIsSmaller(es.tail, i - 1); }
  }

  lemma {:induction false} InitIsSmaller(bs: Binds, i: nat)
    requires i < |Inits(bs)|
    ensures Inits(bs)[i] < bs
    decreases bs
  {
    if i > 0 { InitIsSmaller(bs.rest, i - 1); }
  }

  lemma {:induction false} ClausePartIsSmaller(cl: Clauses, i: nat)
    requires i < |ClauseParts(cl)|
    ensures ClauseParts(cl)[i] < cl
    decreases cl
  {
    if cl.Clause? && i > 1 { ClausePartIsSmaller(cl.rest, i - 2); }
  }

  lemma {:induction false} ArmPartIsSmaller(arms: Arms, i: nat)
    requires i < |ArmParts(arms)|
    ensures ArmParts(arms)[i] < arms
    decreases arms
  {
    var n := if arms.guard.Some? then 2 else 1;
    if i >= n { ArmPartIsSmaller(arms.rest, i - n); }
  }

  lemma KidIsSmaller(e: Hir, i: nat)
    requires i < |Kids(e)|
    ensures Kids(e)[i] < e
  {
    match e
    case Let(_, bs, _) => if i < |Inits(bs)| { InitIsSmaller(bs, i); }
    case Loop(bs, _) => if i < |Inits(bs)| { InitIsSmaller(bs, i); }
    case Cond(cl) => ClausePartIsSmaller(cl, i);
    case Begin(es) => ListedIsSmaller(es, i);
    case Block(_, es) => ListedIsSmaller(es, i);
    case Logic(_, es) => ListedIsSmaller(es, i);
    case Strict(_, es) => ListedIsSmaller(es, i);
    case Call(es, _, _, _) => if i < |Listed(es)| { ListedIsSmaller(es, i); }
    case Parameterize(es, _) => if i < |Listed(es)| { ListedIsSmaller(es, i); }
    case Match(_, arms) => if i > 0 { ArmPartIsSmaller(arms, i - 1); }
    case _ =>
  }

  /** A path under a child is a path under the node. */
  lemma Downward(e: Hir, i: nat, path: seq<nat>, x: Hir)
    requires i < |Kids(e)| && At(Kids(e)[i], path, x)
    ensures At(e, [i] + path, x)
  {
    assert ([i] + path)[1..] == path;
  }
}
