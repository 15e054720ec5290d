/**
  The shape the analyzer hands the passes: block ids are minted fresh, so no block
  sits inside a block of the same id, and a `break` never leaves its function.
  Until the return pass runs, no `Return` occurs either.
*/
module HirShape {
  import opened HirSyntax

  /** No block of `e` reuses the id of a block it is in; with `!ret`, no `Return` occurs. */
  predicate Shaped(ret: bool, open: set<BlockId>, e: Hir)
    decreases e
  {
    match e
    case Lit(_) => true
    case Var(_) => true
    case Poison => true
    case Let(_, bs, body) => ShapedBinds(ret, open, bs) && Shaped(ret, open, body)
    case Loop(bs, body) => ShapedBinds(ret, open, bs) && Shaped(ret, open, body)
    case Lambda(_, _, _, body) => Shaped(ret, {}, body)
    case Call(args, _, f, _) => ShapedAll(ret, open, args) && Shaped(ret, open, f)
    case If(c, t, f) => Shaped(ret, open, c) && Shaped(ret, open, t) && Shaped(ret, open, f)
    case Cond(cl) => ShapedClauses(ret, open, cl)
    case Begin(es) => ShapedAll(ret, open, es)
    case Block(id, es) => id !in open && ShapedAll(ret, open + {id}, es)
    case Break(_, v) => Shaped(ret, open, v)
    case While(c, body) => Shaped(ret, open, c) && Shaped(ret, open, body)
    case Match(v, arms) => Shaped(ret, open, v) && ShapedArms(ret, open, arms)
    case Logic(_, es) => ShapedAll(ret, open, es)
    case Parameterize(ps, body) => ShapedAll(ret, open, ps) && Shaped(ret, open, body)
    case Strict(_, args) => ShapedAll(ret, open, args)
    case Return(v) => ret && Shaped(ret, open, v)
  }

  predicate ShapedAll(ret: bool, open: set<BlockId>, es: Hirs)
    decreases es
  {
    match es
    case HNil => true
    case HCons(e, rest) => Shaped(ret, open, e) && ShapedAll(ret, open, rest)
  }

  predicate ShapedBinds(ret: bool, open: set<BlockId>, bs: Binds)
    decreases bs
  {
    match bs
    case BNil => true
    case BCons(_, e, rest) => Shaped(ret, open, e) && ShapedBinds(ret, open, rest)
  }

  predicate ShapedClauses(ret: bool, open: set<BlockId>, cl: Clauses)
    decreases cl
  {
    match cl
    case NoElse => true
    case Else(e) => Shaped(ret, open, e)
    case Clause(c, b, rest) => Shaped(ret, open, c) && Shaped(ret, open, b) && ShapedClauses(ret, open, rest)
  }

  predicate ShapedArms(ret: bool, open: set<BlockId>, arms: Arms)
    decreases arms
  {
    match arms
    case ANil => true
    case ACons(_, g, b, rest) =>
      (g.Some? ==> Shaped(ret, open, g.value)) && Shaped(ret, open, b) && ShapedArms(ret, open, rest)
  }
}
