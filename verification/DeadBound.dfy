/**
  When a dropped call finds its callee bound.

  `Scoped` reads off a program, for a given `Plan`, that every pure function a
  dropped initializer calls is bound there, and so is every function that one calls
  in turn: by an enclosing scope, or by an earlier sibling. A `letrec` lambda may call
  its later siblings, which are bound once the body runs. A lambda's body may count
  on the names bound where the lambda is made.
*/
module DeadBound {
  import opened HirSyntax
  import opened Dead
  import opened DeadNames

  /** At a point of the program: the names surely bound, and the followed names no binder inside may rebind. */
  datatype Scope = Scope(bound: set<Binding>, open: set<Binding>)

  /** A lambda whose function calls names of `bound` alone, and captures them all. */
  predicate Prepared(k: Rules, bound: set<Binding>, b: Binding, e: Hir) {
    && e.Lambda? && b in k.trusted && k.trusted[b] == Fun(e.id) && b in k.needs && k.needs[b] <= bound
    && forall f :: f in k.needs[b] ==> Capture(f, false) in e.captures
  }

  /** The followed names of a binding list. */
  function Heads(k: Rules, bs: Binds): set<Binding> {
    match bs
    case BNil => {}
    case BCons(b, _, rest) => (if Followed(k, b) then {b} else {}) + Heads(k, rest)
  }

  /** Those of them that live in cells. */
  function Boxes(k: Rules, bs: Binds): set<Binding> {
    set b | b in Heads(k, bs) && b.boxed
  }

  function NextScope(k: Rules, sc: Scope, b: Binding, e: Hir): Scope {
    if !Followed(k, b) then sc
    else Scope(if Prepared(k, sc.bound, b, e) then sc.bound + {b} else sc.bound, sc.open + {b})
  }

  /** The scope once every binding of the list is made. */
  function Through(k: Rules, sc: Scope, bs: Binds): Scope
    decreases bs
  {
    match bs
    case BNil => sc
    case BCons(b, e, rest) => Through(k, if Eliminable(k.pass, b, e) then sc else NextScope(k, sc, b, e), rest)
  }

  function Opened(k: Rules, sc: Scope, bs: Binds): Scope {
    Scope(sc.bound, sc.open + Boxes(k, bs))
  }

  function BodyScope(k: Rules, rec: bool, sc: Scope, bs: Binds): Scope {
    if rec then
      var end := Through(k, Opened(k, sc, bs), bs);
      Scope(end.bound + Heads(k, bs), end.open)
    else Through(k, sc, bs)
  }

  function EntryScope(k: Rules, id: nat): Scope {
    Scope(EntryOf(k, id), EntryOf(k, id))
  }

  /** A `def` of a followed function binds it for what comes after. */
  function AfterItem(k: Rules, sc: Scope, e: Hir): Scope {
    if e.Strict? && e.op.Define? && Followed(k, e.op.target)
    then Scope(sc.bound + {e.op.target}, sc.open + {e.op.target})
    else sc
  }

  predicate SiteScoped(k: Rules, late: set<Binding>, sc: Scope, b: Binding, e: Hir) {
    if Followed(k, b)
    then !Defined(k, b) && Prepared(k, sc.bound + late, b, e) && (b in late || b !in sc.open)
    else b !in sc.open
  }

  predicate DefineScoped(k: Rules, sc: Scope, b: Binding, args: Hirs) {
    b !in sc.open
        && (Followed(k, b) ==> Defined(k, b) && args.HCons? && args.tail.HNil? && Prepared(k, sc.bound, b, args.head))
  }

  predicate LambdaScoped(k: Rules, sc: Scope, id: nat, cs: seq<Capture>) {
    EntryOf(k, id) <= sc.bound && forall b :: b in EntryOf(k, id) ==> Capture(b, false) in cs && Capture(b, true) !in cs
  }

  predicate Scoped(k: Rules, sc: Scope, e: Hir)
    decreases e
  {
    match e
    case Lit(_) => true
    case Var(_) => true
    case Poison => true
    case Let(rec, bs, body) =>
      && (rec ==> Heads(k, bs) !! sc.open)
      && ScopedBinds(k, if rec then Boxes(k, bs) else {}, if rec then Opened(k, sc, bs) else sc, bs)
      && Scoped(k, BodyScope(k, rec, sc, bs), body)
    case Lambda(id, _, cs, body) => LambdaScoped(k, sc, id, cs) && Scoped(k, EntryScope(k, id), body)
    case If(c, t, f) => Scoped(k, sc, c) && Scoped(k, sc, t) && Scoped(k, sc, f)
    case Cond(cl) => ScopedClauses(k, sc, cl)
    case Begin(es) => ScopedSeq(k, sc, es)
    case Block(_, es) => ScopedSeq(k, sc, es)
    case Break(_, v) => Scoped(k, sc, v)
    case Call(args, _, f, _) => ScopedAll(k, sc, args) && Scoped(k, sc, f)
    case While(c, body) => Scoped(k, sc, c) && Scoped(k, sc, body)
    case Loop(bs, body) => ScopedLoop(k, sc, bs) && Scoped(k, sc, body)
    case Match(v, arms) => Scoped(k, sc, v) && ScopedArms(k, sc, arms)
    case Logic(_, es) => ScopedAll(k, sc, es)
    case Parameterize(ps, body) => ScopedAll(k, sc, ps) && Scoped(k, sc, body)
    case Strict(op, args) => ScopedAll(k, sc, args) && (op.Define? ==> DefineScoped(k, sc, op.target, args))
    case Return(v) => Scoped(k, sc, v)
  }

  predicate ScopedAll(k: Rules, sc: Scope, es: Hirs)
    decreases es
  {
    match es
    case HNil => true
    case HCons(e, rest) => Scoped(k, sc, e) && ScopedAll(k, sc, rest)
  }

  predicate ScopedSeq(k: Rules, sc: Scope, es: Hirs)
    decreases es
  {
    match es
    case HNil => true
    case HCons(e, rest) => Scoped(k, sc, e) && ScopedSeq(k, AfterItem(k, sc, e), rest)
  }

  predicate ScopedBinds(k: Rules, late: set<Binding>, sc: Scope, bs: Binds)
    decreases bs
  {
    match bs
    case BNil => true
    case BCons(b, e, rest) =>
      if Eliminable(k.pass, b, e) then Callees(e) <= sc.bound && ScopedBinds(k, late, sc, rest)
      else
        && SiteScoped(k, late, sc, b, e) && b !in Heads(k, rest)
        && Scoped(k, sc, e) && ScopedBinds(k, late, NextScope(k, sc, b, e), rest)
  }

  predicate ScopedLoop(k: Rules, sc: Scope, bs: Binds)
    decreases bs
  {
    match bs
    case BNil => true
    case BCons(_, e, rest) => Scoped(k, sc, e) && ScopedLoop(k, sc, rest)
  }

  predicate ScopedClauses(k: Rules, sc: Scope, cl: Clauses)
    decreases cl
  {
    match cl
    case NoElse => true
    case Else(e) => Scoped(k, sc, e)
    case Clause(c, b, rest) => Scoped(k, sc, c) && Scoped(k, sc, b) && ScopedClauses(k, sc, rest)
  }

  predicate ScopedArms(k: Rules, sc: Scope, arms: Arms)
    decreases arms
  {
    match arms
    case ANil => true
    case ACons(_, g, b, rest) => (g.Some? ==> Scoped(k, sc, g.value)) && Scoped(k, sc, b) && ScopedArms(k, sc, rest)
  }
}
