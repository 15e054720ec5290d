/**
  Dead binding elimination: an unread `let` or `letrec` binding goes, together
  with its initializer, when evaluating the initializer cannot be observed.

  What can be observed rests on the pure functions, a set that starts empty and
  grows by one lambda at a time, each proved from those before it. `PureFunctions`
  returns that order with the set; `DeadRank` says what the order means, and
  `DeadEval` reads it as the bound on how deep an effect-free call can go.
*/
module Dead {
  import opened Options
  import opened HirSyntax

  /** What a primitive declares about its arguments' regions. */
  datatype RegionEffect = Immediate | Fresh | PassThrough | Stores | Sends | Delivers | Funnel | Mixed

  datatype Prim = Prim(silent: bool, effect: RegionEffect, movesOut: bool)

  datatype Info = Info(synthetic: bool, primitive: bool, mutated: bool, fileScope: bool, immutable: bool)

  /** The arena and symbol table, and the signal inferred for each node. */
  datatype Facts = Facts(info: Binding -> Info, prim: Binding -> Option<Prim>, silent: Hir -> bool)

  datatype Pass = Pass(facts: Facts, used: set<Binding>, pure: set<Binding>)

  // ----- effects --------------------------------------------------------------------------------------

  predicate CalleePure(f: Facts, pure: set<Binding>, func: Hir) {
    func.Var? &&
    var b := func.binding;
    var info := f.info(b);
    info.immutable && !info.mutated &&
    if !info.primitive then b in pure else DeclaredPure(f, b)
  }

  predicate DeclaredPure(f: Facts, b: Binding) {
    f.prim(b).Some? &&
    var def := f.prim(b).value;
    def.silent && (def.effect.Immediate? || def.effect.Fresh?) && !def.movesOut
  }

  predicate EffectFree(f: Facts, pure: set<Binding>, e: Hir)
    decreases e
  {
    match e
    case Lit(_) => true
    case Var(_) => true
    case Return(v) => EffectFree(f, pure, v)
    case If(c, t, els) => EffectFree(f, pure, c) && EffectFree(f, pure, t) && EffectFree(f, pure, els)
    case Cond(cl) => EffectFreeClauses(f, pure, cl)
    case Begin(es) => EffectFreeAll(f, pure, es)
    case Logic(_, es) => EffectFreeAll(f, pure, es)
    case Let(_, bs, body) => EffectFreeBinds(f, pure, bs) && EffectFree(f, pure, body)
    case Call(args, _, func, _) => f.silent(e) && CalleePure(f, pure, func) && EffectFreeAll(f, pure, args)
    case Strict(op, args) => f.silent(e) && op.Intrinsic? && !op.funnel && EffectFreeAll(f, pure, args)
    case _ => false
  }

  predicate EffectFreeAll(f: Facts, pure: set<Binding>, es: Hirs)
    decreases es
  {
    match es
    case HNil => true
    case HCons(e, rest) => EffectFree(f, pure, e) && EffectFreeAll(f, pure, rest)
  }

  predicate EffectFreeBinds(f: Facts, pure: set<Binding>, bs: Binds)
    decreases bs
  {
    match bs
    case BNil => true
    case BCons(_, e, rest) => EffectFree(f, pure, e) && EffectFreeBinds(f, pure, rest)
  }

  predicate EffectFreeClauses(f: Facts, pure: set<Binding>, cl: Clauses)
    decreases cl
  {
    match cl
    case NoElse => true
    case Else(e) => EffectFree(f, pure, e)
    case Clause(c, b, rest) => EffectFree(f, pure, c) && EffectFree(f, pure, b) && EffectFreeClauses(f, pure, rest)
  }

  // ----- who is called -----------------------------------------------------------------------------------

  /** The names that calls in the tree, outside its lambdas, have in function position. */
  function Callees(e: Hir): set<Binding>
    decreases e
  {
    match e
    case Return(v) => Callees(v)
    case If(c, t, els) => Callees(c) + Callees(t) + Callees(els)
    case Cond(cl) => CalleesClauses(cl)
    case Begin(es) => CalleesAll(es)
    case Block(_, es) => CalleesAll(es)
    case Break(_, v) => Callees(v)
    case Logic(_, es) => CalleesAll(es)
    case Let(_, bs, body) => CalleesBinds(bs) + Callees(body)
    case Call(args, _, func, _) => CalleesAll(args) + if func.Var? then {func.binding} else Callees(func)
    case While(c, body) => Callees(c) + Callees(body)
    case Loop(bs, body) => CalleesBinds(bs) + Callees(body)
    case Match(v, arms) => Callees(v) + CalleesArms(arms)
    case Parameterize(ps, body) => CalleesAll(ps) + Callees(body)
    case Strict(_, args) => CalleesAll(args)
    case _ => {}
  }

  function CalleesAll(es: Hirs): set<Binding>
    decreases es
  {
    match es
    case HNil => {}
    case HCons(e, rest) => Callees(e) + CalleesAll(rest)
  }

  function CalleesBinds(bs: Binds): set<Binding>
    decreases bs
  {
    match bs
    case BNil => {}
    case BCons(_, e, rest) => Callees(e) + CalleesBinds(rest)
  }

  function CalleesClauses(cl: Clauses): set<Binding>
    decreases cl
  {
    match cl
    case NoElse => {}
    case Else(e) => Callees(e)
    case Clause(c, b, rest) => Callees(c) + Callees(b) + CalleesClauses(rest)
  }

  function CalleesArms(arms: Arms): set<Binding>
    decreases arms
  {
    match arms
    case ANil => {}
    case ACons(_, g, b, rest) => (if g.Some? then Callees(g.value) else {}) + Callees(b) + CalleesArms(rest)
  }

  // ----- the pass ----------------------------------------------------------------------------------------

  predicate Eliminable(p: Pass, b: Binding, init: Hir) {
    var info := p.facts.info(b);
    && b !in p.used
    && !info.synthetic && !info.primitive && !info.mutated && !info.fileScope && !b.boxed
    && !init.Lambda?
    && EffectFree(p.facts, p.pure, init)
  }

  function Strip(p: Pass, e: Hir): Hir
    decreases e
  {
    match e
    case Lit(_) => e
    case Var(_) => e
    case Poison => e
    case Let(rec, bs, body) => Let(rec, StripLet(p, bs), Strip(p, body))
    case Lambda(id, ps, cs, body) => Lambda(id, ps, cs, Strip(p, body))
    case If(c, t, f) => If(Strip(p, c), Strip(p, t), Strip(p, f))
    case Cond(cl) => Cond(StripClauses(p, cl))
    case Begin(es) => Begin(StripAll(p, es))
    case Block(id, es) => Block(id, StripAll(p, es))
    case Break(id, v) => Break(id, Strip(p, v))
    case Call(args, sp, f, tail) => Call(StripAll(p, args), sp, Strip(p, f), tail)
    case While(c, body) => While(Strip(p, c), Strip(p, body))
    case Loop(bs, body) => Loop(StripLoop(p, bs), Strip(p, body))
    case Match(v, arms) => Match(Strip(p, v), StripArms(p, arms))
    case Logic(conj, es) => Logic(conj, StripAll(p, es))
    case Parameterize(ps, body) => Parameterize(StripAll(p, ps), Strip(p, body))
    case Strict(op, args) => Strict(op, StripAll(p, args))
    case Return(v) => Return(Strip(p, v))
  }

  function StripAll(p: Pass, es: Hirs): Hirs
    decreases es
  {
    match es
    case HNil => HNil
    case HCons(e, rest) => HCons(Strip(p, e), StripAll(p, rest))
  }

  /** A binding is dropped before the walk descends, so a dropped initializer is never visited. */
  function StripLet(p: Pass, bs: Binds): Binds
    decreases bs
  {
    match bs
    case BNil => BNil
    case BCons(b, e, rest) =>
      if Eliminable(p, b, e) then StripLet(p, rest) else BCons(b, Strip(p, e), StripLet(p, rest))
  }

  function StripLoop(p: Pass, bs: Binds): Binds
    decreases bs
  {
    match bs
    case BNil => BNil
    case BCons(b, e, rest) => BCons(b, Strip(p, e), StripLoop(p, rest))
  }

  function StripClauses(p: Pass, cl: Clauses): Clauses
    decreases cl
  {
    match cl
    case NoElse => NoElse
    case Else(e) => Else(Strip(p, e))
    case Clause(c, b, rest) => Clause(Strip(p, c), Strip(p, b), StripClauses(p, rest))
  }

  function StripArms(p: Pass, arms: Arms): Arms
    decreases arms
  {
    match arms
    case ANil => ANil
    case ACons(pat, g, b, rest) =>
      ACons(pat, if g.Some? then Some(Strip(p, g.value)) else None, Strip(p, b), StripArms(p, rest))
  }

  // ----- the sites that bind a name to an expression -------------------------------------------------------

  type Site = (Binding, Hir)

  /** Every `let`, `letrec` and `def` site, in the order the walk meets them. */
  function Sites(e: Hir): seq<Site>
    decreases e
  {
    match e
    case Lit(_) => []
    case Var(_) => []
    case Poison => []
    case Let(_, bs, body) => Here(bs) + SitesBinds(bs) + Sites(body)
    case Lambda(_, _, _, body) => Sites(body)
    case If(c, t, f) => Sites(c) + Sites(t) + Sites(f)
    case Cond(cl) => SitesClauses(cl)
    case Begin(es) => SitesAll(es)
    case Block(_, es) => SitesAll(es)
    case Break(_, v) => Sites(v)
    case Call(args, _, f, _) => Sites(f) + SitesAll(args)
    case While(c, body) => Sites(c) + Sites(body)
    case Loop(bs, body) => SitesBinds(bs) + Sites(body)
    case Match(v, arms) => Sites(v) + SitesArms(arms)
    case Logic(_, es) => SitesAll(es)
    case Parameterize(ps, body) => SitesAll(ps) + Sites(body)
    case Strict(op, args) =>
      (if op.Define? && args.HCons? then [(op.target, args.head)] else []) + SitesAll(args)
    case Return(v) => Sites(v)
  }

  function Here(bs: Binds): seq<Site> {
    match bs
    case BNil => []
    case BCons(b, e, rest) => [(b, e)] + Here(rest)
  }

  function SitesAll(es: Hirs): seq<Site>
    decreases es
  {
    match es
    case HNil => []
    case HCons(e, rest) => Sites(e) + SitesAll(rest)
  }

  function SitesBinds(bs: Binds): seq<Site>
    decreases bs
  {
    match bs
    case BNil => []
    case BCons(_, e, rest) => Sites(e) + SitesBinds(rest)
  }

  function SitesClauses(cl: Clauses): seq<Site>
    decreases cl
  {
    match cl
    case NoElse => []
    case Else(e) => Sites(e)
    case Clause(c, b, rest) => Sites(c) + Sites(b) + SitesClauses(rest)
  }

  function SitesArms(arms: Arms): seq<Site>
    decreases arms
  {
    match arms
    case ANil => []
    case ACons(_, g, b, rest) => (if g.Some? then Sites(g.value) else []) + Sites(b) + SitesArms(rest)
  }

  // ----- the pure functions --------------------------------------------------------------------------------

  function Count(sites: seq<Site>, b: Binding): nat {
    if sites == [] then 0 else Count(sites[..|sites| - 1], b) + if sites[|sites| - 1].0 == b then 1 else 0
  }

  /** A site whose lambda may join `pure`: bound there alone, never written, its body effect-free. */
  predicate Admissible(f: Facts, sites: seq<Site>, pure: set<Binding>, s: Site) {
    && Count(sites, s.0) == 1
    && f.info(s.0).immutable && !f.info(s.0).mutated
    && s.1.Lambda? && EffectFree(f, pure, s.1.body)
  }

  function Elements(order: seq<Binding>): set<Binding> {
    set i | 0 <= i < |order| :: order[i]
  }

  /** Each function of `order` is admissible from those before it, and appears once. */
  ghost predicate Ranked(f: Facts, sites: seq<Site>, order: seq<Binding>) {
    forall i :: 0 <= i < |order| ==> RankedAt(f, sites, order, i)
  }

  ghost predicate RankedAt(f: Facts, sites: seq<Site>, order: seq<Binding>, i: nat)
    requires i < |order|
  {
    && order[i] !in order[..i]
    && exists j :: 0 <= j < |sites| && sites[j].0 == order[i] && Admissible(f, sites, Elements(order[..i]), sites[j])
  }

  method PureFunctions(f: Facts, sites: seq<Site>) returns (pure: set<Binding>, ghost order: seq<Binding>)
    ensures pure == Elements(order) && Ranked(f, sites, order)
    ensures forall j :: 0 <= j < |sites| && Admissible(f, sites, pure, sites[j]) ==> sites[j].0 in pure
  {
    pure, order := {}, [];
    while true
      invariant pure == Elements(order) && Ranked(f, sites, order) && pure <= SiteNames(sites)
      decreases SiteNames(sites) - pure
    {
      ghost var was := pure;
      var grew;
      pure, order, grew := AdmitPureLambdas(f, sites, pure, order);
      if !grew { return; }
    }
  }

  ghost function SiteNames(sites: seq<Site>): set<Binding> {
    set j | 0 <= j < |sites| :: sites[j].0
  }

  /** One round: admit each lambda that is effect-free under what is admitted so far. */
  method AdmitPureLambdas(f: Facts, sites: seq<Site>, pure: set<Binding>, ghost order: seq<Binding>)
    returns (grown: set<Binding>, ghost longer: seq<Binding>, grew: bool)
    requires pure == Elements(order) && Ranked(f, sites, order) && pure <= SiteNames(sites)
    ensures grown == Elements(longer) && Ranked(f, sites, longer) && pure <= grown <= SiteNames(sites)
    ensures grew <==> grown != pure
    ensures !grew ==>
              && longer == order
              && forall j :: 0 <= j < |sites| && Admissible(f, sites, pure, sites[j]) ==> sites[j].0 in pure
  {
    grown, longer, grew := pure, order, false;
    var j := 0;
    while j < |sites|
      invariant 0 <= j <= |sites|
      invariant grown == Elements(longer) && Ranked(f, sites, longer) && pure <= grown <= SiteNames(sites)
      invariant (grew <==> grown != pure) && (!grew ==> longer == order)
      invariant !grew ==> forall i :: 0 <= i < j && Admissible(f, sites, pure, sites[i]) ==> sites[i].0 in pure
    {
      var b := sites[j].0;
      if b !in grown && Admissible(f, sites, grown, sites[j]) {
        RankedPush(f, sites, longer, j);
        grown, longer, grew := grown + {b}, longer + [b], true;
      }
      j := j + 1;
    }
  }

  lemma RankedPush(f: Facts, sites: seq<Site>, order: seq<Binding>, j: nat)
    requires Ranked(f, sites, order) && j < |sites| && sites[j].0 !in Elements(order)
    requires Admissible(f, sites, Elements(order), sites[j])
    ensures Ranked(f, sites, order + [sites[j].0]) && Elements(order + [sites[j].0]) == Elements(order) + {sites[j].0}
  {
    var b := sites[j].0;
    var next := order + [b];
    assert next[..|order|] == order;
    forall i | 0 <= i < |next| ensures RankedAt(f, sites, next, i) {
      if i < |order| {
        assert RankedAt(f, sites, order, i);
        assert next[..i] == order[..i];
      } else {
        assert forall k :: 0 <= k < |order| ==> order[k] in Elements(order);
      }
    }
    assert Elements(next) == Elements(order) + {b} by {
      assert forall x :: x in Elements(next) ==> x in Elements(order) || x == b;
      assert forall i :: 0 <= i < |order| ==> next[i] == order[i];
      assert next[|order|] == b;
    }
  }
}
