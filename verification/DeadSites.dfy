/**
  Sites: the `let`, `letrec` and `def` positions that bind a name to an expression,
  and what the pass does to them. Each lemma follows one occurrence of a name
  through the tree.
*/
module DeadSites {
  import opened HirSyntax
  import opened Dead
  import opened DeadNames

  // ----- effect-free trees -------------------------------------------------------------------------------

  /** An effect-free tree captures nothing, writes nothing, and binds by `let` alone. */
  lemma {:induction false} EffectFreeNames(f: Facts, pure: set<Binding>, e: Hir, x: Binding)
    requires EffectFree(f, pure, e)
    ensures Occ(e, Target(x)) == 0 && Occ(e, Caught(x)) == 0 && Occ(e, Param(x)) == 0 && CodeOf(e) == map[]
    decreases e
  {
    hide CalleePure;
    match e
    case Lit(_) =>
    case Var(_) =>
    case Return(v) => EffectFreeNames(f, pure, v, x);
    case If(c, t, els) =>
      EffectFreeNames(f, pure, c, x);
      EffectFreeNames(f, pure, t, x);
      EffectFreeNames(f, pure, els, x);
    case Cond(cl) => EffectFreeClauseNames(f, pure, cl, x);
    case Begin(es) => EffectFreeAllNames(f, pure, es, x);
    case Logic(_, es) => EffectFreeAllNames(f, pure, es, x);
    case Let(_, bs, body) =>
      EffectFreeBindNames(f, pure, bs, x);
      EffectFreeNames(f, pure, body, x);
    case Call(args, _, func, _) =>
      EffectFreeAllNames(f, pure, args, x);
      CalleeIsVar(f, pure, func);
    case Strict(_, args) => EffectFreeAllNames(f, pure, args, x);
  }

  lemma CalleeIsVar(f: Facts, pure: set<Binding>, func: Hir)
    requires CalleePure(f, pure, func)
    ensures func.Var? && f.info(func.binding).immutable && !f.info(func.binding).mutated
    ensures if !f.info(func.binding).primitive then func.binding in pure else DeclaredPure(f, func.binding)
  {}

  lemma {:induction false} EffectFreeAllNames(f: Facts, pure: set<Binding>, es: Hirs, x: Binding)
    requires EffectFreeAll(f, pure, es)
    ensures AllOcc(es, Target(x)) == 0 && AllOcc(es, Caught(x)) == 0 && AllOcc(es, Param(x)) == 0
    ensures CodeOfAll(es) == map[]
    decreases es
  {
    if es.HCons? {
      EffectFreeNames(f, pure, es.head, x);
      EffectFreeAllNames(f, pure, es.tail, x);
    }
  }

  lemma {:induction false} EffectFreeBindNames(f: Facts, pure: set<Binding>, bs: Binds, x: Binding)
    requires EffectFreeBinds(f, pure, bs)
    ensures LetOcc(bs, Target(x)) == 0 && LetOcc(bs, Caught(x)) == 0 && LetOcc(bs, Param(x)) == 0
    ensures CodeOfBinds(bs) == map[]
    decreases bs
  {
    if bs.BCons? {
      EffectFreeNames(f, pure, bs.init, x);
      EffectFreeBindNames(f, pure, bs.rest, x);
    }
  }

  lemma {:induction false} EffectFreeClauseNames(f: Facts, pure: set<Binding>, cl: Clauses, x: Binding)
    requires EffectFreeClauses(f, pure, cl)
    ensures ClausesOcc(cl, Target(x)) == 0 && ClausesOcc(cl, Caught(x)) == 0 && ClausesOcc(cl, Param(x)) == 0
    ensures CodeOfClauses(cl) == map[]
    decreases cl
  {
    match cl
    case NoElse =>
    case Else(e) => EffectFreeNames(f, pure, e, x);
    case Clause(c, b, rest) =>
      EffectFreeNames(f, pure, c, x);
      EffectFreeNames(f, pure, b, x);
      EffectFreeClauseNames(f, pure, rest, x);
  }

  /** An effect-free tree is harmless, unless it binds a name that is not quiet. */
  lemma {:induction false} NoisySite(k: Rules, gone: bool, pure: set<Binding>, e: Hir) returns (b: Binding, init: Hir)
    requires EffectFree(k.pass.facts, pure, e) && !Harmless(k, gone, pure, e)
    ensures Noisy(k, gone, pure, b, init) && Occ(e, SiteOf(b, init)) > 0 && Occ(e, Bound(b)) > 0
    decreases e
  {
    hide CalleePure, Quiet;
    match e
    case Return(v) => b, init := NoisySite(k, gone, pure, v);
    case If(c, t, els) =>
      if !Harmless(k, gone, pure, c) {
        b, init := NoisySite(k, gone, pure, c);
      } else if !Harmless(k, gone, pure, t) {
        b, init := NoisySite(k, gone, pure, t);
      } else {
        b, init := NoisySite(k, gone, pure, els);
      }
    case Cond(cl) => b, init := NoisyClause(k, gone, pure, cl);
    case Begin(es) => b, init := NoisyAmong(k, gone, pure, es);
    case Logic(_, es) => b, init := NoisyAmong(k, gone, pure, es);
    case Let(_, bs, body) =>
      if !HarmlessBinds(k, gone, pure, bs) {
        b, init := NoisyBind(k, gone, pure, bs);
      } else {
        b, init := NoisySite(k, gone, pure, body);
      }
    case Call(args, _, _, _) => b, init := NoisyAmong(k, gone, pure, args);
    case Strict(_, args) => b, init := NoisyAmong(k, gone, pure, args);
  }

  predicate Noisy(k: Rules, gone: bool, pure: set<Binding>, b: Binding, init: Hir) {
    !Quiet(k, gone, b) && EffectFree(k.pass.facts, pure, init)
  }

  lemma {:induction false} NoisyAmong(k: Rules, gone: bool, pure: set<Binding>, es: Hirs)
    returns (b: Binding, init: Hir)
    requires EffectFreeAll(k.pass.facts, pure, es) && !HarmlessAll(k, gone, pure, es)
    ensures Noisy(k, gone, pure, b, init) && AllOcc(es, SiteOf(b, init)) > 0 && AllOcc(es, Bound(b)) > 0
    decreases es
  {
    if !Harmless(k, gone, pure, es.head) {
      b, init := NoisySite(k, gone, pure, es.head);
    } else {
      b, init := NoisyAmong(k, gone, pure, es.tail);
    }
  }

  lemma {:induction false} NoisyBind(k: Rules, gone: bool, pure: set<Binding>, bs: Binds)
    returns (b: Binding, init: Hir)
    requires EffectFreeBinds(k.pass.facts, pure, bs) && !HarmlessBinds(k, gone, pure, bs)
    ensures Noisy(k, gone, pure, b, init) && LetOcc(bs, SiteOf(b, init)) > 0 && LetOcc(bs, Bound(b)) > 0
    decreases bs
  {
    hide Quiet;
    if !Quiet(k, gone, bs.binding) {
      b, init := bs.binding, bs.init;
    } else if !Harmless(k, gone, pure, bs.init) {
      b, init := NoisySite(k, gone, pure, bs.init);
    } else {
      b, init := NoisyBind(k, gone, pure, bs.rest);
    }
  }

  lemma {:induction false} NoisyClause(k: Rules, gone: bool, pure: set<Binding>, cl: Clauses)
    returns (b: Binding, init: Hir)
    requires EffectFreeClauses(k.pass.facts, pure, cl) && !HarmlessClauses(k, gone, pure, cl)
    ensures Noisy(k, gone, pure, b, init) && ClausesOcc(cl, SiteOf(b, init)) > 0 && ClausesOcc(cl, Bound(b)) > 0
    decreases cl
  {
    match cl
    case Else(e) => b, init := NoisySite(k, gone, pure, e);
    case Clause(c, body, rest) =>
      if !Harmless(k, gone, pure, c) {
        b, init := NoisySite(k, gone, pure, c);
      } else if !Harmless(k, gone, pure, body) {
        b, init := NoisySite(k, gone, pure, body);
      } else {
        b, init := NoisyClause(k, gone, pure, rest);
      }
  }

  // ----- sites --------------------------------------------------------------------------------------------

  predicate SiteInside(e: Hir, b: Binding, init: Hir, o: Role) {
    Occ(e, SiteOf(b, init)) > 0 ==> Occ(init, o) <= Occ(e, o) && Occ(e, Bound(b)) > 0
  }

  predicate AllInside(es: Hirs, b: Binding, init: Hir, o: Role) {
    AllOcc(es, SiteOf(b, init)) > 0 ==> Occ(init, o) <= AllOcc(es, o) && AllOcc(es, Bound(b)) > 0
  }

  predicate LetInside(bs: Binds, b: Binding, init: Hir, o: Role) {
    LetOcc(bs, SiteOf(b, init)) > 0 ==> Occ(init, o) <= LetOcc(bs, o) && LetOcc(bs, Bound(b)) > 0
  }

  predicate LoopInside(bs: Binds, b: Binding, init: Hir, o: Role) {
    LoopOcc(bs, SiteOf(b, init)) > 0 ==> Occ(init, o) <= LoopOcc(bs, o) && LoopOcc(bs, Bound(b)) > 0
  }

  predicate ClausesInside(cl: Clauses, b: Binding, init: Hir, o: Role) {
    ClausesOcc(cl, SiteOf(b, init)) > 0 ==> Occ(init, o) <= ClausesOcc(cl, o) && ClausesOcc(cl, Bound(b)) > 0
  }

  predicate ArmsInside(arms: Arms, b: Binding, init: Hir, o: Role) {
    ArmsOcc(arms, SiteOf(b, init)) > 0 ==> Occ(init, o) <= ArmsOcc(arms, o) && ArmsOcc(arms, Bound(b)) > 0
  }

  /** What occurs in a site's initializer occurs in the tree, and the site binds its name there. */
  lemma {:induction false} SiteIsInside(e: Hir, b: Binding, init: Hir, o: Role)
    ensures SiteInside(e, b, init, o)
    decreases e, 1
  {
    hide Params, Catches;
    match e
    case Lit(_) =>
    case Poison =>
    case Var(_) =>
    case Let(_, _, _) => SiteIsInsideBinder(e, b, init, o);
    case Lambda(id, ps, cs, body) =>
      NoSites(ps, b, init);
      NoCaughtSites(id, cs, b, init);
      SiteIsInside(body, b, init, o);
    case If(_, _, _) => SiteIsInsideBranch(e, b, init, o);
    case Cond(_) => SiteIsInsideSequence(e, b, init, o);
    case Begin(_) => SiteIsInsideSequence(e, b, init, o);
    case Block(_, _) => SiteIsInsideSequence(e, b, init, o);
    case Break(_, v) => SiteIsInside(v, b, init, o);
    case Call(_, _, _, _) => SiteIsInsideCallee(e, b, init, o);
    case While(_, _) => SiteIsInsideBranch(e, b, init, o);
    case Loop(_, _) => SiteIsInsideBinder(e, b, init, o);
    case Match(_, _) => SiteIsInsideCallee(e, b, init, o);
    case Logic(_, _) => SiteIsInsideSequence(e, b, init, o);
    case Parameterize(_, _) => SiteIsInsideBinder(e, b, init, o);
    case Strict(_, _) => SiteIsInsideSequence(e, b, init, o);
    case Return(v) => SiteIsInside(v, b, init, o);
  }

  lemma {:induction false} SiteIsInsideBranch(e: Hir, b: Binding, init: Hir, o: Role)
    requires e.If? || e.While?
    ensures SiteInside(e, b, init, o)
    decreases e, 0
  {
    hide Params, Catches;
    match e
    case If(c, t, f) =>
      SiteIsInside(c, b, init, o);
      SiteIsInside(t, b, init, o);
      SiteIsInside(f, b, init, o);
    case While(c, body) =>
      SiteIsInside(c, b, init, o);
      SiteIsInside(body, b, init, o);
  }

  lemma {:induction false} SiteIsInsideCallee(e: Hir, b: Binding, init: Hir, o: Role)
    requires e.Call? || e.Match?
    ensures SiteInside(e, b, init, o)
    decreases e, 0
  {
    hide Params, Catches;
    match e
    case Call(args, _, f, _) =>
      SiteInsideAll(args, b, init, o);
      SiteIsInside(f, b, init, o);
    case Match(v, arms) =>
      SiteIsInside(v, b, init, o);
      SiteInsideArms(arms, b, init, o);
  }

  lemma {:induction false} SiteIsInsideBinder(e: Hir, b: Binding, init: Hir, o: Role)
    requires e.Let? || e.Loop? || e.Parameterize?
    ensures SiteInside(e, b, init, o)
    decreases e, 0
  {
    hide Params, Catches;
    match e
    case Let(_, bs, body) =>
      SiteInsideLet(bs, b, init, o);
      SiteIsInside(body, b, init, o);
    case Loop(bs, body) =>
      SiteInsideLoop(bs, b, init, o);
      SiteIsInside(body, b, init, o);
    case Parameterize(ps, body) =>
      SiteInsideAll(ps, b, init, o);
      SiteIsInside(body, b, init, o);
  }

  lemma {:induction false} SiteIsInsideSequence(e: Hir, b: Binding, init: Hir, o: Role)
    requires e.Cond? || e.Begin? || e.Block? || e.Logic? || e.Strict?
    ensures SiteInside(e, b, init, o)
    decreases e, 0
  {
    hide Params, Catches;
    match e
    case Cond(cl) => SiteInsideClauses(cl, b, init, o);
    case Begin(es) => SiteInsideAll(es, b, init, o);
    case Block(_, es) => SiteInsideAll(es, b, init, o);
    case Logic(_, es) => SiteInsideAll(es, b, init, o);
    case Strict(op, args) =>
      ArgInside(op, args, b, init, o);
      SiteInsideAll(args, b, init, o);
  }

  lemma {:induction false} SiteInsideAll(es: Hirs, b: Binding, init: Hir, o: Role)
    ensures AllInside(es, b, init, o)
    decreases es, 0
  {
    hide Params, Catches;
    if es.HCons? {
      SiteIsInside(es.head, b, init, o);
      SiteInsideAll(es.tail, b, init, o);
    }
  }

  lemma {:induction false} SiteInsideLet(bs: Binds, b: Binding, init: Hir, o: Role)
    ensures LetInside(bs, b, init, o)
    decreases bs, 0
  {
    hide Params, Catches;
    if bs.BCons? {
      SiteIsInside(bs.init, b, init, o);
      SiteInsideLet(bs.rest, b, init, o);
    }
  }

  lemma {:induction false} SiteInsideLoop(bs: Binds, b: Binding, init: Hir, o: Role)
    ensures LoopInside(bs, b, init, o)
    decreases bs, 0
  {
    hide Params, Catches;
    if bs.BCons? {
      SiteIsInside(bs.init, b, init, o);
      SiteInsideLoop(bs.rest, b, init, o);
    }
  }

  lemma {:induction false} SiteInsideClauses(cl: Clauses, b: Binding, init: Hir, o: Role)
    ensures ClausesInside(cl, b, init, o)
    decreases cl, 0
  {
    hide Params, Catches;
    match cl
    case NoElse =>
    case Else(e) => SiteIsInside(e, b, init, o);
    case Clause(c, body, rest) =>
      SiteIsInside(c, b, init, o);
      SiteIsInside(body, b, init, o);
      SiteInsideClauses(rest, b, init, o);
  }

  lemma {:induction false} SiteInsideArms(arms: Arms, b: Binding, init: Hir, o: Role)
    ensures ArmsInside(arms, b, init, o)
    decreases arms, 0
  {
    hide Params, Catches;
    if arms.ACons? {
      NoSites(arms.pattern.vars, b, init);
      if arms.guard.Some? { SiteIsInside(arms.guard.value, b, init, o); }
      SiteIsInside(arms.body, b, init, o);
      SiteInsideArms(arms.rest, b, init, o);
    }
  }

  lemma ArgInside(op: Op, args: Hirs, b: Binding, init: Hir, o: Role)
    ensures OpOcc(op, args, SiteOf(b, init)) > 0 ==> Occ(init, o) <= AllOcc(args, o) && OpOcc(op, args, Bound(b)) > 0
  {
    if op.Destructure? { NoSites(op.pattern.vars, b, init); }
  }

  lemma {:induction false} NoSites(bs: seq<Binding>, b: Binding, init: Hir)
    ensures Params(bs, SiteOf(b, init)) == 0
  {
    if bs != [] { NoSites(bs[1..], b, init); }
  }

  predicate SiteListed(e: Hir, b: Binding, init: Hir) {
    (b, init) in Sites(e) <==> Occ(e, SiteOf(b, init)) > 0
  }

  predicate AllListed(es: Hirs, b: Binding, init: Hir) {
    (b, init) in SitesAll(es) <==> AllOcc(es, SiteOf(b, init)) > 0
  }

  predicate LetListed(bs: Binds, b: Binding, init: Hir) {
    (b, init) in Here(bs) + SitesBinds(bs) <==> LetOcc(bs, SiteOf(b, init)) > 0
  }

  predicate LoopListed(bs: Binds, b: Binding, init: Hir) {
    (b, init) in SitesBinds(bs) <==> LoopOcc(bs, SiteOf(b, init)) > 0
  }

  predicate ClausesListed(cl: Clauses, b: Binding, init: Hir) {
    (b, init) in SitesClauses(cl) <==> ClausesOcc(cl, SiteOf(b, init)) > 0
  }

  predicate ArmsListed(arms: Arms, b: Binding, init: Hir) {
    (b, init) in SitesArms(arms) <==> ArmsOcc(arms, SiteOf(b, init)) > 0
  }

  /** The listed sites are the counted ones. */
  lemma {:induction false} SiteIsListed(e: Hir, b: Binding, init: Hir)
    ensures SiteListed(e, b, init)
    decreases e, 1
  {
    hide Params, Catches;
    match e
    case Lit(_) =>
    case Poison =>
    case Var(_) =>
    case Let(_, _, _) => SiteIsListedBinder(e, b, init);
    case Lambda(_, _, _, body) =>
      NoSites(e.params, b, init);
      NoCaughtSites(e.id, e.captures, b, init);
      SiteIsListed(body, b, init);
    case If(_, _, _) => SiteIsListedBranch(e, b, init);
    case Cond(_) => SiteIsListedSequence(e, b, init);
    case Begin(_) => SiteIsListedSequence(e, b, init);
    case Block(_, _) => SiteIsListedSequence(e, b, init);
    case Break(_, v) => SiteIsListed(v, b, init);
    case Call(_, _, _, _) => SiteIsListedCallee(e, b, init);
    case While(_, _) => SiteIsListedBranch(e, b, init);
    case Loop(_, _) => SiteIsListedBinder(e, b, init);
    case Match(_, _) => SiteIsListedCallee(e, b, init);
    case Logic(_, _) => SiteIsListedSequence(e, b, init);
    case Parameterize(_, _) => SiteIsListedBinder(e, b, init);
    case Strict(_, _) => SiteIsListedSequence(e, b, init);
    case Return(v) => SiteIsListed(v, b, init);
  }

  lemma {:induction false} SiteIsListedBranch(e: Hir, b: Binding, init: Hir)
    requires e.If? || e.While?
    ensures SiteListed(e, b, init)
    decreases e, 0
  {
    hide Params, Catches;
    match e
    case If(c, t, f) =>
      SiteIsListed(c, b, init);
      SiteIsListed(t, b, init);
      SiteIsListed(f, b, init);
    case While(c, body) =>
      SiteIsListed(c, b, init);
      SiteIsListed(body, b, init);
  }

  lemma {:induction false} SiteIsListedCallee(e: Hir, b: Binding, init: Hir)
    requires e.Call? || e.Match?
    ensures SiteListed(e, b, init)
    decreases e, 0
  {
    hide Params, Catches;
    match e
    case Call(args, _, f, _) =>
      SiteListedAll(args, b, init);
      SiteIsListed(f, b, init);
    case Match(v, arms) =>
      SiteIsListed(v, b, init);
      SiteListedArms(arms, b, init);
  }

  lemma {:induction false} SiteIsListedBinder(e: Hir, b: Binding, init: Hir)
    requires e.Let? || e.Loop? || e.Parameterize?
    ensures SiteListed(e, b, init)
    decreases e, 0
  {
    hide Params, Catches;
    match e
    case Let(_, bs, body) =>
      SiteListedLet(bs, b, init);
      SiteIsListed(body, b, init);
    case Loop(bs, body) =>
      SiteListedLoop(bs, b, init);
      SiteIsListed(body, b, init);
    case Parameterize(ps, body) =>
      SiteListedAll(ps, b, init);
      SiteIsListed(body, b, init);
  }

  lemma {:induction false} SiteIsListedSequence(e: Hir, b: Binding, init: Hir)
    requires e.Cond? || e.Begin? || e.Block? || e.Logic? || e.Strict?
    ensures SiteListed(e, b, init)
    decreases e, 0
  {
    hide Params, Catches;
    match e
    case Cond(cl) => SiteListedClauses(cl, b, init);
    case Begin(es) => SiteListedAll(es, b, init);
    case Block(_, es) => SiteListedAll(es, b, init);
    case Logic(_, es) => SiteListedAll(es, b, init);
    case Strict(op, args) =>
      OpListed(op, args, b, init);
      SiteListedAll(args, b, init);
  }

  lemma {:induction false} SiteListedAll(es: Hirs, b: Binding, init: Hir)
    ensures AllListed(es, b, init)
    decreases es, 0
  {
    hide Params, Catches;
    if es.HCons? {
      SiteIsListed(es.head, b, init);
      SiteListedAll(es.tail, b, init);
    }
  }

  lemma {:induction false} SiteListedLet(bs: Binds, b: Binding, init: Hir)
    ensures LetListed(bs, b, init)
    decreases bs, 0
  {
    hide Params, Catches;
    if bs.BCons? {
      SiteIsListed(bs.init, b, init);
      SiteListedLet(bs.rest, b, init);
    }
  }

  lemma {:induction false} SiteListedLoop(bs: Binds, b: Binding, init: Hir)
    ensures LoopListed(bs, b, init)
    decreases bs, 0
  {
    hide Params, Catches;
    if bs.BCons? {
      SiteIsListed(bs.init, b, init);
      SiteListedLoop(bs.rest, b, init);
    }
  }

  lemma {:induction false} SiteListedClauses(cl: Clauses, b: Binding, init: Hir)
    ensures ClausesListed(cl, b, init)
    decreases cl, 0
  {
    hide Params, Catches;
    match cl
    case NoElse =>
    case Else(e) => SiteIsListed(e, b, init);
    case Clause(c, body, rest) =>
      SiteIsListed(c, b, init);
      SiteIsListed(body, b, init);
      SiteListedClauses(rest, b, init);
  }

  lemma {:induction false} SiteListedArms(arms: Arms, b: Binding, init: Hir)
    ensures ArmsListed(arms, b, init)
    decreases arms, 0
  {
    hide Params, Catches;
    if arms.ACons? {
      NoSites(arms.pattern.vars, b, init);
      if arms.guard.Some? { SiteIsListed(arms.guard.value, b, init); }
      SiteIsListed(arms.body, b, init);
      SiteListedArms(arms.rest, b, init);
    }
  }

  lemma OpListed(op: Op, args: Hirs, b: Binding, init: Hir)
    ensures OpOcc(op, args, SiteOf(b, init)) > 0 <==> op.Define? && args.HCons? && b == op.target && init == args.head
  {
    if op.Destructure? { NoSites(op.pattern.vars, b, init); }
  }

  lemma {:induction false} NoCaughtSites(id: nat, cs: seq<Capture>, b: Binding, init: Hir)
    ensures Catches(id, cs, SiteOf(b, init)) == 0
    decreases |cs|
  {
    if cs != [] { NoCaughtSites(id, cs[1..], b, init); }
  }

  // ----- dropped sites ---------------------------------------------------------------------------------------

  /** A dropped site is one of the tree's, it is eliminable, and all that occurs in it is shed. */
  predicate SiteSheds(p: Pass, e: Hir, b: Binding, init: Hir, o: Role) {
    Shed(p, e, Drop(b, init)) > 0 ==>
      && Occ(e, SiteOf(b, init)) > 0 && Eliminable(p, b, init)
      && Occ(init, o) + One(o == Bound(b)) <= Shed(p, e, o)
  }

  predicate AllSheds(p: Pass, es: Hirs, b: Binding, init: Hir, o: Role) {
    AllShed(p, es, Drop(b, init)) > 0 ==>
      && AllOcc(es, SiteOf(b, init)) > 0 && Eliminable(p, b, init)
      && Occ(init, o) + One(o == Bound(b)) <= AllShed(p, es, o)
  }

  predicate LetSheds(p: Pass, bs: Binds, b: Binding, init: Hir, o: Role) {
    LetShed(p, bs, Drop(b, init)) > 0 ==>
      && LetOcc(bs, SiteOf(b, init)) > 0 && Eliminable(p, b, init)
      && Occ(init, o) + One(o == Bound(b)) <= LetShed(p, bs, o)
  }

  predicate LoopSheds(p: Pass, bs: Binds, b: Binding, init: Hir, o: Role) {
    LoopShed(p, bs, Drop(b, init)) > 0 ==>
      && LoopOcc(bs, SiteOf(b, init)) > 0 && Eliminable(p, b, init)
      && Occ(init, o) + One(o == Bound(b)) <= LoopShed(p, bs, o)
  }

  predicate ClausesSheds(p: Pass, cl: Clauses, b: Binding, init: Hir, o: Role) {
    ClausesShed(p, cl, Drop(b, init)) > 0 ==>
      && ClausesOcc(cl, SiteOf(b, init)) > 0 && Eliminable(p, b, init)
      && Occ(init, o) + One(o == Bound(b)) <= ClausesShed(p, cl, o)
  }

  predicate ArmsSheds(p: Pass, arms: Arms, b: Binding, init: Hir, o: Role) {
    ArmsShed(p, arms, Drop(b, init)) > 0 ==>
      && ArmsOcc(arms, SiteOf(b, init)) > 0 && Eliminable(p, b, init)
      && Occ(init, o) + One(o == Bound(b)) <= ArmsShed(p, arms, o)
  }

  lemma {:induction false} DropIsShed(p: Pass, e: Hir, b: Binding, init: Hir, o: Role)
    requires Names(o)
    ensures SiteSheds(p, e, b, init, o)
    decreases e, 1
  {
    hide Eliminable, Params, Catches, OpOcc;
    match e
    case Lit(_) =>
    case Poison =>
    case Var(_) =>
    case Let(_, _, _) => DropIsShedBinder(p, e, b, init, o);
    case Lambda(_, _, _, body) => DropIsShed(p, body, b, init, o);
    case If(_, _, _) => DropIsShedBranch(p, e, b, init, o);
    case Cond(_) => DropIsShedSequence(p, e, b, init, o);
    case Begin(_) => DropIsShedSequence(p, e, b, init, o);
    case Block(_, _) => DropIsShedSequence(p, e, b, init, o);
    case Break(_, v) => DropIsShed(p, v, b, init, o);
    case Call(_, _, _, _) => DropIsShedCallee(p, e, b, init, o);
    case While(_, _) => DropIsShedBranch(p, e, b, init, o);
    case Loop(_, _) => DropIsShedBinder(p, e, b, init, o);
    case Match(_, _) => DropIsShedCallee(p, e, b, init, o);
    case Logic(_, _) => DropIsShedSequence(p, e, b, init, o);
    case Parameterize(_, _) => DropIsShedBinder(p, e, b, init, o);
    case Strict(_, _) => DropIsShedSequence(p, e, b, init, o);
    case Return(v) => DropIsShed(p, v, b, init, o);
  }

  lemma {:induction false} DropIsShedBranch(p: Pass, e: Hir, b: Binding, init: Hir, o: Role)
    requires Names(o) && (e.If? || e.While?)
    ensures SiteSheds(p, e, b, init, o)
    decreases e, 0
  {
    hide Eliminable, Params, Catches, OpOcc;
    match e
    case If(c, t, f) =>
      DropIsShed(p, c, b, init, o);
      DropIsShed(p, t, b, init, o);
      DropIsShed(p, f, b, init, o);
    case While(c, body) =>
      DropIsShed(p, c, b, init, o);
      DropIsShed(p, body, b, init, o);
  }

  lemma {:induction false} DropIsShedCallee(p: Pass, e: Hir, b: Binding, init: Hir, o: Role)
    requires Names(o) && (e.Call? || e.Match?)
    ensures SiteSheds(p, e, b, init, o)
    decreases e, 0
  {
    hide Eliminable, Params, Catches, OpOcc;
    match e
    case Call(args, _, f, _) =>
      DropShedAll(p, args, b, init, o);
      DropIsShed(p, f, b, init, o);
    case Match(v, arms) =>
      DropIsShed(p, v, b, init, o);
      DropShedArms(p, arms, b, init, o);
  }

  lemma {:induction false} DropIsShedBinder(p: Pass, e: Hir, b: Binding, init: Hir, o: Role)
    requires Names(o) && (e.Let? || e.Loop? || e.Parameterize?)
    ensures SiteSheds(p, e, b, init, o)
    decreases e, 0
  {
    hide Eliminable, Params, Catches, OpOcc;
    match e
    case Let(_, bs, body) =>
      DropShedLet(p, bs, b, init, o);
      DropIsShed(p, body, b, init, o);
    case Loop(bs, body) =>
      DropShedLoop(p, bs, b, init, o);
      DropIsShed(p, body, b, init, o);
    case Parameterize(ps, body) =>
      DropShedAll(p, ps, b, init, o);
      DropIsShed(p, body, b, init, o);
  }

  lemma {:induction false} DropIsShedSequence(p: Pass, e: Hir, b: Binding, init: Hir, o: Role)
    requires Names(o) && (e.Cond? || e.Begin? || e.Block? || e.Logic? || e.Strict?)
    ensures SiteSheds(p, e, b, init, o)
    decreases e, 0
  {
    hide Eliminable, Params, Catches, OpOcc;
    match e
    case Cond(cl) => DropShedClauses(p, cl, b, init, o);
    case Begin(es) => DropShedAll(p, es, b, init, o);
    case Block(_, es) => DropShedAll(p, es, b, init, o);
    case Logic(_, es) => DropShedAll(p, es, b, init, o);
    case Strict(op, args) => DropShedAll(p, args, b, init, o);
  }

  lemma {:induction false} DropShedAll(p: Pass, es: Hirs, b: Binding, init: Hir, o: Role)
    requires Names(o)
    ensures AllSheds(p, es, b, init, o)
    decreases es, 0
  {
    hide Eliminable, Params, Catches, OpOcc;
    if es.HCons? {
      DropIsShed(p, es.head, b, init, o);
      DropShedAll(p, es.tail, b, init, o);
    }
  }

  lemma {:induction false} DropShedLet(p: Pass, bs: Binds, b: Binding, init: Hir, o: Role)
    requires Names(o)
    ensures LetSheds(p, bs, b, init, o)
    decreases bs, 0
  {
    hide Eliminable, LetSheds, SiteSheds;
    if bs.BNil? { NoDrops(p, b, init, o); }
    if bs.BCons? {
      DropShedLet(p, bs.rest, b, init, o);
      if Eliminable(p, bs.binding, bs.init) {
        DropHead(p, bs, b, init, o);
      } else {
        DropIsShed(p, bs.init, b, init, o);
        KeepHead(p, bs, b, init, o);
      }
    }
  }

  lemma NoDrops(p: Pass, b: Binding, init: Hir, o: Role)
    ensures LetSheds(p, BNil, b, init, o)
  {}

  lemma DropHead(p: Pass, bs: Binds, b: Binding, init: Hir, o: Role)
    requires Names(o) && bs.BCons? && Eliminable(p, bs.binding, bs.init) && LetSheds(p, bs.rest, b, init, o)
    ensures LetSheds(p, bs, b, init, o)
  {
    hide Eliminable, Occ, Shed;
  }

  lemma KeepHead(p: Pass, bs: Binds, b: Binding, init: Hir, o: Role)
    requires Names(o) && bs.BCons? && !Eliminable(p, bs.binding, bs.init)
    requires LetSheds(p, bs.rest, b, init, o) && SiteSheds(p, bs.init, b, init, o)
    ensures LetSheds(p, bs, b, init, o)
  {
    hide Eliminable, Occ, Shed;
  }

  lemma {:induction false} DropShedLoop(p: Pass, bs: Binds, b: Binding, init: Hir, o: Role)
    requires Names(o)
    ensures LoopSheds(p, bs, b, init, o)
    decreases bs, 0
  {
    hide Eliminable, Params, Catches, OpOcc;
    if bs.BCons? {
      DropIsShed(p, bs.init, b, init, o);
      DropShedLoop(p, bs.rest, b, init, o);
    }
  }

  lemma {:induction false} DropShedClauses(p: Pass, cl: Clauses, b: Binding, init: Hir, o: Role)
    requires Names(o)
    ensures ClausesSheds(p, cl, b, init, o)
    decreases cl, 0
  {
    hide Eliminable, Params, Catches, OpOcc;
    match cl
    case NoElse =>
    case Else(e) => DropIsShed(p, e, b, init, o);
    case Clause(c, body, rest) =>
      DropIsShed(p, c, b, init, o);
      DropIsShed(p, body, b, init, o);
      DropShedClauses(p, rest, b, init, o);
  }

  lemma {:induction false} DropShedArms(p: Pass, arms: Arms, b: Binding, init: Hir, o: Role)
    requires Names(o)
    ensures ArmsSheds(p, arms, b, init, o)
    decreases arms, 0
  {
    hide Eliminable, Params, Catches, OpOcc;
    if arms.ACons? {
      if arms.guard.Some? { DropIsShed(p, arms.guard.value, b, init, o); }
      DropIsShed(p, arms.body, b, init, o);
      DropShedArms(p, arms.rest, b, init, o);
    }
  }

  /** What is shed was shed with some dropped site. */
  lemma {:induction false} ShedSite(p: Pass, e: Hir, o: Role) returns (b: Binding, init: Hir)
    requires Names(o) && Shed(p, e, o) > 0
    ensures Shed(p, e, Drop(b, init)) > 0 && (o == Bound(b) || Occ(init, o) > 0)
    decreases e, 1
  {
    hide Eliminable, Names;
    match e
    case Let(_, _, _) => b, init := ShedSiteBinder(p, e, o);
    case Lambda(_, _, _, body) => b, init := ShedSite(p, body, o);
    case If(_, _, _) => b, init := ShedSiteBranch(p, e, o);
    case Cond(_) => b, init := ShedSiteSequence(p, e, o);
    case Begin(_) => b, init := ShedSiteSequence(p, e, o);
    case Block(_, _) => b, init := ShedSiteSequence(p, e, o);
    case Break(_, v) => b, init := ShedSite(p, v, o);
    case Call(_, _, _, _) => b, init := ShedSiteCallee(p, e, o);
    case While(_, _) => b, init := ShedSiteBranch(p, e, o);
    case Loop(_, _) => b, init := ShedSiteBinder(p, e, o);
    case Match(_, _) => b, init := ShedSiteCallee(p, e, o);
    case Logic(_, _) => b, init := ShedSiteSequence(p, e, o);
    case Parameterize(_, _) => b, init := ShedSiteBinder(p, e, o);
    case Strict(_, _) => b, init := ShedSiteSequence(p, e, o);
    case Return(v) => b, init := ShedSite(p, v, o);
  }

  lemma {:induction false} ShedSiteBranch(p: Pass, e: Hir, o: Role) returns (b: Binding, init: Hir)
    requires Names(o) && Shed(p, e, o) > 0 && (e.If? || e.While?)
    ensures Shed(p, e, Drop(b, init)) > 0 && (o == Bound(b) || Occ(init, o) > 0)
    decreases e, 0
  {
    hide Eliminable, Names;
    match e
    case If(c, t, f) =>
      if Shed(p, c, o) > 0 {
        b, init := ShedSite(p, c, o);
      } else if Shed(p, t, o) > 0 {
        b, init := ShedSite(p, t, o);
      } else {
        b, init := ShedSite(p, f, o);
      }
    case While(c, body) =>
      if Shed(p, c, o) > 0 {
        b, init := ShedSite(p, c, o);
      } else {
        b, init := ShedSite(p, body, o);
      }
  }

  lemma {:induction false} ShedSiteCallee(p: Pass, e: Hir, o: Role) returns (b: Binding, init: Hir)
    requires Names(o) && Shed(p, e, o) > 0 && (e.Call? || e.Match?)
    ensures Shed(p, e, Drop(b, init)) > 0 && (o == Bound(b) || Occ(init, o) > 0)
    decreases e, 0
  {
    hide Eliminable, Names;
    match e
    case Call(args, _, f, _) =>
      if AllShed(p, args, o) > 0 {
        b, init := ShedSiteAll(p, args, o);
      } else {
        b, init := ShedSite(p, f, o);
      }
    case Match(v, arms) =>
      if Shed(p, v, o) > 0 {
        b, init := ShedSite(p, v, o);
      } else {
        b, init := ShedSiteArms(p, arms, o);
      }
  }

  lemma {:induction false} ShedSiteBinder(p: Pass, e: Hir, o: Role) returns (b: Binding, init: Hir)
    requires Names(o) && Shed(p, e, o) > 0 && (e.Let? || e.Loop? || e.Parameterize?)
    ensures Shed(p, e, Drop(b, init)) > 0 && (o == Bound(b) || Occ(init, o) > 0)
    decreases e, 0
  {
    hide Eliminable, Names;
    match e
    case Let(_, bs, body) =>
      if LetShed(p, bs, o) > 0 {
        b, init := ShedSiteLet(p, bs, o);
      } else {
        b, init := ShedSite(p, body, o);
      }
    case Loop(bs, body) =>
      if LoopShed(p, bs, o) > 0 {
        b, init := ShedSiteLoop(p, bs, o);
      } else {
        b, init := ShedSite(p, body, o);
      }
    case Parameterize(ps, body) =>
      if AllShed(p, ps, o) > 0 {
        b, init := ShedSiteAll(p, ps, o);
      } else {
        b, init := ShedSite(p, body, o);
      }
  }

  lemma {:induction false} ShedSiteSequence(p: Pass, e: Hir, o: Role) returns (b: Binding, init: Hir)
    requires Names(o) && Shed(p, e, o) > 0 && (e.Cond? || e.Begin? || e.Block? || e.Logic? || e.Strict?)
    ensures Shed(p, e, Drop(b, init)) > 0 && (o == Bound(b) || Occ(init, o) > 0)
    decreases e, 0
  {
    hide Eliminable, Names;
    match e
    case Cond(cl) => b, init := ShedSiteClauses(p, cl, o);
    case Begin(es) => b, init := ShedSiteAll(p, es, o);
    case Block(_, es) => b, init := ShedSiteAll(p, es, o);
    case Logic(_, es) => b, init := ShedSiteAll(p, es, o);
    case Strict(op, args) => b, init := ShedSiteAll(p, args, o);
  }

  lemma {:induction false} ShedSiteAll(p: Pass, es: Hirs, o: Role) returns (b: Binding, init: Hir)
    requires Names(o) && AllShed(p, es, o) > 0
    ensures AllShed(p, es, Drop(b, init)) > 0 && (o == Bound(b) || Occ(init, o) > 0)
    decreases es, 0
  {
    if Shed(p, es.head, o) > 0 {
      b, init := ShedSite(p, es.head, o);
    } else {
      b, init := ShedSiteAll(p, es.tail, o);
    }
  }

  lemma {:induction false} ShedSiteLet(p: Pass, bs: Binds, o: Role) returns (b: Binding, init: Hir)
    requires Names(o) && LetShed(p, bs, o) > 0
    ensures LetShed(p, bs, Drop(b, init)) > 0 && (o == Bound(b) || Occ(init, o) > 0)
    decreases bs, 0
  {
    hide Eliminable;
    if Eliminable(p, bs.binding, bs.init) && (o == Bound(bs.binding) || Occ(bs.init, o) > 0) {
      b, init := bs.binding, bs.init;
    } else if !Eliminable(p, bs.binding, bs.init) && Shed(p, bs.init, o) > 0 {
      b, init := ShedSite(p, bs.init, o);
    } else {
      b, init := ShedSiteLet(p, bs.rest, o);
    }
  }

  lemma {:induction false} ShedSiteLoop(p: Pass, bs: Binds, o: Role) returns (b: Binding, init: Hir)
    requires Names(o) && LoopShed(p, bs, o) > 0
    ensures LoopShed(p, bs, Drop(b, init)) > 0 && (o == Bound(b) || Occ(init, o) > 0)
    decreases bs, 0
  {
    if Shed(p, bs.init, o) > 0 {
      b, init := ShedSite(p, bs.init, o);
    } else {
      b, init := ShedSiteLoop(p, bs.rest, o);
    }
  }

  lemma {:induction false} ShedSiteClauses(p: Pass, cl: Clauses, o: Role) returns (b: Binding, init: Hir)
    requires Names(o) && ClausesShed(p, cl, o) > 0
    ensures ClausesShed(p, cl, Drop(b, init)) > 0 && (o == Bound(b) || Occ(init, o) > 0)
    decreases cl, 0
  {
    match cl
    case Else(e) => b, init := ShedSite(p, e, o);
    case Clause(c, body, rest) =>
      if Shed(p, c, o) > 0 {
        b, init := ShedSite(p, c, o);
      } else if Shed(p, body, o) > 0 {
        b, init := ShedSite(p, body, o);
      } else {
        b, init := ShedSiteClauses(p, rest, o);
      }
  }

  lemma {:induction false} ShedSiteArms(p: Pass, arms: Arms, o: Role) returns (b: Binding, init: Hir)
    requires Names(o) && ArmsShed(p, arms, o) > 0
    ensures ArmsShed(p, arms, Drop(b, init)) > 0 && (o == Bound(b) || Occ(init, o) > 0)
    decreases arms, 0
  {
    if arms.guard.Some? && Shed(p, arms.guard.value, o) > 0 {
      b, init := ShedSite(p, arms.guard.value, o);
    } else if Shed(p, arms.body, o) > 0 {
      b, init := ShedSite(p, arms.body, o);
    } else {
      b, init := ShedSiteArms(p, arms.rest, o);
    }
  }
}
