/**
  From facts the arena records about names to what evaluation needs of the tree.

  `NamesSound` is what the analyzer and the def-use walk leave: the walk found every
  read, an assigned name is flagged mutated, no pattern or parameter binds a pure
  function's name, and a name bound inside a dropped initializer or a pure function is
  used there alone. A name may have several binders, as the leaf of a destructuring
  `letrec` has: its nil binding may be dropped while the pattern goes on binding it.
  Of the names bound inside those initializers, one in a cell is captured or assigned.
  The arena sets that flag where analysis sees a capture or an assignment, and keeps it
  if the code is pruned later; a flag left so, inside them, is not covered.
  `ProgramObeys` shows that these are enough, and `NothingDangles` that every name
  the stripped program mentions still has a binder.
*/
module DeadScope {
  import opened Options
  import opened HirSyntax
  import opened Dead
  import opened DeadNames
  import opened DeadSites

  predicate Introduces(e: Hir, x: Binding) {
    Occ(e, Bound(x)) > 0 || Occ(e, Param(x)) > 0
  }

  /** All that is read, captured or assigned of `x` in `root` is so in `init`. */
  predicate Only(root: Hir, init: Hir, x: Binding) {
    && Occ(root, Use(x)) == Occ(init, Use(x)) && Occ(root, Caught(x)) == Occ(init, Caught(x))
    && Occ(root, Target(x)) == Occ(init, Target(x))
  }

  /** The initializers the pass looks into: those it may drop, and the pure functions. */
  predicate LookedInto(p: Pass, b: Binding, init: Hir) {
    Eliminable(p, b, init) || (init.Lambda? && b in p.pure)
  }

  /** A name bound inside is used inside, and has a cell only if it is captured or assigned. */
  predicate Local(root: Hir, init: Hir, x: Binding) {
    Only(root, init, x) && (x.boxed ==> Occ(root, Target(x)) > 0 || Occ(root, Caught(x)) > 0)
  }

  ghost predicate NamesSound(p: Pass, root: Hir) {
    && (forall x :: Occ(root, Use(x)) > 0 || Occ(root, Caught(x)) > 0 <==> x in p.used)
    && (forall x :: Occ(root, Target(x)) > 0 ==> p.facts.info(x).mutated)
    && (forall x :: x in p.pure ==> Occ(root, Param(x)) == 0)
    && (forall b, init, x :: Occ(root, SiteOf(b, init)) > 0 && LookedInto(p, b, init) && Introduces(init, x) ==>
       Local(root, init, x))
  }

  /** What is trusted of a name holds at its one site, and nothing else writes it. */
  ghost predicate TrustSound(k: Rules, root: Hir) {
    && (forall x :: x in k.trusted ==> !k.pass.facts.info(x).mutated && Occ(root, Param(x)) == 0)
    && (forall x, id :: x in k.trusted && Occ(root, Own(x, id)) > 0 ==> k.trusted[x] == Fun(id))
    && (forall x, init :: x in k.trusted && Occ(root, SiteOf(x, init)) > 0 ==>
       init.Lambda? && k.trusted[x] == Fun(init.id))
  }

  ghost predicate Sound(k: Rules, root: Hir) {
    k.kept == Strip(k.pass, root) && NamesSound(k.pass, root) && TrustSound(k, root)
  }

  // ----- dropped sites ---------------------------------------------------------------------------------------

  lemma KeptNone(p: Pass, root: Hir, o: Role)
    requires Names(o) && Occ(root, o) <= Shed(p, root, o)
    ensures Occ(Strip(p, root), o) == 0
  {
    hide Occ, Shed, Strip;
    Conserved(p, root, o);
  }

  lemma NameGone(k: Rules, root: Hir, x: Binding)
    requires k.kept == Strip(k.pass, root) && !x.boxed
    requires Occ(root, Use(x)) <= Shed(k.pass, root, Use(x)) && Occ(root, Caught(x)) <= Shed(k.pass, root, Caught(x))
    requires Occ(root, Target(x)) <= Shed(k.pass, root, Target(x))
    ensures Gone(k, x)
  {
    hide Occ, Shed, Strip;
    KeptNone(k.pass, root, Use(x));
    KeptNone(k.pass, root, Caught(x));
    KeptNone(k.pass, root, Target(x));
  }

  predicate Dropped(p: Pass, root: Hir, b: Binding, init: Hir) {
    Shed(p, root, Drop(b, init)) > 0
  }

  lemma DropSheds(p: Pass, root: Hir, b: Binding, init: Hir, o: Role)
    requires Dropped(p, root, b, init) && Names(o)
    ensures Occ(root, SiteOf(b, init)) > 0 && Eliminable(p, b, init)
    ensures Occ(init, o) + One(o == Bound(b)) <= Shed(p, root, o) <= Occ(root, o)
  {
    hide Occ, Shed, Strip, One, Eliminable;
    DropIsShed(p, root, b, init, o);
    Conserved(p, root, o);
  }

  /** A name bound in a dropped initializer is unboxed and gone. */
  lemma InnerNameGone(k: Rules, root: Hir, b: Binding, init: Hir, x: Binding)
    requires k.kept == Strip(k.pass, root) && NamesSound(k.pass, root) && Dropped(k.pass, root, b, init)
    requires Occ(init, Bound(x)) > 0
    ensures !x.boxed && Gone(k, x)
  {
    hide Occ, Shed, Strip, EffectFree, One, Gone, Dropped;
    DropSheds(k.pass, root, b, init, Use(x));
    DropSheds(k.pass, root, b, init, Caught(x));
    DropSheds(k.pass, root, b, init, Target(x));
    assert Introduces(init, x) && LookedInto(k.pass, b, init);
    assert Local(root, init, x);
    EffectFreeNames(k.pass.facts, k.pass.pure, init, x);
    NameGone(k, root, x);
  }

  /** A dropped name is read, captured and assigned nowhere. */
  lemma DroppedNameGone(k: Rules, root: Hir, b: Binding, init: Hir)
    requires k.kept == Strip(k.pass, root) && NamesSound(k.pass, root) && Dropped(k.pass, root, b, init)
    ensures Gone(k, b) && Eliminable(k.pass, b, init) && Occ(root, SiteOf(b, init)) > 0
  {
    hide Occ, Shed, Strip, EffectFree, Gone, Dropped;
    DropSheds(k.pass, root, b, init, Bound(b));
    assert Occ(root, Use(b)) == 0 && Occ(root, Caught(b)) == 0 && Occ(root, Target(b)) == 0;
    NameGone(k, root, b);
  }

  lemma LambdaHasEffects(f: Facts, pure: set<Binding>, e: Hir)
    requires EffectFree(f, pure, e)
    ensures !e.Lambda?
  {}

  lemma InnerSite(root: Hir, b: Binding, init: Hir, x: Binding, v: Hir)
    requires Occ(root, SiteOf(b, init)) > 0 && Occ(init, SiteOf(x, v)) > 0
    ensures Occ(root, SiteOf(x, v)) > 0
  {
    hide Occ;
    SiteIsInside(root, b, init, SiteOf(x, v));
  }

  lemma DroppedIsOk(k: Rules, root: Hir, b: Binding, init: Hir)
    requires Sound(k, root) && Dropped(k.pass, root, b, init)
    ensures DropOk(k, b, init)
  {
    hide Occ, Shed, EffectFree, Harmless, Strip, Gone, Dropped, NamesSound;
    DroppedNameGone(k, root, b, init);
    LambdaHasEffects(k.pass.facts, k.pass.pure, init);
    if !Harmless(k, true, k.pass.pure, init) {
      var x, v := NoisySite(k, true, k.pass.pure, init);
      InnerNameGone(k, root, b, init, x);
      InnerSite(root, b, init, x, v);
      LambdaHasEffects(k.pass.facts, k.pass.pure, v);
      assert false;
    }
  }

  // ----- a tree that does not obey shows why ---------------------------------------------------------------

  predicate RoleOk(k: Rules, o: Role) {
    match o
    case Target(b) => b !in k.trusted
    case Param(b) => b !in k.trusted
    case Own(b, id) => b in k.trusted ==> k.trusted[b] == Fun(id)
    case SiteOf(b, init) => SiteOk(k, b, init)
    case _ => true
  }

  predicate Touches(o: Role) {
    o.Use? || o.Caught? || o.Target?
  }

  /** A mentioned name that is gone, a trusted name in a role it must not have, or a drop that is not harmless. */
  predicate Bad(k: Rules, all: nat, kept: nat, shed: nat, o: Role) {
    || (kept > 0 && Touches(o) && Gone(k, o.b))
    || (all > 0 && !RoleOk(k, o))
    || (shed > 0 && o.Drop? && !DropOk(k, o.b, o.init))
  }

  predicate TreeBad(k: Rules, e: Hir, o: Role) {
    Bad(k, Occ(e, o), Occ(Strip(k.pass, e), o), Shed(k.pass, e, o), o)
  }

  predicate AllBad(k: Rules, es: Hirs, o: Role) {
    Bad(k, AllOcc(es, o), AllOcc(StripAll(k.pass, es), o), AllShed(k.pass, es, o), o)
  }

  predicate LetBad(k: Rules, bs: Binds, o: Role) {
    Bad(k, LetOcc(bs, o), LetOcc(StripLet(k.pass, bs), o), LetShed(k.pass, bs, o), o)
  }

  predicate LoopBad(k: Rules, bs: Binds, o: Role) {
    Bad(k, LoopOcc(bs, o), LoopOcc(StripLoop(k.pass, bs), o), LoopShed(k.pass, bs, o), o)
  }

  predicate ClausesBad(k: Rules, cl: Clauses, o: Role) {
    Bad(k, ClausesOcc(cl, o), ClausesOcc(StripClauses(k.pass, cl), o), ClausesShed(k.pass, cl, o), o)
  }

  predicate ArmsBad(k: Rules, arms: Arms, o: Role) {
    Bad(k, ArmsOcc(arms, o), ArmsOcc(StripArms(k.pass, arms), o), ArmsShed(k.pass, arms, o), o)
  }

  lemma {:induction false} Culprit(k: Rules, e: Hir) returns (o: Role)
    requires !Obeys(k, e)
    ensures TreeBad(k, e, o)
    decreases e, 1
  {
    hide NamesOk, CapturesOk, OpOk, Gone, Params, Catches, OpOcc, Eliminable, DropOk, RoleOk;
    match e
    case Var(b) => o := Use(b);
    case Let(_, _, _) => o := CulpritBinder(k, e);
    case Lambda(_, _, _, _) => o := CulpritOwn(k, e);
    case If(_, _, _) => o := CulpritBranch(k, e);
    case Cond(_) => o := CulpritSequence(k, e);
    case Begin(_) => o := CulpritSequence(k, e);
    case Block(_, _) => o := CulpritSequence(k, e);
    case Break(_, v) => o := Culprit(k, v);
    case Call(_, _, _, _) => o := CulpritCallee(k, e);
    case While(_, _) => o := CulpritBranch(k, e);
    case Loop(_, _) => o := CulpritBinder(k, e);
    case Match(_, _) => o := CulpritCallee(k, e);
    case Logic(_, _) => o := CulpritSequence(k, e);
    case Parameterize(_, _) => o := CulpritBinder(k, e);
    case Strict(_, _) => o := CulpritOwn(k, e);
    case Return(v) => o := Culprit(k, v);
  }

  lemma {:induction false} CulpritBranch(k: Rules, e: Hir) returns (o: Role)
    requires !Obeys(k, e) && (e.If? || e.While?)
    ensures TreeBad(k, e, o)
    decreases e, 0
  {
    hide NamesOk, CapturesOk, OpOk, Gone, Params, Catches, OpOcc, Eliminable, DropOk, RoleOk, Names;
    match e
    case If(c, t, f) =>
      if !Obeys(k, c) {
        o := Culprit(k, c);
      } else if !Obeys(k, t) {
        o := Culprit(k, t);
      } else {
        o := Culprit(k, f);
      }
    case While(c, body) =>
      if !Obeys(k, c) {
        o := Culprit(k, c);
      } else {
        o := Culprit(k, body);
      }
  }

  lemma {:induction false} CulpritCallee(k: Rules, e: Hir) returns (o: Role)
    requires !Obeys(k, e) && (e.Call? || e.Match?)
    ensures TreeBad(k, e, o)
    decreases e, 0
  {
    hide NamesOk, CapturesOk, OpOk, Gone, Params, Catches, OpOcc, Eliminable, DropOk, RoleOk, Names;
    match e
    case Call(args, _, f, _) =>
      if !ObeysAll(k, args) {
        o := CulpritAmong(k, args);
      } else {
        o := Culprit(k, f);
      }
    case Match(v, arms) =>
      if !Obeys(k, v) {
        o := Culprit(k, v);
      } else {
        o := CulpritArm(k, arms);
      }
  }

  lemma {:induction false} CulpritBinder(k: Rules, e: Hir) returns (o: Role)
    requires !Obeys(k, e) && (e.Let? || e.Loop? || e.Parameterize?)
    ensures TreeBad(k, e, o)
    decreases e, 0
  {
    hide NamesOk, CapturesOk, OpOk, Gone, Params, Catches, OpOcc, Eliminable, DropOk, RoleOk, Names;
    match e
    case Let(_, bs, body) =>
      if !ObeysLet(k, bs) {
        o := CulpritLet(k, bs);
      } else {
        o := Culprit(k, body);
      }
    case Loop(bs, body) =>
      if !ObeysLoop(k, bs) {
        o := CulpritLoop(k, bs);
      } else {
        o := Culprit(k, body);
      }
    case Parameterize(ps, body) =>
      if !ObeysAll(k, ps) {
        o := CulpritAmong(k, ps);
      } else {
        o := Culprit(k, body);
      }
  }

  lemma {:induction false} CulpritSequence(k: Rules, e: Hir) returns (o: Role)
    requires !Obeys(k, e) && (e.Cond? || e.Begin? || e.Block? || e.Logic?)
    ensures TreeBad(k, e, o)
    decreases e, 0
  {
    hide NamesOk, CapturesOk, OpOk, Gone, Params, Catches, OpOcc, Eliminable, DropOk, RoleOk, Names;
    match e
    case Cond(cl) => o := CulpritClause(k, cl);
    case Begin(es) => o := CulpritAmong(k, es);
    case Block(_, es) => o := CulpritAmong(k, es);
    case Logic(_, es) => o := CulpritAmong(k, es);
  }

  lemma {:induction false} CulpritOwn(k: Rules, e: Hir) returns (o: Role)
    requires !Obeys(k, e) && (e.Lambda? || e.Strict?)
    ensures TreeBad(k, e, o)
    decreases e, 0
  {
    hide NamesOk, CapturesOk, OpOk, Gone, Params, Catches, OpOcc, DropOk;
    match e
    case Lambda(_, _, _, body) =>
      if !NamesOk(k, e.params) {
        o := CulpritParam(k, e.params);
      } else if !CapturesOk(k, e.id, e.captures) {
        o := CulpritCapture(k, e.id, e.captures);
      } else {
        o := Culprit(k, body);
      }
    case Strict(op, args) =>
      if !OpOk(k, op, args) {
        o := CulpritOp(k, op, args);
      } else {
        o := CulpritAmong(k, args);
      }
  }

  lemma {:induction false} CulpritAmong(k: Rules, es: Hirs) returns (o: Role)
    requires !ObeysAll(k, es)
    ensures AllBad(k, es, o)
    decreases es, 0
  {
    hide Gone, DropOk, RoleOk;
    if !Obeys(k, es.head) {
      o := Culprit(k, es.head);
    } else {
      o := CulpritAmong(k, es.tail);
    }
  }

  lemma {:induction false} CulpritLet(k: Rules, bs: Binds) returns (o: Role)
    requires !ObeysLet(k, bs)
    ensures LetBad(k, bs, o)
    decreases bs, 0
  {
    hide Gone, DropOk, Eliminable;
    var b, init := bs.binding, bs.init;
    if !ObeysLet(k, bs.rest) {
      o := CulpritLet(k, bs.rest);
    } else if Eliminable(k.pass, b, init) {
      o := Drop(b, init);
    } else if !SiteOk(k, b, init) {
      o := SiteOf(b, init);
    } else {
      o := Culprit(k, init);
    }
  }

  lemma {:induction false} CulpritLoop(k: Rules, bs: Binds) returns (o: Role)
    requires !ObeysLoop(k, bs)
    ensures LoopBad(k, bs, o)
    decreases bs, 0
  {
    hide Gone, DropOk;
    if !NameOk(k, bs.binding) {
      o := Param(bs.binding);
    } else if !Obeys(k, bs.init) {
      o := Culprit(k, bs.init);
    } else {
      o := CulpritLoop(k, bs.rest);
    }
  }

  lemma {:induction false} CulpritClause(k: Rules, cl: Clauses) returns (o: Role)
    requires !ObeysClauses(k, cl)
    ensures ClausesBad(k, cl, o)
    decreases cl, 0
  {
    hide Gone, DropOk, RoleOk;
    match cl
    case Else(e) => o := Culprit(k, e);
    case Clause(c, body, rest) =>
      if !Obeys(k, c) {
        o := Culprit(k, c);
      } else if !Obeys(k, body) {
        o := Culprit(k, body);
      } else {
        o := CulpritClause(k, rest);
      }
  }

  lemma {:induction false} CulpritArm(k: Rules, arms: Arms) returns (o: Role)
    requires !ObeysArms(k, arms)
    ensures ArmsBad(k, arms, o)
    decreases arms, 0
  {
    hide Gone, DropOk, NamesOk, Params;
    if !NamesOk(k, arms.pattern.vars) {
      o := CulpritParam(k, arms.pattern.vars);
    } else if arms.guard.Some? && !Obeys(k, arms.guard.value) {
      o := Culprit(k, arms.guard.value);
    } else if !Obeys(k, arms.body) {
      o := Culprit(k, arms.body);
    } else {
      o := CulpritArm(k, arms.rest);
    }
  }

  lemma {:induction false} CulpritParam(k: Rules, bs: seq<Binding>) returns (o: Role)
    requires !NamesOk(k, bs)
    ensures Params(bs, o) > 0 && o.Param? && !NameOk(k, o.b)
  {
    if bs == [] || NameOk(k, bs[0]) {
      o := CulpritParam(k, bs[1..]);
    } else {
      o := Param(bs[0]);
    }
  }

  lemma {:induction false} CulpritCapture(k: Rules, id: nat, cs: seq<Capture>) returns (o: Role)
    requires !CapturesOk(k, id, cs)
    ensures Catches(id, cs, o) > 0
    ensures (o.Caught? && Gone(k, o.b)) || (o.Own? && !RoleOk(k, o))
    decreases |cs|
  {
    hide Gone;
    var b := cs[0].binding;
    if Gone(k, b) {
      o := Caught(b);
    } else if cs[0].recursive && b in k.trusted && k.trusted[b] != Fun(id) {
      o := Own(b, id);
    } else {
      o := CulpritCapture(k, id, cs[1..]);
    }
  }

  lemma CulpritOp(k: Rules, op: Op, args: Hirs) returns (o: Role)
    requires !OpOk(k, op, args)
    ensures Bad(k, OpOcc(op, args, o), OpOcc(op, StripAll(k.pass, args), o), 0, o)
  {
    hide Gone;
    match op
    case Assign(b) => o := Target(b);
    case SetCell(b) => o := Target(b);
    case Define(b) => o := SiteOf(b, args.head);
    case Destructure(p, _) => o := CulpritParam(k, p.vars);
  }

  // ----- the whole program ---------------------------------------------------------------------------------

  lemma KeptNameIsThere(k: Rules, o: Role)
    requires Touches(o) && Occ(k.kept, o) > 0
    ensures !Gone(k, o.b)
  {}

  lemma RolesAreOk(k: Rules, root: Hir, o: Role)
    requires Sound(k, root) && Occ(root, o) > 0
    ensures RoleOk(k, o)
  {
    hide Occ, Strip;
  }

  /** A sound program obeys the rules everywhere. */
  lemma ProgramObeys(k: Rules, root: Hir)
    requires Sound(k, root)
    ensures Obeys(k, root)
  {
    hide Occ, Shed, Strip, Obeys, RoleOk, DropOk, Gone, NamesSound, TrustSound;
    if !Obeys(k, root) {
      var o := Culprit(k, root);
      if Shed(k.pass, root, o) > 0 && o.Drop? && !DropOk(k, o.b, o.init) {
        DroppedIsOk(k, root, o.b, o.init);
        assert false;
      }
      if Occ(root, o) > 0 { RolesAreOk(k, root, o); }
      if Touches(o) && Occ(k.kept, o) > 0 { KeptNameIsThere(k, o); }
      assert false;
    }
  }

  /**
    Nothing dangles: a name that the program binds and that the stripped program
    still reads, captures or writes is still bound there.
  */
  lemma NothingDangles(p: Pass, root: Hir, x: Binding)
    requires NamesSound(p, root) && Introduces(root, x)
    requires var kept := Strip(p, root); Occ(kept, Use(x)) > 0 || Occ(kept, Caught(x)) > 0 || Occ(kept, Target(x)) > 0
    ensures Introduces(Strip(p, root), x)
  {
    hide Occ, Shed, Strip, NamesSound;
    var k := Rules(p, Strip(p, root), map[], map[], None);
    Conserved(p, root, Bound(x));
    Conserved(p, root, Param(x));
    if Shed(p, root, Bound(x)) > 0 { ShedBinderGone(k, root, Bound(x)); }
    if Shed(p, root, Param(x)) > 0 { ShedBinderGone(k, root, Param(x)); }
  }

  lemma ShedBinderGone(k: Rules, root: Hir, o: Role)
    requires k.kept == Strip(k.pass, root) && NamesSound(k.pass, root)
    requires (o.Bound? || o.Param?) && Shed(k.pass, root, o) > 0
    ensures Gone(k, o.b)
  {
    hide Occ, Shed, Strip, NamesSound, Gone, EffectFree;
    var b, init := ShedSite(k.pass, root, o);
    DroppedNameGone(k, root, b, init);
    EffectFreeNames(k.pass.facts, k.pass.pure, init, o.b);
    if Occ(init, o) > 0 { InnerNameGone(k, root, b, init, o.b); }
  }
}
