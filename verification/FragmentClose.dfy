/**
  Which bodies close.

  `ClosesExactly` gives the condition a caller could read off the body: it uses only
  the listed forms, holds an intrinsic only where they are allowed, and every name
  it mentions before binding it is a module name or a primitive. `ClosedBodyGrafts`
  says closing is all a body has to do: no graft of a closed one is declined.
*/
module FragmentClose {
  import opened Options
  import opened HirSyntax
  import opened Fragment
  import opened FragmentFacts

  // ----- intrinsics ----------------------------------------------------------------------------------------

  predicate HoldsIntrinsic(e: Hir)
    decreases e
  {
    match e
    case Let(_, bs, body) => HoldsLet(bs) || HoldsIntrinsic(body)
    case Call(args, _, f, _) => HoldsIntrinsic(f) || HoldsAll(args)
    case If(c, t, f) => HoldsIntrinsic(c) || HoldsIntrinsic(t) || HoldsIntrinsic(f)
    case Cond(cl) => HoldsClauses(cl)
    case Begin(es) => HoldsAll(es)
    case Logic(_, es) => HoldsAll(es)
    case Match(v, arms) => HoldsIntrinsic(v) || HoldsArms(arms)
    case Strict(op, args) => op.Intrinsic? || HoldsAll(args)
    case _ => false
  }

  predicate HoldsAll(es: Hirs)
    decreases es
  {
    es.HCons? && (HoldsIntrinsic(es.head) || HoldsAll(es.tail))
  }

  predicate HoldsLet(bs: Binds)
    decreases bs
  {
    bs.BCons? && (HoldsIntrinsic(bs.init) || HoldsLet(bs.rest))
  }

  predicate HoldsClauses(cl: Clauses)
    decreases cl
  {
    match cl
    case NoElse => false
    case Else(e) => HoldsIntrinsic(e)
    case Clause(c, b, rest) => HoldsIntrinsic(c) || HoldsIntrinsic(b) || HoldsClauses(rest)
  }

  predicate HoldsArms(arms: Arms)
    decreases arms
  {
    arms.ACons? && ((arms.guard.Some? && HoldsIntrinsic(arms.guard.value)) || HoldsIntrinsic(arms.body)
        || HoldsArms(arms.rest))
  }

  // ----- free names ----------------------------------------------------------------------------------------

  /** The names mentioned where nothing before has mentioned or bound them. */
  function Free(e: Hir, met: set<Binding>): set<Binding>
    decreases e
  {
    match e
    case Var(b) => {b} - met
    case Let(_, bs, body) => FreeLet(bs, met) + Free(body, MetLet(bs, met))
    case Call(args, _, f, _) => Free(f, met) + FreeAll(args, Met(f, met))
    case If(c, t, f) => Free(c, met) + Free(t, Met(c, met)) + Free(f, Met(t, Met(c, met)))
    case Cond(cl) => FreeClauses(cl, met)
    case Begin(es) => FreeAll(es, met)
    case Logic(_, es) => FreeAll(es, met)
    case Match(v, arms) => Free(v, met) + FreeArms(arms, Met(v, met))
    case Strict(_, args) => FreeAll(args, met)
    case _ => {}
  }

  function FreeAll(es: Hirs, met: set<Binding>): set<Binding>
    decreases es
  {
    match es
    case HNil => {}
    case HCons(e, rest) => Free(e, met) + FreeAll(rest, Met(e, met))
  }

  function FreeLet(bs: Binds, met: set<Binding>): set<Binding>
    decreases bs
  {
    match bs
    case BNil => {}
    case BCons(b, e, rest) => Free(e, met) + FreeLet(rest, Met(e, met) + {b})
  }

  function FreeClauses(cl: Clauses, met: set<Binding>): set<Binding>
    decreases cl
  {
    match cl
    case NoElse => {}
    case Else(e) => Free(e, met)
    case Clause(c, b, rest) => Free(c, met) + Free(b, Met(c, met)) + FreeClauses(rest, Met(b, Met(c, met)))
  }

  function FreeArms(arms: Arms, met: set<Binding>): set<Binding>
    decreases arms
  {
    match arms
    case ANil => {}
    case ACons(p, g, b, rest) =>
      var m := MetVars(p.vars, met);
      var m1 := if g.Some? then Met(g.value, m) else m;
      (if g.Some? then Free(g.value, m) else {}) + Free(b, m1) + FreeArms(rest, Met(b, m1))
  }

  /** Every one of these names is a module name or a primitive. */
  ghost predicate AllGlobal(arena: Arena, names: set<Binding>) {
    forall b :: b in names ==> arena(b).fileScope || arena(b).primitive
  }

  // ----- the condition -------------------------------------------------------------------------------------

  /** The walk answers exactly when it may, and then has met the names `met`. */
  ghost predicate Exactly<T>(r: Rebinder, x: Option<Rebound<T>>, may: bool, intrinsic: bool, names: set<Binding>,
          met: set<Binding>) {
    && r.Closing?
    && (x.Some? <==> may && (r.allow || !intrinsic) && AllGlobal(r.arena, names))
    && (x.Some? ==> Kept(r, x.value.r, met))
  }

  ghost predicate Kept(r: Rebinder, r1: Rebinder, met: set<Binding>) {
    r.Closing? && r1.Closing? && r1.arena == r.arena && r1.allow == r.allow && r1.index.Keys == met
  }

  lemma {:induction false} VarsKept(vs: seq<Binding>, r: Rebinder)
    requires r.Closing?
    ensures Kept(r, RebindVars(vs, r).r, MetVars(vs, r.index.Keys))
    decreases |vs|
  {
    if vs != [] {
      var r1 := IntroduceOnce(r, vs[0]).r;
      assert r1.index.Keys == r.index.Keys + {vs[0]};
      VarsKept(vs[1..], r1);
    }
  }

  lemma ReferenceExactly(r: Rebinder, b: Binding)
    requires r.Closing?
    ensures Exactly(r, Reference(r, b), true, false, {b} - r.index.Keys, r.index.Keys + {b})
  {
    if b in r.index {
      assert r.index.Keys + {b} == r.index.Keys;
      assert {b} - r.index.Keys == {};
    } else {
      assert b in {b} - r.index.Keys;
    }
  }

  lemma {:induction false} WalkExactly(e: Hir, r: Rebinder)
    requires r.Closing?
    ensures Exactly(r, Rebind(e, r), Portable(e), HoldsIntrinsic(e), Free(e, r.index.Keys), Met(e, r.index.Keys))
    decreases e, 1
  {
    match e
    case Lit(_) =>
    case Var(b) => ReferenceExactly(r, b);
    case Let(_, bs, body) =>
      LetExactly(bs, r);
      var x := RebindLet(bs, r);
      if x.Some? { WalkExactly(body, x.value.r); }
    case Call(args, _, f, _) =>
      WalkExactly(f, r);
      var x := Rebind(f, r);
      if x.Some? { AllExactly(args, x.value.r); }
    case If(c, t, f) => IfExactly(e, r);
    case Cond(cl) => ClausesExactly(cl, r);
    case Begin(es) => AllExactly(es, r);
    case Logic(_, es) => AllExactly(es, r);
    case Match(v, arms) =>
      WalkExactly(v, r);
      var x := Rebind(v, r);
      if x.Some? { ArmsExactly(arms, x.value.r); }
    case Strict(_, args) => AllExactly(args, r);
    case _ =>
  }

  lemma {:induction false} IfExactly(e: Hir, r: Rebinder)
    requires r.Closing? && e.If?
    ensures Exactly(r, Rebind(e, r), Portable(e), HoldsIntrinsic(e), Free(e, r.index.Keys), Met(e, r.index.Keys))
    decreases e, 0
  {
    WalkExactly(e.test, r);
    var x := Rebind(e.test, r);
    if x.Some? {
      WalkExactly(e.thn, x.value.r);
      var y := Rebind(e.thn, x.value.r);
      if y.Some? { WalkExactly(e.els, y.value.r); }
    }
  }

  lemma {:induction false} AllExactly(es: Hirs, r: Rebinder)
    requires r.Closing?
    ensures Exactly(r, RebindAll(es, r), PortableAll(es), HoldsAll(es), FreeAll(es, r.index.Keys),
              MetAll(es, r.index.Keys))
    decreases es, 0
  {
    if es.HCons? {
      WalkExactly(es.head, r);
      var x := Rebind(es.head, r);
      if x.Some? { AllExactly(es.tail, x.value.r); }
    }
  }

  lemma {:induction false} LetExactly(bs: Binds, r: Rebinder)
    requires r.Closing?
    ensures Exactly(r, RebindLet(bs, r), PortableLet(bs), HoldsLet(bs), FreeLet(bs, r.index.Keys),
              MetLet(bs, r.index.Keys))
    decreases bs, 0
  {
    if bs.BCons? {
      WalkExactly(bs.init, r);
      var x := Rebind(bs.init, r);
      if x.Some? {
        var r1 := Introduce(x.value.r, bs.binding).r;
        assert r1.index.Keys == x.value.r.index.Keys + {bs.binding};
        LetExactly(bs.rest, r1);
      }
    }
  }

  lemma {:induction false} ClausesExactly(cl: Clauses, r: Rebinder)
    requires r.Closing?
    ensures Exactly(r, RebindClauses(cl, r), PortableClauses(cl), HoldsClauses(cl), FreeClauses(cl, r.index.Keys),
              MetClauses(cl, r.index.Keys))
    decreases cl, 0
  {
    match cl
    case NoElse =>
    case Else(e) => WalkExactly(e, r);
    case Clause(c, b, rest) =>
      WalkExactly(c, r);
      var x := Rebind(c, r);
      if x.Some? {
        WalkExactly(b, x.value.r);
        var y := Rebind(b, x.value.r);
        if y.Some? { ClausesExactly(rest, y.value.r); }
      }
  }

  lemma {:induction false} ArmsExactly(arms: Arms, r: Rebinder)
    requires r.Closing?
    ensures Exactly(r, RebindArms(arms, r), PortableArms(arms), HoldsArms(arms), FreeArms(arms, r.index.Keys),
              MetArms(arms, r.index.Keys))
    decreases arms, 0
  {
    if arms.ACons? {
      VarsKept(arms.pattern.vars, r);
      var r0 := RebindVars(arms.pattern.vars, r).r;
      if arms.guard.Some? { WalkExactly(arms.guard.value, r0); }
      var x := if arms.guard.Some? then Rebind(arms.guard.value, r0) else Some(Rebound(arms.body, r0));
      if x.Some? {
        WalkExactly(arms.body, x.value.r);
        var y := Rebind(arms.body, x.value.r);
        if y.Some? { ArmsExactly(arms.rest, y.value.r); }
      }
    }
  }

  // ----- closing -------------------------------------------------------------------------------------------

  lemma {:induction false} ParamsKept(ps: seq<Binding>, r: Rebinder)
    requires r.Closing?
    ensures Kept(r, IntroduceAll(r, ps).r, MetVars(ps, r.index.Keys))
    decreases |ps|
  {
    if ps != [] {
      var r1 := Introduce(r, ps[0]).r;
      assert r1.index.Keys == r.index.Keys + {ps[0]};
      ParamsKept(ps[1..], r1);
    }
  }

  /** A body closes exactly when its forms are listed, its intrinsics allowed and its free names global. */
  lemma ClosesExactly(body: Hir, params: seq<Binding>, arena: Arena, allow: bool)
    ensures CloseWithGlobals(body, params, arena, allow).Some? <==>
              Portable(body) && (allow || !HoldsIntrinsic(body)) && AllGlobal(arena, Free(body, MetVars(params, {})))
  {
    var r0 := Closing(arena, allow, map[], [], []);
    assert r0.index.Keys == {};
    ParamsKept(params, r0);
    WalkExactly(body, IntroduceAll(r0, params).r);
  }

  /** A body that closes always grafts, whatever the host bindings are. */
  lemma ClosedBodyGrafts(body: Hir, params: seq<Binding>, arena: Arena, allow: bool, host: seq<Binding>)
    requires CloseWithGlobals(body, params, arena, allow).Some?
    ensures Portable(CloseWithGlobals(body, params, arena, allow).value.fragment.body)
    ensures Rebind(CloseWithGlobals(body, params, arena, allow).value.fragment.body, Grafting(host)).Some?
  {
    hide Rebind, Portable;
    RebuildsPortable(body, IntroduceAll(Closing(arena, allow, map[], [], []), params).r);
    GraftTakes(CloseWithGlobals(body, params, arena, allow).value.fragment.body, host);
  }
}
