/**
  A fault that elimination drops: `(letrec [g (fn [] (f)) x (g) f (fn [] 1)] 2)`.

  The call of `g` is silent and pure, since `f` is, and `x` is not read, so the pass
  drops it. The original runs it before `f` is bound, and faults. The analyzer lets
  the program through: `f` is read inside a lambda only. It is sound in every other
  way, so the condition of `StrippingIsExact` cannot be left out. It is met once the call
  comes after the bindings: `(letrec [g (fn [] (f)) f (fn [] 1)] (let [x (g)] 2))`.
*/
module DeadWitness {
  import opened Options
  import opened HirSyntax
  import opened HirEval
  import opened Dead
  import opened DeadNames
  import opened DeadScope
  import opened DeadEval
  import opened DeadBound
  import opened DeadSim
  import opened DeadProgram
  import opened DeadTheorem

  const G: Binding := Binding(0, false)
  const X: Binding := Binding(1, false)
  const F: Binding := Binding(2, true)

  const CALL_F: Hir := Call(HNil, [], Var(F), false)
  const CALL_G: Hir := Call(HNil, [], Var(G), false)
  const FN_G: Hir := Lambda(7, [], [Capture(F, false)], CALL_F)
  const FN_F: Hir := Lambda(8, [], [], Lit(Int(1)))
  const LAST: Binds := BCons(F, FN_F, BNil)
  const BINDS: Binds := BCons(G, FN_G, BCons(X, CALL_G, LAST))
  const ROOT: Hir := Let(true, BINDS, Lit(Int(2)))

  /** No primitive, nothing mutable, and every call silent that splices nothing. */
  function Plainly(): Facts {
    Facts(_ => Info(false, false, false, false, true), _ => None, (e: Hir) => e.Call? ==> true !in e.spliced)
  }

  const ORDER: seq<Binding> := [F, G]

  function Dropping(): Pass {
    Pass(Plainly(), {F, G}, {F, G})
  }

  /** A host that does nothing. */
  function Idle(): Host {
    (op: HostOp, vs: seq<Value>, w: World) => HostResult.Done([], w)
  }

  const START: State := State(map[], map[], World([], [], []), 0)

  const NOTHING: Owner := Owner(map[], map[], {}, {})

  // ----- what occurs ---------------------------------------------------------------------------------------

  lemma InitsOccur(o: Role)
    ensures Occ(FN_G, o) == One(o == Caught(F)) + One(o == Use(F)) && Occ(CALL_G, o) == One(o == Use(G))
    ensures Occ(FN_F, o) == 0
  {
    hide Occ, Catches;
    CallOccurs(F, o);
    CallOccurs(G, o);
    CatchOccurs(o);
    LambdaOccurs(7, [Capture(F, false)], CALL_F, o);
    LambdaOccurs(8, [], Lit(Int(1)), o);
    NothingOccurs(o);
  }

  lemma LambdaOccurs(id: nat, cs: seq<Capture>, body: Hir, o: Role)
    ensures Occ(Lambda(id, [], cs, body), o) == Catches(id, cs, o) + Occ(body, o)
  {}

  lemma NothingOccurs(o: Role)
    ensures Catches(8, [], o) == 0 && Occ(Lit(Int(1)), o) == 0
  {}

  lemma CallOccurs(b: Binding, o: Role)
    ensures Occ(Call(HNil, [], Var(b), false), o) == One(o == Use(b))
  {
    assert AllOcc(HNil, o) == 0 && Occ(Var(b), o) == One(o == Use(b));
  }

  lemma CatchOccurs(o: Role)
    ensures Catches(7, [Capture(F, false)], o) == One(o == Caught(F))
  {
    assert [Capture(F, false)][1..] == [] && Catches(7, [], o) == 0;
  }

  lemma BindOccurs(b: Binding, e: Hir, rest: Binds, o: Role)
    ensures LetOcc(BCons(b, e, rest), o) == One(o == Role.Bound(b)) + One(o == SiteOf(b, e)) + Occ(e, o) +
            LetOcc(rest, o)
  {}

  lemma WitnessOccurs(o: Role)
    ensures Occ(FN_G, o) == One(o == Caught(F)) + One(o == Use(F)) && Occ(CALL_G, o) == One(o == Use(G))
    ensures Occ(FN_F, o) == 0
    ensures Occ(ROOT, o) ==
            One(o == Role.Bound(G)) + One(o == SiteOf(G, FN_G)) + Occ(FN_G, o)
            + (One(o == Role.Bound(X)) + One(o == SiteOf(X, CALL_G)) + Occ(CALL_G, o))
            + (One(o == Role.Bound(F)) + One(o == SiteOf(F, FN_F)))
  {
    hide One, LetOcc;
    InitsOccur(o);
    BindOccurs(G, FN_G, BINDS.rest, o);
    BindOccurs(X, CALL_G, LAST, o);
    BindOccurs(F, FN_F, BNil, o);
    assert LetOcc(BNil, o) == 0 by { NoBinds(o); }
    assert Occ(ROOT, o) == LetOcc(BINDS, o) by { RootOccurs(o); }
  }

  lemma NoBinds(o: Role)
    ensures LetOcc(BNil, o) == 0
  {}

  lemma RootOccurs(o: Role)
    ensures Occ(ROOT, o) == LetOcc(BINDS, o)
  {
    hide LetOcc;
    assert Occ(Lit(Int(2)), o) == 0;
  }

  lemma WitnessSites()
    ensures Sites(ROOT) == [(G, FN_G), (X, CALL_G), (F, FN_F)]
  {
    assert Here(BNil) == [] && Here(LAST) == [(F, FN_F)] && Here(BINDS.rest) == [(X, CALL_G), (F, FN_F)];
    assert Here(BINDS) == [(G, FN_G), (X, CALL_G), (F, FN_F)];
    assert Sites(Lit(Int(1))) == [] && Sites(Lit(Int(2))) == [] && Sites(Var(F)) == [] && Sites(Var(G)) == []
           && SitesAll(HNil) == [];
    assert Sites(CALL_F) == [] && Sites(CALL_G) == [] && Sites(FN_G) == [] && Sites(FN_F) == [];
    assert SitesBinds(BNil) == [] && SitesBinds(LAST) == [] && SitesBinds(BINDS.rest) == [] && SitesBinds(BINDS) == [];
  }

  lemma WitnessUses()
    ensures Uses(ROOT) == {F, G}
  {
    assert Uses(CALL_F) == {F} && Uses(CALL_G) == {G} && CapturedNames([Capture(F, false)]) == {F}
           && CapturedNames([]) == {};
    assert Uses(FN_G) == {F} && Uses(FN_F) == {};
    assert UsesBinds(BNil) == {} && UsesBinds(LAST) == {} && UsesBinds(BINDS.rest) == {G} && UsesBinds(BINDS) == {F, G};
  }

  lemma WitnessCode()
    ensures CodeOf(ROOT) == map[7 := Fn([], [Capture(F, false)], CALL_F), 8 := Fn([], [], Lit(Int(1)))]
  {
    assert CodeOf(CALL_F) == map[] && CodeOf(CALL_G) == map[] && CodeOf(Lit(Int(1))) == map[]
           && CodeOf(Lit(Int(2))) == map[];
    assert CodeOf(FN_G) == map[7 := Fn([], [Capture(F, false)], CALL_F)]
           && CodeOf(FN_F) == map[8 := Fn([], [], Lit(Int(1)))];
    assert CodeOfBinds(BNil) == map[] && CodeOfBinds(LAST) == map[8 := Fn([], [], Lit(Int(1)))];
    assert CodeOfBinds(BINDS.rest) == CodeOfBinds(LAST);
    assert CodeOfBinds(BINDS) == map[7 := Fn([], [Capture(F, false)], CALL_F), 8 := Fn([], [], Lit(Int(1)))];
  }

  // ----- the program is sound ------------------------------------------------------------------------------

  lemma WitnessRanked()
    ensures Ranked(Plainly(), Sites(ROOT), ORDER) && Elements(ORDER) == {F, G}
  {
    WitnessSites();
    var sites := Sites(ROOT);
    var facts := Plainly();
    assert sites[..2] == [(G, FN_G), (X, CALL_G)] && sites[..2][..1] == [(G, FN_G)] && sites[..1][..0] == []
           && sites[..2][..1][..0] == [];
    assert [(G, FN_G)][..0] == [] && Count([], F) == 0 && Count([], G) == 0;
    assert Count([(G, FN_G)], F) == 0 && Count([(G, FN_G)], G) == 1;
    assert Count(sites[..2], F) == 0 && Count(sites[..2], G) == 1;
    assert Count(sites, F) == 1 && Count(sites, G) == 1;
    assert ORDER[..0] == [] && ORDER[..1] == [F];
    assert Elements(ORDER[..1]) == {F} by { assert ORDER[..1][0] == F; }
    assert EffectFreeAll(facts, {F}, HNil);
    assert facts.silent(CALL_F) && EffectFree(facts, {F}, CALL_F);
    assert Admissible(facts, sites, Elements(ORDER[..0]), sites[2]);
    assert Admissible(facts, sites, Elements(ORDER[..1]), sites[0]);
    assert RankedAt(facts, sites, ORDER, 0);
    assert RankedAt(facts, sites, ORDER, 1);
    assert ORDER[0] == F && ORDER[1] == G;
  }

  lemma WitnessNames()
    ensures NamesSound(Dropping(), ROOT)
  {
    hide Occ;
    forall x: Binding ensures Occ(ROOT, Use(x)) > 0 || Occ(ROOT, Caught(x)) > 0 <==> x in {F, G} {
      WitnessOccurs(Use(x));
      WitnessOccurs(Caught(x));
    }
    forall x: Binding ensures Occ(ROOT, Target(x)) == 0 && Occ(ROOT, Role.Param(x)) == 0 {
      WitnessOccurs(Target(x));
      WitnessOccurs(Role.Param(x));
    }
    forall b, init, x | Occ(ROOT, SiteOf(b, init)) > 0 ensures !Introduces(init, x) {
      WitnessOccurs(SiteOf(b, init));
      WitnessOccurs(Role.Bound(x));
      WitnessOccurs(Role.Param(x));
    }
  }

  /** Neither lambda binds a name or has a parameter, and each is its own code object. */
  lemma InitIsSound(root: Hir, b: Binding, init: Hir)
    requires CodeOf(root) == map[7 := Fn([], [Capture(F, false)], CALL_F), 8 := Fn([], [], Lit(Int(1)))]
    requires init == FN_G || init == FN_F || init == CALL_G
    ensures LambdaSound(root, b, init)
  {
    hide Occ, CodeOf;
    forall x ensures !Introduces(init, x) {
      InitsOccur(Role.Bound(x));
      InitsOccur(Role.Param(x));
    }
  }

  lemma WitnessSound()
    ensures ProgramSound(Dropping(), ROOT, ORDER, map[])
  {
    hide Occ, NamesSound, LambdaSound, Ranked, Sites;
    WitnessNames();
    WitnessRanked();
    WitnessCode();
    forall b, init | Occ(ROOT, SiteOf(b, init)) > 0 ensures LambdaSound(ROOT, b, init) {
      WitnessOccurs(SiteOf(b, init));
      InitIsSound(ROOT, b, init);
    }
    forall x, id ensures Occ(ROOT, Own(x, id)) == 0 { WitnessOccurs(Own(x, id)); }
  }

  // ----- the host and the start are fit --------------------------------------------------------------------

  lemma IdleIsFit(k: Rules)
    requires k.pass.facts == Plainly()
    ensures HostFit(k, Idle())
  {
    hide MovedWorld, SaneWorld;
    forall m: Moves, op, vs, ws, w, x ensures Uniform(Idle(), m, op, vs, ws, w, x) {
      if MovedWorld(m, w, x) && MovedAll(m, vs, ws) {
        assert Wider(m, m) && MovedResult(m, Idle()(op, vs, w), Idle()(op, ws, x));
      }
    }
    assert forall op, count :: Fits(Idle(), op, count);
  }

  /** A host whose every operation makes an object of its arguments, as `pair` and `list` do. */
  function Maker(): Host {
    (op: HostOp, vs: seq<Value>, w: World) => HostResult.Done([Object(|w.objects|)], w.(objects := w.objects + [vs]))
  }

  /** Such a host is fit: allocation is not an effect, and two runs may allocate apart. */
  lemma MakerIsFit(k: Rules)
    requires k.pass.facts == Plainly()
    ensures HostFit(k, Maker())
  {
    hide MovedObjects, Firm;
    forall o, op, vs, w | SaneValues(k, o, vs) && SaneWorld(k, o, w) ensures SaneResult(k, o, Maker()(op, vs, w)) {
      var w1 := Maker()(op, vs, w).world;
      assert Firm(k, o, w1) by { SameCells(k, o, w, w1); }
    }
    forall m: Moves, op, vs, ws, w, x ensures Uniform(Maker(), m, op, vs, ws, w, x) {
      MakerIsUniform(m, op, vs, ws, w, x);
    }
    assert forall op, count :: Fits(Maker(), op, count);
  }

  lemma SameCells(k: Rules, o: Owner, w: World, w1: World)
    requires Firm(k, o, w) && w1.cells == w.cells
    ensures Firm(k, o, w1)
  {}

  lemma MakerIsUniform(m: Moves, op: HostOp, vs: seq<Value>, ws: seq<Value>, w: World, x: World)
    ensures Uniform(Maker(), m, op, vs, ws, w, x)
  {
    if MovedWorld(m, w, x) && MovedAll(m, vs, ws) {
      var m1 := m[|x.objects| := |w.objects|];
      assert Wider(m, m1);
      hide Moved;
      MovedAllGrows(m, m1, w.cells, x.cells);
      MovedAllGrows(m, m1, w.log, x.log);
      MovedAllGrows(m, m1, vs, ws);
      forall a | a in m ensures MovedAll(m1, w.objects[m[a]], x.objects[a]) {
        MovedAllGrows(m, m1, w.objects[m[a]], x.objects[a]);
      }
      NewMoved(m1, |x.objects|);
      assert MovedResult(m1, Maker()(op, vs, w), Maker()(op, ws, x));
    }
  }

  lemma NewMoved(m: Moves, a: nat)
    requires a in m
    ensures Moved(m, Object(m[a]), Object(a))
  {}

  lemma EmptyIsFit(k: Rules)
    ensures StartFit(k, map[], NOTHING, START)
  {}

  // ----- the two runs --------------------------------------------------------------------------------------

  lemma OriginalFaults(n: nat)
    requires n >= 2
    ensures Original(ROOT, Idle(), n, START).out == Fault
  {
    WitnessCode();
    var c := Ctx(CodeOf(ROOT), Idle(), false);
    var s0 := Bind(START, F, NilValue);
    assert Prebind(s0, BNil) == s0 && Prebind(START, LAST) == s0 && Prebind(START, BINDS.rest) == s0
           && Prebind(START, BINDS) == s0;
    assert s0.frame == map[F := Cell(0)] && s0.world.cells == [NilValue];
    var g := Closure(7, Captured(s0.frame, [Capture(F, false)]));
    assert Captured(s0.frame, [Capture(F, false)]) == map[F := Cell(0)];
    assert Eval(c, n, FN_G, s0) == Res(Val(g), s0);
    var s1 := Write(s0, G, g);
    assert s1.frame == s0.frame[G := Plain(g)] && s1.world == s0.world;
    CallFaults(c, n, s1);
    assert EvalBinds(c, n, true, BINDS.rest, s1) == Halt(Eval(c, n, CALL_G, s1));
    assert EvalBinds(c, n, true, BINDS, s0) == EvalBinds(c, n, true, BINDS.rest, s1);
  }

  lemma CallFaults(c: Ctx, n: nat, s: State)
    requires n >= 2 && c == Ctx(CodeOf(ROOT), Idle(), false) && s.world.cells == [NilValue]
    requires G in s.frame && s.frame[G] == Plain(Closure(7, map[F := Cell(0)]))
    ensures Eval(c, n, CALL_G, s).out == Fault
  {
    WitnessCode();
    var g := Closure(7, map[F := Cell(0)]);
    var fn := c.code[7];
    var entry := State(EntryFrame(g, fn), s.dyn, s.world, 0);
    assert EntryFrame(g, fn) == map[F := Cell(0)];
    assert BindAll(entry, [], []) == entry;
    assert EvalOps(c, n - 1, HNil, entry) == Vals([], entry)
           && Eval(c, n - 1, Var(F), entry) == Res(Val(NilValue), entry);
    assert Spread(c.host, [], [], s.world) == HostResult.Done([], s.world) && entry.(world := s.world) == entry
           && s.(world := s.world) == s;
    assert Apply(c, n - 2, NilValue, [], entry) == Res(Fault, entry);
    assert Invoke(c, n - 1, NilValue, [], [], false, entry) == Res(Fault, entry);
    assert Eval(c, n - 1, CALL_F, entry) == Res(Fault, entry);
    assert Apply(c, n - 1, g, [], s).out == Fault;
    assert EvalOps(c, n, HNil, s) == Vals([], s) && Eval(c, n, Var(G), s) == Res(Val(g), s);
    assert Invoke(c, n, g, [], [], false, s).out == Fault;
  }

  lemma StrippedRuns(n: nat)
    ensures Original(Strip(Dropping(), ROOT), Idle(), n, START).out == Val(Data(Int(2)))
  {
    var p := Dropping();
    assert EffectFreeAll(p.facts, p.pure, HNil) && p.facts.silent(CALL_G);
    assert Eliminable(p, X, CALL_G);
    var g, f := Strip(p, FN_G), Strip(p, FN_F);
    assert g.Lambda? && f.Lambda?;
    var last := BCons(F, f, BNil);
    assert StripLet(p, BNil) == BNil && StripLet(p, LAST) == last && StripLet(p, BINDS.rest) == last
           && StripLet(p, BINDS) == BCons(G, g, last);
    assert Strip(p, Lit(Int(2))) == Lit(Int(2));
    var e := Strip(p, ROOT);
    assert e == Let(true, BCons(G, g, last), Lit(Int(2)));
    BothBound(Ctx(CodeOf(e), Idle(), false), n, g, f, Lit(Int(2)), START);
  }

  /** A `letrec` of two lambdas goes on with its body. */
  lemma BothBound(c: Ctx, n: nat, g: Hir, f: Hir, body: Hir, s: State)
    requires g.Lambda? && f.Lambda? && body.Lit?
    ensures Eval(c, n, Let(true, BCons(G, g, BCons(F, f, BNil)), body), s).out == Val(Data(body.datum))
  {
    var bs := BCons(G, g, BCons(F, f, BNil));
    var s0 := Prebind(s, bs);
    var v := Closure(g.id, Captured(s0.frame, g.captures));
    var s1 := Write(s0, G, v);
    var w := Closure(f.id, Captured(s1.frame, f.captures));
    var s2 := Write(s1, F, w);
    assert Eval(c, n, g, s0) == Res(Val(v), s0) && Eval(c, n, f, s1) == Res(Val(w), s1);
    assert EvalBinds(c, n, true, BNil, s2) == BindRes.Bound(s2);
    assert EvalBinds(c, n, true, bs.rest, s1) == BindRes.Bound(s2);
    assert EvalBinds(c, n, true, bs, s0) == BindRes.Bound(s2);
  }

  /** No result of the two is the same. */
  lemma FaultIsNoValue(r: Res, q: Res)
    requires r.out == Fault && q.out.Val?
    ensures !SameResult(START, r, q)
  {}

  /**
    The program is sound, and so are its host and the state it starts in; it faults
    with any two steps or more, and its stripped form runs to a value. So no plan
    finds the callees of the dropped call bound.
  */
  lemma StrippingMayDropAFault(n: nat)
    requires n >= 2
    ensures ProgramSound(Dropping(), ROOT, ORDER, map[]) && Uses(ROOT) == Dropping().used
    ensures HostFit(RulesOf(Dropping(), ROOT, ORDER, map[], None), Idle())
    ensures StartFit(RulesOf(Dropping(), ROOT, ORDER, map[], None), map[], NOTHING, START)
    ensures Original(ROOT, Idle(), n, START).out == Fault
    ensures Original(Strip(Dropping(), ROOT), Idle(), n, START).out == Val(Data(Int(2)))
    ensures forall plan :: !BoundFirst(Dropping(), ROOT, ORDER, map[], plan)
  {
    hide NamesSound, LambdaSound, OwnSound, NativesSound, Sites, Ranked, Elements, HostFit, StartFit, Original, Strip,
         SameResult, BoundFirst, RulesOf;
    WitnessSound();
    WitnessUses();
    RulesPass(Dropping(), ROOT, ORDER, map[], None);
    IdleIsFit(RulesOf(Dropping(), ROOT, ORDER, map[], None));
    EmptyIsFit(RulesOf(Dropping(), ROOT, ORDER, map[], None));
    OriginalFaults(n);
    StrippedRuns(n);
    forall plan ensures !BoundFirst(Dropping(), ROOT, ORDER, map[], plan) { NoPlanFits(n, plan); }
  }

  lemma NoPlanFits(n: nat, plan: Plan)
    requires n >= 2 && ProgramSound(Dropping(), ROOT, ORDER, map[])
    ensures !BoundFirst(Dropping(), ROOT, ORDER, map[], plan)
  {
    hide HostFit, StartFit, Original, Strip, SameResult, BoundFirst, RulesOf, NamesSound, LambdaSound, OwnSound,
         NativesSound, Sites, Ranked, Elements;
    var k := RulesOf(Dropping(), ROOT, ORDER, map[], Some(plan));
    RulesPass(Dropping(), ROOT, ORDER, map[], Some(plan));
    IdleIsFit(k);
    EmptyIsFit(k);
    OriginalFaults(n);
    StrippedRuns(n);
    FaultIsNoValue(Original(ROOT, Idle(), n, START), Original(Strip(Dropping(), ROOT), Idle(), n, START));
    if BoundFirst(Dropping(), ROOT, ORDER, map[], plan) {
      StrippingIsExact(Dropping(), ROOT, ORDER, map[], plan, Idle(), NOTHING, n, START);
    }
  }

  // ----- the call after the bindings -----------------------------------------------------------------------

  const BOTH: Binds := BCons(G, FN_G, LAST)
  const INNER: Hir := Let(false, BCons(X, CALL_G, BNil), Lit(Int(2)))
  const LATER: Hir := Let(true, BOTH, INNER)

  lemma LaterOccurs(o: Role)
    ensures Occ(FN_G, o) == One(o == Caught(F)) + One(o == Use(F)) && Occ(CALL_G, o) == One(o == Use(G))
    ensures Occ(FN_F, o) == 0
    ensures Occ(LATER, o) ==
            One(o == Role.Bound(G)) + One(o == SiteOf(G, FN_G)) + Occ(FN_G, o)
            + (One(o == Role.Bound(F)) + One(o == SiteOf(F, FN_F)))
            + (One(o == Role.Bound(X)) + One(o == SiteOf(X, CALL_G)) + Occ(CALL_G, o))
  {
    hide One, LetOcc;
    InitsOccur(o);
    BindOccurs(G, FN_G, LAST, o);
    BindOccurs(F, FN_F, BNil, o);
    BindOccurs(X, CALL_G, BNil, o);
    assert LetOcc(BNil, o) == 0 by { NoBinds(o); }
    assert Occ(Lit(Int(2)), o) == 0;
    assert Occ(INNER, o) == LetOcc(BCons(X, CALL_G, BNil), o) + Occ(Lit(Int(2)), o) by {
      LetOccurs(false, BCons(X, CALL_G, BNil), Lit(Int(2)), o);
    }
    assert Occ(LATER, o) == LetOcc(BOTH, o) + Occ(INNER, o) by { LetOccurs(true, BOTH, INNER, o); }
  }

  lemma LetOccurs(rec: bool, bs: Binds, body: Hir, o: Role)
    ensures Occ(Let(rec, bs, body), o) == LetOcc(bs, o) + Occ(body, o)
  {}

  lemma LaterSites()
    ensures Sites(LATER) == [(G, FN_G), (F, FN_F), (X, CALL_G)]
  {
    assert Here(BNil) == [] && Here(LAST) == [(F, FN_F)] && Here(BOTH) == [(G, FN_G), (F, FN_F)]
           && Here(BCons(X, CALL_G, BNil)) == [(X, CALL_G)];
    assert Sites(Lit(Int(1))) == [] && Sites(Lit(Int(2))) == [] && Sites(Var(F)) == [] && Sites(Var(G)) == []
           && SitesAll(HNil) == [];
    assert Sites(CALL_F) == [] && Sites(CALL_G) == [] && Sites(FN_G) == [] && Sites(FN_F) == [];
    assert SitesBinds(BNil) == [] && SitesBinds(LAST) == [] && SitesBinds(BOTH) == []
           && SitesBinds(BCons(X, CALL_G, BNil)) == [];
    assert Sites(INNER) == [(X, CALL_G)];
  }

  lemma LaterRanked()
    ensures Ranked(Plainly(), Sites(LATER), ORDER) && Elements(ORDER) == {F, G}
  {
    LaterSites();
    var sites := Sites(LATER);
    var facts := Plainly();
    assert sites[..2] == [(G, FN_G), (F, FN_F)] && sites[..2][..1] == [(G, FN_G)] && [(G, FN_G)][..0] == [];
    assert Count([], F) == 0 && Count([], G) == 0 && Count([(G, FN_G)], F) == 0 && Count([(G, FN_G)], G) == 1;
    assert Count(sites[..2], F) == 1 && Count(sites[..2], G) == 1;
    assert Count(sites, F) == 1 && Count(sites, G) == 1;
    assert ORDER[..0] == [] && ORDER[..1] == [F];
    assert Elements(ORDER[..1]) == {F} by { assert ORDER[..1][0] == F; }
    assert EffectFreeAll(facts, {F}, HNil);
    assert facts.silent(CALL_F) && EffectFree(facts, {F}, CALL_F);
    assert Admissible(facts, sites, Elements(ORDER[..0]), sites[1]);
    assert Admissible(facts, sites, Elements(ORDER[..1]), sites[0]);
    assert RankedAt(facts, sites, ORDER, 0);
    assert RankedAt(facts, sites, ORDER, 1);
    assert ORDER[0] == F && ORDER[1] == G;
  }

  lemma LaterNames()
    ensures NamesSound(Dropping(), LATER)
  {
    hide Occ;
    forall x: Binding ensures Occ(LATER, Use(x)) > 0 || Occ(LATER, Caught(x)) > 0 <==> x in {F, G} {
      LaterOccurs(Use(x));
      LaterOccurs(Caught(x));
    }
    forall x: Binding ensures Occ(LATER, Target(x)) == 0 && Occ(LATER, Role.Param(x)) == 0 {
      LaterOccurs(Target(x));
      LaterOccurs(Role.Param(x));
    }
    forall b, init, x | Occ(LATER, SiteOf(b, init)) > 0 ensures !Introduces(init, x) {
      LaterOccurs(SiteOf(b, init));
      LaterOccurs(Role.Bound(x));
      LaterOccurs(Role.Param(x));
    }
  }

  lemma LaterCode()
    ensures CodeOf(LATER) == map[7 := Fn([], [Capture(F, false)], CALL_F), 8 := Fn([], [], Lit(Int(1)))]
  {
    assert CodeOf(CALL_F) == map[] && CodeOf(CALL_G) == map[] && CodeOf(Lit(Int(1))) == map[]
           && CodeOf(Lit(Int(2))) == map[];
    assert CodeOf(FN_G) == map[7 := Fn([], [Capture(F, false)], CALL_F)]
           && CodeOf(FN_F) == map[8 := Fn([], [], Lit(Int(1)))];
    assert CodeOfBinds(BNil) == map[] && CodeOfBinds(LAST) == map[8 := Fn([], [], Lit(Int(1)))]
           && CodeOfBinds(BCons(X, CALL_G, BNil)) == map[];
    assert CodeOfBinds(BOTH) == map[7 := Fn([], [Capture(F, false)], CALL_F), 8 := Fn([], [], Lit(Int(1)))];
    assert CodeOf(INNER) == map[];
  }

  lemma LaterSound()
    ensures ProgramSound(Dropping(), LATER, ORDER, map[])
  {
    hide Occ, NamesSound, LambdaSound, Ranked, Sites;
    LaterNames();
    LaterRanked();
    LaterCode();
    forall b, init | Occ(LATER, SiteOf(b, init)) > 0 ensures LambdaSound(LATER, b, init) {
      LaterOccurs(SiteOf(b, init));
      InitIsSound(LATER, b, init);
    }
    forall x, id ensures Occ(LATER, Own(x, id)) == 0 { LaterOccurs(Own(x, id)); }
  }

  lemma LaterTrust(k: Rules)
    requires Ranked(Plainly(), Sites(LATER), ORDER) && k == RulesOf(Dropping(), LATER, ORDER, map[], k.plan)
    ensures F in k.trusted && G in k.trusted && k.trusted[F] == Fun(8) && k.trusted[G] == Fun(7)
    ensures F in k.needs && G in k.needs && k.needs[F] == {} && k.needs[G] == {F} && k.pass == Dropping()
  {
    hide Sites, Ranked, EffectFree, Count;
    LaterSites();
    assert ORDER[0] == F && ORDER[1] == G;
    var sites := [(G, FN_G), (F, FN_F), (X, CALL_G)];
    assert Elements(ORDER) == {F, G};
    assert (F, LambdaOf(Plainly(), Sites(LATER), ORDER, F)) in sites
           && (G, LambdaOf(Plainly(), Sites(LATER), ORDER, G)) in sites;
    assert LambdaOf(Plainly(), Sites(LATER), ORDER, F) == FN_F && LambdaOf(Plainly(), Sites(LATER), ORDER, G) == FN_G;
    assert Callees(Lit(Int(1))) == {} && CalleesAll(HNil) == {} && Callees(CALL_F) == {F};
  }

  lemma LaterScoped(k: Rules)
    requires F in k.trusted && G in k.trusted && k.trusted[F] == Fun(8) && k.trusted[G] == Fun(7)
    requires F in k.needs && G in k.needs && k.needs[F] == {} && k.needs[G] == {F} && k.pass == Dropping()
    requires k.plan == Some(Plan({F, G}, {}, map[]))
    ensures Scoped(k, Scope({}, {}), LATER)
  {
    var p := k.pass;
    assert Heads(k, BNil) == {} && Heads(k, LAST) == {F} && Heads(k, BOTH) == {F, G} && Boxes(k, BOTH) == {F};
    var open := Opened(k, Scope({}, {}), BOTH);
    assert open == Scope({}, {F});
    var mid := NextScope(k, open, G, FN_G);
    assert {F} + {G} == {F, G} && mid == Scope({}, {F, G});
    var end := NextScope(k, mid, F, FN_F);
    assert {F, G} + {F} == {F, G} && {} + {F} == {F} && end == Scope({F}, {F, G});
    assert !Eliminable(p, G, FN_G) && !Eliminable(p, F, FN_F);
    assert Through(k, open, BOTH) == end by { assert Through(k, end, BNil) == end && Through(k, mid, LAST) == end; }
    var body := BodyScope(k, true, Scope({}, {}), BOTH);
    assert {F} + {F, G} == {F, G} && body == Scope({F, G}, {F, G});
    CallIsScoped(k, F);
    assert Scoped(k, open, FN_G) && Scoped(k, mid, FN_F);
    assert ScopedBinds(k, {F}, end, BNil) && ScopedBinds(k, {F}, mid, LAST) && ScopedBinds(k, {F}, open, BOTH);
    assert EffectFreeAll(p.facts, p.pure, HNil) && p.facts.silent(CALL_G) && Eliminable(p, X, CALL_G);
    assert Callees(CALL_G) == {G} by { assert CalleesAll(HNil) == {}; }
    assert ScopedBinds(k, {}, body, BNil) && ScopedBinds(k, {}, body, BCons(X, CALL_G, BNil));
    assert Scoped(k, body, INNER);
  }

  lemma CallIsScoped(k: Rules, b: Binding)
    requires k.plan == Some(Plan({F, G}, {}, map[]))
    ensures forall id ::
              && Scoped(k, EntryScope(k, id), Call(HNil, [], Var(b), false))
              && Scoped(k, EntryScope(k, id), Lit(Int(1))) && EntryOf(k, id) == {}
  {
    forall id ensures Scoped(k, EntryScope(k, id), Call(HNil, [], Var(b), false)) {
      assert ScopedAll(k, EntryScope(k, id), HNil) && Scoped(k, EntryScope(k, id), Var(b));
    }
  }

  /** With the call after the bindings the condition is met, though `g` was made before `f`. */
  lemma LaterCallFits()
    ensures ProgramSound(Dropping(), LATER, ORDER, map[]) && Eliminable(Dropping(), X, CALL_G)
    ensures BoundFirst(Dropping(), LATER, ORDER, map[], Plan({F, G}, {}, map[]))
  {
    hide NamesSound, LambdaSound, OwnSound, NativesSound, Sites, Ranked, Scoped, RulesOf;
    LaterSound();
    LaterRanked();
    var plan := Plan({F, G}, {}, map[]);
    var k := RulesOf(Dropping(), LATER, ORDER, map[], Some(plan));
    RulesPass(Dropping(), LATER, ORDER, map[], Some(plan));
    LaterTrust(k);
    LaterScoped(k);
    var none: map<Binding, nat> := map[];
    assert StartScope(none) == Scope({}, {});
    assert EffectFreeAll(Plainly(), {F, G}, HNil) && Plainly().silent(CALL_G);
  }
}
