/**
  What dead binding elimination preserves.

  `ProgramSound` gathers what the arena and the analyzer guarantee of a program.
  From it and the admission order of the pure functions, `RulesSound` builds the
  trust the simulation needs, and the theorems follow. What the original completes
  with, the stripped program completes with (`StrippingKeepsResults`), and what the
  stripped program completes with, the original reaches or faults
  (`StrippingAddsNoResults`). A fault can be dropped (`StrippingMayDropAFault`), by
  a call that runs before what it reaches is bound: where every dropped call finds
  its callees bound, faults are kept too (`StrippingIsExact`). Results and worlds are
  the same up to where their objects are, since the original may allocate more.
*/
module DeadTheorem {
  import opened Options
  import opened HirSyntax
  import opened HirEval
  import opened Dead
  import opened DeadNames
  import opened DeadSites
  import opened DeadScope
  import opened DeadRank
  import opened DeadNodes
  import opened DeadEval
  import opened DeadBound
  import opened DeadStore
  import opened DeadRealm
  import opened DeadSim
  import opened DeadRun
  import opened DeadProgram

  // ----- what is given --------------------------------------------------------------------------------------

  /** A lambda captures outer names alone, and a code id names one lambda. */
  ghost predicate LambdaSound(root: Hir, b: Binding, init: Hir) {
    init.Lambda? ==>
      && (forall x :: Introduces(init, x) ==> Catches(init.id, init.captures, Caught(x)) == 0)
      && init.id in CodeOf(root) && CodeOf(root)[init.id] == Fn(init.params, init.captures, init.body)
  }

  /** A capture of a lambda's own name is of the name its site binds. */
  ghost predicate OwnSound(root: Hir, x: Binding, id: nat) {
    exists init :: Occ(root, SiteOf(x, init)) > 0 && init.Lambda? && init.id == id
  }

  /** The primitives, by native code: each flagged, never written, and bound by nothing in the program. */
  ghost predicate NativesSound(f: Facts, root: Hir, natives: map<Binding, nat>) {
    && (forall b :: f.info(b).primitive && DeclaredPure(f, b) ==> b in natives)
    && (forall b :: b in natives ==> f.info(b).primitive && !f.info(b).mutated && !Introduces(root, b))
  }

  ghost predicate ProgramSound(p: Pass, root: Hir, order: seq<Binding>, natives: map<Binding, nat>) {
    && NamesSound(p, root)
    && (forall b, init :: Occ(root, SiteOf(b, init)) > 0 ==> LambdaSound(root, b, init))
    && (forall x, id :: Occ(root, Own(x, id)) > 0 ==> OwnSound(root, x, id))
    && NativesSound(p.facts, root, natives)
    && Ranked(p.facts, Sites(root), order) && p.pure == Elements(order)
  }

  // ----- the pure functions' sites -------------------------------------------------------------------------

  /** The site a pure function was admitted by. */
  ghost function SiteIndex(f: Facts, sites: seq<Site>, order: seq<Binding>, i: nat): (j: nat)
    requires Ranked(f, sites, order) && i < |order|
    ensures j < |sites| && sites[j].0 == order[i] && Admissible(f, sites, Elements(order[..i]), sites[j])
  {
    assert RankedAt(f, sites, order, i);
    var j :| 0 <= j < |sites| && sites[j].0 == order[i] && Admissible(f, sites, Elements(order[..i]), sites[j]);
    j
  }

  ghost function RankOf(order: seq<Binding>, b: Binding): (i: nat)
    requires b in Elements(order)
    ensures i < |order| && order[i] == b
  {
    var i :| 0 <= i < |order| && order[i] == b;
    i
  }

  ghost function LambdaOf(f: Facts, sites: seq<Site>, order: seq<Binding>, b: Binding): (e: Hir)
    requires Ranked(f, sites, order) && b in Elements(order)
    ensures e.Lambda? && (b, e) in sites && Count(sites, b) == 1 && f.info(b).immutable && !f.info(b).mutated
    ensures EffectFree(f, Elements(order[..RankOf(order, b)]), e.body)
  {
    var j := SiteIndex(f, sites, order, RankOf(order, b));
    assert sites[j] in sites;
    sites[j].1
  }

  ghost function Trust(p: Pass, root: Hir, order: seq<Binding>, natives: map<Binding, nat>): map<Binding, Callee>
    requires Ranked(p.facts, Sites(root), order)
  {
    (map b | b in natives :: Builtin(natives[b])) +
        (map b | b in Elements(order) :: Fun(LambdaOf(p.facts, Sites(root), order, b).id))
  }

  /** What each pure function calls. */
  ghost function Needs(p: Pass, root: Hir, order: seq<Binding>): map<Binding, set<Binding>>
    requires Ranked(p.facts, Sites(root), order)
  {
    map b | b in Elements(order) :: Callees(LambdaOf(p.facts, Sites(root), order, b).body)
  }

  ghost function RulesOf(p: Pass, root: Hir, order: seq<Binding>, natives: map<Binding, nat>, plan: Option<Plan>): Rules
    requires Ranked(p.facts, Sites(root), order)
  {
    Rules(p, Strip(p, root), Trust(p, root, order, natives), Needs(p, root, order), plan)
  }

  lemma SiteCounted(root: Hir, b: Binding, init: Hir)
    ensures (b, init) in Sites(root) <==> Occ(root, SiteOf(b, init)) > 0
    ensures Occ(root, SiteOf(b, init)) > 0 ==> Occ(root, Role.Bound(b)) > 0
  {
    hide Occ, Sites;
    SiteIsListed(root, b, init);
    SiteIsInside(root, b, init, Use(b));
  }

  /** A pure function's site, and that it is the only one. */
  lemma PureSite(p: Pass, root: Hir, order: seq<Binding>, natives: map<Binding, nat>, b: Binding)
    requires ProgramSound(p, root, order, natives) && b in Elements(order)
    ensures var lam := LambdaOf(p.facts, Sites(root), order, b);
            && Occ(root, SiteOf(b, lam)) > 0 && Occ(root, Role.Bound(b)) > 0 && Occ(root, Role.Param(b)) == 0
            && (forall init :: Occ(root, SiteOf(b, init)) > 0 ==> init == lam)
  {
    hide Occ, Sites, EffectFree, LambdaSound, OwnSound, NativesSound;
    var lam := LambdaOf(p.facts, Sites(root), order, b);
    SiteCounted(root, b, lam);
    forall init | Occ(root, SiteOf(b, init)) > 0 ensures init == lam {
      SiteCounted(root, b, init);
      var j :| 0 <= j < |Sites(root)| && Sites(root)[j] == (b, lam);
      var i :| 0 <= i < |Sites(root)| && Sites(root)[i] == (b, init);
      OneSite(Sites(root), b, j, i);
    }
  }

  lemma TrustIs(p: Pass, root: Hir, order: seq<Binding>, natives: map<Binding, nat>, x: Binding)
    requires ProgramSound(p, root, order, natives)
    ensures var trusted := Trust(p, root, order, natives);
            && (x in trusted <==> x in natives || x in Elements(order))
            && (x in Elements(order) ==>
               x !in natives && trusted[x] == Fun(LambdaOf(p.facts, Sites(root), order, x).id))
            && (x in natives ==> trusted[x] == Builtin(natives[x]))
  {
    hide Occ, Sites, EffectFree, LambdaSound, OwnSound, NamesSound;
    if x in Elements(order) { PureSite(p, root, order, natives, x); }
  }

  /** What the pass trusts is what the program does. */
  lemma RulesSound(p: Pass, root: Hir, order: seq<Binding>, natives: map<Binding, nat>, plan: Option<Plan>)
    requires ProgramSound(p, root, order, natives)
    ensures Sound(RulesOf(p, root, order, natives, plan), root)
  {
    hide Occ, Sites, EffectFree, LambdaSound, NamesSound, Trust, Strip, NativesSound, Needs, Elements;
    var k := RulesOf(p, root, order, natives, plan);
    forall x | x in k.trusted ensures !p.facts.info(x).mutated && Occ(root, Role.Param(x)) == 0 {
      TrustIs(p, root, order, natives, x);
      if x in natives { NativeFacts(p, root, order, natives, x); } else { PureSite(p, root, order, natives, x); }
    }
    forall x, init | x in k.trusted && Occ(root, SiteOf(x, init)) > 0
        ensures init.Lambda? && k.trusted[x] == Fun(init.id) {
      TrustedSite(p, root, order, natives, x, init);
    }
    forall x, id | x in k.trusted && Occ(root, Own(x, id)) > 0 ensures k.trusted[x] == Fun(id) {
      assert OwnSound(root, x, id);
      var init :| Occ(root, SiteOf(x, init)) > 0 && init.Lambda? && init.id == id;
      TrustedSite(p, root, order, natives, x, init);
    }
    assert NamesSound(p, root);
  }

  lemma NativeFacts(p: Pass, root: Hir, order: seq<Binding>, natives: map<Binding, nat>, x: Binding)
    requires ProgramSound(p, root, order, natives) && x in natives
    ensures p.facts.info(x).primitive && !p.facts.info(x).mutated && Occ(root, Role.Bound(x)) == 0
    ensures Occ(root, Role.Param(x)) == 0
  {
    hide Occ, Sites, LambdaSound, OwnSound, NamesSound;
  }

  lemma TrustedSite(p: Pass, root: Hir, order: seq<Binding>, natives: map<Binding, nat>, x: Binding, init: Hir)
    requires ProgramSound(p, root, order, natives) && x in Trust(p, root, order, natives)
    requires Occ(root, SiteOf(x, init)) > 0
    ensures init.Lambda? && Trust(p, root, order, natives)[x] == Fun(init.id)
  {
    hide Occ, Sites, LambdaSound, OwnSound, NamesSound, Trust, NativesSound;
    TrustIs(p, root, order, natives, x);
    SiteCounted(root, x, init);
    if x in natives { NativeFacts(p, root, order, natives, x); } else { PureSite(p, root, order, natives, x); }
  }

  // ----- the runs ------------------------------------------------------------------------------------------

  /** What occurs of a lambda's inner names is in its body; one without effects writes and captures none: no cells. */
  lemma InnerNames(p: Pass, root: Hir, order: seq<Binding>, natives: map<Binding, nat>, b: Binding, x: Binding)
    requires ProgramSound(p, root, order, natives) && b in Elements(order)
    requires Introduces(LambdaOf(p.facts, Sites(root), order, b), x)
    ensures Occ(root, Target(x)) == 0 && Occ(root, Caught(x)) == 0 && !x.boxed
  {
    hide Sites, EffectFree, OwnSound, NativesSound, Ranked, Eliminable;
    var lam := LambdaOf(p.facts, Sites(root), order, b);
    PureSite(p, root, order, natives, b);
    assert LambdaSound(root, b, lam);
    assert LookedInto(p, b, lam) && Local(root, lam, x);
    EffectFreeNames(p.facts, Elements(order[..RankOf(order, b)]), lam.body, x);
    NoTargets(lam, x);
  }

  lemma NoTargets(lam: Hir, x: Binding)
    requires lam.Lambda?
    ensures Occ(lam, Target(x)) == Occ(lam.body, Target(x))
    ensures Occ(lam, Caught(x)) == Catches(lam.id, lam.captures, Caught(x)) + Occ(lam.body, Caught(x))
  {
    ParamsAreNoReads(lam.params, x);
    ParamsAreNoTargets(lam.params, x);
    CapturesAreNoTargets(lam.id, lam.captures, x);
  }

  lemma {:induction false} ParamsAreNoTargets(bs: seq<Binding>, x: Binding)
    ensures Params(bs, Target(x)) == 0
  {
    if bs != [] { ParamsAreNoTargets(bs[1..], x); }
  }

  lemma {:induction false} CapturesAreNoTargets(id: nat, cs: seq<Capture>, x: Binding)
    ensures Catches(id, cs, Target(x)) == 0
    decreases |cs|
  {
    if cs != [] { CapturesAreNoTargets(id, cs[1..], x); }
  }

  lemma {:induction false} ParamIntroduced(bs: seq<Binding>, i: nat)
    requires i < |bs|
    ensures Params(bs, Role.Param(bs[i])) > 0
    decreases |bs|
  {
    if i > 0 { ParamIntroduced(bs[1..], i - 1); }
  }

  /** The body of a pure function is harmless from the functions before it. */
  lemma PureBody(p: Pass, root: Hir, order: seq<Binding>, natives: map<Binding, nat>, plan: Option<Plan>, b: Binding)
    requires ProgramSound(p, root, order, natives) && b in Elements(order)
    ensures var k := RulesOf(p, root, order, natives, plan);
            Harmless(k, false, Elements(order[..RankOf(order, b)]), LambdaOf(p.facts, Sites(root), order, b).body)
  {
    hide Occ, Sites, EffectFree, OwnSound, NativesSound, Trust, Strip, Harmless, Ranked, LambdaSound;
    var k := RulesOf(p, root, order, natives, plan);
    var lam := LambdaOf(p.facts, Sites(root), order, b);
    var pure := Elements(order[..RankOf(order, b)]);
    if !Harmless(k, false, pure, lam.body) {
      var x, v := NoisySite(k, false, pure, lam.body);
      PureSite(p, root, order, natives, b);
      BodyOccurs(lam, Role.Bound(x));
      BodyOccurs(lam, SiteOf(x, v));
      InnerNames(p, root, order, natives, b, x);
      SiteIsInside(root, b, lam, SiteOf(x, v));
      SiteIsInside(root, b, lam, Role.Bound(x));
      LambdaHasEffects(p.facts, pure, v);
      if x in k.trusted { TrustedSite(p, root, order, natives, x, v); }
      assert false;
    }
  }

  lemma BodyOccurs(lam: Hir, o: Role)
    requires lam.Lambda?
    ensures Occ(lam.body, o) <= Occ(lam, o)
  {}

  lemma PureParam(p: Pass, root: Hir, order: seq<Binding>, natives: map<Binding, nat>, plan: Option<Plan>, b: Binding,
          j: nat)
    requires ProgramSound(p, root, order, natives) && b in Elements(order)
    requires j < |LambdaOf(p.facts, Sites(root), order, b).params|
    requires NamesOk(RulesOf(p, root, order, natives, plan), LambdaOf(p.facts, Sites(root), order, b).params)
    ensures Quiet(RulesOf(p, root, order, natives, plan), false, LambdaOf(p.facts, Sites(root), order, b).params[j])
  {
    hide Sites, EffectFree, OwnSound, NativesSound, Trust, Strip, Ranked, NamesSound;
    var lam := LambdaOf(p.facts, Sites(root), order, b);
    PureSite(p, root, order, natives, b);
    assert LambdaSound(root, b, lam);
    ParamIntroduced(lam.params, j);
    InnerNames(p, root, order, natives, b, lam.params[j]);
  }

  lemma PureFunctionIsReady(p: Pass, root: Hir, order: seq<Binding>, natives: map<Binding, nat>, plan: Option<Plan>,
          c: Ctx, i: nat)
    requires ProgramSound(p, root, order, natives) && c.code == CodeOf(root) && i < |order|
    ensures PureFn(RulesOf(p, root, order, natives, plan), c, order, i)
  {
    hide Occ, Sites, EffectFree, OwnSound, NativesSound, Trust, Strip, NamesSound, Harmless, Quiet, CapturesOk, CodeOf,
         Obeys;
    var k := RulesOf(p, root, order, natives, plan);
    var b := order[i];
    assert b in Elements(order);
    RankIsUnique(p.facts, Sites(root), order, i);
    var lam := LambdaOf(p.facts, Sites(root), order, b);
    TrustIs(p, root, order, natives, b);
    PureSite(p, root, order, natives, b);
    assert LambdaSound(root, b, lam);
    RulesSound(p, root, order, natives, plan);
    ProgramObeys(k, root);
    CodeIsStripped(k, root, lam.id);
    forall j | 0 <= j < |lam.params| ensures Quiet(k, false, lam.params[j]) {
      PureParam(p, root, order, natives, plan, b, j);
    }
    PureBody(p, root, order, natives, plan, b);
    forall f | f in Callees(lam.body) ensures f in k.trusted && Capture(f, true) !in lam.captures {
      CalleeIsCaught(p, root, order, natives, i, f);
    }
  }

  /** What a pure function calls is trusted, and is not the function itself. */
  lemma CalleeIsCaught(p: Pass, root: Hir, order: seq<Binding>, natives: map<Binding, nat>, i: nat, f: Binding)
    requires ProgramSound(p, root, order, natives) && i < |order| && order[i] in Elements(order)
    requires f in Callees(LambdaOf(p.facts, Sites(root), order, order[i]).body)
    ensures f in Trust(p, root, order, natives)
    ensures Capture(f, true) !in LambdaOf(p.facts, Sites(root), order, order[i]).captures
  {
    hide Occ, Sites, EffectFree, NamesSound, Trust, CodeOf;
    var b := order[i];
    var lam := LambdaOf(p.facts, Sites(root), order, b);
    RankIsUnique(p.facts, Sites(root), order, i);
    EffectFreeCalls(p.facts, Elements(order[..i]), lam.body, f);
    TrustIs(p, root, order, natives, f);
    if Capture(f, true) in lam.captures {
      PureSite(p, root, order, natives, b);
      OwnCaught(root, b, lam, f);
      assert OwnSound(root, f, lam.id);
      var init :| Occ(root, SiteOf(f, init)) > 0 && init.Lambda? && init.id == lam.id;
      assert LambdaSound(root, f, init) && LambdaSound(root, b, lam);
      SiteCounted(root, f, init);
      OwnCallsItself(p, root, order, natives, f, init);
      assert false;
    }
  }

  lemma OwnCallsItself(p: Pass, root: Hir, order: seq<Binding>, natives: map<Binding, nat>, f: Binding, init: Hir)
    requires ProgramSound(p, root, order, natives) && (f, init) in Sites(root) && init.Lambda?
    requires f in Callees(init.body)
    requires Occ(root, Role.Bound(f)) > 0
    ensures !Callable(p.facts, Elements(order), f)
  {
    hide Occ, Sites, EffectFree, NamesSound, Callees;
    if f in natives { NativeFacts(p, root, order, natives, f); }
    if !p.facts.info(f).primitive {
      var j :| 0 <= j < |Sites(root)| && Sites(root)[j] == (f, init);
      assert BodyCalls(Sites(root), f, f);
      RecursiveIsNeverPure(p.facts, Sites(root), order, f);
    }
  }

  lemma OwnCaught(root: Hir, b: Binding, lam: Hir, f: Binding)
    requires lam.Lambda? && Occ(root, SiteOf(b, lam)) > 0 && Capture(f, true) in lam.captures
    ensures Occ(root, Own(f, lam.id)) > 0
  {
    hide Occ;
    assert Occ(lam, Own(f, lam.id)) > 0 by { CatchesOwn(lam, f); }
    SiteIsInside(root, b, lam, Own(f, lam.id));
  }

  lemma CatchesOwn(lam: Hir, f: Binding)
    requires lam.Lambda? && Capture(f, true) in lam.captures
    ensures Occ(lam, Own(f, lam.id)) > 0
  {
    var i :| 0 <= i < |lam.captures| && lam.captures[i] == Capture(f, true);
    OwnAmong(lam.id, lam.captures, i);
  }

  lemma {:induction false} OwnAmong(id: nat, cs: seq<Capture>, i: nat)
    requires i < |cs| && cs[i].recursive
    ensures Catches(id, cs, Own(cs[i].binding, id)) > 0
    decreases |cs|
  {
    if i > 0 { OwnAmong(id, cs[1..], i - 1); }
  }

  lemma RankIsUnique(f: Facts, sites: seq<Site>, order: seq<Binding>, i: nat)
    requires Ranked(f, sites, order) && i < |order|
    ensures order[i] in Elements(order) && RankOf(order, order[i]) == i
  {
    assert order[i] in Elements(order);
    forall a, b | 0 <= a < b < |order| ensures order[a] != order[b] {
      assert RankedAt(f, sites, order, b);
      assert order[..b][a] == order[a];
    }
  }

  ghost function RealmOf(p: Pass, root: Hir, order: seq<Binding>, natives: map<Binding, nat>, plan: Option<Plan>,
          host: Host): Realm
    requires Ranked(p.facts, Sites(root), order)
  {
    Realm(RulesOf(p, root, order, natives, plan), Ctx(CodeOf(root), host, false), order)
  }

  ghost function DuoOf(p: Pass, root: Hir, order: seq<Binding>, natives: map<Binding, nat>, plan: Option<Plan>,
          host: Host, extra: nat): Duo
    requires Ranked(p.facts, Sites(root), order)
  {
    Duo(RealmOf(p, root, order, natives, plan, host), Ctx(CodeOf(Strip(p, root)), host, false), extra)
  }

  /** What is asked of the host: it keeps runs sane, does what signals and declarations say, and ignores addresses. */
  ghost predicate HostFit(k: Rules, host: Host) {
    HostSane(k, host) && SignalsSound(k, host) && HostUniform(host)
  }

  /** The scope a program starts in: its primitives. */
  ghost function StartScope(natives: map<Binding, nat>): Scope {
    Scope(natives.Keys, natives.Keys)
  }

  /**
    Every function a dropped initializer calls is bound where it runs, and so is all
    that one calls: by an enclosing scope, or an earlier sibling.
  */
  ghost predicate BoundFirst(p: Pass, root: Hir, order: seq<Binding>, natives: map<Binding, nat>, plan: Plan)
    requires Ranked(p.facts, Sites(root), order)
  {
    plan.followed <= Elements(order) && Scoped(RulesOf(p, root, order, natives, Some(plan)), StartScope(natives), root)
  }

  ghost predicate Planned(p: Pass, root: Hir, order: seq<Binding>, natives: map<Binding, nat>, plan: Option<Plan>)
    requires Ranked(p.facts, Sites(root), order)
  {
    plan.Some? ==> BoundFirst(p, root, order, natives, plan.value)
  }

  lemma PlanIsOk(p: Pass, root: Hir, order: seq<Binding>, natives: map<Binding, nat>, plan: Option<Plan>)
    requires ProgramSound(p, root, order, natives) && Planned(p, root, order, natives, plan)
    ensures PlanOk(RulesOf(p, root, order, natives, plan))
    ensures plan.Some? ==> Sure(RulesOf(p, root, order, natives, plan), StartScope(natives))
  {
    hide Occ, Sites, EffectFree, LambdaSound, OwnSound, NamesSound, Trust, Strip, Scoped;
    var k := RulesOf(p, root, order, natives, plan);
    forall b | Followed(k, b) || b in natives ensures b in k.trusted { TrustIs(p, root, order, natives, b); }
  }

  lemma RealmIsOk(p: Pass, root: Hir, order: seq<Binding>, natives: map<Binding, nat>, plan: Option<Plan>, host: Host)
    requires ProgramSound(p, root, order, natives) && Planned(p, root, order, natives, plan)
    requires HostFit(RulesOf(p, root, order, natives, plan), host)
    ensures RealmOk(RealmOf(p, root, order, natives, plan, host)) && Obeys(RulesOf(p, root, order, natives, plan), root)
    ensures forall id :: TreeCoded(RulesOf(p, root, order, natives, plan), root, id)
  {
    hide Occ, Sites, EffectFree, OwnSound, Trust, Strip, NamesSound, CodeOf, Obeys, HostSane, SignalsSound, HostUniform,
         PureFn, FnOk, LambdaSound,
         Scoped, PlanOk, Sure;
    var m := RealmOf(p, root, order, natives, plan, host);
    var k := m.k;
    RulesSound(p, root, order, natives, plan);
    ProgramObeys(k, root);
    PlanIsOk(p, root, order, natives, plan);
    forall id ensures TreeCoded(k, root, id) { CodeIsStripped(k, root, id); }
    forall i | 0 <= i < |order| ensures PureFn(k, m.c, order, i) {
      PureFunctionIsReady(p, root, order, natives, plan, m.c, i);
    }
    forall b | p.facts.info(b).primitive && DeclaredPure(p.facts, b) ensures b in k.trusted && k.trusted[b].Builtin? {
      TrustIs(p, root, order, natives, b);
    }
    CodeKeys(k, root);
    forall id | id in m.c.code ensures FnScoped(k, id, m.c.code[id]) {
      if plan.Some? { CodeIsScoped(k, StartScope(natives), root, id); }
    }
  }

  lemma DuoIsPaired(p: Pass, root: Hir, order: seq<Binding>, natives: map<Binding, nat>, plan: Option<Plan>, host: Host,
          extra: nat)
    requires ProgramSound(p, root, order, natives) && Planned(p, root, order, natives, plan)
    requires extra == 0 || extra > |order|
    requires HostFit(RulesOf(p, root, order, natives, plan), host)
    ensures Paired(DuoOf(p, root, order, natives, plan, host, extra))
    ensures Obeys(RulesOf(p, root, order, natives, plan), root)
  {
    hide NamesSound, LambdaSound, OwnSound, NativesSound, Ranked, Elements, Planned, Strip, CodeOf, Obeys, HostSane,
         SignalsSound, HostUniform,
         RealmOk, TreeCoded, RulesOf, StripFn;
    RealmIsOk(p, root, order, natives, plan, host);
    CodeKeys(RulesOf(p, root, order, natives, plan), root);
    RulesPass(p, root, order, natives, plan);
  }

  lemma RulesPass(p: Pass, root: Hir, order: seq<Binding>, natives: map<Binding, nat>, plan: Option<Plan>)
    requires Ranked(p.facts, Sites(root), order)
    ensures RulesOf(p, root, order, natives, plan).pass == p && RulesOf(p, root, order, natives, plan).plan == plan
  {}

  lemma CodeKeys(k: Rules, root: Hir)
    requires forall id :: TreeCoded(k, root, id)
    ensures CodeOf(Strip(k.pass, root)).Keys == CodeOf(root).Keys
    ensures forall id :: id in CodeOf(root) ==>
            FnOk(k, id, CodeOf(root)[id]) && CodeOf(Strip(k.pass, root))[id] == StripFn(k.pass, CodeOf(root)[id])
  {
    hide CodeOf, Strip, FnOk, StripFn;
    forall id ensures id in CodeOf(Strip(k.pass, root)) <==> id in CodeOf(root) { assert TreeCoded(k, root, id); }
    forall id | id in CodeOf(root)
      ensures FnOk(k, id, CodeOf(root)[id]) && CodeOf(Strip(k.pass, root))[id] == StripFn(k.pass, CodeOf(root)[id])
    {
      assert TreeCoded(k, root, id);
    }
  }

  // ----- the theorems --------------------------------------------------------------------------------------

  ghost function Original(root: Hir, host: Host, n: nat, st: State): Res {
    Eval(Ctx(CodeOf(root), host, false), n, root, st)
  }

  predicate Completes(r: Res) {
    !r.out.Fault? && !r.out.Timeout?
  }

  /**
    The same outcome in the same world, up to where the objects made since are: one map
    takes each object of the stripped run to the one it stands for, and leaves those
    that were there before in their place.
  */
  ghost predicate SameResult(st: State, r: Res, q: Res) {
    exists m: Moves :: Wider(Still(|st.world.objects|), m) && MovedOut(m, r.out, q.out)
        && MovedWorld(m, r.st.world, q.st.world) && MovedDyn(m, r.st.dyn, q.st.dyn)
  }

  /** Where a run may start: a sane state that has every object it names, and, under a plan, the primitives. */
  ghost predicate StartFit(k: Rules, natives: map<Binding, nat>, o: Owner, st: State) {
    && SaneState(k, o, st) && GroundedState(st)
    && (k.plan.Some? ==> forall b :: b in natives ==> b in st.frame && st.frame[b] == Plain(Native(natives[b])))
  }

  /** Every run of a sound program that completes, completes the same once dead bindings are gone. */
  lemma StrippingKeepsResults(p: Pass, root: Hir, order: seq<Binding>, natives: map<Binding, nat>, host: Host, o: Owner,
          n: nat, st: State)
    requires ProgramSound(p, root, order, natives) && HostFit(RulesOf(p, root, order, natives, None), host)
    requires StartFit(RulesOf(p, root, order, natives, None), natives, o, st)
    ensures Completes(Original(root, host, n, st)) ==>
            SameResult(st, Original(root, host, n, st), Original(Strip(p, root), host, n, st))
  {
    hide ProgramSound, HostFit, StartFit, Eval, Strip, CodeOf, RulesOf, SameResult;
    Started(p, root, order, natives, None, host, o, 0, n, st);
  }

  /** A run of the stripped program that completes is one the original has, or the original faults. */
  lemma StrippingAddsNoResults(p: Pass, root: Hir, order: seq<Binding>, natives: map<Binding, nat>, host: Host,
          o: Owner, n: nat, st: State)
    requires ProgramSound(p, root, order, natives) && HostFit(RulesOf(p, root, order, natives, None), host)
    requires StartFit(RulesOf(p, root, order, natives, None), natives, o, st)
    ensures !Original(Strip(p, root), host, n, st).out.Timeout? ==>
              var r := Original(root, host, n + |order| + 1, st);
              r.out.Fault? || SameResult(st, r, Original(Strip(p, root), host, n, st))
  {
    hide ProgramSound, HostFit, StartFit, Eval, Strip, CodeOf, RulesOf, SameResult;
    Started(p, root, order, natives, None, host, o, |order| + 1, n, st);
  }

  /**
    Where every dropped call finds its callees bound, the two programs do the same,
    faults included: each run of the original is one of the stripped program, and each
    run of the stripped program is one of the original, given the steps of the dropped
    calls.
  */
  lemma StrippingIsExact(p: Pass, root: Hir, order: seq<Binding>, natives: map<Binding, nat>, plan: Plan, host: Host,
          o: Owner, n: nat, st: State)
    requires ProgramSound(p, root, order, natives) && BoundFirst(p, root, order, natives, plan)
    requires HostFit(RulesOf(p, root, order, natives, Some(plan)), host)
    requires StartFit(RulesOf(p, root, order, natives, Some(plan)), natives, o, st)
    ensures !Original(root, host, n, st).out.Timeout? ==>
            SameResult(st, Original(root, host, n, st), Original(Strip(p, root), host, n, st))
    ensures !Original(Strip(p, root), host, n, st).out.Timeout? ==>
              SameResult(st, Original(root, host, n + |order| + 1, st), Original(Strip(p, root), host, n, st))
  {
    hide ProgramSound, BoundFirst, HostFit, StartFit, Eval, Strip, CodeOf, RulesOf, SameResult;
    Started(p, root, order, natives, Some(plan), host, o, 0, n, st);
    Started(p, root, order, natives, Some(plan), host, o, |order| + 1, n, st);
  }

  lemma Started(p: Pass, root: Hir, order: seq<Binding>, natives: map<Binding, nat>, plan: Option<Plan>, host: Host,
          o: Owner, extra: nat, n: nat, st: State)
    requires ProgramSound(p, root, order, natives) && Planned(p, root, order, natives, plan)
    requires extra == 0 || extra > |order|
    requires HostFit(RulesOf(p, root, order, natives, plan), host)
    requires StartFit(RulesOf(p, root, order, natives, plan), natives, o, st)
    ensures var r, q := Original(root, host, n + extra, st), Original(Strip(p, root), host, n, st);
            || (plan.None? && r.out.Fault?) || (if extra > 0 then q.out.Timeout? else r.out.Timeout?)
            || SameResult(st, r, q)
  {
    hide NamesSound, LambdaSound, OwnSound, NativesSound, Ranked, Elements, Eval, Strip, CodeOf, RulesOf, Paired, Obeys,
         Scoped, HostFit, At, Rel,
         StartScope, MovedOut, SaneState, SameResult, Wider, Still;
    var u := DuoOf(p, root, order, natives, plan, host, extra);
    DuoIsPaired(p, root, order, natives, plan, host, extra);
    RulesPass(p, root, order, natives, plan);
    StillRel(u.m.k, o, st) by { FrameOf(u.m.k, o, st); }
    var sc := StartScope(natives);
    StartAt(p, root, order, natives, plan, host, o, st);
    var m := EvalStrips(u, o, sc, Still(|st.world.objects|), n, root, st, st) by {
      BothFrom(u, o, sc, Still(|st.world.objects|), st, st);
    }
    var r, q := Left(u, n, root, st), Right(u, n, root, st);
    if !Lost(u, r.out, q.out) { Ended(u, m, st, r, q); }
  }

  lemma StartAt(p: Pass, root: Hir, order: seq<Binding>, natives: map<Binding, nat>, plan: Option<Plan>, host: Host,
          o: Owner, st: State)
    requires ProgramSound(p, root, order, natives) && Planned(p, root, order, natives, plan)
    requires HostFit(RulesOf(p, root, order, natives, plan), host)
    requires StartFit(RulesOf(p, root, order, natives, plan), natives, o, st)
    ensures At(RealmOf(p, root, order, natives, plan, host), o, StartScope(natives), st)
  {
    hide Occ, Sites, EffectFree, LambdaSound, OwnSound, NamesSound, Trust, Strip, Scoped, CodeOf, HostFit, RealmOk,
         SaneState, GroundedState, Obeys, TreeCoded;
    RealmIsOk(p, root, order, natives, plan, host);
    var k := RulesOf(p, root, order, natives, plan);
    if plan.Some? {
      forall b | b in natives ensures b in k.trusted && SlotReady(k, o.ready, b, st.frame[b]) {
        TrustIs(p, root, order, natives, b);
      }
    }
  }

  lemma Ended(u: Duo, m: Moves, st: State, r: Res, q: Res)
    requires Follows(u, m, r, q) && !Lost(u, r.out, q.out) && Wider(Still(|st.world.objects|), m)
    ensures SameResult(st, r, q)
  {
    hide MovedOut, MovedWorld, MovedDyn, MovedFrame, Wider;
  }

  // ----- the pass ------------------------------------------------------------------------------------------

  /** Every name the stripped program still reads, captures or writes is still bound there, if the program binds it. */
  ghost predicate NoneDangles(p: Pass, root: Hir) {
    NamesSound(p, root) ==>
      forall x :: Introduces(root, x) && Mentions(Strip(p, root), x) ==> Introduces(Strip(p, root), x)
  }

  predicate Mentions(e: Hir, x: Binding) {
    Occ(e, Use(x)) > 0 || Occ(e, Caught(x)) > 0 || Occ(e, Target(x)) > 0
  }

  /** Completed runs are kept, and none is added but where the original faults. */
  ghost predicate ResultsKept(p: Pass, root: Hir, order: seq<Binding>, natives: map<Binding, nat>, host: Host, o: Owner,
          n: nat, st: State)
    requires Ranked(p.facts, Sites(root), order)
  {
    ProgramSound(p, root, order, natives) && HostFit(RulesOf(p, root, order, natives, None), host)
    && StartFit(RulesOf(p, root, order, natives, None), natives, o, st) ==>
      var q := Original(Strip(p, root), host, n, st);
      && (Completes(Original(root, host, n, st)) ==> SameResult(st, Original(root, host, n, st), q))
      && (!q.out.Timeout? ==> var r := Original(root, host, n + |order| + 1, st); r.out.Fault? || SameResult(st, r, q))
  }

  /** The pass: the reads, then the pure functions, then the walk that drops. */
  method EliminateDeadBindings(f: Facts, root: Hir) returns (stripped: Hir, ghost order: seq<Binding>)
    ensures Ranked(f, Sites(root), order)
    ensures var p := Pass(f, Uses(root), Elements(order));
            && stripped == Strip(p, root) && NoneDangles(p, root)
            && (SignalsStay(p) ==> NoneDead(p, stripped))
            && (forall b :: b in p.pure <==> InertFunction(f, Sites(root), p.pure, b))
            && forall natives, host, o, n, st :: ResultsKept(p, root, order, natives, host, o, n, st)
  {
    hide NamesSound, Strip, Ranked, Original, SameResult, HostFit, StartFit, RulesOf, ProgramSound, Uses, Occ,
         SignalsStay, NoneDead, InertFunction, Sites, Admissible;
    var used := Uses(root);
    var pure;
    pure, order := PureFunctions(f, Sites(root));
    stripped := Strip(Pass(f, used, pure), root);
    ghost var p := Pass(f, Uses(root), Elements(order));
    DanglesNowhere(p, root);
    PureExactly(f, Sites(root), order);
    if SignalsStay(p) { NoDeadSiteIsLeft(p, root); }
    forall natives, host, o, n, st ensures ResultsKept(p, root, order, natives, host, o, n, st) {
      KeepsResults(p, root, order, natives, host, o, n, st);
    }
  }

  lemma DanglesNowhere(p: Pass, root: Hir)
    ensures NoneDangles(p, root)
  {
    hide Occ, Strip, NamesSound, Introduces;
    if NamesSound(p, root) {
      forall x | Introduces(root, x) && Mentions(Strip(p, root), x) ensures Introduces(Strip(p, root), x) {
        NothingDangles(p, root, x);
      }
    }
  }

  lemma KeepsResults(p: Pass, root: Hir, order: seq<Binding>, natives: map<Binding, nat>, host: Host, o: Owner, n: nat,
          st: State)
    requires Ranked(p.facts, Sites(root), order)
    ensures ResultsKept(p, root, order, natives, host, o, n, st)
  {
    hide ProgramSound, Strip, Original, SameResult, HostFit, StartFit, RulesOf;
    if ProgramSound(p, root, order, natives) && HostFit(RulesOf(p, root, order, natives, None), host)
       && StartFit(RulesOf(p, root, order, natives, None), natives, o, st) {
      StrippingKeepsResults(p, root, order, natives, host, o, n, st);
      StrippingAddsNoResults(p, root, order, natives, host, o, n, st);
    }
  }
}
