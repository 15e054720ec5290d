/**
  What dead binding elimination reads of a whole program, and what it does to the
  program's code objects: the def-use walk records exactly the reads, stripping a tree
  strips its code objects, and a scoped tree has scoped code objects.
*/
module DeadProgram {
  import opened HirSyntax
  import opened Dead
  import opened DeadNames
  import opened DeadSites
  import opened DeadBound
  import opened DeadStore
  import opened DeadRealm
  import opened DeadSim

  // ----- the reads the def-use walk records ----------------------------------------------------------------

  function Uses(e: Hir): set<Binding>
    decreases e
  {
    match e
    case Lit(_) => {}
    case Poison => {}
    case Var(b) => {b}
    case Let(_, bs, body) => UsesBinds(bs) + Uses(body)
    case Lambda(_, _, cs, body) => CapturedNames(cs) + Uses(body)
    case If(c, t, f) => Uses(c) + Uses(t) + Uses(f)
    case Cond(cl) => UsesClauses(cl)
    case Begin(es) => UsesAll(es)
    case Block(_, es) => UsesAll(es)
    case Break(_, v) => Uses(v)
    case Call(args, _, f, _) => Uses(f) + UsesAll(args)
    case While(c, body) => Uses(c) + Uses(body)
    case Loop(bs, body) => UsesBinds(bs) + Uses(body)
    case Match(v, arms) => Uses(v) + UsesArms(arms)
    case Logic(_, es) => UsesAll(es)
    case Parameterize(ps, body) => UsesAll(ps) + Uses(body)
    case Strict(op, args) => (if op.SetCell? then {op.target} else {}) + UsesAll(args)
    case Return(v) => Uses(v)
  }

  /** A capture reads the outer name, also when it is the lambda's own. */
  function CapturedNames(cs: seq<Capture>): set<Binding> {
    if cs == [] then {} else {cs[0].binding} + CapturedNames(cs[1..])
  }

  function UsesAll(es: Hirs): set<Binding>
    decreases es
  {
    match es
    case HNil => {}
    case HCons(e, rest) => Uses(e) + UsesAll(rest)
  }

  function UsesBinds(bs: Binds): set<Binding>
    decreases bs
  {
    match bs
    case BNil => {}
    case BCons(_, e, rest) => Uses(e) + UsesBinds(rest)
  }

  function UsesClauses(cl: Clauses): set<Binding>
    decreases cl
  {
    match cl
    case NoElse => {}
    case Else(e) => Uses(e)
    case Clause(c, b, rest) => Uses(c) + Uses(b) + UsesClauses(rest)
  }

  function UsesArms(arms: Arms): set<Binding>
    decreases arms
  {
    match arms
    case ANil => {}
    case ACons(_, g, b, rest) => (if g.Some? then Uses(g.value) else {}) + Uses(b) + UsesArms(rest)
  }

  predicate TreeRead(e: Hir, x: Binding) {
    x in Uses(e) <==> Occ(e, Use(x)) > 0 || Occ(e, Caught(x)) > 0
  }

  predicate AllRead(es: Hirs, x: Binding) {
    x in UsesAll(es) <==> AllOcc(es, Use(x)) > 0 || AllOcc(es, Caught(x)) > 0
  }

  predicate LetRead(bs: Binds, x: Binding) {
    x in UsesBinds(bs) <==> LetOcc(bs, Use(x)) > 0 || LetOcc(bs, Caught(x)) > 0
  }

  predicate LoopRead(bs: Binds, x: Binding) {
    x in UsesBinds(bs) <==> LoopOcc(bs, Use(x)) > 0 || LoopOcc(bs, Caught(x)) > 0
  }

  predicate ClausesRead(cl: Clauses, x: Binding) {
    x in UsesClauses(cl) <==> ClausesOcc(cl, Use(x)) > 0 || ClausesOcc(cl, Caught(x)) > 0
  }

  predicate ArmsRead(arms: Arms, x: Binding) {
    x in UsesArms(arms) <==> ArmsOcc(arms, Use(x)) > 0 || ArmsOcc(arms, Caught(x)) > 0
  }

  /** The walk records exactly the names that are read or captured. */
  lemma {:induction false} UsesAreReads(e: Hir, x: Binding)
    ensures TreeRead(e, x)
    decreases e, 1
  {
    hide Params, Catches;
    match e
    case Lit(_) =>
    case Poison =>
    case Var(_) =>
    case Let(_, _, _) => UsesAreReadsBinder(e, x);
    case Lambda(_, _, _, body) =>
      ParamsAreNoReads(e.params, x);
      CapturesAreReads(e.id, e.captures, x);
      UsesAreReads(body, x);
    case If(_, _, _) => UsesAreReadsBranch(e, x);
    case Cond(_) => UsesAreReadsSequence(e, x);
    case Begin(_) => UsesAreReadsSequence(e, x);
    case Block(_, _) => UsesAreReadsSequence(e, x);
    case Break(_, v) => UsesAreReads(v, x);
    case Call(_, _, _, _) => UsesAreReadsCallee(e, x);
    case While(_, _) => UsesAreReadsBranch(e, x);
    case Loop(_, _) => UsesAreReadsBinder(e, x);
    case Match(_, _) => UsesAreReadsCallee(e, x);
    case Logic(_, _) => UsesAreReadsSequence(e, x);
    case Parameterize(_, _) => UsesAreReadsBinder(e, x);
    case Strict(_, _) => UsesAreReadsSequence(e, x);
    case Return(v) => UsesAreReads(v, x);
  }

  lemma {:induction false} UsesAreReadsBranch(e: Hir, x: Binding)
    requires e.If? || e.While?
    ensures TreeRead(e, x)
    decreases e, 0
  {
    hide Params, Catches;
    match e
    case If(c, t, f) =>
      UsesAreReads(c, x);
      UsesAreReads(t, x);
      UsesAreReads(f, x);
    case While(c, body) =>
      UsesAreReads(c, x);
      UsesAreReads(body, x);
  }

  lemma {:induction false} UsesAreReadsCallee(e: Hir, x: Binding)
    requires e.Call? || e.Match?
    ensures TreeRead(e, x)
    decreases e, 0
  {
    hide Params, Catches;
    match e
    case Call(args, _, f, _) =>
      AllReads(args, x);
      UsesAreReads(f, x);
    case Match(v, arms) =>
      UsesAreReads(v, x);
      ArmsReads(arms, x);
  }

  lemma {:induction false} UsesAreReadsBinder(e: Hir, x: Binding)
    requires e.Let? || e.Loop? || e.Parameterize?
    ensures TreeRead(e, x)
    decreases e, 0
  {
    hide Params, Catches;
    match e
    case Let(_, bs, body) =>
      LetReads(bs, x);
      UsesAreReads(body, x);
    case Loop(bs, body) =>
      LoopReads(bs, x);
      UsesAreReads(body, x);
    case Parameterize(ps, body) =>
      AllReads(ps, x);
      UsesAreReads(body, x);
  }

  lemma {:induction false} UsesAreReadsSequence(e: Hir, x: Binding)
    requires e.Cond? || e.Begin? || e.Block? || e.Logic? || e.Strict?
    ensures TreeRead(e, x)
    decreases e, 0
  {
    hide Params, Catches;
    match e
    case Cond(cl) => ClausesReads(cl, x);
    case Begin(es) => AllReads(es, x);
    case Block(_, es) => AllReads(es, x);
    case Logic(_, es) => AllReads(es, x);
    case Strict(op, args) =>
      OpReads(op, args, x);
      AllReads(args, x);
  }

  lemma {:induction false} AllReads(es: Hirs, x: Binding)
    ensures AllRead(es, x)
    decreases es, 0
  {
    hide Params, Catches;
    if es.HCons? {
      UsesAreReads(es.head, x);
      AllReads(es.tail, x);
    }
  }

  lemma {:induction false} LetReads(bs: Binds, x: Binding)
    ensures LetRead(bs, x)
    decreases bs, 0
  {
    hide Params, Catches;
    if bs.BCons? {
      UsesAreReads(bs.init, x);
      LetReads(bs.rest, x);
    }
  }

  lemma {:induction false} LoopReads(bs: Binds, x: Binding)
    ensures LoopRead(bs, x)
    decreases bs, 0
  {
    hide Params, Catches;
    if bs.BCons? {
      UsesAreReads(bs.init, x);
      LoopReads(bs.rest, x);
    }
  }

  lemma {:induction false} ClausesReads(cl: Clauses, x: Binding)
    ensures ClausesRead(cl, x)
    decreases cl, 0
  {
    hide Params, Catches;
    match cl
    case NoElse =>
    case Else(e) => UsesAreReads(e, x);
    case Clause(c, body, rest) =>
      UsesAreReads(c, x);
      UsesAreReads(body, x);
      ClausesReads(rest, x);
  }

  lemma {:induction false} ArmsReads(arms: Arms, x: Binding)
    ensures ArmsRead(arms, x)
    decreases arms, 0
  {
    hide Params, Catches;
    if arms.ACons? {
      ParamsAreNoReads(arms.pattern.vars, x);
      if arms.guard.Some? { UsesAreReads(arms.guard.value, x); }
      UsesAreReads(arms.body, x);
      ArmsReads(arms.rest, x);
    }
  }

  lemma {:induction false} ParamsAreNoReads(bs: seq<Binding>, x: Binding)
    ensures Params(bs, Use(x)) == 0 && Params(bs, Caught(x)) == 0
  {
    if bs != [] { ParamsAreNoReads(bs[1..], x); }
  }

  lemma {:induction false} CapturesAreReads(id: nat, cs: seq<Capture>, x: Binding)
    ensures Catches(id, cs, Use(x)) == 0 && (Catches(id, cs, Caught(x)) > 0 <==> x in CapturedNames(cs))
    decreases |cs|
  {
    if cs != [] { CapturesAreReads(id, cs[1..], x); }
  }

  lemma OpReads(op: Op, args: Hirs, x: Binding)
    ensures OpOcc(op, args, Caught(x)) == 0 && (OpOcc(op, args, Use(x)) > 0 <==> op.SetCell? && op.target == x)
  {
    if op.Destructure? { ParamsAreNoReads(op.pattern.vars, x); }
  }

  // ----- the code table ------------------------------------------------------------------------------------

  /** The tree's code objects obey the rules, and the stripped tree's are the same ones stripped. */
  ghost predicate TreeCoded(k: Rules, e: Hir, id: nat) {
    var c, d := CodeOf(e), CodeOf(Strip(k.pass, e));
    (id in c <==> id in d) && (id in c ==> FnOk(k, id, c[id]) && d[id] == StripFn(k.pass, c[id]))
  }

  ghost predicate AllCoded(k: Rules, es: Hirs, id: nat) {
    var c, d := CodeOfAll(es), CodeOfAll(StripAll(k.pass, es));
    (id in c <==> id in d) && (id in c ==> FnOk(k, id, c[id]) && d[id] == StripFn(k.pass, c[id]))
  }

  ghost predicate LetCoded(k: Rules, bs: Binds, id: nat) {
    var c, d := CodeOfBinds(bs), CodeOfBinds(StripLet(k.pass, bs));
    (id in c <==> id in d) && (id in c ==> FnOk(k, id, c[id]) && d[id] == StripFn(k.pass, c[id]))
  }

  ghost predicate LoopCoded(k: Rules, bs: Binds, id: nat) {
    var c, d := CodeOfBinds(bs), CodeOfBinds(StripLoop(k.pass, bs));
    (id in c <==> id in d) && (id in c ==> FnOk(k, id, c[id]) && d[id] == StripFn(k.pass, c[id]))
  }

  ghost predicate ClausesCoded(k: Rules, cl: Clauses, id: nat) {
    var c, d := CodeOfClauses(cl), CodeOfClauses(StripClauses(k.pass, cl));
    (id in c <==> id in d) && (id in c ==> FnOk(k, id, c[id]) && d[id] == StripFn(k.pass, c[id]))
  }

  ghost predicate ArmsCoded(k: Rules, arms: Arms, id: nat) {
    var c, d := CodeOfArms(arms), CodeOfArms(StripArms(k.pass, arms));
    (id in c <==> id in d) && (id in c ==> FnOk(k, id, c[id]) && d[id] == StripFn(k.pass, c[id]))
  }

  lemma {:induction false} CodeIsStripped(k: Rules, e: Hir, id: nat)
    requires Obeys(k, e)
    ensures TreeCoded(k, e, id)
    decreases e, 1
  {
    hide NamesOk, CapturesOk, OpOk, Gone, Eliminable, DropOk, SiteOk, Harmless;
    match e
    case Lit(_) =>
    case Poison =>
    case Var(_) =>
    case Let(_, _, _) => CodeIsStrippedBinder(k, e, id);
    case Lambda(_, _, _, body) => CodeIsStripped(k, body, id);
    case If(_, _, _) => CodeIsStrippedBranch(k, e, id);
    case Cond(_) => CodeIsStrippedSequence(k, e, id);
    case Begin(_) => CodeIsStrippedSequence(k, e, id);
    case Block(_, _) => CodeIsStrippedSequence(k, e, id);
    case Break(_, v) => CodeIsStripped(k, v, id);
    case Call(_, _, _, _) => CodeIsStrippedCallee(k, e, id);
    case While(_, _) => CodeIsStrippedBranch(k, e, id);
    case Loop(_, _) => CodeIsStrippedBinder(k, e, id);
    case Match(_, _) => CodeIsStrippedCallee(k, e, id);
    case Logic(_, _) => CodeIsStrippedSequence(k, e, id);
    case Parameterize(_, _) => CodeIsStrippedBinder(k, e, id);
    case Strict(_, _) => CodeIsStrippedSequence(k, e, id);
    case Return(v) => CodeIsStripped(k, v, id);
  }

  lemma {:induction false} CodeIsStrippedBranch(k: Rules, e: Hir, id: nat)
    requires Obeys(k, e) && (e.If? || e.While?)
    ensures TreeCoded(k, e, id)
    decreases e, 0
  {
    hide NamesOk, CapturesOk, OpOk, Gone, Eliminable, DropOk, SiteOk, Harmless;
    match e
    case If(c, t, f) =>
      CodeIsStripped(k, c, id);
      CodeIsStripped(k, t, id);
      CodeIsStripped(k, f, id);
    case While(c, body) =>
      CodeIsStripped(k, c, id);
      CodeIsStripped(k, body, id);
  }

  lemma {:induction false} CodeIsStrippedCallee(k: Rules, e: Hir, id: nat)
    requires Obeys(k, e) && (e.Call? || e.Match?)
    ensures TreeCoded(k, e, id)
    decreases e, 0
  {
    hide NamesOk, CapturesOk, OpOk, Gone, Eliminable, DropOk, SiteOk, Harmless;
    match e
    case Call(args, _, f, _) =>
      AllStripped(k, args, id);
      CodeIsStripped(k, f, id);
    case Match(v, arms) =>
      CodeIsStripped(k, v, id);
      ArmsStripped(k, arms, id);
  }

  lemma {:induction false} CodeIsStrippedBinder(k: Rules, e: Hir, id: nat)
    requires Obeys(k, e) && (e.Let? || e.Loop? || e.Parameterize?)
    ensures TreeCoded(k, e, id)
    decreases e, 0
  {
    hide NamesOk, CapturesOk, OpOk, Gone, Eliminable, DropOk, SiteOk, Harmless;
    match e
    case Let(_, bs, body) =>
      LetStripped(k, bs, id);
      CodeIsStripped(k, body, id);
    case Loop(bs, body) =>
      LoopStripped(k, bs, id);
      CodeIsStripped(k, body, id);
    case Parameterize(ps, body) =>
      AllStripped(k, ps, id);
      CodeIsStripped(k, body, id);
  }

  lemma {:induction false} CodeIsStrippedSequence(k: Rules, e: Hir, id: nat)
    requires Obeys(k, e) && (e.Cond? || e.Begin? || e.Block? || e.Logic? || e.Strict?)
    ensures TreeCoded(k, e, id)
    decreases e, 0
  {
    hide NamesOk, CapturesOk, OpOk, Gone, Eliminable, DropOk, SiteOk, Harmless;
    match e
    case Cond(cl) => ClausesStripped(k, cl, id);
    case Begin(es) => AllStripped(k, es, id);
    case Block(_, es) => AllStripped(k, es, id);
    case Logic(_, es) => AllStripped(k, es, id);
    case Strict(op, args) => AllStripped(k, args, id);
  }

  lemma {:induction false} AllStripped(k: Rules, es: Hirs, id: nat)
    requires ObeysAll(k, es)
    ensures AllCoded(k, es, id)
    decreases es, 0
  {
    hide NamesOk, CapturesOk, OpOk, Gone, Eliminable, DropOk, SiteOk, Harmless;
    if es.HCons? {
      CodeIsStripped(k, es.head, id);
      AllStripped(k, es.tail, id);
    }
  }

  lemma {:induction false} LetStripped(k: Rules, bs: Binds, id: nat)
    requires ObeysLet(k, bs)
    ensures LetCoded(k, bs, id)
    decreases bs, 0
  {
    hide NamesOk, CapturesOk, OpOk, Gone, Eliminable, DropOk, SiteOk, Harmless;
    if bs.BCons? {
      if Eliminable(k.pass, bs.binding, bs.init) {
        DroppedHasNoCode(k.pass, bs.binding, bs.init);
      } else {
        CodeIsStripped(k, bs.init, id);
      }
      LetStripped(k, bs.rest, id);
    }
  }

  lemma {:induction false} LoopStripped(k: Rules, bs: Binds, id: nat)
    requires ObeysLoop(k, bs)
    ensures LoopCoded(k, bs, id)
    decreases bs, 0
  {
    hide NamesOk, CapturesOk, OpOk, Gone, Eliminable, DropOk, SiteOk, Harmless;
    if bs.BCons? {
      CodeIsStripped(k, bs.init, id);
      LoopStripped(k, bs.rest, id);
    }
  }

  lemma {:induction false} ClausesStripped(k: Rules, cl: Clauses, id: nat)
    requires ObeysClauses(k, cl)
    ensures ClausesCoded(k, cl, id)
    decreases cl, 0
  {
    hide NamesOk, CapturesOk, OpOk, Gone, Eliminable, DropOk, SiteOk, Harmless;
    match cl
    case NoElse =>
    case Else(e) => CodeIsStripped(k, e, id);
    case Clause(c, body, rest) =>
      CodeIsStripped(k, c, id);
      CodeIsStripped(k, body, id);
      ClausesStripped(k, rest, id);
  }

  lemma {:induction false} ArmsStripped(k: Rules, arms: Arms, id: nat)
    requires ObeysArms(k, arms)
    ensures ArmsCoded(k, arms, id)
    decreases arms, 0
  {
    hide NamesOk, CapturesOk, OpOk, Gone, Eliminable, DropOk, SiteOk, Harmless;
    if arms.ACons? {
      if arms.guard.Some? { CodeIsStripped(k, arms.guard.value, id); }
      CodeIsStripped(k, arms.body, id);
      ArmsStripped(k, arms.rest, id);
    }
  }

  lemma DroppedHasNoCode(p: Pass, b: Binding, init: Hir)
    requires Eliminable(p, b, init)
    ensures CodeOf(init) == map[]
  {
    EffectFreeNames(p.facts, p.pure, init, b);
  }

  // ----- code objects are scoped ----------------------------------------------------------------------------

  /** What the scope counts on is trusted. */
  ghost predicate Sure(k: Rules, sc: Scope) {
    PlanOk(k) && forall b :: b in sc.bound ==> b in k.trusted
  }

  ghost predicate CodeFits(k: Rules, c: Code, id: nat) {
    id in c ==> FnScoped(k, id, c[id])
  }

  /** Every lambda of a scoped tree starts in the scope the plan gives it. */
  lemma {:induction false} CodeIsScoped(k: Rules, sc: Scope, e: Hir, id: nat)
    requires Sure(k, sc) && Scoped(k, sc, e)
    ensures CodeFits(k, CodeOf(e), id)
    decreases e, 1
  {
    hide Sure, FnScoped, Eliminable, SiteScoped, BodyScope, Opened, Heads, Boxes;
    match e
    case Lit(_) =>
    case Poison =>
    case Var(_) =>
    case Let(rec, bs, body) =>
      LetIsSure(k, rec, sc, bs);
      BindsScoped(k, if rec then Boxes(k, bs) else {}, if rec then Opened(k, sc, bs) else sc, bs, id);
      CodeIsScoped(k, BodyScope(k, rec, sc, bs), body, id);
    case Lambda(own, _, cs, body) =>
      LambdaIsSure(k, sc, own, cs, e);
      CodeIsScoped(k, EntryScope(k, own), body, id);
    case Cond(cl) => ClausesScoped(k, sc, cl, id);
    case Begin(es) => SeqScoped(k, sc, es, id);
    case Block(_, es) => SeqScoped(k, sc, es, id);
    case Break(_, v) => CodeIsScoped(k, sc, v, id);
    case Logic(_, es) => AllScoped(k, sc, es, id);
    case Strict(_, args) => AllScoped(k, sc, args, id);
    case Return(v) => CodeIsScoped(k, sc, v, id);
    case _ => CodePairIsScoped(k, sc, e, id);
  }

  lemma {:induction false} CodePairIsScoped(k: Rules, sc: Scope, e: Hir, id: nat)
    requires Sure(k, sc) && Scoped(k, sc, e) && (e.If? || e.Call? || e.While? || e.Loop? || e.Match? || e.Parameterize?)
    ensures CodeFits(k, CodeOf(e), id)
    decreases e, 0
  {
    hide Sure, FnScoped;
    match e
    case If(c, t, f) =>
      CodeIsScoped(k, sc, c, id);
      CodeIsScoped(k, sc, t, id);
      CodeIsScoped(k, sc, f, id);
    case Call(args, _, f, _) => AllScoped(k, sc, args, id); CodeIsScoped(k, sc, f, id);
    case While(c, body) => CodeIsScoped(k, sc, c, id); CodeIsScoped(k, sc, body, id);
    case Loop(bs, body) => LoopScoped(k, sc, bs, id); CodeIsScoped(k, sc, body, id);
    case Match(v, arms) => CodeIsScoped(k, sc, v, id); ArmsScoped(k, sc, arms, id);
    case Parameterize(ps, body) => AllScoped(k, sc, ps, id); CodeIsScoped(k, sc, body, id);
  }

  lemma LambdaIsSure(k: Rules, sc: Scope, own: nat, cs: seq<Capture>, e: Hir)
    requires Sure(k, sc) && Scoped(k, sc, e) && e.Lambda? && e.id == own && e.captures == cs
    ensures Sure(k, EntryScope(k, own)) && FnScoped(k, own, Fn(e.params, cs, e.body))
  {}

  lemma LetIsSure(k: Rules, rec: bool, sc: Scope, bs: Binds)
    requires Sure(k, sc)
    ensures Sure(k, BodyScope(k, rec, sc, bs)) && Sure(k, Opened(k, sc, bs))
  {
    hide Through, Heads;
    ThroughIsSure(k, sc, bs);
    ThroughIsSure(k, Opened(k, sc, bs), bs);
    HeadsFollowed(k, bs);
  }

  lemma {:induction false} ThroughIsSure(k: Rules, sc: Scope, bs: Binds)
    requires Sure(k, sc)
    ensures Sure(k, Through(k, sc, bs))
    decreases bs
  {
    hide Eliminable;
    if bs.BCons? {
      ThroughIsSure(k, if Eliminable(k.pass, bs.binding, bs.init) then sc
          else NextScope(k, sc, bs.binding, bs.init), bs.rest);
    }
  }

  lemma {:induction false} AllScoped(k: Rules, sc: Scope, es: Hirs, id: nat)
    requires Sure(k, sc) && ScopedAll(k, sc, es)
    ensures CodeFits(k, CodeOfAll(es), id)
    decreases es, 0
  {
    hide Sure, FnScoped;
    if es.HCons? {
      CodeIsScoped(k, sc, es.head, id);
      AllScoped(k, sc, es.tail, id);
    }
  }

  lemma {:induction false} SeqScoped(k: Rules, sc: Scope, es: Hirs, id: nat)
    requires Sure(k, sc) && ScopedSeq(k, sc, es)
    ensures CodeFits(k, CodeOfAll(es), id)
    decreases es, 0
  {
    hide FnScoped;
    if es.HCons? {
      CodeIsScoped(k, sc, es.head, id);
      SeqScoped(k, AfterItem(k, sc, es.head), es.tail, id);
    }
  }

  lemma {:induction false} BindsScoped(k: Rules, late: set<Binding>, sc: Scope, bs: Binds, id: nat)
    requires Sure(k, sc) && ScopedBinds(k, late, sc, bs)
    ensures CodeFits(k, CodeOfBinds(bs), id)
    decreases bs, 0
  {
    hide FnScoped, Eliminable, SiteScoped;
    if bs.BCons? {
      if Eliminable(k.pass, bs.binding, bs.init) {
        DroppedHasNoCode(k.pass, bs.binding, bs.init);
        BindsScoped(k, late, sc, bs.rest, id);
      } else {
        CodeIsScoped(k, sc, bs.init, id);
        BindsScoped(k, late, NextScope(k, sc, bs.binding, bs.init), bs.rest, id);
      }
    }
  }

  lemma {:induction false} LoopScoped(k: Rules, sc: Scope, bs: Binds, id: nat)
    requires Sure(k, sc) && ScopedLoop(k, sc, bs)
    ensures CodeFits(k, CodeOfBinds(bs), id)
    decreases bs, 0
  {
    hide Sure, FnScoped;
    if bs.BCons? {
      CodeIsScoped(k, sc, bs.init, id);
      LoopScoped(k, sc, bs.rest, id);
    }
  }

  lemma {:induction false} ClausesScoped(k: Rules, sc: Scope, cl: Clauses, id: nat)
    requires Sure(k, sc) && DeadBound.ScopedClauses(k, sc, cl)
    ensures CodeFits(k, CodeOfClauses(cl), id)
    decreases cl, 0
  {
    hide Sure, FnScoped;
    match cl
    case NoElse =>
    case Else(e) => CodeIsScoped(k, sc, e, id);
    case Clause(c, body, rest) =>
      CodeIsScoped(k, sc, c, id);
      CodeIsScoped(k, sc, body, id);
      ClausesScoped(k, sc, rest, id);
  }

  lemma {:induction false} ArmsScoped(k: Rules, sc: Scope, arms: Arms, id: nat)
    requires Sure(k, sc) && DeadBound.ScopedArms(k, sc, arms)
    ensures CodeFits(k, CodeOfArms(arms), id)
    decreases arms, 0
  {
    hide Sure, FnScoped;
    if arms.ACons? {
      if arms.guard.Some? { CodeIsScoped(k, sc, arms.guard.value, id); }
      CodeIsScoped(k, sc, arms.body, id);
      ArmsScoped(k, sc, arms.rest, id);
    }
  }
}
