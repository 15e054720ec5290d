/**
  What closing and grafting do to names.

  `Once` says a body binds each name once, at a name it has not met before.
  For such a body the closing index only grows and stays one-to-one
  (`ClosingGrows`), so closing and then grafting is one renaming
  (`GraftRenames`): every name of the body is replaced through one map, and every
  name the body binds is replaced by one that nothing else maps to.
*/
module FragmentFacts {
  import opened Options
  import opened HirSyntax
  import opened Fragment

  // ----- the forms the walk takes ----------------------------------------------------------------------------

  predicate Portable(e: Hir)
    decreases e
  {
    match e
    case Lit(d) => !d.Quoted?
    case Var(_) => true
    case Let(rec, bs, body) => !rec && PortableLet(bs) && Portable(body)
    case Call(args, _, f, _) => PortableAll(args) && Portable(f)
    case If(c, t, f) => Portable(c) && Portable(t) && Portable(f)
    case Cond(cl) => PortableClauses(cl)
    case Begin(es) => PortableAll(es)
    case Logic(_, es) => PortableAll(es)
    case Match(v, arms) => Portable(v) && PortableArms(arms)
    case Strict(op, args) => (op.Emit? || op.Intrinsic?) && PortableAll(args)
    case _ => false
  }

  predicate PortableAll(es: Hirs)
    decreases es
  {
    match es
    case HNil => true
    case HCons(e, rest) => Portable(e) && PortableAll(rest)
  }

  predicate PortableLet(bs: Binds)
    decreases bs
  {
    match bs
    case BNil => true
    case BCons(_, e, rest) => Portable(e) && PortableLet(rest)
  }

  predicate PortableClauses(cl: Clauses)
    decreases cl
  {
    match cl
    case NoElse => true
    case Else(e) => Portable(e)
    case Clause(c, b, rest) => Portable(c) && Portable(b) && PortableClauses(rest)
  }

  predicate PortableArms(arms: Arms)
    decreases arms
  {
    match arms
    case ANil => true
    case ACons(_, g, b, rest) => (g.Some? ==> Portable(g.value)) && Portable(b) && PortableArms(rest)
  }

  /** A rebuilt body is of the listed forms, whichever side rebuilt it. */
  predicate Rebuilt(e: Hir, r: Rebinder) {
    Rebind(e, r).Some? ==> Portable(e) && Portable(Rebind(e, r).value.tree)
  }

  predicate RebuiltAll(es: Hirs, r: Rebinder) {
    RebindAll(es, r).Some? ==> PortableAll(es) && PortableAll(RebindAll(es, r).value.tree)
  }

  predicate RebuiltLet(bs: Binds, r: Rebinder) {
    RebindLet(bs, r).Some? ==> PortableLet(bs) && PortableLet(RebindLet(bs, r).value.tree)
  }

  predicate RebuiltClauses(cl: Clauses, r: Rebinder) {
    RebindClauses(cl, r).Some? ==> PortableClauses(cl) && PortableClauses(RebindClauses(cl, r).value.tree)
  }

  predicate RebuiltArms(arms: Arms, r: Rebinder) {
    RebindArms(arms, r).Some? ==> PortableArms(arms) && PortableArms(RebindArms(arms, r).value.tree)
  }

  lemma {:induction false} RebuildsPortable(e: Hir, r: Rebinder)
    ensures Rebuilt(e, r)
    decreases e, 1
  {
    if Rebind(e, r).Some? {
      match e
      case Lit(_) =>
      case Var(_) =>
      case Let(_, bs, body) => RebuildsLet(bs, r); RebuildsPortable(body, RebindLet(bs, r).value.r);
      case Call(args, _, f, _) => RebuildsPortable(f, r); RebuildsAll(args, Rebind(f, r).value.r);
      case If(c, t, f) =>
        RebuildsPortable(c, r);
        var r1 := Rebind(c, r).value.r;
        RebuildsPortable(t, r1);
        RebuildsPortable(f, Rebind(t, r1).value.r);
      case Cond(cl) => RebuildsClauses(cl, r);
      case Begin(es) => RebuildsAll(es, r);
      case Logic(_, es) => RebuildsAll(es, r);
      case Match(v, arms) => RebuildsPortable(v, r); RebuildsArms(arms, Rebind(v, r).value.r);
      case Strict(_, args) => RebuildsAll(args, r);
    }
  }

  lemma {:induction false} RebuildsAll(es: Hirs, r: Rebinder)
    ensures RebuiltAll(es, r)
    decreases es, 0
  {
    if RebindAll(es, r).Some? && es.HCons? {
      RebuildsPortable(es.head, r);
      RebuildsAll(es.tail, Rebind(es.head, r).value.r);
    }
  }

  lemma {:induction false} RebuildsLet(bs: Binds, r: Rebinder)
    ensures RebuiltLet(bs, r)
    decreases bs, 0
  {
    if RebindLet(bs, r).Some? && bs.BCons? {
      RebuildsPortable(bs.init, r);
      RebuildsLet(bs.rest, Introduce(Rebind(bs.init, r).value.r, bs.binding).r);
    }
  }

  lemma {:induction false} RebuildsClauses(cl: Clauses, r: Rebinder)
    ensures RebuiltClauses(cl, r)
    decreases cl, 0
  {
    if RebindClauses(cl, r).Some? {
      match cl
      case NoElse =>
      case Else(e) => RebuildsPortable(e, r);
      case Clause(c, b, rest) =>
        RebuildsPortable(c, r);
        var r1 := Rebind(c, r).value.r;
        RebuildsPortable(b, r1);
        RebuildsClauses(rest, Rebind(b, r1).value.r);
    }
  }

  lemma {:induction false} RebuildsArms(arms: Arms, r: Rebinder)
    ensures RebuiltArms(arms, r)
    decreases arms, 0
  {
    if RebindArms(arms, r).Some? && arms.ACons? {
      var r0 := RebindVars(arms.pattern.vars, r).r;
      if arms.guard.Some? { RebuildsPortable(arms.guard.value, r0); }
      var r1 := if arms.guard.Some? then Rebind(arms.guard.value, r0).value.r else r0;
      RebuildsPortable(arms.body, r1);
      RebuildsArms(arms.rest, Rebind(arms.body, r1).value.r);
    }
  }

  /** Grafting asks nothing that can fail: it takes every body of the listed forms. */
  lemma {:induction false} GraftTakes(e: Hir, host: seq<Binding>)
    requires Portable(e)
    ensures Rebind(e, Grafting(host)).Some? && Rebind(e, Grafting(host)).value.r == Grafting(host)
    decreases e
  {
    match e
    case Lit(_) =>
    case Var(_) =>
    case Let(_, bs, body) => GraftTakesLet(bs, host); GraftTakes(body, host);
    case Call(args, _, f, _) => GraftTakesAll(args, host); GraftTakes(f, host);
    case If(c, t, f) => GraftTakes(c, host); GraftTakes(t, host); GraftTakes(f, host);
    case Cond(cl) => GraftTakesClauses(cl, host);
    case Begin(es) => GraftTakesAll(es, host);
    case Logic(_, es) => GraftTakesAll(es, host);
    case Match(v, arms) => GraftTakes(v, host); GraftTakesArms(arms, host);
    case Strict(_, args) => GraftTakesAll(args, host);
  }

  lemma {:induction false} GraftTakesAll(es: Hirs, host: seq<Binding>)
    requires PortableAll(es)
    ensures RebindAll(es, Grafting(host)).Some? && RebindAll(es, Grafting(host)).value.r == Grafting(host)
    decreases es
  {
    if es.HCons? {
      GraftTakes(es.head, host);
      GraftTakesAll(es.tail, host);
    }
  }

  lemma {:induction false} GraftTakesLet(bs: Binds, host: seq<Binding>)
    requires PortableLet(bs)
    ensures RebindLet(bs, Grafting(host)).Some? && RebindLet(bs, Grafting(host)).value.r == Grafting(host)
    decreases bs
  {
    if bs.BCons? {
      GraftTakes(bs.init, host);
      GraftTakesLet(bs.rest, host);
    }
  }

  lemma {:induction false} GraftTakesClauses(cl: Clauses, host: seq<Binding>)
    requires PortableClauses(cl)
    ensures RebindClauses(cl, Grafting(host)).Some? && RebindClauses(cl, Grafting(host)).value.r == Grafting(host)
    decreases cl
  {
    match cl
    case NoElse =>
    case Else(e) => GraftTakes(e, host);
    case Clause(c, b, rest) => GraftTakes(c, host); GraftTakes(b, host); GraftTakesClauses(rest, host);
  }

  lemma {:induction false} GraftTakesVars(vs: seq<Binding>, host: seq<Binding>)
    ensures RebindVars(vs, Grafting(host)).r == Grafting(host)
    decreases |vs|
  {
    if vs != [] { GraftTakesVars(vs[1..], host); }
  }

  lemma {:induction false} GraftTakesArms(arms: Arms, host: seq<Binding>)
    requires PortableArms(arms)
    ensures RebindArms(arms, Grafting(host)).Some? && RebindArms(arms, Grafting(host)).value.r == Grafting(host)
    decreases arms
  {
    if arms.ACons? {
      GraftTakesVars(arms.pattern.vars, host);
      if arms.guard.Some? { GraftTakes(arms.guard.value, host); }
      GraftTakes(arms.body, host);
      GraftTakesArms(arms.rest, host);
    }
  }

  // ----- names met ------------------------------------------------------------------------------------------

  function Met(e: Hir, met: set<Binding>): set<Binding>
    decreases e
  {
    match e
    case Var(b) => met + {b}
    case Let(_, bs, body) => Met(body, MetLet(bs, met))
    case Call(args, _, f, _) => MetAll(args, Met(f, met))
    case If(c, t, f) => Met(f, Met(t, Met(c, met)))
    case Cond(cl) => MetClauses(cl, met)
    case Begin(es) => MetAll(es, met)
    case Logic(_, es) => MetAll(es, met)
    case Match(v, arms) => MetArms(arms, Met(v, met))
    case Strict(_, args) => MetAll(args, met)
    case _ => met
  }

  function MetAll(es: Hirs, met: set<Binding>): set<Binding>
    decreases es
  {
    match es
    case HNil => met
    case HCons(e, rest) => MetAll(rest, Met(e, met))
  }

  function MetLet(bs: Binds, met: set<Binding>): set<Binding>
    decreases bs
  {
    match bs
    case BNil => met
    case BCons(b, e, rest) => MetLet(rest, Met(e, met) + {b})
  }

  function MetClauses(cl: Clauses, met: set<Binding>): set<Binding>
    decreases cl
  {
    match cl
    case NoElse => met
    case Else(e) => Met(e, met)
    case Clause(c, b, rest) => MetClauses(rest, Met(b, Met(c, met)))
  }

  function MetVars(vs: seq<Binding>, met: set<Binding>): set<Binding>
    decreases |vs|
  {
    if vs == [] then met else MetVars(vs[1..], met + {vs[0]})
  }

  function MetArms(arms: Arms, met: set<Binding>): set<Binding>
    decreases arms
  {
    match arms
    case ANil => met
    case ACons(p, g, b, rest) =>
      var m := MetVars(p.vars, met);
      MetArms(rest, Met(b, if g.Some? then Met(g.value, m) else m))
  }

  // ----- bound once -----------------------------------------------------------------------------------------

  /** Every name the body binds is new where it is bound, in the order the walk meets them. */
  predicate Once(e: Hir, met: set<Binding>)
    decreases e
  {
    match e
    case Let(_, bs, body) => OnceLet(bs, met) && Once(body, MetLet(bs, met))
    case Call(args, _, f, _) => Once(f, met) && OnceAll(args, Met(f, met))
    case If(c, t, f) => Once(c, met) && Once(t, Met(c, met)) && Once(f, Met(t, Met(c, met)))
    case Cond(cl) => OnceClauses(cl, met)
    case Begin(es) => OnceAll(es, met)
    case Logic(_, es) => OnceAll(es, met)
    case Match(v, arms) => Once(v, met) && OnceArms(arms, Met(v, met))
    case Strict(_, args) => OnceAll(args, met)
    case _ => true
  }

  predicate OnceAll(es: Hirs, met: set<Binding>)
    decreases es
  {
    match es
    case HNil => true
    case HCons(e, rest) => Once(e, met) && OnceAll(rest, Met(e, met))
  }

  predicate OnceLet(bs: Binds, met: set<Binding>)
    decreases bs
  {
    match bs
    case BNil => true
    case BCons(b, e, rest) => Once(e, met) && b !in Met(e, met) && OnceLet(rest, Met(e, met) + {b})
  }

  predicate OnceClauses(cl: Clauses, met: set<Binding>)
    decreases cl
  {
    match cl
    case NoElse => true
    case Else(e) => Once(e, met)
    case Clause(c, b, rest) => Once(c, met) && Once(b, Met(c, met)) && OnceClauses(rest, Met(b, Met(c, met)))
  }

  predicate OnceVars(vs: seq<Binding>, met: set<Binding>)
    decreases |vs|
  {
    vs == [] || (vs[0] !in met && OnceVars(vs[1..], met + {vs[0]}))
  }

  predicate OnceArms(arms: Arms, met: set<Binding>)
    decreases arms
  {
    match arms
    case ANil => true
    case ACons(p, g, b, rest) =>
      var m := MetVars(p.vars, met);
      var m1 := if g.Some? then Met(g.value, m) else m;
      OnceVars(p.vars, met) && (g.Some? ==> Once(g.value, m)) && Once(b, m1) && OnceArms(rest, Met(b, m1))
  }

  // ----- the table -----------------------------------------------------------------------------------------

  predicate Stands(entry: Entry, inner: Inner) {
    match entry
    case Local(i) => i == inner
    case Global(name) => name == inner.name && (inner.fileScope || inner.primitive)
  }

  /** Each indexed name has an entry of its own that says what it is; the globals are listed, and nothing else. */
  ghost predicate TableSound(r: Rebinder) {
    && r.Closing?
    && (forall b :: b in r.index ==>
          && r.index[b].id < |r.table| && r.index[b].boxed == r.arena(b).boxed
          && Stands(r.table[r.index[b].id], r.arena(b)))
    && (forall a, b :: a in r.index && b in r.index && r.index[a].id == r.index[b].id ==> a == b)
    && (forall g :: g in r.globals ==>
       g.1 in r.index && g.0 == r.index[g.1].id && g.0 < |r.table| && r.table[g.0].Global?)
    && (forall b :: b in r.index && r.index[b].id < |r.table| && r.table[r.index[b].id].Global? ==>
       (r.index[b].id, b) in r.globals)
  }

  ghost predicate Grows(r: Rebinder, r1: Rebinder) {
    && r.Closing? && r1.Closing? && r1.arena == r.arena && r1.allow == r.allow && r.table <= r1.table
    && (forall b :: b in r.index ==> b in r1.index && r1.index[b] == r.index[b])
  }

  lemma GrowsThen(a: Rebinder, b: Rebinder, c: Rebinder)
    requires Grows(a, b) && Grows(b, c)
    ensures Grows(a, c)
  {}

  /** One more closed part: the table stays sound, the index keeps what it had, and its names are those met. */
  ghost predicate Step(r: Rebinder, r1: Rebinder, met: set<Binding>) {
    Grows(r, r1) && TableSound(r1) && r1.index.Keys == met
  }

  lemma IntroduceSteps(r: Rebinder, b: Binding)
    requires TableSound(r) && b !in r.index
    ensures Step(r, Introduce(r, b).r, r.index.Keys + {b})
    ensures Introduce(r, b).r.index[b] == Introduce(r, b).tree
    ensures Introduce(r, b).r.table[Introduce(r, b).tree.id] == Local(r.arena(b))
  {
    var r1 := Introduce(r, b).r;
    forall a, c | a in r1.index && c in r1.index && r1.index[a].id == r1.index[c].id ensures a == c {}
  }

  lemma ReferenceSteps(r: Rebinder, b: Binding)
    requires TableSound(r) && Reference(r, b).Some?
    ensures Step(r, Reference(r, b).value.r, r.index.Keys + {b})
    ensures Reference(r, b).value.r.index[b] == Reference(r, b).value.tree
  {
    if b in r.index {
      assert r.index.Keys + {b} == r.index.Keys;
    }
  }

  lemma {:induction false} VarsStep(vs: seq<Binding>, r: Rebinder)
    requires r.Closing? && TableSound(r) && OnceVars(vs, r.index.Keys)
    ensures Step(r, RebindVars(vs, r).r, MetVars(vs, r.index.Keys))
    decreases |vs|
  {
    hide TableSound, Introduce;
    if vs != [] {
      IntroduceSteps(r, vs[0]);
      var r1 := Introduce(r, vs[0]).r;
      VarsStep(vs[1..], r1);
      GrowsThen(r, r1, RebindVars(vs[1..], r1).r);
    } else {
      SameStep(r);
    }
  }

  lemma SameStep(r: Rebinder)
    requires TableSound(r)
    ensures Step(r, r, r.index.Keys)
  {}

  lemma StepThen(a: Rebinder, b: Rebinder, c: Rebinder, met: set<Binding>, met1: set<Binding>)
    requires Step(a, b, met) && Step(b, c, met1)
    ensures Step(a, c, met1)
  {}

  /** Closing a body that binds each name once only adds to the table. */
  lemma {:induction false} ClosingGrows(e: Hir, r: Rebinder)
    requires r.Closing? && TableSound(r) && Once(e, r.index.Keys) && Rebind(e, r).Some?
    ensures Step(r, Rebind(e, r).value.r, Met(e, r.index.Keys))
    decreases e, 1
  {
    hide Step, TableSound;
    match e
    case Lit(_) => SameStep(r);
    case Var(b) => ReferenceSteps(r, b);
    case Let(_, bs, body) => ClosingLetGrows(e, r);
    case Call(_, _, _, _) => ClosingBranchGrows(e, r);
    case If(_, _, _) => ClosingBranchGrows(e, r);
    case Match(_, _) => ClosingBranchGrows(e, r);
    case Cond(cl) => ClosingClausesGrows(cl, r);
    case Begin(es) => ClosingAllGrows(es, r);
    case Logic(_, es) => ClosingAllGrows(es, r);
    case Strict(_, args) => ClosingAllGrows(args, r);
  }

  lemma StepMeans(r: Rebinder, r1: Rebinder, met: set<Binding>)
    requires Step(r, r1, met)
    ensures TableSound(r1) && r1.Closing? && r1.index.Keys == met && Grows(r, r1)
  {}

  lemma {:induction false} ClosingLetGrows(e: Hir, r: Rebinder)
    requires r.Closing? && TableSound(r) && Once(e, r.index.Keys) && Rebind(e, r).Some? && e.Let?
    ensures Step(r, Rebind(e, r).value.r, Met(e, r.index.Keys))
    decreases e, 0
  {
    hide Step, TableSound;
    ClosingBindsGrow(e.binds, r);
    var r1, m1 := RebindLet(e.binds, r).value.r, MetLet(e.binds, r.index.Keys);
    StepMeans(r, r1, m1);
    ClosingGrows(e.body, r1);
    StepThen(r, r1, Rebind(e.body, r1).value.r, m1, Met(e.body, m1));
  }

  lemma {:induction false} ClosingBranchGrows(e: Hir, r: Rebinder)
    requires r.Closing? && TableSound(r) && Once(e, r.index.Keys) && Rebind(e, r).Some?
    requires e.Call? || e.If? || e.Match?
    ensures Step(r, Rebind(e, r).value.r, Met(e, r.index.Keys))
    decreases e, 0
  {
    hide Step, TableSound;
    var first := if e.Call? then e.func else if e.If? then e.test else e.value;
    ClosingGrows(first, r);
    var r1, m1 := Rebind(first, r).value.r, Met(first, r.index.Keys);
    StepMeans(r, r1, m1);
    match e
    case Call(args, _, _, _) =>
      ClosingAllGrows(args, r1);
      StepThen(r, r1, RebindAll(args, r1).value.r, m1, MetAll(args, m1));
    case Match(_, arms) =>
      ClosingArmsGrow(arms, r1);
      StepThen(r, r1, RebindArms(arms, r1).value.r, m1, MetArms(arms, m1));
    case If(_, t, f) =>
      ClosingGrows(t, r1);
      var r2, m2 := Rebind(t, r1).value.r, Met(t, m1);
      StepMeans(r1, r2, m2);
      ClosingGrows(f, r2);
      StepThen(r, r1, r2, m1, m2);
      StepThen(r, r2, Rebind(f, r2).value.r, m2, Met(f, m2));
  }

  lemma {:induction false} ClosingAllGrows(es: Hirs, r: Rebinder)
    requires r.Closing? && TableSound(r) && OnceAll(es, r.index.Keys) && RebindAll(es, r).Some?
    ensures Step(r, RebindAll(es, r).value.r, MetAll(es, r.index.Keys))
    decreases es, 0
  {
    hide Step, TableSound;
    SameStep(r);
    if es.HCons? {
      ClosingGrows(es.head, r);
      var r1, m1 := Rebind(es.head, r).value.r, Met(es.head, r.index.Keys);
      StepMeans(r, r1, m1);
      ClosingAllGrows(es.tail, r1);
      StepThen(r, r1, RebindAll(es.tail, r1).value.r, m1, MetAll(es.tail, m1));
    }
  }

  lemma {:induction false} ClosingBindsGrow(bs: Binds, r: Rebinder)
    requires r.Closing? && TableSound(r) && OnceLet(bs, r.index.Keys) && RebindLet(bs, r).Some?
    ensures Step(r, RebindLet(bs, r).value.r, MetLet(bs, r.index.Keys))
    decreases bs, 0
  {
    hide Step, TableSound, Introduce;
    SameStep(r);
    if bs.BCons? {
      ClosingGrows(bs.init, r);
      var r1, m1 := Rebind(bs.init, r).value.r, Met(bs.init, r.index.Keys);
      StepMeans(r, r1, m1);
      IntroduceSteps(r1, bs.binding);
      var r2, m2 := Introduce(r1, bs.binding).r, m1 + {bs.binding};
      StepMeans(r1, r2, m2);
      ClosingBindsGrow(bs.rest, r2);
      StepThen(r, r1, r2, m1, m2);
      StepThen(r, r2, RebindLet(bs.rest, r2).value.r, m2, MetLet(bs.rest, m2));
    }
  }

  lemma {:induction false} ClosingClausesGrows(cl: Clauses, r: Rebinder)
    requires r.Closing? && TableSound(r) && OnceClauses(cl, r.index.Keys) && RebindClauses(cl, r).Some?
    ensures Step(r, RebindClauses(cl, r).value.r, MetClauses(cl, r.index.Keys))
    decreases cl, 0
  {
    hide Step, TableSound;
    match cl
    case NoElse => SameStep(r);
    case Else(e) => ClosingGrows(e, r);
    case Clause(c, b, rest) =>
      ClosingGrows(c, r);
      var r1, m1 := Rebind(c, r).value.r, Met(c, r.index.Keys);
      StepMeans(r, r1, m1);
      ClosingGrows(b, r1);
      var r2, m2 := Rebind(b, r1).value.r, Met(b, m1);
      StepMeans(r1, r2, m2);
      ClosingClausesGrows(rest, r2);
      StepThen(r, r1, r2, m1, m2);
      StepThen(r, r2, RebindClauses(rest, r2).value.r, m2, MetClauses(rest, m2));
  }

  lemma {:induction false} ClosingArmsGrow(arms: Arms, r: Rebinder)
    requires r.Closing? && TableSound(r) && OnceArms(arms, r.index.Keys) && RebindArms(arms, r).Some?
    ensures Step(r, RebindArms(arms, r).value.r, MetArms(arms, r.index.Keys))
    decreases arms, 0
  {
    hide Step, TableSound, RebindVars;
    SameStep(r);
    if arms.ACons? {
      var vs := arms.pattern.vars;
      VarsStep(vs, r);
      var r0, m0 := RebindVars(vs, r).r, MetVars(vs, r.index.Keys);
      StepMeans(r, r0, m0);
      var r1, m1 := r0, m0;
      if arms.guard.Some? {
        ClosingGrows(arms.guard.value, r0);
        r1, m1 := Rebind(arms.guard.value, r0).value.r, Met(arms.guard.value, m0);
        StepMeans(r0, r1, m1);
        StepThen(r, r0, r1, m0, m1);
      }
      ClosingGrows(arms.body, r1);
      var r2, m2 := Rebind(arms.body, r1).value.r, Met(arms.body, m1);
      StepMeans(r1, r2, m2);
      ClosingArmsGrow(arms.rest, r2);
      StepThen(r, r1, r2, m1, m2);
      StepThen(r, r2, RebindArms(arms.rest, r2).value.r, m2, MetArms(arms.rest, m2));
    }
  }

  // ----- renaming ------------------------------------------------------------------------------------------

  /** Where each name goes; bindings numbered from `floor` on are new to the host. */
  datatype Renaming = Renaming(to: map<Binding, Binding>, floor: nat)

  /** The host bindings of a fragment, in an arena that had `size` of its own. */
  datatype Site = Site(bindings: seq<Binding>, size: nat)

  function To(m: Renaming, b: Binding): Binding {
    if b in m.to then m.to[b] else b
  }

  function ToAll(m: Renaming, bs: seq<Binding>): seq<Binding> {
    seq(|bs|, i requires 0 <= i < |bs| => To(m, bs[i]))
  }

  function Rename(m: Renaming, e: Hir): Hir
    decreases e
  {
    match e
    case Var(b) => Var(To(m, b))
    case Let(rec, bs, body) => Let(rec, RenameLet(m, bs), Rename(m, body))
    case Call(args, sp, f, tail) => Call(RenameAll(m, args), sp, Rename(m, f), tail)
    case If(c, t, f) => If(Rename(m, c), Rename(m, t), Rename(m, f))
    case Cond(cl) => Cond(RenameClauses(m, cl))
    case Begin(es) => Begin(RenameAll(m, es))
    case Logic(conj, es) => Logic(conj, RenameAll(m, es))
    case Match(v, arms) => Match(Rename(m, v), RenameArms(m, arms))
    case Strict(op, args) => Strict(op, RenameAll(m, args))
    case _ => e
  }

  function RenameAll(m: Renaming, es: Hirs): Hirs
    decreases es
  {
    match es
    case HNil => HNil
    case HCons(e, rest) => HCons(Rename(m, e), RenameAll(m, rest))
  }

  function RenameLet(m: Renaming, bs: Binds): Binds
    decreases bs
  {
    match bs
    case BNil => BNil
    case BCons(b, e, rest) => BCons(To(m, b), Rename(m, e), RenameLet(m, rest))
  }

  function RenameClauses(m: Renaming, cl: Clauses): Clauses
    decreases cl
  {
    match cl
    case NoElse => NoElse
    case Else(e) => Else(Rename(m, e))
    case Clause(c, b, rest) => Clause(Rename(m, c), Rename(m, b), RenameClauses(m, rest))
  }

  function RenameArms(m: Renaming, arms: Arms): Arms
    decreases arms
  {
    match arms
    case ANil => ANil
    case ACons(p, g, b, rest) =>
      ACons(p.(vars := ToAll(m, p.vars)), if g.Some? then Some(Rename(m, g.value)) else None,
            Rename(m, b), RenameArms(m, rest))
  }

  /** `b` goes to a new binding, boxed when it is, and nothing else goes there. */
  ghost predicate Private(m: Renaming, b: Binding) {
    && b in m.to && m.to[b].boxed == b.boxed && m.to[b].id >= m.floor
    && forall x :: x in m.to && x != b ==> m.to[x] != m.to[b]
  }

  ghost predicate PrivateAll(m: Renaming, bs: seq<Binding>) {
    forall i :: 0 <= i < |bs| ==> Private(m, bs[i])
  }

  /** The renaming takes every name of the body, and its binders to names of their own. */
  ghost predicate Renames(m: Renaming, e: Hir)
    decreases e
  {
    match e
    case Lit(d) => !d.Quoted?
    case Var(b) => b in m.to
    case Let(rec, bs, body) => !rec && RenamesLet(m, bs) && Renames(m, body)
    case Call(args, _, f, _) => RenamesAll(m, args) && Renames(m, f)
    case If(c, t, f) => Renames(m, c) && Renames(m, t) && Renames(m, f)
    case Cond(cl) => RenamesClauses(m, cl)
    case Begin(es) => RenamesAll(m, es)
    case Logic(_, es) => RenamesAll(m, es)
    case Match(v, arms) => Renames(m, v) && RenamesArms(m, arms)
    case Strict(op, args) => (op.Emit? || op.Intrinsic?) && RenamesAll(m, args)
    case _ => false
  }

  ghost predicate RenamesAll(m: Renaming, es: Hirs)
    decreases es
  {
    match es
    case HNil => true
    case HCons(e, rest) => Renames(m, e) && RenamesAll(m, rest)
  }

  ghost predicate RenamesLet(m: Renaming, bs: Binds)
    decreases bs
  {
    match bs
    case BNil => true
    case BCons(b, e, rest) => Private(m, b) && Renames(m, e) && RenamesLet(m, rest)
  }

  ghost predicate RenamesClauses(m: Renaming, cl: Clauses)
    decreases cl
  {
    match cl
    case NoElse => true
    case Else(e) => Renames(m, e)
    case Clause(c, b, rest) => Renames(m, c) && Renames(m, b) && RenamesClauses(m, rest)
  }

  ghost predicate RenamesArms(m: Renaming, arms: Arms)
    decreases arms
  {
    match arms
    case ANil => true
    case ACons(p, g, b, rest) =>
      PrivateAll(m, p.vars) && (g.Some? ==> Renames(m, g.value)) && Renames(m, b) && RenamesArms(m, rest)
  }

  // ----- the round trip ------------------------------------------------------------------------------------

  /** From a name of the defining unit, through the finished table, to the host. */
  ghost function Through(fin: Rebinder, host: Site): Renaming
    requires fin.Closing?
  {
    Renaming(map b | b in fin.index :: HostOf(host.bindings, fin.index[b]), host.size)
  }

  /** The host gives every local an own binding of the recorded kind. */
  ghost predicate HostSound(fin: Rebinder, host: Site) {
    && fin.Closing? && |host.bindings| == |fin.table|
    && forall b :: b in fin.index && fin.index[b].id < |fin.table| && fin.table[fin.index[b].id].Local? ==>
       Private(Through(fin, host), b)
  }

  ghost predicate Trip(fin: Rebinder, host: Site, e: Hir, e1: Hir) {
    && fin.Closing? && Renames(Through(fin, host), e)
    && Rebind(e1, Grafting(host.bindings)) == Some(Rebound(Rename(Through(fin, host), e), Grafting(host.bindings)))
  }

  ghost predicate TripAll(fin: Rebinder, host: Site, es: Hirs, es1: Hirs) {
    && fin.Closing? && RenamesAll(Through(fin, host), es)
    && RebindAll(es1, Grafting(host.bindings)) ==
       Some(Rebound(RenameAll(Through(fin, host), es), Grafting(host.bindings)))
  }

  ghost predicate TripLet(fin: Rebinder, host: Site, bs: Binds, bs1: Binds) {
    && fin.Closing? && RenamesLet(Through(fin, host), bs)
    && RebindLet(bs1, Grafting(host.bindings)) ==
       Some(Rebound(RenameLet(Through(fin, host), bs), Grafting(host.bindings)))
  }

  ghost predicate TripClauses(fin: Rebinder, host: Site, cl: Clauses, cl1: Clauses) {
    && fin.Closing? && RenamesClauses(Through(fin, host), cl)
    && RebindClauses(cl1, Grafting(host.bindings)) ==
       Some(Rebound(RenameClauses(Through(fin, host), cl), Grafting(host.bindings)))
  }

  ghost predicate TripArms(fin: Rebinder, host: Site, arms: Arms, arms1: Arms) {
    && fin.Closing? && RenamesArms(Through(fin, host), arms)
    && RebindArms(arms1, Grafting(host.bindings)) ==
       Some(Rebound(RenameArms(Through(fin, host), arms), Grafting(host.bindings)))
  }

  /** A name closed on the way to `fin` grafts to where the whole renaming takes it. */
  lemma NameTrips(r1: Rebinder, fin: Rebinder, host: Site, b: Binding)
    requires r1.Closing? && Grows(r1, fin) && b in r1.index
    ensures b in Through(fin, host).to && HostOf(host.bindings, r1.index[b]) == To(Through(fin, host), b)
  {}

  lemma LocalTrips(r: Rebinder, fin: Rebinder, host: Site, b: Binding)
    requires TableSound(r) && b !in r.index && Grows(Introduce(r, b).r, fin) && HostSound(fin, host)
    ensures Private(Through(fin, host), b) && HostOf(host.bindings, Introduce(r, b).tree) == To(Through(fin, host), b)
  {
    IntroduceSteps(r, b);
    NameTrips(Introduce(r, b).r, fin, host, b);
  }

  lemma {:induction false} VarsTrip(vs: seq<Binding>, r: Rebinder, fin: Rebinder, host: Site)
    requires r.Closing? && TableSound(r) && OnceVars(vs, r.index.Keys) && Grows(RebindVars(vs, r).r, fin)
    requires HostSound(fin, host)
    ensures PrivateAll(Through(fin, host), vs)
    ensures RebindVars(RebindVars(vs, r).tree, Grafting(host.bindings)) ==
            Rebound(ToAll(Through(fin, host), vs), Grafting(host.bindings))
    decreases |vs|
  {
    hide TableSound, HostSound, Through, Private, Introduce, Grows;
    if vs != [] {
      IntroduceSteps(r, vs[0]);
      var x := Introduce(r, vs[0]);
      StepMeans(r, x.r, r.index.Keys + {vs[0]});
      VarsStep(vs[1..], x.r);
      var y := RebindVars(vs[1..], x.r);
      StepMeans(x.r, y.r, MetVars(vs[1..], x.r.index.Keys));
      GrowsThen(x.r, y.r, fin);
      LocalTrips(r, fin, host, vs[0]);
      VarsTrip(vs[1..], x.r, fin, host);
      GraftVars(x.tree, y.tree, host);
      ToAllCons(Through(fin, host), vs);
    } else {
      GrowsSides(RebindVars(vs, r).r, fin);
      assert ToAll(Through(fin, host), vs) == [];
    }
  }

  lemma GraftVars(first: Binding, rest: seq<Binding>, host: Site)
    ensures var r := RebindVars(rest, Grafting(host.bindings));
            RebindVars([first] + rest, Grafting(host.bindings)) == Rebound([HostOf(host.bindings, first)] + r.tree, r.r)
  {
    assert ([first] + rest)[1..] == rest;
  }

  lemma ToAllCons(m: Renaming, vs: seq<Binding>)
    requires vs != []
    ensures ToAll(m, vs) == [To(m, vs[0])] + ToAll(m, vs[1..])
  {}

  lemma {:induction false} GraftRenames(e: Hir, r: Rebinder, fin: Rebinder, host: Site)
    requires r.Closing? && TableSound(r) && Once(e, r.index.Keys) && Rebind(e, r).Some?
    requires Grows(Rebind(e, r).value.r, fin) && HostSound(fin, host)
    ensures Trip(fin, host, e, Rebind(e, r).value.tree)
    decreases e, 1
  {
    hide TableSound, HostSound, Through, Private, Grows, Step;
    GrowsSides(Rebind(e, r).value.r, fin);
    match e
    case Lit(_) =>
    case Var(b) =>
      ReferenceSteps(r, b);
      StepMeans(r, Reference(r, b).value.r, r.index.Keys + {b});
      NameTrips(Reference(r, b).value.r, fin, host, b);
    case Let(_, _, _) => GraftLetRenames(e, r, fin, host);
    case Call(_, _, _, _) => GraftBranchRenames(e, r, fin, host);
    case Match(_, _) => GraftBranchRenames(e, r, fin, host);
    case If(_, _, _) => GraftIfRenames(e, r, fin, host);
    case Cond(cl) => GraftClauses(cl, r, fin, host);
    case Begin(es) => GraftAll(es, r, fin, host);
    case Logic(_, es) => GraftAll(es, r, fin, host);
    case Strict(_, args) => GraftAll(args, r, fin, host);
  }

  lemma GrowsSides(r: Rebinder, r1: Rebinder)
    requires Grows(r, r1)
    ensures r.Closing? && r1.Closing?
  {}

  lemma {:induction false} GraftLetRenames(e: Hir, r: Rebinder, fin: Rebinder, host: Site)
    requires r.Closing? && TableSound(r) && Once(e, r.index.Keys) && Rebind(e, r).Some? && e.Let?
    requires Grows(Rebind(e, r).value.r, fin) && HostSound(fin, host)
    ensures Trip(fin, host, e, Rebind(e, r).value.tree)
    decreases e, 0
  {
    hide TableSound, HostSound, Through, Private, Grows, Step;
    var m1 := MetLet(e.binds, r.index.Keys);
    ClosingBindsGrow(e.binds, r);
    var r1 := RebindLet(e.binds, r).value.r;
    StepMeans(r, r1, m1);
    ClosingGrows(e.body, r1);
    StepMeans(r1, Rebind(e.body, r1).value.r, Met(e.body, m1));
    GrowsThen(r1, Rebind(e.body, r1).value.r, fin);
    GraftBinds(e.binds, r, fin, host);
    GraftRenames(e.body, r1, fin, host);
  }

  lemma {:induction false} GraftIfRenames(e: Hir, r: Rebinder, fin: Rebinder, host: Site)
    requires r.Closing? && TableSound(r) && Once(e, r.index.Keys) && Rebind(e, r).Some? && e.If?
    requires Grows(Rebind(e, r).value.r, fin) && HostSound(fin, host)
    ensures Trip(fin, host, e, Rebind(e, r).value.tree)
    decreases e, 0
  {
    hide TableSound, HostSound, Through, Private, Grows, Step;
    ClosingGrows(e.test, r);
    var r1, m1 := Rebind(e.test, r).value.r, Met(e.test, r.index.Keys);
    StepMeans(r, r1, m1);
    ClosingGrows(e.thn, r1);
    var r2, m2 := Rebind(e.thn, r1).value.r, Met(e.thn, m1);
    StepMeans(r1, r2, m2);
    ClosingGrows(e.els, r2);
    StepMeans(r2, Rebind(e.els, r2).value.r, Met(e.els, m2));
    GrowsThen(r2, Rebind(e.els, r2).value.r, fin);
    GrowsThen(r1, r2, fin);
    GraftRenames(e.test, r, fin, host);
    GraftRenames(e.thn, r1, fin, host);
    GraftRenames(e.els, r2, fin, host);
  }

  lemma {:induction false} GraftBranchRenames(e: Hir, r: Rebinder, fin: Rebinder, host: Site)
    requires r.Closing? && TableSound(r) && Once(e, r.index.Keys) && Rebind(e, r).Some? && (e.Call? || e.Match?)
    requires Grows(Rebind(e, r).value.r, fin) && HostSound(fin, host)
    ensures Trip(fin, host, e, Rebind(e, r).value.tree)
    decreases e, 0
  {
    hide TableSound, HostSound, Through, Private, Grows, Step;
    var first := if e.Call? then e.func else e.value;
    ClosingGrows(first, r);
    var r1, m1 := Rebind(first, r).value.r, Met(first, r.index.Keys);
    StepMeans(r, r1, m1);
    if e.Call? {
      ClosingAllGrows(e.args, r1);
      StepMeans(r1, RebindAll(e.args, r1).value.r, MetAll(e.args, m1));
      GrowsThen(r1, RebindAll(e.args, r1).value.r, fin);
      GraftAll(e.args, r1, fin, host);
    } else {
      ClosingArmsGrow(e.arms, r1);
      StepMeans(r1, RebindArms(e.arms, r1).value.r, MetArms(e.arms, m1));
      GrowsThen(r1, RebindArms(e.arms, r1).value.r, fin);
      GraftArms(e.arms, r1, fin, host);
    }
    GraftRenames(first, r, fin, host);
  }

  lemma {:induction false} GraftAll(es: Hirs, r: Rebinder, fin: Rebinder, host: Site)
    requires r.Closing? && TableSound(r) && OnceAll(es, r.index.Keys) && RebindAll(es, r).Some?
    requires Grows(RebindAll(es, r).value.r, fin) && HostSound(fin, host)
    ensures TripAll(fin, host, es, RebindAll(es, r).value.tree)
    decreases es, 0
  {
    hide TableSound, HostSound, Through, Private, Grows, Step;
    GrowsSides(RebindAll(es, r).value.r, fin);
    if es.HCons? {
      ClosingGrows(es.head, r);
      var r1, m1 := Rebind(es.head, r).value.r, Met(es.head, r.index.Keys);
      StepMeans(r, r1, m1);
      ClosingAllGrows(es.tail, r1);
      StepMeans(r1, RebindAll(es.tail, r1).value.r, MetAll(es.tail, m1));
      GrowsThen(r1, RebindAll(es.tail, r1).value.r, fin);
      GraftRenames(es.head, r, fin, host);
      GraftAll(es.tail, r1, fin, host);
    }
  }

  lemma {:induction false} GraftBinds(bs: Binds, r: Rebinder, fin: Rebinder, host: Site)
    requires r.Closing? && TableSound(r) && OnceLet(bs, r.index.Keys) && RebindLet(bs, r).Some?
    requires Grows(RebindLet(bs, r).value.r, fin) && HostSound(fin, host)
    ensures TripLet(fin, host, bs, RebindLet(bs, r).value.tree)
    decreases bs, 0
  {
    hide TableSound, HostSound, Through, Private, Grows, Step;
    GrowsSides(RebindLet(bs, r).value.r, fin);
    if bs.BCons? {
      var b := bs.binding;
      ClosingGrows(bs.init, r);
      var r1, m1 := Rebind(bs.init, r).value.r, Met(bs.init, r.index.Keys);
      StepMeans(r, r1, m1);
      IntroduceSteps(r1, b);
      var r2, m2 := Introduce(r1, b).r, m1 + {b};
      StepMeans(r1, r2, m2);
      ClosingBindsGrow(bs.rest, r2);
      StepMeans(r2, RebindLet(bs.rest, r2).value.r, MetLet(bs.rest, m2));
      GrowsThen(r2, RebindLet(bs.rest, r2).value.r, fin);
      GrowsThen(r1, r2, fin);
      LocalTrips(r1, fin, host, b);
      GraftRenames(bs.init, r, fin, host);
      GraftBinds(bs.rest, r2, fin, host);
    }
  }

  lemma {:induction false} GraftClauses(cl: Clauses, r: Rebinder, fin: Rebinder, host: Site)
    requires r.Closing? && TableSound(r) && OnceClauses(cl, r.index.Keys) && RebindClauses(cl, r).Some?
    requires Grows(RebindClauses(cl, r).value.r, fin) && HostSound(fin, host)
    ensures TripClauses(fin, host, cl, RebindClauses(cl, r).value.tree)
    decreases cl, 0
  {
    hide TableSound, HostSound, Through, Private, Grows, Step;
    GrowsSides(RebindClauses(cl, r).value.r, fin);
    match cl
    case NoElse =>
    case Else(e) => GraftRenames(e, r, fin, host);
    case Clause(c, b, rest) =>
      ClosingGrows(c, r);
      var r1, m1 := Rebind(c, r).value.r, Met(c, r.index.Keys);
      StepMeans(r, r1, m1);
      ClosingGrows(b, r1);
      var r2, m2 := Rebind(b, r1).value.r, Met(b, m1);
      StepMeans(r1, r2, m2);
      ClosingClausesGrows(rest, r2);
      StepMeans(r2, RebindClauses(rest, r2).value.r, MetClauses(rest, m2));
      GrowsThen(r2, RebindClauses(rest, r2).value.r, fin);
      GrowsThen(r1, r2, fin);
      GraftRenames(c, r, fin, host);
      GraftRenames(b, r1, fin, host);
      GraftClauses(rest, r2, fin, host);
  }

  lemma {:induction false} GraftArms(arms: Arms, r: Rebinder, fin: Rebinder, host: Site)
    requires r.Closing? && TableSound(r) && OnceArms(arms, r.index.Keys) && RebindArms(arms, r).Some?
    requires Grows(RebindArms(arms, r).value.r, fin) && HostSound(fin, host)
    ensures TripArms(fin, host, arms, RebindArms(arms, r).value.tree)
    decreases arms, 0
  {
    hide TableSound, HostSound, Through, Private, Grows, Step, RebindVars, PrivateAll, ToAll;
    GrowsSides(RebindArms(arms, r).value.r, fin);
    if arms.ACons? {
      var vs, g := arms.pattern.vars, arms.guard;
      VarsStep(vs, r);
      var r0, m0 := RebindVars(vs, r).r, MetVars(vs, r.index.Keys);
      StepMeans(r, r0, m0);
      var r1, m1 := r0, m0;
      if g.Some? {
        ClosingGrows(g.value, r0);
        r1, m1 := Rebind(g.value, r0).value.r, Met(g.value, m0);
        StepMeans(r0, r1, m1);
      }
      ClosingGrows(arms.body, r1);
      var r2, m2 := Rebind(arms.body, r1).value.r, Met(arms.body, m1);
      StepMeans(r1, r2, m2);
      ClosingArmsGrow(arms.rest, r2);
      StepMeans(r2, RebindArms(arms.rest, r2).value.r, MetArms(arms.rest, m2));
      GrowsThen(r2, RebindArms(arms.rest, r2).value.r, fin);
      GrowsThen(r1, r2, fin);
      if g.Some? {
        GrowsThen(r0, r1, fin);
        GraftRenames(g.value, r0, fin, host);
      }
      VarsTrip(vs, r, fin, host);
      GraftRenames(arms.body, r1, fin, host);
      GraftArms(arms.rest, r2, fin, host);
    }
  }
}
