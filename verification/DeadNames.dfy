/**
  The names of a program, before and after dead bindings go.

  `Occ` counts the occurrences of a name by role. `Conserved` splits the
  occurrences in a tree into those the pass keeps and those it sheds; from that and
  from the arena's facts about names (`NamesSound`) follows that a name bound in a
  dropped initializer, or dropped itself, is not used in the stripped tree.
  `Obeys` is what evaluation needs to know of a tree; `DeadScope.ProgramObeys` gives it.
*/
module DeadNames {
  import opened Options
  import opened HirSyntax
  import opened Dead

  /**
    A name in one role. `Bound` is a `let`, `letrec` or `def` site, `Param` any other
    binder, `Own` a lambda's capture of its own name, `SiteOf` one whole site, and
    `Drop` a site the pass drops.
  */
  datatype Role =
    | Use(b: Binding) | Caught(b: Binding) | Target(b: Binding) | Bound(b: Binding) | Param(b: Binding)
    | Own(b: Binding, id: nat) | SiteOf(b: Binding, init: Hir) | Drop(b: Binding, init: Hir)

  /** The roles in which a name is read, written or bound. */
  predicate Names(o: Role) {
    o.Use? || o.Caught? || o.Target? || o.Bound? || o.Param?
  }

  function One(yes: bool): nat {
    if yes then 1 else 0
  }

  function Params(bs: seq<Binding>, o: Role): nat {
    if bs == [] then 0 else One(o == Param(bs[0])) + Params(bs[1..], o)
  }

  function Catches(id: nat, cs: seq<Capture>, o: Role): nat
    decreases |cs|
  {
    if cs == [] then 0
    else
      var b := cs[0].binding;
      One(o == Caught(b)) + One(cs[0].recursive && o == Own(b, id)) + Catches(id, cs[1..], o)
  }

  function OpOcc(op: Op, args: Hirs, o: Role): nat {
    match op
    case Assign(b) => One(o == Target(b))
    case Define(b) => One(o == Bound(b)) + One(args.HCons? && o == SiteOf(b, args.head))
    case SetCell(b) => One(o == Use(b)) + One(o == Target(b))
    case Destructure(p, _) => Params(p.vars, o)
    case _ => 0
  }

  function Occ(e: Hir, o: Role): nat
    decreases e
  {
    match e
    case Lit(_) => 0
    case Poison => 0
    case Var(b) => One(o == Use(b))
    case Let(_, bs, body) => LetOcc(bs, o) + Occ(body, o)
    case Lambda(id, ps, cs, body) => Params(ps, o) + Catches(id, cs, o) + Occ(body, o)
    case If(c, t, f) => Occ(c, o) + Occ(t, o) + Occ(f, o)
    case Cond(cl) => ClausesOcc(cl, o)
    case Begin(es) => AllOcc(es, o)
    case Block(_, es) => AllOcc(es, o)
    case Break(_, v) => Occ(v, o)
    case Call(args, _, f, _) => AllOcc(args, o) + Occ(f, o)
    case While(c, body) => Occ(c, o) + Occ(body, o)
    case Loop(bs, body) => LoopOcc(bs, o) + Occ(body, o)
    case Match(v, arms) => Occ(v, o) + ArmsOcc(arms, o)
    case Logic(_, es) => AllOcc(es, o)
    case Parameterize(ps, body) => AllOcc(ps, o) + Occ(body, o)
    case Strict(op, args) => OpOcc(op, args, o) + AllOcc(args, o)
    case Return(v) => Occ(v, o)
  }

  function AllOcc(es: Hirs, o: Role): nat
    decreases es
  {
    match es
    case HNil => 0
    case HCons(e, rest) => Occ(e, o) + AllOcc(rest, o)
  }

  function LetOcc(bs: Binds, o: Role): nat
    decreases bs
  {
    match bs
    case BNil => 0
    case BCons(b, e, rest) => One(o == Bound(b)) + One(o == SiteOf(b, e)) + Occ(e, o) + LetOcc(rest, o)
  }

  function LoopOcc(bs: Binds, o: Role): nat
    decreases bs
  {
    match bs
    case BNil => 0
    case BCons(b, e, rest) => One(o == Param(b)) + Occ(e, o) + LoopOcc(rest, o)
  }

  function ClausesOcc(cl: Clauses, o: Role): nat
    decreases cl
  {
    match cl
    case NoElse => 0
    case Else(e) => Occ(e, o)
    case Clause(c, b, rest) => Occ(c, o) + Occ(b, o) + ClausesOcc(rest, o)
  }

  function ArmsOcc(arms: Arms, o: Role): nat
    decreases arms
  {
    match arms
    case ANil => 0
    case ACons(p, g, b, rest) =>
      Params(p.vars, o) + (if g.Some? then Occ(g.value, o) else 0) + Occ(b, o) + ArmsOcc(rest, o)
  }

  // ----- what the pass sheds -----------------------------------------------------------------------------

  function Shed(p: Pass, e: Hir, o: Role): nat
    decreases e
  {
    match e
    case Lit(_) => 0
    case Poison => 0
    case Var(_) => 0
    case Let(_, bs, body) => LetShed(p, bs, o) + Shed(p, body, o)
    case Lambda(_, _, _, body) => Shed(p, body, o)
    case If(c, t, f) => Shed(p, c, o) + Shed(p, t, o) + Shed(p, f, o)
    case Cond(cl) => ClausesShed(p, cl, o)
    case Begin(es) => AllShed(p, es, o)
    case Block(_, es) => AllShed(p, es, o)
    case Break(_, v) => Shed(p, v, o)
    case Call(args, _, f, _) => AllShed(p, args, o) + Shed(p, f, o)
    case While(c, body) => Shed(p, c, o) + Shed(p, body, o)
    case Loop(bs, body) => LoopShed(p, bs, o) + Shed(p, body, o)
    case Match(v, arms) => Shed(p, v, o) + ArmsShed(p, arms, o)
    case Logic(_, es) => AllShed(p, es, o)
    case Parameterize(ps, body) => AllShed(p, ps, o) + Shed(p, body, o)
    case Strict(_, args) => AllShed(p, args, o)
    case Return(v) => Shed(p, v, o)
  }

  function AllShed(p: Pass, es: Hirs, o: Role): nat
    decreases es
  {
    match es
    case HNil => 0
    case HCons(e, rest) => Shed(p, e, o) + AllShed(p, rest, o)
  }

  function LetShed(p: Pass, bs: Binds, o: Role): nat
    decreases bs
  {
    match bs
    case BNil => 0
    case BCons(b, e, rest) =>
      (if Eliminable(p, b, e) then One(o == Bound(b)) + One(o == Drop(b, e)) + (if Names(o) then Occ(e, o) else 0)
       else Shed(p, e, o)) + LetShed(p, rest, o)
  }

  function LoopShed(p: Pass, bs: Binds, o: Role): nat
    decreases bs
  {
    match bs
    case BNil => 0
    case BCons(_, e, rest) => Shed(p, e, o) + LoopShed(p, rest, o)
  }

  function ClausesShed(p: Pass, cl: Clauses, o: Role): nat
    decreases cl
  {
    match cl
    case NoElse => 0
    case Else(e) => Shed(p, e, o)
    case Clause(c, b, rest) => Shed(p, c, o) + Shed(p, b, o) + ClausesShed(p, rest, o)
  }

  function ArmsShed(p: Pass, arms: Arms, o: Role): nat
    decreases arms
  {
    match arms
    case ANil => 0
    case ACons(_, g, b, rest) => (if g.Some? then Shed(p, g.value, o) else 0) + Shed(p, b, o) + ArmsShed(p, rest, o)
  }

  predicate Splits(p: Pass, e: Hir, o: Role) {
    Occ(e, o) == Occ(Strip(p, e), o) + Shed(p, e, o)
  }

  predicate AllSplits(p: Pass, es: Hirs, o: Role) {
    AllOcc(es, o) == AllOcc(StripAll(p, es), o) + AllShed(p, es, o)
  }

  predicate LetSplits(p: Pass, bs: Binds, o: Role) {
    LetOcc(bs, o) == LetOcc(StripLet(p, bs), o) + LetShed(p, bs, o)
  }

  predicate LoopSplits(p: Pass, bs: Binds, o: Role) {
    LoopOcc(bs, o) == LoopOcc(StripLoop(p, bs), o) + LoopShed(p, bs, o)
  }

  predicate ClausesSplits(p: Pass, cl: Clauses, o: Role) {
    ClausesOcc(cl, o) == ClausesOcc(StripClauses(p, cl), o) + ClausesShed(p, cl, o)
  }

  predicate ArmsSplits(p: Pass, arms: Arms, o: Role) {
    ArmsOcc(arms, o) == ArmsOcc(StripArms(p, arms), o) + ArmsShed(p, arms, o)
  }

  /** Every occurrence of a name is kept or shed, and none is made. */
  lemma {:induction false} Conserved(p: Pass, e: Hir, o: Role)
    requires Names(o)
    ensures Splits(p, e, o)
    decreases e, 1
  {
    hide Eliminable, Params, Catches, One;
    match e
    case Lit(_) =>
    case Poison =>
    case Var(_) =>
    case Let(_, _, _) => ConservedBinder(p, e, o);
    case Lambda(_, _, _, _) => ConservedBinder(p, e, o);
    case If(_, _, _) => ConservedBranch(p, e, o);
    case Cond(_) => ConservedSequence(p, e, o);
    case Begin(_) => ConservedSequence(p, e, o);
    case Block(_, _) => ConservedSequence(p, e, o);
    case Break(_, v) => Conserved(p, v, o);
    case Call(_, _, _, _) => ConservedBranch(p, e, o);
    case While(_, _) => ConservedBranch(p, e, o);
    case Loop(_, _) => ConservedBinder(p, e, o);
    case Match(_, _) => ConservedBranch(p, e, o);
    case Logic(_, _) => ConservedSequence(p, e, o);
    case Parameterize(_, _) => ConservedBinder(p, e, o);
    case Strict(_, _) => ConservedSequence(p, e, o);
    case Return(v) => Conserved(p, v, o);
  }

  lemma {:induction false} ConservedSequence(p: Pass, e: Hir, o: Role)
    requires Names(o)
    requires e.Cond? || e.Begin? || e.Block? || e.Logic? || e.Strict?
    ensures Splits(p, e, o)
    decreases e, 0
  {
    hide Eliminable, Params, Catches, One;
    match e
    case Cond(cl) => ClausesConserved(p, cl, o);
    case Begin(es) => AllConserved(p, es, o);
    case Block(_, es) => AllConserved(p, es, o);
    case Logic(_, es) => AllConserved(p, es, o);
    case Strict(op, args) => AllConserved(p, args, o); OpConserved(p, op, args, o);
  }

  lemma {:induction false} ConservedBranch(p: Pass, e: Hir, o: Role)
    requires Names(o)
    requires e.If? || e.While? || e.Match? || e.Call?
    ensures Splits(p, e, o)
    decreases e, 0
  {
    hide Eliminable, Params, Catches, One;
    match e
    case If(c, t, f) => Conserved(p, c, o); Conserved(p, t, o); Conserved(p, f, o);
    case While(c, body) => Conserved(p, c, o); Conserved(p, body, o);
    case Match(v, arms) => Conserved(p, v, o); ArmsConserved(p, arms, o);
    case Call(args, _, f, _) => AllConserved(p, args, o); Conserved(p, f, o);
  }

  lemma {:induction false} ConservedBinder(p: Pass, e: Hir, o: Role)
    requires Names(o)
    requires e.Let? || e.Loop? || e.Lambda? || e.Parameterize?
    ensures Splits(p, e, o)
    decreases e, 0
  {
    hide Eliminable, Params, Catches, One;
    match e
    case Let(_, bs, body) => LetConserved(p, bs, o); Conserved(p, body, o);
    case Loop(bs, body) => LoopConserved(p, bs, o); Conserved(p, body, o);
    case Lambda(_, _, _, body) => Conserved(p, body, o);
    case Parameterize(ps, body) => AllConserved(p, ps, o); Conserved(p, body, o);
  }

  lemma OpConserved(p: Pass, op: Op, args: Hirs, o: Role)
    requires Names(o)
    ensures OpOcc(op, args, o) == OpOcc(op, StripAll(p, args), o)
  {}

  lemma {:induction false} AllConserved(p: Pass, es: Hirs, o: Role)
    requires Names(o)
    ensures AllSplits(p, es, o)
    decreases es
  {
    if es.HCons? {
      Conserved(p, es.head, o);
      AllConserved(p, es.tail, o);
    }
  }

  lemma {:induction false} LetConserved(p: Pass, bs: Binds, o: Role)
    requires Names(o)
    ensures LetSplits(p, bs, o)
    decreases bs
  {
    hide Eliminable;
    if bs.BCons? {
      if !Eliminable(p, bs.binding, bs.init) { Conserved(p, bs.init, o); }
      LetConserved(p, bs.rest, o);
    }
  }

  lemma {:induction false} LoopConserved(p: Pass, bs: Binds, o: Role)
    requires Names(o)
    ensures LoopSplits(p, bs, o)
    decreases bs
  {
    if bs.BCons? {
      Conserved(p, bs.init, o);
      LoopConserved(p, bs.rest, o);
    }
  }

  lemma {:induction false} ClausesConserved(p: Pass, cl: Clauses, o: Role)
    requires Names(o)
    ensures ClausesSplits(p, cl, o)
    decreases cl
  {
    match cl
    case NoElse =>
    case Else(e) => Conserved(p, e, o);
    case Clause(c, b, rest) => Conserved(p, c, o); Conserved(p, b, o); ClausesConserved(p, rest, o);
  }

  lemma {:induction false} ArmsConserved(p: Pass, arms: Arms, o: Role)
    requires Names(o)
    ensures ArmsSplits(p, arms, o)
    decreases arms
  {
    if arms.ACons? {
      if arms.guard.Some? { Conserved(p, arms.guard.value, o); }
      Conserved(p, arms.body, o);
      ArmsConserved(p, arms.rest, o);
    }
  }

  // ----- what evaluation needs to know ---------------------------------------------------------------------

  /** What a trusted name may hold: the closure of one lambda, or one native. */
  datatype Callee = Fun(id: nat) | Builtin(code: nat)

  /**
    The functions whose being bound is followed, those of them that a `def` binds,
    and for each lambda the names surely bound when its body runs.
  */
  datatype Plan = Plan(followed: set<Binding>, defined: set<Binding>, entry: map<nat, set<Binding>>)

  /** `kept` is the stripped program, and `needs` the names each pure function calls. */
  datatype Rules =
    Rules(pass: Pass, kept: Hir, trusted: map<Binding, Callee>, needs: map<Binding, set<Binding>>, plan: Option<Plan>)

  predicate Followed(k: Rules, b: Binding) {
    k.plan.Some? && b in k.plan.value.followed
  }

  predicate Defined(k: Rules, b: Binding) {
    k.plan.Some? && b in k.plan.value.defined
  }

  function EntryOf(k: Rules, id: nat): set<Binding> {
    if k.plan.Some? && id in k.plan.value.entry then k.plan.value.entry[id] else {}
  }

  function Len(es: Hirs): nat {
    match es
    case HNil => 0
    case HCons(_, rest) => 1 + Len(rest)
  }

  /** The name has no cell, and the stripped program nowhere reads, captures or assigns it; it may still bind it. */
  predicate Gone(k: Rules, x: Binding) {
    !x.boxed && Occ(k.kept, Use(x)) == 0 && Occ(k.kept, Caught(x)) == 0 && Occ(k.kept, Target(x)) == 0
  }

  /** A trusted name is bound to its own lambda. */
  predicate SiteOk(k: Rules, b: Binding, init: Hir) {
    b in k.trusted ==> init.Lambda? && k.trusted[b] == Fun(init.id)
  }

  predicate NameOk(k: Rules, b: Binding) {
    b !in k.trusted
  }

  predicate NamesOk(k: Rules, bs: seq<Binding>) {
    forall i :: 0 <= i < |bs| ==> NameOk(k, bs[i])
  }

  predicate CapturesOk(k: Rules, id: nat, cs: seq<Capture>) {
    forall i :: 0 <= i < |cs| ==>
      !Gone(k, cs[i].binding) && (cs[i].recursive && cs[i].binding in k.trusted ==> k.trusted[cs[i].binding] == Fun(id))
  }

  predicate OpOk(k: Rules, op: Op, args: Hirs) {
    match op
    case Assign(b) => !Gone(k, b) && NameOk(k, b)
    case SetCell(b) => !Gone(k, b) && NameOk(k, b)
    case Define(b) => args.HCons? ==> SiteOk(k, b, args.head)
    case Destructure(p, _) => NamesOk(k, p.vars)
    case _ => true
  }

  /** Effect-free, with every name it binds unboxed and untrusted, and gone when `gone`. */
  predicate Harmless(k: Rules, gone: bool, pure: set<Binding>, e: Hir)
    decreases e
  {
    match e
    case Lit(_) => true
    case Var(_) => true
    case Return(v) => Harmless(k, gone, pure, v)
    case If(c, t, els) => Harmless(k, gone, pure, c) && Harmless(k, gone, pure, t) && Harmless(k, gone, pure, els)
    case Cond(cl) => HarmlessClauses(k, gone, pure, cl)
    case Begin(es) => HarmlessAll(k, gone, pure, es)
    case Logic(_, es) => HarmlessAll(k, gone, pure, es)
    case Let(_, bs, body) => HarmlessBinds(k, gone, pure, bs) && Harmless(k, gone, pure, body)
    case Call(args, _, func, _) =>
      k.pass.facts.silent(e) && CalleePure(k.pass.facts, pure, func) && HarmlessAll(k, gone, pure, args)
    case Strict(op, args) => k.pass.facts.silent(e) && op.Intrinsic? && !op.funnel && HarmlessAll(k, gone, pure, args)
    case _ => false
  }

  predicate HarmlessAll(k: Rules, gone: bool, pure: set<Binding>, es: Hirs)
    decreases es
  {
    match es
    case HNil => true
    case HCons(e, rest) => Harmless(k, gone, pure, e) && HarmlessAll(k, gone, pure, rest)
  }

  predicate Quiet(k: Rules, gone: bool, b: Binding) {
    !b.boxed && b !in k.trusted && (gone ==> Gone(k, b))
  }

  predicate HarmlessBinds(k: Rules, gone: bool, pure: set<Binding>, bs: Binds)
    decreases bs
  {
    match bs
    case BNil => true
    case BCons(b, e, rest) => Quiet(k, gone, b) && Harmless(k, gone, pure, e) && HarmlessBinds(k, gone, pure, rest)
  }

  predicate HarmlessClauses(k: Rules, gone: bool, pure: set<Binding>, cl: Clauses)
    decreases cl
  {
    match cl
    case NoElse => true
    case Else(e) => Harmless(k, gone, pure, e)
    case Clause(c, b, rest) =>
      Harmless(k, gone, pure, c) && Harmless(k, gone, pure, b) && HarmlessClauses(k, gone, pure, rest)
  }

  /** No name that is gone is mentioned, trusted names are bound to their own lambdas alone, and drops are harmless. */
  predicate Obeys(k: Rules, e: Hir)
    decreases e
  {
    match e
    case Lit(_) => true
    case Poison => true
    case Var(b) => !Gone(k, b)
    case Let(_, bs, body) => ObeysLet(k, bs) && Obeys(k, body)
    case Lambda(id, ps, cs, body) => NamesOk(k, ps) && CapturesOk(k, id, cs) && Obeys(k, body)
    case If(c, t, f) => Obeys(k, c) && Obeys(k, t) && Obeys(k, f)
    case Cond(cl) => ObeysClauses(k, cl)
    case Begin(es) => ObeysAll(k, es)
    case Block(_, es) => ObeysAll(k, es)
    case Break(_, v) => Obeys(k, v)
    case Call(args, _, f, _) => ObeysAll(k, args) && Obeys(k, f)
    case While(c, body) => Obeys(k, c) && Obeys(k, body)
    case Loop(bs, body) => ObeysLoop(k, bs) && Obeys(k, body)
    case Match(v, arms) => Obeys(k, v) && ObeysArms(k, arms)
    case Logic(_, es) => ObeysAll(k, es)
    case Parameterize(ps, body) => ObeysAll(k, ps) && Obeys(k, body)
    case Strict(op, args) => OpOk(k, op, args) && ObeysAll(k, args)
    case Return(v) => Obeys(k, v)
  }

  predicate ObeysAll(k: Rules, es: Hirs)
    decreases es
  {
    match es
    case HNil => true
    case HCons(e, rest) => Obeys(k, e) && ObeysAll(k, rest)
  }

  predicate DropOk(k: Rules, b: Binding, init: Hir) {
    Gone(k, b) && !b.boxed && b !in k.trusted && Harmless(k, true, k.pass.pure, init)
  }

  predicate ObeysLet(k: Rules, bs: Binds)
    decreases bs
  {
    match bs
    case BNil => true
    case BCons(b, e, rest) =>
      && (if Eliminable(k.pass, b, e) then DropOk(k, b, e) else SiteOk(k, b, e) && Obeys(k, e))
      && ObeysLet(k, rest)
  }

  predicate ObeysLoop(k: Rules, bs: Binds)
    decreases bs
  {
    match bs
    case BNil => true
    case BCons(b, e, rest) => NameOk(k, b) && Obeys(k, e) && ObeysLoop(k, rest)
  }

  predicate ObeysClauses(k: Rules, cl: Clauses)
    decreases cl
  {
    match cl
    case NoElse => true
    case Else(e) => Obeys(k, e)
    case Clause(c, b, rest) => Obeys(k, c) && Obeys(k, b) && ObeysClauses(k, rest)
  }

  predicate ObeysArms(k: Rules, arms: Arms)
    decreases arms
  {
    match arms
    case ANil => true
    case ACons(p, g, b, rest) =>
      NamesOk(k, p.vars) && (g.Some? ==> Obeys(k, g.value)) && Obeys(k, b) && ObeysArms(k, rest)
  }
}
