/**
  Erasing what the compiler inserts. The ANF lift wraps a node as
  `(let [t e] t)` under a fresh name, and the return pass wraps a tail value in
  `Return`. `Erase` removes both, and `EvalErases` shows that evaluation cannot
  tell: an erased program runs to the same outcome, world and visible slots.

  `bound` is the arena's length before the lift, so a name at or past it is one
  the lift made. With `unmark`, erasing also clears the tail flags, which only an
  evaluator that ignores them may do.
*/
module Erasure {
  import opened Options
  import opened HirSyntax
  import opened HirEval

  datatype Mode = Mode(bound: nat, unmark: bool)

  // ----- erasing ---------------------------------------------------------------------

  /** `(let [t e] t)`, or `(let [t e] (return t))`, where `t` is a name the lift made. */
  predicate IsWrap(bound: nat, e: Hir) {
    && e.Let? && !e.rec && e.binds.BCons? && e.binds.rest.BNil?
    && e.binds.binding.id >= bound && !e.binds.binding.boxed
    && (e.body == Var(e.binds.binding) || e.body == Return(Var(e.binds.binding)))
  }

  function Erase(m: Mode, e: Hir): Hir {
    if IsWrap(m.bound, e) then Erase(m, e.binds.init)
    else match e
      case Lit(_) => e
      case Var(_) => e
      case Poison => e
      case Let(rec, bs, body) => Let(rec, EraseBinds(m, bs), Erase(m, body))
      case Lambda(id, ps, cs, body) => Lambda(id, ps, cs, Erase(m, body))
      case If(c, t, f) => If(Erase(m, c), Erase(m, t), Erase(m, f))
      case Cond(cl) => Cond(EraseClauses(m, cl))
      case Begin(es) => Begin(EraseAll(m, es))
      case Block(id, es) => Block(id, EraseAll(m, es))
      case Break(id, v) => Break(id, Erase(m, v))
      case Call(args, spliced, f, isTail) => Call(EraseAll(m, args), spliced, Erase(m, f), isTail && !m.unmark)
      case While(c, body) => While(Erase(m, c), Erase(m, body))
      case Loop(bs, body) => Loop(EraseBinds(m, bs), Erase(m, body))
      case Match(v, arms) => Match(Erase(m, v), EraseArms(m, arms))
      case Logic(conj, es) => Logic(conj, EraseAll(m, es))
      case Parameterize(ps, body) => Parameterize(EraseAll(m, ps), Erase(m, body))
      case Strict(op, args) => Strict(op, EraseAll(m, args))
      case Return(v) => Erase(m, v)
  }

  function EraseAll(m: Mode, es: Hirs): Hirs {
    match es
    case HNil => HNil
    case HCons(e, rest) => HCons(Erase(m, e), EraseAll(m, rest))
  }

  function EraseBinds(m: Mode, bs: Binds): Binds {
    match bs
    case BNil => BNil
    case BCons(b, e, rest) => BCons(b, Erase(m, e), EraseBinds(m, rest))
  }

  function EraseClauses(m: Mode, cl: Clauses): Clauses {
    match cl
    case NoElse => NoElse
    case Else(e) => Else(Erase(m, e))
    case Clause(c, b, rest) => Clause(Erase(m, c), Erase(m, b), EraseClauses(m, rest))
  }

  function EraseArms(m: Mode, arms: Arms): Arms {
    match arms
    case ANil => ANil
    case ACons(p, g, b, rest) =>
      ACons(p, if g.Some? then Some(Erase(m, g.value)) else None, Erase(m, b), EraseArms(m, rest))
  }

  function EraseFn(m: Mode, fn: Fn): Fn {
    fn.(body := Erase(m, fn.body))
  }

  // ----- a tree whose made names only forward ------------------------------------------

  predicate OldNames(bound: nat, bs: seq<Binding>) {
    forall i :: 0 <= i < |bs| ==> bs[i].id < bound
  }

  predicate OldCaptures(bound: nat, cs: seq<Capture>) {
    forall i :: 0 <= i < |cs| ==> cs[i].binding.id < bound
  }

  predicate OldOp(bound: nat, op: Op) {
    match op
    case SetCell(b) => b.id < bound
    case Assign(b) => b.id < bound
    case Define(b) => b.id < bound
    case Destructure(p, _) => OldNames(bound, p.vars)
    case _ => true
  }

  /** A name at or past `bound` occurs only as a wrap's name; every other name is older. */
  predicate Lifted(bound: nat, e: Hir) {
    if IsWrap(bound, e) then Lifted(bound, e.binds.init)
    else match e
      case Lit(_) => true
      case Var(b) => b.id < bound
      case Poison => true
      case Let(_, bs, body) => LiftedBinds(bound, bs) && Lifted(bound, body)
      case Lambda(_, ps, cs, body) => OldNames(bound, ps) && OldCaptures(bound, cs) && Lifted(bound, body)
      case If(c, t, f) => Lifted(bound, c) && Lifted(bound, t) && Lifted(bound, f)
      case Cond(cl) => LiftedClauses(bound, cl)
      case Begin(es) => LiftedAll(bound, es)
      case Block(_, es) => LiftedAll(bound, es)
      case Break(_, v) => Lifted(bound, v)
      case Call(args, _, f, _) => LiftedAll(bound, args) && Lifted(bound, f)
      case While(c, body) => Lifted(bound, c) && Lifted(bound, body)
      case Loop(bs, body) => LiftedBinds(bound, bs) && Lifted(bound, body)
      case Match(v, arms) => Lifted(bound, v) && LiftedArms(bound, arms)
      case Logic(_, es) => LiftedAll(bound, es)
      case Parameterize(ps, body) => LiftedAll(bound, ps) && Lifted(bound, body)
      case Strict(op, args) => OldOp(bound, op) && LiftedAll(bound, args)
      case Return(v) => Lifted(bound, v)
  }

  predicate LiftedAll(bound: nat, es: Hirs) {
    match es
    case HNil => true
    case HCons(e, rest) => Lifted(bound, e) && LiftedAll(bound, rest)
  }

  predicate LiftedBinds(bound: nat, bs: Binds) {
    match bs
    case BNil => true
    case BCons(b, e, rest) => b.id < bound && Lifted(bound, e) && LiftedBinds(bound, rest)
  }

  predicate LiftedClauses(bound: nat, cl: Clauses) {
    match cl
    case NoElse => true
    case Else(e) => Lifted(bound, e)
    case Clause(c, b, rest) => Lifted(bound, c) && Lifted(bound, b) && LiftedClauses(bound, rest)
  }

  predicate LiftedArms(bound: nat, arms: Arms) {
    match arms
    case ANil => true
    case ACons(p, g, b, rest) =>
      && OldNames(bound, p.vars) && (g.Some? ==> Lifted(bound, g.value))
      && Lifted(bound, b) && LiftedArms(bound, rest)
  }

  predicate LiftedFn(bound: nat, fn: Fn) {
    OldNames(bound, fn.params) && OldCaptures(bound, fn.captures) && Lifted(bound, fn.body)
  }

  // ----- evaluation cannot tell ----------------------------------------------------------

  /** `d` is `c` with every code object erased. */
  ghost predicate CtxErases(m: Mode, c: Ctx, d: Ctx) {
    && d.host == c.host && d.tco == c.tco && (m.unmark ==> !c.tco)
    && d.code.Keys == c.code.Keys
    && forall id :: id in c.code ==> LiftedFn(m.bound, c.code[id]) && d.code[id] == EraseFn(m, c.code[id])
  }

  ghost predicate SameSlots(bound: nat, f: Frame, g: Frame) {
    forall b: Binding :: b.id < bound ==> (b in f <==> b in g) && (b in f ==> f[b] == g[b])
  }

  /** The states differ in made names and in mint counts only. */
  ghost predicate Sim(bound: nat, s: State, t: State) {
    s.dyn == t.dyn && s.world == t.world && SameSlots(bound, s.frame, t.frame)
  }

  ghost predicate ResSim(bound: nat, r: Res, s: Res) {
    r.out == s.out && Sim(bound, r.st, s.st)
  }

  ghost predicate OpsSim(bound: nat, r: OpsRes, s: OpsRes) {
    match r
    case Vals(vs, st) => s.Vals? && s.values == vs && Sim(bound, st, s.st)
    case Stop(x) => s.Stop? && ResSim(bound, x, s.res)
  }

  ghost predicate BindsSim(bound: nat, r: BindRes, s: BindRes) {
    match r
    case Bound(st) => s.Bound? && Sim(bound, st, s.st)
    case Halt(x) => s.Halt? && ResSim(bound, x, s.res)
  }

  lemma {:induction false} StoreAllSim(bound: nat, s: State, t: State, bs: seq<Binding>, vs: seq<Value>)
    requires Sim(bound, s, t) && OldNames(bound, bs)
    ensures Sim(bound, StoreAll(s, bs, vs), StoreAll(t, bs, vs))
    decreases |bs|
  {
    if bs != [] && vs != [] {
      StoreAllSim(bound, Store(s, bs[0], vs[0]), Store(t, bs[0], vs[0]), bs[1..], vs[1..]);
    }
  }

  lemma {:induction false} BindAllSim(bound: nat, s: State, t: State, bs: seq<Binding>, vs: seq<Value>)
    requires Sim(bound, s, t) && OldNames(bound, bs)
    ensures Sim(bound, BindAll(s, bs, vs), BindAll(t, bs, vs))
    decreases |bs|
  {
    if bs != [] && vs != [] {
      BindAllSim(bound, Bind(s, bs[0], vs[0]), Bind(t, bs[0], vs[0]), bs[1..], vs[1..]);
    }
  }

  lemma {:induction false} WriteAllSim(bound: nat, s: State, t: State, bs: seq<Binding>, vs: seq<Value>)
    requires Sim(bound, s, t) && OldNames(bound, bs) && |bs| == |vs|
    ensures Sim(bound, WriteAll(s, bs, vs), WriteAll(t, bs, vs))
    decreases |bs|
  {
    if bs != [] {
      WriteAllSim(bound, Write(s, bs[0], vs[0]), Write(t, bs[0], vs[0]), bs[1..], vs[1..]);
    }
  }

  lemma {:induction false} PrebindSim(m: Mode, s: State, t: State, bs: Binds)
    requires Sim(m.bound, s, t) && LiftedBinds(m.bound, bs)
    ensures Sim(m.bound, Prebind(s, bs), Prebind(t, EraseBinds(m, bs)))
    decreases bs
  {
    if bs.BCons? {
      var b := bs.binding;
      PrebindSim(m, if b.boxed then Bind(s, b, NilValue) else s, if b.boxed then Bind(t, b, NilValue) else t, bs.rest);
    }
  }

  lemma {:induction false} NamesErase(m: Mode, bs: Binds)
    requires LiftedBinds(m.bound, bs)
    ensures BinderNames(EraseBinds(m, bs)) == BinderNames(bs) && OldNames(m.bound, BinderNames(bs))
  {
    if bs.BCons? { NamesErase(m, bs.rest); }
  }

  lemma SimTransitive(bound: nat, r: Res, s: Res, t: Res)
    requires ResSim(bound, r, s) && ResSim(bound, s, t)
    ensures ResSim(bound, r, t)
  {}

  lemma StoreSim(bound: nat, s: State, t: State, b: Binding, v: Value)
    requires Sim(bound, s, t) && b.id < bound
    ensures Sim(bound, Bind(s, b, v), Bind(t, b, v)) && Sim(bound, Write(s, b, v), Write(t, b, v))
  {}

  lemma ReadSim(bound: nat, s: State, t: State, b: Binding)
    requires Sim(bound, s, t) && b.id < bound
    ensures Read(s, b) == Read(t, b)
  {}

  lemma CapturedSim(bound: nat, s: State, t: State, cs: seq<Capture>)
    requires Sim(bound, s, t) && OldCaptures(bound, cs)
    ensures Captured(s.frame, cs) == Captured(t.frame, cs)
  {
    forall b | Capture(b, false) in cs ensures b.id < bound {
      var i :| 0 <= i < |cs| && cs[i] == Capture(b, false);
    }
  }

  lemma PerformSim(bound: nat, host: Host, op: Op, vs: seq<Value>, s: State, t: State)
    requires Sim(bound, s, t) && OldOp(bound, op)
    ensures ResSim(bound, Perform(host, op, vs, s), Perform(host, op, vs, t))
  {
    if op.Destructure? {
      var r := host(MatchOp(op.pattern.shape), vs, s.world);
      if r.Done? { StoreAllSim(bound, s.(world := r.world), t.(world := r.world), op.pattern.vars, r.values); }
    }
  }

  /**
    Running a lifted, return-wrapped tree and running the tree it erases to gives
    the same outcome, value, break or recur or frame replacement alike.
  */
  lemma {:induction false} EvalErases(m: Mode, c: Ctx, d: Ctx, n: nat, e: Hir, s: State, t: State)
    requires CtxErases(m, c, d) && Lifted(m.bound, e) && Sim(m.bound, s, t)
    ensures ResSim(m.bound, Eval(c, n, e, s), Eval(d, n, Erase(m, e), t))
    decreases n, 1, e, 1
  {
    hide CtxErases, SameSlots;
    if IsWrap(m.bound, e) {
      EvalErases(m, c, d, n, e.binds.init, s, t);
      WrapForwards(m, c, n, e, s);
      SimTransitive(m.bound, Eval(c, n, e, s), Eval(c, n, e.binds.init, s), Eval(d, n, Erase(m, e), t));
      return;
    }
    match e
    case Lit(_) =>
    case Var(b) => ReadSim(m.bound, s, t, b);
    case Poison =>
    case Lambda(_, _, cs, _) => CapturedSim(m.bound, s, t, cs);
    case Let(_, _, _) => BinderErases(m, c, d, n, e, s, t);
    case If(test, thn, els) =>
      EvalErases(m, c, d, n, test, s, t);
      var r, q := Eval(c, n, test, s), Eval(d, n, Erase(m, test), t);
      if r.out.Val? {
        EvalErases(m, c, d, n, thn, r.st, q.st);
        EvalErases(m, c, d, n, els, r.st, q.st);
      }
    case Cond(cl) => ClausesErase(m, c, d, n, cl, s, t);
    case Begin(es) => SeqErases(m, c, d, n, es, s, t);
    case Block(_, es) => SeqErases(m, c, d, n, es, s, t);
    case Break(_, x) => EvalErases(m, c, d, n, x, s, t);
    case Call(_, _, _, _) => StrictErases(m, c, d, n, e, s, t);
    case While(test, body) => WhileErases(m, c, d, n, test, body, s, t);
    case Loop(_, _) => BinderErases(m, c, d, n, e, s, t);
    case Match(x, arms) =>
      EvalErases(m, c, d, n, x, s, t);
      var r, q := Eval(c, n, x, s), Eval(d, n, Erase(m, x), t);
      if r.out.Val? { ArmsErase(m, c, d, n, r.out.value, arms, r.st, q.st); }
    case Logic(conj, es) => LogicErases(m, c, d, n, conj, es, s, t);
    case Parameterize(_, _) => StrictErases(m, c, d, n, e, s, t);
    case Strict(_, _) => StrictErases(m, c, d, n, e, s, t);
    case Return(x) => EvalErases(m, c, d, n, x, s, t);
  }

  lemma {:induction false} BinderErases(m: Mode, c: Ctx, d: Ctx, n: nat, e: Hir, s: State, t: State)
    requires CtxErases(m, c, d) && Lifted(m.bound, e) && Sim(m.bound, s, t)
    requires !IsWrap(m.bound, e) && (e.Let? || e.Loop?)
    ensures ResSim(m.bound, Eval(c, n, e, s), Eval(d, n, Erase(m, e), t))
    decreases n, 1, e, 0
  {
    hide CtxErases, SameSlots;
    match e
    case Let(rec, bs, body) =>
      PrebindSim(m, s, t, bs);
      var s0, t0 := if rec then Prebind(s, bs) else s, if rec then Prebind(t, EraseBinds(m, bs)) else t;
      BindsErase(m, c, d, n, rec, bs, s0, t0);
      var r, q := EvalBinds(c, n, rec, bs, s0), EvalBinds(d, n, rec, EraseBinds(m, bs), t0);
      if r.Bound? { EvalErases(m, c, d, n, body, r.st, q.st); }
    case Loop(bs, body) =>
      BindsErase(m, c, d, n, false, bs, s, t);
      NamesErase(m, bs);
      var r, q := EvalBinds(c, n, false, bs, s), EvalBinds(d, n, false, EraseBinds(m, bs), t);
      if r.Bound? { LoopErases(m, c, d, n, BinderNames(bs), body, r.st, q.st); }
  }

  lemma {:induction false} StrictErases(m: Mode, c: Ctx, d: Ctx, n: nat, e: Hir, s: State, t: State)
    requires CtxErases(m, c, d) && Lifted(m.bound, e) && Sim(m.bound, s, t)
    requires e.Call? || e.Parameterize? || e.Strict?
    ensures ResSim(m.bound, Eval(c, n, e, s), Eval(d, n, Erase(m, e), t))
    decreases n, 1, e, 0
  {
    assert d.host == c.host;
    hide CtxErases, SameSlots;
    match e
    case Call(args, spliced, func, isTail) =>
      OpsErase(m, c, d, n, args, s, t);
      var a, b := EvalOps(c, n, args, s), EvalOps(d, n, EraseAll(m, args), t);
      if a.Vals? {
        EvalErases(m, c, d, n, func, a.st, b.st);
        var r, q := Eval(c, n, func, a.st), Eval(d, n, Erase(m, func), b.st);
        if r.out.Val? { InvokeErases(m, c, d, n, r.out.value, a.values, spliced, isTail, r.st, q.st); }
      }
    case Parameterize(pairs, body) =>
      OpsErase(m, c, d, n, pairs, s, t);
      var a, b := EvalOps(c, n, pairs, s), EvalOps(d, n, EraseAll(m, pairs), t);
      if a.Vals? {
        var dyn := Overlay(a.st.dyn, a.values);
        EvalErases(m, c, d, n, body, a.st.(dyn := dyn), b.st.(dyn := dyn));
      }
    case Strict(op, args) =>
      OpsErase(m, c, d, n, args, s, t);
      var a, b := EvalOps(c, n, args, s), EvalOps(d, n, EraseAll(m, args), t);
      if a.Vals? { PerformSim(m.bound, c.host, op, a.values, a.st, b.st); }
  }

  /** A wrap forwards its node's value, having written the slot of a made name. */
  lemma WrapForwards(m: Mode, c: Ctx, n: nat, e: Hir, s: State)
    requires IsWrap(m.bound, e)
    ensures ResSim(m.bound, Eval(c, n, e, s), Eval(c, n, e.binds.init, s))
  {
    var b := e.binds.binding;
    var r := Eval(c, n, e.binds.init, s);
    if r.out.Val? {
      assert EvalBinds(c, n, false, BNil, Bind(r.st, b, r.out.value)) == Bound(Bind(r.st, b, r.out.value));
      assert Eval(c, n, Var(b), Bind(r.st, b, r.out.value)) == Res(r.out, Bind(r.st, b, r.out.value));
    }
  }

  lemma {:induction false} OpsErase(m: Mode, c: Ctx, d: Ctx, n: nat, es: Hirs, s: State, t: State)
    requires CtxErases(m, c, d) && LiftedAll(m.bound, es) && Sim(m.bound, s, t)
    ensures OpsSim(m.bound, EvalOps(c, n, es, s), EvalOps(d, n, EraseAll(m, es), t))
    decreases n, 1, es, 0
  {
    hide CtxErases, SameSlots;
    if es.HCons? {
      EvalErases(m, c, d, n, es.head, s, t);
      var r, q := Eval(c, n, es.head, s), Eval(d, n, Erase(m, es.head), t);
      if r.out.Val? { OpsErase(m, c, d, n, es.tail, r.st, q.st); }
    }
  }

  lemma {:induction false} BindsErase(m: Mode, c: Ctx, d: Ctx, n: nat, rec: bool, bs: Binds, s: State, t: State)
    requires CtxErases(m, c, d) && LiftedBinds(m.bound, bs) && Sim(m.bound, s, t)
    ensures BindsSim(m.bound, EvalBinds(c, n, rec, bs, s), EvalBinds(d, n, rec, EraseBinds(m, bs), t))
    decreases n, 1, bs, 0
  {
    hide CtxErases, SameSlots;
    if bs.BCons? {
      EvalErases(m, c, d, n, bs.init, s, t);
      var r, q := Eval(c, n, bs.init, s), Eval(d, n, Erase(m, bs.init), t);
      if r.out.Val? {
        var b, v := bs.binding, r.out.value;
        StoreSim(m.bound, r.st, q.st, b, v);
        BindsErase(m, c, d, n, rec, bs.rest,
                   if rec then Write(r.st, b, v) else Bind(r.st, b, v),
                   if rec then Write(q.st, b, v) else Bind(q.st, b, v));
      }
    }
  }

  lemma {:induction false} SeqErases(m: Mode, c: Ctx, d: Ctx, n: nat, es: Hirs, s: State, t: State)
    requires CtxErases(m, c, d) && LiftedAll(m.bound, es) && Sim(m.bound, s, t)
    ensures ResSim(m.bound, EvalSeq(c, n, es, s), EvalSeq(d, n, EraseAll(m, es), t))
    decreases n, 1, es, 0
  {
    hide CtxErases, SameSlots;
    if es.HCons? {
      EvalErases(m, c, d, n, es.head, s, t);
      var r, q := Eval(c, n, es.head, s), Eval(d, n, Erase(m, es.head), t);
      if es.tail.HCons? && r.out.Val? { SeqErases(m, c, d, n, es.tail, r.st, q.st); }
    }
  }

  lemma {:induction false} LogicErases(m: Mode, c: Ctx, d: Ctx, n: nat, conj: bool, es: Hirs, s: State, t: State)
    requires CtxErases(m, c, d) && LiftedAll(m.bound, es) && Sim(m.bound, s, t)
    ensures ResSim(m.bound, EvalLogic(c, n, conj, es, s), EvalLogic(d, n, conj, EraseAll(m, es), t))
    decreases n, 1, es, 0
  {
    hide CtxErases, SameSlots;
    if es.HCons? {
      EvalErases(m, c, d, n, es.head, s, t);
      var r, q := Eval(c, n, es.head, s), Eval(d, n, Erase(m, es.head), t);
      if es.tail.HCons? && r.out.Val? { LogicErases(m, c, d, n, conj, es.tail, r.st, q.st); }
    }
  }

  lemma {:induction false} ClausesErase(m: Mode, c: Ctx, d: Ctx, n: nat, cl: Clauses, s: State, t: State)
    requires CtxErases(m, c, d) && LiftedClauses(m.bound, cl) && Sim(m.bound, s, t)
    ensures ResSim(m.bound, EvalClauses(c, n, cl, s), EvalClauses(d, n, EraseClauses(m, cl), t))
    decreases n, 1, cl, 0
  {
    hide CtxErases, SameSlots;
    match cl
    case NoElse =>
    case Else(e) => EvalErases(m, c, d, n, e, s, t);
    case Clause(test, body, rest) =>
      EvalErases(m, c, d, n, test, s, t);
      var r, q := Eval(c, n, test, s), Eval(d, n, Erase(m, test), t);
      if r.out.Val? {
        EvalErases(m, c, d, n, body, r.st, q.st);
        ClausesErase(m, c, d, n, rest, r.st, q.st);
      }
  }

  lemma {:induction false} ArmsErase(m: Mode, c: Ctx, d: Ctx, n: nat, v: Value, arms: Arms, s: State, t: State)
    requires CtxErases(m, c, d) && LiftedArms(m.bound, arms) && Sim(m.bound, s, t)
    ensures ResSim(m.bound, EvalArms(c, n, v, arms, s), EvalArms(d, n, v, EraseArms(m, arms), t))
    decreases n, 1, arms, 0
  {
    assert d.host == c.host;
    hide CtxErases, SameSlots;
    if arms.ACons? {
      match c.host(MatchOp(arms.pattern.shape), [v], s.world)
      case Raised(w) => ArmsErase(m, c, d, n, v, arms.rest, s.(world := w), t.(world := w));
      case Done(vs, w) =>
        BindAllSim(m.bound, s.(world := w), t.(world := w), arms.pattern.vars, vs);
        var s1, t1 := BindAll(s.(world := w), arms.pattern.vars, vs), BindAll(t.(world := w), arms.pattern.vars, vs);
        if arms.guard.None? {
          EvalErases(m, c, d, n, arms.body, s1, t1);
        } else {
          EvalErases(m, c, d, n, arms.guard.value, s1, t1);
          var r, q := Eval(c, n, arms.guard.value, s1), Eval(d, n, Erase(m, arms.guard.value), t1);
          if r.out.Val? {
            EvalErases(m, c, d, n, arms.body, r.st, q.st);
            ArmsErase(m, c, d, n, v, arms.rest, r.st, q.st);
          }
        }
    }
  }

  lemma {:induction false} WhileErases(m: Mode, c: Ctx, d: Ctx, n: nat, test: Hir, body: Hir, s: State, t: State)
    requires CtxErases(m, c, d) && Lifted(m.bound, test) && Lifted(m.bound, body) && Sim(m.bound, s, t)
    ensures ResSim(m.bound, RunWhile(c, n, test, body, s), RunWhile(d, n, Erase(m, test), Erase(m, body), t))
    decreases n, 1, While(test, body), 0
  {
    hide CtxErases, SameSlots;
    EvalErases(m, c, d, n, test, s, t);
    var r, q := Eval(c, n, test, s), Eval(d, n, Erase(m, test), t);
    if r.out.Val? && Truthy(r.out.value) {
      EvalErases(m, c, d, n, body, r.st, q.st);
      var r1, q1 := Eval(c, n, body, r.st), Eval(d, n, Erase(m, body), q.st);
      if r1.out.Val? && n > 0 { WhileErases(m, c, d, n - 1, test, body, r1.st, q1.st); }
    }
  }

  lemma {:induction false} LoopErases(m: Mode, c: Ctx, d: Ctx, n: nat, names: seq<Binding>, body: Hir, s: State,
          t: State)
    requires CtxErases(m, c, d) && OldNames(m.bound, names) && Lifted(m.bound, body) && Sim(m.bound, s, t)
    ensures ResSim(m.bound, RunLoop(c, n, names, body, s), RunLoop(d, n, names, Erase(m, body), t))
    decreases n, 1, body, 2
  {
    hide CtxErases, SameSlots;
    EvalErases(m, c, d, n, body, s, t);
    var r, q := Eval(c, n, body, s), Eval(d, n, Erase(m, body), t);
    if r.out.Again? && |r.out.values| == |names| && n > 0 {
      WriteAllSim(m.bound, r.st, q.st, names, r.out.values);
      LoopErases(m, c, d, n - 1, names, body, WriteAll(r.st, names, r.out.values), WriteAll(q.st, names, r.out.values));
    }
  }

  lemma CtxFacts(m: Mode, c: Ctx, d: Ctx)
    requires CtxErases(m, c, d)
    ensures d.host == c.host && d.tco == c.tco && (m.unmark ==> !c.tco)
  {}

  lemma {:induction false} InvokeErases(m: Mode, c: Ctx, d: Ctx, n: nat, f: Value, vs: seq<Value>, spliced: seq<bool>,
                                        isTail: bool, s: State, t: State)
    requires CtxErases(m, c, d) && Sim(m.bound, s, t)
    ensures ResSim(m.bound, Invoke(c, n, f, vs, spliced, isTail, s),
              Invoke(d, n, f, vs, spliced, isTail && !m.unmark, t))
    decreases n, 0
  {
    hide CtxErases, SameSlots;
    CtxFacts(m, c, d);
    match Spread(c.host, spliced, vs, s.world)
    case Raised(w) =>
    case Done(args, w) => if n > 0 { ApplyErases(m, c, d, n - 1, f, args, s.(world := w), t.(world := w)); }
  }

  lemma {:induction false} ApplyErases(m: Mode, c: Ctx, d: Ctx, n: nat, f: Value, args: seq<Value>, s: State, t: State)
    requires CtxErases(m, c, d) && Sim(m.bound, s, t)
    ensures ResSim(m.bound, Apply(c, n, f, args, s), Apply(d, n, f, args, t))
    decreases n, 2
  {
    if f.Closure? && f.id in c.code {
      match c.host(ArrangeOp(f.id), args, s.world)
      case Raised(w) =>
      case Done(vs, w) =>
        var fn := c.code[f.id];
        var entry := BindAll(State(EntryFrame(f, fn), s.dyn, w, 0), fn.params, vs);
        EvalErases(m, c, d, n, fn.body, entry, entry);
    }
  }
}
