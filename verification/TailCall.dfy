/**
  Tail-call marking. `Mark` is the pass; `TailSafe` is what it establishes, and
  `EvalAgrees` is why that is enough: in a tail-safe program a
  marked call that discards the rest of its frame computes what an ordinary call
  computes, also when the call sits in a `break` that leaves loops, call
  arguments or a `parameterize` for a block in tail position.
*/
module TailCall {
  import opened Options
  import opened HirSyntax
  import opened HirEval

  // ----- the pass ------------------------------------------------------------------

  function MarkTailCalls(e: Hir): Hir {
    Mark(e, false, {})
  }

  function Mark(e: Hir, inTail: bool, blocks: set<BlockId>): Hir {
    match e
    case Lit(_) => e
    case Var(_) => e
    case Poison => e
    case Lambda(id, ps, cs, body) => Lambda(id, ps, cs, Mark(body, true, {}))
    case Call(args, spliced, func, _) => Call(MarkAll(args, blocks), spliced, Mark(func, false, blocks), inTail)
    case If(c, t, f) => If(Mark(c, false, blocks), Mark(t, inTail, blocks), Mark(f, inTail, blocks))
    case Begin(es) => Begin(MarkSeq(es, inTail, blocks))
    case Let(rec, bs, body) => Let(rec, MarkBinds(bs, blocks), Mark(body, inTail, blocks))
    case Cond(cl) => Cond(MarkClauses(cl, inTail, blocks))
    case Match(v, arms) => Match(Mark(v, false, blocks), MarkArms(arms, inTail, blocks))
    case Logic(conj, es) => Logic(conj, MarkSeq(es, inTail, blocks))
    case Block(id, es) =>
      if inTail then Block(id, MarkSeq(es, true, blocks + {id})) else Block(id, MarkAll(es, blocks))
    case Break(id, v) => Break(id, Mark(v, id in blocks, blocks))
    case While(c, body) => While(Mark(c, false, blocks), Mark(body, false, blocks))
    case Loop(bs, body) => Loop(MarkBinds(bs, blocks), Mark(body, false, blocks))
    case Parameterize(ps, body) => Parameterize(MarkAll(ps, blocks), Mark(body, false, blocks))
    case Strict(op, args) => Strict(op, MarkAll(args, blocks))
    case Return(v) => Return(Mark(v, inTail, blocks))
  }

  function MarkAll(es: Hirs, blocks: set<BlockId>): Hirs {
    match es
    case HNil => HNil
    case HCons(e, rest) => HCons(Mark(e, false, blocks), MarkAll(rest, blocks))
  }

  /** Only the last expression inherits tail position. */
  function MarkSeq(es: Hirs, inTail: bool, blocks: set<BlockId>): Hirs {
    match es
    case HNil => HNil
    case HCons(e, rest) => HCons(Mark(e, inTail && rest.HNil?, blocks), MarkSeq(rest, inTail, blocks))
  }

  function MarkBinds(bs: Binds, blocks: set<BlockId>): Binds {
    match bs
    case BNil => BNil
    case BCons(b, e, rest) => BCons(b, Mark(e, false, blocks), MarkBinds(rest, blocks))
  }

  function MarkClauses(cl: Clauses, inTail: bool, blocks: set<BlockId>): Clauses {
    match cl
    case NoElse => NoElse
    case Else(e) => Else(Mark(e, inTail, blocks))
    case Clause(c, b, rest) =>
      Clause(Mark(c, false, blocks), Mark(b, inTail, blocks), MarkClauses(rest, inTail, blocks))
  }

  function MarkArms(arms: Arms, inTail: bool, blocks: set<BlockId>): Arms {
    match arms
    case ANil => ANil
    case ACons(p, g, b, rest) =>
      ACons(p, if g.Some? then Some(Mark(g.value, false, blocks)) else None,
            Mark(b, inTail, blocks), MarkArms(rest, inTail, blocks))
  }

  // ----- what the pass establishes -------------------------------------------------

  /**
    Every marked call's value is the frame's result: the call is in tail position,
    or in a `break` to one of `blocks`, the enclosing blocks in tail position. A
    block outside tail position must not reuse one of their ids. When `exact`,
    every call in tail position is marked, too.
  */
  predicate TailSafe(exact: bool, e: Hir, inTail: bool, blocks: set<BlockId>) {
    match e
    case Lit(_) => true
    case Var(_) => true
    case Poison => true
    case Lambda(_, _, _, body) => TailSafe(exact, body, true, {})
    case Call(args, _, func, isTail) =>
      && (if exact then isTail == inTail else isTail ==> inTail)
      && AllSafe(exact, args, blocks) && TailSafe(exact, func, false, blocks)
    case If(c, t, f) =>
      TailSafe(exact, c, false, blocks) && TailSafe(exact, t, inTail, blocks) && TailSafe(exact, f, inTail, blocks)
    case Begin(es) => SeqSafe(exact, es, inTail, blocks)
    case Let(_, bs, body) => BindsSafe(exact, bs, blocks) && TailSafe(exact, body, inTail, blocks)
    case Cond(cl) => ClausesSafe(exact, cl, inTail, blocks)
    case Match(v, arms) => TailSafe(exact, v, false, blocks) && ArmsSafe(exact, arms, inTail, blocks)
    case Logic(_, es) => SeqSafe(exact, es, inTail, blocks)
    case Block(id, es) =>
      if inTail then SeqSafe(exact, es, true, blocks + {id}) else id !in blocks && SeqSafe(exact, es, false, blocks)
    case Break(id, v) => TailSafe(exact, v, id in blocks, blocks)
    case While(c, body) => TailSafe(exact, c, false, blocks) && TailSafe(exact, body, false, blocks)
    case Loop(bs, body) => BindsSafe(exact, bs, blocks) && TailSafe(exact, body, false, blocks)
    case Parameterize(ps, body) => AllSafe(exact, ps, blocks) && TailSafe(exact, body, false, blocks)
    case Strict(_, args) => AllSafe(exact, args, blocks)
    case Return(v) => TailSafe(exact, v, inTail, blocks)
  }

  predicate AllSafe(exact: bool, es: Hirs, blocks: set<BlockId>) {
    match es
    case HNil => true
    case HCons(e, rest) => TailSafe(exact, e, false, blocks) && AllSafe(exact, rest, blocks)
  }

  predicate SeqSafe(exact: bool, es: Hirs, inTail: bool, blocks: set<BlockId>) {
    match es
    case HNil => true
    case HCons(e, rest) => TailSafe(exact, e, inTail && rest.HNil?, blocks) && SeqSafe(exact, rest, inTail, blocks)
  }

  predicate BindsSafe(exact: bool, bs: Binds, blocks: set<BlockId>) {
    match bs
    case BNil => true
    case BCons(_, e, rest) => TailSafe(exact, e, false, blocks) && BindsSafe(exact, rest, blocks)
  }

  predicate ClausesSafe(exact: bool, cl: Clauses, inTail: bool, blocks: set<BlockId>) {
    match cl
    case NoElse => true
    case Else(e) => TailSafe(exact, e, inTail, blocks)
    case Clause(c, b, rest) =>
      TailSafe(exact, c, false, blocks) && TailSafe(exact, b, inTail, blocks)
          && ClausesSafe(exact, rest, inTail, blocks)
  }

  predicate ArmsSafe(exact: bool, arms: Arms, inTail: bool, blocks: set<BlockId>) {
    match arms
    case ANil => true
    case ACons(_, g, b, rest) =>
      (g.Some? ==> TailSafe(exact, g.value, false, blocks)) && TailSafe(exact, b, inTail, blocks)
          && ArmsSafe(exact, rest, inTail, blocks)
  }

  // ----- a marked call that replaces its frame computes what a call computes --------

  ghost predicate CodeSafe(exact: bool, code: Code) {
    forall id :: id in code ==> TailSafe(exact, code[id].body, true, {})
  }

  /**
    `r` ran with frame replacement and `s` without. They agree, and where `r`
    replaced the frame, `s` has the same value on its way to being the frame's
    result: returned from tail position, or breaking to a block in tail position.
  */
  ghost predicate Agree(r: Res, s: Res, inTail: bool, blocks: set<BlockId>) {
    if r.out.Replaced? then
      && r.st.(mints := 0) == s.st.(mints := 0)
      && ((inTail && s.out == Val(r.out.value)) || (s.out.Brk? && s.out.id in blocks && s.out.value == r.out.value))
    else
      r == s
  }

  ghost predicate OpsAgree(r: OpsRes, s: OpsRes, blocks: set<BlockId>) {
    if r.Stop? then s.Stop? && Agree(r.res, s.res, false, blocks) else r == s
  }

  ghost predicate BindsAgree(r: BindRes, s: BindRes, blocks: set<BlockId>) {
    if r.Halt? then s.Halt? && Agree(r.res, s.res, false, blocks) else r == s
  }

  lemma {:induction false} EvalAgrees(exact: bool, c: Ctx, n: nat, e: Hir, st: State, inTail: bool,
          blocks: set<BlockId>)
    requires c.tco && CodeSafe(exact, c.code) && TailSafe(exact, e, inTail, blocks)
    ensures Agree(Eval(c, n, e, st), Eval(c.(tco := false), n, e, st), inTail, blocks)
    decreases n, 1, e, 1, 1
  {
    var d := c.(tco := false);
    match e
    case Lit(_) =>
    case Var(_) =>
    case Poison =>
    case Lambda(_, _, _, _) =>
    case Let(_, _, _) => EvalAgreesBinder(exact, c, n, e, st, inTail, blocks);
    case If(_, _, _) => EvalAgreesBranch(exact, c, n, e, st, inTail, blocks);
    case Cond(cl) => ClausesAgree(exact, c, n, cl, st, inTail, blocks);
    case Begin(es) => SeqAgrees(exact, c, n, es, st, inTail, blocks);
    case Block(id, es) => SeqAgrees(exact, c, n, es, st, inTail, if inTail then blocks + {id} else blocks);
    case Break(id, x) => EvalAgrees(exact, c, n, x, st, id in blocks, blocks);
    case Call(_, _, _, _) => EvalAgreesBranch(exact, c, n, e, st, inTail, blocks);
    case While(test, body) => WhileAgrees(exact, c, n, test, body, st, blocks);
    case Loop(_, _) => EvalAgreesBinder(exact, c, n, e, st, inTail, blocks);
    case Match(_, _) => EvalAgreesBranch(exact, c, n, e, st, inTail, blocks);
    case Logic(conj, es) => LogicAgrees(exact, c, n, conj, es, st, inTail, blocks);
    case Parameterize(_, _) => EvalAgreesBinder(exact, c, n, e, st, inTail, blocks);
    case Strict(op, args) => OpsAgreeLemma(exact, c, n, args, st, blocks);
    case Return(x) => EvalAgrees(exact, c, n, x, st, inTail, blocks);
  }

  lemma {:induction false} EvalAgreesBinder(exact: bool, c: Ctx, n: nat, e: Hir, st: State, inTail: bool,
          blocks: set<BlockId>)
    requires c.tco && CodeSafe(exact, c.code) && TailSafe(exact, e, inTail, blocks)
    requires e.Let? || e.Loop? || e.Parameterize?
    ensures Agree(Eval(c, n, e, st), Eval(c.(tco := false), n, e, st), inTail, blocks)
    decreases n, 1, e, 1, 0
  {
    var d := c.(tco := false);
    match e
    case Let(rec, bs, body) =>
      var st0 := if rec then Prebind(st, bs) else st;
      BindsAgreeLemma(exact, c, n, rec, bs, st0, blocks);
      var r := EvalBinds(c, n, rec, bs, st0);
      if r.Bound? { EvalAgrees(exact, c, n, body, r.st, inTail, blocks); }
    case Loop(bs, body) =>
      BindsAgreeLemma(exact, c, n, false, bs, st, blocks);
      var r := EvalBinds(c, n, false, bs, st);
      if r.Bound? { LoopAgrees(exact, c, n, BinderNames(bs), body, r.st, blocks); }
    case Parameterize(pairs, body) =>
      OpsAgreeLemma(exact, c, n, pairs, st, blocks);
      var a := EvalOps(c, n, pairs, st);
      if a.Vals? { EvalAgrees(exact, c, n, body, a.st.(dyn := Overlay(a.st.dyn, a.values)), false, blocks); }
  }

  lemma {:induction false} EvalAgreesBranch(exact: bool, c: Ctx, n: nat, e: Hir, st: State, inTail: bool,
          blocks: set<BlockId>)
    requires c.tco && CodeSafe(exact, c.code) && TailSafe(exact, e, inTail, blocks)
    requires e.If? || e.Match? || e.Call?
    ensures Agree(Eval(c, n, e, st), Eval(c.(tco := false), n, e, st), inTail, blocks)
    decreases n, 1, e, 1, 0
  {
    var d := c.(tco := false);
    match e
    case If(test, thn, els) =>
      EvalAgrees(exact, c, n, test, st, false, blocks);
      var r := Eval(c, n, test, st);
      if r.out.Val? {
        EvalAgrees(exact, c, n, thn, r.st, inTail, blocks);
        EvalAgrees(exact, c, n, els, r.st, inTail, blocks);
      }
    case Match(x, arms) =>
      EvalAgrees(exact, c, n, x, st, false, blocks);
      var r := Eval(c, n, x, st);
      if r.out.Val? { ArmsAgree(exact, c, n, r.out.value, arms, r.st, inTail, blocks); }
    case Call(args, spliced, func, isTail) =>
      OpsAgreeLemma(exact, c, n, args, st, blocks);
      var a := EvalOps(c, n, args, st);
      if a.Vals? {
        EvalAgrees(exact, c, n, func, a.st, false, blocks);
        var r := Eval(c, n, func, a.st);
        if r.out.Val? { InvokeAgrees(exact, c, n, r.out.value, a.values, spliced, isTail, r.st); }
      }
  }

  lemma {:induction false} OpsAgreeLemma(exact: bool, c: Ctx, n: nat, es: Hirs, st: State, blocks: set<BlockId>)
    requires c.tco && CodeSafe(exact, c.code) && AllSafe(exact, es, blocks)
    ensures OpsAgree(EvalOps(c, n, es, st), EvalOps(c.(tco := false), n, es, st), blocks)
    decreases n, 1, es, 0
  {
    if es.HCons? {
      EvalAgrees(exact, c, n, es.head, st, false, blocks);
      var r := Eval(c, n, es.head, st);
      if r.out.Val? { OpsAgreeLemma(exact, c, n, es.tail, r.st, blocks); }
    }
  }

  lemma {:induction false} BindsAgreeLemma(exact: bool, c: Ctx, n: nat, rec: bool, bs: Binds, st: State,
          blocks: set<BlockId>)
    requires c.tco && CodeSafe(exact, c.code) && BindsSafe(exact, bs, blocks)
    ensures BindsAgree(EvalBinds(c, n, rec, bs, st), EvalBinds(c.(tco := false), n, rec, bs, st), blocks)
    decreases n, 1, bs, 0
  {
    if bs.BCons? {
      EvalAgrees(exact, c, n, bs.init, st, false, blocks);
      var r := Eval(c, n, bs.init, st);
      if r.out.Val? {
        var next := if rec then Write(r.st, bs.binding, r.out.value) else Bind(r.st, bs.binding, r.out.value);
        BindsAgreeLemma(exact, c, n, rec, bs.rest, next, blocks);
      }
    }
  }

  lemma {:induction false} SeqAgrees(exact: bool, c: Ctx, n: nat, es: Hirs, st: State, inTail: bool,
          blocks: set<BlockId>)
    requires c.tco && CodeSafe(exact, c.code) && SeqSafe(exact, es, inTail, blocks)
    ensures Agree(EvalSeq(c, n, es, st), EvalSeq(c.(tco := false), n, es, st), inTail, blocks)
    decreases n, 1, es, 0
  {
    if es.HCons? {
      EvalAgrees(exact, c, n, es.head, st, inTail && es.tail.HNil?, blocks);
      var r := Eval(c, n, es.head, st);
      if es.tail.HCons? && r.out.Val? { SeqAgrees(exact, c, n, es.tail, r.st, inTail, blocks); }
    }
  }

  lemma {:induction false} LogicAgrees(exact: bool, c: Ctx, n: nat, conj: bool, es: Hirs, st: State, inTail: bool,
          blocks: set<BlockId>)
    requires c.tco && CodeSafe(exact, c.code) && SeqSafe(exact, es, inTail, blocks)
    ensures Agree(EvalLogic(c, n, conj, es, st), EvalLogic(c.(tco := false), n, conj, es, st), inTail, blocks)
    decreases n, 1, es, 0
  {
    if es.HCons? {
      EvalAgrees(exact, c, n, es.head, st, inTail && es.tail.HNil?, blocks);
      var r := Eval(c, n, es.head, st);
      if es.tail.HCons? && r.out.Val? { LogicAgrees(exact, c, n, conj, es.tail, r.st, inTail, blocks); }
    }
  }

  lemma {:induction false} ClausesAgree(exact: bool, c: Ctx, n: nat, cl: Clauses, st: State, inTail: bool,
          blocks: set<BlockId>)
    requires c.tco && CodeSafe(exact, c.code) && ClausesSafe(exact, cl, inTail, blocks)
    ensures Agree(EvalClauses(c, n, cl, st), EvalClauses(c.(tco := false), n, cl, st), inTail, blocks)
    decreases n, 1, cl, 0
  {
    match cl
    case NoElse =>
    case Else(e) => EvalAgrees(exact, c, n, e, st, inTail, blocks);
    case Clause(test, body, rest) =>
      EvalAgrees(exact, c, n, test, st, false, blocks);
      var r := Eval(c, n, test, st);
      if r.out.Val? {
        EvalAgrees(exact, c, n, body, r.st, inTail, blocks);
        ClausesAgree(exact, c, n, rest, r.st, inTail, blocks);
      }
  }

  lemma {:induction false} ArmsAgree(exact: bool, c: Ctx, n: nat, v: Value, arms: Arms, st: State, inTail: bool,
          blocks: set<BlockId>)
    requires c.tco && CodeSafe(exact, c.code) && ArmsSafe(exact, arms, inTail, blocks)
    ensures Agree(EvalArms(c, n, v, arms, st), EvalArms(c.(tco := false), n, v, arms, st), inTail, blocks)
    decreases n, 1, arms, 0
  {
    if arms.ACons? {
      match c.host(MatchOp(arms.pattern.shape), [v], st.world)
      case Raised(w) => ArmsAgree(exact, c, n, v, arms.rest, st.(world := w), inTail, blocks);
      case Done(vs, w) =>
        var st1 := BindAll(st.(world := w), arms.pattern.vars, vs);
        if arms.guard.None? {
          EvalAgrees(exact, c, n, arms.body, st1, inTail, blocks);
        } else {
          EvalAgrees(exact, c, n, arms.guard.value, st1, false, blocks);
          var r := Eval(c, n, arms.guard.value, st1);
          if r.out.Val? {
            EvalAgrees(exact, c, n, arms.body, r.st, inTail, blocks);
            ArmsAgree(exact, c, n, v, arms.rest, r.st, inTail, blocks);
          }
        }
    }
  }

  lemma {:induction false} WhileAgrees(exact: bool, c: Ctx, n: nat, test: Hir, body: Hir, st: State,
          blocks: set<BlockId>)
    requires c.tco && CodeSafe(exact, c.code) && TailSafe(exact, test, false, blocks)
    requires TailSafe(exact, body, false, blocks)
    ensures Agree(RunWhile(c, n, test, body, st), RunWhile(c.(tco := false), n, test, body, st), false, blocks)
    decreases n, 1, While(test, body), 0
  {
    EvalAgrees(exact, c, n, test, st, false, blocks);
    var r := Eval(c, n, test, st);
    if r.out.Val? && Truthy(r.out.value) {
      EvalAgrees(exact, c, n, body, r.st, false, blocks);
      var s := Eval(c, n, body, r.st);
      if s.out.Val? && n > 0 { WhileAgrees(exact, c, n - 1, test, body, s.st, blocks); }
    }
  }

  lemma {:induction false} LoopAgrees(exact: bool, c: Ctx, n: nat, names: seq<Binding>, body: Hir, st: State,
          blocks: set<BlockId>)
    requires c.tco && CodeSafe(exact, c.code) && TailSafe(exact, body, false, blocks)
    ensures Agree(RunLoop(c, n, names, body, st), RunLoop(c.(tco := false), n, names, body, st), false, blocks)
    decreases n, 1, body, 2
  {
    EvalAgrees(exact, c, n, body, st, false, blocks);
    var r := Eval(c, n, body, st);
    if r.out.Again? && |r.out.values| == |names| && n > 0 {
      LoopAgrees(exact, c, n - 1, names, body, WriteAll(r.st, names, r.out.values), blocks);
    }
  }

  lemma {:induction false} InvokeAgrees(exact: bool, c: Ctx, n: nat, f: Value, vs: seq<Value>, spliced: seq<bool>,
          isTail: bool, st: State)
    requires c.tco && CodeSafe(exact, c.code)
    ensures
      var r, s := Invoke(c, n, f, vs, spliced, isTail, st), Invoke(c.(tco := false), n, f, vs, spliced, isTail, st);
      r == s || (isTail && r.out.Replaced? && s == Res(Val(r.out.value), r.st))
    decreases n, 0
  {
    match Spread(c.host, spliced, vs, st.world)
    case Raised(w) =>
    case Done(args, w) => if n > 0 { ApplyAgrees(exact, c, n - 1, f, args, st.(world := w)); }
  }

  /**
    A function run with frame replacement is the function run without: same
    outcome, same world, and the caller's frame back.
  */
  lemma {:induction false} ApplyAgrees(exact: bool, c: Ctx, n: nat, f: Value, args: seq<Value>, st: State)
    requires c.tco && CodeSafe(exact, c.code)
    ensures Apply(c, n, f, args, st) == Apply(c.(tco := false), n, f, args, st)
    decreases n, 2
  {
    if f.Closure? && f.id in c.code {
      match c.host(ArrangeOp(f.id), args, st.world)
      case Raised(w) =>
      case Done(vs, w) =>
        var fn := c.code[f.id];
        EvalAgrees(exact, c, n, fn.body, BindAll(State(EntryFrame(f, fn), st.dyn, w, 0), fn.params, vs), true, {});
    }
  }
}
