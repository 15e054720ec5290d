/**
  The return pass, and the calling convention it sets up: every completed run of a
  function body hands its result to the caller exactly once, by executing one
  `Return` or by being replaced by one tail call.
*/
module ReturnMint {
  import opened Options
  import opened HirSyntax
  import opened HirEval
  import opened HirShape

  // ----- the pass ------------------------------------------------------------------------

  function WrapTailReturns(e: Hir): Hir {
    Walk(e, true, {})
  }

  /** The value-producing leaves of a tail position; the compounds pass it on instead. */
  predicate IsWrappable(e: Hir) {
    !(e.If? || e.Begin? || e.Let? || e.Cond? || e.Match? || e.Block? || e.Break?
      || (e.Call? && e.isTail) || (e.Strict? && e.op.Recur?) || e.Return? || e.Poison?)
  }

  function Walk(e: Hir, inTail: bool, blocks: set<BlockId>): Hir
    decreases e, 1
  {
    var inner := WalkInto(e, inTail, blocks);
    if inTail && IsWrappable(e) then Return(inner) else inner
  }

  function WalkInto(e: Hir, inTail: bool, blocks: set<BlockId>): Hir
    decreases e, 0
  {
    match e
    case Lit(_) => e
    case Var(_) => e
    case Poison => e
    case Lambda(id, ps, cs, body) => Lambda(id, ps, cs, Walk(body, true, {}))
    case If(c, t, f) => If(Walk(c, false, blocks), Walk(t, inTail, blocks), Walk(f, inTail, blocks))
    case Begin(es) => Begin(WalkSeq(es, inTail, blocks))
    case Let(rec, bs, body) => Let(rec, WalkBinds(bs, blocks), Walk(body, inTail, blocks))
    case Cond(cl) => Cond(WalkClauses(cl, inTail, blocks))
    case Match(v, arms) => Match(Walk(v, false, blocks), WalkArms(arms, inTail, blocks))
    case Logic(conj, es) => Logic(conj, WalkAll(es, blocks))
    case Block(id, es) =>
      if inTail then Block(id, WalkSeq(es, true, blocks + {id})) else Block(id, WalkAll(es, blocks))
    case Break(id, v) => Break(id, Walk(v, id in blocks, blocks))
    case Call(args, spliced, f, isTail) => Call(WalkAll(args, blocks), spliced, Walk(f, false, blocks), isTail)
    case While(c, body) => While(Walk(c, false, blocks), Walk(body, false, blocks))
    case Loop(bs, body) => Loop(WalkBinds(bs, blocks), Walk(body, false, blocks))
    case Parameterize(ps, body) => Parameterize(WalkAll(ps, blocks), Walk(body, false, blocks))
    case Strict(op, args) => Strict(op, WalkAll(args, blocks))
    case Return(v) => Return(Walk(v, false, blocks))
  }

  function WalkAll(es: Hirs, blocks: set<BlockId>): Hirs
    decreases es, 0
  {
    match es
    case HNil => HNil
    case HCons(e, rest) => HCons(Walk(e, false, blocks), WalkAll(rest, blocks))
  }

  function WalkSeq(es: Hirs, inTail: bool, blocks: set<BlockId>): Hirs
    decreases es, 0
  {
    match es
    case HNil => HNil
    case HCons(e, rest) => HCons(Walk(e, inTail && rest.HNil?, blocks), WalkSeq(rest, inTail, blocks))
  }

  function WalkBinds(bs: Binds, blocks: set<BlockId>): Binds
    decreases bs, 0
  {
    match bs
    case BNil => BNil
    case BCons(b, e, rest) => BCons(b, Walk(e, false, blocks), WalkBinds(rest, blocks))
  }

  function WalkClauses(cl: Clauses, inTail: bool, blocks: set<BlockId>): Clauses
    decreases cl, 0
  {
    match cl
    case NoElse => NoElse
    case Else(e) => Else(Walk(e, inTail, blocks))
    case Clause(c, b, rest) =>
      Clause(Walk(c, false, blocks), Walk(b, inTail, blocks), WalkClauses(rest, inTail, blocks))
  }

  function WalkArms(arms: Arms, inTail: bool, blocks: set<BlockId>): Arms
    decreases arms, 0
  {
    match arms
    case ANil => ANil
    case ACons(p, g, b, rest) =>
      ACons(p, if g.Some? then Some(Walk(g.value, false, blocks)) else None,
            Walk(b, inTail, blocks), WalkArms(rest, inTail, blocks))
  }

  // ----- gaps: tail positions that yield nil without a value-producing leaf -----------------

  /** No empty `begin`, empty `block` or else-less `cond` stands in tail position. */
  predicate GapFree(e: Hir, inTail: bool, blocks: set<BlockId>) {
    match e
    case Lit(_) => true
    case Var(_) => true
    case Poison => true
    case Lambda(_, _, _, _) => true
    case If(c, t, f) => GapFree(c, false, blocks) && GapFree(t, inTail, blocks) && GapFree(f, inTail, blocks)
    case Begin(es) => (inTail ==> es.HCons?) && GapFreeSeq(es, inTail, blocks)
    case Let(_, bs, body) => GapFreeBinds(bs, blocks) && GapFree(body, inTail, blocks)
    case Cond(cl) => GapFreeClauses(cl, inTail, blocks)
    case Match(v, arms) => GapFree(v, false, blocks) && GapFreeArms(arms, inTail, blocks)
    case Logic(_, es) => GapFreeSeq(es, false, blocks)
    case Block(id, es) =>
      if inTail then es.HCons? && GapFreeSeq(es, true, blocks + {id}) else GapFreeSeq(es, false, blocks)
    case Break(id, v) => GapFree(v, id in blocks, blocks)
    case Call(args, _, f, _) => GapFreeSeq(args, false, blocks) && GapFree(f, false, blocks)
    case While(c, body) => GapFree(c, false, blocks) && GapFree(body, false, blocks)
    case Loop(bs, body) => GapFreeBinds(bs, blocks) && GapFree(body, false, blocks)
    case Parameterize(ps, body) => GapFreeSeq(ps, false, blocks) && GapFree(body, false, blocks)
    case Strict(_, args) => GapFreeSeq(args, false, blocks)
    case Return(v) => GapFree(v, false, blocks)
  }

  predicate GapFreeSeq(es: Hirs, inTail: bool, blocks: set<BlockId>) {
    match es
    case HNil => true
    case HCons(e, rest) => GapFree(e, inTail && rest.HNil?, blocks) && GapFreeSeq(rest, inTail, blocks)
  }

  predicate GapFreeBinds(bs: Binds, blocks: set<BlockId>) {
    match bs
    case BNil => true
    case BCons(_, e, rest) => GapFree(e, false, blocks) && GapFreeBinds(rest, blocks)
  }

  predicate GapFreeClauses(cl: Clauses, inTail: bool, blocks: set<BlockId>) {
    match cl
    case NoElse => !inTail
    case Else(e) => GapFree(e, inTail, blocks)
    case Clause(c, b, rest) =>
      GapFree(c, false, blocks) && GapFree(b, inTail, blocks) && GapFreeClauses(rest, inTail, blocks)
  }

  predicate GapFreeArms(arms: Arms, inTail: bool, blocks: set<BlockId>) {
    match arms
    case ANil => true
    case ACons(_, g, b, rest) =>
      (g.Some? ==> GapFree(g.value, false, blocks)) && GapFree(b, inTail, blocks) && GapFreeArms(rest, inTail, blocks)
  }

  // ----- every completed run delivers once ----------------------------------------------------

  /** A delivered value cost one mint; without one, it is the nil of a gap. */
  ghost predicate DeliveredOnce(v: Value, gaps: bool, before: nat, after: nat) {
    after == before + 1 || (gaps && after == before && v == NilValue)
  }

  /**
    What a run adds to the mint count, by how it ended. Only a value on its way to
    being the function's result was minted, and only once: a value in tail
    position, or a break to a block in tail position. A frame replacement and a
    recur have minted nothing.
  */
  ghost predicate Mints(r: Res, before: nat, inTail: bool, blocks: set<BlockId>, gaps: bool) {
    match r.out
    case Val(v) => if inTail then DeliveredOnce(v, gaps, before, r.st.mints) else r.st.mints == before
    case Brk(id, v) => if id in blocks then DeliveredOnce(v, gaps, before, r.st.mints) else r.st.mints == before
    case Again(_) => r.st.mints == before
    case Replaced(_) => r.st.mints == before
    case _ => true
  }

  ghost predicate OpsMint(r: OpsRes, before: nat, blocks: set<BlockId>, gaps: bool) {
    match r
    case Vals(_, st) => st.mints == before
    case Stop(s) => !s.out.Val? && Mints(s, before, false, blocks, gaps)
  }

  ghost predicate BindsMint(r: BindRes, before: nat, blocks: set<BlockId>, gaps: bool) {
    match r
    case Bound(st) => st.mints == before
    case Halt(s) => !s.out.Val? && Mints(s, before, false, blocks, gaps)
  }

  lemma {:induction false} StoresMintNothing(st: State, bs: seq<Binding>, vs: seq<Value>)
    ensures BindAll(st, bs, vs).mints == st.mints && StoreAll(st, bs, vs).mints == st.mints
    ensures |bs| == |vs| ==> WriteAll(st, bs, vs).mints == st.mints
    decreases |bs|
  {
    if bs != [] && vs != [] {
      StoresMintNothing(Bind(st, bs[0], vs[0]), bs[1..], vs[1..]);
      StoresMintNothing(Write(st, bs[0], vs[0]), bs[1..], vs[1..]);
    }
  }

  lemma {:induction false} PrebindMintsNothing(st: State, bs: Binds)
    ensures Prebind(st, bs).mints == st.mints
    decreases bs
  {
    if bs.BCons? { PrebindMintsNothing(if bs.binding.boxed then Bind(st, bs.binding, NilValue) else st, bs.rest); }
  }

  lemma InvokeMintsNothing(c: Ctx, n: nat, f: Value, vs: seq<Value>, spliced: seq<bool>, isTail: bool, st: State)
    ensures var r := Invoke(c, n, f, vs, spliced, isTail, st);
            r.st.mints == st.mints && !r.out.Brk? && !r.out.Again? && (isTail && c.tco ==> !r.out.Val?)
  {}

  lemma PerformMintsNothing(host: Host, op: Op, vs: seq<Value>, st: State)
    ensures var r := Perform(host, op, vs, st);
            r.st.mints == st.mints && !r.out.Brk? && !r.out.Replaced? && (op.Recur? ==> r.out.Again?)
  {
    if op.Destructure? {
      var r := host(MatchOp(op.pattern.shape), vs, st.world);
      if r.Done? { StoresMintNothing(st.(world := r.world), op.pattern.vars, r.values); }
    }
  }

  ghost predicate Ready(c: Ctx, open: set<BlockId>, blocks: set<BlockId>) {
    c.tco && blocks <= open
  }

  /**
    For every tree the pass is given, every state and every host: running the
    walked tree mints what `Mints` says.
  */
  lemma {:induction false} WalkMints(c: Ctx, n: nat, e: Hir, st: State, inTail: bool, open: set<BlockId>,
          blocks: set<BlockId>, gaps: bool)
    requires Ready(c, open, blocks) && Shaped(false, open, e) && (gaps || GapFree(e, inTail, blocks))
    ensures Mints(Eval(c, n, Walk(e, inTail, blocks), st), st.mints, inTail, blocks, gaps)
    decreases n, 1, e, 3
  {
    WalkIntoMints(c, n, e, st, inTail, open, blocks, gaps);
  }

  lemma {:induction false} WalkIntoMints(c: Ctx, n: nat, e: Hir, st: State, inTail: bool, open: set<BlockId>,
          blocks: set<BlockId>, gaps: bool)
    requires Ready(c, open, blocks) && Shaped(false, open, e) && (gaps || GapFree(e, inTail, blocks))
    ensures Mints(Eval(c, n, WalkInto(e, inTail, blocks), st), st.mints, inTail && !IsWrappable(e), blocks, gaps)
    decreases n, 1, e, 2
  {
    hide Walk, Ready;
    match e
    case Lit(_) =>
    case Var(_) =>
    case Poison =>
    case Lambda(_, _, _, _) =>
    case Let(_, _, _) => BinderMints(c, n, e, st, inTail, open, blocks, gaps);
    case Loop(_, _) => BinderMints(c, n, e, st, inTail, open, blocks, gaps);
    case If(test, thn, els) =>
      WalkMints(c, n, test, st, false, open, blocks, gaps);
      var r := Eval(c, n, Walk(test, false, blocks), st);
      if r.out.Val? {
        WalkMints(c, n, thn, r.st, inTail, open, blocks, gaps);
        WalkMints(c, n, els, r.st, inTail, open, blocks, gaps);
      }
    case Cond(cl) => ClausesMint(c, n, cl, st, inTail, open, blocks, gaps);
    case Begin(es) => SeqMints(c, n, es, st, inTail, open, blocks, gaps);
    case Block(id, es) => BlockMints(c, n, id, es, st, inTail, open, blocks, gaps);
    case Break(id, v) => WalkMints(c, n, v, st, id in blocks, open, blocks, gaps);
    case While(test, body) => WhileMints(c, n, test, body, st, open, blocks, gaps);
    case Match(x, arms) =>
      WalkMints(c, n, x, st, false, open, blocks, gaps);
      var r := Eval(c, n, Walk(x, false, blocks), st);
      if r.out.Val? { ArmsMint(c, n, r.out.value, arms, r.st, inTail, open, blocks, gaps); }
    case Logic(conj, es) => LogicMints(c, n, conj, es, st, open, blocks, gaps);
    case Call(_, _, _, _) => StrictMints(c, n, e, st, inTail, open, blocks, gaps);
    case Parameterize(_, _) => StrictMints(c, n, e, st, inTail, open, blocks, gaps);
    case Strict(_, _) => StrictMints(c, n, e, st, inTail, open, blocks, gaps);
  }

  lemma {:induction false} BinderMints(c: Ctx, n: nat, e: Hir, st: State, inTail: bool, open: set<BlockId>,
          blocks: set<BlockId>, gaps: bool)
    requires Ready(c, open, blocks) && Shaped(false, open, e) && (gaps || GapFree(e, inTail, blocks))
    requires e.Let? || e.Loop?
    ensures Mints(Eval(c, n, WalkInto(e, inTail, blocks), st), st.mints, inTail && !IsWrappable(e), blocks, gaps)
    decreases n, 1, e, 1
  {
    hide Walk, Ready;
    var bs1 := WalkBinds(e.binds, blocks);
    var rec := e.Let? && e.rec;
    PrebindMintsNothing(st, bs1);
    var st0 := if rec then Prebind(st, bs1) else st;
    BindsMintLemma(c, n, rec, e.binds, st0, open, blocks, gaps);
    var r := EvalBinds(c, n, rec, bs1, st0);
    if r.Bound? {
      if e.Let? {
        WalkMints(c, n, e.body, r.st, inTail, open, blocks, gaps);
      } else {
        LoopMints(c, n, BinderNames(bs1), e.body, r.st, open, blocks, gaps);
      }
    }
  }

  lemma {:induction false} StrictMints(c: Ctx, n: nat, e: Hir, st: State, inTail: bool, open: set<BlockId>,
          blocks: set<BlockId>, gaps: bool)
    requires Ready(c, open, blocks) && Shaped(false, open, e) && (gaps || GapFree(e, inTail, blocks))
    requires e.Call? || e.Parameterize? || e.Strict?
    ensures Mints(Eval(c, n, WalkInto(e, inTail, blocks), st), st.mints, inTail && !IsWrappable(e), blocks, gaps)
    decreases n, 1, e, 1
  {
    assert c.tco;
    hide Walk, Ready;
    var es := if e.Parameterize? then e.pairs else e.args;
    OpsMintLemma(c, n, es, st, open, blocks, gaps);
    var a := EvalOps(c, n, WalkAll(es, blocks), st);
    if a.Vals? {
      match e
      case Call(_, spliced, f, isTail) =>
        WalkMints(c, n, f, a.st, false, open, blocks, gaps);
        var r := Eval(c, n, Walk(f, false, blocks), a.st);
        if r.out.Val? { InvokeMintsNothing(c, n, r.out.value, a.values, spliced, isTail, r.st); }
      case Parameterize(_, body) =>
        WalkMints(c, n, body, a.st.(dyn := Overlay(a.st.dyn, a.values)), false, open, blocks, gaps);
      case Strict(op, _) => PerformMintsNothing(c.host, op, a.values, a.st);
    }
  }

  lemma {:induction false} BlockMints(c: Ctx, n: nat, id: BlockId, es: Hirs, st: State, inTail: bool,
          open: set<BlockId>, blocks: set<BlockId>, gaps: bool)
    requires Ready(c, open, blocks) && id !in open && ShapedAll(false, open + {id}, es)
    requires gaps || GapFree(Block(id, es), inTail, blocks)
    ensures Mints(Eval(c, n, WalkInto(Block(id, es), inTail, blocks), st), st.mints, inTail, blocks, gaps)
    decreases n, 1, Block(id, es), 1
  {
    if inTail {
      SeqMints(c, n, es, st, true, open + {id}, blocks + {id}, gaps);
    } else {
      SeqIsAll(es, blocks);
      SeqMints(c, n, es, st, false, open + {id}, blocks, gaps);
    }
  }

  lemma {:induction false} SeqIsAll(es: Hirs, blocks: set<BlockId>)
    ensures WalkSeq(es, false, blocks) == WalkAll(es, blocks)
  {
    if es.HCons? { SeqIsAll(es.tail, blocks); }
  }

  lemma {:induction false} OpsMintLemma(c: Ctx, n: nat, es: Hirs, st: State, open: set<BlockId>, blocks: set<BlockId>,
          gaps: bool)
    requires Ready(c, open, blocks) && ShapedAll(false, open, es) && (gaps || GapFreeSeq(es, false, blocks))
    ensures OpsMint(EvalOps(c, n, WalkAll(es, blocks), st), st.mints, blocks, gaps)
    decreases n, 1, es, 0
  {
    hide Walk, Ready;
    if es.HCons? {
      WalkMints(c, n, es.head, st, false, open, blocks, gaps);
      var r := Eval(c, n, Walk(es.head, false, blocks), st);
      if r.out.Val? { OpsMintLemma(c, n, es.tail, r.st, open, blocks, gaps); }
    }
  }

  lemma {:induction false} BindsMintLemma(c: Ctx, n: nat, rec: bool, bs: Binds, st: State, open: set<BlockId>,
          blocks: set<BlockId>, gaps: bool)
    requires Ready(c, open, blocks) && ShapedBinds(false, open, bs) && (gaps || GapFreeBinds(bs, blocks))
    ensures BindsMint(EvalBinds(c, n, rec, WalkBinds(bs, blocks), st), st.mints, blocks, gaps)
    decreases n, 1, bs, 0
  {
    hide Walk, Ready;
    if bs.BCons? {
      WalkMints(c, n, bs.init, st, false, open, blocks, gaps);
      var r := Eval(c, n, Walk(bs.init, false, blocks), st);
      if r.out.Val? {
        var b, v := bs.binding, r.out.value;
        BindsMintLemma(c, n, rec, bs.rest, if rec then Write(r.st, b, v) else Bind(r.st, b, v), open, blocks, gaps);
      }
    }
  }

  lemma {:induction false} SeqMints(c: Ctx, n: nat, es: Hirs, st: State, inTail: bool, open: set<BlockId>,
          blocks: set<BlockId>, gaps: bool)
    requires Ready(c, open, blocks) && ShapedAll(false, open, es)
    requires gaps || (GapFreeSeq(es, inTail, blocks) && (inTail ==> es.HCons?))
    ensures Mints(EvalSeq(c, n, WalkSeq(es, inTail, blocks), st), st.mints, inTail, blocks, gaps)
    decreases n, 1, es, 0
  {
    hide Walk, Ready;
    if es.HCons? {
      WalkMints(c, n, es.head, st, inTail && es.tail.HNil?, open, blocks, gaps);
      var r := Eval(c, n, Walk(es.head, inTail && es.tail.HNil?, blocks), st);
      if es.tail.HCons? && r.out.Val? { SeqMints(c, n, es.tail, r.st, inTail, open, blocks, gaps); }
    }
  }

  lemma {:induction false} LogicMints(c: Ctx, n: nat, conj: bool, es: Hirs, st: State, open: set<BlockId>,
          blocks: set<BlockId>, gaps: bool)
    requires Ready(c, open, blocks) && ShapedAll(false, open, es) && (gaps || GapFreeSeq(es, false, blocks))
    ensures Mints(EvalLogic(c, n, conj, WalkAll(es, blocks), st), st.mints, false, blocks, gaps)
    decreases n, 1, es, 0
  {
    hide Walk, Ready;
    if es.HCons? {
      WalkMints(c, n, es.head, st, false, open, blocks, gaps);
      var r := Eval(c, n, Walk(es.head, false, blocks), st);
      if es.tail.HCons? && r.out.Val? { LogicMints(c, n, conj, es.tail, r.st, open, blocks, gaps); }
    }
  }

  lemma {:induction false} ClausesMint(c: Ctx, n: nat, cl: Clauses, st: State, inTail: bool, open: set<BlockId>,
          blocks: set<BlockId>, gaps: bool)
    requires Ready(c, open, blocks) && ShapedClauses(false, open, cl) && (gaps || GapFreeClauses(cl, inTail, blocks))
    ensures Mints(EvalClauses(c, n, WalkClauses(cl, inTail, blocks), st), st.mints, inTail, blocks, gaps)
    decreases n, 1, cl, 0
  {
    hide Walk, Ready;
    match cl
    case NoElse =>
    case Else(e) => WalkMints(c, n, e, st, inTail, open, blocks, gaps);
    case Clause(test, body, rest) =>
      WalkMints(c, n, test, st, false, open, blocks, gaps);
      var r := Eval(c, n, Walk(test, false, blocks), st);
      if r.out.Val? {
        WalkMints(c, n, body, r.st, inTail, open, blocks, gaps);
        ClausesMint(c, n, rest, r.st, inTail, open, blocks, gaps);
      }
  }

  lemma {:induction false} ArmsMint(c: Ctx, n: nat, v: Value, arms: Arms, st: State, inTail: bool, open: set<BlockId>,
          blocks: set<BlockId>, gaps: bool)
    requires Ready(c, open, blocks) && ShapedArms(false, open, arms) && (gaps || GapFreeArms(arms, inTail, blocks))
    ensures Mints(EvalArms(c, n, v, WalkArms(arms, inTail, blocks), st), st.mints, inTail, blocks, gaps)
    decreases n, 1, arms, 0
  {
    hide Walk, Ready;
    if arms.ACons? {
      match c.host(MatchOp(arms.pattern.shape), [v], st.world)
      case Raised(w) => ArmsMint(c, n, v, arms.rest, st.(world := w), inTail, open, blocks, gaps);
      case Done(vs, w) =>
        var st1 := BindAll(st.(world := w), arms.pattern.vars, vs);
        StoresMintNothing(st.(world := w), arms.pattern.vars, vs);
        if arms.guard.None? {
          WalkMints(c, n, arms.body, st1, inTail, open, blocks, gaps);
        } else {
          WalkMints(c, n, arms.guard.value, st1, false, open, blocks, gaps);
          var r := Eval(c, n, Walk(arms.guard.value, false, blocks), st1);
          if r.out.Val? {
            WalkMints(c, n, arms.body, r.st, inTail, open, blocks, gaps);
            ArmsMint(c, n, v, arms.rest, r.st, inTail, open, blocks, gaps);
          }
        }
    }
  }

  lemma WhileStep(c: Ctx, n: nat, test: Hir, body: Hir, st: State)
    ensures var r := Eval(c, n, test, st);
            var s := Eval(c, n, body, r.st);
            RunWhile(c, n, test, body, st)
            == if !r.out.Val? then r
               else if !Truthy(r.out.value) then Res(Val(NilValue), r.st)
               else if !s.out.Val? then s
               else if n == 0 then Res(Timeout, s.st) else RunWhile(c, n - 1, test, body, s.st)
  {
    hide Eval, Truthy;
  }

  lemma {:induction false} WhileMints(c: Ctx, n: nat, test: Hir, body: Hir, st: State, open: set<BlockId>,
          blocks: set<BlockId>, gaps: bool)
    requires Ready(c, open, blocks) && Shaped(false, open, test) && Shaped(false, open, body)
    requires gaps || (GapFree(test, false, blocks) && GapFree(body, false, blocks))
    ensures Mints(RunWhile(c, n, Walk(test, false, blocks), Walk(body, false, blocks), st), st.mints, false, blocks,
              gaps)
    decreases n, 1, While(test, body), 0
  {
    hide Walk, Ready, Shaped, GapFree, Truthy, Eval, RunWhile;
    WhileStep(c, n, Walk(test, false, blocks), Walk(body, false, blocks), st);
    WalkMints(c, n, test, st, false, open, blocks, gaps);
    var r := Eval(c, n, Walk(test, false, blocks), st);
    if r.out.Val? && Truthy(r.out.value) {
      WalkMints(c, n, body, r.st, false, open, blocks, gaps);
      var s := Eval(c, n, Walk(body, false, blocks), r.st);
      if s.out.Val? && n > 0 { WhileMints(c, n - 1, test, body, s.st, open, blocks, gaps); }
    }
  }

  lemma {:induction false} LoopMints(c: Ctx, n: nat, names: seq<Binding>, body: Hir, st: State, open: set<BlockId>,
          blocks: set<BlockId>, gaps: bool)
    requires Ready(c, open, blocks) && Shaped(false, open, body) && (gaps || GapFree(body, false, blocks))
    ensures Mints(RunLoop(c, n, names, Walk(body, false, blocks), st), st.mints, false, blocks, gaps)
    decreases n, 1, body, 4
  {
    hide Walk, Ready;
    WalkMints(c, n, body, st, false, open, blocks, gaps);
    var r := Eval(c, n, Walk(body, false, blocks), st);
    if r.out.Again? && |r.out.values| == |names| && n > 0 {
      StoresMintNothing(r.st, names, r.out.values);
      LoopMints(c, n - 1, names, body, WriteAll(r.st, names, r.out.values), open, blocks, gaps);
    }
  }

  /**
    The calling convention. A completed run of a walked body delivers its result
    once: one `Return` and no frame replacement, or one frame replacement and no
    `Return`. The one exception is a nil nothing produced, which needs a gap in
    the body.
  */
  lemma BodyDeliversOnce(c: Ctx, n: nat, body: Hir, st: State)
    requires c.tco && Shaped(false, {}, body) && st.mints == 0
    ensures var r := Eval(c, n, WrapTailReturns(body), st);
            && (r.out.Replaced? ==> r.st.mints == 0)
            && (r.out.Val? ==>
               r.st.mints == 1 || (r.st.mints == 0 && r.out.value == NilValue && !GapFree(body, true, {})))
  {
    WalkMints(c, n, body, st, true, {}, {}, true);
    if GapFree(body, true, {}) { WalkMints(c, n, body, st, true, {}, {}, false); }
  }

  /**
    A gap is why the exception is there: a body that is a `cond` without `else`, whose
    test is false, runs to nil and delivers nothing.
  */
  lemma ElselessCondDeliversNothing(c: Ctx, n: nat, x: Hir, st: State)
    ensures Eval(c, n, WrapTailReturns(Cond(Clause(Lit(Bool(false)), x, NoElse))), st) == Res(Val(NilValue), st)
  {
    var test := Lit(Bool(false));
    var walked := Clause(Walk(test, false, {}), Walk(x, true, {}), NoElse);
    assert Walk(test, false, {}) == test && WalkClauses(NoElse, true, {}) == NoElse;
    assert WalkClauses(Clause(test, x, NoElse), true, {}) == walked;
    assert WalkInto(Cond(Clause(test, x, NoElse)), true, {}) == Cond(walked);
    assert WrapTailReturns(Cond(Clause(test, x, NoElse))) == Cond(walked);
    assert Eval(c, n, test, st) == Res(Val(Data(Bool(false))), st);
    assert EvalClauses(c, n, NoElse, st) == Res(Val(NilValue), st);
    assert EvalClauses(c, n, walked, st) == Res(Val(NilValue), st);
  }
}
