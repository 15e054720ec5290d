/**
  Liveness is sound for evaluation. Where `Sure` holds, two runs that start agreeing on
  what is live before a node end with the same outcome in the same world, agree on
  what is live after it, and have lost nothing they agreed on (`EvalAgrees`).
*/
module LivenessSound {
  import opened HirSyntax
  import opened HirEval
  import opened Liveness
  import opened LivenessSure

  // ----- sets ----------------------------------------------------------------------------------------------

  lemma {:induction false} KillSplits(ix: Index, bs: seq<Binding>, live: set<nat>)
    ensures KillAll(ix, bs, live) <= live <= KillAll(ix, bs, live) + BitsOf(ix, bs)
    decreases |bs|
  {
    if bs != [] { KillSplits(ix, bs[1..], Kill(ix, bs[0], live)); }
  }

  lemma {:induction false} BitsKnown(ix: Index, live: set<nat>, bs: seq<Binding>)
    requires BitsOf(ix, bs) <= live
    ensures forall i :: 0 <= i < |bs| ==> Counts(ix, live, bs[i])
    decreases |bs|
  {
    if bs != [] {
      BitsKnown(ix, live, bs[1..]);
      forall i | 0 <= i < |bs| ensures Counts(ix, live, bs[i]) {
        if i > 0 { assert bs[1..][i - 1] == bs[i]; }
      }
    }
  }

  lemma {:induction false} UsesKnown(ix: Index, cs: seq<Capture>, live: set<nat>)
    ensures live <= UseAll(ix, cs, live)
    ensures forall i :: 0 <= i < |cs| ==> Counts(ix, UseAll(ix, cs, live), cs[i].binding)
    decreases |cs|
  {
    if cs != [] {
      UsesKnown(ix, cs[1..], Use(ix, cs[0].binding, live));
      forall i | 0 <= i < |cs| ensures Counts(ix, UseAll(ix, cs, live), cs[i].binding) {
        if i > 0 { assert cs[1..][i - 1] == cs[i]; }
      }
    }
  }

  // ----- lists of operands and of bindings -----------------------------------------------------------------

  ghost predicate OpsAlike(ix: Index, after: set<nat>, live: set<nat>, outs: Outs, r: OpsRes, q: OpsRes) {
    if r.Vals? then q.Vals? && r.values == q.values && Agree(ix, live + after, r.st, q.st)
    else q.Stop? && !r.res.out.Val? && Alike(ix, {}, live, outs, r.res, q.res)
  }

  ghost predicate BindsAlike(ix: Index, after: set<nat>, live: set<nat>, outs: Outs, r: BindRes, q: BindRes) {
    if r.Bound? then q.Bound? && Agree(ix, live + after, r.st, q.st)
    else q.Halt? && !r.res.out.Val? && Alike(ix, {}, live, outs, r.res, q.res)
  }

  lemma {:induction false} OpsAgree(ix: Index, c: Ctx, n: nat, es: Hirs, after: set<nat>, live: set<nat>, outs: Outs,
          s: State, t: State)
    requires Injective(ix) && SureSeq(c.host, ix, es, after, live, outs) && SeqBefore(ix, es, after) <= live
    requires Agree(ix, live, s, t)
    ensures OpsAlike(ix, after, live, outs, EvalOps(c, n, es, s), EvalOps(c, n, es, t))
    decreases n, 1, es, 0
  {
    hide Agree, Alike, Eval, Sure, Before;
    match es
    case HNil => AgreeLess(ix, live, live + after, s, t);
    case HCons(e, rest) =>
      var need := SeqBefore(ix, rest, after);
      var r, q := Eval(c, n, e, s), Eval(c, n, e, t);
      EvalAgrees(ix, c, n, e, need, live, outs, s, t);
      SameOut(ix, need, live, outs, r, q);
      if r.out.Val? {
        AlikeGoesOn(ix, need, live, outs, r, q);
        OpsAgree(ix, c, n, rest, after, live + need, outs, r.st, q.st);
        OpsLess(ix, after, live + need, live, outs, EvalOps(c, n, rest, r.st), EvalOps(c, n, rest, q.st));
      } else {
        AlikeStops(ix, need, {}, live, outs, r, q);
      }
  }

  lemma SameOut(ix: Index, after: set<nat>, live: set<nat>, outs: Outs, r: Res, q: Res)
    requires Alike(ix, after, live, outs, r, q)
    ensures r.out == q.out
  {}

  lemma OpsLess(ix: Index, after: set<nat>, live: set<nat>, less: set<nat>, outs: Outs, r: OpsRes, q: OpsRes)
    requires OpsAlike(ix, after, live, outs, r, q) && less <= live
    ensures OpsAlike(ix, after, less, outs, r, q)
  {
    hide Agree, Alike;
    if r.Vals? {
      AgreeLess(ix, live + after, less + after, r.st, q.st);
    } else {
      AlikeLess(ix, {}, live, less, outs, r.res, q.res);
    }
  }

  lemma BindsLess(ix: Index, after: set<nat>, less1: set<nat>, live: set<nat>, less: set<nat>, outs: Outs, r: BindRes,
          q: BindRes)
    requires BindsAlike(ix, after, live, outs, r, q) && less <= live && less1 <= live + after
    ensures BindsAlike(ix, less1, less, outs, r, q)
  {
    hide Agree, Alike;
    if r.Bound? {
      AgreeLess(ix, live + after, less + less1, r.st, q.st);
    } else {
      AlikeLess(ix, {}, live, less, outs, r.res, q.res);
    }
  }

  /** A `let`'s bindings, one after the other. */
  lemma {:induction false} BindsAgree(ix: Index, c: Ctx, n: nat, bs: Binds, after: set<nat>, live: set<nat>, outs: Outs,
          s: State, t: State)
    requires Injective(ix) && SureBinds(c.host, ix, bs, after, live, outs) && BindsBefore(ix, bs, after) <= live
    requires Agree(ix, live, s, t)
    ensures BindsAlike(ix, after, live, outs, EvalBinds(c, n, false, bs, s), EvalBinds(c, n, false, bs, t))
    decreases n, 1, bs, 0
  {
    hide Agree, Alike, Eval, Sure, Before, Bind;
    match bs
    case BNil => AgreeLess(ix, live, live + after, s, t);
    case BCons(b, init, rest) =>
      var need := BindsBefore(ix, rest, after);
      var less := Kill(ix, b, need);
      var r, q := Eval(c, n, init, s), Eval(c, n, init, t);
      EvalAgrees(ix, c, n, init, less, live, outs, s, t);
      SameOut(ix, less, live, outs, r, q);
      if r.out.Val? {
        AlikeGoesOn(ix, less, live, outs, r, q);
        BindAgrees(ix, live + less, r.st, q.st, b, r.out.value);
        var s1, t1 := Bind(r.st, b, r.out.value), Bind(q.st, b, r.out.value);
        AgreeLess(ix, live + less + Bit(ix, b), live + need, s1, t1);
        BindsAgree(ix, c, n, rest, after, live + need, outs, s1, t1);
        BindsLess(ix, after, after, live + need, live, outs, EvalBinds(c, n, false, rest, s1),
            EvalBinds(c, n, false, rest, t1));
      } else {
        AlikeStops(ix, less, {}, live, outs, r, q);
      }
  }

  function Put(rec: bool, st: State, b: Binding, v: Value): State {
    if rec then Write(st, b, v) else Bind(st, b, v)
  }

  /** A `letrec`'s or a `loop`'s bindings: when all are done, every name is known. */
  lemma {:induction false} InitsAgree(ix: Index, c: Ctx, n: nat, rec: bool, bs: Binds, after: set<nat>, live: set<nat>,
          outs: Outs, s: State, t: State)
    requires Injective(ix) && SureInits(c.host, ix, bs, after, live, outs) && InitsBefore(ix, bs, after) <= live
    requires Agree(ix, live, s, t) && (rec ==> BoxedBits(ix, bs) <= live)
    ensures BindsAlike(ix, after + BitsOf(ix, BinderNames(bs)), live, outs, EvalBinds(c, n, rec, bs, s),
              EvalBinds(c, n, rec, bs, t))
    decreases n, 1, bs, 0
  {
    hide Agree, Alike, Eval, Sure, Before, Bind, Write;
    match bs
    case BNil => AgreeLess(ix, live, live + (after + BitsOf(ix, [])), s, t);
    case BCons(b, init, rest) =>
      var need := InitsBefore(ix, rest, after);
      var r, q := Eval(c, n, init, s), Eval(c, n, init, t);
      EvalAgrees(ix, c, n, init, need, live, outs, s, t);
      SameOut(ix, need, live, outs, r, q);
      if r.out.Val? {
        AlikeGoesOn(ix, need, live, outs, r, q);
        var v := r.out.value;
        PutAgrees(ix, rec, live + need, r.st, q.st, b, v);
        var s1, t1 := Put(rec, r.st, b, v), Put(rec, q.st, b, v);
        var more := live + need + Bit(ix, b);
        InitsAgree(ix, c, n, rec, rest, after, more, outs, s1, t1);
        NamesCons(ix, b, init, rest);
        BindsLess(ix, after + BitsOf(ix, BinderNames(rest)), after + BitsOf(ix, BinderNames(bs)), more, live, outs,
            EvalBinds(c, n, rec, rest, s1), EvalBinds(c, n, rec, rest, t1));
      } else {
        AlikeStops(ix, need, {}, live, outs, r, q);
      }
  }

  lemma NamesCons(ix: Index, b: Binding, init: Hir, rest: Binds)
    ensures BitsOf(ix, BinderNames(BCons(b, init, rest))) == Bit(ix, b) + BitsOf(ix, BinderNames(rest))
  {
    assert ([b] + BinderNames(rest))[1..] == BinderNames(rest);
  }

  lemma PutAgrees(ix: Index, rec: bool, live: set<nat>, s: State, t: State, b: Binding, v: Value)
    requires Agree(ix, live, s, t) && Injective(ix) && (rec && b.boxed ==> Counts(ix, live, b))
    ensures Agree(ix, live + Bit(ix, b), Put(rec, s, b, v), Put(rec, t, b, v))
  {
    hide Agree, Bind, Write;
    if rec { WriteAgrees(ix, live, s, t, b, v); } else { BindAgrees(ix, live, s, t, b, v); }
  }

  // ----- every node ----------------------------------------------------------------------------------------

  lemma {:induction false} EvalAgrees(ix: Index, c: Ctx, n: nat, e: Hir, after: set<nat>, live: set<nat>, outs: Outs,
          s: State, t: State)
    requires Injective(ix) && Sure(c.host, ix, e, after, live, outs) && Before(ix, e, after) <= live
    requires Agree(ix, live, s, t)
    ensures Alike(ix, after, live, outs, Eval(c, n, e, s), Eval(c, n, e, t))
    decreases n, 1, e, 1
  {
    hide Agree, Alike, EvalBinds, EvalOps, RunLoop, RunWhile, Invoke, Perform, SureOp, OpBefore, Overlay, Prebind;
    match e
    case Lit(_) => LeafAgrees(ix, c, n, e, after, live, outs, s, t);
    case Poison => LeafAgrees(ix, c, n, e, after, live, outs, s, t);
    case Var(_) => LeafAgrees(ix, c, n, e, after, live, outs, s, t);
    case Lambda(_, _, _, _) => LeafAgrees(ix, c, n, e, after, live, outs, s, t);
    case Let(_, _, _) => LetAgrees(ix, c, n, e, after, live, outs, s, t);
    case Loop(_, _) => LoopAgrees(ix, c, n, e, after, live, outs, s, t);
    case If(_, _, _) => IfAgrees(ix, c, n, e, after, live, outs, s, t);
    case Cond(cl) => ClausesAgree(ix, c, n, cl, after, live, outs, s, t);
    case Begin(es) => SeqAgrees(ix, c, n, es, after, live, outs, s, t);
    case Block(_, _) => BlockAgrees(ix, c, n, e, after, live, outs, s, t);
    case Break(_, _) => BreakAgrees(ix, c, n, e, after, live, outs, s, t);
    case Call(_, _, _, _) => CallAgrees(ix, c, n, e, after, live, outs, s, t);
    case While(_, _) => WhileAgrees(ix, c, n, e, after, live, outs, s, t);
    case Match(_, _) => MatchAgrees(ix, c, n, e, after, live, outs, s, t);
    case Logic(conj, es) => LogicAgrees(ix, c, n, conj, es, after, live, outs, s, t);
    case Parameterize(_, _) => ParameterizeAgrees(ix, c, n, e, after, live, outs, s, t);
    case Strict(_, _) => StrictAgrees(ix, c, n, e, after, live, outs, s, t);
    case Return(v) =>
      EvalAgrees(ix, c, n, v, after, live, outs, s, t);
      MintAgrees(ix, c, n, v, after, live, outs, s, t);
  }

  lemma LeafAgrees(ix: Index, c: Ctx, n: nat, e: Hir, after: set<nat>, live: set<nat>, outs: Outs, s: State, t: State)
    requires e.Lit? || e.Poison? || e.Var? || e.Lambda?
    requires Before(ix, e, after) <= live && Agree(ix, live, s, t)
    ensures Alike(ix, after, live, outs, Eval(c, n, e, s), Eval(c, n, e, t))
  {
    hide Agree;
    if !e.Poison? { UsedAfter(ix, e, after); AgreeLess(ix, live, after, s, t); }
    if e.Var? { ReadAgrees(ix, live, s, t, e.binding); }
    if e.Lambda? {
      UsesKnown(ix, e.captures, after);
      AgreeLess(ix, live, UseAll(ix, e.captures, after), s, t);
      CapturedAgrees(ix, UseAll(ix, e.captures, after), s, t, e.captures);
    }
  }

  lemma UsedAfter(ix: Index, e: Hir, after: set<nat>)
    requires e.Lit? || e.Var? || e.Lambda?
    ensures after <= Before(ix, e, after)
  {
    if e.Lambda? { UsesKnown(ix, e.captures, after); }
  }

  lemma MintAgrees(ix: Index, c: Ctx, n: nat, v: Hir, after: set<nat>, live: set<nat>, outs: Outs, s: State, t: State)
    requires Alike(ix, after, live, outs, Eval(c, n, v, s), Eval(c, n, v, t))
    ensures Alike(ix, after, live, outs, Eval(c, n, Return(v), s), Eval(c, n, Return(v), t))
  {}

  lemma {:induction false} LetAgrees(ix: Index, c: Ctx, n: nat, e: Hir, after: set<nat>, live: set<nat>, outs: Outs,
          s: State, t: State)
    requires Injective(ix) && e.Let? && Sure(c.host, ix, e, after, live, outs) && Before(ix, e, after) <= live
    requires Agree(ix, live, s, t)
    ensures Alike(ix, after, live, outs, Eval(c, n, e, s), Eval(c, n, e, t))
    decreases n, 1, e, 0
  {
    hide Agree, Alike, EvalBinds, SureBinds, SureInits, Prebind, KillAll, BinderNames, BoxedBits, BitsOf;
    var need, names := Before(ix, e.body, after), BinderNames(e.binds);
    var s0, t0 := if e.rec then Prebind(s, e.binds) else s, if e.rec then Prebind(t, e.binds) else t;
    if e.rec {
      var known := live + BoxedBits(ix, e.binds);
      PrebindAgrees(ix, live, s, t, e.binds);
      InitsAgree(ix, c, n, true, e.binds, KillAll(ix, names, need), known, outs, s0, t0);
      KillSplits(ix, names, need);
      BindsLess(ix, KillAll(ix, names, need) + BitsOf(ix, names), need, known, live, outs,
          EvalBinds(c, n, true, e.binds, s0), EvalBinds(c, n, true, e.binds, t0));
    } else {
      BindsAgree(ix, c, n, e.binds, need, live, outs, s0, t0);
    }
    var a, b := EvalBinds(c, n, e.rec, e.binds, s0), EvalBinds(c, n, e.rec, e.binds, t0);
    if a.Bound? {
      EvalAgrees(ix, c, n, e.body, after, live + need, outs, a.st, b.st);
      AlikeLess(ix, after, live + need, live, outs, Eval(c, n, e.body, a.st), Eval(c, n, e.body, b.st));
    } else {
      AlikeStops(ix, {}, after, live, outs, a.res, b.res);
    }
  }

  lemma {:induction false} LoopAgrees(ix: Index, c: Ctx, n: nat, e: Hir, after: set<nat>, live: set<nat>, outs: Outs,
          s: State, t: State)
    requires Injective(ix) && e.Loop? && Sure(c.host, ix, e, after, live, outs) && Before(ix, e, after) <= live
    requires Agree(ix, live, s, t)
    ensures Alike(ix, after, live, outs, Eval(c, n, e, s), Eval(c, n, e, t))
    decreases n, 1, e, 0
  {
    hide Agree, Alike, EvalBinds, SureInits, KillAll, BinderNames, RunLoop, BitsOf;
    var need, names := Before(ix, e.body, after), BinderNames(e.binds);
    var bits := BitsOf(ix, names);
    var known := live + need + bits;
    InitsAgree(ix, c, n, false, e.binds, KillAll(ix, names, need), live, outs, s, t);
    KillSplits(ix, names, need);
    var a, b := EvalBinds(c, n, false, e.binds, s), EvalBinds(c, n, false, e.binds, t);
    if a.Bound? {
      AgreeLess(ix, live + (KillAll(ix, names, need) + bits), known, a.st, b.st);
      TurnsAgree(ix, c, n, names, e.body, after, known, outs, a.st, b.st);
      AlikeLess(ix, after, known, live, outs, RunLoop(c, n, names, e.body, a.st), RunLoop(c, n, names, e.body, b.st));
    } else {
      AlikeStops(ix, {}, after, live, outs, a.res, b.res);
    }
  }

  lemma {:induction false} TurnsAgree(ix: Index, c: Ctx, n: nat, names: seq<Binding>, body: Hir, after: set<nat>,
          live: set<nat>, outs: Outs, s: State, t: State)
    requires Injective(ix) && Sure(c.host, ix, body, after, live, outs) && Before(ix, body, after) <= live
    requires BitsOf(ix, names) <= live && Agree(ix, live, s, t)
    ensures Alike(ix, after, live, outs, RunLoop(c, n, names, body, s), RunLoop(c, n, names, body, t))
    decreases n, 1, body, 2
  {
    hide Agree, Eval, Sure, Before, WriteAll, BitsOf;
    var r, q := Eval(c, n, body, s), Eval(c, n, body, t);
    EvalAgrees(ix, c, n, body, after, live, outs, s, t);
    if r.out.Again? && |r.out.values| == |names| && n > 0 {
      BitsKnown(ix, live, names);
      WriteAllAgrees(ix, live, r.st, q.st, names, r.out.values);
      TurnsAgree(ix, c, n - 1, names, body, after, live, outs, WriteAll(r.st, names, r.out.values),
          WriteAll(q.st, names, r.out.values));
    }
  }

  lemma {:induction false} IfAgrees(ix: Index, c: Ctx, n: nat, e: Hir, after: set<nat>, live: set<nat>, outs: Outs,
          s: State, t: State)
    requires Injective(ix) && e.If? && Sure(c.host, ix, e, after, live, outs) && Before(ix, e, after) <= live
    requires Agree(ix, live, s, t)
    ensures Alike(ix, after, live, outs, Eval(c, n, e, s), Eval(c, n, e, t))
    decreases n, 1, e, 0
  {
    hide Agree, Alike;
    var need := Before(ix, e.thn, after) + Before(ix, e.els, after);
    var r, q := Eval(c, n, e.test, s), Eval(c, n, e.test, t);
    EvalAgrees(ix, c, n, e.test, need, live, outs, s, t);
    SameOut(ix, need, live, outs, r, q);
    if r.out.Val? {
      AlikeGoesOn(ix, need, live, outs, r, q);
      var x := if Truthy(r.out.value) then e.thn else e.els;
      EvalAgrees(ix, c, n, x, after, live + need, outs, r.st, q.st);
      AlikeLess(ix, after, live + need, live, outs, Eval(c, n, x, r.st), Eval(c, n, x, q.st));
    } else {
      AlikeStops(ix, need, after, live, outs, r, q);
    }
  }

  lemma {:induction false} ClausesAgree(ix: Index, c: Ctx, n: nat, cl: Clauses, after: set<nat>, live: set<nat>,
          outs: Outs, s: State, t: State)
    requires Injective(ix) && SureClauses(c.host, ix, cl, after, live, outs) && ClausesBefore(ix, cl, after) <= live
    requires Agree(ix, live, s, t)
    ensures Alike(ix, after, live, outs, EvalClauses(c, n, cl, s), EvalClauses(c, n, cl, t))
    decreases n, 1, cl, 0
  {
    hide Agree, Alike, Eval, Sure, Before;
    match cl
    case NoElse => AgreeLess(ix, live, after, s, t); ValAlike(ix, after, live, outs, NilValue, s, t);
    case Else(e) => EvalAgrees(ix, c, n, e, after, live, outs, s, t);
    case Clause(test, body, rest) =>
      var need := ClausesBefore(ix, rest, after) + Before(ix, body, after);
      var r, q := Eval(c, n, test, s), Eval(c, n, test, t);
      EvalAgrees(ix, c, n, test, need, live, outs, s, t);
      SameOut(ix, need, live, outs, r, q);
      if !r.out.Val? {
        AlikeStops(ix, need, after, live, outs, r, q);
      } else {
        AlikeGoesOn(ix, need, live, outs, r, q);
        if Truthy(r.out.value) {
          EvalAgrees(ix, c, n, body, after, live + need, outs, r.st, q.st);
          AlikeLess(ix, after, live + need, live, outs, Eval(c, n, body, r.st), Eval(c, n, body, q.st));
        } else {
          ClausesAgree(ix, c, n, rest, after, live + need, outs, r.st, q.st);
          AlikeLess(ix, after, live + need, live, outs, EvalClauses(c, n, rest, r.st), EvalClauses(c, n, rest, q.st));
        }
      }
  }

  lemma ValAlike(ix: Index, after: set<nat>, live: set<nat>, outs: Outs, v: Value, s: State, t: State)
    requires Agree(ix, live, s, t) && Agree(ix, after, s, t)
    ensures Alike(ix, after, live, outs, Res(Val(v), s), Res(Val(v), t))
  {}

  lemma {:induction false} SeqAgrees(ix: Index, c: Ctx, n: nat, es: Hirs, after: set<nat>, live: set<nat>, outs: Outs,
          s: State, t: State)
    requires Injective(ix) && SureSeq(c.host, ix, es, after, live, outs) && SeqBefore(ix, es, after) <= live
    requires Agree(ix, live, s, t)
    ensures Alike(ix, after, live, outs, EvalSeq(c, n, es, s), EvalSeq(c, n, es, t))
    decreases n, 1, es, 0
  {
    hide Agree, Alike, Eval, Sure, Before;
    match es
    case HNil => AgreeLess(ix, live, after, s, t); ValAlike(ix, after, live, outs, NilValue, s, t);
    case HCons(e, rest) =>
      var need := SeqBefore(ix, rest, after);
      var r, q := Eval(c, n, e, s), Eval(c, n, e, t);
      EvalAgrees(ix, c, n, e, need, live, outs, s, t);
      SameOut(ix, need, live, outs, r, q);
      if rest.HCons? {
        if r.out.Val? {
          AlikeGoesOn(ix, need, live, outs, r, q);
          SeqAgrees(ix, c, n, rest, after, live + need, outs, r.st, q.st);
          AlikeLess(ix, after, live + need, live, outs, EvalSeq(c, n, rest, r.st), EvalSeq(c, n, rest, q.st));
        } else {
          AlikeStops(ix, need, after, live, outs, r, q);
        }
      }
  }

  lemma {:induction false} LogicAgrees(ix: Index, c: Ctx, n: nat, conj: bool, es: Hirs, after: set<nat>, live: set<nat>,
          outs: Outs, s: State, t: State)
    requires Injective(ix) && SureLogic(c.host, ix, es, after, live, outs) && SeqBefore(ix, es, after) <= live
    requires Agree(ix, live, s, t)
    ensures Alike(ix, after, live, outs, EvalLogic(c, n, conj, es, s), EvalLogic(c, n, conj, es, t))
    decreases n, 1, es, 0
  {
    hide Agree, Alike, Eval, Sure, Before;
    match es
    case HNil => AgreeLess(ix, live, after, s, t); ValAlike(ix, after, live, outs, Data(Bool(conj)), s, t);
    case HCons(e, rest) =>
      var need := SeqBefore(ix, rest, after);
      var r, q := Eval(c, n, e, s), Eval(c, n, e, t);
      EvalAgrees(ix, c, n, e, need, live, outs, s, t);
      SameOut(ix, need, live, outs, r, q);
      if rest.HCons? {
        if r.out.Val? {
          AlikeGoesOn(ix, need, live, outs, r, q);
          if Truthy(r.out.value) == conj {
            LogicAgrees(ix, c, n, conj, rest, after, live + need, outs, r.st, q.st);
            AlikeLess(ix, after, live + need, live, outs, EvalLogic(c, n, conj, rest, r.st),
                EvalLogic(c, n, conj, rest, q.st));
          } else {
            AgreeLess(ix, live + need, after, r.st, q.st);
            AgreeLess(ix, live + need, live, r.st, q.st);
            ValAlike(ix, after, live, outs, r.out.value, r.st, q.st);
          }
        } else {
          AlikeStops(ix, need, after, live, outs, r, q);
        }
      }
  }

  /** A `break` to the block is the block's value, and what is live after the block was known at the `break`. */
  lemma {:induction false} BlockAgrees(ix: Index, c: Ctx, n: nat, e: Hir, after: set<nat>, live: set<nat>, outs: Outs,
          s: State, t: State)
    requires Injective(ix) && e.Block? && Sure(c.host, ix, e, after, live, outs) && Before(ix, e, after) <= live
    requires Agree(ix, live, s, t)
    ensures Alike(ix, after, live, outs, Eval(c, n, e, s), Eval(c, n, e, t))
    decreases n, 1, e, 0
  {
    hide Agree, EvalSeq, SureSeq, SeqBefore;
    SeqAgrees(ix, c, n, e.exprs, after, live, outs[e.id := after], s, t);
  }

  lemma {:induction false} BreakAgrees(ix: Index, c: Ctx, n: nat, e: Hir, after: set<nat>, live: set<nat>, outs: Outs,
          s: State, t: State)
    requires Injective(ix) && e.Break? && Sure(c.host, ix, e, after, live, outs) && Before(ix, e, after) <= live
    requires Agree(ix, live, s, t)
    ensures Alike(ix, after, live, outs, Eval(c, n, e, s), Eval(c, n, e, t))
    decreases n, 1, e, 0
  {
    hide Agree;
    var r, q := Eval(c, n, e.value, s), Eval(c, n, e.value, t);
    EvalAgrees(ix, c, n, e.value, after, live, outs, s, t);
    if r.out.Val? {
      AlikeGoesOn(ix, after, live, outs, r, q);
      if e.id in outs { AgreeLess(ix, live + after, outs[e.id], r.st, q.st); }
    }
  }

  lemma {:induction false} CallAgrees(ix: Index, c: Ctx, n: nat, e: Hir, after: set<nat>, live: set<nat>, outs: Outs,
          s: State, t: State)
    requires Injective(ix) && e.Call? && Sure(c.host, ix, e, after, live, outs) && Before(ix, e, after) <= live
    requires Agree(ix, live, s, t)
    ensures Alike(ix, after, live, outs, Eval(c, n, e, s), Eval(c, n, e, t))
    decreases n, 1, e, 0
  {
    hide Agree, Alike, Invoke, EvalOps, SureSeq, SeqBefore;
    var need := Before(ix, e.func, after);
    OpsAgree(ix, c, n, e.args, need, live, outs, s, t);
    var a, b := EvalOps(c, n, e.args, s), EvalOps(c, n, e.args, t);
    if a.Vals? {
      var r, q := Eval(c, n, e.func, a.st), Eval(c, n, e.func, b.st);
      EvalAgrees(ix, c, n, e.func, after, live + need, outs, a.st, b.st);
      SameOut(ix, after, live + need, outs, r, q);
      if r.out.Val? {
        AlikeGoesOn(ix, after, live + need, outs, r, q);
        InvokeAgrees(ix, live + need + after, c, n, r.out.value, a.values, e.spliced, e.isTail, r.st, q.st);
        Ended(ix, after, live, live + need + after, outs, Eval(c, n, e, s), Eval(c, n, e, t));
      } else {
        AlikeLess(ix, after, live + need, live, outs, r, q);
      }
    } else {
      AlikeStops(ix, {}, after, live, outs, a.res, b.res);
    }
  }

  /** Two ends of the same outcome, no `break`, that agree on everything known. */
  lemma Ended(ix: Index, after: set<nat>, live: set<nat>, known: set<nat>, outs: Outs, r: Res, q: Res)
    requires r.out == q.out && !r.out.Brk? && Agree(ix, known, r.st, q.st) && live <= known && after <= known
    ensures Alike(ix, after, live, outs, r, q)
  {
    hide Agree;
    AgreeLess(ix, known, live, r.st, q.st);
    AgreeLess(ix, known, after, r.st, q.st);
  }

  lemma {:induction false} WhileAgrees(ix: Index, c: Ctx, n: nat, e: Hir, after: set<nat>, live: set<nat>, outs: Outs,
          s: State, t: State)
    requires Injective(ix) && e.While? && Sure(c.host, ix, e, after, live, outs) && Before(ix, e, after) <= live
    requires Agree(ix, live, s, t)
    ensures Alike(ix, after, live, outs, RunWhile(c, n, e.test, e.body, s), RunWhile(c, n, e.test, e.body, t))
    decreases n, 1, e, 0
  {
    hide Agree, Alike, Eval;
    var need := after + Before(ix, e.body, after);
    var r, q := Eval(c, n, e.test, s), Eval(c, n, e.test, t);
    EvalAgrees(ix, c, n, e.test, need, live, outs, s, t);
    SameOut(ix, need, live, outs, r, q);
    WhileStep(c, n, e.test, e.body, s);
    WhileStep(c, n, e.test, e.body, t);
    hide RunWhile;
    if !r.out.Val? {
      AlikeStops(ix, need, after, live, outs, r, q);
    } else {
      AlikeGoesOn(ix, need, live, outs, r, q);
      if !Truthy(r.out.value) {
        Ended(ix, after, live, live + need, outs, Res(Val(NilValue), r.st), Res(Val(NilValue), q.st));
      } else {
        var u, v := Eval(c, n, e.body, r.st), Eval(c, n, e.body, q.st);
        EvalAgrees(ix, c, n, e.body, after, live + need, outs, r.st, q.st);
        AlikeLess(ix, after, live + need, live, outs, u, v);
        SameOut(ix, after, live, outs, u, v);
        if !u.out.Val? {
        } else {
          AlikeGoesOn(ix, after, live, outs, u, v);
          if n == 0 {
            Ended(ix, after, live, live + after, outs, Res(Timeout, u.st), Res(Timeout, v.st));
          } else {
            AgreeLess(ix, live + after, live, u.st, v.st);
            WhileAgrees(ix, c, n - 1, e, after, live, outs, u.st, v.st);
          }
        }
      }
    }
  }

  lemma WhileStep(c: Ctx, n: nat, test: Hir, body: Hir, st: State)
    ensures var r := Eval(c, n, test, st);
            var u := Eval(c, n, body, r.st);
            RunWhile(c, n, test, body, st)
            == if !r.out.Val? then r
               else if !Truthy(r.out.value) then Res(Val(NilValue), r.st)
               else if !u.out.Val? then u
               else if n == 0 then Res(Timeout, u.st) else RunWhile(c, n - 1, test, body, u.st)
  {
    hide Eval, Truthy;
  }

  lemma {:induction false} MatchAgrees(ix: Index, c: Ctx, n: nat, e: Hir, after: set<nat>, live: set<nat>, outs: Outs,
          s: State, t: State)
    requires Injective(ix) && e.Match? && Sure(c.host, ix, e, after, live, outs) && Before(ix, e, after) <= live
    requires Agree(ix, live, s, t)
    ensures Alike(ix, after, live, outs, Eval(c, n, e, s), Eval(c, n, e, t))
    decreases n, 1, e, 0
  {
    hide Agree, Alike, EvalArms, SureArms, ArmsBefore;
    var need := ArmsBefore(ix, e.arms, after);
    var r, q := Eval(c, n, e.value, s), Eval(c, n, e.value, t);
    EvalAgrees(ix, c, n, e.value, need, live, outs, s, t);
    SameOut(ix, need, live, outs, r, q);
    if r.out.Val? {
      AlikeGoesOn(ix, need, live, outs, r, q);
      ArmsAgree(ix, c, n, r.out.value, e.arms, after, live + need, outs, r.st, q.st);
      AlikeLess(ix, after, live + need, live, outs, EvalArms(c, n, r.out.value, e.arms, r.st),
          EvalArms(c, n, r.out.value, e.arms, q.st));
    } else {
      AlikeStops(ix, need, after, live, outs, r, q);
    }
  }

  lemma {:induction false} ArmsAgree(ix: Index, c: Ctx, n: nat, v: Value, arms: Arms, after: set<nat>, live: set<nat>,
          outs: Outs, s: State, t: State)
    requires Injective(ix) && SureArms(c.host, ix, arms, after, live, outs) && ArmsBefore(ix, arms, after) <= live
    requires Agree(ix, live, s, t)
    ensures Alike(ix, after, live, outs, EvalArms(c, n, v, arms, s), EvalArms(c, n, v, arms, t))
    decreases n, 1, arms, 0
  {
    hide Agree, Alike, Eval, Sure, Before, BindAll, BitsOf, KillAll;
    match arms
    case ANil =>
      Ended(ix, {}, live, live, outs, Res(Fault, s), Res(Fault, t));
      AlikeStops(ix, {}, after, live, outs, Res(Fault, s), Res(Fault, t));
    case ACons(p, g, b, rest) =>
      SameWorld(ix, live, s, t);
      var m := c.host(MatchOp(p.shape), [v], s.world);
      WorldAgrees(ix, live, s, t, m.world);
      if m.Raised? {
        ArmsAgree(ix, c, n, v, rest, after, live, outs, s.(world := m.world), t.(world := m.world));
      } else {
        BindAllAgrees(ix, live, s.(world := m.world), t.(world := m.world), p.vars, m.values);
        ArmAgrees(ix, c, n, v, arms, after, live, outs, BindAll(s.(world := m.world), p.vars, m.values),
            BindAll(t.(world := m.world), p.vars, m.values));
      }
  }

  /** What a matched arm goes on with: its guard, if it has one, and then its body or the arms after it. */
  function Chosen(c: Ctx, n: nat, v: Value, arms: Arms, st: State): Res
    requires arms.ACons?
  {
    if arms.guard.None? then Eval(c, n, arms.body, st)
    else
      var r := Eval(c, n, arms.guard.value, st);
      if !r.out.Val? then r
      else if Truthy(r.out.value) then Eval(c, n, arms.body, r.st) else EvalArms(c, n, v, arms.rest, r.st)
  }

  lemma {:induction false} ArmAgrees(ix: Index, c: Ctx, n: nat, v: Value, arms: Arms, after: set<nat>, live: set<nat>,
          outs: Outs, s: State, t: State)
    requires Injective(ix) && arms.ACons? && SureArms(c.host, ix, arms, after, live, outs)
    requires ArmsBefore(ix, arms, after) <= live
    requires Agree(ix, live + BitsOf(ix, arms.pattern.vars), s, t)
    ensures Alike(ix, after, live, outs, Chosen(c, n, v, arms, s), Chosen(c, n, v, arms, t))
    decreases n, 1, arms, -1
  {
    hide Agree, Alike, Eval, Sure, Before, BitsOf, KillAll;
    var need := Before(ix, arms.body, after);
    var bound := live + BitsOf(ix, arms.pattern.vars);
    if arms.guard.None? {
      KillSplits(ix, arms.pattern.vars, need);
      EvalAgrees(ix, c, n, arms.body, after, bound, outs, s, t);
      AlikeLess(ix, after, bound, live, outs, Eval(c, n, arms.body, s), Eval(c, n, arms.body, t));
    } else {
      var g := arms.guard.value;
      KillSplits(ix, arms.pattern.vars, Before(ix, g, need));
      var r, q := Eval(c, n, g, s), Eval(c, n, g, t);
      EvalAgrees(ix, c, n, g, need, bound, outs, s, t);
      SameOut(ix, need, bound, outs, r, q);
      if !r.out.Val? {
        AlikeLess(ix, need, bound, live, outs, r, q);
        AlikeStops(ix, need, after, live, outs, r, q);
      } else {
        AlikeGoesOn(ix, need, bound, outs, r, q);
        if Truthy(r.out.value) {
          EvalAgrees(ix, c, n, arms.body, after, bound + need, outs, r.st, q.st);
          AlikeLess(ix, after, bound + need, live, outs, Eval(c, n, arms.body, r.st), Eval(c, n, arms.body, q.st));
        } else {
          AgreeLess(ix, bound + need, live, r.st, q.st);
          ArmsAgree(ix, c, n, v, arms.rest, after, live, outs, r.st, q.st);
        }
      }
    }
  }

  lemma {:induction false} ParameterizeAgrees(ix: Index, c: Ctx, n: nat, e: Hir, after: set<nat>, live: set<nat>,
          outs: Outs, s: State, t: State)
    requires Injective(ix) && e.Parameterize? && Sure(c.host, ix, e, after, live, outs) && Before(ix, e, after) <= live
    requires Agree(ix, live, s, t)
    ensures Alike(ix, after, live, outs, Eval(c, n, e, s), Eval(c, n, e, t))
    decreases n, 1, e, 0
  {
    hide Agree, Alike, EvalOps, SureSeq, SeqBefore, Overlay;
    var need := Before(ix, e.body, after);
    OpsAgree(ix, c, n, e.pairs, need, live, outs, s, t);
    var a, b := EvalOps(c, n, e.pairs, s), EvalOps(c, n, e.pairs, t);
    if a.Vals? {
      SameWorld(ix, live + need, a.st, b.st);
      var dyn := Overlay(a.st.dyn, a.values);
      DynAgrees(ix, live + need, a.st, b.st, dyn);
      var r, q := Eval(c, n, e.body, a.st.(dyn := dyn)), Eval(c, n, e.body, b.st.(dyn := dyn));
      EvalAgrees(ix, c, n, e.body, after, live + need, outs, a.st.(dyn := dyn), b.st.(dyn := dyn));
      AlikeLess(ix, after, live + need, live, outs, r, q);
      DynRestored(ix, after, live, outs, r, q, a.st.dyn);
    } else {
      AlikeStops(ix, {}, after, live, outs, a.res, b.res);
    }
  }

  lemma DynAgrees(ix: Index, live: set<nat>, s: State, t: State, dyn: map<nat, Value>)
    requires Agree(ix, live, s, t)
    ensures Agree(ix, live, s.(dyn := dyn), t.(dyn := dyn))
  {}

  lemma DynRestored(ix: Index, after: set<nat>, live: set<nat>, outs: Outs, r: Res, q: Res, dyn: map<nat, Value>)
    requires Alike(ix, after, live, outs, r, q)
    ensures Alike(ix, after, live, outs, Res(r.out, r.st.(dyn := dyn)), Res(q.out, q.st.(dyn := dyn)))
  {}

  lemma {:induction false} StrictAgrees(ix: Index, c: Ctx, n: nat, e: Hir, after: set<nat>, live: set<nat>, outs: Outs,
          s: State, t: State)
    requires Injective(ix) && e.Strict? && Sure(c.host, ix, e, after, live, outs) && Before(ix, e, after) <= live
    requires Agree(ix, live, s, t)
    ensures Alike(ix, after, live, outs, Eval(c, n, e, s), Eval(c, n, e, t))
    decreases n, 1, e, 0
  {
    hide Agree, Alike, EvalOps, SureSeq, SeqBefore, Perform, SureOp;
    var need := OpBefore(ix, e.op, after);
    assert SeqBefore(ix, e.args, need) <= live;
    OpsAgree(ix, c, n, e.args, need, live, outs, s, t);
    var a, b := EvalOps(c, n, e.args, s), EvalOps(c, n, e.args, t);
    if a.Vals? {
      PerformAgrees(ix, c.host, e.op, after, live, outs, a.values, a.st, b.st);
    } else {
      AlikeStops(ix, {}, after, live, outs, a.res, b.res);
    }
  }

  lemma PerformAgrees(ix: Index, h: Host, op: Op, after: set<nat>, live: set<nat>, outs: Outs, vs: seq<Value>, s: State,
          t: State)
    requires Injective(ix) && SureOp(h, ix, op, live) && (op.SetCell? ==> Counts(ix, live, op.target))
    requires Agree(ix, live + OpBefore(ix, op, after), s, t)
    ensures Alike(ix, after, live, outs, Perform(h, op, vs, s), Perform(h, op, vs, t))
  {
    hide Agree, Alike, Write, Store, StoreAll, KillAll, BitsOf;
    var known := live + OpBefore(ix, op, after);
    var v := First(vs);
    SameWorld(ix, known, s, t);
    var r, q := Perform(h, op, vs, s), Perform(h, op, vs, t);
    match op
    case SetCell(b) => WriteAgrees(ix, known, s, t, b, v); Ended(ix, after, live, known + Bit(ix, b), outs, r, q);
    case Assign(b) => WriteAgrees(ix, known, s, t, b, v); Ended(ix, after, live, known + Bit(ix, b), outs, r, q);
    case Define(b) => StoreAgrees(ix, known, s, t, b, v); Ended(ix, after, live, known + Bit(ix, b), outs, r, q);
    case Destructure(p, _) => DestructureAgrees(ix, h, op, after, live, outs, vs, s, t);
    case Intrinsic(code, _, _) => HostAgrees(ix, h, PrimOp(code), after, live, outs, vs, s, t);
    case Emit(signal) => HostAgrees(ix, h, EmitOp(signal), after, live, outs, vs, s, t);
    case RunDatum => HostAgrees(ix, h, EvalOp, after, live, outs, vs, s, t);
    case _ => Ended(ix, after, live, known, outs, r, q);
  }

  lemma HostAgrees(ix: Index, h: Host, op: HostOp, after: set<nat>, live: set<nat>, outs: Outs, vs: seq<Value>,
          s: State, t: State)
    requires Agree(ix, live + after, s, t)
    ensures Alike(ix, after, live, outs, Host1(h, op, vs, s), Host1(h, op, vs, t))
  {
    hide Agree, Alike;
    SameWorld(ix, live + after, s, t);
    WorldAgrees(ix, live + after, s, t, h(op, vs, s.world).world);
    Ended(ix, after, live, live + after, outs, Host1(h, op, vs, s), Host1(h, op, vs, t));
  }

  lemma DestructureAgrees(ix: Index, h: Host, op: Op, after: set<nat>, live: set<nat>, outs: Outs, vs: seq<Value>,
          s: State, t: State)
    requires Injective(ix) && op.Destructure? && SureOp(h, ix, op, live)
    requires Agree(ix, live + OpBefore(ix, op, after), s, t)
    ensures Alike(ix, after, live, outs, Perform(h, op, vs, s), Perform(h, op, vs, t))
  {
    hide Agree, Alike, StoreAll, KillAll, BitsOf;
    var vars := op.pattern.vars;
    var known := live + KillAll(ix, vars, after);
    SameWorld(ix, known, s, t);
    var m := h(MatchOp(op.pattern.shape), vs, s.world);
    WorldAgrees(ix, known, s, t, m.world);
    var r, q := Perform(h, op, vs, s), Perform(h, op, vs, t);
    if m.Done? {
      assert BoxedKnown(ix, known, vars);
      StoreAllAgrees(ix, known, s.(world := m.world), t.(world := m.world), vars, m.values);
      KillSplits(ix, vars, after);
      Ended(ix, after, live, known + BitsOf(ix, vars), outs, r, q);
    } else {
      Ended(ix, {}, live, known, outs, r, q);
      AlikeStops(ix, {}, after, live, outs, r, q);
    }
  }
}
