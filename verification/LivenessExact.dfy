/**
  Liveness tells enough exactly where `Sure` holds, shown on the forms that can break it.

  `LivenessIsEnough` is the general statement. For an `and` or `or` that starts with a
  variable, and for a block whose first step may `break` out of it, the converse holds
  as well: what is live after must be live before (`LogicExactly`, `BreakExactly`). An
  assignment to a name in a cell always fails it (`AssignNeedsItsCell`), and so does a
  callee expression that assigns what the arguments read (`CalleeRunsLast`).
*/
module LivenessExact {
  import opened HirSyntax
  import opened HirEval
  import opened Liveness
  import opened LivenessSure
  import opened LivenessSound

  ghost predicate SameEnd(ix: Index, after: set<nat>, r: Res, q: Res) {
    r.out == q.out && r.st.world == q.st.world && (r.out.Val? ==> Agree(ix, after, r.st, q.st))
  }

  /** Runs that agree on what is live before `e` end alike, and agree on what is live after. */
  ghost predicate Enough(ix: Index, c: Ctx, e: Hir, after: set<nat>) {
    forall n, s, t :: Agree(ix, Before(ix, e, after), s, t) ==> SameEnd(ix, after, Eval(c, n, e, s), Eval(c, n, e, t))
  }

  lemma LivenessIsEnough(ix: Index, c: Ctx, e: Hir, after: set<nat>)
    requires Injective(ix) && Sure(c.host, ix, e, after, Before(ix, e, after), map[])
    ensures Enough(ix, c, e, after)
  {
    hide Eval, Before, Sure, Agree;
    var live := Before(ix, e, after);
    forall n, s, t | Agree(ix, live, s, t) ensures SameEnd(ix, after, Eval(c, n, e, s), Eval(c, n, e, t)) {
      EvalAgrees(ix, c, n, e, after, live, map[], s, t);
      SameWorld(ix, live, Eval(c, n, e, s).st, Eval(c, n, e, t).st);
    }
  }

  // ----- two states that differ in one dead name -----------------------------------------------------------

  /** A state whose one variable `a` holds `v`, beside `z`. */
  function Apart(a: Binding, v: Value, z: Binding, x: Value): State {
    State(map[z := Plain(x), a := Plain(v)], map[], World([], [], []), 0)
  }

  lemma ApartAgree(ix: Index, live: set<nat>, a: Binding, v: Value, z: Binding)
    requires z in ix && ix[z] !in live && a != z
    ensures Agree(ix, live, Apart(a, v, z, NilValue), Apart(a, v, z, Data(Int(1))))
    ensures forall more: set<nat> :: ix[z] in more ==>
            !Agree(ix, more, Apart(a, v, z, NilValue), Apart(a, v, z, Data(Int(1))))
  {
    var s, t := Apart(a, v, z, NilValue), Apart(a, v, z, Data(Int(1)));
    assert !SameSlot(s.frame, t.frame, z);
    forall more: set<nat> | ix[z] in more ensures !Agree(ix, more, s, t) { assert Counts(ix, more, z); }
  }

  lemma Missing(ix: Index, after: set<nat>, live: set<nat>) returns (z: Binding)
    requires after <= ix.Values && !(after <= live)
    ensures z in ix && ix[z] in after && ix[z] !in live
  {
    var x :| x in after && x !in live;
    z :| z in ix && ix[z] == x;
  }

  // ----- `and` and `or` ------------------------------------------------------------------------------------

  lemma EarlyEnd(c: Ctx, n: nat, conj: bool, a: Binding, rest: Hirs, s: State)
    requires rest.HCons? && a in s.frame && s.frame[a] == Plain(Data(Bool(!conj)))
    ensures Eval(c, n, Logic(conj, HCons(Var(a), rest)), s) == Res(Val(Data(Bool(!conj))), s)
  {
    assert Eval(c, n, Var(a), s) == Res(Val(Data(Bool(!conj))), s);
  }

  lemma LogicBefore(ix: Index, conj: bool, a: Binding, rest: Hirs, after: set<nat>)
    requires a in ix
    ensures Before(ix, Logic(conj, HCons(Var(a), rest)), after) == SeqBefore(ix, rest, after) + {ix[a]}
  {
    var es := HCons(Var(a), rest);
    assert Before(ix, Logic(conj, es), after) == SeqBefore(ix, es, after);
    assert SeqBefore(ix, es, after) == Before(ix, Var(a), SeqBefore(ix, rest, after));
  }

  lemma LogicIsSure(h: Host, ix: Index, conj: bool, a: Binding, rest: Hirs, after: set<nat>)
    requires var e := Logic(conj, HCons(Var(a), rest));
             a in ix && after <= Before(ix, e, after) && SureLogic(h, ix, rest, after, Before(ix, e, after), map[])
    ensures var e := Logic(conj, HCons(Var(a), rest)); Sure(h, ix, e, after, Before(ix, e, after), map[])
  {
    var es := HCons(Var(a), rest);
    var live, need := Before(ix, Logic(conj, es), after), SeqBefore(ix, rest, after);
    LogicBefore(ix, conj, a, rest, after);
    assert live + need == live;
    var none: Outs := map[];
    assert Sure(h, ix, Var(a), need, live, none);
    assert SureLogic(h, ix, es, after, live, none);
  }

  /** An `and` or `or` that starts with a variable: liveness is enough if and only if nothing live after is lost. */
  lemma LogicExactly(ix: Index, c: Ctx, conj: bool, a: Binding, rest: Hirs, after: set<nat>)
    requires Injective(ix) && a in ix && rest.HCons? && after <= ix.Values
    requires var e := Logic(conj, HCons(Var(a), rest)); SureLogic(c.host, ix, rest, after, Before(ix, e, after), map[])
    ensures var e := Logic(conj, HCons(Var(a), rest)); Enough(ix, c, e, after) <==> after <= Before(ix, e, after)
  {
    hide Eval, Agree;
    var e := Logic(conj, HCons(Var(a), rest));
    var live := Before(ix, e, after);
    LogicBefore(ix, conj, a, rest, after);
    if after <= live {
      LogicIsSure(c.host, ix, conj, a, rest, after);
      LivenessIsEnough(ix, c, e, after);
    } else {
      var z := Missing(ix, after, live);
      var v := Data(Bool(!conj));
      var s, t := Apart(a, v, z, NilValue), Apart(a, v, z, Data(Int(1)));
      ApartAgree(ix, live, a, v, z);
      EarlyEnd(c, 0, conj, a, rest, s);
      EarlyEnd(c, 0, conj, a, rest, t);
      assert !SameEnd(ix, after, Eval(c, 0, e, s), Eval(c, 0, e, t));
    }
  }

  // ----- `break` -------------------------------------------------------------------------------------------

  /** `(block id (if a (break id)) rest...)` */
  function MayBreak(id: BlockId, a: Binding, rest: Hirs): Hir {
    Block(id, HCons(If(Var(a), Break(id, Lit(Nil)), Lit(Nil)), rest))
  }

  lemma EarlyBreak(c: Ctx, n: nat, id: BlockId, a: Binding, rest: Hirs, s: State)
    requires a in s.frame && s.frame[a] == Plain(Data(Bool(true)))
    ensures Eval(c, n, MayBreak(id, a, rest), s) == Res(Val(NilValue), s)
  {
    var first := If(Var(a), Break(id, Lit(Nil)), Lit(Nil));
    assert Eval(c, n, Var(a), s) == Res(Val(Data(Bool(true))), s);
    assert Eval(c, n, Lit(Nil), s) == Res(Val(NilValue), s);
    assert Eval(c, n, Break(id, Lit(Nil)), s) == Res(Brk(id, NilValue), s);
    assert Eval(c, n, first, s) == Res(Brk(id, NilValue), s);
    assert EvalSeq(c, n, HCons(first, rest), s) == Res(Brk(id, NilValue), s);
  }

  lemma BreakBefore(ix: Index, id: BlockId, a: Binding, rest: Hirs, after: set<nat>)
    requires a in ix
    ensures Before(ix, MayBreak(id, a, rest), after) == SeqBefore(ix, rest, after) + {ix[a]}
  {
    var need := SeqBefore(ix, rest, after);
    assert Before(ix, Lit(Nil), need) == need && Before(ix, Break(id, Lit(Nil)), need) == need;
    assert Before(ix, If(Var(a), Break(id, Lit(Nil)), Lit(Nil)), need) == Before(ix, Var(a), need + need);
    assert need + need == need;
  }

  /** A block that may be left at its first step: the same condition. */
  lemma BreakExactly(ix: Index, c: Ctx, id: BlockId, a: Binding, rest: Hirs, after: set<nat>)
    requires Injective(ix) && a in ix && after <= ix.Values
    requires SureSeq(c.host, ix, rest, after, Before(ix, MayBreak(id, a, rest), after), map[id := after])
    ensures Enough(ix, c, MayBreak(id, a, rest), after) <==> after <= Before(ix, MayBreak(id, a, rest), after)
  {
    hide Eval, Agree;
    var e := MayBreak(id, a, rest);
    var live, need := Before(ix, e, after), SeqBefore(ix, rest, after);
    BreakBefore(ix, id, a, rest, after);
    if after <= live {
      BreakIsSure(c.host, ix, id, a, rest, after);
      LivenessIsEnough(ix, c, e, after);
    } else {
      var z := Missing(ix, after, live);
      var v := Data(Bool(true));
      var s, t := Apart(a, v, z, NilValue), Apart(a, v, z, Data(Int(1)));
      ApartAgree(ix, live, a, v, z);
      EarlyBreak(c, 0, id, a, rest, s);
      EarlyBreak(c, 0, id, a, rest, t);
      assert !SameEnd(ix, after, Eval(c, 0, e, s), Eval(c, 0, e, t));
    }
  }

  lemma BreakIsSure(h: Host, ix: Index, id: BlockId, a: Binding, rest: Hirs, after: set<nat>)
    requires a in ix && after <= Before(ix, MayBreak(id, a, rest), after)
    requires SureSeq(h, ix, rest, after, Before(ix, MayBreak(id, a, rest), after), map[id := after])
    ensures Sure(h, ix, MayBreak(id, a, rest), after, Before(ix, MayBreak(id, a, rest), after), map[])
  {
    var live, need := Before(ix, MayBreak(id, a, rest), after), SeqBefore(ix, rest, after);
    BreakBefore(ix, id, a, rest, after);
    var none: Outs := map[];
    var outs: Outs := map[id := after];
    assert none[id := after] == outs;
    var first := If(Var(a), Break(id, Lit(Nil)), Lit(Nil));
    assert live + need == live && live + (need + need) == live;
    assert Before(ix, Lit(Nil), need) == need && Before(ix, Break(id, Lit(Nil)), need) == need;
    assert Sure(h, ix, Break(id, Lit(Nil)), need, live, outs);
    assert Sure(h, ix, first, need, live, outs);
    assert SureSeq(h, ix, HCons(first, rest), after, live, outs);
  }

  // ----- a name in a cell ----------------------------------------------------------------------------------

  function TwoCells(z: Binding, loc: nat): State {
    State(map[z := Cell(loc)], map[], World([NilValue, NilValue], [], []), 0)
  }

  /** The analysis drops a name where it is assigned; a name in a cell is still needed to find the cell. */
  lemma AssignNeedsItsCell(ix: Index, c: Ctx, z: Binding, n: int, after: set<nat>)
    requires z in ix && z.boxed
    ensures !Enough(ix, c, Strict(Assign(z), HCons(Lit(Int(n)), HNil)), after)
  {
    var e := Strict(Assign(z), HCons(Lit(Int(n)), HNil));
    var live := Kill(ix, z, after);
    assert SeqBefore(ix, HNil, live) == live && Before(ix, Lit(Int(n)), live) == live;
    assert SeqBefore(ix, HCons(Lit(Int(n)), HNil), live) == live;
    assert Before(ix, e, after) == live;
    var s, t := TwoCells(z, 0), TwoCells(z, 1);
    assert Agree(ix, live, s, t) by {
      forall b | Counts(ix, live, b) ensures SameSlot(s.frame, t.frame, b) { assert b != z; }
    }
    Assigned(c, z, n, 0);
    Assigned(c, z, n, 1);
    var r, q := Eval(c, 0, e, s), Eval(c, 0, e, t);
    assert r.st.world.cells[0] != q.st.world.cells[0];
    assert !SameEnd(ix, after, r, q);
  }

  lemma Assigned(c: Ctx, z: Binding, n: int, loc: nat)
    requires loc < 2
    ensures var r := Eval(c, 0, Strict(Assign(z), HCons(Lit(Int(n)), HNil)), TwoCells(z, loc));
            r.st.world.cells == [NilValue, NilValue][loc := Data(Int(n))]
  {
    var s := TwoCells(z, loc);
    assert EvalOps(c, 0, HNil, s) == Vals([], s) && Eval(c, 0, Lit(Int(n)), s) == Res(Val(Data(Int(n))), s);
    assert EvalOps(c, 0, HCons(Lit(Int(n)), HNil), s) == Vals([Data(Int(n))] + [], s);
  }

  // ----- the callee ----------------------------------------------------------------------------------------

  /** A host that gives back what it is given. */
  function Echo(): Host {
    (op: HostOp, vs: seq<Value>, w: World) => HostResult.Done(vs, w)
  }

  /** `((begin (assign z nil) f) z)` */
  function AssignsFirst(z: Binding, f: Binding): Hir {
    Call(HCons(Var(z), HNil), [], Begin(HCons(Strict(Assign(z), HCons(Lit(Nil), HNil)), HCons(Var(f), HNil))), false)
  }

  lemma CalleeBefore(ix: Index, z: Binding, f: Binding)
    requires z in ix && f in ix && z != f && Injective(ix)
    ensures ix[z] !in Before(ix, AssignsFirst(z, f), {})
  {
    var e := AssignsFirst(z, f);
    var assign := Strict(Assign(z), HCons(Lit(Nil), HNil));
    assert SeqBefore(ix, HNil, {}) == {} && SeqBefore(ix, e.args, {}) == {ix[z]};
    var need := {ix[z]};
    assert SeqBefore(ix, HNil, need) == need && SeqBefore(ix, HCons(Var(f), HNil), need) == need + {ix[f]};
    var mid := need + {ix[f]};
    var less := Kill(ix, z, mid);
    assert SeqBefore(ix, HNil, less) == less && Before(ix, Lit(Nil), less) == less;
    assert SeqBefore(ix, HCons(Lit(Nil), HNil), less) == less;
    assert Before(ix, assign, mid) == less;
    assert SeqBefore(ix, HCons(assign, HCons(Var(f), HNil)), need) == less;
  }

  lemma CalleeRuns(z: Binding, f: Binding, x: Value)
    requires z != f
    ensures Eval(Ctx(map[], Echo(), false), 1, AssignsFirst(z, f), Apart(f, Native(0), z, x)).out == Val(x)
  {
    var c := Ctx(map[], Echo(), false);
    var s := Apart(f, Native(0), z, x);
    var e := AssignsFirst(z, f);
    var s1 := Write(s, z, NilValue);
    CalleeGives(c, z, f, x);
    assert Eval(c, 1, Var(z), s) == Res(Val(x), s) && EvalOps(c, 1, HNil, s) == Vals([], s);
    assert EvalOps(c, 1, e.args, s) == Vals([x] + [], s) && [x] + [] == [x];
    Echoes(c, x, s1);
    hide Invoke;
    assert Eval(c, 1, e, s) == Invoke(c, 1, Native(0), [x], [], false, s1);
  }

  lemma Echoes(c: Ctx, x: Value, s: State)
    requires c == Ctx(map[], Echo(), false)
    ensures Invoke(c, 1, Native(0), [x], [], false, s).out == Val(x)
  {
    assert Spread(c.host, [], [x], s.world) == HostResult.Done([x], s.world);
    assert Apply(c, 0, Native(0), [x], s.(world := s.world)).out == Val(x);
  }

  lemma CalleeGives(c: Ctx, z: Binding, f: Binding, x: Value)
    requires z != f
    ensures var s := Apart(f, Native(0), z, x);
            Eval(c, 1, AssignsFirst(z, f).func, s) == Res(Val(Native(0)), Write(s, z, NilValue))
  {
    hide Invoke;
    var s := Apart(f, Native(0), z, x);
    var assign := Strict(Assign(z), HCons(Lit(Nil), HNil));
    assert EvalOps(c, 1, HNil, s) == Vals([], s) && Eval(c, 1, Lit(Nil), s) == Res(Val(NilValue), s);
    assert EvalOps(c, 1, HCons(Lit(Nil), HNil), s) == Vals([NilValue] + [], s) && [NilValue] + [] == [NilValue];
    var s1 := Write(s, z, NilValue);
    assert Eval(c, 1, assign, s) == Res(Val(NilValue), s1);
    assert s1.frame[f] == Plain(Native(0)) && Eval(c, 1, Var(f), s1) == Res(Val(Native(0)), s1);
    assert EvalSeq(c, 1, HCons(Var(f), HNil), s1) == Res(Val(Native(0)), s1);
    assert EvalSeq(c, 1, HCons(assign, HCons(Var(f), HNil)), s) == Res(Val(Native(0)), s1);
  }

  /** The analysis takes the callee to run before the arguments, and it runs after them. */
  lemma CalleeRunsLast(ix: Index, z: Binding, f: Binding)
    requires z in ix && f in ix && z != f && Injective(ix)
    ensures !Enough(ix, Ctx(map[], Echo(), false), AssignsFirst(z, f), {})
  {
    hide Eval, Agree, Before;
    var c := Ctx(map[], Echo(), false);
    var e := AssignsFirst(z, f);
    var s, t := Apart(f, Native(0), z, NilValue), Apart(f, Native(0), z, Data(Int(1)));
    CalleeBefore(ix, z, f);
    ApartAgree(ix, Before(ix, e, {}), f, Native(0), z);
    CalleeRuns(z, f, NilValue);
    CalleeRuns(z, f, Data(Int(1)));
    assert !SameEnd(ix, {}, Eval(c, 1, e, s), Eval(c, 1, e, t));
  }
}
