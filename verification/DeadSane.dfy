/**
  Every run of the original program stays sane.

  Whatever is evaluated, trusted names go on holding nil or their callees, and,
  where a plan is followed, the names a scope counts as bound stay bound: their
  slots do not change, and what they hold can be called (`EvalSane`). So a dropped
  initializer that calls such names does not fault.
*/
module DeadSane {
  import opened HirSyntax
  import opened HirEval
  import opened Dead
  import opened DeadNames
  import opened DeadEval
  import opened DeadBound
  import opened DeadStore
  import opened DeadRealm

  // ----- every construct -----------------------------------------------------------------------------------

  /** Evaluation keeps a run sane, and keeps bound what its scope counts on. */
  lemma {:induction false} EvalSane(m: Realm, o: Owner, sc: Scope, n: nat, e: Hir, s: State) returns (p: Owner)
    requires At(m, o, sc, s) && Obeys(m.k, e) && Sits(m.k, sc, e)
    ensures Extends({}, o, p) && Kept(m.k, p, sc, s, Eval(m.c, n, e, s))
    ensures Eval(m.c, n, e, s).out.Val? ==> Placed(m.k, p, AfterItem(m.k, sc, e), Eval(m.c, n, e, s).st)
    decreases n, 1, e, 3
  {
    hide At, SaneState, SaneOut, Held, Obeys, Sits, Placed, Extends;
    if e.Strict? && e.op.Define? {
      p := DefineSane(m, o, sc, n, e, s);
    } else {
      p := PlainEvalSane(m, o, sc, n, e, s);
      var r := Eval(m.c, n, e, s);
      if r.out.Val? { StillPlaced(m, o, p, sc, s, r.st); }
    }
  }

  lemma {:induction false} PlainEvalSane(m: Realm, o: Owner, sc: Scope, n: nat, e: Hir, s: State) returns (p: Owner)
    requires At(m, o, sc, s) && Obeys(m.k, e) && Sits(m.k, sc, e) && !(e.Strict? && e.op.Define?)
    ensures Extends({}, o, p) && Kept(m.k, p, sc, s, Eval(m.c, n, e, s))
    decreases n, 1, e, 2
  {
    hide At, SaneState, SaneValue, Held, NamesOk, CapturesOk, OpOk, LambdaScoped, Placed, RealmOk, Extends, Invoke,
         Perform, Captured, Gone;
    AtMeans(m, o, sc, s);
    p := o;
    match e
    case Lit(datum) => LitSane(m.k, o, datum);
    case Poison =>
    case Var(b) => ReadSane(m.k, o, s, b);
    case Lambda(id, _, cs, _) => CapturedSane(m, o, sc, s, id, cs);
    case Let(_, _, _) => p := LetSane(m, o, sc, n, e, s);
    case Loop(_, _) => p := LoopSane(m, o, sc, n, e, s);
    case If(_, _, _) => p := IfSane(m, o, sc, n, e, s);
    case Cond(cl) => p := ClausesSane(m, o, sc, n, cl, s);
    case Begin(es) => p := SeqSane(m, o, sc, n, es, s);
    case Block(_, es) => p := SeqSane(m, o, sc, n, es, s);
    case Break(_, x) => p := EvalSane(m, o, sc, n, x, s);
    case Call(_, _, _, _) => p := CallSane(m, o, sc, n, e, s);
    case While(_, _) => p := WhileSane(m, o, sc, n, e, s);
    case Match(_, _) => p := MatchSane(m, o, sc, n, e, s);
    case Logic(conj, es) => p := LogicSane(m, o, sc, n, conj, es, s);
    case Parameterize(_, _) => p := ParameterizeSane(m, o, sc, n, e, s);
    case Strict(_, _) => p := StrictSane(m, o, sc, n, e, s);
    case Return(_) => p := ReturnSane(m, o, sc, n, e, s);
  }

  lemma {:induction false} ReturnSane(m: Realm, o: Owner, sc: Scope, n: nat, e: Hir, s: State) returns (p: Owner)
    requires At(m, o, sc, s) && Obeys(m.k, e) && Sits(m.k, sc, e) && e.Return?
    ensures Extends({}, o, p) && Kept(m.k, p, sc, s, Eval(m.c, n, e, s))
    decreases n, 1, e, 0
  {
    hide At, SaneState, SaneValue, Held, Placed, Extends;
    p := EvalSane(m, o, sc, n, e.value, s);
    var r := Eval(m.c, n, e.value, s);
    if r.out.Val? { MintKept(m.k, p, sc, s, r.st); }
  }

  lemma {:induction false} IfSane(m: Realm, o: Owner, sc: Scope, n: nat, e: Hir, s: State) returns (p: Owner)
    requires At(m, o, sc, s) && Obeys(m.k, e) && Sits(m.k, sc, e) && e.If?
    ensures Extends({}, o, p) && Kept(m.k, p, sc, s, Eval(m.c, n, e, s))
    decreases n, 1, e, 0
  {
    hide At, SaneState, SaneOut, Held, Truthy, Placed;
    var o1 := EvalSane(m, o, sc, n, e.test, s);
    var r := Eval(m.c, n, e.test, s);
    p := o1;
    if r.out.Val? {
      Next(m, o, o1, sc, s, r.st);
      if Truthy(r.out.value) {
        p := EvalSane(m, o1, sc, n, e.thn, r.st);
      } else {
        p := EvalSane(m, o1, sc, n, e.els, r.st);
      }
      ExtendsThen({}, o, o1, p);
      KeptAfter(m.k, p, sc, s, r.st, Eval(m.c, n, e, s));
    }
  }

  lemma {:induction false} ClausesSane(m: Realm, o: Owner, sc: Scope, n: nat, cl: Clauses, s: State) returns (p: Owner)
    requires At(m, o, sc, s) && ObeysClauses(m.k, cl) && (m.k.plan.Some? ==> ScopedClauses(m.k, sc, cl))
    ensures Extends({}, o, p) && Kept(m.k, p, sc, s, EvalClauses(m.c, n, cl, s))
    decreases n, 1, cl, 1
  {
    hide At, SaneState, SaneValue, Held, Truthy, Placed;
    AtMeans(m, o, sc, s);
    p := o;
    match cl
    case NoElse => LitSane(m.k, o, Nil);
    case Else(e) => p := EvalSane(m, o, sc, n, e, s);
    case Clause(test, body, rest) =>
      var o1 := EvalSane(m, o, sc, n, test, s);
      var r := Eval(m.c, n, test, s);
      p := o1;
      if r.out.Val? {
        Next(m, o, o1, sc, s, r.st);
        if Truthy(r.out.value) {
          p := EvalSane(m, o1, sc, n, body, r.st);
        } else {
          p := ClausesSane(m, o1, sc, n, rest, r.st);
        }
        ExtendsThen({}, o, o1, p);
        KeptAfter(m.k, p, sc, s, r.st, EvalClauses(m.c, n, cl, s));
      }
  }

  lemma {:induction false} SeqSane(m: Realm, o: Owner, sc: Scope, n: nat, es: Hirs, s: State) returns (p: Owner)
    requires At(m, o, sc, s) && ObeysAll(m.k, es) && (m.k.plan.Some? ==> ScopedSeq(m.k, sc, es))
    ensures Extends({}, o, p) && Kept(m.k, p, sc, s, EvalSeq(m.c, n, es, s))
    decreases n, 1, es, 1
  {
    hide At, SaneState, SaneValue, Held, Placed, AfterItem;
    AtMeans(m, o, sc, s);
    LitSane(m.k, o, Nil);
    p := o;
    if es.HCons? {
      var o1 := EvalSane(m, o, sc, n, es.head, s);
      var r := Eval(m.c, n, es.head, s);
      p := o1;
      if r.out.Val? && es.tail.HCons? {
        var sc1 := AfterItem(m.k, sc, es.head);
        AtPlaced(m, o1, sc1, r.st);
        p := SeqSane(m, o1, sc1, n, es.tail, r.st);
        ExtendsThen({}, o, o1, p);
        Narrowed(m.k, p, sc, sc1, r.st, EvalSeq(m.c, n, es.tail, r.st), es.head);
        KeptAfter(m.k, p, sc, s, r.st, EvalSeq(m.c, n, es, s));
      }
    }
  }

  lemma {:induction false} LogicSane(m: Realm, o: Owner, sc: Scope, n: nat, conj: bool, es: Hirs, s: State)
    returns (p: Owner)
    requires At(m, o, sc, s) && ObeysAll(m.k, es) && (m.k.plan.Some? ==> ScopedAll(m.k, sc, es))
    ensures Extends({}, o, p) && Kept(m.k, p, sc, s, EvalLogic(m.c, n, conj, es, s))
    decreases n, 1, es, 1
  {
    hide At, SaneState, SaneValue, Held, Truthy, Placed;
    AtMeans(m, o, sc, s);
    LitSane(m.k, o, Bool(conj));
    p := o;
    if es.HCons? {
      var o1 := EvalSane(m, o, sc, n, es.head, s);
      var r := Eval(m.c, n, es.head, s);
      p := o1;
      if r.out.Val? && es.tail.HCons? && Truthy(r.out.value) == conj {
        Next(m, o, o1, sc, s, r.st);
        p := LogicSane(m, o1, sc, n, conj, es.tail, r.st);
        ExtendsThen({}, o, o1, p);
        KeptAfter(m.k, p, sc, s, r.st, EvalLogic(m.c, n, conj, es, s));
      }
    }
  }

  lemma {:induction false} OpsSane(m: Realm, o: Owner, sc: Scope, n: nat, es: Hirs, s: State) returns (p: Owner)
    requires At(m, o, sc, s) && ObeysAll(m.k, es) && (m.k.plan.Some? ==> ScopedAll(m.k, sc, es))
    ensures Extends({}, o, p) && OpsKept(m.k, p, sc, s, EvalOps(m.c, n, es, s))
    decreases n, 1, es, 1
  {
    hide At, SaneState, SaneValue, Held, Placed;
    AtMeans(m, o, sc, s);
    p := o;
    if es.HCons? {
      var o1 := EvalSane(m, o, sc, n, es.head, s);
      var r := Eval(m.c, n, es.head, s);
      p := o1;
      if r.out.Val? {
        Next(m, o, o1, sc, s, r.st);
        p := OpsSane(m, o1, sc, n, es.tail, r.st);
        ExtendsThen({}, o, o1, p);
        ValueGrows(m.k, o1, p, r.out.value);
        OpsKeptAfter(m.k, p, sc, s, r.st, r.out.value, EvalOps(m.c, n, es.tail, r.st));
      }
    }
  }

  lemma {:induction false} MatchSane(m: Realm, o: Owner, sc: Scope, n: nat, e: Hir, s: State) returns (p: Owner)
    requires At(m, o, sc, s) && Obeys(m.k, e) && Sits(m.k, sc, e) && e.Match?
    ensures Extends({}, o, p) && Kept(m.k, p, sc, s, Eval(m.c, n, e, s))
    decreases n, 1, e, 0
  {
    hide At, SaneState, SaneValue, Held, Placed;
    var o1 := EvalSane(m, o, sc, n, e.value, s);
    var r := Eval(m.c, n, e.value, s);
    p := o1;
    if r.out.Val? {
      Next(m, o, o1, sc, s, r.st);
      p := ArmsSane(m, o1, sc, n, r.out.value, e.arms, r.st);
      ExtendsThen({}, o, o1, p);
      KeptAfter(m.k, p, sc, s, r.st, Eval(m.c, n, e, s));
    }
  }

  lemma {:induction false} ArmsSane(m: Realm, o: Owner, sc: Scope, n: nat, v: Value, arms: Arms, s: State)
    returns (p: Owner)
    requires At(m, o, sc, s) && ObeysArms(m.k, arms) && SaneValue(m.k, o, v)
    requires m.k.plan.Some? ==> ScopedArms(m.k, sc, arms)
    ensures Extends({}, o, p) && Kept(m.k, p, sc, s, EvalArms(m.c, n, v, arms, s))
    decreases n, 1, arms, 1
  {
    hide At, SaneState, SaneValue, Held, Placed, NamesOk, Truthy, BindAll, Eval;
    AtMeans(m, o, sc, s);
    p := o;
    if arms.ACons? {
      var shape := MatchOp(arms.pattern.shape);
      HostAt(m, o, sc, s, shape, [v]);
      var r := m.c.host(shape, [v], s.world);
      var s1 := s.(world := r.world);
      if r.Raised? {
        p := ArmsSane(m, o, sc, n, v, arms.rest, s1);
        KeptAfter(m.k, p, sc, s, s1, EvalArms(m.c, n, v, arms, s));
      } else {
        var o1 := BindAllSane(m.k, o, s1, arms.pattern.vars, r.values) by { AtMeans(m, o, sc, s1); }
        var s2 := BindAll(s1, arms.pattern.vars, r.values);
        NamesHeld(m, o, sc, s1, s1, arms.pattern.vars, r.values);
        Next(m, o, o1, sc, s1, s2);
        ValueGrows(m.k, o, o1, v);
        p := MatchedSane(m, o1, sc, n, v, arms, s2);
        ExtendsThen({}, o, o1, p);
        HeldThen(m.k, sc, s, s1, s2);
        KeptAfter(m.k, p, sc, s, s2, EvalArms(m.c, n, v, arms, s));
      }
    }
  }

  lemma {:induction false} MatchedSane(m: Realm, o: Owner, sc: Scope, n: nat, v: Value, arms: Arms, s: State)
    returns (p: Owner)
    requires At(m, o, sc, s) && ObeysArms(m.k, arms) && arms.ACons? && SaneValue(m.k, o, v)
    requires m.k.plan.Some? ==> ScopedArms(m.k, sc, arms)
    ensures Extends({}, o, p) && Kept(m.k, p, sc, s, Guarded(m.c, n, v, arms, s))
    decreases n, 1, arms, 0
  {
    hide At, SaneState, SaneValue, Held, Placed, NamesOk, Truthy;
    if arms.guard.None? {
      p := EvalSane(m, o, sc, n, arms.body, s);
    } else {
      var g := arms.guard.value;
      var o1 := EvalSane(m, o, sc, n, g, s);
      var r := Eval(m.c, n, g, s);
      p := o1;
      if r.out.Val? {
        Next(m, o, o1, sc, s, r.st);
        if Truthy(r.out.value) {
          p := EvalSane(m, o1, sc, n, arms.body, r.st);
        } else {
          ValueGrows(m.k, o, o1, v);
          p := ArmsSane(m, o1, sc, n, v, arms.rest, r.st);
        }
        ExtendsThen({}, o, o1, p);
        KeptAfter(m.k, p, sc, s, r.st, Guarded(m.c, n, v, arms, s));
      }
    }
  }

  lemma {:induction false} WhileSane(m: Realm, o: Owner, sc: Scope, n: nat, e: Hir, s: State) returns (p: Owner)
    requires At(m, o, sc, s) && e.While? && Obeys(m.k, e.test) && Obeys(m.k, e.body) && Sits(m.k, sc, e.test)
    requires Sits(m.k, sc, e.body)
    ensures Extends({}, o, p) && Kept(m.k, p, sc, s, RunWhile(m.c, n, e.test, e.body, s))
    decreases n, 1, e, 1
  {
    hide At, SaneState, SaneValue, Held, Placed, Truthy, Eval, Obeys, Sits, Extends, RunWhile, Kept;
    p := EvalSane(m, o, sc, n, e.test, s);
    var r := Eval(m.c, n, e.test, s);
    WhileIs(m.c, n, e.test, e.body, s);
    if r.out.Val? {
      KeptValue(m.k, p, sc, s, r);
      if Truthy(r.out.value) {
        var o1 := p;
        Next(m, o, o1, sc, s, r.st) by { ExtendsGrow({}, o, o1); }
        p := TurnSane(m, o1, sc, n, e, r.st);
        ExtendsThen({}, o, o1, p);
        KeptAfter(m.k, p, sc, s, r.st, RunWhile(m.c, n, e.test, e.body, s));
      }
    }
  }

  /** The body of a `while`, and the loop again. */
  lemma {:induction false} TurnSane(m: Realm, o: Owner, sc: Scope, n: nat, e: Hir, s: State) returns (p: Owner)
    requires At(m, o, sc, s) && e.While? && Obeys(m.k, e.test) && Obeys(m.k, e.body) && Sits(m.k, sc, e.test)
    requires Sits(m.k, sc, e.body)
    ensures Extends({}, o, p)
    ensures var q := Eval(m.c, n, e.body, s);
            Kept(m.k, p, sc, s, if !q.out.Val? then q else if n == 0 then Res(Timeout, q.st)
                else RunWhile(m.c, n - 1, e.test, e.body, q.st))
    decreases n, 1, e, 0
  {
    hide At, SaneState, SaneValue, Held, Placed, Eval, Obeys, Sits, Extends, RunWhile;
    p := EvalSane(m, o, sc, n, e.body, s);
    var q := Eval(m.c, n, e.body, s);
    if q.out.Val? && n > 0 {
      var o1 := p;
      Next(m, o, o1, sc, s, q.st) by { ExtendsGrow({}, o, o1); }
      p := WhileSane(m, o1, sc, n - 1, e, q.st);
      ExtendsThen({}, o, o1, p);
      KeptAfter(m.k, p, sc, s, q.st, RunWhile(m.c, n - 1, e.test, e.body, q.st));
    }
  }

  lemma {:induction false} LoopSane(m: Realm, o: Owner, sc: Scope, n: nat, e: Hir, s: State) returns (p: Owner)
    requires At(m, o, sc, s) && Obeys(m.k, e) && Sits(m.k, sc, e) && e.Loop?
    ensures Extends({}, o, p) && Kept(m.k, p, sc, s, Eval(m.c, n, e, s))
    decreases n, 1, e, 0
  {
    hide At, SaneState, SaneValue, Held, Placed, NamesOk;
    var o1 := InitsSane(m, o, sc, n, e.binds, s);
    LoopNamesOk(m.k, e.binds);
    var r := EvalBinds(m.c, n, false, e.binds, s);
    p := o1;
    if r.Bound? {
      Next(m, o, o1, sc, s, r.st);
      p := TurnsSane(m, o1, sc, n, BinderNames(e.binds), e.body, r.st);
      ExtendsThen({}, o, o1, p);
      KeptAfter(m.k, p, sc, s, r.st, Eval(m.c, n, e, s));
    }
  }

  lemma {:induction false} InitsSane(m: Realm, o: Owner, sc: Scope, n: nat, bs: Binds, s: State) returns (p: Owner)
    requires At(m, o, sc, s) && ObeysLoop(m.k, bs) && (m.k.plan.Some? ==> ScopedLoop(m.k, sc, bs))
    ensures Extends({}, o, p) && BindsKept(m.k, p, sc, s, EvalBinds(m.c, n, false, bs, s))
    decreases n, 1, bs, 1
  {
    hide At, SaneState, SaneValue, Held, Placed, Bind, Gone;
    AtMeans(m, o, sc, s);
    p := o;
    if bs.BCons? {
      var o1 := EvalSane(m, o, sc, n, bs.init, s);
      var r := Eval(m.c, n, bs.init, s);
      p := o1;
      if r.out.Val? {
        Next(m, o, o1, sc, s, r.st);
        var o2 := BindSane(m.k, o1, r.st, bs.binding, r.out.value);
        var t := Bind(r.st, bs.binding, r.out.value);
        NameHeld(m, o1, sc, r.st, bs.binding, r.out.value);
        HeldThen(m.k, sc, s, r.st, t);
        ExtendsThen({}, o, o1, o2);
        Next(m, o, o2, sc, s, t);
        p := InitsSane(m, o2, sc, n, bs.rest, t);
        ExtendsThen({}, o, o2, p);
        BindsKeptAfter(m.k, p, sc, s, t, EvalBinds(m.c, n, false, bs.rest, t));
      }
    }
  }

  lemma {:induction false} TurnsSane(m: Realm, o: Owner, sc: Scope, n: nat, names: seq<Binding>, body: Hir, s: State)
    returns (p: Owner)
    requires At(m, o, sc, s) && Obeys(m.k, body) && NamesOk(m.k, names) && Sits(m.k, sc, body)
    ensures Extends({}, o, p) && Kept(m.k, p, sc, s, RunLoop(m.c, n, names, body, s))
    decreases n, 1, body, 4
  {
    hide At, SaneState, SaneValue, Held, Placed, NamesOk, Eval, Obeys, Sits, WriteAll;
    var o1 := EvalSane(m, o, sc, n, body, s);
    var r := Eval(m.c, n, body, s);
    p := o1;
    if r.out.Again? && |r.out.values| == |names| && n > 0 {
      Next(m, o, o1, sc, s, r.st);
      var t := WriteAll(r.st, names, r.out.values);
      WriteAllSane(m.k, o1, r.st, names, r.out.values) by { RealmMeans(m, o1, sc, r.st); }
      NamesHeld(m, o1, sc, r.st, r.st, names, r.out.values);
      HeldThen(m.k, sc, s, r.st, t);
      Next(m, o, o1, sc, s, t);
      p := TurnsSane(m, o1, sc, n - 1, names, body, t);
      ExtendsThen({}, o, o1, p);
      KeptAfter(m.k, p, sc, s, t, RunLoop(m.c, n, names, body, s));
    }
  }

  // ----- operations and calls ------------------------------------------------------------------------------

  lemma {:induction false} ParameterizeSane(m: Realm, o: Owner, sc: Scope, n: nat, e: Hir, s: State) returns (p: Owner)
    requires At(m, o, sc, s) && Obeys(m.k, e) && Sits(m.k, sc, e) && e.Parameterize?
    ensures Extends({}, o, p) && Kept(m.k, p, sc, s, Eval(m.c, n, e, s))
    decreases n, 1, e, 0
  {
    hide At, SaneState, SaneValue, Held, Placed, Overlay;
    var o1 := OpsSane(m, o, sc, n, e.pairs, s);
    var a := EvalOps(m.c, n, e.pairs, s);
    p := o1;
    if a.Vals? {
      Next(m, o, o1, sc, s, a.st);
      var t := a.st.(dyn := Overlay(a.st.dyn, a.values));
      OverlaidSane(m, o1, sc, a.st, a.values);
      p := EvalSane(m, o1, sc, n, e.body, t);
      ExtendsThen({}, o, o1, p);
      var r := Eval(m.c, n, e.body, t);
      if !Over(m.k, r.out) {
        RestoredSane(m.k, o1, p, sc, a.st, t, r.st);
        HeldThen(m.k, sc, s, a.st, r.st.(dyn := a.st.dyn));
      }
    }
  }

  lemma {:induction false} StrictSane(m: Realm, o: Owner, sc: Scope, n: nat, e: Hir, s: State) returns (p: Owner)
    requires At(m, o, sc, s) && Obeys(m.k, e) && Sits(m.k, sc, e) && e.Strict? && !e.op.Define?
    ensures Extends({}, o, p) && Kept(m.k, p, sc, s, Eval(m.c, n, e, s))
    decreases n, 1, e, 0
  {
    hide At, SaneState, SaneValue, Held, Placed, OpOk, Perform;
    var o1 := OpsSane(m, o, sc, n, e.args, s);
    var a := EvalOps(m.c, n, e.args, s);
    p := o1;
    if a.Vals? {
      Next(m, o, o1, sc, s, a.st);
      p := PerformSane(m, o1, sc, e.op, e.args, a.values, a.st);
      ExtendsThen({}, o, o1, p);
      KeptAfter(m.k, p, sc, s, a.st, Perform(m.c.host, e.op, a.values, a.st));
    }
  }

  lemma {:induction false} CallSane(m: Realm, o: Owner, sc: Scope, n: nat, e: Hir, s: State) returns (p: Owner)
    requires At(m, o, sc, s) && Obeys(m.k, e) && Sits(m.k, sc, e) && e.Call?
    ensures Extends({}, o, p) && Kept(m.k, p, sc, s, Eval(m.c, n, e, s))
    decreases n, 1, e, 0
  {
    hide At, SaneState, SaneValue, Held, Placed, Invoke;
    var o1 := OpsSane(m, o, sc, n, e.args, s);
    var a := EvalOps(m.c, n, e.args, s);
    p := o1;
    if a.Vals? {
      Next(m, o, o1, sc, s, a.st);
      var o2 := EvalSane(m, o1, sc, n, e.func, a.st);
      ExtendsThen({}, o, o1, o2);
      var r := Eval(m.c, n, e.func, a.st);
      p := o2;
      KeptAfter(m.k, o2, sc, s, a.st, r);
      if r.out.Val? {
        Next(m, o, o2, sc, s, r.st);
        ValuesGrow(m.k, o1, o2, a.values);
        p := InvokeSane(m, o2, sc, n, r.out.value, a.values, e.spliced, e.isTail, r.st);
        ExtendsThen({}, o, o2, p);
        KeptAfter(m.k, p, sc, s, r.st, Eval(m.c, n, e, s));
      }
    }
  }

  lemma {:induction false} InvokeSane(m: Realm, o: Owner, sc: Scope, n: nat, f: Value, vs: seq<Value>,
          spliced: seq<bool>, isTail: bool, s: State)
    returns (p: Owner)
    requires At(m, o, sc, s) && SaneValue(m.k, o, f) && SaneValues(m.k, o, vs)
    ensures Extends({}, o, p) && Kept(m.k, p, sc, s, Invoke(m.c, n, f, vs, spliced, isTail, s))
    decreases n, 0, 2
  {
    hide At, SaneState, SaneValue, Held, Placed, Apply;
    AtMeans(m, o, sc, s);
    HostAt(m, o, sc, s, SpliceOp(spliced), vs);
    p := o;
    var r := Spread(m.c.host, spliced, vs, s.world);
    assert true !in spliced ==> s.(world := r.world) == s;
    if r.Done? && n > 0 {
      p := ApplySane(m, o, sc, n, f, r.values, s.(world := r.world));
      KeptAfter(m.k, p, sc, s, s.(world := r.world), Apply(m.c, n - 1, f, r.values, s.(world := r.world)));
    }
  }

  lemma {:induction false} ApplySane(m: Realm, o: Owner, sc: Scope, n: nat, f: Value, args: seq<Value>, s: State)
    returns (p: Owner)
    requires At(m, o, sc, s) && SaneValue(m.k, o, f) && SaneValues(m.k, o, args) && n > 0
    ensures Extends({}, o, p) && Kept(m.k, p, sc, s, Apply(m.c, n - 1, f, args, s))
    decreases n, 0, 1
  {
    hide At, SaneState, SaneValue, Held, Placed, Eval;
    AtMeans(m, o, sc, s);
    p := o;
    match f
    case Closure(_, _) => p := ClosureSane(m, o, sc, n, f, args, s);
    case Native(code) => HostAt(m, o, sc, s, NativeOp(code), args);
    case Param(id, default) => ParamSane(m.k, o, s, id, default);
    case _ =>
  }

  lemma {:induction false} ClosureSane(m: Realm, o: Owner, sc: Scope, n: nat, f: Value, args: seq<Value>, s: State)
    returns (p: Owner)
    requires At(m, o, sc, s) && SaneValue(m.k, o, f) && SaneValues(m.k, o, args) && n > 0 && f.Closure?
    ensures Extends({}, o, p) && Kept(m.k, p, sc, s, Apply(m.c, n - 1, f, args, s))
    decreases n, 0, 0
  {
    hide At, SaneState, SaneValue, Held, Placed, Eval, BindAll, EntryFrame;
    AtMeans(m, o, sc, s);
    p := o;
    if f.id in m.c.code {
      var fn := m.c.code[f.id];
      HostAt(m, o, sc, s, ArrangeOp(f.id), args);
      var r := m.c.host(ArrangeOp(f.id), args, s.world);
      if r.Done? {
        var entry := State(EntryFrame(f, fn), s.dyn, r.world, 0);
        EntryAt(m, o, sc, f, s.(world := r.world));
        p := BodySane(m, o, n - 1, f.id, entry, r.values);
        ReturnedSane(m.k, o, p, sc, s, s.(world := r.world), BindAll(entry, fn.params, r.values),
            Eval(m.c, n - 1, fn.body, BindAll(entry, fn.params, r.values)), f.id);
      }
    }
  }

  lemma {:induction false} BodySane(m: Realm, o: Owner, n: nat, id: nat, entry: State, vs: seq<Value>)
    returns (p: Owner)
    requires id in m.c.code && At(m, o, EntryScope(m.k, id), entry) && SaneValues(m.k, o, vs)
    ensures Extends({}, o, p)
    ensures var fn := m.c.code[id]; var start := BindAll(entry, fn.params, vs);
            Kept(m.k, p, EntryScope(m.k, id), start, Eval(m.c, n, fn.body, start))
    decreases n, 1, m.c.code[id].body, 4
  {
    hide At, SaneState, SaneValue, Held, Placed, Eval, BindAll, NamesOk, Obeys, EntryScope;
    var fn := m.c.code[id];
    var sc := EntryScope(m.k, id);
    assert NamesOk(m.k, fn.params) && Obeys(m.k, fn.body) && Sits(m.k, sc, fn.body) by { CodeAt(m, o, sc, entry, id); }
    AtMeans(m, o, sc, entry);
    var o1 := BindAllSane(m.k, o, entry, fn.params, vs);
    NamesHeld(m, o, sc, entry, entry, fn.params, vs);
    var start := BindAll(entry, fn.params, vs);
    Next(m, o, o1, sc, entry, start);
    p := EvalSane(m, o1, sc, n, fn.body, start);
    ExtendsThen({}, o, o1, p);
  }

  // ----- let, letrec and def -------------------------------------------------------------------------------

  lemma {:induction false} BindsSane(m: Realm, o: Owner, sc: Scope, n: nat, rec: bool, at: map<Binding, nat>,
          done: set<Binding>, bs: Binds, s: State)
    returns (p: Owner)
    requires Amid(m, o, sc, at, done, bs, s) && ObeysLet(m.k, bs) && (!rec ==> at == map[])
    requires m.k.plan.Some? && rec ==> Boxes(m.k, bs) <= at.Keys
    ensures Extends(at.Values, o, p) && BindsEnd(m, p, sc, at, done, bs, s, EvalBinds(m.c, n, rec, bs, s))
    decreases n, 1, bs, 1
  {
    hide Amid, SaneState, SaneValue, Held, Placed, At, Bind, Write, Eliminable, DropOk, SiteOk, Gone, Scoped, Prepared,
         SiteScoped, ScopedBinds;
    AmidMeans(m, o, sc, at, done, bs, s);
    p := o;
    ExtendsSelf(at.Values, o);
    if bs.BCons? {
      if Eliminable(m.k.pass, bs.binding, bs.init) {
        p := DroppedSane(m, o, sc, n, rec, at, done, bs, s);
      } else {
        p := SiteSane(m, o, sc, n, rec, at, done, bs, s);
      }
    } else {
      assert done + Heads(m.k, bs) == done;
    }
  }

  /** The dropped initializer, where its callees are bound, gives a value. */
  lemma {:induction false} DroppedSane(m: Realm, o: Owner, sc: Scope, n: nat, rec: bool, at: map<Binding, nat>,
          done: set<Binding>, bs: Binds, s: State)
    returns (p: Owner)
    requires Amid(m, o, sc, at, done, bs, s) && ObeysLet(m.k, bs) && (!rec ==> at == map[])
    requires m.k.plan.Some? && rec ==> Boxes(m.k, bs) <= at.Keys
    requires bs.BCons? && Eliminable(m.k.pass, bs.binding, bs.init)
    ensures Extends(at.Values, o, p) && BindsEnd(m, p, sc, at, done, bs, s, EvalBinds(m.c, n, rec, bs, s))
    decreases n, 1, bs, 0
  {
    hide Amid, SaneState, SaneValue, Held, Placed, At, Bind, Write, Gone, Scoped, Harmless, EffectFree, Eliminable;
    p := o;
    ExtendsSelf(at.Values, o);
    var r := Eval(m.c, n, bs.init, s);
    DroppedStep(m, o, sc, n, rec, at, done, bs, s);
    if r.out.Val? {
      var t := Put(rec, r.st, bs.binding, r.out.value);
      p := BindsSane(m, o, sc, n, rec, at, done, bs.rest, t);
      EndAfter(m, p, sc, at, done, bs, s, t, EvalBinds(m.c, n, rec, bs.rest, t));
    }
  }

  /** A kept binding: its initializer, and then its name. */
  lemma {:induction false} SiteSane(m: Realm, o: Owner, sc: Scope, n: nat, rec: bool, at: map<Binding, nat>,
          done: set<Binding>, bs: Binds, s: State)
    returns (p: Owner)
    requires Amid(m, o, sc, at, done, bs, s) && ObeysLet(m.k, bs) && (!rec ==> at == map[])
    requires m.k.plan.Some? && rec ==> Boxes(m.k, bs) <= at.Keys
    requires bs.BCons? && !Eliminable(m.k.pass, bs.binding, bs.init)
    ensures Extends(at.Values, o, p) && BindsEnd(m, p, sc, at, done, bs, s, EvalBinds(m.c, n, rec, bs, s))
    decreases n, 1, bs, 0
  {
    hide Amid, SaneState, SaneValue, Held, Placed, At, Bind, Write, Gone, Scoped, Eliminable, SiteScoped, SiteOk,
         NextScope, Prepared;
    AmidMeans(m, o, sc, at, done, bs, s);
    var b, init := bs.binding, bs.init;
    var o1 := EvalSane(m, o, sc, n, init, s);
    ExtendsOwn(at.Values, o, o1);
    var r := Eval(m.c, n, init, s);
    p := o1;
    if r.out.Val? {
      var t := Put(rec, r.st, b, r.out.value);
      var o2 := SiteStep(m, o, o1, sc, n, rec, at, done, bs, s);
      p := BindsSane(m, o2, NextScope(m.k, sc, b, init), n, rec, at, Also(m.k, done, b), bs.rest, t);
      ExtendsThen(at.Values, o, o2, p);
      SiteEnd(m, p, sc, at, done, bs, s, r.st, t, EvalBinds(m.c, n, rec, bs.rest, t));
    }
  }

  // ----- let and letrec as a whole -------------------------------------------------------------------------

  lemma {:induction false} LetSane(m: Realm, o: Owner, sc: Scope, n: nat, e: Hir, s: State) returns (p: Owner)
    requires At(m, o, sc, s) && Obeys(m.k, e) && Sits(m.k, sc, e) && e.Let?
    ensures Extends({}, o, p) && Kept(m.k, p, sc, s, Eval(m.c, n, e, s))
    decreases n, 1, e, 1
  {
    hide At, SaneState, SaneOut, Held, Placed;
    if e.rec { p := LetrecSane(m, o, sc, n, e, s); } else { p := LetPlainSane(m, o, sc, n, e, s); }
  }

  lemma {:induction false} LetPlainSane(m: Realm, o: Owner, sc: Scope, n: nat, e: Hir, s: State) returns (p: Owner)
    requires At(m, o, sc, s) && Obeys(m.k, e) && Sits(m.k, sc, e) && e.Let? && !e.rec
    ensures Extends({}, o, p) && Kept(m.k, p, sc, s, Eval(m.c, n, e, s))
    decreases n, 1, e, 0
  {
    hide At, SaneState, SaneOut, Held, Placed, Amid, ScopedBinds, Heads, Through;
    var bs, at := e.binds, map[];
    assert at.Keys == {} && at.Values == {};
    AmidStart(m, o, sc, bs, s);
    var o1 := BindsSane(m, o, sc, n, false, at, {}, bs, s);
    var r := EvalBinds(m.c, n, false, bs, s);
    p := o1;
    if r.Bound? {
      var sc1 := Through(m.k, sc, bs);
      AmidMeans(m, o1, sc1, at, {} + Heads(m.k, bs), BNil, r.st);
      p := EvalSane(m, o1, sc1, n, e.body, r.st);
      ExtendsThen({}, o, o1, p);
      ThroughOpens(m.k, sc, bs);
      NarrowerKept(m.k, p, sc, sc1, r.st, Eval(m.c, n, e.body, r.st));
      KeptAfter(m.k, p, sc, s, r.st, Eval(m.c, n, e, s));
    }
  }

  lemma {:induction false} LetrecSane(m: Realm, o: Owner, sc: Scope, n: nat, e: Hir, s: State) returns (p: Owner)
    requires At(m, o, sc, s) && Obeys(m.k, e) && Sits(m.k, sc, e) && e.Let? && e.rec
    ensures Extends({}, o, p) && Kept(m.k, p, sc, s, Eval(m.c, n, e, s))
    decreases n, 1, e, 0
  {
    hide At, SaneState, SaneOut, Held, Placed, Amid, ScopedBinds, Heads, Through, Extends;
    var bs := e.binds;
    var s0 := Prebind(s, bs);
    var o0, at := LetrecStart(m, o, sc, bs, s);
    var o1 := BindsSane(m, o0, Opened(m.k, sc, bs), n, true, at, {}, bs, s0);
    var r := EvalBinds(m.c, n, true, bs, s0);
    OwnExtends(at.Values, o, o0, o1);
    p := o1;
    if r.Bound? {
      var sc1 := BodyScope(m.k, true, sc, bs);
      var o2 := Sealed(m, o1, sc, bs, at, r.st);
      ExtendsThen({}, o, o1, o2);
      p := EvalSane(m, o2, sc1, n, e.body, r.st);
      ExtendsThen({}, o, o2, p);
      ThroughOpens(m.k, Opened(m.k, sc, bs), bs);
      NarrowerKept(m.k, p, sc, sc1, r.st, Eval(m.c, n, e.body, r.st));
      Narrower(m.k, sc, Opened(m.k, sc, bs), s0, r.st);
      HeldThen(m.k, sc, s, s0, r.st);
      KeptAfter(m.k, p, sc, s, r.st, Eval(m.c, n, e, s));
    } else {
      NarrowerKept(m.k, p, sc, Opened(m.k, sc, bs), s0, r.res);
      KeptAfter(m.k, p, sc, s, s0, r.res);
    }
  }

  // ----- def -----------------------------------------------------------------------------------------------

  lemma {:induction false} DefineSane(m: Realm, o: Owner, sc: Scope, n: nat, e: Hir, s: State) returns (p: Owner)
    requires At(m, o, sc, s) && Obeys(m.k, e) && Sits(m.k, sc, e) && e.Strict? && e.op.Define?
    ensures Extends({}, o, p) && Kept(m.k, p, sc, s, Eval(m.c, n, e, s))
    ensures Eval(m.c, n, e, s).out.Val? ==> Placed(m.k, p, AfterItem(m.k, sc, e), Eval(m.c, n, e, s).st)
    decreases n, 1, e, 1
  {
    hide At, SaneState, SaneValue, Held, Placed, OpOk, Perform, DefineScoped;
    var b := e.op.target;
    if Followed(m.k, b) {
      p := FunctionDefined(m, o, sc, n, e, s);
    } else {
      var o1 := OpsSane(m, o, sc, n, e.args, s);
      var a := EvalOps(m.c, n, e.args, s);
      p := o1;
      if a.Vals? {
        DefinedAllowed(m.k, m.c, n, e.op, e.args, s);
        Next(m, o, o1, sc, s, a.st);
        p := NameDefined(m, o1, sc, b, a.values, e.args, a.st);
        ExtendsThen({}, o, o1, p);
        KeptAfter(m.k, p, sc, s, a.st, Perform(m.c.host, e.op, a.values, a.st));
        StillPlaced(m, o, p, sc, s, Perform(m.c.host, e.op, a.values, a.st).st) by {
          HeldPerform(m.k, p, sc, s, m.c.host, b, a.values, a.st);
        }
      }
    }
  }
}
