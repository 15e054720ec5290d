/**
  The simulation: each construct, run on both sides from matching states, ends in
  matching states with matching outcomes, or the runs are no longer compared.
*/
module DeadRun {
  import opened HirSyntax
  import opened HirEval
  import opened Dead
  import opened DeadNames
  import opened DeadEval
  import opened DeadBound
  import opened DeadStore
  import opened DeadRealm
  import opened DeadSane
  import opened DeadSim

  ghost function Left(u: Duo, n: nat, e: Hir, s: State): Res {
    Eval(u.m.c, n + u.extra, e, s)
  }

  ghost function Right(u: Duo, n: nat, e: Hir, t: State): Res {
    Eval(u.d, n, Strip(u.m.k.pass, e), t)
  }

  /** The two sides of `e` go on together. */
  ghost predicate Together(u: Duo, m: Moves, n: nat, e: Hir, s: State, t: State) {
    Follows(u, m, Left(u, n, e, s), Right(u, n, e, t))
  }

  predicate Lives(u: Duo, r: Res, q: Res) {
    !Lost(u, r.out, q.out) && r.out.Val?
  }

  /** Where both sides are. */
  ghost predicate Both(u: Duo, o: Owner, sc: Scope, m: Moves, s: State, t: State) {
    Paired(u) && At(u.m, o, sc, s) && Rel(u.m.k, m, s, t)
  }

  lemma BothMeans(u: Duo, o: Owner, sc: Scope, m: Moves, s: State, t: State)
    requires Both(u, o, sc, m, s, t)
    ensures Paired(u) && At(u.m, o, sc, s) && Rel(u.m.k, m, s, t) && u.d.host == u.m.c.host && !u.m.c.tco && !u.d.tco
    ensures Wider(m, m)
  {
    hide Rel;
  }

  // ----- steps ---------------------------------------------------------------------------------------------

  /** After a value on both sides, both are where they can go on. */
  lemma Onward(u: Duo, o: Owner, sc: Scope, m: Moves, m1: Moves, n: nat, e: Hir, s: State, t: State) returns (o1: Owner)
    requires Both(u, o, sc, m, s, t) && Obeys(u.m.k, e) && Sits(u.m.k, sc, e) && Wider(m, m1)
    requires Together(u, m1, n, e, s, t)
    requires Lives(u, Left(u, n, e, s), Right(u, n, e, t))
    ensures var r, q := Left(u, n, e, s), Right(u, n, e, t);
            && Grows(o, o1) && q.out.Val? && Moved(m1, r.out.value, q.out.value) && SaneValue(u.m.k, o1, r.out.value)
            && Both(u, o1, sc, m1, r.st, q.st) && Both(u, o1, AfterItem(u.m.k, sc, e), m1, r.st, q.st)
  {
    hide Paired, At, Rel, Obeys, Sits, Eval, Strip, SaneState, SaneValue, Held, Placed, Moved, AfterItem;
    var r := Left(u, n, e, s);
    o1 := EvalSane(u.m, o, sc, n + u.extra, e, s);
    Next(u.m, o, o1, sc, s, r.st);
    AtMeans(u.m, o, sc, s);
    AtPlaced(u.m, o1, AfterItem(u.m.k, sc, e), r.st);
  }

  /** A host call on both sides. */
  lemma HostBoth(u: Duo, o: Owner, sc: Scope, m: Moves, op: HostOp, vs: seq<Value>, ws: seq<Value>, s: State, t: State)
    returns (m1: Moves)
    requires Both(u, o, sc, m, s, t) && SaneValues(u.m.k, o, vs) && MovedAll(m, vs, ws)
    ensures var r, q := u.m.c.host(op, vs, s.world), u.d.host(op, ws, t.world);
            && Wider(m, m1) && MovedResult(m1, r, q) && (r.Done? ==> SaneValues(u.m.k, o, r.values))
            && Both(u, o, sc, m1, s.(world := r.world), t.(world := q.world))
            && (r.Done? ==> Moved(m1, First(r.values), First(q.values)))
  {
    hide RealmOk, At, SaneValue, Moved, MovedDyn, MovedFrame, MovedWorld, Wider;
    assert Uniform(u.m.c.host, m, op, vs, ws, s.world, t.world);
    m1 :| Wider(m, m1) && MovedResult(m1, u.m.c.host(op, vs, s.world), u.d.host(op, ws, t.world));
    HostAt(u.m, o, sc, s, op, vs);
    RelAfter(u.m.k, m, m1, s, t, u.m.c.host(op, vs, s.world).world, u.d.host(op, ws, t.world).world);
    NilMoved(m1);
  }

  lemma WiderSelf(m: Moves)
    ensures Wider(m, m)
  {}

  lemma NilMoved(m: Moves)
    ensures Moved(m, NilValue, NilValue)
  {}

  lemma BindBoth(u: Duo, o: Owner, sc: Scope, m: Moves, bs: seq<Binding>, vs: seq<Value>, ws: seq<Value>, s: State,
          t: State) returns (o1: Owner)
    requires Both(u, o, sc, m, s, t) && NamesOk(u.m.k, bs) && SaneValues(u.m.k, o, vs) && MovedAll(m, vs, ws)
    ensures Grows(o, o1) && Both(u, o1, sc, m, BindAll(s, bs, vs), BindAll(t, bs, ws))
  {
    hide Paired, At, Rel, NamesOk, SaneValue, Moved, BindAll, SaneState, Held, Placed;
    AtMeans(u.m, o, sc, s);
    o1 := BindAllSane(u.m.k, o, s, bs, vs);
    NamesHeld(u.m, o, sc, s, s, bs, vs);
    Next(u.m, o, o1, sc, s, BindAll(s, bs, vs));
    BindAllSame(u.m.k, m, s, t, bs, vs, ws);
  }

  // ----- every construct -----------------------------------------------------------------------------------

  /** The stripped program follows the original, step for step. */
  lemma {:induction false} EvalStrips(u: Duo, o: Owner, sc: Scope, m: Moves, n: nat, e: Hir, s: State, t: State)
    returns (m1: Moves)
    requires Both(u, o, sc, m, s, t) && Obeys(u.m.k, e) && Sits(u.m.k, sc, e)
    ensures Wider(m, m1) && Together(u, m1, n, e, s, t)
    decreases n, 1, e, 2
  {
    hide Both, Paired, At, Rel, Gone, Moved, NamesOk, CapturesOk, OpOk, Wider, Captured, Invoke, Perform, LambdaScoped;
    BothMeans(u, o, sc, m, s, t);
    m1 := m;
    match e
    case Lit(datum) => DatumMoved(m, datum);
    case Poison =>
    case Var(b) => ReadSame(u.m.k, m, s, t, b);
    case Lambda(id, _, cs, _) => CapturedSame(u.m.k, m, s, t, id, cs);
    case Let(_, _, _) => m1 := LetStrips(u, o, sc, m, n, e, s, t);
    case Loop(_, _) => m1 := LoopStrips(u, o, sc, m, n, e, s, t);
    case If(_, _, _) => m1 := IfStrips(u, o, sc, m, n, e, s, t);
    case Cond(cl) => m1 := ClausesStrip(u, o, sc, m, n, cl, s, t);
    case Begin(es) => m1 := SeqStrips(u, o, sc, m, n, es, s, t);
    case Block(_, es) => m1 := SeqStrips(u, o, sc, m, n, es, s, t);
    case Break(_, x) => m1 := EvalStrips(u, o, sc, m, n, x, s, t);
    case Call(_, _, _, _) => m1 := CallStrips(u, o, sc, m, n, e, s, t);
    case While(_, _) => m1 := WhileStrips(u, o, sc, m, n, e, s, t);
    case Match(_, _) => m1 := MatchStrips(u, o, sc, m, n, e, s, t);
    case Logic(conj, es) => m1 := LogicStrips(u, o, sc, m, n, conj, es, s, t);
    case Parameterize(_, _) => m1 := ParameterizeStrips(u, o, sc, m, n, e, s, t);
    case Strict(_, _) => m1 := StrictStrips(u, o, sc, m, n, e, s, t);
    case Return(_) => m1 := ReturnStrips(u, o, sc, m, n, e, s, t);
  }

  lemma DatumMoved(m: Moves, datum: Datum)
    ensures Moved(m, Data(datum), Data(datum))
  {}

  lemma {:induction false} ReturnStrips(u: Duo, o: Owner, sc: Scope, m: Moves, n: nat, e: Hir, s: State, t: State)
    returns (m1: Moves)
    requires Both(u, o, sc, m, s, t) && Obeys(u.m.k, e) && Sits(u.m.k, sc, e) && e.Return?
    ensures Wider(m, m1) && Together(u, m1, n, e, s, t)
    decreases n, 1, e, 0
  {
    hide Both, MovedWorld, MovedDyn, MovedFrame, Moved, Wider;
    m1 := EvalStrips(u, o, sc, m, n, e.value, s, t);
  }

  lemma {:induction false} IfStrips(u: Duo, o: Owner, sc: Scope, m: Moves, n: nat, e: Hir, s: State, t: State)
    returns (m1: Moves)
    requires Both(u, o, sc, m, s, t) && Obeys(u.m.k, e) && Sits(u.m.k, sc, e) && e.If?
    ensures Wider(m, m1) && Together(u, m1, n, e, s, t)
    decreases n, 1, e, 0
  {
    hide Both, Rel, Moved, Truthy, Wider, SaneValue, Grows;
    m1 := EvalStrips(u, o, sc, m, n, e.test, s, t);
    var r, q := Left(u, n, e.test, s), Right(u, n, e.test, t);
    if Lives(u, r, q) {
      var m0 := m1;
      var o1 := Onward(u, o, sc, m, m0, n, e.test, s, t);
      SameTruth(m0, r.out.value, q.out.value);
      if Truthy(r.out.value) {
        m1 := EvalStrips(u, o1, sc, m0, n, e.thn, r.st, q.st);
      } else {
        m1 := EvalStrips(u, o1, sc, m0, n, e.els, r.st, q.st);
      }
      WiderThen(m, m0, m1);
    }
  }

  lemma {:induction false} ClausesStrip(u: Duo, o: Owner, sc: Scope, m: Moves, n: nat, cl: Clauses, s: State, t: State)
    returns (m1: Moves)
    requires Both(u, o, sc, m, s, t) && ObeysClauses(u.m.k, cl) && (u.m.k.plan.Some? ==> ScopedClauses(u.m.k, sc, cl))
    ensures Wider(m, m1)
    ensures Follows(u, m1, EvalClauses(u.m.c, n + u.extra, cl, s), EvalClauses(u.d, n, StripClauses(u.m.k.pass, cl), t))
    decreases n, 1, cl, 1
  {
    hide Both, Rel, Moved, Truthy, Wider, SaneValue, Grows, Paired, At, Eval, Obeys, Scoped, Strip;
    BothMeans(u, o, sc, m, s, t);
    NilMoved(m);
    m1 := m;
    match cl
    case NoElse =>
    case Else(e) => m1 := EvalStrips(u, o, sc, m, n, e, s, t);
    case Clause(test, body, rest) =>
      var m0 := EvalStrips(u, o, sc, m, n, test, s, t);
      var r, q := Left(u, n, test, s), Right(u, n, test, t);
      m1 := m0;
      if Lives(u, r, q) {
        var o1 := Onward(u, o, sc, m, m0, n, test, s, t);
        SameTruth(m0, r.out.value, q.out.value);
        if Truthy(r.out.value) {
          m1 := EvalStrips(u, o1, sc, m0, n, body, r.st, q.st);
        } else {
          m1 := ClausesStrip(u, o1, sc, m0, n, rest, r.st, q.st);
        }
        WiderThen(m, m0, m1);
      }
  }

  lemma {:induction false} SeqStrips(u: Duo, o: Owner, sc: Scope, m: Moves, n: nat, es: Hirs, s: State, t: State)
    returns (m1: Moves)
    requires Both(u, o, sc, m, s, t) && ObeysAll(u.m.k, es) && (u.m.k.plan.Some? ==> ScopedSeq(u.m.k, sc, es))
    ensures Wider(m, m1)
    ensures Follows(u, m1, EvalSeq(u.m.c, n + u.extra, es, s), EvalSeq(u.d, n, StripAll(u.m.k.pass, es), t))
    decreases n, 1, es, 1
  {
    hide Both, Rel, Moved, Wider, SaneValue, Grows, AfterItem, Paired, At, Eval, Obeys, Scoped, Strip;
    BothMeans(u, o, sc, m, s, t);
    NilMoved(m);
    m1 := m;
    if es.HCons? {
      var m0 := EvalStrips(u, o, sc, m, n, es.head, s, t);
      var r, q := Left(u, n, es.head, s), Right(u, n, es.head, t);
      m1 := m0;
      if Lives(u, r, q) && es.tail.HCons? {
        var o1 := Onward(u, o, sc, m, m0, n, es.head, s, t);
        m1 := SeqStrips(u, o1, AfterItem(u.m.k, sc, es.head), m0, n, es.tail, r.st, q.st);
        WiderThen(m, m0, m1);
      }
    }
  }

  lemma {:induction false} LogicStrips(u: Duo, o: Owner, sc: Scope, m: Moves, n: nat, conj: bool, es: Hirs, s: State,
          t: State) returns (m1: Moves)
    requires Both(u, o, sc, m, s, t) && ObeysAll(u.m.k, es) && (u.m.k.plan.Some? ==> ScopedAll(u.m.k, sc, es))
    ensures Wider(m, m1)
    ensures Follows(u, m1, EvalLogic(u.m.c, n + u.extra, conj, es, s),
              EvalLogic(u.d, n, conj, StripAll(u.m.k.pass, es), t))
    decreases n, 1, es, 1
  {
    hide Both, Rel, Moved, Wider, SaneValue, Grows, Truthy, Paired, At, Eval, Obeys, Scoped, Strip;
    BothMeans(u, o, sc, m, s, t);
    DatumMoved(m, Bool(conj));
    m1 := m;
    if es.HCons? {
      var m0 := EvalStrips(u, o, sc, m, n, es.head, s, t);
      var r, q := Left(u, n, es.head, s), Right(u, n, es.head, t);
      m1 := m0;
      if Lives(u, r, q) && es.tail.HCons? {
        var o1 := Onward(u, o, sc, m, m0, n, es.head, s, t);
        SameTruth(m0, r.out.value, q.out.value);
        if Truthy(r.out.value) == conj {
          m1 := LogicStrips(u, o1, sc, m0, n, conj, es.tail, r.st, q.st);
          WiderThen(m, m0, m1);
        }
      }
    }
  }

  lemma {:induction false} OpsStrip(u: Duo, o: Owner, sc: Scope, m: Moves, n: nat, es: Hirs, s: State, t: State)
    returns (m1: Moves)
    requires Both(u, o, sc, m, s, t) && ObeysAll(u.m.k, es) && (u.m.k.plan.Some? ==> ScopedAll(u.m.k, sc, es))
    ensures Wider(m, m1)
    ensures OpsFollow(u, m1, EvalOps(u.m.c, n + u.extra, es, s), EvalOps(u.d, n, StripAll(u.m.k.pass, es), t))
    decreases n, 1, es, 1
  {
    hide Both, Rel, Moved, Wider, SaneValue, Grows, Paired, At, Eval, Obeys, Scoped, Strip;
    BothMeans(u, o, sc, m, s, t);
    m1 := m;
    if es.HCons? {
      var m0 := EvalStrips(u, o, sc, m, n, es.head, s, t);
      var r, q := Left(u, n, es.head, s), Right(u, n, es.head, t);
      m1 := m0;
      if Lives(u, r, q) {
        var o1 := Onward(u, o, sc, m, m0, n, es.head, s, t);
        m1 := OpsStrip(u, o1, sc, m0, n, es.tail, r.st, q.st);
        WiderThen(m, m0, m1);
        MovedGrows(m0, m1, r.out.value, q.out.value);
      }
    }
  }

  /** After operands with values on both sides. */
  lemma OpsOnward(u: Duo, o: Owner, sc: Scope, m: Moves, m1: Moves, n: nat, es: Hirs, s: State, t: State)
    returns (o1: Owner)
    requires Both(u, o, sc, m, s, t) && ObeysAll(u.m.k, es) && (u.m.k.plan.Some? ==> ScopedAll(u.m.k, sc, es))
    requires Wider(m, m1)
    requires OpsFollow(u, m1, EvalOps(u.m.c, n + u.extra, es, s), EvalOps(u.d, n, StripAll(u.m.k.pass, es), t))
    requires EvalOps(u.m.c, n + u.extra, es, s).Vals? && EvalOps(u.d, n, StripAll(u.m.k.pass, es), t).Vals?
    ensures var a, b := EvalOps(u.m.c, n + u.extra, es, s), EvalOps(u.d, n, StripAll(u.m.k.pass, es), t);
            && Grows(o, o1) && SaneValues(u.m.k, o1, a.values) && MovedAll(m1, a.values, b.values)
            && Both(u, o1, sc, m1, a.st, b.st)
  {
    hide Paired, At, Rel, ObeysAll, EvalOps, StripAll, SaneState, SaneValue, Held, Placed, Moved, ScopedAll;
    o1 := OpsSane(u.m, o, sc, n + u.extra, es, s);
    Next(u.m, o, o1, sc, s, EvalOps(u.m.c, n + u.extra, es, s).st);
  }

  lemma {:induction false} MatchStrips(u: Duo, o: Owner, sc: Scope, m: Moves, n: nat, e: Hir, s: State, t: State)
    returns (m1: Moves)
    requires Both(u, o, sc, m, s, t) && Obeys(u.m.k, e) && Sits(u.m.k, sc, e) && e.Match?
    ensures Wider(m, m1) && Together(u, m1, n, e, s, t)
    decreases n, 1, e, 0
  {
    hide Both, Rel, Moved, Wider, SaneValue, Grows;
    var m0 := EvalStrips(u, o, sc, m, n, e.value, s, t);
    var r, q := Left(u, n, e.value, s), Right(u, n, e.value, t);
    m1 := m0;
    if Lives(u, r, q) {
      var o1 := Onward(u, o, sc, m, m0, n, e.value, s, t);
      m1 := ArmsStrip(u, o1, sc, m0, n, r.out.value, q.out.value, e.arms, r.st, q.st);
      WiderThen(m, m0, m1);
    }
  }

  lemma {:induction false} ArmsStrip(u: Duo, o: Owner, sc: Scope, m: Moves, n: nat, v: Value, w: Value, arms: Arms,
          s: State, t: State)
    returns (m1: Moves)
    requires Both(u, o, sc, m, s, t) && ObeysArms(u.m.k, arms) && (u.m.k.plan.Some? ==> ScopedArms(u.m.k, sc, arms))
    requires SaneValue(u.m.k, o, v) && Moved(m, v, w)
    ensures Wider(m, m1)
    ensures Follows(u, m1, EvalArms(u.m.c, n + u.extra, v, arms, s),
              EvalArms(u.d, n, w, StripArms(u.m.k.pass, arms), t))
    decreases n, 1, arms, 2
  {
    hide Both, Rel, Moved, Wider, SaneValue, Grows, NamesOk, Truthy, BindAll, Eval, Paired, At, Obeys, Scoped, Strip,
         MovedWorld;
    BothMeans(u, o, sc, m, s, t);
    m1 := m;
    if arms.ACons? {
      var shape := MatchOp(arms.pattern.shape);
      var m0 := HostBoth(u, o, sc, m, shape, [v], [w], s, t);
      MovedGrows(m, m0, v, w);
      var r, q := u.m.c.host(shape, [v], s.world), u.d.host(shape, [w], t.world);
      var s1, t1 := s.(world := r.world), t.(world := q.world);
      if r.Raised? {
        m1 := ArmsStrip(u, o, sc, m0, n, v, w, arms.rest, s1, t1);
      } else {
        var o1 := BindBoth(u, o, sc, m0, arms.pattern.vars, r.values, q.values, s1, t1);
        ValueGrows(u.m.k, o, o1, v);
        m1 := MatchedStrips(u, o1, sc, m0, n, v, w, arms, BindAll(s1, arms.pattern.vars, r.values),
            BindAll(t1, arms.pattern.vars, q.values));
      }
      WiderThen(m, m0, m1);
    }
  }

  /** The arm's pattern matched: its guard, its body, or the arms after it. */
  lemma {:induction false} MatchedStrips(u: Duo, o: Owner, sc: Scope, m: Moves, n: nat, v: Value, w: Value, arms: Arms,
          s: State, t: State)
    returns (m1: Moves)
    requires Both(u, o, sc, m, s, t) && ObeysArms(u.m.k, arms) && arms.ACons?
    requires u.m.k.plan.Some? ==> ScopedArms(u.m.k, sc, arms)
    requires SaneValue(u.m.k, o, v) && Moved(m, v, w)
    ensures Wider(m, m1)
    ensures Follows(u, m1, Guarded(u.m.c, n + u.extra, v, arms, s), Guarded(u.d, n, w, StripArms(u.m.k.pass, arms), t))
    decreases n, 1, arms, 1
  {
    hide Both, Rel, Moved, Wider, SaneValue, Grows, NamesOk, Eval, EvalArms, Obeys, Scoped, Strip;
    if arms.guard.None? {
      m1 := EvalStrips(u, o, sc, m, n, arms.body, s, t);
    } else {
      var g := arms.guard.value;
      var m0 := EvalStrips(u, o, sc, m, n, g, s, t);
      var r, q := Left(u, n, g, s), Right(u, n, g, t);
      m1 := m0;
      if Lives(u, r, q) {
        var o1 := Onward(u, o, sc, m, m0, n, g, s, t);
        ValueGrows(u.m.k, o, o1, v);
        MovedGrows(m, m0, v, w);
        m1 := ChosenStrips(u, o1, sc, m0, n, v, w, arms, r, q);
        WiderThen(m, m0, m1);
      }
    }
  }

  /** After its guard, the arm's body or the arms after it. */
  lemma {:induction false} ChosenStrips(u: Duo, o: Owner, sc: Scope, m: Moves, n: nat, v: Value, w: Value, arms: Arms,
          r: Res, q: Res)
    returns (m1: Moves)
    requires Both(u, o, sc, m, r.st, q.st) && ObeysArms(u.m.k, arms) && arms.ACons?
    requires u.m.k.plan.Some? ==> ScopedArms(u.m.k, sc, arms)
    requires SaneValue(u.m.k, o, v) && Moved(m, v, w) && r.out.Val? && q.out.Val? && Moved(m, r.out.value, q.out.value)
    ensures Wider(m, m1)
    ensures var rest := StripArms(u.m.k.pass, arms);
            Follows(u, m1,
                    if Truthy(r.out.value) then Eval(u.m.c, n + u.extra, arms.body, r.st)
                        else EvalArms(u.m.c, n + u.extra, v, arms.rest, r.st),
                    if Truthy(q.out.value) then Eval(u.d, n, rest.body, q.st) else EvalArms(u.d, n, w, rest.rest, q.st))
    decreases n, 1, arms, 0
  {
    hide Both, Rel, Moved, Wider, SaneValue, NamesOk, Truthy, Eval, EvalArms, Obeys, Scoped, Strip;
    SameTruth(m, r.out.value, q.out.value);
    if Truthy(r.out.value) {
      m1 := EvalStrips(u, o, sc, m, n, arms.body, r.st, q.st);
    } else {
      m1 := ArmsStrip(u, o, sc, m, n, v, w, arms.rest, r.st, q.st);
    }
  }

  lemma {:induction false} WhileStrips(u: Duo, o: Owner, sc: Scope, m: Moves, n: nat, e: Hir, s: State, t: State)
    returns (m1: Moves)
    requires Both(u, o, sc, m, s, t) && e.While? && Obeys(u.m.k, e.test) && Obeys(u.m.k, e.body)
    requires Sits(u.m.k, sc, e.test) && Sits(u.m.k, sc, e.body)
    ensures Wider(m, m1)
    ensures Follows(u, m1, RunWhile(u.m.c, n + u.extra, e.test, e.body, s),
                    RunWhile(u.d, n, Strip(u.m.k.pass, e.test), Strip(u.m.k.pass, e.body), t))
    decreases n, 1, e, 1
  {
    hide Both, Rel, Moved, Wider, SaneValue, Grows, Truthy, Eval, Obeys, Strip, Sits, RunWhile;
    m1 := EvalStrips(u, o, sc, m, n, e.test, s, t);
    var r, q := Left(u, n, e.test, s), Right(u, n, e.test, t);
    WhileIs(u.m.c, n + u.extra, e.test, e.body, s);
    WhileIs(u.d, n, Strip(u.m.k.pass, e.test), Strip(u.m.k.pass, e.body), t);
    NilMoved(m1);
    if Lives(u, r, q) {
      var m0 := m1;
      var o1 := Onward(u, o, sc, m, m0, n, e.test, s, t);
      SameTruth(m0, r.out.value, q.out.value);
      if Truthy(r.out.value) {
        m1 := TurnStrips(u, o1, sc, m0, n, e, r.st, q.st);
        WiderThen(m, m0, m1);
      }
    }
  }

  /** The body of a `while`, and the loop again. */
  lemma {:induction false} TurnStrips(u: Duo, o: Owner, sc: Scope, m: Moves, n: nat, e: Hir, s: State, t: State)
    returns (m1: Moves)
    requires Both(u, o, sc, m, s, t) && e.While? && Obeys(u.m.k, e.test) && Obeys(u.m.k, e.body)
    requires Sits(u.m.k, sc, e.test) && Sits(u.m.k, sc, e.body)
    ensures Wider(m, m1)
    ensures var test, body := Strip(u.m.k.pass, e.test), Strip(u.m.k.pass, e.body);
            var r, q := Left(u, n, e.body, s), Right(u, n, e.body, t);
            Follows(u, m1,
                    if !r.out.Val? then r else if n + u.extra == 0 then Res(Timeout, r.st)
                        else RunWhile(u.m.c, n + u.extra - 1, e.test, e.body, r.st),
                    if !q.out.Val? then q else if n == 0 then Res(Timeout, q.st)
                        else RunWhile(u.d, n - 1, test, body, q.st))
    decreases n, 1, e, 0
  {
    hide Both, Rel, Moved, Wider, SaneValue, Grows, Eval, Obeys, Strip, Sits, RunWhile;
    m1 := EvalStrips(u, o, sc, m, n, e.body, s, t);
    var r, q := Left(u, n, e.body, s), Right(u, n, e.body, t);
    if Lives(u, r, q) && n > 0 {
      var m0 := m1;
      var o1 := Onward(u, o, sc, m, m0, n, e.body, s, t);
      m1 := WhileStrips(u, o1, sc, m0, n - 1, e, r.st, q.st);
      WiderThen(m, m0, m1);
    }
  }

  lemma {:induction false} LoopStrips(u: Duo, o: Owner, sc: Scope, m: Moves, n: nat, e: Hir, s: State, t: State)
    returns (m1: Moves)
    requires Both(u, o, sc, m, s, t) && Obeys(u.m.k, e) && Sits(u.m.k, sc, e) && e.Loop?
    ensures Wider(m, m1) && Together(u, m1, n, e, s, t)
    decreases n, 1, e, 0
  {
    hide Both, Rel, Moved, Wider, SaneValue, Grows, NamesOk;
    var m0 := InitsStrip(u, o, sc, m, n, e.binds, s, t);
    LoopNames(u.m.k, e.binds);
    var r, q := EvalBinds(u.m.c, n + u.extra, false, e.binds, s),
        EvalBinds(u.d, n, false, StripLoop(u.m.k.pass, e.binds), t);
    m1 := m0;
    if r.Bound? && q.Bound? {
      var o1 := InitsOnward(u, o, sc, m, m0, n, e.binds, s, t);
      m1 := TurnsStrip(u, o1, sc, m0, n, BinderNames(e.binds), e.body, r.st, q.st);
      WiderThen(m, m0, m1);
    }
  }

  lemma InitsOnward(u: Duo, o: Owner, sc: Scope, m: Moves, m1: Moves, n: nat, bs: Binds, s: State, t: State)
    returns (o1: Owner)
    requires Both(u, o, sc, m, s, t) && ObeysLoop(u.m.k, bs) && (u.m.k.plan.Some? ==> ScopedLoop(u.m.k, sc, bs))
    requires Wider(m, m1)
    requires BindsFollow(u, m1, EvalBinds(u.m.c, n + u.extra, false, bs, s),
               EvalBinds(u.d, n, false, StripLoop(u.m.k.pass, bs), t))
    requires EvalBinds(u.m.c, n + u.extra, false, bs, s).Bound?
    requires EvalBinds(u.d, n, false, StripLoop(u.m.k.pass, bs), t).Bound?
    ensures var r, q := EvalBinds(u.m.c, n + u.extra, false, bs, s),
            EvalBinds(u.d, n, false, StripLoop(u.m.k.pass, bs), t);
            Both(u, o1, sc, m1, r.st, q.st)
  {
    hide Paired, At, Rel, ObeysLoop, EvalBinds, StripLoop, SaneState, Held, Placed, ScopedLoop;
    o1 := InitsSane(u.m, o, sc, n + u.extra, bs, s);
    Next(u.m, o, o1, sc, s, EvalBinds(u.m.c, n + u.extra, false, bs, s).st);
  }

  lemma {:induction false} LoopNames(k: Rules, bs: Binds)
    requires ObeysLoop(k, bs)
    ensures BinderNames(StripLoop(k.pass, bs)) == BinderNames(bs) && NamesOk(k, BinderNames(bs))
    decreases bs
  {
    hide Obeys, Strip, Gone;
    if bs.BCons? { LoopNames(k, bs.rest); }
  }

  lemma {:induction false} InitsStrip(u: Duo, o: Owner, sc: Scope, m: Moves, n: nat, bs: Binds, s: State, t: State)
    returns (m1: Moves)
    requires Both(u, o, sc, m, s, t) && ObeysLoop(u.m.k, bs) && (u.m.k.plan.Some? ==> ScopedLoop(u.m.k, sc, bs))
    ensures Wider(m, m1)
    ensures BindsFollow(u, m1, EvalBinds(u.m.c, n + u.extra, false, bs, s),
              EvalBinds(u.d, n, false, StripLoop(u.m.k.pass, bs), t))
    decreases n, 1, bs, 1
  {
    hide Both, Rel, Moved, Wider, SaneValue, Grows, Bind, Gone;
    BothMeans(u, o, sc, m, s, t);
    m1 := m;
    if bs.BCons? {
      var m0 := EvalStrips(u, o, sc, m, n, bs.init, s, t);
      var r, q := Left(u, n, bs.init, s), Right(u, n, bs.init, t);
      m1 := m0;
      if Lives(u, r, q) {
        var o1 := Onward(u, o, sc, m, m0, n, bs.init, s, t);
        var o2 := NameBoth(u, o1, sc, m0, bs.binding, r.out.value, q.out.value, r.st, q.st);
        m1 := InitsStrip(u, o2, sc, m0, n, bs.rest, Bind(r.st, bs.binding, r.out.value),
            Bind(q.st, bs.binding, q.out.value));
        WiderThen(m, m0, m1);
      }
    }
  }

  lemma NameBoth(u: Duo, o: Owner, sc: Scope, m: Moves, b: Binding, v: Value, w: Value, s: State, t: State)
    returns (o1: Owner)
    requires Both(u, o, sc, m, s, t) && NameOk(u.m.k, b) && SaneValue(u.m.k, o, v) && Moved(m, v, w)
    ensures Both(u, o1, sc, m, Bind(s, b, v), Bind(t, b, w))
  {
    hide Paired, At, Rel, SaneValue, Moved, Bind, SaneState, Held, Placed, Gone;
    AtMeans(u.m, o, sc, s);
    o1 := BindSane(u.m.k, o, s, b, v);
    NameHeld(u.m, o, sc, s, b, v);
    Next(u.m, o, o1, sc, s, Bind(s, b, v));
    BindSame(u.m.k, m, s, t, b, v, w);
  }

  lemma {:induction false} TurnsStrip(u: Duo, o: Owner, sc: Scope, m: Moves, n: nat, names: seq<Binding>, body: Hir,
          s: State, t: State)
    returns (m1: Moves)
    requires Both(u, o, sc, m, s, t) && Obeys(u.m.k, body) && NamesOk(u.m.k, names) && Sits(u.m.k, sc, body)
    ensures Wider(m, m1)
    ensures Follows(u, m1, RunLoop(u.m.c, n + u.extra, names, body, s),
              RunLoop(u.d, n, names, Strip(u.m.k.pass, body), t))
    decreases n, 1, body, 3
  {
    hide Both, Rel, Moved, Wider, NamesOk, Eval, Obeys, Strip, Sits, WriteAll;
    m1 := EvalStrips(u, o, sc, m, n, body, s, t);
    var r, q := Left(u, n, body, s), Right(u, n, body, t);
    if !Lost(u, r.out, q.out) && r.out.Again? && |r.out.values| == |names| && n > 0 {
      var m0 := m1;
      var o1 := TurnOnward(u, o, sc, m, m0, n, names, body, s, t);
      m1 := TurnsStrip(u, o1, sc, m0, n - 1, names, body, WriteAll(r.st, names, r.out.values),
          WriteAll(q.st, names, q.out.values));
      WiderThen(m, m0, m1);
    }
  }

  /** The loop's names take their next values on both sides. */
  lemma TurnOnward(u: Duo, o: Owner, sc: Scope, m: Moves, m1: Moves, n: nat, names: seq<Binding>, body: Hir, s: State,
          t: State) returns (o1: Owner)
    requires Both(u, o, sc, m, s, t) && Obeys(u.m.k, body) && NamesOk(u.m.k, names) && Sits(u.m.k, sc, body)
    requires Wider(m, m1)
    requires Together(u, m1, n, body, s, t) && !Lost(u, Left(u, n, body, s).out, Right(u, n, body, t).out)
    requires Left(u, n, body, s).out.Again? && |Left(u, n, body, s).out.values| == |names|
    ensures var r, q := Left(u, n, body, s), Right(u, n, body, t);
            && q.out.Again? && |q.out.values| == |names|
            && Both(u, o1, sc, m1, WriteAll(r.st, names, r.out.values), WriteAll(q.st, names, q.out.values))
  {
    hide Paired, At, Rel, Moved, Wider, NamesOk, Eval, Obeys, Strip, Sits, WriteAll, SaneState, SaneValue, Held, Placed;
    var r, q := Left(u, n, body, s), Right(u, n, body, t);
    o1 := EvalSane(u.m, o, sc, n + u.extra, body, s);
    Next(u.m, o, o1, sc, s, r.st);
    RealmMeans(u.m, o1, sc, r.st);
    WriteAllSane(u.m.k, o1, r.st, names, r.out.values);
    NamesHeld(u.m, o1, sc, r.st, r.st, names, r.out.values);
    Next(u.m, o1, o1, sc, r.st, WriteAll(r.st, names, r.out.values)) by { AtMeans(u.m, o1, sc, r.st); }
    WriteAllSame(u.m.k, m1, r.st, q.st, names, r.out.values, q.out.values);
  }

  // ----- let, and the bindings it drops --------------------------------------------------------------------

  lemma {:induction false} LetStrips(u: Duo, o: Owner, sc: Scope, m: Moves, n: nat, e: Hir, s: State, t: State)
    returns (m1: Moves)
    requires Both(u, o, sc, m, s, t) && Obeys(u.m.k, e) && Sits(u.m.k, sc, e) && e.Let?
    ensures Wider(m, m1) && Together(u, m1, n, e, s, t)
    decreases n, 1, e, 0
  {
    hide Both, Rel, Wider, Prebind, Amid, Through, Heads, ScopedBinds, Boxes, Grows, BodyScope;
    var bs := e.binds;
    var s0 := if e.rec then Prebind(s, bs) else s;
    var t0 := if e.rec then Prebind(t, StripLet(u.m.k.pass, bs)) else t;
    var o0, sc0, at := LetOpened(u, o, sc, m, e, s, t);
    m1 := BindsStrip(u, o0, sc0, m, n, e.rec, at, {}, bs, s0, t0);
    var r, q := EvalBinds(u.m.c, n + u.extra, e.rec, bs, s0), EvalBinds(u.d, n, e.rec, StripLet(u.m.k.pass, bs), t0);
    if r.Bound? && q.Bound? {
      var m0 := m1;
      var o1 := LetOnward(u, o0, sc, sc0, m, m0, n, e, at, s0, t0);
      m1 := EvalStrips(u, o1, BodyScope(u.m.k, e.rec, sc, bs), m0, n, e.body, r.st, q.st);
      WiderThen(m, m0, m1);
    }
  }

  /** Where both sides are in the midst of a binding list. */
  ghost predicate Midway(u: Duo, o: Owner, sc: Scope, m: Moves, at: map<Binding, nat>, done: set<Binding>, bs: Binds,
          s: State, t: State) {
    Paired(u) && Amid(u.m, o, sc, at, done, bs, s) && Rel(u.m.k, m, s, t)
  }

  lemma LetOpened(u: Duo, o: Owner, sc: Scope, m: Moves, e: Hir, s: State, t: State)
    returns (o0: Owner, sc0: Scope, at: map<Binding, nat>)
    requires Both(u, o, sc, m, s, t) && Obeys(u.m.k, e) && Sits(u.m.k, sc, e) && e.Let?
    ensures sc0 == (if e.rec then Opened(u.m.k, sc, e.binds) else sc) && (!e.rec ==> at == map[])
    ensures u.m.k.plan.Some? && e.rec ==> at.Keys == Boxes(u.m.k, e.binds)
    ensures var s0 := if e.rec then Prebind(s, e.binds) else s;
            var t0 := if e.rec then Prebind(t, StripLet(u.m.k.pass, e.binds)) else t;
            Midway(u, o0, sc0, m, at, {}, e.binds, s0, t0)
  {
    hide Paired, At, Rel, Prebind, Amid, ScopedBinds, Heads, Boxes, Held, Opened;
    if e.rec {
      PrebindSame(u.m.k, m, s, t, e.binds);
      sc0 := Opened(u.m.k, sc, e.binds);
      o0, at := LetrecStart(u.m, o, sc, e.binds, s);
    } else {
      o0, sc0, at := o, sc, map[];
      AmidStart(u.m, o, sc, e.binds, s);
    }
  }

  lemma LetOnward(u: Duo, o: Owner, sc: Scope, sc0: Scope, m: Moves, m1: Moves, n: nat, e: Hir, at: map<Binding, nat>,
          s: State, t: State)
    returns (o1: Owner)
    requires e.Let? && ObeysLet(u.m.k, e.binds) && Midway(u, o, sc0, m, at, {}, e.binds, s, t) && Wider(m, m1)
    requires sc0 == (if e.rec then Opened(u.m.k, sc, e.binds) else sc) && (!e.rec ==> at == map[])
    requires u.m.k.plan.Some? && e.rec ==> at.Keys == Boxes(u.m.k, e.binds)
    requires BindsFollow(u, m1, EvalBinds(u.m.c, n + u.extra, e.rec, e.binds, s),
               EvalBinds(u.d, n, e.rec, StripLet(u.m.k.pass, e.binds), t))
    requires EvalBinds(u.m.c, n + u.extra, e.rec, e.binds, s).Bound?
    requires EvalBinds(u.d, n, e.rec, StripLet(u.m.k.pass, e.binds), t).Bound?
    ensures var r, q := EvalBinds(u.m.c, n + u.extra, e.rec, e.binds, s),
            EvalBinds(u.d, n, e.rec, StripLet(u.m.k.pass, e.binds), t);
            Both(u, o1, BodyScope(u.m.k, e.rec, sc, e.binds), m1, r.st, q.st)
  {
    hide Paired, At, Rel, Amid, ObeysLet, EvalBinds, StripLet, Heads, Boxes, Held, Opened, Through;
    var r := EvalBinds(u.m.c, n + u.extra, e.rec, e.binds, s);
    var o0 := BindsSane(u.m, o, sc0, n + u.extra, e.rec, at, {}, e.binds, s);
    if e.rec {
      o1 := Sealed(u.m, o0, sc, e.binds, at, r.st);
    } else {
      o1 := o0;
      AmidMeans(u.m, o0, Through(u.m.k, sc, e.binds), at, {} + Heads(u.m.k, e.binds), BNil, r.st);
    }
  }

  lemma {:induction false} BindsStrip(u: Duo, o: Owner, sc: Scope, m: Moves, n: nat, rec: bool, at: map<Binding, nat>,
          done: set<Binding>,
                                      bs: Binds, s: State, t: State) returns (m1: Moves)
    requires Midway(u, o, sc, m, at, done, bs, s, t) && ObeysLet(u.m.k, bs) && (!rec ==> at == map[])
    requires u.m.k.plan.Some? && rec ==> Boxes(u.m.k, bs) <= at.Keys
    ensures Wider(m, m1)
    ensures BindsFollow(u, m1, EvalBinds(u.m.c, n + u.extra, rec, bs, s),
              EvalBinds(u.d, n, rec, StripLet(u.m.k.pass, bs), t))
    decreases n, 1, bs, 1
  {
    hide Paired, Amid, Rel, Moved, Wider, Bind, Write, Gone, Eliminable, DropOk, SiteOk, Obeys, Scoped, Grows, At,
         NextScope, Extends;
    m1 := m;
    WiderSelf(m);
    if bs.BCons? {
      if Eliminable(u.m.k.pass, bs.binding, bs.init) {
        DroppedBoth(u, o, sc, m, n, rec, at, done, bs, s, t);
        var r := Left(u, n, bs.init, s);
        if r.out.Val? {
          m1 := BindsStrip(u, o, sc, m, n, rec, at, done, bs.rest, Put(rec, r.st, bs.binding, r.out.value), t);
        }
      } else {
        m1 := SiteStrips(u, o, sc, m, n, rec, at, done, bs, s, t);
      }
    }
  }

  lemma {:induction false} SiteStrips(u: Duo, o: Owner, sc: Scope, m: Moves, n: nat, rec: bool, at: map<Binding, nat>,
          done: set<Binding>,
                                      bs: Binds, s: State, t: State) returns (m1: Moves)
    requires Midway(u, o, sc, m, at, done, bs, s, t) && ObeysLet(u.m.k, bs) && (!rec ==> at == map[])
    requires u.m.k.plan.Some? && rec ==> Boxes(u.m.k, bs) <= at.Keys
    requires bs.BCons? && !Eliminable(u.m.k.pass, bs.binding, bs.init)
    ensures Wider(m, m1)
    ensures BindsFollow(u, m1, EvalBinds(u.m.c, n + u.extra, rec, bs, s),
              EvalBinds(u.d, n, rec, StripLet(u.m.k.pass, bs), t))
    decreases n, 1, bs, 0
  {
    hide Paired, Amid, Rel, Moved, Wider, Bind, Write, Gone, Eliminable, DropOk, SiteOk, Scoped, Grows, At, NextScope,
         Extends, SiteScoped;
    var b, init := bs.binding, bs.init;
    AmidMeans(u.m, o, sc, at, done, bs, s);
    m1 := EvalStrips(u, o, sc, m, n, init, s, t);
    var r, q := Left(u, n, init, s), Right(u, n, init, t);
    if Lives(u, r, q) {
      var m0 := m1;
      var o2 := SiteBoth(u, o, sc, m, m0, n, rec, at, done, bs, s, t);
      var s1, t1 := Put(rec, r.st, b, r.out.value), Put(rec, q.st, b, q.out.value);
      m1 := BindsStrip(u, o2, NextScope(u.m.k, sc, b, init), m0, n, rec, at, Also(u.m.k, done, b), bs.rest, s1, t1);
      WiderThen(m, m0, m1);
    }
  }

  lemma SiteBoth(u: Duo, o: Owner, sc: Scope, m: Moves, m1: Moves, n: nat, rec: bool, at: map<Binding, nat>,
          done: set<Binding>,
                 bs: Binds, s: State, t: State) returns (o2: Owner)
    requires Midway(u, o, sc, m, at, done, bs, s, t) && ObeysLet(u.m.k, bs) && (!rec ==> at == map[])
    requires u.m.k.plan.Some? && rec ==> Boxes(u.m.k, bs) <= at.Keys
    requires bs.BCons? && !Eliminable(u.m.k.pass, bs.binding, bs.init) && Wider(m, m1)
    requires Together(u, m1, n, bs.init, s, t) && Lives(u, Left(u, n, bs.init, s), Right(u, n, bs.init, t))
    ensures var r, q := Left(u, n, bs.init, s), Right(u, n, bs.init, t);
            && q.out.Val?
            && Midway(u, o2, NextScope(u.m.k, sc, bs.binding, bs.init), m1, at, Also(u.m.k, done, bs.binding), bs.rest,
                      Put(rec, r.st, bs.binding, r.out.value), Put(rec, q.st, bs.binding, q.out.value))
  {
    hide Paired, Amid, Rel, Moved, Wider, Bind, Write, Gone, Eliminable, Scoped, Grows, At, NextScope, Extends, Eval,
         Strip, Obeys, Held, SaneState, SiteScoped, SiteOk;
    var b := bs.binding;
    AmidMeans(u.m, o, sc, at, done, bs, s);
    var r, q := Left(u, n, bs.init, s), Right(u, n, bs.init, t);
    var o1 := EvalSane(u.m, o, sc, n + u.extra, bs.init, s);
    o2 := SiteStep(u.m, o, o1, sc, n + u.extra, rec, at, done, bs, s);
    if rec {
      WriteSame(u.m.k, m1, r.st, q.st, b, r.out.value, q.out.value);
    } else {
      BindSame(u.m.k, m1, r.st, q.st, b, r.out.value, q.out.value);
    }
  }

  /** A dropped initializer gives a value nobody reads and changes nothing that is matched, or the runs part. */
  lemma DroppedBoth(u: Duo, o: Owner, sc: Scope, m: Moves, n: nat, rec: bool, at: map<Binding, nat>, done: set<Binding>,
          bs: Binds, s: State, t: State)
    requires Midway(u, o, sc, m, at, done, bs, s, t) && ObeysLet(u.m.k, bs) && bs.BCons?
    requires Eliminable(u.m.k.pass, bs.binding, bs.init)
    ensures var r := Left(u, n, bs.init, s);
            && Heads(u.m.k, bs.rest) == Heads(u.m.k, bs)
            && if r.out.Val? then Midway(u, o, sc, m, at, done, bs.rest, Put(rec, r.st, bs.binding, r.out.value), t)
               else Lost(u, r.out, Fault)
  {
    hide Amid, Rel, Gone, Eliminable, Scoped, At, Eval, Strip, Held, SaneState, SaneValue, Harmless, Live, HostUniform,
         RealmOk, FramesAgree, Steady, Heads;
    var b, init := bs.binding, bs.init;
    DroppedStep(u.m, o, sc, n + u.extra, rec, at, done, bs, s);
    AmidMeans(u.m, o, sc, at, done, bs, s);
    var r := Left(u, n, init, s);
    DropSane(u.m, o, sc, n + u.extra, b, init, s);
    if r.out.Val? {
      EnlargedRel(u.m.k, m, s, t, r.st.world);
      assert SaneFrame(u.m.k, o, r.st.frame) by { FrameOf(u.m.k, o, r.st); }
      GoneRel(u.m.k, o, m, s, r.st, t, b, r.out.value);
      assert Put(rec, r.st, b, r.out.value) == r.st.(frame := r.st.frame[b := Plain(r.out.value)]) by {
        PutQuiet(u.m.k, o, rec, r.st, b, r.out.value);
      }
    }
  }

  lemma FrameOf(k: Rules, o: Owner, s: State)
    requires SaneState(k, o, s)
    ensures SaneFrame(k, o, s.frame)
  {}

  lemma PutQuiet(k: Rules, o: Owner, rec: bool, s: State, b: Binding, v: Value)
    requires SaneState(k, o, s) && !b.boxed
    ensures Put(rec, s, b, v) == s.(frame := s.frame[b := Plain(v)])
  {
    hide SaneValue, SaneWorld, SaneDyn;
    if b in s.frame { assert SaneSlot(k, o, b, s.frame[b]); }
  }

  // ----- operations and calls ------------------------------------------------------------------------------

  lemma {:induction false} ParameterizeStrips(u: Duo, o: Owner, sc: Scope, m: Moves, n: nat, e: Hir, s: State, t: State)
    returns (m1: Moves)
    requires Both(u, o, sc, m, s, t) && Obeys(u.m.k, e) && Sits(u.m.k, sc, e) && e.Parameterize?
    ensures Wider(m, m1) && Together(u, m1, n, e, s, t)
    decreases n, 1, e, 0
  {
    hide Both, Rel, Wider, Overlay, Moved, SaneValue, Grows;
    m1 := OpsStrip(u, o, sc, m, n, e.pairs, s, t);
    var a, b := EvalOps(u.m.c, n + u.extra, e.pairs, s), EvalOps(u.d, n, StripAll(u.m.k.pass, e.pairs), t);
    if a.Vals? && b.Vals? {
      var m0 := m1;
      var o1 := OpsOnward(u, o, sc, m, m0, n, e.pairs, s, t);
      Overlaid(u, o1, sc, m0, a.values, b.values, a.st, b.st);
      var s1, t1 := a.st.(dyn := Overlay(a.st.dyn, a.values)), b.st.(dyn := Overlay(b.st.dyn, b.values));
      m1 := EvalStrips(u, o1, sc, m0, n, e.body, s1, t1);
      WiderThen(m, m0, m1);
      var r, q := Left(u, n, e.body, s1), Right(u, n, e.body, t1);
      if !Lost(u, r.out, q.out) {
        BothMeans(u, o1, sc, m0, a.st, b.st);
        Restored(u.m.k, m0, m1, a.st, b.st, r.st, q.st);
      }
    }
  }

  lemma Overlaid(u: Duo, o: Owner, sc: Scope, m: Moves, vs: seq<Value>, ws: seq<Value>, s: State, t: State)
    requires Both(u, o, sc, m, s, t) && SaneValues(u.m.k, o, vs) && MovedAll(m, vs, ws)
    ensures Both(u, o, sc, m, s.(dyn := Overlay(s.dyn, vs)), t.(dyn := Overlay(t.dyn, ws)))
  {
    hide Paired, At, MovedWorld, MovedFrame, MovedDyn, MovedAll, SaneValues, Overlay;
    OverlaidSane(u.m, o, sc, s, vs);
    OverlaySame(m, s.dyn, t.dyn, vs, ws);
  }

  lemma Restored(k: Rules, m: Moves, m1: Moves, s: State, t: State, s1: State, t1: State)
    requires Rel(k, m, s, t) && Rel(k, m1, s1, t1) && Wider(m, m1)
    ensures Rel(k, m1, s1.(dyn := s.dyn), t1.(dyn := t.dyn))
  {
    hide MovedWorld, MovedFrame, MovedDyn, Wider;
    MovedDynGrows(m, m1, s.dyn, t.dyn);
  }

  lemma {:induction false} StrictStrips(u: Duo, o: Owner, sc: Scope, m: Moves, n: nat, e: Hir, s: State, t: State)
    returns (m1: Moves)
    requires Both(u, o, sc, m, s, t) && Obeys(u.m.k, e) && Sits(u.m.k, sc, e) && e.Strict?
    ensures Wider(m, m1) && Together(u, m1, n, e, s, t)
    decreases n, 1, e, 0
  {
    hide Both, Rel, Wider, OpOk, Perform, Moved, SaneValue, Grows;
    m1 := OpsStrip(u, o, sc, m, n, e.args, s, t);
    var a, b := EvalOps(u.m.c, n + u.extra, e.args, s), EvalOps(u.d, n, StripAll(u.m.k.pass, e.args), t);
    if a.Vals? && b.Vals? {
      var m0 := m1;
      var o1 := OpsOnward(u, o, sc, m, m0, n, e.args, s, t);
      BothMeans(u, o, sc, m, s, t);
      m1 := PerformSame(u, o1, sc, m0, e.op, e.args, a.values, b.values, a.st, b.st);
      WiderThen(m, m0, m1);
    }
  }

  lemma PerformSame(u: Duo, o: Owner, sc: Scope, m: Moves, op: Op, args: Hirs, vs: seq<Value>, ws: seq<Value>, s: State,
          t: State)
    returns (m1: Moves)
    requires Both(u, o, sc, m, s, t) && SaneValues(u.m.k, o, vs) && MovedAll(m, vs, ws) && OpOk(u.m.k, op, args)
    ensures Wider(m, m1) && Follows(u, m1, Perform(u.m.c.host, op, vs, s), Perform(u.d.host, op, ws, t))
  {
    hide Both, Paired, At, Rel, Wider, Gone, Store, Write, StoreAll, NamesOk, Moved, SaneValue;
    BothMeans(u, o, sc, m, s, t);
    NilMoved(m);
    m1 := m;
    match op
    case Intrinsic(code, _, _) => m1 := HostOneSame(u, o, sc, m, PrimOp(code), vs, ws, s, t);
    case Emit(signal) => m1 := HostOneSame(u, o, sc, m, EmitOp(signal), vs, ws, s, t);
    case RunDatum => m1 := HostOneSame(u, o, sc, m, EvalOp, vs, ws, s, t);
    case MakeCell =>
    case DerefCell =>
    case SetCell(b) => WriteSame(u.m.k, m, s, t, b, First(vs), First(ws));
    case Assign(b) => WriteSame(u.m.k, m, s, t, b, First(vs), First(ws));
    case Define(b) => StoreSame(u.m.k, m, s, t, b, First(vs), First(ws));
    case Destructure(pat, strict) => m1 := DestructureSame(u, o, sc, m, pat, strict, vs, ws, s, t);
    case Recur =>
  }

  lemma HostOneSame(u: Duo, o: Owner, sc: Scope, m: Moves, op: HostOp, vs: seq<Value>, ws: seq<Value>, s: State,
          t: State) returns (m1: Moves)
    requires Both(u, o, sc, m, s, t) && SaneValues(u.m.k, o, vs) && MovedAll(m, vs, ws)
    ensures Wider(m, m1) && Follows(u, m1, Host1(u.m.c.host, op, vs, s), Host1(u.d.host, op, ws, t))
  {
    hide Both, Rel, Wider, Moved, SaneValue, MovedWorld;
    m1 := HostBoth(u, o, sc, m, op, vs, ws, s, t);
    BothMeans(u, o, sc, m1, s.(world := u.m.c.host(op, vs, s.world).world),
        t.(world := u.d.host(op, ws, t.world).world));
  }

  lemma DestructureSame(u: Duo, o: Owner, sc: Scope, m: Moves, pat: Pattern, strict: bool, vs: seq<Value>,
          ws: seq<Value>, s: State, t: State)
    returns (m1: Moves)
    requires Both(u, o, sc, m, s, t) && SaneValues(u.m.k, o, vs) && MovedAll(m, vs, ws)
    ensures Wider(m, m1)
    ensures Follows(u, m1, Perform(u.m.c.host, Destructure(pat, strict), vs, s),
              Perform(u.d.host, Destructure(pat, strict), ws, t))
  {
    hide Both, Rel, Wider, Moved, SaneValue, MovedWorld, StoreAll;
    m1 := HostBoth(u, o, sc, m, MatchOp(pat.shape), vs, ws, s, t);
    var r, q := u.m.c.host(MatchOp(pat.shape), vs, s.world), u.d.host(MatchOp(pat.shape), ws, t.world);
    BothMeans(u, o, sc, m1, s.(world := r.world), t.(world := q.world));
    NilMoved(m1);
    if r.Done? { StoreAllSame(u.m.k, m1, s.(world := r.world), t.(world := q.world), pat.vars, r.values, q.values); }
  }

  lemma {:induction false} CallStrips(u: Duo, o: Owner, sc: Scope, m: Moves, n: nat, e: Hir, s: State, t: State)
    returns (m1: Moves)
    requires Both(u, o, sc, m, s, t) && Obeys(u.m.k, e) && Sits(u.m.k, sc, e) && e.Call?
    ensures Wider(m, m1) && Together(u, m1, n, e, s, t)
    decreases n, 1, e, 0
  {
    hide Both, Rel, Wider, Invoke, Moved, SaneValue, Grows;
    m1 := OpsStrip(u, o, sc, m, n, e.args, s, t);
    var a, b := EvalOps(u.m.c, n + u.extra, e.args, s), EvalOps(u.d, n, StripAll(u.m.k.pass, e.args), t);
    if a.Vals? && b.Vals? {
      var m0 := m1;
      var o1 := OpsOnward(u, o, sc, m, m0, n, e.args, s, t);
      var m2 := EvalStrips(u, o1, sc, m0, n, e.func, a.st, b.st);
      WiderThen(m, m0, m2);
      m1 := m2;
      var r, q := Left(u, n, e.func, a.st), Right(u, n, e.func, b.st);
      if Lives(u, r, q) {
        var o2 := Onward(u, o1, sc, m0, m2, n, e.func, a.st, b.st);
        ValuesGrow(u.m.k, o1, o2, a.values);
        MovedAllGrows(m0, m2, a.values, b.values);
        m1 := InvokeStrips(u, o2, sc, m2, n, r.out.value, q.out.value, a.values, b.values, e.spliced, e.isTail, r.st,
            q.st);
        WiderThen(m, m2, m1);
      }
    }
  }

  lemma {:induction false} InvokeStrips(u: Duo, o: Owner, sc: Scope, m: Moves, n: nat, f: Value, g: Value,
          vs: seq<Value>, ws: seq<Value>,
                                        spliced: seq<bool>, isTail: bool, s: State, t: State) returns (m1: Moves)
    requires Both(u, o, sc, m, s, t) && SaneValue(u.m.k, o, f) && SaneValues(u.m.k, o, vs) && Moved(m, f, g)
    requires MovedAll(m, vs, ws)
    ensures Wider(m, m1)
    ensures Follows(u, m1, Invoke(u.m.c, n + u.extra, f, vs, spliced, isTail, s),
              Invoke(u.d, n, g, ws, spliced, isTail, t))
    decreases n, 0, 2
  {
    hide Both, Rel, Wider, Apply, Moved, SaneValue, MovedWorld, Paired, At;
    BothMeans(u, o, sc, m, s, t);
    var m0, r, q := SpreadBoth(u, o, sc, m, spliced, vs, ws, s, t);
    var s1, t1 := s.(world := r.world), t.(world := q.world);
    BothMeans(u, o, sc, m0, s1, t1);
    m1 := m0;
    if r.Done? && n > 0 {
      MovedGrows(m, m0, f, g);
      m1 := ApplyStrips(u, o, sc, m0, n, f, g, r.values, q.values, s1, t1);
      WiderThen(m, m0, m1);
    } else if r.Done? {
      assert Lost(u, Invoke(u.m.c, n + u.extra, f, vs, spliced, isTail, s).out, Timeout) || u.extra == 0;
    }
  }

  lemma SpreadBoth(u: Duo, o: Owner, sc: Scope, m: Moves, spliced: seq<bool>, vs: seq<Value>, ws: seq<Value>, s: State,
          t: State)
    returns (m1: Moves, r: HostResult, q: HostResult)
    requires Both(u, o, sc, m, s, t) && SaneValues(u.m.k, o, vs) && MovedAll(m, vs, ws)
    ensures r == Spread(u.m.c.host, spliced, vs, s.world) && q == Spread(u.d.host, spliced, ws, t.world)
    ensures r.Done? == q.Done? && Wider(m, m1)
    ensures Both(u, o, sc, m1, s.(world := r.world), t.(world := q.world))
    ensures r.Done? ==> SaneValues(u.m.k, o, r.values) && MovedAll(m1, r.values, q.values)
  {
    hide Both, Moved, SaneValue, MovedWorld;
    r, q := Spread(u.m.c.host, spliced, vs, s.world), Spread(u.d.host, spliced, ws, t.world);
    if true in spliced {
      m1 := HostBoth(u, o, sc, m, SpliceOp(spliced), vs, ws, s, t);
    } else {
      m1 := m;
      assert s.(world := r.world) == s && t.(world := q.world) == t;
    }
  }

  lemma {:induction false} ApplyStrips(u: Duo, o: Owner, sc: Scope, m: Moves, n: nat, f: Value, g: Value,
          vs: seq<Value>, ws: seq<Value>, s: State, t: State)
    returns (m1: Moves)
    requires Both(u, o, sc, m, s, t) && SaneValue(u.m.k, o, f) && SaneValues(u.m.k, o, vs) && Moved(m, f, g)
    requires MovedAll(m, vs, ws) && n > 0
    ensures Wider(m, m1) && Follows(u, m1, Apply(u.m.c, n - 1 + u.extra, f, vs, s), Apply(u.d, n - 1, g, ws, t))
    decreases n, 0, 1
  {
    hide Both, Rel, Wider, SaneValue, Eval, MovedWorld;
    BothMeans(u, o, sc, m, s, t);
    m1 := m;
    match g
    case Closure(_, _) => m1 := ClosureStrips(u, o, sc, m, n, f, g, vs, ws, s, t);
    case Native(code) => m1 := HostOneSame(u, o, sc, m, NativeOp(code), vs, ws, s, t);
    case Param(id, default) => ParamSame(u.m.k, m, s, t, f, g);
    case _ =>
  }

  lemma ParamSame(k: Rules, m: Moves, s: State, t: State, f: Value, g: Value)
    requires Rel(k, m, s, t) && Moved(m, f, g) && g.Param?
    ensures f.Param? && f.id == g.id
    ensures Moved(m, if f.id in s.dyn then s.dyn[f.id] else f.default, if g.id in t.dyn then t.dyn[g.id] else g.default)
  {
    hide MovedWorld, MovedFrame;
  }

  lemma {:induction false} ClosureStrips(u: Duo, o: Owner, sc: Scope, m: Moves, n: nat, f: Value, g: Value,
          vs: seq<Value>, ws: seq<Value>, s: State, t: State)
    returns (m1: Moves)
    requires Both(u, o, sc, m, s, t) && SaneValue(u.m.k, o, f) && SaneValues(u.m.k, o, vs) && Moved(m, f, g)
    requires MovedAll(m, vs, ws) && n > 0
    requires f.Closure? && g.Closure?
    ensures Wider(m, m1) && Follows(u, m1, Apply(u.m.c, n - 1 + u.extra, f, vs, s), Apply(u.d, n - 1, g, ws, t))
    decreases n, 0, 0
  {
    hide Both, Rel, Wider, SaneValue, Eval, MovedWorld, BindAll, EntryFrame, Strip, Moved, Paired, At;
    BothMeans(u, o, sc, m, s, t);
    CodeSame(u, o, sc, m, f.id, s, t);
    SameId(m, f, g);
    m1 := m;
    if f.id in u.m.c.code {
      var fn, gn := u.m.c.code[f.id], u.d.code[f.id];
      var m0 := HostBoth(u, o, sc, m, ArrangeOp(f.id), vs, ws, s, t);
      var r, q := u.m.c.host(ArrangeOp(f.id), vs, s.world), u.d.host(ArrangeOp(f.id), ws, t.world);
      var s1, t1 := s.(world := r.world), t.(world := q.world);
      BothMeans(u, o, sc, m0, s1, t1);
      m1 := m0;
      if r.Done? {
        MovedGrows(m, m0, f, g);
        m1 := BodyStrips(u, o, sc, m0, n - 1, f, g, r.values, q.values, s1, t1);
        WiderThen(m, m0, m1);
        var x, y := BindAll(State(EntryFrame(f, fn), s.dyn, r.world, 0), fn.params, r.values),
            BindAll(State(EntryFrame(g, gn), t.dyn, q.world, 0), gn.params, q.values);
        Returned(u, m0, m1, s1, t1, Left(u, n - 1, fn.body, x), Right(u, n - 1, fn.body, y));
      }
    }
  }

  lemma SameId(m: Moves, f: Value, g: Value)
    requires Moved(m, f, g) && f.Closure? && g.Closure?
    ensures f.id == g.id
  {}

  lemma CodeSame(u: Duo, o: Owner, sc: Scope, m: Moves, id: nat, s: State, t: State)
    requires Both(u, o, sc, m, s, t)
    ensures id in u.m.c.code <==> id in u.d.code
    ensures id in u.m.c.code ==> u.d.code[id] == StripFn(u.m.k.pass, u.m.c.code[id])
  {
    hide At, Rel, RealmOk, HostUniform, StripFn;
  }

  lemma {:induction false} BodyStrips(u: Duo, o: Owner, sc: Scope, m: Moves, n: nat, f: Value, g: Value, vs: seq<Value>,
          ws: seq<Value>, s: State, t: State)
    returns (m1: Moves)
    requires Both(u, o, sc, m, s, t) && SaneValue(u.m.k, o, f) && SaneValues(u.m.k, o, vs) && Moved(m, f, g)
    requires MovedAll(m, vs, ws)
    requires f.Closure? && g.Closure? && f.id in u.m.c.code && f.id in u.d.code
    ensures Wider(m, m1)
    ensures var fn, gn := u.m.c.code[f.id], u.d.code[f.id];
            var x, y := BindAll(State(EntryFrame(f, fn), s.dyn, s.world, 0), fn.params, vs),
                BindAll(State(EntryFrame(g, gn), t.dyn, t.world, 0), gn.params, ws);
            Follows(u, m1, Left(u, n, fn.body, x), Right(u, n, fn.body, y))
    decreases n, 1, u.m.c.code[f.id].body, 3
  {
    hide Both, Paired, At, Rel, Wider, SaneValue, Eval, Moved, BindAll, EntryFrame, NamesOk, Obeys, Grows, Sits;
    BothMeans(u, o, sc, m, s, t);
    CodeSame(u, o, sc, m, f.id, s, t);
    var fn, gn := u.m.c.code[f.id], u.d.code[f.id];
    var x0, y0 := State(EntryFrame(f, fn), s.dyn, s.world, 0), State(EntryFrame(g, gn), t.dyn, t.world, 0);
    EntryAt(u.m, o, sc, f, s);
    EntrySame(u.m.k, o, m, s, t, f, g, fn, gn);
    var sc1 := EntryScope(u.m.k, f.id);
    assert Both(u, o, sc1, m, x0, y0) by { BothFrom(u, o, sc1, m, x0, y0); }
    CodeAt(u.m, o, sc, s, f.id);
    var o1 := BindBoth(u, o, sc1, m, fn.params, vs, ws, x0, y0);
    m1 := EvalStrips(u, o1, sc1, m, n, fn.body, BindAll(x0, fn.params, vs), BindAll(y0, fn.params, ws));
  }

  lemma BothFrom(u: Duo, o: Owner, sc: Scope, m: Moves, s: State, t: State)
    requires Paired(u) && At(u.m, o, sc, s) && Rel(u.m.k, m, s, t)
    ensures Both(u, o, sc, m, s, t)
  {}

  /** The caller gets its own frame back, in the world the call left. */
  lemma Returned(u: Duo, m: Moves, m1: Moves, s: State, t: State, r: Res, q: Res)
    requires Rel(u.m.k, m, s, t) && Wider(m, m1) && Follows(u, m1, r, q)
    ensures Follows(u, m1, Res(FnResult(r.out), State(s.frame, s.dyn, r.st.world, s.mints)),
              Res(FnResult(q.out), State(t.frame, t.dyn, q.st.world, t.mints)))
  {
    hide MovedFrame, MovedDyn, MovedWorld, Moved, Wider;
    MovedFrameGrows(u.m.k, m, m1, s.frame, t.frame);
    MovedDynGrows(m, m1, s.dyn, t.dyn);
  }
}
