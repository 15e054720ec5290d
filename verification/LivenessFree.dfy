/**
  What the analysis calls live is used: a name live before a node is live after it, or
  read or captured in it outside the scopes that bind it (`LiveIsFree`).

  Two scopes are the source's own. A `let` binding hides its name from its own
  initializer, where it is not in scope. A `letrec` does not hide its names from its
  initializers: one that a lambda among them captures is live before the whole
  (`LetrecNameIsLive`).
*/
module LivenessFree {
  import opened HirSyntax
  import opened Liveness
  import opened LivenessSure

  /** `b` is a name of bit `x`. */
  predicate Hits(ix: Index, b: Binding, x: nat) {
    b in ix && ix[b] == x
  }

  predicate Bound(ix: Index, x: nat, bs: Binds) {
    match bs
    case BNil => false
    case BCons(b, _, rest) => Hits(ix, b, x) || Bound(ix, x, rest)
  }

  predicate BoundBy(ix: Index, x: nat, bs: seq<Binding>) {
    exists i :: 0 <= i < |bs| && Hits(ix, bs[i], x)
  }

  /** A name of bit `x` is read or captured in `e`, outside any scope of its own. */
  predicate Free(ix: Index, x: nat, e: Hir)
    decreases e
  {
    match e
    case Lit(_) => false
    case Poison => false
    case Var(b) => Hits(ix, b, x)
    case Let(rec, bs, body) =>
      (if rec then FreeInits(ix, x, bs) else FreeLet(ix, x, bs)) || (!Bound(ix, x, bs) && Free(ix, x, body))
    case Loop(bs, body) => FreeInits(ix, x, bs) || (!Bound(ix, x, bs) && Free(ix, x, body))
    case Lambda(_, _, cs, _) => exists i :: 0 <= i < |cs| && Hits(ix, cs[i].binding, x)
    case If(c, t, f) => Free(ix, x, c) || Free(ix, x, t) || Free(ix, x, f)
    case Cond(cl) => FreeClauses(ix, x, cl)
    case Begin(es) => FreeAmong(ix, x, es)
    case Block(_, es) => FreeAmong(ix, x, es)
    case Break(_, v) => Free(ix, x, v)
    case Call(args, _, f, _) => FreeAmong(ix, x, args) || Free(ix, x, f)
    case While(c, body) => Free(ix, x, c) || Free(ix, x, body)
    case Match(v, arms) => Free(ix, x, v) || FreeArms(ix, x, arms)
    case Logic(_, es) => FreeAmong(ix, x, es)
    case Parameterize(ps, body) => FreeAmong(ix, x, ps) || Free(ix, x, body)
    case Strict(op, args) => FreeAmong(ix, x, args) || (op.SetCell? && Hits(ix, op.target, x))
    case Return(v) => Free(ix, x, v)
  }

  predicate FreeAmong(ix: Index, x: nat, es: Hirs)
    decreases es
  {
    match es
    case HNil => false
    case HCons(e, rest) => Free(ix, x, e) || FreeAmong(ix, x, rest)
  }

  predicate FreeInits(ix: Index, x: nat, bs: Binds)
    decreases bs
  {
    match bs
    case BNil => false
    case BCons(_, init, rest) => Free(ix, x, init) || FreeInits(ix, x, rest)
  }

  /** Each name of a `let` is hidden from its binding on. */
  predicate FreeLet(ix: Index, x: nat, bs: Binds)
    decreases bs
  {
    match bs
    case BNil => false
    case BCons(b, init, rest) => !Hits(ix, b, x) && (Free(ix, x, init) || FreeLet(ix, x, rest))
  }

  predicate FreeClauses(ix: Index, x: nat, cl: Clauses)
    decreases cl
  {
    match cl
    case NoElse => false
    case Else(e) => Free(ix, x, e)
    case Clause(c, b, rest) => Free(ix, x, c) || Free(ix, x, b) || FreeClauses(ix, x, rest)
  }

  /** A pattern's variables are in scope in its guard and its body. */
  predicate FreeArms(ix: Index, x: nat, arms: Arms)
    decreases arms
  {
    match arms
    case ANil => false
    case ACons(p, g, b, rest) =>
      || (!BoundBy(ix, x, p.vars) && ((g.Some? && Free(ix, x, g.value)) || Free(ix, x, b)))
      || FreeArms(ix, x, rest)
  }

  // ----- live is free --------------------------------------------------------------------------------------

  lemma {:induction false} KilledIsOut(ix: Index, bs: seq<Binding>, live: set<nat>, x: nat)
    ensures x in KillAll(ix, bs, live) ==> x in live && !BoundBy(ix, x, bs)
    decreases |bs|
  {
    if bs != [] && x in KillAll(ix, bs, live) {
      KilledIsOut(ix, bs[1..], Kill(ix, bs[0], live), x);
      forall i | 0 <= i < |bs| ensures !Hits(ix, bs[i], x) {
        if i > 0 { assert bs[1..][i - 1] == bs[i]; }
      }
    }
  }

  lemma {:induction false} NamesAreBound(ix: Index, x: nat, bs: Binds)
    ensures Bound(ix, x, bs) ==> BoundBy(ix, x, BinderNames(bs))
  {
    if bs.BCons? {
      NamesAreBound(ix, x, bs.rest);
      var names := BinderNames(bs);
      if Hits(ix, bs.binding, x) {
        assert Hits(ix, names[0], x);
      } else if Bound(ix, x, bs) {
        var i :| 0 <= i < |BinderNames(bs.rest)| && Hits(ix, BinderNames(bs.rest)[i], x);
        assert Hits(ix, names[i + 1], x);
      }
    }
  }

  lemma {:induction false} CapturesAreUses(ix: Index, cs: seq<Capture>, live: set<nat>, x: nat)
    ensures x in UseAll(ix, cs, live) ==> x in live || exists i :: 0 <= i < |cs| && Hits(ix, cs[i].binding, x)
    decreases |cs|
  {
    if cs != [] {
      CapturesAreUses(ix, cs[1..], Use(ix, cs[0].binding, live), x);
      if i :| 0 <= i < |cs[1..]| && Hits(ix, cs[1..][i].binding, x) { assert Hits(ix, cs[i + 1].binding, x); }
    }
  }

  /** A bit that is live before a node is live after it, or a name of it is free in the node. */
  lemma {:induction false} LiveIsFree(ix: Index, e: Hir, after: set<nat>, x: nat)
    ensures x in Before(ix, e, after) ==> x in after || Free(ix, x, e)
    decreases e, 1
  {
    match e
    case Lit(_) =>
    case Poison =>
    case Var(_) =>
    case Let(_, _, _) => BinderIsFree(ix, e, after, x);
    case Loop(_, _) => BinderIsFree(ix, e, after, x);
    case Lambda(_, _, cs, _) => CapturesAreUses(ix, cs, after, x);
    case If(c, t, f) =>
      LiveIsFree(ix, t, after, x);
      LiveIsFree(ix, f, after, x);
      LiveIsFree(ix, c, Before(ix, t, after) + Before(ix, f, after), x);
    case Cond(cl) => ClausesAreFree(ix, cl, after, x);
    case Begin(es) => SeqIsFree(ix, es, after, x);
    case Block(_, es) => SeqIsFree(ix, es, after, x);
    case Break(_, v) => LiveIsFree(ix, v, after, x);
    case Call(args, _, f, _) => SeqIsFree(ix, args, after, x); LiveIsFree(ix, f, SeqBefore(ix, args, after), x);
    case While(c, body) => LiveIsFree(ix, body, after, x); LiveIsFree(ix, c, after + Before(ix, body, after), x);
    case Match(v, arms) => ArmsAreFree(ix, arms, after, x); LiveIsFree(ix, v, ArmsBefore(ix, arms, after), x);
    case Logic(_, es) => SeqIsFree(ix, es, after, x);
    case Parameterize(ps, body) => LiveIsFree(ix, body, after, x); SeqIsFree(ix, ps, Before(ix, body, after), x);
    case Strict(_, _) => StrictIsFree(ix, e, after, x);
    case Return(v) => LiveIsFree(ix, v, after, x);
  }

  lemma {:induction false} BinderIsFree(ix: Index, e: Hir, after: set<nat>, x: nat)
    requires e.Let? || e.Loop?
    ensures x in Before(ix, e, after) ==> x in after || Free(ix, x, e)
    decreases e, 0
  {
    hide KillAll, BoundBy;
    var live := Before(ix, e.body, after);
    LiveIsFree(ix, e.body, after, x);
    if e.Let? && !e.rec {
      LetIsFree(ix, e.binds, live, x);
    } else {
      KilledIsOut(ix, BinderNames(e.binds), live, x);
      NamesAreBound(ix, x, e.binds);
      InitsAreFree(ix, e.binds, KillAll(ix, BinderNames(e.binds), live), x);
    }
  }

  lemma {:induction false} StrictIsFree(ix: Index, e: Hir, after: set<nat>, x: nat)
    requires e.Strict?
    ensures x in Before(ix, e, after) ==> x in after || Free(ix, x, e)
    decreases e, 0
  {
    hide KillAll, BoundBy;
    SeqIsFree(ix, e.args, OpBefore(ix, e.op, after), x);
    if e.op.Destructure? { KilledIsOut(ix, e.op.pattern.vars, after, x); }
  }

  lemma {:induction false} SeqIsFree(ix: Index, es: Hirs, after: set<nat>, x: nat)
    ensures x in SeqBefore(ix, es, after) ==> x in after || FreeAmong(ix, x, es)
    decreases es
  {
    hide Before, Free;
    if es.HCons? { SeqIsFree(ix, es.tail, after, x); LiveIsFree(ix, es.head, SeqBefore(ix, es.tail, after), x); }
  }

  lemma {:induction false} InitsAreFree(ix: Index, bs: Binds, after: set<nat>, x: nat)
    ensures x in InitsBefore(ix, bs, after) ==> x in after || FreeInits(ix, x, bs)
    decreases bs
  {
    hide Before, Free;
    if bs.BCons? { InitsAreFree(ix, bs.rest, after, x); LiveIsFree(ix, bs.init, InitsBefore(ix, bs.rest, after), x); }
  }

  lemma {:induction false} LetIsFree(ix: Index, bs: Binds, after: set<nat>, x: nat)
    ensures x in BindsBefore(ix, bs, after) ==> FreeLet(ix, x, bs) || (!Bound(ix, x, bs) && x in after)
    decreases bs
  {
    hide Before, Free;
    if bs.BCons? { LetIsFree(ix, bs.rest, after, x); LiveIsFree(ix, bs.init, BindsBefore(ix, bs.rest, after), x); }
  }

  lemma {:induction false} ClausesAreFree(ix: Index, cl: Clauses, after: set<nat>, x: nat)
    ensures x in ClausesBefore(ix, cl, after) ==> x in after || FreeClauses(ix, x, cl)
    decreases cl
  {
    hide Before, Free;
    match cl
    case NoElse =>
    case Else(e) => LiveIsFree(ix, e, after, x);
    case Clause(c, b, rest) =>
      ClausesAreFree(ix, rest, after, x);
      LiveIsFree(ix, b, after, x);
      LiveIsFree(ix, c, ClausesBefore(ix, rest, after) + Before(ix, b, after), x);
  }

  lemma {:induction false} ArmsAreFree(ix: Index, arms: Arms, after: set<nat>, x: nat)
    ensures x in ArmsBefore(ix, arms, after) ==> x in after || FreeArms(ix, x, arms)
    decreases arms
  {
    hide Before, Free, KillAll, BoundBy;
    if arms.ACons? {
      var live := Before(ix, arms.body, after);
      ArmsAreFree(ix, arms.rest, after, x);
      LiveIsFree(ix, arms.body, after, x);
      if arms.guard.Some? { LiveIsFree(ix, arms.guard.value, live, x); }
      KilledIsOut(ix, arms.pattern.vars, if arms.guard.Some? then Before(ix, arms.guard.value, live) else live, x);
    }
  }

  lemma LetrecNameIsLive(f: Binding, id: nat)
    ensures var e := Let(true, BCons(f, Lambda(id, [], [Capture(f, false)], Lit(Nil)), BNil), Lit(Nil));
            0 in Before(map[f := 0], e, {}) && Bound(map[f := 0], 0, e.binds)
  {
    var ix := map[f := 0];
    var lam := Lambda(id, [], [Capture(f, false)], Lit(Nil));
    var bs := BCons(f, lam, BNil);
    assert [Capture(f, false)][1..] == [];
    assert UseAll(ix, [], {0}) == {0} && UseAll(ix, [Capture(f, false)], {}) == {0};
    assert BinderNames(BNil) == [] && [f] + [] == [f] && BinderNames(bs) == [f];
    assert [f][1..] == [] && KillAll(ix, [f], {}) == {};
    assert InitsBefore(ix, BNil, {}) == {} && Before(ix, lam, {}) == {0} && InitsBefore(ix, bs, {}) == {0};
    assert Before(ix, Lit(Nil), {}) == {};
  }
}
