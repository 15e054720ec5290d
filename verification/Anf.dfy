/**
  The A-normal form lift. `Transform` rebuilds the tree bottom-up and names, under
  a fresh arena index, each value a consumer, a binder or a returning position has
  to release through a slot. The arena is the counter `k`, its length.
*/
module Anf {
  import opened Options
  import opened HirSyntax
  import opened Erasure

  // ----- the lift ------------------------------------------------------------------------

  /** Does this node itself produce a heap value its frame must release? */
  predicate Allocates(e: Hir) {
    match e
    case Lambda(_, _, _, _) => true
    case Call(_, _, _, _) => true
    case Strict(op, _) => op.RunDatum? || op.Emit? || (op.Intrinsic? && op.allocates)
    case Match(_, arms) => AnyAllocates(arms)
    case _ => false
  }

  predicate AnyAllocates(arms: Arms) {
    arms.ACons? && (arms.pattern.allocates || AnyAllocates(arms.rest))
  }

  /** The forms that hand their body's value up unchanged. */
  predicate Propagates(e: Hir) {
    e.Let? || e.Loop? || e.Parameterize?
  }

  function WithBody(e: Hir, body: Hir): Hir
    requires Propagates(e)
  {
    match e
    case Let(rec, bs, _) => Let(rec, bs, body)
    case Loop(bs, _) => Loop(bs, body)
    case Parameterize(ps, _) => Parameterize(ps, body)
  }

  predicate IsAnfWrapped(e: Hir) {
    e.Let? && !e.rec && e.binds.BCons? && e.binds.rest.BNil? && e.body == Var(e.binds.binding)
  }

  function NameIfAlloc(e: Hir, k: nat): (Hir, nat)
    decreases e, 1
  {
    if IsAnfWrapped(e) then (e, k)
    else if Propagates(e) then NameTail(e, k)
    else if !Allocates(e) then (e, k)
    else (Let(false, BCons(Binding(k, false), e, BNil), Var(Binding(k, false))), k + 1)
  }

  /** Name the value a propagating tail hands up, where it is made. */
  function NameTail(e: Hir, k: nat): (Hir, nat)
    decreases e, 0
  {
    if !Propagates(e) then (e, k)
    else
      var (body, k1) := NameIfAlloc(e.body, k);
      (WithBody(e, body), k1)
  }

  predicate OwesRelease(e: Hir) {
    (e.Strict? && e.op.RunDatum?) || (e.Call? && !e.isTail)
  }

  /** At a returning position, name only a result this frame must still release. */
  function NameOwedRelease(e: Hir, k: nat): (Hir, nat) {
    if Propagates(e) then
      var (body, k1) := NameOwedRelease(e.body, k);
      (WithBody(e, body), k1)
    else if OwesRelease(e) then NameIfAlloc(e, k)
    else (e, k)
  }

  /** Where a child stands: consumed, bound to a slot, or passed through. */
  datatype Position = Consumed | Bound | Through

  function PositionOf(op: Op): Position {
    match op
    case Define(_) => Bound
    case MakeCell => Through
    case DerefCell => Through
    case _ => Consumed
  }

  function NameAt(pos: Position, e: Hir, k: nat): (Hir, nat) {
    match pos
    case Consumed => NameIfAlloc(e, k)
    case Bound => NameTail(e, k)
    case Through => (e, k)
  }

  function Place(pos: Position, e: Hir, k: nat): (Hir, nat)
    decreases e, 1
  {
    var (inner, k1) := Transform(e, k);
    NameAt(pos, inner, k1)
  }

  function Returning(e: Hir, k: nat): (Hir, nat)
    decreases e, 1
  {
    var (inner, k1) := Transform(e, k);
    NameOwedRelease(inner, k1)
  }

  function Transform(e: Hir, k: nat): (Hir, nat)
    decreases e, 0
  {
    match e
    case Lit(_) => (e, k)
    case Var(_) => (e, k)
    case Poison => (e, k)
    case Let(rec, bs, body) =>
      var (bs1, k1) := PlaceBinds(bs, k);
      var (body1, k2) := Transform(body, k1);
      (Let(rec, bs1, body1), k2)
    case Loop(bs, body) =>
      var (bs1, k1) := PlaceBinds(bs, k);
      var (body1, k2) := Transform(body, k1);
      (Loop(bs1, body1), k2)
    case Lambda(id, ps, cs, body) =>
      var (body1, k1) := Returning(body, k);
      (Lambda(id, ps, cs, body1), k1)
    case Call(args, spliced, f, isTail) =>
      var (f1, k1) := Place(Consumed, f, k);
      var (args1, k2) := PlaceAll(Consumed, args, k1);
      (Call(args1, spliced, f1, isTail), k2)
    case If(c, t, f) =>
      var (c1, k1) := Place(Consumed, c, k);
      var (t1, k2) := Place(Consumed, t, k1);
      var (f1, k3) := Place(Consumed, f, k2);
      (If(c1, t1, f1), k3)
    case Cond(cl) =>
      var (cl1, k1) := PlaceClauses(cl, k);
      (Cond(cl1), k1)
    case Begin(es) =>
      var (es1, k1) := PlaceAll(Consumed, es, k);
      (Begin(es1), k1)
    case Block(id, es) =>
      var (es1, k1) := PlaceAll(Consumed, es, k);
      (Block(id, es1), k1)
    case Break(id, v) =>
      var (v1, k1) := Place(Consumed, v, k);
      (Break(id, v1), k1)
    case While(c, body) =>
      var (c1, k1) := Place(Consumed, c, k);
      var (body1, k2) := Place(Consumed, body, k1);
      (While(c1, body1), k2)
    case Match(v, arms) =>
      var (v1, k1) := Place(Consumed, v, k);
      var (arms1, k2) := PlaceArms(arms, k1);
      (Match(v1, arms1), k2)
    case Logic(conj, es) =>
      var (es1, k1) := PlaceAll(Consumed, es, k);
      (Logic(conj, es1), k1)
    case Parameterize(ps, body) =>
      var (ps1, k1) := PlaceAll(Consumed, ps, k);
      var (body1, k2) := Transform(body, k1);
      (Parameterize(ps1, body1), k2)
    case Strict(op, args) =>
      var (args1, k1) := PlaceAll(PositionOf(op), args, k);
      (Strict(op, args1), k1)
    case Return(v) =>
      var (v1, k1) := Place(Consumed, v, k);
      (Return(v1), k1)
  }

  function PlaceAll(pos: Position, es: Hirs, k: nat): (Hirs, nat)
    decreases es, 0
  {
    match es
    case HNil => (HNil, k)
    case HCons(e, rest) =>
      var (e1, k1) := Place(pos, e, k);
      var (rest1, k2) := PlaceAll(pos, rest, k1);
      (HCons(e1, rest1), k2)
  }

  function PlaceBinds(bs: Binds, k: nat): (Binds, nat)
    decreases bs, 0
  {
    match bs
    case BNil => (BNil, k)
    case BCons(b, e, rest) =>
      var (e1, k1) := Place(Bound, e, k);
      var (rest1, k2) := PlaceBinds(rest, k1);
      (BCons(b, e1, rest1), k2)
  }

  function PlaceClauses(cl: Clauses, k: nat): (Clauses, nat)
    decreases cl, 0
  {
    match cl
    case NoElse => (NoElse, k)
    case Else(e) =>
      var (e1, k1) := Place(Consumed, e, k);
      (Else(e1), k1)
    case Clause(c, b, rest) =>
      var (c1, k1) := Place(Consumed, c, k);
      var (b1, k2) := Place(Consumed, b, k1);
      var (rest1, k3) := PlaceClauses(rest, k2);
      (Clause(c1, b1, rest1), k3)
  }

  function PlaceArms(arms: Arms, k: nat): (Arms, nat)
    decreases arms, 0
  {
    match arms
    case ANil => (ANil, k)
    case ACons(p, g, b, rest) =>
      var (g1, k1) :=
        if g.None? then (None, k) else var (x, j) := Place(Consumed, g.value, k); (Some(x), j);
      var (b1, k2) := Place(Consumed, b, k1);
      var (rest1, k3) := PlaceArms(rest, k2);
      (ACons(p, g1, b1, rest1), k3)
  }

  // ----- the lift adds only wraps ------------------------------------------------------------

  /** `out` has the names `e` had, plus forwarding wraps, and erases to what `e` erases to. */
  ghost predicate AddsWraps(m: Mode, e: Hir, k: nat, out: (Hir, nat)) {
    Lifted(m.bound, out.0) && Erase(m, out.0) == Erase(m, e) && k <= out.1
  }

  lemma {:induction false} NameIfAllocAddsWraps(m: Mode, e: Hir, k: nat)
    requires Lifted(m.bound, e) && m.bound <= k
    ensures AddsWraps(m, e, k, NameIfAlloc(e, k))
    decreases e, 1
  {
    if !IsAnfWrapped(e) {
      if Propagates(e) { NameTailAddsWraps(m, e, k); }
    }
  }

  lemma {:induction false} NameTailAddsWraps(m: Mode, e: Hir, k: nat)
    requires Lifted(m.bound, e) && m.bound <= k
    ensures AddsWraps(m, e, k, NameTail(e, k))
    decreases e, 0
  {
    if Propagates(e) && !IsWrap(m.bound, e) { NameIfAllocAddsWraps(m, e.body, k); }
  }

  lemma {:induction false} NameOwedReleaseAddsWraps(m: Mode, e: Hir, k: nat)
    requires Lifted(m.bound, e) && m.bound <= k
    ensures AddsWraps(m, e, k, NameOwedRelease(e, k))
  {
    if Propagates(e) {
      if !IsWrap(m.bound, e) { NameOwedReleaseAddsWraps(m, e.body, k); }
    } else {
      NameIfAllocAddsWraps(m, e, k);
    }
  }

  lemma {:induction false} PlaceAddsWraps(m: Mode, pos: Position, e: Hir, k: nat)
    requires Lifted(m.bound, e) && m.bound <= k
    ensures AddsWraps(m, e, k, Place(pos, e, k))
    decreases e, 2
  {
    TransformAddsWraps(m, e, k);
    var (inner, k1) := Transform(e, k);
    NameIfAllocAddsWraps(m, inner, k1);
    NameTailAddsWraps(m, inner, k1);
  }

  lemma {:induction false} ReturningAddsWraps(m: Mode, e: Hir, k: nat)
    requires Lifted(m.bound, e) && m.bound <= k
    ensures AddsWraps(m, e, k, Returning(e, k))
    decreases e, 2
  {
    TransformAddsWraps(m, e, k);
    var (inner, k1) := Transform(e, k);
    NameOwedReleaseAddsWraps(m, inner, k1);
  }

  lemma WrapStays(bound: nat, e: Hir, k: nat)
    requires IsWrap(bound, e)
    ensures var (init, k1) := Place(Bound, e.binds.init, k);
            Transform(e, k) == (Let(false, BCons(e.binds.binding, init, BNil), e.body), k1)
  {
    var (init, k1) := Place(Bound, e.binds.init, k);
    assert PlaceBinds(BNil, k1) == (BNil, k1);
    assert Place(Consumed, Var(e.binds.binding), k1) == (Var(e.binds.binding), k1);
  }

  lemma {:induction false} TransformAddsWraps(m: Mode, e: Hir, k: nat)
    requires Lifted(m.bound, e) && m.bound <= k
    ensures AddsWraps(m, e, k, Transform(e, k))
    decreases e, 1
  {
    hide Place, Returning;
    match e
    case Lit(_) =>
    case Var(_) =>
    case Poison =>
    case Let(_, _, _) => TransformBinderAddsWraps(m, e, k);
    case Loop(_, _) => TransformBinderAddsWraps(m, e, k);
    case Parameterize(_, _) => TransformBinderAddsWraps(m, e, k);
    case Lambda(_, _, _, body) => ReturningAddsWraps(m, body, k);
    case Call(_, _, _, _) => TransformOperandsAddWraps(m, e, k);
    case If(_, _, _) => TransformBranchAddsWraps(m, e, k);
    case Cond(_) => TransformBranchAddsWraps(m, e, k);
    case Begin(_) => TransformOperandsAddWraps(m, e, k);
    case Block(_, _) => TransformOperandsAddWraps(m, e, k);
    case Break(_, v) => PlaceAddsWraps(m, Consumed, v, k);
    case While(_, _) => TransformBranchAddsWraps(m, e, k);
    case Match(_, _) => TransformBranchAddsWraps(m, e, k);
    case Logic(_, _) => TransformOperandsAddWraps(m, e, k);
    case Strict(_, _) => TransformOperandsAddWraps(m, e, k);
    case Return(v) => PlaceAddsWraps(m, Consumed, v, k);
  }

  lemma {:induction false} TransformOperandsAddWraps(m: Mode, e: Hir, k: nat)
    requires Lifted(m.bound, e) && m.bound <= k && (e.Call? || e.Begin? || e.Block? || e.Logic? || e.Strict?)
    ensures AddsWraps(m, e, k, Transform(e, k))
    decreases e, 0
  {
    hide Place, Returning;
    match e
    case Call(args, _, f, _) =>
      PlaceAddsWraps(m, Consumed, f, k);
      PlaceAllAddsWraps(m, Consumed, args, Place(Consumed, f, k).1);
    case Begin(es) => PlaceAllAddsWraps(m, Consumed, es, k);
    case Block(_, es) => PlaceAllAddsWraps(m, Consumed, es, k);
    case Logic(_, es) => PlaceAllAddsWraps(m, Consumed, es, k);
    case Strict(op, args) => PlaceAllAddsWraps(m, PositionOf(op), args, k);
  }

  lemma {:induction false} TransformBranchAddsWraps(m: Mode, e: Hir, k: nat)
    requires Lifted(m.bound, e) && m.bound <= k && (e.If? || e.While? || e.Match? || e.Cond?)
    ensures AddsWraps(m, e, k, Transform(e, k))
    decreases e, 0
  {
    hide Place, Returning;
    match e
    case If(c, t, f) =>
      PlaceAddsWraps(m, Consumed, c, k);
      var k1 := Place(Consumed, c, k).1;
      PlaceAddsWraps(m, Consumed, t, k1);
      PlaceAddsWraps(m, Consumed, f, Place(Consumed, t, k1).1);
    case While(c, body) =>
      PlaceAddsWraps(m, Consumed, c, k);
      PlaceAddsWraps(m, Consumed, body, Place(Consumed, c, k).1);
    case Match(v, arms) =>
      PlaceAddsWraps(m, Consumed, v, k);
      PlaceArmsAddsWraps(m, arms, Place(Consumed, v, k).1);
    case Cond(cl) => PlaceClausesAddsWraps(m, cl, k);
  }

  lemma {:induction false} TransformBinderAddsWraps(m: Mode, e: Hir, k: nat)
    requires Lifted(m.bound, e) && m.bound <= k && Propagates(e)
    ensures AddsWraps(m, e, k, Transform(e, k))
    decreases e, 0
  {
    hide Place, Returning;
    if IsWrap(m.bound, e) {
      PlaceAddsWraps(m, Bound, e.binds.init, k);
      WrapStays(m.bound, e, k);
    } else if e.Parameterize? {
      PlaceAllAddsWraps(m, Consumed, e.pairs, k);
      TransformAddsWraps(m, e.body, PlaceAll(Consumed, e.pairs, k).1);
    } else {
      PlaceBindsAddsWraps(m, e.binds, k);
      TransformAddsWraps(m, e.body, PlaceBinds(e.binds, k).1);
    }
  }

  lemma {:induction false} PlaceAllAddsWraps(m: Mode, pos: Position, es: Hirs, k: nat)
    requires LiftedAll(m.bound, es) && m.bound <= k
    ensures var (es1, k1) := PlaceAll(pos, es, k);
            LiftedAll(m.bound, es1) && EraseAll(m, es1) == EraseAll(m, es) && k <= k1
    decreases es, 0
  {
    if es.HCons? {
      PlaceAddsWraps(m, pos, es.head, k);
      PlaceAllAddsWraps(m, pos, es.tail, Place(pos, es.head, k).1);
    }
  }

  lemma {:induction false} PlaceBindsAddsWraps(m: Mode, bs: Binds, k: nat)
    requires LiftedBinds(m.bound, bs) && m.bound <= k
    ensures var (bs1, k1) := PlaceBinds(bs, k);
            LiftedBinds(m.bound, bs1) && EraseBinds(m, bs1) == EraseBinds(m, bs) && k <= k1
    decreases bs, 0
  {
    if bs.BCons? {
      PlaceAddsWraps(m, Bound, bs.init, k);
      PlaceBindsAddsWraps(m, bs.rest, Place(Bound, bs.init, k).1);
    }
  }

  lemma {:induction false} PlaceClausesAddsWraps(m: Mode, cl: Clauses, k: nat)
    requires LiftedClauses(m.bound, cl) && m.bound <= k
    ensures var (cl1, k1) := PlaceClauses(cl, k);
            LiftedClauses(m.bound, cl1) && EraseClauses(m, cl1) == EraseClauses(m, cl) && k <= k1
    decreases cl, 0
  {
    match cl
    case NoElse =>
    case Else(e) => PlaceAddsWraps(m, Consumed, e, k);
    case Clause(c, b, rest) =>
      PlaceAddsWraps(m, Consumed, c, k);
      var k1 := Place(Consumed, c, k).1;
      PlaceAddsWraps(m, Consumed, b, k1);
      PlaceClausesAddsWraps(m, rest, Place(Consumed, b, k1).1);
  }

  lemma {:induction false} PlaceArmsAddsWraps(m: Mode, arms: Arms, k: nat)
    requires LiftedArms(m.bound, arms) && m.bound <= k
    ensures var (arms1, k1) := PlaceArms(arms, k);
            LiftedArms(m.bound, arms1) && EraseArms(m, arms1) == EraseArms(m, arms) && k <= k1
    decreases arms, 0
  {
    if arms.ACons? {
      var k1 := k;
      if arms.guard.Some? {
        PlaceAddsWraps(m, Consumed, arms.guard.value, k);
        k1 := Place(Consumed, arms.guard.value, k).1;
      }
      PlaceAddsWraps(m, Consumed, arms.body, k1);
      PlaceArmsAddsWraps(m, arms.rest, Place(Consumed, arms.body, k1).1);
    }
  }
}
