/**
  What the lift leaves behind: a normal form it does not change again, and names
  drawn from the arena one after the other, each bound exactly once.
*/
module AnfForm {
  import opened HirSyntax
  import opened Anf

  // ----- what has to be named, by constructor ---------------------------------------------

  function Patterns(arms: Arms): seq<Pattern> {
    match arms
    case ANil => []
    case ACons(p, _, _, rest) => [p] + Patterns(rest)
  }

  /** The nodes that make a heap value: lambdas, calls, `eval`, `emit`, allocating intrinsics and matches. */
  predicate Heap(e: Hir) {
    || e.Lambda? || e.Call?
    || (e.Strict? && (e.op.RunDatum? || e.op.Emit? || (e.op.Intrinsic? && e.op.allocates)))
    || (e.Match? && exists i :: 0 <= i < |Patterns(e.arms)| && Patterns(e.arms)[i].allocates)
  }

  lemma AllocatesIsHeap(e: Hir)
    ensures Allocates(e) <==> Heap(e)
  {
    if e.Match? { AnyIsSome(e.arms); }
  }

  lemma {:induction false} AnyIsSome(arms: Arms)
    ensures AnyAllocates(arms) <==> exists i :: 0 <= i < |Patterns(arms)| && Patterns(arms)[i].allocates
  {
    if arms.ACons? {
      var ps, rest := Patterns(arms), Patterns(arms.rest);
      AnyIsSome(arms.rest);
      if AnyAllocates(arms.rest) {
        var i :| 0 <= i < |rest| && rest[i].allocates;
        assert ps[i + 1].allocates;
      }
      if arms.pattern.allocates { assert ps[0].allocates; }
      if i :| 0 <= i < |ps| && ps[i].allocates {
        assert i > 0 ==> rest[i - 1].allocates;
      }
    }
  }

  lemma {:induction false} PatternsStay(arms: Arms, k: nat)
    ensures Patterns(PlaceArms(arms, k).0) == Patterns(arms)
    decreases arms
  {
    hide Place;
    if arms.ACons? {
      var k1 := if arms.guard.Some? then Place(Consumed, arms.guard.value, k).1 else k;
      PatternsStay(arms.rest, Place(Consumed, arms.body, k1).1);
    }
  }

  /** The lift keeps what kind of node each initializer is. */
  lemma HeapStays(e: Hir, k: nat)
    ensures Heap(Place(Bound, e, k).0) == Heap(e)
  {
    if e.Match? { PatternsStay(e.arms, Place(Consumed, e.value, k).1); }
  }

  // ----- normal form ----------------------------------------------------------------------

  /** Following propagating tails ends at a node that allocates nothing. */
  predicate Named(e: Hir) {
    if Propagates(e) then Named(e.body) else !Allocates(e)
  }

  /** Following propagating tails ends at a result the frame would have to release. */
  predicate Owes(e: Hir) {
    if Propagates(e) then Owes(e.body) else OwesRelease(e)
  }

  predicate Settled(pos: Position, e: Hir) {
    match pos
    case Consumed => Named(e)
    case Bound => Propagates(e) ==> Named(e.body)
    case Through => true
  }

  /** Every child is settled where it stands, and no lambda body owes a release. */
  predicate Normal(e: Hir) {
    match e
    case Lit(_) => true
    case Var(_) => true
    case Poison => true
    case Let(_, bs, body) => NormalBinds(bs) && Normal(body)
    case Loop(bs, body) => NormalBinds(bs) && Normal(body)
    case Lambda(_, _, _, body) => Normal(body) && !Owes(body)
    case Call(args, _, f, _) => Normal(f) && Named(f) && NormalAll(Consumed, args)
    case If(c, t, f) => Normal(c) && Named(c) && Normal(t) && Named(t) && Normal(f) && Named(f)
    case Cond(cl) => NormalClauses(cl)
    case Begin(es) => NormalAll(Consumed, es)
    case Block(_, es) => NormalAll(Consumed, es)
    case Break(_, v) => Normal(v) && Named(v)
    case While(c, body) => Normal(c) && Named(c) && Normal(body) && Named(body)
    case Match(v, arms) => Normal(v) && Named(v) && NormalArms(arms)
    case Logic(_, es) => NormalAll(Consumed, es)
    case Parameterize(ps, body) => NormalAll(Consumed, ps) && Normal(body)
    case Strict(op, args) => NormalAll(PositionOf(op), args)
    case Return(v) => Normal(v) && Named(v)
  }

  predicate NormalAll(pos: Position, es: Hirs)
    decreases es
  {
    match es
    case HNil => true
    case HCons(e, rest) => Normal(e) && Settled(pos, e) && NormalAll(pos, rest)
  }

  predicate NormalBinds(bs: Binds) {
    match bs
    case BNil => true
    case BCons(_, e, rest) => Normal(e) && Settled(Bound, e) && NormalBinds(rest)
  }

  predicate NormalClauses(cl: Clauses) {
    match cl
    case NoElse => true
    case Else(e) => Normal(e) && Named(e)
    case Clause(c, b, rest) => Normal(c) && Named(c) && Normal(b) && Named(b) && NormalClauses(rest)
  }

  predicate NormalArms(arms: Arms) {
    match arms
    case ANil => true
    case ACons(_, g, b, rest) =>
      (g.Some? ==> Normal(g.value) && Named(g.value)) && Normal(b) && Named(b) && NormalArms(rest)
  }

  lemma {:induction false} NameIfAllocNormal(e: Hir, k: nat)
    requires Normal(e)
    ensures Normal(NameIfAlloc(e, k).0) && Named(NameIfAlloc(e, k).0)
    decreases e, 1
  {
    if Propagates(e) {
      if !IsAnfWrapped(e) { NameTailNormal(e, k); }
    } else if Allocates(e) {
      assert NormalBinds(BCons(Binding(k, false), e, BNil)) by { assert NormalBinds(BNil); }
      assert Normal(Var(Binding(k, false)));
    }
  }

  lemma {:induction false} NameTailNormal(e: Hir, k: nat)
    requires Normal(e)
    ensures Normal(NameTail(e, k).0) && Settled(Bound, NameTail(e, k).0)
    ensures Propagates(e) ==> Named(NameTail(e, k).0)
    decreases e, 0
  {
    if Propagates(e) { NameIfAllocNormal(e.body, k); }
  }

  lemma {:induction false} NameOwedNormal(e: Hir, k: nat)
    requires Normal(e)
    ensures Normal(NameOwedRelease(e, k).0) && !Owes(NameOwedRelease(e, k).0)
  {
    if Propagates(e) {
      NameOwedNormal(e.body, k);
    } else {
      NameIfAllocNormal(e, k);
    }
  }

  lemma {:induction false} PlaceNormal(pos: Position, e: Hir, k: nat)
    ensures Normal(Place(pos, e, k).0) && Settled(pos, Place(pos, e, k).0)
    decreases e, 1
  {
    TransformNormal(e, k);
    var (inner, k1) := Transform(e, k);
    NameIfAllocNormal(inner, k1);
    NameTailNormal(inner, k1);
  }

  lemma {:induction false} ReturningNormal(e: Hir, k: nat)
    ensures Normal(Returning(e, k).0) && !Owes(Returning(e, k).0)
    decreases e, 1
  {
    TransformNormal(e, k);
    var (inner, k1) := Transform(e, k);
    NameOwedNormal(inner, k1);
  }

  /** The lift's output is in normal form, whatever it was given. */
  lemma {:induction false} TransformNormal(e: Hir, k: nat)
    ensures Normal(Transform(e, k).0)
    decreases e, 0
  {
    hide Place, Returning;
    match e
    case Lit(_) =>
    case Var(_) =>
    case Poison =>
    case Let(_, bs, body) => PlaceBindsNormal(bs, k); TransformNormal(body, PlaceBinds(bs, k).1);
    case Loop(bs, body) => PlaceBindsNormal(bs, k); TransformNormal(body, PlaceBinds(bs, k).1);
    case Lambda(_, _, _, body) => ReturningNormal(body, k);
    case Call(args, _, f, _) =>
      PlaceNormal(Consumed, f, k);
      PlaceAllNormal(Consumed, args, Place(Consumed, f, k).1);
    case If(c, t, f) =>
      var k1 := Place(Consumed, c, k).1;
      PlaceNormal(Consumed, c, k);
      PlaceNormal(Consumed, t, k1);
      PlaceNormal(Consumed, f, Place(Consumed, t, k1).1);
    case Cond(cl) => PlaceClausesNormal(cl, k);
    case Begin(es) => PlaceAllNormal(Consumed, es, k);
    case Block(_, es) => PlaceAllNormal(Consumed, es, k);
    case Break(_, v) => PlaceNormal(Consumed, v, k);
    case While(c, body) =>
      PlaceNormal(Consumed, c, k);
      PlaceNormal(Consumed, body, Place(Consumed, c, k).1);
    case Match(v, arms) =>
      PlaceNormal(Consumed, v, k);
      PlaceArmsNormal(arms, Place(Consumed, v, k).1);
    case Logic(_, es) => PlaceAllNormal(Consumed, es, k);
    case Parameterize(ps, body) =>
      PlaceAllNormal(Consumed, ps, k);
      TransformNormal(body, PlaceAll(Consumed, ps, k).1);
    case Strict(op, args) => PlaceAllNormal(PositionOf(op), args, k);
    case Return(v) => PlaceNormal(Consumed, v, k);
  }

  lemma {:induction false} PlaceAllNormal(pos: Position, es: Hirs, k: nat)
    ensures NormalAll(pos, PlaceAll(pos, es, k).0)
    decreases es, 0
  {
    if es.HCons? {
      PlaceNormal(pos, es.head, k);
      PlaceAllNormal(pos, es.tail, Place(pos, es.head, k).1);
    }
  }

  lemma {:induction false} PlaceBindsNormal(bs: Binds, k: nat)
    ensures NormalBinds(PlaceBinds(bs, k).0)
    decreases bs, 0
  {
    if bs.BCons? {
      PlaceNormal(Bound, bs.init, k);
      PlaceBindsNormal(bs.rest, Place(Bound, bs.init, k).1);
    }
  }

  lemma {:induction false} PlaceClausesNormal(cl: Clauses, k: nat)
    ensures NormalClauses(PlaceClauses(cl, k).0)
    decreases cl, 0
  {
    match cl
    case NoElse =>
    case Else(e) => PlaceNormal(Consumed, e, k);
    case Clause(c, b, rest) =>
      var k1 := Place(Consumed, c, k).1;
      PlaceNormal(Consumed, c, k);
      PlaceNormal(Consumed, b, k1);
      PlaceClausesNormal(rest, Place(Consumed, b, k1).1);
  }

  lemma {:induction false} PlaceArmsNormal(arms: Arms, k: nat)
    ensures NormalArms(PlaceArms(arms, k).0)
    decreases arms, 0
  {
    if arms.ACons? {
      var k1 := k;
      if arms.guard.Some? {
        PlaceNormal(Consumed, arms.guard.value, k);
        k1 := Place(Consumed, arms.guard.value, k).1;
      }
      PlaceNormal(Consumed, arms.body, k1);
      PlaceArmsNormal(arms.rest, Place(Consumed, arms.body, k1).1);
    }
  }

  // ----- a normal tree is left alone --------------------------------------------------------

  lemma {:induction false} SettledStays(pos: Position, e: Hir, k: nat)
    requires Settled(pos, e)
    ensures NameAt(pos, e, k) == (e, k)
    decreases e
  {
    if Propagates(e) && !pos.Through? {
      assert Named(e.body);
      SettledStays(Consumed, e.body, k);
      assert NameTail(e, k) == (e, k);
    }
  }

  lemma {:induction false} UnowedStays(e: Hir, k: nat)
    requires !Owes(e)
    ensures NameOwedRelease(e, k) == (e, k)
  {
    if Propagates(e) { UnowedStays(e.body, k); }
  }

  lemma {:induction false} PlaceStays(pos: Position, e: Hir, k: nat)
    requires Normal(e) && Settled(pos, e)
    ensures Place(pos, e, k) == (e, k)
    decreases e, 1
  {
    NormalStays(e, k);
    SettledStays(pos, e, k);
  }

  /** Lifting a tree in normal form changes nothing and makes no name. */
  lemma {:induction false} NormalStays(e: Hir, k: nat)
    requires Normal(e)
    ensures Transform(e, k) == (e, k)
    decreases e, 0
  {
    hide Place;
    match e
    case Lit(_) =>
    case Var(_) =>
    case Poison =>
    case Let(_, bs, body) => BindsStay(bs, k); NormalStays(body, k);
    case Loop(bs, body) => BindsStay(bs, k); NormalStays(body, k);
    case Lambda(_, _, _, body) => NormalStays(body, k); UnowedStays(body, k);
    case Call(args, _, f, _) => PlaceStays(Consumed, f, k); AllStay(Consumed, args, k);
    case If(c, t, f) => PlaceStays(Consumed, c, k); PlaceStays(Consumed, t, k); PlaceStays(Consumed, f, k);
    case Cond(cl) => ClausesStay(cl, k);
    case Begin(es) => AllStay(Consumed, es, k);
    case Block(_, es) => AllStay(Consumed, es, k);
    case Break(_, v) => PlaceStays(Consumed, v, k);
    case While(c, body) => PlaceStays(Consumed, c, k); PlaceStays(Consumed, body, k);
    case Match(v, arms) => PlaceStays(Consumed, v, k); ArmsStay(arms, k);
    case Logic(_, es) => AllStay(Consumed, es, k);
    case Parameterize(ps, body) => AllStay(Consumed, ps, k); NormalStays(body, k);
    case Strict(op, args) => AllStay(PositionOf(op), args, k);
    case Return(v) => PlaceStays(Consumed, v, k);
  }

  lemma {:induction false} AllStay(pos: Position, es: Hirs, k: nat)
    requires NormalAll(pos, es)
    ensures PlaceAll(pos, es, k) == (es, k)
    decreases es, 0
  {
    if es.HCons? { PlaceStays(pos, es.head, k); AllStay(pos, es.tail, k); }
  }

  lemma {:induction false} BindsStay(bs: Binds, k: nat)
    requires NormalBinds(bs)
    ensures PlaceBinds(bs, k) == (bs, k)
    decreases bs, 0
  {
    if bs.BCons? { PlaceStays(Bound, bs.init, k); BindsStay(bs.rest, k); }
  }

  lemma {:induction false} ClausesStay(cl: Clauses, k: nat)
    requires NormalClauses(cl)
    ensures PlaceClauses(cl, k) == (cl, k)
    decreases cl, 0
  {
    match cl
    case NoElse =>
    case Else(e) => PlaceStays(Consumed, e, k);
    case Clause(c, b, rest) => PlaceStays(Consumed, c, k); PlaceStays(Consumed, b, k); ClausesStay(rest, k);
  }

  lemma {:induction false} ArmsStay(arms: Arms, k: nat)
    requires NormalArms(arms)
    ensures PlaceArms(arms, k) == (arms, k)
    decreases arms, 0
  {
    if arms.ACons? {
      if arms.guard.Some? { PlaceStays(Consumed, arms.guard.value, k); }
      PlaceStays(Consumed, arms.body, k);
      ArmsStay(arms.rest, k);
    }
  }

  /** Lifting a lifted unit again is a no-op, whatever the arena has grown to. */
  lemma LiftIsIdempotent(e: Hir, k: nat, j: nat)
    ensures var lifted := Returning(e, k).0; Returning(lifted, j) == (lifted, j)
  {
    ReturningNormal(e, k);
    NormalStays(Returning(e, k).0, j);
    UnowedStays(Returning(e, k).0, j);
  }

  // ----- the names are fresh, and each is bound once -----------------------------------------

  /** How many sites of the tree bind arena index `i`: all of them, or the odd ones, which bind no heap value. */
  function Sites(i: nat, odd: bool, e: Hir): nat {
    match e
    case Lit(_) => 0
    case Var(_) => 0
    case Poison => 0
    case Let(_, bs, body) => SitesBinds(i, odd, bs) + Sites(i, odd, body)
    case Loop(bs, body) => SitesBinds(i, odd, bs) + Sites(i, odd, body)
    case Lambda(_, _, _, body) => Sites(i, odd, body)
    case Call(args, _, f, _) => Sites(i, odd, f) + SitesAll(i, odd, args)
    case If(c, t, f) => Sites(i, odd, c) + Sites(i, odd, t) + Sites(i, odd, f)
    case Cond(cl) => SitesClauses(i, odd, cl)
    case Begin(es) => SitesAll(i, odd, es)
    case Block(_, es) => SitesAll(i, odd, es)
    case Break(_, v) => Sites(i, odd, v)
    case While(c, body) => Sites(i, odd, c) + Sites(i, odd, body)
    case Match(v, arms) => Sites(i, odd, v) + SitesArms(i, odd, arms)
    case Logic(_, es) => SitesAll(i, odd, es)
    case Parameterize(ps, body) => SitesAll(i, odd, ps) + Sites(i, odd, body)
    case Strict(_, args) => SitesAll(i, odd, args)
    case Return(v) => Sites(i, odd, v)
  }

  function SitesAll(i: nat, odd: bool, es: Hirs): nat {
    match es
    case HNil => 0
    case HCons(e, rest) => Sites(i, odd, e) + SitesAll(i, odd, rest)
  }

  function SitesBinds(i: nat, odd: bool, bs: Binds): nat {
    match bs
    case BNil => 0
    case BCons(b, e, rest) =>
      (if b.id == i && !(odd && Heap(e)) then 1 else 0) + Sites(i, odd, e) + SitesBinds(i, odd, rest)
  }

  function SitesClauses(i: nat, odd: bool, cl: Clauses): nat {
    match cl
    case NoElse => 0
    case Else(e) => Sites(i, odd, e)
    case Clause(c, b, rest) => Sites(i, odd, c) + Sites(i, odd, b) + SitesClauses(i, odd, rest)
  }

  function SitesArms(i: nat, odd: bool, arms: Arms): nat {
    match arms
    case ANil => 0
    case ACons(_, g, b, rest) =>
      (if g.Some? then Sites(i, odd, g.value) else 0) + Sites(i, odd, b) + SitesArms(i, odd, rest)
  }

  /** 1 when the arena handed out index `i` while growing from `k` to `k1`. */
  function Drawn(i: nat, k: nat, k1: nat): nat {
    if k <= i < k1 then 1 else 0
  }

  /** Growing the arena from `k` to `k1` took `before` sites of index `i` to `after`; the new ones are not odd. */
  predicate Draws(i: nat, odd: bool, k: nat, before: nat, after: nat, k1: nat) {
    k <= k1 && after == before + if odd then 0 else Drawn(i, k, k1)
  }

  lemma DrawsThen(i: nat, odd: bool, k: nat, a: nat, a1: nat, k1: nat, b: nat, b1: nat, k2: nat)
    requires Draws(i, odd, k, a, a1, k1) && Draws(i, odd, k1, b, b1, k2)
    ensures Draws(i, odd, k, a + b, a1 + b1, k2)
  {}

  lemma {:induction false} NamingDraws(i: nat, odd: bool, e: Hir, k: nat)
    ensures Draws(i, odd, k, Sites(i, odd, e), Sites(i, odd, NameIfAlloc(e, k).0), NameIfAlloc(e, k).1)
    ensures Draws(i, odd, k, Sites(i, odd, e), Sites(i, odd, NameTail(e, k).0), NameTail(e, k).1)
  {
    if Propagates(e) {
      NamingDraws(i, odd, e.body, k);
    } else if Allocates(e) {
      AllocatesIsHeap(e);
      assert SitesBinds(i, odd, BNil) == 0;
      assert Sites(i, odd, Var(Binding(k, false))) == 0;
    }
  }

  lemma {:induction false} NameOwedDraws(i: nat, odd: bool, e: Hir, k: nat)
    ensures Draws(i, odd, k, Sites(i, odd, e), Sites(i, odd, NameOwedRelease(e, k).0), NameOwedRelease(e, k).1)
  {
    if Propagates(e) {
      NameOwedDraws(i, odd, e.body, k);
    } else {
      NamingDraws(i, odd, e, k);
    }
  }

  lemma {:induction false} PlaceDraws(i: nat, odd: bool, pos: Position, e: Hir, k: nat)
    ensures Draws(i, odd, k, Sites(i, odd, e), Sites(i, odd, Place(pos, e, k).0), Place(pos, e, k).1)
    decreases e, 2
  {
    TransformDraws(i, odd, e, k);
    var (inner, k1) := Transform(e, k);
    NamingDraws(i, odd, inner, k1);
  }

  lemma {:induction false} ReturningDraws(i: nat, odd: bool, e: Hir, k: nat)
    ensures Draws(i, odd, k, Sites(i, odd, e), Sites(i, odd, Returning(e, k).0), Returning(e, k).1)
    decreases e, 2
  {
    TransformDraws(i, odd, e, k);
    var (inner, k1) := Transform(e, k);
    NameOwedDraws(i, odd, inner, k1);
  }

  /**
    Growing the arena from `k` to `k1`, the lift binds each index in between at
    exactly one new site, to a node that makes a heap value, and adds no site for any
    other index.
  */
  lemma {:induction false} TransformDraws(i: nat, odd: bool, e: Hir, k: nat)
    ensures Draws(i, odd, k, Sites(i, odd, e), Sites(i, odd, Transform(e, k).0), Transform(e, k).1)
    decreases e, 1
  {
    assert Draws(i, odd, k, 0, 0, k);
    hide Place, Returning, Draws;
    match e
    case Lit(_) =>
    case Var(_) =>
    case Poison =>
    case Let(_, _, _) => TransformBinderDraws(i, odd, e, k);
    case Loop(_, _) => TransformBinderDraws(i, odd, e, k);
    case Parameterize(_, _) => TransformBinderDraws(i, odd, e, k);
    case Lambda(_, _, _, body) => ReturningDraws(i, odd, body, k);
    case Call(_, _, _, _) => TransformPairDraws(i, odd, e, k);
    case While(_, _) => TransformPairDraws(i, odd, e, k);
    case Match(_, _) => TransformPairDraws(i, odd, e, k);
    case If(_, _, _) => TransformIfDraws(i, odd, e, k);
    case Cond(cl) => PlaceClausesDraws(i, odd, cl, k);
    case Begin(es) => PlaceAllDraws(i, odd, Consumed, es, k);
    case Block(_, es) => PlaceAllDraws(i, odd, Consumed, es, k);
    case Break(_, v) => PlaceDraws(i, odd, Consumed, v, k);
    case Logic(_, es) => PlaceAllDraws(i, odd, Consumed, es, k);
    case Strict(op, args) => PlaceAllDraws(i, odd, PositionOf(op), args, k);
    case Return(v) => PlaceDraws(i, odd, Consumed, v, k);
  }

  lemma {:induction false} TransformIfDraws(i: nat, odd: bool, e: Hir, k: nat)
    requires e.If?
    ensures Draws(i, odd, k, Sites(i, odd, e), Sites(i, odd, Transform(e, k).0), Transform(e, k).1)
    decreases e, 0
  {
    hide Place, Returning, Draws;
    var If(c, t, f) := e;
    var (c1, k1) := Place(Consumed, c, k);
    var (t1, k2) := Place(Consumed, t, k1);
    var (f1, k3) := Place(Consumed, f, k2);
    PlaceDraws(i, odd, Consumed, c, k);
    PlaceDraws(i, odd, Consumed, t, k1);
    PlaceDraws(i, odd, Consumed, f, k2);
    DrawsThen(i, odd, k, Sites(i, odd, c), Sites(i, odd, c1), k1, Sites(i, odd, t), Sites(i, odd, t1), k2);
    DrawsThen(i, odd, k, Sites(i, odd, c) + Sites(i, odd, t), Sites(i, odd, c1) + Sites(i, odd, t1), k2,
        Sites(i, odd, f), Sites(i, odd, f1), k3);
  }

  lemma {:induction false} TransformBinderDraws(i: nat, odd: bool, e: Hir, k: nat)
    requires Propagates(e)
    ensures Draws(i, odd, k, Sites(i, odd, e), Sites(i, odd, Transform(e, k).0), Transform(e, k).1)
    decreases e, 0
  {
    hide Place, Returning, Draws;
    if e.Parameterize? {
      var (ps1, k1) := PlaceAll(Consumed, e.pairs, k);
      var (body1, k2) := Transform(e.body, k1);
      PlaceAllDraws(i, odd, Consumed, e.pairs, k);
      TransformDraws(i, odd, e.body, k1);
      DrawsThen(i, odd, k, SitesAll(i, odd, e.pairs), SitesAll(i, odd, ps1), k1, Sites(i, odd, e.body),
          Sites(i, odd, body1), k2);
    } else {
      var (bs1, k1) := PlaceBinds(e.binds, k);
      var (body1, k2) := Transform(e.body, k1);
      PlaceBindsDraws(i, odd, e.binds, k);
      TransformDraws(i, odd, e.body, k1);
      DrawsThen(i, odd, k, SitesBinds(i, odd, e.binds), SitesBinds(i, odd, bs1), k1, Sites(i, odd, e.body),
          Sites(i, odd, body1), k2);
    }
  }

  lemma {:induction false} TransformPairDraws(i: nat, odd: bool, e: Hir, k: nat)
    requires e.Call? || e.While? || e.Match?
    ensures Draws(i, odd, k, Sites(i, odd, e), Sites(i, odd, Transform(e, k).0), Transform(e, k).1)
    decreases e, 0
  {
    hide Place, Returning, Draws;
    match e
    case Call(args, _, f, _) =>
      var (f1, k1) := Place(Consumed, f, k);
      var (args1, k2) := PlaceAll(Consumed, args, k1);
      PlaceDraws(i, odd, Consumed, f, k);
      PlaceAllDraws(i, odd, Consumed, args, k1);
      DrawsThen(i, odd, k, Sites(i, odd, f), Sites(i, odd, f1), k1, SitesAll(i, odd, args), SitesAll(i, odd, args1),
          k2);
    case While(c, body) =>
      var (c1, k1) := Place(Consumed, c, k);
      var (body1, k2) := Place(Consumed, body, k1);
      PlaceDraws(i, odd, Consumed, c, k);
      PlaceDraws(i, odd, Consumed, body, k1);
      DrawsThen(i, odd, k, Sites(i, odd, c), Sites(i, odd, c1), k1, Sites(i, odd, body), Sites(i, odd, body1), k2);
    case Match(v, arms) =>
      var (v1, k1) := Place(Consumed, v, k);
      var (arms1, k2) := PlaceArms(arms, k1);
      PlaceDraws(i, odd, Consumed, v, k);
      PlaceArmsDraws(i, odd, arms, k1);
      DrawsThen(i, odd, k, Sites(i, odd, v), Sites(i, odd, v1), k1, SitesArms(i, odd, arms), SitesArms(i, odd, arms1),
          k2);
  }

  lemma {:induction false} PlaceAllDraws(i: nat, odd: bool, pos: Position, es: Hirs, k: nat)
    ensures Draws(i, odd, k, SitesAll(i, odd, es), SitesAll(i, odd, PlaceAll(pos, es, k).0), PlaceAll(pos, es, k).1)
    decreases es, 0
  {
    if es.HCons? {
      PlaceDraws(i, odd, pos, es.head, k);
      PlaceAllDraws(i, odd, pos, es.tail, Place(pos, es.head, k).1);
    }
  }

  lemma {:induction false} PlaceBindsDraws(i: nat, odd: bool, bs: Binds, k: nat)
    ensures Draws(i, odd, k, SitesBinds(i, odd, bs), SitesBinds(i, odd, PlaceBinds(bs, k).0), PlaceBinds(bs, k).1)
    decreases bs, 0
  {
    if bs.BCons? {
      PlaceDraws(i, odd, Bound, bs.init, k);
      HeapStays(bs.init, k);
      PlaceBindsDraws(i, odd, bs.rest, Place(Bound, bs.init, k).1);
    }
  }

  lemma {:induction false} PlaceClausesDraws(i: nat, odd: bool, cl: Clauses, k: nat)
    ensures Draws(i, odd, k, SitesClauses(i, odd, cl), SitesClauses(i, odd, PlaceClauses(cl, k).0),
              PlaceClauses(cl, k).1)
    decreases cl, 0
  {
    match cl
    case NoElse =>
    case Else(e) => PlaceDraws(i, odd, Consumed, e, k);
    case Clause(c, b, rest) =>
      var k1 := Place(Consumed, c, k).1;
      PlaceDraws(i, odd, Consumed, c, k);
      PlaceDraws(i, odd, Consumed, b, k1);
      PlaceClausesDraws(i, odd, rest, Place(Consumed, b, k1).1);
  }

  lemma {:induction false} PlaceArmsDraws(i: nat, odd: bool, arms: Arms, k: nat)
    ensures Draws(i, odd, k, SitesArms(i, odd, arms), SitesArms(i, odd, PlaceArms(arms, k).0), PlaceArms(arms, k).1)
    decreases arms, 0
  {
    if arms.ACons? {
      var k1 := k;
      if arms.guard.Some? {
        PlaceDraws(i, odd, Consumed, arms.guard.value, k);
        k1 := Place(Consumed, arms.guard.value, k).1;
      }
      PlaceDraws(i, odd, Consumed, arms.body, k1);
      PlaceArmsDraws(i, odd, arms.rest, Place(Consumed, arms.body, k1).1);
    }
  }
}
