/**
  How the three passes move through a tree: marking marks exactly the tail calls,
  marking and the return pass keep what the tree erases to, marking and the lift
  keep its shape, and each pass acts on a code object as it acts on the whole.
*/
module PassShapes {
  import opened HirSyntax
  import opened HirShape
  import opened Erasure
  import opened TailCall
  import opened Anf
  import opened ReturnMint

  // ----- marking marks exactly the tail calls, and keeps the shape ----------------------------

  lemma {:induction false} MarkSafe(ret: bool, open: set<BlockId>, e: Hir, inTail: bool, blocks: set<BlockId>)
    requires blocks <= open && Shaped(ret, open, e)
    ensures TailSafe(true, Mark(e, inTail, blocks), inTail, blocks) && Shaped(ret, open, Mark(e, inTail, blocks))
    decreases e, 1
  {
    match e
    case Lit(_) =>
    case Var(_) =>
    case Poison =>
    case Let(_, _, _) => MarkSafeBranch(ret, open, e, inTail, blocks);
    case Loop(_, _) => MarkSafeBranch(ret, open, e, inTail, blocks);
    case Lambda(_, _, _, body) => MarkSafe(ret, {}, body, true, {});
    case Call(args, _, f, _) => MarkAllSafe(ret, open, args, blocks); MarkSafe(ret, open, f, false, blocks);
    case If(_, _, _) => MarkSafeBranch(ret, open, e, inTail, blocks);
    case Cond(_) => MarkSafeBranch(ret, open, e, inTail, blocks);
    case Begin(es) => MarkSeqSafe(ret, open, es, inTail, blocks);
    case Block(id, es) =>
      if inTail {
        MarkSeqSafe(ret, open + {id}, es, true, blocks + {id});
      } else {
        MarkSeqSafe(ret, open + {id}, es, false, blocks);
        MarkSeqIsAll(es, blocks);
      }
    case Break(id, v) => MarkSafe(ret, open, v, id in blocks, blocks);
    case While(_, _) => MarkSafeBranch(ret, open, e, inTail, blocks);
    case Match(_, _) => MarkSafeBranch(ret, open, e, inTail, blocks);
    case Logic(_, es) => MarkSeqSafe(ret, open, es, inTail, blocks);
    case Parameterize(ps, body) => MarkAllSafe(ret, open, ps, blocks); MarkSafe(ret, open, body, false, blocks);
    case Strict(_, args) => MarkAllSafe(ret, open, args, blocks);
    case Return(v) => MarkSafe(ret, open, v, inTail, blocks);
  }

  lemma {:induction false} MarkSafeBranch(ret: bool, open: set<BlockId>, e: Hir, inTail: bool, blocks: set<BlockId>)
    requires blocks <= open && Shaped(ret, open, e)
    requires e.If? || e.Cond? || e.Match? || e.While? || e.Loop? || e.Let?
    ensures TailSafe(true, Mark(e, inTail, blocks), inTail, blocks) && Shaped(ret, open, Mark(e, inTail, blocks))
    decreases e, 0
  {
    match e
    case If(c, t, f) =>
      MarkSafe(ret, open, c, false, blocks);
      MarkSafe(ret, open, t, inTail, blocks);
      MarkSafe(ret, open, f, inTail, blocks);
    case Cond(cl) => MarkClausesSafe(ret, open, cl, inTail, blocks);
    case Match(v, arms) => MarkSafe(ret, open, v, false, blocks); MarkArmsSafe(ret, open, arms, inTail, blocks);
    case While(c, body) => MarkSafe(ret, open, c, false, blocks); MarkSafe(ret, open, body, false, blocks);
    case Loop(bs, body) => MarkBindsSafe(ret, open, bs, blocks); MarkSafe(ret, open, body, false, blocks);
    case Let(_, bs, body) => MarkBindsSafe(ret, open, bs, blocks); MarkSafe(ret, open, body, inTail, blocks);
  }

  lemma {:induction false} MarkSeqIsAll(es: Hirs, blocks: set<BlockId>)
    ensures MarkSeq(es, false, blocks) == MarkAll(es, blocks)
  {
    if es.HCons? { MarkSeqIsAll(es.tail, blocks); }
  }

  lemma {:induction false} MarkAllSafe(ret: bool, open: set<BlockId>, es: Hirs, blocks: set<BlockId>)
    requires blocks <= open && ShapedAll(ret, open, es)
    ensures AllSafe(true, MarkAll(es, blocks), blocks) && ShapedAll(ret, open, MarkAll(es, blocks))
    decreases es
  {
    if es.HCons? { MarkSafe(ret, open, es.head, false, blocks); MarkAllSafe(ret, open, es.tail, blocks); }
  }

  lemma {:induction false} MarkSeqSafe(ret: bool, open: set<BlockId>, es: Hirs, inTail: bool, blocks: set<BlockId>)
    requires blocks <= open && ShapedAll(ret, open, es)
    ensures SeqSafe(true, MarkSeq(es, inTail, blocks), inTail, blocks)
    ensures ShapedAll(ret, open, MarkSeq(es, inTail, blocks))
    decreases es
  {
    if es.HCons? {
      MarkSafe(ret, open, es.head, inTail && es.tail.HNil?, blocks);
      MarkSeqSafe(ret, open, es.tail, inTail, blocks);
    }
  }

  lemma {:induction false} MarkBindsSafe(ret: bool, open: set<BlockId>, bs: Binds, blocks: set<BlockId>)
    requires blocks <= open && ShapedBinds(ret, open, bs)
    ensures BindsSafe(true, MarkBinds(bs, blocks), blocks) && ShapedBinds(ret, open, MarkBinds(bs, blocks))
    decreases bs
  {
    if bs.BCons? { MarkSafe(ret, open, bs.init, false, blocks); MarkBindsSafe(ret, open, bs.rest, blocks); }
  }

  lemma {:induction false} MarkClausesSafe(ret: bool, open: set<BlockId>, cl: Clauses, inTail: bool,
          blocks: set<BlockId>)
    requires blocks <= open && ShapedClauses(ret, open, cl)
    ensures ClausesSafe(true, MarkClauses(cl, inTail, blocks), inTail, blocks)
    ensures ShapedClauses(ret, open, MarkClauses(cl, inTail, blocks))
    decreases cl
  {
    match cl
    case NoElse =>
    case Else(e) => MarkSafe(ret, open, e, inTail, blocks);
    case Clause(c, b, rest) =>
      MarkSafe(ret, open, c, false, blocks);
      MarkSafe(ret, open, b, inTail, blocks);
      MarkClausesSafe(ret, open, rest, inTail, blocks);
  }

  lemma {:induction false} MarkArmsSafe(ret: bool, open: set<BlockId>, arms: Arms, inTail: bool, blocks: set<BlockId>)
    requires blocks <= open && ShapedArms(ret, open, arms)
    ensures ArmsSafe(true, MarkArms(arms, inTail, blocks), inTail, blocks)
    ensures ShapedArms(ret, open, MarkArms(arms, inTail, blocks))
    decreases arms
  {
    if arms.ACons? {
      if arms.guard.Some? { MarkSafe(ret, open, arms.guard.value, false, blocks); }
      MarkSafe(ret, open, arms.body, inTail, blocks);
      MarkArmsSafe(ret, open, arms.rest, inTail, blocks);
    }
  }

  // ----- marking changes tail flags only ------------------------------------------------------

  lemma {:induction false} MarkErases(m: Mode, e: Hir, inTail: bool, blocks: set<BlockId>)
    requires Lifted(m.bound, e)
    ensures Lifted(m.bound, Mark(e, inTail, blocks))
    ensures m.unmark ==> Erase(m, Mark(e, inTail, blocks)) == Erase(m, e)
    decreases e, 1
  {
    match e
    case Lit(_) =>
    case Var(_) =>
    case Poison =>
    case Let(_, _, _) => MarkErasesBinder(m, e, inTail, blocks);
    case Loop(_, _) => MarkErasesBinder(m, e, inTail, blocks);
    case Lambda(_, _, _, body) => MarkErases(m, body, true, {});
    case Call(_, _, _, _) => MarkErasesSeq(m, e, inTail, blocks);
    case If(_, _, _) => MarkErasesBranch(m, e, inTail, blocks);
    case Cond(_) => MarkErasesBranch(m, e, inTail, blocks);
    case Begin(_) => MarkErasesSeq(m, e, inTail, blocks);
    case Block(_, _) => MarkErasesSeq(m, e, inTail, blocks);
    case Break(id, v) => MarkErases(m, v, id in blocks, blocks);
    case While(_, _) => MarkErasesBranch(m, e, inTail, blocks);
    case Match(_, _) => MarkErasesBranch(m, e, inTail, blocks);
    case Logic(_, _) => MarkErasesSeq(m, e, inTail, blocks);
    case Parameterize(_, _) => MarkErasesBinder(m, e, inTail, blocks);
    case Strict(_, _) => MarkErasesSeq(m, e, inTail, blocks);
    case Return(v) => MarkErases(m, v, inTail, blocks);
  }

  lemma {:induction false} MarkErasesBinder(m: Mode, e: Hir, inTail: bool, blocks: set<BlockId>)
    requires Lifted(m.bound, e)
    requires e.Let? || e.Loop? || e.Parameterize?
    ensures Lifted(m.bound, Mark(e, inTail, blocks))
    ensures m.unmark ==> Erase(m, Mark(e, inTail, blocks)) == Erase(m, e)
    decreases e, 0
  {
    match e
    case Let(_, bs, body) =>
      if IsWrap(m.bound, e) {
        MarkErases(m, bs.init, false, blocks);
        assert MarkBinds(BNil, blocks) == BNil;
        assert Mark(Var(bs.binding), inTail, blocks) == Var(bs.binding);
        assert IsWrap(m.bound, Mark(e, inTail, blocks));
      } else {
        MarkBindsErases(m, bs, blocks);
        MarkErases(m, body, inTail, blocks);
      }
    case Loop(bs, body) => MarkBindsErases(m, bs, blocks); MarkErases(m, body, false, blocks);
    case Parameterize(ps, body) =>
      MarkSeqErases(m, ps, false, blocks);
      MarkSeqIsAll(ps, blocks);
      MarkErases(m, body, false, blocks);
  }

  lemma {:induction false} MarkErasesBranch(m: Mode, e: Hir, inTail: bool, blocks: set<BlockId>)
    requires Lifted(m.bound, e)
    requires e.If? || e.Cond? || e.Match? || e.While?
    ensures Lifted(m.bound, Mark(e, inTail, blocks))
    ensures m.unmark ==> Erase(m, Mark(e, inTail, blocks)) == Erase(m, e)
    decreases e, 0
  {
    match e
    case If(c, t, f) =>
      MarkErases(m, c, false, blocks);
      MarkErases(m, t, inTail, blocks);
      MarkErases(m, f, inTail, blocks);
    case Cond(cl) => MarkClausesErases(m, cl, inTail, blocks);
    case Match(v, arms) => MarkErases(m, v, false, blocks); MarkArmsErases(m, arms, inTail, blocks);
    case While(c, body) => MarkErases(m, c, false, blocks); MarkErases(m, body, false, blocks);
  }

  lemma {:induction false} MarkErasesSeq(m: Mode, e: Hir, inTail: bool, blocks: set<BlockId>)
    requires Lifted(m.bound, e)
    requires e.Begin? || e.Block? || e.Logic? || e.Call? || e.Strict?
    ensures Lifted(m.bound, Mark(e, inTail, blocks))
    ensures m.unmark ==> Erase(m, Mark(e, inTail, blocks)) == Erase(m, e)
    decreases e, 0
  {
    match e
    case Begin(es) => MarkSeqErases(m, es, inTail, blocks);
    case Block(id, es) =>
      MarkSeqErases(m, es, inTail, if inTail then blocks + {id} else blocks);
      MarkSeqIsAll(es, blocks);
    case Logic(_, es) => MarkSeqErases(m, es, inTail, blocks);
    case Call(args, _, f, _) =>
      MarkSeqErases(m, args, false, blocks);
      MarkSeqIsAll(args, blocks);
      MarkErases(m, f, false, blocks);
    case Strict(_, args) => MarkSeqErases(m, args, false, blocks); MarkSeqIsAll(args, blocks);
  }

  lemma {:induction false} MarkSeqErases(m: Mode, es: Hirs, inTail: bool, blocks: set<BlockId>)
    requires LiftedAll(m.bound, es)
    ensures LiftedAll(m.bound, MarkSeq(es, inTail, blocks))
    ensures m.unmark ==> EraseAll(m, MarkSeq(es, inTail, blocks)) == EraseAll(m, es)
    decreases es
  {
    if es.HCons? {
      MarkErases(m, es.head, inTail && es.tail.HNil?, blocks);
      MarkSeqErases(m, es.tail, inTail, blocks);
    }
  }

  lemma {:induction false} MarkBindsErases(m: Mode, bs: Binds, blocks: set<BlockId>)
    requires LiftedBinds(m.bound, bs)
    ensures LiftedBinds(m.bound, MarkBinds(bs, blocks))
    ensures m.unmark ==> EraseBinds(m, MarkBinds(bs, blocks)) == EraseBinds(m, bs)
    decreases bs
  {
    if bs.BCons? { MarkErases(m, bs.init, false, blocks); MarkBindsErases(m, bs.rest, blocks); }
  }

  lemma {:induction false} MarkClausesErases(m: Mode, cl: Clauses, inTail: bool, blocks: set<BlockId>)
    requires LiftedClauses(m.bound, cl)
    ensures LiftedClauses(m.bound, MarkClauses(cl, inTail, blocks))
    ensures m.unmark ==> EraseClauses(m, MarkClauses(cl, inTail, blocks)) == EraseClauses(m, cl)
    decreases cl
  {
    match cl
    case NoElse =>
    case Else(e) => MarkErases(m, e, inTail, blocks);
    case Clause(c, b, rest) =>
      MarkErases(m, c, false, blocks);
      MarkErases(m, b, inTail, blocks);
      MarkClausesErases(m, rest, inTail, blocks);
  }

  lemma {:induction false} MarkArmsErases(m: Mode, arms: Arms, inTail: bool, blocks: set<BlockId>)
    requires LiftedArms(m.bound, arms)
    ensures LiftedArms(m.bound, MarkArms(arms, inTail, blocks))
    ensures m.unmark ==> EraseArms(m, MarkArms(arms, inTail, blocks)) == EraseArms(m, arms)
    decreases arms
  {
    if arms.ACons? {
      if arms.guard.Some? { MarkErases(m, arms.guard.value, false, blocks); }
      MarkErases(m, arms.body, inTail, blocks);
      MarkArmsErases(m, arms.rest, inTail, blocks);
    }
  }

  // ----- the lift keeps the shape -------------------------------------------------------------

  lemma {:induction false} NamingShaped(ret: bool, open: set<BlockId>, e: Hir, k: nat)
    requires Shaped(ret, open, e)
    ensures Shaped(ret, open, NameIfAlloc(e, k).0) && Shaped(ret, open, NameTail(e, k).0)
    decreases e
  {
    if Propagates(e) {
      NamingShaped(ret, open, e.body, k);
    } else {
      assert ShapedBinds(ret, open, BNil);
      assert Shaped(ret, open, Var(Binding(k, false)));
    }
  }

  lemma {:induction false} NameOwedShaped(ret: bool, open: set<BlockId>, e: Hir, k: nat)
    requires Shaped(ret, open, e)
    ensures Shaped(ret, open, NameOwedRelease(e, k).0)
    decreases e
  {
    if Propagates(e) { NameOwedShaped(ret, open, e.body, k); } else { NamingShaped(ret, open, e, k); }
  }

  lemma {:induction false} PlaceShaped(ret: bool, open: set<BlockId>, pos: Position, e: Hir, k: nat)
    requires Shaped(ret, open, e)
    ensures Shaped(ret, open, Place(pos, e, k).0)
    decreases e, 1
  {
    TransformShaped(ret, open, e, k);
    var (inner, k1) := Transform(e, k);
    NamingShaped(ret, open, inner, k1);
  }

  lemma {:induction false} ReturningShaped(ret: bool, open: set<BlockId>, e: Hir, k: nat)
    requires Shaped(ret, open, e)
    ensures Shaped(ret, open, Returning(e, k).0)
    decreases e, 1
  {
    TransformShaped(ret, open, e, k);
    var (inner, k1) := Transform(e, k);
    NameOwedShaped(ret, open, inner, k1);
  }

  lemma {:induction false} TransformShaped(ret: bool, open: set<BlockId>, e: Hir, k: nat)
    requires Shaped(ret, open, e)
    ensures Shaped(ret, open, Transform(e, k).0)
    decreases e, 0
  {
    hide Place, Returning;
    match e
    case Lit(_) =>
    case Var(_) =>
    case Poison =>
    case Let(_, bs, body) => PlaceBindsShaped(ret, open, bs, k); TransformShaped(ret, open, body, PlaceBinds(bs, k).1);
    case Loop(bs, body) => PlaceBindsShaped(ret, open, bs, k); TransformShaped(ret, open, body, PlaceBinds(bs, k).1);
    case Lambda(_, _, _, body) => ReturningShaped(ret, {}, body, k);
    case Call(args, _, f, _) =>
      PlaceShaped(ret, open, Consumed, f, k);
      PlaceAllShaped(ret, open, Consumed, args, Place(Consumed, f, k).1);
    case If(c, t, f) =>
      var k1 := Place(Consumed, c, k).1;
      PlaceShaped(ret, open, Consumed, c, k);
      PlaceShaped(ret, open, Consumed, t, k1);
      PlaceShaped(ret, open, Consumed, f, Place(Consumed, t, k1).1);
    case Cond(cl) => PlaceClausesShaped(ret, open, cl, k);
    case Begin(es) => PlaceAllShaped(ret, open, Consumed, es, k);
    case Block(id, es) => PlaceAllShaped(ret, open + {id}, Consumed, es, k);
    case Break(_, v) => PlaceShaped(ret, open, Consumed, v, k);
    case While(c, body) =>
      PlaceShaped(ret, open, Consumed, c, k);
      PlaceShaped(ret, open, Consumed, body, Place(Consumed, c, k).1);
    case Match(v, arms) =>
      PlaceShaped(ret, open, Consumed, v, k);
      PlaceArmsShaped(ret, open, arms, Place(Consumed, v, k).1);
    case Logic(_, es) => PlaceAllShaped(ret, open, Consumed, es, k);
    case Parameterize(ps, body) =>
      PlaceAllShaped(ret, open, Consumed, ps, k);
      TransformShaped(ret, open, body, PlaceAll(Consumed, ps, k).1);
    case Strict(op, args) => PlaceAllShaped(ret, open, PositionOf(op), args, k);
    case Return(v) => PlaceShaped(ret, open, Consumed, v, k);
  }

  lemma {:induction false} PlaceAllShaped(ret: bool, open: set<BlockId>, pos: Position, es: Hirs, k: nat)
    requires ShapedAll(ret, open, es)
    ensures ShapedAll(ret, open, PlaceAll(pos, es, k).0)
    decreases es, 0
  {
    if es.HCons? {
      PlaceShaped(ret, open, pos, es.head, k);
      PlaceAllShaped(ret, open, pos, es.tail, Place(pos, es.head, k).1);
    }
  }

  lemma {:induction false} PlaceBindsShaped(ret: bool, open: set<BlockId>, bs: Binds, k: nat)
    requires ShapedBinds(ret, open, bs)
    ensures ShapedBinds(ret, open, PlaceBinds(bs, k).0)
    decreases bs, 0
  {
    if bs.BCons? {
      PlaceShaped(ret, open, Bound, bs.init, k);
      PlaceBindsShaped(ret, open, bs.rest, Place(Bound, bs.init, k).1);
    }
  }

  lemma {:induction false} PlaceClausesShaped(ret: bool, open: set<BlockId>, cl: Clauses, k: nat)
    requires ShapedClauses(ret, open, cl)
    ensures ShapedClauses(ret, open, PlaceClauses(cl, k).0)
    decreases cl, 0
  {
    match cl
    case NoElse =>
    case Else(e) => PlaceShaped(ret, open, Consumed, e, k);
    case Clause(c, b, rest) =>
      var k1 := Place(Consumed, c, k).1;
      PlaceShaped(ret, open, Consumed, c, k);
      PlaceShaped(ret, open, Consumed, b, k1);
      PlaceClausesShaped(ret, open, rest, Place(Consumed, b, k1).1);
  }

  lemma {:induction false} PlaceArmsShaped(ret: bool, open: set<BlockId>, arms: Arms, k: nat)
    requires ShapedArms(ret, open, arms)
    ensures ShapedArms(ret, open, PlaceArms(arms, k).0)
    decreases arms, 0
  {
    if arms.ACons? {
      var k1 := k;
      if arms.guard.Some? {
        PlaceShaped(ret, open, Consumed, arms.guard.value, k);
        k1 := Place(Consumed, arms.guard.value, k).1;
      }
      PlaceShaped(ret, open, Consumed, arms.body, k1);
      PlaceArmsShaped(ret, open, arms.rest, Place(Consumed, arms.body, k1).1);
    }
  }

  // ----- the return pass adds returns only ------------------------------------------------------

  lemma {:induction false} WalkErases(m: Mode, e: Hir, inTail: bool, blocks: set<BlockId>)
    requires Lifted(m.bound, e)
    ensures Lifted(m.bound, Walk(e, inTail, blocks)) && Erase(m, Walk(e, inTail, blocks)) == Erase(m, e)
    decreases e, 2
  {
    WalkIntoErases(m, e, inTail, blocks);
  }

  lemma {:induction false} WalkIntoErases(m: Mode, e: Hir, inTail: bool, blocks: set<BlockId>)
    requires Lifted(m.bound, e)
    ensures Lifted(m.bound, WalkInto(e, inTail, blocks)) && Erase(m, WalkInto(e, inTail, blocks)) == Erase(m, e)
    decreases e, 1
  {
    hide Walk;
    match e
    case Lit(_) =>
    case Var(_) =>
    case Poison =>
    case Let(_, _, _) => WalkIntoErasesBinder(m, e, inTail, blocks);
    case Loop(_, _) => WalkIntoErasesBinder(m, e, inTail, blocks);
    case Lambda(_, _, _, body) => WalkErases(m, body, true, {});
    case Call(_, _, _, _) => WalkIntoErasesSeq(m, e, inTail, blocks);
    case If(_, _, _) => WalkIntoErasesBranch(m, e, inTail, blocks);
    case Cond(_) => WalkIntoErasesBranch(m, e, inTail, blocks);
    case Begin(_) => WalkIntoErasesSeq(m, e, inTail, blocks);
    case Block(_, _) => WalkIntoErasesSeq(m, e, inTail, blocks);
    case Break(id, v) => WalkErases(m, v, id in blocks, blocks);
    case While(_, _) => WalkIntoErasesBranch(m, e, inTail, blocks);
    case Match(_, _) => WalkIntoErasesBranch(m, e, inTail, blocks);
    case Logic(_, _) => WalkIntoErasesSeq(m, e, inTail, blocks);
    case Parameterize(_, _) => WalkIntoErasesBinder(m, e, inTail, blocks);
    case Strict(_, _) => WalkIntoErasesSeq(m, e, inTail, blocks);
    case Return(v) => WalkErases(m, v, false, blocks);
  }

  lemma {:induction false} WalkIntoErasesBinder(m: Mode, e: Hir, inTail: bool, blocks: set<BlockId>)
    requires Lifted(m.bound, e)
    requires e.Let? || e.Loop? || e.Parameterize?
    ensures Lifted(m.bound, WalkInto(e, inTail, blocks)) && Erase(m, WalkInto(e, inTail, blocks)) == Erase(m, e)
    decreases e, 0
  {
    hide Walk;
    match e
    case Let(_, bs, body) =>
      if IsWrap(m.bound, e) {
        WalkErases(m, bs.init, false, blocks);
        WalkedWrap(m.bound, e, inTail, blocks);
      } else {
        WalkBindsErases(m, bs, blocks);
        WalkErases(m, body, inTail, blocks);
      }
    case Loop(bs, body) => WalkBindsErases(m, bs, blocks); WalkErases(m, body, false, blocks);
    case Parameterize(ps, body) => WalkAllErases(m, ps, blocks); WalkErases(m, body, false, blocks);
  }

  lemma {:induction false} WalkIntoErasesBranch(m: Mode, e: Hir, inTail: bool, blocks: set<BlockId>)
    requires Lifted(m.bound, e)
    requires e.If? || e.Cond? || e.Match? || e.While?
    ensures Lifted(m.bound, WalkInto(e, inTail, blocks)) && Erase(m, WalkInto(e, inTail, blocks)) == Erase(m, e)
    decreases e, 0
  {
    hide Walk;
    match e
    case If(c, t, f) =>
      WalkErases(m, c, false, blocks);
      WalkErases(m, t, inTail, blocks);
      WalkErases(m, f, inTail, blocks);
    case Cond(cl) => WalkClausesErases(m, cl, inTail, blocks);
    case Match(v, arms) => WalkErases(m, v, false, blocks); WalkArmsErases(m, arms, inTail, blocks);
    case While(c, body) => WalkErases(m, c, false, blocks); WalkErases(m, body, false, blocks);
  }

  lemma {:induction false} WalkIntoErasesSeq(m: Mode, e: Hir, inTail: bool, blocks: set<BlockId>)
    requires Lifted(m.bound, e)
    requires e.Begin? || e.Block? || e.Logic? || e.Call? || e.Strict?
    ensures Lifted(m.bound, WalkInto(e, inTail, blocks)) && Erase(m, WalkInto(e, inTail, blocks)) == Erase(m, e)
    decreases e, 0
  {
    hide Walk;
    match e
    case Begin(es) => WalkSeqErases(m, es, inTail, blocks);
    case Block(id, es) =>
      WalkSeqErases(m, es, inTail, if inTail then blocks + {id} else blocks);
      SeqIsAll(es, blocks);
    case Logic(_, es) => WalkAllErases(m, es, blocks);
    case Call(args, _, f, _) => WalkAllErases(m, args, blocks); WalkErases(m, f, false, blocks);
    case Strict(_, args) => WalkAllErases(m, args, blocks);
  }

  /** The return pass turns the body of a wrap into a `Return` of its name, at most. */
  lemma WalkedWrap(bound: nat, e: Hir, inTail: bool, blocks: set<BlockId>)
    requires IsWrap(bound, e)
    ensures var out := WalkInto(e, inTail, blocks);
            IsWrap(bound, out) && out.binds.init == Walk(e.binds.init, false, blocks)
  {
    var b := e.binds.binding;
    assert WalkBinds(BNil, blocks) == BNil;
    assert Walk(Var(b), inTail, blocks) == if inTail then Return(Var(b)) else Var(b);
    assert Walk(Var(b), false, blocks) == Var(b);
    assert WalkInto(Return(Var(b)), inTail, blocks) == Return(Var(b));
    assert Walk(Return(Var(b)), inTail, blocks) == Return(Var(b));
  }

  lemma {:induction false} WalkAllErases(m: Mode, es: Hirs, blocks: set<BlockId>)
    requires LiftedAll(m.bound, es)
    ensures LiftedAll(m.bound, WalkAll(es, blocks)) && EraseAll(m, WalkAll(es, blocks)) == EraseAll(m, es)
    decreases es, 0
  {
    hide Walk;
    if es.HCons? { WalkErases(m, es.head, false, blocks); WalkAllErases(m, es.tail, blocks); }
  }

  lemma {:induction false} WalkSeqErases(m: Mode, es: Hirs, inTail: bool, blocks: set<BlockId>)
    requires LiftedAll(m.bound, es)
    ensures LiftedAll(m.bound, WalkSeq(es, inTail, blocks))
    ensures EraseAll(m, WalkSeq(es, inTail, blocks)) == EraseAll(m, es)
    decreases es, 0
  {
    hide Walk;
    if es.HCons? {
      WalkErases(m, es.head, inTail && es.tail.HNil?, blocks);
      WalkSeqErases(m, es.tail, inTail, blocks);
    }
  }

  lemma {:induction false} WalkBindsErases(m: Mode, bs: Binds, blocks: set<BlockId>)
    requires LiftedBinds(m.bound, bs)
    ensures LiftedBinds(m.bound, WalkBinds(bs, blocks)) && EraseBinds(m, WalkBinds(bs, blocks)) == EraseBinds(m, bs)
    decreases bs, 0
  {
    hide Walk;
    if bs.BCons? { WalkErases(m, bs.init, false, blocks); WalkBindsErases(m, bs.rest, blocks); }
  }

  lemma {:induction false} WalkClausesErases(m: Mode, cl: Clauses, inTail: bool, blocks: set<BlockId>)
    requires LiftedClauses(m.bound, cl)
    ensures LiftedClauses(m.bound, WalkClauses(cl, inTail, blocks))
    ensures EraseClauses(m, WalkClauses(cl, inTail, blocks)) == EraseClauses(m, cl)
    decreases cl, 0
  {
    hide Walk;
    match cl
    case NoElse =>
    case Else(e) => WalkErases(m, e, inTail, blocks);
    case Clause(c, b, rest) =>
      WalkErases(m, c, false, blocks);
      WalkErases(m, b, inTail, blocks);
      WalkClausesErases(m, rest, inTail, blocks);
  }

  lemma {:induction false} WalkArmsErases(m: Mode, arms: Arms, inTail: bool, blocks: set<BlockId>)
    requires LiftedArms(m.bound, arms)
    ensures LiftedArms(m.bound, WalkArms(arms, inTail, blocks))
    ensures EraseArms(m, WalkArms(arms, inTail, blocks)) == EraseArms(m, arms)
    decreases arms, 0
  {
    hide Walk;
    if arms.ACons? {
      if arms.guard.Some? { WalkErases(m, arms.guard.value, false, blocks); }
      WalkErases(m, arms.body, inTail, blocks);
      WalkArmsErases(m, arms.rest, inTail, blocks);
    }
  }
}
