/**
  What a pass over a tree does to the tree's code objects. Every statement is about
  the code object a given lambda id names, so one induction serves a whole table.
*/
module PassCode {
  import opened HirSyntax
  import opened HirShape
  import opened Erasure
  import opened TailCall
  import opened ReturnMint

  // ----- erasing a tree erases its code objects -------------------------------------------------

  ghost predicate FnErases(m: Mode, c: Code, d: Code, id: nat) {
    && (id in c <==> id in d)
    && (id in c ==> LiftedFn(m.bound, c[id]) && d[id] == EraseFn(m, c[id]))
  }

  lemma {:induction false} CodeErases(m: Mode, e: Hir, id: nat)
    requires Lifted(m.bound, e)
    ensures FnErases(m, CodeOf(e), CodeOf(Erase(m, e)), id)
    decreases e, 1
  {
    match e
    case Lit(_) =>
    case Var(_) =>
    case Poison =>
    case Let(_, _, _) => CodeErasesBinder(m, e, id);
    case Loop(_, _) => CodeErasesBinder(m, e, id);
    case Lambda(_, _, _, body) => CodeErases(m, body, id);
    case Call(args, _, f, _) => CodeAllErases(m, args, id); CodeErases(m, f, id);
    case If(_, _, _) => CodeErasesBranch(m, e, id);
    case Cond(_) => CodeErasesBranch(m, e, id);
    case Begin(es) => CodeAllErases(m, es, id);
    case Block(_, es) => CodeAllErases(m, es, id);
    case Break(_, v) => CodeErases(m, v, id);
    case While(_, _) => CodeErasesBranch(m, e, id);
    case Match(_, _) => CodeErasesBranch(m, e, id);
    case Logic(_, es) => CodeAllErases(m, es, id);
    case Parameterize(_, _) => CodeErasesBinder(m, e, id);
    case Strict(_, args) => CodeAllErases(m, args, id);
    case Return(v) => CodeErases(m, v, id);
  }

  lemma {:induction false} CodeErasesBinder(m: Mode, e: Hir, id: nat)
    requires Lifted(m.bound, e)
    requires e.Let? || e.Loop? || e.Parameterize?
    ensures FnErases(m, CodeOf(e), CodeOf(Erase(m, e)), id)
    decreases e, 0
  {
    match e
    case Let(_, bs, body) =>
      if IsWrap(m.bound, e) {
        CodeErases(m, bs.init, id);
        assert CodeOfBinds(BNil) == map[] && CodeOf(Var(bs.binding)) == map[];
      } else {
        CodeBindsErases(m, bs, id);
        CodeErases(m, body, id);
      }
    case Loop(bs, body) => CodeBindsErases(m, bs, id); CodeErases(m, body, id);
    case Parameterize(ps, body) => CodeAllErases(m, ps, id); CodeErases(m, body, id);
  }

  lemma {:induction false} CodeErasesBranch(m: Mode, e: Hir, id: nat)
    requires Lifted(m.bound, e)
    requires e.If? || e.Cond? || e.Match? || e.While?
    ensures FnErases(m, CodeOf(e), CodeOf(Erase(m, e)), id)
    decreases e, 0
  {
    match e
    case If(c, t, f) => CodeErases(m, c, id); CodeErases(m, t, id); CodeErases(m, f, id);
    case Cond(cl) => CodeClausesErases(m, cl, id);
    case Match(v, arms) => CodeErases(m, v, id); CodeArmsErases(m, arms, id);
    case While(c, body) => CodeErases(m, c, id); CodeErases(m, body, id);
  }

  lemma {:induction false} CodeAllErases(m: Mode, es: Hirs, id: nat)
    requires LiftedAll(m.bound, es)
    ensures FnErases(m, CodeOfAll(es), CodeOfAll(EraseAll(m, es)), id)
    decreases es
  {
    if es.HCons? { CodeErases(m, es.head, id); CodeAllErases(m, es.tail, id); }
  }

  lemma {:induction false} CodeBindsErases(m: Mode, bs: Binds, id: nat)
    requires LiftedBinds(m.bound, bs)
    ensures FnErases(m, CodeOfBinds(bs), CodeOfBinds(EraseBinds(m, bs)), id)
    decreases bs
  {
    if bs.BCons? { CodeErases(m, bs.init, id); CodeBindsErases(m, bs.rest, id); }
  }

  lemma {:induction false} CodeClausesErases(m: Mode, cl: Clauses, id: nat)
    requires LiftedClauses(m.bound, cl)
    ensures FnErases(m, CodeOfClauses(cl), CodeOfClauses(EraseClauses(m, cl)), id)
    decreases cl
  {
    match cl
    case NoElse =>
    case Else(e) => CodeErases(m, e, id);
    case Clause(c, b, rest) => CodeErases(m, c, id); CodeErases(m, b, id); CodeClausesErases(m, rest, id);
  }

  lemma {:induction false} CodeArmsErases(m: Mode, arms: Arms, id: nat)
    requires LiftedArms(m.bound, arms)
    ensures FnErases(m, CodeOfArms(arms), CodeOfArms(EraseArms(m, arms)), id)
    decreases arms
  {
    if arms.ACons? {
      if arms.guard.Some? { CodeErases(m, arms.guard.value, id); }
      CodeErases(m, arms.body, id);
      CodeArmsErases(m, arms.rest, id);
    }
  }

  // ----- a tail-safe tree has tail-safe code objects ----------------------------------------------

  ghost predicate FnSafe(code: Code, id: nat) {
    id in code ==> TailSafe(true, code[id].body, true, {})
  }

  lemma {:induction false} CodeSafeAt(e: Hir, inTail: bool, blocks: set<BlockId>, id: nat)
    requires TailSafe(true, e, inTail, blocks)
    ensures FnSafe(CodeOf(e), id)
    decreases e, 1
  {
    match e
    case Lit(_) =>
    case Var(_) =>
    case Poison =>
    case Let(_, _, _) => CodeSafeAtBinder(e, inTail, blocks, id);
    case Loop(_, _) => CodeSafeAtBinder(e, inTail, blocks, id);
    case Lambda(_, _, _, body) => CodeSafeAt(body, true, {}, id);
    case Call(args, _, f, _) => CodeAllSafeAt(args, blocks, id); CodeSafeAt(f, false, blocks, id);
    case If(_, _, _) => CodeSafeAtBranch(e, inTail, blocks, id);
    case Cond(_) => CodeSafeAtBranch(e, inTail, blocks, id);
    case Begin(es) => CodeSeqSafeAt(es, inTail, blocks, id);
    case Block(b, es) => CodeSeqSafeAt(es, inTail, if inTail then blocks + {b} else blocks, id);
    case Break(b, v) => CodeSafeAt(v, b in blocks, blocks, id);
    case While(_, _) => CodeSafeAtBranch(e, inTail, blocks, id);
    case Match(_, _) => CodeSafeAtBranch(e, inTail, blocks, id);
    case Logic(_, es) => CodeSeqSafeAt(es, inTail, blocks, id);
    case Parameterize(_, _) => CodeSafeAtBinder(e, inTail, blocks, id);
    case Strict(_, args) => CodeAllSafeAt(args, blocks, id);
    case Return(v) => CodeSafeAt(v, inTail, blocks, id);
  }

  lemma {:induction false} CodeSafeAtBinder(e: Hir, inTail: bool, blocks: set<BlockId>, id: nat)
    requires TailSafe(true, e, inTail, blocks)
    requires e.Let? || e.Loop? || e.Parameterize?
    ensures FnSafe(CodeOf(e), id)
    decreases e, 0
  {
    match e
    case Let(_, bs, body) => CodeBindsSafeAt(bs, blocks, id); CodeSafeAt(body, inTail, blocks, id);
    case Loop(bs, body) => CodeBindsSafeAt(bs, blocks, id); CodeSafeAt(body, false, blocks, id);
    case Parameterize(ps, body) => CodeAllSafeAt(ps, blocks, id); CodeSafeAt(body, false, blocks, id);
  }

  lemma {:induction false} CodeSafeAtBranch(e: Hir, inTail: bool, blocks: set<BlockId>, id: nat)
    requires TailSafe(true, e, inTail, blocks)
    requires e.If? || e.Cond? || e.Match? || e.While?
    ensures FnSafe(CodeOf(e), id)
    decreases e, 0
  {
    match e
    case If(c, t, f) =>
      CodeSafeAt(c, false, blocks, id);
      CodeSafeAt(t, inTail, blocks, id);
      CodeSafeAt(f, inTail, blocks, id);
    case Cond(cl) => CodeClausesSafeAt(cl, inTail, blocks, id);
    case Match(v, arms) => CodeSafeAt(v, false, blocks, id); CodeArmsSafeAt(arms, inTail, blocks, id);
    case While(c, body) => CodeSafeAt(c, false, blocks, id); CodeSafeAt(body, false, blocks, id);
  }

  lemma {:induction false} CodeAllSafeAt(es: Hirs, blocks: set<BlockId>, id: nat)
    requires AllSafe(true, es, blocks)
    ensures FnSafe(CodeOfAll(es), id)
    decreases es
  {
    if es.HCons? { CodeSafeAt(es.head, false, blocks, id); CodeAllSafeAt(es.tail, blocks, id); }
  }

  lemma {:induction false} CodeSeqSafeAt(es: Hirs, inTail: bool, blocks: set<BlockId>, id: nat)
    requires SeqSafe(true, es, inTail, blocks)
    ensures FnSafe(CodeOfAll(es), id)
    decreases es
  {
    if es.HCons? {
      CodeSafeAt(es.head, inTail && es.tail.HNil?, blocks, id);
      CodeSeqSafeAt(es.tail, inTail, blocks, id);
    }
  }

  lemma {:induction false} CodeBindsSafeAt(bs: Binds, blocks: set<BlockId>, id: nat)
    requires BindsSafe(true, bs, blocks)
    ensures FnSafe(CodeOfBinds(bs), id)
    decreases bs
  {
    if bs.BCons? { CodeSafeAt(bs.init, false, blocks, id); CodeBindsSafeAt(bs.rest, blocks, id); }
  }

  lemma {:induction false} CodeClausesSafeAt(cl: Clauses, inTail: bool, blocks: set<BlockId>, id: nat)
    requires ClausesSafe(true, cl, inTail, blocks)
    ensures FnSafe(CodeOfClauses(cl), id)
    decreases cl
  {
    match cl
    case NoElse =>
    case Else(e) => CodeSafeAt(e, inTail, blocks, id);
    case Clause(c, b, rest) =>
      CodeSafeAt(c, false, blocks, id);
      CodeSafeAt(b, inTail, blocks, id);
      CodeClausesSafeAt(rest, inTail, blocks, id);
  }

  lemma {:induction false} CodeArmsSafeAt(arms: Arms, inTail: bool, blocks: set<BlockId>, id: nat)
    requires ArmsSafe(true, arms, inTail, blocks)
    ensures FnSafe(CodeOfArms(arms), id)
    decreases arms
  {
    if arms.ACons? {
      if arms.guard.Some? { CodeSafeAt(arms.guard.value, false, blocks, id); }
      CodeSafeAt(arms.body, inTail, blocks, id);
      CodeArmsSafeAt(arms.rest, inTail, blocks, id);
    }
  }

  // ----- the return pass walks every code object as a function body ---------------------------------

  ghost predicate FnWalked(c: Code, d: Code, id: nat) {
    && (id in c <==> id in d)
    && (id in c ==> Shaped(false, {}, c[id].body) && d[id].body == WrapTailReturns(c[id].body))
  }

  lemma {:induction false} CodeWalked(open: set<BlockId>, e: Hir, inTail: bool, blocks: set<BlockId>, id: nat)
    requires Shaped(false, open, e)
    ensures FnWalked(CodeOf(e), CodeOf(Walk(e, inTail, blocks)), id)
    decreases e, 2
  {
    CodeWalkedInto(open, e, inTail, blocks, id);
  }

  lemma {:induction false} CodeWalkedInto(open: set<BlockId>, e: Hir, inTail: bool, blocks: set<BlockId>, id: nat)
    requires Shaped(false, open, e)
    ensures FnWalked(CodeOf(e), CodeOf(WalkInto(e, inTail, blocks)), id)
    decreases e, 1
  {
    hide Walk;
    match e
    case Lit(_) =>
    case Var(_) =>
    case Poison =>
    case Let(_, _, _) => CodeWalkedIntoBinder(open, e, inTail, blocks, id);
    case Loop(_, _) => CodeWalkedIntoBinder(open, e, inTail, blocks, id);
    case Lambda(_, _, _, body) => CodeWalked({}, body, true, {}, id);
    case Call(args, _, f, _) => CodeAllWalked(open, args, blocks, id); CodeWalked(open, f, false, blocks, id);
    case If(_, _, _) => CodeWalkedIntoBranch(open, e, inTail, blocks, id);
    case Cond(_) => CodeWalkedIntoBranch(open, e, inTail, blocks, id);
    case Begin(es) => CodeSeqWalked(open, es, inTail, blocks, id);
    case Block(b, es) =>
      CodeSeqWalked(open + {b}, es, inTail, if inTail then blocks + {b} else blocks, id);
      SeqIsAll(es, blocks);
    case Break(b, v) => CodeWalked(open, v, b in blocks, blocks, id);
    case While(_, _) => CodeWalkedIntoBranch(open, e, inTail, blocks, id);
    case Match(_, _) => CodeWalkedIntoBranch(open, e, inTail, blocks, id);
    case Logic(_, es) => CodeAllWalked(open, es, blocks, id);
    case Parameterize(_, _) => CodeWalkedIntoBinder(open, e, inTail, blocks, id);
    case Strict(_, args) => CodeAllWalked(open, args, blocks, id);
  }

  lemma {:induction false} CodeWalkedIntoBinder(open: set<BlockId>, e: Hir, inTail: bool, blocks: set<BlockId>, id: nat)
    requires Shaped(false, open, e)
    requires e.Let? || e.Loop? || e.Parameterize?
    ensures FnWalked(CodeOf(e), CodeOf(WalkInto(e, inTail, blocks)), id)
    decreases e, 0
  {
    hide Walk;
    match e
    case Let(_, bs, body) => CodeBindsWalked(open, bs, blocks, id); CodeWalked(open, body, inTail, blocks, id);
    case Loop(bs, body) => CodeBindsWalked(open, bs, blocks, id); CodeWalked(open, body, false, blocks, id);
    case Parameterize(ps, body) => CodeAllWalked(open, ps, blocks, id); CodeWalked(open, body, false, blocks, id);
  }

  lemma {:induction false} CodeWalkedIntoBranch(open: set<BlockId>, e: Hir, inTail: bool, blocks: set<BlockId>, id: nat)
    requires Shaped(false, open, e)
    requires e.If? || e.Cond? || e.Match? || e.While?
    ensures FnWalked(CodeOf(e), CodeOf(WalkInto(e, inTail, blocks)), id)
    decreases e, 0
  {
    hide Walk;
    match e
    case If(c, t, f) =>
      CodeWalked(open, c, false, blocks, id);
      CodeWalked(open, t, inTail, blocks, id);
      CodeWalked(open, f, inTail, blocks, id);
    case Cond(cl) => CodeClausesWalked(open, cl, inTail, blocks, id);
    case Match(v, arms) => CodeWalked(open, v, false, blocks, id); CodeArmsWalked(open, arms, inTail, blocks, id);
    case While(c, body) => CodeWalked(open, c, false, blocks, id); CodeWalked(open, body, false, blocks, id);
  }

  lemma {:induction false} CodeAllWalked(open: set<BlockId>, es: Hirs, blocks: set<BlockId>, id: nat)
    requires ShapedAll(false, open, es)
    ensures FnWalked(CodeOfAll(es), CodeOfAll(WalkAll(es, blocks)), id)
    decreases es, 0
  {
    hide Walk;
    if es.HCons? { CodeWalked(open, es.head, false, blocks, id); CodeAllWalked(open, es.tail, blocks, id); }
  }

  lemma {:induction false} CodeSeqWalked(open: set<BlockId>, es: Hirs, inTail: bool, blocks: set<BlockId>, id: nat)
    requires ShapedAll(false, open, es)
    ensures FnWalked(CodeOfAll(es), CodeOfAll(WalkSeq(es, inTail, blocks)), id)
    decreases es, 0
  {
    hide Walk;
    if es.HCons? {
      CodeWalked(open, es.head, inTail && es.tail.HNil?, blocks, id);
      CodeSeqWalked(open, es.tail, inTail, blocks, id);
    }
  }

  lemma {:induction false} CodeBindsWalked(open: set<BlockId>, bs: Binds, blocks: set<BlockId>, id: nat)
    requires ShapedBinds(false, open, bs)
    ensures FnWalked(CodeOfBinds(bs), CodeOfBinds(WalkBinds(bs, blocks)), id)
    decreases bs, 0
  {
    hide Walk;
    if bs.BCons? { CodeWalked(open, bs.init, false, blocks, id); CodeBindsWalked(open, bs.rest, blocks, id); }
  }

  lemma {:induction false} CodeClausesWalked(open: set<BlockId>, cl: Clauses, inTail: bool, blocks: set<BlockId>,
          id: nat)
    requires ShapedClauses(false, open, cl)
    ensures FnWalked(CodeOfClauses(cl), CodeOfClauses(WalkClauses(cl, inTail, blocks)), id)
    decreases cl, 0
  {
    hide Walk;
    match cl
    case NoElse =>
    case Else(e) => CodeWalked(open, e, inTail, blocks, id);
    case Clause(c, b, rest) =>
      CodeWalked(open, c, false, blocks, id);
      CodeWalked(open, b, inTail, blocks, id);
      CodeClausesWalked(open, rest, inTail, blocks, id);
  }

  lemma {:induction false} CodeArmsWalked(open: set<BlockId>, arms: Arms, inTail: bool, blocks: set<BlockId>, id: nat)
    requires ShapedArms(false, open, arms)
    ensures FnWalked(CodeOfArms(arms), CodeOfArms(WalkArms(arms, inTail, blocks)), id)
    decreases arms, 0
  {
    hide Walk;
    if arms.ACons? {
      if arms.guard.Some? { CodeWalked(open, arms.guard.value, false, blocks, id); }
      CodeWalked(open, arms.body, inTail, blocks, id);
      CodeArmsWalked(open, arms.rest, inTail, blocks, id);
    }
  }
}
