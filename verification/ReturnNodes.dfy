/**
  Where the return pass puts its returns, by constructors: around no marked call, no
  `recur`, no poison node and no other return, and around none of the compounds that
  hand tail position on.
*/
module ReturnNodes {
  import opened HirSyntax
  import opened HirNodes
  import opened ReturnMint

  ghost predicate ReturnFree(e: Hir) {
    forall path, x :: At(e, path, x) ==> !x.Return?
  }

  /** What a return may stand around. */
  predicate Leaf(e: Hir) {
    match e
    case Call(_, _, _, isTail) => !isTail
    case Strict(op, _) => !op.Recur?
    case Poison => false
    case Return(_) => false
    case If(_, _, _) => false
    case Cond(_) => false
    case Match(_, _) => false
    case Begin(_) => false
    case Block(_, _) => false
    case Break(_, _) => false
    case Let(_, _, _) => false
    case _ => true
  }

  lemma {:induction false} AllKid(es: Hirs, blocks: set<BlockId>, i: nat)
    requires i < |Listed(WalkAll(es, blocks))|
    ensures i < |Listed(es)| && Listed(WalkAll(es, blocks))[i] == Walk(Listed(es)[i], false, blocks)
    decreases es
  {
    hide Walk;
    if i > 0 { AllKid(es.tail, blocks, i - 1); }
  }

  lemma {:induction false} SeqKid(es: Hirs, inTail: bool, blocks: set<BlockId>, i: nat) returns (t: bool)
    requires i < |Listed(WalkSeq(es, inTail, blocks))|
    ensures i < |Listed(es)| && Listed(WalkSeq(es, inTail, blocks))[i] == Walk(Listed(es)[i], t, blocks)
    decreases es
  {
    hide Walk;
    if i > 0 { t := SeqKid(es.tail, inTail, blocks, i - 1); } else { t := inTail && es.tail.HNil?; }
  }

  lemma {:induction false} InitKid(bs: Binds, blocks: set<BlockId>, i: nat)
    requires i < |Inits(WalkBinds(bs, blocks))|
    ensures i < |Inits(bs)| && Inits(WalkBinds(bs, blocks))[i] == Walk(Inits(bs)[i], false, blocks)
    decreases bs
  {
    hide Walk;
    if i > 0 { InitKid(bs.rest, blocks, i - 1); }
  }

  lemma {:induction false} InitCount(bs: Binds, blocks: set<BlockId>)
    ensures |Inits(WalkBinds(bs, blocks))| == |Inits(bs)|
  {
    hide Walk;
    if bs.BCons? { InitCount(bs.rest, blocks); }
  }

  lemma {:induction false} AllCount(es: Hirs, blocks: set<BlockId>)
    ensures |Listed(WalkAll(es, blocks))| == |Listed(es)|
  {
    hide Walk;
    if es.HCons? { AllCount(es.tail, blocks); }
  }

  lemma {:induction false} ClauseKid(cl: Clauses, inTail: bool, blocks: set<BlockId>, i: nat) returns (t: bool)
    requires i < |ClauseParts(WalkClauses(cl, inTail, blocks))|
    ensures i < |ClauseParts(cl)|
    ensures ClauseParts(WalkClauses(cl, inTail, blocks))[i] == Walk(ClauseParts(cl)[i], t, blocks)
    decreases cl
  {
    hide Walk;
    if cl.Clause? && i > 1 {
      t := ClauseKid(cl.rest, inTail, blocks, i - 2);
    } else {
      t := inTail && !(cl.Clause? && i == 0);
    }
  }

  lemma {:induction false} ArmKid(arms: Arms, inTail: bool, blocks: set<BlockId>, i: nat) returns (t: bool)
    requires i < |ArmParts(WalkArms(arms, inTail, blocks))|
    ensures i < |ArmParts(arms)| && ArmParts(WalkArms(arms, inTail, blocks))[i] == Walk(ArmParts(arms)[i], t, blocks)
    decreases arms
  {
    hide Walk;
    var n := if arms.guard.Some? then 2 else 1;
    if i >= n { t := ArmKid(arms.rest, inTail, blocks, i - n); } else { t := inTail && i == n - 1; }
  }

  /** Below a node, the walk goes on from the node's own children. */
  lemma KidIsWalked(e: Hir, inTail: bool, blocks: set<BlockId>, i: nat) returns (t: bool, bs: set<BlockId>)
    requires i < |Kids(WalkInto(e, inTail, blocks))|
    ensures i < |Kids(e)| && Kids(WalkInto(e, inTail, blocks))[i] == Walk(Kids(e)[i], t, bs)
  {
    hide Walk, WalkAll, WalkSeq, WalkBinds, WalkClauses, WalkArms;
    t, bs := false, blocks;
    match e
    case Lambda(_, _, _, _) => t, bs := true, {};
    case If(_, _, _) => t := inTail && i > 0;
    case Begin(es) => t := SeqKid(es, inTail, blocks, i);
    case Let(_, binds, _) =>
      InitCount(binds, blocks);
      if i < |Inits(binds)| { InitKid(binds, blocks, i); } else { t := inTail; }
    case Loop(binds, _) => InitCount(binds, blocks); if i < |Inits(binds)| { InitKid(binds, blocks, i); }
    case Cond(cl) => t := ClauseKid(cl, inTail, blocks, i);
    case Match(_, arms) => if i > 0 { t := ArmKid(arms, inTail, blocks, i - 1); }
    case Logic(_, es) => AllKid(es, blocks, i);
    case Block(id, es) =>
      if inTail { bs := blocks + {id}; t := SeqKid(es, true, bs, i); } else { AllKid(es, blocks, i); }
    case Break(id, _) => t := id in blocks;
    case Call(args, _, _, _) => AllCount(args, blocks); if i < |Listed(args)| { AllKid(args, blocks, i); }
    case Parameterize(ps, _) => AllCount(ps, blocks); if i < |Listed(ps)| { AllKid(ps, blocks, i); }
    case Strict(_, args) => AllKid(args, blocks, i);
    case _ =>
  }

  lemma KidReturnFree(e: Hir, i: nat)
    requires ReturnFree(e) && i < |Kids(e)|
    ensures ReturnFree(Kids(e)[i]) && !e.Return?
  {
    hide Kids;
    assert At(e, [], e);
    forall path, x | At(Kids(e)[i], path, x) ensures !x.Return? {
      assert ([i] + path)[1..] == path;
      assert At(e, [i] + path, x);
    }
  }

  /** Every return in the walk of a tree without returns stands around a leaf. */
  lemma {:induction false} ReturnsStandAroundLeaves(e: Hir, inTail: bool, blocks: set<BlockId>, path: seq<nat>, x: Hir)
    requires ReturnFree(e) && At(Walk(e, inTail, blocks), path, x) && x.Return?
    ensures Leaf(x.value)
    decreases |path|
  {
    hide WalkInto, Kids, ReturnFree;
    var inner := WalkInto(e, inTail, blocks);
    assert !e.Return? by { RootReturnFree(e); }
    SameForm(e, inTail, blocks);
    if inTail && IsWrappable(e) {
      if path != [] {
        ReturnKid(inner);
        if path[1..] != [] { BelowReturns(e, inTail, blocks, path[1..], x); }
      }
    } else if path != [] {
      BelowReturns(e, inTail, blocks, path, x);
    }
  }

  lemma {:induction false} BelowReturns(e: Hir, inTail: bool, blocks: set<BlockId>, path: seq<nat>, x: Hir)
    requires ReturnFree(e) && path != [] && At(WalkInto(e, inTail, blocks), path, x) && x.Return?
    ensures Leaf(x.value)
    decreases |path|, 0
  {
    hide WalkInto, Kids, ReturnFree;
    var i := path[0];
    var t, bs := KidIsWalked(e, inTail, blocks, i);
    KidReturnFree(e, i);
    ReturnsStandAroundLeaves(Kids(e)[i], t, bs, path[1..], x);
  }

  lemma RootReturnFree(e: Hir)
    requires ReturnFree(e)
    ensures !e.Return?
  {
    assert At(e, [], e);
  }

  lemma ReturnKid(v: Hir)
    ensures Kids(Return(v)) == [v]
  {}

  /** The walk changes what is inside a node, not what node it is. */
  lemma SameForm(e: Hir, inTail: bool, blocks: set<BlockId>)
    ensures var w := WalkInto(e, inTail, blocks);
            && (!e.Return? ==> !w.Return?) && (IsWrappable(e) ==> Leaf(w))
  {}
}
