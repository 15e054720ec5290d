/**
  What dead binding elimination has to drop, by constructors.

  A node is inert when evaluating it can be seen by nobody; the list of inert nodes
  is the pass's documented one. `EffectFreeIsInert` says that the pass's test is that
  every node of an initializer is inert. So no `let` or `letrec` site is left whose
  name is unread and unflagged and whose initializer is inert throughout
  (`NoDeadSiteIsLeft`), and a function is pure exactly when it is bound once, never
  written, and inert throughout (`PureExactly`).
*/
module DeadNodes {
  import opened HirSyntax
  import opened HirNodes
  import opened Dead
  import opened DeadRank

  // ----- inert nodes ---------------------------------------------------------------------------------------

  /** A call of `b` does nothing: a primitive declared so, or an admitted function, never written. */
  predicate CallsNothing(f: Facts, pure: set<Binding>, b: Binding) {
    && f.info(b).immutable && !f.info(b).mutated
    && if f.info(b).primitive then
         && f.prim(b).Some? && f.prim(b).value.silent && !f.prim(b).value.movesOut
         && (f.prim(b).value.effect == Immediate || f.prim(b).value.effect == Fresh)
       else b in pure
  }

  predicate Inert(f: Facts, pure: set<Binding>, x: Hir) {
    match x
    case Lit(_) => true
    case Var(_) => true
    case Return(_) => true
    case If(_, _, _) => true
    case Cond(_) => true
    case Begin(_) => true
    case Logic(_, _) => true
    case Let(_, _, _) => true
    case Call(_, _, func, _) => f.silent(x) && func.Var? && CallsNothing(f, pure, func.binding)
    case Strict(op, _) => f.silent(x) && op.Intrinsic? && !op.funnel
    case _ => false
  }

  /** Every node of the tree is inert. */
  ghost predicate AllInert(f: Facts, pure: set<Binding>, e: Hir) {
    forall path, x :: At(e, path, x) ==> Inert(f, pure, x)
  }

  predicate EachFree(f: Facts, pure: set<Binding>, es: seq<Hir>) {
    forall i :: 0 <= i < |es| ==> EffectFree(f, pure, es[i])
  }

  lemma {:induction false} ListFree(f: Facts, pure: set<Binding>, es: Hirs)
    ensures EffectFreeAll(f, pure, es) <==> EachFree(f, pure, Listed(es))
    decreases es
  {
    hide EffectFree;
    if es.HCons? {
      ListFree(f, pure, es.tail);
      assert forall i :: 0 <= i < |Listed(es.tail)| ==> Listed(es)[i + 1] == Listed(es.tail)[i];
      assert Listed(es)[0] == es.head;
    }
  }

  lemma {:induction false} InitsFree(f: Facts, pure: set<Binding>, bs: Binds)
    ensures EffectFreeBinds(f, pure, bs) <==> EachFree(f, pure, Inits(bs))
    decreases bs
  {
    hide EffectFree;
    if bs.BCons? {
      InitsFree(f, pure, bs.rest);
      assert forall i :: 0 <= i < |Inits(bs.rest)| ==> Inits(bs)[i + 1] == Inits(bs.rest)[i];
      assert Inits(bs)[0] == bs.init;
    }
  }

  lemma {:induction false} ClausesFree(f: Facts, pure: set<Binding>, cl: Clauses)
    ensures EffectFreeClauses(f, pure, cl) <==> EachFree(f, pure, ClauseParts(cl))
    decreases cl
  {
    hide EffectFree;
    match cl
    case NoElse =>
    case Else(e) => assert ClauseParts(cl)[0] == e;
    case Clause(c, b, rest) =>
      ClausesFree(f, pure, rest);
      assert forall i :: 0 <= i < |ClauseParts(rest)| ==> ClauseParts(cl)[i + 2] == ClauseParts(rest)[i];
      assert ClauseParts(cl)[0] == c && ClauseParts(cl)[1] == b;
  }

  /** The pass's test at a node is the node's own, and its children's. */
  lemma FreeSplits(f: Facts, pure: set<Binding>, e: Hir)
    ensures EffectFree(f, pure, e) <==> Inert(f, pure, e) && EachFree(f, pure, Kids(e))
  {
    var kids := Kids(e);
    match e
    case Return(v) => assert kids[0] == v;
    case If(c, t, els) => assert kids[0] == c && kids[1] == t && kids[2] == els;
    case Cond(cl) => ClausesFree(f, pure, cl); assert kids == ClauseParts(cl);
    case Begin(es) => ListFree(f, pure, es); assert kids == Listed(es);
    case Logic(_, es) => ListFree(f, pure, es); assert kids == Listed(es);
    case Let(_, bs, body) =>
      InitsFree(f, pure, bs);
      LastKid(f, pure, Inits(bs), body);
      assert kids == Inits(bs) + [body];
    case Call(args, _, func, _) =>
      ListFree(f, pure, args);
      LastKid(f, pure, Listed(args), func);
      assert kids == Listed(args) + [func];
    case Strict(_, args) => ListFree(f, pure, args); assert kids == Listed(args);
    case _ =>
  }

  lemma LastKid(f: Facts, pure: set<Binding>, es: seq<Hir>, e: Hir)
    ensures EachFree(f, pure, es + [e]) <==> EachFree(f, pure, es) && EffectFree(f, pure, e)
  {
    hide EffectFree;
    assert forall i :: 0 <= i < |es| ==> (es + [e])[i] == es[i];
    assert (es + [e])[|es|] == e;
  }

  lemma {:induction false} FreeAt(f: Facts, pure: set<Binding>, e: Hir, path: seq<nat>, x: Hir)
    requires EffectFree(f, pure, e) && At(e, path, x)
    ensures Inert(f, pure, x)
    decreases |path|
  {
    hide EffectFree, Kids, Inert;
    FreeSplits(f, pure, e);
    if path != [] { FreeAt(f, pure, Kids(e)[path[0]], path[1..], x); }
  }

  /** An initializer is effect-free exactly when each of its nodes is inert. */
  lemma {:induction false} EffectFreeIsInert(f: Facts, pure: set<Binding>, e: Hir)
    ensures EffectFree(f, pure, e) <==> AllInert(f, pure, e)
    decreases e
  {
    hide EffectFree, Kids, Inert;
    if EffectFree(f, pure, e) {
      forall path, x | At(e, path, x) ensures Inert(f, pure, x) { FreeAt(f, pure, e, path, x); }
    }
    if AllInert(f, pure, e) {
      assert At(e, [], e);
      forall i | 0 <= i < |Kids(e)| ensures EffectFree(f, pure, Kids(e)[i]) {
        forall path, x | At(Kids(e)[i], path, x) ensures Inert(f, pure, x) { Downward(e, i, path, x); }
        KidIsSmaller(e, i);
        EffectFreeIsInert(f, pure, Kids(e)[i]);
      }
      FreeSplits(f, pure, e);
    }
  }

  // ----- the pure functions --------------------------------------------------------------------------------

  /** `b` is bound once in the program, to a lambda that is inert throughout, and never written. */
  ghost predicate InertFunction(f: Facts, sites: seq<Site>, pure: set<Binding>, b: Binding) {
    && f.info(b).immutable && !f.info(b).mutated
    && exists j :: 0 <= j < |sites| && sites[j].0 == b && sites[j].1.Lambda? && AllInert(f, pure, sites[j].1.body)
                   && forall i :: 0 <= i < |sites| && i != j ==> sites[i].0 != b
  }

  lemma {:induction false} CountedIs(sites: seq<Site>, b: Binding, j: nat)
    requires j < |sites| && sites[j].0 == b
    ensures Count(sites, b) == 1 <==> forall i :: 0 <= i < |sites| && i != j ==> sites[i].0 != b
  {
    if Count(sites, b) == 1 {
      forall i | 0 <= i < |sites| && i != j ensures sites[i].0 != b {
        if sites[i].0 == b { OneSite(sites, b, i, j); }
      }
    }
    if forall i :: 0 <= i < |sites| && i != j ==> sites[i].0 != b {
      CountOf(sites, b, j, |sites|);
      assert sites[..|sites|] == sites;
    }
  }

  lemma {:induction false} CountOf(sites: seq<Site>, b: Binding, j: nat, n: nat)
    requires n <= |sites| && j < |sites| && sites[j].0 == b
    requires forall i :: 0 <= i < |sites| && i != j ==> sites[i].0 != b
    ensures Count(sites[..n], b) == if j < n then 1 else 0
    decreases n
  {
    if n > 0 {
      CountOf(sites, b, j, n - 1);
      assert sites[..n][..n - 1] == sites[..n - 1];
    }
  }

  lemma AdmissibleIsInert(f: Facts, sites: seq<Site>, pure: set<Binding>, j: nat)
    requires j < |sites|
    ensures Admissible(f, sites, pure, sites[j]) ==> InertFunction(f, sites, pure, sites[j].0)
  {
    hide EffectFree, AllInert, Count;
    var b := sites[j].0;
    CountedIs(sites, b, j);
    if sites[j].1.Lambda? { EffectFreeIsInert(f, pure, sites[j].1.body); }
  }

  lemma InertIsAdmissible(f: Facts, sites: seq<Site>, pure: set<Binding>, b: Binding) returns (j: nat)
    requires InertFunction(f, sites, pure, b)
    ensures j < |sites| && sites[j].0 == b && Admissible(f, sites, pure, sites[j])
  {
    hide EffectFree, AllInert, Count;
    j :| 0 <= j < |sites| && sites[j].0 == b && sites[j].1.Lambda? && AllInert(f, pure, sites[j].1.body)
         && forall i :: 0 <= i < |sites| && i != j ==> sites[i].0 != b;
    CountedIs(sites, b, j);
    EffectFreeIsInert(f, pure, sites[j].1.body);
  }

  /** The functions the rounds admit are exactly those that are inert given one another, and the fewest such. */
  lemma PureExactly(f: Facts, sites: seq<Site>, order: seq<Binding>)
    requires Ranked(f, sites, order) && ClosedUnder(f, sites, Elements(order))
    ensures forall b :: b in Elements(order) <==> InertFunction(f, sites, Elements(order), b)
    ensures forall all: set<Binding> :: (forall b :: InertFunction(f, sites, all, b) ==> b in all) ==>
            Elements(order) <= all
  {
    hide Admissible, InertFunction, EffectFree;
    var pure := Elements(order);
    forall b ensures b in pure <==> InertFunction(f, sites, pure, b) {
      if b in pure { PureIsInert(f, sites, order, b); }
      if InertFunction(f, sites, pure, b) { var j := InertIsAdmissible(f, sites, pure, b); }
    }
    forall all: set<Binding> | forall b :: InertFunction(f, sites, all, b) ==> b in all ensures pure <= all {
      forall j | 0 <= j < |sites| && Admissible(f, sites, all, sites[j]) ensures sites[j].0 in all {
        AdmissibleIsInert(f, sites, all, j);
      }
      PureSetIsLeast(f, sites, order, all);
    }
  }

  lemma PureIsInert(f: Facts, sites: seq<Site>, order: seq<Binding>, b: Binding)
    requires Ranked(f, sites, order) && b in Elements(order)
    ensures InertFunction(f, sites, Elements(order), b)
  {
    hide InertFunction, EffectFree, Count;
    var i :| 0 <= i < |order| && order[i] == b;
    var before := Elements(order[..i]);
    assert RankedAt(f, sites, order, i);
    var j :| 0 <= j < |sites| && sites[j].0 == b && Admissible(f, sites, before, sites[j]);
    assert before <= Elements(order) by {
      forall x | x in before ensures x in Elements(order) {
        var k :| 0 <= k < i && order[..i][k] == x;
        assert order[k] == x;
      }
    }
    EffectFreeGrows(f, before, Elements(order), sites[j].1.body);
    AdmissibleIsInert(f, sites, Elements(order), j);
  }

  // ----- nothing dead is left ------------------------------------------------------------------------------

  /** A site that is dead: its name unread and unflagged, its initializer no lambda and inert throughout. */
  ghost predicate DeadSite(p: Pass, b: Binding, init: Hir) {
    var info := p.facts.info(b);
    && b !in p.used && !info.synthetic && !info.primitive && !info.mutated && !info.fileScope && !b.boxed
    && !init.Lambda? && AllInert(p.facts, p.pure, init)
  }

  lemma DeadIsEliminable(p: Pass, b: Binding, init: Hir)
    ensures DeadSite(p, b, init) <==> Eliminable(p, b, init)
  {
    hide AllInert, EffectFree;
    EffectFreeIsInert(p.facts, p.pure, init);
  }

  lemma {:induction false} StripListed(p: Pass, es: Hirs)
    ensures |Listed(StripAll(p, es))| == |Listed(es)|
    ensures forall i :: 0 <= i < |Listed(es)| ==> Listed(StripAll(p, es))[i] == Strip(p, Listed(es)[i])
    decreases es
  {
    hide Strip;
    if es.HCons? { StripListed(p, es.tail); }
  }

  lemma {:induction false} StripInits(p: Pass, bs: Binds)
    ensures |Inits(StripLoop(p, bs))| == |Inits(bs)|
    ensures forall i :: 0 <= i < |Inits(bs)| ==> Inits(StripLoop(p, bs))[i] == Strip(p, Inits(bs)[i])
    decreases bs
  {
    hide Strip;
    if bs.BCons? { StripInits(p, bs.rest); }
  }

  lemma {:induction false} StripClauseParts(p: Pass, cl: Clauses)
    ensures |ClauseParts(StripClauses(p, cl))| == |ClauseParts(cl)|
    ensures forall i :: 0 <= i < |ClauseParts(cl)| ==>
            ClauseParts(StripClauses(p, cl))[i] == Strip(p, ClauseParts(cl)[i])
    decreases cl
  {
    hide Strip;
    if cl.Clause? { StripClauseParts(p, cl.rest); }
  }

  lemma {:induction false} StripArmParts(p: Pass, arms: Arms)
    ensures |ArmParts(StripArms(p, arms))| == |ArmParts(arms)|
    ensures forall i :: 0 <= i < |ArmParts(arms)| ==> ArmParts(StripArms(p, arms))[i] == Strip(p, ArmParts(arms)[i])
    decreases arms
  {
    hide Strip;
    if arms.ACons? { StripArmParts(p, arms.rest); }
  }

  /** A site of the stripped list is a site of the list that is not dead, its initializer stripped. */
  lemma {:induction false} LeftPair(p: Pass, bs: Binds, i: nat) returns (j: nat)
    requires i < |Pairs(StripLet(p, bs))|
    ensures j < |Pairs(bs)| && !Eliminable(p, Pairs(bs)[j].0, Pairs(bs)[j].1)
    ensures Pairs(StripLet(p, bs))[i] == (Pairs(bs)[j].0, Strip(p, Pairs(bs)[j].1))
    decreases bs
  {
    hide Strip, Eliminable;
    if Eliminable(p, bs.binding, bs.init) {
      j := LeftPair(p, bs.rest, i);
      j := j + 1;
    } else if i == 0 {
      j := 0;
    } else {
      j := LeftPair(p, bs.rest, i - 1);
      j := j + 1;
    }
  }

  lemma {:induction false} PairsAreInits(bs: Binds)
    ensures |Pairs(bs)| == |Inits(bs)| && forall i :: 0 <= i < |Inits(bs)| ==> Pairs(bs)[i].1 == Inits(bs)[i]
  {
    if bs.BCons? { PairsAreInits(bs.rest); }
  }

  /** What stands under a stripped node is a child of the node, stripped. */
  lemma KidIsStripped(p: Pass, e: Hir, i: nat) returns (j: nat)
    requires i < |Kids(Strip(p, e))|
    ensures j < |Kids(e)| && Kids(Strip(p, e))[i] == Strip(p, Kids(e)[j])
  {
    hide StripAll, StripLet, StripLoop, StripClauses, StripArms, Inits, Listed, ClauseParts, ArmParts;
    j := i;
    match e
    case Let(_, bs, _) =>
      PairsAreInits(bs);
      PairsAreInits(StripLet(p, bs));
      if i < |Inits(StripLet(p, bs))| { j := LeftPair(p, bs, i); } else { j := |Inits(bs)|; }
    case Loop(bs, _) => StripInits(p, bs);
    case Cond(cl) => StripClauseParts(p, cl);
    case Begin(es) => StripListed(p, es);
    case Block(_, es) => StripListed(p, es);
    case Call(es, _, _, _) => StripListed(p, es);
    case Logic(_, es) => StripListed(p, es);
    case Parameterize(es, _) => StripListed(p, es);
    case Strict(_, es) => StripListed(p, es);
    case Match(_, arms) => StripArmParts(p, arms);
    case _ =>
  }

  /** Every node of the stripped tree is a node of the tree, stripped. */
  lemma {:induction false} NodeIsStripped(p: Pass, e: Hir, path: seq<nat>, x: Hir) returns (q: seq<nat>, y: Hir)
    requires At(Strip(p, e), path, x)
    ensures At(e, q, y) && x == Strip(p, y)
    decreases |path|
  {
    hide Kids, Strip;
    q, y := [], e;
    if path != [] {
      var j := KidIsStripped(p, e, path[0]);
      q, y := NodeIsStripped(p, Kids(e)[j], path[1..], x);
      Downward(e, j, q, y);
      q := [j] + q;
    }
  }

  lemma LetOfLet(p: Pass, y: Hir)
    requires Strip(p, y).Let?
    ensures y.Let? && Strip(p, y).binds == StripLet(p, y.binds)
  {}

  /** A site that is left came from a site that was not dead. */
  lemma LeftSiteWasLive(p: Pass, root: Hir, path: seq<nat>, x: Hir, i: nat) returns (q: seq<nat>, y: Hir, init: Hir)
    requires At(Strip(p, root), path, x) && x.Let? && i < |Pairs(x.binds)|
    ensures At(root, q, y) && y.Let? && (Pairs(x.binds)[i].0, init) in Pairs(y.binds)
    ensures Pairs(x.binds)[i].1 == Strip(p, init) && !DeadSite(p, Pairs(x.binds)[i].0, init)
  {
    hide Strip, Eliminable, Kids, DeadSite;
    q, y := NodeIsStripped(p, root, path, x);
    LetOfLet(p, y);
    var j := LeftPair(p, y.binds, i);
    init := Pairs(y.binds)[j].1;
    assert Pairs(y.binds)[j] in Pairs(y.binds);
    DeadIsEliminable(p, Pairs(y.binds)[j].0, init);
  }

  /** The pass rebuilds a node with the signal it had. */
  ghost predicate SignalsStay(p: Pass) {
    forall e :: p.facts.silent(Strip(p, e)) <==> p.facts.silent(e)
  }

  lemma {:induction false} FreeBefore(p: Pass, e: Hir)
    requires SignalsStay(p) && EffectFree(p.facts, p.pure, Strip(p, e))
    ensures EffectFree(p.facts, p.pure, e)
    decreases e
  {
    assert p.facts.silent(Strip(p, e)) <==> p.facts.silent(e);
    match e
    case Return(v) => FreeBefore(p, v);
    case If(c, t, els) => FreeBefore(p, c); FreeBefore(p, t); FreeBefore(p, els);
    case Cond(cl) => ClausesFreeBefore(p, cl);
    case Begin(es) => AllFreeBefore(p, es);
    case Logic(_, es) => AllFreeBefore(p, es);
    case Let(_, bs, body) => BindsFreeBefore(p, bs); FreeBefore(p, body);
    case Call(args, _, func, _) => AllFreeBefore(p, args); VarStays(p, func);
    case Strict(_, args) => AllFreeBefore(p, args);
    case _ =>
  }

  lemma VarStays(p: Pass, e: Hir)
    ensures Strip(p, e).Var? ==> e == Strip(p, e)
  {}

  lemma {:induction false} AllFreeBefore(p: Pass, es: Hirs)
    requires SignalsStay(p) && EffectFreeAll(p.facts, p.pure, StripAll(p, es))
    ensures EffectFreeAll(p.facts, p.pure, es)
    decreases es
  {
    hide Strip, EffectFree;
    if es.HCons? { FreeBefore(p, es.head); AllFreeBefore(p, es.tail); }
  }

  lemma {:induction false} BindsFreeBefore(p: Pass, bs: Binds)
    requires SignalsStay(p) && EffectFreeBinds(p.facts, p.pure, StripLet(p, bs))
    ensures EffectFreeBinds(p.facts, p.pure, bs)
    decreases bs
  {
    hide Strip, EffectFree;
    if bs.BCons? {
      BindsFreeBefore(p, bs.rest);
      if !Eliminable(p, bs.binding, bs.init) { FreeBefore(p, bs.init); }
    }
  }

  lemma {:induction false} ClausesFreeBefore(p: Pass, cl: Clauses)
    requires SignalsStay(p) && EffectFreeClauses(p.facts, p.pure, StripClauses(p, cl))
    ensures EffectFreeClauses(p.facts, p.pure, cl)
    decreases cl
  {
    hide Strip, EffectFree;
    match cl
    case NoElse =>
    case Else(e) => FreeBefore(p, e);
    case Clause(c, b, rest) => FreeBefore(p, c); FreeBefore(p, b); ClausesFreeBefore(p, rest);
  }

  /** No dead site is left, wherever it stands: not even one whose initializer the pass has stripped. */
  ghost predicate NoneDead(p: Pass, e: Hir) {
    forall path, x, i :: At(e, path, x) && x.Let? && 0 <= i < |Pairs(x.binds)| ==>
                           !DeadSite(p, Pairs(x.binds)[i].0, Pairs(x.binds)[i].1)
  }

  lemma NoDeadSiteIsLeft(p: Pass, root: Hir)
    requires SignalsStay(p)
    ensures NoneDead(p, Strip(p, root))
  {
    hide Strip, Eliminable, Kids, DeadSite, SignalsStay, Pairs;
    forall path, x, i | At(Strip(p, root), path, x) && x.Let? && 0 <= i < |Pairs(x.binds)|
      ensures !DeadSite(p, Pairs(x.binds)[i].0, Pairs(x.binds)[i].1)
    {
      var q, y, init := LeftSiteWasLive(p, root, path, x, i);
      StillLive(p, Pairs(x.binds)[i].0, init);
    }
  }

  lemma StillLive(p: Pass, b: Binding, init: Hir)
    requires SignalsStay(p) && !DeadSite(p, b, init)
    ensures !DeadSite(p, b, Strip(p, init))
  {
    hide Strip, EffectFree, AllInert;
    LambdaStays(p, init);
    EffectFreeIsInert(p.facts, p.pure, init);
    EffectFreeIsInert(p.facts, p.pure, Strip(p, init));
    if EffectFree(p.facts, p.pure, Strip(p, init)) { FreeBefore(p, init); }
  }

  lemma LambdaStays(p: Pass, e: Hir)
    ensures Strip(p, e).Lambda? == e.Lambda?
  {}
}
