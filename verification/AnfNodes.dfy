/**
  What a lifted tree looks like at every node, by constructors and child positions.

  A child whose value its parent consumes does not end, however deep in `let`,
  `loop` and `parameterize` bodies, at a node that makes a heap value. A bound
  initializer is such a node at most itself, and no function body ends at an `eval`
  or an unmarked call.
*/
module AnfNodes {
  import opened HirSyntax
  import opened HirNodes
  import opened Anf
  import opened AnfForm

  /** Where the value of `e` is made: down the bodies that hand it up. */
  function End(e: Hir): Hir {
    match e
    case Let(_, _, body) => End(body)
    case Loop(_, body) => End(body)
    case Parameterize(_, body) => End(body)
    case _ => e
  }

  /** The `i`th child of `x` is one whose value `x` consumes. */
  predicate Consumes(x: Hir, i: nat) {
    match x
    case Let(_, _, _) => false
    case Loop(_, _) => false
    case Lambda(_, _, _, _) => false
    case Parameterize(ps, _) => i < |Listed(ps)|
    case Strict(op, _) => !op.Define? && !op.MakeCell? && !op.DerefCell?
    case _ => true
  }

  /** The `i`th child of `x` is an initializer. */
  predicate Initializes(x: Hir, i: nat) {
    match x
    case Let(_, bs, _) => i < |Inits(bs)|
    case Loop(bs, _) => i < |Inits(bs)|
    case Strict(op, _) => op.Define?
    case _ => false
  }

  predicate IsRelease(e: Hir) {
    (e.Strict? && e.op.RunDatum?) || (e.Call? && !e.isTail)
  }

  // ----- from the normal form -------------------------------------------------------------------------------

  lemma {:induction false} NamedEnds(e: Hir)
    requires Named(e)
    ensures !Heap(End(e))
  {
    if Propagates(e) { NamedEnds(e.body); } else { AllocatesIsHeap(e); }
  }

  lemma {:induction false} UnowedEnds(e: Hir)
    requires !Owes(e)
    ensures !IsRelease(End(e))
  {
    if Propagates(e) { UnowedEnds(e.body); }
  }

  lemma {:induction false} ListedNormal(pos: Position, es: Hirs, i: nat)
    requires NormalAll(pos, es) && i < |Listed(es)|
    ensures Normal(Listed(es)[i]) && Settled(pos, Listed(es)[i])
    decreases es
  {
    if i > 0 { ListedNormal(pos, es.tail, i - 1); }
  }

  lemma {:induction false} InitsNormal(bs: Binds, i: nat)
    requires NormalBinds(bs) && i < |Inits(bs)|
    ensures Normal(Inits(bs)[i]) && Settled(Bound, Inits(bs)[i])
    decreases bs
  {
    if i > 0 { InitsNormal(bs.rest, i - 1); }
  }

  lemma {:induction false} ClausesNormal(cl: Clauses, i: nat)
    requires NormalClauses(cl) && i < |ClauseParts(cl)|
    ensures Normal(ClauseParts(cl)[i]) && Named(ClauseParts(cl)[i])
    decreases cl
  {
    if cl.Clause? && i > 1 { ClausesNormal(cl.rest, i - 2); }
  }

  lemma {:induction false} ArmsNormal(arms: Arms, i: nat)
    requires NormalArms(arms) && i < |ArmParts(arms)|
    ensures Normal(ArmParts(arms)[i]) && Named(ArmParts(arms)[i])
    decreases arms
  {
    var n := if arms.guard.Some? then 2 else 1;
    if i >= n { ArmsNormal(arms.rest, i - n); }
  }

  lemma KidNormal(x: Hir, i: nat)
    requires Normal(x) && i < |Kids(x)|
    ensures Normal(Kids(x)[i]) && (Consumes(x, i) ==> Named(Kids(x)[i]))
    ensures Initializes(x, i) && Propagates(Kids(x)[i]) ==> Named(Kids(x)[i])
  {
    hide Named, Normal;
    match x
    case Let(_, bs, _) => BodyNormal(x); if i < |Inits(bs)| { InitSettled(bs, i); }
    case Loop(bs, _) => BodyNormal(x); if i < |Inits(bs)| { InitSettled(bs, i); }
    case Parameterize(ps, _) => BodyNormal(x); if i < |Listed(ps)| { ListedNormal(Consumed, ps, i); }
    case _ => OtherNormal(x, i);
  }

  lemma BodyNormal(x: Hir)
    requires Normal(x) && Propagates(x)
    ensures Normal(x.body)
    ensures x.Parameterize? ==> NormalAll(Consumed, x.pairs)
    ensures !x.Parameterize? ==> NormalBinds(x.binds)
  {}

  lemma InitSettled(bs: Binds, i: nat)
    requires NormalBinds(bs) && i < |Inits(bs)|
    ensures Normal(Inits(bs)[i]) && (Propagates(Inits(bs)[i]) ==> Named(Inits(bs)[i]))
  {
    hide Normal;
    InitsNormal(bs, i);
    SettledMeans(Bound, Inits(bs)[i]);
  }

  lemma SettledMeans(pos: Position, e: Hir)
    requires Settled(pos, e)
    ensures (pos.Consumed? ==> Named(e)) && (pos.Bound? && Propagates(e) ==> Named(e))
  {}

  lemma OtherNormal(x: Hir, i: nat)
    requires Normal(x) && i < |Kids(x)| && !Propagates(x)
    ensures Normal(Kids(x)[i]) && (Consumes(x, i) ==> Named(Kids(x)[i]))
    ensures Initializes(x, i) && Propagates(Kids(x)[i]) ==> Named(Kids(x)[i])
  {
    match x
    case Cond(cl) => ClausesNormal(cl, i);
    case Begin(es) => ListedNormal(Consumed, es, i);
    case Block(_, es) => ListedNormal(Consumed, es, i);
    case Call(args, _, _, _) => if i < |Listed(args)| { ListedNormal(Consumed, args, i); }
    case Match(_, arms) => if i > 0 { ArmsNormal(arms, i - 1); }
    case Logic(_, es) => ListedNormal(Consumed, es, i);
    case Strict(op, args) => ListedNormal(PositionOf(op), args, i); SettledMeans(PositionOf(op), Listed(args)[i]);
    case _ =>
  }

  lemma {:induction false} NormalAt(e: Hir, path: seq<nat>, x: Hir)
    requires Normal(e) && At(e, path, x)
    ensures Normal(x)
    decreases |path|
  {
    hide Normal, Kids;
    if path != [] {
      KidNormal(e, path[0]);
      NormalAt(Kids(e)[path[0]], path[1..], x);
    }
  }

  // ----- the lifted tree -----------------------------------------------------------------------------------

  predicate HandsUp(e: Hir) {
    e.Let? || e.Loop? || e.Parameterize?
  }

  /** What holds at every node of a lifted tree. */
  ghost predicate WellNamed(e: Hir) {
    forall path, x :: At(e, path, x) ==>
      && (forall i :: 0 <= i < |Kids(x)| && Consumes(x, i) ==> !Heap(End(Kids(x)[i])))
      && (forall i :: 0 <= i < |Kids(x)| && Initializes(x, i) && HandsUp(Kids(x)[i]) ==> !Heap(End(Kids(x)[i])))
      && (x.Lambda? ==> !IsRelease(End(x.body)))
  }

  lemma NormalIsWellNamed(e: Hir)
    requires Normal(e)
    ensures WellNamed(e)
  {
    hide Normal, Kids, End, Heap, Named, Owes, IsRelease;
    forall path, x | At(e, path, x)
      ensures forall i :: 0 <= i < |Kids(x)| && Consumes(x, i) ==> !Heap(End(Kids(x)[i]))
      ensures forall i :: 0 <= i < |Kids(x)| && Initializes(x, i) && HandsUp(Kids(x)[i]) ==> !Heap(End(Kids(x)[i]))
      ensures x.Lambda? ==> !IsRelease(End(x.body))
    {
      NormalAt(e, path, x);
      forall i | 0 <= i < |Kids(x)| && (Consumes(x, i) || (Initializes(x, i) && HandsUp(Kids(x)[i])))
        ensures !Heap(End(Kids(x)[i]))
      {
        KidNormal(x, i);
        NamedEnds(Kids(x)[i]);
      }
      if x.Lambda? { LambdaUnowed(x); UnowedEnds(x.body); }
    }
  }

  lemma LambdaUnowed(x: Hir)
    requires Normal(x) && x.Lambda?
    ensures !Owes(x.body)
  {}

  // ----- and what is named already is left alone -----------------------------------------------------------------

  lemma KidWellNamed(e: Hir, i: nat)
    requires WellNamed(e) && i < |Kids(e)|
    ensures WellNamed(Kids(e)[i])
  {
    hide Kids, Consumes, Initializes, Heap, End, IsRelease, HandsUp;
    forall path, x | At(Kids(e)[i], path, x) ensures At(e, [i] + path, x) { Downward(e, i, path, x); }
  }

  /** What holds at one node of a well-named tree. */
  predicate NamedHere(x: Hir) {
    && (forall i :: 0 <= i < |Kids(x)| && Consumes(x, i) ==> !Heap(End(Kids(x)[i])))
    && (forall i :: 0 <= i < |Kids(x)| && Initializes(x, i) && HandsUp(Kids(x)[i]) ==> !Heap(End(Kids(x)[i])))
    && (x.Lambda? ==> !IsRelease(End(x.body)))
  }

  lemma RootNamed(e: Hir)
    requires WellNamed(e)
    ensures NamedHere(e)
  {
    hide Kids, Consumes, Initializes, Heap, End, IsRelease, HandsUp;
    assert At(e, [], e);
  }

  lemma {:induction false} EndsNamed(e: Hir)
    ensures Named(e) <==> !Heap(End(e))
    ensures Owes(e) <==> IsRelease(End(e))
  {
    if Propagates(e) { EndsNamed(e.body); } else { AllocatesIsHeap(e); }
  }

  lemma {:induction false} AllNormal(pos: Position, es: Hirs)
    requires forall i :: 0 <= i < |Listed(es)| ==> Normal(Listed(es)[i]) && Settled(pos, Listed(es)[i])
    ensures NormalAll(pos, es)
    decreases es
  {
    hide Normal, Settled;
    if es.HCons? {
      assert Listed(es)[0] == es.head;
      assert forall i :: 0 <= i < |Listed(es.tail)| ==> Listed(es.tail)[i] == Listed(es)[i + 1];
      AllNormal(pos, es.tail);
    }
  }

  lemma {:induction false} BindsNormal(bs: Binds)
    requires forall i :: 0 <= i < |Inits(bs)| ==> Normal(Inits(bs)[i]) && Settled(Bound, Inits(bs)[i])
    ensures NormalBinds(bs)
    decreases bs
  {
    hide Normal, Settled;
    if bs.BCons? {
      assert Inits(bs)[0] == bs.init;
      assert forall i :: 0 <= i < |Inits(bs.rest)| ==> Inits(bs.rest)[i] == Inits(bs)[i + 1];
      BindsNormal(bs.rest);
    }
  }

  lemma {:induction false} PartsNormal(cl: Clauses)
    requires forall i :: 0 <= i < |ClauseParts(cl)| ==> Normal(ClauseParts(cl)[i]) && Named(ClauseParts(cl)[i])
    ensures NormalClauses(cl)
    decreases cl
  {
    hide Normal, Named;
    match cl
    case NoElse =>
    case Else(e) => assert ClauseParts(cl)[0] == e;
    case Clause(c, b, rest) =>
      assert ClauseParts(cl)[0] == c && ClauseParts(cl)[1] == b;
      assert forall i :: 0 <= i < |ClauseParts(rest)| ==> ClauseParts(rest)[i] == ClauseParts(cl)[i + 2];
      PartsNormal(rest);
  }

  lemma {:induction false} ArmPartsNormal(arms: Arms)
    requires forall i :: 0 <= i < |ArmParts(arms)| ==> Normal(ArmParts(arms)[i]) && Named(ArmParts(arms)[i])
    ensures NormalArms(arms)
    decreases arms
  {
    hide Normal, Named;
    if arms.ACons? {
      var parts, n := ArmParts(arms), if arms.guard.Some? then 2 else 1;
      assert parts[n - 1] == arms.body && (n == 2 ==> parts[0] == arms.guard.value);
      assert forall i :: 0 <= i < |ArmParts(arms.rest)| ==> ArmParts(arms.rest)[i] == parts[i + n];
      ArmPartsNormal(arms.rest);
    }
  }

  /** A node is in normal form when its children are, and stand where they may. */
  lemma NormalFromKids(e: Hir)
    requires NamedHere(e) && forall i :: 0 <= i < |Kids(e)| ==> Normal(Kids(e)[i])
    ensures Normal(e)
  {
    hide Named, Owes, Heap, End, IsRelease, Normal, Settled, Kids;
    var kids := Kids(e);
    forall i | 0 <= i < |kids| && Consumes(e, i) ensures Named(kids[i]) { EndsNamed(kids[i]); }
    forall i | 0 <= i < |kids| && Initializes(e, i) ensures Settled(Bound, kids[i]) { SettledEnds(kids[i]); }
    if e.Let? || e.Loop? {
      NormalLet(e);
    } else if e.Parameterize? {
      NormalParameterize(e);
    } else if e.Begin? || e.Block? || e.Logic? || e.Strict? || e.Call? {
      NormalList(e);
    } else {
      NormalOther(e);
    }
  }

  lemma NormalParameterize(e: Hir)
    requires e.Parameterize? && forall i :: 0 <= i < |Kids(e)| ==> Normal(Kids(e)[i])
    requires forall i :: 0 <= i < |Kids(e)| && Consumes(e, i) ==> Named(Kids(e)[i])
    ensures Normal(e)
  {
    hide Named;
    var kids, ps := Kids(e), e.pairs;
    assert kids == Listed(ps) + [e.body] && kids[|Listed(ps)|] == e.body;
    forall i | 0 <= i < |Listed(ps)| ensures Normal(Listed(ps)[i]) && Settled(Consumed, Listed(ps)[i]) {
      assert kids[i] == Listed(ps)[i];
    }
    AllNormal(Consumed, ps);
  }

  lemma NormalList(e: Hir)
    requires e.Begin? || e.Block? || e.Logic? || e.Strict? || e.Call?
    requires forall i :: 0 <= i < |Kids(e)| ==> Normal(Kids(e)[i])
    requires forall i :: 0 <= i < |Kids(e)| && Consumes(e, i) ==> Named(Kids(e)[i])
    requires forall i :: 0 <= i < |Kids(e)| && Initializes(e, i) ==> Settled(Bound, Kids(e)[i])
    ensures Normal(e)
  {
    hide Named;
    var kids := Kids(e);
    match e
    case Begin(es) => assert kids == Listed(es); AllNormal(Consumed, es);
    case Block(_, es) => assert kids == Listed(es); AllNormal(Consumed, es);
    case Logic(_, es) => assert kids == Listed(es); AllNormal(Consumed, es);
    case Strict(op, args) => assert kids == Listed(args); AllNormal(PositionOf(op), args);
    case Call(args, _, f, _) =>
      assert kids == Listed(args) + [f] && kids[|Listed(args)|] == f;
      forall i | 0 <= i < |Listed(args)| ensures Normal(Listed(args)[i]) && Named(Listed(args)[i]) {
        assert kids[i] == Listed(args)[i];
      }
      AllNormal(Consumed, args);
  }

  lemma SettledEnds(e: Hir)
    requires HandsUp(e) ==> !Heap(End(e))
    ensures Settled(Bound, e)
  {
    EndsNamed(e);
  }

  lemma NormalLet(e: Hir)
    requires (e.Let? || e.Loop?) && forall i :: 0 <= i < |Kids(e)| ==> Normal(Kids(e)[i])
    requires forall i :: 0 <= i < |Kids(e)| && Initializes(e, i) ==> Settled(Bound, Kids(e)[i])
    ensures Normal(e)
  {
    hide Settled;
    var kids := Kids(e);
    assert kids == Inits(e.binds) + [e.body] && kids[|Inits(e.binds)|] == e.body;
    forall i | 0 <= i < |Inits(e.binds)| ensures Normal(Inits(e.binds)[i]) && Settled(Bound, Inits(e.binds)[i]) {
      assert kids[i] == Inits(e.binds)[i];
    }
    BindsNormal(e.binds);
  }

  lemma NormalOther(e: Hir)
    requires !HandsUp(e) && !e.Begin? && !e.Block? && !e.Logic? && !e.Strict? && !e.Call?
    requires forall i :: 0 <= i < |Kids(e)| ==> Normal(Kids(e)[i])
    requires forall i :: 0 <= i < |Kids(e)| && Consumes(e, i) ==> Named(Kids(e)[i])
    requires e.Lambda? ==> !IsRelease(End(e.body))
    ensures Normal(e)
  {
    hide Named, Owes, End;
    var kids := Kids(e);
    match e
    case Lambda(_, _, _, body) => assert kids[0] == body; EndsNamed(body);
    case If(c, t, f) => assert kids[0] == c && kids[1] == t && kids[2] == f;
    case Cond(cl) => assert kids == ClauseParts(cl); PartsNormal(cl);
    case Break(_, v) => assert kids[0] == v;
    case While(c, body) => assert kids[0] == c && kids[1] == body;
    case Match(v, arms) =>
      assert kids == [v] + ArmParts(arms) && kids[0] == v;
      forall i | 0 <= i < |ArmParts(arms)| ensures Normal(ArmParts(arms)[i]) && Named(ArmParts(arms)[i]) {
        assert kids[i + 1] == ArmParts(arms)[i];
      }
      ArmPartsNormal(arms);
    case Return(v) => assert kids[0] == v;
    case _ =>
  }

  lemma {:induction false} WellNamedIsNormal(e: Hir)
    requires WellNamed(e)
    ensures Normal(e)
    decreases e
  {
    hide Normal, WellNamed, Kids, NamedHere;
    forall i | 0 <= i < |Kids(e)| ensures Normal(Kids(e)[i]) {
      KidWellNamed(e, i);
      KidIsSmaller(e, i);
      WellNamedIsNormal(Kids(e)[i]);
    }
    RootNamed(e);
    NormalFromKids(e);
  }

  /** A unit whose heap values are all named, and that owes no release, is left as it is: nothing is named twice. */
  lemma WellNamedStays(e: Hir, k: nat)
    requires WellNamed(e)
    ensures Transform(e, k) == (e, k)
    ensures !IsRelease(End(e)) ==> Returning(e, k) == (e, k)
  {
    hide Normal, WellNamed, Transform, NameOwedRelease, Owes, IsRelease, End;
    WellNamedIsNormal(e);
    NormalStays(e, k);
    EndsNamed(e);
    if !Owes(e) { UnowedStays(e, k); }
  }

  /** A lifted unit has a name for every heap value that is consumed, wherever it is made, and owes no release. */
  lemma LiftNamesHeapValues(e: Hir, k: nat)
    ensures WellNamed(Transform(e, k).0)
    ensures WellNamed(Returning(e, k).0) && !IsRelease(End(Returning(e, k).0))
  {
    hide Normal, WellNamed, Transform, Returning, Owes, IsRelease, End;
    TransformNormal(e, k);
    NormalIsWellNamed(Transform(e, k).0);
    ReturningNormal(e, k);
    NormalIsWellNamed(Returning(e, k).0);
    UnowedEnds(Returning(e, k).0);
  }
}
