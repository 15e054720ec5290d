/**
  The liveness walk on bit vectors, as the source runs it: every live set a fresh
  vector, updated in place, and a loop iterated up to ten times. It computes
  `Before`, and no loop takes more than two passes.
*/
module LivenessWalk {
  import opened HirSyntax
  import opened BitSets
  import opened Liveness

  /** Every indexed binding has a bit in a vector of `width` words. */
  predicate Indexed(ix: Index, width: nat) {
    forall b :: b in ix ==> ix[b] < 64 * width
  }

  method Clone(s: BitSet) returns (c: BitSet)
    ensures fresh(c) && c.words == s.words
  {
    c := new BitSet(0);
    c.words := s.words;
  }

  method SetBinding(ix: Index, b: Binding, s: BitSet)
    requires Indexed(ix, |s.words|)
    modifies s
    ensures |s.words| == |old(s.words)| && s.Members() == Use(ix, b, old(s.Members()))
  {
    if b in ix { s.Set(ix[b]); }
  }

  method ClearBinding(ix: Index, b: Binding, s: BitSet)
    modifies s
    ensures |s.words| == |old(s.words)| && s.Members() == Kill(ix, b, old(s.Members()))
  {
    if b in ix { s.Clear(ix[b]); }
  }

  method ClearBindings(ix: Index, bs: seq<Binding>, s: BitSet)
    modifies s
    ensures |s.words| == |old(s.words)| && s.Members() == KillAll(ix, bs, old(s.Members()))
  {
    var i := 0;
    assert bs[0..] == bs;
    while i < |bs|
      invariant 0 <= i <= |bs| && |s.words| == |old(s.words)|
      invariant KillAll(ix, bs[i..], s.Members()) == KillAll(ix, bs, old(s.Members()))
    {
      assert bs[i..][0] == bs[i] && bs[i..][1..] == bs[i + 1..];
      ClearBinding(ix, bs[i], s);
      i := i + 1;
    }
  }

  method SetCaptures(ix: Index, cs: seq<Capture>, s: BitSet)
    requires Indexed(ix, |s.words|)
    modifies s
    ensures |s.words| == |old(s.words)| && s.Members() == UseAll(ix, cs, old(s.Members()))
  {
    var i := 0;
    assert cs[0..] == cs;
    while i < |cs|
      invariant 0 <= i <= |cs| && |s.words| == |old(s.words)|
      invariant UseAll(ix, cs[i..], s.Members()) == UseAll(ix, cs, old(s.Members()))
    {
      assert cs[i..][0] == cs[i] && cs[i..][1..] == cs[i + 1..];
      SetBinding(ix, cs[i].binding, s);
      i := i + 1;
    }
  }

  method Merge(s: BitSet, other: BitSet)
    requires |s.words| == |other.words| && s != other
    modifies s
    ensures |s.words| == |old(s.words)| && s.Members() == old(s.Members()) + other.Members()
  {
    var _ := s.UnionWith(other);
  }

  method Analyze(ix: Index, width: nat, e: Hir, after: BitSet) returns (live: BitSet)
    requires Indexed(ix, width) && |after.words| == width
    ensures fresh(live) && |live.words| == width && live.Members() == Before(ix, e, after.Members())
    decreases e, 1
  {
    match e
    case Lit(_) => live := Clone(after);
    case Poison => live := Clone(after);
    case Var(b) =>
      live := Clone(after);
      SetBinding(ix, b, live);
    case Let(_, _, _) => live := AnalyzeBinder(ix, width, e, after);
    case Lambda(_, _, _, _) => live := AnalyzeBinder(ix, width, e, after);
    case If(_, _, _) => live := AnalyzeBranch(ix, width, e, after);
    case Cond(cl) => live := AnalyzeClauses(ix, width, cl, after);
    case Begin(es) => live := AnalyzeSequence(ix, width, es, after);
    case Block(_, es) => live := AnalyzeSequence(ix, width, es, after);
    case Break(_, v) => live := Analyze(ix, width, v, after);
    case Call(_, _, _, _) => live := AnalyzeBranch(ix, width, e, after);
    case While(_, _) => live := AnalyzeBranch(ix, width, e, after);
    case Loop(_, _) => live := AnalyzeBinder(ix, width, e, after);
    case Match(_, _) => live := AnalyzeBranch(ix, width, e, after);
    case Logic(_, es) => live := AnalyzeSequence(ix, width, es, after);
    case Parameterize(_, _) => live := AnalyzeBinder(ix, width, e, after);
    case Return(v) => live := Analyze(ix, width, v, after);
    case Strict(op, args) => live := AnalyzeStrict(ix, width, op, args, after);
  }

  method AnalyzeBinder(ix: Index, width: nat, e: Hir, after: BitSet) returns (live: BitSet)
    requires Indexed(ix, width) && |after.words| == width
    requires e.Let? || e.Lambda? || e.Loop? || e.Parameterize?
    ensures fresh(live) && |live.words| == width && live.Members() == Before(ix, e, after.Members())
    decreases e, 0
  {
    hide MembersOf, KillAll, UseAll, SeqBefore, InitsBefore, BindsBefore, ArmsBefore;
    match e
    case Let(rec, bs, body) =>
      live := Analyze(ix, width, body, after);
      if rec {
        ClearBindings(ix, BinderNames(bs), live);
        live := AnalyzeInits(ix, width, bs, live);
      } else {
        live := AnalyzeBinds(ix, width, bs, live);
      }
    case Lambda(_, _, cs, body) =>
      var none := new BitSet(64 * width);
      var _ := Analyze(ix, width, body, none);
      live := Clone(after);
      SetCaptures(ix, cs, live);
    case Loop(bs, body) =>
      var passes;
      live, passes := IterateLoop(ix, width, BinderNames(bs), body, after);
      ClearBindings(ix, BinderNames(bs), live);
      live := AnalyzeInits(ix, width, bs, live);
    case Parameterize(ps, body) =>
      live := Analyze(ix, width, body, after);
      live := AnalyzeSequence(ix, width, ps, live);
  }

  method AnalyzeBranch(ix: Index, width: nat, e: Hir, after: BitSet) returns (live: BitSet)
    requires Indexed(ix, width) && |after.words| == width
    requires e.If? || e.Call? || e.While? || e.Match?
    ensures fresh(live) && |live.words| == width && live.Members() == Before(ix, e, after.Members())
    decreases e, 0
  {
    hide MembersOf, KillAll, UseAll, SeqBefore, InitsBefore, BindsBefore, ArmsBefore;
    match e
    case If(c, t, f) =>
      var liveThen := Analyze(ix, width, t, after);
      var liveElse := Analyze(ix, width, f, after);
      Merge(liveThen, liveElse);
      live := Analyze(ix, width, c, liveThen);
    case Call(args, _, f, _) =>
      live := AnalyzeSequence(ix, width, args, after);
      live := Analyze(ix, width, f, live);
    case While(c, body) =>
      var liveBody := Analyze(ix, width, body, after);
      live := Clone(after);
      Merge(live, liveBody);
      live := Analyze(ix, width, c, live);
    case Match(v, arms) =>
      live := AnalyzeArms(ix, width, arms, after);
      live := Analyze(ix, width, v, live);
  }

  method AnalyzeStrict(ix: Index, width: nat, op: Op, args: Hirs, after: BitSet) returns (live: BitSet)
    requires Indexed(ix, width) && |after.words| == width
    ensures fresh(live) && |live.words| == width && live.Members() == Before(ix, Strict(op, args), after.Members())
    decreases args, 1
  {
    hide KillAll, MembersOf, SeqBefore, Use, Kill;
    live := Clone(after);
    match op
    case Assign(b) =>
      ClearBinding(ix, b, live);
      live := AnalyzeSequence(ix, width, args, live);
    case Define(b) =>
      ClearBinding(ix, b, live);
      live := AnalyzeSequence(ix, width, args, live);
    case Destructure(p, _) =>
      ClearBindings(ix, p.vars, live);
      live := AnalyzeSequence(ix, width, args, live);
    case SetCell(b) =>
      live := AnalyzeSequence(ix, width, args, live);
      SetBinding(ix, b, live);
    case _ => live := AnalyzeSequence(ix, width, args, live);
  }

  /** The body's live-in, from the loop's names on, until a pass changes nothing or ten are done. */
  method IterateLoop(ix: Index, width: nat, names: seq<Binding>, body: Hir, after: BitSet)
    returns (prev: BitSet, passes: nat)
    requires Indexed(ix, width) && |after.words| == width
    ensures fresh(prev) && |prev.words| == width
    ensures KillAll(ix, names, prev.Members()) == KillAll(ix, names, Before(ix, body, after.Members()))
    ensures 1 <= passes <= 2
    decreases body, 2
  {
    var bodyLiveOut := Clone(after);
    var i := 0;
    while i < |names|
      invariant 0 <= i <= |names| && fresh(bodyLiveOut) && |bodyLiveOut.words| == width
      invariant after.words == old(after.words)
      invariant forall x :: x in bodyLiveOut.Members() <==> x in after.Members() || AnyIs(ix, names[..i], x)
    {
      AnyIsSnoc(ix, names, i);
      SetBinding(ix, names[i], bodyLiveOut);
      i := i + 1;
    }
    assert names[..i] == names;
    LoopIterationIsExact(ix, names, body, after.Members(), bodyLiveOut.Members());
    ghost var first := Before(ix, body, bodyLiveOut.Members());
    prev := new BitSet(64 * width);
    passes := 0;
    while passes < 10
      invariant after.words == old(after.words)
      invariant fresh(prev) && |prev.words| == width && fresh(bodyLiveOut) && |bodyLiveOut.words| == width
      invariant 0 <= passes <= 1
      invariant passes == 0 ==> Before(ix, body, bodyLiveOut.Members()) == first && prev.Members() == {}
      invariant passes == 1 ==> prev.Members() == first && bodyLiveOut.Members() == after.Members() + first
    {
      var liveIn := Analyze(ix, width, body, bodyLiveOut);
      passes := passes + 1;
      WordsExtensional(liveIn.words, prev.words);
      if liveIn.words == prev.words { break; }
      prev := Clone(liveIn);
      bodyLiveOut := Clone(after);
      Merge(bodyLiveOut, liveIn);
    }
  }

  lemma AnyIsSnoc(ix: Index, names: seq<Binding>, i: nat)
    requires i < |names|
    ensures forall x :: AnyIs(ix, names[..i + 1], x) <==> AnyIs(ix, names[..i], x) || Is(ix, names[i], x)
  {
    forall x ensures AnyIs(ix, names[..i + 1], x) <==> AnyIs(ix, names[..i], x) || Is(ix, names[i], x) {
      if AnyIs(ix, names[..i], x) {
        var k :| 0 <= k < i && Is(ix, names[..i][k], x);
        assert Is(ix, names[..i + 1][k], x);
      }
      if AnyIs(ix, names[..i + 1], x) && !Is(ix, names[i], x) {
        var k :| 0 <= k < i + 1 && Is(ix, names[..i + 1][k], x);
        assert Is(ix, names[..i][k], x);
      }
      if Is(ix, names[i], x) { assert Is(ix, names[..i + 1][i], x); }
    }
  }

  method AnalyzeSequence(ix: Index, width: nat, es: Hirs, after: BitSet) returns (live: BitSet)
    requires Indexed(ix, width) && |after.words| == width
    ensures fresh(live) && |live.words| == width && live.Members() == SeqBefore(ix, es, after.Members())
    decreases es, 0
  {
    match es
    case HNil => live := Clone(after);
    case HCons(e, rest) =>
      live := AnalyzeSequence(ix, width, rest, after);
      live := Analyze(ix, width, e, live);
  }

  method AnalyzeBinds(ix: Index, width: nat, bs: Binds, after: BitSet) returns (live: BitSet)
    requires Indexed(ix, width) && |after.words| == width
    ensures fresh(live) && |live.words| == width && live.Members() == BindsBefore(ix, bs, after.Members())
    decreases bs, 0
  {
    match bs
    case BNil => live := Clone(after);
    case BCons(b, init, rest) =>
      live := AnalyzeBinds(ix, width, rest, after);
      live := Analyze(ix, width, init, live);
      ClearBinding(ix, b, live);
  }

  method AnalyzeInits(ix: Index, width: nat, bs: Binds, after: BitSet) returns (live: BitSet)
    requires Indexed(ix, width) && |after.words| == width
    ensures fresh(live) && |live.words| == width && live.Members() == InitsBefore(ix, bs, after.Members())
    decreases bs, 0
  {
    match bs
    case BNil => live := Clone(after);
    case BCons(_, init, rest) =>
      live := AnalyzeInits(ix, width, rest, after);
      live := Analyze(ix, width, init, live);
  }

  method AnalyzeClauses(ix: Index, width: nat, cl: Clauses, after: BitSet) returns (live: BitSet)
    requires Indexed(ix, width) && |after.words| == width
    ensures fresh(live) && |live.words| == width && live.Members() == ClausesBefore(ix, cl, after.Members())
    decreases cl, 0
  {
    match cl
    case NoElse => live := Clone(after);
    case Else(e) => live := Analyze(ix, width, e, after);
    case Clause(c, b, rest) =>
      live := AnalyzeClauses(ix, width, rest, after);
      var liveBody := Analyze(ix, width, b, after);
      Merge(live, liveBody);
      live := Analyze(ix, width, c, live);
  }

  method AnalyzeArms(ix: Index, width: nat, arms: Arms, after: BitSet) returns (live: BitSet)
    requires Indexed(ix, width) && |after.words| == width
    ensures fresh(live) && |live.words| == width && live.Members() == ArmsBefore(ix, arms, after.Members())
    decreases arms, 0
  {
    match arms
    case ANil => live := new BitSet(64 * width);
    case ACons(p, g, b, rest) =>
      live := Analyze(ix, width, b, after);
      if g.Some? { live := Analyze(ix, width, g.value, live); }
      ClearBindings(ix, p.vars, live);
      var liveRest := AnalyzeArms(ix, width, rest, after);
      Merge(live, liveRest);
  }
}
