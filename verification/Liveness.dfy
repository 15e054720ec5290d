/**
  Liveness over the tree: the bindings live before a node, given those live after.

  `Before` says what a node needs, with a loop read as the least solution of its
  equation. `FlowOf` is the same analysis one binding at a time: what a node does
  to it whatever the rest of the set is. `BeforeIsFlow` connects the two, and from
  it follows that the source's bounded iteration of a loop body is stable by its
  second pass and gives that least solution (`LoopIterationIsExact`), and that the
  one pass a `while` gets is enough at its head (`WhileSolutionIsLeast`), though not
  always inside its body (`WhileBodyEnd`).
  `LivenessWalk.Analyze` is the walk in the source's form, on bit vectors.
*/
module Liveness {
  import opened HirSyntax

  type Index = map<Binding, nat>

  function Use(ix: Index, b: Binding, live: set<nat>): set<nat> {
    if b in ix then live + {ix[b]} else live
  }

  function Kill(ix: Index, b: Binding, live: set<nat>): set<nat> {
    if b in ix then live - {ix[b]} else live
  }

  function KillAll(ix: Index, bs: seq<Binding>, live: set<nat>): set<nat>
    decreases |bs|
  {
    if bs == [] then live else KillAll(ix, bs[1..], Kill(ix, bs[0], live))
  }

  function UseAll(ix: Index, cs: seq<Capture>, live: set<nat>): set<nat>
    decreases |cs|
  {
    if cs == [] then live else UseAll(ix, cs[1..], Use(ix, cs[0].binding, live))
  }

  // ----- the analysis on sets ---------------------------------------------------------------------------

  function Before(ix: Index, e: Hir, after: set<nat>): set<nat>
    decreases e
  {
    match e
    case Lit(_) => after
    case Poison => after
    case Var(b) => Use(ix, b, after)
    case Let(rec, bs, body) =>
      var live := Before(ix, body, after);
      if rec then InitsBefore(ix, bs, KillAll(ix, BinderNames(bs), live)) else BindsBefore(ix, bs, live)
    case Lambda(_, _, cs, _) => UseAll(ix, cs, after)
    case If(c, t, f) => Before(ix, c, Before(ix, t, after) + Before(ix, f, after))
    case Cond(cl) => ClausesBefore(ix, cl, after)
    case Begin(es) => SeqBefore(ix, es, after)
    case Block(_, es) => SeqBefore(ix, es, after)
    case Break(_, v) => Before(ix, v, after)
    case Call(args, _, f, _) => Before(ix, f, SeqBefore(ix, args, after))
    case While(c, body) => Before(ix, c, after + Before(ix, body, after))
    case Loop(bs, body) => InitsBefore(ix, bs, KillAll(ix, BinderNames(bs), Before(ix, body, after)))
    case Match(v, arms) => Before(ix, v, ArmsBefore(ix, arms, after))
    case Logic(_, es) => SeqBefore(ix, es, after)
    case Parameterize(ps, body) => SeqBefore(ix, ps, Before(ix, body, after))
    case Return(v) => Before(ix, v, after)
    case Strict(op, args) =>
      match op
      case Assign(b) => SeqBefore(ix, args, Kill(ix, b, after))
      case Define(b) => SeqBefore(ix, args, Kill(ix, b, after))
      case Destructure(p, _) => SeqBefore(ix, args, KillAll(ix, p.vars, after))
      case SetCell(b) => Use(ix, b, SeqBefore(ix, args, after))
      case _ => SeqBefore(ix, args, after)
  }

  function SeqBefore(ix: Index, es: Hirs, after: set<nat>): set<nat>
    decreases es
  {
    match es
    case HNil => after
    case HCons(e, rest) => Before(ix, e, SeqBefore(ix, rest, after))
  }

  /** A `let`: each name is dropped once its init is read. */
  function BindsBefore(ix: Index, bs: Binds, after: set<nat>): set<nat>
    decreases bs
  {
    match bs
    case BNil => after
    case BCons(b, init, rest) => Kill(ix, b, Before(ix, init, BindsBefore(ix, rest, after)))
  }

  function InitsBefore(ix: Index, bs: Binds, after: set<nat>): set<nat>
    decreases bs
  {
    match bs
    case BNil => after
    case BCons(_, init, rest) => Before(ix, init, InitsBefore(ix, rest, after))
  }

  function ClausesBefore(ix: Index, cl: Clauses, after: set<nat>): set<nat>
    decreases cl
  {
    match cl
    case NoElse => after
    case Else(e) => Before(ix, e, after)
    case Clause(c, b, rest) => Before(ix, c, ClausesBefore(ix, rest, after) + Before(ix, b, after))
  }

  function ArmsBefore(ix: Index, arms: Arms, after: set<nat>): set<nat>
    decreases arms
  {
    match arms
    case ANil => {}
    case ACons(p, g, b, rest) =>
      var live := Before(ix, b, after);
      KillAll(ix, p.vars, if g.Some? then Before(ix, g.value, live) else live) + ArmsBefore(ix, rest, after)
  }

  // ----- one binding at a time ------------------------------------------------------------------------------

  /** What a node does to one bit: makes it live, and lets it through. */
  datatype Flow = Flow(gen: bool, keep: bool)

  const THROUGH: Flow := Flow(false, true)

  predicate Out(f: Flow, live: bool) {
    f.gen || (live && f.keep)
  }

  /** `f` before `g`. */
  function Then(f: Flow, g: Flow): Flow {
    Flow(f.gen || (g.gen && f.keep), f.keep && g.keep)
  }

  function Either(f: Flow, g: Flow): Flow {
    Flow(f.gen || g.gen, f.keep || g.keep)
  }

  predicate Is(ix: Index, b: Binding, x: nat) {
    b in ix && ix[b] == x
  }

  predicate AnyIs(ix: Index, bs: seq<Binding>, x: nat) {
    exists i :: 0 <= i < |bs| && Is(ix, bs[i], x)
  }

  predicate Captured(ix: Index, cs: seq<Capture>, x: nat) {
    exists i :: 0 <= i < |cs| && Is(ix, cs[i].binding, x)
  }

  function Uses(yes: bool): Flow {
    Flow(yes, true)
  }

  function Kills(yes: bool): Flow {
    Flow(false, !yes)
  }

  function FlowOf(ix: Index, e: Hir, x: nat): Flow
    decreases e
  {
    match e
    case Lit(_) => THROUGH
    case Poison => THROUGH
    case Var(b) => Uses(Is(ix, b, x))
    case Let(rec, bs, body) =>
      if rec then Then(InitsFlow(ix, bs, x), Then(Kills(AnyIs(ix, BinderNames(bs), x)), FlowOf(ix, body, x)))
      else Then(BindsFlow(ix, bs, x), FlowOf(ix, body, x))
    case Lambda(_, _, cs, _) => Uses(Captured(ix, cs, x))
    case If(c, t, f) => Then(FlowOf(ix, c, x), Either(FlowOf(ix, t, x), FlowOf(ix, f, x)))
    case Cond(cl) => ClausesFlow(ix, cl, x)
    case Begin(es) => SeqFlow(ix, es, x)
    case Block(_, es) => SeqFlow(ix, es, x)
    case Break(_, v) => FlowOf(ix, v, x)
    case Call(args, _, f, _) => Then(FlowOf(ix, f, x), SeqFlow(ix, args, x))
    case While(c, body) => Then(FlowOf(ix, c, x), Either(THROUGH, FlowOf(ix, body, x)))
    case Loop(bs, body) => Then(InitsFlow(ix, bs, x), Then(Kills(AnyIs(ix, BinderNames(bs), x)), FlowOf(ix, body, x)))
    case Match(v, arms) => Then(FlowOf(ix, v, x), ArmsFlow(ix, arms, x))
    case Logic(_, es) => SeqFlow(ix, es, x)
    case Parameterize(ps, body) => Then(SeqFlow(ix, ps, x), FlowOf(ix, body, x))
    case Return(v) => FlowOf(ix, v, x)
    case Strict(op, args) =>
      match op
      case Assign(b) => Then(SeqFlow(ix, args, x), Kills(Is(ix, b, x)))
      case Define(b) => Then(SeqFlow(ix, args, x), Kills(Is(ix, b, x)))
      case Destructure(p, _) => Then(SeqFlow(ix, args, x), Kills(AnyIs(ix, p.vars, x)))
      case SetCell(b) => Then(Uses(Is(ix, b, x)), SeqFlow(ix, args, x))
      case _ => SeqFlow(ix, args, x)
  }

  function SeqFlow(ix: Index, es: Hirs, x: nat): Flow
    decreases es
  {
    match es
    case HNil => THROUGH
    case HCons(e, rest) => Then(FlowOf(ix, e, x), SeqFlow(ix, rest, x))
  }

  function BindsFlow(ix: Index, bs: Binds, x: nat): Flow
    decreases bs
  {
    match bs
    case BNil => THROUGH
    case BCons(b, init, rest) => Then(Kills(Is(ix, b, x)), Then(FlowOf(ix, init, x), BindsFlow(ix, rest, x)))
  }

  function InitsFlow(ix: Index, bs: Binds, x: nat): Flow
    decreases bs
  {
    match bs
    case BNil => THROUGH
    case BCons(_, init, rest) => Then(FlowOf(ix, init, x), InitsFlow(ix, rest, x))
  }

  function ClausesFlow(ix: Index, cl: Clauses, x: nat): Flow
    decreases cl
  {
    match cl
    case NoElse => THROUGH
    case Else(e) => FlowOf(ix, e, x)
    case Clause(c, b, rest) => Then(FlowOf(ix, c, x), Either(ClausesFlow(ix, rest, x), FlowOf(ix, b, x)))
  }

  function ArmsFlow(ix: Index, arms: Arms, x: nat): Flow
    decreases arms
  {
    match arms
    case ANil => Flow(false, false)
    case ACons(p, g, b, rest) =>
      var guarded := if g.Some? then Then(FlowOf(ix, g.value, x), FlowOf(ix, b, x)) else FlowOf(ix, b, x);
      Either(Then(Kills(AnyIs(ix, p.vars, x)), guarded), ArmsFlow(ix, rest, x))
  }

  // ----- the two agree -------------------------------------------------------------------------------------

  lemma {:induction false} KillsMembers(ix: Index, bs: seq<Binding>, live: set<nat>, x: nat)
    ensures x in KillAll(ix, bs, live) <==> x in live && !AnyIs(ix, bs, x)
    decreases |bs|
  {
    if bs != [] {
      KillsMembers(ix, bs[1..], Kill(ix, bs[0], live), x);
      assert AnyIs(ix, bs, x) <==> Is(ix, bs[0], x) || AnyIs(ix, bs[1..], x) by {
        if AnyIs(ix, bs[1..], x) {
          var i :| 0 <= i < |bs| - 1 && Is(ix, bs[1..][i], x);
          assert Is(ix, bs[i + 1], x);
        }
        if AnyIs(ix, bs, x) && !Is(ix, bs[0], x) {
          var i :| 0 <= i < |bs| && Is(ix, bs[i], x);
          assert Is(ix, bs[1..][i - 1], x);
        }
      }
    }
  }

  lemma {:induction false} UsesMembers(ix: Index, cs: seq<Capture>, live: set<nat>, x: nat)
    ensures x in UseAll(ix, cs, live) <==> x in live || Captured(ix, cs, x)
    decreases |cs|
  {
    if cs != [] {
      UsesMembers(ix, cs[1..], Use(ix, cs[0].binding, live), x);
      assert Captured(ix, cs, x) <==> Is(ix, cs[0].binding, x) || Captured(ix, cs[1..], x) by {
        if Captured(ix, cs[1..], x) {
          var i :| 0 <= i < |cs| - 1 && Is(ix, cs[1..][i].binding, x);
          assert Is(ix, cs[i + 1].binding, x);
        }
        if Captured(ix, cs, x) && !Is(ix, cs[0].binding, x) {
          var i :| 0 <= i < |cs| && Is(ix, cs[i].binding, x);
          assert Is(ix, cs[1..][i - 1].binding, x);
        }
      }
    }
  }

  /** Every node's transfer is gen/keep, bit by bit, nested loops included. */
  lemma {:induction false} BeforeIsFlow(ix: Index, e: Hir, after: set<nat>, x: nat)
    ensures x in Before(ix, e, after) <==> Out(FlowOf(ix, e, x), x in after)
    decreases e, 1
  {
    match e
    case Lit(_) =>
    case Poison =>
    case Var(_) =>
    case Let(_, _, _) => BeforeIsFlowBinder(ix, e, after, x);
    case Lambda(_, _, _, _) => BeforeIsFlowBinder(ix, e, after, x);
    case If(_, _, _) => BeforeIsFlowBranch(ix, e, after, x);
    case Cond(cl) => ClausesAreFlow(ix, cl, after, x);
    case Begin(es) => SeqIsFlow(ix, es, after, x);
    case Block(_, es) => SeqIsFlow(ix, es, after, x);
    case Break(_, v) => BeforeIsFlow(ix, v, after, x);
    case Call(_, _, _, _) => BeforeIsFlowBranch(ix, e, after, x);
    case While(_, _) => BeforeIsFlowBranch(ix, e, after, x);
    case Loop(_, _) => BeforeIsFlowBinder(ix, e, after, x);
    case Match(_, _) => BeforeIsFlowBranch(ix, e, after, x);
    case Logic(_, es) => SeqIsFlow(ix, es, after, x);
    case Parameterize(_, _) => BeforeIsFlowBinder(ix, e, after, x);
    case Strict(op, args) => StrictIsFlow(ix, op, args, after, x);
    case Return(v) => BeforeIsFlow(ix, v, after, x);
  }

  lemma {:induction false} BeforeIsFlowBinder(ix: Index, e: Hir, after: set<nat>, x: nat)
    requires e.Let? || e.Lambda? || e.Loop? || e.Parameterize?
    ensures x in Before(ix, e, after) <==> Out(FlowOf(ix, e, x), x in after)
    decreases e, 0
  {
    match e
    case Let(rec, bs, body) =>
      BeforeIsFlow(ix, body, after, x);
      var live := Before(ix, body, after);
      if rec {
        KillsMembers(ix, BinderNames(bs), live, x);
        InitsAreFlow(ix, bs, KillAll(ix, BinderNames(bs), live), x);
      } else {
        BindsAreFlow(ix, bs, live, x);
      }
    case Lambda(_, _, cs, _) => UsesMembers(ix, cs, after, x);
    case Loop(bs, body) =>
      BeforeIsFlow(ix, body, after, x);
      KillsMembers(ix, BinderNames(bs), Before(ix, body, after), x);
      InitsAreFlow(ix, bs, KillAll(ix, BinderNames(bs), Before(ix, body, after)), x);
    case Parameterize(ps, body) =>
      BeforeIsFlow(ix, body, after, x);
      SeqIsFlow(ix, ps, Before(ix, body, after), x);
  }

  lemma {:induction false} BeforeIsFlowBranch(ix: Index, e: Hir, after: set<nat>, x: nat)
    requires e.If? || e.Call? || e.While? || e.Match?
    ensures x in Before(ix, e, after) <==> Out(FlowOf(ix, e, x), x in after)
    decreases e, 0
  {
    match e
    case If(c, t, f) =>
      BeforeIsFlow(ix, t, after, x);
      BeforeIsFlow(ix, f, after, x);
      BeforeIsFlow(ix, c, Before(ix, t, after) + Before(ix, f, after), x);
    case Call(args, _, f, _) =>
      SeqIsFlow(ix, args, after, x);
      BeforeIsFlow(ix, f, SeqBefore(ix, args, after), x);
    case While(c, body) =>
      BeforeIsFlow(ix, body, after, x);
      BeforeIsFlow(ix, c, after + Before(ix, body, after), x);
    case Match(v, arms) =>
      ArmsAreFlow(ix, arms, after, x);
      BeforeIsFlow(ix, v, ArmsBefore(ix, arms, after), x);
  }

  lemma {:induction false} StrictIsFlow(ix: Index, op: Op, args: Hirs, after: set<nat>, x: nat)
    ensures x in Before(ix, Strict(op, args), after) <==> Out(FlowOf(ix, Strict(op, args), x), x in after)
    decreases args, 1
  {
    match op
    case Assign(b) => SeqIsFlow(ix, args, Kill(ix, b, after), x);
    case Define(b) => SeqIsFlow(ix, args, Kill(ix, b, after), x);
    case Destructure(p, _) =>
      KillsMembers(ix, p.vars, after, x);
      SeqIsFlow(ix, args, KillAll(ix, p.vars, after), x);
    case _ => SeqIsFlow(ix, args, after, x);
  }

  lemma {:induction false} SeqIsFlow(ix: Index, es: Hirs, after: set<nat>, x: nat)
    ensures x in SeqBefore(ix, es, after) <==> Out(SeqFlow(ix, es, x), x in after)
    decreases es, 0
  {
    if es.HCons? {
      SeqIsFlow(ix, es.tail, after, x);
      BeforeIsFlow(ix, es.head, SeqBefore(ix, es.tail, after), x);
    }
  }

  lemma {:induction false} BindsAreFlow(ix: Index, bs: Binds, after: set<nat>, x: nat)
    ensures x in BindsBefore(ix, bs, after) <==> Out(BindsFlow(ix, bs, x), x in after)
    decreases bs
  {
    if bs.BCons? {
      BindsAreFlow(ix, bs.rest, after, x);
      BeforeIsFlow(ix, bs.init, BindsBefore(ix, bs.rest, after), x);
    }
  }

  lemma {:induction false} InitsAreFlow(ix: Index, bs: Binds, after: set<nat>, x: nat)
    ensures x in InitsBefore(ix, bs, after) <==> Out(InitsFlow(ix, bs, x), x in after)
    decreases bs
  {
    if bs.BCons? {
      InitsAreFlow(ix, bs.rest, after, x);
      BeforeIsFlow(ix, bs.init, InitsBefore(ix, bs.rest, after), x);
    }
  }

  lemma {:induction false} ClausesAreFlow(ix: Index, cl: Clauses, after: set<nat>, x: nat)
    ensures x in ClausesBefore(ix, cl, after) <==> Out(ClausesFlow(ix, cl, x), x in after)
    decreases cl
  {
    match cl
    case NoElse =>
    case Else(e) => BeforeIsFlow(ix, e, after, x);
    case Clause(c, b, rest) =>
      ClausesAreFlow(ix, rest, after, x);
      BeforeIsFlow(ix, b, after, x);
      BeforeIsFlow(ix, c, ClausesBefore(ix, rest, after) + Before(ix, b, after), x);
  }

  lemma {:induction false} ArmsAreFlow(ix: Index, arms: Arms, after: set<nat>, x: nat)
    ensures x in ArmsBefore(ix, arms, after) <==> Out(ArmsFlow(ix, arms, x), x in after)
    decreases arms
  {
    if arms.ACons? {
      var live := Before(ix, arms.body, after);
      BeforeIsFlow(ix, arms.body, after, x);
      if arms.guard.Some? { BeforeIsFlow(ix, arms.guard.value, live, x); }
      KillsMembers(ix, arms.pattern.vars, if arms.guard.Some? then Before(ix, arms.guard.value, live) else live, x);
      ArmsAreFlow(ix, arms.rest, after, x);
    }
  }

  // ----- loops ---------------------------------------------------------------------------------------------

  /** One pass over a loop body whose live-in flows back to its end. */
  function Pass(ix: Index, body: Hir, after: set<nat>, live: set<nat>): set<nat> {
    Before(ix, body, after + live)
  }

  /**
    What a loop body needs is the least solution of its equation: it solves it, and
    every set closed under a pass contains it.
  */
  lemma LoopSolutionIsLeast(ix: Index, body: Hir, after: set<nat>)
    ensures Pass(ix, body, after, Before(ix, body, after)) == Before(ix, body, after)
    ensures forall live :: Pass(ix, body, after, live) <= live ==> Before(ix, body, after) <= live
  {
    var least := Before(ix, body, after);
    forall x ensures x in Pass(ix, body, after, least) <==> x in least {
      BeforeIsFlow(ix, body, after, x);
      BeforeIsFlow(ix, body, after + least, x);
    }
    forall live | Pass(ix, body, after, live) <= live ensures least <= live {
      forall x | x in least ensures x in live {
        BeforeIsFlow(ix, body, after, x);
        BeforeIsFlow(ix, body, after + live, x);
      }
    }
  }

  /** What a `while` needs at its head, if its body ends with `live` still to come. */
  function Around(ix: Index, test: Hir, body: Hir, after: set<nat>, live: set<nat>): set<nat> {
    Before(ix, test, after + Before(ix, body, live))
  }

  /** A `while` gets one pass, from what is live after it. That already is the least solution of its equation. */
  lemma WhileSolutionIsLeast(ix: Index, test: Hir, body: Hir, after: set<nat>)
    ensures var least := Before(ix, While(test, body), after);
            && Around(ix, test, body, after, least) == least
            && forall live :: Around(ix, test, body, after, live) <= live ==> least <= live
  {
    var least := Before(ix, While(test, body), after);
    forall live, x ensures x in least ==> x in Around(ix, test, body, after, live) {
      AroundIsFlow(ix, test, body, after, live, x);
    }
    forall x ensures x in Around(ix, test, body, after, least) <==> x in least {
      AroundIsFlow(ix, test, body, after, least, x);
    }
  }

  lemma AroundIsFlow(ix: Index, test: Hir, body: Hir, after: set<nat>, live: set<nat>, x: nat)
    ensures var least := Before(ix, While(test, body), after); var back := Around(ix, test, body, after, live);
            && (x in least ==> x in back) && (x in back && (x in live ==> x in least) ==> x in least)
  {
    hide FlowOf;
    BeforeIsFlow(ix, body, after, x);
    BeforeIsFlow(ix, body, live, x);
    BeforeIsFlow(ix, test, after + Before(ix, body, after), x);
    BeforeIsFlow(ix, test, after + Before(ix, body, live), x);
  }

  /**
    That pass gives the body's end the set live after the loop, though the test comes
    next. It has all that is live there if and only if the loop needs nothing of its
    own beyond it.
  */
  lemma WhileBodyEnd(ix: Index, test: Hir, body: Hir, after: set<nat>)
    ensures Before(ix, While(test, body), after) <= after <==> Before(ix, While(test, body), {}) <= after
  {
    hide FlowOf, Before;
    forall x ensures x in Before(ix, While(test, body), after) <==>
        x in Before(ix, While(test, body), {}) || (x in after && FlowOf(ix, While(test, body), x).keep) {
      BeforeIsFlow(ix, While(test, body), after, x);
      BeforeIsFlow(ix, While(test, body), {}, x);
    }
  }

  /** `(while x nil)` needs `x` at the end of its body, and the body is not told. */
  lemma WhileBodyMayMissTheTest(x: Binding)
    ensures !(Before(map[x := 0], While(Var(x), Lit(Nil)), {}) <= {})
  {
    assert 0 in Before(map[x := 0], Var(x), {});
  }

  /**
    The iteration starts from the loop's own names, and drops them after the first
    pass. Whatever the body, the second pass gives what the first gave, and with
    the names cleared that is the least solution without them: the cap of ten
    passes is never what stops it.
  */
  lemma LoopIterationIsExact(ix: Index, names: seq<Binding>, body: Hir, after: set<nat>, start: set<nat>)
    requires forall x :: x in start <==> x in after || AnyIs(ix, names, x)
    ensures var first := Before(ix, body, start);
            && Pass(ix, body, after, first) == first
            && KillAll(ix, names, first) == KillAll(ix, names, Before(ix, body, after))
  {
    var first := Before(ix, body, start);
    forall x ensures x in Pass(ix, body, after, first) <==> x in first {
      BeforeIsFlow(ix, body, start, x);
      BeforeIsFlow(ix, body, after + first, x);
    }
    forall x ensures x in KillAll(ix, names, first) <==> x in KillAll(ix, names, Before(ix, body, after)) {
      KillsMembers(ix, names, first, x);
      KillsMembers(ix, names, Before(ix, body, after), x);
      BeforeIsFlow(ix, body, start, x);
      BeforeIsFlow(ix, body, after, x);
    }
  }
}
