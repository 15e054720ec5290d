/**
  When liveness is enough: two runs that agree on what is live agree on what happens.

  `Agree` says that two states have the same world and the same slot for every name
  in a set of indices. `Sure` is the condition under which the analysis tells the
  truth, followed through a tree with the set `live` the two runs are known to agree
  on: what a node needs is in it, `and` and `or` do not end early before an
  assignment the analysis counted on, no `break` jumps over one, no callee expression
  assigns what the arguments read before it, and a name in a cell is written only
  where its slot is known.
*/
module LivenessSure {
  import opened HirSyntax
  import opened HirEval
  import opened Liveness

  // ----- states that agree ----------------------------------------------------------------------------------

  /** The index gives each binding a bit of its own. */
  predicate Injective(ix: Index) {
    forall a, b :: a in ix && b in ix && ix[a] == ix[b] ==> a == b
  }

  predicate SameSlot(f: Frame, g: Frame, b: Binding) {
    (b in f <==> b in g) && (b in f && b in g ==> f[b] == g[b])
  }

  /** Only a boxed name is kept in a cell. */
  predicate CellsBoxed(f: Frame) {
    forall b :: b in f && f[b].Cell? ==> b.boxed
  }

  predicate Counts(ix: Index, live: set<nat>, b: Binding) {
    b in ix ==> ix[b] in live
  }

  ghost predicate Agree(ix: Index, live: set<nat>, s: State, t: State) {
    && s.world == t.world && s.dyn == t.dyn && s.mints == t.mints
    && CellsBoxed(s.frame) && CellsBoxed(t.frame)
    && forall b :: Counts(ix, live, b) ==> SameSlot(s.frame, t.frame, b)
  }

  function Bit(ix: Index, b: Binding): set<nat> {
    if b in ix then {ix[b]} else {}
  }

  function BitsOf(ix: Index, bs: seq<Binding>): set<nat> {
    if bs == [] then {} else Bit(ix, bs[0]) + BitsOf(ix, bs[1..])
  }

  /** The boxed names of a list: a `letrec` gives them their cells first. */
  function BoxedBits(ix: Index, bs: Binds): set<nat> {
    match bs
    case BNil => {}
    case BCons(b, _, rest) => (if b.boxed then Bit(ix, b) else {}) + BoxedBits(ix, rest)
  }

  // ----- the condition -------------------------------------------------------------------------------------

  /** The host gives every variable of a pattern it matches a value, and raises only if it may. */
  ghost predicate Covers(h: Host, p: Pattern, raises: bool) {
    forall vs, w :: match h(MatchOp(p.shape), vs, w)
                    case Done(parts, _) => |parts| >= |p.vars|
                    case Raised(_) => raises
  }

  type Outs = map<BlockId, set<nat>>

  ghost predicate Sure(h: Host, ix: Index, e: Hir, after: set<nat>, live: set<nat>, outs: Outs)
    decreases e
  {
    match e
    case Lit(_) => true
    case Var(_) => true
    case Poison => true
    case Lambda(_, _, _, _) => true
    case Let(rec, bs, body) =>
      var need := Before(ix, body, after);
      && Sure(h, ix, body, after, live + need, outs)
      && if rec then SureInits(h, ix, bs, KillAll(ix, BinderNames(bs), need), live + BoxedBits(ix, bs), outs)
         else SureBinds(h, ix, bs, need, live, outs)
    case Loop(bs, body) =>
      var need := Before(ix, body, after);
      && SureInits(h, ix, bs, KillAll(ix, BinderNames(bs), need), live, outs)
      && Sure(h, ix, body, after, live + need + BitsOf(ix, BinderNames(bs)), outs)
    case If(c, t, f) =>
      var need := Before(ix, t, after) + Before(ix, f, after);
      Sure(h, ix, c, need, live, outs) && Sure(h, ix, t, after, live + need, outs)
          && Sure(h, ix, f, after, live + need, outs)
    case Cond(cl) => SureClauses(h, ix, cl, after, live, outs)
    case Begin(es) => SureSeq(h, ix, es, after, live, outs)
    case Block(id, es) => SureSeq(h, ix, es, after, live, outs[id := after])
    case Break(id, v) => Sure(h, ix, v, after, live, outs) && (id in outs ==> outs[id] <= live + after)
    case Call(args, _, f, _) =>
      var need := Before(ix, f, after);
      && SeqBefore(ix, args, need) <= live
      && SureSeq(h, ix, args, need, live, outs) && Sure(h, ix, f, after, live + need, outs)
    case While(c, body) =>
      var need := after + Before(ix, body, after);
      Sure(h, ix, c, need, live, outs) && Sure(h, ix, body, after, live + need, outs)
    case Match(v, arms) =>
      var need := ArmsBefore(ix, arms, after);
      Sure(h, ix, v, need, live, outs) && SureArms(h, ix, arms, after, live + need, outs)
    case Logic(_, es) => SureLogic(h, ix, es, after, live, outs)
    case Parameterize(ps, body) =>
      var need := Before(ix, body, after);
      SureSeq(h, ix, ps, need, live, outs) && Sure(h, ix, body, after, live + need, outs)
    case Strict(op, args) => SureSeq(h, ix, args, OpBefore(ix, op, after), live, outs) && SureOp(h, ix, op, live)
    case Return(v) => Sure(h, ix, v, after, live, outs)
  }

  /** What is live before an operation acts on its operands. */
  function OpBefore(ix: Index, op: Op, after: set<nat>): set<nat> {
    match op
    case Assign(b) => Kill(ix, b, after)
    case Define(b) => Kill(ix, b, after)
    case Destructure(p, _) => KillAll(ix, p.vars, after)
    case _ => after
  }

  ghost predicate SureOp(h: Host, ix: Index, op: Op, live: set<nat>) {
    match op
    case Assign(b) => b.boxed ==> Counts(ix, live, b)
    case Define(b) => b.boxed ==> Counts(ix, live, b)
    case Destructure(p, strict) =>
      Covers(h, p, strict) && forall i :: 0 <= i < |p.vars| && p.vars[i].boxed ==> Counts(ix, live, p.vars[i])
    case _ => true
  }

  ghost predicate SureSeq(h: Host, ix: Index, es: Hirs, after: set<nat>, live: set<nat>, outs: Outs)
    decreases es
  {
    match es
    case HNil => true
    case HCons(e, rest) =>
      var need := SeqBefore(ix, rest, after);
      Sure(h, ix, e, need, live, outs) && SureSeq(h, ix, rest, after, live + need, outs)
  }

  /** Where an operand may be the last, what is live after must be known already. */
  ghost predicate SureLogic(h: Host, ix: Index, es: Hirs, after: set<nat>, live: set<nat>, outs: Outs)
    decreases es
  {
    match es
    case HNil => true
    case HCons(e, rest) =>
      var need := SeqBefore(ix, rest, after);
      && Sure(h, ix, e, need, live, outs) && SureLogic(h, ix, rest, after, live + need, outs)
      && (rest.HCons? ==> after <= live + need)
  }

  /** A `let`: what an initializer needs is known without the name it initializes. */
  ghost predicate SureBinds(h: Host, ix: Index, bs: Binds, after: set<nat>, live: set<nat>, outs: Outs)
    decreases bs
  {
    match bs
    case BNil => true
    case BCons(b, init, rest) =>
      var need := BindsBefore(ix, rest, after);
      && Before(ix, init, Kill(ix, b, need)) <= live
      && Sure(h, ix, init, Kill(ix, b, need), live, outs) && SureBinds(h, ix, rest, after, live + need, outs)
  }

  ghost predicate SureInits(h: Host, ix: Index, bs: Binds, after: set<nat>, live: set<nat>, outs: Outs)
    decreases bs
  {
    match bs
    case BNil => true
    case BCons(b, init, rest) =>
      var need := InitsBefore(ix, rest, after);
      Sure(h, ix, init, need, live, outs) && SureInits(h, ix, rest, after, live + need + Bit(ix, b), outs)
  }

  ghost predicate SureClauses(h: Host, ix: Index, cl: Clauses, after: set<nat>, live: set<nat>, outs: Outs)
    decreases cl
  {
    match cl
    case NoElse => true
    case Else(e) => Sure(h, ix, e, after, live, outs)
    case Clause(c, b, rest) =>
      var need := ClausesBefore(ix, rest, after) + Before(ix, b, after);
      && Sure(h, ix, c, need, live, outs) && Sure(h, ix, b, after, live + need, outs)
      && SureClauses(h, ix, rest, after, live + need, outs)
  }

  ghost predicate SureArms(h: Host, ix: Index, arms: Arms, after: set<nat>, live: set<nat>, outs: Outs)
    decreases arms
  {
    match arms
    case ANil => true
    case ACons(p, g, b, rest) =>
      var bound := live + BitsOf(ix, p.vars);
      && Covers(h, p, true) && SureArms(h, ix, rest, after, live, outs)
      && if g.None? then Sure(h, ix, b, after, bound, outs)
         else
           var need := Before(ix, b, after);
           Sure(h, ix, g.value, need, bound, outs) && Sure(h, ix, b, after, bound + need, outs)
  }

  // ----- agreement only grows ------------------------------------------------------------------------------

  /** What two runs of a node have in common: the outcome, what was known before, and what the outcome makes live. */
  ghost predicate Alike(ix: Index, after: set<nat>, live: set<nat>, outs: Outs, r: Res, q: Res) {
    && r.out == q.out && Agree(ix, live, r.st, q.st)
    && (r.out.Val? ==> Agree(ix, after, r.st, q.st))
    && (r.out.Brk? && r.out.id in outs ==> Agree(ix, outs[r.out.id], r.st, q.st))
  }

  lemma AgreeLess(ix: Index, live: set<nat>, less: set<nat>, s: State, t: State)
    requires Agree(ix, live, s, t) && less <= live
    ensures Agree(ix, less, s, t)
  {}

  lemma AgreeBoth(ix: Index, a: set<nat>, b: set<nat>, s: State, t: State)
    requires Agree(ix, a, s, t) && Agree(ix, b, s, t)
    ensures Agree(ix, a + b, s, t)
  {}

  /** What a later step knows covers what an earlier one knew. */
  lemma AlikeLess(ix: Index, after: set<nat>, live: set<nat>, less: set<nat>, outs: Outs, r: Res, q: Res)
    requires Alike(ix, after, live, outs, r, q) && less <= live
    ensures Alike(ix, after, less, outs, r, q)
  {
    hide Agree;
    AgreeLess(ix, live, less, r.st, q.st);
  }

  /** A node that stops short of a value stops its parent, whatever the parent makes live. */
  lemma AlikeStops(ix: Index, after: set<nat>, more: set<nat>, live: set<nat>, outs: Outs, r: Res, q: Res)
    requires Alike(ix, after, live, outs, r, q) && !r.out.Val?
    ensures Alike(ix, more, live, outs, r, q)
  {}

  /** A value on which the runs agree beyond what they did before. */
  lemma AlikeGoesOn(ix: Index, after: set<nat>, live: set<nat>, outs: Outs, r: Res, q: Res)
    requires Alike(ix, after, live, outs, r, q) && r.out.Val?
    ensures q.out.Val? && r.out == q.out && Agree(ix, live + after, r.st, q.st)
  {
    hide Agree;
    AgreeBoth(ix, live, after, r.st, q.st);
  }

  lemma BindAgrees(ix: Index, live: set<nat>, s: State, t: State, b: Binding, v: Value)
    requires Agree(ix, live, s, t) && Injective(ix)
    ensures Agree(ix, live + Bit(ix, b), Bind(s, b, v), Bind(t, b, v))
  {
    var f, g := Bind(s, b, v).frame, Bind(t, b, v).frame;
    forall x | Counts(ix, live + Bit(ix, b), x) ensures SameSlot(f, g, x) {
      if x != b { assert Counts(ix, live, x); }
    }
  }

  /** A write reaches the same slot in both, if the name has no cell or its slot is known. */
  lemma WriteAgrees(ix: Index, live: set<nat>, s: State, t: State, b: Binding, v: Value)
    requires Agree(ix, live, s, t) && Injective(ix) && (b.boxed ==> Counts(ix, live, b))
    ensures Agree(ix, live + Bit(ix, b), Write(s, b, v), Write(t, b, v))
  {
    if b.boxed { assert SameSlot(s.frame, t.frame, b); }
    var f, g := Write(s, b, v).frame, Write(t, b, v).frame;
    forall x | Counts(ix, live + Bit(ix, b), x) ensures SameSlot(f, g, x) {
      if x != b { assert Counts(ix, live, x); }
    }
  }

  lemma StoreAgrees(ix: Index, live: set<nat>, s: State, t: State, b: Binding, v: Value)
    requires Agree(ix, live, s, t) && Injective(ix) && (b.boxed ==> Counts(ix, live, b))
    ensures Agree(ix, live + Bit(ix, b), Store(s, b, v), Store(t, b, v))
  {
    hide Bind, Write, Agree;
    if b.boxed { assert SameSlot(s.frame, t.frame, b) by { KnownSlot(ix, live, s, t, b); } }
    if b.boxed && b !in s.frame { BindAgrees(ix, live, s, t, b, v); } else { WriteAgrees(ix, live, s, t, b, v); }
  }

  lemma KnownSlot(ix: Index, live: set<nat>, s: State, t: State, b: Binding)
    requires Agree(ix, live, s, t) && Counts(ix, live, b)
    ensures SameSlot(s.frame, t.frame, b)
  {}

  lemma {:induction false} BindAllAgrees(ix: Index, live: set<nat>, s: State, t: State, bs: seq<Binding>,
          vs: seq<Value>)
    requires Agree(ix, live, s, t) && Injective(ix) && |vs| >= |bs|
    ensures Agree(ix, live + BitsOf(ix, bs), BindAll(s, bs, vs), BindAll(t, bs, vs))
    decreases |bs|
  {
    hide Agree, Bind;
    if bs == [] {
      assert live + BitsOf(ix, bs) == live;
    } else {
      BindAgrees(ix, live, s, t, bs[0], vs[0]);
      BindAllAgrees(ix, live + Bit(ix, bs[0]), Bind(s, bs[0], vs[0]), Bind(t, bs[0], vs[0]), bs[1..], vs[1..]);
      assert live + Bit(ix, bs[0]) + BitsOf(ix, bs[1..]) == live + BitsOf(ix, bs);
    }
  }

  predicate BoxedKnown(ix: Index, live: set<nat>, bs: seq<Binding>) {
    forall i :: 0 <= i < |bs| && bs[i].boxed ==> Counts(ix, live, bs[i])
  }

  lemma {:induction false} StoreAllAgrees(ix: Index, live: set<nat>, s: State, t: State, bs: seq<Binding>,
          vs: seq<Value>)
    requires Agree(ix, live, s, t) && Injective(ix) && |vs| >= |bs| && BoxedKnown(ix, live, bs)
    ensures Agree(ix, live + BitsOf(ix, bs), StoreAll(s, bs, vs), StoreAll(t, bs, vs))
    decreases |bs|
  {
    hide Agree, Store;
    if bs == [] {
      assert live + BitsOf(ix, bs) == live;
    } else {
      StoreAgrees(ix, live, s, t, bs[0], vs[0]);
      assert BoxedKnown(ix, live + Bit(ix, bs[0]), bs[1..]);
      StoreAllAgrees(ix, live + Bit(ix, bs[0]), Store(s, bs[0], vs[0]), Store(t, bs[0], vs[0]), bs[1..], vs[1..]);
      assert live + Bit(ix, bs[0]) + BitsOf(ix, bs[1..]) == live + BitsOf(ix, bs);
    }
  }

  lemma {:induction false} WriteAllAgrees(ix: Index, live: set<nat>, s: State, t: State, bs: seq<Binding>,
          vs: seq<Value>)
    requires Agree(ix, live, s, t) && Injective(ix) && |vs| == |bs| && BoxedKnown(ix, live, bs)
    ensures Agree(ix, live, WriteAll(s, bs, vs), WriteAll(t, bs, vs))
    decreases |bs|
  {
    hide Agree, Write;
    if bs != [] {
      WriteAgrees(ix, live, s, t, bs[0], vs[0]);
      AgreeLess(ix, live + Bit(ix, bs[0]), live, Write(s, bs[0], vs[0]), Write(t, bs[0], vs[0]));
      assert BoxedKnown(ix, live, bs[1..]);
      WriteAllAgrees(ix, live, Write(s, bs[0], vs[0]), Write(t, bs[0], vs[0]), bs[1..], vs[1..]);
    }
  }

  lemma {:induction false} PrebindAgrees(ix: Index, live: set<nat>, s: State, t: State, bs: Binds)
    requires Agree(ix, live, s, t) && Injective(ix)
    ensures Agree(ix, live + BoxedBits(ix, bs), Prebind(s, bs), Prebind(t, bs))
    decreases bs
  {
    hide Agree, Bind;
    match bs
    case BNil => assert live + BoxedBits(ix, bs) == live;
    case BCons(b, _, rest) =>
      if b.boxed {
        BindAgrees(ix, live, s, t, b, NilValue);
        PrebindAgrees(ix, live + Bit(ix, b), Bind(s, b, NilValue), Bind(t, b, NilValue), rest);
        assert live + Bit(ix, b) + BoxedBits(ix, rest) == live + BoxedBits(ix, bs);
      } else {
        PrebindAgrees(ix, live, s, t, rest);
        assert live + BoxedBits(ix, rest) == live + BoxedBits(ix, bs);
      }
  }

  lemma WorldAgrees(ix: Index, live: set<nat>, s: State, t: State, w: World)
    requires Agree(ix, live, s, t)
    ensures Agree(ix, live, s.(world := w), t.(world := w))
  {}

  lemma SameWorld(ix: Index, live: set<nat>, s: State, t: State)
    requires Agree(ix, live, s, t)
    ensures s.world == t.world && s.dyn == t.dyn && s.mints == t.mints
  {}

  lemma ReadAgrees(ix: Index, live: set<nat>, s: State, t: State, b: Binding)
    requires Agree(ix, live, s, t) && Counts(ix, live, b)
    ensures Read(s, b) == Read(t, b)
  {
    assert SameSlot(s.frame, t.frame, b);
  }

  lemma CapturedAgrees(ix: Index, live: set<nat>, s: State, t: State, cs: seq<Capture>)
    requires Agree(ix, live, s, t) && forall i :: 0 <= i < |cs| ==> Counts(ix, live, cs[i].binding)
    ensures HirEval.Captured(s.frame, cs) == HirEval.Captured(t.frame, cs)
  {
    forall b | Capture(b, false) in cs ensures SameSlot(s.frame, t.frame, b) {
      var i :| 0 <= i < |cs| && cs[i] == Capture(b, false);
      assert Counts(ix, live, cs[i].binding);
    }
  }

  /** A call runs in a frame of its own, so it does the same from both states. */
  lemma ApplyAgrees(ix: Index, live: set<nat>, c: Ctx, n: nat, f: Value, args: seq<Value>, s: State, t: State)
    requires Agree(ix, live, s, t)
    ensures var r, q := Apply(c, n, f, args, s), Apply(c, n, f, args, t);
            r.out == q.out && !r.out.Brk? && Agree(ix, live, r.st, q.st)
  {
    hide Eval, BindAll, EntryFrame;
  }

  lemma InvokeAgrees(ix: Index, live: set<nat>, c: Ctx, n: nat, f: Value, vs: seq<Value>, spliced: seq<bool>,
          isTail: bool, s: State, t: State)
    requires Agree(ix, live, s, t)
    ensures var r, q := Invoke(c, n, f, vs, spliced, isTail, s), Invoke(c, n, f, vs, spliced, isTail, t);
            r.out == q.out && !r.out.Brk? && Agree(ix, live, r.st, q.st)
  {
    hide Agree, Apply;
    SameWorld(ix, live, s, t);
    var sp := Spread(c.host, spliced, vs, s.world);
    WorldAgrees(ix, live, s, t, sp.world);
    if sp.Done? && n > 0 {
      ApplyAgrees(ix, live, c, n - 1, f, sp.values, s.(world := sp.world), t.(world := sp.world));
    }
  }
}
