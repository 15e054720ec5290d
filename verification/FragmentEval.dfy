/**
  A grafted body runs as the body it was closed from.

  Two runs mirror each other when their worlds agree and each name's slot is its
  new name's slot. `EvalRenames` carries that through every form a fragment may
  hold, and with it that the grafted run leaves every binding the host already had
  as it was. `GraftRunsTheSame` is the law for close and graft, and
  `GraftedCallRunsTheSame` the splice of a body over its parameters.
*/
module FragmentEval {
  import opened HirSyntax
  import opened HirEval
  import opened Fragment
  import opened FragmentFacts
  import opened Graft

  /** `st1` holds under each new name what `st` holds under the old, and below the floor what `outer` holds. */
  ghost predicate Mirrors(m: Renaming, outer: Frame, st: State, st1: State) {
    && st.world == st1.world && st.dyn == st1.dyn && st.mints == st1.mints
    && (forall b :: b in m.to ==> (b in st.frame <==> m.to[b] in st1.frame))
    && (forall b :: b in m.to && b in st.frame ==> st.frame[b] == st1.frame[m.to[b]])
    && Keeps(m.floor, outer, st1.frame)
  }

  ghost predicate Keeps(floor: nat, f: Frame, g: Frame) {
    && (forall x: Binding :: x.id < floor ==> (x in f <==> x in g))
    && (forall x: Binding :: x.id < floor && x in f && x in g ==> f[x] == g[x])
  }

  ghost predicate SameRun(m: Renaming, outer: Frame, r: Res, r1: Res) {
    r.out == r1.out && Mirrors(m, outer, r.st, r1.st)
  }

  ghost predicate SameOps(m: Renaming, outer: Frame, r: OpsRes, r1: OpsRes) {
    match (r, r1)
    case (Vals(vs, st), Vals(vs1, st1)) => vs == vs1 && Mirrors(m, outer, st, st1)
    case (Stop(s), Stop(s1)) => SameRun(m, outer, s, s1)
    case _ => false
  }

  ghost predicate SameBinds(m: Renaming, outer: Frame, r: BindRes, r1: BindRes) {
    match (r, r1)
    case (Bound(st), Bound(st1)) => Mirrors(m, outer, st, st1)
    case (Halt(s), Halt(s1)) => SameRun(m, outer, s, s1)
    case _ => false
  }

  // ----- the steps that touch a frame ----------------------------------------------------------------------

  lemma BindMirrors(m: Renaming, outer: Frame, st: State, st1: State, b: Binding, v: Value)
    requires Mirrors(m, outer, st, st1) && Private(m, b)
    ensures Mirrors(m, outer, Bind(st, b, v), Bind(st1, To(m, b), v))
  {}

  lemma {:induction false} BindAllMirrors(m: Renaming, outer: Frame, st: State, st1: State, bs: seq<Binding>,
          vs: seq<Value>)
    requires Mirrors(m, outer, st, st1) && PrivateAll(m, bs)
    ensures Mirrors(m, outer, BindAll(st, bs, vs), BindAll(st1, ToAll(m, bs), vs))
    decreases |bs|
  {
    hide Mirrors, Bind, Private;
    if bs != [] && vs != [] {
      BindMirrors(m, outer, st, st1, bs[0], vs[0]);
      assert ToAll(m, bs)[1..] == ToAll(m, bs[1..]);
      BindAllMirrors(m, outer, Bind(st, bs[0], vs[0]), Bind(st1, To(m, bs[0]), vs[0]), bs[1..], vs[1..]);
    }
  }

  /** A call sees its caller's frame only to hand it back. */
  lemma InvokeMirrors(m: Renaming, outer: Frame, c: Ctx, n: nat, f: Value, vs: seq<Value>, spliced: seq<bool>,
          isTail: bool, st: State, st1: State)
    requires Mirrors(m, outer, st, st1)
    ensures SameRun(m, outer, Invoke(c, n, f, vs, spliced, isTail, st), Invoke(c, n, f, vs, spliced, isTail, st1))
  {
    hide Apply, Mirrors;
    var s := Spread(c.host, spliced, vs, st.world);
    WorldMirrors(m, outer, st, st1, s.world);
    if n > 0 && s.Done? {
      ApplyMirrors(m, outer, c, n - 1, f, s.values, st.(world := s.world), st1.(world := s.world));
    }
  }

  lemma ApplyMirrors(m: Renaming, outer: Frame, c: Ctx, n: nat, f: Value, args: seq<Value>, st: State, st1: State)
    requires Mirrors(m, outer, st, st1)
    ensures SameRun(m, outer, Apply(c, n, f, args, st), Apply(c, n, f, args, st1))
  {
    hide Eval, BindAll;
  }

  lemma PerformMirrors(m: Renaming, outer: Frame, host: Host, op: Op, vs: seq<Value>, st: State, st1: State)
    requires Mirrors(m, outer, st, st1) && (op.Emit? || op.Intrinsic?)
    ensures SameRun(m, outer, Perform(host, op, vs, st), Perform(host, op, vs, st1))
  {}

  lemma ReadMirrors(m: Renaming, outer: Frame, st: State, st1: State, b: Binding)
    requires Mirrors(m, outer, st, st1) && b in m.to
    ensures Read(st, b) == Read(st1, To(m, b))
  {}

  lemma WorldMirrors(m: Renaming, outer: Frame, st: State, st1: State, w: World)
    requires Mirrors(m, outer, st, st1)
    ensures st.world == st1.world && Mirrors(m, outer, st.(world := w), st1.(world := w))
  {}

  // ----- every form of a fragment --------------------------------------------------------------------------

  /** The renamed body does what the body does, step for step. */
  lemma {:induction false} EvalRenames(m: Renaming, outer: Frame, c: Ctx, n: nat, e: Hir, st: State, st1: State)
    requires Renames(m, e) && Mirrors(m, outer, st, st1)
    ensures SameRun(m, outer, Eval(c, n, e, st), Eval(c, n, Rename(m, e), st1))
    decreases e, 1
  {
    hide Mirrors, Read, Invoke, Perform;
    match e
    case Lit(_) =>
    case Var(b) => ReadMirrors(m, outer, st, st1, b);
    case Let(_, bs, body) =>
      BindsRename(m, outer, c, n, bs, st, st1);
      var r := EvalBinds(c, n, false, bs, st);
      if r.Bound? { EvalRenames(m, outer, c, n, body, r.st, EvalBinds(c, n, false, RenameLet(m, bs), st1).st); }
    case Call(args, spliced, f, isTail) =>
      OpsRename(m, outer, c, n, args, st, st1);
      var r := EvalOps(c, n, args, st);
      if r.Vals? {
        var t1 := EvalOps(c, n, RenameAll(m, args), st1).st;
        EvalRenames(m, outer, c, n, f, r.st, t1);
        var s, s1 := Eval(c, n, f, r.st), Eval(c, n, Rename(m, f), t1);
        if s.out.Val? { InvokeMirrors(m, outer, c, n, s.out.value, r.values, spliced, isTail, s.st, s1.st); }
      }
    case Strict(op, args) =>
      OpsRename(m, outer, c, n, args, st, st1);
      var r := EvalOps(c, n, args, st);
      if r.Vals? { PerformMirrors(m, outer, c.host, op, r.values, r.st, EvalOps(c, n, RenameAll(m, args), st1).st); }
    case _ => BranchRenames(m, outer, c, n, e, st, st1);
  }

  lemma {:induction false} BranchRenames(m: Renaming, outer: Frame, c: Ctx, n: nat, e: Hir, st: State, st1: State)
    requires Renames(m, e) && Mirrors(m, outer, st, st1) && (e.If? || e.Cond? || e.Begin? || e.Logic? || e.Match?)
    ensures SameRun(m, outer, Eval(c, n, e, st), Eval(c, n, Rename(m, e), st1))
    decreases e, 0
  {
    hide Mirrors, Read, Invoke, Perform;
    match e
    case If(x, t, f) =>
      EvalRenames(m, outer, c, n, x, st, st1);
      var r, r1 := Eval(c, n, x, st), Eval(c, n, Rename(m, x), st1);
      EvalRenames(m, outer, c, n, t, r.st, r1.st);
      EvalRenames(m, outer, c, n, f, r.st, r1.st);
    case Cond(cl) => ClausesRename(m, outer, c, n, cl, st, st1);
    case Begin(es) => SeqRenames(m, outer, c, n, es, st, st1);
    case Logic(conj, es) => LogicRenames(m, outer, c, n, conj, es, st, st1);
    case Match(x, arms) =>
      EvalRenames(m, outer, c, n, x, st, st1);
      var r, r1 := Eval(c, n, x, st), Eval(c, n, Rename(m, x), st1);
      if r.out.Val? { ArmsRename(m, outer, c, n, r.out.value, arms, r.st, r1.st); }
  }

  lemma {:induction false} OpsRename(m: Renaming, outer: Frame, c: Ctx, n: nat, es: Hirs, st: State, st1: State)
    requires RenamesAll(m, es) && Mirrors(m, outer, st, st1)
    ensures SameOps(m, outer, EvalOps(c, n, es, st), EvalOps(c, n, RenameAll(m, es), st1))
    decreases es, 0
  {
    hide Mirrors, Eval;
    if es.HCons? {
      EvalRenames(m, outer, c, n, es.head, st, st1);
      OpsRename(m, outer, c, n, es.tail, Eval(c, n, es.head, st).st, Eval(c, n, Rename(m, es.head), st1).st);
    }
  }

  lemma {:induction false} BindsRename(m: Renaming, outer: Frame, c: Ctx, n: nat, bs: Binds, st: State, st1: State)
    requires RenamesLet(m, bs) && Mirrors(m, outer, st, st1)
    ensures SameBinds(m, outer, EvalBinds(c, n, false, bs, st), EvalBinds(c, n, false, RenameLet(m, bs), st1))
    decreases bs, 0
  {
    hide Mirrors, Eval, Bind, Private;
    if bs.BCons? {
      EvalRenames(m, outer, c, n, bs.init, st, st1);
      var r, r1 := Eval(c, n, bs.init, st), Eval(c, n, Rename(m, bs.init), st1);
      if r.out.Val? {
        BindMirrors(m, outer, r.st, r1.st, bs.binding, r.out.value);
        BindsRename(m, outer, c, n, bs.rest, Bind(r.st, bs.binding, r.out.value),
            Bind(r1.st, To(m, bs.binding), r.out.value));
      }
    }
  }

  lemma {:induction false} SeqRenames(m: Renaming, outer: Frame, c: Ctx, n: nat, es: Hirs, st: State, st1: State)
    requires RenamesAll(m, es) && Mirrors(m, outer, st, st1)
    ensures SameRun(m, outer, EvalSeq(c, n, es, st), EvalSeq(c, n, RenameAll(m, es), st1))
    decreases es, 0
  {
    hide Mirrors, Eval;
    if es.HCons? {
      EvalRenames(m, outer, c, n, es.head, st, st1);
      SeqRenames(m, outer, c, n, es.tail, Eval(c, n, es.head, st).st, Eval(c, n, Rename(m, es.head), st1).st);
    }
  }

  lemma {:induction false} LogicRenames(m: Renaming, outer: Frame, c: Ctx, n: nat, conj: bool, es: Hirs, st: State,
          st1: State)
    requires RenamesAll(m, es) && Mirrors(m, outer, st, st1)
    ensures SameRun(m, outer, EvalLogic(c, n, conj, es, st), EvalLogic(c, n, conj, RenameAll(m, es), st1))
    decreases es, 0
  {
    hide Mirrors, Eval;
    if es.HCons? {
      EvalRenames(m, outer, c, n, es.head, st, st1);
      LogicRenames(m, outer, c, n, conj, es.tail, Eval(c, n, es.head, st).st, Eval(c, n, Rename(m, es.head), st1).st);
    }
  }

  lemma {:induction false} ClausesRename(m: Renaming, outer: Frame, c: Ctx, n: nat, cl: Clauses, st: State, st1: State)
    requires RenamesClauses(m, cl) && Mirrors(m, outer, st, st1)
    ensures SameRun(m, outer, EvalClauses(c, n, cl, st), EvalClauses(c, n, RenameClauses(m, cl), st1))
    decreases cl, 0
  {
    hide Mirrors, Eval;
    match cl
    case NoElse =>
    case Else(e) => EvalRenames(m, outer, c, n, e, st, st1);
    case Clause(x, b, rest) =>
      EvalRenames(m, outer, c, n, x, st, st1);
      var r, r1 := Eval(c, n, x, st), Eval(c, n, Rename(m, x), st1);
      EvalRenames(m, outer, c, n, b, r.st, r1.st);
      ClausesRename(m, outer, c, n, rest, r.st, r1.st);
  }

  lemma {:induction false} ArmsRename(m: Renaming, outer: Frame, c: Ctx, n: nat, v: Value, arms: Arms, st: State,
          st1: State)
    requires RenamesArms(m, arms) && Mirrors(m, outer, st, st1)
    ensures SameRun(m, outer, EvalArms(c, n, v, arms, st), EvalArms(c, n, v, RenameArms(m, arms), st1))
    decreases arms, 0
  {
    hide Mirrors, Eval, BindAll, PrivateAll, ToAll;
    if arms.ACons? {
      var h := c.host(MatchOp(arms.pattern.shape), [v], st.world);
      WorldMirrors(m, outer, st, st1, h.world);
      var t, t1 := st.(world := h.world), st1.(world := h.world);
      if h.Raised? {
        ArmsRename(m, outer, c, n, v, arms.rest, t, t1);
      } else {
        BindAllMirrors(m, outer, t, t1, arms.pattern.vars, h.values);
        var u, u1 := BindAll(t, arms.pattern.vars, h.values), BindAll(t1, ToAll(m, arms.pattern.vars), h.values);
        if arms.guard.None? {
          EvalRenames(m, outer, c, n, arms.body, u, u1);
        } else {
          EvalRenames(m, outer, c, n, arms.guard.value, u, u1);
          var r, r1 := Eval(c, n, arms.guard.value, u), Eval(c, n, Rename(m, arms.guard.value), u1);
          EvalRenames(m, outer, c, n, arms.body, r.st, r1.st);
          ArmsRename(m, outer, c, n, v, arms.rest, r.st, r1.st);
        }
      }
    }
  }

  // ----- close, then graft ---------------------------------------------------------------------------------

  /** What one close and one graft are given. */
  datatype Splice = Splice(body: Hir, params: seq<Binding>, arena: Arena, allow: bool, resolve: Resolve, size: nat)

  /** The body binds each name once and closes, and the host knows each global it names. */
  ghost predicate Sound(t: Splice) {
    && Closable(t.body, t.params, t.arena, t.allow)
    && Known(CloseWithGlobals(t.body, t.params, t.arena, t.allow).value.fragment.table, t.resolve, t.size)
  }

  ghost function ClosedAt(t: Splice): Closed
    requires Sound(t)
  {
    CloseWithGlobals(t.body, t.params, t.arena, t.allow).value
  }

  ghost function HostAll(t: Splice): seq<Binding>
    requires Sound(t)
  {
    Hosts(ClosedAt(t).fragment.table, t.resolve, t.size)
  }

  ghost function Grafted(t: Splice): Hir
    requires Sound(t)
  {
    GraftedBody(t.body, t.params, t.arena, t.allow, t.resolve, t.size);
    Rebind(ClosedAt(t).fragment.body, Grafting(HostAll(t))).value.tree
  }

  ghost function Naming(t: Splice): Renaming
    requires Sound(t)
  {
    RenamingOf(t.body, t.params, t.arena, t.allow, Site(HostAll(t), t.size))
  }

  /**
    From any frame in which each of the body's names holds what its host binding
    holds, the graft has the outcome of the body, the same effects on the world,
    and leaves what the host already had bound as it was.
  */
  lemma GraftRunsTheSame(t: Splice, c: Ctx, n: nat, outer: Frame, st: State, st1: State)
    requires Sound(t) && Mirrors(Naming(t), outer, st, st1)
    ensures SameRun(Naming(t), outer, Eval(c, n, t.body, st), Eval(c, n, Grafted(t), st1))
  {
    hide Closable, Known, Mirrors, Eval, SameRun, Rename, Renames, Rebind, Hosts, RenamingOf, CloseWithGlobals;
    GraftedBody(t.body, t.params, t.arena, t.allow, t.resolve, t.size);
    EvalRenames(Naming(t), outer, c, n, t.body, st, st1);
  }

  // ----- the body in place of a call -----------------------------------------------------------------------

  lemma {:induction false} ParamsAreVars(r: Rebinder, ps: seq<Binding>)
    requires r.Closing? && OnceVars(ps, r.index.Keys)
    ensures IntroduceAll(r, ps) == RebindVars(ps, r)
    decreases |ps|
  {
    if ps != [] {
      assert Introduce(r, ps[0]).r.index.Keys == r.index.Keys + {ps[0]};
      ParamsAreVars(Introduce(r, ps[0]).r, ps[1..]);
    }
  }

  lemma {:induction false} HostVars(vs: seq<Binding>, host: seq<Binding>)
    ensures RebindVars(vs, Grafting(host)).tree == seq(|vs|, i requires 0 <= i < |vs| => HostOf(host, vs[i]))
    decreases |vs|
  {
    if vs != [] { HostVars(vs[1..], host); }
  }

  /** The host bindings of the parameters, read out of the graft by the indices that closing gave. */
  ghost function HostParams(t: Splice): seq<Binding>
    requires Sound(t)
  {
    var ps := ClosedAt(t).params;
    seq(|ps|, i requires 0 <= i < |ps| => HostOf(HostAll(t), ps[i]))
  }

  ghost function End(t: Splice): (fin: Rebinder)
    requires Sound(t)
  {
    Finished(t.body, t.params, t.arena, t.allow)
  }

  lemma EndIsSound(t: Splice)
    requires Sound(t)
    ensures TableSound(End(t)) && End(t).table == ClosedAt(t).fragment.table && End(t).globals == ClosedAt(t).globals
    ensures Naming(t) == Through(End(t), Site(HostAll(t), t.size)) && HostSound(End(t), Site(HostAll(t), t.size))
  {
    hide TableSound, HostSound, Hosts, Through, Rebind, IntroduceAll;
    FinishedIsSound(t.body, t.params, t.arena, t.allow);
    HostIsSound(End(t), t.resolve, t.size);
  }

  lemma ParamsGo(t: Splice)
    requires Sound(t)
    ensures PrivateAll(Naming(t), t.params) && HostParams(t) == ToAll(Naming(t), t.params)
  {
    hide TableSound, HostSound, Hosts, Through, Rebind, IntroduceAll, RebindVars, Once, OnceVars, Met, PrivateAll,
         ToAll, Naming;
    EndIsSound(t);
    var r0 := Closing(t.arena, t.allow, map[], [], []);
    assert r0.index.Keys == {};
    EmptyIsSound(t.arena, t.allow);
    ParamsAreVars(r0, t.params);
    ParamsClosed(t.params, t.arena, t.allow);
    var r1 := IntroduceAll(r0, t.params).r;
    ClosingGrows(t.body, r1);
    StepMeans(r1, End(t), Met(t.body, r1.index.Keys));
    var host := Site(HostAll(t), t.size);
    VarsTrip(t.params, r0, End(t), host);
    HostVars(ClosedAt(t).params, host.bindings);
  }

  /** Before the call: each global holds the same in both units, and no name of the body is bound yet. */
  ghost predicate Ready(t: Splice, st: State, st1: State)
    requires Sound(t)
  {
    && st.world == st1.world && st.dyn == st1.dyn && st.mints == st1.mints
    && (forall g :: g in ClosedAt(t).globals ==>
       g.0 < |HostAll(t)| && SameSlot(st.frame, g.1, st1.frame, HostAll(t)[g.0]))
    && (forall b :: b in st.frame && b in Naming(t).to ==> b in GlobalNames(ClosedAt(t).globals))
    && (forall x :: x in st1.frame ==> x.id < t.size)
  }

  ghost function GlobalNames(globals: seq<(nat, Binding)>): set<Binding> {
    set g | g in globals :: g.1
  }

  ghost predicate SameSlot(f: Frame, b: Binding, g: Frame, x: Binding) {
    (b in f <==> x in g) && (b in f && x in g ==> f[b] == g[x])
  }

  lemma ReadyMirrors(t: Splice, st: State, st1: State)
    requires Sound(t) && Ready(t, st, st1)
    ensures Mirrors(Naming(t), st1.frame, st, st1)
  {
    hide Sound, Hosts, HostAll, Finished, Naming, ClosedAt;
    EndIsSound(t);
    var fin := End(t);
    var m := Naming(t);
    forall b | b in m.to ensures SameSlot(st.frame, b, st1.frame, m.to[b]) {
      if fin.table[fin.index[b].id].Global? {
        assert (fin.index[b].id, b) in fin.globals;
      } else {
        assert Private(m, b);
        assert b !in GlobalNames(fin.globals);
      }
    }
  }

  /**
    The splice: bind the parameters and run. The graft, over its own copies of the
    parameters, does what the body does over the parameters themselves.
  */
  lemma GraftedCallRunsTheSame(t: Splice, c: Ctx, n: nat, st: State, st1: State, args: seq<Value>)
    requires Sound(t) && Ready(t, st, st1)
    ensures SameRun(Naming(t), st1.frame, Eval(c, n, t.body, BindAll(st, t.params, args)),
              Eval(c, n, Grafted(t), BindAll(st1, HostParams(t), args)))
  {
    hide Sound, Mirrors, Eval, SameRun, Rename, Renames, Rebind, Hosts, Naming, PrivateAll, BindAll, HostParams, Ready,
         ToAll, Grafted;
    ReadyMirrors(t, st, st1);
    ParamsGo(t);
    BindAllMirrors(Naming(t), st1.frame, st, st1, t.params, args);
    GraftRunsTheSame(t, c, n, st1.frame, BindAll(st, t.params, args), BindAll(st1, HostParams(t), args));
  }
}
