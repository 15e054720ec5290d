/**
  Where the original program runs, and how a store moves it on.

  `At` says a state is sane, the code is ready, and the names a scope counts on are
  bound; `Held` that their slots have not changed. A binding list in the midst of its
  bindings (`Amid`) has promised its boxed functions their cells, and delivered some.
  Filling a cell, making one, or storing a plain slot keeps that, and when a `letrec`
  is done all its functions can be called (`Sealed`).
*/
module DeadRealm {
  import opened HirSyntax
  import opened HirEval
  import opened Dead
  import opened DeadNames
  import opened DeadEval
  import opened DeadBound
  import opened DeadStore

  /** The original program, where it runs, and its pure functions in order. */
  datatype Realm = Realm(k: Rules, c: Ctx, order: seq<Binding>)

  ghost predicate FnOk(k: Rules, id: nat, fn: Fn) {
    NamesOk(k, fn.params) && CapturesOk(k, id, fn.captures) && Obeys(k, fn.body)
  }

  ghost predicate FnScoped(k: Rules, id: nat, fn: Fn) {
    k.plan.Some? ==>
        (forall b :: b in EntryOf(k, id) ==> b in k.trusted && Capture(b, true) !in fn.captures)
        && Scoped(k, EntryScope(k, id), fn.body)
  }

  ghost predicate RealmOk(m: Realm) {
    && Setting(m.k, m.c, m.order) && m.k.pass.pure == Elements(m.order) && PlanOk(m.k)
    && (forall id :: id in m.c.code ==> FnOk(m.k, id, m.c.code[id]) && FnScoped(m.k, id, m.c.code[id]))
  }

  /** The names the scope counts on are bound. */
  ghost predicate Placed(k: Rules, o: Owner, sc: Scope, s: State) {
    k.plan.Some? ==> Live(k, o, sc.bound, s) && sc.bound <= sc.open && forall b :: b in sc.open ==> b in k.trusted
  }

  ghost predicate At(m: Realm, o: Owner, sc: Scope, s: State) {
    RealmOk(m) && SaneState(m.k, o, s) && Placed(m.k, o, sc, s)
  }

  /** From one state to the next the scope's slots stay as they are. */
  ghost predicate Held(k: Rules, sc: Scope, s: State, t: State) {
    k.plan.Some? ==> Steady(sc.open, s.frame, t.frame)
  }

  ghost predicate SaneOut(k: Rules, o: Owner, out: Outcome) {
    match out
    case Val(v) => SaneValue(k, o, v)
    case Brk(_, v) => SaneValue(k, o, v)
    case Again(vs) => SaneValues(k, o, vs)
    case Replaced(v) => SaneValue(k, o, v)
    case _ => true
  }

  /** Nothing is asked of a run that is out of steps, or, without a plan, of one that faulted. */
  predicate Over(k: Rules, out: Outcome) {
    out.Timeout? || (k.plan.None? && out.Fault?)
  }

  ghost predicate Kept(k: Rules, p: Owner, sc: Scope, s: State, r: Res) {
    Over(k, r.out) || (SaneOut(k, p, r.out) && SaneState(k, p, r.st) && Held(k, sc, s, r.st))
  }

  ghost predicate OpsKept(k: Rules, p: Owner, sc: Scope, s: State, r: OpsRes) {
    match r
    case Vals(vs, t) => SaneValues(k, p, vs) && SaneState(k, p, t) && Held(k, sc, s, t)
    case Stop(res) => !res.out.Val? && Kept(k, p, sc, s, res)
  }

  predicate Sits(k: Rules, sc: Scope, e: Hir) {
    k.plan.Some? ==> Scoped(k, sc, e)
  }

  // ----- from state to state ---------------------------------------------------------------------------------

  lemma Next(m: Realm, o: Owner, p: Owner, sc: Scope, s: State, t: State)
    requires At(m, o, sc, s) && Grows(o, p) && SaneState(m.k, p, t) && Held(m.k, sc, s, t)
    ensures At(m, p, sc, t)
  {
    hide RealmOk, SaneState, Grows, SlotReady;
    if m.k.plan.Some? { LiveGrows(m.k, o, p, sc.bound, s, t); }
  }

  lemma HeldThen(k: Rules, sc: Scope, s: State, t: State, u: State)
    requires Held(k, sc, s, t) && Held(k, sc, t, u)
    ensures Held(k, sc, s, u)
  {}

  lemma KeptAfter(k: Rules, p: Owner, sc: Scope, s: State, t: State, r: Res)
    requires Held(k, sc, s, t) && Kept(k, p, sc, t, r)
    ensures Kept(k, p, sc, s, r)
  {
    hide SaneState, SaneOut, Held;
    if !Over(k, r.out) { HeldThen(k, sc, s, t, r.st); }
  }

  lemma AtMeans(m: Realm, o: Owner, sc: Scope, s: State)
    requires At(m, o, sc, s)
    ensures RealmOk(m) && SaneState(m.k, o, s) && Held(m.k, sc, s, s) && Placed(m.k, o, sc, s) && Extends({}, o, o)
  {
    hide RealmOk, SaneState;
  }

  /** A name that is not trusted has no slot the scope counts on. */
  lemma NameHeld(m: Realm, o: Owner, sc: Scope, s: State, b: Binding, v: Value)
    requires At(m, o, sc, s) && b !in m.k.trusted
    ensures Held(m.k, sc, s, Bind(s, b, v)) && Held(m.k, sc, s, Write(s, b, v)) && !Followed(m.k, b)
  {
    hide SaneState, Setting, FnOk, FnScoped, Bind, Write, Live;
    if m.k.plan.Some? { BindSteady(sc.open, s, b, v); }
  }

  lemma NamesHeld(m: Realm, o: Owner, sc: Scope, s: State, t: State, bs: seq<Binding>, vs: seq<Value>)
    requires At(m, o, sc, s) && NamesOk(m.k, bs)
    ensures Held(m.k, sc, t, BindAll(t, bs, vs)) && Held(m.k, sc, t, StoreAll(t, bs, vs))
    ensures |bs| == |vs| ==> Held(m.k, sc, t, WriteAll(t, bs, vs))
  {
    hide SaneState, RealmOk, BindAll, StoreAll, WriteAll, Live, Gone;
    if m.k.plan.Some? {
      assert Untouched(sc.open, bs) by { assert forall i :: 0 <= i < |bs| ==> NameOk(m.k, bs[i]); }
      BindAllSteady(sc.open, t, bs, vs);
      StoreAllSteady(sc.open, t, bs, vs);
      if |bs| == |vs| { WriteAllSteady(sc.open, t, bs, vs); }
    }
  }

  lemma HostAt(m: Realm, o: Owner, sc: Scope, s: State, op: HostOp, vs: seq<Value>)
    requires At(m, o, sc, s) && SaneValues(m.k, o, vs)
    ensures var r := m.c.host(op, vs, s.world);
            && At(m, o, sc, s.(world := r.world)) && Held(m.k, sc, s, s.(world := r.world))
            && SaneState(m.k, o, s.(world := r.world))
            && (r.Done? ==> SaneValues(m.k, o, r.values) && SaneValue(m.k, o, First(r.values)))
  {
    hide SaneValue, SaneWorld, SaneFrame, SaneDyn, SlotReady, FnOk, FnScoped, PureFn, SignalsSound;
    var r := m.c.host(op, vs, s.world);
    assert SaneResult(m.k, o, r);
    LitSane(m.k, o, Nil);
  }

  // ----- every construct -----------------------------------------------------------------------------------

  lemma StillPlaced(m: Realm, o: Owner, p: Owner, sc: Scope, s: State, t: State)
    requires At(m, o, sc, s) && Extends({}, o, p) && SaneState(m.k, p, t) && Held(m.k, sc, s, t)
    ensures Placed(m.k, p, sc, t)
  {
    hide SaneState, RealmOk, Held, Placed;
    Next(m, o, p, sc, s, t);
  }

  lemma CapturedSane(m: Realm, o: Owner, sc: Scope, s: State, id: nat, cs: seq<Capture>)
    requires At(m, o, sc, s) && CapturesOk(m.k, id, cs) && (m.k.plan.Some? ==> LambdaScoped(m.k, sc, id, cs))
    ensures SaneValue(m.k, o, Closure(id, Captured(s.frame, cs)))
  {
    hide RealmOk, CapturesOk, SaneWorld, SaneDyn, SlotReady;
    var env := Captured(s.frame, cs);
    forall b | b in env ensures SaneSlot(m.k, o, b, env[b]) { assert SaneSlot(m.k, o, b, s.frame[b]); }
    forall b | b in EntryOf(m.k, id) ensures b in env && SlotReady(m.k, o.ready, b, env[b]) {}
  }

  lemma MintKept(k: Rules, p: Owner, sc: Scope, s: State, t: State)
    requires SaneState(k, p, t) && Held(k, sc, s, t)
    ensures SaneState(k, p, t.(mints := t.mints + 1)) && Held(k, sc, s, t.(mints := t.mints + 1))
  {
    hide SaneFrame, SaneWorld, SaneDyn;
  }

  lemma AtPlaced(m: Realm, o: Owner, sc: Scope, s: State)
    requires RealmOk(m) && SaneState(m.k, o, s) && Placed(m.k, o, sc, s)
    ensures At(m, o, sc, s)
  {}

  /** What is held of a wider scope is held of the narrower one. */
  lemma Narrowed(k: Rules, p: Owner, sc: Scope, sc1: Scope, s: State, r: Res, e: Hir)
    requires sc1 == AfterItem(k, sc, e) && Kept(k, p, sc1, s, r)
    ensures Kept(k, p, sc, s, r)
  {
    hide SaneState, SaneOut;
  }

  lemma OpsKeptAfter(k: Rules, p: Owner, sc: Scope, s: State, t: State, v: Value, r: OpsRes)
    requires Held(k, sc, s, t) && SaneValue(k, p, v) && OpsKept(k, p, sc, t, r)
    ensures OpsKept(k, p, sc, s, if r.Vals? then Vals([v] + r.values, r.st) else r)
  {
    hide SaneState, SaneValue, Held;
    if r.Vals? { HeldThen(k, sc, s, t, r.st); } else { KeptAfter(k, p, sc, s, t, r.res); }
  }

  /** A matched arm, once its names are bound: its guard, its body, or the arms after it. */
  ghost function Guarded(c: Ctx, n: nat, v: Value, arms: Arms, st: State): Res
    requires arms.ACons?
  {
    if arms.guard.None? then Eval(c, n, arms.body, st)
    else
      var r := Eval(c, n, arms.guard.value, st);
      if !r.out.Val? then r
      else if Truthy(r.out.value) then Eval(c, n, arms.body, r.st) else EvalArms(c, n, v, arms.rest, r.st)
  }

  lemma KeptValue(k: Rules, p: Owner, sc: Scope, s: State, r: Res)
    requires Kept(k, p, sc, s, r) && r.out.Val?
    ensures SaneState(k, p, r.st) && Held(k, sc, s, r.st) && Kept(k, p, sc, s, Res(Val(NilValue), r.st))
  {
    hide SaneState, Held, SaneValue;
    LitSane(k, p, Nil);
  }

  lemma WhileIs(c: Ctx, n: nat, test: Hir, body: Hir, s: State)
    ensures var r := Eval(c, n, test, s);
            RunWhile(c, n, test, body, s) ==
            if !r.out.Val? then r else if !Truthy(r.out.value) then Res(Val(NilValue), r.st)
            else
              var q := Eval(c, n, body, r.st);
              if !q.out.Val? then q else if n == 0 then Res(Timeout, q.st) else RunWhile(c, n - 1, test, body, q.st)
  {
    hide Eval;
  }

  lemma ExtendsGrow(own: set<nat>, o: Owner, p: Owner)
    requires Extends(own, o, p)
    ensures Grows(o, p)
  {}

  lemma {:induction false} LoopNamesOk(k: Rules, bs: Binds)
    requires ObeysLoop(k, bs)
    ensures NamesOk(k, BinderNames(bs))
    decreases bs
  {
    hide Obeys, Gone;
    if bs.BCons? { LoopNamesOk(k, bs.rest); }
  }

  ghost predicate BindsKept(k: Rules, p: Owner, sc: Scope, s: State, r: BindRes) {
    match r
    case Bound(t) => SaneState(k, p, t) && Held(k, sc, s, t)
    case Halt(res) => !res.out.Val? && Kept(k, p, sc, s, res)
  }

  lemma BindsKeptAfter(k: Rules, p: Owner, sc: Scope, s: State, t: State, r: BindRes)
    requires Held(k, sc, s, t) && BindsKept(k, p, sc, t, r)
    ensures BindsKept(k, p, sc, s, r)
  {
    hide SaneState, Held;
    if r.Bound? { HeldThen(k, sc, s, t, r.st); } else { KeptAfter(k, p, sc, s, t, r.res); }
  }

  lemma RealmMeans(m: Realm, o: Owner, sc: Scope, s: State)
    requires At(m, o, sc, s)
    ensures PlanOk(m.k) && SaneState(m.k, o, s)
  {}

  // ----- operations and calls ------------------------------------------------------------------------------

  lemma OverlaidSane(m: Realm, o: Owner, sc: Scope, s: State, vs: seq<Value>)
    requires At(m, o, sc, s) && SaneValues(m.k, o, vs)
    ensures At(m, o, sc, s.(dyn := Overlay(s.dyn, vs)))
  {
    hide SaneFrame, SaneWorld, SaneValue, RealmOk, Overlay;
    OverlaySane(m.k, o, s.dyn, vs);
  }

  lemma RestoredSane(k: Rules, o: Owner, p: Owner, sc: Scope, s: State, t: State, u: State)
    requires SaneState(k, o, s) && SaneState(k, p, u) && Extends({}, o, p) && t.frame == s.frame && Held(k, sc, t, u)
    ensures SaneState(k, p, u.(dyn := s.dyn)) && Held(k, sc, s, u.(dyn := s.dyn))
  {
    hide SaneFrame, SaneWorld, SaneDyn, Grows;
    DynGrows(k, o, p, s.dyn);
  }

  lemma PerformSane(m: Realm, o: Owner, sc: Scope, op: Op, args: Hirs, vs: seq<Value>, s: State) returns (p: Owner)
    requires At(m, o, sc, s) && SaneValues(m.k, o, vs) && OpOk(m.k, op, args) && !op.Define?
    ensures Extends({}, o, p) && Kept(m.k, p, sc, s, Perform(m.c.host, op, vs, s))
  {
    hide At, SaneState, SaneValue, Held, Placed, Gone, Write, StoreAll, NamesOk;
    AtMeans(m, o, sc, s);
    LitSane(m.k, o, Nil);
    PlanTrusts(m);
    p := o;
    match op
    case Intrinsic(code, _, _) => HostAt(m, o, sc, s, PrimOp(code), vs);
    case Emit(signal) => HostAt(m, o, sc, s, EmitOp(signal), vs);
    case RunDatum => HostAt(m, o, sc, s, EvalOp, vs);
    case MakeCell =>
    case DerefCell =>
    case SetCell(b) => NameHeld(m, o, sc, s, b, First(vs)); WriteSane(m.k, o, s, b, First(vs));
    case Assign(b) => NameHeld(m, o, sc, s, b, First(vs)); WriteSane(m.k, o, s, b, First(vs));
    case Destructure(pat, _) =>
      HostAt(m, o, sc, s, MatchOp(pat.shape), vs);
      var r := m.c.host(MatchOp(pat.shape), vs, s.world);
      if r.Done? {
        var s1 := s.(world := r.world);
        p := StoreAllSane(m.k, o, s1, pat.vars, r.values);
        NamesHeld(m, o, sc, s, s1, pat.vars, r.values);
        HeldThen(m.k, sc, s, s1, StoreAll(s1, pat.vars, r.values));
        LitSane(m.k, p, Nil);
      }
    case Recur =>
  }

  lemma ParamSane(k: Rules, o: Owner, s: State, id: nat, default: Value)
    requires SaneState(k, o, s) && SaneValue(k, o, HirEval.Param(id, default))
    ensures SaneValue(k, o, if id in s.dyn then s.dyn[id] else default)
  {}

  lemma EntryAt(m: Realm, o: Owner, sc: Scope, f: Value, s: State)
    requires At(m, o, sc, s) && f.Closure? && f.id in m.c.code && SaneValue(m.k, o, f)
    ensures At(m, o, EntryScope(m.k, f.id), State(EntryFrame(f, m.c.code[f.id]), s.dyn, s.world, 0))
  {
    hide SaneWorld, SaneDyn, Setting, SlotReady, Scoped, Obeys, CapturesOk, NamesOk;
    var fn := m.c.code[f.id];
    var entry := State(EntryFrame(f, fn), s.dyn, s.world, 0);
    assert FnOk(m.k, f.id, fn) && FnScoped(m.k, f.id, fn);
    EntrySane(m.k, o, f, fn, entry);
    forall b | b in EntryOf(m.k, f.id) ensures b in entry.frame && SlotReady(m.k, o.ready, b, entry.frame[b]) {
      assert entry.frame[b] == f.env[b];
    }
  }

  lemma CodeAt(m: Realm, o: Owner, sc: Scope, s: State, id: nat)
    requires At(m, o, sc, s) && id in m.c.code
    ensures NamesOk(m.k, m.c.code[id].params) && Obeys(m.k, m.c.code[id].body)
    ensures Sits(m.k, EntryScope(m.k, id), m.c.code[id].body)
  {
    hide NamesOk, Obeys, Scoped, Setting, SaneState;
    assert FnOk(m.k, id, m.c.code[id]) && FnScoped(m.k, id, m.c.code[id]);
  }

  /** The caller gets its own frame back, in the world the call left. */
  lemma ReturnedSane(k: Rules, o: Owner, p: Owner, sc: Scope, s: State, s1: State, start: State, r: Res, id: nat)
    requires SaneState(k, o, s1) && s1 == s.(world := s1.world) && Extends({}, o, p)
    requires Kept(k, p, EntryScope(k, id), start, r)
    ensures Kept(k, p, sc, s, Res(FnResult(r.out), State(s.frame, s.dyn, r.st.world, s.mints)))
  {
    hide SaneFrame, SaneWorld, SaneDyn, SaneValue, Grows;
    FrameGrows(k, o, p, s.frame);
    DynGrows(k, o, p, s.dyn);
  }

  // ----- let, letrec and def -------------------------------------------------------------------------------

  /** What a `letrec` promised of its boxed functions: each has its cell, which waits for all of them until filled. */
  ghost predicate Promised(o: Owner, at: map<Binding, nat>, todo: set<Binding>, f: Frame) {
    forall b :: b in at ==>
      && b.boxed && b in f && f[b] == Cell(at[b]) && at[b] in o.mates
      && (if b in todo then o.mates[at[b]] == at.Values else o.mates[at[b]] <= at.Values && at[b] in o.filled)
  }

  /** What has become of the functions that live in plain slots. */
  ghost predicate Delivered(k: Rules, o: Owner, at: map<Binding, nat>, done: set<Binding>, f: Frame) {
    forall b :: b in done && !b.boxed ==> b in f && f[b].Plain? && Ready(k, o.ready + at.Values, b, f[b].value)
  }

  /** In the midst of a binding list: `done` of its followed names are bound, and the rest of it is `bs`. */
  ghost predicate Amid(m: Realm, o: Owner, sc: Scope, at: map<Binding, nat>, done: set<Binding>, bs: Binds, s: State) {
    && At(m, o, sc, s)
    && (m.k.plan.Some? ==>
          && Promised(o, at, Heads(m.k, bs), s.frame) && Delivered(m.k, o, at, done, s.frame)
          && at.Keys <= sc.open && done <= sc.open && ScopedBinds(m.k, at.Keys, sc, bs))
  }

  ghost predicate BindsEnd(m: Realm, p: Owner, sc: Scope, at: map<Binding, nat>, done: set<Binding>, bs: Binds,
          s: State, r: BindRes) {
    match r
    case Bound(t) => Amid(m, p, Through(m.k, sc, bs), at, done + Heads(m.k, bs), BNil, t) && Held(m.k, sc, s, t)
    case Halt(res) => !res.out.Val? && Kept(m.k, p, sc, s, res)
  }

  lemma AmidMeans(m: Realm, o: Owner, sc: Scope, at: map<Binding, nat>, done: set<Binding>, bs: Binds, s: State)
    requires Amid(m, o, sc, at, done, bs, s)
    ensures At(m, o, sc, s) && RealmOk(m) && SaneState(m.k, o, s) && Placed(m.k, o, sc, s) && Held(m.k, sc, s, s)
    ensures m.k.plan.Some? ==> ScopedBinds(m.k, at.Keys, sc, bs)
  {
    hide RealmOk, SaneState, Placed, Promised, Delivered, ScopedBinds, Held;
    AtMeans(m, o, sc, s);
  }

  /** Evaluating an initializer leaves the promises as they were. */
  lemma AmidNext(m: Realm, o: Owner, p: Owner, sc: Scope, at: map<Binding, nat>, done: set<Binding>, bs: Binds,
          s: State, t: State)
    requires Amid(m, o, sc, at, done, bs, s) && Extends({}, o, p) && SaneState(m.k, p, t) && Held(m.k, sc, s, t)
    ensures Amid(m, p, sc, at, done, bs, t)
  {
    hide At, SaneState, Ready, ScopedBinds, Heads;
    Next(m, o, p, sc, s, t);
    if m.k.plan.Some? {
      forall b | b in done && !b.boxed ensures Ready(m.k, p.ready + at.Values, b, t.frame[b].value) {
        ReadyGrows(m.k, o.ready + at.Values, p.ready + at.Values, b, s.frame[b].value);
      }
    }
  }

  /** How a binding list stores a value. */
  function Put(rec: bool, s: State, b: Binding, v: Value): State {
    if rec then Write(s, b, v) else Bind(s, b, v)
  }

  lemma DroppedStep(m: Realm, o: Owner, sc: Scope, n: nat, rec: bool, at: map<Binding, nat>, done: set<Binding>,
          bs: Binds, s: State)
    requires Amid(m, o, sc, at, done, bs, s) && ObeysLet(m.k, bs) && bs.BCons?
    requires Eliminable(m.k.pass, bs.binding, bs.init)
    ensures var r := Eval(m.c, n, bs.init, s);
            && Heads(m.k, bs.rest) == Heads(m.k, bs)
            && (!r.out.Val? ==> Over(m.k, r.out))
            && (r.out.Val? ==> Held(m.k, sc, s, Put(rec, r.st, bs.binding, r.out.value)))
            && (r.out.Val? ==> Amid(m, o, sc, at, done, bs.rest, Put(rec, r.st, bs.binding, r.out.value)))
  {
    hide Amid, SaneState, SaneValue, Held, Placed, At, Bind, Write, Gone, Scoped, Harmless, EffectFree, Eval,
         Eliminable;
    AmidMeans(m, o, sc, at, done, bs, s);
    var b, init := bs.binding, bs.init;
    var r := Eval(m.c, n, init, s);
    DropSane(m, o, sc, n, b, init, s);
    AmidDropped(m, o, sc, at, done, bs, s, if r.out.Val? then Put(rec, r.st, b, r.out.value) else s);
  }

  lemma AmidDropped(m: Realm, o: Owner, sc: Scope, at: map<Binding, nat>, done: set<Binding>, bs: Binds, s: State,
          t: State)
    requires Amid(m, o, sc, at, done, bs, s) && SaneState(m.k, o, t) && Held(m.k, sc, s, t) && bs.BCons?
    requires Eliminable(m.k.pass, bs.binding, bs.init) && bs.binding !in m.k.trusted
    ensures Amid(m, o, sc, at, done, bs.rest, t) && Heads(m.k, bs.rest) == Heads(m.k, bs)
  {
    hide SaneState, Held, At, Promised, Delivered, Eliminable, Scoped;
    ExtendsSelf({}, o);
    assert !Followed(m.k, bs.binding) by { AmidMeans(m, o, sc, at, done, bs, s); PlanTrusts(m); }
    assert Heads(m.k, bs) == Heads(m.k, bs.rest);
    AmidNext(m, o, o, sc, at, done, bs, s, t);
  }

  lemma EndAfter(m: Realm, p: Owner, sc: Scope, at: map<Binding, nat>, done: set<Binding>, bs: Binds, s: State,
          t: State, r: BindRes)
    requires bs.BCons? && Eliminable(m.k.pass, bs.binding, bs.init) && Heads(m.k, bs.rest) == Heads(m.k, bs)
    requires Held(m.k, sc, s, t) && BindsEnd(m, p, sc, at, done, bs.rest, t, r)
    ensures BindsEnd(m, p, sc, at, done, bs, s, r)
  {
    hide Amid, Held, Kept, Eliminable;
    if r.Bound? { HeldThen(m.k, sc, s, t, r.st); } else { KeptAfter(m.k, p, sc, s, t, r.res); }
  }

  ghost function SceneOf(m: Realm, o: Owner, sc: Scope): Scene {
    Scene(m.k, m.c, o, m.order, |m.order|, true, m.k.plan.Some?, sc.bound)
  }

  /** A dropped initializer gives a value and leaves the state sane; without a plan it may fault. */
  lemma DropSane(m: Realm, o: Owner, sc: Scope, n: nat, b: Binding, init: Hir, s: State)
    requires At(m, o, sc, s) && DropOk(m.k, b, init) && (m.k.plan.Some? ==> Callees(init) <= sc.bound)
    ensures var x := SceneOf(m, o, sc); Staged(x, s) && Invisible(x, n > |m.order|, s, Eval(m.c, n, init, s))
    ensures var r := Eval(m.c, n, init, s);
            if !r.out.Val? then Over(m.k, r.out)
            else
              var v := r.out.value;
              && SaneState(m.k, o, Write(r.st, b, v)) && Held(m.k, sc, s, Write(r.st, b, v))
              && SaneState(m.k, o, Bind(r.st, b, v)) && Held(m.k, sc, s, Bind(r.st, b, v))
  {
    hide SaneState, SaneValue, Gone, PureFn, HostSane, SignalsSound, FnOk, FnScoped, Harmless, Bind, Write, Eval, Live;
    var x := SceneOf(m, o, sc);
    assert m.order[..|m.order|] == m.order;
    EvalHarmless(x, n, init, s);
    var r := Eval(m.c, n, init, s);
    if r.out.Val? {
      BindQuiet(m.k, o, r.st, b, r.out.value);
      AgreeSteady(m, o, sc, s, r.st, b, Plain(r.out.value));
    }
  }

  lemma AgreeSteady(m: Realm, o: Owner, sc: Scope, s: State, t: State, b: Binding, slot: Slot)
    requires At(m, o, sc, s) && Steady(m.k.trusted.Keys, s.frame, t.frame) && b !in m.k.trusted
    ensures Held(m.k, sc, s, t.(frame := t.frame[b := slot]))
  {}

  function Also(k: Rules, done: set<Binding>, b: Binding): set<Binding> {
    if Followed(k, b) then done + {b} else done
  }

  /** The name of a kept binding is stored. */
  lemma SiteStep(m: Realm, o: Owner, o1: Owner, sc: Scope, n: nat, rec: bool, at: map<Binding, nat>, done: set<Binding>,
          bs: Binds, s: State)
    returns (o2: Owner)
    requires Amid(m, o, sc, at, done, bs, s) && ObeysLet(m.k, bs) && (!rec ==> at == map[])
    requires m.k.plan.Some? && rec ==> Boxes(m.k, bs) <= at.Keys
    requires bs.BCons? && !Eliminable(m.k.pass, bs.binding, bs.init)
    requires Extends({}, o, o1) && Kept(m.k, o1, sc, s, Eval(m.c, n, bs.init, s)) && Eval(m.c, n, bs.init, s).out.Val?
    ensures var r := Eval(m.c, n, bs.init, s); var t := Put(rec, r.st, bs.binding, r.out.value);
            && Extends(at.Values, o, o2) && Held(m.k, sc, s, r.st) && Held(m.k, sc, r.st, t)
            && Amid(m, o2, NextScope(m.k, sc, bs.binding, bs.init), at, Also(m.k, done, bs.binding), bs.rest, t)
  {
    hide Amid, SaneState, SaneValue, Held, Placed, At, Bind, Write, Gone, Scoped, Eliminable, SiteScoped, SiteOk,
         NextScope, Prepared, Eval;
    var b, init := bs.binding, bs.init;
    ExtendsOwn(at.Values, o, o1);
    var r := Eval(m.c, n, init, s);
    var v := r.out.value;
    AmidNext(m, o, o1, sc, at, done, bs, s, r.st);
    SiteAllowed(m.k, m.c, n, b, init, s);
    if Followed(m.k, b) {
      FollowedIsLambda(m, o, sc, at, done, bs, s, n);
      o2 := FollowedStored(m, o1, sc, rec, at, done, bs, r.st, v);
    } else {
      o2 := PlainStored(m, o1, sc, rec, at, done, bs, r.st, v);
      UnfollowedNext(m.k, sc, b, init);
    }
    ExtendsThen(at.Values, o, o1, o2);
  }

  lemma UnfollowedNext(k: Rules, sc: Scope, b: Binding, e: Hir)
    requires !Followed(k, b)
    ensures NextScope(k, sc, b, e) == sc
  {}

  lemma SiteAllowed(k: Rules, c: Ctx, n: nat, b: Binding, init: Hir, s: State)
    requires SiteOk(k, b, init) && Eval(c, n, init, s).out.Val?
    ensures Allowed(k, b, Eval(c, n, init, s).out.value)
  {}

  /** A followed function is a lambda: its closure is made in the state the site is reached in. */
  lemma FollowedIsLambda(m: Realm, o: Owner, sc: Scope, at: map<Binding, nat>, done: set<Binding>, bs: Binds, s: State,
          n: nat)
    requires Amid(m, o, sc, at, done, bs, s) && bs.BCons? && Followed(m.k, bs.binding)
    requires !Eliminable(m.k.pass, bs.binding, bs.init)
    ensures bs.init.Lambda?
    ensures Eval(m.c, n, bs.init, s) == Res(Val(Closure(bs.init.id, Captured(s.frame, bs.init.captures))), s)
  {
    hide At, Promised, Delivered, Captured, Eliminable, Scoped;
  }

  lemma SiteEnd(m: Realm, p: Owner, sc: Scope, at: map<Binding, nat>, done: set<Binding>, bs: Binds, s: State, u: State,
          t: State, r: BindRes)
    requires bs.BCons? && !Eliminable(m.k.pass, bs.binding, bs.init) && Held(m.k, sc, s, u) && Held(m.k, sc, u, t)
    requires BindsEnd(m, p, NextScope(m.k, sc, bs.binding, bs.init), at, Also(m.k, done, bs.binding), bs.rest, t, r)
    ensures BindsEnd(m, p, sc, at, done, bs, s, r)
  {
    hide Amid, Kept, SaneState, Eliminable, Prepared, Held;
    var b := bs.binding;
    var sc1 := NextScope(m.k, sc, b, bs.init);
    assert Also(m.k, done, b) + Heads(m.k, bs.rest) == done + Heads(m.k, bs);
    HeldThen(m.k, sc, s, u, t);
    if r.Bound? {
      Narrower(m.k, sc, sc1, t, r.st);
      HeldThen(m.k, sc, s, t, r.st);
    } else {
      NarrowerKept(m.k, p, sc, sc1, t, r.res);
      KeptAfter(m.k, p, sc, s, t, r.res);
    }
  }

  lemma Narrower(k: Rules, sc: Scope, sc1: Scope, s: State, t: State)
    requires sc.open <= sc1.open && Held(k, sc1, s, t)
    ensures Held(k, sc, s, t)
  {}

  lemma NarrowerKept(k: Rules, p: Owner, sc: Scope, sc1: Scope, s: State, r: Res)
    requires sc.open <= sc1.open && Kept(k, p, sc1, s, r)
    ensures Kept(k, p, sc, s, r)
  {
    hide SaneState, SaneOut;
  }

  /** A name that is not followed is stored. */
  lemma PlainStored(m: Realm, o: Owner, sc: Scope, rec: bool, at: map<Binding, nat>, done: set<Binding>, bs: Binds,
          s: State, v: Value)
    returns (p: Owner)
    requires Amid(m, o, sc, at, done, bs, s) && bs.BCons? && !Followed(m.k, bs.binding)
    requires !Eliminable(m.k.pass, bs.binding, bs.init)
    requires SaneValue(m.k, o, v) && Allowed(m.k, bs.binding, v)
    ensures var t := if rec then Write(s, bs.binding, v) else Bind(s, bs.binding, v);
            Extends({}, o, p) && Extends(at.Values, o, p) && Held(m.k, sc, s, t) && Amid(m, p, sc, at, done, bs.rest, t)
  {
    hide SaneState, SaneValue, Allowed, Bind, Write, Eliminable, Promised, Delivered, At, Scoped;
    AmidMeans(m, o, sc, at, done, bs, s);
    assert Heads(m.k, bs) == Heads(m.k, bs.rest);
    var b := bs.binding;
    var t := if rec then Write(s, b, v) else Bind(s, b, v);
    p := o;
    ExtendsSelf({}, o);
    if rec { WriteSane(m.k, o, s, b, v); } else { p := BindSane(m.k, o, s, b, v); }
    ExtendsOwn(at.Values, o, p);
    if m.k.plan.Some? { BindSteady(sc.open, s, b, v); }
    AmidNext(m, o, p, sc, at, done, bs, s, t);
  }

  // ----- followed functions --------------------------------------------------------------------------------

  /** The closure of a followed function waits for its letrec's cells at most, for none when all it calls is bound. */
  lemma MadeReady(m: Realm, o: Owner, sc: Scope, at: map<Binding, nat>, b: Binding, lam: Hir, s: State)
    requires At(m, o, sc, s) && m.k.plan.Some? && Prepared(m.k, sc.bound + at.Keys, b, lam)
    requires forall f :: f in at ==> f in s.frame && s.frame[f] == Cell(at[f])
    ensures var v := Closure(lam.id, Captured(s.frame, lam.captures));
            && v != NilValue && Ready(m.k, o.ready + at.Values, b, v)
            && (Prepared(m.k, sc.bound, b, lam) ==> Ready(m.k, o.ready, b, v))
  {
    hide RealmOk, SaneState;
    var env := Captured(s.frame, lam.captures);
    forall f | f in m.k.needs[b] ensures f in env && SlotReady(m.k, o.ready + at.Values, f, env[f]) {
      if f in sc.bound { SlotReadyGrows(m.k, o.ready, o.ready + at.Values, f, s.frame[f]); }
    }
    if Prepared(m.k, sc.bound, b, lam) {
      forall f | f in m.k.needs[b] ensures f in env && SlotReady(m.k, o.ready, f, env[f]) {}
    }
  }

  lemma FollowedStored(m: Realm, o: Owner, sc: Scope, rec: bool, at: map<Binding, nat>, done: set<Binding>, bs: Binds,
          s: State, v: Value)
    returns (p: Owner)
    requires Amid(m, o, sc, at, done, bs, s) && bs.BCons? && Followed(m.k, bs.binding)
    requires !Eliminable(m.k.pass, bs.binding, bs.init)
    requires (!rec ==> at == map[]) && (rec ==> Boxes(m.k, bs) <= at.Keys)
    requires bs.init.Lambda? && v == Closure(bs.init.id, Captured(s.frame, bs.init.captures))
    requires SaneValue(m.k, o, v) && Allowed(m.k, bs.binding, v)
    ensures var t := if rec then Write(s, bs.binding, v) else Bind(s, bs.binding, v);
            && Extends(at.Values, o, p) && Held(m.k, sc, s, t)
            && Amid(m, p, NextScope(m.k, sc, bs.binding, bs.init), at, done + {bs.binding}, bs.rest, t)
  {
    hide Amid, SaneState, SaneValue, Held, Bind, Write, Allowed, Captured, Ready, Eliminable, Scoped, NextScope,
         Prepared;
    var b := bs.binding;
    SiteIs(m, o, sc, at, done, bs, s);
    MadeReady(m, o, sc, at, b, bs.init, s);
    if !b.boxed {
      p := o;
      ExtendsSelf(at.Values, o);
      SlotStored(m, o, sc, rec, at, done, bs, s, v);
    } else if rec {
      p := CellFilled(m, o, sc, at, done, bs, s, v);
    } else {
      p := CellMade(m, o, sc, at, done, bs, s, v);
      ExtendsOwn(at.Values, o, p);
    }
  }

  lemma SiteIs(m: Realm, o: Owner, sc: Scope, at: map<Binding, nat>, done: set<Binding>, bs: Binds, s: State)
    requires Amid(m, o, sc, at, done, bs, s) && bs.BCons? && Followed(m.k, bs.binding)
    requires !Eliminable(m.k.pass, bs.binding, bs.init)
    ensures At(m, o, sc, s) && m.k.plan.Some? && Prepared(m.k, sc.bound + at.Keys, bs.binding, bs.init)
    ensures !Defined(m.k, bs.binding)
    ensures (bs.binding in at || bs.binding !in sc.open) && bs.binding !in Heads(m.k, bs.rest)
    ensures bs.binding in Heads(m.k, bs)
    ensures forall f :: f in at ==> f in s.frame && s.frame[f] == Cell(at[f]) && f.boxed
  {
    hide At, Delivered, Eliminable, Scoped, Prepared;
  }

  /** The scope after a followed function's site. */
  lemma NextPlaced(m: Realm, o: Owner, p: Owner, sc: Scope, b: Binding, e: Hir, s: State, t: State)
    requires At(m, o, sc, s) && m.k.plan.Some? && Grows(o, p) && SaneState(m.k, p, t) && Held(m.k, sc, s, t)
    requires Followed(m.k, b) && b in t.frame
    requires Prepared(m.k, sc.bound, b, e) ==> SlotReady(m.k, p.ready, b, t.frame[b])
    ensures At(m, p, NextScope(m.k, sc, b, e), t)
  {
    hide RealmOk, SaneState, Grows, SlotReady, Prepared, Followed;
    LiveGrows(m.k, o, p, sc.bound, s, t);
    PlanTrusts(m);
  }

  lemma DeliveredGrows(k: Rules, o: Owner, p: Owner, at: map<Binding, nat>, done: set<Binding>, f: Frame, g: Frame)
    requires Delivered(k, o, at, done, f) && o.ready <= p.ready && Steady(done, f, g)
    ensures Delivered(k, p, at, done, g)
  {
    hide Ready;
    forall x | x in done && !x.boxed ensures Ready(k, p.ready + at.Values, x, g[x].value) {
      ReadyGrows(k, o.ready + at.Values, p.ready + at.Values, x, f[x].value);
    }
  }

  lemma AmidParts(m: Realm, o: Owner, sc: Scope, at: map<Binding, nat>, done: set<Binding>, bs: Binds, s: State)
    requires Amid(m, o, sc, at, done, bs, s) && m.k.plan.Some?
    ensures Promised(o, at, Heads(m.k, bs), s.frame) && Delivered(m.k, o, at, done, s.frame) && at.Keys <= sc.open
    ensures done <= sc.open
  {
    hide At, Promised, Delivered, ScopedBinds, Heads;
  }

  lemma AmidWith(m: Realm, p: Owner, sc: Scope, at: map<Binding, nat>, done: set<Binding>, bs: Binds, t: State)
    requires bs.BCons? && Followed(m.k, bs.binding) && at.Keys <= sc.open && done <= sc.open
    requires At(m, p, NextScope(m.k, sc, bs.binding, bs.init), t)
    requires ScopedBinds(m.k, at.Keys, NextScope(m.k, sc, bs.binding, bs.init), bs.rest)
    requires Promised(p, at, Heads(m.k, bs.rest), t.frame) && Delivered(m.k, p, at, done + {bs.binding}, t.frame)
    ensures Amid(m, p, NextScope(m.k, sc, bs.binding, bs.init), at, done + {bs.binding}, bs.rest, t)
  {
    hide At, Promised, Delivered, ScopedBinds, Heads, Prepared;
  }

  /** A function in a plain slot. */
  lemma SlotStored(m: Realm, o: Owner, sc: Scope, rec: bool, at: map<Binding, nat>, done: set<Binding>, bs: Binds,
          s: State, v: Value)
    requires Amid(m, o, sc, at, done, bs, s) && bs.BCons? && Followed(m.k, bs.binding)
    requires !Eliminable(m.k.pass, bs.binding, bs.init)
    requires !bs.binding.boxed && SaneValue(m.k, o, v) && Allowed(m.k, bs.binding, v)
    requires Ready(m.k, o.ready + at.Values, bs.binding, v)
    requires Prepared(m.k, sc.bound, bs.binding, bs.init) ==> Ready(m.k, o.ready, bs.binding, v)
    ensures var t := if rec then Write(s, bs.binding, v) else Bind(s, bs.binding, v);
            && Held(m.k, sc, s, t)
            && Amid(m, o, NextScope(m.k, sc, bs.binding, bs.init), at, done + {bs.binding}, bs.rest, t)
  {
    hide At, SaneState, SaneValue, RealmOk, Allowed, Ready, Eliminable, Scoped, Prepared, ScopedBinds, Heads, Bind,
         Write, Amid, NextScope, Placed;
    var b := bs.binding;
    AmidMeans(m, o, sc, at, done, bs, s);
    AmidParts(m, o, sc, at, done, bs, s);
    BindQuiet(m.k, o, s, b, v);
    SiteIs(m, o, sc, at, done, bs, s);
    NextScoped(m, o, sc, at, done, bs, s);
    HeadsStep(m.k, bs);
    var t := s.(frame := s.frame[b := Plain(v)]);
    NextPlaced(m, o, o, sc, b, bs.init, s, t);
    assert Promised(o, at, Heads(m.k, bs.rest), t.frame);
    assert Delivered(m.k, o, at, done + {b}, t.frame);
    AmidWith(m, o, sc, at, done, bs, t);
  }

  /** A `let`'s function in a cell of its own. */
  lemma CellMade(m: Realm, o: Owner, sc: Scope, at: map<Binding, nat>, done: set<Binding>, bs: Binds, s: State,
          v: Value) returns (p: Owner)
    requires at == map[] && Amid(m, o, sc, at, done, bs, s) && bs.BCons? && Followed(m.k, bs.binding)
    requires !Eliminable(m.k.pass, bs.binding, bs.init)
    requires bs.binding.boxed && SaneValue(m.k, o, v) && Allowed(m.k, bs.binding, v) && v != NilValue
    requires Ready(m.k, o.ready + at.Values, bs.binding, v)
    ensures Extends({}, o, p) && Held(m.k, sc, s, Bind(s, bs.binding, v))
    ensures Amid(m, p, NextScope(m.k, sc, bs.binding, bs.init), at, done + {bs.binding}, bs.rest,
              Bind(s, bs.binding, v))
  {
    hide At, SaneState, SaneValue, RealmOk, Allowed, Ready, Eliminable, Scoped, Prepared, ScopedBinds, Heads, Bind,
         Amid, NextScope, Placed;
    var b := bs.binding;
    AmidMeans(m, o, sc, at, done, bs, s);
    AmidParts(m, o, sc, at, done, bs, s);
    SiteIs(m, o, sc, at, done, bs, s);
    NextScoped(m, o, sc, at, done, bs, s);
    assert o.ready + at.Values == o.ready;
    p := Newly(o, |s.world.cells|, b, true);
    NewCellSane(m.k, o, s, b, v, true);
    var t := Bind(s, b, v);
    BindSteady(sc.open, s, b, v);
    CellSlot(s, b, v);
    NextPlaced(m, o, p, sc, b, bs.init, s, t);
    DeliveredGrows(m.k, o, p, at, done, s.frame, t.frame);
    AmidWith(m, p, sc, at, done, bs, t);
  }

  lemma CellSlot(s: State, b: Binding, v: Value)
    requires b.boxed
    ensures Bind(s, b, v).frame == s.frame[b := Cell(|s.world.cells|)]
  {}

  /** What is known once a letrec's function is in its cell. */
  ghost function Fills(o: Owner, loc: nat, early: bool): Owner {
    if early then AlsoReady(o, o.of, loc) else o.(filled := o.filled + {loc})
  }

  lemma FillFirm(k: Rules, o: Owner, w: World, loc: nat, v: Value, early: bool)
    requires SaneWorld(k, o, w) && loc in o.mates && v != NilValue && Ready(k, o.ready + o.mates[loc], o.of[loc], v)
    requires early ==> Ready(k, o.ready, o.of[loc], v)
    ensures var p := Fills(o, loc, early); Grows(o, p) && Firm(k, p, w.(cells := w.cells[loc := v]))
  {
    hide SaneValues, Allowed, Ready, Wired, Settled;
    OldCells(k, o, w);
    FillWired(k, o, w, loc, v, early);
    assert Settled(k, Fills(o, loc, early)) by {
      assert Followed(k, o.of[loc]) by { MatesFollowed(k, o, loc); }
      if early { SettledWith(k, o, o.of, loc); } else { SettledFilled(k, o, loc); }
    }
  }

  lemma MatesFollowed(k: Rules, o: Owner, loc: nat)
    requires Settled(k, o) && loc in o.mates
    ensures loc in o.of && Followed(k, o.of[loc])
  {}

  lemma SettledFilled(k: Rules, o: Owner, loc: nat)
    requires Settled(k, o)
    ensures Settled(k, o.(filled := o.filled + {loc}))
  {}

  lemma FillWired(k: Rules, o: Owner, w: World, loc: nat, v: Value, early: bool)
    requires Wired(k, o, w) && loc in o.mates && loc < |w.cells| && Ready(k, o.ready + o.mates[loc], o.of[loc], v)
    requires early ==> Ready(k, o.ready, o.of[loc], v)
    ensures Wired(k, Fills(o, loc, early), w.(cells := w.cells[loc := v]))
  {
    hide Ready;
    var p, w1 := Fills(o, loc, early), w.(cells := w.cells[loc := v]);
    forall x | x in p.mates && w1.cells[x] != NilValue ensures Ready(k, p.ready + p.mates[x], p.of[x], w1.cells[x]) {
      if x != loc {
        ReadyGrows(k, o.ready + o.mates[x], p.ready + p.mates[x], o.of[x], w.cells[x]);
      } else if early {
        ReadyGrows(k, o.ready, p.ready + p.mates[x], o.of[x], v);
      }
    }
  }

  lemma CellFilled(m: Realm, o: Owner, sc: Scope, at: map<Binding, nat>, done: set<Binding>, bs: Binds, s: State,
          v: Value) returns (p: Owner)
    requires Amid(m, o, sc, at, done, bs, s) && bs.BCons? && Followed(m.k, bs.binding)
    requires !Eliminable(m.k.pass, bs.binding, bs.init)
    requires bs.binding in at && SaneValue(m.k, o, v) && Allowed(m.k, bs.binding, v) && v != NilValue
    requires Ready(m.k, o.ready + at.Values, bs.binding, v)
    requires Prepared(m.k, sc.bound, bs.binding, bs.init) ==> Ready(m.k, o.ready, bs.binding, v)
    ensures Extends(at.Values, o, p) && Held(m.k, sc, s, Write(s, bs.binding, v))
    ensures Amid(m, p, NextScope(m.k, sc, bs.binding, bs.init), at, done + {bs.binding}, bs.rest,
              Write(s, bs.binding, v))
  {
    hide At, SaneState, SaneValue, RealmOk, Allowed, Ready, Eliminable, Scoped, Prepared, ScopedBinds, Heads, Amid,
         NextScope, Placed;
    var b := bs.binding;
    AmidMeans(m, o, sc, at, done, bs, s);
    AmidParts(m, o, sc, at, done, bs, s);
    SiteIs(m, o, sc, at, done, bs, s);
    NextScoped(m, o, sc, at, done, bs, s);
    var loc, early := at[b], Prepared(m.k, sc.bound, b, bs.init);
    OwnersOf(m.k, o, at, Heads(m.k, bs), s);
    p := Fills(o, loc, early);
    var t := Write(s, b, v);
    assert t == s.(world := s.world.(cells := s.world.cells[loc := v]));
    FilledSane(m.k, o, s, loc, v, early);
    NextPlaced(m, o, p, sc, b, bs.init, s, t);
    PromisedFilled(m.k, o, at, bs, s.frame, early);
    DeliveredGrows(m.k, o, p, at, done, s.frame, t.frame);
    AmidWith(m, p, sc, at, done, bs, t);
  }

  lemma PromisedFilled(k: Rules, o: Owner, at: map<Binding, nat>, bs: Binds, f: Frame, early: bool)
    requires bs.BCons? && Followed(k, bs.binding) && bs.binding in at && bs.binding !in Heads(k, bs.rest)
    requires Promised(o, at, Heads(k, bs), f) && forall b :: b in at ==> at[b] in o.of && o.of[at[b]] == b
    ensures Promised(Fills(o, at[bs.binding], early), at, Heads(k, bs.rest), f)
    ensures Extends(at.Values, o, Fills(o, at[bs.binding], early))
  {
    hide Heads;
    HeadsStep(k, bs);
  }

  lemma HeadsStep(k: Rules, bs: Binds)
    requires bs.BCons? && Followed(k, bs.binding)
    ensures Heads(k, bs) == {bs.binding} + Heads(k, bs.rest)
  {}

  lemma NextScoped(m: Realm, o: Owner, sc: Scope, at: map<Binding, nat>, done: set<Binding>, bs: Binds, s: State)
    requires Amid(m, o, sc, at, done, bs, s) && m.k.plan.Some? && bs.BCons?
    requires !Eliminable(m.k.pass, bs.binding, bs.init)
    ensures ScopedBinds(m.k, at.Keys, NextScope(m.k, sc, bs.binding, bs.init), bs.rest)
  {
    hide At, Promised, Delivered, Eliminable, Scoped, NextScope;
  }

  lemma OwnersOf(k: Rules, o: Owner, at: map<Binding, nat>, todo: set<Binding>, s: State)
    requires SaneState(k, o, s) && Promised(o, at, todo, s.frame)
    ensures forall b :: b in at ==> at[b] in o.of && o.of[at[b]] == b && at[b] < |s.world.cells|
  {
    hide SaneValue, Firm;
    forall b | b in at ensures at[b] in o.of && o.of[at[b]] == b && at[b] < |s.world.cells| {
      assert SaneSlot(k, o, b, s.frame[b]);
    }
  }

  lemma FilledSane(k: Rules, o: Owner, s: State, loc: nat, v: Value, early: bool)
    requires SaneState(k, o, s) && SaneValue(k, o, v) && loc in o.mates && loc in o.of && Allowed(k, o.of[loc], v)
    requires v != NilValue && loc < |s.world.cells|
    requires Ready(k, o.ready + o.mates[loc], o.of[loc], v) && (early ==> Ready(k, o.ready, o.of[loc], v))
    ensures Grows(o, Fills(o, loc, early))
    ensures SaneState(k, Fills(o, loc, early), s.(world := s.world.(cells := s.world.cells[loc := v])))
  {
    hide SaneValue, SaneValues, SaneFrame, SaneDyn, Allowed, Ready, Firm;
    CellWriteSane(k, o, s, loc, v);
    FillFirm(k, o, s.world, loc, v, early);
    StateGrows(k, o, Fills(o, loc, early), s.(world := s.world.(cells := s.world.cells[loc := v])));
  }

  // ----- let and letrec as a whole -------------------------------------------------------------------------

  lemma {:induction false} ThroughOpens(k: Rules, sc: Scope, bs: Binds)
    ensures sc.open <= Through(k, sc, bs).open
    decreases bs
  {
    if bs.BCons? {
      ThroughOpens(k, if Eliminable(k.pass, bs.binding, bs.init) then sc
          else NextScope(k, sc, bs.binding, bs.init), bs.rest);
    }
  }

  lemma AmidStart(m: Realm, o: Owner, sc: Scope, bs: Binds, s: State)
    requires At(m, o, sc, s) && (m.k.plan.Some? ==> ScopedBinds(m.k, {}, sc, bs))
    ensures Amid(m, o, sc, map[], {}, bs, s)
  {
    hide At, ScopedBinds;
    var at: map<Binding, nat> := map[];
    assert at.Keys == {};
  }

  /** Only cells that are new to `o` came to wait for others. */
  lemma OwnExtends(own: set<nat>, o: Owner, p: Owner, q: Owner)
    requires Extends({}, o, p) && Extends(own, p, q) && own !! o.mates.Keys
    ensures Extends({}, o, q)
  {}

  /** A letrec starts: its boxed names get their cells, and those of followed functions wait for one another. */
  lemma LetrecStart(m: Realm, o: Owner, sc: Scope, bs: Binds, s: State) returns (p: Owner, at: map<Binding, nat>)
    requires At(m, o, sc, s) && ObeysLet(m.k, bs)
    requires m.k.plan.Some? ==> Heads(m.k, bs) !! sc.open && ScopedBinds(m.k, Boxes(m.k, bs), Opened(m.k, sc, bs), bs)
    ensures Extends({}, o, p) && at.Values !! o.mates.Keys && (m.k.plan.Some? ==> at.Keys == Boxes(m.k, bs))
    ensures var s0 := Prebind(s, bs); Held(m.k, sc, s, s0) && Amid(m, p, Opened(m.k, sc, bs), at, {}, bs, s0)
  {
    hide At, SaneState, ScopedBinds, Heads, Prebind, Held, Opened, Boxes, Extends, ObeysLet;
    var s0 := Prebind(s, bs);
    AtMeans(m, o, sc, s);
    DistinctFrom(m.k, Boxes(m.k, bs), Opened(m.k, sc, bs), bs);
    var q := PrebindSane(m.k, o, s, bs);
    PrebindHeld(m.k, sc, bs, s);
    if m.k.plan.Some? {
      at := CellsOf(m.k, bs, s0, |s.world.cells|);
      NewCells(m.k, o, s, at);
      HeadsUndefined(m.k, Boxes(m.k, bs), Opened(m.k, sc, bs), bs);
      p := Promising(q, at.Values);
      PromiseSane(m.k, q, at, s0);
      ExtendsThen({}, o, q, p);
      LetrecPlaced(m, o, p, sc, bs, at, s, s0);
    } else {
      at := map[];
      p := q;
      UnplannedAt(m, o, p, sc, Opened(m.k, sc, bs), s, s0);
    }
  }

  lemma UnplannedAt(m: Realm, o: Owner, p: Owner, sc: Scope, sc1: Scope, s: State, s0: State)
    requires At(m, o, sc, s) && m.k.plan.None? && SaneState(m.k, p, s0)
    ensures At(m, p, sc1, s0)
  {
    hide RealmOk, SaneState;
  }

  lemma CellsOf(k: Rules, bs: Binds, s0: State, from: nat) returns (at: map<Binding, nat>)
    requires Empty(k, Heads(k, bs), from, s0)
    ensures at.Keys == Boxes(k, bs)
    ensures forall b :: b in at ==> b.boxed && b in Heads(k, bs) && b in s0.frame && s0.frame[b] == Cell(at[b])
    ensures forall b :: b in at ==> from <= at[b] < |s0.world.cells| && s0.world.cells[at[b]] == NilValue
  {
    hide Heads;
    at := map b | b in Boxes(k, bs) :: s0.frame[b].loc;
  }

  lemma NewCells(k: Rules, o: Owner, s: State, at: map<Binding, nat>)
    requires SaneState(k, o, s) && forall b :: b in at ==> |s.world.cells| <= at[b]
    ensures at.Values !! o.mates.Keys
  {
    hide SaneFrame, SaneDyn, SaneWorld;
    OldCells(k, o, s.world);
  }

  /** Prebinding touches no slot the scope counts on. */
  lemma PrebindHeld(k: Rules, sc: Scope, bs: Binds, s: State)
    requires ObeysLet(k, bs)
    requires k.plan.Some? ==> Heads(k, bs) !! sc.open && ScopedBinds(k, Boxes(k, bs), Opened(k, sc, bs), bs)
    ensures Held(k, sc, s, Prebind(s, bs))
  {
    hide ScopedBinds, Heads, Prebind, ObeysLet, BoxedFresh;
    if k.plan.Some? {
      ScopedFresh(k, Boxes(k, bs), Opened(k, sc, bs), bs);
      FresherNames(Opened(k, sc, bs).open - Heads(k, bs), sc.open, bs);
      PrebindSteady(sc.open, s, bs);
    }
  }

  lemma LetrecPlaced(m: Realm, o: Owner, p: Owner, sc: Scope, bs: Binds, at: map<Binding, nat>, s: State, s0: State)
    requires At(m, o, sc, s) && m.k.plan.Some? && Extends({}, o, p) && SaneState(m.k, p, s0) && Held(m.k, sc, s, s0)
    requires at.Keys == Boxes(m.k, bs) && Promised(p, at, at.Keys, s0.frame)
    requires ScopedBinds(m.k, Boxes(m.k, bs), Opened(m.k, sc, bs), bs)
    ensures Amid(m, p, Opened(m.k, sc, bs), at, {}, bs, s0)
  {
    hide RealmOk, SaneState, ScopedBinds, Heads, SlotReady;
    Next(m, o, p, sc, s, s0);
    HeadsFollowed(m.k, bs);
    PlanTrusts(m);
  }

  lemma {:induction false} DistinctFrom(k: Rules, late: set<Binding>, sc: Scope, bs: Binds)
    requires k.plan.Some? ==> ScopedBinds(k, late, sc, bs)
    requires ObeysLet(k, bs) && PlanOk(k)
    ensures DistinctHeads(k, bs)
    decreases bs
  {
    hide Scoped, Obeys, Prepared;
    if bs.BCons? {
      DistinctFrom(k, late, if Eliminable(k.pass, bs.binding, bs.init) then sc
          else NextScope(k, sc, bs.binding, bs.init), bs.rest);
    }
  }

  lemma {:induction false} HeadsUndefined(k: Rules, late: set<Binding>, sc: Scope, bs: Binds)
    requires ScopedBinds(k, late, sc, bs) && ObeysLet(k, bs) && PlanOk(k)
    ensures forall b :: b in Heads(k, bs) ==> Followed(k, b) && !Defined(k, b)
    decreases bs
  {
    hide Scoped, Obeys, Prepared;
    if bs.BCons? {
      HeadsUndefined(k, late, if Eliminable(k.pass, bs.binding, bs.init) then sc
          else NextScope(k, sc, bs.binding, bs.init), bs.rest);
    }
  }

  lemma PlanTrusts(m: Realm)
    requires RealmOk(m)
    ensures forall b :: Followed(m.k, b) ==> b in m.k.trusted
  {}

  lemma {:induction false} HeadsFollowed(k: Rules, bs: Binds)
    ensures forall b :: b in Heads(k, bs) ==> Followed(k, b)
    decreases bs
  {
    if bs.BCons? { HeadsFollowed(k, bs.rest); }
  }

  /** A boxed name of the list that is not followed has no slot the scope counts on. */
  ghost predicate BoxedFresh(names: set<Binding>, bs: Binds)
    decreases bs
  {
    match bs
    case BNil => true
    case BCons(b, _, rest) => (b.boxed ==> b !in names) && BoxedFresh(names, rest)
  }

  lemma {:induction false} ScopedFresh(k: Rules, late: set<Binding>, sc: Scope, bs: Binds)
    requires ScopedBinds(k, late, sc, bs) && ObeysLet(k, bs)
    ensures BoxedFresh(sc.open - Heads(k, bs), bs)
    decreases bs
  {
    hide Scoped, Obeys, Eliminable, Prepared;
    if bs.BCons? {
      var sc1 := if Eliminable(k.pass, bs.binding, bs.init) then sc else NextScope(k, sc, bs.binding, bs.init);
      ScopedFresh(k, late, sc1, bs.rest);
      FresherNames(sc1.open - Heads(k, bs.rest), sc.open - Heads(k, bs), bs.rest);
    }
  }

  lemma {:induction false} FresherNames(more: set<Binding>, names: set<Binding>, bs: Binds)
    requires BoxedFresh(more, bs) && names <= more
    ensures BoxedFresh(names, bs)
    decreases bs
  {
    if bs.BCons? { FresherNames(more, names, bs.rest); }
  }

  lemma {:induction false} PrebindSteady(names: set<Binding>, s: State, bs: Binds)
    requires BoxedFresh(names, bs)
    ensures Steady(names, s.frame, Prebind(s, bs).frame)
    decreases bs
  {
    hide Bind;
    SteadySelf(names, s.frame);
    if bs.BCons? {
      if bs.binding.boxed {
        BindSteady(names, s, bs.binding, NilValue);
        PrebindSteady(names, Bind(s, bs.binding, NilValue), bs.rest);
      } else {
        PrebindSteady(names, s, bs.rest);
      }
    }
  }

  /** After the prebinding: each boxed followed name has a new, empty cell. */
  ghost predicate Empty(k: Rules, names: set<Binding>, from: nat, s: State) {
    forall b :: b in names && b.boxed ==>
      b in s.frame && s.frame[b].Cell? && from <= s.frame[b].loc < |s.world.cells|
          && s.world.cells[s.frame[b].loc] == NilValue
  }

  lemma {:induction false} PrebindSane(k: Rules, o: Owner, s: State, bs: Binds) returns (p: Owner)
    requires SaneState(k, o, s) && DistinctHeads(k, bs)
    ensures Extends({}, o, p) && SaneState(k, p, Prebind(s, bs)) && p.mates == o.mates && p.ready == o.ready
    ensures p.filled == o.filled
    ensures Empty(k, Heads(k, bs), |s.world.cells|, Prebind(s, bs)) && s.world.cells <= Prebind(s, bs).world.cells
    ensures forall b :: b in s.frame && s.frame[b].Cell? && Followed(k, b) && b !in Heads(k, bs) ==>
            b in Prebind(s, bs).frame && Prebind(s, bs).frame[b] == s.frame[b]
    decreases bs
  {
    hide SaneState, SaneValue, Bind;
    p := o;
    ExtendsSelf({}, o);
    if bs.BCons? {
      var b := bs.binding;
      if b.boxed {
        LitSane(k, o, Nil);
        var o1 := BindSane(k, o, s, b, NilValue);
        var s1 := Bind(s, b, NilValue);
        NewCell(s, b);
        p := PrebindSane(k, o1, s1, bs.rest);
        ExtendsThen({}, o, o1, p);
      } else {
        p := PrebindSane(k, o, s, bs.rest);
      }
    }
  }

  lemma NewCell(s: State, b: Binding)
    requires b.boxed
    ensures var t := Bind(s, b, NilValue);
            && t.frame == s.frame[b := Cell(|s.world.cells|)] && t.world.cells == s.world.cells + [NilValue]
  {}

  predicate DistinctHeads(k: Rules, bs: Binds) {
    match bs
    case BNil => true
    case BCons(b, _, rest) => (Followed(k, b) ==> b !in Heads(k, rest)) && DistinctHeads(k, rest)
  }

  lemma PromiseSane(k: Rules, o: Owner, at: map<Binding, nat>, s: State)
    requires SaneState(k, o, s)
    requires forall b :: b in at ==>
               b.boxed && Followed(k, b) && !Defined(k, b) && b in s.frame && s.frame[b] == Cell(at[b])
    requires forall b :: b in at ==> at[b] < |s.world.cells| && s.world.cells[at[b]] == NilValue && at[b] !in o.mates
    ensures var p := Promising(o, at.Values);
            Extends({}, o, p) && SaneState(k, p, s) && Promised(p, at, at.Keys, s.frame)
  {
    hide SaneValues, SaneDyn, SaneFrame, Wired, Settled, Allowed;
    var p := Promising(o, at.Values);
    OwnersAt(k, o, at, s);
    PromiseWired(k, o, at, s.world);
    PromiseSettled(k, o, at);
    StateGrows(k, o, p, s);
  }

  ghost function Promising(o: Owner, cells: set<nat>): Owner {
    o.(mates := o.mates + map loc | loc in cells :: cells)
  }

  lemma OwnersAt(k: Rules, o: Owner, at: map<Binding, nat>, s: State)
    requires SaneState(k, o, s) && forall b :: b in at ==> b in s.frame && s.frame[b] == Cell(at[b])
    ensures forall b :: b in at ==> at[b] in o.of && o.of[at[b]] == b
  {
    hide SaneValue, SaneWorld, SaneDyn;
    forall b | b in at ensures at[b] in o.of && o.of[at[b]] == b { assert SaneSlot(k, o, b, s.frame[b]); }
  }

  lemma PromiseWired(k: Rules, o: Owner, at: map<Binding, nat>, w: World)
    requires Wired(k, o, w) && forall b :: b in at ==> at[b] in o.of && at[b] < |w.cells| && w.cells[at[b]] == NilValue
    ensures Wired(k, Promising(o, at.Values), w)
  {
    hide Ready;
  }

  lemma PromiseSettled(k: Rules, o: Owner, at: map<Binding, nat>)
    requires Settled(k, o)
    requires forall b :: b in at ==>
             at[b] in o.of && o.of[at[b]] == b && Followed(k, b) && !Defined(k, b) && at[b] !in o.mates
    ensures Settled(k, Promising(o, at.Values))
  {
    hide Followed, Defined;
  }

  /** A letrec is done: its followed functions can be called. */
  lemma Sealed(m: Realm, o: Owner, sc: Scope, bs: Binds, at: map<Binding, nat>, s: State) returns (p: Owner)
    requires Amid(m, o, Through(m.k, Opened(m.k, sc, bs), bs), at, {} + Heads(m.k, bs), BNil, s)
    requires m.k.plan.Some? ==> at.Keys == Boxes(m.k, bs)
    ensures Extends({}, o, p) && At(m, p, BodyScope(m.k, true, sc, bs), s)
  {
    hide RealmOk, SaneState, Ready, Through, Opened;
    p := o;
    ExtendsSelf({}, o);
    var end := Through(m.k, Opened(m.k, sc, bs), bs);
    AmidMeans(m, o, end, at, {} + Heads(m.k, bs), BNil, s);
    if m.k.plan.Some? {
      p := o.(ready := o.ready + at.Values);
      SealedSane(m.k, o, at, s);
      LiveGrows(m.k, o, p, end.bound, s, s);
      HeadsFollowed(m.k, bs);
      PlanTrusts(m);
    }
  }

  lemma SealedSane(k: Rules, o: Owner, at: map<Binding, nat>, s: State)
    requires SaneState(k, o, s) && Promised(o, at, {}, s.frame)
    ensures Extends({}, o, o.(ready := o.ready + at.Values)) && SaneState(k, o.(ready := o.ready + at.Values), s)
  {
    hide SaneValue, SaneValues, SaneFrame, SaneDyn, Wired, Settled, Occupied, Allowed;
    var p := o.(ready := o.ready + at.Values);
    WiredGrows(k, o, p, s.world);
    SealSettled(k, o, at, s.frame);
    SealOccupied(o, at, s.world);
    StateGrows(k, o, p, s);
  }

  lemma SealSettled(k: Rules, o: Owner, at: map<Binding, nat>, f: Frame)
    requires Settled(k, o) && Promised(o, at, {}, f)
    ensures Settled(k, o.(ready := o.ready + at.Values))
  {
    hide Followed, Defined;
  }

  lemma SealOccupied(o: Owner, at: map<Binding, nat>, w: World)
    requires Occupied(o, w)
    ensures Occupied(o.(ready := o.ready + at.Values), w)
  {}

  // ----- def -----------------------------------------------------------------------------------------------

  lemma HeldPerform(k: Rules, p: Owner, sc: Scope, s: State, host: Host, b: Binding, vs: seq<Value>, t: State)
    requires Kept(k, p, sc, s, Perform(host, Define(b), vs, t))
    ensures SaneState(k, p, Perform(host, Define(b), vs, t).st) && Held(k, sc, s, Perform(host, Define(b), vs, t).st)
  {
    hide SaneState, Held;
  }

  /** A `def` of a trusted name stores its own closure. */
  lemma DefinedAllowed(k: Rules, c: Ctx, n: nat, op: Op, args: Hirs, s: State)
    requires OpOk(k, op, args) && EvalOps(c, n, args, s).Vals?
    ensures op.Define? ==> Allowed(k, op.target, First(EvalOps(c, n, args, s).values))
  {
    if op.Define? && args.HCons? {
      SiteAllowed(k, c, n, op.target, args.head, s);
      assert EvalOps(c, n, args, s).values[0] == Eval(c, n, args.head, s).out.value;
    }
  }

  lemma NameDefined(m: Realm, o: Owner, sc: Scope, b: Binding, vs: seq<Value>, args: Hirs, s: State) returns (p: Owner)
    requires At(m, o, sc, s) && SaneValues(m.k, o, vs) && Allowed(m.k, b, First(vs)) && !Followed(m.k, b)
    requires m.k.plan.Some? ==> DefineScoped(m.k, sc, b, args)
    ensures Extends({}, o, p) && Kept(m.k, p, sc, s, Perform(m.c.host, Define(b), vs, s))
  {
    hide At, SaneState, SaneValue, Placed, Bind, Write, Allowed;
    AtMeans(m, o, sc, s);
    LitSane(m.k, o, Nil);
    p := StoreSane(m.k, o, s, b, First(vs));
    ValueGrows(m.k, o, p, First(vs));
    if m.k.plan.Some? { BindSteady(sc.open, s, b, First(vs)); }
  }

  /** A followed function is defined where all it calls is bound. */
  lemma FunctionDefined(m: Realm, o: Owner, sc: Scope, n: nat, e: Hir, s: State) returns (p: Owner)
    requires At(m, o, sc, s) && Obeys(m.k, e) && Sits(m.k, sc, e) && e.Strict? && e.op.Define?
    requires Followed(m.k, e.op.target)
    ensures Extends({}, o, p) && Kept(m.k, p, sc, s, Eval(m.c, n, e, s))
    ensures Placed(m.k, p, AfterItem(m.k, sc, e), Eval(m.c, n, e, s).st)
  {
    hide At, SaneState, SaneValue, Held, Placed, Captured, Prepared, Gone, Bind, Write, NamesOk, CapturesOk,
         LambdaScoped, Scoped;
    FunctionValue(m, o, sc, n, e, s);
    var b, lam := e.op.target, e.args.head;
    var v := Closure(lam.id, Captured(s.frame, lam.captures));
    AtMeans(m, o, sc, s);
    var none: map<Binding, nat> := map[];
    assert none.Keys == {} && sc.bound + none.Keys == sc.bound;
    MadeReady(m, o, sc, none, b, lam, s);
    p := FunctionStored(m, o, sc, b, v, s);
  }

  lemma FunctionValue(m: Realm, o: Owner, sc: Scope, n: nat, e: Hir, s: State)
    requires At(m, o, sc, s) && Obeys(m.k, e) && Sits(m.k, sc, e) && e.Strict? && e.op.Define?
    requires Followed(m.k, e.op.target)
    ensures e.args.HCons? && e.args.tail.HNil? && e.args.head.Lambda?
    ensures Prepared(m.k, sc.bound, e.op.target, e.args.head)
    ensures e.op.target !in sc.open && Defined(m.k, e.op.target)
    ensures var lam := e.args.head; var v := Closure(lam.id, Captured(s.frame, lam.captures));
            && SaneValue(m.k, o, v) && Allowed(m.k, e.op.target, v)
            && Eval(m.c, n, e, s) == Perform(m.c.host, e.op, [v], s)
  {
    hide At, Captured, SaneValue, Gone, NamesOk, CapturesOk, LambdaScoped, Perform;
    assert ScopedAll(m.k, sc, e.args) && DefineScoped(m.k, sc, e.op.target, e.args) && ObeysAll(m.k, e.args);
    var lam := e.args.head;
    var v := Closure(lam.id, Captured(s.frame, lam.captures));
    assert e.args == HCons(lam, HNil);
    assert Scoped(m.k, sc, lam) && Obeys(m.k, lam);
    CapturedSane(m, o, sc, s, lam.id, lam.captures);
    assert Eval(m.c, n, lam, s) == Res(Val(v), s);
    assert EvalOps(m.c, n, HNil, s) == Vals([], s);
    assert EvalOps(m.c, n, e.args, s) == Vals([v], s);
  }

  lemma FunctionStored(m: Realm, o: Owner, sc: Scope, b: Binding, v: Value, s: State) returns (p: Owner)
    requires At(m, o, sc, s) && m.k.plan.Some? && Followed(m.k, b) && Defined(m.k, b) && b !in sc.open
    requires SaneValue(m.k, o, v) && Allowed(m.k, b, v) && v != NilValue && Ready(m.k, o.ready, b, v)
    ensures var r := Perform(m.c.host, Define(b), [v], s);
            Extends({}, o, p) && Kept(m.k, p, sc, s, r) && Placed(m.k, p, Scope(sc.bound + {b}, sc.open + {b}), r.st)
  {
    hide RealmOk, SaneValue, SaneState, Allowed, Ready;
    var t := Perform(m.c.host, Define(b), [v], s).st;
    BindSteady(sc.open, s, b, v);
    PlanTrusts(m);
    p := o;
    ExtendsSelf({}, o);
    if b.boxed && b !in s.frame {
      p := Newly(o, |s.world.cells|, b, true);
      NewCellSane(m.k, o, s, b, v, true);
    } else if b in s.frame && s.frame[b].Cell? {
      p := CellRedefined(m.k, o, s, b, v);
    } else {
      PlainSane(m.k, o, s, b, v);
    }
    ValueGrows(m.k, o, p, v);
    LiveGrows(m.k, o, p, sc.bound, s, t);
    ReadyGrows(m.k, o.ready, p.ready, b, v);
  }

  lemma CellRedefined(k: Rules, o: Owner, s: State, b: Binding, v: Value) returns (p: Owner)
    requires SaneState(k, o, s) && Followed(k, b) && Defined(k, b) && b in s.frame && s.frame[b].Cell?
    requires SaneValue(k, o, v) && Allowed(k, b, v) && v != NilValue && Ready(k, o.ready, b, v)
    ensures Extends({}, o, p) && SaneState(k, p, Write(s, b, v)) && s.frame[b].loc in p.ready
    ensures Write(s, b, v).frame == s.frame
  {
    hide SaneValue, SaneValues, SaneDyn, Allowed, Ready, Wired, Occupied;
    var loc := s.frame[b].loc;
    assert SaneSlot(k, o, b, s.frame[b]);
    ExtendsSelf({}, o);
    if loc in o.mates {
      p := o;
      ReadyGrows(k, o.ready, o.ready + o.mates[loc], b, v);
      CellWriteSane(k, o, s, loc, v);
    } else {
      CellWriteSane(k, o, s, loc, v);
      p := AlsoReady(o, o.of, loc);
      RedefinedFirm(k, o, s.world, loc, v);
      StateGrows(k, o, p, s.(world := s.world.(cells := s.world.cells[loc := v])));
    }
  }

  lemma RedefinedFirm(k: Rules, o: Owner, w: World, loc: nat, v: Value)
    requires SaneWorld(k, o, w) && loc in o.of && loc !in o.mates && Followed(k, o.of[loc]) && v != NilValue
    requires Ready(k, o.ready, o.of[loc], v)
    ensures Extends({}, o, AlsoReady(o, o.of, loc)) && Firm(k, AlsoReady(o, o.of, loc), w.(cells := w.cells[loc := v]))
  {
    hide SaneValues, Allowed, Ready, Wired, Settled, Followed;
    OldCells(k, o, w);
    var q, w1 := o.(mates := o.mates[loc := {}]), w.(cells := w.cells[loc := v]);
    RedefinedWired(k, o, w, loc, v);
    WiredGrows(k, q, AlsoReady(o, o.of, loc), w1);
    SettledWith(k, o, o.of, loc);
  }

  lemma RedefinedWired(k: Rules, o: Owner, w: World, loc: nat, v: Value)
    requires Wired(k, o, w) && loc in o.of && loc !in o.mates && loc < |w.cells| && Ready(k, o.ready, o.of[loc], v)
    ensures Wired(k, o.(mates := o.mates[loc := {}]), w.(cells := w.cells[loc := v]))
  {
    hide Ready;
    ReadyGrows(k, o.ready, o.ready + {}, o.of[loc], v);
  }
}
