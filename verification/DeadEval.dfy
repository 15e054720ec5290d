/**
  What evaluating effect-free code does: nothing that can be seen.

  A run is sane when every cell belongs to one binding (`Owner`) and every trusted
  name holds nil, before its initializer has run, or its own callee. In a sane
  state an effect-free expression gives a value, and does no more to the world than
  add objects to it; or it calls a name that is not bound yet, and faults. It cannot
  run out of steps once it has more than there are pure functions (`EvalHarmless`):
  the rank a function was admitted at bounds how deep its calls go.
*/
module DeadEval {
  import opened HirSyntax
  import opened HirEval
  import opened Dead
  import opened DeadNames

  /**
    What is known of the cells: the binding each was made for, those that hold a
    callee by now (`filled`), those whose callee can be called (`ready`), and the
    cells that one written while they were still empty waits for (`mates`).
  */
  datatype Owner = Owner(of: map<nat, Binding>, mates: map<nat, set<nat>>, filled: set<nat>, ready: set<nat>)

  predicate Allowed(k: Rules, b: Binding, v: Value) {
    b in k.trusted ==> v == NilValue || Holds(k.trusted[b], v)
  }

  predicate Holds(callee: Callee, v: Value) {
    match callee
    case Fun(id) => v.Closure? && v.id == id
    case Builtin(code) => v == Native(code)
  }

  predicate Owned(o: Owner, b: Binding, loc: nat) {
    b.boxed && loc in o.of && o.of[loc] == b
  }

  /** `v` is `b`'s callee, and all it calls is bound, as far as the cells `cells` are. */
  ghost predicate Ready(k: Rules, cells: set<nat>, b: Binding, v: Value)
    decreases v
  {
    && b in k.trusted && Holds(k.trusted[b], v)
    && (v.Closure? ==>
          && b in k.needs
          && forall f :: f in k.needs[b] ==>
               f in v.env && if v.env[f].Plain? then Ready(k, cells, f, v.env[f].value) else v.env[f].loc in cells)
  }

  ghost predicate SlotReady(k: Rules, cells: set<nat>, b: Binding, slot: Slot) {
    if slot.Plain? then Ready(k, cells, b, slot.value) else slot.loc in cells
  }

  ghost predicate SaneValue(k: Rules, o: Owner, v: Value)
    decreases v
  {
    match v
    case Closure(id, env) =>
      && (forall b :: b in env ==>
            if env[b].Plain? then SaneValue(k, o, env[b].value) && Allowed(k, b, env[b].value)
            else Owned(o, b, env[b].loc))
      && (forall b :: b in EntryOf(k, id) ==> b in env && SlotReady(k, o.ready, b, env[b]))
    case Param(_, default) => SaneValue(k, o, default)
    case _ => true
  }

  ghost predicate SaneSlot(k: Rules, o: Owner, b: Binding, slot: Slot) {
    if slot.Plain? then SaneValue(k, o, slot.value) && Allowed(k, b, slot.value) else Owned(o, b, slot.loc)
  }

  ghost predicate SaneFrame(k: Rules, o: Owner, f: Frame) {
    forall b :: b in f ==> SaneSlot(k, o, b, f[b])
  }

  ghost predicate SaneValues(k: Rules, o: Owner, vs: seq<Value>) {
    forall i :: 0 <= i < |vs| ==> SaneValue(k, o, vs[i])
  }

  /** A cell that is followed holds nil, or a callee that waits for its mates alone. */
  ghost predicate Wired(k: Rules, o: Owner, w: World) {
    forall loc :: loc in o.mates ==>
      loc < |w.cells| && loc in o.of
          && (w.cells[loc] == NilValue || Ready(k, o.ready + o.mates[loc], o.of[loc], w.cells[loc]))
  }

  /** A ready cell waits for ready cells alone, and is filled. */
  ghost predicate Settled(k: Rules, o: Owner) {
    && (forall loc :: loc in o.mates ==>
       loc in o.of && Followed(k, o.of[loc]) && (Defined(k, o.of[loc]) ==> loc in o.ready))
    && (forall loc :: loc in o.ready ==> loc in o.filled && loc in o.mates && o.mates[loc] <= o.ready)
  }

  ghost predicate Occupied(o: Owner, w: World) {
    forall loc :: loc in o.filled ==> loc in o.mates && loc < |w.cells| && w.cells[loc] != NilValue
  }

  ghost predicate Firm(k: Rules, o: Owner, w: World) {
    Wired(k, o, w) && Settled(k, o) && Occupied(o, w)
  }

  ghost predicate SaneWorld(k: Rules, o: Owner, w: World) {
    && (forall loc :: loc in o.of ==> loc < |w.cells| && Allowed(k, o.of[loc], w.cells[loc]))
    && SaneValues(k, o, w.cells) && SaneValues(k, o, w.log)
    && (forall i :: 0 <= i < |w.objects| ==> SaneValues(k, o, w.objects[i]))
    && Firm(k, o, w)
  }

  ghost predicate SaneDyn(k: Rules, o: Owner, dyn: map<nat, Value>) {
    forall id :: id in dyn ==> SaneValue(k, o, dyn[id])
  }

  ghost predicate SaneState(k: Rules, o: Owner, st: State) {
    SaneFrame(k, o, st.frame) && SaneWorld(k, o, st.world) && SaneDyn(k, o, st.dyn)
  }

  // ----- the host ----------------------------------------------------------------------------------------

  ghost predicate SaneResult(k: Rules, o: Owner, r: HostResult) {
    SaneWorld(k, o, r.world) && (r.Done? ==> SaneValues(k, o, r.values))
  }

  /** The host makes no closures of its own and writes no binding's cell against its owner. */
  ghost predicate HostSane(k: Rules, host: Host) {
    forall o, op, vs, w :: SaneValues(k, o, vs) && SaneWorld(k, o, w) ==> SaneResult(k, o, host(op, vs, w))
  }

  /** A value, and no more done to the world than new objects in it. */
  predicate Benign(r: HostResult, w: World) {
    r.Done? && Enlarged(w, r.world)
  }

  predicate Enlarged(w: World, w1: World) {
    w1.cells == w.cells && w1.log == w.log && w.objects <= w1.objects
  }

  ghost predicate Fits(host: Host, op: HostOp, count: nat) {
    forall vs, w :: |vs| == count ==> Benign(host(op, vs, w), w)
  }

  function CallOp(callee: Callee): HostOp {
    match callee
    case Fun(id) => ArrangeOp(id)
    case Builtin(code) => NativeOp(code)
  }

  /**
    A silent call of a trusted name splices nothing, passes a number of arguments
    the callee takes, and, of a primitive, does what the primitive declares. A silent
    intrinsic that stores nothing does neither.
  */
  ghost predicate SilentNode(k: Rules, host: Host, e: Hir) {
    && (e.Call? && k.pass.facts.silent(e) && e.func.Var? && e.func.binding in k.trusted ==>
          true !in e.spliced && Fits(host, CallOp(k.trusted[e.func.binding]), Len(e.args)))
    && (e.Strict? && e.op.Intrinsic? && !e.op.funnel && k.pass.facts.silent(e) ==>
       Fits(host, PrimOp(e.op.code), Len(e.args)))
  }

  /** Inferred signals and primitive declarations mean what they say. */
  ghost predicate SignalsSound(k: Rules, host: Host) {
    forall e :: SilentNode(k, host, e)
  }

  // ----- the code ------------------------------------------------------------------------------------------

  ghost predicate PureFn(k: Rules, c: Ctx, order: seq<Binding>, i: nat)
    requires i < |order|
  {
    order[i] in k.trusted && k.trusted[order[i]].Fun? &&
    var id := k.trusted[order[i]].id;
    id in c.code &&
    var fn := c.code[id];
    && (forall j :: 0 <= j < |fn.params| ==> Quiet(k, false, fn.params[j]))
    && CapturesOk(k, id, fn.captures)
    && Harmless(k, false, Elements(order[..i]), fn.body)
    && order[i] in k.needs && k.needs[order[i]] == Callees(fn.body)
    && (forall f :: f in Callees(fn.body) ==> f in k.trusted && Capture(f, true) !in fn.captures)
  }

  /** The context of a run: every pure function is harmless from those before it. */
  ghost predicate Setting(k: Rules, c: Ctx, order: seq<Binding>) {
    && !c.tco && HostSane(k, c.host) && SignalsSound(k, c.host)
    && (forall i :: 0 <= i < |order| ==> PureFn(k, c, order, i))
    && (forall b :: k.pass.facts.info(b).primitive && DeclaredPure(k.pass.facts, b) ==>
       b in k.trusted && k.trusted[b].Builtin?)
  }

  // ----- sane steps ----------------------------------------------------------------------------------------

  lemma ReadSane(k: Rules, o: Owner, st: State, b: Binding)
    requires SaneState(k, o, st)
    ensures SaneValue(k, o, Read(st, b)) && Allowed(k, b, Read(st, b))
  {
    if b in st.frame { assert SaneSlot(k, o, b, st.frame[b]); }
  }

  lemma BindQuiet(k: Rules, o: Owner, st: State, b: Binding, v: Value)
    requires SaneState(k, o, st) && SaneValue(k, o, v) && !b.boxed && Allowed(k, b, v)
    ensures SaneState(k, o, Bind(st, b, v)) && Bind(st, b, v) == st.(frame := st.frame[b := Plain(v)])
    ensures SaneState(k, o, Write(st, b, v)) && Write(st, b, v) == st.(frame := st.frame[b := Plain(v)])
  {
    hide SaneWorld, SaneValue;
    if b in st.frame { assert SaneSlot(k, o, b, st.frame[b]); }
    var f := st.frame[b := Plain(v)];
    forall x | x in f ensures SaneSlot(k, o, x, f[x]) {
      if x != b { assert SaneSlot(k, o, x, st.frame[x]); }
    }
  }

  /** The frames agree but on names the stripped program no longer mentions. */
  ghost predicate FramesAgree(k: Rules, f: Frame, g: Frame) {
    forall b :: !Gone(k, b) ==> (b in f <==> b in g) && (b in f ==> f[b] == g[b])
  }

  /** The names of `bound` are bound, to callees that can be called. */
  ghost predicate Live(k: Rules, o: Owner, bound: set<Binding>, s: State) {
    forall b :: b in bound ==> b in k.trusted && b in s.frame && SlotReady(k, o.ready, b, s.frame[b])
  }

  /** The slots of these names are the same. */
  ghost predicate Steady(names: set<Binding>, f: Frame, g: Frame) {
    forall b :: b in names ==> (b in f <==> b in g) && (b in f ==> f[b] == g[b])
  }

  /**
    Where effect-free code runs: from the first `m` pure functions, its own names
    `gone` from the stripped program or not, and the names it calls bound or not.
  */
  datatype Scene = Scene(k: Rules, c: Ctx, o: Owner, order: seq<Binding>, m: nat, gone: bool, live: bool,
      bound: set<Binding>)

  ghost function Known(x: Scene): set<Binding> {
    if x.m <= |x.order| then Elements(x.order[..x.m]) else {}
  }

  ghost predicate Seen(x: Scene, s: State) {
    SaneState(x.k, x.o, s) && (x.live ==> Live(x.k, x.o, x.bound, s))
  }

  ghost predicate Staged(x: Scene, s: State) {
    x.m <= |x.order| && Setting(x.k, x.c, x.order) && Seen(x, s)
  }

  /** The names called are bound, where that is asked. */
  predicate Within(x: Scene, callees: set<Binding>) {
    x.live ==> callees <= x.bound
  }

  ghost predicate Unseen(x: Scene, s: State, t: State) {
    && Enlarged(s.world, t.world) && t.dyn == s.dyn && Steady(x.k.trusted.Keys, s.frame, t.frame)
    && (x.gone ==> FramesAgree(x.k, s.frame, t.frame))
  }

  /** The state goes on, unseen. */
  ghost predicate Passes(x: Scene, s: State, t: State) {
    Seen(x, t) && Unseen(x, s, t)
  }

  /** A value with nothing else changed, or a fault where a callee may be unbound; a timeout only when steps are few. */
  ghost predicate Invisible(x: Scene, enough: bool, s: State, r: Res) {
    match r.out
    case Val(v) => SaneValue(x.k, x.o, v) && Passes(x, s, r.st)
    case Fault => !x.live
    case Timeout => !enough
    case _ => false
  }

  lemma PassesThen(x: Scene, s: State, t: State, u: State)
    requires Passes(x, s, t) && Passes(x, t, u)
    ensures Passes(x, s, u)
  {
    hide Seen;
  }

  lemma InvisibleAfter(x: Scene, enough: bool, s: State, t: State, r: Res)
    requires Passes(x, s, t) && Invisible(x, enough, t, r)
    ensures Invisible(x, enough, s, r)
  {
    hide Passes;
    if r.out.Val? { PassesThen(x, s, t, r.st); }
  }

  ghost predicate OpsInvisible(x: Scene, enough: bool, count: nat, s: State, r: OpsRes) {
    match r
    case Vals(vs, t) => |vs| == count && SaneValues(x.k, x.o, vs) && Passes(x, s, t)
    case Stop(res) => !res.out.Val? && Invisible(x, enough, s, res)
  }

  ghost predicate BindsInvisible(x: Scene, enough: bool, s: State, r: BindRes) {
    match r
    case Bound(t) => Passes(x, s, t)
    case Halt(res) => !res.out.Val? && Invisible(x, enough, s, res)
  }

  lemma StagedNext(x: Scene, s: State, t: State)
    requires Staged(x, s) && Passes(x, s, t)
    ensures Staged(x, t)
  {
    hide Seen, Setting;
  }

  lemma StagedHere(x: Scene, s: State)
    requires Staged(x, s)
    ensures Passes(x, s, s) && SaneState(x.k, x.o, s) && Setting(x.k, x.c, x.order)
    ensures x.live ==> Live(x.k, x.o, x.bound, s)
  {
    hide Setting, SaneState, Live;
  }

  /**
    Effect-free code is invisible: it gives a value and leaves the world as it was
    but for new objects, or it faults because it calls a name that is not bound yet;
    when the names it calls are bound, it does not fault. With more steps than the
    `m` pure functions it may call, it does not run out of them.
  */
  lemma {:induction false} EvalHarmless(x: Scene, n: nat, e: Hir, s: State)
    requires Staged(x, s) && Harmless(x.k, x.gone, Known(x), e) && Within(x, Callees(e))
    ensures Invisible(x, n > x.m, s, Eval(x.c, n, e, s))
    decreases n, 1, e, 2
  {
    hide Staged, Passes, Known, Quiet, CalleePure, SaneValue;
    StagedHere(x, s);
    match e
    case Lit(d) => LitSane(x.k, x.o, d);
    case Var(b) => ReadSane(x.k, x.o, s, b);
    case Return(v) =>
      EvalHarmless(x, n, v, s);
      ReturnInvisible(x, n > x.m, s, Eval(x.c, n, v, s));
    case If(_, _, _) => IfHarmless(x, n, e, s);
    case Cond(cl) => ClausesHarmless(x, n, cl, s);
    case Begin(es) => SeqHarmless(x, n, es, s);
    case Logic(conj, es) => LogicHarmless(x, n, conj, es, s);
    case Let(_, _, _) => LetHarmless(x, n, e, s);
    case Call(_, _, _, _) => CallHarmless(x, n, e, s);
    case Strict(_, _) => StrictHarmless(x, n, e, s);
  }

  /**
    So a call can fail only on an unbound name: where the names it calls are bound,
    effect-free code gives a value in finitely many steps, and does no more to the
    world than add objects.
  */
  lemma EffectFreeGivesAValue(x: Scene, n: nat, e: Hir, s: State)
    requires Staged(x, s) && Harmless(x.k, x.gone, Known(x), e) && x.live && Callees(e) <= x.bound && n > x.m
    ensures Eval(x.c, n, e, s).out.Val? && Enlarged(s.world, Eval(x.c, n, e, s).st.world)
    ensures Eval(x.c, n, e, s).st.dyn == s.dyn
  {
    hide Staged, Eval, Harmless, Seen;
    EvalHarmless(x, n, e, s);
  }

  lemma LitSane(k: Rules, o: Owner, d: Datum)
    ensures SaneValue(k, o, Data(d))
  {}

  lemma ReturnInvisible(x: Scene, enough: bool, s: State, r: Res)
    requires Invisible(x, enough, s, r)
    ensures Invisible(x, enough, s, if r.out.Val? then Res(r.out, r.st.(mints := r.st.mints + 1)) else r)
  {
    hide SaneValue, SaneWorld, SaneFrame, SaneDyn, FramesAgree, SlotReady;
  }

  lemma {:induction false} IfHarmless(x: Scene, n: nat, e: Hir, s: State)
    requires Staged(x, s) && Harmless(x.k, x.gone, Known(x), e) && Within(x, Callees(e)) && e.If?
    ensures Invisible(x, n > x.m, s, Eval(x.c, n, e, s))
    decreases n, 1, e, 0
  {
    hide Staged, Passes, Known, Truthy, SaneValue;
    EvalHarmless(x, n, e.test, s);
    var r := Eval(x.c, n, e.test, s);
    if r.out.Val? {
      StagedNext(x, s, r.st);
      EvalHarmless(x, n, e.thn, r.st);
      EvalHarmless(x, n, e.els, r.st);
      InvisibleAfter(x, n > x.m, s, r.st, Eval(x.c, n, e.thn, r.st));
      InvisibleAfter(x, n > x.m, s, r.st, Eval(x.c, n, e.els, r.st));
    }
  }

  lemma {:induction false} ClausesHarmless(x: Scene, n: nat, cl: Clauses, s: State)
    requires Staged(x, s) && HarmlessClauses(x.k, x.gone, Known(x), cl) && Within(x, CalleesClauses(cl))
    ensures Invisible(x, n > x.m, s, EvalClauses(x.c, n, cl, s))
    decreases n, 1, cl, 1
  {
    hide Staged, Passes, Known, Truthy, SaneValue;
    StagedHere(x, s);
    match cl
    case NoElse => LitSane(x.k, x.o, Nil);
    case Else(e) => EvalHarmless(x, n, e, s);
    case Clause(test, body, rest) =>
      EvalHarmless(x, n, test, s);
      var r := Eval(x.c, n, test, s);
      if r.out.Val? {
        StagedNext(x, s, r.st);
        EvalHarmless(x, n, body, r.st);
        ClausesHarmless(x, n, rest, r.st);
        InvisibleAfter(x, n > x.m, s, r.st, Eval(x.c, n, body, r.st));
        InvisibleAfter(x, n > x.m, s, r.st, EvalClauses(x.c, n, rest, r.st));
      }
  }

  lemma {:induction false} SeqHarmless(x: Scene, n: nat, es: Hirs, s: State)
    requires Staged(x, s) && HarmlessAll(x.k, x.gone, Known(x), es) && Within(x, CalleesAll(es))
    ensures Invisible(x, n > x.m, s, EvalSeq(x.c, n, es, s))
    decreases n, 1, es, 1
  {
    hide Staged, Passes, Known, SaneValue;
    StagedHere(x, s);
    LitSane(x.k, x.o, Nil);
    if es.HCons? {
      EvalHarmless(x, n, es.head, s);
      var r := Eval(x.c, n, es.head, s);
      if r.out.Val? && es.tail.HCons? {
        StagedNext(x, s, r.st);
        SeqHarmless(x, n, es.tail, r.st);
        InvisibleAfter(x, n > x.m, s, r.st, EvalSeq(x.c, n, es.tail, r.st));
      }
    }
  }

  lemma {:induction false} LogicHarmless(x: Scene, n: nat, conj: bool, es: Hirs, s: State)
    requires Staged(x, s) && HarmlessAll(x.k, x.gone, Known(x), es) && Within(x, CalleesAll(es))
    ensures Invisible(x, n > x.m, s, EvalLogic(x.c, n, conj, es, s))
    decreases n, 1, es, 1
  {
    hide Staged, Passes, Known, SaneValue, Truthy;
    StagedHere(x, s);
    LitSane(x.k, x.o, Bool(conj));
    if es.HCons? {
      EvalHarmless(x, n, es.head, s);
      var r := Eval(x.c, n, es.head, s);
      if r.out.Val? && es.tail.HCons? {
        StagedNext(x, s, r.st);
        LogicHarmless(x, n, conj, es.tail, r.st);
        InvisibleAfter(x, n > x.m, s, r.st, EvalLogic(x.c, n, conj, es.tail, r.st));
      }
    }
  }

  lemma {:induction false} LetHarmless(x: Scene, n: nat, e: Hir, s: State)
    requires Staged(x, s) && Harmless(x.k, x.gone, Known(x), e) && Within(x, Callees(e)) && e.Let?
    ensures Invisible(x, n > x.m, s, Eval(x.c, n, e, s))
    decreases n, 1, e, 0
  {
    hide Staged, Passes, Known, Quiet, SaneValue;
    PrebindNothing(x.k, x.gone, Known(x), e.binds, s);
    BindsHarmless(x, n, e.rec, e.binds, s);
    var r := EvalBinds(x.c, n, e.rec, e.binds, s);
    if r.Bound? {
      StagedNext(x, s, r.st);
      EvalHarmless(x, n, e.body, r.st);
      InvisibleAfter(x, n > x.m, s, r.st, Eval(x.c, n, e.body, r.st));
    }
  }

  lemma {:induction false} PrebindNothing(k: Rules, gone: bool, pure: set<Binding>, bs: Binds, s: State)
    requires HarmlessBinds(k, gone, pure, bs)
    ensures Prebind(s, bs) == s
    decreases bs
  {
    if bs.BCons? { PrebindNothing(k, gone, pure, bs.rest, s); }
  }

  lemma {:induction false} BindsHarmless(x: Scene, n: nat, rec: bool, bs: Binds, s: State)
    requires Staged(x, s) && HarmlessBinds(x.k, x.gone, Known(x), bs) && Within(x, CalleesBinds(bs))
    ensures BindsInvisible(x, n > x.m, s, EvalBinds(x.c, n, rec, bs, s))
    decreases n, 1, bs, 1
  {
    hide Staged, Passes, Known, Bind, Write, Quiet, SaneValue;
    StagedHere(x, s);
    if bs.BCons? {
      EvalHarmless(x, n, bs.init, s);
      var r := Eval(x.c, n, bs.init, s);
      if r.out.Val? {
        QuietStep(x, s, r.st, bs.binding, r.out.value);
        var t := if rec then Write(r.st, bs.binding, r.out.value) else Bind(r.st, bs.binding, r.out.value);
        StagedNext(x, s, t);
        BindsHarmless(x, n, rec, bs.rest, t);
        BindsAfter(x, n > x.m, s, t, EvalBinds(x.c, n, rec, bs.rest, t));
      }
    }
  }

  lemma QuietStep(x: Scene, s: State, st: State, b: Binding, v: Value)
    requires Passes(x, s, st) && SaneValue(x.k, x.o, v) && Quiet(x.k, x.gone, b)
    ensures Passes(x, s, Bind(st, b, v)) && Passes(x, s, Write(st, b, v))
  {
    hide SaneState, SaneValue, Gone, SlotReady;
    BindQuiet(x.k, x.o, st, b, v);
  }

  lemma BindsAfter(x: Scene, enough: bool, s: State, t: State, r: BindRes)
    requires Passes(x, s, t) && BindsInvisible(x, enough, t, r)
    ensures BindsInvisible(x, enough, s, r)
  {
    hide Passes;
    if r.Bound? { PassesThen(x, s, t, r.st); } else { InvisibleAfter(x, enough, s, t, r.res); }
  }

  lemma {:induction false} OpsHarmless(x: Scene, n: nat, es: Hirs, s: State)
    requires Staged(x, s) && HarmlessAll(x.k, x.gone, Known(x), es) && Within(x, CalleesAll(es))
    ensures OpsInvisible(x, n > x.m, Len(es), s, EvalOps(x.c, n, es, s))
    decreases n, 1, es, 1
  {
    hide Staged, Passes, Known, SaneValue;
    StagedHere(x, s);
    if es.HCons? {
      EvalHarmless(x, n, es.head, s);
      var r := Eval(x.c, n, es.head, s);
      if r.out.Val? {
        StagedNext(x, s, r.st);
        OpsHarmless(x, n, es.tail, r.st);
        OpsAfter(x, n > x.m, Len(es.tail), s, r.st, r.out.value, EvalOps(x.c, n, es.tail, r.st));
      }
    }
  }

  lemma OpsAfter(x: Scene, enough: bool, count: nat, s: State, t: State, v: Value, r: OpsRes)
    requires Passes(x, s, t) && SaneValue(x.k, x.o, v) && OpsInvisible(x, enough, count, t, r)
    ensures OpsInvisible(x, enough, count + 1, s, if r.Vals? then Vals([v] + r.values, r.st) else r)
  {
    hide Passes, SaneValue;
    if r.Vals? { PassesThen(x, s, t, r.st); } else { InvisibleAfter(x, enough, s, t, r.res); }
  }

  lemma {:induction false} StrictHarmless(x: Scene, n: nat, e: Hir, s: State)
    requires Staged(x, s) && Harmless(x.k, x.gone, Known(x), e) && Within(x, Callees(e)) && e.Strict?
    ensures Invisible(x, n > x.m, s, Eval(x.c, n, e, s))
    decreases n, 1, e, 0
  {
    hide Staged, Passes, Known, SaneValue, SignalsSound, Fits;
    OpsHarmless(x, n, e.args, s);
    var a := EvalOps(x.c, n, e.args, s);
    if a.Vals? {
      StagedNext(x, s, a.st);
      SilentHere(x, e, a.st);
      HostInvisible(x, n > x.m, s, a.st, PrimOp(e.op.code), a.values);
    }
  }

  lemma SilentHere(x: Scene, e: Hir, s: State)
    requires Staged(x, s)
    ensures SilentNode(x.k, x.c.host, e)
  {}

  /** A host call that does no more than allocate. */
  lemma HostInvisible(x: Scene, enough: bool, s: State, t: State, op: HostOp, vs: seq<Value>)
    requires Staged(x, t) && Passes(x, s, t) && SaneValues(x.k, x.o, vs) && Fits(x.c.host, op, |vs|)
    ensures var r := x.c.host(op, vs, t.world);
            && r.Done? && SaneValues(x.k, x.o, r.values)
            && Passes(x, s, t.(world := r.world))
            && Invisible(x, enough, s, Res(Val(First(r.values)), t.(world := r.world)))
  {
    hide SaneValue, SaneWorld, SaneFrame, SaneDyn, FramesAgree, SlotReady, PureFn, SignalsSound;
    var r := x.c.host(op, vs, t.world);
    assert SaneResult(x.k, x.o, r);
    assert Benign(r, t.world);
    LitSane(x.k, x.o, Nil);
  }

  lemma {:induction false} CallHarmless(x: Scene, n: nat, e: Hir, s: State)
    requires Staged(x, s) && Harmless(x.k, x.gone, Known(x), e) && Within(x, Callees(e)) && e.Call?
    ensures Invisible(x, n > x.m, s, Eval(x.c, n, e, s))
    decreases n, 1, e, 0
  {
    hide Staged, Passes, Known, Invoke, SaneValue, Fits;
    OpsHarmless(x, n, e.args, s);
    var a := EvalOps(x.c, n, e.args, s);
    if a.Vals? {
      var b := e.func.binding;
      StagedNext(x, s, a.st);
      SilentHere(x, e, a.st);
      CalleeTrusted(x, b, a.st);
      InvokeHarmless(x, n, b, a.values, e.spliced, e.isTail, a.st);
      InvisibleAfter(x, n > x.m, s, a.st, Invoke(x.c, n, Read(a.st, b), a.values, e.spliced, e.isTail, a.st));
    }
  }

  /** A name effect-free code calls is trusted. */
  lemma CalleeTrusted(x: Scene, b: Binding, s: State)
    requires Staged(x, s)
    requires if !x.k.pass.facts.info(b).primitive then b in Known(x) else DeclaredPure(x.k.pass.facts, b)
    ensures b in x.k.trusted && (x.k.pass.facts.info(b).primitive <==> x.k.trusted[b].Builtin?)
  {
    hide Seen, HostSane, SignalsSound, Harmless;
    if !x.k.pass.facts.info(b).primitive { var _ := PureOf(x, b, s); }
  }

  lemma {:induction false} InvokeHarmless(x: Scene, n: nat, b: Binding, vs: seq<Value>, spliced: seq<bool>,
          isTail: bool, s: State)
    requires Staged(x, s) && SaneValues(x.k, x.o, vs) && (x.live ==> b in x.bound) && b in x.k.trusted
    requires x.k.trusted[b].Fun? ==> b in Known(x)
    requires true !in spliced && Fits(x.c.host, CallOp(x.k.trusted[b]), |vs|)
    ensures Invisible(x, n > x.m, s, Invoke(x.c, n, Read(s, b), vs, spliced, isTail, s))
    decreases n, 0, 1
  {
    hide Staged, Passes, Apply, Known, SaneValue, Fits;
    StagedHere(x, s);
    assert s.(world := s.world) == s;
    NoReplacement(x, s);
    if n > 0 {
      BoundCallee(x, b, s);
      if x.k.trusted[b].Builtin? {
        BuiltinHarmless(x, n, b, vs, s);
      } else {
        FunHarmless(x, n, b, vs, s);
      }
    }
  }

  lemma NoReplacement(x: Scene, s: State)
    requires Staged(x, s)
    ensures !x.c.tco
  {}

  /** A trusted name holds its callee, or nil where it may be unbound. */
  lemma BoundCallee(x: Scene, b: Binding, s: State)
    requires Staged(x, s) && b in x.k.trusted && (x.live ==> b in x.bound)
    ensures var v := Read(s, b);
            && SaneValue(x.k, x.o, v) && (v == NilValue || Holds(x.k.trusted[b], v))
            && (x.live ==> v != NilValue && Ready(x.k, x.o.ready, b, v))
  {
    hide Setting, SaneValue;
    ReadSane(x.k, x.o, s, b);
    if x.live {
      assert SlotReady(x.k, x.o.ready, b, s.frame[b]);
      assert SaneSlot(x.k, x.o, b, s.frame[b]);
      if s.frame[b].Cell? { ReadyCell(x.k, x.o, s.world, s.frame[b].loc); }
    }
  }

  lemma ReadyCell(k: Rules, o: Owner, w: World, loc: nat)
    requires SaneWorld(k, o, w) && loc in o.ready
    ensures loc in o.of && loc < |w.cells| && Ready(k, o.ready, o.of[loc], w.cells[loc])
  {
    hide SaneValues, Ready;
    assert o.ready + o.mates[loc] == o.ready;
  }

  lemma {:induction false} BuiltinHarmless(x: Scene, n: nat, b: Binding, args: seq<Value>, s: State)
    requires Staged(x, s) && SaneValues(x.k, x.o, args) && n > 0 && b in x.k.trusted && x.k.trusted[b].Builtin?
    requires Fits(x.c.host, CallOp(x.k.trusted[b]), |args|) && (x.live ==> b in x.bound)
    ensures Invisible(x, n > x.m, s, Apply(x.c, n - 1, Read(s, b), args, s))
  {
    hide Staged, Passes, SaneValue, Fits;
    StagedHere(x, s);
    BoundCallee(x, b, s);
    if Read(s, b) != NilValue { HostInvisible(x, n > x.m, s, s, NativeOp(x.k.trusted[b].code), args); }
  }

  lemma {:induction false} FunHarmless(x: Scene, n: nat, b: Binding, args: seq<Value>, s: State)
    requires Staged(x, s) && SaneValues(x.k, x.o, args) && n > 0 && b in x.k.trusted && x.k.trusted[b].Fun?
    requires b in Known(x)
    requires Fits(x.c.host, CallOp(x.k.trusted[b]), |args|) && (x.live ==> b in x.bound)
    ensures Invisible(x, n > x.m, s, Apply(x.c, n - 1, Read(s, b), args, s))
    decreases n, 0, 0
  {
    hide Staged, Passes, SaneValue, Fits, Ready, Harmless, CapturesOk, EntryFrame, BindAll, Eval;
    StagedHere(x, s);
    BoundCallee(x, b, s);
    var f := Read(s, b);
    if f != NilValue {
      var i := PureOf(x, b, s);
      var fn := x.c.code[f.id];
      HostInvisible(x, n > x.m, s, s, ArrangeOp(f.id), args);
      var r := x.c.host(ArrangeOp(f.id), args, s.world);
      var y := x.(m := i, gone := false, bound := Callees(fn.body));
      var entry := State(EntryFrame(f, fn), s.dyn, r.world, 0);
      EntryStaged(x, y, f, fn, b, s, r.world);
      ParamsQuiet(y, entry, fn.params, r.values);
      var start := BindAll(entry, fn.params, r.values);
      EvalHarmless(y, n - 1, fn.body, start);
      AppliedInvisible(x, y, n > x.m, s, s.(world := r.world), start, Eval(x.c, n - 1, fn.body, start), n - 1 > i);
    }
  }

  /** The rank of a pure function the code may call. */
  lemma PureOf(x: Scene, b: Binding, s: State) returns (i: nat)
    requires Staged(x, s) && b in Known(x)
    ensures i < x.m <= |x.order| && x.order[i] == b && PureFn(x.k, x.c, x.order, i)
  {
    hide PureFn, Seen, HostSane, SignalsSound;
    i :| 0 <= i < x.m && x.order[..x.m][i] == b;
  }

  /** A called closure starts in a sane frame, in which what its body calls is bound if the closure was ready. */
  lemma EntryStaged(x: Scene, y: Scene, f: Value, fn: Fn, b: Binding, s: State, w: World)
    requires Staged(x, s) && Passes(x, s, s.(world := w)) && y == x.(m := y.m, gone := false, bound := Callees(fn.body))
    requires y.m <= |y.order|
    requires f.Closure? && SaneValue(x.k, x.o, f) && CapturesOk(x.k, f.id, fn.captures)
    requires x.live ==> Ready(x.k, x.o.ready, b, f) && b in x.k.needs && x.k.needs[b] == Callees(fn.body)
    requires forall g :: g in Callees(fn.body) ==> g in x.k.trusted && Capture(g, true) !in fn.captures
    ensures Staged(y, State(EntryFrame(f, fn), s.dyn, w, 0))
  {
    hide Setting, SaneWorld, CapturesOk, SaneDyn;
    var entry := State(EntryFrame(f, fn), s.dyn, w, 0);
    EntrySane(x.k, x.o, f, fn, entry);
    if x.live {
      forall g | g in y.bound ensures g in entry.frame && SlotReady(y.k, y.o.ready, g, entry.frame[g]) {
        assert entry.frame[g] == f.env[g];
      }
    }
  }

  lemma EntrySane(k: Rules, o: Owner, f: Value, fn: Fn, entry: State)
    requires f.Closure? && SaneValue(k, o, f) && CapturesOk(k, f.id, fn.captures)
    requires entry.frame == EntryFrame(f, fn) && SaneWorld(k, o, entry.world) && SaneDyn(k, o, entry.dyn)
    ensures SaneState(k, o, entry)
  {
    hide SaneWorld, SaneDyn, Gone;
    forall b | b in entry.frame ensures SaneSlot(k, o, b, entry.frame[b]) {
      if Capture(b, true) in fn.captures { assert entry.frame[b] == Plain(f); }
    }
  }

  lemma {:induction false} ParamsQuiet(x: Scene, st: State, ps: seq<Binding>, vs: seq<Value>)
    requires Staged(x, st) && SaneValues(x.k, x.o, vs) && forall j :: 0 <= j < |ps| ==> Quiet(x.k, false, ps[j])
    requires !x.gone
    ensures Staged(x, BindAll(st, ps, vs)) && BindAll(st, ps, vs).world == st.world && BindAll(st, ps, vs).dyn == st.dyn
    decreases |ps|
  {
    hide Staged, Passes, Quiet, SaneValue, Bind;
    StagedHere(x, st);
    if ps != [] && vs != [] {
      QuietStep(x, st, st, ps[0], vs[0]);
      assert Bind(st, ps[0], vs[0]).world == st.world && Bind(st, ps[0], vs[0]).dyn == st.dyn by {
        QuietFrame(x.k, st, ps[0], vs[0]);
      }
      StagedNext(x, st, Bind(st, ps[0], vs[0]));
      ParamsQuiet(x, Bind(st, ps[0], vs[0]), ps[1..], vs[1..]);
    }
  }

  lemma QuietFrame(k: Rules, st: State, b: Binding, v: Value)
    requires Quiet(k, false, b)
    ensures Bind(st, b, v).world == st.world && Bind(st, b, v).dyn == st.dyn
  {}

  lemma AppliedInvisible(x: Scene, y: Scene, enough: bool, s: State, s1: State, start: State, r: Res, inner: bool)
    requires Invisible(y, inner, start, r) && (enough ==> inner) && Passes(x, s, s1) && s1 == s.(world := s1.world)
    requires y == x.(m := y.m, gone := false, bound := y.bound) && start.world == s1.world
    ensures Invisible(x, enough, s, Res(FnResult(r.out), State(s.frame, s.dyn, r.st.world, s.mints)))
  {
    hide SaneValue, SaneWorld, SaneFrame, SaneDyn, FramesAgree, SlotReady;
  }
}
