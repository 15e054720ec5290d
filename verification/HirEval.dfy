/**
  A step-bounded evaluator for the HIR.

  An activation is a frame of slots, one per binding, and an unwritten slot reads
  nil. A boxed binding's slot holds a cell, which closures share. Values other
  than closures and parameters are the host's: primitives, natives, patterns and
  runtime `eval` go through one arbitrary function of the arguments and the
  world, so every theorem holds for every host.

  A call marked `isTail` replaces the frame: its result is the frame's result,
  and nothing after the call in the frame runs. `mints` counts the `Return`
  nodes the current activation has executed.

  Fuel bounds call depth and loop iterations; a step into a child costs none.
*/
module HirEval {
  import opened HirSyntax

  datatype Value =
    | Data(datum: Datum)
    | Object(address: nat)
    | Closure(id: nat, env: Frame)
    | Native(code: nat)
    | Param(id: nat, default: Value)

  datatype Slot = Plain(value: Value) | Cell(loc: nat)

  type Frame = map<Binding, Slot>

  datatype World = World(cells: seq<Value>, objects: seq<seq<Value>>, log: seq<Value>)

  datatype State = State(frame: Frame, dyn: map<nat, Value>, world: World, mints: nat)

  datatype HostOp =
    | PrimOp(code: nat)
    | EmitOp(signal: nat)
    | EvalOp
    | NativeOp(code: nat)
    | ArrangeOp(fn: nat)            // argument vector -> one value per parameter
    | MatchOp(shape: nat)           // a matched pattern's variable values
    | SpliceOp(flags: seq<bool>)

  datatype HostResult = Done(values: seq<Value>, world: World) | Raised(world: World)

  type Host = (HostOp, seq<Value>, World) -> HostResult

  /** `tco` says whether a marked call replaces the frame or runs as an ordinary call. */
  datatype Ctx = Ctx(code: Code, host: Host, tco: bool)

  datatype Outcome =
    | Val(value: Value)
    | Brk(id: BlockId, value: Value)
    | Again(values: seq<Value>)       // `recur`, on its way to its loop
    | Replaced(value: Value)          // a marked call ran in place of the frame
    | Fault
    | Timeout

  datatype Res = Res(out: Outcome, st: State)

  datatype OpsRes = Vals(values: seq<Value>, st: State) | Stop(res: Res)

  datatype BindRes = Bound(st: State) | Halt(res: Res)

  // ----- slots -------------------------------------------------------------------

  const NilValue: Value := Data(Nil)

  predicate Truthy(v: Value) {
    v != Data(Nil) && v != Data(Bool(false))
  }

  function First(vs: seq<Value>): Value {
    if vs == [] then NilValue else vs[0]
  }

  function CellAt(w: World, loc: nat): Value {
    if loc < |w.cells| then w.cells[loc] else NilValue
  }

  function Read(st: State, b: Binding): Value {
    if b !in st.frame then NilValue
    else match st.frame[b]
      case Plain(v) => v
      case Cell(loc) => CellAt(st.world, loc)
  }

  /** Give `b` a fresh slot holding `v`: a new cell when `b` is boxed. */
  function Bind(st: State, b: Binding, v: Value): State {
    if b.boxed then
      st.(frame := st.frame[b := Cell(|st.world.cells|)],
          world := st.world.(cells := st.world.cells + [v]))
    else
      st.(frame := st.frame[b := Plain(v)])
  }

  /** Store `v` through `b`'s cell when its slot holds one, and in the slot otherwise. */
  function Write(st: State, b: Binding, v: Value): State {
    if b in st.frame && st.frame[b].Cell? then
      var loc := st.frame[b].loc;
      if loc < |st.world.cells| then st.(world := st.world.(cells := st.world.cells[loc := v])) else st
    else
      st.(frame := st.frame[b := Plain(v)])
  }

  /** A definition: a boxed name that has no cell yet gets one, and any other is written. */
  function Store(st: State, b: Binding, v: Value): State {
    if b.boxed && b !in st.frame then Bind(st, b, v) else Write(st, b, v)
  }

  function StoreAll(st: State, bs: seq<Binding>, vs: seq<Value>): State
    decreases |bs|
  {
    if bs == [] || vs == [] then st else StoreAll(Store(st, bs[0], vs[0]), bs[1..], vs[1..])
  }

  function BindAll(st: State, bs: seq<Binding>, vs: seq<Value>): State
    decreases |bs|
  {
    if bs == [] || vs == [] then st
    else BindAll(Bind(st, bs[0], vs[0]), bs[1..], vs[1..])
  }

  /** Before a letrec's initializers run, each of its boxed names gets its cell, holding nil. */
  function Prebind(st: State, bs: Binds): State
    decreases bs
  {
    match bs
    case BNil => st
    case BCons(b, _, rest) => Prebind(if b.boxed then Bind(st, b, NilValue) else st, rest)
  }

  /** The slots a closure takes along: every captured one but its own name. */
  function Captured(f: Frame, cs: seq<Capture>): Frame {
    map b | b in f && Capture(b, false) in cs :: f[b]
  }

  /** The frame a call starts from: the captured slots, and the closure under its own name. */
  function EntryFrame(clo: Value, fn: Fn): Frame
    requires clo.Closure?
  {
    clo.env + map c | c in fn.captures && c.recursive :: c.binding := Plain(clo)
  }

  // ----- dynamic parameters ------------------------------------------------------

  function Overlay(dyn: map<nat, Value>, pairs: seq<Value>): map<nat, Value>
    decreases |pairs|
  {
    if |pairs| < 2 then dyn
    else
      var next := if pairs[0].Param? then dyn[pairs[0].id := pairs[1]] else dyn;
      Overlay(next, pairs[2..])
  }

  // ----- evaluation --------------------------------------------------------------

  function Eval(c: Ctx, n: nat, e: Hir, st: State): Res
    decreases n, 1, e, 1
  {
    match e
    case Lit(d) => Res(Val(Data(d)), st)
    case Var(b) => Res(Val(Read(st, b)), st)
    case Let(rec, bs, body) =>
      (match EvalBinds(c, n, rec, bs, if rec then Prebind(st, bs) else st)
       case Bound(st1) => Eval(c, n, body, st1)
       case Halt(r) => r)
    case Lambda(id, _, cs, _) => Res(Val(Closure(id, Captured(st.frame, cs))), st)
    case If(test, thn, els) =>
      var r := Eval(c, n, test, st);
      if !r.out.Val? then r
      else if Truthy(r.out.value) then Eval(c, n, thn, r.st) else Eval(c, n, els, r.st)
    case Cond(clauses) => EvalClauses(c, n, clauses, st)
    case Begin(es) => EvalSeq(c, n, es, st)
    case Block(id, es) =>
      var r := EvalSeq(c, n, es, st);
      if r.out.Brk? && r.out.id == id then Res(Val(r.out.value), r.st) else r
    case Break(id, x) =>
      var r := Eval(c, n, x, st);
      if r.out.Val? then Res(Brk(id, r.out.value), r.st) else r
    case Call(args, spliced, func, isTail) =>
      (match EvalOps(c, n, args, st)
       case Stop(r) => r
       case Vals(vs, st1) =>
         var r := Eval(c, n, func, st1);
         if !r.out.Val? then r
         else Invoke(c, n, r.out.value, vs, spliced, isTail, r.st))
    case While(test, body) => RunWhile(c, n, test, body, st)
    case Loop(bs, body) =>
      (match EvalBinds(c, n, false, bs, st)
       case Bound(st1) => RunLoop(c, n, BinderNames(bs), body, st1)
       case Halt(r) => r)
    case Match(x, arms) =>
      var r := Eval(c, n, x, st);
      if r.out.Val? then EvalArms(c, n, r.out.value, arms, r.st) else r
    case Logic(conj, es) => EvalLogic(c, n, conj, es, st)
    case Parameterize(pairs, body) =>
      (match EvalOps(c, n, pairs, st)
       case Stop(r) => r
       case Vals(vs, st1) =>
         var r := Eval(c, n, body, st1.(dyn := Overlay(st1.dyn, vs)));
         Res(r.out, r.st.(dyn := st1.dyn)))
    case Strict(op, args) =>
      (match EvalOps(c, n, args, st)
       case Stop(r) => r
       case Vals(vs, st1) => Perform(c.host, op, vs, st1))
    case Return(x) =>
      var r := Eval(c, n, x, st);
      if r.out.Val? then Res(r.out, r.st.(mints := r.st.mints + 1)) else r
    case Poison => Res(Fault, st)
  }

  function EvalOps(c: Ctx, n: nat, es: Hirs, st: State): OpsRes
    decreases n, 1, es, 0
  {
    match es
    case HNil => Vals([], st)
    case HCons(e, rest) =>
      var r := Eval(c, n, e, st);
      if !r.out.Val? then Stop(r)
      else match EvalOps(c, n, rest, r.st)
        case Vals(vs, st1) => Vals([r.out.value] + vs, st1)
        case Stop(s) => Stop(s)
  }

  function EvalBinds(c: Ctx, n: nat, rec: bool, bs: Binds, st: State): BindRes
    decreases n, 1, bs, 0
  {
    match bs
    case BNil => Bound(st)
    case BCons(b, e, rest) =>
      var r := Eval(c, n, e, st);
      if !r.out.Val? then Halt(r)
      else EvalBinds(c, n, rec, rest, if rec then Write(r.st, b, r.out.value) else Bind(r.st, b, r.out.value))
  }

  function EvalSeq(c: Ctx, n: nat, es: Hirs, st: State): Res
    decreases n, 1, es, 0
  {
    match es
    case HNil => Res(Val(NilValue), st)
    case HCons(e, HNil) => Eval(c, n, e, st)
    case HCons(e, rest) =>
      var r := Eval(c, n, e, st);
      if r.out.Val? then EvalSeq(c, n, rest, r.st) else r
  }

  function EvalLogic(c: Ctx, n: nat, conj: bool, es: Hirs, st: State): Res
    decreases n, 1, es, 0
  {
    match es
    case HNil => Res(Val(Data(Bool(conj))), st)
    case HCons(e, HNil) => Eval(c, n, e, st)
    case HCons(e, rest) =>
      var r := Eval(c, n, e, st);
      if r.out.Val? && Truthy(r.out.value) == conj then EvalLogic(c, n, conj, rest, r.st) else r
  }

  function EvalClauses(c: Ctx, n: nat, cl: Clauses, st: State): Res
    decreases n, 1, cl, 0
  {
    match cl
    case NoElse => Res(Val(NilValue), st)
    case Else(e) => Eval(c, n, e, st)
    case Clause(test, body, rest) =>
      var r := Eval(c, n, test, st);
      if !r.out.Val? then r
      else if Truthy(r.out.value) then Eval(c, n, body, r.st) else EvalClauses(c, n, rest, r.st)
  }

  function EvalArms(c: Ctx, n: nat, v: Value, arms: Arms, st: State): Res
    decreases n, 1, arms, 0
  {
    match arms
    case ANil => Res(Fault, st)
    case ACons(p, guard, body, rest) =>
      match c.host(MatchOp(p.shape), [v], st.world)
      case Raised(w) => EvalArms(c, n, v, rest, st.(world := w))
      case Done(vs, w) =>
        var st1 := BindAll(st.(world := w), p.vars, vs);
        if guard.None? then Eval(c, n, body, st1)
        else
          var r := Eval(c, n, guard.value, st1);
          if !r.out.Val? then r
          else if Truthy(r.out.value) then Eval(c, n, body, r.st) else EvalArms(c, n, v, rest, r.st)
  }

  function RunWhile(c: Ctx, n: nat, test: Hir, body: Hir, st: State): Res
    decreases n, 1, While(test, body), 0
  {
    var r := Eval(c, n, test, st);
    if !r.out.Val? then r
    else if !Truthy(r.out.value) then Res(Val(NilValue), r.st)
    else
      var s := Eval(c, n, body, r.st);
      if !s.out.Val? then s
      else if n == 0 then Res(Timeout, s.st)
      else RunWhile(c, n - 1, test, body, s.st)
  }

  function RunLoop(c: Ctx, n: nat, names: seq<Binding>, body: Hir, st: State): Res
    decreases n, 1, body, 2
  {
    var r := Eval(c, n, body, st);
    if !r.out.Again? then r
    else if |r.out.values| != |names| then Res(Fault, r.st)
    else if n == 0 then Res(Timeout, r.st)
    else RunLoop(c, n - 1, names, body, WriteAll(r.st, names, r.out.values))
  }

  function WriteAll(st: State, bs: seq<Binding>, vs: seq<Value>): State
    requires |bs| == |vs|
    decreases |bs|
  {
    if bs == [] then st else WriteAll(Write(st, bs[0], vs[0]), bs[1..], vs[1..])
  }

  /** A call whose callee and arguments are values. A marked call replaces the frame. */
  function Invoke(c: Ctx, n: nat, f: Value, vs: seq<Value>, spliced: seq<bool>, isTail: bool, st: State): Res
    decreases n, 0
  {
    match Spread(c.host, spliced, vs, st.world)
    case Raised(w) => Res(Fault, st.(world := w))
    case Done(args, w) =>
      if n == 0 then Res(Timeout, st)
      else
        var r := Apply(c, n - 1, f, args, st.(world := w));
        if isTail && c.tco && r.out.Val? then Res(Replaced(r.out.value), r.st) else r
  }

  function Spread(host: Host, spliced: seq<bool>, vs: seq<Value>, w: World): HostResult {
    if true in spliced then host(SpliceOp(spliced), vs, w) else Done(vs, w)
  }

  /** Run `f` on `args` in an activation of its own, and give the caller its frame back. */
  function Apply(c: Ctx, n: nat, f: Value, args: seq<Value>, st: State): Res
    decreases n, 2
  {
    match f
    case Closure(id, _) =>
      if id !in c.code then Res(Fault, st)
      else
        (match c.host(ArrangeOp(id), args, st.world)
         case Raised(w) => Res(Fault, st.(world := w))
         case Done(vs, w) =>
           var entry := State(EntryFrame(f, c.code[id]), st.dyn, w, 0);
           var r := Eval(c, n, c.code[id].body, BindAll(entry, c.code[id].params, vs));
           Res(FnResult(r.out), State(st.frame, st.dyn, r.st.world, st.mints)))
    case Native(code) =>
      (match c.host(NativeOp(code), args, st.world)
       case Raised(w) => Res(Fault, st.(world := w))
       case Done(vs, w) => Res(Val(First(vs)), st.(world := w)))
    case Param(id, default) =>
      if args != [] then Res(Fault, st)
      else Res(Val(if id in st.dyn then st.dyn[id] else default), st)
    case _ => Res(Fault, st)
  }

  /** What a completed body means to its caller: no break or recur crosses a function. */
  function FnResult(out: Outcome): Outcome {
    match out
    case Val(v) => Val(v)
    case Replaced(v) => Val(v)
    case Timeout => Timeout
    case _ => Fault
  }

  function Perform(host: Host, op: Op, vs: seq<Value>, st: State): Res {
    match op
    case Intrinsic(code, _, _) => Host1(host, PrimOp(code), vs, st)
    case Emit(signal) => Host1(host, EmitOp(signal), vs, st)
    case RunDatum => Host1(host, EvalOp, vs, st)
    case MakeCell => Res(Val(First(vs)), st)
    case DerefCell => Res(Val(First(vs)), st)
    case SetCell(b) => Res(Val(First(vs)), Write(st, b, First(vs)))
    case Assign(b) => Res(Val(First(vs)), Write(st, b, First(vs)))
    case Define(b) => Res(Val(First(vs)), Store(st, b, First(vs)))
    case Destructure(p, strict) =>
      (match host(MatchOp(p.shape), vs, st.world)
       case Raised(w) => Res(if strict then Fault else Val(NilValue), st.(world := w))
       case Done(parts, w) => Res(Val(NilValue), StoreAll(st.(world := w), p.vars, parts)))
    case Recur => Res(Again(vs), st)
  }

  function Host1(host: Host, op: HostOp, vs: seq<Value>, st: State): Res {
    match host(op, vs, st.world)
    case Raised(w) => Res(Fault, st.(world := w))
    case Done(out, w) => Res(Val(First(out)), st.(world := w))
  }
}
