/**
  The high-level IR: what a lowered Elle expression is made of.

  Spans, signals, docstrings and trace data are left out, and a node keeps an
  identity only where evaluation needs one: a lambda's node id is its code
  pointer. A `Binding` carries the one arena fact evaluation reads, whether the
  binding lives in a capture cell (`needs_capture`). Child lists are cons lists,
  so every walk is structural.
*/
module HirSyntax {
  import opened Options

  datatype Binding = Binding(id: nat, boxed: bool)

  type BlockId = nat

  /** Every literal and quote form; `Atom` stands for the literals no pass tells apart. */
  datatype Datum = Nil | Bool(b: bool) | Int(n: int) | Atom(code: nat) | Quoted(code: nat)

  /** A match pattern: an opaque shape, the variables it binds, and whether matching it allocates. */
  datatype Pattern = Pattern(shape: nat, vars: seq<Binding>, allocates: bool)

  /**
    One captured variable; `recursive` marks a lambda's reference to its own binding. A
    primitive the body names is among them, for a frame to hold: the source loads it as
    a constant.
  */
  datatype Capture = Capture(binding: Binding, recursive: bool)

  /** The forms that evaluate every operand, left to right, and then act. */
  datatype Op =
    | Intrinsic(code: nat, allocates: bool, funnel: bool)
    | Emit(signal: nat)
    | RunDatum                      // the `eval` form
    | MakeCell
    | DerefCell
    | SetCell(target: Binding)      // the one operand is the value; the cell is the target's
    | Assign(target: Binding)
    | Define(target: Binding)
    | Destructure(pattern: Pattern, strict: bool)
    | Recur

  datatype Hir =
    | Lit(datum: Datum)
    | Var(binding: Binding)
    | Let(rec: bool, binds: Binds, body: Hir)          // `let`, and `letrec` when `rec`
    | Lambda(id: nat, params: seq<Binding>, captures: seq<Capture>, body: Hir)
    | If(test: Hir, thn: Hir, els: Hir)
    | Cond(clauses: Clauses)
    | Begin(exprs: Hirs)
    | Block(id: BlockId, exprs: Hirs)
    | Break(id: BlockId, value: Hir)
    | Call(args: Hirs, spliced: seq<bool>, func: Hir, isTail: bool)
    | While(test: Hir, body: Hir)
    | Loop(binds: Binds, body: Hir)
    | Match(value: Hir, arms: Arms)
    | Logic(conj: bool, exprs: Hirs)                   // `and` when `conj`, else `or`
    | Parameterize(pairs: Hirs, body: Hir)             // key, value, key, value, ...
    | Strict(op: Op, args: Hirs)
    | Return(value: Hir)
    | Poison

  datatype Hirs = HNil | HCons(head: Hir, tail: Hirs)

  datatype Binds = BNil | BCons(binding: Binding, init: Hir, rest: Binds)

  /** A cond's clauses, ending in its else branch or in none. */
  datatype Clauses = NoElse | Else(els: Hir) | Clause(test: Hir, body: Hir, rest: Clauses)

  datatype Arms = ANil | ACons(pattern: Pattern, guard: Option<Hir>, body: Hir, rest: Arms)

  /** The names a binding list binds, in order. */
  function BinderNames(bs: Binds): seq<Binding> {
    match bs
    case BNil => []
    case BCons(b, _, rest) => [b] + BinderNames(rest)
  }

  /** A lambda as its code object: what a call to a closure of that id runs. */
  datatype Fn = Fn(params: seq<Binding>, captures: seq<Capture>, body: Hir)

  type Code = map<nat, Fn>

  // ----- the code table of a tree ---------------------------------------------

  function CodeOf(e: Hir): Code {
    match e
    case Lit(_) => map[]
    case Var(_) => map[]
    case Poison => map[]
    case Let(_, bs, body) => CodeOfBinds(bs) + CodeOf(body)
    case Lambda(id, ps, cs, body) => CodeOf(body)[id := Fn(ps, cs, body)]
    case If(c, t, f) => CodeOf(c) + CodeOf(t) + CodeOf(f)
    case Cond(cl) => CodeOfClauses(cl)
    case Begin(es) => CodeOfAll(es)
    case Block(_, es) => CodeOfAll(es)
    case Break(_, v) => CodeOf(v)
    case Call(args, _, f, _) => CodeOfAll(args) + CodeOf(f)
    case While(c, body) => CodeOf(c) + CodeOf(body)
    case Loop(bs, body) => CodeOfBinds(bs) + CodeOf(body)
    case Match(v, arms) => CodeOf(v) + CodeOfArms(arms)
    case Logic(_, es) => CodeOfAll(es)
    case Parameterize(ps, body) => CodeOfAll(ps) + CodeOf(body)
    case Strict(_, args) => CodeOfAll(args)
    case Return(v) => CodeOf(v)
  }

  function CodeOfAll(es: Hirs): Code {
    match es
    case HNil => map[]
    case HCons(e, rest) => CodeOf(e) + CodeOfAll(rest)
  }

  function CodeOfBinds(bs: Binds): Code {
    match bs
    case BNil => map[]
    case BCons(_, e, rest) => CodeOf(e) + CodeOfBinds(rest)
  }

  function CodeOfClauses(cl: Clauses): Code {
    match cl
    case NoElse => map[]
    case Else(e) => CodeOf(e)
    case Clause(c, b, rest) => CodeOf(c) + CodeOf(b) + CodeOfClauses(rest)
  }

  function CodeOfArms(arms: Arms): Code {
    match arms
    case ANil => map[]
    case ACons(_, g, b, rest) =>
      (if g.Some? then CodeOf(g.value) else map[]) + CodeOf(b) + CodeOfArms(rest)
  }
}
