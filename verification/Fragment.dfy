/**
  An HIR body closed over its own binding table, and re-hosted in any arena.

  `Rebind` is the one walk that both directions share. Closing answers its binding
  questions by building the table, grafting by reading host bindings out of it.
  `FragmentClose` says which bodies close. `Graft.GraftedBody` says the round trip
  renames: of a body that binds each name once, the graft is the body with every
  name replaced, locals by new ones. `FragmentEval` says that it runs the same.
*/
module Fragment {
  import opened Options
  import opened HirSyntax

  /** What the arena records of a binding; `facts` stands for everything closing does not ask. */
  datatype Inner = Inner(name: nat, boxed: bool, fileScope: bool, primitive: bool, facts: nat)

  datatype Entry = Local(inner: Inner) | Global(name: nat)

  datatype HirFragment = HirFragment(body: Hir, table: seq<Entry>)

  type Arena = Binding -> Inner

  /** The two ways of answering the walk: building a fragment's table, or reading host bindings from it. */
  datatype Rebinder =
    | Closing(arena: Arena, allow: bool, index: map<Binding, Binding>, table: seq<Entry>, globals: seq<(nat, Binding)>)
    | Grafting(host: seq<Binding>)

  datatype Rebound<+T> = Rebound(tree: T, r: Rebinder)

  // ----- the binding questions ----------------------------------------------------------------------------

  function HostOf(host: seq<Binding>, b: Binding): Binding {
    if b.id < |host| then host[b.id] else b
  }

  function Introduce(r: Rebinder, b: Binding): Rebound<Binding> {
    match r
    case Closing(arena, _, index, table, _) =>
      var inner := arena(b);
      var made := Binding(|table|, inner.boxed);
      Rebound(made, r.(index := index[b := made], table := table + [Local(inner)]))
    case Grafting(host) => Rebound(HostOf(host, b), r)
  }

  /** A pattern variable: introduced where the pattern first names it. */
  function IntroduceOnce(r: Rebinder, b: Binding): Rebound<Binding> {
    if r.Closing? && b in r.index then Rebound(r.index[b], r) else Introduce(r, b)
  }

  /** A free variable is portable only when it is a module name or a primitive. */
  function Reference(r: Rebinder, b: Binding): Option<Rebound<Binding>> {
    match r
    case Closing(arena, _, index, table, globals) =>
      if b in index then Some(Rebound(index[b], r))
      else
        var inner := arena(b);
        if !inner.fileScope && !inner.primitive then None
        else
          var made := Binding(|table|, inner.boxed);
          var more := table + [Global(inner.name)];
          Some(Rebound(made, r.(index := index[b := made], table := more, globals := globals + [(|table|, b)])))
    case Grafting(host) => Some(Rebound(HostOf(host, b), r))
  }

  predicate AllowsIntrinsic(r: Rebinder) {
    r.Closing? ==> r.allow
  }

  // ----- the walk --------------------------------------------------------------------------------------------

  function Rebind(e: Hir, r: Rebinder): (x: Option<Rebound<Hir>>)
    ensures x.Some? ==> x.value.r.Closing? == r.Closing?
    decreases e
  {
    match e
    case Lit(d) => if d.Quoted? then None else Some(Rebound(e, r))
    case Var(b) =>
      var x := Reference(r, b);
      if x.None? then None else Some(Rebound(Var(x.value.tree), x.value.r))
    case Let(rec, bs, body) =>
      if rec then None
      else
        var x := RebindLet(bs, r);
        if x.None? then None
        else
          var y := Rebind(body, x.value.r);
          if y.None? then None else Some(Rebound(Let(false, x.value.tree, y.value.tree), y.value.r))
    case Call(args, spliced, func, isTail) =>
      var x := Rebind(func, r);
      if x.None? then None
      else
        var y := RebindAll(args, x.value.r);
        if y.None? then None else Some(Rebound(Call(y.value.tree, spliced, x.value.tree, isTail), y.value.r))
    case If(c, t, f) =>
      var x := Rebind(c, r);
      if x.None? then None
      else
        var y := Rebind(t, x.value.r);
        if y.None? then None
        else
          var z := Rebind(f, y.value.r);
          if z.None? then None else Some(Rebound(If(x.value.tree, y.value.tree, z.value.tree), z.value.r))
    case Cond(cl) =>
      var x := RebindClauses(cl, r);
      if x.None? then None else Some(Rebound(Cond(x.value.tree), x.value.r))
    case Begin(es) =>
      var x := RebindAll(es, r);
      if x.None? then None else Some(Rebound(Begin(x.value.tree), x.value.r))
    case Logic(conj, es) =>
      var x := RebindAll(es, r);
      if x.None? then None else Some(Rebound(Logic(conj, x.value.tree), x.value.r))
    case Match(v, arms) =>
      var x := Rebind(v, r);
      if x.None? then None
      else
        var y := RebindArms(arms, x.value.r);
        if y.None? then None else Some(Rebound(Match(x.value.tree, y.value.tree), y.value.r))
    case Strict(op, args) =>
      if !op.Emit? && !op.Intrinsic? then None
      else if op.Intrinsic? && !AllowsIntrinsic(r) then None
      else
        var x := RebindAll(args, r);
        if x.None? then None else Some(Rebound(Strict(op, x.value.tree), x.value.r))
    case _ => None
  }

  function RebindAll(es: Hirs, r: Rebinder): (x: Option<Rebound<Hirs>>)
    ensures x.Some? ==> x.value.r.Closing? == r.Closing?
    decreases es
  {
    match es
    case HNil => Some(Rebound(HNil, r))
    case HCons(e, rest) =>
      var x := Rebind(e, r);
      if x.None? then None
      else
        var y := RebindAll(rest, x.value.r);
        if y.None? then None else Some(Rebound(HCons(x.value.tree, y.value.tree), y.value.r))
  }

  /** A value is rebuilt before its own name is introduced, so no value can name itself. */
  function RebindLet(bs: Binds, r: Rebinder): (x: Option<Rebound<Binds>>)
    ensures x.Some? ==> x.value.r.Closing? == r.Closing?
    decreases bs
  {
    match bs
    case BNil => Some(Rebound(BNil, r))
    case BCons(b, e, rest) =>
      var x := Rebind(e, r);
      if x.None? then None
      else
        var made := Introduce(x.value.r, b);
        var y := RebindLet(rest, made.r);
        if y.None? then None else Some(Rebound(BCons(made.tree, x.value.tree, y.value.tree), y.value.r))
  }

  function RebindClauses(cl: Clauses, r: Rebinder): (x: Option<Rebound<Clauses>>)
    ensures x.Some? ==> x.value.r.Closing? == r.Closing?
    decreases cl
  {
    match cl
    case NoElse => Some(Rebound(NoElse, r))
    case Else(e) =>
      var x := Rebind(e, r);
      if x.None? then None else Some(Rebound(Else(x.value.tree), x.value.r))
    case Clause(c, b, rest) =>
      var x := Rebind(c, r);
      if x.None? then None
      else
        var y := Rebind(b, x.value.r);
        if y.None? then None
        else
          var z := RebindClauses(rest, y.value.r);
          if z.None? then None else Some(Rebound(Clause(x.value.tree, y.value.tree, z.value.tree), z.value.r))
  }

  function RebindVars(vs: seq<Binding>, r: Rebinder): (x: Rebound<seq<Binding>>)
    ensures x.r.Closing? == r.Closing? && |x.tree| == |vs|
    decreases |vs|
  {
    if vs == [] then Rebound([], r)
    else
      var x := IntroduceOnce(r, vs[0]);
      var y := RebindVars(vs[1..], x.r);
      Rebound([x.tree] + y.tree, y.r)
  }

  /** A pattern's variables come before its guard and body. */
  function RebindArms(arms: Arms, r: Rebinder): (x: Option<Rebound<Arms>>)
    ensures x.Some? ==> x.value.r.Closing? == r.Closing?
    decreases arms
  {
    match arms
    case ANil => Some(Rebound(ANil, r))
    case ACons(p, g, b, rest) =>
      var vars := RebindVars(p.vars, r);
      var x := if g.Some? then Rebind(g.value, vars.r) else None;
      if g.Some? && x.None? then None
      else
        var y := Rebind(b, if g.Some? then x.value.r else vars.r);
        if y.None? then None
        else
          var z := RebindArms(rest, y.value.r);
          if z.None? then None
          else
            var guard := if g.Some? then Some(x.value.tree) else None;
            Some(Rebound(ACons(p.(vars := vars.tree), guard, y.value.tree, z.value.tree), z.value.r))
  }

  // ----- closing and grafting -------------------------------------------------------------------------------

  function IntroduceAll(r: Rebinder, ps: seq<Binding>): (x: Rebound<seq<Binding>>)
    ensures x.r.Closing? == r.Closing? && |x.tree| == |ps|
    decreases |ps|
  {
    if ps == [] then Rebound([], r)
    else
      var x := Introduce(r, ps[0]);
      var y := IntroduceAll(x.r, ps[1..]);
      Rebound([x.tree] + y.tree, y.r)
  }

  datatype Closed = Closed(params: seq<Binding>, fragment: HirFragment, globals: seq<(nat, Binding)>)

  function CloseWithGlobals(body: Hir, params: seq<Binding>, arena: Arena, allow: bool): Option<Closed> {
    var x := IntroduceAll(Closing(arena, allow, map[], [], []), params);
    var y := Rebind(body, x.r);
    if y.None? then None
    else Some(Closed(x.tree, HirFragment(y.value.tree, y.value.r.table), y.value.r.globals))
  }
}
