/**
  Closing a body as the compiler does it: one object whose index, table and list of
  globals grow while the walk rebuilds the tree.

  Every method is tied to the rebuild of `Fragment` on the object's state, so what
  is proved of that rebuild holds of the walk. A walk that is declined may leave
  entries behind, and its caller throws the object away.
*/
module FragmentWalk {
  import opened Options
  import opened HirSyntax
  import opened Fragment

  class TableBuilder {
    const arena: Arena
    const allow: bool
    var index: map<Binding, Binding>
    var table: seq<Entry>
    var globals: seq<(nat, Binding)>

    constructor (arena: Arena, allow: bool)
      ensures State() == Closing(arena, allow, map[], [], [])
    {
      this.arena, this.allow := arena, allow;
      index, table, globals := map[], [], [];
    }

    ghost function State(): Rebinder
      reads this
    {
      Closing(arena, allow, index, table, globals)
    }

    method Push(entry: Entry, b: Binding) returns (made: Binding)
      modifies this
      ensures made == Binding(|old(table)|, arena(b).boxed)
      ensures index == old(index)[b := made] && table == old(table) + [entry] && globals == old(globals)
    {
      made := Binding(|table|, arena(b).boxed);
      table := table + [entry];
      index := index[b := made];
    }

    method IntroduceName(b: Binding) returns (made: Binding)
      modifies this
      ensures Rebound(made, State()) == Introduce(old(State()), b)
    {
      made := Push(Local(arena(b)), b);
    }

    method IntroduceNameOnce(b: Binding) returns (made: Binding)
      modifies this
      ensures Rebound(made, State()) == IntroduceOnce(old(State()), b)
    {
      if b in index {
        made := index[b];
      } else {
        made := IntroduceName(b);
      }
    }

    method ReferTo(b: Binding) returns (made: Option<Binding>)
      modifies this
      ensures Answers(made, State(), Reference(old(State()), b))
    {
      if b in index { return Some(index[b]); }
      var inner := arena(b);
      if !inner.fileScope && !inner.primitive { return None; }
      var x := Push(Global(inner.name), b);
      globals := globals + [(x.id, b)];
      made := Some(x);
    }

    /** A declined walk answers nothing; any other gives the rebuilt tree and ends in the state the rebuild ends in. */
    static ghost predicate Answers<T>(tree: Option<T>, r: Rebinder, want: Option<Rebound<T>>) {
      if tree.None? then want.None? else want == Some(Rebound(tree.value, r))
    }

    method Walk(e: Hir) returns (tree: Option<Hir>)
      modifies this
      ensures Answers(tree, State(), Rebind(e, old(State())))
      decreases e, 1
    {
      match e
      case Lit(d) => tree := if d.Quoted? then None else Some(e);
      case Var(b) =>
        var x := ReferTo(b);
        tree := if x.None? then None else Some(Var(x.value));
      case Let(rec, bs, body) =>
        if rec { return None; }
        var x := WalkLet(bs);
        if x.None? { return None; }
        var y := Walk(body);
        tree := if y.None? then None else Some(Let(false, x.value, y.value));
      case Call(args, spliced, func, isTail) =>
        var x := Walk(func);
        if x.None? { return None; }
        var y := WalkAll(args);
        tree := if y.None? then None else Some(Call(y.value, spliced, x.value, isTail));
      case Strict(op, args) =>
        if !op.Emit? && !op.Intrinsic? { return None; }
        if op.Intrinsic? && !allow { return None; }
        var x := WalkAll(args);
        tree := if x.None? then None else Some(Strict(op, x.value));
      case Lambda(_, _, _, _) => tree := None;
      case Block(_, _) => tree := None;
      case Break(_, _) => tree := None;
      case While(_, _) => tree := None;
      case Loop(_, _) => tree := None;
      case Parameterize(_, _) => tree := None;
      case Return(_) => tree := None;
      case Poison => tree := None;
      case _ => tree := WalkBranch(e);
    }

    method WalkBranch(e: Hir) returns (tree: Option<Hir>)
      requires e.If? || e.Cond? || e.Begin? || e.Logic? || e.Match?
      modifies this
      ensures Answers(tree, State(), Rebind(e, old(State())))
      decreases e, 0
    {
      match e
      case If(c, t, f) =>
        var x := Walk(c);
        if x.None? { return None; }
        var y := Walk(t);
        if y.None? { return None; }
        var z := Walk(f);
        tree := if z.None? then None else Some(If(x.value, y.value, z.value));
      case Cond(cl) =>
        var x := WalkClauses(cl);
        tree := if x.None? then None else Some(Cond(x.value));
      case Begin(es) =>
        var x := WalkAll(es);
        tree := if x.None? then None else Some(Begin(x.value));
      case Logic(conj, es) =>
        var x := WalkAll(es);
        tree := if x.None? then None else Some(Logic(conj, x.value));
      case Match(v, arms) =>
        var x := Walk(v);
        if x.None? { return None; }
        var y := WalkArms(arms);
        tree := if y.None? then None else Some(Match(x.value, y.value));
    }

    method WalkAll(es: Hirs) returns (trees: Option<Hirs>)
      modifies this
      ensures Answers(trees, State(), RebindAll(es, old(State())))
      decreases es, 0
    {
      if es.HNil? { return Some(HNil); }
      var x := Walk(es.head);
      if x.None? { return None; }
      var y := WalkAll(es.tail);
      trees := if y.None? then None else Some(HCons(x.value, y.value));
    }

    method WalkLet(bs: Binds) returns (trees: Option<Binds>)
      modifies this
      ensures Answers(trees, State(), RebindLet(bs, old(State())))
      decreases bs, 0
    {
      if bs.BNil? { return Some(BNil); }
      var x := Walk(bs.init);
      if x.None? { return None; }
      var made := IntroduceName(bs.binding);
      var y := WalkLet(bs.rest);
      trees := if y.None? then None else Some(BCons(made, x.value, y.value));
    }

    method WalkClauses(cl: Clauses) returns (trees: Option<Clauses>)
      modifies this
      ensures Answers(trees, State(), RebindClauses(cl, old(State())))
      decreases cl, 0
    {
      match cl
      case NoElse => trees := Some(NoElse);
      case Else(e) =>
        var x := Walk(e);
        trees := if x.None? then None else Some(Else(x.value));
      case Clause(c, b, rest) =>
        var x := Walk(c);
        if x.None? { return None; }
        var y := Walk(b);
        if y.None? { return None; }
        var z := WalkClauses(rest);
        trees := if z.None? then None else Some(Clause(x.value, y.value, z.value));
    }

    method WalkVars(vs: seq<Binding>) returns (made: seq<Binding>)
      modifies this
      ensures Rebound(made, State()) == RebindVars(vs, old(State()))
      decreases |vs|
    {
      if vs == [] { return []; }
      var x := IntroduceNameOnce(vs[0]);
      var y := WalkVars(vs[1..]);
      made := [x] + y;
    }

    method WalkArms(arms: Arms) returns (trees: Option<Arms>)
      modifies this
      ensures Answers(trees, State(), RebindArms(arms, old(State())))
      decreases arms, 0
    {
      if arms.ANil? { return Some(ANil); }
      var vars := WalkVars(arms.pattern.vars);
      var guard: Option<Hir> := None;
      if arms.guard.Some? {
        guard := Walk(arms.guard.value);
        if guard.None? { return None; }
      }
      var body := Walk(arms.body);
      if body.None? { return None; }
      var rest := WalkArms(arms.rest);
      trees := if rest.None? then None else Some(ACons(arms.pattern.(vars := vars), guard, body.value, rest.value));
    }
  }

  lemma {:induction false} IntroduceOneMore(r: Rebinder, ps: seq<Binding>, i: nat)
    requires i < |ps|
    ensures IntroduceAll(r, ps[..i + 1]).tree == IntroduceAll(r, ps[..i]).tree +
            [Introduce(IntroduceAll(r, ps[..i]).r, ps[i]).tree]
    ensures IntroduceAll(r, ps[..i + 1]).r == Introduce(IntroduceAll(r, ps[..i]).r, ps[i]).r
    decreases i
  {
    if i > 0 {
      IntroduceOneMore(Introduce(r, ps[0]).r, ps[1..], i - 1);
      assert ps[1..][..i] == ps[..i + 1][1..] && ps[1..][..i - 1] == ps[..i][1..];
    }
  }

  /** Parameters first, then the body; a body that is not portable gives nothing. */
  method CloseBody(body: Hir, params: seq<Binding>, arena: Arena, allow: bool) returns (r: Option<Closed>)
    ensures r == CloseWithGlobals(body, params, arena, allow)
  {
    var closing := new TableBuilder(arena, allow);
    ghost var start := closing.State();
    var made, i := [], 0;
    while i < |params|
      invariant 0 <= i <= |params|
      invariant fresh(closing) && Rebound(made, closing.State()) == IntroduceAll(start, params[..i])
    {
      var x := closing.IntroduceName(params[i]);
      IntroduceOneMore(start, params, i);
      made := made + [x];
      i := i + 1;
    }
    assert params[..i] == params;
    var tree := closing.Walk(body);
    r := if tree.None? then None else Some(Closed(made, HirFragment(tree.value, closing.table), closing.globals));
  }
}
