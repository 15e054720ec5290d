/**
  What the order of admission says about the pure functions. They are the least set
  closed under admission, whatever order the sites are visited in, and a pure
  function calls only primitives and functions admitted before it: none is
  recursive, alone or through others.
*/
module DeadRank {
  import opened HirSyntax
  import opened Dead

  // ----- the least closed set ------------------------------------------------------------------------------

  lemma {:induction false} EffectFreeGrows(f: Facts, pure: set<Binding>, more: set<Binding>, e: Hir)
    requires pure <= more && EffectFree(f, pure, e)
    ensures EffectFree(f, more, e)
    decreases e
  {
    match e
    case Lit(_) =>
    case Var(_) =>
    case Return(v) => EffectFreeGrows(f, pure, more, v);
    case If(c, t, els) =>
      EffectFreeGrows(f, pure, more, c);
      EffectFreeGrows(f, pure, more, t);
      EffectFreeGrows(f, pure, more, els);
    case Cond(cl) => ClausesGrow(f, pure, more, cl);
    case Begin(es) => AllGrow(f, pure, more, es);
    case Logic(_, es) => AllGrow(f, pure, more, es);
    case Let(_, bs, body) => BindsGrow(f, pure, more, bs); EffectFreeGrows(f, pure, more, body);
    case Call(args, _, _, _) => AllGrow(f, pure, more, args);
    case Strict(_, args) => AllGrow(f, pure, more, args);
  }

  lemma {:induction false} AllGrow(f: Facts, pure: set<Binding>, more: set<Binding>, es: Hirs)
    requires pure <= more && EffectFreeAll(f, pure, es)
    ensures EffectFreeAll(f, more, es)
    decreases es
  {
    if es.HCons? {
      EffectFreeGrows(f, pure, more, es.head);
      AllGrow(f, pure, more, es.tail);
    }
  }

  lemma {:induction false} BindsGrow(f: Facts, pure: set<Binding>, more: set<Binding>, bs: Binds)
    requires pure <= more && EffectFreeBinds(f, pure, bs)
    ensures EffectFreeBinds(f, more, bs)
    decreases bs
  {
    if bs.BCons? {
      EffectFreeGrows(f, pure, more, bs.init);
      BindsGrow(f, pure, more, bs.rest);
    }
  }

  lemma {:induction false} ClausesGrow(f: Facts, pure: set<Binding>, more: set<Binding>, cl: Clauses)
    requires pure <= more && EffectFreeClauses(f, pure, cl)
    ensures EffectFreeClauses(f, more, cl)
    decreases cl
  {
    match cl
    case NoElse =>
    case Else(e) => EffectFreeGrows(f, pure, more, e);
    case Clause(c, b, rest) =>
      EffectFreeGrows(f, pure, more, c);
      EffectFreeGrows(f, pure, more, b);
      ClausesGrow(f, pure, more, rest);
  }

  /** Nothing more can be admitted from `pure`. */
  predicate ClosedUnder(f: Facts, sites: seq<Site>, pure: set<Binding>) {
    forall j :: 0 <= j < |sites| && Admissible(f, sites, pure, sites[j]) ==> sites[j].0 in pure
  }

  lemma {:induction false} RankedIsBelow(f: Facts, sites: seq<Site>, order: seq<Binding>, closed: set<Binding>, i: nat)
    requires Ranked(f, sites, order) && ClosedUnder(f, sites, closed) && i <= |order|
    ensures Elements(order[..i]) <= closed
    decreases i
  {
    if i > 0 {
      RankedIsBelow(f, sites, order, closed, i - 1);
      var before := Elements(order[..i - 1]);
      assert RankedAt(f, sites, order, i - 1);
      var j :| 0 <= j < |sites| && sites[j].0 == order[i - 1] && Admissible(f, sites, before, sites[j]);
      EffectFreeGrows(f, before, closed, sites[j].1.body);
      assert Admissible(f, sites, closed, sites[j]);
      forall x | x in Elements(order[..i]) ensures x in closed {
        var k :| 0 <= k < i && order[..i][k] == x;
        if k < i - 1 { assert order[..i - 1][k] == x; }
      }
    }
  }

  /** The set the rounds arrive at is contained in every closed set, so no visiting order changes it. */
  lemma PureSetIsLeast(f: Facts, sites: seq<Site>, order: seq<Binding>, closed: set<Binding>)
    requires Ranked(f, sites, order) && ClosedUnder(f, sites, closed)
    ensures Elements(order) <= closed
  {
    assert order[..|order|] == order;
    RankedIsBelow(f, sites, order, closed, |order|);
  }

  // ----- who calls whom ------------------------------------------------------------------------------------

  /** A name that effect-free code may call. */
  predicate Callable(f: Facts, pure: set<Binding>, b: Binding) {
    if f.info(b).primitive then DeclaredPure(f, b) else b in pure
  }

  lemma {:induction false} EffectFreeCalls(f: Facts, pure: set<Binding>, e: Hir, b: Binding)
    requires EffectFree(f, pure, e) && b in Callees(e)
    ensures Callable(f, pure, b)
    decreases e
  {
    match e
    case Return(v) => EffectFreeCalls(f, pure, v, b);
    case If(c, t, els) =>
      EffectFreeCalls(f, pure, if b in Callees(c) then c else if b in Callees(t) then t else els, b);
    case Cond(cl) => EffectFreeClausesCall(f, pure, cl, b);
    case Begin(es) => EffectFreeAnyCalls(f, pure, es, b);
    case Logic(_, es) => EffectFreeAnyCalls(f, pure, es, b);
    case Let(_, bs, body) =>
      if b in CalleesBinds(bs) { EffectFreeBindsCall(f, pure, bs, b); } else { EffectFreeCalls(f, pure, body, b); }
    case Call(args, _, func, _) => if func != Var(b) { EffectFreeAnyCalls(f, pure, args, b); }
    case Strict(_, args) => EffectFreeAnyCalls(f, pure, args, b);
  }

  lemma {:induction false} EffectFreeAnyCalls(f: Facts, pure: set<Binding>, es: Hirs, b: Binding)
    requires EffectFreeAll(f, pure, es) && b in CalleesAll(es)
    ensures Callable(f, pure, b)
    decreases es
  {
    if b in Callees(es.head) { EffectFreeCalls(f, pure, es.head, b); } else { EffectFreeAnyCalls(f, pure, es.tail, b); }
  }

  lemma {:induction false} EffectFreeBindsCall(f: Facts, pure: set<Binding>, bs: Binds, b: Binding)
    requires EffectFreeBinds(f, pure, bs) && b in CalleesBinds(bs)
    ensures Callable(f, pure, b)
    decreases bs
  {
    if b in Callees(bs.init) {
      EffectFreeCalls(f, pure, bs.init, b);
    } else {
      EffectFreeBindsCall(f, pure, bs.rest, b);
    }
  }

  lemma {:induction false} EffectFreeClausesCall(f: Facts, pure: set<Binding>, cl: Clauses, b: Binding)
    requires EffectFreeClauses(f, pure, cl) && b in CalleesClauses(cl)
    ensures Callable(f, pure, b)
    decreases cl
  {
    match cl
    case Else(e) => EffectFreeCalls(f, pure, e, b);
    case Clause(c, x, rest) =>
      if b in Callees(c) { EffectFreeCalls(f, pure, c, b); }
      else if b in Callees(x) { EffectFreeCalls(f, pure, x, b); }
      else { EffectFreeClausesCall(f, pure, rest, b); }
  }

  /** The bodies of a function: every lambda bound to its name anywhere in the program. */
  predicate BodyCalls(sites: seq<Site>, caller: Binding, callee: Binding) {
    exists j :: 0 <= j < |sites| && sites[j].0 == caller && sites[j].1.Lambda? && callee in Callees(sites[j].1.body)
  }

  lemma {:induction false} CountedTwice(sites: seq<Site>, b: Binding, i: nat, j: nat)
    requires i < j < |sites| && sites[i].0 == b && sites[j].0 == b
    ensures Count(sites, b) >= 2
    decreases |sites|
  {
    var last := |sites| - 1;
    if j < last {
      CountedTwice(sites[..last], b, i, j);
    } else {
      CountedOnce(sites[..last], b, i);
    }
  }

  lemma {:induction false} CountedOnce(sites: seq<Site>, b: Binding, i: nat)
    requires i < |sites| && sites[i].0 == b
    ensures Count(sites, b) >= 1
    decreases |sites|
  {
    if i < |sites| - 1 { CountedOnce(sites[..|sites| - 1], b, i); }
  }

  /** A name the list counts once has one site. */
  lemma OneSite(sites: seq<Site>, b: Binding, i: nat, j: nat)
    requires Count(sites, b) == 1 && i < |sites| && sites[i].0 == b && j < |sites| && sites[j].0 == b
    ensures i == j
  {
    if i < j { CountedTwice(sites, b, i, j); }
    if j < i { CountedTwice(sites, b, j, i); }
  }

  /**
    Calls go down in rank: what the function admitted at `i` calls is a declared pure
    primitive or was admitted before it.
  */
  lemma PureCallsGoDown(f: Facts, sites: seq<Site>, order: seq<Binding>, i: nat, b: Binding)
    requires Ranked(f, sites, order) && i < |order| && BodyCalls(sites, order[i], b)
    ensures if f.info(b).primitive then DeclaredPure(f, b) else exists k :: 0 <= k < i && order[k] == b
  {
    var before := Elements(order[..i]);
    assert RankedAt(f, sites, order, i);
    var j :| 0 <= j < |sites| && sites[j].0 == order[i] && Admissible(f, sites, before, sites[j]);
    var k :| 0 <= k < |sites| && sites[k].0 == order[i] && sites[k].1.Lambda? && b in Callees(sites[k].1.body);
    OneSite(sites, order[i], j, k);
    EffectFreeCalls(f, before, sites[j].1.body, b);
  }

  /** No function that calls itself is ever admitted. */
  lemma RecursiveIsNeverPure(f: Facts, sites: seq<Site>, order: seq<Binding>, b: Binding)
    requires Ranked(f, sites, order) && BodyCalls(sites, b, b) && !f.info(b).primitive
    ensures b !in Elements(order)
  {
    forall i | 0 <= i < |order| ensures order[i] != b {
      assert RankedAt(f, sites, order, i);
      assert forall k :: 0 <= k < i ==> order[k] == order[..i][k];
      if order[i] == b { PureCallsGoDown(f, sites, order, i, b); }
    }
  }
}
