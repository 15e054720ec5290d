/**
  Grafting a fragment, and what the grafted body is.

  The arena grows in place: a graft first resolves every global, so one that fails
  mints nothing, and then mints a binding for each local. `GraftedBody` puts the
  parts together: the graft of a closed body is the body renamed.
*/
module Graft {
  import opened Options
  import opened HirSyntax
  import opened Fragment
  import opened FragmentFacts

  // ----- the host's bindings -------------------------------------------------------------------------------

  function LocalsIn(table: seq<Entry>): seq<Inner> {
    if table == [] then []
    else
      var last := table[|table| - 1];
      LocalsIn(table[..|table| - 1]) + if last.Local? then [last.inner] else []
  }

  type Resolve = (nat, nat) -> Option<Binding>

  predicate Resolves(table: seq<Entry>, resolve: Resolve) {
    forall i :: 0 <= i < |table| && table[i].Global? ==> resolve(i, table[i].name).Some?
  }

  /** The host binding of each entry, in an arena that had `size` bindings. */
  function Hosts(table: seq<Entry>, resolve: Resolve, size: nat): (host: seq<Binding>)
    requires Resolves(table, resolve)
    ensures |host| == |table|
  {
    if table == [] then []
    else
      var k := |table| - 1;
      assert Resolves(table[..k], resolve) by { assert forall i :: 0 <= i < k ==> table[..k][i] == table[i]; }
      Hosts(table[..k], resolve, size) + [match table[k]
                                          case Local(inner) => Binding(size + |LocalsIn(table[..k])|, inner.boxed)
                                          case Global(name) => resolve(k, name).value]
  }

  class BindingArena {
    var bindings: seq<Inner>

    constructor ()
      ensures bindings == []
    {
      bindings := [];
    }

    method AllocFrom(inner: Inner) returns (b: Binding)
      modifies this
      ensures bindings == old(bindings) + [inner] && b == Binding(|old(bindings)|, inner.boxed)
    {
      b := Binding(|bindings|, inner.boxed);
      bindings := bindings + [inner];
    }

    /** Re-host the fragment here. When a global does not resolve, nothing is minted. */
    method GraftWith(f: HirFragment, resolve: Resolve) returns (r: Option<(seq<Binding>, Hir)>)
      requires Portable(f.body)
      modifies this
      ensures r.Some? <==> Resolves(f.table, resolve)
      ensures r.None? ==> bindings == old(bindings)
      ensures r.Some? ==>
                && bindings == old(bindings) + LocalsIn(f.table)
                && r.value.0 == Hosts(f.table, resolve, |old(bindings)|)
                && Rebind(f.body, Grafting(r.value.0)) == Some(Rebound(r.value.1, Grafting(r.value.0)))
    {
      var globals: map<nat, Binding> := map[];
      var i := 0;
      while i < |f.table|
        invariant 0 <= i <= |f.table| && bindings == old(bindings)
        invariant forall k :: 0 <= k < i && f.table[k].Global? ==>
                    resolve(k, f.table[k].name).Some? && k in globals && globals[k] == resolve(k, f.table[k].name).value
      {
        if f.table[i].Global? {
          var b := resolve(i, f.table[i].name);
          if b.None? { return None; }
          globals := globals[i := b.value];
        }
        i := i + 1;
      }
      var host := [];
      i := 0;
      assert f.table[..0] == [];
      while i < |f.table|
        invariant 0 <= i <= |f.table| && Resolves(f.table[..i], resolve)
        invariant bindings == old(bindings) + LocalsIn(f.table[..i])
        invariant host == Hosts(f.table[..i], resolve, |old(bindings)|)
      {
        assert f.table[..i + 1][..i] == f.table[..i];
        match f.table[i] {
          case Local(inner) =>
            var b := AllocFrom(inner);
            host := host + [b];
          case Global(_) => host := host + [globals[i]];
        }
        i := i + 1;
      }
      assert f.table[..i] == f.table;
      GraftTakes(f.body, host);
      r := Some((host, Rebind(f.body, Grafting(host)).value.tree));
    }
  }

  // ----- minted names are new ------------------------------------------------------------------------------

  lemma {:induction false} HostAt(table: seq<Entry>, resolve: Resolve, size: nat, i: nat)
    requires Resolves(table, resolve) && i < |table|
    ensures var h := Hosts(table, resolve, size)[i];
            if table[i].Local? then h == Binding(size + |LocalsIn(table[..i])|, table[i].inner.boxed)
            else h == resolve(i, table[i].name).value
    decreases |table|
  {
    var k := |table| - 1;
    if i < k {
      assert Resolves(table[..k], resolve) by { assert forall j :: 0 <= j < k ==> table[..k][j] == table[j]; }
      HostAt(table[..k], resolve, size, i);
      assert table[..k][..i] == table[..i];
    }
  }

  lemma {:induction false} LocalsGrow(table: seq<Entry>, i: nat, j: nat)
    requires i < j <= |table| && table[i].Local?
    ensures |LocalsIn(table[..i])| < |LocalsIn(table[..j])|
    decreases j
  {
    assert table[..j][..j - 1] == table[..j - 1];
    if i < j - 1 { LocalsGrow(table, i, j - 1); }
  }

  /** The resolver answers with bindings the arena already has. */
  ghost predicate Known(table: seq<Entry>, resolve: Resolve, size: nat) {
    forall i :: 0 <= i < |table| && table[i].Global? ==>
        resolve(i, table[i].name).Some? && resolve(i, table[i].name).value.id < size
  }

  /** Minted bindings are new to the arena and differ from one another and from every resolved global. */
  lemma MintedAreFresh(table: seq<Entry>, resolve: Resolve, size: nat, i: nat, j: nat)
    requires Known(table, resolve, size) && i < |table| && j < |table| && i != j && table[i].Local?
    ensures Resolves(table, resolve) && Hosts(table, resolve, size)[i].id >= size
    ensures Hosts(table, resolve, size)[i] != Hosts(table, resolve, size)[j]
  {
    HostAt(table, resolve, size, i);
    HostAt(table, resolve, size, j);
    if table[j].Local? {
      if i < j { LocalsGrow(table, i, j); } else { LocalsGrow(table, j, i); }
    }
  }

  lemma HostIsSound(fin: Rebinder, resolve: Resolve, size: nat)
    requires TableSound(fin) && Known(fin.table, resolve, size)
    requires forall b :: b in fin.index ==> fin.arena(b).boxed == b.boxed
    ensures Resolves(fin.table, resolve) && HostSound(fin, Site(Hosts(fin.table, resolve, size), size))
  {
    hide Hosts;
    var host := Hosts(fin.table, resolve, size);
    var m := Through(fin, Site(host, size));
    forall b | b in fin.index && fin.table[fin.index[b].id].Local? ensures Private(m, b) {
      HostAt(fin.table, resolve, size, fin.index[b].id);
      forall x | x in m.to && x != b ensures m.to[x] != m.to[b] {
        MintedAreFresh(fin.table, resolve, size, fin.index[b].id, fin.index[x].id);
      }
    }
  }

  // ----- the whole trip ------------------------------------------------------------------------------------

  lemma {:induction false} ParamsStep(r: Rebinder, ps: seq<Binding>)
    requires TableSound(r) && OnceVars(ps, r.index.Keys)
    ensures Step(r, IntroduceAll(r, ps).r, MetVars(ps, r.index.Keys))
    decreases |ps|
  {
    hide TableSound, Introduce;
    SameStep(r);
    if ps != [] {
      IntroduceSteps(r, ps[0]);
      var r1 := Introduce(r, ps[0]).r;
      ParamsStep(r1, ps[1..]);
      GrowsThen(r, r1, IntroduceAll(r1, ps[1..]).r);
    }
  }

  /** The state of the walk once the body is closed. */
  function Finished(body: Hir, params: seq<Binding>, arena: Arena, allow: bool): Rebinder
    requires CloseWithGlobals(body, params, arena, allow).Some?
  {
    Rebind(body, IntroduceAll(Closing(arena, allow, map[], [], []), params).r).value.r
  }

  /** A body that binds each name once, closed over its parameters. */
  ghost predicate Closable(body: Hir, params: seq<Binding>, arena: Arena, allow: bool) {
    && OnceVars(params, {}) && Once(body, MetVars(params, {}))
    && CloseWithGlobals(body, params, arena, allow).Some? && (forall b :: arena(b).boxed == b.boxed)
  }

  lemma FinishedIsSound(body: Hir, params: seq<Binding>, arena: Arena, allow: bool)
    requires Closable(body, params, arena, allow)
    ensures var fin := Finished(body, params, arena, allow);
            && TableSound(fin) && fin.table == CloseWithGlobals(body, params, arena, allow).value.fragment.table
            && fin.arena == arena && fin.index.Keys == Met(body, MetVars(params, {}))
  {
    hide TableSound, Step, Once, Met, Rebind, IntroduceAll;
    ParamsClosed(params, arena, allow);
    var r1 := IntroduceAll(Closing(arena, allow, map[], [], []), params).r;
    ClosingGrows(body, r1);
    StepMeans(r1, Rebind(body, r1).value.r, Met(body, MetVars(params, {})));
  }

  lemma ParamsClosed(params: seq<Binding>, arena: Arena, allow: bool)
    requires OnceVars(params, {})
    ensures var r1 := IntroduceAll(Closing(arena, allow, map[], [], []), params).r;
            TableSound(r1) && r1.Closing? && r1.index.Keys == MetVars(params, {}) && r1.arena == arena
                && r1.allow == allow
  {
    hide TableSound, IntroduceAll;
    var r0 := Closing(arena, allow, map[], [], []);
    EmptyIsSound(arena, allow);
    assert r0.index.Keys == {};
    ParamsStep(r0, params);
    StepMeans(r0, IntroduceAll(r0, params).r, MetVars(params, {}));
  }

  lemma EmptyIsSound(arena: Arena, allow: bool)
    ensures TableSound(Closing(arena, allow, map[], [], []))
  {}

  ghost function RenamingOf(body: Hir, params: seq<Binding>, arena: Arena, allow: bool, host: Site): Renaming
    requires Closable(body, params, arena, allow)
  {
    FinishedIsSound(body, params, arena, allow);
    Through(Finished(body, params, arena, allow), host)
  }

  /**
    Closing and then grafting renames the body: every name goes through one map,
    and every name the body binds goes to a binding nothing else maps to.
  */
  lemma GraftedBody(body: Hir, params: seq<Binding>, arena: Arena, allow: bool, resolve: Resolve, size: nat)
    requires Closable(body, params, arena, allow)
    requires Known(CloseWithGlobals(body, params, arena, allow).value.fragment.table, resolve, size)
    ensures var f := CloseWithGlobals(body, params, arena, allow).value.fragment;
            && Resolves(f.table, resolve)
            && var host := Hosts(f.table, resolve, size);
               var m := RenamingOf(body, params, arena, allow, Site(host, size));
               && Rebind(f.body, Grafting(host)) == Some(Rebound(Rename(m, body), Grafting(host)))
               && Renames(m, body)
  {
    hide TableSound, Once, Met, HostSound, Renames, Rename, Through, Hosts, Step, Rebind, IntroduceAll;
    FinishedIsSound(body, params, arena, allow);
    var fin := Finished(body, params, arena, allow);
    HostIsSound(fin, resolve, size);
    ParamsClosed(params, arena, allow);
    var r1 := IntroduceAll(Closing(arena, allow, map[], [], []), params).r;
    assert Grows(fin, fin);
    GraftRenames(body, r1, fin, Site(Hosts(fin.table, resolve, size), size));
  }
}
