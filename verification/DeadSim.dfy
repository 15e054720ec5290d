/**
  A program and its stripped form, run side by side.

  The original may have made objects that the stripped program never makes, so the
  two runs hold the same values only up to where their objects are. `Moves` takes
  each object of the stripped run to the one it stands for, no two to the same one;
  `Rel` says that worlds, dynamic parameters and the frames' kept names match under
  it. The original runs with `extra` more steps: with none, a completed original is
  matched by the stripped program; with more than there are pure functions, a
  completed stripped program is matched by the original.
*/
module DeadSim {
  import opened HirSyntax
  import opened HirEval
  import opened Dead
  import opened DeadNames
  import opened DeadEval
  import opened DeadRealm

  /** From an object of the stripped run to the original's. */
  type Moves = map<nat, nat>

  /** `v` is `w` with every object moved. */
  ghost predicate Moved(m: Moves, v: Value, w: Value)
    decreases w
  {
    match w
    case Data(_) => v == w
    case Native(_) => v == w
    case Object(a) => a in m && v == Object(m[a])
    case Closure(id, env) =>
      && v.Closure? && v.id == id && v.env.Keys == env.Keys
      && forall b :: b in env ==>
         if env[b].Plain? then v.env[b].Plain? && Moved(m, v.env[b].value, env[b].value) else v.env[b] == env[b]
    case Param(id, default) => v.Param? && v.id == id && Moved(m, v.default, default)
  }

  ghost predicate MovedSlot(m: Moves, x: Slot, y: Slot) {
    if y.Plain? then x.Plain? && Moved(m, x.value, y.value) else x == y
  }

  ghost predicate MovedAll(m: Moves, vs: seq<Value>, ws: seq<Value>) {
    |vs| == |ws| && forall i :: 0 <= i < |vs| ==> Moved(m, vs[i], ws[i])
  }

  /** Each object of the stripped world stands for one of the original's, and no two for the same. */
  ghost predicate MovedObjects(m: Moves, os: seq<seq<Value>>, ps: seq<seq<Value>>) {
    && (forall a: nat :: a in m <==> a < |ps|)
    && (forall a :: a in m ==> m[a] < |os| && MovedAll(m, os[m[a]], ps[a]))
    && (forall a, b :: a in m && b in m && m[a] == m[b] ==> a == b)
  }

  ghost predicate MovedWorld(m: Moves, w: World, x: World) {
    MovedAll(m, w.cells, x.cells) && MovedAll(m, w.log, x.log) && MovedObjects(m, w.objects, x.objects)
  }

  ghost predicate MovedDyn(m: Moves, d: map<nat, Value>, e: map<nat, Value>) {
    d.Keys == e.Keys && forall id :: id in e ==> Moved(m, d[id], e[id])
  }

  predicate NoCell(f: Frame, b: Binding) {
    b in f ==> f[b].Plain?
  }

  /** The frames match but on names the stripped program no longer mentions, which neither keeps in a cell. */
  ghost predicate MovedFrame(k: Rules, m: Moves, f: Frame, g: Frame) {
    forall b ::
      if Gone(k, b) then NoCell(f, b) && NoCell(g, b)
      else (b in f <==> b in g) && (b in f && b in g ==> MovedSlot(m, f[b], g[b]))
  }

  ghost predicate Rel(k: Rules, m: Moves, s: State, t: State) {
    MovedWorld(m, s.world, t.world) && MovedDyn(m, s.dyn, t.dyn) && MovedFrame(k, m, s.frame, t.frame)
  }

  ghost predicate MovedOut(m: Moves, r: Outcome, q: Outcome) {
    match q
    case Val(v) => r.Val? && Moved(m, r.value, v)
    case Brk(id, v) => r.Brk? && r.id == id && Moved(m, r.value, v)
    case Again(vs) => r.Again? && MovedAll(m, r.values, vs)
    case Replaced(v) => r.Replaced? && Moved(m, r.value, v)
    case _ => r == q
  }

  // ----- the host ------------------------------------------------------------------------------------------

  ghost predicate Wider(m: Moves, m1: Moves) {
    forall a :: a in m ==> a in m1 && m1[a] == m[a]
  }

  ghost predicate MovedResult(m: Moves, r: HostResult, q: HostResult) {
    && r.Done? == q.Done? && MovedWorld(m, r.world, q.world)
    && (r.Done? && q.Done? ==> MovedAll(m, r.values, q.values))
  }

  /** The host does not look at where an object is, nor at objects it is not given. */
  ghost predicate Uniform(host: Host, m: Moves, op: HostOp, vs: seq<Value>, ws: seq<Value>, w: World, x: World) {
    MovedWorld(m, w, x) && MovedAll(m, vs, ws) ==>
        exists m1 :: Wider(m, m1) && MovedResult(m1, host(op, vs, w), host(op, ws, x))
  }

  ghost predicate HostUniform(host: Host) {
    forall m, op, vs, ws, w, x :: Uniform(host, m, op, vs, ws, w, x)
  }

  // ----- the two programs ----------------------------------------------------------------------------------

  function StripFn(p: Pass, fn: Fn): Fn {
    Fn(fn.params, fn.captures, Strip(p, fn.body))
  }

  datatype Duo = Duo(m: Realm, d: Ctx, extra: nat)

  /** `d` runs the original's code objects stripped; `extra` is none or more than enough. */
  ghost predicate Paired(u: Duo) {
    && RealmOk(u.m) && HostUniform(u.m.c.host) && u.d.host == u.m.c.host && !u.d.tco && u.d.code.Keys == u.m.c.code.Keys
    && (forall id :: id in u.m.c.code ==> u.d.code[id] == StripFn(u.m.k.pass, u.m.c.code[id]))
    && (u.extra == 0 || u.extra > |u.m.order|)
  }

  /** The runs are no longer compared: one is out of steps, or, without a plan, the original faulted. */
  predicate Lost(u: Duo, r: Outcome, q: Outcome) {
    (u.m.k.plan.None? && r.Fault?) || if u.extra > 0 then q.Timeout? else r.Timeout?
  }

  ghost predicate Follows(u: Duo, m: Moves, r: Res, q: Res) {
    Lost(u, r.out, q.out) || (MovedOut(m, r.out, q.out) && Rel(u.m.k, m, r.st, q.st))
  }

  ghost predicate OpsFollow(u: Duo, m: Moves, r: OpsRes, q: OpsRes) {
    if r.Vals? && q.Vals? then MovedAll(m, r.values, q.values) && Rel(u.m.k, m, r.st, q.st)
    else if r.Stop? && q.Stop? then Follows(u, m, r.res, q.res) && (!Lost(u, r.res.out, q.res.out) ==> !r.res.out.Val?)
    else (r.Stop? && Lost(u, r.res.out, Fault)) || (q.Stop? && Lost(u, Again([]), q.res.out))
  }

  ghost predicate BindsFollow(u: Duo, m: Moves, r: BindRes, q: BindRes) {
    if r.Bound? && q.Bound? then Rel(u.m.k, m, r.st, q.st)
    else if r.Halt? && q.Halt? then Follows(u, m, r.res, q.res) && (!Lost(u, r.res.out, q.res.out) ==> !r.res.out.Val?)
    else (r.Halt? && Lost(u, r.res.out, Fault)) || (q.Halt? && Lost(u, Again([]), q.res.out))
  }

  // ----- moves grow ----------------------------------------------------------------------------------------

  lemma WiderThen(m: Moves, m1: Moves, m2: Moves)
    requires Wider(m, m1) && Wider(m1, m2)
    ensures Wider(m, m2)
  {}

  lemma {:induction false} MovedGrows(m: Moves, m1: Moves, v: Value, w: Value)
    requires Wider(m, m1) && Moved(m, v, w)
    ensures Moved(m1, v, w)
    decreases w
  {
    match w
    case Closure(_, env) =>
      forall b | b in env && env[b].Plain? ensures Moved(m1, v.env[b].value, env[b].value) {
        MovedGrows(m, m1, v.env[b].value, env[b].value);
      }
    case Param(_, default) => MovedGrows(m, m1, v.default, default);
    case _ =>
  }

  lemma MovedAllGrows(m: Moves, m1: Moves, vs: seq<Value>, ws: seq<Value>)
    requires Wider(m, m1) && MovedAll(m, vs, ws)
    ensures MovedAll(m1, vs, ws)
  {
    hide Moved, Wider;
    forall i | 0 <= i < |vs| ensures Moved(m1, vs[i], ws[i]) { MovedGrows(m, m1, vs[i], ws[i]); }
  }

  lemma MovedFrameGrows(k: Rules, m: Moves, m1: Moves, f: Frame, g: Frame)
    requires Wider(m, m1) && MovedFrame(k, m, f, g)
    ensures MovedFrame(k, m1, f, g)
  {
    hide Moved, Wider, Gone;
    forall b | !Gone(k, b) && b in f && b in g ensures MovedSlot(m1, f[b], g[b]) {
      if g[b].Plain? { MovedGrows(m, m1, f[b].value, g[b].value); }
    }
  }

  lemma MovedDynGrows(m: Moves, m1: Moves, d: map<nat, Value>, e: map<nat, Value>)
    requires Wider(m, m1) && MovedDyn(m, d, e)
    ensures MovedDyn(m1, d, e)
  {
    hide Moved, Wider;
    forall id | id in e ensures Moved(m1, d[id], e[id]) { MovedGrows(m, m1, d[id], e[id]); }
  }

  /** Frames and dynamic parameters of before, in the worlds of after. */
  lemma RelAfter(k: Rules, m: Moves, m1: Moves, s: State, t: State, w: World, x: World)
    requires Rel(k, m, s, t) && Wider(m, m1) && MovedWorld(m1, w, x)
    ensures Rel(k, m1, s.(world := w), t.(world := x))
  {
    hide MovedWorld, MovedDyn, MovedFrame, Wider;
    MovedDynGrows(m, m1, s.dyn, t.dyn);
    MovedFrameGrows(k, m, m1, s.frame, t.frame);
  }

  // ----- stores --------------------------------------------------------------------------------------------

  lemma MovedSnoc(m: Moves, vs: seq<Value>, ws: seq<Value>, v: Value, w: Value)
    requires MovedAll(m, vs, ws) && Moved(m, v, w)
    ensures MovedAll(m, vs + [v], ws + [w])
  {
    hide Moved;
  }

  lemma BindSame(k: Rules, m: Moves, s: State, t: State, b: Binding, v: Value, w: Value)
    requires Rel(k, m, s, t) && Moved(m, v, w)
    ensures Rel(k, m, Bind(s, b, v), Bind(t, b, w))
  {
    hide Moved, MovedObjects, MovedDyn, Gone;
    MovedSnoc(m, s.world.cells, t.world.cells, v, w);
    GoneHasNoCell(k, b);
  }

  lemma GoneHasNoCell(k: Rules, b: Binding)
    ensures Gone(k, b) ==> !b.boxed
  {}

  lemma WriteSame(k: Rules, m: Moves, s: State, t: State, b: Binding, v: Value, w: Value)
    requires Rel(k, m, s, t) && Moved(m, v, w)
    ensures Rel(k, m, Write(s, b, v), Write(t, b, w))
  {
    hide Rel, Moved, Gone;
    if b in s.frame && s.frame[b].Cell? { CellSame(k, m, s, t, b, v, w); } else { SlotSame(k, m, s, t, b, v, w); }
  }

  lemma CellSame(k: Rules, m: Moves, s: State, t: State, b: Binding, v: Value, w: Value)
    requires Rel(k, m, s, t) && Moved(m, v, w) && b in s.frame && s.frame[b].Cell?
    ensures Rel(k, m, Write(s, b, v), Write(t, b, w))
  {
    hide Moved, MovedObjects, MovedDyn, Gone;
    assert MovedSlot(m, s.frame[b], t.frame[b]);
    var loc := s.frame[b].loc;
    if loc < |s.world.cells| { CellsSame(m, s.world.cells, t.world.cells, loc, v, w); }
  }

  lemma CellsSame(m: Moves, vs: seq<Value>, ws: seq<Value>, i: nat, v: Value, w: Value)
    requires MovedAll(m, vs, ws) && Moved(m, v, w) && i < |vs|
    ensures MovedAll(m, vs[i := v], ws[i := w])
  {
    hide Moved;
  }

  lemma SlotSame(k: Rules, m: Moves, s: State, t: State, b: Binding, v: Value, w: Value)
    requires Rel(k, m, s, t) && Moved(m, v, w) && !(b in s.frame && s.frame[b].Cell?)
    ensures Rel(k, m, Write(s, b, v), Write(t, b, w))
  {
    hide Moved, MovedWorld, MovedDyn, Gone;
    assert !Gone(k, b) && b in s.frame ==> MovedSlot(m, s.frame[b], t.frame[b]);
    assert NoCell(t.frame, b);
    assert Write(s, b, v) == s.(frame := s.frame[b := Plain(v)])
           && Write(t, b, w) == t.(frame := t.frame[b := Plain(w)]);
  }

  lemma {:induction false} BindAllSame(k: Rules, m: Moves, s: State, t: State, bs: seq<Binding>, vs: seq<Value>,
          ws: seq<Value>)
    requires Rel(k, m, s, t) && MovedAll(m, vs, ws)
    ensures Rel(k, m, BindAll(s, bs, vs), BindAll(t, bs, ws))
    decreases |bs|
  {
    hide Moved, Rel, Bind;
    if bs != [] && vs != [] {
      BindSame(k, m, s, t, bs[0], vs[0], ws[0]);
      BindAllSame(k, m, Bind(s, bs[0], vs[0]), Bind(t, bs[0], ws[0]), bs[1..], vs[1..], ws[1..]);
    }
  }

  lemma {:induction false} WriteAllSame(k: Rules, m: Moves, s: State, t: State, bs: seq<Binding>, vs: seq<Value>,
          ws: seq<Value>)
    requires Rel(k, m, s, t) && MovedAll(m, vs, ws) && |bs| == |vs|
    ensures Rel(k, m, WriteAll(s, bs, vs), WriteAll(t, bs, ws))
    decreases |bs|
  {
    hide Moved, Rel, Write, Gone;
    if bs != [] {
      WriteSame(k, m, s, t, bs[0], vs[0], ws[0]);
      WriteAllSame(k, m, Write(s, bs[0], vs[0]), Write(t, bs[0], ws[0]), bs[1..], vs[1..], ws[1..]);
    }
  }

  /** A name the stripped program no longer mentions has no cell, so both sides store it alike. */
  lemma StoreSame(k: Rules, m: Moves, s: State, t: State, b: Binding, v: Value, w: Value)
    requires Rel(k, m, s, t) && Moved(m, v, w)
    ensures Rel(k, m, Store(s, b, v), Store(t, b, w))
  {
    hide Rel, Moved, Bind, Write, Gone;
    SameSlot(k, m, s, t, b);
    if b.boxed && b !in s.frame { BindSame(k, m, s, t, b, v, w); } else { WriteSame(k, m, s, t, b, v, w); }
  }

  lemma SameSlot(k: Rules, m: Moves, s: State, t: State, b: Binding)
    requires Rel(k, m, s, t)
    ensures b.boxed ==> (b in s.frame <==> b in t.frame)
  {
    hide MovedWorld, MovedDyn, MovedSlot;
  }

  lemma {:induction false} StoreAllSame(k: Rules, m: Moves, s: State, t: State, bs: seq<Binding>, vs: seq<Value>,
          ws: seq<Value>)
    requires Rel(k, m, s, t) && MovedAll(m, vs, ws)
    ensures Rel(k, m, StoreAll(s, bs, vs), StoreAll(t, bs, ws))
    decreases |bs|
  {
    hide Moved, Rel, Store;
    if bs != [] && vs != [] {
      StoreSame(k, m, s, t, bs[0], vs[0], ws[0]);
      StoreAllSame(k, m, Store(s, bs[0], vs[0]), Store(t, bs[0], ws[0]), bs[1..], vs[1..], ws[1..]);
    }
  }

  /** A dropped name is unboxed, so it has no cell to make ahead of its initializer. */
  lemma {:induction false} PrebindSame(k: Rules, m: Moves, s: State, t: State, bs: Binds)
    requires Rel(k, m, s, t) && ObeysLet(k, bs)
    ensures Rel(k, m, Prebind(s, bs), Prebind(t, StripLet(k.pass, bs)))
    decreases bs
  {
    hide Rel, Gone, Bind, Eliminable, Obeys, Strip, Harmless;
    if bs.BCons? {
      var b := bs.binding;
      if b.boxed {
        BindSame(k, m, s, t, b, NilValue, NilValue);
        PrebindSame(k, m, Bind(s, b, NilValue), Bind(t, b, NilValue), bs.rest);
      } else {
        PrebindSame(k, m, s, t, bs.rest);
      }
    }
  }

  lemma ReadSame(k: Rules, m: Moves, s: State, t: State, b: Binding)
    requires Rel(k, m, s, t) && !Gone(k, b)
    ensures Moved(m, Read(s, b), Read(t, b))
  {
    hide Gone, MovedObjects;
  }

  lemma CapturedSame(k: Rules, m: Moves, s: State, t: State, id: nat, cs: seq<Capture>)
    requires Rel(k, m, s, t) && CapturesOk(k, id, cs)
    ensures Moved(m, Closure(id, Captured(s.frame, cs)), Closure(id, Captured(t.frame, cs)))
  {
    hide Gone, MovedWorld, MovedDyn;
    forall b | Capture(b, false) in cs ensures !Gone(k, b) {
      var i :| 0 <= i < |cs| && cs[i] == Capture(b, false);
    }
    var env, env1 := Captured(s.frame, cs), Captured(t.frame, cs);
    assert env.Keys == env1.Keys;
    forall b | b in env1 ensures MovedSlot(m, env[b], env1[b]) {}
  }

  /** Matching closures start in matching frames. */
  lemma EntrySame(k: Rules, o: Owner, m: Moves, s: State, t: State, f: Value, g: Value, fn: Fn, gn: Fn)
    requires Rel(k, m, s, t) && f.Closure? && g.Closure? && Moved(m, f, g) && gn.captures == fn.captures
    requires SaneValue(k, o, f)
    ensures Rel(k, m, State(EntryFrame(f, fn), s.dyn, s.world, 0), State(EntryFrame(g, gn), t.dyn, t.world, 0))
  {
    hide Gone, MovedWorld, MovedDyn;
    var x, y := EntryFrame(f, fn), EntryFrame(g, gn);
    forall b | b in x || b in y ensures b in x && b in y && MovedSlot(m, x[b], y[b]) && (Gone(k, b) ==> x[b].Plain?) {
      GoneHasNoCell(k, b);
      if Capture(b, true) in fn.captures { assert x[b] == Plain(f) && y[b] == Plain(g); }
    }
  }

  lemma {:induction false} OverlaySame(m: Moves, d: map<nat, Value>, e: map<nat, Value>, vs: seq<Value>, ws: seq<Value>)
    requires MovedDyn(m, d, e) && MovedAll(m, vs, ws)
    ensures MovedDyn(m, Overlay(d, vs), Overlay(e, ws))
    decreases |vs|
  {
    if |vs| >= 2 {
      assert Moved(m, vs[0], ws[0]) && Moved(m, vs[1], ws[1]);
      var d1 := if vs[0].Param? then d[vs[0].id := vs[1]] else d;
      var e1 := if ws[0].Param? then e[ws[0].id := ws[1]] else e;
      OverlaySame(m, d1, e1, vs[2..], ws[2..]);
    }
  }

  lemma SameTruth(m: Moves, v: Value, w: Value)
    requires Moved(m, v, w)
    ensures Truthy(v) == Truthy(w)
  {}

  // ----- what the original does alone ----------------------------------------------------------------------

  /** New objects of the original alone match nothing, and change nothing that is matched. */
  lemma EnlargedRel(k: Rules, m: Moves, s: State, t: State, w: World)
    requires Rel(k, m, s, t) && Enlarged(s.world, w)
    ensures Rel(k, m, s.(world := w), t)
  {
    hide Moved, MovedFrame, MovedDyn;
  }

  lemma GoneRel(k: Rules, o: Owner, m: Moves, s: State, s1: State, t: State, b: Binding, v: Value)
    requires Rel(k, m, s.(world := s1.world), t) && s1.dyn == s.dyn && FramesAgree(k, s.frame, s1.frame) && Gone(k, b)
    requires SaneFrame(k, o, s1.frame)
    ensures Rel(k, m, s1.(frame := s1.frame[b := Plain(v)]), t)
  {
    hide Moved, MovedWorld, MovedDyn, Gone, SaneValue, Allowed;
    var f := s1.frame[b := Plain(v)];
    forall x | Gone(k, x) ensures NoCell(f, x) {
      GoneHasNoCell(k, x);
      assert x in s1.frame ==> SaneSlot(k, o, x, s1.frame[x]);
    }
  }

  // ----- where both start ----------------------------------------------------------------------------------

  /** Every object the value names is there. */
  ghost predicate Grounded(count: nat, v: Value)
    decreases v
  {
    match v
    case Object(a) => a < count
    case Closure(_, env) => forall b :: b in env && env[b].Plain? ==> Grounded(count, env[b].value)
    case Param(_, default) => Grounded(count, default)
    case _ => true
  }

  ghost predicate GroundedAll(count: nat, vs: seq<Value>) {
    forall i :: 0 <= i < |vs| ==> Grounded(count, vs[i])
  }

  ghost predicate GroundedState(s: State) {
    var count := |s.world.objects|;
    && GroundedAll(count, s.world.cells) && GroundedAll(count, s.world.log)
    && (forall a :: 0 <= a < count ==> GroundedAll(count, s.world.objects[a]))
    && (forall id :: id in s.dyn ==> Grounded(count, s.dyn[id]))
    && (forall b :: b in s.frame && s.frame[b].Plain? ==> Grounded(count, s.frame[b].value))
  }

  ghost function Still(count: nat): (m: Moves)
    ensures forall a: nat :: (a in m <==> a < count) && (a in m ==> m[a] == a)
  {
    if count == 0 then map[] else Still(count - 1)[count - 1 := count - 1]
  }

  lemma {:induction false} StillMoved(count: nat, v: Value)
    requires Grounded(count, v)
    ensures Moved(Still(count), v, v)
    decreases v
  {
    match v
    case Closure(_, env) =>
      forall b | b in env && env[b].Plain? ensures Moved(Still(count), env[b].value, env[b].value) {
        StillMoved(count, env[b].value);
      }
    case Param(_, default) => StillMoved(count, default);
    case _ =>
  }

  lemma StillMovedAll(count: nat, vs: seq<Value>)
    requires GroundedAll(count, vs)
    ensures MovedAll(Still(count), vs, vs)
  {
    hide Moved, Grounded;
    forall i | 0 <= i < |vs| ensures Moved(Still(count), vs[i], vs[i]) { StillMoved(count, vs[i]); }
  }

  /** A state matches itself. */
  lemma StillRel(k: Rules, o: Owner, s: State)
    requires GroundedState(s) && SaneFrame(k, o, s.frame)
    ensures Rel(k, Still(|s.world.objects|), s, s)
  {
    hide Moved, Grounded, Gone, SaneValue, Allowed;
    var count := |s.world.objects|;
    forall b | Gone(k, b) ensures NoCell(s.frame, b) {
      GoneHasNoCell(k, b);
      assert b in s.frame ==> SaneSlot(k, o, b, s.frame[b]);
    }
    StillMovedAll(count, s.world.cells);
    StillMovedAll(count, s.world.log);
    forall a | 0 <= a < count ensures MovedAll(Still(count), s.world.objects[a], s.world.objects[a]) {
      StillMovedAll(count, s.world.objects[a]);
    }
    forall id | id in s.dyn ensures Moved(Still(count), s.dyn[id], s.dyn[id]) { StillMoved(count, s.dyn[id]); }
    forall b | b in s.frame && s.frame[b].Plain? ensures Moved(Still(count), s.frame[b].value, s.frame[b].value) {
      StillMoved(count, s.frame[b].value);
    }
  }
}
