/**
  Stores keep a run sane. What is known of the cells grows: a new cell gets an owner,
  a followed function's cell is filled, and it is ready once all it waits for is.
*/
module DeadStore {
  import opened HirSyntax
  import opened HirEval
  import opened DeadNames
  import opened DeadEval

  // ----- what is known grows ---------------------------------------------------------------------------------

  ghost predicate Grows(o: Owner, p: Owner) {
    && (forall loc :: loc in o.of ==> loc in p.of && p.of[loc] == o.of[loc])
    && o.filled <= p.filled && o.ready <= p.ready && o.mates.Keys <= p.mates.Keys
  }

  /** As it grows, no cell but those of `own` comes to wait for others. */
  ghost predicate Extends(own: set<nat>, o: Owner, p: Owner) {
    Grows(o, p) && forall loc :: loc in o.mates && loc !in own ==> loc in p.mates && p.mates[loc] == o.mates[loc]
  }

  lemma GrowsThen(o: Owner, p: Owner, q: Owner)
    requires Grows(o, p) && Grows(p, q)
    ensures Grows(o, q)
  {}

  lemma ExtendsThen(own: set<nat>, o: Owner, p: Owner, q: Owner)
    requires Extends(own, o, p) && Extends(own, p, q)
    ensures Extends(own, o, q)
  {}

  lemma ExtendsSelf(own: set<nat>, o: Owner)
    ensures Extends(own, o, o)
  {}

  lemma ExtendsOwn(own: set<nat>, o: Owner, p: Owner)
    requires Extends({}, o, p)
    ensures Extends(own, o, p)
  {}

  lemma {:induction false} ReadyGrows(k: Rules, cells: set<nat>, more: set<nat>, b: Binding, v: Value)
    requires cells <= more && Ready(k, cells, b, v)
    ensures Ready(k, more, b, v)
    decreases v
  {
    if v.Closure? {
      forall f | f in k.needs[b] && v.env[f].Plain? ensures Ready(k, more, f, v.env[f].value) {
        ReadyGrows(k, cells, more, f, v.env[f].value);
      }
    }
  }

  lemma SlotReadyGrows(k: Rules, cells: set<nat>, more: set<nat>, b: Binding, slot: Slot)
    requires cells <= more && SlotReady(k, cells, b, slot)
    ensures SlotReady(k, more, b, slot)
  {
    if slot.Plain? { ReadyGrows(k, cells, more, b, slot.value); }
  }

  lemma {:induction false} ValueGrows(k: Rules, o: Owner, p: Owner, v: Value)
    requires Grows(o, p) && SaneValue(k, o, v)
    ensures SaneValue(k, p, v)
    decreases v
  {
    hide SlotReady;
    match v
    case Closure(id, env) =>
      forall b | b in env && env[b].Plain? ensures SaneValue(k, p, env[b].value) { ValueGrows(k, o, p, env[b].value); }
      forall b | b in EntryOf(k, id) ensures SlotReady(k, p.ready, b, env[b]) {
        SlotReadyGrows(k, o.ready, p.ready, b, env[b]);
      }
    case Param(_, default) => ValueGrows(k, o, p, default);
    case _ =>
  }

  lemma ValuesGrow(k: Rules, o: Owner, p: Owner, vs: seq<Value>)
    requires Grows(o, p) && SaneValues(k, o, vs)
    ensures SaneValues(k, p, vs)
  {
    hide SaneValue, Grows;
    forall i | 0 <= i < |vs| ensures SaneValue(k, p, vs[i]) { ValueGrows(k, o, p, vs[i]); }
  }

  lemma FrameGrows(k: Rules, o: Owner, p: Owner, f: Frame)
    requires Grows(o, p) && SaneFrame(k, o, f)
    ensures SaneFrame(k, p, f)
  {
    hide SaneValue;
    forall b | b in f ensures SaneSlot(k, p, b, f[b]) {
      assert SaneSlot(k, o, b, f[b]);
      if f[b].Plain? { ValueGrows(k, o, p, f[b].value); }
    }
  }

  lemma DynGrows(k: Rules, o: Owner, p: Owner, dyn: map<nat, Value>)
    requires Grows(o, p) && SaneDyn(k, o, dyn)
    ensures SaneDyn(k, p, dyn)
  {
    hide SaneValue, Grows;
    forall id | id in dyn ensures SaneValue(k, p, dyn[id]) { ValueGrows(k, o, p, dyn[id]); }
  }

  lemma LiveGrows(k: Rules, o: Owner, p: Owner, bound: set<Binding>, s: State, t: State)
    requires Grows(o, p) && Live(k, o, bound, s) && Steady(bound, s.frame, t.frame)
    ensures Live(k, p, bound, t)
  {
    hide SlotReady;
    forall b | b in bound ensures SlotReady(k, p.ready, b, t.frame[b]) {
      SlotReadyGrows(k, o.ready, p.ready, b, s.frame[b]);
    }
  }

  /** The values a world holds, but for what is known of its cells. */
  ghost predicate SaneParts(k: Rules, o: Owner, w: World) {
    && (forall loc :: loc in o.of ==> loc < |w.cells| && Allowed(k, o.of[loc], w.cells[loc]))
    && SaneValues(k, o, w.cells) && SaneValues(k, o, w.log)
    && (forall i :: 0 <= i < |w.objects| ==> SaneValues(k, o, w.objects[i]))
  }

  lemma PartsGrow(k: Rules, o: Owner, p: Owner, w: World)
    requires Grows(o, p) && p.of == o.of && SaneWorld(k, o, w)
    ensures SaneParts(k, p, w)
  {
    hide SaneValue, Firm;
    ValuesGrow(k, o, p, w.cells);
    ValuesGrow(k, o, p, w.log);
    forall i | 0 <= i < |w.objects| ensures SaneValues(k, p, w.objects[i]) { ValuesGrow(k, o, p, w.objects[i]); }
  }

  /** More is known of the same world. */
  lemma StateGrows(k: Rules, o: Owner, p: Owner, s: State)
    requires Grows(o, p) && p.of == o.of && SaneState(k, o, s) && Firm(k, p, s.world)
    ensures SaneState(k, p, s)
  {
    hide SaneValues, SaneFrame, SaneDyn, Firm, Grows, Allowed;
    PartsGrow(k, o, p, s.world);
    FrameGrows(k, o, p, s.frame);
    DynGrows(k, o, p, s.dyn);
  }

  /** Cells wait for no more than they did, or for cells that are ready by now. */
  lemma WiredGrows(k: Rules, o: Owner, p: Owner, w: World)
    requires Wired(k, o, w) && p.of == o.of && p.mates.Keys == o.mates.Keys
    requires forall loc :: loc in o.mates ==> o.ready + o.mates[loc] <= p.ready + p.mates[loc]
    ensures Wired(k, p, w)
  {
    hide Ready;
    forall x | x in p.mates && w.cells[x] != NilValue ensures Ready(k, p.ready + p.mates[x], p.of[x], w.cells[x]) {
      ReadyGrows(k, o.ready + o.mates[x], p.ready + p.mates[x], o.of[x], w.cells[x]);
    }
  }

  // ----- stores --------------------------------------------------------------------------------------------

  /** What is known once a new cell is made for `b`: it may be followed from the start. */
  ghost function Newly(o: Owner, loc: nat, b: Binding, follow: bool): Owner {
    if follow then AlsoReady(o, o.of[loc := b], loc) else o.(of := o.of[loc := b])
  }

  lemma NewFirm(k: Rules, o: Owner, w: World, b: Binding, v: Value, follow: bool)
    requires SaneWorld(k, o, w) && (follow ==> Followed(k, b) && v != NilValue && Ready(k, o.ready, b, v))
    ensures var p := Newly(o, |w.cells|, b, follow); Extends({}, o, p) && Firm(k, p, w.(cells := w.cells + [v]))
  {
    hide SaneValues, Allowed, Ready, Wired, Settled, Followed;
    var p := Newly(o, |w.cells|, b, follow);
    assert |w.cells| !in o.of && |w.cells| !in o.mates by { OldCells(k, o, w); }
    NewWired(k, o, w, b, v, follow);
    if follow { SettledWith(k, o, o.of[|w.cells| := b], |w.cells|); } else { SettledOf(k, o, |w.cells|, b); }
  }

  /** One more cell is ready, and waits for none. */
  ghost function AlsoReady(o: Owner, of: map<nat, Binding>, loc: nat): Owner {
    Owner(of, o.mates[loc := {}], o.filled + {loc}, o.ready + {loc})
  }

  lemma SettledWith(k: Rules, o: Owner, of: map<nat, Binding>, loc: nat)
    requires Settled(k, o) && loc in of && Followed(k, of[loc])
    requires forall x :: x in o.of && x != loc ==> x in of && of[x] == o.of[x]
    ensures Settled(k, AlsoReady(o, of, loc))
  {
    hide Followed, Defined;
    var p := AlsoReady(o, of, loc);
    forall x | x in p.ready ensures p.mates[x] <= p.ready {
      if x != loc { assert o.mates[x] <= o.ready; }
    }
  }

  lemma SettledOf(k: Rules, o: Owner, loc: nat, b: Binding)
    requires Settled(k, o) && loc !in o.of
    ensures Settled(k, o.(of := o.of[loc := b]))
  {
    hide Followed, Defined;
  }

  lemma OldCells(k: Rules, o: Owner, w: World)
    requires SaneWorld(k, o, w)
    ensures forall loc :: loc in o.of || loc in o.mates ==> loc < |w.cells|
  {
    hide SaneValues, Allowed, Ready, Settled, Occupied;
  }

  lemma NewWired(k: Rules, o: Owner, w: World, b: Binding, v: Value, follow: bool)
    requires Wired(k, o, w) && (follow ==> Ready(k, o.ready, b, v)) && |w.cells| !in o.of
    ensures Wired(k, Newly(o, |w.cells|, b, follow), w.(cells := w.cells + [v]))
  {
    hide Ready;
    var loc, w1 := |w.cells|, w.(cells := w.cells + [v]);
    var p := Newly(o, loc, b, follow);
    forall x | x in p.mates && w1.cells[x] != NilValue ensures Ready(k, p.ready + p.mates[x], p.of[x], w1.cells[x]) {
      if x == loc {
        ReadyGrows(k, o.ready, p.ready + p.mates[x], b, v);
      } else {
        ReadyGrows(k, o.ready + o.mates[x], p.ready + p.mates[x], o.of[x], w.cells[x]);
      }
    }
  }

  /** A new cell, owned by the name it is made for. */
  lemma NewCellSane(k: Rules, o: Owner, s: State, b: Binding, v: Value, follow: bool)
    requires SaneState(k, o, s) && SaneValue(k, o, v) && Allowed(k, b, v) && b.boxed
    requires follow ==> Followed(k, b) && v != NilValue && Ready(k, o.ready, b, v)
    ensures var p := Newly(o, |s.world.cells|, b, follow); Extends({}, o, p) && SaneState(k, p, Bind(s, b, v))
  {
    hide SaneValue, Ready, Firm;
    var loc := |s.world.cells|;
    var p := Newly(o, loc, b, follow);
    NewFirm(k, o, s.world, b, v, follow);
    var w := s.world.(cells := s.world.cells + [v]);
    FrameGrows(k, o, p, s.frame);
    DynGrows(k, o, p, s.dyn);
    ValuesGrow(k, o, p, s.world.cells);
    ValuesGrow(k, o, p, s.world.log);
    ValueGrows(k, o, p, v);
    forall i | 0 <= i < |w.objects| ensures SaneValues(k, p, w.objects[i]) { ValuesGrow(k, o, p, s.world.objects[i]); }
    var f := s.frame[b := Cell(loc)];
    forall x | x in f ensures SaneSlot(k, p, x, f[x]) {
      if x != b { assert SaneSlot(k, p, x, s.frame[x]); }
    }
    assert Bind(s, b, v).frame == f && Bind(s, b, v).world == w;
  }

  /** A binding of a name that is not followed, or not followed yet. */
  lemma BindSane(k: Rules, o: Owner, s: State, b: Binding, v: Value) returns (p: Owner)
    requires SaneState(k, o, s) && SaneValue(k, o, v) && Allowed(k, b, v)
    ensures p == if b.boxed then Newly(o, |s.world.cells|, b, false) else o
    ensures Extends({}, o, p) && SaneState(k, p, Bind(s, b, v))
  {
    hide SaneValue, SaneState;
    ExtendsSelf({}, o);
    if b.boxed {
      p := Newly(o, |s.world.cells|, b, false);
      NewCellSane(k, o, s, b, v, false);
    } else {
      p := o;
      BindQuiet(k, o, s, b, v);
    }
  }

  /** A cell keeps what is known of it when it is followed and the new value is as ready as that needs. */
  lemma FirmWrite(k: Rules, o: Owner, w: World, loc: nat, v: Value)
    requires SaneWorld(k, o, w) && loc < |w.cells|
    requires loc in o.mates ==> v != NilValue && Ready(k, o.ready + o.mates[loc], o.of[loc], v)
    ensures Firm(k, o, w.(cells := w.cells[loc := v]))
  {
    hide SaneValues, Allowed, Ready, Settled;
  }

  lemma CellWriteSane(k: Rules, o: Owner, s: State, loc: nat, v: Value)
    requires SaneState(k, o, s) && SaneValue(k, o, v) && loc < |s.world.cells|
    requires loc in o.of ==> Allowed(k, o.of[loc], v)
    requires loc in o.mates ==> v != NilValue && Ready(k, o.ready + o.mates[loc], o.of[loc], v)
    ensures SaneState(k, o, s.(world := s.world.(cells := s.world.cells[loc := v])))
  {
    hide SaneValue, Ready, Firm, SaneFrame, SaneDyn;
    FirmWrite(k, o, s.world, loc, v);
  }

  /** A write that is not to a followed name. */
  lemma WriteSane(k: Rules, o: Owner, s: State, b: Binding, v: Value)
    requires SaneState(k, o, s) && SaneValue(k, o, v) && Allowed(k, b, v) && !Followed(k, b)
    ensures SaneState(k, o, Write(s, b, v))
  {
    hide SaneValue, SaneValues, SaneDyn, Ready;
    if b in s.frame { assert SaneSlot(k, o, b, s.frame[b]); }
    if b in s.frame && s.frame[b].Cell? {
      CellWriteSane(k, o, s, s.frame[b].loc, v);
    } else {
      PlainSane(k, o, s, b, v);
    }
  }

  lemma PlainSane(k: Rules, o: Owner, s: State, b: Binding, v: Value)
    requires SaneState(k, o, s) && SaneValue(k, o, v) && Allowed(k, b, v)
    ensures SaneState(k, o, s.(frame := s.frame[b := Plain(v)]))
  {
    hide SaneValue, SaneWorld, SaneDyn;
    var f := s.frame[b := Plain(v)];
    forall x | x in f ensures SaneSlot(k, o, x, f[x]) {
      if x != b { assert SaneSlot(k, o, x, s.frame[x]); }
    }
  }

  lemma {:induction false} BindAllSane(k: Rules, o: Owner, s: State, bs: seq<Binding>, vs: seq<Value>)
    returns (p: Owner)
    requires SaneState(k, o, s) && SaneValues(k, o, vs) && NamesOk(k, bs)
    ensures Extends({}, o, p) && SaneState(k, p, BindAll(s, bs, vs))
    decreases |bs|
  {
    hide SaneValue, SaneState, Gone, Bind;
    p := o;
    ExtendsSelf({}, o);
    if bs != [] && vs != [] {
      assert NameOk(k, bs[0]);
      var o1 := BindSane(k, o, s, bs[0], vs[0]);
      ValuesGrow(k, o, o1, vs[1..]);
      p := BindAllSane(k, o1, Bind(s, bs[0], vs[0]), bs[1..], vs[1..]);
      ExtendsThen({}, o, o1, p);
    }
  }

  lemma StoreSane(k: Rules, o: Owner, s: State, b: Binding, v: Value) returns (p: Owner)
    requires SaneState(k, o, s) && SaneValue(k, o, v) && Allowed(k, b, v) && !Followed(k, b)
    ensures Extends({}, o, p) && SaneState(k, p, Store(s, b, v))
  {
    hide SaneValue, SaneState, Bind, Write, Allowed;
    p := o;
    ExtendsSelf({}, o);
    if b.boxed && b !in s.frame { p := BindSane(k, o, s, b, v); } else { WriteSane(k, o, s, b, v); }
  }

  lemma {:induction false} StoreAllSane(k: Rules, o: Owner, s: State, bs: seq<Binding>, vs: seq<Value>)
    returns (p: Owner)
    requires SaneState(k, o, s) && SaneValues(k, o, vs) && NamesOk(k, bs) && PlanOk(k)
    ensures Extends({}, o, p) && SaneState(k, p, StoreAll(s, bs, vs))
    decreases |bs|
  {
    hide SaneValue, SaneState, Store;
    p := o;
    ExtendsSelf({}, o);
    if bs != [] && vs != [] {
      assert NameOk(k, bs[0]);
      var o1 := StoreSane(k, o, s, bs[0], vs[0]);
      ValuesGrow(k, o, o1, vs[1..]);
      p := StoreAllSane(k, o1, Store(s, bs[0], vs[0]), bs[1..], vs[1..]);
      ExtendsThen({}, o, o1, p);
    }
  }

  lemma {:induction false} WriteAllSane(k: Rules, o: Owner, s: State, bs: seq<Binding>, vs: seq<Value>)
    requires SaneState(k, o, s) && SaneValues(k, o, vs) && NamesOk(k, bs) && |bs| == |vs| && PlanOk(k)
    ensures SaneState(k, o, WriteAll(s, bs, vs))
    decreases |bs|
  {
    hide SaneValue, SaneState, Gone, Write;
    if bs != [] {
      assert NameOk(k, bs[0]);
      WriteSane(k, o, s, bs[0], vs[0]);
      WriteAllSane(k, o, Write(s, bs[0], vs[0]), bs[1..], vs[1..]);
    }
  }

  /** Followed names are trusted. */
  ghost predicate PlanOk(k: Rules) {
    forall b :: Followed(k, b) ==> b in k.trusted
  }

  // ----- slots that stay -----------------------------------------------------------------------------------

  predicate Untouched(names: set<Binding>, bs: seq<Binding>) {
    forall i :: 0 <= i < |bs| ==> bs[i] !in names
  }

  lemma BindSteady(names: set<Binding>, s: State, b: Binding, v: Value)
    requires b !in names
    ensures Steady(names, s.frame, Bind(s, b, v).frame) && Steady(names, s.frame, Write(s, b, v).frame)
  {}

  lemma SteadyThen(names: set<Binding>, f: Frame, g: Frame, h: Frame)
    requires Steady(names, f, g) && Steady(names, g, h)
    ensures Steady(names, f, h)
  {}

  lemma {:induction false} BindAllSteady(names: set<Binding>, s: State, bs: seq<Binding>, vs: seq<Value>)
    requires Untouched(names, bs)
    ensures Steady(names, s.frame, BindAll(s, bs, vs).frame)
    decreases |bs|
  {
    hide Bind, Steady;
    SteadySelf(names, s.frame);
    if bs != [] && vs != [] {
      var t := Bind(s, bs[0], vs[0]);
      BindSteady(names, s, bs[0], vs[0]);
      BindAllSteady(names, t, bs[1..], vs[1..]);
      SteadyThen(names, s.frame, t.frame, BindAll(t, bs[1..], vs[1..]).frame);
    }
  }

  lemma {:induction false} StoreAllSteady(names: set<Binding>, s: State, bs: seq<Binding>, vs: seq<Value>)
    requires Untouched(names, bs)
    ensures Steady(names, s.frame, StoreAll(s, bs, vs).frame)
    decreases |bs|
  {
    hide Bind, Write, Steady;
    SteadySelf(names, s.frame);
    if bs != [] && vs != [] {
      var t := Store(s, bs[0], vs[0]);
      BindSteady(names, s, bs[0], vs[0]);
      StoreAllSteady(names, t, bs[1..], vs[1..]);
      SteadyThen(names, s.frame, t.frame, StoreAll(t, bs[1..], vs[1..]).frame);
    }
  }

  lemma SteadySelf(names: set<Binding>, f: Frame)
    ensures Steady(names, f, f)
  {}

  lemma {:induction false} WriteAllSteady(names: set<Binding>, s: State, bs: seq<Binding>, vs: seq<Value>)
    requires Untouched(names, bs) && |bs| == |vs|
    ensures Steady(names, s.frame, WriteAll(s, bs, vs).frame)
    decreases |bs|
  {
    hide Write, Steady;
    SteadySelf(names, s.frame);
    if bs != [] {
      var t := Write(s, bs[0], vs[0]);
      BindSteady(names, s, bs[0], vs[0]);
      WriteAllSteady(names, t, bs[1..], vs[1..]);
      SteadyThen(names, s.frame, t.frame, WriteAll(t, bs[1..], vs[1..]).frame);
    }
  }

  lemma {:induction false} OverlaySane(k: Rules, o: Owner, dyn: map<nat, Value>, pairs: seq<Value>)
    requires SaneDyn(k, o, dyn) && SaneValues(k, o, pairs)
    ensures SaneDyn(k, o, Overlay(dyn, pairs))
    decreases |pairs|
  {
    hide SaneValue;
    if |pairs| >= 2 { OverlaySane(k, o, if pairs[0].Param? then dyn[pairs[0].id := pairs[1]] else dyn, pairs[2..]); }
  }
}
