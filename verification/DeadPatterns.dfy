/**
  Programs that bind by pattern are sound.

  The analyzer binds each leaf of a `letrec` pattern to nil, and writes it by a
  `Destructure` node in the body; a file's leaves are written by one in an
  initializer, under a name made up for it. A `def` inside a top-level expression
  binds a name that a later one reads. Both trees meet `ProgramSound` whatever the
  arena says of their names, so the theorems cover them. In the `letrec` the leaf
  that nothing reads loses its nil binding, and the pattern goes on binding it.
*/
module DeadPatterns {
  import opened HirSyntax
  import opened Dead
  import opened DeadNames
  import opened DeadScope
  import opened DeadProgram
  import opened DeadTheorem
  import opened DeadWitness

  // ----- trees without a lambda or an assignment ------------------------------------------------------------

  /** Nothing is bound inside, or the initializer is not one the pass drops. */
  ghost predicate InitPlain(f: Facts, init: Hir) {
    !init.Lambda? && ((forall x :: !Introduces(init, x)) || (forall pure :: !EffectFree(f, pure, init)))
  }

  ghost predicate RolePlain(f: Facts, o: Role) {
    !o.Target? && !o.Own? && (o.SiteOf? ==> InitPlain(f, o.init))
  }

  /** Nothing the tree holds is a function, so none is pure. */
  lemma NothingIsPure(f: Facts, root: Hir, order: seq<Binding>)
    requires Ranked(f, Sites(root), order) && forall o :: Occ(root, o) > 0 ==> RolePlain(f, o)
    ensures order == []
  {
    hide Occ, Sites, EffectFree;
    if order != [] {
      assert RankedAt(f, Sites(root), order, 0);
      var j :| 0 <= j < |Sites(root)| && Admissible(f, Sites(root), Elements(order[..0]), Sites(root)[j]);
      var site := Sites(root)[j];
      assert Admissible(f, Sites(root), Elements(order[..0]), site) && (site.0, site.1) in Sites(root);
      SiteCounted(root, site.0, site.1);
      assert false;
    }
  }

  lemma PlainNames(f: Facts, root: Hir)
    requires forall o :: Occ(root, o) > 0 ==> RolePlain(f, o)
    ensures NamesSound(Pass(f, Uses(root), {}), root)
  {
    hide Occ, EffectFree, Uses;
    var p := Pass(f, Uses(root), {});
    forall x ensures Occ(root, Use(x)) > 0 || Occ(root, Caught(x)) > 0 <==> x in p.used { UsesAreReads(root, x); }
    forall x ensures Occ(root, Target(x)) == 0 { assert !RolePlain(f, Target(x)); }
    forall b, init, x | Occ(root, SiteOf(b, init)) > 0 && LookedInto(p, b, init) ensures !Introduces(init, x) {
      assert RolePlain(f, SiteOf(b, init));
    }
  }

  /** Such a tree is sound for the pass as it runs: with the reads it collects and the pure functions it finds. */
  lemma PlainIsSound(f: Facts, root: Hir, order: seq<Binding>, natives: map<Binding, nat>)
    requires Ranked(f, Sites(root), order) && NativesSound(f, root, natives)
    requires forall o :: Occ(root, o) > 0 ==> RolePlain(f, o)
    ensures ProgramSound(Pass(f, Uses(root), Elements(order)), root, order, natives)
  {
    hide Occ, Sites, EffectFree, Ranked, NativesSound, NamesSound, Uses;
    NothingIsPure(f, root, order);
    PlainNames(f, root);
    assert Elements(order) == {};
    forall x, id ensures Occ(root, Own(x, id)) == 0 { assert !RolePlain(f, Own(x, id)); }
    forall b, init | Occ(root, SiteOf(b, init)) > 0 ensures LambdaSound(root, b, init) {
      assert RolePlain(f, SiteOf(b, init));
    }
  }

  // ----- a pattern in a letrec -----------------------------------------------------------------------------

  /** An expression that names nothing, and makes no function. */
  ghost predicate Nameless(e: Hir) {
    !e.Lambda? && forall o :: Occ(e, o) == 0
  }

  /** The node that writes the two leaves of a pattern from `tmp`. */
  function Leaves(a: Binding, b: Binding, tmp: Binding, shape: nat): Hir {
    Strict(Destructure(Pattern(shape, [a, b], false), true), HCons(Var(tmp), HNil))
  }

  /** `(letrec [[a b] e] b)`: `a` and `b` are bound to nil, and the body takes `tmp` apart. */
  function PatternLet(a: Binding, b: Binding, tmp: Binding, shape: nat, e: Hir): Hir {
    Let(true, BCons(tmp, e, BCons(a, Lit(Nil), BCons(b, Lit(Nil), BNil))),
        Begin(HCons(Leaves(a, b, tmp, shape), HCons(Var(b), HNil))))
  }

  lemma LeavesOccur(a: Binding, b: Binding, tmp: Binding, shape: nat, o: Role)
    ensures Occ(Leaves(a, b, tmp, shape), o) == One(o == Role.Param(a)) + One(o == Role.Param(b)) + One(o == Use(tmp))
  {
    assert [a, b][1..] == [b] && [b][1..] == [] && Params([], o) == 0 && Params([b], o) == One(o == Role.Param(b));
    assert AllOcc(HNil, o) == 0 && Occ(Var(tmp), o) == One(o == Use(tmp))
           && AllOcc(HCons(Var(tmp), HNil), o) == One(o == Use(tmp));
  }

  lemma BeginOccurs(x: Hir, y: Hir, o: Role)
    ensures Occ(Begin(HCons(x, HCons(y, HNil))), o) == Occ(x, o) + Occ(y, o)
  {
    assert AllOcc(HNil, o) == 0 && AllOcc(HCons(y, HNil), o) == Occ(y, o);
  }

  lemma PatternLetOccurs(a: Binding, b: Binding, tmp: Binding, shape: nat, e: Hir, o: Role)
    requires Nameless(e)
    ensures Occ(PatternLet(a, b, tmp, shape, e), o) ==
            One(o == Role.Bound(tmp)) + One(o == SiteOf(tmp, e))
            + One(o == Role.Bound(a)) + One(o == SiteOf(a, Lit(Nil)))
            + One(o == Role.Bound(b)) + One(o == SiteOf(b, Lit(Nil)))
            + One(o == Role.Param(a)) + One(o == Role.Param(b)) + One(o == Use(tmp)) + One(o == Use(b))
  {
    hide One, LetOcc, AllOcc;
    var last := BCons(b, Lit(Nil), BNil);
    BindOccurs(tmp, e, BCons(a, Lit(Nil), last), o);
    BindOccurs(a, Lit(Nil), last, o);
    BindOccurs(b, Lit(Nil), BNil, o);
    NoBinds(o);
    LeavesOccur(a, b, tmp, shape, o);
    BeginOccurs(Leaves(a, b, tmp, shape), Var(b), o);
  }

  lemma NilIsPlain(f: Facts)
    ensures InitPlain(f, Lit(Nil))
  {}

  lemma NamelessIsPlain(f: Facts, e: Hir)
    requires Nameless(e)
    ensures InitPlain(f, e)
  {
    hide Occ;
  }

  lemma PatternLetIsSound(f: Facts, order: seq<Binding>, natives: map<Binding, nat>, a: Binding, b: Binding,
          tmp: Binding, shape: nat, e: Hir)
    requires var root := PatternLet(a, b, tmp, shape, e);
             Ranked(f, Sites(root), order) && NativesSound(f, root, natives) && Nameless(e)
    ensures var root := PatternLet(a, b, tmp, shape, e);
            ProgramSound(Pass(f, Uses(root), Elements(order)), root, order, natives)
  {
    hide Occ, Sites, Ranked, Elements, NativesSound, Uses, InitPlain, Nameless, ProgramSound;
    var root := PatternLet(a, b, tmp, shape, e);
    forall o | Occ(root, o) > 0 ensures RolePlain(f, o) {
      PatternLetOccurs(a, b, tmp, shape, e, o);
      NilIsPlain(f);
      NamelessIsPlain(f, e);
    }
    PlainIsSound(f, root, order, natives);
  }

  /** The nil binding of the unread leaf goes; the pattern that binds it stays. */
  lemma UnreadLeafGoes(p: Pass, a: Binding, b: Binding, tmp: Binding, shape: nat, e: Hir)
    requires Nameless(e) && a != b && a != tmp && p.used == Uses(PatternLet(a, b, tmp, shape, e))
    requires var info := p.facts.info(a); !info.synthetic && !info.primitive && !info.mutated && !info.fileScope
    requires !a.boxed
    ensures Strip(p, PatternLet(a, b, tmp, shape, e)) ==
            Let(true, BCons(tmp, Strip(p, e), BCons(b, Lit(Nil), BNil)), PatternLet(a, b, tmp, shape, e).body)
  {
    hide Uses, EffectFree;
    var root := PatternLet(a, b, tmp, shape, e);
    forall x ensures x in p.used <==> x == tmp || x == b {
      UsesAreReads(root, x);
      PatternLetOccurs(a, b, tmp, shape, e, Use(x));
      PatternLetOccurs(a, b, tmp, shape, e, Caught(x));
    }
    assert EffectFree(p.facts, p.pure, Lit(Nil)) by { NilIsFree(p); }
    var last := BCons(b, Lit(Nil), BNil);
    assert StripLet(p, BNil) == BNil && StripLet(p, last) == last && StripLet(p, BCons(a, Lit(Nil), last)) == last;
    assert StripAll(p, HNil) == HNil && StripAll(p, HCons(Var(tmp), HNil)) == HCons(Var(tmp), HNil)
           && StripAll(p, HCons(Var(b), HNil)) == HCons(Var(b), HNil);
    assert Strip(p, Leaves(a, b, tmp, shape)) == Leaves(a, b, tmp, shape);
    assert Strip(p, root.body) == root.body;
  }

  lemma NilIsFree(p: Pass)
    ensures EffectFree(p.facts, p.pure, Lit(Nil))
  {}

  // ----- a file --------------------------------------------------------------------------------------------

  /** `(begin (def y v))` */
  function Inner(y: Binding, v: Datum): Hir {
    Begin(HCons(Strict(Define(y), HCons(Lit(v), HNil)), HNil))
  }

  /** A file's last form: it reads a leaf of the pattern, and the name the form before it defined. */
  function Last(b: Binding, y: Binding): Hir {
    Begin(HCons(Var(b), HCons(Var(y), HNil)))
  }

  /** The names the analyzer makes up for a file's forms, in their order. */
  datatype Made = Made(tmp: Binding, destr: Binding, first: Binding, last: Binding)

  /** The file `(def [a b] e)`, `(begin (def y v))`, `(begin b y)`. */
  function File(a: Binding, b: Binding, y: Binding, made: Made, shape: nat, e: Hir, v: Datum): Hir {
    var forms := BCons(made.first, Inner(y, v), BCons(made.last, Last(b, y), BNil));
    var rest := BCons(made.tmp, e, BCons(made.destr, Leaves(a, b, made.tmp, shape), forms));
    Let(true, BCons(a, Lit(Nil), BCons(b, Lit(Nil), rest)), Var(made.last))
  }

  lemma InnerOccurs(y: Binding, v: Datum, o: Role)
    ensures Occ(Inner(y, v), o) == One(o == Role.Bound(y)) + One(o == SiteOf(y, Lit(v)))
  {
    var def := Strict(Define(y), HCons(Lit(v), HNil));
    assert AllOcc(HNil, o) == 0 && Occ(Lit(v), o) == 0 && AllOcc(HCons(Lit(v), HNil), o) == 0;
    assert AllOcc(HCons(def, HNil), o) == Occ(def, o);
  }

  lemma FormsOccur(b: Binding, y: Binding, made: Made, v: Datum, o: Role)
    ensures LetOcc(BCons(made.first, Inner(y, v), BCons(made.last, Last(b, y), BNil)), o) ==
            One(o == Role.Bound(made.first)) + One(o == SiteOf(made.first, Inner(y, v)))
            + One(o == Role.Bound(y)) + One(o == SiteOf(y, Lit(v)))
            + One(o == Role.Bound(made.last)) + One(o == SiteOf(made.last, Last(b, y)))
            + One(o == Use(b)) + One(o == Use(y))
  {
    hide One, LetOcc, AllOcc;
    BindOccurs(made.first, Inner(y, v), BCons(made.last, Last(b, y), BNil), o);
    BindOccurs(made.last, Last(b, y), BNil, o);
    NoBinds(o);
    InnerOccurs(y, v, o);
    BeginOccurs(Var(b), Var(y), o);
  }

  lemma FileOccurs(a: Binding, b: Binding, y: Binding, made: Made, shape: nat, e: Hir, v: Datum, o: Role)
    requires Nameless(e)
    ensures var forms := BCons(made.first, Inner(y, v), BCons(made.last, Last(b, y), BNil));
            Occ(File(a, b, y, made, shape, e, v), o) ==
            One(o == Role.Bound(a)) + One(o == SiteOf(a, Lit(Nil)))
            + One(o == Role.Bound(b)) + One(o == SiteOf(b, Lit(Nil)))
            + One(o == Role.Bound(made.tmp)) + One(o == SiteOf(made.tmp, e))
            + One(o == Role.Bound(made.destr)) + One(o == SiteOf(made.destr, Leaves(a, b, made.tmp, shape)))
            + One(o == Role.Param(a)) + One(o == Role.Param(b)) + One(o == Use(made.tmp))
            + LetOcc(forms, o) + One(o == Use(made.last))
  {
    hide One, LetOcc, AllOcc;
    var forms := BCons(made.first, Inner(y, v), BCons(made.last, Last(b, y), BNil));
    var rest := BCons(made.destr, Leaves(a, b, made.tmp, shape), forms);
    BindOccurs(a, Lit(Nil), BCons(b, Lit(Nil), BCons(made.tmp, e, rest)), o);
    BindOccurs(b, Lit(Nil), BCons(made.tmp, e, rest), o);
    BindOccurs(made.tmp, e, rest, o);
    BindOccurs(made.destr, Leaves(a, b, made.tmp, shape), forms, o);
    LeavesOccur(a, b, made.tmp, shape, o);
  }

  /** A form that binds has an effect; one that reads binds nothing. */
  lemma FormsArePlain(f: Facts, a: Binding, b: Binding, y: Binding, made: Made, shape: nat, v: Datum)
    ensures InitPlain(f, Leaves(a, b, made.tmp, shape)) && InitPlain(f, Inner(y, v)) && InitPlain(f, Last(b, y))
    ensures InitPlain(f, Lit(v))
  {
    hide Occ;
    forall pure ensures !EffectFree(f, pure, Inner(y, v)) {
      assert !EffectFree(f, pure, Strict(Define(y), HCons(Lit(v), HNil)));
    }
    forall x ensures !Introduces(Last(b, y), x) && !Introduces(Lit(v), x) {
      BeginOccurs(Var(b), Var(y), Role.Bound(x));
      BeginOccurs(Var(b), Var(y), Role.Param(x));
      LeafOccurs(b, y, v, Role.Bound(x));
      LeafOccurs(b, y, v, Role.Param(x));
    }
  }

  lemma LeafOccurs(b: Binding, y: Binding, v: Datum, o: Role)
    requires !o.Use?
    ensures Occ(Var(b), o) == 0 && Occ(Var(y), o) == 0 && Occ(Lit(v), o) == 0
  {}

  lemma FileIsSound(f: Facts, order: seq<Binding>, natives: map<Binding, nat>, a: Binding, b: Binding, y: Binding,
          made: Made, shape: nat, e: Hir, v: Datum)
    requires var root := File(a, b, y, made, shape, e, v);
             Ranked(f, Sites(root), order) && NativesSound(f, root, natives) && Nameless(e)
    ensures var root := File(a, b, y, made, shape, e, v);
            ProgramSound(Pass(f, Uses(root), Elements(order)), root, order, natives)
  {
    hide Occ, LetOcc, Sites, Ranked, Elements, NativesSound, Uses, InitPlain, Nameless, ProgramSound, Leaves, Inner,
         Last;
    var root := File(a, b, y, made, shape, e, v);
    forall o | Occ(root, o) > 0 ensures RolePlain(f, o) {
      FileOccurs(a, b, y, made, shape, e, v, o);
      FormsOccur(b, y, made, v, o);
      NilIsPlain(f);
      NamelessIsPlain(f, e);
      FormsArePlain(f, a, b, y, made, shape, v);
    }
    PlainIsSound(f, root, order, natives);
  }
}
