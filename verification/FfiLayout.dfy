/**
  C layout: the size and alignment of a described type and the offset of each
  struct field, on an LP64 platform and with `usize` arithmetic that wraps.

  `Extent` and `Places` lay the same type out over unbounded numbers, rounding up
  by division. `SizeIsExact` says the masked, wrapping computation agrees with it for
  exactly the types that fit the address space, and `LeavesAligned` and
  `LeavesInOrder` say what such a layout is good for.
*/
module FfiLayout {
  import opened Options
  import opened Bits

  datatype Scalar =
    | Bool | Bool32
    | I8 | U8 | I16 | U16 | I32 | U32 | I64 | U64
    | Int | UInt | Long | ULong | Char | UChar | Short | UShort | Size | SSize
    | Ptr | Str

  datatype TypeDesc =
    | Void
    | Of(scalar: Scalar)
    | Struct(fields: seq<TypeDesc>)
    | Array(elem: TypeDesc, count: nat)

  const WORD: nat := 0x1_0000_0000_0000_0000

  function Wrap(n: nat): nat {
    n % WORD
  }

  /** The least multiple of `a` at or past `n`. */
  function RoundUp(n: nat, a: nat): (r: nat)
    requires a > 0
    ensures r >= n && r % a == 0 && r - n < a
  {
    MultipleBelow(n + a - 1, a);
    n + a - 1 - (n + a - 1) % a
  }

  lemma MultipleBelow(x: nat, a: nat)
    requires a > 0
    ensures (x - x % a) % a == 0
  {
    assert x - x % a == (x / a) * a;
    ModIs((x / a) * a, a, x / a, 0);
  }

  lemma RoundUpIsLeast(n: nat, a: nat, m: nat)
    requires a > 0 && m >= n && m % a == 0
    ensures RoundUp(n, a) <= m
  {
    hide RoundUp;
    var r := RoundUp(n, a);
    var d := r / a - m / a;
    assert r == (r / a) * a && m == (m / a) * a;
    assert d * a == r - m < a;
    assert d > 0 ==> d * a >= a;
  }

  predicate PowerOfTwo(a: nat) {
    a == 1 || a == 2 || a == 4 || a == 8
  }

  lemma PowersOfTwo(a: nat) returns (k: nat)
    requires PowerOfTwo(a)
    ensures k <= 3 && a == Pow2(k)
  {
    assert Pow2(1) == 2 && Pow2(2) == 4 && Pow2(3) == 8;
    k := if a == 1 then 0 else if a == 2 then 1 else if a == 4 then 2 else 3;
  }

  lemma WordIsPow64()
    ensures Pow2(64) == WORD
  {
    assert Pow2(8) == 256;
    assert Pow2(16) == 0x1_0000;
    assert Pow2(24) == 0x100_0000;
    assert Pow2(32) == 0x1_0000_0000;
    assert Pow2(40) == 0x100_0000_0000;
    assert Pow2(48) == 0x1_0000_0000_0000;
    assert Pow2(56) == 0x100_0000_0000_0000;
  }

  // ----- size, alignment, offsets -----------------------------------------------------------------------

  function ScalarSize(s: Scalar): nat {
    match s
    case Bool => 1 case I8 => 1 case U8 => 1 case Char => 1 case UChar => 1
    case I16 => 2 case U16 => 2 case Short => 2 case UShort => 2
    case Bool32 => 4 case I32 => 4 case U32 => 4 case Int => 4 case UInt => 4
    case I64 => 8 case U64 => 8 case Long => 8 case ULong => 8 case Size => 8 case SSize => 8
    case Ptr => 8 case Str => 8
  }

  function Align(d: TypeDesc): (r: Option<nat>)
    ensures r.Some? ==> PowerOfTwo(r.value)
  {
    match d
    case Void => None
    case Of(s) => Some(ScalarSize(s))
    case Struct(fs) => Some(MaxAlign(fs))
    case Array(e, _) => Align(e)
  }

  /** The largest alignment any field has, or 1. */
  function MaxAlign(fs: seq<TypeDesc>): (r: nat)
    ensures PowerOfTwo(r)
  {
    if fs == [] then 1
    else
      var rest := MaxAlign(fs[1..]);
      var a := Align(fs[0]);
      if a.Some? && a.value > rest then a.value else rest
  }

  /** `(offset + align - 1) & !(align - 1)`, in `usize` arithmetic. */
  function MaskUp(offset: nat, align: nat): nat
    requires PowerOfTwo(align)
  {
    WordIsPow64();
    And(Wrap(offset + align - 1), Not(64, align - 1))
  }

  datatype Layout = Layout(offsets: seq<nat>, size: nat)

  function SizeOf(d: TypeDesc): Option<nat>
    decreases d
  {
    match d
    case Void => None
    case Of(s) => Some(ScalarSize(s))
    case Struct(fs) =>
      var l := FieldOffsets(fs);
      if l.None? then None else Some(l.value.size)
    case Array(e, n) =>
      var s := SizeOf(e);
      if s.None? then None else Some(Wrap(s.value * n))
  }

  function FieldOffsets(fs: seq<TypeDesc>): Option<Layout>
    decreases fs, 1
  {
    var l := PlaceFields(fs, 0);
    if l.None? then None else Some(l.value.(size := MaskUp(l.value.size, MaxAlign(fs))))
  }

  /** Offsets from `offset` on, before tail padding. */
  function PlaceFields(fs: seq<TypeDesc>, offset: nat): (r: Option<Layout>)
    ensures r.Some? ==> |r.value.offsets| == |fs|
    decreases fs, 0
  {
    if fs == [] then Some(Layout([], offset))
    else
      var a := Align(fs[0]);
      if a.None? then None
      else
        var o := MaskUp(offset, a.value);
        var s := SizeOf(fs[0]);
        if s.None? then None
        else
          var rest := PlaceFields(fs[1..], Wrap(o + s.value));
          if rest.None? then None else Some(Layout([o] + rest.value.offsets, rest.value.size))
  }

  function After(offsets: seq<nat>, rest: Option<Layout>): Option<Layout> {
    if rest.None? then None else Some(Layout(offsets + rest.value.offsets, rest.value.size))
  }

  /** `StructDesc::field_offsets`, as its loop computes it. */
  method ComputeFieldOffsets(fs: seq<TypeDesc>) returns (r: Option<Layout>)
    ensures r == FieldOffsets(fs)
  {
    hide MaskUp, Wrap, SizeOf, Align, MaxAlign;
    var offsets: seq<nat> := [];
    var offset: nat := 0;
    var i := 0;
    ghost var whole := PlaceFields(fs, 0);
    assert fs[0..] == fs;
    assert whole.Some? ==> [] + whole.value.offsets == whole.value.offsets;
    while i < |fs|
      invariant 0 <= i <= |fs| && |offsets| == i
      invariant whole == After(offsets, PlaceFields(fs[i..], offset))
    {
      assert fs[i..][0] == fs[i] && fs[i..][1..] == fs[i + 1..];
      var a := Align(fs[i]);
      if a.None? { return None; }
      offset := MaskUp(offset, a.value);
      ghost var before := offsets;
      offsets := offsets + [offset];
      var s := SizeOf(fs[i]);
      if s.None? { return None; }
      ghost var rest := PlaceFields(fs[i + 1..], Wrap(offset + s.value));
      assert rest.Some? ==> before + ([offset] + rest.value.offsets) == offsets + rest.value.offsets;
      offset := Wrap(offset + s.value);
      i := i + 1;
    }
    assert fs[i..] == [] && offsets + [] == offsets;
    offset := MaskUp(offset, MaxAlign(fs));
    r := Some(Layout(offsets, offset));
  }

  // ----- the layout over unbounded numbers ------------------------------------------------------------------

  predicate VoidFree(d: TypeDesc) {
    match d
    case Void => false
    case Of(_) => true
    case Struct(fs) => forall i :: 0 <= i < |fs| ==> VoidFree(fs[i])
    case Array(e, _) => VoidFree(e)
  }

  predicate AllVoidFree(fs: seq<TypeDesc>) {
    forall i :: 0 <= i < |fs| ==> VoidFree(fs[i])
  }

  function Extent(d: TypeDesc): nat
    requires VoidFree(d)
    decreases d
  {
    match d
    case Of(s) => ScalarSize(s)
    case Struct(fs) => RoundUp(PlacesEnd(fs, 0), MaxAlign(fs))
    case Array(e, n) => Times(Extent(e), n)
  }

  function AlignOf(d: TypeDesc): (a: nat)
    requires VoidFree(d)
    ensures PowerOfTwo(a)
  {
    VoidFreeAligns(d);
    Align(d).value
  }

  /** Each field at the least aligned offset past the field before it. */
  function Places(fs: seq<TypeDesc>, offset: nat): (r: seq<nat>)
    requires AllVoidFree(fs)
    ensures |r| == |fs|
    decreases fs, 0
  {
    if fs == [] then []
    else
      var o := RoundUp(offset, AlignOf(fs[0]));
      [o] + Places(fs[1..], o + Extent(fs[0]))
  }

  function PlacesEnd(fs: seq<TypeDesc>, offset: nat): nat
    requires AllVoidFree(fs)
    decreases fs, 0
  {
    if fs == [] then offset
    else PlacesEnd(fs[1..], RoundUp(offset, AlignOf(fs[0])) + Extent(fs[0]))
  }

  lemma {:induction false} VoidFreeAligns(d: TypeDesc)
    requires VoidFree(d)
    ensures Align(d).Some?
    decreases d
  {
    if d.Array? { VoidFreeAligns(d.elem); }
  }

  /** The type fits the address space. */
  predicate Fits(d: TypeDesc)
    requires VoidFree(d)
  {
    Extent(d) < WORD
  }

  // ----- agreement -------------------------------------------------------------------------------------------

  lemma RoomToRound(offset: nat, align: nat)
    requires PowerOfTwo(align)
    ensures RoundUp(offset, align) < WORD <==> offset + align - 1 < WORD
  {
    hide RoundUp;
    var r := RoundUp(offset, align);
    assert r % align == 0 && WORD % align == 0;
    assert r < WORD <==> r + align <= WORD;
  }

  /** The masked expression rounds up exactly when the rounded number is still a word. */
  lemma MaskIsRoundUp(offset: nat, align: nat)
    requires PowerOfTwo(align)
    ensures MaskUp(offset, align) == RoundUp(offset, align) <==> RoundUp(offset, align) < WORD
    ensures MaskUp(offset, align) < WORD
  {
    hide And, Pow2;
    var k := PowersOfTwo(align);
    WordIsPow64();
    RoomToRound(offset, align);
    MaskDropsLowBits(Wrap(offset + align - 1), k, 64);
    assert offset + align - 1 < WORD ==> Wrap(offset + align - 1) == offset + align - 1;
  }

  lemma {:induction false} PlacesGrow(fs: seq<TypeDesc>, offset: nat)
    requires AllVoidFree(fs)
    ensures PlacesEnd(fs, offset) >= offset
    decreases fs
  {
    if fs != [] { PlacesGrow(fs[1..], RoundUp(offset, AlignOf(fs[0])) + Extent(fs[0])); }
  }

  /** A size is known exactly for the types without `Void`. */
  lemma {:induction false} SizeKnown(d: TypeDesc)
    ensures SizeOf(d).Some? <==> VoidFree(d)
    decreases d, 1
  {
    match d
    case Struct(fs) => FieldsKnown(fs, 0);
    case Array(e, _) => SizeKnown(e);
    case _ =>
  }

  lemma {:induction false} FieldsKnown(fs: seq<TypeDesc>, offset: nat)
    ensures PlaceFields(fs, offset).Some? <==> AllVoidFree(fs)
    decreases fs, 0
  {
    if fs != [] {
      SizeKnown(fs[0]);
      if VoidFree(fs[0]) { VoidFreeAligns(fs[0]); }
      forall o { FieldsKnown(fs[1..], o); }
      assert AllVoidFree(fs) <==> VoidFree(fs[0]) && AllVoidFree(fs[1..]);
    }
  }

  lemma SizeIsWord(d: TypeDesc)
    requires VoidFree(d)
    ensures SizeOf(d).Some? && SizeOf(d).value < WORD
  {
    hide MaskUp, PlaceFields, MaxAlign;
    SizeKnown(d);
    if d.Struct? { MaskIsRoundUp(PlaceFields(d.fields, 0).value.size, MaxAlign(d.fields)); }
  }

  lemma OneFits(e: TypeDesc, n: nat)
    requires VoidFree(e) && n > 0 && Fits(Array(e, n))
    ensures Fits(e)
  {
    hide Extent;
    assert Extent(Array(e, n)) == Times(Extent(e), n) by { ArrayExtent(e, n); }
    OneMore(Extent(e), n);
  }

  lemma ArrayExtent(e: TypeDesc, n: nat)
    requires VoidFree(e)
    ensures Extent(Array(e, n)) == Times(Extent(e), n)
  {}

  lemma {:induction false} SizeIsExtent(d: TypeDesc)
    requires VoidFree(d) && Fits(d)
    ensures SizeOf(d) == Some(Extent(d))
    decreases d, 1
  {
    hide MaskUp, RoundUp, PlaceFields, PlacesEnd, MaxAlign;
    match d
    case Of(_) =>
    case Array(e, n) =>
      SizeKnown(e);
      if n > 0 {
        OneFits(e, n);
        SizeIsExtent(e);
      } else {
        TimesZero(Extent(e));
      }
    case Struct(fs) =>
      FieldsArePlaces(fs, 0);
      MaskIsRoundUp(PlacesEnd(fs, 0), MaxAlign(fs));
  }

  /** The masked and wrapping size is the size over unbounded numbers exactly for the types that fit. */
  lemma SizeIsExact(d: TypeDesc)
    requires VoidFree(d)
    ensures SizeOf(d) == Some(Extent(d)) <==> Fits(d)
  {
    hide SizeOf, Extent;
    SizeIsWord(d);
    if Fits(d) { SizeIsExtent(d); }
  }

  lemma {:induction false} FieldsFit(fs: seq<TypeDesc>, offset: nat)
    requires AllVoidFree(fs) && PlacesEnd(fs, offset) < WORD
    ensures forall i :: 0 <= i < |fs| ==> Fits(fs[i])
    decreases fs
  {
    hide RoundUp, Extent, AlignOf;
    if fs != [] {
      var o := RoundUp(offset, AlignOf(fs[0])) + Extent(fs[0]);
      PlacesGrow(fs[1..], o);
      FieldsFit(fs[1..], o);
      assert forall i :: 1 <= i < |fs| ==> fs[i] == fs[1..][i - 1];
    }
  }

  lemma {:induction false} FieldsArePlaces(fs: seq<TypeDesc>, offset: nat)
    requires AllVoidFree(fs) && PlacesEnd(fs, offset) < WORD
    ensures PlaceFields(fs, offset) == Some(Layout(Places(fs, offset), PlacesEnd(fs, offset)))
    decreases fs, 0
  {
    hide MaskUp, RoundUp, Align, AlignOf, SizeOf, Extent, Wrap;
    if fs != [] {
      var o := RoundUp(offset, AlignOf(fs[0])) + Extent(fs[0]);
      PlacesGrow(fs[1..], o);
      FieldIsPlaced(fs[0], offset);
      FieldsArePlaces(fs[1..], o);
    }
  }

  lemma {:induction false} FieldIsPlaced(f: TypeDesc, offset: nat)
    requires VoidFree(f) && RoundUp(offset, AlignOf(f)) + Extent(f) < WORD
    ensures Align(f) == Some(AlignOf(f)) && SizeOf(f) == Some(Extent(f))
    ensures var o := RoundUp(offset, AlignOf(f));
            MaskUp(offset, AlignOf(f)) == o && Wrap(o + Extent(f)) == o + Extent(f)
    decreases f, 2
  {
    hide MaskUp, RoundUp, Align, SizeOf, Extent;
    VoidFreeAligns(f);
    SizeIsExtent(f);
    MaskIsRoundUp(offset, AlignOf(f));
  }

  /** `field_offsets` gives each field its place, and the struct its extent, exactly when the struct fits. */
  lemma OffsetsArePlaces(fs: seq<TypeDesc>)
    requires AllVoidFree(fs)
    ensures FieldOffsets(fs) == Some(Layout(Places(fs, 0), Extent(Struct(fs)))) <==> Fits(Struct(fs))
  {
    hide MaskUp, RoundUp, PlaceFields, MaxAlign;
    if Fits(Struct(fs)) {
      FieldsArePlaces(fs, 0);
      MaskIsRoundUp(PlacesEnd(fs, 0), MaxAlign(fs));
    } else {
      SizeIsWord(Struct(fs));
    }
  }

  /** A byte boolean packs beside a byte; a 32-bit one and a string are aligned to four and eight. */
  lemma BooleansAndStrings()
    ensures FieldOffsets([Of(Bool), Of(I8)]) == Some(Layout([0, 1], 2))
    ensures FieldOffsets([Of(I8), Of(Bool32)]) == Some(Layout([0, 4], 8))
    ensures FieldOffsets([Of(Bool), Of(Str)]) == Some(Layout([0, 8], 16))
  {
    hide FieldOffsets;
    PairAt(Bool, I8, 1, 2);
    PairAt(I8, Bool32, 4, 8);
    PairAt(Bool, Str, 8, 16);
  }

  function Wider(a: Scalar, b: Scalar): nat {
    if ScalarSize(a) > ScalarSize(b) then ScalarSize(a) else ScalarSize(b)
  }

  /** The offsets of two scalars, given where the second and the end round up to. */
  lemma PairAt(a: Scalar, b: Scalar, second: nat, size: nat)
    requires second % ScalarSize(b) == 0 && ScalarSize(a) <= second < ScalarSize(a) + ScalarSize(b)
    requires size % Wider(a, b) == 0 && second + ScalarSize(b) <= size < second + ScalarSize(b) + Wider(a, b)
    ensures FieldOffsets([Of(a), Of(b)]) == Some(Layout([0, second], size))
  {
    hide MaskUp, ScalarSize, PlaceFields, MaxAlign;
    SizesAreSmall(a);
    SizesAreSmall(b);
    MaskLands(0, ScalarSize(a), 0);
    MaskLands(ScalarSize(a), ScalarSize(b), second);
    MaskLands(second + ScalarSize(b), Wider(a, b), size);
    PairPlaced(a, b, second);
    PairAlign(a, b);
  }

  lemma PairPlaced(a: Scalar, b: Scalar, second: nat)
    requires PowerOfTwo(ScalarSize(a)) && PowerOfTwo(ScalarSize(b)) && second <= 16
    requires MaskUp(0, ScalarSize(a)) == 0 && MaskUp(ScalarSize(a), ScalarSize(b)) == second
    ensures PlaceFields([Of(a), Of(b)], 0) == Some(Layout([0, second], second + ScalarSize(b)))
  {
    hide MaskUp, ScalarSize;
    var fs := [Of(a), Of(b)];
    assert fs[1..] == [Of(b)] && [Of(b)][1..] == [];
    assert PlaceFields([Of(b)], ScalarSize(a)) == Some(Layout([second] + [], second + ScalarSize(b)));
    assert [second] + [] == [second] && [0] + [second] == [0, second];
  }

  lemma PairAlign(a: Scalar, b: Scalar)
    ensures MaxAlign([Of(a), Of(b)]) == Wider(a, b)
  {
    hide ScalarSize;
    SizesAreSmall(b);
    assert [Of(a), Of(b)][1..] == [Of(b)] && [Of(b)][1..] == [];
    assert MaxAlign([Of(b)]) == ScalarSize(b);
  }

  lemma SizesAreSmall(s: Scalar)
    ensures PowerOfTwo(ScalarSize(s)) && ScalarSize(s) <= 8
  {}

  lemma MaskLands(offset: nat, align: nat, to: nat)
    requires PowerOfTwo(align) && to % align == 0 && offset <= to < offset + align && to < WORD
    ensures MaskUp(offset, align) == to
  {
    hide RoundUp, MaskUp;
    MaskIsRoundUp(offset, align);
    RoundUpIsLeast(offset, align, to);
    var r := RoundUp(offset, align);
    RoundUpIsLeast(to, align, r + if r < to then align else 0);
  }

  /**
    Without room the layout is not sound: two arrays of 2^62 two-byte numbers, half the
    address space each, give a struct of them size 0.
  */
  lemma HalfSpaceTwiceWrapsToNothing()
    ensures var half := Array(Of(U16), 0x4000_0000_0000_0000);
            SizeOf(Struct([half, half])) == Some(0) && AllVoidFree([half, half]) && !Fits(Struct([half, half]))
  {
    hide MaskUp, RoundUp;
    var half := Array(Of(U16), 0x4000_0000_0000_0000);
    var fs, mid := [half, half], WORD / 2;
    assert Extent(Of(U16)) == 2 && SizeOf(Of(U16)) == Some(2);
    ArrayExtent(Of(U16), 0x4000_0000_0000_0000);
    assert Times(2, 0x4000_0000_0000_0000) == mid;
    assert SizeOf(half) == Some(mid) && Align(half) == Some(2) && VoidFree(half) && Extent(half) == mid;
    assert fs[1..] == [half] && [half][1..] == [];
    AlignedStays(0, 2);
    AlignedStays(mid, 2);
    assert PlaceFields([], 0) == Some(Layout([], 0));
    assert PlaceFields([half], mid) == Some(Layout([mid] + [], 0));
    assert Wrap(0 + mid) == mid && [mid] + [] == [mid];
    assert PlaceFields(fs, 0) == Some(Layout([0] + [mid], 0));
    assert MaxAlign([half]) == 2 && MaxAlign(fs) == 2;
    assert AllVoidFree([half]) && AllVoidFree(fs);
    assert PlacesEnd([], WORD) == WORD;
    assert PlacesEnd([half], mid) == WORD;
    assert PlacesEnd(fs, 0) == WORD;
  }

  /** An aligned offset below the address space is its own place. */
  lemma AlignedStays(offset: nat, align: nat)
    requires PowerOfTwo(align) && offset < WORD && offset % align == 0
    ensures RoundUp(offset, align) == offset && MaskUp(offset, align) == offset
  {
    hide RoundUp, MaskUp;
    RoundUpIsLeast(offset, align, offset);
    MaskIsRoundUp(offset, align);
  }

  // ----- what the layout is good for -----------------------------------------------------------------------

  lemma Coarser(x: nat, fine: nat, coarse: nat)
    requires PowerOfTwo(fine) && PowerOfTwo(coarse) && fine <= coarse && x % coarse == 0
    ensures x % fine == 0
  {
    var q, m := x / coarse, coarse / fine;
    assert x == q * coarse && coarse == m * fine;
    assert q * (m * fine) == (q * m) * fine;
    ModIs(x, fine, q * m, 0);
  }

  lemma SumAligned(x: nat, y: nat, a: nat)
    requires PowerOfTwo(a) && x % a == 0 && y % a == 0
    ensures (x + y) % a == 0
  {
    assert x == (x / a) * a && y == (y / a) * a;
    assert (x / a + y / a) * a == x + y;
    ModIs(x + y, a, x / a + y / a, 0);
  }

  lemma {:induction false} TimesAligned(x: nat, n: nat, a: nat)
    requires PowerOfTwo(a) && x % a == 0
    ensures x * n % a == 0
    decreases n
  {
    if n > 0 {
      TimesAligned(x, n - 1, a);
      assert x * n == x * (n - 1) + x;
      SumAligned(x * (n - 1), x, a);
    }
  }

  lemma {:induction false} FieldAlignBelowMax(fs: seq<TypeDesc>, i: nat)
    requires AllVoidFree(fs) && i < |fs|
    ensures AlignOf(fs[i]) <= MaxAlign(fs)
  {
    VoidFreeAligns(fs[i]);
    if i > 0 { FieldAlignBelowMax(fs[1..], i - 1); }
  }

  /** Every size is a multiple of its alignment, so array elements stay aligned. */
  lemma {:induction false} ExtentIsAligned(d: TypeDesc)
    requires VoidFree(d)
    ensures Extent(d) % AlignOf(d) == 0
    decreases d
  {
    if d.Array? {
      ExtentIsAligned(d.elem);
      TimesAligned(Extent(d.elem), d.count, AlignOf(d.elem));
    }
  }

  /** The scalars of a type laid out at `at`, with their addresses. */
  function Leaves(d: TypeDesc, at: nat): seq<(nat, Scalar)>
    requires VoidFree(d)
    decreases d, 1
  {
    match d
    case Of(s) => [(at, s)]
    case Struct(fs) => FieldLeaves(fs, Places(fs, 0), at)
    case Array(e, n) => ElemLeaves(e, n, at)
  }

  function FieldLeaves(fs: seq<TypeDesc>, offsets: seq<nat>, at: nat): seq<(nat, Scalar)>
    requires AllVoidFree(fs) && |offsets| == |fs|
    decreases fs, 0
  {
    if fs == [] then [] else Leaves(fs[0], at + offsets[0]) + FieldLeaves(fs[1..], offsets[1..], at)
  }

  function ElemLeaves(e: TypeDesc, n: nat, at: nat): seq<(nat, Scalar)>
    requires VoidFree(e)
    decreases e, 2, n
  {
    if n == 0 then [] else Leaves(e, at) + ElemLeaves(e, n - 1, at + Extent(e))
  }

  predicate AllAligned(ls: seq<(nat, Scalar)>) {
    forall i :: 0 <= i < |ls| ==> ls[i].0 % ScalarSize(ls[i].1) == 0
  }

  lemma NoneAligned()
    ensures AllAligned([])
  {}

  lemma AlignedJoin(a: seq<(nat, Scalar)>, b: seq<(nat, Scalar)>)
    requires AllAligned(a) && AllAligned(b)
    ensures AllAligned(a + b)
  {}

  /** At an aligned address every scalar in the type, at any depth, is at a multiple of its own size. */
  lemma {:induction false} LeavesAligned(d: TypeDesc, at: nat)
    requires VoidFree(d) && at % AlignOf(d) == 0
    ensures AllAligned(Leaves(d, at))
    decreases d, 1
  {
    match d
    case Of(_) =>
    case Struct(fs) => FieldLeavesAligned(fs, 0, at, MaxAlign(fs));
    case Array(e, n) => ElemLeavesAligned(e, n, at);
  }

  lemma {:induction false} FieldLeavesAligned(fs: seq<TypeDesc>, offset: nat, at: nat, max: nat)
    requires AllVoidFree(fs) && PowerOfTwo(max) && at % max == 0 && MaxAlign(fs) <= max
    ensures AllAligned(FieldLeaves(fs, Places(fs, offset), at))
    decreases fs, 0
  {
    hide AllAligned, RoundUp, Extent, AlignOf;
    if fs != [] {
      var a := AlignOf(fs[0]);
      var o := RoundUp(offset, a);
      FieldAlignBelowMax(fs, 0);
      Coarser(at, a, max);
      SumAligned(at, o, a);
      LeavesAligned(fs[0], at + o);
      FieldLeavesAligned(fs[1..], o + Extent(fs[0]), at, max);
      assert Places(fs, offset)[1..] == Places(fs[1..], o + Extent(fs[0]));
      AlignedJoin(Leaves(fs[0], at + o), FieldLeaves(fs[1..], Places(fs[1..], o + Extent(fs[0])), at));
    } else {
      NoneAligned();
    }
  }

  lemma {:induction false} ElemLeavesAligned(e: TypeDesc, n: nat, at: nat)
    requires VoidFree(e) && at % AlignOf(e) == 0
    ensures AllAligned(ElemLeaves(e, n, at))
    decreases e, 2, n
  {
    if n > 0 {
      LeavesAligned(e, at);
      ExtentIsAligned(e);
      SumAligned(at, Extent(e), AlignOf(e));
      ElemLeavesAligned(e, n - 1, at + Extent(e));
      AlignedJoin(Leaves(e, at), ElemLeaves(e, n - 1, at + Extent(e)));
    }
  }

  /** The scalars lie in order between `lo` and `hi`, none sharing a byte with another. */
  predicate InOrder(ls: seq<(nat, Scalar)>, lo: nat, hi: nat) {
    && lo <= hi
    && (forall i :: 0 <= i < |ls| ==> lo <= ls[i].0 && ls[i].0 + ScalarSize(ls[i].1) <= hi)
    && forall i, j :: 0 <= i < j < |ls| ==> ls[i].0 + ScalarSize(ls[i].1) <= ls[j].0
  }

  lemma InOrderJoin(a: seq<(nat, Scalar)>, b: seq<(nat, Scalar)>, lo: nat, m1: nat, m2: nat, hi: nat)
    requires InOrder(a, lo, m1) && m1 <= m2 && InOrder(b, m2, hi)
    ensures InOrder(a + b, lo, hi)
  {
    var c := a + b;
    forall i, j | 0 <= i < j < |c| ensures c[i].0 + ScalarSize(c[i].1) <= c[j].0 {
      if j < |a| {
        assert c[i] == a[i] && c[j] == a[j];
      } else {
        assert c[j] == b[j - |a|];
        assert i < |a| ==> c[i] == a[i];
        assert i >= |a| ==> c[i] == b[i - |a|];
      }
    }
  }

  /** The scalars of a laid-out type are disjoint and inside it. */
  lemma {:induction false} LeavesInOrder(d: TypeDesc, at: nat)
    requires VoidFree(d)
    ensures InOrder(Leaves(d, at), at, at + Extent(d))
    decreases d, 1
  {
    match d
    case Of(_) =>
    case Struct(fs) => FieldLeavesInOrder(fs, 0, at);
    case Array(e, n) => ElemLeavesInOrder(e, n, at);
  }

  lemma {:induction false} FieldLeavesInOrder(fs: seq<TypeDesc>, offset: nat, at: nat)
    requires AllVoidFree(fs)
    ensures InOrder(FieldLeaves(fs, Places(fs, offset), at), at + offset, at + PlacesEnd(fs, offset))
    decreases fs, 0
  {
    hide InOrder, RoundUp, Extent, AlignOf;
    if fs != [] {
      var o := RoundUp(offset, AlignOf(fs[0]));
      var end := o + Extent(fs[0]);
      LeavesInOrder(fs[0], at + o);
      FieldLeavesInOrder(fs[1..], end, at);
      assert Places(fs, offset)[1..] == Places(fs[1..], end);
      InOrderWider(Leaves(fs[0], at + o), at + o, at + end, at + offset);
      InOrderJoin(Leaves(fs[0], at + o), FieldLeaves(fs[1..], Places(fs[1..], end), at), at + offset, at + end,
          at + end, at + PlacesEnd(fs, offset));
    } else {
      NoneInOrder(at + offset);
    }
  }

  lemma NoneInOrder(at: nat)
    ensures InOrder([], at, at)
  {}

  lemma InOrderWider(ls: seq<(nat, Scalar)>, lo: nat, hi: nat, lower: nat)
    requires InOrder(ls, lo, hi) && lower <= lo
    ensures InOrder(ls, lower, hi)
  {}

  lemma {:induction false} ElemLeavesInOrder(e: TypeDesc, n: nat, at: nat)
    requires VoidFree(e)
    ensures InOrder(ElemLeaves(e, n, at), at, at + Times(Extent(e), n))
    decreases e, 2, n
  {
    hide InOrder, Extent, Leaves, Times;
    if n > 0 {
      LeavesInOrder(e, at);
      ElemLeavesInOrder(e, n - 1, at + Extent(e));
      OneMore(Extent(e), n);
      InOrderJoin(Leaves(e, at), ElemLeaves(e, n - 1, at + Extent(e)), at, at + Extent(e), at + Extent(e),
          at + Times(Extent(e), n));
    } else {
      NoneInOrder(at);
      assert Times(Extent(e), 0) == 0 by { TimesZero(Extent(e)); }
    }
  }
}
