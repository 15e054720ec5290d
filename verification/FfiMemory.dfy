/**
  Values written into C memory as a described type and read back, on a
  little-endian LP64 platform and without floating point.

  Memory is a byte array and a pointer an index into it. `WriteValue` and `Load`
  say what the two walks do to the bytes; the methods at the end are the walks in
  the source's form. `RoundTrip` is the main result, `WriteFrame` and
  `FieldsIndependent` say what a write leaves alone, and `WriteSucceedsIff` names
  the values a type accepts.
*/
module FfiMemory {
  import opened Options
  import opened Bits
  import opened FfiLayout

  type byte = n: int | 0 <= n < 256
  type i64 = n: int | -0x8000_0000_0000_0000 <= n < 0x8000_0000_0000_0000
  type usize = n: int | 0 <= n < WORD

  /** `Managed` is a pointer cell, empty once freed; an Elle array or bytes value stands for both mutabilities. */
  datatype Value =
    | Nil
    | Boolean(b: bool)
    | Integer(n: i64)
    | Pointer(addr: usize)
    | Managed(cell: Option<usize>)
    | Bytes(data: seq<byte>)
    | Elems(elems: seq<Value>)
    | Other

  datatype Error = WrongType | OutOfRange | Freed | WrongCount | NoLayout | VoidWrite

  datatype Result<+T> = Ok(value: T) | Err(error: Error)

  // ----- integers as bytes ------------------------------------------------------------------------------

  function Pow256(k: nat): (p: nat)
    ensures p > 0
  {
    if k == 0 then 1 else 256 * Pow256(k - 1)
  }

  /** The low `k` bytes of `n`, least significant first. */
  function Encode(n: nat, k: nat): (bs: seq<byte>)
    ensures |bs| == k
    decreases k
  {
    if k == 0 then [] else [n % 256] + Encode(n / 256, k - 1)
  }

  function Decode(bs: seq<byte>): (n: nat)
    ensures n < Pow256(|bs|)
  {
    if bs == [] then 0 else bs[0] + 256 * Decode(bs[1..])
  }

  lemma {:induction false} DecodeEncode(n: nat, k: nat)
    requires n < Pow256(k)
    ensures Decode(Encode(n, k)) == n
    decreases k
  {
    if k > 0 {
      DecodeEncode(n / 256, k - 1);
      assert Encode(n, k)[1..] == Encode(n / 256, k - 1);
    }
  }

  lemma {:induction false} EncodeDecode(bs: seq<byte>)
    ensures Encode(Decode(bs), |bs|) == bs
  {
    if bs != [] {
      EncodeDecode(bs[1..]);
      var rest := Decode(bs[1..]);
      assert (bs[0] + 256 * rest) % 256 == bs[0] && (bs[0] + 256 * rest) / 256 == rest;
      assert bs == [bs[0]] + bs[1..];
    }
  }

  lemma DivTwice(n: nat, m: nat)
    requires m > 0
    ensures n / 256 / m == n / (256 * m)
  {
    var q, r := n / 256 / m, n / 256 % m;
    assert n / 256 == m * q + r;
    assert 256 * (m * q + r) == (256 * m) * q + 256 * r;
    assert n == (256 * m) * q + (256 * r + n % 256) && 256 * r + n % 256 < 256 * m;
    QuotientIs(n, 256 * m, q, 256 * r + n % 256);
  }

  lemma QuotientIs(n: nat, m: nat, q: nat, r: nat)
    requires n == m * q + r && r < m
    ensures n / m == q
  {
    var p := n / m;
    assert n == m * p + n % m;
    assert p < q ==> m * q >= m * (p + 1) == m * p + m;
    assert p > q ==> m * p >= m * (q + 1) == m * q + m;
  }

  /** The least significant byte comes first. */
  lemma {:induction false} ByteOfNumber(n: nat, k: nat, i: nat)
    requires i < k
    ensures Encode(n, k)[i] == n / Pow256(i) % 256
    decreases k
  {
    if i > 0 {
      ByteOfNumber(n / 256, k - 1, i - 1);
      DivTwice(n, Pow256(i - 1));
    }
  }

  lemma {:induction false} DecodeZero(bs: seq<byte>)
    ensures Decode(bs) == 0 <==> forall i :: 0 <= i < |bs| ==> bs[i] == 0
  {
    if bs != [] {
      DecodeZero(bs[1..]);
      assert forall i :: 0 <= i < |bs| - 1 ==> bs[1..][i] == bs[i + 1];
      if forall i :: 0 <= i < |bs| ==> bs[i] == 0 { assert forall i :: 0 <= i < |bs| - 1 ==> bs[1..][i] == 0; }
      if Decode(bs) == 0 {
        forall i | 0 <= i < |bs| ensures bs[i] == 0 {
          if i > 0 { assert bs[1..][i - 1] == bs[i]; }
        }
      }
    }
  }

  /** Two's complement: the residue of `n` in `k` bytes. */
  function Residue(n: int, k: nat): nat {
    n % Pow256(k)
  }

  /** The residue `u` read back as a signed number. */
  function AsSigned(u: nat, k: nat): int {
    if 2 * u >= Pow256(k) then u - Pow256(k) else u
  }

  lemma SignedResidue(n: int, k: nat)
    requires 0 <= 2 * n + Pow256(k) && 2 * n < Pow256(k)
    ensures AsSigned(Residue(n, k), k) == n
  {
    hide Pow256;
    var p := Pow256(k);
    if n < 0 { ModIs(n, p, -1, n + p); } else { ModIs(n, p, 0, n); }
  }

  lemma Powers()
    ensures Pow256(1) == 0x100 && Pow256(2) == 0x1_0000 && Pow256(4) == 0x1_0000_0000 && Pow256(8) == WORD
  {
    assert Pow256(3) == 0x100_0000;
    assert Pow256(5) == 0x100_0000_0000;
    assert Pow256(6) == 0x1_0000_0000_0000;
    assert Pow256(7) == 0x100_0000_0000_0000;
  }

  // ----- scalars ---------------------------------------------------------------------------------------

  predicate Truthy(v: Value) {
    !v.Nil? && v != Boolean(false)
  }

  /** The range `int_in` checks; the 64-bit types take any integer. */
  function Range(s: Scalar): Option<(int, int)> {
    match s
    case I8 => Some((-0x80, 0x7F)) case Char => Some((-0x80, 0x7F))
    case U8 => Some((0, 0xFF)) case UChar => Some((0, 0xFF))
    case I16 => Some((-0x8000, 0x7FFF)) case Short => Some((-0x8000, 0x7FFF))
    case U16 => Some((0, 0xFFFF)) case UShort => Some((0, 0xFFFF))
    case I32 => Some((-0x8000_0000, 0x7FFF_FFFF)) case Int => Some((-0x8000_0000, 0x7FFF_FFFF))
    case U32 => Some((0, 0xFFFF_FFFF)) case UInt => Some((0, 0xFFFF_FFFF))
    case _ => None
  }

  function IntIn(v: Value, range: Option<(int, int)>): Result<int> {
    if !v.Integer? then Err(WrongType)
    else if range.Some? && !(range.value.0 <= v.n <= range.value.1) then Err(OutOfRange)
    else Ok(v.n)
  }

  function Address(v: Value): Result<usize> {
    match v
    case Nil => Ok(0)
    case Pointer(a) => Ok(a)
    case Managed(Some(a)) => Ok(a)
    case Managed(None) => Err(Freed)
    case _ => Err(WrongType)
  }

  /** The number stored for `v`, or why there is none. A `Str` here takes only nil. */
  function Stored(v: Value, s: Scalar): Result<int> {
    match s
    case Bool => Ok(if Truthy(v) then 1 else 0)
    case Bool32 => Ok(if Truthy(v) then 1 else 0)
    case Ptr => Address(v)
    case Str => if v.Nil? then Ok(0) else Err(WrongType)
    case _ => IntIn(v, Range(s))
  }

  predicate ReadUnsigned(s: Scalar) {
    s.U8? || s.UChar? || s.U16? || s.UShort? || s.U32? || s.UInt?
  }

  predicate ReadSigned(s: Scalar) {
    !ReadUnsigned(s) && !s.Ptr? && !s.Str? && !s.Bool? && !s.Bool32?
  }

  /** What the bits `u` of a scalar read as; the unsigned 64-bit types are reinterpreted as signed. */
  function Read(u: nat, s: Scalar): (v: Value)
    requires u < Pow256(ScalarSize(s))
  {
    Powers();
    match s
    case Bool => Boolean(u != 0)
    case Bool32 => Boolean(u != 0)
    case Ptr => if u == 0 then Nil else Pointer(u)
    case Str => if u == 0 then Nil else Pointer(u)
    case _ => Integer(if ReadUnsigned(s) then u else AsSigned(u, ScalarSize(s)))
  }

  // ----- writing and reading --------------------------------------------------------------------------------

  function Put(mem: seq<byte>, at: nat, bs: seq<byte>): (r: seq<byte>)
    requires at + |bs| <= |mem|
    ensures |r| == |mem| && r[at..at + |bs|] == bs
    ensures forall k :: 0 <= k < |mem| && !(at <= k < at + |bs|) ==> r[k] == mem[k]
  {
    mem[..at] + bs + mem[at + |bs|..]
  }

  datatype Wrote = Wrote(mem: seq<byte>, error: Option<Error>)

  predicate Room(len: nat, at: nat, d: TypeDesc) {
    VoidFree(d) ==> Fits(d) && at + Extent(d) <= len
  }

  predicate FieldsRoom(len: nat, at: nat, fs: seq<TypeDesc>, offset: nat) {
    AllVoidFree(fs) && (forall i :: 0 <= i < |fs| ==> Fits(fs[i])) && at + PlacesEnd(fs, offset) <= len
  }

  predicate ElemsRoom(len: nat, at: nat, e: TypeDesc, n: nat) {
    VoidFree(e) && (n > 0 ==> Fits(e)) && at + Times(Extent(e), n) <= len
  }

  lemma FieldRoom(len: nat, at: nat, fs: seq<TypeDesc>, offset: nat)
    requires FieldsRoom(len, at, fs, offset) && fs != []
    ensures var o := RoundUp(offset, AlignOf(fs[0]));
            && Room(len, at + o, fs[0]) && FieldsRoom(len, at, fs[1..], o + Extent(fs[0]))
            && at + o + Extent(fs[0]) <= len
  {
    hide RoundUp, Extent, Fits, AlignOf;
    PlacesGrow(fs[1..], RoundUp(offset, AlignOf(fs[0])) + Extent(fs[0]));
  }

  lemma ElemRoom(len: nat, at: nat, e: TypeDesc, n: nat)
    requires ElemsRoom(len, at, e, n) && n > 0
    ensures VoidFree(e) && Room(len, at, e) && ElemsRoom(len, at + Extent(e), e, n - 1) && at + Extent(e) <= len
  {
    hide Extent, Fits;
    OneMore(Extent(e), n);
  }

  lemma StructRoom(len: nat, at: nat, fs: seq<TypeDesc>)
    requires AllVoidFree(fs) && Room(len, at, Struct(fs))
    ensures FieldsRoom(len, at, fs, 0) && PlacesEnd(fs, 0) <= Extent(Struct(fs))
  {
    hide PlacesEnd, RoundUp, MaxAlign;
    FieldsFit(fs, 0);
  }

  lemma ArrayRoom(len: nat, at: nat, e: TypeDesc, n: nat)
    requires VoidFree(e) && Room(len, at, Array(e, n))
    ensures ElemsRoom(len, at, e, n) && (ByteLike(e) ==> Extent(Array(e, n)) == n)
  {
    ArrayExtent(e, n);
    if n > 0 { OneFits(e, n); }
    if ByteLike(e) { TimesOne(n); }
  }

  function WriteScalar(mem: seq<byte>, at: nat, v: Value, s: Scalar): (r: Wrote)
    requires at + ScalarSize(s) <= |mem|
    ensures |r.mem| == |mem|
  {
    var n := Stored(v, s);
    if n.Err? then Wrote(mem, Some(n.error))
    else Wrote(Put(mem, at, Encode(Residue(n.value, ScalarSize(s)), ScalarSize(s))), None)
  }

  /** The element types whose arrays are bytes. */
  predicate ByteLike(e: TypeDesc) {
    e.Of? && (e.scalar.U8? || e.scalar.UChar? || e.scalar.I8? || e.scalar.Char?)
  }

  function WriteValue(mem: seq<byte>, at: nat, v: Value, d: TypeDesc): (r: Wrote)
    requires Room(|mem|, at, d)
    ensures |r.mem| == |mem|
    decreases d, 1
  {
    match d
    case Void => Wrote(mem, Some(VoidWrite))
    case Of(s) => WriteScalar(mem, at, v, s)
    case Struct(fs) =>
      if !VoidFree(d) then Wrote(mem, Some(NoLayout))
      else if !v.Elems? then Wrote(mem, Some(WrongType))
      else if |v.elems| != |fs| then Wrote(mem, Some(WrongCount))
      else StructRoom(|mem|, at, fs); WriteFields(mem, at, v.elems, fs, 0)
    case Array(e, n) =>
      if !VoidFree(e) then Wrote(mem, Some(NoLayout))
      else
        ArrayRoom(|mem|, at, e, n);
        if ByteLike(e) && v.Bytes? then
          if |v.data| != n then Wrote(mem, Some(WrongCount)) else Wrote(Put(mem, at, v.data), None)
        else if !v.Elems? then Wrote(mem, Some(WrongType))
        else if |v.elems| != n then Wrote(mem, Some(WrongCount))
        else WriteElems(mem, at, v.elems, e)
  }

  /** The fields from `offset` on, in order, up to the first that fails. */
  function WriteFields(mem: seq<byte>, at: nat, vs: seq<Value>, fs: seq<TypeDesc>, offset: nat): (r: Wrote)
    requires FieldsRoom(|mem|, at, fs, offset) && |vs| == |fs|
    ensures |r.mem| == |mem|
    decreases fs, 0
  {
    if fs == [] then Wrote(mem, None)
    else
      FieldRoom(|mem|, at, fs, offset);
      var o := RoundUp(offset, AlignOf(fs[0]));
      var r := WriteValue(mem, at + o, vs[0], fs[0]);
      if r.error.Some? then r else WriteFields(r.mem, at, vs[1..], fs[1..], o + Extent(fs[0]))
  }

  function WriteElems(mem: seq<byte>, at: nat, vs: seq<Value>, e: TypeDesc): (r: Wrote)
    requires ElemsRoom(|mem|, at, e, |vs|)
    ensures |r.mem| == |mem|
    decreases e, 2, |vs|
  {
    if vs == [] then Wrote(mem, None)
    else
      ElemRoom(|mem|, at, e, |vs|);
      var r := WriteValue(mem, at, vs[0], e);
      if r.error.Some? then r else WriteElems(r.mem, at + Extent(e), vs[1..], e)
  }

  /** The value of a laid-out type in memory. */
  function Load(mem: seq<byte>, at: nat, d: TypeDesc): Value
    requires VoidFree(d) && Room(|mem|, at, d)
    decreases d, 1
  {
    match d
    case Of(s) => Read(Decode(mem[at..at + ScalarSize(s)]), s)
    case Struct(fs) => StructRoom(|mem|, at, fs); Elems(LoadFields(mem, at, fs, 0))
    case Array(e, n) =>
      ArrayRoom(|mem|, at, e, n); if ByteLike(e) then Bytes(mem[at..at + n]) else Elems(LoadElems(mem, at, e, n))
  }

  function LoadFields(mem: seq<byte>, at: nat, fs: seq<TypeDesc>, offset: nat): (r: seq<Value>)
    requires FieldsRoom(|mem|, at, fs, offset)
    decreases fs, 0
  {
    if fs == [] then []
    else
      FieldRoom(|mem|, at, fs, offset);
      var o := RoundUp(offset, AlignOf(fs[0]));
      [Load(mem, at + o, fs[0])] + LoadFields(mem, at, fs[1..], o + Extent(fs[0]))
  }

  function LoadElems(mem: seq<byte>, at: nat, e: TypeDesc, n: nat): (r: seq<Value>)
    requires ElemsRoom(|mem|, at, e, n)
    decreases e, 2, n
  {
    if n == 0 then []
    else
      ElemRoom(|mem|, at, e, n);
      [Load(mem, at, e)] + LoadElems(mem, at + Extent(e), e, n - 1)
  }

  /** Reading `Void` gives nil; a struct or array with a `Void` in it has no layout. */
  function ReadValue(mem: seq<byte>, at: nat, d: TypeDesc): Result<Value>
    requires Room(|mem|, at, d)
  {
    if d.Void? then Ok(Nil) else if !VoidFree(d) then Err(NoLayout) else Ok(Load(mem, at, d))
  }

  // ----- the frame -----------------------------------------------------------------------------------------

  /** The memories agree outside `[lo, hi)`. */
  ghost predicate Within(a: seq<byte>, b: seq<byte>, lo: nat, hi: nat) {
    |a| == |b| && forall k :: 0 <= k < |a| && !(lo <= k < hi) ==> a[k] == b[k]
  }

  /** A write, whether it succeeds or not, changes no byte outside the value's own. */
  lemma {:induction false} WriteFrame(mem: seq<byte>, at: nat, v: Value, d: TypeDesc)
    requires Room(|mem|, at, d)
    ensures Within(mem, WriteValue(mem, at, v, d).mem, at, if VoidFree(d) then at + Extent(d) else at)
    decreases d, 1
  {
    hide Within, RoundUp, WriteScalar, WriteFields, WriteElems, PlacesEnd, Put, Fits;
    var hi := if VoidFree(d) then at + Extent(d) else at;
    Untouched(mem, at, hi);
    match d
    case Void =>
    case Of(s) => ScalarFrame(mem, at, v, s);
    case Struct(fs) =>
      if VoidFree(d) && v.Elems? && |v.elems| == |fs| {
        StructRoom(|mem|, at, fs);
        FieldsFrame(mem, at, v.elems, fs, 0);
        Wider(mem, WriteFields(mem, at, v.elems, fs, 0).mem, at, at + PlacesEnd(fs, 0), hi);
      }
    case Array(e, n) =>
      if VoidFree(e) {
        ArrayRoom(|mem|, at, e, n);
        if ByteLike(e) && v.Bytes? {
          if |v.data| == n { PutFrame(mem, at, v.data); }
        } else if v.Elems? && |v.elems| == n {
          ElemsFrame(mem, at, v.elems, e);
        }
      }
  }

  lemma Untouched(mem: seq<byte>, lo: nat, hi: nat)
    ensures Within(mem, mem, lo, hi)
  {}

  lemma Wider(a: seq<byte>, b: seq<byte>, lo: nat, mid: nat, hi: nat)
    requires Within(a, b, lo, mid) && mid <= hi
    ensures Within(a, b, lo, hi)
  {}

  lemma Lower(a: seq<byte>, b: seq<byte>, lower: nat, lo: nat, hi: nat)
    requires Within(a, b, lo, hi) && lower <= lo
    ensures Within(a, b, lower, hi)
  {}

  lemma PutFrame(mem: seq<byte>, at: nat, bs: seq<byte>)
    requires at + |bs| <= |mem|
    ensures Within(mem, Put(mem, at, bs), at, at + |bs|)
  {}

  lemma ScalarFrame(mem: seq<byte>, at: nat, v: Value, s: Scalar)
    requires at + ScalarSize(s) <= |mem|
    ensures Within(mem, WriteScalar(mem, at, v, s).mem, at, at + ScalarSize(s))
  {}

  lemma {:induction false} FieldsFrame(mem: seq<byte>, at: nat, vs: seq<Value>, fs: seq<TypeDesc>, offset: nat)
    requires FieldsRoom(|mem|, at, fs, offset) && |vs| == |fs|
    ensures Within(mem, WriteFields(mem, at, vs, fs, offset).mem, at + offset, at + PlacesEnd(fs, offset))
    decreases fs, 0
  {
    hide RoundUp, AlignOf, WriteValue, Extent, Fits, Within;
    PlacesGrow(fs, offset);
    Untouched(mem, at + offset, at + PlacesEnd(fs, offset));
    if fs != [] {
      FieldRoom(|mem|, at, fs, offset);
      var o := RoundUp(offset, AlignOf(fs[0]));
      var end, hi := o + Extent(fs[0]), at + PlacesEnd(fs, offset);
      WriteFrame(mem, at + o, vs[0], fs[0]);
      PlacesGrow(fs[1..], end);
      var r := WriteValue(mem, at + o, vs[0], fs[0]);
      Lower(mem, r.mem, at + offset, at + o, at + end);
      if r.error.None? {
        FieldsFrame(r.mem, at, vs[1..], fs[1..], end);
        Chain(mem, r.mem, WriteFields(r.mem, at, vs[1..], fs[1..], end).mem, at + offset, at + end, hi);
      } else {
        Wider(mem, r.mem, at + offset, at + end, hi);
      }
    }
  }

  lemma Chain(a: seq<byte>, b: seq<byte>, c: seq<byte>, lo: nat, mid: nat, hi: nat)
    requires Within(a, b, lo, mid) && Within(b, c, mid, hi) && lo <= mid <= hi
    ensures Within(a, c, lo, hi)
  {}

  lemma {:induction false} ElemsFrame(mem: seq<byte>, at: nat, vs: seq<Value>, e: TypeDesc)
    requires ElemsRoom(|mem|, at, e, |vs|)
    ensures Within(mem, WriteElems(mem, at, vs, e).mem, at, at + Times(Extent(e), |vs|))
    decreases e, 2, |vs|
  {
    hide WriteValue, Extent, Fits, Within, Times;
    Untouched(mem, at, at + Times(Extent(e), |vs|));
    if vs != [] {
      ElemRoom(|mem|, at, e, |vs|);
      WriteFrame(mem, at, vs[0], e);
      var r := WriteValue(mem, at, vs[0], e);
      var end := at + Extent(e);
      OneMore(Extent(e), |vs|);
      if r.error.None? {
        ElemsFrame(r.mem, end, vs[1..], e);
        Chain(mem, r.mem, WriteElems(r.mem, end, vs[1..], e).mem, at, end, end + Times(Extent(e), |vs| - 1));
      } else {
        Wider(mem, r.mem, at, end, at + Times(Extent(e), |vs|));
      }
    }
  }

  /** Reading depends on the value's own bytes only. */
  lemma {:induction false} LoadIsLocal(a: seq<byte>, b: seq<byte>, at: nat, d: TypeDesc)
    requires VoidFree(d) && Room(|a|, at, d) && |a| == |b| && a[at..at + Extent(d)] == b[at..at + Extent(d)]
    ensures Load(a, at, d) == Load(b, at, d)
    decreases d, 1
  {
    hide RoundUp, LoadFields, LoadElems, PlacesEnd, Fits, Read, Decode;
    match d
    case Of(_) =>
    case Struct(fs) =>
      StructRoom(|a|, at, fs);
      PlacesGrow(fs, 0);
      Slices(a, b, at, at + Extent(d), at, at + PlacesEnd(fs, 0));
      LoadFieldsLocal(a, b, at, fs, 0);
    case Array(e, n) =>
      ArrayRoom(|a|, at, e, n);
      if !ByteLike(e) { LoadElemsLocal(a, b, at, e, n); }
  }

  lemma Slices(a: seq<byte>, b: seq<byte>, lo: nat, hi: nat, lo1: nat, hi1: nat)
    requires |a| == |b| && lo <= lo1 <= hi1 <= hi <= |a| && a[lo..hi] == b[lo..hi]
    ensures a[lo1..hi1] == b[lo1..hi1]
  {
    forall k | lo1 <= k < hi1 ensures a[k] == b[k] {
      assert a[lo..hi][k - lo] == b[lo..hi][k - lo];
    }
  }

  lemma {:induction false} LoadFieldsLocal(a: seq<byte>, b: seq<byte>, at: nat, fs: seq<TypeDesc>, offset: nat)
    requires FieldsRoom(|a|, at, fs, offset) && |a| == |b| && offset <= PlacesEnd(fs, offset)
    requires a[at + offset..at + PlacesEnd(fs, offset)] == b[at + offset..at + PlacesEnd(fs, offset)]
    ensures LoadFields(a, at, fs, offset) == LoadFields(b, at, fs, offset)
    decreases fs, 0
  {
    hide RoundUp, AlignOf, Load, Extent, Fits;
    if fs != [] {
      FieldRoom(|a|, at, fs, offset);
      var o := RoundUp(offset, AlignOf(fs[0]));
      var end := o + Extent(fs[0]);
      PlacesGrow(fs[1..], end);
      Slices(a, b, at + offset, at + PlacesEnd(fs, offset), at + o, at + end);
      Slices(a, b, at + offset, at + PlacesEnd(fs, offset), at + end, at + PlacesEnd(fs[1..], end));
      LoadIsLocal(a, b, at + o, fs[0]);
      LoadFieldsLocal(a, b, at, fs[1..], end);
    }
  }

  lemma {:induction false} LoadElemsLocal(a: seq<byte>, b: seq<byte>, at: nat, e: TypeDesc, n: nat)
    requires ElemsRoom(|a|, at, e, n) && |a| == |b|
    requires a[at..at + Times(Extent(e), n)] == b[at..at + Times(Extent(e), n)]
    ensures LoadElems(a, at, e, n) == LoadElems(b, at, e, n)
    decreases e, 2, n
  {
    hide Load, Extent, Fits, Times;
    if n > 0 {
      ElemRoom(|a|, at, e, n);
      OneMore(Extent(e), n);
      var end := at + Extent(e);
      Slices(a, b, at, at + Times(Extent(e), n), at, end);
      Slices(a, b, at, at + Times(Extent(e), n), end, end + Times(Extent(e), n - 1));
      LoadIsLocal(a, b, at, e);
      LoadElemsLocal(a, b, end, e, n - 1);
    }
  }

  // ----- the bytes of a scalar ---------------------------------------------------------------------------

  /** An integer is stored by its two's complement, least significant byte first. */
  lemma IntegerBytes(mem: seq<byte>, at: nat, v: Value, s: Scalar, i: nat)
    requires v.Integer? && ScalarAccepts(v, s) && (ReadSigned(s) || ReadUnsigned(s))
    requires at + ScalarSize(s) <= |mem| && i < ScalarSize(s)
    ensures WriteScalar(mem, at, v, s).mem[at + i] == v.n % Pow256(ScalarSize(s)) / Pow256(i) % 256
  {
    hide Encode, Pow256, ScalarSize;
    var k := ScalarSize(s);
    var r := WriteScalar(mem, at, v, s).mem;
    ByteOfNumber(Residue(v.n, k), k, i);
    assert r[at..at + k] == Encode(Residue(v.n, k), k);
    assert r[at + i] == r[at..at + k][i];
  }

  /** A boolean is one byte or four, true if any is nonzero; a string or pointer is the eight bytes of an address. */
  lemma BitsRead(mem: seq<byte>, at: nat, s: Scalar)
    requires at + ScalarSize(s) <= |mem|
    ensures s.Bool? ==> ScalarSize(s) == 1 && Load(mem, at, Of(s)) == Boolean(mem[at] != 0)
    ensures s.Bool32? ==> ScalarSize(s) == 4 && Load(mem, at, Of(s)) == Boolean(!Zeros(mem, at, 4))
    ensures s.Ptr? || s.Str? ==>
              && ScalarSize(s) == 8
              && Load(mem, at, Of(s)) == if Zeros(mem, at, 8) then Nil else Pointer(Decode(mem[at..at + 8]))
  {
    hide Decode;
    var k := ScalarSize(s);
    ZerosDecode(mem, at, k);
  }

  lemma ZerosDecode(mem: seq<byte>, at: nat, k: nat)
    requires at + k <= |mem|
    ensures Zeros(mem, at, k) <==> Decode(mem[at..at + k]) == 0
  {
    hide Decode;
    var bs := mem[at..at + k];
    DecodeZero(bs);
    assert |bs| == k;
    if Decode(bs) == 0 {
      forall i | at <= i < at + k ensures mem[i] == 0 { assert bs[i - at] == mem[i]; }
    }
    if Zeros(mem, at, k) {
      forall i | 0 <= i < |bs| ensures bs[i] == 0 { assert bs[i] == mem[at + i]; }
    }
  }

  /** Only nil and false are stored as a false boolean. */
  lemma BooleanBytes(mem: seq<byte>, at: nat, v: Value, s: Scalar, i: nat)
    requires (s.Bool? || s.Bool32?) && at + ScalarSize(s) <= |mem| && i < ScalarSize(s)
    ensures WriteScalar(mem, at, v, s).mem[at + i] == if i == 0 && v != Nil && v != Boolean(false) then 1 else 0
  {
    hide Encode, Put;
    var k, n := ScalarSize(s), if v != Nil && v != Boolean(false) then 1 else 0;
    Powers();
    ByteOfNumber(n, k, i);
    SmallByte(n, i);
    var r := WriteScalar(mem, at, v, s).mem;
    assert Residue(n, k) == n && r[at..at + k] == Encode(n, k);
    assert r[at + i] == r[at..at + k][i];
  }

  lemma SmallByte(n: nat, i: nat)
    requires n <= 1
    ensures n / Pow256(i) % 256 == if i == 0 then n else 0
  {
    if i > 0 { QuotientIs(n, Pow256(i), 0, n); }
  }

  /** A pointer, managed or not, is stored by its address, and reads back as it. */
  lemma AddressReadsBack(mem: seq<byte>, at: nat, v: Value, a: usize)
    requires at + 8 <= |mem| && (v == Pointer(a) || v == Managed(Some(a)))
    ensures var r := WriteScalar(mem, at, v, Ptr);
            r.error.None? && Load(r.mem, at, Of(Ptr)) == if a == 0 then Nil else Pointer(a)
  {
    hide Encode, Decode, Put;
    ScalarRoundTrip(mem, at, v, Ptr);
  }

  predicate Zeros(mem: seq<byte>, at: nat, k: nat)
    requires at + k <= |mem|
  {
    forall i :: at <= i < at + k ==> mem[i] == 0
  }

  // ----- the round trip ------------------------------------------------------------------------------------

  predicate ScalarAccepts(v: Value, s: Scalar) {
    match s
    case Bool => true
    case Bool32 => true
    case Ptr => v.Nil? || v.Pointer? || (v.Managed? && v.cell.Some?)
    case Str => v.Nil?
    case _ => v.Integer? && (Range(s).Some? ==> Range(s).value.0 <= v.n <= Range(s).value.1)
  }

  /** The values a type can hold. */
  predicate Accepts(v: Value, d: TypeDesc)
    decreases d, 1
  {
    match d
    case Void => false
    case Of(s) => ScalarAccepts(v, s)
    case Struct(fs) => v.Elems? && |v.elems| == |fs| && AcceptsFields(v.elems, fs)
    case Array(e, n) =>
      if ByteLike(e) && v.Bytes? then |v.data| == n
      else v.Elems? && |v.elems| == n && forall i :: 0 <= i < n ==> Accepts(v.elems[i], e)
  }

  predicate AcceptsFields(vs: seq<Value>, fs: seq<TypeDesc>)
    requires |vs| == |fs|
    decreases fs, 0
  {
    fs == [] || (Accepts(vs[0], fs[0]) && AcceptsFields(vs[1..], fs[1..]))
  }

  /** A write succeeds on exactly the values the type can hold. */
  lemma {:induction false} WriteSucceedsIff(mem: seq<byte>, at: nat, v: Value, d: TypeDesc)
    requires VoidFree(d) && Room(|mem|, at, d)
    ensures WriteValue(mem, at, v, d).error.None? <==> Accepts(v, d)
    decreases d, 1
  {
    match d
    case Of(_) =>
    case Struct(fs) =>
      StructRoom(|mem|, at, fs);
      if v.Elems? && |v.elems| == |fs| { FieldsSucceedIff(mem, at, v.elems, fs, 0); }
    case Array(e, n) =>
      ArrayRoom(|mem|, at, e, n);
      if v.Elems? && |v.elems| == n { ElemsSucceedIff(mem, at, v.elems, e); }
  }

  lemma {:induction false} FieldsSucceedIff(mem: seq<byte>, at: nat, vs: seq<Value>, fs: seq<TypeDesc>, offset: nat)
    requires FieldsRoom(|mem|, at, fs, offset) && |vs| == |fs|
    ensures WriteFields(mem, at, vs, fs, offset).error.None? <==> AcceptsFields(vs, fs)
    decreases fs, 0
  {
    hide RoundUp, AlignOf, WriteValue, Extent, Fits, Accepts;
    if fs != [] {
      FieldRoom(|mem|, at, fs, offset);
      var o := RoundUp(offset, AlignOf(fs[0]));
      WriteSucceedsIff(mem, at + o, vs[0], fs[0]);
      var r := WriteValue(mem, at + o, vs[0], fs[0]);
      if r.error.None? { FieldsSucceedIff(r.mem, at, vs[1..], fs[1..], o + Extent(fs[0])); }
    }
  }

  lemma {:induction false} ElemsSucceedIff(mem: seq<byte>, at: nat, vs: seq<Value>, e: TypeDesc)
    requires ElemsRoom(|mem|, at, e, |vs|)
    ensures WriteElems(mem, at, vs, e).error.None? <==> forall i :: 0 <= i < |vs| ==> Accepts(vs[i], e)
    decreases e, 2, |vs|
  {
    hide WriteValue, Extent, Fits, Accepts;
    if vs != [] {
      ElemRoom(|mem|, at, e, |vs|);
      WriteSucceedsIff(mem, at, vs[0], e);
      var r := WriteValue(mem, at, vs[0], e);
      if r.error.None? { ElemsSucceedIff(r.mem, at + Extent(e), vs[1..], e); }
    }
  }

  /** What a value reads back as: booleans by truth, pointers by address, byte arrays as bytes. */
  function ScalarCanon(v: Value, s: Scalar): Value
    requires ScalarAccepts(v, s)
  {
    match s
    case Bool => Boolean(Truthy(v))
    case Bool32 => Boolean(Truthy(v))
    case Ptr => if Address(v).value == 0 then Nil else Pointer(Address(v).value)
    case _ => v
  }

  function Canon(v: Value, d: TypeDesc): Value
    requires Accepts(v, d)
    decreases d, 1
  {
    match d
    case Of(s) => ScalarCanon(v, s)
    case Struct(fs) => Elems(CanonFields(v.elems, fs))
    case Array(e, n) =>
      if v.Bytes? then v
      else if ByteLike(e) then Bytes(seq(n, i requires 0 <= i < n => ByteOf(v.elems[i], e)))
      else Elems(seq(n, i requires 0 <= i < n => Canon(v.elems[i], e)))
  }

  function ByteOf(v: Value, e: TypeDesc): byte
    requires ByteLike(e) && Accepts(v, e)
  {
    v.n % 256
  }

  function CanonFields(vs: seq<Value>, fs: seq<TypeDesc>): seq<Value>
    requires |vs| == |fs| && AcceptsFields(vs, fs)
    decreases fs, 0
  {
    if fs == [] then [] else [Canon(vs[0], fs[0])] + CanonFields(vs[1..], fs[1..])
  }

  /** What is stored fits the type's bytes, signed or not as it is read. */
  lemma StoredFits(v: Value, s: Scalar)
    requires ScalarAccepts(v, s)
    ensures var n, p := Stored(v, s), Pow256(ScalarSize(s));
            n.Ok? && if ReadSigned(s) then 0 <= 2 * n.value + p && 2 * n.value < p else 0 <= n.value < p
  {
    Powers();
  }

  lemma ScalarRoundTrip(mem: seq<byte>, at: nat, v: Value, s: Scalar)
    requires at + ScalarSize(s) <= |mem| && ScalarAccepts(v, s)
    ensures var r := WriteScalar(mem, at, v, s);
            r.error.None? && Read(Decode(r.mem[at..at + ScalarSize(s)]), s) == ScalarCanon(v, s)
  {
    hide Pow256, Encode, Decode;
    var k := ScalarSize(s);
    var n := Stored(v, s).value;
    StoredFits(v, s);
    DecodeEncode(Residue(n, k), k);
    hide Range, ScalarSize;
    if ReadSigned(s) { SignedResidue(n, k); } else { ModIs(n, Pow256(k), 0, n); }
  }

  /**
    The round trip: a value written into memory as any nested type reads back as
    itself, with booleans by truth, pointers by address, unsigned 64-bit numbers
    by bit pattern and byte arrays as bytes.
  */
  lemma {:induction false} RoundTrip(mem: seq<byte>, at: nat, v: Value, d: TypeDesc)
    requires VoidFree(d) && Room(|mem|, at, d) && Accepts(v, d)
    ensures Load(WriteValue(mem, at, v, d).mem, at, d) == Canon(v, d)
    decreases d, 1
  {
    hide Read, Decode, WriteScalar, Within, WriteFields, WriteElems, LoadFields, LoadElems;
    match d
    case Of(s) => ScalarRoundTrip(mem, at, v, s);
    case Struct(fs) => StructRoom(|mem|, at, fs); FieldsRoundTrip(mem, at, v.elems, fs, 0);
    case Array(e, n) =>
      ArrayRoom(|mem|, at, e, n);
      if ByteLike(e) {
        if v.Elems? { BytesRoundTrip(mem, at, v.elems, e); }
      } else {
        ElemsRoundTrip(mem, at, v.elems, e);
      }
  }

  lemma {:induction false} FieldsRoundTrip(mem: seq<byte>, at: nat, vs: seq<Value>, fs: seq<TypeDesc>, offset: nat)
    requires FieldsRoom(|mem|, at, fs, offset) && |vs| == |fs| && AcceptsFields(vs, fs)
    ensures LoadFields(WriteFields(mem, at, vs, fs, offset).mem, at, fs, offset) == CanonFields(vs, fs)
    decreases fs, 0
  {
    hide RoundUp, AlignOf, WriteValue, Extent, Fits, Accepts, Load, Canon, Within;
    if fs != [] {
      FieldRoom(|mem|, at, fs, offset);
      var o := RoundUp(offset, AlignOf(fs[0]));
      var end := o + Extent(fs[0]);
      WriteSucceedsIff(mem, at + o, vs[0], fs[0]);
      RoundTrip(mem, at + o, vs[0], fs[0]);
      var r := WriteValue(mem, at + o, vs[0], fs[0]);
      var rest := WriteFields(r.mem, at, vs[1..], fs[1..], end).mem;
      FieldsRoundTrip(r.mem, at, vs[1..], fs[1..], end);
      FieldsFrame(r.mem, at, vs[1..], fs[1..], end);
      Outside(r.mem, rest, at + end, at + PlacesEnd(fs[1..], end), at + o, at + end);
      LoadIsLocal(r.mem, rest, at + o, fs[0]);
    }
  }

  lemma Outside(a: seq<byte>, b: seq<byte>, lo: nat, hi: nat, from: nat, to: nat)
    requires Within(a, b, lo, hi) && from <= to <= |a| && (to <= lo || hi <= from)
    ensures a[from..to] == b[from..to]
  {}

  lemma {:induction false} ElemsRoundTrip(mem: seq<byte>, at: nat, vs: seq<Value>, e: TypeDesc)
    requires ElemsRoom(|mem|, at, e, |vs|) && (forall i :: 0 <= i < |vs| ==> Accepts(vs[i], e))
    ensures LoadElems(WriteElems(mem, at, vs, e).mem, at, e, |vs|) ==
            seq(|vs|, i requires 0 <= i < |vs| => Canon(vs[i], e))
    decreases e, 2, |vs|
  {
    hide WriteValue, Extent, Fits, Accepts, Load, Canon, Within;
    if vs != [] {
      ElemRoom(|mem|, at, e, |vs|);
      var end := at + Extent(e);
      WriteSucceedsIff(mem, at, vs[0], e);
      RoundTrip(mem, at, vs[0], e);
      var r := WriteValue(mem, at, vs[0], e);
      var rest := WriteElems(r.mem, end, vs[1..], e).mem;
      ElemsRoundTrip(r.mem, end, vs[1..], e);
      ElemsFrame(r.mem, end, vs[1..], e);
      Outside(r.mem, rest, end, end + Times(Extent(e), |vs| - 1), at, end);
      LoadIsLocal(r.mem, rest, at, e);
    }
  }

  lemma {:induction false} BytesRoundTrip(mem: seq<byte>, at: nat, vs: seq<Value>, e: TypeDesc)
    requires ElemsRoom(|mem|, at, e, |vs|) && ByteLike(e) && (forall i :: 0 <= i < |vs| ==> Accepts(vs[i], e))
    ensures WriteElems(mem, at, vs, e).mem[at..at + |vs|] == seq(|vs|, i requires 0 <= i < |vs| => ByteOf(vs[i], e))
    decreases |vs|
  {
    hide WriteValue, Accepts, ByteOf;
    ByteExtent(e);
    if vs != [] {
      var r := WriteValue(mem, at, vs[0], e);
      var rest := WriteElems(r.mem, at + 1, vs[1..], e).mem;
      BytesRoundTrip(r.mem, at + 1, vs[1..], e);
      ElemsFrame(r.mem, at + 1, vs[1..], e);
      OneByte(mem, at, vs[0], e);
      assert rest[at] == r.mem[at];
      assert rest[at..at + |vs|] == [rest[at]] + rest[at + 1..at + 1 + (|vs| - 1)];
    }
  }

  lemma ByteExtent(e: TypeDesc)
    requires ByteLike(e)
    ensures VoidFree(e) && Fits(e) && Extent(e) == 1
  {}

  lemma OneByte(mem: seq<byte>, at: nat, v: Value, e: TypeDesc)
    requires ByteLike(e) && Accepts(v, e) && at < |mem|
    ensures var r := WriteValue(mem, at, v, e); r.error.None? && r.mem[at] == ByteOf(v, e)
  {
    Powers();
    assert Encode(v.n % 256, 1)[0] == v.n % 256;
    var bs := Encode(Residue(v.n, 1), 1);
    assert WriteValue(mem, at, v, e).mem[at..at + 1][0] == bs[0];
  }

  /** What is read back is accepted, and reading it back again changes nothing. */
  lemma {:induction false} CanonIsStable(v: Value, d: TypeDesc)
    requires Accepts(v, d)
    ensures Accepts(Canon(v, d), d) && Canon(Canon(v, d), d) == Canon(v, d)
    decreases d, 1
  {
    match d
    case Of(_) =>
    case Struct(fs) => CanonFieldsStable(v.elems, fs);
    case Array(e, n) =>
      if v.Elems? && !ByteLike(e) {
        forall i | 0 <= i < n
            ensures Accepts(Canon(v.elems[i], e), e) && Canon(Canon(v.elems[i], e), e) == Canon(v.elems[i], e) {
          CanonIsStable(v.elems[i], e);
        }
      }
  }

  lemma {:induction false} CanonFieldsStable(vs: seq<Value>, fs: seq<TypeDesc>)
    requires |vs| == |fs| && AcceptsFields(vs, fs)
    ensures var cs := CanonFields(vs, fs);
            |cs| == |fs| && AcceptsFields(cs, fs) && CanonFields(cs, fs) == cs
    decreases fs, 0
  {
    if fs != [] {
      CanonIsStable(vs[0], fs[0]);
      CanonFieldsStable(vs[1..], fs[1..]);
    }
  }

  lemma ResidueOfSigned(u: nat, k: nat)
    requires u < Pow256(k)
    ensures Residue(AsSigned(u, k), k) == u && Residue(u, k) == u
  {
    hide Pow256;
    ModIs(u, Pow256(k), 0, u);
    ModIs(u - Pow256(k), Pow256(k), -1, u);
  }

  lemma StoredRead(u: nat, s: Scalar)
    requires u < Pow256(ScalarSize(s)) && !s.Bool? && !s.Bool32? && !s.Str?
    ensures Stored(Read(u, s), s) == Ok(if ReadSigned(s) then AsSigned(u, ScalarSize(s)) else u)
  {
    Powers();
  }

  lemma PutBack(mem: seq<byte>, at: nat, k: nat)
    requires at + k <= |mem|
    ensures Put(mem, at, mem[at..at + k]) == mem
  {}

  /** Any bits an integer scalar holds survive being read and written back, the unsigned 64-bit types included. */
  lemma LoadThenStore(mem: seq<byte>, at: nat, s: Scalar)
    requires at + ScalarSize(s) <= |mem| && !s.Bool? && !s.Bool32? && !s.Str?
    ensures WriteScalar(mem, at, Read(Decode(mem[at..at + ScalarSize(s)]), s), s) == Wrote(mem, None)
  {
    hide Pow256, Encode, Decode, Put, Residue, AsSigned;
    var k := ScalarSize(s);
    var bs := mem[at..at + k];
    var u := Decode(bs);
    EncodeDecode(bs);
    ResidueOfSigned(u, k);
    StoredRead(u, s);
    PutBack(mem, at, k);
  }

  /** Writing one field leaves every other field as it was. */
  lemma FieldsIndependent(mem: seq<byte>, at: nat, fs: seq<TypeDesc>, i: nat, j: nat, v: Value)
    requires FieldsRoom(|mem|, at, fs, 0) && i < |fs| && j < |fs| && i != j
    ensures var o := Places(fs, 0);
            && Room(|mem|, at + o[i], fs[i]) && Room(|mem|, at + o[j], fs[j])
            && Load(WriteValue(mem, at + o[j], v, fs[j]).mem, at + o[i], fs[i]) == Load(mem, at + o[i], fs[i])
  {
    hide Load, WriteValue, Extent, Places, PlacesEnd, Within;
    var o := Places(fs, 0);
    PlaceBounds(fs, 0, i);
    PlaceBounds(fs, 0, j);
    PlacesApart(fs, 0, i, j);
    WriteFrame(mem, at + o[j], v, fs[j]);
    var after := WriteValue(mem, at + o[j], v, fs[j]).mem;
    Outside(mem, after, at + o[j], at + o[j] + Extent(fs[j]), at + o[i], at + o[i] + Extent(fs[i]));
    LoadIsLocal(mem, after, at + o[i], fs[i]);
  }

  lemma {:induction false} PlaceBounds(fs: seq<TypeDesc>, offset: nat, i: nat)
    requires AllVoidFree(fs) && i < |fs|
    ensures offset <= Places(fs, offset)[i] && Places(fs, offset)[i] + Extent(fs[i]) <= PlacesEnd(fs, offset)
    decreases fs
  {
    hide RoundUp, Extent, AlignOf;
    var end := RoundUp(offset, AlignOf(fs[0])) + Extent(fs[0]);
    PlacesGrow(fs[1..], end);
    if i > 0 { PlaceBounds(fs[1..], end, i - 1); }
  }

  lemma {:induction false} PlacesApart(fs: seq<TypeDesc>, offset: nat, i: nat, j: nat)
    requires AllVoidFree(fs) && i < |fs| && j < |fs| && i != j
    ensures var o := Places(fs, offset); o[i] + Extent(fs[i]) <= o[j] || o[j] + Extent(fs[j]) <= o[i]
    decreases fs
  {
    hide RoundUp, Extent, AlignOf;
    var end := RoundUp(offset, AlignOf(fs[0])) + Extent(fs[0]);
    if i == 0 {
      PlaceBounds(fs[1..], end, j - 1);
    } else if j == 0 {
      PlaceBounds(fs[1..], end, i - 1);
    } else {
      PlacesApart(fs[1..], end, i - 1, j - 1);
    }
  }

  /** Writing one scalar of a type, at any depth, in structs and arrays alike, leaves every other scalar as it was. */
  lemma LeavesIndependent(mem: seq<byte>, at: nat, d: TypeDesc, i: nat, j: nat, v: Value)
    requires VoidFree(d) && at + Extent(d) <= |mem| && i < |Leaves(d, at)| && j < |Leaves(d, at)| && i != j
    ensures var x, y := Leaves(d, at)[i], Leaves(d, at)[j];
            && x.0 + ScalarSize(x.1) <= |mem| && y.0 + ScalarSize(y.1) <= |mem|
            && var after := WriteScalar(mem, x.0, v, x.1).mem;
               Read(Decode(after[y.0..y.0 + ScalarSize(y.1)]), y.1) ==
                   Read(Decode(mem[y.0..y.0 + ScalarSize(y.1)]), y.1)
  {
    hide Leaves, Extent, Decode, Read, WriteScalar;
    LeavesInOrder(d, at);
    var x, y := Leaves(d, at)[i], Leaves(d, at)[j];
    ScalarFrame(mem, x.0, v, x.1);
    Outside(mem, WriteScalar(mem, x.0, v, x.1).mem, x.0, x.0 + ScalarSize(x.1), y.0, y.0 + ScalarSize(y.1));
  }
}
