/**
  The two walks over C memory as the source runs them: a recursive writer and a
  recursive reader, with loops over struct fields and array elements at computed
  offsets, storing through a pointer. Each is proved to do to the bytes exactly
  what the functions of `FfiMemory` say.
*/
module FfiMarshal {
  import opened Options
  import opened Bits
  import opened FfiLayout
  import opened FfiMemory

  method StoreBytes(mem: array<byte>, at: nat, bs: seq<byte>)
    requires at + |bs| <= mem.Length
    modifies mem
    ensures mem[..] == Put(old(mem[..]), at, bs)
  {
    var i := 0;
    while i < |bs|
      invariant 0 <= i <= |bs|
      invariant mem[..] == Put(old(mem[..]), at, bs[..i])
    {
      mem[at + i] := bs[i];
      i := i + 1;
    }
    assert bs[..i] == bs;
  }

  method WriteScalarTo(mem: array<byte>, at: nat, v: Value, s: Scalar) returns (error: Option<Error>)
    requires at + ScalarSize(s) <= mem.Length
    modifies mem
    ensures Wrote(mem[..], error) == WriteScalar(old(mem[..]), at, v, s)
  {
    var n := Stored(v, s);
    if n.Err? { return Some(n.error); }
    StoreBytes(mem, at, Encode(Residue(n.value, ScalarSize(s)), ScalarSize(s)));
    error := None;
  }

  method WriteTo(mem: array<byte>, at: nat, v: Value, d: TypeDesc) returns (error: Option<Error>)
    requires Room(mem.Length, at, d)
    modifies mem
    ensures Wrote(mem[..], error) == WriteValue(old(mem[..]), at, v, d)
    decreases d, 1
  {
    hide Extent, Fits, Places, PlacesEnd, Put, WriteFields, WriteElems, WriteScalar;
    match d
    case Void => return Some(VoidWrite);
    case Of(s) => ScalarRoom(mem.Length, at, s); error := WriteScalarTo(mem, at, v, s);
    case Struct(fs) =>
      var l := ComputeFieldOffsets(fs);
      SizeKnown(d);
      if l.None? { return Some(NoLayout); }
      StructRoom(mem.Length, at, fs);
      LayoutOf(fs, mem.Length, at);
      if !v.Elems? { return Some(WrongType); }
      if |v.elems| != |fs| { return Some(WrongCount); }
      error := WriteFieldsTo(mem, at, v.elems, fs, l.value.offsets);
    case Array(e, n) =>
      var size := SizeOf(e);
      SizeKnown(e);
      if size.None? { return Some(NoLayout); }
      ArrayRoom(mem.Length, at, e, n);
      if n > 0 { SizeIsExtent(e); }
      if ByteLike(e) && v.Bytes? {
        if |v.data| != n { return Some(WrongCount); }
        StoreBytes(mem, at, v.data);
        return None;
      }
      if !v.Elems? { return Some(WrongType); }
      if |v.elems| != n { return Some(WrongCount); }
      error := WriteElemsTo(mem, at, v.elems, e, size.value);
  }

  lemma ScalarRoom(len: nat, at: nat, s: Scalar)
    requires Room(len, at, Of(s))
    ensures at + ScalarSize(s) <= len
  {}

  lemma LayoutOf(fs: seq<TypeDesc>, len: nat, at: nat)
    requires AllVoidFree(fs) && Room(len, at, Struct(fs))
    ensures FieldOffsets(fs).Some? && FieldOffsets(fs).value.offsets == Places(fs, 0)
  {
    OffsetsArePlaces(fs);
  }

  method WriteFieldsTo(mem: array<byte>, at: nat, vs: seq<Value>, fs: seq<TypeDesc>, offsets: seq<nat>)
    returns (error: Option<Error>)
    requires FieldsRoom(mem.Length, at, fs, 0) && |vs| == |fs| && offsets == Places(fs, 0)
    modifies mem
    ensures Wrote(mem[..], error) == WriteFields(old(mem[..]), at, vs, fs, 0)
    decreases fs, 0
  {
    hide Extent, Fits, WriteValue, RoundUp, AlignOf, Room;
    ghost var offset: nat := 0;
    var i := 0;
    assert fs[0..] == fs && vs[0..] == vs && offsets[0..] == offsets;
    while i < |fs|
      invariant 0 <= i <= |fs| && AllVoidFree(fs[i..]) && FieldsRoom(mem.Length, at, fs[i..], offset)
      invariant Places(fs[i..], offset) == offsets[i..]
      invariant WriteFields(mem[..], at, vs[i..], fs[i..], offset) == WriteFields(old(mem[..]), at, vs, fs, 0)
    {
      ghost var rest := fs[i..];
      assert rest[0] == fs[i] && rest[1..] == fs[i + 1..] && vs[i..][0] == vs[i] && vs[i..][1..] == vs[i + 1..];
      assert offsets[i..][0] == offsets[i] && offsets[i..][1..] == offsets[i + 1..];
      FieldRoom(mem.Length, at, rest, offset);
      error := WriteTo(mem, at + offsets[i], vs[i], fs[i]);
      if error.Some? { return; }
      offset := RoundUp(offset, AlignOf(rest[0])) + Extent(rest[0]);
      i := i + 1;
    }
    error := None;
  }

  method WriteElemsTo(mem: array<byte>, at: nat, vs: seq<Value>, e: TypeDesc, size: nat) returns (error: Option<Error>)
    requires ElemsRoom(mem.Length, at, e, |vs|) && (vs != [] ==> size == Extent(e))
    modifies mem
    ensures Wrote(mem[..], error) == WriteElems(old(mem[..]), at, vs, e)
    decreases e, 2
  {
    hide Extent, Fits, WriteValue, Room, ElemsRoom, Times;
    var i := 0;
    TimesZero(size);
    assert vs[0..] == vs;
    while i < |vs|
      invariant 0 <= i <= |vs| && ElemsRoom(mem.Length, at + Times(size, i), e, |vs| - i)
      invariant WriteElems(mem[..], at + Times(size, i), vs[i..], e) == WriteElems(old(mem[..]), at, vs, e)
    {
      assert vs[i..][0] == vs[i] && vs[i..][1..] == vs[i + 1..];
      OneMore(size, i + 1);
      ElemRoom(mem.Length, at + Times(size, i), e, |vs| - i);
      error := WriteTo(mem, at + Times(size, i), vs[i], e);
      if error.Some? { return; }
      i := i + 1;
    }
    error := None;
  }

  method ReadFrom(mem: array<byte>, at: nat, d: TypeDesc) returns (r: Result<Value>)
    requires Room(mem.Length, at, d)
    ensures r == ReadValue(mem[..], at, d)
    decreases d, 1
  {
    hide Extent, Fits, Places, PlacesEnd, LoadFields, LoadElems, Read, Decode;
    match d
    case Void => return Ok(Nil);
    case Of(s) =>
      ScalarRoom(mem.Length, at, s);
      r := Ok(Read(Decode(mem[at..at + ScalarSize(s)]), s));
      assert mem[..][at..at + ScalarSize(s)] == mem[at..at + ScalarSize(s)];
    case Struct(fs) =>
      var l := ComputeFieldOffsets(fs);
      SizeKnown(d);
      if l.None? { return Err(NoLayout); }
      StructRoom(mem.Length, at, fs);
      LayoutOf(fs, mem.Length, at);
      var values := ReadFieldsFrom(mem, at, fs, l.value.offsets);
      r := Ok(Elems(values));
    case Array(e, n) =>
      var size := SizeOf(e);
      SizeKnown(e);
      if size.None? { return Err(NoLayout); }
      ArrayRoom(mem.Length, at, e, n);
      if n > 0 { SizeIsExtent(e); }
      if ByteLike(e) {
        assert mem[..][at..at + n] == mem[at..at + n];
        return Ok(Bytes(mem[at..at + n]));
      }
      var values := ReadElemsFrom(mem, at, e, n, size.value);
      r := Ok(Elems(values));
  }

  method ReadFieldsFrom(mem: array<byte>, at: nat, fs: seq<TypeDesc>, offsets: seq<nat>) returns (values: seq<Value>)
    requires FieldsRoom(mem.Length, at, fs, 0) && offsets == Places(fs, 0)
    ensures values == LoadFields(mem[..], at, fs, 0)
    decreases fs, 0
  {
    hide Extent, Fits, Load, RoundUp, AlignOf, Room;
    values := [];
    ghost var offset: nat := 0;
    var i := 0;
    assert fs[0..] == fs && offsets[0..] == offsets;
    while i < |fs|
      invariant 0 <= i <= |fs| && AllVoidFree(fs[i..]) && FieldsRoom(mem.Length, at, fs[i..], offset)
      invariant Places(fs[i..], offset) == offsets[i..]
      invariant values + LoadFields(mem[..], at, fs[i..], offset) == LoadFields(mem[..], at, fs, 0)
    {
      ghost var rest := fs[i..];
      assert rest[0] == fs[i] && rest[1..] == fs[i + 1..];
      assert offsets[i..][0] == offsets[i] && offsets[i..][1..] == offsets[i + 1..];
      FieldRoom(mem.Length, at, rest, offset);
      var v := ReadFrom(mem, at + offsets[i], fs[i]);
      ReadsValue(mem[..], at + offsets[i], fs[i]);
      values := values + [v.value];
      offset := RoundUp(offset, AlignOf(rest[0])) + Extent(rest[0]);
      i := i + 1;
    }
  }

  lemma LoadNext(values: seq<Value>, mem: seq<byte>, at: nat, e: TypeDesc, n: nat)
    requires ElemsRoom(|mem|, at, e, n) && n > 0
    ensures Room(|mem|, at, e) && ElemsRoom(|mem|, at + Extent(e), e, n - 1)
    ensures values + LoadElems(mem, at, e, n) == values + [Load(mem, at, e)] + LoadElems(mem, at + Extent(e), e, n - 1)
  {
    hide Extent, Fits, Load, Room, ElemsRoom;
    ElemRoom(|mem|, at, e, n);
  }

  lemma LoadNone(values: seq<Value>, mem: seq<byte>, at: nat, e: TypeDesc)
    requires ElemsRoom(|mem|, at, e, 0)
    ensures values + LoadElems(mem, at, e, 0) == values
  {}

  method ReadElemsFrom(mem: array<byte>, at: nat, e: TypeDesc, n: nat, size: nat) returns (values: seq<Value>)
    requires ElemsRoom(mem.Length, at, e, n) && (n > 0 ==> size == Extent(e))
    ensures values == LoadElems(mem[..], at, e, n)
    decreases e, 2
  {
    hide Extent, Fits, Load, LoadElems, Room, ElemsRoom, Times;
    values := [];
    var i := 0;
    TimesZero(size);
    while i < n
      invariant 0 <= i <= n && ElemsRoom(mem.Length, at + Times(size, i), e, n - i)
      invariant values + LoadElems(mem[..], at + Times(size, i), e, n - i) == LoadElems(mem[..], at, e, n)
    {
      OneMore(size, i + 1);
      ElemRoom(mem.Length, at + Times(size, i), e, n - i);
      var v := ReadFrom(mem, at + Times(size, i), e);
      ReadsValue(mem[..], at + Times(size, i), e);
      LoadNext(values, mem[..], at + Times(size, i), e, n - i);
      values := values + [v.value];
      i := i + 1;
    }
    LoadNone(values, mem[..], at + Times(size, i), e);
  }

  /** Below the top no read fails: a laid-out type holds no `Void`. */
  lemma ReadsValue(mem: seq<byte>, at: nat, d: TypeDesc)
    requires VoidFree(d) && Room(|mem|, at, d)
    ensures ReadValue(mem, at, d) == Ok(Load(mem, at, d))
  {}

  /** Write, then read, through the two walks. */
  method WriteThenRead(mem: array<byte>, at: nat, v: Value, d: TypeDesc) returns (r: Result<Value>)
    requires VoidFree(d) && Room(mem.Length, at, d) && Accepts(v, d)
    modifies mem
    ensures r == Ok(Canon(v, d)) && Within(old(mem[..]), mem[..], at, at + Extent(d))
  {
    hide WriteValue, Load, ReadValue, Canon, Extent, Fits, Accepts, Within;
    WriteSucceedsIff(mem[..], at, v, d);
    RoundTrip(mem[..], at, v, d);
    WriteFrame(mem[..], at, v, d);
    var _ := WriteTo(mem, at, v, d);
    r := ReadFrom(mem, at, d);
    ReadsValue(mem[..], at, d);
  }
}
