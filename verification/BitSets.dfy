/**
  The bit vector of the liveness analysis: 64-bit words updated in place.
  `Members` is the set it stands for; each operation is proved to do to that set
  what its name says, and equal vectors are equal sets.
*/
module BitSets {
  import opened Bits

  type word = w: nat | w < Pow2(64) witness 0

  /** Whether a set of words holds `bit`; no word holds a bit past its end. */
  predicate Holds(words: seq<word>, bit: nat) {
    bit / 64 < |words| && Bit(words[bit / 64], bit % 64)
  }

  ghost function MembersOf(words: seq<word>): set<nat> {
    set bit: nat | bit < 64 * |words| && Holds(words, bit)
  }

  lemma WordOf(k: nat, b: nat)
    requires b < 64
    ensures (64 * k + b) / 64 == k && (64 * k + b) % 64 == b
  {}

  /** Vectors of one length are equal exactly when they stand for the same set. */
  lemma WordsExtensional(a: seq<word>, b: seq<word>)
    requires |a| == |b|
    ensures a == b <==> MembersOf(a) == MembersOf(b)
  {
    if MembersOf(a) == MembersOf(b) {
      forall k | 0 <= k < |a| ensures a[k] == b[k] {
        forall i | 0 <= i < 64 ensures Bit(a[k], i) == Bit(b[k], i) {
          WordOf(k, i);
          assert 64 * k + i in MembersOf(a) <==> 64 * k + i in MembersOf(b);
        }
        SameBits(64, a[k], b[k]);
      }
    }
  }

  class BitSet {
    var words: seq<word>

    ghost function Members(): set<nat>
      reads this
    {
      MembersOf(words)
    }

    ghost predicate Covers(bit: nat)
      reads this
    {
      bit < 64 * |words|
    }

    constructor (numBits: nat)
      ensures Members() == {} && |words| == (numBits + 63) / 64
      ensures forall bit: nat :: bit < numBits ==> Covers(bit)
    {
      words := seq((numBits + 63) / 64, _ => 0);
      new;
      forall bit: nat | bit < 64 * |words| ensures !Holds(words, bit) { BitOfZero(bit % 64); }
    }

    method Set(bit: nat)
      modifies this
      ensures |words| == |old(words)|
      ensures Members() == old(Members()) + if old(Covers(bit)) then {bit} else {}
    {
      var word := bit / 64;
      if word < |words| {
        OrStays(64, words[word], Shifted(bit % 64));
        var was := words;
        words := words[word := Or(words[word], Shifted(bit % 64))];
        OnlyBitSet(was, words, bit);
      }
    }

    method Clear(bit: nat)
      modifies this
      ensures |words| == |old(words)| && Members() == old(Members()) - {bit}
    {
      var word := bit / 64;
      if word < |words| {
        AndStays(words[word], Not(64, Shifted(bit % 64)));
        var was := words;
        words := words[word := And(words[word], Not(64, Shifted(bit % 64)))];
        OnlyBitCleared(was, words, bit);
      }
    }

    method Contains(bit: nat) returns (r: bool)
      ensures r <==> bit in Members()
    {
      var word := bit / 64;
      if word < |words| {
        MaskedBit(words[word], bit % 64);
        r := And(words[word], Shifted(bit % 64)) != 0;
      } else {
        r := false;
      }
    }

    method UnionWith(other: BitSet) returns (changed: bool)
      modifies this
      ensures |words| == |old(words)| && (other != this ==> other.words == old(other.words))
      ensures Members() == old(Members()) + set bit | bit in old(other.Members()) && old(Covers(bit))
      ensures changed <==> Members() != old(Members())
    {
      hide Or, Pow2, MembersOf;
      changed := false;
      ghost var was := words;
      var others := other.words;
      var i := 0;
      while i < |others|
        invariant 0 <= i <= |others| && |words| == |was|
        invariant forall k :: 0 <= k < |words| ==> words[k] == if k < i then Or(was[k], others[k]) else was[k]
        invariant changed <==> words != was
      {
        if i < |words| {
          var before := words[i];
          OrStays(64, words[i], others[i]);
          words := words[i := Or(words[i], others[i])];
          if words[i] != before { changed := true; }
        }
        i := i + 1;
      }
      UnionOfWords(was, others, words);
      WordsExtensional(was, words);
    }

    /** The bits, in increasing order. */
    method Indices() returns (r: seq<nat>)
      ensures forall bit :: bit in r <==> bit in Members()
      ensures forall i, j :: 0 <= i < j < |r| ==> r[i] < r[j]
    {
      hide Pow2, And, Listed, Bit;
      NothingListed(words);
      r := [];
      var k := 0;
      while k < |words|
        invariant 0 <= k <= |words| && Listed(r, words, 64 * k)
      {
        var b := 0;
        while b < 64
          invariant 0 <= b <= 64 && Listed(r, words, 64 * k + b)
        {
          WordOf(k, b);
          MaskedBit(words[k], b);
          ListedNext(r, words, 64 * k + b);
          if And(words[k], Shifted(b)) != 0 { r := r + [64 * k + b]; }
          b := b + 1;
        }
        k := k + 1;
      }
      AllListed(r, words);
    }

    method IsEmpty() returns (r: bool)
      ensures r <==> Members() == {}
    {
      r := true;
      var i := 0;
      while i < |words|
        invariant 0 <= i <= |words| && (r <==> forall k :: 0 <= k < i ==> words[k] == 0)
      {
        if words[i] != 0 { r := false; }
        i := i + 1;
      }
      EmptyWords(words);
    }
  }

  /** The bits below `end`, in increasing order. */
  ghost predicate Listed(r: seq<nat>, words: seq<word>, end: nat) {
    && (forall bit: nat :: bit in r <==> bit < end && Holds(words, bit))
    && (forall i, j :: 0 <= i < j < |r| ==> r[i] < r[j])
  }

  lemma NothingListed(words: seq<word>)
    ensures Listed([], words, 0)
  {}

  lemma AllListed(r: seq<nat>, words: seq<word>)
    requires Listed(r, words, 64 * |words|)
    ensures (forall bit :: bit in r <==> bit in MembersOf(words)) && forall i, j :: 0 <= i < j < |r| ==> r[i] < r[j]
  {}

  lemma ListedNext(r: seq<nat>, words: seq<word>, end: nat)
    requires Listed(r, words, end)
    ensures Listed(if Holds(words, end) then r + [end] else r, words, end + 1)
  {
    hide Holds;
    assert forall i :: 0 <= i < |r| ==> r[i] in r;
    var next := r + [end];
    assert forall bit :: bit in next <==> bit in r || bit == end;
  }

  function Shifted(bit: nat): word
    requires bit < 64
  {
    PowGrows(bit, 63);
    Pow2(bit)
  }

  lemma OnlyBitSet(was: seq<word>, now: seq<word>, bit: nat)
    requires bit / 64 < |was| && |now| == |was|
    requires forall k :: 0 <= k < |was| ==> now[k] == if k == bit / 64 then Or(was[k], Pow2(bit % 64)) else was[k]
    ensures MembersOf(now) == MembersOf(was) + {bit}
  {
    forall b: nat | b < 64 * |was| ensures Holds(now, b) <==> Holds(was, b) || b == bit {
      if b / 64 == bit / 64 {
        BitOfOr(was[b / 64], Pow2(bit % 64), b % 64);
        BitOfPow(bit % 64, b % 64);
      }
    }
  }

  lemma OnlyBitCleared(was: seq<word>, now: seq<word>, bit: nat)
    requires bit / 64 < |was| && |now| == |was|
    requires forall k :: 0 <= k < |was| ==>
             now[k] == if k == bit / 64 then And(was[k], Not(64, Shifted(bit % 64))) else was[k]
    ensures MembersOf(now) == MembersOf(was) - {bit}
  {
    forall b: nat | b < 64 * |was| ensures Holds(now, b) <==> Holds(was, b) && b != bit {
      if b / 64 == bit / 64 {
        BitOfAnd(was[b / 64], Not(64, Shifted(bit % 64)), b % 64);
        BitOfNot(64, Shifted(bit % 64), b % 64);
        BitOfPow(bit % 64, b % 64);
      }
    }
  }

  lemma UnionOfWords(a: seq<word>, b: seq<word>, c: seq<word>)
    requires |c| == |a|
    requires forall k :: 0 <= k < |a| ==> c[k] == if k < |b| then Or(a[k], b[k]) else a[k]
    ensures MembersOf(c) == MembersOf(a) + set bit | bit in MembersOf(b) && bit < 64 * |a|
  {
    forall bit: nat | bit < 64 * |a| ensures Holds(c, bit) <==> Holds(a, bit) || Holds(b, bit) {
      var k := bit / 64;
      if k < |b| { BitOfOr(a[k], b[k], bit % 64); }
    }
  }

  lemma EmptyWords(words: seq<word>)
    ensures (forall k :: 0 <= k < |words| ==> words[k] == 0) <==> MembersOf(words) == {}
  {
    var zeros: seq<word> := seq(|words|, _ => 0);
    forall bit: nat | bit < 64 * |zeros| ensures !Holds(zeros, bit) { BitOfZero(bit % 64); }
    assert MembersOf(zeros) == {};
    WordsExtensional(words, zeros);
    assert words == zeros <==> forall k :: 0 <= k < |words| ==> words[k] == 0;
  }
}
