/** Telegram voice waveforms: values of five bits packed into a byte stream across byte boundaries. */
module Waveform {

  type Byte = bv8

  // ----- Bits of a byte -----

  function Mask(k: nat): Byte
    requires k < 8
  {
    if k == 0 then 1 else if k == 1 then 2 else if k == 2 then 4 else if k == 3 then 8
    else if k == 4 then 16 else if k == 5 then 32 else if k == 6 then 64 else 128
  }

  predicate Bit(x: Byte, k: nat)
    requires k < 8
  {
    x & Mask(k) != 0
  }

  lemma OrBit(x: Byte, y: Byte, k: nat)
    requires k < 8
    ensures Bit(x | y, k) <==> Bit(x, k) || Bit(y, k)
  {
  }

  lemma ShiftLeftBit(v: Byte, s: nat, k: nat)
    requires s <= 8 && k < 8
    ensures Bit(v << s, k) <==> k >= s && Bit(v, k - s)
  {
    if s == 0 {} else if s == 1 {} else if s == 2 {} else if s == 3 {} else if s == 4 {}
    else if s == 5 {} else if s == 6 {} else if s == 7 {} else {}
  }

  lemma ShiftRightBit(v: Byte, s: nat, k: nat)
    requires s <= 8 && k < 8
    ensures Bit(v >> s, k) <==> k + s < 8 && Bit(v, k + s)
  {
    if s == 0 {} else if s == 1 {} else if s == 2 {} else if s == 3 {} else if s == 4 {}
    else if s == 5 {} else if s == 6 {} else if s == 7 {} else {}
  }

  lemma LowFiveBits(v: Byte, k: nat)
    requires k < 8
    ensures Bit(v & 31, k) <==> k < 5 && Bit(v, k)
    ensures v & 31 < 32
    ensures v < 32 && k >= 5 ==> !Bit(v, k)
  {
  }

  lemma SameBits(x: Byte, y: Byte)
    requires forall k :: 0 <= k < 8 ==> Bit(x, k) == Bit(y, k)
    ensures x == y
  {
    assert Bit(x, 0) == Bit(y, 0) && Bit(x, 1) == Bit(y, 1) && Bit(x, 2) == Bit(y, 2) && Bit(x, 3) == Bit(y, 3);
    assert Bit(x, 4) == Bit(y, 4) && Bit(x, 5) == Bit(y, 5) && Bit(x, 6) == Bit(y, 6) && Bit(x, 7) == Bit(y, 7);
  }

  lemma SmallInteger(v: int)
    requires 0 <= v < 32
    ensures (v as Byte) as int == v && (v as Byte) < 32
  {
  }

  lemma SmallByte(v: Byte)
    requires v < 32
    ensures 0 <= v as int < 32 && (v as int) as Byte == v
  {
  }

  // ----- The format -----

  /** Bit `n` of the stream that the values spell, five bits each, lowest first. */
  predicate ValueBit(values: seq<Byte>, n: nat) {
    n / 5 < |values| && Bit(values[n / 5], n % 5)
  }

  /** Bit `n` of a stream of bytes, lowest first. */
  predicate ByteBit(bytes: seq<Byte>, n: nat) {
    n / 8 < |bytes| && Bit(bytes[n / 8], n % 8)
  }

  predicate FiveBits(values: seq<Byte>) {
    forall i :: 0 <= i < |values| ==> values[i] < 32
  }

  /** `bytes` is the shortest stream that holds the values. */
  ghost predicate Packs(values: seq<Byte>, bytes: seq<Byte>) {
    |bytes| == (|values| * 5 + 7) / 8 && forall n: nat :: ByteBit(bytes, n) <==> ValueBit(values, n)
  }

  /** `values` are the whole values in the stream. */
  ghost predicate Unpacks(bytes: seq<Byte>, values: seq<Byte>) {
    |values| == |bytes| * 8 / 5 && FiveBits(values)
    && forall n: nat :: n < |values| * 5 ==> (ValueBit(values, n) <==> ByteBit(bytes, n))
  }

  /** Unpacking what was packed gives the values followed only by zeros. */
  lemma UnpackPacked(values: seq<Byte>, bytes: seq<Byte>, values': seq<Byte>)
    requires FiveBits(values) && Packs(values, bytes) && Unpacks(bytes, values')
    ensures |values| <= |values'| <= |values| + 1
    ensures forall i :: 0 <= i < |values'| ==> values'[i] == if i < |values| then values[i] else 0
  {
    forall i | 0 <= i < |values'|
      ensures values'[i] == if i < |values| then values[i] else 0
    {
      var v := if i < |values| then values[i] else 0;
      forall k | 0 <= k < 8
        ensures Bit(values'[i], k) == Bit(v, k)
      {
        LowFiveBits(values'[i], k);
        LowFiveBits(v, k);
        if k < 5 {
          var n := 5 * i + k;
          assert n / 5 == i && n % 5 == k;
          assert ValueBit(values', n) <==> ByteBit(bytes, n);
          assert ByteBit(bytes, n) <==> ValueBit(values, n);
        }
      }
      SameBits(values'[i], v);
    }
  }

  lemma ByteBitAt(bytes: seq<Byte>, i: nat, k: nat)
    requires i < |bytes| && k < 8
    ensures ByteBit(bytes, 8 * i + k) <==> Bit(bytes[i], k)
  {
    assert (8 * i + k) / 8 == i && (8 * i + k) % 8 == k;
  }

  lemma SameStream(bytes: seq<Byte>, bytes': seq<Byte>)
    requires |bytes'| == |bytes| && forall n: nat :: ByteBit(bytes', n) <==> ByteBit(bytes, n)
    ensures bytes' == bytes
  {
    forall i | 0 <= i < |bytes|
      ensures bytes'[i] == bytes[i]
    {
      forall k | 0 <= k < 8
        ensures Bit(bytes'[i], k) == Bit(bytes[i], k)
      {
        ByteBitAt(bytes, i, k);
        ByteBitAt(bytes', i, k);
      }
      SameBits(bytes'[i], bytes[i]);
    }
  }

  lemma PackedLength(n: nat)
    ensures (n * 8 / 5 * 5 + 7) / 8 == n
    ensures n % 5 == 0 ==> n * 8 / 5 * 5 == 8 * n
  {
  }

  /** Packing what was unpacked gives the bytes again exactly when the bits after the last whole value
      are zero, which is always so for a whole number of five-byte blocks. */
  lemma PackUnpacked(bytes: seq<Byte>, values: seq<Byte>, bytes': seq<Byte>)
    requires Unpacks(bytes, values) && Packs(values, bytes')
    ensures bytes' == bytes <==> forall n: nat :: n >= 5 * |values| ==> !ByteBit(bytes, n)
    ensures |bytes| % 5 == 0 ==> bytes' == bytes
  {
    PackedLength(|bytes|);
    forall n: nat
      ensures ByteBit(bytes', n) <==> n < 5 * |values| && ByteBit(bytes, n)
      ensures |bytes| % 5 == 0 && n >= 5 * |values| ==> !ByteBit(bytes, n)
    {
      ValueBitBound(values, n);
    }
    if forall n: nat :: n >= 5 * |values| ==> !ByteBit(bytes, n) {
      SameStream(bytes, bytes');
    }
  }

  lemma ValueBitBound(values: seq<Byte>, n: nat)
    ensures ValueBit(values, n) ==> n < 5 * |values|
  {
  }

  // ----- The code -----

  function MaxOf(waveform: seq<int>): (m: int)
    ensures m >= 0 && forall i :: 0 <= i < |waveform| ==> waveform[i] <= m
    ensures m == 0 || m in waveform
  {
    if waveform == [] then 0
    else
      var rest := MaxOf(waveform[..|waveform| - 1]);
      var last := waveform[|waveform| - 1];
      if last > rest then last else rest
  }

  lemma MaxStep(waveform: seq<int>, i: nat)
    requires i < |waveform|
    ensures var m := MaxOf(waveform[..i]); MaxOf(waveform[..i + 1]) == if waveform[i] > m then waveform[i] else m
  {
    assert waveform[..i + 1][..i] == waveform[..i];
  }

  /** Division rounded to the nearest integer, halves away from zero. */
  function RoundDiv(v: int, d: int): int
    requires d >= 1
  {
    if v >= 0 then (2 * v + d) / (2 * d) else -((2 * -v + d) / (2 * d))
  }

  function Divisor(waveform: seq<int>): (d: int)
    ensures d >= 1
  {
    var d := MaxOf(waveform) / 256;
    if d < 1 then 1 else d
  }

  /** The conversion to a byte keeps the low eight bits. */
  function ToByte(v: int): Byte {
    (v % 256) as Byte
  }

  function Normalized(waveform: seq<int>): seq<Byte> {
    seq(|waveform|, i requires 0 <= i < |waveform| => ToByte(RoundDiv(waveform[i], Divisor(waveform))))
  }

  method FindMax(waveform: seq<int>) returns (waveformMax: int)
    ensures waveformMax == MaxOf(waveform)
  {
    waveformMax := 0;
    var i := 0;
    while i < |waveform|
      invariant 0 <= i <= |waveform| && waveformMax == MaxOf(waveform[..i])
    {
      MaxStep(waveform, i);
      waveformMax := if waveform[i] > waveformMax then waveform[i] else waveformMax;
      i := i + 1;
    }
    assert waveform[..i] == waveform;
  }

  method NormalizeWaveform(waveform: seq<int>) returns (normalized: array<Byte>)
    ensures fresh(normalized) && normalized[..] == Normalized(waveform)
  {
    normalized := new Byte[|waveform|];
    var waveformMax := FindMax(waveform);
    var divisor := if waveformMax / 256 < 1 then 1 else waveformMax / 256;
    var i := 0;
    while i < |waveform|
      invariant 0 <= i <= |waveform| && forall j :: 0 <= j < i ==> normalized[j] == ToByte(RoundDiv(waveform[j], divisor))
    {
      normalized[i] := ToByte(RoundDiv(waveform[i], divisor));
      i := i + 1;
    }
  }

  /** Values below 256 are not rescaled. */
  lemma NormalizedSmall(waveform: seq<int>)
    requires InFiveBits(waveform)
    ensures FiveBits(Normalized(waveform))
    ensures forall i :: 0 <= i < |waveform| ==> Normalized(waveform)[i] as int == waveform[i]
  {
    assert Divisor(waveform) == 1;
    forall i | 0 <= i < |waveform|
      ensures Normalized(waveform)[i] < 32 && Normalized(waveform)[i] as int == waveform[i]
    {
      assert RoundDiv(waveform[i], 1) == waveform[i];
      SmallInteger(waveform[i]);
    }
  }

  /** The documented bound of 32, on the values before they are cut to bytes, holds exactly when it held
      already: dividing by a 256th of the maximum leaves a maximum of at least 256. */
  lemma NormalizedBound(waveform: seq<int>)
    ensures (forall i :: 0 <= i < |waveform| ==> 0 <= RoundDiv(waveform[i], Divisor(waveform)) <= 32)
            <==> (forall i :: 0 <= i < |waveform| ==> 0 <= waveform[i] <= 32)
  {
    var m := MaxOf(waveform);
    if m < 512 {
      assert Divisor(waveform) == 1;
      forall i | 0 <= i < |waveform|
        ensures RoundDiv(waveform[i], 1) == waveform[i]
      {
        DivByOne(waveform[i]);
      }
    } else {
      var i :| 0 <= i < |waveform| && waveform[i] == m;
      DivByPart(m);
    }
  }

  lemma DivByOne(v: int)
    ensures RoundDiv(v, 1) == v
  {
  }

  lemma MulCancel(a: int, b: int, y: int)
    requires y > 0 && a * y > b * y
    ensures a > b
  {
    assert (b - a) * y == b * y - a * y;
  }

  lemma DivAtLeast(x: int, y: int, q: int)
    requires y > 0 && x >= q * y
    ensures x / y >= q
  {
    var r := x / y;
    assert (r + 1) * y == r * y + y > x;
    MulCancel(r + 1, q, y);
  }

  lemma DivByPart(m: int)
    requires m >= 256
    ensures RoundDiv(m, m / 256) >= 256
  {
    var d := m / 256;
    assert 2 * m + d >= 256 * (2 * d);
    DivAtLeast(2 * m + d, 2 * d, 256);
  }

  /** A maximum just above the bound stays above it, and one of 512 is halved to 256, which wraps to 0. */
  lemma BoundExceeded()
    ensures Divisor([33]) == 1 && RoundDiv(33, 1) == 33 && ToByte(33) == 33
    ensures Divisor([512]) == 2 && RoundDiv(512, 2) == 256 && ToByte(256) == 0
  {
    MaxOfOne(33);
    MaxOfOne(512);
  }

  lemma MaxOfOne(v: int)
    requires v >= 0
    ensures MaxOf([v]) == v
  {
    assert [v][..0] == [];
  }

  // ----- Packing -----

  /** Whether value `j` sets bit `n`: its lowest bit is bit 5 * j, and it may reach into the next values. */
  predicate SetsBit(values: seq<Byte>, j: int, n: nat) {
    0 <= j < |values| && 0 <= n - 5 * j < 8 && Bit(values[j], n - 5 * j)
  }

  /** Whether one of the first `i` values sets bit `n`. */
  predicate EarlyBit(values: seq<Byte>, i: nat, n: nat) {
    exists j :: 0 <= j < i && SetsBit(values, j, n)
  }

  lemma NextBit(values: seq<Byte>, i: nat, n: nat)
    requires i < |values|
    ensures EarlyBit(values, i + 1, n) <==>
            EarlyBit(values, i, n) || (5 * i <= n < 5 * i + 8 && Bit(values[i], n - 5 * i))
  {
    assert SetsBit(values, i, n) <==> 5 * i <= n < 5 * i + 8 && Bit(values[i], n - 5 * i);
  }

  /** For values of five bits the merged bits are the stream that the values spell. */
  lemma MergedIsSpelled(values: seq<Byte>, n: nat)
    requires FiveBits(values)
    ensures EarlyBit(values, |values|, n) <==> ValueBit(values, n)
  {
    if EarlyBit(values, |values|, n) {
      var j :| 0 <= j < |values| && SetsBit(values, j, n);
      LowFiveBits(values[j], n - 5 * j);
      assert n / 5 == j && n % 5 == n - 5 * j;
    }
    if ValueBit(values, n) {
      assert n - 5 * (n / 5) == n % 5;
      assert SetsBit(values, n / 5, n);
    }
  }

  ghost predicate Holds(buffer: seq<Byte>, bits: nat -> bool) {
    forall j: nat, k: nat :: j < |buffer| && k < 8 ==> HoldsAt(buffer, bits, j, k)
  }

  predicate HoldsAt(buffer: seq<Byte>, bits: nat -> bool, j: nat, k: nat)
    requires j < |buffer| && k < 8
  {
    Bit(buffer[j], k) <==> bits(8 * j + k)
  }

  /** Bit `n` afterwards is what it was, or one of those of `v` from position `p` on. */
  predicate Adds(bits: nat -> bool, bits': nat -> bool, v: Byte, p: nat, n: nat) {
    bits'(n) <==> bits(n) || (p <= n < p + 8 && Bit(v, n - p))
  }

  /** The part of `v` that goes into the byte it starts in, at bit `s`. */
  function LowPart(v: Byte, s: nat): Byte
    requires s < 8
  {
    v << s
  }

  /** The part of `v` that goes into the byte after it. */
  function HighPart(v: Byte, s: nat): Byte
    requires s < 8
  {
    v >> (8 - s)
  }

  lemma LowPartBit(x: Byte, v: Byte, s: nat, k: nat)
    requires s < 8 && k < 8
    ensures Bit(x | LowPart(v, s), k) <==> Bit(x, k) || (k >= s && Bit(v, k - s))
  {
    assert Bit(LowPart(v, s), k) <==> k >= s && Bit(v, k - s) by {
      ShiftLeftBit(v, s, k);
    }
    OrBit(x, LowPart(v, s), k);
  }

  lemma HighPartBit(x: Byte, v: Byte, s: nat, k: nat)
    requires s < 8 && k < 8
    ensures Bit(x | HighPart(v, s), k) <==> Bit(x, k) || (k < s && Bit(v, k + 8 - s))
  {
    assert Bit(HighPart(v, s), k) <==> k < s && Bit(v, k + 8 - s) by {
      ShiftRightBit(v, 8 - s, k);
    }
    OrBit(x, HighPart(v, s), k);
  }

  /** What merging does to one bit of one byte. */
  lemma MergeBit(x: Byte, x': Byte, v: Byte, j: nat, k: nat, at: nat, s: nat, bit: bool, bit': bool)
    requires s < 8 && k < 8
    requires j == at ==> x' == x | LowPart(v, s)
    requires j == at + 1 ==> x' == x | HighPart(v, s)
    requires j != at && j != at + 1 ==> x' == x
    requires Bit(x, k) <==> bit
    requires var d := 8 * (j - at) + k - s; bit' <==> bit || (0 <= d < 8 && Bit(v, d))
    ensures Bit(x', k) <==> bit'
  {
    if j == at {
      LowPartBit(x, v, s, k);
    } else if j == at + 1 {
      HighPartBit(x, v, s, k);
    }
  }

  lemma MergeByteAt(buffer: seq<Byte>, buffer': seq<Byte>, v: Byte, p: nat, at: nat, s: nat,
                    bits: nat -> bool, bits': nat -> bool, j: nat, k: nat)
    requires 8 * at + s == p && s < 8 && k < 8 && j < |buffer| == |buffer'| && at + 1 < |buffer|
    requires buffer'[at] == buffer[at] | LowPart(v, s) && buffer'[at + 1] == buffer[at + 1] | HighPart(v, s)
    requires j != at && j != at + 1 ==> buffer'[j] == buffer[j]
    requires HoldsAt(buffer, bits, j, k) && Adds(bits, bits', v, p, 8 * j + k)
    ensures HoldsAt(buffer', bits', j, k)
  {
    MergeBit(buffer[j], buffer'[j], v, j, k, at, s, bits(8 * j + k), bits'(8 * j + k));
  }

  /** Merging a byte into two neighbours of the buffer sets its bits from position `p` on. */
  lemma MergeByte(buffer: seq<Byte>, buffer': seq<Byte>, v: Byte, p: nat, at: nat, s: nat,
                  bits: nat -> bool, bits': nat -> bool)
    requires 8 * at + s == p && s < 8 && |buffer'| == |buffer| && at + 1 < |buffer|
    requires buffer'[at] == buffer[at] | LowPart(v, s) && buffer'[at + 1] == buffer[at + 1] | HighPart(v, s)
    requires forall j :: 0 <= j < |buffer| && j != at && j != at + 1 ==> buffer'[j] == buffer[j]
    requires Holds(buffer, bits) && forall n: nat :: Adds(bits, bits', v, p, n)
    ensures Holds(buffer', bits')
  {
    forall j: nat, k: nat | j < |buffer'| && k < 8
      ensures HoldsAt(buffer', bits', j, k)
    {
      MergeByteAt(buffer, buffer', v, p, at, s, bits, bits', j, k);
    }
  }

  function EarlyBits(values: seq<Byte>, i: nat): nat -> bool {
    (n: nat) => EarlyBit(values, i, n)
  }

  /** The first `i` values are merged into the buffer and the rest of it is zero. */
  ghost predicate Packed(values: seq<Byte>, i: nat, buffer: seq<Byte>) {
    Holds(buffer, EarlyBits(values, i))
  }

  lemma PackStep(values: seq<Byte>, i: nat, at: nat, s: nat, buffer: seq<Byte>, buffer': seq<Byte>)
    requires i < |values| && 8 * at + s == 5 * i && s < 8
    requires |buffer'| == |buffer| && at + 1 < |buffer| && Packed(values, i, buffer)
    requires buffer'[at] == buffer[at] | LowPart(values[i], s)
    requires buffer'[at + 1] == buffer[at + 1] | HighPart(values[i], s)
    requires forall j :: 0 <= j < |buffer| && j != at && j != at + 1 ==> buffer'[j] == buffer[j]
    ensures Packed(values, i + 1, buffer')
  {
    var bits, bits' := EarlyBits(values, i), EarlyBits(values, i + 1);
    forall n: nat
      ensures Adds(bits, bits', values[i], 5 * i, n)
    {
      NextBit(values, i, n);
    }
    MergeByte(buffer, buffer', values[i], 5 * i, at, s, bits, bits');
  }

  /** Every bit of the encoding is set exactly if one of the values sets it. */
  lemma PackedIsMerged(values: seq<Byte>, buffer: seq<Byte>, count: nat)
    requires count <= |buffer| && Packed(values, |values|, buffer)
    ensures Merges(values, buffer[..count])
  {
    forall n: nat | n < 8 * count
      ensures ByteBit(buffer[..count], n) <==> EarlyBit(values, |values|, n)
    {
      var j, k := n / 8, n % 8;
      assert HoldsAt(buffer, EarlyBits(values, |values|), j, k);
    }
  }

  /** Each bit of the bytes is the disjunction of the values' bits that are laid there. */
  ghost predicate Merges(values: seq<Byte>, bytes: seq<Byte>) {
    forall n: nat :: n < 8 * |bytes| ==> (ByteBit(bytes, n) <==> EarlyBit(values, |values|, n))
  }

  /** What was merged is what was packed when the values have five bits. */
  lemma MergesPacks(values: seq<Byte>, bytes: seq<Byte>)
    requires FiveBits(values) && Merges(values, bytes) && |bytes| == (|values| * 5 + 7) / 8
    ensures Packs(values, bytes)
  {
    forall n: nat
      ensures ByteBit(bytes, n) <==> ValueBit(values, n)
    {
      ValueBitBound(values, n);
      if n < 8 * |bytes| {
        MergedIsSpelled(values, n);
      }
    }
  }

  lemma ShiftSteps(i: nat)
    ensures 8 * (i * 5 / 8) + i * 5 % 8 == 5 * i && (i * 5 % 8 + 5) % 8 == (i + 1) * 5 % 8
  {
  }

  method Encode(waveform: seq<int>) returns (encoded: seq<Byte>)
    ensures IsEncoded(waveform, encoded)
  {
    var bytesCount := (|waveform| * 5 + 7) / 8;
    var result := new Byte[bytesCount + 1](_ => 0);
    var values := NormalizeWaveform(waveform);
    ghost var all := Normalized(waveform);
    var bitShift := 0;
    var i := 0;
    EmptyBuffer(all, result[..]);
    while i < |waveform|
      invariant 0 <= i <= |waveform| && bitShift == i * 5 % 8 && values[..] == all
      invariant Packed(all, i, result[..])
    {
      var v := values[i];
      var at := i * 5 / 8;
      ShiftSteps(i);
      ghost var before := result[..];
      MergeInto(result, at, bitShift, v);
      PackStep(all, i, at, bitShift, before, result[..]);
      bitShift := (bitShift + 5) % 8;
      i := i + 1;
    }
    PackedIsMerged(all, result[..], bytesCount);
    assert result[..][..bytesCount] == result[..bytesCount];
    encoded := result[..bytesCount];
  }

  method MergeInto(result: array<Byte>, at: nat, bitShift: nat, v: Byte)
    requires at + 1 < result.Length && bitShift < 8
    modifies result
    ensures result[at] == old(result[at]) | LowPart(v, bitShift)
    ensures result[at + 1] == old(result[at + 1]) | HighPart(v, bitShift)
    ensures forall j :: 0 <= j < result.Length && j != at && j != at + 1 ==> result[j] == old(result[j])
  {
    result[at] := result[at] | (v << bitShift);
    result[at + 1] := result[at + 1] | (v >> (8 - bitShift));
  }

  lemma EmptyBuffer(values: seq<Byte>, buffer: seq<Byte>)
    requires forall j :: 0 <= j < |buffer| ==> buffer[j] == 0
    ensures Packed(values, 0, buffer)
  {
    forall j: nat, k: nat | j < |buffer| && k < 8
      ensures !Bit(buffer[j], k)
    {
      assert (0 as Byte) & Mask(k) == 0;
    }
  }

  /** Five bits from bit `s` of a byte on, which may reach into the next one. */
  function Five(x: Byte, y: Byte, s: nat): Byte
    requires s < 8
  {
    ((x >> s) | (y << (8 - s))) & 31
  }

  lemma FiveBit(x: Byte, y: Byte, s: nat, k: nat)
    requires s < 8 && k < 5
    ensures Bit(Five(x, y, s), k) <==> if k + s < 8 then Bit(x, k + s) else Bit(y, k + s - 8)
  {
    assert Bit(x >> s, k) <==> k + s < 8 && Bit(x, k + s) by {
      ShiftRightBit(x, s, k);
    }
    assert Bit(y << (8 - s), k) <==> k + s >= 8 && Bit(y, k + s - 8) by {
      ShiftLeftBit(y, 8 - s, k);
    }
    LowFiveOr(x >> s, y << (8 - s), k);
  }

  lemma LowFiveOr(x: Byte, y: Byte, k: nat)
    requires k < 5
    ensures Bit((x | y) & 31, k) <==> Bit(x, k) || Bit(y, k)
  {
    LowFiveBits(x | y, k);
    OrBit(x, y, k);
  }

  /** A byte that is not there adds nothing. */
  lemma FiveOfLast(x: Byte, s: nat)
    requires s < 8
    ensures (x >> s) & 31 == Five(x, 0, s)
  {
    if s == 0 {} else if s == 1 {} else if s == 2 {} else if s == 3 {} else if s == 4 {}
    else if s == 5 {} else if s == 6 {} else {}
  }

  function ByteAt(bytes: seq<Byte>, i: nat): Byte {
    if i < |bytes| then bytes[i] else 0
  }

  function Decoded(bytes: seq<Byte>, i: nat): Byte {
    Five(ByteAt(bytes, i * 5 / 8), ByteAt(bytes, i * 5 / 8 + 1), i * 5 % 8)
  }

  lemma ByteBitIn(bytes: seq<Byte>, at: nat, k: nat)
    requires k < 8
    ensures ByteBit(bytes, 8 * at + k) <==> Bit(ByteAt(bytes, at), k)
  {
    NoBits(k);
    if at < |bytes| {
      ByteBitAt(bytes, at, k);
    } else {
      assert (8 * at + k) / 8 >= |bytes|;
    }
  }

  /** Bit `r` after the start of byte `at`, with `r` reaching into the next byte. */
  lemma ReachingBit(bytes: seq<Byte>, at: nat, r: nat)
    requires r < 16
    ensures ByteBit(bytes, 8 * at + r) <==> if r < 8 then Bit(ByteAt(bytes, at), r) else Bit(ByteAt(bytes, at + 1), r - 8)
  {
    if r < 8 {
      ByteBitIn(bytes, at, r);
    } else {
      ByteBitIn(bytes, at + 1, r - 8);
      assert 8 * at + r == 8 * (at + 1) + (r - 8);
    }
  }

  lemma DecodedBit(bytes: seq<Byte>, i: nat, k: nat)
    requires k < 5
    ensures Bit(Decoded(bytes, i), k) <==> ByteBit(bytes, 5 * i + k)
  {
    var at, s := i * 5 / 8, i * 5 % 8;
    ShiftSteps(i);
    FiveBit(ByteAt(bytes, at), ByteAt(bytes, at + 1), s, k);
    ReachingBit(bytes, at, k + s);
    assert 8 * at + (k + s) == 5 * i + k;
  }

  lemma NoBits(k: nat)
    requires k < 8
    ensures !Bit(0, k)
  {
  }

  method ReadValue(waveform: seq<Byte>, at: nat, bitShift: nat) returns (val: Byte)
    requires at < |waveform| && bitShift < 8
    ensures val & 31 == Five(ByteAt(waveform, at), ByteAt(waveform, at + 1), bitShift)
  {
    val := waveform[at] >> bitShift;
    if at + 1 < |waveform| {
      val := val | (waveform[at + 1] << (8 - bitShift));
    } else {
      FiveOfLast(waveform[at], bitShift);
    }
  }

  method Decode(waveform: seq<Byte>) returns (decoded: seq<int>)
    ensures IsDecoded(waveform, decoded)
  {
    var numValues := |waveform| * 8 / 5;
    var result := new int[numValues];
    var bitShift := 0;
    var i := 0;
    while i < numValues
      invariant 0 <= i <= numValues && bitShift == i * 5 % 8
      invariant forall j :: 0 <= j < i ==> result[j] == Decoded(waveform, j) as int
    {
      ShiftSteps(i);
      var val := ReadValue(waveform, i * 5 / 8, bitShift);
      result[i] := (val & 31) as int;
      bitShift := (bitShift + 5) % 8;
      i := i + 1;
    }
    decoded := result[..];
    DecodedUnpacks(waveform, decoded);
  }

  lemma DecodedUnpacks(bytes: seq<Byte>, decoded: seq<int>)
    requires |decoded| == |bytes| * 8 / 5
    requires forall j :: 0 <= j < |decoded| ==> decoded[j] == Decoded(bytes, j) as int
    ensures IsDecoded(bytes, decoded)
  {
    var values := ToBytes(decoded);
    forall i | 0 <= i < |decoded|
      ensures 0 <= decoded[i] < 32 && values[i] == Decoded(bytes, i) && values[i] < 32
    {
      LowFiveBits(Decoded(bytes, i), 0);
      SmallByte(Decoded(bytes, i));
    }
    forall n: nat | n < |values| * 5
      ensures ValueBit(values, n) <==> ByteBit(bytes, n)
    {
      DecodedBit(bytes, n / 5, n % 5);
    }
  }

  // ----- Round trips of the two methods, from what they ensure -----

  predicate InFiveBits(waveform: seq<int>) {
    forall i :: 0 <= i < |waveform| ==> 0 <= waveform[i] < 32
  }

  function ToBytes(decoded: seq<int>): seq<Byte> {
    seq(|decoded|, i requires 0 <= i < |decoded| => ToByte(decoded[i]))
  }

  /** What `Encode` ensures. */
  ghost predicate IsEncoded(waveform: seq<int>, encoded: seq<Byte>) {
    && |encoded| == (|waveform| * 5 + 7) / 8
    && Merges(Normalized(waveform), encoded)
  }

  /** What `Decode` ensures. */
  ghost predicate IsDecoded(bytes: seq<Byte>, decoded: seq<int>) {
    |decoded| == |bytes| * 8 / 5 && InFiveBits(decoded) && Unpacks(bytes, ToBytes(decoded))
  }

  lemma BytesOfSmall(decoded: seq<int>)
    requires InFiveBits(decoded)
    ensures Normalized(decoded) == ToBytes(decoded) && FiveBits(ToBytes(decoded))
    ensures forall i :: 0 <= i < |decoded| ==> ToBytes(decoded)[i] as int == decoded[i]
  {
    NormalizedSmall(decoded);
    assert Divisor(decoded) == 1;
    forall i | 0 <= i < |decoded|
      ensures Normalized(decoded)[i] == ToBytes(decoded)[i]
    {
      assert RoundDiv(decoded[i], 1) == decoded[i];
    }
  }

  /** Decoding what was encoded gives the waveform followed only by zeros, at most one, exactly when all
      its values are in 0..31. */
  lemma DecodeEncoded(waveform: seq<int>, encoded: seq<Byte>, decoded: seq<int>)
    requires IsEncoded(waveform, encoded) && IsDecoded(encoded, decoded)
    ensures InFiveBits(waveform) <==>
            && |waveform| <= |decoded| <= |waveform| + 1
            && forall i :: 0 <= i < |decoded| ==> decoded[i] == if i < |waveform| then waveform[i] else 0
  {
    if InFiveBits(waveform) {
      NormalizedSmall(waveform);
      BytesOfSmall(waveform);
      BytesOfSmall(decoded);
      MergesPacks(Normalized(waveform), encoded);
      UnpackPacked(ToBytes(waveform), encoded, ToBytes(decoded));
      forall i | 0 <= i < |decoded|
        ensures decoded[i] == if i < |waveform| then waveform[i] else 0
      {
        assert ToBytes(decoded)[i] == if i < |waveform| then ToBytes(waveform)[i] else 0;
      }
    } else {
      var i :| 0 <= i < |waveform| && !(0 <= waveform[i] < 32);
      assert |waveform| <= |decoded| ==> decoded[i] != waveform[i];
    }
  }

  /** Encoding what was decoded gives the bytes again exactly when the bits after the last whole value
      are zero. */
  lemma EncodeDecoded(bytes: seq<Byte>, decoded: seq<int>, encoded: seq<Byte>)
    requires IsDecoded(bytes, decoded) && IsEncoded(decoded, encoded)
    ensures encoded == bytes <==> forall n: nat :: n >= 5 * |decoded| ==> !ByteBit(bytes, n)
    ensures |bytes| % 5 == 0 ==> encoded == bytes
  {
    BytesOfSmall(decoded);
    MergesPacks(Normalized(decoded), encoded);
    PackUnpacked(bytes, ToBytes(decoded), encoded);
  }
}
