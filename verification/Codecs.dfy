/** The bit packing of the Thread diagnostics. */
module Codecs {
  import opened Base
  import opened Bits

  // ----- Dataset timestamp ---------------------------------------------------------------------

  /** Seconds, ticks and the authoritative bit: 48, 15 and 1 bits in the TLV, in wider fields here. */
  datatype Timestamp = Timestamp(seconds: nat, ticks: nat, authoritative: bool) {
    predicate Typed() {
      seconds < U64_VALUES && ticks < 0x1_0000
    }

    predicate InRange() {
      seconds < 0x1_0000_0000_0000 && ticks < 0x8000
    }
  }

  function Packed(t: Timestamp): nat {
    Or(Or(t.seconds * 0x1_0000 % U64_VALUES, 2 * t.ticks), if t.authoritative then 1 else 0)
  }

  function Unpacked(v: nat): Timestamp {
    Timestamp(v / 0x1_0000, v / 2 % 0x8000, v % 2 == 1)
  }

  predicate Before(a: Timestamp, b: Timestamp) {
    || a.seconds < b.seconds
    || (a.seconds == b.seconds && a.ticks < b.ticks)
    || (a.seconds == b.seconds && a.ticks == b.ticks && !a.authoritative && b.authoritative)
  }

  lemma TicksFitBelow(seconds: nat, ticks: nat)
    requires ticks < 0x8000
    ensures Or(seconds * 0x1_0000, 2 * ticks) == seconds * 0x1_0000 + 2 * ticks
  {
    Pow2Of64();
    OrBelow(seconds, 2 * ticks, 16);
  }

  lemma BitFitsBelow(n: nat, bit: nat)
    requires bit <= 1
    ensures Or(2 * n, bit) == 2 * n + bit
  {
    OrZero(n);
    assert 2 * n / 2 == n && bit / 2 == 0;
  }

  /** In range the three fields do not overlap. */
  lemma PackedIsSum(t: Timestamp)
    requires t.InRange()
    ensures Packed(t) == 0x1_0000 * t.seconds + 2 * t.ticks + (if t.authoritative then 1 else 0) < U64_VALUES
  {
    TicksFitBelow(t.seconds, t.ticks);
    BitFitsBelow(0x8000 * t.seconds + t.ticks, if t.authoritative then 1 else 0);
  }

  lemma PackedFits(t: Timestamp)
    requires t.Typed()
    ensures Packed(t) < U64_VALUES
  {
    Pow2Of64();
    OrFits(t.seconds * 0x1_0000 % U64_VALUES, 2 * t.ticks, 64);
    OrFits(Or(t.seconds * 0x1_0000 % U64_VALUES, 2 * t.ticks), if t.authoritative then 1 else 0, 64);
  }

  lemma UnpackedIsInRange(v: nat)
    requires v < U64_VALUES
    ensures Unpacked(v).InRange()
  {
  }

  lemma SumUnpacks(seconds: nat, ticks: nat, bit: nat)
    requires ticks < 0x8000 && bit <= 1
    ensures Unpacked(0x1_0000 * seconds + 2 * ticks + bit) == Timestamp(seconds, ticks, bit == 1)
  {
    var v := 0x1_0000 * seconds + 2 * ticks + bit;
    assert v / 0x1_0000 == seconds && v / 2 == 0x8000 * seconds + ticks;
  }

  /** Packing is invertible in range, and only there. */
  lemma PackedIsInvertible(t: Timestamp)
    requires t.Typed()
    ensures Unpacked(Packed(t)) == t <==> t.InRange()
  {
    PackedFits(t);
    UnpackedIsInRange(Packed(t));
    if t.InRange() {
      PackedIsSum(t);
      SumUnpacks(t.seconds, t.ticks, if t.authoritative then 1 else 0);
    }
  }

  lemma PartsAddUp(v: nat)
    ensures v == 0x1_0000 * (v / 0x1_0000) + 2 * (v / 2 % 0x8000) + v % 2
  {
    assert v / 0x1_0000 == v / 2 / 0x8000;
  }

  /** Every 64-bit value is one timestamp, packed. */
  lemma UnpackedIsInvertible(v: nat)
    requires v < U64_VALUES
    ensures Unpacked(v).InRange() && Packed(Unpacked(v)) == v
  {
    UnpackedIsInRange(v);
    PackedIsSum(Unpacked(v));
    PartsAddUp(v);
  }

  /** ... and keeps the lexicographic order. */
  lemma PackedKeepsOrder(a: Timestamp, b: Timestamp)
    requires a.InRange() && b.InRange()
    ensures Packed(a) < Packed(b) <==> Before(a, b)
  {
    PackedIsSum(a);
    PackedIsSum(b);
  }

  // ----- Security policy flags -----------------------------------------------------------------

  /** The fold over the flags: flag `i` is or-ed in at bit `i`. */
  function FoldFlags(flags: seq<bool>): nat {
    if flags == [] then 0
    else
      var n := |flags| - 1;
      Or(FoldFlags(flags[..n]), Shl(if flags[n] then 1 else 0, n))
  }

  function SecurityPolicyFlags(flags: seq<bool>, version: nat): nat
    requires |flags| == 9
  {
    Or(FoldFlags(flags), Shl(Low(version, 3), 9))
  }

  lemma OneBit(flag: bool, i: nat)
    ensures Bit(if flag then 1 else 0, i) <==> flag && i == 0
  {
    if i > 0 {
      ZeroBits(i - 1);
    }
  }

  lemma {:induction false} FoldedBits(flags: seq<bool>, i: nat)
    ensures Bit(FoldFlags(flags), i) <==> i < |flags| && flags[i]
  {
    if flags == [] {
      ZeroBits(i);
    } else {
      var n := |flags| - 1;
      var bit := if flags[n] then 1 else 0;
      FoldedBits(flags[..n], i);
      OrBits(FoldFlags(flags[..n]), Shl(bit, n), i);
      ShlBits(bit, n, i);
      if n <= i {
        OneBit(flags[n], i - n);
      }
    }
  }

  /** The nine flags and the three version bits can be read back; the other bits are clear. */
  lemma PolicyDecodes(flags: seq<bool>, version: nat, i: nat)
    requires |flags| == 9
    ensures Bit(SecurityPolicyFlags(flags, version), i) <==>
            (i < 9 && flags[i]) || (9 <= i < 12 && Bit(version, i - 9))
  {
    FoldedBits(flags, i);
    OrBits(FoldFlags(flags), Shl(Low(version, 3), 9), i);
    ShlBits(Low(version, 3), 9, i);
    if 9 <= i {
      LowBits(version, 3, i - 9);
    }
  }

  // ----- Channel mask --------------------------------------------------------------------------

  /** Byte `j` of a 32-bit value in big-endian order. */
  function BigEndianByte(v: nat, j: nat): nat
    requires j < 4
  {
    Low(Shr(v, 24 - 8 * j), 8)
  }

  /** The page-0 channel mask as reported: the bits reversed, the bytes big-endian. */
  function ChannelPage0Mask(mask: nat): (bytes: seq<nat>)
    ensures |bytes| == 4
  {
    var r := Reversed(mask, 32);
    [BigEndianByte(r, 0), BigEndianByte(r, 1), BigEndianByte(r, 2), BigEndianByte(r, 3)]
  }

  /** Channel `k` lands in byte `k / 8`, counted from the byte's most significant bit. */
  lemma ChannelLands(mask: nat, k: nat)
    requires k < 32
    ensures Bit(ChannelPage0Mask(mask)[k / 8], 7 - k % 8) <==> Bit(mask, k)
    ensures ChannelPage0Mask(mask)[k / 8] < 256
  {
    var j, b := k / 8, 7 - k % 8;
    var r := Reversed(mask, 32);
    assert ChannelPage0Mask(mask)[j] == BigEndianByte(r, j);
    LowBits(Shr(r, 24 - 8 * j), 8, b);
    ShrBits(r, 24 - 8 * j, b);
    assert 24 - 8 * j + b == 31 - k;
    ReversedBits(mask, 32, 31 - k);
    assert Pow2(8) == 256;
  }
}
