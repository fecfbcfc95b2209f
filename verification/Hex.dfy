/** Fixed-width hexadecimal: how it is printed, and that parsing undoes it. */
module Hex {
  import opened Base

  /** `{:x}` prints lower-case digits, `{:X}` upper-case ones. */
  function Digit(d: nat, upper: bool): (c: char)
    requires d < 16
    ensures c as nat == if d < 10 then 48 + d else if upper then 55 + d else 87 + d
  {
    if upper then "0123456789ABCDEF"[d] else "0123456789abcdef"[d]
  }

  function DigitValue(c: char): nat {
    if '0' <= c <= '9' then c as nat - '0' as nat
    else if 'a' <= c <= 'f' then c as nat - 'a' as nat + 10
    else if 'A' <= c <= 'F' then c as nat - 'A' as nat + 10
    else 0
  }

  lemma DigitRoundTrips(d: nat, upper: bool)
    requires d < 16
    ensures DigitValue(Digit(d, upper)) == d
  {
  }

  /** The digits of a number, no leading zero, at least one digit. */
  function Minimal(n: nat, upper: bool): (s: string)
    ensures |s| >= 1
  {
    if n < 16 then [Digit(n, upper)] else Minimal(n / 16, upper) + [Digit(n % 16, upper)]
  }

  function Pad(s: string, width: nat): (r: string)
    ensures |r| == if |s| < width then width else |s|
    decreases width - |s|
  {
    if |s| < width then Pad("0" + s, width) else s
  }

  /** What `{:0widthx}` writes. */
  function Print(n: nat, width: nat, upper: bool): string {
    Pad(Minimal(n, upper), width)
  }

  function Parse(s: string): nat {
    if s == "" then 0 else 16 * Parse(s[..|s| - 1]) + DigitValue(s[|s| - 1])
  }

  function Pow16(n: nat): (p: nat)
    ensures p >= 1
  {
    if n == 0 then 1 else 16 * Pow16(n - 1)
  }

  lemma {:induction false} MinimalParses(n: nat, upper: bool)
    ensures Parse(Minimal(n, upper)) == n
  {
    if n < 16 {
      DigitRoundTrips(n, upper);
      assert Minimal(n, upper)[..0] == "";
    } else {
      MinimalParses(n / 16, upper);
      DigitRoundTrips(n % 16, upper);
      assert Minimal(n, upper)[..|Minimal(n, upper)| - 1] == Minimal(n / 16, upper);
    }
  }

  lemma {:induction false} LeadingZeroParses(s: string)
    ensures Parse("0" + s) == Parse(s)
  {
    if s == "" {
      assert ("0" + s)[..0] == "" && DigitValue('0') == 0;
    } else {
      LeadingZeroParses(s[..|s| - 1]);
      assert ("0" + s)[..|s|] == "0" + s[..|s| - 1];
    }
  }

  lemma {:induction false} PadParses(s: string, width: nat)
    ensures Parse(Pad(s, width)) == Parse(s)
    decreases width - |s|
  {
    if |s| < width {
      LeadingZeroParses(s);
      PadParses("0" + s, width);
    }
  }

  lemma {:induction false} MinimalLength(n: nat, upper: bool, width: nat)
    requires width >= 1
    ensures |Minimal(n, upper)| <= width <==> n < Pow16(width)
  {
    if n >= 16 && width > 1 {
      MinimalLength(n / 16, upper, width - 1);
    }
  }

  /** Parsing undoes printing at any width, which is exact while the number fits it. */
  lemma PrintParses(n: nat, width: nat, upper: bool)
    requires width >= 1
    ensures Parse(Print(n, width, upper)) == n
    ensures |Print(n, width, upper)| >= width
    ensures |Print(n, width, upper)| == width <==> n < Pow16(width)
  {
    MinimalParses(n, upper);
    PadParses(Minimal(n, upper), width);
    MinimalLength(n, upper, width);
  }

  lemma PrintIsInjective(a: nat, b: nat, width: nat, upper: bool)
    requires width >= 1
    ensures Print(a, width, upper) == Print(b, width, upper) <==> a == b
  {
    PrintParses(a, width, upper);
    PrintParses(b, width, upper);
  }

  /** The hexadecimal digit of weight 16^j. */
  function DigitAt(n: nat, j: nat): (d: nat)
    ensures d < 16
  {
    if j == 0 then n % 16 else DigitAt(n / 16, j - 1)
  }

  lemma {:induction false} PadAppends(s: string, c: char, width: nat)
    ensures Pad(s + [c], width + 1) == Pad(s, width) + [c]
    decreases width - |s|
  {
    if |s| < width {
      assert "0" + (s + [c]) == ("0" + s) + [c];
      PadAppends("0" + s, c, width);
    }
  }

  lemma PrintLast(n: nat, width: nat, upper: bool)
    requires width >= 1
    ensures Print(n, width + 1, upper) == Print(n / 16, width, upper) + [Digit(n % 16, upper)]
  {
    PadAppends(Minimal(n / 16, upper), Digit(n % 16, upper), width);
  }

  /** All but the last digit are those of the sixteenth. */
  lemma PrintFront(n: nat, width: nat, upper: bool)
    requires width >= 1 && n < Pow16(width + 1)
    ensures n / 16 < Pow16(width)
    ensures |Print(n, width + 1, upper)| == width + 1
    ensures Print(n, width + 1, upper)[..width] == Print(n / 16, width, upper)
    ensures Print(n, width + 1, upper)[width] == Digit(n % 16, upper)
  {
    assert Pow16(width + 1) == 16 * Pow16(width);
    PrintParses(n, width + 1, upper);
    PrintParses(n / 16, width, upper);
    PrintLast(n, width, upper);
  }

  /** Character `k` is digit `k` from the left: the highest comes first. */
  lemma {:induction false} PrintDigits(n: nat, width: nat, upper: bool, k: nat)
    requires k < width && n < Pow16(width)
    ensures |Print(n, width, upper)| == width
    ensures Print(n, width, upper)[k] == Digit(DigitAt(n, width - 1 - k), upper)
  {
    if width == 1 {
      assert n < 16;
    } else {
      PrintFront(n, width - 1, upper);
      if k < width - 1 {
        PrintDigits(n / 16, width - 1, upper, k);
      }
    }
  }

  lemma {:induction false} Pow16Sum(m: nat, n: nat)
    ensures Pow16(m + n) == Pow16(m) * Pow16(n)
  {
    if m > 0 {
      Pow16Sum(m - 1, n);
      assert Pow16(m + n) == 16 * (Pow16(m - 1) * Pow16(n)) == (16 * Pow16(m - 1)) * Pow16(n);
    }
  }

  lemma Pow16Values()
    ensures Pow16(2) == 0x100 && Pow16(4) == 0x1_0000 && Pow16(16) == 0x1_0000_0000_0000_0000
  {
    assert Pow16(2) == 256;
    Pow16Sum(2, 2);
    Pow16Sum(4, 4);
    Pow16Sum(8, 8);
  }

  // ----- The host name and the instance label of a Thread node ---------------------------------

  /** The SRP host name: the EUI-64, byte by byte. */
  function HostName(eui64: Bytes): string {
    if eui64 == [] then ""
    else HostName(eui64[..|eui64| - 1]) + Print(eui64[|eui64| - 1] as nat, 2, true)
  }

  lemma {:induction false} HostNameLength(eui64: Bytes)
    ensures |HostName(eui64)| == 2 * |eui64|
  {
    if eui64 != [] {
      HostNameLength(eui64[..|eui64| - 1]);
      Pow16Values();
      PrintParses(eui64[|eui64| - 1] as nat, 2, true);
    }
  }

  lemma ByteDigits(b: byte)
    ensures Print(b as nat, 2, true) == [Digit(b as nat / 16, true), Digit(b as nat % 16, true)]
  {
    Pow16Values();
    PrintDigits(b as nat, 2, true, 0);
    PrintDigits(b as nat, 2, true, 1);
  }

  /** Byte `k` prints at characters `2k` and `2k + 1`, the high half first, in upper case. */
  lemma {:induction false} HostNameDigits(eui64: Bytes, k: nat)
    requires k < |eui64|
    ensures |HostName(eui64)| == 2 * |eui64|
    ensures HostName(eui64)[2 * k] == Digit(eui64[k] as nat / 16, true)
    ensures HostName(eui64)[2 * k + 1] == Digit(eui64[k] as nat % 16, true)
  {
    var init, last := eui64[..|eui64| - 1], eui64[|eui64| - 1];
    HostNameLength(init);
    ByteDigits(last);
    assert HostName(eui64) == HostName(init) + [Digit(last as nat / 16, true), Digit(last as nat % 16, true)];
    if k < |init| {
      HostNameDigits(init, k);
    }
  }

  /** Two nodes with different EUI-64s get different host names. */
  lemma {:induction false} HostNameIsInjective(a: Bytes, b: Bytes)
    requires |a| == |b|
    ensures HostName(a) == HostName(b) <==> a == b
  {
    if a != [] && HostName(a) == HostName(b) {
      var x, y := a[|a| - 1], b[|b| - 1];
      var p, q := HostName(a[..|a| - 1]), HostName(b[..|b| - 1]);
      HostNameLength(a[..|a| - 1]);
      HostNameLength(b[..|b| - 1]);
      assert HostName(a)[..|p|] == p && HostName(b)[..|q|] == q;
      assert HostName(a)[|p|..] == Print(x as nat, 2, true) && HostName(b)[|q|..] == Print(y as nat, 2, true);
      HostNameIsInjective(a[..|a| - 1], b[..|b| - 1]);
      PrintIsInjective(x as nat, y as nat, 2, true);
      assert a == a[..|a| - 1] + [x] && b == b[..|b| - 1] + [y];
    }
  }

  /** The EUI-64 is eight bytes, so its host name fits sixteen characters. */
  lemma HostNameFits(eui64: Bytes)
    requires |eui64| == 8
    ensures |HostName(eui64)| <= 16
  {
    HostNameLength(eui64);
  }

  /** The instance label of an operational node. */
  function OperationalLabel(fabric: nat, node: nat): string {
    Print(fabric, 16, true) + "-" + Print(node, 16, true)
  }

  /**
   * The label of two 64-bit numbers fits its 33 characters and names exactly those two: the digits of
   * the fabric, a dash, the digits of the node, in upper case.
   */
  lemma OperationalLabelNames(fabric: nat, node: nat)
    requires fabric < U64_VALUES && node < U64_VALUES
    ensures |OperationalLabel(fabric, node)| == 33
    ensures Parse(OperationalLabel(fabric, node)[..16]) == fabric
    ensures Parse(OperationalLabel(fabric, node)[17..]) == node
    ensures OperationalLabel(fabric, node)[16] == '-'
  {
    Pow16Values();
    PrintParses(fabric, 16, true);
    PrintParses(node, 16, true);
    assert OperationalLabel(fabric, node)[..16] == Print(fabric, 16, true);
    assert OperationalLabel(fabric, node)[17..] == Print(node, 16, true);
  }

  /** ... highest digit first. */
  lemma OperationalLabelDigits(fabric: nat, node: nat, k: nat)
    requires fabric < U64_VALUES && node < U64_VALUES && k < 16
    ensures |OperationalLabel(fabric, node)| == 33
    ensures OperationalLabel(fabric, node)[k] == Digit(DigitAt(fabric, 15 - k), true)
    ensures OperationalLabel(fabric, node)[17 + k] == Digit(DigitAt(node, 15 - k), true)
  {
    Pow16Values();
    PrintDigits(fabric, 16, true, k);
    PrintDigits(node, 16, true, k);
  }
}
