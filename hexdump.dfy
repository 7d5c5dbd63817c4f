/**
 * `hexdump(b, width)` of telemetry.py:6-11 as a function returning the printed
 * lines: one line per `width` bytes, each holding the offset in hex, the bytes
 * in hex, and the bytes as printable ASCII.
 */
module HexDump {
  import opened Platform

  /** One of `0123456789abcdef`. */
  predicate IsHexDigit(c: char) {
    '0' <= c <= '9' || 'a' <= c <= 'f'
  }

  /** Every character of `s` is a lowercase hex digit. */
  predicate HexDigits(s: string) {
    forall k :: 0 <= k < |s| ==> IsHexDigit(s[k])
  }

  /** The lowercase hex digit for `d`. */
  function HexDigit(d: nat): (c: char)
    requires d < 16
    ensures IsHexDigit(c) && HexValue(c) == d
  {
    if d < 10 then ('0' as int + d) as char else ('a' as int + d - 10) as char
  }

  /** The value of a lowercase hex digit. */
  function HexValue(c: char): nat {
    if '0' <= c <= '9' then (c as int) - ('0' as int)
    else if 'a' <= c <= 'f' then (c as int) - ('a' as int) + 10
    else 0
  }

  /** `format(n, "x")`: lowercase hex without leading zeros. */
  function Hex(n: nat): (s: string)
    ensures s != [] && HexDigits(s)
    decreases n
  {
    if n < 16 then [HexDigit(n)] else Hex(n / 16) + [HexDigit(n % 16)]
  }

  /** The number a string of hex digits denotes. */
  function HexNumber(s: string): nat {
    if s == [] then 0 else 16 * HexNumber(s[..|s| - 1]) + HexValue(s[|s| - 1])
  }

  /** `"0" * k + s` */
  function Zeros(k: nat): (z: string)
    ensures |z| == k && forall i :: 0 <= i < k ==> z[i] == '0'
  {
    seq(k, _ => '0')
  }

  /** `f"{n:08x}"`: hex, zero-padded on the left to eight digits. */
  function Offset(n: nat): (s: string)
    ensures |s| >= 8 && HexDigits(s)
  {
    var h := Hex(n);
    if |h| < 8 then Zeros(8 - |h|) + h else h
  }

  /** `f"{x:02x}"` */
  function ByteHex(x: byte): (s: string)
    ensures |s| == 2 && HexDigits(s)
    ensures 16 * HexValue(s[0]) + HexValue(s[1]) == x as int
  {
    [HexDigit(x as int / 16), HexDigit(x as int % 16)]
  }

  /** `" ".join(f"{x:02x}" for x in chunk)` */
  function HexBytes(chunk: seq<byte>): (s: string)
    ensures |s| == if chunk == [] then 0 else 3 * |chunk| - 1
  {
    if |chunk| <= 1 then (if chunk == [] then "" else ByteHex(chunk[0]))
    else ByteHex(chunk[0]) + " " + HexBytes(chunk[1..])
  }

  /** `f"{s:<{width}}"`: padded on the right with spaces to `width`. */
  function PadRight(s: string, width: nat): (r: string)
    ensures |r| == if |s| < width then width else |s|
    ensures r[..|s|] == s && forall k :: |s| <= k < |r| ==> r[k] == ' '
  {
    if |s| < width then s + seq(width - |s|, _ => ' ') else s
  }

  /** `chr(x) if 32 <= x < 127 else "."` */
  function AsciiChar(x: byte): char {
    if 32 <= x < 127 then (x as int) as char else '.'
  }

  /** `"".join(AsciiChar(x) for x in chunk)` */
  function AsciiPart(chunk: seq<byte>): (s: string)
    ensures |s| == |chunk|
    ensures forall k :: 0 <= k < |s| ==>
              if 32 <= chunk[k] < 127 then s[k] as int == chunk[k] as int else s[k] == '.'
  {
    seq(|chunk|, i requires 0 <= i < |chunk| => AsciiChar(chunk[i]))
  }

  /** `b[i : i + width]`; Python clamps both ends of a slice to `len(b)`. */
  function Chunk(b: seq<byte>, i: nat, width: nat): (c: seq<byte>)
    ensures |c| == if |b| <= i then 0 else if i + width <= |b| then width else |b| - i
    ensures forall j :: 0 <= j < |c| ==> i + j < |b| && c[j] == b[i + j]
  {
    if |b| <= i then [] else if i + width <= |b| then b[i..i + width] else b[i..]
  }

  /** The line printed for the chunk starting at offset `i`. */
  function DumpLine(b: seq<byte>, i: nat, width: nat): string {
    var chunk := Chunk(b, i, width);
    Offset(i) + "  " + PadRight(HexBytes(chunk), width * 3) + "  " + AsciiPart(chunk)
  }

  /** The number of offsets `range(0, n, width)` yields. */
  function LineTotal(n: nat, width: nat): nat
    requires width > 0
  {
    (n + width - 1) / width
  }

  /** `hexdump(b, width)`: one line for each offset of `range(0, len(b), width)`;
      `range` rejects a zero step, so `width > 0`. */
  function HexDump(b: seq<byte>, width: nat): seq<string>
    requires width > 0
  {
    seq(LineTotal(|b|, width), k requires 0 <= k => DumpLine(b, k * width, width))
  }

  // ---------------------------------------------------------------------------
  // What the dump shows

  /** `hexdump` prints ceil(len(b) / width) lines: the least `k` with
      `k * width >= len(b)`, so every line starts inside `b` and together they
      reach its end. */
  lemma LineCount(b: seq<byte>, width: nat)
    requires width > 0
    ensures var k := |HexDump(b, width)|; |b| <= k * width < |b| + width
    ensures forall k :: 0 <= k < |HexDump(b, width)| ==> k * width < |b|
  {
    var n := |b| + width - 1;
    var k := LineTotal(|b|, width);
    DivMod(n, width);
    assert k * width + n % width == n;
    forall l | 0 <= l < k
      ensures l * width < |b|
    {
      MulLess(l, k, width);
    }
  }

  lemma DivMod(p: nat, w: nat)
    requires w > 0
    ensures (p / w) * w + p % w == p && 0 <= p % w < w
  {
  }

  lemma MulCancel(l: nat, k: nat, w: nat)
    requires l * w < k * w
    ensures l < k
  {
  }

  lemma MulLess(l: nat, k: nat, w: nat)
    requires l < k
    ensures l * w + w <= k * w
  {
    var d := k - l - 1;
    assert k * w == l * w + w + d * w;
  }

  lemma {:induction false} HexNumberOfHex(n: nat)
    ensures HexNumber(Hex(n)) == n
    decreases n
  {
    var h := Hex(n);
    if n < 16 {
      assert h[..|h| - 1] == [];
    } else {
      HexNumberOfHex(n / 16);
      assert h[..|h| - 1] == Hex(n / 16);
    }
  }

  lemma {:induction false} HexShort(n: nat, k: nat)
    requires n < Pow16(k) && k > 0
    ensures |Hex(n)| <= k
    decreases k
  {
    if n >= 16 {
      assert n / 16 < Pow16(k - 1);
      HexShort(n / 16, k - 1);
    }
  }

  function Pow16(k: nat): nat {
    if k == 0 then 1 else 16 * Pow16(k - 1)
  }

  lemma {:induction false} LeadingZeros(k: nat, s: string)
    ensures HexNumber(Zeros(k) + s) == HexNumber(s)
    decreases |s|, k
  {
    if s == [] {
      if k > 0 {
        assert (Zeros(k) + s)[..k - 1] == Zeros(k - 1) + s;
        LeadingZeros(k - 1, s);
      }
    } else {
      assert (Zeros(k) + s)[..|Zeros(k) + s| - 1] == Zeros(k) + s[..|s| - 1];
      LeadingZeros(k, s[..|s| - 1]);
    }
  }

  /** Offsets below 16^8 take exactly eight lowercase hex digits, which read back as the offset. */
  lemma OffsetReadsBack(n: nat)
    requires n < 0x1_0000_0000
    ensures |Offset(n)| == 8 && HexDigits(Offset(n))
    ensures HexNumber(Offset(n)) == n
  {
    assert Pow16(8) == 0x1_0000_0000;
    HexShort(n, 8);
    HexNumberOfHex(n);
    var h := Hex(n);
    if |h| < 8 {
      LeadingZeros(8 - |h|, h);
    }
  }

  /** The value shown by the two hex digits at `s[p]`, `s[p + 1]`. */
  function ShownByte(s: string, p: nat): nat
    requires p + 1 < |s|
  {
    16 * HexValue(s[p]) + HexValue(s[p + 1])
  }

  /** Byte `j` of a chunk is shown in hex at columns `3j`, `3j + 1` of the hex
      column, followed by a space unless it is the last one. */
  lemma {:induction false} HexBytesAt(chunk: seq<byte>, j: nat)
    requires j < |chunk|
    ensures 3 * j + 1 < |HexBytes(chunk)|
    ensures IsHexDigit(HexBytes(chunk)[3 * j]) && IsHexDigit(HexBytes(chunk)[3 * j + 1])
    ensures ShownByte(HexBytes(chunk), 3 * j) == chunk[j] as int
    ensures j < |chunk| - 1 ==> HexBytes(chunk)[3 * j + 2] == ' '
    decreases j
  {
    var s := HexBytes(chunk);
    if j == 0 {
      assert s[..2] == ByteHex(chunk[0]);
    } else {
      HexBytesAt(chunk[1..], j - 1);
      var t := HexBytes(chunk[1..]);
      assert s == ByteHex(chunk[0]) + " " + t;
      assert s[3 * j] == t[3 * (j - 1)] && s[3 * j + 1] == t[3 * (j - 1) + 1];
      assert j < |chunk| - 1 ==> s[3 * j + 2] == t[3 * (j - 1) + 2];
    }
  }

  /** `line` is a dump line for offset `offset` that shows byte `x` as the
      `j`-th byte of its chunk: as two lowercase hex digits at column `10 + 3 * j`
      and in ASCII at column `12 + 3 * width + j`; the line opens with the offset
      in eight lowercase hex digits. */
  predicate ShowsByte(line: string, offset: int, width: nat, j: nat, x: byte) {
    j < width && 13 + 3 * width + j <= |line| &&
    HexDigits(line[..8]) && HexNumber(line[..8]) == offset &&
    IsHexDigit(line[10 + 3 * j]) && IsHexDigit(line[11 + 3 * j]) &&
    ShownByte(line, 10 + 3 * j) == x as int &&
    line[12 + 3 * width + j] == AsciiChar(x)
  }

  /** The columns of the line for the chunk at offset `i`: the offset in eight
      hex digits, then byte `j` of the chunk in hex and in ASCII. */
  lemma LineLayout(b: seq<byte>, i: nat, width: nat, j: nat)
    requires i < 0x1_0000_0000 && i + j < |b| && j < width
    ensures ShowsByte(DumpLine(b, i, width), i, width, j, b[i + j])
  {
    var chunk := Chunk(b, i, width);
    OffsetReadsBack(i);
    assert j < |chunk| && chunk[j] == b[i + j];
    HexBytesAt(chunk, j);
    HexColumns(b, i, width, j);
    AsciiColumn(b, i, width, j);
  }

  /** Where the offset and the hex digits of byte `j` sit in a dump line. */
  lemma HexColumns(b: seq<byte>, i: nat, width: nat, j: nat)
    requires |Offset(i)| == 8 && j < |Chunk(b, i, width)|
    ensures var hexCol := HexBytes(Chunk(b, i, width));
            var line := DumpLine(b, i, width);
            3 * j + 1 < |hexCol| && 12 + 3 * j <= |line| && line[..8] == Offset(i) &&
            line[10 + 3 * j] == hexCol[3 * j] && line[11 + 3 * j] == hexCol[3 * j + 1]
  {
    var chunk := Chunk(b, i, width);
    var hexCol := HexBytes(chunk);
    var hex := PadRight(hexCol, width * 3);
    assert hex[3 * j] == hexCol[3 * j] && hex[3 * j + 1] == hexCol[3 * j + 1];
    Fields(Offset(i), hex, AsciiPart(chunk), 3 * j, 0);
    Fields(Offset(i), hex, AsciiPart(chunk), 3 * j + 1, 0);
  }

  /** Where the ASCII rendering of byte `j` sits in a dump line. */
  lemma AsciiColumn(b: seq<byte>, i: nat, width: nat, j: nat)
    requires |Offset(i)| == 8 && j < |Chunk(b, i, width)|
    ensures var line := DumpLine(b, i, width);
            13 + 3 * width + j <= |line| &&
            line[12 + 3 * width + j] == AsciiChar(Chunk(b, i, width)[j])
  {
    var chunk := Chunk(b, i, width);
    var hex := PadRight(HexBytes(chunk), width * 3);
    assert |hex| == 3 * width;
    Fields(Offset(i), hex, AsciiPart(chunk), 0, j);
  }

  /** Indexing into `o + "  " + h + "  " + a`. */
  lemma Fields(o: string, h: string, a: string, k: nat, j: nat)
    requires |o| == 8 && 0 <= k < |h| && 0 <= j < |a|
    ensures var line := o + "  " + h + "  " + a;
            |line| == 12 + |h| + |a| && line[..8] == o &&
            line[10 + k] == h[k] && line[12 + |h| + j] == a[j]
  {
  }

  /**
   * Nothing is lost: byte `p` of the input appears on line `p / width`, whose
   * offset field reads `(p / width) * width`, as byte `p % width` of that line
   * (for inputs whose offsets fit eight digits).
   */
  lemma ByteShown(b: seq<byte>, width: nat, p: nat)
    requires width > 0 && p < |b| <= 0x1_0000_0000
    ensures p / width < |HexDump(b, width)|
    ensures ShowsByte(HexDump(b, width)[p / width], (p / width) * width, width, p % width, b[p])
  {
    var k, j := p / width, p % width;
    DivMod(p, width);
    ByteShownAt(b, width, k, k * width, j);
  }

  lemma ByteShownAt(b: seq<byte>, width: nat, k: nat, i: nat, j: nat)
    requires i == k * width && j < width && i + j < |b| <= 0x1_0000_0000
    ensures k < |HexDump(b, width)|
    ensures ShowsByte(HexDump(b, width)[k], i, width, j, b[i + j])
  {
    LineCount(b, width);
    MulCancel(k, |HexDump(b, width)|, width);
    LineLayout(b, i, width, j);
  }
}
