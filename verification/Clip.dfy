/** Copies through the terminal: the tail of a text that one OSC 52 carries. */
module Clip {
  import opened Utf8

  /** What the bytes of a text may come to, less 8 of framing, at base64's 3 in 4. */
  const OSC52_CAP := (100_000 - 8) / 4 * 3

  /** The last `cap` bytes, snapped forward to a char boundary; all of a text that
      fits. */
  function TailBytes(t: Text, cap: nat): seq<Byte> {
    var bytes := Bytes(t);
    if |bytes| <= cap then bytes
    else
      CeilInRange(t, |bytes| - cap);
      bytes[Ceil(t, |bytes| - cap)..]
  }

  /** A suffix that begins on a char boundary. */
  predicate AlignedSuffix(t: Text, s: seq<Byte>) {
    |s| <= |Bytes(t)| && Boundary(t, |Bytes(t)| - |s|) && s == Bytes(t)[|Bytes(t)| - |s|..]
  }

  /** The tail is a boundary-aligned suffix within the cap, and the longest such. */
  lemma TailIsLongest(t: Text, cap: nat, s: seq<Byte>)
    ensures AlignedSuffix(t, TailBytes(t, cap)) && |TailBytes(t, cap)| <= cap
    ensures AlignedSuffix(t, s) && |s| <= cap ==> |s| <= |TailBytes(t, cap)|
  {
    var bytes := Bytes(t);
    assert Offset(t, 0) == 0 && Boundary(t, 0);
    if |bytes| > cap { CeilIsLeast(t, |bytes| - cap, if |s| <= |bytes| then |bytes| - |s| else 0); }
  }

  // ── Base64, as section 4 of RFC 4648 lays it out ─────────────────────────

  type Six = n: nat | n < 64

  /** The digit six bits name. */
  function Digit(n: Six): char {
    if n < 26 then 'A' + n as char
    else if n < 52 then 'a' + (n - 26) as char
    else if n < 62 then '0' + (n - 52) as char
    else if n == 62 then '+'
    else '/'
  }

  // The four groups of six bits in three bytes.

  function First(a: Byte): Six { a / 4 }

  function Second(a: Byte, b: Byte): Six { a % 4 * 16 + b / 16 }

  function Third(b: Byte, c: Byte): Six { b % 16 * 4 + c / 64 }

  function Fourth(c: Byte): Six { c % 64 }

  /** Three bytes in four digits; the last one or two padded. */
  function Base64(bs: seq<Byte>): (s: string) {
    if bs == [] then []
    else if |bs| == 1 then [Digit(First(bs[0])), Digit(Second(bs[0], 0)), '=', '=']
    else if |bs| == 2 then [Digit(First(bs[0])), Digit(Second(bs[0], bs[1])), Digit(Third(bs[1], 0)), '=']
    else
      [Digit(First(bs[0])), Digit(Second(bs[0], bs[1])), Digit(Third(bs[1], bs[2])), Digit(Fourth(bs[2]))] + Base64(bs[3..])
  }

  lemma {:induction false} Base64Length(bs: seq<Byte>)
    ensures |Base64(bs)| == (|bs| + 2) / 3 * 4
  {
    if |bs| > 2 {
      Base64Length(bs[3..]);
      assert (|bs| + 2) / 3 == (|bs[3..]| + 2) / 3 + 1;
    }
  }

  function Osc52(bs: seq<Byte>): string {
    "\U{1B}]52;c;" + Base64(bs) + "\U{07}"
  }

  lemma Osc52Length(bs: seq<Byte>)
    ensures |Osc52(bs)| == 8 + (|bs| + 2) / 3 * 4
  {
    Base64Length(bs);
    assert |"\U{1B}]52;c;"| == 7;
  }

  /** A sequence fits the 100 000 bytes terminals are assumed to accept exactly
      when its text fits the cap. */
  lemma CapIsExact(bs: seq<Byte>)
    ensures |Osc52(bs)| <= 100_000 <==> |bs| <= OSC52_CAP
  {
    Osc52Length(bs);
  }

  /** However long the text, its tail's sequence fits. */
  lemma TheTailFits(t: Text)
    ensures |Osc52(TailBytes(t, OSC52_CAP))| <= 100_000
  {
    TailIsLongest(t, OSC52_CAP, []);
    CapIsExact(TailBytes(t, OSC52_CAP));
  }

  /** A copy is whole exactly when the text fits. */
  lemma WholeIffItFits(t: Text, cap: nat)
    ensures TailBytes(t, cap) == Bytes(t) <==> |Bytes(t)| <= cap
  {
    TailIsLongest(t, cap, []);
  }

  // ── Reading it back ──────────────────────────────────────────────────────

  function DigitValue(c: char): Six {
    if 'A' <= c <= 'Z' then (c - 'A') as nat
    else if 'a' <= c <= 'z' then (c - 'a') as nat + 26
    else if '0' <= c <= '9' then (c - '0') as nat + 52
    else if c == '+' then 62
    else 63
  }

  lemma DigitReads(n: Six)
    ensures DigitValue(Digit(n)) == n && Digit(n) != '='
  {
  }

  function ByteOf(hi: int, lo: int): Byte
    requires 0 <= hi && 0 <= lo
  {
    (hi + lo) % 256
  }

  /** The bytes of a padded text of digits. */
  function Unbase(s: string): seq<Byte> {
    if |s| < 4 then []
    else
      var a, b, c, d := DigitValue(s[0]), DigitValue(s[1]), DigitValue(s[2]), DigitValue(s[3]);
      if s[2] == '=' then [ByteOf(a * 4, b / 16)]
      else if s[3] == '=' then [ByteOf(a * 4, b / 16), ByteOf(b % 16 * 16, c / 4)]
      else [ByteOf(a * 4, b / 16), ByteOf(b % 16 * 16, c / 4), ByteOf(c % 4 * 64, d)] + Unbase(s[4..])
  }

  lemma SecondSplits(a: Byte, b: Byte)
    ensures Second(a, b) / 16 == a % 4 && Second(a, b) % 16 == b / 16
  {
  }

  lemma ThirdSplits(b: Byte, c: Byte)
    ensures Third(b, c) / 4 == b % 16 && Third(b, c) % 4 == c / 64
  {
  }

  lemma SixesJoin(a: Byte, b: Byte, c: Byte)
    ensures ByteOf(First(a) * 4, Second(a, b) / 16) == a
    ensures ByteOf(Second(a, b) % 16 * 16, Third(b, c) / 4) == b
    ensures ByteOf(Third(b, c) % 4 * 64, Fourth(c)) == c
  {
    SecondSplits(a, b);
    ThirdSplits(b, c);
  }

  /** What is sent is what was copied. */
  lemma {:induction false} Base64ReadsBack(bs: seq<Byte>)
    ensures Unbase(Base64(bs)) == bs
  {
    if bs != [] {
      var a := bs[0];
      var b: Byte := if |bs| > 1 then bs[1] else 0;
      var c: Byte := if |bs| > 2 then bs[2] else 0;
      SixesJoin(a, b, c);
      DigitReads(First(a));
      DigitReads(Second(a, b));
      DigitReads(Third(b, c));
      DigitReads(Fourth(c));
      if |bs| > 2 {
        Base64ReadsBack(bs[3..]);
        GroupReads(a, b, c, bs[3..]);
        assert bs == [a, b, c] + bs[3..];
      }
    }
  }

  lemma GroupReads(a: Byte, b: Byte, c: Byte, rest: seq<Byte>)
    ensures Unbase([Digit(First(a)), Digit(Second(a, b)), Digit(Third(b, c)), Digit(Fourth(c))] + Base64(rest)) == [a, b, c] + Unbase(Base64(rest))
  {
    SixesJoin(a, b, c);
    DigitReads(First(a));
    DigitReads(Second(a, b));
    DigitReads(Third(b, c));
    DigitReads(Fourth(c));
    var s := [Digit(First(a)), Digit(Second(a, b)), Digit(Third(b, c)), Digit(Fourth(c))] + Base64(rest);
    assert s[4..] == Base64(rest);
  }

  // ── As published ─────────────────────────────────────────────────────────

  /** The alphabet of table 1 of RFC 4648: 'A' to 'Z', 'a' to 'z', '0' to '9', and two. */
  lemma TheAlphabet(n: Six)
    ensures Digit(0) == 'A' && Digit(25) == 'Z' && Digit(26) == 'a' && Digit(51) == 'z' && Digit(52) == '0' && Digit(61) == '9'
    ensures Digit(62) == '+' && Digit(63) == '/'
    ensures n < 61 && n != 25 && n != 51 ==> Digit(n + 1) as int == Digit(n) as int + 1
  {
  }

  /** The test vectors of section 10 of RFC 4648, "f" to "foobar", and their framing. */
  lemma TheVectors()
    ensures Base64([102]) == "Zg==" && Base64([102, 111]) == "Zm8=" && Base64([102, 111, 111]) == "Zm9v"
    ensures Base64([102, 111, 111, 98]) == "Zm9vYg==" && Base64([102, 111, 111, 98, 97]) == "Zm9vYmE="
    ensures Base64([102, 111, 111, 98, 97, 114]) == "Zm9vYmFy"
    ensures forall bs :: Osc52(bs) == [27 as char] + "]52;c;" + Base64(bs) + [7 as char]
  {
    assert [102, 111, 111][3..] == [] && [102, 111, 111, 98][3..] == [98];
    assert [102, 111, 111, 98, 97][3..] == [98, 97] && [102, 111, 111, 98, 97, 114][3..] == [98, 97, 114] && [98, 97, 114][3..] == [];
    assert Base64([98, 97, 114]) == "YmFy";
    forall bs ensures Osc52(bs) == [27 as char] + "]52;c;" + Base64(bs) + [7 as char] {
      assert "\U{1B}]52;c;" == [27 as char] + "]52;c;" && "\U{07}" == [7 as char];
    }
  }
}
