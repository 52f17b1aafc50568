/**
 Canonical lowercase UUIDv7 text (sections 4, 5.7 and 6.11 of RFC 9562): what a generator writes, what a validator
 accepts, and how the text orders. A UUID is its 32 hexadecimal digits; text inserts four dashes between them.
 */
module Uuid {

  import opened Wrappers

  type byte = x: int | 0 <= x < 0x100

  type digit = x: int | 0 <= x < 0x10

  const TWO_48: nat := 0x1_0000_0000_0000

  const TWO_64: nat := 0x1_0000_0000_0000_0000

  // ---------- Text and digits ----------

  function HexDigit(n: digit): char {
    if n < 10 then '0' + n as char else 'a' + (n - 10) as char
  }

  predicate IsHex(c: char) {
    '0' <= c <= '9' || 'a' <= c <= 'f'
  }

  function HexValue(c: char): digit
    requires IsHex(c)
  {
    if c <= '9' then c as int - '0' as int else c as int - 'a' as int + 10
  }

  predicate IsDash(i: int) {
    i == 8 || i == 13 || i == 18 || i == 23
  }

  /** Where digit `k` stands in the text. */
  function CharIndex(k: nat): nat {
    if k < 8 then k else if k < 12 then k + 1 else if k < 16 then k + 2 else if k < 20 then k + 3 else k + 4
  }

  /** Which digit stands at position `i` of the text. */
  function DigitIndex(i: nat): (k: int)
    requires !IsDash(i)
    ensures k >= 0 && CharIndex(k) == i
  {
    if i < 8 then i else if i < 13 then i - 1 else if i < 18 then i - 2 else if i < 23 then i - 3 else i - 4
  }

  function Text(ds: seq<digit>): (s: string)
    requires |ds| == 32
    ensures |s| == 36
  {
    seq(36, i requires 0 <= i < 36 => if IsDash(i) then '-' else HexDigit(ds[DigitIndex(i)]))
  }

  predicate IsCanonical(s: string) {
    && |s| == 36
    && forall i :: 0 <= i < 36 ==> if IsDash(i) then s[i] == '-' else IsHex(s[i])
  }

  function Digits(s: string): (ds: seq<digit>)
    requires IsCanonical(s)
    ensures |ds| == 32
  {
    seq(32, k requires 0 <= k < 32 => HexValue(s[CharIndex(k)]))
  }

  /** What the platform calls a UUIDv7: canonical text, version digit 7, variant digit 8 to b. */
  predicate IsV7(s: string) {
    IsCanonical(s) && s[14] == '7' && (s[19] == '8' || s[19] == '9' || s[19] == 'a' || s[19] == 'b')
  }

  /** Text and digits are in bijection. */
  lemma TextOfDigits(ds: seq<digit>)
    requires |ds| == 32
    ensures IsCanonical(Text(ds)) && Digits(Text(ds)) == ds
  {
    forall k | 0 <= k < 32
      ensures DigitIndex(CharIndex(k)) == k
    {
    }
  }

  lemma DigitsOfText(s: string)
    requires IsCanonical(s)
    ensures Text(Digits(s)) == s
  {
    forall i | 0 <= i < 36
      ensures Text(Digits(s))[i] == s[i]
    {
    }
  }

  // ---------- Numeric value and order ----------

  /** The number that a sequence of digits denotes, most significant first. */
  function Value(ds: seq<digit>): nat {
    if ds == [] then 0 else 16 * Value(ds[..|ds| - 1]) + ds[|ds| - 1]
  }

  /** Strict lexicographic order of digit sequences, decided at position `k`. */
  predicate LessAt(a: seq<digit>, b: seq<digit>, k: nat) {
    k < |a| && k < |b| && a[..k] == b[..k] && a[k] < b[k]
  }

  ghost predicate Less(a: seq<digit>, b: seq<digit>) {
    exists k :: LessAt(a, b, k)
  }

  /** Strict lexicographic order of texts, decided at position `k`. */
  predicate TextLessAt(s: string, t: string, k: nat) {
    k < |s| && k < |t| && s[..k] == t[..k] && s[k] < t[k]
  }

  ghost predicate TextLess(s: string, t: string) {
    exists k :: TextLessAt(s, t, k)
  }

  lemma {:induction false} ValueOrder(a: seq<digit>, b: seq<digit>)
    requires |a| == |b|
    ensures Value(a) == Value(b) <==> a == b
    ensures Value(a) < Value(b) <==> Less(a, b)
  {
    if a != [] {
      var n := |a| - 1;
      ValueOrder(a[..n], b[..n]);
      assert a == a[..n] + [a[n]] && b == b[..n] + [b[n]];
      if a[..n] == b[..n] && a[n] < b[n] {
        assert LessAt(a, b, n);
      }
      if Less(a[..n], b[..n]) {
        var k: nat :| LessAt(a[..n], b[..n], k);
        assert a[..n][..k] == a[..k] && b[..n][..k] == b[..k];
        assert LessAt(a, b, k);
      }
      if Less(a, b) {
        var k: nat :| LessAt(a, b, k);
        assert a[..n][..k] == a[..k] && b[..n][..k] == b[..k];
        if k < n {
          assert LessAt(a[..n], b[..n], k);
        }
      }
    }
  }

  /** Canonical texts sort as the numbers they denote. */
  lemma TextOrder(a: seq<digit>, b: seq<digit>)
    requires |a| == |b| == 32
    ensures TextLess(Text(a), Text(b)) <==> Value(a) < Value(b)
  {
    ValueOrder(a, b);
    var s, t := Text(a), Text(b);
    if Less(a, b) {
      var k: nat :| LessAt(a, b, k);
      forall i | 0 <= i < CharIndex(k)
        ensures s[i] == t[i]
      {
        assert !IsDash(i) ==> DigitIndex(i) < k && a[DigitIndex(i)] == a[..k][DigitIndex(i)] == b[DigitIndex(i)];
      }
      assert TextLessAt(s, t, CharIndex(k));
    }
    if TextLess(s, t) {
      var i: nat :| TextLessAt(s, t, i);
      var k := DigitIndex(i);
      forall j | 0 <= j < k
        ensures a[j] == b[j]
      {
        TextOfDigits(a);
        TextOfDigits(b);
        assert s[..i][CharIndex(j)] == t[..i][CharIndex(j)];
      }
      assert LessAt(a, b, k);
    }
  }

  // ---------- Generation ----------

  /** The low 8*k bits of `t` as k bytes, most significant first. */
  function BigEndian(t: int, k: nat): (bs: seq<byte>)
    ensures |bs| == k
    decreases k
  {
    if k == 0 then [] else BigEndian(t / 0x100, k - 1) + [t % 0x100]
  }

  /** The sixteen bytes of a UUIDv7: 48 bits of time, then the random bytes with version and variant written over. */
  function Bytes(t: int, random: seq<byte>): (bs: seq<byte>)
    requires |random| == 16
    ensures |bs| == 16
  {
    BigEndian(t, 6) + [0x70 + random[6] % 0x10, random[7], 0x80 + random[8] % 0x40] + random[9..]
  }

  function DigitAt(bs: seq<byte>, k: nat): digit
    requires k < 2 * |bs|
  {
    if k % 2 == 0 then bs[k / 2] / 0x10 else bs[k / 2] % 0x10
  }

  function Pack(hi: digit, lo: digit): byte {
    0x10 * hi as int + lo as int
  }

  function DigitsOf(bs: seq<byte>): (ds: seq<digit>)
    ensures |ds| == 2 * |bs|
  {
    seq(2 * |bs|, k requires 0 <= k < 2 * |bs| => DigitAt(bs, k))
  }

  function Generate(t: int, random: seq<byte>): string
    requires |random| == 16
  {
    Text(DigitsOf(Bytes(t, random)))
  }

  /** The millisecond timestamp that a canonical text carries. */
  function Timestamp(s: string): nat
    requires IsCanonical(s)
  {
    Value(Digits(s)[..12])
  }

  /** The 74 bits of a UUIDv7 that are neither time, version nor variant. */
  function RandomPart(ds: seq<digit>): seq<digit>
    requires |ds| == 32
  {
    ds[13..16] + [ds[16] % 4] + ds[17..]
  }

  lemma ModUnique(t: int, m: int, q: int, r: int)
    requires 0 < m && t == m * q + r && 0 <= r < m
    ensures t % m == r
  {
    var d := q - t / m;
    assert m * d == t % m - r;
    assert d >= 1 ==> m * d >= m;
    assert d <= -1 ==> m * d <= -m;
  }

  /** Taking a number apart at its last byte commutes with reduction. */
  lemma ModByByte(t: int, m: int)
    requires 0 < m
    ensures 0x100 * (t / 0x100 % m) + t % 0x100 == t % (0x100 * m)
  {
    var q, r := t / 0x100, t % 0x100;
    var u, v := q / m, q % m;
    assert (0x100 * m) * u == 0x100 * (m * u);
    ModUnique(t, 0x100 * m, u, 0x100 * v + r);
  }

  function Pow256(k: nat): (r: nat)
    ensures r > 0
  {
    if k == 0 then 1 else 0x100 * Pow256(k - 1)
  }

  lemma ValueOfDigitsOf(bs: seq<byte>, b: byte)
    ensures Value(DigitsOf(bs + [b])) == 0x100 * Value(DigitsOf(bs)) + b
  {
    var ds := DigitsOf(bs + [b]);
    assert ds == DigitsOf(bs) + [b / 0x10] + [b % 0x10];
    assert ds[..|ds| - 1] == DigitsOf(bs) + [b / 0x10];
    assert ds[..|ds| - 1][..|ds| - 2] == DigitsOf(bs);
  }

  lemma {:induction false} ValueOfBigEndian(t: int, k: nat)
    ensures Value(DigitsOf(BigEndian(t, k))) == t % Pow256(k)
    decreases k
  {
    if k == 0 {
      assert DigitsOf(BigEndian(t, 0)) == [];
    } else {
      ValueOfBigEndian(t / 0x100, k - 1);
      ValueOfDigitsOf(BigEndian(t / 0x100, k - 1), t % 0x100);
      ModByByte(t, Pow256(k - 1));
    }
  }

  lemma Pow256OfSix()
    ensures Pow256(6) == TWO_48
  {
    assert Pow256(3) == 0x100_0000;
    assert Pow256(4) == 0x100 * Pow256(3);
  }

  lemma GeneratedDigit(t: int, random: seq<byte>, k: nat)
    requires |random| == 16 && 13 <= k < 32 && k != 16
    ensures DigitsOf(Bytes(t, random))[k] == DigitsOf(random)[k]
  {
    var bs, i := Bytes(t, random), k / 2;
    if i == 6 || i == 8 {
      VariantBits(random[8]);
    } else {
      assert i >= 9 ==> bs[i] == random[9..][i - 9];
      assert bs[i] == random[i];
    }
  }

  /** The parts of what is generated: the time modulo 2^48, the version, the variant, and the random bits. */
  lemma GeneratedParts(t: int, random: seq<byte>)
    requires |random| == 16
    ensures var ds := DigitsOf(Bytes(t, random));
      && Value(ds[..12]) == t % TWO_48
      && ds[12] == 7 && ds[16] / 4 == 2
      && RandomPart(ds) == RandomPart(DigitsOf(random))
  {
    var bs := Bytes(t, random);
    var ds, rs := DigitsOf(bs), DigitsOf(random);
    assert ds[..12] == DigitsOf(BigEndian(t, 6));
    ValueOfBigEndian(t, 6);
    Pow256OfSix();
    VariantBits(random[8]);
    assert ds[16] == DigitAt(bs, 16) && rs[16] == DigitAt(random, 16);
    forall k | 13 <= k < 32 && k != 16
      ensures ds[k] == rs[k]
    {
      GeneratedDigit(t, random, k);
    }
    assert ds[13..16] == rs[13..16] && ds[17..] == rs[17..];
  }

  lemma VariantBits(b: byte)
    ensures (0x80 + b % 0x40) / 0x10 / 4 == 2
    ensures (0x80 + b % 0x40) / 0x10 % 4 == b / 0x10 % 4
    ensures (0x80 + b % 0x40) % 0x10 == b % 0x10
  {
  }

  /** Every generated text is a UUIDv7 whose timestamp and 74 random bits can be read back. */
  lemma GenerateRoundTrip(t: int, random: seq<byte>)
    requires |random| == 16
    ensures IsV7(Generate(t, random))
    ensures Timestamp(Generate(t, random)) == t % TWO_48
    ensures RandomPart(Digits(Generate(t, random))) == RandomPart(DigitsOf(random))
  {
    var ds := DigitsOf(Bytes(t, random));
    TextOfDigits(ds);
    GeneratedParts(t, random);
    assert DigitIndex(14) == 12 && DigitIndex(19) == 16;
  }

  /** Digits that agree in their time value, version digit, variant bits and random part are equal. */
  lemma SameParts(ds: seq<digit>, es: seq<digit>)
    requires |ds| == |es| == 32
    requires Value(ds[..12]) == Value(es[..12]) && ds[12] == es[12] && ds[16] / 4 == es[16] / 4
    requires RandomPart(ds) == RandomPart(es)
    ensures ds == es
  {
    ValueOrder(ds[..12], es[..12]);
    var p, q := RandomPart(ds), RandomPart(es);
    forall k | 0 <= k < 32
      ensures ds[k] == es[k]
    {
      if k < 12 {
        assert ds[k] == ds[..12][k] == es[..12][k];
      } else if k > 12 {
        assert p[k - 13] == q[k - 13];
      }
    }
  }

  /** The sixteen bytes that 32 digits spell. */
  function RawBytes(ds: seq<digit>): (bs: seq<byte>)
    requires |ds| == 32
    ensures |bs| == 16
  {
    seq(16, i requires 0 <= i < 16 => Pack(ds[2 * i], ds[2 * i + 1]))
  }

  lemma DigitsOfRawBytes(ds: seq<digit>)
    requires |ds| == 32
    ensures DigitsOf(RawBytes(ds)) == ds
  {
    var bs := RawBytes(ds);
    forall k | 0 <= k < 32
      ensures DigitAt(bs, k) == ds[k]
    {
      assert k == 2 * (k / 2) + k % 2;
    }
  }

  /** Digits with the right version and variant are regenerated from their own time and their own bytes. */
  lemma RegenerateDigits(ds: seq<digit>, t: nat)
    requires |ds| == 32 && ds[12] == 7 && ds[16] / 4 == 2
    requires t == Value(ds[..12])
    ensures DigitsOf(Bytes(t, RawBytes(ds))) == ds
  {
    assert t % TWO_48 == Value(ds[..12]) by {
      TimestampBound(ds[..12]);
    }
    GeneratedParts(t, RawBytes(ds));
    DigitsOfRawBytes(ds);
    SameParts(DigitsOf(Bytes(t, RawBytes(ds))), ds);
  }

  /** An accepted text is what the generator writes from its own timestamp and its own bytes. */
  lemma Regenerate(s: string)
    requires IsV7(s)
    ensures s == Generate(Timestamp(s), RawBytes(Digits(s)))
  {
    VersionDigits(s);
    RegenerateDigits(Digits(s), Timestamp(s));
    DigitsOfText(s);
  }

  lemma VersionDigits(s: string)
    requires IsV7(s)
    ensures Digits(s)[12] == 7 && Digits(s)[16] / 4 == 2
  {
    assert CharIndex(12) == 14 && CharIndex(16) == 19;
  }

  /** The validator accepts exactly the texts the generator can write. */
  lemma AcceptedIffGenerated(s: string)
    ensures IsV7(s) <==> exists t: int, random: seq<byte> :: |random| == 16 && s == Generate(t, random)
  {
    if IsV7(s) {
      Regenerate(s);
    }
    if t: int, random: seq<byte> :| |random| == 16 && s == Generate(t, random) {
      GenerateRoundTrip(t, random);
    }
  }

  lemma {:induction false} ValueBound(ds: seq<digit>)
    ensures |ds| % 2 == 0 ==> Value(ds) < Pow256(|ds| / 2)
  {
    if |ds| >= 2 && |ds| % 2 == 0 {
      var n := |ds|;
      ValueBound(ds[..n - 2]);
      assert ds[..n - 1][..n - 2] == ds[..n - 2];
      assert Value(ds[..n - 1]) == 16 * Value(ds[..n - 2]) + ds[n - 2];
    }
  }

  lemma TimestampBound(ds: seq<digit>)
    requires |ds| == 12
    ensures Value(ds) < TWO_48
  {
    ValueBound(ds);
    Pow256OfSix();
  }

  /** Two generated texts are equal exactly when they carry the same 48-bit time and the same 74 random bits. */
  lemma GenerateInjective(t: int, random: seq<byte>, t': int, random': seq<byte>)
    requires |random| == |random'| == 16
    ensures Generate(t, random) == Generate(t', random')
       <==> t % TWO_48 == t' % TWO_48 && RandomPart(DigitsOf(random)) == RandomPart(DigitsOf(random'))
  {
    GenerateRoundTrip(t, random);
    GenerateRoundTrip(t', random');
    if t % TWO_48 == t' % TWO_48 && RandomPart(DigitsOf(random)) == RandomPart(DigitsOf(random')) {
      var ds, es := DigitsOf(Bytes(t, random)), DigitsOf(Bytes(t', random'));
      GeneratedParts(t, random);
      GeneratedParts(t', random');
      SameParts(ds, es);
    }
  }

  lemma LessByPrefix(ds: seq<digit>, es: seq<digit>, n: nat)
    requires n <= |ds| == |es|
    requires Less(ds[..n], es[..n])
    ensures Less(ds, es)
  {
    var k: nat :| LessAt(ds[..n], es[..n], k);
    assert ds[..n][..k] == ds[..k] && es[..n][..k] == es[..k];
    assert LessAt(ds, es, k);
  }

  /** A canonical text with the earlier timestamp is the smaller text, whatever follows the timestamps. */
  lemma TimestampOrder(s: string, s': string)
    requires IsCanonical(s) && IsCanonical(s')
    requires Timestamp(s) < Timestamp(s')
    ensures TextLess(s, s')
  {
    var ds, es := Digits(s), Digits(s');
    ValueOrder(ds[..12], es[..12]);
    LessByPrefix(ds, es, 12);
    ValueOrder(ds, es);
    TextOrder(ds, es);
    DigitsOfText(s);
    DigitsOfText(s');
  }

  lemma TimeReadBack(t: int, random: seq<byte>)
    requires |random| == 16 && 0 <= t < TWO_48
    ensures IsCanonical(Generate(t, random)) && Timestamp(Generate(t, random)) == t
  {
    GenerateRoundTrip(t, random);
  }

  /** Texts sort by time: below 2^48 milliseconds, an earlier timestamp always gives a smaller text. */
  lemma TextFollowsTime(t: int, random: seq<byte>, t': int, random': seq<byte>)
    requires |random| == |random'| == 16
    requires 0 <= t < t' < TWO_48
    ensures TextLess(Generate(t, random), Generate(t', random'))
  {
    TimeReadBack(t, random);
    TimeReadBack(t', random');
    TimestampOrder(Generate(t, random), Generate(t', random'));
  }

  // ---------- The Go generator and validator ----------

  /** hex.Encode into a slice of the destination. */
  method HexEncode(dst: array<char>, at: nat, src: array<byte>, lo: nat, hi: nat)
    requires lo <= hi <= src.Length && at + 2 * (hi - lo) <= dst.Length
    modifies dst
    ensures forall k :: at <= k < at + 2 * (hi - lo) ==> dst[k] == HexDigit(DigitAt(src[..], 2 * lo + k - at))
    ensures forall k :: 0 <= k < at || at + 2 * (hi - lo) <= k < dst.Length ==> dst[k] == old(dst[k])
  {
    for i := lo to hi
      invariant forall k :: at <= k < at + 2 * (i - lo) ==> dst[k] == HexDigit(DigitAt(src[..], 2 * lo + k - at))
      invariant forall k :: 0 <= k < at || at + 2 * (i - lo) <= k < dst.Length ==> dst[k] == old(dst[k])
    {
      var j := at + 2 * (i - lo);
      dst[j] := HexDigit(src[i] / 0x10);
      dst[j + 1] := HexDigit(src[i] % 0x10);
    }
  }

  /** Reduction modulo 2^64 keeps the low six bytes: the conversion to an unsigned timestamp loses nothing. */
  lemma WrappedBytes(t: int)
    ensures BigEndian(t % TWO_64, 6) == BigEndian(t, 6)
  {
    var bs, cs := BigEndian(t, 6), BigEndian(t % TWO_64, 6);
    ValueOfBigEndian(t, 6);
    ValueOfBigEndian(t % TWO_64, 6);
    Pow256OfSix();
    ModOfMod(t);
    ValueOrder(DigitsOf(bs), DigitsOf(cs));
    DigitsOfInjective(bs, cs);
  }

  lemma DigitsOfInjective(bs: seq<byte>, cs: seq<byte>)
    requires |bs| == |cs| && DigitsOf(bs) == DigitsOf(cs)
    ensures bs == cs
  {
    forall i | 0 <= i < |bs|
      ensures bs[i] == cs[i]
    {
      assert DigitAt(bs, 2 * i) == DigitsOf(bs)[2 * i] == DigitAt(cs, 2 * i);
      assert DigitAt(bs, 2 * i + 1) == DigitsOf(bs)[2 * i + 1] == DigitAt(cs, 2 * i + 1);
    }
  }

  lemma ModOfMod(t: int)
    ensures t % TWO_64 % TWO_48 == t % TWO_48
  {
    ModUnique(t, TWO_48, t / TWO_64 * 0x1_0000 + t % TWO_64 / TWO_48, t % TWO_64 % TWO_48);
  }

  /** The byte that a right shift by 8*k bits brings to the end. */
  function ShiftedByte(t: int, k: nat): byte
    decreases k
  {
    if k == 0 then t % 0x100 else ShiftedByte(t / 0x100, k - 1)
  }

  lemma {:induction false} BigEndianAt(t: int, n: nat, i: nat)
    requires i < n
    ensures BigEndian(t, n)[i] == ShiftedByte(t, n - 1 - i)
    decreases n
  {
    if i < n - 1 {
      BigEndianAt(t / 0x100, n - 1, i);
    }
  }

  lemma ShiftedByteOfDivision(t: int)
    ensures ShiftedByte(t, 1) == t / 0x100 % 0x100
    ensures ShiftedByte(t, 2) == t / 0x1_0000 % 0x100
    ensures ShiftedByte(t, 3) == t / 0x100_0000 % 0x100
    ensures ShiftedByte(t, 4) == t / 0x1_0000_0000 % 0x100
    ensures ShiftedByte(t, 5) == t / 0x100_0000_0000 % 0x100
  {
    var t2, t4 := t / 0x100 / 0x100, t / 0x100 / 0x100 / 0x100 / 0x100;
    DivisionOfSquare(t);
    DivisionOfSquare(t2);
    assert t2 / 0x1_0000 == t / 0x1_0000_0000;
    assert ShiftedByte(t, 2) == ShiftedByte(t2, 0);
    assert ShiftedByte(t, 3) == ShiftedByte(t2, 1);
    assert ShiftedByte(t, 4) == ShiftedByte(t2, 2) == ShiftedByte(t4, 0);
    assert ShiftedByte(t, 5) == ShiftedByte(t2, 3) == ShiftedByte(t4, 1);
    assert t4 / 0x100 == t / 0x100_0000_0000;
  }

  lemma DivisionOfSquare(t: int)
    ensures t / 0x100 / 0x100 == t / 0x1_0000
  {
  }

  lemma StampedBytes(t: int, random: seq<byte>, value: seq<byte>)
    requires |random| == |value| == 16
    requires var u := t % TWO_64;
      && value[0] == u / 0x100_0000_0000 % 0x100
      && value[1] == u / 0x1_0000_0000 % 0x100
      && value[2] == u / 0x100_0000 % 0x100
      && value[3] == u / 0x1_0000 % 0x100
      && value[4] == u / 0x100 % 0x100
      && value[5] == u % 0x100
    requires value[6] == 0x70 + random[6] % 0x10 && value[8] == 0x80 + random[8] % 0x40
    requires value[7] == random[7] && value[9..] == random[9..]
    ensures value == Bytes(t, random)
  {
    var u := t % TWO_64;
    WrappedBytes(t);
    ShiftedByteOfDivision(u);
    forall i | 0 <= i < 6
      ensures BigEndian(t, 6)[i] == value[i]
    {
      BigEndianAt(u, 6, i);
    }
    assert value == value[..6] + [value[6], value[7], value[8]] + value[9..];
  }

  /** The five groups of a text, each digit in its place. */
  lemma GroupsInPlace(bs: seq<byte>, s: string)
    requires |bs| == 16 && |s| == 36
    requires s[8] == '-' && s[13] == '-' && s[18] == '-' && s[23] == '-'
    requires forall k :: 0 <= k < 8 ==> s[k] == HexDigit(DigitAt(bs, k))
    requires forall k :: 9 <= k < 13 ==> s[k] == HexDigit(DigitAt(bs, k - 1))
    requires forall k :: 14 <= k < 18 ==> s[k] == HexDigit(DigitAt(bs, k - 2))
    requires forall k :: 19 <= k < 23 ==> s[k] == HexDigit(DigitAt(bs, k - 3))
    requires forall k :: 24 <= k < 36 ==> s[k] == HexDigit(DigitAt(bs, k - 4))
    ensures s == Text(DigitsOf(bs))
  {
    forall i | 0 <= i < 36
      ensures s[i] == Text(DigitsOf(bs))[i]
    {
      assert !IsDash(i) ==> s[i] == HexDigit(DigitAt(bs, DigitIndex(i)));
    }
  }

  method Format(value: array<byte>) returns (s: string)
    requires value.Length == 16
    ensures s == Text(DigitsOf(value[..]))
  {
    var encoded := new char[36];
    HexEncode(encoded, 0, value, 0, 4);
    encoded[8] := '-';
    HexEncode(encoded, 9, value, 4, 6);
    encoded[13] := '-';
    HexEncode(encoded, 14, value, 6, 8);
    encoded[18] := '-';
    HexEncode(encoded, 19, value, 8, 10);
    encoded[23] := '-';
    HexEncode(encoded, 24, value, 10, 16);
    s := encoded[..];
    GroupsInPlace(value[..], s);
  }

  /** newUUIDv7: overwrites time, version and variant in a block of random bytes, then formats it group by group. */
  method NewUuidV7(unixMilli: int, randomness: Option<seq<byte>>) returns (r: Result<string, string>)
    requires -0x8000_0000_0000_0000 <= unixMilli < 0x8000_0000_0000_0000
    requires randomness.Some? ==> |randomness.value| == 16
    ensures r.Ok? <==> randomness.Some?
    ensures r.Ok? ==> r.value == Generate(unixMilli, randomness.value)
  {
    if randomness.None? {
      return Err("randomness unavailable");
    }
    var random := randomness.value;
    var value := new byte[16](i requires 0 <= i < 16 => random[i]);
    var timestamp := unixMilli % TWO_64;
    value[0] := timestamp / 0x100_0000_0000 % 0x100;
    value[1] := timestamp / 0x1_0000_0000 % 0x100;
    value[2] := timestamp / 0x100_0000 % 0x100;
    value[3] := timestamp / 0x1_0000 % 0x100;
    value[4] := timestamp / 0x100 % 0x100;
    value[5] := timestamp % 0x100;
    value[6] := 0x70 + value[6] % 0x10;
    value[8] := 0x80 + value[8] % 0x40;
    forall i | 9 <= i < 16
      ensures value[..][i] == random[i]
    {
    }
    assert value[..][9..] == random[9..];
    StampedBytes(unixMilli, random, value[..]);

    var text := Format(value);
    r := Ok(text);
  }

  /** IsUUIDv7: fixed positions first, then every other character. */
  method IsUuidV7(value: string) returns (ok: bool)
    ensures ok <==> IsV7(value)
    ensures ok <==>
      && |value| == 36 && value[14] == '7' && value[19] in "89ab"
      && value[8] == '-' && value[13] == '-' && value[18] == '-' && value[23] == '-'
      && forall i :: 0 <= i < 36 && i != 8 && i != 13 && i != 18 && i != 23 ==>
           '0' <= value[i] <= '9' || 'a' <= value[i] <= 'f'
  {
    if |value| != 36 || value[8] != '-' || value[13] != '-' || value[18] != '-' || value[23] != '-' {
      return false;
    }
    if value[14] != '7' || (value[19] != '8' && value[19] != '9' && value[19] != 'a' && value[19] != 'b') {
      return false;
    }
    for index := 0 to |value|
      invariant forall i :: 0 <= i < index ==> if IsDash(i) then value[i] == '-' else IsHex(value[i])
    {
      if index == 8 || index == 13 || index == 18 || index == 23 {
        continue;
      }
      if !(('0' <= value[index] <= '9') || ('a' <= value[index] <= 'f')) {
        return false;
      }
    }
    return true;
  }

  // ---------- The TypeScript generator and pattern ----------

  predicate AllHex(s: string) {
    forall c <- s :: IsHex(c)
  }

  /** The pattern of the web client, group by group. */
  predicate MatchesClientPattern(s: string) {
    && |s| == 36
    && AllHex(s[..8]) && s[8] == '-'
    && AllHex(s[9..13]) && s[13] == '-'
    && s[14] == '7' && AllHex(s[15..18]) && s[18] == '-'
    && s[19] in "89ab" && AllHex(s[20..23]) && s[23] == '-'
    && AllHex(s[24..])
  }

  /** The client's pattern and the server's validator accept the same texts. */
  lemma ClientPatternAgrees(s: string)
    ensures MatchesClientPattern(s) <==> IsV7(s)
  {
    if MatchesClientPattern(s) {
      forall i | 0 <= i < 36
        ensures if IsDash(i) then s[i] == '-' else IsHex(s[i])
      {
        assert i < 8 ==> s[i] == s[..8][i];
        assert 9 <= i < 13 ==> s[i] == s[9..13][i - 9];
        assert 15 <= i < 18 ==> s[i] == s[15..18][i - 15];
        assert 20 <= i < 23 ==> s[i] == s[20..23][i - 20];
        assert 24 <= i ==> s[i] == s[24..][i - 24];
      }
    }
  }

  function HexText(bs: seq<byte>): string {
    seq(2 * |bs|, k requires 0 <= k < 2 * |bs| => HexDigit(DigitAt(bs, k)))
  }

  lemma GroupsJoined(bs: seq<byte>)
    requires |bs| == 16
    ensures var hex := HexText(bs);
      hex[..8] + "-" + hex[8..12] + "-" + hex[12..16] + "-" + hex[16..20] + "-" + hex[20..] == Text(DigitsOf(bs))
  {
  }

  /** The sixteen bytes, once the time is written and the version and variant bits are set. */
  lemma ShiftedOut(now: int, random: seq<byte>, value: seq<byte>)
    requires |random| == |value| == 16 && value[..6] == BigEndian(now, 6)
    requires value[6] == 0x70 + random[6] % 0x10 && value[8] == 0x80 + random[8] % 0x40
    requires value[7] == random[7] && value[9..] == random[9..]
    ensures value == Bytes(now, random)
  {
    assert value == value[..6] + [value[6], value[7], value[8]] + value[9..];
  }

  /** createCorrelationId: shifts the timestamp out byte by byte from the end; it writes what the server would write. */
  method CreateCorrelationId(now: int, random: seq<byte>) returns (s: string)
    requires |random| == 16
    ensures s == Generate(now, random)
  {
    var bytes := new byte[16](i requires 0 <= i < 16 => random[i]);
    var timestamp, index := now, 6;
    while index > 0
      invariant 0 <= index <= 6
      invariant BigEndian(now, 6) == BigEndian(timestamp, index) + bytes[index..6]
      invariant forall i :: 6 <= i < 16 ==> bytes[i] == random[i]
    {
      index := index - 1;
      bytes[index] := timestamp % 0x100;
      timestamp := timestamp / 0x100;
    }
    assert bytes[0..6] == bytes[..6] == BigEndian(now, 6);
    bytes[6] := 0x70 + bytes[6] % 0x10;
    bytes[8] := 0x80 + bytes[8] % 0x40;
    ShiftedOut(now, random, bytes[..]);
    var hex := HexText(bytes[..]);
    s := hex[..8] + "-" + hex[8..12] + "-" + hex[12..16] + "-" + hex[16..20] + "-" + hex[20..];
    GroupsJoined(bytes[..]);
  }

  // ---------- Identifiers as keys ----------

  /** The 128-bit value of a canonical identifier: what a uuid column stores and compares. */
  function Key(s: string): nat {
    if IsCanonical(s) then Value(Digits(s)) else 0
  }

  /** Distinct identifiers are distinct keys, and keys sort as the texts do. */
  lemma KeyInjective(s: string, t: string)
    requires IsCanonical(s) && IsCanonical(t)
    ensures Key(s) == Key(t) <==> s == t
    ensures Key(s) < Key(t) <==> TextLess(s, t)
  {
    ValueOrder(Digits(s), Digits(t));
    DigitsOfText(s);
    DigitsOfText(t);
    TextOrder(Digits(s), Digits(t));
  }
}
