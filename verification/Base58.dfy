/** Base58 public keys: radix conversion with leading zeroes kept apart. */
module Base58 {
  import opened Tables
  import opened LittleEndian

  const ALPHABET: string := "123456789" + "ABCDEFGH" + "JKLMN" + "PQRSTUVWXYZ" + "abcdefghijk" + "mnopqrstuvwxyz"

  predicate Known(c: char)
  {
    '1' <= c <= '9' || 'A' <= c <= 'H' || 'J' <= c <= 'N' || 'P' <= c <= 'Z' || 'a' <= c <= 'k' || 'm' <= c <= 'z'
  }

  predicate AllKnown(s: string) { forall i :: 0 <= i < |s| ==> Known(s[i]) }

  /** The digit a character stands for: its place in the alphabet. */
  function Digit(c: char): (d: nat)
    requires Known(c)
    ensures d < 58
  {
    if c <= '9' then c as int - '1' as int
    else if c <= 'H' then c as int - 'A' as int + 9
    else if c <= 'N' then c as int - 'J' as int + 17
    else if c <= 'Z' then c as int - 'P' as int + 22
    else if c <= 'k' then c as int - 'a' as int + 33
    else c as int - 'm' as int + 44
  }

  function Symbol(d: nat): (c: char)
    requires d < 58
    ensures Known(c) && Digit(c) == d
  {
    if d < 9 then (d + '1' as int) as char
    else if d < 17 then (d - 9 + 'A' as int) as char
    else if d < 22 then (d - 17 + 'J' as int) as char
    else if d < 33 then (d - 22 + 'P' as int) as char
    else if d < 44 then (d - 33 + 'a' as int) as char
    else (d - 44 + 'm' as int) as char
  }

  lemma SymbolOfDigit(c: char)
    requires Known(c)
    ensures Symbol(Digit(c)) == c
  {
  }

  /** The character ranges spell out the alphabet. */
  lemma AlphabetIsSymbols(d: nat)
    requires d < 58
    ensures |ALPHABET| == 58 && ALPHABET[d] == Symbol(d)
  {
    var a, b, c := "123456789" + "ABCDEFGH", "JKLMN" + "PQRSTUVWXYZ", "abcdefghijk" + "mnopqrstuvwxyz";
    assert ALPHABET == a + b + c;
    if d < 17 {
      assert ALPHABET[d] == a[d];
    } else if d < 33 {
      assert ALPHABET[d] == b[d - 17];
    } else {
      assert ALPHABET[d] == c[d - 33];
    }
  }

  function Number(s: string): nat
    requires AllKnown(s)
  {
    if |s| == 0 then 0 else Number(s[..|s| - 1]) * 58 + Digit(s[|s| - 1])
  }

  function BitLength(n: nat): nat { if n == 0 then 0 else 1 + BitLength(n / 2) }

  /** The number of bytes `to_bytes` is asked for. */
  function Width(n: nat): nat { (BitLength(n) + 7) / 8 }

  function BigEndian(n: nat, width: nat): (b: seq<byte>)
    ensures |b| == width
  {
    if width == 0 then [] else BigEndian(n / 256, width - 1) + [n % 256]
  }

  function LeadingOnes(s: string): (k: nat)
    ensures k <= |s| && (forall i :: 0 <= i < k ==> s[i] == '1') && (k < |s| ==> s[k] != '1')
  {
    if |s| == 0 || s[0] != '1' then 0 else 1 + LeadingOnes(s[1..])
  }

  function Zeroes(n: nat): (b: seq<byte>)
    ensures |b| == n && forall i :: 0 <= i < n ==> b[i] == 0
  {
    if n == 0 then [] else [0] + Zeroes(n - 1)
  }

  /** What decoding yields: nothing for a foreign character. */
  function Decode(s: string): Option<seq<byte>>
  {
    if !AllKnown(s) then None else Some(Zeroes(LeadingOnes(s)) + BigEndian(Number(s), Width(Number(s))))
  }

  method DecodeBase58(s: string) returns (r: Option<seq<byte>>)
    ensures r == Decode(s)
  {
    var number: nat := 0;
    for i := 0 to |s|
      invariant AllKnown(s[..i]) && number == Number(s[..i])
    {
      if !Known(s[i]) {
        return None;
      }
      assert s[..i + 1][..i] == s[..i] && s[..i + 1][i] == s[i];
      number := number * 58 + Digit(s[i]);
    }
    assert s[..|s|] == s;
    var ones := 0;
    while ones < |s| && s[ones] == '1'
      invariant ones <= |s| && LeadingOnes(s) == ones + LeadingOnes(s[ones..])
    {
      assert s[ones..][1..] == s[ones + 1..];
      ones := ones + 1;
    }
    r := Some(Zeroes(ones) + BigEndian(number, Width(number)));
  }

  /** Accepts a public key: the length guard, then the decoded size. */
  method RequirePubkey(s: string) returns (ok: bool)
    ensures ok <==> Decode(s).Some? && |Decode(s).value| == 32
  {
    if !(32 <= |s| <= 44) {
      if Decode(s).Some? && |Decode(s).value| == 32 {
        LengthGuardIsRedundant(s);
      }
      return false;
    }
    var decoded := DecodeBase58(s);
    ok := decoded.Some? && |decoded.value| == 32;
  }

  // ----- powers

  function Pow(b: nat, n: nat): (p: nat)
    ensures b > 0 ==> p > 0
  {
    if n == 0 then 1 else b * Pow(b, n - 1)
  }

  lemma {:induction false} PowAdd(b: nat, m: nat, n: nat)
    ensures Pow(b, m + n) == Pow(b, m) * Pow(b, n)
  {
    if m > 0 {
      PowAdd(b, m - 1, n);
      calc {
        Pow(b, m + n);
        b * (Pow(b, m - 1) * Pow(b, n));
        Pow(b, m) * Pow(b, n);
      }
    }
  }

  lemma {:induction false} PowMonotone(b: nat, m: nat, n: nat)
    requires b > 0 && m <= n
    ensures Pow(b, m) <= Pow(b, n)
    decreases n
  {
    if m < n {
      PowMonotone(b, m, n - 1);
      assert b * Pow(b, n - 1) >= 1 * Pow(b, n - 1);
    }
  }

  lemma {:induction false} PowBase(n: nat)
    ensures Pow(58, n) <= Pow(256, n)
  {
    if n > 0 {
      PowBase(n - 1);
    }
  }

  /** 58^11 > 256^8. */
  lemma Eleven()
    ensures Pow(58, 11) > Pow(256, 8)
  {
  }

  lemma ProductGrows(a: nat, b: nat, c: nat, d: nat)
    requires a > b && c > d
    ensures a * c > b * d
  {
  }

  /** 58^44 > 256^32: 44 base58 digits hold more than 32 bytes. */
  lemma FortyFour()
    ensures Pow(58, 44) > Pow(256, 32)
  {
    Eleven();
    PowAdd(58, 11, 11);
    PowAdd(256, 8, 8);
    ProductGrows(Pow(58, 11), Pow(256, 8), Pow(58, 11), Pow(256, 8));
    PowAdd(58, 22, 22);
    PowAdd(256, 16, 16);
    ProductGrows(Pow(58, 22), Pow(256, 16), Pow(58, 22), Pow(256, 16));
  }

  /** Each leading zero byte costs one character and eight bits, which only widens the gap. */
  lemma {:induction false} StillEnough(zeroes: nat)
    requires zeroes <= 32
    ensures Pow(58, 44 - zeroes) >= Pow(256, 32 - zeroes)
  {
    if zeroes == 0 {
      FortyFour();
    } else {
      StillEnough(zeroes - 1);
      assert Pow(58, 45 - zeroes) == 58 * Pow(58, 44 - zeroes);
      assert Pow(256, 33 - zeroes) == 256 * Pow(256, 32 - zeroes);
    }
  }

  // ----- bytes

  lemma WidthStep(n: nat)
    requires n > 0
    ensures Width(n) == 1 + Width(n / 256)
  {
    if n < 256 {
      ShortBitLength(n);
    } else {
      EightBits(n);
    }
  }

  lemma ShortBitLength(n: nat)
    requires 0 < n < 256
    ensures 1 <= BitLength(n) <= 8
  {
    assert BitLength(n) == 1 + BitLength(n / 2);
    BitBound(n, 8);
  }

  lemma {:induction false} BitBound(n: nat, k: nat)
    requires n < Pow(2, k)
    ensures BitLength(n) <= k
  {
    if n > 0 {
      assert k > 0;
      BitBound(n / 2, k - 1);
    }
  }

  lemma EightBits(n: nat)
    requires n >= 256
    ensures BitLength(n) == 8 + BitLength(n / 256)
  {
    assert n / 2 / 2 == n / 4 && n / 4 / 2 == n / 8 && n / 8 / 2 == n / 16;
    assert n / 16 / 2 == n / 32 && n / 32 / 2 == n / 64 && n / 64 / 2 == n / 128 && n / 128 / 2 == n / 256;
    assert BitLength(n) == 1 + BitLength(n / 2) && BitLength(n / 2) == 1 + BitLength(n / 4);
    assert BitLength(n / 4) == 1 + BitLength(n / 8) && BitLength(n / 8) == 1 + BitLength(n / 16);
    assert BitLength(n / 16) == 1 + BitLength(n / 32) && BitLength(n / 32) == 1 + BitLength(n / 64);
    assert BitLength(n / 64) == 1 + BitLength(n / 128) && BitLength(n / 128) == 1 + BitLength(n / 256);
  }

  function Value(b: seq<byte>): nat
  {
    if |b| == 0 then 0 else Value(b[..|b| - 1]) * 256 + b[|b| - 1]
  }

  /** Minimal bytes: they read back, start with a nonzero byte, and their count brackets the number. */
  lemma {:induction false} Minimal(n: nat)
    ensures var b := BigEndian(n, Width(n));
            Value(b) == n && (n > 0 ==> |b| > 0 && b[0] != 0 && Pow(256, |b| - 1) <= n) && n < Pow(256, |b|)
  {
    if n > 0 {
      Minimal(n / 256);
      WidthStep(n);
      var b, c := BigEndian(n, Width(n)), BigEndian(n / 256, Width(n / 256));
      assert b[..|b| - 1] == c && b[|b| - 1] == n % 256;
      if n >= 256 {
        assert b[0] == c[0];
        assert Pow(256, |b| - 1) == 256 * Pow(256, |c| - 1);
      } else {
        assert |c| == 0;
      }
    }
  }

  /** Bytes that do not start with a zero are the minimal bytes of their value. */
  lemma {:induction false} MinimalIsUnique(b: seq<byte>)
    requires |b| > 0 ==> b[0] != 0
    ensures BigEndian(Value(b), Width(Value(b))) == b
  {
    if |b| > 0 {
      var c, n := b[..|b| - 1], Value(b);
      MinimalIsUnique(c);
      assert n / 256 == Value(c) && n % 256 == b[|b| - 1];
      assert n > 0 by {
        PositiveValue(b);
      }
      WidthStep(n);
      assert b == c + [b[|b| - 1]];
    }
  }

  lemma {:induction false} PositiveValue(b: seq<byte>)
    requires |b| > 0 && b[0] != 0
    ensures Value(b) > 0
  {
    if |b| > 1 {
      PositiveValue(b[..|b| - 1]);
    }
  }

  // ----- digits

  lemma {:induction false} OnesAreZero(s: string)
    requires AllKnown(s) && LeadingOnes(s) == |s|
    ensures Number(s) == 0
  {
    if |s| > 0 {
      var t := s[..|s| - 1];
      OnesPrefix(s);
      OnesAreZero(t);
      assert s[|s| - 1] == '1' && Digit('1') == 0;
    }
  }

  /** Dropping the last character drops at most a leading one. */
  lemma {:induction false} OnesPrefix(s: string)
    requires |s| > 0
    ensures LeadingOnes(s[..|s| - 1]) == if LeadingOnes(s) == |s| then |s| - 1 else LeadingOnes(s)
  {
  }

  /** How many characters follow the leading ones. */
  function Significant(s: string): nat { |s| - LeadingOnes(s) }

  /** A string without its leading ones is a number with that many digits. */
  lemma {:induction false} DigitsBracket(s: string)
    requires AllKnown(s)
    ensures Number(s) < Pow(58, Significant(s)) && (Significant(s) > 0 ==> Pow(58, Significant(s) - 1) <= Number(s))
  {
    if LeadingOnes(s) == |s| {
      OnesAreZero(s);
    } else {
      var t, d := s[..|s| - 1], Digit(s[|s| - 1]);
      OnesPrefix(s);
      DigitsBracket(t);
      if LeadingOnes(t) == |t| {
        OnesAreZero(t);
        assert s[LeadingOnes(s)] == s[|s| - 1] != '1';
        SymbolOfDigit(s[|s| - 1]);
        assert Symbol(0) == '1';
        assert Pow(58, 1) == 58 && Pow(58, 0) == 1;
      } else {
        var k := |t| - LeadingOnes(t);
        assert Pow(58, k + 1) == 58 * Pow(58, k) && Pow(58, k) == 58 * Pow(58, k - 1);
      }
    }
  }

  lemma {:induction false} SameLengthSameNumber(s: string, t: string)
    requires AllKnown(s) && AllKnown(t) && |s| == |t| && Number(s) == Number(t)
    ensures s == t
  {
    if |s| > 0 {
      var x, y := s[..|s| - 1], t[..|t| - 1];
      var d, e := Digit(s[|s| - 1]), Digit(t[|t| - 1]);
      assert Number(x) * 58 + d == Number(y) * 58 + e;
      assert Number(x) == Number(y) && d == e;
      SymbolOfDigit(s[|s| - 1]);
      SymbolOfDigit(t[|t| - 1]);
      SameLengthSameNumber(x, y);
      assert s == x + [s[|s| - 1]] && t == y + [t[|t| - 1]];
    }
  }

  // ----- results

  /** The zero bytes in front are exactly the leading ones. */
  lemma SplitsOneWay(a: nat, x: seq<byte>, b: nat, y: seq<byte>)
    requires Zeroes(a) + x == Zeroes(b) + y
    requires (|x| > 0 ==> x[0] != 0) && (|y| > 0 ==> y[0] != 0)
    ensures a == b && x == y
  {
    var w := Zeroes(a) + x;
    assert |x| > 0 ==> w[a] == x[0];
    assert |y| > 0 ==> (Zeroes(b) + y)[b] == y[0];
    assert forall i :: 0 <= i < a ==> w[i] == 0;
    assert forall i :: 0 <= i < b ==> w[i] == 0;
    assert x == w[a..] && y == (Zeroes(b) + y)[b..];
  }

  lemma SameDecodingSameNumber(s: string, t: string)
    requires AllKnown(s) && AllKnown(t) && Decode(s) == Decode(t)
    ensures LeadingOnes(s) == LeadingOnes(t) && Number(s) == Number(t)
  {
    var m, n := Number(s), Number(t);
    var x, y := BigEndian(m, Width(m)), BigEndian(n, Width(n));
    assert Value(x) == m && (|x| > 0 ==> x[0] != 0) by {
      Minimal(m);
    }
    assert Value(y) == n && (|y| > 0 ==> y[0] != 0) by {
      Minimal(n);
    }
    SplitsOneWay(LeadingOnes(s), x, LeadingOnes(t), y);
  }

  /** With the same leading ones and the same number, neither string can be the longer. */
  lemma SameNumberNotLonger(s: string, t: string)
    requires AllKnown(s) && AllKnown(t) && LeadingOnes(s) == LeadingOnes(t) && Number(s) == Number(t)
    ensures |s| <= |t|
  {
    DigitsBracket(s);
    DigitsBracket(t);
    FewestDigits(Number(s), Significant(s), Significant(t));
  }

  lemma FewestDigits(n: nat, k: nat, l: nat)
    requires n < Pow(58, l) && (k > 0 ==> Pow(58, k - 1) <= n)
    ensures k <= l
  {
    if l < k {
      PowMonotone(58, l, k - 1);
    }
  }

  /** No two strings decode to the same bytes. */
  lemma Injective(s: string, t: string)
    requires AllKnown(s) && AllKnown(t) && Decode(s) == Decode(t)
    ensures s == t
  {
    SameDecodingSameNumber(s, t);
    SameNumberNotLonger(s, t);
    SameNumberNotLonger(t, s);
    SameLengthSameNumber(s, t);
  }

  /** Any string that decodes to 32 bytes has 32 to 44 characters: the length guard rejects no key. */
  lemma LengthGuardIsRedundant(s: string)
    requires Decode(s).Some? && |Decode(s).value| == 32
    ensures 32 <= |s| <= 44
  {
    var n, zeroes := Number(s), LeadingOnes(s);
    Minimal(n);
    DigitsBracket(s);
    LengthBounds(n, zeroes, Significant(s), Width(n));
  }

  /** The arithmetic of the guard: n has k base58 digits and w bytes, behind the same number of zeroes. */
  lemma LengthBounds(n: nat, zeroes: nat, k: nat, w: nat)
    requires zeroes + w == 32
    requires n < Pow(58, k) && (k > 0 ==> Pow(58, k - 1) <= n)
    requires n < Pow(256, w) && (w > 0 ==> Pow(256, w - 1) <= n)
    ensures w <= k <= 44 - zeroes
  {
    if k < w {
      PowBase(k);
      PowMonotone(256, k, w - 1);
    }
    StillEnough(zeroes);
    if k > 44 - zeroes {
      PowMonotone(58, 44 - zeroes, k - 1);
    }
  }

  // ----- every byte string has a spelling

  function Spell(n: nat): (s: string)
  {
    if n == 0 then "" else Spell(n / 58) + [Symbol(n % 58)]
  }

  function Ones(k: nat): (s: string)
    ensures |s| == k && forall i :: 0 <= i < k ==> s[i] == '1'
  {
    if k == 0 then "" else "1" + Ones(k - 1)
  }

  function LeadingZeroes(b: seq<byte>): (k: nat)
    ensures k <= |b| && (forall i :: 0 <= i < k ==> b[i] == 0) && (k < |b| ==> b[k] != 0)
  {
    if |b| == 0 || b[0] != 0 then 0 else 1 + LeadingZeroes(b[1..])
  }

  function Encode(b: seq<byte>): string
  {
    Ones(LeadingZeroes(b)) + Spell(Value(b[LeadingZeroes(b)..]))
  }

  lemma {:induction false} SpellReads(n: nat)
    ensures AllKnown(Spell(n)) && Number(Spell(n)) == n
    ensures n > 0 ==> |Spell(n)| > 0 && Spell(n)[0] != '1'
  {
    if n > 0 {
      SpellReads(n / 58);
      var s := Spell(n);
      assert s[..|s| - 1] == Spell(n / 58) && s[|s| - 1] == Symbol(n % 58);
      if n < 58 {
        assert s[0] == Symbol(n) && Digit(s[0]) == n && Digit('1') == 0;
      } else {
        assert s[0] == Spell(n / 58)[0];
      }
    }
  }

  lemma {:induction false} OnesDoNotCount(k: nat, s: string)
    requires AllKnown(s)
    ensures AllKnown(Ones(k) + s) && Number(Ones(k) + s) == Number(s)
    decreases |s|
  {
    var t := Ones(k) + s;
    if |s| == 0 {
      assert t == Ones(k);
      assert LeadingOnes(t) == |t|;
      OnesAreZero(t);
    } else {
      OnesDoNotCount(k, s[..|s| - 1]);
      assert t[..|t| - 1] == Ones(k) + s[..|s| - 1] && t[|t| - 1] == s[|s| - 1];
    }
  }

  /** Decoding is onto: with injectivity, every byte string has exactly one spelling. */
  lemma EveryKeyHasASpelling(b: seq<byte>)
    ensures Decode(Encode(b)) == Some(b)
  {
    var z := LeadingZeroes(b);
    var n, tail := Value(b[z..]), b[z..];
    SpellReads(n);
    OnesDoNotCount(z, Spell(n));
    MinimalIsUnique(tail);
    CountOnes(z, Spell(n));
    assert Zeroes(z) == b[..z] && b == b[..z] + tail;
  }

  lemma CountOnes(z: nat, s: string)
    requires |s| > 0 ==> s[0] != '1'
    ensures LeadingOnes(Ones(z) + s) == z
  {
    var t := Ones(z) + s;
    assert |s| > 0 ==> t[z] == s[0];
    assert forall i :: 0 <= i < z ==> t[i] == '1';
  }

  /** The guard accepts exactly one string for each 32-byte key. */
  lemma OneSpellingPerKey(b: seq<byte>, s: string)
    requires |b| == 32
    ensures Decode(s) == Some(b) <==> s == Encode(b)
    ensures 32 <= |Encode(b)| <= 44
  {
    EveryKeyHasASpelling(b);
    if Decode(s) == Some(b) {
      Injective(s, Encode(b));
    }
    LengthGuardIsRedundant(Encode(b));
  }
}
