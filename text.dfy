/** The string operations the site uses: `includes`, ASCII case mapping,
    `split(sep)[0]`, capitalising the first letter, `padStart`, and
    `Number.prototype.toString(radix)` for non-negative integers. */
module Text {

  // ---------------------------------------------------------------------
  // includes

  /** `s.startsWith(pre)`. */
  predicate StartsWith(s: string, pre: string) {
    |pre| <= |s| && s[..|pre|] == pre
  }

  /** A concatenation starts with its first part. */
  lemma StartsWithConcat(a: string, b: string)
    ensures StartsWith(a + b, a)
  {
    assert (a + b)[..|a|] == a;
  }

  /** `s.includes(sub)`: `sub` occurs in `s` at some position. */
  predicate Contains(s: string, sub: string)
    decreases |s|
  {
    StartsWith(s, sub) || (s != [] && Contains(s[1..], sub))
  }

  /** `sub` occurs in `s` starting at index `i`. */
  predicate OccursAt(s: string, sub: string, i: int) {
    0 <= i && i + |sub| <= |s| && s[i..i + |sub|] == sub
  }

  /** `Contains` holds exactly when `sub` occurs at some index of `s`. */
  lemma {:induction false} ContainsIff(s: string, sub: string)
    ensures Contains(s, sub) <==> exists i :: OccursAt(s, sub, i)
    decreases |s|
  {
    if StartsWith(s, sub) {
      assert OccursAt(s, sub, 0);
    } else if s == [] {
    } else {
      ContainsIff(s[1..], sub);
      if Contains(s[1..], sub) {
        var i :| OccursAt(s[1..], sub, i);
        assert s[i + 1..i + 1 + |sub|] == s[1..][i..i + |sub|];
        assert OccursAt(s, sub, i + 1);
      }
      forall i | OccursAt(s, sub, i)
        ensures Contains(s[1..], sub)
      {
        assert i != 0;
        assert s[1..][i - 1..i - 1 + |sub|] == s[i..i + |sub|];
        assert OccursAt(s[1..], sub, i - 1);
      }
    }
  }

  /** An occurrence at a known index gives `Contains`. */
  lemma ContainsAt(s: string, sub: string, i: nat)
    requires OccursAt(s, sub, i)
    ensures Contains(s, sub)
  {
    ContainsIff(s, sub);
  }

  /** A string cannot include a string with a character it lacks. */
  lemma MissingChar(s: string, sub: string, c: char)
    requires c in sub && c !in s
    ensures forall i :: !OccursAt(s, sub, i)
  {
  }

  /** Every string includes the empty string. */
  lemma ContainsEmpty(s: string)
    ensures Contains(s, "")
  {
    assert StartsWith(s, "");
  }

  // ---------------------------------------------------------------------
  // ASCII case mapping

  predicate IsUpper(c: char) { 'A' <= c <= 'Z' }
  predicate IsLower(c: char) { 'a' <= c <= 'z' }

  function LowerChar(c: char): char {
    if IsUpper(c) then (c as int + 32) as char else c
  }

  function UpperChar(c: char): char {
    if IsLower(c) then (c as int - 32) as char else c
  }

  /** `s.toLowerCase()` on the ASCII letters. */
  function ToLower(s: string): (r: string)
    ensures |r| == |s|
    ensures forall i :: 0 <= i < |r| ==> !IsUpper(r[i])
    ensures forall i :: 0 <= i < |r| ==> (if IsUpper(s[i]) then r[i] as int == s[i] as int + 32 else r[i] == s[i])
  {
    seq(|s|, i requires 0 <= i < |s| => LowerChar(s[i]))
  }

  /** Lower-casing twice is lower-casing once. */
  lemma ToLowerIdempotent(s: string)
    ensures ToLower(ToLower(s)) == ToLower(s)
  {
  }

  /** Lower and upper case letters correspond one to one. */
  lemma CaseRoundTrip(c: char)
    ensures IsLower(c) ==> LowerChar(UpperChar(c)) == c
    ensures IsUpper(c) ==> UpperChar(LowerChar(c)) == c
  {
  }

  /** `s.charAt(0).toUpperCase() + s.slice(1)`. */
  function Capitalize(s: string): (r: string)
    ensures |r| == |s|
    ensures s != [] ==> r[1..] == s[1..] && !IsLower(r[0]) && LowerChar(r[0]) == LowerChar(s[0])
  {
    if s == [] then [] else [UpperChar(s[0])] + s[1..]
  }

  // ---------------------------------------------------------------------
  // split(sep)[0]

  /** `s.split(sep)[0]` for a one-character separator: the text before the
      first `sep`, or all of `s` when there is none. */
  function SplitHead(s: string, sep: char): (r: string)
    ensures |r| <= |s| && r == s[..|r|]
    ensures sep !in r
    ensures |r| < |s| ==> s[|r|] == sep
  {
    if s == [] || s[0] == sep then []
    else
      var rest := SplitHead(s[1..], sep);
      [s[0]] + rest
  }

  /** A word without the separator is its own first part. */
  lemma WholeWord(s: string, sep: char)
    requires sep !in s
    ensures SplitHead(s, sep) == s
  {
    var r := SplitHead(s, sep);
    assert |r| == |s|;
  }

  /** The first part of a word followed by text that starts with the
      separator is the word. */
  lemma FirstWord(word: string, rest: string, sep: char)
    requires sep !in word && rest != [] && rest[0] == sep
    ensures SplitHead(word + rest, sep) == word
  {
    var s := word + rest;
    var r := SplitHead(s, sep);
    assert s[|word|] == sep;
    assert forall j :: 0 <= j < |word| ==> s[j] == word[j];
  }

  // ---------------------------------------------------------------------
  // Digits in a radix and padStart

  predicate ValidRadix(radix: nat) { 2 <= radix <= 16 }

  /** The digit character JavaScript prints for `d` (lower-case letters). */
  function DigitChar(d: nat): char
    requires d < 16
  {
    if d < 10 then ('0' as int + d) as char else ('a' as int + d - 10) as char
  }

  /** The value of a digit character, or 16 for any other character. */
  function DigitValue(c: char): nat {
    if '0' <= c <= '9' then c as int - '0' as int
    else if 'a' <= c <= 'f' then c as int - 'a' as int + 10
    else 16
  }

  predicate IsDigitString(s: string, radix: nat) {
    forall i :: 0 <= i < |s| ==> DigitValue(s[i]) < radix
  }

  /** Euclidean division of `n` by `radix` gives a smaller positive quotient. */
  lemma DivMod(n: nat, radix: nat)
    requires ValidRadix(radix) && n >= radix
    ensures 0 < n / radix < n && n % radix < radix && n == (n / radix) * radix + n % radix
  {
    var q, r := n / radix, n % radix;
    assert n == q * radix + r && 0 <= r < radix;
    assert q * radix >= q * 2;
  }

  /** `n.toString(radix)` for a non-negative integer `n`. */
  function ToRadix(n: nat, radix: nat): (s: string)
    requires ValidRadix(radix)
    ensures |s| >= 1 && IsDigitString(s, radix)
    ensures n >= radix ==> s[0] != '0'
    decreases n
  {
    if n < radix then
      assert DigitValue(DigitChar(n)) == n;
      [DigitChar(n)]
    else
      var q, d := n / radix, n % radix;
      DivMod(n, radix);
      assert DigitValue(DigitChar(d)) == d;
      ToRadix(q, radix) + [DigitChar(d)]
  }

  /** One digit below the radix, two below its square. */
  lemma ToRadixLength(n: nat, radix: nat)
    requires ValidRadix(radix)
    ensures n < radix ==> |ToRadix(n, radix)| == 1
    ensures radix <= n < radix * radix ==> |ToRadix(n, radix)| == 2
  {
    if radix <= n < radix * radix {
      assert n / radix < radix;
    }
  }

  /** The number a string of digits denotes. */
  function ParseRadix(s: string, radix: nat): nat
    requires ValidRadix(radix) && IsDigitString(s, radix)
  {
    if s == [] then 0
    else ParseRadix(s[..|s| - 1], radix) * radix + DigitValue(s[|s| - 1])
  }

  /** Printing and reading back gives the number again. */
  lemma {:induction false} RadixRoundTrip(n: nat, radix: nat)
    requires ValidRadix(radix)
    ensures ParseRadix(ToRadix(n, radix), radix) == n
    decreases n
  {
    if n >= radix {
      var q, d := n / radix, n % radix;
      DivMod(n, radix);
      RadixRoundTrip(q, radix);
      var t := ToRadix(q, radix);
      var s := ToRadix(n, radix);
      assert s == t + [DigitChar(d)];
      assert s[..|s| - 1] == t;
      assert DigitValue(s[|s| - 1]) == d;
      assert ParseRadix(s, radix) == ParseRadix(t, radix) * radix + d;
    }
  }

  /** Leading zeros do not change the value. */
  lemma {:induction false} ParseLeadingZeros(z: string, s: string, radix: nat)
    requires ValidRadix(radix) && IsDigitString(s, radix)
    requires forall i :: 0 <= i < |z| ==> z[i] == '0'
    ensures IsDigitString(z + s, radix) && ParseRadix(z + s, radix) == ParseRadix(s, radix)
    decreases |s|
  {
    if s == [] {
      assert z + s == z;
      ParseZeros(z, radix);
    } else {
      assert (z + s)[..|z + s| - 1] == z + s[..|s| - 1];
      ParseLeadingZeros(z, s[..|s| - 1], radix);
    }
  }

  lemma {:induction false} ParseZeros(z: string, radix: nat)
    requires ValidRadix(radix)
    requires forall i :: 0 <= i < |z| ==> z[i] == '0'
    ensures IsDigitString(z, radix) && ParseRadix(z, radix) == 0
  {
    if z != [] {
      ParseZeros(z[..|z| - 1], radix);
    }
  }

  /** A string of `n` copies of `c`. */
  function Repeat(c: char, n: nat): (r: string)
    ensures |r| == n && forall i :: 0 <= i < n ==> r[i] == c
  {
    seq(n, _ => c)
  }

  /** `s.padStart(len, c)` for a one-character pad string. */
  function PadStart(s: string, len: nat, c: char): (r: string)
    ensures |r| == if |s| < len then len else |s|
    ensures r[|r| - |s|..] == s
    ensures forall i :: 0 <= i < |r| - |s| ==> r[i] == c
  {
    if |s| < len then Repeat(c, len - |s|) + s else s
  }

  /** `n.toString(16).padStart(2, "0")`: a byte as two lower-case hex digits. */
  function HexByte(n: nat): string
    requires n < 256
  {
    PadStart(ToRadix(n, 16), 2, '0')
  }

  /** Every byte becomes exactly two hex digits, which read back as the byte. */
  lemma HexByteRoundTrip(n: nat)
    requires n < 256
    ensures |HexByte(n)| == 2 && IsDigitString(HexByte(n), 16)
    ensures ParseRadix(HexByte(n), 16) == n
  {
    var h := ToRadix(n, 16);
    var r := HexByte(n);
    ToRadixLength(n, 16);
    RadixRoundTrip(n, 16);
    ParseLeadingZeros(r[..|r| - |h|], h, 16);
    assert r == r[..|r| - |h|] + h;
  }
}
