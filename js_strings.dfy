/**
 * The handful of JavaScript string operations the application relies on
 * (`substring(0, n)`, `padEnd`, `includes`, `startsWith`, number-to-text),
 * stated over `seq<char>`, plus the Option type used wherever the source
 * writes `null` or `undefined`.
 */
module JsStrings {

  datatype Option<+T> = None | Some(value: T)

  /** `s.substring(0, n)` for a non-negative `n`: the first `n` characters, or all of `s`. */
  function Prefix(s: string, n: nat): (r: string)
    ensures |r| == if |s| < n then |s| else n
    ensures r <= s
  {
    if |s| <= n then s else s[..n]
  }

  /** A run of `n` spaces. */
  function Spaces(n: nat): (r: string)
    ensures |r| == n
    ensures forall i :: 0 <= i < n ==> r[i] == ' '
  {
    if n == 0 then "" else Spaces(n - 1) + " "
  }

  /** `s.padEnd(n)`: `s` followed by spaces up to length `n`; never shortens `s`. */
  function PadEnd(s: string, n: nat): (r: string)
    ensures |r| == if |s| < n then n else |s|
    ensures s <= r
    ensures forall i :: |s| <= i < |r| ==> r[i] == ' '
  {
    if |s| < n then s + Spaces(n - |s|) else s
  }

  /** `s.startsWith(p)`. */
  predicate StartsWith(s: string, p: string) {
    p <= s
  }

  /** `sub` occurs in `s` at position `i`. */
  ghost predicate OccursAt(s: string, sub: string, i: int) {
    0 <= i && i + |sub| <= |s| && s[i..i + |sub|] == sub
  }

  /** `s.includes(sub)`, computed by scanning from the left. */
  predicate Includes(s: string, sub: string)
    decreases |s|
  {
    sub <= s || (|s| > 0 && Includes(s[1..], sub))
  }

  /** `Includes` holds exactly when `sub` occurs somewhere in `s`. */
  lemma {:induction false} IncludesIffOccurs(s: string, sub: string)
    ensures Includes(s, sub) <==> exists i :: OccursAt(s, sub, i)
    decreases |s|
  {
    if sub <= s {
      assert OccursAt(s, sub, 0);
    } else if |s| == 0 {
    } else {
      IncludesIffOccurs(s[1..], sub);
      if exists i :: OccursAt(s[1..], sub, i) {
        var i :| OccursAt(s[1..], sub, i);
        assert s[i + 1..i + 1 + |sub|] == s[1..][i..i + |sub|];
        assert OccursAt(s, sub, i + 1);
      }
      if exists i :: OccursAt(s, sub, i) {
        var i :| OccursAt(s, sub, i);
        if i > 0 {
          assert s[1..][i - 1..i - 1 + |sub|] == s[i..i + |sub|];
          assert OccursAt(s[1..], sub, i - 1);
        }
      }
    }
  }

  /** The decimal digit for `d`. */
  function DigitChar(d: nat): (c: char)
    requires d < 10
    ensures '0' <= c <= '9'
  {
    "0123456789"[d]
  }

  predicate IsDigit(c: char) {
    '0' <= c <= '9'
  }

  /**
   * JavaScript's text for a non-negative integer in a template string:
   * decimal, no leading zeros. This is the text only below 10^21, where
   * JavaScript switches to exponent form.
   */
  function Decimal(n: nat): (r: string)
    ensures |r| >= 1
    ensures forall i :: 0 <= i < |r| ==> IsDigit(r[i])
    ensures |r| > 1 ==> r[0] != '0'
    decreases n
  {
    if n < 10 then [DigitChar(n)] else Decimal(n / 10) + [DigitChar(n % 10)]
  }

  /** Reads a run of decimal digits back as a number. */
  function ParseDecimal(s: string): nat
    requires forall i :: 0 <= i < |s| ==> IsDigit(s[i])
    decreases |s|
  {
    if s == [] then 0
    else ParseDecimal(s[..|s| - 1]) * 10 + DigitValue(s[|s| - 1])
  }

  function DigitValue(c: char): (d: nat)
    requires IsDigit(c)
    ensures d < 10
  {
    (c as int) - ('0' as int)
  }

  /** The decimal text of a number reads back as that number. */
  lemma {:induction false} DecimalRoundTrip(n: nat)
    ensures ParseDecimal(Decimal(n)) == n
    decreases n
  {
    var r := Decimal(n);
    if n >= 10 {
      DecimalRoundTrip(n / 10);
      assert r[..|r| - 1] == Decimal(n / 10);
    }
    assert DigitValue(r[|r| - 1]) == n % 10;
  }
  /**
   * `s.slice(-n)`: the last `n` characters, or all of `s`. For `n == 0`
   * JavaScript reads `-0` as `0` and returns all of `s`, a case no caller uses.
   */
  function Suffix(s: string, n: nat): (r: string)
    requires n > 0
    ensures |r| == if |s| < n then |s| else n
    ensures r == s[|s| - |r|..]
  {
    if |s| <= n then s else s[|s| - n..]
  }

  /** Ten to the power `k`. */
  function Pow10(k: nat): (p: nat)
    ensures p >= 1
    ensures k >= 1 ==> p >= 10
  {
    if k == 0 then 1 else 10 * Pow10(k - 1)
  }

  /** A quotient and remainder in range are the quotient and remainder. */
  lemma RemainderUnique(n: nat, d: nat, a: nat, b: nat)
    requires d > 0 && b < d && n == d * a + b
    ensures n % d == b
  {
    var a', b' := n / d, n % d;
    assert d * a + b == d * a' + b';
    if a' < a {
      MulMonotone(d, a' + 1, a);
    } else if a < a' {
      MulMonotone(d, a + 1, a');
    }
  }

  lemma MulMonotone(d: nat, x: nat, y: nat)
    requires x <= y
    ensures d * x <= d * y
  {
  }

  /** Appending a digit to a number shifts its remainder by a power of ten the same way. */
  lemma AppendDigitRemainder(a: nat, d: nat, m: nat)
    requires d < 10 && m > 0
    ensures (a % m) * 10 + d == (a * 10 + d) % (10 * m)
  {
    var q, r := a / m, a % m;
    assert a == m * q + r;
    assert a * 10 + d == (10 * m) * q + (10 * r + d);
    RemainderUnique(a * 10 + d, 10 * m, q, 10 * r + d);
  }

  /** Taking the last `k` characters of `s + [c]` takes the last `k - 1` of `s`, then `c`. */
  lemma SuffixSnoc(s: string, c: char, k: nat)
    requires k >= 2
    ensures Suffix(s + [c], k) == Suffix(s, k - 1) + [c]
  {
    var r, t := Suffix(s + [c], k), Suffix(s, k - 1);
    assert |r| == |t| + 1;
    forall i | 0 <= i < |r|
      ensures r[i] == (t + [c])[i]
    {
      assert r[i] == (s + [c])[|s| + 1 - |r| + i];
    }
  }

  /** Parsing a digit string with one more digit at the end. */
  lemma ParseSnoc(s: string, c: char)
    requires forall i :: 0 <= i < |s| ==> IsDigit(s[i])
    requires IsDigit(c)
    ensures AllDigits(s + [c])
    ensures ParseDecimal(s + [c]) == ParseDecimal(s) * 10 + DigitValue(c)
  {
    assert (s + [c])[..|s|] == s;
  }

  /** A run of decimal digits, the text `ParseDecimal` reads. */
  predicate AllDigits(s: string) {
    forall i :: 0 <= i < |s| ==> IsDigit(s[i])
  }

  /** A suffix of a digit string is a digit string. */
  lemma SuffixDigits(s: string, k: nat)
    requires AllDigits(s) && k > 0
    ensures AllDigits(Suffix(s, k))
  {
    var r := Suffix(s, k);
    forall i | 0 <= i < |r|
      ensures IsDigit(r[i])
    {
      assert r[i] == s[|s| - |r| + i];
    }
  }

  /** The value of the last `k` digits of `s + [c]`. */
  lemma SuffixSnocValue(s: string, c: char, k: nat)
    requires AllDigits(s) && IsDigit(c) && k >= 2
    ensures AllDigits(Suffix(s, k - 1)) && AllDigits(Suffix(s + [c], k))
    ensures ParseDecimal(Suffix(s + [c], k)) == ParseDecimal(Suffix(s, k - 1)) * 10 + DigitValue(c)
  {
    SuffixDigits(s, k - 1);
    SuffixSnoc(s, c, k);
    ParseSnoc(Suffix(s, k - 1), c);
  }

  /** The step of `DigitsSuffixValue`: one more digit at the end and one more character kept. */
  lemma DigitsSuffixStep(t: string, c: char, k: nat)
    requires AllDigits(t) && IsDigit(c) && k >= 2
    requires AllDigits(Suffix(t, k - 1)) && ParseDecimal(Suffix(t, k - 1)) == ParseDecimal(t) % Pow10(k - 1)
    ensures AllDigits(t + [c]) && AllDigits(Suffix(t + [c], k))
    ensures ParseDecimal(Suffix(t + [c], k)) == ParseDecimal(t + [c]) % Pow10(k)
  {
    var v, d, m := ParseDecimal(t), DigitValue(c), Pow10(k - 1);
    ParseSnoc(t, c);
    SuffixSnocValue(t, c, k);
    AppendDigitRemainder(v, d, m);
  }

  /** The last digit of a digit string is worth its value modulo ten. */
  lemma DigitsLastValue(t: string, c: char)
    requires AllDigits(t) && IsDigit(c)
    ensures AllDigits(Suffix(t + [c], 1))
    ensures ParseDecimal(Suffix(t + [c], 1)) == ParseDecimal(t + [c]) % Pow10(1)
  {
    ParseSnoc(t, c);
    ParseSnoc([], c);
    assert Suffix(t + [c], 1) == [] + [c];
    RemainderUnique(ParseDecimal(t + [c]), 10, ParseDecimal(t), DigitValue(c));
  }

  /** The last `k` characters of a digit string are worth its value modulo ten to the `k`. */
  lemma {:induction false} DigitsSuffixValue(s: string, k: nat)
    requires AllDigits(s) && k > 0
    ensures AllDigits(Suffix(s, k))
    ensures ParseDecimal(Suffix(s, k)) == ParseDecimal(s) % Pow10(k)
    decreases |s|
  {
    if s == [] {
      assert Suffix(s, k) == [];
      RemainderUnique(0, Pow10(k), 0, 0);
    } else {
      var t, c := s[..|s| - 1], s[|s| - 1];
      assert s == t + [c];
      if k == 1 {
        DigitsLastValue(t, c);
      } else {
        DigitsSuffixValue(t, k - 1);
        DigitsSuffixStep(t, c, k);
      }
    }
  }

  /**
   * `n.toString().slice(-k)` read back as a number is `n` modulo ten to the
   * `k`: the last `k` digits carry exactly that value.
   */
  lemma DecimalSuffixValue(n: nat, k: nat)
    requires k > 0
    ensures ParseDecimal(Suffix(Decimal(n), k)) == n % Pow10(k)
  {
    DecimalRoundTrip(n);
    DigitsSuffixValue(Decimal(n), k);
  }

  /** The characters `String.prototype.trim` strips: ECMAScript WhiteSpace and LineTerminator. */
  predicate IsTrimmed(c: char) {
    || '\t' <= c <= '\r'  // tab, line feed, vertical tab, form feed, carriage return
    || c == ' ' || c == '\U{00A0}' || c == '\U{1680}'
    || '\U{2000}' <= c <= '\U{200A}'
    || c == '\U{2028}' || c == '\U{2029}' || c == '\U{202F}' || c == '\U{205F}' || c == '\U{3000}' || c == '\U{FEFF}'
  }

  /** `s.trimStart()`: `s` without its leading white space. */
  function TrimStart(s: string): (r: string)
    ensures |r| <= |s| && r == s[|s| - |r|..]
    ensures forall i :: 0 <= i < |s| - |r| ==> IsTrimmed(s[i])
    ensures r == [] || !IsTrimmed(r[0])
  {
    if |s| > 0 && IsTrimmed(s[0]) then TrimStart(s[1..]) else s
  }

  /** `s.trimEnd()`: `s` without its trailing white space. */
  function TrimEnd(s: string): (r: string)
    ensures r <= s
    ensures forall i :: |r| <= i < |s| ==> IsTrimmed(s[i])
    ensures r == [] || !IsTrimmed(r[|r| - 1])
  {
    if |s| > 0 && IsTrimmed(s[|s| - 1]) then TrimEnd(s[..|s| - 1]) else s
  }

  /** `s.trim()`. */
  function Trim(s: string): string {
    TrimEnd(TrimStart(s))
  }

  /**
   * A template literal that opens with a line break and closes with a line
   * break and two spaces of indentation, trimmed, is exactly the text between
   * them when that text starts and ends with a visible character.
   */
  lemma TrimIndentedTemplate(body: string)
    requires |body| > 0 && !IsTrimmed(body[0]) && !IsTrimmed(body[|body| - 1])
    ensures Trim("\n" + body + "\n  ") == body
  {
    var s := "\n" + body + "\n  ";
    assert s[1..] == body + "\n  ";
    assert TrimStart(s) == body + "\n  ";
    var t := body + "\n  ";
    assert t[..|t| - 1] == body + "\n ";
    assert (body + "\n ")[..|body| + 1] == body + "\n";
    assert (body + "\n")[..|body|] == body;
  }

  /** Lines joined with line breaks, as a multi-line template writes them. */
  function JoinLines(lines: seq<string>): (r: string)
    ensures |lines| > 0 ==> lines[0] <= r
    ensures |lines| > 0 ==> var last := lines[|lines| - 1]; |last| <= |r| && r[|r| - |last|..] == last
  {
    if |lines| == 0 then ""
    else if |lines| == 1 then lines[0]
    else
      var rest := JoinLines(lines[1..]);
      assert lines[1..][|lines[1..]| - 1] == lines[|lines| - 1];
      var r := lines[0] + "\n" + rest;
      assert r[|r| - |rest|..] == rest;
      r
  }
}
