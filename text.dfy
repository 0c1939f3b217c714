/** String helpers shared by the schema setters and the request sanitizers:
    JavaScript's notion of white space and the `trim` both apply. */
module Text {

  /** The characters JavaScript's `\s` and `String.prototype.trim` strip:
      the WhiteSpace and LineTerminator code points of ECMAScript. */
  predicate IsWhitespace(c: char) {
    || c == '\t' || c == '\n' || c == '\U{B}' || c == '\U{C}' || c == '\r'
    || c == ' ' || c == '\U{A0}' || c == '\U{1680}'
    || ('\U{2000}' <= c <= '\U{200A}')
    || c == '\U{2028}' || c == '\U{2029}' || c == '\U{202F}' || c == '\U{205F}'
    || c == '\U{3000}' || c == '\U{FEFF}'
  }

  /** The characters a regular expression `.` does not match (no `s` flag). */
  predicate IsLineTerminator(c: char) {
    c == '\n' || c == '\r' || c == '\U{2028}' || c == '\U{2029}'
  }

  predicate IsDigit(c: char) {
    '0' <= c <= '9'
  }

  predicate AllDigits(s: string) {
    forall i :: 0 <= i < |s| ==> IsDigit(s[i])
  }

  function Pow10(n: nat): nat {
    if n == 0 then 1 else 10 * Pow10(n - 1)
  }

  /** The number a string of decimal digits denotes. */
  function DigitsValue(s: string): nat
    requires AllDigits(s)
    decreases |s|
  {
    if s == [] then 0
    else DigitsValue(s[..|s| - 1]) * 10 + (s[|s| - 1] as int - '0' as int)
  }

  /** The decimal text of a whole number, as JavaScript's `String(n)` writes
      it: digits only, with no leading 0 unless the number is 0. */
  function Decimal(n: nat): (s: string)
    ensures s != [] && AllDigits(s)
    ensures |s| > 1 ==> s[0] != '0'
    decreases n
  {
    if n < 10 then [('0' as int + n) as char]
    else Decimal(n / 10) + [('0' as int + n % 10) as char]
  }

  /** Reading a number's decimal text gives the number back. */
  lemma {:induction false} DecimalRoundTrip(n: nat)
    ensures DigitsValue(Decimal(n)) == n
    decreases n
  {
    if n >= 10 {
      DecimalRoundTrip(n / 10);
      var s := Decimal(n);
      assert s[..|s| - 1] == Decimal(n / 10);
    }
  }

  /** The digits of a concatenation denote the first part shifted left by
      the length of the second, plus the second. */
  lemma {:induction false} DigitsValueConcat(a: string, b: string)
    requires AllDigits(a) && AllDigits(b)
    ensures AllDigits(a + b)
    ensures DigitsValue(a + b) == DigitsValue(a) * Pow10(|b|) + DigitsValue(b)
    decreases |b|
  {
    if b == [] {
      assert a + b == a;
    } else {
      var n := |b| - 1;
      var ab := a + b;
      assert AllDigits(b[..n]);
      DigitsValueConcat(a, b[..n]);
      assert ab[..|ab| - 1] == a + b[..n];
      assert ab[|ab| - 1] == b[n];
      var d := b[n] as int - '0' as int;
      assert DigitsValue(ab) == DigitsValue(a + b[..n]) * 10 + d;
      ShiftDigit(DigitsValue(a), Pow10(n), DigitsValue(b[..n]), d);
    }
  }

  /** The arithmetic step of `DigitsValueConcat`. */
  lemma ShiftDigit(v: int, p: int, w: int, d: int)
    ensures (v * p + w) * 10 + d == v * (10 * p) + (w * 10 + d)
  {
  }


  predicate AllWhitespace(s: string) {
    forall i :: 0 <= i < |s| ==> IsWhitespace(s[i])
  }

  /** `s` with its leading white space removed: a suffix of `s` that does not
      start with white space, and only white space was dropped. */
  function TrimStart(s: string): (r: string)
    ensures |r| <= |s| && r == s[|s| - |r|..]
    ensures r != [] ==> !IsWhitespace(r[0])
    ensures AllWhitespace(s[..|s| - |r|])
    decreases |s|
  {
    if s != [] && IsWhitespace(s[0]) then
      var r := TrimStart(s[1..]);
      assert s[..|s| - |r|] == [s[0]] + s[1..][..|s| - 1 - |r|];
      r
    else s
  }

  /** `s` with its trailing white space removed: a prefix of `s` that does not
      end with white space, and only white space was dropped. */
  function TrimEnd(s: string): (r: string)
    ensures |r| <= |s| && r == s[..|r|]
    ensures r != [] ==> !IsWhitespace(r[|r| - 1])
    ensures AllWhitespace(s[|r|..])
    decreases |s|
  {
    if s != [] && IsWhitespace(s[|s| - 1]) then
      var r := TrimEnd(s[..|s| - 1]);
      assert s[|r|..] == s[..|s| - 1][|r|..] + [s[|s| - 1]];
      r
    else s
  }

  /** JavaScript's `trim`: the infix of `s` left once white space is removed
      from both ends; it is empty exactly when `s` is all white space. */
  function Trim(s: string): (r: string)
    ensures |r| <= |s|
    ensures r != [] ==> !IsWhitespace(r[0]) && !IsWhitespace(r[|r| - 1])
    ensures r == [] <==> AllWhitespace(s)
  {
    var t := TrimStart(s);
    var r := TrimEnd(t);
    assert s == s[..|s| - |t|] + t;
    assert r == [] ==> t == [];
    r
  }

  /** A string that neither starts nor ends with white space is its own trim. */
  lemma TrimOfTrimmed(s: string)
    requires s != [] ==> !IsWhitespace(s[0]) && !IsWhitespace(s[|s| - 1])
    ensures Trim(s) == s
  {
    assert TrimStart(s) == s;
  }

  /** Trimming is idempotent, so a sanitized field re-sanitized is unchanged. */
  lemma TrimIdempotent(s: string)
    ensures Trim(Trim(s)) == Trim(s)
  {
    TrimOfTrimmed(Trim(s));
  }

  /** Leading white space is exactly what `TrimStart` removes. */
  lemma {:induction false} TrimStartPrepend(pre: string, s: string)
    requires AllWhitespace(pre)
    ensures TrimStart(pre + s) == TrimStart(s)
    decreases |pre|
  {
    if pre != [] {
      assert (pre + s)[1..] == pre[1..] + s;
      TrimStartPrepend(pre[1..], s);
    } else {
      assert pre + s == s;
    }
  }

  /** Once a non-blank character is reached, what follows is kept verbatim. */
  lemma {:induction false} TrimStartAppend(s: string, post: string)
    requires !AllWhitespace(s)
    ensures TrimStart(s + post) == TrimStart(s) + post
    decreases |s|
  {
    assert s != [];
    if IsWhitespace(s[0]) {
      assert (s + post)[1..] == s[1..] + post;
      assert !AllWhitespace(s[1..]) by {
        var i :| 0 <= i < |s| && !IsWhitespace(s[i]);
        assert s[1..][i - 1] == s[i];
      }
      TrimStartAppend(s[1..], post);
    }
  }

  /** Trailing white space is exactly what `TrimEnd` removes. */
  lemma {:induction false} TrimEndAppend(s: string, post: string)
    requires AllWhitespace(post)
    ensures TrimEnd(s + post) == TrimEnd(s)
    decreases |post|
  {
    if post != [] {
      var n := |post| - 1;
      assert (s + post)[..|s + post| - 1] == s + post[..n];
      TrimEndAppend(s, post[..n]);
    } else {
      assert s + post == s;
    }
  }

  /** White space added around a value does not change its trim, so every
      length rule checked after trimming ignores such padding. */
  lemma TrimIgnoresPadding(pre: string, s: string, post: string)
    requires AllWhitespace(pre) && AllWhitespace(post)
    ensures Trim(pre + s + post) == Trim(s)
  {
    assert pre + s + post == pre + (s + post);
    TrimStartPrepend(pre, s + post);
    if AllWhitespace(s) {
      assert AllWhitespace(s + post) by {
        forall i | 0 <= i < |s + post| ensures IsWhitespace((s + post)[i]) {
          if i < |s| { assert (s + post)[i] == s[i]; } else { assert (s + post)[i] == post[i - |s|]; }
        }
      }
    } else {
      TrimStartAppend(s, post);
      TrimEndAppend(TrimStart(s), post);
    }
  }
}
