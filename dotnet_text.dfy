/**
 * The few .NET string primitives the controllers and `TokenOptions` rely on:
 * `char.IsWhiteSpace`, `string.IsNullOrWhiteSpace` and `int.TryParse(string, out int)`.
 *
 * `int.TryParse` is modelled for the invariant culture and `NumberStyles.Integer`:
 * optional leading and trailing white space (U+0009 to U+000D and U+0020), an
 * optional `+` or `-`, one or more ASCII digits, and a value inside the Int32 range.
 */
module DotNetText {
  import opened Wrappers

  const Int32Min: int := -0x8000_0000
  const Int32Max: int := 0x7FFF_FFFF

  /** The values of a C# `int`. */
  type Int32 = x: int | Int32Min <= x <= Int32Max

  /** `char.IsWhiteSpace`: the Unicode separators plus the control characters U+0009 to U+000D and U+0085. */
  predicate IsWhiteSpace(c: char) {
    ('\U{0009}' <= c <= '\U{000D}') || c == ' ' || c == '\U{0085}' || c == '\U{00A0}'
    || c == '\U{1680}' || ('\U{2000}' <= c <= '\U{200A}') || c == '\U{2028}' || c == '\U{2029}'
    || c == '\U{202F}' || c == '\U{205F}' || c == '\U{3000}'
  }

  /** `string.IsNullOrWhiteSpace`: null, empty, or white space only. */
  predicate IsNullOrWhiteSpace(s: Option<string>) {
    match s
    case None => true
    case Some(t) => forall i :: 0 <= i < |t| ==> IsWhiteSpace(t[i])
  }

  /** The white space that `NumberStyles.AllowLeadingWhite` and `AllowTrailingWhite` skip. */
  predicate IsNumberWhite(c: char) {
    ('\U{0009}' <= c <= '\U{000D}') || c == ' '
  }

  predicate IsDigit(c: char) {
    '0' <= c <= '9'
  }

  predicate AllDigits(s: string) {
    forall i :: 0 <= i < |s| ==> IsDigit(s[i])
  }

  function DigitValue(c: char): nat
    requires IsDigit(c)
  {
    c as int - '0' as int
  }

  /** The number a run of decimal digits denotes, most significant digit first. */
  function DigitsValue(s: string): nat
    requires AllDigits(s)
  {
    if s == [] then 0 else 10 * DigitsValue(s[..|s| - 1]) + DigitValue(s[|s| - 1])
  }

  function TrimStart(s: string): (r: string)
    ensures |r| <= |s| && r == s[|s| - |r|..]
    ensures r != [] ==> !IsNumberWhite(r[0])
  {
    if s != [] && IsNumberWhite(s[0]) then TrimStart(s[1..]) else s
  }

  function TrimEnd(s: string): (r: string)
    ensures |r| <= |s| && r == s[..|r|]
    ensures r != [] ==> !IsNumberWhite(r[|r| - 1])
  {
    if s != [] && IsNumberWhite(s[|s| - 1]) then TrimEnd(s[..|s| - 1]) else s
  }

  /** Sign and digits, after the surrounding white space has been removed. */
  function ParseSignedDigits(u: string): Option<Int32> {
    if u == [] then None
    else if u[0] == '-' then
      (if |u| > 1 && AllDigits(u[1..]) && -(DigitsValue(u[1..]) as int) >= Int32Min
       then Some(-(DigitsValue(u[1..]) as int)) else None)
    else if u[0] == '+' then
      (if |u| > 1 && AllDigits(u[1..]) && DigitsValue(u[1..]) <= Int32Max
       then Some(DigitsValue(u[1..])) else None)
    else
      (if AllDigits(u) && DigitsValue(u) <= Int32Max then Some(DigitsValue(u)) else None)
  }

  /** `int.TryParse(s, out n)`: `Some(n)` when it returns true, `None` when it returns false (also for null). */
  function TryParseInt32(s: Option<string>): Option<Int32> {
    match s
    case None => None
    case Some(t) => ParseSignedDigits(TrimEnd(TrimStart(t)))
  }

  function DigitChar(d: nat): (c: char)
    requires d < 10
    ensures IsDigit(c) && DigitValue(c) == d
  {
    ('0' as int + d) as char
  }

  /** The shortest decimal digits of `n`. */
  function Digits(n: nat): (s: string)
    ensures s != [] && AllDigits(s)
  {
    if n < 10 then [DigitChar(n)] else Digits(n / 10) + [DigitChar(n % 10)]
  }

  /** `n.ToString()` in the invariant culture. */
  function FormatInt32(n: Int32): string {
    if n < 0 then "-" + Digits(-(n as int)) else Digits(n)
  }

  lemma {:induction false} DigitsValueOfDigits(n: nat)
    ensures DigitsValue(Digits(n)) == n
  {
    if n >= 10 {
      var s := Digits(n);
      assert s[..|s| - 1] == Digits(n / 10);
      DigitsValueOfDigits(n / 10);
    }
  }

  lemma TrimUnpadded(s: string)
    requires s != [] && !IsNumberWhite(s[0]) && !IsNumberWhite(s[|s| - 1])
    ensures TrimEnd(TrimStart(s)) == s
  {
    assert TrimStart(s) == s;
  }

  lemma ParseDigits(d: string, n: nat)
    requires d != [] && AllDigits(d) && DigitsValue(d) == n && n <= Int32Max
    ensures ParseSignedDigits(d) == Some(n)
  {
  }

  lemma ParseNegativeDigits(d: string, n: nat)
    requires d != [] && AllDigits(d) && DigitsValue(d) == n && -(n as int) >= Int32Min
    ensures ParseSignedDigits("-" + d) == Some(-(n as int))
  {
    assert ("-" + d)[1..] == d;
  }

  /** A number written out starts with a sign or a digit, so it is never blank. */
  lemma FormattedNotBlank(n: Int32)
    ensures !IsNullOrWhiteSpace(Some(FormatInt32(n)))
  {
    var text := FormatInt32(n);
    if n < 0 {
      assert text[0] == '-';
    } else {
      var d := Digits(n);
      assert text == d && IsDigit(d[0]);
    }
    assert !IsWhiteSpace(text[0]);
  }

  /** Parsing undoes formatting: every `int` survives `TryParse(n.ToString())`. */
  lemma TryParseFormat(n: Int32)
    ensures TryParseInt32(Some(FormatInt32(n))) == Some(n)
  {
    var s := FormatInt32(n);
    TrimUnpadded(s);
    if n < 0 {
      var m: nat := -(n as int);
      DigitsValueOfDigits(m);
      ParseNegativeDigits(Digits(m), m);
    } else {
      DigitsValueOfDigits(n);
      ParseDigits(Digits(n), n);
    }
  }

  lemma {:induction false} TrimStartKeeps(s: string, c: char)
    requires c in s && !IsNumberWhite(c)
    ensures c in TrimStart(s)
  {
    if s != [] && IsNumberWhite(s[0]) {
      assert c in s[1..];
      TrimStartKeeps(s[1..], c);
    }
  }

  lemma {:induction false} TrimEndKeeps(s: string, c: char)
    requires c in s && !IsNumberWhite(c)
    ensures c in TrimEnd(s)
  {
    if s != [] && IsNumberWhite(s[|s| - 1]) {
      assert c in s[..|s| - 1];
      TrimEndKeeps(s[..|s| - 1], c);
    }
  }

  /** A character that may not appear in a number (here a comma) makes `int.TryParse` fail. */
  lemma CommaNeverParses(s: string)
    requires ',' in s
    ensures TryParseInt32(Some(s)) == None
  {
    TrimStartKeeps(s, ',');
    TrimEndKeeps(TrimStart(s), ',');
    var u := TrimEnd(TrimStart(s));
    if u[0] == '-' || u[0] == '+' {
      assert ',' in u[1..];
    }
  }

  /** Text made only of the white space a number may be padded with. */
  predicate AllNumberWhite(w: string) {
    forall i :: 0 <= i < |w| ==> IsNumberWhite(w[i])
  }

  lemma {:induction false} TrimStartSkips(pre: string, t: string)
    requires AllNumberWhite(pre)
    ensures TrimStart(pre + t) == TrimStart(t)
  {
    if pre == [] {
      assert pre + t == t;
    } else {
      assert (pre + t)[0] == pre[0];
      assert (pre + t)[1..] == pre[1..] + t;
      TrimStartSkips(pre[1..], t);
    }
  }

  lemma {:induction false} TrimEndSkips(t: string, post: string)
    requires AllNumberWhite(post)
    ensures TrimEnd(t + post) == TrimEnd(t)
  {
    if post == [] {
      assert t + post == t;
    } else {
      var n := |t + post|;
      assert (t + post)[n - 1] == post[|post| - 1];
      assert (t + post)[..n - 1] == t + post[..|post| - 1];
      TrimEndSkips(t, post[..|post| - 1]);
    }
  }

  /** Once a non-white character has been reached, what follows is kept as it is. */
  lemma {:induction false} TrimStartAppend(x: string, y: string)
    requires TrimStart(x) != []
    ensures TrimStart(x + y) == TrimStart(x) + y
  {
    assert x != [];
    assert (x + y)[0] == x[0];
    if IsNumberWhite(x[0]) {
      assert (x + y)[1..] == x[1..] + y;
      TrimStartAppend(x[1..], y);
    }
  }

  lemma {:induction false} TrimStartToNothing(x: string)
    requires TrimStart(x) == []
    ensures AllNumberWhite(x)
  {
    if x != [] {
      assert IsNumberWhite(x[0]);
      TrimStartToNothing(x[1..]);
      assert forall i :: 1 <= i < |x| ==> x[i] == x[1..][i - 1];
    }
  }

  /** White space before or after the number, however much, does not change what `int.TryParse` reads. */
  lemma TryParseIgnoresSurroundingWhite(pre: string, s: string, post: string)
    requires AllNumberWhite(pre) && AllNumberWhite(post)
    ensures TryParseInt32(Some(pre + s + post)) == TryParseInt32(Some(s))
  {
    assert pre + s + post == pre + (s + post);
    TrimStartSkips(pre, s + post);
    if TrimStart(s) != [] {
      TrimStartAppend(s, post);
      TrimEndSkips(TrimStart(s), post);
    } else {
      TrimStartToNothing(s);
      assert AllNumberWhite(s + post) by {
        assert forall i :: 0 <= i < |s + post| ==> (s + post)[i] == if i < |s| then s[i] else post[i - |s|];
      }
      TrimStartSkips(s + post, []);
      assert s + post + [] == s + post;
    }
  }

  /** Null, empty or white-space-only text never parses. */
  lemma BlankNeverParses(text: Option<string>)
    requires IsNullOrWhiteSpace(text)
    ensures TryParseInt32(text) == None
  {
    if text.Some? {
      var t := text.value;
      var u := TrimEnd(TrimStart(t));
      if u != [] {
        // the first character left is a character of the text, so white space
        assert u[0] == TrimStart(t)[0];
        assert TrimStart(t)[0] == t[|t| - |TrimStart(t)|];
        assert IsWhiteSpace(u[0]);
        assert u[0] != '-' && u[0] != '+' && !IsDigit(u[0]);
        assert !AllDigits(u);
      }
    }
  }
}
