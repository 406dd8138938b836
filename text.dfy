/** The JavaScript string operations the core relies on, over `seq<char>`. */
module Text {
  import Lists

  /** The `\s` class of JavaScript regular expressions, which is also the set of
      characters `String.prototype.trim` strips. */
  predicate IsWhitespace(c: char) {
    c == '\t' || c == '\n' || c == '\U{B}' || c == '\U{C}' || c == '\r' || c == ' ' ||
    c == '\U{A0}' || c == '\U{1680}' || ('\U{2000}' <= c <= '\U{200A}') ||
    c == '\U{2028}' || c == '\U{2029}' || c == '\U{202F}' || c == '\U{205F}' ||
    c == '\U{3000}' || c == '\U{FEFF}'
  }

  /** The characters that `.` in a JavaScript regular expression does not match. */
  predicate IsLineTerminator(c: char) {
    c == '\n' || c == '\r' || c == '\U{2028}' || c == '\U{2029}'
  }

  /** `\d` and `[0-9]`. */
  predicate IsDigit(c: char) { '0' <= c <= '9' }

  predicate IsLower(c: char) { 'a' <= c <= 'z' }

  predicate IsUpper(c: char) { 'A' <= c <= 'Z' }

  function LowerChar(c: char): char {
    if IsUpper(c) then (c as int - 'A' as int + 'a' as int) as char else c
  }

  /** `toLowerCase()`, for the ASCII letters. */
  function Lower(s: string): (r: string)
    ensures |r| == |s|
    ensures forall i :: 0 <= i < |s| ==> r[i] == LowerChar(s[i])
  {
    seq(|s|, i requires 0 <= i < |s| => LowerChar(s[i]))
  }

  function TrimStart(s: string): (r: string)
    ensures |r| <= |s| && r == s[|s| - |r|..]
    ensures r == [] || !IsWhitespace(r[0])
    ensures forall i :: 0 <= i < |s| - |r| ==> IsWhitespace(s[i])
  {
    if s != [] && IsWhitespace(s[0]) then TrimStart(s[1..]) else s
  }

  function TrimEnd(s: string): (r: string)
    ensures r <= s
    ensures r == [] || !IsWhitespace(r[|r| - 1])
    ensures forall i :: |r| <= i < |s| ==> IsWhitespace(s[i])
  {
    if s != [] && IsWhitespace(s[|s| - 1]) then TrimEnd(s[..|s| - 1]) else s
  }

  predicate Blank(s: string) {
    forall i :: 0 <= i < |s| ==> IsWhitespace(s[i])
  }

  /** A prefix `r` of a suffix `t` of `s`, where what lies before `t` and after
      `r` is whitespace and `r` neither starts nor ends with whitespace: `r` is
      `s` less a blank prefix and a blank suffix, and it is empty exactly when
      `s` is blank. */
  lemma TrimShape(s: string, t: string, r: string)
    requires |t| <= |s| && t == s[|s| - |t|..] && r <= t
    requires t == [] || !IsWhitespace(t[0])
    requires r == [] || !IsWhitespace(r[|r| - 1])
    requires forall k :: 0 <= k < |s| - |t| ==> IsWhitespace(s[k])
    requires forall k :: |r| <= k < |t| ==> IsWhitespace(t[k])
    ensures r == "" <==> Blank(s)
    ensures r != "" ==> !IsWhitespace(r[0]) && !IsWhitespace(r[|r| - 1])
    ensures exists i, j :: 0 <= i <= j <= |s| && r == s[i..j] &&
              (forall k :: 0 <= k < i ==> IsWhitespace(s[k])) && (forall k :: j <= k < |s| ==> IsWhitespace(s[k]))
  {
    var i := |s| - |t|;
    var j := i + |r|;
    forall k | 0 <= k < |r| ensures r[k] == s[i + k] {
      assert r[k] == t[k];
    }
    assert r == s[i..j];
    forall k | j <= k < |s| ensures IsWhitespace(s[k]) {
      assert s[k] == t[k - i];
    }
    if r == "" {
      assert t == [];
    } else {
      assert r[0] == t[0] == s[i];
    }
  }

  /** `trim()`: the string without its leading and trailing whitespace; it is
      empty exactly when every character is whitespace. */
  function Trim(s: string): (r: string)
    ensures r == "" <==> Blank(s)
    ensures r != "" ==> !IsWhitespace(r[0]) && !IsWhitespace(r[|r| - 1])
    ensures exists i, j :: 0 <= i <= j <= |s| && r == s[i..j] &&
              (forall k :: 0 <= k < i ==> IsWhitespace(s[k])) && (forall k :: j <= k < |s| ==> IsWhitespace(s[k]))
  {
    var t := TrimStart(s);
    var r := TrimEnd(t);
    TrimShape(s, t, r);
    r
  }

  /** A leading space makes no difference to `trim()`. */
  lemma TrimIgnoresLeadingSpace(s: string)
    ensures Trim(" " + s) == Trim(s)
  {
    assert (" " + s)[1..] == s;
  }

  lemma BlankAfterSpace(s: string)
    requires s != [] && IsWhitespace(s[0])
    ensures Blank(s) <==> Blank(s[1..])
  {
    if Blank(s[1..]) {
      forall i | 0 < i < |s| ensures IsWhitespace(s[i]) {
        assert s[i] == s[1..][i - 1];
      }
    }
  }

  lemma {:induction false} TrimStartWithTrailingSpace(s: string)
    ensures Blank(s) ==> TrimStart(s + " ") == ""
    ensures !Blank(s) ==> TrimStart(s + " ") == TrimStart(s) + " "
    decreases |s|
  {
    if s == [] {
      assert (s + " ")[1..] == [];
    } else if IsWhitespace(s[0]) {
      assert (s + " ")[1..] == s[1..] + " ";
      TrimStartWithTrailingSpace(s[1..]);
      BlankAfterSpace(s);
    } else {
      assert (s + " ")[0] == s[0];
      assert !Blank(s);
    }
  }

  /** A trailing space makes no difference to `trim()`. */
  lemma TrimIgnoresTrailingSpace(s: string)
    ensures Trim(s + " ") == Trim(s)
  {
    TrimStartWithTrailingSpace(s);
    if !Blank(s) {
      var t := TrimStart(s);
      assert (t + " ")[..|t + " "| - 1] == t;
    }
  }

  /** `s.includes(sub)`. */
  predicate Includes(s: string, sub: string)
    decreases s
  {
    sub <= s || (s != [] && Includes(s[1..], sub))
  }

  /** A string contains every string that starts at one of its positions. */
  lemma {:induction false} IncludesAt(s: string, sub: string, k: nat)
    requires k <= |s| && sub <= s[k..]
    ensures Includes(s, sub)
    decreases k
  {
    if k > 0 {
      assert s[1..][k - 1..] == s[k..];
      IncludesAt(s[1..], sub, k - 1);
    }
  }

  /** A string cannot contain a substring with a character it lacks. */
  lemma {:induction false} MissingCharExcludes(s: string, sub: string, c: char)
    requires c in sub && c !in s
    ensures !Includes(s, sub)
    decreases |s|
  {
    if s != [] {
      MissingCharExcludes(s[1..], sub, c);
    }
  }

  predicate AllDigits(s: string) {
    forall i :: 0 <= i < |s| ==> IsDigit(s[i])
  }

  /** `s.replace(/\D/g, '')`: the decimal digits of `s`, in order. */
  function Digits(s: string): (r: string)
    ensures |r| <= |s| && AllDigits(r)
  {
    Lists.Filter(s, IsDigit)
  }

  lemma DigitsAppend(a: string, b: string)
    ensures Digits(a + b) == Digits(a) + Digits(b)
  {
    Lists.FilterAppend(a, b, IsDigit);
  }

  lemma DigitsOfDigits(s: string)
    requires AllDigits(s)
    ensures Digits(s) == s
  {
    Lists.FilterKeepsAll(s, IsDigit);
  }

  lemma DigitsOfNonDigit(c: char)
    requires !IsDigit(c)
    ensures Digits([c]) == []
  {
    assert [c][1..] == [];
  }

  /** A non-digit after a digit string is dropped and nothing before it is. */
  lemma DigitsAfter(a: string, c: char, b: string)
    requires AllDigits(a) && !IsDigit(c)
    ensures Digits(a + [c] + b) == a + Digits(b)
  {
    var x := a + [c];
    DigitsAppend(x, b);
    DigitsAppend(a, [c]);
    DigitsOfNonDigit(c);
    DigitsOfDigits(a);
    assert Digits(x) == a;
  }

  /** At most one leading character that is not a digit does not change the digits. */
  lemma DigitsSkip(x: string, rest: string)
    requires |x| <= 1 && forall i :: 0 <= i < |x| ==> !IsDigit(x[i])
    ensures Digits(x + rest) == Digits(rest)
  {
    DigitsAppend(x, rest);
    if x != [] {
      assert x == [x[0]];
      DigitsOfNonDigit(x[0]);
    }
  }

  /** `parts.join(sep)`. */
  function Join(parts: seq<string>, sep: string): string
    decreases parts
  {
    if parts == [] then ""
    else if |parts| == 1 then parts[0]
    else parts[0] + sep + Join(parts[1..], sep)
  }
}
