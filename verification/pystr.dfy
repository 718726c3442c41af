/** The Python `str` builtins the compliance checker relies on, over `string`
    (a sequence of Unicode code points, as a Python `str` is):
    `s.split("\n")`, `s.strip()`, `c.isspace()`, `sub in s`, `s.startswith(p)`,
    `Path.name` and the decimal rendering of an `int` inside an f-string. */
module PyStr {

  /** `c.isspace()`: the characters Python classes as whitespace
      (bidirectional type WS, B or S, or general category Zs). */
  predicate IsSpace(c: char) {
    ('\t' <= c <= '\r') || ('\U{1C}' <= c <= '\U{1F}') || c == ' ' || c == '\U{85}' || c == '\U{A0}'
    || c == '\U{1680}' || ('\U{2000}' <= c <= '\U{200A}') || c == '\U{2028}' || c == '\U{2029}'
    || c == '\U{202F}' || c == '\U{205F}' || c == '\U{3000}'
  }

  /** `s.startswith(p)` */
  predicate StartsWith(s: string, p: string) {
    |p| <= |s| && s[..|p|] == p
  }

  /** `sub in s`: `sub` occurs in `s` at some position (the empty string occurs everywhere). */
  predicate Contains(s: string, sub: string)
    decreases |s|
  {
    StartsWith(s, sub) || (s != [] && Contains(s[1..], sub))
  }

  /** `Contains` is exactly "some position of `s` starts an occurrence of `sub`". */
  lemma {:induction false} ContainsAt(s: string, sub: string)
    ensures Contains(s, sub) <==> exists i :: 0 <= i <= |s| && StartsWith(s[i..], sub)
    decreases |s|
  {
    assert s[0..] == s;
    if s != [] {
      ContainsAt(s[1..], sub);
      if Contains(s, sub) && !StartsWith(s, sub) {
        var i :| 0 <= i <= |s[1..]| && StartsWith(s[1..][i..], sub);
        assert s[1..][i..] == s[i + 1..];
      }
      if exists i :: 0 <= i <= |s| && StartsWith(s[i..], sub) {
        var i :| 0 <= i <= |s| && StartsWith(s[i..], sub);
        if i > 0 {
          assert s[1..][i - 1..] == s[i..];
          assert Contains(s[1..], sub);
        }
      }
    }
  }

  /** Finding `p + q` in a string finds `p` there too: `"| None" in s` implies `"| " in s`. */
  lemma {:induction false} ContainsPrefixOf(s: string, p: string, q: string)
    requires Contains(s, p + q)
    ensures Contains(s, p)
    decreases |s|
  {
    if StartsWith(s, p + q) {
      assert s[..|p|] == (p + q)[..|p|] == p;
    } else {
      ContainsPrefixOf(s[1..], p, q);
    }
  }

  /** `s.lstrip()` */
  function StripLeft(s: string): string
    decreases |s|
  {
    if s != [] && IsSpace(s[0]) then StripLeft(s[1..]) else s
  }

  /** `lstrip` removes exactly the leading whitespace: what is left is a suffix that is
      empty or starts with a non-space character, and everything removed is whitespace. */
  lemma {:induction false} StripLeftSpec(s: string)
    ensures var r := StripLeft(s);
            |r| <= |s| && r == s[|s| - |r|..] && (r == [] || !IsSpace(r[0])) &&
            forall i :: 0 <= i < |s| - |r| ==> IsSpace(s[i])
    decreases |s|
  {
    if s != [] && IsSpace(s[0]) {
      StripLeftSpec(s[1..]);
      assert s[1..][|s| - 1 - |StripLeft(s)|..] == s[|s| - |StripLeft(s)|..];
    }
  }

  /** `s.rstrip()` */
  function StripRight(s: string): string
    decreases |s|
  {
    if s != [] && IsSpace(s[|s| - 1]) then StripRight(s[..|s| - 1]) else s
  }

  /** `rstrip` removes exactly the trailing whitespace: what is left is a prefix that is
      empty or ends with a non-space character, and everything removed is whitespace. */
  lemma {:induction false} StripRightSpec(s: string)
    ensures var r := StripRight(s);
            |r| <= |s| && r == s[..|r|] && (r == [] || !IsSpace(r[|r| - 1])) &&
            forall i :: |r| <= i < |s| ==> IsSpace(s[i])
    decreases |s|
  {
    if s != [] && IsSpace(s[|s| - 1]) {
      StripRightSpec(s[..|s| - 1]);
    }
  }

  /** `s.strip()` */
  function Strip(s: string): string {
    StripRight(StripLeft(s))
  }

  /** `s.strip().startswith(c)` for a non-space character `c` holds exactly when the first
      character of `s` that is not whitespace is `c`. */
  lemma StrippedStartsWith(s: string, c: char)
    requires !IsSpace(c)
    ensures StartsWith(Strip(s), [c]) <==>
            exists k :: 0 <= k < |s| && s[k] == c && forall j :: 0 <= j < k ==> IsSpace(s[j])
  {
    var l := StripLeft(s);
    var k := |s| - |l|;
    StripLeftSpec(s);
    RightStripKeepsFirst(l);
    if exists k' :: 0 <= k' < |s| && s[k'] == c && forall j :: 0 <= j < k' ==> IsSpace(s[j]) {
      var k' :| 0 <= k' < |s| && s[k'] == c && forall j :: 0 <= j < k' ==> IsSpace(s[j]);
      assert k == k';
    }
    if StartsWith(Strip(s), [c]) {
      assert s[k] == l[0];
    }
  }

  /** `rstrip` of a string starting with a non-space character keeps that first character. */
  lemma RightStripKeepsFirst(l: string)
    ensures l != [] && !IsSpace(l[0]) ==> StripRight(l) != [] && StripRight(l)[0] == l[0]
    ensures l == [] ==> StripRight(l) == []
  {
    StripRightSpec(l);
  }

  /** `s.split(sep)` for a one-character separator: the pieces between separators, always at
      least one (the empty string splits into `[""]`). */
  function Split(s: string, sep: char): (r: seq<string>)
    ensures |r| >= 1
    decreases |s|
  {
    if s == [] then [[]]
    else if s[0] == sep then [[]] + Split(s[1..], sep)
    else var rest := Split(s[1..], sep); [[s[0]] + rest[0]] + rest[1..]
  }

  /** `sep.join(parts)` */
  function Join(parts: seq<string>, sep: char): string
    requires |parts| >= 1
    decreases |parts|
  {
    if |parts| == 1 then parts[0] else parts[0] + [sep] + Join(parts[1..], sep)
  }

  /** Splitting loses nothing: joining the pieces back gives the original string,
      and no piece contains the separator. */
  lemma {:induction false} SplitJoin(s: string, sep: char)
    ensures Join(Split(s, sep), sep) == s
    ensures forall k :: 0 <= k < |Split(s, sep)| ==> sep !in Split(s, sep)[k]
    decreases |s|
  {
    if s != [] {
      SplitJoin(s[1..], sep);
      var rest := Split(s[1..], sep);
      if s[0] == sep {
        assert Split(s, sep)[1..] == rest;
      } else {
        var r := Split(s, sep);
        assert r[0] == [s[0]] + rest[0];
        if |rest| > 1 {
          assert r[1..] == rest[1..];
        }
        assert forall k :: 1 <= k < |r| ==> r[k] == rest[k];
      }
    }
  }

  /** `Path(path).name`: the last component, the text after the last `/`. */
  function Name(path: string): string
    decreases |path|
  {
    if path == [] || path[|path| - 1] == '/' then []
    else Name(path[..|path| - 1]) + [path[|path| - 1]]
  }

  /** The name is the longest suffix of the path without a `/`: it holds no `/`, and it is
      either the whole path or preceded by a `/`. */
  lemma {:induction false} NameIsLastComponent(path: string)
    ensures var r := Name(path);
            '/' !in r && |r| <= |path| && r == path[|path| - |r|..] &&
            (|r| < |path| ==> path[|path| - |r| - 1] == '/')
    decreases |path|
  {
    if path != [] && path[|path| - 1] != '/' {
      var init := path[..|path| - 1];
      NameIsLastComponent(init);
      assert init[|init| - |Name(init)|..] + [path[|path| - 1]] == path[|path| - |Name(path)|..];
    }
  }

  function DigitChar(d: nat): (c: char)
    requires d < 10
    ensures '0' <= c <= '9'
  {
    "0123456789"[d]
  }

  /** `str(n)` for a non-negative `int`, as an f-string renders it. */
  function Decimal(n: nat): (r: string)
    ensures |r| >= 1 && forall i :: 0 <= i < |r| ==> '0' <= r[i] <= '9'
    ensures r[0] == '0' ==> n == 0
    decreases n
  {
    if n < 10 then [DigitChar(n)] else Decimal(n / 10) + [DigitChar(n % 10)]
  }

  /** `int(s)` for a string of decimal digits. */
  function DecimalValue(s: string): nat
    requires forall i :: 0 <= i < |s| ==> '0' <= s[i] <= '9'
    decreases |s|
  {
    if s == [] then 0 else 10 * DecimalValue(s[..|s| - 1]) + (s[|s| - 1] as int - '0' as int)
  }

  /** The rendering is faithful: reading the digits back gives the number. */
  lemma {:induction false} DecimalRoundTrip(n: nat)
    ensures DecimalValue(Decimal(n)) == n
    decreases n
  {
    if n < 10 {
      DigitValue(n);
    } else {
      DecimalRoundTrip(n / 10);
      DigitValue(n % 10);
      var r := Decimal(n);
      assert r[..|r| - 1] == Decimal(n / 10);
      assert DecimalValue(r) == 10 * (n / 10) + n % 10;
    }
  }

  /** A digit character stands for its digit. */
  lemma DigitValue(d: nat)
    requires d < 10
    ensures DigitChar(d) as int - '0' as int == d
  {
  }
}
