/** String operations of the JavaScript runtime that the consolidator relies on:
    `includes`, `startsWith`, `trim`, whitespace stripping with `/\s/g`,
    comma stripping with `/,/g`, `replace` of a first occurrence and `join`. */
module Text {

  /** The characters JavaScript's `\s` class and `String.prototype.trim` treat as
      white space (WhiteSpace and LineTerminator of ECMAScript), including the
      ideographic full-width space U+3000. */
  predicate IsSpace(c: char) {
    || c == '\t' || c == '\n' || c == '\U{B}' || c == '\U{C}' || c == '\r'
    || c == ' ' || c == '\U{A0}' || c == '\U{1680}'
    || ('\U{2000}' <= c <= '\U{200A}')
    || c == '\U{2028}' || c == '\U{2029}' || c == '\U{202F}' || c == '\U{205F}'
    || c == '\U{3000}' || c == '\U{FEFF}'
  }

  /** The UTF-16 code units a character takes: two for one outside the Basic
      Multilingual Plane (a surrogate pair), one otherwise. */
  function CodeUnits(c: char): nat {
    if c as int > 0xFFFF then 2 else 1
  }

  /** `s.length`, which counts UTF-16 code units, not characters. */
  function Utf16Length(s: string): (n: nat)
    ensures |s| <= n <= 2 * |s|
    decreases |s|
  {
    if s == [] then 0 else Utf16Length(s[..|s| - 1]) + CodeUnits(s[|s| - 1])
  }

  /** `s.startsWith(p)` */
  predicate StartsWith(s: string, p: string) {
    |p| <= |s| && s[..|p|] == p
  }

  /** `s.endsWith(p)` */
  predicate EndsWith(s: string, p: string) {
    |p| <= |s| && s[|s| - |p|..] == p
  }

  /** `s.includes(p)`: some suffix of `s` starts with `p`. */
  predicate Contains(s: string, p: string)
    decreases |s|
  {
    StartsWith(s, p) || (|s| > 0 && Contains(s[1..], p))
  }

  /** `s.indexOf(p)`: the first position where `p` occurs, or -1. */
  function IndexOf(s: string, p: string): (r: int)
    ensures r == -1 <==> !Contains(s, p)
    ensures r != -1 ==> 0 <= r && r + |p| <= |s| && s[r..r + |p|] == p
    ensures r != -1 ==> forall j :: 0 <= j < r ==> !StartsWith(s[j..], p)
    decreases |s|
  {
    if StartsWith(s, p) then 0
    else if |s| == 0 then -1
    else
      var k := IndexOf(s[1..], p);
      if k == -1 then -1
      else
        assert forall j :: 1 <= j < k + 1 ==> s[j..] == s[1..][j - 1..];
        k + 1
  }

  lemma {:induction false} ContainsAppendRight(a: string, b: string, p: string)
    requires Contains(a, p)
    ensures Contains(a + b, p)
    decreases |a|
  {
    if StartsWith(a, p) {
      assert (a + b)[..|p|] == a[..|p|];
    } else {
      assert (a + b)[1..] == a[1..] + b;
      ContainsAppendRight(a[1..], b, p);
    }
  }

  lemma {:induction false} ContainsAppendLeft(a: string, b: string, p: string)
    requires Contains(b, p)
    ensures Contains(a + b, p)
    decreases |a|
  {
    if |a| > 0 {
      assert (a + b)[1..] == a[1..] + b;
      ContainsAppendLeft(a[1..], b, p);
    } else {
      assert a + b == b;
    }
  }

  /** `s.replace(/\s/g, '')`: every white-space character removed. */
  function StripSpace(s: string): (r: string)
    ensures |r| <= |s|
    ensures forall i :: 0 <= i < |r| ==> !IsSpace(r[i])
    decreases |s|
  {
    if s == [] then []
    else if IsSpace(s[0]) then StripSpace(s[1..])
    else [s[0]] + StripSpace(s[1..])
  }

  lemma {:induction false} StripSpaceAppend(a: string, b: string)
    ensures StripSpace(a + b) == StripSpace(a) + StripSpace(b)
    decreases |a|
  {
    if a != [] {
      assert (a + b)[0] == a[0] && (a + b)[1..] == a[1..] + b;
      StripSpaceAppend(a[1..], b);
    } else {
      assert a + b == b;
    }
  }

  /** Leading white space removed. */
  function TrimStart(s: string): (r: string)
    ensures r == [] || !IsSpace(r[0])
    decreases |s|
  {
    if |s| > 0 && IsSpace(s[0]) then TrimStart(s[1..]) else s
  }

  /** Trailing white space removed. */
  function TrimEnd(s: string): (r: string)
    ensures r == [] || !IsSpace(r[|r| - 1])
    decreases |s|
  {
    if |s| > 0 && IsSpace(s[|s| - 1]) then TrimEnd(s[..|s| - 1]) else s
  }

  /** `s.trim()` */
  function Trim(s: string): string {
    TrimEnd(TrimStart(s))
  }

  lemma {:induction false} TrimStartKeepsContains(s: string, p: string)
    requires Contains(TrimStart(s), p)
    ensures Contains(s, p)
    decreases |s|
  {
    if |s| > 0 && IsSpace(s[0]) {
      TrimStartKeepsContains(s[1..], p);
    }
  }

  lemma {:induction false} TrimEndKeepsContains(s: string, p: string)
    requires Contains(TrimEnd(s), p)
    ensures Contains(s, p)
    decreases |s|
  {
    if |s| > 0 && IsSpace(s[|s| - 1]) {
      TrimEndKeepsContains(s[..|s| - 1], p);
      assert s == s[..|s| - 1] + [s[|s| - 1]];
      ContainsAppendRight(s[..|s| - 1], [s[|s| - 1]], p);
    }
  }

  /** Whatever the trimmed text contains, the untrimmed text contains. */
  lemma TrimKeepsContains(s: string, p: string)
    requires Contains(Trim(s), p)
    ensures Contains(s, p)
  {
    TrimEndKeepsContains(TrimStart(s), p);
    TrimStartKeepsContains(s, p);
  }

  /** `s.replace(/,/g, '')`: every thousands separator removed. */
  function StripCommas(s: string): (r: string)
    ensures ',' !in r
    ensures |r| <= |s|
    decreases |s|
  {
    if s == [] then []
    else if s[0] == ',' then StripCommas(s[1..])
    else [s[0]] + StripCommas(s[1..])
  }

  /** `s.replace(p, '')` with a string pattern: the first occurrence removed. */
  function RemoveFirst(s: string, p: string): (r: string)
    ensures !Contains(s, p) ==> r == s
    ensures Contains(s, p) ==> |r| == |s| - |p|
  {
    var i := IndexOf(s, p);
    if i == -1 then s else s[..i] + s[i + |p|..]
  }

  /** `row.join(sep)` */
  function Join(row: seq<string>, sep: string): string
    decreases |row|
  {
    if row == [] then ""
    else if |row| == 1 then row[0]
    else row[0] + sep + Join(row[1..], sep)
  }

  /** Every cell's text occurs in the joined row. */
  lemma {:induction false} JoinContainsCell(row: seq<string>, sep: string, k: nat, p: string)
    requires k < |row| && Contains(row[k], p)
    ensures Contains(Join(row, sep), p)
    decreases |row|
  {
    if |row| > 1 {
      if k == 0 {
        ContainsAppendRight(row[0], sep + Join(row[1..], sep), p);
        assert row[0] + sep + Join(row[1..], sep) == row[0] + (sep + Join(row[1..], sep));
      } else {
        JoinContainsCell(row[1..], sep, k - 1, p);
        ContainsAppendLeft(row[0] + sep, Join(row[1..], sep), p);
      }
    }
  }
}
