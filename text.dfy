/** The string operations the converters use: JavaScript's `trim`,
    `split('\n')`, `toLowerCase`/`toUpperCase` (ASCII letters),
    `replace(/\s+/g, r)`, `includes`, and decimal rendering and recognition of
    integers. */
module Text {
  import opened Wrappers
  import opened Seqs

  /** JavaScript white space and line terminators: what `trim` removes and
      what `\s` matches in a regular expression. */
  predicate IsSpace(c: char) {
    || c == ' ' || c == '\t' || c == '\n' || c == '\r' || c == '\U{B}' || c == '\U{C}'
    || c == '\U{A0}' || c == '\U{1680}' || ('\U{2000}' <= c <= '\U{200A}')
    || c == '\U{2028}' || c == '\U{2029}' || c == '\U{202F}' || c == '\U{205F}'
    || c == '\U{3000}' || c == '\U{FEFF}'
  }

  predicate IsDigit(c: char) {
    '0' <= c <= '9'
  }

  predicate NoSpace(s: string) {
    forall k :: 0 <= k < |s| ==> !IsSpace(s[k])
  }

  /** `s || d` for a string: the empty string is falsy. */
  function OrString(s: string, d: string): string {
    if s != "" then s else d
  }

  // ---------------------------------------------------------------- trim

  /** The index of the first character at or after `i` that is not white
      space (or the length). */
  function SpaceEnd(s: string, i: nat): (k: nat)
    requires i <= |s|
    ensures i <= k <= |s|
    decreases |s| - i
  {
    if i < |s| && IsSpace(s[i]) then SpaceEnd(s, i + 1) else i
  }

  /** The index just after the last character before `j` that is not white
      space, going no lower than `lo`. */
  function SpaceStart(s: string, lo: nat, j: nat): (k: nat)
    requires lo <= j <= |s|
    ensures lo <= k <= j
  {
    if j > lo && IsSpace(s[j - 1]) then SpaceStart(s, lo, j - 1) else j
  }

  /** `s` without its leading white space. */
  function TrimStart(s: string): string {
    s[SpaceEnd(s, 0)..]
  }

  /** `s.trim()`. */
  function Trim(s: string): string {
    var lo := SpaceEnd(s, 0);
    s[lo..SpaceStart(s, lo, |s|)]
  }

  lemma {:induction false} SpaceEndAt(s: string, i: nat, k: nat)
    requires i <= k <= |s|
    requires forall m :: i <= m < k ==> IsSpace(s[m])
    requires k == |s| || !IsSpace(s[k])
    ensures SpaceEnd(s, i) == k
    decreases k - i
  {
    if i < k {
      SpaceEndAt(s, i + 1, k);
    }
  }

  /** Leading white space is skipped, and only that. */
  lemma {:induction false} SpaceEndSkips(s: string, i: nat)
    requires i <= |s|
    ensures forall m :: i <= m < SpaceEnd(s, i) ==> IsSpace(s[m])
    ensures SpaceEnd(s, i) == |s| || !IsSpace(s[SpaceEnd(s, i)])
    decreases |s| - i
  {
    if i < |s| && IsSpace(s[i]) {
      SpaceEndSkips(s, i + 1);
    }
  }

  lemma TrimStartNoop(s: string)
    requires s == [] || !IsSpace(s[0])
    ensures TrimStart(s) == s
  {
  }

  /** A non-empty line that starts with white space loses at least one
      character to `trimStart`. */
  lemma TrimStartShorter(s: string)
    requires s != [] && IsSpace(s[0])
    ensures |TrimStart(s)| < |s|
  {
  }

  /** An indented statement trims to the statement itself. */
  lemma TrimIndented(stmt: string)
    requires stmt != [] && !IsSpace(stmt[0]) && !IsSpace(stmt[|stmt| - 1])
    ensures Trim("    " + stmt) == stmt
  {
    var s := "    " + stmt;
    SpaceEndAt(s, 0, 4);
    assert SpaceStart(s, 4, |s|) == |s|;
    assert s[4..|s|] == stmt;
  }

  // ---------------------------------------------------------------- lines

  /** `s.split('\n')`. */
  function SplitLines(s: string): (r: seq<string>)
    ensures |r| >= 1
    ensures forall k :: 0 <= k < |r| ==> '\n' !in r[k]
  {
    if s == [] then [""]
    else
      var rest := SplitLines(s[1..]);
      if s[0] == '\n' then [""] + rest else [[s[0]] + rest[0]] + rest[1..]
  }

  /** `ls.join('\n')`. */
  function JoinLines(ls: seq<string>): string
    requires |ls| >= 1
  {
    if |ls| == 1 then ls[0] else ls[0] + "\n" + JoinLines(ls[1..])
  }

  /** Every line followed by a line feed: how the stage script is written. */
  function Unlines(ls: seq<string>): string {
    if ls == [] then "" else ls[0] + "\n" + Unlines(ls[1..])
  }

  lemma {:induction false} JoinSplit(s: string)
    ensures JoinLines(SplitLines(s)) == s
  {
    if s != [] {
      JoinSplit(s[1..]);
      var rest := SplitLines(s[1..]);
      if s[0] == '\n' {
        assert s == "\n" + s[1..];
      } else if |rest| == 1 {
        assert s == [s[0]] + s[1..];
      } else {
        assert JoinLines(rest) == rest[0] + "\n" + JoinLines(rest[1..]);
        assert s == [s[0]] + s[1..];
      }
    }
  }

  lemma {:induction false} SplitPrefixLine(line: string, s: string)
    requires '\n' !in line
    ensures SplitLines(line + s) == [line + SplitLines(s)[0]] + SplitLines(s)[1..]
  {
    if line != [] {
      assert line[0] in line;
      assert forall c :: c in line[1..] ==> c in line;
      SplitPrefixLine(line[1..], s);
      var r := SplitLines(s);
      var rest := SplitLines(line[1..] + s);
      assert (line + s)[0] == line[0] && line[0] != '\n';
      assert (line + s)[1..] == line[1..] + s;
      assert rest[0] == line[1..] + r[0] && rest[1..] == r[1..];
      assert [line[0]] + rest[0] == line + r[0];
    } else {
      assert line + s == s;
      var r := SplitLines(s);
      assert line + r[0] == r[0];
      assert [r[0]] + r[1..] == r;
    }
  }

  lemma {:induction false} SplitJoin(ls: seq<string>)
    requires |ls| >= 1
    requires forall k :: 0 <= k < |ls| ==> '\n' !in ls[k]
    ensures SplitLines(JoinLines(ls)) == ls
  {
    if |ls| == 1 {
      SplitPrefixLine(ls[0], "");
      assert ls[0] + "" == ls[0];
    } else {
      SplitJoin(ls[1..]);
      var tail := "\n" + JoinLines(ls[1..]);
      assert tail[1..] == JoinLines(ls[1..]);
      assert SplitLines(tail) == [""] + ls[1..];
      assert '\n' !in ls[0];
      SplitPrefixLine(ls[0], tail);
      assert ls[0] + "\n" + JoinLines(ls[1..]) == ls[0] + tail;
      assert ls[0] + "" == ls[0];
      assert ls == [ls[0]] + ls[1..];
    }
  }

  lemma {:induction false} UnlinesAsJoin(ls: seq<string>)
    ensures Unlines(ls) == JoinLines(ls + [""])
  {
    if ls != [] {
      UnlinesAsJoin(ls[1..]);
      assert (ls + [""])[1..] == ls[1..] + [""];
    }
  }

  /** Splitting a written script gives back its lines and one empty line
      after the final line feed. */
  lemma UnlinesSplit(ls: seq<string>)
    requires forall k :: 0 <= k < |ls| ==> '\n' !in ls[k]
    ensures SplitLines(Unlines(ls)) == ls + [""]
  {
    UnlinesAsJoin(ls);
    SplitJoin(ls + [""]);
  }

  lemma {:induction false} UnlinesAppend(a: seq<string>, b: seq<string>)
    ensures Unlines(a + b) == Unlines(a) + Unlines(b)
  {
    if a != [] {
      UnlinesAppend(a[1..], b);
      assert (a + b)[1..] == a[1..] + b;
    } else {
      assert a + b == b;
    }
  }

  // ---------------------------------------------------------------- integers

  function DigitChar(d: int): (c: char)
    requires 0 <= d < 10
    ensures IsDigit(c) && (c as int) - ('0' as int) == d
  {
    (('0' as int) + d) as char
  }

  /** Decimal digits of a natural number, most significant first. */
  function NatToString(n: nat): (r: string)
    ensures |r| >= 1 && forall k :: 0 <= k < |r| ==> IsDigit(r[k])
  {
    if n < 10 then [DigitChar(n)] else NatToString(n / 10) + [DigitChar(n % 10)]
  }

  /** How JavaScript renders an integer-valued number in a template string. */
  function IntToString(n: int): (r: string)
    ensures r != [] && !IsSpace(r[0])
  {
    if n < 0 then "-" + NatToString(-n) else NatToString(n)
  }

  lemma IntToStringOneLine(n: int)
    ensures '\n' !in IntToString(n)
  {
  }

  /** The value of a string of decimal digits. */
  function DigitsValue(s: string): nat
    requires forall k :: 0 <= k < |s| ==> IsDigit(s[k])
  {
    if s == [] then 0
    else
      assert IsDigit(s[|s| - 1]);
      DigitsValue(s[..|s| - 1]) * 10 + ((s[|s| - 1] as int) - ('0' as int))
  }

  lemma {:induction false} NatToStringValue(n: nat)
    ensures DigitsValue(NatToString(n)) == n
  {
    if n >= 10 {
      NatToStringValue(n / 10);
      var s := NatToString(n);
      assert s[..|s| - 1] == NatToString(n / 10);
    }
  }

  /** Length of the run of digits that starts `s`. */
  function DigitRun(s: string): (n: nat)
    ensures n <= |s|
    ensures forall k :: 0 <= k < n ==> IsDigit(s[k])
    ensures n < |s| ==> !IsDigit(s[n])
  {
    if s != [] && IsDigit(s[0]) then 1 + DigitRun(s[1..]) else 0
  }

  lemma {:induction false} DigitRunOf(digits: string, rest: string)
    requires forall k :: 0 <= k < |digits| ==> IsDigit(digits[k])
    requires rest == [] || !IsDigit(rest[0])
    ensures DigitRun(digits + rest) == |digits|
  {
    if digits != [] {
      DigitRunOf(digits[1..], rest);
      assert (digits + rest)[1..] == digits[1..] + rest;
    } else {
      assert digits + rest == rest;
    }
  }

  /** The run of digits at the start of `s`, read as a number, with the text
      that follows it. */
  function DigitsToken(s: string): (r: Option<(nat, string)>)
    ensures r.Some? ==> |r.value.1| < |s|
  {
    var n := DigitRun(s);
    if n == 0 then None else Some((DigitsValue(s[..n]), s[n..]))
  }

  /** The number token at the start of `s`: an optional minus sign and a
      non-empty run of digits, with the text that follows it. */
  function IntToken(s: string): (r: Option<(int, string)>)
    ensures r.Some? ==> |r.value.1| < |s|
  {
    var neg := s != [] && s[0] == '-';
    var digits := DigitsToken(if neg then s[1..] else s);
    if digits.None? then None
    else Some(((if neg then -(digits.value.0 as int) else digits.value.0 as int), digits.value.1))
  }

  lemma DigitsTokenOf(digits: string, rest: string)
    requires digits != [] && forall k :: 0 <= k < |digits| ==> IsDigit(digits[k])
    requires rest == [] || !IsDigit(rest[0])
    ensures DigitsToken(digits + rest) == Some((DigitsValue(digits), rest))
  {
    DigitRunOf(digits, rest);
    assert (digits + rest)[..|digits|] == digits;
    assert (digits + rest)[|digits|..] == rest;
  }

  lemma NegatedToken(t: string, v: nat, rest: string)
    requires DigitsToken(t) == Some((v, rest))
    ensures IntToken(['-'] + t) == Some((-(v as int), rest))
  {
    DropCons('-', t);
  }

  lemma NonNegativeTokenOf(digits: string, rest: string)
    requires digits != [] && forall k :: 0 <= k < |digits| ==> IsDigit(digits[k])
    requires rest == [] || !IsDigit(rest[0])
    ensures IntToken(digits + rest) == Some((DigitsValue(digits) as int, rest))
  {
    DigitsTokenOf(digits, rest);
    assert (digits + rest)[0] == digits[0];
  }

  lemma NegativeIntToken(x: int, rest: string)
    requires x < 0 && (rest == [] || !IsDigit(rest[0]))
    ensures IntToken(IntToString(x) + rest) == Some((x, rest))
  {
    var digits := NatToString(-x);
    NatToStringValue(-x);
    assert IntToString(x) == ['-'] + digits;
    AppendAssoc(['-'], digits, rest);
    DigitsTokenOf(digits, rest);
    NegatedToken(digits + rest, -x, rest);
  }

  lemma NonNegativeIntToken(x: int, rest: string)
    requires x >= 0 && (rest == [] || !IsDigit(rest[0]))
    ensures IntToken(IntToString(x) + rest) == Some((x, rest))
  {
    NatToStringValue(x);
    NonNegativeTokenOf(NatToString(x), rest);
  }

  /** Recognising a rendered integer gives the integer back. */
  lemma IntTokenOfString(x: int, rest: string)
    requires rest == [] || !IsDigit(rest[0])
    ensures IntToken(IntToString(x) + rest) == Some((x, rest))
  {
    if x < 0 {
      NegativeIntToken(x, rest);
    } else {
      NonNegativeIntToken(x, rest);
    }
  }

  // ---------------------------------------------------------------- matching

  /** The rest of `s` after the literal prefix `p`, if `s` starts with it. */
  function StripPrefix(s: string, p: string): Option<string> {
    if |p| <= |s| && s[..|p|] == p then Some(s[|p|..]) else None
  }

  lemma StripPrefixOf(p: string, s: string)
    ensures StripPrefix(p + s, p) == Some(s)
  {
    assert (p + s)[..|p|] == p;
    assert (p + s)[|p|..] == s;
  }

  lemma StripPrefixMismatch(s: string, p: string, k: nat)
    requires k < |s| && k < |p| && s[k] != p[k]
    ensures StripPrefix(s, p) == None
  {
    if |p| <= |s| {
      assert s[..|p|][k] == s[k];
    }
  }

  /** Number of characters before the first quote `'`. */
  function QuoteRun(s: string): (n: nat)
    ensures n <= |s|
    ensures forall k :: 0 <= k < n ==> s[k] != '\''
    ensures n < |s| ==> s[n] == '\''
  {
    if s != [] && s[0] != '\'' then 1 + QuoteRun(s[1..]) else 0
  }

  /** The regular-expression piece `[^']+'`: a non-empty run of characters
      up to a quote. Yields the run and the rest, which starts at the quote. */
  function Quoted(s: string): Option<(string, string)> {
    var n := QuoteRun(s);
    if n == 0 || n == |s| then None else Some((s[..n], s[n..]))
  }

  lemma {:induction false} QuoteRunOf(body: string, rest: string)
    requires '\'' !in body
    requires rest != [] && rest[0] == '\''
    ensures QuoteRun(body + rest) == |body|
  {
    if body != [] {
      assert body[0] in body;
      assert forall c :: c in body[1..] ==> c in body;
      QuoteRunOf(body[1..], rest);
      assert (body + rest)[1..] == body[1..] + rest;
    } else {
      assert body + rest == rest;
    }
  }

  lemma QuotedOf(body: string, rest: string)
    requires body != [] && '\'' !in body
    requires rest != [] && rest[0] == '\''
    ensures Quoted(body + rest) == Some((body, rest))
  {
    QuoteRunOf(body, rest);
    assert (body + rest)[..|body|] == body;
    assert (body + rest)[|body|..] == rest;
  }

  predicate EndsWith(s: string, suffix: string) {
    |suffix| <= |s| && s[|s| - |suffix|..] == suffix
  }

  /** `s.includes(sub)`. */
  function Contains(s: string, sub: string): bool {
    StripPrefix(s, sub).Some? || (s != [] && Contains(s[1..], sub))
  }

  // ---------------------------------------------------------------- case and white space

  function LowerChar(c: char): char {
    if 'A' <= c <= 'Z' then ((c as int) + 32) as char else c
  }

  function UpperChar(c: char): char {
    if 'a' <= c <= 'z' then ((c as int) - 32) as char else c
  }

  /** `s.toLowerCase()` on ASCII letters. */
  function Lower(s: string): (r: string)
    ensures |r| == |s| && forall k :: 0 <= k < |s| ==> r[k] == LowerChar(s[k])
  {
    seq(|s|, k requires 0 <= k < |s| => LowerChar(s[k]))
  }

  /** Lower-casing twice is lower-casing once, and text comes out unchanged
      exactly when it holds no ASCII upper-case letter. */
  lemma LowerIdempotent(s: string)
    ensures Lower(Lower(s)) == Lower(s)
    ensures Lower(s) == s <==> forall k :: 0 <= k < |s| ==> !('A' <= s[k] <= 'Z')
  {
    if Lower(s) == s {
      forall k | 0 <= k < |s| ensures !('A' <= s[k] <= 'Z') {
        assert Lower(s)[k] == s[k];
      }
    }
  }

  /** `s.replace(/\s+/g, rep)`: every maximal run of white space becomes `rep`. */
  function ReplaceSpaceRuns(s: string, rep: string): string
    decreases |s|
  {
    if s == [] then ""
    else if IsSpace(s[0]) then
      TrimStartShorter(s);
      rep + ReplaceSpaceRuns(TrimStart(s), rep)
    else [s[0]] + ReplaceSpaceRuns(s[1..], rep)
  }
}
