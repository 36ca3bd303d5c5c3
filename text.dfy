/**
 * String helpers shared by the models of the Rust back end and the TypeScript front end.
 * Strings are sequences of characters; where JavaScript and Rust disagree (what counts as
 * whitespace) both variants are given.
 */
module Text {
  import opened Base

  /** Whitespace as JavaScript's `String.prototype.trim` and the regular-expression class `\s` see it. */
  predicate IsJsSpace(c: char) {
    c == ' ' || c == '\t' || c == '\n' || c == '\r' || c == '\U{B}' || c == '\U{C}'
    || c == '\U{A0}' || c == '\U{1680}' || ('\U{2000}' <= c <= '\U{200A}')
    || c == '\U{2028}' || c == '\U{2029}' || c == '\U{202F}' || c == '\U{205F}'
    || c == '\U{3000}' || c == '\U{FEFF}'
  }

  /** Whitespace as Rust's `char::is_whitespace` sees it (the Unicode White_Space property). */
  predicate IsRustSpace(c: char) {
    ('\t' <= c <= '\r') || c == ' ' || c == '\U{85}' || c == '\U{A0}' || c == '\U{1680}'
    || ('\U{2000}' <= c <= '\U{200A}') || c == '\U{2028}' || c == '\U{2029}'
    || c == '\U{202F}' || c == '\U{205F}' || c == '\U{3000}'
  }

  predicate AllSpace(s: string, ws: char -> bool) {
    forall i :: 0 <= i < |s| ==> ws(s[i])
  }

  /** Drops the leading characters that `ws` calls whitespace. */
  function TrimStart(s: string, ws: char -> bool): (r: string)
    ensures |r| <= |s| && r == s[|s| - |r|..]
    ensures r != [] ==> !ws(r[0])
    ensures AllSpace(s[..|s| - |r|], ws)
  {
    if s != [] && ws(s[0]) then TrimStart(s[1..], ws) else s
  }

  /** Drops the trailing characters that `ws` calls whitespace. */
  function TrimEnd(s: string, ws: char -> bool): (r: string)
    ensures |r| <= |s| && r == s[..|r|]
    ensures r != [] ==> !ws(r[|r| - 1])
    ensures AllSpace(s[|r|..], ws)
  {
    if s != [] && ws(s[|s| - 1]) then TrimEnd(s[..|s| - 1], ws) else s
  }

  /** A trailing whitespace character is dropped by trimming the end. */
  lemma TrimEndSnocSpace(a: string, c: char, ws: char -> bool)
    requires ws(c)
    ensures TrimEnd(a + [c], ws) == TrimEnd(a, ws)
  {
    assert (a + [c])[..|a|] == a;
  }

  /** Trimming the end keeps every character up to the last non-whitespace one. */
  lemma {:induction false} TrimEndKeepsNonSpace(s: string, ws: char -> bool, i: nat)
    requires i < |s| && !ws(s[i])
    ensures |TrimEnd(s, ws)| > i
  {
    if ws(s[|s| - 1]) {
      TrimEndKeepsNonSpace(s[..|s| - 1], ws, i);
    }
  }

  function Trim(s: string, ws: char -> bool): string {
    TrimEnd(TrimStart(s, ws), ws)
  }

  /** JavaScript `s.trim()`. */
  function JsTrim(s: string): string { Trim(s, IsJsSpace) }

  /** Rust `s.trim()`. */
  function RustTrim(s: string): string { Trim(s, IsRustSpace) }

  /** A string trims to nothing exactly when every character of it is whitespace. */
  lemma TrimEmptyIff(s: string, ws: char -> bool)
    ensures Trim(s, ws) == [] <==> AllSpace(s, ws)
  {
    var a := TrimStart(s, ws);
    var b := TrimEnd(a, ws);
    if b == [] {
      assert a[|b|..] == a;
      assert s[..|s| - |a|] == s;
    } else {
      assert b[0] == a[0];
    }
  }

  /** Trimming keeps the first and last non-whitespace characters: a string with one trims to a non-empty string. */
  lemma TrimKeepsNonSpace(s: string, ws: char -> bool, i: nat)
    requires i < |s| && !ws(s[i])
    ensures Trim(s, ws) != []
  {
    TrimEmptyIff(s, ws);
  }

  /** Trimming is idempotent. */
  lemma TrimIdempotent(s: string, ws: char -> bool)
    ensures Trim(Trim(s, ws), ws) == Trim(s, ws)
  {
    var t := Trim(s, ws);
    if t != [] {
      assert TrimStart(t, ws) == t;
      assert TrimEnd(t, ws) == t;
    }
  }

  predicate StartsWith(s: string, prefix: string) {
    prefix <= s
  }

  predicate EndsWith(s: string, suffix: string) {
    |suffix| <= |s| && s[|s| - |suffix|..] == suffix
  }

  /** `sub` occurs in `s` at position `i`. */
  predicate At(s: string, sub: string, i: int) {
    0 <= i && i + |sub| <= |s| && s[i..i + |sub|] == sub
  }

  /** The first position at or after `from` where `sub` occurs (`indexOf` / `find`). */
  function IndexOfFrom(s: string, sub: string, from: nat): (r: Option<nat>)
    requires from <= |s|
    ensures r.Some? ==> from <= r.value && At(s, sub, r.value)
    ensures r.Some? ==> forall j :: from <= j < r.value ==> !At(s, sub, j)
    ensures r.None? ==> forall j :: from <= j ==> !At(s, sub, j)
    decreases |s| - from
  {
    if At(s, sub, from) then Some(from)
    else if from + |sub| >= |s| then None
    else IndexOfFrom(s, sub, from + 1)
  }

  function IndexOf(s: string, sub: string): Option<nat> {
    IndexOfFrom(s, sub, 0)
  }

  /** JavaScript `s.includes(sub)`, Rust `s.contains(sub)`. */
  predicate Contains(s: string, sub: string) {
    IndexOf(s, sub).Some?
  }

  lemma ContainsIff(s: string, sub: string)
    ensures Contains(s, sub) <==> exists i :: At(s, sub, i)
  {
  }

  /** A string contains everything that occurs in one of its parts. */
  lemma ContainsInConcat(a: string, b: string, c: string, sub: string)
    requires Contains(b, sub)
    ensures Contains(a + b + c, sub)
  {
    var i := IndexOf(b, sub).value;
    assert (a + b + c)[|a| + i..|a| + i + |sub|] == b[i..i + |sub|];
    assert At(a + b + c, sub, |a| + i);
  }

  /** ASCII lower-casing of one character. */
  function LowerChar(c: char): (r: char)
    ensures 'A' <= c <= 'Z' ==> r as int == c as int + 32
    ensures !('A' <= c <= 'Z') ==> r == c
  {
    if 'A' <= c <= 'Z' then (c as int + 32) as char else c
  }

  /** `toLowerCase()` restricted to ASCII letters. */
  function ToLower(s: string): (r: string)
    ensures |r| == |s|
    ensures forall i :: 0 <= i < |s| ==> r[i] == LowerChar(s[i])
  {
    seq(|s|, i requires 0 <= i < |s| => LowerChar(s[i]))
  }

  /** `parts.join(sep)`. */
  function Join(parts: seq<string>, sep: string): string {
    if |parts| == 0 then ""
    else if |parts| == 1 then parts[0]
    else parts[0] + sep + Join(parts[1..], sep)
  }

  /** A string without the first character of `sub` does not contain `sub`. */
  lemma MissingFirstChar(s: string, sub: string)
    requires |sub| > 0 && forall i :: 0 <= i < |s| ==> s[i] != sub[0]
    ensures !Contains(s, sub)
  {
    ContainsIff(s, sub);
    forall i: int ensures !At(s, sub, i) {
      if 0 <= i && i + |sub| <= |s| {
        assert s[i..i + |sub|][0] == s[i];
      }
    }
  }

  /** A string that contains `pre + sub` contains `sub`. */
  lemma ContainsTail(s: string, pre: string, sub: string)
    requires Contains(s, pre + sub)
    ensures Contains(s, sub)
  {
    ContainsIff(s, pre + sub);
    ContainsIff(s, sub);
    var i :| At(s, pre + sub, i);
    assert s[i + |pre|..i + |pre| + |sub|] == (pre + sub)[|pre|..];
    assert At(s, sub, i + |pre|);
  }

  /** Every part of a join occurs in the joined string. */
  lemma {:induction false} JoinContainsParts(parts: seq<string>, sep: string, k: nat, sub: string)
    requires k < |parts| && Contains(parts[k], sub)
    ensures Contains(Join(parts, sep), sub)
  {
    if |parts| == 1 {
    } else if k == 0 {
      ContainsInConcat("", parts[0], sep + Join(parts[1..], sep), sub);
      assert "" + parts[0] + (sep + Join(parts[1..], sep)) == Join(parts, sep);
    } else {
      JoinContainsParts(parts[1..], sep, k - 1, sub);
      ContainsInConcat(parts[0] + sep, Join(parts[1..], sep), "", sub);
      assert parts[0] + sep + Join(parts[1..], sep) + "" == Join(parts, sep);
    }
  }

  lemma AllSpaceConcat(a: string, b: string, ws: char -> bool)
    ensures AllSpace(a + b, ws) <==> AllSpace(a, ws) && AllSpace(b, ws)
  {
    if AllSpace(a, ws) && AllSpace(b, ws) {
      forall i | 0 <= i < |a + b| ensures ws((a + b)[i]) {
        if i >= |a| {
          assert (a + b)[i] == b[i - |a|];
        }
      }
    }
    if AllSpace(a + b, ws) {
      forall i | 0 <= i < |a| ensures ws(a[i]) {
        assert (a + b)[i] == a[i];
      }
      forall i | 0 <= i < |b| ensures ws(b[i]) {
        assert (a + b)[|a| + i] == b[i];
      }
    }
  }

  /** Joining with a blank separator gives a blank string exactly when every part is blank. */
  lemma {:induction false} JoinAllSpace(parts: seq<string>, sep: string, ws: char -> bool)
    requires AllSpace(sep, ws)
    ensures AllSpace(Join(parts, sep), ws) <==> forall k :: 0 <= k < |parts| ==> AllSpace(parts[k], ws)
  {
    if |parts| > 1 {
      var rest := Join(parts[1..], sep);
      JoinAllSpace(parts[1..], sep, ws);
      AllSpaceConcat(parts[0], sep, ws);
      AllSpaceConcat(parts[0] + sep, rest, ws);
      assert forall k :: 1 <= k < |parts| ==> parts[k] == parts[1..][k - 1];
    }
  }

  /** Splits `s` at every character `sep` accepts (`s.split(sep)`); there is always at least one piece. */
  function Split(s: string, sep: char -> bool): (r: seq<string>)
    ensures |r| >= 1
    ensures forall k, i :: 0 <= k < |r| && 0 <= i < |r[k]| ==> !sep(r[k][i])
  {
    if s == [] then [""]
    else
      var rest := Split(s[1..], sep);
      if sep(s[0]) then [""] + rest else [[s[0]] + rest[0]] + rest[1..]
  }

  /** Splitting at a single character and joining with it again gives back the string. */
  lemma {:induction false} SplitJoin(s: string, c: char)
    ensures Join(Split(s, x => x == c), [c]) == s
  {
    if s != [] {
      var rest := Split(s[1..], x => x == c);
      SplitJoin(s[1..], c);
      if s[0] == c {
        assert Split(s, x => x == c) == [""] + rest;
      } else {
        var r := [[s[0]] + rest[0]] + rest[1..];
        assert Split(s, x => x == c) == r;
        if |rest| == 1 {
          assert Join(r, [c]) == [s[0]] + rest[0];
        } else {
          assert r[1..] == rest[1..];
          assert Join(rest, [c]) == rest[0] + [c] + Join(rest[1..], [c]);
        }
      }
    }
  }

  function Last<T>(s: seq<T>): T
    requires |s| > 0
  {
    s[|s| - 1]
  }

  /** An element of a prefix is an element of the whole sequence. */
  lemma InPrefix<T>(x: T, a: seq<T>, b: seq<T>)
    requires x in a && a <= b
    ensures x in b
  {
    var k :| 0 <= k < |a| && a[k] == x;
    assert b[k] == x;
  }

  function DigitChar(d: nat): char
    requires d < 10
  {
    ('0' as int + d) as char
  }

  /**
   * Lexicographic order by character, as Rust compares `str` values (byte order of UTF-8 is
   * code-point order).
   */
  predicate LexLess(a: string, b: string)
    decreases |a|
  {
    if b == [] then false
    else if a == [] then true
    else if a[0] != b[0] then a[0] < b[0]
    else LexLess(a[1..], b[1..])
  }

  lemma {:induction false} LexLessIrreflexive(a: string)
    ensures !LexLess(a, a)
    decreases |a|
  {
    if a != [] {
      LexLessIrreflexive(a[1..]);
    }
  }

  lemma {:induction false} LexLessTransitive(a: string, b: string, c: string)
    requires LexLess(a, b) && LexLess(b, c)
    ensures LexLess(a, c)
    decreases |a|
  {
    if a != [] && a[0] == b[0] && b[0] == c[0] {
      LexLessTransitive(a[1..], b[1..], c[1..]);
    }
  }

  lemma {:induction false} LexLessTotal(a: string, b: string)
    requires a != b
    ensures LexLess(a, b) || LexLess(b, a)
    decreases |a|
  {
    if a != [] && b != [] && a[0] == b[0] {
      assert a == [a[0]] + a[1..] && b == [b[0]] + b[1..];
      LexLessTotal(a[1..], b[1..]);
    }
  }

  lemma {:induction false} LexLessAsymmetric(a: string, b: string)
    requires LexLess(a, b)
    ensures !LexLess(b, a)
  {
    if LexLess(b, a) {
      LexLessTransitive(a, b, a);
      LexLessIrreflexive(a);
    }
  }

  /** Decimal rendering of a natural number (`n.toString()`, `format!("{}", n)`). */
  function NatToString(n: nat): (r: string)
    ensures |r| >= 1
    ensures forall i :: 0 <= i < |r| ==> '0' <= r[i] <= '9'
    ensures n > 0 ==> r[0] != '0'
    decreases n
  {
    if n < 10 then [DigitChar(n)] else NatToString(n / 10) + [DigitChar(n % 10)]
  }

  /** Decimal rendering of an integer, with a leading "-" when it is negative. */
  function IntToString(i: int): (r: string)
    ensures |r| >= 1
    ensures i < 0 <==> r[0] == '-'
  {
    if i < 0 then "-" + NatToString(-i) else NatToString(i)
  }

  /** Value of a string of decimal digits. */
  function DigitsValue(s: string): nat
    requires forall i :: 0 <= i < |s| ==> '0' <= s[i] <= '9'
  {
    if s == [] then 0 else 10 * DigitsValue(s[..|s| - 1]) + (s[|s| - 1] as int - '0' as int)
  }

  /** Reading the rendering back gives the number. */
  lemma {:induction false} NatToStringValue(n: nat)
    ensures DigitsValue(NatToString(n)) == n
    decreases n
  {
    if n >= 10 {
      NatToStringValue(n / 10);
      var r := NatToString(n);
      assert r[..|r| - 1] == NatToString(n / 10);
    }
  }

  /** Distinct numbers render differently. */
  lemma NatToStringInjective(m: nat, n: nat)
    requires NatToString(m) == NatToString(n)
    ensures m == n
  {
    NatToStringValue(m);
    NatToStringValue(n);
  }

  /** Rust `strip_suffix('\r')` applied after a `'\n'` was stripped. */
  function StripCr(line: string): string {
    if line != [] && Last(line) == '\r' then line[..|line| - 1] else line
  }

  /**
   * Rust `str::lines`: the text is split after every `'\n'`; the `'\n'` and one `'\r'` before it are
   * removed; a final line without a terminator keeps any `'\r'`; a trailing `'\n'` makes no empty line.
   */
  function Lines(s: string): (r: seq<string>)
    ensures forall k, i :: 0 <= k < |r| && 0 <= i < |r[k]| ==> r[k][i] != '\n'
    decreases |s|
  {
    if s == [] then []
    else match IndexOf(s, "\n")
      case None =>
        assert forall i :: 0 <= i < |s| ==> s[i..i + 1] == [s[i]] && !At(s, "\n", i);
        [s]
      case Some(i) =>
        assert forall j :: 0 <= j < i ==> s[j..j + 1] == [s[j]] && !At(s, "\n", j);
        [StripCr(s[..i])] + Lines(s[i + 1..])
  }

  /** What a Rust writer produces from `lines.join("\n") + "\n"`, or nothing for no lines. */
  function JoinLines(lines: seq<string>): (r: string)
    ensures lines == [] <==> r == []
  {
    if lines == [] then "" else Join(lines, "\n") + "\n"
  }

  /** A line that survives a write and a re-read unchanged. */
  predicate PlainLine(line: string) {
    (forall i :: 0 <= i < |line| ==> line[i] != '\n') && !(line != [] && Last(line) == '\r')
  }

  /** A line without `'\n'` followed by one is read as the first line. */
  lemma LinesOfFirst(l: string, rest: string)
    requires forall i :: 0 <= i < |l| ==> l[i] != '\n'
    ensures Lines(l + "\n" + rest) == [StripCr(l)] + Lines(rest)
  {
    var s := l + "\n" + rest;
    assert At(s, "\n", |l|);
    forall j | 0 <= j < |l| ensures !At(s, "\n", j) {
      assert s[j..j + 1][0] == l[j];
    }
    assert IndexOf(s, "\n") == Some(|l|);
    assert s[..|l|] == l;
    assert s[|l| + 1..] == rest;
  }

  /** Reading back what `JoinLines` wrote gives the same lines. */
  lemma {:induction false} LinesJoinLines(lines: seq<string>)
    requires forall k :: 0 <= k < |lines| ==> PlainLine(lines[k])
    ensures Lines(JoinLines(lines)) == lines
  {
    if lines != [] {
      var s := JoinLines(lines);
      var l := lines[0];
      var rest := JoinLines(lines[1..]);
      assert s == l + "\n" + rest by {
        if |lines| > 1 {
          assert Join(lines, "\n") == l + "\n" + Join(lines[1..], "\n");
        }
      }
      LinesOfFirst(l, rest);
      LinesJoinLines(lines[1..]);
    }
  }
}
