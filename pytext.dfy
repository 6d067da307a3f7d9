/** The handful of Python `str` operations the player's decisions rest on:
    `isspace`/`strip`, `lower`, `endswith`, `split(sep)[0]`, the ordering `<=`
    of strings and `int(s)` in base 10. */
module PyText {
  import opened Wrappers
  import opened Decimal

  /** `c.isspace()`: the characters Python counts as whitespace. */
  predicate IsSpace(c: char) {
    ('\t' <= c <= '\r') || ('\U{1C}' <= c <= ' ') || c == '\U{85}' || c == '\U{A0}'
    || c == '\U{1680}' || ('\U{2000}' <= c <= '\U{200A}') || c == '\U{2028}' || c == '\U{2029}'
    || c == '\U{202F}' || c == '\U{205F}' || c == '\U{3000}'
  }

  /** The characters `int()` skips around its literal. CPython turns every non-ASCII
      `isspace` character into a space but keeps ASCII as it is and then skips only
      '\t', '\n', '\v', '\f', '\r' and ' ', so the separators U+001C to U+001F are not skipped. */
  predicate IsIntSpace(c: char) {
    IsSpace(c) && !('\U{1C}' <= c <= '\U{1F}')
  }

  /** `s.lstrip()` for the whitespace `space`: the suffix left after its leading whitespace. */
  function StripLeft(s: string, space: char -> bool): (r: string)
    ensures |r| <= |s| && r == s[|s| - |r|..]
    ensures forall i :: 0 <= i < |s| - |r| ==> space(s[i])
    ensures r != [] ==> !space(r[0])
  {
    if s != [] && space(s[0]) then StripLeft(s[1..], space) else s
  }

  /** `s.rstrip()` for the whitespace `space`: the prefix left before its trailing whitespace. */
  function StripRight(s: string, space: char -> bool): (r: string)
    ensures |r| <= |s| && r == s[..|r|]
    ensures forall i :: |r| <= i < |s| ==> space(s[i])
    ensures r != [] ==> !space(r[|r| - 1])
  {
    if s != [] && space(s[|s| - 1]) then StripRight(s[..|s| - 1], space) else s
  }

  /** `s.strip()`. */
  function Strip(s: string): string {
    StripRight(StripLeft(s, IsSpace), IsSpace)
  }

  /** What `int()` strips around its literal. */
  function IntStrip(s: string): string {
    StripRight(StripLeft(s, IsIntSpace), IsIntSpace)
  }

  /** `strip` removes whitespace from both ends and nothing else, and is idempotent. */
  lemma StripSpec(s: string)
    ensures var r := Strip(s);
      r != [] ==> !IsSpace(r[0]) && !IsSpace(r[|r| - 1])
    ensures Strip(Strip(s)) == Strip(s)
    ensures (s == [] || (!IsSpace(s[0]) && !IsSpace(s[|s| - 1]))) ==> Strip(s) == s
  {
    StripEnds(s, IsSpace);
    StripFixed(Strip(s), IsSpace);
    if s == [] || (!IsSpace(s[0]) && !IsSpace(s[|s| - 1])) {
      StripFixed(s, IsSpace);
    }
  }

  lemma StripEnds(s: string, space: char -> bool)
    ensures var r := StripRight(StripLeft(s, space), space);
      r != [] ==> !space(r[0]) && !space(r[|r| - 1])
  {
    var l := StripLeft(s, space);
    var r := StripRight(l, space);
    if r != [] {
      assert r == l[..|r|];
      assert r[0] == l[0];
    }
  }

  lemma StripFixed(s: string, space: char -> bool)
    requires s == [] || (!space(s[0]) && !space(s[|s| - 1]))
    ensures StripRight(StripLeft(s, space), space) == s
  {
  }

  /** `s.split(sep)[0]`: the part of `s` before the first `sep`, or all of `s`. */
  function BeforeFirst(s: string, sep: char): (r: string)
    ensures |r| <= |s| && r == s[..|r|]
    ensures sep !in r
    ensures |r| < |s| ==> s[|r|] == sep
  {
    if s == [] || s[0] == sep then [] else [s[0]] + BeforeFirst(s[1..], sep)
  }

  /** The three facts about `BeforeFirst` determine it: it is the text before the separator. */
  lemma {:induction false} BeforeFirstSplit(pre: string, sep: char, post: string)
    requires sep !in pre
    ensures BeforeFirst(pre + [sep] + post, sep) == pre
    ensures BeforeFirst(pre, sep) == pre
  {
    if pre != [] {
      BeforeFirstSplit(pre[1..], sep, post);
      assert (pre + [sep] + post)[1..] == pre[1..] + [sep] + post;
    }
  }

  /** `c.lower()` on ASCII letters; every other character is left as it is. */
  function LowerChar(c: char): char {
    if 'A' <= c <= 'Z' then (c as int - 'A' as int + 'a' as int) as char else c
  }

  /** `s.lower()`, letter by letter. */
  function Lower(s: string): (r: string)
    ensures |r| == |s|
    ensures forall i :: 0 <= i < |s| ==> r[i] == LowerChar(s[i])
  {
    seq(|s|, i requires 0 <= i < |s| => LowerChar(s[i]))
  }

  /** `s.endswith(suffix)`. */
  predicate EndsWith(s: string, suffix: string) {
    |suffix| <= |s| && s[|s| - |suffix|..] == suffix
  }

  /** `a <= b` on Python strings: lexicographic by code point, a proper prefix first. */
  predicate LexLe(a: string, b: string) {
    a == [] || (b != [] && (a[0] < b[0] || (a[0] == b[0] && LexLe(a[1..], b[1..]))))
  }

  /** Any two strings are comparable. */
  lemma {:induction false} LexLeTotal(a: string, b: string)
    ensures LexLe(a, b) || LexLe(b, a)
  {
    if a != [] && b != [] && a[0] == b[0] {
      LexLeTotal(a[1..], b[1..]);
    }
  }

  lemma {:induction false} LexLeTransitive(a: string, b: string, c: string)
    requires LexLe(a, b) && LexLe(b, c)
    ensures LexLe(a, c)
  {
    if a != [] && a[0] == b[0] && b[0] == c[0] {
      LexLeTransitive(a[1..], b[1..], c[1..]);
    }
  }

  /** Two strings each `<=` the other are equal, so sorting by `LexLe` leaves no ties. */
  lemma {:induction false} LexLeAntisymmetric(a: string, b: string)
    requires LexLe(a, b) && LexLe(b, a)
    ensures a == b
  {
    if a != [] && b != [] {
      LexLeAntisymmetric(a[1..], b[1..]);
      assert a == [a[0]] + a[1..];
      assert b == [b[0]] + b[1..];
    }
  }

  /** A base-10 digit group of `int()`: digits, with single underscores between digits. */
  predicate IsDigitGroup(d: string) {
    && |d| > 0 && IsDigit(d[0]) && IsDigit(d[|d| - 1])
    && (forall i :: 0 <= i < |d| ==> IsDigit(d[i]) || d[i] == '_')
    && (forall i :: 0 <= i < |d| - 1 && d[i] == '_' ==> d[i + 1] != '_')
  }

  function RemoveUnderscores(d: string): (r: string)
    requires forall i :: 0 <= i < |d| ==> IsDigit(d[i]) || d[i] == '_'
    ensures AllDigits(r)
    ensures AllDigits(d) ==> r == d
  {
    if d == [] then [] else (if d[0] == '_' then [] else [d[0]]) + RemoveUnderscores(d[1..])
  }

  function GroupValue(d: string): nat
    requires IsDigitGroup(d)
  {
    DigitsValue(RemoveUnderscores(d))
  }

  /** An integer literal as `int()` accepts it once stripped: an optional sign, then a digit group. */
  predicate IsIntLiteral(t: string) {
    IsDigitGroup(t) || (|t| > 1 && (t[0] == '+' || t[0] == '-') && IsDigitGroup(t[1..]))
  }

  /** `sys.int_info.default_max_str_digits`: from Python 3.11 on, `int()` of a base-10 text
      with more digits than this raises ValueError. */
  const MaxStrDigits: nat := 4300

  /** The number of decimal digits in a text; signs and underscores do not count. */
  function DigitCount(t: string): (n: nat)
    ensures n <= |t|
  {
    if t == [] then 0 else (if IsDigit(t[0]) then 1 else 0) + DigitCount(t[1..])
  }

  /** `int(s)`: surrounding whitespace is ignored, an optional sign is followed by a digit
      group (leading zeros allowed) of at most `MaxStrDigits` digits; anything else raises
      ValueError (here None). */
  function PyInt(s: string): (r: Option<int>)
    ensures IntStrip(s) == [] ==> r == None
  {
    var t := IntStrip(s);
    if DigitCount(t) > MaxStrDigits then None else ParseSigned(t)
  }

  /** `int()` accepts exactly a signed or unsigned digit group of at most `MaxStrDigits`
      digits between the whitespace it skips. */
  lemma PyIntAccepts(s: string)
    ensures PyInt(s).Some? <==> IsIntLiteral(IntStrip(s)) && DigitCount(IntStrip(s)) <= MaxStrDigits
  {
    ParseSignedAccepts(IntStrip(s));
  }

  lemma ParseSignedAccepts(t: string)
    ensures ParseSigned(t).Some? <==> IsIntLiteral(t)
  {
  }

  /** Text without whitespace of `int()` at its ends is read as it stands. */
  lemma PyIntOfUnpadded(t: string)
    requires t == [] || (!IsIntSpace(t[0]) && !IsIntSpace(t[|t| - 1]))
    ensures PyInt(t) == if DigitCount(t) > MaxStrDigits then None else ParseSigned(t)
  {
    StripFixed(t, IsIntSpace);
    assert IntStrip(t) == t;
  }

  /** On text that has been through `strip()`, as the track field has, `int()` skips nothing
      and reads exactly the text. */
  lemma PyIntOfStripped(s: string)
    ensures IntStrip(Strip(s)) == Strip(s)
    ensures PyInt(Strip(s)).Some? <==> IsIntLiteral(Strip(s)) && DigitCount(Strip(s)) <= MaxStrDigits
  {
    var t := Strip(s);
    StripSpec(s);
    if t != [] {
      assert !IsIntSpace(t[0]) && !IsIntSpace(t[|t| - 1]);
    }
    StripFixed(t, IsIntSpace);
    PyIntOfUnpadded(t);
    ParseSignedAccepts(t);
  }

  /** `int()` does not skip the separators U+001C to U+001F that `strip()` removes: a digit
      group behind one is refused, though its `strip()` is the group. */
  lemma PyIntKeepsSeparators(c: char, d: string)
    requires '\U{1C}' <= c <= '\U{1F}' && IsDigitGroup(d)
    ensures Strip([c] + d) == d
    ensures PyInt([c] + d) == None
  {
    var s := [c] + d;
    assert s[1..] == d && s[|s| - 1] == d[|d| - 1];
    NotIntSpace(d[0]);
    NotIntSpace(d[|d| - 1]);
    assert Strip(s) == d by {
      StripLeftSkips(c, d, IsSpace);
      StripFixed(d, IsSpace);
    }
    assert PyInt(s) == None by {
      PyIntOfUnpadded(s);
      assert !IsDigit(s[0]) && s[0] != '+' && s[0] != '-';
      ParseSignedAccepts(s);
    }
  }

  lemma StripLeftSkips(c: char, d: string, space: char -> bool)
    requires space(c)
    ensures StripLeft([c] + d, space) == StripLeft(d, space)
  {
    assert ([c] + d)[1..] == d;
  }

  /** The value of a signed or unsigned digit group, whatever its length. */
  function ParseSigned(t: string): Option<int> {
    if |t| > 0 && (t[0] == '+' || t[0] == '-') then
      var d := t[1..];
      if IsDigitGroup(d) then
        var v: int := GroupValue(d);
        Some(if t[0] == '-' then -v else v)
      else None
    else if IsDigitGroup(t) then Some(GroupValue(t))
    else None
  }

  /** A digit group reads as its value, unless it has more than `MaxStrDigits` digits. */
  lemma PyIntOfGroup(d: string)
    requires IsDigitGroup(d)
    ensures PyInt(d) == if DigitCount(d) <= MaxStrDigits then Some(GroupValue(d)) else None
  {
    PyIntOfUnpadded(d);
    ParseSignedOfGroup(d);
  }

  lemma ParseSignedOfGroup(d: string)
    requires IsDigitGroup(d)
    ensures ParseSigned(d) == Some(GroupValue(d))
  {
    assert !(d[0] == '+' || d[0] == '-');
  }

  /** A minus sign before a digit group reads as the negated value, unless the group has
      more than `MaxStrDigits` digits. */
  lemma PyIntOfNegatedGroup(m: string)
    requires |m| > 1 && m[0] == '-' && IsDigitGroup(m[1..])
    ensures PyInt(m) == if DigitCount(m[1..]) <= MaxStrDigits then Some(0 - GroupValue(m[1..])) else None
  {
    assert m[|m| - 1] == m[1..][|m| - 2];
    PyIntOfUnpadded(m);
    assert DigitCount(m) == DigitCount(m[1..]);
  }

  /** A plus sign before a digit group reads as the group's value, unless the group has
      more than `MaxStrDigits` digits. */
  lemma PyIntOfPlusGroup(m: string)
    requires |m| > 1 && m[0] == '+' && IsDigitGroup(m[1..])
    ensures PyInt(m) == if DigitCount(m[1..]) <= MaxStrDigits then Some(GroupValue(m[1..])) else None
  {
    assert m[|m| - 1] == m[1..][|m| - 2];
    PyIntOfUnpadded(m);
    assert DigitCount(m) == DigitCount(m[1..]);
  }

  /** Text that is not a signed digit group is refused: a letter, a doubled underscore,
      a space after the sign, a leading underscore. */
  lemma PyIntRefuses(t: string)
    requires t in ["A1", "3a", "1__0", "- 5", "_1"]
    ensures PyInt(t) == None
  {
    if t == "A1" {
      assert t[0] == 'A';
    } else if t == "3a" {
      assert t[1] == 'a';
    } else if t == "1__0" {
      assert t[1] == '_' && t[2] == '_';
    } else if t == "- 5" {
      assert t[0] == '-' && t[1] == ' ';
    } else {
      assert t[0] == '_';
    }
    RefusedLiteral(t);
  }

  lemma RefusedLiteral(t: string)
    requires |t| > 0 && !IsIntSpace(t[0]) && !IsIntSpace(t[|t| - 1]) && !IsIntLiteral(t)
    ensures PyInt(t) == None
  {
    PyIntOfUnpadded(t);
    ParseSignedAccepts(t);
  }

  /** The literal `str(i)` has the value `i`. */
  lemma ParseSignedOfIntToString(i: int)
    ensures ParseSigned(IntToString(i)) == Some(i)
  {
    var s := IntToString(i);
    var n: nat := if i < 0 then -i else i;
    NatToStringGroup(n);
    if i >= 0 {
      assert IsDigit(s[0]);
    }
  }

  /** `int(str(i)) == i` while `str(i)` has at most `MaxStrDigits` digits; beyond that
      `int()` refuses the text. */
  lemma PyIntOfIntToString(i: int)
    ensures PyInt(IntToString(i)) == if DigitCount(IntToString(i)) <= MaxStrDigits then Some(i) else None
  {
    var s := IntToString(i);
    ParseSignedOfIntToString(i);
    var n: nat := if i < 0 then -i else i;
    var digits := NatToString(n);
    assert s[|s| - 1] == digits[|digits| - 1];
    assert IsDigit(s[|s| - 1]) && (IsDigit(s[0]) || s[0] == '-');
    NotIntSpace(s[0]);
    NotIntSpace(s[|s| - 1]);
    PyIntOfUnpadded(s);
  }

  lemma NotIntSpace(c: char)
    requires IsDigit(c) || c == '-' || c == '+'
    ensures !IsIntSpace(c)
  {
  }

  /** The digits of `str(n)` form a digit group worth `n`. */
  lemma NatToStringGroup(n: nat)
    ensures IsDigitGroup(NatToString(n)) && GroupValue(NatToString(n)) == n
  {
    NatToStringValue(n);
  }
}
