/**
 * The Python string built-ins the sandbox relies on, written out over
 * `seq<char>`: `str.strip()`, `str.splitlines()`, `"\n".join(...)`,
 * `str.find`, the code-point ordering that `sorted` uses on `str`,
 * `int(str)` and `str(int)`.
 */
module Text {
  import opened Wrappers

  // ---------------------------------------------------------------------------
  // Whitespace and line boundaries
  // ---------------------------------------------------------------------------

  /** Python's `str.isspace()` for one character: the characters `strip()` removes. */
  predicate IsSpace(c: char) {
    c == ' ' || c == '\t' || c == '\n' || c == '\r' || c == '\U{B}' || c == '\U{C}'
    || c == '\U{1C}' || c == '\U{1D}' || c == '\U{1E}' || c == '\U{1F}'
    || c == '\U{85}' || c == '\U{A0}' || c == '\U{1680}'
    || ('\U{2000}' <= c <= '\U{200A}')
    || c == '\U{2028}' || c == '\U{2029}' || c == '\U{202F}' || c == '\U{205F}' || c == '\U{3000}'
  }

  /** The characters at which `str.splitlines()` ends a line (`\r\n` counts once). */
  predicate IsLineBreak(c: char) {
    c == '\n' || c == '\r' || c == '\U{B}' || c == '\U{C}'
    || c == '\U{1C}' || c == '\U{1D}' || c == '\U{1E}'
    || c == '\U{85}' || c == '\U{2028}' || c == '\U{2029}'
  }

  predicate AllSpace(s: string) {
    forall k :: 0 <= k < |s| ==> IsSpace(s[k])
  }

  /** The ASCII information separators U+001C to U+001F. `str.isspace()`
      counts them, but `int()` skips only the ASCII whitespace of C's
      `isspace`, so they make `int()` fail wherever they stand. */
  predicate IsSeparator(c: char) {
    '\U{1C}' <= c <= '\U{1F}'
  }

  predicate NoSeparators(s: string) {
    forall k :: 0 <= k < |s| ==> !IsSeparator(s[k])
  }

  /** The whitespace `int()` skips around a number. */
  predicate AllIntSpace(s: string) {
    forall k :: 0 <= k < |s| ==> IsSpace(s[k]) && !IsSeparator(s[k])
  }

  predicate NoBreaks(s: string) {
    forall k :: 0 <= k < |s| ==> !IsLineBreak(s[k])
  }

  /** Python's truth value of an optional string: present and not empty. */
  predicate Given(s: Option<string>) {
    s.Some? && s.value != ""
  }

  /** Neither end of `s` is whitespace: `strip()` leaves `s` as it is. */
  predicate Trimmed(s: string) {
    s == [] || (!IsSpace(s[0]) && !IsSpace(s[|s| - 1]))
  }

  // ---------------------------------------------------------------------------
  // str.strip()
  // ---------------------------------------------------------------------------

  /** The first index at or after `i` whose character is not whitespace, or `|s|`. */
  function SkipSpaces(s: string, i: nat): (j: nat)
    requires i <= |s|
    ensures i <= j <= |s|
    ensures forall k :: i <= k < j ==> IsSpace(s[k])
    ensures j < |s| ==> !IsSpace(s[j])
    decreases |s| - i
  {
    if i < |s| && IsSpace(s[i]) then SkipSpaces(s, i + 1) else i
  }

  /** The end, at or before `j` and not before `lo`, of the text before the
      whitespace that ends `s[..j]`. */
  function SkipSpacesBack(s: string, lo: nat, j: nat): (e: nat)
    requires lo <= j <= |s|
    ensures lo <= e <= j
    ensures forall k :: e <= k < j ==> IsSpace(s[k])
    ensures e > lo ==> !IsSpace(s[e - 1])
    decreases j
  {
    if j > lo && IsSpace(s[j - 1]) then SkipSpacesBack(s, lo, j - 1) else j
  }

  /** `s.strip()`: `s` without its leading and trailing whitespace. */
  function Strip(s: string): (r: string)
    ensures Trimmed(r)
  {
    var i := SkipSpaces(s, 0);
    s[i..SkipSpacesBack(s, i, |s|)]
  }

  /** `strip()` removes whitespace at both ends and nothing else. */
  lemma StripRemovesOnlySpace(s: string)
    ensures exists a, b :: s == a + Strip(s) + b && AllSpace(a) && AllSpace(b)
  {
    var i := SkipSpaces(s, 0);
    var j := SkipSpacesBack(s, i, |s|);
    SpacesAround(s, i, j);
  }

  lemma SpacesAround(s: string, i: nat, j: nat)
    requires i <= j <= |s|
    requires forall k :: 0 <= k < i ==> IsSpace(s[k])
    requires forall k :: j <= k < |s| ==> IsSpace(s[k])
    ensures s == s[..i] + s[i..j] + s[j..] && AllSpace(s[..i]) && AllSpace(s[j..])
  {
    assert forall k :: 0 <= k < |s| - j ==> s[j..][k] == s[j + k];
  }

  /** Every character `strip()` keeps comes from its argument. */
  lemma StripKeeps(s: string, c: char)
    requires c in Strip(s)
    ensures c in s
  {
    var i := SkipSpaces(s, 0);
    var r := Strip(s);
    var k :| 0 <= k < |r| && r[k] == c;
    assert s[i + k] == c;
  }

  /** `strip()` changes nothing exactly when neither end is whitespace. */
  lemma StripFixesTrimmed(s: string)
    ensures Strip(s) == s <==> Trimmed(s)
  {
    if Trimmed(s) && s != [] {
      assert SkipSpaces(s, 0) == 0;
      assert SkipSpacesBack(s, 0, |s|) == |s|;
    }
  }

  /** When `s` does not start with whitespace, neither does `strip()` move its
      first character. */
  lemma StripKeepsFirst(s: string)
    requires s != [] && !IsSpace(s[0])
    ensures Strip(s) != [] && Strip(s)[0] == s[0]
  {
    assert SkipSpaces(s, 0) == 0;
    assert SkipSpacesBack(s, 0, |s|) > 0;
  }

  // ---------------------------------------------------------------------------
  // str.find, str.splitlines(), "\n".join
  // ---------------------------------------------------------------------------

  /** The first index at or after `i` holding `c`, or `|s|`. */
  function IndexFrom(s: string, c: char, i: nat): (j: nat)
    requires i <= |s|
    ensures i <= j <= |s|
    ensures forall k :: i <= k < j ==> s[k] != c
    ensures j < |s| ==> s[j] == c
    decreases |s| - i
  {
    if i == |s| || s[i] == c then i else IndexFrom(s, c, i + 1)
  }

  /** `s.find(c)`, with `|s|` where Python gives -1: the index of the first `c`. */
  function IndexOf(s: string, c: char): (i: nat)
    ensures i <= |s|
    ensures forall k :: 0 <= k < i ==> s[k] != c
    ensures i < |s| ==> s[i] == c
  {
    IndexFrom(s, c, 0)
  }

  /** The first `c` after a prefix free of `c` is right after that prefix. */
  lemma IndexOfAfter(p: string, c: char, rest: string)
    requires c !in p
    ensures IndexOf(p + [c] + rest, c) == |p|
  {
    var s := p + [c] + rest;
    assert s[|p|] == c;
    assert forall k :: 0 <= k < |p| ==> s[k] == p[k];
  }

  /** The first index at or after `i` holding a line boundary, or `|s|`. */
  function BreakFrom(s: string, i: nat): (j: nat)
    requires i <= |s|
    ensures i <= j <= |s|
    ensures forall k :: i <= k < j ==> !IsLineBreak(s[k])
    ensures j < |s| ==> IsLineBreak(s[j])
    decreases |s| - i
  {
    if i == |s| || IsLineBreak(s[i]) then i else BreakFrom(s, i + 1)
  }

  /** Index of the first line boundary in `s`, or `|s|`. */
  function FirstBreak(s: string): (i: nat)
    ensures i <= |s|
    ensures forall k :: 0 <= k < i ==> !IsLineBreak(s[k])
    ensures i < |s| ==> IsLineBreak(s[i])
  {
    BreakFrom(s, 0)
  }

  /** `s.splitlines()`: the lines of `s`, without their terminators and with
      no empty line after a final terminator. */
  function SplitLines(s: string): (r: seq<string>)
    ensures forall k :: 0 <= k < |r| ==> NoBreaks(r[k])
    ensures s == [] <==> r == []
    decreases |s|
  {
    if s == [] then []
    else
      var i := FirstBreak(s);
      if i == |s| then
        assert s[..i] == s;
        [s]
      else
        var width := if s[i] == '\r' && i + 1 < |s| && s[i + 1] == '\n' then 2 else 1;
        [s[..i]] + SplitLines(s[i + width..])
  }

  /** `sep.join(parts)`. */
  function Join(parts: seq<string>, sep: string): string {
    if parts == [] then []
    else if |parts| == 1 then parts[0]
    else parts[0] + sep + Join(parts[1..], sep)
  }

  /** The first break of `s` is at `i` when `s[..i]` holds none and `s[i]` is one. */
  lemma FirstBreakAt(s: string, i: nat)
    requires i < |s| && NoBreaks(s[..i]) && IsLineBreak(s[i])
    ensures FirstBreak(s) == i
  {
    assert forall k :: 0 <= k < i ==> s[k] == s[..i][k];
  }

  /** A line free of boundaries, then `\n`, then the rest: `splitlines()`
      yields that line and then the lines of the rest. */
  lemma SplitLinesAt(s: string, i: nat)
    requires i < |s| && NoBreaks(s[..i]) && s[i] == '\n'
    ensures SplitLines(s) == [s[..i]] + SplitLines(s[i + 1..])
  {
    FirstBreakAt(s, i);
  }

  /** Lines joined by `\n`, plus the final `\n`: the first line, `\n`, and
      the same text for the remaining lines. */
  lemma JoinedLinesStep(parts: seq<string>)
    requires parts != []
    ensures var s := Join(parts, "\n") + "\n";
            var rest := if |parts| == 1 then [] else Join(parts[1..], "\n") + "\n";
            |parts[0]| < |s| && s[..|parts[0]|] == parts[0] && s[|parts[0]|] == '\n'
            && s[|parts[0]| + 1..] == rest
  {
    var p := parts[0];
    var rest := if |parts| == 1 then [] else Join(parts[1..], "\n") + "\n";
    assert Join(parts, "\n") + "\n" == p + ("\n" + rest);
    LineThenRest(p, rest);
  }

  lemma LineThenRest(p: string, rest: string)
    ensures var s := p + ("\n" + rest);
            |p| < |s| && s[..|p|] == p && s[|p|] == '\n' && s[|p| + 1..] == rest
  {
  }

  /** Lines joined by `\n` with one trailing `\n` split back into the same lines,
      provided no line holds a line boundary of its own. */
  lemma {:induction false} SplitJoinedLines(parts: seq<string>)
    requires parts != []
    requires forall k :: 0 <= k < |parts| ==> NoBreaks(parts[k])
    ensures SplitLines(Join(parts, "\n") + "\n") == parts
  {
    var s := Join(parts, "\n") + "\n";
    var p := parts[0];
    JoinedLinesStep(parts);
    SplitLinesAt(s, |p|);
    if |parts| > 1 {
      SplitJoinedLines(parts[1..]);
    } else {
      assert s[|p| + 1..] == [];
    }
  }

  // ---------------------------------------------------------------------------
  // Code-point ordering of str (what sorted() uses)
  // ---------------------------------------------------------------------------

  /** Python's `a < b` on `str`: lexicographic by code point, a proper prefix first. */
  predicate Below(a: string, b: string) {
    if a == [] then b != []
    else b != [] && (a[0] < b[0] || (a[0] == b[0] && Below(a[1..], b[1..])))
  }

  lemma {:induction false} BelowIrreflexive(a: string)
    ensures !Below(a, a)
  {
    if a != [] { BelowIrreflexive(a[1..]); }
  }

  lemma {:induction false} BelowTransitive(a: string, b: string, c: string)
    requires Below(a, b) && Below(b, c)
    ensures Below(a, c)
  {
    if a != [] && a[0] == b[0] && b[0] == c[0] {
      BelowTransitive(a[1..], b[1..], c[1..]);
    }
  }

  lemma {:induction false} BelowTotal(a: string, b: string)
    ensures a == b || Below(a, b) || Below(b, a)
  {
    if a != [] && b != [] && a[0] == b[0] {
      BelowTotal(a[1..], b[1..]);
      if a[1..] == b[1..] {
        assert a == [a[0]] + a[1..] && b == [b[0]] + b[1..];
      }
    }
  }

  lemma {:induction false} BelowAsymmetric(a: string, b: string)
    ensures !(Below(a, b) && Below(b, a))
  {
    if Below(a, b) && Below(b, a) {
      BelowTransitive(a, b, a);
      BelowIrreflexive(a);
    }
  }

  lemma BelowIsStrictOrder()
    ensures forall a, b :: !(Below(a, b) && Below(b, a))
  {
    forall a, b ensures !(Below(a, b) && Below(b, a)) { BelowAsymmetric(a, b); }
  }

  predicate IsLeast(m: string, s: set<string>) {
    m in s && forall x :: x in s && x != m ==> Below(m, x)
  }

  lemma {:induction false} LeastExists(s: set<string>)
    requires s != {}
    ensures exists m :: IsLeast(m, s)
    decreases s
  {
    var x :| x in s;
    if s != {x} {
      LeastExists(s - {x});
      var m :| IsLeast(m, s - {x});
      BelowTotal(x, m);
      if Below(x, m) {
        forall y | y in s && y != x ensures Below(x, y) {
          if y != m { BelowTransitive(x, m, y); }
        }
        assert IsLeast(x, s);
      } else {
        assert IsLeast(m, s);
      }
    } else {
      assert IsLeast(x, s);
    }
  }

  /** The least string of a non-empty set. */
  function Least(s: set<string>): (m: string)
    requires s != {}
    ensures m in s && forall x :: x in s && x != m ==> Below(m, x)
  {
    LeastExists(s);
    BelowIsStrictOrder();
    var m :| IsLeast(m, s); m
  }

  /** The least element of `s` followed by the rest in ascending order is
      all of `s` in ascending order. */
  lemma SortedCons(m: string, rest: seq<string>, s: set<string>)
    requires IsLeast(m, s)
    requires forall x :: x in rest <==> x in s - {m}
    requires forall i, j :: 0 <= i < j < |rest| ==> Below(rest[i], rest[j])
    ensures forall x :: x in [m] + rest <==> x in s
    ensures forall i, j :: 0 <= i < j < |[m] + rest| ==> Below(([m] + rest)[i], ([m] + rest)[j])
  {
    var r := [m] + rest;
    forall i, j | 0 <= i < j < |r| ensures Below(r[i], r[j]) {
      if i == 0 {
        assert r[j] == rest[j - 1] && r[j] in s - {m};
      } else {
        assert r[i] == rest[i - 1] && r[j] == rest[j - 1];
      }
    }
  }

  /** `sorted(s)`: the elements of `s`, each once, in ascending order. */
  function SortedKeys(s: set<string>): (r: seq<string>)
    ensures |r| == |s|
    ensures forall x :: x in r <==> x in s
    ensures forall i, j :: 0 <= i < j < |r| ==> Below(r[i], r[j])
    decreases s
  {
    if s == {} then []
    else
      var m := Least(s);
      var rest := SortedKeys(s - {m});
      SortedCons(m, rest, s);
      [m] + rest
  }

  // ---------------------------------------------------------------------------
  // str(int) and int(str)
  // ---------------------------------------------------------------------------

  predicate IsDigit(c: char) { '0' <= c <= '9' }

  function DigitChar(d: nat): (c: char)
    requires d < 10
    ensures IsDigit(c)
  {
    (('0' as int) + d) as char
  }

  function DigitValue(c: char): (d: nat)
    requires IsDigit(c)
    ensures d < 10
  {
    (c as int) - ('0' as int)
  }

  /** Decimal digits of `n`, most significant first, no leading zeros. */
  function NatToString(n: nat): (s: string)
    ensures s != [] && forall k :: 0 <= k < |s| ==> IsDigit(s[k])
  {
    if n < 10 then [DigitChar(n)] else NatToString(n / 10) + [DigitChar(n % 10)]
  }

  /** `str(n)` for a Python int. */
  function IntToString(n: int): string {
    if n < 0 then "-" + NatToString(-n) else NatToString(n)
  }

  /** Value of a string of decimal digits. */
  function DigitsValue(s: string): nat
    requires forall k :: 0 <= k < |s| ==> IsDigit(s[k])
  {
    if s == [] then 0 else DigitsValue(s[..|s| - 1]) * 10 + DigitValue(s[|s| - 1])
  }

  /** Digits, optionally grouped by single underscores, as `int()` accepts them. */
  predicate DigitGroups(s: string) {
    && s != []
    && IsDigit(s[0]) && IsDigit(s[|s| - 1])
    && (forall k :: 0 <= k < |s| ==> IsDigit(s[k]) || s[k] == '_')
    && (forall k :: 0 <= k < |s| - 1 ==> !(s[k] == '_' && s[k + 1] == '_'))
  }

  function RemoveUnderscores(s: string): (r: string)
    requires forall k :: 0 <= k < |s| ==> IsDigit(s[k]) || s[k] == '_'
    ensures forall k :: 0 <= k < |r| ==> IsDigit(r[k])
  {
    if s == [] then []
    else if s[0] == '_' then RemoveUnderscores(s[1..])
    else [s[0]] + RemoveUnderscores(s[1..])
  }

  /** CPython's default `sys.int_max_str_digits`: `int()` refuses a decimal
      string of more digits, and `str()` an int of more digits. */
  const MaxStrDigits := 4300

  function ParseUnsigned(s: string): Option<nat> {
    if DigitGroups(s) && |RemoveUnderscores(s)| <= MaxStrDigits then Some(DigitsValue(RemoveUnderscores(s))) else None
  }

  /** `int(s)` in base 10: surrounding whitespace, an optional sign, then
      digits with single underscores allowed between them, at most
      `MaxStrDigits` of them; `None` where Python raises `ValueError`. */
  function ParseInt(s: string): Option<int> {
    if !NoSeparators(s) then None
    else
    var t := Strip(s);
    if t != [] && (t[0] == '+' || t[0] == '-') then
      match ParseUnsigned(t[1..])
      case None => None
      case Some(n) => Some(if t[0] == '-' then -(n as int) else n as int)
    else
      match ParseUnsigned(t)
      case None => None
      case Some(n) => Some(n)
  }

  lemma {:induction false} DigitsValueOfNat(n: nat)
    ensures DigitsValue(NatToString(n)) == n
  {
    if n >= 10 {
      var s := NatToString(n);
      assert s[..|s| - 1] == NatToString(n / 10);
      DigitsValueOfNat(n / 10);
    }
  }

  lemma {:induction false} NoUnderscores(s: string)
    requires forall k :: 0 <= k < |s| ==> IsDigit(s[k])
    ensures RemoveUnderscores(s) == s
  {
    if s != [] { NoUnderscores(s[1..]); }
  }

  lemma IntToStringTrimmed(n: int)
    ensures Trimmed(IntToString(n))
  {
    var s := IntToString(n);
    assert s[0] == '-' || IsDigit(s[0]);
    assert IsDigit(s[|s| - 1]);
  }

  /** Whether `str(n)` stays within the digit limit instead of raising. */
  predicate StrFits(n: int) {
    |NatToString(if n < 0 then -n else n)| <= MaxStrDigits
  }

  lemma ParseUnsignedOfNatToString(n: nat)
    requires StrFits(n)
    ensures ParseUnsigned(NatToString(n)) == Some(n)
  {
    NoUnderscores(NatToString(n));
    DigitsValueOfNat(n);
  }

  lemma IntToStringNoSeparators(n: int)
    ensures NoSeparators(IntToString(n))
  {
    var s := IntToString(n);
    assert forall k :: 0 <= k < |s| ==> s[k] == '-' || IsDigit(s[k]);
  }

  lemma SignedTail(d: string)
    ensures ("-" + d)[0] == '-' && ("-" + d)[1..] == d
  {
  }

  /** `int(str(n)) == n`: what `str` prints, `int` reads back. */
  lemma ParseIntOfIntToString(n: int)
    requires StrFits(n)
    ensures ParseInt(IntToString(n)) == Some(n)
  {
    var s := IntToString(n);
    IntToStringTrimmed(n);
    IntToStringNoSeparators(n);
    StripFixesTrimmed(s);
    if n < 0 {
      ParseUnsignedOfNatToString(-n);
      SignedTail(NatToString(-n));
    } else {
      ParseUnsignedOfNatToString(n);
      assert IsDigit(s[0]);
    }
  }

  /** A run of more than `MaxStrDigits` digits does not parse, whatever its
      value. */
  lemma TooManyDigits(s: string)
    requires forall k :: 0 <= k < |s| ==> IsDigit(s[k])
    requires |s| > MaxStrDigits
    ensures ParseInt(s) == None
  {
    NoUnderscores(s);
    assert !IsSpace(s[0]) && !IsSpace(s[|s| - 1]);
    StripFixesTrimmed(s);
    assert Strip(s) == s;
    assert s[0] != '+' && s[0] != '-';
    assert ParseUnsigned(s) == None;
  }

  /** What `int()` skips around the number is whitespace other than the
      information separators, and nothing else. */
  lemma ParseIntSurroundings(s: string)
    requires ParseInt(s).Some?
    ensures exists a, b :: s == a + Strip(s) + b && AllIntSpace(a) && AllIntSpace(b)
  {
    var i := SkipSpaces(s, 0);
    var j := SkipSpacesBack(s, i, |s|);
    IntSpacesAround(s, i, j);
  }

  lemma IntSpacesAround(s: string, i: nat, j: nat)
    requires i <= j <= |s| && NoSeparators(s)
    requires forall k :: 0 <= k < i ==> IsSpace(s[k])
    requires forall k :: j <= k < |s| ==> IsSpace(s[k])
    ensures s == s[..i] + s[i..j] + s[j..] && AllIntSpace(s[..i]) && AllIntSpace(s[j..])
  {
    assert forall k :: 0 <= k < |s| - j ==> s[j..][k] == s[j + k];
  }

  /** A port given as an information separator followed by digits does not
      parse, although `strip()` would remove the separator. */
  lemma SeparatorRejected()
    ensures Strip("\U{1F}2222") == "2222"
    ensures ParseInt("\U{1F}2222") == None
  {
    assert !IsSpace('2');
    StripFixesTrimmed("2222");
    assert SkipSpaces("\U{1F}2222", 0) == 1;
    assert "\U{1F}2222"[1..] == "2222";
  }
}
