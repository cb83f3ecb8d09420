/** String operations of Python 3 that the installer relies on: `str.replace`,
    `str.find`, `str.split`/`str.join` (as the reference for `replace`), `str.strip`,
    `str.lower`, `str(n)` for a non-negative integer and `int(s)` in base 10. */
module Text {

  datatype Option<T> = None | Some(value: T)

  // ---------------------------------------------------------------------------
  // Occurrences, find

  /** `pat` occurs in `s` starting at index `i`. */
  predicate MatchAt(s: string, pat: string, i: int)
  {
    0 <= i && i + |pat| <= |s| && s[i..i + |pat|] == pat
  }

  /** Python's `pat in s`, equivalently `s.find(pat) != -1`. */
  predicate Contains(s: string, pat: string)
  {
    exists i | 0 <= i <= |s| :: MatchAt(s, pat, i)
  }

  /** Shifting the text by one character shifts every occurrence by one. */
  lemma MatchAtTail(s: string, pat: string, i: int)
    requires |s| > 0 && i >= 1
    ensures MatchAt(s, pat, i) <==> MatchAt(s[1..], pat, i - 1)
  {
    if i + |pat| <= |s| {
      assert s[1..][i - 1..i - 1 + |pat|] == s[i..i + |pat|];
    }
  }

  /** Python's `s.find(pat)`: the first index at which `pat` occurs, or -1. */
  function Find(s: string, pat: string): (r: int)
    ensures -1 <= r <= |s|
    ensures r == -1 <==> !Contains(s, pat)
    ensures r != -1 ==> MatchAt(s, pat, r) && forall j :: 0 <= j < r ==> !MatchAt(s, pat, j)
    decreases |s|
  {
    if |pat| <= |s| && s[..|pat|] == pat then
      assert MatchAt(s, pat, 0);
      0
    else if |s| == 0 then
      assert forall i :: !MatchAt(s, pat, i);
      -1
    else
      var k := Find(s[1..], pat);
      assert !MatchAt(s, pat, 0);
      assert forall i :: i >= 1 ==> (MatchAt(s, pat, i) <==> MatchAt(s[1..], pat, i - 1)) by {
        forall i | i >= 1 ensures MatchAt(s, pat, i) <==> MatchAt(s[1..], pat, i - 1) {
          MatchAtTail(s, pat, i);
        }
      }
      if k == -1 then
        assert forall i :: 0 <= i <= |s| ==> !MatchAt(s, pat, i) by {
          forall i | 1 <= i <= |s| ensures !MatchAt(s, pat, i) {
            assert !MatchAt(s[1..], pat, i - 1);
          }
        }
        -1
      else
        assert MatchAt(s, pat, k + 1);
        k + 1
  }

  // ---------------------------------------------------------------------------
  // replace, and split/join as its reference

  /** Python's `s.replace(pat, rep)`: scan left to right, replacing every
      occurrence that does not overlap an earlier replaced one. An empty `pat`
      inserts `rep` before every character and at the end, as Python does. */
  function ReplaceAll(s: string, pat: string, rep: string): string
    decreases |s|
  {
    if |pat| == 0 then
      if |s| == 0 then rep else rep + [s[0]] + ReplaceAll(s[1..], pat, rep)
    else if |pat| <= |s| && s[..|pat|] == pat then
      rep + ReplaceAll(s[|pat|..], pat, rep)
    else if |s| == 0 then
      []
    else
      [s[0]] + ReplaceAll(s[1..], pat, rep)
  }

  /** Python's `s.split(sep)` for a non-empty separator. */
  function Split(s: string, sep: string): (parts: seq<string>)
    requires |sep| > 0
    ensures |parts| >= 1
    decreases |s|
  {
    var k := Find(s, sep);
    if k == -1 then [s] else [s[..k]] + Split(s[k + |sep|..], sep)
  }

  /** Python's `sep.join(parts)`. */
  function Join(parts: seq<string>, sep: string): string
  {
    if |parts| == 0 then []
    else if |parts| == 1 then parts[0]
    else parts[0] + sep + Join(parts[1..], sep)
  }

  /** An occurrence at the front is replaced and the scan resumes after it. */
  lemma ReplaceAllAtMatch(s: string, pat: string, rep: string)
    requires |pat| > 0 && MatchAt(s, pat, 0)
    ensures ReplaceAll(s, pat, rep) == rep + ReplaceAll(s[|pat|..], pat, rep)
  {
    assert s[..|pat|] == s[0..|pat|];
  }

  /** A front character that starts no occurrence is copied. */
  lemma ReplaceAllNoMatch(s: string, pat: string, rep: string)
    requires |pat| > 0 && |s| > 0 && !MatchAt(s, pat, 0)
    ensures ReplaceAll(s, pat, rep) == [s[0]] + ReplaceAll(s[1..], pat, rep)
  {
    assert !(|pat| <= |s| && s[..|pat|] == pat) by {
      if |pat| <= |s| {
        assert s[..|pat|] == s[0..|pat|];
      }
    }
  }

  lemma ConcatAssoc(a: string, b: string, c: string)
    ensures a + (b + c) == (a + b) + c
  {
  }

  /** An occurrence at `i` is an occurrence at the front of `s[i..]`. */
  lemma MatchAtSuffix(s: string, pat: string, i: nat)
    requires i <= |s|
    ensures MatchAt(s[i..], pat, 0) <==> MatchAt(s, pat, i)
  {
    if i + |pat| <= |s| {
      assert s[i..][0..|pat|] == s[i..i + |pat|];
    }
  }

  lemma SliceSteps(s: string, k: nat)
    requires 0 < k <= |s|
    ensures s[k - 1..][1..] == s[k..] && s[..k - 1] + [s[k - 1..][0]] == s[..k]
  {
  }

  /** Text before the first occurrence of `pat` is copied unchanged by `ReplaceAll`. */
  lemma {:induction false} ReplaceAllSkip(s: string, pat: string, rep: string, k: nat)
    requires |pat| > 0 && k <= |s|
    requires forall j :: 0 <= j < k ==> !MatchAt(s, pat, j)
    ensures ReplaceAll(s, pat, rep) == s[..k] + ReplaceAll(s[k..], pat, rep)
    decreases k
  {
    if k > 0 {
      ReplaceAllSkip(s, pat, rep, k - 1);
      var u := s[k - 1..];
      MatchAtSuffix(s, pat, k - 1);
      ReplaceAllNoMatch(u, pat, rep);
      SliceSteps(s, k);
      var r := ReplaceAll(s[k..], pat, rep);
      ConcatAssoc(s[..k - 1], [u[0]], r);
      calc {
        ReplaceAll(s, pat, rep);
        s[..k - 1] + ReplaceAll(u, pat, rep);
        s[..k - 1] + ([u[0]] + r);
        (s[..k - 1] + [u[0]]) + r;
      }
    } else {
      assert s[..0] == [] && s[0..] == s;
    }
  }

  /** `ReplaceAll` agrees with Python's documented identity
      `s.replace(p, r) == r.join(s.split(p))`. */
  lemma {:induction false} ReplaceAllIsJoinSplit(s: string, pat: string, rep: string)
    requires |pat| > 0
    ensures ReplaceAll(s, pat, rep) == Join(Split(s, pat), rep)
    decreases |s|
  {
    var k := Find(s, pat);
    if k == -1 {
      forall j | 0 <= j < |s| ensures !MatchAt(s, pat, j) { }
      ReplaceAllSkip(s, pat, rep, |s|);
      assert s[..|s|] == s;
      assert ReplaceAll(s[|s|..], pat, rep) == [];
    } else {
      ReplaceAllSkip(s, pat, rep, k);
      var rest := s[k + |pat|..];
      assert s[k..][0..|pat|] == s[k..k + |pat|];
      assert s[k..][|pat|..] == rest;
      ReplaceAllAtMatch(s[k..], pat, rep);
      ReplaceAllIsJoinSplit(rest, pat, rep);
      var tail := Split(rest, pat);
      assert Split(s, pat) == [s[..k]] + tail;
      JoinCons(s[..k], tail, rep);
    }
  }

  /** When `pat` does not occur, `ReplaceAll` changes nothing. */
  lemma ReplaceAllAbsent(s: string, pat: string, rep: string)
    requires |pat| > 0 && !Contains(s, pat)
    ensures ReplaceAll(s, pat, rep) == s
  {
    ReplaceAllIsJoinSplit(s, pat, rep);
  }

  /** `Join` of at least two parts puts the separator after the first. */
  lemma JoinCons(x: string, tail: seq<string>, sep: string)
    requires |tail| >= 1
    ensures Join([x] + tail, sep) == x + sep + Join(tail, sep)
  {
    assert ([x] + tail)[1..] == tail;
  }

  /** Cutting a sequence around a window and gluing it back gives it back. */
  lemma Reassemble(s: string, k: nat, n: nat)
    requires k + n <= |s|
    ensures s[..k] + s[k..k + n] + s[k + n..] == s
  {
  }

  /** Joining the pieces of a split restores the text: `sep.join(s.split(sep)) == s`. */
  lemma {:induction false} JoinSplit(s: string, sep: string)
    requires |sep| > 0
    ensures Join(Split(s, sep), sep) == s
    decreases |s|
  {
    var k := Find(s, sep);
    if k != -1 {
      var rest := s[k + |sep|..];
      JoinSplit(rest, sep);
      var tail := Split(rest, sep);
      JoinCons(s[..k], tail, sep);
      Reassemble(s, k, |sep|);
    }
  }

  /** No position of `s` starts an occurrence of the one-character pattern `[c]` when `c` is absent. */
  lemma NoMatchWithout(s: string, c: char, i: int)
    requires forall j :: 0 <= j < |s| ==> s[j] != c
    ensures !MatchAt(s, [c], i)
  {
    if 0 <= i < |s| {
      assert s[i..i + 1][0] == s[i];
    }
  }

  /** Splitting on a single character that no part contains undoes `Join`. */
  lemma {:induction false} SplitJoin(parts: seq<string>, c: char)
    requires |parts| >= 1
    requires forall i, j :: 0 <= i < |parts| && 0 <= j < |parts[i]| ==> parts[i][j] != c
    ensures Split(Join(parts, [c]), [c]) == parts
    decreases |parts|
  {
    var s := Join(parts, [c]);
    var p := parts[0];
    if |parts| == 1 {
      forall i ensures !MatchAt(s, [c], i) {
        NoMatchWithout(s, c, i);
      }
      assert Find(s, [c]) == -1;
    } else {
      var tail := parts[1..];
      var rest := Join(tail, [c]);
      assert [p] + tail == parts;
      JoinCons(p, tail, [c]);
      assert s == p + [c] + rest;
      forall i, j | 0 <= i < |tail| && 0 <= j < |tail[i]| ensures tail[i][j] != c {
        assert tail[i] == parts[i + 1];
      }
      forall j | 0 <= j < |p| ensures !MatchAt(s, [c], j) {
        assert s[j] == p[j];
        assert s[j..j + 1][0] == s[j];
      }
      assert MatchAt(s, [c], |p|) by { assert s[|p|..|p| + 1] == [c]; }
      assert Find(s, [c]) == |p|;
      assert s[..|p|] == p;
      assert s[|p| + 1..] == rest;
      SplitJoin(tail, c);
    }
  }

  /** Number of occurrences of character `c` in `s` (Python's `s.count(c)`). */
  function CountChar(s: string, c: char): nat
  {
    if |s| == 0 then 0 else (if s[0] == c then 1 else 0) + CountChar(s[1..], c)
  }

  lemma {:induction false} CountCharAppend(a: string, b: string, c: char)
    ensures CountChar(a + b, c) == CountChar(a, c) + CountChar(b, c)
    decreases |a|
  {
    if |a| > 0 {
      assert (a + b)[1..] == a[1..] + b;
      CountCharAppend(a[1..], b, c);
    } else {
      assert a + b == b;
    }
  }

  lemma {:induction false} CountCharAbsent(s: string, c: char)
    requires forall i :: 0 <= i < |s| ==> s[i] != c
    ensures CountChar(s, c) == 0
    decreases |s|
  {
    if |s| > 0 { CountCharAbsent(s[1..], c); }
  }

  /** Joining `n` pieces free of `c` with the separator `c` puts exactly `n - 1` copies of `c` in the text. */
  lemma {:induction false} CountCharJoin(parts: seq<string>, c: char)
    requires |parts| >= 1
    requires forall i, j :: 0 <= i < |parts| && 0 <= j < |parts[i]| ==> parts[i][j] != c
    ensures CountChar(Join(parts, [c]), c) == |parts| - 1
    decreases |parts|
  {
    CountCharAbsent(parts[0], c);
    if |parts| > 1 {
      CountCharJoin(parts[1..], c);
      CountCharAppend(parts[0], [c], c);
      CountCharAppend(parts[0] + [c], Join(parts[1..], [c]), c);
    }
  }

  // ---------------------------------------------------------------------------
  // strip, lower

  /** Python's `str.isspace` for one character. */
  predicate IsSpace(c: char)
  {
    var n := c as int;
    n == 0x20 || 0x09 <= n <= 0x0D || 0x1C <= n <= 0x1F || n == 0x85 || n == 0xA0 ||
    n == 0x1680 || 0x2000 <= n <= 0x200A || n == 0x2028 || n == 0x2029 ||
    n == 0x202F || n == 0x205F || n == 0x3000
  }

  /** The information separators U+001C to U+001F, which `str.isspace`
      counts as whitespace. */
  predicate IsSeparator(c: char)
  {
    0x1C <= c as int <= 0x1F
  }

  /** The whitespace `int()` skips: CPython turns every non-ASCII
      `str.isspace` character into a blank and copies ASCII characters as
      they are, and its parser then skips only blank, tab, newline, vertical
      tab, form feed and carriage return, so the separators never count. */
  predicate IntSpace(c: char)
  {
    IsSpace(c) && !IsSeparator(c)
  }

  /** Whitespace for a strip: `IntSpace` when `forInt`, else every `str.isspace` character. */
  predicate Blank(c: char, forInt: bool)
  {
    if forInt then IntSpace(c) else IsSpace(c)
  }

  /** The first index at or after `i` that holds no whitespace, or `|s|`. */
  function LeadingEnd(s: string, i: nat, forInt: bool): (k: nat)
    requires i <= |s|
    ensures i <= k <= |s|
    ensures forall j :: i <= j < k ==> Blank(s[j], forInt)
    ensures k < |s| ==> !Blank(s[k], forInt)
    decreases |s| - i
  {
    if i < |s| && Blank(s[i], forInt) then LeadingEnd(s, i + 1, forInt) else i
  }

  /** The index after the last non-whitespace character in `s[lo..e]`, or `lo`. */
  function TrailingStart(s: string, lo: nat, e: nat, forInt: bool): (k: nat)
    requires lo <= e <= |s|
    ensures lo <= k <= e
    ensures forall j :: k <= j < e ==> Blank(s[j], forInt)
    ensures k > lo ==> !Blank(s[k - 1], forInt)
    decreases e
  {
    if e > lo && Blank(s[e - 1], forInt) then TrailingStart(s, lo, e - 1, forInt) else e
  }

  /** The slice of `s` left after removing leading and trailing whitespace of
      the given kind; it starts and ends with a character of another kind. */
  function StripBlank(s: string, forInt: bool): (r: string)
    ensures var k := LeadingEnd(s, 0, forInt);
            k + |r| <= |s| && r == s[k..k + |r|] &&
            (forall j :: 0 <= j < k ==> Blank(s[j], forInt)) &&
            (forall j :: k + |r| <= j < |s| ==> Blank(s[j], forInt))
    ensures |r| > 0 ==> !Blank(r[0], forInt) && !Blank(r[|r| - 1], forInt)
  {
    var k := LeadingEnd(s, 0, forInt);
    var e := TrailingStart(s, k, |s|, forInt);
    assert forall j :: e <= j < |s| ==> Blank(s[j], forInt);
    s[k..e]
  }

  /** Text without whitespace of the given kind at either end is its own strip. */
  lemma StripBlankNone(s: string, forInt: bool)
    requires forall i :: 0 <= i < |s| ==> !Blank(s[i], forInt)
    ensures StripBlank(s, forInt) == s
  {
  }

  /** Python's `s.strip()`: every `str.isspace` character goes from both ends. */
  function Strip(s: string): (r: string)
    ensures var k := LeadingEnd(s, 0, false);
            k + |r| <= |s| && r == s[k..k + |r|] &&
            (forall j :: 0 <= j < k ==> IsSpace(s[j])) &&
            (forall j :: k + |r| <= j < |s| ==> IsSpace(s[j]))
    ensures |r| > 0 ==> !IsSpace(r[0]) && !IsSpace(r[|r| - 1])
  {
    StripBlank(s, false)
  }

  /** The strip inside `int(s)`: `IntSpace` goes from both ends, and the
      separators U+001C to U+001F stay and make the parse fail. */
  function IntStrip(s: string): (r: string)
    ensures var k := LeadingEnd(s, 0, true);
            k + |r| <= |s| && r == s[k..k + |r|] &&
            (forall j :: 0 <= j < k ==> IntSpace(s[j])) &&
            (forall j :: k + |r| <= j < |s| ==> IntSpace(s[j]))
    ensures |r| > 0 ==> !IntSpace(r[0]) && !IntSpace(r[|r| - 1])
  {
    StripBlank(s, true)
  }

  function LowerChar(c: char): char
  {
    if 'A' <= c <= 'Z' then (c as int + 32) as char else c
  }

  /** Python's `s.lower()` on ASCII letters; every other character is kept. */
  function Lower(s: string): (r: string)
    ensures |r| == |s| && forall i :: 0 <= i < |s| ==> r[i] == LowerChar(s[i])
  {
    seq(|s|, i requires 0 <= i < |s| => LowerChar(s[i]))
  }

  /** The confirmation prompts accept exactly `y` and `Y`. */
  lemma LowerIsY(s: string)
    ensures Lower(s) == "y" <==> s == "y" || s == "Y"
  {
    if Lower(s) == "y" {
      assert |s| == 1 && LowerChar(s[0]) == 'y';
      assert s == [s[0]];
    }
  }

  // ---------------------------------------------------------------------------
  // decimal digits: str(n) and int(s)

  predicate IsDigit(c: char)
  {
    '0' <= c <= '9'
  }

  predicate AllDigits(s: string)
  {
    forall i :: 0 <= i < |s| ==> IsDigit(s[i])
  }

  function DigitChar(d: nat): (c: char)
    requires d < 10
    ensures IsDigit(c) && c as int - '0' as int == d
  {
    ('0' as int + d) as char
  }

  /** The value of a string of decimal digits, most significant first. */
  function DigitsValue(s: string): nat
    requires AllDigits(s)
  {
    if |s| == 0 then 0 else DigitsValue(s[..|s| - 1]) * 10 + (s[|s| - 1] as int - '0' as int)
  }

  /** Python's `str(n)` for a non-negative integer: canonical decimal digits. */
  function NatToDecimal(n: nat): (r: string)
    ensures |r| >= 1 && AllDigits(r)
    ensures |r| > 1 ==> r[0] != '0'
    ensures DigitsValue(r) == n
  {
    if n < 10 then [DigitChar(n)]
    else
      var r := NatToDecimal(n / 10) + [DigitChar(n % 10)];
      assert r[..|r| - 1] == NatToDecimal(n / 10);
      r
  }

  /** Digits in canonical form (no leading zero) are `str` of their value. */
  lemma {:induction false} CanonicalDigits(s: string)
    requires |s| >= 1 && AllDigits(s) && (|s| > 1 ==> s[0] != '0')
    ensures NatToDecimal(DigitsValue(s)) == s
    decreases |s|
  {
    var n := DigitsValue(s);
    if |s| == 1 {
      assert s[..0] == [];
      assert DigitsValue(s[..0]) == 0;
      assert n == s[0] as int - '0' as int;
      assert [DigitChar(n)] == s;
    } else {
      var init := s[..|s| - 1];
      var d := s[|s| - 1] as int - '0' as int;
      assert init[0] == s[0];
      if |init| > 1 {
        CanonicalDigits(init);
      } else {
        CanonicalDigits(init);
      }
      assert DigitsValue(init) >= 1 by {
        LeadingDigitPositive(init);
      }
      assert n / 10 == DigitsValue(init) && n % 10 == d;
      assert s == init + [DigitChar(d)];
    }
  }

  /** A canonical digit string other than "0" has a positive value. */
  lemma {:induction false} LeadingDigitPositive(s: string)
    requires |s| >= 1 && AllDigits(s) && s[0] != '0'
    ensures DigitsValue(s) >= 1
    decreases |s|
  {
    if |s| > 1 {
      assert s[..|s| - 1][0] == s[0];
      LeadingDigitPositive(s[..|s| - 1]);
    }
  }

  /** The body of a base-10 literal accepted by Python's `int()`: digits with
      single underscores allowed between them. */
  predicate DigitGroups(s: string)
  {
    |s| >= 1 && IsDigit(s[0]) && IsDigit(s[|s| - 1]) &&
    (forall i :: 0 <= i < |s| ==> IsDigit(s[i]) || s[i] == '_') &&
    (forall i :: 0 <= i < |s| - 1 ==> !(s[i] == '_' && s[i + 1] == '_'))
  }

  function DropUnderscores(s: string): (r: string)
    requires forall i :: 0 <= i < |s| ==> IsDigit(s[i]) || s[i] == '_'
    ensures AllDigits(r) && |r| <= |s|
  {
    if |s| == 0 then []
    else if s[0] == '_' then DropUnderscores(s[1..])
    else [s[0]] + DropUnderscores(s[1..])
  }

  lemma {:induction false} DropUnderscoresNone(s: string)
    requires AllDigits(s)
    ensures DropUnderscores(s) == s
    decreases |s|
  {
    if |s| > 0 { DropUnderscoresNone(s[1..]); }
  }

  /** Python's `int(s)` in base 10: surrounding whitespace as `IntStrip`
      removes it, an optional sign and ASCII digit groups; anything else is a
      `ValueError` (None). */
  function ParseInt(s: string): Option<int>
  {
    var t := IntStrip(s);
    if |t| == 0 then None
    else
      var neg := t[0] == '-';
      var body := if t[0] == '-' || t[0] == '+' then t[1..] else t;
      if DigitGroups(body) then
        var v: int := DigitsValue(DropUnderscores(body));
        Some(if neg then -v else v)
      else None
  }

  /** `int(str(n)) == n`: the decimal rendering parses back to the number. */
  lemma ParseIntNatToDecimal(n: nat)
    ensures ParseInt(NatToDecimal(n)) == Some(n)
  {
    var s := NatToDecimal(n);
    forall i | 0 <= i < |s| ensures !Blank(s[i], true) { assert IsDigit(s[i]); }
    StripBlankNone(s, true);
    assert s[0] != '-' && s[0] != '+' by { assert IsDigit(s[0]); }
    assert DigitGroups(s);
    DropUnderscoresNone(s);
  }

  /** A successful parse came from text whose stripped form is made of an optional sign and digits. */
  lemma ParseIntShape(s: string)
    requires ParseInt(s).Some?
    ensures var t := IntStrip(s);
            |t| >= 1 && (IsDigit(t[0]) || t[0] == '-' || t[0] == '+') &&
            forall i :: 1 <= i < |t| ==> IsDigit(t[i]) || t[i] == '_'
  {
    var t := IntStrip(s);
    if t[0] == '-' || t[0] == '+' {
      var body := t[1..];
      assert DigitGroups(body);
      forall i | 1 <= i < |t| ensures IsDigit(t[i]) || t[i] == '_' {
        assert t[i] == body[i - 1];
      }
    } else {
      assert DigitGroups(t);
    }
  }

  /** Text that starts or ends with one of the separators U+001C to U+001F
      is a `ValueError`, though `str.isspace` counts them as whitespace. */
  lemma ParseIntRejectsSeparators(s: string)
    requires |s| > 0 && (IsSeparator(s[0]) || IsSeparator(s[|s| - 1]))
    ensures ParseInt(s) == None
  {
    IntStripKeepsSeparator(s);
    ParseIntNoSeparator(s);
  }

  /** A separator at either end survives the strip at that end. */
  lemma IntStripKeepsSeparator(s: string)
    requires |s| > 0 && (IsSeparator(s[0]) || IsSeparator(s[|s| - 1]))
    ensures var t := IntStrip(s);
            |t| > 0 && (IsSeparator(t[0]) || IsSeparator(t[|t| - 1]))
  {
    var t := IntStrip(s);
    var k := LeadingEnd(s, 0, true);
    if IsSeparator(s[0]) {
      assert k == 0;
      assert t[0] == s[0];
    } else {
      assert k <= |s| - 1;
      assert k + |t| == |s|;
      assert t[|t| - 1] == s[|s| - 1];
    }
  }

  /** Text that parses holds no separator after the strip. */
  lemma ParseIntNoSeparator(s: string)
    ensures var t := IntStrip(s);
            ParseInt(s).Some? ==> forall i :: 0 <= i < |t| ==> !IsSeparator(t[i])
  {
    if ParseInt(s).Some? {
      ParseIntShape(s);
    }
  }
}
