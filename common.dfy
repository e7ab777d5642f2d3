/**
 * Shared vocabulary for the whole model: Option, the string operations
 * the Python code relies on (str.strip, str.lower, str.zfill,
 * str.split, "sep".join, the `in` substring test), decimal integers as
 * `int()` and `str()` treat them, and a sorted-unique operation over strings
 * (Python's `sorted(set(...))` on `str`, which orders by code point).
 */
module Common {

  datatype Option<T> = None | Some(value: T)

  // ---------------------------------------------------------------------
  // Characters
  // ---------------------------------------------------------------------

  predicate IsDigit(c: char) { '0' <= c <= '9' }

  /** The characters Python's `str.isspace()` accepts, which `str.strip()` and the regex `\s` remove. */
  predicate IsSpace(c: char)
  {
    '\t' <= c <= '\r' || '\U{001C}' <= c <= ' ' || c == '\U{0085}' || c == '\U{00A0}' || c == '\U{1680}'
    || '\U{2000}' <= c <= '\U{200A}' || c == '\U{2028}' || c == '\U{2029}' || c == '\U{202F}'
    || c == '\U{205F}' || c == '\U{3000}'
  }

  /**
   * `str.lower()` on one character, for the Latin letters of Unicode's
   * Basic Latin, Latin-1 Supplement and Latin Extended-A blocks (and
   * U+0191): capitals of the Latin-1 block sit 32 below their small
   * letters, those of Latin Extended-A pair with the next code point.
   */
  function LowerChar(c: char): (r: char)
    ensures 'A' <= c <= 'Z' ==> r == (c as int + 32) as char
    ensures c < '\U{0080}' && !('A' <= c <= 'Z') ==> r == c
  {
    if 'A' <= c <= 'Z' || ('\U{00C0}' <= c <= '\U{00DE}' && c != '\U{00D7}') then (c as int + 32) as char
    else if c == '\U{0178}' then '\U{00FF}'
    else if c == '\U{0191}' then '\U{0192}'
    else if ('\U{0100}' <= c <= '\U{0137}' || '\U{014A}' <= c <= '\U{0177}') && c as int % 2 == 0 && c != '\U{0130}' then (c as int + 1) as char
    else if ('\U{0139}' <= c <= '\U{0148}' || '\U{0179}' <= c <= '\U{017E}') && c as int % 2 == 1 then (c as int + 1) as char
    else c
  }

  /** `str.upper()` on one character, over the same letters as `LowerChar`, plus U+00B5, U+0131 and U+017F. */
  function UpperChar(c: char): (r: char)
    ensures 'a' <= c <= 'z' ==> r == (c as int - 32) as char
    ensures c < '\U{0080}' && !('a' <= c <= 'z') ==> r == c
  {
    if 'a' <= c <= 'z' || ('\U{00E0}' <= c <= '\U{00FE}' && c != '\U{00F7}') then (c as int - 32) as char
    else if c == '\U{00FF}' then '\U{0178}'
    else if c == '\U{00B5}' then '\U{039C}'
    else if c == '\U{0131}' then 'I'
    else if c == '\U{017F}' then 'S'
    else if c == '\U{0192}' then '\U{0191}'
    else if ('\U{0100}' <= c <= '\U{0137}' || '\U{014A}' <= c <= '\U{0177}') && c as int % 2 == 1 then (c as int - 1) as char
    else if ('\U{0139}' <= c <= '\U{0148}' || '\U{0179}' <= c <= '\U{017E}') && c as int % 2 == 0 then (c as int - 1) as char
    else c
  }

  lemma LowerCharIdempotent(c: char)
    ensures LowerChar(LowerChar(c)) == LowerChar(c)
  {
  }

  /** Lower-casing a capital gives the lower case of the letter, but for U+00B5, U+0131 and U+017F. */
  lemma LowerUpperChar(c: char)
    requires c != '\U{00B5}' && c != '\U{0131}' && c != '\U{017F}'
    ensures LowerChar(UpperChar(c)) == LowerChar(c)
  {
  }

  function Lower(s: string): (r: string)
    ensures |r| == |s|
    ensures forall i :: 0 <= i < |s| ==> r[i] == LowerChar(s[i])
  {
    if |s| == 0 then "" else [LowerChar(s[0])] + Lower(s[1..])
  }

  /** A text of small ASCII letters is its own lower case. */
  lemma LowerOfSmall(s: string)
    requires forall i :: 0 <= i < |s| ==> 'a' <= s[i] <= 'z'
    ensures Lower(s) == s
  {
  }

  function Upper(s: string): (r: string)
    ensures |r| == |s|
    ensures forall i :: 0 <= i < |s| ==> r[i] == UpperChar(s[i])
  {
    if |s| == 0 then "" else [UpperChar(s[0])] + Upper(s[1..])
  }

  predicate AllDigits(s: string) { forall i :: 0 <= i < |s| ==> IsDigit(s[i]) }

  /** `re.sub(r"\D", "", s)`: the digits of `s`, in order. */
  function Digits(s: string): (r: string)
    ensures AllDigits(r) && |r| <= |s|
  {
    if |s| == 0 then ""
    else if IsDigit(s[0]) then [s[0]] + Digits(s[1..])
    else Digits(s[1..])
  }

  lemma {:induction false} DigitsOfDigits(s: string)
    requires AllDigits(s)
    ensures Digits(s) == s
  {
    if |s| > 0 { DigitsOfDigits(s[1..]); }
  }

  lemma {:induction false} DigitsEmpty(s: string)
    ensures Digits(s) == "" <==> forall i :: 0 <= i < |s| ==> !IsDigit(s[i])
  {
    if |s| > 0 {
      DigitsEmpty(s[1..]);
      assert forall i :: 1 <= i < |s| ==> s[i] == s[1..][i - 1];
    }
  }

  function Repeat(c: char, n: nat): (r: string)
    ensures |r| == n && forall i :: 0 <= i < n ==> r[i] == c
  {
    if n == 0 then "" else [c] + Repeat(c, n - 1)
  }

  /** `s.zfill(w)`: zeros inserted after an optional leading sign up to width `w`. */
  function ZFill(s: string, w: int): (r: string)
    ensures |r| == if w > |s| then w else |s|
  {
    if w <= |s| then s
    else if |s| > 0 && (s[0] == '-' || s[0] == '+') then [s[0]] + Repeat('0', w - |s|) + s[1..]
    else Repeat('0', w - |s|) + s
  }

  // ---------------------------------------------------------------------
  // Prefixes, substrings, strip
  // ---------------------------------------------------------------------

  predicate StartsWith(s: string, p: string) { |p| <= |s| && s[..|p|] == p }

  predicate EndsWith(s: string, p: string) { |p| <= |s| && s[|s| - |p|..] == p }

  /** Python's `sub in s`. */
  predicate Contains(s: string, sub: string)
  {
    StartsWith(s, sub) || (|s| > 0 && Contains(s[1..], sub))
  }

  lemma {:induction false} ContainsAt(s: string, sub: string, k: nat)
    requires k + |sub| <= |s| && s[k..k + |sub|] == sub
    ensures Contains(s, sub)
  {
    if k > 0 {
      assert s[1..][k - 1..k - 1 + |sub|] == s[k..k + |sub|];
      ContainsAt(s[1..], sub, k - 1);
    }
  }

  function StripLeft(s: string): (r: string)
    ensures |r| <= |s| && r == s[|s| - |r|..]
    ensures |r| == 0 || !IsSpace(r[0])
    ensures forall i :: 0 <= i < |s| - |r| ==> IsSpace(s[i])
  {
    if |s| > 0 && IsSpace(s[0]) then
      var r := StripLeft(s[1..]);
      assert forall i :: 1 <= i < |s| - |r| ==> s[i] == s[1..][i - 1];
      r
    else s
  }

  function StripRight(s: string): (r: string)
    ensures |r| <= |s| && r == s[..|r|]
    ensures |r| == 0 || !IsSpace(r[|r| - 1])
    ensures forall i :: |r| <= i < |s| ==> IsSpace(s[i])
  {
    if |s| > 0 && IsSpace(s[|s| - 1]) then StripRight(s[..|s| - 1]) else s
  }

  /** `s.strip()`: leading and trailing whitespace removed. */
  function Strip(s: string): (r: string)
    ensures |r| <= |s|
    ensures |r| == 0 || (!IsSpace(r[0]) && !IsSpace(r[|r| - 1]))
  {
    StripRight(StripLeft(s))
  }

  lemma StripLeftKeeps(s: string)
    requires |s| > 0 && !IsSpace(s[0])
    ensures StripLeft(s) == s
  {
  }

  lemma StripRightKeeps(s: string)
    requires |s| > 0 && !IsSpace(s[|s| - 1])
    ensures StripRight(s) == s
  {
  }

  /** Stripping a stripped string changes nothing. */
  lemma StripIdempotent(s: string)
    ensures Strip(Strip(s)) == Strip(s)
  {
    var t := Strip(s);
    if t != [] {
      StripLeftKeeps(t);
      StripRightKeeps(t);
    }
  }

  lemma StripRightDrops(s: string, c: char)
    requires IsSpace(c)
    ensures StripRight(s + [c]) == StripRight(s)
  {
    assert (s + [c])[..|s|] == s;
  }

  lemma {:induction false} StripLeftAppend(s: string, c: char)
    ensures StripLeft(s + [c]) == if StripLeft(s) == "" && IsSpace(c) then "" else StripLeft(s) + [c]
  {
    if |s| > 0 {
      assert (s + [c])[1..] == s[1..] + [c];
      if IsSpace(s[0]) {
        StripLeftAppend(s[1..], c);
      }
    } else {
      assert s + [c] == [c];
      assert [c][1..] == [];
    }
  }

  /** A line's trailing '\n' makes no difference once it is stripped. */
  lemma StripNewline(s: string)
    ensures Strip(s + "\n") == Strip(s)
  {
    StripLeftAppend(s, '\n');
    if StripLeft(s) != "" {
      StripRightDrops(StripLeft(s), '\n');
    }
  }

  predicate NoSpace(s: string) { forall i :: 0 <= i < |s| ==> !IsSpace(s[i]) }

  lemma StripNoSpace(s: string)
    requires NoSpace(s)
    ensures Strip(s) == s
  {
  }

  /**
   * A value that a `KEY=value` line carries unchanged through a line-wise
   * reader that strips each side: no whitespace at either end and no line
   * break inside. Inner spaces are allowed.
   */
  predicate LineValue(v: string) { Strip(v) == v && '\n' !in v && '\r' !in v }

  /** A value without whitespace is a line value. */
  lemma NoSpaceLineValue(v: string)
    requires NoSpace(v)
    ensures LineValue(v)
  {
    StripNoSpace(v);
  }

  /** `k=v` with a non-empty key and a stripped value is already stripped. */
  lemma StripAssignment(k: string, v: string)
    requires k != "" && !IsSpace(k[0]) && Strip(v) == v
    ensures Strip(k + "=" + v) == k + "=" + v
  {
    var t := k + "=" + v;
    assert t[0] == k[0];
    StripLeftKeeps(t);
    if v == "" {
      assert t[|t| - 1] == '=';
    } else {
      assert t[|t| - 1] == v[|v| - 1];
    }
    StripRightKeeps(t);
  }

  /** Position of the first `c` in `s`, if any. */
  function IndexOf(s: string, c: char): (r: Option<nat>)
    ensures r.None? <==> c !in s
    ensures r.Some? ==> r.value < |s| && s[r.value] == c && c !in s[..r.value]
  {
    if |s| == 0 then None
    else if s[0] == c then Some(0)
    else
      var t := IndexOf(s[1..], c);
      if t.None? then None
      else
        assert s[..t.value + 1] == [s[0]] + s[1..][..t.value];
        Some(t.value + 1)
  }

  // ---------------------------------------------------------------------
  // Split and join
  // ---------------------------------------------------------------------

  /**
   * `re.split("[...]", s)` for a set of single-character separators; with a
   * one-element set it is `s.split(c)`. There is always at least one part.
   */
  function SplitAny(s: string, seps: set<char>): (r: seq<string>)
    ensures |r| >= 1
  {
    if |s| == 0 then [""]
    else
      var rest := SplitAny(s[1..], seps);
      if s[0] in seps then [""] + rest
      else [[s[0]] + rest[0]] + rest[1..]
  }

  lemma {:induction false} SplitAnyNoSep(a: string, seps: set<char>)
    requires forall i :: 0 <= i < |a| ==> a[i] !in seps
    ensures SplitAny(a, seps) == [a]
  {
    if |a| > 0 {
      SplitAnyNoSep(a[1..], seps);
      assert [a[0]] + a[1..] == a;
    }
  }

  /** Text up to the first separator is the first part; the rest splits on its own. */
  lemma {:induction false} SplitAnyAt(a: string, c: char, b: string, seps: set<char>)
    requires forall i :: 0 <= i < |a| ==> a[i] !in seps
    requires c in seps
    ensures SplitAny(a + [c] + b, seps) == [a] + SplitAny(b, seps)
  {
    if |a| == 0 {
      assert a + [c] + b == [c] + b;
      assert ([c] + b)[1..] == b;
    } else {
      SplitAnyAt(a[1..], c, b, seps);
      var s := a + [c] + b;
      assert s[1..] == a[1..] + [c] + b;
      assert [a[0]] + a[1..] == a;
    }
  }

  function Split(s: string, c: char): (r: seq<string>)
    ensures |r| >= 1
  {
    SplitAny(s, {c})
  }

  /** `sep.join(parts)`. */
  function Join(parts: seq<string>, sep: string): string
  {
    if |parts| == 0 then ""
    else if |parts| == 1 then parts[0]
    else parts[0] + sep + Join(parts[1..], sep)
  }

  /** Splitting on `c` and joining with `c` gives back the original text. */
  lemma {:induction false} JoinSplit(s: string, c: char)
    ensures Join(Split(s, c), [c]) == s
  {
    if |s| > 0 {
      JoinSplit(s[1..], c);
      var rest := Split(s[1..], c);
      if s[0] != c {
        var r := [[s[0]] + rest[0]] + rest[1..];
        assert Split(s, c) == r;
        if |rest| == 1 {
          assert Join(r, [c]) == [s[0]] + rest[0];
        } else {
          assert r[1..] == rest[1..];
          assert Join(r, [c]) == [s[0]] + rest[0] + [c] + Join(rest[1..], [c]);
          assert Join(rest, [c]) == rest[0] + [c] + Join(rest[1..], [c]);
        }
        assert [s[0]] + s[1..] == s;
      } else {
        assert Split(s, c) == [""] + rest;
        assert ([""] + rest)[1..] == rest;
        assert [c] + s[1..] == s;
      }
    }
  }

  /** The non-empty stripped pieces of `s.split(c)`, in order. */
  function StrippedNonEmpty(parts: seq<string>): (r: seq<string>)
    ensures forall k :: 0 <= k < |r| ==> r[k] != "" && exists j :: 0 <= j < |parts| && r[k] == Strip(parts[j])
  {
    if |parts| == 0 then []
    else
      var t := StrippedNonEmpty(parts[1..]);
      var head := Strip(parts[0]);
      if head == "" then t else [head] + t
  }

  /** A text is among the pieces exactly when it is the non-empty strip of some part. */
  lemma {:induction false} StrippedNonEmptyMember(parts: seq<string>, y: string)
    ensures y in StrippedNonEmpty(parts) <==> y != "" && exists j :: 0 <= j < |parts| && Strip(parts[j]) == y
  {
    if |parts| > 0 {
      var rest := parts[1..];
      var t := StrippedNonEmpty(rest);
      var head := Strip(parts[0]);
      StrippedNonEmptyMember(rest, y);
      assert StrippedNonEmpty(parts) == (if head == "" then t else [head] + t);
      if y in StrippedNonEmpty(parts) && y != head {
        var j :| 0 <= j < |rest| && Strip(rest[j]) == y;
        assert Strip(parts[j + 1]) == y;
      }
      if y != "" && exists j :: 0 <= j < |parts| && Strip(parts[j]) == y {
        var j :| 0 <= j < |parts| && Strip(parts[j]) == y;
        if j > 0 {
          assert rest[j - 1] == parts[j];
          assert y in t;
        }
      }
    }
  }

  // ---------------------------------------------------------------------
  // Decimal integers
  // ---------------------------------------------------------------------

  function DigitChar(d: nat): char
    requires d < 10
  {
    ('0' as int + d) as char
  }

  function DigitVal(c: char): nat
    requires IsDigit(c)
  {
    (c as int - '0' as int) as nat
  }

  function DigitsToNat(s: string): nat
    requires AllDigits(s)
  {
    if |s| == 0 then 0 else DigitsToNat(s[..|s| - 1]) * 10 + DigitVal(s[|s| - 1])
  }

  /** `str(n)` for a natural number: no leading zero except for 0 itself. */
  function NatToString(n: nat): (r: string)
    ensures |r| >= 1 && AllDigits(r)
    ensures r[0] == '0' ==> n == 0
  {
    if n < 10 then [DigitChar(n)] else NatToString(n / 10) + [DigitChar(n % 10)]
  }

  function IntToString(i: int): (r: string)
    ensures |r| >= 1 && NoSpace(r)
  {
    if i < 0 then "-" + NatToString(-i) else NatToString(i)
  }

  lemma {:induction false} DigitsToNatOfNatToString(n: nat)
    ensures DigitsToNat(NatToString(n)) == n
  {
    if n >= 10 {
      DigitsToNatOfNatToString(n / 10);
      var s := NatToString(n);
      assert s[..|s| - 1] == NatToString(n / 10);
    }
  }

  /**
   * `int(s)` on a string: surrounding whitespace stripped, an optional sign,
   * then one or more ASCII digits; anything else is the `ValueError` (None).
   */
  function ParseInt(s: string): (r: Option<int>)
    ensures r.Some? ==> |Strip(s)| > 0
  {
    var t := Strip(s);
    if |t| == 0 then None
    else if t[0] == '-' || t[0] == '+' then
      var body := t[1..];
      if |body| > 0 && AllDigits(body) then
        Some(if t[0] == '-' then 0 - DigitsToNat(body) else DigitsToNat(body))
      else None
    else if AllDigits(t) then Some(DigitsToNat(t))
    else None
  }

  /** A run of digits reads as its value. */
  lemma ParseIntDigits(t: string)
    requires |t| > 0 && AllDigits(t)
    ensures ParseInt(t) == Some(DigitsToNat(t))
  {
    assert NoSpace(t);
    StripNoSpace(t);
  }

  /** A minus sign and a run of digits read as the negated value. */
  lemma ParseIntMinus(t: string, d: string)
    requires |d| > 0 && AllDigits(d) && t == "-" + d
    ensures ParseInt(t) == Some(0 - DigitsToNat(d))
  {
    assert NoSpace(t);
    StripNoSpace(t);
    assert t[1..] == d;
  }

  /** `int(str(i)) == i`. */
  lemma ParseIntToString(i: int)
    ensures ParseInt(IntToString(i)) == Some(i)
  {
    if i < 0 {
      var d := NatToString(-i);
      assert IntToString(i) == "-" + d;
      ParseIntMinus(IntToString(i), d);
      DigitsToNatOfNatToString(-i);
    } else {
      var d := NatToString(i);
      assert IntToString(i) == d;
      ParseIntDigits(d);
      DigitsToNatOfNatToString(i);
    }
  }

  // ---------------------------------------------------------------------
  // Code-point order on strings and sorted(set(xs))
  // ---------------------------------------------------------------------

  /** Python's `<` on `str`: a proper prefix comes first, else the first differing character decides. */
  predicate LexLess(a: string, b: string)
  {
    if |a| == 0 then |b| > 0
    else if |b| == 0 then false
    else if a[0] != b[0] then a[0] < b[0]
    else LexLess(a[1..], b[1..])
  }

  lemma {:induction false} LexIrreflexive(a: string)
    ensures !LexLess(a, a)
  {
    if |a| > 0 { LexIrreflexive(a[1..]); }
  }

  lemma {:induction false} LexTransitive(a: string, b: string, c: string)
    requires LexLess(a, b) && LexLess(b, c)
    ensures LexLess(a, c)
  {
    if |a| > 0 && |b| > 0 && |c| > 0 && a[0] == b[0] && b[0] == c[0] {
      LexTransitive(a[1..], b[1..], c[1..]);
    }
  }

  lemma {:induction false} LexTotal(a: string, b: string)
    ensures a == b || LexLess(a, b) || LexLess(b, a)
  {
    if |a| > 0 && |b| > 0 && a[0] == b[0] {
      LexTotal(a[1..], b[1..]);
      if a[1..] == b[1..] {
        assert a == [a[0]] + a[1..] && b == [b[0]] + b[1..];
      }
    }
  }

  predicate StrictlySorted(s: seq<string>)
  {
    forall i, j :: 0 <= i < j < |s| ==> LexLess(s[i], s[j])
  }

  /** Inserts `x` into a strictly sorted sequence, unless it is already there. */
  function InsertSorted(x: string, s: seq<string>): (r: seq<string>)
    requires StrictlySorted(s)
    ensures StrictlySorted(r)
    ensures forall y :: y in r <==> y in s || y == x
  {
    if |s| == 0 then [x]
    else if x == s[0] then s
    else if LexLess(x, s[0]) then
      assert forall j :: 0 <= j < |s| ==> LexLess(x, s[j]) by {
        forall j | 0 <= j < |s| ensures LexLess(x, s[j]) {
          if j > 0 { LexTransitive(x, s[0], s[j]); }
        }
      }
      [x] + s
    else
      LexTotal(x, s[0]);
      var t := InsertSorted(x, s[1..]);
      assert forall y :: y in t ==> LexLess(s[0], y);
      [s[0]] + t
  }

  /** `sorted(set(xs))`: the distinct elements of `xs` in increasing order. */
  function SortedUnique(xs: seq<string>): (r: seq<string>)
    ensures StrictlySorted(r)
    ensures forall y :: y in r <==> y in xs
  {
    if |xs| == 0 then []
    else
      var t := SortedUnique(xs[..|xs| - 1]);
      assert xs == xs[..|xs| - 1] + [xs[|xs| - 1]];
      InsertSorted(xs[|xs| - 1], t)
  }

  /** A strictly sorted sequence has no repeated element. */
  lemma StrictlySortedDistinct(s: seq<string>, i: nat, j: nat)
    requires StrictlySorted(s) && i < j < |s|
    ensures s[i] != s[j]
  {
    LexIrreflexive(s[i]);
  }

  /** Two strictly sorted sequences with the same elements are equal. */
  lemma {:induction false} SortedUniqueCanonical(a: seq<string>, b: seq<string>)
    requires StrictlySorted(a) && StrictlySorted(b)
    requires forall y :: y in a <==> y in b
    ensures a == b
  {
    if |a| > 0 { assert a[0] in a; }
    if |b| > 0 { assert b[0] in b; }
    if |a| > 0 && |b| > 0 {
      var m :| 0 <= m < |b| && b[m] == a[0];
      var k :| 0 <= k < |a| && a[k] == b[0];
      if m > 0 && k > 0 {
        LexTransitive(a[0], b[0], a[0]);
        LexIrreflexive(a[0]);
        assert false;
      }
      forall y ensures y in a[1..] <==> y in b[1..] {
        if y in a[1..] {
          var i :| 1 <= i < |a| && a[i] == y;
          StrictlySortedDistinct(a, 0, i);
          assert y in a && y in b;
          var j :| 0 <= j < |b| && b[j] == y;
          assert j != 0;
        }
        if y in b[1..] {
          var i :| 1 <= i < |b| && b[i] == y;
          StrictlySortedDistinct(b, 0, i);
          assert y in b && y in a;
          var j :| 0 <= j < |a| && a[j] == y;
          assert j != 0;
        }
      }
      SortedUniqueCanonical(a[1..], b[1..]);
      assert a == [a[0]] + a[1..] && b == [b[0]] + b[1..];
    }
  }

  // ---------------------------------------------------------------------
  // Unions over a list
  // ---------------------------------------------------------------------

  /** The union of `f(x)` over the elements `x` of `xs`. */
  function UnionOf<T, U>(xs: seq<T>, f: T -> set<U>): set<U>
  {
    if |xs| == 0 then {} else UnionOf(xs[..|xs| - 1], f) + f(xs[|xs| - 1])
  }

  /** Whatever `f` gives for an element of the list is in the union. */
  lemma {:induction false} UnionOfComplete<T, U>(xs: seq<T>, f: T -> set<U>, i: nat, u: U)
    requires i < |xs| && u in f(xs[i])
    ensures u in UnionOf(xs, f)
  {
    var init := xs[..|xs| - 1];
    if i < |xs| - 1 {
      assert init[i] == xs[i];
      UnionOfComplete(init, f, i, u);
    }
  }

  /** Whatever is in the union comes from some element of the list: that element's position. */
  lemma {:induction false} UnionOfSource<T, U>(xs: seq<T>, f: T -> set<U>, u: U) returns (i: nat)
    requires u in UnionOf(xs, f)
    ensures i < |xs| && u in f(xs[i])
  {
    var last := |xs| - 1;
    if u in f(xs[last]) {
      i := last;
    } else {
      var init := xs[..last];
      i := UnionOfSource(init, f, u);
      assert init[i] == xs[i];
    }
  }

  // ---------------------------------------------------------------------
  // Filtering a list
  // ---------------------------------------------------------------------

  /** No element occurs twice. */
  predicate Distinct<T(==)>(xs: seq<T>)
  {
    forall i, j :: 0 <= i < j < |xs| ==> xs[i] != xs[j]
  }

  /** `y` is in the kept list exactly when some accepted element maps to it. */
  lemma {:induction false} KeepMember<T, U>(xs: seq<T>, p: T -> bool, f: T -> U, y: U)
    ensures y in Keep(xs, p, f) <==> exists x :: x in xs && p(x) && y == f(x)
  {
    if |xs| > 0 {
      var ys := xs[..|xs| - 1];
      KeepMember(ys, p, f, y);
      assert forall x :: x in xs <==> x in ys || x == xs[|xs| - 1];
    }
  }

  /** `[f(x) for x in xs if p(x)]`. */
  function Keep<T, U>(xs: seq<T>, p: T -> bool, f: T -> U): (r: seq<U>)
    ensures |r| <= |xs|
  {
    if |xs| == 0 then []
    else Keep(xs[..|xs| - 1], p, f) + (if p(xs[|xs| - 1]) then [f(xs[|xs| - 1])] else [])
  }

  /** Extending the list by one element extends the kept list by at most that element's image. */
  lemma KeepStep<T, U>(xs: seq<T>, p: T -> bool, f: T -> U, i: nat)
    requires i < |xs|
    ensures Keep(xs[..i + 1], p, f) == Keep(xs[..i], p, f) + (if p(xs[i]) then [f(xs[i])] else [])
  {
    assert xs[..i + 1][..i] == xs[..i];
  }

  /** Two filters that never both accept an element keep at most as many elements between them as the list has. */
  lemma {:induction false} KeepDisjoint<T, U, V>(xs: seq<T>, p: T -> bool, f: T -> U, q: T -> bool, g: T -> V)
    requires forall x :: p(x) ==> !q(x)
    ensures |Keep(xs, p, f)| + |Keep(xs, q, g)| <= |xs|
  {
    if |xs| > 0 {
      KeepDisjoint(xs[..|xs| - 1], p, f, q, g);
    }
  }

  /** `[x for x in xs if p(x)]`. */
  function Filter<T>(xs: seq<T>, p: T -> bool): (r: seq<T>)
    ensures |r| <= |xs|
  {
    if |xs| == 0 then []
    else Filter(xs[..|xs| - 1], p) + (if p(xs[|xs| - 1]) then [xs[|xs| - 1]] else [])
  }

  lemma FilterStep<T>(xs: seq<T>, p: T -> bool, i: nat)
    requires i < |xs|
    ensures Filter(xs[..i + 1], p) == Filter(xs[..i], p) + (if p(xs[i]) then [xs[i]] else [])
  {
    assert xs[..i + 1][..i] == xs[..i];
  }

  /** The filtered list holds exactly the elements of the list that pass the test. */
  lemma {:induction false} FilterMember<T>(xs: seq<T>, p: T -> bool, x: T)
    ensures x in Filter(xs, p) <==> x in xs && p(x)
  {
    if |xs| > 0 {
      var init := xs[..|xs| - 1];
      FilterMember(init, p, x);
      assert xs == init + [xs[|xs| - 1]];
    }
  }

  /** The lists of `xss` one after the other. */
  function Concat<T>(xss: seq<seq<T>>): seq<T>
  {
    if |xss| == 0 then [] else Concat(xss[..|xss| - 1]) + xss[|xss| - 1]
  }

  /** An element is in the concatenation exactly when it is in one of the lists. */
  lemma {:induction false} ConcatMember<T>(xss: seq<seq<T>>, y: T)
    ensures y in Concat(xss) <==> exists i :: 0 <= i < |xss| && y in xss[i]
  {
    if |xss| > 0 {
      var init := xss[..|xss| - 1];
      ConcatMember(init, y);
      if y in Concat(init) {
        var i :| 0 <= i < |init| && y in init[i];
        assert xss[i] == init[i];
      }
      if exists i :: 0 <= i < |xss| && y in xss[i] {
        var i :| 0 <= i < |xss| && y in xss[i];
        if i < |init| {
          assert init[i] == xss[i];
        }
      }
    }
  }

  /** Two lists whose tests agree position by position keep as many elements. */
  lemma {:induction false} FilterCountCongruent<T, U>(xs: seq<T>, p: T -> bool, ys: seq<U>, q: U -> bool)
    requires |xs| == |ys| && forall i :: 0 <= i < |xs| ==> p(xs[i]) == q(ys[i])
    ensures |Filter(xs, p)| == |Filter(ys, q)|
  {
    if |xs| > 0 {
      FilterCountCongruent(xs[..|xs| - 1], p, ys[..|ys| - 1], q);
    }
  }

  /** Two tests that never both hold keep at most the whole list between them, and all of it when one of them always holds. */
  lemma {:induction false} FilterDisjointCount<T>(xs: seq<T>, p: T -> bool, q: T -> bool)
    requires forall i :: 0 <= i < |xs| ==> !(p(xs[i]) && q(xs[i]))
    ensures |Filter(xs, p)| + |Filter(xs, q)| <= |xs|
    ensures (forall i :: 0 <= i < |xs| ==> p(xs[i]) || q(xs[i])) ==> |Filter(xs, p)| + |Filter(xs, q)| == |xs|
  {
    if |xs| > 0 {
      FilterDisjointCount(xs[..|xs| - 1], p, q);
    }
  }

  /** Filtering by a test and by its negation splits the list: every element lands in exactly one part, as often as it occurs. */
  lemma {:induction false} FilterPartition<T>(xs: seq<T>, p: T -> bool, q: T -> bool)
    requires forall x :: q(x) == !p(x)
    ensures multiset(Filter(xs, p)) + multiset(Filter(xs, q)) == multiset(xs)
  {
    if |xs| > 0 {
      var init := xs[..|xs| - 1];
      FilterPartition(init, p, q);
      assert xs == init + [xs[|xs| - 1]];
    }
  }

  // ---------------------------------------------------------------------
  // Keeping the first element per key
  // ---------------------------------------------------------------------

  /** The keys of a list's elements, in order. */
  function KeysOf<T, K>(xs: seq<T>, key: T -> K): (r: seq<K>)
    ensures |r| == |xs| && forall i :: 0 <= i < |xs| ==> r[i] == key(xs[i])
  {
    if |xs| == 0 then [] else KeysOf(xs[..|xs| - 1], key) + [key(xs[|xs| - 1])]
  }

  /**
   * The elements of `xs` whose key no earlier element has, in order: a dict
   * filled with `setdefault`, or `drop_duplicates(keep="first")`.
   */
  function FirstByKey<T, K(==)>(xs: seq<T>, key: T -> K): (r: seq<T>)
    ensures |r| <= |xs|
  {
    if |xs| == 0 then []
    else
      var init := FirstByKey(xs[..|xs| - 1], key);
      if key(xs[|xs| - 1]) in KeysOf(init, key) then init else init + [xs[|xs| - 1]]
  }

  lemma FirstByKeyStep<T, K>(xs: seq<T>, key: T -> K, i: nat)
    requires i < |xs|
    ensures FirstByKey(xs[..i + 1], key)
            == var init := FirstByKey(xs[..i], key);
               if key(xs[i]) in KeysOf(init, key) then init else init + [xs[i]]
  {
    assert xs[..i + 1][..i] == xs[..i];
  }

  /** No two kept elements share a key. */
  lemma {:induction false} FirstByKeyUnique<T, K>(xs: seq<T>, key: T -> K)
    ensures forall i, j :: 0 <= i < j < |FirstByKey(xs, key)| ==> key(FirstByKey(xs, key)[i]) != key(FirstByKey(xs, key)[j])
  {
    if |xs| > 0 {
      var init := FirstByKey(xs[..|xs| - 1], key);
      FirstByKeyUnique(xs[..|xs| - 1], key);
      var ks := KeysOf(init, key);
      if key(xs[|xs| - 1]) !in ks {
        var r := init + [xs[|xs| - 1]];
        forall i, j | 0 <= i < j < |r|
          ensures key(r[i]) != key(r[j])
        {
          if j == |init| {
            assert ks[i] == key(r[i]);
          }
        }
      }
    }
  }

  /**
   * A key occurs among the kept elements exactly when it occurs in the list,
   * and the element kept for it is the first one in the list with that key.
   */
  lemma {:induction false} FirstByKeyFirst<T, K>(xs: seq<T>, key: T -> K, i: nat)
    requires i < |xs|
    requires forall j :: 0 <= j < i ==> key(xs[j]) != key(xs[i])
    ensures xs[i] in FirstByKey(xs, key)
  {
    var last := |xs| - 1;
    var init := xs[..last];
    var r0 := FirstByKey(init, key);
    assert FirstByKey(xs, key) == r0 || FirstByKey(xs, key) == r0 + [xs[last]];
    if i < last {
      assert init[i] == xs[i];
      FirstByKeyFirst(init, key, i);
      assert xs[i] in r0;
    } else {
      assert key(xs[i]) !in KeysOf(r0, key) by {
        if key(xs[i]) in KeysOf(r0, key) {
          var m :| 0 <= m < |r0| && KeysOf(r0, key)[m] == key(xs[i]);
          var j := FirstByKeySource(init, key, m);
          assert false;
        }
      }
      assert FirstByKey(xs, key) == r0 + [xs[i]];
    }
  }

  /** Every kept element is an element of the list: its position there, before which no element has its key. */
  lemma {:induction false} FirstByKeySource<T, K>(xs: seq<T>, key: T -> K, m: nat) returns (j: nat)
    requires m < |FirstByKey(xs, key)|
    ensures j < |xs| && xs[j] == FirstByKey(xs, key)[m]
    ensures forall l :: 0 <= l < j ==> key(xs[l]) != key(xs[j])
  {
    var last := |xs| - 1;
    var init := xs[..last];
    var r0 := FirstByKey(init, key);
    if m < |r0| {
      j := FirstByKeySource(init, key, m);
      assert init[j] == xs[j];
      forall l | 0 <= l < j ensures key(xs[l]) != key(xs[j]) {
        assert init[l] == xs[l];
      }
    } else {
      j := last;
      assert key(xs[last]) !in KeysOf(r0, key);
      forall l | 0 <= l < j ensures key(xs[l]) != key(xs[j]) {
        assert init[l] == xs[l];
        KeyKept(init, key, l);
      }
    }
  }

  /** A list whose keys are already distinct is kept whole. */
  lemma {:induction false} FirstByKeyDistinct<T, K>(xs: seq<T>, key: T -> K)
    requires forall i, j :: 0 <= i < j < |xs| ==> key(xs[i]) != key(xs[j])
    ensures FirstByKey(xs, key) == xs
  {
    if |xs| > 0 {
      var init := xs[..|xs| - 1];
      FirstByKeyDistinct(init, key);
      assert init + [xs[|xs| - 1]] == xs;
    }
  }

  /** Every key of the list is the key of some kept element. */
  lemma {:induction false} KeyKept<T, K>(xs: seq<T>, key: T -> K, l: nat)
    requires l < |xs|
    ensures key(xs[l]) in KeysOf(FirstByKey(xs, key), key)
    decreases |xs|
  {
    if l < |xs| - 1 {
      KeyKept(xs[..|xs| - 1], key, l);
      KeyKeptStep(xs, key, l);
    } else {
      FirstByKeyLast(xs, key, key(xs[l]));
    }
  }

  lemma KeyKeptStep<T, K>(xs: seq<T>, key: T -> K, l: nat)
    requires l < |xs| - 1
    requires key(xs[..|xs| - 1][l]) in KeysOf(FirstByKey(xs[..|xs| - 1], key), key)
    ensures key(xs[l]) in KeysOf(FirstByKey(xs, key), key)
  {
    assert xs[..|xs| - 1][l] == xs[l];
    FirstByKeyLast(xs, key, key(xs[l]));
  }

  /** One more element keeps the keys kept so far and adds its own key if it is new. */
  lemma FirstByKeyLast<T, K>(xs: seq<T>, key: T -> K, k: K)
    requires |xs| > 0
    requires k in KeysOf(FirstByKey(xs[..|xs| - 1], key), key) || k == key(xs[|xs| - 1])
    ensures k in KeysOf(FirstByKey(xs, key), key)
  {
    var last := |xs| - 1;
    var r0 := FirstByKey(xs[..last], key);
    if key(xs[last]) !in KeysOf(r0, key) {
      assert FirstByKey(xs, key) == r0 + [xs[last]];
      assert KeysOf(r0 + [xs[last]], key) == KeysOf(r0, key) + [key(xs[last])];
    }
  }


}
