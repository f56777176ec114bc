/** The Python string operations that `src/server.py` applies: prefix tests,
    the reversing slice `s[::-1]`, `upper()`/`lower()`, `str()` of a natural
    number, the prefix slice `s[:n]`, and `replace(old, new)`. */
module Strings {

  // ---------------------------------------------------------------------
  // Prefixes and substrings

  /** Python's `s.startswith(p)`. */
  predicate StartsWith(s: string, p: string)
  {
    |p| <= |s| && s[..|p|] == p
  }

  /** `t` occurs in `s` starting at index `i`. */
  predicate OccursAt(s: string, t: string, i: int)
  {
    0 <= i && i + |t| <= |s| && s[i..i + |t|] == t
  }

  /** Python's `t in s`. */
  predicate Contains(s: string, t: string)
  {
    exists i | 0 <= i <= |s| - |t| :: OccursAt(s, t, i)
  }

  /** No occurrence of `t` anywhere in `s`. */
  predicate FreeOf(s: string, t: string)
  {
    forall i | 0 <= i <= |s| - |t| :: !OccursAt(s, t, i)
  }

  /** A string without the first character of `t` holds no `t`. */
  lemma FreeOfFirstChar(s: string, t: string)
    requires |t| > 0
    requires forall i :: 0 <= i < |s| ==> s[i] != t[0]
    ensures FreeOf(s, t)
  {
    forall i | 0 <= i <= |s| - |t|
      ensures !OccursAt(s, t, i)
    {
      assert s[i..i + |t|][0] == s[i];
    }
  }

  lemma SuffixContained(s: string, t: string)
    ensures Contains(s + t, t)
  {
    assert (s + t)[|s|..|s| + |t|] == t;
    assert OccursAt(s + t, t, |s|);
  }

  // ---------------------------------------------------------------------
  // Reversal: the slice `s[::-1]`

  /** `s[::-1]`: element `k` of the result is element `|s| - 1 - k` of `s`. */
  function Reverse(s: string): (r: string)
    ensures |r| == |s|
    ensures forall k :: 0 <= k < |s| ==> r[k] == s[|s| - 1 - k]
  {
    seq(|s|, k requires 0 <= k < |s| => s[|s| - 1 - k])
  }

  /** Reversing twice gives back the original string. */
  lemma ReverseInvolutive(s: string)
    ensures Reverse(Reverse(s)) == s
  {
    var r := Reverse(s);
    forall k | 0 <= k < |s|
      ensures Reverse(r)[k] == s[k]
    {
      assert Reverse(r)[k] == r[|s| - 1 - k] == s[k];
    }
  }

  // ---------------------------------------------------------------------
  // ASCII case mapping: `upper()` and `lower()` restricted to ASCII letters

  predicate IsAsciiLower(c: char) { 'a' <= c <= 'z' }
  predicate IsAsciiUpper(c: char) { 'A' <= c <= 'Z' }

  function UpperChar(c: char): (u: char)
    ensures IsAsciiLower(c) ==> IsAsciiUpper(u) && u as int == c as int - 32
    ensures !IsAsciiLower(c) ==> u == c
  {
    if IsAsciiLower(c) then (c as int - 32) as char else c
  }

  function LowerChar(c: char): (l: char)
    ensures IsAsciiUpper(c) ==> IsAsciiLower(l) && l as int == c as int + 32
    ensures !IsAsciiUpper(c) ==> l == c
  {
    if IsAsciiUpper(c) then (c as int + 32) as char else c
  }

  /** Every character of `s` is an ASCII character. */
  predicate IsAscii(s: string)
  {
    forall k :: 0 <= k < |s| ==> s[k] as int < 128
  }

  /** `s.upper()` on ASCII letters, which is Python's `upper()` on ASCII
      text: no lower-case letter is left, each character equals the
      original up to case, and every other character is kept. */
  function Upper(s: string): (r: string)
    ensures |r| == |s|
    ensures forall k :: 0 <= k < |s| ==> !IsAsciiLower(r[k])
    ensures forall k :: 0 <= k < |s| ==> LowerChar(r[k]) == LowerChar(s[k])
    ensures forall k :: 0 <= k < |s| && !IsAsciiLower(s[k]) ==> r[k] == s[k]
  {
    seq(|s|, k requires 0 <= k < |s| => UpperChar(s[k]))
  }

  /** `s.lower()` on ASCII letters, the mirror image of Upper. */
  function Lower(s: string): (r: string)
    ensures |r| == |s|
    ensures forall k :: 0 <= k < |s| ==> !IsAsciiUpper(r[k])
    ensures forall k :: 0 <= k < |s| ==> UpperChar(r[k]) == UpperChar(s[k])
    ensures forall k :: 0 <= k < |s| && !IsAsciiUpper(s[k]) ==> r[k] == s[k]
  {
    seq(|s|, k requires 0 <= k < |s| => LowerChar(s[k]))
  }

  /** A second `upper()` changes nothing, and lower-casing forgets an
      earlier upper-casing. */
  lemma UpperProperties(s: string)
    ensures Upper(Upper(s)) == Upper(s)
    ensures Lower(Upper(s)) == Lower(s)
  {
  }

  /** The mirror image of UpperProperties for `lower()`. */
  lemma LowerProperties(s: string)
    ensures Lower(Lower(s)) == Lower(s)
    ensures Upper(Lower(s)) == Upper(s)
  {
  }

  // ---------------------------------------------------------------------
  // Decimal rendering: `str(n)` for a natural number n

  predicate IsDigit(c: char) { '0' <= c <= '9' }

  function DigitChar(d: nat): (c: char)
    requires d < 10
    ensures IsDigit(c) && c as int - '0' as int == d
  {
    ('0' as int + d) as char
  }

  /** `str(n)`: the shortest decimal numeral of `n`. */
  function NatToString(n: nat): (s: string)
    ensures |s| >= 1
    ensures forall k :: 0 <= k < |s| ==> IsDigit(s[k])
    ensures |s| > 1 ==> s[0] != '0'
    decreases n
  {
    if n < 10 then [DigitChar(n)] else NatToString(n / 10) + [DigitChar(n % 10)]
  }

  /** The value of a string of decimal digits (`int(s)` on digits). */
  function ParseDecimal(s: string): nat
    requires forall k :: 0 <= k < |s| ==> IsDigit(s[k])
  {
    if s == [] then 0
    else
      var last := s[|s| - 1];
      assert IsDigit(last);
      ParseDecimal(s[..|s| - 1]) * 10 + (last as int - '0' as int)
  }

  /** `int(str(n)) == n`: the numeral denotes the number it renders. */
  lemma {:induction false} ParseNatToString(n: nat)
    ensures ParseDecimal(NatToString(n)) == n
    decreases n
  {
    if n >= 10 {
      var s := NatToString(n / 10);
      var t := s + [DigitChar(n % 10)];
      assert t[..|t| - 1] == s;
      ParseNatToString(n / 10);
    }
  }

  // ---------------------------------------------------------------------
  // Prefix slice `s[:n]`

  /** `s[:n]` for `n >= 0`: the first `n` characters, or all of `s`. */
  function Take(s: string, n: nat): (r: string)
    ensures |r| == if |s| < n then |s| else n
    ensures r <= s
  {
    if |s| <= n then s else s[..n]
  }

  // ---------------------------------------------------------------------
  // `s.replace(old, new)` for a non-empty `old`

  /** Python's `s.split(sep)` for a non-empty `sep`: the pieces between the
      occurrences of `sep` found by a left-to-right scan. */
  function Split(s: string, sep: string): (parts: seq<string>)
    requires |sep| > 0
    ensures |parts| >= 1
    decreases |s|
  {
    if |s| < |sep| then [s]
    else if s[..|sep|] == sep then [""] + Split(s[|sep|..], sep)
    else
      var rest := Split(s[1..], sep);
      [[s[0]] + rest[0]] + rest[1..]
  }

  /** Python's `sep.join(parts)`. */
  function Join(parts: seq<string>, sep: string): string
  {
    if |parts| == 0 then ""
    else if |parts| == 1 then parts[0]
    else parts[0] + sep + Join(parts[1..], sep)
  }

  /** Python's `s.replace(old, new)`: every occurrence found by the
      left-to-right scan is replaced, as `new.join(s.split(old))`. */
  function ReplaceAll(s: string, pat: string, rep: string): (r: string)
    requires |pat| > 0
    ensures FreeOf(s, pat) ==> r == s
  {
    if FreeOf(s, pat) then SplitFree(s, pat); Join(Split(s, pat), rep)
    else Join(Split(s, pat), rep)
  }

  lemma JoinFirstCons(c: char, parts: seq<string>, sep: string)
    requires |parts| >= 1
    ensures Join([[c] + parts[0]] + parts[1..], sep) == [c] + Join(parts, sep)
  {
    var q := [[c] + parts[0]] + parts[1..];
    assert q[1..] == parts[1..];
  }

  /** Joining the pieces back with the separator restores the string, so
      splitting loses nothing but the separators. */
  lemma {:induction false} JoinSplit(s: string, sep: string)
    requires |sep| > 0
    ensures Join(Split(s, sep), sep) == s
    decreases |s|
  {
    if |s| < |sep| {
    } else if s[..|sep|] == sep {
      var rest := Split(s[|sep|..], sep);
      JoinSplit(s[|sep|..], sep);
      assert ([""] + rest)[1..] == rest;
      assert s == sep + s[|sep|..];
    } else {
      var rest := Split(s[1..], sep);
      JoinSplit(s[1..], sep);
      JoinFirstCons(s[0], rest, sep);
      assert s == [s[0]] + s[1..];
    }
  }

  /** Joining with `sep` adds one `sep` between each two pieces. */
  lemma {:induction false} JoinLength(parts: seq<string>, sep: string)
    requires |parts| >= 1
    ensures |Join(parts, sep)| == |Join(parts, "")| + (|parts| - 1) * |sep|
  {
    if |parts| > 1 {
      JoinLength(parts[1..], sep);
      var n := |parts| - 1;
      assert (n - 1) * |sep| + |sep| == n * |sep|;
    }
  }

  /** Deleting the separators: the pieces, glued together without them,
      are shorter than the string by one separator per cut. */
  lemma SplitDeletesSeparators(s: string, sep: string)
    requires |sep| > 0
    ensures |Join(Split(s, sep), "")| + (|Split(s, sep)| - 1) * |sep| == |s|
  {
    JoinSplit(s, sep);
    JoinLength(Split(s, sep), sep);
  }

  /** The first piece of a split is a prefix of the string. */
  lemma {:induction false} SplitFirstIsPrefix(s: string, sep: string)
    requires |sep| > 0
    ensures Split(s, sep)[0] <= s
    decreases |s|
  {
    if |s| >= |sep| && s[..|sep|] != sep {
      SplitFirstIsPrefix(s[1..], sep);
    }
  }

  /** A string shorter than the separator cannot hold it. */
  lemma ShortIsFree(s: string, sep: string)
    requires |s| < |sep|
    ensures FreeOf(s, sep)
  {
  }

  /** Prepending a character to a piece that is a prefix of `s[1..]` keeps it
      free of `sep` when `sep` does not start at index 0 of `s`. */
  lemma ConsFree(s: string, piece: string, sep: string)
    requires |s| >= |sep| > 0 && s[..|sep|] != sep
    requires piece <= s[1..] && FreeOf(piece, sep)
    ensures FreeOf([s[0]] + piece, sep)
  {
    var p := [s[0]] + piece;
    assert p <= s;
    forall i | OccursAt(p, sep, i)
      ensures false
    {
      if i > 0 {
        assert p[i..i + |sep|] == piece[i - 1..i - 1 + |sep|];
        assert OccursAt(piece, sep, i - 1);
      }
    }
  }

  /** No piece of a split contains the separator: together with JoinSplit
      this says that `replace(sep, "")` deletes every occurrence of `sep`
      the scan meets and nothing else. */
  lemma {:induction false} SplitPiecesFree(s: string, sep: string)
    requires |sep| > 0
    ensures forall k :: 0 <= k < |Split(s, sep)| ==> FreeOf(Split(s, sep)[k], sep)
    decreases |s|
  {
    var parts := Split(s, sep);
    if |s| < |sep| {
      ShortIsFree(s, sep);
    } else if s[..|sep|] == sep {
      var rest := Split(s[|sep|..], sep);
      SplitPiecesFree(s[|sep|..], sep);
      assert parts == [""] + rest;
      forall k | 0 <= k < |parts|
        ensures FreeOf(parts[k], sep)
      {
        if k == 0 {
          ShortIsFree("", sep);
        } else {
          assert parts[k] == rest[k - 1];
        }
      }
    } else {
      var rest := Split(s[1..], sep);
      SplitPiecesFree(s[1..], sep);
      SplitFirstIsPrefix(s[1..], sep);
      ConsFree(s, rest[0], sep);
      assert parts == [[s[0]] + rest[0]] + rest[1..];
      forall k | 0 <= k < |parts|
        ensures FreeOf(parts[k], sep)
      {
        if k > 0 {
          assert parts[k] == rest[k];
        }
      }
    }
  }

  /** A string with no occurrence of `sep` splits into itself alone. */
  lemma {:induction false} SplitFree(s: string, sep: string)
    requires |sep| > 0 && FreeOf(s, sep)
    ensures Split(s, sep) == [s]
    decreases |s|
  {
    if |s| >= |sep| {
      assert !OccursAt(s, sep, 0);
      forall i | OccursAt(s[1..], sep, i)
        ensures false
      {
        assert s[1..][i..i + |sep|] == s[i + 1..i + 1 + |sep|];
        assert OccursAt(s, sep, i + 1);
      }
      SplitFree(s[1..], sep);
      assert s == [s[0]] + s[1..];
    }
  }

  /** `(sep + t).replace(sep, "") == t` when `t` holds no `sep`. */
  lemma StripLeading(t: string, sep: string)
    requires |sep| > 0 && FreeOf(t, sep)
    ensures ReplaceAll(sep + t, sep, "") == t
  {
    var s := sep + t;
    assert s[..|sep|] == sep;
    assert s[|sep|..] == t;
    SplitFree(t, sep);
    assert Split(s, sep) == [""] + Split(t, sep) == ["", t];
    assert ["", t][1..] == [t];
    assert Join(["", t], "") == "" + "" + Join([t], "") == t;
  }
}
