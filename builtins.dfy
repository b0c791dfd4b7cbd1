/**
  The few Python and NumPy built-ins the loaders rely on, written out:
  `str.split()`, `str.startswith`, the substring test `in`, `str.replace(p, "")`,
  `str.split("/")`, `int(...)` on a token, and NumPy's integer indexing.
*/
module Builtins {
  import opened Wrappers

  /** The ASCII characters for which Python's `str.isspace()` holds. */
  predicate IsSpace(c: char) {
    c == ' ' || c == '\t' || c == '\n' || c == '\r' || c == '\U{B}' || c == '\U{C}' ||
    ('\U{1C}' <= c <= '\U{1F}')
  }

  /** The longest prefix of `s` free of whitespace. */
  function Word(s: string): (w: string)
    ensures |w| <= |s| && w == s[..|w|]
    ensures forall i :: 0 <= i < |w| ==> !IsSpace(w[i])
    ensures |w| < |s| ==> IsSpace(s[|w|])
  {
    if s == [] || IsSpace(s[0]) then [] else [s[0]] + Word(s[1..])
  }

  /** `s.split()`: the maximal runs of non-whitespace characters, in order. */
  function Fields(s: string): (r: seq<string>)
    ensures forall k :: 0 <= k < |r| ==> r[k] != []
    ensures forall k, i :: 0 <= k < |r| && 0 <= i < |r[k]| ==> !IsSpace(r[k][i])
    decreases |s|
  {
    if s == [] then []
    else if IsSpace(s[0]) then Fields(s[1..])
    else var w := Word(s); [w] + Fields(s[|w|..])
  }

  /** A run of non-whitespace followed by whitespace (or the end) is the first word. */
  lemma {:induction false} WordOf(w: string, s: string)
    requires forall i :: 0 <= i < |w| ==> !IsSpace(w[i])
    requires s == [] || IsSpace(s[0])
    ensures Word(w + s) == w
  {
    if w != [] {
      assert (w + s)[1..] == w[1..] + s;
      WordOf(w[1..], s);
      assert [w[0]] + w[1..] == w;
    } else {
      assert w + s == s;
    }
  }

  /** `(w + " " + s).split()` is `w` followed by the fields of `s`: the words, in order, none lost. */
  lemma FieldsCons(w: string, s: string)
    requires w != [] && forall i :: 0 <= i < |w| ==> !IsSpace(w[i])
    ensures Fields(w + " " + s) == [w] + Fields(s)
  {
    var line := w + " " + s;
    assert line == w + (" " + s);
    WordOf(w, " " + s);
    assert line[|w|..] == " " + s;
    assert (" " + s)[1..] == s;
  }

  /** `s.startswith(p)`. */
  predicate StartsWith(s: string, p: string) {
    |p| <= |s| && s[..|p|] == p
  }

  /** `(p + t).startswith(p)`, and a string that starts with `p` is `p` followed by the rest. */
  lemma StartsWithConcat(p: string, t: string, s: string)
    ensures StartsWith(p + t, p)
    ensures StartsWith(s, p) ==> s == p + s[|p|..]
  {
    assert (p + t)[..|p|] == p;
    if StartsWith(s, p) {
      assert s == s[..|p|] + s[|p|..];
    }
  }

  /** `p in s` for strings: `p` occurs in `s` at some offset. */
  predicate Contains(s: string, p: string)
    decreases |s|
  {
    StartsWith(s, p) || (s != [] && Contains(s[1..], p))
  }

  /** `p in s` holds exactly when `s` has `p` at some offset `i`. */
  lemma {:induction false} ContainsAt(s: string, p: string)
    ensures Contains(s, p) <==> exists i :: 0 <= i <= |s| && StartsWith(s[i..], p)
    decreases |s|
  {
    if StartsWith(s, p) {
      assert s[0..] == s;
    } else if s == [] {
      assert forall i :: 0 <= i <= |s| ==> s[i..] == s;
    } else {
      ContainsAt(s[1..], p);
      assert s[0..] == s;
      assert forall j :: 0 <= j <= |s| - 1 ==> s[1..][j..] == s[j + 1..];
      if Contains(s[1..], p) {
        var j :| 0 <= j <= |s| - 1 && StartsWith(s[1..][j..], p);
        assert StartsWith(s[j + 1..], p);
      } else {
        forall i | 1 <= i <= |s|
          ensures !StartsWith(s[i..], p)
        {
          assert s[i..] == s[1..][i - 1..];
        }
      }
    }
  }

  /** `s.replace(p, "")`: every non-overlapping occurrence of `p`, scanning left to right, removed. */
  function RemoveAll(s: string, p: string): (r: string)
    requires p != []
    ensures |r| <= |s|
    ensures StartsWith(s, p) ==> |r| <= |s| - |p|
    decreases |s|
  {
    if s == [] then []
    else if StartsWith(s, p) then RemoveAll(s[|p|..], p)
    else [s[0]] + RemoveAll(s[1..], p)
  }

  lemma {:induction false} RemoveAllAbsent(s: string, p: string)
    requires p != [] && !Contains(s, p)
    ensures RemoveAll(s, p) == s
    decreases |s|
  {
    if s != [] {
      RemoveAllAbsent(s[1..], p);
    }
  }

  /** Removing `p` from `p + s` leaves `s` when `s` holds no `p`: `("AS:i:" + v).replace("AS:i:", "")` is `v`. */
  lemma RemoveAllPrefix(p: string, s: string)
    requires p != [] && !Contains(s, p)
    ensures RemoveAll(p + s, p) == s
  {
    assert StartsWith(p + s, p);
    assert (p + s)[|p|..] == s;
    RemoveAllAbsent(s, p);
  }

  /** `s.split(c)` for a one-character separator. */
  function SplitOn(s: string, c: char): (r: seq<string>)
    ensures |r| >= 1
    ensures c !in s ==> r == [s]
    ensures c in s ==> |r| >= 2
  {
    if s == [] then [[]]
    else
      var rest := SplitOn(s[1..], c);
      assert [s[0]] + s[1..] == s;
      if s[0] == c then [[]] + rest else [[s[0]] + rest[0]] + rest[1..]
  }

  lemma {:induction false} SplitOnConcat(a: string, c: char, b: string)
    requires c !in a
    ensures SplitOn(a + [c] + b, c) == [a] + SplitOn(b, c)
  {
    if a == [] {
      assert (a + [c] + b)[1..] == b;
    } else {
      assert (a + [c] + b)[1..] == a[1..] + [c] + b;
      SplitOnConcat(a[1..], c, b);
      assert [a[0]] + a[1..] == a;
    }
  }

  predicate IsDigit(ch: char) {
    '0' <= ch <= '9'
  }

  function DigitValue(ch: char): (d: nat)
    requires IsDigit(ch)
    ensures d < 10
  {
    ch as int - '0' as int
  }

  function DigitChar(d: nat): (ch: char)
    requires d < 10
    ensures IsDigit(ch) && DigitValue(ch) == d
  {
    ('0' as int + d) as char
  }

  /**
    The unsigned numerals `int(...)` accepts: digits, with single underscores allowed
    between two digits.
  */
  predicate IsNumeral(s: string) {
    |s| > 0 && IsDigit(s[0]) && IsDigit(s[|s| - 1]) &&
    (forall i :: 0 <= i < |s| ==> IsDigit(s[i]) || s[i] == '_') &&
    (forall i :: 0 <= i < |s| - 1 ==> !(s[i] == '_' && s[i + 1] == '_'))
  }

  /** The value of the digits of `s`, underscores skipped. */
  function NumeralValue(s: string): nat
    requires forall i :: 0 <= i < |s| ==> IsDigit(s[i]) || s[i] == '_'
  {
    if s == [] then 0
    else if s[|s| - 1] == '_' then NumeralValue(s[..|s| - 1])
    else 10 * NumeralValue(s[..|s| - 1]) + DigitValue(s[|s| - 1])
  }

  /** `int(s)` on a whitespace-free token: `None` where Python raises ValueError. */
  function ParseInt(s: string): (r: Option<int>)
    ensures r.Some? ==> s != []
    ensures r.Some? ==> forall i :: 0 <= i < |s| ==>
      IsDigit(s[i]) || s[i] == '_' || (i == 0 && (s[i] == '+' || s[i] == '-'))
    ensures r.Some? ==> s[|s| - 1] != '_'
  {
    if |s| > 0 && (s[0] == '+' || s[0] == '-') then
      if IsNumeral(s[1..]) then
        var v := NumeralValue(s[1..]);
        Some(if s[0] == '-' then -(v as int) else v)
      else None
    else if IsNumeral(s) then Some(NumeralValue(s))
    else None
  }

  /** The decimal digits of `k`, as `str(k)` writes them for k >= 0. */
  function NatToDecimal(k: nat): (s: string)
    ensures |s| > 0
    ensures forall i :: 0 <= i < |s| ==> IsDigit(s[i])
  {
    if k < 10 then [DigitChar(k)] else NatToDecimal(k / 10) + [DigitChar(k % 10)]
  }

  /** `str(k)`. */
  function ToDecimal(k: int): (s: string)
    ensures |s| > 0
    ensures forall i :: 0 <= i < |s| ==> IsDigit(s[i]) || s[i] == '-'
  {
    if k < 0 then "-" + NatToDecimal(-k) else NatToDecimal(k)
  }

  lemma {:induction false} NumeralValueOfDecimal(k: nat)
    ensures IsNumeral(NatToDecimal(k)) && NumeralValue(NatToDecimal(k)) == k
  {
    var s := NatToDecimal(k);
    if k >= 10 {
      NumeralValueOfDecimal(k / 10);
      assert s[..|s| - 1] == NatToDecimal(k / 10);
    }
  }

  /** `int(str(k)) == k`: the parser inverts the printer. */
  lemma ParseIntOfDecimal(k: int)
    ensures ParseInt(ToDecimal(k)) == Some(k)
  {
    if k < 0 {
      NumeralValueOfDecimal(-k);
      assert ToDecimal(k)[1..] == NatToDecimal(-k);
    } else {
      NumeralValueOfDecimal(k);
    }
  }

  /**
    NumPy's integer indexing of an array of length `n`: an index in [0, n) is itself,
    one in [-n, 0) counts from the end, anything else raises IndexError (`None`).
  */
  function NumpyIndex(i: int, n: nat): (r: Option<nat>)
    ensures r.Some? <==> -(n as int) <= i < n
    ensures r.Some? ==> r.value < n && r.value == (if i >= 0 then i else i + n)
  {
    if 0 <= i < n then Some(i) else if -(n as int) <= i < 0 then Some(i + n) else None
  }
}
