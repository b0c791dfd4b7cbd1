/**
  Read-name and chromosome-name encodings shared by every loader
  (`encode_chromosome` and `name_to_id`).
*/
module Encoding {
  import opened Wrappers
  import opened Builtins

  /**
    `encode_chromosome`: a name that starts with "chr" is encoded as the name with
    every "chr" removed; "X" is 23, "Y" is 24, "*" (unmapped) is -1, and anything else
    is read as an integer (`None` where `int(...)` raises).
  */
  function EncodeChromosome(name: string): (r: Option<int>)
    ensures r.Some? ==> name != []
    ensures !Contains(name, "chr") && name != "X" && name != "Y" && name != "*" ==> r == ParseInt(name)
    decreases |name|
  {
    if StartsWith(name, "chr") then EncodeChromosome(RemoveAll(name, "chr"))
    else if name == "X" then Some(23)
    else if name == "Y" then Some(24)
    else if name == "*" then Some(-1)
    else ParseInt(name)
  }

  /** The canonical name of a chromosome code: the inverse of EncodeChromosome. */
  function ChromosomeName(code: int): string {
    if code == 23 then "X"
    else if code == 24 then "Y"
    else if code == -1 then "*"
    else ToDecimal(code)
  }

  lemma {:induction false} NoChrInSuffixes(s: string)
    requires forall i :: 0 <= i < |s| ==> IsDigit(s[i]) || s[i] == '-'
    ensures !Contains(s, "chr")
    decreases |s|
  {
    if s != [] {
      assert IsDigit(s[0]) || s[0] == '-';
      NoChrInSuffixes(s[1..]);
    }
  }

  /** Every code round-trips through its canonical name, with or without a "chr" prefix. */
  lemma EncodeChromosomeName(code: int)
    ensures EncodeChromosome(ChromosomeName(code)) == Some(code)
    ensures EncodeChromosome("chr" + ChromosomeName(code)) == Some(code)
  {
    var s := ChromosomeName(code);
    if code != 23 && code != 24 && code != -1 {
      NoChrInSuffixes(s);
      ParseIntOfDecimal(code);
      assert s != "X" && s != "Y" && s != "*" by {
        assert IsDigit(s[0]) || s[0] == '-';
      }
    }
    ChrPrefixIgnored(s);
  }

  /** Prefixing "chr" to a name that holds no "chr" does not change its encoding. */
  lemma ChrPrefixIgnored(s: string)
    requires !Contains(s, "chr")
    ensures EncodeChromosome("chr" + s) == EncodeChromosome(s)
  {
    var t := "chr" + s;
    assert StartsWith(t, "chr");
    assert t[3..] == s;
    RemoveAllAbsent(s, "chr");
    assert !StartsWith(s, "chr");
  }

  /**
    `name_to_id`: "r/p" (read `r`, mate `p`) becomes 2*r + p - 1, so that mates 1 and 2
    of read `r` take the adjacent slots 2r and 2r+1; a name without "/" is read as an
    integer. `None` where `int(...)` raises.
  */
  function NameToId(name: string): (r: Option<int>)
    ensures r.Some? ==> name != []
    ensures '/' in name ==>
      (r.Some? <==> ParseInt(SplitOn(name, '/')[0]).Some? && ParseInt(SplitOn(name, '/')[1]).Some?)
  {
    if '/' in name then
      var parts := SplitOn(name, '/');
      var read, pair := ParseInt(parts[0]), ParseInt(parts[1]);
      if read.Some? && pair.Some? then Some(read.value * 2 + pair.value - 1) else None
    else ParseInt(name)
  }

  /** The paired name "r/p" yields 2*r + p - 1. */
  lemma NameToIdPaired(read: int, pair: int)
    ensures NameToId(ToDecimal(read) + "/" + ToDecimal(pair)) == Some(2 * read + pair - 1)
  {
    var a, b := ToDecimal(read), ToDecimal(pair);
    SplitOnConcat(a, '/', b);
    assert a + "/" + b == a + ['/'] + b;
    assert (a + ['/'] + b)[|a|] == '/';
    ParseIntOfDecimal(read);
    ParseIntOfDecimal(pair);
  }

  /** A plain numeric name yields its own value. */
  lemma NameToIdPlain(k: int)
    ensures NameToId(ToDecimal(k)) == Some(k)
  {
    var a := ToDecimal(k);
    ParseIntOfDecimal(k);
  }

  /** Mates 1 and 2 of read `r` land in the adjacent slots 2r and 2r+1. */
  lemma MatesAreAdjacent(read: nat)
    ensures NameToId(ToDecimal(read) + "/1") == Some(2 * read)
    ensures NameToId(ToDecimal(read) + "/2") == Some(2 * read + 1)
  {
    assert DigitChar(1) == '1' && DigitChar(2) == '2';
    assert ToDecimal(read) + "/1" == ToDecimal(read) + "/" + ToDecimal(1);
    assert ToDecimal(read) + "/2" == ToDecimal(read) + "/" + ToDecimal(2);
    NameToIdPaired(read, 1);
    NameToIdPaired(read, 2);
  }
}
