/**
  What each loader (`from_sam`, `from_bed`, `from_truth`, `from_vgpos`, `from_pos`)
  does with one input line, and the effect of a whole input: the five zero-initialised
  columns after every line has been written into them, or the exception that aborted
  the load.
*/
module LineFormats {
  import opened Wrappers
  import opened Builtins
  import opened Encoding

  /** The five per-read columns, indexed by read id. */
  datatype Columns = Columns(
    chromosomes: seq<int>, positions: seq<int>, nVariants: seq<int>,
    scores: seq<int>, mapqs: seq<int>)

  predicate Sized(c: Columns, n: nat) {
    |c.chromosomes| == n && |c.positions| == n && |c.nVariants| == n &&
    |c.scores| == n && |c.mapqs| == n
  }

  /** Slot `k` holds 0 in all five columns. */
  predicate ZeroAt(c: Columns, k: nat)
    requires k < |c.chromosomes| && k < |c.positions| && k < |c.nVariants|
    requires k < |c.scores| && k < |c.mapqs|
  {
    c.chromosomes[k] == 0 && c.positions[k] == 0 && c.nVariants[k] == 0 &&
    c.scores[k] == 0 && c.mapqs[k] == 0
  }

  /** `np.zeros(n)` five times. */
  function ZeroColumns(n: nat): (c: Columns)
    ensures Sized(c, n) && forall k :: 0 <= k < n ==> ZeroAt(c, k)
  {
    var z := seq(n, _ => 0);
    Columns(z, z, z, z, z)
  }

  /** The exception that aborts a loader. */
  datatype LoadError = ValueError | IndexError

  /** The values one line stores into slot `slot`; `None` leaves that column alone. */
  datatype SlotWrite = SlotWrite(
    slot: nat, chromosome: Option<int>, position: Option<int>, score: Option<int>,
    mapq: Option<int>, nVariants: Option<int>)

  function Store(s: seq<int>, k: nat, v: Option<int>): (r: seq<int>)
    requires k < |s|
    ensures |r| == |s|
    ensures forall i :: 0 <= i < |s| && i != k ==> r[i] == s[i]
    ensures r[k] == v.GetOr(s[k])
  {
    if v.Some? then s[k := v.value] else s
  }

  function Apply(c: Columns, w: SlotWrite): (r: Columns)
    requires w.slot < |c.chromosomes| && w.slot < |c.positions| && w.slot < |c.nVariants|
    requires w.slot < |c.scores| && w.slot < |c.mapqs|
  {
    Columns(
      Store(c.chromosomes, w.slot, w.chromosome), Store(c.positions, w.slot, w.position),
      Store(c.nVariants, w.slot, w.nVariants), Store(c.scores, w.slot, w.score),
      Store(c.mapqs, w.slot, w.mapq))
  }

  // ---------------------------------------------------------------- from_sam

  /**
    The slot id of a SAM record. In paired-end mode a name without "/" is the id of
    the pair, doubled, plus 1 for the second mate (flag >= 128).
  */
  function SamIdentifier(pairedEnd: bool, name: string, flag: int): (r: Option<int>)
    ensures pairedEnd && '/' !in name && NameToId(name).Some? ==>
              r == Some(2 * NameToId(name).value + (if flag >= 128 then 1 else 0))
    ensures pairedEnd && '/' !in name && NameToId(name).None? ==> r.None?
    ensures !(pairedEnd && '/' !in name) ==> r == NameToId(name)
  {
    if pairedEnd && '/' !in name then
      match NameToId(name)
      case Some(base) => Some(base * 2 + (if flag >= 128 then 1 else 0))
      case None => None
    else NameToId(name)
  }

  /** The `n_variants` value a SAM line carries: from its "NVARIANTS:" tag, if any. */
  function SamVariantTag(line: string): (r: Option<int>)
    ensures r.Some? <==> Contains(line, "NVARIANTS:")
    ensures r.Some? ==> r.value == 0 || r.value == 1
    ensures r == Some(0) ==> Contains(line, "NVARIANTS:i:0")
  {
    if Contains(line, "NVARIANTS:") then
      Some(if Contains(line, "NVARIANTS:i:0") then 0 else 1)
    else None
  }

  /** A line `from_sam` passes over: a header, fewer than two fields, or not a primary alignment. */
  predicate SamSkipped(line: string) {
    var l := Fields(line);
    StartsWith(line, "@") || |l| < 2 || (ParseInt(l[1]).Some? && ParseInt(l[1]).value >= 256)
  }

  /** The flags `from_sam` keeps across lines, and the write one line makes. */
  datatype Effect = Effect(pairedEnd: bool, showError: bool, write: Option<SlotWrite>)

  /** One SAM line, in an array of `n` reads, under the current flags. */
  function SamLine(n: nat, pairedEnd: bool, showError: bool, line: string): (r: Result<Effect, LoadError>)
    ensures r.Ok? && r.value.write.Some? ==> r.value.write.value.slot < n
    ensures SamSkipped(line) ==> r == Ok(Effect(pairedEnd, showError, None))
    ensures r.Ok? && pairedEnd ==> r.value.pairedEnd
  {
    var l := Fields(line);
    if StartsWith(line, "@") || |l| < 2 then Ok(Effect(pairedEnd, showError, None))
    else if ParseInt(l[1]).None? then Err(ValueError)
    else
      var flag := ParseInt(l[1]).value;
      if flag >= 256 then Ok(Effect(pairedEnd, showError, None))
      else if |l| < 7 then Err(IndexError)
      else
        var paired := pairedEnd || l[6] != "*";
        var id := SamIdentifier(paired, l[0], flag);
        var chromosome := EncodeChromosome(l[2]);
        if id.None? || chromosome.None? then Err(ValueError)
        else
          // A missing 14th field sets score 0 and silences the error log from then on.
          var score := if |l| < 14 then 0 else ParseInt(RemoveAll(l[13], "AS:i:")).GetOr(0);
          var show := if |l| < 14 then false else showError;
          var position := ParseInt(l[3]);
          if position.None? then Err(ValueError)
          else
            var slot := NumpyIndex(id.value, n);
            var variant := SamVariantTag(line);
            if slot.None? then
              // The IndexError of the column writes is caught; the n_variants write is not.
              if variant.Some? then Err(IndexError) else Ok(Effect(paired, show, None))
            else if ParseInt(l[4]).None? then Err(ValueError)
            else
              Ok(Effect(paired, show, Some(SlotWrite(slot.value, chromosome, position, Some(score),
                                                     ParseInt(l[4]), variant))))
  }

  // ---------------------------------------------------------------- from_bed

  /** One BED line: chromosome, start, (end), name. */
  function BedLine(n: nat, line: string): (r: Result<SlotWrite, LoadError>)
    ensures r.Ok? ==> r.value.slot < n
  {
    var l := Fields(line);
    if |l| < 4 then Err(IndexError)
    else
      var id, chromosome, position := NameToId(l[3]), EncodeChromosome(l[0]), ParseInt(l[1]);
      if id.None? || chromosome.None? || position.None? then Err(ValueError)
      else match NumpyIndex(id.value, n)
        case None => Err(IndexError)
        case Some(k) => Ok(SlotWrite(k, chromosome, position, None, None, None))
  }

  // ---------------------------------------------------------------- from_truth

  /** One truth line: name, chromosome, position, and `n_variants` in the 8th field if present. */
  function TruthLine(n: nat, line: string): (r: Result<SlotWrite, LoadError>)
    ensures r.Ok? ==> r.value.slot < n
  {
    var l := Fields(line);
    if |l| < 1 then Err(IndexError)
    else if NameToId(l[0]).None? then Err(ValueError)
    else if |l| < 2 then Err(IndexError)
    else if EncodeChromosome(l[1]).None? then Err(ValueError)
    else if |l| < 3 then Err(IndexError)
    else if ParseInt(l[2]).None? then Err(ValueError)
    else
      var variants := if |l| > 7 then ParseInt(l[7]) else Some(0);
      if variants.None? then Err(ValueError)
      else match NumpyIndex(NameToId(l[0]).value, n)
        case None => Err(IndexError)
        case Some(k) => Ok(SlotWrite(k, EncodeChromosome(l[1]), ParseInt(l[2]), None, None, variants))
  }

  // ---------------------------------------------------------------- from_vgpos and from_pos

  /** The chromosome field of the vg and pos formats: "X", "Y", "null" or a number (no "chr" stripping). */
  function PlainChromosome(token: string): (r: Option<int>)
    ensures r.Some? ==> token != []
    ensures StartsWith(token, "chr") ==> r.None?
  {
    assert StartsWith(token, "chr") ==> token[0] == "chr"[0] == 'c';
    if token == "X" then Some(23)
    else if token == "Y" then Some(24)
    else if token == "null" then Some(0)
    else ParseInt(token)
  }

  /** A position field where "null" stands for 0. */
  function NullablePosition(token: string): (r: Option<int>)
    ensures r.Some? ==> token != []
    ensures r.Some? && r.value != 0 ==> r == ParseInt(token)
  {
    if token == "null" then Some(0) else ParseInt(token)
  }

  /** Line `index` of a vg position file: the line number is the read id. */
  function VgposLine(n: nat, index: nat, line: string): (r: Result<SlotWrite, LoadError>)
    ensures r.Ok? ==> r.value.slot == index < n
  {
    var l := Fields(line);
    if |l| < 3 then Err(IndexError)
    else
      // An unparsable chromosome is logged and stored as 0.
      var chromosome := PlainChromosome(l[2]).GetOr(0);
      if |l| < 4 then Err(IndexError)
      else if NullablePosition(l[3]).None? then Err(ValueError)
      else if index >= n then Err(IndexError)
      else Ok(SlotWrite(index, Some(chromosome), NullablePosition(l[3]), None, None, None))
  }

  /** One pos line: name, chromosome, position, and optionally mapq and score. */
  function PosLine(n: nat, line: string): (r: Result<SlotWrite, LoadError>)
    ensures r.Ok? ==> r.value.slot < n
  {
    var l := Fields(line);
    if |l| < 1 then Err(IndexError)
    else if NameToId(l[0]).None? then Err(ValueError)
    else if |l| < 2 then Err(IndexError)
    else if PlainChromosome(l[1]).None? then Err(ValueError)
    else if |l| < 3 then Err(IndexError)
    else if NullablePosition(l[2]).None? then Err(ValueError)
    else match NumpyIndex(NameToId(l[0]).value, n)
      case None => Err(IndexError)
      case Some(k) =>
        // A missing mapq or score field is caught (IndexError) and leaves that column alone.
        var mapq := if |l| < 4 then None else ParseInt(l[3]);
        var score := if |l| < 5 then None else ParseInt(l[4]);
        if |l| >= 4 && mapq.None? then Err(ValueError)
        else if |l| >= 5 && score.None? then Err(ValueError)
        else Ok(SlotWrite(k, PlainChromosome(l[1]), NullablePosition(l[2]), score, mapq, None))
  }

  // ---------------------------------------------------------------- whole inputs

  datatype Format = Sam | Bed | Truth | Vgpos | Pos

  /** The columns so far, and the flags that `from_sam` carries from line to line. */
  datatype LoadState = LoadState(columns: Columns, pairedEnd: bool, showError: bool)

  function InitialState(n: nat): (st: LoadState)
    ensures Sized(st.columns, n)
  {
    LoadState(ZeroColumns(n), false, true)
  }

  /** What line number `index` does, in format `fmt`, to a load of `n` reads. */
  function LineEffect(fmt: Format, n: nat, index: nat, pairedEnd: bool, showError: bool, line: string)
    : (r: Result<Effect, LoadError>)
    ensures r.Ok? && r.value.write.Some? ==> r.value.write.value.slot < n
    ensures r.Ok? && fmt != Sam ==> r.value.pairedEnd == pairedEnd && r.value.showError == showError
  {
    if fmt == Sam then SamLine(n, pairedEnd, showError, line)
    else
      var w := match fmt
        case Bed => BedLine(n, line)
        case Truth => TruthLine(n, line)
        case Vgpos => VgposLine(n, index, line)
        case _ => PosLine(n, line);
      match w
      case Err(e) => Err(e)
      case Ok(v) => Ok(Effect(pairedEnd, showError, Some(v)))
  }

  function Step(fmt: Format, n: nat, index: nat, st: LoadState, line: string): (r: Result<LoadState, LoadError>)
    requires Sized(st.columns, n)
    ensures r.Ok? ==> Sized(r.value.columns, n)
  {
    match LineEffect(fmt, n, index, st.pairedEnd, st.showError, line)
    case Err(e) => Err(e)
    case Ok(Effect(p, s, w)) =>
      Ok(LoadState(if w.Some? then Apply(st.columns, w.value) else st.columns, p, s))
  }

  /** The loader's effect on `lines`, read in order: the columns it returns, or the exception it raised. */
  function Run(fmt: Format, n: nat, lines: seq<string>): (r: Result<LoadState, LoadError>)
    ensures r.Ok? ==> Sized(r.value.columns, n)
  {
    if lines == [] then Ok(InitialState(n))
    else
      var k := |lines| - 1;
      match Run(fmt, n, lines[..k])
      case Err(e) => Err(e)
      case Ok(st) => Step(fmt, n, k, st, lines[k])
  }

  /** The slots some line of `lines` writes into. */
  function Touched(fmt: Format, n: nat, lines: seq<string>): set<nat> {
    if lines == [] then {}
    else
      var k := |lines| - 1;
      var before := Touched(fmt, n, lines[..k]);
      match Run(fmt, n, lines[..k])
      case Err(_) => before
      case Ok(st) =>
        match LineEffect(fmt, n, k, st.pairedEnd, st.showError, lines[k])
        case Ok(Effect(_, _, Some(w))) => before + {w.slot}
        case _ => before
  }

  /** Once a line raises, the load has failed with that exception. */
  lemma {:induction false} RunStaysFailed(fmt: Format, n: nat, lines: seq<string>, i: nat)
    requires i <= |lines| && Run(fmt, n, lines[..i]).Err?
    ensures Run(fmt, n, lines) == Run(fmt, n, lines[..i])
    decreases |lines| - i
  {
    if i < |lines| {
      assert lines[..i + 1][..i] == lines[..i];
      RunStaysFailed(fmt, n, lines, i + 1);
    } else {
      assert lines[..i] == lines;
    }
  }

  /** Every slot no line writes is still 0 in all five columns. */
  lemma {:induction false} UntouchedSlotsStayZero(fmt: Format, n: nat, lines: seq<string>, k: nat)
    requires Run(fmt, n, lines).Ok? && k < n && k !in Touched(fmt, n, lines)
    ensures ZeroAt(Run(fmt, n, lines).value.columns, k)
  {
    if lines != [] {
      var j := |lines| - 1;
      UntouchedSlotsStayZero(fmt, n, lines[..j], k);
    }
  }

  // ---------------------------------------------------------------- what from_sam promises

  /** `lines` with the lines `from_sam` passes over dropped. */
  function SamRecords(lines: seq<string>): (r: seq<string>)
    ensures |r| <= |lines|
  {
    if lines == [] then []
    else
      var k := |lines| - 1;
      SamRecords(lines[..k]) + (if SamSkipped(lines[k]) then [] else [lines[k]])
  }

  /** Reading one more line is one more Step. */
  lemma RunAppend(fmt: Format, n: nat, lines: seq<string>, line: string)
    ensures Run(fmt, n, lines).Err? ==> Run(fmt, n, lines + [line]) == Run(fmt, n, lines)
    ensures Run(fmt, n, lines).Ok? ==>
      Run(fmt, n, lines + [line]) == Step(fmt, n, |lines|, Run(fmt, n, lines).value, line)
  {
    assert (lines + [line])[..|lines|] == lines;
  }

  /** The state after line `i` is one Step from the state before it. */
  lemma RunNext(fmt: Format, n: nat, lines: seq<string>, i: nat, st: LoadState)
    requires i < |lines| && Run(fmt, n, lines[..i]) == Ok(st)
    ensures Sized(st.columns, n)
    ensures Run(fmt, n, lines[..i + 1]) == Step(fmt, n, i, st, lines[i])
  {
    assert lines[..i + 1][..i] == lines[..i];
  }

  /** What a Step does, in terms of the line's Effect. */
  lemma StepByEffect(fmt: Format, n: nat, i: nat, st: LoadState, line: string, e: Result<Effect, LoadError>)
    requires Sized(st.columns, n) && e == LineEffect(fmt, n, i, st.pairedEnd, st.showError, line)
    ensures e.Err? ==> Step(fmt, n, i, st, line) == Err(e.error)
    ensures e.Ok? && e.value.write.None? ==>
      Step(fmt, n, i, st, line) == Ok(LoadState(st.columns, e.value.pairedEnd, e.value.showError))
    ensures e.Ok? && e.value.write.Some? ==>
      Step(fmt, n, i, st, line) == Ok(LoadState(Apply(st.columns, e.value.write.value), e.value.pairedEnd, e.value.showError))
  {
  }

  /** A SAM step does not depend on the line number, and a skipped line changes nothing. */
  lemma SamStep(n: nat, i: nat, j: nat, st: LoadState, line: string)
    requires Sized(st.columns, n)
    ensures Step(Sam, n, i, st, line) == Step(Sam, n, j, st, line)
    ensures SamSkipped(line) ==> Step(Sam, n, i, st, line) == Ok(st)
  {
  }

  /** Headers, short lines and non-primary alignments have no effect on what `from_sam` loads. */
  lemma {:induction false} SamIgnoresSkippedLines(n: nat, lines: seq<string>)
    ensures Run(Sam, n, lines) == Run(Sam, n, SamRecords(lines))
  {
    if lines != [] {
      var k := |lines| - 1;
      var kept := SamRecords(lines[..k]);
      SamIgnoresSkippedLines(n, lines[..k]);
      assert lines == lines[..k] + [lines[k]];
      RunAppend(Sam, n, lines[..k], lines[k]);
      if Run(Sam, n, kept).Ok? {
        SamStep(n, k, |kept|, Run(Sam, n, kept).value, lines[k]);
      }
      if !SamSkipped(lines[k]) {
        assert SamRecords(lines) == kept + [lines[k]];
        RunAppend(Sam, n, kept, lines[k]);
      } else {
        assert SamRecords(lines) == kept + [];
        assert kept + [] == kept;
        assert Run(Sam, n, lines) == Run(Sam, n, lines[..k]);
      }
    }
  }

  /**
    In paired-end mode a numeric read name without "/" gives mate 1 the slot 2r and
    mate 2 (flag >= 128) the slot 2r+1; otherwise the name's own value is the slot.
  */
  lemma SamSlotOfNumericName(n: nat, pairedEnd: bool, showError: bool, line: string, read: int, flag: int)
    requires |Fields(line)| >= 7 && !StartsWith(line, "@")
    requires Fields(line)[0] == ToDecimal(read) && Fields(line)[1] == ToDecimal(flag)
    requires SamLine(n, pairedEnd, showError, line).Ok?
    requires SamLine(n, pairedEnd, showError, line).value.write.Some?
    ensures var e := SamLine(n, pairedEnd, showError, line).value;
      var id := if e.pairedEnd then 2 * read + (if flag >= 128 then 1 else 0) else read;
      e.pairedEnd == (pairedEnd || Fields(line)[6] != "*") &&
      NumpyIndex(id, n) == Some(e.write.value.slot)
  {
    ParseIntOfDecimal(flag);
    NameToIdPlain(read);
  }

  /** Once a line has switched `from_sam` to paired-end mode, it stays in that mode for the rest of the input. */
  lemma {:induction false} PairedEndStaysOn(n: nat, lines: seq<string>, i: nat)
    requires i <= |lines| && Run(Sam, n, lines[..i]).Ok? && Run(Sam, n, lines[..i]).value.pairedEnd
    requires Run(Sam, n, lines).Ok?
    ensures Run(Sam, n, lines).value.pairedEnd
  {
    if |lines| == i {
      assert lines[..i] == lines;
    } else {
      var k := |lines| - 1;
      assert lines[..k][..i] == lines[..i];
      assert lines[..k] + [lines[k]] == lines;
      RunAppend(Sam, n, lines[..k], lines[k]);
      PairedEndStaysOn(n, lines[..k], i);
    }
  }

  lemma {:induction false} ContainsPrefix(s: string, p: string, q: string)
    requires Contains(s, p + q)
    ensures Contains(s, p)
    decreases |s|
  {
    if StartsWith(s, p + q) {
      assert s[..|p|] == (p + q)[..|p|] == p;
    } else {
      ContainsPrefix(s[1..], p, q);
    }
  }

  /**
    A placed SAM line sets `n_variants` to 0 when it holds "NVARIANTS:i:0", to 1 when it
    holds any other "NVARIANTS:" tag, and leaves it alone when it holds neither.
  */
  lemma SamVariantFlag(n: nat, pairedEnd: bool, showError: bool, line: string)
    requires SamLine(n, pairedEnd, showError, line).Ok?
    requires SamLine(n, pairedEnd, showError, line).value.write.Some?
    ensures var v := SamLine(n, pairedEnd, showError, line).value.write.value.nVariants;
      (v == Some(0) <==> Contains(line, "NVARIANTS:i:0")) &&
      (v == Some(1) <==> Contains(line, "NVARIANTS:") && !Contains(line, "NVARIANTS:i:0")) &&
      (v == None <==> !Contains(line, "NVARIANTS:"))
  {
    if Contains(line, "NVARIANTS:i:0") {
      assert "NVARIANTS:i:0" == "NVARIANTS:" + "i:0";
      ContainsPrefix(line, "NVARIANTS:", "i:0");
    }
  }

  // ---------------------------------------------------------------- what the other loaders promise

  /** A truth line stores its 8th field as `n_variants` when it has one, and 0 otherwise. */
  lemma TruthVariantField(n: nat, line: string)
    requires TruthLine(n, line).Ok?
    ensures var l := Fields(line);
      TruthLine(n, line).value.nVariants == Some(if |l| > 7 then ParseInt(l[7]).value else 0)
  {
  }

  /** A vg position line is stored at its own line number, with "null" read as 0. */
  lemma VgposNullFields(n: nat, index: nat, line: string)
    requires VgposLine(n, index, line).Ok?
    ensures var w, l := VgposLine(n, index, line).value, Fields(line);
      w.slot == index &&
      (l[2] == "null" ==> w.chromosome == Some(0)) &&
      (l[3] == "null" ==> w.position == Some(0))
  {
  }
}
