/**
  `NumpyAlignments`: one alignment set as parallel arrays indexed by a dense read id,
  with the correctness rule against a truth set and the five loaders.
*/
module Alignments {
  import opened Wrappers
  import opened Builtins
  import LineFormats

  /** The tolerance `set_correctness` uses unless told otherwise. */
  const DefaultAllowedMismatch: int := 150

  function Abs(x: int): nat {
    if x < 0 then -x else x
  }

  /** The correctness rule: same chromosome, and positions at most `allowedMismatch` apart. */
  predicate Matches(chromosome: int, position: int, truthChromosome: int, truthPosition: int, allowedMismatch: int)
    ensures allowedMismatch < 0 ==> !Matches(chromosome, position, truthChromosome, truthPosition, allowedMismatch)
  {
    chromosome == truthChromosome && Abs(position - truthPosition) <= allowedMismatch
  }

  /** The structured view `__getitem__` returns; `isCorrect` is `None` while unset. */
  datatype Record = Record(
    chromosome: int, position: int, score: int, mapq: int, nVariants: int, isCorrect: Option<int>)

  class NumpyAlignments {
    var chromosomes: array<int>
    var positions: array<int>
    var scores: array<int>
    var mapqs: array<int>
    var nVariants: array<int>
    /** `None` (null) until correctness is set; an empty array also counts as unset. */
    var isCorrect: array?<int>

    constructor (chromosomes: array<int>, positions: array<int>, nVariants: array<int>,
                 scores: array<int>, mapqs: array<int>, isCorrect: array?<int> := null)
      ensures this.chromosomes == chromosomes && this.positions == positions
      ensures this.nVariants == nVariants && this.scores == scores && this.mapqs == mapqs
      ensures this.isCorrect == isCorrect
    {
      this.chromosomes := chromosomes;
      this.positions := positions;
      this.scores := scores;
      this.mapqs := mapqs;
      this.nVariants := nVariants;
      this.isCorrect := isCorrect;
    }

    /** All five columns hold `n` entries. */
    predicate HasLength(n: nat)
      reads this
    {
      chromosomes.Length == n && positions.Length == n && scores.Length == n &&
      mapqs.Length == n && nVariants.Length == n
    }

    function Columns(): LineFormats.Columns
      reads this, chromosomes, positions, nVariants, scores, mapqs
    {
      LineFormats.Columns(chromosomes[..], positions[..], nVariants[..], scores[..], mapqs[..])
    }

    /** Correctness has been computed: `is_correct` is neither null nor empty. */
    predicate HasCorrectness()
      reads this
    {
      isCorrect != null && isCorrect.Length > 0
    }

    /**
      `__getitem__(item)`: the `item`-th entry of every column, with NumPy's indexing
      (negative items count from the end); `None` where one of them raises IndexError.
    */
    function Get(item: int): (r: Option<Record>)
      reads this, chromosomes, positions, scores, mapqs, nVariants, isCorrect
      ensures r.Some? <==>
        NumpyIndex(item, chromosomes.Length).Some? && NumpyIndex(item, positions.Length).Some? &&
        NumpyIndex(item, scores.Length).Some? && NumpyIndex(item, mapqs.Length).Some? &&
        NumpyIndex(item, nVariants.Length).Some? &&
        (HasCorrectness() ==> NumpyIndex(item, isCorrect.Length).Some?)
      ensures r.Some? ==> (r.value.isCorrect.None? <==> !HasCorrectness())
      ensures r.Some? && 0 <= item ==>
        r.value.chromosome == chromosomes[item] && r.value.position == positions[item] &&
        r.value.score == scores[item] && r.value.mapq == mapqs[item] &&
        r.value.nVariants == nVariants[item] &&
        (HasCorrectness() ==> r.value.isCorrect == Some(isCorrect[item]))
      ensures r.Some? && item < 0 ==>
        r.value.chromosome == chromosomes[chromosomes.Length + item] &&
        r.value.position == positions[positions.Length + item] &&
        r.value.score == scores[scores.Length + item] && r.value.mapq == mapqs[mapqs.Length + item] &&
        r.value.nVariants == nVariants[nVariants.Length + item] &&
        (HasCorrectness() ==> r.value.isCorrect == Some(isCorrect[isCorrect.Length + item]))
    {
      var c, p, s := NumpyIndex(item, chromosomes.Length), NumpyIndex(item, positions.Length), NumpyIndex(item, scores.Length);
      var m, v := NumpyIndex(item, mapqs.Length), NumpyIndex(item, nVariants.Length);
      var ok := if HasCorrectness() then NumpyIndex(item, isCorrect.Length) else Some(0);
      if c.None? || p.None? || s.None? || m.None? || v.None? || ok.None? then None
      else
        Some(Record(chromosomes[c.value], positions[p.value], scores[s.value], mapqs[m.value], nVariants[v.value],
                    if HasCorrectness() then Some(isCorrect[ok.value]) else None))
    }

    /** `set_correctness` would return at once: not forced and an `is_correct` of the right length is cached. */
    predicate CacheHit(force: bool)
      reads this
    {
      !force && isCorrect != null && isCorrect.Length == positions.Length
    }

    /** The arrays the correctness rule compares element-wise have one common length. */
    predicate Comparable(truth: NumpyAlignments)
      reads this, truth
    {
      chromosomes.Length == positions.Length == truth.chromosomes.Length == truth.positions.Length
    }

    /**
      `set_correctness(truth, force, allowed_mismatch)`: unless the cache is hit, replace
      `is_correct` by a fresh 0/1 array marking the reads that match the truth, and share
      the truth's `n_variants` array. The other columns are never touched.
    */
    method SetCorrectness(truth: NumpyAlignments, force: bool := false, allowedMismatch: int := DefaultAllowedMismatch)
      requires !CacheHit(force) ==> Comparable(truth)
      modifies this
      ensures chromosomes == old(chromosomes) && positions == old(positions)
      ensures scores == old(scores) && mapqs == old(mapqs)
      ensures old(CacheHit(force)) ==> isCorrect == old(isCorrect) && nVariants == old(nVariants)
      ensures !old(CacheHit(force)) ==>
        isCorrect != null && fresh(isCorrect) && isCorrect.Length == chromosomes.Length &&
        nVariants == old(truth.nVariants) &&
        forall i :: 0 <= i < isCorrect.Length ==>
          isCorrect[i] == if Matches(chromosomes[i], positions[i], truth.chromosomes[i], truth.positions[i], allowedMismatch) then 1 else 0
    {
      if CacheHit(force) {
        return;
      }
      var n := chromosomes.Length;
      var truthChromosomes, truthPositions := truth.chromosomes, truth.positions;
      var flags := new int[n](_ => 0);
      var i := 0;
      while i < n
        modifies flags
        invariant 0 <= i <= n
        invariant forall k :: 0 <= k < i ==>
          flags[k] == if Matches(chromosomes[k], positions[k], truthChromosomes[k], truthPositions[k], allowedMismatch) then 1 else 0
        invariant forall k :: i <= k < n ==> flags[k] == 0
      {
        if chromosomes[i] == truthChromosomes[i] && Abs(positions[i] - truthPositions[i]) <= allowedMismatch {
          flags[i] := 1;
        }
        i := i + 1;
      }
      isCorrect := flags;
      nVariants := truth.nVariants;
    }

    /**
      The loop shared by the five loaders: zero-initialise every column for `n` reads, then
      let each line, in order, write its slot; fail with the exception a line raises.
    */
    static method Load(fmt: LineFormats.Format, n: int, lines: seq<string>) returns (r: Result<NumpyAlignments, LineFormats.LoadError>)
      ensures n < 0 ==> r == Err(LineFormats.ValueError)
      ensures n >= 0 && LineFormats.Run(fmt, n, lines).Err? ==> r == Err(LineFormats.Run(fmt, n, lines).error)
      ensures n >= 0 && LineFormats.Run(fmt, n, lines).Ok? ==>
        r.Ok? && fresh(r.value) && r.value.HasLength(n) && r.value.isCorrect == null &&
        fresh(r.value.chromosomes) && fresh(r.value.positions) && fresh(r.value.nVariants) &&
        fresh(r.value.scores) && fresh(r.value.mapqs) &&
        r.value.Columns() == LineFormats.Run(fmt, n, lines).value.columns
    {
      // `np.zeros` of a negative size raises ValueError before any line is read.
      if n < 0 {
        return Err(LineFormats.ValueError);
      }
      r := LoadLines(fmt, n, lines);
    }

    /** The line loop of `Load`, once the five columns of `n` zeros exist. */
    static method LoadLines(fmt: LineFormats.Format, n: nat, lines: seq<string>) returns (r: Result<NumpyAlignments, LineFormats.LoadError>)
      ensures LineFormats.Run(fmt, n, lines).Err? ==> r == Err(LineFormats.Run(fmt, n, lines).error)
      ensures LineFormats.Run(fmt, n, lines).Ok? ==>
        r.Ok? && fresh(r.value) && r.value.HasLength(n) && r.value.isCorrect == null &&
        fresh(r.value.chromosomes) && fresh(r.value.positions) && fresh(r.value.nVariants) &&
        fresh(r.value.scores) && fresh(r.value.mapqs) &&
        r.value.Columns() == LineFormats.Run(fmt, n, lines).value.columns
    {
      var chromosomes := new int[n](_ => 0);
      var positions := new int[n](_ => 0);
      var nVariants := new int[n](_ => 0);
      var scores := new int[n](_ => 0);
      var mapqs := new int[n](_ => 0);
      var pairedEnd, showError := false, true;
      var i := 0;
      assert lines[..0] == [];
      assert chromosomes[..] == positions[..] == nVariants[..] == scores[..] == mapqs[..] == seq(n, _ => 0);
      while i < |lines|
        invariant 0 <= i <= |lines|
        invariant LineFormats.Run(fmt, n, lines[..i]) == Ok(LineFormats.LoadState(
          LineFormats.Columns(chromosomes[..], positions[..], nVariants[..], scores[..], mapqs[..]), pairedEnd, showError))
      {
        ghost var before := LineFormats.LoadState(
          LineFormats.Columns(chromosomes[..], positions[..], nVariants[..], scores[..], mapqs[..]), pairedEnd, showError);
        LineFormats.RunNext(fmt, n, lines, i, before);
        var e := LineFormats.LineEffect(fmt, n, i, pairedEnd, showError, lines[i]);
        LineFormats.StepByEffect(fmt, n, i, before, lines[i], e);
        if e.Err? {
          LineFormats.RunStaysFailed(fmt, n, lines, i + 1);
          return Err(e.error);
        }
        pairedEnd, showError := e.value.pairedEnd, e.value.showError;
        if e.value.write.Some? {
          WriteSlot(chromosomes, positions, nVariants, scores, mapqs, e.value.write.value);
        }
        i := i + 1;
      }
      assert lines[..i] == lines;
      var a := new NumpyAlignments(chromosomes, positions, nVariants, scores, mapqs, null);
      assert a.Columns() == LineFormats.Columns(chromosomes[..], positions[..], nVariants[..], scores[..], mapqs[..]);
      return Ok(a);
    }

    /** One line's writes into the five zero-initialised columns of a loader. */
    static method WriteSlot(chromosomes: array<int>, positions: array<int>, nVariants: array<int>,
                            scores: array<int>, mapqs: array<int>, w: LineFormats.SlotWrite)
      requires w.slot < chromosomes.Length == positions.Length == nVariants.Length == scores.Length == mapqs.Length
      requires chromosomes != positions && chromosomes != nVariants && chromosomes != scores && chromosomes != mapqs
      requires positions != nVariants && positions != scores && positions != mapqs
      requires nVariants != scores && nVariants != mapqs && scores != mapqs
      modifies chromosomes, positions, nVariants, scores, mapqs
      ensures LineFormats.Columns(chromosomes[..], positions[..], nVariants[..], scores[..], mapqs[..]) ==
        LineFormats.Apply(old(LineFormats.Columns(chromosomes[..], positions[..], nVariants[..], scores[..], mapqs[..])), w)
    {
      if w.chromosome.Some? { chromosomes[w.slot] := w.chromosome.value; }
      if w.position.Some? { positions[w.slot] := w.position.value; }
      if w.nVariants.Some? { nVariants[w.slot] := w.nVariants.value; }
      if w.score.Some? { scores[w.slot] := w.score.value; }
      if w.mapq.Some? { mapqs[w.slot] := w.mapq.value; }
    }

    /** `from_sam(n_alignments)` over the lines of a SAM file. */
    static method FromSam(n: int, lines: seq<string>) returns (r: Result<NumpyAlignments, LineFormats.LoadError>)
      ensures n < 0 ==> r == Err(LineFormats.ValueError)
      ensures n >= 0 && LineFormats.Run(LineFormats.Sam, n, lines).Err? ==> r == Err(LineFormats.Run(LineFormats.Sam, n, lines).error)
      ensures n >= 0 && LineFormats.Run(LineFormats.Sam, n, lines).Ok? ==>
        r.Ok? && fresh(r.value) && r.value.HasLength(n) && r.value.isCorrect == null &&
        fresh(r.value.chromosomes) && fresh(r.value.positions) && fresh(r.value.nVariants) &&
        fresh(r.value.scores) && fresh(r.value.mapqs) &&
        r.value.Columns() == LineFormats.Run(LineFormats.Sam, n, lines).value.columns
    {
      r := Load(LineFormats.Sam, n, lines);
    }

    /** `from_bed(n_alignments)` over the lines of a BED file. */
    static method FromBed(n: int, lines: seq<string>) returns (r: Result<NumpyAlignments, LineFormats.LoadError>)
      ensures n < 0 ==> r == Err(LineFormats.ValueError)
      ensures n >= 0 && LineFormats.Run(LineFormats.Bed, n, lines).Err? ==> r == Err(LineFormats.Run(LineFormats.Bed, n, lines).error)
      ensures n >= 0 && LineFormats.Run(LineFormats.Bed, n, lines).Ok? ==>
        r.Ok? && fresh(r.value) && r.value.HasLength(n) && r.value.isCorrect == null &&
        fresh(r.value.chromosomes) && fresh(r.value.positions) && fresh(r.value.nVariants) &&
        fresh(r.value.scores) && fresh(r.value.mapqs) &&
        r.value.Columns() == LineFormats.Run(LineFormats.Bed, n, lines).value.columns
    {
      r := Load(LineFormats.Bed, n, lines);
    }

    /** `from_truth(n_alignments)` over the lines of a truth file. */
    static method FromTruth(n: int, lines: seq<string>) returns (r: Result<NumpyAlignments, LineFormats.LoadError>)
      ensures n < 0 ==> r == Err(LineFormats.ValueError)
      ensures n >= 0 && LineFormats.Run(LineFormats.Truth, n, lines).Err? ==> r == Err(LineFormats.Run(LineFormats.Truth, n, lines).error)
      ensures n >= 0 && LineFormats.Run(LineFormats.Truth, n, lines).Ok? ==>
        r.Ok? && fresh(r.value) && r.value.HasLength(n) && r.value.isCorrect == null &&
        fresh(r.value.chromosomes) && fresh(r.value.positions) && fresh(r.value.nVariants) &&
        fresh(r.value.scores) && fresh(r.value.mapqs) &&
        r.value.Columns() == LineFormats.Run(LineFormats.Truth, n, lines).value.columns
    {
      r := Load(LineFormats.Truth, n, lines);
    }

    /** `from_vgpos(n_alignments)` over the lines of a vg position file. */
    static method FromVgpos(n: int, lines: seq<string>) returns (r: Result<NumpyAlignments, LineFormats.LoadError>)
      ensures n < 0 ==> r == Err(LineFormats.ValueError)
      ensures n >= 0 && LineFormats.Run(LineFormats.Vgpos, n, lines).Err? ==> r == Err(LineFormats.Run(LineFormats.Vgpos, n, lines).error)
      ensures n >= 0 && LineFormats.Run(LineFormats.Vgpos, n, lines).Ok? ==>
        r.Ok? && fresh(r.value) && r.value.HasLength(n) && r.value.isCorrect == null &&
        fresh(r.value.chromosomes) && fresh(r.value.positions) && fresh(r.value.nVariants) &&
        fresh(r.value.scores) && fresh(r.value.mapqs) &&
        r.value.Columns() == LineFormats.Run(LineFormats.Vgpos, n, lines).value.columns
    {
      r := Load(LineFormats.Vgpos, n, lines);
    }

    /** `from_pos(n_alignments)` over the lines of a pos file. */
    static method FromPos(n: int, lines: seq<string>) returns (r: Result<NumpyAlignments, LineFormats.LoadError>)
      ensures n < 0 ==> r == Err(LineFormats.ValueError)
      ensures n >= 0 && LineFormats.Run(LineFormats.Pos, n, lines).Err? ==> r == Err(LineFormats.Run(LineFormats.Pos, n, lines).error)
      ensures n >= 0 && LineFormats.Run(LineFormats.Pos, n, lines).Ok? ==>
        r.Ok? && fresh(r.value) && r.value.HasLength(n) && r.value.isCorrect == null &&
        fresh(r.value.chromosomes) && fresh(r.value.positions) && fresh(r.value.nVariants) &&
        fresh(r.value.scores) && fresh(r.value.mapqs) &&
        r.value.Columns() == LineFormats.Run(LineFormats.Pos, n, lines).value.columns
    {
      r := Load(LineFormats.Pos, n, lines);
    }
  }

  /**
    Classifying twice without forcing: the second call finds the first call's result
    cached and leaves `is_correct` (the same array, same contents) and `n_variants` as they were.
  */
  method ClassifyTwice(a: NumpyAlignments, truth: NumpyAlignments, allowedMismatch: int)
    requires a.Comparable(truth)
    modifies a
    ensures a.Comparable(truth) && a.isCorrect != null && a.isCorrect.Length == a.chromosomes.Length
    ensures forall i :: 0 <= i < a.isCorrect.Length ==>
      a.isCorrect[i] == if Matches(a.chromosomes[i], a.positions[i], truth.chromosomes[i], truth.positions[i], allowedMismatch) then 1 else 0
    ensures a.nVariants == old(truth.nVariants)
  {
    a.SetCorrectness(truth, true, allowedMismatch);
    var first, firstContents, firstVariants := a.isCorrect, a.isCorrect[..], a.nVariants;
    a.SetCorrectness(truth, false, allowedMismatch);
    assert a.isCorrect == first && a.isCorrect[..] == firstContents && a.nVariants == firstVariants;
  }
}
