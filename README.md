# numpy_alignments — a Dafny model of the alignment sets and the ROC sweep

numpy_alignments stores a set of read alignments as parallel NumPy arrays:
chromosome, position, alignment score, MAPQ and number of variants. The arrays are
indexed by a dense read id taken from the read name. The package fills these arrays
from SAM, BED, truth, vg-position and pos files. It marks each alignment correct or
wrong against a truth set. It then sweeps MAPQ thresholds from high to low and counts,
per aligner, how many reads were recalled and how many were wrong.

This project models that core in Dafny 4.11 and proves what it promises.

- `wrappers.dfy` (`Wrappers`): the `Option` and `Result` types. A Python exception is
  an `Err` or `None` value.
- `builtins.dfy` (`Builtins`): the Python and NumPy built-ins the loaders rely on,
  written out:
  - `str.split()` on ASCII whitespace;
  - `startswith`, substring `in`, `replace(p, "")` and `split("/")`;
  - `int()` on a token, with a sign and single underscores;
  - `str()` of an integer;
  - NumPy integer indexing, negative indices included.
- `encoding.dfy` (`Encoding`): `encode_chromosome` and `name_to_id`, with their
  round trips.
- `lineformats.dfy` (`LineFormats`): what each loader does with one line, and `Run`,
  the fold of a whole input. `Run` gives either the five columns or the exception that
  aborted the load. It is the specification of the loaders.
- `alignments.dfy` (`Alignments`): the class `NumpyAlignments`:
  - array fields and the constructor;
  - `__getitem__`;
  - `set_correctness`, a loop that builds a fresh `is_correct` array;
  - the five `from_*` class methods. Each calls `Load`, which raises ValueError for a
    negative size and otherwise hands over to `LoadLines`. `LoadLines` holds the one
    loop over the lines; it writes into five fresh zero-initialised arrays and is
    proved equal to `Run`.
- `comparison.dfy` (`Comparison`): the class `Comparer`:
  - `create_roc_plots` without the plotting, with the counting sweep as a method
    over arrays, proved against reference counts;
  - `get_wrong_alignments_correct_by_other`.

Modelling choices:

- Input lines are a `seq<string>` parameter in place of standard input.
- `n_alignments` is the parameter `n`, an integer. A negative value raises ValueError,
  because `np.zeros` of a negative size does (numpy_alignments.py:80, 162, 188, 220, 256).
- The counters are unbounded integers.
- Each ratio is an exact `Rate`: a real number, NaN or an infinity. A NumPy integer
  divided by a zero total gives nan or inf; it does not raise.
- The `compare_alignments` dictionary is two parallel sequences in insertion order:
  the keys `names` and the values `candidates`.

What the code does, where the names alone suggest otherwise:

- The second series of `create_roc_plots` is named `precision`. Each entry is the
  running number of wrong alignments divided by the category total (comparer.py:65).
- A read belongs to the "variants" or "nonvariants" category according to the truth
  set's `n_variants` (comparer.py:51-53). The candidate's own `n_variants` is not used.
- An unknown `type` raises only once the sweep reaches its first candidate
  (comparer.py:26-35). With an empty dictionary nothing is raised, but all
  candidates have already been classified.
- `__init__` checks nothing about the array shapes.
- `get_wrong_alignments_correct_by_other` prints the selected set and its size and
  returns nothing. The model returns the set.

## Model

| member | source | states |
|---|---|---|
| `Builtins.Fields` | numpy_alignments/numpy_alignments.py:93 | the fields of `line.split()` are non-empty and contain no whitespace; `FieldsCons` states that they are the words of the line, in order |
| `Builtins.WordOf` | numpy_alignments/numpy_alignments.py:93 | a run of non-whitespace followed by whitespace or the end of the line is exactly the first word |
| `Builtins.FieldsCons` | numpy_alignments/numpy_alignments.py:93 | `(w + " " + s).split()` is `[w]` followed by `s.split()`: every word kept, in order, nothing added |
| `Builtins.StartsWithConcat` | numpy_alignments/numpy_alignments.py:9 | `(p + t).startswith(p)` holds, and a string that starts with `p` is `p` followed by the rest (also numpy_alignments.py:90) |
| `Builtins.ContainsAt` | numpy_alignments/numpy_alignments.py:148-150 | the substring test `p in s` holds exactly when `p` occurs in `s` at some offset |
| `Builtins.RemoveAll` | numpy_alignments/numpy_alignments.py:124 | `replace(p, "")` never lengthens the string, and shortens it by at least `|p|` when it starts with `p`; `RemoveAllPrefix` and `RemoveAllAbsent` state what it leaves (also numpy_alignments.py:10) |
| `Builtins.RemoveAllPrefix` | numpy_alignments/numpy_alignments.py:124 | removing `p` from `p + s` gives `s` when `s` holds no `p`, as `("AS:i:" + v).replace("AS:i:", "")` gives `v` |
| `Builtins.RemoveAllAbsent` | numpy_alignments/numpy_alignments.py:10 | removing a substring that does not occur leaves the string unchanged |
| `Builtins.SplitOn` | numpy_alignments/numpy_alignments.py:26-29 | `split("/")` yields one part when there is no "/" and at least two parts when there is one |
| `Builtins.SplitOnConcat` | numpy_alignments/numpy_alignments.py:27-29 | `(a + "/" + b).split("/")` starts with `a` when `a` holds no "/" |
| `Builtins.ParseInt` | numpy_alignments/numpy_alignments.py:20 | `int()` of a token accepts only an optional leading sign, ASCII digits and underscores, not ending in an underscore; `ParseIntOfDecimal` proves it inverts `str()` (also numpy_alignments.py:28-29, 99, 137) |
| `Builtins.ParseIntOfDecimal` | numpy_alignments/numpy_alignments.py:20 | `int(str(k)) == k` for every integer k |
| `Builtins.NumpyIndex` | numpy_alignments/numpy_alignments.py:140-143 | an index is valid exactly when -n <= i < n; a negative index counts from the end |
| `Encoding.EncodeChromosome` | numpy_alignments/numpy_alignments.py:8-22 | `encode_chromosome`: an empty name raises; a name that holds no "chr" and is not "X", "Y" or "*" is read by `int()`; the round trip through `ChromosomeName` is `EncodeChromosomeName` |
| `Encoding.EncodeChromosomeName` | numpy_alignments/numpy_alignments.py:8-22 | every code round-trips through its name ("X" is 23, "Y" is 24, "*" is -1, digits otherwise), with or without a "chr" prefix |
| `Encoding.ChrPrefixIgnored` | numpy_alignments/numpy_alignments.py:9-10 | a "chr" prefix does not change the encoding of a name that holds no other "chr" |
| `Encoding.NameToId` | numpy_alignments/numpy_alignments.py:25-32 | `name_to_id`: an empty name raises; a name with "/" succeeds exactly when both of its first two parts are integers; the value is given by `NameToIdPaired` and `NameToIdPlain` |
| `Encoding.NameToIdPaired` | numpy_alignments/numpy_alignments.py:25-30 | the name "r/p" maps to 2r + p - 1 |
| `Encoding.NameToIdPlain` | numpy_alignments/numpy_alignments.py:31-32 | a name without "/" maps to its own integer value |
| `Encoding.MatesAreAdjacent` | numpy_alignments/numpy_alignments.py:25-30 | mates 1 and 2 of read r take the adjacent slots 2r and 2r+1 |
| `LineFormats.ZeroColumns` | numpy_alignments/numpy_alignments.py:80-84 | the five initial columns hold n zeros each |
| `LineFormats.SamIdentifier` | numpy_alignments/numpy_alignments.py:107-118 | in paired-end mode a name without "/" gives 2·id, plus 1 when the flag is at least 128, and raises when `name_to_id` does; otherwise the id is `name_to_id` of the name |
| `LineFormats.SamVariantTag` | numpy_alignments/numpy_alignments.py:148-152 | a line sets `n_variants` exactly when it holds "NVARIANTS:", always to 0 or 1, and to 0 only when it holds "NVARIANTS:i:0"; `SamVariantFlag` gives all three cases both ways |
| `LineFormats.SamLine` | numpy_alignments/numpy_alignments.py:88-152 | a SAM line that is written lands in a slot inside the arrays; a skipped line has no effect; no line switches paired-end mode off |
| `LineFormats.BedLine` | numpy_alignments/numpy_alignments.py:168-182 | a BED line that loads writes a slot inside the arrays |
| `LineFormats.TruthLine` | numpy_alignments/numpy_alignments.py:194-214 | a truth line that loads writes a slot inside the arrays |
| `LineFormats.VgposLine` | numpy_alignments/numpy_alignments.py:226-250 | line i of a vg position file writes slot i, and i must be below n |
| `LineFormats.PlainChromosome` | numpy_alignments/numpy_alignments.py:231-243 | the vg and pos chromosome field ("X", "Y", "null" or an integer): an empty field fails, and a "chr" name fails because, unlike `encode_chromosome`, nothing strips "chr" (also numpy_alignments.py:267-274) |
| `LineFormats.NullablePosition` | numpy_alignments/numpy_alignments.py:244-247 | a position field: an empty field fails, and a non-zero result is always the field read by `int()` ("null" is the only other accepted value, read as 0) (also numpy_alignments.py:276-279) |
| `LineFormats.PosLine` | numpy_alignments/numpy_alignments.py:262-287 | a pos line that loads writes a slot inside the arrays |
| `LineFormats.Run` | numpy_alignments/numpy_alignments.py:88-288 | the line loops of the five loaders (lines 88-154, 168-183, 194-215, 226-251, 262-288) as one fold: a load that does not raise returns five columns of length n |
| `LineFormats.RunStaysFailed` | numpy_alignments/numpy_alignments.py:171-176 | once a line raises, the whole load has failed with that exception |
| `LineFormats.UntouchedSlotsStayZero` | numpy_alignments/numpy_alignments.py:162-184 | every slot that no line writes is still 0 in all five columns |
| `LineFormats.SamStep` | numpy_alignments/numpy_alignments.py:88-100 | a SAM step does not depend on the line number, and a skipped line changes nothing |
| `LineFormats.SamIgnoresSkippedLines` | numpy_alignments/numpy_alignments.py:90-100 | headers, lines with fewer than two fields and non-primary alignments (flag >= 256) have no effect on the load |
| `LineFormats.SamSlotOfNumericName` | numpy_alignments/numpy_alignments.py:102-118 | after a written line, paired-end mode is on exactly when it was on before or the line's 7th field is not "*"; the record of a numeric name r lands in slot 2r or 2r+1 (flag >= 128) in paired-end mode and in slot r otherwise |
| `LineFormats.PairedEndStaysOn` | numpy_alignments/numpy_alignments.py:102-105 | once a prefix of the input has switched `from_sam` to paired-end mode, it is still on at the end of a load that does not raise |
| `LineFormats.SamVariantFlag` | numpy_alignments/numpy_alignments.py:148-152 | `n_variants` becomes 0 for "NVARIANTS:i:0", 1 for any other "NVARIANTS:" tag, and is left alone otherwise (all three cases, both directions) |
| `LineFormats.TruthVariantField` | numpy_alignments/numpy_alignments.py:207-214 | a truth line stores its 8th field as `n_variants`, or 0 when the line is shorter |
| `LineFormats.VgposNullFields` | numpy_alignments/numpy_alignments.py:229-247 | a vg line is stored at its line number, and "null" is read as chromosome 0 or position 0 |
| `Alignments.NumpyAlignments.constructor` | numpy_alignments/numpy_alignments.py:36-42 | the object holds exactly the given arrays; `is_correct` defaults to null |
| `Alignments.NumpyAlignments.Get` | numpy_alignments/numpy_alignments.py:45-54 | returns the item-th entry of every column with NumPy indexing (negative counts from the end), or IndexError; `is_correct` is None exactly while it is null or empty |
| `Alignments.Matches` | numpy_alignments/numpy_alignments.py:69 | the correctness rule: same chromosome and positions at most `allowed_mismatch` apart, so a negative tolerance marks nothing correct; `SetCorrectness` applies it per read |
| `Alignments.NumpyAlignments.SetCorrectness` | numpy_alignments/numpy_alignments.py:56-72 | on a cache hit nothing changes; otherwise `is_correct` is a fresh array with 1 exactly where the chromosome matches the truth and the position is within `allowed_mismatch` (default 150), and `n_variants` becomes the truth's array; the other columns are untouched |
| `Alignments.NumpyAlignments.Load` | numpy_alignments/numpy_alignments.py:79-84 | a negative size raises ValueError; otherwise the result is that of `LoadLines`: the exception `Run` gives, or five fresh length-n columns equal to `Run`'s, with `is_correct` unset |
| `Alignments.NumpyAlignments.LoadLines` | numpy_alignments/numpy_alignments.py:88-288 | the line loop shared by the five loaders (lines 88-154, 168-183, 194-215, 226-251, 262-288) returns exactly what `Run` specifies: the same exception, or five fresh arrays of length n equal to `Run`'s columns, with `is_correct` unset |
| `Alignments.NumpyAlignments.WriteSlot` | numpy_alignments/numpy_alignments.py:140-143 | writing one line's values into the five arrays gives exactly `Apply` of that write: the slot's given columns take the new values and every other entry keeps its value (also numpy_alignments.py:181-182, 212-214, 249-250, 281-285) |
| `Alignments.NumpyAlignments.FromSam` | numpy_alignments/numpy_alignments.py:78-157 | `from_sam` raises ValueError for a negative size, otherwise raises exactly the exception `Run(Sam)` gives, or returns five fresh arrays holding `Run(Sam)`'s columns |
| `Alignments.NumpyAlignments.FromBed` | numpy_alignments/numpy_alignments.py:161-184 | `from_bed` raises ValueError for a negative size, otherwise raises exactly the exception `Run(Bed)` gives, or returns five fresh arrays holding `Run(Bed)`'s columns |
| `Alignments.NumpyAlignments.FromTruth` | numpy_alignments/numpy_alignments.py:187-216 | `from_truth` raises ValueError for a negative size, otherwise raises exactly the exception `Run(Truth)` gives, or returns five fresh arrays holding `Run(Truth)`'s columns |
| `Alignments.NumpyAlignments.FromVgpos` | numpy_alignments/numpy_alignments.py:219-252 | `from_vgpos` raises ValueError for a negative size, otherwise raises exactly the exception `Run(Vgpos)` gives, or returns five fresh arrays holding `Run(Vgpos)`'s columns |
| `Alignments.NumpyAlignments.FromPos` | numpy_alignments/numpy_alignments.py:255-289 | `from_pos` raises ValueError for a negative size, otherwise raises exactly the exception `Run(Pos)` gives, or returns five fresh arrays holding `Run(Pos)`'s columns |
| `Alignments.ClassifyTwice` | numpy_alignments/numpy_alignments.py:56-72 | a second unforced `set_correctness` keeps the first result: the correctness marks and the truth's `n_variants` |
| `Comparison.ParseCategory` | numpy_alignments/comparer.py:28-35 | "all", "variants" and "nonvariants" are the only accepted types, each iff |
| `Comparison.CategoryCount` | numpy_alignments/comparer.py:28-33 | a category total never exceeds the number of reads, and "all" counts every read |
| `Comparison.CategoryTotal` | numpy_alignments/comparer.py:28-33 | the total is at most the length of the truth's `n_variants` |
| `Comparison.CategoriesPartitionReads` | numpy_alignments/comparer.py:29-33 | with non-negative variant counts, the "variants" and "nonvariants" totals add up to the "all" total |
| `Comparison.InBucket` | numpy_alignments/comparer.py:48-53 | the selection test of one sweep step: MAPQ in [lower, upper) and the truth read in the category, so an empty range selects nothing; `SelectionMembers` ties it to the selection |
| `Comparison.Selection` | numpy_alignments/comparer.py:48-53 | the selection lists read ids below n, at most n of them |
| `Comparison.SelectionMembers` | numpy_alignments/comparer.py:48-53 | a read is selected iff its MAPQ lies in [lower, upper) and its truth category matches |
| `Comparison.SumAt` | numpy_alignments/comparer.py:58 | `np.sum(is_correct[selection])`: with 0/1 marks it is between 0 and the size of the selection; `SelectionCounts` equates it with `BucketCorrect` |
| `Comparison.SelectionCounts` | numpy_alignments/comparer.py:58-59 | the size of the selection and the sum of its correctness marks equal the reference counts `BucketSize` and `BucketCorrect` |
| `Comparison.BucketCountsBounded` | numpy_alignments/comparer.py:58-59 | with 0/1 marks, the correct count of a bucket is between 0 and its size, so `n_wrong` is never negative |
| `Comparison.SplitBucket` | numpy_alignments/comparer.py:41-53 | the counts of [lo, mid) and [mid, hi) add up to the counts of [lo, hi) |
| `Comparison.MapqIntervalsShape` | numpy_alignments/comparer.py:16 | the MAPQ breakpoints strictly descend from below 100 to 0 |
| `Comparison.BucketsDisjoint` | numpy_alignments/comparer.py:41-67 | no read falls in two buckets of the sweep |
| `Comparison.TotalsNonDecreasing` | numpy_alignments/comparer.py:61-62 | lowering the threshold never lowers the recalled or the wrong totals |
| `Comparison.LowestBreakpointCoversCategory` | numpy_alignments/comparer.py:28-33 | the buckets down to 0 cover every category read with MAPQ below 100; when all MAPQs are below 100 that is the whole category total |
| `Comparison.SweepStep` | numpy_alignments/comparer.py:44-62 | each step adds exactly its bucket's correct and wrong counts to the running totals |
| `Comparison.Quotient` | numpy_alignments/comparer.py:64-65 | one series entry: finite exactly when the total is positive (otherwise nan or an infinity), and in [0, 1] for a count between 0 and the total |
| `Comparison.RecallSeries` | numpy_alignments/comparer.py:64 | one recall point per breakpoint |
| `Comparison.PrecisionSeries` | numpy_alignments/comparer.py:65 | one wrong-rate point per breakpoint |
| `Comparison.SeriesNonDecreasing` | numpy_alignments/comparer.py:61-65 | both series are non-decreasing along the sweep |
| `Comparison.SweepEndsWithWholeCategory` | numpy_alignments/comparer.py:41-65 | at the last breakpoint, recalled plus wrong is every category read below MAPQ 100, and recalled is every correct one |
| `Comparison.LastPointsSumToOne` | numpy_alignments/comparer.py:28-65 | when every MAPQ is in [0, 100), the last recall and the last wrong rate add up to 1 |
| `Comparison.Sweep` | numpy_alignments/comparer.py:38-67 | the counting loop yields, per breakpoint, the running recalled and wrong totals, equal to the reference counts, and both series |
| `Comparison.Lookup` | numpy_alignments/comparer.py:85-87 | a dictionary lookup finds the position of the key, or fails (KeyError) exactly when the key is absent |
| `Comparison.LookupDistinct` | numpy_alignments/comparer.py:85-87 | with distinct keys, the lookup of the k-th key is k |
| `Comparison.Zip` | numpy_alignments/comparer.py:23-24 | the result dictionary has exactly the candidates' names as keys, each mapped to its own series |
| `Comparison.Comparer.constructor` | numpy_alignments/comparer.py:9-12 | the comparer holds the truth, the dictionary and the type, which defaults to "all" |
| `Comparison.Comparer.SetAllCorrectness` | numpy_alignments/comparer.py:18-20 | every candidate is classified against the truth (or keeps its cached marks), and the truth and the other columns are untouched |
| `Comparison.Comparer.SweepAll` | numpy_alignments/comparer.py:23-67 | each candidate's name maps to the recall and wrong-rate series of its own sweep |
| `Comparison.Comparer.CreateRocPlots` | numpy_alignments/comparer.py:15-67 | fails exactly when there is a candidate and the type is unknown; otherwise both dictionaries have the candidates' names as keys and hold each one's series; every candidate is classified first |
| `Comparison.Comparer.GetWrongAlignmentsCorrectByOther` | numpy_alignments/comparer.py:84-89 | a read is selected iff `correct_by` marks it correct, `wrong_by` marks it wrong and gives it MAPQ >= 30; a missing name or unset marks is an error |

## Left out

- Reading standard input, the `tqdm` progress bar and `logging` are not modelled. The lines are a parameter. The `show_error` flag of `from_sam` is kept in the state, but it only decides whether a message is logged.
- The `i` counter of `from_sam` (numpy_alignments.py:88, 154) is never read and is not modelled.
- `to_file` and `from_file` use the file system and are not modelled. `to_file` saves an unset `is_correct` as an empty array (numpy_alignments.py:299). That is why `Get` treats an empty `is_correct` as unset.
- The plotting and printing in `create_roc_plots` (comparer.py:55, 69-82) are not modelled. The model returns the two dictionaries of series in their place.
- `Comparison.Comparer.CreateRocPlots`: the text of the exception for an unknown type is not modelled. The source formats the built-in `type`, not `self.type`.
- `Comparison.Comparer.GetWrongAlignmentsCorrectByOther`: the source prints the set and its size and returns nothing. The model returns the set.
- `Comparison.Comparer.GetWrongAlignmentsCorrectByOther`: NumPy's behaviour on an unset `is_correct` (None) depends on the version. The model reports it as an error.
- The `compare` stub (numpy_alignments.py:315-316), the `__main__` block (numpy_alignments.py:319-321) and the unused `graph_read_simulator` import (numpy_alignments.py:5) are not modelled.
- command_line_interface.py, htmlreport.py and setup.py are not part of this model.
- `LineFormats.SamLine`, `LineFormats.BedLine`, `LineFormats.TruthLine`, `LineFormats.VgposLine`, `LineFormats.PosLine`: the NumPy column types are not modelled (uint8 chromosome, n_variants and MAPQ; uint16 score; int32 position). Values are stored as unbounded integers. A value outside a column's range, such as -1 for an unmapped chromosome in a uint8 column, wraps or raises in NumPy; the model stores it as it is.
- `Alignments.NumpyAlignments.SetCorrectness`: the int32 overflow of `positions - truth.positions` is not modelled. The difference is exact.
- `Alignments.NumpyAlignments.SetCorrectness` and `Comparison.Comparer.SetAllCorrectness`: NumPy broadcasting is not modelled. Both require arrays of one common length; with other lengths NumPy either broadcasts or raises.
- `Comparison.Sweep`: with `is_correct` values other than 0 and 1 the wrong count can go negative. The monotonicity lemmas assume 0/1 marks, which is what `set_correctness` produces.
- `Builtins.Fields` and `Builtins.ParseInt`: only ASCII whitespace and ASCII digits are modelled. Python's `split()` also splits on Unicode whitespace, and `int()` also accepts non-ASCII digits and surrounding whitespace.
