# ChartData in Dafny

A verified model of `ChartData`, the data backend of ChartApp, a Qt/QML radar
chart. `ChartData` reads delimited text (CSV or TSV) into axis labels and
named numeric series. It computes a minimum and maximum per axis, and can
rescale every series into [0, 1] per axis ("normalise per axis"). When it
does not normalise, it can compute one global value scale ("autoscale"). It
also remembers the last file it loaded so that the file can be reloaded.

The model follows the source file by file:

| module (file) | models |
|---|---|
| `Wrappers` (wrappers.dfy) | `Option` and `Result` |
| `Text` (text.dfy) | `QString::trimmed`, `toLower`, `contains`, case-insensitive `endsWith` and the decimal rendering of `%1` (ASCII only) |
| `Tokenizer` (tokenizer.dfy) | `splitKeepEmpty` and `splitSkipEmpty`, as loops proved against the functions `Fields` and `NonBlankTrimmed` |
| `Datasets` (datasets.dfy) | a series (name and values); a value is `Option<real>`, `None` being what `toDouble(&ok)` rejects |
| `Ranges` (ranges.dfy) | `computeAxisRanges` and the autoscale fold of `setData`, as loops over arrays and sequences proved against fold functions |
| `Normalize` (normalize.dfy) | `normalizePerAxisDatasets` |
| `TableParser` (table_parser.dfy) | the parsing body of `loadGeneric`: header detection, the label column, row reading |
| `Chart` (chart.dfy) | the store. `ChartState` holds every field as a value, and `AfterSetData`, `AfterLoad` and the other `After...` functions give each operation as a transition. The class `ChartData` has the same fields and performs each operation in place; each method's `ensures` equates its new `Snapshot()` with the transition. |
| `Scenarios` (scenarios.dfy) | worked examples: a labelled table, an unlabelled table, a malformed field, the axis ranges and the normalised values of the labelled table |

Modelling choices:
- Values are `real`. The `1e300` sentinels of the folds become "no number
  seen yet" (`None`), and `qFuzzyCompare` is exact equality.
- Reading a number (`QString::toDouble`) is a parameter,
  `parse: string -> Option<real>`.
- A file is the sequence of lines `QTextStream::readLine` yields.
  `FileStatus` says whether the path is missing, cannot be opened, or holds
  lines. `loadCsv`, `loadTsv` and `reloadLastCsv` take the file system as a
  function `fs: string -> FileStatus`.
- The change notifications are recorded in emission order in the field
  `signals`.
- The invariant `Valid()` (`Consistent`) holds after every operation:
  - the axis ranges are those of the raw series for the current labels;
  - the displayed series match the raw ones in count and names;
  - while there are labels and data, the displayed series are what the
    current mode derives from the raw ones.

  The last part is guarded because `setNormalizePerAxis` only re-derives the
  displayed series when labels and raw data are both non-empty
  (ChartData.cpp:411). With raw data but no labels, switching the mode leaves
  the displayed series as they were.

Points of the code's behaviour that the model keeps exactly:
- Notification order. `setData` emits `axisRangesChanged` straight after
  recomputing the ranges, then `minMaxChanged` (only when normalising or
  autoscaling), then `labelsChanged`, then `datasetsChanged`
  (ChartData.cpp:181-232).
- Row length. A parsed row stores exactly its tokens (ChartData.cpp:328-334).
  Padding happens only in the range and normalisation code, which reads a
  missing cell as absent or as 0.
- Last path. `loadGeneric` sets `m_lastCsvPath` itself on a successful load,
  before calling `setData` (ChartData.cpp:348).
- Reload with nothing loaded. `reloadLastCsv` returns false when no path is
  stored (ChartData.cpp:389-390), and so does `AfterReload`.

## Model

| member | source | states |
|---|---|---|
| Text.Trim | ChartData.cpp:37 | The trimmed string is no longer than the input, and it is empty or neither starts nor ends with whitespace. |
| Text.TrimStartDropsSpace | ChartData.cpp:37 | Trimming the start removes only whitespace. |
| Text.TrimEndDropsSpace | ChartData.cpp:37 | Trimming the end removes only whitespace. |
| Text.TrimEmptyIffBlank | ChartData.cpp:310 | A line trims to empty exactly when it is all whitespace, so exactly the blank lines are skipped. |
| Text.ToLower | ChartData.cpp:292 | Lower-casing keeps the length; each letter A-Z becomes the character 32 code points higher (its lower-case letter), and every other character is left alone. |
| Text.DecimalStringIsNumeral | ChartData.cpp:319 | The number in a generated series name is a non-empty string of digits with no leading zero. |
| Text.DecimalStringValue | ChartData.cpp:319 | Read back as a decimal numeral, the generated number string denotes exactly the number it was made from. |
| Tokenizer.SplitKeepEmpty | ChartData.cpp:13-28 | The loop returns exactly the fields between delimiters (`Fields`); an empty line gives one empty field. |
| Tokenizer.FieldsCount | ChartData.cpp:13-28 | The number of fields is the number of delimiter occurrences plus one. |
| Tokenizer.FieldsAvoidDelimiter | ChartData.cpp:18-26 | No field contains the delimiter. |
| Tokenizer.JoinFields | ChartData.cpp:13-28 | Joining the fields with the delimiter gives back the original line. |
| Tokenizer.FieldsJoin | ChartData.cpp:13-28 | Splitting a join of delimiter-free pieces gives back those pieces, so `Fields` and `Join` are inverses. |
| Tokenizer.SplitSkipEmpty | ChartData.cpp:30-42 | The loop returns the trimmed fields that are not empty, in their original order (`NonBlankTrimmed`). |
| Tokenizer.NonBlankTrimmedFields | ChartData.cpp:35-40 | Every kept field is non-empty and already trimmed, and no more fields are kept than were given. |
| Tokenizer.NonBlankTrimmedOrigin | ChartData.cpp:35-40 | Every kept field is the trim of one of the given fields. |
| Tokenizer.NonBlankTrimmedAppend | ChartData.cpp:35-40 | Filtering distributes over concatenation, so the relative order of the fields is kept. |
| Tokenizer.NonBlankTrimmedIdentity | ChartData.cpp:30-42 | A line whose fields are all non-empty and trimmed is split the same way by both splitters. |
| Tokenizer.TrimIdempotent | ChartData.cpp:37 | Trimming a trimmed string changes nothing. |
| Ranges.Lower | ChartData.cpp:91 | `qMin` with a running minimum is at most both operands and equals one of them. |
| Ranges.Higher | ChartData.cpp:92 | `qMax` with a running maximum is at least both operands and equals one of them. |
| Ranges.LowIsLeast | ChartData.cpp:78-96 | The minimum fold finds nothing exactly when there is no number, and otherwise finds the least number. |
| Ranges.HighIsGreatest | ChartData.cpp:78-96 | The maximum fold finds nothing exactly when there is no number, and otherwise finds the greatest number. |
| Ranges.FoldsDependOnlyOnNumbers | ChartData.cpp:78-96 | Both folds depend only on the set of numbers present, not on their order, repetition or the non-numbers between them. |
| Ranges.Settle | ChartData.cpp:99-108 | The repaired range is strict. It is (0, 1) when no number was seen or the pair is inverted, and (v, v + 1) when the minimum and maximum are both v. Otherwise it is the folded pair. |
| Ranges.AxisFoldIsColumnFold | ChartData.cpp:78-96 | Scanning the series in order for axis i folds the column of cells at index i. |
| Ranges.AxisRangeSpec | ChartData.cpp:68-118 | Each axis range is strict and holds every number on that axis. The minimum is the least number. The maximum is the greatest number, or the minimum + 1 when all numbers are equal. An axis with no number gets (0, 1). |
| Ranges.AxisRangeIgnoresSeriesOrder | ChartData.cpp:78-96 | Any permutation of the series gives the same axis range. |
| Ranges.AxisRangesIgnoreTrailingCells | ChartData.cpp:83-85 | Cells at index N or beyond, with N the number of labels, do not affect the N ranges. |
| Ranges.FoldSeriesAxes | ChartData.cpp:83-95 | The inner loop updates both arrays in place, extending each axis's running minimum and maximum by one more series. |
| Ranges.ComputeAxisRanges | ChartData.cpp:68-118 | The method returns one minimum and one maximum per label, equal to the specified per-axis ranges (`AxisMins`, `AxisMaxs`). |
| Ranges.GlobalRangeSpec | ChartData.cpp:198-223 | The global range is strict and holds every number of every series at every index, not only the first N. With no number it is (0, 1); otherwise its low end is the least number and its high end the greatest, or the least plus one when all numbers are equal. |
| Ranges.FoldSeries | ChartData.cpp:203-213 | Folding one series' values extends the running minimum and maximum to the fold of everything seen. |
| Ranges.GlobalMinMax | ChartData.cpp:198-223 | The autoscale loop computes exactly the global range. |
| Normalize.AxisRangesFit | ChartData.cpp:149-152 | Every computed axis range is strict, so normalisation never divides by zero. |
| Normalize.Scale | ChartData.cpp:152-154 | The clamped ratio lies in [0, 1]. It is 0 at or below the minimum and 1 at or above the maximum. In between, ratio × width = value − minimum. |
| Normalize.NormalizeAll | ChartData.cpp:130-166 | Normalising keeps the number, order and names of the series, and gives each exactly N values, all numbers in [0, 1]. |
| Normalize.NormalizeEndpoints | ChartData.cpp:139-156 | A cell equal to its axis minimum becomes 0 and one equal to its axis maximum becomes 1. A missing or non-numeric cell is normalised as 0. |
| Normalize.NormalizeObservedExtremes | ChartData.cpp:124-167 | With the computed ranges, the least number on an axis becomes 0. The greatest becomes 1 unless all numbers on the axis are equal, and on such a constant axis every number becomes 0. |
| Normalize.NormalizePerAxisDatasets | ChartData.cpp:124-167 | The nested loops build exactly `NormalizeAll` of the raw series. |
| TableParser.FirstNonBlank | ChartData.cpp:271-278 | The header index is at most the line count, and when it is below the count it points at a non-blank line. |
| TableParser.BlankBeforeFirstNonBlank | ChartData.cpp:273-278 | Every line before the header is blank. |
| TableParser.FirstNonBlankIs | ChartData.cpp:271-278 | The header is the line that is not blank and has only blank lines before it. |
| TableParser.RowsFollowNonBlankLines | ChartData.cpp:307-340 | Row k is read from the k-th non-blank body line and gets number k + 1. |
| TableParser.RowCount | ChartData.cpp:307-311 | There are as many rows as non-blank body lines. |
| TableParser.RowsAreNumbered | ChartData.cpp:319 | Without a label column, the k-th row is named "Series k". |
| TableParser.RowShape | ChartData.cpp:313-334 | A row has one value per field, less the name field when there is a label column, and is never padded. Every value is a number. The name is the trimmed first token or the generated name. |
| TableParser.HeaderLabels | ChartData.cpp:286-302 | The header names a label column if and only if its first non-empty trimmed field is the marker; the labels are then exactly the remaining non-empty trimmed fields, and otherwise all of them; every label is non-empty and trimmed. |
| TableParser.ParseTableEmptyHeader | ChartData.cpp:271-284 | The parse fails with `EmptyHeader` exactly when every line is blank. |
| TableParser.ParseTableOutcome | ChartData.cpp:286-346 | Given a header, the parse succeeds exactly when there is a label and a non-blank body line; otherwise it fails with `NoData`. On success the labels are clean and there is one row per non-blank body line. |
| TableParser.RowRoundTrip | ChartData.cpp:313-337 | A name and tokens joined by the delimiter read back as that name and the numbers the tokens stand for. |
| TableParser.RenderedRowReadsBack | ChartData.cpp:309-337 | A rendered row is not blank and reads back as its name and numbers. |
| TableParser.RowsReadBack | ChartData.cpp:307-340 | A body of rendered rows reads back as exactly those series, in order. |
| TableParser.LabelIsMarker | ChartData.cpp:292-293 | "label" marks a label column. |
| TableParser.LabelHeaderReadsBack | ChartData.cpp:286-302 | The header "label" followed by clean labels is not blank, is its own trim, and reads back as those labels with a label column. |
| TableParser.TableRoundTrip | ChartData.cpp:271-346 | A table written as a "label" header and rendered rows parses back into exactly those labels and series. |
| TableParser.TrimTokens | ChartData.cpp:314 | Every token is trimmed. |
| TableParser.ReadValues | ChartData.cpp:328-334 | The tokens from the start index on are read as numbers, 0 for a token that is not one. |
| TableParser.ParseRow | ChartData.cpp:309-339 | One body line becomes exactly the series `RowOf` specifies. |
| TableParser.ParseHeader | ChartData.cpp:286-302 | The header method finds the label-column flag and the labels `HeaderOf` specifies. |
| TableParser.FindHeader | ChartData.cpp:272-278 | The loop stops at the first non-blank line and returns it trimmed. It returns empty text exactly when every line is blank. |
| TableParser.ReadRows | ChartData.cpp:307-340 | The row loop returns exactly `Rows` of the body. |
| TableParser.ParseLines | ChartData.cpp:271-346 | The parsing body of `loadGeneric` computes exactly `ParseTable`. |
| Chart.DisplayShape | ChartData.cpp:183-194 | The displayed series keep the count and names. Normalised, each holds one value in [0, 1] per label; otherwise they are the raw series. |
| Chart.ConsistentRanges | ChartData.cpp:180 | In a consistent store there is one strict range per label, and every raw number on an axis lies within it. |
| Chart.SetDataStores | ChartData.cpp:173-233 | `setData` stores the labels and raw series and leaves the store consistent. It keeps the flags and the path. It emits axis ranges, min/max (only when recomputed), labels, then datasets. |
| Chart.SetDataScale | ChartData.cpp:183-228 | Normalising gives the scale (0, 1). Otherwise the raw series are displayed, and autoscale sets the scale to the global range of all series, a strict range holding every number at every index. With neither flag the scale is unchanged. |
| Chart.ClearEmpties | ChartData.cpp:239-250 | `clearData` empties the labels, both series lists and the ranges. It keeps the scale, the flags and the path, and leaves the store consistent. |
| Chart.LoadOutcome | ChartData.cpp:255-351 | A load succeeds exactly when the file is readable and parses, and a failed load changes nothing, the path included. A successful load records the path and passes non-empty labels and rows to `setData`. |
| Chart.LoadBlankFileFails | ChartData.cpp:272-284 | A file with only blank lines fails to load and changes nothing. |
| Chart.LoadKeepsConsistent | ChartData.cpp:255-351 | Every load, successful or not, leaves the store consistent. |
| Chart.LoadRoundTrip | ChartData.cpp:255-351 | Loading a rendered table succeeds, records the path and stores exactly the written labels and series. With normalisation off it displays the written numbers. |
| Chart.ReloadDelimiterIgnoresCase | ChartData.cpp:392-393 | The reload delimiter does not depend on the letter case of the path. |
| Chart.ReloadDelimiterExamples | ChartData.cpp:392-396 | Paths ending in ".TSV" or ".txt" reload with a tab; ".csv" and "tsv" with no dot reload with a comma. |
| Chart.ReloadOutcome | ChartData.cpp:387-397 | With no stored path, a reload fails and changes nothing. Otherwise it loads that path with the delimiter its suffix selects. The path is unchanged either way. |
| Chart.SetNormalizeSpec | ChartData.cpp:403-413 | Setting the current value does nothing, and setting it twice equals setting it once. The flag ends as requested and the store stays consistent. |
| Chart.SetNormalizeRederives | ChartData.cpp:403-413 | With labels and data, switching the mode displays what that mode derives from the raw series, and switching back restores the displayed series. |
| Chart.SetBoundsCommute | ChartData.h:46-47 | The two bounds are set independently, in either order, without checking the data or each other. Nothing else changes except the notifications. |
| Chart.SettersKeepConsistent | ChartData.h:46-50 | The inline setters keep the store consistent. `setAutoscale` changes neither the displayed series nor the scale. |
| Chart.InitialState | ChartData.cpp:48-62 | A new store normalises per axis, has autoscale off, scale (0, 1), the four sample axes and no path. Its two sample series are displayed normalised into [0, 1]. |
| Chart.ChartData.constructor | ChartData.cpp:48-62 | The constructor sets the field defaults (ChartData.h:75-78), then runs `setData` on the sample data. |
| Chart.ChartData.SetData | ChartData.cpp:173-233 | The new state is `AfterSetData` of the old one, and the store stays valid. |
| Chart.ChartData.ClearData | ChartData.cpp:239-250 | The new state is `AfterClear` of the old one, and the store stays valid. |
| Chart.ChartData.LoadGeneric | ChartData.cpp:255-351 | The result and the new state are `AfterLoad`, and the store stays valid. |
| Chart.ChartData.LoadCsv | ChartData.cpp:357-366 | The method loads the path with a comma delimiter. |
| Chart.ChartData.LoadTsv | ChartData.cpp:372-381 | The method loads the path with a tab delimiter. |
| Chart.ChartData.ReloadLastCsv | ChartData.cpp:387-397 | The result and the new state are `AfterReload`, and the store stays valid. |
| Chart.ChartData.SetNormalizePerAxis | ChartData.cpp:403-413 | The new state is `AfterSetNormalize`, and the store stays valid. |
| Chart.ChartData.SetMinValue | ChartData.h:46 | Only the minimum changes, and one `minMaxChanged` is emitted. |
| Chart.ChartData.SetMaxValue | ChartData.h:47 | Only the maximum changes, and one `minMaxChanged` is emitted. |
| Chart.ChartData.SetAutoscale | ChartData.h:50 | Only the flag changes, and one `autoscaleChanged` is emitted. |
| Scenarios.HeaderExample | ChartData.cpp:286-298 | "label,A,B" has a label column and the axes A and B. |
| Scenarios.LabelledTable | ChartData.cpp:271-340 | "label,A,B / x,1,2 / y,3,4" parses to axes A, B and series x = [1, 2], y = [3, 4]. |
| Scenarios.UnlabelledTable | ChartData.cpp:319 | "A,B / 1,2 / 3,4" parses to series named "Series 1" and "Series 2". |
| Scenarios.MalformedTable | ChartData.cpp:328-334 | In "label,A,B / x,foo,2" the token "foo" becomes 0 and the load still succeeds. |
| Scenarios.LabelledRanges | ChartData.cpp:68-118 | The labelled example has axis ranges A = (1, 3) and B = (2, 4). |
| Scenarios.LabelledNormalized | ChartData.cpp:124-167 | Normalised per axis against the axis ranges computed from it, the labelled example gives x = [0, 0] and y = [1, 1]. |

## Left out

- File input (`QFile::exists`, `open`, `QTextStream`; ChartData.cpp:257-269):
  a file is given as its status and its lines. The text-mode line splitting
  and the decoding of the file are not modelled.
- `file://` URL resolution in `loadCsv` and `loadTsv` (ChartData.cpp:359-363)
  relies on `QUrl`, which is not part of this model. The methods receive the
  already resolved path.
- `QString::toDouble`: its grammar and its NaN and overflow behaviour are not
  modelled. It is the parameter `parse`.
- Floating point: values are `real`, so rounding, NaN, infinities and the
  `1e300` sentinels are not modelled. A number above 1e300 or below -1e300
  would not move the source's sentinels; the model has no such limit.
- Ranges.Settle: uses exact equality where the source uses `qFuzzyCompare`.
  Nearly equal but distinct minima and maxima therefore keep their own width
  in the model, where the source would widen them to min + 1.
- Title and colours (`setTitle`, `setColors`, `titleChanged`,
  `colorsChanged`, the colour list in the constructor): plain setters with no
  logic.
- `Q_PROPERTY` plumbing and the getters (ChartData.h:9-35): the getters
  return fields unchanged, so the model reads the class fields directly.
  `datasets` is the displayed list, `rawDatasets` the raw one.
- `QVariant` maps: a series is a datatype with a name and values, not a map
  with "label" and "data" keys. A value that `toDouble` rejects is `None`.
- `qWarning` logging on failure.
- Unicode: trimming, lower-casing and the case-insensitive suffix test use
  ASCII whitespace and ASCII letters only.
- Loop structure: the loops inside `loadGeneric`, `computeAxisRanges` and
  `setData` are modelled as separate methods with the same loop bodies
  (`FindHeader`, `ParseHeader`, `ReadRows`, `ParseRow`, `TrimTokens`,
  `ReadValues`, `FoldSeriesAxes`, `FoldSeries`, `GlobalMinMax`).
- Timing of notifications: a signal is an entry appended to `signals`, and
  observers reacting mid-call are not modelled. `axisRangesChanged` is
  recorded after the fields are updated, not between the range computation
  and the rest of `setData`; the order of the entries is the source's.
- main.cpp: application and QML engine setup, which holds no data logic.
