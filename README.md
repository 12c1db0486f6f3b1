# mpstat parsers

`cpuplot.py` and `cpu_monitor.py` each define `parse_mpstat(file, cpu_id)`. Both read the text of an
`mpstat -P ALL` report and find the header line, the first line that contains
`%usr`. They look up seven column positions in that header: the time label as
the column just before `CPU`, then `%usr`, `%sys`, `%iowait`, `%irq`, `%soft`
and `%idle`. They then walk the lines again and collect one sample from every row
whose second token is the requested CPU identifier. Each sample holds the time
label verbatim and six metric values read with `float` after a decimal comma is
turned into a point. The result is a dict of seven parallel lists.

The two variants differ in small ways:

- `cpuplot.py` skips the `Linux …` banner and blank lines. Any other line with a
  single token raises `IndexError` at `parts[1]`.
- `cpu_monitor.py` skips every line with fewer than two tokens.
- `cpu_monitor.py` builds the metric indices as a dict comprehension, before it
  looks up `CPU`. It therefore reports a missing metric column ahead of a missing
  `CPU` column, where `cpuplot.py` looks up `CPU` first.

The model is written in Dafny, with these modules:

- `Wrappers`: `Option` and `Result`. The parsers' exceptions and `sys.exit(1)`
  become `Err` values of `Mpstat.ParseError`:
  - `MissingHeader` is the exit;
  - `MissingColumn` is a failed `list.index`;
  - `ShortRow` is an `IndexError`;
  - `MalformedValue` is a `ValueError` from `float`.
- `Text`: the Python string operations the parsers use, over `seq<char>`:
  - `str.split()` and `str.strip()`, using Python's whitespace set;
  - `in`, `startswith` and `replace`;
  - `list.index` as `IndexOf`;
  - indexing with negative indices as `At`.
- `Number`: `float(text)` as a scan of the text, one character at a time, over
  the grammar Python accepts. A finite result is the exact rational the text
  denotes.
- `Mpstat`: what both parsers share:
  - the row of seven lists, `Series`, with its samples;
  - the header search, `FirstHeader`;
  - reading one sample from a split row, `Extract`.
- `CpuPlot`: `cpuplot.py`'s parser. `Parse` is the function it computes.
  `ParseMpstat`, `FindHeader` and `AppendRow` are its loops, each proved to
  compute that function.
- `CpuMonitor`: `cpu_monitor.py`'s parser, with the same split between
  `Parse` and `ParseMpstat`. Here the per-row loop over the index dict is a
  loop over the metrics.
- `Variants`: how the two parsers relate. They agree on every file with no
  one-token line outside the banner and no banner that is a row for the CPU,
  up to which missing column they name. Concrete files separate them.
- `Corrected`: the defect below, and the parser that selects rows by the token
  in the `CPU` column.

## Model

| member | source | states |
|---|---|---|
| `Text.Replace` | cpuplot.py:45 | `replace(',', '.')` keeps the length and changes exactly the commas, each to a point |
| `Text.IndexOf` | cpuplot.py:30-36 | `list.index` finds a position exactly when the token is in the list; that position holds the token and no earlier one does |
| `Text.IndexOfAt` | cpuplot.py:30-36 | a token at position `i` with no earlier occurrence is found at `i` |
| `Text.AtNegative` | cpuplot.py:44 | index `i - len` takes the same element as index `i`, which is how Python reads `parts[-1]` |
| `Text.ContainsAt` | cpuplot.py:21 | `p in s` holds exactly when `p` occurs at some position of `s` |
| `Text.SplitTokens` | cpuplot.py:42 | every piece `split()` returns is non-empty and holds no whitespace |
| `Text.SplitEmpty` | cpuplot.py:42 | `split()` returns no pieces exactly when the line is all whitespace |
| `Text.SplitContains` | cpuplot.py:21-22 | every piece of a split line occurs in the line |
| `Text.SplitJoin` | cpuplot.py:42 | splitting pieces joined by single spaces gives back the pieces |
| `Text.StripBlank` | cpuplot.py:40 | `strip()` gives the empty string exactly when `split()` gives no pieces |
| `Text.StripTrimmed` | cpuplot.py:40 | `strip()` leaves unchanged a string that starts and ends with non-whitespace |
| `Text.StripWord` | cpuplot.py:40-42 | the stripped line starts with the line's first piece, followed by whitespace or nothing |
| `Number.ForeignRejected` | cpuplot.py:45 | `float` raises `ValueError` on a text that holds a character no number can contain |
| `Number.CommaRejected` | cpuplot.py:45 | `float` raises `ValueError` on `12,5`, so a decimal comma would be an error without the replace |
| `Number.ScanWhole` | cpuplot.py:45 | digits read in the whole part extend it, with no other effect |
| `Number.ScanFraction` | cpuplot.py:45 | digits read in the fraction extend it, with no other effect |
| `Number.FixedPoint` | cpuplot.py:45-50 | `float("d.f")` is the value `d + f / 10^len(f)` for digit strings `d` (non-empty) and `f` |
| `Mpstat.MetricsListed` | cpu_monitor.py:18 | the metric keys cover every metric, so the key set is exactly time plus the six metrics |
| `Mpstat.Column` | cpu_monitor.py:32 | a metric's header token is `%` followed by its key |
| `Mpstat.Series.Push` | cpuplot.py:44-50 | appending a sample to aligned lists keeps them of equal length, puts the sample last and keeps every earlier sample |
| `Mpstat.PushAllRows` | cpuplot.py:44-50 | appending samples in order keeps the lists aligned, keeps the earlier samples and adds the new ones in order |
| `Mpstat.SeriesOf` | cpuplot.py:5-13 | the lists built from empty hold exactly the given samples, in order |
| `Mpstat.FirstHeaderIsFirst` | cpuplot.py:19-23 | there is no header exactly when no line contains `%usr`; otherwise the header is the split of the first such line |
| `Mpstat.LaterHeadersIgnored` | cpuplot.py:20-23 | lines after the first `%usr` line do not change the header |
| `Mpstat.HeaderNotEmpty` | cpuplot.py:25-27 | a found header is never the empty list, so `not header` means no `%usr` line |
| `Mpstat.Normalize` | cpuplot.py:45 | the comma replacement keeps the length, leaves no comma, and keeps every other character |
| `Mpstat.MatchesCpu` | cpuplot.py:43 | the row filter holds exactly when the second token equals `cpu_id`; the `cpu_id == 'all'` clause adds nothing |
| `Mpstat.CombineOk` | cpuplot.py:44-50 | a sample is formed exactly when all seven reads succeed, and it holds their values |
| `Mpstat.CombineErr` | cpuplot.py:44-50 | a failed sample reports the error of the first failing read, in append order |
| `Mpstat.CellOk` | cpuplot.py:45 | a metric cell reads as `n` exactly when its column exists and `float` of its comma-replaced text is `n` |
| `Mpstat.CellErr` | cpuplot.py:45 | a metric cell fails with `IndexError` when its column is past the row's end, and otherwise with `ValueError` on its replaced text |
| `Mpstat.ExtractOk` | cpuplot.py:44-50 | an extracted sample takes its time label verbatim from the time column, and each metric is `float` of its column's replaced text |
| `Mpstat.CellFixed` | cpuplot.py:45 | a cell `d.f` of digits reads as the number `d.f` |
| `Mpstat.CommaIsPoint` | cpuplot.py:45 | texts that differ only by commas against points read as the same number |
| `Mpstat.ExtractOkIff` | cpuplot.py:44-50 | a row yields a sample exactly when the time column exists and every metric column exists and parses |
| `Mpstat.ExtractErr` | cpuplot.py:44-50 | a failed row reports `IndexError` or the `ValueError` of the first failing column's text |
| `CpuPlot.FindHeader` | cpuplot.py:19-23 | the header loop returns the split of the first `%usr` line, or none |
| `CpuPlot.AppendRow` | cpuplot.py:44-50 | the seven appends succeed exactly when the sample extracts, add that sample as one more aligned row, and otherwise report its error |
| `CpuPlot.ParseMpstat` | cpuplot.py:4-52 | the header search, the index lookups and the row loop compute `CpuPlot.Parse` |
| `CpuPlot.StepCases` | cpuplot.py:39-50 | one pass of the loop fails exactly at a faulty line, with that fault; otherwise it appends the row's sample for a matching row and nothing else |
| `CpuPlot.RowsOk` | cpuplot.py:39-50 | the row loop completes exactly when no line faults |
| `CpuPlot.RowsErr` | cpuplot.py:39-50 | a failed row loop reports the fault of the first faulty line |
| `CpuPlot.RowsSamples` | cpuplot.py:39-50 | a completed row loop appends the samples of the matching rows, in input order, and nothing else |
| `CpuPlot.ResolveOk` | cpuplot.py:30-36 | the seven lookups succeed exactly when all seven tokens are in the header |
| `CpuPlot.ResolvePositions` | cpuplot.py:30-36 | the time column is one before the first `CPU`, and each metric column is the first occurrence of its token |
| `CpuPlot.ResolveColumn` | cpuplot.py:31-36 | a resolved metric column is the first occurrence of its token |
| `CpuPlot.ResolveErr` | cpuplot.py:30-36 | a failed lookup names the first token, in lookup order, that the header lacks |
| `CpuPlot.CpuFirst` | cpuplot.py:30 | with `CPU` first in the header, the time index is -1 and reads the last token of each row |
| `CpuPlot.SkippedTokens` | cpuplot.py:40-41 | a line is skipped exactly when it has no tokens or its first token starts with `Linux` |
| `CpuPlot.SingleTokenFails` | cpuplot.py:42-43 | an unskipped line with one token raises `IndexError` |
| `CpuPlot.NoRowNoSample` | cpuplot.py:43 | lines with no matching row contribute no sample |
| `CpuPlot.FaultNotHeader` | cpuplot.py:39-50 | no row fault is mistaken for a missing header |
| `CpuPlot.ParseMissingHeader` | cpuplot.py:25-27 | the exit is reached exactly when no line contains `%usr` |
| `CpuPlot.ParseOk` | cpuplot.py:4-52 | with a header: a failed lookup is reported; otherwise the result succeeds exactly when no line faults and is the matching rows' samples in order |
| `CpuPlot.ParseErr` | cpuplot.py:39-50 | a failure after the lookups is the fault of the first faulty line |
| `CpuPlot.NoMatchEmpty` | cpuplot.py:52 | with no matching row a successful parse is seven empty lists; it can still fail on a one-token line |
| `CpuMonitor.Indices` | cpu_monitor.py:32 | a built index dict has exactly the metric keys asked for |
| `CpuMonitor.ParseMpstat` | cpu_monitor.py:17-42 | the header search, the index dict, the time index and the loops compute `CpuMonitor.Parse` |
| `CpuMonitor.AppendFold` | cpu_monitor.py:39-40 | the loop over the index dict is the fold of the metrics' cell reads |
| `CpuMonitor.CellsOfMetrics` | cpu_monitor.py:32 | the cells the index dict reads are the cells at the layout's metric columns |
| `CpuMonitor.FoldCombine` | cpu_monitor.py:38-40 | appending the time and then each metric in turn adds the whole sample, or reports the first failure |
| `CpuMonitor.StepExtract` | cpu_monitor.py:36-40 | one pass of the loop appends the row's sample when the filter holds, and reports the row's error when it does not extract |
| `CpuMonitor.StepCases` | cpu_monitor.py:35-40 | one pass fails exactly at a faulty line, with that fault; otherwise it appends the sample of a matching row and nothing else |
| `CpuMonitor.ShortLineSkipped` | cpu_monitor.py:37 | a line with fewer than two tokens is passed over |
| `CpuMonitor.RowsOk` | cpu_monitor.py:35-40 | the row loop completes exactly when no line faults |
| `CpuMonitor.RowsErr` | cpu_monitor.py:35-40 | a failed row loop reports the fault of the first faulty line |
| `CpuMonitor.RowsSamples` | cpu_monitor.py:35-40 | a completed row loop appends the samples of the matching rows, in input order, and nothing else |
| `CpuMonitor.IndicesOk` | cpu_monitor.py:32 | the index dict is built exactly when every metric token is in the header |
| `CpuMonitor.IndicesMap` | cpu_monitor.py:32 | each metric maps to the first occurrence of its token |
| `CpuMonitor.IndicesErr` | cpu_monitor.py:32 | a failed dict names the first metric token, in key order, that the header lacks |
| `CpuMonitor.TimeIndexOf` | cpu_monitor.py:33 | the time index exists exactly when `CPU` is in the header, is one before its first occurrence, and otherwise `CPU` is reported missing |
| `CpuMonitor.FaultNotHeader` | cpu_monitor.py:35-40 | no row fault is mistaken for a missing header |
| `CpuMonitor.ParseMissingHeader` | cpu_monitor.py:28-30 | the exit is reached exactly when no line contains `%usr` |
| `CpuMonitor.LayoutErr` | cpu_monitor.py:32-33 | a missing metric is reported before a missing `CPU` |
| `CpuMonitor.LayoutOk` | cpu_monitor.py:32-33 | the layout exists exactly when `CPU` and every metric token are in the header |
| `CpuMonitor.LayoutPositions` | cpu_monitor.py:32-33 | the time column is one before the first `CPU`, and each metric column is the first occurrence of its token |
| `CpuMonitor.LayoutColumn` | cpu_monitor.py:32 | a metric column is the first occurrence of its token |
| `CpuMonitor.ParseRows` | cpu_monitor.py:27-40 | with a header whose layout exists, the result is the row loop over that layout |
| `CpuMonitor.ParseOk` | cpu_monitor.py:17-42 | with a header: a failed lookup is reported; otherwise the result succeeds exactly when no line faults and is the matching rows' samples in order |
| `CpuMonitor.ParseErr` | cpu_monitor.py:35-40 | a failure after the lookups is the fault of the first faulty line |
| `CpuMonitor.NoRowNoSample` | cpu_monitor.py:37 | lines with no matching row contribute no sample |
| `CpuMonitor.NoMatchEmpty` | cpu_monitor.py:35-42 | with a header that has every column and no matching row, the parse cannot fail and the result is seven empty lists |
| `Variants.PlotColumnsAre` | cpuplot.py:30-36 | the tokens `cpuplot.py` looks up are `CPU` and the six metric tokens `cpu_monitor.py` builds |
| `Variants.LayoutsResolveAlike` | cpu_monitor.py:32-33 | the two variants' lookups succeed on the same headers |
| `Variants.SchemaByPositions` | cpuplot.py:30-36 | a layout is determined by the first positions of its tokens |
| `Variants.LayoutsEqual` | cpu_monitor.py:32-33 | when both lookups succeed they give the same columns |
| `Variants.LayoutsFailAlike` | cpu_monitor.py:32-33 | when both lookups fail, each reports a missing column |
| `Variants.StepsAgree` | cpu_monitor.py:35-40 | on a blank line, a banner that is not a row for the CPU, or any other line of two tokens or more, one pass of either loop has the same outcome under the same layout |
| `Variants.RowsAgree` | cpu_monitor.py:35-40 | over such lines, the two row loops have the same outcome |
| `Variants.ParsesAgree` | cpu_monitor.py:17-42 | over such lines, both parsers succeed together, with equal results, or both report a missing column |
| `Variants.MissingColumnOrder` | cpu_monitor.py:32-33 | on a header of `%usr` alone, `cpuplot.py` reports `CPU` missing and `cpu_monitor.py` reports `%sys` |
| `Variants.HeaderLayout` | cpuplot.py:30-36 | the header `Time CPU %usr %sys %iowait %irq %soft %idle` has the time in column 0 and the metrics in columns 2 to 7 in both variants |
| `Variants.PlotTokenFails` | cpuplot.py:42-43 | `cpuplot.py`'s row loop fails on a line that is one token |
| `Variants.MonitorTokenSkipped` | cpu_monitor.py:37 | `cpu_monitor.py`'s row loop passes over a line that is one token |
| `Variants.MonitorAfterHeader` | cpu_monitor.py:27-40 | after a header line that is not itself a row, `cpu_monitor.py` is the row loop over the rest, with the header's layout |
| `Variants.SingleTokenPlot` | cpuplot.py:42-43 | a header followed by a one-token line makes `cpuplot.py` raise `IndexError` |
| `Variants.SingleTokenMonitor` | cpu_monitor.py:37 | the same file gives `cpu_monitor.py` seven empty lists |
| `Variants.HeaderLineFits` | cpuplot.py:19-36 | the header line above is found, not skipped, resolves, and is not a row for `all` |
| `Variants.PlotSkips` | cpuplot.py:40-41 | a skipped line leaves `cpuplot.py`'s row loop unchanged |
| `Variants.BannerRowPlot` | cpuplot.py:40-43 | a `Linux …` banner row for the CPU is skipped by `cpuplot.py` |
| `Variants.BannerRowMonitor` | cpu_monitor.py:36-40 | the same banner row becomes a sample in `cpu_monitor.py` |
| `Variants.BannerSplit` | cpuplot.py:42 | the line `Linux all 1.0 2.0 3.0 4.0 5.0 6.0` splits into the banner-row tokens |
| `Variants.BannerExtract` | cpu_monitor.py:38-40 | under the header's layout those tokens read as the sample with time `Linux` and values 1 to 6 |
| `Variants.BannerLineSeen` | cpuplot.py:40 | a line with those tokens is skipped by `cpuplot.py` and is a row for `all` in `cpu_monitor.py` |
| `Variants.BannerDisagreement` | cpuplot.py:40-43 | after the header line, such a line gives `cpuplot.py` seven empty lists and `cpu_monitor.py` one sample |
| `Corrected.RowsOk` | cpu_monitor.py:35-40 | the corrected row loop completes exactly when no selected row fails to extract |
| `Corrected.RowsErr` | cpu_monitor.py:35-40 | a failed corrected loop reports the fault of the first faulty line |
| `Corrected.RowsSamples` | cpu_monitor.py:35-40 | a completed corrected loop appends the selected rows' samples, in input order, and nothing else |
| `Corrected.ParseOk` | cpu_monitor.py:17-42 | the corrected parser reports a missing header or column as `cpu_monitor.py` does, and otherwise returns the samples of the rows whose `CPU` column holds the identifier, exactly when none fails |
| `Corrected.StepAsWritten` | cpu_monitor.py:36-40 | when the time is column 0, one pass of the corrected loop is one pass of `cpu_monitor.py`'s |
| `Corrected.RowsAsWritten` | cpu_monitor.py:35-40 | when the time is column 0, the corrected row loop is `cpu_monitor.py`'s |
| `Corrected.ParseAsWritten` | cpu_monitor.py:17-42 | on every file whose `CPU` column is the second, the corrected parser is `cpu_monitor.py`'s |
| `Corrected.ScenarioLayout` | cpuplot.py:30-36 | the 12-hour header puts the time label in column 1, before `CPU` in column 2, in both variants |
| `Corrected.ScenarioExtract` | cpuplot.py:44-50 | the 12-hour row reads as the sample with time `AM`, usr 5, sys 2, iowait 1, irq 0, soft 0 and idle 92 |
| `Corrected.PlotMissesRow` | cpuplot.py:39-43 | after a header that is not a row, a line whose second token is not the identifier leaves `cpuplot.py` with no sample |
| `Corrected.MonitorMissesRow` | cpu_monitor.py:35-37 | the same holds for `cpu_monitor.py` |
| `Corrected.CorrectedTakesRow` | cpu_monitor.py:35-40 | after a header that is not selected, a selected row that extracts gives exactly its sample |
| `Corrected.ScenarioTokens` | cpuplot.py:42 | the 12-hour header and row have the tokens the scenario describes |
| `Corrected.ScenarioLinesSeen` | cpuplot.py:21-41 | a line with the 12-hour header's tokens is found as the header, and neither line is skipped |
| `Corrected.TwelveHourClock` | cpuplot.py:43 | on the 12-hour file, `cpuplot.py` and `cpu_monitor.py` return no sample for `all`, and the corrected parser returns the file's one sample |

## Left out

- File reading is left out: each parser is given the file's lines. `FileNotFoundError` in `cpu_monitor.py` (lines 20-25) is therefore not modelled.
- The error message printed before `sys.exit(1)` is left out. The exit itself is the result `Err(MissingHeader)`.
- `generate_mpstat` is left out, because it runs the `mpstat` program. `plot_cpu_stats` and `main` are left out too, because they draw and save a plot with matplotlib and read the command line. None of them is part of parsing.
- Floating point is not modelled: `float` yields the exact rational its text denotes, not that value rounded to the nearest IEEE double. Digits outside ASCII, which Python's `float` also accepts, are treated as foreign characters.
- The result dict is the `Series` record, with one list per key. Its key set is therefore fixed by its type, and `cpu_monitor.py`'s iteration over its index dict is in the order `usr, sys, iowait, irq, soft, idle`, which is the dict's insertion order.
- A row that fails part-way through its appends leaves the earlier lists longer in Python. The model returns only the error, because the exception discards the dict.
- The metric values are not shown to lie between 0 and 100. They are whatever numbers the file holds, and neither parser checks them.
- `Corrected.TwelveHourClock`: stated for any pair of lines that split into the scenario's tokens, rather than for one spelling of those lines with particular spacing.

## Findings

| source | as written | input that shows it | evidently intended | confidence | as-written member | corrected member |
|---|---|---|---|---|---|---|
| cpuplot.py:43 | rows are selected by their second token, `parts[1]`, while the time label is read from the column before `CPU`; the two agree only when `CPU` is the second header column | header `12:00:00 AM CPU %usr %nice %sys %iowait %irq %soft %steal %guest %gnice %idle` and row `12:00:01 AM all 5.00 0.00 2.00 1.00 0.00 0.00 0.00 0.00 0.00 92.00` with `cpu_id` `all`: `parts[1]` is `AM`, so both variants return empty lists | select a row by its token in the `CPU` column, `parts[header.index('CPU')]`, which gives one sample with time `AM` | not executed | `Corrected.TwelveHourClock` | `Corrected.ParseOk` |
