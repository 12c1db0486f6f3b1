/**
  Both `parse_mpstat` variants pick a file's data rows by their second token,
  `parts[1]`, while they take the time label from the column just before
  `CPU`. The two agree only when `CPU` is the second header column. `mpstat`
  under a 12-hour locale prints the time as two tokens (`12:00:01 AM`), which
  puts `CPU` third: then `parts[1]` is `AM` on every line, and no row is
  ever selected.

  This module states that discrepancy on such a file. It also defines the
  parser evidently intended, which selects a row by its token in the `CPU`
  column. That parser takes the row the file holds, and it is the
  `cpu_monitor.py` parser on every file whose `CPU` column is the second.
 */
module Corrected {
  import opened Wrappers
  import opened Text
  import opened Number
  import opened Mpstat
  import CpuPlot
  import CpuMonitor
  import Variants

  /** A row for the CPU: its token in the `CPU` column, one after the time column, is the identifier. */
  predicate Selected(parts: seq<string>, sc: Schema, cpuId: string) {
    0 <= sc.time + 1 < |parts| && parts[sc.time + 1] == cpuId
  }

  /** One pass of the row loop: a selected row gives its sample, other lines are passed over. */
  function Step(line: string, cpuId: string, sc: Schema, data: Series): Outcome<Series> {
    var parts := Split(line);
    if Selected(parts, sc, cpuId) then
      var sample :- Extract(parts, sc);
      Ok(data.Push(sample))
    else Ok(data)
  }

  /** The row loop over `lines`, starting from `data`; the first exception ends it. */
  function Rows(lines: seq<string>, cpuId: string, sc: Schema, data: Series): Outcome<Series>
    decreases |lines|
  {
    if lines == [] then Ok(data)
    else
      var next :- Step(lines[0], cpuId, sc, data);
      Rows(lines[1..], cpuId, sc, next)
  }

  /** The corrected `parse_mpstat`: the header and layout of `cpu_monitor.py`, rows selected by the `CPU` column. */
  function Parse(lines: seq<string>, cpuId: string): Outcome<Series> {
    var header := FirstHeader(lines);
    if header.None? || header.value == [] then Err(MissingHeader)
    else
      var sc :- CpuMonitor.Layout(header.value);
      Rows(lines, cpuId, sc, Empty)
  }

  /** The samples of the selected rows, in input order. */
  function Samples(lines: seq<string>, cpuId: string, sc: Schema): seq<Sample>
    decreases |lines|
  {
    if lines == [] then []
    else
      var parts := Split(lines[0]);
      var here := if Selected(parts, sc, cpuId) && Extract(parts, sc).Ok? then [Extract(parts, sc).value] else [];
      here + Samples(lines[1..], cpuId, sc)
  }

  /** The exception the row loop raises at `line`, if any: only a selected row can fail, when its sample does not extract. */
  function Fault(line: string, cpuId: string, sc: Schema): Option<ParseError> {
    var parts := Split(line);
    if Selected(parts, sc, cpuId) && Extract(parts, sc).Err? then Some(Extract(parts, sc).error) else None
  }

  // ---------------------------------------------------------------------------
  // Properties of the corrected parser

  /** The loop completes exactly when no line faults. */
  lemma {:induction false} RowsOk(lines: seq<string>, cpuId: string, sc: Schema, data: Series)
    ensures Rows(lines, cpuId, sc, data).Ok? <==> forall i :: 0 <= i < |lines| ==> Fault(lines[i], cpuId, sc).None?
    decreases |lines|
  {
    if lines != [] && Step(lines[0], cpuId, sc, data).Ok? {
      RowsOk(lines[1..], cpuId, sc, Step(lines[0], cpuId, sc, data).value);
      assert forall i :: 1 <= i < |lines| ==> lines[i] == lines[1..][i - 1];
    }
  }

  /** A failed loop reports the fault of the first faulty line. */
  lemma {:induction false} RowsErr(lines: seq<string>, cpuId: string, sc: Schema, data: Series)
    requires Rows(lines, cpuId, sc, data).Err?
    ensures exists i :: && 0 <= i < |lines|
                        && (forall j :: 0 <= j < i ==> Fault(lines[j], cpuId, sc).None?)
                        && Fault(lines[i], cpuId, sc) == Some(Rows(lines, cpuId, sc, data).error)
    decreases |lines|
  {
    if Step(lines[0], cpuId, sc, data).Ok? {
      var rest := lines[1..];
      RowsErr(rest, cpuId, sc, Step(lines[0], cpuId, sc, data).value);
      var i :| && 0 <= i < |rest|
               && (forall j :: 0 <= j < i ==> Fault(rest[j], cpuId, sc).None?)
               && Fault(rest[i], cpuId, sc) == Some(Rows(lines, cpuId, sc, data).error);
      assert forall j :: 0 <= j < i + 1 ==> Fault(lines[j], cpuId, sc).None? by {
        forall j | 0 <= j < i + 1 ensures Fault(lines[j], cpuId, sc).None? {
          if j > 0 {
            assert lines[j] == rest[j - 1];
          }
        }
      }
      assert lines[i + 1] == rest[i];
    } else {
      assert Fault(lines[0], cpuId, sc) == Some(Rows(lines, cpuId, sc, data).error);
    }
  }

  /** A completed loop has appended to `data`, in input order, the sample of every selected row and nothing else. */
  lemma {:induction false} RowsSamples(lines: seq<string>, cpuId: string, sc: Schema, data: Series)
    requires Rows(lines, cpuId, sc, data).Ok?
    ensures Rows(lines, cpuId, sc, data) == Ok(data.PushAll(Samples(lines, cpuId, sc)))
    decreases |lines|
  {
    if lines != [] {
      var next := Step(lines[0], cpuId, sc, data).value;
      RowsSamples(lines[1..], cpuId, sc, next);
      var ss := Samples(lines, cpuId, sc);
      var rest := Samples(lines[1..], cpuId, sc);
      if Selected(Split(lines[0]), sc, cpuId) {
        assert ss == [Extract(Split(lines[0]), sc).value] + rest;
        assert ss[1..] == rest;
      } else {
        assert ss == rest;
      }
    }
  }

  /**
    Without a header line the corrected parser reports `MissingHeader`; with
    one, a layout that does not resolve is reported as `cpu_monitor.py`
    reports it, and otherwise the result is complete exactly when no line
    faults, and then holds the samples of the selected rows in input order.
   */
  lemma ParseOk(lines: seq<string>, cpuId: string)
    ensures FirstHeader(lines).None? ==> Parse(lines, cpuId) == Err(MissingHeader)
    ensures FirstHeader(lines).Some? ==>
      var header := FirstHeader(lines).value;
      CpuMonitor.Layout(header).Err? ==> Parse(lines, cpuId) == Err(CpuMonitor.Layout(header).error)
    ensures FirstHeader(lines).Some? ==>
      var header := FirstHeader(lines).value;
      CpuMonitor.Layout(header).Ok? ==>
        var sc := CpuMonitor.Layout(header).value;
        && (Parse(lines, cpuId).Ok? <==> forall i :: 0 <= i < |lines| ==> Fault(lines[i], cpuId, sc).None?)
        && (Parse(lines, cpuId).Ok? ==> Parse(lines, cpuId) == Ok(Empty.PushAll(Samples(lines, cpuId, sc))))
  {
    if FirstHeader(lines).Some? {
      HeaderNotEmpty(lines);
    }
    if FirstHeader(lines).Some? && CpuMonitor.Layout(FirstHeader(lines).value).Ok? {
      var sc := CpuMonitor.Layout(FirstHeader(lines).value).value;
      RowsOk(lines, cpuId, sc, Empty);
      if Rows(lines, cpuId, sc, Empty).Ok? {
        RowsSamples(lines, cpuId, sc, Empty);
      }
    }
  }

  // ---------------------------------------------------------------------------
  // Agreement with `cpu_monitor.py` when `CPU` is the second column

  /** With the time in the first column, the corrected loop pass is that of `cpu_monitor.py`. */
  lemma StepAsWritten(line: string, cpuId: string, indices: map<Metric, nat>, time: int, data: Series)
    requires CpuMonitor.Complete(indices) && time == 0
    ensures Step(line, cpuId, CpuMonitor.SchemaOf(indices, time), data) == CpuMonitor.Step(line, cpuId, indices, time, data)
  {
    CpuMonitor.StepExtract(line, cpuId, indices, time, data);
  }

  /** With the time in the first column, the corrected row loop is that of `cpu_monitor.py`. */
  lemma {:induction false} RowsAsWritten(lines: seq<string>, cpuId: string, indices: map<Metric, nat>, time: int, data: Series)
    requires CpuMonitor.Complete(indices) && time == 0
    ensures Rows(lines, cpuId, CpuMonitor.SchemaOf(indices, time), data) == CpuMonitor.Rows(lines, cpuId, indices, time, data)
    decreases |lines|
  {
    if lines != [] {
      StepAsWritten(lines[0], cpuId, indices, time, data);
      var next := Step(lines[0], cpuId, CpuMonitor.SchemaOf(indices, time), data);
      if next.Ok? {
        RowsAsWritten(lines[1..], cpuId, indices, time, next.value);
      }
    }
  }

  /** Where the header line has `CPU` as its second column, or no header line is found, the correction changes nothing. */
  lemma ParseAsWritten(lines: seq<string>, cpuId: string)
    requires FirstHeader(lines).Some? && CpuMonitor.Layout(FirstHeader(lines).value).Ok? ==>
             CpuMonitor.Layout(FirstHeader(lines).value).value.time == 0
    ensures Parse(lines, cpuId) == CpuMonitor.Parse(lines, cpuId)
  {
    if FirstHeader(lines).Some? {
      HeaderNotEmpty(lines);
    }
    if FirstHeader(lines).Some? && CpuMonitor.Layout(FirstHeader(lines).value).Ok? {
      CpuMonitor.ParseRows(lines, cpuId);
      var indices, time :| && CpuMonitor.Complete(indices)
                           && CpuMonitor.SchemaOf(indices, time) == CpuMonitor.Layout(FirstHeader(lines).value).value
                           && CpuMonitor.Parse(lines, cpuId) == CpuMonitor.Rows(lines, cpuId, indices, time, Empty);
      RowsAsWritten(lines, cpuId, indices, time, Empty);
    }
  }

  // ---------------------------------------------------------------------------
  // A file from `mpstat` under a 12-hour clock

  /** The header tokens of a full `mpstat -P ALL` report whose time reads `12:00:00 AM`. */
  const ScenarioHeader: seq<string> :=
    ["12:00:00", "AM", "CPU", "%usr", "%nice", "%sys", "%iowait", "%irq", "%soft", "%steal", "%guest", "%gnice", "%idle"]

  /** The tokens of the report's row for all CPUs one second later. */
  const ScenarioRow: seq<string> :=
    ["12:00:01", "AM", "all", "5.00", "0.00", "2.00", "1.00", "0.00", "0.00", "0.00", "0.00", "0.00", "92.00"]

  /** The layout of the header: the time label in column 1, `CPU` in column 2, `%idle` last. */
  const ScenarioSchema: Schema := Schema(1, 3, 5, 6, 7, 8, 12)

  /** The sample the row holds, with the time label one column before `all`. */
  const ScenarioSample: Sample :=
    Sample("AM", Finite(5.0), Finite(2.0), Finite(1.0), Finite(0.0), Finite(0.0), Finite(92.0))

  /** `header` holds the tokens of `ScenarioHeader`, token by token. */
  predicate IsScenarioHeader(header: seq<string>) {
    && |header| == 13 && header[0] == "12:00:00" && header[1] == "AM" && header[2] == "CPU"
    && header[3] == "%usr" && header[4] == "%nice" && header[5] == "%sys" && header[6] == "%iowait"
    && header[7] == "%irq" && header[8] == "%soft" && header[9] == "%steal" && header[10] == "%guest"
    && header[11] == "%gnice" && header[12] == "%idle"
  }

  lemma ScenarioIndex(header: seq<string>, m: Metric)
    requires IsScenarioHeader(header)
    ensures IndexOf(header, Column(m)) == Some(ScenarioSchema.Col(m))
  {
    match m
    case Usr => IndexOfAt(header, "%usr", 3);
    case Sys => IndexOfAt(header, "%sys", 5);
    case Iowait => IndexOfAt(header, "%iowait", 6);
    case Irq => IndexOfAt(header, "%irq", 7);
    case Soft => IndexOfAt(header, "%soft", 8);
    case Idle => IndexOfAt(header, "%idle", 12);
  }

  /** `CPU` is first found in column 2, so `cpuplot.py` puts the time label in column 1. */
  lemma ScenarioTime(header: seq<string>, sc: Schema)
    requires IsScenarioHeader(header) && CpuPlot.Resolve(header) == Ok(sc)
    ensures sc.time == ScenarioSchema.time
  {
    IndexOfAt(header, CpuColumn, 2);
    CpuPlot.ResolvePositions(header);
  }

  /** `cpuplot.py` finds each metric column where the layout above has it. */
  lemma ScenarioMetric(header: seq<string>, sc: Schema, m: Metric)
    requires IsScenarioHeader(header) && CpuPlot.Resolve(header) == Ok(sc)
    ensures sc.Col(m) == ScenarioSchema.Col(m)
  {
    CpuPlot.ResolveColumn(header, m);
    ScenarioIndex(header, m);
  }

  /** The header has `CPU` and every metric column, so `cpuplot.py` resolves it. */
  lemma ScenarioResolves(header: seq<string>)
    requires IsScenarioHeader(header)
    ensures CpuPlot.Resolve(header).Ok?
  {
    IndexOfAt(header, CpuColumn, 2);
    forall m ensures Column(m) in header {
      ScenarioIndex(header, m);
    }
    CpuPlot.ResolveOk(header);
  }

  /** The layout `cpuplot.py` resolves is the one above. */
  lemma ScenarioPlotLayout(header: seq<string>)
    requires IsScenarioHeader(header) && CpuPlot.Resolve(header).Ok?
    ensures CpuPlot.Resolve(header).value == ScenarioSchema
  {
    var sc := CpuPlot.Resolve(header).value;
    ScenarioTime(header, sc);
    ScenarioMetric(header, sc, Usr);
    ScenarioMetric(header, sc, Sys);
    ScenarioMetric(header, sc, Iowait);
    ScenarioMetric(header, sc, Irq);
    ScenarioMetric(header, sc, Soft);
    ScenarioMetric(header, sc, Idle);
  }

  /** Both variants, and so the corrected parser, resolve the header to the layout above. */
  lemma ScenarioLayout(header: seq<string>)
    requires IsScenarioHeader(header)
    ensures CpuPlot.Resolve(header) == Ok(ScenarioSchema)
    ensures CpuMonitor.Layout(header) == Ok(ScenarioSchema)
  {
    ScenarioResolves(header);
    ScenarioPlotLayout(header);
    Variants.LayoutsResolveAlike(header);
    Variants.LayoutsEqual(header);
  }

  /** `parts` holds the tokens of `ScenarioRow` that the layout reads. */
  predicate IsScenarioRow(parts: seq<string>) {
    && |parts| == 13 && parts[0] == "12:00:01" && parts[1] == "AM" && parts[2] == "all"
    && parts[3] == "5.00" && parts[5] == "2.00" && parts[6] == "1.00"
    && parts[7] == "0.00" && parts[8] == "0.00" && parts[12] == "92.00"
  }

  /** The usr, sys and iowait columns of the row. */
  lemma ScenarioFirstCells(parts: seq<string>)
    requires IsScenarioRow(parts)
    ensures Cell(parts, 3) == Ok(Finite(5.0)) && Cell(parts, 5) == Ok(Finite(2.0)) && Cell(parts, 6) == Ok(Finite(1.0))
  {
    CellFixed(parts, 3, "5", "00");
    CellFixed(parts, 5, "2", "00");
    CellFixed(parts, 6, "1", "00");
  }

  /** The irq, soft and idle columns of the row. */
  lemma ScenarioLastCells(parts: seq<string>)
    requires IsScenarioRow(parts)
    ensures Cell(parts, 7) == Ok(Finite(0.0)) && Cell(parts, 8) == Ok(Finite(0.0)) && Cell(parts, 12) == Ok(Finite(92.0))
  {
    CellFixed(parts, 7, "0", "00");
    CellFixed(parts, 8, "0", "00");
    CellFixed(parts, 12, "92", "00");
    assert DecimalValue("92") == 92;
  }

  /** The row extracts, under the layout, to the sample above. */
  lemma ScenarioExtract(parts: seq<string>)
    requires IsScenarioRow(parts)
    ensures Extract(parts, ScenarioSchema) == Ok(ScenarioSample)
  {
    ScenarioFirstCells(parts);
    ScenarioLastCells(parts);
  }

  /** As written, `cpuplot.py` selects neither the header line nor the row of a file whose second tokens are not the identifier. */
  lemma PlotMissesRow(h: string, r: string, cpuId: string)
    requires Contains(h, HeaderMark) && !CpuPlot.Skipped(h) && CpuPlot.Resolve(Split(h)).Ok?
    requires |Split(h)| >= 2 && Split(h)[1] != cpuId
    requires !CpuPlot.Skipped(r) && |Split(r)| >= 2 && Split(r)[1] != cpuId
    ensures CpuPlot.Parse([h] + [r], cpuId) == Ok(Empty)
  {
    var lines := [h] + [r];
    assert FirstHeader(lines) == Some(Split(h));
    Variants.PlotParseRows(lines, cpuId);
    var sc := CpuPlot.Resolve(Split(h)).value;
    Variants.PlotPassesOver(h, [r], cpuId, sc, Empty);
    Variants.PlotPassesOver(r, [], cpuId, sc, Empty);
    assert [r] + [] == [r];
  }

  /** `cpu_monitor.py` passes over a last line that is no row for the CPU. */
  lemma MonitorPassesLast(line: string, cpuId: string, indices: map<Metric, nat>, time: int, data: Series)
    requires CpuMonitor.Complete(indices) && !CpuMonitor.IsRow(line, cpuId)
    ensures CpuMonitor.Rows([line], cpuId, indices, time, data) == Ok(data)
  {
    assert CpuMonitor.Step(line, cpuId, indices, time, data) == Ok(data);
  }

  /** As written, `cpu_monitor.py` selects neither line of such a file either. */
  lemma MonitorMissesRow(h: string, r: string, cpuId: string)
    requires Contains(h, HeaderMark) && CpuPlot.Resolve(Split(h)).Ok?
    requires |Split(h)| >= 2 && Split(h)[1] != cpuId
    requires |Split(r)| >= 2 && Split(r)[1] != cpuId
    ensures CpuMonitor.Parse([h] + [r], cpuId) == Ok(Empty)
  {
    Variants.MonitorAfterHeader(h, [r], cpuId);
    var indices, time :| && CpuMonitor.Complete(indices)
                         && CpuMonitor.Parse([h] + [r], cpuId) == CpuMonitor.Rows([r], cpuId, indices, time, Empty);
    MonitorPassesLast(r, cpuId, indices, time, Empty);
  }

  /** With the layout resolved, the result of the corrected parser is that of its row loop. */
  lemma ParseRows(lines: seq<string>, cpuId: string)
    requires FirstHeader(lines).Some? && CpuMonitor.Layout(FirstHeader(lines).value).Ok?
    ensures Parse(lines, cpuId) == Rows(lines, cpuId, CpuMonitor.Layout(FirstHeader(lines).value).value, Empty)
  {
    HeaderNotEmpty(lines);
  }

  /** The corrected loop passes over a line that is not selected. */
  lemma PassesOver(line: string, rest: seq<string>, cpuId: string, sc: Schema, data: Series)
    requires !Selected(Split(line), sc, cpuId)
    ensures Rows([line] + rest, cpuId, sc, data) == Rows(rest, cpuId, sc, data)
  {
    assert Step(line, cpuId, sc, data) == Ok(data);
    assert ([line] + rest)[1..] == rest;
  }

  /** The corrected loop takes the sample of a last line that is selected and extracts. */
  lemma TakesLast(line: string, cpuId: string, sc: Schema, data: Series, sample: Sample)
    requires Selected(Split(line), sc, cpuId) && Extract(Split(line), sc) == Ok(sample)
    ensures Rows([line], cpuId, sc, data) == Ok(data.Push(sample))
  {
    assert Step(line, cpuId, sc, data) == Ok(data.Push(sample));
  }

  /** The corrected parser takes the sample of a row whose `CPU` column holds the identifier. */
  lemma CorrectedTakesRow(h: string, r: string, cpuId: string, sample: Sample)
    requires Contains(h, HeaderMark) && CpuMonitor.Layout(Split(h)).Ok?
    requires !Selected(Split(h), CpuMonitor.Layout(Split(h)).value, cpuId)
    requires Selected(Split(r), CpuMonitor.Layout(Split(h)).value, cpuId)
    requires Extract(Split(r), CpuMonitor.Layout(Split(h)).value) == Ok(sample)
    ensures Parse([h] + [r], cpuId) == Ok(Empty.Push(sample))
  {
    var lines := [h] + [r];
    assert FirstHeader(lines) == Some(Split(h));
    ParseRows(lines, cpuId);
    var sc := CpuMonitor.Layout(Split(h)).value;
    PassesOver(h, [r], cpuId, sc, Empty);
    TakesLast(r, cpuId, sc, Empty, sample);
  }

  /** The report's tokens are such a header and such a row. */
  lemma ScenarioTokens()
    ensures IsScenarioHeader(ScenarioHeader) && IsScenarioRow(ScenarioRow)
  {
  }

  /** Such a header line is found by the header search, and neither line is a banner or blank line. */
  lemma ScenarioLinesSeen(h: string, r: string)
    requires IsScenarioHeader(Split(h)) && IsScenarioRow(Split(r))
    ensures Contains(h, HeaderMark) && !CpuPlot.Skipped(h) && !CpuPlot.Skipped(r)
  {
    SplitContains(h, 3);
    CpuPlot.SkippedTokens(h);
    CpuPlot.SkippedTokens(r);
    assert !StartsWith(Split(h)[0], "Linux") by {
      assert Split(h)[0][0] == '1';
    }
    assert !StartsWith(Split(r)[0], "Linux") by {
      assert Split(r)[0][0] == '1';
    }
  }

  /**
    On any header line and row line with the report's tokens, in this order,
    asked for `all`: both variants return seven empty lists, and the
    corrected parser the row's sample.
   */
  lemma TwelveHourClock(h: string, r: string)
    requires IsScenarioHeader(Split(h)) && IsScenarioRow(Split(r))
    ensures CpuPlot.Parse([h] + [r], "all") == Ok(Empty)
    ensures CpuMonitor.Parse([h] + [r], "all") == Ok(Empty)
    ensures Parse([h] + [r], "all") == Ok(Empty.Push(ScenarioSample))
  {
    ScenarioLinesSeen(h, r);
    ScenarioLayout(Split(h));
    ScenarioExtract(Split(r));
    PlotMissesRow(h, r, "all");
    MonitorMissesRow(h, r, "all");
    CorrectedTakesRow(h, r, "all", ScenarioSample);
  }
}
