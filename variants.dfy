/**
  How the two `parse_mpstat` variants relate: they resolve the same column
  layout from the same header, and on files where the banner test and the
  short-line test of `cpuplot.py` make no difference they return the same
  dict. Where those tests matter, or a column is missing, they part ways, and
  the concrete files below show each difference.
 */
module Variants {
  import opened Wrappers
  import opened Text
  import opened Number
  import opened Mpstat
  import CpuPlot
  import CpuMonitor

  /** The tokens `cpuplot.py` looks up are `CPU` and the six metric columns. */
  lemma PlotColumnsAre(header: seq<string>)
    ensures (forall k :: 0 <= k < |CpuPlot.PlotColumns| ==> CpuPlot.PlotColumns[k] in header)
        <==> CpuColumn in header && forall m :: Column(m) in header
  {
    if forall k :: 0 <= k < |CpuPlot.PlotColumns| ==> CpuPlot.PlotColumns[k] in header {
      forall m ensures Column(m) in header {
        var k := match m case Usr => 1 case Sys => 2 case Iowait => 3 case Irq => 4 case Soft => 5 case Idle => 6;
        assert CpuPlot.PlotColumns[k] == Column(m);
      }
      assert CpuPlot.PlotColumns[0] == CpuColumn;
    } else {
      var k :| 0 <= k < |CpuPlot.PlotColumns| && CpuPlot.PlotColumns[k] !in header;
      if k > 0 {
        assert CpuPlot.PlotColumns[k] == Column(Metrics[k - 1]);
      }
    }
  }

  /** Both layouts resolve from exactly the same headers. */
  lemma LayoutsResolveAlike(header: seq<string>)
    ensures CpuPlot.Resolve(header).Ok? <==> CpuMonitor.Layout(header).Ok?
  {
    CpuPlot.ResolveOk(header);
    CpuMonitor.LayoutOk(header);
    PlotColumnsAre(header);
  }

  /** A layout is determined by the first positions of `CPU` and of the metric columns. */
  lemma SchemaByPositions(header: seq<string>, p: Schema, q: Schema)
    requires IndexOf(header, CpuColumn) == Some(p.time + 1) && forall m :: IndexOf(header, Column(m)) == Some(p.Col(m))
    requires IndexOf(header, CpuColumn) == Some(q.time + 1) && forall m :: IndexOf(header, Column(m)) == Some(q.Col(m))
    ensures p == q
  {
    assert p.Col(Usr) == q.Col(Usr) && p.Col(Sys) == q.Col(Sys) && p.Col(Iowait) == q.Col(Iowait);
    assert p.Col(Irq) == q.Col(Irq) && p.Col(Soft) == q.Col(Soft) && p.Col(Idle) == q.Col(Idle);
  }

  /** A resolved layout is the same in both variants. */
  lemma LayoutsEqual(header: seq<string>)
    requires CpuPlot.Resolve(header).Ok? && CpuMonitor.Layout(header).Ok?
    ensures CpuPlot.Resolve(header).value == CpuMonitor.Layout(header).value
  {
    CpuPlot.ResolvePositions(header);
    CpuMonitor.LayoutPositions(header);
    SchemaByPositions(header, CpuPlot.Resolve(header).value, CpuMonitor.Layout(header).value);
  }

  /** When the layout does not resolve, both variants report a missing column, though not always the same one. */
  lemma LayoutsFailAlike(header: seq<string>)
    requires CpuPlot.Resolve(header).Err? && CpuMonitor.Layout(header).Err?
    ensures CpuPlot.Resolve(header).error.MissingColumn? && CpuMonitor.Layout(header).error.MissingColumn?
  {
    CpuPlot.ResolveErr(header);
    CpuMonitor.LayoutErr(header);
    if CpuMonitor.Indices(header, Metrics).Err? {
      CpuMonitor.IndicesErr(header, Metrics);
    }
  }

  /**
    A line on which the two row loops cannot tell apart: either `cpuplot.py`
    passes it over as a banner or blank line and `cpu_monitor.py` would not
    take a sample from it, or it is not passed over and does not hold exactly
    one token.
   */
  predicate Compatible(line: string, cpuId: string) {
    if CpuPlot.Skipped(line) then !CpuMonitor.IsRow(line, cpuId) else |Split(line)| != 1
  }

  /** On a compatible line, one pass of either loop has the same outcome under the same layout. */
  lemma StepsAgree(line: string, cpuId: string, indices: map<Metric, nat>, time: int, data: Series)
    requires CpuMonitor.Complete(indices) && Compatible(line, cpuId)
    ensures CpuPlot.Step(line, cpuId, CpuMonitor.SchemaOf(indices, time), data)
         == CpuMonitor.Step(line, cpuId, indices, time, data)
  {
    CpuMonitor.StepExtract(line, cpuId, indices, time, data);
    StripBlank(line);
  }

  /** Over compatible lines the two row loops agree. */
  lemma {:induction false} RowsAgree(lines: seq<string>, cpuId: string, indices: map<Metric, nat>, time: int, data: Series)
    requires CpuMonitor.Complete(indices)
    requires forall i :: 0 <= i < |lines| ==> Compatible(lines[i], cpuId)
    ensures CpuPlot.Rows(lines, cpuId, CpuMonitor.SchemaOf(indices, time), data)
         == CpuMonitor.Rows(lines, cpuId, indices, time, data)
    decreases |lines|
  {
    if lines != [] {
      StepsAgree(lines[0], cpuId, indices, time, data);
      var next := CpuMonitor.Step(lines[0], cpuId, indices, time, data);
      if next.Ok? {
        assert forall i :: 0 <= i < |lines[1..]| ==> lines[1..][i] == lines[i + 1];
        RowsAgree(lines[1..], cpuId, indices, time, next.value);
      }
    }
  }

  /**
    On a file of compatible lines the two variants return the same dict, or
    raise the same exception, except that with a column missing from the
    header they may name different columns.
   */
  lemma ParsesAgree(lines: seq<string>, cpuId: string)
    requires forall i :: 0 <= i < |lines| ==> Compatible(lines[i], cpuId)
    ensures CpuPlot.Parse(lines, cpuId).Ok? <==> CpuMonitor.Parse(lines, cpuId).Ok?
    ensures CpuPlot.Parse(lines, cpuId) == CpuMonitor.Parse(lines, cpuId)
         || (&& CpuPlot.Parse(lines, cpuId).Err? && CpuPlot.Parse(lines, cpuId).error.MissingColumn?
             && CpuMonitor.Parse(lines, cpuId).Err? && CpuMonitor.Parse(lines, cpuId).error.MissingColumn?)
  {
    var header := FirstHeader(lines);
    if header.Some? && header.value != [] {
      var h := header.value;
      LayoutsResolveAlike(h);
      CpuMonitor.ParseOk(lines, cpuId);
      if CpuPlot.Resolve(h).Ok? {
        LayoutsEqual(h);
        MetricsListed();
        var indices, time := CpuMonitor.Indices(h, Metrics).value, CpuMonitor.TimeIndex(h).value;
        assert CpuMonitor.Layout(h).value == CpuMonitor.SchemaOf(indices, time);
        RowsAgree(lines, cpuId, indices, time, Empty);
      } else {
        LayoutsFailAlike(h);
      }
    }
  }

  // ---------------------------------------------------------------------------
  // Where the variants differ

  /** A header holding only `%usr`: `cpuplot.py` looks up `CPU` first, `cpu_monitor.py` the metric columns first. */
  lemma MissingColumnOrder()
    ensures CpuPlot.Parse(["%usr"], "all") == Err(MissingColumn("CPU"))
    ensures CpuMonitor.Parse(["%usr"], "all") == Err(MissingColumn("%sys"))
  {
    var ws := ["%usr"];
    assert IsToken(ws[0]);
    SplitJoin(ws);
    assert Join(ws) == "%usr";
    assert Contains("%usr", HeaderMark);
    assert FirstHeader(["%usr"]) == Some(ws);
  }

  /** The tokens of a header line with the time, `CPU` and the six metric columns. */
  const HeaderTokens: seq<string> := ["Time", "CPU", "%usr", "%sys", "%iowait", "%irq", "%soft", "%idle"]

  /** The header line splits back into its tokens. */
  lemma HeaderSplit()
    ensures Split(Join(HeaderTokens)) == HeaderTokens
  {
    assert forall k :: 0 <= k < |HeaderTokens| ==> IsToken(HeaderTokens[k]);
    SplitJoin(HeaderTokens);
  }

  /** The header line is found by the header search and is not passed over by the row loop of `cpuplot.py`. */
  lemma HeaderSeen()
    ensures Contains(Join(HeaderTokens), HeaderMark) && !CpuPlot.Skipped(Join(HeaderTokens))
  {
    var h := Join(HeaderTokens);
    JoinContains(HeaderTokens, 2);
    assert h == "Time" + " " + Join(HeaderTokens[1..]);
    assert h[0] == 'T';
    assert h[|h| - 1] == 'e';
    StripTrimmed(h);
  }

  /** Where the header has each metric column. */
  function HeaderPosition(m: Metric): nat {
    match m
    case Usr => 2
    case Sys => 3
    case Iowait => 4
    case Irq => 5
    case Soft => 6
    case Idle => 7
  }

  lemma HeaderIndex(m: Metric)
    ensures IndexOf(HeaderTokens, Column(m)) == Some(HeaderPosition(m))
  {
    match m
    case Usr => IndexOfAt(HeaderTokens, "%usr", 2);
    case Sys => IndexOfAt(HeaderTokens, "%sys", 3);
    case Iowait => IndexOfAt(HeaderTokens, "%iowait", 4);
    case Irq => IndexOfAt(HeaderTokens, "%irq", 5);
    case Soft => IndexOfAt(HeaderTokens, "%soft", 6);
    case Idle => IndexOfAt(HeaderTokens, "%idle", 7);
  }

  /** The layout that the first positions of `CPU` and the metric columns in the header give. */
  lemma HeaderSchema(sc: Schema)
    requires IndexOf(HeaderTokens, CpuColumn) == Some(sc.time + 1)
    requires forall m :: IndexOf(HeaderTokens, Column(m)) == Some(sc.Col(m))
    ensures sc == Schema(0, 2, 3, 4, 5, 6, 7)
  {
    IndexOfAt(HeaderTokens, CpuColumn, 1);
    forall m ensures sc.Col(m) == HeaderPosition(m) {
      HeaderIndex(m);
    }
    assert sc.Col(Usr) == 2 && sc.Col(Sys) == 3 && sc.Col(Iowait) == 4;
    assert sc.Col(Irq) == 5 && sc.Col(Soft) == 6 && sc.Col(Idle) == 7;
  }

  /** Both variants resolve the header to the time column 0 and the metric columns 2 to 7. */
  lemma HeaderLayout()
    ensures CpuPlot.Resolve(HeaderTokens) == Ok(Schema(0, 2, 3, 4, 5, 6, 7))
    ensures CpuMonitor.Layout(HeaderTokens) == Ok(Schema(0, 2, 3, 4, 5, 6, 7))
  {
    var h := HeaderTokens;
    assert forall k :: 0 <= k < |CpuPlot.PlotColumns| ==> CpuPlot.PlotColumns[k] in h;
    CpuPlot.ResolveOk(h);
    CpuPlot.ResolvePositions(h);
    HeaderSchema(CpuPlot.Resolve(h).value);
    LayoutsResolveAlike(h);
    LayoutsEqual(h);
  }

  /** The one-token line `x` splits into itself and is not passed over as a banner or blank line. */
  lemma TokenLine()
    ensures Split("x") == ["x"] && !CpuPlot.Skipped("x")
  {
    assert IsToken("x");
    SplitJoin(["x"]);
    assert Join(["x"]) == "x";
    StripTrimmed("x");
  }

  /** With the layout resolved, the result of `cpuplot.py` is that of its row loop. */
  lemma PlotParseRows(lines: seq<string>, cpuId: string)
    requires FirstHeader(lines).Some? && CpuPlot.Resolve(FirstHeader(lines).value).Ok?
    ensures CpuPlot.Parse(lines, cpuId) == CpuPlot.Rows(lines, cpuId, CpuPlot.Resolve(FirstHeader(lines).value).value, Empty)
  {
    HeaderNotEmpty(lines);
  }

  /** `cpuplot.py` passes over a line that is not skipped, has two tokens or more and is not a row for the CPU. */
  lemma PlotPassesOver(line: string, rest: seq<string>, cpuId: string, sc: Schema, data: Series)
    requires !CpuPlot.Skipped(line) && |Split(line)| >= 2 && Split(line)[1] != cpuId
    ensures CpuPlot.Rows([line] + rest, cpuId, sc, data) == CpuPlot.Rows(rest, cpuId, sc, data)
  {
    assert CpuPlot.Step(line, cpuId, sc, data) == Ok(data);
    assert ([line] + rest)[1..] == rest;
  }

  /** `cpuplot.py` raises `IndexError` on the one-token line. */
  lemma PlotTokenFails(cpuId: string, sc: Schema, data: Series)
    ensures CpuPlot.Rows(["x"], cpuId, sc, data) == Err(ShortRow)
  {
    TokenLine();
    assert CpuPlot.Step("x", cpuId, sc, data) == Err(ShortRow);
  }

  /** `cpu_monitor.py` passes over a line that is no row for the CPU. */
  lemma MonitorPassesOver(line: string, rest: seq<string>, cpuId: string, indices: map<Metric, nat>, time: int, data: Series)
    requires CpuMonitor.Complete(indices) && !CpuMonitor.IsRow(line, cpuId)
    ensures CpuMonitor.Rows([line] + rest, cpuId, indices, time, data) == CpuMonitor.Rows(rest, cpuId, indices, time, data)
  {
    assert CpuMonitor.Step(line, cpuId, indices, time, data) == Ok(data);
    assert ([line] + rest)[1..] == rest;
  }

  /** `cpu_monitor.py` passes over the one-token line. */
  lemma MonitorTokenSkipped(cpuId: string, indices: map<Metric, nat>, time: int, data: Series)
    requires CpuMonitor.Complete(indices)
    ensures CpuMonitor.Rows(["x"], cpuId, indices, time, data) == Ok(data)
  {
    TokenLine();
    CpuMonitor.ShortLineSkipped("x", cpuId, indices, time, data);
  }

  /**
    In `cpu_monitor.py`, a file that starts with a header line `h` whose
    layout resolves, and which is no row for the CPU, gives what the row loop
    gives over the remaining lines, under a dict and a time index that amount
    to the layout.
   */
  lemma MonitorAfterHeader(h: string, rest: seq<string>, cpuId: string)
    requires Contains(h, HeaderMark) && CpuPlot.Resolve(Split(h)).Ok? && !CpuMonitor.IsRow(h, cpuId)
    ensures exists indices: map<Metric, nat>, time: int ::
      && CpuMonitor.Complete(indices) && CpuMonitor.SchemaOf(indices, time) == CpuPlot.Resolve(Split(h)).value
      && CpuMonitor.Parse([h] + rest, cpuId) == CpuMonitor.Rows(rest, cpuId, indices, time, Empty)
  {
    var lines := [h] + rest;
    assert FirstHeader(lines) == Some(Split(h));
    LayoutsResolveAlike(Split(h));
    LayoutsEqual(Split(h));
    CpuMonitor.ParseRows(lines, cpuId);
    var indices, time :| && CpuMonitor.Complete(indices)
                         && CpuMonitor.SchemaOf(indices, time) == CpuMonitor.Layout(Split(h)).value
                         && CpuMonitor.Parse(lines, cpuId) == CpuMonitor.Rows(lines, cpuId, indices, time, Empty);
    MonitorPassesOver(h, rest, cpuId, indices, time, Empty);
  }

  /** A stray one-token line after a header line `h` whose layout resolves: `cpuplot.py` raises `IndexError` at `parts[1]`. */
  lemma SingleTokenPlot(h: string, cpuId: string)
    requires Contains(h, HeaderMark) && !CpuPlot.Skipped(h) && CpuPlot.Resolve(Split(h)).Ok?
    requires |Split(h)| >= 2 && Split(h)[1] != cpuId
    ensures CpuPlot.Parse([h, "x"], cpuId) == Err(ShortRow)
  {
    var lines := [h] + ["x"];
    assert FirstHeader(lines) == Some(Split(h));
    PlotParseRows(lines, cpuId);
    var sc := CpuPlot.Resolve(Split(h)).value;
    PlotPassesOver(h, ["x"], cpuId, sc, Empty);
    PlotTokenFails(cpuId, sc, Empty);
  }

  /** The same file in `cpu_monitor.py`: the one-token line is passed over and the dict stays empty. */
  lemma SingleTokenMonitor(h: string, cpuId: string)
    requires Contains(h, HeaderMark) && CpuPlot.Resolve(Split(h)).Ok?
    requires |Split(h)| >= 2 && Split(h)[1] != cpuId
    ensures CpuMonitor.Parse([h] + ["x"], cpuId) == Ok(Empty)
  {
    MonitorAfterHeader(h, ["x"], cpuId);
    var indices, time :| && CpuMonitor.Complete(indices)
                         && CpuMonitor.Parse([h] + ["x"], cpuId) == CpuMonitor.Rows(["x"], cpuId, indices, time, Empty);
    MonitorTokenSkipped(cpuId, indices, time, Empty);
  }

  /** The header line of `HeaderTokens` meets the conditions above for `all`. */
  lemma HeaderLineFits()
    ensures var h := Join(HeaderTokens);
      && Contains(h, HeaderMark) && !CpuPlot.Skipped(h) && CpuPlot.Resolve(Split(h)).Ok?
      && |Split(h)| >= 2 && Split(h)[1] != "all"
  {
    HeaderSplit();
    HeaderSeen();
    HeaderLayout();
  }

  /** `cpuplot.py` passes over a banner or blank line. */
  lemma PlotSkips(line: string, rest: seq<string>, cpuId: string, sc: Schema, data: Series)
    requires CpuPlot.Skipped(line)
    ensures CpuPlot.Rows([line] + rest, cpuId, sc, data) == CpuPlot.Rows(rest, cpuId, sc, data)
  {
    assert ([line] + rest)[1..] == rest;
  }

  /**
    A banner line that reads as a row for the CPU, after a header line `h`
    whose layout resolves: `cpuplot.py` passes it over and returns the empty
    dict.
   */
  lemma BannerRowPlot(h: string, b: string, cpuId: string)
    requires Contains(h, HeaderMark) && !CpuPlot.Skipped(h) && CpuPlot.Resolve(Split(h)).Ok?
    requires |Split(h)| >= 2 && Split(h)[1] != cpuId
    requires CpuPlot.Skipped(b)
    ensures CpuPlot.Parse([h, b], cpuId) == Ok(Empty)
  {
    var lines := [h] + [b];
    assert FirstHeader(lines) == Some(Split(h));
    PlotParseRows(lines, cpuId);
    var sc := CpuPlot.Resolve(Split(h)).value;
    PlotPassesOver(h, [b], cpuId, sc, Empty);
    PlotSkips(b, [], cpuId, sc, Empty);
  }

  /** `cpu_monitor.py` takes the sample of a last line that is a row for the CPU whose values all read. */
  lemma MonitorTakesLast(line: string, cpuId: string, indices: map<Metric, nat>, time: int, data: Series,
                         sc: Schema, sample: Sample)
    requires CpuMonitor.Complete(indices) && CpuMonitor.SchemaOf(indices, time) == sc
    requires CpuMonitor.IsRow(line, cpuId) && Extract(Split(line), sc) == Ok(sample)
    ensures CpuMonitor.Rows([line], cpuId, indices, time, data) == Ok(data.Push(sample))
  {
    CpuMonitor.StepCases(line, cpuId, indices, time, data);
  }

  /** The same file in `cpu_monitor.py`: the banner line gives a sample. */
  lemma BannerRowMonitor(h: string, b: string, cpuId: string, sample: Sample)
    requires Contains(h, HeaderMark) && CpuPlot.Resolve(Split(h)).Ok?
    requires |Split(h)| >= 2 && Split(h)[1] != cpuId
    requires CpuMonitor.IsRow(b, cpuId) && Extract(Split(b), CpuPlot.Resolve(Split(h)).value) == Ok(sample)
    ensures CpuMonitor.Parse([h] + [b], cpuId) == Ok(Empty.Push(sample))
  {
    MonitorAfterHeader(h, [b], cpuId);
    var sc := CpuPlot.Resolve(Split(h)).value;
    var indices, time :| && CpuMonitor.Complete(indices) && CpuMonitor.SchemaOf(indices, time) == sc
                         && CpuMonitor.Parse([h] + [b], cpuId) == CpuMonitor.Rows([b], cpuId, indices, time, Empty);
    MonitorTakesLast(b, cpuId, indices, time, Empty, sc, sample);
  }

  /** The tokens of a banner line whose second token is `all`; under the header above its time label is `Linux`. */
  const BannerTokens: seq<string> := ["Linux", "all", "1.0", "2.0", "3.0", "4.0", "5.0", "6.0"]

  /** The sample `cpu_monitor.py` takes from that line under the header above. */
  const BannerSample: Sample := Sample("Linux", Finite(1.0), Finite(2.0), Finite(3.0), Finite(4.0), Finite(5.0), Finite(6.0))

  /** `parts` holds the tokens of `BannerTokens`. */
  predicate IsBannerRow(parts: seq<string>) {
    && |parts| == 8 && parts[0] == "Linux" && parts[1] == "all"
    && parts[2] == "1.0" && parts[3] == "2.0" && parts[4] == "3.0"
    && parts[5] == "4.0" && parts[6] == "5.0" && parts[7] == "6.0"
  }

  /** The banner line splits back into its tokens. */
  lemma BannerSplit()
    ensures IsBannerRow(Split(Join(BannerTokens)))
  {
    assert forall k :: 0 <= k < |BannerTokens| ==> IsToken(BannerTokens[k]);
    SplitJoin(BannerTokens);
  }

  lemma BannerFirstCells(parts: seq<string>)
    requires IsBannerRow(parts)
    ensures Cell(parts, 2) == Ok(Finite(1.0)) && Cell(parts, 3) == Ok(Finite(2.0)) && Cell(parts, 4) == Ok(Finite(3.0))
  {
    CellFixed(parts, 2, "1", "0");
    CellFixed(parts, 3, "2", "0");
    CellFixed(parts, 4, "3", "0");
  }

  lemma BannerLastCells(parts: seq<string>)
    requires IsBannerRow(parts)
    ensures Cell(parts, 5) == Ok(Finite(4.0)) && Cell(parts, 6) == Ok(Finite(5.0)) && Cell(parts, 7) == Ok(Finite(6.0))
  {
    CellFixed(parts, 5, "4", "0");
    CellFixed(parts, 6, "5", "0");
    CellFixed(parts, 7, "6", "0");
  }

  /** Under the header's layout the banner line reads as `BannerSample`. */
  lemma BannerExtract(parts: seq<string>)
    requires IsBannerRow(parts)
    ensures Extract(parts, Schema(0, 2, 3, 4, 5, 6, 7)) == Ok(BannerSample)
  {
    BannerFirstCells(parts);
    BannerLastCells(parts);
  }

  /** Such a line is a banner to `cpuplot.py` and a row for `all` to `cpu_monitor.py`. */
  lemma BannerLineSeen(b: string)
    requires IsBannerRow(Split(b))
    ensures CpuPlot.Skipped(b) && CpuMonitor.IsRow(b, "all")
  {
    CpuPlot.SkippedTokens(b);
    assert StartsWith(Split(b)[0], "Linux");
  }

  /**
    The header line of `HeaderTokens` followed by a line with the tokens of
    `BannerTokens`, asked for `all`: `cpuplot.py` returns seven empty lists,
    `cpu_monitor.py` the banner's sample.
   */
  lemma BannerDisagreement(b: string)
    requires IsBannerRow(Split(b))
    ensures CpuPlot.Parse([Join(HeaderTokens), b], "all") == Ok(Empty)
    ensures CpuMonitor.Parse([Join(HeaderTokens)] + [b], "all") == Ok(Empty.Push(BannerSample))
  {
    var h := Join(HeaderTokens);
    HeaderLineFits();
    HeaderSplit();
    HeaderLayout();
    BannerLineSeen(b);
    BannerExtract(Split(b));
    BannerRowPlot(h, b, "all");
    BannerRowMonitor(h, b, "all", BannerSample);
  }
}
