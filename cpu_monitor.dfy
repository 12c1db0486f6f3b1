/**
  `parse_mpstat` of `cpu_monitor.py`: the same header search, a dict of
  metric column positions built in key order, the time index taken from
  `CPU`, and a row loop that splits every line and keeps the lines with more
  than one token whose second token is the requested CPU identifier,
  appending the time token and then each metric in the dict's order.

  `Parse` is the function the code computes and `ParseMpstat` the loops that
  compute it in place. The index dict is a `map`; Python iterates it in
  insertion order, which is the order of `Metrics`.
 */
module CpuMonitor {
  import opened Wrappers
  import opened Text
  import opened Number
  import opened Mpstat

  /** An index dict with a position for every metric. */
  predicate Complete(indices: map<Metric, nat>) {
    forall m :: m in indices
  }

  /** `{key: header.index(f'%{key}') for key in keys}` over the keys `ms`, in order; the first absent column raises. */
  function Indices(header: seq<string>, ms: seq<Metric>): (r: Outcome<map<Metric, nat>>)
    ensures r.Ok? ==> forall m :: m in r.value <==> m in ms
    decreases |ms|
  {
    if ms == [] then Ok(map[])
    else
      var i :- Find(header, Column(ms[0]));
      var rest :- Indices(header, ms[1..]);
      Ok(rest[ms[0] := i])
  }

  /** `header.index('CPU') - 1`. */
  function TimeIndex(header: seq<string>): Outcome<int> {
    var cpu :- Find(header, CpuColumn);
    Ok(cpu as int - 1)
  }

  /** `len(parts) > 1 and (parts[1] == cpu_id or (cpu_id == 'all' and parts[1] == 'all'))`. */
  predicate Qualifies(parts: seq<string>, cpuId: string) {
    |parts| > 1 && MatchesCpu(parts[1], cpuId)
  }

  /** The inner loop `for key, idx in indices.items()` over the keys `ms`, from `data`. */
  function AppendMetrics(parts: seq<string>, indices: map<Metric, nat>, ms: seq<Metric>, data: Series): Outcome<Series>
    requires Complete(indices)
    decreases |ms|
  {
    if ms == [] then Ok(data)
    else
      var v :- Cell(parts, indices[ms[0]]);
      AppendMetrics(parts, indices, ms[1..], data.Append(ms[0], v))
  }

  /** One pass of the row loop over `line`, with `data` collected so far. */
  function Step(line: string, cpuId: string, indices: map<Metric, nat>, time: int, data: Series): Outcome<Series>
    requires Complete(indices)
  {
    var parts := Split(line);
    if Qualifies(parts, cpuId) then
      var t :- Token(parts, time);
      AppendMetrics(parts, indices, Metrics, data.(time := data.time + [t]))
    else Ok(data)
  }

  /** The row loop over `lines`, starting from `data`; the first exception ends it. */
  function Rows(lines: seq<string>, cpuId: string, indices: map<Metric, nat>, time: int, data: Series): Outcome<Series>
    requires Complete(indices)
    decreases |lines|
  {
    if lines == [] then Ok(data)
    else
      var next :- Step(lines[0], cpuId, indices, time, data);
      Rows(lines[1..], cpuId, indices, time, next)
  }

  /** `parse_mpstat(file, cpu_id)` on the lines of the file. */
  function Parse(lines: seq<string>, cpuId: string): Outcome<Series> {
    var header := FirstHeader(lines);
    if header.None? || header.value == [] then Err(MissingHeader)
    else
      var indices :- Indices(header.value, Metrics);
      var time :- TimeIndex(header.value);
      MetricsListed();
      Rows(lines, cpuId, indices, time, Empty)
  }

  /** `parse_mpstat` as the code runs it: the header and the index dict, then the row loop with its inner loop over the dict. */
  method ParseMpstat(lines: seq<string>, cpuId: string) returns (r: Outcome<Series>)
    ensures r == Parse(lines, cpuId)
  {
    var header := FirstHeader(lines);
    if header.None? || header.value == [] {
      return Err(MissingHeader);
    }
    var indices :- Indices(header.value, Metrics);
    var timeIdx :- TimeIndex(header.value);
    MetricsListed();

    var data := Empty;
    for j := 0 to |lines|
      invariant Rows(lines, cpuId, indices, timeIdx, Empty) == Rows(lines[j..], cpuId, indices, timeIdx, data)
    {
      assert lines[j..][0] == lines[j] && lines[j..][1..] == lines[j + 1..];
      var parts := Split(lines[j]);
      if |parts| > 1 && (parts[1] == cpuId || (cpuId == "all" && parts[1] == "all")) {
        var t :- Token(parts, timeIdx);
        data := data.(time := data.time + [t]);
        ghost var start := data;
        for k := 0 to |Metrics|
          invariant AppendMetrics(parts, indices, Metrics, start) == AppendMetrics(parts, indices, Metrics[k..], data)
        {
          assert Metrics[k..][0] == Metrics[k] && Metrics[k..][1..] == Metrics[k + 1..];
          var key := Metrics[k];
          var v :- Cell(parts, indices[key]);
          data := data.Append(key, v);
        }
      }
    }
    return Ok(data);
  }

  // ---------------------------------------------------------------------------
  // The row pass in terms of the shared extraction

  /** The column layout that the index dict and the time index amount to. */
  function SchemaOf(indices: map<Metric, nat>, time: int): Schema
    requires Complete(indices)
  {
    Schema(time, indices[Usr], indices[Sys], indices[Iowait], indices[Irq], indices[Soft], indices[Idle])
  }

  /** The cells of the keys `ms`, in order. */
  function CellsOf(parts: seq<string>, indices: map<Metric, nat>, ms: seq<Metric>): (cs: seq<Outcome<Number>>)
    requires Complete(indices)
    ensures |cs| == |ms|
    decreases |ms|
  {
    if ms == [] then [] else [Cell(parts, indices[ms[0]])] + CellsOf(parts, indices, ms[1..])
  }

  /** Appending the already evaluated cells `cs` for the keys `ms`, stopping at the first failure. */
  function Fold(ms: seq<Metric>, cs: seq<Outcome<Number>>, data: Series): Outcome<Series>
    requires |cs| == |ms|
    decreases |ms|
  {
    if ms == [] then Ok(data)
    else if cs[0].Err? then Err(cs[0].error)
    else Fold(ms[1..], cs[1..], data.Append(ms[0], cs[0].value))
  }

  /** The inner loop is the fold of its cells. */
  lemma {:induction false} AppendFold(parts: seq<string>, indices: map<Metric, nat>, ms: seq<Metric>, data: Series)
    requires Complete(indices)
    ensures AppendMetrics(parts, indices, ms, data) == Fold(ms, CellsOf(parts, indices, ms), data)
    decreases |ms|
  {
    if ms != [] {
      var cs := CellsOf(parts, indices, ms);
      assert cs[0] == Cell(parts, indices[ms[0]]) && cs[1..] == CellsOf(parts, indices, ms[1..]);
      if cs[0].Ok? {
        AppendFold(parts, indices, ms[1..], data.Append(ms[0], cs[0].value));
      }
    }
  }

  /** The cells of all six keys are those of the layout the dict amounts to. */
  lemma CellsOfMetrics(parts: seq<string>, indices: map<Metric, nat>, time: int)
    requires Complete(indices)
    ensures CellsOf(parts, indices, Metrics) == Cells(parts, SchemaOf(indices, time))
  {
    var ms := Metrics;
    assert ms[1..] == [Sys, Iowait, Irq, Soft, Idle];
    assert ms[1..][1..] == [Iowait, Irq, Soft, Idle];
    assert ms[1..][1..][1..] == [Irq, Soft, Idle];
    assert ms[1..][1..][1..][1..] == [Soft, Idle];
    assert ms[1..][1..][1..][1..][1..] == [Idle];
  }

  /** Folding six cells over the keys in order, after the time token `t`, pushes their sample or stops at the first failure. */
  lemma FoldCombine(cs: seq<Outcome<Number>>, t: string, data: Series)
    requires |cs| == 6
    ensures Fold(Metrics, cs, data.(time := data.time + [t]))
         == var c := Combine(Ok(t), cs[0], cs[1], cs[2], cs[3], cs[4], cs[5]);
            if c.Ok? then Ok(data.Push(c.value)) else Err(c.error)
  {
    var ms := Metrics;
    assert ms[1..] == [Sys, Iowait, Irq, Soft, Idle];
    assert ms[1..][1..] == [Iowait, Irq, Soft, Idle];
    assert ms[1..][1..][1..] == [Irq, Soft, Idle];
    assert ms[1..][1..][1..][1..] == [Soft, Idle];
    assert ms[1..][1..][1..][1..][1..] == [Idle];
  }

  /**
    A qualifying line yields what the shared extraction yields under the
    layout of the dict: the time token and the six cells in the order of
    `Metrics`, the first failure being the error; any other line leaves the
    lists as they are.
   */
  lemma StepExtract(line: string, cpuId: string, indices: map<Metric, nat>, time: int, data: Series)
    requires Complete(indices)
    ensures Step(line, cpuId, indices, time, data)
         == if !Qualifies(Split(line), cpuId) then Ok(data)
            else var x := Extract(Split(line), SchemaOf(indices, time));
              if x.Ok? then Ok(data.Push(x.value)) else Err(x.error)
  {
    var parts := Split(line);
    if Qualifies(parts, cpuId) && Token(parts, time).Ok? {
      var t := Token(parts, time).value;
      var d := data.(time := data.time + [t]);
      AppendFold(parts, indices, Metrics, d);
      CellsOfMetrics(parts, indices, time);
      var cs := Cells(parts, SchemaOf(indices, time));
      FoldCombine(cs, t, data);
    }
  }

  // ---------------------------------------------------------------------------
  // A reference description of the row loop

  /** A line the row loop takes a sample from: more than one token, the second one the CPU identifier. */
  predicate IsRow(line: string, cpuId: string) {
    |Split(line)| > 1 && Split(line)[1] == cpuId
  }

  /** The samples of the lines the row loop takes samples from, in input order. */
  function Samples(lines: seq<string>, cpuId: string, sc: Schema): seq<Sample>
    decreases |lines|
  {
    if lines == [] then []
    else
      var here := if IsRow(lines[0], cpuId) && Extract(Split(lines[0]), sc).Ok?
                  then [Extract(Split(lines[0]), sc).value] else [];
      here + Samples(lines[1..], cpuId, sc)
  }

  /** The exception the row loop raises at `line`, if any: only a row for the CPU can fail, when its sample does not extract. */
  function Fault(line: string, cpuId: string, sc: Schema): Option<ParseError> {
    if IsRow(line, cpuId) && Extract(Split(line), sc).Err? then Some(Extract(Split(line), sc).error) else None
  }

  // ---------------------------------------------------------------------------
  // Properties

  /** One pass of the loop fails exactly at a fault, and otherwise appends the row's sample or nothing. */
  lemma StepCases(line: string, cpuId: string, indices: map<Metric, nat>, time: int, data: Series)
    requires Complete(indices)
    ensures var sc := SchemaOf(indices, time);
      && (Step(line, cpuId, indices, time, data).Err? <==> Fault(line, cpuId, sc).Some?)
      && (Step(line, cpuId, indices, time, data).Err? ==> Step(line, cpuId, indices, time, data).error == Fault(line, cpuId, sc).value)
      && (Step(line, cpuId, indices, time, data).Ok? ==>
            Step(line, cpuId, indices, time, data).value
              == if IsRow(line, cpuId) then data.Push(Extract(Split(line), sc).value) else data)
  {
    StepExtract(line, cpuId, indices, time, data);
  }

  /** A line with fewer than two tokens is passed over: it never raises and adds nothing. */
  lemma ShortLineSkipped(line: string, cpuId: string, indices: map<Metric, nat>, time: int, data: Series)
    requires Complete(indices)
    requires |Split(line)| <= 1
    ensures Step(line, cpuId, indices, time, data) == Ok(data)
  {
  }

  /** The loop completes exactly when no line faults. */
  lemma {:induction false} RowsOk(lines: seq<string>, cpuId: string, indices: map<Metric, nat>, time: int, data: Series)
    requires Complete(indices)
    ensures Rows(lines, cpuId, indices, time, data).Ok?
        <==> forall i :: 0 <= i < |lines| ==> Fault(lines[i], cpuId, SchemaOf(indices, time)).None?
    decreases |lines|
  {
    if lines != [] {
      StepCases(lines[0], cpuId, indices, time, data);
      if Step(lines[0], cpuId, indices, time, data).Ok? {
        RowsOk(lines[1..], cpuId, indices, time, Step(lines[0], cpuId, indices, time, data).value);
        assert forall i :: 1 <= i < |lines| ==> lines[i] == lines[1..][i - 1];
      }
    }
  }

  /** A failed loop reports the fault of the first faulty line. */
  lemma {:induction false} RowsErr(lines: seq<string>, cpuId: string, indices: map<Metric, nat>, time: int, data: Series)
    requires Complete(indices)
    requires Rows(lines, cpuId, indices, time, data).Err?
    ensures var sc := SchemaOf(indices, time);
      exists i :: && 0 <= i < |lines|
                  && (forall j :: 0 <= j < i ==> Fault(lines[j], cpuId, sc).None?)
                  && Fault(lines[i], cpuId, sc) == Some(Rows(lines, cpuId, indices, time, data).error)
    decreases |lines|
  {
    var sc := SchemaOf(indices, time);
    StepCases(lines[0], cpuId, indices, time, data);
    if Step(lines[0], cpuId, indices, time, data).Ok? {
      var rest := lines[1..];
      RowsErr(rest, cpuId, indices, time, Step(lines[0], cpuId, indices, time, data).value);
      var i :| && 0 <= i < |rest|
               && (forall j :: 0 <= j < i ==> Fault(rest[j], cpuId, sc).None?)
               && Fault(rest[i], cpuId, sc) == Some(Rows(lines, cpuId, indices, time, data).error);
      assert forall j :: 0 <= j < i + 1 ==> Fault(lines[j], cpuId, sc).None? by {
        forall j | 0 <= j < i + 1 ensures Fault(lines[j], cpuId, sc).None? {
          if j > 0 {
            assert lines[j] == rest[j - 1];
          }
        }
      }
      assert lines[i + 1] == rest[i];
    } else {
      assert Fault(lines[0], cpuId, sc) == Some(Rows(lines, cpuId, indices, time, data).error);
    }
  }

  /** A completed loop has appended to `data`, in input order, the sample of every matching row and nothing else. */
  lemma {:induction false} RowsSamples(lines: seq<string>, cpuId: string, indices: map<Metric, nat>, time: int, data: Series)
    requires Complete(indices)
    requires Rows(lines, cpuId, indices, time, data).Ok?
    ensures Rows(lines, cpuId, indices, time, data) == Ok(data.PushAll(Samples(lines, cpuId, SchemaOf(indices, time))))
    decreases |lines|
  {
    if lines != [] {
      var sc := SchemaOf(indices, time);
      StepCases(lines[0], cpuId, indices, time, data);
      var next := Step(lines[0], cpuId, indices, time, data).value;
      RowsSamples(lines[1..], cpuId, indices, time, next);
      var ss := Samples(lines, cpuId, sc);
      var rest := Samples(lines[1..], cpuId, sc);
      if IsRow(lines[0], cpuId) {
        assert ss == [Extract(Split(lines[0]), sc).value] + rest;
        assert ss[1..] == rest;
      } else {
        assert ss == rest;
      }
    }
  }

  /** The index dict builds exactly when every key's column is in the header. */
  lemma {:induction false} IndicesOk(header: seq<string>, ms: seq<Metric>)
    ensures Indices(header, ms).Ok? <==> forall k :: 0 <= k < |ms| ==> Column(ms[k]) in header
    decreases |ms|
  {
    if ms != [] {
      IndicesOk(header, ms[1..]);
      assert forall k :: 1 <= k < |ms| ==> ms[k] == ms[1..][k - 1];
    }
  }

  /** Every key of the dict maps to the first position of its column in the header. */
  lemma {:induction false} IndicesMap(header: seq<string>, ms: seq<Metric>)
    requires Indices(header, ms).Ok?
    ensures forall m :: m in ms ==> IndexOf(header, Column(m)) == Some(Indices(header, ms).value[m])
    decreases |ms|
  {
    if ms != [] {
      IndicesMap(header, ms[1..]);
      var r := Indices(header, ms).value;
      forall m | m in ms ensures IndexOf(header, Column(m)) == Some(r[m]) {
        if m != ms[0] {
          assert m in ms[1..];
        }
      }
    }
  }

  /** A dict that does not build names the first key, in key order, whose column is missing. */
  lemma {:induction false} IndicesErr(header: seq<string>, ms: seq<Metric>)
    requires Indices(header, ms).Err?
    ensures exists k :: && 0 <= k < |ms| && Column(ms[k]) !in header
                        && (forall j :: 0 <= j < k ==> Column(ms[j]) in header)
                        && Indices(header, ms).error == MissingColumn(Column(ms[k]))
    decreases |ms|
  {
    if Column(ms[0]) in header {
      IndicesErr(header, ms[1..]);
      var k :| && 0 <= k < |ms[1..]| && Column(ms[1..][k]) !in header
               && (forall j :: 0 <= j < k ==> Column(ms[1..][j]) in header)
               && Indices(header, ms[1..]).error == MissingColumn(Column(ms[1..][k]));
      assert ms[k + 1] == ms[1..][k];
      assert forall j :: 1 <= j < k + 1 ==> ms[j] == ms[1..][j - 1];
    }
  }

  /** The time index is one before `CPU`, and is missing exactly when `CPU` is. */
  lemma TimeIndexOf(header: seq<string>)
    ensures TimeIndex(header).Ok? <==> CpuColumn in header
    ensures TimeIndex(header).Ok? ==> IndexOf(header, CpuColumn) == Some(TimeIndex(header).value + 1)
    ensures TimeIndex(header).Err? ==> TimeIndex(header).error == MissingColumn(CpuColumn)
  {
  }

  /** No line fault is a missing header. */
  lemma FaultNotHeader(line: string, cpuId: string, sc: Schema)
    requires Fault(line, cpuId, sc).Some?
    ensures Fault(line, cpuId, sc).value != MissingHeader
  {
    ExtractErr(Split(line), sc);
  }

  /** `sys.exit(1)` is reached exactly when no line contains `%usr`. */
  lemma ParseMissingHeader(lines: seq<string>, cpuId: string)
    ensures Parse(lines, cpuId) == Err(MissingHeader) <==> forall i :: 0 <= i < |lines| ==> !Contains(lines[i], HeaderMark)
  {
    FirstHeaderIsFirst(lines);
    var header := FirstHeader(lines);
    if header.Some? {
      HeaderNotEmpty(lines);
      var indices := Indices(header.value, Metrics);
      if indices.Err? {
        IndicesErr(header.value, Metrics);
      } else if TimeIndex(header.value).Ok? {
        MetricsListed();
        var time := TimeIndex(header.value).value;
        if Rows(lines, cpuId, indices.value, time, Empty).Err? {
          RowsErr(lines, cpuId, indices.value, time, Empty);
          var sc := SchemaOf(indices.value, time);
          var i :| 0 <= i < |lines| && Fault(lines[i], cpuId, sc) == Some(Rows(lines, cpuId, indices.value, time, Empty).error);
          FaultNotHeader(lines[i], cpuId, sc);
        }
      }
    }
  }

  /** The column layout the header gives: the dict and the time index together. */
  function Layout(header: seq<string>): Outcome<Schema> {
    var indices :- Indices(header, Metrics);
    var time :- TimeIndex(header);
    MetricsListed();
    Ok(SchemaOf(indices, time))
  }

  /** A layout that does not resolve names the first missing metric column in key order, and otherwise `CPU`. */
  lemma LayoutErr(header: seq<string>)
    requires Layout(header).Err?
    ensures Indices(header, Metrics).Err? ==> Layout(header).error == Indices(header, Metrics).error
    ensures Indices(header, Metrics).Ok? ==> CpuColumn !in header && Layout(header).error == MissingColumn(CpuColumn)
  {
    TimeIndexOf(header);
  }

  /** The layout resolves exactly when `CPU` and every metric column are in the header. */
  lemma LayoutOk(header: seq<string>)
    ensures Layout(header).Ok? <==> CpuColumn in header && forall m :: Column(m) in header
  {
    IndicesOk(header, Metrics);
    TimeIndexOf(header);
    if Indices(header, Metrics).Ok? {
      forall m ensures Column(m) in header {
        var k := match m case Usr => 0 case Sys => 1 case Iowait => 2 case Irq => 3 case Soft => 4 case Idle => 5;
        assert Metrics[k] == m;
      }
    } else {
      var k :| 0 <= k < |Metrics| && Column(Metrics[k]) !in header;
      assert !(forall m :: Column(m) in header);
    }
  }

  /** A resolved layout takes every metric column at the first occurrence of its token, and the time column just before `CPU`. */
  lemma LayoutPositions(header: seq<string>)
    requires Layout(header).Ok?
    ensures IndexOf(header, CpuColumn) == Some(Layout(header).value.time + 1)
    ensures forall m :: IndexOf(header, Column(m)) == Some(Layout(header).value.Col(m))
  {
    var sc := Layout(header).value;
    assert sc.time == TimeIndex(header).value;
    TimeIndexOf(header);
    forall m ensures IndexOf(header, Column(m)) == Some(sc.Col(m)) {
      LayoutColumn(header, m);
    }
  }

  lemma LayoutColumn(header: seq<string>, m: Metric)
    requires Layout(header).Ok?
    ensures IndexOf(header, Column(m)) == Some(Layout(header).value.Col(m))
  {
    IndicesMap(header, Metrics);
    MetricsListed();
    var indices := Indices(header, Metrics).value;
    assert IndexOf(header, Column(m)) == Some(indices[m]);
    assert Layout(header).value == SchemaOf(indices, TimeIndex(header).value);
    match m
    case Usr =>
    case Sys =>
    case Iowait =>
    case Irq =>
    case Soft =>
    case Idle =>
  }

  /** With the layout resolved, the result is that of the row loop under a dict and a time index that amount to the layout. */
  lemma ParseRows(lines: seq<string>, cpuId: string)
    requires FirstHeader(lines).Some? && Layout(FirstHeader(lines).value).Ok?
    ensures exists indices: map<Metric, nat>, time: int ::
      && Complete(indices) && SchemaOf(indices, time) == Layout(FirstHeader(lines).value).value
      && Parse(lines, cpuId) == Rows(lines, cpuId, indices, time, Empty)
  {
    HeaderNotEmpty(lines);
    MetricsListed();
    var header := FirstHeader(lines).value;
    var indices, time := Indices(header, Metrics).value, TimeIndex(header).value;
    assert Parse(lines, cpuId) == Rows(lines, cpuId, indices, time, Empty);
  }

  /**
    With a header line present: a layout that does not resolve is reported;
    otherwise the result is complete exactly when no line faults, and then it
    holds the samples of the matching rows in input order.
   */
  lemma ParseOk(lines: seq<string>, cpuId: string)
    requires FirstHeader(lines).Some?
    ensures var header := FirstHeader(lines).value;
      Layout(header).Err? ==> Parse(lines, cpuId) == Err(Layout(header).error)
    ensures var header := FirstHeader(lines).value;
      Layout(header).Ok? ==>
        var sc := Layout(header).value;
        && (Parse(lines, cpuId).Ok? <==> forall i :: 0 <= i < |lines| ==> Fault(lines[i], cpuId, sc).None?)
        && (Parse(lines, cpuId).Ok? ==> Parse(lines, cpuId) == Ok(Empty.PushAll(Samples(lines, cpuId, sc))))
  {
    HeaderNotEmpty(lines);
    var header := FirstHeader(lines).value;
    MetricsListed();
    if Layout(header).Ok? {
      var indices, time := Indices(header, Metrics).value, TimeIndex(header).value;
      RowsOk(lines, cpuId, indices, time, Empty);
      if Rows(lines, cpuId, indices, time, Empty).Ok? {
        RowsSamples(lines, cpuId, indices, time, Empty);
      }
    }
  }

  /** A failure after the layout is resolved is the fault of the first faulty line. */
  lemma ParseErr(lines: seq<string>, cpuId: string)
    requires FirstHeader(lines).Some? && Layout(FirstHeader(lines).value).Ok?
    requires Parse(lines, cpuId).Err?
    ensures var sc := Layout(FirstHeader(lines).value).value;
      exists i :: && 0 <= i < |lines|
                  && (forall j :: 0 <= j < i ==> Fault(lines[j], cpuId, sc).None?)
                  && Fault(lines[i], cpuId, sc) == Some(Parse(lines, cpuId).error)
  {
    HeaderNotEmpty(lines);
    var header := FirstHeader(lines).value;
    MetricsListed();
    RowsErr(lines, cpuId, Indices(header, Metrics).value, TimeIndex(header).value, Empty);
  }

  /** Without a row for the CPU the result is the dict of seven empty lists. */
  lemma {:induction false} NoRowNoSample(lines: seq<string>, cpuId: string, sc: Schema)
    requires forall i :: 0 <= i < |lines| ==> !IsRow(lines[i], cpuId)
    ensures Samples(lines, cpuId, sc) == []
    decreases |lines|
  {
    if lines != [] {
      assert forall i :: 1 <= i < |lines| ==> lines[1..][i - 1] == lines[i];
      NoRowNoSample(lines[1..], cpuId, sc);
    }
  }

  /** Without a row for the CPU, a file whose header has every column yields the dict of seven empty lists, never an error. */
  lemma NoMatchEmpty(lines: seq<string>, cpuId: string)
    requires FirstHeader(lines).Some? && Layout(FirstHeader(lines).value).Ok?
    requires forall i :: 0 <= i < |lines| ==> !IsRow(lines[i], cpuId)
    ensures Parse(lines, cpuId) == Ok(Empty)
  {
    var sc := Layout(FirstHeader(lines).value).value;
    assert forall i :: 0 <= i < |lines| ==> Fault(lines[i], cpuId, sc).None?;
    ParseOk(lines, cpuId);
    NoRowNoSample(lines, cpuId, sc);
  }
}
