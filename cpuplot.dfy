/**
  `parse_mpstat` of `cpuplot.py`: it finds the header, resolves the seven
  column positions with `list.index`, then walks every line, skipping the
  `Linux` banner and blank lines, and appends one sample per row whose second
  token is the requested CPU identifier.

  `Parse` is the function the code computes, written as a left fold over the
  lines (`Rows`), and `ParseMpstat` is the loop that computes it in place.
 */
module CpuPlot {
  import opened Wrappers
  import opened Text
  import opened Number
  import opened Mpstat

  /** The header tokens looked up, in the order the code looks them up. */
  const PlotColumns: seq<string> := [CpuColumn, "%usr", "%sys", "%iowait", "%irq", "%soft", "%idle"]

  /** The column layout: `header.index('CPU') - 1` for the time, then the six metric columns. */
  function Resolve(header: seq<string>): Outcome<Schema> {
    var cpu :- Find(header, CpuColumn);
    var usr :- Find(header, "%usr");
    var sys :- Find(header, "%sys");
    var iowait :- Find(header, "%iowait");
    var irq :- Find(header, "%irq");
    var soft :- Find(header, "%soft");
    var idle :- Find(header, "%idle");
    Ok(Schema(cpu - 1, usr, sys, iowait, irq, soft, idle))
  }

  /** The banner line and blank lines are passed over before the line is split. */
  predicate Skipped(line: string) {
    StartsWith(Strip(line), "Linux") || Strip(line) == ""
  }

  /** One pass of the row loop over `line`, with `data` collected so far. */
  function Step(line: string, cpuId: string, sc: Schema, data: Series): Outcome<Series> {
    if Skipped(line) then Ok(data)
    else
      var parts := Split(line);
      if |parts| < 2 then Err(ShortRow)
      else if MatchesCpu(parts[1], cpuId) then
        var sample :- Extract(parts, sc);
        Ok(data.Push(sample))
      else Ok(data)
  }

  /** The row loop over `lines`, starting from `data`; the first exception ends it. */
  function Rows(lines: seq<string>, cpuId: string, sc: Schema, data: Series): Outcome<Series>
    decreases |lines|
  {
    if lines == [] then Ok(data)
    else
      var next :- Step(lines[0], cpuId, sc, data);
      Rows(lines[1..], cpuId, sc, next)
  }

  /** `parse_mpstat(file, cpu_id)` on the lines of the file. */
  function Parse(lines: seq<string>, cpuId: string): Outcome<Series> {
    var header := FirstHeader(lines);
    if header.None? || header.value == [] then Err(MissingHeader)
    else
      var sc :- Resolve(header.value);
      Rows(lines, cpuId, sc, Empty)
  }

  /** The header search: the first line containing `%usr`, split; `None` when the loop finds none. */
  method FindHeader(lines: seq<string>) returns (header: Option<seq<string>>)
    ensures header == FirstHeader(lines)
  {
    header := None;
    var i := 0;
    while i < |lines|
      invariant 0 <= i <= |lines|
      invariant FirstHeader(lines) == FirstHeader(lines[i..])
    {
      if Contains(lines[i], HeaderMark) {
        header := Some(Split(lines[i]));
        return;
      }
      i := i + 1;
    }
  }

  /**
    The appends for one matching row, one list at a time in the order of the
    code; the first exception ends the call, and the lists it has already
    extended are then discarded with the dict.
   */
  method AppendRow(parts: seq<string>, sc: Schema, data: Series) returns (r: Outcome<Series>)
    requires data.Aligned()
    ensures r.Ok? <==> Extract(parts, sc).Ok?
    ensures r.Ok? ==> r.value == data.Push(Extract(parts, sc).value)
    ensures r.Err? ==> r.error == Extract(parts, sc).error
    ensures r.Ok? ==> r.value.Aligned() && r.value.Size() == data.Size() + 1
  {
    var next := data;
    var v0 :- Token(parts, sc.time);
    next := next.(time := next.time + [v0]);
    var v1 :- Cell(parts, sc.usr);
    next := next.(usr := next.usr + [v1]);
    var v2 :- Cell(parts, sc.sys);
    next := next.(sys := next.sys + [v2]);
    var v3 :- Cell(parts, sc.iowait);
    next := next.(iowait := next.iowait + [v3]);
    var v4 :- Cell(parts, sc.irq);
    next := next.(irq := next.irq + [v4]);
    var v5 :- Cell(parts, sc.soft);
    next := next.(soft := next.soft + [v5]);
    var v6 :- Cell(parts, sc.idle);
    next := next.(idle := next.idle + [v6]);
    return Ok(next);
  }

  /** `parse_mpstat` as the code runs it: the header search, the index lookups, then the row loop. */
  method ParseMpstat(lines: seq<string>, cpuId: string) returns (r: Outcome<Series>)
    ensures r == Parse(lines, cpuId)
  {
    var header := FindHeader(lines);
    if header.None? || header.value == [] {
      return Err(MissingHeader);
    }
    var h := header.value;
    var cpu :- Find(h, CpuColumn);
    var timeIdx := cpu as int - 1;
    var usrIdx :- Find(h, "%usr");
    var sysIdx :- Find(h, "%sys");
    var iowaitIdx :- Find(h, "%iowait");
    var irqIdx :- Find(h, "%irq");
    var softIdx :- Find(h, "%soft");
    var idleIdx :- Find(h, "%idle");
    var sc := Schema(timeIdx, usrIdx, sysIdx, iowaitIdx, irqIdx, softIdx, idleIdx);
    assert Resolve(h) == Ok(sc);

    var data := Empty;
    for j := 0 to |lines|
      invariant data.Aligned()
      invariant Rows(lines, cpuId, sc, Empty) == Rows(lines[j..], cpuId, sc, data)
    {
      var line := lines[j];
      assert lines[j..][0] == line && lines[j..][1..] == lines[j + 1..];
      if StartsWith(Strip(line), "Linux") || Strip(line) == "" {
        continue;
      }
      var parts := Split(line);
      if |parts| < 2 {
        return Err(ShortRow);
      }
      if parts[1] == cpuId || (cpuId == "all" && parts[1] == "all") {
        data :- AppendRow(parts, sc, data);
      }
    }
    return Ok(data);
  }

  // ---------------------------------------------------------------------------
  // A reference description of the row loop

  /** A line the row loop takes a sample from: not skipped, two tokens or more, the second one the CPU identifier. */
  predicate IsRow(line: string, cpuId: string) {
    !Skipped(line) && |Split(line)| >= 2 && Split(line)[1] == cpuId
  }

  /** The samples of the lines the row loop takes samples from, in input order. */
  function Samples(lines: seq<string>, cpuId: string, sc: Schema): seq<Sample>
    decreases |lines|
  {
    if lines == [] then []
    else
      var here := if IsRow(lines[0], cpuId) && Extract(Split(lines[0]), sc).Ok?
                  then [Extract(Split(lines[0]), sc).value] else [];
      here + Samples(lines[1..], cpuId, sc)
  }

  /**
    The exception the row loop raises at `line`, if any: an unskipped line
    with a single token fails at `parts[1]`, and a row for the CPU fails
    when its sample does not extract.
   */
  function Fault(line: string, cpuId: string, sc: Schema): Option<ParseError> {
    if Skipped(line) then None
    else if |Split(line)| < 2 then Some(ShortRow)
    else if Split(line)[1] == cpuId && Extract(Split(line), sc).Err? then Some(Extract(Split(line), sc).error)
    else None
  }

  // ---------------------------------------------------------------------------
  // Properties

  /** One pass of the loop fails exactly at a fault, and otherwise appends the row's sample or nothing. */
  lemma StepCases(line: string, cpuId: string, sc: Schema, data: Series)
    ensures Step(line, cpuId, sc, data).Err? <==> Fault(line, cpuId, sc).Some?
    ensures Step(line, cpuId, sc, data).Err? ==> Step(line, cpuId, sc, data).error == Fault(line, cpuId, sc).value
    ensures Step(line, cpuId, sc, data).Ok? ==>
      Step(line, cpuId, sc, data).value
        == if IsRow(line, cpuId) then data.Push(Extract(Split(line), sc).value) else data
  {
  }

  /** The loop completes exactly when no line faults. */
  lemma {:induction false} RowsOk(lines: seq<string>, cpuId: string, sc: Schema, data: Series)
    ensures Rows(lines, cpuId, sc, data).Ok? <==> forall i :: 0 <= i < |lines| ==> Fault(lines[i], cpuId, sc).None?
    decreases |lines|
  {
    if lines != [] {
      StepCases(lines[0], cpuId, sc, data);
      if Step(lines[0], cpuId, sc, data).Ok? {
        RowsOk(lines[1..], cpuId, sc, Step(lines[0], cpuId, sc, data).value);
        assert forall i :: 1 <= i < |lines| ==> lines[i] == lines[1..][i - 1];
      }
    }
  }

  /** A failed loop reports the fault of the first faulty line. */
  lemma {:induction false} RowsErr(lines: seq<string>, cpuId: string, sc: Schema, data: Series)
    requires Rows(lines, cpuId, sc, data).Err?
    ensures exists i :: && 0 <= i < |lines|
                        && (forall j :: 0 <= j < i ==> Fault(lines[j], cpuId, sc).None?)
                        && Fault(lines[i], cpuId, sc) == Some(Rows(lines, cpuId, sc, data).error)
    decreases |lines|
  {
    StepCases(lines[0], cpuId, sc, data);
    if Step(lines[0], cpuId, sc, data).Ok? {
      var rest := lines[1..];
      RowsErr(rest, cpuId, sc, Step(lines[0], cpuId, sc, data).value);
      var i :| && 0 <= i < |rest|
               && (forall j :: 0 <= j < i ==> Fault(rest[j], cpuId, sc).None?)
               && Fault(rest[i], cpuId, sc) == Some(Rows(lines, cpuId, sc, data).error);
      assert forall j :: 0 <= j < i + 1 ==> Fault(lines[j], cpuId, sc).None? by {
        forall j | 0 <= j < i + 1 ensures Fault(lines[j], cpuId, sc).None? {
          if j > 0 {
            assert lines[j] == rest[j - 1];
          }
        }
      }
      assert lines[i + 1] == rest[i];
    } else {
      assert Fault(lines[0], cpuId, sc) == Some(Rows(lines, cpuId, sc, data).error);
    }
  }

  /** A completed loop has appended to `data`, in input order, the sample of every matching row and nothing else. */
  lemma {:induction false} RowsSamples(lines: seq<string>, cpuId: string, sc: Schema, data: Series)
    requires Rows(lines, cpuId, sc, data).Ok?
    ensures Rows(lines, cpuId, sc, data) == Ok(data.PushAll(Samples(lines, cpuId, sc)))
    decreases |lines|
  {
    if lines != [] {
      StepCases(lines[0], cpuId, sc, data);
      var next := Step(lines[0], cpuId, sc, data).value;
      RowsSamples(lines[1..], cpuId, sc, next);
      var ss := Samples(lines, cpuId, sc);
      var rest := Samples(lines[1..], cpuId, sc);
      if IsRow(lines[0], cpuId) {
        assert ss == [Extract(Split(lines[0]), sc).value] + rest;
        assert ss[1..] == rest;
      } else {
        assert ss == rest;
      }
    }
  }

  /** The layout resolves exactly when all seven tokens are in the header. */
  lemma ResolveOk(header: seq<string>)
    ensures Resolve(header).Ok? <==> forall k :: 0 <= k < |PlotColumns| ==> PlotColumns[k] in header
  {
    var all := && CpuColumn in header && "%usr" in header && "%sys" in header && "%iowait" in header
               && "%irq" in header && "%soft" in header && "%idle" in header;
    assert Resolve(header).Ok? <==> all;
    if all {
      forall k | 0 <= k < |PlotColumns| ensures PlotColumns[k] in header {
        if k == 0 {} else if k == 1 {} else if k == 2 {} else if k == 3 {} else if k == 4 {} else if k == 5 {}
      }
    } else {
      var k := if CpuColumn !in header then 0 else if "%usr" !in header then 1
               else if "%sys" !in header then 2 else if "%iowait" !in header then 3
               else if "%irq" !in header then 4 else if "%soft" !in header then 5 else 6;
      assert PlotColumns[k] !in header;
    }
  }

  /** A resolved layout takes every column at the first occurrence of its token, and the time column just before `CPU`. */
  lemma ResolvePositions(header: seq<string>)
    requires Resolve(header).Ok?
    ensures IndexOf(header, CpuColumn) == Some(Resolve(header).value.time + 1)
    ensures forall m :: IndexOf(header, Column(m)) == Some(Resolve(header).value.Col(m))
  {
    forall m ensures IndexOf(header, Column(m)) == Some(Resolve(header).value.Col(m)) {
      ResolveColumn(header, m);
    }
  }

  lemma ResolveColumn(header: seq<string>, m: Metric)
    requires Resolve(header).Ok?
    ensures IndexOf(header, Column(m)) == Some(Resolve(header).value.Col(m))
  {
  }

  /** A failed layout names the first token, in lookup order, missing from the header. */
  lemma ResolveErr(header: seq<string>)
    requires Resolve(header).Err?
    ensures exists k :: && 0 <= k < |PlotColumns| && PlotColumns[k] !in header
                        && (forall j :: 0 <= j < k ==> PlotColumns[j] in header)
                        && Resolve(header).error == MissingColumn(PlotColumns[k])
  {
    var k := if CpuColumn !in header then 0 else if "%usr" !in header then 1
             else if "%sys" !in header then 2 else if "%iowait" !in header then 3
             else if "%irq" !in header then 4 else if "%soft" !in header then 5 else 6;
    assert PlotColumns[k] !in header;
    assert forall j :: 0 <= j < k ==> PlotColumns[j] in header;
  }

  /** With `CPU` in front, the time index is -1, which takes the last token of each row. */
  lemma CpuFirst(header: seq<string>, parts: seq<string>)
    requires Resolve(header).Ok? && header[0] == CpuColumn
    ensures Resolve(header).value.time == -1
    ensures parts != [] ==> Token(parts, Resolve(header).value.time) == Ok(parts[|parts| - 1])
  {
  }

  /** The banner and blank-line test in terms of tokens: the line has none, or its first one starts with `Linux`. */
  lemma SkippedTokens(line: string)
    ensures Skipped(line) <==> Split(line) == [] || StartsWith(Split(line)[0], "Linux")
  {
    StripBlank(line);
    if Split(line) != [] {
      StripWord(line);
      var w, t := Split(line)[0], Strip(line);
      if StartsWith(t, "Linux") && |w| >= 5 {
        assert w[..5] == t[..5];
      }
      if StartsWith(w, "Linux") {
        assert t[..5] == w[..5];
      }
    }
  }

  /** An unskipped line with a single token raises `IndexError` at `parts[1]`. */
  lemma SingleTokenFails(line: string, cpuId: string, sc: Schema)
    requires |Split(line)| == 1 && !StartsWith(Strip(line), "Linux")
    ensures Fault(line, cpuId, sc) == Some(ShortRow)
  {
    StripBlank(line);
  }

  /** No matching row, no sample. */
  lemma {:induction false} NoRowNoSample(lines: seq<string>, cpuId: string, sc: Schema)
    requires forall i :: 0 <= i < |lines| ==> !IsRow(lines[i], cpuId)
    ensures Samples(lines, cpuId, sc) == []
    decreases |lines|
  {
    if lines != [] {
      assert forall i :: 1 <= i < |lines| ==> lines[1..][i - 1] == lines[i];
      NoRowNoSample(lines[1..], cpuId, sc);
    }
  }

  /** No line fault is a missing header. */
  lemma FaultNotHeader(line: string, cpuId: string, sc: Schema)
    requires Fault(line, cpuId, sc).Some?
    ensures Fault(line, cpuId, sc).value != MissingHeader
  {
    if !Skipped(line) && |Split(line)| >= 2 {
      ExtractErr(Split(line), sc);
    }
  }

  /** `sys.exit(1)` is reached exactly when no line contains `%usr`. */
  lemma ParseMissingHeader(lines: seq<string>, cpuId: string)
    ensures Parse(lines, cpuId) == Err(MissingHeader) <==> forall i :: 0 <= i < |lines| ==> !Contains(lines[i], HeaderMark)
  {
    FirstHeaderIsFirst(lines);
    var header := FirstHeader(lines);
    if header.Some? {
      HeaderNotEmpty(lines);
      if Resolve(header.value).Ok? {
        var sc := Resolve(header.value).value;
        if Rows(lines, cpuId, sc, Empty).Err? {
          RowsErr(lines, cpuId, sc, Empty);
          var i :| 0 <= i < |lines| && Fault(lines[i], cpuId, sc) == Some(Rows(lines, cpuId, sc, Empty).error);
          FaultNotHeader(lines[i], cpuId, sc);
        }
      }
    }
  }

  /**
    With a header line present: a layout that does not resolve is reported;
    otherwise the result is complete exactly when no line faults, and then it
    holds the samples of the matching rows in input order.
   */
  lemma ParseOk(lines: seq<string>, cpuId: string)
    requires FirstHeader(lines).Some?
    ensures var header := FirstHeader(lines).value;
      Resolve(header).Err? ==> Parse(lines, cpuId) == Err(Resolve(header).error)
    ensures var header := FirstHeader(lines).value;
      Resolve(header).Ok? ==>
        var sc := Resolve(header).value;
        && (Parse(lines, cpuId).Ok? <==> forall i :: 0 <= i < |lines| ==> Fault(lines[i], cpuId, sc).None?)
        && (Parse(lines, cpuId).Ok? ==> Parse(lines, cpuId) == Ok(Empty.PushAll(Samples(lines, cpuId, sc))))
  {
    HeaderNotEmpty(lines);
    var header := FirstHeader(lines).value;
    if Resolve(header).Ok? {
      var sc := Resolve(header).value;
      RowsOk(lines, cpuId, sc, Empty);
      if Rows(lines, cpuId, sc, Empty).Ok? {
        RowsSamples(lines, cpuId, sc, Empty);
      }
    }
  }

  /** A failure after the layout is resolved is the fault of the first faulty line. */
  lemma ParseErr(lines: seq<string>, cpuId: string)
    requires FirstHeader(lines).Some? && Resolve(FirstHeader(lines).value).Ok?
    requires Parse(lines, cpuId).Err?
    ensures var sc := Resolve(FirstHeader(lines).value).value;
      exists i :: && 0 <= i < |lines|
                  && (forall j :: 0 <= j < i ==> Fault(lines[j], cpuId, sc).None?)
                  && Fault(lines[i], cpuId, sc) == Some(Parse(lines, cpuId).error)
  {
    HeaderNotEmpty(lines);
    RowsErr(lines, cpuId, Resolve(FirstHeader(lines).value).value, Empty);
  }

  /** Without a row for the CPU the result is the dict of seven empty lists. */
  lemma NoMatchEmpty(lines: seq<string>, cpuId: string)
    requires Parse(lines, cpuId).Ok?
    requires forall i :: 0 <= i < |lines| ==> !IsRow(lines[i], cpuId)
    ensures Parse(lines, cpuId) == Ok(Empty)
  {
    FirstHeaderIsFirst(lines);
    HeaderNotEmpty(lines);
    ParseOk(lines, cpuId);
    NoRowNoSample(lines, cpuId, Resolve(FirstHeader(lines).value).value);
  }
}
