/**
  What both parser variants share about the text table that `mpstat -P ALL`
  prints: the six metric columns, the header that names them, the column
  layout resolved from the header, the series the parsers return (a dict of
  seven parallel lists in the source) and the extraction of one sample from
  the tokens of a data row.
 */
module Mpstat {
  import opened Wrappers
  import opened Text
  import opened Number

  /** The six metrics both variants extract, in the order they are evaluated. */
  datatype Metric = Usr | Sys | Iowait | Irq | Soft | Idle

  const Metrics: seq<Metric> := [Usr, Sys, Iowait, Irq, Soft, Idle]

  /** `Metrics` lists every metric. */
  lemma MetricsListed()
    ensures forall m :: m in Metrics
  {
    forall m ensures m in Metrics {
      match m
      case Usr => assert Metrics[0] == m;
      case Sys => assert Metrics[1] == m;
      case Iowait => assert Metrics[2] == m;
      case Irq => assert Metrics[3] == m;
      case Soft => assert Metrics[4] == m;
      case Idle => assert Metrics[5] == m;
    }
  }

  /** The metric's key in the result dict. */
  function Key(m: Metric): string {
    match m
    case Usr => "usr"
    case Sys => "sys"
    case Iowait => "iowait"
    case Irq => "irq"
    case Soft => "soft"
    case Idle => "idle"
  }

  /** The header token that names the metric's column: `'%' + key`. */
  function Column(m: Metric): (c: string)
    ensures c == "%" + Key(m)
  {
    match m
    case Usr => "%usr"
    case Sys => "%sys"
    case Iowait => "%iowait"
    case Irq => "%irq"
    case Soft => "%soft"
    case Idle => "%idle"
  }

  /** The substring that marks the header line. */
  const HeaderMark: string := "%usr"

  /** The header token of the CPU-identifier column; the time column is the one before it. */
  const CpuColumn: string := "CPU"

  /** The exceptions and exits of `parse_mpstat`, as values. */
  datatype ParseError =
    | MissingHeader                 // no line contains `%usr`: the `sys.exit(1)` branch
    | MissingColumn(token: string)  // `header.index(token)` raised `ValueError`
    | ShortRow                      // a row subscript raised `IndexError`
    | MalformedValue(text: string)  // `float(text)` raised `ValueError`

  type Outcome<T> = Result<T, ParseError>

  /** Column positions resolved from the header; `time` may be -1, which Python reads as the last token. */
  datatype Schema = Schema(time: int, usr: nat, sys: nat, iowait: nat, irq: nat, soft: nat, idle: nat) {
    function Col(m: Metric): nat {
      match m
      case Usr => usr
      case Sys => sys
      case Iowait => iowait
      case Irq => irq
      case Soft => soft
      case Idle => idle
    }
  }

  /** The values one data row contributes: the time token and the six metrics. */
  datatype Sample = Sample(time: string, usr: Number, sys: Number, iowait: Number, irq: Number, soft: Number, idle: Number) {
    function Value(m: Metric): Number {
      match m
      case Usr => usr
      case Sys => sys
      case Iowait => iowait
      case Irq => irq
      case Soft => soft
      case Idle => idle
    }
  }

  /**
    The dict `parse_mpstat` returns: one list per key `time`, `usr`, `sys`,
    `iowait`, `irq`, `soft`, `idle`, and no other key.
   */
  datatype Series = Series(time: seq<string>, usr: seq<Number>, sys: seq<Number>, iowait: seq<Number>,
                           irq: seq<Number>, soft: seq<Number>, idle: seq<Number>) {

    /** `data[key]` for a metric key. */
    function Get(m: Metric): seq<Number> {
      match m
      case Usr => usr
      case Sys => sys
      case Iowait => iowait
      case Irq => irq
      case Soft => soft
      case Idle => idle
    }

    /** `data[key].append(v)` for a metric key. */
    function Append(m: Metric, v: Number): Series {
      match m
      case Usr => this.(usr := usr + [v])
      case Sys => this.(sys := sys + [v])
      case Iowait => this.(iowait := iowait + [v])
      case Irq => this.(irq := irq + [v])
      case Soft => this.(soft := soft + [v])
      case Idle => this.(idle := idle + [v])
    }

    /** All seven lists have the same length. */
    predicate Aligned() {
      && |usr| == |time| && |sys| == |time| && |iowait| == |time|
      && |irq| == |time| && |soft| == |time| && |idle| == |time|
    }

    /** The number of samples. */
    function Size(): nat {
      |time|
    }

    /** The `k`-th entry of every list. */
    function Row(k: nat): Sample
      requires Aligned() && k < Size()
    {
      Sample(time[k], usr[k], sys[k], iowait[k], irq[k], soft[k], idle[k])
    }

    /** One sample appended to every list. */
    function Push(s: Sample): (r: Series)
      ensures Aligned() ==> r.Aligned() && r.Size() == Size() + 1
      ensures Aligned() ==> r.Row(Size()) == s && forall k :: 0 <= k < Size() ==> r.Row(k) == Row(k)
    {
      Series(time + [s.time], usr + [s.usr], sys + [s.sys], iowait + [s.iowait],
             irq + [s.irq], soft + [s.soft], idle + [s.idle])
    }

    /** The samples appended one after another, in order. */
    function PushAll(ss: seq<Sample>): Series
      decreases |ss|
    {
      if ss == [] then this else Push(ss[0]).PushAll(ss[1..])
    }
  }

  /** The dict of seven empty lists that both variants start from. */
  const Empty: Series := Series([], [], [], [], [], [], [])

  /**
    Appending samples keeps the lists aligned and the rows already there,
    and the appended samples become the last rows, in order.
   */
  lemma {:induction false} PushAllRows(data: Series, ss: seq<Sample>)
    requires data.Aligned()
    ensures var r := data.PushAll(ss);
      && r.Aligned() && r.Size() == data.Size() + |ss|
      && (forall k :: 0 <= k < data.Size() ==> r.Row(k) == data.Row(k))
      && (forall k :: 0 <= k < |ss| ==> r.Row(data.Size() + k) == ss[k])
    decreases |ss|
  {
    if ss != [] {
      var next := data.Push(ss[0]);
      PushAllRows(next, ss[1..]);
      var r := data.PushAll(ss);
      assert r == next.PushAll(ss[1..]);
      forall k | 0 <= k < |ss|
        ensures r.Row(data.Size() + k) == ss[k]
      {
        if k > 0 {
          assert ss[k] == ss[1..][k - 1];
          assert next.Size() + (k - 1) == data.Size() + k;
        }
      }
    }
  }

  /** The series whose rows are exactly `ss`, in order. */
  lemma SeriesOf(ss: seq<Sample>)
    ensures var r := Empty.PushAll(ss);
      r.Aligned() && r.Size() == |ss| && forall k :: 0 <= k < |ss| ==> r.Row(k) == ss[k]
  {
    PushAllRows(Empty, ss);
    assert Empty.Size() == 0;
    var r := Empty.PushAll(ss);
    forall k | 0 <= k < |ss|
      ensures r.Row(k) == ss[k]
    {
      assert r.Row(Empty.Size() + k) == ss[k];
    }
  }

  // ---------------------------------------------------------------------------
  // The header

  /** The first line containing `%usr`, split on whitespace; `None` when there is none. */
  function FirstHeader(lines: seq<string>): Option<seq<string>> {
    if lines == [] then None
    else if Contains(lines[0], HeaderMark) then Some(Split(lines[0]))
    else FirstHeader(lines[1..])
  }

  /** The header is the split of the first line, in input order, that contains `%usr`. */
  lemma {:induction false} FirstHeaderIsFirst(lines: seq<string>)
    ensures FirstHeader(lines).None? <==> forall i :: 0 <= i < |lines| ==> !Contains(lines[i], HeaderMark)
    ensures FirstHeader(lines).Some? ==>
      exists i :: && 0 <= i < |lines| && Contains(lines[i], HeaderMark)
                  && (forall j :: 0 <= j < i ==> !Contains(lines[j], HeaderMark))
                  && FirstHeader(lines) == Some(Split(lines[i]))
  {
    if lines != [] && !Contains(lines[0], HeaderMark) {
      FirstHeaderIsFirst(lines[1..]);
      if FirstHeader(lines).Some? {
        var i :| && 0 <= i < |lines[1..]| && Contains(lines[1..][i], HeaderMark)
                 && (forall j :: 0 <= j < i ==> !Contains(lines[1..][j], HeaderMark))
                 && FirstHeader(lines[1..]) == Some(Split(lines[1..][i]));
        assert forall j :: 0 <= j < i + 1 ==> !Contains(lines[j], HeaderMark) by {
          forall j | 0 <= j < i + 1 ensures !Contains(lines[j], HeaderMark) {
            if j > 0 {
              assert lines[j] == lines[1..][j - 1];
            }
          }
        }
      }
      if forall i :: 0 <= i < |lines[1..]| ==> !Contains(lines[1..][i], HeaderMark) {
        forall i | 0 <= i < |lines| ensures !Contains(lines[i], HeaderMark) {
          if i > 0 {
            assert lines[i] == lines[1..][i - 1];
          }
        }
      }
    }
  }

  /** Header lines after the first one never affect the column layout. */
  lemma {:induction false} LaterHeadersIgnored(before: seq<string>, after: seq<string>)
    requires FirstHeader(before).Some?
    ensures FirstHeader(before + after) == FirstHeader(before)
  {
    assert before != [];
    assert (before + after)[0] == before[0];
    if !Contains(before[0], HeaderMark) {
      assert (before + after)[1..] == before[1..] + after;
      LaterHeadersIgnored(before[1..], after);
    }
  }

  /** A header line contains `%usr`, so its split is never empty: `if not header` only catches a missing line. */
  lemma {:induction false} HeaderNotEmpty(lines: seq<string>)
    requires FirstHeader(lines).Some?
    ensures FirstHeader(lines).value != []
  {
    if !Contains(lines[0], HeaderMark) {
      HeaderNotEmpty(lines[1..]);
    } else {
      ContainsAt(lines[0], HeaderMark);
      var i :| OccursAt(lines[0], HeaderMark, i);
      assert lines[0][i] == lines[0][i..i + 4][0] == '%';
      SplitNonEmpty(lines[0], i);
    }
  }

  // ---------------------------------------------------------------------------
  // Row extraction

  /** `header.index(token)`; the `ValueError` for an absent token is `MissingColumn`. */
  function Find(header: seq<string>, token: string): Outcome<nat> {
    match IndexOf(header, token)
    case Some(i) => Ok(i)
    case None => Err(MissingColumn(token))
  }

  /** `token.replace(',', '.')`: the decimal comma turned into a point. */
  function Normalize(token: string): (r: string)
    ensures |r| == |token| && ',' !in r
    ensures forall i :: 0 <= i < |token| && token[i] != ',' ==> r[i] == token[i]
  {
    Replace(token, ',', '.')
  }

  /** `parts[i]`, verbatim; the `IndexError` is `ShortRow`. */
  function Token(parts: seq<string>, i: int): Outcome<string> {
    match At(parts, i)
    case Some(t) => Ok(t)
    case None => Err(ShortRow)
  }

  /** `float(parts[i].replace(',', '.'))`. */
  function Cell(parts: seq<string>, i: nat): Outcome<Number> {
    if i < |parts| then
      var text := Normalize(parts[i]);
      match ParseFloat(text)
      case Some(n) => Ok(n)
      case None => Err(MalformedValue(text))
    else Err(ShortRow)
  }

  /** The sample a data row yields, evaluated as both variants do: time, then usr, sys, iowait, irq, soft, idle. */
  function Extract(parts: seq<string>, sc: Schema): Outcome<Sample> {
    Combine(Token(parts, sc.time), Cell(parts, sc.usr), Cell(parts, sc.sys), Cell(parts, sc.iowait),
            Cell(parts, sc.irq), Cell(parts, sc.soft), Cell(parts, sc.idle))
  }

  /** The sample from its seven components, or the error of the first failing one in the order given. */
  function Combine(time: Outcome<string>, usr: Outcome<Number>, sys: Outcome<Number>, iowait: Outcome<Number>,
                   irq: Outcome<Number>, soft: Outcome<Number>, idle: Outcome<Number>): Outcome<Sample>
  {
    if time.Err? then Err(time.error)
    else if usr.Err? then Err(usr.error)
    else if sys.Err? then Err(sys.error)
    else if iowait.Err? then Err(iowait.error)
    else if irq.Err? then Err(irq.error)
    else if soft.Err? then Err(soft.error)
    else if idle.Err? then Err(idle.error)
    else Ok(Sample(time.value, usr.value, sys.value, iowait.value, irq.value, soft.value, idle.value))
  }

  /** `parts[1] == cpu_id or (cpu_id == 'all' and parts[1] == 'all')`: the second clause adds no case. */
  predicate MatchesCpu(token: string, cpuId: string)
    ensures MatchesCpu(token, cpuId) <==> token == cpuId
  {
    token == cpuId || (cpuId == "all" && token == "all")
  }

  // ---------------------------------------------------------------------------
  // Properties of the extraction

  /** The components combine exactly when none failed, into the sample of their values. */
  lemma CombineOk(time: Outcome<string>, usr: Outcome<Number>, sys: Outcome<Number>, iowait: Outcome<Number>,
                  irq: Outcome<Number>, soft: Outcome<Number>, idle: Outcome<Number>)
    ensures Combine(time, usr, sys, iowait, irq, soft, idle).Ok? <==>
      time.Ok? && usr.Ok? && sys.Ok? && iowait.Ok? && irq.Ok? && soft.Ok? && idle.Ok?
    ensures Combine(time, usr, sys, iowait, irq, soft, idle).Ok? ==>
      Combine(time, usr, sys, iowait, irq, soft, idle).value
        == Sample(time.value, usr.value, sys.value, iowait.value, irq.value, soft.value, idle.value)
  {
  }

  /** The first failing component, in evaluation order, is the one whose error is reported. */
  lemma CombineErr(time: Outcome<string>, usr: Outcome<Number>, sys: Outcome<Number>, iowait: Outcome<Number>,
                   irq: Outcome<Number>, soft: Outcome<Number>, idle: Outcome<Number>)
    requires Combine(time, usr, sys, iowait, irq, soft, idle).Err?
    ensures var e := Combine(time, usr, sys, iowait, irq, soft, idle).error;
      && (time.Err? ==> e == time.error)
      && (time.Ok? ==> exists k :: 0 <= k < 6 && [usr, sys, iowait, irq, soft, idle][k] == Err(e)
                                   && forall j :: 0 <= j < k ==> [usr, sys, iowait, irq, soft, idle][j].Ok?)
  {
    var cells := [usr, sys, iowait, irq, soft, idle];
    if time.Ok? {
      var k := if usr.Err? then 0 else if sys.Err? then 1 else if iowait.Err? then 2
               else if irq.Err? then 3 else if soft.Err? then 4 else 5;
      assert cells[k] == Err(Combine(time, usr, sys, iowait, irq, soft, idle).error);
      assert forall j :: 0 <= j < k ==> cells[j].Ok?;
    }
  }

  /** A cell is a number exactly when its column is within the row and `float` accepts its normalized token. */
  lemma CellOk(parts: seq<string>, i: nat, n: Number)
    ensures Cell(parts, i) == Ok(n) <==> i < |parts| && ParseFloat(Normalize(parts[i])) == Some(n)
  {
  }

  /** A failing cell is a column beyond the row, or a normalized token that `float` rejects, reported as it was passed to `float`. */
  lemma CellErr(parts: seq<string>, i: nat)
    requires Cell(parts, i).Err?
    ensures || (i >= |parts| && Cell(parts, i).error == ShortRow)
            || (i < |parts| && Cell(parts, i).error == MalformedValue(Normalize(parts[i]))
                && ParseFloat(Normalize(parts[i])).None?)
  {
  }

  /** A cell that reads `whole.fraction`, with digits on both sides of the point, holds that fixed-point value. */
  lemma CellFixed(parts: seq<string>, i: nat, whole: string, fraction: string)
    requires whole != [] && AllDigits(whole) && AllDigits(fraction)
    requires i < |parts| && parts[i] == whole + "." + fraction
    ensures Cell(parts, i) == Ok(Finite(FixedValue(whole, fraction)))
  {
    var t := parts[i];
    forall k | 0 <= k < |t| ensures t[k] != ',' {
      if k < |whole| {
        assert t[k] == whole[k];
      } else if k > |whole| {
        assert t[k] == fraction[k - |whole| - 1];
      }
    }
    assert Normalize(t) == t;
    FixedPoint(whole, fraction);
  }

  /** The cells of the six metrics, in the order `Metrics` lists them. */
  function Cells(parts: seq<string>, sc: Schema): seq<Outcome<Number>> {
    [Cell(parts, sc.usr), Cell(parts, sc.sys), Cell(parts, sc.iowait), Cell(parts, sc.irq), Cell(parts, sc.soft), Cell(parts, sc.idle)]
  }

  /** The `k`-th cell is the cell of the `k`-th metric. */
  lemma CellsAt(parts: seq<string>, sc: Schema, k: nat)
    requires k < 6
    ensures |Cells(parts, sc)| == 6 && Cells(parts, sc)[k] == Cell(parts, sc.Col(Metrics[k]))
  {
  }

  /** A successful extraction takes the time token verbatim and each metric from its normalized token. */
  lemma ExtractOk(parts: seq<string>, sc: Schema)
    requires Extract(parts, sc).Ok?
    ensures At(parts, sc.time) == Some(Extract(parts, sc).value.time)
    ensures forall m :: sc.Col(m) < |parts|
                        && ParseFloat(Normalize(parts[sc.Col(m)])) == Some(Extract(parts, sc).value.Value(m))
  {
    var time, usr, sys, iowait, irq, soft, idle :=
      Token(parts, sc.time), Cell(parts, sc.usr), Cell(parts, sc.sys), Cell(parts, sc.iowait),
      Cell(parts, sc.irq), Cell(parts, sc.soft), Cell(parts, sc.idle);
    CombineOk(time, usr, sys, iowait, irq, soft, idle);
    var smp := Extract(parts, sc).value;
    forall m ensures sc.Col(m) < |parts| && ParseFloat(Normalize(parts[sc.Col(m)])) == Some(smp.Value(m)) {
      CellOk(parts, sc.Col(m), smp.Value(m));
      assert Cell(parts, sc.Col(m)) == Ok(smp.Value(m)) by {
        match m
        case Usr =>
        case Sys =>
        case Iowait =>
        case Irq =>
        case Soft =>
        case Idle =>
      }
    }
  }

  /** A comma and a point in the same place make the same value: `12,5` reads as `12.5`. */
  lemma {:induction false} CommaIsPoint(a: string, b: string)
    requires |a| == |b|
    requires forall i :: 0 <= i < |a| ==> a[i] == b[i] || (a[i] in ",." && b[i] in ",.")
    ensures ParseFloat(Normalize(a)) == ParseFloat(Normalize(b))
  {
    assert Normalize(a) == Normalize(b);
  }

  /** The extraction succeeds exactly when the time index is valid, every metric column lies within the row and every metric token is numeric. */
  lemma ExtractOkIff(parts: seq<string>, sc: Schema)
    ensures Extract(parts, sc).Ok? <==>
      && At(parts, sc.time).Some?
      && forall m :: sc.Col(m) < |parts| && ParseFloat(Normalize(parts[sc.Col(m)])).Some?
  {
    if Extract(parts, sc).Ok? {
      ExtractOk(parts, sc);
    } else if At(parts, sc.time).Some? {
      var cs := Cells(parts, sc);
      CombineErr(Token(parts, sc.time), cs[0], cs[1], cs[2], cs[3], cs[4], cs[5]);
      var k :| 0 <= k < 6 && cs[k].Err?;
      CellsAt(parts, sc, k);
      CellErr(parts, sc.Col(Metrics[k]));
    }
  }

  /**
    A failed extraction reports the first failure in evaluation order: a time
    index outside the row, or else the first metric, in the order of `Metrics`,
    whose column is beyond the row (`ShortRow`) or whose normalized token
    `float` rejects (`MalformedValue` with that text).
   */
  lemma ExtractErr(parts: seq<string>, sc: Schema)
    requires Extract(parts, sc).Err?
    ensures At(parts, sc.time).None? ==> Extract(parts, sc).error == ShortRow
    ensures At(parts, sc.time).Some? ==>
      exists k :: && 0 <= k < 6 && Cells(parts, sc)[k] == Err(Extract(parts, sc).error)
                  && forall j :: 0 <= j < k ==> Cells(parts, sc)[j].Ok?
    ensures Extract(parts, sc).error.ShortRow? || Extract(parts, sc).error.MalformedValue?
    ensures Extract(parts, sc).error.MalformedValue? ==>
      exists m :: && sc.Col(m) < |parts|
                  && Extract(parts, sc).error.text == Normalize(parts[sc.Col(m)])
                  && ParseFloat(Extract(parts, sc).error.text).None?
  {
    var cs := Cells(parts, sc);
    CombineErr(Token(parts, sc.time), cs[0], cs[1], cs[2], cs[3], cs[4], cs[5]);
    if At(parts, sc.time).Some? {
      var k :| 0 <= k < 6 && cs[k] == Err(Extract(parts, sc).error);
      CellsAt(parts, sc, k);
      CellErr(parts, sc.Col(Metrics[k]));
    }
  }
}
