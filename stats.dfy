/** stats.go: the block-I/O decoders that read the kernel's blkio.throttle
    accounting files, and the older copies of the point decoders that also
    live in influx.go. */
module Stats {
  import opened Text
  import Docker
  import Influx

  /** The five columns of an accounting point; also the table sliceIndex searches. */
  const IoColumns: seq<string> := ["read", "write", "sync", "async", "total"]

  const ServiceBytesFile: string := "blkio.throttle.io_service_bytes"
  const ServicedFile: string := "blkio.throttle.io_serviced"

  /** The column text and the number text of one accounting line: a line
      "<major:minor> <Op> <n>" gives its lower-cased Op and n; a two-field line
      (the file's closing "Total <n>") gives its lower-cased first field and
      "0"; any other line gives two empty strings. */
  function ColumnAndValue(line: string): (string, string)
  {
    var split := Fields(line);
    if |split| == 3 then (ToLower(split[1]), split[2])
    else if |split| == 2 then (ToLower(split[0]), "0")
    else ("", "")
  }

  /** What one line does to the sums: the slot it adds to (sliceIndex of its
      column text, -1 when that names no column) and the value it adds, which
      is what strconv.ParseInt returns even when it also reports an error (0
      for a syntax error, the clamped bound for a range error). */
  datatype Contribution = Contribution(slot: int, value: int64)

  function LineContribution(line: string): (c: Contribution)
    ensures -1 <= c.slot < |IoColumns|
    ensures c.slot >= 0 ==> IoColumns[c.slot] == ColumnAndValue(line).0
    ensures |Fields(line)| == 2 ==> c.value == 0
    ensures |Fields(line)| != 2 && |Fields(line)| != 3 ==> c.slot == -1 && c.value == 0
  {
    var (column, value) := ColumnAndValue(line);
    assert "" !in IoColumns;
    assert ParseInt64("0").value == 0 by {
      ParseFormatInt64(0);
      assert FormatInt(0) == "0";
    }
    Contribution(SliceIndex(IoColumns, column), ParseInt64(value).value)
  }

  function Contributions(lines: seq<string>): seq<Contribution>
  {
    seq(|lines|, i requires 0 <= i < |lines| => LineContribution(lines[i]))
  }

  /** A line whose slot exists; any other line makes values[index] panic. */
  predicate KnownLine(line: string)
  {
    LineContribution(line).slot >= 0
  }

  predicate AllKnown(lines: seq<string>)
  {
    forall i | 0 <= i < |lines| :: KnownLine(lines[i])
  }

  /** The exact sum of the values added to slot k. */
  function SlotTotal(cs: seq<Contribution>, k: int): int
  {
    if cs == [] then 0
    else
      var last := cs[|cs| - 1];
      SlotTotal(cs[..|cs| - 1], k) + (if last.slot == k then last.value else 0)
  }

  /** The five sums ioStatToPoint accumulates: each slot's total in int64 arithmetic. */
  function Sums(cs: seq<Contribution>): seq<int64>
  {
    [WrapInt64(SlotTotal(cs, 0)), WrapInt64(SlotTotal(cs, 1)), WrapInt64(SlotTotal(cs, 2)),
     WrapInt64(SlotTotal(cs, 3)), WrapInt64(SlotTotal(cs, 4))]
  }

  /** The five sums as the values of one row. */
  function RowOfSums(sums: seq<int64>): seq<Influx.Any>
    requires |sums| == 5
  {
    [Influx.Int64(sums[0]), Influx.Int64(sums[1]), Influx.Int64(sums[2]), Influx.Int64(sums[3]), Influx.Int64(sums[4])]
  }

  /** The row ioStatToPoint writes for the given lines. */
  function IoRow(lines: seq<string>): seq<Influx.Any>
  {
    RowOfSums(Sums(Contributions(lines)))
  }

  lemma IoRowOfSums(lines: seq<string>, sums: seq<int64>)
    requires sums == Sums(Contributions(lines))
    ensures IoRow(lines) == RowOfSums(sums)
  {
  }

  lemma ContributionsSnoc(lines: seq<string>, i: nat)
    requires i < |lines|
    ensures Contributions(lines[..i + 1]) == Contributions(lines[..i]) + [LineContribution(lines[i])]
  {
    var longer, shorter := Contributions(lines[..i + 1]), Contributions(lines[..i]);
    forall k | 0 <= k < i + 1
      ensures longer[k] == (shorter + [LineContribution(lines[i])])[k]
    {
      assert lines[..i + 1][k] == lines[k];
    }
  }

  lemma SumsEmpty()
    ensures Sums([]) == [0, 0, 0, 0, 0]
  {
    WrapInt64Exact(0);
  }

  /** One more line adds its value, with wrap-around, to its own slot only. */
  lemma SumsStep(cs: seq<Contribution>, c: Contribution)
    requires 0 <= c.slot < 5
    ensures Sums(cs + [c]) == Sums(cs)[c.slot := AddInt64(Sums(cs)[c.slot], c.value)]
  {
    assert (cs + [c])[..|cs|] == cs;
    AddInt64Wraps(SlotTotal(cs, c.slot), c.value);
  }

  /** The accumulation loop of ioStatToPoint: add every line's value into the
      slot its operation names, in int64 arithmetic. Every line must name one
      of the five operations. */
  method SumIoStat(statSlice: seq<string>) returns (sums: seq<int64>)
    requires AllKnown(statSlice)
    ensures sums == Sums(Contributions(statSlice))
  {
    var values := new int64[5](_ => 0);
    SumsEmpty();
    ghost var cs: seq<Contribution> := [];
    assert Contributions(statSlice[..0]) == cs;
    for i := 0 to |statSlice|
      invariant cs == Contributions(statSlice[..i])
      invariant values[..] == Sums(cs)
    {
      // The fields, lower-casing, strconv.ParseInt and sliceIndex of one line.
      var c := LineContribution(statSlice[i]);
      ContributionsSnoc(statSlice, i);
      SumsStep(cs, c);
      values[c.slot] := AddInt64(values[c.slot], c.value);
      cs := cs + [c];
    }
    assert statSlice[..|statSlice|] == statSlice;
    sums := values[..];
  }

  /** ioStatToPoint: the five columns, and the five sums as the one row. */
  method IoStatToPoint(statSlice: seq<string>, point: Influx.Series)
    requires AllKnown(statSlice)
    modifies point
    ensures point.Name == old(point.Name)
    ensures fresh(point.Columns) && |point.Points| == 1 && fresh(point.Points[0])
    ensures point.Columns[..] == IoColumns && point.Points[0][..] == IoRow(statSlice)
  {
    var row := new Influx.Any[5](_ => Influx.Nil);
    var columns := new string[] ["read", "write", "sync", "async", "total"];
    assert columns[..] == IoColumns;
    var values := SumIoStat(statSlice);
    forall index | 0 <= index < 5 {
      row[index] := Influx.Int64(values[index]);
    }
    assert row[..] == RowOfSums(values);
    IoRowOfSums(statSlice, values);
    point.Points := [row];
    point.Columns := columns;
  }

  /** dskIOServiceBytesStatsToPoint: ioStatToPoint over the lines of the container's
      blkio.throttle.io_service_bytes file under ioStatPath. */
  method DskIOServiceBytesStatsToPoint(point: Influx.Series, id: string, ioStatPath: string, files: map<string, string>)
    requires AllKnown(Docker.DockerIOStatFileToSlice(ioStatPath, id, ServiceBytesFile, files))
    modifies point
    ensures point.Name == old(point.Name)
    ensures fresh(point.Columns) && |point.Points| == 1 && fresh(point.Points[0])
    ensures point.Columns[..] == IoColumns
    ensures point.Points[0][..] == IoRow(Docker.DockerIOStatFileToSlice(ioStatPath, id, ServiceBytesFile, files))
  {
    var stat := Docker.DockerIOStatFileToSlice(ioStatPath, id, ServiceBytesFile, files);
    IoStatToPoint(stat, point);
  }

  /** dskIOServicedStatsToPoint: the same over blkio.throttle.io_serviced. */
  method DskIOServicedStatsToPoint(point: Influx.Series, id: string, ioStatPath: string, files: map<string, string>)
    requires AllKnown(Docker.DockerIOStatFileToSlice(ioStatPath, id, ServicedFile, files))
    modifies point
    ensures point.Name == old(point.Name)
    ensures fresh(point.Columns) && |point.Points| == 1 && fresh(point.Points[0])
    ensures point.Columns[..] == IoColumns
    ensures point.Points[0][..] == IoRow(Docker.DockerIOStatFileToSlice(ioStatPath, id, ServicedFile, files))
  {
    var stat := Docker.DockerIOStatFileToSlice(ioStatPath, id, ServicedFile, files);
    IoStatToPoint(stat, point);
  }

  // ---------------------------------------------------------------------------
  // What the accounting lines add

  /** No lines, five zeros. */
  lemma EmptyAccountingIsZero()
    ensures IoRow([]) == [Influx.Int64(0), Influx.Int64(0), Influx.Int64(0), Influx.Int64(0), Influx.Int64(0)]
  {
    SumsEmpty();
    assert Contributions([]) == [];
  }

  /** An unreadable accounting file gives five zeros. */
  lemma UnreadableAccountingIsZero(ioStatPath: string, id: string, fileName: string, files: map<string, string>)
    requires Docker.ScopePath(ioStatPath, id, fileName) !in files
    ensures IoRow(Docker.DockerIOStatFileToSlice(ioStatPath, id, fileName, files)) == IoRow([])
  {
  }

  /** A line "<device> <op> <x>" adds x, exactly, to the slot named by op in any letter case. */
  lemma ThreeFieldLine(device: string, op: string, x: int64)
    requires device != [] && NoSpace(device) && op != [] && NoSpace(op)
    ensures LineContribution(JoinSpace([device, op, FormatInt(x)])) == Contribution(SliceIndex(IoColumns, ToLower(op)), x)
  {
    FormatIntIsWord(x);
    FieldsOfJoinSpace([device, op, FormatInt(x)]);
    ParseFormatInt64(x);
  }

  /** A line "<op> <x>" adds nothing, whatever x is: its value is forced to "0". */
  lemma TwoFieldLine(op: string, x: string)
    requires op != [] && NoSpace(op) && x != [] && NoSpace(x)
    ensures LineContribution(JoinSpace([op, x])) == Contribution(SliceIndex(IoColumns, ToLower(op)), 0)
  {
    FieldsOfJoinSpace([op, x]);
    ParseFormatInt64(0);
    assert FormatInt(0) == "0";
  }

  /** Which lines the loop accepts: exactly those with two or three fields whose
      operation field, lower-cased, is one of the five columns. */
  lemma KnownLines(line: string)
    ensures KnownLine(line) <==>
      (|Fields(line)| == 3 && ToLower(Fields(line)[1]) in IoColumns)
      || (|Fields(line)| == 2 && ToLower(Fields(line)[0]) in IoColumns)
  {
    assert "" !in IoColumns;
  }

  /** A value that is not a number adds 0. */
  lemma MalformedValueAddsZero(line: string)
    requires ParseInt64(ColumnAndValue(line).1).err == Some(ErrSyntax)
    ensures LineContribution(line).value == 0
  {
  }

  /** Slot totals add up over concatenated files. */
  lemma {:induction false} SlotTotalAppend(a: seq<Contribution>, b: seq<Contribution>, k: int)
    ensures SlotTotal(a + b, k) == SlotTotal(a, k) + SlotTotal(b, k)
    decreases |b|
  {
    if b == [] {
      assert a + b == a;
    } else {
      assert (a + b)[..|a + b| - 1] == a + b[..|b| - 1];
      SlotTotalAppend(a, b[..|b| - 1], k);
    }
  }

  /** A slot's total only counts the contributions made to it. */
  lemma {:induction false} SlotTotalOtherSlots(cs: seq<Contribution>, k: int)
    requires forall c <- cs :: c.slot != k
    ensures SlotTotal(cs, k) == 0
    decreases |cs|
  {
    if cs != [] {
      assert cs[|cs| - 1] in cs;
      SlotTotalOtherSlots(cs[..|cs| - 1], k);
    }
  }

  // ---------------------------------------------------------------------------
  // The older copies of the point decoders (stats.go:13-18, 65-134) are the
  // same code as influx.go's; each delegates to the one model of that code.

  /** addColumnValueToPoint, stats.go copy. */
  method AddColumnValueToPoint(column: string, value: Influx.Any, index: int, point: Influx.Series) returns (next: int)
    requires |point.Points| > 0
    requires 0 <= index < point.Columns.Length && index < point.Points[0].Length
    modifies point.Columns, point.Points[0]
    ensures next == index + 1
    ensures point.Columns[..] == old(point.Columns[..])[index := column]
    ensures point.Points[0][..] == old(point.Points[0][..])[index := value]
  {
    next := Influx.AddColumnValueToPoint(column, value, index, point);
  }

  /** netStatsToPoint, stats.go copy. */
  method NetStatsToPoint(point: Influx.Series, stat: Influx.DockerStats)
    modifies point
    ensures point.Name == old(point.Name)
    ensures fresh(point.Columns) && |point.Points| == 1 && fresh(point.Points[0])
    ensures point.Columns[..] == Influx.NetColumns && point.Points[0][..] == Influx.NetRow(stat.Network)
  {
    Influx.NetStatsToPoint(point, stat);
  }

  /** memStatsToPoint, stats.go copy. */
  method MemStatsToPoint(point: Influx.Series, stat: Influx.DockerStats)
    modifies point
    ensures point.Name == old(point.Name)
    ensures fresh(point.Columns) && |point.Points| == 1 && fresh(point.Points[0])
    ensures point.Columns[..] == Influx.MemColumns && point.Points[0][..] == Influx.MemRow(stat.MemoryStats)
  {
    Influx.MemStatsToPoint(point, stat);
  }

  /** cpuStatsToPoint, stats.go copy: the same ten slots and the same placement. */
  method CpuStatsToPoint(point: Influx.Series, stat: Influx.DockerStats)
    requires |stat.CPUStats.CPUUsage.PercpuUsage| <= 8
    modifies point
    ensures point.Name == old(point.Name)
    ensures fresh(point.Columns) && |point.Points| == 1 && fresh(point.Points[0])
    ensures point.Columns[..] == Influx.CpuColumns(|stat.CPUStats.CPUUsage.PercpuUsage|)
    ensures point.Points[0][..] == Influx.CpuRow(stat.CPUStats)
  {
    Influx.CpuStatsToPoint(point, stat);
  }
}
