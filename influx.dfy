/** influx.go: the metric decoders. Each turns one stats snapshot into a flat
    point for InfluxDB: a series name, an ordered list of columns and one row
    of values in the same order.

    An influx.Series is changed in place: every decoder allocates fresh
    Columns and Points arrays and fills them slot by slot. The model keeps that
    shape: a Series object whose Columns is an array and whose Points is a
    sequence of row arrays. Go's interface{} values are the datatype Any. */
module Influx {
  import opened Text
  import opened Docker

  /** The values a point can hold: Go's nil and the integer kinds the decoders store. */
  datatype Any = Nil | Uint64(u: uint64) | Int64(i: int64) | Int(n: int64)

  // ---------------------------------------------------------------------------
  // docker.Stats: the part of a stats snapshot that the decoders read

  datatype CPUUsage = CPUUsage(PercpuUsage: seq<uint64>, TotalUsage: uint64)

  datatype CPUStats = CPUStats(CPUUsage: CPUUsage, SystemCPUUsage: uint64)

  datatype NetworkStats = NetworkStats(
    RxDropped: uint64, RxBytes: uint64, RxErrors: uint64, RxPackets: uint64,
    TxDropped: uint64, TxBytes: uint64, TxErrors: uint64, TxPackets: uint64)

  /** The detailed memory accounting counters (docker.Stats.MemoryStats.Stats). */
  datatype MemoryDetail = MemoryDetail(
    TotalPgmafault: uint64,
    Cache: uint64,
    MappedFile: uint64,
    TotalInactiveFile: uint64,
    Pgpgout: uint64,
    Rss: uint64,
    TotalMappedFile: uint64,
    Writeback: uint64,
    Unevictable: uint64,
    Pgpgin: uint64,
    TotalUnevictable: uint64,
    Pgmajfault: uint64,
    TotalRss: uint64,
    TotalRssHuge: uint64,
    TotalWriteback: uint64,
    TotalInactiveAnon: uint64,
    RssHuge: uint64,
    HierarchicalMemoryLimit: uint64,
    TotalPgfault: uint64,
    TotalActiveFile: uint64,
    ActiveAnon: uint64,
    TotalActiveAnon: uint64,
    TotalPgpgout: uint64,
    TotalCache: uint64,
    InactiveAnon: uint64,
    ActiveFile: uint64,
    Pgfault: uint64,
    InactiveFile: uint64,
    TotalPgpgin: uint64)

  datatype MemoryStats = MemoryStats(Stats: MemoryDetail, MaxUsage: uint64, Usage: uint64, Failcnt: uint64, Limit: uint64)

  datatype BlkioStatsEntry = BlkioStatsEntry(Major: uint64, Minor: uint64, Op: string, Value: uint64)

  datatype BlkioStats = BlkioStats(
    IOServiceBytesRecursive: seq<BlkioStatsEntry>,
    IOServicedRecursive: seq<BlkioStatsEntry>,
    IOQueueRecursive: seq<BlkioStatsEntry>,
    IOServiceTimeRecursive: seq<BlkioStatsEntry>,
    IOWaitTimeRecursive: seq<BlkioStatsEntry>,
    IOMergedRecursive: seq<BlkioStatsEntry>,
    IOTimeRecursive: seq<BlkioStatsEntry>,
    SectorsRecursive: seq<BlkioStatsEntry>)

  datatype DockerStats = DockerStats(Network: NetworkStats, MemoryStats: MemoryStats, BlkioStats: BlkioStats, CPUStats: CPUStats)

  // ---------------------------------------------------------------------------
  // influx.Series

  /** The value of a series: its name, its columns and its rows. */
  datatype Point = Point(Name: string, Columns: seq<string>, Points: seq<seq<Any>>)

  class Series {
    var Name: string
    var Columns: array<string>
    var Points: seq<array<Any>>

    /** A series with only its name set: no columns and no rows. */
    constructor (name: string)
      ensures Name == name && Columns.Length == 0 && Points == []
    {
      Name := name;
      Columns := new string[0];
      Points := [];
    }

    function View(): Point
      reads this, Columns, set r | r in Points
    {
      Point(Name, Columns[..], Rows(Points))
    }
  }

  /** The contents of a sequence of row arrays. */
  function Rows(rows: seq<array<Any>>): seq<seq<Any>>
    reads set r | r in rows
  {
    seq(|rows|, i requires 0 <= i < |rows| reads set r | r in rows => rows[i][..])
  }

  /** addColumnValueToPoint: write column and value into slot index, return the next slot. */
  method AddColumnValueToPoint(column: string, value: Any, index: int, point: Series) returns (next: int)
    requires |point.Points| > 0
    requires 0 <= index < point.Columns.Length && index < point.Points[0].Length
    modifies point.Columns, point.Points[0]
    ensures next == index + 1
    ensures point.Columns[..] == old(point.Columns[..])[index := column]
    ensures point.Points[0][..] == old(point.Points[0][..])[index := value]
  {
    point.Columns[index] := column;
    point.Points[0][index] := value;
    next := index + 1;
  }

  // ---------------------------------------------------------------------------
  // net

  const NetColumns: seq<string> := [
    "rx_dropped", "rx_bytes", "rx_errors", "rx_packets",
    "tx_dropped", "tx_bytes", "tx_errors", "tx_packets"]

  function NetRow(n: NetworkStats): seq<Any>
  {
    [Uint64(n.RxDropped), Uint64(n.RxBytes), Uint64(n.RxErrors), Uint64(n.RxPackets),
     Uint64(n.TxDropped), Uint64(n.TxBytes), Uint64(n.TxErrors), Uint64(n.TxPackets)]
  }

  /** The network counter a column name stands for. */
  function NetCounter(n: NetworkStats, column: string): Option<uint64>
  {
    if column == "rx_dropped" then Some(n.RxDropped)
    else if column == "rx_bytes" then Some(n.RxBytes)
    else if column == "rx_errors" then Some(n.RxErrors)
    else if column == "rx_packets" then Some(n.RxPackets)
    else if column == "tx_dropped" then Some(n.TxDropped)
    else if column == "tx_bytes" then Some(n.TxBytes)
    else if column == "tx_errors" then Some(n.TxErrors)
    else if column == "tx_packets" then Some(n.TxPackets)
    else None
  }

  /** The net point has 8 distinct columns, and each holds the counter it is named after. */
  lemma NetColumnsHoldTheirCounters(n: NetworkStats)
    ensures |NetColumns| == |NetRow(n)| == 8
    ensures forall i, j | 0 <= i < j < 8 :: NetColumns[i] != NetColumns[j]
    ensures forall i | 0 <= i < 8 :: NetCounter(n, NetColumns[i]) == Some(NetRow(n)[i].u)
  {
  }

  /** netStatsToPoint */
  method NetStatsToPoint(point: Series, stat: DockerStats)
    modifies point
    ensures point.Name == old(point.Name)
    ensures fresh(point.Columns) && |point.Points| == 1 && fresh(point.Points[0])
    ensures point.Columns[..] == NetColumns && point.Points[0][..] == NetRow(stat.Network)
  {
    var index := 0;
    var row := new Any[8](_ => Nil);
    point.Points := [row];
    point.Columns := new string[8](_ => "");
    index := AddColumnValueToPoint("rx_dropped", Uint64(stat.Network.RxDropped), index, point);
    index := AddColumnValueToPoint("rx_bytes", Uint64(stat.Network.RxBytes), index, point);
    index := AddColumnValueToPoint("rx_errors", Uint64(stat.Network.RxErrors), index, point);
    index := AddColumnValueToPoint("rx_packets", Uint64(stat.Network.RxPackets), index, point);
    index := AddColumnValueToPoint("tx_dropped", Uint64(stat.Network.TxDropped), index, point);
    index := AddColumnValueToPoint("tx_bytes", Uint64(stat.Network.TxBytes), index, point);
    index := AddColumnValueToPoint("tx_errors", Uint64(stat.Network.TxErrors), index, point);
    index := AddColumnValueToPoint("tx_packets", Uint64(stat.Network.TxPackets), index, point);
  }

  // ---------------------------------------------------------------------------
  // mem

  const MemColumns: seq<string> := [
    "total_pgmafault", "cache", "mapped_file", "total_inactive_file",
    "pgpgout", "rss", "total_mapped_file", "writeback",
    "unevictable", "pgpgin", "total_unevictable", "pgmajfault",
    "total_rss", "total_rss_huge", "total_writeback", "total_inactive_anon",
    "rss_huge", "hierarchical_memory_limit", "total_pgfault", "total_active_file",
    "active_anon", "total_active_anon", "total_pgpgout", "total_cache",
    "inactive_anon", "active_file", "pgfault", "inactive_file",
    "total_pgpgin", "max_usage", "usage", "filcnt",
    "limit"]

  function MemRow(m: MemoryStats): seq<Any>
  {
    [Uint64(m.Stats.TotalPgmafault),
     Uint64(m.Stats.Cache),
     Uint64(m.Stats.MappedFile),
     Uint64(m.Stats.TotalInactiveFile),
     Uint64(m.Stats.Pgpgout),
     Uint64(m.Stats.Rss),
     Uint64(m.Stats.TotalMappedFile),
     Uint64(m.Stats.Writeback),
     Uint64(m.Stats.Unevictable),
     Uint64(m.Stats.Pgpgin),
     Uint64(m.Stats.TotalUnevictable),
     Uint64(m.Stats.Pgmajfault),
     Uint64(m.Stats.TotalRss),
     Uint64(m.Stats.TotalRssHuge),
     Uint64(m.Stats.TotalWriteback),
     Uint64(m.Stats.TotalInactiveAnon),
     Uint64(m.Stats.RssHuge),
     Uint64(m.Stats.HierarchicalMemoryLimit),
     Uint64(m.Stats.TotalPgfault),
     Uint64(m.Stats.TotalActiveFile),
     Uint64(m.Stats.ActiveAnon),
     Uint64(m.Stats.TotalActiveAnon),
     Uint64(m.Stats.TotalPgpgout),
     Uint64(m.Stats.TotalCache),
     Uint64(m.Stats.InactiveAnon),
     Uint64(m.Stats.ActiveFile),
     Uint64(m.Stats.Pgfault),
     Uint64(m.Stats.InactiveFile),
     Uint64(m.Stats.TotalPgpgin),
     Uint64(m.MaxUsage), Uint64(m.Usage), Uint64(m.Failcnt), Uint64(m.Limit)]
  }

  /** The memory counter a column name stands for. */
  function MemCounter(m: MemoryStats, column: string): Option<uint64>
  {
    if column == "total_pgmafault" then Some(m.Stats.TotalPgmafault)
    else if column == "cache" then Some(m.Stats.Cache)
    else if column == "mapped_file" then Some(m.Stats.MappedFile)
    else if column == "total_inactive_file" then Some(m.Stats.TotalInactiveFile)
    else if column == "pgpgout" then Some(m.Stats.Pgpgout)
    else if column == "rss" then Some(m.Stats.Rss)
    else if column == "total_mapped_file" then Some(m.Stats.TotalMappedFile)
    else if column == "writeback" then Some(m.Stats.Writeback)
    else if column == "unevictable" then Some(m.Stats.Unevictable)
    else if column == "pgpgin" then Some(m.Stats.Pgpgin)
    else if column == "total_unevictable" then Some(m.Stats.TotalUnevictable)
    else if column == "pgmajfault" then Some(m.Stats.Pgmajfault)
    else if column == "total_rss" then Some(m.Stats.TotalRss)
    else if column == "total_rss_huge" then Some(m.Stats.TotalRssHuge)
    else if column == "total_writeback" then Some(m.Stats.TotalWriteback)
    else if column == "total_inactive_anon" then Some(m.Stats.TotalInactiveAnon)
    else if column == "rss_huge" then Some(m.Stats.RssHuge)
    else if column == "hierarchical_memory_limit" then Some(m.Stats.HierarchicalMemoryLimit)
    else if column == "total_pgfault" then Some(m.Stats.TotalPgfault)
    else if column == "total_active_file" then Some(m.Stats.TotalActiveFile)
    else if column == "active_anon" then Some(m.Stats.ActiveAnon)
    else if column == "total_active_anon" then Some(m.Stats.TotalActiveAnon)
    else if column == "total_pgpgout" then Some(m.Stats.TotalPgpgout)
    else if column == "total_cache" then Some(m.Stats.TotalCache)
    else if column == "inactive_anon" then Some(m.Stats.InactiveAnon)
    else if column == "active_file" then Some(m.Stats.ActiveFile)
    else if column == "pgfault" then Some(m.Stats.Pgfault)
    else if column == "inactive_file" then Some(m.Stats.InactiveFile)
    else if column == "total_pgpgin" then Some(m.Stats.TotalPgpgin)
    else if column == "max_usage" then Some(m.MaxUsage)
    else if column == "usage" then Some(m.Usage)
    else if column == "filcnt" then Some(m.Failcnt)
    else if column == "limit" then Some(m.Limit)
    else None
  }

  lemma MemCountersFrom0(m: MemoryStats, i: int)
    requires 0 <= i < 6
    ensures MemCounter(m, MemColumns[i]) == Some(MemRow(m)[i].u)
  {
  }

  lemma MemCountersFrom6(m: MemoryStats, i: int)
    requires 6 <= i < 12
    ensures MemCounter(m, MemColumns[i]) == Some(MemRow(m)[i].u)
  {
  }

  lemma MemCountersFrom12(m: MemoryStats, i: int)
    requires 12 <= i < 18
    ensures MemCounter(m, MemColumns[i]) == Some(MemRow(m)[i].u)
  {
  }

  lemma MemCountersFrom18(m: MemoryStats, i: int)
    requires 18 <= i < 24
    ensures MemCounter(m, MemColumns[i]) == Some(MemRow(m)[i].u)
  {
  }

  lemma MemCountersFrom24(m: MemoryStats, i: int)
    requires 24 <= i < 29
    ensures MemCounter(m, MemColumns[i]) == Some(MemRow(m)[i].u)
  {
  }

  lemma MemCountersFrom29(m: MemoryStats, i: int)
    requires 29 <= i < 33
    ensures MemCounter(m, MemColumns[i]) == Some(MemRow(m)[i].u)
  {
  }

  lemma MemColumnsDistinctFrom0(i: int, j: int)
    requires 0 <= i < 8 && i < j < 33
    ensures MemColumns[i] != MemColumns[j]
  {
  }

  lemma MemColumnsDistinctFrom8(i: int, j: int)
    requires 8 <= i < 16 && i < j < 33
    ensures MemColumns[i] != MemColumns[j]
  {
  }

  lemma MemColumnsDistinctFrom16(i: int, j: int)
    requires 16 <= i < 33 && i < j < 33
    ensures MemColumns[i] != MemColumns[j]
  {
  }

  /** The mem point has 33 columns, each holding the counter it is named after;
      "filcnt" (the failure count) is slot 31 and "limit" slot 32. */
  lemma MemColumnsHoldTheirCounters(m: MemoryStats)
    ensures |MemColumns| == |MemRow(m)| == 33
    ensures forall i | 0 <= i < 33 :: MemCounter(m, MemColumns[i]) == Some(MemRow(m)[i].u)
    ensures MemColumns[31] == "filcnt" && MemRow(m)[31] == Uint64(m.Failcnt)
    ensures MemColumns[32] == "limit" && MemRow(m)[32] == Uint64(m.Limit)
  {
    forall i | 0 <= i < 33
      ensures MemCounter(m, MemColumns[i]) == Some(MemRow(m)[i].u)
    {
      if i < 6 {
        MemCountersFrom0(m, i);
      } else if i < 12 {
        MemCountersFrom6(m, i);
      } else if i < 18 {
        MemCountersFrom12(m, i);
      } else if i < 24 {
        MemCountersFrom18(m, i);
      } else if i < 29 {
        MemCountersFrom24(m, i);
      } else {
        MemCountersFrom29(m, i);
      }
    }
  }

  /** No two of the 33 mem columns share a name. */
  lemma MemColumnsDistinct()
    ensures forall i, j | 0 <= i < j < 33 :: MemColumns[i] != MemColumns[j]
  {
    forall i, j | 0 <= i < j < 33
      ensures MemColumns[i] != MemColumns[j]
    {
      if i < 8 {
        MemColumnsDistinctFrom0(i, j);
      } else if i < 16 {
        MemColumnsDistinctFrom8(i, j);
      } else {
        MemColumnsDistinctFrom16(i, j);
      }
    }
  }

  /** memStatsToPoint: 33 columns, the 29 detailed counters then max_usage, usage,
      filcnt (the failure count) and limit. The source makes the 33
      addColumnValueToPoint calls one after the other; the model makes the same
      calls, in the same order, from the column table. */
  method MemStatsToPoint(point: Series, stat: DockerStats)
    modifies point
    ensures point.Name == old(point.Name)
    ensures fresh(point.Columns) && |point.Points| == 1 && fresh(point.Points[0])
    ensures point.Columns[..] == MemColumns && point.Points[0][..] == MemRow(stat.MemoryStats)
  {
    var index := 0;
    var row := new Any[33](_ => Nil);
    point.Points := [row];
    point.Columns := new string[33](_ => "");
    var values := MemRow(stat.MemoryStats);
    for k := 0 to 33
      invariant index == k
      invariant point.Name == old(point.Name) && point.Points == [row] && fresh(point.Columns) && point.Columns.Length == 33
      invariant point.Columns[..k] == MemColumns[..k] && row[..k] == values[..k]
    {
      index := AddColumnValueToPoint(MemColumns[k], values[k], index, point);
    }
    assert point.Columns[..] == point.Columns[..33];
    assert row[..] == row[..33];
  }

  // ---------------------------------------------------------------------------
  // cpu

  /** fmt.Sprintf("cpu_%d_usage", i) */
  function CpuColumn(i: nat): string
  {
    "cpu_" + NatToString(i) + "_usage"
  }

  /** The ten column slots of a cpu point for a snapshot with the given number of cores. */
  function CpuColumns(cores: nat): seq<string>
    requires cores <= 8
  {
    ["cpu_total_usage"] + seq(cores, i requires 0 <= i => CpuColumn(i)) + ["cpu_system_usage"] + seq(8 - cores, _ => "")
  }

  function CpuRow(c: CPUStats): seq<Any>
    requires |c.CPUUsage.PercpuUsage| <= 8
  {
    var percpu := c.CPUUsage.PercpuUsage;
    [Uint64(c.CPUUsage.TotalUsage)] + seq(|percpu|, i requires 0 <= i < |percpu| => Uint64(percpu[i]))
      + [Uint64(c.SystemCPUUsage)] + seq(8 - |percpu|, _ => Nil)
  }

  lemma CpuColumnsDiffer(i: nat, j: nat)
    requires i != j
    ensures CpuColumn(i) != CpuColumn(j)
  {
    if CpuColumn(i) == CpuColumn(j) {
      var a, b := NatToString(i), NatToString(j);
      assert |a| == |b|;
      assert a == CpuColumn(i)[4..4 + |a|];
      assert b == CpuColumn(j)[4..4 + |b|];
      NatToStringInjective(i, j);
    }
  }

  /** The cpu point always has 10 slots, whatever the number of cores n (at most 8):
      slot 0 is the total usage, slot 1+i core i's usage in core order, slot 1+n
      the system usage, and slots 2+n to 9 stay empty. */
  lemma CpuSlots(c: CPUStats)
    requires |c.CPUUsage.PercpuUsage| <= 8
    ensures var n, cols, row := |c.CPUUsage.PercpuUsage|, CpuColumns(|c.CPUUsage.PercpuUsage|), CpuRow(c);
      && |cols| == |row| == 10
      && cols[0] == "cpu_total_usage" && row[0] == Uint64(c.CPUUsage.TotalUsage)
      && (forall i | 0 <= i < n :: cols[1 + i] == CpuColumn(i) && row[1 + i] == Uint64(c.CPUUsage.PercpuUsage[i]))
      && cols[1 + n] == "cpu_system_usage" && row[1 + n] == Uint64(c.SystemCPUUsage)
      && (forall j | 2 + n <= j < 10 :: cols[j] == "" && row[j] == Nil)
  {
  }

  /** Conversely, ten slots laid out that way are exactly the columns and the row of the snapshot. */
  lemma CpuSlotsDetermine(c: CPUStats, cols: seq<string>, row: seq<Any>)
    requires |c.CPUUsage.PercpuUsage| <= 8
    requires |cols| == |row| == 10
    requires cols[0] == "cpu_total_usage" && row[0] == Uint64(c.CPUUsage.TotalUsage)
    requires forall i | 0 <= i < |c.CPUUsage.PercpuUsage| :: cols[1 + i] == CpuColumn(i) && row[1 + i] == Uint64(c.CPUUsage.PercpuUsage[i])
    requires cols[1 + |c.CPUUsage.PercpuUsage|] == "cpu_system_usage" && row[1 + |c.CPUUsage.PercpuUsage|] == Uint64(c.SystemCPUUsage)
    requires forall j | 2 + |c.CPUUsage.PercpuUsage| <= j < 10 :: cols[j] == "" && row[j] == Nil
    ensures cols == CpuColumns(|c.CPUUsage.PercpuUsage|) && row == CpuRow(c)
  {
    var n := |c.CPUUsage.PercpuUsage|;
    var expectedCols, expectedRow := CpuColumns(n), CpuRow(c);
    CpuSlots(c);
    forall k | 0 <= k < 10
      ensures cols[k] == expectedCols[k] && row[k] == expectedRow[k]
    {
      if 1 <= k <= n {
        assert cols[1 + (k - 1)] == CpuColumn(k - 1);
      }
    }
  }

  /** The named columns of a cpu point are pairwise distinct. */
  lemma CpuColumnsDistinct(n: nat)
    requires n <= 8
    ensures forall i, j | 0 <= i < j < 2 + n :: CpuColumns(n)[i] != CpuColumns(n)[j]
  {
    var cols := CpuColumns(n);
    forall i, j | 0 <= i < j < 2 + n
      ensures cols[i] != cols[j]
    {
      if 1 <= i && j <= n {
        CpuColumnsDiffer(i - 1, j - 1);
      } else if 1 <= i <= n {
        assert cols[i][4] == NatToString(i - 1)[0];
        assert IsDigit(cols[i][4]) && !IsDigit(cols[j][4]);
      } else if 1 <= j <= n {
        assert cols[j][4] == NatToString(j - 1)[0];
        assert IsDigit(cols[j][4]) && !IsDigit(cols[i][4]);
      }
    }
  }

  /** cpuStatsToPoint: ten slots are allocated whatever the number of cores; more
      than 8 cores would write past the arrays, where Go panics. */
  method CpuStatsToPoint(point: Series, stat: DockerStats)
    requires |stat.CPUStats.CPUUsage.PercpuUsage| <= 8
    modifies point
    ensures point.Name == old(point.Name)
    ensures fresh(point.Columns) && |point.Points| == 1 && fresh(point.Points[0])
    ensures point.Columns[..] == CpuColumns(|stat.CPUStats.CPUUsage.PercpuUsage|)
    ensures point.Points[0][..] == CpuRow(stat.CPUStats)
  {
    var index := 0;
    var row := new Any[10](_ => Nil);
    point.Points := [row];
    point.Columns := new string[10](_ => "");
    var percpu := stat.CPUStats.CPUUsage.PercpuUsage;
    index := AddColumnValueToPoint("cpu_total_usage", Uint64(stat.CPUStats.CPUUsage.TotalUsage), index, point);
    for i := 0 to |percpu|
      invariant index == 1 + i
      invariant point.Name == old(point.Name) && point.Points == [row] && fresh(point.Columns) && point.Columns.Length == 10
      invariant point.Columns[0] == "cpu_total_usage" && row[0] == Uint64(stat.CPUStats.CPUUsage.TotalUsage)
      invariant forall k | 0 <= k < i :: point.Columns[1 + k] == CpuColumn(k) && row[1 + k] == Uint64(percpu[k])
      invariant forall k | 1 + i <= k < 10 :: point.Columns[k] == "" && row[k] == Nil
    {
      index := AddColumnValueToPoint(CpuColumn(i), Uint64(percpu[i]), index, point);
    }
    index := AddColumnValueToPoint("cpu_system_usage", Uint64(stat.CPUStats.SystemCPUUsage), index, point);
    CpuSlotsDetermine(stat.CPUStats, point.Columns[..], row[..]);
  }

  // ---------------------------------------------------------------------------
  // dsk.*

  /** The block-I/O operations sumDskStats adds up, in column order (case-sensitive). */
  const DskOps: seq<string> := ["Read", "Write", "Sync", "Async", "Total"]

  const DskColumns: seq<string> := ["read", "write", "sync", "async", "total"]

  /** The exact sum of the values of the entries whose operation is op. */
  function OpTotal(entries: seq<BlkioStatsEntry>, op: string): nat
  {
    if entries == [] then 0
    else
      var last := entries[|entries| - 1];
      OpTotal(entries[..|entries| - 1], op) + (if last.Op == op then last.Value else 0)
  }

  /** The five uint64 sums of sumDskStats: each operation's exact total, wrapped to 64 bits. */
  function DskSums(entries: seq<BlkioStatsEntry>): seq<uint64>
  {
    seq(5, k requires 0 <= k < 5 => WrapUint64(OpTotal(entries, DskOps[k])))
  }

  /** A uint64 sum that has wrapped around: the exact value modulo 2^64. */
  function WrapUint64(x: nat): uint64
  {
    x % (UINT64_MAX + 1)
  }

  lemma AddUint64Mod(x: nat, v: uint64)
    ensures AddUint64(WrapUint64(x), v) == WrapUint64(x + v)
  {
    var k := x / 0x1_0000_0000_0000_0000;
    assert x % (UINT64_MAX + 1) == x - k * 0x1_0000_0000_0000_0000;
    ModShift(x + v, k);
  }

  /** One more entry: its operation's wrapped total grows by its value with wrap-around, the others stay. */
  lemma SumStep(entries: seq<BlkioStatsEntry>, i: nat, op: string)
    requires i < |entries|
    ensures WrapUint64(OpTotal(entries[..i + 1], op))
      == if entries[i].Op == op then AddUint64(WrapUint64(OpTotal(entries[..i], op)), entries[i].Value) else WrapUint64(OpTotal(entries[..i], op))
  {
    assert entries[..i + 1][..i] == entries[..i];
    if entries[i].Op == op {
      AddUint64Mod(OpTotal(entries[..i], op), entries[i].Value);
    }
  }

  /** sumDskStats: bucket the entries into the five operations and add each
      bucket up with uint64 wrap-around; entries of any other operation are ignored. */
  method SumDskStats(stat: seq<BlkioStatsEntry>) returns (sum: seq<uint64>)
    ensures |sum| == 5
    ensures forall k | 0 <= k < 5 :: sum[k] == WrapUint64(OpTotal(stat, DskOps[k]))
  {
    var acc := new uint64[5](_ => 0);
    for i := 0 to |stat|
      invariant acc[0] == WrapUint64(OpTotal(stat[..i], "Read"))
      invariant acc[1] == WrapUint64(OpTotal(stat[..i], "Write"))
      invariant acc[2] == WrapUint64(OpTotal(stat[..i], "Sync"))
      invariant acc[3] == WrapUint64(OpTotal(stat[..i], "Async"))
      invariant acc[4] == WrapUint64(OpTotal(stat[..i], "Total"))
    {
      var v := stat[i];
      SumStep(stat, i, "Read");
      SumStep(stat, i, "Write");
      SumStep(stat, i, "Sync");
      SumStep(stat, i, "Async");
      SumStep(stat, i, "Total");
      if v.Op == "Read" {
        acc[0] := AddUint64(acc[0], v.Value);
      } else if v.Op == "Write" {
        acc[1] := AddUint64(acc[1], v.Value);
      } else if v.Op == "Sync" {
        acc[2] := AddUint64(acc[2], v.Value);
      } else if v.Op == "Async" {
        acc[3] := AddUint64(acc[3], v.Value);
      } else if v.Op == "Total" {
        acc[4] := AddUint64(acc[4], v.Value);
      }
    }
    assert stat[..|stat|] == stat;
    sum := acc[..];
    assert forall k | 0 <= k < 5 :: sum[k] == acc[k];
  }

  /** The entry list a dsk.* family reads, or None for a family dskStatsToPoint does not know. */
  function DskSource(b: BlkioStats, pointType: string): Option<seq<BlkioStatsEntry>>
  {
    if pointType == "dsk.io_service_bytes_recursive" then Some(b.IOServiceBytesRecursive)
    else if pointType == "dsk.io_serviced_recursive" then Some(b.IOServicedRecursive)
    else if pointType == "dsk.io_queue_recursive" then Some(b.IOQueueRecursive)
    else if pointType == "dsk.io_service_time_recursive" then Some(b.IOServiceTimeRecursive)
    else if pointType == "dsk.io_wait_time_recursive" then Some(b.IOWaitTimeRecursive)
    else if pointType == "dsk.io_merged_recursive" then Some(b.IOMergedRecursive)
    else if pointType == "dsk.io_time_recursive" then Some(b.IOTimeRecursive)
    else if pointType == "dsk.sectors_recursive" then Some(b.SectorsRecursive)
    else None
  }

  function DskRow(b: BlkioStats, pointType: string): seq<Any>
  {
    var sum := match DskSource(b, pointType)
      case Some(entries) => DskSums(entries)
      case None => [0, 0, 0, 0, 0];
    seq(5, k requires 0 <= k < 5 => Uint64(sum[k]))
  }

  /** dskStatsToPoint */
  method DskStatsToPoint(point: Series, stat: DockerStats, pointType: string)
    modifies point
    ensures point.Name == old(point.Name)
    ensures fresh(point.Columns) && |point.Points| == 1 && fresh(point.Points[0])
    ensures point.Columns[..] == DskColumns && point.Points[0][..] == DskRow(stat.BlkioStats, pointType)
  {
    var sum: seq<uint64> := [0, 0, 0, 0, 0];
    var row := new Any[5](_ => Nil);
    point.Points := [row];
    point.Columns := new string[] ["read", "write", "sync", "async", "total"];
    match DskSource(stat.BlkioStats, pointType) {
      case Some(entries) =>
        sum := SumDskStats(entries);
      case None =>
    }
    for i := 0 to 5
      invariant point.Name == old(point.Name) && fresh(point.Columns) && fresh(row)
      invariant point.Points == [row] && point.Columns[..] == DskColumns
      invariant forall k | 0 <= k < i :: row[k] == Uint64(sum[k])
    {
      row[i] := Uint64(sum[i]);
    }
  }

  /** Each dsk column holds the wrapped sum of exactly the entries whose operation is
      the matching one of Read, Write, Sync, Async, Total; a family that names no
      entry list yields five zeros. */
  lemma DskRowSums(b: BlkioStats, pointType: string)
    ensures |DskRow(b, pointType)| == 5
    ensures DskSource(b, pointType).Some? ==>
      forall k | 0 <= k < 5 :: DskRow(b, pointType)[k] == Uint64(WrapUint64(OpTotal(DskSource(b, pointType).value, DskOps[k])))
    ensures DskSource(b, pointType).None? ==> forall k | 0 <= k < 5 :: DskRow(b, pointType)[k] == Uint64(0)
  {
  }

  /** Entry lists add up piecewise. */
  lemma {:induction false} OpTotalAppend(a: seq<BlkioStatsEntry>, b: seq<BlkioStatsEntry>, op: string)
    ensures OpTotal(a + b, op) == OpTotal(a, op) + OpTotal(b, op)
    decreases |b|
  {
    if b != [] {
      assert (a + b)[..|a + b| - 1] == a + b[..|b| - 1];
      OpTotalAppend(a, b[..|b| - 1], op);
    } else {
      assert a + b == a;
    }
  }

  /** An entry whose operation is not exactly op (say "read" for "Read") adds nothing to op's total. */
  lemma OpTotalIgnoresOtherOps(entries: seq<BlkioStatsEntry>, e: BlkioStatsEntry, op: string)
    requires e.Op != op
    ensures OpTotal(entries + [e], op) == OpTotal(entries, op)
  {
    assert (entries + [e])[..|entries|] == entries;
  }

  // ---------------------------------------------------------------------------
  // prepareContainerPoint

  /** fmt.Sprintf("%s.%s", stripChars(Names[0], "/"), pointType) */
  function SeriesName(c: APIContainer, pointType: string): string
    requires |c.Names| > 0
  {
    DisplayName(c) + "." + pointType
  }

  /** strings.Split(pointType, ".")[0] */
  function FirstSegment(s: string): string
  {
    Split(s, '.')[0]
  }

  /** The point prepareContainerPoint returns, by family. */
  function ContainerPoint(pointType: string, c: APIContainer, stat: DockerStats): Point
    requires |c.Names| > 0
    requires pointType == "cpu" ==> |stat.CPUStats.CPUUsage.PercpuUsage| <= 8
  {
    var name := SeriesName(c, pointType);
    if pointType == "cpu" then Point(name, CpuColumns(|stat.CPUStats.CPUUsage.PercpuUsage|), [CpuRow(stat.CPUStats)])
    else if pointType == "mem" then Point(name, MemColumns, [MemRow(stat.MemoryStats)])
    else if pointType == "net" then Point(name, NetColumns, [NetRow(stat.Network)])
    else if FirstSegment(pointType) == "dsk" then Point(name, DskColumns, [DskRow(stat.BlkioStats, pointType)])
    else Point(name, [], [])
  }

  /** prepareContainerPoint: name the series and let the family's decoder fill it. */
  method PrepareContainerPoint(pointType: string, doxContainer: DoxContainer, stat: DockerStats) returns (point: Series)
    requires |doxContainer.container.Names| > 0
    requires pointType == "cpu" ==> |stat.CPUStats.CPUUsage.PercpuUsage| <= 8
    ensures fresh(point)
    ensures point.View() == ContainerPoint(pointType, doxContainer.container, stat)
  {
    point := new Series(SeriesName(doxContainer.container, pointType));
    if pointType == "cpu" {
      CpuStatsToPoint(point, stat);
    } else if pointType == "mem" {
      MemStatsToPoint(point, stat);
    } else if pointType == "net" {
      NetStatsToPoint(point, stat);
    } else if FirstSegment(pointType) == "dsk" {
      DskStatsToPoint(point, stat, pointType);
    }
  }

  /** The first piece of strings.Split is the longest separator-free prefix. */
  lemma {:induction false} SplitHead(s: string, sep: char)
    ensures Split(s, sep)[0] <= s
    ensures Split(s, sep)[0] == s || s[|Split(s, sep)[0]|] == sep
    decreases |s|
  {
    if s != [] && s[0] != sep {
      SplitHead(s[1..], sep);
      assert s == [s[0]] + s[1..];
    }
  }

  /** A family goes to the disk decoder exactly when it is "dsk" or starts with "dsk.". */
  lemma DskFamilies(pointType: string)
    ensures FirstSegment(pointType) == "dsk" <==> pointType == "dsk" || (|pointType| >= 4 && pointType[..4] == "dsk.")
  {
    var p := FirstSegment(pointType);
    SplitHead(pointType, '.');
    assert p in Split(pointType, '.');
    if p == "dsk" && p != pointType {
      assert pointType[..4] == pointType[..3] + [pointType[3]];
    }
    if |pointType| >= 4 && pointType[..4] == "dsk." {
      assert pointType[3] == '.';
      assert '.' !in p;
      assert |p| == 3;
      assert p == pointType[..3];
    }
  }

  /** Every point has its columns and each of its rows of the same length; the
      known families have one row of 10 (cpu), 33 (mem), 8 (net) or 5 (dsk.*)
      values, and any other family yields a point with only the name set. */
  lemma ContainerPointShape(pointType: string, c: APIContainer, stat: DockerStats)
    requires |c.Names| > 0
    requires pointType == "cpu" ==> |stat.CPUStats.CPUUsage.PercpuUsage| <= 8
    ensures var p := ContainerPoint(pointType, c, stat);
      && p.Name == DisplayName(c) + "." + pointType
      && (forall row <- p.Points :: |row| == |p.Columns|)
      && (pointType == "cpu" ==> |p.Columns| == 10 && |p.Points| == 1)
      && (pointType == "mem" ==> |p.Columns| == 33 && |p.Points| == 1)
      && (pointType == "net" ==> |p.Columns| == 8 && |p.Points| == 1)
      && (pointType !in {"cpu", "mem", "net"} && FirstSegment(pointType) == "dsk" ==> p.Columns == DskColumns && |p.Points| == 1)
      && (pointType !in {"cpu", "mem", "net"} && FirstSegment(pointType) != "dsk" ==> p.Columns == [] && p.Points == [])
  {
    if pointType == "cpu" {
      assert |CpuColumns(|stat.CPUStats.CPUUsage.PercpuUsage|)| == |CpuRow(stat.CPUStats)| == 10;
    } else if pointType == "mem" {
      assert |MemColumns| == |MemRow(stat.MemoryStats)| == 33;
    } else if pointType == "net" {
      assert |NetColumns| == |NetRow(stat.Network)| == 8;
    } else if FirstSegment(pointType) == "dsk" {
      assert |DskRow(stat.BlkioStats, pointType)| == 5;
    }
  }
}
