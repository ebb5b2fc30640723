/** dox.go: the legacy cgroup readers. getCpuStats and getMemoryStats read a
    container's cpuacct and memory accounting files and turn their text into a
    column list and a value list. The host's files are the parameter files
    (see Docker.ReadFile). */
module Dox {
  import opened Text
  import Docker
  import Influx

  const CpuCgroup: string := "/sys/fs/cgroup/cpu,cpuacct/system.slice/"
  const CpuUsageFile: string := "cpuacct.usage"
  const CpuPercpuFile: string := "cpuacct.usage_percpu"
  const MemoryCgroup: string := "/sys/fs/cgroup/memory/system.slice"
  const MemoryStatFile: string := "memory.stat"

  // ---------------------------------------------------------------------------
  // getCpuStats

  /** The partial texts: the total usage with its newlines trimmed, then the
      whitespace-separated per-cpu usages. */
  function CpuPartials(usage: string, percpu: string): seq<string>
  {
    [Trim(usage, '\n')] + Fields(percpu)
  }

  /** fmt.Sprintf("cpu_usage_%d", i) */
  function CpuUsageColumn(i: nat): string
  {
    "cpu_usage_" + NatToString(i)
  }

  /** The columns for n partial texts: "cpu_usage_total", then one "cpu_usage_i" per partial i. */
  function CpuStatColumns(n: nat): seq<string>
  {
    ["cpu_usage_total"] + seq(n, i requires 0 <= i => CpuUsageColumn(i))
  }

  lemma CpuStatColumnsSnoc(n: nat)
    ensures CpuStatColumns(n + 1) == CpuStatColumns(n) + [CpuUsageColumn(n)]
  {
  }

  /** The values for the partial texts: each one's strconv.Atoi value, then one slot left nil. */
  function CpuStatValues(partials: seq<string>): seq<Influx.Any>
  {
    seq(|partials|, i requires 0 <= i < |partials| => Influx.Int(Atoi(partials[i]))) + [Influx.Nil]
  }

  /** getCpuStats. A missing cpuacct.usage file is fatal (log.Fatalln ends the
      process); a missing cpuacct.usage_percpu file reads as empty. */
  method GetCpuStats(id: string, files: map<string, string>) returns (fatal: bool, columns: seq<string>, values: seq<Influx.Any>)
    ensures fatal <==> Docker.ScopePath(CpuCgroup, id, CpuUsageFile) !in files
    ensures !fatal ==>
      var partials := CpuPartials(files[Docker.ScopePath(CpuCgroup, id, CpuUsageFile)],
                                  Docker.ReadFile(files, Docker.ScopePath(CpuCgroup, id, CpuPercpuFile)));
      columns == CpuStatColumns(|partials|) && values == CpuStatValues(partials)
  {
    var path := Docker.ScopePath(CpuCgroup, id, CpuUsageFile);
    if path !in files {
      return true, [], [];
    }
    fatal := false;
    columns := ["cpu_usage_total"];
    var cputotal := files[path];
    var partials := [Trim(cputotal, '\n')];
    path := Docker.ScopePath(CpuCgroup, id, CpuPercpuFile);
    var cpupartial := Docker.ReadFile(files, path);
    partials := partials + Fields(cpupartial);
    var usageColumns, slots := ConvertCpuPartials(partials);
    columns := columns + usageColumns;
    values := slots;
  }

  /** The loop of getCpuStats: every partial text's strconv.Atoi value in its own
      slot of a slice one longer than the partials, and one "cpu_usage_i" column
      per partial. */
  method ConvertCpuPartials(partials: seq<string>) returns (columns: seq<string>, values: seq<Influx.Any>)
    ensures ["cpu_usage_total"] + columns == CpuStatColumns(|partials|)
    ensures values == CpuStatValues(partials)
  {
    columns := [];
    var lenght := |partials| + 1;
    var slots := new Influx.Any[lenght](_ => Influx.Nil);
    for i := 0 to |partials|
      invariant ["cpu_usage_total"] + columns == CpuStatColumns(i)
      invariant forall k | 0 <= k < i :: slots[k] == Influx.Int(Atoi(partials[k]))
      invariant forall k | i <= k < lenght :: slots[k] == Influx.Nil
    {
      slots[i] := Influx.Int(Atoi(partials[i]));
      CpuStatColumnsSnoc(i);
      columns := columns + [CpuUsageColumn(i)];
    }
    values := slots[..];
    assert values == CpuStatValues(partials);
  }

  /** The columns and the values line up one to one, and the last slot stays nil.
      Column "cpu_usage_total" holds the total; for each of the other partials,
      column "cpu_usage_k" holds partial k + 1, the usage of core k; the last
      column is named after a core that does not exist and holds nil. */
  lemma CpuStatsLayout(partials: seq<string>)
    requires |partials| >= 1
    ensures var columns, values := CpuStatColumns(|partials|), CpuStatValues(partials);
      && |columns| == |values| == |partials| + 1
      && columns[0] == "cpu_usage_total" && values[0] == Influx.Int(Atoi(partials[0]))
      && (forall k | 0 <= k < |partials| - 1 :: columns[k + 1] == CpuUsageColumn(k) && values[k + 1] == Influx.Int(Atoi(partials[k + 1])))
      && columns[|partials|] == CpuUsageColumn(|partials| - 1) && values[|partials|] == Influx.Nil
  {
  }

  /** The per-core usages as %d prints them. */
  function FormatAll(numbers: seq<int64>): seq<string>
  {
    seq(|numbers|, i requires 0 <= i < |numbers| => FormatInt(numbers[i]))
  }

  lemma FieldsOfFormatAll(numbers: seq<int64>, t: string)
    requires forall i | 0 <= i < |t| :: IsSpace(t[i])
    ensures Fields(JoinSpace(FormatAll(numbers)) + t) == FormatAll(numbers)
  {
    var words := FormatAll(numbers);
    forall i | 0 <= i < |numbers|
      ensures words[i] != [] && NoSpace(words[i])
    {
      FormatIntIsWord(numbers[i]);
    }
    FieldsOfJoinSpaceThen(words, t);
  }

  /** The partial texts of cpuacct files as the kernel writes them: the total
      on one line, the per-core usages blank-separated with a trailing blank and
      newline. */
  lemma CpuPartialsOfAccounting(total: int64, cores: seq<int64>)
    ensures CpuPartials(FormatInt(total) + "\n", JoinSpace(FormatAll(cores)) + " \n") == [FormatInt(total)] + FormatAll(cores)
  {
    var blank := " \n";
    assert IsSpace(blank[0]) && IsSpace(blank[1]);
    calc {
      CpuPartials(FormatInt(total) + "\n", JoinSpace(FormatAll(cores)) + blank);
      [Trim(FormatInt(total) + "\n", '\n')] + Fields(JoinSpace(FormatAll(cores)) + blank);
      == { TrimFormatted(total); }
      [FormatInt(total)] + Fields(JoinSpace(FormatAll(cores)) + blank);
      == { FieldsOfFormatAll(cores, blank); }
      [FormatInt(total)] + FormatAll(cores);
    }
  }

  lemma TrimFormatted(x: int64)
    ensures Trim(FormatInt(x) + "\n", '\n') == FormatInt(x)
  {
    FormatIntIsWord(x);
    assert FormatInt(x)[0] != '\n' && FormatInt(x)[|FormatInt(x)| - 1] != '\n';
    TrimTrailingNewline(FormatInt(x));
  }

  /** Such files read back as each number exactly, the total first, then the
      cores in order, then the nil slot. */
  lemma CpuAccountingRoundTrip(total: int64, cores: seq<int64>)
    ensures var partials := CpuPartials(FormatInt(total) + "\n", JoinSpace(FormatAll(cores)) + " \n");
      CpuStatValues(partials) == [Influx.Int(total)] + seq(|cores|, i requires 0 <= i < |cores| => Influx.Int(cores[i])) + [Influx.Nil]
  {
    var expected := [Influx.Int(total)] + seq(|cores|, i requires 0 <= i < |cores| => Influx.Int(cores[i])) + [Influx.Nil];
    calc {
      CpuStatValues(CpuPartials(FormatInt(total) + "\n", JoinSpace(FormatAll(cores)) + " \n"));
      == { CpuPartialsOfAccounting(total, cores); }
      CpuStatValues([FormatInt(total)] + FormatAll(cores));
      == { FormattedCpuValues(total, cores); }
      expected;
    }
  }

  lemma FormattedCpuValues(total: int64, cores: seq<int64>)
    ensures CpuStatValues([FormatInt(total)] + FormatAll(cores))
      == [Influx.Int(total)] + seq(|cores|, i requires 0 <= i < |cores| => Influx.Int(cores[i])) + [Influx.Nil]
  {
    var partials := [FormatInt(total)] + FormatAll(cores);
    ParseFormatInt64(total);
    forall i | 0 <= i < |cores|
      ensures Atoi(partials[i + 1]) == cores[i]
    {
      ParseFormatInt64(cores[i]);
    }
    CpuStatValuesOfNumbers(partials, total, cores);
  }

  lemma CpuStatValuesOfNumbers(partials: seq<string>, total: int64, cores: seq<int64>)
    requires |partials| == |cores| + 1 && Atoi(partials[0]) == total
    requires forall i | 0 <= i < |cores| :: Atoi(partials[i + 1]) == cores[i]
    ensures CpuStatValues(partials) == [Influx.Int(total)] + seq(|cores|, i requires 0 <= i < |cores| => Influx.Int(cores[i])) + [Influx.Nil]
  {
    var expected := [Influx.Int(total)] + seq(|cores|, i requires 0 <= i < |cores| => Influx.Int(cores[i])) + [Influx.Nil];
    var values := CpuStatValues(partials);
    assert |values| == |expected|;
    forall k | 0 <= k < |values|
      ensures values[k] == expected[k]
    {
      if 0 < k < |partials| {
        assert Atoi(partials[(k - 1) + 1]) == cores[k - 1];
      }
    }
  }

  // ---------------------------------------------------------------------------
  // getMemoryStats

  /** The lines bufio.Scanner yields for the container's memory.stat; an
      unreadable file yields none. */
  function MemoryLines(id: string, files: map<string, string>): seq<string>
  {
    ScanLines(Docker.ReadFile(files, Docker.ScopePath(MemoryCgroup, id, MemoryStatFile)))
  }

  /** Every line has a name and a value field; split[1] panics otherwise. */
  predicate NamedLines(lines: seq<string>)
  {
    forall i | 0 <= i < |lines| :: |Fields(lines[i])| >= 2
  }

  function MemoryStatColumns(lines: seq<string>): seq<string>
    requires NamedLines(lines)
  {
    seq(|lines|, i requires 0 <= i < |lines| => Fields(lines[i])[0])
  }

  function MemoryStatValues(lines: seq<string>): seq<Influx.Any>
    requires NamedLines(lines)
  {
    seq(|lines|, i requires 0 <= i < |lines| => Influx.Int(Atoi(Fields(lines[i])[1])))
  }

  /** getMemoryStats: one column and one value per line, the line's first field
      and the strconv.Atoi value of its second (0 when that is not a number). */
  method GetMemoryStats(id: string, files: map<string, string>) returns (columns: seq<string>, values: seq<Influx.Any>)
    requires NamedLines(MemoryLines(id, files))
    ensures columns == MemoryStatColumns(MemoryLines(id, files))
    ensures values == MemoryStatValues(MemoryLines(id, files))
  {
    var path := Docker.ScopePath(MemoryCgroup, id, MemoryStatFile);
    var lines := ScanLines(Docker.ReadFile(files, path));
    columns := [];
    var tmpValues: seq<string> := [];
    for i := 0 to |lines|
      invariant |columns| == |tmpValues| == i
      invariant forall k | 0 <= k < i :: columns[k] == Fields(lines[k])[0] && tmpValues[k] == Fields(lines[k])[1]
    {
      var split := Fields(lines[i]);
      columns := columns + [split[0]];
      tmpValues := tmpValues + [split[1]];
    }
    var slots := new Influx.Any[|tmpValues|](_ => Influx.Nil);
    for i := 0 to |tmpValues|
      invariant forall k | 0 <= k < i :: slots[k] == Influx.Int(Atoi(tmpValues[k]))
    {
      slots[i] := Influx.Int(Atoi(tmpValues[i]));
    }
    values := slots[..];
  }

  /** The memory.stat line the kernel writes for one counter. */
  function MemoryStatLine(name: string, value: int64): string
  {
    JoinSpace([name, FormatInt(value)])
  }

  lemma MemoryStatLineFields(name: string, value: int64)
    requires name != [] && NoSpace(name)
    ensures var line := MemoryStatLine(name, value);
      && Fields(line) == [name, FormatInt(value)]
      && '\n' !in line && line != [] && line[|line| - 1] != '\r'
      && Atoi(FormatInt(value)) == value
  {
    var line := MemoryStatLine(name, value);
    FormatIntIsWord(value);
    FieldsOfJoinSpace([name, FormatInt(value)]);
    ParseFormatInt64(value);
    assert line == name + " " + FormatInt(value);
    assert line[|line| - 1] == FormatInt(value)[|FormatInt(value)| - 1];
  }

  /** A memory.stat file of "<name> <value>" lines reads back as exactly those
      names, in order, and exactly those values. */
  lemma MemoryStatRoundTrip(names: seq<string>, numbers: seq<int64>)
    requires |names| == |numbers|
    requires forall n <- names :: n != [] && NoSpace(n)
    ensures var lines := seq(|names|, i requires 0 <= i < |names| => MemoryStatLine(names[i], numbers[i]));
      && ScanLines(Terminated(lines)) == lines
      && NamedLines(lines)
      && MemoryStatColumns(lines) == names
      && MemoryStatValues(lines) == seq(|numbers|, i requires 0 <= i < |numbers| => Influx.Int(numbers[i]))
  {
    var lines := seq(|names|, i requires 0 <= i < |names| => MemoryStatLine(names[i], numbers[i]));
    forall i | 0 <= i < |names|
      ensures Fields(lines[i]) == [names[i], FormatInt(numbers[i])]
      ensures '\n' !in lines[i] && lines[i] != [] && lines[i][|lines[i]| - 1] != '\r'
      ensures Atoi(FormatInt(numbers[i])) == numbers[i]
    {
      assert names[i] in names;
      MemoryStatLineFields(names[i], numbers[i]);
    }
    ScanLinesTerminated(lines);
  }

  /** A container without a readable memory.stat gives no columns and no values. */
  lemma UnreadableMemoryStatIsEmpty(id: string, files: map<string, string>)
    requires Docker.ScopePath(MemoryCgroup, id, MemoryStatFile) !in files
    ensures MemoryLines(id, files) == []
    ensures MemoryStatColumns(MemoryLines(id, files)) == [] && MemoryStatValues(MemoryLines(id, files)) == []
  {
    assert Split([], '\n') == [[]];
  }

  /** The cpu and memory readers look in different files of the same container,
      and the paths of different containers differ. */
  lemma StatPathsDiffer(id1: string, id2: string)
    ensures Docker.ScopePath(CpuCgroup, id1, CpuUsageFile) != Docker.ScopePath(CpuCgroup, id1, CpuPercpuFile)
    ensures id1 != id2 ==> Docker.ScopePath(MemoryCgroup, id1, MemoryStatFile) != Docker.ScopePath(MemoryCgroup, id2, MemoryStatFile)
  {
    if id1 != id2 && Docker.ScopePath(MemoryCgroup, id1, MemoryStatFile) == Docker.ScopePath(MemoryCgroup, id2, MemoryStatFile) {
      Docker.ScopePathInjective(MemoryCgroup, id1, id2, MemoryStatFile);
    }
    var a, b := Docker.ScopePath(CpuCgroup, id1, CpuUsageFile), Docker.ScopePath(CpuCgroup, id1, CpuPercpuFile);
    assert |a| != |b|;
  }
}
