/**
 * The record the event loop builds from each stats event, and the row of
 * text fields the table and CSV writers print for it.
 */
module Render {
  import opened Wrappers
  import Seqs

  datatype CalculatedStats = CalculatedStats(
    os: string,
    id: string,
    name: string,
    image: string,
    cpuPercentage: real,
    memory: real,
    memoryLimit: real,
    memoryPercentage: real)

  /**
   * Number formatting done by Go libraries outside this model:
   * `fixed2` is `fmt.Sprintf("%.2f", x)` and `bytesSize` is `units.BytesSize(x)`.
   */
  datatype Formatting = Formatting(fixed2: real -> string, bytesSize: real -> string)

  /** A Go runtime panic raised while building or rendering a record. */
  datatype Panic =
    | NoContainerName   // `Names[0]` on a container with no names
    | IdTooShort        // `ID[:10]` on an ID shorter than IdWidth (Go counts bytes; the model counts characters)

  /** The ID column shows this many leading characters of the container ID. */
  const IdWidth: nat := 10

  /** The number of columns of every row, header included. */
  const FieldCount: nat := 8

  /** Go `strings.TrimLeft(s, "/")`: drops every leading '/'. */
  function TrimLeadingSlashes(s: string): (r: string)
    ensures |r| <= |s| && r == s[|s| - |r|..]
    ensures r == [] || r[0] != '/'
    ensures forall i :: 0 <= i < |s| - |r| ==> s[i] == '/'
  {
    if |s| > 0 && s[0] == '/' then TrimLeadingSlashes(s[1..]) else s
  }

  /** Go `fmt.Sprintf("%.2f%%", x)`: the fixed two-decimal text followed by a percent sign. */
  function Percent(f: Formatting, x: real): string
  {
    f.fixed2(x) + "%"
  }

  function Header(): (h: seq<string>)
    ensures |h| == FieldCount
  {
    ["os", "id", "name", "image", "cpup", "musage", "mlimit", "memp"]
  }

  /** The four numeric columns, formatted for people or as plain two-decimal numbers. */
  function NumberFields(cs: CalculatedStats, isHumanReadable: bool, f: Formatting): (r: seq<string>)
    ensures |r| == 4
  {
    if isHumanReadable then
      [Percent(f, cs.cpuPercentage), f.bytesSize(cs.memory),
       f.bytesSize(cs.memoryLimit), Percent(f, cs.memoryPercentage)]
    else
      [f.fixed2(cs.cpuPercentage), f.fixed2(cs.memory),
       f.fixed2(cs.memoryLimit), f.fixed2(cs.memoryPercentage)]
  }

  /** `CalculatedStats.Strings`: the row for one record; panics on an ID shorter than IdWidth. */
  function Strings(cs: CalculatedStats, isHumanReadable: bool, f: Formatting): (r: Result<seq<string>, Panic>)
    ensures r.Success? <==> |cs.id| >= IdWidth
    ensures r.Failure? ==> r.error == IdTooShort
    ensures r.Success? ==> |r.value| == |Header()|
    ensures r.Success? ==> r.value[0] == cs.os && r.value[3] == cs.image
    ensures r.Success? ==> |r.value[1]| == IdWidth && r.value[1] <= cs.id
    ensures r.Success? ==> (r.value[2] == [] || r.value[2][0] != '/') && |r.value[2]| <= |cs.name|
                           && r.value[2] == cs.name[|cs.name| - |r.value[2]|..]
    ensures r.Success? ==> forall i :: 0 <= i < |cs.name| - |r.value[2]| ==> cs.name[i] == '/'
    ensures r.Success? && !isHumanReadable ==>
              r.value[4..] == [f.fixed2(cs.cpuPercentage), f.fixed2(cs.memory),
                               f.fixed2(cs.memoryLimit), f.fixed2(cs.memoryPercentage)]
    ensures r.Success? && isHumanReadable ==>
              r.value[4..] == [Percent(f, cs.cpuPercentage), f.bytesSize(cs.memory),
                               f.bytesSize(cs.memoryLimit), Percent(f, cs.memoryPercentage)]
  {
    if |cs.id| < IdWidth then Failure(IdTooShort)
    else
      Success([cs.os, cs.id[..IdWidth], TrimLeadingSlashes(cs.name), cs.image]
              + NumberFields(cs, isHumanReadable, f))
  }

  /**
   * The human-readable flag changes only the four numeric columns; the CPU
   * and memory percentage columns gain a trailing '%' and nothing else.
   */
  lemma HumanReadableChangesOnlyNumbers(cs: CalculatedStats, f: Formatting)
    ensures Strings(cs, true, f).Success? == Strings(cs, false, f).Success?
    ensures Strings(cs, true, f).Success? ==>
              var human, plain := Strings(cs, true, f).value, Strings(cs, false, f).value;
              && human[..4] == plain[..4]
              && human[4] == plain[4] + "%"
              && human[7] == plain[7] + "%"
  {
  }

  /** One table line: the fields joined by a tab, as `strings.Join(record, "\t")`, then `fmt.Sprintln`'s newline. */
  function TableLine(fields: seq<string>): (line: string)
    ensures |line| == |Seqs.Join(fields, '\t')| + 1 && line[|line| - 1] == '\n'
    ensures line[..|line| - 1] == Seqs.Join(fields, '\t')
  {
    Seqs.Join(fields, '\t') + "\n"
  }

  /** The line's text before its newline splits back into the fields, provided no field holds a tab. */
  lemma {:induction false} TableLineRoundTrip(fields: seq<string>)
    requires |fields| >= 1
    requires Seqs.FreeOf(fields, '\t')
    ensures |TableLine(fields)| >= 1 && TableLine(fields)[|TableLine(fields)| - 1] == '\n'
    ensures Seqs.Split(TableLine(fields)[..|TableLine(fields)| - 1], '\t') == fields
  {
    var line := TableLine(fields);
    assert line[..|line| - 1] == Seqs.Join(fields, '\t');
    Seqs.SplitJoin(fields, '\t');
  }

  /** A header or record line holds exactly FieldCount - 1 tabs when no field contains one. */
  lemma {:induction false} TableLineTabs(fields: seq<string>)
    requires |fields| == FieldCount
    requires Seqs.FreeOf(fields, '\t')
    ensures Seqs.Count(TableLine(fields), '\t') == FieldCount - 1
  {
    Seqs.CountJoin(fields, '\t');
    Seqs.CountAppend(Seqs.Join(fields, '\t'), "\n", '\t');
    assert Seqs.Count("\n", '\t') == 0;
  }
}
