/**
 * The three output writers of main.go behind one class: `format` says which
 * one an object is, as the `Writer` interface value does in the source.
 * The table writer's bytes on standard output are modelled exactly; the CSV
 * and JSON writers hand rows and records to Go's `encoding/csv` and
 * `encoding/json`, whose byte output is outside this model, so for them the
 * model keeps what was handed over.
 */
module Writers {
  import opened Wrappers
  import opened Render
  import opened Options

  /** The text the table writer prints for `rows`: one line per row, in order. */
  function TableText(rows: seq<seq<string>>): string
  {
    if |rows| == 0 then [] else TableText(rows[..|rows| - 1]) + TableLine(rows[|rows| - 1])
  }

  lemma TableTextSnoc(rows: seq<seq<string>>, row: seq<string>)
    ensures TableText(rows + [row]) == TableText(rows) + TableLine(row)
  {
    assert (rows + [row])[..|rows|] == rows;
  }

  class Writer {
    const format: Format
    /** Table writer: the bytes written to standard output. */
    var text: string
    /** CSV writer: rows buffered inside the `csv.Writer`, not yet flushed. */
    var csvBuffered: seq<seq<string>>
    /** CSV writer: rows the `csv.Writer` has flushed to standard output. */
    var csvFlushed: seq<seq<string>>
    /** JSON writer: records handed to `json.Encoder.Encode`, one JSON object each. */
    var jsonRecords: seq<CalculatedStats>
    /** Every row passed to WriteS, in order (the header included). */
    ghost var rows: seq<seq<string>>

    ghost predicate Valid()
      reads this
    {
      && (format == Table ==>
            text == TableText(rows) && csvBuffered == [] && csvFlushed == [] && jsonRecords == [])
      && (format == Csv ==>
            csvFlushed + csvBuffered == rows && text == [] && jsonRecords == [])
      && (format == Json ==>
            rows == [] && text == [] && csvBuffered == [] && csvFlushed == [])
    }

    constructor (format: Format)
      ensures Valid() && this.format == format
      ensures rows == [] && text == [] && csvBuffered == [] && csvFlushed == [] && jsonRecords == []
    {
      this.format := format;
      text, csvBuffered, csvFlushed, jsonRecords := [], [], [], [];
      rows := [];
    }

    /**
     * `WriteS`: the table writer prints the fields joined by tabs and ended
     * by a newline; the CSV writer buffers them as one record; the JSON
     * writer does nothing.
     */
    method WriteS(record: seq<string>)
      requires Valid()
      modifies this
      ensures Valid()
      ensures rows == old(rows) + (if format == Json then [] else [record])
      ensures text == old(text) + (if format == Table then TableLine(record) else [])
      ensures csvBuffered == old(csvBuffered) + (if format == Csv then [record] else [])
      ensures csvFlushed == old(csvFlushed) && jsonRecords == old(jsonRecords)
    {
      match format
      case Table =>
        TableTextSnoc(rows, record);
        text := text + TableLine(record);
        rows := rows + [record];
      case Csv =>
        csvBuffered := csvBuffered + [record];
        rows := rows + [record];
      case Json =>
    }

    /**
     * `Write`: the table and CSV writers write the record's `Strings` row,
     * panicking on an ID shorter than IdWidth; the JSON writer encodes the
     * whole record and never looks at the ID's length.
     */
    method Write(record: CalculatedStats, isHumanReadable: bool, f: Formatting) returns (p: Option<Panic>)
      requires Valid()
      modifies this
      ensures Valid()
      ensures p.Some? <==> format != Json && |record.id| < IdWidth
      ensures p.Some? ==> p.value == IdTooShort && rows == old(rows)
      ensures p.None? && format != Json ==> rows == old(rows) + [Strings(record, isHumanReadable, f).value]
      ensures format == Table && p.None? ==>
                text == old(text) + TableLine(Strings(record, isHumanReadable, f).value)
      ensures format != Table ==> text == old(text)
      ensures jsonRecords == old(jsonRecords) + (if format == Json then [record] else [])
      ensures csvFlushed == old(csvFlushed)
      ensures format != Csv ==> csvBuffered == old(csvBuffered)
      ensures format == Json ==> rows == old(rows)
    {
      if format == Json {
        jsonRecords := jsonRecords + [record];
        return None;
      }
      var r := Strings(record, isHumanReadable, f);
      if r.Failure? {
        return Some(r.error);
      }
      WriteS(r.value);
      p := None;
    }

    /** `Flush`: the CSV writer moves its buffered rows to standard output; the others do nothing. */
    method Flush()
      requires Valid()
      modifies this
      ensures Valid()
      ensures format == Csv ==> csvFlushed == old(csvFlushed) + old(csvBuffered) && csvBuffered == []
      ensures format != Csv ==> csvFlushed == old(csvFlushed) && csvBuffered == old(csvBuffered)
      ensures rows == old(rows) && text == old(text) && jsonRecords == old(jsonRecords)
    {
      if format == Csv {
        csvFlushed := csvFlushed + csvBuffered;
        csvBuffered := [];
      }
    }

    /** The rows that are visible on standard output: all rows, except the CSV rows still buffered. */
    ghost function VisibleRows(): (r: seq<seq<string>>)
      reads this
      requires Valid()
      ensures format != Json ==> r <= rows
      ensures format == Csv && csvBuffered == [] ==> r == rows
      ensures format == Table ==> r == rows
    {
      if format == Csv then csvFlushed else rows
    }
  }

  /** The table text holds one line per row, in order: row `k`'s line sits at the end of the text for `rows[..k + 1]`. */
  lemma {:induction false} TableTextLines(rows: seq<seq<string>>, k: nat)
    requires k < |rows|
    ensures TableText(rows[..k + 1]) == TableText(rows[..k]) + TableLine(rows[k])
    ensures TableText(rows[..k + 1]) <= TableText(rows)
    decreases |rows| - k
  {
    assert rows[..k + 1][..k] == rows[..k];
    if k + 1 < |rows| {
      TableTextLines(rows, k + 1);
    } else {
      assert rows[..k + 1] == rows;
    }
  }
}
