/**
 * The `for`/`select` loop of main.go, handled one event at a time: stats
 * events are turned into records and written, done events count the
 * monitors down and, when none is left, schedule a quit; a quit (from that
 * schedule or from a signal) ends the process. Channels and goroutines are
 * not modelled: the loop receives its events as a sequence.
 */
module EventLoop {
  import opened Wrappers
  import opened DockerTypes
  import opened CalculateStats
  import opened Render
  import opened Options
  import opened Writers
  import opened StatsStream
  import opened Seqs

  /** Running, ended by `os.Exit(0)`, or ended by a panic. */
  datatype Status = Running | Exited | Panicked(reason: Panic)

  /** The record built for a stats event; `Names[0]` panics for a container without names. */
  function Calculate(m: StatMessage): (r: Result<CalculatedStats, Panic>)
    ensures r.Success? <==> |m.container.names| > 0
    ensures r.Failure? ==> r.error == NoContainerName
    ensures r.Success? ==> r.value.id == m.container.id && r.value.name == m.container.names[0]
    ensures r.Success? ==> r.value.os == m.os && r.value.image == m.container.image
    ensures r.Success? ==> r.value.cpuPercentage == CalculateCPUPercentage(m.os, m.stats)
                           && r.value.memory == CalculateMemoryUsage(m.os, m.stats)
                           && r.value.memoryLimit == CalculateMemoryLimit(m.os, m.stats)
                           && r.value.memoryPercentage == CalculateMemoryPercentage(m.os, m.stats)
  {
    if |m.container.names| == 0 then Failure(NoContainerName)
    else
      Success(CalculatedStats(
        os := m.os,
        id := m.container.id,
        name := m.container.names[0],
        image := m.container.image,
        cpuPercentage := CalculateCPUPercentage(m.os, m.stats),
        memory := CalculateMemoryUsage(m.os, m.stats),
        memoryLimit := CalculateMemoryLimit(m.os, m.stats),
        memoryPercentage := CalculateMemoryPercentage(m.os, m.stats)))
  }

  // ---------------------------------------------------------------------
  // What a sequence of events does to the output

  /** The panic that handling stats message `m` raises under writer `format`, if any. */
  function StatPanic(m: StatMessage, format: Format): (p: Option<Panic>)
    ensures p == Some(NoContainerName) <==> Calculate(m).Failure?
    ensures p.None? <==> Calculate(m).Success? && (format == Json || |Calculate(m).value.id| >= IdWidth)
  {
    if |m.container.names| == 0 then Some(NoContainerName)
    else if format != Json && |m.container.id| < IdWidth then Some(IdTooShort)
    else None
  }

  /** Whether handling `e` ends the loop: a quit, or a stats event that panics. */
  predicate Stops(e: Event, format: Format)
  {
    e.Quit? || (e.Stat? && StatPanic(e.message, format).Some?)
  }

  /** The row the table or CSV writer gets for `e`: one for a stats event that does not panic. */
  function RowOf(e: Event, format: Format, isHumanReadable: bool, f: Formatting): seq<seq<string>>
  {
    if e.Stat? && format != Json && StatPanic(e.message, format).None? then
      [Strings(Calculate(e.message).value, isHumanReadable, f).value]
    else []
  }

  /** The record the JSON writer gets for `e`: one for a stats event that does not panic. */
  function RecordOf(e: Event, format: Format): seq<CalculatedStats>
  {
    if e.Stat? && format == Json && StatPanic(e.message, format).None? then [Calculate(e.message).value]
    else []
  }

  function RowFn(format: Format, isHumanReadable: bool, f: Formatting): Event -> seq<seq<string>>
  {
    e => RowOf(e, format, isHumanReadable, f)
  }

  function RecordFn(format: Format): Event -> seq<CalculatedStats>
  {
    e => RecordOf(e, format)
  }

  /** The rows the table or CSV writer gets for `es`, in order. */
  function Rows(es: seq<Event>, format: Format, isHumanReadable: bool, f: Formatting): seq<seq<string>>
  {
    FlatMap(es, RowFn(format, isHumanReadable, f))
  }

  /** The records the JSON writer gets for `es`, in order. */
  function Records(es: seq<Event>, format: Format): seq<CalculatedStats>
  {
    FlatMap(es, RecordFn(format))
  }

  /** The number of done events in `es`. */
  function DoneCount(es: seq<Event>): nat
  {
    if |es| == 0 then 0 else DoneCount(es[..|es| - 1]) + (if es[|es| - 1].Done? then 1 else 0)
  }

  /** Extending a prefix of `es` by one event extends its rows and records by that event's. */
  lemma PrefixStep(es: seq<Event>, h: nat, format: Format, isHumanReadable: bool, f: Formatting)
    requires h < |es|
    ensures Rows(es[..h + 1], format, isHumanReadable, f)
            == Rows(es[..h], format, isHumanReadable, f) + RowOf(es[h], format, isHumanReadable, f)
    ensures Records(es[..h + 1], format) == Records(es[..h], format) + RecordOf(es[h], format)
  {
    FlatMapPrefixStep(es, h, RowFn(format, isHumanReadable, f));
    FlatMapPrefixStep(es, h, RecordFn(format));
  }

  /** Extending a prefix of `es` by one event adds one to its done count if that event is a done. */
  lemma DonePrefixStep(es: seq<Event>, h: nat)
    requires h < |es|
    ensures DoneCount(es[..h + 1]) == DoneCount(es[..h]) + (if es[h].Done? then 1 else 0)
  {
    assert es[..h + 1][..h] == es[..h];
  }

  lemma {:induction false} DoneCountAppend(a: seq<Event>, b: seq<Event>)
    ensures DoneCount(a + b) == DoneCount(a) + DoneCount(b)
    decreases |b|
  {
    if |b| == 0 {
      assert a + b == a;
    } else {
      var init := b[..|b| - 1];
      assert (a + b)[..|a + b| - 1] == a + init;
      DoneCountAppend(a, init);
    }
  }

  /** The done count does not depend on the order the events arrive in. */
  lemma {:induction false} DoneCountPermutation(a: seq<Event>, b: seq<Event>)
    requires multiset(a) == multiset(b)
    ensures DoneCount(a) == DoneCount(b)
    decreases |a|
  {
    if |a| == 0 {
      assert |b| == |multiset(b)| == 0;
    } else {
      var x, init := a[|a| - 1], a[..|a| - 1];
      assert a == init + [x];
      assert x in multiset(b);
      var i :| 0 <= i < |b| && b[i] == x;
      var rest := b[..i] + b[i + 1..];
      assert b == b[..i] + [x] + b[i + 1..];
      assert multiset(b) == multiset(b[..i]) + multiset{x} + multiset(b[i + 1..]);
      assert multiset(a) == multiset(init) + multiset{x};
      assert multiset(rest) == multiset(b[..i]) + multiset(b[i + 1..]);
      assert multiset(init) == multiset(a) - multiset{x};
      assert multiset(rest) == multiset(b) - multiset{x};
      DoneCountPermutation(init, rest);
      DoneCountAppend(b[..i], [x]);
      DoneCountAppend(b[..i] + [x], b[i + 1..]);
      DoneCountAppend(b[..i], b[i + 1..]);
    }
  }

  /** A monitor's events hold exactly one done. */
  lemma MonitorDoneCount(response: Result<StatsResponse, string>, container: Container, decode: Decoder)
    ensures DoneCount(MonitorEvents(response, container, decode)) == 1
  {
    var es := MonitorEvents(response, container, decode);
    MonitorSendsDoneOnce(response, container, decode);
    var stats := es[..|es| - 1];
    assert es == stats + [es[|es| - 1]];
    DoneCountAppend(stats, [es[|es| - 1]]);
    NoDoneNoCount(stats);
  }

  lemma {:induction false} NoDoneNoCount(es: seq<Event>)
    requires forall k :: 0 <= k < |es| ==> !es[k].Done?
    ensures DoneCount(es) == 0
    decreases |es|
  {
    if |es| > 0 {
      NoDoneNoCount(es[..|es| - 1]);
    }
  }

  /** The events of all monitors, one stream after another. */
  function Flatten(streams: seq<seq<Event>>): seq<Event>
  {
    if |streams| == 0 then [] else Flatten(streams[..|streams| - 1]) + streams[|streams| - 1]
  }

  /** The event streams of the monitors started for `containers`, each with its own stats response. */
  function MonitorStreams(responses: seq<Result<StatsResponse, string>>, containers: seq<Container>, decode: Decoder)
    : (ss: seq<seq<Event>>)
    requires |responses| == |containers|
    ensures |ss| == |containers|
  {
    seq(|containers|, k requires 0 <= k < |containers| => MonitorEvents(responses[k], containers[k], decode))
  }

  lemma {:induction false} FlattenDoneCount(ss: seq<seq<Event>>)
    requires forall k :: 0 <= k < |ss| ==> DoneCount(ss[k]) == 1
    ensures DoneCount(Flatten(ss)) == |ss|
    decreases |ss|
  {
    if |ss| > 0 {
      FlattenDoneCount(ss[..|ss| - 1]);
      DoneCountAppend(Flatten(ss[..|ss| - 1]), ss[|ss| - 1]);
    }
  }

  /**
   * Whatever order the monitors' events reach the loop in, they hold one
   * done per container started, so the counter that starts at the
   * container count reaches 0 once all of them are handled.
   */
  lemma EveryMonitorCountsDown(responses: seq<Result<StatsResponse, string>>, containers: seq<Container>,
                               decode: Decoder, es: seq<Event>)
    requires |responses| == |containers|
    requires multiset(es) == multiset(Flatten(MonitorStreams(responses, containers, decode)))
    ensures DoneCount(es) == |containers|
  {
    var ss := MonitorStreams(responses, containers, decode);
    forall k | 0 <= k < |ss|
      ensures DoneCount(ss[k]) == 1
    {
      MonitorDoneCount(responses[k], containers[k], decode);
    }
    FlattenDoneCount(ss);
    DoneCountPermutation(es, Flatten(ss));
  }

  /** A "no monitors left" quit can only arrive after the loop scheduled it. */
  ghost predicate QuitsFollowSchedule(es: seq<Event>, containers: nat, doneBefore: nat)
  {
    forall j :: 0 <= j < |es| && es[j] == Quit(NoMonitorsLeft) ==>
      0 < containers <= doneBefore + DoneCount(es[..j])
  }

  class Loop {
    /** `len(dockerContainerList)`: the number of monitors started. */
    const containers: nat
    const isHumanReadable: bool
    const formatting: Formatting
    const writer: Writer
    /** `dockerMonitors`: the monitors that have not sent done yet. */
    var dockerMonitors: int
    /** The goroutine that sends "No monitors left" on the quit channel has been started. */
    var quitPending: bool
    var status: Status
    /** The done events handled so far. */
    ghost var doneCount: nat
    /** How often the loop started the "No monitors left" goroutine. */
    ghost var quitsScheduled: nat

    ghost predicate Valid()
      reads this, writer
    {
      && writer.Valid()
      && dockerMonitors == containers - doneCount
      && quitsScheduled == (if 0 < containers <= doneCount then 1 else 0)
      && quitPending == (quitsScheduled == 1)
      && (writer.format == Csv ==> writer.csvBuffered == [])
    }

    /**
     * The set-up of `main` after option parsing and container listing: the
     * counter starts at the container count and the writer is chosen from
     * the format.
     */
    constructor (o: Options, containers: nat, f: Formatting)
      ensures Valid() && fresh(writer)
      ensures status == Running && dockerMonitors == containers && !quitPending && doneCount == 0
      ensures this.containers == containers && isHumanReadable == o.isHumanReadable && formatting == f
      ensures writer.format == SelectWriter(o.format)
      ensures writer.rows == [] && writer.jsonRecords == []
    {
      this.containers := containers;
      isHumanReadable := o.isHumanReadable;
      formatting := f;
      writer := new Writer(SelectWriter(o.format));
      dockerMonitors := containers;
      quitPending := false;
      status := Running;
      doneCount := 0;
      quitsScheduled := 0;
    }

    /**
     * Before the loop: the header row is written and flushed, so the table
     * and CSV writers show it as their first row; the JSON writer ignores it.
     */
    method WriteHeader()
      requires Valid() && writer.rows == []
      modifies writer
      ensures Valid()
      ensures writer.rows == (if writer.format == Json then [] else [Header()])
      ensures writer.VisibleRows() == writer.rows
      ensures writer.jsonRecords == old(writer.jsonRecords)
    {
      var header := Header();
      writer.WriteS(header);
      writer.Flush();
      assert [] + [header] == [header];
    }

    /**
     * A stats event: the record is built, written and flushed, whether or
     * not a quit is already scheduled; the monitor counter is untouched.
     * A container without names, or (table and CSV) an ID shorter than
     * IdWidth, panics.
     */
    method OnStat(m: StatMessage)
      requires Valid() && status == Running
      modifies this, writer
      ensures Valid()
      ensures dockerMonitors == old(dockerMonitors) && quitPending == old(quitPending)
      ensures doneCount == old(doneCount)
      ensures status == (if StatPanic(m, writer.format).Some? then Panicked(StatPanic(m, writer.format).value) else Running)
      ensures writer.rows == old(writer.rows) + RowOf(Stat(m), writer.format, isHumanReadable, formatting)
      ensures writer.jsonRecords == old(writer.jsonRecords) + RecordOf(Stat(m), writer.format)
      ensures writer.VisibleRows() == writer.rows
    {
      var cs := Calculate(m);
      if cs.Failure? {
        status := Panicked(cs.error);
        return;
      }
      var p := writer.Write(cs.value, isHumanReadable, formatting);
      if p.Some? {
        status := Panicked(p.value);
        return;
      }
      writer.Flush();
    }

    /**
     * A done event: one monitor fewer. Reaching 0 schedules the quit; it is
     * never scheduled earlier, and never with zero containers.
     */
    method OnDone()
      requires Valid() && status == Running
      modifies this
      ensures Valid()
      ensures dockerMonitors == old(dockerMonitors) - 1 && doneCount == old(doneCount) + 1
      ensures quitPending == (old(quitPending) || dockerMonitors == 0)
      ensures quitPending <==> 0 < containers <= doneCount
      ensures quitsScheduled <= 1
      ensures status == Running
    {
      dockerMonitors := dockerMonitors - 1;
      doneCount := doneCount + 1;
      if dockerMonitors == 0 {
        quitPending := true;
        quitsScheduled := quitsScheduled + 1;
      }
    }

    /** A value on the quit channel: the process exits with status 0. */
    method OnQuit(reason: QuitReason)
      requires Valid() && status == Running
      requires reason == NoMonitorsLeft ==> quitPending
      modifies this
      ensures Valid()
      ensures status == Exited
      ensures dockerMonitors == old(dockerMonitors) && quitPending == old(quitPending)
      ensures doneCount == old(doneCount)
    {
      status := Exited;
    }

    /** One turn of the `select`. */
    method Handle(e: Event)
      requires Valid() && status == Running
      requires e == Quit(NoMonitorsLeft) ==> quitPending
      modifies this, writer
      ensures Valid()
      ensures status == Running <==> !Stops(e, writer.format)
      ensures status == Exited <==> e.Quit?
      ensures e.Stat? && Stops(e, writer.format) ==> status == Panicked(StatPanic(e.message, writer.format).value)
      ensures doneCount == old(doneCount) + (if e.Done? then 1 else 0)
      ensures writer.rows == old(writer.rows) + RowOf(e, writer.format, isHumanReadable, formatting)
      ensures writer.jsonRecords == old(writer.jsonRecords) + RecordOf(e, writer.format)
      ensures !e.Stat? ==> writer.VisibleRows() == old(writer.VisibleRows())
      ensures e.Stat? ==> writer.VisibleRows() == writer.rows
    {
      match e
      case Stat(m) => OnStat(m);
      case Done(_) => OnDone();
      case Quit(reason) => OnQuit(reason);
    }

    /**
     * What handling the first `h` events has done, starting from rows
     * `rows0`, records `records0` and `done0` done events: every event before
     * the last went on, the last one handled stopped the loop exactly when
     * the status is no longer running, and the done count, the rows and the
     * records grew by those of the events handled.
     */
    ghost predicate Progress(events: seq<Event>, h: nat, rows0: seq<seq<string>>, records0: seq<CalculatedStats>, done0: nat)
      reads this, writer
    {
      && h <= |events|
      && Valid()
      && (status != Running ==> 0 < h && Stops(events[h - 1], writer.format))
      && (forall j :: 0 <= j < h - 1 ==> !Stops(events[j], writer.format))
      && (status == Running && h > 0 ==> !Stops(events[h - 1], writer.format))
      && (status == Exited <==> 0 < h && events[h - 1].Quit?)
      && (status.Panicked? ==> 0 < h && events[h - 1].Stat?
                               && status == Panicked(StatPanic(events[h - 1].message, writer.format).value))
      && doneCount == done0 + DoneCount(events[..h])
      && writer.rows == rows0 + Rows(events[..h], writer.format, isHumanReadable, formatting)
      && writer.jsonRecords == records0 + Records(events[..h], writer.format)
      && (h > 0 ==> writer.VisibleRows() == writer.rows)
    }

    /** Handling the next event keeps `Progress`, one event further. */
    method Step(events: seq<Event>, h: nat, ghost rows0: seq<seq<string>>, ghost records0: seq<CalculatedStats>, ghost done0: nat)
      requires Progress(events, h, rows0, records0, done0)
      requires h < |events| && status == Running
      requires QuitsFollowSchedule(events, containers, done0)
      modifies this, writer
      ensures Progress(events, h + 1, rows0, records0, done0)
    {
      var e := events[h];
      PrefixStep(events, h, writer.format, isHumanReadable, formatting);
      DonePrefixStep(events, h);
      AppendAssoc(rows0, Rows(events[..h], writer.format, isHumanReadable, formatting),
                  RowOf(e, writer.format, isHumanReadable, formatting));
      AppendAssoc(records0, Records(events[..h], writer.format), RecordOf(e, writer.format));
      Handle(e);
    }

    /**
     * The loop over a sequence of events: it handles them in order until one
     * ends the process. The counter has dropped by the done events handled,
     * a quit is pending exactly when it reached 0 from a positive count, and
     * the writer got one row or record per stats event handled.
     */
    method Run(events: seq<Event>) returns (handled: nat)
      requires Valid() && status == Running
      requires QuitsFollowSchedule(events, containers, doneCount)
      modifies this, writer
      ensures Progress(events, handled, old(writer.rows), old(writer.jsonRecords), old(doneCount))
      ensures status == Running ==> handled == |events|
      ensures dockerMonitors == old(dockerMonitors) - DoneCount(events[..handled])
      ensures quitPending <==> 0 < containers <= doneCount
    {
      handled := 0;
      assert events[..0] == [];
      while handled < |events| && status == Running
        invariant Progress(events, handled, old(writer.rows), old(writer.jsonRecords), old(doneCount))
      {
        Step(events, handled, old(writer.rows), old(writer.jsonRecords), old(doneCount));
        handled := handled + 1;
      }
    }
  }

  /**
   * The events of two monitors: the first sends three records and then its
   * done, the second only its done; "no monitors left" follows.
   */
  function TwoMonitorEvents(a: Container, b: Container, s1: Stats, s2: Stats, s3: Stats, os: string): seq<Event>
  {
    [Stat(StatMessage(a, s1, os)), Stat(StatMessage(a, s2, os)), Stat(StatMessage(a, s3, os))]
    + [Done(a.id), Done(b.id), Quit(NoMonitorsLeft)]
  }

  /** Two done events come before the quit, so the loop has scheduled it by then. */
  lemma TwoMonitorEventsSchedule(a: Container, b: Container, s1: Stats, s2: Stats, s3: Stats, os: string)
    ensures var es := TwoMonitorEvents(a, b, s1, s2, s3, os);
            && DoneCount(es[..5]) == 2 && DoneCount(es) == 2
            && QuitsFollowSchedule(es, 2, 0)
  {
    var es := TwoMonitorEvents(a, b, s1, s2, s3, os);
    assert es[..0] == [];
    DonePrefixStep(es, 0);
    DonePrefixStep(es, 1);
    DonePrefixStep(es, 2);
    DonePrefixStep(es, 3);
    DonePrefixStep(es, 4);
    DonePrefixStep(es, 5);
    assert es[..6] == es;
  }

  /** On a table writer, with an ID long enough and a name, only the last event, the quit, stops the loop. */
  lemma TwoMonitorEventsStop(a: Container, b: Container, s1: Stats, s2: Stats, s3: Stats, os: string)
    requires |a.id| >= IdWidth && |a.names| > 0
    ensures var es := TwoMonitorEvents(a, b, s1, s2, s3, os);
            && |es| == 6 && es[5].Quit?
            && (forall j :: 0 <= j < 5 ==> !Stops(es[j], Table))
  {
  }

  /** A done or quit event gives the writer no row. */
  lemma NonStatNoRow(e: Event, format: Format, isHumanReadable: bool, f: Formatting)
    requires !e.Stat?
    ensures RowFn(format, isHumanReadable, f)(e) == []
  {
  }

  /** A stats event that does not panic gives the table or CSV writer exactly one row. */
  lemma StatOneRow(e: Event, format: Format, isHumanReadable: bool, f: Formatting)
    requires e.Stat? && format != Json && StatPanic(e.message, format).None?
    ensures |RowFn(format, isHumanReadable, f)(e)| == 1
  {
  }

  /** The done and quit events add no row: the rows of those events are the rows of the three records. */
  lemma TwoMonitorEventsRows(a: Container, b: Container, s1: Stats, s2: Stats, s3: Stats, os: string,
                             format: Format, isHumanReadable: bool, f: Formatting)
    ensures var es := TwoMonitorEvents(a, b, s1, s2, s3, os);
            Rows(es, format, isHumanReadable, f) == Rows(es[..3], format, isHumanReadable, f)
  {
    var es := TwoMonitorEvents(a, b, s1, s2, s3, os);
    var g := RowFn(format, isHumanReadable, f);
    var tail := es[3..];
    assert es == es[..3] + tail;
    forall k | 0 <= k < |tail|
      ensures g(tail[k]) == []
    {
      NonStatNoRow(tail[k], format, isHumanReadable, f);
    }
    FlatMapAppend(es[..3], tail, g);
    FlatMapEmpty(tail, g);
  }

  /** Each of the three records of the first monitor gives the table or CSV writer one row. */
  lemma TwoMonitorRecordsOneRowEach(a: Container, b: Container, s1: Stats, s2: Stats, s3: Stats, os: string,
                                    format: Format, isHumanReadable: bool, f: Formatting)
    requires format != Json && |a.id| >= IdWidth && |a.names| > 0
    ensures var records := TwoMonitorEvents(a, b, s1, s2, s3, os)[..3];
            forall k :: 0 <= k < |records| ==> |RowFn(format, isHumanReadable, f)(records[k])| == 1
  {
    var records := TwoMonitorEvents(a, b, s1, s2, s3, os)[..3];
    forall k | 0 <= k < |records|
      ensures |RowFn(format, isHumanReadable, f)(records[k])| == 1
    {
      StatOneRow(records[k], format, isHumanReadable, f);
    }
  }

  /** With a named container and a long enough ID, the table and CSV writers get one row per record: three. */
  lemma TwoMonitorEventsRowCount(a: Container, b: Container, s1: Stats, s2: Stats, s3: Stats, os: string,
                                 format: Format, isHumanReadable: bool, f: Formatting)
    requires format != Json && |a.id| >= IdWidth && |a.names| > 0
    ensures |Rows(TwoMonitorEvents(a, b, s1, s2, s3, os), format, isHumanReadable, f)| == 3
  {
    var es := TwoMonitorEvents(a, b, s1, s2, s3, os);
    var g := RowFn(format, isHumanReadable, f);
    TwoMonitorEventsRows(a, b, s1, s2, s3, os, format, isHumanReadable, f);
    TwoMonitorRecordsOneRowEach(a, b, s1, s2, s3, os, format, isHumanReadable, f);
    FlatMapSingletons(es[..3], g);
  }
}
