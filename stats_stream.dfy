/**
 * One monitor per container: it reads the daemon's streamed stats body,
 * cuts it into '\n'-terminated lines, decodes each line into a stats
 * record and sends it to the event loop; when the stream ends it sends one
 * "done" event.
 */
module StatsStream {
  import opened Wrappers
  import opened DockerTypes
  import opened Seqs

  const Newline: byte := 10

  /** What a monitor sends on the stat channel: the `Stats` struct of main.go. */
  datatype StatMessage = StatMessage(container: Container, stats: Stats, os: string)

  /** Why a value arrived on the quit channel. */
  datatype QuitReason = Interrupted | NoMonitorsLeft

  /** The events the event loop receives, one channel each. */
  datatype Event =
    | Stat(message: StatMessage)
    | Done(id: string)
    | Quit(reason: QuitReason)

  /** The daemon's answer to a streaming stats request: the body and the daemon's OS type. */
  datatype StatsResponse = StatsResponse(body: seq<byte>, osType: string)

  datatype StreamError = OpenFailed(message: string) | StreamFinished

  /**
   * JSON decoding (`json.Unmarshal`) is outside this model. `decode(line)`
   * is whatever Unmarshal leaves in a zero-valued record, whether or not it
   * reported an error; the source ignores that error.
   */
  type Decoder = seq<byte> -> Stats

  // ---------------------------------------------------------------------
  // Framing of the body into lines

  /** The complete lines of `body`, in order, each with its terminating newline. */
  function Lines(body: seq<byte>): seq<seq<byte>>
    decreases |body|
  {
    var i := IndexOf(body, Newline);
    if i < 0 then [] else [body[..i + 1]] + Lines(body[i + 1..])
  }

  /** The bytes after the last newline: a line the stream never completed. */
  function Fragment(body: seq<byte>): seq<byte>
    decreases |body|
  {
    var i := IndexOf(body, Newline);
    if i < 0 then body else Fragment(body[i + 1..])
  }

  function Concat(lines: seq<seq<byte>>): seq<byte>
  {
    if |lines| == 0 then [] else lines[0] + Concat(lines[1..])
  }

  /** The first `n` bytes of `body` form a complete line: one newline, at its end. */
  predicate LineAt(body: seq<byte>, n: nat)
  {
    0 < n <= |body| && body[n - 1] == Newline && Newline !in body[..n - 1]
  }

  /** A complete line on its own. */
  predicate IsLine(line: seq<byte>)
  {
    LineAt(line, |line|)
  }

  /** A complete line at the front of `body` is its first line; the lines after it follow. */
  lemma LinesAfterLine(body: seq<byte>, n: nat)
    requires LineAt(body, n)
    ensures Lines(body) == [body[..n]] + Lines(body[n..])
    ensures Fragment(body) == Fragment(body[n..])
  {
    IndexOfFirst(body, Newline, n - 1);
  }

  /** A body without a newline has no line and is all fragment. */
  lemma NoNewlineNoLines(body: seq<byte>)
    requires Newline !in body
    ensures Lines(body) == [] && Fragment(body) == body
  {
    IndexOfFinds(body, Newline);
  }

  /** The length of the first line of a body that holds a newline. */
  lemma FirstLine(body: seq<byte>) returns (n: nat)
    requires Newline in body
    ensures LineAt(body, n)
  {
    IndexOfFinds(body, Newline);
    n := IndexOf(body, Newline) + 1;
  }

  lemma ConcatCons(line: seq<byte>, lines: seq<seq<byte>>)
    ensures Concat([line] + lines) == line + Concat(lines)
  {
    assert ([line] + lines)[1..] == lines;
  }

  /** The lines and the fragment, put back together, are the body. */
  lemma {:induction false} LinesRebuildBody(body: seq<byte>)
    ensures Concat(Lines(body)) + Fragment(body) == body
    decreases |body|
  {
    if Newline in body {
      var n := FirstLine(body);
      var rest := body[n..];
      LinesAfterLine(body, n);
      LinesRebuildBody(rest);
      ConcatCons(body[..n], Lines(rest));
      AppendAssoc(body[..n], Concat(Lines(rest)), Fragment(rest));
      TakeDrop(body, n);
    } else {
      NoNewlineNoLines(body);
    }
  }

  /** The fragment holds no newline. */
  lemma {:induction false} FragmentHasNoNewline(body: seq<byte>)
    ensures Newline !in Fragment(body)
    decreases |body|
  {
    if Newline in body {
      var n := FirstLine(body);
      LinesAfterLine(body, n);
      FragmentHasNoNewline(body[n..]);
    } else {
      NoNewlineNoLines(body);
    }
  }

  /** Every line is complete: it ends in the only newline it holds. */
  lemma {:induction false} LinesAreComplete(body: seq<byte>)
    ensures forall k :: 0 <= k < |Lines(body)| ==> IsLine(Lines(body)[k])
    decreases |body|
  {
    if Newline in body {
      var n := FirstLine(body);
      var line, rest := body[..n], body[n..];
      LinesAfterLine(body, n);
      LinesAreComplete(rest);
      assert line[..n - 1] == body[..n - 1];
      assert IsLine(line);
    } else {
      NoNewlineNoLines(body);
    }
  }

  /** A first line holds exactly one newline. */
  lemma LineCount(body: seq<byte>, n: nat)
    requires LineAt(body, n)
    ensures Count(body, Newline) == 1 + Count(body[n..], Newline)
  {
    var line, rest := body[..n], body[n..];
    assert body == line + rest;
    CountAppend(line, rest, Newline);
    assert line == body[..n - 1] + [Newline];
    CountAppend(body[..n - 1], [Newline], Newline);
    CountAbsent(body[..n - 1], Newline);
  }

  /** There is one line per newline of the body. */
  lemma {:induction false} LinesOnePerNewline(body: seq<byte>)
    ensures |Lines(body)| == Count(body, Newline)
    decreases |body|
  {
    if Newline in body {
      var n := FirstLine(body);
      LinesAfterLine(body, n);
      LinesOnePerNewline(body[n..]);
      LineCount(body, n);
    } else {
      NoNewlineNoLines(body);
      CountAbsent(body, Newline);
    }
  }

  /**
   * Bytes after a complete last line start new lines of their own: the
   * lines of the whole are the lines of each part, in order.
   */
  lemma {:induction false} LinesAppend(a: seq<byte>, b: seq<byte>)
    requires Fragment(a) == []
    ensures Lines(a + b) == Lines(a) + Lines(b)
    decreases |a|
  {
    if Newline in a {
      var n := FirstLine(a);
      var rest := a[n..];
      LinesAfterLine(a, n);
      DropAppend(a, b, n);
      DropAppend(a, b, n - 1);
      LinesAfterLine(a + b, n);
      LinesAppend(rest, b);
      assert [a[..n]] + (Lines(rest) + Lines(b)) == ([a[..n]] + Lines(rest)) + Lines(b);
    } else {
      NoNewlineNoLines(a);
      assert a + b == b;
    }
  }

  /** A trailing fragment with no newline adds no line. */
  lemma TrailingFragmentIgnored(a: seq<byte>, frag: seq<byte>)
    requires Fragment(a) == []
    requires Newline !in frag
    ensures Lines(a + frag) == Lines(a)
  {
    LinesAppend(a, frag);
    NoNewlineNoLines(frag);
  }

  // ---------------------------------------------------------------------
  // The monitor

  /** The records sent for `lines`, one per line, in order. */
  function Messages(lines: seq<seq<byte>>, container: Container, os: string, decode: Decoder): (ms: seq<StatMessage>)
    ensures |ms| == |lines|
  {
    seq(|lines|, k requires 0 <= k < |lines| => StatMessage(container, decode(lines[k]), os))
  }

  lemma MessagesSnoc(lines: seq<seq<byte>>, line: seq<byte>, container: Container, os: string, decode: Decoder)
    ensures Messages(lines + [line], container, os, decode)
            == Messages(lines, container, os, decode) + [StatMessage(container, decode(line), os)]
  {
  }

  /**
   * `bufio.Reader.ReadBytes('\n')` at position `pos` of the body: the bytes
   * up to and including the next newline, or, when there is none, the rest
   * of the body together with an end-of-stream error.
   */
  method ReadBytes(body: seq<byte>, pos: nat) returns (line: seq<byte>, eof: bool)
    requires pos <= |body|
    ensures eof <==> Newline !in body[pos..]
    ensures !eof ==> LineAt(body[pos..], |line|) && line == body[pos..pos + |line|]
    ensures eof ==> line == body[pos..]
  {
    var j := pos;
    while j < |body| && body[j] != Newline
      invariant pos <= j <= |body|
      invariant Newline !in body[pos..j]
    {
      j := j + 1;
    }
    if j == |body| {
      assert body[pos..] == body[pos..j];
      line, eof := body[pos..], true;
    } else {
      line, eof := body[pos..j + 1], false;
      assert body[pos..][..j - pos] == body[pos..j];
    }
  }

  /** Reading one more line at `pos` moves it from the unread lines to the consumed ones. */
  lemma ConsumeLine(body: seq<byte>, pos: nat, line: seq<byte>, next: nat, consumed: seq<seq<byte>>)
    requires pos <= |body|
    requires Lines(body) == consumed + Lines(body[pos..])
    requires LineAt(body[pos..], |line|) && line == body[pos..pos + |line|]
    requires next == pos + |line|
    ensures pos < next <= |body|
    ensures Lines(body) == (consumed + [line]) + Lines(body[next..])
  {
    var rest, n := body[pos..], |line|;
    LinesAfterLine(rest, n);
    DropDrop(body, pos, n);
    var after := body[next..];
    assert rest[..n] == line && rest[n..] == after;
    assert Lines(rest) == [line] + Lines(after);
    AppendAssoc(consumed, [line], Lines(after));
  }

  /**
   * `getDockerContainerStats`: when the stats request fails, nothing is sent
   * and that error is returned; otherwise one record per complete line of
   * the body is sent, in order, and the end of the stream is returned as an
   * error. Either way an error comes back.
   */
  method GetDockerContainerStats(response: Result<StatsResponse, string>, container: Container, decode: Decoder)
    returns (sent: seq<StatMessage>, err: Option<StreamError>)
    ensures err.Some?
    ensures response.Failure? ==> sent == [] && err == Some(OpenFailed(response.error))
    ensures response.Success? ==>
              err == Some(StreamFinished)
              && sent == Messages(Lines(response.value.body), container, response.value.osType, decode)
  {
    if response.Failure? {
      return [], Some(OpenFailed(response.error));
    }
    var body, os := response.value.body, response.value.osType;
    sent := [];
    var pos := 0;
    ghost var consumed: seq<seq<byte>> := [];
    assert body[pos..] == body;
    var line, eof := ReadBytes(body, pos);
    while !eof
      invariant pos <= |body|
      invariant Lines(body) == consumed + Lines(body[pos..])
      invariant sent == Messages(consumed, container, os, decode)
      invariant eof <==> Newline !in body[pos..]
      invariant !eof ==> LineAt(body[pos..], |line|) && line == body[pos..pos + |line|]
      decreases |body| - pos
    {
      var next := pos + |line|;
      ConsumeLine(body, pos, line, next, consumed);
      MessagesSnoc(consumed, line, container, os, decode);
      sent := sent + [StatMessage(container, decode(line), os)];
      consumed := consumed + [line];
      pos := next;
      line, eof := ReadBytes(body, pos);
    }
    NoNewlineNoLines(body[pos..]);
    assert Lines(body) == consumed + [] == consumed;
    err := Some(StreamFinished);
  }

  /** The events one monitor sends: its records, then a single done. */
  function MonitorEvents(response: Result<StatsResponse, string>, container: Container, decode: Decoder): (es: seq<Event>)
    ensures |es| >= 1 && es[|es| - 1] == Done(container.id)
    ensures forall k :: 0 <= k < |es| - 1 ==> es[k].Stat? && es[k].message.container == container
    ensures response.Failure? ==> es == [Done(container.id)]
  {
    var ms := if response.Success?
              then Messages(Lines(response.value.body), container, response.value.osType, decode)
              else [];
    seq(|ms|, k requires 0 <= k < |ms| => Stat(ms[k])) + [Done(container.id)]
  }

  /** The goroutine started for each container: it sends done when the reader returns an error. */
  method RunMonitor(response: Result<StatsResponse, string>, container: Container, decode: Decoder)
    returns (events: seq<Event>)
    ensures events == MonitorEvents(response, container, decode)
  {
    var sent, err := GetDockerContainerStats(response, container, decode);
    events := seq(|sent|, k requires 0 <= k < |sent| => Stat(sent[k]));
    if err.Some? {
      events := events + [Done(container.id)];
    }
  }

  /**
   * A monitor sends exactly one done, as its last event, after one record
   * per newline of the body (none when the request failed).
   */
  lemma MonitorSendsDoneOnce(response: Result<StatsResponse, string>, container: Container, decode: Decoder)
    ensures var es := MonitorEvents(response, container, decode);
            && |es| >= 1
            && es[|es| - 1] == Done(container.id)
            && (forall k :: 0 <= k < |es| - 1 ==> es[k].Stat? && es[k].message.container == container)
            && |es| - 1 == (if response.Success? then Count(response.value.body, Newline) else 0)
  {
    if response.Success? {
      LinesOnePerNewline(response.value.body);
      LinesAreComplete(response.value.body);
    }
  }

  /** Each record comes from its own line of the body, in order. */
  lemma MonitorRecordPerLine(response: StatsResponse, container: Container, decode: Decoder, k: nat)
    requires k < |Lines(response.body)|
    ensures var es := MonitorEvents(Success(response), container, decode);
            && k < |es| - 1
            && es[k] == Stat(StatMessage(container, decode(Lines(response.body)[k]), response.osType))
  {
  }
}
