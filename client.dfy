/**
 * The browser side (client/src/App.tsx, `handleProcess`): the text area becomes a list of
 * links, the list is posted, and the response body is read chunk by chunk; each complete
 * line that parses as JSON may add a result to the log and move the progress bar.
 *
 * `JSON.parse` is the parameter `parse`: `None` stands for a line it rejects (or one that
 * parses to `null`, whose `.result` throws inside the same `try`).
 */
module Client {
  import opened Seqs
  import opened Wrappers
  import opened Text
  import opened Capturer
  import opened Scraper
  import opened Json
  import opened JsonRead
  import opened Controller

  /** What the handler reads of a parsed line: `data.result` when truthy, `data.percent`
      when it is a number, and `data.estimatedTime`. */
  datatype Message = Message(result: Option<ScrapeResult>, percent: Option<int>, estimatedTime: Option<int>)

  /** The value of the progress bar. */
  datatype Progress = Progress(percent: int, estimatedTime: int)

  /** `JSON.stringify({ links, format })`, as a value. */
  datatype RequestBody = RequestBody(links: seq<string>, format: Format)

  /** What `fetch` and the reader produce: a rejected `fetch`, a response without a body,
      or the decoded chunks of the body followed, possibly, by a failed `read`. */
  datatype FetchOutcome = Unreachable(reason: string) | NoBody | Body(chunks: seq<string>, failure: Option<string>)

  const NoStreamMessage := "ReadableStream not supported in this browser."
  const ConnectionFailedMessage := "Falha na conex\U{E3}o"

  /** The entry the `catch` block appends: `error.message || 'Falha na conexão'`. */
  function SystemLog(message: string): (r: ScrapeResult)
    ensures r.url == "System" && r.status == Error && r.message.Some? && r.message.value != ""
  {
    ScrapeResult("System", Error, None, None, None, Some(if message == "" then ConnectionFailedMessage else message), None)
  }

  /** The trimmed, non-empty lines of a text, in order. */
  function LinksOf(lines: seq<string>): seq<string> {
    if lines == [] then []
    else
      var t := Trim(lines[0]);
      (if t == [] then [] else [t]) + LinksOf(lines[1..])
  }

  /** `text.split('\n').map(l => l.trim()).filter(l => l.length > 0)`. */
  function Links(text: string): seq<string> {
    LinksOf(Split(text, '\n'))
  }

  /** The text received so far: the chunks one after the other. */
  function Concat(chunks: seq<string>): string {
    if chunks == [] then [] else Concat(chunks[..|chunks| - 1]) + chunks[|chunks| - 1]
  }

  /** The complete lines of a text: every piece before the last line feed. */
  function CompleteLines(s: string): seq<string> {
    var parts := Split(s, '\n');
    parts[..|parts| - 1]
  }

  /** What one complete line adds to the log: nothing for a blank line (one whose `trim()`
      is empty, see `TrimBlank`) or one that does not parse, the result for a parsed line
      that carries one. */
  function LineLogs(line: string, parse: string -> Option<Message>): seq<ScrapeResult> {
    if IsBlank(line) then []
    else match parse(line)
      case None => []
      case Some(m) => if m.result.Some? then [m.result.value] else []
  }

  /** What one complete line gives the progress bar: the percentage and the estimate (`0`
      when absent) of a parsed line that carries a percentage. */
  function LineProgress(line: string, parse: string -> Option<Message>): seq<Progress> {
    if IsBlank(line) then []
    else match parse(line)
      case None => []
      case Some(m) => if m.percent.Some? then [Progress(m.percent.value, m.estimatedTime.GetOr(0))] else []
  }

  function LogsOf(lines: seq<string>, parse: string -> Option<Message>): seq<ScrapeResult> {
    if lines == [] then [] else LogsOf(lines[..|lines| - 1], parse) + LineLogs(lines[|lines| - 1], parse)
  }

  function ProgressOf(lines: seq<string>, parse: string -> Option<Message>): seq<Progress> {
    if lines == [] then [] else ProgressOf(lines[..|lines| - 1], parse) + LineProgress(lines[|lines| - 1], parse)
  }

  /** The log a run ends with. */
  function FetchLogs(fetched: FetchOutcome, parse: string -> Option<Message>): seq<ScrapeResult> {
    match fetched
    case Unreachable(m) => [SystemLog(m)]
    case NoBody => [SystemLog(NoStreamMessage)]
    case Body(chunks, failure) =>
      LogsOf(CompleteLines(Concat(chunks)), parse) + (if failure.Some? then [SystemLog(failure.value)] else [])
  }

  /** The values the progress bar takes during a run, after the initial `0`. */
  function FetchProgress(fetched: FetchOutcome, parse: string -> Option<Message>): seq<Progress> {
    match fetched
    case Body(chunks, _) => ProgressOf(CompleteLines(Concat(chunks)), parse)
    case _ => []
  }

  /** What the server may receive as a link: a non-empty line without white space at
      either end. */
  predicate IsLink(s: string) {
    s != [] && '\n' !in s && !IsWhiteSpace(s[0]) && !IsWhiteSpace(s[|s| - 1])
  }

  predicate AllLinks(ls: seq<string>) {
    forall k :: 0 <= k < |ls| ==> IsLink(ls[k])
  }

  lemma AllLinksAppend(a: seq<string>, b: seq<string>)
    requires AllLinks(a) && AllLinks(b)
    ensures AllLinks(a + b)
  {
    forall k | 0 <= k < |a + b| ensures IsLink((a + b)[k]) {
      if k >= |a| {
        assert (a + b)[k] == b[k - |a|];
      }
    }
  }

  /** The trim of a line without line feed is a link unless it is empty. */
  lemma TrimLink(line: string)
    requires '\n' !in line && Trim(line) != []
    ensures IsLink(Trim(line))
  {
    TrimBlank(line);
    var t := TrimStart(line);
    assert forall c :: c in Trim(line) ==> c in t;
    assert forall c :: c in t ==> c in line;
  }

  /** Every link is trimmed, non-empty and on one line. */
  lemma {:induction false} LinksOfSpec(lines: seq<string>)
    requires forall j :: 0 <= j < |lines| ==> '\n' !in lines[j]
    ensures AllLinks(LinksOf(lines))
    decreases |lines|
  {
    if lines != [] {
      var t := Trim(lines[0]);
      var head: seq<string> := if t == [] then [] else [t];
      assert forall j :: 0 <= j < |lines[1..]| ==> '\n' !in lines[1..][j] by {
        forall j | 0 <= j < |lines[1..]| ensures '\n' !in lines[1..][j] {
          assert lines[1..][j] == lines[j + 1];
        }
      }
      LinksOfSpec(lines[1..]);
      if t != [] {
        TrimLink(lines[0]);
      }
      AllLinksAppend(head, LinksOf(lines[1..]));
    }
  }

  /** The links posted for a text: every one is trimmed, non-empty and on one line. */
  lemma LinksAreLinks(text: string)
    ensures AllLinks(Links(text))
  {
    LinksOfSpec(Split(text, '\n'));
  }

  /** A line that is not blank gives a link. */
  lemma {:induction false} LinksOfNonEmpty(lines: seq<string>, j: nat)
    requires j < |lines| && !IsBlank(lines[j])
    ensures |LinksOf(lines)| >= 1
    decreases |lines|
  {
    TrimBlank(lines[0]);
    if j > 0 && IsBlank(lines[0]) {
      LinksOfNonEmpty(lines[1..], j - 1);
    }
  }

  /** A text with a character other than white space has a piece of its split that is not
      blank. */
  lemma {:induction false} SplitNotBlank(s: string)
    requires !IsBlank(s)
    ensures exists j :: 0 <= j < |Split(s, '\n')| && !IsBlank(Split(s, '\n')[j])
    decreases |s|
  {
    var parts := Split(s, '\n');
    var rest := Split(s[1..], '\n');
    if IsWhiteSpace(s[0]) {
      assert !IsBlank(s[1..]) by {
        var i :| 0 <= i < |s| && !IsWhiteSpace(s[i]);
        assert s[1..][i - 1] == s[i];
      }
      SplitNotBlank(s[1..]);
      var j :| 0 <= j < |rest| && !IsBlank(rest[j]);
      if s[0] == '\n' {
        assert parts[j + 1] == rest[j];
      } else if j == 0 {
        var i :| 0 <= i < |rest[0]| && !IsWhiteSpace(rest[0][i]);
        assert parts[0] == [s[0]] + rest[0];
        assert parts[0][i + 1] == rest[0][i];
      } else {
        assert parts[j] == rest[j];
      }
    } else {
      assert s[0] != '\n';
      assert parts[0] == [s[0]] + rest[0];
      assert parts[0][0] == s[0];
    }
  }

  /** A text that is not blank always yields at least one link, so the client never sends
      the empty list the server refuses. */
  lemma LinksNonEmpty(text: string)
    requires !IsBlank(text)
    ensures |Links(text)| >= 1
  {
    SplitNotBlank(text);
    var parts := Split(text, '\n');
    var j :| 0 <= j < |parts| && !IsBlank(parts[j]);
    LinksOfNonEmpty(parts, j);
  }

  /** Two batches of lines: their entries are concatenated. */
  lemma {:induction false} LogsAppend(a: seq<string>, b: seq<string>, parse: string -> Option<Message>)
    ensures LogsOf(a + b, parse) == LogsOf(a, parse) + LogsOf(b, parse)
    decreases |b|
  {
    if b == [] {
      assert a + b == a;
      assert LogsOf(a, parse) + [] == LogsOf(a, parse);
    } else {
      var b0 := b[..|b| - 1];
      var l := LineLogs(b[|b| - 1], parse);
      LogsAppend(a, b0, parse);
      assert (a + b)[..|a + b| - 1] == a + b0;
      assert (a + b)[|a + b| - 1] == b[|b| - 1];
      assert LogsOf(a + b, parse) == LogsOf(a + b0, parse) + l;
      Assoc(LogsOf(a, parse), LogsOf(b0, parse), l);
    }
  }

  /** Two batches of lines: their progress values are concatenated. */
  lemma {:induction false} ProgressAppend(a: seq<string>, b: seq<string>, parse: string -> Option<Message>)
    ensures ProgressOf(a + b, parse) == ProgressOf(a, parse) + ProgressOf(b, parse)
    decreases |b|
  {
    if b == [] {
      assert a + b == a;
      assert ProgressOf(a, parse) + [] == ProgressOf(a, parse);
    } else {
      var b0 := b[..|b| - 1];
      var l := LineProgress(b[|b| - 1], parse);
      ProgressAppend(a, b0, parse);
      assert (a + b)[..|a + b| - 1] == a + b0;
      assert (a + b)[|a + b| - 1] == b[|b| - 1];
      assert ProgressOf(a + b, parse) == ProgressOf(a + b0, parse) + l;
      Assoc(ProgressOf(a, parse), ProgressOf(b0, parse), l);
    }
  }

  lemma LogsSnoc(lines: seq<string>, line: string, parse: string -> Option<Message>)
    ensures LogsOf(lines + [line], parse) == LogsOf(lines, parse) + LineLogs(line, parse)
    ensures ProgressOf(lines + [line], parse) == ProgressOf(lines, parse) + LineProgress(line, parse)
  {
    assert (lines + [line])[..|lines|] == lines;
  }

  lemma ConcatSnoc(chunks: seq<string>, i: nat)
    requires i < |chunks|
    ensures Concat(chunks[..i + 1]) == Concat(chunks[..i]) + chunks[i]
  {
    assert chunks[..i + 1][..i] == chunks[..i];
  }

  /** One chunk more: the buffer and the new chunk split into complete lines, which extend
      the ones already handled, and a new partial line; nothing is lost or added. */
  lemma BufferStep(seen: seq<string>, s: string)
    ensures var parts := Split(s, '\n');
      Terminated(seen + parts[..|parts| - 1]) + parts[|parts| - 1] == Terminated(seen) + s
  {
    var parts := Split(s, '\n');
    var lines := parts[..|parts| - 1];
    JoinSplit(s, '\n');
    TerminatedJoin(parts);
    TerminatedAppend(seen, lines);
    Assoc(Terminated(seen), Terminated(lines), parts[|parts| - 1]);
  }

  /** The lines handled so far never hold a line feed. */
  lemma BufferLines(seen: seq<string>, s: string)
    requires forall k :: 0 <= k < |seen| ==> '\n' !in seen[k]
    ensures forall k :: 0 <= k < |seen + CompleteLines(s)| ==> '\n' !in (seen + CompleteLines(s))[k]
  {
    var parts := Split(s, '\n');
    var all := seen + CompleteLines(s);
    forall k | 0 <= k < |all| ensures '\n' !in all[k] {
      if k >= |seen| {
        assert all[k] == parts[k - |seen|];
      }
    }
  }

  class App {
    var text: string
    var format: Format
    var loading: bool
    var logs: seq<ScrapeResult>
    var progress: Option<Progress>
    /** Every value the progress bar was given since the last run started, in order. */
    var shown: seq<Progress>
    /** The request bodies posted, in order. */
    var sent: seq<RequestBody>

    constructor ()
      ensures text == "" && format == Webp && !loading && logs == [] && progress == None
      ensures shown == [] && sent == []
    {
      text := "";
      format := Webp;
      loading := false;
      logs := [];
      progress := None;
      shown := [];
      sent := [];
    }

    /** `handleProcess`. A blank text does nothing; otherwise the links are posted, every
        complete line of the body is handled in order, a failure appends a `System` entry,
        and the run ends with the bar hidden and loading off. */
    method HandleProcess(fetched: FetchOutcome, parse: string -> Option<Message>)
      modifies this
      ensures text == old(text) && format == old(format)
      ensures IsBlank(text) ==>
        loading == old(loading) && logs == old(logs) && progress == old(progress) && shown == old(shown) && sent == old(sent)
      ensures !IsBlank(text) ==>
        && sent == old(sent) + [RequestBody(Links(text), format)]
        && logs == FetchLogs(fetched, parse)
        && shown == [Progress(0, 0)] + FetchProgress(fetched, parse)
        && !loading && progress == None
    {
      if IsBlank(text) {
        return;
      }
      loading := true;
      logs := [];
      progress := Some(Progress(0, 0));
      shown := [Progress(0, 0)];
      var links := Links(text);
      sent := sent + [RequestBody(links, format)];
      Receive(fetched, parse);
      EmptyConcat(FetchLogs(fetched, parse));
      loading := false;
      progress := None;
    }

    /** The `try` block after the request is sent, with its `catch`: the body is read
        line by line, and a failure (no response, no body, a failed read) appends one
        `System` entry. */
    method Receive(fetched: FetchOutcome, parse: string -> Option<Message>)
      modifies this
      ensures logs == old(logs) + FetchLogs(fetched, parse)
      ensures shown == old(shown) + FetchProgress(fetched, parse)
      ensures text == old(text) && format == old(format) && loading == old(loading) && sent == old(sent)
    {
      match fetched {
        case Unreachable(m) =>
          LogFailure(m);
          assert shown == old(shown) + [];
        case NoBody =>
          LogFailure(NoStreamMessage);
          assert shown == old(shown) + [];
        case Body(chunks, failure) =>
          ghost var lines := CompleteLines(Concat(chunks));
          ReadStream(chunks, parse);
          if failure.Some? {
            LogFailure(failure.value);
            Assoc(old(logs), LogsOf(lines, parse), [SystemLog(failure.value)]);
          } else {
            assert LogsOf(lines, parse) + [] == LogsOf(lines, parse);
          }
      }
    }

    /** The `catch` block: a `System` entry closes the log. */
    method LogFailure(message: string)
      modifies this
      ensures logs == old(logs) + [SystemLog(message)]
      ensures text == old(text) && format == old(format) && loading == old(loading) && sent == old(sent)
      ensures progress == old(progress) && shown == old(shown)
    {
      logs := logs + [SystemLog(message)];
    }

    /** The read loop: each chunk is appended to the buffer, the complete lines are handled
        and the partial last line is kept. What is handled depends only on the text
        received, not on where the chunks break it. */
    method ReadStream(chunks: seq<string>, parse: string -> Option<Message>)
      modifies this
      ensures logs == old(logs) + LogsOf(CompleteLines(Concat(chunks)), parse)
      ensures shown == old(shown) + ProgressOf(CompleteLines(Concat(chunks)), parse)
      ensures text == old(text) && format == old(format) && loading == old(loading) && sent == old(sent)
    {
      var buffer := "";
      ghost var seen: seq<string> := [];
      var i := 0;
      while i < |chunks|
        invariant 0 <= i <= |chunks|
        invariant Terminated(seen) + buffer == Concat(chunks[..i])
        invariant '\n' !in buffer
        invariant forall k :: 0 <= k < |seen| ==> '\n' !in seen[k]
        invariant logs == old(logs) + LogsOf(seen, parse)
        invariant shown == old(shown) + ProgressOf(seen, parse)
        invariant text == old(text) && format == old(format) && loading == old(loading) && sent == old(sent)
      {
        BufferStep(seen, buffer + chunks[i]);
        BufferLines(seen, buffer + chunks[i]);
        ConcatSnoc(chunks, i);
        Assoc(Terminated(seen), buffer, chunks[i]);
        var lines := Split(buffer + chunks[i], '\n');
        buffer := lines[|lines| - 1];
        lines := lines[..|lines| - 1];
        HandleLines(lines, parse);
        LogsAppend(seen, lines, parse);
        ProgressAppend(seen, lines, parse);
        Assoc(old(logs), LogsOf(seen, parse), LogsOf(lines, parse));
        Assoc(old(shown), ProgressOf(seen, parse), ProgressOf(lines, parse));
        seen := seen + lines;
        i := i + 1;
      }
      assert chunks[..i] == chunks;
      SplitTerminated(seen, buffer);
      assert CompleteLines(Concat(chunks)) == seen;
    }

    /** The loop over the complete lines of one read. */
    method HandleLines(lines: seq<string>, parse: string -> Option<Message>)
      modifies this
      ensures logs == old(logs) + LogsOf(lines, parse)
      ensures shown == old(shown) + ProgressOf(lines, parse)
      ensures text == old(text) && format == old(format) && loading == old(loading) && sent == old(sent)
    {
      var j := 0;
      while j < |lines|
        invariant 0 <= j <= |lines|
        invariant logs == old(logs) + LogsOf(lines[..j], parse)
        invariant shown == old(shown) + ProgressOf(lines[..j], parse)
        invariant text == old(text) && format == old(format) && loading == old(loading) && sent == old(sent)
      {
        LogsSnoc(lines[..j], lines[j], parse);
        assert lines[..j + 1] == lines[..j] + [lines[j]];
        Assoc(old(logs), LogsOf(lines[..j], parse), LineLogs(lines[j], parse));
        Assoc(old(shown), ProgressOf(lines[..j], parse), LineProgress(lines[j], parse));
        HandleLine(lines[j], parse);
        j := j + 1;
      }
      assert lines[..j] == lines;
    }

    /** The body of the inner loop: a blank line is skipped; a line that does not parse
        only warns; otherwise the result is logged and the percentage shown. */
    method HandleLine(line: string, parse: string -> Option<Message>)
      modifies this
      ensures logs == old(logs) + LineLogs(line, parse)
      ensures shown == old(shown) + LineProgress(line, parse)
      ensures progress == if LineProgress(line, parse) == [] then old(progress) else Some(LineProgress(line, parse)[0])
      ensures text == old(text) && format == old(format) && loading == old(loading) && sent == old(sent)
    {
      if IsBlank(line) {
        return;
      }
      var data := parse(line);
      if data.Some? {
        var m := data.value;
        if m.result.Some? {
          logs := logs + [m.result.value];
        }
        if m.percent.Some? {
          var p := Progress(m.percent.value, m.estimatedTime.GetOr(0));
          progress := Some(p);
          shown := shown + [p];
        }
      }
    }
  }

  /** A body without a line feed is never handled: nothing reaches the log or the bar. */
  lemma NoLineNoEffect(chunks: seq<string>, parse: string -> Option<Message>)
    requires '\n' !in Concat(chunks)
    ensures FetchLogs(Body(chunks, None), parse) == [] && FetchProgress(Body(chunks, None), parse) == []
  {
    SplitNoSeparator(Concat(chunks), '\n');
  }

  /** What `JSON.parse` is assumed to do with a line the server writes: give back the
      event's result, percentage and estimate. */
  ghost predicate ReadsEvents(parse: string -> Option<Message>) {
    forall e: ProgressUpdate :: parse(EncodeProgress(e)) == Some(Message(e.result, Some(e.percent), Some(e.estimatedTime)))
  }

  /** A `parse` that meets `ReadsEvents`: the line read back as an event, and the
      members the handler looks at taken from it. */
  function ParseEvent(line: string): Option<Message> {
    match DecodeProgress(line)
    case None => None
    case Some(e) => Some(Message(e.result, Some(e.percent), Some(e.estimatedTime)))
  }

  /** `ReadsEvents` can be met, so the lemmas that assume it are not vacuous. */
  lemma ParseEventReadsEvents()
    ensures ReadsEvents(ParseEvent)
  {
    forall e: ProgressUpdate
      ensures ParseEvent(EncodeProgress(e)) == Some(Message(e.result, Some(e.percent), Some(e.estimatedTime)))
    {
      DecodeEncodeProgress(e);
    }
  }

  /** Each line is read as the corresponding event, its result enriched. */
  ghost predicate ReadAs(lines: seq<string>, es: seq<ProgressUpdate>, baseUrl: string, parse: string -> Option<Message>) {
    && |lines| == |es|
    && forall j :: 0 <= j < |es| ==>
         && LineLogs(lines[j], parse) == (if es[j].result.Some? then [EnrichResult(es[j].result.value, baseUrl)] else [])
         && LineProgress(lines[j], parse) == [Progress(es[j].percent, es[j].estimatedTime)]
  }

  /** Every line of a run's stream is read as the event it encodes. */
  lemma EventLinesRead(events: seq<ProgressUpdate>, baseUrl: string, parse: string -> Option<Message>)
    requires ReadsEvents(parse)
    ensures ReadAs(EventLines(events, baseUrl), events, baseUrl, parse)
  {
    var lines := EventLines(events, baseUrl);
    forall j | 0 <= j < |events|
      ensures LineLogs(lines[j], parse)
             == (if events[j].result.Some? then [EnrichResult(events[j].result.value, baseUrl)] else [])
      ensures LineProgress(lines[j], parse) == [Progress(events[j].percent, events[j].estimatedTime)]
    {
      EventLineRead(Enrich(events[j], baseUrl), parse);
    }
  }

  /** One line the server writes: it is not blank, and it logs the event's result when it
      has one and shows its percentage and estimate. */
  lemma EventLineRead(e: ProgressUpdate, parse: string -> Option<Message>)
    requires ReadsEvents(parse)
    ensures LineLogs(EncodeProgress(e), parse) == if e.result.Some? then [e.result.value] else []
    ensures LineProgress(EncodeProgress(e), parse) == [Progress(e.percent, e.estimatedTime)]
  {
    var line := EncodeProgress(e);
    EncodeProgressOneLine(e);
    assert !IsBlank(line) by {
      assert line[0] == '{';
    }
  }

  /** The log a run's events should leave: each event's result, enriched, in order. */
  function Logged(es: seq<ProgressUpdate>, baseUrl: string): seq<ScrapeResult> {
    if es == [] then []
    else
      var e := es[|es| - 1];
      Logged(es[..|es| - 1], baseUrl) + (if e.result.Some? then [EnrichResult(e.result.value, baseUrl)] else [])
  }

  /** The values the bar should take for a run's events: each event's, in order. */
  function Shown(es: seq<ProgressUpdate>): seq<Progress> {
    if es == [] then [] else Shown(es[..|es| - 1]) + [Progress(es[|es| - 1].percent, es[|es| - 1].estimatedTime)]
  }

  lemma ReadAsPrefix(lines: seq<string>, es: seq<ProgressUpdate>, baseUrl: string, parse: string -> Option<Message>)
    requires ReadAs(lines, es, baseUrl, parse) && |es| >= 1
    ensures ReadAs(lines[..|es| - 1], es[..|es| - 1], baseUrl, parse)
  {
  }

  /** Lines read as events leave exactly the log and the bar values those events call for. */
  lemma {:induction false} ReadLines(lines: seq<string>, es: seq<ProgressUpdate>, baseUrl: string,
                                     parse: string -> Option<Message>)
    requires ReadAs(lines, es, baseUrl, parse)
    ensures LogsOf(lines, parse) == Logged(es, baseUrl) && ProgressOf(lines, parse) == Shown(es)
    decreases |es|
  {
    if es != [] {
      ReadAsPrefix(lines, es, baseUrl, parse);
      ReadLines(lines[..|es| - 1], es[..|es| - 1], baseUrl, parse);
    }
  }

  /** The log of a run whose first event carries no result and every other one does: the
      results of the later events, enriched, one per event. */
  lemma {:induction false} LoggedRun(es: seq<ProgressUpdate>, baseUrl: string)
    requires |es| >= 1 && es[0].result.None?
    requires forall j :: 1 <= j < |es| ==> es[j].result.Some?
    ensures Logged(es, baseUrl)
      == seq(|es| - 1, j requires 0 <= j < |es| - 1 => EnrichResult(es[j + 1].result.value, baseUrl))
    decreases |es|
  {
    var n := |es|;
    if n == 1 {
      assert es[..0] == [];
    } else {
      LoggedRun(es[..n - 1], baseUrl);
    }
  }

  lemma {:induction false} ShownRun(es: seq<ProgressUpdate>)
    ensures Shown(es) == seq(|es|, j requires 0 <= j < |es| => Progress(es[j].percent, es[j].estimatedTime))
    decreases |es|
  {
    if es != [] {
      ShownRun(es[..|es| - 1]);
    }
  }

  /** The complete lines of a streamed body are the lines of the delivered events: the
      error object a failed run ends with is never followed by a line feed. */
  lemma StreamCompleteLines(run: Run, baseUrl: string)
    ensures CompleteLines(StreamBody(run, baseUrl)) == EventLines(run.events, baseUrl)
  {
    StreamLines(run, baseUrl);
    DropLast(EventLines(run.events, baseUrl), if run.outcome.Fatal? then EncodeFatal(FatalMessage) else "");
  }

  /** A body whose complete lines are read as a run's events: the client logs and shows
      exactly what those events call for. */
  lemma ClientReadsEvents(es: seq<ProgressUpdate>, lines: seq<string>, baseUrl: string,
                          chunks: seq<string>, parse: string -> Option<Message>)
    requires CompleteLines(Concat(chunks)) == lines && ReadAs(lines, es, baseUrl, parse)
    ensures FetchLogs(Body(chunks, None), parse) == Logged(es, baseUrl)
    ensures FetchProgress(Body(chunks, None), parse) == Shown(es)
  {
    ReadLines(lines, es, baseUrl, parse);
    var logs := LogsOf(lines, parse);
    assert logs + [] == logs;
  }

  /** Whatever chunks a streamed body arrives in, the client reads exactly the delivered
      events, and a fatal error object at the end is never read. */
  lemma ClientReadsStream(run: Run, baseUrl: string, chunks: seq<string>, parse: string -> Option<Message>)
    requires ReadsEvents(parse)
    requires Concat(chunks) == StreamBody(run, baseUrl)
    ensures FetchLogs(Body(chunks, None), parse) == Logged(run.events, baseUrl)
    ensures FetchProgress(Body(chunks, None), parse) == Shown(run.events)
  {
    StreamCompleteLines(run, baseUrl);
    EventLinesRead(run.events, baseUrl, parse);
    ClientReadsEvents(run.events, EventLines(run.events, baseUrl), baseUrl, chunks, parse);
  }

  /** With the callback in place, whatever chunks the body arrives in, the client logs the
      result of every link in the order the links were sent, each with its download URL
      when it has a public path, and shows every event's percentage and estimate. */
  lemma ClientLogsEveryResult(req: Request, root: string, folder: string, world: World,
                              chunks: seq<string>, parse: string -> Option<Message>)
    requires req.links.Items? && |world.steps| == |req.links.links|
    requires Rejection(req.links).None? && world.launchFailure.None?
    requires ReadsEvents(parse)
    requires Concat(chunks) == Answer(req, Callback, root, folder, world).body
    ensures var links := req.links.links;
      var baseUrl := BaseUrl(req.protocol, req.host);
      var rs := Results(links, SelectFormat(req.format), root, folder, world);
      var es := Events(links, SelectFormat(req.format), root, folder, world);
      && FetchLogs(Body(chunks, None), parse)
           == seq(|links|, j requires 0 <= j < |links| => EnrichResult(rs[j], baseUrl))
      && FetchProgress(Body(chunks, None), parse)
           == seq(|links| + 1, j requires 0 <= j < |links| + 1 => Progress(es[j].percent, es[j].estimatedTime))
  {
    var links := req.links.links;
    var format := SelectFormat(req.format);
    var baseUrl := BaseUrl(req.protocol, req.host);
    var rs := Results(links, format, root, folder, world);
    var es := Events(links, format, root, folder, world);
    var run := Expected(links, format, Callback, root, folder, world);
    assert Concat(chunks) == StreamBody(run, baseUrl) && run.events == es;
    ClientReadsStream(run, baseUrl, chunks, parse);
    LoggedEvents(links, format, root, folder, world, baseUrl);
    ShownRun(es);
  }

  /** The log a complete run calls for: every link's result, enriched, in link order. */
  lemma LoggedEvents(links: seq<string>, format: Format, root: string, folder: string, world: World, baseUrl: string)
    requires |world.steps| == |links|
    ensures var rs := Results(links, format, root, folder, world);
      Logged(Events(links, format, root, folder, world), baseUrl)
        == seq(|links|, j requires 0 <= j < |links| => EnrichResult(rs[j], baseUrl))
  {
    var es := Events(links, format, root, folder, world);
    EventsShape(links, format, root, folder, world);
    LoggedRun(es, baseUrl);
  }

  /** As written, the server never streams a complete line to an accepted request, so the
      client ends every run with an empty log and a bar that only ever showed 0. */
  lemma ClientLogsNothingAsWritten(req: Request, root: string, folder: string, world: World,
                                   chunks: seq<string>, parse: string -> Option<Message>)
    requires req.links.Items? && |world.steps| == |req.links.links|
    requires Rejection(req.links).None?
    requires Concat(chunks) == Answer(req, ListenerAsWritten(req), root, folder, world).body
    ensures FetchLogs(Body(chunks, None), parse) == [] && FetchProgress(Body(chunks, None), parse) == []
  {
    AsWrittenStreamsNoLine(req, root, folder, world);
    NoLineNoEffect(chunks, parse);
  }

  /** A refused request (more than ten links) is answered with a body the client never
      reads a line of: the run ends silently with an empty log. */
  lemma ClientIgnoresRejection(req: Request, listener: Listener, root: string, folder: string, world: World,
                               chunks: seq<string>, parse: string -> Option<Message>)
    requires req.links.Items? ==> |world.steps| == |req.links.links|
    requires Rejection(req.links).Some?
    requires Concat(chunks) == Answer(req, listener, root, folder, world).body
    ensures FetchLogs(Body(chunks, None), parse) == [] && FetchProgress(Body(chunks, None), parse) == []
  {
    RejectedAnswer(req, listener, listener, root, folder, world);
    NoLineNoEffect(chunks, parse);
  }

  /** The request the client posts: the server reads back its links and its format, and
      accepts it exactly when the text has at most ten links. */
  lemma ClientRequestAccepted(text: string, format: Format, protocol: string, host: Option<string>)
    requires !IsBlank(text)
    ensures var req := Request(Items(Links(text)), Some(Extension(format)), false, protocol, host);
      && SelectFormat(req.format) == format
      && (Rejection(req.links).None? <==> |Links(text)| <= MaxLinks)
  {
    LinksNonEmpty(text);
  }
}
