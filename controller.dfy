/**
 * The streaming endpoint (server/src/controllers/ScrapeController.ts, `handle`): the body
 * is validated, a run is started, and every progress event the run delivers is written to
 * the response as one JSON line; a run that throws ends the stream with an error object.
 *
 * `HandleAsWritten` passes `slowScroll || false` where the run expects its progress
 * callback (the callback itself goes into a fourth argument `execute` does not have);
 * `Handle` passes the callback in its place.
 */
module Controller {
  import opened Seqs
  import opened Wrappers
  import opened Text
  import opened Capturer
  import opened FileTree
  import opened Scraper
  import opened Json

  /** The `links` property of the request body, as the guard sees it. */
  datatype LinksField = Absent | NotArray | Items(links: seq<string>)

  /** What `handle` reads of the request: the body's `links`, `format` (when it is a
      string) and the truthiness of `slowScroll`, the protocol and the `Host` header. */
  datatype Request = Request(links: LinksField, format: Option<string>, slowScroll: bool,
                             protocol: string, host: Option<string>)

  /** What the client receives: the status code, the headers and the text of the body. */
  datatype Reply = Reply(statusCode: int, headers: map<string, string>, body: string)

  const MaxLinks := 10
  const InvalidListMessage := "Lista de links inv\U{E1}lida."
  const TooManyLinksMessage := "Limite de 10 URLs por vez. Divida em lotes menores."
  const FatalMessage := "Erro fatal no servidor"
  const ContentType := "Content-Type"
  const TransferEncoding := "Transfer-Encoding"
  const JsonType := "application/json; charset=utf-8"
  const StreamHeaders := map[ContentType := "text/plain; charset=utf-8", TransferEncoding := "chunked"]

  /** The 400 message for a body the guards refuse, `None` for one they let through. */
  function Rejection(links: LinksField): (r: Option<string>)
    ensures r.None? <==> links.Items? && 1 <= |links.links| <= MaxLinks
    ensures r == Some(TooManyLinksMessage) <==> links.Items? && |links.links| > MaxLinks
  {
    match links
    case Items(ls) =>
      if |ls| == 0 then Some(InvalidListMessage)
      else if |ls| > MaxLinks then Some(TooManyLinksMessage)
      else None
    case _ => Some(InvalidListMessage)
  }

  /** `validFormats.includes(format) ? format : 'webp'`. */
  function SelectFormat(format: Option<string>): (f: Format)
    ensures format == Some(Extension(f)) || (f == Webp && format !in {Some("png"), Some("webp"), Some("pdf")})
  {
    if format == Some("png") then Png
    else if format == Some("pdf") then Pdf
    else Webp
  }

  /** `${protocol}://${host}`; a missing host prints as `undefined`. */
  function BaseUrl(protocol: string, host: Option<string>): string {
    protocol + "://" + host.GetOr("undefined")
  }

  /** The callback's enrichment of a result: one with a non-empty public path gets the
      absolute download URL; nothing else changes. */
  function EnrichResult(r: ScrapeResult, baseUrl: string): ScrapeResult {
    if r.publicPath.Some? && r.publicPath.value != "" then r.(downloadUrl := Some(baseUrl + r.publicPath.value))
    else r
  }

  /** The enrichment applied to the event the callback receives. */
  function Enrich(e: ProgressUpdate, baseUrl: string): ProgressUpdate {
    match e.result
    case Some(r) => e.(result := Some(EnrichResult(r, baseUrl)))
    case None => e
  }

  /** The line the callback writes for each delivered event, without its line feed. */
  function EventLines(events: seq<ProgressUpdate>, baseUrl: string): (lines: seq<string>)
    ensures |lines| == |events|
  {
    seq(|events|, i requires 0 <= i < |events| => EncodeProgress(Enrich(events[i], baseUrl)))
  }

  /** The body of a streamed response: each delivered event's line, then the error object
      (with no line feed after it) when the run threw. */
  function StreamBody(run: Run, baseUrl: string): string {
    Terminated(EventLines(run.events, baseUrl)) + (if run.outcome.Fatal? then EncodeFatal(FatalMessage) else "")
  }

  /** What `handle` answers when the run is given `listener` as its third argument and
      writes under `root/folder`. */
  function Answer(req: Request, listener: Listener, root: string, folder: string, world: World): Reply
    requires req.links.Items? ==> |world.steps| == |req.links.links|
  {
    match Rejection(req.links)
    case Some(m) => Reply(400, map[ContentType := JsonType], EncodeError(m))
    case None =>
      var run := Expected(req.links.links, SelectFormat(req.format), listener, root, folder, world);
      Reply(200, StreamHeaders, StreamBody(run, BaseUrl(req.protocol, req.host)))
  }

  /** The run's third argument as the source computes it: `slowScroll || false`. */
  function ListenerAsWritten(req: Request): Listener {
    if req.slowScroll then NotAFunction else NoListener
  }

  /** An Express response: status, headers, the text written and whether it has ended. */
  class Response {
    var statusCode: int
    var headers: map<string, string>
    var body: string
    var ended: bool

    constructor ()
      ensures statusCode == 200 && headers == map[] && body == [] && !ended
    {
      statusCode := 200;
      headers := map[];
      body := [];
      ended := false;
    }

    /** `res.status(code)`. */
    method Status(code: int)
      requires !ended
      modifies this
      ensures statusCode == code && headers == old(headers) && body == old(body) && ended == old(ended)
    {
      statusCode := code;
    }

    /** `res.setHeader(name, value)`: only before the body starts. */
    method SetHeader(name: string, value: string)
      requires !ended && body == []
      modifies this
      ensures headers == old(headers)[name := value]
      ensures statusCode == old(statusCode) && body == old(body) && ended == old(ended)
    {
      headers := headers[name := value];
    }

    /** `res.json(value)` for the text of an encoded value: the JSON content type unless
        one is set, the text, and the end of the response. */
    method SendJson(text: string)
      requires !ended && body == []
      modifies this
      ensures headers == if ContentType in old(headers) then old(headers) else old(headers)[ContentType := JsonType]
      ensures statusCode == old(statusCode) && body == text && ended
    {
      if ContentType !in headers {
        headers := headers[ContentType := JsonType];
      }
      body := text;
      ended := true;
    }

    /** `res.write(chunk)`. */
    method Write(chunk: string)
      requires !ended
      modifies this
      ensures body == old(body) + chunk
      ensures statusCode == old(statusCode) && headers == old(headers) && ended == old(ended)
    {
      body := body + chunk;
    }

    /** `res.end()`. */
    method End()
      modifies this
      ensures ended
      ensures statusCode == old(statusCode) && headers == old(headers) && body == old(body)
    {
      ended := true;
    }
  }

  class ScrapeController {

    constructor ()
    {
    }

    /** `handle` as the source writes it. */
    method HandleAsWritten(req: Request, res: Response, downloads: Downloads, world: World)
      requires req.links.Items? ==> |world.steps| == |req.links.links|
      requires res.statusCode == 200 && res.headers == map[] && res.body == [] && !res.ended
      modifies res, downloads
      ensures res.ended
      ensures Reply(res.statusCode, res.headers, res.body)
        == Answer(req, ListenerAsWritten(req), downloads.path, DayFolder(world), world)
      ensures downloads.root
        == if Rejection(req.links).None?
           then ExpectedTree(old(downloads.root), req.links.links, SelectFormat(req.format), ListenerAsWritten(req), DayFolder(world), world)
           else old(downloads.root)
    {
      Serve(req, res, downloads, world, ListenerAsWritten(req));
    }

    /** `handle` with the progress callback passed as the run's third argument. */
    method Handle(req: Request, res: Response, downloads: Downloads, world: World)
      requires req.links.Items? ==> |world.steps| == |req.links.links|
      requires res.statusCode == 200 && res.headers == map[] && res.body == [] && !res.ended
      modifies res, downloads
      ensures res.ended
      ensures Reply(res.statusCode, res.headers, res.body)
        == Answer(req, Callback, downloads.path, DayFolder(world), world)
      ensures downloads.root
        == if Rejection(req.links).None?
           then ExpectedTree(old(downloads.root), req.links.links, SelectFormat(req.format), Callback, DayFolder(world), world)
           else old(downloads.root)
    {
      Serve(req, res, downloads, world, Callback);
    }

    /** The body of `handle`, for the third argument the run receives. The callback's
        writes are the delivered events' lines, written once the run returns; the run
        throwing ends the stream with the error object. */
    method Serve(req: Request, res: Response, downloads: Downloads, world: World, listener: Listener)
      requires req.links.Items? ==> |world.steps| == |req.links.links|
      requires res.statusCode == 200 && res.headers == map[] && res.body == [] && !res.ended
      modifies res, downloads
      ensures res.ended
      ensures Reply(res.statusCode, res.headers, res.body)
        == Answer(req, listener, downloads.path, DayFolder(world), world)
      ensures downloads.root
        == if Rejection(req.links).None?
           then ExpectedTree(old(downloads.root), req.links.links, SelectFormat(req.format), listener, DayFolder(world), world)
           else old(downloads.root)
    {
      if Rejection(req.links).Some? {
        Reject(req, res, downloads.path, world, listener);
        return;
      }
      Stream(req, res, downloads, world, listener);
      assert Reply(res.statusCode, res.headers, res.body) == Answer(req, listener, downloads.path, DayFolder(world), world);
    }

    /** A request that fails validation: the 400 answer, and nothing is run. */
    method Reject(req: Request, res: Response, root: string, world: World, listener: Listener)
      requires Rejection(req.links).Some? && (req.links.Items? ==> |world.steps| == |req.links.links|)
      requires res.headers == map[] && res.body == [] && !res.ended
      modifies res
      ensures res.ended
      ensures Reply(res.statusCode, res.headers, res.body) == Answer(req, listener, root, DayFolder(world), world)
    {
      Refuse(res, Rejection(req.links).value);
    }

    /** `res.status(400).json({ error: message })`. */
    method Refuse(res: Response, message: string)
      requires res.headers == map[] && res.body == [] && !res.ended
      modifies res
      ensures Reply(res.statusCode, res.headers, res.body) == Reply(400, map[ContentType := JsonType], EncodeError(message))
      ensures res.ended
    {
      res.Status(400);
      res.SendJson(EncodeError(message));
    }

    /** An accepted request: the streaming headers, the run, and the lines its callback
        writes, closed by the error object when the run throws. */
    method Stream(req: Request, res: Response, downloads: Downloads, world: World, listener: Listener)
      requires req.links.Items? && |world.steps| == |req.links.links|
      requires res.headers == map[] && res.body == [] && !res.ended
      modifies res, downloads
      ensures res.ended && res.statusCode == old(res.statusCode) && res.headers == StreamHeaders
      ensures res.body == StreamBody(Expected(req.links.links, SelectFormat(req.format), listener, downloads.path,
                                              DayFolder(world), world), BaseUrl(req.protocol, req.host))
      ensures downloads.root
        == ExpectedTree(old(downloads.root), req.links.links, SelectFormat(req.format), listener, DayFolder(world), world)
    {
      var links := req.links.links;
      var format := SelectFormat(req.format);
      res.SetHeader(ContentType, "text/plain; charset=utf-8");
      res.SetHeader(TransferEncoding, "chunked");
      var service := new ScraperService(downloads);
      var baseUrl := BaseUrl(req.protocol, req.host);
      var outcome, events, capturer := service.Execute(links, format, listener, world);
      WriteStream(res, outcome, events, baseUrl);
      res.End();
    }

    /** The lines the callback writes, one per delivered event, then the error object the
        `catch` block writes when the run threw. */
    method WriteStream(res: Response, outcome: RunOutcome, events: seq<ProgressUpdate>, baseUrl: string)
      requires !res.ended && res.body == []
      modifies res
      ensures res.body == StreamBody(Run(outcome, events, []), baseUrl)
      ensures res.statusCode == old(res.statusCode) && res.headers == old(res.headers) && !res.ended
    {
      var text := Terminated(EventLines(events, baseUrl));
      res.Write(text);
      assert res.body == text;
      if outcome.Fatal? {
        var fatal := EncodeFatal(FatalMessage);
        res.Write(fatal);
        assert res.body == text + fatal;
      }
    }
  }

  /** Enrichment touches only the result's `downloadUrl`, sets it exactly when the public
      path is non-empty, and doing it twice is doing it once. */
  lemma EnrichShape(e: ProgressUpdate, baseUrl: string)
    ensures var d := Enrich(e, baseUrl);
      && d.(result := e.result) == e
      && d.result.Some? == e.result.Some?
      && (e.result.Some? ==> d.result.value.(downloadUrl := e.result.value.downloadUrl) == e.result.value)
      && (e.result.Some? && e.result.value.publicPath.Some? && e.result.value.publicPath.value != "" ==>
            d.result.value.downloadUrl == Some(baseUrl + e.result.value.publicPath.value))
      && (e.result.Some? && !(e.result.value.publicPath.Some? && e.result.value.publicPath.value != "") ==>
            d.result == e.result)
      && Enrich(d, baseUrl) == d
  {
  }

  /** The streamed body splits into exactly one line per delivered event, then the tail:
      empty after a run that finished, the error object after one that threw. */
  lemma StreamLines(run: Run, baseUrl: string)
    ensures Split(StreamBody(run, baseUrl), '\n')
      == EventLines(run.events, baseUrl) + [if run.outcome.Fatal? then EncodeFatal(FatalMessage) else ""]
  {
    var lines := EventLines(run.events, baseUrl);
    forall i | 0 <= i < |lines| ensures '\n' !in lines[i] {
      EncodeProgressOneLine(Enrich(run.events[i], baseUrl));
    }
    EncodeFatalOneLine(FatalMessage);
    SplitTerminated(lines, if run.outcome.Fatal? then EncodeFatal(FatalMessage) else "");
  }

  /** As written, an accepted request is never answered with a single complete line: with
      a falsy `slowScroll` the run has no listener and the body is empty unless the browser
      fails to launch; with a truthy one the run throws before launching the browser, so
      nothing is captured and the body is the error object alone. */
  lemma AsWrittenStreamsNoLine(req: Request, root: string, folder: string, world: World)
    requires req.links.Items? && |world.steps| == |req.links.links|
    requires Rejection(req.links).None?
    ensures var reply := Answer(req, ListenerAsWritten(req), root, folder, world);
      && '\n' !in reply.body
      && (!req.slowScroll && world.launchFailure.None? ==> reply.body == "")
      && (req.slowScroll ==>
            reply.body == EncodeFatal(FatalMessage)
            && Expected(req.links.links, SelectFormat(req.format), NotAFunction, root, folder, world).calls == [Shutdown])
  {
    var run := Expected(req.links.links, SelectFormat(req.format), ListenerAsWritten(req), root, folder, world);
    assert run.events == [];
    NoEventBody(run, BaseUrl(req.protocol, req.host));
  }

  /** A run that delivered no event leaves only the tail in the body. */
  lemma NoEventBody(run: Run, baseUrl: string)
    requires run.events == []
    ensures var body := StreamBody(run, baseUrl);
      && body == (if run.outcome.Fatal? then EncodeFatal(FatalMessage) else "")
      && '\n' !in body
  {
    var tail := if run.outcome.Fatal? then EncodeFatal(FatalMessage) else "";
    assert EventLines(run.events, baseUrl) == [];
    EmptyConcat(tail);
    EncodeFatalOneLine(FatalMessage);
  }

  /** With the callback in place, a run whose browser launches streams one line per event:
      the start event, then for each link in order the event carrying its result, enriched;
      the body ends with a line feed, so every line is complete. */
  lemma HandleStreamsEveryResult(req: Request, root: string, folder: string, world: World)
    requires req.links.Items? && |world.steps| == |req.links.links|
    requires Rejection(req.links).None? && world.launchFailure.None?
    ensures var links := req.links.links;
      var baseUrl := BaseUrl(req.protocol, req.host);
      var events := Events(links, SelectFormat(req.format), root, folder, world);
      var lines := Split(Answer(req, Callback, root, folder, world).body, '\n');
      && |lines| == |links| + 2
      && lines[..|links| + 1] == EventLines(events, baseUrl)
      && lines[|links| + 1] == ""
      && forall j :: 0 <= j < |links| ==>
           Enrich(events[j + 1], baseUrl).result.Some?
           && Enrich(events[j + 1], baseUrl).result.value.url == links[j]
  {
    var links := req.links.links;
    var format := SelectFormat(req.format);
    var baseUrl := BaseUrl(req.protocol, req.host);
    var run := Expected(links, format, Callback, root, folder, world);
    StreamLines(run, baseUrl);
    var events := Events(links, format, root, folder, world);
    assert run.events == events && run.outcome.Finished?;
    forall j | 0 <= j < |links|
      ensures Enrich(events[j + 1], baseUrl).result.Some? && Enrich(events[j + 1], baseUrl).result.value.url == links[j]
    {
      EventsShape(links, format, root, folder, world);
      ResultsShape(links, format, root, folder, world);
      EnrichShape(events[j + 1], baseUrl);
    }
  }

  /** A refused request gets status 400 and one JSON object naming the reason, and no run
      starts (the answer does not depend on the listener). */
  lemma RejectedAnswer(req: Request, l1: Listener, l2: Listener, root: string, folder: string, world: World)
    requires req.links.Items? ==> |world.steps| == |req.links.links|
    requires Rejection(req.links).Some?
    ensures var reply := Answer(req, l1, root, folder, world);
      && reply == Answer(req, l2, root, folder, world)
      && reply.statusCode == 400 && reply.headers[ContentType] == JsonType
      && reply.body == EncodeError(Rejection(req.links).value)
      && '\n' !in reply.body
  {
    EncodeErrorOneLine(Rejection(req.links).value);
  }
}
