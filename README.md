# PrintFullPages, modelled in Dafny

PrintFullPages takes a list of web addresses and captures each page as a PNG, WebP or PDF
file. The React client posts the list. The Express server captures the pages one after
another in a headless browser, streams one JSON line of progress per page and serves the
files from a day-keyed folder. A background sweeper deletes files older than a retention
window. This project models the orchestration around the browser:

- `Formatters` holds `sanitizeFilename` and `getDateFolder`.
- `Scraper` holds `ScraperService.execute`. It covers the capture loop, the results, the
  progress events with their percentage and time estimate, and closing the browser on
  every path.
- `Retention` holds `CleanupService`. It covers the age-based sweep of a two-level
  downloads tree, empty-folder pruning and the start/stop interval lifecycle.
- `Controller` holds `ScrapeController.handle`. It covers validation, format fallback,
  `downloadUrl` enrichment, JSON-line framing and the fatal error line.
- `Client` holds `handleProcess` from the React app. It covers link splitting and the
  incremental line-buffer parser that turns the streamed body into the log and the
  progress bar.

Supporting modules:

- `Seqs` holds small sequence lemmas.
- `Wrappers` holds `Option`.
- `Text` covers `split`, `join`, `trim` and decimal numbers.
- `Json` covers `JSON.stringify` of the wire records. It follows the string escaping of
  section 25.5.2.3 of ECMA-262.
- `FileTree` holds the downloads directory as a value inside a `Downloads` object. It
  covers making the day folder and storing a captured file into it.
- `JsonRead` reads back exactly the text `Json` writes for a progress event. It shows
  that the encoding loses nothing, and it gives a concrete `parse` for the client.
- `Capturer` holds the browser session reduced to launch, capture and close.

The browser, the filesystem and the clock are inputs:

- A `World` value carries the date, the start time, the launch failure and, per link, the
  timestamp, the capture outcome and the finishing time.
- A `Faults` value names the files and folders whose filesystem calls throw.
- `now` is a parameter.
- On the client, `JSON.parse` is a parameter `parse` returning an `Option`.
  `Client.ParseEvent` is one such parameter that meets the lemmas' assumption. The chunks
  produced by `fetch` and the reader make up a `FetchOutcome` value.

Imperative code is modelled as classes whose methods are proved against specification
functions:

- `ScraperService.Execute` and its loop `CaptureAll` match `Expected`, `Results` and
  `Events`. The downloads tree they leave matches `ExpectedTree`: the day folder is made,
  and each rendered page's file is stored in it. A later capture with the same name
  replaces the earlier file, and nothing is stored when a plain file holds the folder's
  name.
- `CleanupService.Cleanup` and its nested loop match `Sweep`.
- `ScrapeController.Handle` writes to a `Response` object, and the reply matches `Answer`.
- `App.HandleProcess` and its read loop match `FetchLogs` and `FetchProgress`.

The lemmas beside those functions state what the source promises.

## Model

| member | source | states |
|---|---|---|
| Formatters.PrefixLength | server/src/utils/formatters.ts:16 | The stripped prefix is exactly one of: nothing, `www.`, `http://`, `https://`, or one of the schemes followed by `www.`; the remainder is the input after that prefix |
| Formatters.Stripped | server/src/utils/formatters.ts:16 | A definition with no `ensures` of its own: the two anchored replaces, scheme first and `www.` second. `PrefixLength` states what it removes |
| Formatters.SanitizeFilename | server/src/utils/formatters.ts:14-19 | A definition with no `ensures` of its own: the stripped text with each character mapped. `SanitizeFilenameChars`, `SanitizedHasNoSeparators` and `SanitizeIdempotent` state what it means |
| Formatters.SanitizeFilenameChars | server/src/utils/formatters.ts:14-19 | The output has one character per input character after the stripped prefix (a character here is a Unicode scalar value); each output character is the mapping of the input character in the same place; every output character is in `[a-z0-9_]` |
| Formatters.SanitizeChar | server/src/utils/formatters.ts:18 | Whatever the input character, the mapped character is a lower-case ASCII letter, a digit or `_` |
| Formatters.SanitizedHasNoSeparators | server/src/utils/formatters.ts:18 | No `/`, `.`, `:`, `?`, `=` or `\` survives sanitizing, so a name can hold no directory part or dot segment |
| Formatters.SanitizeIdempotent | server/src/utils/formatters.ts:16-18 | Sanitizing twice gives the same name as sanitizing once |
| Formatters.SanitizeExample | server/src/utils/formatters.ts:14-19 | `https://www.example.com/a?b=1` becomes `example_com_a_b_1` |
| Formatters.DateFolder | server/src/utils/formatters.ts:4-9 | The folder name holds only digits and `_` |
| Formatters.DateFolderRoundTrip | server/src/utils/formatters.ts:4-9 | For a real date, the folder name has five characters `DD_MM`; reading back the two-digit fields gives the day and the one-based month |
| Formatters.DateFolderInjective | server/src/utils/formatters.ts:4-9 | Two dates share a folder only when they have the same day and month |
| FileTree.WithFolder | server/src/services/ScraperService.ts:40-44 | After `mkdirSync`, the day folder exists; an existing tree keeps every entry; a tree that already has the folder is unchanged; at most one entry is added |
| FileTree.WithFolderIdempotent | server/src/services/ScraperService.ts:42-44 | Ensuring the folder twice is the same as ensuring it once |
| FileTree.Downloads.EnsureFolder | server/src/services/ScraperService.ts:42-44 | The tree becomes `WithFolder` of the old tree |
| FileTree.PutFile | server/src/providers/scraper/PuppeteerScraper.ts:60-67 | Writing a file to a path leaves the new file, and every other file whose name differs; the old file of the same name is replaced |
| FileTree.Store | server/src/services/ScraperService.ts:70-75 | Storing into the day folder keeps the tree's presence and size and changes no entry other than that folder |
| FileTree.StoreHolds | server/src/services/ScraperService.ts:70-75 | After storing, the folder holds the new file and every earlier file of another name; whether the folder exists does not change |
| FileTree.Downloads.Put | server/src/services/ScraperService.ts:75 | The tree becomes `Store` of the old tree with the written file |
| FileTree.StoreAllElsewhere | server/src/services/ScraperService.ts:63-107 | A run of writes keeps the day folder, or its absence, and every other top-level entry |
| FileTree.StoreAllHolds | server/src/services/ScraperService.ts:63-107 | A written file is in the day folder at the end unless a later write used the same name |
| Capturer.Extension | server/src/services/ScraperService.ts:69 | The file extension is non-empty and holds no `/` or `.` |
| Capturer.PageCapturer.Init | server/src/providers/scraper/PuppeteerScraper.ts:14-24 | The call records a launch; the session is open afterwards unless the launch fails, and then the failure is returned |
| Capturer.PageCapturer.CapturePage | server/src/providers/scraper/PuppeteerScraper.ts:39-40 | Without an open session the capture fails with "Browser not initialized"; otherwise it yields the browser's outcome; the call is recorded |
| Capturer.PageCapturer.Close | server/src/providers/scraper/PuppeteerScraper.ts:29-34 | The session is closed afterwards and the call is recorded |
| Scraper.Percent | server/src/services/ScraperService.ts:100 | The result is `Math.round(100*k/n)` in exact arithmetic: `100*k/n` lies in `[p - 1/2, p + 1/2)` |
| Scraper.EstimatedSeconds | server/src/services/ScraperService.ts:88-101 | The result is `Math.ceil` of `elapsed/k*(n-k)/1000` in exact arithmetic |
| Scraper.PercentBounds | server/src/services/ScraperService.ts:100 | The percentage lies in `[0, 100]`; it is 0 with no link done and 100 with all done |
| Scraper.PercentMonotone | server/src/services/ScraperService.ts:100 | Doing more links never lowers the percentage |
| Scraper.EstimateBounds | server/src/services/ScraperService.ts:88-101 | With a non-negative elapsed time, the estimate is non-negative, and it is 0 once every link is done |
| Scraper.FileName | server/src/services/ScraperService.ts:67-69 | A definition with no `ensures` of its own: `${safeName}_${timestamp}.${format}`. `FileNameShape` and `FileNameUnique` state what it means |
| Scraper.ResultFor | server/src/services/ScraperService.ts:72-83 | A definition with no `ensures` of its own: the result of one link. `ResultsShape` and `FailureContained` state what it means |
| Scraper.FileNameShape | server/src/services/ScraperService.ts:67-69 | The file name is the sanitized link, `_`, the timestamp, `.` and the extension; neither the stem nor the name contains `/`, and the stem contains no `.` |
| Scraper.FileNameUnique | server/src/services/ScraperService.ts:67-69 | For one link and format, different timestamps give different file names |
| Scraper.Results | server/src/services/ScraperService.ts:63-85 | There is one result per link |
| Scraper.ResultsShape | server/src/services/ScraperService.ts:72-85 | Result `i` is for `links[i]`; it succeeds exactly when capture `i` rendered; a success carries the file name, `root/folder/name` and `/downloads/folder/name`; a failure carries only the error's message |
| Scraper.FailureContained | server/src/services/ScraperService.ts:74-83 | Changing what happens to one link changes no other link's result |
| Scraper.Events | server/src/services/ScraperService.ts:52-106 | There is one event more than there are links |
| Scraper.InitialEvent | server/src/services/ScraperService.ts:52-59 | A definition with no `ensures` of its own: the 0% event sent before the launch. `EventsShape` states what it means |
| Scraper.EventAfter | server/src/services/ScraperService.ts:88-105 | A definition with no `ensures` of its own: the event after one link. `EventsShape`, `PercentProgress` and `EstimateProgress` state what it means |
| Scraper.EventsShape | server/src/services/ScraperService.ts:52-105 | The first event is `0/N`, 0 %, no ETA, no URL, processing; event `j` reports `j` done of `N` with `links[j-1]` and its result; only the last event of a non-empty run is `completed` |
| Scraper.PercentProgress | server/src/services/ScraperService.ts:100 | Across a run's events, the percentage stays in `[0, 100]`, never decreases and ends at 100 |
| Scraper.EstimateProgress | server/src/services/ScraperService.ts:88-101 | When no capture finishes before the start time, every estimate is non-negative and the last is 0 |
| Scraper.CloseOnEveryPath | server/src/services/ScraperService.ts:61-114 | Every run ends with exactly one close, which is the last call; the browser is launched at most once, first; a launch failure is re-thrown after the close, with nothing captured |
| Scraper.Expected | server/src/services/ScraperService.ts:38-117 | A definition with no `ensures` of its own: the outcome, the delivered events and the browser calls of a run. `CloseOnEveryPath`, `ResultsShape` and `EventsShape` state what it means, and `Execute` is proved equal to it |
| Scraper.ExpectedTree | server/src/services/ScraperService.ts:39-107 | A definition with no `ensures` of its own: the day folder is made, then each rendered page's file is stored unless the run stopped before the loop. `RunTree` states what it means, and `Execute` is proved equal to it |
| Scraper.RunTree | server/src/services/ScraperService.ts:39-107 | After a run the day folder exists and every other top-level entry is unchanged; when the loop ran, the folder holds the file of each rendered page whose name no later capture reused |
| Scraper.ScraperService.Execute | server/src/services/ScraperService.ts:38-117 | The tree becomes `ExpectedTree`: the day folder is made, then each rendered page's file is stored in it; the browser is closed; outcome, delivered events and browser calls are those of `Expected` |
| Scraper.ScraperService.RunSession | server/src/services/ScraperService.ts:46-114 | From the start notification to `finally`, the outcome, events and calls are those of `Expected`, the files of the rendered pages are stored when the loop runs, and the session ends closed |
| Scraper.ScraperService.CaptureAll | server/src/services/ScraperService.ts:63-107 | The loop returns `Results`, records exactly the captures of `Captures` in link order, stores each rendered page's file in link order, delivers the per-link events and leaves the session open |
| Scraper.ScraperService.CaptureOne | server/src/services/ScraperService.ts:67-85 | One iteration records one capture call, stores the file when the page rendered and yields that link's result |
| Json.UnescapeEscape | server/src/controllers/ScrapeController.ts:47 | Unescaping an escaped string gives the string back, so `JSON.stringify` loses no text |
| Json.EscapeChar | server/src/controllers/ScrapeController.ts:47 | A definition with no `ensures` of its own: the escape of one character as JSON.stringify writes it. `UnescapeEscape`, `EscapeInjective` and `EscapePlain` state what it means |
| Json.EscapeInjective | server/src/controllers/ScrapeController.ts:47 | Different strings have different escapes |
| Json.EscapePlain | server/src/controllers/ScrapeController.ts:47 | A property name of plain letters is written unchanged |
| Json.EncodeResult | server/src/controllers/ScrapeController.ts:47 | A definition with no `ensures` of its own: a result object with its members in the source's order and absent ones omitted. `EncodeResultNoNewline` and `JsonRead.ReadResultOf` state what it means |
| Json.EncodeProgress | server/src/controllers/ScrapeController.ts:47 | A definition with no `ensures` of its own: a progress object as the callback writes it. `EncodeProgressOneLine`, `JsonRead.DecodeEncodeProgress` and `JsonRead.EncodeProgressInjective` state what it means |
| Json.EncodeFatal | server/src/controllers/ScrapeController.ts:57 | A definition with no `ensures` of its own: the fatal error object. `EncodeFatalOneLine` states what it means |
| Json.EncodeError | server/src/controllers/ScrapeController.ts:10-16 | A definition with no `ensures` of its own: the 400 error object. `EncodeErrorOneLine` states what it means |
| Json.EncodeResultNoNewline | server/src/controllers/ScrapeController.ts:47 | An encoded result contains no line feed, whatever its strings hold |
| Json.EncodeProgressOneLine | server/src/controllers/ScrapeController.ts:47 | An encoded progress event is a non-empty object with no line feed, so it stays one line |
| Json.EncodeFatalOneLine | server/src/controllers/ScrapeController.ts:57 | The fatal error object is one non-empty line |
| Json.EncodeErrorOneLine | server/src/controllers/ScrapeController.ts:9-18 | The 400 error object is one non-empty line |
| JsonRead.ReadIntOf | server/src/controllers/ScrapeController.ts:47 | A number written in decimal, followed by a non-digit, is read back as itself |
| JsonRead.ReadStringOf | server/src/controllers/ScrapeController.ts:47 | A string literal is read back as the original string, whatever follows it |
| JsonRead.ReadResultOf | server/src/controllers/ScrapeController.ts:47 | An encoded result is read back as itself, present and absent optional properties included |
| JsonRead.DecodeEncodeProgress | server/src/controllers/ScrapeController.ts:47 | Every encoded progress event is read back as itself |
| JsonRead.EncodeProgressInjective | server/src/controllers/ScrapeController.ts:47 | Two events with the same line are the same event |
| JsonRead.DecodeProgress | server/src/controllers/ScrapeController.ts:47 | A definition with no `ensures` of its own: a reader for exactly the text `EncodeProgress` writes. `DecodeEncodeProgress` states what it means |
| Controller.Rejection | server/src/controllers/ScrapeController.ts:9-18 | A body passes exactly when `links` is an array of 1 to 10 entries; the "limit of 10" message is given exactly when an array has more than 10 |
| Controller.SelectFormat | server/src/controllers/ScrapeController.ts:20-21 | A requested `png`, `webp` or `pdf` is kept; anything else becomes `webp` |
| Controller.BaseUrl | server/src/controllers/ScrapeController.ts:29-31 | A definition with no `ensures` of its own: `${protocol}://${host}`, with `undefined` for a missing host. `HandleStreamsEveryResult` states how it reaches the written lines |
| Controller.EnrichResult | server/src/controllers/ScrapeController.ts:41-44 | A definition with no `ensures` of its own: the `downloadUrl` enrichment of one result. `EnrichShape` states what it means |
| Controller.Enrich | server/src/controllers/ScrapeController.ts:39-44 | A definition with no `ensures` of its own: the enrichment applied to one event. `EnrichShape` states what it means |
| Controller.EventLines | server/src/controllers/ScrapeController.ts:47 | The body has one line per delivered event |
| Controller.EnrichShape | server/src/controllers/ScrapeController.ts:41-44 | Only `downloadUrl` changes, and only when the result has a non-empty `publicPath`, becoming `baseUrl + publicPath`; enriching twice is enriching once |
| Controller.StreamLines | server/src/controllers/ScrapeController.ts:39-58 | The body splits into one line per event, followed by the fatal error object (no trailing line feed) when the run threw, or by nothing |
| Controller.NoEventBody | server/src/controllers/ScrapeController.ts:52-58 | With no event delivered, the body is the fatal object alone or empty, and holds no line feed |
| Controller.StreamBody | server/src/controllers/ScrapeController.ts:33-59 | A definition with no `ensures` of its own: the event lines, then the fatal object when the run threw. `StreamLines` and `NoEventBody` state what it means |
| Controller.Answer | server/src/controllers/ScrapeController.ts:6-60 | A definition with no `ensures` of its own: the status, headers and body `handle` ends with. `RejectedAnswer` and `HandleStreamsEveryResult` state what it means, and `Serve` is proved equal to it |
| Controller.ListenerAsWritten | server/src/controllers/ScrapeController.ts:38 | A definition with no `ensures` of its own: `slowScroll \|\| false` in the listener's place. `AsWrittenStreamsNoLine` states what it means |
| Controller.HandleStreamsEveryResult | server/src/controllers/ScrapeController.ts:35-52 | With the callback in the listener's place, an accepted request whose browser launches streams one line per event and then ends; the line after the start line carries the enriched result for `links[j]` |
| Controller.AsWrittenStreamsNoLine | server/src/controllers/ScrapeController.ts:35-49 | As written, an accepted request's body never holds a line feed; without `slowScroll` it is empty; with `slowScroll` it is the fatal object, and the browser was only closed |
| Controller.RejectedAnswer | server/src/controllers/ScrapeController.ts:9-18 | A refused body gets a 400 JSON reply holding the refusal message, whatever the listener; no line is streamed |
| Controller.Response.constructor | server/src/controllers/ScrapeController.ts:6 | A fresh response has status 200, no headers, an empty body and has not ended |
| Controller.Response.Status | server/src/controllers/ScrapeController.ts:10 | `res.status(code)` sets the status and changes nothing else |
| Controller.Response.SetHeader | server/src/controllers/ScrapeController.ts:25-26 | `res.setHeader` before the body starts sets that header and changes nothing else |
| Controller.Response.SendJson | server/src/controllers/ScrapeController.ts:9-18 | `res.json` sets the body, adds the JSON content type unless one is set, and ends the response |
| Controller.Response.Write | server/src/controllers/ScrapeController.ts:47-57 | `res.write` appends to the body and changes nothing else |
| Controller.Response.End | server/src/controllers/ScrapeController.ts:52 | `res.end()` ends the response and changes nothing else |
| Controller.ScrapeController.HandleAsWritten | server/src/controllers/ScrapeController.ts:6-60 | Handling as written ends the response with the reply of `Answer` for the as-written listener; an accepted body leaves the tree as `ExpectedTree`, a refused one leaves it unchanged |
| Controller.ScrapeController.Handle | server/src/controllers/ScrapeController.ts:6-60 | With the callback as the listener, the response ends with the reply of `Answer`; an accepted body leaves the tree as `ExpectedTree`, a refused one leaves it unchanged |
| Controller.ScrapeController.Serve | server/src/controllers/ScrapeController.ts:6-60 | For any listener: a refused body is answered 400, no run starts and the tree is unchanged; otherwise the run's stream is written, the tree becomes `ExpectedTree` and the response ends |
| Controller.ScrapeController.Reject | server/src/controllers/ScrapeController.ts:9-18 | A body that fails validation is answered with the reply `Answer` gives it, and the response ends |
| Controller.ScrapeController.Refuse | server/src/controllers/ScrapeController.ts:9-18 | The reply is status 400, the JSON content type and the encoded error, and the response ends |
| Controller.ScrapeController.Stream | server/src/controllers/ScrapeController.ts:25-58 | The headers are the streaming pair; the body is `StreamBody` of the run; the tree becomes `ExpectedTree`; the response ends |
| Controller.ScrapeController.WriteStream | server/src/controllers/ScrapeController.ts:39-57 | The callback writes and the closing write leave exactly `StreamBody` in the body, and the status and headers are unchanged |
| Retention.Sweep | server/src/services/CleanupService.ts:51-58 | A sweep leaves a tree exactly when there was one; a missing downloads root stays missing |
| Retention.Expired | server/src/services/CleanupService.ts:75-77 | A definition with no `ensures` of its own: strictly older than the retention time. `KeptFilesSpec` and `FreshFileSurvives` state what it means |
| Retention.KeptFiles | server/src/services/CleanupService.ts:70-85 | A definition with no `ensures` of its own: the files the inner loop leaves. `KeptFilesSpec` and `KeptFilesIdempotent` state what it means, and `SweepFolder` is proved equal to it |
| Retention.KeptFilesSpec | server/src/services/CleanupService.ts:70-85 | A file stays exactly when it is not older than the retention window, or when its `stat` or `unlink` throws; none is added |
| Retention.SweepEntry | server/src/services/CleanupService.ts:61-96 | A definition with no `ensures` of its own: what the sweep leaves of one top-level entry. `SweepEntryCases` and `SweepEntryIdempotent` state what it means |
| Retention.SweepEntries | server/src/services/CleanupService.ts:60-97 | A definition with no `ensures` of its own: what the sweep leaves of the listing. `SweepEntriesSpec` and `SweepEntriesIdempotent` state what it means |
| Retention.SweepEntryCases | server/src/services/CleanupService.ts:60-96 | Top-level files are untouched; an unreadable folder is untouched; a readable folder disappears exactly when nothing is left in it and `rmdir` succeeds; a kept folder holds the surviving files |
| Retention.SweepEntriesSpec | server/src/services/CleanupService.ts:60-97 | Every surviving entry is the sweep of one original entry, and every entry whose sweep keeps it survives; no entry is added |
| Retention.SweepIdempotent | server/src/services/CleanupService.ts:44-105 | A second sweep at the same instant, with the same faults, removes nothing more |
| Retention.SweepShrinks | server/src/services/CleanupService.ts:44-105 | A sweep never adds files or folders |
| Retention.FreshFileSurvives | server/src/services/CleanupService.ts:70-85 | A file younger than the retention window, such as one just captured, is still in its folder after a sweep, whatever faults occur |
| Retention.SweepStep | server/src/services/CleanupService.ts:60-97 | One more entry adds its own sweep to the result and its own counts to the totals; a removed entry is always a folder |
| Retention.CleanupService.constructor | server/src/services/CleanupService.ts:10-14 | The retention is the given minutes times 60000 ms, the interval 60000 ms, and nothing is scheduled |
| Retention.CleanupService.Default | server/src/services/CleanupService.ts:10-14 | Without an argument the retention is the default ten minutes, 600000 ms; the interval is 60000 ms and nothing is scheduled |
| Retention.CleanupService.Start | server/src/services/CleanupService.ts:19-28 | The tree is swept once immediately and one more interval is scheduled and held |
| Retention.CleanupService.Stop | server/src/services/CleanupService.ts:33-39 | The held interval, if any, is cancelled; without one, nothing changes |
| Retention.CleanupService.Tick | server/src/services/CleanupService.ts:27 | A firing interval sweeps the tree |
| Retention.CleanupService.CleanupNow | server/src/services/CleanupService.ts:110-113 | A manual sweep has the same effect and counts as `cleanup` |
| Retention.CleanupService.Cleanup | server/src/services/CleanupService.ts:44-105 | The tree becomes `Sweep` of the old tree; the counters are exactly the numbers of files and folders removed, and are 0 without a root |
| Retention.CleanupService.SweepFolder | server/src/services/CleanupService.ts:63-96 | One folder is processed to its `SweepEntry`, and the files removed are counted |
| Text.TrimBlank | client/src/App.tsx:56 | `!s.trim()` holds exactly when `s` is all white space |
| Text.Trim | client/src/App.tsx:23 | A definition with no `ensures` of its own: the text between leading and trailing white space. `TrimBlank` states what it means |
| Text.Split | client/src/App.tsx:29 | There is at least one piece, and no piece holds the separator. `JoinSplit` and `SplitTerminated` state the rest |
| Text.JoinSplit | client/src/App.tsx:50 | Splitting on a separator and joining back gives the original text |
| Text.SplitTerminated | client/src/App.tsx:50-53 | Lines without line feeds, each followed by `\n`, then a remainder: splitting gives the lines and then the remainder |
| Client.SystemLog | client/src/App.tsx:81 | The entry a failure adds is a `System` error with a non-empty message |
| Client.Links | client/src/App.tsx:29 | A definition with no `ensures` of its own: split, trim, drop empty lines. `LinksAreLinks` and `LinksNonEmpty` state what it means |
| Client.LinksAreLinks | client/src/App.tsx:29 | Every link is non-empty, holds no line feed and has no white space at either end |
| Client.LinksNonEmpty | client/src/App.tsx:23-29 | Text that passes the blank check yields at least one link |
| Client.LogsAppend | client/src/App.tsx:55-76 | Reading two runs of lines logs the first run's results, then the second's |
| Client.ProgressAppend | client/src/App.tsx:55-76 | Reading two runs of lines shows the first run's progress values, then the second's |
| Client.BufferStep | client/src/App.tsx:49-53 | After a chunk, the terminated lines taken so far plus the new buffer are the old ones plus the chunk |
| Client.BufferLines | client/src/App.tsx:50-53 | The lines handed to the line loop never contain a line feed |
| Client.NoLineNoEffect | client/src/App.tsx:47-53 | A body without a line feed changes neither the log nor the bar: the remainder is never parsed |
| Client.LineLogs | client/src/App.tsx:56-63 | A definition with no `ensures` of its own: what one complete line adds to the log. `EventLineRead` and `HandleLine` state what it means |
| Client.LineProgress | client/src/App.tsx:56-71 | A definition with no `ensures` of its own: what one complete line gives the progress bar. `EventLineRead` and `HandleLine` state what it means |
| Client.FetchLogs | client/src/App.tsx:32-81 | A definition with no `ensures` of its own: the log a run ends with. `HandleProcess` is proved to produce it, and `ClientReadsStream` and `ClientLogsEveryResult` state what it means |
| Client.FetchProgress | client/src/App.tsx:45-71 | A definition with no `ensures` of its own: the values the bar takes. `HandleProcess` is proved to produce it, and `ClientReadsStream` states what it means |
| Client.App.constructor | client/src/App.tsx:15-20 | Empty text, `webp`, not loading, empty log, no progress |
| Client.App.HandleProcess | client/src/App.tsx:22-86 | Blank text changes nothing and sends nothing; otherwise one request with the links and format is sent; the log becomes exactly what the reply calls for; the bar starts at 0 and ends cleared; loading ends false |
| Client.App.Receive | client/src/App.tsx:32-81 | The log and the bar history grow by what the reply calls for: the parsed lines, then one `System` entry when the fetch fails, the body is missing or a read fails |
| Client.App.LogFailure | client/src/App.tsx:79-81 | The `catch` block appends one `System` entry and changes nothing else |
| Client.App.ReadStream | client/src/App.tsx:41-77 | Reading every chunk handles exactly the complete lines of the concatenated body, in order; the buffer never holds a line feed, and the handled lines plus the buffer are everything received |
| Client.App.HandleLines | client/src/App.tsx:55-76 | The line loop appends each line's result and progress in order |
| Client.App.HandleLine | client/src/App.tsx:56-75 | A blank or unparseable line changes nothing; a parsed line logs its result when it has one and sets the bar when `percent` is a number, with the ETA defaulting to 0 |
| Client.ParseEvent | client/src/App.tsx:58 | A definition with no `ensures` of its own: a `JSON.parse` for the server's event lines. `ParseEventReadsEvents` states what it means |
| Client.ParseEventReadsEvents | client/src/App.tsx:58 | A `parse` exists that reads every event line back as the event's result, percentage and ETA, so `ReadsEvents` can be met |
| Client.EventLineRead | client/src/App.tsx:56-71 | When `parse` reads back what the server encodes, an event line logs its result, if any, and sets the bar to its percentage and ETA |
| Client.ReadLines | client/src/App.tsx:55-76 | Lines read as a run of events log exactly those events' results and show exactly their progress, in order |
| Client.StreamCompleteLines | client/src/App.tsx:50-53 | The complete lines of a streamed body are exactly the event lines; the fatal object is left in the buffer |
| Client.ClientReadsStream | client/src/App.tsx:45-77 | However the body is cut into chunks, the client logs each event's enriched result and shows each event's progress |
| Client.ClientLogsEveryResult | client/src/App.tsx:45-77 | With the corrected server, the log is the enriched result of every link in link order, and the bar history is every event's percentage and ETA |
| Client.ClientLogsNothingAsWritten | client/src/App.tsx:47-53 | With the server as written, an accepted request ends with an empty log and no progress update, however the body is chunked |
| Client.ClientIgnoresRejection | client/src/App.tsx:39-53 | A 400 answer's one-line error object is never parsed: nothing is logged |
| Client.ClientRequestAccepted | client/src/App.tsx:29-36 | The format the client sends is the one the server selects, and the server accepts the list exactly when it holds at most 10 links |

## Left out

- Floating point: `Math.round(processedCount / links.length * 100)` and `Math.ceil(estimatedRemainingMs / 1000)` are computed exactly over rationals. Where a float quotient carries a rounding error, `Math.round` near a half or `Math.ceil` near a whole number can give a different integer; that is not modelled.
- Formatters.SanitizeFilename: a Dafny string is a sequence of Unicode scalar values, while the regular expression without the `u` flag works on UTF-16 code units. A character outside the Basic Multilingual Plane becomes one `_` here but two in the source, so lengths are counted in scalar values.
- Real time and the calendar: `Date.now()` and `new Date()` are fields of `World` and parameters `now`. The timer is a counter of scheduled intervals. `setInterval` firing is `Tick`.
- Concurrency: sweeps that overlap each other or a capture run are not modelled. A sweep is atomic with respect to the tree.
- Capturer.PageCapturer: navigation, cookie banners, scrolling and the screenshot or PDF calls of server/src/providers/scraper/PuppeteerScraper.ts are one outcome per link. PDF merging has no code in the modelled files.
- Scraper.ScraperService.Execute: an `fs.mkdirSync` that throws and a `scraper.close()` that throws are not modelled; both always succeed here.
- Scraper.ScraperService.Execute: a stored file's modification time is the `Date.now()` read after its capture, an upper bound of the real one. Whether a capture succeeds comes from `World` alone: when a plain file already holds the day folder's name, the model still reports the capture's outcome and stores nothing.
- Scraper.ScraperService.Execute: `path.join` normalisation is not modelled. The local path is `root + "/" + folder + "/" + name`.
- Scraper.ScraperService.Execute: callbacks that throw, other than calling a non-function, are not modelled. A callback is `NoListener`, `Callback` or `NotAFunction`.
- Retention.Sweep: the tree has two levels. A sub-folder inside a day folder counts as a file whose `stat` may fault, and it is never recursed into.
- Retention.Sweep: filesystem errors are a fixed `Faults` value for the whole sweep.
- Controller.ScrapeController.Handle: `res.write` results are collected into one body string. Back-pressure and the chunked transfer itself are not modelled.
- Controller.ScrapeController.Handle: the result is enriched in place (`progress.result.downloadUrl`). The model writes an enriched copy, and no aliasing between the service's `results` array and the written object is modelled.
- Controller.ScrapeController.Handle: the request's `links` elements are taken to be strings. `format` is kept only when it is a string, and `slowScroll` is its truthiness.
- Client.App.HandleProcess: `fetch`, `TextDecoder` and `reader.read()` are replaced by the `FetchOutcome` value. Decoding is the identity on the chunk text.
- Client.App.HandleProcess: React's state batching is not modelled. `setLogs` and `setProgress` take effect immediately, and `shown` records every value the bar takes.
- Client.App.HandleProcess: `JSON.parse` is the parameter `parse`. The lemmas that follow a real server stream assume, through `ReadsEvents`, that `parse` reads back each encoded event. `Client.ParseEvent` meets that assumption. It reads only the exact text the server writes; a general JSON parser (white space, other member orders, fractions and exponents) is not part of this model.
- Logging through `console.log`, `console.warn` and `console.error` is left out everywhere.
- server/index.js, server/src/app.ts and server/src/server.ts (Express wiring and a legacy handler) are not part of this model. Neither is the page markup of client/src/App.tsx after line 86.

## Findings

| source | as written | input that shows it | evidently intended | confidence | as-written member | corrected member |
|---|---|---|---|---|---|---|
| server/src/controllers/ScrapeController.ts:35-49 | `execute(links, format, slowScroll \|\| false, callback)`: `execute` (server/src/services/ScraperService.ts:38) takes three parameters, so its progress listener receives the boolean and the callback is dropped. The four-argument call is also a TypeScript arity error (TS2554): the behaviour described here is that of the JavaScript `tsc` emits by default, and a type-checking runner such as ts-node without transpile-only would refuse to start the server | Any accepted body, e.g. one link and no `slowScroll`: nothing is ever written and the body is empty. With `slowScroll: true`, calling `true` throws before the browser starts, and only the fatal object is written, without a line feed | The callback is the run's progress listener, so every event is streamed as one JSON line | not executed | Controller.AsWrittenStreamsNoLine | Controller.HandleStreamsEveryResult |
