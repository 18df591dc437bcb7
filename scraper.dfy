/**
 * The capture run (server/src/services/ScraperService.ts, `execute`): one browser session
 * per run, the links captured strictly in order, one result per link, a progress event
 * before the first capture and after each one, and the session closed on every exit.
 *
 * The clock, the date and the browser are inputs (`World`); the progress callback is the
 * sequence of events it receives.
 */
module Scraper {
  import opened Seqs
  import opened Wrappers
  import opened Text
  import Formatters
  import opened Capturer
  import opened FileTree

  datatype Status = Success | Error

  /** `ScrapeResult`; the fields are in the order the source first assigns them. */
  datatype ScrapeResult = ScrapeResult(
    url: string,
    status: Status,
    filename: Option<string>,
    localPath: Option<string>,
    publicPath: Option<string>,
    message: Option<string>,
    downloadUrl: Option<string>)

  datatype Phase = Processing | Completed

  /** `ProgressUpdate`: `result` is absent on the event sent before the first capture. */
  datatype ProgressUpdate = ProgressUpdate(
    current: nat,
    total: nat,
    percent: int,
    estimatedTime: int,
    lastUrl: string,
    status: Phase,
    result: Option<ScrapeResult>)

  /** What the outside world does while link i is captured: `Date.now()` when the file name
      is made, what the browser does with the page, `Date.now()` after the capture. */
  datatype Step = Step(stamp: int, rendering: Outcome, finishedAt: int)

  /** Everything else a run reads from outside: today's date (day of month, zero-based
      month), `Date.now()` at the start, whether launching the browser throws, and one
      step per link. */
  datatype World = World(day: nat, monthIndex: nat, startTime: int, launchFailure: Option<string>, steps: seq<Step>)

  /** The third argument of `execute`, as JavaScript sees it: absent (or falsy), a function,
      or a truthy value that is not a function (calling it throws a TypeError). */
  datatype Listener = NoListener | Callback | NotAFunction

  /** `execute` returns the results or throws. */
  datatype RunOutcome = Finished(results: seq<ScrapeResult>) | Fatal(message: string)

  /** Everything a run is observed to do: its outcome, the events its callback received,
      and the calls made on the browser session. */
  datatype Run = Run(outcome: RunOutcome, events: seq<ProgressUpdate>, calls: seq<Call>)

  const NotAFunctionMessage := "onProgress is not a function"

  /** `Math.round(k / n * 100)` in exact arithmetic: the integer nearest to 100k/n, a half
      rounded up (p - 1/2 <= 100k/n < p + 1/2). */
  function Percent(k: nat, n: nat): (p: int)
    requires n > 0
    ensures 2 * n * p - n <= 200 * k < 2 * n * p + n
  {
    var d := 2 * n;
    var p := (200 * k + n) / d;
    assert d * p <= 200 * k + n < d * p + d;
    p
  }

  /** `Math.ceil(elapsed / k * (n - k) / 1000)` in exact arithmetic: the least integer s
      with 1000·k·s >= elapsed·(n - k), i.e. the running average per link times the links
      left, in whole seconds rounded up. */
  function EstimatedSeconds(elapsed: int, k: nat, n: nat): (s: int)
    requires k > 0
    ensures 1000 * k * (s - 1) < elapsed * (n - k) <= 1000 * k * s
  {
    var a := elapsed * (n - k);
    var d := 1000 * k;
    var s := (a + d - 1) / d;
    assert d * s <= a + d - 1 < d * s + d;
    assert d * (s - 1) == d * s - d;
    s
  }

  /** The artifact's file name: sanitized URL, `_`, the timestamp, `.`, the extension. */
  function FileName(link: string, stamp: int, format: Format): string {
    Formatters.SanitizeFilename(link) + "_" + IntToString(stamp) + "." + Extension(format)
  }

  /** `path.join(targetDir, filename)` where `targetDir` is `path.join(root, dateFolder)`. */
  function LocalPath(root: string, folder: string, filename: string): string {
    root + "/" + folder + "/" + filename
  }

  /** The path under which the artifact is served. */
  function PublicPath(folder: string, filename: string): string {
    "/downloads/" + folder + "/" + filename
  }

  /** The result recorded for one link. */
  function ResultFor(link: string, format: Format, root: string, folder: string, step: Step): ScrapeResult {
    var filename := FileName(link, step.stamp, format);
    match step.rendering
    case Rendered =>
      ScrapeResult(link, Success, Some(filename), Some(LocalPath(root, folder, filename)),
        Some(PublicPath(folder, filename)), None, None)
    case Failed(m) =>
      ScrapeResult(link, Error, None, None, None, Some(m), None)
  }

  function DayFolder(world: World): string {
    Formatters.DateFolder(world.day, world.monthIndex)
  }

  /** The result of each link, in link order, for captures written under `root/folder`. */
  function Results(links: seq<string>, format: Format, root: string, folder: string, world: World): (rs: seq<ScrapeResult>)
    requires |world.steps| == |links|
    ensures |rs| == |links|
  {
    seq(|links|, i requires 0 <= i < |links| => ResultFor(links[i], format, root, folder, world.steps[i]))
  }

  /** The event sent before the first capture. */
  function InitialEvent(n: nat): ProgressUpdate {
    ProgressUpdate(0, n, 0, 0, "", Processing, None)
  }

  /** The event sent after link i, carrying its result. */
  function EventAfter(links: seq<string>, i: nat, result: ScrapeResult, world: World): ProgressUpdate
    requires i < |links| == |world.steps|
  {
    var k := i + 1;
    var n := |links|;
    ProgressUpdate(k, n, Percent(k, n),
      EstimatedSeconds(world.steps[i].finishedAt - world.startTime, k, n),
      links[i], if k == n then Completed else Processing, Some(result))
  }

  /** The events sent after each link, in link order. */
  function LinkEvents(links: seq<string>, format: Format, root: string, folder: string, world: World): (es: seq<ProgressUpdate>)
    requires |world.steps| == |links|
    ensures |es| == |links|
  {
    var rs := Results(links, format, root, folder, world);
    seq(|links|, i requires 0 <= i < |links| => EventAfter(links, i, rs[i], world))
  }

  function Events(links: seq<string>, format: Format, root: string, folder: string, world: World): (es: seq<ProgressUpdate>)
    requires |world.steps| == |links|
    ensures |es| == |links| + 1
  {
    [InitialEvent(|links|)] + LinkEvents(links, format, root, folder, world)
  }

  /** The browser call that captures one link. */
  function CaptureCall(link: string, format: Format, root: string, folder: string, step: Step): Call {
    Capture(link, LocalPath(root, folder, FileName(link, step.stamp, format)), format)
  }

  function Captures(links: seq<string>, format: Format, root: string, folder: string, world: World): (cs: seq<Call>)
    requires |world.steps| == |links|
    ensures |cs| == |links|
  {
    seq(|links|, i requires 0 <= i < |links| => CaptureCall(links[i], format, root, folder, world.steps[i]))
  }

  /** The file a rendered capture leaves in the day folder: named as its result says, last
      modified when the capture finished. */
  function Artifact(link: string, format: Format, step: Step): FileEntry {
    FileEntry(FileName(link, step.stamp, format), step.finishedAt)
  }

  /** What each capture writes: the artifact of a rendered page, nothing otherwise. */
  function Writes(links: seq<string>, steps: seq<Step>, format: Format): (ws: seq<Option<FileEntry>>)
    requires |steps| == |links|
    ensures |ws| == |links|
  {
    seq(|links|, j requires 0 <= j < |links| =>
      if steps[j].rendering == Rendered then Some(Artifact(links[j], format, steps[j])) else None)
  }

  /** The tree after the captures of `links` have run in order, each rendered page written
      into `folder`. */
  function Written(root: Option<seq<Entry>>, folder: string, links: seq<string>, steps: seq<Step>, format: Format)
    : Option<seq<Entry>>
    requires |steps| == |links|
  {
    StoreAll(root, folder, Writes(links, steps, format))
  }

  /** The downloads tree after a run: the day folder is made, and when the loop runs every
      rendered page is written into it. */
  function ExpectedTree(root: Option<seq<Entry>>, links: seq<string>, format: Format, listener: Listener,
                        folder: string, world: World): Option<seq<Entry>>
    requires |world.steps| == |links|
  {
    var made := WithFolder(root, folder);
    if listener == NotAFunction || world.launchFailure.Some? then made
    else Written(made, folder, links, world.steps, format)
  }

  /** What a listener receives of a sequence of notifications. */
  function Delivered(listener: Listener, events: seq<ProgressUpdate>): seq<ProgressUpdate> {
    if listener == Callback then events else []
  }

  /** What `execute` does, as a function of its inputs, when it writes under `root/folder`. */
  function Expected(links: seq<string>, format: Format, listener: Listener, root: string, folder: string, world: World): Run
    requires |world.steps| == |links|
  {
    if listener == NotAFunction then
      Run(Fatal(NotAFunctionMessage), [], [Shutdown])
    else if world.launchFailure.Some? then
      Run(Fatal(world.launchFailure.value), Delivered(listener, [InitialEvent(|links|)]), [Launch, Shutdown])
    else
      Run(Finished(Results(links, format, root, folder, world)), Delivered(listener, Events(links, format, root, folder, world)),
        [Launch] + Captures(links, format, root, folder, world) + [Shutdown])
  }

  lemma MulLe(m: int, a: int, b: int)
    requires m >= 0 && a <= b
    ensures m * a <= m * b
  {
    assert m * b - m * a == m * (b - a);
  }

  lemma CancelLe(m: int, a: int, b: int)
    requires m > 0 && m * a <= m * b
    ensures a <= b
  {
    if a > b {
      MulLe(m, b + 1, a);
    }
  }

  lemma CancelLt(m: int, a: int, b: int)
    requires m > 0 && m * a < m * b
    ensures a < b
  {
    if a >= b {
      MulLe(m, b, a);
    }
  }

  /** The percentage stays within 0..100: 0 before any link, 100 after the last. */
  lemma PercentBounds(k: nat, n: nat)
    requires 0 < n && k <= n
    ensures 0 <= Percent(k, n) <= 100
    ensures k == 0 ==> Percent(k, n) == 0
    ensures k == n ==> Percent(k, n) == 100
  {
    var p := Percent(k, n);
    assert n * (2 * p - 1) <= 200 * k < n * (2 * p + 1);
    MulLe(200, k, n);
    CancelLt(n, 0, 2 * p + 1);
    CancelLe(n, 2 * p - 1, 200);
    if k == 0 {
      CancelLe(n, 2 * p - 1, 0);
    }
    if k == n {
      CancelLt(n, 200, 2 * p + 1);
    }
  }

  /** More links done never shows a smaller percentage. */
  lemma PercentMonotone(k1: nat, k2: nat, n: nat)
    requires 0 < n && k1 <= k2
    ensures Percent(k1, n) <= Percent(k2, n)
  {
    var p1, p2 := Percent(k1, n), Percent(k2, n);
    assert n * (2 * p1 - 1) <= 200 * k1 <= 200 * k2 < n * (2 * p2 + 1);
    CancelLt(n, 2 * p1 - 1, 2 * p2 + 1);
  }

  /** With a clock that does not run backwards the estimate is never negative, and after
      the last link it is zero. */
  lemma EstimateBounds(elapsed: int, k: nat, n: nat)
    requires 0 < k <= n && elapsed >= 0
    ensures EstimatedSeconds(elapsed, k, n) >= 0
    ensures k == n ==> EstimatedSeconds(elapsed, k, n) == 0
  {
    var s := EstimatedSeconds(elapsed, k, n);
    var m := 1000 * k;
    MulLe(elapsed, 0, n - k);
    assert m * 0 <= elapsed * (n - k) <= m * s;
    CancelLe(m, 0, s);
    if k == n {
      assert m * (s - 1) < m * 0;
      CancelLt(m, s - 1, 0);
    }
  }

  /** The file name is a stem free of `/` and `.`, one dot, and the extension; joined to
      the day folder it names a file directly inside that folder. */
  lemma FileNameShape(link: string, stamp: int, format: Format)
    ensures var stem := Formatters.SanitizeFilename(link) + "_" + IntToString(stamp);
      && FileName(link, stamp, format) == stem + "." + Extension(format)
      && '/' !in stem && '.' !in stem
      && '/' !in FileName(link, stamp, format)
  {
    var san := Formatters.SanitizeFilename(link);
    var num := IntToString(stamp);
    Formatters.SanitizedHasNoSeparators(link);
    IntToStringDigits(stamp);
    var stem := san + "_" + num;
    forall c | c in stem ensures c != '/' && c != '.' {
      var i :| 0 <= i < |stem| && stem[i] == c;
      if i < |san| {
        assert c == san[i];
      } else if i > |san| {
        assert c == num[i - |san| - 1];
      }
    }
    var f := FileName(link, stamp, format);
    var ext := Extension(format);
    assert f == stem + "." + ext;
    forall i | 0 <= i < |f| ensures f[i] != '/' {
      if i < |stem| {
        assert f[i] == stem[i];
      } else if i > |stem| {
        assert f[i] == ext[i - |stem| - 1];
      }
    }
  }

  /** Two captures of the same URL in the same format at different timestamps get different
      file names. */
  lemma FileNameUnique(link: string, stamp1: int, stamp2: int, format: Format)
    requires FileName(link, stamp1, format) == FileName(link, stamp2, format)
    ensures stamp1 == stamp2
  {
    var san := Formatters.SanitizeFilename(link);
    var ext := Extension(format);
    var n1, n2 := IntToString(stamp1), IntToString(stamp2);
    var f := FileName(link, stamp1, format);
    assert |n1| == |n2|;
    var lo := |san| + 1;
    assert f[lo..lo + |n1|] == n1;
    assert FileName(link, stamp2, format)[lo..lo + |n2|] == n2;
    IntToStringInjective(stamp1, stamp2);
  }

  /** One result per link, in order: result i is about link i, is a success exactly when
      the browser rendered the page, and then carries the file name and the two paths;
      otherwise it carries the browser's message and no path. `downloadUrl` is never set
      here. */
  lemma ResultsShape(links: seq<string>, format: Format, root: string, folder: string, world: World)
    requires |world.steps| == |links|
    ensures var rs := Results(links, format, root, folder, world);
      |rs| == |links| &&
      forall i :: 0 <= i < |links| ==>
        var r := rs[i];
        var name := FileName(links[i], world.steps[i].stamp, format);
        && r.url == links[i]
        && r.downloadUrl == None
        && (r.status == Success <==> world.steps[i].rendering == Rendered)
        && (r.status == Success ==>
              r.filename == Some(name) && r.message == None
              && r.localPath == Some(root + "/" + folder + "/" + name)
              && r.publicPath == Some("/downloads/" + folder + "/" + name))
        && (r.status == Error ==>
              r.message == Some(world.steps[i].rendering.message)
              && r.filename == None && r.localPath == None && r.publicPath == None)
  {
  }

  /** A failing capture is contained: changing what happens to one link changes no other
      link's result. */
  lemma FailureContained(links: seq<string>, format: Format, root: string, folder: string,
                         w1: World, w2: World, j: nat)
    requires |w1.steps| == |links| == |w2.steps| && j < |links|
    requires forall i :: 0 <= i < |links| && i != j ==> w1.steps[i] == w2.steps[i]
    ensures forall i :: 0 <= i < |links| && i != j ==>
      Results(links, format, root, folder, w1)[i] == Results(links, format, root, folder, w2)[i]
  {
  }

  /** The events of a run: the start event, then one event per link carrying its result,
      with `current` counting the links done and only the very last event `completed`. */
  lemma EventsShape(links: seq<string>, format: Format, root: string, folder: string, world: World)
    requires |world.steps| == |links|
    ensures var es := Events(links, format, root, folder, world);
      var rs := Results(links, format, root, folder, world);
      && es[0] == ProgressUpdate(0, |links|, 0, 0, "", Processing, None)
      && (forall j :: 0 <= j < |es| ==> es[j].current == j && es[j].total == |links|)
      && (forall j :: 1 <= j < |es| ==> es[j].lastUrl == links[j - 1] && es[j].result == Some(rs[j - 1]))
      && (forall j :: 0 <= j < |es| ==> (es[j].status == Completed <==> 0 < j == |links|))
  {
    var es := Events(links, format, root, folder, world);
    var le := LinkEvents(links, format, root, folder, world);
    assert forall j :: 1 <= j < |es| ==> es[j] == le[j - 1];
  }

  /** Across the events of a run the percentage starts at 0, never decreases, stays within
      0..100 and reaches 100 on the last event. */
  lemma {:induction false} PercentProgress(links: seq<string>, format: Format, root: string, folder: string, world: World)
    requires |world.steps| == |links| > 0
    ensures var es := Events(links, format, root, folder, world);
      && (forall j :: 0 <= j < |es| ==> 0 <= es[j].percent <= 100)
      && (forall j1, j2 :: 0 <= j1 <= j2 < |es| ==> es[j1].percent <= es[j2].percent)
      && es[|links|].percent == 100
  {
    var es := Events(links, format, root, folder, world);
    var n := |links|;
    assert forall j :: 0 <= j < |es| ==> es[j].percent == Percent(j, n) by {
      PercentBounds(0, n);
      var le := LinkEvents(links, format, root, folder, world);
      assert forall j :: 1 <= j < |es| ==> es[j] == le[j - 1];
    }
    forall j | 0 <= j < |es| ensures 0 <= es[j].percent <= 100 {
      PercentBounds(j, n);
    }
    forall j1, j2 | 0 <= j1 <= j2 < |es| ensures es[j1].percent <= es[j2].percent {
      PercentMonotone(j1, j2, n);
    }
    PercentBounds(n, n);
  }

  /** With a clock that does not run backwards every estimate is at least zero, and the
      estimate on the last event is zero. */
  lemma EstimateProgress(links: seq<string>, format: Format, root: string, folder: string, world: World)
    requires |world.steps| == |links| > 0
    requires forall i :: 0 <= i < |links| ==> world.steps[i].finishedAt >= world.startTime
    ensures var es := Events(links, format, root, folder, world);
      && (forall j :: 0 <= j < |es| ==> es[j].estimatedTime >= 0)
      && es[|links|].estimatedTime == 0
  {
    var es := Events(links, format, root, folder, world);
    var le := LinkEvents(links, format, root, folder, world);
    var n := |links|;
    forall j | 1 <= j < |es| ensures es[j].estimatedTime >= 0 && (j == n ==> es[j].estimatedTime == 0) {
      assert es[j] == le[j - 1];
      EstimateBounds(world.steps[j - 1].finishedAt - world.startTime, j, n);
    }
  }

  /** The browser session is closed on every path, exactly once and as the last call; it
      is launched at most once, first; a launch failure is reported after the close. */
  lemma CloseOnEveryPath(links: seq<string>, format: Format, listener: Listener, root: string, folder: string, world: World)
    requires |world.steps| == |links|
    ensures var run := Expected(links, format, listener, root, folder, world);
      && |run.calls| >= 1 && run.calls[|run.calls| - 1] == Shutdown
      && (forall i :: 0 <= i < |run.calls| - 1 ==> run.calls[i] != Shutdown)
      && (forall i :: 0 < i < |run.calls| ==> run.calls[i] != Launch)
      && (listener != NotAFunction && world.launchFailure.Some? ==>
            run.outcome == Fatal(world.launchFailure.value) && run.calls == [Launch, Shutdown])
  {
    var run := Expected(links, format, listener, root, folder, world);
    if listener != NotAFunction && world.launchFailure.None? {
      var cs := Captures(links, format, root, folder, world);
      assert run.calls == [Launch] + cs + [Shutdown];
      forall i | 0 < i < |run.calls| - 1 ensures run.calls[i].Capture? {
        assert run.calls[i] == cs[i - 1];
      }
    }
  }

  /** What the loop's iteration i adds to each of the run's records. */
  lemma CaptureStep(links: seq<string>, format: Format, listener: Listener, root: string, folder: string, world: World,
                    i: nat)
    requires |world.steps| == |links| && i < |links|
    ensures var result := ResultFor(links[i], format, root, folder, world.steps[i]);
      && Results(links, format, root, folder, world)[..i + 1] == Results(links, format, root, folder, world)[..i] + [result]
      && Captures(links, format, root, folder, world)[..i + 1]
         == Captures(links, format, root, folder, world)[..i] + [CaptureCall(links[i], format, root, folder, world.steps[i])]
      && Delivered(listener, LinkEvents(links, format, root, folder, world)[..i + 1])
         == Delivered(listener, LinkEvents(links, format, root, folder, world)[..i])
            + (if listener == Callback then [EventAfter(links, i, result, world)] else [])
      && Writes(links, world.steps, format)[i]
         == if world.steps[i].rendering == Rendered then Some(Artifact(links[i], format, world.steps[i])) else None
  {
    PrefixSnoc(Results(links, format, root, folder, world), i);
    PrefixSnoc(Captures(links, format, root, folder, world), i);
    PrefixSnoc(LinkEvents(links, format, root, folder, world), i);
  }

  /** Capture i succeeded and no later successful capture wrote a file of the same name. */
  predicate LastOfName(links: seq<string>, steps: seq<Step>, format: Format, i: nat)
    requires |steps| == |links| && i < |links|
  {
    && steps[i].rendering == Rendered
    && forall j :: i < j < |links| && steps[j].rendering == Rendered ==>
         FileName(links[j], steps[j].stamp, format) != FileName(links[i], steps[i].stamp, format)
  }

  lemma LastOfNameWrite(links: seq<string>, steps: seq<Step>, format: Format, i: nat)
    requires |steps| == |links| && i < |links| && LastOfName(links, steps, format, i)
    ensures var ws := Writes(links, steps, format);
      ws[i] == Some(Artifact(links[i], format, steps[i])) && LastWrite(ws, i)
  {
  }

  /** The downloads tree after a run: when no top-level plain file takes the day folder's
      name, the folder exists afterwards and, when the loop ran, holds the file of every
      successful capture (the last one written under each name); every other top-level
      entry is as before. */
  lemma RunTree(links: seq<string>, format: Format, listener: Listener, root: Option<seq<Entry>>, folder: string,
                world: World)
    requires |world.steps| == |links|
    requires root.Some? ==> forall i :: 0 <= i < |root.value| && root.value[i].name == folder ==> root.value[i].Folder?
    ensures var tree := ExpectedTree(root, links, format, listener, folder, world);
      && HasFolder(tree, folder)
      && (root.Some? ==>
            && |tree.value| >= |root.value|
            && forall i :: 0 <= i < |root.value| && root.value[i].name != folder ==> tree.value[i] == root.value[i])
      && (listener != NotAFunction && world.launchFailure.None? ==>
            forall i :: 0 <= i < |links| && LastOfName(links, world.steps, format, i) ==>
              Holds(tree, folder, Artifact(links[i], format, world.steps[i])))
  {
    var made := WithFolder(root, folder);
    var k :| 0 <= k < |made.value| && made.value[k].name == folder;
    if root.Some? && k < |root.value| {
      assert made.value[k] == root.value[k];
    }
    assert HasFolder(made, folder);
    StoreAllElsewhere(made, folder, Writes(links, world.steps, format));
    if listener != NotAFunction && world.launchFailure.None? {
      forall i | 0 <= i < |links| && LastOfName(links, world.steps, format, i)
        ensures Holds(ExpectedTree(root, links, format, listener, folder, world), folder, Artifact(links[i], format, world.steps[i]))
      {
        LastOfNameWrite(links, world.steps, format, i);
        StoreAllHolds(made, folder, Writes(links, world.steps, format), i);
      }
    }
  }

  class ScraperService {
    const downloads: Downloads

    constructor (downloads: Downloads)
      ensures this.downloads == downloads
    {
      this.downloads := downloads;
    }

    /** `execute(links, format, onProgress)`. The day folder is created when missing, the
        session is closed on every path, and the run is the one `Expected` describes. */
    method Execute(links: seq<string>, format: Format, onProgress: Listener, world: World)
      returns (outcome: RunOutcome, events: seq<ProgressUpdate>, capturer: PageCapturer)
      requires |world.steps| == |links|
      modifies downloads
      ensures downloads.root == ExpectedTree(old(downloads.root), links, format, onProgress, DayFolder(world), world)
      ensures fresh(capturer) && !capturer.open
      ensures Run(outcome, events, capturer.calls) == Expected(links, format, onProgress, downloads.path, DayFolder(world), world)
    {
      var dateFolder := Formatters.DateFolder(world.day, world.monthIndex);
      downloads.EnsureFolder(dateFolder);
      outcome, events, capturer := RunSession(links, format, onProgress, world, downloads.path, dateFolder);
    }

    /** Everything `execute` does after the day folder exists: the start notification, the
        browser launch, the loop, and `close` in the `finally` block. */
    method RunSession(links: seq<string>, format: Format, onProgress: Listener, world: World,
                      root: string, dateFolder: string)
      returns (outcome: RunOutcome, events: seq<ProgressUpdate>, capturer: PageCapturer)
      requires |world.steps| == |links|
      modifies downloads
      ensures downloads.root == if onProgress == NotAFunction || world.launchFailure.Some? then old(downloads.root)
                                else Written(old(downloads.root), dateFolder, links, world.steps, format)
      ensures fresh(capturer) && !capturer.open
      ensures Run(outcome, events, capturer.calls) == Expected(links, format, onProgress, root, dateFolder, world)
    {
      capturer := new PageCapturer();
      var n := |links|;
      events := [];

      // the start notification; calling a non-function throws before the browser starts
      if onProgress == NotAFunction {
        capturer.Close();
        return Fatal(NotAFunctionMessage), events, capturer;
      }
      if onProgress == Callback {
        events := events + [InitialEvent(n)];
      }

      var failure := capturer.Init(world.launchFailure);
      assert capturer.calls == [Launch];
      if failure.Some? {
        capturer.Close();
        return Fatal(failure.value), events, capturer;
      }

      var results;
      var emitted;
      results, emitted := CaptureAll(capturer, links, format, onProgress, world, root, dateFolder);
      events := events + emitted;
      assert events == Delivered(onProgress, Events(links, format, root, dateFolder, world));
      capturer.Close();
      outcome := Finished(results);
    }

    /** The loop over the links: capture each in order, record its result and notify. */
    method CaptureAll(capturer: PageCapturer, links: seq<string>, format: Format, onProgress: Listener,
                      world: World, root: string, dateFolder: string)
      returns (results: seq<ScrapeResult>, emitted: seq<ProgressUpdate>)
      requires capturer.open && |world.steps| == |links|
      requires onProgress != NotAFunction
      modifies capturer, downloads
      ensures capturer.open
      ensures downloads.root == Written(old(downloads.root), dateFolder, links, world.steps, format)
      ensures results == Results(links, format, root, dateFolder, world)
      ensures capturer.calls == old(capturer.calls) + Captures(links, format, root, dateFolder, world)
      ensures emitted == Delivered(onProgress, LinkEvents(links, format, root, dateFolder, world))
    {
      results, emitted := [], [];
      ghost var before := capturer.calls;
      ghost var expected := Results(links, format, root, dateFolder, world);
      ghost var captures := Captures(links, format, root, dateFolder, world);
      ghost var events := LinkEvents(links, format, root, dateFolder, world);
      ghost var tree := downloads.root;
      ghost var writes := Writes(links, world.steps, format);
      var n := |links|;
      var i := 0;
      while i < n
        invariant 0 <= i <= n
        invariant capturer.open
        invariant downloads.root == StoreAll(tree, dateFolder, writes[..i])
        invariant results == expected[..i]
        invariant capturer.calls == before + captures[..i]
        invariant emitted == Delivered(onProgress, events[..i])
      {
        var link := links[i];
        var result := CaptureOne(capturer, link, format, root, dateFolder, world.steps[i]);
        StoreAllStep(tree, dateFolder, writes, i);
        CaptureStep(links, format, onProgress, root, dateFolder, world, i);
        Assoc(before, captures[..i], [CaptureCall(link, format, root, dateFolder, world.steps[i])]);
        results := results + [result];
        if onProgress == Callback {
          emitted := emitted + [EventAfter(links, i, result, world)];
        }
        i := i + 1;
      }
      assert expected[..n] == expected && captures[..n] == captures && events[..n] == events;
      assert writes[..n] == writes;
    }

    /** One iteration's capture: the file name from the URL and the timestamp, then the
        session's verdict turned into the result record. */
    method CaptureOne(capturer: PageCapturer, link: string, format: Format, root: string, dateFolder: string, step: Step)
      returns (result: ScrapeResult)
      requires capturer.open
      modifies capturer, downloads
      ensures capturer.open
      ensures downloads.root == if step.rendering == Rendered then Store(old(downloads.root), dateFolder, Artifact(link, format, step))
                                else old(downloads.root)
      ensures capturer.calls == old(capturer.calls) + [CaptureCall(link, format, root, dateFolder, step)]
      ensures result == ResultFor(link, format, root, dateFolder, step)
    {
      var filename := FileName(link, step.stamp, format);
      var filePath := root + "/" + dateFolder + "/" + filename;
      result := ScrapeResult(link, Error, None, None, None, None, None);
      var got := capturer.CapturePage(link, filePath, format, step.rendering);
      match got {
        case Rendered =>
          // the browser wrote the page at `filePath`
          downloads.Put(dateFolder, FileEntry(filename, step.finishedAt));
          result := result.(status := Success, filename := Some(filename), localPath := Some(filePath),
            publicPath := Some(PublicPath(dateFolder, filename)));
        case Failed(m) =>
          result := result.(message := Some(m));
      }
    }
  }
}
