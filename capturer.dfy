/**
 * The browser session a capture run drives (server/src/providers/scraper/PuppeteerScraper.ts),
 * reduced to what orchestration observes: it is launched, asked to capture pages and closed.
 * What the browser does with a page is an input: `Rendered`, or `Failed` with the message
 * of the error it threw.
 */
module Capturer {
  import opened Wrappers

  datatype Format = Png | Webp | Pdf

  function Extension(format: Format): (ext: string)
    ensures |ext| >= 1 && '/' !in ext && '.' !in ext
  {
    match format
    case Png => "png"
    case Webp => "webp"
    case Pdf => "pdf"
  }

  datatype Outcome = Rendered | Failed(message: string)

  /** One call made on the session, in order. */
  datatype Call = Launch | Capture(url: string, outputPath: string, format: Format) | Shutdown

  const NotInitializedMessage := "Browser not initialized. Call init() first."

  class PageCapturer {
    /** Whether a browser is held (`this.browser !== null`). */
    var open: bool
    var calls: seq<Call>

    constructor ()
      ensures !open && calls == []
    {
      open := false;
      calls := [];
    }

    /** `init`: launching either succeeds or throws with `launchFailure`'s message, in which
        case the previous browser (if any) stays. */
    method Init(launchFailure: Option<string>) returns (failure: Option<string>)
      modifies this
      ensures failure == launchFailure
      ensures open == (old(open) || launchFailure.None?)
      ensures calls == old(calls) + [Launch]
    {
      calls := calls + [Launch];
      failure := launchFailure;
      if launchFailure.None? {
        open := true;
      }
    }

    /** `capturePage`: refused without a browser, otherwise what the browser did. */
    method CapturePage(url: string, outputPath: string, format: Format, rendering: Outcome)
      returns (outcome: Outcome)
      modifies this
      ensures outcome == if open then rendering else Failed(NotInitializedMessage)
      ensures open == old(open)
      ensures calls == old(calls) + [Capture(url, outputPath, format)]
    {
      calls := calls + [Capture(url, outputPath, format)];
      if !open {
        return Failed(NotInitializedMessage);
      }
      outcome := rendering;
    }

    /** `close`: releases the browser when there is one; a no-op otherwise. */
    method Close()
      modifies this
      ensures !open
      ensures calls == old(calls) + [Shutdown]
    {
      calls := calls + [Shutdown];
      open := false;
    }
  }
}
