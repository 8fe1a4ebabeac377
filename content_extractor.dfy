/** `extractPageContent` of backend/server.js (lines 27-43): launch a headless
    browser, open a page, navigate, read the body's text, and close the browser
    in a `finally` block. Each browser call is an outcome given by `BrowserEnv`;
    the method records the calls it makes. */
module ContentExtractor {
  import opened Runtime

  const ExtractionFallback := "Could not extract content from the webpage."

  /** How each browser call would end: `launch`, `newPage` and `goto` succeed
      or throw, `evaluate` yields the body's text or throws, and so can
      `close`. */
  datatype BrowserEnv = BrowserEnv(
    launchOk: bool,
    newPageOk: bool,
    gotoOk: bool,
    innerText: Completion<string>,
    closeOk: bool)

  /** The four calls of the `try` block, in order. */
  function Steps(url: string): (steps: seq<Effect>)
    ensures |steps| == 4 && Close !in steps
  {
    [Launch, NewPage, Goto(url), Evaluate]
  }

  /** How many calls of the `try` block are made: each call is made only when
      the one before it returned. */
  function Attempted(env: BrowserEnv): (n: nat)
    ensures 1 <= n <= 4
    ensures n == 4 <==> env.launchOk && env.newPageOk && env.gotoOk
  {
    if !env.launchOk then 1
    else if !env.newPageOk then 2
    else if !env.gotoOk then 3
    else 4
  }

  /** The `try` block ran to its `return content`. */
  predicate PageRead(env: BrowserEnv) {
    env.launchOk && env.newPageOk && env.gotoOk && env.innerText.Return?
  }

  /** The text the extraction settles on when nothing escapes it. */
  function PageText(env: BrowserEnv): string {
    if PageRead(env) then env.innerText.value else ExtractionFallback
  }

  /** The browser calls the extraction makes: the calls of the `try` block up to
      the first that throws, then `close` if the launch succeeded. */
  function ExtractionCalls(url: string, env: BrowserEnv): seq<Effect> {
    Steps(url)[..Attempted(env)] + (if env.launchOk then [Close] else [])
  }

  /** `extractPageContent(url)`. The result is the page's text, or the fallback
      sentence if any browser call failed; the browser is closed on every exit
      path once it was launched, as the last call and only once, and never when
      the launch failed. Only a failing `close` lets an exception escape, since
      the `finally` block sits outside the `catch`. */
  method ExtractPageContent(url: string, env: BrowserEnv) returns (result: Completion<string>, calls: seq<Effect>)
    ensures calls == ExtractionCalls(url, env)
    ensures Close in calls <==> env.launchOk
    ensures env.launchOk ==> calls[|calls| - 1] == Close && Count(calls, Close) == 1
    ensures result.Throw? <==> env.launchOk && !env.closeOk
    ensures result.Return? ==> result.value == PageText(env)
  {
    var launched := false;
    var threw := false;
    var content: string := "";
    calls := [Launch];
    if env.launchOk {
      launched := true;
      calls := calls + [NewPage];
      threw := !env.newPageOk;
    } else {
      threw := true;
    }
    if !threw {
      calls := calls + [Goto(url)];
      threw := !env.gotoOk;
    }
    if !threw {
      calls := calls + [Evaluate];
      match env.innerText {
        case Return(text) => content := text;
        case Throw => threw := true;
      }
    }
    // the value of the try block or of the catch block
    result := Return(if threw then ExtractionFallback else content);
    // finally: close what was launched; a throwing close overrides the result
    if launched {
      calls := calls + [Close];
      if !env.closeOk {
        result := Throw;
      }
    }
    CountCloseFree(Steps(url)[..Attempted(env)]);
  }

  lemma {:induction false} CountCloseFree(calls: seq<Effect>)
    requires Close !in calls
    ensures Count(calls + [Close], Close) == 1
  {
    if calls != [] {
      assert (calls + [Close])[1..] == calls[1..] + [Close];
      CountCloseFree(calls[1..]);
    } else {
      assert [Close][1..] == [];
    }
  }
}
