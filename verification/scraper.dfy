/** The `WebScraper` class of scraper/scraper.py: a lazily started browser
    handle, single-page and batch scraping over it, and its release. */
module Scraper {
  import opened Wrappers
  import opened Browser
  import opened Extraction

  const UserAgent := "Mozilla/5.0 (Windows NT 10.0; Win64; x64) AppleWebKit/537.36 (KHTML, like Gecko) Chrome/91.0.4472.124 Safari/537.36"

  /** The Chrome options `setup_driver` adds, in the order it adds them. */
  function LaunchArguments(headless: bool): seq<string> {
    (if headless then ["--headless"] else [])
    + ["--no-sandbox", "--disable-dev-shm-usage", "--disable-gpu",
       "--window-size=1920,1080", "--user-agent=" + UserAgent]
  }

  /** Headless mode is asked for exactly when the scraper is headless, and
      then first; the sandbox, shared-memory and GPU switches, the
      1920x1080 window and the fixed user agent are always passed, once each. */
  lemma LaunchArgumentsSpec(headless: bool)
    ensures "--headless" in LaunchArguments(headless) <==> headless
    ensures headless ==> LaunchArguments(headless)[0] == "--headless"
    ensures var args := LaunchArguments(headless);
      "--no-sandbox" in args && "--disable-dev-shm-usage" in args && "--disable-gpu" in args
      && "--window-size=1920,1080" in args && "--user-agent=" + UserAgent in args
    ensures |LaunchArguments(headless)| == if headless then 6 else 5
    ensures var args := LaunchArguments(headless);
      forall i, j :: 0 <= i < j < |args| ==> args[i] != args[j]
  {
  }

  class WebScraper {
    /** The WebDriver handle; None until a browser is started and after `close`. */
    var driver: Option<Session>
    const headless: bool
    /** The Chrome installation `setup_driver` starts, as found on this machine. */
    const chrome: seq<string> -> Launch
    /** The options `setup_driver` passes to Chrome; they depend on `headless`
        alone, which no method changes, so they are computed once. */
    const arguments: seq<string>
    /** How many browsers this scraper has started and not quit. */
    ghost var running: nat
    /** The number of `time.sleep` calls made so far. */
    ghost var pauses: nat

    /** A held handle is one of the running browsers. */
    ghost predicate Valid()
      reads this
    {
      driver.Some? ==> running > 0
    }

    /** What starting Chrome with this scraper's options yields. */
    function Launched(): Launch {
      chrome(arguments)
    }

    /** The browser the next `scrape_page` is served by: the held one, else
        the one a successful start would hand back; None when a start is
        needed and fails. */
    function Serving(): Option<Session>
      reads this
    {
      if driver.Some? then driver
      else match Launched()
        case Started(web) => Some(Session(web, []))
        case StartFailed(_) => None
    }

    constructor (chrome: seq<string> -> Launch, headless: bool := true)
      ensures Valid() && driver.None? && running == 0 && pauses == 0
      ensures this.headless == headless && this.chrome == chrome && arguments == LaunchArguments(headless)
    {
      arguments := LaunchArguments(headless);
      driver := None;
      this.headless := headless;
      this.chrome := chrome;
      running := 0;
      pauses := 0;
    }

    /** Start Chrome with `LaunchArguments(headless)` and hold the new
        handle; a failed start is raised and leaves the scraper as it was. A
        handle held before is replaced without being quit, so that browser
        keeps running with nothing left to quit it. */
    method SetupDriver() returns (r: Result<Session, string>)
      requires Valid()
      modifies this
      ensures Valid() && pauses == old(pauses)
      ensures Launched().StartFailed? ==>
        r == Failure(Launched().message) && driver == old(driver) && running == old(running)
      ensures Launched().Started? ==>
        r == Success(Session(Launched().web, [])) && driver == Some(r.value) && running == old(running) + 1
      ensures old(driver).Some? && r.Success? ==> running >= 2
    {
      match Launched()
      case StartFailed(message) =>
        r := Failure(message);
      case Started(web) =>
        driver := Some(Session(web, []));
        running := running + 1;
        r := Success(driver.value);
    }

    /** `scrape_page`: start a browser only if none is held, else reuse the
        held one; send it to `url` once and return the record of that visit.
        Only a failed start is raised; every failure of the visit itself
        becomes the record. */
    method ScrapePage(url: string, titleSelector: Option<string> := None, contentSelector: Option<string> := None)
      returns (r: Result<Record, string>)
      requires Valid()
      modifies this
      ensures Valid() && pauses == old(pauses)
      ensures r.Failure? <==> old(Serving()).None?
      ensures r.Failure? ==> r.error == Launched().message && driver == old(driver) && running == old(running)
      ensures r.Success? ==>
        r.value == Extract(url, old(Serving()).value.web(url), titleSelector, contentSelector)
        && driver == Some(old(Serving()).value.Get(url))
        && running == old(running) + if old(driver).None? then 1 else 0
    {
      if driver.None? {
        var setup := SetupDriver();
        if setup.Failure? {
          return Failure(setup.error);
        }
      }
      var visit := driver.value.web(url);
      driver := Some(driver.value.Get(url));
      r := Success(Extract(url, visit, titleSelector, contentSelector));
    }

    /** `scrape_multiple_pages`: one record per URL, in input order, each the
        record of that URL's own visit by one and the same browser, with a
        pause of `delay` after every URL, the last included, when `delay` is
        positive. A failed start of the browser, the only thing `scrape_page`
        raises, ends the batch at its first URL. */
    method ScrapeMultiplePages(urls: seq<string>, titleSelector: Option<string> := None,
                               contentSelector: Option<string> := None, delay: int := 1)
      returns (r: Result<seq<Record>, string>)
      requires Valid()
      modifies this
      ensures Valid()
      ensures r.Failure? <==> urls != [] && old(Serving()).None?
      ensures r.Failure? ==>
        r.error == Launched().message && driver == old(driver) && running == old(running) && pauses == old(pauses)
      ensures urls == [] ==>
        r == Success([]) && driver == old(driver) && running == old(running) && pauses == old(pauses)
      ensures r.Success? && urls != [] ==>
        r.value == Records(urls, |urls|, old(Serving()).value.web, titleSelector, contentSelector)
        && driver == Some(Session(old(Serving()).value.web, old(Serving()).value.history + urls))
        && running == old(running) + if old(driver).None? then 1 else 0
      ensures r.Success? ==> pauses == old(pauses) + if delay > 0 then |urls| else 0
    {
      ghost var driver0, running0, pauses0, serving := driver, running, pauses, Serving();
      var results: seq<Record> := [];
      var i := 0;
      while i < |urls|
        invariant 0 <= i <= |urls| && |results| == i
        invariant Valid()
        invariant i == 0 ==> driver == driver0 && running == running0
        invariant i > 0 ==>
          serving.Some? && driver == Some(Session(serving.value.web, serving.value.history + urls[..i]))
          && running == running0 + (if driver0.None? then 1 else 0)
        invariant i > 0 ==> results == Records(urls, i, serving.value.web, titleSelector, contentSelector)
        invariant pauses == pauses0 + if delay > 0 then i else 0
      {
        ghost var current := Serving();
        assert i == 0 ==> current == serving;
        var page := ScrapePage(urls[i], titleSelector, contentSelector);
        if page.Failure? {
          return Failure(page.error);
        }
        assert current.value == Session(serving.value.web, serving.value.history + urls[..i]) by {
          if i == 0 {
            assert serving.value.history + urls[..i] == serving.value.history;
          }
        }
        assert driver == Some(Session(serving.value.web, serving.value.history + urls[..i + 1])) by {
          assert urls[..i + 1] == urls[..i] + [urls[i]];
          assert serving.value.history + urls[..i] + [urls[i]] == serving.value.history + urls[..i + 1];
        }
        assert results + [page.value] == Records(urls, i + 1, serving.value.web, titleSelector, contentSelector) by {
          RecordsNext(urls, i, serving.value.web, titleSelector, contentSelector, page.value);
        }
        results := results + [page.value];
        if delay > 0 {
          pauses := pauses + 1;
        }
        i := i + 1;
      }
      assert urls[..i] == urls;
      r := Success(results);
    }

    /** `close`: quit the held browser, if any, and drop the handle; with no
        handle held it changes nothing, so closing twice is closing once. */
    method Close()
      requires Valid()
      modifies this
      ensures Valid() && driver.None? && pauses == old(pauses)
      ensures running == old(running) - if old(driver).Some? then 1 else 0
    {
      if driver.Some? {
        driver := None;
        running := running - 1;
      }
    }

    /** `__enter__`: start a browser unconditionally; a failed start is raised. */
    method Enter() returns (entered: Outcome)
      requires Valid()
      modifies this
      ensures Valid() && pauses == old(pauses)
      ensures Launched().StartFailed? ==>
        entered == Error(Launched().message) && driver == old(driver) && running == old(running)
      ensures Launched().Started? ==>
        entered == Ok && driver == Some(Session(Launched().web, [])) && running == old(running) + 1
    {
      var setup := SetupDriver();
      entered := if setup.Success? then Ok else Error(setup.error);
    }

    /** `__exit__`: always close; it returns None, so an exception raised in
        the `with` body is not suppressed. */
    method Exit()
      requires Valid()
      modifies this
      ensures Valid() && driver.None? && pauses == old(pauses)
      ensures running == old(running) - if old(driver).Some? then 1 else 0
    {
      Close();
    }
  }

  /** The records of the first `n` URLs of a batch over a browser that
      answers with `web`: one per URL, each made from that URL's own visit. */
  function Records(urls: seq<string>, n: nat, web: string -> Visit,
                   titleSelector: Option<string>, contentSelector: Option<string>): (records: seq<Record>)
    requires n <= |urls|
    ensures |records| == n
  {
    if n == 0 then []
    else Records(urls, n - 1, web, titleSelector, contentSelector)
         + [Extract(urls[n - 1], web(urls[n - 1]), titleSelector, contentSelector)]
  }

  /** Appending the next URL's record extends the batch by exactly that record. */
  lemma RecordsNext(urls: seq<string>, n: nat, web: string -> Visit,
                    titleSelector: Option<string>, contentSelector: Option<string>, record: Record)
    requires n < |urls| && record == Extract(urls[n], web(urls[n]), titleSelector, contentSelector)
    ensures Records(urls, n + 1, web, titleSelector, contentSelector)
         == Records(urls, n, web, titleSelector, contentSelector) + [record]
  {
  }

  /** The batch is order-preserving: record `k` is the record of the visit
      to URL `k`, and so carries that URL. */
  lemma {:induction false} RecordsAt(urls: seq<string>, n: nat, web: string -> Visit,
                                     titleSelector: Option<string>, contentSelector: Option<string>, k: nat)
    requires k < n <= |urls|
    ensures Records(urls, n, web, titleSelector, contentSelector)[k] == Extract(urls[k], web(urls[k]), titleSelector, contentSelector)
    ensures Records(urls, n, web, titleSelector, contentSelector)[k].url == urls[k]
  {
    if k < n - 1 {
      RecordsAt(urls, n - 1, web, titleSelector, contentSelector, k);
    }
  }

  /** A single page scraped inside `with WebScraper(headless) as scraper:`,
      as the web form and the management command do: the browser started on
      entry serves the visit and is quit on exit, so no browser outlives the
      block. A failed start is raised by `__enter__` and nothing is left running. */
  method ScrapeWith(chrome: seq<string> -> Launch, headless: bool, url: string,
                    titleSelector: Option<string>, contentSelector: Option<string>)
    returns (r: Result<Record, string>, scraper: WebScraper)
    ensures fresh(scraper) && scraper.Valid() && scraper.driver.None? && scraper.running == 0
    ensures chrome(LaunchArguments(headless)).StartFailed? ==>
      r == Failure(chrome(LaunchArguments(headless)).message)
    ensures chrome(LaunchArguments(headless)).Started? ==>
      r == Success(Extract(url, chrome(LaunchArguments(headless)).web(url), titleSelector, contentSelector))
  {
    scraper := new WebScraper(chrome, headless);
    var entered := scraper.Enter();
    if entered.Error? {
      return Failure(entered.message), scraper;
    }
    r := scraper.ScrapePage(url, titleSelector, contentSelector);
    scraper.Exit();
  }
}
