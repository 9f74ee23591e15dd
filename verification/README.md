# WebScraper model

A Dafny model of the `WebScraper` class in `scraper/scraper.py`, the piece of
this Django project that drives a headless Chrome through Selenium and turns
web pages into `{url, title, content}` records. Everything around it (views,
forms, models, admin, URL routing and the `scrape_url` management command)
only calls into this class.

The model has five modules:

- `Wrappers`: `Option` for Python's `None`, and `Result` for an exception
  that the scraper lets propagate.
- `Text`: Python's `str.strip()` with no argument. Whitespace is what
  `str.isspace()` accepts.
- `Browser`: the boundary with Selenium and Chrome. The model does not
  implement Chrome or the web; it takes them as given:
  - Starting Chrome with a list of arguments either yields a running
    browser or fails with a message.
  - A running browser (`Session`) answers each URL with a `Visit`: the
    outcome of `driver.get`, the outcome of the wait for `<body>`, and the
    page loaded. A page has a title and a partial map from CSS selector to
    the text of the element it finds. A selector missing from the map is one
    whose `find_element` raises. The body text is the entry for `"body"`,
    because looking the body up by tag name finds the same element as the
    selector `"body"`.
- `Extraction`: the pure decision `scrape_page` makes once a driver exists:
  - which title (`TitleOf`) and which content (`ContentOf`) to take;
  - when the record is an error record (`VisitError`);
  - the record itself (`Extract`).
- `Scraper`:
  - the Chrome option list (`LaunchArguments`);
  - the `WebScraper` class, with a mutable `driver: Option<Session>` field,
    ghost counters for browsers left running (`running`) and for
    `time.sleep` calls (`pauses`), and one method per Python method;
  - `Records`, the specification of a batch;
  - `ScrapeWith`, the `with WebScraper(...) as scraper:` pattern its
    callers use.

## Model

| member | source | states |
|---|---|---|
| `Text.TrimStartSplits` | scraper/scraper.py:63 | Removing leading whitespace leaves a suffix of the text. What was cut is all whitespace, and the rest starts with non-whitespace. |
| `Text.TrimEndSplits` | scraper/scraper.py:75 | Removing trailing whitespace leaves a prefix of the text. What was cut is all whitespace, and the rest ends with non-whitespace. |
| `Text.StripSplits` | scraper/scraper.py:77 | `strip()` never lengthens a string. Its result neither starts nor ends with whitespace, and it is empty exactly when the input is all whitespace. |
| `Text.TrimStartPadded` | scraper/scraper.py:63 | A run of whitespace in front of a text that does not start with whitespace is exactly what the leading trim removes. |
| `Text.TrimEndPadded` | scraper/scraper.py:63 | A run of whitespace after a text that does not end with whitespace is exactly what the trailing trim removes. |
| `Text.StripUnique` | scraper/scraper.py:63 | If a string is whitespace + unpadded middle + whitespace, then `strip()` returns exactly that middle. |
| `Text.Strip` | scraper/scraper.py:63 | Python's `str.strip()`. It has no contract of its own; `StripSplits` and `StripUnique` characterise it completely. |
| `Extraction.TitleOf` | scraper/scraper.py:59-68 | The title `scrape_page` picks. No contract of its own; stated by `TitleRule` and `FallbacksDiffer`. |
| `Extraction.ContentOf` | scraper/scraper.py:70-80 | The content `scrape_page` picks. No contract of its own; stated by `ContentRule`, `ContentDefaultsToBody` and `FallbacksDiffer`. |
| `Extraction.VisitError` | scraper/scraper.py:50-56 | The exception the outer `try` catches: the navigation's first, else the body wait's. No contract of its own; stated by `ExtractRule`. |
| `Extraction.Extract` | scraper/scraper.py:50-94 | The record `scrape_page` returns once a driver exists. No contract of its own; stated by `ExtractRule`. |
| `Scraper.LaunchArguments` | scraper/scraper.py:20-29 | The Chrome options `setup_driver` adds, in order. No contract of its own; stated by `LaunchArgumentsSpec`. |
| `Scraper.WebScraper.Serving` | scraper/scraper.py:47-48 | The browser the next `scrape_page` uses: the held one, else a newly started one. No contract of its own; `ScrapePage` and `ScrapeMultiplePages` state their results through it. |
| `Extraction.TitleRule` | scraper/scraper.py:59-68 | A non-empty title selector that finds an element gives that element's text, stripped. A missing or empty selector gives the document title, and so does a selector whose lookup raises. |
| `Extraction.ContentRule` | scraper/scraper.py:70-80 | A non-empty content selector that finds an element gives that element's text, stripped. A missing or empty selector gives the body text, stripped. A failed lookup gives `""`. Content never begins or ends with whitespace. |
| `Extraction.ContentDefaultsToBody` | scraper/scraper.py:72-77 | With no content selector, the content is exactly what the selector `"body"` would give. This is the documented default at line 42. |
| `Extraction.ExtractRule` | scraper/scraper.py:50-94 | Every record carries the requested URL. A failed navigation or body wait gives title `""` and content `"Error: "` + message; the navigation error is reported before the wait error. Otherwise the record holds the title and content the two rules pick. |
| `Extraction.FallbacksDiffer` | scraper/scraper.py:59-80 | A selector whose lookup raises gives the same title as no selector. For content it gives `""`, even where no selector would have given the non-blank body text. |
| `Extraction.FailureLooksLikeContent` | scraper/scraper.py:88-94 | Page A is reached by a navigation that raised `m`. Page B loads successfully, with an empty title and a body reading `"Error: " + m`. Without selectors, both give the same record. |
| `Scraper.LaunchArgumentsSpec` | scraper/scraper.py:20-29 | `--headless` is passed exactly when the scraper is headless, and then first. `--no-sandbox`, `--disable-dev-shm-usage`, `--disable-gpu`, the 1920x1080 window and the fixed Chrome 91 user agent are always passed. No option is passed twice, so there are 6 or 5 options. |
| `Scraper.WebScraper.constructor` | scraper/scraper.py:14-16 | A new scraper holds no driver and has started no browser. Its options are those for its `headless` flag. |
| `Scraper.WebScraper.SetupDriver` | scraper/scraper.py:18-33 | On a failed start the error is raised and the state is unchanged. Otherwise the new browser, with an empty history, becomes the handle, and one more browser is running. A browser held before is not quit, so it is left running alongside the new one. |
| `Scraper.WebScraper.ScrapePage` | scraper/scraper.py:35-94 | Setup runs only when no driver is held; a held driver is reused. The only failure is a raised failed start, and it changes nothing. Otherwise the record is `Extract` of the serving browser's visit to `url`, and that browser's history grows by exactly `url`. |
| `Scraper.WebScraper.ScrapeMultiplePages` | scraper/scraper.py:96-119 | An empty batch changes nothing. Otherwise the batch fails only when the first URL needs a start that fails. On success, the result is `Records` of all URLs over one browser, which was sent to the URLs in order. There is one pause per URL when `delay > 0` and none otherwise. |
| `Scraper.Records` | scraper/scraper.py:109-113 | A batch over `n` URLs has exactly `n` records. |
| `Scraper.RecordsNext` | scraper/scraper.py:111-113 | Scraping the next URL appends exactly its record to the batch. |
| `Scraper.RecordsAt` | scraper/scraper.py:111-113 | Record `k` of a batch is the record of the visit to URL `k`, and carries URL `k`, so order is kept. A failed visit becomes a record and the loop goes on; that part is stated by `ScrapeMultiplePages`, whose only failure is a failed start at the first URL. |
| `Scraper.WebScraper.Close` | scraper/scraper.py:121-125 | Afterwards no driver is held. A held browser is quit. With none held nothing changes, so a second close is a no-op. |
| `Scraper.WebScraper.Enter` | scraper/scraper.py:127-130 | `__enter__` always starts a browser and holds it. A failed start is raised and changes nothing. |
| `Scraper.WebScraper.Exit` | scraper/scraper.py:132-134 | `__exit__` always closes: no driver is held afterwards, and the held browser, if any, is quit. |
| `Scraper.ScrapeWith` | scraper/management/commands/scrape_url.py:45-50 | Inside `with WebScraper(headless) as scraper:`, the page is the record of the started browser's visit, or the failed start's message. In both cases no browser is left running. |

## Left out

- The model takes Selenium, `ChromeDriverManager().install()`,
  `webdriver.Chrome`, CSS selector matching and the pages on the web as
  given. A start either succeeds or fails with a message, and a visit
  returns a fixed snapshot.
- The web is deterministic per browser: each URL always gives the same
  visit, whatever the browser visited before. So the model cannot show a
  failed or slow load affecting the next `driver.get`, and a URL repeated in
  a batch always gets the same record.
- A start's outcome is fixed for each scraper, because the Chrome
  installation is a constant of the scraper. After a failed start, every
  later start fails the same way. After `close`, a restart answers as the
  first start did.
- The docstring's "(default: 'title')" for the title selector (line 41) is
  not what the code does. With no selector, line 65 reads `driver.title`,
  the document title, not the text of a `<title>` element. The model follows
  the code. The content default "(default: 'body')" (line 42) does hold;
  `ContentDefaultsToBody` states it.
- `WebDriverWait(..., 10)` is only its outcome (ok or an exception
  message); the 10-second timeout is not modelled.
- `time.sleep(delay)` is the ghost counter `pauses`; the length of each
  pause is not recorded. `delay` is an integer in the model; Python would
  also accept a float.
- The `logger.warning` and `logger.error` calls are diagnostics and are
  left out.
- `driver.title` raising inside the title fallback (line 68) is left out:
  the document title is always readable. Reading `.text` of a found element
  never fails on its own.
- `driver.quit()` raising in `close` is left out.
- The Python falsy check `not self.driver` is taken as "no handle held". A
  WebDriver object is always truthy.
- Options are computed once, in the constructor: they depend only on
  `headless`, which no method changes.
- scraper/views.py, scraper/forms.py, scraper/models.py, scraper/admin.py,
  scraper/urls.py and the rest of the management command are not part of
  this model. They are Django request handling, persistence, routing and
  console I/O.
