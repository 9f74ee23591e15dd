/** The browser-automation boundary the scraper talks to. Selenium, the
    Chrome executable and the pages on the web are not modelled: a launch is
    answered by an opaque outcome, and a visit to a URL by a snapshot of what
    the browser reports. */
module Browser {
  import opened Wrappers

  /** Whether one driver call went through, or the message of the exception
      it raised. */
  datatype Outcome = Ok | Error(message: string)

  /** What the loaded document offers to the scraper: its title, and the
      text of the first element matching each CSS selector that matches one
      (a selector absent from the map is one whose lookup raises). The body
      element is the one the selector "body" finds, which is also what
      `find_element(By.TAG_NAME, "body")` finds. */
  datatype Page = Page(title: string, elements: map<string, string>) {
    /** `find_element(By.CSS_SELECTOR, selector).text`, or None when it raises. */
    function Find(selector: string): Option<string> {
      if selector in elements then Some(elements[selector]) else None
    }

    /** `find_element(By.TAG_NAME, "body").text`, or None when it raises. */
    function Body(): Option<string> {
      Find("body")
    }
  }

  /** What one visit to a URL yields: the outcome of `driver.get(url)`, the
      outcome of waiting for the body element, and the document loaded. */
  datatype Visit = Visit(navigation: Outcome, ready: Outcome, page: Page)

  /** What starting Chrome with a list of command-line arguments yields: a
      running browser, which answers every URL with a visit, or the message
      of the exception raised by the driver manager or by `webdriver.Chrome`. */
  datatype Launch = Started(web: string -> Visit) | StartFailed(message: string)

  /** One running browser as the scraper's WebDriver handle sees it: how the
      web answers it, and the URLs it has been sent to, oldest first. */
  datatype Session = Session(web: string -> Visit, history: seq<string>) {
    /** `driver.get(url)` followed by the wait for the body element: the
        browser is sent to `url`, whatever the outcome. */
    function Get(url: string): Session {
      Session(web, history + [url])
    }
  }
}
