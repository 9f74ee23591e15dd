/** What `WebScraper.scrape_page` makes of one visit (scraper/scraper.py,
    lines 50-94): a total decision over the browser's answer, so that a
    failing page becomes a record and never an exception. */
module Extraction {
  import opened Wrappers
  import opened Text
  import opened Browser

  /** The dictionary `scrape_page` returns. */
  datatype Record = Record(url: string, title: string, content: string)

  /** Python truthiness of an optional selector: None and "" are both false. */
  predicate Given(selector: Option<string>) {
    selector.Some? && selector.value != ""
  }

  /** Whether a given selector's lookup succeeds on `page`. */
  predicate Matches(page: Page, selector: Option<string>) {
    Given(selector) && selector.value in page.elements
  }

  /** The title `scrape_page` picks: the stripped text of the element a
      given selector finds; the document title when no selector is given or
      when the lookup raises. */
  function TitleOf(page: Page, selector: Option<string>): string {
    if !Given(selector) then page.title
    else match page.Find(selector.value)
      case Some(text) => Strip(text)
      case None => page.title
  }

  /** The content `scrape_page` picks: the stripped text of the element a
      given selector finds, or of the body when no selector is given; "" when
      the lookup raises. */
  function ContentOf(page: Page, selector: Option<string>): string {
    var found := if Given(selector) then page.Find(selector.value) else page.Body();
    match found
    case Some(text) => Strip(text)
    case None => ""
  }

  /** The message of the exception the outer `try` of `scrape_page` catches:
      the navigation's, or else the body wait's; None when both went through. */
  function VisitError(visit: Visit): Option<string> {
    if visit.navigation.Error? then Some(visit.navigation.message)
    else if visit.ready.Error? then Some(visit.ready.message)
    else None
  }

  /** The record `scrape_page` returns for `url` once a driver exists. */
  function Extract(url: string, visit: Visit, titleSelector: Option<string>, contentSelector: Option<string>): Record {
    match VisitError(visit)
    case Some(message) => Record(url, "", "Error: " + message)
    case None => Record(url, TitleOf(visit.page, titleSelector), ContentOf(visit.page, contentSelector))
  }

  /** The title rule: a given selector that matches yields its element's
      text stripped; a missing or empty selector, and a selector whose
      lookup raises, yield the document title, never a blank of its own. */
  lemma TitleRule(page: Page, selector: Option<string>)
    ensures Matches(page, selector) ==> TitleOf(page, selector) == Strip(page.elements[selector.value])
    ensures !Matches(page, selector) ==> TitleOf(page, selector) == page.title
  {
  }

  /** The content rule: a given selector that matches yields its element's
      text stripped; a missing or empty selector yields the body's text
      stripped; a lookup that raises yields "". Content never begins or ends
      with whitespace. */
  lemma ContentRule(page: Page, selector: Option<string>)
    ensures Matches(page, selector) ==> ContentOf(page, selector) == Strip(page.elements[selector.value])
    ensures Given(selector) && !Matches(page, selector) ==> ContentOf(page, selector) == ""
    ensures !Given(selector) && "body" in page.elements ==> ContentOf(page, selector) == Strip(page.elements["body"])
    ensures !Given(selector) && "body" !in page.elements ==> ContentOf(page, selector) == ""
    ensures Unpadded(ContentOf(page, selector))
  {
    var found := if Given(selector) then page.Find(selector.value) else page.Body();
    if found.Some? {
      StripSplits(found.value);
    }
  }

  /** With no content selector the content is the text of the body
      element, exactly as with the selector "body": the documented default. */
  lemma ContentDefaultsToBody(page: Page, selector: Option<string>)
    requires !Given(selector)
    ensures ContentOf(page, selector) == ContentOf(page, Some("body"))
  {
  }

  /** Every record carries the requested URL. A failed navigation or body
      wait gives an empty title and "Error: " followed by the exception's
      message, and is returned rather than raised; otherwise the record holds
      the title and content the two rules pick. */
  lemma ExtractRule(url: string, visit: Visit, titleSelector: Option<string>, contentSelector: Option<string>)
    ensures Extract(url, visit, titleSelector, contentSelector).url == url
    ensures visit.navigation.Error? ==>
      Extract(url, visit, titleSelector, contentSelector) == Record(url, "", "Error: " + visit.navigation.message)
    ensures visit.navigation.Ok? && visit.ready.Error? ==>
      Extract(url, visit, titleSelector, contentSelector) == Record(url, "", "Error: " + visit.ready.message)
    ensures visit.navigation.Ok? && visit.ready.Ok? ==>
      Extract(url, visit, titleSelector, contentSelector)
        == Record(url, TitleOf(visit.page, titleSelector), ContentOf(visit.page, contentSelector))
  {
  }

  /** A title selector whose lookup raises gives what no selector gives,
      while a content selector whose lookup raises gives "" even where no
      selector would have given the page's text: the two fallbacks differ. */
  lemma FallbacksDiffer(page: Page, selector: Option<string>)
    requires Given(selector) && !Matches(page, selector)
    requires "body" in page.elements && !AllSpace(page.elements["body"])
    ensures TitleOf(page, selector) == TitleOf(page, None) == page.title
    ensures ContentOf(page, selector) == "" != ContentOf(page, None)
  {
    StripSplits(page.elements["body"]);
  }

  /** A visit whose navigation raised `message` gives the same record as a
      successful visit to a page with an empty title whose body reads
      "Error: " + `message` (whenever `message` does not end in whitespace):
      the record alone does not tell a failed visit from a successful one. */
  lemma FailureLooksLikeContent(url: string, message: string, page: Page)
    requires message != [] && !IsSpace(message[|message| - 1])
    ensures Extract(url, Visit(Error(message), Ok, page), None, None)
         == Extract(url, Visit(Ok, Ok, Page("", map["body" := "Error: " + message])), None, None)
  {
    var text := "Error: " + message;
    assert text[0] == 'E' && text[|text| - 1] == message[|message| - 1];
    assert [] + text + [] == text;
    StripUnique([], text, []);
  }
}
