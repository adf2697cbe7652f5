/**
 * The test report (`_write_junit_report`): one test case per page of the
 * site, whatever the configured scope. Only the suite's contents are
 * modelled; the XML text is not.
 */
module JUnit {
  import opened Common
  import opened Strings
  import opened Model

  datatype CaseStatus = Passed | Failed

  datatype FailureInfo = FailureInfo(message: string, failureType: string)

  datatype TestCase = TestCase(
    name: string,
    classname: string,
    elapsedSec: real,
    stdout: Option<nat>,
    stderr: Option<string>,
    status: CaseStatus,
    failure: Option<FailureInfo>)

  datatype Suite = Suite(name: string, cases: seq<TestCase>)

  const SuiteName: string := "pylinkvalidator test suite"
  const FailureType: string := "UnexpectedStatusCode"
  const OkStatus: nat := 200

  /** How str.format renders an optional status: its digits, or "None". */
  function StatusText(status: Option<nat>): (s: string)
    ensures status.Some? ==> AllDigits(s) && DigitsValue(s) == status.value
    ensures status.None? ==> s == "None"
  {
    match status
    case Some(n) => NatToStringRoundTrip(n); NatToString(n)
    case None => "None"
  }

  /** The failure message: the captured error's text if there is one, else what was expected and what came. */
  function FailureMessage(page: Page): (m: string)
    ensures page.exception.Some? ==> m == page.exception.value
    ensures page.exception.None? ==> m == "Expected 200 OK but got " + StatusText(page.status)
  {
    if page.exception.Some? then page.exception.value
    else "Expected 200 OK but got " + StatusText(page.status)
  }

  function Origins(page: Page): (origins: seq<string>)
    ensures |origins| == |page.sources|
    ensures forall j :: 0 <= j < |origins| ==> origins[j] == page.sources[j].origin
  {
    seq(|page.sources|, j requires 0 <= j < |page.sources| => page.sources[j].origin)
  }

  /** The diagnostic text of a failed case: a heading and then every origin URL, one per line. */
  function LinkedFrom(page: Page): (r: string)
    ensures "Link found on:\n" <= r
  {
    "Link found on:\n" + Join("\n", Origins(page))
  }

  /** Read line by line, the diagnostic text is the heading followed by the origins, in order. */
  lemma LinkedFromLines(page: Page)
    requires |page.sources| >= 1
    requires forall j :: 0 <= j < |page.sources| ==> '\n' !in page.sources[j].origin
    ensures Split(LinkedFrom(page), '\n') == ["Link found on:"] + Origins(page)
  {
    var origins := Origins(page);
    var tail := "\n" + Join("\n", origins);
    assert LinkedFrom(page) == "Link found on:" + tail;
    assert Split(tail, '\n') == [""] + origins by {
      assert tail[0] == '\n' && tail[1..] == Join("\n", origins);
      SplitJoin(origins, '\n');
    }
    SplitPrefix("Link found on:", tail, '\n');
    assert "Link found on:" + "" == "Link found on:";
  }

  /** The case of one page: passed exactly when the status is 200, failed with a typed failure otherwise. */
  function CaseOf(page: Page): (c: TestCase)
    ensures c.name == page.url && c.classname == page.parts.hostname
    ensures c.elapsedSec == page.responseTime.value
    ensures c.status == Passed <==> page.status == Some(OkStatus)
    ensures c.status == Passed ==> c.failure == None && c.stdout == Some(OkStatus) && c.stderr == None
    ensures c.status == Failed ==>
              c.failure == Some(FailureInfo(FailureMessage(page), FailureType))
              && c.stdout == None && c.stderr == Some(LinkedFrom(page))
  {
    if page.status == Some(OkStatus) then
      TestCase(page.url, page.parts.hostname, page.responseTime.value, page.status, None, Passed, None)
    else
      TestCase(page.url, page.parts.hostname, page.responseTime.value, None, Some(LinkedFrom(page)), Failed,
               Some(FailureInfo(FailureMessage(page), FailureType)))
  }

  /** The suite: one case per page of the site, in the site's order. The scope option plays no part. */
  function SuiteOf(site: Site): (suite: Suite)
    ensures suite.name == SuiteName
    ensures |suite.cases| == |site.pages|
    ensures forall i :: 0 <= i < |site.pages| ==> suite.cases[i] == CaseOf(site.pages[i])
  {
    Suite(SuiteName, seq(|site.pages|, i requires 0 <= i < |site.pages| => CaseOf(site.pages[i])))
  }

  /** Builds the suite the way the source does, appending one case per page of the site. */
  method BuildSuite(site: Site) returns (suite: Suite)
    ensures suite == SuiteOf(site)
  {
    var cases: seq<TestCase> := [];
    for i := 0 to |site.pages|
      invariant |cases| == i
      invariant forall k :: 0 <= k < i ==> cases[k] == CaseOf(site.pages[k])
    {
      cases := cases + [CaseOf(site.pages[i])];
    }
    suite := Suite(SuiteName, cases);
  }

  /** The number of failed cases. */
  function FailedCount(cases: seq<TestCase>): nat
  {
    if cases == [] then 0 else (if cases[0].status == Failed then 1 else 0) + FailedCount(cases[1..])
  }

  /** The number of pages whose status is not 200 (including pages with no status). */
  function NotOkCount(pages: seq<Page>): nat
  {
    if pages == [] then 0 else (if pages[0].status != Some(OkStatus) then 1 else 0) + NotOkCount(pages[1..])
  }

  /** Cases built page by page fail exactly as often as the pages lack status 200. */
  lemma {:induction false} FailedCountOf(pages: seq<Page>, cases: seq<TestCase>)
    requires |cases| == |pages|
    requires forall i :: 0 <= i < |pages| ==> cases[i] == CaseOf(pages[i])
    ensures FailedCount(cases) == NotOkCount(pages)
  {
    if pages != [] {
      FailedCountOf(pages[1..], cases[1..]);
    }
  }

  /** The suite of a site fails exactly as many cases as the site has pages without status 200. */
  lemma SuiteFailures(site: Site)
    ensures FailedCount(SuiteOf(site).cases) == NotOkCount(site.pages)
  {
    FailedCountOf(site.pages, SuiteOf(site).cases);
  }
}
