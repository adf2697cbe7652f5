/**
 * The crawl result the reporter reads and the options it obeys. The crawl
 * engine builds these values; the reporter never changes them. URL parsing,
 * status messages and the averages come from the crawl model and are taken
 * here as given values.
 */
module Model {
  import opened Common

  /** A float measured by the crawl, kept opaque, with the text "{:.2f}" renders for it. */
  datatype Seconds = Seconds(value: real, fixed2: string)

  /** The components of a normalised URL (the key of a page in the crawl's page map). */
  datatype UrlParts = UrlParts(
    scheme: string, netloc: string, hostname: string, port: Option<nat>,
    path: string, query: string, fragment: string)

  /** Where a page was linked from: the origin page's URL, the markup around the link, the literal target. */
  datatype LinkSource = LinkSource(origin: string, originStr: string, target: string)

  /**
   * One crawled URL. `status` is absent when the fetch failed before a status
   * was read; `exception` is the text of the captured error, if any;
   * `statusMessage` and `contentMessages` are what the page reports about itself.
   */
  datatype Page = Page(
    url: string, parts: UrlParts, status: Option<nat>, exception: Option<string>,
    isLocal: bool, isHtml: bool, isOk: bool, isTimeout: bool,
    responseTime: Seconds, processTime: Seconds,
    statusMessage: string, contentMessages: seq<string>, sources: seq<LinkSource>)

  /** The pages of one start domain, in the crawl's order. */
  datatype DomainPages = DomainPages(domain: string, pages: seq<Page>)

  /**
   * The crawl result. Page collections keep the order of the crawl's maps.
   * An average is absent when computing it raised.
   */
  datatype Site = Site(
    startUrls: seq<string>,
    pages: seq<Page>,
    errorPages: seq<Page>,
    multiPages: seq<DomainPages>,
    multiErrorPages: seq<DomainPages>,
    isOk: bool,
    avgResponseTime: Option<Seconds>,
    avgProcessTime: Option<Seconds>)

  /** What the crawl model guarantees of a site: the ok flag means no error pages, and error pages are pages. */
  predicate WellFormed(site: Site) {
    && (site.isOk <==> |site.errorPages| == 0)
    && (forall p :: p in site.errorPages ==> p in site.pages)
  }

  datatype Format = Plain | Json | JUnit

  /** Which pages a report lists; any setting other than errors or all lists none. */
  datatype ReportType = ErrorsOnly | AllPages | OtherType

  /**
   * The reporting options. A string option that is unset (None) or empty is
   * modelled as "": the source tests both the same way.
   */
  datatype Options = Options(
    output: string,
    smtp: string,
    console: bool,
    multi: bool,
    showSource: bool,
    format: Format,
    reportType: ReportType,
    subject: string,
    fromAddress: string,
    address: string)
}
