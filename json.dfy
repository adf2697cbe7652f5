/**
 * The structured report (`_write_json_report`): a meta block and one record
 * per page in scope. Only the record contents are modelled; the serialiser's
 * text layout is not.
 */
module Json {
  import opened Common
  import opened Strings
  import opened Model
  import opened Summary

  datatype Meta = Meta(
    totalUrls: nat,
    totalErrors: nat,
    totalTime: real,
    startUrls: string,
    globalStatus: string,
    errorSummary: string,
    avgResponseTime: Option<real>,
    avgProcessTime: Option<real>)

  datatype PageRecord = PageRecord(
    link: string,
    fragment: string, hostname: string, netloc: string,
    isLocal: bool, isHtml: bool, isOk: bool, isTimeout: bool,
    processTime: real, responseTime: real,
    status: Option<nat>,
    path: string, port: Option<nat>, query: string, scheme: string,
    origins: seq<string>, sources: seq<string>, targets: seq<string>)

  datatype Document = Document(meta: Meta, pages: seq<PageRecord>)

  /** The meta block: counts, joined start URLs, the shared status, and both averages or neither. */
  function MetaOf(site: Site, totalTime: Seconds): (m: Meta)
    ensures m.totalUrls == |site.pages| && m.totalErrors == |site.errorPages|
    ensures m.totalTime == totalTime.value
    ensures m.globalStatus == SiteStatus(site).globalStatus
    ensures m.errorSummary == SiteStatus(site).errorSummary
    ensures m.avgResponseTime.Some? <==> site.avgResponseTime.Some? && site.avgProcessTime.Some?
    ensures m.avgProcessTime.Some? == m.avgResponseTime.Some?
    ensures m.avgResponseTime.Some? ==> m.avgResponseTime.value == site.avgResponseTime.value.value
    ensures m.avgProcessTime.Some? ==> m.avgProcessTime.value == site.avgProcessTime.value.value
  {
    var v := SiteStatus(site);
    var averages := site.avgResponseTime.Some? && site.avgProcessTime.Some?;
    Meta(|site.pages|, |site.errorPages|, totalTime.value, Join(",", site.startUrls),
         v.globalStatus, v.errorSummary,
         if averages then Some(site.avgResponseTime.value.value) else None,
         if averages then Some(site.avgProcessTime.value.value) else None)
  }

  /** The comma-joined start URLs split back into the start URLs when none contains a comma. */
  lemma MetaStartUrlsReadBack(site: Site, totalTime: Seconds)
    requires |site.startUrls| >= 1
    requires forall i :: 0 <= i < |site.startUrls| ==> ',' !in site.startUrls[i]
    ensures Split(MetaOf(site, totalTime).startUrls, ',') == site.startUrls
  {
    SplitJoin(site.startUrls, ',');
  }

  /** The record of one page: its URL components and flags, and three arrays parallel to its link sources. */
  function RecordOf(page: Page): (r: PageRecord)
    ensures r.link == page.url && r.status == page.status
    ensures |r.origins| == |page.sources| && |r.sources| == |page.sources| && |r.targets| == |page.sources|
    ensures forall j :: 0 <= j < |page.sources| ==>
              page.sources[j] == LinkSource(r.origins[j], r.sources[j], r.targets[j])
  {
    var parts := page.parts;
    var srcs := page.sources;
    PageRecord(
      page.url, parts.fragment, parts.hostname, parts.netloc,
      page.isLocal, page.isHtml, page.isOk, page.isTimeout,
      page.processTime.value, page.responseTime.value, page.status,
      parts.path, parts.port, parts.query, parts.scheme,
      seq(|srcs|, j requires 0 <= j < |srcs| => srcs[j].origin),
      seq(|srcs|, j requires 0 <= j < |srcs| => srcs[j].originStr),
      seq(|srcs|, j requires 0 <= j < |srcs| => srcs[j].target))
  }

  /** The document: the meta block and one record per page in scope, in the scope's order. */
  function DocumentOf(site: Site, reportType: ReportType, totalTime: Seconds): (doc: Document)
    ensures doc.meta == MetaOf(site, totalTime)
    ensures |doc.pages| == |SelectPages(site, reportType)|
    ensures forall i :: 0 <= i < |doc.pages| ==> doc.pages[i] == RecordOf(SelectPages(site, reportType)[i])
  {
    var pages := SelectPages(site, reportType);
    Document(MetaOf(site, totalTime), seq(|pages|, i requires 0 <= i < |pages| => RecordOf(pages[i])))
  }

  /** Builds the document the way the source does, appending one record per page in scope. */
  method BuildDocument(site: Site, reportType: ReportType, totalTime: Seconds) returns (doc: Document)
    ensures doc == DocumentOf(site, reportType, totalTime)
  {
    var meta := MetaOf(site, totalTime);
    var pages := SelectPages(site, reportType);
    var records: seq<PageRecord> := [];
    for i := 0 to |pages|
      invariant |records| == i
      invariant forall k :: 0 <= k < i ==> records[k] == RecordOf(pages[k])
    {
      records := records + [RecordOf(pages[i])];
    }
    doc := Document(meta, records);
  }

  /** The errors scope lists exactly the error pages, and a well-formed ok site lists none. */
  lemma ErrorsDocumentCount(site: Site, totalTime: Seconds)
    requires WellFormed(site)
    ensures var doc := DocumentOf(site, ErrorsOnly, totalTime);
      |doc.pages| == doc.meta.totalErrors && (doc.meta.globalStatus == "SUCCESS" <==> doc.pages == [])
  {
  }

  /** The all scope lists every page: as many records as the meta block counts URLs. */
  lemma AllDocumentCount(site: Site, totalTime: Seconds)
    ensures var doc := DocumentOf(site, AllPages, totalTime);
      |doc.pages| == doc.meta.totalUrls
  {
  }
}
