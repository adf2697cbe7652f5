/**
 * What every report format derives from a site in the same way: the global
 * status label with its error clause, and the scope filter choosing the pages
 * (or, in multi-site mode, the per-domain buckets) to list.
 */
module Summary {
  import opened Common
  import opened Strings
  import opened Model

  datatype Verdict = Verdict(globalStatus: string, errorSummary: string)

  const ErrorClauseHead: string := "with "
  const ErrorClauseTail: string := " error(s) "

  /** The status label and error clause for the ok flag and the number of error pages. */
  function StatusOf(isOk: bool, totalErrors: nat): (v: Verdict)
    ensures v.globalStatus == "SUCCESS" <==> isOk
    ensures v.globalStatus == "ERROR" <==> !isOk
    ensures v.errorSummary == "" <==> isOk
  {
    if !isOk then Verdict("ERROR", ErrorClauseHead + NatToString(totalErrors) + ErrorClauseTail)
    else Verdict("SUCCESS", "")
  }

  function SiteStatus(site: Site): Verdict {
    StatusOf(site.isOk, |site.errorPages|)
  }

  /** The error clause states the error count: between its fixed words stand the digits of that count. */
  lemma ErrorClauseStatesCount(isOk: bool, totalErrors: nat)
    requires !isOk
    ensures var s := StatusOf(isOk, totalErrors).errorSummary;
      && |s| > |ErrorClauseHead| + |ErrorClauseTail|
      && s[..|ErrorClauseHead|] == ErrorClauseHead
      && s[|s| - |ErrorClauseTail|..] == ErrorClauseTail
      && AllDigits(s[|ErrorClauseHead|..|s| - |ErrorClauseTail|])
      && DigitsValue(s[|ErrorClauseHead|..|s| - |ErrorClauseTail|]) == totalErrors
  {
    var s := StatusOf(isOk, totalErrors).errorSummary;
    assert s[|ErrorClauseHead|..|s| - |ErrorClauseTail|] == NatToString(totalErrors);
    NatToStringRoundTrip(totalErrors);
  }

  /** For a well-formed site, SUCCESS and an empty clause mean exactly that no page failed. */
  lemma SiteStatusMeansNoErrors(site: Site)
    requires WellFormed(site)
    ensures SiteStatus(site).globalStatus == "SUCCESS" <==> |site.errorPages| == 0
    ensures SiteStatus(site).errorSummary == "" <==> |site.errorPages| == 0
  {
  }

  /** The scope filter of the flat reports. */
  function SelectPages(site: Site, reportType: ReportType): (pages: seq<Page>)
    ensures reportType == ErrorsOnly ==> pages == site.errorPages
    ensures reportType == AllPages ==> pages == site.pages
    ensures reportType == OtherType ==> pages == []
    ensures WellFormed(site) ==> forall p :: p in pages ==> p in site.pages
  {
    match reportType
    case ErrorsOnly => site.errorPages
    case AllPages => site.pages
    case OtherType => []
  }

  /** With the errors scope, a well-formed site lists a page exactly when it is not ok. */
  lemma ErrorsScopeEmptyIffOk(site: Site)
    requires WellFormed(site)
    ensures SelectPages(site, ErrorsOnly) == [] <==> site.isOk
  {
  }

  /** The scope filter of the multi-site report: per-domain buckets instead of flat pages. */
  function SelectDomains(site: Site, reportType: ReportType): (domains: seq<DomainPages>)
    ensures reportType == ErrorsOnly ==> domains == site.multiErrorPages
    ensures reportType == AllPages ==> domains == site.multiPages
    ensures reportType == OtherType ==> domains == []
  {
    match reportType
    case ErrorsOnly => site.multiErrorPages
    case AllPages => site.multiPages
    case OtherType => []
  }
}
