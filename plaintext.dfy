/**
 * The plain-text report (`_write_plain_text_report_single`,
 * `_write_plain_text_report_multi`, `_print_details`) and the console summary
 * (`print_summary`). The functions give the lines each one prints, in order;
 * the methods print them one by one through `Outputs.Print`, as the source does.
 */
module PlainText {
  import opened Common
  import opened Strings
  import opened Model
  import opened Summary
  import opened Sinks

  /** The indent of the page blocks in the single-site report and the summary. */
  const SingleIndent: nat := 2
  /** The indent of the page blocks under a domain header in the multi-site report. */
  const MultiIndent: nat := 4

  /** "\n<indent><status message>: <url>" */
  function StatusLine(page: Page, indent: nat): (r: string)
    ensures |r| > indent && r[0] == '\n' && r[1..indent + 1] == Spaces(indent)
    ensures EndsWith(r, page.url)
  {
    "\n" + Spaces(indent) + page.statusMessage + ": " + page.url
  }

  /** "<indent>  <message>" */
  function ContentLine(message: string, indent: nat): (r: string)
    ensures Spaces(indent) + "  " <= r && EndsWith(r, message)
  {
    Spaces(indent) + "  " + message
  }

  /** "<indent>  from <origin> target=<target>" */
  function FromLine(source: LinkSource, indent: nat): (r: string)
    ensures Spaces(indent) + "  from " <= r && EndsWith(r, source.target)
  {
    Spaces(indent) + "  from " + source.origin + " target=" + source.target
  }

  /** "<indent>    <origin text>" */
  function ContextLine(source: LinkSource, indent: nat): (r: string)
    ensures Spaces(indent) + "    " <= r && EndsWith(r, source.originStr)
  {
    Spaces(indent) + "    " + source.originStr
  }

  /** Every line starts with the indent and two more spaces. */
  predicate Nested(lines: seq<string>, indent: nat) {
    forall i :: 0 <= i < |lines| ==> Spaces(indent) + "  " <= lines[i]
  }

  /** One line per content message, in order. */
  function ContentLines(messages: seq<string>, indent: nat): (lines: seq<string>)
    ensures |lines| == |messages| && Nested(lines, indent)
  {
    if messages == [] then []
    else ContentLines(messages[..|messages| - 1], indent) + [ContentLine(messages[|messages| - 1], indent)]
  }

  /** Line i of the content lines carries message i. */
  lemma {:induction false} ContentLinesAt(messages: seq<string>, indent: nat)
    ensures forall i :: 0 <= i < |messages| ==> ContentLines(messages, indent)[i] == ContentLine(messages[i], indent)
  {
    if messages != [] {
      var init := messages[..|messages| - 1];
      ContentLinesAt(init, indent);
      assert forall i :: 0 <= i < |init| ==> init[i] == messages[i];
    }
  }

  function SourceBlock(source: LinkSource, showSource: bool, indent: nat): (lines: seq<string>)
    ensures |lines| == if showSource then 2 else 1
    ensures Nested(lines, indent)
  {
    [FromLine(source, indent)] + if showSource then [ContextLine(source, indent)] else []
  }

  /** Per link source a "from ... target=..." line, followed by its context when asked for. */
  function SourceLines(sources: seq<LinkSource>, showSource: bool, indent: nat): (lines: seq<string>)
    ensures |lines| == |sources| * (if showSource then 2 else 1)
    ensures Nested(lines, indent)
  {
    if sources == [] then []
    else SourceLines(sources[..|sources| - 1], showSource, indent) + SourceBlock(sources[|sources| - 1], showSource, indent)
  }

  /**
   * Source j's "from" line comes at j, or with show_source at 2j, directly
   * followed by its context line.
   */
  lemma {:induction false} SourceLinesAt(sources: seq<LinkSource>, showSource: bool, indent: nat)
    ensures var lines := SourceLines(sources, showSource, indent);
      !showSource ==> forall j :: 0 <= j < |sources| ==> lines[j] == FromLine(sources[j], indent)
    ensures var lines := SourceLines(sources, showSource, indent);
      showSource ==> forall j :: 0 <= j < |sources| ==>
        lines[2 * j] == FromLine(sources[j], indent) && lines[2 * j + 1] == ContextLine(sources[j], indent)
  {
    if sources != [] {
      var init := sources[..|sources| - 1];
      SourceLinesAt(init, showSource, indent);
      assert forall j :: 0 <= j < |init| ==> init[j] == sources[j];
    }
  }

  /** The block of one page: its status line, its content messages, its link sources. */
  function PageLines(page: Page, showSource: bool, indent: nat): (lines: seq<string>)
    ensures |lines| == 1 + |page.contentMessages| + |page.sources| * (if showSource then 2 else 1)
    ensures lines[0] == StatusLine(page, indent)
  {
    [StatusLine(page, indent)] + ContentLines(page.contentMessages, indent)
    + SourceLines(page.sources, showSource, indent)
  }

  /** The blocks of the pages, in the pages' order. */
  function DetailLines(pages: seq<Page>, showSource: bool, indent: nat): (lines: seq<string>)
    ensures |lines| >= |pages|
    ensures lines == [] <==> pages == []
  {
    if pages == [] then []
    else DetailLines(pages[..|pages| - 1], showSource, indent) + PageLines(pages[|pages| - 1], showSource, indent)
  }

  /** How many lines the page blocks take, counted from the pages alone. */
  function DetailCount(pages: seq<Page>, showSource: bool): nat {
    if pages == [] then 0
    else
      var p := pages[|pages| - 1];
      DetailCount(pages[..|pages| - 1], showSource)
      + 1 + |p.contentMessages| + |p.sources| * (if showSource then 2 else 1)
  }

  /** The page blocks are one status line, one line per content message and one or two lines per source, per page. */
  lemma {:induction false} DetailLinesCount(pages: seq<Page>, showSource: bool, indent: nat)
    ensures |DetailLines(pages, showSource, indent)| == DetailCount(pages, showSource)
  {
    if pages != [] {
      DetailLinesCount(pages[..|pages| - 1], showSource, indent);
    }
  }

  lemma DetailLinesLast(pages: seq<Page>, showSource: bool, indent: nat)
    requires pages != []
    ensures DetailLines(pages, showSource, indent)
         == DetailLines(pages[..|pages| - 1], showSource, indent) + PageLines(pages[|pages| - 1], showSource, indent)
  {
  }

  /** Pages are printed in order: the blocks of a + b are the blocks of a, then those of b. */
  lemma {:induction false} DetailLinesAppend(a: seq<Page>, b: seq<Page>, showSource: bool, indent: nat)
    ensures DetailLines(a + b, showSource, indent) == DetailLines(a, showSource, indent) + DetailLines(b, showSource, indent)
  {
    if b == [] {
      assert a + b == a;
    } else {
      var c := a + b;
      var b' := b[..|b| - 1];
      var last := b[|b| - 1];
      assert c[..|c| - 1] == a + b';
      assert c[|c| - 1] == last;
      DetailLinesLast(c, showSource, indent);
      DetailLinesLast(b, showSource, indent);
      DetailLinesAppend(a, b', showSource, indent);
      var x, y, z := DetailLines(a, showSource, indent), DetailLines(b', showSource, indent), PageLines(last, showSource, indent);
      ConcatAssoc(x, y, z);
    }
  }

  /** The number of lines that begin with a line break. */
  function LedByNewline(lines: seq<string>): nat {
    if lines == [] then 0
    else LedByNewline(lines[..|lines| - 1]) + if |lines[|lines| - 1]| > 0 && lines[|lines| - 1][0] == '\n' then 1 else 0
  }

  lemma {:induction false} LedByNewlineAppend(a: seq<string>, b: seq<string>)
    ensures LedByNewline(a + b) == LedByNewline(a) + LedByNewline(b)
  {
    if b == [] {
      assert a + b == a;
    } else {
      assert (a + b)[..|a + b| - 1] == a + b[..|b| - 1];
      LedByNewlineAppend(a, b[..|b| - 1]);
    }
  }

  lemma {:induction false} LedByNewlineNested(lines: seq<string>, indent: nat)
    requires Nested(lines, indent)
    ensures LedByNewline(lines) == 0
  {
    if lines != [] {
      var last := lines[|lines| - 1];
      assert (Spaces(indent) + "  ")[0] == ' ';
      assert Spaces(indent) + "  " <= last;
      LedByNewlineNested(lines[..|lines| - 1], indent);
    }
  }

  /** No line begins with a line break. */
  predicate Unbroken(lines: seq<string>) {
    forall i :: 0 <= i < |lines| ==> |lines[i]| > 0 && lines[i][0] != '\n'
  }

  /** Lines that do not begin with a line break begin with neither a break nor a blank line. */
  lemma {:induction false} UnbrokenCounts(lines: seq<string>)
    requires Unbroken(lines)
    ensures LedByNewline(lines) == 0 && LedByBlankLine(lines) == 0
  {
    if lines != [] {
      var last := lines[|lines| - 1];
      if |last| > 1 {
        assert last[..2][0] == last[0];
      }
      UnbrokenCounts(lines[..|lines| - 1]);
    }
  }

  /** A page block begins with its status line; the rest is nested. */
  lemma PageLinesShape(p: Page, showSource: bool, indent: nat)
    ensures var rest := ContentLines(p.contentMessages, indent) + SourceLines(p.sources, showSource, indent);
      PageLines(p, showSource, indent) == [StatusLine(p, indent)] + rest && Nested(rest, indent)
  {
  }

  /** A page block has one line led by a line break. */
  lemma PageStatusLine(p: Page, showSource: bool, indent: nat)
    ensures LedByNewline(PageLines(p, showSource, indent)) == 1
  {
    var rest := ContentLines(p.contentMessages, indent) + SourceLines(p.sources, showSource, indent);
    PageLinesShape(p, showSource, indent);
    LedByNewlineNested(rest, indent);
    LedByNewlineAppend([StatusLine(p, indent)], rest);
    var one: seq<string> := [StatusLine(p, indent)];
    assert one[..0] == [];
  }

  /** Exactly one line per page begins with a line break: each page has one status line. */
  lemma {:induction false} OneStatusLinePerPage(pages: seq<Page>, showSource: bool, indent: nat)
    ensures LedByNewline(DetailLines(pages, showSource, indent)) == |pages|
  {
    if pages != [] {
      var front := pages[..|pages| - 1];
      var p := pages[|pages| - 1];
      OneStatusLinePerPage(front, showSource, indent);
      PageStatusLine(p, showSource, indent);
      LedByNewlineAppend(DetailLines(front, showSource, indent), PageLines(p, showSource, indent));
    }
  }

  /** A line without the line break that may lead it. */
  function Unled(line: string): string {
    if |line| > 0 && line[0] == '\n' then line[1..] else line
  }

  /** Every line starts with the indent, once a leading line break is set aside. */
  predicate Indented(lines: seq<string>, indent: nat) {
    forall i :: 0 <= i < |lines| ==> Spaces(indent) <= Unled(lines[i])
  }

  lemma NestedIndented(lines: seq<string>, indent: nat)
    requires Nested(lines, indent)
    ensures Indented(lines, indent)
  {
    forall i | 0 <= i < |lines|
      ensures Spaces(indent) <= Unled(lines[i])
    {
      var prefix := Spaces(indent) + "  ";
      assert prefix <= lines[i];
      assert prefix[|Spaces(indent)|] == ' ';
      assert lines[i][..|Spaces(indent)|] == prefix[..|Spaces(indent)|];
    }
  }

  lemma IndentedAppend(a: seq<string>, b: seq<string>, indent: nat)
    requires Indented(a, indent) && Indented(b, indent)
    ensures Indented(a + b, indent)
  {
    forall i | 0 <= i < |a + b|
      ensures Spaces(indent) <= Unled((a + b)[i])
    {
      if i < |a| {
        assert (a + b)[i] == a[i];
      } else {
        assert (a + b)[i] == b[i - |a|];
      }
    }
  }

  /** Every line of a page block is indented, past the status line's leading break. */
  lemma PageIndented(p: Page, showSource: bool, indent: nat)
    ensures Indented(PageLines(p, showSource, indent), indent)
  {
    var rest := ContentLines(p.contentMessages, indent) + SourceLines(p.sources, showSource, indent);
    PageLinesShape(p, showSource, indent);
    NestedIndented(rest, indent);
    var s := StatusLine(p, indent);
    assert Unled(s) == Spaces(indent) + (p.statusMessage + ": " + p.url);
    assert Indented([s], indent);
    IndentedAppend([s], rest, indent);
  }

  /** Every line of the page blocks is indented by `indent` spaces, past the status line's leading break. */
  lemma {:induction false} DetailLinesIndented(pages: seq<Page>, showSource: bool, indent: nat)
    ensures Indented(DetailLines(pages, showSource, indent), indent)
  {
    if pages != [] {
      var front := pages[..|pages| - 1];
      var p := pages[|pages| - 1];
      DetailLinesIndented(front, showSource, indent);
      PageIndented(p, showSource, indent);
      IndentedAppend(DetailLines(front, showSource, indent), PageLines(p, showSource, indent), indent);
    }
  }

  /** The content-message loop of `_print_details`. */
  method PrintContent(messages: seq<string>, files: seq<SinkKind>, out: Outputs, indent: nat)
    requires Distinct(files)
    modifies out
    ensures out.State() == Send(old(out.State()), files, Lines(ContentLines(messages, indent)))
  {
    ghost var b0 := out.State();
    assert messages[..0] == [];
    SendNothing(b0, files);
    for j := 0 to |messages|
      invariant out.State() == Send(b0, files, Lines(ContentLines(messages[..j], indent)))
    {
      assert messages[..j + 1][..j] == messages[..j];
      out.Print(ContentLine(messages[j], indent), files);
      SendLine(b0, files, ContentLines(messages[..j], indent), ContentLine(messages[j], indent));
    }
    assert messages[..|messages|] == messages;
  }

  /** Prints one link source: its "from" line and, when asked for, its context line. */
  method PrintSource(source: LinkSource, files: seq<SinkKind>, out: Outputs, showSource: bool, indent: nat)
    requires Distinct(files)
    modifies out
    ensures out.State() == Send(old(out.State()), files, Lines(SourceBlock(source, showSource, indent)))
  {
    ghost var b0 := out.State();
    out.Print(FromLine(source, indent), files);
    SendOne(b0, files, FromLine(source, indent));
    if showSource {
      out.Print(ContextLine(source, indent), files);
      SendLine(b0, files, [FromLine(source, indent)], ContextLine(source, indent));
    } else {
      assert [FromLine(source, indent)] + [] == [FromLine(source, indent)];
    }
  }

  /** The link-source loop of `_print_details`. */
  method PrintSources(sources: seq<LinkSource>, files: seq<SinkKind>, out: Outputs, showSource: bool, indent: nat)
    requires Distinct(files)
    modifies out
    ensures out.State() == Send(old(out.State()), files, Lines(SourceLines(sources, showSource, indent)))
  {
    ghost var b0 := out.State();
    assert sources[..0] == [];
    SendNothing(b0, files);
    for j := 0 to |sources|
      invariant out.State() == Send(b0, files, Lines(SourceLines(sources[..j], showSource, indent)))
    {
      assert sources[..j + 1][..j] == sources[..j];
      PrintSource(sources[j], files, out, showSource, indent);
      SendLines(b0, files, SourceLines(sources[..j], showSource, indent), SourceBlock(sources[j], showSource, indent));
    }
    assert sources[..|sources|] == sources;
  }

  /** Prints the block of one page (the body of the page loop of `_print_details`). */
  method PrintPage(page: Page, files: seq<SinkKind>, out: Outputs, showSource: bool, indent: nat)
    requires Distinct(files)
    modifies out
    ensures out.State() == Send(old(out.State()), files, Lines(PageLines(page, showSource, indent)))
  {
    ghost var b0 := out.State();
    var status := StatusLine(page, indent);
    out.Print(status, files);
    SendOne(b0, files, status);
    PrintContent(page.contentMessages, files, out, indent);
    SendLines(b0, files, [status], ContentLines(page.contentMessages, indent));
    PrintSources(page.sources, files, out, showSource, indent);
    SendLines(b0, files, [status] + ContentLines(page.contentMessages, indent),
              SourceLines(page.sources, showSource, indent));
  }

  /** `_print_details`: prints the blocks of the pages, in order, to every listed sink. */
  method PrintDetails(pages: seq<Page>, files: seq<SinkKind>, out: Outputs, showSource: bool, indent: nat)
    requires Distinct(files)
    modifies out
    ensures out.State() == Send(old(out.State()), files, Lines(DetailLines(pages, showSource, indent)))
  {
    ghost var b0 := out.State();
    assert pages[..0] == [];
    SendNothing(b0, files);
    for i := 0 to |pages|
      invariant out.State() == Send(b0, files, Lines(DetailLines(pages[..i], showSource, indent)))
    {
      assert pages[..i + 1][..i] == pages[..i];
      PrintPage(pages[i], files, out, showSource, indent);
      SendLines(b0, files, DetailLines(pages[..i], showSource, indent), PageLines(pages[i], showSource, indent));
    }
    assert pages[..|pages|] == pages;
  }

  /** "<STATUS> Crawled <N> urls <error clause>in <T> seconds" */
  function SummaryHeader(site: Site, totalTime: Seconds): (r: string)
    ensures SiteStatus(site).globalStatus + " Crawled " <= r
    ensures EndsWith(r, SecondsTail)
  {
    var v := SiteStatus(site);
    v.globalStatus + " Crawled " + NatToString(|site.pages|) + " urls " + v.errorSummary
    + "in " + totalTime.fixed2 + " seconds"
  }

  /** The multi-site header also states how many start sites were crawled. */
  function MultiHeader(site: Site, totalTime: Seconds): (r: string)
    ensures SiteStatus(site).globalStatus + " Crawled " <= r
    ensures EndsWith(r, SecondsTail)
  {
    var v := SiteStatus(site);
    v.globalStatus + " Crawled " + NatToString(|site.pages|) + " urls " + v.errorSummary
    + "from " + NatToString(|site.startUrls|) + " sites in " + totalTime.fixed2 + " seconds"
  }

  /** A header leads with the status word, and the average lines with blanks: none of them begins with a line break. */
  lemma HeadUnbroken(site: Site, header: string)
    requires SiteStatus(site).globalStatus + " Crawled " <= header
    ensures Unbroken([header])
    ensures HasAverages(site) ==> Unbroken([header] + AverageLines(site))
  {
    var g := SiteStatus(site).globalStatus;
    assert g == "SUCCESS" || g == "ERROR";
    assert header[0] == g[0];
    if HasAverages(site) {
      var a := AverageLines(site);
      assert "  average " <= a[0] && "  average " <= a[1];
      assert a[0][0] == ' ' && a[1][0] == ' ';
    }
  }

  /** How every header and average line ends. */
  const SecondsTail: string := " seconds"

  /** Both averages, when both could be computed. */
  predicate HasAverages(site: Site) {
    site.avgResponseTime.Some? && site.avgProcessTime.Some?
  }

  function AverageLines(site: Site): (lines: seq<string>)
    requires HasAverages(site)
    ensures |lines| == 2
    ensures forall i :: 0 <= i < 2 ==> "  average " <= lines[i] && EndsWith(lines[i], SecondsTail)
  {
    ["  average response time: " + site.avgResponseTime.value.fixed2 + " seconds",
     "  average process time: " + site.avgProcessTime.value.fixed2 + " seconds"]
  }

  /** The words that lead the start-URL line. */
  const StartUrlsLead: string := "\n  Start URL(s): "

  /** The start URLs, comma-joined; comma-free URLs can be read back from the line. */
  function StartUrlsLine(site: Site): (r: string)
    ensures StartUrlsLead <= r
    ensures |site.startUrls| >= 1 && (forall i :: 0 <= i < |site.startUrls| ==> ',' !in site.startUrls[i]) ==>
              Split(r[|StartUrlsLead|..], ',') == site.startUrls
  {
    var r := StartUrlsLead + Join(",", site.startUrls);
    assert r[|StartUrlsLead|..] == Join(",", site.startUrls);
    if |site.startUrls| >= 1 && (forall i :: 0 <= i < |site.startUrls| ==> ',' !in site.startUrls[i]) then
      SplitJoin(site.startUrls, ',');
      r
    else r
  }

  /** The head of the single-site report: header and averages, or none of the three lines when an average raised. */
  function SingleHead(site: Site, totalTime: Seconds): (lines: seq<string>)
    ensures |lines| == if HasAverages(site) then 3 else 0
    ensures HasAverages(site) ==> lines[0] == SummaryHeader(site, totalTime) && lines[1..] == AverageLines(site)
  {
    if HasAverages(site) then [SummaryHeader(site, totalTime)] + AverageLines(site) else []
  }

  /** The body of the single-site report: when the scope selects any page, the start URLs and the page blocks. */
  function SingleBody(site: Site, opts: Options): (lines: seq<string>)
    ensures lines == [] <==> SelectPages(site, opts.reportType) == []
    ensures lines != [] ==>
              && lines[0] == StartUrlsLine(site)
              && LedByNewline(lines[1..]) == |SelectPages(site, opts.reportType)|
              && Indented(lines[1..], SingleIndent)
  {
    var pages := SelectPages(site, opts.reportType);
    if |pages| > 0 then
      var details := DetailLines(pages, opts.showSource, SingleIndent);
      OneStatusLinePerPage(pages, opts.showSource, SingleIndent);
      DetailLinesIndented(pages, opts.showSource, SingleIndent);
      assert ([StartUrlsLine(site)] + details)[1..] == details;
      [StartUrlsLine(site)] + details
    else []
  }

  /** The single-site report. */
  function SingleLines(site: Site, opts: Options, totalTime: Seconds): (lines: seq<string>)
    ensures lines == [] <==> !HasAverages(site) && SelectPages(site, opts.reportType) == []
  {
    SingleHead(site, totalTime) + SingleBody(site, opts)
  }

  /** "\n\n  Start Domain: <domain>" */
  function DomainLine(domain: string): (r: string)
    ensures "\n\n" <= r && EndsWith(r, domain)
  {
    "\n\n  Start Domain: " + domain
  }

  /** A domain's header and its page blocks, or nothing for an empty domain. */
  function DomainBlock(d: DomainPages, showSource: bool): (lines: seq<string>)
    ensures lines == [] <==> d.pages == []
    ensures d.pages != [] ==>
              && lines[0] == DomainLine(d.domain)
              && LedByNewline(lines[1..]) == |d.pages|
              && Indented(lines[1..], MultiIndent)
  {
    if |d.pages| > 0 then
      var details := DetailLines(d.pages, showSource, MultiIndent);
      OneStatusLinePerPage(d.pages, showSource, MultiIndent);
      DetailLinesIndented(d.pages, showSource, MultiIndent);
      assert ([DomainLine(d.domain)] + details)[1..] == details;
      [DomainLine(d.domain)] + details
    else []
  }

  /** No domain has a page. */
  predicate NoPages(domains: seq<DomainPages>) {
    forall i :: 0 <= i < |domains| ==> domains[i].pages == []
  }

  /** The blocks of the domains in order; nothing exactly when every domain is empty. */
  function DomainLines(domains: seq<DomainPages>, showSource: bool): (lines: seq<string>)
    ensures lines == [] <==> NoPages(domains)
  {
    if domains == [] then []
    else
      EmptyDomainsSplit(domains);
      DomainLines(domains[..|domains| - 1], showSource) + DomainBlock(domains[|domains| - 1], showSource)
  }

  /** Every domain is empty exactly when all but the last are and the last is. */
  lemma EmptyDomainsSplit(domains: seq<DomainPages>)
    requires domains != []
    ensures NoPages(domains) <==> NoPages(domains[..|domains| - 1]) && domains[|domains| - 1].pages == []
  {
    var init := domains[..|domains| - 1];
    assert forall i :: 0 <= i < |init| ==> init[i] == domains[i];
  }

  lemma DomainLinesStep(domains: seq<DomainPages>, i: nat, showSource: bool)
    requires i < |domains|
    ensures DomainLines(domains[..i + 1], showSource) == DomainLines(domains[..i], showSource) + DomainBlock(domains[i], showSource)
  {
    assert domains[..i + 1][..i] == domains[..i];
  }

  /** The multi-site report: nothing at all when an average raised, since one try block covers it all. */
  function MultiLines(site: Site, opts: Options, totalTime: Seconds): (lines: seq<string>)
    ensures lines == [] <==> !HasAverages(site)
    ensures HasAverages(site) ==>
              && |lines| >= 3
              && lines[0] == MultiHeader(site, totalTime)
              && lines[1..3] == AverageLines(site)
              && LedByBlankLine(lines) == NonEmptyDomains(SelectDomains(site, opts.reportType))
  {
    if HasAverages(site) then
      var head := [MultiHeader(site, totalTime)] + AverageLines(site);
      var domains := SelectDomains(site, opts.reportType);
      var body := DomainLines(domains, opts.showSource);
      HeadUnbroken(site, MultiHeader(site, totalTime));
      UnbrokenCounts(head);
      OneHeaderPerDomain(domains, opts.showSource);
      LedByBlankLineAppend(head, body);
      assert (head + body)[1..3] == AverageLines(site);
      head + body
    else []
  }

  /** The plain-text report: the multi-site layout or the single-site one, by the multi option. */
  function PlainLines(site: Site, opts: Options, totalTime: Seconds): (lines: seq<string>)
    ensures opts.multi ==> (lines == [] <==> !HasAverages(site))
    ensures !opts.multi ==> (lines == [] <==> !HasAverages(site) && SelectPages(site, opts.reportType) == [])
    ensures opts.multi && HasAverages(site) ==>
              && |lines| >= 3 && lines[0] == MultiHeader(site, totalTime) && lines[1..3] == AverageLines(site)
              && LedByBlankLine(lines) == NonEmptyDomains(SelectDomains(site, opts.reportType))
    ensures !opts.multi && HasAverages(site) ==>
              |lines| >= 3 && lines[0] == SummaryHeader(site, totalTime) && lines[1..3] == AverageLines(site)
    ensures !opts.multi && !HasAverages(site) && SelectPages(site, opts.reportType) != [] ==>
              lines[0] == StartUrlsLine(site)
  {
    if opts.multi then MultiLines(site, opts, totalTime) else SingleLines(site, opts, totalTime)
  }

  /** The console summary: the header, then the page blocks of the scope. */
  function SummaryLines(site: Site, opts: Options, totalTime: Seconds): (lines: seq<string>)
    ensures |lines| >= 1 + |SelectPages(site, opts.reportType)|
    ensures |lines| == 1 <==> SelectPages(site, opts.reportType) == []
    ensures lines[0] == SummaryHeader(site, totalTime)
    ensures LedByNewline(lines) == |SelectPages(site, opts.reportType)|
    ensures Indented(lines[1..], SingleIndent)
  {
    var header := SummaryHeader(site, totalTime);
    var pages := SelectPages(site, opts.reportType);
    var details := DetailLines(pages, opts.showSource, SingleIndent);
    HeadUnbroken(site, header);
    UnbrokenCounts([header]);
    OneStatusLinePerPage(pages, opts.showSource, SingleIndent);
    DetailLinesIndented(pages, opts.showSource, SingleIndent);
    LedByNewlineAppend([header], details);
    assert ([header] + details)[1..] == details;
    [header] + details
  }

  /** The number of lines that begin with a blank line (two line breaks). */
  function LedByBlankLine(lines: seq<string>): nat {
    if lines == [] then 0
    else LedByBlankLine(lines[..|lines| - 1]) + if |lines[|lines| - 1]| > 1 && lines[|lines| - 1][..2] == "\n\n" then 1 else 0
  }

  lemma {:induction false} LedByBlankLineAppend(a: seq<string>, b: seq<string>)
    ensures LedByBlankLine(a + b) == LedByBlankLine(a) + LedByBlankLine(b)
  {
    if b == [] {
      assert a + b == a;
    } else {
      assert (a + b)[..|a + b| - 1] == a + b[..|b| - 1];
      LedByBlankLineAppend(a, b[..|b| - 1]);
    }
  }

  lemma {:induction false} LedByBlankLineNested(lines: seq<string>, indent: nat)
    requires Nested(lines, indent)
    ensures LedByBlankLine(lines) == 0
  {
    if lines != [] {
      var last := lines[|lines| - 1];
      assert (Spaces(indent) + "  ")[0] == ' ';
      assert Spaces(indent) + "  " <= last;
      LedByBlankLineNested(lines[..|lines| - 1], indent);
    }
  }

  /** With a non-zero indent, no line of a page block begins with a blank line. */
  lemma PageNoBlankLead(p: Page, showSource: bool, indent: nat)
    requires indent > 0
    ensures LedByBlankLine(PageLines(p, showSource, indent)) == 0
  {
    var rest := ContentLines(p.contentMessages, indent) + SourceLines(p.sources, showSource, indent);
    PageLinesShape(p, showSource, indent);
    LedByBlankLineNested(rest, indent);
    var s := StatusLine(p, indent);
    assert s[1] == ' ';
    var one: seq<string> := [s];
    assert one[..0] == [];
    LedByBlankLineAppend([s], rest);
  }

  /** With a non-zero indent, no line of the page blocks begins with a blank line. */
  lemma {:induction false} DetailLinesNoBlankLead(pages: seq<Page>, showSource: bool, indent: nat)
    requires indent > 0
    ensures LedByBlankLine(DetailLines(pages, showSource, indent)) == 0
  {
    if pages != [] {
      var front := pages[..|pages| - 1];
      var p := pages[|pages| - 1];
      DetailLinesNoBlankLead(front, showSource, indent);
      PageNoBlankLead(p, showSource, indent);
      LedByBlankLineAppend(DetailLines(front, showSource, indent), PageLines(p, showSource, indent));
    }
  }

  /** The number of domains with at least one page. */
  function NonEmptyDomains(domains: seq<DomainPages>): nat {
    if domains == [] then 0
    else NonEmptyDomains(domains[..|domains| - 1]) + if |domains[|domains| - 1].pages| > 0 then 1 else 0
  }

  /** The multi-site body has one "Start Domain" header per non-empty domain and no other line led by a blank line. */
  lemma {:induction false} OneHeaderPerDomain(domains: seq<DomainPages>, showSource: bool)
    ensures LedByBlankLine(DomainLines(domains, showSource)) == NonEmptyDomains(domains)
  {
    if domains != [] {
      var d := domains[|domains| - 1];
      OneHeaderPerDomain(domains[..|domains| - 1], showSource);
      if |d.pages| > 0 {
        var h := DomainLine(d.domain);
        assert h[..2] == "\n\n";
        assert LedByBlankLine([h]) == 1 by {
          var one: seq<string> := [h];
          assert one[..0] == [];
        }
        DetailLinesNoBlankLead(d.pages, showSource, MultiIndent);
        LedByBlankLineAppend([h], DetailLines(d.pages, showSource, MultiIndent));
      }
      LedByBlankLineAppend(DomainLines(domains[..|domains| - 1], showSource), DomainBlock(d, showSource));
    }
  }

  /** The console summary repeats the single-site report's header and page blocks. */
  lemma SummaryRepeatsSingleReport(site: Site, opts: Options, totalTime: Seconds)
    requires HasAverages(site) && |SelectPages(site, opts.reportType)| > 0
    ensures SummaryLines(site, opts, totalTime)[0] == SingleLines(site, opts, totalTime)[0]
    ensures SummaryLines(site, opts, totalTime)[1..] == SingleLines(site, opts, totalTime)[4..]
  {
    var header := SummaryHeader(site, totalTime);
    var details := DetailLines(SelectPages(site, opts.reportType), opts.showSource, SingleIndent);
    assert SummaryLines(site, opts, totalTime) == [header] + details;
    assert SingleLines(site, opts, totalTime) == ([header] + AverageLines(site)) + ([StartUrlsLine(site)] + details);
    SkipAverages(header, AverageLines(site), StartUrlsLine(site), details);
  }

  lemma SkipAverages(header: string, averages: seq<string>, start: string, details: seq<string>)
    requires |averages| == 2
    ensures (([header] + averages) + ([start] + details))[0] == header
    ensures (([header] + averages) + ([start] + details))[4..] == details
  {
  }

  /** The `try` block of `_write_plain_text_report_single`: the header and the averages. */
  method PrintSingleHead(site: Site, files: seq<SinkKind>, out: Outputs, totalTime: Seconds)
    requires Distinct(files)
    modifies out
    ensures out.State() == Send(old(out.State()), files, Lines(SingleHead(site, totalTime)))
  {
    ghost var b0 := out.State();
    SendNothing(b0, files);
    if HasAverages(site) {
      var header := SummaryHeader(site, totalTime);
      var averages := AverageLines(site);
      out.Print(header, files);
      SendOne(b0, files, header);
      out.Print(averages[0], files);
      SendLine(b0, files, [header], averages[0]);
      out.Print(averages[1], files);
      SendLine(b0, files, [header] + [averages[0]], averages[1]);
      assert [header] + [averages[0]] + [averages[1]] == [header] + averages;
    }
  }

  /** The rest of `_write_plain_text_report_single`: the start URLs and the page blocks of the scope. */
  method PrintSingleBody(site: Site, opts: Options, files: seq<SinkKind>, out: Outputs)
    requires Distinct(files)
    modifies out
    ensures out.State() == Send(old(out.State()), files, Lines(SingleBody(site, opts)))
  {
    ghost var b0 := out.State();
    SendNothing(b0, files);
    var pages := SelectPages(site, opts.reportType);
    if |pages| > 0 {
      var startUrls := Join(",", site.startUrls);
      out.Print("\n  Start URL(s): " + startUrls, files);
      SendOne(b0, files, StartUrlsLine(site));
      PrintDetails(pages, files, out, opts.showSource, SingleIndent);
      SendLines(b0, files, [StartUrlsLine(site)], DetailLines(pages, opts.showSource, SingleIndent));
    }
  }

  /** `_write_plain_text_report_single` */
  method WriteSingle(site: Site, opts: Options, files: seq<SinkKind>, out: Outputs, totalTime: Seconds)
    requires Distinct(files)
    modifies out
    ensures out.State() == Send(old(out.State()), files, Lines(SingleLines(site, opts, totalTime)))
  {
    ghost var b0 := out.State();
    PrintSingleHead(site, files, out, totalTime);
    PrintSingleBody(site, opts, files, out);
    SendLines(b0, files, SingleHead(site, totalTime), SingleBody(site, opts));
  }

  /** Prints one domain's header and page blocks, or nothing when the domain has no page (the body of the domain loop). */
  method PrintDomain(d: DomainPages, files: seq<SinkKind>, out: Outputs, showSource: bool)
    requires Distinct(files)
    modifies out
    ensures out.State() == Send(old(out.State()), files, Lines(DomainBlock(d, showSource)))
  {
    ghost var b0 := out.State();
    if |d.pages| > 0 {
      out.Print("\n\n  Start Domain: " + d.domain, files);
      SendOne(b0, files, DomainLine(d.domain));
      PrintDetails(d.pages, files, out, showSource, MultiIndent);
      SendLines(b0, files, [DomainLine(d.domain)], DetailLines(d.pages, showSource, MultiIndent));
    } else {
      SendNothing(b0, files);
    }
  }

  /** The domain loop of `_write_plain_text_report_multi`: the domains' blocks, in order. */
  method PrintDomains(domains: seq<DomainPages>, files: seq<SinkKind>, out: Outputs, showSource: bool)
    requires Distinct(files)
    modifies out
    ensures out.State() == Send(old(out.State()), files, Lines(DomainLines(domains, showSource)))
  {
    ghost var b0 := out.State();
    assert domains[..0] == [];
    SendNothing(b0, files);
    for i := 0 to |domains|
      invariant out.State() == Send(b0, files, Lines(DomainLines(domains[..i], showSource)))
    {
      PrintDomain(domains[i], files, out, showSource);
      SendLines(b0, files, DomainLines(domains[..i], showSource), DomainBlock(domains[i], showSource));
      DomainLinesStep(domains, i, showSource);
    }
    assert domains[..|domains|] == domains;
  }

  /** `_write_plain_text_report_multi` */
  method WriteMulti(site: Site, opts: Options, files: seq<SinkKind>, out: Outputs, totalTime: Seconds)
    requires Distinct(files)
    modifies out
    ensures out.State() == Send(old(out.State()), files, Lines(MultiLines(site, opts, totalTime)))
  {
    ghost var b0 := out.State();
    SendNothing(b0, files);
    if HasAverages(site) {
      var header := MultiHeader(site, totalTime);
      var averages := AverageLines(site);
      out.Print(header, files);
      SendOne(b0, files, header);
      out.Print(averages[0], files);
      SendLine(b0, files, [header], averages[0]);
      out.Print(averages[1], files);
      SendLine(b0, files, [header] + [averages[0]], averages[1]);
      assert [header] + [averages[0]] + [averages[1]] == [header] + averages;
      var domains := SelectDomains(site, opts.reportType);
      PrintDomains(domains, files, out, opts.showSource);
      SendLines(b0, files, [header] + averages, DomainLines(domains, opts.showSource));
    }
  }

  /** `_write_plain_text_report`: the multi-site or the single-site variant. */
  method WritePlainText(site: Site, opts: Options, files: seq<SinkKind>, out: Outputs, totalTime: Seconds)
    requires Distinct(files)
    modifies out
    ensures out.State() == Send(old(out.State()), files, Lines(PlainLines(site, opts, totalTime)))
  {
    if opts.multi {
      WriteMulti(site, opts, files, out, totalTime);
    } else {
      WriteSingle(site, opts, files, out, totalTime);
    }
  }

  /** `print_summary`: prints the summary to standard output only, whatever sinks the report resolved. */
  method PrintSummary(site: Site, opts: Options, out: Outputs, totalTime: Seconds)
    modifies out
    ensures out.State() == Send(old(out.State()), [ConsoleSink], Lines(SummaryLines(site, opts, totalTime)))
  {
    ghost var b0 := out.State();
    var console := [ConsoleSink];
    var header := SummaryHeader(site, totalTime);
    out.Print(header, console);
    SendOne(b0, console, header);
    var pages := SelectPages(site, opts.reportType);
    PrintDetails(pages, console, out, opts.showSource, SingleIndent);
    SendLines(b0, console, [header], DetailLines(pages, opts.showSource, SingleIndent));
  }
}
