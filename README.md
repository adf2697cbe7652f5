# pylinkvalidator reporter, modelled in Dafny

This project models the reporting stage of pylinkvalidator, a crawler that
checks the links of a web site. After a crawl, `report` turns the crawled site
into a report and proves facts about it. It works in four steps:

- It picks the sinks: the output file, an in-memory email buffer, standard output.
- It writes a plain-text, JSON or JUnit report for the pages in scope.
- For JSON and JUnit it then prints a summary to the console.
- It prepares the report email.

Modules, one per concern of `pylinkvalidator/reporter.py`:

- `Common`: `Option` and `Result`.
- `Strings`: decimal text of naturals; Python's `split` and `join` on one character, with their round trips.
- `Text`: `truncate`, the display-string normaliser.
- `Model`: the crawled site, its pages and link sources, and the report options, all as values.
- `Summary`: the global status and error clause; the scope filter.
- `Json`: the meta block and page records of the JSON report, built by a loop.
- `JUnit`: the classification of pages into test cases, built by a loop.
- `Sinks`: sink resolution, and the `Outputs` class holding one buffer per sink that `oprint` fans out to.
- `PlainText`: the plain-text report and the console summary as line sequences, and the methods that print them line by line.
- `Email`: the envelope of the report email (subject, sender, recipients).
- `Reporter`: `report` itself.

URLs, their components, status messages and times are opaque values supplied by the crawl.
A time is a `Seconds` value carrying its own two-decimal text.

## Model

| member | source | states |
|---|---|---|
| Strings.NatToString | pylinkvalidator/reporter.py:131 | the decimal text of a count is non-empty, all digits, and has a leading zero only for zero |
| Strings.NatToStringRoundTrip | pylinkvalidator/reporter.py:131 | reading the digits back gives the count |
| Strings.NatToStringInjective | pylinkvalidator/reporter.py:131 | different counts print differently |
| Strings.Split | pylinkvalidator/reporter.py:377 | `split` on one character yields at least one piece, and no piece contains the separator |
| Strings.JoinSplit | pylinkvalidator/reporter.py:377 | joining the pieces of a split with the separator gives back the string |
| Strings.SplitJoin | pylinkvalidator/reporter.py:123-124 | splitting a join of separator-free pieces gives back the pieces |
| Strings.Join | pylinkvalidator/reporter.py:242-243 | Python's `sep.join`: the pieces with the separator between neighbours; `SplitJoin` and `JoinSplit` state what it means |
| Strings.Spaces | pylinkvalidator/reporter.py:322 | the indent is exactly `indent` spaces |
| Text.Translate | pylinkvalidator/reporter.py:348 | after the replacements no `\n`, `\r` or `\t` remains; character by character, `\n` and `\t` become one space, `\r` disappears, every other character stays; never longer |
| Text.TranslateAppend | pylinkvalidator/reporter.py:348 | the replacements work character by character: translating a + b is translating a, then b |
| Text.StripLeft | pylinkvalidator/reporter.py:349 | the result is a suffix of the input that does not start with whitespace, and everything dropped is whitespace |
| Text.StripRight | pylinkvalidator/reporter.py:349 | the result is a prefix of the input that does not end with whitespace, and everything dropped is whitespace |
| Text.Strip | pylinkvalidator/reporter.py:349 | the stripped string neither starts nor ends with whitespace |
| Text.Collapse | pylinkvalidator/reporter.py:350 | the result is empty only for an empty input, has only blank single spaces, and starts and ends with whitespace exactly when the input does |
| Text.Word | pylinkvalidator/reporter.py:350 | the first word: the longest whitespace-free prefix, followed by whitespace or the end |
| Text.WordsAreWords | pylinkvalidator/reporter.py:350 | the words of a string are non-empty and free of whitespace |
| Text.CollapseWord | pylinkvalidator/reporter.py:350 | collapsing keeps a leading word as it is and goes on after it |
| Text.WordsStripLeft | pylinkvalidator/reporter.py:349 | stripping leading whitespace keeps the words |
| Text.WordsDropTrailing | pylinkvalidator/reporter.py:349 | dropping trailing whitespace keeps the words |
| Text.CollapseJoinsWords | pylinkvalidator/reporter.py:350 | a string without trailing whitespace collapses to its words joined by single spaces, led by one space when it starts with whitespace |
| Text.Normalize | pylinkvalidator/reporter.py:348-350 | the normalised string is tidy: trimmed, single-spaced, free of `\n`, `\r` and `\t` |
| Text.NormalizeJoinsWords | pylinkvalidator/reporter.py:348-350 | the normalised string is exactly the words of the translated string joined by single spaces |
| Text.PyPrefix | pylinkvalidator/reporter.py:353 | Python's `value[:k]`, a negative k counting from the end: always a prefix, never longer than the string |
| Text.Truncate | pylinkvalidator/reporter.py:346-355 | the result is tidy; the normalised text unchanged when it fits; otherwise (size >= 3) its first size-3 characters then `...`, of length exactly size; never longer than size when size >= 3 |
| Text.TruncateDefault | pylinkvalidator/reporter.py:346 | with the default size 72: one tidy line of at most 72 characters, the normalised text when it fits, else its first 69 characters and `...` |
| Text.EllipsisTidy | pylinkvalidator/reporter.py:352-353 | cutting a tidy string and appending `...` keeps it tidy |
| Text.CollapseFixed | pylinkvalidator/reporter.py:350 | collapsing leaves a string unchanged exactly when it has only blank, single whitespace |
| Text.CollapseKeepsBlank | pylinkvalidator/reporter.py:350 | a string whose whitespace is already single blanks is left unchanged by collapsing |
| Text.TranslateFixed | pylinkvalidator/reporter.py:348 | the replacements leave a string without `\n`, `\r`, `\t` unchanged |
| Text.NormalizeFixed | pylinkvalidator/reporter.py:348-350 | normalising is idempotent on tidy strings |
| Text.TruncateIdempotent | pylinkvalidator/reporter.py:346-355 | truncating a truncated string to the same size (>= 3) changes nothing |
| Text.NonSpaceTranslate | pylinkvalidator/reporter.py:348 | the replacements keep the non-whitespace characters and their order |
| Text.NonSpaceStrip | pylinkvalidator/reporter.py:349 | stripping keeps the non-whitespace characters and their order |
| Text.NonSpaceCollapse | pylinkvalidator/reporter.py:350 | collapsing keeps the non-whitespace characters and their order |
| Text.NormalizeKeepsText | pylinkvalidator/reporter.py:348-350 | normalising drops or merges whitespace only: the non-whitespace text is untouched |
| Summary.StatusOf | pylinkvalidator/reporter.py:129-134 | the status is SUCCESS exactly when the site is ok and ERROR exactly when not; the error clause is empty exactly when ok |
| Summary.ErrorClauseStatesCount | pylinkvalidator/reporter.py:198-203 | a failed site's clause is "with ", the digits of the error count, " error(s) ", and those digits read back as the count |
| Summary.SiteStatusMeansNoErrors | pylinkvalidator/reporter.py:248-253 | for a consistent site, SUCCESS and the empty clause both mean no error pages |
| Summary.SelectPages | pylinkvalidator/reporter.py:155-158 | the errors scope is the error pages, the all scope every page, an unknown report type nothing; a consistent site's scope holds only its own pages |
| Summary.ErrorsScopeEmptyIffOk | pylinkvalidator/reporter.py:275-278 | the errors scope is empty exactly when the site is ok |
| Summary.SelectDomains | pylinkvalidator/reporter.py:224-227 | the errors scope is the per-domain error buckets, the all scope the per-domain page buckets, an unknown report type nothing |
| Json.MetaOf | pylinkvalidator/reporter.py:123-148 | the meta block counts the pages and error pages, carries the total time and the shared status and clause, and has both computed averages, with their values, or neither |
| Json.MetaStartUrlsReadBack | pylinkvalidator/reporter.py:123-124 | comma-free start URLs can be read back from the joined `start_urls` field |
| Json.RecordOf | pylinkvalidator/reporter.py:163-182 | a page record carries the page's link and status and, per source in order, its origin, origin text and target |
| Json.DocumentOf | pylinkvalidator/reporter.py:153-188 | the document holds the meta block and one record per page in scope, in order |
| Json.BuildDocument | pylinkvalidator/reporter.py:160-183 | the record loop builds exactly that document |
| Json.ErrorsDocumentCount | pylinkvalidator/reporter.py:127-158 | in the errors scope the document lists as many pages as the meta counts errors, and none exactly when SUCCESS |
| Json.AllDocumentCount | pylinkvalidator/reporter.py:126-158 | in the all scope the document lists as many pages as the meta counts URLs |
| JUnit.StatusText | pylinkvalidator/reporter.py:113 | a status prints as its digits, a missing one as None |
| JUnit.FailureMessage | pylinkvalidator/reporter.py:110-113 | a failure message is the exception text, else "Expected 200 OK but got " and the status |
| JUnit.Origins | pylinkvalidator/reporter.py:92 | one origin per link source, in order |
| JUnit.LinkedFrom | pylinkvalidator/reporter.py:102 | the stderr text starts with the "Link found on:" heading and a line break |
| JUnit.LinkedFromLines | pylinkvalidator/reporter.py:102 | the stderr text is "Link found on:" followed by the origins, one per line |
| JUnit.CaseOf | pylinkvalidator/reporter.py:94-115 | a case passes exactly when the status is 200; a passing case has stdout 200 and no failure; a failing one has the stderr text and an UnexpectedStatusCode failure with the failure message |
| JUnit.SuiteOf | pylinkvalidator/reporter.py:90-116 | the suite has the fixed name and one case per page of the site, whatever the scope, in order |
| JUnit.BuildSuite | pylinkvalidator/reporter.py:90-116 | the case loop builds exactly that suite |
| JUnit.FailedCountOf | pylinkvalidator/reporter.py:94-115 | cases built page by page fail as often as the pages lack status 200 |
| JUnit.SuiteFailures | pylinkvalidator/reporter.py:90-116 | the suite fails exactly as many cases as the site has pages without status 200 |
| Sinks.Lines | pylinkvalidator/reporter.py:340-343 | each printed message is one entry, in order |
| Sinks.LinesAppend | pylinkvalidator/reporter.py:340-343 | printing a then b is printing a + b |
| Sinks.ResolveSinks | pylinkvalidator/reporter.py:47-60 | one to three distinct sinks; the file exactly when an output path is set, first; the email buffer exactly when smtp is set, next; the console exactly when asked for or when nothing else was added, last |
| Sinks.Send | pylinkvalidator/reporter.py:340-343 | the buffers after `oprint`: the entries appended to each listed sink; `SendOf` states it sink by sink |
| Sinks.SendOf | pylinkvalidator/reporter.py:340-343 | a fan-out appends the entries to each listed sink and leaves every other sink unchanged |
| Sinks.SendTwice | pylinkvalidator/reporter.py:340-343 | two fan-outs to the same sinks are one fan-out of both entry lists, in order |
| Sinks.SendKeepsAgreement | pylinkvalidator/reporter.py:340-343 | sinks that held the same lines still hold the same lines after any fan-out to both |
| Sinks.Outputs.constructor | pylinkvalidator/reporter.py:47-49 | all buffers start empty |
| Sinks.Outputs.Write | pylinkvalidator/reporter.py:189-190 | a write appends one entry to the one sink |
| Sinks.Outputs.Print | pylinkvalidator/reporter.py:340-343 | `oprint` appends the message to every listed sink and changes nothing else |
| PlainText.StatusLine | pylinkvalidator/reporter.py:324-327 | a page's status line starts with a line break and the indent and ends with the page URL |
| PlainText.ContentLine | pylinkvalidator/reporter.py:328-330 | a content line starts with the indent and two spaces and ends with the message |
| PlainText.FromLine | pylinkvalidator/reporter.py:332-333 | a source line starts with the indent and "  from " and ends with the target |
| PlainText.ContextLine | pylinkvalidator/reporter.py:334-337 | a context line starts with the indent and four spaces and ends with the origin text |
| PlainText.SourceBlock | pylinkvalidator/reporter.py:331-337 | one source takes one nested line, two with show_source |
| PlainText.PageLines | pylinkvalidator/reporter.py:324-337 | a page block is its status line first, then one line per content message and one or two per source |
| PlainText.DetailLines | pylinkvalidator/reporter.py:321-337 | the page blocks take at least one line per page and are empty exactly when there is no page |
| PlainText.ContentLines | pylinkvalidator/reporter.py:328-330 | one nested line per content message |
| PlainText.ContentLinesAt | pylinkvalidator/reporter.py:328-330 | line i of the content lines is the indent, two spaces and message i |
| PlainText.SourceLines | pylinkvalidator/reporter.py:331-337 | one nested line per source, two with show_source |
| PlainText.SourceLinesAt | pylinkvalidator/reporter.py:331-337 | source j's from line is line j, or with show_source line 2j directly followed by its context line |
| PlainText.DetailLinesCount | pylinkvalidator/reporter.py:321-337 | the page blocks take 1 + messages + sources × (2 with show_source, else 1) lines per page |
| PlainText.DetailLinesAppend | pylinkvalidator/reporter.py:323 | pages are printed in iteration order |
| PlainText.OneStatusLinePerPage | pylinkvalidator/reporter.py:324-327 | exactly one line per page starts with a line break: its status line |
| PlainText.DetailLinesIndented | pylinkvalidator/reporter.py:322-337 | every line starts with the indent, past the status line's leading break |
| PlainText.DetailLinesNoBlankLead | pylinkvalidator/reporter.py:321-337 | with an indent, no page-block line starts with a blank line |
| PlainText.SummaryHeader | pylinkvalidator/reporter.py:259-261 | the single-site header starts with the status and " Crawled " and ends with " seconds" |
| PlainText.MultiHeader | pylinkvalidator/reporter.py:209-214 | the multi-site header starts with the status and " Crawled " and ends with " seconds" |
| PlainText.AverageLines | pylinkvalidator/reporter.py:216-220 | two lines, each an "  average " line ending with " seconds" |
| PlainText.StartUrlsLine | pylinkvalidator/reporter.py:281 | the start-URL line leads with its label, and comma-free start URLs can be read back from it |
| PlainText.SingleHead | pylinkvalidator/reporter.py:255-271 | the header followed by both average lines, or none of the three lines when an average could not be computed |
| PlainText.SingleBody | pylinkvalidator/reporter.py:273-282 | empty exactly when the scope selects no page; otherwise the start-URL line, then the page blocks: one status line per page in scope, every line indented by 2 |
| PlainText.SingleLines | pylinkvalidator/reporter.py:241-282 | the single-site report is empty exactly when an average is missing and the scope selects no page |
| PlainText.DomainLine | pylinkvalidator/reporter.py:232 | a domain header starts with a blank line and ends with the domain |
| PlainText.DomainBlock | pylinkvalidator/reporter.py:230-235 | empty exactly when the domain has no page; otherwise its "Start Domain" line, then its page blocks: one status line per page, every line indented by 4 |
| PlainText.DomainLines | pylinkvalidator/reporter.py:229-235 | the domain blocks in order, empty exactly when no domain has a page |
| PlainText.MultiLines | pylinkvalidator/reporter.py:205-238 | empty exactly when an average is missing; otherwise the multi-site header, both average lines, and exactly one line led by a blank line per non-empty selected domain: its "Start Domain" header |
| PlainText.PlainLines | pylinkvalidator/reporter.py:80-84 | with the multi option the multi-site report (header, averages, one domain header per non-empty domain); without it the single-site report (header and averages, or the start-URL line first when an average is missing), each empty in its own case |
| PlainText.SummaryLines | pylinkvalidator/reporter.py:285-318 | the summary header first, then exactly one line led by a line break per page in scope (its status line), every later line indented by 2; only the header when the scope is empty |
| PlainText.OneHeaderPerDomain | pylinkvalidator/reporter.py:229-235 | the multi-site body has one "Start Domain" header per non-empty domain and skips empty ones |
| PlainText.SummaryRepeatsSingleReport | pylinkvalidator/reporter.py:285-318 | the console summary repeats the single-site report's header and page blocks, without the averages and start URLs |
| PlainText.PageStatusLine | pylinkvalidator/reporter.py:324-337 | a page block has exactly one line led by a line break |
| PlainText.PageIndented | pylinkvalidator/reporter.py:322-337 | every line of a page block starts with the indent, past the status line's leading break |
| PlainText.PrintContent | pylinkvalidator/reporter.py:328-330 | the content-message loop sends one line per message, in order, to every sink |
| PlainText.PrintSource | pylinkvalidator/reporter.py:332-337 | one source sends its from line and, with show_source, its context line to every sink |
| PlainText.PrintSources | pylinkvalidator/reporter.py:331-337 | the source loop sends the source blocks in order to every sink |
| PlainText.PrintPage | pylinkvalidator/reporter.py:324-337 | printing one page sends its block to every sink |
| PlainText.PrintDetails | pylinkvalidator/reporter.py:321-337 | `_print_details` sends the page blocks to every sink, in order |
| PlainText.PrintSingleHead | pylinkvalidator/reporter.py:255-271 | the header and both averages, or nothing when an average could not be computed |
| PlainText.PrintSingleBody | pylinkvalidator/reporter.py:273-282 | the start URLs and page blocks when the scope selects a page, else nothing |
| PlainText.WriteSingle | pylinkvalidator/reporter.py:241-282 | the single-site report: header and averages when they could be computed, then the start URLs and page blocks when the scope is non-empty |
| PlainText.PrintDomain | pylinkvalidator/reporter.py:230-235 | one domain's header and blocks, or nothing for an empty domain |
| PlainText.PrintDomains | pylinkvalidator/reporter.py:229-235 | the domains in order |
| PlainText.WriteMulti | pylinkvalidator/reporter.py:194-238 | the multi-site report, or nothing when an average could not be computed |
| PlainText.WritePlainText | pylinkvalidator/reporter.py:80-84 | the multi-site or the single-site report, by the multi option |
| PlainText.PrintSummary | pylinkvalidator/reporter.py:285-318 | the summary goes to standard output only |
| Email.Subject | pylinkvalidator/reporter.py:360-366 | the override, else the site status label, " - " and the first start URL; no start URL is an error |
| Email.PrepareEmail | pylinkvalidator/reporter.py:358-377 | fails exactly on a missing start URL for the default subject or an empty address; otherwise the subject, the sender with its default, comma-free recipients that join back to the address, and the buffered body |
| Email.RecipientsRoundTrip | pylinkvalidator/reporter.py:377 | a comma-joined list of comma-free addresses is recovered as the recipients |
| Reporter.WriteJsonReport | pylinkvalidator/reporter.py:122-191 | with an output file, the document goes to that file and then the summary to standard output; without one, nothing changes |
| Reporter.WriteJUnitReport | pylinkvalidator/reporter.py:87-119 | with an output file, the suite goes to that file and then the summary to standard output; without one, nothing changes |
| Reporter.FanOutFromEmpty | pylinkvalidator/reporter.py:340-343 | from empty buffers, exactly the listed sinks hold the printed lines |
| Reporter.Report | pylinkvalidator/reporter.py:45-77 | plain text reaches every resolved sink and nothing else; JSON and JUnit write the document to the file and the summary to standard output, or nothing without an output file; the email is prepared exactly when smtp is set, from the email buffer |

## Left out

- Real I/O is not modelled: opening and closing the output file (`close_quietly`), standard output, `print`. Sinks are in-memory buffers of entries, one entry per printed line.
- SMTP transport and MIME construction are not modelled: connecting, TLS, login, sending. `PrepareEmail` stops at the envelope.
- `sys.exit(1)` after the missing-address message is the `MissingAddress` error value. `MissingAddressMessage` and `MissingAddressExitStatus` keep its text and code.
- Floating-point times, the averages (computed in `models.py`, which is not part of this model) and `{:.2f}` formatting are not modelled. An average that raised is `None`, and a time carries its formatted text.
- The byte layout of `json.dumps` and the XML of `junit_xml` are not modelled. The JSON document and the JUnit suite are records of their contents.
- Tracebacks and logger calls are diagnostics only and are left out. A swallowed exception shows up only as output that was not written.
- URL parsing (`geturl`, hostname, port, ...) is not modelled. URLs and their parts are strings supplied by the crawl.
- Python `None` and the empty string are both falsy. For the output, smtp, subject, from and address options both are modelled as the empty string.
- Text.Truncate: no length bound is stated for size < 3. There the source slices with a negative index, which `PyPrefix` models, and the result can be longer than size.
- Summary.SelectPages: the scope is modelled as sequences in the crawl's insertion order. Python 3 dictionaries iterate in that order.
- The model follows Python 3. Under Python 2, which the code also supports, dictionaries have no defined order, and `\s` and `str.strip` treat only ASCII whitespace as whitespace on byte strings. `Text.IsSpace` is the Unicode whitespace class.
- Reporter.Report: in the JSON and JUnit formats `print_summary` runs only after the document was written to the output file. Without an output file the write raises, the exception is swallowed, and no summary is printed.
- Reporter.Report: an error from `send_email` propagates out of `report` in the source. Here it is the returned `Failure` value.
