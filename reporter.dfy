/**
 * The report entry point: resolves the sinks, writes the report in the chosen
 * format and hands the buffered email body to the mail step.
 */
module Reporter {
  import opened Common
  import opened Model
  import opened Json
  import opened JUnit
  import opened Sinks
  import opened PlainText
  import opened Email

  /** Nothing written yet, to any sink. */
  function Empty(): Buffers {
    Buffers([], [], [])
  }

  /**
   * `_write_json_report`: the document goes to the output file, then the
   * summary to standard output. Without an output file the write raises and
   * nothing is written.
   */
  method WriteJsonReport(site: Site, opts: Options, hasOutput: bool, out: Outputs, totalTime: Seconds)
    modifies out
    ensures out.State() ==
              if hasOutput then
                Send(Send(old(out.State()), [FileSink], [JsonDocument(DocumentOf(site, opts.reportType, totalTime))]),
                     [ConsoleSink], Lines(SummaryLines(site, opts, totalTime)))
              else old(out.State())
  {
    var doc := BuildDocument(site, opts.reportType, totalTime);
    if hasOutput {
      out.Write(FileSink, JsonDocument(doc));
      PrintSummary(site, opts, out, totalTime);
    }
  }

  /**
   * `_write_junit_report`: the suite goes to the output file, then the summary
   * to standard output. Without an output file the write raises and nothing is
   * written.
   */
  method WriteJUnitReport(site: Site, opts: Options, hasOutput: bool, out: Outputs, totalTime: Seconds)
    modifies out
    ensures out.State() ==
              if hasOutput then
                Send(Send(old(out.State()), [FileSink], [JUnitDocument(SuiteOf(site))]),
                     [ConsoleSink], Lines(SummaryLines(site, opts, totalTime)))
              else old(out.State())
  {
    var suite := BuildSuite(site);
    if hasOutput {
      out.Write(FileSink, JUnitDocument(suite));
      PrintSummary(site, opts, out, totalTime);
    }
  }

  /** From empty buffers, the document lands in the file and the summary on standard output; the email buffer stays empty. */
  lemma StructuredOutput(document: Entry, summary: seq<Entry>)
    ensures Send(Send(Empty(), [FileSink], [document]), [ConsoleSink], summary) == Buffers([document], [], summary)
  {
  }

  /** From empty buffers, a fan-out leaves exactly the listed sinks holding the entries. */
  lemma FanOutFromEmpty(files: seq<SinkKind>, entries: seq<Entry>)
    ensures forall k :: Send(Empty(), files, entries).Of(k) == (if k in files then entries else [])
  {
    forall k: SinkKind
      ensures Send(Empty(), files, entries).Of(k) == (if k in files then entries else [])
    {
      SendOf(Empty(), files, entries, k);
    }
  }

  /**
   * `report`. The plain text goes to every resolved sink. The JSON document and
   * the JUnit suite go to the output file only, followed by the summary on
   * standard output; without an output file the write fails, the failure is
   * swallowed and nothing at all is written. The email envelope is prepared
   * exactly when an SMTP host is configured, from whatever the email buffer holds.
   */
  method Report(site: Site, opts: Options, totalTime: Seconds)
    returns (files: seq<SinkKind>, out: Outputs, mail: Option<Result<Envelope, MailError>>)
    ensures fresh(out)
    ensures Distinct(files)
    ensures FileSink in files <==> opts.output != ""
    ensures EmailSink in files <==> opts.smtp != ""
    ensures ConsoleSink in files <==> opts.console || (opts.output == "" && opts.smtp == "")
    ensures opts.format == Plain ==>
              forall k :: out.State().Of(k) == (if k in files then Lines(PlainLines(site, opts, totalTime)) else [])
    ensures opts.format == Json && opts.output != "" ==>
              out.State() == Buffers([JsonDocument(DocumentOf(site, opts.reportType, totalTime))], [],
                                     Lines(SummaryLines(site, opts, totalTime)))
    ensures opts.format == JUnit && opts.output != "" ==>
              out.State() == Buffers([JUnitDocument(SuiteOf(site))], [], Lines(SummaryLines(site, opts, totalTime)))
    ensures opts.format != Plain && opts.output == "" ==> out.State() == Empty()
    ensures opts.format != Plain ==> out.State().email == []
    ensures mail == if opts.smtp != "" then Some(PrepareEmail(site, opts, out.email)) else None
  {
    files := ResolveSinks(opts.output != "", opts.smtp != "", opts.console);
    out := new Outputs();
    match opts.format {
      case Plain =>
        WritePlainText(site, opts, files, out, totalTime);
        FanOutFromEmpty(files, Lines(PlainLines(site, opts, totalTime)));
      case Json =>
        WriteJsonReport(site, opts, FileSink in files, out, totalTime);
        StructuredOutput(JsonDocument(DocumentOf(site, opts.reportType, totalTime)), Lines(SummaryLines(site, opts, totalTime)));
      case JUnit =>
        WriteJUnitReport(site, opts, FileSink in files, out, totalTime);
        StructuredOutput(JUnitDocument(SuiteOf(site)), Lines(SummaryLines(site, opts, totalTime)));
    }
    if EmailSink in files {
      mail := Some(PrepareEmail(site, opts, out.email));
    } else {
      mail := None;
    }
  }
}
