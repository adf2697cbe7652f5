/**
 * Output sinks (`report` and `oprint`). The reporter writes to a list of
 * sinks resolved once per report: the output file, the buffer that becomes
 * the email body, and the console. Each sink is a line buffer here; writing a
 * message to a sink appends one entry.
 */
module Sinks {
  import Json
  import JUnit

  datatype SinkKind = FileSink | EmailSink | ConsoleSink

  /** What a sink receives: a printed line, or a whole serialised document. */
  datatype Entry = Line(text: string) | JsonDocument(doc: Json.Document) | JUnitDocument(suite: JUnit.Suite)

  predicate Distinct(kinds: seq<SinkKind>) {
    forall i, j :: 0 <= i < j < |kinds| ==> kinds[i] != kinds[j]
  }

  /** The entries that printing the messages in order produces. */
  function Lines(messages: seq<string>): (es: seq<Entry>)
    ensures |es| == |messages|
    ensures forall i :: 0 <= i < |messages| ==> es[i] == Line(messages[i])
  {
    seq(|messages|, i requires 0 <= i < |messages| => Line(messages[i]))
  }

  lemma LinesAppend(a: seq<string>, b: seq<string>)
    ensures Lines(a + b) == Lines(a) + Lines(b)
  {
  }

  /**
   * Resolves the sinks in the order the source appends them: the file when an
   * output path is set, the email buffer when a mail host is set, and the
   * console when asked for or when nothing else was added.
   */
  method ResolveSinks(hasOutput: bool, hasSmtp: bool, console: bool) returns (files: seq<SinkKind>)
    ensures 1 <= |files| <= 3 && Distinct(files)
    ensures FileSink in files <==> hasOutput
    ensures EmailSink in files <==> hasSmtp
    ensures ConsoleSink in files <==> console || (!hasOutput && !hasSmtp)
    ensures hasOutput ==> files[0] == FileSink
    ensures hasSmtp ==> files[if hasOutput then 1 else 0] == EmailSink
    ensures ConsoleSink in files ==> files[|files| - 1] == ConsoleSink
  {
    files := [];
    if hasOutput {
      files := files + [FileSink];
    }
    if hasSmtp {
      files := files + [EmailSink];
    }
    if console || files == [] {
      files := files + [ConsoleSink];
    }
  }

  /** What the three sinks hold: the output file, the email body, and standard output. */
  datatype Buffers = Buffers(file: seq<Entry>, email: seq<Entry>, stdout: seq<Entry>) {
    function Of(kind: SinkKind): seq<Entry> {
      match kind
      case FileSink => file
      case EmailSink => email
      case ConsoleSink => stdout
    }
  }

  /** The buffers after the entries are written, in order, to every listed sink. */
  function Send(b: Buffers, files: seq<SinkKind>, entries: seq<Entry>): Buffers
  {
    Buffers(b.file + (if FileSink in files then entries else []),
            b.email + (if EmailSink in files then entries else []),
            b.stdout + (if ConsoleSink in files then entries else []))
  }

  /** Every listed sink gains the entries after what it held; every other sink keeps what it held. */
  lemma SendOf(b: Buffers, files: seq<SinkKind>, entries: seq<Entry>, k: SinkKind)
    ensures Send(b, files, entries).Of(k) == b.Of(k) + (if k in files then entries else [])
  {
  }

  /** Writing x and then y to the same sinks is writing x + y. */
  lemma SendTwice(b: Buffers, files: seq<SinkKind>, x: seq<Entry>, y: seq<Entry>)
    ensures Send(Send(b, files, x), files, y) == Send(b, files, x + y)
  {
    assert forall z: seq<Entry> :: z + x + y == z + (x + y);
    assert forall z: seq<Entry> :: z + [] + [] == z;
  }

  /** Printing the lines x and then the lines y is printing x + y. */
  lemma SendLines(b: Buffers, files: seq<SinkKind>, x: seq<string>, y: seq<string>)
    ensures Send(Send(b, files, Lines(x)), files, Lines(y)) == Send(b, files, Lines(x + y))
  {
    LinesAppend(x, y);
    SendTwice(b, files, Lines(x), Lines(y));
  }

  /** Printing no lines changes nothing. */
  lemma SendNothing(b: Buffers, files: seq<SinkKind>)
    ensures Send(b, files, Lines([])) == b
  {
    assert Lines([]) == [];
  }

  /** Printing one line into untouched buffers. */
  lemma SendOne(b: Buffers, files: seq<SinkKind>, m: string)
    ensures Send(b, files, [Line(m)]) == Send(b, files, Lines([m]))
  {
    assert Lines([m]) == [Line(m)];
  }

  /** Printing the lines x and then the line m is printing x + [m]. */
  lemma SendLine(b: Buffers, files: seq<SinkKind>, x: seq<string>, m: string)
    ensures Send(Send(b, files, Lines(x)), files, [Line(m)]) == Send(b, files, Lines(x + [m]))
  {
    assert Lines([m]) == [Line(m)];
    SendLines(b, files, x, [m]);
  }

  /** Sinks that held the same entries still do after a write to all of them. */
  lemma SendKeepsAgreement(b: Buffers, files: seq<SinkKind>, entries: seq<Entry>, k: SinkKind, k': SinkKind)
    requires k in files && k' in files && b.Of(k) == b.Of(k')
    ensures Send(b, files, entries).Of(k) == Send(b, files, entries).Of(k')
  {
  }

  /** The sinks of one report, each a line buffer. */
  class Outputs {
    var file: seq<Entry>
    var email: seq<Entry>
    var stdout: seq<Entry>

    constructor ()
      ensures State() == Buffers([], [], [])
    {
      file, email, stdout := [], [], [];
    }

    function State(): Buffers
      reads this
    {
      Buffers(file, email, stdout)
    }

    /** Writes one entry to one sink; the other sinks keep what they hold. */
    method Write(kind: SinkKind, entry: Entry)
      modifies this
      ensures State() == Send(old(State()), [kind], [entry])
    {
      match kind
      case FileSink => file := file + [entry];
      case EmailSink => email := email + [entry];
      case ConsoleSink => stdout := stdout + [entry];
    }

    /**
     * `oprint`: prints the message to every listed sink, in list order. Each
     * listed sink gains exactly that line and the others are untouched.
     */
    method Print(message: string, files: seq<SinkKind>)
      requires Distinct(files)
      modifies this
      ensures State() == Send(old(State()), files, [Line(message)])
    {
      for i := 0 to |files|
        invariant State() == Send(old(State()), files[..i], [Line(message)])
      {
        assert files[i] !in files[..i];
        Write(files[i], Line(message));
        assert files[..i + 1] == files[..i] + [files[i]];
      }
      assert files[..|files|] == files;
    }
  }
}
