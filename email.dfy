/**
 * The email envelope (`send_email` up to the transport): subject, sender and
 * recipients derived from the options and the site. Building the MIME message
 * and talking to the mail server are not modelled.
 */
module Email {
  import opened Common
  import opened Strings
  import opened Model
  import opened Summary
  import opened Sinks

  /**
   * Why no envelope can be built: there is no start URL to name in the default
   * subject (the source raises an index error), or no recipient address (the
   * source prints MissingAddressMessage and exits with MissingAddressExitStatus).
   */
  datatype MailError = NoStartUrl | MissingAddress

  const MissingAddressMessage: string := "Email address must be specified when using smtp."
  const MissingAddressExitStatus: int := 1
  const DefaultFromAddress: string := "pylinkvalidator@localhost"

  /** The buffered report goes out as the body, to every recipient, under `toHeader`. */
  datatype Envelope = Envelope(
    subject: string, fromAddress: string, recipients: seq<string>, toHeader: string, body: seq<Entry>)

  /** The subject: the override, else the status label and the first start URL. */
  function Subject(site: Site, opts: Options): (r: Result<string, MailError>)
    ensures opts.subject != "" ==> r == Success(opts.subject)
    ensures opts.subject == "" && |site.startUrls| == 0 ==> r == Failure(NoStartUrl)
    ensures opts.subject == "" && |site.startUrls| > 0 ==>
              r == Success(SiteStatus(site).globalStatus + " - " + site.startUrls[0])
  {
    if opts.subject != "" then Success(opts.subject)
    else if |site.startUrls| == 0 then Failure(NoStartUrl)
    else Success(SiteStatus(site).globalStatus + " - " + site.startUrls[0])
  }

  /**
   * The envelope of the report email, derived in the source's order: subject,
   * sender, then the recipient check, which comes before any connection.
   */
  function PrepareEmail(site: Site, opts: Options, body: seq<Entry>): (r: Result<Envelope, MailError>)
    ensures r.Failure? <==> Subject(site, opts).Failure? || opts.address == ""
    ensures Subject(site, opts).Failure? ==> r == Failure(NoStartUrl)
    ensures Subject(site, opts).Success? && opts.address == "" ==> r == Failure(MissingAddress)
    ensures r.Success? ==>
              && r.value.subject == Subject(site, opts).value
              && r.value.fromAddress == (if opts.fromAddress != "" then opts.fromAddress else DefaultFromAddress)
              && |r.value.recipients| >= 1
              && Join(",", r.value.recipients) == opts.address
              && (forall i :: 0 <= i < |r.value.recipients| ==> ',' !in r.value.recipients[i])
              && r.value.toHeader == Join(", ", r.value.recipients)
              && r.value.body == body
  {
    match Subject(site, opts)
    case Failure(e) => Failure(e)
    case Success(subject) =>
      var fromAddress := if opts.fromAddress != "" then opts.fromAddress else DefaultFromAddress;
      if opts.address == "" then Failure(MissingAddress)
      else
        var addresses := Split(opts.address, ',');
        JoinSplit(opts.address, ',');
        Success(Envelope(subject, fromAddress, addresses, Join(", ", addresses), body))
  }

  /** A comma-free list of addresses, joined with commas, comes back as the same recipients. */
  lemma RecipientsRoundTrip(site: Site, opts: Options, body: seq<Entry>, addresses: seq<string>)
    requires |site.startUrls| > 0 || opts.subject != ""
    requires |addresses| >= 1 && addresses != [""]
    requires forall i :: 0 <= i < |addresses| ==> ',' !in addresses[i]
    requires opts.address == Join(",", addresses)
    ensures PrepareEmail(site, opts, body).Success?
    ensures PrepareEmail(site, opts, body).value.recipients == addresses
  {
    SplitJoin(addresses, ',');
    if |addresses| == 1 {
      assert addresses == [addresses[0]];
      assert opts.address == addresses[0] != "";
    } else {
      assert opts.address == addresses[0] + "," + Join(",", addresses[1..]);
    }
  }
}
