/** The application's error type and its rendered text. */
module Errors {
  import opened Strings

  /**
   * `AppError`. Variants that wrap a library error (I/O, JSON, URL parsing, HTTP, DNS,
   * SMTP, address parsing, anyhow) carry that error's rendered text.
   */
  datatype AppError =
    | Config(msg: string)
    | Io(msg: string)
    | Json(msg: string)
    | UrlParse(msg: string)
    | Request(msg: string)
    | HtmlParse(msg: string)
    | Dns(msg: string)
    | NxDomain(msg: string)
    | NoDnsRecords(msg: string)
    | DnsTimeout(msg: string)
    | Smtp(msg: string)
    | SmtpCommand(code: nat, msg: string)
    | SmtpTls(msg: string)
    | AddrParse(msg: string)
    | Task(msg: string)
    | Generic(msg: string)
    | InsufficientInput(msg: string)
    | DomainExtraction(msg: string)
    | SmtpTemporaryFailure(msg: string)
    | SmtpPermanentFailure(msg: string)
    | SmtpInconclusive(msg: string)

  /** The fixed text that opens the rendering of each variant. */
  function Category(e: AppError): string {
    match e
    case Config(_) => "Configuration Error: "
    case Io(_) => "IO Error: "
    case Json(_) => "JSON Error: "
    case UrlParse(_) => "URL Parsing Error: "
    case Request(_) => "HTTP Request Error: "
    case HtmlParse(_) => "HTML Parsing Error: "
    case Dns(_) => "DNS Resolution Error: "
    case NxDomain(_) => "Domain Not Found (NXDOMAIN): "
    case NoDnsRecords(_) => "No DNS Records Found (MX/A): "
    case DnsTimeout(_) => "DNS Timeout for domain: "
    case Smtp(_) => "SMTP Error: "
    case SmtpCommand(_, _) => "SMTP Command Error: Code="
    case SmtpTls(_) => "SMTP STARTTLS Error: "
    case AddrParse(_) => "Address Parsing Error: "
    case Task(_) => "Task Execution Error: "
    case Generic(_) => "Generic Error: "
    case InsufficientInput(_) => "Insufficient Input Data: "
    case DomainExtraction(_) => "Failed to extract domain from URL: "
    case SmtpTemporaryFailure(_) => "SMTP Temporary Failure: "
    case SmtpPermanentFailure(_) => "SMTP Permanent Failure: "
    case SmtpInconclusive(_) => "SMTP Inconclusive: "
  }

  /** The `Display` rendering: the category text, then the wrapped message. */
  function ErrorText(e: AppError): string {
    match e
    case SmtpCommand(code, m) => Category(e) + NatToString(code) + ", Message='" + m + "'"
    case _ => Category(e) + e.msg
  }

  /**
   * Every rendering opens with its variant's category text; all but the SMTP command error
   * then carry the message unchanged, and that one ends by quoting it.
   */
  lemma ErrorTextShape(e: AppError)
    ensures StartsWith(ErrorText(e), Category(e))
    ensures !e.SmtpCommand? ==> ErrorText(e) == Category(e) + e.msg
    ensures e.SmtpCommand? ==> EndsWith(ErrorText(e), ", Message='" + e.msg + "'")
  {
    var c := Category(e);
    match e
    case SmtpCommand(code, m) =>
      JoinedEnds(c, NatToString(code), ", Message='" + m + "'");
    case _ =>
      JoinedEnds(c, e.msg, []);
  }

  /** `a + b + c` starts with `a` and ends with `c`. */
  lemma JoinedEnds(a: string, b: string, c: string)
    ensures StartsWith(a + b + c, a) && EndsWith(a + b + c, c)
  {
    assert (a + b + c)[..|a|] == a;
    assert (a + b + c)[|a + b|..] == c;
  }
}
