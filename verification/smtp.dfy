/** SMTP probing of one address, the classification of its outcome, and the retry loop. */
module Smtp {
  import opened Wrappers
  import opened Ints
  import opened Strings
  import opened Errors
  import opened Models

  /** The first digit of a reply code (section 4.2.1 of RFC 5321). */
  datatype Severity =
    | PositiveCompletion          // 2yz
    | PositiveIntermediate        // 3yz
    | TransientNegativeCompletion // 4yz
    | PermanentNegativeCompletion // 5yz

  type CategoryDigit = n: nat | n <= 5
  type DetailDigit = n: nat | n <= 9

  /** A three-digit reply code. */
  datatype Code = Code(severity: Severity, category: CategoryDigit, detail: DetailDigit)

  function SeverityDigit(s: Severity): (d: nat)
    ensures 2 <= d <= 5
  {
    match s
    case PositiveCompletion => 2
    case PositiveIntermediate => 3
    case TransientNegativeCompletion => 4
    case PermanentNegativeCompletion => 5
  }

  /** `u16::from(code)` */
  function CodeValue(c: Code): (v: u16)
    ensures 200 <= v <= 599
  {
    SeverityDigit(c.severity) * 100 + c.category * 10 + c.detail
  }

  /** The `Display` rendering of a code: its three digits. */
  function CodeText(c: Code): (t: string)
    ensures |t| == 3
  {
    [DigitChar(SeverityDigit(c.severity)), DigitChar(c.category), DigitChar(c.detail)]
  }

  /** The code's value and its text agree, and both lead with the severity digit. */
  lemma CodeValueAndText(c: Code)
    ensures CodeValue(c) / 100 == SeverityDigit(c.severity)
    ensures CodeValue(c) % 10 == c.detail && (CodeValue(c) / 10) % 10 == c.category
    ensures CodeText(c) == [DigitChar(CodeValue(c) / 100), DigitChar((CodeValue(c) / 10) % 10), DigitChar(CodeValue(c) % 10)]
  {
  }

  /** Distinct codes have distinct values. */
  lemma CodeValueInjective(a: Code, b: Code)
    requires CodeValue(a) == CodeValue(b)
    ensures a == b
  {
    CodeValueAndText(a);
    CodeValueAndText(b);
    assert SeverityDigit(a.severity) == SeverityDigit(b.severity);
  }

  /** `Response::is_positive`: a 2yz or 3yz reply. */
  predicate IsPositive(c: Code) {
    c.severity.PositiveCompletion? || c.severity.PositiveIntermediate?
  }

  /** A client error: its `Display` and its `Debug` renderings. */
  datatype SmtpError = SmtpError(text: string, debug: string)

  /** The commands the prober sends. */
  datatype Command = Ehlo | MailFrom(sender: string) | RcptTo(recipient: string) | Quit

  /** What a command yields: the server's reply (code and message lines) or a client error. */
  datatype Outcome = Reply(code: Code, lines: seq<string>) | Error(err: SmtpError)

  /** The reply message, its lines joined with single spaces. */
  function MessageText(lines: seq<string>): string {
    Join(lines, " ")
  }

  /** An open SMTP connection. The server's behaviour is the function `respond` of the commands sent so far. */
  class Connection {
    const respond: seq<Command> -> Outcome
    var sent: seq<Command>

    constructor(respond: seq<Command> -> Outcome)
      ensures this.respond == respond && sent == []
    {
      this.respond := respond;
      sent := [];
    }

    /** Sends `c` and returns what it yields. */
    method Send(c: Command) returns (o: Outcome)
      modifies this
      ensures sent == old(sent) + [c]
      ensures o == respond(sent)
    {
      sent := sent + [c];
      o := respond(sent);
    }

    /** `quit()`; its outcome is discarded at every call site. */
    method SendQuit()
      modifies this
      ensures sent == old(sent) + [Quit]
    {
      var _ := Send(Quit);
    }
  }

  /** The phrases of a "550 ..." error that mean the mailbox does not exist. */
  predicate SaysNonexistent(t: string) {
    Contains(t, "550") &&
    (Contains(t, "does not exist") || Contains(t, "no such user") || Contains(t, "user unknown")
     || Contains(t, "recipient not found") || Contains(t, "NoSuchUser"))
  }

  predicate SaysTransient(t: string) {
    Contains(t, "4") && (Contains(t, "temporary") || Contains(t, "transient"))
  }

  predicate SaysPermanent(t: string) {
    Contains(t, "5") && Contains(t, "permanent")
  }

  /**
   * `handle_smtp_error`: the error's text is tested against a fixed list of cases in order;
   * only a "550" with a nonexistence phrase is conclusive, a permanent error or a refused
   * connection stops retrying, and every other error asks for a retry.
   */
  function HandleSmtpError(e: SmtpError, server: string): (r: SmtpVerificationResult)
    ensures Constructible(r) && !r.isCatchAll
    ensures r.emailExists != Some(true)
    ensures r.emailExists == Some(false) <==> SaysNonexistent(e.text)
    ensures r.emailExists.None? && !r.shouldRetry <==>
      !SaysNonexistent(e.text) && !SaysTransient(e.text)
      && (SaysPermanent(e.text) || Contains(e.text, "connection refused"))
    ensures r.shouldRetry <==>
      !SaysNonexistent(e.text)
      && (SaysTransient(e.text) || (!SaysPermanent(e.text) && !Contains(e.text, "connection refused")))
    ensures SaysNonexistent(e.text) || SaysTransient(e.text) || SaysPermanent(e.text)
      || (!Contains(e.text, "connection refused") && !Contains(e.text, "connection reset")
          && !Contains(e.text, "timed out") && !Contains(e.text, "TLS") && !Contains(e.text, "tls"))
      ==> EndsWith(r.message, e.text)
  {
    var t := e.text;
    if SaysNonexistent(t) then Conclusive(false, "SMTP Rejected (User Does Not Exist): " + t, false)
    else if SaysTransient(t) then InconclusiveRetry("SMTP Transient Error: " + t)
    else if SaysPermanent(t) then InconclusiveNoRetry("SMTP Permanent Error: " + t)
    else if Contains(t, "connection refused") then InconclusiveNoRetry("Connection refused by " + server)
    else if Contains(t, "connection reset") then InconclusiveRetry("Connection reset by " + server)
    else if Contains(t, "timed out") then InconclusiveRetry("SMTP connection/operation timed out")
    else if Contains(t, "TLS") || Contains(t, "tls") then InconclusiveRetry("SMTP TLS Error: " + e.debug)
    else InconclusiveRetry("Unhandled SMTP Error: " + e.text)
  }

  const PortBlockedMessage := "Port 25 is likely blocked by your ISP. Try using a different network or VPN."

  /** The verdict on a failed connection attempt. */
  function ConnectFailure(e: SmtpError, server: string): (r: SmtpVerificationResult)
    ensures Constructible(r) && !r.isCatchAll
    ensures Contains(e.text, "timed out") || Contains(e.text, "connection refused") ==>
      r == InconclusiveNoRetry(PortBlockedMessage)
    ensures !Contains(e.text, "timed out") && !Contains(e.text, "connection refused") ==>
      r == HandleSmtpError(e, server)
  {
    if Contains(e.text, "timed out") || Contains(e.text, "connection refused") then
      InconclusiveNoRetry(PortBlockedMessage)
    else HandleSmtpError(e, server)
  }

  /** The phrases of a 5yz reply that suggest an unknown user. */
  const RejectionPhrases: seq<string> := [
    "unknown", "no such", "unavailable", "rejected", "doesn't exist", "disabled",
    "invalid address", "recipient not found", "user unknown", "mailbox unavailable"]

  predicate MentionsRejection(lowerMessage: string) {
    exists i | 0 <= i < |RejectionPhrases| :: Contains(lowerMessage, RejectionPhrases[i])
  }

  /** A 5yz reply that reads as an unknown user rather than a policy refusal. */
  predicate LikelyUnknownUser(c: Code, message: string) {
    CodeValue(c) in {550, 551, 553} || MentionsRejection(Lower(message))
  }

  /**
   * The verdict on the reply to RCPT TO: acceptance is conclusive unless the domain accepts
   * anything, 3yz and 4yz replies ask for a retry, and every 5yz reply is a conclusive
   * rejection whose message only says whether the user is likely unknown.
   */
  function RcptVerdict(c: Code, message: string, catchAll: bool): (r: SmtpVerificationResult)
    ensures Constructible(r) && !r.isCatchAll
    ensures r.emailExists == Some(true) <==> c.severity.PositiveCompletion? && !catchAll
    ensures r.emailExists == Some(false) <==> c.severity.PermanentNegativeCompletion?
    ensures r.shouldRetry <==> r.emailExists.None?
    ensures c.severity.PermanentNegativeCompletion? ==>
      (StartsWith(r.message, "SMTP Rejected (User Likely Unknown): ") <==> LikelyUnknownUser(c, message))
    ensures EndsWith(r.message, CodeText(c) + " " + message)
  {
    var detail := CodeText(c) + " " + message;
    var r := match c.severity
      case PositiveCompletion =>
        if catchAll then InconclusiveRetry("SMTP accepted (Possible Catch-All): " + detail)
        else Conclusive(true, "SMTP Verification OK: " + detail, false)
      case PositiveIntermediate => InconclusiveRetry("SMTP Unexpected Intermediate Code: " + detail)
      case TransientNegativeCompletion => InconclusiveRetry("SMTP Temp Failure/Greylisted? (4xx): " + detail)
      case PermanentNegativeCompletion =>
        if LikelyUnknownUser(c, message) then Conclusive(false, "SMTP Rejected (User Likely Unknown): " + detail, false)
        else Conclusive(false, "SMTP Rejected (Policy/Other 5xx): " + detail, false);
    PrefixedMessages(c, message, detail);
    r
  }

  lemma PrefixedMessages(c: Code, message: string, detail: string)
    requires detail == CodeText(c) + " " + message
    ensures forall p: string :: EndsWith(p + detail, CodeText(c) + " " + message)
    ensures !StartsWith("SMTP Rejected (Policy/Other 5xx): " + detail, "SMTP Rejected (User Likely Unknown): ")
  {
    forall p: string ensures EndsWith(p + detail, detail) {
      assert (p + detail)[|p + detail| - |detail|..] == detail;
    }
    PolicyIsNotUnknown(detail);
  }

  /** The two 5yz message prefixes differ at their sixteenth character. */
  lemma PolicyIsNotUnknown(detail: string)
    ensures !StartsWith("SMTP Rejected (Policy/Other 5xx): " + detail, "SMTP Rejected (User Likely Unknown): ")
  {
    var policy := "SMTP Rejected (Policy/Other 5xx): ";
    assert policy[15] == 'P';
    assert (policy + detail)[15] == 'P';
  }


  /** The address of the catch-all probe: a local part no real mailbox has. */
  function ProbeAddress(n: nat, domain: string): string {
    "no-reply-does-not-exist-" + NatToString(n) + "@" + domain
  }

  /** Only an accepting reply to the probe marks the domain as catch-all. */
  predicate AcceptsProbe(o: Outcome) {
    o.Reply? && o.code.severity.PositiveCompletion?
  }

  /**
   * What the RCPT TO stage yields after the commands `before`: an error is classified; a
   * reply decides the verdict, with the catch-all probe only after a 2yz reply and only when
   * the probe address parses; `sent` ends with QUIT.
   */
  predicate RcptDone(respond: seq<Command> -> Outcome, before: seq<Command>, email: string, domain: string,
                     server: string, addressError: string -> Option<string>, probe: nat,
                     r: SmtpVerificationResult, sent: seq<Command>)
  {
    var head := before + [RcptTo(email)];
    var t := respond(head);
    var probeAt := ProbeAddress(probe, domain);
    && (t.Error? ==> r == HandleSmtpError(t.err, server) && sent == head + [Quit])
    && (t.Reply? && (!t.code.severity.PositiveCompletion? || addressError(probeAt).Some?) ==>
          r == RcptVerdict(t.code, MessageText(t.lines), false) && sent == head + [Quit])
    && (t.Reply? && t.code.severity.PositiveCompletion? && addressError(probeAt).None? ==>
          r == RcptVerdict(t.code, MessageText(t.lines), AcceptsProbe(respond(head + [RcptTo(probeAt)])))
          && sent == head + [RcptTo(probeAt), Quit])
  }

  /**
   * The RCPT TO stage on a connection that has sent EHLO and MAIL FROM: the recipient, then
   * the catch-all probe after a 2yz reply, the verdict, and QUIT.
   */
  method RcptStage(conn: Connection, email: string, domain: string, server: string,
                   addressError: string -> Option<string>, probe: nat)
    returns (r: SmtpVerificationResult)
    modifies conn
    ensures RcptDone(conn.respond, old(conn.sent), email, domain, server, addressError, probe, r, conn.sent)
  {
    var rcpt := conn.Send(RcptTo(email));
    if rcpt.Error? {
      conn.SendQuit();
      return HandleSmtpError(rcpt.err, server);
    }
    var isCatchAll := false;
    if rcpt.code.severity.PositiveCompletion? {
      var probeAt := ProbeAddress(probe, domain);
      if addressError(probeAt).None? {
        var answer := conn.Send(RcptTo(probeAt));
        if AcceptsProbe(answer) {
          isCatchAll := true;
        }
      }
    }
    r := RcptVerdict(rcpt.code, MessageText(rcpt.lines), isCatchAll);
    conn.SendQuit();
  }

  /** The verdict when the server refuses MAIL FROM with reply `m`. */
  function MailFromRejected(m: Outcome): SmtpVerificationResult
    requires m.Reply?
  {
    InconclusiveNoRetry("MAIL FROM rejected: " + CodeText(m.code) + " " + MessageText(m.lines))
  }

  /** The commands of a session from EHLO to QUIT on a fresh connection. */
  method Converse(conn: Connection, email: string, domain: string, server: string, sender: string,
                  addressError: string -> Option<string>, probe: nat)
    returns (r: SmtpVerificationResult)
    requires conn.sent == []
    modifies conn
    ensures conn.sent != [] && conn.sent[0] == Ehlo
    ensures conn.respond([Ehlo]).Error? ==>
      r == HandleSmtpError(conn.respond([Ehlo]).err, server) && conn.sent == [Ehlo]
    ensures conn.respond([Ehlo]).Reply? ==>
      var m := conn.respond([Ehlo, MailFrom(sender)]);
      && |conn.sent| >= 3 && conn.sent[1] == MailFrom(sender) && conn.sent[|conn.sent| - 1] == Quit
      && (m.Error? ==> r == HandleSmtpError(m.err, server) && conn.sent == [Ehlo, MailFrom(sender), Quit])
      && (m.Reply? && !IsPositive(m.code) ==>
            r == MailFromRejected(m)
            && conn.sent == [Ehlo, MailFrom(sender), Quit])
    ensures (conn.respond([Ehlo]).Reply? && conn.respond([Ehlo, MailFrom(sender)]).Reply?
             && IsPositive(conn.respond([Ehlo, MailFrom(sender)]).code)) ==>
      RcptDone(conn.respond, [Ehlo, MailFrom(sender)], email, domain, server, addressError, probe, r, conn.sent)
  {
    var ehlo := conn.Send(Ehlo);
    assert conn.sent == [Ehlo];
    if ehlo.Error? {
      return HandleSmtpError(ehlo.err, server);
    }
    var mail := conn.Send(MailFrom(sender));
    assert conn.sent == [Ehlo, MailFrom(sender)];
    if mail.Error? {
      conn.SendQuit();
      return HandleSmtpError(mail.err, server);
    }
    if !IsPositive(mail.code) {
      conn.SendQuit();
      return MailFromRejected(mail);
    }
    r := RcptStage(conn, email, domain, server, addressError, probe);
  }

  /**
   * `verify_smtp_email`. The library calls become inputs: `addressError` is the address
   * parser (None when the text parses, else its error text), `lookup` is the resolution of
   * the server name (an I/O error, or whether it produced an address), `connectError` the
   * outcome of opening the connection, `respond` the server, and `probe` the random number of
   * the catch-all probe. `sent` is the sequence of commands written to the connection.
   */
  method VerifySmtpEmail(
    email: string, domain: string, server: string, sender: string,
    addressError: string -> Option<string>, lookup: Result<bool, string>,
    connectError: Option<SmtpError>, respond: seq<Command> -> Outcome, probe: nat)
    returns (r: Result<SmtpVerificationResult, AppError>, sent: seq<Command>)
    requires 100000 <= probe < 999999
    ensures r.Success? ==> Constructible(r.value) && !r.value.isCatchAll
    // The recipient does not parse: a conclusive "no" before any connection.
    ensures addressError(email).Some? ==>
      r == Success(Conclusive(false, "Invalid email format: " + addressError(email).value, false)) && sent == []
    // The configured sender does not parse.
    ensures addressError(email).None? && addressError(sender).Some? ==>
      r == Failure(Config("Invalid sender email in config: " + addressError(sender).value)) && sent == []
    ensures addressError(email).None? && addressError(sender).None? && lookup.Failure? ==>
      r == Failure(Io(lookup.error)) && sent == []
    ensures addressError(email).None? && addressError(sender).None? && lookup == Success(false) ==>
      r == Success(InconclusiveNoRetry("Could not resolve mail server address: " + server)) && sent == []
    ensures addressError(email).None? && addressError(sender).None? && lookup == Success(true) && connectError.Some? ==>
      r == Success(ConnectFailure(connectError.value, server)) && sent == []
    // Connected: EHLO first; once MAIL FROM is sent, the session ends with QUIT.
    ensures addressError(email).None? && addressError(sender).None? && lookup == Success(true) && connectError.None? ==>
      && r.Success? && sent != [] && sent[0] == Ehlo
      && (respond([Ehlo]).Error? ==> r.value == HandleSmtpError(respond([Ehlo]).err, server) && sent == [Ehlo])
      && (respond([Ehlo]).Reply? ==> |sent| >= 3 && sent[1] == MailFrom(sender) && sent[|sent| - 1] == Quit)
    // MAIL FROM refused or failed.
    ensures (addressError(email).None? && addressError(sender).None? && lookup == Success(true) && connectError.None?
             && respond([Ehlo]).Reply?) ==>
      var m := respond([Ehlo, MailFrom(sender)]);
      && (m.Error? ==> r == Success(HandleSmtpError(m.err, server)) && sent == [Ehlo, MailFrom(sender), Quit])
      && (m.Reply? && !IsPositive(m.code) ==>
            r == Success(MailFromRejected(m))
            && sent == [Ehlo, MailFrom(sender), Quit])
    // RCPT TO: an error is classified; a reply decides the verdict, with the probe after a 2yz reply.
    ensures (addressError(email).None? && addressError(sender).None? && lookup == Success(true) && connectError.None?
             && respond([Ehlo]).Reply? && respond([Ehlo, MailFrom(sender)]).Reply?
             && IsPositive(respond([Ehlo, MailFrom(sender)]).code)) ==>
      r.Success? && RcptDone(respond, [Ehlo, MailFrom(sender)], email, domain, server, addressError, probe, r.value, sent)
  {
    sent := [];
    if addressError(email).Some? {
      return Success(Conclusive(false, "Invalid email format: " + addressError(email).value, false)), sent;
    }
    if addressError(sender).Some? {
      return Failure(Config("Invalid sender email in config: " + addressError(sender).value)), sent;
    }
    if lookup.Failure? {
      return Failure(Io(lookup.error)), sent;
    }
    if !lookup.value {
      return Success(InconclusiveNoRetry("Could not resolve mail server address: " + server)), sent;
    }
    if connectError.Some? {
      return Success(ConnectFailure(connectError.value, server)), sent;
    }
    var conn := new Connection(respond);
    var verdict := Converse(conn, email, domain, server, sender, addressError, probe);
    return Success(verdict), conn.sent;
  }

  /** The message left when no attempt ran. */
  function NotRunMessage(): string {
    "SMTP check did not run or complete"
  }

  /** The message after an attempt that ended in an error. */
  function AttemptErrorMessage(e: AppError): string {
    "Internal error during SMTP check: " + ErrorText(e)
  }

  /**
   * `verify_email_smtp_with_retries`. `attempt(k)` is the outcome of the k-th call of
   * `VerifySmtpEmail`; `ran` is the number of attempts made.
   */
  method VerifyWithRetries(maxAttempts: u32, attempt: nat -> Result<SmtpVerificationResult, AppError>)
    returns (status: Option<bool>, message: string, ran: nat)
    ensures ran <= maxAttempts
    ensures ran == 0 <==> maxAttempts == 0
    ensures ran == 0 ==> status == None && message == NotRunMessage()
    // The outcome is the last attempt's.
    ensures ran > 0 ==> (status, message) == AttemptResult(attempt(ran - 1))
    // Every attempt before the last one asked for another try.
    ensures forall k :: 0 <= k < ran - 1 ==> !Stops(attempt(k))
    // Fewer attempts than allowed only when the last one stopped the loop.
    ensures 0 < ran < maxAttempts ==> Stops(attempt(ran - 1))
    ensures status.Some? ==> ran > 0 && Stops(attempt(ran - 1))
  {
    status := None;
    message := NotRunMessage();
    ran := 0;
    var a: nat := 0;
    while a < maxAttempts
      invariant a <= maxAttempts && ran == a
      invariant forall k :: 0 <= k < a ==> !Stops(attempt(k))
      invariant status == None
      invariant a == 0 ==> message == NotRunMessage()
      invariant a > 0 ==> (status, message) == AttemptResult(attempt(a - 1))
    {
      var outcome := attempt(a);
      ran := a + 1;
      match outcome {
        case Success(result) =>
          status := result.emailExists;
          message := result.message;
          if result.emailExists.Some? || !result.shouldRetry {
            return;
          }
        case Failure(e) =>
          message := AttemptErrorMessage(e);
          if a >= maxAttempts - 1 {
            status := None;
          }
      }
      a := a + 1;
    }
  }

  /** The status and message an attempt's outcome leaves. */
  function AttemptResult(o: Result<SmtpVerificationResult, AppError>): (Option<bool>, string) {
    match o
    case Success(v) => (v.emailExists, v.message)
    case Failure(e) => (None, AttemptErrorMessage(e))
  }

  /** An attempt's outcome that ends the retry loop: conclusive, or inconclusive without retry. */
  predicate Stops(o: Result<SmtpVerificationResult, AppError>) {
    o.Success? && (o.value.emailExists.Some? || !o.value.shouldRetry)
  }
}
