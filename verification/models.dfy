/** The records passed between the stages of the email search. */
module Models {
  import opened Wrappers
  import opened Ints
  import Domain

  /**
   * An input contact. `otherFields` holds the remaining JSON members of the record,
   * each rendered as text.
   */
  datatype Contact = Contact(
    firstName: Option<string>,
    lastName: Option<string>,
    fullName: Option<string>,
    domain: Option<string>,
    companyDomain: Option<string>,
    otherFields: map<string, string>)

  /** How a candidate address was found; rendered as "pattern" or "scraped". */
  datatype Source = Pattern | Scraped

  function SourceName(s: Source): string {
    match s
    case Pattern => "pattern"
    case Scraped => "scraped"
  }

  /** One address found for a contact, with its score and verification outcome. */
  datatype FoundEmailData = FoundEmailData(
    email: string,
    confidence: u8,
    source: Source,
    isGeneric: bool,
    verificationStatus: Option<bool>,
    verificationMessage: string)

  /** The outcome of the search for one contact. */
  datatype EmailResult = EmailResult(
    foundEmails: seq<FoundEmailData>,
    mostLikelyEmail: Option<string>,
    confidenceScore: u8,
    methodsUsed: seq<string>,
    verificationLog: map<string, string>)

  /** `EmailResult::default()` */
  const EmptyEmailResult := EmailResult([], None, 0, [], map[])

  /** The output record for one contact: the input plus the discovery fields. */
  datatype ProcessingResult = ProcessingResult(
    contactInput: Contact,
    emailDiscoveryResults: Option<EmailResult>,
    email: Option<string>,
    emailConfidence: Option<u8>,
    emailVerificationMethod: Option<string>,
    emailAlternatives: seq<string>,
    emailFindingSkipped: bool,
    emailFindingReason: Option<string>,
    emailVerificationFailed: bool,
    emailFindingError: Option<string>)

  /** A contact whose names and domain have been checked and derived. */
  datatype ValidatedContact = ValidatedContact(
    firstName: string,
    lastName: string,
    fullName: string,
    websiteUrl: Domain.Url,
    domain: string,
    originalContact: Contact)

  /**
   * The outcome of one SMTP probe: `emailExists` is Some(true) or Some(false) when the server
   * answered conclusively and None otherwise.
   */
  datatype SmtpVerificationResult = SmtpVerificationResult(
    emailExists: Option<bool>,
    message: string,
    shouldRetry: bool,
    isCatchAll: bool)

  /** A retry is only ever suggested for an inconclusive result. */
  predicate WellFormed(r: SmtpVerificationResult) {
    r.shouldRetry ==> r.emailExists.None?
  }

  /** The results the three constructors can build. */
  predicate Constructible(r: SmtpVerificationResult) {
    WellFormed(r) && (r.emailExists.None? ==> !r.isCatchAll)
  }

  /** `SmtpVerificationResult::conclusive` */
  function Conclusive(emailExists: bool, message: string, isCatchAll: bool): (r: SmtpVerificationResult)
    ensures r.emailExists == Some(emailExists) && r.message == message
    ensures !r.shouldRetry && r.isCatchAll == isCatchAll
    ensures Constructible(r)
  {
    SmtpVerificationResult(Some(emailExists), message, false, isCatchAll)
  }

  /** `SmtpVerificationResult::inconclusive_retry` */
  function InconclusiveRetry(message: string): (r: SmtpVerificationResult)
    ensures r.emailExists.None? && r.message == message
    ensures r.shouldRetry && !r.isCatchAll
    ensures Constructible(r)
  {
    SmtpVerificationResult(None, message, true, false)
  }

  /** `SmtpVerificationResult::inconclusive_no_retry` */
  function InconclusiveNoRetry(message: string): (r: SmtpVerificationResult)
    ensures r.emailExists.None? && r.message == message
    ensures !r.shouldRetry && !r.isCatchAll
    ensures Constructible(r)
  {
    SmtpVerificationResult(None, message, false, false)
  }

  /**
   * The three constructors build exactly the well-formed results in which an inconclusive
   * outcome is never marked catch-all; each such result comes from exactly one of them.
   */
  lemma ConstructorsCover(r: SmtpVerificationResult)
    ensures Constructible(r) <==>
      || r == Conclusive(r.emailExists.GetOr(false), r.message, r.isCatchAll)
      || r == InconclusiveRetry(r.message)
      || r == InconclusiveNoRetry(r.message)
    ensures Constructible(r) ==>
      (r.emailExists.Some? <==> r == Conclusive(r.emailExists.GetOr(false), r.message, r.isCatchAll)) &&
      (r.shouldRetry <==> r == InconclusiveRetry(r.message)) &&
      (r.emailExists.None? && !r.shouldRetry <==> r == InconclusiveNoRetry(r.message))
  {
  }
}
