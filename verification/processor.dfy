/** The handling of one input record: name and domain checks, the search, and the output row. */
module Processor {
  import opened Wrappers
  import opened Ints
  import opened Strings
  import opened Errors
  import opened Models
  import Domain

  /** The domain input: `domain` when present, otherwise `company_domain`, trimmed. */
  function DomainInput(record: Contact): string {
    Trim(match record.domain case Some(d) => d case None => record.companyDomain.GetOr(""))
  }

  // ---------------------------------------------------------------------------
  // Names
  // ---------------------------------------------------------------------------

  /**
   * The names after filling the empty ones from the full name: an empty first name takes the
   * first word, an empty last name the last word (the same word when there is only one).
   */
  function Derived(first0: string, last0: string, fullName: string): (names: (string, string))
    ensures first0 != [] ==> names.0 == first0
    ensures last0 != [] ==> names.1 == last0
    ensures SplitWhitespace(fullName) == [] ==> names == (first0, last0)
    ensures SplitWhitespace(fullName) != [] ==> names.0 != [] && names.1 != []
  {
    var words := SplitWhitespace(fullName);
    SplitWhitespaceWords(fullName);
    if (first0 == [] || last0 == []) && words != [] then
      ((if first0 == [] then words[0] else first0), (if last0 == [] then words[|words| - 1] else last0))
    else (first0, last0)
  }

  /** The name derivation of `process_record`, branch by branch. */
  method DeriveNames(first0: string, last0: string, fullName: string) returns (first: string, last: string)
    ensures (first, last) == Derived(first0, last0, fullName)
  {
    first, last := first0, last0;
    if (first == [] || last == []) && fullName != [] {
      var nameParts := SplitWhitespace(fullName);
      if |nameParts| >= 2 {
        if first == [] {
          first := nameParts[0];
        }
        if last == [] {
          last := nameParts[|nameParts| - 1];
        }
      } else if |nameParts| == 1 {
        if first == [] && last == [] {
          first := nameParts[0];
          last := nameParts[0];
        } else if first == [] {
          first := nameParts[0];
        } else {
          last := nameParts[0];
        }
      }
    }
  }

  /** The position of a missing-field label in the reason text. */
  function LabelRank(item: string): int {
    if item == "first name" then 0 else if item == "last name" then 1 else 2
  }

  /** The labels of the empty fields, in the order first name, last name, domain. */
  function MissingLabels(first: string, last: string, domain: string): (labels: seq<string>)
    ensures labels == [] <==> first != [] && last != [] && domain != []
    ensures forall l :: l in labels <==>
      (l == "first name" && first == []) || (l == "last name" && last == []) || (l == "domain" && domain == [])
    ensures forall i, j :: 0 <= i < j < |labels| ==> LabelRank(labels[i]) < LabelRank(labels[j])
  {
    (if first == [] then ["first name"] else [])
    + (if last == [] then ["last name"] else [])
    + (if domain == [] then ["domain"] else [])
  }

  /** The pushes of `process_record`, one per empty field. */
  method CollectMissing(first: string, last: string, domain: string) returns (missingParts: seq<string>)
    ensures missingParts == MissingLabels(first, last, domain)
  {
    missingParts := [];
    if first == [] {
      missingParts := missingParts + ["first name"];
    }
    if last == [] {
      missingParts := missingParts + ["last name"];
    }
    if domain == [] {
      missingParts := missingParts + ["domain"];
    }
  }

  function MissingReason(labels: seq<string>): string {
    "Missing " + Join(labels, ", ")
  }

  function ExtractionReason(input: string, e: AppError): string {
    "Cannot extract domain from input '" + input + "': " + ErrorText(e)
  }

  function NormalizationReason(input: string, e: AppError): string {
    "Invalid input for URL normalization '" + input + "': " + ErrorText(e)
  }

  // ---------------------------------------------------------------------------
  // Output rows
  // ---------------------------------------------------------------------------

  /** A row for a record that was not searched. */
  function SkippedResult(record: Contact, reason: string): (r: ProcessingResult)
    ensures r.contactInput == record && r.emailFindingSkipped && r.emailFindingReason == Some(reason)
    ensures r.emailDiscoveryResults.None? && r.email.None? && r.emailConfidence.None?
    ensures r.emailVerificationMethod.None? && r.emailAlternatives == []
    ensures !r.emailVerificationFailed && r.emailFindingError.None?
  {
    ProcessingResult(record, None, None, None, None, [], true, Some(reason), false, None)
  }

  /** A row for a record whose search failed. */
  function FailedResult(record: Contact, e: AppError): (r: ProcessingResult)
    ensures r.contactInput == record && !r.emailFindingSkipped && r.emailFindingReason.None?
    ensures r.emailDiscoveryResults.None? && r.email.None? && r.emailConfidence.None?
    ensures r.emailVerificationMethod.None? && r.emailAlternatives == [] && !r.emailVerificationFailed
    ensures r.emailFindingError == Some("Core processing error: " + ErrorText(e))
  {
    ProcessingResult(record, None, None, None, None, [], false, None, false, Some("Core processing error: " + ErrorText(e)))
  }

  /** The addresses of `found`, in order, other than the selected one. */
  function Others(found: seq<FoundEmailData>, selected: Option<string>): (r: seq<string>)
    ensures |r| <= |found|
    ensures forall e :: e in r <==> Some(e) != selected && exists d :: d in found && d.email == e
    decreases |found|
  {
    if found == [] then []
    else
      var rest := Others(found[1..], selected);
      assert forall d :: d in found <==> d == found[0] || d in found[1..];
      if Some(found[0].email) != selected then [found[0].email] + rest else rest
  }

  /** One found address is kept exactly when it is not the selected one. */
  lemma OthersOne(d: FoundEmailData, selected: Option<string>)
    ensures Others([d], selected) == if Some(d.email) != selected then [d.email] else []
  {
    assert [d][1..] == [];
  }

  /**
   * Filtering commutes with concatenation, so the kept addresses stay in found order: with
   * OthersOne this determines Others on every list.
   */
  lemma {:induction false} OthersAppend(a: seq<FoundEmailData>, b: seq<FoundEmailData>, selected: Option<string>)
    ensures Others(a + b, selected) == Others(a, selected) + Others(b, selected)
    decreases |a|
  {
    if a == [] {
      assert a + b == b;
    } else {
      assert (a + b)[1..] == a[1..] + b;
      OthersAppend(a[1..], b, selected);
    }
  }

  /** The alternatives: the first `max` addresses other than the selected one. */
  function Alternatives(found: seq<FoundEmailData>, selected: Option<string>, max: nat): (alts: seq<string>)
    ensures |alts| <= max
    ensures var others := Others(found, selected);
      && |alts| <= |others| && alts == others[..|alts|]
      && (|alts| == max || alts == others)
    ensures forall e :: e in alts ==> Some(e) != selected && exists d :: d in found && d.email == e
  {
    var others := Others(found, selected);
    var alts := if |others| <= max then others else others[..max];
    assert forall e :: e in alts ==> e in others;
    alts
  }

  /** The row for a completed search. */
  function Assembled(record: Contact, results: EmailResult, maxAlternatives: nat): (r: ProcessingResult)
    ensures r.contactInput == record && r.emailDiscoveryResults == Some(results)
    ensures r.email == results.mostLikelyEmail
    ensures r.emailConfidence.Some? <==> r.email.Some?
    ensures r.emailConfidence.Some? ==> r.emailConfidence.value == results.confidenceScore
    ensures r.emailVerificationFailed <==> r.email.None? && results.foundEmails != []
    ensures r.email.Some? ==> r.email.value !in r.emailAlternatives
    ensures |r.emailAlternatives| <= maxAlternatives
    ensures !r.emailFindingSkipped && r.emailFindingReason.None? && r.emailFindingError.None?
  {
    ProcessingResult(
      record,
      Some(results),
      results.mostLikelyEmail,
      if results.mostLikelyEmail.Some? then Some(results.confidenceScore) else None,
      Some(Join(results.methodsUsed, ", ")),
      Alternatives(results.foundEmails, results.mostLikelyEmail, maxAlternatives),
      false,
      None,
      results.mostLikelyEmail.None? && results.foundEmails != [],
      None)
  }

  /** The record handed to the search. */
  function Validated(record: Contact, first: string, last: string, url: Domain.Url, domain: string): (c: ValidatedContact)
    ensures c.firstName == first && c.lastName == last && c.websiteUrl == url && c.domain == domain
    ensures c.originalContact == record
    ensures var full := Trim(record.fullName.GetOr(""));
      && (full != [] ==> c.fullName == full)
      && (full == [] ==> c.fullName == Trim(first + " " + last))
  {
    var full := Trim(record.fullName.GetOr(""));
    ValidatedContact(first, last, if full != [] then full else Trim(first + " " + last), url, domain, record)
  }

  // ---------------------------------------------------------------------------
  // process_record
  // ---------------------------------------------------------------------------

  /**
   * `process_record`. `findEmail` is the search of the contact; `maxAlternatives` the
   * configured number of alternatives.
   */
  method ProcessRecord(record: Contact, maxAlternatives: nat,
                       findEmail: ValidatedContact -> Result<EmailResult, AppError>)
    returns (r: ProcessingResult)
    ensures var names := Derived(Trim(record.firstName.GetOr("")), Trim(record.lastName.GetOr("")),
                                 Trim(record.fullName.GetOr("")));
      var input := DomainInput(record);
      var missing := MissingLabels(names.0, names.1, input);
      var domain := Domain.GetDomainFromUrl(input);
      var url := Domain.NormalizeUrl(input);
      && (missing != [] ==> r == SkippedResult(record, MissingReason(missing)))
      && (missing == [] && domain.Failure? ==> r == SkippedResult(record, ExtractionReason(input, domain.error)))
      && (missing == [] && domain.Success? && url.Failure? ==>
            r == SkippedResult(record, NormalizationReason(input, url.error)))
      && (missing == [] && domain.Success? && url.Success? ==>
            var found := findEmail(Validated(record, names.0, names.1, url.value, domain.value));
            && (found.Success? ==> r == Assembled(record, found.value, maxAlternatives))
            && (found.Failure? ==> r == FailedResult(record, found.error)))
  {
    var firstName, lastName := DeriveNames(Trim(record.firstName.GetOr("")), Trim(record.lastName.GetOr("")),
                                           Trim(record.fullName.GetOr("")));
    var domainInput := DomainInput(record);
    var missingParts := CollectMissing(firstName, lastName, domainInput);
    if missingParts != [] {
      return SkippedResult(record, MissingReason(missingParts));
    }
    var domain := Domain.GetDomainFromUrl(domainInput);
    if domain.Failure? {
      return SkippedResult(record, ExtractionReason(domainInput, domain.error));
    }
    var url := Domain.NormalizeUrl(domainInput);
    if url.Failure? {
      return SkippedResult(record, NormalizationReason(domainInput, url.error));
    }
    var contact := Validated(record, firstName, lastName, url.value, domain.value);
    var found := findEmail(contact);
    if found.Failure? {
      return FailedResult(record, found.error);
    }
    r := AssembleResult(record, found.value, maxAlternatives);
  }

  /** The row for a completed search, built and then patched as `process_record` does. */
  method AssembleResult(record: Contact, results: EmailResult, maxAlternatives: nat) returns (r: ProcessingResult)
    ensures r == Assembled(record, results, maxAlternatives)
  {
    r := ProcessingResult(
      record,
      Some(results),
      results.mostLikelyEmail,
      if results.mostLikelyEmail.Some? then Some(results.confidenceScore) else None,
      Some(Join(results.methodsUsed, ", ")),
      Alternatives(results.foundEmails, results.mostLikelyEmail, maxAlternatives),
      false,
      None,
      results.mostLikelyEmail.None? && results.foundEmails != [],
      None);
    if r.email.Some? {
      r := r.(emailVerificationFailed := false);
    } else if results.foundEmails != [] {
      r := r.(emailVerificationFailed := true);
    }
  }

  /** A record with a blank name part and no usable full name, or no domain, is skipped as missing. */
  lemma MissingIsSkipped(first0: string, last0: string, fullName: string, input: string)
    requires SplitWhitespace(fullName) == [] && (first0 == [] || last0 == [])
    ensures var names := Derived(first0, last0, fullName);
      MissingLabels(names.0, names.1, input) != []
  {
  }

  /** A non-blank full name always supplies both names, so only the domain can be missing. */
  lemma FullNameSuppliesNames(first0: string, last0: string, fullName: string, input: string)
    requires SplitWhitespace(fullName) != []
    ensures var names := Derived(first0, last0, fullName);
      MissingLabels(names.0, names.1, input) == (if input == [] then ["domain"] else [])
  {
  }
}
