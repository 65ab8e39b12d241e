/**
 * The search for one contact: scraped-address filter, candidate merge, per-candidate
 * scoring and verification, ordering, and the choice of the most likely address.
 */
module Sleuth {
  import opened Wrappers
  import opened Ints
  import opened Strings
  import opened Errors
  import opened Models
  import Patterns
  import Sorting
  import Dns

  // ---------------------------------------------------------------------------
  // Generic prefixes and the scraped-address filter
  // ---------------------------------------------------------------------------

  /** `is_generic_prefix`: the lower-cased text before the first '@' is a configured prefix. */
  predicate IsGenericPrefix(email: string, prefixes: set<string>) {
    Lower(Before(email, '@')) in prefixes
  }

  /** The text before the first '@' of `local + "@" + rest` is `local`. */
  lemma BeforeAddress(local: string, rest: string)
    requires '@' !in local
    ensures Before(local + "@" + rest, '@') == local
  {
    var s := local + "@" + rest;
    assert s[|local|] == '@';
    assert s[..|local|] == local;
  }

  /** For an address `local@domain` the test reads the local part alone. */
  lemma GenericPrefixOfAddress(local: string, domain: string, prefixes: set<string>)
    requires '@' !in local
    ensures IsGenericPrefix(local + "@" + domain, prefixes) <==> Lower(local) in prefixes
  {
    BeforeAddress(local, domain);
  }

  /** Lower-casing leaves the position of the first '@' where it was. */
  lemma FindAtOfLower(s: string)
    ensures FindChar(Lower(s), '@') == FindChar(s, '@')
  {
    var i, j := FindChar(s, '@'), FindChar(Lower(s), '@');
    // The first '@' of either string sits at the same place in the other.
    assert forall k :: 0 <= k < |s| ==> (Lower(s)[k] == '@' <==> s[k] == '@');
    assert forall k :: 0 <= k < i ==> s[..i][k] == s[k];
    assert forall k :: 0 <= k < j ==> Lower(s)[..j][k] == Lower(s)[k];
  }

  /** The test does not depend on the case of the address. */
  lemma GenericPrefixIgnoresCase(email: string, prefixes: set<string>)
    ensures IsGenericPrefix(Lower(email), prefixes) <==> IsGenericPrefix(email, prefixes)
  {
    FindAtOfLower(email);
    var i := FindChar(email, '@');
    assert Before(Lower(email), '@') == Lower(Before(email, '@'));
    LowerIsLower(Before(email, '@'));
    LowerOfLower(Lower(Before(email, '@')));
  }

  /** A scraped address is kept when it is at the contact's domain or has a generic prefix. */
  predicate Relevant(email: string, domain: string, prefixes: set<string>) {
    EndsWith(email, "@" + domain) || IsGenericPrefix(email, prefixes)
  }

  /** The scraped addresses that are kept, in scraped order. */
  function FilterScraped(scraped: seq<string>, domain: string, prefixes: set<string>): (r: seq<string>)
    ensures |r| <= |scraped|
    ensures forall e :: e in r <==> e in scraped && Relevant(e, domain, prefixes)
    decreases |scraped|
  {
    if scraped == [] then []
    else
      var rest := FilterScraped(scraped[1..], domain, prefixes);
      assert forall e :: e in scraped <==> e == scraped[0] || e in scraped[1..];
      if Relevant(scraped[0], domain, prefixes) then [scraped[0]] + rest else rest
  }

  // ---------------------------------------------------------------------------
  // Candidate merge
  // ---------------------------------------------------------------------------

  /** The address mentions the lower-cased first or last name. */
  predicate NameMatch(s: string, firstLower: string, lastLower: string) {
    Contains(s, firstLower) || Contains(s, lastLower)
  }

  /** `add_candidate`: a non-empty address not yet listed, ignoring case, is appended lower-cased. */
  function AddCandidate(list: seq<string>, email: string): seq<string> {
    if email != [] && Lower(email) !in list then list + [Lower(email)] else list
  }

  /** One merge pass: `add_candidate` over the members of `xs` whose name match is `matching`. */
  function AddPass(list: seq<string>, xs: seq<string>, firstLower: string, lastLower: string, matching: bool): seq<string>
    decreases |xs|
  {
    if xs == [] then list
    else
      var before := AddPass(list, xs[..|xs| - 1], firstLower, lastLower, matching);
      if NameMatch(xs[|xs| - 1], firstLower, lastLower) == matching then AddCandidate(before, xs[|xs| - 1]) else before
  }

  /**
   * The four passes: name-matching patterns, name-matching scraped addresses, the other
   * scraped addresses, the other patterns. `patternOrder` is the iteration order of the
   * pattern set.
   */
  function Merge(patternOrder: seq<string>, scraped: seq<string>, firstLower: string, lastLower: string): seq<string> {
    var g1 := AddPass([], patternOrder, firstLower, lastLower, true);
    var g2 := AddPass(g1, scraped, firstLower, lastLower, true);
    var g3 := AddPass(g2, scraped, firstLower, lastLower, false);
    AddPass(g3, patternOrder, firstLower, lastLower, false)
  }

  predicate Distinct(list: seq<string>) {
    forall i, j :: 0 <= i < j < |list| ==> list[i] != list[j]
  }

  /** Lower-case, non-empty and free of duplicates. */
  predicate Clean(list: seq<string>) {
    && (forall i :: 0 <= i < |list| ==> list[i] != [] && IsLower(list[i]))
    && Distinct(list)
  }

  /** The addresses of `xs` that a pass adds, lower-cased. */
  predicate Offered(e: string, xs: seq<string>, firstLower: string, lastLower: string, matching: bool) {
    exists i :: 0 <= i < |xs| && xs[i] != [] && NameMatch(xs[i], firstLower, lastLower) == matching && Lower(xs[i]) == e
  }

  /**
   * A pass keeps the list clean, leaves what was listed in front, and adds exactly the
   * lower-cased, non-empty addresses it is offered.
   */
  lemma {:induction false} AddPassFacts(list: seq<string>, xs: seq<string>, firstLower: string, lastLower: string, matching: bool)
    requires Clean(list)
    ensures var r := AddPass(list, xs, firstLower, lastLower, matching);
      && Clean(r)
      && |list| <= |r| && r[..|list|] == list
      && forall e :: e in r <==> e in list || Offered(e, xs, firstLower, lastLower, matching)
    decreases |xs|
  {
    if xs != [] {
      var init := xs[..|xs| - 1];
      var x := xs[|xs| - 1];
      AddPassFacts(list, init, firstLower, lastLower, matching);
      var before := AddPass(list, init, firstLower, lastLower, matching);
      var r := AddPass(list, xs, firstLower, lastLower, matching);
      LowerIsLower(x);
      forall e
        ensures Offered(e, xs, firstLower, lastLower, matching) <==>
          Offered(e, init, firstLower, lastLower, matching) || (x != [] && NameMatch(x, firstLower, lastLower) == matching && Lower(x) == e)
      {
        if Offered(e, xs, firstLower, lastLower, matching) {
          var i :| 0 <= i < |xs| && xs[i] != [] && NameMatch(xs[i], firstLower, lastLower) == matching && Lower(xs[i]) == e;
          if i < |init| { assert init[i] == xs[i]; }
        }
        if Offered(e, init, firstLower, lastLower, matching) {
          var i :| 0 <= i < |init| && init[i] != [] && NameMatch(init[i], firstLower, lastLower) == matching && Lower(init[i]) == e;
          assert xs[i] == init[i];
        }
      }
      assert r == before || r == before + [Lower(x)];
      assert r[..|list|] == before[..|list|];
    }
  }

  /**
   * The merged list is clean; each pass's additions follow the earlier passes'; and an
   * address is listed exactly when some pattern or scraped address lower-cases to it.
   */
  lemma MergeFacts(patternOrder: seq<string>, scraped: seq<string>, firstLower: string, lastLower: string)
    ensures var m := Merge(patternOrder, scraped, firstLower, lastLower);
      var g1 := AddPass([], patternOrder, firstLower, lastLower, true);
      var g2 := AddPass(g1, scraped, firstLower, lastLower, true);
      var g3 := AddPass(g2, scraped, firstLower, lastLower, false);
      && Clean(m)
      && |g1| <= |g2| <= |g3| <= |m|
      && m[..|g1|] == g1 && m[..|g2|] == g2 && m[..|g3|] == g3
      && (forall e :: e in g1 <==> Offered(e, patternOrder, firstLower, lastLower, true))
      && (forall e :: e in g2 <==> e in g1 || Offered(e, scraped, firstLower, lastLower, true))
      && (forall e :: e in g3 <==> e in g2 || Offered(e, scraped, firstLower, lastLower, false))
      && (forall e :: e in m <==> e in g3 || Offered(e, patternOrder, firstLower, lastLower, false))
  {
    var g1 := AddPass([], patternOrder, firstLower, lastLower, true);
    var g2 := AddPass(g1, scraped, firstLower, lastLower, true);
    var g3 := AddPass(g2, scraped, firstLower, lastLower, false);
    var m := AddPass(g3, patternOrder, firstLower, lastLower, false);
    AddPassFacts([], patternOrder, firstLower, lastLower, true);
    AddPassFacts(g1, scraped, firstLower, lastLower, true);
    AddPassFacts(g2, scraped, firstLower, lastLower, false);
    AddPassFacts(g3, patternOrder, firstLower, lastLower, false);
    assert m[..|g2|] == m[..|g3|][..|g2|];
    assert m[..|g1|] == m[..|g2|][..|g1|];
  }

  /** A merged candidate is exactly the lower-cased form of a non-empty pattern or scraped address. */
  lemma MergedFrom(patternOrder: seq<string>, scraped: seq<string>, firstLower: string, lastLower: string)
    ensures forall e :: e in Merge(patternOrder, scraped, firstLower, lastLower) <==>
      exists x :: (x in patternOrder || x in scraped) && x != [] && Lower(x) == e
  {
    MergeFacts(patternOrder, scraped, firstLower, lastLower);
    var m := Merge(patternOrder, scraped, firstLower, lastLower);
    forall e
      ensures e in m <==> exists x :: (x in patternOrder || x in scraped) && x != [] && Lower(x) == e
    {
      if exists x :: (x in patternOrder || x in scraped) && x != [] && Lower(x) == e {
        var x :| (x in patternOrder || x in scraped) && x != [] && Lower(x) == e;
        var match_ := NameMatch(x, firstLower, lastLower);
        if x in patternOrder {
          var i :| 0 <= i < |patternOrder| && patternOrder[i] == x;
          assert Offered(e, patternOrder, firstLower, lastLower, match_);
        } else {
          var i :| 0 <= i < |scraped| && scraped[i] == x;
          assert Offered(e, scraped, firstLower, lastLower, match_);
        }
      }
    }
  }

  /** With `patternOrder` listing the pattern set, every stored address comes from a pattern or a scraped address. */
  lemma FoundFromInputs(patternOrder: seq<string>, patterns: set<string>, ctx: Context, settings: Settings,
                        early: seq<string>, log0: map<string, string>, isEmail: string -> bool,
                        verify: (string, string, string) -> (Option<bool>, string), took: string -> string)
    requires forall p :: p in patternOrder <==> p in patterns
    ensures var r := Outcome(Merge(patternOrder, ctx.scraped, ctx.firstLower, ctx.lastLower), ctx, settings, early, log0, isEmail, verify, took);
      forall d :: d in r.foundEmails ==> exists x :: (x in patterns || x in ctx.scraped) && Lower(x) == d.email
  {
    MergedFrom(patternOrder, ctx.scraped, ctx.firstLower, ctx.lastLower);
  }

  /** One pass over `xs`, with `seen` the set of listed addresses. */
  method AddMatching(list: seq<string>, seen: set<string>, xs: seq<string>, firstLower: string, lastLower: string, matching: bool)
    returns (list': seq<string>, seen': set<string>)
    requires seen == set e | e in list
    ensures list' == AddPass(list, xs, firstLower, lastLower, matching)
    ensures seen' == set e | e in list'
  {
    list', seen' := list, seen;
    for i := 0 to |xs|
      invariant list' == AddPass(list, xs[..i], firstLower, lastLower, matching)
      invariant seen' == set e | e in list'
    {
      assert xs[..i + 1][..i] == xs[..i];
      var x := xs[i];
      if (Contains(x, firstLower) || Contains(x, lastLower)) == matching {
        if x != [] && Lower(x) !in seen' {
          seen' := seen' + {Lower(x)};
          list' := list' + [Lower(x)];
        }
      }
    }
    assert xs[..|xs|] == xs;
  }

  /** The candidate list of `find_email`, built by four loops sharing one `seen` set. */
  method MergeCandidates(patternOrder: seq<string>, scraped: seq<string>, firstLower: string, lastLower: string)
    returns (candidates: seq<string>)
    ensures candidates == Merge(patternOrder, scraped, firstLower, lastLower)
  {
    var seen: set<string> := {};
    candidates := [];
    candidates, seen := AddMatching(candidates, seen, patternOrder, firstLower, lastLower, true);
    candidates, seen := AddMatching(candidates, seen, scraped, firstLower, lastLower, true);
    candidates, seen := AddMatching(candidates, seen, scraped, firstLower, lastLower, false);
    candidates, seen := AddMatching(candidates, seen, patternOrder, firstLower, lastLower, false);
  }

  // ---------------------------------------------------------------------------
  // Scoring one candidate
  // ---------------------------------------------------------------------------

  /** What the scoring of one search reads besides the candidate itself. */
  datatype Context = Context(
    domain: string,
    firstLower: string,
    lastLower: string,
    patterns: set<string>,
    scraped: seq<string>,
    genericPrefixes: set<string>,
    server: Option<string>)

  /** The lower-cased first piece of `email.split('@')`. */
  function EmailLocalPart(email: string): string {
    Lower(SplitOn(email, '@')[0])
  }

  /** The lower-cased second piece of `email.split('@')`, or "" when there is none. */
  function EmailDomainPart(email: string): string {
    var pieces := SplitOn(email, '@');
    if |pieces| > 1 then Lower(pieces[1]) else ""
  }

  /** The facts the score is computed from. */
  datatype Features = Features(isScraped: bool, isPattern: bool, isGeneric: bool, nameIn: bool, domainMatch: bool)

  function FeaturesOf(email: string, ctx: Context): Features {
    var local := EmailLocalPart(email);
    Features(
      email in ctx.scraped,
      email in ctx.patterns,
      IsGenericPrefix(email, ctx.genericPrefixes),
      Contains(local, ctx.firstLower) || Contains(local, ctx.lastLower),
      EmailDomainPart(email) == ctx.domain)
  }

  /** Only addresses at the contact's domain, or scraped generic ones, are scored. */
  predicate Scored(f: Features) {
    f.domainMatch || (f.isScraped && f.isGeneric)
  }

  /** The points for how the address was found and whether it carries the name and domain. */
  function BaseConfidence(f: Features): int {
    (if f.isPattern then (if f.nameIn then 3 else 1) else 0)
    + (if f.isScraped then (if f.nameIn then 5 else 2) else 0)
    + (if f.domainMatch then 1 else 0)
  }

  /** A generic address loses 5 points (with the name) or 2 (without it), never below 1. */
  function Penalised(c: int, f: Features): (r: int)
    ensures c >= 1 ==> 1 <= r <= c
    ensures !f.isGeneric ==> r == c
    ensures f.isGeneric && f.nameIn && c > 1 ==> r == if c - 5 < 1 then 1 else c - 5
    ensures f.isGeneric && !f.nameIn && c > 2 ==> r == if c - 2 < 1 then 1 else c - 2
    ensures f.isGeneric && ((f.nameIn && c <= 1) || (!f.nameIn && c <= 2)) ==> r == c
  {
    if f.isGeneric && f.nameIn && c > 1 then (if c - 5 > 1 then c - 5 else 1)
    else if f.isGeneric && !f.nameIn && c > 2 then (if c - 2 > 1 then c - 2 else 1)
    else c
  }

  /** The score after penalties is high enough to spend an SMTP probe on. */
  predicate WorthProbing(c: int, f: Features) {
    c >= 3 || (f.isScraped && f.nameIn && c > 1)
  }

  /** A confirmed address gains 5, a rejected one drops to 0, an inconclusive one gains 1. */
  function AfterProbe(c: int, exists_: Option<bool>): (r: int)
    ensures exists_ == Some(true) ==> r == c + 5
    ensures exists_ == Some(false) ==> r == 0
    ensures exists_.None? ==> r == c + 1
    ensures c >= 1 ==> (r == 0 <==> exists_ == Some(false))
  {
    match exists_
    case Some(true) => c + 5
    case Some(false) => 0
    case None => c + 1
  }

  /** The score as stored: clamped to the range 0..10. */
  function Clamp(c: int): (r: u8)
    ensures 0 <= r <= 10
    ensures 0 <= c <= 10 ==> r == c
    ensures c < 0 ==> r == 0
    ensures c > 10 ==> r == 10
  {
    if c < 0 then 0 else if c > 10 then 10 else c
  }

  /** The outcome for one candidate. */
  datatype Assessment =
    | Skip
    | Assessed(probed: bool, logText: string, stored: Option<FoundEmailData>)

  /** The candidate passes the address regex and is at the contact's domain or a scraped generic one. */
  predicate Scores(email: string, ctx: Context, isEmail: string -> bool) {
    isEmail(email) && Scored(FeaturesOf(email, ctx))
  }

  function SourceOf(f: Features): Source {
    if f.isScraped then Scraped else Pattern
  }

  /** The logged reason a candidate is not probed. */
  function SkipMessage(server: Option<string>): string {
    if server.None? then "Verification skipped (DNS lookup failed)"
    else "Verification skipped (low initial confidence)"
  }

  /** The log entry of a probed candidate: the verdict's message and the check's duration. */
  function TimedMessage(message: string, tookText: string): string {
    message + " (Took " + tookText + "s)"
  }

  /**
   * A probed candidate with score `c`: the server's verdict adjusts the score, and the log
   * entry adds the duration of the check.
   */
  function ProbedOutcome(email: string, f: Features, c: int, outcome: (Option<bool>, string), tookText: string): (a: Assessment)
    requires c >= 1
    ensures a.Assessed? && a.probed && a.logText == TimedMessage(outcome.1, tookText)
    ensures a.stored.None? <==> outcome.0 == Some(false)
    ensures a.stored.Some? ==>
      var d := a.stored.value;
      && d.email == email && 1 <= d.confidence <= 10
      && d.confidence == Clamp(AfterProbe(c, outcome.0))
      && d.verificationStatus == outcome.0 && d.verificationMessage == outcome.1
      && d.source == SourceOf(f) && d.isGeneric == f.isGeneric
    ensures outcome.0 == Some(true) ==> a.stored.value.confidence == if c + 5 > 10 then 10 else c + 5
    ensures outcome.0.None? ==> a.stored.value.confidence == if c + 1 > 10 then 10 else c + 1
  {
    var final := Clamp(AfterProbe(c, outcome.0));
    Assessed(true, TimedMessage(outcome.1, tookText),
      if final > 0 then Some(FoundEmailData(email, final, SourceOf(f), f.isGeneric, outcome.0, outcome.1)) else None)
  }

  /** A candidate that is not probed keeps its score and is stored as untested. */
  function UnprobedOutcome(email: string, f: Features, c: int, server: Option<string>): (a: Assessment)
    requires c >= 1
    ensures a.Assessed? && !a.probed && a.logText == SkipMessage(server)
    ensures a.stored.Some?
    ensures var d := a.stored.value;
      && d.email == email && d.confidence == Clamp(c) && 1 <= d.confidence <= 10
      && d.verificationStatus.None? && d.verificationMessage == SkipMessage(server)
      && d.source == SourceOf(f) && d.isGeneric == f.isGeneric
  {
    Assessed(false, SkipMessage(server), Some(FoundEmailData(email, Clamp(c), SourceOf(f), f.isGeneric, None, SkipMessage(server))))
  }

  /**
   * The assessment of one candidate. `isEmail` is the address regex, `verify` the SMTP check
   * with retries (address, its domain part, mail server), `took` the duration of that check
   * as the two-decimal seconds text of the log.
   */
  function Assess(email: string, ctx: Context, isEmail: string -> bool,
                  verify: (string, string, string) -> (Option<bool>, string),
                  took: string -> string): (a: Assessment)
    ensures a.Skip? <==> !Scores(email, ctx, isEmail)
    ensures a.Assessed? && a.probed ==> ctx.server.Some?
    ensures a.Assessed? && a.stored.Some? ==>
      var d := a.stored.value;
      && d.email == email
      && 1 <= d.confidence <= 10
      && d.verificationStatus != Some(false)
      && (d.source == Scraped <==> email in ctx.scraped)
      && d.isGeneric == IsGenericPrefix(email, ctx.genericPrefixes)
      && (!a.probed ==> d.verificationStatus.None?)
    ensures a.Assessed? && a.stored.Some? ==>
      var f := FeaturesOf(email, ctx);
      var d := a.stored.value;
      && (a.probed ==> d.confidence == Clamp(AfterProbe(Penalised(BaseConfidence(f), f), d.verificationStatus)))
      && (!a.probed ==> d.confidence == Clamp(Penalised(BaseConfidence(f), f)))
  {
    if !Scores(email, ctx, isEmail) then Skip
    else
      var f := FeaturesOf(email, ctx);
      BaseConfidenceRange(f);
      var c := Penalised(BaseConfidence(f), f);
      if ctx.server.Some? && WorthProbing(c, f) then
        ProbedOutcome(email, f, c, verify(email, EmailDomainPart(email), ctx.server.value), took(email))
      else
        UnprobedOutcome(email, f, c, ctx.server)
  }

  /** Every scored candidate starts with between 1 and 9 points. */
  lemma BaseConfidenceRange(f: Features)
    requires Scored(f)
    ensures 1 <= BaseConfidence(f) <= 9
  {
  }

  /** A scored candidate is probed exactly when a mail server is known and its score warrants it. */
  lemma ProbeRule(email: string, ctx: Context, isEmail: string -> bool,
                  verify: (string, string, string) -> (Option<bool>, string), took: string -> string)
    requires Assess(email, ctx, isEmail, verify, took).Assessed?
    ensures var f := FeaturesOf(email, ctx);
      Assess(email, ctx, isEmail, verify, took).probed <==>
        ctx.server.Some? && WorthProbing(Penalised(BaseConfidence(f), f), f)
  {
  }

  /** An address the server rejects is never stored; one that was not probed is stored. */
  lemma StoredUnlessRejected(email: string, ctx: Context, isEmail: string -> bool,
                             verify: (string, string, string) -> (Option<bool>, string), took: string -> string)
    requires Assess(email, ctx, isEmail, verify, took).Assessed?
    ensures var a := Assess(email, ctx, isEmail, verify, took);
      && (!a.probed ==> a.stored.Some?)
      && (a.probed ==> (a.stored.None? <==> verify(email, EmailDomainPart(email), ctx.server.value).0 == Some(false)))
  {
  }

  /** The five additions of the base score, made one after another. */
  method AddBasePoints(start: int, f: Features) returns (confidence: int)
    ensures confidence == start + BaseConfidence(f)
  {
    confidence := start;
    if f.isPattern && f.nameIn { confidence := confidence + 3; }
    if f.isScraped && f.nameIn { confidence := confidence + 5; }
    if f.isScraped && !f.nameIn { confidence := confidence + 2; }
    if f.isPattern && !f.nameIn { confidence := confidence + 1; }
    if f.domainMatch { confidence := confidence + 1; }
  }

  /** The scoring of `find_email`'s loop body, accumulated step by step. */
  method AssessCandidate(email: string, ctx: Context, isEmail: string -> bool,
                         verify: (string, string, string) -> (Option<bool>, string),
                         took: string -> string) returns (a: Assessment)
    ensures a == Assess(email, ctx, isEmail, verify, took)
  {
    if !isEmail(email) {
      return Skip;
    }
    var confidence: int := 0;
    var parts := SplitOn(email, '@');
    var localPart := Lower(parts[0]);
    var domainPart := if |parts| > 1 then Lower(parts[1]) else "";
    var isScraped := email in ctx.scraped;
    var isPattern := email in ctx.patterns;
    var isGeneric := IsGenericPrefix(email, ctx.genericPrefixes);
    var matchesDomain := domainPart == ctx.domain;
    if !matchesDomain && !(isScraped && isGeneric) {
      return Skip;
    }
    var nameIn := Contains(localPart, ctx.firstLower) || Contains(localPart, ctx.lastLower);
    var f := Features(isScraped, isPattern, isGeneric, nameIn, matchesDomain);
    assert localPart == EmailLocalPart(email) && domainPart == EmailDomainPart(email);
    assert f == FeaturesOf(email, ctx);
    assert Scores(email, ctx, isEmail);
    confidence := AddBasePoints(confidence, f);
    BaseConfidenceRange(f);
    if isGeneric && nameIn && confidence > 1 {
      confidence := if confidence - 5 > 1 then confidence - 5 else 1;
    } else if isGeneric && !nameIn && confidence > 2 {
      confidence := if confidence - 2 > 1 then confidence - 2 else 1;
    }
    assert confidence == Penalised(BaseConfidence(f), f);
    a := Conclude(email, domainPart, f, confidence, ctx.server, verify, took);
  }

  /**
   * The rest of the loop body for a scored candidate with `confidence` points: the SMTP
   * probe when it is warranted, the adjustment, the clamp, and the record kept.
   */
  method Conclude(email: string, domainPart: string, f: Features, confidence: int, server: Option<string>,
                  verify: (string, string, string) -> (Option<bool>, string),
                  took: string -> string) returns (a: Assessment)
    requires confidence >= 1
    ensures server.Some? && WorthProbing(confidence, f) ==>
      a == ProbedOutcome(email, f, confidence, verify(email, domainPart, server.value), took(email))
    ensures !(server.Some? && WorthProbing(confidence, f)) ==> a == UnprobedOutcome(email, f, confidence, server)
  {
    var shouldVerify := server.Some? && (confidence >= 3 || (f.isScraped && f.nameIn && confidence > 1));
    var source := if f.isScraped then Scraped else Pattern;
    var score := confidence;
    if shouldVerify {
      var outcome := verify(email, domainPart, server.value);
      var status, message := outcome.0, outcome.1;
      match status {
        case Some(true) => score := score + 5;
        case Some(false) => score := 0;
        case None => score := score + 1;
      }
      var final := Clamp(score);
      var stored := if final > 0 then Some(FoundEmailData(email, final, source, f.isGeneric, status, message)) else None;
      a := Assessed(true, TimedMessage(message, took(email)), stored);
    } else {
      var message := SkipMessage(server);
      var final := Clamp(score);
      var stored := if final > 0 then Some(FoundEmailData(email, final, source, f.isGeneric, None, message)) else None;
      a := Assessed(false, message, stored);
    }
  }

  // ---------------------------------------------------------------------------
  // Scoring all candidates
  // ---------------------------------------------------------------------------

  /** The data stored for `cands`, in candidate order. */
  function StoredAll(cands: seq<string>, ctx: Context, isEmail: string -> bool,
                     verify: (string, string, string) -> (Option<bool>, string),
                     took: string -> string): (r: seq<FoundEmailData>)
    ensures forall d :: d in r ==> d.email in cands && 1 <= d.confidence <= 10 && d.verificationStatus != Some(false)
    decreases |cands|
  {
    if cands == [] then []
    else
      var init := StoredAll(cands[..|cands| - 1], ctx, isEmail, verify, took);
      var a := Assess(cands[|cands| - 1], ctx, isEmail, verify, took);
      assert forall e :: e in cands[..|cands| - 1] ==> e in cands;
      if a.Assessed? && a.stored.Some? then init + [a.stored.value] else init
  }

  /** A map after writing, in order, the entry of each key of `keys` that has one. */
  function Record(log0: map<string, string>, keys: seq<string>, entry: string -> Option<string>): (r: map<string, string>)
    ensures forall e :: e in r <==> e in log0 || (e in keys && entry(e).Some?)
    ensures forall e :: e in log0 && e !in keys ==> r[e] == log0[e]
    decreases |keys|
  {
    if keys == [] then log0
    else
      var init := keys[..|keys| - 1];
      var last := keys[|keys| - 1];
      var before := Record(log0, init, entry);
      assert forall e :: e in keys <==> e in init || e == last;
      match entry(last)
      case Some(t) => before[last := t]
      case None => before
  }

  /** With distinct keys, each key's own entry is the one that stays. */
  lemma {:induction false} RecordEntry(log0: map<string, string>, keys: seq<string>, entry: string -> Option<string>, i: nat)
    requires i < |keys| && Distinct(keys) && entry(keys[i]).Some?
    ensures Record(log0, keys, entry)[keys[i]] == entry(keys[i]).value
    decreases |keys|
  {
    var init := keys[..|keys| - 1];
    if i < |init| {
      DistinctInit(keys, i);
      RecordEntry(log0, init, entry, i);
      RecordOther(log0, keys, entry, keys[i]);
    }
  }

  /** Dropping the last key keeps the keys distinct, and none of the others equals it. */
  lemma DistinctInit(keys: seq<string>, i: nat)
    requires i < |keys| - 1 && Distinct(keys)
    ensures Distinct(keys[..|keys| - 1]) && keys[..|keys| - 1][i] == keys[i] != keys[|keys| - 1]
  {
    var init := keys[..|keys| - 1];
    forall a, b | 0 <= a < b < |init| ensures init[a] != init[b] {
      assert init[a] == keys[a] && init[b] == keys[b];
    }
  }

  /** Writing the last key's entry leaves every other key's entry as it was. */
  lemma RecordOther(log0: map<string, string>, keys: seq<string>, entry: string -> Option<string>, e: string)
    requires keys != [] && e != keys[|keys| - 1] && e in Record(log0, keys[..|keys| - 1], entry)
    ensures e in Record(log0, keys, entry)
    ensures Record(log0, keys, entry)[e] == Record(log0, keys[..|keys| - 1], entry)[e]
  {
  }


  /** The log entry a candidate writes: its assessment's text when it is scored. */
  function LogEntry(email: string, ctx: Context, isEmail: string -> bool,
                    verify: (string, string, string) -> (Option<bool>, string),
                    took: string -> string): Option<string>
  {
    if Scores(email, ctx, isEmail) then Some(Assess(email, ctx, isEmail, verify, took).logText) else None
  }

  /** The verification log after `cands`. */
  function LogAll(log0: map<string, string>, cands: seq<string>, ctx: Context, isEmail: string -> bool,
                  verify: (string, string, string) -> (Option<bool>, string),
                  took: string -> string): (r: map<string, string>)
    ensures forall e :: e in log0 ==> e in r
  {
    Record(log0, cands, e => LogEntry(e, ctx, isEmail, verify, took))
  }

  /** Some candidate of `cands` was probed over SMTP. */
  predicate AnyProbed(cands: seq<string>, ctx: Context, isEmail: string -> bool,
                      verify: (string, string, string) -> (Option<bool>, string),
                      took: string -> string)
    decreases |cands|
  {
    if cands == [] then false
    else
      var a := Assess(cands[|cands| - 1], ctx, isEmail, verify, took);
      AnyProbed(cands[..|cands| - 1], ctx, isEmail, verify, took) || (a.Assessed? && a.probed)
  }

  /**
   * With distinct candidates the log holds an entry for exactly the scored candidates and the
   * entries already there, and each scored candidate's entry is its own assessment's text.
   */
  lemma LogEntryOfCandidate(log0: map<string, string>, cands: seq<string>, ctx: Context, isEmail: string -> bool,
                            verify: (string, string, string) -> (Option<bool>, string),
                            took: string -> string, i: nat)
    requires i < |cands| && Distinct(cands)
    ensures var log := LogAll(log0, cands, ctx, isEmail, verify, took);
      && (forall e :: e in log <==> e in log0 || (e in cands && Scores(e, ctx, isEmail)))
      && (Scores(cands[i], ctx, isEmail) ==> log[cands[i]] == Assess(cands[i], ctx, isEmail, verify, took).logText)
  {
    var entry := e => LogEntry(e, ctx, isEmail, verify, took);
    if Scores(cands[i], ctx, isEmail) {
      RecordEntry(log0, cands, entry, i);
    }
  }

  /** How the stored data, the log and the probe flag grow by one candidate. */
  lemma AssessStep(cands: seq<string>, i: nat, ctx: Context, isEmail: string -> bool,
                   verify: (string, string, string) -> (Option<bool>, string), took: string -> string,
                   log0: map<string, string>)
    requires i < |cands|
    ensures var a := Assess(cands[i], ctx, isEmail, verify, took);
      && StoredAll(cands[..i + 1], ctx, isEmail, verify, took) ==
         StoredAll(cands[..i], ctx, isEmail, verify, took) + (if a.Assessed? && a.stored.Some? then [a.stored.value] else [])
      && LogAll(log0, cands[..i + 1], ctx, isEmail, verify, took) ==
         (if a.Assessed? then LogAll(log0, cands[..i], ctx, isEmail, verify, took)[cands[i] := a.logText]
          else LogAll(log0, cands[..i], ctx, isEmail, verify, took))
      && (AnyProbed(cands[..i + 1], ctx, isEmail, verify, took) <==>
          AnyProbed(cands[..i], ctx, isEmail, verify, took) || (a.Assessed? && a.probed))
  {
    assert cands[..i + 1][..i] == cands[..i] && cands[..i + 1][i] == cands[i];
    var a := Assess(cands[i], ctx, isEmail, verify, took);
    assert a.Assessed? ==> LogEntry(cands[i], ctx, isEmail, verify, took) == Some(a.logText);
  }

  /** The loop of `find_email` over the merged candidates. */
  method AssessAll(cands: seq<string>, ctx: Context, isEmail: string -> bool,
                   verify: (string, string, string) -> (Option<bool>, string), took: string -> string,
                   methods0: seq<string>, log0: map<string, string>)
    returns (data: seq<FoundEmailData>, methods: seq<string>, log: map<string, string>)
    requires "smtp_verification" !in methods0
    ensures data == StoredAll(cands, ctx, isEmail, verify, took)
    ensures log == LogAll(log0, cands, ctx, isEmail, verify, took)
    ensures methods == methods0 + if AnyProbed(cands, ctx, isEmail, verify, took) then ["smtp_verification"] else []
  {
    data, methods, log := [], methods0, log0;
    for i := 0 to |cands|
      invariant data == StoredAll(cands[..i], ctx, isEmail, verify, took)
      invariant log == LogAll(log0, cands[..i], ctx, isEmail, verify, took)
      invariant methods == methods0 + if AnyProbed(cands[..i], ctx, isEmail, verify, took) then ["smtp_verification"] else []
    {
      var a := AssessCandidate(cands[i], ctx, isEmail, verify, took);
      AssessStep(cands, i, ctx, isEmail, verify, took, log0);
      if a.Assessed? {
        if a.probed && "smtp_verification" !in methods {
          methods := methods + ["smtp_verification"];
        }
        log := log[cands[i] := a.logText];
        if a.stored.Some? {
          data := data + [a.stored.value];
        }
      }
    }
    assert cands[..|cands|] == cands;
  }

  // ---------------------------------------------------------------------------
  // Ordering and selection
  // ---------------------------------------------------------------------------

  /**
   * The sort key: confidence counts four times the two tie-breakers together, so ordering by
   * the key orders by confidence first, then by genericness, then by source.
   */
  function Rank(d: FoundEmailData): int {
    -4 * d.confidence + (if d.isGeneric then 2 else 0) + (if d.source == Pattern then 1 else 0)
  }

  /**
   * The comparator of the sort does not place `a` after `b`: higher confidence first, then
   * non-generic first, then "scraped" before "pattern" (source text compared descending).
   */
  predicate InOrder(a: FoundEmailData, b: FoundEmailData) {
    || a.confidence > b.confidence
    || (a.confidence == b.confidence && !a.isGeneric && b.isGeneric)
    || (a.confidence == b.confidence && a.isGeneric == b.isGeneric && (a.source == Scraped || b.source == Pattern))
  }

  /** The key orders two entries exactly as the three-key comparator does. */
  lemma RankOrder(a: FoundEmailData, b: FoundEmailData)
    ensures Rank(a) <= Rank(b) <==> InOrder(a, b)
  {
    if a.confidence > b.confidence {
      assert Rank(a) <= -4 * b.confidence - 4 + 3;
    } else if a.confidence < b.confidence {
      assert Rank(b) <= -4 * a.confidence - 4 + 3;
    }
  }

  /** `found_emails` after the stable sort. */
  function SortFound(stored: seq<FoundEmailData>): (r: seq<FoundEmailData>)
    ensures multiset(r) == multiset(stored)
    ensures forall i, j :: 0 <= i < j < |r| ==> InOrder(r[i], r[j])
  {
    var r := Sorting.SortBy(stored, Rank);
    Sorting.SortBySorted(stored, Rank);
    Sorting.SortByPermutes(stored, Rank);
    assert forall i, j :: 0 <= i < j < |r| ==> InOrder(r[i], r[j]) by {
      forall i, j | 0 <= i < j < |r|
        ensures InOrder(r[i], r[j])
      {
        RankOrder(r[i], r[j]);
      }
    }
    r
  }

  /** Entries that tie on all three keys keep their stored order. */
  lemma SortFoundStable(stored: seq<FoundEmailData>, k: int)
    ensures Sorting.WithKey(SortFound(stored), Rank, k) == Sorting.WithKey(stored, Rank, k)
  {
    Sorting.SortByStable(stored, Rank, k);
  }

  /** The chosen address and its score. */
  datatype Selection = Selection(email: Option<string>, score: u8)

  /** Index of the first non-generic entry reaching `threshold`, or `|found|`. */
  function FirstNonGeneric(found: seq<FoundEmailData>, threshold: u8): (i: nat)
    ensures i <= |found|
    ensures forall j :: 0 <= j < i ==> found[j].isGeneric || found[j].confidence < threshold
    ensures i < |found| ==> !found[i].isGeneric && found[i].confidence >= threshold
    decreases |found|
  {
    if found == [] || (!found[0].isGeneric && found[0].confidence >= threshold) then 0
    else 1 + FirstNonGeneric(found[1..], threshold)
  }

  /**
   * The selection policy: the first non-generic entry reaching `threshold`; failing that, the
   * top entry if it reaches `threshold` and, being generic, also `genericThreshold`.
   */
  function Select(found: seq<FoundEmailData>, threshold: u8, genericThreshold: u8): (s: Selection)
    ensures s.email.None? ==> s.score == 0
    ensures s.email.Some? ==>
      exists k :: 0 <= k < |found| && found[k].email == s.email.value && found[k].confidence == s.score
        && s.score >= threshold && (found[k].isGeneric ==> s.score >= genericThreshold)
    ensures (exists k :: 0 <= k < |found| && !found[k].isGeneric && found[k].confidence >= threshold) ==>
      var i := FirstNonGeneric(found, threshold);
      s == Selection(Some(found[i].email), found[i].confidence)
    ensures (forall k :: 0 <= k < |found| ==> found[k].isGeneric || found[k].confidence < threshold) ==>
      && (s.email.Some? <==> found != [] && found[0].confidence >= threshold && found[0].confidence >= genericThreshold)
      && (s.email.Some? ==> s.email.value == found[0].email)
  {
    var i := FirstNonGeneric(found, threshold);
    if i < |found| then Selection(Some(found[i].email), found[i].confidence)
    else if found != [] && found[0].confidence >= threshold
            && (!found[0].isGeneric || found[0].confidence >= genericThreshold)
    then Selection(Some(found[0].email), found[0].confidence)
    else Selection(None, 0)
  }

  // ---------------------------------------------------------------------------
  // The whole search
  // ---------------------------------------------------------------------------

  /** The configuration `find_email` reads. */
  datatype Settings = Settings(genericPrefixes: set<string>, confidenceThreshold: u8, genericConfidenceThreshold: u8)

  /** The log before any candidate: a note for the domain when its mail server is unknown. */
  function InitialLog(domain: string, mailServer: Result<Dns.MailServer, AppError>): map<string, string> {
    if mailServer.Failure? then map[domain := "DNS resolution failed: " + ErrorText(mailServer.error)] else map[]
  }

  function ServerOf(mailServer: Result<Dns.MailServer, AppError>): Option<string> {
    if mailServer.Success? then Some(mailServer.value.exchange) else None
  }

  /** The method names recorded for the first two stages. */
  function EarlyMethods(patterns: set<string>, scraped: seq<string>): (m: seq<string>)
    ensures "smtp_verification" !in m
  {
    (if patterns != {} then ["pattern_generation"] else [])
    + (if scraped != [] then ["website_scraping"] else [])
  }

  /**
   * What the scoring reads once scraping succeeded with `scrapedRaw`: the pattern set, the
   * kept scraped addresses, the lower-cased names and the mail server, if one was found.
   */
  function SearchContext(contact: ValidatedContact, settings: Settings, isEmail: string -> bool,
                         scrapedRaw: seq<string>, mailServer: Result<Dns.MailServer, AppError>): Context
  {
    Context(contact.domain, Lower(contact.firstName), Lower(contact.lastName),
            Patterns.GenerateEmailPatterns(contact.firstName, contact.lastName, contact.domain, isEmail),
            FilterScraped(scrapedRaw, contact.domain, settings.genericPrefixes),
            settings.genericPrefixes, ServerOf(mailServer))
  }

  /**
   * The result assembled from the candidates: the sorted stored data, the selection, the
   * method names (`early` plus "smtp_verification" once a probe ran) and the log.
   */
  function Outcome(cands: seq<string>, ctx: Context, settings: Settings, early: seq<string>, log0: map<string, string>,
                   isEmail: string -> bool, verify: (string, string, string) -> (Option<bool>, string),
                   took: string -> string): (r: EmailResult)
    ensures forall d :: d in r.foundEmails ==> d.email in cands && 1 <= d.confidence <= 10 && d.verificationStatus != Some(false)
    ensures forall i, j :: 0 <= i < j < |r.foundEmails| ==> InOrder(r.foundEmails[i], r.foundEmails[j])
    ensures r.mostLikelyEmail.None? ==> r.confidenceScore == 0
    ensures r.mostLikelyEmail.Some? ==>
      exists k :: 0 <= k < |r.foundEmails| && r.foundEmails[k].email == r.mostLikelyEmail.value
        && r.foundEmails[k].confidence == r.confidenceScore
        && r.confidenceScore >= settings.confidenceThreshold
        && (r.foundEmails[k].isGeneric ==> r.confidenceScore >= settings.genericConfidenceThreshold)
    ensures forall e :: e in log0 ==> e in r.verificationLog
    ensures ctx.server.None? ==> r.methodsUsed == early
  {
    var found := Ranked(cands, ctx, isEmail, verify, took);
    var sel := Select(found, settings.confidenceThreshold, settings.genericConfidenceThreshold);
    var log := LogAll(log0, cands, ctx, isEmail, verify, took);
    NoServerNoProbe(cands, ctx, isEmail, verify, took);
    EmailResult(found, sel.email, sel.score,
      early + (if AnyProbed(cands, ctx, isEmail, verify, took) then ["smtp_verification"] else []), log)
  }

  /** The stored data for `cands`, sorted. */
  function Ranked(cands: seq<string>, ctx: Context, isEmail: string -> bool,
                  verify: (string, string, string) -> (Option<bool>, string),
                  took: string -> string): (found: seq<FoundEmailData>)
    ensures forall d :: d in found ==> d.email in cands && 1 <= d.confidence <= 10 && d.verificationStatus != Some(false)
    ensures forall i, j :: 0 <= i < j < |found| ==> InOrder(found[i], found[j])
  {
    var stored := StoredAll(cands, ctx, isEmail, verify, took);
    var found := SortFound(stored);
    assert forall d :: d in found ==> d in stored by {
      forall d | d in found ensures d in stored {
        assert d in multiset(found);
      }
    }
    found
  }

  /** Without a mail server no candidate is probed. */
  lemma {:induction false} NoServerNoProbe(cands: seq<string>, ctx: Context, isEmail: string -> bool,
                                          verify: (string, string, string) -> (Option<bool>, string),
                                          took: string -> string)
    ensures ctx.server.None? ==> !AnyProbed(cands, ctx, isEmail, verify, took)
    decreases |cands|
  {
    if cands != [] && ctx.server.None? {
      NoServerNoProbe(cands[..|cands| - 1], ctx, isEmail, verify, took);
    }
  }

  /**
   * `find_email`. A scraping failure is returned as the error; otherwise the result is the
   * search above, built stage by stage.
   */
  method FindEmail(contact: ValidatedContact, settings: Settings, isEmail: string -> bool,
                   patternOrder: seq<string>, scrapedRaw: Result<seq<string>, AppError>,
                   mailServer: Result<Dns.MailServer, AppError>,
                   verify: (string, string, string) -> (Option<bool>, string),
                   took: string -> string) returns (r: Result<EmailResult, AppError>)
    requires Distinct(patternOrder)
    requires forall p :: p in patternOrder <==>
      p in Patterns.GenerateEmailPatterns(contact.firstName, contact.lastName, contact.domain, isEmail)
    ensures scrapedRaw.Failure? ==> r == Failure(scrapedRaw.error)
    ensures r.Success? ==> forall d :: d in r.value.foundEmails ==>
      exists x :: (x in Patterns.GenerateEmailPatterns(contact.firstName, contact.lastName, contact.domain, isEmail)
                   || x in FilterScraped(scrapedRaw.value, contact.domain, settings.genericPrefixes))
                  && Lower(x) == d.email
    ensures scrapedRaw.Success? ==>
      var ctx := SearchContext(contact, settings, isEmail, scrapedRaw.value, mailServer);
      var candidates := Merge(patternOrder, ctx.scraped, ctx.firstLower, ctx.lastLower);
      r == Success(Outcome(candidates, ctx, settings, EarlyMethods(ctx.patterns, ctx.scraped),
                           InitialLog(contact.domain, mailServer), isEmail, verify, took))
  {
    var domain := contact.domain;
    var patterns := Patterns.GenerateEmailPatterns(contact.firstName, contact.lastName, domain, isEmail);
    var methods: seq<string> := [];
    if patterns != {} {
      methods := methods + ["pattern_generation"];
    }
    if scrapedRaw.Failure? {
      return Failure(scrapedRaw.error);
    }
    var scraped := FilterScraped(scrapedRaw.value, domain, settings.genericPrefixes);
    if scraped != [] {
      methods := methods + ["website_scraping"];
    }
    assert methods == EarlyMethods(patterns, scraped);
    var firstLower, lastLower := Lower(contact.firstName), Lower(contact.lastName);
    var candidates := MergeCandidates(patternOrder, scraped, firstLower, lastLower);
    var server, log := ServerAndLog(domain, mailServer);
    var ctx := Context(domain, firstLower, lastLower, patterns, scraped, settings.genericPrefixes, server);
    var result := FinishSearch(candidates, ctx, settings, methods, log, isEmail, verify, took);
    FoundFromInputs(patternOrder, patterns, ctx, settings, methods, log, isEmail, verify, took);
    return Success(result);
  }

  /** The mail server to probe, if the lookup found one, and the log entry for a failed lookup. */
  method ServerAndLog(domain: string, mailServer: Result<Dns.MailServer, AppError>)
    returns (server: Option<string>, log: map<string, string>)
    ensures server == ServerOf(mailServer) && log == InitialLog(domain, mailServer)
  {
    log := map[];
    match mailServer {
      case Success(ms) =>
        server := Some(ms.exchange);
      case Failure(e) =>
        log := log[domain := "DNS resolution failed: " + ErrorText(e)];
        server := None;
    }
  }

  /** The last stages of `find_email`: the candidate loop, then sorting and selection. */
  method FinishSearch(cands: seq<string>, ctx: Context, settings: Settings, early: seq<string>,
                      log0: map<string, string>, isEmail: string -> bool,
                      verify: (string, string, string) -> (Option<bool>, string),
                      took: string -> string) returns (r: EmailResult)
    requires "smtp_verification" !in early
    ensures r == Outcome(cands, ctx, settings, early, log0, isEmail, verify, took)
  {
    var stored, methods, log := AssessAll(cands, ctx, isEmail, verify, took, early, log0);
    var found := SortFound(stored);
    var selection := Select(found, settings.confidenceThreshold, settings.genericConfidenceThreshold);
    r := EmailResult(found, selection.email, selection.score, methods, log);
  }
}
