/**
 * The application's settings: the built-in defaults, the overrides read from a settings
 * file and from the command line, and the validation that repairs out-of-range values.
 */
module Configuration {
  import opened Wrappers
  import opened Ints
  import opened Strings

  /**
   * The settings as a value. Timeouts are whole seconds; the sleep bounds between HTTP
   * requests are seconds as reals. The compiled address regex is not part of the model.
   */
  datatype ConfigValues = ConfigValues(
    inputFile: string,
    outputFile: string,
    maxConcurrency: nat,
    maxVerificationAttempts: u32,
    sleepBetweenRequests: (real, real),
    requestTimeout: nat,
    smtpTimeout: nat,
    dnsTimeout: nat,
    commonPagesToScrape: seq<string>,
    genericEmailPrefixes: set<string>,
    userAgent: string,
    smtpSenderEmail: string,
    dnsServers: seq<string>,
    confidenceThreshold: u8,
    genericConfidenceThreshold: u8,
    maxAlternatives: nat,
    cliMode: bool,
    cliName: Option<string>,
    cliDomain: Option<string>,
    outputToStdout: bool)

  /** The `[network]` table of the settings file. */
  datatype NetworkConfig = NetworkConfig(
    requestTimeout: Option<nat>,
    minSleep: Option<real>,
    maxSleep: Option<real>,
    userAgent: Option<string>)

  /** The `[dns]` table. */
  datatype DnsConfig = DnsConfig(dnsTimeout: Option<nat>, dnsServers: Option<seq<string>>)

  /** The `[smtp]` table. */
  datatype SmtpConfig = SmtpConfig(
    smtpTimeout: Option<nat>,
    smtpSenderEmail: Option<string>,
    maxVerificationAttempts: Option<u32>)

  /** The `[scraping]` table. */
  datatype ScrapingConfig = ScrapingConfig(
    commonPages: Option<seq<string>>,
    genericEmailPrefixes: Option<seq<string>>)

  /** The `[verification]` table. */
  datatype VerificationConfig = VerificationConfig(
    confidenceThreshold: Option<u8>,
    genericConfidenceThreshold: Option<u8>,
    maxAlternatives: Option<nat>,
    maxConcurrency: Option<nat>)

  /** The `[input_output]` table. */
  datatype InputOutputConfig = InputOutputConfig(inputFile: Option<string>, outputFile: Option<string>)

  /** A parsed settings file; every table and every key in it may be absent. */
  datatype ConfigFile = ConfigFile(
    network: Option<NetworkConfig>,
    dns: Option<DnsConfig>,
    smtp: Option<SmtpConfig>,
    scraping: Option<ScrapingConfig>,
    verification: Option<VerificationConfig>,
    inputOutput: Option<InputOutputConfig>)

  /** `ConfigFile::default()`, what a missing settings file loads as. */
  const EmptyFile := ConfigFile(None, None, None, None, None, None)

  /**
   * The command-line arguments (or their environment-variable fallbacks). `input` and
   * `output` always have a value; list-valued options arrive as one comma-separated string.
   */
  datatype AppArgs = AppArgs(
    input: string,
    output: string,
    concurrency: Option<nat>,
    name: Option<string>,
    domain: Option<string>,
    stdout: bool,
    configFile: Option<string>,
    maxVerificationAttempts: Option<u32>,
    minSleep: Option<real>,
    maxSleep: Option<real>,
    requestTimeout: Option<nat>,
    smtpTimeout: Option<nat>,
    dnsTimeout: Option<nat>,
    dnsServers: Option<string>,
    commonPages: Option<string>,
    userAgent: Option<string>,
    smtpSender: Option<string>,
    confidenceThreshold: Option<u8>,
    genericConfidenceThreshold: Option<u8>,
    maxAlternatives: Option<nat>)

  // ---------------------------------------------------------------------------------------
  // Defaults

  function DefaultCommonPages(): seq<string> {
    ["/contact", "/contact-us", "/contactus", "/contact_us", "/about", "/about-us", "/aboutus",
     "/about_us", "/team", "/our-team", "/our_team", "/meet-the-team", "/people", "/staff",
     "/company"]
  }

  function DefaultGenericPrefixes(): set<string> {
    {
      "info", "contact", "hello", "help", "support", "admin", "office", "sales", "press",
      "media", "marketing", "jobs", "careers", "hiring", "privacy", "security", "legal",
      "membership", "team", "people", "general", "feedback", "enquiries", "inquiries", "mail",
      "email", "pitch", "invest", "investors", "ir", "webmaster", "newsletter", "apply",
      "partner", "partners", "ventures"}
  }

  function DefaultDnsServers(): seq<string> {
    ["8.8.8.8", "8.8.4.4", "1.1.1.1", "1.0.0.1"]
  }

  /** The servers validation puts in place of an empty list. */
  function FallbackDnsServers(): seq<string> {
    ["8.8.8.8", "1.1.1.1"]
  }

  function DefaultUserAgent(): string {
    "Mozilla/5.0 " + "(Windows NT 10.0; " + "Win64; x64) " + "AppleWebKit/537.36 " + "(KHTML, like Gecko) " +
    "Chrome/118.0.0.0 " + "Safari/537.36"
  }

  function DefaultSender(): string {
    "verify-probe@example.com"
  }

  /** `Config::default()` */
  function DefaultValues(): ConfigValues {
    ConfigValues(
      "input.json", "results.json", 8, 2, (0.1, 0.5), 10, 5, 5,
      DefaultCommonPages(), DefaultGenericPrefixes(), DefaultUserAgent(), DefaultSender(),
      DefaultDnsServers(), 4, 7, 5, false, None, None, false)
  }

  // ---------------------------------------------------------------------------------------
  // Validation

  /**
   * What validation guarantees: the sleep bounds are ordered, there is a name server,
   * both thresholds are on the 0..10 scale with the base one not above the generic one,
   * and at least one task may run.
   */
  predicate Valid(v: ConfigValues) {
    && v.sleepBetweenRequests.0 <= v.sleepBetweenRequests.1
    && v.dnsServers != []
    && v.confidenceThreshold <= v.genericConfidenceThreshold <= 10
    && v.maxConcurrency >= 1
  }

  /** The defaults need no repair. */
  lemma DefaultIsValid()
    ensures Valid(DefaultValues())
  {
  }

  /** A threshold capped at the top of the 0..10 scale. */
  function Cap(t: u8): u8 {
    if t > 10 then 10 else t
  }

  /** First repair: a minimum sleep above the maximum raises the maximum to it. */
  function RepairSleep(v: ConfigValues): (r: ConfigValues)
    ensures r.sleepBetweenRequests.0 == v.sleepBetweenRequests.0 <= r.sleepBetweenRequests.1
    ensures v.sleepBetweenRequests.0 <= v.sleepBetweenRequests.1 ==> r == v
    ensures v.sleepBetweenRequests.0 > v.sleepBetweenRequests.1 ==>
      r == v.(sleepBetweenRequests := (v.sleepBetweenRequests.0, v.sleepBetweenRequests.0))
  {
    var (lo, hi) := v.sleepBetweenRequests;
    if lo > hi then v.(sleepBetweenRequests := (lo, lo)) else v
  }

  /** Second repair: an empty server list is replaced by the two fallback servers. */
  function RepairDns(v: ConfigValues): (r: ConfigValues)
    ensures r.dnsServers != []
    ensures v.dnsServers != [] ==> r == v
    ensures v.dnsServers == [] ==> r == v.(dnsServers := FallbackDnsServers())
  {
    if v.dnsServers == [] then v.(dnsServers := FallbackDnsServers()) else v
  }

  /**
   * Third repair: both thresholds are capped at 10, then the generic one is raised to the
   * base one; the result is the pair of capped values with the generic one at least the base.
   */
  function RepairThresholds(v: ConfigValues): (r: ConfigValues)
    ensures r.confidenceThreshold == Cap(v.confidenceThreshold)
    ensures r.genericConfidenceThreshold ==
      if Cap(v.genericConfidenceThreshold) < Cap(v.confidenceThreshold) then Cap(v.confidenceThreshold)
      else Cap(v.genericConfidenceThreshold)
    ensures r.confidenceThreshold <= r.genericConfidenceThreshold <= 10
    ensures v.confidenceThreshold <= v.genericConfidenceThreshold <= 10 ==> r == v
    ensures r == v.(confidenceThreshold := r.confidenceThreshold, genericConfidenceThreshold := r.genericConfidenceThreshold)
  {
    var v3 := if v.confidenceThreshold > 10 then v.(confidenceThreshold := 10) else v;
    var v4 := if v3.genericConfidenceThreshold > 10 then v3.(genericConfidenceThreshold := 10) else v3;
    if v4.genericConfidenceThreshold < v4.confidenceThreshold
    then v4.(genericConfidenceThreshold := v4.confidenceThreshold) else v4
  }

  /** Last repair: a concurrency of zero becomes one. */
  function RepairConcurrency(v: ConfigValues): (r: ConfigValues)
    ensures r.maxConcurrency >= 1
    ensures v.maxConcurrency >= 1 ==> r == v
    ensures v.maxConcurrency == 0 ==> r == v.(maxConcurrency := 1)
  {
    if v.maxConcurrency == 0 then v.(maxConcurrency := 1) else v
  }

  /**
   * `validate_config`: the four repairs in the source's order. The result is valid, a valid
   * input is left as it is, and nothing but the repaired fields changes.
   */
  function Repaired(v: ConfigValues): (r: ConfigValues)
    ensures Valid(r)
    ensures Valid(v) ==> r == v
    ensures v.dnsServers != [] ==> r.dnsServers == v.dnsServers
    ensures v.dnsServers == [] ==> r.dnsServers == FallbackDnsServers()
    ensures r == v.(sleepBetweenRequests := r.sleepBetweenRequests, dnsServers := r.dnsServers,
                    confidenceThreshold := r.confidenceThreshold,
                    genericConfidenceThreshold := r.genericConfidenceThreshold,
                    maxConcurrency := r.maxConcurrency)
  {
    RepairConcurrency(RepairThresholds(RepairDns(RepairSleep(v))))
  }

  /** Validating a second time changes nothing. */
  lemma RepairIdempotent(v: ConfigValues)
    ensures Repaired(Repaired(v)) == Repaired(v)
  {
  }

  // ---------------------------------------------------------------------------------------
  // Comma-separated lists

  /** The pieces that are non-empty after `trim`, trimmed, in order. */
  function Entries(pieces: seq<string>): (r: seq<string>)
    ensures |r| <= |pieces|
    decreases |pieces|
  {
    if pieces == [] then []
    else
      var t := Trim(pieces[0]);
      (if t == [] then [] else [t]) + Entries(pieces[1..])
  }

  /** `s.split(',').map(trim).filter(non-empty)` */
  function SplitList(s: string): seq<string> {
    Entries(SplitOn(s, ','))
  }

  /** A comma-separated command-line list when given, else the list already in force. */
  function ListOption(opt: Option<string>, prior: seq<string>): seq<string> {
    match opt
    case Some(s) => SplitList(s)
    case None => prior
  }

  /** An entry as the list splitter leaves it. */
  predicate CleanEntry(x: string) {
    x != [] && ',' !in x && Trim(x) == x
  }

  lemma {:induction false} TrimStartWithin(s: string)
    ensures exists k :: 0 <= k <= |s| && TrimStart(s) == s[k..]
    decreases |s|
  {
    if s != [] && IsWhitespace(s[0]) {
      TrimStartWithin(s[1..]);
      var k :| 0 <= k <= |s[1..]| && TrimStart(s[1..]) == s[1..][k..];
      assert TrimStart(s) == s[k + 1..];
    } else {
      assert TrimStart(s) == s[0..];
    }
  }

  /** `trim` keeps a substring, so it adds no character. */
  lemma TrimWithin(s: string, c: char)
    requires c !in s
    ensures c !in Trim(s)
  {
    TrimStartWithin(s);
    var k :| 0 <= k <= |s| && TrimStart(s) == s[k..];
    TrimEndShape(TrimStart(s));
    assert forall i :: 0 <= i < |Trim(s)| ==> Trim(s)[i] == s[k + i];
  }

  lemma {:induction false} TrimStartOfTrimmed(s: string)
    requires s == [] || !IsWhitespace(s[0])
    ensures TrimStart(s) == s
  {
  }

  /** A trimmed string is a fixed point of `trim`. */
  lemma TrimTwice(s: string)
    ensures Trim(Trim(s)) == Trim(s)
  {
    var t := Trim(s);
    TrimShape(s);
    TrimStartOfTrimmed(t);
    if t != [] {
      assert TrimEnd(t) == t;
    }
  }

  /** Every entry of a split list is non-empty, comma-free and already trimmed. */
  lemma {:induction false} EntriesClean(pieces: seq<string>)
    requires forall i :: 0 <= i < |pieces| ==> ',' !in pieces[i]
    ensures forall i :: 0 <= i < |Entries(pieces)| ==> CleanEntry(Entries(pieces)[i])
    decreases |pieces|
  {
    if pieces != [] {
      EntriesClean(pieces[1..]);
      TrimWithin(pieces[0], ',');
      TrimTwice(pieces[0]);
    }
  }

  lemma SplitListClean(s: string)
    ensures forall i :: 0 <= i < |SplitList(s)| ==> CleanEntry(SplitList(s)[i])
  {
    EntriesClean(SplitOn(s, ','));
  }

  /** Entries that are already clean pass through unchanged. */
  lemma {:induction false} EntriesOfClean(xs: seq<string>)
    requires forall i :: 0 <= i < |xs| ==> CleanEntry(xs[i])
    ensures Entries(xs) == xs
    decreases |xs|
  {
    if xs != [] {
      EntriesOfClean(xs[1..]);
    }
  }

  /** A comma-free head followed by a comma splits off as the first piece. */
  lemma SplitOnCons(head: string, rest: string, c: char)
    requires c !in head
    ensures SplitOn(head + [c] + rest, c) == [head] + SplitOn(rest, c)
  {
    var s := head + [c] + rest;
    var i := FindChar(s, c);
    assert s[|head|] == c;
    assert forall j :: 0 <= j < i ==> s[..i][j] == s[j];
    assert forall j :: 0 <= j < i ==> s[j] != c;
    assert forall j :: 0 <= j < |head| ==> s[j] == head[j];
    assert i == |head|;
    assert s[..i] == head;
    assert s[i + 1..] == rest;
  }

  /** Splitting a joined list of comma-free pieces gives the pieces back. */
  lemma {:induction false} SplitOnJoin(xs: seq<string>, c: char)
    requires xs != []
    requires forall i :: 0 <= i < |xs| ==> c !in xs[i]
    ensures SplitOn(Join(xs, [c]), c) == xs
    decreases |xs|
  {
    if |xs| == 1 {
      assert FindChar(xs[0], c) == |xs[0]|;
    } else {
      SplitOnCons(xs[0], Join(xs[1..], [c]), c);
      SplitOnJoin(xs[1..], c);
      assert xs == [xs[0]] + xs[1..];
    }
  }

  /**
   * The list splitter inverts joining with commas: a non-empty list of clean entries,
   * written as one comma-separated option, reads back as the same list.
   */
  lemma SplitListJoin(xs: seq<string>)
    requires xs != []
    requires forall i :: 0 <= i < |xs| ==> CleanEntry(xs[i])
    ensures SplitList(Join(xs, [','])) == xs
  {
    SplitOnJoin(xs, ',');
    EntriesOfClean(xs);
  }

  // ---------------------------------------------------------------------------------------
  // Layering

  function AsSet(xs: seq<string>): set<string> {
    set x | x in xs
  }

  /** The `[network]` part of `apply_file_config`. */
  function WithNetwork(v: ConfigValues, t: Option<NetworkConfig>): (r: ConfigValues)
    ensures (t.None? || t.value == NetworkConfig(None, None, None, None)) ==> r == v
    ensures r == v.(requestTimeout := r.requestTimeout, sleepBetweenRequests := r.sleepBetweenRequests,
                    userAgent := r.userAgent)
  {
    match t
    case None => v
    case Some(n) =>
      v.(requestTimeout := n.requestTimeout.GetOr(v.requestTimeout),
         sleepBetweenRequests := (n.minSleep.GetOr(v.sleepBetweenRequests.0),
                                  n.maxSleep.GetOr(v.sleepBetweenRequests.1)),
         userAgent := n.userAgent.GetOr(v.userAgent))
  }

  /** The `[dns]` part. */
  function WithDns(v: ConfigValues, t: Option<DnsConfig>): (r: ConfigValues)
    ensures (t.None? || t.value == DnsConfig(None, None)) ==> r == v
    ensures r == v.(dnsTimeout := r.dnsTimeout, dnsServers := r.dnsServers)
  {
    match t
    case None => v
    case Some(d) =>
      v.(dnsTimeout := d.dnsTimeout.GetOr(v.dnsTimeout), dnsServers := d.dnsServers.GetOr(v.dnsServers))
  }

  /** The `[smtp]` part. */
  function WithSmtp(v: ConfigValues, t: Option<SmtpConfig>): (r: ConfigValues)
    ensures (t.None? || t.value == SmtpConfig(None, None, None)) ==> r == v
    ensures r == v.(smtpTimeout := r.smtpTimeout, smtpSenderEmail := r.smtpSenderEmail,
                    maxVerificationAttempts := r.maxVerificationAttempts)
  {
    match t
    case None => v
    case Some(s) =>
      v.(smtpTimeout := s.smtpTimeout.GetOr(v.smtpTimeout),
         smtpSenderEmail := s.smtpSenderEmail.GetOr(v.smtpSenderEmail),
         maxVerificationAttempts := s.maxVerificationAttempts.GetOr(v.maxVerificationAttempts))
  }

  /** The `[scraping]` part; the prefix list becomes a set. */
  function WithScraping(v: ConfigValues, t: Option<ScrapingConfig>): (r: ConfigValues)
    ensures (t.None? || t.value == ScrapingConfig(None, None)) ==> r == v
    ensures r == v.(commonPagesToScrape := r.commonPagesToScrape, genericEmailPrefixes := r.genericEmailPrefixes)
  {
    match t
    case None => v
    case Some(s) =>
      v.(commonPagesToScrape := s.commonPages.GetOr(v.commonPagesToScrape),
         genericEmailPrefixes :=
           if s.genericEmailPrefixes.Some? then AsSet(s.genericEmailPrefixes.value) else v.genericEmailPrefixes)
  }

  /** The `[verification]` part. */
  function WithVerification(v: ConfigValues, t: Option<VerificationConfig>): (r: ConfigValues)
    ensures (t.None? || t.value == VerificationConfig(None, None, None, None)) ==> r == v
    ensures r == v.(confidenceThreshold := r.confidenceThreshold,
                    genericConfidenceThreshold := r.genericConfidenceThreshold,
                    maxAlternatives := r.maxAlternatives, maxConcurrency := r.maxConcurrency)
  {
    match t
    case None => v
    case Some(s) =>
      v.(confidenceThreshold := s.confidenceThreshold.GetOr(v.confidenceThreshold),
         genericConfidenceThreshold := s.genericConfidenceThreshold.GetOr(v.genericConfidenceThreshold),
         maxAlternatives := s.maxAlternatives.GetOr(v.maxAlternatives),
         maxConcurrency := s.maxConcurrency.GetOr(v.maxConcurrency))
  }

  /** The `[input_output]` part. */
  function WithInputOutput(v: ConfigValues, t: Option<InputOutputConfig>): (r: ConfigValues)
    ensures (t.None? || t.value == InputOutputConfig(None, None)) ==> r == v
    ensures r == v.(inputFile := r.inputFile, outputFile := r.outputFile)
  {
    match t
    case None => v
    case Some(s) =>
      v.(inputFile := s.inputFile.GetOr(v.inputFile), outputFile := s.outputFile.GetOr(v.outputFile))
  }

  /** A settings file that sets nothing: every table absent or with every key absent. */
  predicate SetsNothing(f: ConfigFile) {
    && (f.network.Some? ==> f.network.value == NetworkConfig(None, None, None, None))
    && (f.dns.Some? ==> f.dns.value == DnsConfig(None, None))
    && (f.smtp.Some? ==> f.smtp.value == SmtpConfig(None, None, None))
    && (f.scraping.Some? ==> f.scraping.value == ScrapingConfig(None, None))
    && (f.verification.Some? ==> f.verification.value == VerificationConfig(None, None, None, None))
    && (f.inputOutput.Some? ==> f.inputOutput.value == InputOutputConfig(None, None))
  }

  /** The command-line state: the fields only the command line can set. */
  function CliState(v: ConfigValues): (Option<string>, Option<string>, bool, bool) {
    (v.cliName, v.cliDomain, v.cliMode, v.outputToStdout)
  }

  /** `apply_file_config` */
  function WithFile(v: ConfigValues, f: ConfigFile): (r: ConfigValues)
    ensures CliState(r) == CliState(v)
    ensures SetsNothing(f) ==> r == v
    ensures f.inputOutput.None? ==> r.inputFile == v.inputFile && r.outputFile == v.outputFile
    ensures f.dns.None? ==> r.dnsServers == v.dnsServers
    ensures f.verification.None? ==>
      r.confidenceThreshold == v.confidenceThreshold &&
      r.genericConfidenceThreshold == v.genericConfidenceThreshold && r.maxConcurrency == v.maxConcurrency
  {
    var v1 := WithNetwork(v, f.network);
    var v2 := WithDns(v1, f.dns);
    var v3 := WithSmtp(v2, f.smtp);
    var v4 := WithScraping(v3, f.scraping);
    var v5 := WithVerification(v4, f.verification);
    WithInputOutput(v5, f.inputOutput)
  }

  /**
   * The settings file is applied key by key: a key given in a present table replaces the
   * value, and a key missing from its table, or a table missing from the file, keeps it.
   * This lemma covers the `[network]` and `[dns]` tables.
   */
  lemma FileOverridesNetworkDns(v: ConfigValues, f: ConfigFile)
    ensures var r := WithFile(v, f);
      var n, d := f.network, f.dns;
      && r.requestTimeout == (if n.Some? && n.value.requestTimeout.Some? then n.value.requestTimeout.value else v.requestTimeout)
      && r.sleepBetweenRequests.0 == (if n.Some? && n.value.minSleep.Some? then n.value.minSleep.value else v.sleepBetweenRequests.0)
      && r.sleepBetweenRequests.1 == (if n.Some? && n.value.maxSleep.Some? then n.value.maxSleep.value else v.sleepBetweenRequests.1)
      && r.userAgent == (if n.Some? && n.value.userAgent.Some? then n.value.userAgent.value else v.userAgent)
      && r.dnsTimeout == (if d.Some? && d.value.dnsTimeout.Some? then d.value.dnsTimeout.value else v.dnsTimeout)
      && r.dnsServers == (if d.Some? && d.value.dnsServers.Some? then d.value.dnsServers.value else v.dnsServers)
  {
    var v2 := WithDns(WithNetwork(v, f.network), f.dns);
    var v4 := WithScraping(WithSmtp(v2, f.smtp), f.scraping);
    assert WithFile(v, f) == WithInputOutput(WithVerification(v4, f.verification), f.inputOutput);
  }

  /** The same for the `[smtp]` and `[scraping]` tables; the prefix list becomes a set. */
  lemma FileOverridesSmtpScraping(v: ConfigValues, f: ConfigFile)
    ensures var r := WithFile(v, f);
      var s, sc := f.smtp, f.scraping;
      && r.smtpTimeout == (if s.Some? && s.value.smtpTimeout.Some? then s.value.smtpTimeout.value else v.smtpTimeout)
      && r.smtpSenderEmail ==
        (if s.Some? && s.value.smtpSenderEmail.Some? then s.value.smtpSenderEmail.value else v.smtpSenderEmail)
      && r.maxVerificationAttempts ==
        (if s.Some? && s.value.maxVerificationAttempts.Some? then s.value.maxVerificationAttempts.value
         else v.maxVerificationAttempts)
      && r.commonPagesToScrape ==
        (if sc.Some? && sc.value.commonPages.Some? then sc.value.commonPages.value else v.commonPagesToScrape)
      && r.genericEmailPrefixes ==
        (if sc.Some? && sc.value.genericEmailPrefixes.Some? then AsSet(sc.value.genericEmailPrefixes.value)
         else v.genericEmailPrefixes)
  {
    var v2 := WithDns(WithNetwork(v, f.network), f.dns);
    var v4 := WithScraping(WithSmtp(v2, f.smtp), f.scraping);
    assert WithFile(v, f) == WithInputOutput(WithVerification(v4, f.verification), f.inputOutput);
  }

  /** The same for the `[verification]` and `[input_output]` tables. */
  lemma FileOverridesDefaults(v: ConfigValues, f: ConfigFile)
    ensures var r := WithFile(v, f);
      var ve, io := f.verification, f.inputOutput;
      && r.confidenceThreshold ==
        (if ve.Some? && ve.value.confidenceThreshold.Some? then ve.value.confidenceThreshold.value else v.confidenceThreshold)
      && r.genericConfidenceThreshold ==
        (if ve.Some? && ve.value.genericConfidenceThreshold.Some? then ve.value.genericConfidenceThreshold.value
         else v.genericConfidenceThreshold)
      && r.maxAlternatives ==
        (if ve.Some? && ve.value.maxAlternatives.Some? then ve.value.maxAlternatives.value else v.maxAlternatives)
      && r.maxConcurrency ==
        (if ve.Some? && ve.value.maxConcurrency.Some? then ve.value.maxConcurrency.value else v.maxConcurrency)
      && r.inputFile == (if io.Some? && io.value.inputFile.Some? then io.value.inputFile.value else v.inputFile)
      && r.outputFile == (if io.Some? && io.value.outputFile.Some? then io.value.outputFile.value else v.outputFile)
  {
    var v2 := WithDns(WithNetwork(v, f.network), f.dns);
    var v4 := WithScraping(WithSmtp(v2, f.smtp), f.scraping);
    assert WithFile(v, f) == WithInputOutput(WithVerification(v4, f.verification), f.inputOutput);
  }

  /** `apply_cli_args` */
  function WithCli(v: ConfigValues, a: AppArgs): (r: ConfigValues)
    ensures r.inputFile == a.input && r.outputFile == a.output
    ensures CliState(r) == (a.name, a.domain, a.name.Some? && a.domain.Some?, a.stdout)
    ensures r.genericEmailPrefixes == v.genericEmailPrefixes
    ensures a.dnsServers.Some? ==> r.dnsServers == SplitList(a.dnsServers.value)
    ensures a.dnsServers.None? ==> r.dnsServers == v.dnsServers
    ensures a.commonPages.Some? ==> r.commonPagesToScrape == SplitList(a.commonPages.value)
    ensures a.commonPages.None? ==> r.commonPagesToScrape == v.commonPagesToScrape
  {
    CliScores(CliIdentity(CliLists(CliTimeouts(CliLimits(CliTarget(CliPaths(v, a), a), a), a), a), a), a)
  }

  /** The input and output paths and the stdout flag, which are always set. */
  function CliPaths(v: ConfigValues, a: AppArgs): (r: ConfigValues)
    ensures r == v.(inputFile := r.inputFile, outputFile := r.outputFile, outputToStdout := r.outputToStdout)
  {
    v.(inputFile := a.input, outputFile := a.output, outputToStdout := a.stdout)
  }

  /** The single-contact target, always set; command-line mode needs both name and domain. */
  function CliTarget(v: ConfigValues, a: AppArgs): (r: ConfigValues)
    ensures r == v.(cliName := r.cliName, cliDomain := r.cliDomain, cliMode := r.cliMode)
  {
    v.(cliName := a.name, cliDomain := a.domain, cliMode := a.name.Some? && a.domain.Some?)
  }

  /** Concurrency, attempts and sleep bounds, each when given. */
  function CliLimits(v: ConfigValues, a: AppArgs): (r: ConfigValues)
    ensures r == v.(maxConcurrency := r.maxConcurrency, maxVerificationAttempts := r.maxVerificationAttempts,
                    sleepBetweenRequests := r.sleepBetweenRequests)
  {
    v.(maxConcurrency := a.concurrency.GetOr(v.maxConcurrency),
       maxVerificationAttempts := a.maxVerificationAttempts.GetOr(v.maxVerificationAttempts),
       sleepBetweenRequests := (a.minSleep.GetOr(v.sleepBetweenRequests.0),
                                a.maxSleep.GetOr(v.sleepBetweenRequests.1)))
  }

  /** The three timeouts, each when given. */
  function CliTimeouts(v: ConfigValues, a: AppArgs): (r: ConfigValues)
    ensures r == v.(requestTimeout := r.requestTimeout, smtpTimeout := r.smtpTimeout, dnsTimeout := r.dnsTimeout)
  {
    v.(requestTimeout := a.requestTimeout.GetOr(v.requestTimeout),
       smtpTimeout := a.smtpTimeout.GetOr(v.smtpTimeout),
       dnsTimeout := a.dnsTimeout.GetOr(v.dnsTimeout))
  }

  /** The server and page lists, split at commas, each when given. */
  function CliLists(v: ConfigValues, a: AppArgs): (r: ConfigValues)
    ensures r == v.(dnsServers := r.dnsServers, commonPagesToScrape := r.commonPagesToScrape)
  {
    v.(dnsServers := ListOption(a.dnsServers, v.dnsServers),
       commonPagesToScrape := ListOption(a.commonPages, v.commonPagesToScrape))
  }

  /** The user agent and the SMTP sender, each when given. */
  function CliIdentity(v: ConfigValues, a: AppArgs): (r: ConfigValues)
    ensures r == v.(userAgent := r.userAgent, smtpSenderEmail := r.smtpSenderEmail)
  {
    v.(userAgent := a.userAgent.GetOr(v.userAgent), smtpSenderEmail := a.smtpSender.GetOr(v.smtpSenderEmail))
  }

  /** The two thresholds and the number of alternatives, each when given. */
  function CliScores(v: ConfigValues, a: AppArgs): (r: ConfigValues)
    ensures r == v.(confidenceThreshold := r.confidenceThreshold,
                    genericConfidenceThreshold := r.genericConfidenceThreshold, maxAlternatives := r.maxAlternatives)
  {
    v.(confidenceThreshold := a.confidenceThreshold.GetOr(v.confidenceThreshold),
       genericConfidenceThreshold := a.genericConfidenceThreshold.GetOr(v.genericConfidenceThreshold),
       maxAlternatives := a.maxAlternatives.GetOr(v.maxAlternatives))
  }



  /** Arguments that override none of the tunable settings. */
  predicate OverridesNothing(a: AppArgs) {
    && a.concurrency.None? && a.maxVerificationAttempts.None? && a.minSleep.None? && a.maxSleep.None?
    && a.requestTimeout.None? && a.smtpTimeout.None? && a.dnsTimeout.None? && a.dnsServers.None?
    && a.commonPages.None? && a.userAgent.None? && a.smtpSender.None? && a.confidenceThreshold.None?
    && a.genericConfidenceThreshold.None? && a.maxAlternatives.None?
  }

  /** The settings other than file paths and command-line state. */
  function Tunables(v: ConfigValues): ConfigValues {
    v.(inputFile := "", outputFile := "", cliName := None, cliDomain := None, cliMode := false, outputToStdout := false)
  }

  /**
   * The command line is applied after the settings file: an option it gives wins whatever
   * the file said, and with no options the file's values stand.
   */
  lemma CliOverridesFile(v: ConfigValues, f: ConfigFile, a: AppArgs)
    ensures OverridesNothing(a) ==> Tunables(WithCli(WithFile(v, f), a)) == Tunables(WithFile(v, f))
    ensures var r := WithCli(WithFile(v, f), a);
      && (a.confidenceThreshold.Some? ==> r.confidenceThreshold == a.confidenceThreshold.value)
      && (a.genericConfidenceThreshold.Some? ==> r.genericConfidenceThreshold == a.genericConfidenceThreshold.value)
      && (a.concurrency.Some? ==> r.maxConcurrency == a.concurrency.value)
      && (a.maxVerificationAttempts.Some? ==> r.maxVerificationAttempts == a.maxVerificationAttempts.value)
      && (a.minSleep.Some? ==> r.sleepBetweenRequests.0 == a.minSleep.value)
      && (a.maxSleep.Some? ==> r.sleepBetweenRequests.1 == a.maxSleep.value)
      && (a.requestTimeout.Some? ==> r.requestTimeout == a.requestTimeout.value)
      && (a.smtpTimeout.Some? ==> r.smtpTimeout == a.smtpTimeout.value)
      && (a.dnsTimeout.Some? ==> r.dnsTimeout == a.dnsTimeout.value)
      && (a.userAgent.Some? ==> r.userAgent == a.userAgent.value)
      && (a.smtpSender.Some? ==> r.smtpSenderEmail == a.smtpSender.value)
      && (a.maxAlternatives.Some? ==> r.maxAlternatives == a.maxAlternatives.value)
      && (a.dnsServers.Some? ==> r.dnsServers == SplitList(a.dnsServers.value))
      && (a.commonPages.Some? ==> r.commonPagesToScrape == SplitList(a.commonPages.value))
  {
    var w := WithFile(v, f);
    var limits := CliLimits(CliTarget(CliPaths(w, a), a), a);
    var lists := CliLists(CliTimeouts(limits, a), a);
    assert WithCli(w, a) == CliScores(CliIdentity(lists, a), a);
  }

  /** `build_config`: defaults, then the settings file if one loaded, then the command line, then validation. */
  function Built(a: AppArgs, file: Option<ConfigFile>): (r: ConfigValues)
    ensures Valid(r)
    ensures r.inputFile == a.input && r.outputFile == a.output
    ensures r.cliMode <==> a.name.Some? && a.domain.Some?
    ensures a.dnsServers.Some? && SplitList(a.dnsServers.value) != [] ==>
      r.dnsServers == SplitList(a.dnsServers.value)
    ensures a.dnsServers.Some? && SplitList(a.dnsServers.value) == [] ==> r.dnsServers == FallbackDnsServers()
  {
    var base := if file.Some? then WithFile(DefaultValues(), file.value) else DefaultValues();
    Repaired(WithCli(base, a))
  }

  // ---------------------------------------------------------------------------------------
  // Finding the settings file

  /** The paths tried, in order, when no settings file is named. */
  function DefaultConfigPaths(): seq<string> {
    ["./email-sleuth.toml", "./config.toml", "~/.config/email-sleuth.toml"]
  }

  /**
   * `load_config_file`: a path that does not exist loads as the empty settings;
   * `parse` stands for reading the file and parsing it as TOML.
   */
  function LoadConfigFile(path: string, isFile: string -> bool, parse: string -> Result<ConfigFile, string>)
    : Result<ConfigFile, string>
  {
    if !isFile(path) then Success(EmptyFile) else parse(path)
  }

  predicate Loadable(path: string, isFile: string -> bool, parse: string -> Result<ConfigFile, string>) {
    isFile(path) && parse(path).Success?
  }

  /** The first path that exists and parses, skipping the ones that fail. */
  function FirstLoadable(paths: seq<string>, isFile: string -> bool, parse: string -> Result<ConfigFile, string>)
    : (r: Option<ConfigFile>)
    ensures r.None? <==> forall i :: 0 <= i < |paths| ==> !Loadable(paths[i], isFile, parse)
    ensures r.Some? ==> exists i :: (0 <= i < |paths| && Loadable(paths[i], isFile, parse) &&
      r.value == parse(paths[i]).value && forall j :: 0 <= j < i ==> !Loadable(paths[j], isFile, parse))
    decreases |paths|
  {
    if paths == [] then None
    else if Loadable(paths[0], isFile, parse) then
      Some(parse(paths[0]).value)
    else
      var r := FirstLoadable(paths[1..], isFile, parse);
      assert forall i :: 1 <= i < |paths| ==> paths[i] == paths[1..][i - 1];
      if r.Some? then
        var i :| (0 <= i < |paths[1..]| && Loadable(paths[1..][i], isFile, parse) &&
          r.value == parse(paths[1..][i]).value && forall j :: 0 <= j < i ==> !Loadable(paths[1..][j], isFile, parse));
        assert forall j :: 0 <= j < i + 1 ==> !Loadable(paths[j], isFile, parse);
        r
      else r
  }

  /**
   * The settings file `build_config` applies: the named one when it loads (an error is
   * logged and ignored), otherwise the first default path that exists and parses.
   */
  function FileChoice(a: AppArgs, isFile: string -> bool, parse: string -> Result<ConfigFile, string>)
    : (r: Option<ConfigFile>)
    ensures a.configFile.Some? && !isFile(a.configFile.value) ==> r == Some(EmptyFile)
    ensures a.configFile.Some? && isFile(a.configFile.value) ==>
      (r.Some? <==> parse(a.configFile.value).Success?)
    ensures a.configFile.None? ==> r == FirstLoadable(DefaultConfigPaths(), isFile, parse)
  {
    match a.configFile
    case Some(path) =>
      (match LoadConfigFile(path, isFile, parse)
       case Success(f) => Some(f)
       case Failure(_) => None)
    case None => FirstLoadable(DefaultConfigPaths(), isFile, parse)
  }

  // ---------------------------------------------------------------------------------------
  // The mutable settings object

  /** `Config`, whose fields `apply_file_config`, `apply_cli_args` and `validate_config` update. */
  class Config {
    var inputFile: string
    var outputFile: string
    var maxConcurrency: nat
    var maxVerificationAttempts: u32
    var sleepBetweenRequests: (real, real)
    var requestTimeout: nat
    var smtpTimeout: nat
    var dnsTimeout: nat
    var commonPagesToScrape: seq<string>
    var genericEmailPrefixes: set<string>
    var userAgent: string
    var smtpSenderEmail: string
    var dnsServers: seq<string>
    var confidenceThreshold: u8
    var genericConfidenceThreshold: u8
    var maxAlternatives: nat
    var cliMode: bool
    var cliName: Option<string>
    var cliDomain: Option<string>
    var outputToStdout: bool

    /** The current settings as a value. */
    function Values(): ConfigValues
      reads this
    {
      ConfigValues(inputFile, outputFile, maxConcurrency, maxVerificationAttempts, sleepBetweenRequests,
        requestTimeout, smtpTimeout, dnsTimeout, commonPagesToScrape, genericEmailPrefixes, userAgent,
        smtpSenderEmail, dnsServers, confidenceThreshold, genericConfidenceThreshold, maxAlternatives,
        cliMode, cliName, cliDomain, outputToStdout)
    }

    /** `Config::default()` */
    constructor ()
      ensures Values() == DefaultValues()
    {
      inputFile := "input.json";
      outputFile := "results.json";
      maxConcurrency := 8;
      maxVerificationAttempts := 2;
      sleepBetweenRequests := (0.1, 0.5);
      requestTimeout := 10;
      smtpTimeout := 5;
      dnsTimeout := 5;
      commonPagesToScrape := DefaultCommonPages();
      genericEmailPrefixes := DefaultGenericPrefixes();
      userAgent := DefaultUserAgent();
      smtpSenderEmail := DefaultSender();
      dnsServers := DefaultDnsServers();
      confidenceThreshold := 4;
      genericConfidenceThreshold := 7;
      maxAlternatives := 5;
      cliMode := false;
      cliName := None;
      cliDomain := None;
      outputToStdout := false;
    }

    /** `apply_file_config`: every key present in the file replaces the current value. */
    method ApplyFileConfig(f: ConfigFile)
      modifies this
      ensures Values() == WithFile(old(Values()), f)
    {
      ApplyNetwork(f.network);
      ApplyDns(f.dns);
      ApplySmtp(f.smtp);
      ApplyScraping(f.scraping);
      ApplyVerification(f.verification);
      ApplyInputOutput(f.inputOutput);
    }

    method ApplyNetwork(t: Option<NetworkConfig>)
      modifies this`requestTimeout, this`sleepBetweenRequests, this`userAgent
      ensures Values() == WithNetwork(old(Values()), t)
    {
      if t.Some? {
        var n := t.value;
        requestTimeout := n.requestTimeout.GetOr(requestTimeout);
        sleepBetweenRequests := (n.minSleep.GetOr(sleepBetweenRequests.0), sleepBetweenRequests.1);
        sleepBetweenRequests := (sleepBetweenRequests.0, n.maxSleep.GetOr(sleepBetweenRequests.1));
        userAgent := n.userAgent.GetOr(userAgent);
      }
    }

    method ApplyDns(t: Option<DnsConfig>)
      modifies this`dnsTimeout, this`dnsServers
      ensures Values() == WithDns(old(Values()), t)
    {
      if t.Some? {
        var d := t.value;
        dnsTimeout := d.dnsTimeout.GetOr(dnsTimeout);
        dnsServers := d.dnsServers.GetOr(dnsServers);
      }
    }

    method ApplySmtp(t: Option<SmtpConfig>)
      modifies this`smtpTimeout, this`smtpSenderEmail, this`maxVerificationAttempts
      ensures Values() == WithSmtp(old(Values()), t)
    {
      if t.Some? {
        var s := t.value;
        smtpTimeout := s.smtpTimeout.GetOr(smtpTimeout);
        smtpSenderEmail := s.smtpSenderEmail.GetOr(smtpSenderEmail);
        maxVerificationAttempts := s.maxVerificationAttempts.GetOr(maxVerificationAttempts);
      }
    }

    method ApplyScraping(t: Option<ScrapingConfig>)
      modifies this`commonPagesToScrape, this`genericEmailPrefixes
      ensures Values() == WithScraping(old(Values()), t)
    {
      if t.Some? {
        var s := t.value;
        commonPagesToScrape := s.commonPages.GetOr(commonPagesToScrape);
        if s.genericEmailPrefixes.Some? { genericEmailPrefixes := AsSet(s.genericEmailPrefixes.value); }
      }
    }

    method ApplyVerification(t: Option<VerificationConfig>)
      modifies this`confidenceThreshold, this`genericConfidenceThreshold, this`maxAlternatives, this`maxConcurrency
      ensures Values() == WithVerification(old(Values()), t)
    {
      if t.Some? {
        var s := t.value;
        confidenceThreshold := s.confidenceThreshold.GetOr(confidenceThreshold);
        genericConfidenceThreshold := s.genericConfidenceThreshold.GetOr(genericConfidenceThreshold);
        maxAlternatives := s.maxAlternatives.GetOr(maxAlternatives);
        maxConcurrency := s.maxConcurrency.GetOr(maxConcurrency);
      }
    }

    method ApplyInputOutput(t: Option<InputOutputConfig>)
      modifies this`inputFile, this`outputFile
      ensures Values() == WithInputOutput(old(Values()), t)
    {
      if t.Some? {
        var s := t.value;
        inputFile := s.inputFile.GetOr(inputFile);
        outputFile := s.outputFile.GetOr(outputFile);
      }
    }

    /** `apply_cli_args`: paths and command-line state always, every other option when given. */
    method ApplyCliArgs(a: AppArgs)
      modifies this
      ensures Values() == WithCli(old(Values()), a)
    {
      ApplyCliPaths(a);
      ApplyCliTarget(a);
      ApplyCliLimits(a);
      ApplyCliTimeouts(a);
      ApplyCliLists(a);
      ApplyCliIdentity(a);
      ApplyCliScores(a);
    }

    method ApplyCliPaths(a: AppArgs)
      modifies this`inputFile, this`outputFile, this`outputToStdout
      ensures Values() == CliPaths(old(Values()), a)
    {
      inputFile := a.input;
      outputFile := a.output;
      outputToStdout := a.stdout;
    }

    method ApplyCliTarget(a: AppArgs)
      modifies this`cliName, this`cliDomain, this`cliMode
      ensures Values() == CliTarget(old(Values()), a)
    {
      cliName := a.name;
      cliDomain := a.domain;
      cliMode := a.name.Some? && a.domain.Some?;
    }

    method ApplyCliLimits(a: AppArgs)
      modifies this`maxConcurrency, this`maxVerificationAttempts, this`sleepBetweenRequests
      ensures Values() == CliLimits(old(Values()), a)
    {
      maxConcurrency := a.concurrency.GetOr(maxConcurrency);
      maxVerificationAttempts := a.maxVerificationAttempts.GetOr(maxVerificationAttempts);
      sleepBetweenRequests := (a.minSleep.GetOr(sleepBetweenRequests.0), a.maxSleep.GetOr(sleepBetweenRequests.1));
    }

    method ApplyCliTimeouts(a: AppArgs)
      modifies this`requestTimeout, this`smtpTimeout, this`dnsTimeout
      ensures Values() == CliTimeouts(old(Values()), a)
    {
      requestTimeout := a.requestTimeout.GetOr(requestTimeout);
      smtpTimeout := a.smtpTimeout.GetOr(smtpTimeout);
      dnsTimeout := a.dnsTimeout.GetOr(dnsTimeout);
    }

    method ApplyCliLists(a: AppArgs)
      modifies this`dnsServers, this`commonPagesToScrape
      ensures Values() == CliLists(old(Values()), a)
    {
      dnsServers := ListOption(a.dnsServers, dnsServers);
      commonPagesToScrape := ListOption(a.commonPages, commonPagesToScrape);
    }

    method ApplyCliIdentity(a: AppArgs)
      modifies this`userAgent, this`smtpSenderEmail
      ensures Values() == CliIdentity(old(Values()), a)
    {
      userAgent := a.userAgent.GetOr(userAgent);
      smtpSenderEmail := a.smtpSender.GetOr(smtpSenderEmail);
    }

    method ApplyCliScores(a: AppArgs)
      modifies this`confidenceThreshold, this`genericConfidenceThreshold, this`maxAlternatives
      ensures Values() == CliScores(old(Values()), a)
    {
      confidenceThreshold := a.confidenceThreshold.GetOr(confidenceThreshold);
      genericConfidenceThreshold := a.genericConfidenceThreshold.GetOr(genericConfidenceThreshold);
      maxAlternatives := a.maxAlternatives.GetOr(maxAlternatives);
    }

    /** `validate_config`: repairs the settings in place and always succeeds. */
    method Validate() returns (r: Result<(), string>)
      modifies this
      ensures r.Success?
      ensures Values() == Repaired(old(Values()))
      ensures Valid(Values())
    {
      FixSleep();
      FixDnsServers();
      FixThresholds();
      FixConcurrency();
      r := Success(());
    }

    method FixSleep()
      modifies this`sleepBetweenRequests
      ensures Values() == RepairSleep(old(Values()))
    {
      if sleepBetweenRequests.0 > sleepBetweenRequests.1 {
        sleepBetweenRequests := (sleepBetweenRequests.0, sleepBetweenRequests.0);
      }
    }

    method FixDnsServers()
      modifies this`dnsServers
      ensures Values() == RepairDns(old(Values()))
    {
      if dnsServers == [] {
        dnsServers := FallbackDnsServers();
      }
    }

    method FixThresholds()
      modifies this`confidenceThreshold, this`genericConfidenceThreshold
      ensures Values() == RepairThresholds(old(Values()))
    {
      if confidenceThreshold > 10 {
        confidenceThreshold := 10;
      }
      if genericConfidenceThreshold > 10 {
        genericConfidenceThreshold := 10;
      }
      if genericConfidenceThreshold < confidenceThreshold {
        genericConfidenceThreshold := confidenceThreshold;
      }
    }

    method FixConcurrency()
      modifies this`maxConcurrency
      ensures Values() == RepairConcurrency(old(Values()))
    {
      if maxConcurrency == 0 {
        maxConcurrency := 1;
      }
    }
  }

  /**
   * `build_config`, with the file system as `isFile` and `parse`: the defaults, then the
   * chosen settings file, then the command line, then validation.
   */
  method BuildConfig(a: AppArgs, isFile: string -> bool, parse: string -> Result<ConfigFile, string>)
    returns (r: Result<Config, string>)
    ensures r.Success?
    ensures fresh(r.value)
    ensures r.value.Values() == Built(a, FileChoice(a, isFile, parse))
  {
    var c := new Config();
    var file := ChooseFile(a, isFile, parse);
    if file.Some? {
      c.ApplyFileConfig(file.value);
    }
    c.ApplyCliArgs(a);
    var ok := c.Validate();
    r := Success(c);
  }

  /**
   * The settings file `build_config` applies: the named one when it loads, otherwise the
   * first default location that exists and parses.
   */
  method ChooseFile(a: AppArgs, isFile: string -> bool, parse: string -> Result<ConfigFile, string>)
    returns (file: Option<ConfigFile>)
    ensures file == FileChoice(a, isFile, parse)
  {
    file := None;
    if a.configFile.Some? {
      var loaded := LoadConfigFile(a.configFile.value, isFile, parse);
      if loaded.Success? {
        file := Some(loaded.value);
      }
    } else {
      var paths := DefaultConfigPaths();
      var i := 0;
      while i < |paths|
        invariant 0 <= i <= |paths|
        invariant file.None?
        invariant FirstLoadable(paths, isFile, parse) == FirstLoadable(paths[i..], isFile, parse)
        decreases |paths| - i
      {
        if isFile(paths[i]) {
          var loaded := LoadConfigFile(paths[i], isFile, parse);
          if loaded.Success? {
            file := Some(loaded.value);
            break;
          }
        }
        assert paths[i..][1..] == paths[i + 1..];
        i := i + 1;
      }
    }
  }

}
