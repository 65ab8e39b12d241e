/** Choice of the mail host for a domain, and the resolver's name-server list. */
module Dns {
  import opened Wrappers
  import opened Ints
  import opened Strings
  import opened Errors
  import Sorting

  /** The mail server to probe; an address-record fallback has preference `u16::MAX`. */
  datatype MailServer = MailServer(exchange: string, preference: u16)

  /** One MX record as the resolver returns it. */
  datatype MxRecord = MxRecord(preference: u16, exchange: string)

  /** A failed lookup: the `Debug` rendering of its kind, and its `Display` text. */
  datatype LookupError = LookupError(kind: string, text: string)

  datatype Protocol = Udp | Tcp

  /** One name-server entry of the resolver configuration. */
  datatype NameServer = NameServer(address: string, port: nat, protocol: Protocol)

  /** The resolver configuration and the options set on it. */
  datatype ResolverSetup = ResolverSetup(nameServers: seq<NameServer>, timeout: nat, attempts: nat)

  const DnsPort := 53

  /** The two entries, UDP then TCP on port 53, that a valid server address contributes. */
  function EntriesFor(address: string): seq<NameServer> {
    [NameServer(address, DnsPort, Udp), NameServer(address, DnsPort, Tcp)]
  }

  /**
   * `create_resolver`. `isIp` is the IP-address parser; `timeout` is the configured DNS
   * timeout. The first server that does not parse aborts with a configuration error.
   */
  method CreateResolver(servers: seq<string>, isIp: string -> bool, timeout: nat)
    returns (r: Result<ResolverSetup, AppError>)
    ensures r.Success? <==> forall i :: 0 <= i < |servers| ==> isIp(servers[i])
    ensures r.Success? ==>
      && r.value.timeout == timeout && r.value.attempts == 2
      && |r.value.nameServers| == 2 * |servers|
      && forall i :: 0 <= i < |servers| ==>
           r.value.nameServers[2 * i] == NameServer(servers[i], DnsPort, Udp)
           && r.value.nameServers[2 * i + 1] == NameServer(servers[i], DnsPort, Tcp)
    ensures r.Failure? ==>
      exists k :: (0 <= k < |servers| && !isIp(servers[k])
        && (forall i :: 0 <= i < k ==> isIp(servers[i]))
        && r.error == Config("Invalid DNS server IP address: " + servers[k]))
  {
    var entries: seq<NameServer> := [];
    var i := 0;
    while i < |servers|
      invariant 0 <= i <= |servers|
      invariant forall j :: 0 <= j < i ==> isIp(servers[j])
      invariant |entries| == 2 * i
      invariant forall j :: 0 <= j < i ==>
        entries[2 * j] == NameServer(servers[j], DnsPort, Udp) && entries[2 * j + 1] == NameServer(servers[j], DnsPort, Tcp)
    {
      if !isIp(servers[i]) {
        return Failure(Config("Invalid DNS server IP address: " + servers[i]));
      }
      entries := entries + EntriesFor(servers[i]);
      i := i + 1;
    }
    return Success(ResolverSetup(entries, timeout, 2));
  }

  predicate SaysNoRecords(e: LookupError) { Contains(e.kind, "NoRecordsFound") }

  predicate SaysNxDomain(e: LookupError) {
    Contains(e.kind, "NXDomain") || Contains(e.kind, "Name does not exist")
  }

  predicate SaysTimeout(e: LookupError) { Contains(e.kind, "Timeout") }

  /**
   * `resolve_a_record_fallback`: the first address of the domain, with the lowest possible
   * priority (the implicit MX of section 5.1 of RFC 5321). `lookup` is the address lookup.
   */
  function AddressFallback(domain: string, lookup: Result<seq<string>, LookupError>): (r: Result<MailServer, AppError>)
    ensures r.Success? <==> lookup.Success? && lookup.value != []
    ensures r.Success? ==> r.value == MailServer(lookup.value[0], U16_MAX)
    ensures lookup == Success([]) ==> r == Failure(NoDnsRecords(domain))
    ensures lookup.Failure? ==>
      var e := lookup.error;
      && (SaysNoRecords(e) ==> r == Failure(NoDnsRecords(domain)))
      && (!SaysNoRecords(e) && SaysNxDomain(e) ==> r == Failure(NxDomain(domain)))
      && (!SaysNoRecords(e) && !SaysNxDomain(e) && SaysTimeout(e) ==> r == Failure(DnsTimeout("A record fallback for " + domain)))
      && (!SaysNoRecords(e) && !SaysNxDomain(e) && !SaysTimeout(e) ==> r == Failure(Dns(e.text)))
  {
    match lookup
    case Success(addresses) =>
      if addresses != [] then Success(MailServer(addresses[0], U16_MAX))
      else Failure(NoDnsRecords(domain))
    case Failure(e) =>
      if SaysNoRecords(e) then Failure(NoDnsRecords(domain))
      else if SaysNxDomain(e) then Failure(NxDomain(domain))
      else if SaysTimeout(e) then Failure(DnsTimeout("A record fallback for " + domain))
      else Failure(Dns(e.text))
  }

  function Preference(r: MxRecord): int { r.preference as int }

  /** The record `sort_by_key` puts first: the first of the least preference, in resolver order. */
  function BestRecord(records: seq<MxRecord>): (best: MxRecord)
    requires records != []
    ensures best == records[Sorting.FirstMinIndex(records, Preference)]
  {
    Sorting.SortByHead(records, Preference);
    Sorting.SortBy(records, Preference)[0]
  }

  /** The exchange of the best record without its trailing dots, or the error for an empty one. */
  function FromBestRecord(domain: string, best: MxRecord): (r: Result<MailServer, AppError>)
    ensures var exchange := TrimEndMatches(best.exchange, '.');
      && (exchange == [] ==> r == Failure(NoDnsRecords("Empty exchange in MX record for " + domain)))
      && (exchange != [] ==> r == Success(MailServer(exchange, best.preference)))
  {
    var exchange := TrimEndMatches(best.exchange, '.');
    if exchange == [] then Failure(NoDnsRecords("Empty exchange in MX record for " + domain))
    else Success(MailServer(exchange, best.preference))
  }

  /**
   * `resolve_mail_server`. `mx` is the MX lookup and `a` the address lookup the fallback
   * would make.
   */
  function ResolveMailServer(domain: string, mx: Result<seq<MxRecord>, LookupError>,
                             a: Result<seq<string>, LookupError>): (r: Result<MailServer, AppError>)
    // An empty answer, or a NoRecordsFound error, falls back to the address records.
    ensures mx == Success([]) ==> r == AddressFallback(domain, a)
    ensures mx.Failure? && SaysNoRecords(mx.error) ==> r == AddressFallback(domain, a)
    // Otherwise the MX answer decides: the first record of least preference, trailing dots trimmed.
    ensures mx.Success? && mx.value != [] ==>
      var i := Sorting.FirstMinIndex(mx.value, Preference);
      && (forall j :: 0 <= j < |mx.value| ==> mx.value[i].preference <= mx.value[j].preference)
      && (forall j :: 0 <= j < i ==> mx.value[j].preference > mx.value[i].preference)
      && r == FromBestRecord(domain, mx.value[i])
    ensures mx.Failure? && !SaysNoRecords(mx.error) ==>
      var e := mx.error;
      && (SaysNxDomain(e) ==> r == Failure(NxDomain(domain)))
      && (!SaysNxDomain(e) && SaysTimeout(e) ==> r == Failure(DnsTimeout(domain)))
      && (!SaysNxDomain(e) && !SaysTimeout(e) ==> r == Failure(Dns(e.text)))
  {
    match mx
    case Success(records) =>
      if records == [] then AddressFallback(domain, a)
      else FromBestRecord(domain, BestRecord(records))
    case Failure(e) =>
      if SaysNoRecords(e) then AddressFallback(domain, a)
      else if SaysNxDomain(e) then Failure(NxDomain(domain))
      else if SaysTimeout(e) then Failure(DnsTimeout(domain))
      else Failure(Dns(e.text))
  }

  /** A server chosen from an MX answer is named without trailing dots and is never empty. */
  lemma MxChoiceIsClean(domain: string, records: seq<MxRecord>, a: Result<seq<string>, LookupError>)
    requires records != []
    requires ResolveMailServer(domain, Success(records), a).Success?
    ensures var s := ResolveMailServer(domain, Success(records), a).value;
      s.exchange != [] && s.exchange[|s.exchange| - 1] != '.'
      && s.preference == records[Sorting.FirstMinIndex(records, Preference)].preference
  {
  }

  /** With MX records below `u16::MAX` the chosen server never carries the fallback's preference. */
  lemma FallbackPreference(domain: string, mx: Result<seq<MxRecord>, LookupError>, a: Result<seq<string>, LookupError>)
    requires mx.Success? && mx.value != [] && forall i :: 0 <= i < |mx.value| ==> mx.value[i].preference < U16_MAX
    requires ResolveMailServer(domain, mx, a).Success?
    ensures ResolveMailServer(domain, mx, a).value.preference < U16_MAX
  {
  }
}
