# email-sleuth, modelled in Dafny

email-sleuth guesses a person's work address from their name and their company's website.
It builds candidate addresses from name patterns and merges them with addresses scraped from
the site. It scores every candidate, probes the promising ones over SMTP at the domain's mail
server, and picks the most likely address.

This project models the decision rules between the network calls, one Dafny module per
source file:

| module | source | what it holds |
|---|---|---|
| `Patterns` | `src/patterns.rs` | name sanitising and the pattern set |
| `Sleuth` | `src/sleuth.rs` | the scraped-address filter, the four-pass candidate merge, scoring, the probe decision, the stable three-key sort and the selection policy of `find_email` |
| `Smtp` | `src/smtp.rs` | the SMTP session over an abstract server, the reply-code verdict, the error classifier and the retry loop |
| `Models` | `src/models.rs` | the records and the three verdict constructors |
| `Processor` | `src/processor.rs` | name derivation, skip reasons and result assembly of `process_record` |
| `Configuration` | `src/config.rs` | the `Config` class with its file and command-line layering and its validation, plus `build_config` |
| `Domain` | `src/domain.rs` | domain extraction and URL normalisation |
| `Dns` | `src/dns.rs` | the mail-server choice, the address-record fallback and the resolver set-up |
| `Errors` | `src/error.rs` | the error type and its rendered text |

`Wrappers`, `Ints`, `Strings` and `Sorting` are helpers. They hold Option/Result, the
integer widths, Rust's string operations (`trim`, `to_lowercase`, `split`,
`split_whitespace`, `contains`) and a stable insertion sort.

Every network or library call becomes an input of the operation that makes it:

- the address regex is `isEmail`;
- `lettre::Address` parsing is `addressError`;
- the socket lookup is `lookup`, and the connection attempt is `connectError`;
- the SMTP server is a function `respond` from the commands sent so far to the reply;
- the DNS lookups are record lists or the error kind's `Debug` text;
- IP parsing is `isIp`;
- the scraper's output is `scrapedRaw`;
- the per-candidate SMTP check is `verify`, and its duration text is `took`;
- the file system is `isFile` and `parse`;
- the random number of the catch-all address is `probe`.

The iteration order of the pattern `HashSet` is the input `patternOrder`. It must list
each generated pattern exactly once.

Imperative code stays imperative:
- `Config` is a class whose methods update its fields, each proved to produce a pure
  function of the old settings.
- The loops of `find_email` (merge, scoring), `create_resolver`, `build_config` and the
  SMTP retry loop are loops with invariants.
- The SMTP session runs on a `Connection` object that records the commands sent.

The pattern set is unweighted. Only the best MX host is tried. The catch-all probe runs
again on every connection, and the search sleeps after each probe.

## Model

| member | source | states |
|---|---|---|
| Patterns.SanitizeNamePart | src/patterns.rs:7-9 | the result is the lower-cased input with every whitespace character removed; it has no whitespace and no upper-case letter |
| Patterns.SanitizeIdempotent | src/patterns.rs:7-9 | sanitising twice gives the same as sanitising once |
| Patterns.SanitizeIgnoresWhitespace | src/patterns.rs:7-9 | a whitespace character anywhere in a name, inner ones included ("Van Der Beek"), does not change the sanitised name |
| Patterns.SanitizeBlank | src/patterns.rs:46-54 | a name of spaces sanitises to the empty string |
| Patterns.SanitizeCapitalised | src/patterns.rs:7-9 | a one-word name sanitises to its lower-case form |
| Patterns.NoWhitespaceAfterRemoval | src/patterns.rs:8 | removing whitespace leaves none |
| Patterns.RemoveWhitespaceOfClean | src/patterns.rs:8 | removing whitespace from a string without any changes nothing |
| Patterns.SanitizeNoAt | src/patterns.rs:7-9 | a name without '@' sanitises to a name without '@' |
| Patterns.Complete | src/patterns.rs:85-91 | a pattern without '@' gets "@" + domain appended, one with '@' is kept; the result always holds '@' |
| Patterns.GenerateEmailPatterns | src/patterns.rs:21-97 | empty first name, last name or domain, or a domain without '.', gives nothing; so does a name that sanitises to nothing; every returned address holds '@' and passes the address test |
| Patterns.GeneratedAddresses | src/patterns.rs:43-93 | for '@'-free names that yield patterns, the result is exactly the set of the fifteen shape addresses (the prefix shapes only for names of three or more characters) that pass the address test |
| Patterns.CompleteRaw | src/patterns.rs:62-91 | completing the inserted pattern of any shape gives that shape's address |
| Patterns.LocalPartNoAt | src/patterns.rs:62-81 | the local part of every shape is free of '@' when the names are |
| Patterns.ShapeAddressesEndWithDomain | src/patterns.rs:62-91 | every shape address ends with "@" + domain |
| Patterns.AddressesEndWithDomain | src/patterns.rs:62-93 | every returned address ends with "@" + domain |
| Patterns.ShapeGenerated | src/patterns.rs:62-93 | the address of every applicable shape that passes the address test is returned |
| Patterns.PrefixPatterns | src/patterns.rs:76-81 | a name of three or more characters contributes its first three characters joined to the other name |
| Patterns.JohnDoeNames | src/patterns.rs:43-44 | "John" and "Doe" sanitise to "john" and "doe" |
| Patterns.JohnDoeWholeAddresses | src/patterns.rs:62-73 | the whole-address shapes for john/doe at example.com are john.doe@, john@, doe.john@ and john_doe@example.com |
| Patterns.JohnDoeDotted | src/patterns.rs:63 | the first.last shape is "john.doe@example.com" |
| Patterns.JohnDoeFirstOnly | src/patterns.rs:62 | the first-name shape is "john@example.com" |
| Patterns.JohnDoeReversed | src/patterns.rs:65 | the last.first shape is "doe.john@example.com" |
| Patterns.JohnDoeUnderscored | src/patterns.rs:71 | the first_last shape is "john_doe@example.com" |
| Patterns.JohnDoeBareAddresses | src/patterns.rs:67-69 | the bare shapes complete to "jdoe@example.com" and "johnd@example.com" |
| Patterns.JohnDoeExample | src/patterns.rs:103-113 | for "John", "Doe", "example.com" the result holds john.doe@, jdoe@, john@, doe.john@, johnd@ and john_doe@example.com |
| Patterns.PatternList | src/patterns.rs:83-93 | the returned vector, for one iteration order of the set: every entry passes the address test |
| Patterns.PatternListHas | src/patterns.rs:83-93 | a pattern whose completion passes the test appears in the vector |
| Patterns.PatternListRepeats | src/patterns.rs:83-93 | two patterns that complete to the same accepted address put it in the vector twice |
| Patterns.DanAnPatterns | src/patterns.rs:62-67 | for "dan"/"an" the set holds both "dan@example.com" and the bare "dan", which completes to the same address |
| Patterns.DuplicateAddressAsWritten | src/patterns.rs:60-93 | for the contact "Dan An" at example.com, whatever the set's order, the vector lists "dan@example.com" at least twice |
| Sleuth.BeforeAddress | src/sleuth.rs:389-390 | the text before the first '@' of local@rest is local |
| Sleuth.GenericPrefixOfAddress | src/sleuth.rs:389-397 | an address is generic exactly when its lower-cased local part is a configured prefix |
| Sleuth.FindAtOfLower | src/sleuth.rs:389-393 | lower-casing keeps the first '@' where it was |
| Sleuth.GenericPrefixIgnoresCase | src/sleuth.rs:389-397 | the generic test does not depend on the address's case |
| Sleuth.FilterScraped | src/sleuth.rs:75-81 | a scraped address is kept exactly when it ends with "@" + domain or is generic; no longer than the input |
| Sleuth.AddPassFacts | src/sleuth.rs:99-124 | one pass keeps the list lower-case, non-empty and duplicate-free, keeps what was listed in front and adds exactly the lower-cased non-empty addresses it is offered |
| Sleuth.MergeFacts | src/sleuth.rs:93-124 | the merged list is clean; the four groups follow each other as name-matching patterns, name-matching scraped, other scraped, other patterns; an address is listed exactly when some input lower-cases to it |
| Sleuth.AddMatching | src/sleuth.rs:99-109 | the loop of one pass computes that pass, and `seen` stays the set of listed addresses |
| Sleuth.MergeCandidates | src/sleuth.rs:93-124 | the four loops compute the merge |
| Sleuth.MergedFrom | src/sleuth.rs:93-124 | an address is a candidate exactly when it is the lower-cased form of a non-empty pattern or scraped address |
| Sleuth.BaseConfidenceRange | src/sleuth.rs:173-198 | every candidate that is scored starts with 1 to 9 points |
| Sleuth.AddBasePoints | src/sleuth.rs:184-198 | the five additions made one after another give the base points |
| Sleuth.Penalised | src/sleuth.rs:205-219 | a generic address loses 5 (with the name, above 1) or 2 (without, above 2), never below 1; others are unchanged |
| Sleuth.Clamp | src/sleuth.rs:286 | the stored score is the score clamped to 0..10 |
| Sleuth.AfterProbe | src/sleuth.rs:256-272 | a confirmed address gains 5 points, an inconclusive one 1, and a rejected one drops to 0; from a positive score, 0 means exactly a rejection |
| Sleuth.ProbedOutcome | src/sleuth.rs:231-300 | after a probe, a rejected address is dropped; otherwise it is stored with the verdict, the message and the log entry with the duration, at the adjusted score clamped to 10 (score + 5 if confirmed, + 1 if inconclusive) |
| Sleuth.UnprobedOutcome | src/sleuth.rs:273-300 | a candidate that is not probed is stored untested with its clamped score and the skip reason |
| Sleuth.Assess | src/sleuth.rs:153-305 | a candidate is skipped exactly when it fails the regex or is off-domain and not scraped-generic; a probe needs a mail server; stored data has a score in 1..10, is never a rejected address, and records its source and genericness; its score is the base points less the generic penalty, adjusted by the verdict when probed, then clamped |
| Sleuth.ProbeRule | src/sleuth.rs:221-222 | a scored candidate is probed exactly when a server is known and it has 3 or more points, or more than 1 when scraped with the name |
| Sleuth.StoredUnlessRejected | src/sleuth.rs:256-305 | an unprobed candidate is always stored; a probed one is dropped exactly when the server says it does not exist |
| Sleuth.AssessCandidate | src/sleuth.rs:153-305 | the loop body, accumulating the score step by step, computes the assessment |
| Sleuth.Conclude | src/sleuth.rs:221-305 | the probe, the adjustment, the clamp and the record for a scored candidate |
| Sleuth.StoredAll | src/sleuth.rs:153-305 | every stored entry is a candidate with a score in 1..10 that the server did not reject |
| Sleuth.Record | src/sleuth.rs:145-283 | the log holds the earlier entries and an entry for each written key; other keys keep their value |
| Sleuth.RecordEntry | src/sleuth.rs:248-283 | with distinct keys, each key's own entry is the one that stays |
| Sleuth.LogAll | src/sleuth.rs:145-283 | the log after the loop keeps every entry it started with |
| Sleuth.LogEntryOfCandidate | src/sleuth.rs:153-284 | the log holds exactly the earlier entries and the scored candidates, each with its own assessment's text |
| Sleuth.AssessAll | src/sleuth.rs:152-317 | the loop yields the stored data, the log, and "smtp_verification" appended once exactly when some candidate was probed |
| Sleuth.RankOrder | src/sleuth.rs:321-326 | the integer sort key orders two entries exactly as the three-key comparator |
| Sleuth.SortFound | src/sleuth.rs:321-326 | the sorted data is a permutation of the stored data, by confidence descending, then non-generic first, then scraped before pattern |
| Sleuth.SortFoundStable | src/sleuth.rs:321-326 | entries that tie on all three keys keep their stored order |
| Sleuth.FirstNonGeneric | src/sleuth.rs:335-338 | the index of the first non-generic entry that reaches the threshold |
| Sleuth.Select | src/sleuth.rs:332-379 | a selection reaches the threshold and, when generic, the generic threshold; with a qualifying non-generic entry the first such one is chosen; otherwise only the top entry can be; no selection means score 0 |
| Sleuth.EarlyMethods | src/sleuth.rs:65-89 | the first two method names never include "smtp_verification" |
| Sleuth.Outcome | src/sleuth.rs:132-386 | the result lists only candidates with scores in 1..10 that were not rejected, sorted; a selection is one of them at its own score above the thresholds; the log keeps the entries before the loop; without a server no probe is recorded |
| Sleuth.Ranked | src/sleuth.rs:319-328 | the sorted stored data are candidates with scores in 1..10, in comparator order |
| Sleuth.NoServerNoProbe | src/sleuth.rs:221-222 | without a mail server no candidate is probed |
| Sleuth.FoundFromInputs | src/sleuth.rs:93-328 | when the iteration order lists the pattern set, every address in the result is the lower-cased form of a generated pattern or a kept scraped address |
| Sleuth.FindEmail | src/sleuth.rs:53-387 | with the pattern set iterated once in some order: a scraping failure is the error; otherwise the result is the outcome of the merged candidates with the early method names and the DNS-failure log entry, and every address found is a generated or kept scraped address, lower-cased |
| Sleuth.ServerAndLog | src/sleuth.rs:133-150 | the server, and the log entry for a failed lookup |
| Sleuth.FinishSearch | src/sleuth.rs:152-386 | the candidate loop, the sort and the selection compute the outcome |
| Models.Conclusive | src/models.rs:132-139 | exists is Some(b), no retry, catch-all as given |
| Models.InconclusiveRetry | src/models.rs:142-149 | exists is None, retry, not catch-all |
| Models.InconclusiveNoRetry | src/models.rs:152-159 | exists is None, no retry, not catch-all |
| Models.ConstructorsCover | src/models.rs:130-160 | the constructors build exactly the results where retry implies no verdict and an inconclusive one is not catch-all, each from exactly one constructor |
| Smtp.SeverityDigit | src/smtp.rs:201-265 | the severity class is the first digit, 2 to 5 |
| Smtp.CodeValue | src/smtp.rs:241 | a reply code's value is in 200..599 |
| Smtp.CodeText | src/smtp.rs:205-258 | a reply code renders as three digits |
| Smtp.CodeValueAndText | src/smtp.rs:241-243 | the value's hundreds digit is the severity; its digits are the rendered text |
| Smtp.CodeValueInjective | src/smtp.rs:243 | distinct codes have distinct values |
| Smtp.Connection.constructor | src/smtp.rs:67-90 | a fresh connection has sent nothing |
| Smtp.Connection.Send | src/smtp.rs:92-177 | a command is appended to the sent commands and yields the server's response to them |
| Smtp.Connection.SendQuit | src/smtp.rs:267-273 | QUIT is appended; its outcome is ignored |
| Smtp.HandleSmtpError | src/smtp.rs:279-342 | only "550" with a nonexistence phrase is conclusive (false); without that, no retry exactly for a permanent error or a refused connection that is not transient; retry otherwise; never catch-all; the nonexistence, transient, permanent and unhandled messages end with the error's text |
| Smtp.ConnectFailure | src/smtp.rs:75-89 | "timed out" or "connection refused" gives the port-blocked no-retry result; anything else is classified |
| Smtp.RcptVerdict | src/smtp.rs:201-265 | true exactly for 2yz without catch-all; false exactly for 5yz, whatever the code or phrase; retry exactly when inconclusive; the message ends with the code and reply text |
| Smtp.PrefixedMessages | src/smtp.rs:246-263 | the two 5yz messages end with the reply and differ in their prefixes |
| Smtp.PolicyIsNotUnknown | src/smtp.rs:246-263 | the policy message does not start with the unknown-user prefix |
| Smtp.RcptStage | src/smtp.rs:130-275 | RCPT TO, then the catch-all probe only after a 2yz reply and only when the probe address parses, the verdict, and QUIT |
| Smtp.Converse | src/smtp.rs:92-275 | EHLO first; an EHLO error is classified with nothing more sent; a MAIL FROM error or refusal ends with QUIT and the classified or refused result; then the RCPT stage |
| Smtp.VerifySmtpEmail | src/smtp.rs:27-276 | a bad recipient is conclusively false with no connection; a bad sender is a configuration error; an unresolved server is no-retry; a failed connection is classified; a session follows the command order above; a verdict is never catch-all |
| Smtp.VerifyWithRetries | src/smtp.rs:354-421 | at most the allowed attempts, none only when none are allowed, with "SMTP check did not run or complete"; the result is the last attempt's; every earlier attempt asked for a retry; a verdict means the last attempt stopped the loop |
| Processor.Derived | src/processor.rs:52-75 | given names are kept; a non-blank full name fills both empty ones, from its first and last words or its only word |
| Processor.DeriveNames | src/processor.rs:52-75 | the branches compute the derived names |
| Processor.MissingLabels | src/processor.rs:77-86 | a label for exactly each empty field, in the order first name, last name, domain |
| Processor.CollectMissing | src/processor.rs:77-86 | the pushes compute the labels |
| Processor.SkippedResult | src/processor.rs:88-148 | a skipped row has the reason, no discovery data, email, confidence or alternatives, and no failure flag |
| Processor.FailedResult | src/processor.rs:210-226 | a failed search sets only the error text and is not skipped |
| Processor.Others | src/processor.rs:181-184 | no longer than the found list; an address is kept exactly when it was found and is not the selected one |
| Processor.OthersOne | src/processor.rs:181-184 | a single found address is kept exactly when it is not the selected one |
| Processor.OthersAppend | src/processor.rs:181-184 | the filter of a concatenation is the concatenation of the filters, so the kept addresses keep the found order |
| Processor.Alternatives | src/processor.rs:181-187 | at most the configured number of other addresses, the leading ones in found order, never the selected one |
| Processor.Assembled | src/processor.rs:170-208 | the email is the selection; a confidence exactly when an email, equal to the score; the failure flag exactly when nothing is selected but something was found; alternatives bounded and without the selection |
| Processor.Validated | src/processor.rs:151-165 | the validated contact carries the names, URL and domain; its full name is the trimmed original or "first last" trimmed |
| Processor.ProcessRecord | src/processor.rs:17-228 | missing fields, a failed domain extraction or a failed URL normalisation give a skipped row with the reason; otherwise the search result is assembled, or its error recorded |
| Processor.AssembleResult | src/processor.rs:170-208 | the row built and then patched computes the assembled row |
| Processor.MissingIsSkipped | src/processor.rs:52-103 | a missing name with a blank full name is reported missing |
| Processor.FullNameSuppliesNames | src/processor.rs:52-86 | a non-blank full name supplies both names, so only the domain can be missing |
| Configuration.DefaultIsValid | src/config.rs:203-298 | the defaults satisfy every validation rule |
| Configuration.RepairSleep | src/config.rs:466-472 | a minimum sleep above the maximum raises the maximum to it |
| Configuration.RepairDns | src/config.rs:474-477 | an empty server list becomes 8.8.8.8, 1.1.1.1 |
| Configuration.RepairThresholds | src/config.rs:479-495 | both thresholds capped at 10, the generic one raised to the base one |
| Configuration.RepairConcurrency | src/config.rs:497-500 | zero concurrency becomes 1 |
| Configuration.Repaired | src/config.rs:465-503 | the result is valid (sleep ordered, a server, base ≤ generic ≤ 10, concurrency ≥ 1); a valid input is unchanged; only the repaired fields change |
| Configuration.RepairIdempotent | src/config.rs:465-503 | validating twice changes nothing more |
| Configuration.Entries | src/config.rs:430-433 | the trimmed, non-empty pieces |
| Configuration.SplitListClean | src/config.rs:428-442 | every entry of a split list is non-empty, comma-free and trimmed |
| Configuration.SplitListJoin | src/config.rs:428-442 | a list of clean entries written with commas reads back as itself |
| Configuration.EntriesClean | src/config.rs:430-433 | entries of comma-free pieces are clean |
| Configuration.EntriesOfClean | src/config.rs:430-433 | clean entries pass unchanged |
| Configuration.TrimTwice | src/config.rs:431 | trimming twice is trimming once |
| Configuration.SplitOnJoin | src/config.rs:428-442 | splitting joined comma-free pieces gives them back |
| Configuration.WithNetwork | src/config.rs:320-333 | an absent table changes nothing; only network fields change |
| Configuration.WithDns | src/config.rs:335-342 | an absent table changes nothing; only DNS fields change |
| Configuration.WithSmtp | src/config.rs:344-354 | an absent table changes nothing; only SMTP fields change |
| Configuration.WithScraping | src/config.rs:356-363 | an absent table changes nothing; only scraping fields change |
| Configuration.WithVerification | src/config.rs:365-378 | an absent table changes nothing; only verification fields change |
| Configuration.WithInputOutput | src/config.rs:380-387 | an absent table changes nothing; only the paths change |
| Configuration.WithFile | src/config.rs:319-388 | a file that sets nothing changes nothing; a missing input/output, dns or verification table keeps its fields; command-line state is untouched |
| Configuration.FileOverridesNetworkDns | src/config.rs:320-342 | each `[network]` and `[dns]` key given in the file replaces its setting; a missing key or table keeps the old value |
| Configuration.FileOverridesSmtpScraping | src/config.rs:344-363 | each `[smtp]` and `[scraping]` key given in the file replaces its setting (the prefixes as a set); a missing key or table keeps the old value |
| Configuration.FileOverridesDefaults | src/config.rs:365-387 | each `[verification]` and `[input_output]` key given in the file replaces its setting; a missing key or table keeps the old value |
| Configuration.WithCli | src/config.rs:391-463 | the paths always come from the arguments; cli_mode iff name and domain; given lists are split, absent ones kept |
| Configuration.CliPaths | src/config.rs:392-398 | only the paths and the stdout flag change |
| Configuration.CliTarget | src/config.rs:395-397 | only the name, domain and mode change |
| Configuration.CliLimits | src/config.rs:400-414 | only concurrency, attempts and sleep bounds change |
| Configuration.CliTimeouts | src/config.rs:416-426 | only the timeouts change |
| Configuration.CliLists | src/config.rs:428-442 | only the server and page lists change |
| Configuration.CliIdentity | src/config.rs:444-450 | only the user agent and sender change |
| Configuration.CliScores | src/config.rs:452-462 | only the thresholds and alternatives change |
| Configuration.CliOverridesFile | src/config.rs:319-463 | each of the fourteen options, when given, wins over the file (the lists after splitting at commas); with no options the file's values stand |
| Configuration.Built | src/config.rs:505-546 | the built settings are valid, with the argument paths and cli_mode, and the given server list or the fallback |
| Configuration.FirstLoadable | src/config.rs:518-536 | the first path that exists and parses, none exactly when none does |
| Configuration.FileChoice | src/config.rs:302-537 | a named missing file loads as empty settings; a named file loads or is ignored; otherwise the first loadable default path |
| Configuration.Config.constructor | src/config.rs:203-298 | the settings are the defaults |
| Configuration.Config.ApplyFileConfig | src/config.rs:319-388 | the field updates compute WithFile |
| Configuration.Config.ApplyNetwork | src/config.rs:320-333 | computes WithNetwork |
| Configuration.Config.ApplyDns | src/config.rs:335-342 | computes WithDns |
| Configuration.Config.ApplySmtp | src/config.rs:344-354 | computes WithSmtp |
| Configuration.Config.ApplyScraping | src/config.rs:356-363 | computes WithScraping |
| Configuration.Config.ApplyVerification | src/config.rs:365-378 | computes WithVerification |
| Configuration.Config.ApplyInputOutput | src/config.rs:380-387 | computes WithInputOutput |
| Configuration.Config.ApplyCliArgs | src/config.rs:391-463 | the field updates compute WithCli |
| Configuration.Config.ApplyCliPaths | src/config.rs:392-398 | computes CliPaths |
| Configuration.Config.ApplyCliTarget | src/config.rs:395-397 | computes CliTarget |
| Configuration.Config.ApplyCliLimits | src/config.rs:400-414 | computes CliLimits |
| Configuration.Config.ApplyCliTimeouts | src/config.rs:416-426 | computes CliTimeouts |
| Configuration.Config.ApplyCliLists | src/config.rs:428-442 | computes CliLists |
| Configuration.Config.ApplyCliIdentity | src/config.rs:444-450 | computes CliIdentity |
| Configuration.Config.ApplyCliScores | src/config.rs:452-462 | computes CliScores |
| Configuration.Config.Validate | src/config.rs:465-503 | always Ok; the settings become Repaired and valid |
| Configuration.Config.FixSleep | src/config.rs:466-472 | computes RepairSleep |
| Configuration.Config.FixDnsServers | src/config.rs:474-477 | computes RepairDns |
| Configuration.Config.FixThresholds | src/config.rs:479-495 | computes RepairThresholds |
| Configuration.Config.FixConcurrency | src/config.rs:497-500 | computes RepairConcurrency |
| Configuration.ChooseFile | src/config.rs:510-537 | the loop over the default paths stops at the first loadable one and yields FileChoice |
| Configuration.BuildConfig | src/config.rs:505-546 | always Ok, a fresh Config holding Built of the arguments and the chosen file |
| Domain.WithScheme | src/domain.rs:24-29 | the result starts with "http://" or "https://"; an input that does is unchanged, any other input follows "https://" |
| Domain.ParseUrl | src/domain.rs:31-39 | a parsed URL has a non-empty, lower-case host without separators |
| Domain.PortNumber | src/domain.rs:31-39 | the port text fails exactly when non-empty and not a number ≤ 65535 |
| Domain.ParseAuthority | src/domain.rs:31-50 | a parsed authority has a non-empty lower-case plain host |
| Domain.StripWww | src/domain.rs:52 | exactly one leading "www." is removed |
| Domain.DomainOf | src/domain.rs:31-61 | the domain is lower-case and plain; a parse failure is a URL error |
| Domain.GetDomainFromUrl | src/domain.rs:15-62 | empty input is exactly the "Input URL string is empty" error; a domain is lower-case and plain; other failures are URL errors |
| Domain.NormalizeUrl | src/domain.rs:65-78 | empty input is exactly the InsufficientInput error; other failures are URL errors; a URL has a non-empty lower-case host |
| Domain.DomainOfNormalizedUrl | src/domain.rs:15-78 | a domain exists exactly when the URL parses, and it is the URL's host without "www." |
| Domain.MissingSchemeIsHttps | src/domain.rs:24-29 | a missing scheme is the same as "https://" |
| Domain.ParseSplit | src/domain.rs:31-39 | the parser splits scheme, authority and rest |
| Domain.DomainOfAuthority | src/domain.rs:41-61 | the domain of an authority is its host without "www.", lower-cased |
| Domain.PortAndPathDropped | src/domain.rs:103-110 | user, port and path do not change the domain |
| Domain.DomainOfBareHost | src/domain.rs:41-61 | a bare lower-case host names itself without "www." |
| Domain.SubdomainsKept | src/domain.rs:111-114 | a lower-case host without "www." comes back whole |
| Domain.WwwStripped | src/domain.rs:86-89 | "https://www.h" gives "h" |
| Domain.WwwWithoutScheme | src/domain.rs:99-102 | "www.h" is read as "https://www.h" |
| Domain.NoHostIsError | src/domain.rs:117-121 | "http://" gives an error from both functions |
| Dns.CreateResolver | src/dns.rs:21-66 | succeeds exactly when every server parses, with a UDP and a TCP entry on port 53 per server in order; otherwise the first bad one is the Config error |
| Dns.AddressFallback | src/dns.rs:158-214 | the first address with preference u16::MAX; no address is NoDnsRecords; errors by kind |
| Dns.BestRecord | src/dns.rs:95-97 | the head after the stable sort is the first record of least preference |
| Dns.FromBestRecord | src/dns.rs:97-123 | trailing dots trimmed; empty is NoDnsRecords |
| Dns.ResolveMailServer | src/dns.rs:78-155 | an empty answer or NoRecordsFound falls back; otherwise the first least-preference record; NXDomain, Timeout and other errors map in that order |
| Dns.MxChoiceIsClean | src/dns.rs:98-113 | an MX choice is non-empty and has no trailing dot |
| Dns.FallbackPreference | src/dns.rs:95-123 | with MX preferences below u16::MAX the choice never has the fallback's preference |
| Errors.ErrorTextShape | src/error.rs:8-98 | every rendering starts with its category text; all but the SMTP command error append the message; that one ends quoting it |
| Sorting.SortBySorted | src/sleuth.rs:321-326 | the sort orders by key |
| Sorting.SortByPermutes | src/sleuth.rs:321-326 | the sort is a permutation |
| Sorting.SortByStable | src/sleuth.rs:321-326 | equal keys keep their order |
| Sorting.SortByHead | src/dns.rs:95-97 | the head is the first element of least key |
| Sorting.FirstMinIndex | src/dns.rs:95-97 | the first index of the least key |
| Strings.SplitJoin | src/config.rs:428-433 | splitting and joining with the same character gives the string back |
| Strings.SplitWhitespaceWords | src/processor.rs:53 | the words of a full name are non-empty and without whitespace |
| Strings.SplitWhitespaceOfTrimmed | src/processor.rs:52-53 | a non-blank string has a word |
| Strings.TrimShape | src/processor.rs:31-44 | a trimmed string starts and ends with non-whitespace |
| Strings.RemoveWhitespaceTrim | src/patterns.rs:8 | removing all whitespace makes the trim redundant |
| Strings.LowerIsLower | src/domain.rs:54 | lower-casing leaves no upper-case letter |
| Strings.TrimEndMatches | src/dns.rs:98-102 | every trailing dot removed, nothing else |

## Left out

- main.rs, api.rs and scraper.rs: I/O, the HTTP server, HTML scraping and the concurrent batch driver. The scraper's output is the input `scrapedRaw`.
- `EmailSleuth::new` (sleuth.rs:24-50) and `test_smtp_connectivity` (smtp.rs:423-458): they only build network clients or test connectivity.
- `get_random_sleep_duration` (config.rs:560-568), the sleep after each probe (sleuth.rs:307-316), the sleep between retries (smtp.rs:408-412), and all timing: randomness and time. The duration text of a check is the input `took`.
- `tracing` calls: logging only.
- The random catch-all local part: the number is the input `probe`, in the range the code draws from.
- The `CONFIG` fallback to defaults when `build_config` fails (config.rs:552-558): `BuildConfig` always succeeds, because validation never fails.
- The address regex, `Url::parse`, `lettre::Address` parsing, IP parsing, the DNS and SMTP libraries: inputs, as listed above.
- TOML parsing and file reading: `parse` and `isFile`.
- The compiled address regex field of `Config`: only its test is used, as `isEmail`.
- Configuration.ConfigValues: the sleep bounds are reals, so f32 rounding and NaN are not modelled; timeouts are whole seconds.
- Configuration.ChooseFile: returns the chosen file, and `BuildConfig` applies it after the loop, rather than applying it inside the loop. The settings built are the same.
- Strings.Lower: lower-cases ASCII letters only, not the full Unicode mapping of `to_lowercase`.
- Patterns.LocalPart: the three-character prefixes are taken by characters, matching the byte slices only for ASCII names; a name whose first three bytes split a character, which panics, is not modelled.
- Domain.ParseUrl: a simplified parser for http(s) input. It covers user information, host, port and path, but not IDNA, percent-encoding, IP literals or the full WHATWG host rules, and fails only for an empty host or a bad port. It reads the authority right after "://", so extra slashes ("http:///example.com") give an empty host where `Url::parse` skips them.
- Dns.CreateResolver: the resolver's other options (IP strategy) are not modelled.
- Sleuth.FindEmail: the order in which the pattern set is iterated is the input `patternOrder`, required to list each generated pattern once. The merge is proved for any order.
- Smtp.VerifySmtpEmail: the outcome of QUIT is ignored, as the code does. The server's replies are a function of the commands sent.

## Findings

| source | as written | input that shows it | evidently intended | confidence | as-written member | corrected member |
|---|---|---|---|---|---|---|
| src/patterns.rs:60-93 | the set removes duplicate patterns before "@" + domain is appended, so a bare local part and a whole address that complete to the same string both survive, and the returned vector lists that address twice | first "Dan", last "An", domain "example.com": `first@domain` gives "dan@example.com" and `first_initial + last` gives "dan", which completes to "dan@example.com" | each address returned once ("Duplicate patterns should be removed", test at src/patterns.rs:133-143) | not executed | Patterns.DuplicateAddressAsWritten | Patterns.GenerateEmailPatterns |

The corrected `Patterns.GenerateEmailPatterns` returns the set of completed addresses, so
each address appears once. `Patterns.GeneratedAddresses` proves that set is exactly the
accepted shape addresses, and the search uses it. In the program the duplicate is harmless
downstream, because `find_email` de-duplicates its candidates (src/sleuth.rs:99-103).
