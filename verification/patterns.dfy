/** Candidate addresses built from a contact's names and domain. */
module Patterns {
  import opened Strings

  /** No character of `s` is whitespace. */
  predicate NoWhitespace(s: string) {
    forall i :: 0 <= i < |s| ==> !IsWhitespace(s[i])
  }

  lemma {:induction false} RemoveWhitespaceOfClean(s: string)
    requires NoWhitespace(s)
    ensures RemoveWhitespace(s) == s
    decreases |s|
  {
    if s != [] {
      RemoveWhitespaceOfClean(s[1..]);
    }
  }

  lemma {:induction false} NoWhitespaceAfterRemoval(s: string)
    ensures NoWhitespace(RemoveWhitespace(s))
    decreases |s|
  {
    if s != [] {
      NoWhitespaceAfterRemoval(s[1..]);
    }
  }

  /** `sanitize_name_part`: every whitespace character removed, then lowercased. */
  function SanitizeNamePart(part: string): (r: string)
    ensures r == Lower(RemoveWhitespace(part))
    ensures NoWhitespace(r) && IsLower(r)
  {
    RemoveWhitespaceTrim(part);
    NoWhitespaceAfterRemoval(part);
    LowerIsLower(RemoveWhitespace(part));
    Lower(RemoveWhitespace(Trim(part)))
  }

  /** Sanitising a sanitised name changes nothing. */
  lemma SanitizeIdempotent(part: string)
    ensures SanitizeNamePart(SanitizeNamePart(part)) == SanitizeNamePart(part)
  {
    var r := SanitizeNamePart(part);
    RemoveWhitespaceOfClean(r);
    LowerOfLower(r);
  }

  /** A whitespace character anywhere in a name, inner ones included, does not change its sanitised form. */
  lemma SanitizeIgnoresWhitespace(a: string, c: char, b: string)
    requires IsWhitespace(c)
    ensures SanitizeNamePart(a + [c] + b) == SanitizeNamePart(a + b)
  {
    RemoveWhitespaceAppend(a + [c], b);
    RemoveWhitespaceAppend(a, [c]);
    RemoveWhitespaceAppend(a, b);
    assert RemoveWhitespace([c]) == [];
  }

  /** A name of spaces only sanitises to nothing. */
  lemma SanitizeBlank()
    ensures SanitizeNamePart(" ") == ""
  {
  }

  /**
   * The fifteen shapes `generate_email_patterns` writes. The first nine are written as whole
   * addresses, the last six as bare local parts; the two prefix shapes take the first three
   * characters of a name.
   */
  datatype Shape =
    | First           // john@domain
    | FirstDotLast    // john.doe@domain
    | LastDotFirst    // doe.john@domain
    | InitialDotLast  // j.doe@domain
    | FirstDotInitial // john.d@domain
    | FirstUnderLast  // john_doe@domain
    | FirstDashLast   // john-doe@domain
    | LastUnderFirst  // doe_john@domain
    | LastDashFirst   // doe-john@domain
    | FirstLast       // johndoe
    | LastFirst       // doejohn
    | InitialLast     // jdoe
    | FirstInitial    // johnd
    | PrefixLast      // joh + doe, for a first name of three characters or more
    | FirstPrefix     // john + doe, for a last name of three characters or more

  const Shapes: set<Shape> := {
    First, FirstDotLast, LastDotFirst, InitialDotLast, FirstDotInitial, FirstUnderLast,
    FirstDashLast, LastUnderFirst, LastDashFirst, FirstLast, LastFirst, InitialLast,
    FirstInitial, PrefixLast, FirstPrefix}

  /** The shapes written without "@" + domain. */
  predicate Bare(s: Shape) {
    s.FirstLast? || s.LastFirst? || s.InitialLast? || s.FirstInitial? || s.PrefixLast? || s.FirstPrefix?
  }

  /** A prefix shape is only written when the name it cuts is long enough. */
  predicate Applies(s: Shape, f: string, l: string) {
    (s.PrefixLast? ==> |f| >= 3) && (s.FirstPrefix? ==> |l| >= 3)
  }

  /** The local part of shape `s` for the sanitised names `f` and `l`. */
  function LocalPart(s: Shape, f: string, l: string): string
    requires f != [] && l != [] && Applies(s, f, l)
  {
    match s
    case First => f
    case FirstDotLast => f + "." + l
    case LastDotFirst => l + "." + f
    case InitialDotLast => [f[0]] + "." + l
    case FirstDotInitial => f + "." + [l[0]]
    case FirstUnderLast => f + "_" + l
    case FirstDashLast => f + "-" + l
    case LastUnderFirst => l + "_" + f
    case LastDashFirst => l + "-" + f
    case FirstLast => f + l
    case LastFirst => l + f
    case InitialLast => [f[0]] + l
    case FirstInitial => f + [l[0]]
    case PrefixLast => f[..3] + l
    case FirstPrefix => f + l[..3]
  }

  /** The string inserted into the pattern set for shape `s`. */
  function Raw(s: Shape, f: string, l: string, domain: string): string
    requires f != [] && l != [] && Applies(s, f, l)
  {
    if Bare(s) then LocalPart(s, f, l) else LocalPart(s, f, l) + "@" + domain
  }

  /** The finished address of shape `s`. */
  function Address(s: Shape, f: string, l: string, domain: string): string
    requires f != [] && l != [] && Applies(s, f, l)
  {
    LocalPart(s, f, l) + "@" + domain
  }

  /** The pattern set the program builds for sanitised names `f` and `l`. */
  function RawPatterns(f: string, l: string, domain: string): set<string>
    requires f != [] && l != []
  {
    set s | s in Shapes && Applies(s, f, l) :: Raw(s, f, l, domain)
  }

  /** A pattern without '@' gets "@" + domain appended. */
  function Complete(p: string, domain: string): (e: string)
    ensures '@' in e
    ensures '@' !in p ==> e == p + "@" + domain
    ensures '@' in p ==> e == p
  {
    if '@' in p then p else
      assert (p + "@" + domain)[|p|] == '@';
      p + "@" + domain
  }

  /**
   * `generate_email_patterns`, as the set of addresses it returns; `isEmail` is the
   * configured address regular expression.
   */
  function GenerateEmailPatterns(first: string, last: string, domain: string, isEmail: string -> bool): (r: set<string>)
    ensures first == [] || last == [] || domain == [] || '.' !in domain ==> r == {}
    ensures SanitizeNamePart(first) == [] || SanitizeNamePart(last) == [] ==> r == {}
    ensures forall e :: e in r ==> '@' in e && isEmail(e)
  {
    if first == [] || last == [] || domain == [] || '.' !in domain then {}
    else
      var f := SanitizeNamePart(first);
      var l := SanitizeNamePart(last);
      if f == [] || l == [] then {}
      else set p | p in RawPatterns(f, l, domain) && isEmail(Complete(p, domain)) :: Complete(p, domain)
  }

  /** The inputs for which patterns are produced at all. */
  predicate Generates(first: string, last: string, domain: string) {
    first != [] && last != [] && domain != [] && '.' in domain
    && SanitizeNamePart(first) != [] && SanitizeNamePart(last) != []
  }

  lemma NoAtConcat(a: string, b: string)
    requires '@' !in a && '@' !in b
    ensures '@' !in a + b
  {
  }

  lemma NoAtPrefix(a: string, n: nat)
    requires '@' !in a && n <= |a|
    ensures '@' !in a[..n]
  {
    assert forall i :: 0 <= i < n ==> a[..n][i] == a[i];
  }

  /** The local parts of '@'-free names contain no '@'. */
  lemma LocalPartNoAt(s: Shape, f: string, l: string)
    requires f != [] && l != [] && Applies(s, f, l)
    requires '@' !in f && '@' !in l
    ensures '@' !in LocalPart(s, f, l)
  {
    var fi, li := [f[0]], [l[0]];
    assert '@' !in fi && '@' !in li;
    match s
    case First =>
    case FirstDotLast => NoAtConcat(f + ".", l);
    case LastDotFirst => NoAtConcat(l + ".", f);
    case InitialDotLast => NoAtConcat(fi + ".", l);
    case FirstDotInitial => NoAtConcat(f + ".", li);
    case FirstUnderLast => NoAtConcat(f + "_", l);
    case FirstDashLast => NoAtConcat(f + "-", l);
    case LastUnderFirst => NoAtConcat(l + "_", f);
    case LastDashFirst => NoAtConcat(l + "-", f);
    case FirstLast => NoAtConcat(f, l);
    case LastFirst => NoAtConcat(l, f);
    case InitialLast => NoAtConcat(fi, l);
    case FirstInitial => NoAtConcat(f, li);
    case PrefixLast => NoAtPrefix(f, 3); NoAtConcat(f[..3], l);
    case FirstPrefix => NoAtPrefix(l, 3); NoAtConcat(f, l[..3]);
  }

  /** For '@'-free names, completing the pattern of any shape gives that shape's address. */
  lemma CompleteRaw(s: Shape, f: string, l: string, domain: string)
    requires f != [] && l != [] && Applies(s, f, l)
    requires '@' !in f && '@' !in l
    ensures Complete(Raw(s, f, l, domain), domain) == Address(s, f, l, domain)
  {
    var lp := LocalPart(s, f, l);
    LocalPartNoAt(s, f, l);
    if !Bare(s) {
      assert (lp + "@" + domain)[|lp|] == '@';
    }
  }

  /**
   * For '@'-free names that yield patterns, the result is exactly the set of shape addresses
   * that pass the address test.
   */
  lemma GeneratedAddresses(first: string, last: string, domain: string, isEmail: string -> bool)
    requires Generates(first, last, domain) && '@' !in first && '@' !in last
    ensures var f, l := SanitizeNamePart(first), SanitizeNamePart(last);
      GenerateEmailPatterns(first, last, domain, isEmail) ==
        set s | s in Shapes && Applies(s, f, l) && isEmail(Address(s, f, l, domain)) :: Address(s, f, l, domain)
  {
    var f, l := SanitizeNamePart(first), SanitizeNamePart(last);
    SanitizeNoAt(first);
    SanitizeNoAt(last);
    var r := GenerateEmailPatterns(first, last, domain, isEmail);
    var want := set s | s in Shapes && Applies(s, f, l) && isEmail(Address(s, f, l, domain)) :: Address(s, f, l, domain);
    forall e | e in r ensures e in want {
      var p :| p in RawPatterns(f, l, domain) && isEmail(Complete(p, domain)) && e == Complete(p, domain);
      var s :| s in Shapes && Applies(s, f, l) && p == Raw(s, f, l, domain);
      CompleteRaw(s, f, l, domain);
    }
    forall e | e in want ensures e in r {
      var s :| s in Shapes && Applies(s, f, l) && isEmail(Address(s, f, l, domain)) && e == Address(s, f, l, domain);
      CompleteRaw(s, f, l, domain);
      assert Raw(s, f, l, domain) in RawPatterns(f, l, domain);
    }
  }

  lemma EndsWithAppend(x: string, y: string)
    ensures EndsWith(x + y, y)
  {
    assert (x + y)[|x + y| - |y|..] == y;
  }

  /** Every shape address ends with "@" + domain. */
  lemma ShapeAddressesEndWithDomain(f: string, l: string, domain: string, isEmail: string -> bool)
    requires f != [] && l != []
    ensures var addresses := set s | s in Shapes && Applies(s, f, l) && isEmail(Address(s, f, l, domain)) :: Address(s, f, l, domain);
      forall e :: e in addresses ==> EndsWith(e, "@" + domain)
  {
    forall s | s in Shapes && Applies(s, f, l) ensures EndsWith(Address(s, f, l, domain), "@" + domain) {
      EndsWithAppend(LocalPart(s, f, l), "@" + domain);
    }
  }

  /** For '@'-free names, every address ends with "@" + domain. */
  lemma AddressesEndWithDomain(first: string, last: string, domain: string, isEmail: string -> bool)
    requires '@' !in first && '@' !in last
    ensures forall e :: e in GenerateEmailPatterns(first, last, domain, isEmail) ==> EndsWith(e, "@" + domain)
  {
    if Generates(first, last, domain) {
      GeneratedAddresses(first, last, domain, isEmail);
      ShapeAddressesEndWithDomain(SanitizeNamePart(first), SanitizeNamePart(last), domain, isEmail);
    }
  }

  lemma LowerNoAt(s: string)
    requires '@' !in s
    ensures '@' !in Lower(s)
  {
    LowerKeepsOthers(s, '@');
  }

  lemma {:induction false} RemoveWhitespaceNoAt(s: string)
    requires '@' !in s
    ensures '@' !in RemoveWhitespace(s)
  {
    RemoveWhitespaceChars(s);
  }

  /** Names without '@' sanitise to names without '@'. */
  lemma SanitizeNoAt(part: string)
    requires '@' !in part
    ensures '@' !in SanitizeNamePart(part)
  {
    RemoveWhitespaceNoAt(part);
    LowerNoAt(RemoveWhitespace(part));
  }

  /** A capitalised one-word name sanitises to its lowercase form. */
  lemma SanitizeCapitalised(name: string, lower: string)
    requires NoWhitespace(name) && lower == Lower(name)
    ensures SanitizeNamePart(name) == lower
  {
    RemoveWhitespaceOfClean(name);
  }

  /** A shape's address is produced whenever it passes the address test. */
  lemma ShapeGenerated(first: string, last: string, domain: string, isEmail: string -> bool, s: Shape)
    requires Generates(first, last, domain) && '@' !in first && '@' !in last
    requires Applies(s, SanitizeNamePart(first), SanitizeNamePart(last))
    requires isEmail(Address(s, SanitizeNamePart(first), SanitizeNamePart(last), domain))
    ensures Address(s, SanitizeNamePart(first), SanitizeNamePart(last), domain)
      in GenerateEmailPatterns(first, last, domain, isEmail)
  {
    GeneratedAddresses(first, last, domain, isEmail);
    assert s in Shapes;
  }

  /** "John" and "Doe" sanitise to "john" and "doe". */
  lemma JohnDoeNames(first: string, last: string)
    requires first == "John" && last == "Doe"
    ensures SanitizeNamePart(first) == "john" && SanitizeNamePart(last) == "doe"
  {
    SanitizeCapitalised(first, "john");
    SanitizeCapitalised(last, "doe");
  }

  lemma JohnDoeWholeAddresses(f: string, l: string, domain: string)
    requires f == "john" && l == "doe" && domain == "example.com"
    ensures Address(FirstDotLast, f, l, domain) == "john.doe@example.com"
    ensures Address(First, f, l, domain) == "john@example.com"
    ensures Address(LastDotFirst, f, l, domain) == "doe.john@example.com"
    ensures Address(FirstUnderLast, f, l, domain) == "john_doe@example.com"
  {
    JohnDoeDotted(f, l, domain);
    JohnDoeFirstOnly(f, l, domain);
    JohnDoeReversed(f, l, domain);
    JohnDoeUnderscored(f, l, domain);
  }

  lemma JohnDoeDotted(f: string, l: string, domain: string)
    requires f == "john" && l == "doe" && domain == "example.com"
    ensures Address(FirstDotLast, f, l, domain) == "john.doe@example.com"
  {
    assert f + "." + l + "@" + domain == "john.doe@example.com";
  }

  lemma JohnDoeFirstOnly(f: string, l: string, domain: string)
    requires f == "john" && l == "doe" && domain == "example.com"
    ensures Address(First, f, l, domain) == "john@example.com"
  {
    assert f + "@" + domain == "john@example.com";
  }

  lemma JohnDoeReversed(f: string, l: string, domain: string)
    requires f == "john" && l == "doe" && domain == "example.com"
    ensures Address(LastDotFirst, f, l, domain) == "doe.john@example.com"
  {
    assert l + "." + f + "@" + domain == "doe.john@example.com";
  }

  lemma JohnDoeUnderscored(f: string, l: string, domain: string)
    requires f == "john" && l == "doe" && domain == "example.com"
    ensures Address(FirstUnderLast, f, l, domain) == "john_doe@example.com"
  {
    assert f + "_" + l + "@" + domain == "john_doe@example.com";
  }

  lemma JohnDoeBareAddresses(f: string, l: string, domain: string)
    requires f == "john" && l == "doe" && domain == "example.com"
    ensures Address(InitialLast, f, l, domain) == "jdoe@example.com"
    ensures Address(FirstInitial, f, l, domain) == "johnd@example.com"
  {
    var at := "@" + domain;
    assert at == "@example.com";
    assert [f[0]] == "j" && [l[0]] == "d";
    assert "j" + l + at == "jdoe@example.com";
    assert f + "d" + at == "johnd@example.com";
  }

  /** The addresses of the program's basic example contact. */
  lemma JohnDoeExample(first: string, last: string, domain: string, isEmail: string -> bool)
    requires first == "John" && last == "Doe" && domain == "example.com"
    requires isEmail("john.doe@example.com") && isEmail("jdoe@example.com") && isEmail("john@example.com")
    requires isEmail("doe.john@example.com") && isEmail("johnd@example.com") && isEmail("john_doe@example.com")
    ensures var r := GenerateEmailPatterns(first, last, domain, isEmail);
      && "john.doe@example.com" in r && "jdoe@example.com" in r && "john@example.com" in r
      && "doe.john@example.com" in r && "johnd@example.com" in r && "john_doe@example.com" in r
  {
    assert domain[7] == '.';
    JohnDoeNames(first, last);
    JohnDoeWholeAddresses(SanitizeNamePart(first), SanitizeNamePart(last), domain);
    JohnDoeBareAddresses(SanitizeNamePart(first), SanitizeNamePart(last), domain);
    ShapeGenerated(first, last, domain, isEmail, FirstDotLast);
    ShapeGenerated(first, last, domain, isEmail, InitialLast);
    ShapeGenerated(first, last, domain, isEmail, First);
    ShapeGenerated(first, last, domain, isEmail, LastDotFirst);
    ShapeGenerated(first, last, domain, isEmail, FirstInitial);
    ShapeGenerated(first, last, domain, isEmail, FirstUnderLast);
  }

  /** The three-character prefix of a long name is written, joined to the other name. */
  lemma PrefixPatterns(f: string, l: string, domain: string)
    requires f != [] && l != []
    ensures |f| >= 3 ==> f[..3] + l in RawPatterns(f, l, domain)
    ensures |l| >= 3 ==> f + l[..3] in RawPatterns(f, l, domain)
  {
    if |f| >= 3 {
      assert Raw(PrefixLast, f, l, domain) == f[..3] + l;
    }
    if |l| >= 3 {
      assert Raw(FirstPrefix, f, l, domain) == f + l[..3];
    }
  }

  /**
   * The vector the program returns, for a given iteration order of its pattern set: each
   * pattern completed with the domain, kept when it passes the address test. Distinct
   * patterns can complete to the same address.
   */
  function PatternList(order: seq<string>, domain: string, isEmail: string -> bool): (r: seq<string>)
    ensures forall i :: 0 <= i < |r| ==> isEmail(r[i])
    decreases |order|
  {
    if order == [] then []
    else
      var e := Complete(order[0], domain);
      (if isEmail(e) then [e] else []) + PatternList(order[1..], domain, isEmail)
  }

  /** `order` lists every element of `s` exactly once. */
  predicate Enumerates(order: seq<string>, s: set<string>) {
    && (forall i :: 0 <= i < |order| ==> order[i] in s)
    && (forall p :: p in s ==> p in order)
    && (forall i, j :: 0 <= i < j < |order| ==> order[i] != order[j])
  }

  lemma {:induction false} PatternListHas(order: seq<string>, domain: string, isEmail: string -> bool, i: nat)
    requires i < |order| && isEmail(Complete(order[i], domain))
    ensures Complete(order[i], domain) in PatternList(order, domain, isEmail)
    decreases i
  {
    if i > 0 {
      PatternListHas(order[1..], domain, isEmail, i - 1);
    }
  }

  /** Two positions of the order that complete to the same accepted address put it twice in the vector. */
  lemma {:induction false} PatternListRepeats(order: seq<string>, domain: string, isEmail: string -> bool, i: nat, j: nat, e: string)
    requires i < j < |order|
    requires Complete(order[i], domain) == e && Complete(order[j], domain) == e && isEmail(e)
    ensures multiset(PatternList(order, domain, isEmail))[e] >= 2
    decreases i
  {
    var rest := PatternList(order[1..], domain, isEmail);
    if i > 0 {
      PatternListRepeats(order[1..], domain, isEmail, i - 1, j - 1, e);
      assert multiset(PatternList(order, domain, isEmail))[e] >= multiset(rest)[e];
    } else {
      PatternListHas(order[1..], domain, isEmail, j - 1);
      assert PatternList(order, domain, isEmail) == [e] + rest;
    }
  }

  /**
   * For the contact "Dan An" the pattern set holds both "dan@example.com" (first name at the
   * domain) and the bare "dan" (initial and last name), so whatever the set's iteration order,
   * the returned vector lists "dan@example.com" twice.
   */
  lemma DanAnPatterns(f: string, l: string, domain: string)
    requires f == "dan" && l == "an" && domain == "example.com"
    ensures Raw(First, f, l, domain) == "dan@example.com" && Raw(InitialLast, f, l, domain) == "dan"
    ensures Complete("dan", domain) == "dan@example.com"
  {
    assert [f[0]] + l == "dan";
  }

  lemma DuplicateAddressAsWritten(f: string, l: string, domain: string, order: seq<string>, isEmail: string -> bool)
    requires f == "dan" && l == "an" && domain == "example.com"
    requires Enumerates(order, RawPatterns(f, l, domain))
    requires isEmail("dan@example.com")
    ensures multiset(PatternList(order, domain, isEmail))["dan@example.com"] >= 2
  {
    DanAnPatterns(f, l, domain);
    var whole, bare := Raw(First, f, l, domain), Raw(InitialLast, f, l, domain);
    assert whole in RawPatterns(f, l, domain) && bare in RawPatterns(f, l, domain);
    var i :| 0 <= i < |order| && order[i] == whole;
    var j :| 0 <= j < |order| && order[j] == bare;
    assert |whole| != |bare|;
    if i < j {
      PatternListRepeats(order, domain, isEmail, i, j, whole);
    } else {
      PatternListRepeats(order, domain, isEmail, j, i, whole);
    }
  }
}
