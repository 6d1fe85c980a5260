/** The phone-number service: fills a format template with digits, choosing a
    country-specific template when the country-code lookup yields a phone code
    and a generic one otherwise. faker's random choices are inputs (`Draws`),
    the lookup through the gateway is an `Outcome`, and the clock is an opaque
    timestamp string. */
module PhoneNumberService {
  import opened Base
  import CountryCodeService

  // ----- templates and the '#'-replacement rule -----

  /** Number of '#' placeholders in a template. */
  function HashCount(t: string): nat {
    multiset(t)['#']
  }

  /** Counting placeholders one character at a time. */
  lemma HashCountCons(t: string)
    requires t != []
    ensures HashCount(t) == (if t[0] == '#' then 1 else 0) + HashCount(t[1..])
  {
    assert t == [t[0]] + t[1..];
    assert multiset(t) == multiset([t[0]]) + multiset(t[1..]);
  }

  /** Number of decimal digit characters in a string. */
  function DigitCount(s: string): nat {
    if s == [] then 0 else (if IsDigitChar(s[0]) then 1 else 0) + DigitCount(s[1..])
  }

  lemma {:induction false} DigitCountConcat(a: string, b: string)
    ensures DigitCount(a + b) == DigitCount(a) + DigitCount(b)
  {
    if a != [] {
      assert (a + b)[0] == a[0];
      assert (a + b)[1..] == a[1..] + b;
      DigitCountConcat(a[1..], b);
    } else {
      assert a + b == b;
    }
  }

  /** No digit occurs in a multiset of characters. */
  predicate NoDigitChars(m: multiset<char>) {
    forall c :: IsDigitChar(c) ==> m[c] == 0
  }

  /** A string none of whose characters is a digit has no digits. */
  lemma {:induction false} NoDigitsCount(s: string)
    requires NoDigitChars(multiset(s))
    ensures DigitCount(s) == 0
  {
    if s != [] {
      assert s == [s[0]] + s[1..];
      assert multiset(s) == multiset([s[0]]) + multiset(s[1..]);
      NoDigitsCount(s[1..]);
    }
  }

  /** `template.replace(/\#/g, () => faker.number.int({min: 0, max: 9}))`
      where the random source yields `digits(from)`, `digits(from + 1)`, ...
      to the successive callbacks. */
  function FillFrom(template: string, digits: nat -> Digit, from: nat): (r: string)
    ensures |r| == |template|
  {
    if template == [] then []
    else if template[0] == '#' then [DigitChar(digits(from))] + FillFrom(template[1..], digits, from + 1)
    else [template[0]] + FillFrom(template[1..], digits, from)
  }

  function Fill(template: string, digits: nat -> Digit): string {
    FillFrom(template, digits, 0)
  }

  /** Position by position: a '#' becomes the digit drawn for it (the k-th
      '#' receives the k-th draw), every other character is kept. */
  lemma {:induction false} FillFromAt(template: string, digits: nat -> Digit, from: nat, i: nat)
    requires i < |template|
    ensures template[i] == '#' ==>
      FillFrom(template, digits, from)[i] == DigitChar(digits(from + HashCount(template[..i])))
    ensures template[i] != '#' ==> FillFrom(template, digits, from)[i] == template[i]
  {
    if i > 0 {
      var next := if template[0] == '#' then from + 1 else from;
      FillFromAt(template[1..], digits, next, i - 1);
      assert template[..i][0] == template[0];
      assert template[..i][1..] == template[1..][..i - 1];
      HashCountCons(template[..i]);
    }
  }

  /** The shape every filled template has: same length, no '#' left, every
      '#' turned into one digit 0-9, every other character unchanged, and
      exactly HashCount(template) more digits than the template had. */
  lemma {:induction false} FillShape(template: string, digits: nat -> Digit, from: nat)
    ensures var r := FillFrom(template, digits, from);
      && |r| == |template|
      && HashCount(r) == 0
      && DigitCount(r) == DigitCount(template) + HashCount(template)
      && (forall i :: 0 <= i < |r| && template[i] == '#' ==> IsDigitChar(r[i]))
      && (forall i :: 0 <= i < |r| && template[i] != '#' ==> r[i] == template[i])
  {
    var r := FillFrom(template, digits, from);
    forall i | 0 <= i < |r|
      ensures template[i] == '#' ==> IsDigitChar(r[i])
      ensures template[i] != '#' ==> r[i] == template[i]
    {
      FillFromAt(template, digits, from, i);
    }
    if template != [] {
      var next := if template[0] == '#' then from + 1 else from;
      FillShape(template[1..], digits, next);
      HashCountCons(template);
      HashCountCons(r);
      assert r[1..] == FillFrom(template[1..], digits, next);
    }
  }

  /** Filling leaves a '#'-free prefix of the template as it is. */
  lemma FillKeepsPrefix(prefix: string, rest: string, digits: nat -> Digit)
    requires HashCount(prefix) == 0
    ensures Fill(prefix + rest, digits)[..|prefix|] == prefix
  {
    var t := prefix + rest;
    forall i | 0 <= i < |prefix|
      ensures Fill(t, digits)[i] == prefix[i]
    {
      FillFromAt(t, digits, 0, i);
      if prefix[i] == '#' {
        HashCountOfMember(prefix, i);
      }
    }
  }

  lemma HashCountOfMember(s: string, i: nat)
    requires i < |s| && s[i] == '#'
    ensures HashCount(s) > 0
  {
    assert s[i] in multiset(s);
  }

  /** The index faker.helpers.arrayElement picks from a four-element list. */
  type FormatIndex = i: int | 0 <= i < 4

  /** A run of n placeholders. */
  function Hashes(n: nat): (s: string)
    ensures |s| == n && forall i :: 0 <= i < n ==> s[i] == '#'
  {
    seq(n, _ => '#')
  }

  lemma {:induction false} HashesCount(n: nat)
    ensures multiset(Hashes(n)) == multiset{}['#' := n]
  {
    if n > 0 {
      assert Hashes(n) == Hashes(n - 1) + ['#'];
      HashesCount(n - 1);
    }
  }

  lemma HashesAsWritten()
    ensures Hashes(2) == "##" && Hashes(3) == "###" && Hashes(4) == "####"
    ensures Hashes(10) == "##########"
  {
  }

  /** What the country templates of phone-number-service/index.js:32-35 put
      after `+<phoneCode>`. */
  function CountrySuffix(i: FormatIndex): string {
    if i == 0 then " " + Hashes(2) + " " + Hashes(4) + " " + Hashes(4)
    else if i == 1 then Hashes(10)
    else if i == 2 then " (" + Hashes(2) + ") " + Hashes(3) + "-" + Hashes(4)
    else " " + Hashes(3) + "-" + Hashes(3) + "-" + Hashes(4)
  }

  /** The country template `i` for a phone code whose '+' was already removed. */
  function CountryFormat(phoneCode: string, i: FormatIndex): string {
    "+" + phoneCode + CountrySuffix(i)
  }

  /** The fallback templates of phone-number-service/index.js:55-58: the
      country templates with two placeholders in place of the phone code,
      except the compact one, which has ten placeholders after the '+'. */
  function GenericFormat(i: FormatIndex): string {
    if i == 1 then "+" + Hashes(10) else "+" + Hashes(2) + CountrySuffix(i)
  }

  /** The templates, character for character as the service writes them. */
  const COUNTRY_SUFFIXES: seq<string> := [" ## #### ####", "##########", " (##) ###-####", " ###-###-####"]
  const GENERIC_FORMATS: seq<string> := ["+## ## #### ####", "+##########", "+## (##) ###-####", "+## ###-###-####"]

  lemma CountryTemplateAsWritten(i: FormatIndex)
    ensures CountrySuffix(i) == COUNTRY_SUFFIXES[i]
  {
    HashesAsWritten();
  }

  // One lemma per generic template; the index goes through a parameter for
  // the same reason as in the country suffix lemmas below.

  lemma GenericTemplateAsWritten0(i: FormatIndex)
    requires i == 0
    ensures GenericFormat(i) == GENERIC_FORMATS[i]
  {
    CountryTemplateAsWritten(i);
  }

  lemma GenericTemplateAsWritten1(i: FormatIndex)
    requires i == 1
    ensures GenericFormat(i) == GENERIC_FORMATS[i]
  {
  }

  lemma GenericTemplateAsWritten2(i: FormatIndex)
    requires i == 2
    ensures GenericFormat(i) == GENERIC_FORMATS[i]
  {
    CountryTemplateAsWritten(i);
  }

  lemma GenericTemplateAsWritten3(i: FormatIndex)
    requires i == 3
    ensures GenericFormat(i) == GENERIC_FORMATS[i]
  {
    CountryTemplateAsWritten(i);
  }

  lemma GenericTemplateAsWritten(i: FormatIndex)
    ensures GenericFormat(i) == GENERIC_FORMATS[i]
  {
    if i == 0 {
      GenericTemplateAsWritten0(i);
    } else if i == 1 {
      GenericTemplateAsWritten1(i);
    } else if i == 2 {
      GenericTemplateAsWritten2(i);
    } else {
      GenericTemplateAsWritten3(i);
    }
  }

  /** Placeholders per country template suffix: 10, 10, 9, 10. */
  function CountryDigits(i: FormatIndex): nat {
    if i == 2 then 9 else 10
  }

  /** Placeholders per generic template: 12, 10, 11, 12. */
  function GenericDigits(i: FormatIndex): nat {
    if i == 1 then 10 else if i == 2 then 11 else 12
  }

  // Each country suffix counted, one lemma per template. The template index
  // is a parameter pinned by `requires i == k` rather than a literal, so that
  // the verifier does not unroll the literal template strings when it reads
  // the contract.

  lemma CountrySuffixChars0(i: FormatIndex)
    requires i == 0
    ensures HashCount(CountrySuffix(i)) == CountryDigits(i)
    ensures NoDigitChars(multiset(CountrySuffix(i)))
  {
    HashesCount(2); HashesCount(4);
    var h2, h4 := Hashes(2), Hashes(4);
    assert multiset(" " + h2 + " " + h4 + " " + h4)
        == multiset(" ") + multiset(h2) + multiset(" ") + multiset(h4) + multiset(" ") + multiset(h4);
  }

  lemma CountrySuffixChars1(i: FormatIndex)
    requires i == 1
    ensures HashCount(CountrySuffix(i)) == CountryDigits(i)
    ensures NoDigitChars(multiset(CountrySuffix(i)))
  {
    HashesCount(10);
  }

  lemma CountrySuffixChars2(i: FormatIndex)
    requires i == 2
    ensures HashCount(CountrySuffix(i)) == CountryDigits(i)
    ensures NoDigitChars(multiset(CountrySuffix(i)))
  {
    HashesCount(2); HashesCount(3); HashesCount(4);
    var h2, h3, h4 := Hashes(2), Hashes(3), Hashes(4);
    assert multiset(" (" + h2 + ") " + h3 + "-" + h4)
        == multiset(" (") + multiset(h2) + multiset(") ") + multiset(h3) + multiset("-") + multiset(h4);
  }

  lemma CountrySuffixChars3(i: FormatIndex)
    requires i == 3
    ensures HashCount(CountrySuffix(i)) == CountryDigits(i)
    ensures NoDigitChars(multiset(CountrySuffix(i)))
  {
    HashesCount(3); HashesCount(4);
    var h3, h4 := Hashes(3), Hashes(4);
    assert multiset(" " + h3 + "-" + h3 + "-" + h4)
        == multiset(" ") + multiset(h3) + multiset("-") + multiset(h3) + multiset("-") + multiset(h4);
  }

  /** A country suffix holds 10, 10, 9 or 10 placeholders and no digit. */
  lemma CountryTemplateCounts(i: FormatIndex)
    ensures HashCount(CountrySuffix(i)) == CountryDigits(i)
    ensures NoDigitChars(multiset(CountrySuffix(i)))
  {
    if i == 0 {
      CountrySuffixChars0(i);
    } else if i == 1 {
      CountrySuffixChars1(i);
    } else if i == 2 {
      CountrySuffixChars2(i);
    } else {
      CountrySuffixChars3(i);
    }
  }

  /** A generic template starts with '+', holds 12, 10, 11 or 12
      placeholders and no digit. */
  lemma GenericTemplateCounts(i: FormatIndex)
    ensures HashCount(GenericFormat(i)) == GenericDigits(i)
    ensures NoDigitChars(multiset(GenericFormat(i)))
    ensures GenericFormat(i)[0] == '+'
  {
    if i == 1 {
      HashesCount(10);
      assert multiset(GenericFormat(i)) == multiset("+") + multiset(Hashes(10));
    } else {
      HashesCount(2);
      CountryTemplateCounts(i);
      assert multiset(GenericFormat(i)) == multiset("+") + multiset(Hashes(2)) + multiset(CountrySuffix(i));
    }
  }

  // ----- generateNumber -----

  /** JavaScript's `s.replace('+', '')`: removes the first '+' only,
      wherever it stands. */
  function RemoveFirstPlus(s: string): (r: string)
    ensures '+' !in s ==> r == s
    ensures '+' in s ==> |r| == |s| - 1
  {
    if s == [] then []
    else if s[0] == '+' then s[1..]
    else [s[0]] + RemoveFirstPlus(s[1..])
  }

  /** When the first '+' of `s` stands at k, exactly that character is
      removed, and everything around it is kept in order. */
  lemma {:induction false} RemoveFirstPlusAt(s: string, k: nat)
    requires k < |s| && s[k] == '+'
    requires forall j :: 0 <= j < k ==> s[j] != '+'
    ensures RemoveFirstPlus(s) == s[..k] + s[k + 1..]
  {
    if k > 0 {
      var t := s[1..];
      RemoveFirstPlusAt(t, k - 1);
      assert s[..k] == [s[0]] + t[..k - 1];
      assert s[k + 1..] == t[k..];
    }
  }

  /** What the random source decides in one call: a template index and the
      stream of digits for the placeholders. */
  datatype Draws = Draws(format: FormatIndex, digits: nat -> Digit)

  /** The `data` of a successful response. */
  datatype PhoneData =
    | CountrySpecific(phoneNumber: string, countryCode: string, phoneCode: string)
    | Generic(phoneNumber: string, countryCode: string)
    | Random(phoneNumber: string)
  {
    /** The `type` field of the JSON object. */
    function Type(): string {
      match this
      case CountrySpecific(_, _, _) => "country-specific"
      case Generic(_, _) => "generic"
      case Random(_) => "random"
    }
  }

  /** `response.data.phoneCode` when it is present; reading `.replace` of
      anything else throws. A failed fetch throws before that. */
  function FetchedPhoneCode(lookup: Outcome<CountryCodeService.ValidationResult>): (r: Option<string>)
    ensures r.Some? <==> lookup.Ok? && lookup.value.Valid?
    ensures r.Some? ==> r.value == lookup.value.phoneCode
  {
    match lookup
    case Ok(result) => if result.Valid? then Some(result.phoneCode) else None
    case Err => None
  }

  /** `phoneNumberGenerators.generateNumber(countryCode)`: the try path uses
      the fetched phone code; every throw lands in the generic fallback. */
  function GenerateNumber(countryCode: string, lookup: Outcome<CountryCodeService.ValidationResult>, draws: Draws): (d: PhoneData)
    ensures !d.Random? && d.countryCode == countryCode
    ensures d.CountrySpecific? <==> FetchedPhoneCode(lookup).Some?
    ensures d.CountrySpecific? ==> d.phoneCode == "+" + RemoveFirstPlus(FetchedPhoneCode(lookup).value)
    ensures d.CountrySpecific? ==>
      d.phoneNumber == Fill(CountryFormat(RemoveFirstPlus(FetchedPhoneCode(lookup).value), draws.format), draws.digits)
    ensures d.Generic? ==> d.phoneNumber == Fill(GenericFormat(draws.format), draws.digits)
  {
    match FetchedPhoneCode(lookup)
    case Some(raw) =>
      var phoneCode := RemoveFirstPlus(raw);
      var format := CountryFormat(phoneCode, draws.format);
      CountrySpecific(Fill(format, draws.digits), countryCode, "+" + phoneCode)
    case None =>
      Generic(Fill(GenericFormat(draws.format), draws.digits), countryCode)
  }

  /** A country-specific number starts with its own `phoneCode` (when that
      code holds no '#'), and then has exactly the chosen suffix's count of
      drawn digits: 10, 10, 9 or 10. */
  lemma CountrySpecificShape(countryCode: string, lookup: Outcome<CountryCodeService.ValidationResult>, draws: Draws)
    requires FetchedPhoneCode(lookup).Some?
    requires '#' !in FetchedPhoneCode(lookup).value
    ensures var d := GenerateNumber(countryCode, lookup, draws);
      && d.CountrySpecific? && d.Type() == "country-specific"
      && |d.phoneNumber| == |d.phoneCode| + |CountrySuffix(draws.format)|
      && d.phoneNumber[..|d.phoneCode|] == d.phoneCode
      && DigitCount(d.phoneNumber) == DigitCount(d.phoneCode) + CountryDigits(draws.format)
  {
    var d := GenerateNumber(countryCode, lookup, draws);
    var pc := RemoveFirstPlus(FetchedPhoneCode(lookup).value);
    var suffix := CountrySuffix(draws.format);
    var format := CountryFormat(pc, draws.format);
    assert format == ("+" + pc) + suffix;
    RemoveFirstPlusSubset(FetchedPhoneCode(lookup).value);
    NoHashWhenAbsent(pc);
    DigitCountConcat("+", pc);
    DigitCountConcat("+" + pc, suffix);
    CountryTemplateCounts(draws.format);
    NoDigitsCount(suffix);
    FillKeepsPrefix("+" + pc, suffix, draws.digits);
    FillShape(format, draws.digits, 0);
  }

  lemma {:induction false} NoHashWhenAbsent(s: string)
    requires '#' !in s
    ensures HashCount(s) == 0
  {
    if s != [] {
      assert '#' !in s[1..] by { assert forall c :: c in s[1..] ==> c in s; }
      NoHashWhenAbsent(s[1..]);
    }
  }

  lemma {:induction false} RemoveFirstPlusSubset(s: string)
    ensures forall c :: c in RemoveFirstPlus(s) ==> c in s
  {
    if s != [] && s[0] != '+' {
      RemoveFirstPlusSubset(s[1..]);
    }
  }

  /** A generic number is the chosen generic template filled in: it starts
      with '+' and has exactly 12, 10, 11 or 12 digits. */
  lemma GenericShape(countryCode: string, lookup: Outcome<CountryCodeService.ValidationResult>, draws: Draws)
    requires FetchedPhoneCode(lookup).None?
    ensures var d := GenerateNumber(countryCode, lookup, draws);
      && d.Generic? && d.Type() == "generic"
      && d.phoneNumber == Fill(GenericFormat(draws.format), draws.digits)
      && |d.phoneNumber| == |GenericFormat(draws.format)|
      && d.phoneNumber[0] == '+'
      && DigitCount(d.phoneNumber) == GenericDigits(draws.format)
  {
    var format := GenericFormat(draws.format);
    GenericTemplateCounts(draws.format);
    NoDigitsCount(format);
    FillShape(format, draws.digits, 0);
    FillFromAt(format, draws.digits, 0, 0);
  }

  /** The validator's phone codes come back unchanged: '+N' stays '+N' and
      'Unknown' is kept verbatim behind a '+'. */
  lemma PhoneCodeRoundTrip(t: string)
    requires '+' !in t
    ensures RemoveFirstPlus("+" + t) == t
    ensures RemoveFirstPlus(t) == t
  {
    assert ("+" + t)[1..] == t;
  }

  /** A phone code of the validator's shape ('Unknown', or '+' and no
      further '+') comes back from `"+" + replace('+', '')` as it was, except
      that 'Unknown' gains a '+'. */
  lemma PhoneCodeRestored(raw: string)
    requires raw == CountryCodeService.UNKNOWN || (|raw| >= 2 && raw[0] == '+' && '+' !in raw[1..])
    ensures "+" + RemoveFirstPlus(raw) == if raw == CountryCodeService.UNKNOWN then "+" + raw else raw
  {
    if raw == CountryCodeService.UNKNOWN {
      UnknownHasNoPlus(raw);
      PhoneCodeRoundTrip(raw);
    } else {
      var digits := raw[1..];
      assert raw == "+" + digits;
      PhoneCodeRoundTrip(digits);
      assert "+" + RemoveFirstPlus(raw) == raw;
    }
  }

  lemma UnknownHasNoPlus(u: string)
    requires u == CountryCodeService.UNKNOWN
    ensures '+' !in u
  {
    assert forall i :: 0 <= i < |u| ==> u[i] != '+';
  }

  // ----- the /generate-phone-number route -----

  datatype PhoneBody =
    | Generated(data: PhoneData, timestamp: string)
    | Failure(error: string, message: string)

  datatype PhoneResponse = PhoneResponse(status: int, body: PhoneBody)

  const BAD_FORMAT := PhoneResponse(400, Failure("Invalid country code format", "Country code should contain only letters or numbers"))
  const INTERNAL_ERROR := PhoneResponse(500, Failure("Internal server error", "Failed to generate phone number"))

  predicate IsAsciiAlnum(c: char) {
    'A' <= c <= 'Z' || 'a' <= c <= 'z' || '0' <= c <= '9'
  }

  /** `/^[A-Za-z0-9]+$/.test(s)` */
  predicate MatchesAlnum(s: string)
    ensures MatchesAlnum(s) ==> s != [] && '+' !in s
    ensures MatchesAlnum(s) ==> forall i :: 0 <= i < |s| ==> !CountryCodeService.IsSpace(s[i])
  {
    |s| >= 1 && forall i :: 0 <= i < |s| ==> IsAsciiAlnum(s[i])
  }

  /** A code that passes the format check is its own normal form up to case:
      the validator and the generator are asked about the same country. */
  lemma AlnumCodeIsNormal(s: string)
    requires MatchesAlnum(s)
    ensures CountryCodeService.Normalize(s) == CountryCodeService.Upper(s)
  {
    assert CountryCodeService.LStripPlus(s) == s;
    assert CountryCodeService.StripLeft(s) == s;
    assert CountryCodeService.StripRight(s) == s;
  }

  /** `if (countryCode)`: a present, non-empty query parameter. */
  predicate Requested(countryCode: Option<string>) {
    countryCode.Some? && countryCode.value != ""
  }

  /** The `/generate-phone-number` handler. `randomNumber` is what
      `faker.phone.number('+############')` returns, or Err if it throws;
      `now` is `new Date().toISOString()`. */
  function GeneratePhoneNumber(countryCode: Option<string>, lookup: Outcome<CountryCodeService.ValidationResult>,
                               draws: Draws, randomNumber: Outcome<string>, now: string): (r: PhoneResponse)
    ensures r.status == 200 <==> r.body.Generated?
    ensures r.body.Generated? ==> r.body.timestamp == now
    ensures Requested(countryCode) && !MatchesAlnum(countryCode.value) ==> r == BAD_FORMAT
    ensures Requested(countryCode) && MatchesAlnum(countryCode.value) ==>
      r.status == 200 && r.body.data == GenerateNumber(countryCode.value, lookup, draws)
    ensures !Requested(countryCode) ==>
      if randomNumber.Ok? then r.status == 200 && r.body.data == Random(randomNumber.value)
      else r == INTERNAL_ERROR
  {
    if Requested(countryCode) then
      if !MatchesAlnum(countryCode.value) then BAD_FORMAT
      else PhoneResponse(200, Generated(GenerateNumber(countryCode.value, lookup, draws), now))
    else
      match randomNumber
      case Ok(number) => PhoneResponse(200, Generated(Random(number), now))
      case Err => INTERNAL_ERROR
  }

  /** A malformed code is answered with the same 400 whatever the lookup, the
      random source or the clock would have given: generation never runs. */
  lemma BadFormatIgnoresGeneration(code: string,
                                   lookup1: Outcome<CountryCodeService.ValidationResult>, draws1: Draws, random1: Outcome<string>, now1: string,
                                   lookup2: Outcome<CountryCodeService.ValidationResult>, draws2: Draws, random2: Outcome<string>, now2: string)
    requires code != "" && !MatchesAlnum(code)
    ensures GeneratePhoneNumber(Some(code), lookup1, draws1, random1, now1)
         == GeneratePhoneNumber(Some(code), lookup2, draws2, random2, now2)
         == BAD_FORMAT
  {
  }

  /** Without a country code the lookup and the template draws play no part. */
  lemma RandomIgnoresLookup(countryCode: Option<string>, random: Outcome<string>, now: string,
                            lookup1: Outcome<CountryCodeService.ValidationResult>, draws1: Draws,
                            lookup2: Outcome<CountryCodeService.ValidationResult>, draws2: Draws)
    requires !Requested(countryCode)
    ensures GeneratePhoneNumber(countryCode, lookup1, draws1, random, now)
         == GeneratePhoneNumber(countryCode, lookup2, draws2, random, now)
    ensures var r := GeneratePhoneNumber(countryCode, lookup1, draws1, random, now);
      r.body.Generated? ==> r.body.data.Type() == "random"
  {
  }
}
