/** The country-code service: normalises a country code, resolves it through
    the country database and the calling-code table, filters the cached list of
    countries by continent. pycountry and phonenumbers are abstract oracles
    (`Libraries`); Flask routing is reduced to functions from query parameters
    to (status, body). */
module CountryCodeService {
  import opened Base

  // ----- Python string operations used by the service -----

  /** The characters for which Python's `str.isspace()` holds: those that
      `str.strip()` with no argument removes. */
  predicate IsSpace(c: char) {
    var n := c as int;
    n == 0x20 || 0x09 <= n <= 0x0D || 0x1C <= n <= 0x1F || n == 0x85 || n == 0xA0
    || n == 0x1680 || 0x2000 <= n <= 0x200A || n == 0x2028 || n == 0x2029
    || n == 0x202F || n == 0x205F || n == 0x3000
  }

  /** `s.lstrip('+')`: the longest suffix of `s` left after removing every
      leading '+'. */
  function LStripPlus(s: string): (r: string)
    ensures |r| <= |s| && r == s[|s| - |r|..]
    ensures forall i :: 0 <= i < |s| - |r| ==> s[i] == '+'
    ensures r == [] || r[0] != '+'
  {
    if s != [] && s[0] == '+' then LStripPlus(s[1..]) else s
  }

  /** `s.lstrip()`: what is left after removing the leading whitespace. */
  function StripLeft(s: string): (r: string)
    ensures |r| <= |s| && r == s[|s| - |r|..]
    ensures forall i :: 0 <= i < |s| - |r| ==> IsSpace(s[i])
    ensures r == [] || !IsSpace(r[0])
  {
    if s != [] && IsSpace(s[0]) then StripLeft(s[1..]) else s
  }

  /** `s.rstrip()`: what is left after removing the trailing whitespace. */
  function StripRight(s: string): (r: string)
    ensures |r| <= |s| && r == s[..|r|]
    ensures forall i :: |r| <= i < |s| ==> IsSpace(s[i])
    ensures r == [] || !IsSpace(r[|r| - 1])
  {
    if s != [] && IsSpace(s[|s| - 1]) then StripRight(s[..|s| - 1]) else s
  }

  /** `s.strip()` */
  function Strip(s: string): string {
    StripRight(StripLeft(s))
  }

  function UpperChar(c: char): char {
    if 'a' <= c <= 'z' then (c as int - 32) as char else c
  }

  /** `s.upper()`, restricted to the ASCII letters. */
  function Upper(s: string): (r: string)
    ensures |r| == |s|
    ensures forall i :: 0 <= i < |s| ==> r[i] == UpperChar(s[i])
  {
    if s == [] then [] else [UpperChar(s[0])] + Upper(s[1..])
  }

  /** The normal form `code.lstrip('+').strip().upper()` of
      country-code-service/app.py:60. */
  function Normalize(code: string): (r: string)
    ensures |r| <= |code|
    ensures r != [] ==> !IsSpace(r[0]) && !IsSpace(r[|r| - 1])
    ensures r != [] && r[0] == '+' ==> LStripPlus(code) != [] && IsSpace(LStripPlus(code)[0])
  {
    StrippedEnds(LStripPlus(code));
    Upper(Strip(LStripPlus(code)))
  }

  /** Stripping and upper-casing a string that does not start with '+'
      leaves no whitespace at either end, and a leading '+' only when the
      string started with whitespace. */
  lemma {:induction false} StrippedEnds(p: string)
    requires p == [] || p[0] != '+'
    ensures var r := Upper(Strip(p));
      && |r| <= |p|
      && (r != [] ==> !IsSpace(r[0]) && !IsSpace(r[|r| - 1]))
      && (r != [] && r[0] == '+' ==> p != [] && IsSpace(p[0]))
  {
    var l := StripLeft(p);
    var t := StripRight(l);
    var r := Upper(t);
    if t != [] {
      UpperCharIdempotent(t[0]);
      UpperCharIdempotent(t[|t| - 1]);
      assert r[0] == UpperChar(t[0]) && r[|r| - 1] == UpperChar(t[|t| - 1]);
      assert t[0] == l[0];
      if !IsSpace(p[0]) {
        assert |l| == |p|;
        assert l == p;
      }
    }
  }

  // ----- decimal rendering of the calling code (`f'+{phone_code}'`) -----

  function NatToDecimal(n: nat): (s: string)
    ensures |s| >= 1 && AllDigits(s)
    ensures s[0] == '0' ==> n == 0 && s == "0"
  {
    if n < 10 then [DigitChar(n)] else NatToDecimal(n / 10) + [DigitChar(n % 10)]
  }

  /** Python's `str(n)` for an int. */
  function IntToDecimal(n: int): string {
    if n < 0 then "-" + NatToDecimal(-n) else NatToDecimal(n)
  }

  /** The value of a string of decimal digits: the inverse of NatToDecimal. */
  function DecimalValue(s: string): nat
    requires AllDigits(s)
  {
    if s == [] then 0
    else DecimalValue(s[..|s| - 1]) * 10 + (s[|s| - 1] as int - '0' as int)
  }

  lemma {:induction false} DecimalRoundTrip(n: nat)
    ensures DecimalValue(NatToDecimal(n)) == n
  {
    if n >= 10 {
      var s := NatToDecimal(n);
      assert s[..|s| - 1] == NatToDecimal(n / 10);
      DecimalRoundTrip(n / 10);
    }
  }

  // ----- the continent table of `_get_continent` -----

  const UNKNOWN := "Unknown"

  /** The continent mapping of country-code-service/app.py:43-50, in the
      dictionary's iteration order. */
  const ContinentMapping: seq<(string, seq<string>)> := [
    ("NA", ["US", "CA", "MX"]),
    ("EU", ["GB", "FR", "DE", "IT", "ES", "NL", "BE", "CH"]),
    ("AS", ["CN", "JP", "IN", "KR", "SG", "TH", "MY"]),
    ("AF", ["ZA", "EG", "NG", "KE", "MA"]),
    ("OC", ["AU", "NZ", "FJ", "PG"]),
    ("SA", ["BR", "AR", "CO", "CL", "PE"])
  ]

  /** Every value `_get_continent` can return. */
  const Continents: set<string> := {"NA", "EU", "AS", "AF", "OC", "SA", UNKNOWN}

  /** The first entry at or after `from` whose list holds `code`: the loop with
      early return of country-code-service/app.py:52-55. */
  function FirstContaining(table: seq<(string, seq<string>)>, code: string, from: nat): (r: Option<nat>)
    requires from <= |table|
    ensures r.Some? ==> from <= r.value < |table| && code in table[r.value].1
    ensures r.Some? ==> forall j :: from <= j < r.value ==> code !in table[j].1
    ensures r.None? ==> forall j :: from <= j < |table| ==> code !in table[j].1
    decreases |table| - from
  {
    if from == |table| then None
    else if code in table[from].1 then Some(from)
    else FirstContaining(table, code, from + 1)
  }

  /** `_get_continent(country_code)` */
  function GetContinent(code: string): (r: string)
    ensures r in Continents
    ensures r == UNKNOWN <==> forall i :: 0 <= i < |ContinentMapping| ==> code !in ContinentMapping[i].1
  {
    match FirstContaining(ContinentMapping, code, 0)
    case Some(i) => ContinentMapping[i].0
    case None => UNKNOWN
  }

  /** No code is listed under two continents, so the first match is the only one. */
  lemma ContinentListsDisjoint(i: nat, j: nat, code: string)
    requires i < j < |ContinentMapping|
    requires code in ContinentMapping[i].1
    ensures code !in ContinentMapping[j].1
  {
    var t := ContinentMapping;
    assert |t| == 6;
    assert |code| == 2;
    assert code in t[0].1 || code in t[1].1 || code in t[2].1 || code in t[3].1 || code in t[4].1;
  }

  /** `_get_continent` returns the key of the (unique) list holding the code,
      and 'Unknown' exactly when no list holds it. */
  lemma {:induction false} GetContinentSpec(code: string)
    ensures forall i :: 0 <= i < |ContinentMapping| ==>
      (code in ContinentMapping[i].1 <==> GetContinent(code) == ContinentMapping[i].0)
    ensures GetContinent(code) == UNKNOWN <==>
      forall i :: 0 <= i < |ContinentMapping| ==> code !in ContinentMapping[i].1
    ensures GetContinent(code) in Continents
  {
    var t := ContinentMapping;
    var keys := ["NA", "EU", "AS", "AF", "OC", "SA"];
    assert forall i :: 0 <= i < |t| ==> t[i].0 == keys[i];
    assert forall i, j :: 0 <= i < j < |keys| ==> keys[i] != keys[j];
    match FirstContaining(t, code, 0)
    case Some(k) =>
      forall i | 0 <= i < |t| && code in t[i].1
        ensures i == k
      {
        if k < i { ContinentListsDisjoint(k, i, code); }
      }
    case None =>
  }

  // ----- the libraries, as oracles -----

  /** A record of `pycountry.countries`. */
  datatype Country = Country(name: string, alpha2: string, alpha3: string)

  /** What `pycountry.countries.get(...)` does: return a record, return None,
      or raise. */
  datatype Lookup = Found(country: Country) | NotFound | Raised

  /** The libraries the service calls: the country database in iteration
      order, its two lookups, and `phonenumbers.country_code_for_region`
      (None when it raises). */
  datatype Libraries = Libraries(
    countries: seq<Country>,
    getByAlpha2: string -> Lookup,
    getByAlpha3: string -> Lookup,
    countryCodeForRegion: string -> Option<int>)

  // ----- validate_country_code -----

  /** The body of a validation: `{'isValid': True, ...}` or
      `{'isValid': False, 'error': ...}`. */
  datatype ValidationResult =
    | Valid(countryName: string, alpha2Code: string, alpha3Code: string, phoneCode: string, continent: string)
    | Invalid(error: string)

  const COUNTRY_NOT_FOUND := "Country code not found"
  /** `str(e)` of the AttributeError raised at country-code-service/app.py:91
      when the lookup returned None. */
  const NONE_HAS_NO_NAME := "'NoneType' object has no attribute 'name'"
  const NO_CODE_PROVIDED := "No country code provided"

  /** The alpha-2 lookup, falling back to the alpha-3 lookup only when the
      alpha-2 lookup raises (country-code-service/app.py:63-71). */
  function ResolveCountry(lib: Libraries, code: string): (r: Lookup)
    ensures !lib.getByAlpha2(code).Raised? ==> r == lib.getByAlpha2(code)
    ensures lib.getByAlpha2(code).Raised? ==> r == lib.getByAlpha3(code)
  {
    var first := lib.getByAlpha2(code);
    if first.Raised? then lib.getByAlpha3(code) else first
  }

  /** `f'+{phone_code}'`, or 'Unknown' when the calling-code lookup raises. */
  function PhoneCodeFor(lib: Libraries, alpha2: string): (p: string)
    ensures p == UNKNOWN <==> lib.countryCodeForRegion(alpha2).None?
    ensures p == UNKNOWN || (|p| >= 2 && p[0] == '+' && '+' !in p[1..])
    ensures '#' !in p
  {
    match lib.countryCodeForRegion(alpha2)
    case Some(n) =>
      var digits := IntToDecimal(n);
      assert forall c :: c in NatToDecimal(if n < 0 then -n else n) ==> IsDigitChar(c);
      assert ("+" + digits)[1..] == digits;
      assert ("+" + digits)[0] != UNKNOWN[0];
      "+" + digits
    case None => UNKNOWN
  }

  /** `validate_country_code(code)`: never raises; every failure is an
      `isValid: False` body. */
  function ValidateCountryCode(lib: Libraries, code: string): (r: ValidationResult)
    ensures r.Valid? <==> ResolveCountry(lib, Normalize(code)).Found?
    ensures ResolveCountry(lib, Normalize(code)).NotFound? ==> r == Invalid(NONE_HAS_NO_NAME)
    ensures ResolveCountry(lib, Normalize(code)).Raised? ==> r == Invalid(COUNTRY_NOT_FOUND)
    ensures r.Valid? ==>
      var c := ResolveCountry(lib, Normalize(code)).country;
      && r.countryName == c.name && r.alpha2Code == c.alpha2 && r.alpha3Code == c.alpha3
      && r.phoneCode == PhoneCodeFor(lib, c.alpha2)
      && r.continent == GetContinent(c.alpha2)
  {
    match ResolveCountry(lib, Normalize(code))
    case Raised => Invalid(COUNTRY_NOT_FOUND)
    // `country.alpha_2` on None raises at line 76; the handler at line 87 then
    // raises again on `country.name`, and the outer handler returns str(e).
    case NotFound => Invalid(NONE_HAS_NO_NAME)
    case Found(c) =>
      Valid(c.name, c.alpha2, c.alpha3, PhoneCodeFor(lib, c.alpha2), GetContinent(c.alpha2))
  }

  /** `p` is `'+' + str(n)`: '+', then decimal digits that read back as n,
      with no leading zero unless n is 0. */
  predicate IsDecimalPhoneCode(p: string, n: nat) {
    && |p| >= 2 && p[0] == '+'
    && AllDigits(p[1..]) && DecimalValue(p[1..]) == n
    && (p[1] == '0' ==> p == "+0")
  }

  /** A found country whose calling code is n >= 0 reports the phone code
      '+' followed by the decimal digits of n. */
  lemma ValidPhoneCode(lib: Libraries, code: string, n: nat)
    requires ResolveCountry(lib, Normalize(code)).Found?
    requires lib.countryCodeForRegion(ResolveCountry(lib, Normalize(code)).country.alpha2) == Some(n)
    ensures ValidateCountryCode(lib, code).Valid?
    ensures IsDecimalPhoneCode(ValidateCountryCode(lib, code).phoneCode, n)
  {
    var c := ResolveCountry(lib, Normalize(code)).country;
    assert ValidateCountryCode(lib, code).phoneCode == PhoneCodeFor(lib, c.alpha2);
    PhoneCodeDigits(lib, c.alpha2, n);
  }

  lemma PhoneCodeDigits(lib: Libraries, alpha2: string, n: nat)
    requires lib.countryCodeForRegion(alpha2) == Some(n)
    ensures IsDecimalPhoneCode(PhoneCodeFor(lib, alpha2), n)
  {
    var p := PhoneCodeFor(lib, alpha2);
    var digits := NatToDecimal(n);
    assert p == "+" + digits && p[1..] == digits;
    DecimalRoundTrip(n);
    if digits[0] == '0' {
      assert digits == "0";
    }
  }

  lemma {:induction false} UpperCharIdempotent(c: char)
    ensures UpperChar(UpperChar(c)) == UpperChar(c)
    ensures IsSpace(UpperChar(c)) == IsSpace(c)
    ensures UpperChar(c) == '+' <==> c == '+'
  {
  }

  lemma {:induction false} UpperIdempotent(s: string)
    ensures Upper(Upper(s)) == Upper(s)
  {
    var u := Upper(s);
    forall i | 0 <= i < |s| ensures Upper(u)[i] == u[i] {
      UpperCharIdempotent(s[i]);
    }
  }

  lemma UpperSlices(s: string)
    requires s != []
    ensures Upper(s)[1..] == Upper(s[1..])
    ensures Upper(s)[..|s| - 1] == Upper(s[..|s| - 1])
  {
  }

  /** Upper-casing commutes with removing leading '+' characters. */
  lemma {:induction false} LStripPlusUpper(s: string)
    ensures LStripPlus(Upper(s)) == Upper(LStripPlus(s))
  {
    if s != [] {
      UpperCharIdempotent(s[0]);
      UpperSlices(s);
      LStripPlusUpper(s[1..]);
    }
  }

  /** Upper-casing commutes with removing leading whitespace. */
  lemma {:induction false} StripLeftUpper(s: string)
    ensures StripLeft(Upper(s)) == Upper(StripLeft(s))
  {
    if s != [] {
      UpperCharIdempotent(s[0]);
      UpperSlices(s);
      StripLeftUpper(s[1..]);
    }
  }

  /** Upper-casing commutes with removing trailing whitespace. */
  lemma {:induction false} StripRightUpper(s: string)
    ensures StripRight(Upper(s)) == Upper(StripRight(s))
  {
    if s != [] {
      UpperCharIdempotent(s[|s| - 1]);
      UpperSlices(s);
      StripRightUpper(s[..|s| - 1]);
    }
  }

  /** Normalisation ignores the case of its input. */
  lemma NormalizeUpper(s: string)
    ensures Normalize(Upper(s)) == Normalize(s)
  {
    LStripPlusUpper(s);
    StripLeftUpper(LStripPlus(s));
    StripRightUpper(StripLeft(LStripPlus(s)));
    UpperIdempotent(Strip(LStripPlus(s)));
  }

  /** A non-space character in front of a string is never stripped from the right. */
  lemma {:induction false} StripRightCons(c: char, s: string)
    requires !IsSpace(c)
    ensures StripRight([c] + s) == [c] + StripRight(s)
  {
    if s != [] {
      var cs := [c] + s;
      assert cs[|cs| - 1] == s[|s| - 1];
      if IsSpace(s[|s| - 1]) {
        assert cs[..|cs| - 1] == [c] + s[..|s| - 1];
        StripRightCons(c, s[..|s| - 1]);
      }
    }
  }

  lemma UpperCons(c: char, t: string)
    ensures Upper([c] + t) == [UpperChar(c)] + Upper(t)
  {
    assert ([c] + t)[1..] == t;
  }

  lemma LeadingSpaceThenPlus(s: string)
    ensures StripLeft(LStripPlus(" +" + s)) == "+" + s
  {
    var t := "+" + s;
    var code := [' '] + t;
    assert code == " +" + s;
    assert t != [] && t[0] == '+' && !IsSpace(t[0]);
    assert StripLeft(t) == t;
    assert code[1..] == t;
    assert code != [] && IsSpace(code[0]);
    assert StripLeft(code) == StripLeft(t);
    assert code[0] != '+';
    assert LStripPlus(code) == code;
  }

  /** A '+' that follows leading whitespace survives normalisation, because
      the '+' characters are removed before the whitespace: the code is then
      looked up with its '+' in front. */
  lemma NormalizeKeepsPlusBehindSpace(s: string)
    requires s == [] || (s[0] != '+' && !IsSpace(s[0]))
    ensures Normalize(" +" + s) == "+" + Normalize(s)
  {
    LeadingSpaceThenPlus(s);
    StripRightCons('+', s);
    UpperCons('+', StripRight(s));
    assert LStripPlus(s) == s && StripLeft(s) == s;
  }

  /** Leading '+' characters do not change the outcome of a validation. */
  lemma ValidatePlusInsensitive(lib: Libraries, code: string)
    ensures ValidateCountryCode(lib, "+" + code) == ValidateCountryCode(lib, code)
  {
    PlusNormalizesAway(code);
    SameNormalFormSameValidation(lib, "+" + code, code);
  }

  /** A validation depends on its code only through the normal form. */
  lemma SameNormalFormSameValidation(lib: Libraries, a: string, b: string)
    requires Normalize(a) == Normalize(b)
    ensures ValidateCountryCode(lib, a) == ValidateCountryCode(lib, b)
  {
  }

  lemma PlusNormalizesAway(code: string)
    ensures Normalize("+" + code) == Normalize(code)
  {
    var p := "+" + code;
    assert p[1..] == code;
    assert LStripPlus(p) == LStripPlus(code);
  }

  // ----- the validate-country-code route -----

  datatype RouteResult = RouteResult(status: int, body: ValidationResult)

  /** `validate_code()`: the `code` query parameter ('' when absent) is
      upper-cased; an empty one is rejected before the validator runs. */
  function ValidateCode(lib: Libraries, code: Option<string>): (r: RouteResult)
    ensures (code.None? || code.value == "") ==> r == RouteResult(400, Invalid(NO_CODE_PROVIDED))
    ensures code.Some? && code.value != "" ==>
      r == RouteResult(200, ValidateCountryCode(lib, code.value))
  {
    var upper := Upper(match code case Some(s) => s case None => "");
    if upper == "" then RouteResult(400, Invalid(NO_CODE_PROVIDED))
    else
      NormalizeUpper(code.value);
      RouteResult(200, ValidateCountryCode(lib, upper))
  }

  // ----- _build_country_data -----

  /** One element of the cached country list; `phoneCode` is the JSON key
      `phone_code`. */
  datatype CountryEntry = CountryEntry(name: string, alpha2: string, alpha3: string, phoneCode: string, continent: string)

  /** A country is listed when its calling-code lookup does not raise and
      yields a code greater than 0. */
  predicate Listed(lib: Libraries, c: Country) {
    match lib.countryCodeForRegion(c.alpha2)
    case Some(n) => n > 0
    case None => false
  }

  function EntryOf(lib: Libraries, c: Country): (e: CountryEntry)
    requires Listed(lib, c)
  {
    CountryEntry(c.name, c.alpha2, c.alpha3, "+" + IntToDecimal(lib.countryCodeForRegion(c.alpha2).value), GetContinent(c.alpha2))
  }

  /** What one iteration of the loop of country-code-service/app.py:23-38 appends. */
  function EntriesFor(lib: Libraries, c: Country): seq<CountryEntry> {
    if Listed(lib, c) then [EntryOf(lib, c)] else []
  }

  /** The list `_build_country_data` returns for the countries `cs`. */
  function CountryData(lib: Libraries, cs: seq<Country>): (r: seq<CountryEntry>)
    ensures |r| <= |cs|
  {
    if cs == [] then [] else EntriesFor(lib, cs[0]) + CountryData(lib, cs[1..])
  }

  /** One more country appends its own entries. */
  lemma CountryDataStep(lib: Libraries, cs: seq<Country>, i: nat)
    requires i < |cs|
    ensures CountryData(lib, cs[..i + 1]) == CountryData(lib, cs[..i]) + EntriesFor(lib, cs[i])
  {
    assert CountryData(lib, [cs[i]]) == EntriesFor(lib, cs[i]) + CountryData(lib, []);
    assert cs[..i + 1] == cs[..i] + [cs[i]];
    CountryDataConcat(lib, cs[..i], [cs[i]]);
  }

  /** Building keeps the source order: the entries of earlier countries come
      first. */
  lemma {:induction false} CountryDataConcat(lib: Libraries, a: seq<Country>, b: seq<Country>)
    ensures CountryData(lib, a + b) == CountryData(lib, a) + CountryData(lib, b)
  {
    if a != [] {
      assert (a + b)[0] == a[0];
      assert (a + b)[1..] == a[1..] + b;
      CountryDataConcat(lib, a[1..], b);
      calc {
        CountryData(lib, a + b);
        EntriesFor(lib, a[0]) + CountryData(lib, a[1..] + b);
        EntriesFor(lib, a[0]) + (CountryData(lib, a[1..]) + CountryData(lib, b));
        (EntriesFor(lib, a[0]) + CountryData(lib, a[1..])) + CountryData(lib, b);
      }
    } else {
      assert a + b == b;
    }
  }

  /** An entry is in the list exactly when it is the entry of a listed country. */
  lemma {:induction false} CountryDataMembers(lib: Libraries, cs: seq<Country>, e: CountryEntry)
    ensures e in CountryData(lib, cs) <==> exists c :: c in cs && Listed(lib, c) && e == EntryOf(lib, c)
  {
    if cs != [] {
      CountryDataMembers(lib, cs[1..], e);
      if e in CountryData(lib, cs) && e !in CountryData(lib, cs[1..]) {
        assert cs[0] in cs;
      }
      if exists c :: c in cs && Listed(lib, c) && e == EntryOf(lib, c) {
        var c :| c in cs && Listed(lib, c) && e == EntryOf(lib, c);
        if c != cs[0] {
          assert c in cs[1..];
        }
      }
    }
  }

  /** Every entry carries '+' and the decimal digits of a positive calling
      code, and a continent the table can produce. */
  lemma {:induction false} CountryDataShape(lib: Libraries, cs: seq<Country>)
    ensures forall e :: e in CountryData(lib, cs) ==>
      && |e.phoneCode| >= 2 && e.phoneCode[0] == '+' && e.phoneCode[1] != '0'
      && AllDigits(e.phoneCode[1..])
      && e.continent == GetContinent(e.alpha2) && e.continent in Continents
  {
    forall e | e in CountryData(lib, cs)
      ensures && |e.phoneCode| >= 2 && e.phoneCode[0] == '+' && e.phoneCode[1] != '0'
              && AllDigits(e.phoneCode[1..])
              && e.continent == GetContinent(e.alpha2) && e.continent in Continents
    {
      CountryDataMembers(lib, cs, e);
      var c :| c in cs && Listed(lib, c) && e == EntryOf(lib, c);
      var n := lib.countryCodeForRegion(c.alpha2).value;
      assert e.phoneCode[1..] == NatToDecimal(n);
      GetContinentSpec(c.alpha2);
    }
  }

  // ----- the continent filter of list_country_codes -----

  /** `[c for c in countries if c['continent'] == continent]` */
  function FilterByContinent(cs: seq<CountryEntry>, continent: string): (r: seq<CountryEntry>)
    ensures |r| <= |cs|
    ensures forall i :: 0 <= i < |r| ==> r[i].continent == continent
  {
    if cs == [] then []
    else (if cs[0].continent == continent then [cs[0]] else []) + FilterByContinent(cs[1..], continent)
  }

  /** The filter keeps exactly the entries on the continent. */
  lemma {:induction false} FilterMembers(cs: seq<CountryEntry>, continent: string, e: CountryEntry)
    ensures e in FilterByContinent(cs, continent) <==> e in cs && e.continent == continent
  {
    if cs != [] {
      FilterMembers(cs[1..], continent, e);
      assert e in cs <==> e == cs[0] || e in cs[1..];
    }
  }

  lemma FilterCons(x: CountryEntry, t: seq<CountryEntry>, continent: string)
    ensures FilterByContinent([x] + t, continent)
         == (if x.continent == continent then [x] else []) + FilterByContinent(t, continent)
  {
    assert ([x] + t)[1..] == t;
  }

  /** The filter keeps the relative order of the list. */
  lemma {:induction false} FilterConcat(a: seq<CountryEntry>, b: seq<CountryEntry>, continent: string)
    ensures FilterByContinent(a + b, continent) == FilterByContinent(a, continent) + FilterByContinent(b, continent)
  {
    if a == [] {
      assert a + b == b;
    } else {
      var x, t := a[0], a[1..];
      var head := if x.continent == continent then [x] else [];
      assert a == [x] + t;
      assert a + b == [x] + (t + b);
      FilterCons(x, t + b, continent);
      FilterCons(x, t, continent);
      FilterConcat(t, b, continent);
      assert head + (FilterByContinent(t, continent) + FilterByContinent(b, continent))
          == (head + FilterByContinent(t, continent)) + FilterByContinent(b, continent);
    }
  }

  /** A list none of whose entries is on the continent filters to nothing. */
  lemma {:induction false} FilterNoMatch(cs: seq<CountryEntry>, continent: string)
    requires forall e :: e in cs ==> e.continent != continent
    ensures FilterByContinent(cs, continent) == []
  {
    if cs != [] {
      assert cs[0] in cs;
      FilterNoMatch(cs[1..], continent);
    }
  }

  /** Filtering by 'Unknown' always gives the empty list: the parameter is
      upper-cased to 'UNKNOWN', which no entry carries. */
  lemma FilterUnknownIsEmpty(lib: Libraries, cs: seq<Country>)
    ensures FilterByContinent(CountryData(lib, cs), Upper(UNKNOWN)) == []
  {
    var up := Upper(UNKNOWN);
    assert up == "UNKNOWN" by {
      assert up[0] == 'U' && up[1] == 'N' && up[2] == 'K' && up[3] == 'N';
      assert up[4] == 'O' && up[5] == 'W' && up[6] == 'N';
    }
    assert up !in Continents;
    CountryDataShape(lib, cs);
    FilterNoMatch(CountryData(lib, cs), up);
  }

  /** The body and status of `list_country_codes()` for a given country list. */
  function ListedCountries(data: seq<CountryEntry>, continent: Option<string>): seq<CountryEntry> {
    if continent.Some? && continent.value != "" then FilterByContinent(data, Upper(continent.value))
    else data
  }

  // ----- the Flask error handler and the random route -----

  datatype ErrorBody = ErrorBody(error: string, message: string)

  const UNEXPECTED_ERROR := "An unexpected error occurred"
  const EMPTY_CHOICE := "Cannot choose from an empty sequence"

  /** `handle_error(error)`: 500 with the exception's text and a fixed message. */
  function HandleError(error: string): (r: (int, ErrorBody))
    ensures r.0 == 500 && r.1.error == error && r.1.message == UNEXPECTED_ERROR
  {
    (500, ErrorBody(error, UNEXPECTED_ERROR))
  }

  datatype RandomBody = Picked(entry: CountryEntry) | RandomFailed(failure: ErrorBody)

  // ----- the validator object and its cache -----

  class CountryCodeValidator {
    const lib: Libraries
    /** `self._country_cache`: None until the list is first built. */
    var cache: Option<seq<CountryEntry>>
    /** How many times the list has been built. */
    ghost var builds: nat

    ghost predicate Valid()
      reads this
    {
      && builds <= 1
      && (cache.None? <==> builds == 0)
      && (cache.Some? ==> cache.value == CountryData(lib, lib.countries))
    }

    constructor (lib: Libraries)
      ensures Valid() && this.lib == lib && cache == None && builds == 0
    {
      this.lib := lib;
      cache := None;
      builds := 0;
    }

    /** `_build_country_data()`: one pass over the country database, counted
        in `builds`; the cache is left to the caller. */
    method BuildCountryData() returns (data: seq<CountryEntry>)
      modifies this
      ensures data == CountryData(lib, lib.countries)
      ensures builds == old(builds) + 1 && cache == old(cache)
    {
      builds := builds + 1;
      var countries := lib.countries;
      data := [];
      var i := 0;
      while i < |countries|
        invariant 0 <= i <= |countries|
        invariant builds == old(builds) + 1 && cache == old(cache)
        invariant data == CountryData(lib, countries[..i])
      {
        var country := countries[i];
        ghost var before := data;
        match lib.countryCodeForRegion(country.alpha2) {
          case None =>
          case Some(phoneCode) =>
            if phoneCode > 0 {
              data := data + [CountryEntry(country.name, country.alpha2, country.alpha3,
                                           "+" + IntToDecimal(phoneCode), GetContinent(country.alpha2))];
            }
        }
        assert data == before + EntriesFor(lib, country);
        CountryDataStep(lib, countries, i);
        assert data == CountryData(lib, countries[..i + 1]);
        i := i + 1;
      }
      assert countries[..i] == countries;
    }

    /** `get_country_data()`: builds the list on the first call only and
        returns the cached list afterwards. */
    method GetCountryData() returns (data: seq<CountryEntry>)
      requires Valid()
      modifies this
      ensures Valid()
      ensures data == CountryData(lib, lib.countries) && cache == Some(data)
      ensures old(cache).Some? ==> data == old(cache).value && builds == old(builds)
      ensures old(cache).None? ==> builds == old(builds) + 1
    {
      if cache.None? {
        var built := BuildCountryData();
        cache := Some(built);
      }
      data := cache.value;
    }
  }

  /** `list_country_codes()` */
  method ListCountryCodes(v: CountryCodeValidator, continent: Option<string>) returns (r: seq<CountryEntry>)
    requires v.Valid()
    modifies v
    ensures v.Valid() && v.cache.Some?
    ensures r == ListedCountries(CountryData(v.lib, v.lib.countries), continent)
  {
    var countries := v.GetCountryData();
    if continent.Some? && continent.value != "" {
      countries := FilterByContinent(countries, Upper(continent.value));
    }
    r := countries;
  }

  /** `random_country_code()`: `pick` is the index the random source chose;
      an empty list makes `random.choice` raise, which the error handler turns
      into a 500. */
  method RandomCountryCode(v: CountryCodeValidator, pick: nat) returns (status: int, body: RandomBody)
    requires v.Valid()
    modifies v
    ensures v.Valid() && v.cache.Some?
    ensures var data := CountryData(v.lib, v.lib.countries);
      && (data == [] ==> status == 500 && body == RandomFailed(ErrorBody(EMPTY_CHOICE, UNEXPECTED_ERROR)))
      && (data != [] ==> status == 200 && body == Picked(data[pick % |data|]))
  {
    var countries := v.GetCountryData();
    if countries == [] {
      var failure := HandleError(EMPTY_CHOICE);
      status, body := failure.0, RandomFailed(failure.1);
    } else {
      status, body := 200, Picked(countries[pick % |countries|]);
    }
  }
}
