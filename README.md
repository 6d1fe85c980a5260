# Phone-number generation services, modelled in Dafny

The system is four small HTTP services:

- a **country-code service** (Flask) that normalises a country code, looks it
  up in pycountry and phonenumbers, and lists the known countries from a lazily
  built cache;
- a **phone-number service** (Express) that fills a phone-number template
  with random digits, using the validator's calling code when the lookup
  succeeds and a generic template otherwise;
- an **API gateway** (Express) whose composite endpoint validates a code and
  only then asks for a number, plus a global error handler;
- an **auth service** (Gin) with a login handler over a Mongo user store and
  bcrypt, and a token-verification handler.

The model has one module per service, plus `Base` for shared vocabulary:

- `CountryCode.dfy` (`CountryCodeService`)
- `PhoneNumber.dfy` (`PhoneNumberService`)
- `Gateway.dfy` (`ApiGateway`)
- `Auth.dfy` (`AuthService`)
- `Base.dfy` (`Base`)

Libraries and effects are handled as follows:

- **Libraries as oracles.** Every library the services call is an oracle held
  in a datatype field:
  - pycountry's country list and its two `get` lookups;
  - `phonenumbers.country_code_for_region`;
  - the Mongo `FindOne`;
  - bcrypt's comparison.
- **Awaited HTTP calls** are `Outcome`s: `Ok(body)`, or `Err` when the call
  throws. `Base.FromStatus` states axios's rule that every status outside
  [200, 300) throws.
- **faker's random choices** are inputs: a template index and a digit stream.
- **Clocks** are opaque timestamp strings.
- **State the source updates in place** becomes class fields:
  - the validator's `_country_cache`;
  - the auth package's `collection` and `jwtSecret`.
- **Upstream calls made** are recorded as traces:
  - the gateway records its calls to the two services, in order;
  - the login records its lookup and comparison steps.

## Model

| member | source | states |
|---|---|---|
| Base.FromStatus | api-gateway/index.js:78-88 | an awaited axios call resolves with the body exactly when the status is in [200, 300), and throws otherwise |
| Base.DigitChar | phone-number-service/index.js:42 | a drawn digit 0–9 becomes one decimal character whose value is that digit |
| CountryCodeService.LStripPlus | country-code-service/app.py:60 | `lstrip('+')` removes exactly the leading run of '+': the result is a suffix, everything removed was '+', and the result does not start with '+' |
| CountryCodeService.StripLeft | country-code-service/app.py:60 | the left half of `strip()`: a suffix with only whitespace removed and no whitespace at its start |
| CountryCodeService.StripRight | country-code-service/app.py:60 | the right half of `strip()`: a prefix with only whitespace removed and no whitespace at its end |
| CountryCodeService.Upper | country-code-service/app.py:60 | `upper()` keeps the length and maps every character on its own |
| CountryCodeService.NatToDecimal | country-code-service/app.py:83 | `str(n)` is a non-empty run of digits with no leading zero except for "0" itself |
| CountryCodeService.DecimalRoundTrip | country-code-service/app.py:83 | the digits written into a phone code read back as the calling code |
| CountryCodeService.FirstContaining | country-code-service/app.py:52-55 | the continent loop returns the first key whose list holds the code; no earlier list holds it; None only when no list does |
| CountryCodeService.ContinentListsDisjoint | country-code-service/app.py:43-50 | no code is listed under two continents |
| CountryCodeService.GetContinent | country-code-service/app.py:41-55 | `_get_continent` always returns one of the seven values, and returns 'Unknown' if and only if no continent's list holds the code |
| CountryCodeService.GetContinentSpec | country-code-service/app.py:41-55 | `_get_continent` returns a continent's key if and only if that continent's list holds the code, 'Unknown' if and only if no list does, and always one of the seven values |
| CountryCodeService.ResolveCountry | country-code-service/app.py:63-71 | the alpha-2 lookup's answer is used unless it raises; only then is the alpha-3 lookup consulted |
| CountryCodeService.ValidateCountryCode | country-code-service/app.py:57-99 | never raises. The result is valid if and only if the normalised code resolves to a country. A valid result carries that country's name, codes, phone code and continent. A lookup returning None gives the AttributeError text, and a lookup that raises gives 'Country code not found' |
| CountryCodeService.PhoneCodeFor | country-code-service/app.py:76-96 | the phone code is 'Unknown' exactly when the calling-code lookup raises. Otherwise it is '+' followed by at least one character and no further '+'. It never holds a '#'. The digits themselves are stated by `ValidPhoneCode` |
| CountryCodeService.ValidPhoneCode | country-code-service/app.py:76-85 | a found country whose calling code is n is valid and reports exactly `'+' + str(n)`: '+', then decimal digits that read back as n, with no leading zero unless n is 0 |
| CountryCodeService.UpperIdempotent | country-code-service/app.py:120 | upper-casing twice is upper-casing once |
| CountryCodeService.NormalizeUpper | country-code-service/app.py:120 | the route's extra `upper()` before validation does not change the normal form |
| CountryCodeService.NormalizeKeepsPlusBehindSpace | country-code-service/app.py:60 | a '+' behind leading whitespace survives: for any s that does not start with '+' or whitespace, `" +" + s` normalises to '+' followed by the normal form of s |
| CountryCodeService.Normalize | country-code-service/app.py:60 | a normal form is no longer than the code, has no whitespace at either end, and starts with '+' only when whitespace followed the leading '+' characters |
| CountryCodeService.ValidatePlusInsensitive | country-code-service/app.py:59-60 | a leading '+' does not change a validation |
| CountryCodeService.ValidateCode | country-code-service/app.py:118-125 | an absent or empty `code` gives 400 'No country code provided' and the validator does not run; any other code gives 200 with the validation of that code |
| CountryCodeService.CountryData | country-code-service/app.py:21-39 | the built list has at most one entry per country of the database; which entries, in which order and of which shape is stated by `CountryDataMembers`, `CountryDataConcat` and `CountryDataShape` |
| CountryCodeService.CountryDataConcat | country-code-service/app.py:21-39 | the built list keeps the database's order: building a + b gives the list for a followed by the list for b |
| CountryCodeService.CountryDataMembers | country-code-service/app.py:21-39 | an entry is in the list if and only if it is the entry of a country whose calling-code lookup does not raise and yields a code greater than 0 |
| CountryCodeService.CountryDataShape | country-code-service/app.py:29-35 | every entry's phone code is '+' followed by a positive decimal, and its continent is one of the seven values |
| CountryCodeService.FilterByContinent | country-code-service/app.py:134 | the filter never lengthens the list, and every entry it keeps is on the continent |
| CountryCodeService.FilterMembers | country-code-service/app.py:134 | an entry is kept if and only if it is in the list and on the continent |
| CountryCodeService.FilterConcat | country-code-service/app.py:134 | the filter keeps the list's order (it distributes over concatenation) |
| CountryCodeService.FilterUnknownIsEmpty | country-code-service/app.py:132-134 | a `continent=Unknown` filter is upper-cased to 'UNKNOWN', which no entry carries, so the result is always empty |
| CountryCodeService.HandleError | country-code-service/app.py:146-152 | an escaping exception becomes 500 with its text and the fixed message |
| CountryCodeService.CountryCodeValidator.constructor | country-code-service/app.py:13-14 | a fresh validator has an empty cache and has built nothing |
| CountryCodeService.CountryCodeValidator.BuildCountryData | country-code-service/app.py:21-39 | the loop returns exactly the specified list for the whole database. Each build counts itself once in `builds` and leaves the cache alone |
| CountryCodeService.CountryCodeValidator.GetCountryData | country-code-service/app.py:16-19 | a call builds only when the cache is empty, and then stores the built list. A call with a filled cache returns the cached list without building. Both keep `Valid`, so the list is built at most once |
| CountryCodeService.ListCountryCodes | country-code-service/app.py:127-136 | the route returns the cached list, filtered by the upper-cased continent when one is given |
| CountryCodeService.RandomCountryCode | country-code-service/app.py:138-143 | a non-empty list gives 200 with the chosen entry; an empty one gives the error handler's 500 for `random.choice` |
| PhoneNumberService.FillFrom | phone-number-service/index.js:42 | filling a template keeps its length |
| PhoneNumberService.FillFromAt | phone-number-service/index.js:42 | every '#' becomes the digit drawn for it, in left-to-right order, and every other character is left as it is |
| PhoneNumberService.FillShape | phone-number-service/index.js:62 | a filled template has no '#' left. Each '#' position holds a digit and every other position is unchanged, so the digits added equal the template's '#' count |
| PhoneNumberService.FillKeepsPrefix | phone-number-service/index.js:32-35 | a '#'-free prefix such as '+' and the phone code comes through filling unchanged |
| PhoneNumberService.CountryTemplateAsWritten | phone-number-service/index.js:31-36 | the country template suffixes are, character for character, the four the service writes |
| PhoneNumberService.GenericTemplateAsWritten | phone-number-service/index.js:54-59 | the generic templates are, character for character, the four the service writes |
| PhoneNumberService.CountryTemplateCounts | phone-number-service/index.js:32-35 | the country suffixes hold 10, 10, 9 and 10 placeholders and no digit |
| PhoneNumberService.GenericTemplateCounts | phone-number-service/index.js:54-58 | the generic templates start with '+', hold 12, 10, 11 and 12 placeholders, and hold no digit |
| PhoneNumberService.RemoveFirstPlus | phone-number-service/index.js:28 | `replace('+', '')` leaves a string without '+' alone and otherwise removes exactly one character |
| PhoneNumberService.RemoveFirstPlusAt | phone-number-service/index.js:28 | the character removed is the first '+', wherever it stands, and the characters before and after it are kept in order |
| PhoneNumberService.PhoneCodeRoundTrip | phone-number-service/index.js:28 | '+N' loses its '+' and a '+'-free code passes through verbatim |
| PhoneNumberService.PhoneCodeRestored | phone-number-service/index.js:48 | for a validator-shaped code, the returned `phoneCode` is the validator's own '+N', and 'Unknown' becomes '+Unknown' |
| PhoneNumberService.FetchedPhoneCode | phone-number-service/index.js:28 | a phone code is read if and only if the lookup resolved with a valid result, and it is that result's phone code; a failed fetch or an `isValid: False` payload throws |
| PhoneNumberService.GenerateNumber | phone-number-service/index.js:19-69 | never random, and keeps the caller's country code. Country-specific if and only if the lookup yields a phone code. The `phoneCode` is then '+' and that code with its first '+' removed, and the number is the chosen country template filled with the draws. Otherwise the number is the chosen generic template filled with the draws |
| PhoneNumberService.CountrySpecificShape | phone-number-service/index.js:28-49 | for a fetched phone code that holds no '#' (every code the validator reports, by `ApiGateway.FetchedPhoneCodeShape`), a country-specific number starts with its `phoneCode`, is that long plus the suffix's length, and adds exactly 10, 10, 9 or 10 digits |
| PhoneNumberService.GenericShape | phone-number-service/index.js:50-68 | a failed lookup, or a payload without a phone code, gives a generic number with `type` 'generic'. It is the chosen generic template filled in, as long as that template, starting with '+', with 12, 10, 11 or 12 digits |
| PhoneNumberService.MatchesAlnum | phone-number-service/index.js:86 | a code that passes the format check is non-empty and holds neither '+' nor whitespace |
| PhoneNumberService.AlnumCodeIsNormal | phone-number-service/index.js:86 | a code that passes the format check normalises, in the validator, to its own upper case, so both services are asked about the same country |
| PhoneNumberService.GeneratePhoneNumber | phone-number-service/index.js:79-117 | a malformed non-empty code gives the fixed 400. A well-formed code gives 200 with `generateNumber`'s result. No code gives 200 with a random number, or the fixed 500 when faker throws. Every 200 carries the timestamp |
| PhoneNumberService.BadFormatIgnoresGeneration | phone-number-service/index.js:84-91 | a malformed code gets the same 400 whatever the lookup, the draws, the random source or the clock: generation never runs |
| PhoneNumberService.RandomIgnoresLookup | phone-number-service/index.js:102-109 | without a code, the lookup and the template draws play no part, and the `type` is 'random' |
| ApiGateway.GenerateValidatedPhoneNumber | api-gateway/index.js:73-112 | the calls are exactly the validator then the generator, both with the same code, when the validation resolved with `isValid` true, and the validator alone otherwise. The answer is 200 if and only if both calls resolved, and it then copies both payloads and the timestamp. An invalid code gives the fixed 400. Every thrown call gives the fixed 500 |
| ApiGateway.RejectionIgnoresGeneration | api-gateway/index.js:84-100 | a rejected or failed validation is answered the same whatever generation and the clock would give, and never with 200 |
| ApiGateway.GlobalErrorHandler | api-gateway/index.js:117-127 | an unhandled error becomes 500 with the fixed error 'Unexpected error occurred' and the error's own message |
| ApiGateway.GlobalErrorIsDistinct | api-gateway/index.js:123-126 | the global handler's answer differs from every answer of the composite endpoint |
| ApiGateway.ValidatorOutcome | api-gateway/index.js:78-81 | the validator's call resolves if and only if a non-empty code was sent, and then yields the validation of that code |
| ApiGateway.GeneratorOutcome | api-gateway/index.js:85-88 | the generator's call resolves if and only if the code is well formed, or is absent or empty and faker succeeds; with a non-empty code it yields `generateNumber`'s result |
| ApiGateway.EndToEnd | api-gateway/index.js:73-112 | a request over the two real services always calls the validator first and answers 200, 400 or 500. Every 400 is the fixed invalid-code answer. A 200 requires a well-formed code that resolves to a country |
| ApiGateway.MissingCodeIsInternalError | api-gateway/index.js:101-111 | a missing or empty code is a 400 at the validator, which surfaces as the gateway's 500 after one call |
| ApiGateway.UnknownCountryIsRejected | api-gateway/index.js:95-100 | a code that resolves to no country gets the fixed 400 after the validator alone was called |
| ApiGateway.AcceptedButMalformedIsInternalError | api-gateway/index.js:84-111 | a code the validator accepts but the generator's format check refuses (say '+US') gives 500 after both calls |
| ApiGateway.WellFormedKnownCodeSucceeds | api-gateway/index.js:84-94 | a well-formed code of a known country gives 200 with the validation and the generated number, after exactly the two calls |
| ApiGateway.FetchedPhoneCodeShape | phone-number-service/index.js:28 | the validator's phone code for a known country reaches the generator unchanged, holds no '#', and loses only its own leading '+' |
| ApiGateway.GeneratedNumberCarriesPhoneCode | phone-number-service/index.js:28-49 | when the generator's lookup yields the validator's answer, the number is country-specific, keeps the code, reports the validator's phone code ('+Unknown' for 'Unknown'), and begins with it |
| AuthService.BindField | auth-service/models/user.go:3-6 | a string member is copied; an absent member or a null gives ""; only a member of another type fails |
| AuthService.BindUser | auth-service/handlers/auth.go:24-28 | binding fails if and only if the decoder refuses the body or a member has the wrong type. A `null` body binds to the empty user. An object binds to the user made of its bound members |
| AuthService.BindRoundTrip | auth-service/models/user.go:3-6 | a user's JSON binds back to that user |
| AuthService.EmptyObjectBinds | auth-service/models/user.go:3-6 | an empty object, and a `null` body, bind to the user with empty name and password (no `required` tags) |
| AuthService.Login | auth-service/handlers/auth.go:23-48 | a body that fails to bind gives 400 before any lookup. The lookup is always the first step. With no collection installed the lookup panics and gin answers 500. 200 holds if and only if the user is found and the hash matches, and it carries the constant token. An unknown user gives 401 after the lookup alone. A mismatch gives 401 after both steps |
| AuthService.CredentialFailuresIndistinguishable | auth-service/handlers/auth.go:32-43 | an unknown user and a wrong password get the identical response |
| AuthService.TokenIsConstant | auth-service/handlers/auth.go:45-47 | every successful login returns the same response, whoever logs in |
| AuthService.BadPayloadIgnoresStore | auth-service/handlers/auth.go:25-28 | a body that does not bind is answered the same whatever the store and bcrypt would say |
| AuthService.EmptyObjectReachesStore | auth-service/handlers/auth.go:24-32 | an empty object or a `null` body is not a 400: the store is asked for the user named "" |
| AuthService.HandleVerify | auth-service/handlers/auth.go:51-66 | an empty Authorization header gives 401 'Missing authorization token'; any other gives 200 'Token is valid' |
| AuthService.InvalidTokenUnreachable | auth-service/handlers/auth.go:59-63 | the 'Invalid token' response is never given |
| AuthService.AuthHandlers.constructor | auth-service/handlers/auth.go:11-14 | before initialisation the collection is nil and the secret empty |
| AuthService.AuthHandlers.InitHandlers | auth-service/handlers/auth.go:17-20 | sets the collection and the secret to the arguments |
| AuthService.AuthHandlers.HandleLogin | auth-service/handlers/auth.go:23-48 | a login against the current package state is the specified login decision |

## Left out

- Framework wiring is not modelled: Express, Flask and Gin setup, CORS, helmet, body parsing, logging, the rate limiter and the reverse proxies. All of it is configuration of libraries, with no logic of the services' own.
- The fixed-text routes are not modelled: the country-code service's home route and the phone-number service's `/generation-strategies`. Each returns a constant body.
- pycountry and phonenumbers are oracles. Which codes they know, and whether a lookup returns None or raises, is library behaviour. pycountry's `get` returns None on a miss, so the alpha-3 fallback is reached only when the alpha-2 lookup raises, which the model keeps.
- CountryCodeService.CountryCodeValidator.GetCountryData: requests are modelled one at a time. `app.run(debug=True)` serves requests on threads, and the cache check-then-set holds no lock, so two concurrent first requests can both build the list. The "built at most once" invariant holds only for sequential requests.
- Python's `upper()` is modelled on ASCII letters only. Unicode case mapping, including the characters whose upper case is longer, is not covered.
- The phone-number service's own lookup goes back through the gateway's proxy. It is an input `Outcome` rather than a call to the validator. `ApiGateway.GeneratedNumberCarriesPhoneCode` states its property under the hypothesis that this lookup yields the validator's answer.
- faker is an input:
  - the template choice is a `FormatIndex`;
  - the digits are a stream of `Digit`s;
  - `faker.phone.number` is an opaque string, or `Err` when it throws;
  - the shape of the random number is faker's.
- `random.choice` is an input index `pick`; the chosen entry is taken as `data[pick % |data|]`.
- Timestamps from `new Date().toISOString()` are opaque strings.
- Upstream failures are not told apart: a timeout, a refused connection and an HTTP error are all `Err`, as the handlers treat them.
- The response field `success: true` is implied by the `Generated` body constructor and is not a separate field.
- A query parameter given several times (an array in Express, the first value in Flask) is not modelled. Parameters are single strings or absent.
- The Go JSON decoder is reduced to three kinds of body: one it refuses, the literal `null`, and an object. Each member of an object is absent, null, a string or another type. Its case-insensitive key matching, duplicate keys and unknown members are not modelled.
- AuthService.Login: the Mongo lookup is an oracle yielding the user or nothing. A driver error and a missing document both give the 401, as the handler treats them. A nil collection, before `InitHandlers`, panics, and the model reduces this to gin Recovery's 500.
- bcrypt is an oracle predicate on (hash, password). JWT generation and verification do not exist in the handlers: the token is a constant and `isValid` is the constant true. `jwtSecret` is stored but is read by no handler.
- `auth-service/main.go` is not part of this model. It holds the Mongo connection, index creation, default-user seeding and server start.
- Bulk generation, bounded-retry generation and finer upstream failure classification do not appear in the handlers and are not modelled.
