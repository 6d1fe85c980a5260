/** The API gateway's own logic: the composite endpoint that validates a
    country code with the country-code service and only then asks the
    phone-number service for a number, and the global error handler. The two
    upstream calls are `Outcome`s; which calls were made is recorded in the
    order they were made. */
module ApiGateway {
  import opened Base
  import CountryCodeService
  import PhoneNumberService

  /** An upstream request, with the query parameter it forwards (axios drops
      a parameter whose value is undefined). */
  datatype Call =
    | ValidatorCall(code: Option<string>)
    | GeneratorCall(countryCode: Option<string>)

  datatype GatewayBody =
    | Composite(countryInfo: CountryCodeService.ValidationResult,
                phoneNumber: PhoneNumberService.PhoneBody,
                timestamp: string)
    | Failure(error: string, message: string)

  datatype GatewayResponse = GatewayResponse(status: int, body: GatewayBody)

  /** A handled request: the response and the upstream calls, in order. */
  datatype Exchange = Exchange(response: GatewayResponse, calls: seq<Call>)

  const INVALID_CODE := GatewayResponse(400, Failure("Invalid country code", "Please provide a valid country code"))
  const COMPOSITE_ERROR := GatewayResponse(500, Failure("Internal server error", "Failed to generate validated phone number"))

  predicate Validated(validation: Outcome<CountryCodeService.ValidationResult>) {
    validation.Ok? && validation.value.Valid?
  }

  /** `/generate-validated-phone-number`. `validation` and `generation` are
      what the two awaited requests resolve with or throw; `generation` is
      consulted only when the generator is actually called; `now` is
      `new Date().toISOString()`. */
  function GenerateValidatedPhoneNumber(countryCode: Option<string>,
                                        validation: Outcome<CountryCodeService.ValidationResult>,
                                        generation: Outcome<PhoneNumberService.PhoneBody>,
                                        now: string): (x: Exchange)
    ensures |x.calls| >= 1 && x.calls[0] == ValidatorCall(countryCode)
    ensures GeneratorCall(countryCode) in x.calls <==> Validated(validation)
    ensures forall k :: 1 <= k < |x.calls| ==> x.calls[k] == GeneratorCall(countryCode)
    ensures x.calls == if Validated(validation) then [ValidatorCall(countryCode), GeneratorCall(countryCode)]
                       else [ValidatorCall(countryCode)]
    ensures x.response.status == 200 <==> x.response.body.Composite?
    ensures x.response.status == 200 <==> Validated(validation) && generation.Ok?
    ensures x.response.body.Composite? ==>
      x.response.body.countryInfo == validation.value
      && x.response.body.phoneNumber == generation.value
      && x.response.body.timestamp == now
    ensures validation.Ok? && validation.value.Invalid? ==> x.response == INVALID_CODE
    ensures validation.Err? || (Validated(validation) && generation.Err?) ==> x.response == COMPOSITE_ERROR
  {
    match validation
    case Err => Exchange(COMPOSITE_ERROR, [ValidatorCall(countryCode)])
    case Ok(info) =>
      if !info.Valid? then Exchange(INVALID_CODE, [ValidatorCall(countryCode)])
      else
        var calls := [ValidatorCall(countryCode), GeneratorCall(countryCode)];
        match generation
        case Err => Exchange(COMPOSITE_ERROR, calls)
        case Ok(phone) => Exchange(GatewayResponse(200, Composite(info, phone, now)), calls)
  }

  /** A code the validator does not accept is answered without consulting
      the generator: the response is the same whatever generation would have
      produced, and at whatever time. */
  lemma RejectionIgnoresGeneration(countryCode: Option<string>,
                                   validation: Outcome<CountryCodeService.ValidationResult>,
                                   generation1: Outcome<PhoneNumberService.PhoneBody>, now1: string,
                                   generation2: Outcome<PhoneNumberService.PhoneBody>, now2: string)
    requires !Validated(validation)
    ensures GenerateValidatedPhoneNumber(countryCode, validation, generation1, now1)
         == GenerateValidatedPhoneNumber(countryCode, validation, generation2, now2)
    ensures GenerateValidatedPhoneNumber(countryCode, validation, generation1, now1).response.status != 200
  {
  }

  /** The Express error middleware: any error that reaches it becomes a 500
      whose message is the error's own message. */
  function GlobalErrorHandler(message: string): (r: GatewayResponse)
    ensures r.status == 500 && r.body.Failure?
    ensures r.body.error == "Unexpected error occurred" && r.body.message == message
  {
    GatewayResponse(500, Failure("Unexpected error occurred", message))
  }

  /** An unhandled error is distinguishable from every answer of the
      composite endpoint by its `error` field. */
  lemma GlobalErrorIsDistinct(message: string, countryCode: Option<string>,
                             validation: Outcome<CountryCodeService.ValidationResult>,
                             generation: Outcome<PhoneNumberService.PhoneBody>, now: string)
    ensures GlobalErrorHandler(message) != GenerateValidatedPhoneNumber(countryCode, validation, generation, now).response
  {
  }

  // ----- the composite endpoint wired to the two services -----

  /** What the gateway's axios call to the validator resolves with. */
  function ValidatorOutcome(lib: CountryCodeService.Libraries, code: Option<string>): (o: Outcome<CountryCodeService.ValidationResult>)
    ensures o.Ok? <==> code.Some? && code.value != ""
    ensures o.Ok? ==> o.value == CountryCodeService.ValidateCountryCode(lib, code.value)
  {
    var rr := CountryCodeService.ValidateCode(lib, code);
    FromStatus(rr.status, rr.body)
  }

  /** What the axios call to the phone-number service resolves with.
      `lookup` is what that service's own request for the code's validation
      (which it sends back through this gateway's proxy) resolved with; it is
      an input here, not derived from the validator. */
  function GeneratorOutcome(code: Option<string>, lookup: Outcome<CountryCodeService.ValidationResult>,
                            draws: PhoneNumberService.Draws, randomNumber: Outcome<string>,
                            now: string): (o: Outcome<PhoneNumberService.PhoneBody>)
    ensures o.Ok? <==> if PhoneNumberService.Requested(code) then PhoneNumberService.MatchesAlnum(code.value) else randomNumber.Ok?
    ensures o.Ok? && PhoneNumberService.Requested(code) ==>
      o.value == PhoneNumberService.Generated(PhoneNumberService.GenerateNumber(code.value, lookup, draws), now)
  {
    var pr := PhoneNumberService.GeneratePhoneNumber(code, lookup, draws, randomNumber, now);
    FromStatus(pr.status, pr.body)
  }

  /** One request to the composite endpoint, end to end. `lookup` is the
      phone-number service's own view of the code's validation; `phoneNow`
      and `gatewayNow` are the two services' clocks. */
  function EndToEnd(lib: CountryCodeService.Libraries, code: Option<string>,
                    lookup: Outcome<CountryCodeService.ValidationResult>,
                    draws: PhoneNumberService.Draws, randomNumber: Outcome<string>,
                    phoneNow: string, gatewayNow: string): (x: Exchange)
    ensures |x.calls| >= 1 && x.calls[0] == ValidatorCall(code)
    ensures x.response.status in {200, 400, 500}
    ensures x.response.status == 200 ==>
      && code.Some? && PhoneNumberService.MatchesAlnum(code.value)
      && CountryCodeService.ResolveCountry(lib, CountryCodeService.Normalize(code.value)).Found?
    ensures x.response.status == 400 ==> x.response == INVALID_CODE
  {
    GenerateValidatedPhoneNumber(code, ValidatorOutcome(lib, code),
                                 GeneratorOutcome(code, lookup, draws, randomNumber, phoneNow), gatewayNow)
  }

  /** A missing or empty code is refused by the validator with a 400, which
      makes axios throw: the gateway answers 500, not 400, and never calls
      the generator. */
  lemma MissingCodeIsInternalError(lib: CountryCodeService.Libraries, code: Option<string>,
                                   lookup: Outcome<CountryCodeService.ValidationResult>,
                                   draws: PhoneNumberService.Draws, randomNumber: Outcome<string>,
                                   phoneNow: string, gatewayNow: string)
    requires code.None? || code.value == ""
    ensures EndToEnd(lib, code, lookup, draws, randomNumber, phoneNow, gatewayNow)
         == Exchange(COMPOSITE_ERROR, [ValidatorCall(code)])
  {
    var o := ValidatorOutcome(lib, code);
    assert o.Err?;
  }

  /** A code for which the country database finds nothing is answered 400
      after the validator alone has been called. */
  lemma UnknownCountryIsRejected(lib: CountryCodeService.Libraries, code: string,
                                 lookup: Outcome<CountryCodeService.ValidationResult>,
                                 draws: PhoneNumberService.Draws, randomNumber: Outcome<string>,
                                 phoneNow: string, gatewayNow: string)
    requires code != ""
    requires !CountryCodeService.ResolveCountry(lib, CountryCodeService.Normalize(code)).Found?
    ensures EndToEnd(lib, Some(code), lookup, draws, randomNumber, phoneNow, gatewayNow)
         == Exchange(INVALID_CODE, [ValidatorCall(Some(code))])
  {
    var o := ValidatorOutcome(lib, Some(code));
    assert o.Ok? && o.value.Invalid?;
  }

  /** The validator accepts codes that the generator's format check refuses
      (a leading '+' or surrounding spaces, which it normalises away): the
      generator's 400 makes axios throw, so a valid country is answered 500
      after both services were called. */
  lemma AcceptedButMalformedIsInternalError(lib: CountryCodeService.Libraries, code: string,
                                            lookup: Outcome<CountryCodeService.ValidationResult>,
                                            draws: PhoneNumberService.Draws, randomNumber: Outcome<string>,
                                            phoneNow: string, gatewayNow: string)
    requires code != "" && !PhoneNumberService.MatchesAlnum(code)
    requires CountryCodeService.ResolveCountry(lib, CountryCodeService.Normalize(code)).Found?
    ensures EndToEnd(lib, Some(code), lookup, draws, randomNumber, phoneNow, gatewayNow)
         == Exchange(COMPOSITE_ERROR, [ValidatorCall(Some(code)), GeneratorCall(Some(code))])
  {
    var g := GeneratorOutcome(Some(code), lookup, draws, randomNumber, phoneNow);
    assert g.Err?;
  }

  /** For a well-formed code of a known country both services answer 200
      and the gateway puts the validation and the generated number together. */
  lemma WellFormedKnownCodeSucceeds(lib: CountryCodeService.Libraries, code: string,
                                    lookup: Outcome<CountryCodeService.ValidationResult>,
                                    draws: PhoneNumberService.Draws, randomNumber: Outcome<string>,
                                    phoneNow: string, gatewayNow: string)
    requires PhoneNumberService.MatchesAlnum(code)
    requires CountryCodeService.ResolveCountry(lib, CountryCodeService.Normalize(code)).Found?
    ensures var info := CountryCodeService.ValidateCountryCode(lib, code);
      var data := PhoneNumberService.GenerateNumber(code, lookup, draws);
      EndToEnd(lib, Some(code), lookup, draws, randomNumber, phoneNow, gatewayNow)
        == Exchange(GatewayResponse(200, Composite(info, PhoneNumberService.Generated(data, phoneNow), gatewayNow)),
                    [ValidatorCall(Some(code)), GeneratorCall(Some(code))])
  {
    var info := CountryCodeService.ValidateCountryCode(lib, code);
    assert ValidatorOutcome(lib, Some(code)) == Ok(info);
    var pr := PhoneNumberService.GeneratePhoneNumber(Some(code), lookup, draws, randomNumber, phoneNow);
    assert pr.status == 200;
    assert GeneratorOutcome(Some(code), lookup, draws, randomNumber, phoneNow) == Ok(pr.body);
  }

  /** The phone code the validator reports for a known country, as the
      generator's lookup reads it: 'Unknown' or '+digits', holding no '#' and
      losing exactly its own leading '+' to `replace('+', '')`. */
  lemma FetchedPhoneCodeShape(lib: CountryCodeService.Libraries, code: string)
    requires CountryCodeService.ResolveCountry(lib, CountryCodeService.Normalize(code)).Found?
    ensures var raw := CountryCodeService.ValidateCountryCode(lib, code).phoneCode;
      && PhoneNumberService.FetchedPhoneCode(Ok(CountryCodeService.ValidateCountryCode(lib, code))) == Some(raw)
      && '#' !in raw
      && "+" + PhoneNumberService.RemoveFirstPlus(raw) == (if raw == CountryCodeService.UNKNOWN then "+" + raw else raw)
  {
    var info := CountryCodeService.ValidateCountryCode(lib, code);
    var alpha2 := CountryCodeService.ResolveCountry(lib, CountryCodeService.Normalize(code)).country.alpha2;
    assert info.Valid? && info.phoneCode == CountryCodeService.PhoneCodeFor(lib, alpha2);
    PhoneNumberService.PhoneCodeRestored(info.phoneCode);
  }

  /** When the phone-number service's lookup resolves with the validator's
      answer, the number generated for a known country is country-specific, carries
      the validator's phone code (with a '+' put in front of 'Unknown') and
      begins with it. */
  lemma GeneratedNumberCarriesPhoneCode(lib: CountryCodeService.Libraries, code: string, draws: PhoneNumberService.Draws)
    requires CountryCodeService.ResolveCountry(lib, CountryCodeService.Normalize(code)).Found?
    ensures var info := CountryCodeService.ValidateCountryCode(lib, code);
      var data := PhoneNumberService.GenerateNumber(code, Ok(info), draws);
      && data.CountrySpecific? && data.countryCode == code
      && data.phoneCode == (if info.phoneCode == CountryCodeService.UNKNOWN then "+" + info.phoneCode else info.phoneCode)
      && data.phoneNumber[..|data.phoneCode|] == data.phoneCode
  {
    FetchedPhoneCodeShape(lib, code);
    PhoneNumberService.CountrySpecificShape(code, Ok(CountryCodeService.ValidateCountryCode(lib, code)), draws);
  }
}
