/** The geocoding check behind address validation. */
module AddressValidatorFlow {

  import opened Wrappers

  /** A parsed geocoding body: its `status` and the `formatted_address` of
      each entry of `results`, if there is a list. */
  datatype GeocodeBody = GeocodeBody(status: string, results: Option<seq<string>>)

  /** How the request ended: `fetch` or `json()` threw, or the body parsed. */
  datatype GeocodeReply = Threw | Parsed(body: GeocodeBody)

  datatype AddressValidation = AddressValidation(isValid: bool, formattedAddress: Option<string>)

  const MissingKey := "GOOGLE_MAPS_API_KEY is not defined in the environment."

  /** Status "OK" with a non-empty result list. Reading the length of a
      missing list throws, which the try turns into "invalid". */
  predicate Found(reply: GeocodeReply) {
    reply.Parsed? && reply.body.status == "OK" && reply.body.results.Some? && reply.body.results.value != []
  }

  /** `validateAddressTool`: rejects when the key is unset; otherwise valid,
      with the first result's address, exactly when the geocoder found the
      address, and invalid with no address in every other case. */
  function ValidateAddress(apiKey: string, reply: GeocodeReply): (r: Result<AddressValidation>)
    ensures r.Failure? <==> apiKey == ""
    ensures r.Failure? ==> r.message == MissingKey
    ensures r.Success? ==> (r.value.isValid <==> Found(reply))
    ensures r.Success? ==> (r.value.formattedAddress.Some? <==> r.value.isValid)
    ensures r.Success? && r.value.isValid ==> r.value.formattedAddress == Some(reply.body.results.value[0])
  {
    if apiKey == "" then Failure(MissingKey)
    else match reply
      case Threw => Success(AddressValidation(false, None))
      case Parsed(body) =>
        if body.status == "OK" && body.results.Some? && |body.results.value| > 0 then
          Success(AddressValidation(true, Some(body.results.value[0])))
        else
          Success(AddressValidation(false, None))
  }
}
