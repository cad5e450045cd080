/** The guard `handleSearch` applies before any request is made. */
module Search {
  import opened JsBuiltins

  /** The city searched when start-up falls back from geolocation. */
  const DefaultCity: string := "Hyderabad"

  const InvalidCityMessage: string := "Please enter a valid city name."

  datatype Validation = Rejected(message: string) | Proceed(query: string)

  /** A search is rejected when the text is empty or whitespace only;
      otherwise it proceeds with the trimmed text, which is what the
      request URLs carry. */
  function ValidateCity(city: string): (v: Validation)
    ensures v.Rejected? <==> forall i :: 0 <= i < |city| ==> IsWhitespace(city[i])
    ensures v.Rejected? ==> v.message == InvalidCityMessage
    ensures v.Proceed? ==> v.query == Trim(city)
    ensures v.Proceed? ==> v.query != [] && |v.query| <= |city|
    ensures v.Proceed? ==> !IsWhitespace(v.query[0]) && !IsWhitespace(v.query[|v.query| - 1])
  {
    if city == "" || Trim(city) == "" then Rejected(InvalidCityMessage)
    else Proceed(Trim(city))
  }

  /** A search proceeds exactly when the text holds a non-whitespace character. */
  lemma ValidateCityIff(city: string)
    ensures ValidateCity(city).Proceed? <==> exists i :: 0 <= i < |city| && !IsWhitespace(city[i])
  {
  }

  /** The start-up fallback search always passes the guard, unchanged. */
  lemma DefaultCityProceeds()
    ensures ValidateCity(DefaultCity) == Proceed(DefaultCity)
  {
    assert !IsWhitespace(DefaultCity[0]);
    assert !IsWhitespace(DefaultCity[|DefaultCity| - 1]);
    assert TrimStart(DefaultCity) == DefaultCity;
    assert TrimEnd(DefaultCity) == DefaultCity;
  }
}
