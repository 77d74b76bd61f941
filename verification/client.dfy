/** The enrichment client (`ApolloAPI`, apollo_enrichment_app.py:8-114):
    the request it builds and the uniform result it makes of whatever the
    HTTP call produced. The call itself is not modelled; its outcome is an
    input. */
module Client {
  import opened Text
  import opened Wrappers
  import opened JsonValue

  const BaseUrl: string := "https://api.apollo.io/api/v1"

  /** What an enrichment call asks for, with the optional arguments as the
      client methods receive them (`None` when the caller passed none). */
  datatype Lookup =
    | CompanyLookup(domain: string, linkedinUrl: Option<string>, companyName: Option<string>, countryCode: Option<string>)
    | ContactLookup(email: string, linkedinUrl: Option<string>, firstName: Option<string>, lastName: Option<string>)

  datatype Request = Request(url: string, headers: map<string, string>, body: map<string, string>)

  /** How the HTTP call ended. `json` is what `response.json()` would give
      for the response body; it is only consulted for status 200. */
  datatype Outcome =
    | Http(status: nat, text: string, json: Decoded)
    | RequestFailed(reason: string)   // a `requests.exceptions.RequestException`
    | OtherFailure(reason: string)    // any other exception

  datatype Decoded = Parsed(value: Json) | NotJson(reason: string)

  datatype Status = Success | Error

  /** The `{status, data, message}` dictionary the client methods return. */
  datatype EnrichResult = EnrichResult(status: Status, data: Json, message: string)

  /** Python's truth value of an optional string argument. */
  predicate Given(value: Option<string>) {
    value.Some? && value.value != ""
  }

  /** `if value: params[key] = value`. */
  function AddIfGiven(body: map<string, string>, key: string, value: Option<string>): map<string, string> {
    if Given(value) then body[key := value.value] else body
  }

  /** The key and value every request body carries. */
  function IdentifierKey(q: Lookup): string {
    match q
    case CompanyLookup(_, _, _, _) => "domain"
    case ContactLookup(_, _, _, _) => "email"
  }

  function Identifier(q: Lookup): string {
    match q
    case CompanyLookup(domain, _, _, _) => domain
    case ContactLookup(email, _, _, _) => email
  }

  /** The optional arguments under the provider's field names, in order. */
  function Extras(q: Lookup): seq<(string, Option<string>)> {
    match q
    case CompanyLookup(_, linkedinUrl, companyName, countryCode) =>
      [("linkedin_url", linkedinUrl), ("name", companyName), ("country", countryCode)]
    case ContactLookup(_, linkedinUrl, firstName, lastName) =>
      [("linkedin_url", linkedinUrl), ("first_name", firstName), ("last_name", lastName)]
  }

  /** The JSON body: the identifier, and each optional argument that is
      given, under its provider name; nothing else. */
  function Body(q: Lookup): (body: map<string, string>)
    ensures IdentifierKey(q) in body && body[IdentifierKey(q)] == Identifier(q)
    ensures forall i :: 0 <= i < |Extras(q)| ==>
      && (Extras(q)[i].0 in body <==> Given(Extras(q)[i].1))
      && (Given(Extras(q)[i].1) ==> body[Extras(q)[i].0] == Extras(q)[i].1.value)
    ensures forall key :: key in body ==>
      key == IdentifierKey(q) || exists i :: 0 <= i < |Extras(q)| && Extras(q)[i].0 == key
  {
    var extras := Extras(q);
    var body := map[IdentifierKey(q) := Identifier(q)];
    var body := AddIfGiven(body, extras[0].0, extras[0].1);
    var body := AddIfGiven(body, extras[1].0, extras[1].1);
    AddIfGiven(body, extras[2].0, extras[2].1)
  }

  /** The body of a company lookup, field by field. */
  lemma CompanyBody(q: Lookup)
    requires q.CompanyLookup?
    ensures var body := Body(q);
      && "domain" in body && body["domain"] == q.domain
      && ("linkedin_url" in body <==> Given(q.linkedinUrl))
      && (Given(q.linkedinUrl) ==> body["linkedin_url"] == q.linkedinUrl.value)
      && ("name" in body <==> Given(q.companyName))
      && (Given(q.companyName) ==> body["name"] == q.companyName.value)
      && ("country" in body <==> Given(q.countryCode))
      && (Given(q.countryCode) ==> body["country"] == q.countryCode.value)
      && forall key :: key in body ==> key == "domain" || key == "linkedin_url" || key == "name" || key == "country"
  {
    assert Extras(q) == [("linkedin_url", q.linkedinUrl), ("name", q.companyName), ("country", q.countryCode)];
  }

  /** The body of a contact lookup, field by field. */
  lemma ContactBody(q: Lookup)
    requires q.ContactLookup?
    ensures var body := Body(q);
      && "email" in body && body["email"] == q.email
      && ("linkedin_url" in body <==> Given(q.linkedinUrl))
      && (Given(q.linkedinUrl) ==> body["linkedin_url"] == q.linkedinUrl.value)
      && ("first_name" in body <==> Given(q.firstName))
      && (Given(q.firstName) ==> body["first_name"] == q.firstName.value)
      && ("last_name" in body <==> Given(q.lastName))
      && (Given(q.lastName) ==> body["last_name"] == q.lastName.value)
      && forall key :: key in body ==> key == "email" || key == "linkedin_url" || key == "first_name" || key == "last_name"
  {
    assert Extras(q) == [("linkedin_url", q.linkedinUrl), ("first_name", q.firstName), ("last_name", q.lastName)];
  }

  function Endpoint(q: Lookup): string {
    match q
    case CompanyLookup(_, _, _, _) => BaseUrl + CompanyPath
    case ContactLookup(_, _, _, _) => BaseUrl + ContactPath
  }

  /** The headers `ApolloAPI.__init__` fixes for every request. */
  function Headers(apiKey: string): map<string, string> {
    map["Content-Type" := "application/json", "Cache-Control" := "no-cache", "X-Api-Key" := apiKey]
  }

  const CompanyPath: string := "/organizations/enrich"
  const ContactPath: string := "/people/match"

  /** The POST request an enrichment call sends: to the company or the
      contact endpoint under the base URL, with exactly the three fixed
      headers, the key as given, and the body of the lookup. */
  function MakeRequest(apiKey: string, q: Lookup): (r: Request)
    ensures r.url == BaseUrl + (if q.CompanyLookup? then CompanyPath else ContactPath)
    ensures r.headers.Keys == {"Content-Type", "Cache-Control", "X-Api-Key"}
    ensures r.headers["X-Api-Key"] == apiKey
    ensures r.headers["Content-Type"] == "application/json" && r.headers["Cache-Control"] == "no-cache"
    ensures IdentifierKey(q) in r.body && r.body[IdentifierKey(q)] == Identifier(q)
  {
    Request(Endpoint(q), Headers(apiKey), Body(q))
  }

  /** Two requests go to the same endpoint exactly when they are for the same
      kind of lookup. */
  lemma EndpointTellsKind(apiKey: string, q: Lookup, other: Lookup)
    ensures MakeRequest(apiKey, q).url == MakeRequest(apiKey, other).url <==> q.CompanyLookup? == other.CompanyLookup?
  {
    if q.CompanyLookup? != other.CompanyLookup? {
      var i := |BaseUrl| + 1;
      assert (BaseUrl + CompanyPath)[i] == 'o';
      assert (BaseUrl + ContactPath)[i] == 'p';
    }
  }

  /** The key of the sub-object a successful response is reduced to. */
  function PayloadKey(q: Lookup): string {
    match q
    case CompanyLookup(_, _, _, _) => "organization"
    case ContactLookup(_, _, _, _) => "person"
  }

  function SuccessMessage(q: Lookup): string {
    match q
    case CompanyLookup(_, _, _, _) => "Company data enriched successfully"
    case ContactLookup(_, _, _, _) => "Contact data enriched successfully"
  }

  lemma SuccessMessageSingleLine(q: Lookup)
    ensures NoNewline(SuccessMessage(q))
  {
  }

  function Failed(message: string): EnrichResult {
    EnrichResult(Error, EmptyObject, message)
  }

  const ApiErrorPrefix: string := "API Error: "
  const RequestFailedPrefix: string := "Request failed: "
  const UnexpectedPrefix: string := "Unexpected error: "

  /** The result a client method returns for the given outcome. A 200
      response whose body is not JSON makes `response.json()` raise a
      `RequestException`; one whose JSON is not a dict makes `.get` raise an
      `AttributeError`, caught as an unexpected error. */
  function Normalise(q: Lookup, outcome: Outcome): (r: EnrichResult)
    ensures r.status == Success <==>
      outcome.Http? && outcome.status == 200 && outcome.json.Parsed? && outcome.json.value.Object?
    ensures r.status == Success ==>
      var fields := outcome.json.value.fields;
      && r.message == SuccessMessage(q)
      && (PayloadKey(q) in fields ==> r.data == fields[PayloadKey(q)])
      && (PayloadKey(q) !in fields ==> r.data == EmptyObject)
    ensures r.status == Error ==> r.data == EmptyObject && r.message != ""
    ensures outcome.Http? && outcome.status != 200 ==>
      r.message == ApiErrorPrefix + Decimal(outcome.status) + " - " + outcome.text
    ensures outcome.Http? && outcome.status == 200 && outcome.json.NotJson? ==>
      r.message == RequestFailedPrefix + outcome.json.reason
    ensures outcome.Http? && outcome.status == 200 && outcome.json.Parsed? && !outcome.json.value.Object? ==>
      r.message == UnexpectedPrefix + "'" + TypeName(outcome.json.value) + "' object has no attribute 'get'"
    ensures outcome.RequestFailed? ==> r.message == RequestFailedPrefix + outcome.reason
    ensures outcome.OtherFailure? ==> r.message == UnexpectedPrefix + outcome.reason
  {
    match outcome
    case Http(status, text, json) =>
      if status != 200 then Failed(ApiErrorPrefix + Decimal(status) + " - " + text)
      else
        (match json
         case NotJson(reason) => Failed(RequestFailedPrefix + reason)
         case Parsed(Object(fields)) =>
           var data := if PayloadKey(q) in fields then fields[PayloadKey(q)] else EmptyObject;
           EnrichResult(Success, data, SuccessMessage(q))
         case Parsed(other) =>
           Failed(UnexpectedPrefix + "'" + TypeName(other) + "' object has no attribute 'get'"))
    case RequestFailed(reason) => Failed(RequestFailedPrefix + reason)
    case OtherFailure(reason) => Failed(UnexpectedPrefix + reason)
  }

  /** `ApolloAPI.enrich_company` / `enrich_contact`: send the request through
      `transport` and normalise what comes back. */
  function Enrich(apiKey: string, q: Lookup, transport: Request -> Outcome): (r: EnrichResult)
    ensures var outcome := transport(MakeRequest(apiKey, q));
      r.status == Success <==>
        outcome.Http? && outcome.status == 200 && outcome.json.Parsed? && outcome.json.value.Object?
    ensures r.status == Success ==> r.message == SuccessMessage(q)
    ensures r.status == Error ==> r.data == EmptyObject && r.message != ""
  {
    Normalise(q, transport(MakeRequest(apiKey, q)))
  }

  /** The number of decimal digits `s` starts with. */
  function DigitRun(s: string): (n: nat)
    ensures n <= |s|
    ensures forall k :: 0 <= k < n ==> IsDigit(s[k])
    ensures n < |s| ==> !IsDigit(s[n])
  {
    if s != [] && IsDigit(s[0]) then 1 + DigitRun(s[1..]) else 0
  }

  /** The status code and response text an `API Error` message reports. */
  function ReadApiError(message: string): Option<(nat, string)> {
    if !(ApiErrorPrefix <= message) then None
    else
      var rest := message[|ApiErrorPrefix|..];
      var n := DigitRun(rest);
      var after := rest[n..];
      if n == 0 || !(" - " <= after) then None
      else Some((DecimalValue(rest[..n]), after[3..]))
  }

  lemma {:induction false} DigitRunOf(digits: string, tail: string)
    requires forall k :: 0 <= k < |digits| ==> IsDigit(digits[k])
    requires tail != [] && !IsDigit(tail[0])
    ensures DigitRun(digits + tail) == |digits|
    decreases |digits|
  {
    if digits != [] {
      assert (digits + tail)[1..] == digits[1..] + tail;
      DigitRunOf(digits[1..], tail);
    } else {
      assert digits + tail == tail;
    }
  }

  lemma ConcatRight(a: string, b: string, c: string, d: string)
    ensures a + b + c + d == a + (b + (c + d))
  {
  }

  /** An `API Error` message built from a digit string and a text reads
      back as that number and that text. */
  lemma ReadApiErrorOf(code: string, text: string)
    requires code != [] && forall k :: 0 <= k < |code| ==> IsDigit(code[k])
    ensures ReadApiError(ApiErrorPrefix + code + " - " + text) == Some((DecimalValue(code), text))
  {
    var tail := " - " + text;
    var rest := code + tail;
    var message := ApiErrorPrefix + rest;
    ConcatRight(ApiErrorPrefix, code, " - ", text);
    assert ApiErrorPrefix <= message;
    assert message[|ApiErrorPrefix|..] == rest;
    DigitRunOf(code, tail);
    assert rest[..|code|] == code;
    assert rest[|code|..] == tail;
    assert " - " <= tail && tail[3..] == text;
  }

  /** A non-200 response can be read back from its message: the status code
      and the response text are both recoverable. */
  lemma ApiErrorReadable(q: Lookup, status: nat, text: string, json: Decoded)
    requires status != 200
    ensures ReadApiError(Normalise(q, Http(status, text, json)).message) == Some((status, text))
  {
    var code := Decimal(status);
    assert Normalise(q, Http(status, text, json)).message == ApiErrorPrefix + code + " - " + text;
    ReadApiErrorOf(code, text);
    DecimalRoundTrip(status);
  }
}
