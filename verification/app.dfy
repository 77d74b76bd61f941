/** The two entry points behind the interface, `enrich_company_data` and
    `enrich_contact_data` (apollo_enrichment_app.py:138-220): an ordered list
    of pre-flight checks, then one enrichment call through the client, then
    the report. The HTTP call is the parameter `transport` and Python's
    `str()` of a JSON value is the parameter `render`. */
module App {
  import opened Text
  import opened Wrappers
  import opened JsonValue
  import opened Client
  import opened Report
  import DomainPattern
  import EmailPattern
  import LinkedInPattern

  const ApiKeyMissing: string := FailureMark + "Error: Please enter your Apollo API key"
  const DomainMissing: string := FailureMark + "Error: Company domain is required"
  const DomainInvalid: string := FailureMark + "Error: Please enter a valid domain (e.g., example.com)"
  const CompanyUrlInvalid: string :=
    FailureMark + "Error: Please enter a valid LinkedIn URL (e.g., https://linkedin.com/company/example)"
  const EmailMissing: string := FailureMark + "Error: Email address is required"
  const EmailInvalid: string := FailureMark + "Error: Please enter a valid email address"
  const ContactUrlInvalid: string :=
    FailureMark + "Error: Please enter a valid LinkedIn URL (e.g., https://linkedin.com/in/username)"

  /** Every error starts with the failure mark, and no two have the same
      length, so no two are alike. */
  lemma ErrorTexts()
    ensures FailureMark <= ApiKeyMissing && |ApiKeyMissing| == |FailureMark| + 39
    ensures FailureMark <= DomainMissing && |DomainMissing| == |FailureMark| + 33
    ensures FailureMark <= DomainInvalid && |DomainInvalid| == |FailureMark| + 54
    ensures FailureMark <= CompanyUrlInvalid && |CompanyUrlInvalid| == |FailureMark| + 85
    ensures FailureMark <= EmailMissing && |EmailMissing| == |FailureMark| + 32
    ensures FailureMark <= EmailInvalid && |EmailInvalid| == |FailureMark| + 41
    ensures FailureMark <= ContactUrlInvalid && |ContactUrlInvalid| == |FailureMark| + 81
  {
  }

  /** One pre-flight check: whether it fails, and the text shown if it is
      the first that does. */
  datatype Check = Check(fails: bool, error: string)

  /** Check `i` is the first failing one. */
  predicate FirstFailing(checks: seq<Check>, i: int) {
    && 0 <= i < |checks|
    && checks[i].fails
    && forall j :: 0 <= j < i ==> !checks[j].fails
  }

  /** The error of the first failing check, if any check fails. */
  function FirstFailure(checks: seq<Check>): (r: Option<string>)
    ensures r.None? <==> forall i :: 0 <= i < |checks| ==> !checks[i].fails
    ensures r.Some? ==> exists i :: FirstFailing(checks, i) && r.value == checks[i].error
  {
    if checks == [] then None
    else if checks[0].fails then
      assert FirstFailing(checks, 0);
      Some(checks[0].error)
    else
      var r := FirstFailure(checks[1..]);
      if r.None? then r
      else
        var i :| FirstFailing(checks[1..], i) && r.value == checks[1..][i].error;
        assert FirstFailing(checks, i + 1);
        r
  }

  /** With four checks, the first failure is found by testing them in turn. */
  lemma FirstFailureOfFour(a: Check, b: Check, c: Check, d: Check)
    ensures FirstFailure([a, b, c, d]) ==
      if a.fails then Some(a.error)
      else if b.fails then Some(b.error)
      else if c.fails then Some(c.error)
      else if d.fails then Some(d.error)
      else None
  {
    assert FirstFailure([d]) == if d.fails then Some(d.error) else None by {
      assert [d][1..] == [];
    }
    assert FirstFailure([c, d]) == if c.fails then Some(c.error) else FirstFailure([d]) by {
      assert [c, d][1..] == [d];
    }
    assert FirstFailure([b, c, d]) == if b.fails then Some(b.error) else FirstFailure([c, d]) by {
      assert [b, c, d][1..] == [c, d];
    }
    assert [a, b, c, d][1..] == [b, c, d];
  }

  /** The company checks in the order the entry point applies them. The
      format of the domain is checked on the text as typed, not stripped. */
  function CompanyChecks(apiKey: string, domain: string, linkedinUrl: string): (r: seq<Check>)
    ensures |r| == 4
    ensures r[0].fails <==> AllWhitespace(apiKey)
    ensures r[1].fails <==> AllWhitespace(domain)
    ensures r[2].fails <==> !exists d :: AnchoredAt(domain, d) && DomainPattern.DomainShape(d)
    ensures r[3].fails <==>
      linkedinUrl != "" && !exists d :: AnchoredAt(linkedinUrl, d) && LinkedInPattern.LinkedInShape(d)
    ensures FailureMark <= r[0].error && FailureMark <= r[1].error && FailureMark <= r[2].error && FailureMark <= r[3].error
    ensures r[0].error != r[1].error && r[0].error != r[2].error && r[0].error != r[3].error
    ensures r[1].error != r[2].error && r[1].error != r[3].error && r[2].error != r[3].error
  {
    ErrorTexts();
    [ Check(Strip(apiKey) == "", ApiKeyMissing),
      Check(Strip(domain) == "", DomainMissing),
      Check(!DomainPattern.ValidateDomain(domain), DomainInvalid),
      Check(linkedinUrl != "" && !LinkedInPattern.ValidateLinkedInUrl(linkedinUrl), CompanyUrlInvalid) ]
  }

  /** The contact checks in the order the entry point applies them. */
  function ContactChecks(apiKey: string, email: string, linkedinUrl: string): (r: seq<Check>)
    ensures |r| == 4
    ensures r[0].fails <==> AllWhitespace(apiKey)
    ensures r[1].fails <==> AllWhitespace(email)
    ensures r[2].fails <==> !exists d :: AnchoredAt(email, d) && EmailPattern.EmailShape(d)
    ensures r[3].fails <==>
      linkedinUrl != "" && !exists d :: AnchoredAt(linkedinUrl, d) && LinkedInPattern.LinkedInShape(d)
    ensures FailureMark <= r[0].error && FailureMark <= r[1].error && FailureMark <= r[2].error && FailureMark <= r[3].error
    ensures r[0].error != r[1].error && r[0].error != r[2].error && r[0].error != r[3].error
    ensures r[1].error != r[2].error && r[1].error != r[3].error && r[2].error != r[3].error
  {
    ErrorTexts();
    [ Check(Strip(apiKey) == "", ApiKeyMissing),
      Check(Strip(email) == "", EmailMissing),
      Check(!EmailPattern.ValidateEmail(email), EmailInvalid),
      Check(linkedinUrl != "" && !LinkedInPattern.ValidateLinkedInUrl(linkedinUrl), ContactUrlInvalid) ]
  }

  /** `field.strip() if field else None`: how an optional text box reaches
      the client. */
  function Optional(field: string): (r: Option<string>)
    ensures r.None? <==> field == ""
    ensures r.Some? ==> r.value == Strip(field)
  {
    if field == "" then None else Some(Strip(field))
  }

  /** An optional text box ends up in the request body exactly when it is
      not blank once stripped. */
  lemma OptionalGiven(field: string)
    ensures Given(Optional(field)) <==> !AllWhitespace(field)
  {
  }

  /** The lookup the company entry point hands the client once every check
      passes. */
  function CompanyQuery(domain: string, linkedinUrl: string, companyName: string, countryCode: string): (q: Lookup)
    ensures q.CompanyLookup? && q.domain == Strip(domain)
    ensures (Given(q.linkedinUrl) <==> !AllWhitespace(linkedinUrl)) && (Given(q.linkedinUrl) ==> q.linkedinUrl.value == Strip(linkedinUrl))
    ensures (Given(q.companyName) <==> !AllWhitespace(companyName)) && (Given(q.companyName) ==> q.companyName.value == Strip(companyName))
    ensures (Given(q.countryCode) <==> !AllWhitespace(countryCode)) && (Given(q.countryCode) ==> q.countryCode.value == Strip(countryCode))
  {
    OptionalGiven(linkedinUrl);
    OptionalGiven(companyName);
    OptionalGiven(countryCode);
    CompanyLookup(Strip(domain), Optional(linkedinUrl), Optional(companyName), Optional(countryCode))
  }

  /** The lookup the contact entry point hands the client. */
  function ContactQuery(email: string, linkedinUrl: string, firstName: string, lastName: string): (q: Lookup)
    ensures q.ContactLookup? && q.email == Strip(email)
    ensures (Given(q.linkedinUrl) <==> !AllWhitespace(linkedinUrl)) && (Given(q.linkedinUrl) ==> q.linkedinUrl.value == Strip(linkedinUrl))
    ensures (Given(q.firstName) <==> !AllWhitespace(firstName)) && (Given(q.firstName) ==> q.firstName.value == Strip(firstName))
    ensures (Given(q.lastName) <==> !AllWhitespace(lastName)) && (Given(q.lastName) ==> q.lastName.value == Strip(lastName))
  {
    OptionalGiven(linkedinUrl);
    OptionalGiven(firstName);
    OptionalGiven(lastName);
    ContactLookup(Strip(email), Optional(linkedinUrl), Optional(firstName), Optional(lastName))
  }

  /** What one use of an entry point produces: the display, and the request
      it sent, if it got as far as sending one. */
  datatype Session = Session(display: Display, sent: Option<Request>)

  /** `enrich_company_data`. */
  function EnrichCompanyData(apiKey: string, domain: string, linkedinUrl: string, companyName: string,
                             countryCode: string, transport: Request -> Outcome, render: Json -> string): (s: Session)
    ensures var failure := FirstFailure(CompanyChecks(apiKey, domain, linkedinUrl));
      && (s.sent.None? <==> failure.Some?)
      && (failure.Some? ==> s.display == Shown(failure.value))
    ensures s.sent.Some? ==>
      var q := CompanyQuery(domain, linkedinUrl, companyName, countryCode);
      && s.sent.value == MakeRequest(apiKey, q)
      && s.display == Format(q, Enrich(apiKey, q, transport), render)
  {
    FirstFailureOfFour(CompanyChecks(apiKey, domain, linkedinUrl)[0], CompanyChecks(apiKey, domain, linkedinUrl)[1],
                       CompanyChecks(apiKey, domain, linkedinUrl)[2], CompanyChecks(apiKey, domain, linkedinUrl)[3]);
    if Strip(apiKey) == "" then Session(Shown(ApiKeyMissing), None)
    else if Strip(domain) == "" then Session(Shown(DomainMissing), None)
    else if !DomainPattern.ValidateDomain(domain) then Session(Shown(DomainInvalid), None)
    else if linkedinUrl != "" && !LinkedInPattern.ValidateLinkedInUrl(linkedinUrl) then
      Session(Shown(CompanyUrlInvalid), None)
    else
      var q := CompanyQuery(domain, linkedinUrl, companyName, countryCode);
      Session(Format(q, Enrich(apiKey, q, transport), render), Some(MakeRequest(apiKey, q)))
  }

  /** `enrich_contact_data`. */
  function EnrichContactData(apiKey: string, email: string, linkedinUrl: string, firstName: string,
                             lastName: string, transport: Request -> Outcome, render: Json -> string): (s: Session)
    ensures var failure := FirstFailure(ContactChecks(apiKey, email, linkedinUrl));
      && (s.sent.None? <==> failure.Some?)
      && (failure.Some? ==> s.display == Shown(failure.value))
    ensures s.sent.Some? ==>
      var q := ContactQuery(email, linkedinUrl, firstName, lastName);
      && s.sent.value == MakeRequest(apiKey, q)
      && s.display == Format(q, Enrich(apiKey, q, transport), render)
  {
    FirstFailureOfFour(ContactChecks(apiKey, email, linkedinUrl)[0], ContactChecks(apiKey, email, linkedinUrl)[1],
                       ContactChecks(apiKey, email, linkedinUrl)[2], ContactChecks(apiKey, email, linkedinUrl)[3]);
    if Strip(apiKey) == "" then Session(Shown(ApiKeyMissing), None)
    else if Strip(email) == "" then Session(Shown(EmailMissing), None)
    else if !EmailPattern.ValidateEmail(email) then Session(Shown(EmailInvalid), None)
    else if linkedinUrl != "" && !LinkedInPattern.ValidateLinkedInUrl(linkedinUrl) then
      Session(Shown(ContactUrlInvalid), None)
    else
      var q := ContactQuery(email, linkedinUrl, firstName, lastName);
      Session(Format(q, Enrich(apiKey, q, transport), render), Some(MakeRequest(apiKey, q)))
  }

  /** A blank key is reported before anything else is looked at, and no
      request is sent. */
  lemma BlankKeyWins(apiKey: string, identifier: string, linkedinUrl: string, first: string, second: string,
                     transport: Request -> Outcome, render: Json -> string)
    requires AllWhitespace(apiKey)
    ensures EnrichCompanyData(apiKey, identifier, linkedinUrl, first, second, transport, render)
      == Session(Shown(ApiKeyMissing), None)
    ensures EnrichContactData(apiKey, identifier, linkedinUrl, first, second, transport, render)
      == Session(Shown(ApiKeyMissing), None)
  {
  }

  /** A domain typed with a leading space is not blank, but it fails the
      format check, which reads the text as typed. */
  lemma PaddedDomainIsInvalid(apiKey: string, linkedinUrl: string, companyName: string, countryCode: string,
                              transport: Request -> Outcome, render: Json -> string)
    requires !AllWhitespace(apiKey)
    ensures EnrichCompanyData(apiKey, " example.com", linkedinUrl, companyName, countryCode, transport, render)
      == Session(Shown(DomainInvalid), None)
  {
    var domain := " example.com";
    assert !IsWhitespace(domain[1]);
    if DomainPattern.ValidateDomain(domain) {
      DomainPattern.StrippedDomainHasShape(domain);
      DomainPattern.ShapeEnds(Strip(domain));
    }
  }

  /** The optional fields of a company lookup reach the body under the
      provider's names exactly when their text boxes are not blank, and
      nothing else does. */
  lemma CompanyBodyKeys(domain: string, linkedinUrl: string, companyName: string, countryCode: string)
    ensures var body := Body(CompanyQuery(domain, linkedinUrl, companyName, countryCode));
      && "domain" in body && body["domain"] == Strip(domain)
      && ("linkedin_url" in body <==> !AllWhitespace(linkedinUrl))
      && ("linkedin_url" in body ==> body["linkedin_url"] == Strip(linkedinUrl))
      && ("name" in body <==> !AllWhitespace(companyName))
      && ("name" in body ==> body["name"] == Strip(companyName))
      && ("country" in body <==> !AllWhitespace(countryCode))
      && ("country" in body ==> body["country"] == Strip(countryCode))
      && forall key :: key in body ==> key == "domain" || key == "linkedin_url" || key == "name" || key == "country"
  {
    CompanyBody(CompanyQuery(domain, linkedinUrl, companyName, countryCode));
  }

  lemma ContactBodyKeys(email: string, linkedinUrl: string, firstName: string, lastName: string)
    ensures var body := Body(ContactQuery(email, linkedinUrl, firstName, lastName));
      && "email" in body && body["email"] == Strip(email)
      && ("linkedin_url" in body <==> !AllWhitespace(linkedinUrl))
      && ("linkedin_url" in body ==> body["linkedin_url"] == Strip(linkedinUrl))
      && ("first_name" in body <==> !AllWhitespace(firstName))
      && ("first_name" in body ==> body["first_name"] == Strip(firstName))
      && ("last_name" in body <==> !AllWhitespace(lastName))
      && ("last_name" in body ==> body["last_name"] == Strip(lastName))
      && forall key :: key in body ==> key == "email" || key == "linkedin_url" || key == "first_name" || key == "last_name"
  {
    ContactBody(ContactQuery(email, linkedinUrl, firstName, lastName));
  }

  /** The request the company entry point sends carries the key as typed, a
      stripped domain of the accepted shape and, when present, a LinkedIn
      URL of the accepted shape. */
  lemma CompanyRequestShape(apiKey: string, domain: string, linkedinUrl: string, companyName: string,
                            countryCode: string, transport: Request -> Outcome, render: Json -> string)
    requires EnrichCompanyData(apiKey, domain, linkedinUrl, companyName, countryCode, transport, render).sent.Some?
    ensures var request := EnrichCompanyData(apiKey, domain, linkedinUrl, companyName, countryCode, transport, render).sent.value;
      && request == MakeRequest(apiKey, CompanyQuery(domain, linkedinUrl, companyName, countryCode))
      && request.headers["X-Api-Key"] == apiKey
      && DomainPattern.DomainShape(Strip(domain))
      && (!AllWhitespace(linkedinUrl) ==> LinkedInPattern.LinkedInShape(Strip(linkedinUrl)))
  {
    var checks := CompanyChecks(apiKey, domain, linkedinUrl);
    FirstFailureOfFour(checks[0], checks[1], checks[2], checks[3]);
    DomainPattern.StrippedDomainHasShape(domain);
    if linkedinUrl != "" {
      LinkedInPattern.StrippedUrlHasShape(linkedinUrl);
    }
  }

  /** The request the contact entry point sends carries the key as typed, a
      stripped email of the accepted shape and, when present, a LinkedIn
      URL of the accepted shape. */
  lemma ContactRequestShape(apiKey: string, email: string, linkedinUrl: string, firstName: string,
                            lastName: string, transport: Request -> Outcome, render: Json -> string)
    requires EnrichContactData(apiKey, email, linkedinUrl, firstName, lastName, transport, render).sent.Some?
    ensures var request := EnrichContactData(apiKey, email, linkedinUrl, firstName, lastName, transport, render).sent.value;
      && request == MakeRequest(apiKey, ContactQuery(email, linkedinUrl, firstName, lastName))
      && request.headers["X-Api-Key"] == apiKey
      && EmailPattern.EmailShape(Strip(email))
      && (!AllWhitespace(linkedinUrl) ==> LinkedInPattern.LinkedInShape(Strip(linkedinUrl)))
  {
    var checks := ContactChecks(apiKey, email, linkedinUrl);
    FirstFailureOfFour(checks[0], checks[1], checks[2], checks[3]);
    EmailPattern.StrippedEmailHasShape(email);
    if linkedinUrl != "" {
      LinkedInPattern.StrippedUrlHasShape(linkedinUrl);
    }
  }

  /** A call that fails in transport is shown as the failure mark and the
      transport's message; it never raises. */
  lemma TransportFailureShown(apiKey: string, domain: string, linkedinUrl: string, companyName: string,
                              countryCode: string, transport: Request -> Outcome, render: Json -> string, reason: string)
    requires FirstFailure(CompanyChecks(apiKey, domain, linkedinUrl)).None?
    requires transport(MakeRequest(apiKey, CompanyQuery(domain, linkedinUrl, companyName, countryCode))) == RequestFailed(reason)
    ensures EnrichCompanyData(apiKey, domain, linkedinUrl, companyName, countryCode, transport, render).display
      == Shown(FailureMark + RequestFailedPrefix + reason)
  {
  }

  /** The organisation the example response carries. */
  const ExampleOrganisation: map<string, Json> := map["name" := Str("Example Corp"), "domain" := Str("example.com")]

  lemma ExampleOrganisationKeys()
    ensures "name" in ExampleOrganisation && ExampleOrganisation["name"] == Str("Example Corp")
    ensures "website_url" !in ExampleOrganisation
  {
  }

  /** The example organisation renders on single lines when its domain does. */
  lemma ExampleOrganisationSingleLine(render: Json -> string)
    requires render(Str("Example Corp")) == "Example Corp"
    requires NoNewline(render(Str("example.com")))
    ensures DataSingleLine(CompanyFields, ExampleOrganisation, render)
  {
    assert NoNewline("Example Corp");
    assert ExampleOrganisation.Keys == {"name", "domain"};
  }

  /** A successful company result whose data has a name but no website is
      shown with the name on the first bullet line and the fallback on the
      third. */
  lemma ReportShowsNameAndFallback(q: Lookup, result: EnrichResult, render: Json -> string)
    requires q.CompanyLookup? && result.status == Success && result.data.Object?
    requires NoNewline(result.message)
    requires "name" in result.data.fields && "website_url" !in result.data.fields
    requires DataSingleLine(CompanyFields, result.data.fields, render)
    ensures var display := Format(q, result, render);
      && display.Shown?
      && |Lines(display.text)| == 12
      && Lines(display.text)[3] == Bullet("Name", render(result.data.fields["name"]))
      && Lines(display.text)[5] == Bullet("Website", Fallback)
  {
    CompanyReportNeverRaises(q, result, render);
    BulletLine(q, result, render, 0);
    BulletLine(q, result, render, 2);
  }

  /** The example lookup passes every check and sends its request. */
  lemma ExampleCorpSent(apiKey: string, transport: Request -> Outcome, render: Json -> string)
    requires !AllWhitespace(apiKey)
    ensures var q := CompanyLookup("example.com", None, None, None);
      var session := EnrichCompanyData(apiKey, "example.com", "", "", "", transport, render);
      && session.sent == Some(MakeRequest(apiKey, q))
      && session.display == Format(q, Normalise(q, transport(MakeRequest(apiKey, q))), render)
  {
    DomainPattern.AcceptsExample();
    StripTrailingNewline("example.com");
    var checks := CompanyChecks(apiKey, "example.com", "");
    FirstFailureOfFour(checks[0], checks[1], checks[2], checks[3]);
    assert CompanyQuery("example.com", "", "", "") == CompanyLookup("example.com", None, None, None);
  }

  /** A 200 response whose organisation has only a name and a domain is
      reported with the name on the first bullet line and the fallback for
      the website. */
  lemma ExampleCorpReport(apiKey: string, text: string, transport: Request -> Outcome, render: Json -> string)
    requires !AllWhitespace(apiKey)
    requires transport(MakeRequest(apiKey, CompanyLookup("example.com", None, None, None)))
      == Http(200, text, Parsed(Object(map["organization" := Object(ExampleOrganisation)])))
    requires render(Str("Example Corp")) == "Example Corp"
    requires NoNewline(render(Str("example.com")))
    ensures var display := EnrichCompanyData(apiKey, "example.com", "", "", "", transport, render).display;
      && display.Shown?
      && |Lines(display.text)| == 12
      && Lines(display.text)[3] == Bullet("Name", "Example Corp")
      && Lines(display.text)[5] == Bullet("Website", Fallback)
  {
    ExampleCorpSent(apiKey, transport, render);
    var q := CompanyLookup("example.com", None, None, None);
    var result := Normalise(q, transport(MakeRequest(apiKey, q)));
    assert result.status == Success && result.data == Object(ExampleOrganisation);
    assert result.message == SuccessMessage(q);
    SuccessMessageSingleLine(q);
    ExampleOrganisationKeys();
    ExampleOrganisationSingleLine(render);
    ReportShowsNameAndFallback(q, result, render);
  }
}
