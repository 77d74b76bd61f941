# Apollo data enrichment: the checking, request and report logic

This project models the logic of the Apollo data-enrichment tool that
does not depend on the web interface or the network:

- **The three input validators.** `validate_domain`, `validate_email` and
  `validate_linkedin_url` each wrap one anchored regular expression. Each
  pattern is implemented as a recogniser: a character automaton for domains
  and e-mail addresses, and a staged parser for LinkedIn URLs. Each is then
  proved equal, on every string, to a declarative description of the
  strings it accepts.
- **The API-key sanity check** `validate_api_key`.
- **The enrichment client** `ApolloAPI`:
  - the JSON body it posts: the identifier, plus each optional field that
    was given, under the provider's field names;
  - the uniform `{status, data, message}` result it makes of whatever the
    HTTP call produced. That can be a response with a status and a body, a
    `requests` exception, or any other exception.
- **The two entry points** `enrich_company_data` and `enrich_contact_data`:
  - an ordered list of pre-flight checks, where the first failing check
    decides the error text and no request is sent;
  - the call through the client;
  - the Markdown report built from a fixed, ordered list of fields with
    `N/A` fallbacks.

Python's `str.strip()` is modelled with Python's own whitespace set.
Python's `re.match` with a pattern ending in `$` also accepts one final
newline after the match; the model follows that (`Text.AnchoredAt`). The
entry points strip the identifier before sending it. A proof shows that this
stripping removes exactly that newline, so the identifier that is sent has
the validated shape.

Two parameters stand for what cannot be modelled:
- the HTTP call is `transport: Request -> Outcome`;
- Python's `str()` of a decoded JSON value is `render: Json -> string`.

Modules: `Wrappers`, `Text`, `DomainPattern`, `EmailPattern`,
`LinkedInPattern`, `ApiKeyCheck`, `JsonValue`, `Client`, `Report`, `App`.

### Where the code and its description differ

The model follows the code in each case:

- **The `N/A` fallback.** A report line shows `N/A` only when the key is
  absent from the payload. A key that is present with a falsy value (`null`,
  `""`, `0`) shows that value's rendering. The code uses `dict.get(key,
  'N/A')` (`Report.PlainLine`).
- **Domain labels ending in a hyphen.** The domain pattern accepts a label
  that ends in `-` when the label is shorter than 63 characters (`a-.com`).
  The optional last character class is only forced once the `{0,61}`
  repetition is used up (`DomainPattern.IsLabel`).
- **A 200 response whose body is not JSON.** `response.json()` raises. With
  `requests` 2.27 or later, the exception it raises is a `RequestException`,
  so the result is a `Request failed:` error.
- **A 200 response whose JSON is not an object.** `.get` raises an
  `AttributeError`, reported as `Unexpected error: '<type>' object has no
  attribute 'get'`.
- **Exceptions in the formatting code.** The formatting code can raise on
  unexpected payloads, and the entry points do not catch those exceptions.
  Such a run ends in `Report.Display.Raised` rather than in text.

## Model

| member | source | states |
|---|---|---|
| Text.Strip | apollo_enrichment_app.py:143-147 | The result is the input minus the whitespace before its first and after its last non-whitespace character, with Python's `isspace` set. It neither starts nor ends with whitespace. It is empty exactly when the input is all whitespace. |
| Text.StripIdempotent | apollo_config.py:17 | Stripping twice gives what stripping once gives. |
| Text.StripTrailingNewline | apollo_enrichment_app.py:157 | A string with non-whitespace ends is unchanged by stripping, and stripping removes one newline appended to it. |
| DomainPattern.RecogniserMatchesShape | apollo_enrichment_app.py:120-121 | The automaton accepts a string exactly when it is a label, one dot and a top-level part. The label has 1-63 characters from `[A-Za-z0-9-]`, starts with a letter or digit, and ends with one when it is 63 long. The top-level part has at least two ASCII letters. |
| DomainPattern.ValidateDomain | apollo_enrichment_app.py:116-121 | A domain is accepted exactly when it is a string of the domain shape, possibly followed by one newline. The empty string is rejected. |
| DomainPattern.ValidDomainHasOneDot | apollo_enrichment_app.py:120 | Every accepted domain contains exactly one dot. |
| DomainPattern.RejectsSubdomain | apollo_enrichment_app.py:120 | `sub.example.com` is rejected. |
| DomainPattern.AcceptsExample | apollo_enrichment_app.py:120-121 | `example.com` is accepted. |
| DomainPattern.ShapeEnds | apollo_enrichment_app.py:120 | A string of the domain shape starts with a letter or digit and ends with a letter. |
| DomainPattern.StrippedDomainHasShape | apollo_enrichment_app.py:149-157 | Stripping an accepted domain gives the matched text itself, which has the domain shape. |
| EmailPattern.RecogniserMatchesShape | apollo_enrichment_app.py:127-128 | The automaton accepts a string exactly when it has this shape: a non-empty local part over `[A-Za-z0-9._%+-]`, an `@`, a non-empty host run over `[A-Za-z0-9.-]`, a dot, then at least two ASCII letters. |
| EmailPattern.ValidateEmail | apollo_enrichment_app.py:123-128 | An address is accepted exactly when it is a string of the e-mail shape, possibly followed by one newline. The empty string is rejected. |
| EmailPattern.ShapeParts | apollo_enrichment_app.py:127 | In a string of the e-mail shape, the `@` is the only one. Everything after it is a host character. No dot follows the dot before the final letters. |
| EmailPattern.ValidEmailHasOneAt | apollo_enrichment_app.py:127-128 | Every accepted address has exactly one `@`, preceded by a non-empty local part. |
| EmailPattern.AcceptsShortAddress | apollo_enrichment_app.py:127-128 | `a@b.co` is accepted. |
| EmailPattern.RejectsNoAt | apollo_enrichment_app.py:127-128 | `not-an-email` is rejected. |
| EmailPattern.ShapeEnds | apollo_enrichment_app.py:127 | A string of the e-mail shape starts with a local-part character and ends with a letter. |
| EmailPattern.StrippedEmailHasShape | apollo_enrichment_app.py:191-199 | Stripping an accepted address gives the matched text itself, which has the e-mail shape. |
| LinkedInPattern.ParsePrint | apollo_enrichment_app.py:135 | Parsing the printed form of any profile URL (scheme, optional `www.`, `in` or `company`, a non-empty slug, optional slash) gives back that URL. |
| LinkedInPattern.ParseSound | apollo_enrichment_app.py:135 | Whatever the parser accepts is the printed form of the URL it returns, and that URL's slug is non-empty over `[A-Za-z0-9-]`. |
| LinkedInPattern.RecogniserMatchesShape | apollo_enrichment_app.py:135-136 | The parser accepts exactly the printed forms of profile URLs with a valid slug. |
| LinkedInPattern.ValidateLinkedInUrl | apollo_enrichment_app.py:130-136 | The empty string is accepted. Any other string is accepted exactly when it is a printed profile URL, possibly followed by one newline. |
| LinkedInPattern.ShapeCharacters | apollo_enrichment_app.py:135 | A printed profile URL starts with `h`, ends with a slug character or `/`, and contains only letters, digits, `-`, `:`, `/` and `.`. |
| LinkedInPattern.ShapeEnds | apollo_enrichment_app.py:135 | A printed profile URL has no whitespace at either end. |
| LinkedInPattern.StrippedUrlHasShape | apollo_enrichment_app.py:152-158 | Stripping a non-empty accepted URL gives the matched printed URL itself. |
| LinkedInPattern.AcceptsPersonProfile | apollo_enrichment_app.py:135-136 | `https://linkedin.com/in/janedoe` is accepted. |
| LinkedInPattern.RejectsForeignCharacter | apollo_enrichment_app.py:135-136 | Any URL holding a character other than a letter, digit, `-`, `:`, `/` or `.` is rejected, unless that character is a final newline. |
| LinkedInPattern.RejectsUrlWithSpace | apollo_enrichment_app.py:135-136 | Any URL containing a space is rejected. |
| LinkedInPattern.RejectsOtherScheme | apollo_enrichment_app.py:135-136 | Any non-empty URL whose first character is not `h` is rejected. |
| LinkedInPattern.RejectsFtpUrl | apollo_enrichment_app.py:135-136 | Any URL starting with `ftp://` is rejected. |
| LinkedInPattern.RejectsSpaceInSlug | apollo_enrichment_app.py:135-136 | `https://linkedin.com/in/jane doe` is rejected. |
| LinkedInPattern.RejectsFtpScheme | apollo_enrichment_app.py:135-136 | `ftp://linkedin.com/in/jane` is rejected. |
| ApiKeyCheck.ValidateApiKey | apollo_config.py:13-19 | A key is accepted exactly when at least ten characters remain after stripping. The empty key is rejected. |
| ApiKeyCheck.RejectsBlankKey | apollo_config.py:17 | A key of whitespace only is rejected, however long it is. |
| ApiKeyCheck.IgnoresSurroundingWhitespace | apollo_config.py:17 | A key and its stripped form get the same verdict. |
| ApiKeyCheck.AcceptedKeyIsNotBlank | apollo_config.py:17-19 | An accepted key is not blank once stripped, so it passes the entry points' first check. |
| Client.Body | apollo_enrichment_app.py:27-37 | The body always carries the identifier under `domain` or `email`. Each optional field is present under its provider name exactly when its argument is a non-empty string, and then carries that string. There are no other keys. |
| Client.CompanyBody | apollo_enrichment_app.py:27-37 | A company body carries `domain`. It carries `linkedin_url`, `name` and `country` exactly when the matching argument is a non-empty string, each holding that string. There are no other keys. |
| Client.ContactBody | apollo_enrichment_app.py:75-85 | A contact body carries `email`. It carries `linkedin_url`, `first_name` and `last_name` exactly when the matching argument is a non-empty string, each holding that string. There are no other keys. |
| Client.MakeRequest | apollo_enrichment_app.py:11-18 | A request goes to `/organizations/enrich` or `/people/match` under `https://api.apollo.io/api/v1`. It has exactly the headers `Content-Type: application/json`, `Cache-Control: no-cache` and `X-Api-Key`, the last holding the key as given. Its body carries the identifier. |
| Client.EndpointTellsKind | apollo_enrichment_app.py:26-74 | Two requests go to the same URL exactly when they are for the same kind of lookup. |
| Client.Normalise | apollo_enrichment_app.py:41-66 | Status 200 with a JSON object gives success with the fixed message, and the `organization` or `person` sub-object or `{}`. Every other outcome gives an error with `{}` and a non-empty message: `API Error: <code> - <body>` for another status, `Request failed: <text>` for a transport failure or for a 200 body that is not JSON, `Unexpected error: '<type>' object has no attribute 'get'` for a 200 body whose JSON is not an object, and `Unexpected error: <text>` for any other exception. |
| Client.Enrich | apollo_enrichment_app.py:20-66 | A client call succeeds exactly when the transport answers its request with status 200 and a JSON object. It then carries the fixed success message. Otherwise it carries `{}` and a non-empty message. |
| Client.ApiErrorReadable | apollo_enrichment_app.py:48-53 | The message for a non-200 response can be read back, and gives that status code and body text. |
| Client.SuccessMessageSingleLine | apollo_enrichment_app.py:46 | The success messages contain no newline. |
| Report.Bullets | apollo_enrichment_app.py:166-175 | When no field raises, there is one bullet per field, in order, each showing its caption and its value. Otherwise the result is the exception of the first field that raises. |
| Report.FieldValue | apollo_enrichment_app.py:163-176 | A plain lookup or a joined group of lookups never raises. Only the contact's company and phone lines can raise. |
| Report.Format | apollo_enrichment_app.py:163-178 | An error result is shown as the failure mark followed by its message. A result raises exactly when it is a success whose data is not an object, or when some field's value raises. |
| Report.CompanyReportNeverRaises | apollo_enrichment_app.py:163-176 | A successful company result whose data is an object is always shown, never raised. |
| Report.FormatError | apollo_enrichment_app.py:177-178 | An error result is shown as the failure mark followed by its message. |
| Report.FormatLines | apollo_enrichment_app.py:163-176 | Read back line by line, a shown success report is: the success mark with the message, an empty line, the heading, then one bullet per field, nine in all. This holds when the message has no newline, and no value a report line shows renders with one. |
| Report.BulletLine | apollo_enrichment_app.py:205-218 | Line `3 + i` of a shown success report is the bullet of field `i`. This holds under the same no-newline condition as `Report.FormatLines`. |
| Report.PlainLine | apollo_enrichment_app.py:167-175 | A plain line of a shown success report shows the rendered value whenever its key is present, however falsy the value. It shows `N/A` only when the key is absent. This holds under the same no-newline condition as `Report.FormatLines`. |
| Report.OrganisationLine | apollo_enrichment_app.py:213 | The contact's company shows `N/A` when `organization` is absent or falsy. When it is a non-empty dict, it shows that dict's `name`, or `N/A` if there is none. It raises exactly when it is truthy and not a dict. |
| Report.PhoneLine | apollo_enrichment_app.py:215 | The phone shows `N/A` when `phone_numbers` is absent or falsy. Any other value it shows comes from the `raw_number` of the first entry of a non-empty list of dicts. It raises exactly when the value is truthy and not a list whose first entry is a dict. |
| Report.JoinThree | apollo_enrichment_app.py:173 | Three lookups joined show each lookup, in order, with the separator between neighbours. |
| Report.JoinedLines | apollo_enrichment_app.py:209-214 | For any data, the location line is the city, state and country lookups joined by `, `, and the contact's name line is the first-name and last-name lookups joined by a space. Each part falls back to `N/A` on its own. |
| Report.EmptyDataFallsBack | apollo_enrichment_app.py:209-217 | With empty data every single lookup shows `N/A`, the location shows `N/A, N/A, N/A` and the contact name shows `N/A N/A`. |
| App.FirstFailure | apollo_enrichment_app.py:143-153 | The result is nothing exactly when no check fails. Otherwise it is the error of the first failing check. |
| App.FirstFailureOfFour | apollo_enrichment_app.py:185-195 | For four checks, the result is found by testing them in order. |
| App.CompanyChecks | apollo_enrichment_app.py:143-153 | There are four company checks, in order. They fail on a blank key, a blank domain, a domain as typed that does not match the domain shape, and a non-empty LinkedIn URL that does not match the profile shape. Their errors are distinct and all start with the failure mark. |
| App.ContactChecks | apollo_enrichment_app.py:185-195 | There are four contact checks, in order. They fail on a blank key, a blank email, an address as typed that does not match the e-mail shape, and a non-empty LinkedIn URL that does not match the profile shape. Their errors are distinct and all start with the failure mark. |
| App.ErrorTexts | apollo_enrichment_app.py:144-195 | Every pre-flight error starts with the failure mark, and the company and contact errors all differ in length. |
| App.OptionalGiven | apollo_enrichment_app.py:158-160 | An optional text box counts as given exactly when it is not all whitespace. |
| App.CompanyQuery | apollo_enrichment_app.py:156-161 | The company lookup carries the stripped domain. Each optional field counts as given exactly when its text box is not blank, and then holds the stripped text. |
| App.ContactQuery | apollo_enrichment_app.py:198-203 | The contact lookup carries the stripped email. Each optional field counts as given exactly when its text box is not blank, and then holds the stripped text. |
| App.EnrichCompanyData | apollo_enrichment_app.py:138-178 | A request is sent exactly when none of the four ordered checks fails: blank key, blank domain, invalid domain as typed, non-empty invalid LinkedIn URL. Otherwise the first failure's text is shown. When a request is sent, it carries the stripped lookup, and the report of its normalised outcome is shown. |
| App.EnrichContactData | apollo_enrichment_app.py:180-220 | The same for contacts: blank key, blank email, invalid email as typed, non-empty invalid LinkedIn URL, then the request and its report. |
| App.BlankKeyWins | apollo_enrichment_app.py:143-144 | A blank key gives the missing-key error before anything else is looked at, and no request is sent. |
| App.PaddedDomainIsInvalid | apollo_enrichment_app.py:146-150 | ` example.com` is not blank but fails the format check, so the invalid-domain error is shown and nothing is sent. |
| App.CompanyBodyKeys | apollo_enrichment_app.py:155-161 | The company body carries the stripped domain. It carries `linkedin_url`, `name` and `country` exactly when the matching text box is not blank, each holding the stripped text. There are no other keys. |
| App.ContactBodyKeys | apollo_enrichment_app.py:197-203 | The contact body carries the stripped email. It carries `linkedin_url`, `first_name` and `last_name` exactly when the matching text box is not blank, each holding the stripped text. There are no other keys. |
| App.CompanyRequestShape | apollo_enrichment_app.py:149-161 | A sent company request carries the key as typed, a domain of the accepted shape and, when present, a LinkedIn URL of the accepted shape. |
| App.ContactRequestShape | apollo_enrichment_app.py:191-203 | A sent contact request carries the key as typed, an address of the accepted shape and, when present, a LinkedIn URL of the accepted shape. |
| App.TransportFailureShown | apollo_enrichment_app.py:55-60 | When the checks pass and the call fails in transport, the shown text is the failure mark, `Request failed: ` and the failure text. |
| App.ExampleCorpSent | apollo_enrichment_app.py:143-161 | `example.com` with a non-blank key and no optional fields passes the checks. It sends the request for exactly that domain. |
| App.ReportShowsNameAndFallback | apollo_enrichment_app.py:163-176 | A successful company report whose data has a name but no website has twelve lines. The first bullet is the name, and the website shows `N/A`. This holds when the message has no newline, and no value a company line shows renders with one. |
| App.ExampleCorpReport | apollo_enrichment_app.py:138-176 | A 200 response with the organisation `{name: "Example Corp", domain: "example.com"}` is reported with `• **Name:** Example Corp` and `• **Website:** N/A`. This holds when `Example Corp` renders as itself and `example.com` renders without a newline. |

## Left out

- The Gradio interface (`create_interface` and the script entry,
  apollo_enrichment_app.py:222-383): widget wiring with no logic.
- The HTTP call and the JSON decoding of the response. The call is the
  parameter `transport`. Its result is an `Outcome`, which carries the status
  code, the body text and the decoded JSON (or the decoding error).
- Python's `str()` of decoded values and of exceptions. The first is the
  parameter `render`. The second is the opaque `reason` text of an outcome.
  The exception a formatting failure raises is recorded by its class only,
  not its message.
- `requests` versions before 2.27: there, a 200 response whose body is not
  JSON raises a plain `ValueError`, which would give an `Unexpected error:`
  message.
- JSON floating-point numbers: numbers are integers in `JsonValue.Json`.
- `get_apollo_api_key` (apollo_config.py:7-11): a read of an environment
  variable.
- run_app.py: a process launcher.
- Unicode handling beyond Python's fixed whitespace set for `strip()`.
- Report.FormatLines: the line-by-line reading of a report assumes that
  the message has no newline, and that no value a report line shows renders
  with one (`Report.DataSingleLine`). Values no line shows are not
  constrained. Without that
  assumption a report still equals the joined lines, but splitting it back
  into lines no longer recovers them.
- Report.BulletLine: the same no-newline condition as `Report.FormatLines`.
- Report.PlainLine: the same no-newline condition as `Report.FormatLines`.
- App.ReportShowsNameAndFallback: the same no-newline condition as
  `Report.FormatLines`.
- App.ExampleCorpReport: assumes `str()` gives `Example Corp` for that
  string and no newline for `example.com`, since `render` is a parameter.
