/** The optional LinkedIn URL check (`validate_linkedin_url`,
    apollo_enrichment_app.py:130-136).

    The pattern `https?://(www\.)?linkedin\.com/(in|company)/[A-Za-z0-9-]+/?`
    is implemented here as a parser (`Parse`) that returns the parts of the
    URL, and stated declaratively as `LinkedInShape`, the strings `Print`
    produces from well-formed parts; `ParseSound` and `ParsePrint` prove the
    two are inverse to each other. */
module LinkedInPattern {
  import opened Text
  import opened Wrappers

  /** The `in` (person) or `company` path segment. */
  datatype ProfileKind = Person | Organisation

  /** The parts a matching URL is made of. */
  datatype ProfileUrl = ProfileUrl(
    secure: bool,          // `https` rather than `http`
    www: bool,             // the optional `www.` before the host
    kind: ProfileKind,
    slug: string,
    trailingSlash: bool)

  predicate IsSlug(s: string) {
    |s| >= 1 && forall k :: 0 <= k < |s| ==> IsAlnumOrHyphen(s[k])
  }

  function Scheme(secure: bool): string {
    if secure then "https://" else "http://"
  }

  function WwwPrefix(www: bool): string {
    if www then "www." else ""
  }

  function Segment(kind: ProfileKind): string {
    match kind
    case Person => "in"
    case Organisation => "company"
  }

  function Trailer(trailingSlash: bool): string {
    if trailingSlash then "/" else ""
  }

  /** The text of the URL made of the parts `u`. */
  function Print(u: ProfileUrl): string {
    Scheme(u.secure) + (WwwPrefix(u.www) + ("linkedin.com/" + (Segment(u.kind) + "/" + (u.slug + Trailer(u.trailingSlash)))))
  }

  /** The strings the LinkedIn pattern matches from first to last character. */
  ghost predicate LinkedInShape(s: string) {
    exists u: ProfileUrl :: IsSlug(u.slug) && Print(u) == s
  }

  /** `https://` or `http://`, and what follows it. */
  function ParseScheme(s: string): Option<(bool, string)> {
    if "https://" <= s then Some((true, s[8..]))
    else if "http://" <= s then Some((false, s[7..]))
    else None
  }

  lemma SchemeSound(s: string)
    requires ParseScheme(s).Some?
    ensures s == Scheme(ParseScheme(s).value.0) + ParseScheme(s).value.1
  {
  }

  lemma SchemeRoundTrip(secure: bool, t: string)
    ensures ParseScheme(Scheme(secure) + t) == Some((secure, t))
  {
    var s := Scheme(secure) + t;
    if !secure {
      assert s[4] == ':';
    }
  }

  /** The optional `www.`, and what follows it. */
  function ParseWww(s: string): (bool, string) {
    if "www." <= s then (true, s[4..]) else (false, s)
  }

  lemma WwwSound(s: string)
    ensures s == WwwPrefix(ParseWww(s).0) + ParseWww(s).1
  {
  }

  lemma WwwRoundTrip(www: bool, t: string)
    requires t != [] && t[0] == 'l'
    ensures ParseWww(WwwPrefix(www) + t) == (www, t)
  {
    var s := WwwPrefix(www) + t;
    if !www {
      assert s == t;
      assert s[0] == 'l';
    } else {
      assert "www." <= s;
      assert s[4..] == t;
    }
  }

  /** `in/` or `company/`, and what follows it. */
  function ParseKind(s: string): Option<(ProfileKind, string)> {
    if "in/" <= s then Some((Person, s[3..]))
    else if "company/" <= s then Some((Organisation, s[8..]))
    else None
  }

  lemma KindSound(s: string)
    requires ParseKind(s).Some?
    ensures s == Segment(ParseKind(s).value.0) + "/" + ParseKind(s).value.1
  {
  }

  lemma KindRoundTrip(kind: ProfileKind, t: string)
    ensures ParseKind(Segment(kind) + "/" + t) == Some((kind, t))
  {
    var s := Segment(kind) + "/" + t;
    if kind == Organisation {
      assert s[0] == 'c';
    }
  }

  /** The number of slug characters `s` starts with. */
  function SlugLength(s: string): (n: nat)
    ensures n <= |s|
    ensures forall k :: 0 <= k < n ==> IsAlnumOrHyphen(s[k])
    ensures n < |s| ==> !IsAlnumOrHyphen(s[n])
  {
    if s != [] && IsAlnumOrHyphen(s[0]) then 1 + SlugLength(s[1..]) else 0
  }

  /** A non-empty slug followed by at most a slash and nothing else. */
  function ParseSlug(s: string): Option<(string, bool)> {
    var n := SlugLength(s);
    if n == 0 then None
    else if s[n..] == "" then Some((s[..n], false))
    else if s[n..] == "/" then Some((s[..n], true))
    else None
  }

  lemma SlugSound(s: string)
    requires ParseSlug(s).Some?
    ensures IsSlug(ParseSlug(s).value.0)
    ensures s == ParseSlug(s).value.0 + Trailer(ParseSlug(s).value.1)
  {
    var n := SlugLength(s);
    assert s == s[..n] + s[n..];
  }

  /** A slug followed by at most a slash is read up to the slash. */
  lemma {:induction false} SlugLengthOf(slug: string, trailer: string)
    requires IsSlug(slug) && (trailer == "" || trailer == "/")
    ensures SlugLength(slug + trailer) == |slug|
    decreases |slug|
  {
    if |slug| > 1 {
      assert (slug + trailer)[1..] == slug[1..] + trailer;
      SlugLengthOf(slug[1..], trailer);
    }
  }

  lemma SlugRoundTrip(slug: string, trailingSlash: bool)
    requires IsSlug(slug)
    ensures ParseSlug(slug + Trailer(trailingSlash)) == Some((slug, trailingSlash))
  {
    var s := slug + Trailer(trailingSlash);
    SlugLengthOf(slug, Trailer(trailingSlash));
    assert s[..|slug|] == slug;
    assert s[|slug|..] == Trailer(trailingSlash);
  }

  /** The parts of `s` if the pattern matches all of it, otherwise `None`. */
  function Parse(s: string): Option<ProfileUrl> {
    match ParseScheme(s)
    case None => None
    case Some((secure, afterScheme)) =>
      var (www, host) := ParseWww(afterScheme);
      if !("linkedin.com/" <= host) then None
      else
        match ParseKind(host[13..])
        case None => None
        case Some((kind, rest)) =>
          match ParseSlug(rest)
          case None => None
          case Some((slug, trailingSlash)) => Some(ProfileUrl(secure, www, kind, slug, trailingSlash))
  }

  /** Whatever the parser returns is well formed and prints back as the input. */
  lemma ParseSound(s: string)
    requires Parse(s).Some?
    ensures IsSlug(Parse(s).value.slug)
    ensures Print(Parse(s).value) == s
  {
    SchemeSound(s);
    var (secure, afterScheme) := ParseScheme(s).value;
    WwwSound(afterScheme);
    var (www, host) := ParseWww(afterScheme);
    var path := host[13..];
    assert host == "linkedin.com/" + path;
    KindSound(path);
    var (kind, rest) := ParseKind(path).value;
    SlugSound(rest);
  }

  /** Parsing the text of well-formed parts gives back those parts. */
  lemma ParsePrint(u: ProfileUrl)
    requires IsSlug(u.slug)
    ensures Parse(Print(u)) == Some(u)
  {
    var rest := u.slug + Trailer(u.trailingSlash);
    var path := Segment(u.kind) + "/" + rest;
    var host := "linkedin.com/" + path;
    var afterScheme := WwwPrefix(u.www) + host;
    SchemeRoundTrip(u.secure, afterScheme);
    WwwRoundTrip(u.www, host);
    assert host[13..] == path;
    KindRoundTrip(u.kind, rest);
    SlugRoundTrip(u.slug, u.trailingSlash);
  }

  /** The parser accepts exactly the strings of the declared shape. */
  lemma RecogniserMatchesShape(s: string)
    ensures Parse(s).Some? <==> LinkedInShape(s)
  {
    if Parse(s).Some? {
      ParseSound(s);
    }
    if LinkedInShape(s) {
      var u: ProfileUrl :| IsSlug(u.slug) && Print(u) == s;
      ParsePrint(u);
    }
  }

  /** `validate_linkedin_url`: the empty string is accepted because the field
      is optional; otherwise whether the pattern matches, where Python's `$`
      also matches just before a final newline. */
  function ValidateLinkedInUrl(url: string): (ok: bool)
    ensures ok <==> url == "" || exists d :: AnchoredAt(url, d) && LinkedInShape(d)
  {
    if url == "" then true
    else
      var chomped := url[..|url| - 1];
      RecogniserMatchesShape(url);
      RecogniserMatchesShape(chomped);
      assert AnchoredAt(url, url);
      assert url[|url| - 1] == '\n' ==> AnchoredAt(url, chomped);
      Parse(url).Some? || (url[|url| - 1] == '\n' && Parse(chomped).Some?)
  }

  /** The characters a matching URL is made of. */
  predicate IsUrlChar(c: char) {
    IsAlnumOrHyphen(c) || c == ':' || c == '/' || c == '.'
  }

  predicate AllUrlChars(s: string) {
    forall k :: 0 <= k < |s| ==> IsUrlChar(s[k])
  }

  lemma UrlCharsConcat(a: string, b: string)
    requires AllUrlChars(a) && AllUrlChars(b)
    ensures AllUrlChars(a + b)
  {
    forall k | 0 <= k < |a + b| ensures IsUrlChar((a + b)[k]) {
      if k < |a| { assert (a + b)[k] == a[k]; } else { assert (a + b)[k] == b[k - |a|]; }
    }
  }

  /** A matching URL starts with `h`, ends with a slug character or a slash,
      and consists of letters, digits, `-`, `:`, `/` and `.` only. */
  lemma ShapeCharacters(u: ProfileUrl)
    requires IsSlug(u.slug)
    ensures var s := Print(u); s[0] == 'h' && (IsAlnumOrHyphen(s[|s| - 1]) || s[|s| - 1] == '/')
    ensures AllUrlChars(Print(u))
  {
    var tail := u.slug + Trailer(u.trailingSlash);
    UrlCharsConcat(u.slug, Trailer(u.trailingSlash));
    var path := Segment(u.kind) + "/" + tail;
    assert AllUrlChars(Segment(u.kind) + "/");
    UrlCharsConcat(Segment(u.kind) + "/", tail);
    assert AllUrlChars("linkedin.com/");
    UrlCharsConcat("linkedin.com/", path);
    var host := "linkedin.com/" + path;
    UrlCharsConcat(WwwPrefix(u.www), host);
    var after := WwwPrefix(u.www) + host;
    UrlCharsConcat(Scheme(u.secure), after);
    var s := Print(u);
    assert s == Scheme(u.secure) + after;
    assert s[|s| - 1] == tail[|tail| - 1];
  }

  /** Neither end of a slug character or a slash is whitespace. */
  lemma EndCharacters(c: char)
    requires IsAlnumOrHyphen(c) || c == '/' || c == 'h'
    ensures !IsWhitespace(c)
  {
  }

  /** A matching URL has no whitespace at either end. */
  lemma ShapeEnds(d: string)
    requires LinkedInShape(d)
    ensures d != [] && !IsWhitespace(d[0]) && !IsWhitespace(d[|d| - 1])
  {
    var u: ProfileUrl :| IsSlug(u.slug) && Print(u) == d;
    ShapeCharacters(u);
    EndCharacters(d[0]);
    EndCharacters(d[|d| - 1]);
  }

  /** Stripping a non-empty accepted URL, as the entry points do before
      sending it, leaves the matched text itself. */
  lemma StrippedUrlHasShape(url: string)
    requires url != "" && ValidateLinkedInUrl(url)
    ensures LinkedInShape(Strip(url))
    ensures AnchoredAt(url, Strip(url))
  {
    var d :| AnchoredAt(url, d) && LinkedInShape(d);
    ShapeEnds(d);
    StripTrailingNewline(d);
  }

  lemma AcceptsPersonProfile()
    ensures ValidateLinkedInUrl("https://linkedin.com/in/janedoe")
  {
    var u := ProfileUrl(true, false, Person, "janedoe", false);
    assert IsSlug(u.slug);
    assert Print(u) == "https://linkedin.com/in/janedoe";
    assert AnchoredAt(Print(u), Print(u));
  }

  lemma ShapeUrlChars(d: string)
    requires LinkedInShape(d)
    ensures AllUrlChars(d)
  {
    var u: ProfileUrl :| IsSlug(u.slug) && Print(u) == d;
    ShapeCharacters(u);
  }

  /** A URL holding, anywhere but in a final newline, a character no
      matching URL contains is rejected. */
  lemma RejectsForeignCharacter(url: string, k: int)
    requires 0 <= k < |url| && !IsUrlChar(url[k]) && !(url[k] == '\n' && k == |url| - 1)
    ensures !ValidateLinkedInUrl(url)
  {
    if ValidateLinkedInUrl(url) {
      var d :| AnchoredAt(url, d) && LinkedInShape(d);
      ShapeUrlChars(d);

    }
  }

  /** A URL with a space anywhere is rejected. */
  lemma RejectsUrlWithSpace(url: string)
    requires ' ' in url
    ensures !ValidateLinkedInUrl(url)
  {
    var k :| 0 <= k < |url| && url[k] == ' ';
    RejectsForeignCharacter(url, k);
  }

  /** A non-empty URL that does not start with `h` is rejected, whatever
      scheme it names. */
  lemma RejectsOtherScheme(url: string)
    requires url != "" && url[0] != 'h'
    ensures !ValidateLinkedInUrl(url)
  {
    if ValidateLinkedInUrl(url) {
      var d :| AnchoredAt(url, d) && LinkedInShape(d);
      var u: ProfileUrl :| IsSlug(u.slug) && Print(u) == d;
      ShapeCharacters(u);
    }
  }

  /** Every `ftp://` URL is rejected. */
  lemma RejectsFtpUrl(url: string)
    requires "ftp://" <= url
    ensures !ValidateLinkedInUrl(url)
  {
    assert url[0] == "ftp://"[0];
    RejectsOtherScheme(url);
  }

  lemma RejectsSpaceInSlug()
    ensures !ValidateLinkedInUrl("https://linkedin.com/in/jane doe")
  {
    var s := "https://linkedin.com/in/jane doe";
    assert s[28] == ' ';
    RejectsUrlWithSpace(s);
  }

  lemma RejectsFtpScheme()
    ensures !ValidateLinkedInUrl("ftp://linkedin.com/in/jane")
  {
    var s := "ftp://linkedin.com/in/jane";
    assert s[0] == 'f';
    RejectsOtherScheme(s);
  }
}
