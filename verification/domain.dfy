/** The company-domain check (`validate_domain`, apollo_enrichment_app.py:116-121).

    The pattern `[A-Za-z0-9][A-Za-z0-9-]{0,61}[A-Za-z0-9]?\.([A-Za-z]{2,})` is
    implemented here as a hand-built automaton (`Recognise`) and stated
    declaratively as `DomainShape`; `RecogniserMatchesShape` proves the two
    agree on every string. */
module DomainPattern {
  import opened Text

  /** The part before the dot: 1 to 63 letters, digits and hyphens starting
      with a letter or digit. Only a label of the full 63 characters must
      also end with a letter or digit, because the optional last class of the
      pattern is only needed once the `{0,61}` repetition is used up. */
  predicate IsLabel(l: string) {
    && 1 <= |l| <= 63
    && IsAlnum(l[0])
    && (forall k :: 0 <= k < |l| ==> IsAlnumOrHyphen(l[k]))
    && (|l| == 63 ==> IsAlnum(l[62]))
  }

  /** The part after the dot: at least two ASCII letters. */
  predicate IsTld(t: string) {
    |t| >= 2 && forall k :: 0 <= k < |t| ==> IsAsciiLetter(t[k])
  }

  /** `s` is a label, a dot at index `i`, and a top-level part. */
  predicate SplitAt(s: string, i: int) {
    0 <= i < |s| && s[i] == '.' && IsLabel(s[..i]) && IsTld(s[i + 1..])
  }

  /** The strings the domain pattern matches from first to last character. */
  ghost predicate DomainShape(s: string) {
    exists i :: SplitAt(s, i)
  }

  /** States of the recogniser: reading the label (its length so far and
      whether its last character is a letter or digit), having just read the
      dot, reading the top-level part (its length so far), or rejected. */
  datatype State = Start | Label(len: nat, endsAlnum: bool) | Dot | Tld(len: nat) | Dead

  function Step(q: State, c: char): State {
    match q
    case Start => if IsAlnum(c) then Label(1, true) else Dead
    case Label(n, e) =>
      if IsAlnumOrHyphen(c) && n < 63 then Label(n + 1, IsAlnum(c))
      else if c == '.' && (n < 63 || e) then Dot
      else Dead
    case Dot => if IsAsciiLetter(c) then Tld(1) else Dead
    case Tld(n) => if IsAsciiLetter(c) then Tld(n + 1) else Dead
    case Dead => Dead
  }

  /** The state after reading the first `n` characters of `s`. */
  function Scan(s: string, n: nat): State
    requires n <= |s|
  {
    if n == 0 then Start else Step(Scan(s, n - 1), s[n - 1])
  }

  predicate Accepting(q: State) {
    q.Tld? && q.len >= 2
  }

  /** The automaton accepts the whole of `s`. */
  predicate Recognise(s: string) {
    Accepting(Scan(s, |s|))
  }

  /** What each state says about the prefix of length `n` that led to it. */
  predicate Invariant(s: string, n: nat, q: State)
    requires n <= |s|
  {
    match q
    case Start => n == 0
    case Label(len, e) =>
      && len == n && 1 <= n <= 63
      && IsAlnum(s[0])
      && (forall k :: 0 <= k < n ==> IsAlnumOrHyphen(s[k]))
      && e == IsAlnum(s[n - 1])
    case Dot => 2 <= n && s[n - 1] == '.' && IsLabel(s[..n - 1])
    case Tld(len) =>
      && 1 <= len < n
      && s[n - len - 1] == '.'
      && IsLabel(s[..n - len - 1])
      && (forall k :: n - len <= k < n ==> IsAsciiLetter(s[k]))
    case Dead => true
  }

  lemma {:induction false} ScanSound(s: string, n: nat)
    requires n <= |s|
    ensures Invariant(s, n, Scan(s, n))
  {
    if n > 0 {
      ScanSound(s, n - 1);
      var c := s[n - 1];
      match Scan(s, n - 1)
      case Start =>
      case Label(len, e) =>
        if !(IsAlnumOrHyphen(c) && len < 63) && c == '.' && (len < 63 || e) {
          var l := s[..n - 1];
          assert forall k :: 0 <= k < |l| ==> l[k] == s[k];
        }
      case Dot =>
      case Tld(len) =>
      case Dead =>
    }
  }

  /** Reading a label prefix keeps the automaton in the label state. */
  lemma {:induction false} ScanLabel(s: string, n: nat)
    requires 1 <= n <= |s| && n <= 63
    requires IsAlnum(s[0])
    requires forall k :: 0 <= k < n ==> IsAlnumOrHyphen(s[k])
    ensures Scan(s, n) == Label(n, IsAlnum(s[n - 1]))
  {
    if n > 1 {
      ScanLabel(s, n - 1);
    }
  }

  /** After the label and the dot, each letter extends the top-level part. */
  lemma {:induction false} ScanTld(s: string, i: nat, n: nat)
    requires i < n <= |s|
    requires s[i] == '.' && IsLabel(s[..i])
    requires forall k :: i < k < n ==> IsAsciiLetter(s[k])
    ensures Scan(s, n) == if n == i + 1 then Dot else Tld(n - i - 1)
  {
    if n == i + 1 {
      var l := s[..i];
      assert forall k :: 0 <= k < i ==> s[k] == l[k];
      ScanLabel(s, i);
    } else {
      ScanTld(s, i, n - 1);
    }
  }

  /** The automaton accepts exactly the strings of the declared shape. */
  lemma RecogniserMatchesShape(s: string)
    ensures Recognise(s) <==> DomainShape(s)
  {
    if Recognise(s) {
      ScanSound(s, |s|);
      var len := Scan(s, |s|).len;
      assert SplitAt(s, |s| - len - 1);
    }
    if DomainShape(s) {
      var i :| SplitAt(s, i);
      var t := s[i + 1..];
      assert forall k :: i < k < |s| ==> s[k] == t[k - i - 1];
      ScanTld(s, i, |s|);
    }
  }

  /** A matched domain contains exactly one dot. */
  lemma ShapeHasOneDot(s: string, i: int)
    requires SplitAt(s, i)
    ensures forall k :: 0 <= k < |s| && s[k] == '.' ==> k == i
  {
  }

  /** `validate_domain`: false for the empty string, otherwise whether the
      pattern matches; Python's `$` also matches just before a final newline. */
  function ValidateDomain(domain: string): (ok: bool)
    ensures ok <==> exists d :: AnchoredAt(domain, d) && DomainShape(d)
    ensures domain == "" ==> !ok
  {
    if domain == "" then false
    else
      var chomped := domain[..|domain| - 1];
      RecogniserMatchesShape(domain);
      RecogniserMatchesShape(chomped);
      assert AnchoredAt(domain, domain);
      assert domain[|domain| - 1] == '\n' ==> AnchoredAt(domain, chomped);
      Recognise(domain) || (domain[|domain| - 1] == '\n' && Recognise(chomped))
  }

  /** Every accepted domain contains exactly one dot. */
  lemma ValidDomainHasOneDot(domain: string)
    requires ValidateDomain(domain)
    ensures exists i :: 0 <= i < |domain| && domain[i] == '.'
    ensures forall j, k :: 0 <= j < |domain| && 0 <= k < |domain| && domain[j] == '.' && domain[k] == '.' ==> j == k
  {
    var d :| AnchoredAt(domain, d) && DomainShape(d);
    var i :| SplitAt(d, i);
    ShapeHasOneDot(d, i);
    assert forall k :: 0 <= k < |d| ==> domain[k] == d[k];
    assert domain[i] == '.';
  }

  /** A matched domain starts with a letter or digit and ends with a letter. */
  lemma ShapeEnds(d: string)
    requires DomainShape(d)
    ensures d != [] && IsAlnum(d[0]) && IsAsciiLetter(d[|d| - 1])
  {
    var i :| SplitAt(d, i);
    assert d[0] == d[..i][0];
  }

  /** Stripping an accepted domain, as the entry point does before sending
      it, leaves the matched text itself: the one newline `$` tolerates is
      all that stripping can remove. */
  lemma StrippedDomainHasShape(domain: string)
    requires ValidateDomain(domain)
    ensures DomainShape(Strip(domain))
    ensures AnchoredAt(domain, Strip(domain))
  {
    var d :| AnchoredAt(domain, d) && DomainShape(d);
    ShapeEnds(d);
    StripTrailingNewline(d);
  }

  /** A domain with more than one label, such as `sub.example.com`, is rejected. */
  lemma RejectsSubdomain()
    ensures !ValidateDomain("sub.example.com")
  {
    var s := "sub.example.com";
    assert s[3] == '.' && s[11] == '.';
    if ValidateDomain(s) {
      ValidDomainHasOneDot(s);
    }
  }

  lemma AcceptsExample()
    ensures ValidateDomain("example.com")
  {
    var s := "example.com";
    assert SplitAt(s, 7) by {
      assert s[..7] == "example";
      assert s[8..] == "com";
    }
    assert AnchoredAt(s, s);
  }
}
