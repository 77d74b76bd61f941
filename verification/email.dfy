/** The contact-email check (`validate_email`, apollo_enrichment_app.py:123-128).

    The pattern `[A-Za-z0-9._%+-]+@[A-Za-z0-9.-]+\.[A-Za-z]{2,}` is
    implemented here as a hand-built automaton (`Recognise`) and stated
    declaratively as `EmailShape`; `RecogniserMatchesShape` proves the two
    agree on every string. */
module EmailPattern {
  import opened Text

  predicate IsLocalChar(c: char) {
    IsAlnum(c) || c == '.' || c == '_' || c == '%' || c == '+' || c == '-'
  }

  predicate IsHostChar(c: char) {
    IsAlnum(c) || c == '.' || c == '-'
  }

  /** `s` is a non-empty local part, the `@` at index `a`, a non-empty run of
      host characters, the dot at index `j`, and at least two ASCII letters. */
  predicate SplitAt(s: string, a: int, j: int) {
    && 0 < a && a + 1 < j && j + 2 < |s|
    && s[a] == '@' && s[j] == '.'
    && (forall k :: 0 <= k < a ==> IsLocalChar(s[k]))
    && (forall k :: a < k < j ==> IsHostChar(s[k]))
    && (forall k :: j < k < |s| ==> IsAsciiLetter(s[k]))
  }

  /** The strings the email pattern matches from first to last character. */
  ghost predicate EmailShape(s: string) {
    exists a, j :: SplitAt(s, a, j)
  }

  /** What the automaton remembers after the `@`: whether the text read so far
      could end in a dot with a non-empty host run before it followed by
      letters only, and if so how many letters follow that dot. */
  datatype Tail = NoSplit | Letters(count: nat)

  /** States of the recogniser: nothing read, inside the local part, just
      past the `@`, inside the host part, or rejected. */
  datatype State = Start | Local | At | Host(tail: Tail) | Dead

  function Step(q: State, c: char): State {
    match q
    case Start => if IsLocalChar(c) then Local else Dead
    case Local =>
      if IsLocalChar(c) then Local
      else if c == '@' then At
      else Dead
    case At => if IsHostChar(c) then Host(NoSplit) else Dead
    case Host(t) =>
      if c == '.' then Host(Letters(0))
      else if IsAsciiLetter(c) then Host(if t.Letters? then Letters(t.count + 1) else NoSplit)
      else if IsHostChar(c) then Host(NoSplit)
      else Dead
    case Dead => Dead
  }

  /** The state after reading the first `n` characters of `s`. */
  function Scan(s: string, n: nat): State
    requires n <= |s|
  {
    if n == 0 then Start else Step(Scan(s, n - 1), s[n - 1])
  }

  predicate Accepting(q: State) {
    q.Host? && q.tail.Letters? && q.tail.count >= 2
  }

  /** The automaton accepts the whole of `s`. */
  predicate Recognise(s: string) {
    Accepting(Scan(s, |s|))
  }

  /** The first `n` characters of `s` are a local part, the `@` at index `a`
      and a non-empty run of host characters. */
  predicate HostPrefix(s: string, n: nat, a: int)
    requires n <= |s|
  {
    && 0 < a && a + 1 < n
    && s[a] == '@'
    && (forall k :: 0 <= k < a ==> IsLocalChar(s[k]))
    && (forall k :: a < k < n ==> IsHostChar(s[k]))
  }

  /** What each state says about the prefix of length `n` that led to it. */
  ghost predicate Invariant(s: string, n: nat, q: State)
    requires n <= |s|
  {
    match q
    case Start => n == 0
    case Local => 1 <= n && forall k :: 0 <= k < n ==> IsLocalChar(s[k])
    case At => 2 <= n && s[n - 1] == '@' && forall k :: 0 <= k < n - 1 ==> IsLocalChar(s[k])
    case Host(t) =>
      exists a :: HostPrefix(s, n, a) &&
        (t.Letters? ==>
          && a + 1 < n - t.count - 1
          && s[n - t.count - 1] == '.'
          && forall k :: n - t.count <= k < n ==> IsAsciiLetter(s[k]))
    case Dead => true
  }

  lemma {:induction false} ScanSound(s: string, n: nat)
    requires n <= |s|
    ensures Invariant(s, n, Scan(s, n))
  {
    if n > 0 {
      ScanSound(s, n - 1);
      var c := s[n - 1];
      match Scan(s, n - 1)
      case Start =>
      case Local =>
      case At =>
        if IsHostChar(c) {
          assert HostPrefix(s, n, n - 2);
        }
      case Host(t) =>
        var a :| HostPrefix(s, n - 1, a) &&
          (t.Letters? ==>
            && a + 1 < n - 1 - t.count - 1
            && s[n - 1 - t.count - 1] == '.'
            && forall k :: n - 1 - t.count <= k < n - 1 ==> IsAsciiLetter(s[k]));
        if IsHostChar(c) {
          assert HostPrefix(s, n, a);
        }
      case Dead =>
    }
  }

  lemma {:induction false} ScanLocal(s: string, n: nat)
    requires 1 <= n <= |s|
    requires forall k :: 0 <= k < n ==> IsLocalChar(s[k])
    ensures Scan(s, n) == Local
  {
    if n > 1 {
      ScanLocal(s, n - 1);
    }
  }

  /** Once past the `@`, host characters keep the automaton in the host state. */
  lemma {:induction false} ScanHost(s: string, n: nat, a: int)
    requires n <= |s| && HostPrefix(s, n, a)
    ensures Scan(s, n).Host?
  {
    if n == a + 2 {
      ScanLocal(s, a);
    } else {
      ScanHost(s, n - 1, a);
    }
  }

  /** After the final dot, each letter extends the counted tail. */
  lemma {:induction false} ScanTail(s: string, a: int, j: nat, n: nat)
    requires j < n <= |s| && HostPrefix(s, j, a)
    requires s[j] == '.'
    requires forall k :: j < k < n ==> IsAsciiLetter(s[k])
    ensures Scan(s, n) == Host(Letters(n - j - 1))
  {
    if n == j + 1 {
      ScanHost(s, j, a);
    } else {
      ScanTail(s, a, j, n - 1);
    }
  }

  /** The automaton accepts exactly the strings of the declared shape. */
  lemma RecogniserMatchesShape(s: string)
    ensures Recognise(s) <==> EmailShape(s)
  {
    if Recognise(s) {
      ScanSound(s, |s|);
      var count := Scan(s, |s|).tail.count;
      var a :| HostPrefix(s, |s|, a) && a + 1 < |s| - count - 1 && s[|s| - count - 1] == '.'
        && forall k :: |s| - count <= k < |s| ==> IsAsciiLetter(s[k]);
      assert SplitAt(s, a, |s| - count - 1);
    }
    if EmailShape(s) {
      var a, j :| SplitAt(s, a, j);
      assert HostPrefix(s, j, a);
      ScanTail(s, a, j, |s|);
    }
  }

  /** In a matched address the `@` is the only one, and the dot before the
      letters is the last dot: the part after the `@` is host characters, with
      at least one of them before its last dot and at least two ASCII letters
      after it. */
  lemma ShapeParts(s: string, a: int, j: int)
    requires SplitAt(s, a, j)
    ensures forall k :: 0 <= k < |s| && s[k] == '@' ==> k == a
    ensures forall k :: j < k < |s| ==> s[k] != '.'
    ensures forall k :: a < k < |s| ==> IsHostChar(s[k])
  {
  }

  /** `validate_email`: false for the empty string, otherwise whether the
      pattern matches; Python's `$` also matches just before a final newline. */
  function ValidateEmail(email: string): (ok: bool)
    ensures ok <==> exists d :: AnchoredAt(email, d) && EmailShape(d)
    ensures email == "" ==> !ok
  {
    if email == "" then false
    else
      var chomped := email[..|email| - 1];
      RecogniserMatchesShape(email);
      RecogniserMatchesShape(chomped);
      assert AnchoredAt(email, email);
      assert email[|email| - 1] == '\n' ==> AnchoredAt(email, chomped);
      Recognise(email) || (email[|email| - 1] == '\n' && Recognise(chomped))
  }

  /** The only `@` of `s` is at index `a`, after a non-empty local part. */
  predicate OnlyAt(s: string, a: int) {
    && 0 < a < |s| && s[a] == '@'
    && (forall k :: 0 <= k < a ==> IsLocalChar(s[k]))
    && (forall k :: 0 <= k < |s| && s[k] == '@' ==> k == a)
  }

  /** Every accepted address has exactly one `@`, preceded by a non-empty
      local part. */
  lemma ValidEmailHasOneAt(email: string)
    requires ValidateEmail(email)
    ensures exists a :: OnlyAt(email, a)
  {
    var d :| AnchoredAt(email, d) && EmailShape(d);
    var a, j :| SplitAt(d, a, j);
    ShapeParts(d, a, j);
    assert forall k :: 0 <= k < |d| ==> email[k] == d[k];
    assert OnlyAt(email, a);
  }

  /** A matched address starts with a local-part character and ends with a letter. */
  lemma ShapeEnds(d: string)
    requires EmailShape(d)
    ensures d != [] && IsLocalChar(d[0]) && IsAsciiLetter(d[|d| - 1])
  {
    var a, j :| SplitAt(d, a, j);
  }

  /** Stripping an accepted address, as the entry point does before sending
      it, leaves the matched text itself. */
  lemma StrippedEmailHasShape(email: string)
    requires ValidateEmail(email)
    ensures EmailShape(Strip(email))
    ensures AnchoredAt(email, Strip(email))
  {
    var d :| AnchoredAt(email, d) && EmailShape(d);
    ShapeEnds(d);
    StripTrailingNewline(d);
  }

  lemma AcceptsShortAddress()
    ensures ValidateEmail("a@b.co")
  {
    var s := "a@b.co";
    assert SplitAt(s, 1, 3);
    assert AnchoredAt(s, s);
  }

  lemma RejectsNoAt()
    ensures !ValidateEmail("not-an-email")
  {
    var s := "not-an-email";
    assert forall k :: 0 <= k < |s| ==> s[k] != '@';
    if ValidateEmail(s) {
      ValidEmailHasOneAt(s);
    }
  }
}
