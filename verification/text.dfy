/** Characters and strings: the ASCII classes the validation patterns use,
    Python's notion of whitespace and `str.strip()`, decimal rendering of
    integers, and newline-terminated lines. */
module Text {

  predicate IsAsciiLetter(c: char) {
    'a' <= c <= 'z' || 'A' <= c <= 'Z'
  }

  predicate IsDigit(c: char) {
    '0' <= c <= '9'
  }

  predicate IsAlnum(c: char) {
    IsAsciiLetter(c) || IsDigit(c)
  }

  /** The class `[A-Za-z0-9-]`: domain labels and profile slugs are made of it. */
  predicate IsAlnumOrHyphen(c: char) {
    IsAlnum(c) || c == '-'
  }

  /** The characters for which Python's `str.isspace()` holds. */
  predicate IsWhitespace(c: char) {
    || c == ' '
    || '\U{9}' <= c <= '\U{D}'
    || '\U{1C}' <= c <= '\U{1F}'
    || c == '\U{85}' || c == '\U{A0}' || c == '\U{1680}'
    || '\U{2000}' <= c <= '\U{200A}'
    || c == '\U{2028}' || c == '\U{2029}' || c == '\U{202F}'
    || c == '\U{205F}' || c == '\U{3000}'
  }

  predicate AllWhitespace(s: string) {
    forall k :: 0 <= k < |s| ==> IsWhitespace(s[k])
  }

  /** Every character of `s` at an index in `[lo, hi)` is whitespace. */
  predicate WhitespaceBetween(s: string, lo: int, hi: int) {
    forall k :: lo <= k < hi && 0 <= k < |s| ==> IsWhitespace(s[k])
  }

  /** The number of whitespace characters `s` starts with. */
  function LeadingSpace(s: string): (n: nat)
    ensures n <= |s|
    ensures WhitespaceBetween(s, 0, n)
    ensures n < |s| ==> !IsWhitespace(s[n])
  {
    if s == [] || !IsWhitespace(s[0]) then 0 else 1 + LeadingSpace(s[1..])
  }

  /** The number of whitespace characters `s` ends with. */
  function TrailingSpace(s: string): (n: nat)
    ensures n <= |s|
    ensures WhitespaceBetween(s, |s| - n, |s|)
    ensures n < |s| ==> !IsWhitespace(s[|s| - n - 1])
  {
    if s == [] || !IsWhitespace(s[|s| - 1]) then 0 else 1 + TrailingSpace(s[..|s| - 1])
  }

  /** `s` is `r` preceded by `i` whitespace characters and followed by
      whitespace only. */
  predicate Padded(s: string, i: nat, r: string) {
    && i + |r| <= |s|
    && s[i..i + |r|] == r
    && WhitespaceBetween(s, 0, i)
    && WhitespaceBetween(s, i + |r|, |s|)
  }

  /** Python's `str.strip()` with no argument. */
  function Strip(s: string): (r: string)
    ensures Padded(s, LeadingSpace(s), r)
    ensures r == [] || (!IsWhitespace(r[0]) && !IsWhitespace(r[|r| - 1]))
    ensures r == [] <==> AllWhitespace(s)
  {
    var t := s[LeadingSpace(s)..];
    StripFacts(s);
    t[..|t| - TrailingSpace(t)]
  }

  lemma StripFacts(s: string)
    ensures var i := LeadingSpace(s); var t := s[i..];
      Padded(s, i, t[..|t| - TrailingSpace(t)])
    ensures var i := LeadingSpace(s); var t := s[i..];
      t[..|t| - TrailingSpace(t)] == [] <==> AllWhitespace(s)
  {
    var i := LeadingSpace(s);
    var t := s[i..];
    var j := |t| - TrailingSpace(t);
    assert s[i..i + j] == t[..j];
    forall k | i + j <= k < |s| ensures IsWhitespace(s[k]) {
      assert s[k] == t[k - i];
    }
  }

  lemma StripIdempotent(s: string)
    ensures Strip(Strip(s)) == Strip(s)
  {
    var r := Strip(s);
    assert LeadingSpace(r) == 0;
    assert TrailingSpace(r) == 0;
  }

  /** A string that neither starts nor ends with whitespace is what Python's
      `strip()` keeps, and a single final newline after it is removed. */
  lemma StripTrailingNewline(d: string)
    requires d != [] && !IsWhitespace(d[0]) && !IsWhitespace(d[|d| - 1])
    ensures Strip(d) == d
    ensures Strip(d + "\n") == d
  {
    assert LeadingSpace(d) == 0;
    assert TrailingSpace(d) == 0;
    var e := d + "\n";
    assert LeadingSpace(e) == 0;
    assert e[..|e| - 1] == d;
    assert TrailingSpace(e) == 1;
  }

  /** `s` is `d`, possibly followed by one newline: the strings a pattern
      ending in `$` matches under Python's `re.match` when the rest of the
      pattern matches exactly `d` and cannot match a newline. */
  predicate AnchoredAt(s: string, d: string) {
    s == d || s == d + "\n"
  }

  function DigitChar(d: nat): (c: char)
    requires d < 10
    ensures IsDigit(c) && c as int - '0' as int == d
  {
    ('0' as int + d) as char
  }

  /** Python's `str()` of a non-negative integer: decimal, no leading zeros. */
  function Decimal(n: nat): (r: string)
    ensures |r| >= 1
    ensures forall k :: 0 <= k < |r| ==> IsDigit(r[k])
    ensures r[0] == '0' <==> n == 0
    decreases n
  {
    if n < 10 then [DigitChar(n)] else Decimal(n / 10) + [DigitChar(n % 10)]
  }

  /** The number a string of decimal digits denotes. */
  function DecimalValue(s: string): nat
    requires forall k :: 0 <= k < |s| ==> IsDigit(s[k])
  {
    if s == [] then 0
    else
      var c := s[|s| - 1];
      assert IsDigit(c);
      assert '0' as int <= c as int;
      DecimalValue(s[..|s| - 1]) * 10 + (c as int - '0' as int)
  }

  lemma {:induction false} DecimalRoundTrip(n: nat)
    ensures DecimalValue(Decimal(n)) == n
    decreases n
  {
    var r := Decimal(n);
    if n >= 10 {
      DecimalRoundTrip(n / 10);
      assert r[..|r| - 1] == Decimal(n / 10);
    }
  }

  /** Each line followed by a newline, as a report built by repeated
      `+= "...\n"` is. */
  function Unlines(ls: seq<string>): string {
    if ls == [] then "" else ls[0] + "\n" + Unlines(ls[1..])
  }

  /** The index of the first newline in `s`, or `|s|` if there is none. */
  function LineEnd(s: string): (i: nat)
    ensures i <= |s|
    ensures i < |s| ==> s[i] == '\n'
    ensures forall k :: 0 <= k < i ==> s[k] != '\n'
  {
    if s == [] || s[0] == '\n' then 0 else 1 + LineEnd(s[1..])
  }

  /** The lines of a text, each without its terminating newline; a final
      unterminated piece is a line too. */
  function Lines(s: string): seq<string>
    decreases |s|
  {
    if s == [] then []
    else
      var i := LineEnd(s);
      if i == |s| then [s] else [s[..i]] + Lines(s[i + 1..])
  }

  predicate NoNewline(s: string) {
    '\n' !in s
  }

  /** Splitting newline-terminated lines recovers them, provided none of
      them contains a newline of its own. */
  lemma {:induction false} LinesUnlines(ls: seq<string>)
    requires forall j :: 0 <= j < |ls| ==> NoNewline(ls[j])
    ensures Lines(Unlines(ls)) == ls
  {
    if ls != [] {
      var s := Unlines(ls);
      var rest := Unlines(ls[1..]);
      assert s == ls[0] + "\n" + rest;
      assert s[|ls[0]|] == '\n';
      LineEndAt(ls[0], rest);
      assert s[..|ls[0]|] == ls[0];
      assert s[|ls[0]| + 1..] == rest;
      LinesUnlines(ls[1..]);
    }
  }

  lemma {:induction false} LineEndAt(a: string, b: string)
    requires NoNewline(a)
    ensures LineEnd(a + "\n" + b) == |a|
  {
    var s := a + "\n" + b;
    assert s[|a|] == '\n';
    assert forall k :: 0 <= k < |a| ==> s[k] == a[k];
  }
}
