/** The `PUB` wire command that a session hands to its protocol handler. */
module Wire {
  import opened Wrappers

  const CRLF: string := "\r\n"

  predicate IsDigit(c: char) { '0' <= c <= '9' }

  predicate IsDigits(s: string) { forall i :: 0 <= i < |s| ==> IsDigit(s[i]) }

  function DigitChar(d: nat): (c: char)
    requires d < 10
    ensures IsDigit(c)
  {
    (d + '0' as int) as char
  }

  function DigitValue(c: char): nat
    requires IsDigit(c)
  {
    c as int - '0' as int
  }

  /** The decimal text JavaScript produces when a string length is
      concatenated into a string: digits only, no sign, no leading zero. */
  function Decimal(n: nat): (s: string)
    ensures |s| >= 1 && IsDigits(s)
    ensures s[0] == '0' <==> n == 0
    ensures n == 0 ==> s == "0"
  {
    if n < 10 then [DigitChar(n)] else Decimal(n / 10) + [DigitChar(n % 10)]
  }

  /** Reads a run of decimal digits back as a number (the reader's side of the length field). */
  function ParseDecimal(s: string): nat
    requires IsDigits(s)
  {
    if s == [] then 0 else ParseDecimal(s[..|s| - 1]) * 10 + DigitValue(s[|s| - 1])
  }

  lemma {:induction false} ParseDecimalInverse(n: nat)
    ensures ParseDecimal(Decimal(n)) == n
  {
    if n >= 10 {
      var s := Decimal(n);
      assert s[..|s| - 1] == Decimal(n / 10);
      ParseDecimalInverse(n / 10);
    }
  }

  /** Different lengths are never written with the same length field. */
  lemma DecimalInjective(m: nat, n: nat)
    requires Decimal(m) == Decimal(n)
    ensures m == n
  {
    ParseDecimalInverse(m);
    ParseDecimalInverse(n);
  }

  /** Position of the first `c` in `s`, or `|s|` when there is none. */
  function FirstIndex(s: string, c: char): (i: nat)
    ensures i <= |s|
    ensures i < |s| ==> s[i] == c
    ensures forall k :: 0 <= k < i ==> s[k] != c
  {
    if s == [] then 0
    else if s[0] == c then 0
    else 1 + FirstIndex(s[1..], c)
  }

  /** The first `c` in `a + [c] + b` is the one just past `a` when `a` holds none. */
  lemma FirstIndexPast(a: string, c: char, b: string)
    requires c !in a
    ensures FirstIndex(a + [c] + b, c) == |a|
  {
    var s := a + [c] + b;
    assert s[|a|] == c;
    assert forall k :: 0 <= k < |a| ==> s[k] == a[k];
  }

  /** The characters a NATS control line splits on. */
  predicate IsWhitespace(c: char) { c == ' ' || c == '\t' || c == '\r' || c == '\n' }

  /** A subject a NATS server reads back as one field: non-empty, no whitespace. */
  predicate IsToken(s: string) { s != [] && forall i :: 0 <= i < |s| ==> !IsWhitespace(s[i]) }

  /** Position of the first whitespace character in `s`, or `|s|` when there is none. */
  function FirstWhitespace(s: string): (i: nat)
    ensures i <= |s|
    ensures i < |s| ==> IsWhitespace(s[i])
    ensures forall k :: 0 <= k < i ==> !IsWhitespace(s[k])
  {
    if s == [] then 0
    else if IsWhitespace(s[0]) then 0
    else 1 + FirstWhitespace(s[1..])
  }

  /** The first whitespace in `a + [c] + b` is `c` when `a` is a token and `c` is whitespace. */
  lemma FirstWhitespacePast(a: string, c: char, b: string)
    requires IsToken(a) && IsWhitespace(c)
    ensures FirstWhitespace(a + [c] + b) == |a|
  {
    var s := a + [c] + b;
    assert s[|a|] == c;
    assert forall k :: 0 <= k < |a| ==> s[k] == a[k];
  }

  /** The command `publish` forwards: `PUB <subject> <length>\r\n<data>\r\n`,
      where the length is the number of characters in `data`. */
  function PubCommand(subject: string, data: string): (m: string)
    ensures |m| == |subject| + |Decimal(|data|)| + |data| + 9
    ensures m[..|subject| + 5] == "PUB " + subject + " "
    ensures m[|m| - |data| - 2..] == data + CRLF
  {
    "PUB " + subject + " " + Decimal(|data|) + CRLF + data + CRLF
  }

  datatype PubFrame = PubFrame(subject: string, data: string)

  /** A reader for the command `publish` writes. Like a NATS server, it ends
      the subject at whitespace. It accepts exactly
      `PUB <subject> <digits>\r\n<payload>\r\n`, where the subject is followed by
      one space, the length field runs to the first carriage return, and the
      payload is exactly that many characters between two CRLFs. */
  function ParsePub(m: string): Option<PubFrame>
  {
    if |m| < 4 || m[..4] != "PUB " then None else ParseSubject(m[4..])
  }

  function ParseSubject(rest: string): Option<PubFrame>
  {
    var i := FirstWhitespace(rest);
    if i == 0 || i == |rest| || rest[i] != ' ' then None else ParseLength(rest[..i], rest[i + 1..])
  }

  function ParseLength(subject: string, after: string): Option<PubFrame>
  {
    var j := FirstIndex(after, '\r');
    if j == 0 || !IsDigits(after[..j]) then None
    else ParsePayload(subject, ParseDecimal(after[..j]), after[j..])
  }

  function ParsePayload(subject: string, n: nat, body: string): Option<PubFrame>
  {
    if |body| != n + 4 || body[..2] != CRLF || body[n + 2..] != CRLF then None
    else Some(PubFrame(subject, body[2..n + 2]))
  }

  // The four steps of the round trip below, one field of the command each.

  lemma PayloadRoundTrip(subject: string, data: string)
    ensures ParsePayload(subject, |data|, CRLF + data + CRLF) == Some(PubFrame(subject, data))
  {
  }

  lemma LengthField(subject: string, d: string, rest: string)
    requires d != [] && IsDigits(d)
    ensures ParseLength(subject, d + CRLF + rest) == ParsePayload(subject, ParseDecimal(d), CRLF + rest)
  {
    var after := d + CRLF + rest;
    assert '\r' !in d by {
      forall k | 0 <= k < |d| ensures d[k] != '\r' { assert IsDigit(d[k]); }
    }
    assert after == d + ['\r'] + ("\n" + rest);
    FirstIndexPast(d, '\r', "\n" + rest);
    assert after[..|d|] == d;
    assert after[|d|..] == CRLF + rest;
  }

  lemma PrefixField(rest: string)
    ensures ParsePub("PUB " + rest) == ParseSubject(rest)
  {
  }

  lemma SubjectField(subject: string, tail: string)
    requires IsToken(subject)
    ensures ParseSubject(subject + [' '] + tail) == ParseLength(subject, tail)
  {
    var rest := subject + [' '] + tail;
    FirstWhitespacePast(subject, ' ', tail);
    assert rest[..|subject|] == subject;
    assert rest[|subject| + 1..] == tail;
  }

  /** Subjects that are NATS tokens (non-empty, no whitespace) make the `PUB` framing unambiguous: the
      reader recovers the subject and the whole payload, and the length
      field it reads is the payload's character count. */
  lemma PubCommandRoundTrip(subject: string, data: string)
    requires IsToken(subject)
    ensures ParsePub(PubCommand(subject, data)) == Some(PubFrame(subject, data))
  {
    var tail := Decimal(|data|) + CRLF + (data + CRLF);
    assert PubCommand(subject, data) == "PUB " + (subject + [' '] + tail);
    PrefixField(subject + [' '] + tail);
    SubjectField(subject, tail);
    LengthField(subject, Decimal(|data|), data + CRLF);
    ParseDecimalInverse(|data|);
    assert CRLF + (data + CRLF) == CRLF + data + CRLF;
    PayloadRoundTrip(subject, data);
  }

  /** Two publishes on token subjects that put the same text on the
      wire carried the same subject and the same payload. */
  lemma PubCommandInjective(s1: string, d1: string, s2: string, d2: string)
    requires IsToken(s1) && IsToken(s2)
    requires PubCommand(s1, d1) == PubCommand(s2, d2)
    ensures s1 == s2 && d1 == d2
  {
    PubCommandRoundTrip(s1, d1);
    PubCommandRoundTrip(s2, d2);
  }
}
