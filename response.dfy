/**
 * The response text both handlers write: a status line, the one header line
 * `Content-Type: text/plain`, and the body, glued by the format string
 * "{}\r\n{}\r\n\r\n{}" with the header line carrying its own "\r\n".
 */
module Response {
  import opened Wrappers
  import opened Strings

  const Ok: string := "HTTP/1.1 200 OK"
  const BadRequest: string := "HTTP/1.1 400 Bad Request"
  const ContentType: string := "Content-Type: text/plain"
  const Headers: string := ContentType + "\r\n"

  /** Everything between the status line and the body. */
  const Framing: string := "\r\n" + Headers + "\r\n\r\n"

  /** The response for a status line and a body. */
  function Format(status: string, body: string): string {
    status + Framing + body
  }

  /** Recovers the status line and the body from a response text. */
  function Parse(response: string): Option<(string, string)> {
    match Find(response, "\r\n")
    case None => None
    case Some(i) =>
      if StartsWith(response[i..], Framing) then Some((response[..i], response[i + |Framing|..]))
      else None
  }

  /** Neither status line contains a carriage return. */
  lemma StatusLinesPlain()
    ensures '\r' !in Ok && '\r' !in BadRequest
  {
  }

  /** Framing character by character, as the proofs below need it. */
  lemma FramingChars(status: string, body: string, k: nat)
    requires k < |Framing|
    ensures |Framing| == 32 && Format(status, body)[|status| + k] == Framing[k]
  {
    assert Format(status, body) == status + Framing + body;
  }

  /** A pattern that starts with a carriage return does not occur inside a status line. */
  lemma {:induction false} NoCarriageReturnBefore(s: string, status: string, pat: string, n: nat)
    requires |pat| > 0 && pat[0] == '\r' && StartsWith(s, status) && '\r' !in status && n <= |status|
    ensures NoneBefore(s, pat, n)
  {
    forall i: nat | i < n ensures !OccursAt(s, pat, i) {
      assert s[i] == status[i];
      Mismatch(s, pat, i, 0);
    }
  }

  /** `Parse` undoes `Format` whenever the status line has no carriage return. */
  lemma ParseFormat(status: string, body: string)
    requires '\r' !in status
    ensures Parse(Format(status, body)) == Some((status, body))
  {
    var s := Format(status, body);
    var L := |status|;
    assert s[..L] == status;
    NoCarriageReturnBefore(s, status, "\r\n", L);
    assert s[L..L + 2] == "\r\n";
    FindIs(s, "\r\n", L);
    assert s[L..][..|Framing|] == Framing;
    assert s[L + |Framing|..] == body;
  }

  /** Every response either handler sends gives back its status line and body. */
  lemma ResponsesParse(body: string)
    ensures Parse(Format(Ok, body)) == Some((Ok, body))
    ensures Parse(Format(BadRequest, body)) == Some((BadRequest, body))
  {
    StatusLinesPlain();
    ParseFormat(Ok, body);
    ParseFormat(BadRequest, body);
  }

  /**
   * The header block ends at the first blank line, right after the
   * Content-Type line, and what follows it is one more "\r\n" and then the
   * body: a client that reads the text as HTTP sees a body that starts with
   * an empty line.
   */
  lemma BodyAfterBlankLine(status: string, body: string)
    requires '\r' !in status
    ensures Find(Format(status, body), "\r\n\r\n") == Some(|status| + 2 + |ContentType|)
    ensures Format(status, body)[|status| + 2 + |ContentType| + 4..] == "\r\n" + body
  {
    var s := Format(status, body);
    var L := |status|;
    assert s[..L] == status;
    var p := L + 2 + |ContentType|;
    assert p == L + 26;
    NoCarriageReturnBefore(s, status, "\r\n\r\n", L);
    forall i: nat | L <= i < p ensures !OccursAt(s, "\r\n\r\n", i) {
      if i == L {
        FramingChars(status, body, 2);
        Mismatch(s, "\r\n\r\n", i, 2);
      } else {
        FramingChars(status, body, i - L);
        Mismatch(s, "\r\n\r\n", i, 0);
      }
    }
    assert s[p..p + 4] == "\r\n\r\n";
    FindIs(s, "\r\n\r\n", p);
    assert s[p + 4..] == "\r\n" + body;
  }
}
