/** LSP base-protocol framing: the bytes a message takes on the server's stdin.
    A string here is a byte string, one `char` per byte. */
module Framing {
  import opened Decimal

  const LENGTH_HEADER := "Content-Length: "
  const BLANK_LINE := "\r\n\r\n"

  function Header(length: nat): string { LENGTH_HEADER + Print(length) + BLANK_LINE }

  function Frame(body: string): (f: string)
    ensures |f| > |body|
  {
    Header(|body|) + body
  }

  /** The frame itself, as section "Base Protocol" of LSP 3.17 has it. */
  lemma FrameIs(body: string)
    ensures Frame(body) == "Content-Length: " + Print(|body|) + "\r\n\r\n" + body
  {
  }

  function Encode(bodies: seq<string>): string {
    if bodies == [] then "" else Encode(bodies[..|bodies| - 1]) + Frame(bodies[|bodies| - 1])
  }

  /** What a base-protocol reader takes from the front of `s`: the body of the first complete
      frame and the bytes after it. */
  function DecodeOne(s: string): (r: Option<(string, string)>)
    ensures r.Some? ==> |r.value.1| < |s|
  {
    if !(LENGTH_HEADER <= s) then None else
    var rest := s[|LENGTH_HEADER|..];
    var n := DigitRun(rest);
    if n == 0 || !(BLANK_LINE <= rest[n..]) then None else
    var length := Value(rest[..n]);
    var content := rest[n + |BLANK_LINE|..];
    if |content| < length then None else Some((content[..length], content[length..]))
  }

  /** Every message a base-protocol reader takes from `s`, and the bytes left over. */
  function Decode(s: string): (seq<string>, string)
    decreases |s|
  {
    match DecodeOne(s)
    case None => ([], s)
    case Some((body, rest)) => var (bodies, left) := Decode(rest); ([body] + bodies, left)
  }

  predicate ProperPrefix(p: string, f: string) { p <= f && |p| < |f| }

  lemma FrameParts(body: string, rest: string)
    ensures Frame(body) + rest == LENGTH_HEADER + (Print(|body|) + (BLANK_LINE + (body + rest)))
  {
    Associative(LENGTH_HEADER + Print(|body|), BLANK_LINE, body);
    Associative(LENGTH_HEADER + Print(|body|), BLANK_LINE + body, rest);
    Associative(LENGTH_HEADER, Print(|body|), BLANK_LINE + body + rest);
    Associative(BLANK_LINE, body, rest);
  }

  lemma DecodeOneFrame(body: string, rest: string)
    ensures DecodeOne(Frame(body) + rest) == Some((body, rest))
  {
    FrameParts(body, rest);
    ValueOfPrint(|body|);
    DecodeParts(Print(|body|), body + rest, |body|);
  }

  lemma DecodeParts(digits: string, content: string, length: nat)
    requires digits != "" && AllDigits(digits) && Value(digits) == length <= |content|
    ensures DecodeOne(LENGTH_HEADER + (digits + (BLANK_LINE + content))) == Some((content[..length], content[length..]))
  {
    var tail := digits + (BLANK_LINE + content);
    assert (LENGTH_HEADER + tail)[|LENGTH_HEADER|..] == tail;
    assert tail[..|digits|] == digits && tail[|digits|..] == BLANK_LINE + content;
    DigitRunIs(tail, |digits|);
    assert tail[|digits| + |BLANK_LINE|..] == content;
  }

  lemma DecodeOnePartial(p: string, body: string)
    requires ProperPrefix(p, Frame(body))
    ensures DecodeOne(p) == None
  {
    if LENGTH_HEADER <= p {
      var digits := Print(|body|);
      var full := digits + BLANK_LINE + body;
      assert Frame(body)[|LENGTH_HEADER|..] == full;
      var rest := p[|LENGTH_HEADER|..];
      assert rest == full[..|rest|];
      if |rest| <= |digits| {
        assert rest == digits[..|rest|];
        DigitRunIs(rest, |rest|);
      } else {
        assert rest[..|digits|] == digits;
        assert rest[|digits|] == full[|digits|] == '\r';
        DigitRunIs(rest, |digits|);
        ValueOfPrint(|body|);
      }
    }
  }

  lemma Associative(a: string, b: string, c: string)
    ensures (a + b) + c == a + (b + c)
  {}

  lemma {:induction false} EncodePrepend(first: string, bodies: seq<string>)
    ensures Encode([first] + bodies) == Frame(first) + Encode(bodies)
  {
    if bodies == [] {
      assert [first] + bodies == [] + [first];
      EncodeSnoc([], first);
      assert Encode([]) + Frame(first) == Frame(first) + Encode([]);
    } else {
      var front, last := bodies[..|bodies| - 1], bodies[|bodies| - 1];
      EncodePrepend(first, front);
      assert [first] + bodies == ([first] + front) + [last] && bodies == front + [last];
      EncodeSnoc([first] + front, last);
      EncodeSnoc(front, last);
      Associative(Frame(first), Encode(front), Frame(last));
    }
  }

  lemma EncodeSnoc(front: seq<string>, last: string)
    ensures Encode(front + [last]) == Encode(front) + Frame(last)
  {
    assert (front + [last])[..|front|] == front;
  }

  /** The reader recovers exactly the messages written, and keeps a partial last frame apart. */
  lemma {:induction false} DecodeEncode(bodies: seq<string>, partial: string)
    requires partial == "" || exists body :: ProperPrefix(partial, Frame(body))
    ensures Decode(Encode(bodies) + partial) == (bodies, partial)
  {
    var s := Encode(bodies) + partial;
    if bodies == [] {
      assert s == partial;
      if partial != "" {
        var body :| ProperPrefix(partial, Frame(body));
        DecodeOnePartial(partial, body);
      }
    } else {
      assert bodies == [bodies[0]] + bodies[1..];
      EncodePrepend(bodies[0], bodies[1..]);
      var rest := Encode(bodies[1..]) + partial;
      assert s == Frame(bodies[0]) + rest;
      DecodeOneFrame(bodies[0], rest);
      DecodeEncode(bodies[1..], partial);
    }
  }
}
