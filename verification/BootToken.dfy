/** The JWT payload decoder (bootToken.ts): base64url without padding, RFC 4648 section 5 and RFC 7515
    appendix C, read through atob and TextDecoder. */
module BootToken {
  import opened Prelude
  import opened Utf8
  import opened Base64

  // ----- The decoder -----

  function Replace(s: string, from: char, to: char): string {
    if s == [] then [] else [if s[0] == from then to else s[0]] + Replace(s[1..], from, to)
  }

  function Normalize(value: string): string {
    Replace(Replace(value, '-', '+'), '_', '/')
  }

  function PaddingFor(length: nat): nat {
    (4 - length % 4) % 4
  }

  /** None where atob throws. */
  function DecodeBase64Url(value: string): Option<string> {
    var normalized := Normalize(value);
    var bytes := Atob(normalized + Pad(PaddingFor(|normalized|)));
    if bytes.None? then None else Some(DecodeText(bytes.value))
  }

  // ----- The encoder on the other side -----

  function Base64Url(bytes: seq<Byte>): string {
    Replace(Replace(Unpadded(bytes), '+', '-'), '/', '_')
  }

  lemma {:induction false} ReplaceLength(s: string, from: char, to: char)
    ensures |Replace(s, from, to)| == |s|
    ensures forall i :: 0 <= i < |s| ==> Replace(s, from, to)[i] == if s[i] == from then to else s[i]
    decreases |s|
  {
    if s != [] {
      ReplaceLength(s[1..], from, to);
    }
  }

  /** The alphabet mapping undoes itself on anything base64 can produce. */
  lemma NormalizeUndoesUrl(s: string)
    requires forall c :: c in s ==> SextetOf(c).Some?
    ensures Normalize(Replace(Replace(s, '+', '-'), '/', '_')) == s
  {
    var s1 := Replace(s, '+', '-');
    var s2 := Replace(s1, '/', '_');
    var s3 := Replace(s2, '-', '+');
    ReplaceLength(s, '+', '-');
    ReplaceLength(s1, '/', '_');
    ReplaceLength(s2, '-', '+');
    ReplaceLength(s3, '_', '/');
    assert forall i :: 0 <= i < |s| ==> s[i] in s;
  }

  /** The padding always completes a multiple of four; it is at most two signs exactly for the lengths
      unpadded base64 can have. */
  lemma PaddingCompletes(value: string)
    ensures |Normalize(value)| == |value|
    ensures (|value| + PaddingFor(|value|)) % 4 == 0
    ensures PaddingFor(|value|) <= 2 <==> |value| % 4 != 1
  {
    ReplaceLength(value, '-', '+');
    ReplaceLength(Replace(value, '-', '+'), '_', '/');
  }

  lemma UrlPadsToBtoa(bytes: seq<Byte>)
    ensures Normalize(Base64Url(bytes)) + Pad(PaddingFor(|Normalize(Base64Url(bytes))|)) == Btoa(bytes)
  {
    CharsReadBack(ToSextets(bytes));
    NormalizeUndoesUrl(Unpadded(bytes));
    UnpaddedLength(bytes);
  }

  /** The decoder recovers the text, exactly when it has no leading byte order mark. */
  lemma UrlReadsBackIff(text: string)
    ensures DecodeBase64Url(Base64Url(Encode(text))) == Some(text) <==> !(text != [] && text[0] == BOM)
    ensures DecodeBase64Url(Base64Url(Encode(text))) == Some(if text != [] && text[0] == BOM then text[1..] else text)
  {
    UrlPadsToBtoa(Encode(text));
    AtobUndoesBtoa(Encode(text));
    TextDecodesBack(text);
    if text != [] {
      assert |text[1..]| < |text|;
    }
  }

  // ----- parseJwt -----

  /** The claims as far as the decoder looks at them. */
  datatype Claims = Claims(subject: nat, exp: Option<int>)

  function SegmentEnd(s: string): nat {
    if s == [] || s[0] == '.' then 0 else 1 + SegmentEnd(s[1..])
  }

  lemma {:induction false} SegmentEndBound(s: string)
    ensures SegmentEnd(s) <= |s|
    decreases |s|
  {
    if s != [] {
      SegmentEndBound(s[1..]);
    }
  }

  /** `token.split(".")[1]`, None if there is no dot. */
  function SecondSegment(token: string): Option<string> {
    SegmentEndBound(token);
    if SegmentEnd(token) == |token| then None
    else
      var rest := token[SegmentEnd(token) + 1..];
      SegmentEndBound(rest);
      Some(rest[..SegmentEnd(rest)])
  }

  /** `parse` is JSON.parse. Malformed and expired tokens read as no token. */
  function ParseJwt(token: string, parse: string -> Option<Claims>, nowMs: int): Option<Claims> {
    var segment := SecondSegment(token);
    if segment.None? then None
    else
      var text := DecodeBase64Url(segment.value);
      if text.None? then None
      else
        var claims := parse(text.value);
        if claims.Some? && claims.value.exp.Some? && claims.value.exp.value * 1000 < nowMs then None else claims
  }

  lemma {:induction false} SegmentEndsAtDot(s: string, rest: string)
    requires '.' !in s
    ensures SegmentEnd(s + ['.'] + rest) == |s|
    decreases |s|
  {
    if s != [] {
      assert (s + ['.'] + rest)[1..] == s[1..] + ['.'] + rest;
      SegmentEndsAtDot(s[1..], rest);
    }
  }

  lemma UrlHasNoDot(bytes: seq<Byte>)
    ensures '.' !in Base64Url(bytes)
  {
    CharsReadBack(ToSextets(bytes));
    var s := Unpadded(bytes);
    ReplaceLength(s, '+', '-');
    ReplaceLength(Replace(s, '+', '-'), '/', '_');
    assert forall i :: 0 <= i < |s| ==> s[i] in s;
  }

  /** A signed token over claims text yields those claims until they expire, whatever the header and
      signature. */
  lemma TokenYieldsItsClaims(header: string, text: string, signature: string,
                             parse: string -> Option<Claims>, nowMs: int)
    requires '.' !in header && !(text != [] && text[0] == BOM) && parse(text).Some?
    ensures var token := header + ['.'] + Base64Url(Encode(text)) + ['.'] + signature;
            var claims := parse(text).value;
            ParseJwt(token, parse, nowMs) ==
              if claims.exp.Some? && claims.exp.value * 1000 < nowMs then None else Some(claims)
  {
    var payload := Base64Url(Encode(text));
    var tail := payload + ['.'] + signature;
    var token := header + ['.'] + payload + ['.'] + signature;
    assert token == header + ['.'] + tail;
    SegmentEndsAtDot(header, tail);
    assert token[|header| + 1..] == tail;
    UrlHasNoDot(Encode(text));
    SegmentEndsAtDot(payload, signature);
    assert tail[..|payload|] == payload;
    UrlReadsBackIff(text);
  }
}
