/** Protocol limits: the Go check (internal/capsule/types.go), the TypeScript
    schema and cross-field check (capsule/src/wire.ts, capsule/src/attempt-policy.ts),
    and the size of a `model_result` frame (internal/capsule/session.go,
    internal/capsule/wire.go). */
module Limits {
  import opened Text
  import Json
  import Sse

  const FRAME_RESERVE := 8_192

  datatype Limits = Limits(
    maxFrameBytes: int, maxAggregateBytes: int, maxStringBytes: int, maxDepth: int, maxKeys: int,
    maxFetchBodyBytes: int, maxFetches: int, maxModelRequests: int)

  const DEFAULTS := Limits(2_097_152, 16_777_216, 1_048_576, 32, 50_000, 1_048_576, 64, 16)

  function Max(a: int, b: int): int { if a < b then b else a }

  /** `Limits.validate`, apart from the attempt timeout. */
  predicate GoValid(l: Limits) {
    !(l.maxFrameBytes < 1_024 || l.maxFrameBytes > 4_194_304 ||
      l.maxAggregateBytes < Max(4_096, l.maxFrameBytes) || l.maxAggregateBytes > 33_554_432 ||
      l.maxStringBytes < 256 || l.maxStringBytes > 2_097_152 ||
      l.maxDepth < 4 || l.maxDepth > 64 || l.maxKeys < 32 || l.maxKeys > 100_000 ||
      l.maxFetchBodyBytes < 1_024 || l.maxFetchBodyBytes > 1_048_576 ||
      l.maxModelRequests < 1 || l.maxModelRequests > l.maxFetches || l.maxFetches > 1_000 ||
      l.maxStringBytes > l.maxFrameBytes ||
      4 * ((l.maxFetchBodyBytes + 2) / 3) + FRAME_RESERVE > l.maxFrameBytes)
  }

  /** The ranges of the TypeScript schema. */
  predicate TsSchema(l: Limits) {
    && 1_024 <= l.maxFrameBytes <= 4_194_304 && 4_096 <= l.maxAggregateBytes <= 33_554_432
    && 256 <= l.maxStringBytes <= 2_097_152 && 4 <= l.maxDepth <= 64 && 32 <= l.maxKeys <= 100_000
    && 1_024 <= l.maxFetchBodyBytes <= 1_048_576 && 1 <= l.maxFetches <= 1_000 && 1 <= l.maxModelRequests <= 1_000
  }

  /** `Math.ceil`. */
  function Ceil(x: real): int { -(-x).Floor }

  /** `validateAttemptLimits`. */
  predicate TsCross(l: Limits) {
    var requiredFetchFrame := 4 * Ceil(l.maxFetchBodyBytes as real / 3.0) + FRAME_RESERVE;
    !(l.maxAggregateBytes < Max(4_096, l.maxFrameBytes) || l.maxStringBytes > l.maxFrameBytes ||
      requiredFetchFrame > l.maxFrameBytes || l.maxModelRequests > l.maxFetches)
  }

  lemma CeilThird(n: int)
    ensures Ceil(n as real / 3.0) == (n + 2) / 3
  {
    var q := (n + 2) / 3;
    assert 3 * q - 2 <= n <= 3 * q;
    var x := -(n as real / 3.0);
    assert (-q) as real <= x < (-q) as real + 1.0;
    assert x.Floor == -q;
  }

  /** Host and capsule accept the same limits. */
  lemma LimitsAgree(l: Limits)
    ensures GoValid(l) <==> TsSchema(l) && TsCross(l)
  {
    CeilThird(l.maxFetchBodyBytes);
  }

  // ---------------------------------------------------------------------
  // Base64 (section 4 of RFC 4648)
  // ---------------------------------------------------------------------

  type Sextet = n: int | 0 <= n < 64

  function Digit(n: Sextet): (c: char)
    ensures c as int < 0x80
  {
    if n < 26 then 'A' + n as char
    else if n < 52 then 'a' + (n - 26) as char
    else if n < 62 then '0' + (n - 52) as char
    else if n == 62 then '+' else '/'
  }

  function Base64(b: seq<Byte>): string {
    if b == [] then ""
    else if |b| == 1 then [Digit(b[0] / 4), Digit(b[0] % 4 * 16), '=', '=']
    else if |b| == 2 then [Digit(b[0] / 4), Digit(b[0] % 4 * 16 + b[1] / 16), Digit(b[1] % 16 * 4), '=']
    else [Digit(b[0] / 4), Digit(b[0] % 4 * 16 + b[1] / 16), Digit(b[1] % 16 * 4 + b[2] / 64), Digit(b[2] % 64)] +
         Base64(b[3..])
  }

  predicate Ascii(s: string) { forall i :: 0 <= i < |s| ==> s[i] as int < 0x80 }

  lemma {:induction false} Base64IsAscii(b: seq<Byte>)
    ensures Ascii(Base64(b))
  {
    if |b| > 2 {
      Base64IsAscii(b[3..]);
      AsciiConcat(Base64(b)[..4], Base64(b[3..]));
    }
  }

  lemma ThirdsMore(n: nat)
    ensures (n + 3 + 2) / 3 == (n + 2) / 3 + 1
  {}

  /** Four characters for every three bytes begun, all of one byte. */
  lemma {:induction false} Base64Length(b: seq<Byte>)
    ensures |Base64(b)| == 4 * ((|b| + 2) / 3) && Ascii(Base64(b))
  {
    Base64IsAscii(b);
    if |b| > 2 {
      Base64Length(b[3..]);
      ThirdsMore(|b| - 3);
    }
  }

  /** The value of a base64 digit. */
  function Undigit(c: char): int {
    if 'A' <= c <= 'Z' then c as int - 'A' as int
    else if 'a' <= c <= 'z' then c as int - 'a' as int + 26
    else if '0' <= c <= '9' then c as int - '0' as int + 52
    else if c == '+' then 62 else 63
  }

  /** Decoding as the receiver does it: four digits at a time, up to the padding. */
  function Unbase64(s: string): seq<int> {
    if |s| < 4 then []
    else
      var first := Undigit(s[0]) * 4 + Undigit(s[1]) / 16;
      if s[2] == '=' then [first]
      else
        var second := Undigit(s[1]) % 16 * 16 + Undigit(s[2]) / 4;
        if s[3] == '=' then [first, second]
        else [first, second, Undigit(s[2]) % 4 * 64 + Undigit(s[3])] + Unbase64(s[4..])
  }

  lemma DigitReadsBack(n: Sextet)
    ensures Undigit(Digit(n)) == n && Digit(n) != '='
  {}

  /** Three bytes from four digits. */
  lemma GroupReadsBack(a: Byte, b: Byte, c: Byte)
    ensures Undigit(Digit(a / 4)) * 4 + Undigit(Digit(a % 4 * 16 + b / 16)) / 16 == a
    ensures Undigit(Digit(a % 4 * 16 + b / 16)) % 16 * 16 + Undigit(Digit(b % 16 * 4 + c / 64)) / 4 == b
    ensures Undigit(Digit(b % 16 * 4 + c / 64)) % 4 * 64 + Undigit(Digit(c % 64)) == c
  {
    DigitReadsBack(a / 4);
    DigitReadsBack(a % 4 * 16 + b / 16);
    DigitReadsBack(b % 16 * 4 + c / 64);
    DigitReadsBack(c % 64);
  }

  lemma FourDigits(p: char, q: char, r: char, t: char, rest: string)
    requires r != '=' && t != '='
    ensures Unbase64([p, q, r, t] + rest) ==
            [Undigit(p) * 4 + Undigit(q) / 16, Undigit(q) % 16 * 16 + Undigit(r) / 4, Undigit(r) % 4 * 64 + Undigit(t)]
            + Unbase64(rest)
  {
    assert ([p, q, r, t] + rest)[4..] == rest;
  }

  lemma GroupDecodes(a: Byte, b: Byte, c: Byte, rest: string)
    ensures Unbase64([Digit(a / 4), Digit(a % 4 * 16 + b / 16), Digit(b % 16 * 4 + c / 64), Digit(c % 64)] + rest) ==
            [a as int, b as int, c as int] + Unbase64(rest)
  {
    var p, q, r, t := Digit(a / 4), Digit(a % 4 * 16 + b / 16), Digit(b % 16 * 4 + c / 64), Digit(c % 64);
    GroupReadsBack(a, b, c);
    DigitReadsBack(b % 16 * 4 + c / 64);
    DigitReadsBack(c % 64);
    FourDigits(p, q, r, t, rest);
  }

  lemma PaddedDecodes(a: Byte, b: Byte)
    ensures Unbase64([Digit(a / 4), Digit(a % 4 * 16), '=', '=']) == [a as int]
    ensures Unbase64([Digit(a / 4), Digit(a % 4 * 16 + b / 16), Digit(b % 16 * 4), '=']) == [a as int, b as int]
  {
    GroupReadsBack(a, 0, 0);
    GroupReadsBack(a, b, 0);
    DigitReadsBack(b % 16 * 4);
  }

  /** What is sent as base64 decodes to the body. */
  lemma {:induction false} Base64RoundTrip(b: seq<Byte>)
    ensures Unbase64(Base64(b)) == b
  {
    if 1 <= |b| <= 2 {
      PaddedDecodes(b[0], b[|b| - 1]);
    } else if |b| > 2 {
      Base64RoundTrip(b[3..]);
      GroupDecodes(b[0], b[1], b[2], Base64(b[3..]));
      assert b == [b[0], b[1], b[2]] + b[3..];
    }
  }

  lemma {:induction false} AsciiLength(s: string)
    requires Ascii(s)
    ensures ByteLen(s) == |s|
  {
    if s != "" { AsciiLength(s[1..]); }
  }

  // ---------------------------------------------------------------------
  // The model_result frame
  // ---------------------------------------------------------------------

  const HEAD := "{\"body_base64\":\""
  const MIDDLE := "\",\"id\":\""
  const TAIL := "\",\"type\":\"model_result\"}"

  /** The canonical text of a `model_result`; neither string needs escapes. */
  function ResultFrame(id: string, body: seq<Byte>): string {
    HEAD + Base64(body) + MIDDLE + id + TAIL
  }

  lemma FrameLength(id: string, body: seq<Byte>)
    requires Sse.ValidOperationId(id)
    ensures ByteLen(ResultFrame(id, body)) == 48 + |id| + 4 * ((|body| + 2) / 3)
  {
    Base64Length(body);
    var frame := ResultFrame(id, body);
    assert |HEAD| == 16 && |MIDDLE| == 8 && |TAIL| == 24;
    FrameIsAscii(id, body);
    AsciiLength(frame);
  }

  lemma AsciiConcat(a: string, b: string)
    requires Ascii(a) && Ascii(b)
    ensures Ascii(a + b)
  {}

  lemma FrameIsAscii(id: string, body: seq<Byte>)
    requires Sse.ValidOperationId(id)
    ensures Ascii(ResultFrame(id, body))
  {
    Base64Length(body);
    assert Ascii(id);
    AsciiConcat(HEAD, Base64(body));
    AsciiConcat(HEAD + Base64(body), MIDDLE);
    AsciiConcat(HEAD + Base64(body) + MIDDLE, id);
    AsciiConcat(HEAD + Base64(body) + MIDDLE + id, TAIL);
  }

  /** Accepted limits leave room for a `model_result` with any body within the
      fetch limit and any valid identifier. */
  lemma ResultFitsFrame(l: Limits, id: string, body: seq<Byte>)
    requires GoValid(l) && Sse.ValidOperationId(id) && |body| <= l.maxFetchBodyBytes
    ensures ByteLen(ResultFrame(id, body)) <= l.maxFrameBytes
  {
    FrameLength(id, body);
  }

  const NAMES := ["body_base64", "id", "type"]
  const KIND := "model_result"

  function Message(names: seq<string>, values: seq<string>): Json.Tree
    requires |names| == |values| == 3
  {
    Json.Record([Json.Field(names[0], Json.Leaf(Json.Str(values[0]))),
                 Json.Field(names[1], Json.Leaf(Json.Str(values[1]))),
                 Json.Field(names[2], Json.Leaf(Json.Str(values[2])))])
  }

  /** The message as the sender decodes it again before writing the frame. */
  function ResultTree(id: string, body: seq<Byte>): Json.Tree {
    Message(NAMES, [Base64(body), id, KIND])
  }

  lemma {:induction false} ShortText(s: string)
    ensures ByteLen(s) <= 4 * |s|
  {
    if s != "" { ShortText(s[1..]); }
  }

  /** A message of three strings decodes within limits exactly when they are short. */
  lemma ThreeStrings(names: seq<string>, values: seq<string>, limits: Json.Limits)
    requires |names| == |values| == 3 && limits.maxDepth >= 2 && limits.maxKeys >= 3
    requires forall i :: 0 <= i < 3 ==> ByteLen(names[i]) <= limits.maxStringBytes
    ensures Json.WithinLimits(Message(names, values), limits) <==>
            forall i :: 0 <= i < 3 ==> ByteLen(values[i]) <= limits.maxStringBytes
  {
    var t := Message(names, values);
    assert Json.KeyCount(t) == 3 by {
      assert Json.FieldKeys(t.fields[3..]) == 0;
      assert Json.FieldKeys(t.fields[2..]) == 1 by { assert t.fields[2..][1..] == t.fields[3..]; }
      assert Json.FieldKeys(t.fields[1..]) == 2 by { assert t.fields[1..][1..] == t.fields[2..]; }
      assert Json.FieldKeys(t.fields) == 3;
    }
    forall i | 0 <= i < 3
      ensures Json.Bounded(t.fields[i].tree, 2, limits) <==> ByteLen(values[i]) <= limits.maxStringBytes
    {
      assert t.fields[i] == Json.Field(names[i], Json.Leaf(Json.Str(values[i])));
    }
  }

  lemma OneLongString(names: seq<string>, encoded: string, id: string, kind: string, limits: Json.Limits)
    requires |names| == 3 && (forall i :: 0 <= i < 3 ==> |names[i]| <= 12) && |kind| <= 12
    requires Ascii(encoded) && Sse.ValidOperationId(id)
    requires limits.maxDepth >= 2 && limits.maxKeys >= 3 && limits.maxStringBytes >= 256
    ensures Json.WithinLimits(Message(names, [encoded, id, kind]), limits) <==> |encoded| <= limits.maxStringBytes
  {
    AsciiLength(encoded);
    AsciiLength(id);
    forall i | 0 <= i < 3 ensures ByteLen(names[i]) <= 256 { ShortText(names[i]); }
    ShortText(kind);
    var values := [encoded, id, kind];
    assert values[0] == encoded && values[1] == id && values[2] == kind;
    ThreeStrings(names, values, limits);
  }

  /** The checks on frames do not bound strings: the sender's own decoding accepts
      the message exactly when the encoded body is within the string limit. */
  lemma ResultFitsStringLimit(l: Limits, id: string, body: seq<Byte>)
    requires GoValid(l) && Sse.ValidOperationId(id)
    ensures Json.WithinLimits(ResultTree(id, body), Json.Limits(l.maxDepth, l.maxStringBytes, l.maxKeys)) <==>
            4 * ((|body| + 2) / 3) <= l.maxStringBytes
  {
    Base64Length(body);
    OneLongString(NAMES, Base64(body), id, KIND, Json.Limits(l.maxDepth, l.maxStringBytes, l.maxKeys));
  }

  /** With the default limits a body of 786 433 bytes, well within the fetch limit,
      fits the frame but not the string limit. */
  lemma DefaultsRefuseLargeBodies(body: seq<Byte>)
    requires |body| == 786_433
    ensures GoValid(DEFAULTS) && |body| <= DEFAULTS.maxFetchBodyBytes
    ensures !Json.WithinLimits(ResultTree("m", body),
                               Json.Limits(DEFAULTS.maxDepth, DEFAULTS.maxStringBytes, DEFAULTS.maxKeys))
  {
    ResultFitsStringLimit(DEFAULTS, "m", body);
  }
}
