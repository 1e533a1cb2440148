/** The short marker token and its extraction from arbitrary text. */
module Marker {
  import opened CoreTypes
  import opened Base64

  const SHORT_PREFIX := "ygr1s."
  const LONG_PREFIX := "ygr1."
  const SIGNATURE_CHARS := 43
  const SIGNATURE_BYTES := 32
  const MAX_SHORT_MARKER_CHARS := 180

  datatype ObservedMarker = Short(deliveryId: string, bindingId: string, signature: string) | Long(marker: DeliveryMarker)

  /** The long token's codec; a text that does not decode is skipped. */
  datatype LongForm = LongForm(decode: string -> Option<DeliveryMarker>, encode: DeliveryMarker -> string)

  predicate IsId(s: string) {
    1 <= |s| <= 64 && IsToken(s)
  }

  predicate IsSignature(s: string) {
    |s| == 2 * SIGNATURE_BYTES && IsHex(s)
  }

  /** The literal token of a short marker. */
  function Print(deliveryId: string, bindingId: string, encodedSignature: string): string {
    SHORT_PREFIX + deliveryId + "." + bindingId + "." + encodedSignature
  }

  /** `None` where encoding raises. */
  function EncodeShort(m: DeliveryMarker): Option<string> {
    if !IsId(m.claims.deliveryId) || !IsId(m.claims.bindingId) || !IsSignature(m.signature) then None
    else
      var token := Print(m.claims.deliveryId, m.claims.bindingId, Encode(FromHex(m.signature)));
      if |token| > MAX_SHORT_MARKER_CHARS then None else Some(token)
  }

  // ---------------------------------------------------------------- extraction

  /** How many leading characters may stand in a token. */
  function Run(h: string): (n: nat)
    ensures n <= |h| && IsToken(h[..n])
    ensures n < |h| ==> !IsTokenChar(h[n])
  {
    if h == "" || !IsTokenChar(h[0]) then 0
    else
      var n := 1 + Run(h[1..]);
      assert h[..n] == [h[0]] + h[1..][..n - 1];
      n
  }

  datatype Fields = Fields(deliveryId: string, bindingId: string, encodedSignature: string)

  /** An id and the dot behind it. */
  function IdAndDot(h: string): Option<(string, string)> {
    var n := Run(h);
    if 1 <= n <= 64 && n < |h| && h[n] == '.' then Some((h[..n], h[n + 1..])) else None
  }

  /** Exactly 43 signature characters, with no token character behind them. */
  function SignatureHere(h: string): Option<string> {
    if Run(h) == SIGNATURE_CHARS then Some(h[..SIGNATURE_CHARS]) else None
  }

  function IdsAndSignature(h: string): Option<Fields> {
    var d := IdAndDot(h);
    if d.None? then None
    else
      var b := IdAndDot(d.value.1);
      if b.None? then None
      else
        var s := SignatureHere(b.value.1);
        if s.None? then None else Some(Fields(d.value.0, b.value.0, s.value))
  }

  /** The short token at the very start of a text, if one stands there. */
  function ShortHere(h: string): Option<Fields> {
    if SHORT_PREFIX <= h then IdsAndSignature(h[|SHORT_PREFIX|..]) else None
  }

  /** The leftmost short token. */
  function Search(h: string): Option<Fields> {
    if ShortHere(h).Some? || h == "" then ShortHere(h) else Search(h[1..])
  }

  /** The canonical form of a signature: its 32 bytes, re-encoded, give the very text. */
  function DecodeSignature(encoded: string): Option<seq<Byte>>
    requires IsToken(encoded)
  {
    var bytes := Decode(encoded);
    if |bytes| == SIGNATURE_BYTES && Encode(bytes) == encoded then Some(bytes) else None
  }

  /** The first long token that decodes; tokens do not overlap. */
  function SearchLong(long: LongForm, h: string): Option<DeliveryMarker>
    decreases |h|
  {
    if h == "" then None
    else if LONG_PREFIX <= h && Run(h[|LONG_PREFIX|..]) > 0 then
      var end := |LONG_PREFIX| + Run(h[|LONG_PREFIX|..]);
      var decoded := long.decode(h[..end]);
      if decoded.Some? then decoded else SearchLong(long, h[end..])
    else SearchLong(long, h[1..])
  }

  function Extract(long: LongForm, h: string): Option<ObservedMarker> {
    var short := if h == "" then None else Search(h);
    if short.Some? && IsToken(short.value.encodedSignature) && DecodeSignature(short.value.encodedSignature).Some? then
      Some(Short(short.value.deliveryId, short.value.bindingId, ToHex(DecodeSignature(short.value.encodedSignature).value)))
    else
      var found := SearchLong(long, h);
      if found.Some? then Some(Long(found.value)) else None
  }

  function MarkerText(long: LongForm, m: ObservedMarker): string
    requires m.Short? ==> IsSignature(m.signature)
  {
    match m
    case Short(d, b, s) => Print(d, b, Encode(FromHex(s)))
    case Long(marker) => long.encode(marker)
  }

  // ---------------------------------------------------------------- tokens in texts

  /** A short token stands at the start of a text: the pattern, read declaratively. */
  ghost predicate Matches(h: string, f: Fields, rest: string) {
    && h == Print(f.deliveryId, f.bindingId, f.encodedSignature) + rest
    && IsId(f.deliveryId) && IsId(f.bindingId)
    && |f.encodedSignature| == SIGNATURE_CHARS && IsToken(f.encodedSignature)
    && (rest != "" ==> !IsTokenChar(rest[0]))
  }

  lemma {:induction false} RunIs(a: string, b: string)
    requires IsToken(a) && (b != "" ==> !IsTokenChar(b[0]))
    ensures Run(a + b) == |a|
  {
    if a == "" {
      assert a + b == b;
    } else {
      assert a[0] in a;
      assert (a + b)[1..] == a[1..] + b;
      RunIs(a[1..], b);
    }
  }

  lemma IdIsFound(id: string, rest: string)
    requires IsId(id)
    ensures IdAndDot(id + ("." + rest)) == Some((id, rest))
  {
    RunIs(id, "." + rest);
    assert (id + ("." + rest))[|id| + 1..] == rest && (id + ("." + rest))[..|id|] == id;
  }

  lemma FoundIdIs(h: string)
    requires IdAndDot(h).Some?
    ensures IsId(IdAndDot(h).value.0) && h == IdAndDot(h).value.0 + ("." + IdAndDot(h).value.1)
  {}

  lemma PrintNests(d: string, b: string, s: string, rest: string)
    ensures Print(d, b, s) + rest == SHORT_PREFIX + (d + ("." + (b + ("." + (s + rest)))))
  {
    var right := SHORT_PREFIX + (d + ("." + (b + ("." + (s + rest)))));
    assert SHORT_PREFIX + d + "." + b + "." + s + rest == right;
  }

  lemma MatchIsFound(h: string, f: Fields, rest: string)
    requires Matches(h, f, rest)
    ensures ShortHere(h) == Some(f)
  {
    var s := f.encodedSignature + rest;
    var b := f.bindingId + ("." + s);
    var d := f.deliveryId + ("." + b);
    PrintNests(f.deliveryId, f.bindingId, f.encodedSignature, rest);
    IdIsFound(f.deliveryId, b);
    IdIsFound(f.bindingId, s);
    RunIs(f.encodedSignature, rest);
    assert s[..SIGNATURE_CHARS] == f.encodedSignature;
    assert SignatureHere(s) == Some(f.encodedSignature);
    PrefixCut(SHORT_PREFIX, d);
  }

  lemma PrefixCut(prefix: string, h: string)
    ensures prefix <= prefix + h && (prefix + h)[|prefix|..] == h
  {}

  lemma FoundIsMatch(h: string, f: Fields) returns (rest: string)
    requires ShortHere(h) == Some(f)
    ensures Matches(h, f, rest)
  {
    var d := h[|SHORT_PREFIX|..];
    assert h == SHORT_PREFIX + d;
    rest := FieldsAre(d, f);
    PrintNests(f.deliveryId, f.bindingId, f.encodedSignature, rest);
  }

  lemma FieldsAre(d: string, f: Fields) returns (rest: string)
    requires IdsAndSignature(d) == Some(f)
    ensures d == f.deliveryId + ("." + (f.bindingId + ("." + (f.encodedSignature + rest))))
    ensures IsId(f.deliveryId) && IsId(f.bindingId) && |f.encodedSignature| == SIGNATURE_CHARS && IsToken(f.encodedSignature)
    ensures rest != "" ==> !IsTokenChar(rest[0])
  {
    FoundIdIs(d);
    var b := IdAndDot(d).value.1;
    FoundIdIs(b);
    var s := IdAndDot(b).value.1;
    rest := s[SIGNATURE_CHARS..];
    assert s == f.encodedSignature + rest;
  }

  /** The parser finds exactly the pattern's match, and a text has at most one at its start. */
  lemma PatternIsUnambiguous(h: string, f: Fields)
    ensures ShortHere(h) == Some(f) <==> exists rest :: Matches(h, f, rest)
  {
    if ShortHere(h) == Some(f) {
      var rest := FoundIsMatch(h, f);
    }
    if rest :| Matches(h, f, rest) {
      MatchIsFound(h, f, rest);
    }
  }

  /** Text without the token's first letter hides nothing. */
  lemma {:induction false} SearchSkips(prefix: string, h: string)
    requires 'y' !in prefix && h != "" && ShortHere(h).Some?
    ensures Search(prefix + h) == ShortHere(h)
  {
    if prefix == "" {
      assert prefix + h == h;
    } else {
      assert prefix[0] in prefix && (prefix + h)[0] != SHORT_PREFIX[0];
      assert (prefix + h)[1..] == prefix[1..] + h;
      SearchSkips(prefix[1..], h);
    }
  }

  // ---------------------------------------------------------------- signatures

  /** A text of 43 token characters is accepted exactly when it is the form of some 32 bytes, which are
      then unique; equivalently, exactly when the two unused bits of its last character are zero. */
  lemma SignatureIsCanonical(encoded: string)
    requires IsToken(encoded) && |encoded| == SIGNATURE_CHARS
    ensures forall b: seq<Byte> :: DecodeSignature(encoded) == Some(b) <==> |b| == SIGNATURE_BYTES && Encode(b) == encoded
    ensures DecodeSignature(encoded).Some? <==> ValueOf(encoded[SIGNATURE_CHARS - 1]) % 4 == 0
  {
    forall b: seq<Byte> ensures DecodeSignature(encoded) == Some(b) <==> |b| == SIGNATURE_BYTES && Encode(b) == encoded {
      if Encode(b) == encoded {
        DecodeEncode(b);
      }
    }
    ByteCount(DigitsOf(encoded));
    EncodeDecode(encoded);
  }

  lemma EncodedSignature(signature: string)
    requires IsSignature(signature)
    ensures var encoded := Encode(FromHex(signature));
            && |encoded| == SIGNATURE_CHARS && DecodeSignature(encoded) == Some(FromHex(signature))
            && ToHex(FromHex(signature)) == signature
  {
    SextetCount(FromHex(signature));
    DecodeEncode(FromHex(signature));
    BytesThenHex(signature);
  }

  // ---------------------------------------------------------------- round trips

  /** Every encodable marker fits: the length check never refuses one. */
  lemma ShortFits(m: DeliveryMarker)
    ensures EncodeShort(m).Some?
       <==> && 1 <= |m.claims.deliveryId| <= 64 && IsToken(m.claims.deliveryId)
            && 1 <= |m.claims.bindingId| <= 64 && IsToken(m.claims.bindingId)
            && |m.signature| == 64 && IsHex(m.signature)
    ensures EncodeShort(m).Some? ==> |EncodeShort(m).value| <= 179
  {
    if IsSignature(m.signature) {
      EncodedSignature(m.signature);
    }
  }

  /** A token at the start of a text, or after a prefix that hides nothing, is extracted. */
  lemma {:induction false} TokenIsExtracted(long: LongForm, prefix: string, d: string, b: string, signature: string, rest: string)
    requires 'y' !in prefix && IsId(d) && IsId(b) && IsSignature(signature)
    requires rest != "" ==> !IsTokenChar(rest[0])
    ensures Extract(long, prefix + Print(d, b, Encode(FromHex(signature))) + rest) == Some(Short(d, b, signature))
  {
    EncodedSignature(signature);
    var encoded := Encode(FromHex(signature));
    var h, f := Print(d, b, encoded) + rest, Fields(d, b, encoded);
    MatchIsFound(h, f, rest);
    SearchSkips(prefix, h);
    assert prefix + Print(d, b, encoded) + rest == prefix + h;
  }

  /** The text an injector types: a profile's prefix, the token, a space, and the message. */
  function Typed(prefix: string, token: string, body: string): string {
    prefix + (token + " " + body)
  }

  /** However a preview truncates it behind the token, extraction gives back exactly the marker's delivery,
      binding and signature. */
  lemma {:induction false} PreviewRoundTrip(long: LongForm, prefix: string, m: DeliveryMarker, body: string, n: nat)
    requires EncodeShort(m).Some? && 'y' !in prefix
    requires |prefix| + |EncodeShort(m).value| <= n <= |Typed(prefix, EncodeShort(m).value, body)|
    ensures Extract(long, Typed(prefix, EncodeShort(m).value, body)[..n])
         == Some(Short(m.claims.deliveryId, m.claims.bindingId, m.signature))
  {
    var token := EncodeShort(m).value;
    var text := Typed(prefix, token, body);
    var rest := (" " + body)[..n - |prefix| - |token|];
    assert text[..n] == prefix + token + rest;
    TokenIsExtracted(long, prefix, m.claims.deliveryId, m.claims.bindingId, m.signature, rest);
  }

  const PLAIN_PREFIX := ""
  const QUEUE_PREFIX := "/queue "

  /** Both profile prefixes qualify. */
  lemma ProfilePrefixesHideNothing()
    ensures 'y' !in PLAIN_PREFIX && 'y' !in QUEUE_PREFIX
  {}

  lemma {:induction false} SearchFindsMatch(h: string)
    requires Search(h).Some?
    ensures IsId(Search(h).value.deliveryId) && IsId(Search(h).value.bindingId)
    ensures |Search(h).value.encodedSignature| == SIGNATURE_CHARS && IsToken(Search(h).value.encodedSignature)
  {
    if ShortHere(h).Some? {
      var rest := FoundIsMatch(h, ShortHere(h).value);
    } else {
      SearchFindsMatch(h[1..]);
    }
  }

  /** An extracted short marker is well formed. */
  lemma {:induction false} ExtractedIsWellFormed(long: LongForm, h: string)
    requires Extract(long, h).Some?
    ensures var m := Extract(long, h).value; m.Short? ==> IsId(m.deliveryId) && IsId(m.bindingId) && IsSignature(m.signature)
  {
    if Extract(long, h).value.Short? {
      SearchFindsMatch(h);
    }
  }

  /** A long token holds no short one, and is itself found. */
  lemma {:induction false} NoShortInside(t: string)
    requires forall i | 0 <= i < |t| :: t[i] == '.' ==> i <= 4
    ensures Search(t).None?
    decreases |t|
  {
    assert SHORT_PREFIX[5] == '.' && !(SHORT_PREFIX <= t);
    if t != "" {
      NoShortInside(t[1..]);
    }
  }

  /** The long codec as far as extraction relies on it: a decoded marker prints to a token that decodes to
      the marker. */
  ghost predicate LongOk(long: LongForm) {
    forall text: string | long.decode(text).Some? ::
      var t := long.encode(long.decode(text).value);
      && long.decode(t) == long.decode(text)
      && |t| > |LONG_PREFIX| && LONG_PREFIX <= t && IsToken(t[|LONG_PREFIX|..])
  }

  lemma {:induction false} SearchLongDecodes(long: LongForm, h: string) returns (text: string)
    requires SearchLong(long, h).Some?
    ensures long.decode(text) == SearchLong(long, h)
    decreases |h|
  {
    if LONG_PREFIX <= h && Run(h[|LONG_PREFIX|..]) > 0 {
      var end := |LONG_PREFIX| + Run(h[|LONG_PREFIX|..]);
      if long.decode(h[..end]).Some? {
        text := h[..end];
      } else {
        text := SearchLongDecodes(long, h[end..]);
      }
    } else {
      text := SearchLongDecodes(long, h[1..]);
    }
  }

  lemma {:induction false} LongTokenIsExtracted(long: LongForm, t: string)
    requires |t| > |LONG_PREFIX| && LONG_PREFIX <= t && IsToken(t[|LONG_PREFIX|..]) && long.decode(t).Some?
    ensures Extract(long, t) == Some(Long(long.decode(t).value))
  {
    var run := t[|LONG_PREFIX|..];
    RunIs(run, "");
    assert run + "" == run && t[..|t|] == t;
    forall i | 0 <= i < |t| && t[i] == '.' ensures i <= 4 {
      if i > 4 {
        assert t[i] == run[i - 5] && run[i - 5] in run;
      }
    }
    NoShortInside(t);
  }

  /** The text ends where no token can go on. */
  predicate Breaks(before: string) {
    before == "" || (!IsTokenChar(before[|before| - 1]) && before[|before| - 1] != '.')
  }

  lemma {:induction false} LongTokenFirst(long: LongForm, t: string, rest: string)
    requires |t| > |LONG_PREFIX| && LONG_PREFIX <= t && IsToken(t[|LONG_PREFIX|..]) && long.decode(t).Some?
    requires rest != "" ==> !IsTokenChar(rest[0])
    ensures SearchLong(long, t + rest) == long.decode(t)
  {
    RunIs(t[|LONG_PREFIX|..], rest);
    assert (t + rest)[|LONG_PREFIX|..] == t[|LONG_PREFIX|..] + rest && (t + rest)[..|t|] == t;
  }

  lemma BreaksLater(before: string, n: nat)
    requires Breaks(before) && n <= |before|
    ensures Breaks(before[n..])
  {}

  /** A token that decodes is found behind any text that ends in a break, whatever tokens in that text do not
      decode. */
  lemma {:induction false} LongTokenIsFound(long: LongForm, before: string, t: string, rest: string)
    requires Breaks(before) && |t| > |LONG_PREFIX| && LONG_PREFIX <= t && IsToken(t[|LONG_PREFIX|..]) && long.decode(t).Some?
    requires rest != "" ==> !IsTokenChar(rest[0])
    ensures SearchLong(long, before + t + rest).Some?
    decreases |before|
  {
    var h := before + t + rest;
    assert h == before + (t + rest);
    if before == "" {
      LongTokenFirst(long, t, rest);
      assert h == t + rest;
    } else if LONG_PREFIX <= h && Run(h[|LONG_PREFIX|..]) > 0 {
      var end := |LONG_PREFIX| + Run(h[|LONG_PREFIX|..]);
      EndsBefore(before, t + rest, end);
      BreaksLater(before, end);
      assert h[end..] == before[end..] + t + rest;
      LongTokenIsFound(long, before[end..], t, rest);
    } else {
      BreaksLater(before, 1);
      assert h[1..] == before[1..] + t + rest;
      LongTokenIsFound(long, before[1..], t, rest);
    }
  }

  /** A token that begins before a break ends before it. */
  lemma {:induction false} EndsBefore(before: string, after: string, end: nat)
    requires before != "" && Breaks(before) && LONG_PREFIX <= before + after
    requires end == |LONG_PREFIX| + Run((before + after)[|LONG_PREFIX|..])
    ensures end < |before|
  {
    var h := before + after;
    assert h[|before| - 1] == before[|before| - 1];
    TokenChars(h, end);
  }

  lemma TokenChars(h: string, end: nat)
    requires LONG_PREFIX <= h && end == |LONG_PREFIX| + Run(h[|LONG_PREFIX|..])
    ensures end <= |h| && forall k | 0 <= k < end :: IsTokenChar(h[k]) || h[k] == '.'
  {
    var tail := h[|LONG_PREFIX|..];
    forall k | 0 <= k < end ensures IsTokenChar(h[k]) || h[k] == '.' {
      if k < |LONG_PREFIX| {
        assert h[k] == LONG_PREFIX[k];
      } else {
        assert h[k] == tail[..Run(tail)][k - |LONG_PREFIX|] && h[k] in tail[..Run(tail)];
      }
    }
  }

  /** Extraction is idempotent: re-printing an extracted marker and extracting again gives it back. */
  lemma {:induction false} ExtractAgain(long: LongForm, h: string)
    requires LongOk(long) && Extract(long, h).Some?
    ensures var m := Extract(long, h).value;
            (m.Short? ==> IsSignature(m.signature)) && Extract(long, MarkerText(long, m)) == Some(m)
  {
    var m := Extract(long, h).value;
    if m.Short? {
      ExtractedIsWellFormed(long, h);
      TokenIsExtracted(long, "", m.deliveryId, m.bindingId, m.signature, "");
      var token := Print(m.deliveryId, m.bindingId, Encode(FromHex(m.signature)));
      assert "" + token + "" == token;
    } else {
      var text := SearchLongDecodes(long, h);
      LongTokenIsExtracted(long, long.encode(m.marker));
    }
  }
}
