// The size limits of an upload: exact in 64 bits, and exact about what they let through.
module SizeLimits {
  import opened Wrappers
  import opened Base64
  import opened Text

  const MAX_INT64: int := 0x7FFF_FFFF_FFFF_FFFF

  newtype int64 = x: int | -0x8000_0000_0000_0000 <= x <= 0x7FFF_FFFF_FFFF_FFFF

  function Saturated(x: nat): nat {
    if x > MAX_INT64 then MAX_INT64 else x
  }

  const FRAME_ALLOWANCE: int64 := 64 * 1024

  // Limits are never negative here: the configuration refuses such values.
  function MaxRequestBodyBytesFor(maxUploadBytes: int64): (r: int64)
    requires 0 <= maxUploadBytes
    ensures r as int == Saturated(maxUploadBytes as int * 4 / 3 + 65536)
  {
    var quotient, rest := maxUploadBytes / 3, maxUploadBytes % 3;
    if quotient > 0x7FFF_FFFF_FFFF_FFFF / 4 then 0x7FFF_FFFF_FFFF_FFFF
    else
      var inflated := quotient * 4 + rest * 4 / 3;
      if inflated > 0x7FFF_FFFF_FFFF_FFFF - FRAME_ALLOWANCE then 0x7FFF_FFFF_FFFF_FFFF
      else inflated + FRAME_ALLOWANCE
  }

  function Base64EncodedLenFor(n: int64): (r: int64)
    requires 0 <= n
    ensures r as int == Saturated(EncodedLen(n as int))
  {
    var blocks := if n % 3 != 0 then n / 3 + 1 else n / 3;
    if blocks > 0x7FFF_FFFF_FFFF_FFFF / 4 then 0x7FFF_FFFF_FFFF_FFFF else blocks * 4
  }

  datatype UploadError = EncodedTooLarge | NotBase64 | DecodedTooLarge

  // The gates of the upload handler, before anything is sent.
  function UploadGate(contentBase64: string, maxUploadBytes: int64): Result<seq<Byte>, UploadError>
    requires 0 <= maxUploadBytes
  {
    if |contentBase64| > Base64EncodedLenFor(maxUploadBytes) as int then Err(EncodedTooLarge)
    else
      var decoded := Decode(contentBase64);
      if decoded.None? then Err(NotBase64)
      else if |decoded.value| > maxUploadBytes as int then Err(DecodedTooLarge)
      else Ok(decoded.value)
  }

  // What the limit is about: content that is base64 of at most that many bytes.
  predicate WithinLimit(s: string, limit: int64) {
    Decode(s).Some? && |Decode(s).value| <= limit as int
  }

  predicate NoBreaks(s: string) {
    forall i :: 0 <= i < |s| ==> !IsBreak(s[i])
  }

  // The length of a Go string is an int.
  predicate GoString(s: string) {
    |s| <= MAX_INT64
  }

  lemma EncodedLenMonotone(m: nat, n: nat)
    requires m <= n
    ensures EncodedLen(m) <= EncodedLen(n)
  {
  }

  // Content without line breaks is accepted exactly when it is within the limit, at every limit;
  // content with line breaks exactly when, besides, its whole length passes the first gate.
  lemma GateIsExact(s: string, limit: int64)
    requires 0 <= limit && GoString(s)
    ensures UploadGate(s, limit).Ok? <==> WithinLimit(s, limit) && |s| <= Base64EncodedLenFor(limit) as int
    ensures NoBreaks(s) ==> (UploadGate(s, limit).Ok? <==> WithinLimit(s, limit))
    ensures UploadGate(s, limit).Ok? ==> Decode(s) == Some(UploadGate(s, limit).value)
  {
    if Decode(s).Some? {
      DecodedLen(Strip(s));
      if |Decode(s).value| <= limit as int {
        EncodedLenMonotone(|Decode(s).value|, limit as int);
      }
    }
  }

  // Each refusal says which gate it was: the length as it comes, then the decoding, then the length
  // of what was decoded.
  lemma RefusalsAreExact(s: string, limit: int64)
    requires 0 <= limit
    ensures
      var r, long := UploadGate(s, limit), |s| > Base64EncodedLenFor(limit) as int;
      && (r == Err(EncodedTooLarge) <==> long)
      && (r == Err(NotBase64) <==> !long && Decode(s).None?)
      && (r == Err(DecodedTooLarge) <==> !long && Decode(s).Some? && |Decode(s).value| > limit as int)
  {
  }

  // The first gate refuses by length what would decode within the limit exactly when line breaks
  // take the length past the encoded limit.
  lemma RefusedByLengthAlone(s: string, limit: int64)
    requires 0 <= limit && GoString(s) && WithinLimit(s, limit)
    ensures UploadGate(s, limit) == Err(EncodedTooLarge) <==>
            |s| - |Strip(s)| > Base64EncodedLenFor(limit) as int - EncodedLen(|Decode(s).value|)
  {
    DecodedLen(Strip(s));
  }

  // Line breaks in front of content change nothing about what it decodes to.
  lemma {:induction false} BreaksInFront(breaks: string, t: string)
    requires (forall i :: 0 <= i < |breaks| ==> IsBreak(breaks[i])) && NoBreaks(t)
    ensures Strip(breaks + t) == t
  {
    if breaks == "" {
      assert breaks + t == t;
    } else {
      BreaksInFront(breaks[1..], t);
      assert (breaks + t)[1..] == breaks[1..] + t;
    }
  }

  // Four line breaks before three bytes, at a limit of three.
  lemma LineBreaksCanRefuse()
    ensures var s := "\n\n\n\n" + "AAAA";
      WithinLimit(s, 3) && UploadGate(s, 3) == Err(EncodedTooLarge)
  {
    BreaksInFront("\n\n\n\n", "AAAA");
    assert Quantum("AAAA", true) == Some([0, 0, 0, 0]) && Bytes([0, 0, 0, 0]) == [0, 0, 0];
    DecodeFirst("AAAA", "", [0, 0, 0], []);
    assert "AAAA" + "" == "AAAA" && [0, 0, 0] + [] == [0, 0, 0];
  }

  // The body limit grows with the upload limit and always holds an encoded upload, with the whole
  // frame to spare unless it saturates.
  lemma BodyLimitCoversUpload(n: int64)
    requires 0 <= n
    ensures Base64EncodedLenFor(n) <= MaxRequestBodyBytesFor(n)
    ensures MaxRequestBodyBytesFor(n) as int < MAX_INT64 ==>
              MaxRequestBodyBytesFor(n) as int - Base64EncodedLenFor(n) as int >= 65536 - 3
    ensures forall m: int64 :: n <= m ==> MaxRequestBodyBytesFor(n) <= MaxRequestBodyBytesFor(m)
  {
    assert EncodedLen(n as int) <= n as int * 4 / 3 + 3;
  }

  // Any content of at most the limit can be uploaded, by encoding it.
  lemma EveryContentFits(b: seq<Byte>, limit: int64)
    requires 0 <= limit && |b| <= limit as int && GoString(Encode(b))
    ensures UploadGate(Encode(b), limit) == Ok(b)
    ensures |Encode(b)| <= MaxRequestBodyBytesFor(limit) as int
  {
    RoundTrip(b);
    EncodedLenMonotone(|b|, limit as int);
    BodyLimitCoversUpload(limit);
  }
}
