// Padded base64 (RFC 4648, section 4) as Go's base64.StdEncoding reads and writes it.
module Base64 {
  import opened Text
  import opened Wrappers

  type Sextet = v: nat | v < 64

  function Letter(v: Sextet): char {
    if v < 26 then ('A' as int + v) as char
    else if v < 52 then ('a' as int + v - 26) as char
    else if v < 62 then ('0' as int + v - 52) as char
    else if v == 62 then '+' else '/'
  }

  function Value(c: char): Option<Sextet> {
    if 'A' <= c <= 'Z' then Some(c as int - 'A' as int)
    else if 'a' <= c <= 'z' then Some(c as int - 'a' as int + 26)
    else if '0' <= c <= '9' then Some(c as int - '0' as int + 52)
    else if c == '+' then Some(62)
    else if c == '/' then Some(63)
    else None
  }

  predicate IsBreak(c: char) {
    c == '\n' || c == '\r'
  }

  function Strip(s: string): (t: string)
    ensures |t| <= |s|
    ensures forall i :: 0 <= i < |t| ==> !IsBreak(t[i])
    ensures (forall i :: 0 <= i < |s| ==> !IsBreak(s[i])) <==> |t| == |s|
    ensures |t| == |s| ==> t == s
  {
    if s == "" then "" else (if IsBreak(s[0]) then "" else [s[0]]) + Strip(s[1..])
  }

  // The bytes that two, three or four sextets carry; bits left over are ignored.
  function Bytes(v: seq<Sextet>): seq<Byte>
    requires 2 <= |v| <= 4
  {
    var b0 := v[0] as int * 4 + v[1] as int / 16;
    if |v| == 2 then [b0]
    else
      var b1 := v[1] as int % 16 * 16 + v[2] as int / 4;
      if |v| == 3 then [b0, b1] else [b0, b1, v[2] as int % 4 * 64 + v[3] as int]
  }

  // The sextets of one quantum of four characters; fewer than four only in the last.
  function Quantum(q: string, last: bool): (v: Option<seq<Sextet>>)
    requires |q| == 4
    ensures v.Some? ==> 2 <= |v.value| <= 4 && (!last ==> |v.value| == 4)
  {
    var a, b, c, d := Value(q[0]), Value(q[1]), Value(q[2]), Value(q[3]);
    if a.None? || b.None? then None
    else if c.Some? && d.Some? then Some([a.value, b.value, c.value, d.value])
    else if !last || q[3] != '=' then None
    else if c.Some? then Some([a.value, b.value, c.value])
    else if q[2] == '=' then Some([a.value, b.value])
    else None
  }

  function DecodeQuanta(t: string): Option<seq<Byte>> {
    if t == "" then Some([])
    else if |t| < 4 then None
    else
      var v := Quantum(t[..4], |t| == 4);
      var rest := DecodeQuanta(t[4..]);
      if v.Some? && rest.Some? then Some(Bytes(v.value) + rest.value) else None
  }

  // DecodeString: CR and LF are skipped wherever they stand.
  function Decode(s: string): Option<seq<Byte>> {
    DecodeQuanta(Strip(s))
  }

  function EncodeQuantum(b: seq<Byte>): string
    requires 1 <= |b| <= 3
  {
    if |b| == 1 then [Letter(b[0] / 4), Letter(b[0] % 4 * 16), '=', '=']
    else if |b| == 2 then [Letter(b[0] / 4), Letter(b[0] % 4 * 16 + b[1] / 16), Letter(b[1] % 16 * 4), '=']
    else [Letter(b[0] / 4), Letter(b[0] % 4 * 16 + b[1] / 16), Letter(b[1] % 16 * 4 + b[2] / 64), Letter(b[2] % 64)]
  }

  function Encode(b: seq<Byte>): string {
    if b == [] then ""
    else if |b| <= 3 then EncodeQuantum(b)
    else EncodeQuantum(b[..3]) + Encode(b[3..])
  }

  // The encoded length of n bytes.
  function EncodedLen(n: nat): nat {
    (n + 2) / 3 * 4
  }

  lemma LetterHasValue(v: Sextet)
    ensures Value(Letter(v)) == Some(v) && !IsBreak(Letter(v)) && Letter(v) != '='
  {
  }

  // Four sextets are the number that their three bytes are, the first the most significant.
  lemma SextetsAreTheNumber(v: seq<Sextet>)
    requires |v| == 4
    ensures
      var b := Bytes(v);
      b[0] as int * 65536 + b[1] as int * 256 + b[2] as int ==
        v[0] as int * 262144 + v[1] as int * 4096 + v[2] as int * 64 + v[3] as int
  {
  }

  // Line breaks are skipped wherever they stand.
  lemma StripFirst(c: char, rest: string)
    ensures Strip([c] + rest) == (if IsBreak(c) then "" else [c]) + Strip(rest)
  {
    assert ([c] + rest)[1..] == rest;
  }

  lemma {:induction false} StripOfSum(x: string, y: string)
    ensures Strip(x + y) == Strip(x) + Strip(y)
  {
    if x == "" {
      assert x + y == y;
    } else {
      StripOfSum(x[1..], y);
      StripGlue(x[0], x[1..], y, Strip(x[1..]), Strip(y));
      assert [x[0]] + x[1..] == x;
    }
  }

  lemma StripGlue(c: char, rest: string, y: string, a: string, b: string)
    requires Strip(rest + y) == a + b && Strip(rest) == a
    ensures Strip([c] + rest + y) == Strip([c] + rest) + b
  {
    StripFirst(c, rest);
    StripFirst(c, rest + y);
    Associates([c], rest, y);
    Associates(if IsBreak(c) then "" else [c], a, b);
  }

  lemma Associates(x: string, y: string, z: string)
    ensures x + y + z == x + (y + z)
  {
  }

  lemma BreaksAreSkipped(x: string, br: char, y: string)
    requires br == '\n' || br == '\r'
    ensures Decode(x + [br] + y) == Decode(x + y)
  {
    StripOfSum(x + [br], y);
    StripOfSum(x, [br]);
    StripOfSum(x, y);
    StripFirst(br, "");
    assert [br] + "" == [br] && Strip(x + [br]) == Strip(x);
  }

  lemma OneByteRoundTrip(b: seq<Byte>)
    requires |b| == 1
    ensures Quantum(EncodeQuantum(b), true) == Some([b[0] / 4, b[0] % 4 * 16])
    ensures Bytes([b[0] / 4, b[0] % 4 * 16]) == b
  {
    LetterHasValue(b[0] / 4);
    LetterHasValue(b[0] % 4 * 16);
  }

  lemma TwoBytesRoundTrip(b: seq<Byte>)
    requires |b| == 2
    ensures Quantum(EncodeQuantum(b), true) == Some([b[0] / 4, b[0] % 4 * 16 + b[1] / 16, b[1] % 16 * 4])
    ensures Bytes([b[0] / 4, b[0] % 4 * 16 + b[1] / 16, b[1] % 16 * 4]) == b
  {
    LetterHasValue(b[0] / 4);
    LetterHasValue(b[0] % 4 * 16 + b[1] / 16);
    LetterHasValue(b[1] % 16 * 4);
  }

  // Where two sextets meet within a byte's bits.
  lemma Meeting(x: Byte, y: Byte)
    ensures x / 4 * 4 + (x % 4 * 16 + y / 16) / 16 == x
    ensures (x % 4 * 16 + y / 16) % 16 == y / 16
  {
    assert (x % 4 * 16 + y / 16) / 16 == x % 4;
  }

  lemma MeetingLater(y: Byte, z: Byte)
    ensures y / 16 * 16 + (y % 16 * 4 + z / 64) / 4 == y
    ensures (y % 16 * 4 + z / 64) % 4 * 64 + z % 64 == z
  {
    assert (y % 16 * 4 + z / 64) / 4 == y % 16 && (y % 16 * 4 + z / 64) % 4 == z / 64;
  }

  lemma ThreeBytesRoundTrip(b: seq<Byte>, last: bool)
    requires |b| == 3
    ensures Quantum(EncodeQuantum(b), last) ==
            Some([b[0] / 4, b[0] % 4 * 16 + b[1] / 16, b[1] % 16 * 4 + b[2] / 64, b[2] % 64])
    ensures Bytes([b[0] / 4, b[0] % 4 * 16 + b[1] / 16, b[1] % 16 * 4 + b[2] / 64, b[2] % 64]) == b
  {
    LetterHasValue(b[0] / 4);
    LetterHasValue(b[0] % 4 * 16 + b[1] / 16);
    LetterHasValue(b[1] % 16 * 4 + b[2] / 64);
    LetterHasValue(b[2] % 64);
    Meeting(b[0], b[1]);
    MeetingLater(b[1], b[2]);
  }

  lemma {:induction false} QuantumRoundTrip(b: seq<Byte>, last: bool)
    requires 1 <= |b| <= 3 && (|b| < 3 ==> last)
    ensures Quantum(EncodeQuantum(b), last).Some? && Bytes(Quantum(EncodeQuantum(b), last).value) == b
  {
    if |b| == 1 {
      OneByteRoundTrip(b);
    } else if |b| == 2 {
      TwoBytesRoundTrip(b);
    } else {
      ThreeBytesRoundTrip(b, last);
    }
  }

  lemma DecodeFirst(q: string, rest: string, head: seq<Byte>, tail: seq<Byte>)
    requires |q| == 4 && Quantum(q, rest == "").Some? && Bytes(Quantum(q, rest == "").value) == head
    requires DecodeQuanta(rest) == Some(tail)
    ensures DecodeQuanta(q + rest) == Some(head + tail)
  {
    assert (q + rest)[..4] == q && (q + rest)[4..] == rest;
  }

  lemma EncodedLenStep(n: nat)
    ensures EncodedLen(n + 3) == EncodedLen(n) + 4
  {
  }

  lemma {:induction false} EncodeHasItsLength(b: seq<Byte>)
    ensures |Encode(b)| == EncodedLen(|b|)
  {
    if |b| <= 3 {
    } else {
      EncodeHasItsLength(b[3..]);
      EncodedLenStep(|b| - 3);
      assert Encode(b) == EncodeQuantum(b[..3]) + Encode(b[3..]);
    }
  }

  lemma {:induction false} QuantaRoundTrip(b: seq<Byte>)
    ensures DecodeQuanta(Encode(b)) == Some(b)
  {
    if b == [] {
    } else if |b| <= 3 {
      QuantumRoundTrip(b, true);
      DecodeFirst(EncodeQuantum(b), "", b, []);
      assert EncodeQuantum(b) + "" == EncodeQuantum(b) && b + [] == b;
    } else {
      var head, tail := b[..3], b[3..];
      QuantumRoundTrip(head, false);
      QuantaRoundTrip(tail);
      EncodeHasItsLength(tail);
      DecodeFirst(EncodeQuantum(head), Encode(tail), head, tail);
      assert b == head + tail;
    }
  }

  lemma {:induction false} EncodeHasNoBreaks(b: seq<Byte>, i: nat)
    requires i < |Encode(b)|
    ensures !IsBreak(Encode(b)[i])
  {
    if |b| > 3 && i >= 4 {
      EncodeHasNoBreaks(b[3..], i - 4);
    }
  }

  // Decoding an encoding gives the bytes back, and the encoding has the stated length.
  lemma {:induction false} RoundTrip(b: seq<Byte>)
    ensures Decode(Encode(b)) == Some(b) && |Encode(b)| == EncodedLen(|b|)
  {
    forall i | 0 <= i < |Encode(b)| ensures !IsBreak(Encode(b)[i]) {
      EncodeHasNoBreaks(b, i);
    }
    QuantaRoundTrip(b);
    EncodeHasItsLength(b);
  }

  // What decodes has a whole number of quanta, as many as its bytes need.
  lemma {:induction false} DecodedLen(t: string)
    requires DecodeQuanta(t).Some?
    ensures |t| == EncodedLen(|DecodeQuanta(t).value|)
  {
    if t != "" {
      DecodedLen(t[4..]);
      var rest := DecodeQuanta(t[4..]).value;
      if |t| > 4 {
        assert |DecodeQuanta(t).value| == 3 + |rest|;
      } else {
        assert t[4..] == "" && rest == [];
      }
    }
  }

  predicate IsLetter(c: char) {
    Value(c).Some?
  }

  predicate IsEnding(x: char, y: char) {
    if IsLetter(x) then IsLetter(y) || y == '=' else x == '=' && y == '='
  }

  // RFC 4648, section 4: whole quanta of letters, at most the last two characters padding.
  ghost predicate IsPadded(t: string) {
    && |t| % 4 == 0
    && (forall i :: 0 <= i < |t| - 2 ==> IsLetter(t[i]))
    && (t != "" ==> IsEnding(t[|t| - 2], t[|t| - 1]))
  }

  lemma PaddedSplits(t: string)
    requires |t| > 4
    ensures IsPadded(t) <==> (forall i :: 0 <= i < 4 ==> IsLetter(t[i])) && IsPadded(t[4..])
  {
    var rest := t[4..];
    assert forall i :: 4 <= i < |t| ==> t[i] == rest[i - 4];
    if IsPadded(t) {
      forall i | 0 <= i < |rest| - 2 ensures IsLetter(rest[i]) {
        assert IsLetter(t[i + 4]);
      }
    }
  }

  lemma QuantumIsPadded(t: string)
    requires |t| == 4
    ensures Quantum(t, true).Some? <==> IsPadded(t)
    ensures Quantum(t, false).Some? <==> forall i :: 0 <= i < 4 ==> IsLetter(t[i])
  {
    assert Value('=') == None;
    assert IsPadded(t) ==> IsLetter(t[0]) && IsLetter(t[1]);
    assert Quantum(t, false).Some? ==> IsLetter(t[0]) && IsLetter(t[1]) && IsLetter(t[2]) && IsLetter(t[3]);
  }

  // Exactly the padded strings decode.
  lemma {:induction false} DecodableIffPadded(t: string)
    ensures DecodeQuanta(t).Some? <==> IsPadded(t)
  {
    if t == "" || |t| < 4 {
    } else if |t| == 4 {
      QuantumIsPadded(t);
      assert t[..4] == t && t[4..] == "";
    } else {
      DecodableIffPadded(t[4..]);
      PaddedSplits(t);
      QuantumIsPadded(t[..4]);
      assert forall i :: 0 <= i < 4 ==> t[..4][i] == t[i];
    }
  }
}
