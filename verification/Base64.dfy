/**
 Inline IQ transport: the daemon's base64 encoder (append_base64_file) writes
 into the response buffer in place; the controller's decoder (decode_base64)
 reads it back.  Text is a sequence of ASCII bytes on both sides.
 */
module Base64 {
  import opened Outcome

  type byte = bv8

  const MAX_INLINE_CAPTURE_BYTES := 256 * 1024
  const MAX_RESPONSE := 384 * 1024
  const PAD: byte := 61  // '='

  // The alphabet of section 4 of RFC 4648.
  function Symbol(v: bv6): byte {
    var w := v as bv8;
    if w < 26 then 65 + w           // 'A'..'Z'
    else if w < 52 then 71 + w      // 'a'..'z'
    else if w < 62 then w - 4       // '0'..'9'
    else if w == 62 then 43 else 47 // '+' and '/'
  }

  // base64_value
  function Value(c: byte): Option<bv8> {
    if 65 <= c <= 90 then Some(c - 65)
    else if 97 <= c <= 122 then Some(c - 97 + 26)
    else if 48 <= c <= 57 then Some(c - 48 + 52)
    else if c == 43 then Some(62)
    else if c == 47 then Some(63)
    else None
  }

  lemma ValueOfSymbol(v: bv6)
    ensures Value(Symbol(v)) == Some(v as bv8) && Symbol(v) != PAD
  {
  }

  function Pack(b0: byte, b1: byte, b2: byte): bv24 {
    (b0 as bv24 << 16) | (b1 as bv24 << 8) | b2 as bv24
  }

  function Sextet3(p: bv24): bv6 { ((p >> 18) & 0x3f) as bv6 }
  function Sextet2(p: bv24): bv6 { ((p >> 12) & 0x3f) as bv6 }
  function Sextet1(p: bv24): bv6 { ((p >> 6) & 0x3f) as bv6 }
  function Sextet0(p: bv24): bv6 { (p & 0x3f) as bv6 }

  // One group of the encoder: one, two or three bytes give four characters.
  function EncodeGroup(g: seq<byte>): (text: seq<byte>)
    requires 1 <= |g| <= 3
    ensures |text| == 4
  {
    var packed := Pack(g[0], if |g| > 1 then g[1] else 0, if |g| > 2 then g[2] else 0);
    [Symbol(Sextet3(packed)), Symbol(Sextet2(packed)),
     if |g| > 1 then Symbol(Sextet1(packed)) else PAD,
     if |g| > 2 then Symbol(Sextet0(packed)) else PAD]
  }

  function Group(bytes: seq<byte>, input: nat): (g: seq<byte>)
    requires input < |bytes|
    ensures 1 <= |g| <= 3 && (|g| < 3 ==> input + |g| == |bytes|)
  {
    if input + 2 < |bytes| then bytes[input..input + 3] else bytes[input..]
  }

  function EncodeFrom(bytes: seq<byte>, input: nat): (text: seq<byte>)
    decreases |bytes| - input
  {
    if input >= |bytes| then [] else EncodeGroup(Group(bytes, input)) + EncodeFrom(bytes, input + 3)
  }

  // Section 4 of RFC 4648 on a whole byte string.
  function Encode(bytes: seq<byte>): seq<byte> { EncodeFrom(bytes, 0) }

  lemma {:induction false} EncodedLength(bytes: seq<byte>, input: nat)
    requires input <= |bytes| + 2
    ensures |EncodeFrom(bytes, input)| == (|bytes| - input + 2) / 3 * 4
    decreases |bytes| - input
  {
    if input < |bytes| {
      EncodedLength(bytes, input + 3);
      var m := |bytes| - input;
      assert (m + 2) / 3 == (m - 1) / 3 + 1;
    }
  }

  function Unpack(s3: bv8, s2: bv8, s1: bv8, s0: bv8): bv32 {
    (s3 as bv32 << 18) | (s2 as bv32 << 12) | (s1 as bv32 << 6) | s0 as bv32
  }

  function Octet2(p: bv32): byte { ((p >> 16) & 0xff) as bv8 }
  function Octet1(p: bv32): byte { ((p >> 8) & 0xff) as bv8 }
  function Octet0(p: bv32): byte { (p & 0xff) as bv8 }

  // One block of the decoder; `last` is true for the final block only.
  function DecodeBlock(b: seq<byte>, last: bool): Option<seq<byte>>
    requires |b| == 4
  {
    var cPad, dPad := b[2] == PAD, b[3] == PAD;
    if Value(b[0]).None? || Value(b[1]).None? then None
    else if (cPad && !dPad) || (!last && (cPad || dPad)) then None
    else if !cPad && Value(b[2]).None? then None
    else if !dPad && Value(b[3]).None? then None
    else
      var c := if cPad then 0 else Value(b[2]).value;
      var d := if dPad then 0 else Value(b[3]).value;
      var packed := Unpack(Value(b[0]).value, Value(b[1]).value, c, d);
      Some(if cPad then [Octet2(packed)]
           else if dPad then [Octet2(packed), Octet1(packed)]
           else [Octet2(packed), Octet1(packed), Octet0(packed)])
  }

  function DecodeFrom(text: seq<byte>, at: nat): Option<seq<byte>>
    requires at % 4 == 0 && |text| % 4 == 0
    decreases |text| - at
  {
    if at >= |text| then Some([])
    else match DecodeBlock(text[at..at + 4], at + 4 == |text|)
      case None => None
      case Some(head) => Prepend(head, DecodeFrom(text, at + 4))
  }

  function Prepend(head: seq<byte>, rest: Option<seq<byte>>): Option<seq<byte>> {
    if rest.None? then None else Some(head + rest.value)
  }

  // decode_base64: the empty text and a length that is no multiple of four are refused.
  function Decode(text: seq<byte>): Option<seq<byte>> {
    if |text| == 0 || |text| % 4 != 0 then None else DecodeFrom(text, 0)
  }

  // One group survives the trip; only the last group may be short.
  lemma GroupRoundTrip(g: seq<byte>, last: bool)
    requires 1 <= |g| <= 3 && (|g| == 3 || last)
    ensures DecodeBlock(EncodeGroup(g), last) == Some(g)
  {
    if |g| == 3 {
      FullGroup(g[0], g[1], g[2], last);
      assert g == [g[0], g[1], g[2]];
    } else if |g| == 2 {
      PairGroup(g[0], g[1]);
      assert g == [g[0], g[1]];
    } else {
      SingleGroup(g[0]);
      assert g == [g[0]];
    }
  }

  lemma FullGroup(b0: byte, b1: byte, b2: byte, last: bool)
    ensures DecodeBlock(EncodeGroup([b0, b1, b2]), last) == Some([b0, b1, b2])
  {
    var p := Pack(b0, b1, b2);
    SextetsRebuild(b0, b1, b2);
    ValueOfSymbol(Sextet3(p));
    ValueOfSymbol(Sextet2(p));
    ValueOfSymbol(Sextet1(p));
    ValueOfSymbol(Sextet0(p));
  }

  lemma PairGroup(b0: byte, b1: byte)
    ensures DecodeBlock(EncodeGroup([b0, b1]), true) == Some([b0, b1])
  {
    var p := Pack(b0, b1, 0);
    SextetsRebuild(b0, b1, 0);
    ValueOfSymbol(Sextet3(p));
    ValueOfSymbol(Sextet2(p));
    ValueOfSymbol(Sextet1(p));
  }

  lemma SingleGroup(b0: byte)
    ensures DecodeBlock(EncodeGroup([b0]), true) == Some([b0])
  {
  }

  // The four sextets of three bytes carry exactly those bytes; the ones a short group drops are zero.
  lemma SextetsRebuild(b0: byte, b1: byte, b2: byte)
    ensures var p := Pack(b0, b1, b2);
            var u := Unpack(Sextet3(p) as bv8, Sextet2(p) as bv8, Sextet1(p) as bv8, Sextet0(p) as bv8);
            && Octet2(u) == b0 && Octet1(u) == b1 && Octet0(u) == b2
            && (b2 == 0 ==> Sextet0(p) as bv8 == 0)
            && (b1 == b2 == 0 ==> Sextet1(p) as bv8 == 0)
  {
  }

  // A short group ends in '=' signs, and the bits of its last symbol that carry no byte are zero (sections 3.5 and 4
  // of RFC 4648).
  lemma PadBitsAreZero(b0: byte, b1: byte)
    ensures var single, pair := EncodeGroup([b0]), EncodeGroup([b0, b1]);
            && single[2] == PAD && single[3] == PAD && pair[2] != PAD && pair[3] == PAD
            && Value(single[1]).Some? && Value(single[1]).value & 0xf == 0
            && Value(pair[2]).Some? && Value(pair[2]).value & 0x3 == 0
  {
    ValueOfSymbol(Sextet2(Pack(b0, 0, 0)));
    ValueOfSymbol(Sextet1(Pack(b0, b1, 0)));
    UnusedBits(b0, b1);
  }

  lemma UnusedBits(b0: byte, b1: byte)
    ensures Sextet2(Pack(b0, 0, 0)) as bv8 & 0xf == 0 && Sextet1(Pack(b0, b1, 0)) as bv8 & 0x3 == 0
  {
  }

  // Examples of section 10 of RFC 4648: "f", "fo" and "foo"; and a group made of the last two symbols.
  lemma Examples()
    ensures Encode([0x66]) == [90, 103, PAD, PAD]
    ensures Encode([0x66, 0x6f]) == [90, 109, 56, PAD]
    ensures Encode([0x66, 0x6f, 0x6f]) == [90, 109, 57, 118]
    ensures Encode([0xfb, 0xff, 0xbf]) == [43, 47, 43, 47]
  {
  }

  lemma {:induction false} RoundTripFrom(bytes: seq<byte>, input: nat, text: seq<byte>, at: nat)
    requires at % 4 == 0 && at <= |text| && |text| % 4 == 0
    requires text[at..] == EncodeFrom(bytes, input)
    ensures DecodeFrom(text, at) == Some(if input < |bytes| then bytes[input..] else [])
    decreases |bytes| - input
  {
    if input < |bytes| {
      var g := Group(bytes, input);
      assert text[at..][..4] == text[at..at + 4] == EncodeGroup(g);
      assert text[at..][4..] == text[at + 4..] == EncodeFrom(bytes, input + 3);
      assert at + 4 == |text| <==> input + 3 >= |bytes|;
      RoundTripFrom(bytes, input + 3, text, at + 4);
      GroupRoundTrip(g, at + 4 == |text|);
      GroupFirst(bytes, input);
    }
  }

  lemma GroupFirst(bytes: seq<byte>, input: nat)
    requires input < |bytes|
    ensures bytes[input..] == Group(bytes, input) + (if input + 3 < |bytes| then bytes[input + 3..] else [])
  {
  }

  // What the daemon sends for a capture of any non-empty content is what the controller decodes.
  lemma RoundTrip(bytes: seq<byte>)
    requires |bytes| > 0
    ensures Decode(Encode(bytes)) == Some(bytes)
  {
    var text := Encode(bytes);
    assert text[0..] == text && bytes[0..] == bytes;
    EncodedLength(bytes, 0);
    RoundTripFrom(bytes, 0, text, 0);
  }

  // The body of the decoder's loop.
  method DecodeOne(b: seq<byte>, last: bool) returns (r: Option<seq<byte>>)
    requires |b| == 4
    ensures r == DecodeBlock(b, last)
  {
    var a1, a2 := Value(b[0]), Value(b[1]);
    if a1.None? || a2.None? { return None; }
    var cPad, dPad := b[2] == PAD, b[3] == PAD;
    if (cPad && !dPad) || (!last && (cPad || dPad)) { return None; }
    var c: bv8, d: bv8 := 0, 0;
    if !cPad {
      if Value(b[2]).None? { return None; }
      c := Value(b[2]).value;
    }
    if !dPad {
      if Value(b[3]).None? { return None; }
      d := Value(b[3]).value;
    }
    var packed := Unpack(a1.value, a2.value, c, d);
    var output := [Octet2(packed)];
    if !cPad { output := output + [Octet1(packed)]; }
    if !dPad { output := output + [Octet0(packed)]; }
    assert output == if cPad then [Octet2(packed)]
                     else if dPad then [Octet2(packed), Octet1(packed)]
                     else [Octet2(packed), Octet1(packed), Octet0(packed)];
    r := Some(output);
  }

  // `output` holds what the text before `at` decodes to.
  ghost predicate Decoded(text: seq<byte>, at: nat, output: seq<byte>) {
    at % 4 == 0 && |text| % 4 == 0 && DecodeFrom(text, 0) == Prepend(output, DecodeFrom(text, at))
  }

  lemma NextBlock(text: seq<byte>, at: nat, output: seq<byte>, block: Option<seq<byte>>)
    requires Decoded(text, at, output) && at < |text| && block == DecodeBlock(text[at..at + 4], at + 4 == |text|)
    ensures block.None? ==> DecodeFrom(text, 0).None?
    ensures block.Some? ==> Decoded(text, at + 4, output + block.value)
  {
    if block.Some? { PrependTwice(output, block.value, DecodeFrom(text, at + 4)); }
  }

  lemma FirstBlock(text: seq<byte>)
    requires |text| % 4 == 0
    ensures Decoded(text, 0, [])
  {
    assert DecodeFrom(text, 0).Some? ==> [] + DecodeFrom(text, 0).value == DecodeFrom(text, 0).value;
  }

  lemma AllDecoded(text: seq<byte>, at: nat, output: seq<byte>)
    requires Decoded(text, at, output) && at >= |text|
    ensures DecodeFrom(text, 0) == Some(output)
  {
    assert output + [] == output;
  }

  // The decoder's loop over blocks.
  method DecodeLoop(text: seq<byte>) returns (r: Option<seq<byte>>)
    ensures r == Decode(text)
  {
    if |text| == 0 || |text| % 4 != 0 { return None; }
    var output: seq<byte> := [];
    var at := 0;
    FirstBlock(text);
    while at < |text|
      invariant 0 <= at <= |text| && Decoded(text, at, output)
    {
      var block := DecodeOne(text[at..at + 4], at + 4 == |text|);
      NextBlock(text, at, output, block);
      if block.None? { return None; }
      output := output + block.value;
      at := at + 4;
    }
    AllDecoded(text, at, output);
    r := Some(output);
  }

  lemma PrependTwice(a: seq<byte>, b: seq<byte>, rest: Option<seq<byte>>)
    ensures Prepend(a, Prepend(b, rest)) == Prepend(a + b, rest)
  {
    if rest.Some? { assert a + (b + rest.value) == (a + b) + rest.value; }
  }

  // The body of the encoder's loop: four characters for one group of the input.
  method PutGroup(g: seq<byte>, response: array<byte>, output: nat)
    requires 1 <= |g| <= 3 && output + 4 <= response.Length
    modifies response
    ensures forall k :: 0 <= k < 4 ==> response[output + k] == EncodeGroup(g)[k]
    ensures forall k :: 0 <= k < response.Length && !(output <= k < output + 4) ==> response[k] == old(response[k])
  {
    var second, third := if |g| > 1 then g[1] else 0, if |g| > 2 then g[2] else 0;
    var packed := Pack(g[0], second, third);
    response[output] := Symbol(Sextet3(packed));
    response[output + 1] := Symbol(Sextet2(packed));
    response[output + 2] := if |g| > 1 then Symbol(Sextet1(packed)) else PAD;
    response[output + 3] := if |g| > 2 then Symbol(Sextet0(packed)) else PAD;
  }

  datatype AppendResult = Appended(offset: nat) | OutOfRange | NoSpace

  // append_base64_file after the file has been read: writes exactly the encoding at
  // `offset`, touches nothing else, and never passes the end of the response.
  method AppendBase64(bytes: seq<byte>, response: array<byte>, offset: nat) returns (r: AppendResult)
    modifies response
    ensures r.OutOfRange? <==> |bytes| == 0 || |bytes| > MAX_INLINE_CAPTURE_BYTES
    ensures r.NoSpace? <==> 0 < |bytes| <= MAX_INLINE_CAPTURE_BYTES
                            && offset + (|bytes| + 2) / 3 * 4 > response.Length
    ensures r.Appended? ==> r.offset == offset + |Encode(bytes)| <= response.Length
                            && response[offset..r.offset] == Encode(bytes)
    ensures forall k :: 0 <= k < response.Length && !(r.Appended? && offset <= k < r.offset)
                        ==> response[k] == old(response[k])
  {
    if |bytes| == 0 || |bytes| > MAX_INLINE_CAPTURE_BYTES { return OutOfRange; }
    var encoded := (|bytes| + 2) / 3 * 4;
    if offset > response.Length || encoded > response.Length - offset { return NoSpace; }
    EncodedLength(bytes, 0);
    var end := EncodeInto(bytes, response, offset);
    r := Appended(end);
  }

  // The encoder's loop over the input, three bytes at a time.
  method EncodeInto(bytes: seq<byte>, response: array<byte>, offset: nat) returns (output: nat)
    requires offset + |Encode(bytes)| <= response.Length
    modifies response
    ensures output == offset + |Encode(bytes)|
    ensures forall k :: 0 <= k < |Encode(bytes)| ==> response[offset + k] == Encode(bytes)[k]
    ensures forall k :: 0 <= k < response.Length && !(offset <= k < output) ==> response[k] == old(response[k])
  {
    output := offset;
    var input := 0;
    ghost var text, was := [], response[..];
    assert text + Encode(bytes) == Encode(bytes) && was[..offset] + [] + was[offset..] == was;
    while input < |bytes|
      invariant 0 <= input && output == offset + |text|
      invariant Encoding(bytes, input, text) && Filled(was, offset, text, response[..])
    {
      ghost var now, g := response[..], EncodeGroup(Group(bytes, input));
      NextGroup(bytes, input, text);
      PutGroup(Group(bytes, input), response, output);
      Splice(was, text, offset, now, g, response[..]);
      text := text + g;
      output, input := output + 4, input + 3;
    }
    assert text == Encode(bytes);
    Placed(was, text, offset, response[..]);
  }

  // `text` is the encoding of the bytes before `input`.
  ghost predicate Encoding(bytes: seq<byte>, input: nat, text: seq<byte>) {
    text + EncodeFrom(bytes, input) == Encode(bytes)
  }

  // `now` is `was` with `text` at `offset`.
  ghost predicate Filled(was: seq<byte>, offset: nat, text: seq<byte>, now: seq<byte>) {
    offset + |text| <= |was| && now == was[..offset] + text + was[offset + |text|..]
  }

  lemma NextGroup(bytes: seq<byte>, input: nat, text: seq<byte>)
    requires input < |bytes| && Encoding(bytes, input, text)
    ensures Encoding(bytes, input + 3, text + EncodeGroup(Group(bytes, input)))
    ensures |text| + 4 <= |Encode(bytes)|
  {
  }

  // Four characters written behind `text`.
  lemma Splice(was: seq<byte>, text: seq<byte>, offset: nat, now: seq<byte>, g: seq<byte>, after: seq<byte>)
    requires offset + |text| + 4 <= |was| && |g| == 4 && |after| == |now| && Filled(was, offset, text, now)
    requires forall k :: 0 <= k < 4 ==> after[offset + |text| + k] == g[k]
    requires forall k :: 0 <= k < |now| && !(offset + |text| <= k < offset + |text| + 4) ==> after[k] == now[k]
    ensures Filled(was, offset, text + g, after)
  {
  }

  lemma Placed(was: seq<byte>, text: seq<byte>, offset: nat, now: seq<byte>)
    requires Filled(was, offset, text, now)
    ensures |now| == |was| && forall k :: 0 <= k < |text| ==> now[offset + k] == text[k]
    ensures forall k :: 0 <= k < |was| && !(offset <= k < offset + |text|) ==> now[k] == was[k]
  {
  }

  // The finished inline reply: header, text, and the closing quote, brace, newline and NUL.
  // Any legal capture behind a header of at most 4096 characters fits both 384 KiB limits.
  lemma InlineReplyFits(header: nat, bytes: seq<byte>)
    requires header <= 4096
    requires 0 < |bytes| <= MAX_INLINE_CAPTURE_BYTES
    ensures header + |Encode(bytes)| <= MAX_RESPONSE
    ensures MAX_RESPONSE - (header + |Encode(bytes)|) >= 4
    ensures header + |Encode(bytes)| + 3 <= 384 * 1024
  {
    EncodedLength(bytes, 0);
  }
}
