/** The sealed envelope: its header layout, and what reading it back gives. */
module Envelopes {
  import opened Wrappers
  import opened Bytes
  import opened Codec

  const U32 := 0x1_0000_0000

  datatype Header = Header(keyId: string, epoch: seq<Byte>, sequence: nat, length: nat)

  datatype ParsedEnvelope = ParsedEnvelope(header: Header, aad: seq<Byte>, ciphertext: seq<Byte>)

  datatype Direction = ClientToServer | ServerToClient

  predicate HeaderFits(h: Header, utf8: Utf8Check) {
    && IsText(h.keyId, utf8) && 0 < |h.keyId| <= MAX_KEY_ID_BYTES
    && |h.epoch| == ID_BYTES && h.sequence < U64 && h.length < U32
  }

  function HeaderBytes(h: Header): (b: seq<Byte>)
    requires IsBytes(h.keyId) && |h.keyId| < 256 && |h.epoch| == ID_BYTES
    ensures |b| == FIXED + |h.keyId|
  {
    ENVELOPE_MAGIC + [PROTOCOL_VERSION] + [|h.keyId|] + h.epoch + BigEndian(h.sequence, 8) + BigEndian(h.length, 4)
    + TextBytes(h.keyId)
  }

  /** The envelope around a ciphertext, which is the plaintext and a tag. */
  function Envelope(keyId: string, epoch: seq<Byte>, sequence: nat, ciphertext: seq<Byte>): Result<seq<Byte>, Error>
    requires IsBytes(keyId) && |epoch| == ID_BYTES
  {
    if |keyId| == 0 || |keyId| > MAX_KEY_ID_BYTES then Err(InvalidEnvelope("invalid key id"))
    else if |ciphertext| >= U32 then Err(LimitExceeded("ciphertext"))
    else Ok(HeaderBytes(Header(keyId, epoch, sequence, |ciphertext|)) + ciphertext)
  }

  function ParseEnvelope(e: seq<Byte>, utf8: Utf8Check): Result<ParsedEnvelope, Error> {
    if |e| < FIXED + AEAD_TAG_BYTES then Err(InvalidEnvelope("too short"))
    else if e[..4] != ENVELOPE_MAGIC then Err(InvalidEnvelope("bad magic"))
    else if e[4] != PROTOCOL_VERSION then Err(InvalidEnvelope("unsupported version"))
    else
      var keyLength := e[5];
      if keyLength == 0 || keyLength > MAX_KEY_ID_BYTES then Err(InvalidEnvelope("invalid key id length"))
      else
        var headerLength := FIXED + keyLength;
        if |e| < headerLength + AEAD_TAG_BYTES then Err(InvalidEnvelope("truncated header"))
        else
          var sequence := FromBigEndian(e[22..30]);
          var length := FromBigEndian(e[30..34]);
          if length != |e| - headerLength then Err(InvalidEnvelope("ciphertext length mismatch"))
          else if !utf8(e[FIXED..headerLength]) then Err(Utf8)
          else
            Ok(ParsedEnvelope(Header(BytesText(e[FIXED..headerLength]), e[6..22], sequence, length),
                              e[..headerLength], e[headerLength..]))
  }

  /** Where the fields of a header are. */
  lemma HeaderFields(h: Header, rest: seq<Byte>)
    requires IsBytes(h.keyId) && |h.keyId| < 256 && |h.epoch| == ID_BYTES
    ensures var e := HeaderBytes(h) + rest;
            && |e| == FIXED + |h.keyId| + |rest|
            && e[..4] == ENVELOPE_MAGIC && e[4] == PROTOCOL_VERSION && e[5] == |h.keyId|
            && e[6..22] == h.epoch && e[22..30] == BigEndian(h.sequence, 8) && e[30..34] == BigEndian(h.length, 4)
            && e[FIXED..FIXED + |h.keyId|] == TextBytes(h.keyId)
            && e[..FIXED + |h.keyId|] == HeaderBytes(h) && e[FIXED + |h.keyId|..] == rest
  {
  }

  /** Reading a sealed envelope gives back exactly what it was sealed with. */
  lemma EnvelopeRoundTrip(h: Header, ciphertext: seq<Byte>, utf8: Utf8Check)
    requires HeaderFits(h, utf8) && h.length == |ciphertext| >= AEAD_TAG_BYTES
    ensures Envelope(h.keyId, h.epoch, h.sequence, ciphertext) == Ok(HeaderBytes(h) + ciphertext)
    ensures ParseEnvelope(HeaderBytes(h) + ciphertext, utf8) == Ok(ParsedEnvelope(h, HeaderBytes(h), ciphertext))
  {
    hide HeaderBytes, BigEndian, FromBigEndian, Pow256;
    HeaderFields(h, ciphertext);
    Widths();
    NumberRoundTrip(h.sequence, 8);
    NumberRoundTrip(h.length, 4);
    TextRoundTrip(h.keyId, []);
  }

  /** Every accepted envelope is the one that sealing its own parts would build. */
  lemma EnvelopeIsCanonical(e: seq<Byte>, utf8: Utf8Check)
    requires ParseEnvelope(e, utf8).Ok?
    ensures var p := ParseEnvelope(e, utf8).value;
            && HeaderFits(p.header, utf8) && p.header.length == |p.ciphertext| >= AEAD_TAG_BYTES
            && p.aad == HeaderBytes(p.header) && e == p.aad + p.ciphertext
            && Envelope(p.header.keyId, p.header.epoch, p.header.sequence, p.ciphertext) == Ok(e)
  {
    hide BigEndian, FromBigEndian, Pow256;
    var p := ParseEnvelope(e, utf8).value;
    var n := FIXED + |p.header.keyId|;
    Widths();
    BytesRoundTrip(e[22..30]);
    BytesRoundTrip(e[30..34]);
    TextRoundTrip("", e[FIXED..n]);
    assert e[..n] == e[..4] + [e[4]] + [e[5]] + e[6..22] + e[22..30] + e[30..34] + e[FIXED..n];
    assert e == e[..n] + e[n..];
  }

  function Domain(d: Direction): nat {
    match d
    case ClientToServer => 0x4332_5301
    case ServerToClient => 0x5332_4301
  }

  function NonceBytes(d: Direction, sequence: nat): seq<Byte> {
    BigEndian(Domain(d), 4) + BigEndian(sequence, 8)
  }

  /** No nonce is used for two messages of an epoch, in either direction. */
  lemma NoncesAreUnique(d: Direction, sequence: nat, other: Direction, otherSequence: nat)
    requires sequence < U64 && otherSequence < U64 && NonceBytes(d, sequence) == NonceBytes(other, otherSequence)
    ensures d == other && sequence == otherSequence
  {
    hide BigEndian, FromBigEndian, Pow256;
    Widths();
    var a, b := NonceBytes(d, sequence), NonceBytes(other, otherSequence);
    assert a[..4] == BigEndian(Domain(d), 4) && a[4..] == BigEndian(sequence, 8);
    assert b[..4] == BigEndian(Domain(other), 4) && b[4..] == BigEndian(otherSequence, 8);
    NumberRoundTrip(Domain(d), 4);
    NumberRoundTrip(Domain(other), 4);
    NumberRoundTrip(sequence, 8);
    NumberRoundTrip(otherSequence, 8);
  }
}

/** The reader and the writers of the encoding in the form the program has them. */
module CodecReader {
  import opened Wrappers
  import opened Bytes
  import opened UploadProtocol
  import opened Codec

  class BinaryReader {
    const input: seq<Byte>
    var offset: nat

    predicate Valid()
      reads this
    {
      offset <= |input|
    }

    function Rest(): seq<Byte>
      requires Valid()
      reads this
    {
      input[offset..]
    }

    constructor (input: seq<Byte>)
      ensures Valid() && this.input == input && offset == 0 && Rest() == input
    {
      this.input, offset := input, 0;
    }

    /** Reads what a field's function reads; a field that cannot be read leaves the rest of no use. */
    method Take(count: nat) returns (r: Result<seq<Byte>, Error>)
      requires Valid()
      modifies this
      ensures Valid() && offset >= old(offset)
      ensures match Codec.Take(old(Rest()), count)
              case Err(e) => r == Err(e)
              case Ok(v) => r == Ok(v.0) && Rest() == v.1
    {
      var end := offset + count;
      if end > |input| {
        return Err(InvalidMessage("truncated"));
      }
      var value := input[offset..end];
      assert Rest()[..count] == value && Rest()[count..] == input[end..];
      offset := end;
      return Ok(value);
    }

    method Number(width: nat) returns (r: Result<nat, Error>)
      requires Valid()
      modifies this
      ensures Valid() && offset >= old(offset)
      ensures match TakeNumber(old(Rest()), width)
              case Err(e) => r == Err(e)
              case Ok(v) => r == Ok(v.0) && Rest() == v.1
    {
      var b := Take(width);
      if b.Err? {
        return Err(b.error);
      }
      return Ok(FromBigEndian(b.value));
    }

    method Text(utf8: Utf8Check) returns (r: Result<string, Error>)
      requires Valid()
      modifies this
      ensures Valid() && offset >= old(offset)
      ensures match TakeString(old(Rest()), utf8)
              case Err(e) => r == Err(e)
              case Ok(v) => r == Ok(v.0) && Rest() == v.1
    {
      var length := Number(2);
      if length.Err? {
        return Err(length.error);
      }
      if length.value > MAX_STRING_BYTES {
        return Err(LimitExceeded("string"));
      }
      var b := Take(length.value);
      if b.Err? {
        return Err(b.error);
      }
      if !utf8(b.value) {
        return Err(Utf8);
      }
      return Ok(BytesText(b.value));
    }

    method Samples() returns (r: Result<seq<Sample>, Error>)
      requires Valid()
      modifies this
      ensures Valid() && offset >= old(offset)
      ensures match TakeSamples(old(Rest()))
              case Err(e) => r == Err(e)
              case Ok(v) => r == Ok(v.0) && Rest() == v.1
    {
      var count := Number(4);
      if count.Err? {
        return Err(count.error);
      }
      if count.value == 0 || count.value > MAX_PCM_SAMPLES {
        return Err(LimitExceeded("pcm samples"));
      }
      var pcm := Take(2 * count.value);
      if pcm.Err? {
        return Err(pcm.error);
      }
      var samples := DecodeSamples(pcm.value);
      return Ok(samples);
    }
  }

  lemma SamplesStep(b: seq<Byte>, k: nat, samples: seq<Sample>)
    requires |b| % 2 == 0 && k + 2 <= |b| && k % 2 == 0
    ensures samples + PcmSamples(b[k..]) == samples + [SampleOf(b[k], b[k + 1])] + PcmSamples(b[k + 2..])
  {
    assert b[k..][2..] == b[k + 2..];
  }

  /** Pairs of bytes, one after another, as samples. */
  method DecodeSamples(b: seq<Byte>) returns (samples: seq<Sample>)
    requires |b| % 2 == 0
    ensures samples == PcmSamples(b)
  {
    samples := [];
    var k := 0;
    assert b[0..] == b && [] + PcmSamples(b) == PcmSamples(b);
    while k < |b|
      invariant k <= |b| && k % 2 == 0
      invariant samples + PcmSamples(b[k..]) == PcmSamples(b)
    {
      SamplesStep(b, k, samples);
      samples := samples + [SampleOf(b[k], b[k + 1])];
      k := k + 2;
    }
    assert b[k..] == [] && samples + [] == samples;
  }

  lemma PcmStep(samples: seq<Sample>, k: nat, output: seq<Byte>)
    requires k < |samples|
    ensures output + PcmBytes(samples[k..]) == output + SampleBytes(samples[k]) + PcmBytes(samples[k + 1..])
  {
    assert samples[k..][1..] == samples[k + 1..];
  }

  /** Appends samples to an output, byte by byte. */
  method PutSamples(output: seq<Byte>, samples: seq<Sample>) returns (r: seq<Byte>)
    ensures r == output + PcmBytes(samples)
  {
    r := output;
    var k := 0;
    assert samples[0..] == samples;
    while k < |samples|
      invariant k <= |samples|
      invariant r + PcmBytes(samples[k..]) == output + PcmBytes(samples)
    {
      PcmStep(samples, k, r);
      r := r + SampleBytes(samples[k]);
      k := k + 1;
    }
    assert samples[k..] == [] && r + [] == r;
  }

  /** Decodes a client message by reading its fields one after another. */
  method DecodeClientMessage(input: seq<Byte>, utf8: Utf8Check) returns (r: Result<Message, Error>)
    ensures r == Decode(input, utf8)
  {
    hide TakeNumber, TakeString, TakeSamples;
    var reader := new BinaryReader(input);
    var kind := reader.Number(1);
    if kind.Err? {
      return Err(kind.error);
    }
    match kind.value
    case 0 => return Finish(Probe, reader.Rest());
    case 1 => r := ReadOpen(reader, utf8);
    case 2 => r := ReadPcm(reader, utf8);
    case 3 =>
      var id := reader.Text(utf8);
      if id.Err? {
        return Err(id.error);
      }
      var final := reader.Number(8);
      if final.Err? {
        return Err(final.error);
      }
      return Finish(Close(id.value, final.value), reader.Rest());
    case 4 =>
      var id := reader.Text(utf8);
      if id.Err? {
        return Err(id.error);
      }
      return Finish(MarkIncomplete(id.value), reader.Rest());
    case _ => return Err(InvalidMessage("unknown client message"));
  }

  method ReadOpen(reader: BinaryReader, utf8: Utf8Check) returns (r: Result<Message, Error>)
    requires reader.Valid()
    modifies reader
    ensures r == DecodeOpen(old(reader.Rest()), utf8)
  {
    hide TakeNumber, TakeString;
    var device := reader.Text(utf8);
    if device.Err? {
      return Err(device.error);
    }
    var stream := reader.Text(utf8);
    if stream.Err? {
      return Err(stream.error);
    }
    var rate := reader.Number(4);
    if rate.Err? {
      return Err(rate.error);
    }
    var channels := reader.Number(2);
    if channels.Err? {
      return Err(channels.error);
    }
    var format := reader.Text(utf8);
    if format.Err? {
      return Err(format.error);
    }
    if format.value != SAMPLE_FORMAT_PCM_S16LE {
      return Err(InvalidMessage("unsupported sample format"));
    }
    var source := reader.Number(8);
    if source.Err? {
      return Err(source.error);
    }
    return Finish(OpenOrResume(device.value, stream.value, rate.value, channels.value, format.value, source.value),
                  reader.Rest());
  }

  method ReadPcm(reader: BinaryReader, utf8: Utf8Check) returns (r: Result<Message, Error>)
    requires reader.Valid()
    modifies reader
    ensures r == DecodePcm(old(reader.Rest()), utf8)
  {
    hide TakeNumber, TakeString, TakeSamples;
    var id := reader.Text(utf8);
    if id.Err? {
      return Err(id.error);
    }
    var start := reader.Number(8);
    if start.Err? {
      return Err(start.error);
    }
    var samples := reader.Samples();
    if samples.Err? {
      return Err(samples.error);
    }
    return Finish(Pcm(id.value, start.value, samples.value), reader.Rest());
  }

  /** Appends a length and a string, unless the string is too long. */
  method PutText(output: seq<Byte>, s: string) returns (r: Result<seq<Byte>, Error>)
    requires IsBytes(s)
    ensures r == if |s| > MAX_STRING_BYTES then Err(LimitExceeded("string")) else Ok(output + PutString(s))
  {
    if |s| > MAX_STRING_BYTES {
      return Err(LimitExceeded("string"));
    }
    var b := output + BigEndian(|s|, 2);
    assert b + TextBytes(s) == output + PutString(s);
    return Ok(b + TextBytes(s));
  }

  /** Encodes a client message by appending its fields; it fails exactly beyond the limits. */
  method EncodeClientMessage(m: Message, utf8: Utf8Check) returns (r: Result<seq<Byte>, Error>)
    requires Representable(m, utf8)
    ensures r.Ok? <==> WithinLimits(m)
    ensures r.Ok? ==> r.value == MessageBytes(m, utf8)
    ensures r.Err? ==> r.error == LimitExceeded("string") || (m.Pcm? && r.error == LimitExceeded("pcm samples"))
  {
    hide PutString, BigEndian, PcmBytes, IsBytes, TextBytes;
    match m
    case Probe => return Ok([0]);
    case OpenOrResume(device, stream, rate, channels, format, source) =>
      var a := PutText([1], device);
      if a.Err? {
        return a;
      }
      var b := PutText(a.value, stream);
      if b.Err? {
        return b;
      }
      var c := PutText(b.value + BigEndian(rate, 4) + BigEndian(channels, 2), format);
      if c.Err? {
        return c;
      }
      Reassociate(PutString(device), PutString(stream), BigEndian(rate, 4), BigEndian(channels, 2), PutString(format),
                  BigEndian(source, 8));
      return Ok(c.value + BigEndian(source, 8));
    case Pcm(id, start, samples) =>
      if |samples| == 0 || |samples| > MAX_PCM_SAMPLES {
        return Err(LimitExceeded("pcm samples"));
      }
      var a := PutText([2], id);
      if a.Err? {
        return a;
      }
      var b := PutSamples(a.value + BigEndian(start, 8) + BigEndian(|samples|, 4), samples);
      assert b == MessageBytes(m, utf8);
      return Ok(b);
    case Close(id, final) =>
      var a := PutText([3], id);
      if a.Err? {
        return a;
      }
      assert a.value + BigEndian(final, 8) == MessageBytes(m, utf8);
      return Ok(a.value + BigEndian(final, 8));
    case MarkIncomplete(id) =>
      r := PutText([4], id);
  }

  lemma Reassociate(a: seq<Byte>, b: seq<Byte>, c: seq<Byte>, d: seq<Byte>, e: seq<Byte>, f: seq<Byte>)
    ensures [1] + a + b + c + d + e + f == [1] + (a + (b + (c + (d + (e + f)))))
  {
  }
}
