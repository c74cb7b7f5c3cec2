/** Bytes, and numbers as bytes. */
module Bytes {
  type Byte = x: int | 0 <= x < 256

  function Pow256(width: nat): nat {
    if width == 0 then 1 else 256 * Pow256(width - 1)
  }

  /** A number in a fixed number of bytes, most significant first. */
  function BigEndian(n: nat, width: nat): (b: seq<Byte>)
    ensures |b| == width
  {
    if width == 0 then [] else BigEndian(n / 256, width - 1) + [n % 256]
  }

  function FromBigEndian(b: seq<Byte>): nat {
    if |b| == 0 then 0 else 256 * FromBigEndian(b[..|b| - 1]) + b[|b| - 1]
  }

  lemma {:induction false} NumberRoundTrip(n: nat, width: nat)
    requires n < Pow256(width)
    ensures FromBigEndian(BigEndian(n, width)) == n
  {
    if width > 0 {
      assert n / 256 < Pow256(width - 1);
      NumberRoundTrip(n / 256, width - 1);
      var b := BigEndian(n, width);
      assert b[..|b| - 1] == BigEndian(n / 256, width - 1);
    }
  }

  lemma {:induction false} BytesRoundTrip(b: seq<Byte>)
    ensures BigEndian(FromBigEndian(b), |b|) == b
    ensures FromBigEndian(b) < Pow256(|b|)
  {
    if |b| > 0 {
      var init := b[..|b| - 1];
      BytesRoundTrip(init);
      assert FromBigEndian(b) / 256 == FromBigEndian(init) && FromBigEndian(b) % 256 == b[|b| - 1];
      assert b == init + [b[|b| - 1]];
    }
  }

  lemma Widths()
    ensures Pow256(1) == 0x100 && Pow256(2) == 0x1_0000 && Pow256(4) == 0x1_0000_0000
    ensures Pow256(8) == 0x1_0000_0000_0000_0000
  {
    assert Pow256(3) == 0x100_0000;
    assert Pow256(5) == 0x100_0000_0000 && Pow256(6) == 0x1_0000_0000_0000 && Pow256(7) == 0x100_0000_0000_0000;
  }
}

/** The binary encoding of upload messages and of the envelope around them. */
module Codec {
  import opened Wrappers
  import opened Bytes
  import opened UploadProtocol

  const MAX_STRING_BYTES := 4096
  const MAX_PCM_SAMPLES := 128 * 1024
  const MAX_KEY_ID_BYTES := 64
  const ID_BYTES := 16
  const AEAD_TAG_BYTES := 16
  const FIXED := 4 + 1 + 1 + ID_BYTES + 8 + 4
  const PROTOCOL_VERSION: Byte := 2
  const ENVELOPE_MAGIC: seq<Byte> := [0x45, 0x43, 0x53, 0x31]

  datatype Error = InvalidMessage(what: string) | InvalidEnvelope(what: string) | LimitExceeded(what: string) | Utf8

  /** Whether bytes are well-formed UTF-8, which is not modelled further. */
  type Utf8Check = seq<Byte> -> bool

  type Parsed<T> = Result<(T, seq<Byte>), Error>

  // ---------------------------------------------------------------- text and samples

  predicate IsBytes(s: string) {
    forall i :: 0 <= i < |s| ==> s[i] < 256 as char
  }

  function TextBytes(s: string): (b: seq<Byte>)
    requires IsBytes(s)
    ensures |b| == |s|
  {
    seq(|s|, i requires 0 <= i < |s| => s[i] as int)
  }

  function BytesText(b: seq<Byte>): (s: string)
    ensures |s| == |b| && IsBytes(s)
  {
    seq(|b|, i requires 0 <= i < |b| => b[i] as char)
  }

  lemma TextRoundTrip(s: string, b: seq<Byte>)
    ensures IsBytes(s) ==> BytesText(TextBytes(s)) == s
    ensures TextBytes(BytesText(b)) == b
  {
  }

  /** A string the program can hold: well-formed UTF-8. */
  predicate IsText(s: string, utf8: Utf8Check) {
    IsBytes(s) && utf8(TextBytes(s))
  }

  function SampleBytes(x: Sample): seq<Byte> {
    var u := if x < 0 then x + 0x1_0000 else x;
    [u % 256, u / 256]
  }

  function SampleOf(low: Byte, high: Byte): Sample {
    var u := high * 256 + low;
    if u >= 0x8000 then u - 0x1_0000 else u
  }

  /** 16-bit samples, least significant byte first. */
  function PcmBytes(samples: seq<Sample>): (b: seq<Byte>)
    ensures |b| == 2 * |samples|
  {
    if |samples| == 0 then [] else SampleBytes(samples[0]) + PcmBytes(samples[1..])
  }

  function PcmSamples(b: seq<Byte>): (samples: seq<Sample>)
    requires |b| % 2 == 0
    ensures |b| == 2 * |samples|
  {
    if |b| == 0 then [] else [SampleOf(b[0], b[1])] + PcmSamples(b[2..])
  }

  lemma {:induction false} PcmRoundTrip(samples: seq<Sample>)
    ensures PcmSamples(PcmBytes(samples)) == samples
  {
    if |samples| > 0 {
      PcmRoundTrip(samples[1..]);
      var b := PcmBytes(samples);
      assert b[2..] == PcmBytes(samples[1..]);
      assert b[0] == SampleBytes(samples[0])[0] && b[1] == SampleBytes(samples[0])[1];
    }
  }

  lemma {:induction false} PcmBytesRoundTrip(b: seq<Byte>)
    requires |b| % 2 == 0
    ensures PcmBytes(PcmSamples(b)) == b
  {
    if |b| > 0 {
      PcmBytesRoundTrip(b[2..]);
      var s := PcmSamples(b);
      assert s[1..] == PcmSamples(b[2..]);
      assert SampleBytes(SampleOf(b[0], b[1])) == [b[0], b[1]];
      assert b == [b[0], b[1]] + b[2..];
    }
  }

  // ---------------------------------------------------------------- fields

  function PutString(s: string): seq<Byte>
    requires IsBytes(s)
  {
    BigEndian(|s|, 2) + TextBytes(s)
  }

  function Take(input: seq<Byte>, count: nat): Parsed<seq<Byte>> {
    if count > |input| then Err(InvalidMessage("truncated")) else Ok((input[..count], input[count..]))
  }

  function TakeNumber(input: seq<Byte>, width: nat): Parsed<nat> {
    var r :- Take(input, width);
    Ok((FromBigEndian(r.0), r.1))
  }

  function TakeString(input: seq<Byte>, utf8: Utf8Check): Parsed<string> {
    var n :- TakeNumber(input, 2);
    if n.0 > MAX_STRING_BYTES then Err(LimitExceeded("string"))
    else
      var b :- Take(n.1, n.0);
      if utf8(b.0) then Ok((BytesText(b.0), b.1)) else Err(Utf8)
  }

  function TakeSamples(input: seq<Byte>): Parsed<seq<Sample>> {
    var n :- TakeNumber(input, 4);
    if n.0 == 0 || n.0 > MAX_PCM_SAMPLES then Err(LimitExceeded("pcm samples"))
    else
      var b :- Take(n.1, 2 * n.0);
      Ok((PcmSamples(b.0), b.1))
  }

  function Finish<T>(value: T, rest: seq<Byte>): Result<T, Error> {
    if |rest| == 0 then Ok(value) else Err(InvalidMessage("trailing bytes"))
  }

  lemma NumberField(n: nat, width: nat, rest: seq<Byte>)
    requires n < Pow256(width)
    ensures TakeNumber(BigEndian(n, width) + rest, width) == Ok((n, rest))
  {
    var b := BigEndian(n, width);
    assert (b + rest)[..width] == b && (b + rest)[width..] == rest;
    NumberRoundTrip(n, width);
  }

  lemma NumberFieldBack(input: seq<Byte>, width: nat)
    requires TakeNumber(input, width).Ok?
    ensures var (n, rest) := TakeNumber(input, width).value;
            input == BigEndian(n, width) + rest && n < Pow256(width)
  {
    BytesRoundTrip(input[..width]);
  }

  lemma StringField(s: string, utf8: Utf8Check, rest: seq<Byte>)
    requires IsText(s, utf8) && |s| <= MAX_STRING_BYTES
    ensures TakeString(PutString(s) + rest, utf8) == Ok((s, rest))
  {
    Widths();
    var b := TextBytes(s);
    assert PutString(s) + rest == BigEndian(|s|, 2) + (b + rest);
    NumberField(|s|, 2, b + rest);
    assert (b + rest)[..|s|] == b && (b + rest)[|s|..] == rest;
    TextRoundTrip(s, b);
  }

  lemma StringFieldBack(input: seq<Byte>, utf8: Utf8Check)
    requires TakeString(input, utf8).Ok?
    ensures var (s, rest) := TakeString(input, utf8).value;
            IsText(s, utf8) && |s| <= MAX_STRING_BYTES && input == PutString(s) + rest
  {
    var n := TakeNumber(input, 2).value;
    NumberFieldBack(input, 2);
    var b := Take(n.1, n.0).value;
    TextRoundTrip("", b.0);
    assert n.1 == b.0 + b.1;
    assert BigEndian(n.0, 2) + (b.0 + b.1) == BigEndian(n.0, 2) + b.0 + b.1;
  }

  lemma SamplesField(samples: seq<Sample>, rest: seq<Byte>)
    requires 0 < |samples| <= MAX_PCM_SAMPLES
    ensures TakeSamples(BigEndian(|samples|, 4) + (PcmBytes(samples) + rest)) == Ok((samples, rest))
  {
    hide PcmBytes, PcmSamples, Pow256, BigEndian, TakeNumber;
    Widths();
    var b := PcmBytes(samples);
    NumberField(|samples|, 4, b + rest);
    assert (b + rest)[..|b|] == b && (b + rest)[|b|..] == rest;
    PcmRoundTrip(samples);
  }

  lemma SamplesFieldBack(input: seq<Byte>)
    requires TakeSamples(input).Ok?
    ensures var (samples, rest) := TakeSamples(input).value;
            0 < |samples| <= MAX_PCM_SAMPLES && input == BigEndian(|samples|, 4) + (PcmBytes(samples) + rest)
  {
    var n := TakeNumber(input, 4).value;
    NumberFieldBack(input, 4);
    var b := Take(n.1, 2 * n.0).value;
    PcmBytesRoundTrip(b.0);
    assert n.1 == b.0 + b.1;
  }

  // ---------------------------------------------------------------- client messages

  const U64 := 0x1_0000_0000_0000_0000

  /** What the program's types admit: numbers of their width, strings of well-formed text. */
  predicate Representable(m: Message, utf8: Utf8Check) {
    match m
    case Probe => true
    case OpenOrResume(device, stream, rate, channels, format, source) =>
      IsText(device, utf8) && IsText(stream, utf8) && IsText(format, utf8)
      && rate < 0x1_0000_0000 && channels < 0x1_0000 && source < U64
    case Pcm(id, start, samples) => IsText(id, utf8) && start < U64
    case Close(id, final) => IsText(id, utf8) && final < U64
    case MarkIncomplete(id) => IsText(id, utf8)
  }

  /** The limits a message must respect to be encoded. */
  predicate WithinLimits(m: Message) {
    match m
    case Probe => true
    case OpenOrResume(device, stream, _, _, format, _) =>
      |device| <= MAX_STRING_BYTES && |stream| <= MAX_STRING_BYTES && |format| <= MAX_STRING_BYTES
    case Pcm(id, _, samples) => 0 < |samples| <= MAX_PCM_SAMPLES && |id| <= MAX_STRING_BYTES
    case Close(id, _) => |id| <= MAX_STRING_BYTES
    case MarkIncomplete(id) => |id| <= MAX_STRING_BYTES
  }

  /** The bytes of a message, field by field. */
  function MessageBytes(m: Message, utf8: Utf8Check): seq<Byte>
    requires Representable(m, utf8)
  {
    match m
    case Probe => [0]
    case OpenOrResume(device, stream, rate, channels, format, source) =>
      [1] + (PutString(device) + (PutString(stream) + (BigEndian(rate, 4) + (BigEndian(channels, 2)
      + (PutString(format) + BigEndian(source, 8))))))
    case Pcm(id, start, samples) =>
      [2] + (PutString(id) + (BigEndian(start, 8) + (BigEndian(|samples|, 4) + PcmBytes(samples))))
    case Close(id, final) => [3] + (PutString(id) + BigEndian(final, 8))
    case MarkIncomplete(id) => [4] + PutString(id)
  }

  function DecodeOpen(input: seq<Byte>, utf8: Utf8Check): Result<Message, Error> {
    var device :- TakeString(input, utf8);
    var stream :- TakeString(device.1, utf8);
    var rate :- TakeNumber(stream.1, 4);
    var channels :- TakeNumber(rate.1, 2);
    var format :- TakeString(channels.1, utf8);
    if format.0 != SAMPLE_FORMAT_PCM_S16LE then Err(InvalidMessage("unsupported sample format"))
    else
      var source :- TakeNumber(format.1, 8);
      Finish(OpenOrResume(device.0, stream.0, rate.0, channels.0, format.0, source.0), source.1)
  }

  function DecodePcm(input: seq<Byte>, utf8: Utf8Check): Result<Message, Error> {
    var id :- TakeString(input, utf8);
    var start :- TakeNumber(id.1, 8);
    var samples :- TakeSamples(start.1);
    Finish(Pcm(id.0, start.0, samples.0), samples.1)
  }

  function DecodeClose(input: seq<Byte>, utf8: Utf8Check): Result<Message, Error> {
    var id :- TakeString(input, utf8);
    var final :- TakeNumber(id.1, 8);
    Finish(Close(id.0, final.0), final.1)
  }

  function DecodeMark(input: seq<Byte>, utf8: Utf8Check): Result<Message, Error> {
    var id :- TakeString(input, utf8);
    Finish(MarkIncomplete(id.0), id.1)
  }

  function Decode(input: seq<Byte>, utf8: Utf8Check): Result<Message, Error> {
    var kind :- TakeNumber(input, 1);
    match kind.0
    case 0 => Finish(Probe, kind.1)
    case 1 => DecodeOpen(kind.1, utf8)
    case 2 => DecodePcm(kind.1, utf8)
    case 3 => DecodeClose(kind.1, utf8)
    case 4 => DecodeMark(kind.1, utf8)
    case _ => Err(InvalidMessage("unknown client message"))
  }

  /** The one sample format a message may name. */
  predicate FixedFormat(m: Message) {
    m.OpenOrResume? ==> m.format == SAMPLE_FORMAT_PCM_S16LE
  }

  lemma KindField(kind: Byte, rest: seq<Byte>)
    ensures TakeNumber([kind] + rest, 1) == Ok((kind as nat, rest))
  {
    var input := [kind] + rest;
    assert input[..1] == [kind] && input[1..] == rest;
    assert [kind][..0] == [];
    assert FromBigEndian([kind]) == kind;
  }

  lemma KindFieldBack(input: seq<Byte>)
    requires TakeNumber(input, 1).Ok?
    ensures var (kind, rest) := TakeNumber(input, 1).value;
            kind < 256 && input == [kind] + rest
  {
    Widths();
    NumberFieldBack(input, 1);
    var kind := TakeNumber(input, 1).value.0;
    assert BigEndian(kind, 1) == BigEndian(kind / 256, 0) + [kind % 256];
  }

  lemma OpenRoundTrip(m: Message, utf8: Utf8Check)
    requires m.OpenOrResume? && Representable(m, utf8) && WithinLimits(m) && FixedFormat(m)
    ensures DecodeOpen(MessageBytes(m, utf8)[1..], utf8) == Ok(m)
  {
    hide TakeString, TakeNumber, PutString, BigEndian, IsBytes, TextBytes, Pow256;
    Widths();
    var e := BigEndian(m.source, 8);
    var d := PutString(m.format) + e;
    var c := BigEndian(m.channels, 2) + d;
    var b := BigEndian(m.rate, 4) + c;
    var a := PutString(m.stream) + b;
    assert MessageBytes(m, utf8)[1..] == PutString(m.device) + a;
    StringField(m.device, utf8, a);
    StringField(m.stream, utf8, b);
    NumberField(m.rate, 4, c);
    NumberField(m.channels, 2, d);
    StringField(m.format, utf8, e);
    NumberField(m.source, 8, []);
    assert e + [] == e;
  }

  lemma PcmMessageRoundTrip(m: Message, utf8: Utf8Check)
    requires m.Pcm? && Representable(m, utf8) && WithinLimits(m)
    ensures DecodePcm(MessageBytes(m, utf8)[1..], utf8) == Ok(m)
  {
    hide TakeString, TakeNumber, TakeSamples, PutString, BigEndian, IsBytes, TextBytes, PcmBytes, Pow256;
    Widths();
    var b := BigEndian(|m.samples|, 4) + PcmBytes(m.samples);
    var a := BigEndian(m.start, 8) + b;
    assert MessageBytes(m, utf8)[1..] == PutString(m.id) + a;
    StringField(m.id, utf8, a);
    NumberField(m.start, 8, b);
    SamplesField(m.samples, []);
    assert PcmBytes(m.samples) + [] == PcmBytes(m.samples);
  }

  lemma CloseRoundTrip(m: Message, utf8: Utf8Check)
    requires m.Close? && Representable(m, utf8) && WithinLimits(m)
    ensures DecodeClose(MessageBytes(m, utf8)[1..], utf8) == Ok(m)
  {
    hide TakeString, TakeNumber, PutString, BigEndian, IsBytes, TextBytes, Pow256;
    Widths();
    var a := BigEndian(m.final, 8);
    assert MessageBytes(m, utf8)[1..] == PutString(m.id) + a;
    StringField(m.id, utf8, a);
    NumberField(m.final, 8, []);
    assert a + [] == a;
  }

  lemma MarkRoundTrip(m: Message, utf8: Utf8Check)
    requires m.MarkIncomplete? && Representable(m, utf8) && WithinLimits(m)
    ensures DecodeMark(MessageBytes(m, utf8)[1..], utf8) == Ok(m)
  {
    hide TakeString, PutString, IsBytes, TextBytes;
    assert MessageBytes(m, utf8)[1..] == PutString(m.id) + [];
    StringField(m.id, utf8, []);
  }

  /** Whatever can be encoded, in the one sample format, is decoded to itself. */
  lemma MessageRoundTrip(m: Message, utf8: Utf8Check)
    requires Representable(m, utf8) && WithinLimits(m) && FixedFormat(m)
    ensures Decode(MessageBytes(m, utf8), utf8) == Ok(m)
  {
    hide TakeString, TakeNumber, PutString, BigEndian, IsText, DecodeOpen, DecodePcm, DecodeClose, DecodeMark;
    var b := MessageBytes(m, utf8);
    assert b == [b[0]] + b[1..];
    KindField(b[0], b[1..]);
    match m
    case Probe => assert b[1..] == [];
    case OpenOrResume(_, _, _, _, _, _) => OpenRoundTrip(m, utf8);
    case Pcm(_, _, _) => PcmMessageRoundTrip(m, utf8);
    case Close(_, _) => CloseRoundTrip(m, utf8);
    case MarkIncomplete(_) => MarkRoundTrip(m, utf8);
  }

  /** The decoded message is one the encoder could have been given, and it gives the same bytes. */
  predicate Canonical(m: Message, input: seq<Byte>, utf8: Utf8Check) {
    && Representable(m, utf8) && WithinLimits(m) && FixedFormat(m)
    && MessageBytes(m, utf8) == input
  }

  lemma OpenCanonical(input: seq<Byte>, utf8: Utf8Check)
    requires DecodeOpen(input, utf8).Ok?
    ensures Canonical(DecodeOpen(input, utf8).value, [1] + input, utf8)
  {
    hide TakeString, TakeNumber, PutString, BigEndian, IsBytes, TextBytes, Pow256;
    Widths();
    var device := TakeString(input, utf8).value;
    StringFieldBack(input, utf8);
    var stream := TakeString(device.1, utf8).value;
    StringFieldBack(device.1, utf8);
    var rate := TakeNumber(stream.1, 4).value;
    NumberFieldBack(stream.1, 4);
    var channels := TakeNumber(rate.1, 2).value;
    NumberFieldBack(rate.1, 2);
    var format := TakeString(channels.1, utf8).value;
    StringFieldBack(channels.1, utf8);
    var source := TakeNumber(format.1, 8).value;
    NumberFieldBack(format.1, 8);
    assert source.1 == [];
    assert BigEndian(source.0, 8) + [] == BigEndian(source.0, 8);
  }

  lemma PcmCanonical(input: seq<Byte>, utf8: Utf8Check)
    requires DecodePcm(input, utf8).Ok?
    ensures Canonical(DecodePcm(input, utf8).value, [2] + input, utf8)
  {
    hide TakeString, TakeNumber, TakeSamples, PutString, BigEndian, IsBytes, TextBytes, PcmBytes, Pow256;
    Widths();
    var id := TakeString(input, utf8).value;
    StringFieldBack(input, utf8);
    var start := TakeNumber(id.1, 8).value;
    NumberFieldBack(id.1, 8);
    var samples := TakeSamples(start.1).value;
    SamplesFieldBack(start.1);
    assert samples.1 == [];
    assert PcmBytes(samples.0) + [] == PcmBytes(samples.0);
  }

  lemma CloseCanonical(input: seq<Byte>, utf8: Utf8Check)
    requires DecodeClose(input, utf8).Ok?
    ensures Canonical(DecodeClose(input, utf8).value, [3] + input, utf8)
  {
    hide TakeString, TakeNumber, PutString, BigEndian, IsBytes, TextBytes, Pow256;
    Widths();
    var id := TakeString(input, utf8).value;
    StringFieldBack(input, utf8);
    var final := TakeNumber(id.1, 8).value;
    NumberFieldBack(id.1, 8);
    assert BigEndian(final.0, 8) + [] == BigEndian(final.0, 8);
  }

  lemma MarkCanonical(input: seq<Byte>, utf8: Utf8Check)
    requires DecodeMark(input, utf8).Ok?
    ensures Canonical(DecodeMark(input, utf8).value, [4] + input, utf8)
  {
    hide TakeString, PutString, IsBytes, TextBytes;
    var id := TakeString(input, utf8).value;
    StringFieldBack(input, utf8);
    assert PutString(id.0) + [] == PutString(id.0);
  }

  /** Every accepted byte string is the encoding of what it decodes to. */
  lemma DecodingIsCanonical(input: seq<Byte>, utf8: Utf8Check)
    requires Decode(input, utf8).Ok?
    ensures Canonical(Decode(input, utf8).value, input, utf8)
  {
    hide TakeNumber, IsText, DecodeOpen, DecodePcm, DecodeClose, DecodeMark, PutString, BigEndian, PcmBytes;
    KindFieldBack(input);
    var (kind, rest) := TakeNumber(input, 1).value;
    match kind
    case 0 => assert input == [0];
    case 1 => OpenCanonical(rest, utf8);
    case 2 => PcmCanonical(rest, utf8);
    case 3 => CloseCanonical(rest, utf8);
    case 4 => MarkCanonical(rest, utf8);
    case _ =>
  }

  // ---------------------------------------------------------------- server responses

  function StatusByte(s: Status): Byte {
    match s
    case Accepted => 0
    case Gap => 1
    case Incomplete => 2
    case Rejected => 3
  }

  function StatusOf(n: nat): Result<Status, Error> {
    match n
    case 0 => Ok(Accepted)
    case 1 => Ok(Gap)
    case 2 => Ok(Incomplete)
    case 3 => Ok(Rejected)
    case _ => Err(InvalidMessage("unknown response status"))
  }

  predicate ResponseFits(r: Response, utf8: Utf8Check) {
    && IsText(r.id, utf8) && IsText(r.code, utf8) && r.next < U64 && r.count < U64
    && |r.id| <= MAX_STRING_BYTES && |r.code| <= MAX_STRING_BYTES
  }

  function ResponseBytes(r: Response, utf8: Utf8Check): seq<Byte>
    requires ResponseFits(r, utf8)
  {
    [StatusByte(r.status)] + (PutString(r.id) + (BigEndian(r.next, 8) + (BigEndian(r.count, 8) + PutString(r.code))))
  }

  function DecodeResponse(input: seq<Byte>, utf8: Utf8Check): Result<Response, Error> {
    var kind :- TakeNumber(input, 1);
    var status :- StatusOf(kind.0);
    var id :- TakeString(kind.1, utf8);
    var next :- TakeNumber(id.1, 8);
    var count :- TakeNumber(next.1, 8);
    var code :- TakeString(count.1, utf8);
    Finish(Response(status, id.0, next.0, count.0, code.0), code.1)
  }

  lemma ResponseRoundTrip(r: Response, utf8: Utf8Check)
    requires ResponseFits(r, utf8)
    ensures DecodeResponse(ResponseBytes(r, utf8), utf8) == Ok(r)
  {
    hide TakeString, TakeNumber, PutString, BigEndian, IsBytes, TextBytes, Pow256;
    Widths();
    var d := PutString(r.code);
    var c := BigEndian(r.count, 8) + d;
    var b := BigEndian(r.next, 8) + c;
    KindField(StatusByte(r.status), PutString(r.id) + b);
    StringField(r.id, utf8, b);
    NumberField(r.next, 8, c);
    NumberField(r.count, 8, d);
    StringField(r.code, utf8, []);
    assert d + [] == d;
  }

  lemma ResponseIsCanonical(input: seq<Byte>, utf8: Utf8Check)
    requires DecodeResponse(input, utf8).Ok?
    ensures var r := DecodeResponse(input, utf8).value;
            ResponseFits(r, utf8) && ResponseBytes(r, utf8) == input
  {
    hide TakeString, TakeNumber, PutString, BigEndian, IsBytes, TextBytes, Pow256;
    Widths();
    KindFieldBack(input);
    var kind := TakeNumber(input, 1).value;
    var id := TakeString(kind.1, utf8).value;
    StringFieldBack(kind.1, utf8);
    var next := TakeNumber(id.1, 8).value;
    NumberFieldBack(id.1, 8);
    var count := TakeNumber(next.1, 8).value;
    NumberFieldBack(next.1, 8);
    var code := TakeString(count.1, utf8).value;
    StringFieldBack(count.1, utf8);
    assert PutString(code.0) + [] == PutString(code.0);
  }
}
