/**
 * What is on the wire, byte by byte: numbers most significant byte first, text behind its
 * length, samples least significant byte first, and the fields in their places.
 */
module CodecWire {
  import opened Arithmetic
  import opened Wrappers
  import opened Bytes
  import opened UploadProtocol
  import opened Codec
  import E = Envelopes

  /** 256 to the power of the number of bytes that follow. */
  function Weight(following: nat): (w: nat)
    ensures w > 0
  {
    if following == 0 then 1 else 256 * Weight(following - 1)
  }

  /** The digits of a number to the base 256, most significant first. */
  predicate Digits(d: seq<Byte>, n: nat) {
    forall i :: 0 <= i < |d| ==> d[i] == n / Weight(|d| - 1 - i) % 256
  }

  /** A text as its bytes. */
  predicate Characters(d: seq<Byte>, s: string) {
    |d| == |s| && forall i :: 0 <= i < |s| ==> d[i] == s[i] as int
  }

  /** Samples as 16-bit numbers in two's complement, least significant byte first. */
  predicate LittleEndian(d: seq<Byte>, samples: seq<Sample>) {
    |d| == 2 * |samples| &&
    forall i :: 0 <= i < |samples| ==> d[2 * i] == samples[i] % 256 && d[2 * i + 1] == (samples[i] / 256) % 256
  }

  predicate NumberAt(b: seq<Byte>, at: nat, width: nat, n: nat) {
    at + width <= |b| && Digits(b[at..at + width], n)
  }

  /** A text behind its length of two bytes. */
  predicate TextAt(b: seq<Byte>, at: nat, s: string) {
    NumberAt(b, at, 2, |s|) && at + 2 + |s| <= |b| && Characters(b[at + 2..at + 2 + |s|], s)
  }

  predicate SamplesAt(b: seq<Byte>, at: nat, samples: seq<Sample>) {
    at + 2 * |samples| <= |b| && LittleEndian(b[at..at + 2 * |samples|], samples)
  }

  lemma DivTwice(n: nat, w: nat)
    requires w > 0
    ensures (n / 256) / w == n / (256 * w)
  {
    var q, r := (n / 256) / w, (n / 256) % w;
    assert n / 256 == q * w + r;
    Regroup(q, w, r, n % 256);
    DivIsUnique(n, q, 256 * r + n % 256, 256 * w);
  }

  lemma Regroup(q: nat, w: nat, r: nat, low: nat)
    ensures 256 * (q * w + r) + low == q * (256 * w) + (256 * r + low)
  {
    assert q * (256 * w) == 256 * (q * w);
  }

  lemma {:induction false} DigitsAre(n: nat, width: nat)
    ensures Digits(BigEndian(n, width), n)
  {
    if width > 0 {
      DigitsAre(n / 256, width - 1);
      var b, front := BigEndian(n, width), BigEndian(n / 256, width - 1);
      forall i | 0 <= i < width ensures b[i] == n / Weight(width - 1 - i) % 256 {
        if i < width - 1 {
          assert b[i] == front[i];
          DivTwice(n, Weight(width - 2 - i));
        }
      }
    }
  }

  lemma {:induction false} SamplesAre(samples: seq<Sample>)
    ensures LittleEndian(PcmBytes(samples), samples)
  {
    if |samples| > 0 {
      SamplesAre(samples[1..]);
      var b, rest := PcmBytes(samples), PcmBytes(samples[1..]);
      forall i | 0 <= i < |samples| ensures b[2 * i] == samples[i] % 256 && b[2 * i + 1] == (samples[i] / 256) % 256 {
        if i > 0 {
          assert b[2 * i] == rest[2 * (i - 1)] && b[2 * i + 1] == rest[2 * (i - 1) + 1];
          assert samples[1..][i - 1] == samples[i];
        }
      }
    }
  }

  /** One field behind others: it is where they end, and the next ones follow it. */
  lemma Field(before: seq<Byte>, field: seq<Byte>, after: seq<Byte>)
    ensures before + (field + after) == (before + field) + after
    ensures ((before + field) + after)[|before|..|before| + |field|] == field
  {
  }

  lemma NumberField(before: seq<Byte>, n: nat, width: nat, after: seq<Byte>)
    ensures before + (BigEndian(n, width) + after) == (before + BigEndian(n, width)) + after
    ensures NumberAt((before + BigEndian(n, width)) + after, |before|, width, n)
  {
    hide BigEndian, Digits;
    DigitsAre(n, width);
    Field(before, BigEndian(n, width), after);
  }

  lemma SamplesField(before: seq<Byte>, samples: seq<Sample>)
    ensures SamplesAt(before + PcmBytes(samples), |before|, samples)
  {
    hide PcmBytes, LittleEndian;
    SamplesAre(samples);
    Field(before, PcmBytes(samples), []);
    assert (before + PcmBytes(samples)) + [] == before + PcmBytes(samples);
  }

  lemma TextField(before: seq<Byte>, s: string, after: seq<Byte>)
    requires IsBytes(s)
    ensures |PutString(s)| == 2 + |s|
    ensures before + (PutString(s) + after) == (before + PutString(s)) + after
    ensures TextAt((before + PutString(s)) + after, |before|, s)
  {
    hide BigEndian, Digits;
    var length, text := BigEndian(|s|, 2), TextBytes(s);
    DigitsAre(|s|, 2);
    Field(before, length + text, after);
    var b := (before + (length + text)) + after;
    Field(before, length, text + after);
    Field(before + length, text, after);
    assert b == ((before + length) + text) + after by {
      Join(before, length, text, after);
    }
    assert b == (before + length) + (text + after);
    assert b[|before|..|before| + 2] == length && b[|before| + 2..|before| + 2 + |s|] == text;
  }

  lemma Join(a: seq<Byte>, b: seq<Byte>, c: seq<Byte>, d: seq<Byte>)
    ensures (a + (b + c)) + d == ((a + b) + c) + d == (a + b) + (c + d)
  {
  }

  /** The places of every message's fields, and that nothing else is in it. */
  predicate Laid(m: Message, b: seq<Byte>) {
    match m
    case Probe => b == [0]
    case OpenOrResume(device, stream, rate, channels, format, source) =>
      var d, s, f := |device|, |stream|, |format|;
      && |b| == 21 + d + s + f && b[0] == 1 && TextAt(b, 1, device) && TextAt(b, 3 + d, stream)
      && NumberAt(b, 5 + d + s, 4, rate) && NumberAt(b, 9 + d + s, 2, channels)
      && TextAt(b, 11 + d + s, format) && NumberAt(b, 13 + d + s + f, 8, source)
    case Pcm(id, start, samples) =>
      && |b| == 15 + |id| + 2 * |samples| && b[0] == 2 && TextAt(b, 1, id)
      && NumberAt(b, 3 + |id|, 8, start) && NumberAt(b, 11 + |id|, 4, |samples|) && SamplesAt(b, 15 + |id|, samples)
    case Close(id, final) => |b| == 11 + |id| && b[0] == 3 && TextAt(b, 1, id) && NumberAt(b, 3 + |id|, 8, final)
    case MarkIncomplete(id) => |b| == 3 + |id| && b[0] == 4 && TextAt(b, 1, id)
  }

  /** Every message is laid out so. */
  lemma MessagesAreLaid(m: Message, utf8: Utf8Check)
    requires Representable(m, utf8)
    ensures Laid(m, MessageBytes(m, utf8))
  {
    hide BigEndian, PutString, PcmBytes, NumberAt, TextAt, SamplesAt;
    match m
    case Probe =>
    case OpenOrResume(_, _, _, _, _, _) => OpenIsLaid(m, utf8);
    case Pcm(_, _, _) => PcmIsLaid(m, utf8);
    case Close(id, final) =>
      TextField([3], id, BigEndian(final, 8));
      NumberField([3] + PutString(id), final, 8, []);
      NothingAfter([3] + PutString(id) + BigEndian(final, 8));
    case MarkIncomplete(id) =>
      TextField([4], id, []);
      NothingAfter([4] + PutString(id));
  }

  lemma NothingAfter(b: seq<Byte>)
    ensures b + [] == b
  {
  }

  lemma PcmIsLaid(m: Message, utf8: Utf8Check)
    requires Representable(m, utf8) && m.Pcm?
    ensures Laid(m, MessageBytes(m, utf8))
  {
    hide BigEndian, PutString, PcmBytes, NumberAt, TextAt, SamplesAt;
    var text, start, count, pcm := PutString(m.id), BigEndian(m.start, 8), BigEndian(|m.samples|, 4), PcmBytes(m.samples);
    TextField([2], m.id, start + (count + pcm));
    NumberField([2] + text, m.start, 8, count + pcm);
    NumberField([2] + text + start, |m.samples|, 4, pcm);
    SamplesField([2] + text + start + count, m.samples);
  }

  lemma OpenIsLaid(m: Message, utf8: Utf8Check)
    requires Representable(m, utf8) && m.OpenOrResume?
    ensures Laid(m, MessageBytes(m, utf8))
  {
    hide BigEndian, PutString, NumberAt, TextAt;
    var d, s, f := PutString(m.device), PutString(m.stream), PutString(m.format);
    var rate, channels, source := BigEndian(m.rate, 4), BigEndian(m.channels, 2), BigEndian(m.source, 8);
    TextField([1], m.device, s + (rate + (channels + (f + source))));
    TextField([1] + d, m.stream, rate + (channels + (f + source)));
    NumberField([1] + d + s, m.rate, 4, channels + (f + source));
    NumberField([1] + d + s + rate, m.channels, 2, f + source);
    TextField([1] + d + s + rate + channels, m.format, source);
    NumberField([1] + d + s + rate + channels + f, m.source, 8, []);
    NothingAfter([1] + d + s + rate + channels + f + source);
  }

  /** What can be encoded: texts of at most 4096 bytes, and one to 131072 samples. */
  lemma LimitsAre(m: Message)
    ensures WithinLimits(m) <==>
            match m
            case Probe => true
            case OpenOrResume(device, stream, _, _, format, _) => |device| <= 4096 && |stream| <= 4096 && |format| <= 4096
            case Pcm(id, _, samples) => |id| <= 4096 && 1 <= |samples| <= 131_072
            case Close(id, _) => |id| <= 4096
            case MarkIncomplete(id) => |id| <= 4096
  {
  }

  /** The places of a response's fields. */
  lemma ResponsesAreLaid(r: Response, utf8: Utf8Check)
    requires ResponseFits(r, utf8)
    ensures var b := ResponseBytes(r, utf8);
            var n := |r.id|;
            && |b| == 21 + n + |r.code| && b[0] == (match r.status
                                                    case Accepted => 0
                                                    case Gap => 1
                                                    case Incomplete => 2
                                                    case Rejected => 3)
            && TextAt(b, 1, r.id) && NumberAt(b, 3 + n, 8, r.next) && NumberAt(b, 11 + n, 8, r.count)
            && TextAt(b, 19 + n, r.code)
  {
    hide BigEndian, PutString, NumberAt, TextAt;
    var k: seq<Byte> := [StatusByte(r.status)];
    var id, next, count, code := PutString(r.id), BigEndian(r.next, 8), BigEndian(r.count, 8), PutString(r.code);
    TextField(k, r.id, next + (count + code));
    NumberField(k + id, r.next, 8, count + code);
    NumberField(k + id + next, r.count, 8, code);
    TextField(k + id + next + count, r.code, []);
    NothingAfter(k + id + next + count + code);
  }

  /** The places of an envelope's header fields: "ECS1", version 2, key id, epoch, sequence and ciphertext length. */
  lemma HeadersAreLaid(h: E.Header, utf8: Utf8Check)
    requires E.HeaderFits(h, utf8)
    ensures var b := E.HeaderBytes(h);
            && |b| == 34 + |h.keyId| && b[..4] == [0x45, 0x43, 0x53, 0x31] && b[4] == 2 && b[5] == |h.keyId|
            && b[6..22] == h.epoch && NumberAt(b, 22, 8, h.sequence) && NumberAt(b, 30, 4, h.length)
            && Characters(b[34..], h.keyId)
  {
    hide BigEndian, NumberAt;
    E.HeaderFields(h, []);
    NothingAfter(E.HeaderBytes(h));
    HeaderNumbers(h);
  }

  lemma HeaderNumbers(h: E.Header)
    requires IsBytes(h.keyId) && |h.keyId| < 256 && |h.epoch| == ID_BYTES
    ensures var b := E.HeaderBytes(h);
            |b| >= 34 && NumberAt(b, 22, 8, h.sequence) && NumberAt(b, 30, 4, h.length)
  {
    hide BigEndian, Digits;
    E.HeaderFields(h, []);
    NothingAfter(E.HeaderBytes(h));
    DigitsAre(h.sequence, 8);
    DigitsAre(h.length, 4);
  }

  /** A nonce is the direction's own constant and the sequence. */
  lemma NoncesAreLaid(d: E.Direction, sequence: nat)
    ensures var b := E.NonceBytes(d, sequence);
            && |b| == 12 && NumberAt(b, 0, 4, if d.ClientToServer? then 0x4332_5301 else 0x5332_4301)
            && NumberAt(b, 4, 8, sequence)
  {
    hide BigEndian, Digits;
    var b := E.NonceBytes(d, sequence);
    DigitsAre(E.Domain(d), 4);
    DigitsAre(sequence, 8);
    assert b[0..4] == BigEndian(E.Domain(d), 4) && b[4..12] == BigEndian(sequence, 8);
  }
}
