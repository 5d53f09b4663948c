/** ADTS frame headers (internal/adts/adts.go, splitter.go, duration.go): the header layout of
    section 6.2 of ISO/IEC 13818-7. */
module AdtsHeader {
  import opened Bytes

  const MIN_HEADER: nat := 7          // header without CRC
  const CRC_HEADER: nat := 9          // header with CRC
  const MAX_SAMPLING_INDEX: nat := 12 // 13..15 are reserved or escape values
  const SAMPLE_RATES: seq<nat> :=
    [96000, 88200, 64000, 48000, 44100, 32000, 24000, 22050, 16000, 12000, 11025, 8000, 7350]

  /** What an MP4 sample description would have to carry. */
  datatype Params = Params(profile: nat, sampleRateIndex: nat, sampleRate: nat, channelConfig: nat, blocks: nat)

  datatype Header = Header(params: Params, length: nat)

  /** 12-bit sync word 0xFFF followed by layer bits 00: b0 == 0xFF and b1 & 0xF6 == 0xF0. */
  predicate IsSync(b0: Byte, b1: Byte) {
    b0 == 0xFF && b1 / 16 == 0xF && b1 / 2 % 4 == 0
  }

  function HeaderLen(b1: Byte): (n: nat) {
    if b1 % 2 == 0 then CRC_HEADER else MIN_HEADER
  }

  /** The 13-bit frame_length field of bytes 3..5. */
  function FrameLength(b: seq<Byte>): (n: nat)
    requires |b| >= 6
    ensures n <= 8191
  {
    b[3] as int % 4 * 2048 + b[4] as int * 8 + b[5] as int / 32
  }

  function SamplingIndex(b2: Byte): (n: nat)
    ensures n < 16
  {
    b2 / 4 % 16
  }

  /** parseHeader: the frame length of a valid header at the start of b. */
  function ParseHeader(b: seq<Byte>): (r: Option<nat>)
    requires |b| >= MIN_HEADER
    ensures r.Some? ==> MIN_HEADER <= r.value <= 8191 && b[0] == 0xFF
  {
    if !IsSync(b[0], b[1]) then None
    else if SamplingIndex(b[2]) > MAX_SAMPLING_INDEX then None
    else if FrameLength(b) < HeaderLen(b[1]) then None
    else Some(FrameLength(b))
  }

  /** headerParams: the stream parameters of an already validated header. */
  function HeaderParams(b: seq<Byte>): (p: Params)
    requires |b| >= MIN_HEADER && ParseHeader(b).Some?
    ensures p.sampleRate > 0 && 1 <= p.blocks <= 4
  {
    var idx := SamplingIndex(b[2]);
    Params(b[2] / 64, idx, SAMPLE_RATES[idx], b[2] % 2 * 4 + b[3] / 64, b[6] % 4 + 1)
  }

  /** The public ParseHeader: decoded header, or nothing when b does not start with a valid one. */
  function DecodeHeader(b: seq<Byte>): (r: Option<Header>)
    ensures r.Some? ==> |b| >= MIN_HEADER && MIN_HEADER <= r.value.length <= 8191 && r.value.params.sampleRate > 0
    ensures |b| >= MIN_HEADER ==> (r.Some? <==> ParseHeader(b).Some?)
  {
    if |b| < MIN_HEADER then None
    else match ParseHeader(b)
      case None => None
      case Some(n) => Some(Header(HeaderParams(b), n))
  }

  /** headerPrefixValid: could b, one to six bytes long, be the beginning of a valid header? */
  predicate HeaderPrefixValid(b: seq<Byte>)
    requires |b| < MIN_HEADER
  {
    && |b| > 0 && b[0] == 0xFF
    && (|b| >= 2 ==> b[1] / 16 == 0xF && b[1] / 2 % 4 == 0)
    && (|b| >= 3 ==> SamplingIndex(b[2]) <= MAX_SAMPLING_INDEX)
    && (|b| >= 6 ==> FrameLength(b) >= HeaderLen(b[1]))
  }

  /** A whole frame: a valid header whose length field is the number of bytes. The payload is arbitrary. */
  predicate IsFrame(b: seq<Byte>) {
    |b| >= MIN_HEADER && ParseHeader(b) == Some(|b|)
  }

  /** A strict prefix of some frame (possibly empty). */
  ghost predicate IsPartialFrame(b: seq<Byte>) {
    exists whole: seq<Byte> :: IsFrame(whole) && b < whole
  }

  /** Playback time of a frame in seconds: 1024 samples per raw data block. */
  function Seconds(p: Params): (s: real)
    ensures p.sampleRate > 0 && p.blocks > 0 ==> s > 0.0
  {
    if p.sampleRate == 0 then 0.0 else (1024 * p.blocks) as real / p.sampleRate as real
  }

  /** Total playback time of whole frames. */
  function FrameSeconds(frames: seq<seq<Byte>>): (s: real)
  {
    if frames == [] then 0.0
    else (if IsFrame(frames[0]) then Seconds(HeaderParams(frames[0])) else 0.0) + FrameSeconds(frames[1..])
  }

  /** Every decision about a header is taken from its first seven bytes. */
  lemma HeaderIsLocal(b: seq<Byte>, more: seq<Byte>)
    requires |b| >= MIN_HEADER
    ensures ParseHeader(b + more) == ParseHeader(b)
    ensures DecodeHeader(b + more) == DecodeHeader(b)
  {
  }

  /** The prefix test never rejects a real header, and a full six-byte accepted prefix with any seventh byte is one. */
  lemma PrefixOfHeader(b: seq<Byte>, k: nat)
    requires |b| >= MIN_HEADER && 0 < k < MIN_HEADER
    ensures ParseHeader(b).Some? ==> HeaderPrefixValid(b[..k])
    ensures k == 6 ==> (HeaderPrefixValid(b[..k]) <==> ParseHeader(b).Some?)
  {
    var p := b[..k];
    assert forall i :: 0 <= i < k ==> p[i] == b[i];
  }

  /** What a partial frame looks like to the scanners: the visible bytes are a valid header prefix, or a valid
      header that announces more bytes than there are. */
  lemma PartialFrameShape(b: seq<Byte>)
    ensures IsPartialFrame(b) && 0 < |b| < MIN_HEADER ==> HeaderPrefixValid(b)
    ensures IsPartialFrame(b) && |b| >= MIN_HEADER ==> ParseHeader(b).Some? && ParseHeader(b).value > |b|
    ensures IsPartialFrame(b) && |b| > 0 ==> b[0] == 0xFF
  {
    if IsPartialFrame(b) && |b| > 0 {
      var whole: seq<Byte> :| IsFrame(whole) && b < whole;
      assert b == whole[..|b|];
      if |b| < MIN_HEADER {
        PrefixOfHeader(whole, |b|);
      } else {
        assert whole == b + whole[|b|..];
        HeaderIsLocal(b, whole[|b|..]);
      }
    }
  }
}
