/** Headers as an encoder writes them, field by field, against the decoders; and how long whole frames play. */
module EncodedAudio {
  import opened Bytes
  import opened AdtsHeader
  import Scanning
  import TailRepair
  import Id3

  // ---------------------------------------------------------------------------------------------------------------
  // The 56 bits of a header
  // ---------------------------------------------------------------------------------------------------------------

  /** sampling_frequency_index, by the frequency in Hz. */
  function IndexOf(rate: nat): (i: Option<nat>)
  {
    match rate
    case 96000 => Some(0)
    case 88200 => Some(1)
    case 64000 => Some(2)
    case 48000 => Some(3)
    case 44100 => Some(4)
    case 32000 => Some(5)
    case 24000 => Some(6)
    case 22050 => Some(7)
    case 16000 => Some(8)
    case 12000 => Some(9)
    case 11025 => Some(10)
    case 8000 => Some(11)
    case 7350 => Some(12)
    case _ => None
  }

  /** The fields of adts_fixed_header and adts_variable_header, without the sync word and the layer. `flags` are
      original_copy, home, copyright_identification_bit and copyright_identification_start. */
  datatype Fields = Fields(mpeg2: nat, protectionAbsent: nat, profile: nat, rate: nat, privateBit: nat, channels: nat,
                           flags: nat, length: nat, fullness: nat, blocks: nat)

  /** They fit their bits, and a frame is at least as long as its header. */
  predicate Fit(f: Fields) {
    && f.mpeg2 < 2 && f.protectionAbsent < 2 && f.profile < 4 && IndexOf(f.rate).Some? && f.privateBit < 2
    && f.channels < 8 && f.flags < 16 && f.fullness < 2048 && 1 <= f.blocks <= 4
    && (if f.protectionAbsent == 0 then CRC_HEADER else MIN_HEADER) <= f.length < 8192
  }

  /** One more field behind the bits so far: `2^width * bits + value`. */
  function Behind(bits: nat, size: nat, value: nat): (n: nat)
  {
    bits * size + value
  }

  /** The header as one number of 56 bits. */
  function HeaderBits(f: Fields): (n: nat)
    requires Fit(f)
  {
    var sync := Behind(Behind(Behind(0xFFF, 2, f.mpeg2), 4, 0), 2, f.protectionAbsent);
    var stream := Behind(Behind(Behind(Behind(sync, 4, f.profile), 16, IndexOf(f.rate).value), 2, f.privateBit), 8,
                         f.channels);
    Behind(Behind(Behind(Behind(stream, 16, f.flags), 8192, f.length), 2048, f.fullness), 4, f.blocks - 1)
  }

  /** The last n bytes of a number, most significant first. */
  function BigEndian(value: nat, n: nat): (b: seq<Byte>)
    ensures |b| == n
  {
    if n == 0 then [] else BigEndian(value / 256, n - 1) + [value % 256]
  }

  function EncodeHeader(f: Fields): (b: seq<Byte>)
    requires Fit(f)
  {
    BigEndian(HeaderBits(f), MIN_HEADER)
  }

  /** The number made of these bytes. */
  function Number(b: seq<Byte>): (n: nat)
  {
    if b == [] then 0 else Number(b[..|b| - 1]) * 256 + b[|b| - 1]
  }

  lemma {:induction false} BigEndianOfNumber(b: seq<Byte>)
    ensures BigEndian(Number(b), |b|) == b
  {
    if b != [] {
      var init := b[..|b| - 1];
      BigEndianOfNumber(init);
      assert Number(b) / 256 == Number(init) && Number(b) % 256 == b[|b| - 1];
      assert b == init + [b[|b| - 1]];
    }
  }

  /** The bytes the fields are spread over. */
  function Spread(f: Fields): (b: seq<Byte>)
    requires Fit(f)
    ensures |b| == MIN_HEADER
  {
    [0xFF, 0xF0 + f.mpeg2 * 8 + f.protectionAbsent,
     f.profile * 64 + IndexOf(f.rate).value * 4 + f.privateBit * 2 + f.channels / 4,
     f.channels % 4 * 64 + f.flags * 4 + f.length / 2048,
     f.length / 8 % 256,
     f.length % 8 * 32 + f.fullness / 64,
     f.fullness % 64 * 4 + f.blocks - 1]
  }

  function Number7(a: int, b: int, c: int, d: int, e: int, f: int, g: int): (n: int)
  {
    (((((a * 256 + b) * 256 + c) * 256 + d) * 256 + e) * 256 + f) * 256 + g
  }

  lemma NumberOfSeven(b: seq<Byte>)
    requires |b| == 7
    ensures Number(b) == Number7(b[0], b[1], b[2], b[3], b[4], b[5], b[6])
  {
    assert b[..6][..5] == b[..5] && b[..5][..4] == b[..4] && b[..4][..3] == b[..3] && b[..3][..2] == b[..2]
           && b[..2][..1] == b[..1] && b[..1][..0] == [];
    assert Number(b[..1]) == Number([]) * 256 + b[0];
    assert Number(b[..2]) == Number(b[..1]) * 256 + b[1];
    assert Number(b[..3]) == Number(b[..2]) * 256 + b[2];
    assert Number(b[..4]) == Number(b[..3]) * 256 + b[3];
    assert Number(b[..5]) == Number(b[..4]) * 256 + b[4];
    assert Number(b[..6]) == Number(b[..5]) * 256 + b[5];
  }

  /** The same bits, cut into fields and into bytes: c, l and u are what the channels, the length and the fullness leave
      in each of their bytes. */
  lemma SameBits(f: Fields, c1: nat, c0: nat, l2: nat, l1: nat, l0: nat, u1: nat, u0: nat)
    requires Fit(f)
    requires f.channels == c1 * 4 + c0 && f.length == l2 * 2048 + l1 * 8 + l0 && f.fullness == u1 * 64 + u0
    ensures HeaderBits(f) ==
              Number7(0xFF, 0xF0 + f.mpeg2 * 8 + f.protectionAbsent,
                      f.profile * 64 + IndexOf(f.rate).value * 4 + f.privateBit * 2 + c1,
                      c0 * 64 + f.flags * 4 + l2, l1, l0 * 32 + u1, u0 * 4 + f.blocks - 1)
  {
    hide IndexOf;
  }

  lemma HeaderIsSpread(f: Fields)
    requires Fit(f)
    ensures EncodeHeader(f) == Spread(f)
  {
    hide HeaderBits, IndexOf, Number7;
    var b := Spread(f);
    NumberOfSeven(b);
    Digits(f.length);
    SameBits(f, f.channels / 4, f.channels % 4, f.length / 2048, f.length / 8 % 256, f.length % 8, f.fullness / 64,
             f.fullness % 64);
    BigEndianOfNumber(b);
  }

  lemma Digits(n: nat)
    ensures n == n / 2048 * 2048 + n / 8 % 256 * 8 + n % 8
  {
    assert n / 8 / 256 == n / 2048;
  }

  lemma RateOfIndex(rate: nat)
    requires IndexOf(rate).Some?
    ensures var i := IndexOf(rate).value; i <= MAX_SAMPLING_INDEX && SAMPLE_RATES[i] == rate
  {
  }

  lemma SecondByte(id: nat, absent: nat)
    requires id < 2 && absent < 2
    ensures var b: Byte := 0xF0 + id * 8 + absent; IsSync(0xFF, b) && b % 2 == absent
  {
  }

  lemma ThirdByte(profile: nat, i: nat, bit: nat, c1: nat)
    requires profile < 4 && i < 16 && bit < 2 && c1 < 2
    ensures var b: Byte := profile * 64 + i * 4 + bit * 2 + c1;
            b / 64 == profile && SamplingIndex(b) == i && b % 2 == c1
  {
  }

  lemma LengthBytes(c0: nat, flags: nat, length: nat, u1: nat)
    requires c0 < 4 && flags < 16 && length < 8192 && u1 < 32
    ensures var b3: Byte, b4: Byte, b5: Byte :=
              c0 * 64 + flags * 4 + length / 2048, length / 8 % 256, length % 8 * 32 + u1;
            b3 / 64 == c0 && b3 % 4 * 2048 + b4 * 8 + b5 / 32 == length
  {
    Digits(length);
    var l2 := length / 2048;
    assert (c0 * 64 + flags * 4 + l2) % 4 == l2;
  }

  lemma SpreadIsAccepted(f: Fields)
    requires Fit(f)
    ensures |Spread(f)| == MIN_HEADER && ParseHeader(Spread(f)) == Some(f.length)
  {
    hide IndexOf, IsSync, SamplingIndex, FrameLength, Spread;
    RateOfIndex(f.rate);
    SpreadSync(f);
    SpreadIndex(f);
    SpreadLength(f);
  }

  lemma SpreadSync(f: Fields)
    requires Fit(f)
    ensures IsSync(Spread(f)[0], Spread(f)[1]) && Spread(f)[1] % 2 == f.protectionAbsent
  {
    hide IndexOf, IsSync;
    SecondByte(f.mpeg2, f.protectionAbsent);
  }

  lemma SpreadIndex(f: Fields)
    requires Fit(f)
    ensures SamplingIndex(Spread(f)[2]) == IndexOf(f.rate).value
    ensures Spread(f)[2] / 64 == f.profile && Spread(f)[2] % 2 == f.channels / 4
  {
    hide IndexOf, SamplingIndex;
    RateOfIndex(f.rate);
    ThirdByte(f.profile, IndexOf(f.rate).value, f.privateBit, f.channels / 4);
  }

  lemma SpreadLength(f: Fields)
    requires Fit(f)
    ensures FrameLength(Spread(f)) == f.length && Spread(f)[3] / 64 == f.channels % 4
  {
    hide IndexOf;
    LengthBytes(f.channels % 4, f.flags, f.length, f.fullness / 64);
  }

  lemma SpreadLast(f: Fields)
    requires Fit(f)
    ensures Spread(f)[6] % 4 + 1 == f.blocks
  {
    hide IndexOf;
    LastByte(f.fullness % 64, f.blocks);
  }

  lemma LastByte(u0: nat, blocks: nat)
    requires u0 < 64 && 1 <= blocks <= 4
    ensures var b: Byte := u0 * 4 + blocks - 1; b % 4 + 1 == blocks
  {
  }

  lemma SpreadParams(f: Fields)
    requires Fit(f) && ParseHeader(Spread(f)).Some?
    ensures HeaderParams(Spread(f)) == Params(f.profile, IndexOf(f.rate).value, f.rate, f.channels, f.blocks)
  {
    hide IndexOf, ParseHeader, SamplingIndex, Spread;
    RateOfIndex(f.rate);
    SpreadIndex(f);
    SpreadLength(f);
    SpreadLast(f);
    assert f.channels / 4 * 4 + f.channels % 4 == f.channels;
  }

  /** Whatever an encoder writes is decoded to what it wrote, whatever follows: parameters, rate in Hz and length. */
  lemma HeaderRoundTrip(f: Fields, more: seq<Byte>)
    requires Fit(f)
    ensures DecodeHeader(EncodeHeader(f) + more) ==
              Some(Header(Params(f.profile, IndexOf(f.rate).value, f.rate, f.channels, f.blocks), f.length))
  {
    hide IndexOf, EncodeHeader, Spread, ParseHeader, HeaderParams, Fit;
    HeaderIsSpread(f);
    HeaderIsLocal(Spread(f), more);
    SpreadIsAccepted(f);
    SpreadParams(f);
  }

  /** The fields a header spells. */
  function FieldsOf(b: seq<Byte>): (f: Fields)
    requires |b| >= MIN_HEADER && ParseHeader(b).Some?
  {
    var p := HeaderParams(b);
    Fields(b[1] / 8 % 2, b[1] % 2, p.profile, p.sampleRate, b[2] / 2 % 2, p.channelConfig, b[3] / 4 % 16,
           FrameLength(b), b[5] as int % 32 * 64 + b[6] as int / 4, p.blocks)
  }

  lemma IndexOfRate(i: nat)
    requires i <= MAX_SAMPLING_INDEX
    ensures IndexOf(SAMPLE_RATES[i]) == Some(i)
  {
  }

  /** What the decoder accepts is exactly what an encoder can write: every accepted header is the encoding of its
      fields. */
  lemma AcceptedIsEncoded(b: seq<Byte>)
    requires |b| >= MIN_HEADER && ParseHeader(b).Some?
    ensures Fit(FieldsOf(b)) && EncodeHeader(FieldsOf(b)) == b[..MIN_HEADER]
  {
    hide IndexOf, EncodeHeader;
    IndexOfRate(SamplingIndex(b[2]));
    var f := FieldsOf(b);
    assert Fit(f);
    HeaderIsSpread(f);
    SpreadBack(b, f);
  }

  lemma SpreadBack(b: seq<Byte>, f: Fields)
    requires |b| >= MIN_HEADER && ParseHeader(b).Some? && Fit(f) && f == FieldsOf(b)
    requires IndexOf(f.rate) == Some(SamplingIndex(b[2]))
    ensures Spread(f) == b[..MIN_HEADER]
  {
    hide IndexOf;
    var s := Spread(f);
    SecondByteBack(b[1]);
    ThirdByteBack(b[2], b[3] / 64);
    LengthBack(b[3], b[4], b[5]);
    FullnessBack(b[5], b[6]);
    assert forall i :: 0 <= i < MIN_HEADER ==> s[i] == b[i];
  }

  lemma SecondByteBack(b1: Byte)
    requires IsSync(0xFF, b1)
    ensures 0xF0 + b1 / 8 % 2 * 8 + b1 % 2 == b1
  {
  }

  lemma ThirdByteBack(b2: Byte, c0: nat)
    requires c0 < 4
    ensures var c := b2 as int % 2 * 4 + c0;
            b2 / 64 * 64 + SamplingIndex(b2) * 4 + b2 / 2 % 2 * 2 + c / 4 == b2 && c % 4 == c0
  {
    var n := b2 as int;
    assert n / 4 / 16 == n / 64 && n / 2 / 2 == n / 4;
    var c := n % 2 * 4 + c0;
    assert c / 4 == n % 2;
  }

  lemma LengthBack(b3: Byte, b4: Byte, b5: Byte)
    ensures var n := b3 as int % 4 * 2048 + b4 as int * 8 + b5 as int / 32;
            n / 2048 == b3 % 4 && n / 8 % 256 == b4 && n % 8 == b5 / 32
    ensures b3 == b3 / 64 * 64 + b3 / 4 % 16 * 4 + b3 % 4
  {
    DigitsBack(b3 as int % 4, b4 as int, b5 as int / 32);
    var n := b3 as int;
    assert n / 4 / 16 == n / 64;
  }

  lemma DigitsBack(l2: nat, l1: nat, l0: nat)
    requires l2 < 4 && l1 < 256 && l0 < 8
    ensures var n := l2 * 2048 + l1 * 8 + l0; n / 2048 == l2 && n / 8 % 256 == l1 && n % 8 == l0
  {
    var n := l2 * 2048 + l1 * 8 + l0;
    assert n / 8 == l2 * 256 + l1;
  }

  lemma FullnessBack(b5: Byte, b6: Byte)
    ensures var n := b5 as int % 32 * 64 + b6 as int / 4;
            n / 64 == b5 % 32 && n % 64 * 4 + b6 % 4 == b6
    ensures b5 == b5 / 32 * 32 + b5 % 32
  {
  }

  // ---------------------------------------------------------------------------------------------------------------
  // Frequencies and time
  // ---------------------------------------------------------------------------------------------------------------

  /** The frequencies come in octaves of 48, 44.1 and 32 kHz, from high to low; the last one stands alone. */
  lemma FrequenciesAreOctaves()
    ensures |SAMPLE_RATES| == MAX_SAMPLING_INDEX + 1
    ensures SAMPLE_RATES[3] == 48000 && SAMPLE_RATES[4] == 44100 && SAMPLE_RATES[5] == 32000 && SAMPLE_RATES[12] == 7350
    ensures forall i :: 0 <= i < 9 ==> SAMPLE_RATES[i] == 2 * SAMPLE_RATES[i + 3]
    ensures forall i, j :: 0 <= i < j < |SAMPLE_RATES| ==> SAMPLE_RATES[i] > SAMPLE_RATES[j]
  {
  }

  /** What a scan finds in whole frames. */
  function Whole(frames: seq<seq<Byte>>, off: nat): (es: seq<Scanning.Elem>)
    requires TailRepair.AllFrames(frames)
  {
    if frames == [] then []
    else
      var f := frames[0];
      assert f in frames;
      [Scanning.Frame(off, Header(HeaderParams(f), |f|))] + Whole(frames[1..], off + |f|)
  }

  lemma FindWhole(f: seq<Byte>, rest: seq<Byte>, synced: bool, off: nat)
    requires IsFrame(f) && (synced || rest == [] || (|rest| >= MIN_HEADER && ParseHeader(rest).Some?))
    ensures Scanning.FindAt(f + rest, synced, off) ==
              Scanning.Found(Scanning.Frame(off, Header(HeaderParams(f), |f|)), true, false)
  {
    hide ParseHeader, HeaderParams;
    HeaderIsLocal(f, rest);
    assert (f + rest)[|f|..] == rest;
  }

  lemma FindPartial(partial: seq<Byte>, synced: bool, off: nat)
    requires IsPartialFrame(partial) && partial != []
    ensures Scanning.Elements(partial, synced, off) == [Scanning.Junk(off, |partial|)]
  {
    hide ParseHeader, HeaderParams;
    PartialFrameShape(partial);
  }

  /** A scan of whole frames and a strict prefix of one counts every frame and nothing else, at its place; the prefix is
      junk. (A single frame with other bytes behind it is not trusted.) */
  lemma {:induction false} ScanOfWholeFrames(frames: seq<seq<Byte>>, partial: seq<Byte>, synced: bool, off: nat)
    requires TailRepair.AllFrames(frames) && IsPartialFrame(partial)
    requires synced || |frames| != 1 || partial == []
    ensures Scanning.Elements(Flatten(frames) + partial, synced, off) ==
              Whole(frames, off) +
              if partial == [] then [] else [Scanning.Junk(off + |Flatten(frames)|, |partial|)]
  {
    hide IsPartialFrame, IsFrame, Scanning.Elements, HeaderParams;
    if frames == [] {
      assert Flatten(frames) + partial == partial;
      if partial == [] {
        Scanning.EmptyRest(synced, off);
      } else {
        FindPartial(partial, synced, off);
      }
    } else {
      WholeInFront(frames, partial, synced, off);
      ScanOfWholeFrames(frames[1..], partial, true, off + |frames[0]|);
    }
  }

  lemma WholeInFront(frames: seq<seq<Byte>>, partial: seq<Byte>, synced: bool, off: nat)
    requires TailRepair.AllFrames(frames) && frames != []
    requires synced || |frames| != 1 || partial == []
    ensures TailRepair.AllFrames(frames[1..]) && frames[0] in frames
    ensures Scanning.Elements(Flatten(frames) + partial, synced, off) ==
              [Scanning.Frame(off, Header(HeaderParams(frames[0]), |frames[0]|))] +
              Scanning.Elements(Flatten(frames[1..]) + partial, true, off + |frames[0]|)
  {
    hide Scanning.FindAt, Scanning.Elements, ParseHeader, HeaderParams;
    var f, more := frames[0], frames[1..];
    var rest := Flatten(more) + partial;
    assert f in frames && forall g :: g in more ==> g in frames;
    Associate(f, Flatten(more), partial);
    if more != [] {
      assert more[0] in frames;
      Associate(more[0], Flatten(more[1..]), partial);
      HeaderIsLocal(more[0], Flatten(more[1..]) + partial);
    }
    FindWhole(f, rest, synced, off);
    Scanning.ElementsUnfold(f + rest, synced, off);
    assert (f + rest)[|f|..] == rest;
  }

  /** A tag is stepped over as a whole, in front of anything, and the frames behind it are to be trusted anew. */
  lemma TagIsSkipped(tag: seq<Byte>, rest: seq<Byte>, synced: bool, off: nat)
    requires |tag| >= 10 && Id3.TagLen(tag) == Some(|tag|)
    ensures Scanning.Elements(tag + rest, synced, off) ==
              [Scanning.Tag(off, |tag|)] + Scanning.Elements(rest, false, off + |tag|)
  {
    hide Scanning.Elements, Id3.TagLen;
    Id3.TagLenIsLocal(tag[..10], tag[10..]);
    assert tag[..10] + tag[10..] == tag && tag[..10] + (tag[10..] + rest) == tag + rest;
    Id3.TagLenIsLocal(tag[..10], tag[10..] + rest);
    Scanning.ElementsUnfold(tag + rest, synced, off);
    assert (tag + rest)[|tag|..] == rest;
  }

  lemma {:induction false} SumOfWhole(frames: seq<seq<Byte>>, off: nat)
    requires TailRepair.AllFrames(frames)
    ensures Scanning.Sum(Whole(frames, off)) ==
              Scanning.Totals(|frames|, |Flatten(frames)|, 0, 0, 0, FrameSeconds(frames))
  {
    hide ParseHeader, HeaderParams, Seconds;
    if frames != [] {
      assert frames[0] in frames;
      assert forall g :: g in frames[1..] ==> g in frames;
      SumOfWhole(frames[1..], off + |frames[0]|);
    }
  }

  /** All frames have these parameters. */
  ghost predicate Alike(frames: seq<seq<Byte>>, rate: nat, blocks: nat) {
    forall f :: f in frames ==>
      IsFrame(f) && HeaderParams(f).sampleRate == rate && HeaderParams(f).blocks == blocks
  }

  lemma {:induction false} AlikeSeconds(frames: seq<seq<Byte>>, rate: nat, blocks: nat)
    requires Alike(frames, rate, blocks) && rate > 0
    ensures FrameSeconds(frames) == (1024 * blocks * |frames|) as real / rate as real
  {
    hide ParseHeader, HeaderParams;
    if frames != [] {
      assert frames[0] in frames;
      assert forall g :: g in frames[1..] ==> g in frames;
      AlikeSeconds(frames[1..], rate, blocks);
      AddSeconds(1024 * blocks, |frames| - 1, rate);
    }
  }

  lemma AddSeconds(a: nat, n: nat, rate: nat)
    requires rate > 0
    ensures a as real / rate as real + (a * n) as real / rate as real == (a * (n + 1)) as real / rate as real
  {
    assert a * (n + 1) == a + a * n;
  }

  /** How long a file of such frames plays, by a scan: 1024 samples per raw data block at the rate the header names. */
  lemma PlayingTime(frames: seq<seq<Byte>>, partial: seq<Byte>, rate: nat, blocks: nat)
    requires Alike(frames, rate, blocks) && rate > 0 && IsPartialFrame(partial)
    requires |frames| != 1 || partial == []
    ensures var info := Scanning.Report(Flatten(frames) + partial);
            && info.frames == |frames| && info.junk == |partial| && info.tags == 0
            && info.seconds == (1024 * blocks * |frames|) as real / rate as real
  {
    hide ParseHeader, HeaderParams, IsPartialFrame, Scanning.Elements, Scanning.Frames, Scanning.OpenChunks, Whole,
      Scanning.Sum, Scanning.ClosedChunks, Flatten, FrameSeconds;
    assert TailRepair.AllFrames(frames);
    ScanOfWholeFrames(frames, partial, false, 0);
    SumOfWhole(frames, 0);
    AlikeSeconds(frames, rate, blocks);
    if partial == [] {
      assert Whole(frames, 0) + [] == Whole(frames, 0);
    } else {
      Scanning.SumSnoc(Whole(frames, 0), Scanning.Junk(0 + |Flatten(frames)|, |partial|));
    }
  }

  /** Eight seconds at 48 kHz are 375 frames of one block. */
  lemma EightSeconds(frames: seq<seq<Byte>>)
    requires Alike(frames, 48000, 1) && |frames| == 375
    ensures Scanning.Report(Flatten(frames)).seconds == 8.0
  {
    hide ParseHeader, HeaderParams, Scanning.Report;
    var whole := EncodeHeader(Fields(0, 1, 1, 48000, 0, 2, 0, 7, 0, 1));
    HeaderRoundTrip(Fields(0, 1, 1, 48000, 0, 2, 0, 7, 0, 1), []);
    assert whole + [] == whole;
    assert IsFrame(whole) && [] < whole;
    assert Flatten(frames) + [] == Flatten(frames);
    PlayingTime(frames, [], 48000, 1);
  }
}
