/** ID3v2 tags (internal/id3/id3.go): building, measuring and parsing, after sections 3.1, 3.4 and 6.2 of the
    ID3v2.4.0 structure document. Strings are their bytes. */
module Id3 {
  import opened Bytes

  const LETTER_I: Byte := 0x49
  const LETTER_D: Byte := 0x44
  const DIGIT_3: Byte := 0x33
  const SIZE_LIMIT: nat := 0x1000_0000 // 28-bit sizes

  datatype Frame = Frame(id: seq<Byte>, data: seq<Byte>)

  datatype ParseError = NotATag | UnsupportedVersion | BadHeader | NonSyncsafeSize | FrameOverflow

  /** Parse returns the frames read so far together with the error that stopped it. */
  datatype Parsed = Parsed(frames: seq<Frame>, error: Option<ParseError>)

  function Syncsafe(n: nat): (b: seq<Byte>)
    ensures |b| == 4 && forall i :: 0 <= i < 4 ==> b[i] < 0x80
  {
    [n / 0x20_0000 % 0x80, n / 0x4000 % 0x80, n / 0x80 % 0x80, n % 0x80]
  }

  function Desyncsafe(b: seq<Byte>): (n: nat)
    requires |b| == 4
    ensures n < SIZE_LIMIT
  {
    b[0] as int % 0x80 * 0x20_0000 + b[1] as int % 0x80 * 0x4000 + b[2] as int % 0x80 * 0x80 + b[3] as int % 0x80
  }

  lemma DivideAgain(n: nat, m: nat)
    requires m in {0x80, 0x4000, 0x20_0000}
    ensures n / (m * 0x80) == n / m / 0x80
  {
  }

  /** Decoding undoes encoding; a larger size keeps only its low 28 bits. */
  lemma SyncsafeRoundTrip(n: nat)
    ensures Desyncsafe(Syncsafe(n)) == n % SIZE_LIMIT
  {
    var a, b, c, d := n / 0x80, n / 0x4000, n / 0x20_0000, n / SIZE_LIMIT;
    DivideAgain(n, 0x80);
    DivideAgain(n, 0x4000);
    DivideAgain(n, 0x20_0000);
    assert b == a / 0x80 && c == b / 0x80 && d == c / 0x80;
    var e := Syncsafe(n);
    assert e == [c % 0x80, b % 0x80, a % 0x80, n % 0x80];
    assert n == SIZE_LIMIT * d + (c % 0x80) * 0x20_0000 + (b % 0x80) * 0x4000 + (a % 0x80) * 0x80 + n % 0x80;
  }

  /** A frame ID as it is written: padded with zeros or cut to four bytes. */
  function WrittenId(id: seq<Byte>): (w: seq<Byte>)
    ensures |w| == 4
  {
    if |id| == 4 then id else (id + [0, 0, 0, 0])[..4]
  }

  function FrameBytes(f: Frame): (b: seq<Byte>)
    ensures |b| == 10 + |f.data|
  {
    WrittenId(f.id) + Syncsafe(|f.data|) + [0, 0] + f.data
  }

  function Body(frames: seq<Frame>): (b: seq<Byte>)
  {
    if frames == [] then [] else FrameBytes(frames[0]) + Body(frames[1..])
  }

  lemma {:induction false} BodySnoc(frames: seq<Frame>, f: Frame)
    ensures Body(frames + [f]) == Body(frames) + FrameBytes(f)
  {
    if frames == [] {
      assert Body([f]) == FrameBytes(f) + Body([f][1..]);
      assert frames + [f] == [f];
    } else {
      assert (frames + [f])[1..] == frames[1..] + [f];
      BodySnoc(frames[1..], f);
    }
  }

  function TagOf(frames: seq<Frame>): (b: seq<Byte>)
  {
    [LETTER_I, LETTER_D, DIGIT_3, 4, 0, 0] + Syncsafe(|Body(frames)|) + Body(frames)
  }

  /** Tag: a complete ID3v2.4.0 tag holding the given frames. */
  method Tag(frames: seq<Frame>) returns (out: seq<Byte>)
    ensures out == TagOf(frames)
  {
    var body: seq<Byte> := [];
    for k := 0 to |frames|
      invariant body == Body(frames[..k])
    {
      var f := frames[k];
      var id := f.id;
      if |id| != 4 {
        id := (id + [0, 0, 0, 0])[..4];
      }
      ghost var before := body;
      body := body + id;
      body := body + Syncsafe(|f.data|);
      body := body + [0, 0];
      body := body + f.data;
      assert body == before + FrameBytes(f);
      BodySnoc(frames[..k], f);
      assert frames[..k + 1] == frames[..k] + [f];
    }
    assert frames[..|frames|] == frames;
    out := [LETTER_I, LETTER_D, DIGIT_3, 4, 0, 0];
    out := out + Syncsafe(|body|);
    out := out + body;
  }

  /** TagLen: the total length of the tag announced at the start of b (header, body and footer). */
  function TagLen(b: seq<Byte>): (r: Option<nat>)
    ensures r.Some? ==> |b| >= 10 && 10 <= r.value < SIZE_LIMIT + 20 && b[0] == LETTER_I
  {
    if |b| < 10 then None
    else if b[0] != LETTER_I || b[1] != LETTER_D || b[2] != DIGIT_3 then None
    else if b[3] < 2 || b[3] > 4 || b[4] == 0xFF then None
    else if b[6] >= 0x80 || b[7] >= 0x80 || b[8] >= 0x80 || b[9] >= 0x80 then None
    else Some(10 + Desyncsafe(b[6..10]) + if b[5] / 16 % 2 == 1 then 10 else 0)
  }

  /** Only the ten header bytes decide. */
  lemma TagLenIsLocal(b: seq<Byte>, more: seq<Byte>)
    requires |b| >= 10
    ensures TagLen(b + more) == TagLen(b)
  {
    assert (b + more)[6..10] == b[6..10];
  }

  /** The frames found from position p on, up to the end `total` of the tag. */
  function FramesFrom(b: seq<Byte>, p: nat, total: nat, syncsafe: bool): (r: Parsed)
    requires total <= |b|
    decreases total - p
  {
    if p + 10 > total || b[p] == 0 then Parsed([], None)
    else if syncsafe && (b[p + 4] >= 0x80 || b[p + 5] >= 0x80 || b[p + 6] >= 0x80 || b[p + 7] >= 0x80) then
      Parsed([], Some(NonSyncsafeSize))
    else
      var size := FrameSize(b, p, syncsafe);
      if p + 10 + size > total then Parsed([], Some(FrameOverflow))
      else
        var rest := FramesFrom(b, p + 10 + size, total, syncsafe);
        Parsed([Frame(b[p..p + 4], b[p + 10..p + 10 + size])] + rest.frames, rest.error)
  }

  function FrameSize(b: seq<Byte>, p: nat, syncsafe: bool): (n: nat)
    requires p + 10 <= |b|
  {
    if syncsafe then Desyncsafe(b[p + 4..p + 8])
    else b[p + 4] as int * 0x100_0000 + b[p + 5] as int * 0x1_0000 + b[p + 6] as int * 0x100 + b[p + 7]
  }

  /** A readable frame header followed by its whole payload. */
  predicate FrameFits(b: seq<Byte>, p: nat, total: nat, syncsafe: bool)
    requires total <= |b|
  {
    && p + 10 <= total && b[p] != 0
    && (syncsafe ==> b[p + 4] < 0x80 && b[p + 5] < 0x80 && b[p + 6] < 0x80 && b[p + 7] < 0x80)
    && p + 10 + FrameSize(b, p, syncsafe) <= total
  }

  lemma FramesFromStep(b: seq<Byte>, p: nat, total: nat, syncsafe: bool)
    requires total <= |b| && FrameFits(b, p, total, syncsafe)
    ensures var next := p + 10 + FrameSize(b, p, syncsafe);
            var rest := FramesFrom(b, next, total, syncsafe);
            FramesFrom(b, p, total, syncsafe) == Parsed([Frame(b[p..p + 4], b[p + 10..next])] + rest.frames, rest.error)
  {
    hide FrameSize;
  }

  lemma FramesFromStop(b: seq<Byte>, p: nat, total: nat, syncsafe: bool)
    requires total <= |b| && !FrameFits(b, p, total, syncsafe)
    ensures FramesFrom(b, p, total, syncsafe) == Parsed([],
              if p + 10 > total || b[p] == 0 then None
              else if syncsafe && (b[p + 4] >= 0x80 || b[p + 5] >= 0x80 || b[p + 6] >= 0x80 || b[p + 7] >= 0x80) then
                Some(NonSyncsafeSize)
              else Some(FrameOverflow))
  {
    hide FrameSize;
  }

  function ParsedTag(b: seq<Byte>): (r: Parsed)
  {
    if |b| < 10 || b[0] != LETTER_I || b[1] != LETTER_D || b[2] != DIGIT_3 then Parsed([], Some(NotATag))
    else if b[3] <= 2 || b[3] > 4 || b[4] == 0xFF then Parsed([], Some(UnsupportedVersion))
    else match TagLen(b)
      case None => Parsed([], Some(BadHeader))
      case Some(n) => FramesFrom(b, 10, if n > |b| then |b| else n, b[3] >= 4)
  }

  /** Parse: the frames of a v2.3 or v2.4 tag. */
  method Parse(b: seq<Byte>) returns (r: Parsed)
    ensures r == ParsedTag(b)
  {
    hide Desyncsafe, FrameSize, FramesFrom;
    if |b| < 10 || b[0] != LETTER_I || b[1] != LETTER_D || b[2] != DIGIT_3 {
      return Parsed([], Some(NotATag));
    }
    var major := b[3];
    if major < 2 || major > 4 || b[4] == 0xFF {
      return Parsed([], Some(UnsupportedVersion));
    }
    if major == 2 {
      return Parsed([], Some(UnsupportedVersion));
    }
    var tagLen := TagLen(b);
    if tagLen.None? {
      return Parsed([], Some(BadHeader));
    }
    var total := tagLen.value;
    if total > |b| {
      total := |b|;
    }
    var frames: seq<Frame> := [];
    var p := 10;
    ghost var whole := FramesFrom(b, p, total, major >= 4);
    while p + 10 <= total
      invariant 10 <= p
      invariant whole.frames == frames + FramesFrom(b, p, total, major >= 4).frames
      invariant whole.error == FramesFrom(b, p, total, major >= 4).error
      decreases total - p
    {
      if !FrameFits(b, p, total, major >= 4) {
        FramesFromStop(b, p, total, major >= 4);
      }
      if b[p] == 0 {
        break;
      }
      var id := b[p..p + 4];
      if major >= 4 {
        if b[p + 4] >= 0x80 || b[p + 5] >= 0x80 || b[p + 6] >= 0x80 || b[p + 7] >= 0x80 {
          return Parsed(frames, Some(NonSyncsafeSize));
        }
      }
      var size := FrameSize(b, p, major >= 4);
      p := p + 10;
      if p + size > total {
        return Parsed(frames, Some(FrameOverflow));
      }
      FramesFromStep(b, p - 10, total, major >= 4);
      frames := frames + [Frame(id, b[p..p + size])];
      p := p + size;
    }
    if p + 10 > total {
      FramesFromStop(b, p, total, major >= 4);
    }
    return Parsed(frames, None);
  }

  /** An ID that survives being written and read back. */
  predicate PlainId(f: Frame) {
    |f.id| == 4 && f.id[0] != 0
  }

  lemma SizeAt(b: seq<Byte>, p: nat)
    requires p + 10 <= |b|
    ensures FrameSize(b, p, true) == Desyncsafe(b[p + 4..p + 8])
  {
  }

  /** A frame behind pre reads back as itself. */
  lemma FrontFrame(pre: seq<Byte>, f: Frame, rest: seq<Byte>)
    requires PlainId(f) && |f.data| < SIZE_LIMIT
    ensures var b, p := pre + FrameBytes(f) + rest, |pre|;
            && FrameFits(b, p, |b|, true) && FrameSize(b, p, true) == |f.data| && |FrameBytes(f)| == 10 + |f.data|
            && b[p..p + 4] == f.id && b[p + 10..p + 10 + |f.data|] == f.data
  {
    hide Syncsafe, Desyncsafe, FrameSize;
    var fb := FrameBytes(f);
    var b, p := pre + fb + rest, |pre|;
    SyncsafeRoundTrip(|f.data|);
    assert forall i :: 0 <= i < |fb| ==> b[p + i] == fb[i];
    assert b[p + 4..p + 8] == Syncsafe(|f.data|);
    assert fb[..4] == f.id;
    assert b[p..p + 4] == f.id;
    assert b[p + 10..p + 10 + |f.data|] == f.data;
    assert b[p + 4] == Syncsafe(|f.data|)[0];
    SizeAt(b, p);
  }

  lemma {:induction false} FramesFromBody(pre: seq<Byte>, frames: seq<Frame>)
    requires |Body(frames)| < SIZE_LIMIT
    requires forall f :: f in frames ==> PlainId(f)
    ensures FramesFrom(pre + Body(frames), |pre|, |pre| + |Body(frames)|, true) == Parsed(frames, None)
    decreases |frames|
  {
    hide Syncsafe, Desyncsafe, FrameSize, FramesFrom, FrameBytes;
    if frames == [] {
      FramesFromStop(pre, |pre|, |pre|, true);
      assert pre + Body(frames) == pre;
    } else {
      hide FrameFits;
      var f, rest := frames[0], frames[1..];
      var b, p := pre + FrameBytes(f) + Body(rest), |pre|;
      Associate(pre, FrameBytes(f), Body(rest));
      assert PlainId(f);
      FrontFrame(pre, f, Body(rest));
      FramesFromBody(pre + FrameBytes(f), rest);
      FramesFromStep(b, p, |b|, true);
      assert frames == [f] + rest;
    }
  }

  /** TagLen measures exactly what Tag wrote, whatever the IDs and payloads, while the body fits 28 bits. */
  lemma TagLenOfTag(frames: seq<Frame>)
    requires |Body(frames)| < SIZE_LIMIT
    ensures TagLen(TagOf(frames)) == Some(|TagOf(frames)|)
  {
    hide Syncsafe, Desyncsafe;
    var b := TagOf(frames);
    SyncsafeRoundTrip(|Body(frames)|);
    assert b[6..10] == Syncsafe(|Body(frames)|);
  }

  /** A successfully parsed frame never has a padding ID. */
  lemma {:induction false} ParsedIdsArePlain(b: seq<Byte>, p: nat, total: nat, syncsafe: bool)
    requires total <= |b|
    ensures forall f :: f in FramesFrom(b, p, total, syncsafe).frames ==> PlainId(f)
    decreases total - p
  {
    if p + 10 <= total && b[p] != 0 {
      var size := FrameSize(b, p, syncsafe);
      if p + 10 + size <= total {
        ParsedIdsArePlain(b, p + 10 + size, total, syncsafe);
      }
    }
  }

  /** Parse gives back exactly the frames Tag was given if and only if every ID is four bytes long and does not
      start with the padding byte. */
  lemma TagParseRoundTrip(frames: seq<Frame>)
    requires |Body(frames)| < SIZE_LIMIT
    ensures ParsedTag(TagOf(frames)) == Parsed(frames, None) <==> forall f :: f in frames ==> PlainId(f)
  {
    hide Syncsafe, Desyncsafe, FramesFrom, Body;
    var b := TagOf(frames);
    TagLenOfTag(frames);
    var pre := [LETTER_I, LETTER_D, DIGIT_3, 4, 0, 0] + Syncsafe(|Body(frames)|);
    assert b == pre + Body(frames);
    assert ParsedTag(b) == FramesFrom(b, 10, |b|, true);
    if forall f :: f in frames ==> PlainId(f) {
      FramesFromBody(pre, frames);
    }
    if ParsedTag(b) == Parsed(frames, None) {
      ParsedIdsArePlain(b, 10, |b|, true);
    }
  }
}
