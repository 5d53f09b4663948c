/** The whole-file scanner (internal/adts/duration.go: scan, chunkList). A file is its bytes and the buffered reader
    is a position in them; durations are exact rational seconds. */
module Scanning {
  import opened Bytes
  import opened AdtsHeader
  import Id3

  /** One element the scanner steps over. */
  datatype Elem = Frame(off: nat, header: Header) | Tag(off: nat, len: nat) | Junk(off: nat, len: nat)
  {
    function Size(): (n: nat) {
      match this
      case Frame(_, h) => h.length
      case Tag(_, n) => n
      case Junk(_, n) => n
    }
  }

  /** What the scanner does at one position of the file: the element found there and whether it is synced afterwards,
      or `last` when the scan ends with it. */
  datatype Found = Found(elem: Elem, synced: bool, last: bool)

  function FindAt(rest: seq<Byte>, synced: bool, off: nat): (r: Found)
    requires |rest| > 0
    ensures r.elem.off == off && 1 <= r.elem.Size() <= |rest|
    ensures r.last ==> r.elem.Size() == |rest|
    ensures r.elem.Frame? ==> DecodeHeader(rest) == Some(r.elem.header) && r.synced
  {
    if |rest| >= 10 && Id3.TagLen(rest).Some? then
      var n := Id3.TagLen(rest).value;
      if n > |rest| then Found(Tag(off, |rest|), false, true) else Found(Tag(off, n), false, false)
    else if |rest| < MIN_HEADER then Found(Junk(off, |rest|), synced, true)
    else match DecodeHeader(rest)
      case None => Found(Junk(off, 1), false, false)
      case Some(h) =>
        if |rest| < h.length then Found(Junk(off, |rest|), synced, true)
        else if synced || |rest| == h.length then Found(Frame(off, h), true, false)
        else if |rest| < h.length + MIN_HEADER || DecodeHeader(rest[h.length..]).None? then
          Found(Junk(off, 1), synced, false)
        else Found(Frame(off, h), true, false)
  }

  /** All elements of the rest of the file, in order. */
  function Elements(rest: seq<Byte>, synced: bool, off: nat): (es: seq<Elem>)
    decreases |rest|
  {
    if rest == [] then []
    else
      var f := FindAt(rest, synced, off);
      [f.elem] + if f.last then [] else Elements(rest[f.elem.Size()..], f.synced, off + f.elem.Size())
  }

  lemma ElementsUnfold(rest: seq<Byte>, synced: bool, off: nat)
    requires rest != []
    ensures var f := FindAt(rest, synced, off);
            && 1 <= f.elem.Size() <= |rest|
            && Elements(rest, synced, off) == [f.elem] + Elements(rest[f.elem.Size()..], f.synced, off + f.elem.Size())
  {
    hide FindAt, DecodeHeader;
    var f := FindAt(rest, synced, off);
    if f.last {
      assert rest[f.elem.Size()..] == [];
      assert [f.elem] + [] == [f.elem];
    }
  }

  /** Counters of a scan. */
  datatype Totals = Totals(frames: nat, frameBytes: nat, junk: nat, tags: nat, tagBytes: nat, seconds: real)
  {
    function Plus(t: Totals): (r: Totals) {
      Totals(frames + t.frames, frameBytes + t.frameBytes, junk + t.junk, tags + t.tags, tagBytes + t.tagBytes,
             seconds + t.seconds)
    }
  }

  const ZERO := Totals(0, 0, 0, 0, 0, 0.0)

  function Count(e: Elem): (t: Totals)
  {
    match e
    case Frame(_, h) => Totals(1, h.length, 0, 0, 0, Seconds(h.params))
    case Tag(_, n) => Totals(0, 0, 0, 1, n, 0.0)
    case Junk(_, n) => Totals(0, 0, n, 0, 0, 0.0)
  }

  function Sum(es: seq<Elem>): (t: Totals)
  {
    if es == [] then ZERO else Count(es[0]).Plus(Sum(es[1..]))
  }

  lemma PlusAssociative(t: Totals, u: Totals, v: Totals)
    ensures t.Plus(u).Plus(v) == t.Plus(u.Plus(v))
    ensures ZERO.Plus(t) == t == t.Plus(ZERO)
  {
  }

  lemma {:induction false} SumAppend(a: seq<Elem>, b: seq<Elem>)
    ensures Sum(a + b) == Sum(a).Plus(Sum(b))
  {
    hide Count, Totals.Plus;
    PlusAssociative(Sum(b), Sum(b), Sum(b));
    if a == [] {
      assert a + b == b;
    } else {
      assert (a + b)[1..] == a[1..] + b;
      SumAppend(a[1..], b);
      PlusAssociative(Count(a[0]), Sum(a[1..]), Sum(b));
    }
  }

  lemma SumSnoc(es: seq<Elem>, e: Elem)
    ensures Sum(es + [e]) == Sum(es).Plus(Count(e))
  {
    hide Totals.Plus;
    SumAppend(es, [e]);
    PlusAssociative(Count(e), Count(e), Count(e));
    assert Sum([e]) == Count(e).Plus(Sum([e][1..]));
  }

  /** Consecutive elements that start at `off` and end at `end`, without a gap or an overlap. */
  ghost predicate Consecutive(es: seq<Elem>, off: nat, end: nat)
  {
    if es == [] then off == end
    else es[0].off == off && es[0].Size() > 0 && Consecutive(es[1..], off + es[0].Size(), end)
  }

  /** Conservation: on any bytes the elements tile the rest of the file, so junk, tag bytes and frame lengths
      add up to its length. */
  lemma {:induction false} ScanConserves(rest: seq<Byte>, synced: bool, off: nat)
    ensures Consecutive(Elements(rest, synced, off), off, off + |rest|)
    ensures var t := Sum(Elements(rest, synced, off)); t.junk + t.tagBytes + t.frameBytes == |rest|
    decreases |rest|
  {
    hide FindAt, Elements;
    if rest == [] {
      assert Elements(rest, synced, off) == [] by { EmptyRest(synced, off); }
    } else {
      ElementsUnfold(rest, synced, off);
      var f := FindAt(rest, synced, off);
      ScanConserves(rest[f.elem.Size()..], f.synced, off + f.elem.Size());
      assert Elements(rest, synced, off)[1..] == Elements(rest[f.elem.Size()..], f.synced, off + f.elem.Size());
    }
  }

  lemma EmptyRest(synced: bool, off: nat)
    ensures Elements([], synced, off) == []
  {
  }

  /** A counted frame: where it starts and its header. */
  datatype At = At(off: nat, header: Header)

  /** The frames among the elements. */
  function Frames(es: seq<Elem>): (fs: seq<At>)
  {
    if es == [] then []
    else (match es[0] case Frame(off, h) => [At(off, h)] case _ => []) + Frames(es[1..])
  }

  lemma {:induction false} FramesAppend(a: seq<Elem>, b: seq<Elem>)
    ensures Frames(a + b) == Frames(a) + Frames(b)
  {
    if a == [] {
      assert a + b == b;
    } else {
      var first := if a[0].Frame? then [At(a[0].off, a[0].header)] else [];
      FramesAppend(a[1..], b);
      assert (a + b)[0] == a[0] && (a + b)[1..] == a[1..] + b;
      assert first + (Frames(a[1..]) + Frames(b)) == (first + Frames(a[1..])) + Frames(b);
    }
  }

  lemma FramesSnoc(es: seq<Elem>, e: Elem)
    ensures Frames(es + [e]) == Frames(es) + if e.Frame? then [At(e.off, e.header)] else []
  {
    FramesAppend(es, [e]);
    assert [e][1..] == [];
  }

  // ---------------------------------------------------------------------------------------------------------------
  // The trust rule
  // ---------------------------------------------------------------------------------------------------------------

  /** A whole frame lies in the file at `off`, and it directly follows another frame, or is followed by another valid
      header, or ends the file. */
  ghost predicate Trusted(file: seq<Byte>, off: nat, h: Header, afterFrame: bool)
  {
    var end := off + h.length;
    && end <= |file| && IsFrame(file[off..end]) && DecodeHeader(file[off..end]) == Some(h)
    && (afterFrame || end == |file| || DecodeHeader(file[end..]).Some?)
  }

  ghost predicate AllTrusted(file: seq<Byte>, es: seq<Elem>, afterFrame: bool)
  {
    es == []
    || ((es[0].Frame? ==> Trusted(file, es[0].off, es[0].header, afterFrame))
        && AllTrusted(file, es[1..], es[0].Frame?))
  }

  lemma TrustedHere(file: seq<Byte>, off: nat, synced: bool)
    requires off < |file|
    ensures var f := FindAt(file[off..], synced, off);
            && (f.elem.Frame? ==> Trusted(file, off, f.elem.header, synced))
            && (f.synced && !f.elem.Frame? ==> f.last)
  {
    hide HeaderParams, Id3.TagLen;
    var rest := file[off..];
    var f := FindAt(rest, synced, off);
    if f.elem.Frame? {
      var n := f.elem.header.length;
      assert rest == rest[..n] + rest[n..];
      HeaderIsLocal(rest[..n], rest[n..]);
      assert rest[..n] == file[off..off + n] && rest[n..] == file[off + n..];
    }
  }

  /** On any bytes, only trusted frames are counted: a candidate that follows a gap counts only when the frame behind it
      is valid too, or the file ends there. */
  lemma {:induction false} OnlyTrustedFrames(file: seq<Byte>, off: nat, synced: bool)
    requires off <= |file|
    ensures AllTrusted(file, Elements(file[off..], synced, off), synced)
    decreases |file| - off
  {
    hide FindAt, Elements, DecodeHeader, IsFrame;
    if off == |file| {
      assert file[off..] == [];
      EmptyRest(synced, off);
    } else {
      TrustedHere(file, off, synced);
      ElementsUnfold(file[off..], synced, off);
      var f := FindAt(file[off..], synced, off);
      var n := f.elem.Size();
      assert file[off..][n..] == file[off + n..];
      var tail := Elements(file[off + n..], f.synced, off + n);
      OnlyTrustedFrames(file, off + n, f.synced);
      if f.synced && !f.elem.Frame? {
        assert file[off + n..] == [] by { LastIsLast(file[off..], synced, off); }
        EmptyRest(f.synced, off + n);
      }
      AfterWeaker(file, tail, f.synced, f.elem.Frame?);
      assert ([f.elem] + tail)[1..] == tail;
    }
  }

  lemma LastIsLast(rest: seq<Byte>, synced: bool, off: nat)
    requires rest != []
    ensures var f := FindAt(rest, synced, off); f.last ==> rest[f.elem.Size()..] == []
  {
    hide FindAt;
  }

  lemma AfterWeaker(file: seq<Byte>, es: seq<Elem>, a: bool, b: bool)
    requires AllTrusted(file, es, a) && (es == [] || (a ==> b))
    ensures AllTrusted(file, es, b)
  {
  }

  // ---------------------------------------------------------------------------------------------------------------
  // Chunks: byte ranges whose frames share one set of parameters
  // ---------------------------------------------------------------------------------------------------------------

  datatype Chunk = Chunk(offset: nat, length: int, params: Params, frames: nat, seconds: real)

  function Closed(c: Chunk, end: int): (r: Chunk)
  {
    c.(length := end - c.offset)
  }

  /** chunkList.frame on values: the open chunk counts the frame, or is closed at `off` and a new one opened. */
  function AddFrame(before: seq<Chunk>, off: nat, p: Params, secs: real): (cs: seq<Chunk>)
    ensures cs != []
  {
    if before == [] then [Chunk(0, 0, p, 1, secs)]
    else
      var k := |before| - 1;
      var cur := before[k];
      if cur.params == p then before[k := cur.(frames := cur.frames + 1, seconds := cur.seconds + secs)]
      else before[k := Closed(cur, off)] + [Chunk(off, 0, p, 1, secs)]
  }

  function WithFrame(before: seq<Chunk>, f: At): (cs: seq<Chunk>)
    ensures cs != []
  {
    AddFrame(before, f.off, f.header.params, Seconds(f.header.params))
  }

  /** The chunks after the given frames; the last one is still open. */
  function OpenChunks(frames: seq<At>): (cs: seq<Chunk>)
    ensures cs == [] <==> frames == []
  {
    if frames == [] then [] else WithFrame(OpenChunks(frames[..|frames| - 1]), frames[|frames| - 1])
  }

  /** chunkList.done: the last chunk reaches to the end of the scanned region. */
  function ClosedChunks(cs: seq<Chunk>, end: nat): (r: seq<Chunk>)
  {
    if cs == [] then [] else cs[|cs| - 1 := Closed(cs[|cs| - 1], end)]
  }

  /** Index of the first frame of chunk i. */
  ghost function FirstFrame(cs: seq<Chunk>, i: nat): (n: nat)
    requires i <= |cs|
  {
    if i == 0 then 0 else FirstFrame(cs, i - 1) + cs[i - 1].frames
  }

  ghost function SecondsOf(frames: seq<At>): (s: real)
  {
    if frames == [] then 0.0 else SecondsOf(frames[..|frames| - 1]) + Seconds(frames[|frames| - 1].header.params)
  }

  /** Chunk i holds the frames FirstFrame(i) .. FirstFrame(i + 1), at least one: all have its parameters, all start in
      or after it, and unless it is the first chunk it starts exactly at its first frame. */
  ghost predicate Holds(cs: seq<Chunk>, frames: seq<At>, i: nat)
    requires i < |cs|
  {
    var a, b := FirstFrame(cs, i), FirstFrame(cs, i + 1);
    && a < b <= |frames|
    && cs[i].seconds == SecondsOf(frames[a..b])
    && (forall j :: a <= j < b ==> frames[j].header.params == cs[i].params && frames[j].off >= cs[i].offset)
    && (if i == 0 then cs[i].offset == 0 else frames[a].off == cs[i].offset)
  }

  /** Every frame is in exactly one chunk, neighbouring chunks differ, and each chunk ends where the next one starts. */
  ghost predicate Grouped(cs: seq<Chunk>, frames: seq<At>)
  {
    && FirstFrame(cs, |cs|) == |frames|
    && (forall i :: 0 <= i < |cs| ==> Holds(cs, frames, i))
    && (forall i :: 0 < i < |cs| ==>
          cs[i - 1].params != cs[i].params && cs[i - 1].offset + cs[i - 1].length == cs[i].offset)
  }

  lemma {:induction false} FirstFrameLocal(cs: seq<Chunk>, ds: seq<Chunk>, i: nat)
    requires i <= |cs| && i <= |ds| && forall k :: 0 <= k < i ==> cs[k].frames == ds[k].frames
    ensures FirstFrame(cs, i) == FirstFrame(ds, i)
  {
    if i > 0 {
      FirstFrameLocal(cs, ds, i - 1);
    }
  }

  lemma {:induction false} FirstFrameMonotone(cs: seq<Chunk>, i: nat, j: nat)
    requires i <= j <= |cs|
    ensures FirstFrame(cs, i) <= FirstFrame(cs, j)
  {
    if i < j {
      FirstFrameMonotone(cs, i, j - 1);
    }
  }

  /** A chunk keeps what it holds when frames are added behind and other chunks change their lengths. */
  lemma HoldsStill(cs: seq<Chunk>, frames: seq<At>, ds: seq<Chunk>, f: At, i: nat)
    requires i < |cs| && i < |ds| && Holds(cs, frames, i)
    requires forall k :: 0 <= k <= i ==> cs[k].frames == ds[k].frames
    requires ds[i] == cs[i].(length := ds[i].length)
    ensures Holds(ds, frames + [f], i)
  {
    FirstFrameLocal(cs, ds, i);
    FirstFrameLocal(cs, ds, i + 1);
    var a, b := FirstFrame(cs, i), FirstFrame(cs, i + 1);
    assert (frames + [f])[a..b] == frames[a..b];
  }

  lemma GroupedWithFirst(f: At)
    ensures Grouped(WithFrame([], f), [f])
  {
    hide Seconds;
    var ds := WithFrame([], f);
    assert [f][0..1] == [f] && [f][..0] == [];
    assert FirstFrame(ds, 1) == FirstFrame(ds, 0) + ds[0].frames;
    assert SecondsOf([f]) == SecondsOf([]) + Seconds(f.header.params);
    assert Holds(ds, [f], 0);
  }

  lemma SnocTail(frames: seq<At>, f: At, a: nat)
    requires a <= |frames|
    ensures var g := (frames + [f])[a..|frames| + 1];
            g == frames[a..|frames|] + [f] && g[..|g| - 1] == frames[a..|frames|]
  {
  }

  lemma GroupedInOpen(cs: seq<Chunk>, frames: seq<At>, f: At)
    requires Grouped(cs, frames) && cs != [] && cs[|cs| - 1].params == f.header.params
    requires forall g :: g in frames ==> g.off <= f.off
    ensures Grouped(WithFrame(cs, f), frames + [f])
  {
    hide Seconds;
    var ds, gs, k := WithFrame(cs, f), frames + [f], |cs| - 1;
    var a := FirstFrame(cs, k);
    assert Holds(cs, frames, k);
    FirstFrameLocal(cs, ds, k);
    forall i | 0 <= i < k
      ensures Holds(ds, gs, i)
    {
      HoldsStill(cs, frames, ds, f, i);
    }
    assert FirstFrame(ds, k + 1) == |gs|;
    var g := gs[a..|gs|];
    SnocTail(frames, f, a);
    assert frames[a] in frames;
    assert Holds(ds, gs, k);
  }

  lemma GroupedInNew(cs: seq<Chunk>, frames: seq<At>, f: At)
    requires Grouped(cs, frames) && cs != [] && cs[|cs| - 1].params != f.header.params
    ensures Grouped(WithFrame(cs, f), frames + [f])
  {
    hide Seconds;
    var ds, gs, k := WithFrame(cs, f), frames + [f], |cs| - 1;
    forall i | 0 <= i <= k
      ensures Holds(ds, gs, i)
    {
      HoldsStill(cs, frames, ds, f, i);
    }
    FirstFrameLocal(cs, ds, k + 1);
    assert FirstFrame(ds, k + 2) == FirstFrame(ds, k + 1) + 1 == |gs|;
    assert gs[|gs| - 1..|gs|] == [f];
    assert SecondsOf([f]) == SecondsOf([]) + Seconds(f.header.params) by { assert [f][..0] == []; }
    assert Holds(ds, gs, k + 1);
  }

  /** Frame offsets in file order. */
  ghost predicate Ascending(frames: seq<At>)
  {
    forall i, j :: 0 <= i <= j < |frames| ==> frames[i].off <= frames[j].off
  }

  lemma {:induction false} OpenChunksGrouped(frames: seq<At>)
    requires Ascending(frames)
    ensures Grouped(OpenChunks(frames), frames)
  {
    if frames != [] {
      var init, f := frames[..|frames| - 1], frames[|frames| - 1];
      OpenChunksGrouped(init);
      assert frames == init + [f];
      var cs := OpenChunks(init);
      if cs == [] {
        GroupedWithFirst(f);
      } else if cs[|cs| - 1].params == f.header.params {
        GroupedInOpen(cs, init, f);
      } else {
        GroupedInNew(cs, init, f);
      }
    }
  }

  /** The chunk partition: with at least one frame the finished chunks tile [0, end) without a gap, group the frames,
      and there is more than one exactly when some frame's parameters differ from the first frame's. */
  lemma ChunksPartition(frames: seq<At>, end: nat)
    requires Ascending(frames)
    ensures var cs := ClosedChunks(OpenChunks(frames), end);
            && Grouped(cs, frames)
            && (frames == [] <==> cs == [])
            && (frames != [] ==> cs[0].offset == 0 && cs[|cs| - 1].offset + cs[|cs| - 1].length == end)
            && (frames != [] ==> cs[0].params == frames[0].header.params)
            && (|cs| > 1 <==> exists f :: f in frames && f.header.params != frames[0].header.params)
  {
    OpenChunksGrouped(frames);
    ClosingKeepsGroups(OpenChunks(frames), frames, end);
    if frames != [] {
      hide OpenChunks, ClosedChunks;
      SeveralMeansChanged(ClosedChunks(OpenChunks(frames), end), frames);
    }
  }

  /** Only the last chunk's length is set when it is closed. */
  lemma ClosingKeepsGroups(open: seq<Chunk>, frames: seq<At>, end: nat)
    requires Grouped(open, frames)
    ensures Grouped(ClosedChunks(open, end), frames)
  {
    var cs := ClosedChunks(open, end);
    hide SecondsOf, FirstFrame;
    forall i | 0 <= i < |cs|
      ensures Holds(cs, frames, i)
    {
      assert Holds(open, frames, i);
      FirstFrameLocal(open, cs, i);
      FirstFrameLocal(open, cs, i + 1);
    }
    FirstFrameLocal(open, cs, |cs|);
  }

  lemma SeveralMeansChanged(cs: seq<Chunk>, frames: seq<At>)
    requires Grouped(cs, frames) && cs != []
    ensures frames != [] && cs[0].params == frames[0].header.params
    ensures |cs| > 1 <==> exists f :: f in frames && f.header.params != frames[0].header.params
  {
    hide SecondsOf;
    assert Holds(cs, frames, 0);
    assert FirstFrame(cs, 0) == 0;
    if |cs| > 1 {
      assert Holds(cs, frames, 1);
      var j := FirstFrame(cs, 1);
      assert frames[j] in frames && frames[j].header.params == cs[1].params;
    } else {
      assert |cs| == 1 && FirstFrame(cs, 1) == |frames|;
    }
  }

  /** The accumulator of one scan: `seconds` is the playback time of the open chunk, moved into it when it closes. */
  class ChunkList {
    var chunks: seq<Chunk>
    var seconds: real

    ghost predicate Valid()
      reads this
    {
      chunks == [] ==> seconds == 0.0
    }

    /** The chunks so far, the open one with its running playback time. */
    ghost function Open(): (cs: seq<Chunk>)
      reads this
    {
      if chunks == [] then [] else chunks[|chunks| - 1 := chunks[|chunks| - 1].(seconds := seconds)]
    }

    constructor ()
      ensures Valid() && Open() == []
    {
      chunks, seconds := [], 0.0;
    }

    method Frame(off: nat, p: Params, secs: real)
      requires Valid()
      modifies this
      ensures Valid() && Open() == AddFrame(old(Open()), off, p, secs)
    {
      if chunks == [] {
        chunks := [Chunk(0, 0, p, 0, 0.0)];
      } else if p != chunks[|chunks| - 1].params {
        Finish(off);
        chunks := chunks + [Chunk(off, 0, p, 0, 0.0)];
      }
      var k := |chunks| - 1;
      chunks := chunks[k := chunks[k].(frames := chunks[k].frames + 1)];
      seconds := seconds + secs;
    }

    method Finish(end: int)
      requires Valid() && chunks != []
      modifies this
      ensures |chunks| == |old(chunks)| && seconds == 0.0
      ensures chunks == old(Open())[|chunks| - 1 := Closed(old(Open())[|chunks| - 1], end)]
    {
      var k := |chunks| - 1;
      chunks := chunks[k := chunks[k].(length := end - chunks[k].offset, seconds := seconds)];
      seconds := 0.0;
    }

    method Done(end: nat) returns (r: seq<Chunk>)
      requires Valid()
      modifies this
      ensures r == ClosedChunks(old(Open()), end)
    {
      if chunks == [] {
        return [];
      }
      Finish(end);
      return chunks;
    }
  }

  /** The report of a scan. */
  datatype Info = Info(frames: nat, seconds: real, junk: nat, tags: nat, tagBytes: nat,
                       params: Option<Params>, paramsChanged: bool, chunks: seq<Chunk>)

  /** What a scan of the file reports, in terms of its elements. */
  function Report(file: seq<Byte>): (info: Info)
  {
    var es := Elements(file, false, 0);
    var t := Sum(es);
    var cs := ClosedChunks(OpenChunks(Frames(es)), |file|);
    Info(t.frames, t.seconds, t.junk, t.tags, t.tagBytes, if cs == [] then None else Some(cs[0].params), |cs| > 1, cs)
  }

  /** Stepping over the element at `pos`: what it does to the elements still to come, the counters and the chunks. */
  lemma Stepped(file: seq<Byte>, es: seq<Elem>, pos: nat, synced: bool)
    requires pos < |file|
    ensures var f := FindAt(file[pos..], synced, pos);
            var n := f.elem.Size();
            && pos + n <= |file| && (f.last ==> pos + n == |file|)
            && es + Elements(file[pos..], synced, pos) == (es + [f.elem]) + Elements(file[pos + n..], f.synced, pos + n)
            && Sum(es + [f.elem]) == Sum(es).Plus(Count(f.elem))
            && OpenChunks(Frames(es + [f.elem])) ==
                 (if f.elem.Frame? then
                    AddFrame(OpenChunks(Frames(es)), pos, f.elem.header.params, Seconds(f.elem.header.params))
                  else OpenChunks(Frames(es)))
  {
    hide FindAt, Elements, Count, Seconds, Sum, Frames, AddFrame;
    var f := FindAt(file[pos..], synced, pos);
    var n := f.elem.Size();
    ElementsUnfold(file[pos..], synced, pos);
    assert file[pos..][n..] == file[pos + n..];
    SumSnoc(es, f.elem);
    FramesSnoc(es, f.elem);
    if f.elem.Frame? {
      var fs := Frames(es) + [At(pos, f.elem.header)];
      assert fs[..|fs| - 1] == Frames(es);
    } else {
      assert Frames(es) + [] == Frames(es);
    }
  }

  /** scan: one pass over the file. */
  method Scan(file: seq<Byte>) returns (info: Info)
    ensures info == Report(file)
  {
    hide Elements, Sum, Frames, OpenChunks, AddFrame, HeaderParams, FrameLength, Id3.TagLen, Seconds, ParseHeader;
    var frames: nat, junk: nat, tags: nat, tagBytes: nat, seconds := 0, 0, 0, 0, 0.0;
    var chunks := new ChunkList();
    var pos, synced := 0, false;
    ghost var es: seq<Elem>, frameBytes: nat := [], 0;
    ScanStart(file);
    // Every break of the scanner's loop happens with the whole file consumed.
    while pos < |file|
      invariant pos <= |file| && fresh(chunks) && chunks.Valid()
      invariant Elements(file, false, 0) == es + Elements(file[pos..], synced, pos)
      invariant Sum(es) == Totals(frames, frameBytes, junk, tags, tagBytes, seconds)
      invariant chunks.Open() == OpenChunks(Frames(es))
      decreases |file| - pos
    {
      var rest := file[pos..];
      Stepped(file, es, pos, synced);
      es := es + [FindAt(rest, synced, pos).elem];
      if |rest| >= 10 {
        var n := Id3.TagLen(rest);
        if n.Some? {
          var d := if n.value > |rest| then |rest| else n.value;
          tags := tags + 1;
          tagBytes := tagBytes + d;
          pos := pos + d;
          synced := false;
          continue;
        }
      }
      if |rest| < MIN_HEADER {
        junk := junk + |rest|;
        pos := pos + |rest|;
        continue;
      }
      var header := ParseHeader(rest);
      if header.None? {
        junk := junk + 1;
        pos := pos + 1;
        synced := false;
        continue;
      }
      var frameLen := header.value;
      var want := frameLen;
      if !synced {
        want := want + MIN_HEADER;
      }
      if |rest| < want {
        if |rest| < frameLen {
          junk := junk + |rest|;
          pos := pos + |rest|;
          continue;
        }
        if |rest| != frameLen {
          junk := junk + 1;
          pos := pos + 1;
          continue;
        }
      } else if !synced {
        if ParseHeader(rest[frameLen..]).None? {
          junk := junk + 1;
          pos := pos + 1;
          continue;
        }
      }
      synced := true;
      var p := HeaderParams(rest);
      seconds := seconds + Seconds(p);
      chunks.Frame(pos, p, Seconds(p));
      frames := frames + 1;
      frameBytes := frameBytes + frameLen;
      pos := pos + frameLen;
    }
    ScanEnd(file, es, synced);
    var cs := chunks.Done(pos);
    info := Info(frames, seconds, junk, tags, tagBytes, if cs == [] then None else Some(cs[0].params), |cs| > 1, cs);
  }

  lemma ScanStart(file: seq<Byte>)
    ensures Elements(file, false, 0) == [] + Elements(file[0..], false, 0)
    ensures Sum([]) == ZERO && OpenChunks(Frames([])) == []
  {
    assert file[0..] == file;
  }

  lemma ScanEnd(file: seq<Byte>, es: seq<Elem>, synced: bool)
    ensures es + Elements(file[|file|..], synced, |file|) == es
  {
    assert file[|file|..] == [];
  }

  lemma {:induction false} FramesInOrder(es: seq<Elem>, off: nat, end: nat)
    requires Consecutive(es, off, end)
    ensures off <= end && Ascending(Frames(es)) && forall f :: f in Frames(es) ==> off <= f.off < end
  {
    if es != [] {
      FramesInOrder(es[1..], off + es[0].Size(), end);
    }
  }

  /** What a scan of any bytes reports: every byte is accounted for, the chunks partition the file, and ParamsChanged
      says whether some frame differs from the first. */
  lemma ReportIsExact(file: seq<Byte>)
    ensures var info, es := Report(file), Elements(file, false, 0);
            && info.junk + info.tagBytes + Sum(es).frameBytes == |file|
            && info.frames == |Frames(es)|
            && AllTrusted(file, es, false)
            && Grouped(info.chunks, Frames(es))
            && (info.frames == 0 <==> info.chunks == []) && (info.frames == 0 <==> info.params == None)
            && (info.frames > 0 ==>
                  && info.chunks[0].offset == 0
                  && info.chunks[|info.chunks| - 1].offset + info.chunks[|info.chunks| - 1].length == |file|
                  && info.params == Some(Frames(es)[0].header.params))
            && (info.paramsChanged <==> exists f :: f in Frames(es) && f.header.params != Frames(es)[0].header.params)
  {
    hide Elements, FindAt, OpenChunks, Sum, Frames, ClosedChunks, Grouped;
    var es := Elements(file, false, 0);
    assert file[0..] == file;
    ScanConserves(file, false, 0);
    FramesInOrder(es, 0, |file|);
    FrameCount(es);
    OnlyTrustedFrames(file, 0, false);
    ChunksPartition(Frames(es), |file|);
  }

  lemma {:induction false} FrameCount(es: seq<Elem>)
    ensures Sum(es).frames == |Frames(es)|
  {
    hide Seconds;
    if es != [] {
      FrameCount(es[1..]);
    }
  }
}
