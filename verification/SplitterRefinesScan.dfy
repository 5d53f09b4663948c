/** The streaming splitter and the whole-file scanner agree: what Feed hands out as frames is an initial segment of what
    a scan of the same bytes counts. */
module SplitterRefinesScan {
  import opened Bytes
  import opened AdtsHeader
  import Splitting
  import Scanning

  function Marks(frames: seq<Splitting.Placed>): (m: seq<Scanning.At>)
    ensures |m| == |frames| && forall i :: 0 <= i < |m| ==> m[i] == Scanning.At(frames[i].offset, frames[i].header)
  {
    if frames == [] then [] else [Scanning.At(frames[0].offset, frames[0].header)] + Marks(frames[1..])
  }

  function Counted(rest: seq<Byte>, synced: bool, off: nat): (fs: seq<Scanning.At>)
  {
    Scanning.Frames(Scanning.Elements(rest, synced, off))
  }

  lemma CountedUnfold(rest: seq<Byte>, synced: bool, off: nat)
    requires rest != []
    ensures var f := Scanning.FindAt(rest, synced, off);
            var n := f.elem.Size();
            Counted(rest, synced, off) ==
              (if f.elem.Frame? then [Scanning.At(off, f.elem.header)] else []) + Counted(rest[n..], f.synced, off + n)
  {
    hide Scanning.FindAt, Scanning.Elements;
    Scanning.ElementsUnfold(rest, synced, off);
    var f := Scanning.FindAt(rest, synced, off);
    var tail := Scanning.Elements(rest[f.elem.Size()..], f.synced, off + f.elem.Size());
    assert ([f.elem] + tail)[1..] == tail;
  }

  /** Fewer bytes than a header hold no frame. */
  lemma TooShort(rest: seq<Byte>, synced: bool, off: nat)
    requires |rest| < MIN_HEADER
    ensures Counted(rest, synced, off) == []
  {
    if rest == [] {
      Scanning.EmptyRest(synced, off);
    } else {
      CountedUnfold(rest, synced, off);
      assert rest[|rest|..] == [];
      Scanning.EmptyRest(synced, off + |rest|);
    }
  }

  /** No frame starts in a run of bytes that are neither a sync byte nor the first letter of a tag. */
  lemma {:induction false} JunkHoldsNoFrame(rest: seq<Byte>, k: nat, off: nat)
    requires k <= |rest| && forall i :: 0 <= i < k ==> !Splitting.Candidate(rest[i])
    ensures Counted(rest, false, off) == Counted(rest[k..], false, off + k)
    decreases k
  {
    hide ParseHeader, HeaderParams, Scanning.Elements, Scanning.Frames, Counted;
    if k == 0 {
      assert rest[0..] == rest;
    } else if |rest| < MIN_HEADER {
      TooShort(rest, false, off);
      TooShort(rest[k..], false, off + k);
    } else {
      assert DecodeHeader(rest).None?;
      CountedUnfold(rest, false, off);
      JunkHoldsNoFrame(rest[1..], k - 1, off + 1);
      assert rest[1..][k - 1..] == rest[k..];
    }
  }

  /** One turn of the splitter against the scanner standing at the same position with the same sync state. */
  lemma TurnKeepsScan(buf: seq<Byte>, synced: bool, off: nat)
    requires buf != []
    ensures match Splitting.NextAction(buf, synced, false)
            case Wait => true
            case SetSynced(s) => Counted(buf, s, off) == Counted(buf, synced, off)
            case TakeFrame(h) =>
              Counted(buf, synced, off) == [Scanning.At(off, h)] + Counted(buf[h.length..], synced, off + h.length)
            case TakeJunk(n) => Counted(buf, synced, off) == Counted(buf[n..], synced, off + n)
  {
    hide ParseHeader, HeaderParams, FrameLength, Scanning.Elements, Scanning.Frames, Counted, HeaderPrefixValid,
      Splitting.JunkRun;
    CountedUnfold(buf, synced, off);
    match Splitting.NextAction(buf, synced, false) {
      case Wait =>
      case SetSynced(s) => CountedUnfold(buf, s, off);
      case TakeFrame(h) =>
      case TakeJunk(n) =>
        if !Splitting.Candidate(buf[0]) {
          JunkHoldsNoFrame(buf, n, off);
        } else if |buf| < MIN_HEADER {
          TooShort(buf, synced, off);
          TooShort(buf[n..], synced, off + n);
        }
    }
  }

  /** What draining hands out, and what a scan finds in the rest. */
  function Handed(d: Splitting.Drained, off: nat): (fs: seq<Scanning.At>)
  {
    Marks(Splitting.FramesOf(d.events, off)) + Counted(d.buf, d.synced, off + |Splitting.BytesOf(d.events)|)
  }

  lemma MarksCons(e: Splitting.Event, events: seq<Splitting.Event>, off: nat)
    ensures Marks(Splitting.FramesOf([e] + events, off)) ==
              (if e.FrameOut? then [Scanning.At(off, e.header)] else []) +
              Marks(Splitting.FramesOf(events, off + |e.bytes|))
  {
    hide Splitting.FramesOf;
    Splitting.FramesCons(e, events, off);
  }

  /** One more event in front. */
  lemma HandedAfter(e: Splitting.Event, d: Splitting.Drained, off: nat)
    ensures Handed(Splitting.After(e, d), off) ==
              (if e.FrameOut? then [Scanning.At(off, e.header)] else []) + Handed(d, off + |e.bytes|)
  {
    hide Counted, Splitting.FramesOf;
    Splitting.FramesCons(e, d.events, off);
    MarksCons(e, d.events, off);
    assert ([e] + d.events)[1..] == d.events;
    assert off + |e.bytes| + |Splitting.BytesOf(d.events)| == off + |Splitting.BytesOf([e] + d.events)|;
    hide Marks, Splitting.BytesOf;
    Associate(if e.FrameOut? then [Scanning.At(off, e.header)] else [],
              Marks(Splitting.FramesOf(d.events, off + |e.bytes|)),
              Counted(d.buf, d.synced, off + |e.bytes| + |Splitting.BytesOf(d.events)|));
  }

  lemma HandedNothing(buf: seq<Byte>, synced: bool, off: nat)
    ensures Handed(Splitting.Drained([], buf, synced), off) == Counted(buf, synced, off)
  {
    hide Counted;
  }

  /** Frames handed out so far followed by what a scan still finds in the buffer are all the frames of a scan. */
  lemma {:induction false} DrainKeepsScan(buf: seq<Byte>, synced: bool, off: nat)
    ensures Counted(buf, synced, off) == Handed(Splitting.Drain(buf, synced, false), off)
    decreases |buf|, Splitting.Rank(buf, synced)
  {
    hide ParseHeader, HeaderParams, DecodeHeader, Splitting.NextAction, Splitting.Drain, Splitting.After, Counted,
      Handed;
    Splitting.DrainUnfold(buf, synced, false);
    HandedNothing(buf, synced, off);
    if buf != [] {
      TurnKeepsScan(buf, synced, off);
      match Splitting.NextAction(buf, synced, false) {
        case Wait =>
        case SetSynced(s) => DrainKeepsScan(buf, s, off);
        case TakeFrame(h) =>
          DrainKeepsScan(buf[h.length..], synced, off + h.length);
          HandedAfter(Splitting.FrameOut(buf[..h.length], h), Splitting.Drain(buf[h.length..], synced, false), off);
        case TakeJunk(n) =>
          DrainKeepsScan(buf[n..], synced, off + n);
          HandedAfter(Splitting.JunkOut(buf[..n]), Splitting.Drain(buf[n..], synced, false), off);
          NothingInFront(Handed(Splitting.Drain(buf[n..], synced, false), off + n));
      }
    }
  }

  lemma NothingInFront(s: seq<Scanning.At>)
    ensures [] + s == s
  {
  }

  /** For every way of feeding an input, the frames handed out so far are the first frames a scan of that input counts,
      with the same offsets and headers, and the scan finds the remaining ones in the buffer. */
  lemma FedFramesAreScanned(chunks: seq<seq<Byte>>)
    ensures var fed, file := Splitting.FeedAll(chunks), Flatten(chunks);
            var out, all :=
              Marks(Splitting.FramesOf(fed.events, 0)), Scanning.Frames(Scanning.Elements(file, false, 0));
            && out <= all
            && all[|out|..] == Counted(fed.buf, fed.synced, |Splitting.BytesOf(fed.events)|)
  {
    hide Scanning.Elements, Scanning.Frames, Splitting.Drain, Splitting.FramesOf, Splitting.BytesOf;
    var fed, file := Splitting.FeedAll(chunks), Flatten(chunks);
    var once := Splitting.Drain(file, false, false);
    Splitting.AnyChunking(chunks);
    DrainKeepsScan(file, false, 0);
    Splitting.DrainConserves(file, false, false);
    assert |Splitting.BytesOf(once.events)| == |Splitting.BytesOf(fed.events)|;
  }
}
