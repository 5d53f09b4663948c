/** The streaming frame splitter (internal/adts/splitter.go): bytes arrive in arbitrary chunks, whole frames and
    junk runs are handed out, an undecided rest stays buffered. Events stand for the two callbacks. */
module Splitting {
  import opened Bytes
  import opened AdtsHeader
  import Id3

  datatype Event = FrameOut(bytes: seq<Byte>, header: Header) | JunkOut(bytes: seq<Byte>)

  /** What one turn of the process loop does with a non-empty buffer. */
  datatype Action = Wait | SetSynced(synced: bool) | TakeFrame(header: Header) | TakeJunk(n: nat)

  /** Events handed out, and the state left behind. */
  datatype Drained = Drained(events: seq<Event>, buf: seq<Byte>, synced: bool)

  predicate Candidate(b: Byte) {
    b == 0xFF || b == Id3.LETTER_I
  }

  /** Length of the junk run skipJunk emits: one byte, extended to the next candidate unless the first is one. */
  function JunkRun(buf: seq<Byte>): (k: nat)
    requires |buf| > 0
    ensures 1 <= k <= |buf|
    ensures Candidate(buf[0]) ==> k == 1
    ensures !Candidate(buf[0]) ==> forall i :: 0 <= i < k ==> !Candidate(buf[i])
    ensures !Candidate(buf[0]) && k < |buf| ==> Candidate(buf[k])
  {
    if Candidate(buf[0]) || |buf| == 1 || Candidate(buf[1]) then 1 else 1 + JunkRun(buf[1..])
  }

  function NextAction(buf: seq<Byte>, synced: bool, eof: bool): (a: Action)
    requires |buf| > 0
    ensures a.TakeFrame? ==> MIN_HEADER <= a.header.length <= |buf| && DecodeHeader(buf) == Some(a.header)
    ensures a.TakeJunk? ==> 1 <= a.n <= |buf|
    ensures a.SetSynced? ==> a.synced == !synced && |buf| >= MIN_HEADER && (a.synced <==> DecodeHeader(buf).Some?)
    ensures eof ==> !a.Wait?
  {
    var wait := if eof then TakeJunk(|buf|) else Wait;
    if synced then
      if |buf| < MIN_HEADER then wait
      else match DecodeHeader(buf)
        case None => SetSynced(false)
        case Some(h) => if |buf| < h.length then wait else TakeFrame(h)
    else if buf[0] == Id3.LETTER_I then
      if |buf| < 10 then wait
      else match Id3.TagLen(buf)
        case None => TakeJunk(1)
        case Some(n) => if |buf| < n then wait else TakeJunk(n)
    else if |buf| < MIN_HEADER then
      if HeaderPrefixValid(buf) then wait else TakeJunk(JunkRun(buf))
    else match DecodeHeader(buf)
      case None => TakeJunk(JunkRun(buf))
      case Some(h) =>
        if |buf| >= h.length + MIN_HEADER then
          if DecodeHeader(buf[h.length..]).Some? then SetSynced(true) else TakeJunk(1)
        else if !eof then Wait
        else if |buf| == h.length then TakeFrame(h)
        else if |buf| < h.length then TakeJunk(|buf|)
        else TakeJunk(1)
  }

  /** Without consuming a byte the loop can only go from synced with a bad header to unsynced, and from there
      to synced with a good header. */
  function Rank(buf: seq<Byte>, synced: bool): (r: nat)
  {
    if !synced then 1 else if |buf| >= MIN_HEADER && DecodeHeader(buf).None? then 2 else 0
  }

  function After(e: Event, rest: Drained): (d: Drained)
  {
    rest.(events := [e] + rest.events)
  }

  /** The process loop run until it has to wait or the buffer is empty. */
  function Drain(buf: seq<Byte>, synced: bool, eof: bool): (d: Drained)
    ensures eof ==> d.buf == []
    decreases |buf|, Rank(buf, synced)
  {
    if buf == [] then Drained([], buf, synced)
    else match NextAction(buf, synced, eof)
      case Wait => Drained([], buf, synced)
      case SetSynced(s) => Drain(buf, s, eof)
      case TakeFrame(h) => After(FrameOut(buf[..h.length], h), Drain(buf[h.length..], synced, eof))
      case TakeJunk(n) => After(JunkOut(buf[..n]), Drain(buf[n..], synced, eof))
  }

  lemma DrainUnfold(buf: seq<Byte>, synced: bool, eof: bool)
    ensures buf == [] ==> Drain(buf, synced, eof) == Drained([], [], synced)
    ensures buf != [] ==>
              var a := NextAction(buf, synced, eof);
              && (a.Wait? ==> Drain(buf, synced, eof) == Drained([], buf, synced))
              && (a.SetSynced? ==> Drain(buf, synced, eof) == Drain(buf, a.synced, eof))
              && (a.TakeFrame? ==>
                    var n := a.header.length;
                    Drain(buf, synced, eof) == After(FrameOut(buf[..n], a.header), Drain(buf[n..], synced, eof)))
              && (a.TakeJunk? ==> Drain(buf, synced, eof) == After(JunkOut(buf[..a.n]), Drain(buf[a.n..], synced, eof)))
  {
    hide NextAction, DecodeHeader, ParseHeader;
  }

  /** The effect of one turn of the loop: NextAction carried out; `stop` when the loop returns to wait. */
  predicate TurnTaken(buf: seq<Byte>, synced: bool, eof: bool, out: seq<Event>, stop: bool, buf': seq<Byte>,
                      synced': bool)
    requires |buf| > 0
  {
    match NextAction(buf, synced, eof)
    case Wait => stop && out == [] && buf' == buf && synced' == synced
    case SetSynced(s) => !stop && out == [] && buf' == buf && synced' == s
    case TakeFrame(h) => !stop && out == [FrameOut(buf[..h.length], h)] && buf' == buf[h.length..] && synced' == synced
    case TakeJunk(n) => !stop && out == [JunkOut(buf[..n])] && buf' == buf[n..] && synced' == synced
  }

  lemma TurnDrains(buf: seq<Byte>, synced: bool, eof: bool, out: seq<Event>, stop: bool, buf': seq<Byte>, synced': bool)
    requires |buf| > 0 && TurnTaken(buf, synced, eof, out, stop, buf', synced')
    ensures var d := Drain(buf', synced', eof); Drain(buf, synced, eof) == Drained(out + d.events, d.buf, d.synced)
    ensures stop ==> Drain(buf, synced, eof) == Drained([], buf', synced')
    ensures !stop ==> |buf'| < |buf| || (|buf'| == |buf| && Rank(buf', synced') < Rank(buf, synced))
  {
    hide Drain, NextAction, ParseHeader, DecodeHeader;
    DrainUnfold(buf, synced, eof);
    var d := Drain(buf', synced', eof);
    assert [] + d.events == d.events;
  }

  /** The bytes of the events in order. */
  function BytesOf(events: seq<Event>): (b: seq<Byte>)
  {
    if events == [] then [] else events[0].bytes + BytesOf(events[1..])
  }

  /** A frame and where its first byte sits in the stream. */
  datatype Placed = Placed(offset: nat, bytes: seq<Byte>, header: Header)

  /** The frames among the events, placed, when the first event starts at `base`. */
  function FramesOf(events: seq<Event>, base: nat): (f: seq<Placed>)
  {
    if events == [] then []
    else
      var rest := FramesOf(events[1..], base + |events[0].bytes|);
      match events[0]
      case FrameOut(b, h) => [Placed(base, b, h)] + rest
      case JunkOut(_) => rest
  }

  lemma {:induction false} EventsAppend(a: seq<Event>, b: seq<Event>, base: nat)
    ensures BytesOf(a + b) == BytesOf(a) + BytesOf(b)
    ensures FramesOf(a + b, base) == FramesOf(a, base) + FramesOf(b, base + |BytesOf(a)|)
  {
    if a == [] {
      assert a + b == b;
    } else {
      assert (a + b)[1..] == a[1..] + b;
      EventsAppend(a[1..], b, base + |a[0].bytes|);
    }
  }

  /** Nothing is dropped, reordered or added. */
  lemma {:induction false} DrainConserves(buf: seq<Byte>, synced: bool, eof: bool)
    ensures var d := Drain(buf, synced, eof); BytesOf(d.events) + d.buf == buf
    decreases |buf|, Rank(buf, synced)
  {
    hide Drain, NextAction, DecodeHeader, ParseHeader;
    DrainUnfold(buf, synced, eof);
    if buf != [] {
      match NextAction(buf, synced, eof)
      case Wait =>
      case SetSynced(s) => DrainConserves(buf, s, eof);
      case TakeFrame(h) =>
        DrainConserves(buf[h.length..], synced, eof);
        EventInFront(FrameOut(buf[..h.length], h), Drain(buf[h.length..], synced, eof), buf[h.length..]);
        assert buf == buf[..h.length] + buf[h.length..];
      case TakeJunk(n) =>
        DrainConserves(buf[n..], synced, eof);
        EventInFront(JunkOut(buf[..n]), Drain(buf[n..], synced, eof), buf[n..]);
        assert buf == buf[..n] + buf[n..];
    }
  }

  lemma EventInFront(e: Event, d: Drained, rest: seq<Byte>)
    requires BytesOf(d.events) + d.buf == rest
    ensures BytesOf([e] + d.events) + d.buf == e.bytes + rest
  {
    assert ([e] + d.events)[1..] == d.events;
    Associate(e.bytes, BytesOf(d.events), d.buf);
  }

  /** Everything handed out as a frame is one whole frame with its own header. */
  ghost predicate WholeFrames(events: seq<Event>) {
    forall e :: e in events && e.FrameOut? ==> IsFrame(e.bytes) && DecodeHeader(e.bytes) == Some(e.header)
  }

  lemma {:induction false} FramesAreWhole(buf: seq<Byte>, synced: bool, eof: bool)
    ensures WholeFrames(Drain(buf, synced, eof).events)
    decreases |buf|, Rank(buf, synced)
  {
    hide Drain, NextAction, ParseHeader, HeaderParams;
    DrainUnfold(buf, synced, eof);
    if buf != [] {
      match NextAction(buf, synced, eof)
      case Wait =>
      case SetSynced(s) => FramesAreWhole(buf, s, eof);
      case TakeFrame(h) =>
        FramesAreWhole(buf[h.length..], synced, eof);
        assert buf == buf[..h.length] + buf[h.length..];
        HeaderIsLocal(buf[..h.length], buf[h.length..]);
      case TakeJunk(n) =>
        FramesAreWhole(buf[n..], synced, eof);
    }
  }

  /** More bytes behind the buffer change a decision only when there was none yet, or when a junk run that reached
      the end of the buffer now extends further. */
  lemma ActionIsStable(buf: seq<Byte>, synced: bool, more: seq<Byte>)
    requires |buf| > 0 && !NextAction(buf, synced, false).Wait?
    ensures var a, b := NextAction(buf, synced, false), NextAction(buf + more, synced, false);
            a == b || (a == TakeJunk(|buf|) && !synced && b == TakeJunk(JunkRun(buf + more)) && JunkRun(buf) == |buf|
                       && !Candidate(buf[0]))
  {
    var all := buf + more;
    assert all[0] == buf[0];
    if |buf| >= MIN_HEADER {
      HeaderIsLocal(buf, more);
      if DecodeHeader(buf).Some? {
        var n := DecodeHeader(buf).value.length;
        if |buf| >= n + MIN_HEADER {
          assert all[n..] == buf[n..] + more;
          HeaderIsLocal(buf[n..], more);
        }
      }
    } else if |all| >= MIN_HEADER {
      PrefixOfHeader(all, |buf|);
      assert all[..|buf|] == buf;
    }
    if |buf| >= 10 {
      Id3.TagLenIsLocal(buf, more);
    }
    if !Candidate(buf[0]) {
      JunkRunExtends(buf, more);
    }
  }

  lemma {:induction false} JunkRunExtends(buf: seq<Byte>, more: seq<Byte>)
    requires |buf| > 0 && !Candidate(buf[0])
    ensures JunkRun(buf) < |buf| ==> JunkRun(buf + more) == JunkRun(buf)
    ensures JunkRun(buf) == |buf| ==> (JunkRun(buf + more) ==
              |buf| + if more == [] || Candidate(more[0]) then 0 else JunkRun(more))
  {
    if |buf| == 1 {
      assert (buf + more)[1..] == more;
    } else if !Candidate(buf[1]) {
      assert (buf + more)[1..] == buf[1..] + more;
      JunkRunExtends(buf[1..], more);
    }
  }

  /** An unsynced buffer that starts with junk hands that junk run out first. */
  lemma JunkFirst(buf: seq<Byte>)
    requires |buf| > 0 && !Candidate(buf[0])
    ensures NextAction(buf, false, false) == TakeJunk(JunkRun(buf))
  {
  }

  /** Draining what arrived, then draining again with the rest, is draining everything at once: same frames at the
      same offsets, same buffer, same sync state. */
  ghost predicate InTwo(buf: seq<Byte>, synced: bool, more: seq<Byte>, base: nat) {
    var first := Drain(buf, synced, false);
    var second := Drain(first.buf + more, first.synced, false);
    var whole := Drain(buf + more, synced, false);
    && whole.buf == second.buf && whole.synced == second.synced
    && FramesOf(whole.events, base) == FramesOf(first.events + second.events, base)
  }

  lemma FramesCons(e: Event, rest: seq<Event>, base: nat)
    ensures FramesOf([e] + rest, base) ==
            (if e.FrameOut? then [Placed(base, e.bytes, e.header)] else []) + FramesOf(rest, base + |e.bytes|)
  {
    assert ([e] + rest)[1..] == rest;
  }

  /** The inductive step: the same event comes first with and without the additional bytes. */
  lemma InTwoStep(buf: seq<Byte>, synced: bool, n: nat, e: Event, more: seq<Byte>, base: nat)
    requires 1 <= n <= |buf| && e.bytes == buf[..n]
    requires Drain(buf, synced, false) == After(e, Drain(buf[n..], synced, false))
    requires Drain(buf + more, synced, false) == After(e, Drain(buf[n..] + more, synced, false))
    requires InTwo(buf[n..], synced, more, base + n)
    ensures InTwo(buf, synced, more, base)
  {
    hide Drain, FramesOf;
    var rest := Drain(buf[n..], synced, false);
    var second := Drain(rest.buf + more, rest.synced, false);
    var whole := Drain(buf[n..] + more, synced, false);
    Associate([e], rest.events, second.events);
    FramesCons(e, rest.events + second.events, base);
    FramesCons(e, whole.events, base);
  }

  lemma TakenFromBoth(buf: seq<Byte>, more: seq<Byte>, n: nat)
    requires n <= |buf|
    ensures (buf + more)[n..] == buf[n..] + more && (buf + more)[..n] == buf[..n]
  {
  }

  lemma {:induction false} DrainInTwo(buf: seq<Byte>, synced: bool, more: seq<Byte>, base: nat)
    ensures InTwo(buf, synced, more, base)
    decreases |buf|, Rank(buf, synced)
  {
    hide ParseHeader, HeaderParams, DecodeHeader, HeaderPrefixValid, Id3.TagLen, NextAction, JunkRun, FrameLength,
      Drain, FramesOf;
    DrainUnfold(buf, synced, false);
    if buf == [] || NextAction(buf, synced, false).Wait? {
      var second := Drain(buf + more, synced, false);
      assert [] + second.events == second.events;
    } else {
      ActionIsStable(buf, synced, more);
      var all := buf + more;
      DrainUnfold(all, synced, false);
      var a, b := NextAction(buf, synced, false), NextAction(all, synced, false);
      if a == b {
        match a
        case SetSynced(s) => DrainInTwo(buf, s, more, base);
        case TakeFrame(h) =>
          TakenFromBoth(buf, more, h.length);
          DrainInTwo(buf[h.length..], synced, more, base + h.length);
          InTwoStep(buf, synced, h.length, FrameOut(buf[..h.length], h), more, base);
        case TakeJunk(n) =>
          TakenFromBoth(buf, more, n);
          DrainInTwo(buf[n..], synced, more, base + n);
          InTwoStep(buf, synced, n, JunkOut(buf[..n]), more, base);
      } else {
        JunkToTheEnd(buf, more, base);
      }
    }
  }

  lemma BehindBuf(buf: seq<Byte>, more: seq<Byte>, k: nat)
    requires |buf| <= k <= |buf| + |more|
    ensures (buf + more)[k..] == more[k - |buf|..] && (k == |buf| ==> (buf + more)[k..] == more)
  {
  }

  /** A junk run that reached the end of the buffer, continued by the bytes behind it. */
  lemma JunkToTheEnd(buf: seq<Byte>, more: seq<Byte>, base: nat)
    requires |buf| > 0 && !Candidate(buf[0]) && JunkRun(buf) == |buf|
    ensures InTwo(buf, false, more, base)
  {
    hide NextAction, JunkRun, Drain, FramesOf;
    var all := buf + more;
    JunkDrain(buf);
    JunkDrain(all);
    JunkRunExtends(buf, more);
    var k := JunkRun(all);
    var first := Drain(buf, false, false);
    assert first.buf + more == more;
    var second := Drain(more, false, false);
    FramesCons(JunkOut(buf), second.events, base);
    var tail := Drain(all[k..], false, false);
    FramesCons(JunkOut(all[..k]), tail.events, base);
    BehindBuf(buf, more, k);
    if k > |buf| {
      JunkDrain(more);
      var m := JunkRun(more);
      FramesCons(JunkOut(more[..m]), tail.events, base + |buf|);
    }
  }

  lemma JunkDrain(buf: seq<Byte>)
    requires |buf| > 0 && !Candidate(buf[0])
    ensures var k := JunkRun(buf); Drain(buf, false, false) == After(JunkOut(buf[..k]), Drain(buf[k..], false, false))
    ensures JunkRun(buf) == |buf| ==> Drain(buf, false, false) == Drained([JunkOut(buf)], [], false)
  {
    hide NextAction, JunkRun;
    JunkFirst(buf);
    if JunkRun(buf) == |buf| {
      assert buf[..|buf|] == buf && buf[|buf|..] == [];
      assert Drain([], false, false) == Drained([], [], false);
    }
  }

  /** The state after feeding the chunks one after the other. */
  function FeedAll(chunks: seq<seq<Byte>>): (d: Drained)
  {
    if chunks == [] then Drained([], [], false)
    else
      var before := FeedAll(chunks[..|chunks| - 1]);
      var now := Drain(before.buf + chunks[|chunks| - 1], before.synced, false);
      now.(events := before.events + now.events)
  }

  /** Any chunking: what was handed out plus the buffer is the input in order, and the frames, the buffer and the sync
      state are those of one single Feed of the whole input. */
  lemma {:induction false} AnyChunking(chunks: seq<seq<Byte>>)
    ensures var fed, once := FeedAll(chunks), Drain(Flatten(chunks), false, false);
            && BytesOf(fed.events) + fed.buf == Flatten(chunks)
            && FramesOf(fed.events, 0) == FramesOf(once.events, 0)
            && fed.buf == once.buf && fed.synced == once.synced
  {
    hide ParseHeader, HeaderParams, DecodeHeader, HeaderPrefixValid, Id3.TagLen, NextAction, JunkRun, FrameLength, Rank;
    if chunks != [] {
      var init, last := chunks[..|chunks| - 1], chunks[|chunks| - 1];
      var whole := Flatten(init);
      AnyChunking(init);
      FlattenSnoc(init, last);
      assert chunks == init + [last];
      var before, once := FeedAll(init), Drain(whole, false, false);
      FedOneMore(before, once, whole, last);
    }
  }

  lemma FedOneMore(before: Drained, once: Drained, whole: seq<Byte>, last: seq<Byte>)
    requires once == Drain(whole, false, false) && once.buf == before.buf && once.synced == before.synced
    requires BytesOf(before.events) + before.buf == whole && FramesOf(before.events, 0) == FramesOf(once.events, 0)
    ensures var now, all := Drain(before.buf + last, before.synced, false), Drain(whole + last, false, false);
            && BytesOf(before.events + now.events) + now.buf == whole + last
            && FramesOf(before.events + now.events, 0) == FramesOf(all.events, 0)
            && all.buf == now.buf && all.synced == now.synced
  {
    hide Drain, FramesOf, BytesOf;
    var now := Drain(before.buf + last, before.synced, false);
    DrainInTwo(whole, false, last, 0);
    DrainConserves(whole, false, false);
    DrainConserves(before.buf + last, before.synced, false);
    EventsAppend(before.events, now.events, 0);
    EventsAppend(once.events, now.events, 0);
    assert BytesOf(once.events) + once.buf == whole;
    assert |BytesOf(before.events)| == |BytesOf(once.events)|;
    assert BytesOf(before.events) + (BytesOf(now.events) + now.buf) == BytesOf(before.events) + (before.buf + last);
    assert BytesOf(before.events) + (before.buf + last) == whole + last;
  }

  /** Flush hands the whole rest out, so a fed and flushed splitter passed every input byte through exactly once. */
  lemma FlushPassesEverything(chunks: seq<seq<Byte>>)
    ensures var fed := FeedAll(chunks);
            var flushed := Drain(fed.buf, fed.synced, true);
            BytesOf(fed.events + flushed.events) == Flatten(chunks) && flushed.buf == []
  {
    var fed := FeedAll(chunks);
    var flushed := Drain(fed.buf, fed.synced, true);
    AnyChunking(chunks);
    DrainConserves(fed.buf, fed.synced, true);
    EventsAppend(fed.events, flushed.events, 0);
    assert BytesOf(flushed.events) + [] == BytesOf(flushed.events);
  }

  class Splitter {
    var buf: seq<Byte>
    var synced: bool

    constructor ()
      ensures buf == [] && !synced
    {
      buf, synced := [], false;
    }

    /** A fresh splitter in the place of this one. */
    method Reset()
      modifies this
      ensures buf == [] && !synced
    {
      buf, synced := [], false;
    }

    /** Appends p and hands out every whole frame and junk run now available. */
    method Feed(p: seq<Byte>) returns (out: seq<Event>)
      modifies this
      ensures Drained(out, buf, synced) == Drain(old(buf) + p, old(synced), false)
    {
      buf := buf + p;
      out := Process(false);
    }

    /** Hands out whatever is buffered, all of it through the junk callback; the splitter is then empty. */
    method Flush() returns (out: seq<Event>)
      modifies this
      ensures out == AsJunk(Drain(old(buf), old(synced), true).events)
      ensures buf == [] && !synced
    {
      var events := Process(true);
      out := AsJunk(events);
      buf, synced := [], false;
    }

    method Consume(n: nat)
      requires n <= |buf|
      modifies this`buf
      ensures buf == old(buf)[n..]
    {
      buf := buf[n..];
    }

    method SkipJunk() returns (e: Event)
      requires |buf| > 0
      modifies this`buf
      ensures e == JunkOut(old(buf)[..JunkRun(old(buf))]) && buf == old(buf)[JunkRun(old(buf))..]
    {
      var k := 1;
      if buf[0] != 0xFF && buf[0] != Id3.LETTER_I {
        while k < |buf| && buf[k] != 0xFF && buf[k] != Id3.LETTER_I
          invariant 1 <= k <= |buf|
          invariant forall i :: 0 <= i < k ==> !Candidate(buf[i])
        {
          k := k + 1;
        }
        assert k == JunkRun(buf);
      }
      e := JunkOut(buf[..k]);
      Consume(k);
    }

    /** One turn of the loop: the effect of NextAction; `stop` when the loop returns to wait. */
    method Turn(eof: bool) returns (out: seq<Event>, stop: bool)
      requires |buf| > 0
      modifies this
      ensures TurnTaken(old(buf), old(synced), eof, out, stop, buf, synced)
    {
      hide HeaderParams, HeaderPrefixValid, Id3.TagLen, FrameLength, JunkRun;
      out, stop := [], false;
      if synced {
        if |buf| < MIN_HEADER {
          out, stop := AllOrWait(eof);
          return;
        }
        var h := DecodeHeader(buf);
        if h.None? {
          synced := false;
          return;
        }
        if |buf| < h.value.length {
          out, stop := AllOrWait(eof);
          return;
        }
        out := [FrameOut(buf[..h.value.length], h.value)];
        Consume(h.value.length);
        return;
      }
      if buf[0] == Id3.LETTER_I {
        if |buf| < 10 {
          out, stop := AllOrWait(eof);
          return;
        }
        var n := Id3.TagLen(buf);
        if n.Some? {
          if |buf| < n.value {
            out, stop := AllOrWait(eof);
            return;
          }
          out := [JunkOut(buf[..n.value])];
          Consume(n.value);
          return;
        }
        var skipped := SkipJunk();
        out := [skipped];
        return;
      }
      if |buf| < MIN_HEADER {
        if HeaderPrefixValid(buf) {
          out, stop := AllOrWait(eof);
          return;
        }
        var skipped := SkipJunk();
        out := [skipped];
        return;
      }
      var h := DecodeHeader(buf);
      if h.None? {
        var skipped := SkipJunk();
        out := [skipped];
        return;
      }
      var len := h.value.length;
      if |buf| >= len + MIN_HEADER {
        if ParseHeader(buf[len..]).Some? {
          synced := true;
          return;
        }
        var skipped := SkipJunk();
        out := [skipped];
        return;
      }
      if !eof {
        stop := true;
        return;
      }
      if |buf| == len {
        out := [FrameOut(buf[..len], h.value)];
        Consume(len);
      } else if |buf| < len {
        out, stop := AllOrWait(true);
      } else {
        var skipped := SkipJunk();
        out := [skipped];
      }
    }

    /** At end of file the undecided rest becomes junk, otherwise the loop waits for more bytes. */
    method AllOrWait(eof: bool) returns (out: seq<Event>, stop: bool)
      modifies this`buf
      ensures eof ==> !stop && out == [JunkOut(old(buf)[..|old(buf)|])] && buf == old(buf)[|old(buf)|..]
      ensures !eof ==> stop && out == [] && buf == old(buf)
    {
      out, stop := [], true;
      if eof {
        out, stop := [JunkOut(buf)], false;
        assert buf == buf[..|buf|];
        buf := [];
      }
    }

    method Process(eof: bool) returns (out: seq<Event>)
      modifies this
      ensures Drained(out, buf, synced) == Drain(old(buf), old(synced), eof)
    {
      hide Drain, NextAction, DecodeHeader, ParseHeader, TurnTaken, Rank;
      out := [];
      ghost var goal := Drain(buf, synced, eof);
      while |buf| > 0
        invariant var rest := Drain(buf, synced, eof);
                  goal.buf == rest.buf && goal.synced == rest.synced && goal.events == out + rest.events
        decreases |buf|, Rank(buf, synced)
      {
        ghost var before := Drained(out, buf, synced);
        var now, stop := Turn(eof);
        TurnDrains(before.buf, before.synced, eof, now, stop, buf, synced);
        out := out + now;
        ghost var rest := Drain(buf, synced, eof);
        Associate(before.events, now, rest.events);
        if stop {
          return;
        }
      }
      DrainUnfold(buf, synced, eof);
    }
  }

  /** Flush's frame callback is its junk callback. */
  function AsJunk(events: seq<Event>): (junk: seq<Event>)
    ensures |junk| == |events| && forall i :: 0 <= i < |junk| ==> junk[i] == JunkOut(events[i].bytes)
    ensures BytesOf(junk) == BytesOf(events)
  {
    if events == [] then [] else [JunkOut(events[0].bytes)] + AsJunk(events[1..])
  }
}
