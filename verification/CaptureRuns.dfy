/** Whole captures: runs of ffmpeg one after the other into the same file (internal/recorder/ffmpeg.go: the loop of
    supervise around beginRun, captureWriter, endRun and trimTail). */
module CaptureRuns {
  import opened Bytes
  import opened AdtsHeader
  import opened SessionRecord
  import opened Splitting
  import opened Capturing
  import TailRepair

  /** One write of ffmpeg to its standard output, and when it arrived. */
  datatype Arrival = Arrival(bytes: seq<Byte>, at: int)

  /** One run: its anchor, its output, its end. */
  datatype Output = Output(begin: int, anchor: int, source: string, videoFile: string, arrivals: seq<Arrival>, end: int,
                           tsKept: bool)

  function Chunks(arrivals: seq<Arrival>): (chunks: seq<seq<Byte>>)
    ensures |chunks| == |arrivals|
    ensures forall i :: 0 <= i < |chunks| ==> chunks[i] == arrivals[i].bytes
  {
    seq(|arrivals|, i requires 0 <= i < |arrivals| => arrivals[i].bytes)
  }

  /** The capture after the arrivals of a run that has just begun. */
  function AfterWrites(c: Cap, arrivals: seq<Arrival>): (c': Cap)
  {
    if arrivals == [] then c
    else
      var init, last := arrivals[..|arrivals| - 1], arrivals[|arrivals| - 1];
      var s := FeedAll(Chunks(init));
      OnEvents(AfterWrites(c, init), Drain(s.buf + last.bytes, s.synced, false).events, last.at)
  }

  /** What a stretch of events does to a capture, whatever the events are. */
  ghost predicate Passed(c: Cap, d: Cap, events: seq<Event>)
  {
    var w := Put(c, BytesOf(events));
    && d.file == w.file && d.room == w.room && d.failed == w.failed && d.runBytes == w.runBytes
    && d.frames == c.frames + CountFrames(events) && d.seconds == c.seconds + SumSeconds(events)
    && d.offset == c.offset && d.startedAt == c.startedAt && d.anchorSource == c.anchorSource
    && d.videoFile == c.videoFile
    && d.started == (c.started || CountFrames(events) > 0)
    && (c.started == d.started ==> d.runs == c.runs && d.anchor == c.anchor)
    && (!c.started && d.started ==> d.runs == Appended(c.runs, OpenRecord(d)))
  }

  function CountFrames(events: seq<Event>): (n: nat)
  {
    if events == [] then 0 else CountFrames(events[..|events| - 1]) + if events[|events| - 1].FrameOut? then 1 else 0
  }

  function EventSeconds(e: Event): (s: real)
  {
    match e case FrameOut(_, h) => Seconds(h.params) case JunkOut(_) => 0.0
  }

  function SumSeconds(events: seq<Event>): (s: real)
  {
    if events == [] then 0.0 else SumSeconds(events[..|events| - 1]) + EventSeconds(events[|events| - 1])
  }

  lemma {:induction false} CountsAppend(a: seq<Event>, b: seq<Event>)
    ensures CountFrames(a + b) == CountFrames(a) + CountFrames(b)
    ensures SumSeconds(a + b) == SumSeconds(a) + SumSeconds(b)
    decreases |b|
  {
    hide EventSeconds;
    if b == [] {
      assert a + b == a;
    } else {
      assert (a + b)[..|a + b| - 1] == a + b[..|b| - 1];
      CountsAppend(a, b[..|b| - 1]);
    }
  }

  lemma {:induction false} EventsPass(c: Cap, events: seq<Event>, now: int)
    ensures Passed(c, OnEvents(c, events, now), events)
    decreases |events|
  {
    hide Put, Appended, EventSeconds;
    if events == [] {
      PutNothing(c);
    } else {
      var init, e := events[..|events| - 1], events[|events| - 1];
      var d := OnEvents(c, init, now);
      EventsPass(c, init, now);
      EventPasses(d, e, now);
      PassedInTwo(c, d, OnEvent(d, e, now), init, [e]);
      assert events == init + [e];
    }
  }

  lemma PutNothing(c: Cap)
    ensures Put(c, []) == c
  {
    assert c.file + [] == c.file;
  }

  lemma EventPasses(c: Cap, e: Event, now: int)
    ensures Passed(c, OnEvent(c, e, now), [e])
  {
    hide Appended, Seconds;
    assert [e][..0] == [] && [e][1..] == [];
    assert BytesOf([e]) == e.bytes + [] == e.bytes;
    assert CountFrames([e]) == CountFrames([]) + if e.FrameOut? then 1 else 0;
    assert SumSeconds([e]) == SumSeconds([]) + EventSeconds(e);
  }

  lemma PassedInTwo(c: Cap, d: Cap, f: Cap, a: seq<Event>, b: seq<Event>)
    requires Passed(c, d, a) && Passed(d, f, b)
    ensures Passed(c, f, a + b)
  {
    hide Appended, CountFrames, SumSeconds, BytesOf;
    EventsAppend(a, b, 0);
    CountsAppend(a, b);
    PutInTwo(c, BytesOf(a), BytesOf(b));
    var w := Put(c, BytesOf(a));
    assert Put(d, BytesOf(b)).file == Put(w, BytesOf(b)).file;
  }

  lemma {:induction false} WritesPass(c: Cap, arrivals: seq<Arrival>)
    ensures Passed(c, AfterWrites(c, arrivals), FeedAll(Chunks(arrivals)).events)
    decreases |arrivals|
  {
    hide Passed, Drain, OnEvents;
    if arrivals == [] {
      EventsPass(c, [], 0);
      NoEvents(c);
    } else {
      var init, last := arrivals[..|arrivals| - 1], arrivals[|arrivals| - 1];
      var s := FeedAll(Chunks(init));
      var now := Drain(s.buf + last.bytes, s.synced, false);
      var d := AfterWrites(c, init);
      WritesPass(c, init);
      EventsPass(d, now.events, last.at);
      PassedInTwo(c, d, OnEvents(d, now.events, last.at), s.events, now.events);
      var chunks := Chunks(arrivals);
      assert chunks[..|chunks| - 1] == Chunks(init);
    }
  }

  lemma NoEvents(c: Cap)
    ensures OnEvents(c, [], 0) == c
  {
  }

  /** One run into the file. */
  function OneRun(c: Cap, o: Output): (c': Cap)
  {
    var s := FeedAll(Chunks(o.arrivals));
    var w := AfterWrites(Begun(c, o.begin, o.anchor, o.source, o.videoFile), o.arrivals);
    Ended(w, Drain(s.buf, s.synced, true).events, o.end, o.tsKept)
  }

  /** The record of a run that wrote frames: its byte range starts at the end of the file as it was and covers what the
      splitter handed out before the flush. */
  ghost predicate RecordOf(r: Run, c: Cap, o: Output)
  {
    var fed := FeedAll(Chunks(o.arrivals)).events;
    && r.offset == |c.file| && r.bytes == Accepted(c.room, false, |BytesOf(fed)|)
    && r.frames == CountFrames(fed) && r.seconds == SumSeconds(fed) && r.endedAt == Some(o.end)
    && r.startedAt == o.begin && r.anchorSource == o.source
    && r.anchor == (if o.source == "wallclock" then FirstFrameAt(o.arrivals).GetOr(o.anchor) else o.anchor)
    && r.videoFiles == if o.tsKept && o.videoFile != "" then [o.videoFile] else []
  }

  /** Faithful for any output in any chunks: the file grows by exactly what ffmpeg wrote, up to the first byte the disk
      refused; a run without a frame leaves no record, any other run one record, closed. */
  lemma OneRunIsFaithful(c: Cap, o: Output)
    ensures var d := OneRun(c, o);
            var output := Flatten(Chunks(o.arrivals));
            var fed := FeedAll(Chunks(o.arrivals)).events;
            var k := Accepted(c.room, false, |output|);
            && d.file == c.file + output[..k] && d.room == c.room - k && (d.failed <==> k < |output|)
            && (CountFrames(fed) == 0 ==> d.runs == c.runs)
            && (CountFrames(fed) > 0 ==> exists r :: RecordOf(r, c, o) && d.runs == Appended(c.runs, r))
  {
    hide Drain, Appended, BytesOf, AfterWrites, FeedAll, CountFrames, SumSeconds;
    var s := FeedAll(Chunks(o.arrivals));
    var b := Begun(c, o.begin, o.anchor, o.source, o.videoFile);
    var w := AfterWrites(b, o.arrivals);
    var flushed := Drain(s.buf, s.synced, true).events;
    WritesPass(b, o.arrivals);
    FlushPassesEverything(Chunks(o.arrivals));
    EventsAppend(s.events, flushed, 0);
    PutInTwo(b, BytesOf(s.events), BytesOf(flushed));
    assert Put(w, BytesOf(flushed)).file == Put(Put(b, BytesOf(s.events)), BytesOf(flushed)).file;
    if w.started {
      var r := OpenRecord(w);
      var r' := ClosedRecord(r, w, o.end, o.tsKept);
      ClosingTheNewRun(c.runs, r, r');
      AnchorStamped(b, o.arrivals);
      assert RecordOf(r', c, o);
    }
  }

  /** The pair to merge is never chosen by the new run, so closing it afterwards gives what appending it closed would
      have. */
  lemma ClosingTheNewRun(runs: seq<Run>, r: Run, r': Run)
    ensures var rs := Appended(runs, r);
            rs != [] && rs[|rs| - 1] == r && rs[|rs| - 1 := r'] == Appended(runs, r')
  {
    hide MergeAt, OldestAlike;
    var all, all' := runs + [r], runs + [r'];
    assert all' == all[|all| - 1 := r'];
    SameOldestPair(all, all', 0);
    if |all| > MAX_RUNS {
      var oldest := OldestAlike(all, 0);
      MergeSparesTheLast(all, r', if oldest.Some? then oldest.value else 0, oldest.None?);
    }
  }

  lemma MergeSparesTheLast(all: seq<Run>, r: Run, i: nat, dropVideo: bool)
    requires i + 2 < |all|
    ensures var rs := MergeAt(all, i, dropVideo);
            && rs[|rs| - 1] == all[|all| - 1]
            && rs[|rs| - 1 := r] == MergeAt(all[|all| - 1 := r], i, dropVideo)
  {
    hide Merged;
  }

  lemma {:induction false} SameOldestPair(all: seq<Run>, all': seq<Run>, j: nat)
    requires |all| == |all'| && |all| > 0 && all[..|all| - 1] == all'[..|all| - 1]
    ensures OldestAlike(all, j) == OldestAlike(all', j)
    decreases |all| - j
  {
    if j + 2 < |all| {
      assert all[..|all| - 1][j] == all[j] && all'[..|all| - 1][j] == all'[j];
      assert all[..|all| - 1][j + 1] == all[j + 1] && all'[..|all| - 1][j + 1] == all'[j + 1];
      SameOldestPair(all, all', j + 1);
    }
  }

  /** When the first whole frame of a run was handed out: the arrival that completed it. */
  function FirstFrameAt(arrivals: seq<Arrival>): (at: Option<int>)
  {
    if CountFrames(FeedAll(Chunks(arrivals)).events) == 0 || arrivals == [] then None
    else
      var init := arrivals[..|arrivals| - 1];
      if CountFrames(FeedAll(Chunks(init)).events) > 0 then FirstFrameAt(init) else Some(arrivals[|arrivals| - 1].at)
  }

  /** A wallclock run is anchored at the arrival of its first frame; any other anchor stays as it was looked up. */
  lemma {:induction false} AnchorStamped(c: Cap, arrivals: seq<Arrival>)
    requires !c.started
    ensures var d := AfterWrites(c, arrivals);
            d.anchor == if c.anchorSource == "wallclock" then FirstFrameAt(arrivals).GetOr(c.anchor) else c.anchor
    decreases |arrivals|
  {
    hide Drain, Passed, CountFrames, OnEvents, FeedAll;
    WritesPass(c, arrivals);
    if arrivals == [] {
      assert FirstFrameAt(arrivals) == None;
    } else {
      var init, last := arrivals[..|arrivals| - 1], arrivals[|arrivals| - 1];
      AnchorStamped(c, init);
      WritesPass(c, init);
      var s, d := FeedAll(Chunks(init)), AfterWrites(c, init);
      AnchorAfterEvents(d, Drain(s.buf + last.bytes, s.synced, false).events, last.at);
      StartedMeansFrames(c, d, s.events);
      StartedMeansFrames(c, AfterWrites(c, arrivals), FeedAll(Chunks(arrivals)).events);
    }
  }

  lemma StartedMeansFrames(c: Cap, d: Cap, events: seq<Event>)
    requires Passed(c, d, events) && !c.started
    ensures d.started == (CountFrames(events) > 0) && d.anchorSource == c.anchorSource
            && (!d.started ==> d.anchor == c.anchor)
  {
    hide Put, Appended, SumSeconds, CountFrames;
  }

  lemma {:induction false} AnchorAfterEvents(c: Cap, events: seq<Event>, now: int)
    ensures var d := OnEvents(c, events, now);
            && d.anchorSource == c.anchorSource && (c.started ==> d.started)
            && d.anchor == if !c.started && d.started && c.anchorSource == "wallclock" then now else c.anchor
    decreases |events|
  {
    hide Appended, Seconds;
    if events != [] {
      AnchorAfterEvents(c, events[..|events| - 1], now);
    }
  }

  // ---------------------------------------------------------------------------------------------------------------
  // Exact run ranges
  // ---------------------------------------------------------------------------------------------------------------

  /** The output of a run: at least two whole frames with any payload, then a strict prefix of one, cut into writes
      anyhow. */
  ghost predicate Produced(o: Output, frames: seq<seq<Byte>>, partial: seq<Byte>)
  {
    && TailRepair.AllFrames(frames) && |frames| >= 2 && IsPartialFrame(partial)
    && Flatten(Chunks(o.arrivals)) == Flatten(frames) + partial
  }

  /** A synced splitter hands out every whole frame and keeps the prefix. */
  lemma {:induction false} SyncedDrain(frames: seq<seq<Byte>>, partial: seq<Byte>, base: nat)
    requires TailRepair.AllFrames(frames) && IsPartialFrame(partial)
    ensures var d := Drain(Flatten(frames) + partial, true, false);
            && d.buf == partial && d.synced
            && |FramesOf(d.events, base)| == |frames| && PlacedSeconds(FramesOf(d.events, base)) == FrameSeconds(frames)
  {
    hide ParseHeader, HeaderParams, HeaderPrefixValid, FrameLength, Drain, NextAction, Seconds, IsPartialFrame;
    var buf := Flatten(frames) + partial;
    DrainUnfold(buf, true, false);
    if frames == [] {
      assert buf == partial;
      if partial != [] {
        PartialWaits(partial);
      }
    } else {
      var f, rest := frames[0], frames[1..];
      assert f in frames;
      assert buf == f + (Flatten(rest) + partial);
      FrameTaken(f, Flatten(rest) + partial);
      var n := |f|;
      assert buf[n..] == Flatten(rest) + partial && buf[..n] == f;
      SyncedDrain(rest, partial, base + n);
      var d := Drain(buf[n..], true, false);
      FramesCons(FrameOut(f, Header(HeaderParams(f), n)), d.events, base);
      PlacedSecondsCons(Placed(base, f, Header(HeaderParams(f), n)), FramesOf(d.events, base + n));
    }
  }

  function PlacedSeconds(fs: seq<Placed>): (s: real)
  {
    if fs == [] then 0.0 else Seconds(fs[0].header.params) + PlacedSeconds(fs[1..])
  }

  lemma PlacedSecondsCons(p: Placed, fs: seq<Placed>)
    ensures PlacedSeconds([p] + fs) == Seconds(p.header.params) + PlacedSeconds(fs)
  {
    assert ([p] + fs)[1..] == fs;
  }

  lemma PartialWaits(partial: seq<Byte>)
    requires IsPartialFrame(partial) && partial != []
    ensures NextAction(partial, true, false).Wait?
  {
    hide HeaderPrefixValid, HeaderParams;
    PartialFrameShape(partial);
  }

  lemma FrameTaken(f: seq<Byte>, more: seq<Byte>)
    requires IsFrame(f)
    ensures DecodeHeader(f) == Some(Header(HeaderParams(f), |f|))
    ensures NextAction(f + more, true, false) == TakeFrame(Header(HeaderParams(f), |f|))
  {
    HeaderIsLocal(f, more);
  }

  /** With a second frame behind it the first one is trusted at once. */
  lemma TwoFramesSync(f: seq<Byte>, g: seq<Byte>, more: seq<Byte>)
    requires IsFrame(f) && IsFrame(g)
    ensures NextAction(f + (g + more), false, false) == SetSynced(true)
  {
    hide HeaderParams;
    HeaderIsLocal(f, g + more);
    HeaderIsLocal(g, more);
    assert (f + (g + more))[|f|..] == g + more;
  }

  lemma {:induction false} CountsOfPlaced(events: seq<Event>, base: nat)
    ensures |FramesOf(events, base)| == CountFrames(events)
            && PlacedSeconds(FramesOf(events, base)) == SumSeconds(events)
  {
    hide Seconds;
    if events != [] {
      var e, rest := events[0], events[1..];
      CountsOfPlaced(rest, base + |e.bytes|);
      assert events == [e] + rest;
      CountsAppend([e], rest);
      FramesCons(e, rest, base);
      assert [e][..0] == [];
      assert SumSeconds([e]) == SumSeconds([]) + EventSeconds(e);
      assert CountFrames([e]) == CountFrames([]) + if e.FrameOut? then 1 else 0;
      if e.FrameOut? {
        PlacedSecondsCons(Placed(base, e.bytes, e.header), FramesOf(rest, base + |e.bytes|));
      }
    }
  }

  /** The splitter has handed out exactly the whole frames when the run's output ends inside one. */
  lemma FedExactly(o: Output, frames: seq<seq<Byte>>, partial: seq<Byte>)
    requires Produced(o, frames, partial)
    ensures var s := FeedAll(Chunks(o.arrivals));
            && BytesOf(s.events) == Flatten(frames) && s.buf == partial
            && CountFrames(s.events) == |frames| && SumSeconds(s.events) == FrameSeconds(frames)
  {
    hide IsPartialFrame, IsFrame, NextAction, FeedAll, FramesOf, BytesOf, Drain, CountFrames, SumSeconds, Flatten;
    var s, whole := FeedAll(Chunks(o.arrivals)), Flatten(frames) + partial;
    AnyChunking(Chunks(o.arrivals));
    FirstTwoSync(frames, partial);
    SyncedDrain(frames, partial, 0);
    CountsOfPlaced(s.events, 0);
    CancelRight(BytesOf(s.events), Flatten(frames), partial);
  }

  lemma FirstTwoSync(frames: seq<seq<Byte>>, partial: seq<Byte>)
    requires TailRepair.AllFrames(frames) && |frames| >= 2
    ensures Drain(Flatten(frames) + partial, false, false) == Drain(Flatten(frames) + partial, true, false)
  {
    hide IsFrame, NextAction, Drain;
    var f, g, rest := frames[0], frames[1], frames[1..][1..];
    assert f in frames && g in frames;
    TailRepair.FrameIsLink(f, []);
    TwoFramesSync(f, g, Flatten(rest) + partial);
    assert Flatten(frames) == f + (g + Flatten(rest)) by { assert frames[1..][0] == g; }
    Associate(f, g + Flatten(rest), partial);
    Associate(g, Flatten(rest), partial);
    DrainUnfold(Flatten(frames) + partial, false, false);
  }

  /** One more run onto a file of whole frames: the run's record covers exactly its whole frames, and after trimming the
      file is exactly all whole frames if and only if that repair is safe. */
  lemma OneRunIsExact(c: Cap, before: seq<seq<Byte>>, o: Output, frames: seq<seq<Byte>>, partial: seq<Byte>)
    requires TailRepair.AllFrames(before) && c.file == Flatten(before) && Produced(o, frames, partial)
    requires |Flatten(frames) + partial| <= c.room
    ensures var d := OneRun(c, o);
            && !d.failed && d.room == c.room - |Flatten(frames) + partial|
            && (TailRepair.Trimmed(d.file) == Flatten(before + frames) <==>
                  TailRepair.TrimIsSafe(before + frames, partial))
            && exists r :: RecordOf(r, c, o) && d.runs == Appended(c.runs, r)
                 && r.offset == |Flatten(before)| && r.bytes == |Flatten(frames)| && r.frames == |frames|
                 && r.seconds == FrameSeconds(frames)
  {
    hide IsPartialFrame, TailRepair.Trimmed, TailRepair.TrimIsSafe, FeedAll, BytesOf, OneRun, Appended, IsFrame,
      CountFrames, SumSeconds, Flatten;
    var d, output := OneRun(c, o), Flatten(frames) + partial;
    OneRunIsFaithful(c, o);
    FedExactly(o, frames, partial);
    assert output[..|output|] == output;
    assert d.file == Flatten(before) + output;
    FlattenAppend(before, frames);
    Associate(Flatten(before), Flatten(frames), partial);
    AllFramesAppend(before, frames);
    TailRepair.TrimIsExactWhenSafe(before + frames, partial);
    var r :| RecordOf(r, c, o) && d.runs == Appended(c.runs, r);
    assert r.bytes == |Flatten(frames)|;
  }

  lemma AllFramesAppend(a: seq<seq<Byte>>, b: seq<seq<Byte>>)
    requires TailRepair.AllFrames(a) && TailRepair.AllFrames(b)
    ensures TailRepair.AllFrames(a + b)
  {
    hide IsFrame;
  }

  // ---------------------------------------------------------------------------------------------------------------
  // Any number of runs
  // ---------------------------------------------------------------------------------------------------------------

  /** All runs of a capture, the tail trimmed in front of every run but the first. */
  function AllRuns(c: Cap, outputs: seq<Output>): (c': Cap)
  {
    if outputs == [] then c
    else
      var init := outputs[..|outputs| - 1];
      OneRun(if init == [] then c else Trim(AllRuns(c, init)), outputs[|outputs| - 1])
  }

  function Trim(c: Cap): (c': Cap)
  {
    c.(file := TailRepair.Trimmed(c.file))
  }

  function OutputBytes(outputs: seq<Output>): (n: nat)
  {
    if outputs == [] then 0
    else OutputBytes(outputs[..|outputs| - 1]) + |Flatten(Chunks(outputs[|outputs| - 1].arrivals))|
  }

  /** Every run produced its whole frames and a prefix of another. */
  ghost predicate AllProduced(outputs: seq<Output>, frames: seq<seq<seq<Byte>>>, partials: seq<seq<Byte>>)
  {
    && |frames| == |partials| == |outputs|
    && (forall i :: 0 <= i < |outputs| ==> Produced(outputs[i], frames[i], partials[i]))
  }

  /** The repair behind each of these runs is safe. */
  ghost predicate AllSafe(frames: seq<seq<seq<Byte>>>, partials: seq<seq<Byte>>)
    requires |frames| == |partials|
  {
    forall i :: 0 <= i < |frames| ==> SafeAfter(frames, partials, i)
  }

  ghost predicate SafeAfter(frames: seq<seq<seq<Byte>>>, partials: seq<seq<Byte>>, i: nat)
    requires i < |frames| == |partials|
  {
    TailRepair.TrimIsSafe(Flatten(frames[..i + 1]), partials[i])
  }

  /** The records tile the whole frames of the file. */
  ghost predicate Accounted(runs: seq<Run>, frames: seq<seq<Byte>>)
  {
    && 0 < |runs| <= MAX_RUNS && Contiguous(runs)
    && runs[0].offset == 0 && runs[|runs| - 1].offset + runs[|runs| - 1].bytes == |Flatten(frames)|
    && TotalBytes(runs) == |Flatten(frames)| && TotalFrames(runs) == |frames|
    && TotalSeconds(runs) == FrameSeconds(frames)
  }

  /** Exact over any sequence of runs whose repairs are safe: after the last run's tail is trimmed the file is the
      concatenation of all whole frames, the records tile it without gap or overlap, and their bytes, frames and
      playback time add up to those of the file. */
  lemma {:induction false} CaptureIsExact(c: Cap, outputs: seq<Output>, frames: seq<seq<seq<Byte>>>,
                                          partials: seq<seq<Byte>>)
    requires c.file == [] && c.runs == [] && OutputBytes(outputs) <= c.room
    requires outputs != [] && AllProduced(outputs, frames, partials) && AllSafe(frames, partials)
    ensures var d, all := AllRuns(c, outputs), Flatten(frames);
            && TailRepair.Trimmed(d.file) == Flatten(all)
            && Accounted(d.runs, all)
            && !d.failed && d.room == c.room - OutputBytes(outputs)
            && TailRepair.AllFrames(all)
    decreases |outputs|
  {
    hide OneRun, TailRepair.Trimmed, TailRepair.TrimIsSafe, IsFrame, Accounted;
    var n := |outputs| - 1;
    assert frames[..n + 1] == frames;
    assert SafeAfter(frames, partials, n);
    if n > 0 {
      SafeBefore(frames, partials);
      CaptureIsExact(c, outputs[..n], frames[..n], partials[..n]);
    }
    LastRunIsExact(c, outputs, frames, partials);
  }

  lemma SafeBefore(frames: seq<seq<seq<Byte>>>, partials: seq<seq<Byte>>)
    requires |frames| == |partials| > 0 && AllSafe(frames, partials)
    ensures var n := |frames| - 1; AllSafe(frames[..n], partials[..n])
  {
    hide Flatten, TailRepair.TrimIsSafe;
    var n := |frames| - 1;
    forall i | 0 <= i < n
      ensures SafeAfter(frames[..n], partials[..n], i)
    {
      assert SafeAfter(frames, partials, i);
      assert frames[..n][..i + 1] == frames[..i + 1];
    }
  }

  /** The state before the last run, tail trimmed. */
  function BeforeLast(c: Cap, outputs: seq<Output>): (c': Cap)
    requires outputs != []
  {
    var init := outputs[..|outputs| - 1];
    if init == [] then c else Trim(AllRuns(c, init))
  }

  /** If the file was exact before the last run, it is after it exactly when that run's repair is safe; the records are
      in either case. */
  lemma LastRunIsExact(c: Cap, outputs: seq<Output>, frames: seq<seq<seq<Byte>>>, partials: seq<seq<Byte>>)
    requires outputs != [] && c.file == [] && c.runs == [] && OutputBytes(outputs) <= c.room
             && AllProduced(outputs, frames, partials)
    requires var n := |outputs| - 1;
             n > 0 ==> var d, all := AllRuns(c, outputs[..n]), Flatten(frames[..n]);
                       && TailRepair.Trimmed(d.file) == Flatten(all) && Accounted(d.runs, all)
                       && d.room == c.room - OutputBytes(outputs[..n]) && TailRepair.AllFrames(all)
    ensures var d, all := AllRuns(c, outputs), Flatten(frames);
            && (TailRepair.Trimmed(d.file) == Flatten(all) <==> TailRepair.TrimIsSafe(all, partials[|outputs| - 1]))
            && Accounted(d.runs, all)
            && !d.failed && d.room == c.room - OutputBytes(outputs)
            && TailRepair.AllFrames(all)
  {
    hide OneRun, TailRepair.Trimmed, TailRepair.TrimIsSafe, IsFrame, Appended, Contiguous, TotalBytes, TotalFrames,
      TotalSeconds,
      FrameSeconds, RecordOf;
    var n := |outputs| - 1;
    var init, o, fs := outputs[..n], outputs[n], frames[..n];
    var before := BeforeLast(c, outputs);
    assert frames == fs + [frames[n]];
    FlattenSnoc(fs, frames[n]);
    assert Produced(o, frames[n], partials[n]);
    if init == [] {
      assert Flatten(fs) == [];
    }
    OneRunIsExact(before, Flatten(fs), o, frames[n], partials[n]);
    var d := OneRun(before, o);
    var r :| RecordOf(r, before, o) && d.runs == Appended(before.runs, r)
             && r.offset == |Flatten(Flatten(fs))| && r.bytes == |Flatten(frames[n])| && r.frames == |frames[n]|
             && r.seconds == FrameSeconds(frames[n]);
    AllFramesAppend(Flatten(fs), frames[n]);
    AccountedSnoc(before.runs, Flatten(fs), r, frames[n]);
  }

  /** After each of the runs the trimmed file is exactly the whole frames so far. */
  ghost predicate ExactThroughout(c: Cap, outputs: seq<Output>, frames: seq<seq<seq<Byte>>>)
    requires |frames| == |outputs|
  {
    forall i :: 0 <= i < |outputs| ==> ExactAfter(c, outputs, frames, i)
  }

  ghost predicate ExactAfter(c: Cap, outputs: seq<Output>, frames: seq<seq<seq<Byte>>>, i: nat)
    requires i < |frames| == |outputs|
  {
    TailRepair.Trimmed(AllRuns(c, outputs[..i + 1]).file) == Flatten(Flatten(frames[..i + 1]))
  }

  /** A capture of any size stays exact through all its runs if and only if every repair is safe. */
  lemma {:induction false} CaptureStaysExact(c: Cap, outputs: seq<Output>, frames: seq<seq<seq<Byte>>>,
                                             partials: seq<seq<Byte>>)
    requires c.file == [] && c.runs == [] && OutputBytes(outputs) <= c.room
    requires AllProduced(outputs, frames, partials)
    ensures ExactThroughout(c, outputs, frames) <==> AllSafe(frames, partials)
    decreases |outputs|
  {
    hide OneRun, TailRepair.Trimmed, TailRepair.TrimIsSafe, IsFrame, Accounted, Produced, AllRuns, FrameSeconds;
    if outputs != [] {
      var n := |outputs| - 1;
      CaptureStaysExact(c, outputs[..n], frames[..n], partials[..n]);
      ThroughoutInit(c, outputs, frames, partials);
      assert outputs[..n + 1] == outputs && frames[..n + 1] == frames;
      if AllSafe(frames[..n], partials[..n]) {
        if n > 0 {
          CaptureIsExact(c, outputs[..n], frames[..n], partials[..n]);
        }
        LastRunIsExact(c, outputs, frames, partials);
        assert ExactAfter(c, outputs, frames, n) <==> SafeAfter(frames, partials, n);
      }
    }
  }

  lemma ThroughoutInit(c: Cap, outputs: seq<Output>, frames: seq<seq<seq<Byte>>>, partials: seq<seq<Byte>>)
    requires |outputs| == |frames| == |partials| > 0
    ensures var n := |outputs| - 1;
            && (ExactThroughout(c, outputs, frames) <==>
                  ExactThroughout(c, outputs[..n], frames[..n]) && ExactAfter(c, outputs, frames, n))
            && (AllSafe(frames, partials) <==> AllSafe(frames[..n], partials[..n]) && SafeAfter(frames, partials, n))
  {
    hide ExactAfter, SafeAfter, AllRuns;
    var n := |outputs| - 1;
    forall i | 0 <= i < n
      ensures ExactAfter(c, outputs[..n], frames[..n], i) == ExactAfter(c, outputs, frames, i)
    {
      SameAfter(c, outputs, frames, partials, i);
    }
    forall i | 0 <= i < n
      ensures SafeAfter(frames[..n], partials[..n], i) == SafeAfter(frames, partials, i)
    {
      SameAfter(c, outputs, frames, partials, i);
    }
  }

  lemma SameAfter(c: Cap, outputs: seq<Output>, frames: seq<seq<seq<Byte>>>, partials: seq<seq<Byte>>, i: nat)
    requires i + 1 < |outputs| == |frames| == |partials|
    ensures var n := |outputs| - 1;
            && ExactAfter(c, outputs[..n], frames[..n], i) == ExactAfter(c, outputs, frames, i)
            && SafeAfter(frames[..n], partials[..n], i) == SafeAfter(frames, partials, i)
  {
    hide AllRuns, TailRepair.Trimmed, TailRepair.TrimIsSafe;
    var n := |outputs| - 1;
    assert outputs[..n][..i + 1] == outputs[..i + 1] && frames[..n][..i + 1] == frames[..i + 1];
  }

  lemma AccountedSnoc(runs: seq<Run>, before: seq<seq<Byte>>, r: Run, frames: seq<seq<Byte>>)
    requires if runs == [] then before == [] else Accounted(runs, before)
    requires r.offset == |Flatten(before)| && r.bytes == |Flatten(frames)| && r.frames == |frames|
             && r.seconds == FrameSeconds(frames)
    ensures Accounted(Appended(runs, r), before + frames)
  {
    hide Appended, TotalBytes, TotalFrames, TotalSeconds, FrameSeconds;
    AppendedConserves(runs, r);
    FlattenAppend(before, frames);
    FrameSecondsAppend(before, frames);
    if runs == [] {
      NoRuns();
      assert Contiguous(runs + [r]);
      assert Appended(runs, r) == [r] by { OneRecord(r); }
    } else {
      assert Contiguous(runs + [r]);
    }
  }

  lemma NoRuns()
    ensures TotalBytes([]) == 0 && TotalFrames([]) == 0 && TotalSeconds([]) == 0.0 && FrameSeconds([]) == 0.0
  {
  }

  lemma OneRecord(r: Run)
    ensures Appended([], r) == [r]
  {
  }

  lemma {:induction false} FrameSecondsAppend(a: seq<seq<Byte>>, b: seq<seq<Byte>>)
    ensures FrameSeconds(a + b) == FrameSeconds(a) + FrameSeconds(b)
  {
    hide Seconds, IsFrame;
    if a == [] {
      assert a + b == b;
    } else {
      assert (a + b)[1..] == a[1..] + b;
      FrameSecondsAppend(a[1..], b);
    }
  }

  /** The capture loop of supervise around the given outputs of ffmpeg. */
  method RunAll(capture: Capture, outputs: seq<Output>)
    requires capture.Valid()
    modifies capture, capture.session, capture.splitter
    ensures capture.Valid() && capture.Value() == AllRuns(old(capture.Value()), outputs)
  {
    hide OneRun, TailRepair.Trimmed, Ended, Begun;
    var restart := false;
    for i := 0 to |outputs|
      invariant capture.Valid() && restart == (i > 0)
      invariant capture.Value() == AllRuns(old(capture.Value()), outputs[..i])
    {
      assert outputs[..i + 1][..i] == outputs[..i];
      if restart {
        capture.TrimTail();
      }
      RunOnce(capture, outputs[i]);
      restart := true;
    }
    assert outputs[..|outputs|] == outputs;
  }

  method RunOnce(capture: Capture, o: Output)
    requires capture.Valid()
    modifies capture, capture.session, capture.splitter
    ensures capture.Valid() && capture.Value() == OneRun(old(capture.Value()), o)
  {
    hide OnEvents, Drain, Ended, Begun;
    capture.BeginRun(o.begin, o.anchor, o.source, o.videoFile);
    ghost var begun := capture.Value();
    for i := 0 to |o.arrivals|
      invariant capture.Valid() && !capture.closed
      invariant capture.Value() == AfterWrites(begun, o.arrivals[..i])
      invariant var s := FeedAll(Chunks(o.arrivals[..i]));
                capture.splitter.buf == s.buf && capture.splitter.synced == s.synced
    {
      ghost var done := o.arrivals[..i];
      var _ := capture.Write(o.arrivals[i].bytes, o.arrivals[i].at);
      assert o.arrivals[..i + 1][..i] == done;
      ghost var chunks := Chunks(o.arrivals[..i + 1]);
      assert chunks[..i] == Chunks(done);
    }
    assert o.arrivals[..|o.arrivals|] == o.arrivals;
    capture.EndRun(o.end, o.tsKept);
  }
}
