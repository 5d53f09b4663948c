/** The frame-aware capture writer (internal/recorder/ffmpeg.go: captureWriter, writeRaw, beginRun, openRunRecord,
    endRun, trimTail): ffmpeg's output goes to the capture file verbatim while every run's byte range is recorded. */
module Capturing {
  import opened Bytes
  import opened AdtsHeader
  import opened SessionRecord
  import opened Splitting
  import TailRepair

  /** The capture as a value: the file, how many more bytes the disk takes, and the current run. */
  datatype Cap = Cap(file: seq<Byte>, room: nat, failed: bool, startedAt: int, anchor: int, anchorSource: string,
                     offset: int,
                     runBytes: int, frames: int, seconds: real, started: bool, videoFile: string, runs: seq<Run>)

  /** How many of n bytes a file write accepts: none after an error, else as many as there is room for. */
  function Accepted(room: nat, failed: bool, n: nat): (k: nat)
    ensures k <= n && (!failed ==> k <= room)
  {
    if failed then 0 else if n <= room then n else room
  }

  /** writeRaw on values. */
  function Put(c: Cap, b: seq<Byte>): (c': Cap)
  {
    var k := Accepted(c.room, c.failed, |b|);
    if c.failed then c
    else c.(file := c.file + b[..k], room := c.room - k, runBytes := c.runBytes + k, failed := k < |b|)
  }

  /** The record the first frame of a run opens. */
  function OpenRecord(c: Cap): (r: Run)
  {
    Run(c.startedAt, None, c.anchor, c.anchorSource, c.offset, 0, 0, 0.0, VideoFiles(c.videoFile))
  }

  function VideoFiles(name: string): (files: seq<string>)
  {
    if name != "" then [name] else []
  }

  /** onFrame's part before the write: the first frame stamps a wallclock anchor and opens the run's record. */
  function Start(c: Cap, now: int): (c': Cap)
  {
    if c.started then c
    else
      var s := c.(started := true, anchor := if c.anchorSource == "wallclock" then now else c.anchor);
      s.(runs := Appended(s.runs, OpenRecord(s)))
  }

  function OnEvent(c: Cap, e: Event, now: int): (c': Cap)
  {
    match e
    case JunkOut(b) => Put(c, b)
    case FrameOut(b, h) =>
      var w := Put(Start(c, now), b);
      w.(frames := w.frames + 1, seconds := w.seconds + Seconds(h.params))
  }

  function OnEvents(c: Cap, events: seq<Event>, now: int): (c': Cap)
  {
    if events == [] then c else OnEvent(OnEvents(c, events[..|events| - 1], now), events[|events| - 1], now)
  }

  class Capture {
    const session: Session
    const splitter: Splitter
    var file: seq<Byte>
    var room: nat
    var bytes: int
    var writeErr: bool
    var startedAt: int
    var anchor: int
    var anchorSource: string
    var offset: int
    var runBytes: int
    var runFrames: int
    var runSeconds: real
    var started: bool
    var closed: bool
    var videoFile: string

    ghost function Value(): (c: Cap)
      reads this, session
    {
      Cap(file, room, writeErr, startedAt, anchor, anchorSource, offset, runBytes, runFrames, runSeconds, started,
          videoFile, session.runs)
    }

    /** ar.bytes is the length of the file. */
    ghost predicate Valid()
      reads this
    {
      bytes == |file|
    }

    constructor (session: Session, room: nat)
      ensures this.session == session && fresh(splitter) && splitter.buf == [] && !splitter.synced
      ensures Valid() && file == [] && this.room == room && !writeErr && closed && !started
    {
      this.session := session;
      splitter := new Splitter();
      file, this.room, bytes, writeErr := [], room, 0, false;
      startedAt, anchor, anchorSource, offset, runBytes, runFrames, runSeconds := 0, 0, "wallclock", 0, 0, 0, 0.0;
      started, closed, videoFile := false, true, "";
    }

    method WriteRaw(b: seq<Byte>)
      requires Valid()
      modifies this`file, this`room, this`bytes, this`runBytes, this`writeErr
      ensures Valid() && Value() == Put(old(Value()), b)
    {
      if writeErr {
        return;
      }
      var n := if |b| <= room then |b| else room;
      file := file + b[..n];
      room := room - n;
      bytes := bytes + n;
      runBytes := runBytes + n;
      if n < |b| {
        writeErr := true;
      }
    }

    method OpenRunRecord()
      modifies session
      ensures session.runs == Appended(old(session.runs), OpenRecord(old(Value())))
    {
      var r := Run(startedAt, None, anchor, anchorSource, offset, 0, 0, 0.0, []);
      if videoFile != "" {
        r := r.(videoFiles := [videoFile]);
      }
      var _ := session.AppendRun(r);
    }

    method OnFrame(b: seq<Byte>, h: Header, now: int)
      requires Valid()
      modifies this, session
      ensures Valid() && Value() == OnEvent(old(Value()), FrameOut(b, h), now) && closed == old(closed)
    {
      hide Seconds, Appended;
      var first := !started;
      started := true;
      if first && anchorSource == "wallclock" {
        anchor := now;
      }
      if first {
        OpenRunRecord();
      }
      WriteRaw(b);
      runFrames := runFrames + 1;
      runSeconds := runSeconds + Seconds(h.params);
    }

    /** captureWriter.Write: whatever the splitter hands out goes to the file, in order. */
    method Write(p: seq<Byte>, now: int) returns (out: seq<Event>)
      requires Valid()
      modifies this, session, splitter
      ensures Valid() && closed == old(closed)
      ensures Drained(out, splitter.buf, splitter.synced) == Drain(old(splitter.buf) + p, old(splitter.synced), false)
      ensures Value() == OnEvents(old(Value()), out, now)
    {
      hide Drain, Appended, Seconds, OnEvent;
      out := splitter.Feed(p);
      for i := 0 to |out|
        invariant Valid() && closed == old(closed)
        invariant Drained(out, splitter.buf, splitter.synced) ==
                    Drain(old(splitter.buf) + p, old(splitter.synced), false)
        invariant Value() == OnEvents(old(Value()), out[..i], now)
      {
        assert out[..i + 1][..i] == out[..i];
        EventCases(Value(), out[i], now);
        match out[i] {
          case FrameOut(b, h) => OnFrame(b, h, now);
          case JunkOut(b) => WriteRaw(b);
        }
      }
      assert out[..|out|] == out;
    }

    /** endRun: closes the run's record with the bytes written before the undecided rest, which is then passed through
        to the file. `tsKept` says whether the run's TS file exists and holds something. */
    method EndRun(now: int, tsKept: bool)
      requires Valid()
      modifies this, session, splitter
      ensures Valid() && closed
      ensures old(closed) ==> Value() == old(Value()) && splitter.buf == old(splitter.buf)
      ensures !old(closed) ==>
                && Value() == Ended(old(Value()), Drain(old(splitter.buf), old(splitter.synced), true).events, now,
                                    tsKept)
                && splitter.buf == [] && !splitter.synced
    {
      hide Drain;
      if closed {
        return;
      }
      closed := true;
      var bytesBefore, framesBefore, secondsBefore := runBytes, runFrames, runSeconds;
      var flushed := FlushRest();
      var dropVideo := videoFile != "" && (!started || !tsKept);
      if !started || !session.HasOpenRun() {
        return;
      }
      var n := |session.runs| - 1;
      var r := session.runs[n];
      r := r.(endedAt := Some(now), bytes := bytesBefore, frames := framesBefore, seconds := secondsBefore);
      if dropVideo && |r.videoFiles| > 0 && r.videoFiles[|r.videoFiles| - 1] == videoFile {
        r := r.(videoFiles := r.videoFiles[..|r.videoFiles| - 1]);
      }
      session.runs := session.runs[n := r];
    }

    /** The splitter's undecided rest goes to the file. */
    method FlushRest() returns (events: seq<Event>)
      requires Valid()
      modifies this`file, this`room, this`bytes, this`runBytes, this`writeErr, splitter
      ensures Valid() && splitter.buf == [] && !splitter.synced
      ensures Value() == Put(old(Value()), BytesOf(Drain(old(splitter.buf), old(splitter.synced), true).events))
    {
      hide Drain;
      events := splitter.Flush();
      for i := 0 to |events|
        invariant Valid() && splitter.buf == [] && !splitter.synced
        invariant Value() == PutAll(old(Value()), events[..i])
      {
        assert events[..i + 1][..i] == events[..i];
        WriteRaw(events[i].bytes);
      }
      assert events[..|events|] == events;
      PutAllKeeps(old(Value()), events);
    }

    /** beginRun, with the outcome flags supervise clears for the upcoming run. */
    method BeginRun(now: int, anchor: int, source: string, videoFile: string)
      requires Valid()
      modifies this, splitter
      ensures Valid() && !closed && splitter.buf == [] && !splitter.synced
      ensures Value() == Begun(old(Value()), now, anchor, source, videoFile)
    {
      splitter.Reset();
      startedAt, this.anchor, anchorSource, offset := now, anchor, source, bytes;
      runBytes, runFrames, runSeconds, started, closed := 0, 0, 0.0, false, false;
      this.videoFile, writeErr := videoFile, false;
    }

    /** trimTail: between two runs. */
    method TrimTail()
      requires Valid()
      modifies this`file, this`bytes
      ensures Valid() && Value() == old(Value()).(file := TailRepair.Trimmed(old(file)))
    {
      hide TailRepair.Trimmed;
      var left, removed := TailRepair.TrimPartialTail(file);
      file := left;
      bytes := bytes - removed;
    }
  }

  lemma EventCases(c: Cap, e: Event, now: int)
    ensures e.JunkOut? ==> OnEvent(c, e, now) == Put(c, e.bytes)
  {
  }

  /** All events' bytes written, nothing counted: what the flush does. */
  function PutAll(c: Cap, events: seq<Event>): (c': Cap)
  {
    if events == [] then c else Put(PutAll(c, events[..|events| - 1]), events[|events| - 1].bytes)
  }

  lemma {:induction false} PutAllKeeps(c: Cap, events: seq<Event>)
    ensures PutAll(c, events) == Put(c, BytesOf(events))
    decreases |events|
  {
    if events == [] {
      assert c.file + [] == c.file;
    } else {
      var init, e := events[..|events| - 1], events[|events| - 1];
      PutAllKeeps(c, init);
      assert events == init + [e];
      LastBytes(init, e);
      PutInTwo(c, BytesOf(init), e.bytes);
    }
  }

  lemma LastBytes(init: seq<Event>, e: Event)
    ensures BytesOf(init + [e]) == BytesOf(init) + e.bytes
  {
    EventsAppend(init, [e], 0);
    assert [e][1..] == [];
    assert e.bytes + [] == e.bytes;
  }

  /** Two writes accept what one write of both would. */
  lemma PutInTwo(c: Cap, a: seq<Byte>, b: seq<Byte>)
    ensures Put(Put(c, a), b) == Put(c, a + b)
  {
    if !c.failed {
      var k := Accepted(c.room, false, |a|);
      var l := Accepted(c.room - k, k < |a|, |b|);
      assert a[..k] + b[..l] == (a + b)[..k + l];
      assert c.file + a[..k] + b[..l] == c.file + (a[..k] + b[..l]);
    }
  }

  /** The record of an ended run. */
  function ClosedRecord(r: Run, c: Cap, now: int, tsKept: bool): (r': Run)
  {
    var files :=
      if c.videoFile != "" && !tsKept && |r.videoFiles| > 0 && r.videoFiles[|r.videoFiles| - 1] == c.videoFile
                 then r.videoFiles[..|r.videoFiles| - 1] else r.videoFiles;
    r.(endedAt := Some(now), bytes := c.runBytes, frames := c.frames, seconds := c.seconds, videoFiles := files)
  }

  function Ended(c: Cap, flushed: seq<Event>, now: int, tsKept: bool): (c': Cap)
  {
    var w := Put(c, BytesOf(flushed));
    if !c.started || c.runs == [] || c.runs[|c.runs| - 1].endedAt.Some? then w
    else w.(runs := c.runs[|c.runs| - 1 := ClosedRecord(c.runs[|c.runs| - 1], c, now, tsKept)])
  }

  function Begun(c: Cap, now: int, anchor: int, source: string, videoFile: string): (c': Cap)
  {
    Cap(c.file, c.room, false, now, anchor, source, |c.file|, 0, 0, 0.0, false, videoFile, c.runs)
  }
}
