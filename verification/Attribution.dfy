/** Failure attribution of the capture supervisor (internal/recorder/ffmpeg.go: the outcome handling of supervise,
    resolveCodec, resolveVideo, disableVideoLocked, nextBackoff): which of video output, audio codec and source is to
    blame for a failed run. */
module Attribution {
  import opened Doubling

  datatype Codec = AutoCodec | Copy | Aac
  datatype VideoSource = Unresolved | NoVideo | CopyVideo | X264

  /** The first audio stream, as ffprobe reports it. */
  datatype Audio = NoAudio | Copyable | NeedsAac

  /** What ffprobe would answer this time: nothing (an error), or what audio and what video there is. */
  datatype Probe = ProbeFailed | Probed(audio: Audio, video: VideoSource, audioMap: string)

  /** Everything one ffmpeg run shows the supervisor. `videoLine` and `detail` are stderr lines, "" for none. */
  datatype Outcome = Outcome(probe: Probe, filePrepared: bool, bytes: nat, runErr: bool, writeErr: bool,
                             videoLine: string, detail: string,
                             copyRejected: bool, optionRejected: bool)

  /** What is remembered between runs of one source. `suspect` is "" while there is no suspicion. */
  datatype State = State(video: VideoSource, audioMap: string, captureError: bool, resolved: Codec,
                         failures: nat, trial: bool, failLine: string, suspect: string, copyFailures: nat,
                         safeArgs: bool)

  /** What is decided before the supervisor starts: nothing, an earlier session's decisions, or this session's own
      before a crash. */
  datatype Decided = Decided(codec: Codec, video: VideoSource, audioMap: string, captureError: bool)

  const NOTHING := Decided(AutoCodec, Unresolved, "", false)

  /** The session's settings: does it record video, which codec was asked for, and what is decided already. */
  datatype Setup = Setup(recordVideo: bool, requested: Codec, decided: Decided)

  /** Where a supervisor starts: with what is decided and clean counters. Video that was turned off is decided to be
      none. */
  function Fresh(setup: Setup): (st: State)
  {
    var d := setup.decided;
    State(if d.captureError then NoVideo else d.video, d.audioMap, d.captureError, d.codec, 0, false, "", "", 0, false)
  }

  // ---------------------------------------------------------------------------------------------------------------
  // One run
  // ---------------------------------------------------------------------------------------------------------------

  /** resolveCodec: the codec of this run; a decision is remembered, the stopgap after a failed probe is not. */
  function ResolveCodec(setup: Setup, st: State, probe: Probe): (r: (State, Codec))
    ensures r.1 != AutoCodec
  {
    if st.resolved != AutoCodec then (st, st.resolved)
    else if setup.requested != AutoCodec then (st.(resolved := setup.requested), setup.requested)
    else match probe
      case ProbeFailed => (st, Aac)
      case Probed(audio, _, _) =>
        if audio == NoAudio then (st, Aac)
        else
          var c := if audio == Copyable then Copy else Aac;
          (st.(resolved := c), c)
  }

  /** resolveVideo, likewise. */
  function ResolveVideo(setup: Setup, st: State, probe: Probe): (r: (State, VideoSource))
  {
    if !setup.recordVideo then (st, Unresolved)
    else if st.video != Unresolved then (st, st.video)
    else match probe
      case ProbeFailed => (st, Unresolved)
      case Probed(_, video, audioMap) =>
        if video == Unresolved then (st.(video := NoVideo), NoVideo)
        else (st.(video := video, audioMap := audioMap), video)
  }

  /** The run as it was started: its state, codec, whether it had a video output and with which audio map, whether it
      was the trial. */
  datatype Started = Started(st: State, codec: Codec, active: bool, audioMap: string, wasTrial: bool)

  function Start(setup: Setup, st: State, o: Outcome): (s: Started)
  {
    var (st1, codec) := ResolveCodec(setup, st, o.probe);
    var (st2, video) := ResolveVideo(setup, st1, o.probe);
    Started(st2.(trial := false), codec, (video == CopyVideo || video == X264) && !st.trial && o.filePrepared,
            st2.audioMap, st.trial)
  }

  lemma CodecIs(setup: Setup, st: State, probe: Probe)
    ensures var (t, codec) := ResolveCodec(setup, st, probe);
            && t == st.(resolved := t.resolved)
            && (st.resolved != AutoCodec ==> t.resolved == st.resolved)
            && (st.resolved == AutoCodec && setup.requested != AutoCodec ==> t.resolved == setup.requested)
            && (codec == Copy ==> t.resolved == Copy)
  {
  }

  lemma VideoIs(setup: Setup, st: State, probe: Probe)
    ensures var (t, video) := ResolveVideo(setup, st, probe);
            && t == st.(video := t.video, audioMap := t.audioMap)
            && (st.video != Unresolved ==> t.video == st.video)
            && (video != Unresolved ==> setup.recordVideo && t.video == video)
  {
  }

  /** What starting a run can change, and what it takes to have a video output or to copy. */
  lemma StartIs(setup: Setup, st: State, o: Outcome)
    ensures var s := Start(setup, st, o);
            && s.st == st.(resolved := s.st.resolved, video := s.st.video, audioMap := s.st.audioMap, trial := false)
            && s.wasTrial == st.trial && s.audioMap == s.st.audioMap
            && (st.video != Unresolved ==> s.st.video == st.video)
            && (s.active ==>
                  !st.trial && o.filePrepared && setup.recordVideo && (s.st.video == CopyVideo || s.st.video == X264))
            && (st.resolved != AutoCodec ==> s.st.resolved == st.resolved)
            && (st.resolved == AutoCodec && setup.requested != AutoCodec ==> s.st.resolved == setup.requested)
            && (s.codec == Copy ==> s.st.resolved == Copy)
  {
    hide ResolveCodec, ResolveVideo;
    CodecIs(setup, st, o.probe);
    VideoIs(setup, ResolveCodec(setup, st, o.probe).0, o.probe);
  }

  /** disableVideoLocked. */
  function Disabled(st: State): (st': State)
  {
    st.(video := NoVideo, audioMap := "", captureError := true, failures := 0, trial := false, failLine := "",
        suspect := "")
  }

  predicate VideoFault(s: Started, o: Outcome) {
    s.active && !o.writeErr && o.videoLine != "" && (o.runErr || o.bytes == 0)
  }

  /** The trial's verdict. */
  function AfterTrial(s: Started, o: Outcome): (st: State)
  {
    if !s.wasTrial || o.writeErr then s.st
    else
      s.st.(failures := 0,
            suspect := if o.bytes > 0 then (if s.st.failLine == "" then "-" else s.st.failLine) else s.st.suspect)
  }

  /** Who is to blame, once the trial is judged. */
  function Blame(setup: Setup, s: Started, t: State, o: Outcome): (st: State)
  {
    if o.bytes == 0 && !t.safeArgs && !o.writeErr && o.optionRejected then t.(safeArgs := true, copyFailures := 0)
    else if VideoFault(s, o) then
      var u := t.(suspect := "", failures := t.failures + 1, failLine := o.videoLine);
      if u.failures >= 2 then Disabled(u)
      else if s.audioMap != "" then u.(audioMap := "")
      else u
    else if s.codec == Copy && o.bytes == 0 && !o.writeErr && o.copyRejected then
      var u := t.(copyFailures := t.copyFailures + 1);
      if setup.requested != Copy && u.copyFailures >= 2 then u.(resolved := Aac) else u
    else if s.active && o.bytes == 0 && !o.writeErr then
      if t.suspect != "" then Disabled(t)
      else
        var u := t.(failures := t.failures + 1, failLine := o.detail);
        if u.failures >= 2 then u.(trial := true) else u
    else if o.bytes > 0 then
      t.(copyFailures := 0, failures := if s.wasTrial then t.failures else 0,
         suspect := if s.active then "" else t.suspect)
    else t
  }

  function Step(setup: Setup, st: State, o: Outcome): (st': State)
  {
    var s := Start(setup, st, o);
    Blame(setup, s, AfterTrial(s, o), o)
  }

  /** The supervisor's fields, updated run by run. */
  class Supervisor {
    const setup: Setup
    var videoSource: VideoSource
    var videoAudioMap: string
    var videoCaptureError: bool
    var resolvedCodec: Codec
    var videoFailures: nat
    var videoTrial: bool
    var videoFailLine: string
    var videoSuspect: string
    var copyFailures: nat
    var safeArgs: bool

    function Value(): (st: State)
      reads this
    {
      State(videoSource, videoAudioMap, videoCaptureError, resolvedCodec, videoFailures, videoTrial, videoFailLine,
            videoSuspect,
            copyFailures, safeArgs)
    }

    constructor (setup: Setup)
      ensures this.setup == setup && Value() == Fresh(setup)
    {
      this.setup := setup;
      videoSource := if setup.decided.captureError then NoVideo else setup.decided.video;
      videoAudioMap, videoCaptureError, resolvedCodec :=
        setup.decided.audioMap, setup.decided.captureError, setup.decided.codec;
      videoFailures, videoTrial, videoFailLine, videoSuspect, copyFailures, safeArgs := 0, false, "", "", 0, false;
    }

    method DisableVideo()
      modifies this
      ensures Value() == Disabled(old(Value()))
    {
      videoSource, videoAudioMap, videoCaptureError := NoVideo, "", true;
      videoFailures, videoTrial, videoFailLine, videoSuspect := 0, false, "", "";
    }

    /** Before the run: resolve codec and video, decide on the video output, take the trial flag down. */
    method Prepare(o: Outcome) returns (s: Started)
      modifies this
      ensures s == Start(setup, old(Value()), o) && Value() == s.st && s.audioMap == videoAudioMap
    {
      var codec := resolvedCodec;
      if resolvedCodec == AutoCodec {
        if setup.requested != AutoCodec {
          codec := setup.requested;
          resolvedCodec := codec;
        } else if o.probe.ProbeFailed? || o.probe.audio == NoAudio {
          codec := Aac;
        } else {
          codec := if o.probe.audio == Copyable then Copy else Aac;
          resolvedCodec := codec;
        }
      }
      var source := Unresolved;
      if setup.recordVideo {
        source := videoSource;
        if videoSource == Unresolved && o.probe.Probed? {
          source := if o.probe.video == Unresolved then NoVideo else o.probe.video;
          videoSource := source;
          videoAudioMap := if o.probe.video == Unresolved then videoAudioMap else o.probe.audioMap;
        }
      }
      var active := false;
      if (source == CopyVideo || source == X264) && !videoTrial {
        active := o.filePrepared;
      }
      var trial := videoTrial;
      videoTrial := false;
      s := Started(Value(), codec, active, videoAudioMap, trial);
    }

    /** A run without video decides nothing by itself: audio only raises the suspicion. */
    method JudgeTrial(s: Started, o: Outcome)
      requires Value() == s.st
      modifies this
      ensures Value() == AfterTrial(s, o) && videoAudioMap == old(videoAudioMap)
    {
      if s.wasTrial && !o.writeErr {
        if o.bytes > 0 {
          videoSuspect := videoFailLine;
          if videoSuspect == "" {
            videoSuspect := "-";
          }
        }
        videoFailures := 0;
      }
    }

    /** One iteration of supervise up to its wait. */
    method Account(o: Outcome)
      modifies this
      ensures Value() == Step(setup, old(Value()), o)
    {
      hide Start, AfterTrial, Blame;
      var s := Prepare(o);
      JudgeTrial(s, o);
      Attribute(s, o);
    }

    /** The chain of verdicts. */
    method Attribute(s: Started, o: Outcome)
      requires videoAudioMap == s.audioMap
      modifies this
      ensures Value() == Blame(setup, s, old(Value()), o)
    {
      var videoFault := s.active && !o.writeErr && o.videoLine != "" && (o.runErr || o.bytes == 0);
      if o.bytes == 0 && !safeArgs && !o.writeErr && o.optionRejected {
        safeArgs := true;
        copyFailures := 0;
      } else if videoFault {
        videoSuspect := "";
        videoFailures := videoFailures + 1;
        videoFailLine := o.videoLine;
        if videoFailures >= 2 {
          DisableVideo();
        } else if s.audioMap != "" && videoAudioMap == s.audioMap {
          videoAudioMap := "";
        }
      } else if s.codec == Copy && o.bytes == 0 && !o.writeErr && o.copyRejected {
        copyFailures := copyFailures + 1;
        if setup.requested != Copy && copyFailures >= 2 {
          resolvedCodec := Aac;
        }
      } else if s.active && o.bytes == 0 && !o.writeErr {
        if videoSuspect != "" {
          DisableVideo();
        } else {
          videoFailures := videoFailures + 1;
          videoFailLine := o.detail;
          if videoFailures >= 2 {
            videoTrial := true;
          }
        }
      } else if o.bytes > 0 {
        copyFailures := 0;
        if !s.wasTrial {
          videoFailures := 0;
        }
        if s.active && videoSuspect != "" {
          videoSuspect := "";
        }
      }
    }
  }

  // ---------------------------------------------------------------------------------------------------------------
  // All traces
  // ---------------------------------------------------------------------------------------------------------------

  /** The state after a trace of runs of one source. */
  function After(setup: Setup, runs: seq<Outcome>): (st: State)
  {
    if runs == [] then Fresh(setup) else Step(setup, After(setup, runs[..|runs| - 1]), runs[|runs| - 1])
  }

  lemma AfterSnoc(setup: Setup, runs: seq<Outcome>, o: Outcome)
    ensures After(setup, runs + [o]) == Step(setup, After(setup, runs), o)
  {
    hide Step;
    assert (runs + [o])[..|runs|] == runs;
  }

  /** Run i as it was started. */
  function RunAt(setup: Setup, runs: seq<Outcome>, i: nat): (s: Started)
    requires i < |runs|
  {
    Start(setup, After(setup, runs[..i]), runs[i])
  }

  /** A run with a video output that produced no audio, or died with one of the video output's own error lines. */
  predicate FailedWithVideo(s: Started, o: Outcome) {
    s.active && !o.writeErr && (o.bytes == 0 || (o.videoLine != "" && o.runErr))
  }

  function VideoFailures(setup: Setup, runs: seq<Outcome>): (n: nat)
  {
    if runs == [] then 0
    else
      var n := |runs| - 1;
      VideoFailures(setup, runs[..n]) +
      if FailedWithVideo(Start(setup, After(setup, runs[..n]), runs[n]), runs[n]) then 1 else 0
  }

  /** Run i turned video off. */
  predicate TurnsVideoOff(setup: Setup, runs: seq<Outcome>, i: nat)
    requires i < |runs|
  {
    !After(setup, runs[..i]).captureError && After(setup, runs[..i + 1]).captureError
  }

  /** The counters of a state never claim more than n failed runs; a trial and a suspicion take two. */
  predicate Earned(st: State, n: nat) {
    && st.failures <= n && (st.trial || st.suspect != "" ==> n >= 2)
    && (st.trial ==> st.failures >= 2) && (st.captureError ==> st.video == NoVideo)
  }

  lemma StepEarns(setup: Setup, st: State, o: Outcome, n: nat)
    requires Earned(st, n)
    ensures Earned(Step(setup, st, o), n + if FailedWithVideo(Start(setup, st, o), o) then 1 else 0)
    ensures Step(setup, st, o).captureError && !st.captureError ==> FailedWithVideo(Start(setup, st, o), o) && n >= 1
  {
    hide Start;
    StartIs(setup, st, o);
  }

  lemma {:induction false} CountersAreEarned(setup: Setup, runs: seq<Outcome>)
    ensures Earned(After(setup, runs), VideoFailures(setup, runs))
    decreases |runs|
  {
    if runs != [] {
      hide Step, Start, Earned;
      var n := |runs| - 1;
      CountersAreEarned(setup, runs[..n]);
      StepEarns(setup, After(setup, runs[..n]), runs[n], VideoFailures(setup, runs[..n]));
    }
  }

  /** Video is only turned off by a run that failed with an active video output, and not before the second such run. */
  lemma VideoOffIsEarned(setup: Setup, runs: seq<Outcome>, i: nat)
    requires i < |runs| && TurnsVideoOff(setup, runs, i)
    ensures FailedWithVideo(RunAt(setup, runs, i), runs[i])
    ensures VideoFailures(setup, runs[..i + 1]) >= 2
  {
    hide Step, Start, FailedWithVideo;
    CountersAreEarned(setup, runs[..i]);
    StepEarns(setup, After(setup, runs[..i]), runs[i], VideoFailures(setup, runs[..i]));
    assert runs[..i + 1][..i] == runs[..i];
  }

  lemma StepStaysOff(setup: Setup, st: State, o: Outcome)
    requires st.captureError && st.video == NoVideo
    ensures Step(setup, st, o).captureError && Step(setup, st, o).video == NoVideo && !Start(setup, st, o).active
  {
    hide Start;
    StartIs(setup, st, o);
  }

  /** Once off, video stays off for this source, and no later run has a video output. */
  lemma {:induction false} OffIsFinal(setup: Setup, runs: seq<Outcome>, more: seq<Outcome>, next: Outcome)
    requires After(setup, runs).captureError
    ensures After(setup, runs + more).captureError && After(setup, runs + more).video == NoVideo
    ensures !Start(setup, After(setup, runs + more), next).active
    decreases |more|
  {
    hide Step, Start, After;
    if more == [] {
      CountersAreEarned(setup, runs);
      assert runs + more == runs;
    } else {
      var n := |more| - 1;
      OffIsFinal(setup, runs, more[..n], next);
      StepStaysOff(setup, After(setup, runs + more[..n]), more[n]);
      AfterSnoc(setup, runs + more[..n], more[n]);
      assert runs + more == runs + more[..n] + [more[n]];
    }
    StepStaysOff(setup, After(setup, runs + more), next);
  }

  lemma StepOutage(setup: Setup, st: State, o: Outcome)
    requires st.suspect == "" && !st.captureError && o.bytes == 0 && o.videoLine == ""
    ensures Step(setup, st, o).suspect == "" && !Step(setup, st, o).captureError
  {
    hide Start;
    StartIs(setup, st, o);
  }

  /** An outage, every run empty and no line of the video output, never turns video off, however long it lasts and
      whatever came before, as long as nothing is suspected when it begins. */
  lemma {:induction false} OutageKeepsVideo(setup: Setup, before: seq<Outcome>, runs: seq<Outcome>)
    requires After(setup, before).suspect == "" && !After(setup, before).captureError
    requires forall i :: 0 <= i < |runs| ==> runs[i].bytes == 0 && runs[i].videoLine == ""
    ensures After(setup, before + runs).suspect == "" && !After(setup, before + runs).captureError
    decreases |runs|
  {
    hide Step, After;
    if runs == [] {
      assert before + runs == before;
    } else {
      var n := |runs| - 1;
      OutageKeepsVideo(setup, before, runs[..n]);
      StepOutage(setup, After(setup, before + runs[..n]), runs[n]);
      AfterSnoc(setup, before + runs[..n], runs[n]);
      assert before + runs == before + runs[..n] + [runs[n]];
    }
  }

  /** Empty for want of a source, with nothing in it that blames anybody. */
  predicate Outage(o: Outcome) {
    o.bytes == 0 && o.videoLine == "" && !o.writeErr && !o.optionRejected && !o.copyRejected
  }

  /** Run i of these has a video output. */
  predicate WithVideo(setup: Setup, before: seq<Outcome>, runs: seq<Outcome>, i: nat) {
    i < |runs| && Start(setup, After(setup, before + runs[..i]), runs[i]).active
  }

  lemma OutageStep(setup: Setup, st: State, o: Outcome)
    requires !st.captureError && Outage(o)
    ensures var st' := Step(setup, st, o);
            && (st'.captureError <==> st.suspect != "" && Start(setup, st, o).active)
            && (!st'.captureError ==> st'.suspect == st.suspect)
  {
    hide Start;
    StartIs(setup, st, o);
  }

  /** An outage turns video off exactly when it begins under suspicion, a trial having just produced audio, and has a
      run with video: the first of those is taken for the proof of a video fault. */
  lemma {:induction false} OutageExactly(setup: Setup, before: seq<Outcome>, runs: seq<Outcome>)
    requires !After(setup, before).captureError && forall i :: 0 <= i < |runs| ==> Outage(runs[i])
    ensures After(setup, before + runs).captureError <==>
              After(setup, before).suspect != "" && exists i: nat :: WithVideo(setup, before, runs, i)
    ensures !After(setup, before + runs).captureError ==>
              After(setup, before + runs).suspect == After(setup, before).suspect
    decreases |runs|
  {
    hide Step, Start, After, Outage;
    if runs == [] {
      assert before + runs == before;
    } else {
      var n := |runs| - 1;
      var st := After(setup, before + runs[..n]);
      OutageExactly(setup, before, runs[..n]);
      AfterSnoc(setup, before + runs[..n], runs[n]);
      assert before + runs == before + runs[..n] + [runs[n]];
      assert forall i: nat :: i <= n ==> runs[..n][..i] == runs[..i];
      assert forall i: nat :: WithVideo(setup, before, runs, i) <==>
               WithVideo(setup, before, runs[..n], i) || (i == n && WithVideo(setup, before, runs, n));
      if st.captureError {
        OffIsFinal(setup, before + runs[..n], [runs[n]], runs[n]);
      } else {
        OutageStep(setup, st, runs[n]);
        assert WithVideo(setup, before, runs, n) <==> Start(setup, st, runs[n]).active;
      }
    }
  }

  /** A video fault: exactly the runs with a video output are empty, with no line that blames the codec or an option. */
  predicate EmptiesVideoRuns(s: Started, o: Outcome) {
    && !o.writeErr && !o.optionRejected && !o.copyRejected && o.filePrepared && o.probe.Probed?
    && (o.probe.video == CopyVideo || o.probe.video == X264)
    && (o.bytes == 0 <==> s.active)
  }

  /** While video is not off, every run but a trial has a video output. */
  lemma ActiveUnlessTrial(setup: Setup, st: State, o: Outcome)
    requires setup.recordVideo && st.video != NoVideo && EmptiesVideoRuns(Start(setup, st, o), o)
    ensures var s := Start(setup, st, o); s.active == !st.trial && s.st.video != NoVideo
  {
    hide ResolveCodec;
    CodecIs(setup, st, o.probe);
  }

  /** Every one of these runs is emptied exactly when it has a video output. */
  predicate Faulty(setup: Setup, before: seq<Outcome>, runs: seq<Outcome>) {
    forall i :: 0 <= i < |runs| ==> EmptiesVideoRuns(Start(setup, After(setup, before + runs[..i]), runs[i]), runs[i])
  }

  /** A fault that names itself on stderr is recognised by its second run. */
  lemma NamedFaultIsFoundTwice(setup: Setup, st: State, first: Outcome, second: Outcome)
    requires !st.captureError
    requires VideoFault(Start(setup, st, first), first) && (first.bytes > 0 || !first.optionRejected)
    requires var st1 := Step(setup, st, first);
             st1.captureError
             || (VideoFault(Start(setup, st1, second), second) && (second.bytes > 0 || !second.optionRejected))
    ensures var st1 := Step(setup, st, first); st1.captureError || Step(setup, st1, second).captureError
  {
    hide Start;
    StartIs(setup, st, first);
    StartIs(setup, Step(setup, st, first), second);
  }

  /** No failure outstanding. */
  predicate Clean(st: State) {
    !st.captureError && !st.trial && st.suspect == "" && st.failures == 0
  }

  /** What one faulty run does to the bookkeeping; `named`: it had a line of the video output. */
  lemma FaultyStep(setup: Setup, st: State, o: Outcome)
    requires setup.recordVideo && !st.captureError && st.video != NoVideo
    requires EmptiesVideoRuns(Start(setup, st, o), o)
    ensures var st', named := Step(setup, st, o), o.videoLine != "";
            && (st'.captureError <==> !st.trial && (if named then st.failures >= 1 else st.suspect != ""))
            && (!st'.captureError ==>
                  && st'.video != NoVideo
                  && st'.failures == (if st.trial then 0 else st.failures + 1)
                  && (st'.trial <==> !st.trial && !named && st.failures >= 1)
                  && (st'.suspect == "" <==> !st.trial))
  {
    hide Start;
    StartIs(setup, st, o);
    ActiveUnlessTrial(setup, st, o);
  }

  /** Which lines in the first four runs of a fault turn video off by the fourth, by what the supervisor suspects when
      it begins: during a trial, under a suspicion, after a failure, or with none of these. */
  predicate FoundByTheFourth(st: State, named: seq<bool>)
    requires |named| == 4
  {
    if st.trial then !named[1] || named[2]
    else if st.suspect != "" then st.failures >= 1 || !named[0] || named[1] || !named[3]
    else if st.failures >= 1 then named[0] || !named[2] || named[3]
    else named[1] || !named[3]
  }

  /** Off stays off, and a run that does not turn it off does what FaultyStep says. */
  lemma FaultyNext(setup: Setup, before: seq<Outcome>, runs: seq<Outcome>, i: nat)
    requires setup.recordVideo && Faulty(setup, before, runs) && i < |runs|
    requires var st := After(setup, before + runs[..i]); st.captureError || st.video != NoVideo
    ensures var st, st' := After(setup, before + runs[..i]), After(setup, before + runs[..i + 1]);
            var named := runs[i].videoLine != "";
            && (st'.captureError <==>
                  st.captureError || (!st.trial && (if named then st.failures >= 1 else st.suspect != "")))
            && (!st'.captureError ==>
                  && st'.video != NoVideo
                  && st'.failures == (if st.trial then 0 else st.failures + 1)
                  && (st'.trial <==> !st.trial && !named && st.failures >= 1)
                  && (st'.suspect == "" <==> !st.trial))
  {
    hide Step, Start, EmptiesVideoRuns, After;
    var st := After(setup, before + runs[..i]);
    AfterSnoc(setup, before + runs[..i], runs[i]);
    assert before + runs[..i + 1] == before + runs[..i] + [runs[i]];
    if st.captureError {
      OffIsFinal(setup, before + runs[..i], [runs[i]], runs[i]);
    } else {
      FaultyStep(setup, st, runs[i]);
    }
  }

  /** Four faulty runs after any history, lines allowed: video is off after them exactly when the lines are as
      FoundByTheFourth says. From a clean state that is a line in the second run or none in the fourth: a line in the
      deciding fourth run clears the suspicion and starts the count over. */
  lemma FourthRunExactly(setup: Setup, before: seq<Outcome>, runs: seq<Outcome>)
    requires setup.recordVideo && After(setup, before).video != NoVideo && |runs| >= 4
    requires Faulty(setup, before, runs)
    ensures After(setup, before + runs[..4]).captureError <==>
              FoundByTheFourth(After(setup, before), seq(4, i requires 0 <= i < 4 => runs[i].videoLine != ""))
  {
    hide Step, Start, EmptiesVideoRuns, After, Faulty;
    CountersAreEarned(setup, before);
    assert before + runs[..0] == before;
    FaultyNext(setup, before, runs, 0);
    FaultyNext(setup, before, runs, 1);
    FaultyNext(setup, before, runs, 2);
    FaultyNext(setup, before, runs, 3);
  }

  /** A fault that names nothing turns video off by its fourth run, whatever happened before it. */
  lemma SilentFaultIsFoundByTheFourthRun(setup: Setup, before: seq<Outcome>, runs: seq<Outcome>)
    requires setup.recordVideo && After(setup, before).video != NoVideo && |runs| >= 4
    requires Faulty(setup, before, runs) && forall i :: 0 <= i < |runs| ==> runs[i].videoLine == ""
    ensures After(setup, before + runs[..4]).captureError
  {
    hide After, Faulty;
    FourthRunExactly(setup, before, runs);
  }

  /** One run of a fault that alternates between naming itself and not. */
  function FaultyRun(active: bool, named: bool): (o: Outcome)
  {
    Outcome(Probed(Copyable, CopyVideo, ""), true, if active then 0 else 1, true, false, if named then "x" else "",
            "", false, false)
  }

  /** A silent failure, then cycles of: silent failure, trial with audio, failure with a line. */
  function Evasive(cycles: nat): (runs: seq<Outcome>)
  {
    if cycles == 0 then [FaultyRun(true, false)]
    else Evasive(cycles - 1) + [FaultyRun(true, false)] + [FaultyRun(false, false)] + [FaultyRun(true, true)]
  }

  /** So not every fault that empties exactly the runs with video is found: this one never is, however long it lasts. */
  lemma {:induction false} EvasiveFaultIsNeverFound(cycles: nat)
    ensures AtFirstFailure(After(Setup(true, Copy, NOTHING), Evasive(cycles)))
    ensures Faulty(Setup(true, Copy, NOTHING), [], Evasive(cycles))
  {
    hide Step, Start, EmptiesVideoRuns, After;
    var setup := Setup(true, Copy, NOTHING);
    var quiet := FaultyRun(true, false);
    if cycles == 0 {
      EvasiveStart();
      FaultyExtend(setup, [], quiet);
      assert [] + [quiet] == Evasive(0);
    } else {
      var a := Evasive(cycles - 1);
      EvasiveFaultIsNeverFound(cycles - 1);
      EvasiveCycle(After(setup, a));
      FaultyExtend(setup, a, quiet);
      FaultyExtend(setup, a + [quiet], FaultyRun(false, false));
      FaultyExtend(setup, a + [quiet] + [FaultyRun(false, false)], FaultyRun(true, true));
    }
  }

  /** One failure counted, video on, nothing suspected. */
  predicate AtFirstFailure(st: State) {
    && st.video == CopyVideo && !st.captureError && st.resolved == Copy
    && st.failures == 1 && !st.trial && st.suspect == "" && st.audioMap == ""
  }

  lemma EvasiveStart()
    ensures var setup := Setup(true, Copy, NOTHING);
            && After(setup, []) == Fresh(setup)
            && AtFirstFailure(Step(setup, Fresh(setup), FaultyRun(true, false)))
            && EmptiesVideoRuns(Start(setup, Fresh(setup), FaultyRun(true, false)), FaultyRun(true, false))
  {
    assert After(Setup(true, Copy, NOTHING), []) == Fresh(Setup(true, Copy, NOTHING));
  }

  lemma EvasiveCycle(st: State)
    requires AtFirstFailure(st)
    ensures var setup := Setup(true, Copy, NOTHING);
            var quiet, trial, named := FaultyRun(true, false), FaultyRun(false, false), FaultyRun(true, true);
            var st1 := Step(setup, st, quiet);
            var st2 := Step(setup, st1, trial);
            && EmptiesVideoRuns(Start(setup, st, quiet), quiet)
            && EmptiesVideoRuns(Start(setup, st1, trial), trial)
            && EmptiesVideoRuns(Start(setup, st2, named), named)
            && AtFirstFailure(Step(setup, st2, named))
  {
    var setup := Setup(true, Copy, NOTHING);
    var quiet, trial, named := FaultyRun(true, false), FaultyRun(false, false), FaultyRun(true, true);
    var st1 := Step(setup, st, quiet);
    assert st1.trial && st1.failures == 2 && st1.suspect == "" && st1.video == CopyVideo && !st1.captureError;
    var st2 := Step(setup, st1, trial);
    assert !st2.trial && st2.failures == 0 && st2.suspect != "" && st2.video == CopyVideo && !st2.captureError;
  }

  lemma FaultyExtend(setup: Setup, runs: seq<Outcome>, o: Outcome)
    requires Faulty(setup, [], runs) && EmptiesVideoRuns(Start(setup, After(setup, runs), o), o)
    ensures Faulty(setup, [], runs + [o]) && After(setup, runs + [o]) == Step(setup, After(setup, runs), o)
  {
    hide Step, Start, EmptiesVideoRuns, After;
    AfterSnoc(setup, runs, o);
    forall i | 0 <= i < |runs + [o]|
      ensures EmptiesVideoRuns(Start(setup, After(setup, [] + (runs + [o])[..i]), (runs + [o])[i]), (runs + [o])[i])
    {
      if i < |runs| {
        assert [] + (runs + [o])[..i] == [] + runs[..i];
      } else {
        assert [] + (runs + [o])[..i] == runs;
      }
    }
  }

  /** A full disk is no verdict: a trial whose output could not be written leaves the failures counted and the suspicion
      as it was. */
  lemma DiskErrorIsNoVerdict(setup: Setup, st: State, o: Outcome)
    requires o.writeErr && st.trial
    ensures var st' := Step(setup, st, o);
            && st'.failures == st.failures && st'.suspect == st.suspect && st'.captureError == st.captureError
            && st'.safeArgs == st.safeArgs && !st'.trial
  {
    hide Start;
    StartIs(setup, st, o);
  }

  /** What a suspicion says is what the failing run before the trial said, "-" if that was nothing. */
  lemma SuspicionQuotesTheFailure(setup: Setup, st: State, failing: Outcome, trial: Outcome)
    requires var st1 := Step(setup, st, failing); !st.trial && st1.trial
    requires trial.bytes > 0 && !trial.writeErr
    ensures var st2 := Step(setup, Step(setup, st, failing), trial);
            st2.suspect == if failing.detail == "" then "-" else failing.detail
  {
    hide Start;
    StartIs(setup, st, failing);
    StartIs(setup, Step(setup, st, failing), trial);
  }

  /** The minimal command line stays, once chosen. */
  lemma {:induction false} SafeArgsStay(setup: Setup, runs: seq<Outcome>, i: nat, j: nat)
    requires i <= j <= |runs| && After(setup, runs[..i]).safeArgs
    ensures After(setup, runs[..j]).safeArgs
    decreases j
  {
    hide Step, After;
    if i < j {
      SafeArgsStay(setup, runs, i, j - 1);
      AfterNext(setup, runs, j - 1);
      SafeArgsStep(setup, After(setup, runs[..j - 1]), runs[j - 1]);
    }
  }

  lemma SafeArgsStep(setup: Setup, st: State, o: Outcome)
    ensures Step(setup, st, o).safeArgs == (st.safeArgs || OptionRetry(st, o))
  {
    hide Start;
    StartIs(setup, st, o);
  }

  /** An optional option is blamed at most once: after that ffmpeg runs without. */
  lemma OptionIsBlamedOnce(setup: Setup, runs: seq<Outcome>, i: nat, j: nat)
    requires i < j < |runs| && OptionRetry(After(setup, runs[..i]), runs[i])
    ensures !OptionRetry(After(setup, runs[..j]), runs[j])
  {
    hide Step, After;
    AfterNext(setup, runs, i);
    SafeArgsStep(setup, After(setup, runs[..i]), runs[i]);
    SafeArgsStay(setup, runs, i + 1, j);
  }

  /** Audio with the video output clears every suspicion, so an outage that ends keeps its video. */
  lemma AudioWithVideoClears(setup: Setup, st: State, o: Outcome)
    requires Start(setup, st, o).active && o.bytes > 0 && (o.videoLine == "" || !o.runErr) && !st.captureError
    ensures Clean(Step(setup, st, o)) && Step(setup, st, o).video == Start(setup, st, o).st.video
  {
    hide Start;
    StartIs(setup, st, o);
  }

  // ---------------------------------------------------------------------------------------------------------------
  // The audio codec
  // ---------------------------------------------------------------------------------------------------------------

  /** Run i changed the session from copying to transcoding. */
  predicate FallsBack(setup: Setup, runs: seq<Outcome>, i: nat)
    requires i < |runs|
  {
    RunAt(setup, runs, i).codec == Copy && After(setup, runs[..i + 1]).resolved == Aac
  }

  /** The muxer rejected the copied stream. */
  predicate Rejected(s: Started, o: Outcome) {
    s.codec == Copy && o.bytes == 0 && !o.writeErr && o.copyRejected
  }

  /** All copy-rejected runs of the trace. */
  function Rejections(setup: Setup, runs: seq<Outcome>): (n: nat)
  {
    if runs == [] then 0
    else
      var n := |runs| - 1;
      Rejections(setup, runs[..n]) + if Rejected(Start(setup, After(setup, runs[..n]), runs[n]), runs[n]) then 1 else 0
  }

  lemma StepCodec(setup: Setup, st: State, o: Outcome, n: nat)
    requires st.copyFailures <= n
    ensures var s, st' := Start(setup, st, o), Step(setup, st, o);
            var n' := n + if Rejected(s, o) then 1 else 0;
            && st'.copyFailures <= n'
            && (s.codec == Copy && st'.resolved == Aac ==> Rejected(s, o) && n' >= 2 && setup.requested != Copy)
  {
    hide Start;
    StartIs(setup, st, o);
  }

  lemma {:induction false} CopyFailuresCount(setup: Setup, runs: seq<Outcome>)
    ensures After(setup, runs).copyFailures <= Rejections(setup, runs)
    decreases |runs|
  {
    hide Step, Start, Rejected;
    if runs != [] {
      var n := |runs| - 1;
      CopyFailuresCount(setup, runs[..n]);
      StepCodec(setup, After(setup, runs[..n]), runs[n], Rejections(setup, runs[..n]));
    }
  }

  /** The codec falls back only in a copy-rejected run, the second one at least, and never when copy was asked for. */
  lemma FallbackIsEarned(setup: Setup, runs: seq<Outcome>, i: nat)
    requires i < |runs| && FallsBack(setup, runs, i)
    ensures Rejected(RunAt(setup, runs, i), runs[i])
    ensures Rejections(setup, runs[..i + 1]) >= 2
    ensures setup.requested != Copy
  {
    hide Step, Start, Rejected;
    CopyFailuresCount(setup, runs[..i]);
    CopyFailuresCount(setup, runs[..i + 1]);
    StepCodec(setup, After(setup, runs[..i]), runs[i], Rejections(setup, runs[..i]));
    assert runs[..i + 1][..i] == runs[..i];
  }

  /** ffmpeg rejected an option and has not been run without the optional ones yet. */
  predicate OptionRetry(st: State, o: Outcome) {
    o.bytes == 0 && !st.safeArgs && !o.writeErr && o.optionRejected
  }

  /** A copy-rejected run that neither the option nor the video output is blamed for. */
  predicate Counts(st: State, s: Started, o: Outcome) {
    Rejected(s, o) && !OptionRetry(st, o) && !VideoFault(s, o)
  }

  /** A run that says that the codec is not to blame: the option retry, or audio without a video fault. */
  predicate Clears(st: State, s: Started, o: Outcome) {
    OptionRetry(st, o) || (o.bytes > 0 && !VideoFault(s, o))
  }

  predicate CountsAt(setup: Setup, runs: seq<Outcome>, i: nat)
    requires i < |runs|
  {
    Counts(After(setup, runs[..i]), RunAt(setup, runs, i), runs[i])
  }

  predicate ClearsAt(setup: Setup, runs: seq<Outcome>, i: nat)
    requires i < |runs|
  {
    Clears(After(setup, runs[..i]), RunAt(setup, runs, i), runs[i])
  }

  /** Run j counted, and no run after it and before run n cleared the count. */
  predicate Uncleared(setup: Setup, runs: seq<Outcome>, j: nat, n: nat)
    requires n <= |runs|
  {
    j < n && CountsAt(setup, runs, j) && forall k :: j < k < n ==> !ClearsAt(setup, runs, k)
  }

  lemma CountingStep(setup: Setup, st: State, o: Outcome)
    ensures var s, st' := Start(setup, st, o), Step(setup, st, o);
            && st'.copyFailures == (if Counts(st, s, o) then st.copyFailures + 1 else if Clears(st, s, o) then 0
                                    else st.copyFailures)
            && st'.resolved == (if Counts(st, s, o) && setup.requested != Copy && st.copyFailures >= 1 then Aac
                                else s.st.resolved)
            && (s.codec == Copy ==> s.st.resolved == Copy)
  {
    hide Start;
    StartIs(setup, st, o);
  }

  lemma AfterNext(setup: Setup, runs: seq<Outcome>, n: nat)
    requires n < |runs|
    ensures After(setup, runs[..n + 1]) == Step(setup, After(setup, runs[..n]), runs[n])
  {
    hide Step;
    assert runs[..n + 1] == runs[..n] + [runs[n]];
    AfterSnoc(setup, runs[..n], runs[n]);
  }

  lemma {:induction false} CountStands(setup: Setup, runs: seq<Outcome>, n: nat)
    requires n <= |runs|
    ensures After(setup, runs[..n]).copyFailures > 0 <==> exists j :: Uncleared(setup, runs, j, n)
  {
    hide Step, Start, Counts, Clears;
    if n > 0 {
      hide After;
      var m := n - 1;
      CountStands(setup, runs, m);
      AfterNext(setup, runs, m);
      CountingStep(setup, After(setup, runs[..m]), runs[m]);
      if CountsAt(setup, runs, m) {
        assert Uncleared(setup, runs, m, n);
      } else if !ClearsAt(setup, runs, m) {
        assert forall j :: Uncleared(setup, runs, j, n) <==> Uncleared(setup, runs, j, m);
      }
    } else {
      assert runs[..0] == [];
    }
  }

  /** The fallback comes exactly in the second of two copy-rejected runs that count, with nothing between them that
      clears the count, and unless copy was asked for. */
  lemma FallbackExactly(setup: Setup, runs: seq<Outcome>, i: nat)
    requires i < |runs|
    ensures FallsBack(setup, runs, i) <==>
              setup.requested != Copy && CountsAt(setup, runs, i) && exists j :: Uncleared(setup, runs, j, i)
  {
    hide Step, Start, Clears, VideoFault, OptionRetry, After;
    CountStands(setup, runs, i);
    AfterNext(setup, runs, i);
    CountingStep(setup, After(setup, runs[..i]), runs[i]);
  }

  /** The probe of this run saw an audio stream. */
  predicate Decides(o: Outcome) {
    o.probe.Probed? && o.probe.audio != NoAudio
  }

  /** What the first probe that sees an audio stream says. */
  function FirstAudio(runs: seq<Outcome>): (a: Audio)
  {
    if runs == [] then NoAudio else if Decides(runs[0]) then runs[0].probe.audio else FirstAudio(runs[1..])
  }

  /** The codec a session settles on as long as nothing falls back: what is decided, what was asked for, or what the
      first audio stream needs. */
  function Settled(setup: Setup, runs: seq<Outcome>): (c: Codec)
  {
    if setup.decided.codec != AutoCodec then setup.decided.codec
    else if runs == [] then AutoCodec
    else if setup.requested != AutoCodec then setup.requested
    else match FirstAudio(runs)
      case NoAudio => AutoCodec
      case Copyable => Copy
      case NeedsAac => Aac
  }

  predicate HasFallenBack(setup: Setup, runs: seq<Outcome>, n: nat)
    requires n <= |runs|
  {
    exists k :: 0 <= k < n && FallsBack(setup, runs, k)
  }

  lemma {:induction false} FirstAudioSnoc(runs: seq<Outcome>, o: Outcome)
    ensures FirstAudio(runs + [o]) ==
              if FirstAudio(runs) != NoAudio then FirstAudio(runs) else if Decides(o) then o.probe.audio else NoAudio
  {
    if runs == [] {
      assert ([] + [o])[1..] == [];
    } else {
      assert (runs + [o])[1..] == runs[1..] + [o];
      FirstAudioSnoc(runs[1..], o);
    }
  }

  /** Another run changes what is settled on only while nothing is. */
  lemma SettledSnoc(setup: Setup, runs: seq<Outcome>, o: Outcome)
    ensures var c := Settled(setup, runs);
            Settled(setup, runs + [o]) ==
              if c != AutoCodec then c
              else if setup.requested != AutoCodec then setup.requested
              else if Decides(o) then (if o.probe.audio == Copyable then Copy else Aac)
              else AutoCodec
  {
    FirstAudioSnoc(runs, o);
  }

  lemma ChoosingStep(setup: Setup, st: State, o: Outcome)
    ensures var s := Start(setup, st, o);
            && s.st.resolved == (if st.resolved != AutoCodec then st.resolved
                                 else if setup.requested != AutoCodec then setup.requested
                                 else if Decides(o) then (if o.probe.audio == Copyable then Copy else Aac)
                                 else AutoCodec)
            && s.codec == (if s.st.resolved == AutoCodec then Aac else s.st.resolved)
  {
    hide ResolveVideo;
    VideoIs(setup, ResolveCodec(setup, st, o.probe).0, o.probe);
  }

  lemma ResolvedNext(setup: Setup, runs: seq<Outcome>, m: nat)
    requires m < |runs|
    ensures var r, o := After(setup, runs[..m]).resolved, runs[m];
            After(setup, runs[..m + 1]).resolved ==
              if FallsBack(setup, runs, m) then Aac
              else if r != AutoCodec then r
              else if setup.requested != AutoCodec then setup.requested
              else if Decides(o) then (if o.probe.audio == Copyable then Copy else Aac)
              else AutoCodec
  {
    hide Step, Start, After, OptionRetry, VideoFault, Clears, Decides;
    AfterNext(setup, runs, m);
    ChoosingStep(setup, After(setup, runs[..m]), runs[m]);
    CountingStep(setup, After(setup, runs[..m]), runs[m]);
  }

  lemma {:induction false} ResolvedIs(setup: Setup, runs: seq<Outcome>, n: nat)
    requires n <= |runs|
    ensures After(setup, runs[..n]).resolved == if HasFallenBack(setup, runs, n) then Aac else Settled(setup, runs[..n])
    decreases n
  {
    hide FallsBack, Step, Decides;
    if n == 0 {
      assert runs[..0] == [];
    } else {
      var m := n - 1;
      ResolvedIs(setup, runs, m);
      ResolvedNext(setup, runs, m);
      assert runs[..n] == runs[..m] + [runs[m]];
      SettledSnoc(setup, runs[..m], runs[m]);
      FallenBackNext(setup, runs, m);
    }
  }

  lemma FallenBackNext(setup: Setup, runs: seq<Outcome>, m: nat)
    requires m < |runs|
    ensures HasFallenBack(setup, runs, m + 1) <==> HasFallenBack(setup, runs, m) || FallsBack(setup, runs, m)
  {
    hide RunAt, After;
  }

  /** The codec of every run: transcoding once the session has fallen back, until then what it has settled on, and
      transcoding as a stopgap while no probe has seen an audio stream. */
  lemma CodecExactly(setup: Setup, runs: seq<Outcome>, i: nat)
    requires i < |runs|
    ensures var c := Settled(setup, runs[..i + 1]);
            RunAt(setup, runs, i).codec == if HasFallenBack(setup, runs, i) || c == AutoCodec then Aac else c
  {
    hide Step, Start, After, Settled, Decides, FallsBack;
    ResolvedIs(setup, runs, i);
    ChoosingStep(setup, After(setup, runs[..i]), runs[i]);
    assert runs[..i + 1] == runs[..i] + [runs[i]];
    SettledSnoc(setup, runs[..i], runs[i]);
  }

  // ---------------------------------------------------------------------------------------------------------------
  // The video output
  // ---------------------------------------------------------------------------------------------------------------

  /** The first probe that answered. */
  function FirstProbe(runs: seq<Outcome>): (p: Probe)
  {
    if runs == [] then ProbeFailed else if runs[0].probe.Probed? then runs[0].probe else FirstProbe(runs[1..])
  }

  lemma {:induction false} FirstProbeSnoc(runs: seq<Outcome>, o: Outcome)
    ensures FirstProbe(runs + [o]) == if FirstProbe(runs).Probed? then FirstProbe(runs) else o.probe
  {
    if runs == [] {
      assert ([] + [o])[1..] == [];
    } else {
      assert (runs + [o])[1..] == runs[1..] + [o];
      FirstProbeSnoc(runs[1..], o);
    }
  }

  /** Is the video source left to a probe? */
  predicate Open(setup: Setup) {
    setup.recordVideo && setup.decided.video == Unresolved && !setup.decided.captureError
  }

  /** The video source a session settles on, and the audio map that goes with it, as long as video stays on. */
  function VideoSettled(setup: Setup, runs: seq<Outcome>): (v: VideoSource)
  {
    var p := FirstProbe(runs);
    if !Open(setup) || p.ProbeFailed? then setup.decided.video else if p.video == Unresolved then NoVideo else p.video
  }

  function MapSettled(setup: Setup, runs: seq<Outcome>): (m: string)
  {
    var p := FirstProbe(runs);
    if !Open(setup) || p.ProbeFailed? || p.video == Unresolved then setup.decided.audioMap else p.audioMap
  }

  /** Run k blamed the video output for a line of its own. */
  predicate FaultAt(setup: Setup, runs: seq<Outcome>, k: nat)
    requires k < |runs|
  {
    VideoFault(RunAt(setup, runs, k), runs[k]) && !OptionRetry(After(setup, runs[..k]), runs[k])
  }

  predicate HasFaulted(setup: Setup, runs: seq<Outcome>, n: nat)
    requires n <= |runs|
  {
    exists k :: 0 <= k < n && FaultAt(setup, runs, k)
  }

  lemma HasFaultedNext(setup: Setup, runs: seq<Outcome>, m: nat)
    requires m < |runs|
    ensures HasFaulted(setup, runs, m + 1) <==> HasFaulted(setup, runs, m) || FaultAt(setup, runs, m)
  {
    hide RunAt, After;
  }

  lemma VideoStep(setup: Setup, st: State, o: Outcome)
    ensures var s, st' := Start(setup, st, o), Step(setup, st, o);
            var asks := setup.recordVideo && st.video == Unresolved && o.probe.Probed?;
            && s.st.video == (if !asks then st.video else if o.probe.video == Unresolved then NoVideo
                                                          else o.probe.video)
            && s.audioMap == (if asks && o.probe.video != Unresolved then o.probe.audioMap else st.audioMap)
            && (s.active <==> setup.recordVideo && (s.st.video == CopyVideo || s.st.video == X264) && !st.trial &&
                              o.filePrepared)
            && (st.captureError ==> st'.captureError)
            && (!st'.captureError ==>
                  && st'.video == s.st.video
                  && st'.audioMap == if VideoFault(s, o) && !OptionRetry(st, o) then "" else s.audioMap)
  {
    hide ResolveCodec;
    CodecIs(setup, st, o.probe);
  }

  /** What a supervisor that has not turned video off remembers of it. */
  lemma {:induction false} VideoIsSettled(setup: Setup, runs: seq<Outcome>, n: nat)
    requires n <= |runs| && !After(setup, runs[..n]).captureError
    ensures var st, before := After(setup, runs[..n]), runs[..n];
            && !setup.decided.captureError && st.video == VideoSettled(setup, before)
            && st.audioMap == if HasFaulted(setup, runs, n) then "" else MapSettled(setup, before)
    decreases n
  {
    hide Step, Start, FaultAt;
    if n == 0 {
      assert runs[..0] == [];
    } else {
      var m := n - 1;
      AfterNext(setup, runs, m);
      VideoNext(setup, runs, m);
      VideoIsSettled(setup, runs, m);
      assert runs[..n] == runs[..m] + [runs[m]];
      FirstProbeSnoc(runs[..m], runs[m]);
      HasFaultedNext(setup, runs, m);
      if HasFaulted(setup, runs, m) {
        FaultNeedsSource(setup, runs, m);
      }
    }
  }

  lemma VideoNext(setup: Setup, runs: seq<Outcome>, m: nat)
    requires m < |runs| && !After(setup, runs[..m + 1]).captureError
    ensures var st, st', o := After(setup, runs[..m]), After(setup, runs[..m + 1]), runs[m];
            var asks := setup.recordVideo && st.video == Unresolved && o.probe.Probed?;
            && !st.captureError
            && st'.video == (if !asks then st.video else if o.probe.video == Unresolved then NoVideo else o.probe.video)
            && st'.audioMap == if FaultAt(setup, runs, m) then ""
                               else if asks && o.probe.video != Unresolved then o.probe.audioMap else st.audioMap
  {
    hide Step, Start, After, OptionRetry, VideoFault;
    AfterNext(setup, runs, m);
    VideoStep(setup, After(setup, runs[..m]), runs[m]);
  }

  /** No run is blamed for the video output while the source is not known. */
  lemma {:induction false} FaultNeedsSource(setup: Setup, runs: seq<Outcome>, n: nat)
    requires n <= |runs| && HasFaulted(setup, runs, n) && !After(setup, runs[..n]).captureError
    ensures After(setup, runs[..n]).video != Unresolved
    decreases n
  {
    hide Step, Start, After, OptionRetry;
    if n > 0 {
      var m := n - 1;
      AfterNext(setup, runs, m);
      VideoStep(setup, After(setup, runs[..m]), runs[m]);
      HasFaultedNext(setup, runs, m);
      if !FaultAt(setup, runs, m) {
        FaultNeedsSource(setup, runs, m);
      }
    }
  }

  /** Which runs have a video output, and with which audio: those of a session that records video and has not turned it
      off, with a source, but for the trial and a run whose file could not be prepared. The first probe that answers
      settles source and audio map; after a fault of the output the map is the audio output's own. */
  lemma VideoExactly(setup: Setup, runs: seq<Outcome>, i: nat)
    requires i < |runs| && !After(setup, runs[..i]).captureError
    ensures var st, s, v := After(setup, runs[..i]), RunAt(setup, runs, i), VideoSettled(setup, runs[..i + 1]);
            && (s.active <==> setup.recordVideo && (v == CopyVideo || v == X264) && !st.trial && runs[i].filePrepared)
            && s.audioMap == if HasFaulted(setup, runs, i) then "" else MapSettled(setup, runs[..i + 1])
  {
    hide Step, Start, After, FaultAt;
    VideoIsSettled(setup, runs, i);
    VideoStep(setup, After(setup, runs[..i]), runs[i]);
    assert runs[..i + 1] == runs[..i] + [runs[i]];
    FirstProbeSnoc(runs[..i], runs[i]);
    if HasFaulted(setup, runs, i) {
      FaultNeedsSource(setup, runs, i);
    }
  }

  // ---------------------------------------------------------------------------------------------------------------
  // Restart backoff
  // ---------------------------------------------------------------------------------------------------------------

  const STABLE: nat := 60 // seconds; a longer run counts as stable

  /** nextBackoff: the wait before the next run, and the backoff carried on. */
  function NextBackoff(cur: nat, min: nat, max: nat, ran: nat): (r: (nat, nat))
  {
    var c := if ran > STABLE then min else cur;
    (c, if c * 2 > max then max else c * 2)
  }

  /** The backoff carried into the run after the given ones. */
  function Backoff(min: nat, max: nat, ran: seq<nat>): (cur: nat)
  {
    if ran == [] then min else NextBackoff(Backoff(min, max, ran[..|ran| - 1]), min, max, ran[|ran| - 1]).1
  }

  /** How often the wait has doubled: every run doubles it, a stable one starts over first. */
  function Doublings(ran: seq<nat>): (n: nat)
  {
    if ran == [] then 0 else if ran[|ran| - 1] > STABLE then 1 else 1 + Doublings(ran[..|ran| - 1])
  }

  lemma {:induction false} BackoffIs(min: nat, max: nat, ran: seq<nat>)
    requires 0 < min <= max
    ensures Backoff(min, max, ran) == Min(max, min * Pow2(Doublings(ran))) >= min
    decreases |ran|
  {
    DoubleOnce(min, max, 0);
    if ran != [] {
      var init := ran[..|ran| - 1];
      BackoffIs(min, max, init);
      DoubleOnce(min, max, Doublings(init));
      hide Pow2;
    } else {
      assert min * Pow2(0) == min;
    }
  }

  /** The wait after a run is min after a stable one and doubles with every short run in between, within [min, max]. */
  lemma BackoffDoubles(min: nat, max: nat, ran: seq<nat>, last: nat)
    requires 0 < min <= max
    ensures var wait := NextBackoff(Backoff(min, max, ran), min, max, last).0;
            wait == (if last > 60 then min else Min(max, min * Pow2(Doublings(ran)))) && min <= wait <= max
  {
    BackoffIs(min, max, ran);
  }
}
