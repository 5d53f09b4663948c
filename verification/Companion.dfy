/** The .mp4 companion (internal/recorder/upload.go headVideo, videoSegments, buildVideoCompanion): what an attempt does
    with the one that is stored, and the timeline it builds. Sessions are named by their digests. */
module Companion {
  import opened Bytes
  import opened Strings
  import SessionRecord

  // ---------------------------------------------------------------------------------------------------------------
  // What is stored
  // ---------------------------------------------------------------------------------------------------------------

  /** The metadata of the stored companion that decides. */
  datatype StoredVideo = StoredVideo(recordingId: string, sessions: string, synthetic: string)

  datatype Target = Target(found: bool, reuse: bool, inSync: bool, skip: nat)

  datatype Verdict = Conflict | Build(target: Target)

  lemma JoinIsInjective(a: seq<string>, b: seq<string>)
    requires DigestList(a) && DigestList(b)
    ensures Join(a) == Join(b) <==> a == b
  {
    DigestsOfJoin(a);
    DigestsOfJoin(b);
  }

  lemma PrefixIsList(ds: seq<string>, n: nat)
    requires DigestList(ds) && n <= |ds|
    ensures DigestList(ds[..n])
  {
  }

  /** The stored manifest is `target` without its last sessions: all of the stored .m4a and the first k of this
      attempt's. */
  predicate HoldsFirst(stored: seq<string>, remote: seq<string>, toAdd: seq<string>, k: nat) {
    k < |toAdd| && |remote| + k > 0 && stored == remote + toAdd[..k]
  }

  /** At most one k can match. */
  lemma SkipIsUnique(stored: seq<string>, remote: seq<string>, toAdd: seq<string>, k: nat, l: nat)
    requires HoldsFirst(stored, remote, toAdd, k) && HoldsFirst(stored, remote, toAdd, l)
    ensures k == l
  {
    assert |remote + toAdd[..k]| == |remote| + k && |remote + toAdd[..l]| == |remote| + l;
  }

  /** headVideo: somebody else's object is a conflict; a companion of exactly the sessions to be stored is kept; one
      with a real picture of the stored sessions and a first part of the new ones is extended; anything else is built
      anew. */
  method HeadVideo(stored: Option<StoredVideo>, recordingId: string, remote: seq<string>, toAdd: seq<string>)
      returns (v: Verdict)
    requires DigestList(remote) && DigestList(toAdd) && toAdd != []
    ensures v == Conflict <==> stored.Some? && TrimSpace(stored.value.recordingId) != recordingId
    ensures v.Build? && stored.None? ==> v.target == Target(false, false, false, 0)
    ensures v.Build? && stored.Some? ==>
              var ds, t := Digests(stored.value.sessions), v.target;
              && t.found
              && (t.reuse <==> ds == remote + toAdd)
              && (t.inSync <==>
                    TrimSpace(stored.value.synthetic) == "false" && exists k :: HoldsFirst(ds, remote, toAdd, k))
              && (t.inSync ==> forall k :: HoldsFirst(ds, remote, toAdd, k) <==> k == t.skip)
              && (!t.inSync ==> t.skip == 0) && !(t.reuse && t.inSync)
  {
    if stored.None? {
      return Build(Target(false, false, false, 0));
    }
    if TrimSpace(stored.value.recordingId) != recordingId {
      return Conflict;
    }
    var target := remote + toAdd;
    ghost var ds := Digests(stored.value.sessions);
    DigestsAreList(stored.value.sessions);
    var manifest := Join(Digests(stored.value.sessions));
    JoinIsInjective(ds, []);
    if manifest == "" {
      assert forall k :: !HoldsFirst(ds, remote, toAdd, k);
      return Build(Target(true, false, false, 0));
    }
    JoinIsInjective(ds, target);
    if manifest == Join(target) {
      assert forall k :: !HoldsFirst(ds, remote, toAdd, k) by {
        NotItsOwnPrefix(remote, toAdd);
      }
      return Build(Target(true, true, false, 0));
    }
    if TrimSpace(stored.value.synthetic) != "false" {
      return Build(Target(true, false, false, 0));
    }
    var k := 0;
    while k < |toAdd|
      invariant 0 <= k <= |toAdd|
      invariant forall l :: 0 <= l < k ==> !HoldsFirst(ds, remote, toAdd, l)
    {
      assert target[..|remote| + k] == remote + toAdd[..k];
      PrefixIsList(target, |remote| + k);
      JoinIsInjective(ds, target[..|remote| + k]);
      if |remote| + k > 0 && manifest == Join(target[..|remote| + k]) {
        assert HoldsFirst(ds, remote, toAdd, k);
        forall l | HoldsFirst(ds, remote, toAdd, l)
          ensures l == k
        {
          SkipIsUnique(ds, remote, toAdd, k, l);
        }
        return Build(Target(true, false, true, k));
      }
      k := k + 1;
    }
    v := Build(Target(true, false, false, 0));
  }

  lemma NotItsOwnPrefix(remote: seq<string>, toAdd: seq<string>)
    ensures forall k :: !HoldsFirst(remote + toAdd, remote, toAdd, k)
  {
    forall k: nat | k < |toAdd|
      ensures remote + toAdd != remote + toAdd[..k]
    {
      assert |remote + toAdd[..k]| == |remote| + k;
    }
  }

  // ---------------------------------------------------------------------------------------------------------------
  // The timeline
  // ---------------------------------------------------------------------------------------------------------------

  /** What the measuring of one run said. */
  datatype Measured = Measured(frames: nat, seconds: real)

  /** A session of this attempt: which TS files are there and not empty, and what was measured. */
  datatype Member = Member(digest: string, video: bool, runs: seq<SessionRecord.Run>, there: set<string>, seconds: real,
                           measured: seq<Measured>)

  /** A piece of the timeline: what is already stored (its picture, or its audio), a session's whole capture, one TS
      file of a run, or the byte range of a run cut out of the capture. */
  datatype Segment =
    | StoredPicture
    | StoredAudio(duration: real)
    | Whole(session: string, seconds: real)
    | Ts(session: string, run: nat, file: string)
    | Cut(session: string, run: nat, offset: int, bytes: int, seconds: real)
  {
    predicate OfSession(d: string) { (Whole? || Ts? || Cut?) && session == d }
    predicate OfRun(d: string, i: nat) { (Ts? || Cut?) && session == d && run == i }
  }

  function FilesThere(names: seq<string>, there: set<string>): (r: seq<string>)
  {
    if names == [] then []
    else
      var n := |names| - 1;
      FilesThere(names[..n], there) + if names[n] in there then [names[n]] else []
  }

  function TsFiles(m: Member, i: nat): (files: seq<string>)
    requires i < |m.runs|
  {
    if m.video then FilesThere(m.runs[i].videoFiles, m.there) else []
  }

  predicate HasTs(m: Member) {
    exists i :: 0 <= i < |m.runs| && TsFiles(m, i) != []
  }

  function TsSegments(m: Member, i: nat, files: seq<string>): (segs: seq<Segment>)
    ensures |segs| == |files| && forall j :: 0 <= j < |files| ==> segs[j] == Ts(m.digest, i, files[j])
  {
    if files == [] then [] else TsSegments(m, i, files[..|files| - 1]) + [Ts(m.digest, i, files[|files| - 1])]
  }

  /** The run holds audio worth a piece of its own. */
  predicate HasAudio(m: Member, i: nat)
    requires i < |m.runs|
  {
    (i < |m.measured| ==> m.measured[i].frames != 0) && m.runs[i].bytes > 0
  }

  function RunSegments(m: Member, i: nat): (segs: seq<Segment>)
    requires i < |m.runs|
  {
    var files := TsFiles(m, i);
    if files != [] then TsSegments(m, i, files)
    else if HasAudio(m, i) then
      [Cut(m.digest, i, m.runs[i].offset, m.runs[i].bytes,
           if i < |m.measured| then m.measured[i].seconds else m.runs[i].seconds)]
    else []
  }

  function RunsSegments(m: Member, n: nat): (segs: seq<Segment>)
    requires n <= |m.runs|
  {
    if n == 0 then [] else RunsSegments(m, n - 1) + RunSegments(m, n - 1)
  }

  function MemberSegments(m: Member): (segs: seq<Segment>)
  {
    if HasTs(m) then RunsSegments(m, |m.runs|) else [Whole(m.digest, m.seconds)]
  }

  function Timeline(members: seq<Member>): (segs: seq<Segment>)
  {
    if members == [] then [] else Timeline(members[..|members| - 1]) + MemberSegments(members[|members| - 1])
  }

  /** Which of a run's TS files are there. */
  method FindTs(m: Member) returns (ts: seq<seq<string>>, anyTs: bool)
    ensures |ts| == |m.runs| && forall i :: 0 <= i < |ts| ==> ts[i] == TsFiles(m, i)
    ensures anyTs <==> HasTs(m)
  {
    ts := seq(|m.runs|, i => []);
    anyTs := false;
    if !m.video {
      return;
    }
    for i := 0 to |m.runs|
      invariant |ts| == |m.runs|
      invariant forall k :: 0 <= k < i ==> ts[k] == TsFiles(m, k)
      invariant anyTs <==> exists k :: 0 <= k < i && TsFiles(m, k) != []
    {
      var files := [];
      var names := m.runs[i].videoFiles;
      for j := 0 to |names|
        invariant files == FilesThere(names[..j], m.there)
      {
        assert names[..j + 1][..j] == names[..j];
        if names[j] in m.there {
          files := files + [names[j]];
        }
      }
      assert names[..|names|] == names;
      assert files == TsFiles(m, i);
      ts := ts[i := files];
      if files != [] {
        anyTs := true;
      }
    }
  }

  /** The segments of one run. */
  method SegmentsOfRun(m: Member, i: nat, files: seq<string>) returns (segs: seq<Segment>)
    requires i < |m.runs| && files == TsFiles(m, i)
    ensures segs == RunSegments(m, i)
  {
    segs := [];
    if |files| > 0 {
      for j := 0 to |files|
        invariant segs == TsSegments(m, i, files[..j])
      {
        assert files[..j + 1][..j] == files[..j];
        segs := segs + [Ts(m.digest, i, files[j])];
      }
      assert files[..|files|] == files;
      return;
    }
    var d := m.runs[i].seconds;
    if i < |m.measured| {
      if m.measured[i].frames == 0 {
        return;
      }
      d := m.measured[i].seconds;
    }
    if m.runs[i].bytes <= 0 {
      return;
    }
    segs := [Cut(m.digest, i, m.runs[i].offset, m.runs[i].bytes, d)];
  }

  /** The segments of one session. */
  method SegmentsOf(m: Member) returns (segs: seq<Segment>)
    ensures segs == MemberSegments(m)
  {
    hide TsFiles, RunSegments, HasTs;
    var ts, anyTs := FindTs(m);
    if !anyTs {
      return [Whole(m.digest, m.seconds)];
    }
    segs := [];
    for i := 0 to |m.runs|
      invariant segs == RunsSegments(m, i)
    {
      var more := SegmentsOfRun(m, i, ts[i]);
      segs := segs + more;
    }
  }

  lemma TimelineSnoc(members: seq<Member>, n: nat)
    requires n < |members|
    ensures Timeline(members[..n + 1]) == Timeline(members[..n]) + MemberSegments(members[n])
  {
    hide MemberSegments;
    assert members[..n + 1][..n] == members[..n];
  }

  /** videoSegments: the stored piece, then session by session; nothing at all is an error. */
  method VideoSegments(members: seq<Member>, stored: Option<Segment>) returns (r: Option<seq<Segment>>)
    ensures var all := (if stored.Some? then [stored.value] else []) + Timeline(members);
            r == if all == [] then None else Some(all)
  {
    var segs := if stored.Some? then [stored.value] else [];
    ghost var head := segs;
    assert members[..0] == [] && Timeline([]) == [];
    hide Timeline, MemberSegments;
    for n := 0 to |members|
      invariant segs == head + Timeline(members[..n])
    {
      var more := SegmentsOf(members[n]);
      TimelineSnoc(members, n);
      Associate(head, Timeline(members[..n]), more);
      segs := segs + more;
    }
    assert members[..|members|] == members;
    r := if segs == [] then None else Some(segs);
  }

  // ---------------------------------------------------------------------------------------------------------------
  // Every run once
  // ---------------------------------------------------------------------------------------------------------------

  /** The segments that belong to a run, in order. */
  function OfRun(segs: seq<Segment>, d: string, i: nat): (r: seq<Segment>)
  {
    if segs == [] then []
    else
      var n := |segs| - 1;
      OfRun(segs[..n], d, i) + if segs[n].OfRun(d, i) then [segs[n]] else []
  }

  lemma {:induction false} OfRunAppend(a: seq<Segment>, b: seq<Segment>, d: string, i: nat)
    ensures OfRun(a + b, d, i) == OfRun(a, d, i) + OfRun(b, d, i)
    decreases |b|
  {
    if b == [] {
      assert a + b == a;
    } else {
      var n := |b| - 1;
      assert (a + b)[..|a + b| - 1] == a + b[..n];
      OfRunAppend(a, b[..n], d, i);
    }
  }

  lemma {:induction false} OfRunEvery(segs: seq<Segment>, d: string, i: nat)
    requires forall j :: 0 <= j < |segs| ==> segs[j].OfRun(d, i)
    ensures OfRun(segs, d, i) == segs
  {
    if segs != [] {
      OfRunEvery(segs[..|segs| - 1], d, i);
    }
  }

  lemma {:induction false} OfRunNone(segs: seq<Segment>, d: string, i: nat)
    requires forall j :: 0 <= j < |segs| ==> !segs[j].OfRun(d, i)
    ensures OfRun(segs, d, i) == []
  {
    if segs != [] {
      OfRunNone(segs[..|segs| - 1], d, i);
    }
  }

  lemma RunSegmentsBelong(m: Member, k: nat)
    requires k < |m.runs|
    ensures forall j, i :: 0 <= j < |RunSegments(m, k)| ==> (RunSegments(m, k)[j].OfRun(m.digest, i) <==> i == k)
  {
    hide TsFiles, HasAudio;
  }

  lemma RunsSnoc(m: Member, n: nat, d: string, i: nat)
    requires n < |m.runs|
    ensures RunsSegments(m, n + 1) == RunsSegments(m, n) + RunSegments(m, n)
    ensures RunsSegments(m, 0) == [] && OfRun([], d, i) == []
  {
  }

  /** The pieces of a run are all in one place. */
  lemma {:induction false} RunIsTogether(m: Member, n: nat, i: nat)
    requires n <= |m.runs| && i < |m.runs|
    ensures OfRun(RunsSegments(m, n), m.digest, i) == if i < n then RunSegments(m, i) else []
    decreases n
  {
    hide RunSegments, RunsSegments, OfRun;
    RunsSnoc(m, if n > 0 then n - 1 else 0, m.digest, i);
    if n > 0 {
      var init, last := RunsSegments(m, n - 1), RunSegments(m, n - 1);
      RunIsTogether(m, n - 1, i);
      RunSegmentsBelong(m, n - 1);
      OfRunAppend(init, last, m.digest, i);
      if i == n - 1 {
        OfRunEvery(last, m.digest, i);
        NothingBeside(last);
      } else {
        OfRunNone(last, m.digest, i);
        NothingBeside(OfRun(init, m.digest, i));
      }
    }
  }

  /** Only names of files that are there, all of them, as often and in the order they are listed: that is what keeping
      them one by one from left to right means. */
  lemma {:induction false} FilesThereInOrder(a: seq<string>, b: seq<string>, name: string, there: set<string>)
    ensures FilesThere(a + b, there) == FilesThere(a, there) + FilesThere(b, there)
    ensures FilesThere([], there) == [] && FilesThere([name], there) == if name in there then [name] else []
    decreases |b|
  {
    assert [name][..0] == [];
    if b == [] {
      assert a + b == a;
    } else {
      var n := |b| - 1;
      assert (a + b)[..|a + b| - 1] == a + b[..n];
      FilesThereInOrder(a, b[..n], name, there);
    }
  }

  lemma {:induction false} FilesThereExist(names: seq<string>, there: set<string>)
    ensures FilesThere(names, there) != [] <==> exists f :: f in names && f in there
  {
    if names != [] {
      var n := |names| - 1;
      FilesThereExist(names[..n], there);
      assert names == names[..n] + [names[n]];
    }
  }

  /** The run's pictures are there. */
  predicate HasPictures(m: Member, i: nat)
    requires i < |m.runs|
  {
    m.video && exists f :: f in m.runs[i].videoFiles && f in m.there
  }

  /** The run has no pictures, but audio. */
  predicate OnlyHeard(m: Member, i: nat)
    requires i < |m.runs|
  {
    !HasPictures(m, i) && m.runs[i].bytes > 0 && (i < |m.measured| ==> m.measured[i].frames > 0)
  }

  /** How long it plays: as measured, if it was. */
  function PlayTime(m: Member, i: nat): (t: real)
    requires i < |m.runs|
  {
    if i < |m.measured| then m.measured[i].seconds else m.runs[i].seconds
  }

  lemma RunIs(m: Member, i: nat)
    requires i < |m.runs|
    ensures var segs, r, names := RunSegments(m, i), m.runs[i], FilesThere(m.runs[i].videoFiles, m.there);
            && (HasPictures(m, i) ==>
                  |segs| == |names| > 0 && forall j :: 0 <= j < |names| ==> segs[j] == Ts(m.digest, i, names[j]))
            && (OnlyHeard(m, i) ==> segs == [Cut(m.digest, i, r.offset, r.bytes, PlayTime(m, i))])
            && (!HasPictures(m, i) && !OnlyHeard(m, i) ==> segs == [])
  {
    FilesThereExist(m.runs[i].videoFiles, m.there);
  }

  /** Some run of the session has pictures. */
  predicate AnyPictures(m: Member) {
    exists i :: 0 <= i < |m.runs| && HasPictures(m, i)
  }

  lemma MemberIs(m: Member)
    ensures MemberSegments(m) == if AnyPictures(m) then RunsSegments(m, |m.runs|) else [Whole(m.digest, m.seconds)]
  {
    hide RunsSegments;
    forall i | 0 <= i < |m.runs|
      ensures HasPictures(m, i) <==> TsFiles(m, i) != []
    {
      FilesThereExist(m.runs[i].videoFiles, m.there);
    }
    hide TsFiles;
  }

  lemma {:induction false} TimelineAppend(a: seq<Member>, b: seq<Member>)
    ensures Timeline(a + b) == Timeline(a) + Timeline(b)
    decreases |b|
  {
    hide MemberSegments;
    if b == [] {
      assert a + b == a;
    } else {
      var n := |b| - 1;
      assert (a + b)[..|a + b| - 1] == a + b[..n];
      TimelineAppend(a, b[..n]);
      Associate(Timeline(a), Timeline(b[..n]), MemberSegments(b[n]));
    }
  }

  /** Nothing of session d. */
  predicate NoneOf(segs: seq<Segment>, d: string) {
    forall j :: 0 <= j < |segs| ==> !segs[j].OfSession(d)
  }

  lemma {:induction false} OthersAreNotOf(members: seq<Member>, d: string)
    requires forall m :: m in members ==> m.digest != d
    ensures NoneOf(Timeline(members), d)
  {
    if members != [] {
      var n := |members| - 1;
      OthersAreNotOf(members[..n], d);
      MemberBelongs(members[n]);
      hide Timeline, MemberSegments;
      TimelineSnoc(members, n);
      assert members[..n + 1] == members;
    }
  }

  lemma OthersDiffer(members: seq<Member>, t: nat)
    requires t < |members| && Distinct(DigestsOf(members))
    ensures forall m :: m in members[..t] ==> m.digest != members[t].digest
    ensures forall m :: m in members[t + 1..] ==> m.digest != members[t].digest
  {
    hide DigestsOf;
    var ds := DigestsOf(members);
    forall m | m in members[..t]
      ensures m.digest != members[t].digest
    {
      var k: nat :| k < t && members[k] == m;
      assert ds[k] != ds[t];
    }
    forall m | m in members[t + 1..]
      ensures m.digest != members[t].digest
    {
      var k: nat :| t < k < |members| && members[k] == m;
      assert ds[t] != ds[k];
    }
  }

  /** The pieces of a session follow one another on the timeline, nothing of it before or behind them. */
  lemma TimelineSplits(members: seq<Member>, t: nat)
    requires t < |members| && Distinct(DigestsOf(members))
    ensures var before, after := Timeline(members[..t]), Timeline(members[t + 1..]);
            && Timeline(members) == before + MemberSegments(members[t]) + after
            && NoneOf(before, members[t].digest) && NoneOf(after, members[t].digest)
  {
    hide Timeline, MemberSegments, NoneOf, Distinct, DigestsOf, Shown;
    TimelineSnoc(members, t);
    TimelineAppend(members[..t + 1], members[t + 1..]);
    assert members == members[..t + 1] + members[t + 1..];
    OthersDiffer(members, t);
    OthersAreNotOf(members[..t], members[t].digest);
    OthersAreNotOf(members[t + 1..], members[t].digest);
  }

  lemma OfRunInside(before: seq<Segment>, segs: seq<Segment>, after: seq<Segment>, d: string, i: nat)
    requires NoneOf(before, d) && NoneOf(after, d)
    ensures OfRun(before + segs + after, d, i) == OfRun(segs, d, i)
  {
    hide OfRun;
    OfRunAppend(before + segs, after, d, i);
    OfRunAppend(before, segs, d, i);
    OfRunNone(before, d, i);
    OfRunNone(after, d, i);
    NothingBeside(OfRun(segs, d, i));
  }

  /** A session without pictures is heard as a whole. One with pictures is laid out run by run: a run with pictures is
      shown by its TS files that are there, in order, and by no audio; a run without is heard once, over exactly its
      byte range and for as long as was measured, unless nothing in it can be decoded. */
  lemma EveryRunOnce(members: seq<Member>, t: nat, i: nat)
    requires t < |members| && Distinct(DigestsOf(members)) && i < |members[t].runs|
    ensures var m := members[t];
            var pieces, names := OfRun(Timeline(members), m.digest, i), FilesThere(m.runs[i].videoFiles, m.there);
            && (!AnyPictures(m) ==> MemberSegments(m) == [Whole(m.digest, m.seconds)])
            && (HasPictures(m, i) ==>
                  && |pieces| == |names| > 0
                  && forall j :: 0 <= j < |names| ==> pieces[j] == Ts(m.digest, i, names[j]))
            && (AnyPictures(m) && OnlyHeard(m, i) ==>
                  pieces == [Cut(m.digest, i, m.runs[i].offset, m.runs[i].bytes, PlayTime(m, i))])
            && (AnyPictures(m) && !HasPictures(m, i) && !OnlyHeard(m, i) ==> pieces == [])
  {
    hide Timeline, MemberSegments, RunsSegments, RunSegments, OfRun, NoneOf, OnlyHeard, Distinct, DigestsOf;
    var m := members[t];
    TimelineSplits(members, t);
    OfRunInside(Timeline(members[..t]), MemberSegments(m), Timeline(members[t + 1..]), m.digest, i);
    MemberIs(m);
    RunIsTogether(m, |m.runs|, i);
    RunIs(m, i);
  }

  // ---------------------------------------------------------------------------------------------------------------
  // Every byte once
  // ---------------------------------------------------------------------------------------------------------------

  /** The runs' byte ranges follow one another, as a measured session's do. */
  ghost predicate Adjacent(runs: seq<SessionRecord.Run>) {
    SessionRecord.Contiguous(runs) && forall i :: 0 <= i < |runs| ==> runs[i].bytes >= 0
  }

  lemma {:induction false} RunsAscend(runs: seq<SessionRecord.Run>, i: nat, j: nat)
    requires Adjacent(runs) && i < j < |runs|
    ensures runs[i].offset + runs[i].bytes <= runs[j].offset
  {
    if i < j - 1 {
      RunsAscend(runs, i, j - 1);
    }
  }

  /** The byte x of session d's capture is heard in this piece. */
  predicate Hears(seg: Segment, d: string, x: int) {
    seg.Cut? && seg.session == d && seg.offset <= x < seg.offset + seg.bytes
  }

  /** The pieces in which it is heard. */
  function Hearing(segs: seq<Segment>, d: string, x: int): (r: seq<Segment>)
  {
    if segs == [] then []
    else
      var n := |segs| - 1;
      Hearing(segs[..n], d, x) + if Hears(segs[n], d, x) then [segs[n]] else []
  }

  lemma {:induction false} HearingAppend(a: seq<Segment>, b: seq<Segment>, d: string, x: int)
    ensures Hearing(a + b, d, x) == Hearing(a, d, x) + Hearing(b, d, x)
    decreases |b|
  {
    hide Hears;
    if b == [] {
      assert a + b == a;
    } else {
      var n := |b| - 1;
      assert (a + b)[..|a + b| - 1] == a + b[..n];
      HearingAppend(a, b[..n], d, x);
    }
  }

  lemma {:induction false} HearingNone(segs: seq<Segment>, d: string, x: int)
    requires forall j :: 0 <= j < |segs| ==> !Hears(segs[j], d, x)
    ensures Hearing(segs, d, x) == []
  {
    hide Hears;
    if segs != [] {
      HearingNone(segs[..|segs| - 1], d, x);
    }
  }

  predicate InRun(m: Member, i: nat, x: int)
    requires i < |m.runs|
  {
    m.runs[i].offset <= x < m.runs[i].offset + m.runs[i].bytes
  }

  function TheCut(m: Member, i: nat): (seg: Segment)
    requires i < |m.runs|
  {
    Cut(m.digest, i, m.runs[i].offset, m.runs[i].bytes, PlayTime(m, i))
  }

  lemma RunHears(m: Member, k: nat, i: nat, x: int)
    requires k < |m.runs| && i < |m.runs| && Adjacent(m.runs) && InRun(m, i, x)
    ensures Hearing(RunSegments(m, k), m.digest, x) == if k == i && OnlyHeard(m, i) then [TheCut(m, i)] else []
  {
    hide RunSegments;
    RunIs(m, k);
    if k < i {
      RunsAscend(m.runs, k, i);
    } else if i < k {
      RunsAscend(m.runs, i, k);
    }
    if k == i && OnlyHeard(m, i) {
      assert [TheCut(m, i)][..0] == [];
    } else {
      HearingNone(RunSegments(m, k), m.digest, x);
    }
  }

  lemma {:induction false} RunsHear(m: Member, n: nat, i: nat, x: int)
    requires n <= |m.runs| && i < |m.runs| && Adjacent(m.runs) && InRun(m, i, x)
    ensures Hearing(RunsSegments(m, n), m.digest, x) == if i < n && OnlyHeard(m, i) then [TheCut(m, i)] else []
    decreases n
  {
    hide RunSegments, OnlyHeard, Hears, Adjacent, InRun;
    if n > 0 {
      RunsHear(m, n - 1, i, x);
      RunHears(m, n - 1, i, x);
      HearingAppend(RunsSegments(m, n - 1), RunSegments(m, n - 1), m.digest, x);
      NothingBeside(Hearing(RunsSegments(m, n - 1), m.digest, x));
    }
  }

  /** No byte of a session with pictures is heard twice, and each is heard in its own run's piece, if that run has audio
      and no pictures; the others are not heard but seen, or cannot be decoded. */
  lemma EveryByteOnce(members: seq<Member>, t: nat, i: nat, x: int)
    requires t < |members| && Distinct(DigestsOf(members)) && AnyPictures(members[t]) && i < |members[t].runs|
    requires Adjacent(members[t].runs) && InRun(members[t], i, x)
    ensures var m := members[t];
            Hearing(Timeline(members), m.digest, x) == if OnlyHeard(m, i) then [TheCut(m, i)] else []
  {
    hide Timeline, MemberSegments, RunsSegments, RunSegments, Hearing, OnlyHeard, Adjacent, InRun, Distinct, DigestsOf,
      AnyPictures;
    var m := members[t];
    var before, after := Timeline(members[..t]), Timeline(members[t + 1..]);
    TimelineSplits(members, t);
    HearingAppend(before + MemberSegments(m), after, m.digest, x);
    HearingAppend(before, MemberSegments(m), m.digest, x);
    HearingNone(before, m.digest, x);
    HearingNone(after, m.digest, x);
    NothingBeside(Hearing(MemberSegments(m), m.digest, x));
    MemberIs(m);
    RunsHear(m, |m.runs|, i, x);
  }

  /** The cuts of session d come in the order of the runs. */
  predicate CutsAscending(segs: seq<Segment>, d: string) {
    forall j, k :: 0 <= j < k < |segs| && segs[j].Cut? && segs[k].Cut? && segs[j].session == segs[k].session == d ==>
      segs[j].run < segs[k].run && segs[j].offset + segs[j].bytes <= segs[k].offset
  }

  /** Every cut is one of the first n runs'. */
  predicate CutsWithin(segs: seq<Segment>, m: Member, n: nat)
    requires n <= |m.runs|
  {
    forall j :: 0 <= j < |segs| && segs[j].Cut? ==> segs[j].run < n && segs[j] == TheCut(m, segs[j].run)
  }

  lemma {:induction false} RunsAscending(m: Member, n: nat)
    requires n <= |m.runs| && Adjacent(m.runs)
    ensures CutsAscending(RunsSegments(m, n), m.digest) && CutsWithin(RunsSegments(m, n), m, n)
  {
    hide RunSegments, HasPictures, OnlyHeard, TheCut, Adjacent, CutsAscending, CutsWithin;
    if n == 0 {
      NoCuts(m);
    } else {
      RunsAscending(m, n - 1);
      OneMoreRun(m, n - 1, RunsSegments(m, n - 1));
    }
  }

  lemma NoCuts(m: Member)
    ensures CutsAscending([], m.digest) && CutsWithin([], m, 0)
  {
  }

  lemma OneMoreRun(m: Member, n: nat, init: seq<Segment>)
    requires n < |m.runs| && Adjacent(m.runs) && CutsAscending(init, m.digest) && CutsWithin(init, m, n)
    ensures CutsAscending(init + RunSegments(m, n), m.digest) && CutsWithin(init + RunSegments(m, n), m, n + 1)
  {
    hide RunSegments, HasPictures, OnlyHeard, Adjacent;
    RunIs(m, n);
    forall j | 0 <= j < |init| && init[j].Cut?
      ensures init[j].offset + init[j].bytes <= m.runs[n].offset
    {
      RunsAscend(m.runs, init[j].run, n);
    }
  }

  /** A session's pieces of audio ascend along the timeline as they do in its capture. */
  lemma CutsAscend(members: seq<Member>, t: nat)
    requires t < |members| && Distinct(DigestsOf(members)) && Adjacent(members[t].runs)
    ensures CutsAscending(Timeline(members), members[t].digest)
  {
    hide Timeline, MemberSegments, RunsSegments, Adjacent, Distinct, DigestsOf, CutsWithin, NoneOf;
    var m := members[t];
    TimelineSplits(members, t);
    MemberIs(m);
    RunsAscending(m, |m.runs|);
    AscendingInside(Timeline(members[..t]), MemberSegments(m), Timeline(members[t + 1..]), m.digest);
  }

  lemma AscendingInside(before: seq<Segment>, segs: seq<Segment>, after: seq<Segment>, d: string)
    requires NoneOf(before, d) && NoneOf(after, d) && CutsAscending(segs, d)
    ensures CutsAscending(before + segs + after, d)
  {
    var all := before + segs + after;
    forall j | 0 <= j < |all| && all[j].OfSession(d)
      ensures |before| <= j < |before| + |segs| && all[j] == segs[j - |before|]
    {
    }
  }

  lemma NothingBeside(a: seq<Segment>)
    ensures a + [] == a && [] + a == a
  {
  }

  // ---------------------------------------------------------------------------------------------------------------
  // Every session once, in manifest order
  // ---------------------------------------------------------------------------------------------------------------

  /** The sessions as these pieces show them one after another, when the stored picture shows the sessions `picture` and
      the stored audio is that of `audio`. */
  function Shown(segs: seq<Segment>, picture: seq<string>, audio: seq<string>): (r: seq<string>)
  {
    if segs == [] then []
    else
      var n := |segs| - 1;
      var before := Shown(segs[..n], picture, audio);
      match segs[n]
      case StoredPicture => before + picture
      case StoredAudio(_) => before + audio
      case _ => if before != [] && before[|before| - 1] == segs[n].session then before else before + [segs[n].session]
  }

  lemma {:induction false} ShownAppend(a: seq<Segment>, b: seq<Segment>, d: string, picture: seq<string>,
                                       audio: seq<string>)
    requires b != [] && AllOf(b, d)
    requires var before := Shown(a, picture, audio); before == [] || before[|before| - 1] != d
    ensures Shown(a + b, picture, audio) == Shown(a, picture, audio) + [d]
    decreases |b|
  {
    var n := |b| - 1;
    assert (a + b)[..|a + b| - 1] == a + b[..n];
    if n > 0 {
      ShownAppend(a, b[..n], d, picture, audio);
    } else {
      assert a + b[..n] == a;
    }
  }

  predicate AllOf(segs: seq<Segment>, d: string) {
    forall j :: 0 <= j < |segs| ==> segs[j].OfSession(d)
  }

  lemma AllOfAppend(a: seq<Segment>, b: seq<Segment>, d: string)
    requires AllOf(a, d) && AllOf(b, d)
    ensures AllOf(a + b, d)
  {
  }

  lemma RunIsOf(m: Member, k: nat)
    requires k < |m.runs|
    ensures AllOf(RunSegments(m, k), m.digest)
  {
    hide TsFiles, HasAudio;
  }

  lemma {:induction false} RunsBelong(m: Member, n: nat)
    requires n <= |m.runs|
    ensures AllOf(RunsSegments(m, n), m.digest)
  {
    if n > 0 {
      RunsSnoc(m, n - 1, m.digest, 0);
      hide *;
      RunsBelong(m, n - 1);
      RunIsOf(m, n - 1);
      AllOfAppend(RunsSegments(m, n - 1), RunSegments(m, n - 1), m.digest);
    }
  }

  lemma {:induction false} RunsShow(m: Member, n: nat, i: nat)
    requires i < n <= |m.runs| && TsFiles(m, i) != []
    ensures RunsSegments(m, n) != []
  {
    hide RunSegments, TsFiles;
    RunShown(m, n - 1);
    if i < n - 1 {
      RunsShow(m, n - 1, i);
    }
  }

  lemma RunShown(m: Member, k: nat)
    requires k < |m.runs|
    ensures TsFiles(m, k) != [] ==> RunSegments(m, k) != []
  {
  }

  function DigestsOf(members: seq<Member>): (ds: seq<string>)
    ensures |ds| == |members| && forall i :: 0 <= i < |ds| ==> ds[i] == members[i].digest
  {
    if members == [] then [] else DigestsOf(members[..|members| - 1]) + [members[|members| - 1].digest]
  }

  predicate Distinct(ds: seq<string>) {
    forall i, j :: 0 <= i < j < |ds| ==> ds[i] != ds[j]
  }

  /** Behind whatever comes first, the timeline shows every new session once, in the order of the manifest. */
  lemma {:induction false} TimelineFollowsManifest(head: seq<Segment>, members: seq<Member>, picture: seq<string>,
                                                   audio: seq<string>)
    requires Distinct(Shown(head, picture, audio) + DigestsOf(members))
    ensures Shown(head + Timeline(members), picture, audio) == Shown(head, picture, audio) + DigestsOf(members)
  {
    if members == [] {
      NothingBeside(head);
      assert Shown(head, picture, audio) + [] == Shown(head, picture, audio);
    } else {
      var n := |members| - 1;
      var m := members[n];
      var first, ds := Shown(head, picture, audio), DigestsOf(members[..n]);
      assert DigestsOf(members) == ds + [m.digest];
      TimelineSnoc(members, n);
      MemberBelongs(m);
      assert members[..n + 1] == members;
      hide Timeline, MemberSegments, DigestsOf, Shown;
      Associate(first, ds, [m.digest]);
      DistinctInit(first + ds, m.digest);
      TimelineFollowsManifest(head, members[..n], picture, audio);
      ShownAppend(head + Timeline(members[..n]), MemberSegments(m), m.digest, picture, audio);
      Associate(head, Timeline(members[..n]), MemberSegments(m));
    }
  }

  lemma DistinctInit(before: seq<string>, d: string)
    requires Distinct(before + [d])
    ensures Distinct(before) && (before != [] ==> before[|before| - 1] != d)
  {
    var all := before + [d];
    assert forall i :: 0 <= i < |before| ==> all[i] == before[i];
    assert all[|before|] == d;
  }

  lemma MemberBelongs(m: Member)
    ensures MemberSegments(m) != [] && AllOf(MemberSegments(m), m.digest)
  {
    hide RunsSegments, TsFiles;
    RunsBelong(m, |m.runs|);
    if HasTs(m) {
      var i :| 0 <= i < |m.runs| && TsFiles(m, i) != [];
      RunsShow(m, |m.runs|, i);
    }
  }

  function Piece(remotePart: Option<real>): (segs: seq<Segment>)
  {
    if remotePart.Some? then [StoredAudio(remotePart.value)] else []
  }

  /** buildVideoCompanion, up to the build itself: the stored picture first when that is reusable, else the stored audio
      if there is any, then the sessions that are missing behind it. `stored` is the manifest of the stored companion,
      `remote` that of the stored .m4a. Whichever way it goes there is something to build from, and what is handed over
      shows every session of the target manifest exactly once, in manifest order. */
  method CompanionSegments(t: Target, members: seq<Member>, remotePart: Option<real>, ghost stored: seq<string>,
                           ghost remote: seq<string>) returns (segs: Option<seq<Segment>>)
    requires members != [] && Distinct(remote + DigestsOf(members)) && (remotePart.None? ==> remote == [])
    requires t.inSync ==> HoldsFirst(stored, remote, DigestsOf(members), t.skip)
    ensures segs.Some? && Shown(segs.value, stored, remote) == remote + DigestsOf(members)
    ensures t.inSync ==> segs.value == [StoredPicture] + Timeline(members[t.skip..])
    ensures !t.inSync ==> segs.value == Piece(remotePart) + Timeline(members)
  {
    hide Timeline, DigestsOf, Distinct, Shown, HoldsFirst;
    var remoteSeg: Option<Segment> := None;
    var adding := members;
    if t.inSync {
      HeldIsAPart(stored, remote, DigestsOf(members), t.skip);
      remoteSeg := Some(StoredPicture);
      adding := members[t.skip..];
    } else if remotePart.Some? {
      remoteSeg := Some(StoredAudio(remotePart.value));
    }
    segs := VideoSegments(adding, remoteSeg);
    ghost var head := if remoteSeg.Some? then [remoteSeg.value] else [];
    ghost var k := if t.inSync then t.skip else 0;
    assert adding == members[k..];
    HeadShows(remoteSeg, stored, remote);
    TimelineShows(head, members, k, stored, remote);
    assert members[0..] == members;
  }

  lemma HeldIsAPart(stored: seq<string>, remote: seq<string>, ds: seq<string>, k: nat)
    requires HoldsFirst(stored, remote, ds, k)
    ensures k < |ds| && stored == remote + ds[..k]
  {
  }

  lemma HeadShows(piece: Option<Segment>, picture: seq<string>, audio: seq<string>)
    ensures Shown([], picture, audio) == []
    ensures piece == Some(StoredPicture) ==> Shown([piece.value], picture, audio) == picture
    ensures piece.Some? && piece.value.StoredAudio? ==> Shown([piece.value], picture, audio) == audio
  {
    assert [] + picture == picture && [] + audio == audio;
    if piece.Some? {
      assert [piece.value][..0] == [];
    }
  }

  /** Pieces that show the stored sessions and the first k of the new ones go well with the rest. */
  lemma TimelineShows(head: seq<Segment>, members: seq<Member>, k: nat, stored: seq<string>, remote: seq<string>)
    requires k < |members| && Distinct(remote + DigestsOf(members))
    requires Shown(head, stored, remote) == remote + DigestsOf(members)[..k]
    ensures Shown(head + Timeline(members[k..]), stored, remote) == remote + DigestsOf(members)
    ensures head + Timeline(members[k..]) != []
  {
    hide Timeline, DigestsOf, Distinct, Shown, MemberSegments;
    var ds := DigestsOf(members);
    Rejoined(remote, ds, k);
    DigestsTail(members, k);
    TimelineFollowsManifest(head, members[k..], stored, remote);
    HeadShows(None, stored, remote);
    assert |remote + ds| > 0;
  }

  lemma Rejoined(remote: seq<string>, ds: seq<string>, k: nat)
    requires k <= |ds|
    ensures remote + ds[..k] + ds[k..] == remote + ds && ds[0..] == ds
  {
  }

  lemma DigestsTail(members: seq<Member>, k: nat)
    requires k <= |members|
    ensures DigestsOf(members[k..]) == DigestsOf(members)[k..]
  {
    hide DigestsOf;
  }
}
