/** The persistent session record (internal/recorder/session.go): its run history under a cap, and its object key. */
module SessionRecord {
  import opened Bytes

  const MAX_RUNS: nat := 2000

  /** One ffmpeg run that produced audio. */
  datatype Run = Run(startedAt: int, endedAt: Option<int>, anchor: int, anchorSource: string,
                     offset: int, bytes: int, frames: int, seconds: real, videoFiles: seq<string>)

  predicate HasVideo(r: Run) {
    |r.videoFiles| > 0
  }

  function LaterTime(a: Option<int>, b: Option<int>): (t: Option<int>)
  {
    if a.None? then b else if b.None? then a else if b.value > a.value then b else a
  }

  /** The record that replaces the adjacent runs a and b. */
  function Merged(a: Run, b: Run, dropVideo: bool): (m: Run)
  {
    a.(bytes := a.bytes + b.bytes, frames := a.frames + b.frames, seconds := a.seconds + b.seconds,
       videoFiles := if dropVideo then [] else if HasVideo(b) then a.videoFiles + b.videoFiles else a.videoFiles,
       endedAt := LaterTime(a.endedAt, b.endedAt))
  }

  /** Two adjacent runs, neither of them the last one, that both have or both lack TS files. */
  predicate Alike(runs: seq<Run>, j: nat) {
    j + 2 < |runs| && (HasVideo(runs[j]) <==> HasVideo(runs[j + 1]))
  }

  /** The oldest pair that may be merged with its TS files. */
  function OldestAlike(runs: seq<Run>, j: nat): (i: Option<nat>)
    ensures i.Some? ==> j <= i.value && Alike(runs, i.value) && forall k :: j <= k < i.value ==> !Alike(runs, k)
    ensures i.None? ==> forall k :: j <= k ==> !Alike(runs, k)
    decreases |runs| - j
  {
    if j + 2 >= |runs| then None else if Alike(runs, j) then Some(j) else OldestAlike(runs, j + 1)
  }

  function MergeAt(runs: seq<Run>, i: nat, dropVideo: bool): (rs: seq<Run>)
    requires i + 1 < |runs|
    ensures |rs| == |runs| - 1
  {
    runs[..i] + [Merged(runs[i], runs[i + 1], dropVideo)] + runs[i + 2..]
  }

  /** The history after one more run. */
  function Appended(runs: seq<Run>, r: Run): (rs: seq<Run>)
  {
    var all := runs + [r];
    if |all| <= MAX_RUNS then all
    else match OldestAlike(all, 0)
      case Some(i) => MergeAt(all, i, false)
      case None => MergeAt(all, 0, true)
  }

  function TotalBytes(runs: seq<Run>): (n: int)
  {
    if runs == [] then 0 else runs[0].bytes + TotalBytes(runs[1..])
  }

  function TotalFrames(runs: seq<Run>): (n: int)
  {
    if runs == [] then 0 else runs[0].frames + TotalFrames(runs[1..])
  }

  function TotalSeconds(runs: seq<Run>): (n: real)
  {
    if runs == [] then 0.0 else runs[0].seconds + TotalSeconds(runs[1..])
  }

  /** Every run ends where the next one begins. */
  ghost predicate Contiguous(runs: seq<Run>) {
    forall i :: 0 < i < |runs| ==> runs[i - 1].offset + runs[i - 1].bytes == runs[i].offset
  }

  lemma {:induction false} TotalsAppend(a: seq<Run>, b: seq<Run>)
    ensures TotalBytes(a + b) == TotalBytes(a) + TotalBytes(b)
    ensures TotalFrames(a + b) == TotalFrames(a) + TotalFrames(b)
    ensures TotalSeconds(a + b) == TotalSeconds(a) + TotalSeconds(b)
  {
    if a == [] {
      assert a + b == b;
    } else {
      assert (a + b)[1..] == a[1..] + b;
      TotalsAppend(a[1..], b);
    }
  }

  lemma TotalsOfPair(a: Run, b: Run)
    ensures TotalBytes([a]) == a.bytes && TotalFrames([a]) == a.frames && TotalSeconds([a]) == a.seconds
    ensures TotalBytes([a, b]) == a.bytes + b.bytes && TotalFrames([a, b]) == a.frames + b.frames
    ensures TotalSeconds([a, b]) == a.seconds + b.seconds
  {
    assert [a][1..] == [] && [a, b][1..] == [b] && [b][1..] == [];
  }

  lemma MergeKeepsTotals(runs: seq<Run>, i: nat, dropVideo: bool)
    requires i + 1 < |runs|
    ensures var rs := MergeAt(runs, i, dropVideo);
            TotalBytes(rs) == TotalBytes(runs) && TotalFrames(rs) == TotalFrames(runs)
            && TotalSeconds(rs) == TotalSeconds(runs)
  {
    hide TotalBytes, TotalFrames, TotalSeconds;
    var a, b, m := runs[i], runs[i + 1], Merged(runs[i], runs[i + 1], dropVideo);
    TotalsOfPair(a, b);
    TotalsOfPair(m, m);
    Around(runs, i);
    SplicedTotals(runs[..i], [a, b], [m], runs[i + 2..]);
  }

  lemma Around<T>(s: seq<T>, i: nat)
    requires i + 1 < |s|
    ensures s == s[..i] + [s[i], s[i + 1]] + s[i + 2..]
  {
    assert s[i..i + 2] == [s[i], s[i + 1]];
    assert s == s[..i] + s[i..i + 2] + s[i + 2..];
  }

  lemma SplicedTotals(pre: seq<Run>, x: seq<Run>, y: seq<Run>, post: seq<Run>)
    requires TotalBytes(x) == TotalBytes(y) && TotalFrames(x) == TotalFrames(y) && TotalSeconds(x) == TotalSeconds(y)
    ensures TotalBytes(pre + x + post) == TotalBytes(pre + y + post)
    ensures TotalFrames(pre + x + post) == TotalFrames(pre + y + post)
    ensures TotalSeconds(pre + x + post) == TotalSeconds(pre + y + post)
  {
    hide TotalBytes, TotalFrames, TotalSeconds;
    TotalsAppend(pre + x, post);
    TotalsAppend(pre + y, post);
    TotalsAppend(pre, x);
    TotalsAppend(pre, y);
  }

  /** Conservation: the capped history keeps all bytes, frames and playback time, ends with the new run unmerged, and
      its byte ranges stay adjacent when they were. */
  lemma AppendedConserves(runs: seq<Run>, r: Run)
    requires |runs| <= MAX_RUNS
    ensures var rs := Appended(runs, r);
            && 0 < |rs| <= 2000 && rs[|rs| - 1] == r
            && TotalBytes(rs) == TotalBytes(runs) + r.bytes
            && TotalFrames(rs) == TotalFrames(runs) + r.frames
            && TotalSeconds(rs) == TotalSeconds(runs) + r.seconds
            && (runs != [] ==>
                  rs[0].offset == runs[0].offset && rs[0].anchor == runs[0].anchor
                  && rs[0].startedAt == runs[0].startedAt)
            && (Contiguous(runs + [r]) ==> Contiguous(rs))
  {
    hide TotalBytes, TotalFrames, TotalSeconds;
    TotalsAppend(runs, [r]);
    TotalsOfPair(r, r);
    var all := runs + [r];
    if |all| > MAX_RUNS {
      match OldestAlike(all, 0)
      case Some(i) => MergeKeepsTotals(all, i, false);
      case None => MergeKeepsTotals(all, 0, true);
    }
  }

  /** rs is `all` with the neighbours i and i + 1 replaced by one record. */
  ghost predicate MergedInto(all: seq<Run>, rs: seq<Run>, i: nat) {
    && i + 1 < |all| && |rs| == |all| - 1
    && rs == all[..i] + [rs[i]] + all[i + 2..]
  }

  /** Runs k and k + 1, both before the new one, have TS files or have none. */
  predicate Agree(all: seq<Run>, k: nat)
    requires k + 2 < |all|
  {
    all[k].videoFiles != [] <==> all[k + 1].videoFiles != []
  }

  /** The TS files of the record that replaced the neighbours i and i + 1. */
  ghost predicate OldestPair(all: seq<Run>, i: nat, videoFiles: seq<string>)
    requires i + 2 < |all|
  {
    if Agree(all, i) then
      videoFiles == all[i].videoFiles + all[i + 1].videoFiles && forall k :: 0 <= k < i ==> !Agree(all, k)
    else
      i == 0 && videoFiles == [] && forall k :: 0 <= k && k + 2 < |all| ==> !Agree(all, k)
  }

  /** TS files are only kept together: a record of the new history is an old one, or the merge of the two oldest
      neighbours that are alike and lists the files of both in order, or, when no two neighbours are alike, the merge of
      the two oldest runs and lists none. */
  lemma AppendedKeepsVideoWhole(runs: seq<Run>, r: Run)
    requires |runs| <= MAX_RUNS
    ensures var all, rs := runs + [r], Appended(runs, r);
            || rs == all
            || exists i: nat :: MergedInto(all, rs, i) && i + 2 < |all| && OldestPair(all, i, rs[i].videoFiles)
  {
    var all, rs := runs + [r], Appended(runs, r);
    if |all| > MAX_RUNS {
      var oldest := OldestAlike(all, 0);
      var i := if oldest.Some? then oldest.value else 0;
      assert forall k :: 0 <= k && k + 2 < |all| ==> (Agree(all, k) <==> Alike(all, k));
      assert MergedInto(all, rs, i) && OldestPair(all, i, rs[i].videoFiles);
    }
  }

  /** The record that replaced the neighbours i and i + 1: from the beginning of the first to the later end of the two,
      the latter being known if either is, with the first one's clock and place, and what both hold. */
  ghost predicate Spans(all: seq<Run>, i: nat, m: Run)
    requires i + 1 < |all|
  {
    var a, b := all[i], all[i + 1];
    && m.startedAt == a.startedAt && m.anchor == a.anchor && m.anchorSource == a.anchorSource && m.offset == a.offset
    && m.bytes == a.bytes + b.bytes && m.frames == a.frames + b.frames && m.seconds == a.seconds + b.seconds
    && (m.endedAt.None? <==> a.endedAt.None? && b.endedAt.None?)
    && (m.endedAt.Some? ==> m.endedAt == a.endedAt || m.endedAt == b.endedAt)
    && (a.endedAt.Some? ==> m.endedAt.value >= a.endedAt.value)
    && (b.endedAt.Some? ==> m.endedAt.value >= b.endedAt.value)
  }

  /** Exactly when the history is full two neighbours, never the new run, become one record, which spans them. */
  lemma AppendedSpans(runs: seq<Run>, r: Run)
    requires |runs| <= MAX_RUNS
    ensures var all, rs := runs + [r], Appended(runs, r);
            if |runs| < 2000 then rs == all
            else exists i: nat :: MergedInto(all, rs, i) && i + 1 < |runs| && Spans(all, i, rs[i])
  {
    var all, rs := runs + [r], Appended(runs, r);
    if |all| > MAX_RUNS {
      var oldest := OldestAlike(all, 0);
      var i := if oldest.Some? then oldest.value else 0;
      assert MergedInto(all, rs, i) && Spans(all, i, rs[i]);
    }
  }

  datatype State = Recording | Finalized | Uploading | Uploaded | Kept | Failed

  class Session {
    const id: string
    const sessionId: string
    const start: int // milliseconds
    var state: State
    var runs: seq<Run>
    var runsCoalesced: bool
    var suspendedAt: Option<int>
    var key: string
    var keyRenames: nat
    var mediaUploaded: bool
    var uploadETag: string
    var uploadAttempts: nat

    constructor (id: string, sessionId: string, start: int)
      ensures this.id == id && this.sessionId == sessionId && this.start == start && state == Recording && runs == []
              && !runsCoalesced
      ensures suspendedAt == None && key == "" && keyRenames == 0 && !mediaUploaded && uploadETag == ""
              && uploadAttempts == 0
    {
      this.id, this.sessionId, this.start := id, sessionId, start;
      state, runs, runsCoalesced, suspendedAt := Recording, [], false, None;
      key, keyRenames, mediaUploaded, uploadETag, uploadAttempts := "", 0, false, "", 0;
    }

    /** setKey: what is known about the object under the old key says nothing about the new one. */
    method SetKey(k: string)
      modifies this`key, this`mediaUploaded, this`uploadETag
      ensures key == k
      ensures mediaUploaded == (old(mediaUploaded) && old(key) == k)
      ensures uploadETag == if old(key) == k then old(uploadETag) else ""
    {
      if key == k {
        return;
      }
      key := k;
      mediaUploaded := false;
      uploadETag := "";
    }

    /** appendRun: returns true the first time the history had to be coalesced. */
    method AppendRun(r: Run) returns (coalescedNow: bool)
      modifies this`runs, this`runsCoalesced
      ensures runs == Appended(old(runs), r)
      ensures runsCoalesced == (old(runsCoalesced) || |old(runs)| >= MAX_RUNS)
      ensures coalescedNow == (runsCoalesced && !old(runsCoalesced))
    {
      hide LaterTime;
      runs := runs + [r];
      if |runs| <= MAX_RUNS {
        return false;
      }
      var i, dropVideo := 0, true;
      var j := 0;
      while j + 1 < |runs| - 1 // never the run just appended
        invariant i == 0 && dropVideo && OldestAlike(runs, 0) == OldestAlike(runs, j)
        decreases |runs| - j
      {
        if (|runs[j].videoFiles| > 0) == (|runs[j + 1].videoFiles| > 0) {
          i, dropVideo := j, false;
          break;
        }
        j := j + 1;
      }
      assert OldestAlike(runs, 0) == if dropVideo then None else Some(i);
      var a, b := runs[i], runs[i + 1];
      a := a.(bytes := a.bytes + b.bytes);
      a := a.(frames := a.frames + b.frames);
      a := a.(seconds := a.seconds + b.seconds);
      if dropVideo {
        a := a.(videoFiles := []);
      } else if |b.videoFiles| > 0 {
        a := a.(videoFiles := a.videoFiles + b.videoFiles);
      }
      a := a.(endedAt := LaterTime(a.endedAt, b.endedAt));
      runs := runs[..i] + [a] + runs[i + 2..];
      if !runsCoalesced {
        runsCoalesced := true;
        return true;
      }
      return false;
    }

    /** openRun: the last run while it has not ended. */
    predicate HasOpenRun()
      reads this
    {
      |runs| > 0 && runs[|runs| - 1].endedAt.None?
    }

    /** fixOpenRun: closes a run left open by a crash, using the already trimmed file size. */
    method FixOpenRun(size: int, now: int)
      modifies this`runs
      ensures !old(HasOpenRun()) ==> runs == old(runs)
      ensures !HasOpenRun()
      ensures old(HasOpenRun()) ==>
                var k := |runs| - 1;
                var r := old(runs[|runs| - 1]);
                && |runs| == |old(runs)| && runs[..k] == old(runs)[..k]
                && runs[k] == r.(endedAt := Some(suspendedAt.GetOr(now)),
                                 bytes := if size >= r.offset then size - r.offset else r.bytes)
    {
      if !HasOpenRun() {
        return;
      }
      var k := |runs| - 1;
      var end := now;
      if suspendedAt.Some? {
        end := suspendedAt.value;
      }
      var r := runs[k].(endedAt := Some(end));
      if size >= r.offset {
        r := r.(bytes := size - r.offset);
      }
      runs := runs[k := r];
    }
  }
}
