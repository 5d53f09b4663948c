/** Measuring a finished capture (internal/recorder/upload.go: measure): the tail is repaired, every run gets its
    scanned frames and playback time, and its byte length is set to its true extent in the file. */
module Measuring {
  import opened Bytes
  import opened SessionRecord
  import Scanning
  import RunScanning
  import TailRepair

  function Offsets(runs: seq<Run>): (offsets: seq<int>)
    ensures |offsets| == |runs| && forall i :: 0 <= i < |runs| ==> offsets[i] == runs[i].offset
  {
    seq(|runs|, i requires 0 <= i < |runs| => runs[i].offset)
  }

  /** Where run i ends: at the next run's first byte, the last one at the end of the file. */
  function EndOf(runs: seq<Run>, i: nat, size: int): (end: int)
    requires i < |runs|
  {
    if i + 1 < |runs| then runs[i + 1].offset else size
  }

  /** Run i after measuring. */
  function MeasuredRun(runs: seq<Run>, i: nat, reports: seq<RunScanning.RunInfo>, size: int): (r: Run)
    requires i < |runs| <= |reports|
  {
    var r := runs[i].(frames := reports[i].frames, seconds := reports[i].seconds);
    var want := EndOf(runs, i, size) - r.offset;
    if want >= 0 then r.(bytes := want) else r
  }

  function Measured(runs: seq<Run>, reports: seq<RunScanning.RunInfo>, size: int): (rs: seq<Run>)
    requires |runs| <= |reports|
    ensures |rs| == |runs| && forall i :: 0 <= i < |rs| ==> rs[i] == MeasuredRun(runs, i, reports, size)
  {
    seq(|runs|, i requires 0 <= i < |runs| => MeasuredRun(runs, i, reports, size))
  }

  /** What one upload attempt measures about a capture file. */
  method Measure(session: Session, file: seq<Byte>)
      returns (left: seq<Byte>, reports: array<RunScanning.RunInfo>, total: Scanning.Info)
    requires RunScanning.Ascends(Offsets(session.runs))
    modifies session
    ensures left == TailRepair.Trimmed(file) && total == Scanning.Report(left)
    ensures reports[..] == RunScanning.RunReports(Scanning.Elements(left, false, 0), Offsets(old(session.runs)))
    ensures session.runs == Measured(old(session.runs), reports[..], |left|)
  {
    hide TailRepair.Trimmed, Scanning.Report, Scanning.Elements;
    var removed;
    left, removed := TailRepair.TrimPartialTail(file);
    var offsets := Offsets(session.runs);
    reports, total := RunScanning.ScanRuns(left, offsets);
    ghost var before := session.runs;
    ghost var rs := reports[..];
    var n := |session.runs|;
    for i := 0 to n
      invariant |session.runs| == n && reports[..] == rs && |rs| >= n
      invariant forall k :: 0 <= k < i ==> session.runs[k] == MeasuredRun(before, k, rs, |left|)
      invariant forall k :: i <= k < n ==> session.runs[k] == before[k]
    {
      var r := session.runs[i].(frames := reports[i].frames, seconds := reports[i].seconds);
      var want := |left| - r.offset;
      if i + 1 < n {
        want := session.runs[i + 1].offset - r.offset;
      }
      if want >= 0 && r.bytes != want {
        r := r.(bytes := want);
      }
      session.runs := session.runs[i := r];
    }
  }

  /** Frames of the first n runs. */
  lemma {:induction false} SumOfMeasured(runs: seq<Run>, reports: seq<RunScanning.RunInfo>, size: int)
    requires |runs| <= |reports| && runs != [] && RunScanning.Ascends(Offsets(runs)) && runs[|runs| - 1].offset <= size
    ensures TotalBytes(Measured(runs, reports, size)) == size - runs[0].offset
    ensures TotalFrames(Measured(runs, reports, size)) == RunScanning.Total(reports[..|runs|]).frames
    ensures TotalSeconds(Measured(runs, reports, size)) == RunScanning.Total(reports[..|runs|]).seconds
    decreases |runs|
  {
    hide RunScanning.Total, TotalBytes, TotalFrames, TotalSeconds;
    var n := |runs| - 1;
    var rs := Measured(runs, reports, size);
    var last := MeasuredRun(runs, n, reports, size);
    assert Offsets(runs)[n] <= size;
    assert reports[..n + 1][..n] == reports[..n] && reports[..n + 1][n] == reports[n];
    TotalUnfold(reports[..n + 1]);
    TotalsOfPair(last, last);
    if n == 0 {
      assert rs == [last];
      TotalUnfold(reports[..0]);
    } else {
      var init := runs[..n];
      assert Offsets(init)[n - 1] == Offsets(runs)[n - 1] <= Offsets(runs)[n];
      assert RunScanning.Ascends(Offsets(init)) by {
        assert Offsets(init) == Offsets(runs)[..n];
      }
      SumOfMeasured(init, reports, runs[n].offset);
      assert rs == Measured(init, reports, runs[n].offset) + [last];
      TotalsAppend(Measured(init, reports, runs[n].offset), [last]);
      assert Offsets(runs)[0] == runs[0].offset;
    }
  }

  lemma TotalUnfold(rs: seq<RunScanning.RunInfo>)
    ensures rs == [] ==> RunScanning.Total(rs) == RunScanning.NOTHING
    ensures rs != [] ==>
              var t, r := RunScanning.Total(rs[..|rs| - 1]), rs[|rs| - 1];
              RunScanning.Total(rs).frames == t.frames + r.frames
              && RunScanning.Total(rs).seconds == t.seconds + r.seconds
  {
  }

  /** After measuring, the history accounts for the whole file: adjacent byte ranges from the first run's offset to the
      end, and all frames and playback time the scanner finds. */
  lemma MeasuredAccountsForTheFile(file: seq<Byte>, runs: seq<Run>)
    requires runs != [] && RunScanning.Ascends(Offsets(runs)) && runs[|runs| - 1].offset <= |file|
    ensures var reports := RunScanning.RunReports(Scanning.Elements(file, false, 0), Offsets(runs));
            var rs := Measured(runs, reports, |file|);
            && Contiguous(rs) && rs[|rs| - 1].offset + rs[|rs| - 1].bytes == |file|
            && TotalBytes(rs) == |file| - runs[0].offset
            && TotalFrames(rs) == Scanning.Report(file).frames && TotalSeconds(rs) == Scanning.Report(file).seconds
  {
    hide Scanning.Elements, RunScanning.RunReport, RunScanning.Total, TotalBytes, TotalFrames, TotalSeconds,
      Scanning.Sum, Scanning.Frames;
    var es := Scanning.Elements(file, false, 0);
    var reports := RunScanning.RunReports(es, Offsets(runs));
    SumOfMeasured(runs, reports, |file|);
    RunScanning.RunsSumToScan(es, Offsets(runs));
    assert reports[..|runs|] == reports;
    forall i | 0 < i < |runs|
      ensures Measured(runs, reports, |file|)[i - 1].bytes == runs[i].offset - runs[i - 1].offset
    {
      assert Offsets(runs)[i - 1] <= Offsets(runs)[i];
    }
  }
}
