/** The per-run scanner (internal/adts/duration.go: ScanRuns): one pass over the file that charges every element to the
    run whose byte range holds its first byte. */
module RunScanning {
  import opened Bytes
  import opened AdtsHeader
  import opened Scanning
  import Id3

  /** Run start offsets as the capture records them. */
  ghost predicate Ascends(offsets: seq<int>) {
    forall i, j :: 0 <= i <= j < |offsets| ==> offsets[i] <= offsets[j]
  }

  /** No offsets at all mean one implicit run. */
  function RunCount(offsets: seq<int>): (n: nat)
    ensures n >= 1
  {
    if offsets == [] then 1 else |offsets|
  }

  /** pos lies in the byte range of run i: run 0 also covers what precedes it, the last run extends to the end of the
      file. */
  ghost predicate InRun(offsets: seq<int>, i: nat, pos: int) {
    && i < RunCount(offsets)
    && (i > 0 ==> offsets[i] <= pos)
    && (i + 1 < |offsets| ==> pos < offsets[i + 1])
  }

  /** The run of a position: the last one that starts at or before it, else run 0. */
  function RunOf(offsets: seq<int>, pos: int): (i: nat)
    ensures i < RunCount(offsets)
  {
    if |offsets| <= 1 then 0
    else if offsets[|offsets| - 1] <= pos then |offsets| - 1
    else RunOf(offsets[..|offsets| - 1], pos)
  }

  /** Byte ranges partition the positions: RunOf is the one run a position lies in. */
  lemma {:induction false} RunOfIsTheRun(offsets: seq<int>, i: nat, pos: int)
    requires Ascends(offsets)
    ensures InRun(offsets, i, pos) <==> i == RunOf(offsets, pos)
    decreases |offsets|
  {
    if |offsets| > 1 && offsets[|offsets| - 1] > pos {
      var init := offsets[..|offsets| - 1];
      RunOfIsTheRun(init, i, pos);
      var r := RunOf(init, pos);
      RunOfIsTheRun(init, r, pos);
    }
  }

  /** The elements charged to run i. */
  function Charged(es: seq<Elem>, offsets: seq<int>, i: nat): (mine: seq<Elem>)
  {
    if es == [] then []
    else (if RunOf(offsets, es[0].off) == i then [es[0]] else []) + Charged(es[1..], offsets, i)
  }

  lemma {:induction false} ChargedSnoc(es: seq<Elem>, e: Elem, offsets: seq<int>, i: nat)
    ensures Charged(es + [e], offsets, i) == Charged(es, offsets, i) + if RunOf(offsets, e.off) == i then [e] else []
  {
    hide RunOf;
    if es == [] {
      assert es + [e] == [e] && [e][1..] == [];
    } else {
      var first, last := if RunOf(offsets, es[0].off) == i then [es[0]] else [], if RunOf(offsets, e.off) == i then [e]
                                                                                 else [];
      ChargedSnoc(es[1..], e, offsets, i);
      assert (es + [e])[0] == es[0] && (es + [e])[1..] == es[1..] + [e];
      Associate(first, Charged(es[1..], offsets, i), last);
    }
  }

  /** What ScanRuns reports for one run. */
  datatype RunInfo = RunInfo(frames: nat, seconds: real, junk: nat, tags: nat, tagBytes: nat,
                             params: Option<Params>, paramsChanged: bool)

  const NOTHING := RunInfo(0, 0.0, 0, 0, 0, None, false)

  /** The report about a run that was charged the given elements. */
  function RunReport(mine: seq<Elem>): (r: RunInfo)
  {
    var t, fs := Sum(mine), Frames(mine);
    RunInfo(t.frames, t.seconds, t.junk, t.tags, t.tagBytes,
            if fs == [] then None else Some(fs[0].header.params),
            exists k :: 0 <= k < |fs| && fs[k].header.params != fs[0].header.params)
  }

  /** A run's report after one more element. */
  function AddElem(r: RunInfo, e: Elem): (r': RunInfo)
  {
    match e
    case Junk(_, n) => r.(junk := r.junk + n)
    case Tag(_, n) => r.(tags := r.tags + 1, tagBytes := r.tagBytes + n)
    case Frame(_, h) =>
      r.(frames := r.frames + 1, seconds := r.seconds + Seconds(h.params),
         params := if r.frames == 0 then Some(h.params) else r.params,
         paramsChanged := r.paramsChanged || (r.frames > 0 && r.params != Some(h.params)))
  }

  lemma RunReportSnoc(mine: seq<Elem>, e: Elem)
    ensures RunReport(mine + [e]) == AddElem(RunReport(mine), e)
  {
    hide Seconds, Sum, Frames;
    SumSnoc(mine, e);
    FramesSnoc(mine, e);
    FrameCount(mine);
    var fs, gs := Frames(mine), Frames(mine + [e]);
    if e.Frame? {
      assert gs == fs + [At(e.off, e.header)];
      if fs != [] {
        assert gs[0] == fs[0];
        assert forall k :: 0 <= k < |fs| ==> gs[k] == fs[k];
        assert gs[|fs|] == At(e.off, e.header);
      }
    } else {
      assert gs == fs;
    }
  }

  /** Reports of all runs of the file. */
  function RunReports(es: seq<Elem>, offsets: seq<int>): (rs: seq<RunInfo>)
    ensures |rs| == RunCount(offsets)
  {
    seq(RunCount(offsets), i requires 0 <= i => RunReport(Charged(es, offsets, i)))
  }

  lemma {:induction false} ChargedWithAll(es: seq<Elem>, offsets: seq<int>)
    requires |offsets| <= 1
    ensures Charged(es, offsets, 0) == es
  {
    if es != [] {
      ChargedWithAll(es[1..], offsets);
    }
  }

  /** With one run, recorded or implicit, its report is that of the plain scan. */
  lemma OneRunIsTheScan(file: seq<Byte>, offsets: seq<int>)
    requires |offsets| <= 1
    ensures var rs, info := RunReports(Elements(file, false, 0), offsets), Report(file);
            && |rs| == 1
            && rs[0] == RunInfo(info.frames, info.seconds, info.junk, info.tags, info.tagBytes, info.params,
                                info.paramsChanged)
  {
    hide Elements, Frames, Sum, OpenChunks, ClosedChunks, Grouped, AllTrusted, Charged, RunOf;
    var es := Elements(file, false, 0);
    ChargedWithAll(es, offsets);
    ReportIsExact(file);
    var fs := Frames(es);
    assert (exists f :: f in fs && f.header.params != fs[0].header.params) <==>
           exists k :: 0 <= k < |fs| && fs[k].header.params != fs[0].header.params;
  }

  /** Stepping over one element changes the report of the run it is charged to and of no other. */
  lemma RunReportsSnoc(es: seq<Elem>, e: Elem, offsets: seq<int>)
    ensures var i := RunOf(offsets, e.off);
            var rs := RunReports(es, offsets);
            RunReports(es + [e], offsets) == rs[i := AddElem(rs[i], e)]
  {
    hide RunReport, AddElem, RunOf, Charged;
    var i, rs, rs' := RunOf(offsets, e.off), RunReports(es, offsets), RunReports(es + [e], offsets);
    forall k | 0 <= k < |rs|
      ensures rs'[k] == rs[i := AddElem(rs[i], e)][k]
    {
      ChargedSnoc(es, e, offsets, k);
      if k == i {
        RunReportSnoc(Charged(es, offsets, k), e);
      } else {
        assert Charged(es, offsets, k) + [] == Charged(es, offsets, k);
      }
    }
  }

  /** Totals of a list of run reports. */
  function Total(rs: seq<RunInfo>): (t: RunInfo)
  {
    if rs == [] then NOTHING
    else
      var t, r := Total(rs[..|rs| - 1]), rs[|rs| - 1];
      RunInfo(t.frames + r.frames, t.seconds + r.seconds, t.junk + r.junk, t.tags + r.tags, t.tagBytes + r.tagBytes,
              None, false)
  }

  /** The counters of a report, without the parameters. */
  function Counters(t: Totals): (r: RunInfo)
  {
    RunInfo(t.frames, t.seconds, t.junk, t.tags, t.tagBytes, None, false)
  }

  lemma {:induction false} TotalOfUpdate(rs: seq<RunInfo>, i: nat, e: Elem)
    requires i < |rs|
    ensures var t := Total(rs); var t' := Total(rs[i := AddElem(rs[i], e)]); var c := Count(e);
            t' == RunInfo(t.frames + c.frames, t.seconds + c.seconds, t.junk + c.junk, t.tags + c.tags,
                          t.tagBytes + c.tagBytes, None, false)
  {
    hide Seconds;
    var n := |rs| - 1;
    var rs' := rs[i := AddElem(rs[i], e)];
    if i == n {
      assert rs'[..n] == rs[..n];
    } else {
      assert rs'[..n] == rs[..n][i := AddElem(rs[i], e)];
      TotalOfUpdate(rs[..n], i, e);
    }
  }

  /** Conservation over runs: whatever the offsets, the runs' counters add up to the counters of the plain scan. */
  lemma {:induction false} RunsSumToScan(es: seq<Elem>, offsets: seq<int>)
    ensures Total(RunReports(es, offsets)) == Counters(Sum(es))
    decreases |es|
  {
    hide RunReport, AddElem, RunOf, Charged, RunReports, Count;
    if es == [] {
      EmptyRunsTotal(offsets, RunCount(offsets));
    } else {
      var init, e := es[..|es| - 1], es[|es| - 1];
      assert es == init + [e];
      RunsSumToScan(init, offsets);
      RunReportsSnoc(init, e, offsets);
      SumSnoc(init, e);
      TotalOfUpdate(RunReports(init, offsets), RunOf(offsets, e.off), e);
    }
  }

  lemma {:induction false} EmptyRunsTotal(offsets: seq<int>, n: nat)
    requires n <= RunCount(offsets)
    ensures Total(RunReports([], offsets)[..n]) == NOTHING
    ensures RunReports([], offsets)[..RunCount(offsets)] == RunReports([], offsets)
  {
    if n > 0 {
      EmptyRunsTotal(offsets, n - 1);
      var rs := RunReports([], offsets);
      assert rs[..n][..n - 1] == rs[..n - 1];
      assert rs[n - 1] == NOTHING;
    }
  }

  // ---------------------------------------------------------------------------------------------------------------
  // Deleting an inner offset
  // ---------------------------------------------------------------------------------------------------------------

  function Without(offsets: seq<int>, j: nat): (o: seq<int>)
    requires 0 < j < |offsets|
  {
    offsets[..j] + offsets[j + 1..]
  }

  /** Without offset j, positions of run j fall into run j - 1 and later runs move down by one. */
  lemma RunOfWithout(offsets: seq<int>, j: nat, pos: int)
    requires Ascends(offsets) && 0 < j < |offsets|
    ensures Ascends(Without(offsets, j)) && RunCount(Without(offsets, j)) == RunCount(offsets) - 1
    ensures RunOf(Without(offsets, j), pos) ==
              if RunOf(offsets, pos) < j then RunOf(offsets, pos) else RunOf(offsets, pos) - 1
  {
    hide RunOf;
    var o, i := Without(offsets, j), RunOf(offsets, pos);
    RunOfIsTheRun(offsets, i, pos);
    RunOfIsTheRun(o, if i < j then i else i - 1, pos);
  }

  /** Elements in file order fall into runs in order. */
  lemma {:induction false} RunsInOrder(es: seq<Elem>, off: nat, end: nat, offsets: seq<int>, i: nat)
    requires Ascends(offsets) && Consecutive(es, off, end) && i < RunOf(offsets, off)
    ensures Charged(es, offsets, i) == []
  {
    hide RunOf;
    if es != [] {
      var next := off + es[0].Size();
      RunOfIsTheRun(offsets, RunOf(offsets, off), off);
      RunOfIsTheRun(offsets, RunOf(offsets, next), next);
      RunsInOrder(es[1..], next, end, offsets, i);
    }
  }

  /** The first element goes to its run, in front of what else that run is charged. */
  lemma ChargedCons(es: seq<Elem>, offsets: seq<int>, i: nat)
    requires es != []
    ensures Charged(es, offsets, i) ==
              if RunOf(offsets, es[0].off) == i then [es[0]] + Charged(es[1..], offsets, i)
              else Charged(es[1..], offsets, i)
  {
    hide RunOf;
    assert [] + Charged(es[1..], offsets, i) == Charged(es[1..], offsets, i);
  }

  /** What run i is charged once offset j has been deleted: the two neighbours together, or what one run was before. */
  predicate JoinedAt(es: seq<Elem>, offsets: seq<int>, j: nat, i: nat)
    requires 0 < j < |offsets|
  {
    Charged(es, Without(offsets, j), i) ==
      if i < j - 1 then Charged(es, offsets, i)
      else if i == j - 1 then Charged(es, offsets, j - 1) + Charged(es, offsets, j)
      else Charged(es, offsets, i + 1)
  }

  lemma JoinedOneMore(es: seq<Elem>, off: nat, end: nat, offsets: seq<int>, j: nat, i: nat)
    requires Ascends(offsets) && 0 < j < |offsets| && es != [] && Consecutive(es, off, end)
    requires JoinedAt(es[1..], offsets, j, i)
    ensures JoinedAt(es, offsets, j, i)
  {
    hide RunOf, Without, Charged;
    var rest, next := es[1..], off + es[0].Size();
    var r := RunOf(offsets, off);
    RunOfWithout(offsets, j, off);
    ChargedCons(es, Without(offsets, j), i);
    ChargedCons(es, offsets, i);
    ChargedCons(es, offsets, i + 1);
    if i == j - 1 {
      var before, after := Charged(rest, offsets, j - 1), Charged(rest, offsets, j);
      if r == j - 1 {
        Associate([es[0]], before, after);
      } else if r == j {
        RunsInOrder(rest, next, end, offsets, j - 1) by {
          RunOfIsTheRun(offsets, j, off);
          RunOfIsTheRun(offsets, RunOf(offsets, next), next);
        }
        assert [] + after == after && [] + ([es[0]] + after) == [es[0]] + after;
      }
    }
  }

  /** Deleting inner offset j charges to run j - 1 exactly the elements of the two neighbouring runs, in order, and
      leaves the other runs alone. */
  lemma {:induction false} ChargedWithout(es: seq<Elem>, off: nat, end: nat, offsets: seq<int>, j: nat, i: nat)
    requires Ascends(offsets) && 0 < j < |offsets| && Consecutive(es, off, end)
    ensures JoinedAt(es, offsets, j, i)
  {
    hide Without;
    if es != [] {
      ChargedWithout(es[1..], off + es[0].Size(), end, offsets, j, i);
      JoinedOneMore(es, off, end, offsets, j, i);
    }
  }

  /** In terms of the reports: the counters of run j - 1 become the sum of the two runs' counters. */
  lemma DeletingAnOffsetMergesRuns(file: seq<Byte>, offsets: seq<int>, j: nat, i: nat)
    requires Ascends(offsets) && 0 < j < |offsets| && i < |offsets| - 1
    ensures var es := Elements(file, false, 0);
            var rs, rs' := RunReports(es, offsets), RunReports(es, Without(offsets, j));
            && |rs'| == |rs| - 1
            && (i < j - 1 ==> rs'[i] == rs[i])
            && (i > j - 1 ==> rs'[i] == rs[i + 1])
            && (i == j - 1 ==>
                  && rs'[i].frames == rs[i].frames + rs[j].frames && rs'[i].seconds == rs[i].seconds + rs[j].seconds
                  && rs'[i].junk == rs[i].junk + rs[j].junk
                  && rs'[i].tags == rs[i].tags + rs[j].tags && rs'[i].tagBytes == rs[i].tagBytes + rs[j].tagBytes)
  {
    hide Elements, RunOf, Sum, Frames, Charged, Without;
    var es := Elements(file, false, 0);
    ScanConserves(file, false, 0);
    ChargedWithout(es, 0, |file|, offsets, j, i);
    RunOfWithout(offsets, j, 0);
    SumAppend(Charged(es, offsets, j - 1), Charged(es, offsets, j));
  }

  // ---------------------------------------------------------------------------------------------------------------
  // The scan
  // ---------------------------------------------------------------------------------------------------------------

  /** idxFor: the run of pos, found by moving the cursor forward only. */
  method IdxFor(offsets: seq<int>, cur: nat, pos: int) returns (idx: nat)
    requires Ascends(offsets) && cur < RunCount(offsets) && (cur > 0 ==> offsets[cur] <= pos)
    ensures idx == RunOf(offsets, pos) && (idx > 0 ==> offsets[idx] <= pos)
  {
    idx := cur;
    while idx + 1 < |offsets| && pos >= offsets[idx + 1]
      invariant idx < RunCount(offsets) && (idx > 0 ==> offsets[idx] <= pos)
      decreases |offsets| - idx
    {
      idx := idx + 1;
    }
    RunOfIsTheRun(offsets, idx, pos);
  }

  method ChargeJunk(runs: array<RunInfo>, idx: nat, n: nat, ghost off: nat)
    requires idx < runs.Length
    modifies runs
    ensures runs[..] == old(runs[..])[idx := AddElem(old(runs[idx]), Junk(off, n))]
  {
    runs[idx] := runs[idx].(junk := runs[idx].junk + n);
  }

  method ChargeTag(runs: array<RunInfo>, idx: nat, n: nat, ghost off: nat)
    requires idx < runs.Length
    modifies runs
    ensures runs[..] == old(runs[..])[idx := AddElem(old(runs[idx]), Tag(off, n))]
  {
    runs[idx] := runs[idx].(tags := runs[idx].tags + 1, tagBytes := runs[idx].tagBytes + n);
  }

  method ChargeFrame(runs: array<RunInfo>, idx: nat, p: Params, ghost off: nat, ghost length: nat)
    requires idx < runs.Length
    modifies runs
    ensures runs[..] == old(runs[..])[idx := AddElem(old(runs[idx]), Frame(off, Header(p, length)))]
  {
    runs[idx] := runs[idx].(seconds := runs[idx].seconds + Seconds(p));
    if runs[idx].frames == 0 {
      runs[idx] := runs[idx].(params := Some(p));
    } else if runs[idx].params != Some(p) {
      runs[idx] := runs[idx].(paramsChanged := true);
    }
    runs[idx] := runs[idx].(frames := runs[idx].frames + 1);
  }

  /** ScanRuns: reports per run, and totals that are those of the plain scan, chunks included. */
  method ScanRuns(file: seq<Byte>, offsets: seq<int>) returns (runs: array<RunInfo>, total: Info)
    requires Ascends(offsets)
    ensures fresh(runs) && runs[..] == RunReports(Elements(file, false, 0), offsets)
    ensures total == Report(file)
  {
    hide Elements, Sum, Frames, OpenChunks, AddFrame, HeaderParams, FrameLength, Id3.TagLen, Seconds, ParseHeader,
      RunOf, RunReports,
      ClosedChunks, AddElem;
    runs := new RunInfo[RunCount(offsets)](_ => NOTHING);
    var chunks := new ChunkList();
    var cur: nat, pos: nat, synced := 0, 0, false;
    ghost var es: seq<Elem> := [];
    ScanStart(file);
    NoElementsYet(offsets);
    assert runs[..] == RunReports([], offsets);
    while pos < |file|
      invariant pos <= |file| && fresh(chunks) && chunks.Valid() && fresh(runs) && runs.Length == RunCount(offsets)
      invariant cur < RunCount(offsets) && (cur > 0 ==> offsets[cur] <= pos)
      invariant Elements(file, false, 0) == es + Elements(file[pos..], synced, pos)
      invariant runs[..] == RunReports(es, offsets)
      invariant chunks.Open() == OpenChunks(Frames(es))
      decreases |file| - pos
    {
      var rest := file[pos..];
      Stepped(file, es, pos, synced);
      ghost var e := FindAt(rest, synced, pos).elem;
      RunReportsSnoc(es, e, offsets);
      es := es + [e];
      cur := IdxFor(offsets, cur, pos);
      if |rest| >= 10 {
        var n := Id3.TagLen(rest);
        if n.Some? {
          var d := if n.value > |rest| then |rest| else n.value;
          ChargeTag(runs, cur, d, pos);
          pos := pos + d;
          synced := false;
          continue;
        }
      }
      if |rest| < MIN_HEADER {
        ChargeJunk(runs, cur, |rest|, pos);
        pos := pos + |rest|;
        continue;
      }
      var header := ParseHeader(rest);
      if header.None? {
        ChargeJunk(runs, cur, 1, pos);
        pos := pos + 1;
        synced := false;
        continue;
      }
      var frameLen := header.value;
      var want := frameLen;
      if !synced {
        want := want + MIN_HEADER;
      }
      if |rest| < want {
        if |rest| < frameLen {
          ChargeJunk(runs, cur, |rest|, pos);
          pos := pos + |rest|;
          continue;
        }
        if |rest| != frameLen {
          ChargeJunk(runs, cur, 1, pos);
          pos := pos + 1;
          continue;
        }
      } else if !synced {
        if ParseHeader(rest[frameLen..]).None? {
          ChargeJunk(runs, cur, 1, pos);
          pos := pos + 1;
          continue;
        }
      }
      synced := true;
      var p := HeaderParams(rest);
      ChargeFrame(runs, cur, p, pos, frameLen);
      chunks.Frame(pos, p, Seconds(p));
      pos := pos + frameLen;
    }
    ScanEnd(file, es, synced);
    var t := SumRuns(runs);
    RunsSumToScan(es, offsets);
    var cs := chunks.Done(pos);
    total := Info(t.frames, t.seconds, t.junk, t.tags, t.tagBytes, if cs == [] then None else Some(cs[0].params),
                  |cs| > 1, cs);
  }

  lemma NoElementsYet(offsets: seq<int>)
    ensures RunReports([], offsets) == seq(RunCount(offsets), _ => NOTHING)
  {
  }

  /** The closing loop over the runs. */
  method SumRuns(runs: array<RunInfo>) returns (total: RunInfo)
    ensures total == Total(runs[..])
  {
    total := NOTHING;
    for i := 0 to runs.Length
      invariant total == Total(runs[..i])
    {
      var r := runs[i];
      assert runs[..i + 1] == runs[..i] + [r];
      total := RunInfo(total.frames + r.frames, total.seconds + r.seconds, total.junk + r.junk, total.tags + r.tags,
                       total.tagBytes + r.tagBytes, None, false);
    }
    assert runs[..runs.Length] == runs[..];
  }
}
