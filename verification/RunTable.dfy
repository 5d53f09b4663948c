/** The run table of an object (internal/recorder/objectmeta.go: runTable, capRunTable): position in the object to wall
    clock. Positions and durations are whole milliseconds, the precision the table is written with. */
module RunTable {
  import opened Bytes

  const MAX_ENTRIES: nat := 500

  datatype Entry = Entry(sid: string, t: int, src: string, off: int, dur: int)

  /** What the table needs of one session: its runs' anchors and measured durations, or its start and whole duration. */
  datatype RunClock = RunClock(anchor: int, anchorSource: string, dur: int)
  datatype Member = Member(sid: string, start: int, dur: int, runs: seq<RunClock>)

  function Duration(es: seq<Entry>): (d: int)
  {
    if es == [] then 0 else es[0].dur + Duration(es[1..])
  }

  /** Each entry starts where the one before it ends. */
  ghost predicate Continuous(es: seq<Entry>) {
    forall i :: 0 < i < |es| ==> es[i - 1].off + es[i - 1].dur == es[i].off
  }

  lemma {:induction false} DurationAppend(a: seq<Entry>, b: seq<Entry>)
    ensures Duration(a + b) == Duration(a) + Duration(b)
  {
    if a == [] {
      assert a + b == b;
    } else {
      assert (a + b)[1..] == a[1..] + b;
      DurationAppend(a[1..], b);
    }
  }

  lemma DurationOne(e: Entry)
    ensures Duration([e]) == e.dur
  {
    assert [e][1..] == [];
  }

  /** A continuous table spans its total duration. */
  lemma {:induction false} ContinuousSpan(es: seq<Entry>)
    requires Continuous(es) && es != []
    ensures es[|es| - 1].off + es[|es| - 1].dur == es[0].off + Duration(es)
    decreases |es|
  {
    if |es| == 1 {
      DurationOne(es[0]);
      assert es == [es[0]];
    } else {
      var rest := es[1..];
      assert Continuous(rest) by {
        forall i | 0 < i < |rest|
          ensures rest[i - 1].off + rest[i - 1].dur == rest[i].off
        {
          assert es[i].off + es[i].dur == es[i + 1].off;
        }
      }
      ContinuousSpan(rest);
      assert es[0].off + es[0].dur == es[1].off;
    }
  }

  // ---------------------------------------------------------------------------------------------------------------
  // Capping
  // ---------------------------------------------------------------------------------------------------------------

  /** Index of the last entry merged into the first: the last of the leading entries of one session, at least entry
      1. */
  function MergeUpTo(es: seq<Entry>, last: nat): (k: nat)
    requires last < |es|
    ensures last <= k < |es| && (forall i :: last < i <= k ==> es[i].sid == es[0].sid)
    ensures k + 1 < |es| ==> es[k + 1].sid != es[0].sid
    decreases |es| - last
  {
    if last + 1 < |es| && es[last + 1].sid == es[0].sid then MergeUpTo(es, last + 1) else last
  }

  function CapStep(es: seq<Entry>): (r: seq<Entry>)
    requires |es| > 1
    ensures 0 < |r| < |es|
  {
    var k := MergeUpTo(es, 0);
    var last := if k == 0 then 1 else k;
    [es[0].(dur := Duration(es[..last + 1]))] + es[last + 1..]
  }

  function Capped(es: seq<Entry>, max: nat): (r: seq<Entry>)
    decreases |es|
  {
    if |es| > max && |es| > 1 then Capped(CapStep(es), max) else es
  }

  method CapRunTable(entries: seq<Entry>, max: nat) returns (r: seq<Entry>)
    ensures r == Capped(entries, max)
  {
    r := entries;
    while |r| > max && |r| > 1
      invariant Capped(entries, max) == Capped(r, max)
      decreases |r|
    {
      var last := 0;
      while last + 1 < |r| && r[last + 1].sid == r[0].sid
        invariant last < |r| && MergeUpTo(r, 0) == MergeUpTo(r, last)
        decreases |r| - last
      {
        last := last + 1;
      }
      if last == 0 {
        last := 1;
      }
      var merged := r[0];
      for i := 1 to last + 1
        invariant merged == r[0].(dur := Duration(r[..i]))
      {
        assert r[..i + 1] == r[..i] + [r[i]];
        DurationAppend(r[..i], [r[i]]);
        DurationOne(r[i]);
        merged := merged.(dur := merged.dur + r[i].dur);
      }
      r := [merged] + r[last + 1..];
    }
  }

  /** Nothing of the map's span is lost: the total duration, the position and clock of the first entry, and everything
      behind the merged head stay; the table fits, and a continuous one stays continuous. */
  lemma {:induction false} CappedKeepsTheMap(es: seq<Entry>, max: nat)
    ensures var r := Capped(es, max);
            && Duration(r) == Duration(es)
            && (|r| <= max || |r| <= 1)
            && (es != [] ==> r != [] && r[0] == es[0].(dur := r[0].dur))
            && (es != [] ==> r[1..] == es[|es| - |r| + 1..] && |r| <= |es|)
            && (Continuous(es) ==> Continuous(r))
    decreases |es|
  {
    hide MergeUpTo, Duration;
    if |es| > max && |es| > 1 {
      StepKeepsTheMap(es);
      CappedKeepsTheMap(CapStep(es), max);
    }
  }

  lemma StepKeepsTheMap(es: seq<Entry>)
    requires |es| > 1
    ensures var r := CapStep(es);
            && Duration(r) == Duration(es) && r[0] == es[0].(dur := r[0].dur)
            && r[1..] == es[|es| - |r| + 1..]
            && (Continuous(es) ==> Continuous(r))
  {
    hide Duration, CapStep, Continuous;
    CapStepIs(es);
    var last := |es| - |CapStep(es)|;
    var head, tail := es[..last + 1], es[last + 1..];
    var merged := es[0].(dur := Duration(head));
    DurationAppend(head, tail);
    DurationAppend([merged], tail);
    DurationOne(merged);
    assert es == head + tail;
    if Continuous(es) {
      MergedIsContinuous(es, last);
    }
  }

  lemma MergedIsContinuous(es: seq<Entry>, last: nat)
    requires Continuous(es) && last < |es|
    ensures Continuous([es[0].(dur := Duration(es[..last + 1]))] + es[last + 1..])
  {
    hide Duration;
    var head := es[..last + 1];
    assert Continuous(head);
    ContinuousSpan(head);
    var r := [es[0].(dur := Duration(head))] + es[last + 1..];
    forall i | 0 < i < |r|
      ensures r[i - 1].off + r[i - 1].dur == r[i].off
    {
      assert es[last + i - 1].off + es[last + i - 1].dur == es[last + i].off;
    }
  }

  /** A place where the table may be cut: it does not tear the first entry's session apart. */
  predicate MayCut(es: seq<Entry>, n: nat)
    requires 0 < n < |es|
  {
    n + 1 < |es| ==> !(es[n].sid == es[0].sid && es[n + 1].sid == es[0].sid)
  }

  /** Entry n is the last of those that become one: the first, from where the rest fits, at which the table may be
      cut. */
  predicate CutAt(es: seq<Entry>, max: nat, n: nat)
    requires 0 < n < |es|
  {
    && |es| - n <= max && MayCut(es, n)
    && forall k :: 0 < k < n && |es| - k <= max ==> !MayCut(es, k)
  }

  lemma CapStepIs(es: seq<Entry>)
    requires |es| > 1
    ensures var n := |es| - |CapStep(es)|;
            && CapStep(es) == [es[0].(dur := Duration(es[..n + 1]))] + es[n + 1..]
            && 0 < n < |es| && MayCut(es, n) && forall k :: 0 < k < n ==> !MayCut(es, k)
  {
    hide Duration;
    var k := MergeUpTo(es, 0);
    var n := if k == 0 then 1 else k;
    forall i | 0 < i < n
      ensures !MayCut(es, i)
    {
      assert es[i].sid == es[0].sid && es[i + 1].sid == es[0].sid;
    }
  }

  /** Which entries a table over the cap loses: the leading ones become one entry, with the first one's place and clock
      and their total duration, no further than the cap needs and the first one's session reaches; and none else. */
  lemma {:induction false} CappedExactly(es: seq<Entry>, max: nat)
    requires |es| > max > 0
    ensures var r := Capped(es, max);
            var n := |es| - |r|;
            && 0 < n < |es| && CutAt(es, max, n) && r == [es[0].(dur := Duration(es[..n + 1]))] + es[n + 1..]
    decreases |es|
  {
    hide Duration, CapStep;
    var step := CapStep(es);
    var m := |es| - |step|;
    CapStepIs(es);
    if |step| > max {
      CappedExactly(step, max);
      var n := |step| - |Capped(step, max)|;
      SplitDuration(es, m, n);
      assert forall k :: 0 < k < |step| ==> (MayCut(step, k) <==> MayCut(es, m + k));
      forall k | 0 < k < m + n && |es| - k <= max
        ensures !MayCut(es, k)
      {
        assert k > m;
        assert !MayCut(step, k - m);
      }
    }
  }

  lemma SplitDuration(es: seq<Entry>, m: nat, n: nat)
    requires 0 < m && 0 < n && m + n < |es|
    ensures var step := [es[0].(dur := Duration(es[..m + 1]))] + es[m + 1..];
            Duration(step[..n + 1]) == Duration(es[..m + n + 1]) && step[n + 1..] == es[m + n + 1..]
  {
    hide Duration;
    var first := es[0].(dur := Duration(es[..m + 1]));
    var step := [first] + es[m + 1..];
    assert step[..n + 1] == [first] + es[m + 1..m + n + 1];
    assert es[..m + n + 1] == es[..m + 1] + es[m + 1..m + n + 1];
    DurationAppend([first], es[m + 1..m + n + 1]);
    DurationOne(first);
    DurationAppend(es[..m + 1], es[m + 1..m + n + 1]);
  }

  /** Capping a capped table changes nothing. */
  lemma {:induction false} CappedIsIdempotent(es: seq<Entry>, max: nat)
    ensures Capped(Capped(es, max), max) == Capped(es, max)
    decreases |es|
  {
    hide CapStep;
    if |es| > max && |es| > 1 {
      CappedIsIdempotent(CapStep(es), max);
    }
  }

  // ---------------------------------------------------------------------------------------------------------------
  // Building
  // ---------------------------------------------------------------------------------------------------------------

  /** The entry of run k, which starts at position off. */
  function EntryOf(m: Member, off: int, k: nat): (e: Entry)
    requires k < |m.runs|
  {
    var r := m.runs[k];
    Entry(m.sid, r.anchor, if r.anchorSource == "" then "wallclock" else r.anchorSource, off, r.dur)
  }

  /** The entries of one session that starts at position off. */
  function MemberEntries(m: Member, off: int, k: nat): (es: seq<Entry>)
    requires k <= |m.runs|
    decreases |m.runs| - k
  {
    if m.runs == [] then [Entry(m.sid, m.start, "wallclock", off, m.dur)]
    else if k == |m.runs| then []
    else [EntryOf(m, off, k)] + MemberEntries(m, off + m.runs[k].dur, k + 1)
  }

  /** The entries of the added sessions, one behind the other from position off. */
  function Entries(members: seq<Member>, off: int): (es: seq<Entry>)
  {
    if members == [] then []
    else
      var mine := MemberEntries(members[0], off, 0);
      mine + Entries(members[1..], off + Duration(mine))
  }

  /** The stretches of a member's audio: its runs, or all of it when it has none recorded. */
  function Stretches(m: Member): (rs: seq<RunClock>)
  {
    if m.runs == [] then [RunClock(m.start, "", m.dur)] else m.runs
  }

  function Length(rs: seq<RunClock>): (d: int)
  {
    if rs == [] then 0 else Length(rs[..|rs| - 1]) + rs[|rs| - 1].dur
  }

  /** Every stretch has its entry: the session's, with the stretch's clock and duration, at the place where it begins in
      the object. */
  predicate Mapped(m: Member, off: int, es: seq<Entry>) {
    var rs := Stretches(m);
    && |es| == |rs|
    && forall k :: 0 <= k < |rs| ==>
         && es[k].sid == m.sid && es[k].t == rs[k].anchor && es[k].dur == rs[k].dur
         && es[k].src == (if rs[k].anchorSource == "" then "wallclock" else rs[k].anchorSource)
         && es[k].off == off + Length(rs[..k])
  }

  lemma {:induction false} LengthCons(r: RunClock, rs: seq<RunClock>)
    ensures Length([r] + rs) == r.dur + Length(rs)
  {
    var all := [r] + rs;
    if rs == [] {
      assert all[..0] == [] && Length([]) == 0;
    } else {
      var n := |rs| - 1;
      assert all[..|all| - 1] == [r] + rs[..n];
      LengthCons(r, rs[..n]);
    }
  }

  lemma {:induction false} RunIsMapped(m: Member, off: int, k: nat, i: nat)
    requires k + i < |m.runs|
    ensures i < |MemberEntries(m, off, k)|
    ensures MemberEntries(m, off, k)[i] == EntryOf(m, off + Length(m.runs[k..k + i]), k + i)
    decreases i
  {
    hide Length, MemberEntries, EntryOf;
    FirstIsMapped(m, off, k);
    if i == 0 {
      NoLength();
      assert m.runs[k..k] == [];
    } else {
      RunIsMapped(m, off + m.runs[k].dur, k + 1, i - 1);
      LengthCons(m.runs[k], m.runs[k + 1..k + i]);
      assert m.runs[k..k + i] == [m.runs[k]] + m.runs[k + 1..k + i];
    }
  }

  lemma FirstIsMapped(m: Member, off: int, k: nat)
    requires k < |m.runs|
    ensures MemberEntries(m, off, k) == [EntryOf(m, off, k)] + MemberEntries(m, off + m.runs[k].dur, k + 1)
  {
    hide EntryOf;
  }

  lemma NoLength()
    ensures Length([]) == 0
  {
  }

  lemma {:induction false} AsManyEntries(m: Member, off: int, k: nat)
    requires k <= |m.runs| && m.runs != []
    ensures |MemberEntries(m, off, k)| == |m.runs| - k
    decreases |m.runs| - k
  {
    if k < |m.runs| {
      AsManyEntries(m, off + m.runs[k].dur, k + 1);
    }
  }

  /** What a member adds to the table: position to clock, run by run. */
  lemma EveryRunIsMapped(m: Member, off: int)
    ensures Mapped(m, off, MemberEntries(m, off, 0))
    ensures Duration(MemberEntries(m, off, 0)) == Length(Stretches(m))
  {
    hide Duration, Length;
    var es, rs := MemberEntries(m, off, 0), Stretches(m);
    if m.runs == [] {
      WholeIsMapped(m, off);
    } else {
      RunsAreMapped(m, off);
    }
    DurationIsLength(es, rs);
  }

  lemma WholeIsMapped(m: Member, off: int)
    requires m.runs == []
    ensures Mapped(m, off, MemberEntries(m, off, 0))
  {
    NoLength();
    assert Stretches(m)[..0] == [];
  }

  lemma RunsAreMapped(m: Member, off: int)
    requires m.runs != []
    ensures Mapped(m, off, MemberEntries(m, off, 0))
  {
    hide Length, MemberEntries;
    AsManyEntries(m, off, 0);
    var es, rs := MemberEntries(m, off, 0), m.runs;
    forall k | 0 <= k < |rs|
      ensures es[k] == EntryOf(m, off + Length(rs[..k]), k)
    {
      RunIsMapped(m, off, 0, k);
      assert m.runs[0..0 + k] == rs[..k];
    }
  }

  lemma {:induction false} DurationIsLength(es: seq<Entry>, rs: seq<RunClock>)
    requires |es| == |rs| && forall k :: 0 <= k < |es| ==> es[k].dur == rs[k].dur
    ensures Duration(es) == Length(rs)
    decreases |es|
  {
    if es != [] {
      var n := |es| - 1;
      DurationIsLength(es[..n], rs[..n]);
      DurationAppend(es[..n], [es[n]]);
      DurationOne(es[n]);
      assert es == es[..n] + [es[n]];
    }
  }

  lemma {:induction false} EntriesSnoc(members: seq<Member>, m: Member, off: int)
    ensures Entries(members + [m], off) ==
              Entries(members, off) + MemberEntries(m, off + Duration(Entries(members, off)), 0)
  {
    hide MemberEntries, Duration;
    NoDuration();
    if members == [] {
      assert ([] + [m])[1..] == [];
      assert MemberEntries(m, off, 0) + [] == MemberEntries(m, off, 0);
    } else {
      var mine := MemberEntries(members[0], off, 0);
      assert (members + [m])[1..] == members[1..] + [m];
      EntriesSnoc(members[1..], m, off + Duration(mine));
      DurationAppend(mine, Entries(members[1..], off + Duration(mine)));
      Associate(mine, Entries(members[1..], off + Duration(mine)),
                MemberEntries(m, off + Duration(Entries(members, off)), 0));
    }
  }

  /** The added sessions follow one another: each is mapped from where the ones before it end. */
  lemma EveryMemberIsMapped(members: seq<Member>, off: int, i: nat)
    requires i < |members|
    ensures var before := Entries(members[..i], off);
            var upTo := Entries(members[..i + 1], off);
            && before <= upTo <= Entries(members, off)
            && Mapped(members[i], off + Duration(before), upTo[|before|..])
  {
    hide Entries, MemberEntries, Mapped, Duration;
    assert members[..i + 1] == members[..i] + [members[i]];
    EntriesSnoc(members[..i], members[i], off);
    EveryRunIsMapped(members[i], off + Duration(Entries(members[..i], off)));
    EntriesPrefix(members, off, i + 1);
  }

  lemma {:induction false} EntriesPrefix(members: seq<Member>, off: int, n: nat)
    requires n <= |members|
    ensures Entries(members[..n], off) <= Entries(members, off)
    decreases |members| - n
  {
    hide Entries, MemberEntries;
    if n == |members| {
      assert members[..n] == members;
    } else {
      assert members[..n + 1] == members[..n] + [members[n]];
      EntriesSnoc(members[..n], members[n], off);
      EntriesPrefix(members, off, n + 1);
    }
  }

  lemma NextEntry(m: Member, off: int, k: nat, done: seq<Entry>)
    requires k < |m.runs|
    ensures done + MemberEntries(m, off, k) ==
              done + [EntryOf(m, off, k)] + MemberEntries(m, off + m.runs[k].dur, k + 1)
  {
    Associate(done, [EntryOf(m, off, k)], MemberEntries(m, off + m.runs[k].dur, k + 1));
  }

  lemma NoMoreEntries(m: Member, off: int, done: seq<Entry>)
    requires m.runs != []
    ensures done + MemberEntries(m, off, |m.runs|) == done
  {
  }

  method AppendMember(entries: seq<Entry>, m: Member, off: int) returns (entries': seq<Entry>, off': int)
    ensures entries' == entries + MemberEntries(m, off, 0) && off' == off + Duration(MemberEntries(m, off, 0))
  {
    hide Duration, MemberEntries, EntryOf;
    entries', off' := entries, off;
    ghost var mine := MemberEntries(m, off, 0);
    if |m.runs| == 0 {
      WholeEntry(m, off);
      DurationOne(mine[0]);
      entries' := entries' + [Entry(m.sid, m.start, "wallclock", off, m.dur)];
      off' := off' + m.dur;
      return;
    }
    ghost var done: seq<Entry> := [];
    NoDuration();
    for k := 0 to |m.runs|
      invariant entries' == entries + done && off' == off + Duration(done)
      invariant done + MemberEntries(m, off', k) == mine
    {
      var run := m.runs[k];
      var src := run.anchorSource;
      if src == "" {
        src := "wallclock";
      }
      var e := Entry(m.sid, run.anchor, src, off', run.dur);
      NextEntry(m, off', k, done);
      EntryIs(m, off', k);
      DurationAppend(done, [e]);
      DurationOne(e);
      Associate(entries, done, [e]);
      entries' := entries' + [e];
      done := done + [e];
      off' := off' + run.dur;
    }
    NoMoreEntries(m, off', done);
  }

  lemma WholeEntry(m: Member, off: int)
    requires m.runs == []
    ensures MemberEntries(m, off, 0) == [Entry(m.sid, m.start, "wallclock", off, m.dur)]
  {
  }

  lemma EntryIs(m: Member, off: int, k: nat)
    requires k < |m.runs|
    ensures var r := m.runs[k];
            EntryOf(m, off, k) ==
              Entry(m.sid, r.anchor, if r.anchorSource == "" then "wallclock" else r.anchorSource, off, r.dur)
  {
  }

  lemma NoDuration()
    ensures Duration([]) == 0
  {
  }

  /** runTable: the stored part's own table in front, the added sessions behind it, capped. */
  method BuildRunTable(members: seq<Member>, remote: seq<Entry>, offset: int) returns (r: seq<Entry>)
    ensures r == Capped(remote + Entries(members, offset), MAX_ENTRIES)
  {
    hide Duration, MemberEntries, Capped;
    var entries, off := remote, offset;
    ghost var added: seq<Entry> := [];
    for i := 0 to |members|
      invariant entries == remote + added
      invariant added + Entries(members[i..], off) == Entries(members, offset)
    {
      ghost var mine := MemberEntries(members[i], off, 0);
      assert members[i..][0] == members[i] && members[i..][1..] == members[i + 1..];
      entries, off := AppendMember(entries, members[i], off);
      added := added + mine;
    }
    assert added + [] == added;
    r := CapRunTable(entries, MAX_ENTRIES);
  }

  lemma {:induction false} MemberEntriesContinuous(m: Member, off: int, k: nat)
    requires k <= |m.runs|
    ensures var es := MemberEntries(m, off, k); Continuous(es) && (es != [] ==> es[0].off == off)
    decreases |m.runs| - k
  {
    if k < |m.runs| {
      var first, rest := EntryOf(m, off, k), MemberEntries(m, off + m.runs[k].dur, k + 1);
      MemberEntriesContinuous(m, off + m.runs[k].dur, k + 1);
      FirstIsMapped(m, off, k);
      ContinuousCons(first, rest);
    }
  }

  lemma ContinuousCons(e: Entry, es: seq<Entry>)
    requires Continuous(es) && (es != [] ==> es[0].off == e.off + e.dur)
    ensures Continuous([e] + es)
  {
    var all := [e] + es;
    forall i | 0 < i < |all|
      ensures all[i - 1].off + all[i - 1].dur == all[i].off
    {
      if i > 1 {
        assert es[i - 2].off + es[i - 2].dur == es[i - 1].off;
      }
    }
  }

  /** The part of the table that describes added audio starts where the stored part ends and has no gap or overlap. */
  lemma {:induction false} EntriesContinuous(members: seq<Member>, off: int)
    ensures var es := Entries(members, off); Continuous(es) && (es != [] ==> es[0].off == off)
  {
    hide MemberEntries, Duration, Continuous;
    if members == [] {
      NoEntries();
    } else {
      var mine := MemberEntries(members[0], off, 0);
      var rest := Entries(members[1..], off + Duration(mine));
      MemberEntriesContinuous(members[0], off, 0);
      EntriesContinuous(members[1..], off + Duration(mine));
      NoDuration();
      if mine != [] {
        ContinuousSpan(mine);
      }
      ContinuousJoin(mine, rest);
    }
  }

  lemma NoEntries()
    ensures Continuous([])
  {
  }

  lemma ContinuousJoin(a: seq<Entry>, b: seq<Entry>)
    requires Continuous(a) && Continuous(b)
    requires a != [] && b != [] ==> a[|a| - 1].off + a[|a| - 1].dur == b[0].off
    ensures Continuous(a + b)
  {
    var all := a + b;
    forall i | 0 < i < |all|
      ensures all[i - 1].off + all[i - 1].dur == all[i].off
    {
      if i > |a| {
        assert b[i - 1 - |a|].off + b[i - 1 - |a|].dur == b[i - |a|].off;
      }
    }
  }

  lemma FittingStays(es: seq<Entry>, max: nat)
    ensures |es| <= max ==> Capped(es, max) == es
  {
  }

  /** Merging into a stored object whose table is continuous up to the position the new audio starts at gives one
      continuous table of the whole object, capped, that starts at the same position and clock as before. */
  lemma TableOfMergedObject(remote: seq<Entry>, members: seq<Member>)
    requires Continuous(remote)
    ensures var offset := if remote == [] then 0 else remote[0].off + Duration(remote);
            var r := Capped(remote + Entries(members, offset), MAX_ENTRIES);
            && Continuous(r) && |r| <= 500
            && Duration(r) == Duration(remote) + Duration(Entries(members, offset))
            && (remote != [] ==> r != [] && r[0] == remote[0].(dur := r[0].dur))
            && (|remote + Entries(members, offset)| <= 500 ==> r == remote + Entries(members, offset))
  {
    hide Duration, Entries, Capped;
    var offset := if remote == [] then 0 else remote[0].off + Duration(remote);
    var added := Entries(members, offset);
    EntriesContinuous(members, offset);
    DurationAppend(remote, added);
    if remote != [] {
      ContinuousSpan(remote);
    }
    assert Continuous(remote + added);
    CappedKeepsTheMap(remote + added, MAX_ENTRIES);
    FittingStays(remote + added, MAX_ENTRIES);
  }
}
