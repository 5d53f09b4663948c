/** What becomes of a group that is stored already: how far manifests name what their objects hold, whether a retry
    converges, and what blocks it. */
module UploadConvergence {
  import opened Bytes
  import opened ObjectKeys
  import opened UploadProtocol
  import opened UploadInvariant
  import opened UploadSteps
  import opened UploadSafety
  import Manifest

  // ---------------------------------------------------------------------------------------------------------------
  // How far a manifest names what its object holds
  // ---------------------------------------------------------------------------------------------------------------

  /** The attempt stores the first object under a key. */
  predicate First(pc: Pc) {
    pc.RawBuilt? || (pc.Built? && pc.remote.None?)
  }

  /** If the step stores a first object, it is of at most 113 sessions. */
  predicate Fitting(s: State, step: Step) {
    (step.Put? || step.PutLate?) && CanPut(s, step.a) && First(s.attempts[step.a].pc) ==>
      |s.attempts[step.a].pc.toAdd| <= NAMED
  }

  ghost predicate AllFitting(w: World, steps: seq<Step>) {
    forall i :: 0 <= i < |steps| ==> Fitting(After(w, steps[..i]), steps[i])
  }

  /** Nothing that is stored, or may be, is beyond the reach of its list. */
  ghost predicate Reachable(s: State) {
    && (forall key :: key in s.bucket ==> |s.bucket[key].whose| <= NAMED)
    && (forall r :: r in s.late ==> |r.whose| <= NAMED)
  }

  lemma SentIsFitting(w: World, s: State, a: Sid)
    requires Inv(w, s) && CanPut(s, a) && (First(s.attempts[a].pc) ==> |s.attempts[a].pc.toAdd| <= NAMED)
    ensures |Sent(w, s.attempts[a]).whose| <= NAMED
  {
    hide Inv, Written, PartsOk, NoDup, ByStart, FallbackKey, NewMeta, Settled, Extends;
    var t := s.attempts[a];
    if !First(t.pc) {
      Running(w, s, a);
      MergeIsSmall(w, s, a, t);
    }
  }

  lemma MergeIsSmall(w: World, s: State, a: Sid, t: Attempt)
    requires t.pc.Built? && t.pc.remote.Some? && PcOk(w, s, a, t)
    ensures |t.pc.remote.value.whose| + |t.pc.toAdd| <= MAX_PARTS
  {
    hide NoDup, ByStart, BySecond, PartsOk, Settled, Extends, StableHeaders;
    NamesAll(w, t.pc.remote.value.meta, t.pc.remote.value.whose, |t.pc.toAdd|);
  }

  lemma FittingStep(w: World, s: State, step: Step)
    requires Inv(w, s) && Enabled(w, s, step) && Reachable(s) && Fitting(s, step)
    ensures Reachable(Do(w, s, step))
  {
    hide Inv, Enabled, Do, CanPut;
    if step.Put? || step.PutLate? {
      FittingPut(w, s, step);
    } else if step.Land? || step.ForeignPut? {
      FittingLand(w, s, step);
    } else {
      OthersSendNothing(w, s, step);
    }
  }

  lemma FittingPut(w: World, s: State, step: Step)
    requires Inv(w, s) && Enabled(w, s, step) && Reachable(s) && Fitting(s, step) && (step.Put? || step.PutLate?)
    ensures Reachable(Do(w, s, step))
  {
    hide Inv, Sent, SetPc, End, StoredBy, AlreadyThere;
    SentIsFitting(w, s, step.a);
  }

  lemma FittingLand(w: World, s: State, step: Step)
    requires Enabled(w, s, step) && Reachable(s) && (step.Land? || step.ForeignPut?)
    ensures Reachable(Do(w, s, step))
  {
  }

  /** While no first object is of more than 113 sessions, whom an object holds its manifest lists. */
  lemma {:induction false} FittingRunsAreReachable(w: World, steps: seq<Step>)
    requires AllFitting(w, steps)
    ensures Reachable(After(w, steps))
    decreases |steps|
  {
    hide Inv, Enabled, Do, Fitting, AllFitting;
    if steps != [] {
      var n := |steps| - 1;
      FittingBefore(w, steps);
      FittingRunsAreReachable(w, steps[..n]);
      Always(w, steps[..n]);
      if Enabled(w, After(w, steps[..n]), steps[n]) {
        FittingStep(w, After(w, steps[..n]), steps[n]);
      }
    }
  }

  lemma FittingBefore(w: World, steps: seq<Step>)
    requires AllFitting(w, steps) && steps != []
    ensures var n := |steps| - 1; AllFitting(w, steps[..n]) && Fitting(After(w, steps[..n]), steps[n])
  {
    hide After, Fitting;
    var n := |steps| - 1;
    forall i | 0 <= i < n
      ensures Fitting(After(w, steps[..n][..i]), steps[..n][i])
    {
      assert steps[..n][..i] == steps[..i];
      assert Fitting(After(w, steps[..i]), steps[i]);
    }
  }

  /** ... so audio that was captured has its capture or is listed. */
  lemma CaptureOrListed(w: World, steps: seq<Step>, x: Sid)
    requires AllFitting(w, steps) && x in After(w, steps).made && After(w, steps).made[x] != []
    ensures var s := After(w, steps); x in s.files || exists key :: ListedAt(s.bucket, key, x)
  {
    hide After, Inv, ListedAt, Names, HeldAt, AllFitting;
    FittingRunsAreReachable(w, steps);
    assert steps + [] == steps;
    AudioIsNeverLost(w, steps, [], x);
    var s := After(w, steps);
    if x !in s.files {
      var key :| HeldAt(s.bucket, key, x);
      ListedExactly(w, steps, key, x);
      NamesWithin(s, key, x);
    }
  }

  lemma NamesWithin(s: State, key: Key, x: Sid)
    requires Reachable(s) && HeldAt(s.bucket, key, x)
    ensures Names(s.bucket[key], x)
  {
  }

  /** The list of a manifest as parseRemoteObject reads it out of its header, for digests of eight hexadecimal digits
      that tell sessions apart: it has as many entries as the count says exactly up to 114 sessions, and the session's
      digest is among them exactly when the session is named. */
  lemma ListAsParsed(list: seq<Sid>, digest: Sid -> string)
    requires forall x: Sid :: |digest(x)| == 8 && Manifest.IsHex(digest(x))
    requires forall x: Sid, y: Sid :: digest(x) == digest(y) ==> x == y
    ensures var read := Manifest.ReadBack(DigestsOf(list, digest));
            && (|read| == |list| <==> |list| <= NAMED + 1)
            && forall x :: x in list ==> (digest(x) in read <==> x in Named(list))
  {
    var ds := DigestsOf(list, digest);
    var read := Manifest.ReadBack(ds);
    forall x | x in list
      ensures digest(x) in read <==> x in Named(list)
    {
      if x in Named(list) {
        var i :| 0 <= i < |Named(list)| && Named(list)[i] == x;
        assert read[i] == digest(x);
      }
      if digest(x) in read {
        var i :| 0 <= i < |read| && read[i] == digest(x);
        if i >= |Named(list)| {
          CutIsShort(ds, i);
          assert false;
        }
        assert ds[i] == digest(list[i]) && Named(list)[i] == x;
      }
    }
  }

  lemma CutIsShort(ds: seq<string>, i: nat)
    requires Manifest.HexDigests(ds) && NAMED <= i < |Manifest.ReadBack(ds)| && |ds| > NAMED
    ensures |Manifest.ReadBack(ds)[i]| == 7
  {
  }

  function DigestsOf(list: seq<Sid>, digest: Sid -> string): (ds: seq<string>)
    requires forall x: Sid :: |digest(x)| == 8 && Manifest.IsHex(digest(x))
    ensures |ds| == |list| && Manifest.HexDigests(ds) && forall i :: 0 <= i < |ds| ==> ds[i] == digest(list[i])
  {
    seq(|list|, i requires 0 <= i < |list| => digest(list[i]))
  }

  // ---------------------------------------------------------------------------------------------------------------
  // Convergence
  // ---------------------------------------------------------------------------------------------------------------

  lemma ListedGroupIsPresent(w: World, a: Sid, t: Attempt, o: Object)
    requires t.pc.Classified? && o.meta.Manifest? && o.meta.rid == w.rid(a)
    requires forall x :: x in t.pc.local || x in t.pc.missing ==> x in o.meta.sessions
    ensures var has := Elements(o.meta.sessions);
            Judge(w, a, t, Some(o)) ==
              Proceed(Decided(Some(o), [], Pick(t.pc.local, has) + Pick(t.pc.missing, has), []))
  {
    var has := Elements(o.meta.sessions);
    var toAdd, bad := Pick(t.pc.local, Elements(t.pc.local) - has), Pick(t.pc.missing, Elements(t.pc.missing) - has);
    HasFirst(toAdd);
    HasFirst(bad);
  }

  lemma HasFirst(s: seq<Sid>)
    ensures s == [] || exists x :: x in s
  {
    if s != [] {
      assert s[0] in s;
    }
  }

  /** An attempt all of whose members are listed already, in an object it takes for its own, uploads nothing and ends
      with all of them uploaded in memory, their captures about to be removed. */
  lemma ListedGroupConverges(w: World, s: State, a: Sid, saved: set<Sid>)
    requires At(s, a) && s.attempts[a].pc.Classified? && NoBad(s.attempts[a].pc)
    requires var t := s.attempts[a];
             && t.key in s.bucket && s.bucket[t.key].meta.Manifest? && s.bucket[t.key].meta.rid == w.rid(a)
             && (t.pc.local != [] || t.pc.missing != [])
             && (forall x :: x in t.pc.local || x in t.pc.missing ==> x in s.bucket[t.key].meta.sessions)
    ensures var t := s.attempts[a];
            var s' :=
              Then(w, Then(w, Then(w, Then(w, s, Head(a, saved)), Measure(a, map[])), Converge(a)), Complete(a));
            && s'.bucket == s.bucket && a in s'.attempts && s'.attempts[a].pc.Writing?
            && forall x :: x in t.pc.local || x in t.pc.missing ==>
                 && x in s'.attempts[a].pc.todo
                 && (x in s.mem ==>
                       x in s'.mem && s'.mem[x].phase == Uploaded && s'.mem[x].stored && s'.mem[x].key == t.key)
  {
    hide Judge, Then;
    var t, o := s.attempts[a], s.bucket[s.attempts[a].key];
    var has := Elements(o.meta.sessions);
    var present := Pick(t.pc.local, has) + Pick(t.pc.missing, has);
    ListedGroupIsPresent(w, a, t, o);
    assert present != [] by {
      var x := if t.pc.local != [] then t.pc.local[0] else t.pc.missing[0];
      assert x in present;
    }
    var s1 := SetPc(s, a, Decided(Some(o), [], present, []));
    HeadLeads(w, s, a, saved, s1);
    PresentConverges(w, s1, a, o, present);
  }

  /** The attempt is about to look at an object that holds every one of its members. */
  ghost predicate AllHeld(s: State, a: Sid) {
    && At(s, a) && s.attempts[a].pc.Classified? && NoBad(s.attempts[a].pc)
    && var t := s.attempts[a];
       && (t.pc.local != [] || t.pc.missing != [])
       && forall x :: x in t.pc.local || x in t.pc.missing ==> HeldAt(s.bucket, t.key, x)
  }

  /** Does the attempt upload nothing and complete every member? */
  ghost predicate Converges(w: World, s: State, a: Sid, saved: set<Sid>) {
    var s' := Then(w, Then(w, Then(w, Then(w, s, Head(a, saved)), Measure(a, map[])), Converge(a)), Complete(a));
    && s'.bucket == s.bucket && a in s'.attempts && s'.attempts[a].pc.Writing?
    && a in s.attempts && s.attempts[a].pc.Classified?
    && forall x :: x in s.attempts[a].pc.local || x in s.attempts[a].pc.missing ==>
         && x in s'.attempts[a].pc.todo
         && (x in s.mem ==>
               x in s'.mem && s'.mem[x].phase == Uploaded && s'.mem[x].stored && s'.mem[x].key == s.attempts[a].key)
  }

  /** The manifest names every member that has its capture; every member. */
  predicate NamesLocal(o: Object, pc: Pc)
    requires pc.Classified?
  {
    forall x :: x in pc.local ==> Names(o, x)
  }

  predicate NamesMissing(o: Object, pc: Pc)
    requires pc.Classified?
  {
    forall x :: x in pc.missing ==> Names(o, x)
  }

  /** Whether the retry of a group that is stored already converges, after a lost reply, a failed sidecar write or a
      crash: exactly if the recording id comes back from metadata as it went in and the manifest still names everybody.
      Otherwise, by what the code finds first: the manifest is contradictory and the attempt fails; or the recorder
      takes its own object for another recording's, or would add a session again that the object holds and is over the
      cap, and moves the group away; or it gives a member up for lost whose audio the object holds. */
  lemma RetryConvergesExactly(w: World, steps: seq<Step>, a: Sid, saved: set<Sid>)
    requires StableHeaders(w) && AllHeld(After(w, steps), a)
    ensures var s := After(w, steps); s.attempts[a].key in s.bucket
    ensures var s := After(w, steps);
            var t, next := s.attempts[a], Then(w, s, Head(a, saved));
            var o, own := s.bucket[t.key], w.header(w.rid(a)) == w.rid(a);
            && (Converges(w, s, a, saved) <==> own && NamesLocal(o, t.pc) && NamesMissing(o, t.pc))
            && (|o.whose| > NAMED + 1 ==> next == End(s, a, false))
            && (|o.whose| <= NAMED + 1 && (!own || !NamesLocal(o, t.pc)) ==> next == Renamed(s, a, saved))
            && (|o.whose| <= NAMED + 1 && own && NamesLocal(o, t.pc) && !NamesMissing(o, t.pc) ==>
                  GivesUpHeld(s, a, next))
  {
    hide After, Inv, Judge, Renamed, Then, End, Converges, Names, HeldAt, GivesUpHeld, StableHeaders;
    var s := After(w, steps);
    Always(w, steps);
    HeldMeans(w, s, a);
    var t, o := s.attempts[a], s.bucket[s.attempts[a].key];
    if |o.whose| > NAMED + 1 {
      BrokenLeads(w, s, a, saved);
      NotConverging(w, s, a, saved);
      NobodyNamed(o, t.pc);
    } else if w.header(w.rid(a)) != w.rid(a) {
      ConflictLeads(w, s, a, saved);
      NotConverging(w, s, a, saved);
    } else if !NamesLocal(o, t.pc) {
      UnnamedLeads(w, s, a, saved);
      NotConverging(w, s, a, saved);
    } else if !NamesMissing(o, t.pc) {
      GivenUpLeads(w, s, a, saved);
      NotConverging(w, s, a, saved);
    } else {
      NamedConverges(w, s, a, saved);
    }
  }

  /** The attempt has parked a member whose audio the object under its key holds. */
  predicate GivesUpHeld(s: State, a: Sid, next: State) {
    && a in s.attempts && a in next.attempts && next.attempts[a].pc.Decided?
    && exists x :: x in next.attempts[a].pc.bad && HeldAt(s.bucket, s.attempts[a].key, x)
  }

  /** What the object is like that holds an attempt's members. */
  ghost predicate Own(w: World, s: State, a: Sid) {
    && At(s, a) && s.attempts[a].pc.Classified? && NoBad(s.attempts[a].pc) && s.attempts[a].key in s.bucket
    && var t, o := s.attempts[a], s.bucket[s.attempts[a].key];
       && (t.pc.local != [] || t.pc.missing != []) && (forall x :: x in t.pc.local ==> x !in t.pc.missing)
       && (forall x :: x in t.pc.local || x in t.pc.missing ==> x in o.whose)
       && (|o.whose| > NAMED + 1 ==> o.meta == Broken)
       && (|o.whose| <= NAMED + 1 ==>
             && o.meta.Manifest? && o.meta.sessions == Named(o.whose) && o.meta.parts == |o.whose|
             && o.meta.rid == w.header(w.rid(a)))
  }

  lemma HeldMeans(w: World, s: State, a: Sid)
    requires Inv(w, s) && StableHeaders(w) && AllHeld(s, a)
    ensures Own(w, s, a)
  {
    hide Inv, StableHeaders, NoDup, BySecond, ByStart, PartsOk, Settled, LateOk, FilesOk, AudioKept, Known, Locks;
    InvParts(w, s);
    Running(w, s, a);
    var t := s.attempts[a];
    var x := if t.pc.local != [] then t.pc.local[0] else t.pc.missing[0];
    assert HeldAt(s.bucket, t.key, x) && x in t.group;
    assert ObjectOk(w, s, s.bucket[t.key]);
  }

  lemma NobodyNamed(o: Object, pc: Pc)
    requires |o.whose| > NAMED + 1 && pc.Classified? && (pc.local != [] || pc.missing != [])
    ensures !NamesLocal(o, pc) || !NamesMissing(o, pc)
  {
    var x := if pc.local != [] then pc.local[0] else pc.missing[0];
    assert !Names(o, x);
  }

  lemma BrokenLeads(w: World, s: State, a: Sid, saved: set<Sid>)
    requires At(s, a) && s.attempts[a].pc.Classified? && NoBad(s.attempts[a].pc)
    requires s.attempts[a].key in s.bucket && s.bucket[s.attempts[a].key].meta.Broken?
    ensures Then(w, s, Head(a, saved)) == End(s, a, false)
  {
    hide Renamed, End, Pick;
  }

  lemma ConflictLeads(w: World, s: State, a: Sid, saved: set<Sid>)
    requires At(s, a) && s.attempts[a].pc.Classified? && NoBad(s.attempts[a].pc)
    requires var t := s.attempts[a];
             t.key in s.bucket && s.bucket[t.key].meta.Manifest? && s.bucket[t.key].meta.rid != w.rid(a)
    ensures Judge(w, a, s.attempts[a], Lookup(s, s.attempts[a].key)) == Conflict
            && Then(w, s, Head(a, saved)) == Renamed(s, a, saved)
  {
    hide Renamed, Pick;
  }

  /** A member with its capture that is held but not named would be added again: over the cap, the group is moved. */
  lemma UnnamedLeads(w: World, s: State, a: Sid, saved: set<Sid>)
    requires Own(w, s, a)
    requires var t, o := s.attempts[a], s.bucket[s.attempts[a].key];
             |o.whose| <= NAMED + 1 && !NamesLocal(o, t.pc) && w.header(w.rid(a)) == w.rid(a)
    ensures Then(w, s, Head(a, saved)) == Renamed(s, a, saved)
  {
    hide Renamed, End, Pick, Named;
    var t, o := s.attempts[a], s.bucket[s.attempts[a].key];
    var has := Elements(o.meta.sessions);
    var x :| x in t.pc.local && !Names(o, x);
    UnnamedMeansMany(o, x);
    var toAdd, bad := Pick(t.pc.local, Elements(t.pc.local) - has), Pick(t.pc.missing, Elements(t.pc.missing) - has);
    assert x in toAdd;
    if bad != [] {
      assert bad[0] in bad;
      UnnamedMeansMany(o, bad[0]);
      assert false;
    }
  }

  /** Only the 114th of 114. */
  lemma UnnamedMeansMany(o: Object, x: Sid)
    requires x in o.whose && |o.whose| <= NAMED + 1 && !Names(o, x)
    ensures |o.whose| == NAMED + 1 && x == o.whose[NAMED]
  {
  }

  lemma GivenUpLeads(w: World, s: State, a: Sid, saved: set<Sid>)
    requires Own(w, s, a)
    requires var t, o := s.attempts[a], s.bucket[s.attempts[a].key];
             |o.whose| <= NAMED + 1 && NamesLocal(o, t.pc) && !NamesMissing(o, t.pc) && w.header(w.rid(a)) == w.rid(a)
    ensures GivesUpHeld(s, a, Then(w, s, Head(a, saved)))
  {
    hide Then, Pick, Named;
    var t, o := s.attempts[a], s.bucket[s.attempts[a].key];
    var has := Elements(o.meta.sessions);
    var x :| x in t.pc.missing && !Names(o, x);
    var toAdd := Pick(t.pc.local, Elements(t.pc.local) - has);
    HasFirst(toAdd);
    assert toAdd == [];
    var bad := Pick(t.pc.missing, Elements(t.pc.missing) - has);
    assert x in bad;
    var pc := Decided(Some(o), [], Pick(t.pc.local, has) + Pick(t.pc.missing, has), bad);
    assert Judge(w, a, t, Lookup(s, t.key)) == Proceed(pc);
    HeadLeads(w, s, a, saved, SetPc(s, a, pc));
  }

  lemma NamedConverges(w: World, s: State, a: Sid, saved: set<Sid>)
    requires Own(w, s, a)
    requires var t, o := s.attempts[a], s.bucket[s.attempts[a].key];
             |o.whose| <= NAMED + 1 && NamesLocal(o, t.pc) && NamesMissing(o, t.pc) && w.header(w.rid(a)) == w.rid(a)
    ensures Converges(w, s, a, saved)
  {
    hide Then, Named;
    ListedGroupConverges(w, s, a, saved);
  }

  /** The attempt is over after the HEAD, or has somebody to park first. */
  predicate Stuck(s: State, a: Sid) {
    a !in s.attempts || (s.attempts[a].pc.Decided? && s.attempts[a].pc.bad != [])
  }

  lemma StuckStays(w: World, s: State, a: Sid)
    requires Stuck(s, a)
    ensures Then(w, s, Measure(a, map[])) == s && Then(w, s, Converge(a)) == s && Then(w, s, Complete(a)) == s
  {
    hide DoMeasure, DoConverge, DoComplete;
  }

  lemma NotConverging(w: World, s: State, a: Sid, saved: set<Sid>)
    requires a in s.attempts
    requires var next := Then(w, s, Head(a, saved));
             next == End(s, a, false) || next == Renamed(s, a, saved) || GivesUpHeld(s, a, next)
    ensures !Converges(w, s, a, saved)
  {
    hide Then, Moved, Save, MaxRenames, RenamedKey, HeldAt;
    var next := Then(w, s, Head(a, saved));
    assert Stuck(next, a) by {
      hide Then;
      EndedIsStuck(s, a, saved, next);
    }
    StuckStays(w, next, a);
  }

  lemma EndedIsStuck(s: State, a: Sid, saved: set<Sid>, next: State)
    requires a in s.attempts
    requires next == End(s, a, false) || next == Renamed(s, a, saved) || GivesUpHeld(s, a, next)
    ensures Stuck(next, a)
  {
    hide Moved, Save, MaxRenames, RenamedKey, HeldAt, Looping;
  }

  /** A contradictory manifest blocks its key for good: the object never changes, and whoever looks at it fails. */
  lemma BrokenBlocks(w: World, steps: seq<Step>, more: seq<Step>, key: Key, a: Sid, saved: set<Sid>)
    requires key in After(w, steps).bucket && After(w, steps).bucket[key].meta.Broken?
    ensures var s := After(w, steps + more);
            && key in s.bucket && s.bucket[key] == After(w, steps).bucket[key]
            && (At(s, a) && s.attempts[a].key == key && s.attempts[a].pc.Classified? && NoBad(s.attempts[a].pc) ==>
                  Then(w, s, Head(a, saved)) == End(s, a, false))
  {
    hide After, Then, End;
    NoLostUpdate(w, steps, more, key);
    var s := After(w, steps + more);
    if At(s, a) && s.attempts[a].key == key && s.attempts[a].pc.Classified? && NoBad(s.attempts[a].pc) {
      BrokenLeads(w, s, a, saved);
    }
  }

  /** With the metadata the recorder really writes: ids are stable, and the retry converges exactly for plain ids, those
      in printable ASCII without surrounding spaces that fit. */
  lemma PlainIdsConverge(w: World, encode: string -> string)
    requires forall id :: w.header(id) == Manifest.HeaderId(id, encode)
    requires forall x: Sid ::
               Manifest.IsAscii(w.rid(x)) ||
               Manifest.Plain(Manifest.SanitizedValue(w.rid(x), Manifest.RESERVED_MAX, encode))
    ensures StableHeaders(w) && forall x: Sid :: w.header(w.rid(x)) == w.rid(x) <==> Manifest.Plain(w.rid(x))
  {
    hide Manifest.SanitizedValue, Manifest.HeaderId, Manifest.Plain;
    forall x: Sid
      ensures w.header(w.header(w.rid(x))) == w.header(w.rid(x))
      ensures w.header(w.rid(x)) == w.rid(x) <==> Manifest.Plain(w.rid(x))
    {
      Manifest.HeaderIsStable(w.rid(x), encode);
      Manifest.PlainIdsExactly(w.rid(x), encode);
    }
  }

  lemma PresentConverges(w: World, s: State, a: Sid, o: Object, present: seq<Sid>)
    requires At(s, a) && s.attempts[a].pc == Decided(Some(o), [], present, []) && present != []
    ensures var s' := Then(w, Then(w, Then(w, s, Measure(a, map[])), Converge(a)), Complete(a));
            && s'.bucket == s.bucket && a in s'.attempts
            && s'.attempts[a].pc == Writing(present, s.attempts[a].key, false)
            && s'.mem == Completed(s, present, s.attempts[a].key).mem
  {
    hide Then, Completed;
    var key := s.attempts[a].key;
    var s2 := SetPc(s, a, Measured(Some(o), [], present, []));
    MeasureLeads(w, s, a, s2);
    var s3 := SetPc(s, a, Stored(present, key));
    ConvergeLeads(w, s2, a, s3);
    CompleteLeads(w, s3, a, DoComplete(s3, a));
    assert Completed(s3, present, key).mem == Completed(s, present, key).mem by {
      SameCompletion(s, s3, present, key);
    }
  }

  lemma SameCompletion(s: State, s': State, members: seq<Sid>, key: Key)
    requires s'.mem == s.mem
    ensures Completed(s', members, key).mem == Completed(s, members, key).mem
  {
  }

  lemma HeadLeads(w: World, s: State, a: Sid, saved: set<Sid>, s': State)
    requires At(s, a) && s.attempts[a].pc.Classified? && NoBad(s.attempts[a].pc)
    requires var v := Judge(w, a, s.attempts[a], Lookup(s, s.attempts[a].key)); v.Proceed? && s' == SetPc(s, a, v.pc)
    ensures Then(w, s, Head(a, saved)) == s'
  {
    hide Judge, Renamed, End;
  }

  lemma MeasureLeads(w: World, s: State, a: Sid, s': State)
    requires At(s, a) && s.attempts[a].pc.Decided? && NoBad(s.attempts[a].pc) && s.attempts[a].pc.toAdd == []
    requires s' == SetPc(s, a, Measured(s.attempts[a].pc.remote, [], s.attempts[a].pc.present, []))
    ensures Then(w, s, Measure(a, map[])) == s'
  {
    RepairNothing(s, Elements([]));
    hide Repaired;
  }

  lemma RepairNothing(s: State, these: set<Sid>)
    ensures Repaired(s, these, map[]) == s
  {
    assert s.files == map x | x in s.files :: s.files[x];
  }

  lemma ConvergeLeads(w: World, s: State, a: Sid, s': State)
    requires CanConverge(s, a) && s.attempts[a].pc.present != []
    requires s' == SetPc(s, a, Stored(s.attempts[a].pc.present, s.attempts[a].key))
    ensures Then(w, s, Converge(a)) == s'
  {
    hide End;
  }

  lemma CompleteLeads(w: World, s: State, a: Sid, s': State)
    requires At(s, a) && s.attempts[a].pc.Stored? && s' == DoComplete(s, a)
    ensures Then(w, s, Complete(a)) == s'
  {
    hide DoComplete;
  }
}
