/** What the upload protocol promises over whole runs, with any number of recorders, any interleaving and any
    crashes. */
module UploadSafety {
  import opened Bytes
  import opened ObjectKeys
  import opened UploadProtocol
  import opened UploadInvariant
  import opened UploadSteps
  import opened UploadSessions
  import opened UploadRecovery

  lemma SameTrims(s: State, s': State, left: map<Sid, File>)
    requires Trims(s, left) && s'.files == s.files
    ensures Trims(s', left)
  {
  }

  lemma SessionStepKeeps(w: World, s: State, step: Step)
    requires Inv(w, s) && Enabled(w, s, step)
    requires step.Start? || step.Capture? || step.CaptureJunk? || step.TrimTail? || step.Finalize? || step.Retry?
             || step.Quit? || step.Retain? || step.Crash? || step.Recover? || step.Land? || step.ForeignPut?
    ensures Inv(w, Do(w, s, step)) && Carries(s, Do(w, s, step))
  {
    hide Inv, Carries, CanStart, IsRecording, CanRetain, DoStart, DoCapture, DoJunk, DoFinalize, DoRetry, DoRetain,
      DoCrash, DoRecover, DoLand, PutAt, Repaired, Resumed, Looping, CanQuit, Trims;
    match step
    case Start(sid, key, from) => StartKeeps(w, s, sid, key, from);
    case Capture(sid, frame) => CaptureKeeps(w, s, sid, frame);
    case CaptureJunk(sid) => JunkKeeps(w, s, sid);
    case TrimTail(sid, left) => RepairKeeps(w, s, {sid}, left);
    case Finalize(sid) => FinalizeKeeps(w, s, sid);
    case Retry(sid, mark, saved) => RetryKeeps(w, s, sid, mark, saved);
    case Quit(sid) => LoopKeeps(w, s, sid, NoLoop);
    case Retain(sid) => RetainKeeps(w, s, sid);
    case Crash(rec) => CrashKeeps(w, s, rec);
    case Recover(rec, resumed, moved, saved, left) =>
      RecoverKeeps(w, s, rec, resumed, moved, saved);
      var back := DoRecover(w, s, rec, resumed, moved, saved);
      SameTrims(s, back, left);
      RepairKeeps(w, back, Resumed(w, s, rec, resumed), left);
      CarriesOn(s, back, Repaired(back, Resumed(w, s, rec, resumed), left));
    case Land(r) => LandKeeps(w, s, r);
    case ForeignPut(key, meta, parts) => ForeignPutKeeps(w, s, key, meta, parts);
  }

  lemma AttemptStepKeeps(w: World, s: State, step: Step)
    requires Inv(w, s) && Enabled(w, s, step)
    requires step.Claim? || step.Classify? || step.Head? || step.FailMember? || step.Measure? || step.Converge?
             || step.Build? || step.GiveUpBuild? || step.Escape? || step.Abort?
    ensures Inv(w, Do(w, s, step)) && Carries(s, Do(w, s, step))
  {
    hide Inv, Carries, CanClaim, CanMeasure, CanConverge, CanBuild, CanGiveUp, DoClaim, DoHead, DoFailMember, DoMeasure,
      DoConverge, DoBuild, DoGiveUp, Renamed, SetPc, End, Classification;
    match step
    case Claim(a, group, saved) => ClaimKeeps(w, s, a, group, saved);
    case Classify(a) => ClassifyStep(w, s, a);
    case Head(a, saved) => HeadKeeps(w, s, a, saved);
    case FailMember(a, saved) => FailMemberKeeps(w, s, a, saved);
    case Measure(a, left) => MeasureStep(w, s, a, left);
    case Converge(a) => ConvergeStep(w, s, a);
    case Build(a) => BuildStep(w, s, a);
    case GiveUpBuild(a, saved) => GiveUpKeeps(w, s, a, saved);
    case Escape(a, saved) => RenamedKeeps(w, s, a, saved);
    case Abort(a) => EndStep(w, s, a, false);
  }

  lemma StoringStepKeeps(w: World, s: State, step: Step)
    requires Inv(w, s) && Enabled(w, s, step)
    requires step.HeadRaw? || step.Put? || step.PutLate? || step.Verify? || step.Complete? || step.WriteCard?
             || step.Remove?
    ensures Inv(w, Do(w, s, step)) && Carries(s, Do(w, s, step))
  {
    hide Inv, Carries, CanHeadRaw, CanPut, DoPut, DoPutLate, DoVerify, DoHeadRaw, DoComplete, DoWriteCard, DoRemove;
    match step
    case HeadRaw(a, saved) => HeadRawKeeps(w, s, a, saved);
    case Put(a, replyLost) => PutKeeps(w, s, a, replyLost);
    case PutLate(a) => PutLateKeeps(w, s, a);
    case Verify(a) => VerifyStep(w, s, a);
    case Complete(a) => CompleteKeeps(w, s, a);
    case WriteCard(a, ok) => WriteCardKeeps(w, s, a, ok);
    case Remove(a, ok) => RemoveKeeps(w, s, a, ok);
  }

  /** Every step keeps the invariant and carries everything over that must not be lost. */
  lemma StepKeeps(w: World, s: State, step: Step)
    requires Inv(w, s) && Enabled(w, s, step)
    ensures Inv(w, Do(w, s, step)) && Carries(s, Do(w, s, step))
  {
    hide Inv, Carries, Enabled, Do;
    if step.HeadRaw? || step.Put? || step.PutLate? || step.Verify? || step.Complete? || step.WriteCard?
       || step.Remove? {
      StoringStepKeeps(w, s, step);
    } else if step.Claim? || step.Classify? || step.Head? || step.FailMember? || step.Measure? || step.Converge?
              || step.Build? || step.GiveUpBuild? || step.Escape? || step.Abort? {
      AttemptStepKeeps(w, s, step);
    } else {
      SessionStepKeeps(w, s, step);
    }
  }

  lemma AfterSnoc(w: World, steps: seq<Step>, more: seq<Step>)
    requires more != []
    ensures var n := |more| - 1; After(w, steps + more) == Then(w, After(w, steps + more[..n]), more[n])
  {
    hide Then;
    var n := |more| - 1;
    assert (steps + more)[..|steps + more| - 1] == steps + more[..n];
  }

  /** The invariant holds after every run. */
  lemma {:induction false} Always(w: World, steps: seq<Step>)
    ensures Inv(w, After(w, steps))
    decreases |steps|
  {
    if steps != [] {
      hide Inv, Enabled, Do;
      var n := |steps| - 1;
      Always(w, steps[..n]);
      if Enabled(w, After(w, steps[..n]), steps[n]) {
        StepKeeps(w, After(w, steps[..n]), steps[n]);
      }
    }
  }

  lemma {:induction false} CarriesOverRuns(w: World, steps: seq<Step>, more: seq<Step>)
    ensures Carries(After(w, steps), After(w, steps + more))
    decreases |more|
  {
    if more == [] {
      assert steps + more == steps;
    } else {
      hide Inv, Carries, Enabled, Do, After;
      var n := |more| - 1;
      var s := After(w, steps + more[..n]);
      CarriesOverRuns(w, steps, more[..n]);
      AfterSnoc(w, steps, more);
      Always(w, steps + more[..n]);
      if Enabled(w, s, more[n]) {
        StepKeeps(w, s, more[n]);
        CarriesOn(After(w, steps), s, After(w, steps + more));
      }
    }
  }

  // ---------------------------------------------------------------------------------------------------------------
  // Audio is never lost
  // ---------------------------------------------------------------------------------------------------------------

  /** History only grows: a captured frame stays captured. */
  ghost predicate Remembers(s: State, s': State) {
    forall x :: x in s.made ==> x in s'.made && s.made[x] <= s'.made[x]
  }

  /** Only Start and Capture write history. */
  lemma StepRemembers(w: World, s: State, step: Step)
    requires Enabled(w, s, step)
    ensures Remembers(s, Do(w, s, step))
  {
    if step.Start? || step.Capture? {
      SessionsRemember(w, s, step);
    } else {
      SameHistory(w, s, step);
    }
  }

  lemma SessionsRemember(w: World, s: State, step: Step)
    requires Enabled(w, s, step) && (step.Start? || step.Capture?)
    ensures Remembers(s, Do(w, s, step))
  {
  }

  /** The steps that run the tail repair. */
  predicate Repairs(step: Step) {
    step.TrimTail? || step.Measure? || step.Recover?
  }

  lemma SameHistory(w: World, s: State, step: Step)
    requires Enabled(w, s, step) && !step.Start? && !step.Capture?
    ensures Do(w, s, step).made == s.made && Do(w, s, step).cut >= s.cut
    ensures Repairs(step) || Do(w, s, step).cut == s.cut
    ensures step.Remove? || step.Retain? || Do(w, s, step).files.Keys == s.files.Keys
  {
    hide Enabled, Do;
    if Repairs(step) {
      RepairSameHistory(w, s, step);
    } else if step.Put? || step.PutLate? || step.Land? {
      PutSameHistory(w, s, step);
    } else if step.Verify? || step.Complete? || step.WriteCard? || step.Remove? {
      CompletionSameHistory(w, s, step);
    } else if step.HeadRaw? || step.GiveUpBuild? {
      FallbackSameHistory(w, s, step);
    } else if step.Head? || step.Escape? || step.Abort? || step.FailMember? {
      EscapeSameHistory(w, s, step);
    } else {
      OtherSameHistory(w, s, step);
    }
  }

  lemma OtherSameHistory(w: World, s: State, step: Step)
    requires Enabled(w, s, step)
    requires step.CaptureJunk? || step.Finalize? || step.Claim? || step.Classify? || step.Converge? || step.Build?
             || step.Retry? || step.Quit? || step.Retain? || step.Crash? || step.ForeignPut?
    ensures Do(w, s, step).made == s.made && Do(w, s, step).cut == s.cut
    ensures step.Retain? || Do(w, s, step).files.Keys == s.files.Keys
  {
    hide DoClaim, DoRetry, DoFinalize, DoCrash, Classification, Looping, SetPc, End, PutAt, Parts, CanClaim, CanRetain;
  }

  lemma RepairSameHistory(w: World, s: State, step: Step)
    requires Enabled(w, s, step) && Repairs(step)
    ensures Do(w, s, step).made == s.made && Do(w, s, step).cut >= s.cut
    ensures Do(w, s, step).files.Keys == s.files.Keys
  {
    hide Elements, TakenIn, Save, Resumed, SetPc, Pick;
  }

  lemma PutSameHistory(w: World, s: State, step: Step)
    requires Enabled(w, s, step) && (step.Put? || step.PutLate? || step.Land?)
    ensures var s' := Do(w, s, step); s'.made == s.made && s'.cut == s.cut && s'.files == s.files
  {
    hide DoPut, DoLand, Sent, End, CanPut;
  }

  lemma CompletionSameHistory(w: World, s: State, step: Step)
    requires Enabled(w, s, step) && (step.Verify? || step.Complete? || step.WriteCard? || step.Remove?)
    ensures var s' := Do(w, s, step); s'.made == s.made && s'.cut == s.cut && (step.Remove? || s'.files == s.files)
  {
    hide Completed, SetPc, End;
  }

  lemma EscapeSameHistory(w: World, s: State, step: Step)
    requires Enabled(w, s, step) && (step.Head? || step.Escape? || step.Abort? || step.FailMember?)
    ensures var s' := Do(w, s, step); s'.made == s.made && s'.cut == s.cut && s'.files == s.files
  {
    hide Judge, Renamed, SetPc, End, Marked, Save;
  }

  lemma FallbackSameHistory(w: World, s: State, step: Step)
    requires Enabled(w, s, step) && (step.HeadRaw? || step.GiveUpBuild?)
    ensures var s' := Do(w, s, step); s'.made == s.made && s'.cut == s.cut && s'.files == s.files
  {
    hide Renamed, SetPc, Parts, FallbackKey;
  }

  lemma {:induction false} HistoryGrows(w: World, steps: seq<Step>, more: seq<Step>)
    ensures Remembers(After(w, steps), After(w, steps + more))
    decreases |more|
  {
    if more == [] {
      assert steps + more == steps;
    } else {
      hide Enabled, Do, After;
      var n := |more| - 1;
      HistoryGrows(w, steps, more[..n]);
      AfterSnoc(w, steps, more);
      if Enabled(w, After(w, steps + more[..n]), more[n]) {
        StepRemembers(w, After(w, steps + more[..n]), more[n]);
      }
    }
  }

  /** x's audio is the i-th part of the object under the key, whole, behind the parts before it. */
  predicate AudioAt(s: State, key: Key, x: Sid, i: nat) {
    && x in s.made && key in s.bucket
    && i < |s.bucket[key].whose| && s.bucket[key].whose[i] == x && i < |s.bucket[key].parts|
    && var before, content := Flatten(s.bucket[key].parts[..i]), s.bucket[key].Content();
       |before| + |s.made[x]| <= |content| && content[|before|..|before| + |s.made[x]|] == s.made[x]
  }

  /** x's audio is in the object under the key, whole, behind that of the sessions before it. */
  ghost predicate HeldBy(s: State, key: Key, x: Sid) {
    exists i: nat :: AudioAt(s, key, x, i)
  }

  lemma PartAt<T>(parts: seq<seq<T>>, i: nat)
    requires i < |parts|
    ensures var before, all := Flatten(parts[..i]), Flatten(parts);
            |before| + |parts[i]| <= |all| && all[|before|..|before| + |parts[i]|] == parts[i]
  {
    var before, after := parts[..i], parts[i + 1..];
    assert parts == before + [parts[i]] + after;
    FlattenAppend(before + [parts[i]], after);
    FlattenSnoc(before, parts[i]);
  }

  lemma HeldIsWhole(w: World, s: State, key: Key, x: Sid)
    requires BucketOk(w, s) && HeldAt(s.bucket, key, x) && x !in s.cut
    ensures HeldBy(s, key, x)
  {
    hide Settled, NoDup, BySecond, TrueMeta, Flatten;
    var o := s.bucket[key];
    assert ObjectOk(w, s, o);
    var i :| 0 <= i < |o.whose| && o.whose[i] == x;
    PartAt(o.parts, i);
    assert AudioAt(s, key, x, i);
  }

  /** Whatever a session has captured by the end of `steps`: after any further steps by anybody, crashes included, the
      session has its capture file or a part of an object. All of it is there, in that capture or whole in that object,
      if every tail repair of the capture was safe. */
  lemma AudioIsNeverLost(w: World, steps: seq<Step>, more: seq<Step>, x: Sid)
    requires x in After(w, steps).made && After(w, steps).made[x] != []
    ensures var s, s' := After(w, steps), After(w, steps + more);
            && x in s'.made && s.made[x] <= s'.made[x]
            && (x in s'.files || IsStored(s'.bucket, x))
            && (x !in s'.cut ==>
                  (x in s'.files && s'.files[x].frames == s'.made[x]) || exists key :: HeldBy(s', key, x))
  {
    hide After, BucketOk, LateOk, Known, Locks, AttemptOk, HeldBy;
    var s' := After(w, steps + more);
    HistoryGrows(w, steps, more);
    Always(w, steps + more);
    assert s'.made[x] != [];
    if x !in s'.files && x !in s'.cut {
      var key :| HeldAt(s'.bucket, key, x);
      HeldIsWhole(w, s', key, x);
    }
  }

  /** The tail repairs of this step leave x's frames as they are. */
  predicate SafeRepair(s: State, step: Step, x: Sid) {
    Repairs(step) && x in step.left && x in s.files ==> step.left[x].frames == s.files[x].frames
  }

  ghost predicate SafeRepairs(w: World, steps: seq<Step>, x: Sid) {
    forall i :: 0 <= i < |steps| ==> SafeRepair(After(w, steps[..i]), steps[i], x)
  }

  lemma SafeStepCutsNothing(w: World, s: State, step: Step, x: Sid)
    requires Enabled(w, s, step) && SafeRepair(s, step, x) && x !in s.cut
    ensures x !in Do(w, s, step).cut
  {
    if Repairs(step) {
      RepairCutsNothing(w, s, step, x);
    } else if step.Start? || step.Capture? {
      hide CanStart;
    } else {
      hide Enabled, Do;
      SameHistory(w, s, step);
    }
  }

  lemma RepairCutsNothing(w: World, s: State, step: Step, x: Sid)
    requires Enabled(w, s, step) && SafeRepair(s, step, x) && x !in s.cut && Repairs(step)
    ensures x !in Do(w, s, step).cut
  {
    hide Pick, Save, TakenIn, Resumed, Elements, SetPc;
  }

  /** A session whose repairs are all safe is never cut, so nothing of its audio is ever lost. */
  lemma {:induction false} SafeRunsCutNothing(w: World, steps: seq<Step>, x: Sid)
    requires SafeRepairs(w, steps, x)
    ensures x !in After(w, steps).cut
    decreases |steps|
  {
    if steps != [] {
      hide Enabled, Do, SafeRepair;
      var n := |steps| - 1;
      forall i | 0 <= i < n
        ensures SafeRepair(After(w, steps[..n][..i]), steps[..n][i], x)
      {
        assert steps[..n][..i] == steps[..i];
        assert SafeRepair(After(w, steps[..i]), steps[i], x);
      }
      SafeRunsCutNothing(w, steps[..n], x);
      assert SafeRepair(After(w, steps[..n]), steps[n], x);
      if Enabled(w, After(w, steps[..n]), steps[n]) {
        SafeStepCutsNothing(w, After(w, steps[..n]), steps[n], x);
      }
    }
  }

  // ---------------------------------------------------------------------------------------------------------------
  // No update is lost
  // ---------------------------------------------------------------------------------------------------------------

  /** The objects under a key form a chain: each is the one before with sessions and audio appended, within the cap; an
      object that is not the recorder's stays as it is. */
  lemma NoLostUpdate(w: World, steps: seq<Step>, more: seq<Step>, key: Key)
    requires key in After(w, steps).bucket
    ensures key in After(w, steps + more).bucket
            && Extends(After(w, steps).bucket[key], After(w, steps + more).bucket[key])
  {
    hide After, Extends, Settled;
    CarriesOverRuns(w, steps, more);
  }

  /** ... of one recording. */
  lemma ObjectsKeepTheirRecording(w: World, steps: seq<Step>, more: seq<Step>, key: Key)
    requires StableHeaders(w)
    requires key in After(w, steps).bucket && After(w, steps).bucket[key].meta.Manifest?
    ensures var o' := After(w, steps + more).bucket; key in o' && o'[key].meta.Manifest?
    ensures After(w, steps + more).bucket[key].meta.rid == After(w, steps).bucket[key].meta.rid
  {
    hide After, NoDup, BySecond, PartsOk, StableHeaders;
    var o := After(w, steps).bucket[key];
    NoLostUpdate(w, steps, more, key);
    ManifestsAreTrue(w, steps, key);
    ManifestsAreTrue(w, steps + more, key);
    assert o.whose[0] in o.whose;
    assert o.whose[0] in After(w, steps + more).bucket[key].whose;
  }

  /** Only an object as it was first created is over the cap: no merge leaves more than 20 sessions. */
  lemma OverTheCapIsAsCreated(w: World, steps: seq<Step>, more: seq<Step>, key: Key)
    requires key in After(w, steps).bucket && key in After(w, steps + more).bucket
    requires |After(w, steps + more).bucket[key].whose| > MAX_PARTS
    ensures After(w, steps + more).bucket[key] == After(w, steps).bucket[key]
  {
    hide After;
    NoLostUpdate(w, steps, more, key);
  }

  /** An attempt is about to store x raw, under its fallback key. */
  predicate StoresRaw(s: State, step: Step, x: Sid) {
    && step.Put? && step.a in s.attempts && s.attempts[step.a].pc.RawBuilt? && x in s.attempts[step.a].pc.toAdd
  }

  /** An object comes to hold a session only under the key the session has at that moment, or under that key's raw
      fallback, or by a request of earlier that the store applies late. */
  lemma HeldByItsKey(w: World, s: State, step: Step, key: Key, x: Sid)
    requires Inv(w, s) && Enabled(w, s, step)
    requires HeldAt(Do(w, s, step).bucket, key, x) && !HeldAt(s.bucket, key, x)
    ensures || (step.Put? && x in s.mem && !StoresRaw(s, step, x) && key == s.mem[x].key)
            || (StoresRaw(s, step, x) && x in s.mem && key == FallbackKey(s.mem[x].key))
            || (step.Land? && key == step.r.key && x in step.r.whose)
  {
    hide Inv, DoPut, HeldAt, FallbackKey, DoLand;
    if step.Put? {
      PutHoldsByKey(w, s, step.a, step.replyLost, key, x);
    } else if step.Land? {
      LandHolds(s, step.r, key, x);
    } else {
      OthersStoreNothing(w, s, step, key, x);
    }
  }

  lemma PutHoldsByKey(w: World, s: State, a: Sid, replyLost: bool, key: Key, x: Sid)
    requires Inv(w, s) && CanPut(s, a)
    requires HeldAt(DoPut(w, s, a, replyLost).bucket, key, x) && !HeldAt(s.bucket, key, x)
    ensures var t := s.attempts[a];
            && x in t.pc.toAdd && x in s.mem && s.mem[x].key == t.key
            && key == if t.pc.RawBuilt? then FallbackKey(t.key) else t.key
  {
    hide Inv, NewMeta, FallbackKey, SetPc, End, Written, NoDup, ByStart, PartsOk, Settled;
    var t := s.attempts[a];
    Running(w, s, a);
    assert Accepts(s, Sent(w, t));
    if t.pc.Built? && t.pc.remote.Some? {
      SameEtag(w, s, t.key, t.pc.remote.value);
    }
  }

  lemma LandHolds(s: State, r: Request, key: Key, x: Sid)
    requires HeldAt(DoLand(s, r).bucket, key, x) && !HeldAt(s.bucket, key, x)
    ensures key == r.key && x in r.whose
  {
  }

  lemma OthersStoreNothing(w: World, s: State, step: Step, key: Key, x: Sid)
    requires Enabled(w, s, step) && !step.Put? && !step.Land?
    ensures HeldAt(Do(w, s, step).bucket, key, x) ==> HeldAt(s.bucket, key, x)
  {
    hide Enabled, Do;
    if step.PutLate? {
      RestStoresNothing(w, s, step);
    } else if step.ForeignPut? {
      ForeignHoldsNobody(w, s, step, key, x);
    } else {
      OthersSendNothing(w, s, step);
    }
  }

  lemma OthersSendNothing(w: World, s: State, step: Step)
    requires Enabled(w, s, step) && !step.Put? && !step.PutLate? && !step.Land? && !step.ForeignPut?
    ensures Do(w, s, step).bucket == s.bucket && Do(w, s, step).late == s.late
  {
    hide Enabled, Do;
    if step.Verify? || step.Complete? || step.WriteCard? || step.Remove? {
      CompletionStoresNothing(w, s, step);
    } else if step.HeadRaw? || step.GiveUpBuild? || step.Head? || step.Escape? || step.Abort? || step.FailMember? {
      EscapesStoreNothing(w, s, step);
    } else {
      RestStoresNothing(w, s, step);
    }
  }

  lemma ForeignHoldsNobody(w: World, s: State, step: Step, key: Key, x: Sid)
    requires Enabled(w, s, step) && step.ForeignPut?
    ensures HeldAt(Do(w, s, step).bucket, key, x) ==> HeldAt(s.bucket, key, x)
  {
  }

  lemma RestStoresNothing(w: World, s: State, step: Step)
    requires Enabled(w, s, step)
    requires step.Start? || step.Capture? || step.CaptureJunk? || step.TrimTail? || step.Finalize? || step.Claim?
             || step.Classify? || step.Measure? || step.Converge? || step.Build? || step.PutLate? || step.Retry?
             || step.Quit? || step.Retain? || step.Crash? || step.Recover?
    ensures Do(w, s, step).bucket == s.bucket && (step.PutLate? || Do(w, s, step).late == s.late)
  {
    hide Elements, Parts, TakenIn, DoClaim, DoRetry, DoFinalize, DoCrash, Looping, Save, Pick, End, CanClaim, CanStart,
      CanRetain, Repaired, Resumed, Classification, SetPc, Sent, CanPut;
  }

  lemma CompletionStoresNothing(w: World, s: State, step: Step)
    requires Enabled(w, s, step) && (step.Verify? || step.Complete? || step.WriteCard? || step.Remove?)
    ensures Do(w, s, step).bucket == s.bucket && Do(w, s, step).late == s.late
  {
    hide Completed, SetPc, End;
  }

  lemma EscapesStoreNothing(w: World, s: State, step: Step)
    requires Enabled(w, s, step)
    requires step.HeadRaw? || step.GiveUpBuild? || step.Head? || step.Escape? || step.Abort? || step.FailMember?
    ensures Do(w, s, step).bucket == s.bucket && Do(w, s, step).late == s.late
  {
    hide Parts, Marked, Save, Pick, End, Judge, Renamed, SetPc, FallbackKey;
  }

  /** A request of earlier puts x into an object under another key. */
  predicate Strays(s: State, step: Step, x: Sid, key: Key) {
    step.Land? && x in step.r.whose && step.r.key != key && !HeldAt(s.bucket, step.r.key, x)
  }

  /** Over these further steps x is only ever known under this key, no raw fallback stores it and no late request
      strays. */
  ghost predicate Stays(w: World, steps: seq<Step>, more: seq<Step>, x: Sid, key: Key) {
    && (forall i :: 0 <= i <= |more| ==> KnownBy(After(w, steps + more[..i]), x, key))
    && (forall i :: 0 <= i < |more| ==> Homely(After(w, steps + more[..i]), more[i], x, key))
  }

  predicate Homely(s: State, step: Step, x: Sid, key: Key) {
    !StoresRaw(s, step, x) && !Strays(s, step, x, key)
  }

  predicate KnownBy(s: State, x: Sid, key: Key) {
    x in s.mem ==> s.mem[x].key == key
  }

  /** A session gets into a second object only by being moved to another key, by the raw fallback, or by a request that
      the store applies after the move. */
  lemma {:induction false} SecondObjectNeedsAMove(w: World, steps: seq<Step>, more: seq<Step>, x: Sid, home: Key,
                                                  key: Key)
    requires Stays(w, steps, more, x, home) && HeldAt(After(w, steps + more).bucket, key, x)
    ensures key == home || HeldAt(After(w, steps).bucket, key, x)
    decreases |more|
  {
    if more == [] {
      assert steps + more == steps;
    } else {
      hide Inv, Enabled, Do, After, KnownBy, Homely, HeldAt;
      var n := |more| - 1;
      var s := After(w, steps + more[..n]);
      AfterSnoc(w, steps, more);
      StaysBefore(w, steps, more, x, home);
      Always(w, steps + more[..n]);
      if HeldAt(s.bucket, key, x) {
        SecondObjectNeedsAMove(w, steps, more[..n], x, home, key);
      } else {
        OnlyAtHome(w, s, more[n], x, home, key);
      }
    }
  }

  lemma OnlyAtHome(w: World, s: State, step: Step, x: Sid, home: Key, key: Key)
    requires Inv(w, s) && Enabled(w, s, step) && KnownBy(s, x, home) && Homely(s, step, x, home)
    requires HeldAt(Do(w, s, step).bucket, key, x) && !HeldAt(s.bucket, key, x)
    ensures key == home
  {
    hide Inv, Enabled, Do, FallbackKey;
    HeldByItsKey(w, s, step, key, x);
  }

  lemma StaysBefore(w: World, steps: seq<Step>, more: seq<Step>, x: Sid, key: Key)
    requires more != [] && Stays(w, steps, more, x, key)
    ensures var n := |more| - 1;
            Stays(w, steps, more[..n], x, key) && KnownBy(After(w, steps + more[..n]), x, key) &&
            Homely(After(w, steps + more[..n]), more[n], x, key)
  {
    hide After, KnownBy, Homely;
    var n := |more| - 1;
    forall i | 0 <= i <= n
      ensures more[..n][..i] == more[..i] && KnownBy(After(w, steps + more[..n][..i]), x, key)
      ensures i < n ==> Homely(After(w, steps + more[..n][..i]), more[..n][i], x, key)
    {
      assert more[..n][..i] == more[..i];
    }
  }

  /** A session once listed stays listed there. */
  lemma OnceListedStaysListed(w: World, steps: seq<Step>, more: seq<Step>, key: Key, x: Sid)
    requires ListedAt(After(w, steps).bucket, key, x)
    ensures ListedAt(After(w, steps + more).bucket, key, x)
  {
    hide After, Carries, ListedAt;
    CarriesOverRuns(w, steps, more);
    ListedCarries(After(w, steps), After(w, steps + more), key, x);
  }

  /** Every object that the recorders wrote is good, after every run, and no other has a manifest. */
  lemma ManifestsAreTrue(w: World, steps: seq<Step>, key: Key)
    requires key in After(w, steps).bucket
    ensures var s, o := After(w, steps), After(w, steps).bucket[key];
            && (o.whose != [] ==> GoodObject(w, s.made, s.cut, o.meta, o.whose, o.parts))
            && (o.meta.Manifest? ==> o.whose != [])
  {
    hide After, GoodObject, LateOk, Known, FilesOk, AudioKept, Locks, AttemptOk;
    Always(w, steps);
    assert ObjectOk(w, After(w, steps), After(w, steps).bucket[key]);
  }

  /** The object's manifest names the session: there are not more than 114, and it is not the 114th. */
  predicate Names(o: Object, x: Sid) {
    |o.whose| <= NAMED + 1 && x in Named(o.whose)
  }

  /** What memory and sidecars say about the object is true after every run: it holds the session, and lists it exactly
      if the list still names it. No group is renamed more than three times. */
  lemma UploadedMeansHeld(w: World, steps: seq<Step>, x: Sid)
    ensures var s := After(w, steps);
            && (x in s.mem ==>
                  s.mem[x].renames <= 3 && (s.mem[x].stored ==> HeldTruly(s.bucket, s.mem[x].key, x)))
            && (x in s.cards ==>
                  s.cards[x].renames <= 3 && (s.cards[x].stored ==> HeldTruly(s.bucket, s.cards[x].key, x)))
  {
    hide After, HeldAt, BucketOk, LateOk, FilesOk, AudioKept, Locks, AttemptOk, HeldTruly;
    var s := After(w, steps);
    Always(w, steps);
    if x in s.mem && s.mem[x].stored {
      ListedExactly(w, steps, s.mem[x].key, x);
    }
    if x in s.cards && s.cards[x].stored {
      ListedExactly(w, steps, s.cards[x].key, x);
    }
  }

  predicate HeldTruly(bucket: map<Key, Object>, key: Key, x: Sid) {
    HeldAt(bucket, key, x) && (ListedAt(bucket, key, x) <==> Names(bucket[key], x))
  }

  /** Whom an object holds, its metadata lists exactly as far as the header reaches. */
  lemma ListedExactly(w: World, steps: seq<Step>, key: Key, x: Sid)
    requires HeldAt(After(w, steps).bucket, key, x)
    ensures HeldTruly(After(w, steps).bucket, key, x)
  {
    hide After, PartsOk, NoDup, BySecond, StableHeaders;
    ManifestsAreTrue(w, steps, key);
  }

  /** Two attempts that run at once never work on the same session, also while they complete it, as long as each stores
      under the key its lock is on. */
  lemma GroupsStayDisjoint(w: World, steps: seq<Step>, a: Sid, b: Sid)
    requires var s := After(w, steps);
             a in s.attempts && b in s.attempts && a != b && Locked(s.attempts[a]) && Locked(s.attempts[b])
    ensures forall x :: x in After(w, steps).attempts[a].group ==> x !in After(w, steps).attempts[b].group
  {
    hide After, Inv, Locked;
    Always(w, steps);
    GroupsAreDisjoint(w, After(w, steps), a, b);
  }

  /** The attempt completes what it stored under the raw fallback's key, while its lock is on the other. */
  predicate CompletesElsewhere(t: Attempt) {
    (t.pc.Writing? || t.pc.Removing?) && t.pc.target == FallbackKey(t.key) != t.key
  }

  /** Attempts of different recorders never share a session, and two of one recorder only while one of them completes a
      raw fallback. */
  lemma SharingNeedsTheFallback(w: World, steps: seq<Step>, a: Sid, b: Sid, x: Sid)
    requires var s := After(w, steps);
             a in s.attempts && b in s.attempts && a != b && x in s.attempts[a].group && x in s.attempts[b].group
    ensures var s := After(w, steps);
            w.owner(a) == w.owner(b) && (CompletesElsewhere(s.attempts[a]) || CompletesElsewhere(s.attempts[b]))
  {
    hide After, Inv, FallbackKey, Settled, Plan;
    Always(w, steps);
    var s := After(w, steps);
    Running(w, s, a);
    Running(w, s, b);
    if Locked(s.attempts[a]) && Locked(s.attempts[b]) {
      GroupsAreDisjoint(w, s, a, b);
      assert false;
    }
  }

  // ---------------------------------------------------------------------------------------------------------------
  // Who fails, and when a capture goes
  // ---------------------------------------------------------------------------------------------------------------

  /** A capture goes only in the removal that follows its own sidecar, or when retention forgets a failed session
      without data. */
  lemma CapturesGoOnlyBy(w: World, s: State, step: Step, x: Sid)
    requires Enabled(w, s, step) && x in s.files && x !in Do(w, s, step).files
    ensures || (step.Remove? && step.ok && s.attempts[step.a].pc.Removing? && s.attempts[step.a].pc.todo[0] == x)
            || (step.Retain? && step.sid == x && s.mem[x].phase == Failed && s.files[x].Empty())
  {
    if step.Start? || step.Capture? || step.CaptureJunk? {
      hide Enabled, Do;
      CapturingKeepsFiles(w, s, step);
    } else if !step.Remove? && !step.Retain? {
      hide Enabled, Do;
      SameHistory(w, s, step);
    }
  }

  lemma CapturingKeepsFiles(w: World, s: State, step: Step)
    requires Enabled(w, s, step) && (step.Start? || step.Capture? || step.CaptureJunk?)
    ensures s.files.Keys <= Do(w, s, step).files.Keys
  {
    hide CanStart;
  }

  /** An attempt comes to remove a capture only by writing that session's sidecar, which then says it is uploaded under
      the target. */
  lemma SidecarComesFirst(w: World, s: State, step: Step, a: Sid)
    requires Enabled(w, s, step) && a in Do(w, s, step).attempts && Do(w, s, step).attempts[a].pc.Removing?
    requires !(a in s.attempts && s.attempts[a].pc.Removing?)
    ensures step == WriteCard(a, true)
    ensures var s' := Do(w, s, step);
            var pc := s'.attempts[a].pc;
            pc.todo != [] && pc.todo[0] in s'.cards && s'.cards[pc.todo[0]].phase == Uploaded
            && s'.cards[pc.todo[0]].key == pc.target
            && s'.cards[pc.todo[0]].stored
  {
    if step.Put? || step.PutLate? || step.Land? {
      PutNeverRemoves(w, s, step, a);
    } else if step.Verify? || step.Complete? || step.Remove? || step.Quit? || step.Retain? || step.Retry?
              || step.Crash? {
      StoringNeverRemoves(w, s, step, a);
    } else if step.HeadRaw? || step.GiveUpBuild? {
      FallbackNeverRemoves(w, s, step, a);
    } else if step.Head? || step.Escape? || step.Abort? || step.FailMember? {
      EscapesNeverRemove(w, s, step, a);
    } else if !step.WriteCard? {
      OthersNeverRemove(w, s, step, a);
    } else {
      hide WithCard;
      CardSaysUploaded(s, step.a);
    }
  }

  lemma CardSaysUploaded(s: State, a: Sid)
    requires At(s, a) && s.attempts[a].pc.Writing? && s.attempts[a].pc.todo != []
    ensures var x, key := s.attempts[a].pc.todo[0], s.attempts[a].pc.target;
            var cards := WithCard(s, x, key).cards;
            x in cards && cards[x].phase == Uploaded && cards[x].key == key && cards[x].stored
  {
  }

  /** The attempt is not about to remove anything. */
  predicate RemovesNothing(s: State, a: Sid) {
    !(a in s.attempts && s.attempts[a].pc.Removing?)
  }

  lemma StoringNeverRemoves(w: World, s: State, step: Step, a: Sid)
    requires Enabled(w, s, step) && RemovesNothing(s, a)
    requires step.Verify? || step.Complete? || step.Remove? || step.Quit? || step.Retain? || step.Retry? || step.Crash?
    ensures RemovesNothing(Do(w, s, step), a)
  {
    if step.Quit? || step.Retain? || step.Retry? || step.Crash? {
      LoopsNeverRemove(w, s, step, a);
    } else {
      hide Completed, End;
    }
  }

  lemma LoopsNeverRemove(w: World, s: State, step: Step, a: Sid)
    requires Enabled(w, s, step) && RemovesNothing(s, a)
    requires step.Quit? || step.Retain? || step.Retry? || step.Crash?
    ensures RemovesNothing(Do(w, s, step), a)
  {
    hide Looping, Marked, Save, CanRetain, CanQuit;
  }

  lemma PutNeverRemoves(w: World, s: State, step: Step, a: Sid)
    requires Enabled(w, s, step) && RemovesNothing(s, a) && (step.Put? || step.PutLate? || step.Land?)
    ensures RemovesNothing(Do(w, s, step), a)
  {
    hide DoPut, CanPut, Sent;
    if step.Put? {
      PutMovesOn(w, s, step.a, step.replyLost, a);
    }
  }

  lemma PutMovesOn(w: World, s: State, b: Sid, replyLost: bool, a: Sid)
    requires CanPut(s, b) && RemovesNothing(s, a)
    ensures RemovesNothing(DoPut(w, s, b, replyLost), a)
  {
    hide Sent, End, PutAt, AlreadyThere, Accepts, StoredBy;
  }

  lemma EscapesNeverRemove(w: World, s: State, step: Step, a: Sid)
    requires Enabled(w, s, step) && RemovesNothing(s, a)
    requires step.Head? || step.Escape? || step.Abort? || step.FailMember?
    ensures RemovesNothing(Do(w, s, step), a)
  {
    hide Judge, Renamed, End, Marked, Save;
  }

  lemma FallbackNeverRemoves(w: World, s: State, step: Step, a: Sid)
    requires Enabled(w, s, step) && RemovesNothing(s, a) && (step.HeadRaw? || step.GiveUpBuild?)
    ensures RemovesNothing(Do(w, s, step), a)
  {
    hide DoHeadRaw, DoGiveUp;
    if step.HeadRaw? {
      RawRemovesNothing(w, s, step.a, step.saved, a);
    } else {
      GivingUpRemovesNothing(s, step.a, step.saved, a);
    }
  }

  lemma RawRemovesNothing(w: World, s: State, b: Sid, saved: set<Sid>, a: Sid)
    requires CanHeadRaw(s, b) && RemovesNothing(s, a)
    ensures RemovesNothing(DoHeadRaw(w, s, b, saved), a)
  {
    hide Renamed, Parts, FallbackKey;
  }

  lemma GivingUpRemovesNothing(s: State, b: Sid, saved: set<Sid>, a: Sid)
    requires CanGiveUp(s, b) && RemovesNothing(s, a)
    ensures RemovesNothing(DoGiveUp(s, b, saved), a)
  {
    hide Renamed;
  }

  lemma OthersNeverRemove(w: World, s: State, step: Step, a: Sid)
    requires Enabled(w, s, step) && RemovesNothing(s, a)
    requires step.Start? || step.Capture? || step.CaptureJunk? || step.Finalize? || step.Claim? || step.Classify?
             || step.Measure?
             || step.Converge? || step.Build? || step.Recover? || step.ForeignPut? || step.TrimTail?
    ensures RemovesNothing(Do(w, s, step), a)
  {
    hide Elements, Parts, TakenIn, InUpload, Marked, Looping, Save, Pick, End, CanClaim, CanStart, Repaired, Resumed;
  }
}
