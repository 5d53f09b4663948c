/** Nothing with audio is given up: as long as a capture has a frame, its session is being recorded, is stored, or has
    an upload loop that will get to it. */
module UploadQueue {
  import opened Bytes
  import opened ObjectKeys
  import opened UploadProtocol
  import opened UploadInvariant
  import opened UploadSteps
  import opened UploadSessions
  import opened UploadSafety

  /** The session's capture has a frame. */
  predicate Sounds(s: State, x: Sid) {
    x in s.files && s.files[x].frames != []
  }

  // ---------------------------------------------------------------------------------------------------------------
  // The invariant
  // ---------------------------------------------------------------------------------------------------------------

  /** Whom the attempt is still going to store; of a group that is refused or done nobody is dropped. */
  function Planned(t: Attempt): (l: seq<Sid>)
  {
    match t.pc
    case Claimed => t.group
    case Classified(local, _, _) => local
    case Decided(_, toAdd, present, _) => toAdd + present
    case Refused(_) => t.group
    case Measured(_, toAdd, present, _) => toAdd + present
    case Built(_, toAdd, present, _) => toAdd + present
    case Verifying(_, toAdd, present) => toAdd + present
    case GivenUp(toAdd) => toAdd
    case RawBuilt(toAdd, _) => toAdd
    case Stored(members, _) => members
    case Writing(_, _, _) => t.group
    case Removing(_, _, _) => t.group
  }

  /** Whom it has parked or is going to. */
  function Lost(pc: Pc): (l: seq<Sid>)
  {
    match pc
    case Classified(_, missing, bad) => missing + bad
    case Decided(_, _, _, bad) => bad
    case Refused(bad) => bad
    case Measured(_, _, _, bad) => bad
    case _ => []
  }

  /** An attempt that has not completed its group: members with audio wait for it, and its own session, if it has audio,
      is among those it stores; nobody with audio is parked. One that has: its own session, with audio, is uploaded. */
  predicate Minds(s: State, a: Sid, t: Attempt) {
    && a in s.mem && a in t.group
    && (Open(t.pc) ==>
          && (forall g :: g in t.group && Sounds(s, g) ==> g in s.mem && Pending(s.mem[g].phase))
          && (Sounds(s, a) ==> a in Planned(t)))
    && (forall g :: g in Lost(t.pc) ==> g in t.group && !Sounds(s, g))
    && (!Open(t.pc) && Sounds(s, a) ==> s.mem[a].phase == Uploaded)
  }

  /** What a session is in memory, with its loop and whether it has audio. */
  predicate Fine(m: Mem, sounds: bool) {
    && (Pending(m.phase) && sounds ==> m.loop != NoLoop)
    && (m.phase == Failed ==> !sounds)
    && (m.phase == Uploaded ==> m.stored)
  }

  predicate CardFine(c: Card, sounds: bool) {
    (c.phase == Failed ==> !sounds) && (c.phase == Uploaded ==> c.stored)
  }

  predicate MemFine(s: State) {
    forall x :: x in s.mem ==> Fine(s.mem[x], Sounds(s, x)) && (s.mem[x].loop == Attempting <==> x in s.attempts)
  }

  predicate CardsFine(s: State) {
    && (forall x :: x in s.cards ==> CardFine(s.cards[x], Sounds(s, x)))
    && (forall x :: x in s.mem && s.mem[x].phase == Recording ==> x in s.cards && s.cards[x].phase == Recording)
  }

  predicate AttemptsMind(s: State) {
    forall a :: a in s.attempts ==> Minds(s, a, s.attempts[a])
  }

  predicate Queue(s: State) {
    MemFine(s) && CardsFine(s) && AttemptsMind(s)
  }

  // ---------------------------------------------------------------------------------------------------------------
  // What steps do to it
  // ---------------------------------------------------------------------------------------------------------------

  /** An attempt minds the same when its members are as they were, or make less noise. */
  lemma StillMinds(s: State, s': State, b: Sid, t: Attempt)
    requires Minds(s, b, t) && s.mem.Keys <= s'.mem.Keys
    requires forall g :: g in t.group && Sounds(s', g) ==> Sounds(s, g)
    requires forall g :: g in t.group && Sounds(s', g) && g in s.mem && s'.mem[g].phase != s.mem[g].phase ==>
               if Open(t.pc) then Pending(s'.mem[g].phase) else g != b || s'.mem[g].phase == Uploaded
    ensures Minds(s', b, t)
  {
    hide Sounds, Planned, Lost, Open;
  }

  /** The attempt goes on. */
  lemma PcQueue(s: State, a: Sid, pc: Pc)
    requires Queue(s) && a in s.attempts
    requires Minds(s, a, s.attempts[a].(pc := pc))
    ensures Queue(SetPc(s, a, pc))
  {
    hide Fine, CardFine, Planned, Lost, Open;
  }

  /** ... or is over; for good only if its session has no audio that waits. */
  lemma EndQueue(s: State, a: Sid, ok: bool)
    requires Queue(s) && a in s.attempts
    requires ok ==> a in s.mem && (Sounds(s, a) ==> !Pending(s.mem[a].phase))
    ensures Queue(End(s, a, ok))
  {
    var s' := End(s, a, ok);
    assert AttemptsMind(s') by {
      forall b | b in s'.attempts
        ensures Minds(s', b, s'.attempts[b])
      {
        assert Minds(s, b, s.attempts[b]);
        StillMinds(s, s', b, s.attempts[b]);
      }
    }
  }

  /** Bucket and requests do not matter, captures that lose frames do no harm. */
  lemma FilesQueue(s: State, s': State)
    requires Queue(s) && s'.mem == s.mem && s'.cards == s.cards && s'.attempts == s.attempts
    requires forall x :: Sounds(s', x) ==> Sounds(s, x)
    ensures Queue(s')
  {
    hide Sounds, Planned, Lost, Open;
  }

  /** Sidecars written from memory are as fine as memory. */
  lemma SaveQueue(s: State, saved: set<Sid>)
    requires Queue(s)
    ensures Queue(Save(s, saved))
  {
    assert AttemptsMind(Save(s, saved)) by {
      hide Planned, Lost, Open, Fine, CardFine;
    }
  }

  /** A session that changes in memory without a word from any attempt: its own is not running, and those that have it
      in their group do not care. */
  lemma MarkQueue(s: State, x: Sid, m: Mem)
    requires Queue(s) && x in s.mem && s.mem[x].phase != Recording && m.phase != Recording
    requires Fine(m, Sounds(s, x)) && (m.loop == Attempting <==> x in s.attempts)
    requires x in s.attempts ==> m.phase == s.mem[x].phase || !Sounds(s, x)
    requires forall b :: b in s.attempts && Open(s.attempts[b].pc) && x in s.attempts[b].group && Sounds(s, x) ==>
               Pending(m.phase)
    ensures Queue(s.(mem := s.mem[x := m]))
  {
    var s' := s.(mem := s.mem[x := m]);
    assert AttemptsMind(s') by {
      forall b | b in s'.attempts
        ensures Minds(s', b, s'.attempts[b])
      {
        assert Minds(s, b, s.attempts[b]);
        StillMinds(s, s', b, s.attempts[b]);
      }
    }
  }

  lemma NobodyRecords(w: World, s: State, a: Sid)
    requires Inv(w, s) && a in s.attempts
    ensures forall g :: g in s.attempts[a].group ==> g in s.mem && s.mem[g].phase != Recording
  {
    forall g | g in s.attempts[a].group
      ensures g in s.mem && s.mem[g].phase != Recording
    {
      NotRecording(w, s, a, g);
    }
  }

  /** The whole group waits under a new key. */
  lemma MoveQueue(w: World, s: State, a: Sid, key: Key, n: nat)
    requires Inv(w, s) && Queue(s) && a in s.attempts && Open(s.attempts[a].pc)
    ensures Queue(Moved(s, s.attempts[a].group, key, n))
  {
    hide Inv, MemFine, CardsFine, Moved;
    NobodyRecords(w, s, a);
    assert Minds(s, a, s.attempts[a]);
    MovedFine(s, s.attempts[a].group, key, n);
    MovedMinds(s, a, key, n);
  }

  lemma MovedFine(s: State, group: seq<Sid>, key: Key, n: nat)
    requires MemFine(s) && CardsFine(s)
    requires forall g :: g in group ==> g in s.mem && s.mem[g].phase != Recording
    requires forall g :: g in group && Sounds(s, g) ==> Pending(s.mem[g].phase)
    ensures MemFine(Moved(s, group, key, n)) && CardsFine(Moved(s, group, key, n))
  {
    hide CardFine;
  }

  lemma MovedMinds(s: State, a: Sid, key: Key, n: nat)
    requires Queue(s) && a in s.attempts && Open(s.attempts[a].pc)
    ensures AttemptsMind(Moved(s, s.attempts[a].group, key, n))
  {
    hide MemFine, CardsFine;
    var s' := Moved(s, s.attempts[a].group, key, n);
    forall b | b in s'.attempts
      ensures Minds(s', b, s'.attempts[b])
    {
      assert Minds(s, b, s.attempts[b]) && Minds(s, a, s.attempts[a]);
      StillMinds(s, s', b, s.attempts[b]);
    }
  }

  lemma RenamedQueue(w: World, s: State, a: Sid, saved: set<Sid>)
    requires Inv(w, s) && Queue(s) && a in s.attempts && Open(s.attempts[a].pc)
    ensures Queue(Renamed(s, a, saved))
  {
    hide Inv, Queue, Moved, Save, MaxRenames, RenamedKey, End;
    var t := s.attempts[a];
    var n := MaxRenames(s, t.group);
    if n >= MAX_RENAMES {
      EndQueue(s, a, false);
    } else {
      var moved := Moved(s, t.group, RenamedKey(t.key, n), n);
      MoveQueue(w, s, a, RenamedKey(t.key, n), n);
      SaveQueue(moved, saved * Elements(t.group));
      EndQueue(Save(moved, saved * Elements(t.group)), a, false);
    }
  }

  /** Completed in memory: all members are uploaded, and no other attempt that is still open has any of them. */
  lemma CompleteQueue(w: World, s: State, a: Sid)
    requires Inv(w, s) && Queue(s) && At(s, a) && s.attempts[a].pc.Stored?
    ensures Queue(DoComplete(s, a))
  {
    hide Inv, MemFine, CardsFine, AttemptsMind, DoComplete, AllAt, AttemptOk;
    Running(w, s, a);
    NobodyRecords(w, s, a);
    StoredWithin(w, s, a);
    CompletedFine(s, a);
    CompletedMinds(w, s, a);
  }

  lemma StoredWithin(w: World, s: State, a: Sid)
    requires Inv(w, s) && At(s, a) && s.attempts[a].pc.Stored?
    ensures forall x :: x in s.attempts[a].pc.members ==> x in s.attempts[a].group
  {
    hide Inv, Members, AllAt;
    Running(w, s, a);
    StoredListed(w, s, a, s.attempts[a]);
  }

  lemma CompletedFine(s: State, a: Sid)
    requires MemFine(s) && CardsFine(s) && At(s, a) && s.attempts[a].pc.Stored?
    requires forall x :: x in s.attempts[a].pc.members ==> x in s.mem && s.mem[x].phase != Recording
    ensures MemFine(DoComplete(s, a)) && CardsFine(DoComplete(s, a))
  {
    hide CardFine;
  }

  lemma CompletedMinds(w: World, s: State, a: Sid)
    requires Inv(w, s) && Queue(s) && At(s, a) && s.attempts[a].pc.Stored?
    ensures AttemptsMind(DoComplete(s, a))
  {
    hide Inv, MemFine, CardsFine, Minds;
    var s' := DoComplete(s, a);
    StoredWithin(w, s, a);
    OwnCompleted(s, a);
    forall b | b in s'.attempts && b != a
      ensures Minds(s', b, s'.attempts[b])
    {
      if Open(s.attempts[b].pc) {
        GroupsAreDisjoint(w, s, a, b);
      }
      OtherCompleted(s, a, b);
    }
  }

  lemma OwnCompleted(s: State, a: Sid)
    requires At(s, a) && s.attempts[a].pc.Stored? && Minds(s, a, s.attempts[a])
    ensures Minds(DoComplete(s, a), a, DoComplete(s, a).attempts[a])
  {
  }

  lemma OtherCompleted(s: State, a: Sid, b: Sid)
    requires At(s, a) && s.attempts[a].pc.Stored? && b in s.attempts && b != a && Minds(s, b, s.attempts[b])
    requires Open(s.attempts[b].pc) ==>
               forall x :: x in s.attempts[a].pc.members ==> x !in s.attempts[b].group
    ensures Minds(DoComplete(s, a), b, s.attempts[b]) && DoComplete(s, a).attempts[b] == s.attempts[b]
  {
    hide Planned, Lost, Open, Pending;
  }

  // ---------------------------------------------------------------------------------------------------------------
  // Every step
  // ---------------------------------------------------------------------------------------------------------------

  lemma StartQueue(w: World, s: State, x: Sid, key: Key, from: Option<Sid>)
    requires Inv(w, s) && Queue(s) && CanStart(w, s, x, key, from)
    ensures Queue(DoStart(s, x, key, from))
  {
    hide Inv, CanStart, AttemptsMind;
    NewIsNew(w, s, Start(x, key, from));
    OutsideMinds(s, x, DoStart(s, x, key, from));
  }

  lemma CaptureQueue(w: World, s: State, x: Sid, s': State)
    requires Inv(w, s) && Queue(s) && IsRecording(s, x)
    requires s' == s.(made := s'.made, files := s'.files) && forall y :: y != x ==> (Sounds(s', y) <==> Sounds(s, y))
    ensures Queue(s')
  {
    hide Inv, Sounds, AttemptsMind;
    NewIsNew(w, s, Finalize(x));
    OutsideMinds(s, x, s');
  }

  /** Attempts do not notice what happens to a session outside their groups. */
  lemma OutsideMinds(s: State, x: Sid, s': State)
    requires AttemptsMind(s) && s'.attempts == s.attempts && s'.mem.Keys == s.mem.Keys + {x}
    requires forall b :: b in s.attempts ==> x !in s.attempts[b].group
    requires forall y :: y in s.mem && y != x ==> s'.mem[y].phase == s.mem[y].phase
    requires forall y :: y != x && Sounds(s', y) ==> Sounds(s, y)
    ensures AttemptsMind(s')
  {
    hide Sounds;
    forall b | b in s'.attempts
      ensures Minds(s', b, s'.attempts[b])
    {
      assert Minds(s, b, s.attempts[b]);
      StillMinds(s, s', b, s.attempts[b]);
    }
  }

  /** A session that begins or records belongs to no attempt. */
  lemma NewIsNew(w: World, s: State, step: Step)
    requires Inv(w, s) && Enabled(w, s, step) && (step.Start? || step.Capture? || step.CaptureJunk? || step.Finalize?)
    ensures step.Start? ==> step.sid !in s.mem
    ensures forall b :: b in s.attempts ==> step.sid !in s.attempts[b].group
    ensures step.sid !in s.attempts
  {
    hide Inv;
    InvParts(w, s);
    hide BucketOk, LateOk, FilesOk, AudioKept, Locks, AttemptOk;
    forall b | b in s.attempts
      ensures step.sid !in s.attempts[b].group && b != step.sid
    {
      NobodyRecords(w, s, b);
      GroupSettled(w, s, b);
    }
  }

  lemma FinalizeQueue(w: World, s: State, x: Sid)
    requires Inv(w, s) && Queue(s) && IsRecording(s, x)
    ensures Queue(DoFinalize(s, x))
  {
    hide Inv, AttemptsMind, MemFine, CardsFine;
    NewIsNew(w, s, Finalize(x));
    FinalizeFine(s, x);
    OutsideMinds(s, x, DoFinalize(s, x));
  }

  lemma FinalizeFine(s: State, x: Sid)
    requires MemFine(s) && CardsFine(s) && IsRecording(s, x) && x !in s.attempts
    ensures MemFine(DoFinalize(s, x)) && CardsFine(DoFinalize(s, x))
  {
  }

  /** Claimed are only those that wait and whom nobody works on. */
  lemma ClaimQueue(w: World, s: State, a: Sid, group: seq<Sid>, saved: set<Sid>)
    requires Inv(w, s) && Queue(s) && CanClaim(w, s, a, group)
    ensures Queue(DoClaim(s, a, group, saved))
  {
    hide Inv, CanClaim, Save, Queue;
    CanClaimMeans(w, s, a, group);
    var s1 := InUpload(s, group);
    InUploadQueue(s, group);
    BegunQueue(s1, a, Attempt(s.mem[a].key, group, Claimed));
    var s2 := Looping(s1, a, Attempting);
    var s3 := s2.(attempts := s2.attempts[a := Attempt(s.mem[a].key, group, Claimed)]);
    SaveQueue(s3, saved * Elements(group));
    SaveLater(s2, s3, saved * Elements(group));
  }

  lemma BegunQueue(s: State, a: Sid, t: Attempt)
    requires Queue(s) && a in s.mem && a in t.group && t.pc == Claimed && s.mem[a].loop == Waiting
    requires forall g :: g in t.group ==> g in s.mem && Pending(s.mem[g].phase)
    ensures Queue(Looping(s, a, Attempting).(attempts := s.attempts[a := t]))
  {
    hide MemFine, CardsFine, AttemptsMind;
    BegunFine(s, a, t);
    BegunMinds(s, a, t);
  }

  lemma BegunFine(s: State, a: Sid, t: Attempt)
    requires MemFine(s) && CardsFine(s) && a in s.mem && s.mem[a].loop == Waiting
    ensures var s' := Looping(s, a, Attempting).(attempts := s.attempts[a := t]); MemFine(s') && CardsFine(s')
  {
    hide CardFine;
  }

  lemma BegunMinds(s: State, a: Sid, t: Attempt)
    requires AttemptsMind(s) && a in s.mem && a in t.group && t.pc == Claimed
    requires forall g :: g in t.group ==> g in s.mem && Pending(s.mem[g].phase)
    ensures AttemptsMind(Looping(s, a, Attempting).(attempts := s.attempts[a := t]))
  {
    var s' := Looping(s, a, Attempting).(attempts := s.attempts[a := t]);
    forall b | b in s'.attempts && b != a
      ensures Minds(s', b, s'.attempts[b])
    {
      assert Minds(s, b, s.attempts[b]);
      StillMinds(s, s', b, s.attempts[b]);
    }
  }

  lemma SaveLater(s: State, s': State, saved: set<Sid>)
    requires s' == s.(attempts := s'.attempts)
    ensures Save(s', saved) == Save(s, saved).(attempts := s'.attempts)
  {
  }

  lemma CanClaimMeans(w: World, s: State, a: Sid, group: seq<Sid>)
    requires CanClaim(w, s, a, group)
    ensures a in s.mem && a in group && s.mem[a].loop == Waiting
    ensures forall g :: g in group ==> g in s.mem && Pending(s.mem[g].phase)
  {
    hide NoDup, ByStart, Unlocked;
    assert Claimable(w, s, a, a);
  }

  lemma InUploadQueue(s: State, group: seq<Sid>)
    requires Queue(s) && forall g :: g in group ==> g in s.mem && Pending(s.mem[g].phase)
    ensures Queue(InUpload(s, group))
  {
  }

  /** What a HEAD finds out about the group keeps everybody with audio. */
  lemma JudgeMinds(w: World, s: State, a: Sid, t: Attempt)
    requires Minds(s, a, t) && t.pc.Classified? && NoBad(t.pc)
    requires Judge(w, a, t, Lookup(s, t.key)).Proceed?
    ensures Minds(s, a, t.(pc := Judge(w, a, t, Lookup(s, t.key)).pc))
  {
    hide Sounds;
  }

  lemma HeadQueue(w: World, s: State, a: Sid, saved: set<Sid>)
    requires Inv(w, s) && Queue(s) && At(s, a) && s.attempts[a].pc.Classified? && NoBad(s.attempts[a].pc)
    ensures Queue(DoHead(w, s, a, saved))
  {
    assert Minds(s, a, s.attempts[a]);
    hide Inv, Queue, Judge, Renamed, SetPc, End, Minds;
    match Judge(w, a, s.attempts[a], Lookup(s, s.attempts[a].key))
    case Proceed(pc) =>
      JudgeMinds(w, s, a, s.attempts[a]);
      PcQueue(s, a, pc);
    case Conflict => RenamedQueue(w, s, a, saved);
    case Inconsistent => EndQueue(s, a, false);
  }

  lemma ClassifyMinds(s: State, a: Sid, t: Attempt)
    requires Minds(s, a, t) && t.pc.Claimed?
    ensures Minds(s, a, t.(pc := Classification(s, t.group)))
  {
  }

  lemma FailMemberQueue(w: World, s: State, a: Sid, saved: set<Sid>)
    requires Inv(w, s) && Queue(s) && At(s, a) && HasBad(s.attempts[a].pc)
    ensures Queue(DoFailMember(s, a, saved))
  {
    hide Inv, MemFine, CardsFine, Save, Sounds, SetPc, Marked, Fine;
    var t := s.attempts[a];
    var x := t.pc.bad[0];
    assert Minds(s, a, t) && x in Lost(t.pc);
    NobodyRecords(w, s, a);
    FailQueue(s, x);
    var failed := Marked(s, x, Failed);
    SaveQueue(failed, saved * {x});
    assert Minds(failed, a, t);
    FewerLost(failed, a, t);
    SaveMinds(failed, saved * {x}, a, t.(pc := t.pc.(bad := t.pc.bad[1..])));
    PcQueue(Save(failed, saved * {x}), a, t.pc.(bad := t.pc.bad[1..]));
  }

  lemma FailQueue(s: State, x: Sid)
    requires Queue(s) && x in s.mem && s.mem[x].phase != Recording && !Sounds(s, x)
    ensures Queue(Marked(s, x, Failed))
  {
    hide CardsFine, AttemptsMind, Sounds;
    MarkQueue(s, x, s.mem[x].(phase := Failed));
  }

  lemma FewerLost(s: State, a: Sid, t: Attempt)
    requires Minds(s, a, t) && HasBad(t.pc)
    ensures Minds(s, a, t.(pc := t.pc.(bad := t.pc.bad[1..])))
  {
    hide Sounds;
  }

  lemma SaveMinds(s: State, saved: set<Sid>, a: Sid, t: Attempt)
    requires Minds(s, a, t)
    ensures Minds(Save(s, saved), a, t)
  {
    hide Planned, Lost, Open;
  }

  lemma MeasureMinds(s: State, a: Sid, t: Attempt)
    requires Minds(s, a, t) && t.pc.Decided? && NoBad(t.pc) && Within(t.pc.toAdd, t.group)
    ensures var pc := t.pc;
            var sound := set x | x in pc.toAdd && x in s.files && s.files[x].frames != [];
            Minds(s, a, t.(pc := Measured(pc.remote, Pick(pc.toAdd, sound), pc.present,
                                          Pick(pc.toAdd, Elements(pc.toAdd) - sound))))
  {
  }

  lemma RepairQueue(s: State, these: set<Sid>, left: map<Sid, File>)
    requires Queue(s) && Trims(s, left)
    ensures Queue(Repaired(s, these, left))
  {
    hide Queue;
    FilesQueue(s, Repaired(s, these, left));
  }

  lemma MeasureQueue(w: World, s: State, a: Sid, left: map<Sid, File>)
    requires Inv(w, s) && Queue(s) && CanMeasure(s, a, left)
    ensures Queue(DoMeasure(s, a, left))
  {
    hide Inv, Repaired, SetPc, MemFine, CardsFine, Minds, Members;
    var t := s.attempts[a];
    Running(w, s, a);
    PlanWithin(w, s, a, t, t.pc.remote, t.pc.toAdd, t.pc.present);
    var trimmed := Repaired(s, Elements(t.pc.toAdd), left);
    RepairQueue(s, Elements(t.pc.toAdd), left);
    assert Minds(trimmed, a, trimmed.attempts[a]);
    MeasureMinds(trimmed, a, t);
    var sound := set x | x in t.pc.toAdd && x in trimmed.files && trimmed.files[x].frames != [];
    PcQueue(trimmed, a,
            Measured(t.pc.remote, Pick(t.pc.toAdd, sound), t.pc.present,
                     Pick(t.pc.toAdd, Elements(t.pc.toAdd) - sound)));
  }

  /** An attempt that leaves nobody out. */
  predicate SamePlan(t: Attempt, pc: Pc) {
    && Open(t.pc) && Open(pc) && Lost(pc) == []
    && forall x :: x in Planned(t) ==> x in Planned(t.(pc := pc))
  }

  lemma SamePlanQueue(s: State, a: Sid, pc: Pc)
    requires Queue(s) && a in s.attempts && SamePlan(s.attempts[a], pc)
    ensures Queue(SetPc(s, a, pc))
  {
    assert Minds(s, a, s.attempts[a]);
    assert Minds(s, a, s.attempts[a].(pc := pc)) by {
      hide Sounds, Planned, Open;
    }
    hide Queue;
    PcQueue(s, a, pc);
  }

  lemma ConvergeQueue(s: State, a: Sid)
    requires Queue(s) && CanConverge(s, a)
    ensures Queue(DoConverge(s, a))
  {
    var t := s.attempts[a];
    assert Minds(s, a, t);
    hide Queue, SetPc, End;
    if t.pc.present == [] {
      EndQueue(s, a, true);
    } else {
      SamePlanQueue(s, a, Stored(t.pc.present, t.key));
    }
  }

  lemma PlanIs(w: World, s: State, a: Sid)
    requires Inv(w, s) && a in s.attempts && s.attempts[a].pc.Measured?
    ensures s.attempts[a].pc.remote.None? ==> s.attempts[a].pc.present == []
  {
    hide Inv, Members, Snapshot, Fits, NoDup, ByStart;
    Running(w, s, a);
  }

  lemma GiveUpQueue(w: World, s: State, a: Sid, saved: set<Sid>)
    requires Inv(w, s) && Queue(s) && CanGiveUp(s, a)
    ensures Queue(DoGiveUp(s, a, saved))
  {
    hide Inv, Queue, SetPc, Renamed;
    PlanIs(w, s, a);
    if s.attempts[a].pc.remote.Some? {
      RenamedQueue(w, s, a, saved);
    } else {
      SamePlanQueue(s, a, GivenUp(s.attempts[a].pc.toAdd));
    }
  }

  lemma BuildQueue(s: State, a: Sid)
    requires Queue(s) && CanBuild(s, a)
    ensures Queue(DoBuild(s, a))
  {
    hide Queue, SetPc, Parts;
    var t := s.attempts[a];
    var stored := if t.pc.remote.Some? then s.bucket[t.key].parts else [];
    SamePlanQueue(s, a, Built(t.pc.remote, t.pc.toAdd, t.pc.present, stored + Parts(s.files, t.pc.toAdd)));
  }

  lemma PutQueue(w: World, s: State, a: Sid, replyLost: bool)
    requires Queue(s) && CanPut(s, a)
    ensures Queue(DoPut(w, s, a, replyLost))
  {
    hide Queue, SetPc, Sent, End, Accepts, AlreadyThere;
    var t, r := s.attempts[a], Sent(w, s.attempts[a]);
    var put := PutAt(s, r);
    FilesQueue(s, put);
    EndQueue(put, a, false);
    EndQueue(s, a, false);
    SamePlanQueue(put, a, Stored(StoredBy(t), r.key));
    SamePlanQueue(s, a, Stored(StoredBy(t), r.key));
    if t.pc.Built? {
      SamePlanQueue(put, a, Verifying(s.nextEtag, t.pc.toAdd, t.pc.present));
    }
    if t.pc.RawBuilt? {
      OnlyMergesVerify(w, t);
    }
  }

  lemma OnlyMergesVerify(w: World, t: Attempt)
    requires t.pc.RawBuilt? && t.pc.toAdd != []
    ensures Sent(w, t).ifMatch.None?
  {
  }

  lemma PutLateQueue(w: World, s: State, a: Sid)
    requires Queue(s) && CanPut(s, a)
    ensures Queue(DoPutLate(w, s, a))
  {
    hide Queue, Sent, End;
    var sent := s.(late := s.late + {Sent(w, s.attempts[a])});
    FilesQueue(s, sent);
    EndQueue(sent, a, false);
  }

  lemma VerifyQueue(s: State, a: Sid)
    requires Queue(s) && At(s, a) && s.attempts[a].pc.Verifying?
    ensures Queue(DoVerify(s, a))
  {
    hide Queue, SetPc, End;
    var t := s.attempts[a];
    EndQueue(s, a, false);
    SamePlanQueue(s, a, Stored(t.pc.toAdd + t.pc.present, t.key));
  }

  lemma HeadRawQueue(w: World, s: State, a: Sid, saved: set<Sid>)
    requires Inv(w, s) && Queue(s) && CanHeadRaw(s, a)
    ensures Queue(DoHeadRaw(w, s, a, saved))
  {
    hide Inv, Queue, SetPc, Renamed, FallbackKey, Parts;
    var t := s.attempts[a];
    RenamedQueue(w, s, a, saved);
    SamePlanQueue(s, a, RawBuilt(t.pc.toAdd, Parts(s.files, t.pc.toAdd)));
    SamePlanQueue(s, a, Stored(t.pc.toAdd, FallbackKey(t.key)));
  }

  /** An attempt that completes goes from sidecar to sidecar. */
  lemma OnwardQueue(s: State, a: Sid, pc: Pc)
    requires Queue(s) && a in s.attempts && !Open(s.attempts[a].pc) && !Open(pc)
    ensures Queue(SetPc(s, a, pc))
  {
    assert Minds(s, a, s.attempts[a]);
    assert Minds(s, a, s.attempts[a].(pc := pc)) by {
      hide Sounds;
    }
    hide Queue;
    PcQueue(s, a, pc);
  }

  lemma CardQueue(s: State, x: Sid, key: Key)
    requires Queue(s) && (x in s.mem ==> s.mem[x].phase != Recording)
    ensures Queue(WithCard(s, x, key))
  {
    var s' := WithCard(s, x, key);
    assert AttemptsMind(s') by {
      hide Planned, Lost, Open, Fine, CardFine;
    }
  }

  lemma WriteCardQueue(w: World, s: State, a: Sid, ok: bool)
    requires Inv(w, s) && Queue(s) && At(s, a) && s.attempts[a].pc.Writing?
    ensures Queue(DoWriteCard(s, a, ok))
  {
    var pc := s.attempts[a].pc;
    assert Minds(s, a, s.attempts[a]);
    WritingWithin(w, s, a);
    hide Inv, Queue, SetPc, End, WithCard;
    if pc.todo == [] {
      EndQueue(s, a, !pc.failed);
    } else if !ok {
      OnwardQueue(s, a, Writing(pc.todo[1..], pc.target, true));
    } else {
      CardQueue(s, pc.todo[0], pc.target);
      SameAttempts(s, pc.todo[0], pc.target);
      OnwardQueue(WithCard(s, pc.todo[0], pc.target), a, Removing(pc.todo, pc.target, pc.failed));
    }
  }

  lemma SameAttempts(s: State, x: Sid, key: Key)
    ensures WithCard(s, x, key).attempts == s.attempts
  {
  }

  lemma WritingWithin(w: World, s: State, a: Sid)
    requires Inv(w, s) && At(s, a) && s.attempts[a].pc.Writing?
    ensures forall x :: x in s.attempts[a].pc.todo ==> x in s.mem && s.mem[x].phase != Recording
  {
    hide Inv, Members, AllAt, Target;
    Running(w, s, a);
    NobodyRecords(w, s, a);
  }

  lemma RemoveQueue(s: State, a: Sid, ok: bool)
    requires Queue(s) && At(s, a) && s.attempts[a].pc.Removing? && s.attempts[a].pc.todo != []
    ensures Queue(DoRemove(s, a, ok))
  {
    hide Queue, SetPc;
    var pc := s.attempts[a].pc;
    var left := if ok then s.(files := s.files - {pc.todo[0]}) else s;
    FilesQueue(s, left);
    OnwardQueue(left, a, Writing(pc.todo[1..], pc.target, pc.failed));
  }

  lemma RetryQueue(s: State, x: Sid, mark: bool, saved: set<Sid>)
    requires Queue(s) && x in s.mem && s.mem[x].loop == Failing && s.mem[x].phase != Recording
    ensures Queue(DoRetry(s, x, mark, saved))
  {
    hide AttemptsMind, CardsFine, Save, Sounds, Fine;
    var m := s.mem[x].(loop := Waiting);
    if mark {
      WaitsQueue(s, x, m.(phase := Finalized));
      SaveQueue(s.(mem := s.mem[x := m.(phase := Finalized)]), saved * {x});
      assert Marked(Looping(s, x, Waiting), x, Finalized) == s.(mem := s.mem[x := m.(phase := Finalized)]);
    } else {
      WaitsQueue(s, x, m);
    }
  }

  lemma WaitsQueue(s: State, x: Sid, m: Mem)
    requires Queue(s) && x in s.mem && s.mem[x].phase != Recording && x !in s.attempts
    requires m.loop == Waiting && m.stored == s.mem[x].stored && (m.phase == s.mem[x].phase || m.phase == Finalized)
    ensures Queue(s.(mem := s.mem[x := m]))
  {
    forall b | b in s.attempts && Open(s.attempts[b].pc) && x in s.attempts[b].group && Sounds(s, x)
      ensures Pending(m.phase)
    {
      assert Minds(s, b, s.attempts[b]);
    }
    hide CardsFine, AttemptsMind, Sounds;
    MarkQueue(s, x, m);
  }

  lemma QuitQueue(s: State, x: Sid)
    requires Queue(s) && CanQuit(s, x)
    ensures Queue(Looping(s, x, NoLoop))
  {
    forall b | b in s.attempts && Open(s.attempts[b].pc) && x in s.attempts[b].group && Sounds(s, x)
      ensures Pending(s.mem[x].phase)
    {
      assert Minds(s, b, s.attempts[b]);
    }
    hide CardsFine, AttemptsMind, Sounds;
    MarkQueue(s, x, s.mem[x].(loop := NoLoop));
  }

  lemma RetainQueue(s: State, x: Sid)
    requires Queue(s) && CanRetain(s, x)
    ensures Queue(DoRetain(s, x))
  {
    var s' := DoRetain(s, x);
    forall b | b in s'.attempts
      ensures Minds(s', b, s'.attempts[b])
    {
      assert Minds(s, b, s.attempts[b]);
    }
  }

  lemma CrashQueue(w: World, s: State, rec: Rec)
    requires Inv(w, s) && Queue(s)
    ensures Queue(DoCrash(w, s, rec))
  {
    hide Inv;
    var s' := DoCrash(w, s, rec);
    forall b | b in s'.attempts
      ensures Minds(s', b, s'.attempts[b])
    {
      assert Minds(s, b, s.attempts[b]);
      OwnGroup(w, s, b);
    }
  }

  lemma OwnGroup(w: World, s: State, b: Sid)
    requires Inv(w, s) && b in s.attempts
    ensures forall g :: g in s.attempts[b].group ==> g in s.mem && w.owner(g) == w.owner(b)
  {
    hide Inv, PcOk, Settled;
    Running(w, s, b);
  }

  /** How a session comes back: whatever was not done waits for its upload. */
  lemma RecoveredIsFine(s: State, x: Sid, resumed: set<Sid>, moved: map<Sid, Name>)
    requires x in s.cards && CardFine(s.cards[x], Sounds(s, x))
    ensures var m := Recovered(s, x, resumed, moved);
            Fine(m, Sounds(s, x)) && m.loop != Attempting && (m.phase == Recording ==> s.cards[x].phase == Recording)
  {
  }

  lemma DownIsIdle(w: World, s: State, x: Sid)
    requires Inv(w, s) && w.owner(x) in s.down
    ensures x !in s.mem && x !in s.attempts && forall b :: b in s.attempts ==> x !in s.attempts[b].group
  {
    hide Inv;
    InvParts(w, s);
    hide BucketOk, LateOk, FilesOk, AudioKept, Known, AttemptOk;
    assert x !in s.mem;
    forall b | b in s.attempts
      ensures x !in s.attempts[b].group && b != x
    {
      OwnGroup(w, s, b);
      GroupSettled(w, s, b);
    }
  }

  lemma RecoverQueue(w: World, s: State, rec: Rec, resumed: set<Sid>, moved: map<Sid, Name>, saved: set<Sid>)
    requires Inv(w, s) && Queue(s) && rec in s.down
    ensures Queue(DoRecover(w, s, rec, resumed, moved, saved))
  {
    hide Inv, Recovered, Fine, CardFine, Save, Sounds, Minds;
    var back := set x | x in s.cards && w.owner(x) == rec;
    var s1 := s.(mem := TakenIn(s, back, resumed, moved), down := s.down - {rec});
    forall x | x in back
      ensures var m := Recovered(s, x, resumed, moved);
              Fine(m, Sounds(s, x)) && m.loop != Attempting && (m.phase == Recording ==> s.cards[x].phase == Recording)
      ensures x !in s.mem && x !in s.attempts && forall b :: b in s.attempts ==> x !in s.attempts[b].group
    {
      RecoveredIsFine(s, x, resumed, moved);
      DownIsIdle(w, s, x);
    }
    BackQueue(w, s, back, s1);
    var settled := set x | x in back && s.cards[x].phase == Recording && s1.mem[x].phase != Recording;
    SaveQueue(s1, saved * back + settled);
  }

  lemma BackQueue(w: World, s: State, back: set<Sid>, s1: State)
    requires Queue(s) && back <= s.cards.Keys && s1 == s.(mem := s1.mem, down := s1.down)
    requires s1.mem.Keys == s.mem.Keys + back
    requires forall x :: x in s.mem ==> s1.mem[x] == s.mem[x]
    requires forall x :: x in back ==>
               && Fine(s1.mem[x], Sounds(s, x)) && s1.mem[x].loop != Attempting && x !in s.mem && x !in s.attempts
               && (s1.mem[x].phase == Recording ==> s.cards[x].phase == Recording)
    ensures Queue(s1)
  {
    hide Fine, CardFine, Minds;
    forall b | b in s1.attempts
      ensures Minds(s1, b, s1.attempts[b])
    {
      MindsMore(s, s1, b, s.attempts[b]);
    }
  }

  lemma MindsMore(s: State, s1: State, b: Sid, t: Attempt)
    requires Minds(s, b, t) && s1.files == s.files && s.mem.Keys <= s1.mem.Keys
    requires forall x :: x in s.mem ==> s1.mem[x] == s.mem[x]
    ensures Minds(s1, b, t)
  {
    hide Planned, Lost, Open;
  }

  lemma RepairedQueue(w: World, s: State, rec: Rec, resumed: set<Sid>, moved: map<Sid, Name>, saved: set<Sid>,
                      left: map<Sid, File>)
    requires Inv(w, s) && Queue(s) && rec in s.down && Trims(s, left)
    ensures Queue(Repaired(DoRecover(w, s, rec, resumed, moved, saved), Resumed(w, s, rec, resumed), left))
  {
    hide Inv, Queue, DoRecover, Resumed, Repaired, Trims;
    RecoverQueue(w, s, rec, resumed, moved, saved);
    var back := DoRecover(w, s, rec, resumed, moved, saved);
    SameTrims(s, back, left);
    RepairQueue(back, Resumed(w, s, rec, resumed), left);
  }

  lemma RecordingStepQueues(w: World, s: State, step: Step)
    requires Inv(w, s) && Queue(s) && Enabled(w, s, step)
    requires step.Start? || step.Capture? || step.CaptureJunk? || step.TrimTail? || step.Finalize?
    ensures Queue(Do(w, s, step))
  {
    hide Inv, Queue, CanStart, DoStart, DoFinalize, Repaired, Trims, Sounds;
    match step
    case Start(sid, key, from) => StartQueue(w, s, sid, key, from);
    case Capture(sid, frame) =>
      OthersAsLoud(s, sid);
      CaptureQueue(w, s, sid, DoCapture(s, sid, frame));
    case CaptureJunk(sid) =>
      OthersAsLoud(s, sid);
      CaptureQueue(w, s, sid, DoJunk(s, sid));
    case TrimTail(sid, left) => RepairQueue(s, {sid}, left);
    case Finalize(sid) => FinalizeQueue(w, s, sid);
  }

  lemma OthersAsLoud(s: State, x: Sid)
    requires IsRecording(s, x)
    ensures forall frame, y :: y != x ==> (Sounds(DoCapture(s, x, frame), y) <==> Sounds(s, y))
    ensures forall y :: y != x ==> (Sounds(DoJunk(s, x), y) <==> Sounds(s, y))
  {
  }

  lemma SessionStepQueues(w: World, s: State, step: Step)
    requires Inv(w, s) && Queue(s) && Enabled(w, s, step)
    requires step.Retry? || step.Quit? || step.Retain? || step.Crash? || step.Recover? || step.Land? || step.ForeignPut?
    ensures Queue(Do(w, s, step))
  {
    hide Inv, Queue, CanRetain, DoRetry, DoRetain, DoCrash, DoRecover, PutAt, Repaired, Resumed, Looping, CanQuit,
      Trims,
      DoLand;
    match step
    case Retry(sid, mark, saved) =>
      FailingIsOver(w, s, sid);
      RetryQueue(s, sid, mark, saved);
    case Quit(sid) => QuitQueue(s, sid);
    case Retain(sid) => RetainQueue(s, sid);
    case Crash(rec) => CrashQueue(w, s, rec);
    case Recover(rec, resumed, moved, saved, left) =>
      RepairedQueue(w, s, rec, resumed, moved, saved, left);
    case Land(r) => FilesQueue(s, DoLand(s, r));
    case ForeignPut(key, meta, parts) => FilesQueue(s, Do(w, s, step));
  }

  lemma FailingIsOver(w: World, s: State, x: Sid)
    requires Inv(w, s) && x in s.mem && s.mem[x].loop == Failing
    ensures s.mem[x].phase != Recording
  {
    hide Inv;
    InvParts(w, s);
    hide BucketOk, LateOk, FilesOk, AudioKept, Locks, AttemptOk;
  }

  lemma AttemptStepQueues(w: World, s: State, step: Step)
    requires Inv(w, s) && Queue(s) && Enabled(w, s, step)
    requires step.Claim? || step.Classify? || step.Head? || step.FailMember? || step.Measure? || step.Converge?
             || step.Build? || step.GiveUpBuild? || step.Escape? || step.Abort?
    ensures Queue(Do(w, s, step))
  {
    hide Inv, Queue, CanClaim, CanMeasure, CanConverge, CanBuild, CanGiveUp, DoClaim, DoHead, DoFailMember, DoMeasure,
      DoConverge, DoBuild, DoGiveUp, Renamed, SetPc, End;
    match step
    case Claim(a, group, saved) => ClaimQueue(w, s, a, group, saved);
    case Classify(a) => ClassifyQueue(s, a);
    case Head(a, saved) => HeadQueue(w, s, a, saved);
    case FailMember(a, saved) => FailMemberQueue(w, s, a, saved);
    case Measure(a, left) => MeasureQueue(w, s, a, left);
    case Converge(a) => ConvergeQueue(s, a);
    case Build(a) => BuildQueue(s, a);
    case GiveUpBuild(a, saved) => GiveUpQueue(w, s, a, saved);
    case Escape(a, saved) => RenamedQueue(w, s, a, saved);
    case Abort(a) => EndQueue(s, a, false);
  }

  lemma ClassifyQueue(s: State, a: Sid)
    requires Queue(s) && At(s, a) && s.attempts[a].pc.Claimed?
    ensures Queue(SetPc(s, a, Classification(s, s.attempts[a].group)))
  {
    assert Minds(s, a, s.attempts[a]);
    hide Queue, Minds, SetPc, Classification;
    ClassifyMinds(s, a, s.attempts[a]);
    PcQueue(s, a, Classification(s, s.attempts[a].group));
  }

  lemma StoringStepQueues(w: World, s: State, step: Step)
    requires Inv(w, s) && Queue(s) && Enabled(w, s, step)
    requires step.HeadRaw? || step.Put? || step.PutLate? || step.Verify? || step.Complete? || step.WriteCard?
             || step.Remove?
    ensures Queue(Do(w, s, step))
  {
    hide Inv, Queue, CanHeadRaw, CanPut, DoPut, DoPutLate, DoVerify, DoHeadRaw, DoComplete, DoWriteCard, DoRemove;
    match step
    case HeadRaw(a, saved) => HeadRawQueue(w, s, a, saved);
    case Put(a, replyLost) => PutQueue(w, s, a, replyLost);
    case PutLate(a) => PutLateQueue(w, s, a);
    case Verify(a) => VerifyQueue(s, a);
    case Complete(a) => CompleteQueue(w, s, a);
    case WriteCard(a, ok) => WriteCardQueue(w, s, a, ok);
    case Remove(a, ok) => RemoveQueue(s, a, ok);
  }

  lemma StepQueues(w: World, s: State, step: Step)
    requires Inv(w, s) && Queue(s) && Enabled(w, s, step)
    ensures Queue(Do(w, s, step))
  {
    hide Inv, Queue, Enabled, Do;
    if step.HeadRaw? || step.Put? || step.PutLate? || step.Verify? || step.Complete? || step.WriteCard?
       || step.Remove? {
      StoringStepQueues(w, s, step);
    } else if step.Claim? || step.Classify? || step.Head? || step.FailMember? || step.Measure? || step.Converge?
              || step.Build? || step.GiveUpBuild? || step.Escape? || step.Abort? {
      AttemptStepQueues(w, s, step);
    } else if step.Start? || step.Capture? || step.CaptureJunk? || step.TrimTail? || step.Finalize? {
      RecordingStepQueues(w, s, step);
    } else {
      SessionStepQueues(w, s, step);
    }
  }

  lemma {:induction false} AlwaysQueued(w: World, steps: seq<Step>)
    ensures Queue(After(w, steps))
    decreases |steps|
  {
    hide Inv, Enabled, Do, Queue;
    if steps == [] {
      NobodyYet();
    } else {
      var n := |steps| - 1;
      AlwaysQueued(w, steps[..n]);
      Always(w, steps[..n]);
      if Enabled(w, After(w, steps[..n]), steps[n]) {
        StepQueues(w, After(w, steps[..n]), steps[n]);
      }
    }
  }

  lemma NobodyYet()
    ensures Queue(Init())
  {
  }

  // ---------------------------------------------------------------------------------------------------------------
  // Nothing is given up
  // ---------------------------------------------------------------------------------------------------------------

  /** After any run, a session whose capture has a frame is being recorded, or has an upload loop that waits, works or
      will try again, or is stored in the object under its key. It is never parked as failed, in memory or in its
      sidecar. */
  lemma NothingIsGivenUp(w: World, steps: seq<Step>, x: Sid)
    requires Sounds(After(w, steps), x)
    ensures var s := After(w, steps);
            && (x in s.mem ==>
                  || s.mem[x].phase == Recording
                  || (Pending(s.mem[x].phase) && s.mem[x].loop != NoLoop)
                  || (s.mem[x].phase == Uploaded && HeldAt(s.bucket, s.mem[x].key, x)))
            && (x in s.cards ==> s.cards[x].phase != Failed)
  {
    hide After, Sounds;
    AlwaysQueued(w, steps);
    UploadedMeansHeld(w, steps, x);
  }

  /** How a recorder comes back, in any state that can be reached: exactly the sessions that were not recording, or are
      not resumed, and are not done wait for their upload; the others are as their sidecars say. Names, counters and
      what is known to be stored are the sidecars', but for keys that are migrated. */
  lemma RecoveryQueues(w: World, s: State, rec: Rec, resumed: set<Sid>, moved: map<Sid, Name>, saved: set<Sid>,
                       left: map<Sid, File>, x: Sid)
    requires Inv(w, s) && Enabled(w, s, Recover(rec, resumed, moved, saved, left)) && x in s.cards && w.owner(x) == rec
    ensures var s' := Then(w, s, Recover(rec, resumed, moved, saved, left));
            && x in s'.mem && rec !in s'.down && s'.attempts == s.attempts && s'.bucket == s.bucket
            && var c, m := s.cards[x], s'.mem[x];
               && (m.loop == Waiting <==>
                     || Pending(c.phase) || (c.phase == Uploaded && x in s.files)
                     || (c.phase == Recording && !(x in resumed && x in s.files)))
               && (m.loop == Waiting ==> m.phase == Finalized)
               && (m.loop != Waiting ==> m.loop == NoLoop && m.phase == c.phase)
               && (m.stored <==> c.stored && m.key == c.key)
               && Name(m.key, m.renames) ==
                  if x in moved && c.phase != Uploaded && c.phase != Failed then moved[x] else Name(c.key, c.renames)
  {
    hide Inv, Save, Trims, Repaired, Resumed, Migrates;
    DownIsIdle(w, s, x);
  }
}
