/** The steps of the upload protocol that change sessions, sidecars and captures keep the invariant too. */
module UploadSessions {
  import opened Bytes
  import opened ObjectKeys
  import opened UploadProtocol
  import opened UploadInvariant
  import opened UploadSteps

  /** Groups of attempts whose locks are on their groups' keys are disjoint: no session is handled twice at a time. */
  lemma GroupsAreDisjoint(w: World, s: State, a: Sid, b: Sid)
    requires Inv(w, s) && a in s.attempts && b in s.attempts && a != b
    requires Locked(s.attempts[a]) && Locked(s.attempts[b])
    ensures forall x :: x in s.attempts[a].group ==> x !in s.attempts[b].group
  {
    hide BucketOk, LateOk, Known, FilesOk, AudioKept, PcOk, Settled;
    assert AttemptOk(w, s, a, s.attempts[a]) && AttemptOk(w, s, b, s.attempts[b]);
  }

  lemma SaveFacts(s: State, saved: set<Sid>)
    requires Known(s)
    ensures Known(Save(s, saved)) && MemoryKept(s, Save(s, saved)) && Carries(s, Save(s, saved))
  {
    hide HeldAt;
  }

  lemma OtherMembers(w: World, s: State, s': State, a: Sid, b: Sid)
    requires Inv(w, s) && a in s.attempts && Open(s.attempts[a].pc) && b in s.attempts && b != a
    requires forall x :: x in s.mem ==> x in s'.mem && (x in s.attempts[a].group || s'.mem[x].key == s.mem[x].key)
    requires forall x :: Settled(s, x) ==> Settled(s', x)
    ensures Members(w, s', b, s.attempts[b])
  {
    hide Settled, PcOk, BucketOk, LateOk, Known, FilesOk, AudioKept, Locks;
    assert AttemptOk(w, s, b, s.attempts[b]);
    if Locked(s.attempts[b]) {
      GroupsAreDisjoint(w, s, a, b);
    }
  }

  /** A step that changes only a's group in memory, whatever it does to sidecars, and perhaps ends a's attempt. */
  lemma GroupStep(w: World, s: State, s': State, a: Sid)
    requires Inv(w, s) && a in s.attempts && Open(s.attempts[a].pc)
    requires s' == s.(mem := s'.mem, cards := s'.cards, attempts := s'.attempts)
    requires Carries(s, s') && Known(s')
    requires s'.mem.Keys == s.mem.Keys
    requires forall x :: x in s.mem ==> x in s.attempts[a].group || s'.mem[x].key == s.mem[x].key
    requires forall b :: b in s'.attempts && b != a ==> b in s.attempts && s'.attempts[b] == s.attempts[b]
    requires a in s'.attempts ==> s'.attempts[a].key == s.attempts[a].key && AttemptOk(w, s', a, s'.attempts[a])
    ensures Inv(w, s')
  {
    hide AttemptOk, Members, BucketOk, LateOk, Known, FilesOk, AudioKept;
    assert Locks(w, s');
    assert forall x :: Settled(s, x) ==> Settled(s', x) by {
      hide Settled, Extends, Locks, Inv;
    }
    hide Inv, Carries, Settled;
    forall b | b in s'.attempts && b != a
      ensures Members(w, s', b, s'.attempts[b])
    {
      OtherMembers(w, s, s', a, b);
    }
    Remembered(w, s, s');
  }

  // ---------------------------------------------------------------------------------------------------------------
  // Renaming
  // ---------------------------------------------------------------------------------------------------------------

  lemma MovedFacts(s: State, group: seq<Sid>, key: Key, n: nat)
    requires Known(s) && n < MAX_RENAMES && forall g :: g in group ==> Settled(s, g)
    ensures var s' := Moved(s, group, key, n);
            && Known(s') && Carries(s, s') && s' == s.(mem := s'.mem) && s'.mem.Keys == s.mem.Keys
            && forall x :: x in s.mem ==> if x in group then s'.mem[x].phase == Finalized else s'.mem[x] == s.mem[x]
  {
    hide HeldAt;
  }

  lemma EndKeepsKeys(s: State, a: Sid)
    ensures var s' := End(s, a, false);
            && s'.mem.Keys == s.mem.Keys && s'.attempts == s.attempts - {a}
            && forall x :: x in s.mem ==> s'.mem[x].key == s.mem[x].key && s'.mem[x].phase == s.mem[x].phase
  {
  }

  lemma MoveKeeps(w: World, s: State, a: Sid, key: Key, n: nat, saved: set<Sid>)
    requires Inv(w, s) && At(s, a) && Open(s.attempts[a].pc) && n < MAX_RENAMES
    ensures var s' := End(Save(Moved(s, s.attempts[a].group, key, n), saved), a, false); Inv(w, s') && Carries(s, s')
  {
    hide Inv, BucketOk, LateOk, Locks, FilesOk, AudioKept, Settled, Carries, Known, MemoryKept, Moved, Save, AttemptOk,
      End;
    var group := s.attempts[a].group;
    var moved := Moved(s, group, key, n);
    var written := Save(moved, saved);
    InvParts(w, s);
    GroupSettled(w, s, a);
    MovedFacts(s, group, key, n);
    SaveFacts(moved, saved);
    assert written == s.(mem := moved.mem, cards := written.cards);
    EndFacts(written, a, false);
    CarriesOn(s, moved, written);
    CarriesOn(s, written, End(written, a, false));
    EndKeepsKeys(written, a);
    GroupStep(w, s, End(written, a, false), a);
  }

  lemma RenamedKeeps(w: World, s: State, a: Sid, saved: set<Sid>)
    requires Inv(w, s) && At(s, a) && Open(s.attempts[a].pc)
    ensures Inv(w, Renamed(s, a, saved)) && Carries(s, Renamed(s, a, saved))
  {
    hide Inv, Carries, End, Save, Moved, RenamedKey, MaxRenames, Elements;
    var t := s.attempts[a];
    var n := MaxRenames(s, t.group);
    if n >= MAX_RENAMES {
      EndStep(w, s, a, false);
    } else {
      MoveKeeps(w, s, a, RenamedKey(t.key, n), n, saved * Elements(t.group));
    }
  }

  lemma HeadKeeps(w: World, s: State, a: Sid, saved: set<Sid>)
    requires Inv(w, s) && At(s, a) && s.attempts[a].pc.Classified?
    ensures Inv(w, DoHead(w, s, a, saved)) && Carries(s, DoHead(w, s, a, saved))
  {
    var t := s.attempts[a];
    Running(w, s, a);
    assert BucketOk(w, s);
    hide Inv, Carries, Judge, Renamed, SetPc, End, PcOk, Members, BucketOk, LateOk;
    match Judge(w, a, t, Lookup(s, t.key))
    case Proceed(pc) =>
      JudgePlans(w, s, a, t);
      PcStep(w, s, a, pc);
    case Conflict => RenamedKeeps(w, s, a, saved);
    case Inconsistent => EndStep(w, s, a, false);
  }

  lemma GiveUpKeeps(w: World, s: State, a: Sid, saved: set<Sid>)
    requires Inv(w, s) && CanGiveUp(s, a)
    ensures Inv(w, DoGiveUp(s, a, saved)) && Carries(s, DoGiveUp(s, a, saved))
  {
    hide Inv, Carries, Renamed, SetPc, Members, PcOk;
    var t := s.attempts[a];
    Running(w, s, a);
    if t.pc.remote.Some? {
      RenamedKeeps(w, s, a, saved);
    } else {
      GivenUpOk(w, s, a, t);
      PcStep(w, s, a, GivenUp(t.pc.toAdd));
    }
  }

  lemma GivenUpOk(w: World, s: State, a: Sid, t: Attempt)
    requires t.pc.Measured? && t.pc.toAdd != [] && t.pc.remote.None? && PcOk(w, s, a, t)
    ensures PcOk(w, s, a, t.(pc := GivenUp(t.pc.toAdd)))
  {
    hide NoDup, ByStart;
  }

  lemma RawBuilds(w: World, s: State, a: Sid, t: Attempt)
    requires t.pc.GivenUp? && PcOk(w, s, a, t) && FilesOk(s) && forall x :: x in t.pc.toAdd ==> x in s.files
    ensures PcOk(w, s, a, t.(pc := RawBuilt(t.pc.toAdd, Parts(s.files, t.pc.toAdd))))
  {
    CapturesAreParts(s, t.pc.toAdd);
    hide NoDup, ByStart, Within, FilesOk, PartsOk, Parts;
  }

  lemma ListedAreHeld(w: World, s: State, key: Key, l: seq<Sid>)
    requires BucketOk(w, s) && forall x :: x in l ==> ListedAt(s.bucket, key, x)
    ensures AllAt(s.bucket, key, l)
  {
    hide BucketOk, HeldAt;
    forall x | x in l
      ensures HeldAt(s.bucket, key, x)
    {
      ListedIsHeld(w, s, key, x);
    }
  }

  lemma RawBuildKeeps(w: World, s: State, a: Sid)
    requires Inv(w, s) && CanHeadRaw(s, a)
    ensures var s' := SetPc(s, a, RawBuilt(s.attempts[a].pc.toAdd, Parts(s.files, s.attempts[a].pc.toAdd)));
            Inv(w, s') && Carries(s, s')
  {
    hide Inv, Carries, SetPc, Members, PcOk, BucketOk, LateOk, FilesOk, AudioKept, Known, Locks, Parts;
    var t := s.attempts[a];
    InvParts(w, s);
    Running(w, s, a);
    RawBuilds(w, s, a, t);
    PcStep(w, s, a, RawBuilt(t.pc.toAdd, Parts(s.files, t.pc.toAdd)));
  }

  lemma RawThereKeeps(w: World, s: State, a: Sid)
    requires Inv(w, s) && At(s, a) && s.attempts[a].pc.GivenUp?
    requires forall x :: x in s.attempts[a].pc.toAdd ==> ListedAt(s.bucket, FallbackKey(s.attempts[a].key), x)
    ensures var t := s.attempts[a];
            var s' := SetPc(s, a, Stored(t.pc.toAdd, FallbackKey(t.key))); Inv(w, s') && Carries(s, s')
  {
    hide Inv, Carries, SetPc, Members, PcOk, BucketOk, LateOk, FilesOk, AudioKept, Known, Locks, AllAt, FallbackKey;
    var t := s.attempts[a];
    InvParts(w, s);
    Running(w, s, a);
    ListedAreHeld(w, s, FallbackKey(t.key), t.pc.toAdd);
    RawHeld(w, s, a, t, FallbackKey(t.key));
    PcStep(w, s, a, Stored(t.pc.toAdd, FallbackKey(t.key)));
  }

  lemma HeadRawKeeps(w: World, s: State, a: Sid, saved: set<Sid>)
    requires Inv(w, s) && CanHeadRaw(s, a)
    ensures Inv(w, DoHeadRaw(w, s, a, saved)) && Carries(s, DoHeadRaw(w, s, a, saved))
  {
    hide Inv, Carries, Renamed, SetPc, FallbackKey, Parts;
    var t := s.attempts[a];
    var raw := FallbackKey(t.key);
    if raw !in s.bucket {
      RawBuildKeeps(w, s, a);
    } else {
      var m := s.bucket[raw].meta;
      if m.Manifest? && m.rid == w.rid(a) && (forall x :: x in t.pc.toAdd ==> x in m.sessions) {
        RawThereKeeps(w, s, a);
      } else {
        RenamedKeeps(w, s, a, saved);
      }
    }
  }

  // ---------------------------------------------------------------------------------------------------------------
  // Completing
  // ---------------------------------------------------------------------------------------------------------------

  lemma BadIsMember(w: World, s: State, a: Sid, t: Attempt)
    requires HasBad(t.pc) && PcOk(w, s, a, t)
    ensures t.pc.bad[0] in t.group
  {
    hide Plan, NoDup, ByStart;
  }

  lemma FailMemberKeeps(w: World, s: State, a: Sid, saved: set<Sid>)
    requires Inv(w, s) && At(s, a) && HasBad(s.attempts[a].pc)
    ensures Inv(w, DoFailMember(s, a, saved)) && Carries(s, DoFailMember(s, a, saved))
  {
    hide Inv, Carries, PcOk, Members, Save, Marked, Settled, SetPc;
    var t := s.attempts[a];
    var x := t.pc.bad[0];
    Running(w, s, a);
    BadIsMember(w, s, a, t);
    NotRecording(w, s, a, x);
    MarkKeeps(w, s, x, Failed, saved * {x});
    NextBad(w, s, Save(Marked(s, x, Failed), saved * {x}), a);
  }

  lemma NextBad(w: World, s: State, failed: State, a: Sid)
    requires Inv(w, failed) && Carries(s, failed) && At(failed, a) && HasBad(failed.attempts[a].pc)
    ensures var pc := failed.attempts[a].pc;
            var s' := SetPc(failed, a, pc.(bad := pc.bad[1..])); Inv(w, s') && Carries(s, s')
  {
    hide Inv, Carries, PcOk, Members, SetPc;
    var t := failed.attempts[a];
    Running(w, failed, a);
    BadShrinks(w, failed, a, t);
    PcStep(w, failed, a, t.pc.(bad := t.pc.bad[1..]));
    CarriesOn(s, failed, SetPc(failed, a, t.pc.(bad := t.pc.bad[1..])));
  }

  lemma MarkKeeps(w: World, s: State, x: Sid, phase: Phase, saved: set<Sid>)
    requires Inv(w, s) && phase != Recording && (x in s.mem ==> s.mem[x].phase != Recording)
    ensures var s' := Save(Marked(s, x, phase), saved);
            Inv(w, s') && Carries(s, s') && s'.attempts == s.attempts && s'.mem.Keys == s.mem.Keys
  {
    var marked := Marked(s, x, phase);
    assert Known(s);
    MarkFacts(s, x, phase);
    hide Inv, Carries, Known, MemoryKept;
    SaveFacts(marked, saved);
    CarriesOn(s, marked, Save(marked, saved));
    MemoryOn(s, marked, Save(marked, saved));
    Remains(w, s, Save(marked, saved));
  }

  lemma BadShrinks(w: World, s: State, a: Sid, t: Attempt)
    requires HasBad(t.pc) && PcOk(w, s, a, t)
    ensures PcOk(w, s, a, t.(pc := t.pc.(bad := t.pc.bad[1..])))
  {
    hide NoDup, ByStart, Snapshot, Fits;
  }

  lemma MarkFacts(s: State, x: Sid, phase: Phase)
    requires Known(s) && phase != Recording && (x in s.mem ==> s.mem[x].phase != Recording)
    ensures var s' := Marked(s, x, phase); Known(s') && MemoryKept(s, s') && Carries(s, s')
  {
    hide HeldAt;
  }

  lemma MemoryOn(a: State, b: State, c: State)
    requires MemoryKept(a, b) && MemoryKept(b, c)
    ensures MemoryKept(a, c)
  {
    hide Settled;
  }

  /** Memory and sidecars changed, keys and attempts did not. */
  lemma Remains(w: World, s: State, s': State)
    requires Inv(w, s) && s' == s.(mem := s'.mem, cards := s'.cards)
    requires Carries(s, s') && Known(s') && MemoryKept(s, s') && s'.mem.Keys == s.mem.Keys
    ensures Inv(w, s')
  {
    assert Locks(w, s');
    hide Carries, Known, MemoryKept, Locks, AttemptOk;
    AttemptsStay(w, s, s');
    hide Inv;
    Remembered(w, s, s');
  }

  lemma CompletedFacts(s: State, members: seq<Sid>, key: Key)
    requires Known(s) && AllAt(s.bucket, key, members) && forall x :: x in members ==> Settled(s, x)
    ensures var s' := Completed(s, members, key);
            && Known(s') && Carries(s, s') && s' == s.(mem := s'.mem) && s'.mem.Keys == s.mem.Keys
            && (forall x :: x in s.mem ==> if x in members then s'.mem[x].key == key else s'.mem[x] == s.mem[x])
            && (forall x :: Settled(s, x) <==> Settled(s', x))
  {
    hide HeldAt;
  }

  lemma WritingOk(w: World, s: State, s': State, a: Sid, t: Attempt)
    requires t.pc.Stored? && AttemptOk(w, s, a, t)
    requires s'.bucket == s.bucket && s'.mem.Keys == s.mem.Keys && forall x :: Settled(s, x) ==> Settled(s', x)
    requires forall x :: x in s.mem ==> s'.mem[x].key == if x in t.pc.members then t.pc.target else s.mem[x].key
    ensures AttemptOk(w, s', a, t.(pc := Writing(t.pc.members, t.pc.target, false)))
  {
    var t' := t.(pc := Writing(t.pc.members, t.pc.target, false));
    WritingMembers(w, s, s', a, t);
    hide Members, Settled, HeldAt, FallbackKey;
    assert PcOk(w, s', a, t');
    hide PcOk;
  }

  lemma WritingMembers(w: World, s: State, s': State, a: Sid, t: Attempt)
    requires t.pc.Stored? && Members(w, s, a, t)
    requires s'.mem.Keys == s.mem.Keys && forall x :: Settled(s, x) ==> Settled(s', x)
    requires forall x :: x in s.mem ==> s'.mem[x].key == if x in t.pc.members then t.pc.target else s.mem[x].key
    ensures Members(w, s', a, t.(pc := Writing(t.pc.members, t.pc.target, false)))
  {
    hide Settled;
  }

  lemma StoredListed(w: World, s: State, a: Sid, t: Attempt)
    requires t.pc.Stored? && PcOk(w, s, a, t)
    ensures Within(t.pc.members, t.group) && AllAt(s.bucket, t.pc.target, t.pc.members)
  {
  }

  lemma CompletionFacts(w: World, s: State, a: Sid)
    requires Inv(w, s) && At(s, a) && s.attempts[a].pc.Stored?
    ensures var pc := s.attempts[a].pc;
            var s' := Completed(s, pc.members, pc.target);
            && Known(s') && Carries(s, s') && s' == s.(mem := s'.mem) && s'.mem.Keys == s.mem.Keys
            && Within(pc.members, s.attempts[a].group)
            && (forall x :: x in s.mem ==>
                  if x in pc.members then s'.mem[x].key == pc.target else s'.mem[x] == s.mem[x])
            && (forall x :: Settled(s, x) <==> Settled(s', x))
  {
    hide Inv, BucketOk, LateOk, Locks, FilesOk, AudioKept, Known, AllAt, Carries, Completed, PcOk, Members, MemoryKept,
      Settled;
    InvParts(w, s);
    Running(w, s, a);
    StoredListed(w, s, a, s.attempts[a]);
    GroupSettled(w, s, a);
    CompletedFacts(s, s.attempts[a].pc.members, s.attempts[a].pc.target);
  }

  lemma CompleteKeeps(w: World, s: State, a: Sid)
    requires Inv(w, s) && At(s, a) && s.attempts[a].pc.Stored?
    ensures Inv(w, DoComplete(s, a)) && Carries(s, DoComplete(s, a))
  {
    hide Inv, Known, Carries, Completed, PcOk, Members, MemoryKept, Settled;
    var t := s.attempts[a];
    var done := Completed(s, t.pc.members, t.pc.target);
    var pc' := Writing(t.pc.members, t.pc.target, false);
    var s' := SetPc(done, a, pc');
    CompletionFacts(w, s, a);
    PcFacts(w, done, a, pc');
    CarriesOn(s, done, s');
    Running(w, s, a);
    WritingOk(w, s, s', a, t);
    assert forall x :: x in s.mem ==> x in t.group || s'.mem[x].key == s.mem[x].key;
    hide AttemptOk, Within;
    GroupStep(w, s, s', a);
  }

  lemma CardFacts(s: State, x: Sid, key: Key)
    requires Known(s) && HeldAt(s.bucket, key, x) && Settled(s, x)
    ensures var s' := WithCard(s, x, key); Known(s') && MemoryKept(s, s') && Carries(s, s')
  {
    hide HeldAt;
  }

  lemma WriteCardKeeps(w: World, s: State, a: Sid, ok: bool)
    requires Inv(w, s) && At(s, a) && s.attempts[a].pc.Writing?
    ensures Inv(w, DoWriteCard(s, a, ok)) && Carries(s, DoWriteCard(s, a, ok))
  {
    var t := s.attempts[a];
    var pc := t.pc;
    hide Inv;
    if pc.todo == [] {
      EndStep(w, s, a, !pc.failed);
    } else if !ok {
      Running(w, s, a);
      PcStep(w, s, a, Writing(pc.todo[1..], pc.target, true));
    } else {
      CardWrittenKeeps(w, s, a);
    }
  }

  lemma CardWrittenKeeps(w: World, s: State, a: Sid)
    requires Inv(w, s) && At(s, a) && s.attempts[a].pc.Writing? && s.attempts[a].pc.todo != []
    ensures Inv(w, DoWriteCard(s, a, true)) && Carries(s, DoWriteCard(s, a, true))
  {
    var t := s.attempts[a];
    var pc := t.pc;
    hide Inv, Carries, WithCard;
    var x := pc.todo[0];
    var written := WithCard(s, x, pc.target);
    Running(w, s, a);
    assert x in pc.todo;
    CardKeeps(w, s, x, pc.target, a);
    hide PcOk, Members, Settled;
    WritesNoAttempt(s, x, pc.target);
    Running(w, written, a);
    RemovingOk(w, written, a, t);
    PcStep(w, written, a, Removing(pc.todo, pc.target, pc.failed));
    CarriesOn(s, written, SetPc(written, a, Removing(pc.todo, pc.target, pc.failed)));
  }

  lemma WritesNoAttempt(s: State, x: Sid, key: Key)
    ensures WithCard(s, x, key) == s.(cards := WithCard(s, x, key).cards)
  {
  }

  lemma RemovingOk(w: World, s: State, a: Sid, t: Attempt)
    requires t.pc.Writing? && PcOk(w, s, a, t)
    ensures PcOk(w, s, a, t.(pc := Removing(t.pc.todo, t.pc.target, t.pc.failed)))
  {
  }

  lemma CardKeeps(w: World, s: State, x: Sid, key: Key, a: Sid)
    requires Inv(w, s) && HeldAt(s.bucket, key, x) && a in s.attempts && x in s.attempts[a].group
    ensures var s' := WithCard(s, x, key); Inv(w, s') && Carries(s, s')
  {
    assert Known(s);
    NotRecording(w, s, a, x);
    hide Inv, Known, Carries, MemoryKept;
    CardFacts(s, x, key);
    Remains(w, s, WithCard(s, x, key));
  }

  // ---------------------------------------------------------------------------------------------------------------
  // Captures
  // ---------------------------------------------------------------------------------------------------------------

  /** A capture may go once its session's audio is stored, or when it never held a frame. */
  lemma FileGone(w: World, s: State, x: Sid)
    requires Inv(w, s) && (IsStored(s.bucket, x) || (x in s.made ==> s.made[x] == []))
    ensures var s' := s.(files := s.files - {x}); Inv(w, s') && Carries(s, s')
  {
    hide Inv, BucketOk, LateOk, FilesOk, AudioKept, Known, Locks, MemoryKept, Carries, AttemptOk, IsStored;
    InvParts(w, s);
    GoneFiles(s, x);
    GoneKnown(w, s, x);
    Lives(w, s, s.(files := s.files - {x}));
  }

  lemma GoneFiles(s: State, x: Sid)
    requires FilesOk(s) && AudioKept(s) && (IsStored(s.bucket, x) || (x in s.made ==> s.made[x] == []))
    ensures var s' := s.(files := s.files - {x}); FilesOk(s') && AudioKept(s')
  {
    hide IsStored;
  }

  lemma GoneKnown(w: World, s: State, x: Sid)
    requires Known(s) && Locks(w, s)
    ensures var s' := s.(files := s.files - {x}); Known(s') && Locks(w, s') && MemoryKept(s, s') && Carries(s, s')
  {
    hide HeldAt;
  }

  lemma TodoShrinks(w: World, s: State, a: Sid, t: Attempt)
    requires t.pc.Removing? && t.pc.todo != [] && PcOk(w, s, a, t)
    ensures IsStored(s.bucket, t.pc.todo[0])
            && PcOk(w, s, a, t.(pc := Writing(t.pc.todo[1..], t.pc.target, t.pc.failed)))
  {
    hide HeldAt;
    assert t.pc.todo[0] in t.pc.todo;
    assert HeldAt(s.bucket, t.pc.target, t.pc.todo[0]);
  }

  lemma RemoveKeeps(w: World, s: State, a: Sid, ok: bool)
    requires Inv(w, s) && At(s, a) && s.attempts[a].pc.Removing? && s.attempts[a].pc.todo != []
    ensures Inv(w, DoRemove(s, a, ok)) && Carries(s, DoRemove(s, a, ok))
  {
    hide Inv, Carries, PcOk, Members, IsStored;
    var t := s.attempts[a];
    var pc' := Writing(t.pc.todo[1..], t.pc.target, t.pc.failed);
    Running(w, s, a);
    TodoShrinks(w, s, a, t);
    if ok {
      var gone := s.(files := s.files - {t.pc.todo[0]});
      FileGone(w, s, t.pc.todo[0]);
      Running(w, gone, a);
      TodoShrinks(w, gone, a, t);
      PcStep(w, gone, a, pc');
      CarriesOn(s, gone, SetPc(gone, a, pc'));
    } else {
      PcStep(w, s, a, pc');
    }
  }

  // ---------------------------------------------------------------------------------------------------------------
  // Loops, claims, the end of a session
  // ---------------------------------------------------------------------------------------------------------------

  lemma LoopKeeps(w: World, s: State, x: Sid, loop: Loop)
    requires Inv(w, s) && (x in s.mem && s.mem[x].phase == Recording ==> loop == NoLoop)
    ensures var s' := Looping(s, x, loop); Inv(w, s') && Carries(s, s')
  {
    hide Inv, BucketOk, LateOk, Locks, FilesOk, AudioKept, Known, MemoryKept, Carries;
    InvParts(w, s);
    LoopFacts(s, x, loop);
    Remains(w, s, Looping(s, x, loop));
  }

  lemma RetryKeeps(w: World, s: State, sid: Sid, mark: bool, saved: set<Sid>)
    requires Inv(w, s) && sid in s.mem && s.mem[sid].loop == Failing
    ensures Inv(w, DoRetry(s, sid, mark, saved)) && Carries(s, DoRetry(s, sid, mark, saved))
  {
    hide BucketOk, LateOk, Locks, FilesOk, AudioKept;
    InvParts(w, s);
    assert s.mem[sid].phase != Recording;
    hide Inv, Known, Carries, Save, Marked;
    var again := Looping(s, sid, Waiting);
    LoopKeeps(w, s, sid, Waiting);
    if mark {
      MarkKeeps(w, again, sid, Finalized, saved * {sid});
      CarriesOn(s, again, Save(Marked(again, sid, Finalized), saved * {sid}));
    }
  }

  lemma FinalizeShape(s: State, sid: Sid)
    requires IsRecording(s, sid)
    ensures var m := s.mem[sid].(phase := Finalized);
            Save(Marked(s, sid, Finalized), {sid}) ==
              s.(mem := s.mem[sid := m], cards := s.cards[sid := Card(Finalized, m.key, m.renames, m.stored)])
  {
  }

  lemma FinalizeFacts(s: State, sid: Sid)
    requires Known(s) && IsRecording(s, sid)
    ensures var s' := Save(Marked(s, sid, Finalized), {sid});
            && Known(s') && MemoryKept(s, s') && Carries(s, s') && s' == s.(mem := s'.mem, cards := s'.cards)
            && s'.mem.Keys == s.mem.Keys && s'.mem[sid].phase == Finalized
  {
    hide HeldAt, Save, Marked, Carries, Known, Settled;
    FinalizeShape(s, sid);
    FinalizeCarries(s, sid);
    FinalizeKnown(s, sid);
  }

  lemma FinalizeKnown(s: State, sid: Sid)
    requires Known(s) && IsRecording(s, sid)
    ensures var s' := Save(Marked(s, sid, Finalized), {sid});
            Known(s') && forall x :: Settled(s, x) ==> Settled(s', x)
  {
    hide HeldAt, Save, Marked;
    FinalizeShape(s, sid);
  }

  lemma FinalizeCarries(s: State, sid: Sid)
    requires IsRecording(s, sid)
    ensures Carries(s, Save(Marked(s, sid, Finalized), {sid}))
  {
    hide Save, Marked;
    FinalizeShape(s, sid);
  }

  lemma FinalizeKeeps(w: World, s: State, sid: Sid)
    requires Inv(w, s) && IsRecording(s, sid)
    ensures Inv(w, DoFinalize(s, sid)) && Carries(s, DoFinalize(s, sid))
  {
    var closed := Save(Marked(s, sid, Finalized), {sid});
    hide Inv, BucketOk, LateOk, Locks, FilesOk, AudioKept, Known, MemoryKept, Carries, Save, Marked;
    InvParts(w, s);
    FinalizeFacts(s, sid);
    Remains(w, s, closed);
    LoopKeeps(w, closed, sid, Waiting);
    CarriesOn(s, closed, Looping(closed, sid, Waiting));
  }

  lemma InUploadFacts(s: State, group: seq<Sid>)
    requires Known(s) && forall g :: g in group && g in s.mem ==> s.mem[g].phase != Recording
    ensures var s' := InUpload(s, group);
            && Known(s') && MemoryKept(s, s') && Carries(s, s') && s'.mem.Keys == s.mem.Keys && s' == s.(mem := s'.mem)
            && forall x :: x in s.mem ==>
                 (s'.mem[x].phase == Recording <==> s.mem[x].phase == Recording) && s'.mem[x].key == s.mem[x].key
  {
    hide HeldAt;
  }

  lemma ClaimedOk(w: World, s: State, a: Sid, group: seq<Sid>)
    requires Known(s) && CanClaim(w, s, a, group)
    ensures AttemptOk(w, s, a, Attempt(s.mem[a].key, group, Claimed))
  {
    hide NoDup, ByStart, HeldAt;
    assert Claimable(w, s, a, a);
  }

  lemma BeginFacts(s: State, a: Sid, t: Attempt)
    requires Known(s)
    ensures var s' := s.(attempts := s.attempts[a := t]);
            MemoryKept(s, s') && Known(s') && Carries(s, s') && forall x :: Settled(s, x) <==> Settled(s', x)
  {
    hide HeldAt;
  }

  lemma BeginKeeps(w: World, s: State, a: Sid, t: Attempt)
    requires Inv(w, s) && AttemptOk(w, s, a, t)
    requires forall b :: b in s.attempts && w.owner(b) == w.owner(a) ==> s.attempts[b].key != t.key
    ensures var s' := s.(attempts := s.attempts[a := t]); Inv(w, s') && Carries(s, s')
  {
    hide Inv, BucketOk, LateOk, FilesOk, AudioKept, Known, MemoryKept, Carries, PcOk, Settled;
    var s' := s.(attempts := s.attempts[a := t]);
    InvParts(w, s);
    BeginFacts(s, a, t);
    assert Locks(w, s');
    SamePc(w, s, s', a, t);
    assert Members(w, s', a, t);
    hide Members, Locks;
    AttemptsStay(w, s, s');
    Remembered(w, s, s');
  }

  lemma MarkGroupKeeps(w: World, s: State, a: Sid, group: seq<Sid>, saved: set<Sid>)
    requires Inv(w, s) && a in s.mem && a in group
    requires forall g :: g in group ==> g in s.mem && s.mem[g].phase != Recording
    ensures var s' := Save(Looping(InUpload(s, group), a, Attempting), saved);
            && Inv(w, s') && Carries(s, s') && s'.attempts == s.attempts
            && forall x :: x in s.mem ==> x in s'.mem && s'.mem[x].key == s.mem[x].key
  {
    var marked := InUpload(s, group);
    var looping := Looping(marked, a, Attempting);
    var claimed := Save(looping, saved);
    hide Inv, BucketOk, LateOk, Locks, FilesOk, AudioKept, Known, MemoryKept, Carries, InUpload;
    InvParts(w, s);
    InUploadFacts(s, group);
    Remains(w, s, marked);
    LoopKeeps(w, marked, a, Attempting);
    InvParts(w, looping);
    SaveFacts(looping, saved);
    Remains(w, looping, claimed);
    CarriesOn(s, marked, looping);
    CarriesOn(s, looping, claimed);
  }

  lemma ClaimKeeps(w: World, s: State, a: Sid, group: seq<Sid>, saved: set<Sid>)
    requires Inv(w, s) && CanClaim(w, s, a, group)
    ensures Inv(w, DoClaim(s, a, group, saved)) && Carries(s, DoClaim(s, a, group, saved))
  {
    var claimed := Save(Looping(InUpload(s, group), a, Attempting), saved * Elements(group));
    var t := Attempt(s.mem[a].key, group, Claimed);
    hide Inv, BucketOk, LateOk, Locks, FilesOk, AudioKept, Known, Carries, NoDup, ByStart, PcOk, Members, InUpload,
      Looping,
      Save;
    InvParts(w, s);
    ClaimedOk(w, s, a, group);
    assert a in group && forall g :: g in group ==> g in s.mem && s.mem[g].phase != Recording by {
      assert Claimable(w, s, a, a);
    }
    MarkGroupKeeps(w, s, a, group, saved * Elements(group));
    StillMember(w, s, claimed, a, t);
    PcCarries(w, s, claimed, a, t);
    BeginKeeps(w, claimed, a, t);
    CarriesOn(s, claimed, claimed.(attempts := claimed.attempts[a := t]));
  }

  lemma StillMember(w: World, s: State, s': State, a: Sid, t: Attempt)
    requires Members(w, s, a, t) && Carries(s, s')
    requires forall x :: x in s.mem ==> x in s'.mem && s'.mem[x].key == s.mem[x].key
    ensures Members(w, s', a, t)
  {
    assert forall x :: Settled(s, x) ==> Settled(s', x);
    hide Settled;
  }
}
