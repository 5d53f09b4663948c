/** Sessions beginning, capturing, being forgotten, a recorder crashing and recovering: the upload invariant survives
    them all. */
module UploadRecovery {
  import opened Bytes
  import opened ObjectKeys
  import opened UploadProtocol
  import opened UploadInvariant
  import opened UploadSteps
  import opened UploadSessions

  lemma StartFiles(w: World, s: State, sid: Sid, key: Key, from: Option<Sid>)
    requires FilesOk(s) && AudioKept(s) && CanStart(w, s, sid, key, from)
    ensures FilesOk(DoStart(s, sid, key, from)) && AudioKept(DoStart(s, sid, key, from))
  {
    hide IsStored;
  }

  lemma StartKnown(w: World, s: State, sid: Sid, key: Key, from: Option<Sid>)
    requires Known(s) && Locks(w, s) && CanStart(w, s, sid, key, from)
    ensures Known(DoStart(s, sid, key, from)) && Locks(w, DoStart(s, sid, key, from))
  {
    StartLocks(w, s, sid, key, from);
    hide Locks;
    var s' := DoStart(s, sid, key, from);
    BegunIsKnown(s, s', sid, key, if from.Some? then s.mem[from.value].renames else 0);
  }

  lemma BegunIsKnown(s: State, s': State, sid: Sid, key: Key, renames: nat)
    requires Known(s) && renames <= MAX_RENAMES && s'.bucket == s.bucket && s'.made.Keys == s.made.Keys + {sid}
    requires s'.mem == s.mem[sid := Mem(Recording, key, renames, false, NoLoop)]
    requires s'.cards == s.cards[sid := Card(Recording, key, renames, false)]
    ensures Known(s')
  {
    hide HeldAt;
    assert forall x :: x in s'.made <==> x in s.made || x == sid;
    assert forall x :: x in s'.mem && x != sid ==> x in s.mem && s'.mem[x] == s.mem[x];
    assert forall x :: x in s'.cards && x != sid ==> x in s.cards && s'.cards[x] == s.cards[x];
  }

  lemma StartLocks(w: World, s: State, sid: Sid, key: Key, from: Option<Sid>)
    requires Locks(w, s) && CanStart(w, s, sid, key, from)
    ensures Locks(w, DoStart(s, sid, key, from))
  {
  }

  lemma StartCarries(w: World, s: State, sid: Sid, key: Key, from: Option<Sid>)
    requires Known(s) && CanStart(w, s, sid, key, from)
    ensures Carries(s, DoStart(s, sid, key, from)) && MemoryKept(s, DoStart(s, sid, key, from))
  {
  }

  lemma StartKeeps(w: World, s: State, sid: Sid, key: Key, from: Option<Sid>)
    requires Inv(w, s) && CanStart(w, s, sid, key, from)
    ensures Inv(w, DoStart(s, sid, key, from)) && Carries(s, DoStart(s, sid, key, from))
  {
    hide Inv, BucketOk, LateOk, AttemptOk, FilesOk, AudioKept, Known, Locks, MemoryKept, Carries;
    InvParts(w, s);
    StartFiles(w, s, sid, key, from);
    StartKnown(w, s, sid, key, from);
    StartCarries(w, s, sid, key, from);
    Lives(w, s, DoStart(s, sid, key, from));
  }

  lemma CaptureFiles(w: World, s: State, sid: Sid, frame: Frame)
    requires FilesOk(s) && AudioKept(s) && IsRecording(s, sid)
    ensures FilesOk(DoCapture(s, sid, frame)) && AudioKept(DoCapture(s, sid, frame))
  {
    hide IsStored;
  }

  lemma CaptureKnown(w: World, s: State, sid: Sid, frame: Frame)
    requires Known(s) && Locks(w, s) && IsRecording(s, sid)
    ensures Known(DoCapture(s, sid, frame)) && Locks(w, DoCapture(s, sid, frame))
  {
    hide HeldAt;
  }

  lemma CaptureCarries(w: World, s: State, sid: Sid, frame: Frame)
    requires IsRecording(s, sid)
    ensures Carries(s, DoCapture(s, sid, frame)) && MemoryKept(s, DoCapture(s, sid, frame))
  {
  }

  lemma CaptureKeeps(w: World, s: State, sid: Sid, frame: Frame)
    requires Inv(w, s) && IsRecording(s, sid)
    ensures Inv(w, DoCapture(s, sid, frame)) && Carries(s, DoCapture(s, sid, frame))
  {
    hide Inv, BucketOk, LateOk, AttemptOk, FilesOk, AudioKept, Known, Locks, MemoryKept, Carries;
    InvParts(w, s);
    CaptureFiles(w, s, sid, frame);
    CaptureKnown(w, s, sid, frame);
    CaptureCarries(w, s, sid, frame);
    Lives(w, s, DoCapture(s, sid, frame));
  }

  lemma JunkFiles(w: World, s: State, sid: Sid)
    requires FilesOk(s) && AudioKept(s) && IsRecording(s, sid)
    ensures FilesOk(DoJunk(s, sid)) && AudioKept(DoJunk(s, sid))
  {
    hide IsStored;
  }

  lemma JunkKnown(w: World, s: State, sid: Sid)
    requires Known(s) && Locks(w, s) && IsRecording(s, sid)
    ensures Known(DoJunk(s, sid)) && Locks(w, DoJunk(s, sid))
  {
    hide HeldAt;
  }

  lemma JunkCarries(w: World, s: State, sid: Sid)
    requires IsRecording(s, sid)
    ensures Carries(s, DoJunk(s, sid)) && MemoryKept(s, DoJunk(s, sid))
  {
  }

  lemma JunkKeeps(w: World, s: State, sid: Sid)
    requires Inv(w, s) && IsRecording(s, sid)
    ensures Inv(w, DoJunk(s, sid)) && Carries(s, DoJunk(s, sid))
  {
    hide Inv, BucketOk, LateOk, AttemptOk, FilesOk, AudioKept, Known, Locks, MemoryKept, Carries;
    InvParts(w, s);
    JunkFiles(w, s, sid);
    JunkKnown(w, s, sid);
    JunkCarries(w, s, sid);
    Lives(w, s, DoJunk(s, sid));
  }

  // ---------------------------------------------------------------------------------------------------------------
  // Forgetting
  // ---------------------------------------------------------------------------------------------------------------

  /** Memory, sidecars and attempts that are gone are no trouble to the attempts that stay. */
  predicate Dropped(s: State, s': State, gone: set<Sid>) {
    && s' == s.(mem := s.mem - gone, cards := s'.cards, attempts := s'.attempts, down := s'.down)
    && (s'.cards == s.cards || s'.cards == s.cards - gone)
    && s'.attempts.Keys <= s.attempts.Keys
    && forall a :: a in s'.attempts ==>
         s'.attempts[a] == s.attempts[a] && forall g :: g in s.attempts[a].group ==> g !in gone
  }

  lemma DropFacts(w: World, s: State, s': State, gone: set<Sid>)
    requires Known(s) && Locks(w, s) && Dropped(s, s', gone)
    requires forall x :: x in s'.mem ==> w.owner(x) !in s'.down
    ensures Known(s') && Locks(w, s') && Carries(s, s') && forall x :: Settled(s, x) ==> Settled(s', x)
  {
    hide HeldAt;
  }

  lemma DropKeeps(w: World, s: State, s': State, gone: set<Sid>)
    requires Inv(w, s) && Dropped(s, s', gone) && forall x :: x in s'.mem ==> w.owner(x) !in s'.down
    ensures Inv(w, s') && Carries(s, s')
  {
    hide Inv, BucketOk, LateOk, FilesOk, AudioKept, Known, Locks, Carries, PcOk, Settled;
    InvParts(w, s);
    DropFacts(w, s, s', gone);
    forall b | b in s'.attempts
      ensures Members(w, s', b, s'.attempts[b])
    {
      Running(w, s, b);
    }
    assert FilesOk(s') && AudioKept(s') by {
      SameFiles(s, s');
    }
    BucketCarries(w, s, s');
    LateCarries(w, s, s');
    hide Members, Dropped;
    Preserved(w, s, s');
  }

  lemma SameFiles(s: State, s': State)
    requires FilesOk(s) && AudioKept(s) && s'.made == s.made && s'.cut == s.cut && s'.files == s.files
             && s'.bucket == s.bucket
    ensures FilesOk(s') && AudioKept(s')
  {
  }

  lemma RetainKeeps(w: World, s: State, sid: Sid)
    requires Inv(w, s) && CanRetain(s, sid)
    ensures Inv(w, DoRetain(s, sid)) && Carries(s, DoRetain(s, sid))
  {
    var dropped := s.(mem := s.mem - {sid}, cards := s.cards - {sid});
    hide Inv, BucketOk, LateOk, AudioKept, Known, Carries, IsStored;
    InvParts(w, s);
    DropKeeps(w, s, dropped, {sid});
    if sid in s.files {
      FileGone(w, dropped, sid);
      CarriesOn(s, dropped, DoRetain(s, sid));
    } else {
      assert s.files - {sid} == s.files;
    }
  }

  lemma CrashKeeps(w: World, s: State, rec: Rec)
    requires Inv(w, s)
    ensures Inv(w, DoCrash(w, s, rec)) && Carries(s, DoCrash(w, s, rec))
  {
    var s' := DoCrash(w, s, rec);
    var gone := set x | x in s.mem && w.owner(x) == rec;
    hide Inv, BucketOk, LateOk, FilesOk, AudioKept, Known, Carries, PcOk, Settled;
    InvParts(w, s);
    assert s'.mem == s.mem - gone;
    forall a | a in s'.attempts
      ensures forall g :: g in s.attempts[a].group ==> g !in gone
    {
      Running(w, s, a);
    }
    hide Locks, DoCrash;
    DropKeeps(w, s, s', gone);
  }

  // ---------------------------------------------------------------------------------------------------------------
  // Recovery
  // ---------------------------------------------------------------------------------------------------------------

  lemma RecoveredFacts(s: State, x: Sid, resumed: set<Sid>, moved: map<Sid, Name>)
    requires x in s.cards && Migrates(moved)
    ensures var m, c := Recovered(s, x, resumed, moved), s.cards[x];
            && (m.renames == c.renames || m.renames <= MAX_RENAMES) && (m.stored ==> c.stored && m.key == c.key)
            && (m.phase == Recording ==> m.loop == NoLoop && c.phase == Recording)
  {
  }

  /** What recovery takes into memory. */
  predicate MemShape(w: World, s: State, mem: map<Sid, Mem>, rec: Rec) {
    && (forall x :: x in mem ==> x in s.mem || (x in s.cards && w.owner(x) == rec))
    && (forall x :: x in s.mem ==> x in mem && (w.owner(x) != rec ==> mem[x] == s.mem[x]))
    && (forall x :: x in s.cards && w.owner(x) == rec ==>
          && x in mem && (mem[x].renames == s.cards[x].renames || mem[x].renames <= MAX_RENAMES)
          && (mem[x].stored ==> s.cards[x].stored && mem[x].key == s.cards[x].key)
          && (mem[x].phase == Recording ==> mem[x].loop == NoLoop && s.cards[x].phase == Recording))
  }

  /** Every sidecar after recovery is the old one or says what memory says, and it does where recording stopped. */
  predicate CardShape(w: World, s: State, mem: map<Sid, Mem>, cards: map<Sid, Card>, rec: Rec) {
    && cards.Keys == s.cards.Keys
    && forall x :: x in s.cards ==>
         || (cards[x] == s.cards[x]
             && (w.owner(x) == rec && s.cards[x].phase == Recording ==> x in mem && mem[x].phase == Recording))
         || (w.owner(x) == rec && x in mem && cards[x] == Card(mem[x].phase, mem[x].key, mem[x].renames, mem[x].stored))
  }

  predicate RecoverShape(w: World, s: State, s': State, rec: Rec) {
    s'.down == s.down - {rec} && MemShape(w, s, s'.mem, rec) && CardShape(w, s, s'.mem, s'.cards, rec)
  }

  lemma SaveShape(s: State, saved: set<Sid>)
    ensures var s' := Save(s, saved);
            && s'.cards.Keys == s.cards.Keys + saved * s.mem.Keys
            && forall x :: x in s'.cards ==>
                 s'.cards[x] == if x in saved && x in s.mem then
                                  Card(s.mem[x].phase, s.mem[x].key, s.mem[x].renames, s.mem[x].stored)
                                else s.cards[x]
  {
  }

  lemma TakenInShape(w: World, s: State, rec: Rec, back: set<Sid>, resumed: set<Sid>, moved: map<Sid, Name>)
    requires back == (set x | x in s.cards && w.owner(x) == rec) && Migrates(moved)
    ensures MemShape(w, s, TakenIn(s, back, resumed, moved), rec)
  {
    hide Recovered, TakenIn, Migrates;
    forall x | x in s.cards
      ensures var m, c := Recovered(s, x, resumed, moved), s.cards[x];
              && (m.renames == c.renames || m.renames <= MAX_RENAMES) && (m.stored ==> c.stored && m.key == c.key)
              && (m.phase == Recording ==> m.loop == NoLoop && c.phase == Recording)
    {
      RecoveredFacts(s, x, resumed, moved);
    }
  }

  lemma SavedShape(w: World, s: State, s1: State, rec: Rec, back: set<Sid>, saved: set<Sid>)
    requires back == (set x | x in s.cards && w.owner(x) == rec) && back <= s1.mem.Keys && s1.cards == s.cards
             && saved <= back
    requires forall x :: x in back && s.cards[x].phase == Recording && s1.mem[x].phase != Recording ==> x in saved
    ensures CardShape(w, s, s1.mem, Save(s1, saved).cards, rec)
  {
    hide Save;
    SaveShape(s1, saved);
  }

  lemma RecoverHasShape(w: World, s: State, rec: Rec, resumed: set<Sid>, moved: map<Sid, Name>, saved: set<Sid>)
    requires Migrates(moved)
    ensures RecoverShape(w, s, DoRecover(w, s, rec, resumed, moved, saved), rec)
  {
    hide TakenIn, Save, MemShape, CardShape;
    var back := set x | x in s.cards && w.owner(x) == rec;
    var s1 := s.(mem := TakenIn(s, back, resumed, moved), down := s.down - {rec});
    var settled := set x | x in back && s.cards[x].phase == Recording && s1.mem[x].phase != Recording;
    TakenInShape(w, s, rec, back, resumed, moved);
    SavedShape(w, s, s1, rec, back, saved * back + settled);
  }

  lemma ShapeKnown(w: World, s: State, s': State, rec: Rec)
    requires Known(s) && Locks(w, s) && rec in s.down && RecoverShape(w, s, s', rec)
    requires s'.bucket == s.bucket && s'.made == s.made && s'.attempts == s.attempts
    ensures Known(s') && Locks(w, s')
  {
    hide Known, Locks;
    ShapeRemembers(w, s, s', rec);
    ShapeLocks(w, s, s', rec);
  }

  lemma ShapeRemembers(w: World, s: State, s': State, rec: Rec)
    requires Known(s) && Locks(w, s) && rec in s.down && RecoverShape(w, s, s', rec)
    requires s'.bucket == s.bucket && s'.made == s.made
    ensures Known(s')
  {
    hide HeldAt;
  }

  lemma ShapeLocks(w: World, s: State, s': State, rec: Rec)
    requires Locks(w, s) && RecoverShape(w, s, s', rec) && s'.attempts == s.attempts
    ensures Locks(w, s')
  {
    hide CardShape;
  }

  lemma ShapeCarries(w: World, s: State, s': State, rec: Rec)
    requires Locks(w, s) && rec in s.down && RecoverShape(w, s, s', rec)
    requires s'.bucket == s.bucket && s'.made == s.made && s'.cut == s.cut && s'.nextEtag == s.nextEtag
    ensures Carries(s, s') && MemoryKept(s, s')
  {
  }

  lemma RecoverKeeps(w: World, s: State, rec: Rec, resumed: set<Sid>, moved: map<Sid, Name>, saved: set<Sid>)
    requires Inv(w, s) && rec in s.down && Migrates(moved)
    ensures Inv(w, DoRecover(w, s, rec, resumed, moved, saved))
            && Carries(s, DoRecover(w, s, rec, resumed, moved, saved))
  {
    var s' := DoRecover(w, s, rec, resumed, moved, saved);
    hide Inv, BucketOk, LateOk, FilesOk, AudioKept, Known, Locks, Carries, MemoryKept, TakenIn, RecoverShape;
    InvParts(w, s);
    RecoverHasShape(w, s, rec, resumed, moved, saved);
    assert s' == s.(mem := s'.mem, cards := s'.cards, down := s'.down);
    hide DoRecover;
    ShapeKnown(w, s, s', rec);
    ShapeCarries(w, s, s', rec);
    SameFiles(s, s');
    Lives(w, s, s');
  }
}
