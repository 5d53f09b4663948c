/** Every step of the upload protocol keeps the invariant and only extends objects. */
module UploadSteps {
  import opened Bytes
  import opened ObjectKeys
  import opened UploadProtocol
  import opened UploadInvariant

  // ---------------------------------------------------------------------------------------------------------------
  // Building blocks
  // ---------------------------------------------------------------------------------------------------------------

  /** Nothing about memory that another attempt relies on has changed. */
  ghost predicate MemoryKept(s: State, s': State) {
    && (forall x :: x in s.mem ==> x in s'.mem && s'.mem[x].key == s.mem[x].key)
    && (forall x :: Settled(s, x) ==> Settled(s', x))
  }

  lemma AttemptsStay(w: World, s: State, s': State)
    requires Inv(w, s) && MemoryKept(s, s')
    requires forall b :: b in s'.attempts ==>
               AttemptOk(w, s', b, s'.attempts[b]) || (b in s.attempts && s'.attempts[b] == s.attempts[b])
    ensures AttemptsKept(w, s, s')
  {
    hide Settled, PcOk, BucketOk, Known, Locks, FilesOk, AudioKept;
    forall b | b in s'.attempts && !AttemptOk(w, s', b, s'.attempts[b])
      ensures Members(w, s', b, s'.attempts[b])
    {
      assert AttemptOk(w, s, b, s.attempts[b]);
    }
  }

  lemma PcFacts(w: World, s: State, a: Sid, pc: Pc)
    requires Known(s) && a in s.attempts
    ensures var s' := SetPc(s, a, pc);
            MemoryKept(s, s') && Known(s') && Carries(s, s') && forall x :: Settled(s, x) <==> Settled(s', x)
  {
    hide HeldAt;
  }

  lemma PcStep(w: World, s: State, a: Sid, pc: Pc)
    requires Inv(w, s) && At(s, a) && (Locked(s.attempts[a].(pc := pc)) ==> Locked(s.attempts[a]))
             && PcOk(w, s, a, s.attempts[a].(pc := pc))
    ensures Inv(w, SetPc(s, a, pc)) && Carries(s, SetPc(s, a, pc))
  {
    hide BucketOk, Known, FilesOk, AudioKept, PcOk, Carries, MemoryKept, Settled;
    var s' := SetPc(s, a, pc);
    var t' := s.attempts[a].(pc := pc);
    assert AttemptOk(w, s', a, t') by {
      hide Locks;
      assert AttemptOk(w, s, a, s.attempts[a]);
      PcFacts(w, s, a, pc);
      SamePc(w, s, s', a, t');
    }
    PcFacts(w, s, a, pc);
    assert Locks(w, s');
    hide Locks, AttemptOk;
    AttemptsStay(w, s, s');
    Remembered(w, s, s');
  }

  /** PcOk looks at the bucket, the history and who has settled, not at the attempts. */
  lemma SamePc(w: World, s: State, s': State, a: Sid, t: Attempt)
    requires s' == s.(attempts := s'.attempts) && PcOk(w, s, a, t)
    ensures PcOk(w, s', a, t)
  {
    hide GoodObject, NoDup, ByStart, Within, Fits, Extends, AllAt;
    assert forall x :: Settled(s, x) <==> Settled(s', x);
  }

  lemma LoopFacts(s: State, a: Sid, loop: Loop)
    requires Known(s) && (a in s.mem && s.mem[a].phase == Recording ==> loop == NoLoop)
    ensures MemoryKept(s, Looping(s, a, loop)) && Known(Looping(s, a, loop)) && Carries(s, Looping(s, a, loop))
  {
    hide HeldAt;
  }

  lemma EndFacts(s: State, a: Sid, ok: bool)
    requires Known(s) && (a in s.mem ==> s.mem[a].phase != Recording)
    ensures MemoryKept(s, End(s, a, ok)) && Known(End(s, a, ok)) && Carries(s, End(s, a, ok))
  {
    hide HeldAt, Extends;
    LoopFacts(s, a, if ok then NoLoop else Failing);
  }

  lemma NotRecording(w: World, s: State, a: Sid, x: Sid)
    requires Inv(w, s) && a in s.attempts && x in s.attempts[a].group
    ensures x in s.mem && s.mem[x].phase != Recording && Settled(s, x)
  {
    hide BucketOk, Known, FilesOk, AudioKept, Locks, PcOk;
    assert AttemptOk(w, s, a, s.attempts[a]);
  }

  lemma GroupSettled(w: World, s: State, a: Sid)
    requires Inv(w, s) && a in s.attempts
    ensures a in s.attempts[a].group && forall g :: g in s.attempts[a].group ==> g in s.mem && Settled(s, g)
  {
    hide BucketOk, Known, FilesOk, AudioKept, Locks, PcOk, Settled;
    assert AttemptOk(w, s, a, s.attempts[a]);
  }

  lemma EndStep(w: World, s: State, a: Sid, ok: bool)
    requires Inv(w, s) && a in s.attempts
    ensures Inv(w, End(s, a, ok)) && Carries(s, End(s, a, ok))
  {
    assert a in s.attempts[a].group by {
      Running(w, s, a);
    }
    NotRecording(w, s, a, a);
    hide MemoryKept, Known, Carries, BucketOk, FilesOk, AudioKept, AttemptOk, Settled;
    var s' := End(s, a, ok);
    EndFacts(s, a, ok);
    AttemptsStay(w, s, s');
    assert Locks(w, s');
    hide Locks;
    Remembered(w, s, s');
  }

  lemma InvParts(w: World, s: State)
    requires Inv(w, s)
    ensures BucketOk(w, s) && LateOk(w, s) && FilesOk(s) && AudioKept(s) && Known(s) && Locks(w, s)
  {
  }

  lemma Running(w: World, s: State, a: Sid)
    requires Inv(w, s) && a in s.attempts
    ensures AttemptOk(w, s, a, s.attempts[a])
  {
  }

  // ---------------------------------------------------------------------------------------------------------------
  // Steps that only move an attempt on
  // ---------------------------------------------------------------------------------------------------------------

  lemma {:induction false} PickKeeps(w: World, s: seq<Sid>, these: set<Sid>)
    ensures |Pick(s, these)| <= |s|
    ensures NoDup(s) ==> NoDup(Pick(s, these))
    ensures ByStart(w, s) ==> ByStart(w, Pick(s, these))
  {
    if s != [] {
      var init, x := s[..|s| - 1], s[|s| - 1];
      var r := Pick(init, these);
      PickKeeps(w, init, these);
      if x in these && ByStart(w, s) {
        forall i | 0 <= i < |r|
          ensures w.start(r[i]) <= w.start(x)
        {
          assert r[i] in init;
        }
      }
    }
  }

  lemma ClassifyStep(w: World, s: State, a: Sid)
    requires Inv(w, s) && At(s, a) && s.attempts[a].pc.Claimed?
    ensures var s' := SetPc(s, a, Classification(s, s.attempts[a].group)); Inv(w, s') && Carries(s, s')
  {
    hide Inv, Carries, PcOk, Members, SetPc, Classification;
    Running(w, s, a);
    ClassifiedOk(w, s, a, s.attempts[a]);
    PcStep(w, s, a, Classification(s, s.attempts[a].group));
  }

  lemma ClassifiedOk(w: World, s: State, a: Sid, t: Attempt)
    requires t.pc.Claimed? && PcOk(w, s, a, t)
    ensures PcOk(w, s, a, t.(pc := Classification(s, t.group)))
  {
    hide NoDup, ByStart;
    var there := set x | x in t.group && x in s.files;
    var empty := set x | x in t.group && x in s.files && s.files[x].Empty();
    PickKeeps(w, t.group, there - empty);
  }

  /** What the HEAD saw is a snapshot of the object. */
  lemma Looked(w: World, s: State, key: Key)
    requires BucketOk(w, s) && key in s.bucket && s.bucket[key].meta.Manifest?
    ensures Snapshot(w, s, key, s.bucket[key])
  {
    hide Written;
  }

  lemma JudgePlans(w: World, s: State, a: Sid, t: Attempt)
    requires BucketOk(w, s) && t.pc.Classified? && PcOk(w, s, a, t)
    requires Judge(w, a, t, Lookup(s, t.key)).Proceed?
    ensures PcOk(w, s, a, t.(pc := Judge(w, a, t, Lookup(s, t.key)).pc))
  {
    hide NoDup, ByStart, BucketOk, Snapshot;
    var local, missing := t.pc.local, t.pc.missing;
    if t.key in s.bucket {
      var o := s.bucket[t.key];
      var has := Elements(o.meta.sessions);
      Looked(w, s, t.key);
      PickKeeps(w, local, Elements(local) - has);
      var toAdd := Pick(local, Elements(local) - has);
      assert Judge(w, a, t, Some(o)).pc.Decided? ==>
               forall m :: m in toAdd ==> m !in o.meta.sessions && w.start(m) >= o.meta.last * 1000;
    }
  }

  lemma MeasurePlans(w: World, s: State, a: Sid, t: Attempt, sound: set<Sid>)
    requires t.pc.Decided? && PcOk(w, s, a, t)
    ensures var pc := t.pc;
            PcOk(w, s, a,
                 t.(pc := Measured(pc.remote, Pick(pc.toAdd, sound), pc.present,
                                   Pick(pc.toAdd, Elements(pc.toAdd) - sound))))
  {
    hide NoDup, ByStart, Snapshot;
    PickKeeps(w, t.pc.toAdd, sound);
    if Pick(t.pc.toAdd, sound) != [] {
      assert t.pc.toAdd != [];
    }
  }

  lemma MeasureStep(w: World, s: State, a: Sid, left: map<Sid, File>)
    requires Inv(w, s) && CanMeasure(s, a, left)
    ensures Inv(w, DoMeasure(s, a, left)) && Carries(s, DoMeasure(s, a, left))
  {
    hide PcOk, Members, Carries, Repaired, Inv;
    var t := s.attempts[a];
    var trimmed := Repaired(s, Elements(t.pc.toAdd), left);
    var sound := set x | x in t.pc.toAdd && x in trimmed.files && trimmed.files[x].frames != [];
    RepairKeeps(w, s, Elements(t.pc.toAdd), left);
    Running(w, trimmed, a);
    MeasurePlans(w, trimmed, a, t, sound);
    var pc :=
      Measured(t.pc.remote, Pick(t.pc.toAdd, sound), t.pc.present, Pick(t.pc.toAdd, Elements(t.pc.toAdd) - sound));
    PcStep(w, trimmed, a, pc);
    CarriesOn(s, trimmed, SetPc(trimmed, a, pc));
  }

  /** Captures, memory and sidecars changed; the bucket and the attempts did not. */
  lemma Lives(w: World, s: State, s': State)
    requires Inv(w, s) && s'.bucket == s.bucket && s'.nextEtag == s.nextEtag && s'.attempts == s.attempts
    requires s'.late == s.late
    requires Carries(s, s') && MemoryKept(s, s') && FilesOk(s') && AudioKept(s') && Known(s') && Locks(w, s')
    ensures Inv(w, s')
  {
    hide Inv, BucketOk, LateOk, FilesOk, AudioKept, Known, Locks, MemoryKept, Carries, AttemptOk;
    InvParts(w, s);
    BucketCarries(w, s, s');
    LateCarries(w, s, s');
    AttemptsStay(w, s, s');
    Preserved(w, s, s');
  }

  lemma RepairFiles(s: State, these: set<Sid>, left: map<Sid, File>)
    requires FilesOk(s) && AudioKept(s) && Trims(s, left)
    ensures FilesOk(Repaired(s, these, left)) && AudioKept(Repaired(s, these, left))
  {
    hide IsStored;
  }

  lemma RepairKnown(w: World, s: State, these: set<Sid>, left: map<Sid, File>)
    requires Known(s) && Locks(w, s)
    ensures var s' := Repaired(s, these, left); Known(s') && Locks(w, s') && Carries(s, s') && MemoryKept(s, s')
  {
    hide Repaired, ListedAt;
    var s' := Repaired(s, these, left);
    assert s.cut <= s'.cut by {
      RepairCuts(s, these, left);
    }
  }

  lemma RepairCuts(s: State, these: set<Sid>, left: map<Sid, File>)
    ensures s.cut <= Repaired(s, these, left).cut
  {
  }

  /** A tail repair, safe or not, keeps the invariant: what it breaks is remembered. */
  lemma RepairKeeps(w: World, s: State, these: set<Sid>, left: map<Sid, File>)
    requires Inv(w, s) && Trims(s, left)
    ensures Inv(w, Repaired(s, these, left)) && Carries(s, Repaired(s, these, left))
  {
    hide Inv, BucketOk, FilesOk, AudioKept, Known, Locks, MemoryKept, Carries, Repaired;
    InvParts(w, s);
    RepairFiles(s, these, left);
    RepairKnown(w, s, these, left);
    Lives(w, s, Repaired(s, these, left));
  }

  lemma PresentIsStored(w: World, s: State, a: Sid, t: Attempt)
    requires t.pc.Measured? && PcOk(w, s, a, t)
    ensures PcOk(w, s, a, t.(pc := Stored(t.pc.present, t.key)))
  {
    PlanWithin(w, s, a, t, t.pc.remote, t.pc.toAdd, t.pc.present);
    PresentIsHeld(w, s, a, t, t.pc.remote, t.pc.toAdd, t.pc.present);
  }

  lemma ConvergeStep(w: World, s: State, a: Sid)
    requires Inv(w, s) && CanConverge(s, a)
    ensures Inv(w, DoConverge(s, a)) && Carries(s, DoConverge(s, a))
  {
    hide PcOk, BucketOk, Known, FilesOk, AudioKept, Locks, Members, Carries;
    var t := s.attempts[a];
    assert AttemptOk(w, s, a, t);
    if t.pc.present == [] {
      EndStep(w, s, a, true);
    } else {
      PresentIsStored(w, s, a, t);
      PcStep(w, s, a, Stored(t.pc.present, t.key));
    }
  }

  /** What was present in the snapshot is in the object now. */
  lemma PresentIsHeld(w: World, s: State, a: Sid, t: Attempt, remote: Option<Object>, toAdd: seq<Sid>,
                      present: seq<Sid>)
    requires Plan(w, s, a, t, remote, toAdd, present)
    ensures AllAt(s.bucket, t.key, present)
  {
    hide NoDup, ByStart, BySecond, PartsOk, Settled;
    forall x | x in present
      ensures HeldAt(s.bucket, t.key, x)
    {
      var l, l' := remote.value.whose, s.bucket[t.key].whose;
      assert x in remote.value.meta.sessions;
      var i :| 0 <= i < |l| && l[i] == x;
      assert l'[i] == x;
    }
  }

  /** What captures hold are true parts. */
  lemma CapturesAreParts(s: State, l: seq<Sid>)
    requires FilesOk(s) && forall x :: x in l ==> x in s.files
    ensures PartsOk(s.made, s.cut, l, Parts(s.files, l))
  {
    hide Parts;
    assert forall i :: 0 <= i < |l| ==> l[i] in l;
  }

  lemma PartsJoin(made: map<Sid, seq<Frame>>, cut: set<Sid>, a: seq<Sid>, p: seq<seq<Frame>>, b: seq<Sid>,
                  q: seq<seq<Frame>>)
    requires PartsOk(made, cut, a, p) && PartsOk(made, cut, b, q)
    ensures PartsOk(made, cut, a + b, p + q)
  {
  }

  lemma SnapshotIsThere(w: World, s: State, a: Sid, t: Attempt, o: Object, toAdd: seq<Sid>, present: seq<Sid>)
    requires Plan(w, s, a, t, Some(o), toAdd, present) && t.key in s.bucket && s.bucket[t.key].etag == o.etag
    ensures s.bucket[t.key] == o && PartsOk(s.made, s.cut, o.whose, o.parts)
  {
    hide NoDup, ByStart, BySecond, Within, Fits, Settled, PartsOk, TrueMeta;
  }

  lemma PlanStays(w: World, s: State, a: Sid, t: Attempt, pc: Pc, remote: Option<Object>, toAdd: seq<Sid>,
                  present: seq<Sid>)
    requires Plan(w, s, a, t, remote, toAdd, present)
    ensures Plan(w, s, a, t.(pc := pc), remote, toAdd, present)
  {
    hide NoDup, ByStart, Within, Fits, Snapshot;
  }

  /** The download's If-Match held, so what was downloaded is the object of the snapshot. */
  lemma BuildIsExact(w: World, s: State, a: Sid, t: Attempt)
    requires t.pc.Measured? && PcOk(w, s, a, t) && t.pc.toAdd != [] && FilesOk(s)
    requires forall x :: x in t.pc.toAdd ==> x in s.files
    requires t.pc.remote.Some? ==> t.key in s.bucket && s.bucket[t.key].etag == t.pc.remote.value.etag
    ensures var stored := if t.pc.remote.Some? then s.bucket[t.key].parts else [];
            PcOk(w, s, a, t.(pc := Built(t.pc.remote, t.pc.toAdd, t.pc.present, stored + Parts(s.files, t.pc.toAdd))))
  {
    hide Plan, FilesOk, PartsOk, Parts;
    CapturesAreParts(s, t.pc.toAdd);
    var built := (if t.pc.remote.Some? then s.bucket[t.key].parts else []) + Parts(s.files, t.pc.toAdd);
    PlanStays(w, s, a, t, Built(t.pc.remote, t.pc.toAdd, t.pc.present, built), t.pc.remote, t.pc.toAdd, t.pc.present);
    if t.pc.remote.Some? {
      var o := t.pc.remote.value;
      SnapshotIsThere(w, s, a, t, o, t.pc.toAdd, t.pc.present);
      PartsJoin(s.made, s.cut, o.whose, o.parts, t.pc.toAdd, Parts(s.files, t.pc.toAdd));
    } else {
      var none: seq<seq<Frame>> := [];
      assert Whose(None) + t.pc.toAdd == t.pc.toAdd && none + Parts(s.files, t.pc.toAdd) == Parts(s.files, t.pc.toAdd);
      assert none <= none + Parts(s.files, t.pc.toAdd);
    }
  }

  lemma BuildStep(w: World, s: State, a: Sid)
    requires Inv(w, s) && CanBuild(s, a)
    ensures Inv(w, DoBuild(s, a)) && Carries(s, DoBuild(s, a))
  {
    hide PcOk, BucketOk, Known, FilesOk, AudioKept, Locks, Members, Carries, Inv, Parts;
    var t := s.attempts[a];
    InvParts(w, s);
    Running(w, s, a);
    BuildIsExact(w, s, a, t);
    var stored := if t.pc.remote.Some? then s.bucket[t.key].parts else [];
    PcStep(w, s, a, Built(t.pc.remote, t.pc.toAdd, t.pc.present, stored + Parts(s.files, t.pc.toAdd)));
  }

  lemma VerifiedOk(w: World, s: State, a: Sid, t: Attempt)
    requires t.pc.Verifying? && PcOk(w, s, a, t)
    ensures PcOk(w, s, a, t.(pc := Stored(t.pc.toAdd + t.pc.present, t.key)))
  {
    hide HeldAt, FallbackKey;
  }

  lemma VerifyStep(w: World, s: State, a: Sid)
    requires Inv(w, s) && At(s, a) && s.attempts[a].pc.Verifying?
    ensures Inv(w, DoVerify(s, a)) && Carries(s, DoVerify(s, a))
  {
    var t := s.attempts[a];
    if t.key in s.bucket && s.bucket[t.key].etag == t.pc.etag {
      hide Inv, PcOk, Members, Carries;
      Running(w, s, a);
      VerifiedOk(w, s, a, t);
      PcStep(w, s, a, Stored(t.pc.toAdd + t.pc.present, t.key));
    } else {
      EndStep(w, s, a, false);
    }
  }

  // ---------------------------------------------------------------------------------------------------------------
  // Steps that write the bucket
  // ---------------------------------------------------------------------------------------------------------------

  /** The latest of them all, whatever their order. */
  lemma {:induction false} LatestIsTheLatest(w: World, t: Option<int>, l: seq<Sid>)
    ensures var r := Latest(w, t, l);
            && (r.None? <==> t.None? && l == [])
            && (r.Some? ==> (t.Some? ==> r.value >= t.value) && NoneLater(w, l, r.value))
            && (r.Some? ==> r == t || StartsThen(w, l, r.value))
  {
    hide NoneLater, StartsThen;
    if l == [] {
      assert t.Some? ==> NoneLater(w, [], t.value) by {
        NobodyLater(w);
      }
    } else {
      var init, x := l[..|l| - 1], l[|l| - 1];
      LatestIsTheLatest(w, t, init);
      var r := Latest(w, t, init);
      OneMoreStart(w, init, x, if r.Some? then r.value else w.start(x));
      assert l == init + [x];
    }
  }

  predicate NoneLater(w: World, l: seq<Sid>, at: int) {
    forall x :: x in l ==> w.start(x) <= at
  }

  lemma NobodyLater(w: World)
    ensures forall at :: NoneLater(w, [], at)
  {
  }

  predicate StartsThen(w: World, l: seq<Sid>, at: int) {
    exists x :: x in l && w.start(x) == at
  }

  lemma OneMoreStart(w: World, l: seq<Sid>, x: Sid, at: int)
    ensures NoneLater(w, l, at) && w.start(x) <= at ==> NoneLater(w, l + [x], at)
    ensures NoneLater(w, l, at) && w.start(x) > at ==> NoneLater(w, l + [x], w.start(x))
    ensures l == [] ==> NoneLater(w, l + [x], w.start(x))
    ensures StartsThen(w, l, at) ==> StartsThen(w, l + [x], at)
    ensures StartsThen(w, l + [x], w.start(x))
  {
    assert x in l + [x];
    if StartsThen(w, l, at) {
      var y :| y in l && w.start(y) == at;
      assert y in l + [x];
    }
  }

  lemma {:induction false} LatestIsLast(w: World, t: Option<int>, s: seq<Sid>)
    requires s != [] && ByStart(w, s) && (t.Some? ==> forall x :: x in s ==> w.start(x) >= t.value)
    ensures Latest(w, t, s) == Some(w.start(s[|s| - 1]))
  {
    var init := s[..|s| - 1];
    if init != [] {
      LatestIsLast(w, t, init);
    }
  }

  lemma JoinInOrder(w: World, whose: seq<Sid>, last: int, toAdd: seq<Sid>)
    requires whose != [] && NoDup(whose) && BySecond(w, whose) && last == Second(w.start(whose[|whose| - 1]))
    requires NoDup(toAdd) && ByStart(w, toAdd) && forall x :: x in toAdd ==> x !in whose && w.start(x) >= last * 1000
    ensures NoDup(whose + toAdd) && BySecond(w, whose + toAdd)
  {
    var l := whose + toAdd;
    forall i, j | 0 <= i < j < |l|
      ensures l[i] != l[j] && Second(w.start(l[i])) <= Second(w.start(l[j]))
    {
      if i < |whose| <= j {
        assert l[j] in toAdd && w.start(l[j]) >= last * 1000;
        assert i == |whose| - 1 || Second(w.start(whose[i])) <= Second(w.start(whose[|whose| - 1]));
      }
    }
  }

  /** What is written for the first time is good, however many sessions it is. */
  lemma FirstObjectIsGood(w: World, s: State, a: Sid, t: Attempt, toAdd: seq<Sid>, parts: seq<seq<Frame>>)
    requires Plan(w, s, a, t, None, toAdd, []) && Members(w, s, a, t) && toAdd != []
    requires PartsOk(s.made, s.cut, toAdd, parts)
    ensures Written(w, s, NewMeta(w, None, toAdd), toAdd, parts)
  {
    hide PartsOk, Extends, Snapshot, NoDup, NewMeta, TrueMeta, Settled;
    assert toAdd[0] in toAdd;
    FirstManifestIsTrue(w, toAdd);
  }

  lemma FirstManifestIsTrue(w: World, toAdd: seq<Sid>)
    requires toAdd != [] && ByStart(w, toAdd) && forall x :: x in toAdd ==> w.rid(x) == w.rid(toAdd[0])
    ensures TrueMeta(w, NewMeta(w, None, toAdd), toAdd)
  {
    hide Latest, StableHeaders;
    assert [] + toAdd == toAdd;
    LatestIsLast(w, None, toAdd);
    assert w.start(toAdd[|toAdd| - 1]) == Latest(w, None, toAdd).value;
  }

  /** Under the cap a manifest names everybody. */
  lemma NamesAll(w: World, m: Meta, whose: seq<Sid>, more: nat)
    requires whose != [] && TrueMeta(w, m, whose) && m.Manifest? && m.parts + more <= MAX_PARTS
    ensures m.sessions == whose && m.parts == |whose|
  {
    hide StableHeaders;
  }

  /** A merge makes a good object of a good one, and its metadata names everybody. */
  lemma MergedObjectIsGood(w: World, s: State, a: Sid, t: Attempt, o: Object, toAdd: seq<Sid>, present: seq<Sid>,
                           parts: seq<seq<Frame>>)
    requires Plan(w, s, a, t, Some(o), toAdd, present) && Members(w, s, a, t) && toAdd != []
    requires PartsOk(s.made, s.cut, o.whose + toAdd, parts) && o.parts <= parts
    ensures var m := NewMeta(w, Some(o), toAdd);
            Written(w, s, m, o.whose + toAdd, parts) && Grows(o, m, o.whose + toAdd, parts)
  {
    hide Latest, NoDup, ByStart, BySecond, Extends, PartsOk, StableHeaders;
    NamesAll(w, o.meta, o.whose, |toAdd|);
    JoinInOrder(w, o.whose, o.meta.last, toAdd);
    LatestIsLast(w, Some(o.meta.last * 1000), toAdd);
    assert (o.whose + toAdd)[|o.whose + toAdd| - 1] == toAdd[|toAdd| - 1];
    SameRecording(w, a, o.meta.rid, o.whose, toAdd);
  }

  /** An id that is the object's own comes out of the metadata as it went in. */
  lemma SameRecording(w: World, a: Sid, rid: string, whose: seq<Sid>, toAdd: seq<Sid>)
    requires whose != [] && rid == w.rid(a) && forall x :: x in toAdd ==> w.rid(x) == w.rid(a)
    requires StableHeaders(w) ==> forall x :: x in whose ==> w.header(w.rid(x)) == rid
    ensures StableHeaders(w) ==> forall x :: x in whose + toAdd ==> w.header(w.rid(x)) == w.header(rid)
  {
    assert whose[0] in whose;
  }

  /** A PUT that is accepted, of a good object or of one that is not the recorder's. */
  lemma PutStep(w: World, s: State, r: Request)
    requires Inv(w, s) && Accepts(s, r)
    requires RequestOk(w, s, r) || (r.whose == [] && !r.meta.Manifest? && r.ifMatch.None?)
    ensures Inv(w, PutAt(s, r)) && Carries(s, PutAt(s, r))
  {
    hide Written, Settled, Grows, PcOk, LateOk, FilesOk, AttemptOk, IsStored, HeldAt;
    var s' := PutAt(s, r);
    PutFacts(w, s, r);
    hide BucketOk, Carries, MemoryKept;
    StillKnown(s, s');
    assert FilesOk(s') by {
      SameCaptures(s, s');
    }
    LateCarries(w, s, s');
    AttemptsStay(w, s, s');
    Preserved(w, s, s');
  }

  lemma SameCaptures(s: State, s': State)
    requires FilesOk(s) && s'.made == s.made && s'.cut == s.cut && s'.files == s.files
    ensures FilesOk(s')
  {
  }

  /** What is known to be held is held still. */
  lemma StillKnown(s: State, s': State)
    requires Known(s) && AudioKept(s) && Carries(s, s') && s' == s.(bucket := s'.bucket, nextEtag := s'.nextEtag)
    ensures Known(s') && AudioKept(s')
  {
    hide Carries, HeldAt;
    forall k, x | HeldAt(s.bucket, k, x)
      ensures HeldAt(s'.bucket, k, x)
    {
      HeldCarries(s, s', k, x);
    }
  }

  lemma PutFacts(w: World, s: State, r: Request)
    requires BucketOk(w, s) && Accepts(s, r)
    requires RequestOk(w, s, r) || (r.whose == [] && !r.meta.Manifest? && r.ifMatch.None?)
    ensures var s' := PutAt(s, r); Carries(s, s') && BucketOk(w, s') && MemoryKept(s, s')
  {
    hide NoDup, BySecond, PartsOk, TrueMeta, Settled, Carries;
    var s' := PutAt(s, r);
    PutCarries(w, s, r);
    forall key | key in s'.bucket
      ensures ObjectOk(w, s', s'.bucket[key])
    {
      if key != r.key {
        ObjectCarries(w, s, s', s.bucket[key]);
      } else if r.whose != [] {
        WrittenCarries(w, s, s', r.meta, r.whose, r.parts);
      }
    }
  }

  lemma PutCarries(w: World, s: State, r: Request)
    requires BucketOk(w, s) && Accepts(s, r)
    requires RequestOk(w, s, r) || (r.whose == [] && !r.meta.Manifest? && r.ifMatch.None?)
    ensures Carries(s, PutAt(s, r)) && MemoryKept(s, PutAt(s, r))
  {
    hide Written, ObjectOk;
  }

  lemma AllAtJoin(bucket: map<Key, Object>, key: Key, a: seq<Sid>, b: seq<Sid>)
    requires AllAt(bucket, key, a) && AllAt(bucket, key, b)
    ensures AllAt(bucket, key, a + b)
  {
    hide HeldAt;
  }

  /** What an attempt sends is good, and grows the object of the snapshot. */
  lemma SentIsGood(w: World, s: State, a: Sid)
    requires Inv(w, s) && CanPut(s, a)
    ensures RequestOk(w, s, Sent(w, s.attempts[a]))
  {
    hide Inv, NewMeta, Members, Written, Grows, PartsOk, NoDup, ByStart, Fits, FallbackKey;
    var t := s.attempts[a];
    Running(w, s, a);
    if t.pc.RawBuilt? || t.pc.remote.None? {
      assert [] + t.pc.toAdd == t.pc.toAdd;
      FirstObjectIsGood(w, s, a, t, t.pc.toAdd, t.pc.parts);
    } else {
      MergedObjectIsGood(w, s, a, t, t.pc.remote.value, t.pc.toAdd, t.pc.present, t.pc.parts);
      SameEtag(w, s, t.key, t.pc.remote.value);
    }
  }

  lemma SameEtag(w: World, s: State, key: Key, o: Object)
    requires Snapshot(w, s, key, o)
    ensures s.bucket[key].etag == o.etag ==> s.bucket[key] == o
  {
  }

  lemma CarriesOn(a: State, b: State, c: State)
    requires Carries(a, b) && Carries(b, c)
    ensures Carries(a, c)
  {
    hide Settled, Extends;
    forall key | key in a.bucket
      ensures key in c.bucket && Extends(a.bucket[key], c.bucket[key])
    {
      ExtendsTransitively(a.bucket[key], b.bucket[key], c.bucket[key]);
    }
  }

  /** Where the attempt is after its PUT, if it hears of it. */
  predicate AfterPut(w: World, s: State, t: Attempt, next: Pc)
    requires t.pc.Built? || t.pc.RawBuilt?
    requires t.pc.toAdd != []
    requires t.pc.Built? && t.pc.remote.Some? ==> t.pc.remote.value.meta.Manifest?
  {
    || next == Stored(StoredBy(t), Sent(w, t).key)
    || (t.pc.Built? && next == Verifying(s.nextEtag, t.pc.toAdd, t.pc.present))
  }

  /** When the object holds everybody the request names, the attempt may go on. */
  lemma AfterPutOk(w: World, s: State, a: Sid, t: Attempt, next: Pc)
    requires (t.pc.Built? || t.pc.RawBuilt?) && PcOk(w, s, a, t) && t.pc.toAdd != []
    requires t.pc.Built? && t.pc.remote.Some? ==> t.pc.remote.value.meta.Manifest?
    requires AllAt(s.bucket, Sent(w, t).key, t.pc.toAdd)
    requires next == Stored(StoredBy(t), Sent(w, t).key)
             || (t.pc.Built? && next.Verifying? && next.toAdd == t.pc.toAdd && next.present == t.pc.present)
    ensures PcOk(w, s, a, t.(pc := next))
  {
    hide NoDup, ByStart, AllAt, PartsOk, NewMeta, FallbackKey, Snapshot, Fits;
    if t.pc.Built? {
      PresentIsHeld(w, s, a, t, t.pc.remote, t.pc.toAdd, t.pc.present);
      AllAtJoin(s.bucket, t.key, t.pc.toAdd, t.pc.present);
    }
  }

  lemma PutHolds(s: State, r: Request, toAdd: seq<Sid>)
    requires forall x :: x in toAdd ==> x in r.whose
    ensures AllAt(PutAt(s, r).bucket, r.key, toAdd)
  {
  }

  lemma PutThenPc(w: World, s: State, a: Sid, r: Request, pc: Pc)
    requires Inv(w, s) && At(s, a) && Open(pc) && Open(s.attempts[a].pc)
    requires RequestOk(w, s, r) && Accepts(s, r) && PcOk(w, PutAt(s, r), a, s.attempts[a].(pc := pc))
    ensures var s' := SetPc(PutAt(s, r), a, pc); Inv(w, s') && Carries(s, s')
  {
    hide Inv, RequestOk, PcOk, Carries, Accepts;
    var put := PutAt(s, r);
    PutStep(w, s, r);
    PcStep(w, put, a, pc);
    CarriesOn(s, put, SetPc(put, a, pc));
  }

  lemma PutThenEnd(w: World, s: State, a: Sid, r: Request)
    requires Inv(w, s) && a in s.attempts && RequestOk(w, s, r) && Accepts(s, r)
    ensures var s' := End(PutAt(s, r), a, false); Inv(w, s') && Carries(s, s')
  {
    hide Inv, RequestOk, Carries, Accepts, End;
    var put := PutAt(s, r);
    PutStep(w, s, r);
    EndStep(w, put, a, false);
    CarriesOn(s, put, End(put, a, false));
  }

  lemma SentNamesToAdd(w: World, t: Attempt)
    requires (t.pc.Built? || t.pc.RawBuilt?) && t.pc.toAdd != []
    requires t.pc.Built? && t.pc.remote.Some? ==> t.pc.remote.value.meta.Manifest?
    ensures forall x :: x in t.pc.toAdd ==> x in Sent(w, t).whose
  {
    hide NewMeta;
  }

  lemma AcceptedKeeps(w: World, s: State, a: Sid, next: Pc)
    requires Inv(w, s) && CanPut(s, a) && Accepts(s, Sent(w, s.attempts[a])) && AfterPut(w, s, s.attempts[a], next)
    ensures var s' := SetPc(PutAt(s, Sent(w, s.attempts[a])), a, next); Inv(w, s') && Carries(s, s')
  {
    hide Inv, Sent, PcOk, Members, Carries, RequestOk, PutAt, Accepts, AllAt;
    var t := s.attempts[a];
    var r := Sent(w, t);
    var put := PutAt(s, r);
    SentIsGood(w, s, a);
    PutStep(w, s, r);
    Running(w, s, a);
    PcCarries(w, s, put, a, t);
    SentNamesToAdd(w, t);
    PutHolds(s, r, t.pc.toAdd);
    AfterPutOk(w, put, a, t, next);
    PutThenPc(w, s, a, r, next);
  }

  /** An equal object holds what was to be stored. */
  lemma EqualHolds(w: World, s: State, t: Attempt)
    requires (t.pc.Built? || t.pc.RawBuilt?) && t.pc.toAdd != []
    requires t.pc.Built? && t.pc.remote.Some? ==> t.pc.remote.value.meta.Manifest?
    requires AlreadyThere(s, Sent(w, t))
    ensures AllAt(s.bucket, Sent(w, t).key, t.pc.toAdd)
  {
    hide NewMeta, FallbackKey;
  }

  lemma EqualKeeps(w: World, s: State, a: Sid)
    requires Inv(w, s) && CanPut(s, a) && AlreadyThere(s, Sent(w, s.attempts[a]))
    ensures var t := s.attempts[a];
            var s' := SetPc(s, a, Stored(StoredBy(t), Sent(w, t).key)); Inv(w, s') && Carries(s, s')
  {
    hide Inv, Sent, PcOk, Members, Carries, AlreadyThere, AllAt;
    var t := s.attempts[a];
    Running(w, s, a);
    EqualHolds(w, s, t);
    AfterPutOk(w, s, a, t, Stored(StoredBy(t), Sent(w, t).key));
    PcStep(w, s, a, Stored(StoredBy(t), Sent(w, t).key));
  }

  /** Create-only or on exactly the snapshot, under the key or raw under the fallback's, the reply possibly lost. */
  lemma PutKeeps(w: World, s: State, a: Sid, replyLost: bool)
    requires Inv(w, s) && CanPut(s, a)
    ensures Inv(w, DoPut(w, s, a, replyLost)) && Carries(s, DoPut(w, s, a, replyLost))
  {
    hide Inv, Carries, PutAt, SetPc, End, Accepts, AlreadyThere, NewMeta, StoredBy, FallbackKey;
    var t := s.attempts[a];
    var r := Sent(w, t);
    if Accepts(s, r) {
      SentIsGood(w, s, a);
      PutThenEnd(w, s, a, r);
      AcceptedKeeps(w, s, a, if r.ifMatch.None? then Stored(StoredBy(t), r.key)
                             else Verifying(s.nextEtag, t.pc.toAdd, t.pc.present));
    } else if AlreadyThere(s, r) && !replyLost {
      EqualKeeps(w, s, a);
    } else {
      EndStep(w, s, a, false);
    }
  }

  lemma SendingKeeps(w: World, s: State, r: Request)
    requires Inv(w, s) && RequestOk(w, s, r)
    ensures var s' := s.(late := s.late + {r}); Inv(w, s') && Carries(s, s')
  {
    hide BucketOk, FilesOk, AudioKept, Known, Locks, AttemptOk, RequestOk, Settled;
    var s' := s.(late := s.late + {r});
    assert Carries(s, s') by {
      LaterCarries(s, s');
    }
    hide Carries;
    BucketCarries(w, s, s');
    forall q | q in s'.late
      ensures RequestOk(w, s', q)
    {
      RequestCarries(w, s, s', q);
    }
    assert FilesOk(s') && AudioKept(s') && Known(s') && Locks(w, s') by {
      LaterKeeps(w, s, s');
    }
    AttemptsKeep(w, s, s');
    Preserved(w, s, s');
  }

  /** Only what the store may still apply has changed. */
  lemma LaterCarries(s: State, s': State)
    requires s' == s.(late := s'.late)
    ensures Carries(s, s') && MemoryKept(s, s')
  {
  }

  lemma LaterKeeps(w: World, s: State, s': State)
    requires s' == s.(late := s'.late) && FilesOk(s) && AudioKept(s) && Known(s) && Locks(w, s)
    ensures FilesOk(s') && AudioKept(s') && Known(s') && Locks(w, s')
  {
  }

  lemma AttemptsKeep(w: World, s: State, s': State)
    requires Inv(w, s) && s' == s.(late := s'.late)
    ensures AttemptsKept(w, s, s')
  {
    hide Inv, Carries, MemoryKept, AttemptOk, AttemptsKept;
    LaterCarries(s, s');
    AttemptsStay(w, s, s');
  }

  lemma PutLateKeeps(w: World, s: State, a: Sid)
    requires Inv(w, s) && CanPut(s, a)
    ensures Inv(w, DoPutLate(w, s, a)) && Carries(s, DoPutLate(w, s, a))
  {
    hide Inv, Carries, End, Sent, RequestOk;
    SentIsGood(w, s, a);
    var r := Sent(w, s.attempts[a]);
    var sent := s.(late := s.late + {r});
    SendingKeeps(w, s, r);
    EndStep(w, sent, a, false);
    CarriesOn(s, sent, End(sent, a, false));
  }

  lemma DroppingKeeps(w: World, s: State, r: Request)
    requires Inv(w, s)
    ensures var s' := s.(late := s.late - {r}); Inv(w, s') && Carries(s, s')
  {
    hide BucketOk, LateOk, FilesOk, AudioKept, Known, Locks, AttemptOk, Carries, MemoryKept, AttemptsKept;
    var s' := s.(late := s.late - {r});
    LaterCarries(s, s');
    BucketCarries(w, s, s');
    LateCarries(w, s, s');
    LaterKeeps(w, s, s');
    AttemptsKeep(w, s, s');
    Preserved(w, s, s');
  }

  /** A request that the store applies after its attempt has given it up does no harm. */
  lemma LandKeeps(w: World, s: State, r: Request)
    requires Inv(w, s) && r in s.late
    ensures Inv(w, DoLand(s, r)) && Carries(s, DoLand(s, r))
  {
    hide Inv, Carries, Accepts, PutAt, RequestOk;
    var done := s.(late := s.late - {r});
    DroppingKeeps(w, s, r);
    if Accepts(s, r) {
      LateIsGood(w, s, r);
      RequestCarries(w, s, done, r);
      SameDoor(s, done, r);
      PutStep(w, done, r);
      CarriesOn(s, done, PutAt(done, r));
    }
  }

  lemma LateIsGood(w: World, s: State, r: Request)
    requires Inv(w, s) && r in s.late
    ensures RequestOk(w, s, r)
  {
    hide RequestOk, BucketOk, FilesOk, AudioKept, Known, Locks, AttemptOk;
  }

  lemma SameDoor(s: State, s': State, r: Request)
    requires s'.bucket == s.bucket
    ensures Accepts(s', r) == Accepts(s, r)
  {
  }

  lemma ForeignPutKeeps(w: World, s: State, key: Key, meta: Meta, parts: seq<seq<Frame>>)
    requires Inv(w, s) && key !in s.bucket && !meta.Manifest?
    ensures var s' := PutAt(s, Request(key, None, meta, [], parts)); Inv(w, s') && Carries(s, s')
  {
    hide Inv;
    PutStep(w, s, Request(key, None, meta, [], parts));
  }

  lemma RawHeld(w: World, s: State, a: Sid, t: Attempt, key: Key)
    requires t.pc.GivenUp? && PcOk(w, s, a, t) && AllAt(s.bucket, key, t.pc.toAdd) && key == FallbackKey(t.key)
    ensures PcOk(w, s, a, t.(pc := Stored(t.pc.toAdd, key)))
  {
    hide NoDup, ByStart;
  }

  /** Whom a manifest lists, its object holds. */
  lemma ListedIsHeld(w: World, s: State, key: Key, x: Sid)
    requires BucketOk(w, s) && ListedAt(s.bucket, key, x)
    ensures HeldAt(s.bucket, key, x)
  {
    hide PartsOk, NoDup, BySecond, StableHeaders, Settled;
    assert ObjectOk(w, s, s.bucket[key]);
  }
}
