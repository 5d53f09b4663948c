/** Runs of the upload protocol that reach what its theorems leave open: an object over the cap, a session in two
    objects, two attempts of one recorder that share a session, objects with more sessions than a list can name. */
module UploadExamples {
  import opened Bytes
  import opened ObjectKeys
  import opened UploadProtocol
  import opened UploadInvariant
  import opened UploadSafety
  import opened UploadConvergence
  import opened UploadProgress

  /** One recorder, one recording, session n starting at second n. */
  ghost function OneRecorder(): (w: World)
  {
    World((x: Sid) => 0, (x: Sid) => "r", (x: Sid) => x * 1000, (id: string) => id)
  }

  const SOUND: Frame := [0xFF]

  function UpTo(n: nat): (s: seq<Sid>)
    ensures |s| == n && (forall i :: 0 <= i < n ==> s[i] == i) && forall x: Sid :: x in s <==> x < n
  {
    if n == 0 then [] else UpTo(n - 1) + [n - 1]
  }

  // ---------------------------------------------------------------------------------------------------------------
  // Stretches of runs
  // ---------------------------------------------------------------------------------------------------------------

  /** A session starts, captures a frame and ends. */
  function RecordOne(x: Sid, key: Key): (steps: seq<Step>)
  {
    [Start(x, key, None)] + [Capture(x, SOUND)] + [Finalize(x)]
  }

  function Recorded(key: Key, n: nat): (steps: seq<Step>)
  {
    if n == 0 then [] else Recorded(key, n - 1) + RecordOne(n - 1, key)
  }

  /** A claimed attempt under a free key, up to where it builds its object ... */
  function Decide(a: Sid): (steps: seq<Step>)
  {
    [Classify(a)] + [Head(a, {})] + [Measure(a, map[])]
  }

  /** ... and on to its PUT. */
  function Upload(a: Sid, replyLost: bool): (steps: seq<Step>)
  {
    Decide(a) + [Build(a)] + [Put(a, replyLost)]
  }

  // ---------------------------------------------------------------------------------------------------------------
  // Recording
  // ---------------------------------------------------------------------------------------------------------------

  /** s with one more recorded session. */
  function WithSession(s: State, x: Sid, key: Key): (s': State)
  {
    s.(made := s.made[x := [SOUND]], files := s.files[x := File([SOUND], false)],
       cards := s.cards[x := Card(Finalized, key, 0, false)],
       mem := s.mem[x := Mem(Finalized, key, 0, false, Waiting)])
  }

  lemma RecordOneIs(w: World, s: State, x: Sid, key: Key)
    requires x !in s.made && w.owner(x) !in s.down
    ensures From(w, s, RecordOne(x, key)) == WithSession(s, x, key)
  {
    hide Then, From, DoStart, DoCapture;
    FromOne(w, s, Start(x, key, None));
    OneMore(w, s, [Start(x, key, None)], Capture(x, SOUND));
    OneMore(w, s, [Start(x, key, None)] + [Capture(x, SOUND)], Finalize(x));
    Starts(w, s, x, key);
    var s1 := DoStart(s, x, key, None);
    Captures(w, s1, x);
    var s2 := DoCapture(s1, x, SOUND);
    Finalizes(w, s2, x);
    Twice(s.made, x, [], [SOUND]);
    Twice(s.files, x, File([], false), File([SOUND], false));
    Twice(s.cards, x, Card(Recording, key, 0, false), Card(Finalized, key, 0, false));
    Twice(s.mem, x, Mem(Recording, key, 0, false, NoLoop), Mem(Finalized, key, 0, false, Waiting));
  }

  lemma Twice<T>(m: map<Sid, T>, x: Sid, first: T, second: T)
    ensures m[x := first][x := second] == m[x := second]
  {
  }

  lemma Starts(w: World, s: State, x: Sid, key: Key)
    requires x !in s.made && w.owner(x) !in s.down
    ensures var s' := DoStart(s, x, key, None);
            && Then(w, s, Start(x, key, None)) == s' && IsRecording(s', x)
            && s' == s.(made := s.made[x := []], files := s.files[x := File([], false)],
                        cards := s.cards[x := Card(Recording, key, 0, false)],
                        mem := s.mem[x := Mem(Recording, key, 0, false, NoLoop)])
  {
  }

  lemma Captures(w: World, s: State, x: Sid)
    requires IsRecording(s, x) && s.made[x] == [] && s.files[x] == File([], false)
    ensures var s' := DoCapture(s, x, SOUND);
            && Then(w, s, Capture(x, SOUND)) == s' && IsRecording(s', x)
            && s' == s.(made := s.made[x := [SOUND]], files := s.files[x := File([SOUND], false)])
  {
    assert [] + [SOUND] == [SOUND];
  }

  lemma Finalizes(w: World, s: State, x: Sid)
    requires IsRecording(s, x)
    ensures var m := s.mem[x];
            Then(w, s, Finalize(x)) == s.(mem := s.mem[x := m.(phase := Finalized, loop := Waiting)],
                                          cards := s.cards[x := Card(Finalized, m.key, m.renames, m.stored)])
  {
    var m := s.mem[x];
    assert Save(Marked(s, x, Finalized), {x}).cards == s.cards[x := Card(Finalized, m.key, m.renames, m.stored)];
  }

  /** The same for each of the sessions 0 to n - 1. */
  function Each<T>(n: nat, value: T): (m: map<Sid, T>)
    ensures forall x: Sid :: x in m <==> x < n
    ensures forall x: Sid :: x in m ==> m[x] == value
  {
    if n == 0 then map[] else Each(n - 1, value)[n - 1 := value]
  }

  /** Sessions 0 to n - 1 have each captured a frame under the key and wait for their upload. */
  function Ready(key: Key, n: nat): (s: State)
  {
    State(map[], 0, {}, Each(n, [SOUND]), {}, Each(n, File([SOUND], false)), Each(n, Card(Finalized, key, 0, false)),
          Each(n, Mem(Finalized, key, 0, false, Waiting)), map[], {})
  }

  lemma ReadyGrows(key: Key, n: nat)
    requires n > 0
    ensures WithSession(Ready(key, n - 1), n - 1, key) == Ready(key, n)
  {
    assert Each(n, [SOUND]) == Each(n - 1, [SOUND])[n - 1 := [SOUND]];
    assert Each(n, File([SOUND], false)) == Each(n - 1, File([SOUND], false))[n - 1 := File([SOUND], false)];
    var card := Card(Finalized, key, 0, false);
    assert Each(n, card) == Each(n - 1, card)[n - 1 := card];
    var waiting := Mem(Finalized, key, 0, false, Waiting);
    assert Each(n, waiting) == Each(n - 1, waiting)[n - 1 := waiting];
    hide Each;
  }

  lemma {:induction false} RecordedIsReady(key: Key, n: nat)
    ensures After(OneRecorder(), Recorded(key, n)) == Ready(key, n)
  {
    hide Then, RecordOne, WithSession;
    if n == 0 {
      assert Ready(key, 0) == Init();
    } else {
      hide After, From, Each;
      var w, before := OneRecorder(), Ready(key, n - 1);
      assert n - 1 !in before.made && w.owner(n - 1) !in before.down;
      assert Recorded(key, n) == Recorded(key, n - 1) + RecordOne(n - 1, key);
      hide Ready, Recorded, OneRecorder;
      AfterFrom(w, Recorded(key, n - 1), RecordOne(n - 1, key));
      RecordedIsReady(key, n - 1);
      RecordOneIs(w, before, n - 1, key);
      ReadyGrows(key, n);
    }
  }

  // ---------------------------------------------------------------------------------------------------------------
  // Uploading to a free key
  // ---------------------------------------------------------------------------------------------------------------

  lemma DecideIs(w: World, s: State, a: Sid)
    requires At(s, a) && s.attempts[a].pc.Claimed? && s.attempts[a].key !in s.bucket
             && AllCaptured(s.files, s.attempts[a].group) && s.attempts[a].group != []
    ensures From(w, s, Decide(a)) == SetPc(s, a, Measured(None, s.attempts[a].group, [], []))
  {
    hide Then, From, AllCaptured;
    DecidesToAdd(w, s, a, {});
  }

  /** What the PUT of a first object leaves. */
  ghost predicate FirstPut(w: World, s: State, a: Sid, replyLost: bool, s': State)
    requires a in s.attempts && s.attempts[a].group != []
  {
    var t := s.attempts[a];
    && s'.bucket == s.bucket[t.key := Object(s.nextEtag, NewMeta(w, None, t.group), t.group, Parts(s.files, t.group))]
    && s'.made == s.made && s'.files == s.files && s'.down == s.down
    && (if replyLost then s'.mem == Looping(s, a, Failing).mem && s'.attempts == s.attempts - {a}
        else s'.mem == s.mem && s'.attempts == s.attempts[a := t.(pc := Stored(t.group, t.key))])
  }

  lemma UploadIs(w: World, s: State, a: Sid, replyLost: bool)
    requires At(s, a) && s.attempts[a].pc.Claimed? && s.attempts[a].key !in s.bucket
             && AllCaptured(s.files, s.attempts[a].group)
    requires s.attempts[a].group != []
    ensures FirstPut(w, s, a, replyLost, From(w, s, Upload(a, replyLost)))
  {
    hide Then, From, NewMeta, Decide;
    var t := s.attempts[a];
    OneMore(w, s, Decide(a), Build(a));
    OneMore(w, s, Decide(a) + [Build(a)], Put(a, replyLost));
    DecideIs(w, s, a);
    var s1 := SetPc(s, a, Measured(None, t.group, [], []));
    var s2 := SetPc(s, a, Built(None, t.group, [], Parts(s.files, t.group)));
    BuildLeads(w, s1, a, t.group);
    PcTwice(s, a, s1.attempts[a].pc, s2.attempts[a].pc);
    PutLeads(w, s2, a, replyLost);
    AttemptTwice(s.attempts, a, t, s2.attempts[a].pc, Stored(t.group, t.key));
    assert t.group + [] == t.group;
  }

  lemma AttemptTwice(attempts: map<Sid, Attempt>, a: Sid, t: Attempt, p: Pc, q: Pc)
    ensures attempts[a := t.(pc := p)][a := t.(pc := q)] == attempts[a := t.(pc := q)]
  {
  }

  lemma BuildLeads(w: World, s: State, a: Sid, group: seq<Sid>)
    requires At(s, a) && s.attempts[a].pc == Measured(None, group, [], []) && group != [] && AllCaptured(s.files, group)
    ensures Then(w, s, Build(a)) == SetPc(s, a, Built(None, group, [], Parts(s.files, group)))
  {
    hide CanBuild, DoBuild, Parts, AllCaptured, SetPc;
    BuildsFirst(s, a, group);
  }

  lemma BuildsFirst(s: State, a: Sid, group: seq<Sid>)
    requires At(s, a) && s.attempts[a].pc == Measured(None, group, [], []) && group != [] && AllCaptured(s.files, group)
    ensures CanBuild(s, a) && DoBuild(s, a) == SetPc(s, a, Built(None, group, [], Parts(s.files, group)))
  {
    var none: seq<seq<Frame>> := [];
    assert none + Parts(s.files, group) == Parts(s.files, group);
  }

  lemma PutLeads(w: World, s: State, a: Sid, replyLost: bool)
    requires At(s, a) && s.attempts[a].pc.Built? && s.attempts[a].pc.remote.None? && s.attempts[a].pc.toAdd != []
    requires s.attempts[a].key !in s.bucket
    ensures CanPut(s, a) && Then(w, s, Put(a, replyLost)) == DoPut(w, s, a, replyLost)
    ensures var t := s.attempts[a];
            var put := PutAt(s, Request(t.key, None, NewMeta(w, None, t.pc.toAdd), t.pc.toAdd, t.pc.parts));
            DoPut(w, s, a, replyLost) ==
              if replyLost then End(put, a, false) else SetPc(put, a, Stored(t.pc.toAdd + t.pc.present, t.key))
  {
    hide NewMeta, PutAt, End;
    assert [] + s.attempts[a].pc.toAdd == s.attempts[a].pc.toAdd;
  }

  // ---------------------------------------------------------------------------------------------------------------
  // Up to the cap
  // ---------------------------------------------------------------------------------------------------------------

  /** n sessions, each uploaded by an attempt of its own before the next one starts. */
  function OneByOne(key: Key, n: nat): (steps: seq<Step>)
  {
    if n == 0 then []
    else OneByOne(key, n - 1) + RecordOne(n - 1, key) + WholeAttempt(n - 1, [n - 1], n > 1, {})
  }

  /** n sessions are stored in one object, completed, and their captures removed. */
  ghost predicate Archived(s: State, key: Key, n: nat) {
    && s.attempts == map[] && s.down == {} && s.files == map[] && s.made == Each(n, [SOUND])
    && s.mem == Each(n, Mem(Uploaded, key, 0, true, NoLoop))
    && (n == 0 ==> s.bucket == map[])
    && (n > 0 ==> s.bucket.Keys == {key} && Holds(s.bucket[key], n))
  }

  predicate Holds(o: Object, n: nat)
    requires n > 0
  {
    && o.whose == UpTo(n) && o.meta == Manifest("r", UpTo(n), n, n - 1)
    && |o.parts| == n && forall i :: 0 <= i < n ==> o.parts[i] == [SOUND]
  }

  lemma NextMayFollow(s: State, key: Key, n: nat)
    requires Archived(s, key, n) && n < 20
    ensures LetsIn(OneRecorder(), n, Lookup(s, key), [n])
  {
    hide UpTo, Each;
  }

  lemma NextCanClaim(s: State, key: Key, n: nat)
    requires Archived(s, key, n)
    ensures CanClaim(OneRecorder(), WithSession(s, n, key), n, [n])
  {
    hide UpTo, Each, Holds;
    assert NoDup([n]) && ByStart(OneRecorder(), [n]);
    hide NoDup, ByStart;
  }

  lemma NextHolds(o: Option<Object>, files: map<Sid, File>, n: nat)
    requires n < 20 && (if n == 0 then o == None else o.Some? && Holds(o.value, n))
    requires n in files && files[n].frames == [SOUND]
    ensures Holds(Object(0, NewMeta(OneRecorder(), o, [n]), Whose(o) + [n], StoredParts(o) + Parts(files, [n])), n + 1)
  {
    var none: seq<Sid>, one := [], [n];
    assert one[..0] == none && none + one == one;
    assert UpTo(n + 1) == UpTo(n) + [n];
    var before := if n > 0 then Some((n - 1) * 1000) else None;
    assert Latest(OneRecorder(), before, one[..0]) == before;
    assert Latest(OneRecorder(), before, one) == Some(n * 1000);
    hide UpTo;
  }

  lemma NextArchived(s: State, key: Key, n: nat, s': State)
    requires Archived(s, key, n) && n < 20 && LetsIn(OneRecorder(), n, Lookup(s, key), [n])
    requires Succeeded(OneRecorder(), WithSession(s, n, key), n, [n], s')
    ensures Archived(s', key, n + 1)
  {
    hide LetsIn, Holds, UpTo, NewMeta, Parts;
    var s1 := WithSession(s, n, key);
    NextHolds(Lookup(s, key), s1.files, n);
    assert s'.mem == Each(n + 1, Mem(Uploaded, key, 0, true, NoLoop)) by {
      hide Each;
    }
    assert s'.made == Each(n + 1, [SOUND]);
    assert n in [n];
    HoldsAnyEtag(s'.bucket[key], 0, n + 1);
  }

  lemma HoldsAnyEtag(o: Object, etag: nat, n: nat)
    requires n > 0
    ensures Holds(o.(etag := etag), n) <==> Holds(o, n)
  {
  }

  /** Up to twenty sessions, uploaded one by one, end up in one object, in order, all listed, each a part of its own. */
  lemma {:induction false} GrowsToTheCap(key: Key, n: nat)
    requires n <= 20
    ensures Archived(After(OneRecorder(), OneByOne(key, n)), key, n)
  {
    hide After, Then, From, RecordOne, WholeAttempt, Archived, WithSession, OneRecorder, Succeeded, LetsIn, CanClaim;
    var w := OneRecorder();
    if n == 0 {
      NothingArchived(key);
    } else {
      var m := n - 1;
      var r := OneByOne(key, m);
      GrowsToTheCap(key, m);
      var s := After(w, r);
      NextIsNew(s, key, m);
      AfterFrom(w, r, RecordOne(m, key));
      RecordOneIs(w, s, m, key);
      AfterFrom(w, r + RecordOne(m, key), WholeAttempt(m, [m], m > 0, {}));
      NextMayFollow(s, key, m);
      NextCanClaim(s, key, m);
      NextSession(s, key, m);
      AttemptSucceeds(w, WithSession(s, m, key), m, [m], {});
      NextArchived(s, key, m, After(w, OneByOne(key, n)));
    }
  }

  /** The twenty-first does not fit: its attempt moves it to the next name, and the object stays as it is. */
  lemma TwentyFirstMoves(key: Key)
    ensures var w, r := OneRecorder(), OneByOne(key, 20) + RecordOne(20, key);
            var s, s' := After(w, r), After(w, r + [Claim(20, [20], {})] + [Classify(20)] + [Head(20, {})]);
            && s'.bucket == s.bucket && s'.files == s.files
            && 20 in s'.mem && s'.mem[20] == Mem(Finalized, RenamedKey(key, 0), 1, false, Failing)
  {
    hide After, Then, From, RecordOne, Archived, WithSession, OneRecorder, CanClaim, Underway, MembersAre, Inv,
      OneByOne,
      Classification;
    var w := OneRecorder();
    var r0 := OneByOne(key, 20);
    var r1 := r0 + RecordOne(20, key);
    var r2 := r1 + [Claim(20, [20], {})];
    var r3 := r2 + [Classify(20)];
    GrowsToTheCap(key, 20);
    var s := After(w, r0);
    NextIsNew(s, key, 20);
    AfterFrom(w, r0, RecordOne(20, key));
    RecordOneIs(w, s, 20, key);
    NextCanClaim(s, key, 20);
    NextSession(s, key, 20);
    OneStep(w, r1, Claim(20, [20], {}));
    ClaimIs(w, After(w, r1), 20, [20], {});
    ClaimedAs(After(w, r1), 20, [20], Claimed, After(w, r2));
    OneStep(w, r2, Classify(20));
    ClassifyAll(w, After(w, r2), 20);
    OneStep(w, r3, Head(20, {}));
    Always(w, r3);
    HeadDecides(w, After(w, r3), 20, {});
    FullIsRefused(s, key, After(w, r2), After(w, r3));
  }

  lemma FullIsRefused(s: State, key: Key, s2: State, s3: State)
    requires Archived(s, key, 20)
    requires var s1 := WithSession(s, 20, key);
             && Underway(s1, 20, [20], Claimed, s2) && MembersAre(s1, 20, [20], Uploading, Attempting, s2.mem)
             && s2.bucket == s1.bucket && At(s2, 20) && s3 == SetPc(s2, 20, Classified([20], [], []))
    ensures key in s3.bucket
    ensures var o := s3.bucket[key];
            && o.meta.Manifest? && o.meta.rid == OneRecorder().rid(20)
            && !MayMerge(OneRecorder(), o, Unlisted(o, [20])) && Unlisted(o, []) == {}
    ensures var s' := Renamed(s3, 20, {});
            && s'.bucket == s.bucket && s'.files == WithSession(s, 20, key).files
            && 20 in s'.mem && s'.mem[20] == Mem(Finalized, RenamedKey(key, 0), 1, false, Failing)
  {
    hide RenamedKey, UpTo, Each;
    var o := s3.bucket[key];
    assert 20 in [20] && Unlisted(o, [20]) == {20};
    assert [20][..0] == [];
    assert MaxRenames(s3, [20][..0]) == 0;
    assert MaxRenames(s3, [20]) == 0;
  }

  lemma NothingArchived(key: Key)
    ensures Archived(After(OneRecorder(), OneByOne(key, 0)), key, 0)
  {
  }

  lemma NextIsNew(s: State, key: Key, n: nat)
    requires Archived(s, key, n)
    ensures n !in s.made && OneRecorder().owner(n) !in s.down
    ensures Lookup(s, key).Some? <==> n > 0
  {
    hide Holds;
  }

  lemma NextSession(s: State, key: Key, n: nat)
    requires Archived(s, key, n)
    ensures var s' := WithSession(s, n, key);
            n in s'.mem && s'.mem[n].key == key && s'.bucket == s.bucket && AllCaptured(s'.files, [n])
  {
    hide Holds;
  }

  // ---------------------------------------------------------------------------------------------------------------
  // Over the cap
  // ---------------------------------------------------------------------------------------------------------------

  /** n sessions that were all waiting when the object was first stored. */
  function FirstObject(key: Key, n: nat): (steps: seq<Step>)
  {
    Recorded(key, n) + [Claim(0, UpTo(n), {})] + Upload(0, false)
  }

  /** Every session is in the same state of waiting. */
  predicate AllWaiting(s: State, n: nat, m: Mem) {
    s.mem == Each(n, m) && s.attempts == map[] && (m.phase == Finalized || m.phase == Uploading) && m.loop == Waiting
  }

  lemma CanClaimAll(s: State, n: nat, m: Mem, a: Sid)
    requires AllWaiting(s, n, m) && a < n
    ensures CanClaim(OneRecorder(), s, a, UpTo(n))
  {
    hide UpTo, Each;
    assert NoDup(UpTo(n)) && ByStart(OneRecorder(), UpTo(n));
    hide NoDup, ByStart;
  }

  lemma ReadyIsClaimable(key: Key, n: nat, a: Sid)
    requires a < n
    ensures CanClaim(OneRecorder(), Ready(key, n), a, UpTo(n))
  {
    CanClaimAll(Ready(key, n), n, Mem(Finalized, key, 0, false, Waiting), a);
  }

  lemma ClaimReady(key: Key, n: nat, a: Sid)
    requires a < n
    ensures var s' := Then(OneRecorder(), Ready(key, n), Claim(a, UpTo(n), {}));
            && s' == DoClaim(Ready(key, n), a, UpTo(n), {})
            && a in s'.mem && s'.attempts == map[a := Attempt(key, UpTo(n), Claimed)] && s'.bucket == map[]
            && AllCaptured(s'.files, UpTo(n))
  {
    hide CanClaim, Save, UpTo, Each;
    ReadyIsClaimable(key, n, a);
    assert forall x :: x in UpTo(n) ==> Ready(key, n).files[x] == File([SOUND], false);
  }

  /** The cap is no limit for a first object: it holds as many sessions as were waiting. Its manifest names up to 113 of
      them, and of more than 114 it is contradictory. */
  lemma FirstObjectHoldsAll(key: Key, n: nat)
    requires n > 0
    ensures var s := After(OneRecorder(), FirstObject(key, n));
            && key in s.bucket && s.bucket[key].whose == UpTo(n) && |s.bucket[key].parts| == n
            && (if n > NAMED + 1 then s.bucket[key].meta == Broken
                else
                  s.bucket[key].meta.Manifest? && s.bucket[key].meta.sessions == UpTo(if n > NAMED then NAMED else n)
                  && s.bucket[key].meta.parts == n)
  {
    var w := OneRecorder();
    hide After, Then, From, Recorded, OneRecorder, Upload, Ready, Latest;
    AfterFrom(w, Recorded(key, n) + [Claim(0, UpTo(n), {})], Upload(0, false));
    AfterFrom(w, Recorded(key, n), [Claim(0, UpTo(n), {})]);
    FromOne(w, After(w, Recorded(key, n)), Claim(0, UpTo(n), {}));
    RecordedIsReady(key, n);
    ClaimReady(key, n, 0);
    UploadIs(w, DoClaim(Ready(key, n), 0, UpTo(n), {}), 0, false);
    assert [] + UpTo(n) == UpTo(n);
    NamedUpTo(n);
  }

  lemma NamedUpTo(n: nat)
    ensures Named(UpTo(n)) == UpTo(if n > NAMED then NAMED else n)
  {
    hide UpTo;
  }

  // ---------------------------------------------------------------------------------------------------------------
  // Two sessions of one recorder
  // ---------------------------------------------------------------------------------------------------------------

  /** Sessions 0 and 1 as they are in memory, no attempt running, both captures there. */
  predicate Two(s: State, m0: Mem, m1: Mem) {
    s.mem == map[0 := m0, 1 := m1] && s.attempts == map[] && AllCaptured(s.files, [0, 1])
  }

  lemma ClaimTwo(s: State, a: Sid, m0: Mem, m1: Mem)
    requires Two(s, m0, m1) && a < 2 && Pending(m0.phase) && Pending(m1.phase) && m0.key == m1.key
             && s.mem[a].loop == Waiting
    ensures var s' := Then(OneRecorder(), s, Claim(a, [0, 1], {}));
            && s' == s.(mem := s'.mem, attempts := map[a := Attempt(m0.key, [0, 1], Claimed)])
            && s'.mem == (if a == 0
                          then map[0 := m0.(phase := Uploading, loop := Attempting), 1 := m1.(phase := Uploading)]
                          else map[0 := m0.(phase := Uploading), 1 := m1.(phase := Uploading, loop := Attempting)])
  {
    CanClaimTwo(s, a, m0, m1);
    hide CanClaim, OneRecorder, DoClaim;
    DoClaimTwo(s, a, m0, m1);
  }

  lemma DoClaimTwo(s: State, a: Sid, m0: Mem, m1: Mem)
    requires s.mem == map[0 := m0, 1 := m1] && s.attempts == map[] && a < 2 && m0.key == m1.key
    ensures var s' := DoClaim(s, a, [0, 1], {});
            && s' == s.(mem := s'.mem, attempts := map[a := Attempt(m0.key, [0, 1], Claimed)])
            && s'.mem == (if a == 0
                          then map[0 := m0.(phase := Uploading, loop := Attempting), 1 := m1.(phase := Uploading)]
                          else map[0 := m0.(phase := Uploading), 1 := m1.(phase := Uploading, loop := Attempting)])
  {
    hide AllCaptured, InUpload, Looping, Save;
    var s1 := InUpload(s, [0, 1]);
    var s2 := Looping(s1, a, Attempting);
    InUploadTwo(s, m0, m1);
    LoopingTwo(s1, a, m0.(phase := Uploading), m1.(phase := Uploading));
    SaveNone(s2, {} * Elements([0, 1]));
  }

  lemma InUploadTwo(s: State, m0: Mem, m1: Mem)
    requires s.mem == map[0 := m0, 1 := m1]
    ensures InUpload(s, [0, 1]).mem == map[0 := m0.(phase := Uploading), 1 := m1.(phase := Uploading)]
  {
  }

  lemma LoopingTwo(s: State, a: Sid, m0: Mem, m1: Mem)
    requires s.mem == map[0 := m0, 1 := m1] && a < 2
    ensures Looping(s, a, Attempting).mem == (if a == 0 then map[0 := m0.(loop := Attempting), 1 := m1]
                                              else map[0 := m0, 1 := m1.(loop := Attempting)])
  {
  }

  lemma CanClaimTwo(s: State, a: Sid, m0: Mem, m1: Mem)
    requires Two(s, m0, m1) && a < 2 && Pending(m0.phase) && Pending(m1.phase) && m0.key == m1.key
             && s.mem[a].loop == Waiting
    ensures CanClaim(OneRecorder(), s, a, [0, 1])
  {
    assert NoDup([0, 1]) && ByStart(OneRecorder(), [0, 1]);
    hide NoDup, ByStart;
  }

  /** An attempt fails before it has stored anything. */
  lemma AbortTwo(w: World, s: State, m0: Mem, m1: Mem, t: Attempt)
    requires s.mem == map[0 := m0, 1 := m1] && s.attempts == map[1 := t] && AllCaptured(s.files, [0, 1])
    ensures var s' := Then(w, s, Abort(1));
            s' == s.(mem := s'.mem, attempts := map[]) && Two(s', m0, m1.(loop := Failing))
  {
  }

  // ---------------------------------------------------------------------------------------------------------------
  // A session in two attempts
  // ---------------------------------------------------------------------------------------------------------------

  /** Up to the second claim: session 0's attempt holds both sessions. */
  function BothClaimed(key: Key): (steps: seq<Step>)
  {
    Recorded(key, 2) + [Claim(1, [0, 1], {})] + [Abort(1)] + [Claim(0, [0, 1], {})]
  }

  /** Session 1's attempt fails; session 0's attempt stores both by the raw fallback; before it removes the captures,
      session 1's loop comes round, marks its session for a retry without a look at its state, and claims it under the
      fallback's key. */
  function SharedSession(key: Key): (steps: seq<Step>)
  {
    BothClaimed(key) + Decide(0) + RawFallback(0) + [Retry(1, true, {})] + [Claim(1, [1], {})]
  }

  function RawFallback(a: Sid): (steps: seq<Step>)
  {
    [GiveUpBuild(a, {})] + [HeadRaw(a, {})] + [Put(a, false)] + [Complete(a)]
  }

  lemma FallbackIsElsewhere(key: Key)
    ensures FallbackKey(key) != key
  {
    if |key| >= 4 && key[|key| - 4..] == OBJECT_EXT {
      assert key[|key| - 1] == OBJECT_EXT[3];
      assert FallbackKey(key)[|key| - 1] == ".aac"[3];
    }
  }

  /** What a raw fallback leaves of an attempt under a free fallback key. */
  ghost predicate FellBack(s: State, a: Sid, s': State)
    requires a in s.attempts
  {
    var raw := FallbackKey(s.attempts[a].key);
    && s'.mem == Completed(s, s.attempts[a].group, raw).mem
    && s'.attempts == s.attempts[a := s.attempts[a].(pc := Writing(s.attempts[a].group, raw, false))]
  }

  lemma RawFallbackIs(w: World, s: State, a: Sid, group: seq<Sid>)
    requires At(s, a) && s.attempts[a].pc == Measured(None, group, [], []) && group != []
             && s.attempts[a].group == group
    requires AllCaptured(s.files, group) && FallbackKey(s.attempts[a].key) !in s.bucket
    ensures FellBack(s, a, From(w, s, RawFallback(a)))
  {
    hide Then, From, FallbackKey, NewMeta, Completed;
    var raw := FallbackKey(s.attempts[a].key);
    FromOne(w, s, GiveUpBuild(a, {}));
    OneMore(w, s, [GiveUpBuild(a, {})], HeadRaw(a, {}));
    OneMore(w, s, [GiveUpBuild(a, {})] + [HeadRaw(a, {})], Put(a, false));
    OneMore(w, s, [GiveUpBuild(a, {})] + [HeadRaw(a, {})] + [Put(a, false)], Complete(a));
    var s1 := SetPc(s, a, GivenUp(group));
    var s2 := SetPc(s, a, RawBuilt(group, Parts(s.files, group)));
    var r := Request(raw, None, NewMeta(w, None, group), group, Parts(s.files, group));
    var s3 := SetPc(PutAt(s, r), a, Stored(group, raw));
    GiveUpLeads(w, s, a, group);
    HeadRawLeads(w, s1, a, group);
    PcTwice(s, a, GivenUp(group), s2.attempts[a].pc);
    PutRawLeads(w, s2, a, group);
    CompleteLeads(w, s3, a, DoComplete(s3, a));
    SameCompletion(s, s3, group, raw);
    assert s3.attempts == s.attempts[a := s.attempts[a].(pc := Stored(group, raw))];
    assert DoComplete(s3, a).attempts == s.attempts[a := s.attempts[a].(pc := Writing(group, raw, false))];
    assert Then(w, s2, Put(a, false)) == s3;
  }

  lemma GiveUpLeads(w: World, s: State, a: Sid, group: seq<Sid>)
    requires At(s, a) && s.attempts[a].pc == Measured(None, group, [], []) && group != []
    ensures Then(w, s, GiveUpBuild(a, {})) == SetPc(s, a, GivenUp(group))
  {
    hide Renamed;
  }

  lemma HeadRawLeads(w: World, s: State, a: Sid, group: seq<Sid>)
    requires At(s, a) && s.attempts[a].pc == GivenUp(group) && AllCaptured(s.files, group)
             && FallbackKey(s.attempts[a].key) !in s.bucket
    ensures Then(w, s, HeadRaw(a, {})) == SetPc(s, a, RawBuilt(group, Parts(s.files, group)))
  {
    hide Renamed, FallbackKey, Parts;
  }

  lemma PutRawLeads(w: World, s: State, a: Sid, group: seq<Sid>)
    requires At(s, a) && s.attempts[a].pc.RawBuilt? && s.attempts[a].pc.toAdd == group && group != []
    requires FallbackKey(s.attempts[a].key) !in s.bucket
    ensures var t := s.attempts[a];
            var r := Request(FallbackKey(t.key), None, NewMeta(w, None, group), group, t.pc.parts);
            Then(w, s, Put(a, false)) == SetPc(PutAt(s, r), a, Stored(group, r.key))
  {
    hide FallbackKey, NewMeta, End, PutAt;
  }

  lemma CompletedTwo(s: State, m0: Mem, m1: Mem, key: Key)
    requires s.mem == map[0 := m0, 1 := m1]
    ensures Completed(s, [0, 1], key).mem == map[0 := m0.(key := key, stored := true, phase := Uploaded),
                                                 1 := m1.(key := key, stored := true, phase := Uploaded)]
  {
  }

  /** The loop of session 1 comes round and marks its session, whatever it finds. */
  lemma RetryTwo(w: World, s: State, m0: Mem, m1: Mem, mark: bool)
    requires s.mem == map[0 := m0, 1 := m1] && m1.loop == Failing
    ensures Then(w, s, Retry(1, mark, {})) ==
              s.(mem := map[0 := m0, 1 := m1.(loop := Waiting, phase := if mark then Finalized else m1.phase)])
  {
    SaveNone(Marked(Looping(s, 1, Waiting), 1, Finalized), {} * {1});
    hide Save;
  }

  lemma ClaimAlone(s: State, m0: Mem, m1: Mem, t: Attempt)
    requires s.mem == map[0 := m0, 1 := m1] && s.attempts == map[0 := t]
    requires m0.phase == Uploaded && Pending(m1.phase) && m1.loop == Waiting && t.key != m1.key
    ensures Then(OneRecorder(), s, Claim(1, [1], {})).attempts == map[0 := t, 1 := Attempt(m1.key, [1], Claimed)]
  {
    var w := OneRecorder();
    assert NoDup([1]) && ByStart(w, [1]);
    hide NoDup, ByStart, Save, InUpload, Looping;
    assert CanClaim(w, s, 1, [1]);
  }

  lemma BothClaimedIs(key: Key)
    ensures var s := After(OneRecorder(), BothClaimed(key));
            var busy := Mem(Uploading, key, 0, false, Attempting);
            s.mem == map[0 := busy, 1 := busy.(loop := Failing)]
            && s.attempts == map[0 := Attempt(key, [0, 1], Claimed)]
            && s.bucket == map[] && AllCaptured(s.files, [0, 1])
  {
    hide After, Then, Recorded, OneRecorder, Ready, AllCaptured;
    var w := OneRecorder();
    var r0 := Recorded(key, 2);
    var r1 := r0 + [Claim(1, [0, 1], {})];
    var r2 := r1 + [Abort(1)];
    var waiting := Mem(Finalized, key, 0, false, Waiting);
    var busy := Mem(Uploading, key, 0, false, Waiting);
    RecordedIsReady(key, 2);
    ReadyIsTwo(key);
    OneStep(w, r0, Claim(1, [0, 1], {}));
    ClaimTwo(After(w, r0), 1, waiting, waiting);
    OneStep(w, r1, Abort(1));
    AbortTwo(w, After(w, r1), busy, busy.(loop := Attempting), Attempt(key, [0, 1], Claimed));
    OneStep(w, r2, Claim(0, [0, 1], {}));
    ClaimTwo(After(w, r2), 0, busy, busy.(loop := Failing));
  }

  /** Two attempts of one recorder do come to share a session. */
  lemma TwoAttemptsShare(key: Key)
    ensures After(OneRecorder(), SharedSession(key)).attempts ==
              map[0 := Attempt(key, [0, 1], Writing([0, 1], FallbackKey(key), false)),
                  1 := Attempt(FallbackKey(key), [1], Claimed)]
  {
    hide After, Then, From, BothClaimed, OneRecorder, Decide, RawFallback, AllCaptured, FallbackKey, Completed;
    var w := OneRecorder();
    var r3 := BothClaimed(key);
    var r4 := r3 + Decide(0);
    var r5 := r4 + RawFallback(0);
    var raw := FallbackKey(key);
    BothClaimedIs(key);
    AfterFrom(w, r3, Decide(0));
    DecideIs(w, After(w, r3), 0);
    AfterFrom(w, r4, RawFallback(0));
    RawFallbackIs(w, After(w, r4), 0, [0, 1]);
    var busy := Mem(Uploading, key, 0, false, Attempting);
    var done := Mem(Uploaded, raw, 0, true, Attempting);
    CompletedTwo(After(w, r4), busy, busy.(loop := Failing), raw);
    OneStep(w, r5, Retry(1, true, {}));
    RetryTwo(w, After(w, r5), done, done.(loop := Failing), true);
    OneStep(w, r5 + [Retry(1, true, {})], Claim(1, [1], {}));
    FallbackIsElsewhere(key);
    ClaimAlone(After(w, r5 + [Retry(1, true, {})]), done, done.(phase := Finalized, loop := Waiting),
               Attempt(key, [0, 1], Writing([0, 1], raw, false)));
  }

  lemma ReadyIsTwo(key: Key)
    ensures var m := Mem(Finalized, key, 0, false, Waiting);
            Two(Ready(key, 2), m, m) && Ready(key, 2).bucket == map[] && Ready(key, 2).down == {}
  {
    var m := Mem(Finalized, key, 0, false, Waiting);
    hide Each;
    assert forall x :: x in [0, 1] ==> Ready(key, 2).files[x] == File([SOUND], false);
  }

  // ---------------------------------------------------------------------------------------------------------------
  // A session in two objects
  // ---------------------------------------------------------------------------------------------------------------

  /** Session 0 is stored, but the reply is lost; session 1 of the same recording follows. */
  function ReplyLost(key: Key): (steps: seq<Step>)
  {
    Recorded(key, 1) + [Claim(0, UpTo(1), {})] + Upload(0, true) + RecordOne(1, key)
  }

  /** The next attempt, session 1's, finds session 0 listed; before it can merge, the group is renamed ... */
  function Escaped(key: Key): (steps: seq<Step>)
  {
    ReplyLost(key) + [Claim(1, [0, 1], {})] + Decide(1) + [Escape(1, {})]
  }

  /** ... and all of it stored again. */
  function TwoObjects(key: Key): (steps: seq<Step>)
  {
    Escaped(key) + [Retry(1, false, {})] + [Claim(1, [0, 1], {})] + Upload(1, false)
  }

  /** The object that lists session 0 alone. */
  ghost predicate ListsTheFirst(bucket: map<Key, Object>, key: Key) {
    bucket.Keys == {key} && bucket[key].meta == Manifest("r", [0], 1, 0)
  }

  lemma ReplyLostIs(key: Key)
    ensures var s := After(OneRecorder(), ReplyLost(key));
            && Two(s, Mem(Uploading, key, 0, false, Failing), Mem(Finalized, key, 0, false, Waiting))
            && ListsTheFirst(s.bucket, key)
  {
    hide After, Then, From, Recorded, OneRecorder, Ready, Upload, RecordOne, UpTo;
    var w := OneRecorder();
    var r0 := Recorded(key, 1);
    var r1 := r0 + [Claim(0, UpTo(1), {})];
    var r2 := r1 + Upload(0, true);
    RecordedIsReady(key, 1);
    OneStep(w, r0, Claim(0, UpTo(1), {}));
    ClaimReady(key, 1, 0);
    AfterFrom(w, r1, Upload(0, true));
    UploadIs(w, After(w, r1), 0, true);
    FirstIsStored(key, After(w, r1), After(w, r2));
    AfterFrom(w, r2, RecordOne(1, key));
    RecordOneIs(w, After(w, r2), 1, key);
  }

  lemma FirstIsStored(key: Key, s: State, s': State)
    requires s == DoClaim(Ready(key, 1), 0, UpTo(1), {}) && FirstPut(OneRecorder(), s, 0, true, s')
    ensures s'.mem == map[0 := Mem(Uploading, key, 0, false, Failing)] && s'.attempts == map[]
            && ListsTheFirst(s'.bucket, key)
    ensures 1 !in s'.made && s'.down == {} && AllCaptured(s'.files, [0])
  {
    hide Save;
    assert UpTo(1) == [0];
    assert s.mem == map[0 := Mem(Uploading, key, 0, false, Attempting)];
    assert Latest(OneRecorder(), None, [0]) == Some(0);
  }

  /** Session 0 is present, session 1 may follow. */
  lemma HeadSecond(s: State, key: Key)
    requires At(s, 1) && s.attempts[1] == Attempt(key, [0, 1], Classified([0, 1], [], []))
             && ListsTheFirst(s.bucket, key)
    ensures Then(OneRecorder(), s, Head(1, {})) == SetPc(s, 1, Decided(Some(s.bucket[key]), [1], [0], []))
  {
    var w, o := OneRecorder(), s.bucket[key];
    var has := Elements([0]);
    assert Pick([0, 1], has) == [0] by {
      PickTwo(has);
    }
    assert Pick([0, 1], Elements([0, 1]) - has) == [1] by {
      PickTwo(Elements([0, 1]) - has);
    }
    assert Pick([], has) == [] == Pick([], Elements([]) - has);
    hide Pick;
    var none: seq<Sid> := [];
    assert [0] + none == [0];
    assert Judge(w, 1, s.attempts[1], Lookup(s, key)) == Proceed(Decided(Some(o), [1], [0], []));
    HeadLeads(w, s, 1, {}, SetPc(s, 1, Decided(Some(o), [1], [0], [])));
  }

  lemma PickTwo(these: set<Sid>)
    ensures Pick([0, 1], these) == (if 0 in these then [0] else []) + (if 1 in these then [1] else [])
  {
    var one: seq<Sid>, two: seq<Sid> := [0], [0, 1];
    assert one[..0] == [];
    assert Pick(one, these) == if 0 in these then [0] else [];
    assert two[..1] == one;
  }

  lemma DecideSecond(s: State, key: Key)
    requires At(s, 1) && s.attempts[1] == Attempt(key, [0, 1], Claimed) && ListsTheFirst(s.bucket, key)
             && AllCaptured(s.files, [0, 1])
    ensures From(OneRecorder(), s, Decide(1)) == SetPc(s, 1, Measured(Some(s.bucket[key]), [1], [0], []))
  {
    hide Then, From, OneRecorder;
    var w, o := OneRecorder(), Some(s.bucket[key]);
    hide ListsTheFirst;
    FromOne(w, s, Classify(1));
    OneMore(w, s, [Classify(1)], Head(1, {}));
    OneMore(w, s, [Classify(1)] + [Head(1, {})], Measure(1, map[]));
    ClassifyAll(w, s, 1);
    var s1 := SetPc(s, 1, Classified([0, 1], [], []));
    HeadSecond(s1, key);
    PcTwice(s, 1, s1.attempts[1].pc, Decided(o, [1], [0], []));
    var s2 := SetPc(s, 1, Decided(o, [1], [0], []));
    MeasureAll(w, s2, 1, o, [1], [0]);
    PcTwice(s, 1, s2.attempts[1].pc, Measured(o, [1], [0], []));
  }

  lemma NoRenames(s: State, m0: Mem, m1: Mem)
    requires s.mem == map[0 := m0, 1 := m1] && m0.renames == m1.renames == 0
    ensures MaxRenames(s, [0, 1]) == 0
  {
    var one: seq<Sid>, two: seq<Sid> := [0], [0, 1];
    assert one[..0] == [];
    assert MaxRenames(s, one) == 0;
    assert two[..1] == one;
  }

  /** The group moves to its first escape name. */
  lemma EscapeTwo(w: World, s: State, m0: Mem, m1: Mem, t: Attempt)
    requires s.mem == map[0 := m0, 1 := m1] && s.attempts == map[1 := t] && t.group == [0, 1]
             && AllCaptured(s.files, [0, 1])
    requires t.pc.Measured? && t.pc.toAdd != [] && t.pc.bad == [] && m0.renames == m1.renames == 0 && !m0.stored
             && !m1.stored
    ensures var s' := Then(w, s, Escape(1, {}));
            var key := RenamedKey(t.key, 0);
            && s'.bucket == s.bucket && s'.nextEtag == s.nextEtag
            && Two(s', m0.(key := key, renames := 1, phase := Finalized),
                   m1.(key := key, renames := 1, phase := Finalized, loop := Failing))
  {
    hide AllCaptured, RenamedKey, Then, Moved, Save, MaxRenames;
    EscapeLeads(w, s, 1);
    NoRenames(s, m0, m1);
    var key := RenamedKey(t.key, 0);
    MovedTwo(s, m0, m1, key);
    var s1 := Moved(s, [0, 1], key, 0);
    SaveNone(s1, {} * Elements([0, 1]));
  }

  lemma EscapeLeads(w: World, s: State, a: Sid)
    requires CanEscape(s, a)
    ensures Then(w, s, Escape(a, {})) == Renamed(s, a, {})
  {
    hide CanEscape, Renamed;
  }

  lemma MovedTwo(s: State, m0: Mem, m1: Mem, key: Key)
    requires s.mem == map[0 := m0, 1 := m1] && !m0.stored && !m1.stored
    ensures Moved(s, [0, 1], key, 0).mem ==
              map[0 := m0.(key := key, renames := 1, phase := Finalized),
                  1 := m1.(key := key, renames := 1, phase := Finalized)]
  {
  }

  /** Both sessions under the escape name, session 1's loop after its failed attempt. */
  lemma EscapedIs(key: Key)
    ensures var s := After(OneRecorder(), Escaped(key));
            var n := Mem(Finalized, RenamedKey(key, 0), 1, false, Failing);
            Two(s, n, n) && ListsTheFirst(s.bucket, key)
  {
    hide After, Then, From, ReplyLost, OneRecorder, Decide, AllCaptured, RenamedKey, ListsTheFirst;
    var w := OneRecorder();
    var r0 := ReplyLost(key);
    var r1 := r0 + [Claim(1, [0, 1], {})];
    var r2 := r1 + Decide(1);
    var m0, m1 := Mem(Uploading, key, 0, false, Failing), Mem(Finalized, key, 0, false, Waiting);
    ReplyLostIs(key);
    OneStep(w, r0, Claim(1, [0, 1], {}));
    ClaimTwo(After(w, r0), 1, m0, m1);
    AfterFrom(w, r1, Decide(1));
    DecideSecond(After(w, r1), key);
    OneStep(w, r2, Escape(1, {}));
    EscapeTwo(w, After(w, r2), m0, m1.(phase := Uploading, loop := Attempting), After(w, r2).attempts[1]);
  }

  /** A session does come to be in two objects. */
  lemma SessionInTwoObjects(key: Key)
    ensures var bucket := After(OneRecorder(), TwoObjects(key)).bucket;
            ListedAt(bucket, key, 0) && ListedAt(bucket, RenamedKey(key, 0), 0) && RenamedKey(key, 0) != key
  {
    hide After, Then, From, Escaped, OneRecorder, Upload, AllCaptured, RenamedKey;
    var w := OneRecorder();
    var r3 := Escaped(key);
    var r4 := r3 + [Retry(1, false, {})];
    var r5 := r4 + [Claim(1, [0, 1], {})];
    var n := Mem(Finalized, RenamedKey(key, 0), 1, false, Failing);
    EscapedIs(key);
    OneStep(w, r3, Retry(1, false, {}));
    RetryTwo(w, After(w, r3), n, n, false);
    OneStep(w, r4, Claim(1, [0, 1], {}));
    ClaimTwo(After(w, r4), 1, n, n.(loop := Waiting));
    AfterFrom(w, r5, Upload(1, false));
    UploadIs(w, After(w, r5), 1, false);
    assert [] + [0, 1] == [0, 1];
  }

  // ---------------------------------------------------------------------------------------------------------------
  // Beyond the reach of the list
  // ---------------------------------------------------------------------------------------------------------------

  /** n sessions are stored at once, but the reply is lost. */
  function LostFirst(key: Key, n: nat): (steps: seq<Step>)
  {
    Recorded(key, n) + [Claim(0, UpTo(n), {})] + Upload(0, true)
  }

  /** The loop comes round, and the next attempt looks at what the first one stored. */
  function Again(n: nat): (steps: seq<Step>)
  {
    [Retry(0, false, {})] + [Claim(0, UpTo(n), {})] + [Classify(0)] + [Head(0, {})]
  }

  /** What a first object of n sessions is. */
  ghost predicate HoldsAll(s: State, key: Key, n: nat) {
    && s.bucket.Keys == {key} && s.bucket[key].whose == UpTo(n) && s.made == Each(n, [SOUND])
    && (n > NAMED + 1 ==> s.bucket[key].meta == Broken)
  }

  lemma ClaimedAll(s: State, n: nat, m: Mem, key: Key)
    requires AllWaiting(s, n, m) && n > 0 && m.key == key && s.files == Each(n, File([SOUND], false))
    ensures var s' := Then(OneRecorder(), s, Claim(0, UpTo(n), {}));
            && s' == s.(mem := s'.mem, attempts := map[0 := Attempt(key, UpTo(n), Claimed)])
            && s'.mem == Each(n, m.(phase := Uploading))[0 := m.(phase := Uploading, loop := Attempting)]
            && AllCaptured(s'.files, UpTo(n))
  {
    hide CanClaim, OneRecorder, UpTo, Each, Save;
    CanClaimAll(s, n, m, 0);
    var marked := InUpload(s, UpTo(n));
    assert marked.mem == Each(n, m.(phase := Uploading));
    SaveNone(Looping(marked, 0, Attempting), {} * Elements(UpTo(n)));
  }

  lemma LostFirstIs(key: Key, n: nat)
    requires n > 0
    ensures var s := After(OneRecorder(), LostFirst(key, n));
            var m := Mem(Uploading, key, 0, false, Waiting);
            && s.mem == Each(n, m)[0 := m.(loop := Failing)] && s.attempts == map[] && HoldsAll(s, key, n)
            && s.files == Each(n, File([SOUND], false))
  {
    hide After, Then, From, Recorded, OneRecorder, Upload, UpTo, Each, Latest, AllCaptured;
    var w := OneRecorder();
    var r0 := Recorded(key, n);
    var r1 := r0 + [Claim(0, UpTo(n), {})];
    RecordedIsReady(key, n);
    OneStep(w, r0, Claim(0, UpTo(n), {}));
    ClaimedAll(Ready(key, n), n, Mem(Finalized, key, 0, false, Waiting), key);
    AfterFrom(w, r1, Upload(0, true));
    UploadIs(w, After(w, r1), 0, true);
    assert [] + UpTo(n) == UpTo(n);
  }

  /** A first object of more than 114 sessions whose reply was lost blocks its group: the captures are all there and the
      object holds them all, but it lists nobody and the next attempt fails without having changed anything; and so will
      every later one (BrokenBlocks). */
  lemma TooManyAreBlocked(key: Key, n: nat)
    requires n > NAMED + 1
    ensures var s := After(OneRecorder(), LostFirst(key, n) + Again(n));
            && HoldsAll(s, key, n) && s.attempts == map[] && s.files == Each(n, File([SOUND], false))
            && 0 in s.mem && s.mem[0].loop == Failing && !s.mem[0].stored
            && forall k, x :: !ListedAt(s.bucket, k, x)
  {
    hide After, Then, From, LostFirst, OneRecorder, Each, UpTo, AllCaptured;
    var w := OneRecorder();
    var s0 := After(w, LostFirst(key, n));
    LostFirstIs(key, n);
    AfterFrom(w, LostFirst(key, n), Again(n));
    FromOne(w, s0, Retry(0, false, {}));
    OneMore(w, s0, [Retry(0, false, {})], Claim(0, UpTo(n), {}));
    OneMore(w, s0, [Retry(0, false, {})] + [Claim(0, UpTo(n), {})], Classify(0));
    OneMore(w, s0, [Retry(0, false, {})] + [Claim(0, UpTo(n), {})] + [Classify(0)], Head(0, {}));
    var m := Mem(Uploading, key, 0, false, Waiting);
    RetryFirst(w, s0, n, m);
    var s1 := s0.(mem := Each(n, m));
    ClaimedAll(s1, n, m, key);
    var s2 := Then(w, s1, Claim(0, UpTo(n), {}));
    ClassifyAll(w, s2, 0);
    BrokenLeads(w, SetPc(s2, 0, Classified(UpTo(n), [], [])), 0, {});
  }

  lemma RetryFirst(w: World, s: State, n: nat, m: Mem)
    requires s.mem == Each(n, m)[0 := m.(loop := Failing)] && n > 0 && m.loop == Waiting
    ensures Then(w, s, Retry(0, false, {})) == s.(mem := Each(n, m))
  {
    hide Each;
    assert s.mem[0 := m] == Each(n, m);
  }

  /** Everything goes well for more than 114 sessions at once: every capture is removed, and nobody is listed, though
      the object holds them all. */
  lemma TooManyAreUnlisted(key: Key, n: nat, x: Sid)
    requires n > NAMED + 1 && x < n
    ensures var s := After(OneRecorder(), FirstObject(key, n) + [Complete(0)] + Finishing(0, n));
            && x in s.made && s.made[x] == [SOUND] && x !in s.files && HeldAt(s.bucket, key, x)
            && forall k, y :: !ListedAt(s.bucket, k, y)
  {
    hide After, Then, From, FirstObject, OneRecorder, Each, UpTo, Finishing, Settling, Completed;
    var w := OneRecorder();
    var r := FirstObject(key, n);
    StoredFirst(key, n);
    var s := After(w, r);
    OneStep(w, r, Complete(0));
    CompleteLeads(w, s, 0, DoComplete(s, 0));
    StillThere(s, UpTo(n), key, 0);
    AfterFrom(w, r + [Complete(0)], Finishing(0, n));
    var done := After(w, r + [Complete(0)]);
    Settles(w, done, 0, UpTo(n), key, n);
    AllSettled(done, 0, UpTo(n), key, From(w, done, Finishing(0, n)));
  }

  lemma StillThere(s: State, members: seq<Sid>, key: Key, x: Sid)
    requires x in s.mem
    ensures x in Completed(s, members, key).mem
  {
  }

  lemma StoredFirst(key: Key, n: nat)
    requires n > 0
    ensures var s := After(OneRecorder(), FirstObject(key, n));
            && At(s, 0) && s.attempts[0].pc == Stored(UpTo(n), key) && HoldsAll(s, key, n)
            && s.files == Each(n, File([SOUND], false))
  {
    hide After, Then, From, Recorded, OneRecorder, Upload, UpTo, Each, Latest, AllCaptured;
    var w := OneRecorder();
    var r0 := Recorded(key, n);
    var r1 := r0 + [Claim(0, UpTo(n), {})];
    RecordedIsReady(key, n);
    OneStep(w, r0, Claim(0, UpTo(n), {}));
    ClaimedAll(Ready(key, n), n, Mem(Finalized, key, 0, false, Waiting), key);
    AfterFrom(w, r1, Upload(0, false));
    UploadIs(w, After(w, r1), 0, false);
    assert [] + UpTo(n) == UpTo(n) == UpTo(n) + [];
  }

  // ---------------------------------------------------------------------------------------------------------------
  // A session without a loop
  // ---------------------------------------------------------------------------------------------------------------

  /** An attempt of session 0 finds session 1 empty and parks it; session 1's own loop may end then; and the group is
      moved. */
  function ParkAndMove(ends: bool): (steps: seq<Step>)
  {
    [Claim(0, [0, 1], {})] + [Classify(0)] + [FailMember(0, {})] + (if ends then [Quit(1)] else []) + [Head(0, {})]
  }

  /** Session 1 never captures anything, and both names its group gets are taken. Its loop gets its lock only on the
      name the group has left by then, and finds the session parked. */
  function Stranding(key: Key): (steps: seq<Step>)
  {
    RecordOne(0, key) + [Start(1, key, None)] + [Finalize(1)] + [ForeignPut(key, Foreign, [])] +
    [ForeignPut(RenamedKey(key, 0), Foreign, [])] + ParkAndMove(false) + [Retry(0, false, {})] + ParkAndMove(true)
  }

  /** Sessions 0, which has captured, and 1, which has not, under a name that is taken; no attempt runs. */
  predicate Blocked(s: State, key: Key, n: nat, l0: Loop, l1: Loop) {
    && s.mem == map[0 := Mem(Finalized, key, n, false, l0), 1 := Mem(Finalized, key, n, false, l1)]
    && s.attempts == map[] && s.files == map[0 := File([SOUND], false), 1 := File([], false)] && s.down == {}
    && key in s.bucket && s.bucket[key].meta == Foreign
  }

  /** The two sessions as the attempt goes on. */
  predicate Parking(s: State, s': State, key: Key, pc: Pc, m0: Mem, m1: Mem) {
    s' == s.(mem := map[0 := m0, 1 := m1], attempts := map[0 := Attempt(key, [0, 1], pc)])
  }

  lemma BlockedClaim(s: State, key: Key, n: nat)
    requires Blocked(s, key, n, Waiting, Waiting)
    ensures Parking(s, Then(OneRecorder(), s, Claim(0, [0, 1], {})), key, Claimed,
                    Mem(Uploading, key, n, false, Attempting), Mem(Uploading, key, n, false, Waiting))
  {
    hide Then;
    BlockedCanClaim(s, key, n);
    hide CanClaim, OneRecorder;
    DoClaimTwo(s, 0, Mem(Finalized, key, n, false, Waiting), Mem(Finalized, key, n, false, Waiting));
    ClaimLeads(OneRecorder(), s, 0, [0, 1]);
  }

  lemma BlockedCanClaim(s: State, key: Key, n: nat)
    requires Blocked(s, key, n, Waiting, Waiting)
    ensures CanClaim(OneRecorder(), s, 0, [0, 1])
  {
    assert NoDup([0, 1]) && ByStart(OneRecorder(), [0, 1]);
    hide NoDup, ByStart;
  }

  lemma ClaimLeads(w: World, s: State, a: Sid, group: seq<Sid>)
    requires CanClaim(w, s, a, group)
    ensures a in s.mem && Then(w, s, Claim(a, group, {})) == DoClaim(s, a, group, {})
  {
    hide DoClaim;
  }

  lemma BlockedClassify(w: World, s: State, s1: State, key: Key, n: nat, m0: Mem, m1: Mem)
    requires Blocked(s, key, n, Waiting, Waiting) && Parking(s, s1, key, Claimed, m0, m1)
    ensures Parking(s, Then(w, s1, Classify(0)), key, Classified([0], [], [1]), m0, m1)
  {
    hide Classification, Parking;
    ClassifyIs(w, s, s1, key, m0, m1);
    OneIsEmpty(s1);
  }

  lemma OneIsEmpty(s: State)
    requires s.files == map[0 := File([SOUND], false), 1 := File([], false)]
    ensures Classification(s, [0, 1]) == Classified([0], [], [1])
  {
    hide Pick;
    var group: seq<Sid> := [0, 1];
    var there := set x | x in group && x in s.files;
    var empty := set x | x in group && x in s.files && s.files[x].Empty();
    assert 0 in group && 1 in group;
    assert there == {0, 1} && empty == {1};
    var none: seq<Sid> := [];
    assert none + [1] == [1] && [0] + none == [0] && none + none == none;
    PickTwo(there - empty);
    PickTwo(Elements(group) - there);
    PickTwo(empty);
    assert Pick(group, there - empty) == [0] && Pick(group, empty) == [1]
           && Pick(group, Elements(group) - there) == none;
  }

  lemma ClassifyIs(w: World, s: State, s1: State, key: Key, m0: Mem, m1: Mem)
    requires Parking(s, s1, key, Claimed, m0, m1)
    ensures Parking(s, Then(w, s1, Classify(0)), key, Classification(s1, [0, 1]), m0, m1)
    ensures s1.files == s.files
  {
    hide Classification;
  }

  lemma BlockedPark(w: World, s: State, s2: State, key: Key, m0: Mem, m1: Mem)
    requires Parking(s, s2, key, Classified([0], [], [1]), m0, m1)
    ensures Parking(s, Then(w, s2, FailMember(0, {})), key, Classified([0], [], []), m0, m1.(phase := Failed))
  {
    hide Save;
    SaveNone(Marked(s2, 1, Failed), {} * {1});
    assert s2.attempts[0].pc.bad[1..] == [];
    assert s2.mem[1 := m1.(phase := Failed)] == map[0 := m0, 1 := m1.(phase := Failed)];
  }

  lemma BlockedQuit(w: World, s: State, s3: State, key: Key, pc: Pc, m0: Mem, m1: Mem)
    requires Parking(s, s3, key, pc, m0, m1) && m1.loop == Waiting && m1.phase == Failed
    ensures Parking(s, Then(w, s3, Quit(1)), key, pc, m0, m1.(loop := NoLoop))
  {
  }

  lemma BlockedMove(w: World, s: State, s4: State, key: Key, n: nat, m0: Mem, m1: Mem)
    requires Parking(s, s4, key, Classified([0], [], []), m0, m1) && n < 3
    requires key in s.bucket && s.bucket[key].meta == Foreign && m0.renames == m1.renames == n && !m0.stored
             && !m1.stored
    ensures var next := RenamedKey(key, n);
            Then(w, s4, Head(0, {})) ==
              s4.(mem := map[0 := m0.(key := next, renames := n + 1, phase := Finalized, loop := Failing),
                             1 := m1.(key := next, renames := n + 1, phase := Finalized)],
                  attempts := map[])
  {
    hide RenamedKey, Judge, Save, MaxRenames, Moved;
    ForeignMoves(w, s4);
    SameRenames(s4, m0, m1, n);
    var next := RenamedKey(key, n);
    MovedBoth(s4, m0, m1, next, n);
    SaveNone(Moved(s4, [0, 1], next, n), {} * Elements([0, 1]));
  }

  lemma ForeignMoves(w: World, s: State)
    requires At(s, 0) && s.attempts[0].pc == Classified([0], [], [])
    requires s.attempts[0].key in s.bucket && s.bucket[s.attempts[0].key].meta == Foreign
    ensures Then(w, s, Head(0, {})) == Renamed(s, 0, {})
  {
    hide Renamed;
  }

  lemma SameRenames(s: State, m0: Mem, m1: Mem, n: nat)
    requires s.mem == map[0 := m0, 1 := m1] && m0.renames == m1.renames == n
    ensures MaxRenames(s, [0, 1]) == n
  {
    var one: seq<Sid>, two: seq<Sid> := [0], [0, 1];
    assert one[..0] == [];
    assert MaxRenames(s, one) == n;
    assert two[..1] == one;
  }

  lemma MovedBoth(s: State, m0: Mem, m1: Mem, key: Key, n: nat)
    requires s.mem == map[0 := m0, 1 := m1] && !m0.stored && !m1.stored
    ensures Moved(s, [0, 1], key, n).mem ==
              map[0 := m0.(key := key, renames := n + 1, phase := Finalized),
                  1 := m1.(key := key, renames := n + 1, phase := Finalized)]
  {
  }

  lemma ParkAndMoveIs(s: State, key: Key, n: nat, ends: bool)
    requires Blocked(s, key, n, Waiting, Waiting) && n < 3
    ensures var next := RenamedKey(key, n);
            From(OneRecorder(), s, ParkAndMove(ends)) ==
              s.(mem := map[0 := Mem(Finalized, next, n + 1, false, Failing),
                            1 := Mem(Finalized, next, n + 1, false, if ends then NoLoop else Waiting)])
  {
    hide Then, From, OneRecorder, RenamedKey;
    var w := OneRecorder();
    var r1, r2: seq<Step> := [Claim(0, [0, 1], {})], [Claim(0, [0, 1], {})] + [Classify(0)];
    var r3 := r2 + [FailMember(0, {})];
    var r4 := r3 + if ends then [Quit(1)] else [];
    FromOne(w, s, Claim(0, [0, 1], {}));
    OneMore(w, s, r1, Classify(0));
    OneMore(w, s, r2, FailMember(0, {}));
    OneMore(w, s, r3, Quit(1));
    OneMore(w, s, r4, Head(0, {}));
    var m0, m1 := Mem(Uploading, key, n, false, Attempting), Mem(Uploading, key, n, false, Waiting);
    BlockedClaim(s, key, n);
    BlockedClassify(w, s, From(w, s, r1), key, n, m0, m1);
    BlockedPark(w, s, From(w, s, r2), key, m0, m1);
    var parked := m1.(phase := Failed);
    BlockedQuit(w, s, From(w, s, r3), key, Classified([0], [], []), m0, parked);
    assert r3 + [] == r3;
    var last := if ends then parked.(loop := NoLoop) else parked;
    BlockedMove(w, s, From(w, s, r4), key, n, m0, last);
  }

  lemma BlockedStart(key: Key)
    ensures var steps := RecordOne(0, key) + [Start(1, key, None)] + [Finalize(1)] + [ForeignPut(key, Foreign, [])] +
                         [ForeignPut(RenamedKey(key, 0), Foreign, [])];
            var s, next := After(OneRecorder(), steps), RenamedKey(key, 0);
            && Blocked(s, key, 0, Waiting, Waiting) && next in s.bucket && s.bucket[next].meta == Foreign
  {
    hide After, Then, From, RecordOne, OneRecorder, RenamedKey;
    var w := OneRecorder();
    var r0 := RecordOne(0, key);
    var r1 := r0 + [Start(1, key, None)];
    var r2 := r1 + [Finalize(1)];
    var r3 := r2 + [ForeignPut(key, Foreign, [])];
    var next := RenamedKey(key, 0);
    NothingYet(w);
    assert [] + r0 == r0;
    AfterFrom(w, [], r0);
    RecordOneIs(w, Init(), 0, key);
    OneStep(w, r0, Start(1, key, None));
    OneOwner(After(w, r0));
    Starts(w, After(w, r0), 1, key);
    OneStep(w, r1, Finalize(1));
    Finalizes(w, After(w, r1), 1);
    TwoRecorded(key, After(w, r2));
    OneStep(w, r2, ForeignPut(key, Foreign, []));
    ForeignAppears(w, After(w, r2), key);
    OneStep(w, r3, ForeignPut(next, Foreign, []));
    NextDiffers(key);
    ForeignAppears(w, After(w, r3), next);
  }

  lemma NothingYet(w: World)
    ensures After(w, []) == Init() && w.owner(0) !in Init().down
  {
  }

  lemma OneOwner(s: State)
    requires s.down == {}
    ensures OneRecorder().owner(1) !in s.down
  {
  }

  lemma TwoRecorded(key: Key, s: State)
    requires s.mem == WithSession(Init(), 0, key).mem[1 := Mem(Recording, key, 0, false, NoLoop)]
                      [1 := Mem(Finalized, key, 0, false, Waiting)]
    ensures s.mem == map[0 := Mem(Finalized, key, 0, false, Waiting), 1 := Mem(Finalized, key, 0, false, Waiting)]
  {
  }

  lemma NextDiffers(key: Key)
    ensures RenamedKey(key, 0) != key
  {
    assert |RenamedKey(key, 0)| > |key|;
  }

  lemma ForeignAppears(w: World, s: State, key: Key)
    requires key !in s.bucket
    ensures var s' := Then(w, s, ForeignPut(key, Foreign, []));
            && s' == s.(bucket := s'.bucket, nextEtag := s'.nextEtag) && s'.bucket.Keys == s.bucket.Keys + {key}
            && s'.bucket[key].meta == Foreign && forall k :: k in s.bucket && k != key ==> s'.bucket[k] == s.bucket[k]
  {
  }

  /** An empty session can come to wait without a loop (NothingIsGivenUp says that only such a one can): it is in memory
      as finalized, and nothing but an attempt of session 0 will look at it again. */
  lemma EmptyIsStranded(key: Key)
    ensures var s := After(OneRecorder(), Stranding(key));
            && 1 in s.mem && s.mem[1].phase == Finalized && s.mem[1].loop == NoLoop
            && 1 in s.files && s.files[1].Empty()
  {
    hide After, Then, From, OneRecorder, RenamedKey, RecordOne, ParkAndMove;
    var w := OneRecorder();
    var r0 := RecordOne(0, key) + [Start(1, key, None)] + [Finalize(1)] + [ForeignPut(key, Foreign, [])] +
              [ForeignPut(RenamedKey(key, 0), Foreign, [])];
    var r1 := r0 + ParkAndMove(false);
    var r2 := r1 + [Retry(0, false, {})];
    var next := RenamedKey(key, 0);
    BlockedStart(key);
    AfterFrom(w, r0, ParkAndMove(false));
    ParkAndMoveIs(After(w, r0), key, 0, false);
    OneStep(w, r1, Retry(0, false, {}));
    RetryZero(w, After(w, r1), Mem(Finalized, next, 1, false, Failing), Mem(Finalized, next, 1, false, Waiting));
    AfterFrom(w, r2, ParkAndMove(true));
    ParkAndMoveIs(After(w, r2), next, 1, true);
  }

  lemma RetryZero(w: World, s: State, m0: Mem, m1: Mem)
    requires s.mem == map[0 := m0, 1 := m1] && m0.loop == Failing
    ensures Then(w, s, Retry(0, false, {})) == s.(mem := map[0 := m0.(loop := Waiting), 1 := m1])
  {
  }

  // ---------------------------------------------------------------------------------------------------------------
  // A repair that is not safe, and a request that comes late
  // ---------------------------------------------------------------------------------------------------------------

  /** A repair can cost a frame that no object will ever hold: two were captured, one is left. */
  lemma UnsafeRepairCuts(key: Key)
    ensures var s := After(OneRecorder(), [Start(0, key, None)] + [Capture(0, SOUND)] + [Capture(0, SOUND)] +
                                          [TrimTail(0, map[0 := File([SOUND], true)])]);
            && 0 in s.made && s.made[0] == [SOUND, SOUND] && 0 in s.files && s.files[0] == File([SOUND], true)
            && 0 in s.cut
  {
    hide After, Then, OneRecorder;
    var w := OneRecorder();
    var r0: seq<Step> := [Start(0, key, None)];
    var r1 := r0 + [Capture(0, SOUND)];
    var r2 := r1 + [Capture(0, SOUND)];
    NothingYet(w);
    OneStep(w, [], Start(0, key, None));
    assert [] + r0 == r0;
    Starts(w, Init(), 0, key);
    OneStep(w, r0, Capture(0, SOUND));
    Captures(w, After(w, r0), 0);
    OneStep(w, r1, Capture(0, SOUND));
    CapturesMore(w, After(w, r1), 0);
    OneStep(w, r2, TrimTail(0, map[0 := File([SOUND], true)]));
    TrimsOne(w, After(w, r2));
  }

  lemma CapturesMore(w: World, s: State, x: Sid)
    requires IsRecording(s, x) && s.made[x] == [SOUND] && s.files[x] == File([SOUND], false)
    ensures var s' := Then(w, s, Capture(x, SOUND));
            && IsRecording(s', x) && s'.made[x] == [SOUND, SOUND] && s'.files[x] == File([SOUND, SOUND], false)
  {
    assert [SOUND] + [SOUND] == [SOUND, SOUND];
  }

  lemma TrimsOne(w: World, s: State)
    requires IsRecording(s, 0) && s.files[0] == File([SOUND, SOUND], false)
    ensures var s' := Then(w, s, TrimTail(0, map[0 := File([SOUND], true)]));
            && s'.made == s.made && 0 in s'.files && s'.files[0] == File([SOUND], true) && 0 in s'.cut
  {
    assert [SOUND] <= [SOUND, SOUND];
    assert |[SOUND]| != |[SOUND, SOUND]|;
  }

  /** The request of session 0's first attempt. */
  ghost function LateRequest(key: Key): (r: Request)
  {
    Request(key, None, NewMeta(OneRecorder(), None, [0]), [0], [[SOUND]])
  }

  /** The first attempt gives its request up; the second is moved to the next name and stores everything there ... */
  function MovedOn(key: Key): (steps: seq<Step>)
  {
    Recorded(key, 1) + [Claim(0, [0], {})] + Decide(0) + [Build(0)] + [PutLate(0)] + [Retry(0, false, {})] +
    [Claim(0, [0], {})] + Decide(0) + [Escape(0, {})] + [Retry(0, false, {})] + WholeAttempt(0, [0], false, {})
  }

  /** Session 0 alone, its capture there, nothing in the bucket. */
  predicate Alone(s: State, m: Mem) {
    && s.mem == map[0 := m] && s.bucket == map[] && s.files == map[0 := File([SOUND], false)]
    && !m.stored
  }

  predicate Idle(s: State, key: Key, n: nat, loop: Loop, phase: Phase) {
    Alone(s, Mem(phase, key, n, false, loop)) && s.attempts == map[]
  }

  lemma AloneCanClaim(s: State, key: Key, n: nat, phase: Phase)
    requires Idle(s, key, n, Waiting, phase) && Pending(phase)
    ensures CanClaim(OneRecorder(), s, 0, [0]) && AllCaptured(s.files, [0])
    ensures 0 in s.mem && s.mem[0].key == key && Lookup(s, key) == None && LetsIn(OneRecorder(), 0, None, [0])
  {
    assert NoDup([0]) && ByStart(OneRecorder(), [0]);
    hide NoDup, ByStart;
  }

  /** The claim and the decision to store. */
  lemma AloneDecides(s: State, key: Key, n: nat, phase: Phase)
    requires Idle(s, key, n, Waiting, phase) && Pending(phase)
    ensures var s' := From(OneRecorder(), Then(OneRecorder(), s, Claim(0, [0], {})), Decide(0));
            && Alone(s', Mem(Uploading, key, n, false, Attempting)) && s'.late == s.late
            && s'.attempts == map[0 := Attempt(key, [0], Measured(None, [0], [], []))]
  {
    hide Then, From, CanClaim, Underway, MembersAre, OneRecorder, AllCaptured, LetsIn;
    var w := OneRecorder();
    AloneCanClaim(s, key, n, phase);
    ClaimIs(w, s, 0, [0], {});
    var s1 := Then(w, s, Claim(0, [0], {}));
    AloneClaimed(s, s1, key, n, phase);
    ClaimedAs(s, 0, [0], Claimed, s1);
    DecideIs(w, s1, 0);
  }

  lemma AloneClaimed(s: State, s1: State, key: Key, n: nat, phase: Phase)
    requires Idle(s, key, n, Waiting, phase) && s1.bucket == s.bucket && 0 in s.mem && 0 in s1.mem
    requires Underway(s, 0, [0], Claimed, s1) && MembersAre(s, 0, [0], Uploading, Attempting, s1.mem)
    ensures Alone(s1, Mem(Uploading, key, n, false, Attempting)) && s1.late == s.late
    ensures s1.attempts == map[0 := Attempt(key, [0], Claimed)] && AllCaptured(s1.files, [0])
  {
    assert 0 in [0];
    assert s1.mem == map[0 := Mem(Uploading, key, n, false, Attempting)];
  }

  lemma AloneSends(s: State, key: Key)
    requires Alone(s, Mem(Uploading, key, 0, false, Attempting))
    requires s.attempts == map[0 := Attempt(key, [0], Measured(None, [0], [], []))] && s.late == {}
    ensures var s' := From(OneRecorder(), s, [Build(0)] + [PutLate(0)]);
            Idle(s', key, 0, Failing, Uploading) && s'.late == {LateRequest(key)}
  {
    hide Then, From, OneRecorder, NewMeta;
    var w := OneRecorder();
    FromOne(w, s, Build(0));
    OneMore(w, s, [Build(0)], PutLate(0));
    assert AllCaptured(s.files, [0]);
    BuildAdds(w, s, 0, None, [0]);
    var none: seq<seq<Frame>> := [];
    assert Parts(s.files, [0]) == [[SOUND]] && none + [[SOUND]] == [[SOUND]];
    SendsLate(w, SetPc(s, 0, Built(None, [0], [], [[SOUND]])), key);
  }

  lemma SendsLate(w: World, s: State, key: Key)
    requires w == OneRecorder() && Alone(s, Mem(Uploading, key, 0, false, Attempting)) && s.late == {}
    requires s.attempts == map[0 := Attempt(key, [0], Built(None, [0], [], [[SOUND]]))]
    ensures var s' := Then(w, s, PutLate(0));
            Idle(s', key, 0, Failing, Uploading) && s'.late == {LateRequest(key)}
  {
    hide OneRecorder, NewMeta;
    var none: seq<Sid> := [];
    assert none + [0] == [0];
    assert Sent(w, s.attempts[0]) == LateRequest(key);
  }

  lemma AloneRetries(w: World, s: State, key: Key, n: nat, phase: Phase)
    requires Idle(s, key, n, Failing, phase)
    ensures var s' := Then(w, s, Retry(0, false, {})); Idle(s', key, n, Waiting, phase) && s'.late == s.late
  {
  }

  lemma AloneEscapes(w: World, s: State, key: Key)
    requires Alone(s, Mem(Uploading, key, 0, false, Attempting))
    requires s.attempts == map[0 := Attempt(key, [0], Measured(None, [0], [], []))]
    ensures var s' := Then(w, s, Escape(0, {}));
            Idle(s', RenamedKey(key, 0), 1, Failing, Finalized) && s'.late == s.late
  {
    hide RenamedKey, Save, Moved, MaxRenames;
    EscapeIs(w, s);
    OneRename(s);
    MovedAlone(s, RenamedKey(key, 0));
    SaveNone(Moved(s, [0], RenamedKey(key, 0), 0), {} * Elements([0]));
  }

  lemma EscapeIs(w: World, s: State)
    requires CanEscape(s, 0)
    ensures Then(w, s, Escape(0, {})) == Renamed(s, 0, {})
  {
    hide Renamed;
  }

  lemma OneRename(s: State)
    requires 0 in s.mem && s.mem[0].renames == 0
    ensures MaxRenames(s, [0]) == 0
  {
    assert [0][..0] == [] && MaxRenames(s, [0][..0]) == 0;
  }

  lemma MovedAlone(s: State, key: Key)
    requires 0 in s.mem && s.mem.Keys == {0} && !s.mem[0].stored
    ensures Moved(s, [0], key, 0).mem == map[0 := s.mem[0].(key := key, renames := 1, phase := Finalized)]
  {
  }

  lemma MovedOnIs(key: Key)
    ensures var s, next := After(OneRecorder(), MovedOn(key)), RenamedKey(key, 0);
            LateRequest(key) in s.late && s.bucket.Keys == {next} && s.bucket[next].whose == [0]
  {
    hide After, Then, From, OneRecorder, Recorded, Ready, Decide, WholeAttempt, RenamedKey, LateRequest, AllCaptured,
      CanClaim, LetsIn;
    var w := OneRecorder();
    var next := RenamedKey(key, 0);
    var r0 := Recorded(key, 1);
    var r1 := r0 + [Claim(0, [0], {})];
    var r2 := r1 + Decide(0);
    var r3 := r2 + ([Build(0)] + [PutLate(0)]);
    var r4 := r3 + [Retry(0, false, {})];
    var r5 := r4 + [Claim(0, [0], {})];
    var r6 := r5 + Decide(0);
    var r7 := r6 + [Escape(0, {})];
    var r8 := r7 + [Retry(0, false, {})];
    assert r2 + [Build(0)] + [PutLate(0)] == r3;
    ReadyAlone(key);
    OneStep(w, r0, Claim(0, [0], {}));
    AfterFrom(w, r1, Decide(0));
    AloneDecides(After(w, r0), key, 0, Finalized);
    AfterFrom(w, r2, [Build(0)] + [PutLate(0)]);
    AloneSends(After(w, r2), key);
    OneStep(w, r3, Retry(0, false, {}));
    AloneRetries(w, After(w, r3), key, 0, Uploading);
    OneStep(w, r4, Claim(0, [0], {}));
    AfterFrom(w, r5, Decide(0));
    AloneDecides(After(w, r4), key, 0, Uploading);
    OneStep(w, r6, Escape(0, {}));
    AloneEscapes(w, After(w, r6), key);
    OneStep(w, r7, Retry(0, false, {}));
    AloneRetries(w, After(w, r7), next, 1, Finalized);
    AfterFrom(w, r8, WholeAttempt(0, [0], false, {}));
    AloneStores(After(w, r8), next, 1);
  }

  lemma ReadyAlone(key: Key)
    ensures Idle(After(OneRecorder(), Recorded(key, 1)), key, 0, Waiting, Finalized)
    ensures After(OneRecorder(), Recorded(key, 1)).late == {}
  {
    hide After, OneRecorder, Recorded;
    RecordedIsReady(key, 1);
    var s := Ready(key, 1);
    assert s.mem == map[0 := Mem(Finalized, key, 0, false, Waiting)];
    assert s.files == map[0 := File([SOUND], false)];
  }

  lemma AloneStores(s: State, key: Key, n: nat)
    requires Idle(s, key, n, Waiting, Finalized)
    ensures var s' := From(OneRecorder(), s, WholeAttempt(0, [0], false, {}));
            s'.late == s.late && s'.bucket.Keys == {key} && s'.bucket[key].whose == [0]
  {
    hide From, WholeAttempt, OneRecorder, CanClaim, AllCaptured, LetsIn, NewMeta, Parts;
    AloneCanClaim(s, key, n, Finalized);
    AttemptSucceeds(OneRecorder(), s, 0, [0], {});
    var none: seq<Sid> := [];
    assert none + [0] == [0];
  }

  /** ... before the store applies the first attempt's request after all: session 0 is in two objects, though no reply
      was lost and its group was moved but once. */
  lemma LateRequestStrays(key: Key)
    ensures var bucket := After(OneRecorder(), MovedOn(key) + [Land(LateRequest(key))]).bucket;
            HeldAt(bucket, key, 0) && HeldAt(bucket, RenamedKey(key, 0), 0) && RenamedKey(key, 0) != key
  {
    hide After, Then, OneRecorder, MovedOn, RenamedKey, NewMeta;
    var w := OneRecorder();
    MovedOnIs(key);
    NextDiffers(key);
    OneStep(w, MovedOn(key), Land(LateRequest(key)));
    Lands(w, After(w, MovedOn(key)), LateRequest(key));
  }

  lemma Lands(w: World, s: State, r: Request)
    requires r in s.late && r.ifMatch.None? && r.key !in s.bucket
    ensures Then(w, s, Land(r)).bucket == s.bucket[r.key := Object(s.nextEtag, r.meta, r.whose, r.parts)]
  {
  }
}
