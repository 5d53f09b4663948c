/** What an attempt achieves: when it may merge, and that one which nothing disturbs stores, completes and removes all
    it has claimed, from any state. */
module UploadProgress {
  import opened Bytes
  import opened ObjectKeys
  import opened UploadProtocol
  import opened UploadInvariant
  import opened UploadSteps
  import opened UploadSafety
  import opened UploadConvergence

  // ---------------------------------------------------------------------------------------------------------------
  // What a HEAD decides
  // ---------------------------------------------------------------------------------------------------------------

  /** Members with a capture that the object does not list. */
  function Unlisted(o: Object, local: seq<Sid>): (more: set<Sid>)
    requires o.meta.Manifest?
  {
    set x | x in local && x !in o.meta.sessions
  }

  /** They may be appended: none starts before the last listed one, to the second, and all fit. */
  predicate MayMerge(w: World, o: Object, more: set<Sid>)
    requires o.meta.Manifest?
  {
    && (forall x :: x in more ==> w.start(x) >= o.meta.last * 1000)
    && (more == {} || o.meta.parts + |more| <= MAX_PARTS)
  }

  lemma {:induction false} SizeOfList(l: seq<Sid>)
    requires NoDup(l)
    ensures |Elements(l)| == |l|
  {
    if l != [] {
      var init, x := l[..|l| - 1], l[|l| - 1];
      SizeOfList(init);
      assert Elements(l) == Elements(init) + {x};
    }
  }

  /** The attempt's plan after the HEAD of an object it may append to: exactly the unlisted members with a capture are
      to be added, in capture order, the listed ones are present, and the lost ones to be parked. */
  ghost predicate MergePlan(w: World, t: Attempt, o: Object, pc: Pc)
    requires t.pc.Classified? && o.meta.Manifest?
  {
    && pc.Decided? && pc.remote == Some(o) && NoDup(pc.toAdd) && ByStart(w, pc.toAdd)
    && (forall x :: x in pc.toAdd <==> x in Unlisted(o, t.pc.local))
    && (forall x :: x in pc.present <==> (x in t.pc.local || x in t.pc.missing) && x in o.meta.sessions)
    && (forall x :: x in pc.bad <==> x in Unlisted(o, t.pc.missing))
  }

  /** Where the HEAD of the attempt's own object leads. */
  lemma JudgeOwn(w: World, a: Sid, t: Attempt, o: Object)
    requires t.pc.Classified? && NoDup(t.pc.local) && ByStart(w, t.pc.local)
    requires o.meta.Manifest? && o.meta.rid == w.rid(a)
    ensures var v, more, lost := Judge(w, a, t, Some(o)), Unlisted(o, t.pc.local), Unlisted(o, t.pc.missing);
            && (MayMerge(w, o, more) ==> v.Proceed? && v.pc.Decided? && MergePlan(w, t, o, v.pc))
            && (!MayMerge(w, o, more) && lost == {} ==> v == Conflict)
            && (!MayMerge(w, o, more) && lost != {} ==>
                  v.Proceed? && v.pc.Refused? && forall x :: x in v.pc.bad <==> x in lost)
  {
    hide NoDup, ByStart;
    var has := Elements(o.meta.sessions);
    var toAdd, bad := Pick(t.pc.local, Elements(t.pc.local) - has), Pick(t.pc.missing, Elements(t.pc.missing) - has);
    PickKeeps(w, t.pc.local, Elements(t.pc.local) - has);
    SizeOfList(toAdd);
    assert Elements(toAdd) == Unlisted(o, t.pc.local);
    assert Elements(bad) == Unlisted(o, t.pc.missing);
    HasFirst(toAdd);
    if bad != [] {
      assert bad[0] in Elements(bad);
    }
  }

  /** A HEAD, in any state that can be reached. Nothing there: all is to be added. Somebody else's object, or one of
      another recording: the group is moved. A contradictory one: the attempt fails. Its own: it merges if and only if
      the unlisted members may be appended; otherwise the group is moved, after its lost members have been parked. */
  lemma HeadDecides(w: World, s: State, a: Sid, saved: set<Sid>)
    requires Inv(w, s) && At(s, a) && s.attempts[a].pc.Classified? && NoBad(s.attempts[a].pc)
    ensures var t, next := s.attempts[a], Then(w, s, Head(a, saved));
            if t.key !in s.bucket then next == SetPc(s, a, Decided(None, t.pc.local, [], t.pc.missing))
            else
              var o := s.bucket[t.key];
              if o.meta.Broken? then next == End(s, a, false)
              else if o.meta.Foreign? || o.meta.rid != w.rid(a) then next == Renamed(s, a, saved)
              else
                var more, lost := Unlisted(o, t.pc.local), Unlisted(o, t.pc.missing);
                && (MayMerge(w, o, more) <==> a in next.attempts && next.attempts[a].pc.Decided?)
                && (MayMerge(w, o, more) ==>
                      MergePlan(w, t, o, next.attempts[a].pc) && next == SetPc(s, a, next.attempts[a].pc))
                && (!MayMerge(w, o, more) && lost == {} ==> next == Renamed(s, a, saved))
                && (!MayMerge(w, o, more) && lost != {} ==>
                      && a in next.attempts && next.attempts[a].pc.Refused? && next == SetPc(s, a, next.attempts[a].pc)
                      && forall x :: x in next.attempts[a].pc.bad <==> x in lost)
  {
    hide Inv, Judge, Renamed, End, MayMerge, MergePlan, Unlisted, Members, NoDup, ByStart;
    Running(w, s, a);
    var t := s.attempts[a];
    if t.key in s.bucket && s.bucket[t.key].meta.Manifest? && s.bucket[t.key].meta.rid == w.rid(a) {
      JudgeOwn(w, a, t, s.bucket[t.key]);
      MovedIsOver(s, a, saved);
    } else {
      JudgeOthers(w, a, t, Lookup(s, t.key));
    }
  }

  lemma MovedIsOver(s: State, a: Sid, saved: set<Sid>)
    requires a in s.attempts
    ensures a !in Renamed(s, a, saved).attempts
  {
    hide Moved, Save, MaxRenames, RenamedKey;
  }

  lemma JudgeOthers(w: World, a: Sid, t: Attempt, found: Option<Object>)
    requires t.pc.Classified?
    ensures found.None? ==> Judge(w, a, t, found) == Proceed(Decided(None, t.pc.local, [], t.pc.missing))
    ensures found.Some? && found.value.meta.Broken? ==> Judge(w, a, t, found) == Inconsistent
    ensures found.Some? && found.value.meta.Foreign? ==> Judge(w, a, t, found) == Conflict
    ensures found.Some? && found.value.meta.Manifest? && found.value.meta.rid != w.rid(a) ==>
              Judge(w, a, t, found) == Conflict
  {
  }

  /** What becomes of a refused group: its lost members are parked one by one, then it is moved. */
  lemma RefusedMoves(w: World, s: State, a: Sid, saved: set<Sid>)
    requires At(s, a) && s.attempts[a].pc.Refused?
    ensures var bad := s.attempts[a].pc.bad;
            if bad == [] then Then(w, s, Escape(a, saved)) == Renamed(s, a, saved)
            else
              var next := Then(w, s, FailMember(a, saved));
              && next.attempts == s.attempts[a := s.attempts[a].(pc := Refused(bad[1..]))]
              && next.mem.Keys == s.mem.Keys
              && forall x :: x in s.mem ==>
                   next.mem[x] == if x == bad[0] then s.mem[x].(phase := Failed) else s.mem[x]
  {
    hide Renamed, Save;
  }

  // ---------------------------------------------------------------------------------------------------------------
  // Stretches of runs
  // ---------------------------------------------------------------------------------------------------------------

  /** Where a stretch leads from s on. */
  ghost function From(w: World, s: State, steps: seq<Step>): (s': State)
  {
    if steps == [] then s else Then(w, From(w, s, steps[..|steps| - 1]), steps[|steps| - 1])
  }

  lemma {:induction false} AfterFrom(w: World, steps: seq<Step>, more: seq<Step>)
    ensures After(w, steps + more) == From(w, After(w, steps), more)
    decreases |more|
  {
    if more == [] {
      assert steps + more == steps;
    } else {
      hide Then, After;
      AfterSnoc(w, steps, more);
      AfterFrom(w, steps, more[..|more| - 1]);
    }
  }

  lemma OneMore(w: World, s: State, steps: seq<Step>, step: Step)
    ensures From(w, s, steps + [step]) == Then(w, From(w, s, steps), step)
  {
    hide Then;
    assert (steps + [step])[..|steps|] == steps;
  }

  lemma FromOne(w: World, s: State, step: Step)
    ensures From(w, s, [step]) == Then(w, s, step)
  {
    hide Then;
    OneMore(w, s, [], step);
    assert [] + [step] == [step];
  }

  lemma OneStep(w: World, steps: seq<Step>, step: Step)
    ensures After(w, steps + [step]) == Then(w, After(w, steps), step)
  {
    hide Then;
    assert (steps + [step])[..|steps|] == steps;
  }

  // ---------------------------------------------------------------------------------------------------------------
  // An attempt that nothing disturbs
  // ---------------------------------------------------------------------------------------------------------------

  lemma {:induction false} PickAll(s: seq<Sid>, these: set<Sid>)
    requires forall x :: x in s ==> x in these
    ensures Pick(s, these) == s
  {
    if s != [] {
      PickAll(s[..|s| - 1], these);
    }
  }

  lemma PickNone(s: seq<Sid>, these: set<Sid>)
    requires forall x :: x in s ==> x !in these
    ensures Pick(s, these) == []
  {
    HasFirst(Pick(s, these));
  }

  /** Every member has a capture with a frame. */
  predicate AllCaptured(files: map<Sid, File>, group: seq<Sid>) {
    forall x :: x in group ==> x in files && files[x].frames != []
  }

  lemma ClassifyAll(w: World, s: State, a: Sid)
    requires At(s, a) && s.attempts[a].pc.Claimed? && AllCaptured(s.files, s.attempts[a].group)
    ensures Then(w, s, Classify(a)) == SetPc(s, a, Classified(s.attempts[a].group, [], []))
  {
    hide Pick;
    var group := s.attempts[a].group;
    var there := set x | x in group && x in s.files;
    var empty := set x | x in group && x in s.files && s.files[x].Empty();
    PickAll(group, there - empty);
    PickNone(group, Elements(group) - there);
    PickNone(group, empty);
  }

  lemma MeasureAll(w: World, s: State, a: Sid, remote: Option<Object>, toAdd: seq<Sid>, present: seq<Sid>)
    requires At(s, a) && s.attempts[a].pc == Decided(remote, toAdd, present, []) && AllCaptured(s.files, toAdd)
    ensures Then(w, s, Measure(a, map[])) == SetPc(s, a, Measured(remote, toAdd, present, []))
  {
    hide Pick;
    RepairNothing(s, Elements(toAdd));
    var sound := set x | x in toAdd && x in s.files && s.files[x].frames != [];
    PickAll(toAdd, sound);
    PickNone(toAdd, Elements(toAdd) - sound);
  }

  lemma PcTwice(s: State, a: Sid, p: Pc, q: Pc)
    requires a in s.attempts
    ensures SetPc(SetPc(s, a, p), a, q) == SetPc(s, a, q)
  {
  }

  lemma SaveNone(s: State, saved: set<Sid>)
    requires saved == {}
    ensures Save(s, saved) == s
  {
    assert Save(s, saved).cards == s.cards;
  }

  /** Every step of it in order; it merges if there is something under its key already. */
  function WholeAttempt(a: Sid, group: seq<Sid>, merging: bool, saved: set<Sid>): (steps: seq<Step>)
  {
    Deciding(a, group, saved) + Storing(a, merging) + [Complete(a)] + Finishing(a, |group|) + [WriteCard(a, true)]
  }

  function Deciding(a: Sid, group: seq<Sid>, saved: set<Sid>): (steps: seq<Step>)
  {
    [Claim(a, group, saved)] + ([Classify(a)] + [Head(a, saved)] + [Measure(a, map[])])
  }

  function Storing(a: Sid, merging: bool): (steps: seq<Step>)
  {
    [Build(a)] + [Put(a, false)] + if merging then [Verify(a)] else []
  }

  /** Sidecar by sidecar and capture by capture. */
  function Finishing(a: Sid, n: nat): (steps: seq<Step>)
  {
    if n == 0 then [] else Finishing(a, n - 1) + [WriteCard(a, true)] + [Remove(a, true)]
  }

  /** What is under the group's key lets it in: nothing, or the recording's object, which lists none of the group, with
      nobody later than its first member and with room for all. */
  ghost predicate LetsIn(w: World, a: Sid, found: Option<Object>, group: seq<Sid>) {
    found.Some? ==>
      && found.value.meta.Manifest? && found.value.meta.rid == w.rid(a)
      && (forall x :: x in group ==> x !in found.value.meta.sessions && w.start(x) >= found.value.meta.last * 1000)
      && found.value.meta.parts + |group| <= MAX_PARTS
  }

  lemma JudgeLetsIn(w: World, a: Sid, t: Attempt, found: Option<Object>)
    requires t.pc == Classified(t.group, [], []) && LetsIn(w, a, found, t.group) && t.group != []
    ensures Judge(w, a, t, found) == Proceed(Decided(found, t.group, [], []))
  {
    hide Pick, Elements;
    if found.Some? {
      GroupIsNew(t.group, found.value.meta.sessions);
    }
  }

  lemma GroupIsNew(group: seq<Sid>, listed: seq<Sid>)
    requires forall x :: x in group ==> x !in listed
    ensures var has := Elements(listed);
            && Pick(group, Elements(group) - has) == group && Pick(group, has) == []
            && Pick([], has) == [] && Pick([], Elements([]) - has) == []
            && Pick(group, has) + Pick([], has) == []
  {
    var has := Elements(listed);
    PickAll(group, Elements(group) - has);
    PickNone(group, has);
  }

  /** After the claim: what the attempt has found out before it builds. */
  lemma DecidesToAdd(w: World, s: State, a: Sid, saved: set<Sid>)
    requires At(s, a) && s.attempts[a].pc == Claimed && AllCaptured(s.files, s.attempts[a].group)
    requires s.attempts[a].group != [] && LetsIn(w, a, Lookup(s, s.attempts[a].key), s.attempts[a].group)
    ensures From(w, s, [Classify(a)] + [Head(a, saved)] + [Measure(a, map[])]) ==
              SetPc(s, a, Measured(Lookup(s, s.attempts[a].key), s.attempts[a].group, [], []))
  {
    hide Then, From, AllCaptured, LetsIn;
    var group, found := s.attempts[a].group, Lookup(s, s.attempts[a].key);
    FromOne(w, s, Classify(a));
    OneMore(w, s, [Classify(a)], Head(a, saved));
    OneMore(w, s, [Classify(a)] + [Head(a, saved)], Measure(a, map[]));
    ClassifyAll(w, s, a);
    var s1 := SetPc(s, a, Classified(group, [], []));
    JudgeLetsIn(w, a, s1.attempts[a], found);
    HeadLeads(w, s1, a, saved, SetPc(s1, a, Decided(found, group, [], [])));
    PcTwice(s, a, s1.attempts[a].pc, Decided(found, group, [], []));
    var s2 := SetPc(s, a, Decided(found, group, [], []));
    MeasureAll(w, s2, a, found, group, []);
    PcTwice(s, a, s2.attempts[a].pc, Measured(found, group, [], []));
  }

  /** The object it makes. */
  function Grown(w: World, s: State, found: Option<Object>, group: seq<Sid>): (o: Object)
    requires group != [] && (found.Some? ==> found.value.meta.Manifest?)
  {
    Object(s.nextEtag, NewMeta(w, found, group), Whose(found) + group, StoredParts(found) + Parts(s.files, group))
  }

  lemma BuildAdds(w: World, s: State, a: Sid, found: Option<Object>, group: seq<Sid>)
    requires At(s, a) && s.attempts[a].pc == Measured(found, group, [], []) && group != []
             && AllCaptured(s.files, group)
    requires found == Lookup(s, s.attempts[a].key)
    ensures Then(w, s, Build(a)) ==
              SetPc(s, a, Built(found, group, [], StoredParts(found) + Parts(s.files, group)))
  {
    hide SetPc, Parts;
    assert CanBuild(s, a);
  }

  lemma PutStores(w: World, s: State, a: Sid, found: Option<Object>, group: seq<Sid>)
    requires At(s, a) && group != [] && found == Lookup(s, s.attempts[a].key)
    requires found.Some? ==> found.value.meta.Manifest?
    requires s.attempts[a].pc == Built(found, group, [], StoredParts(found) + Parts(s.files, group))
    ensures var put := s.(bucket := s.bucket[s.attempts[a].key := Grown(w, s, found, group)],
                          nextEtag := s.nextEtag + 1);
            Then(w, s, Put(a, false)) ==
              SetPc(put, a, if found.None? then Stored(group, s.attempts[a].key) else Verifying(s.nextEtag, group, []))
  {
    hide NewMeta, End, Parts;
    var none: seq<Sid> := [];
    assert group + none == group;
  }

  lemma VerifyStores(w: World, s: State, a: Sid, group: seq<Sid>)
    requires At(s, a) && s.attempts[a].key in s.bucket
    requires s.attempts[a].pc == Verifying(s.bucket[s.attempts[a].key].etag, group, [])
    ensures Then(w, s, Verify(a)) == SetPc(s, a, Stored(group, s.attempts[a].key))
  {
    hide End;
    var none: seq<Sid> := [];
    assert group + none == group;
  }

  /** From what it has measured to what is stored. */
  lemma Stores(w: World, s: State, a: Sid, found: Option<Object>, group: seq<Sid>)
    requires At(s, a) && s.attempts[a].pc == Measured(found, group, [], []) && group != []
             && AllCaptured(s.files, group)
    requires found == Lookup(s, s.attempts[a].key) && (found.Some? ==> found.value.meta.Manifest?)
    ensures var put := s.(bucket := s.bucket[s.attempts[a].key := Grown(w, s, found, group)],
                          nextEtag := s.nextEtag + 1);
            From(w, s, Storing(a, found.Some?)) == SetPc(put, a, Stored(group, s.attempts[a].key))
  {
    hide Then, From, AllCaptured, Grown, Parts;
    var key := s.attempts[a].key;
    FromOne(w, s, Build(a));
    OneMore(w, s, [Build(a)], Put(a, false));
    BuildAdds(w, s, a, found, group);
    var built := Built(found, group, [], StoredParts(found) + Parts(s.files, group));
    var s1 := SetPc(s, a, built);
    PutStores(w, s1, a, found, group);
    SameGrown(w, s, s1, found, group);
    var put := s.(bucket := s.bucket[key := Grown(w, s, found, group)], nextEtag := s.nextEtag + 1);
    var put1 := s1.(bucket := s1.bucket[key := Grown(w, s, found, group)], nextEtag := s1.nextEtag + 1);
    var pc := if found.None? then Stored(group, key) else Verifying(s.nextEtag, group, []);
    PcTwice(put, a, built, pc);
    assert put1 == SetPc(put, a, built);
    assert [Build(a)] + [Put(a, false)] + [] == [Build(a)] + [Put(a, false)];
    if found.Some? {
      OneMore(w, s, [Build(a)] + [Put(a, false)], Verify(a));
      GrownEtag(w, s, found, group);
      VerifyStores(w, SetPc(put, a, pc), a, group);
      PcTwice(put, a, pc, Stored(group, key));
    }
  }

  lemma SameGrown(w: World, s: State, s': State, found: Option<Object>, group: seq<Sid>)
    requires group != [] && (found.Some? ==> found.value.meta.Manifest?)
    requires s'.files == s.files && s'.nextEtag == s.nextEtag
    ensures Grown(w, s', found, group) == Grown(w, s, found, group)
  {
  }

  lemma GrownEtag(w: World, s: State, found: Option<Object>, group: seq<Sid>)
    requires group != [] && (found.Some? ==> found.value.meta.Manifest?)
    ensures Grown(w, s, found, group).etag == s.nextEtag
  {
  }

  /** Of s, the first k of the group are settled: their sidecars say uploaded and their captures are gone. */
  ghost predicate Settling(s: State, a: Sid, group: seq<Sid>, key: Key, k: nat, s': State) {
    && a in s.attempts && k <= |group|
    && s' == s.(cards := s'.cards, files := s'.files, attempts := s'.attempts)
    && s'.attempts == s.attempts[a := s.attempts[a].(pc := Writing(group[k..], key, false))]
    && (forall x :: x in s'.files <==> x in s.files && x !in group[..k])
    && (forall x :: x in s'.files ==> s'.files[x] == s.files[x])
    && (forall x :: x in group[..k] ==>
          x in s'.cards && s'.cards[x] == Card(Uploaded, key, if x in s.mem then s.mem[x].renames else 0, true))
    && (forall x :: x !in group[..k] ==> (x in s'.cards <==> x in s.cards))
    && (forall x :: x in s.cards && x !in group[..k] ==> s'.cards[x] == s.cards[x])
  }

  lemma SettleOne(w: World, s: State, a: Sid, group: seq<Sid>, key: Key, k: nat, s': State)
    requires At(s, a) && k < |group| && Settling(s, a, group, key, k, s')
    ensures Settling(s, a, group, key, k + 1, Then(w, Then(w, s', WriteCard(a, true)), Remove(a, true)))
  {
    hide Then, Settling;
    SettledSoFar(s, a, group, key, k, s');
    SettleLeads(w, s', a, group[k..], key);
    SettledNext(s, a, group, key, k, s');
  }

  lemma SettledSoFar(s: State, a: Sid, group: seq<Sid>, key: Key, k: nat, s': State)
    requires At(s, a) && k < |group| && Settling(s, a, group, key, k, s')
    ensures At(s', a) && s'.attempts[a].pc == Writing(group[k..], key, false) && s'.mem == s.mem
  {
  }

  lemma SettledNext(s: State, a: Sid, group: seq<Sid>, key: Key, k: nat, s': State)
    requires At(s, a) && k < |group| && Settling(s, a, group, key, k, s')
    ensures var x := group[k..][0];
            var card := Card(Uploaded, key, if x in s'.mem then s'.mem[x].renames else 0, true);
            var pc := Writing(group[k..][1..], key, false);
            Settling(s, a, group, key, k + 1,
                     s'.(cards := s'.cards[x := card], files := s'.files - {x},
                         attempts := s'.attempts[a := s'.attempts[a].(pc := pc)]))
  {
    var x := group[k..][0];
    assert group[k..][1..] == group[k + 1..] && group[..k + 1] == group[..k] + [x];
  }

  lemma SettleLeads(w: World, s: State, a: Sid, todo: seq<Sid>, key: Key)
    requires At(s, a) && s.attempts[a].pc == Writing(todo, key, false) && todo != []
    ensures var x := todo[0];
            var card := Card(Uploaded, key, if x in s.mem then s.mem[x].renames else 0, true);
            Then(w, Then(w, s, WriteCard(a, true)), Remove(a, true)) ==
              s.(cards := s.cards[x := card], files := s.files - {x},
                 attempts := s.attempts[a := s.attempts[a].(pc := Writing(todo[1..], key, false))])
  {
    hide End;
    var s1 := SetPc(WithCard(s, todo[0], key), a, Removing(todo, key, false));
    assert Then(w, s, WriteCard(a, true)) == s1;
    RemoveLeads(w, s1, a, todo, key);
  }

  lemma RemoveLeads(w: World, s: State, a: Sid, todo: seq<Sid>, key: Key)
    requires At(s, a) && s.attempts[a].pc == Removing(todo, key, false) && todo != []
    ensures Then(w, s, Remove(a, true)) == SetPc(s.(files := s.files - {todo[0]}), a, Writing(todo[1..], key, false))
  {
  }

  lemma FinishingIs(w: World, s: State, a: Sid, k: nat)
    ensures if k == 0 then From(w, s, Finishing(a, k)) == s
            else Finishing(a, k) == Finishing(a, k - 1) + [WriteCard(a, true)] + [Remove(a, true)]
  {
    hide Then;
  }

  lemma {:induction false} Settles(w: World, s: State, a: Sid, group: seq<Sid>, key: Key, k: nat)
    requires At(s, a) && s.attempts[a].pc == Writing(group, key, false) && k <= |group|
    ensures Settling(s, a, group, key, k, From(w, s, Finishing(a, k)))
  {
    hide Then, From, Settling, Finishing;
    FinishingIs(w, s, a, k);
    if k == 0 {
      NothingSettled(s, a, group, key);
    } else {
      Settles(w, s, a, group, key, k - 1);
      OneMore(w, s, Finishing(a, k - 1), WriteCard(a, true));
      OneMore(w, s, Finishing(a, k - 1) + [WriteCard(a, true)], Remove(a, true));
      SettleOne(w, s, a, group, key, k - 1, From(w, s, Finishing(a, k - 1)));
    }
  }

  lemma NothingSettled(s: State, a: Sid, group: seq<Sid>, key: Key)
    requires At(s, a) && s.attempts[a].pc == Writing(group, key, false)
    ensures Settling(s, a, group, key, 0, s)
  {
    assert group[0..] == group;
    assert s.attempts == s.attempts[a := s.attempts[a].(pc := Writing(group, key, false))];
  }

  lemma {:induction false} FromAppend(w: World, s: State, steps: seq<Step>, more: seq<Step>)
    ensures From(w, s, steps + more) == From(w, From(w, s, steps), more)
    decreases |more|
  {
    hide Then;
    if more == [] {
      assert steps + more == steps;
    } else {
      var n := |more| - 1;
      assert (steps + more)[..|steps + more| - 1] == steps + more[..n];
      FromAppend(w, s, steps, more[..n]);
    }
  }

  /** As long as it has not touched a sidecar for good or a capture. */
  ghost predicate Underway(s: State, a: Sid, group: seq<Sid>, pc: Pc, s': State)
    requires a in s.mem && forall x :: x in group ==> x in s.mem
  {
    && s'.late == s.late && s'.made == s.made && s'.cut == s.cut && s'.down == s.down && s'.files == s.files
    && s'.attempts == s.attempts[a := Attempt(s.mem[a].key, group, pc)]
    && s'.mem.Keys == s.mem.Keys
    && (forall x :: x in s.mem && x !in group ==> s'.mem[x] == s.mem[x])
    && (forall x :: x !in group ==> (x in s'.cards <==> x in s.cards))
    && (forall x :: x in s.cards && x !in group ==> s'.cards[x] == s.cards[x])
  }

  /** The members in memory. */
  predicate MembersAre(s: State, a: Sid, group: seq<Sid>, phase: Phase, loop: Loop, mem: map<Sid, Mem>)
    requires a in s.mem && forall x :: x in group ==> x in s.mem && x in mem
  {
    forall x :: x in group ==>
      mem[x] == Mem(phase, s.mem[a].key, s.mem[x].renames, phase == Uploaded || s.mem[x].stored,
                       if x == a then loop else s.mem[x].loop)
  }

  /** Every member's sidecar says uploaded and its capture is gone, the others' are as they were. */
  ghost predicate Cleared(s: State, group: seq<Sid>, key: Key, files: map<Sid, File>, cards: map<Sid, Card>)
    requires forall x :: x in group ==> x in s.mem
  {
    && (forall x :: x in files <==> x in s.files && x !in group)
    && (forall x :: x in files ==> files[x] == s.files[x])
    && (forall x :: x in group ==> x in cards && cards[x] == Card(Uploaded, key, s.mem[x].renames, true))
    && (forall x :: x !in group ==> (x in cards <==> x in s.cards))
    && (forall x :: x in s.cards && x !in group ==> cards[x] == s.cards[x])
  }

  /** What an attempt that nothing disturbs leaves: the object has grown by exactly the group's audio, every member is
      uploaded in memory and in its sidecar, their captures are gone, the attempt and its loop have ended; and nothing
      else has changed. */
  ghost predicate Succeeded(w: World, s: State, a: Sid, group: seq<Sid>, s': State)
    requires a in s.mem && group != [] && LetsIn(w, a, Lookup(s, s.mem[a].key), group)
    requires forall x :: x in group ==> x in s.mem
  {
    var key := s.mem[a].key;
    && s'.bucket == s.bucket[key := Grown(w, s, Lookup(s, key), group)] && s'.nextEtag == s.nextEtag + 1
    && s'.late == s.late && s'.made == s.made && s'.cut == s.cut && s'.down == s.down
    && s'.attempts == s.attempts - {a} && Cleared(s, group, key, s'.files, s'.cards)
    && s'.mem.Keys == s.mem.Keys && MembersAre(s, a, group, Uploaded, NoLoop, s'.mem)
    && forall x :: x in s.mem && x !in group ==> s'.mem[x] == s.mem[x]
  }

  lemma ClaimIs(w: World, s: State, a: Sid, group: seq<Sid>, saved: set<Sid>)
    requires CanClaim(w, s, a, group)
    ensures a in s.mem && a in group && group != [] && forall x :: x in group ==> x in s.mem
    ensures var s' := Then(w, s, Claim(a, group, saved));
            && At(s', a) && Underway(s, a, group, Claimed, s') && MembersAre(s, a, group, Uploading, Attempting, s'.mem)
            && s'.bucket == s.bucket && s'.nextEtag == s.nextEtag
  {
    hide CanClaim, DoClaim, Underway, MembersAre;
    ClaimedAre(w, s, a, group);
    ClaimUnderway(s, a, group, saved);
    ClaimMembers(s, a, group, saved);
  }

  lemma ClaimedAre(w: World, s: State, a: Sid, group: seq<Sid>)
    requires CanClaim(w, s, a, group)
    ensures a in s.mem && a in group && group != []
    ensures forall x :: x in group ==> x in s.mem && s.mem[x].key == s.mem[a].key
  {
    hide NoDup, ByStart, Unlocked;
    assert Claimable(w, s, a, a);
  }

  lemma ClaimUnderway(s: State, a: Sid, group: seq<Sid>, saved: set<Sid>)
    requires a in s.mem && a in group && forall x :: x in group ==> x in s.mem
    ensures var s' := DoClaim(s, a, group, saved);
            At(s', a) && Underway(s, a, group, Claimed, s') && s'.bucket == s.bucket && s'.nextEtag == s.nextEtag
  {
    var s' := DoClaim(s, a, group, saved);
    assert forall x :: x in s'.cards <==> x in s.cards || (x in saved && x in group && x in s.mem);
  }

  lemma ClaimMembers(s: State, a: Sid, group: seq<Sid>, saved: set<Sid>)
    requires a in s.mem && a in group && forall x :: x in group ==> x in s.mem && s.mem[x].key == s.mem[a].key
    ensures var mem := DoClaim(s, a, group, saved).mem;
            mem.Keys == s.mem.Keys && MembersAre(s, a, group, Uploading, Attempting, mem)
  {
    hide Save;
  }

  lemma CompleteIs(w: World, s: State, a: Sid, group: seq<Sid>, s': State)
    requires a in s.mem && forall x :: x in group ==> x in s.mem
    requires Underway(s, a, group, Stored(group, s.mem[a].key), s')
    requires MembersAre(s, a, group, Uploading, Attempting, s'.mem)
    ensures var s1, key := Then(w, s', Complete(a)), s.mem[a].key;
            && At(s1, a) && Underway(s, a, group, Writing(group, key, false), s1)
            && MembersAre(s, a, group, Uploaded, Attempting, s1.mem)
            && s1.bucket == s'.bucket && s1.nextEtag == s'.nextEtag
  {
    hide Then, Underway, MembersAre, DoComplete;
    ClaimedAs(s, a, group, Stored(group, s.mem[a].key), s');
    CompleteLeads(w, s', a, DoComplete(s', a));
    CompletedUnderway(s, a, group, s');
    CompletedMembers(s, a, group, s');
  }

  lemma CompletedUnderway(s: State, a: Sid, group: seq<Sid>, s': State)
    requires a in s.mem && forall x :: x in group ==> x in s.mem
    requires At(s', a) && Underway(s, a, group, Stored(group, s.mem[a].key), s')
    ensures var s1 := DoComplete(s', a);
            At(s1, a) && Underway(s, a, group, Writing(group, s.mem[a].key, false), s1)
            && s1.bucket == s'.bucket && s1.nextEtag == s'.nextEtag
  {
  }

  lemma CompletedMembers(s: State, a: Sid, group: seq<Sid>, s': State)
    requires a in s.mem && (forall x :: x in group ==> x in s.mem && x in s'.mem) && At(s', a)
    requires s'.attempts[a].pc == Stored(group, s.mem[a].key)
    requires MembersAre(s, a, group, Uploading, Attempting, s'.mem)
    ensures var s1 := DoComplete(s', a);
            s1.mem.Keys == s'.mem.Keys && MembersAre(s, a, group, Uploaded, Attempting, s1.mem)
  {
  }

  lemma LastWrite(w: World, s: State, a: Sid, key: Key)
    requires At(s, a) && s.attempts[a].pc == Writing([], key, false)
    ensures Then(w, s, WriteCard(a, true)) ==
              s.(mem := s.mem[a := s.mem[a].(loop := NoLoop)], attempts := s.attempts - {a})
  {
  }

  /** The stretches of an attempt, one after the other. */
  lemma InStretches(w: World, s: State, a: Sid, group: seq<Sid>, merging: bool, saved: set<Sid>)
    ensures var s1 := Then(w, s, Claim(a, group, saved));
            var s2 := From(w, s1, [Classify(a)] + [Head(a, saved)] + [Measure(a, map[])]);
            var s4 := Then(w, From(w, s2, Storing(a, merging)), Complete(a));
            From(w, s, WholeAttempt(a, group, merging, saved)) ==
              Then(w, From(w, s4, Finishing(a, |group|)), WriteCard(a, true))
  {
    hide Then, From, Storing, Finishing;
    var deciding, storing, finishing := Deciding(a, group, saved), Storing(a, merging), Finishing(a, |group|);
    OneMore(w, s, deciding + storing + [Complete(a)] + finishing, WriteCard(a, true));
    FromAppend(w, s, deciding + storing + [Complete(a)], finishing);
    OneMore(w, s, deciding + storing, Complete(a));
    FromAppend(w, s, deciding, storing);
    FromAppend(w, s, [Claim(a, group, saved)], [Classify(a)] + [Head(a, saved)] + [Measure(a, map[])]);
    FromOne(w, s, Claim(a, group, saved));
  }

  /** Whatever the state: an attempt that may claim its group, whose members all have a capture with a frame and may be
      stored under their key, and that nothing disturbs, stores and completes them all. */
  lemma AttemptSucceeds(w: World, s: State, a: Sid, group: seq<Sid>, saved: set<Sid>)
    requires CanClaim(w, s, a, group) && AllCaptured(s.files, group)
    requires LetsIn(w, a, Lookup(s, s.mem[a].key), group)
    ensures a in group && group != [] && forall x :: x in group ==> x in s.mem
    ensures Succeeded(w, s, a, group,
                      From(w, s, WholeAttempt(a, group, Lookup(s, s.mem[a].key).Some?, saved)))
  {
    hide Then, From, CanClaim, AllCaptured, Grown, Storing, Finishing, Settling, LetsIn, WholeAttempt, Underway,
      MembersAre, Succeeded;
    ClaimIs(w, s, a, group, saved);
    var key := s.mem[a].key;
    var found := Lookup(s, key);
    InStretches(w, s, a, group, found.Some?, saved);
    var s1 := Then(w, s, Claim(a, group, saved));
    ClaimedAs(s, a, group, Claimed, s1);
    DecidesToAdd(w, s1, a, saved);
    var s2 := SetPc(s1, a, Measured(found, group, [], []));
    FoundIsManifest(w, a, found, group);
    Stores(w, s2, a, found, group);
    SameGrown(w, s, s2, found, group);
    var s3 := From(w, s2, Storing(a, found.Some?));
    OnItsWay(s, a, group, s1, Measured(found, group, [], []), Stored(group, key), s3);
    CompleteIs(w, s, a, group, s3);
    var s4 := Then(w, s3, Complete(a));
    ClaimedAs(s, a, group, Writing(group, key, false), s4);
    Settles(w, s4, a, group, key, |group|);
    var s5 := From(w, s4, Finishing(a, |group|));
    SuccessIs(w, s, a, group, s4, s5);
  }

  lemma ClaimedAs(s: State, a: Sid, group: seq<Sid>, pc: Pc, s': State)
    requires a in s.mem && (forall x :: x in group ==> x in s.mem) && Underway(s, a, group, pc, s')
    ensures s'.files == s.files && At(s', a) && s'.attempts[a] == Attempt(s.mem[a].key, group, pc)
    ensures s'.mem.Keys == s.mem.Keys
  {
  }

  /** From the claim to the stored object only the bucket and the attempt have changed. */
  lemma OnItsWay(s: State, a: Sid, group: seq<Sid>, s1: State, measured: Pc, stored: Pc, s3: State)
    requires a in s.mem && forall x :: x in group ==> x in s.mem
    requires Underway(s, a, group, Claimed, s1) && MembersAre(s, a, group, Uploading, Attempting, s1.mem)
    requires var s2 := SetPc(s1, a, measured);
             s3 == SetPc(s2.(bucket := s3.bucket, nextEtag := s3.nextEtag), a, stored)
    ensures Underway(s, a, group, stored, s3) && MembersAre(s, a, group, Uploading, Attempting, s3.mem)
  {
  }

  lemma SuccessIs(w: World, s: State, a: Sid, group: seq<Sid>, s4: State, s5: State)
    requires a in s.mem && a in group && group != [] && (forall x :: x in group ==> x in s.mem)
    requires LetsIn(w, a, Lookup(s, s.mem[a].key), group)
    requires var key := s.mem[a].key;
             && Underway(s, a, group, Writing(group, key, false), s4)
             && MembersAre(s, a, group, Uploaded, Attempting, s4.mem)
             && s4.bucket == s.bucket[key := Grown(w, s, Lookup(s, key), group)] && s4.nextEtag == s.nextEtag + 1
             && Settling(s4, a, group, key, |group|, s5)
    ensures Succeeded(w, s, a, group, Then(w, s5, WriteCard(a, true)))
  {
    hide Then, LetsIn, Grown, Settling, MembersAre, Cleared;
    var key := s.mem[a].key;
    AllSettled(s4, a, group, key, s5);
    LastWrite(w, s5, a, key);
    EndsCleared(s, a, group, s4, s5);
    EndsInMemory(s, a, group, s5);
    assert s5.attempts - {a} == s.attempts - {a};
  }

  lemma EndsCleared(s: State, a: Sid, group: seq<Sid>, s4: State, s5: State)
    requires a in s.mem && forall x :: x in group ==> x in s.mem
    requires Underway(s, a, group, Writing(group, s.mem[a].key, false), s4)
    requires MembersAre(s, a, group, Uploaded, Attempting, s4.mem)
    requires Settling(s4, a, group, s.mem[a].key, |group|, s5)
    ensures Cleared(s, group, s.mem[a].key, s5.files, s5.cards)
  {
    hide Settling;
    AllSettled(s4, a, group, s.mem[a].key, s5);
  }

  lemma EndsInMemory(s: State, a: Sid, group: seq<Sid>, s5: State)
    requires a in s.mem && (forall x :: x in group ==> x in s.mem) && s5.mem.Keys == s.mem.Keys
    requires MembersAre(s, a, group, Uploaded, Attempting, s5.mem)
    ensures var m := s5.mem[a].(loop := NoLoop);
            MembersAre(s, a, group, Uploaded, NoLoop, s5.mem[a := m])
  {
  }

  lemma FoundIsManifest(w: World, a: Sid, found: Option<Object>, group: seq<Sid>)
    requires LetsIn(w, a, found, group)
    ensures found.Some? ==> found.value.meta.Manifest?
  {
  }

  lemma AllSettled(s: State, a: Sid, group: seq<Sid>, key: Key, s': State)
    requires Settling(s, a, group, key, |group|, s')
    ensures s' == s.(cards := s'.cards, files := s'.files, attempts := s'.attempts)
    ensures s'.attempts == s.attempts[a := s.attempts[a].(pc := Writing([], key, false))]
    ensures forall x :: x in s'.files <==> x in s.files && x !in group
    ensures forall x :: x in s'.files ==> s'.files[x] == s.files[x]
    ensures forall x :: x in group ==>
              x in s'.cards && s'.cards[x] == Card(Uploaded, key, if x in s.mem then s.mem[x].renames else 0, true)
    ensures forall x :: x !in group ==> (x in s'.cards <==> x in s.cards)
    ensures forall x :: x in s.cards && x !in group ==> s'.cards[x] == s.cards[x]
  {
    assert group[..|group|] == group && group[|group|..] == [];
  }

  // ---------------------------------------------------------------------------------------------------------------
  // What an attempt finds done
  // ---------------------------------------------------------------------------------------------------------------

  /** A create-only PUT that finds its own object there, stored by a request whose reply it never saw or that came late,
      is as good as one that stores it. */
  lemma EqualObjectCompletes(w: World, s: State, a: Sid)
    requires CanPut(s, a) && Sent(w, s.attempts[a]).ifMatch.None?
    requires var r := Sent(w, s.attempts[a]);
             r.key in s.bucket && s.bucket[r.key].whose == r.whose && s.bucket[r.key].parts == r.parts
    ensures Then(w, s, Put(a, false)) == SetPc(s, a, Stored(StoredBy(s.attempts[a]), Sent(w, s.attempts[a]).key))
  {
    hide SetPc, End, PutAt, NewMeta;
    var t := s.attempts[a];
    assert Sent(w, t).whose != [] by {
      hide Then;
      assert t.pc.toAdd[0] in Sent(w, t).whose;
    }
  }

  /** A raw fallback that lists all of the group already is not written again. */
  lemma RawFallbackConverges(w: World, s: State, a: Sid, saved: set<Sid>)
    requires CanHeadRaw(s, a) && FallbackKey(s.attempts[a].key) in s.bucket
    requires var m := s.bucket[FallbackKey(s.attempts[a].key)].meta;
             m.Manifest? && m.rid == w.rid(a) && forall x :: x in s.attempts[a].pc.toAdd ==> x in m.sessions
    ensures Then(w, s, HeadRaw(a, saved)) ==
              SetPc(s, a, Stored(s.attempts[a].pc.toAdd, FallbackKey(s.attempts[a].key)))
  {
    hide SetPc, Renamed, FallbackKey;
  }

  /** A session that follows another of its recording goes on under its name and with its count of renames. */
  lemma SuccessorInherits(w: World, s: State, x: Sid, key: Key, from: Sid)
    requires CanStart(w, s, x, key, Some(from))
    ensures var s' := Then(w, s, Start(x, key, Some(from)));
            && s'.mem[x] == Mem(Recording, s.mem[from].key, s.mem[from].renames, false, NoLoop)
            && s'.cards[x] == Card(Recording, s.mem[from].key, s.mem[from].renames, false)
  {
  }

  /** The last word of an attempt that completes: its loop ends for good exactly if every sidecar could be written;
      where one could not, the capture stays. */
  lemma CompletionEnds(w: World, s: State, a: Sid, ok: bool)
    requires At(s, a) && s.attempts[a].pc.Writing?
    ensures var pc, s' := s.attempts[a].pc, Then(w, s, WriteCard(a, ok));
            && (pc.todo == [] ==>
                  a !in s'.attempts && a in s'.mem && s'.mem[a].loop == if pc.failed then Failing else NoLoop)
            && (pc.todo != [] && !ok ==>
                  s' == SetPc(s, a, Writing(pc.todo[1..], pc.target, true)) && s'.files == s.files)
  {
    hide WithCard;
  }
}
