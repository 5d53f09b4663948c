/** The parts of an upload attempt that change the sessions of a group in memory (internal/recorder/upload.go
    claimGroup, renameGroup, completeGroup), under the manager's lock. */
module UploadGroups {
  import opened Bytes
  import opened ObjectKeys
  import opened SessionRecord

  datatype Claim = Terminal | KeyChanged | Deferred | Claimed

  datatype Renaming = Renamed(key: Key) | TooOften

  predicate IsTerminal(state: State) {
    state == Uploaded || state == Kept || state == Failed
  }

  predicate Waiting(state: State) {
    state == Finalized || state == Uploading
  }

  predicate Distinct<T(==)>(s: seq<T>) {
    forall i, j :: 0 <= i < j < |s| ==> s[i] != s[j]
  }

  ghost predicate InCaptureOrder(group: seq<Session>) {
    forall i, j :: 0 <= i < j < |group| ==> group[i].start <= group[j].start
  }

  /** sort.Slice by start: where the next session goes. */
  function Insert(group: seq<Session>, s: Session): (r: seq<Session>)
    ensures |r| == |group| + 1 && s in r
    ensures forall i :: 0 <= i < |group| ==> group[i] in r
    ensures forall i :: 0 <= i < |r| ==> r[i] == s || r[i] in group
  {
    if group == [] then [s]
    else
      var n := |group| - 1;
      assert group == group[..n] + [group[n]];
      if group[n].start <= s.start then group + [s] else Insert(group[..n], s) + [group[n]]
  }

  ghost predicate AllBefore(group: seq<Session>, last: Session) {
    forall i :: 0 <= i < |group| ==> group[i].start <= last.start && group[i] != last
  }

  lemma SnocKeeps(group: seq<Session>, last: Session)
    requires InCaptureOrder(group) && Distinct(group) && AllBefore(group, last)
    ensures InCaptureOrder(group + [last]) && Distinct(group + [last])
  {
  }

  lemma InitOf(group: seq<Session>)
    requires group != [] && InCaptureOrder(group) && Distinct(group)
    ensures var n := |group| - 1; InCaptureOrder(group[..n]) && Distinct(group[..n]) && AllBefore(group[..n], group[n])
  {
  }

  lemma InsertedBefore(group: seq<Session>, s: Session, last: Session)
    requires AllBefore(group, last) && s.start <= last.start && s != last
    ensures AllBefore(Insert(group, s), last)
  {
    var r := Insert(group, s);
    forall i | 0 <= i < |r|
      ensures r[i].start <= last.start && r[i] != last
    {
      if r[i] != s {
        var k :| 0 <= k < |group| && group[k] == r[i];
      }
    }
  }

  lemma {:induction false} InsertKeeps(group: seq<Session>, s: Session)
    requires InCaptureOrder(group) && Distinct(group) && s !in group
    ensures InCaptureOrder(Insert(group, s)) && Distinct(Insert(group, s))
    decreases |group|
  {
    if group != [] {
      hide InCaptureOrder, Distinct, AllBefore;
      var n := |group| - 1;
      assert group[n] in group;
      InitOf(group);
      if group[n].start > s.start {
        assert s !in group[..n];
        InsertKeeps(group[..n], s);
        InsertedBefore(group[..n], s, group[n]);
        SnocKeeps(Insert(group[..n], s), group[n]);
      } else {
        LastOfAll(group, s);
        SnocKeeps(group, s);
      }
    }
  }

  lemma LastOfAll(group: seq<Session>, s: Session)
    requires group != [] && InCaptureOrder(group) && group[|group| - 1].start <= s.start && s !in group
    ensures AllBefore(group, s)
  {
  }

  /** o belongs to the object s is about to be stored in. */
  predicate SameObject(o: Session, s: Session, key: Key)
    reads o
  {
    o.id == s.id && o.key == key
  }

  /** claimGroup: every session that waits for the object, in capture order, is marked as uploading; nothing is touched
      while one of them still records. */
  method ClaimGroup(sessions: seq<Session>, s: Session, key: Key) returns (claim: Claim, group: seq<Session>)
    requires Distinct(sessions) && s in sessions
    modifies sessions`state
    ensures claim == (if IsTerminal(old(s.state)) then Terminal else if old(s.key) != key then KeyChanged
                      else if exists o :: o in sessions && old(SameObject(o, s, key)) && old(o.state) == Recording then
                        Deferred
                      else Claimed)
    ensures claim != Claimed ==> group == [] && forall o :: o in sessions ==> unchanged(o)
    ensures claim == Claimed ==>
              && Distinct(group) && InCaptureOrder(group) && s in group
              && forall o :: o in group <==> o in sessions && old(SameObject(o, s, key)) && Waiting(old(o.state))
    ensures forall o :: o in sessions ==> o.state == if o in group then Uploading else old(o.state)
  {
    group := [];
    if IsTerminal(s.state) {
      return Terminal, [];
    }
    if s.key != key {
      return KeyChanged, [];
    }
    for i := 0 to |sessions|
      invariant forall o :: o in sessions[..i] ==> !(SameObject(o, s, key) && o.state == Recording)
    {
      if sessions[i].id == s.id && sessions[i].key == key && sessions[i].state == Recording {
        return Deferred, [];
      }
    }
    assert sessions[..|sessions|] == sessions;
    for i := 0 to |sessions|
      invariant forall o :: o in sessions ==> unchanged(o)
      invariant Distinct(group) && InCaptureOrder(group)
      invariant forall o :: o in group <==> o in sessions[..i] && SameObject(o, s, key) && Waiting(o.state)
    {
      var o := sessions[i];
      if o.id == s.id && o.key == key && (o.state == Finalized || o.state == Uploading) {
        assert o !in sessions[..i];
        InsertKeeps(group, o);
        group := Insert(group, o);
      }
    }
    assert sessions[..|sessions|] == sessions;
    assert forall o :: o in group ==> o in sessions;
    for i := 0 to |group|
      invariant forall o :: o in sessions ==> o.state == if o in group[..i] then Uploading else old(o.state)
    {
      assert group[i] in group;
      group[i].state := Uploading;
    }
    assert group[..|group|] == group;
    claim := Claimed;
  }

  /** The highest rename counter of a group. */
  ghost function Renames(group: seq<Session>): (n: nat)
    reads group
    ensures forall o :: o in group ==> o.keyRenames <= n
    ensures n == 0 || exists o :: o in group && o.keyRenames == n
  {
    if group == [] then 0
    else
      var k := |group| - 1;
      var a := Renames(group[..k]);
      if group[k].keyRenames > a then group[k].keyRenames else a
  }

  method HighestRenames(group: seq<Session>) returns (renames: nat)
    ensures renames == Renames(group)
  {
    renames := 0;
    for i := 0 to |group|
      invariant renames == Renames(group[..i])
    {
      assert group[..i + 1][..i] == group[..i];
      if group[i].keyRenames > renames {
        renames := group[i].keyRenames;
      }
    }
    assert group[..|group|] == group;
  }

  method MoveGroup(group: seq<Session>, newKey: Key, renames: nat)
    requires Distinct(group)
    modifies group
    ensures forall o :: o in group ==>
              && o.key == newKey && o.keyRenames == renames && o.state == Finalized
              && o.uploadAttempts == old(o.uploadAttempts) + 1
              && o.mediaUploaded == (old(o.mediaUploaded) && old(o.key) == newKey)
              && (old(o.key) != newKey ==> o.uploadETag == "")
              && o.runs == old(o.runs)
  {
    for i := 0 to |group|
      invariant forall o :: o in group && o !in group[..i] ==> unchanged(o)
      invariant forall o :: o in group[..i] ==>
                  && o.key == newKey && o.keyRenames == renames && o.state == Finalized
                  && o.uploadAttempts == old(o.uploadAttempts) + 1 && o.runs == old(o.runs)
                  && o.mediaUploaded == (old(o.mediaUploaded) && old(o.key) == newKey)
                  && (old(o.key) != newKey ==> o.uploadETag == "")
    {
      var o := group[i];
      assert o !in group[..i];
      o.SetKey(newKey);
      o.keyRenames := renames;
      o.state := Finalized;
      o.uploadAttempts := o.uploadAttempts + 1;
    }
    assert group[..|group|] == group;
  }

  /** renameGroup: the whole group under one new, longer key with the same extension, and nothing of what was known
      about the old object; or, at the limit, nothing changes. */
  method RenameGroup(group: seq<Session>) returns (r: Renaming)
    requires group != [] && Distinct(group)
    modifies group
    ensures var n := old(Renames(group));
            r == if n >= MAX_RENAMES then TooOften else Renamed(RenamedKey(old(group[0].key), n))
    ensures r == TooOften ==> forall o :: o in group ==> unchanged(o)
    ensures r != TooOften ==>
              && |r.key| > |old(group[0].key)| && Ext(r.key) == Ext(old(group[0].key))
              && forall o :: o in group ==>
                   && o.key == r.key && o.keyRenames == old(Renames(group)) + 1 <= MAX_RENAMES
                   && o.state == Finalized && o.uploadAttempts == old(o.uploadAttempts) + 1
                   && o.mediaUploaded == (old(o.mediaUploaded) && old(o.key) == r.key)
                   && (old(o.key) != r.key ==> o.uploadETag == "")
                   && o.runs == old(o.runs)
  {
    hide Renames, RenamedKey, Ext, Distinct;
    var renames := HighestRenames(group);
    if renames >= MAX_RENAMES {
      return TooOften;
    }
    var newKey := RenamedKey(group[0].key, renames);
    RenamedKeepsExt(group[0].key, renames);
    MoveGroup(group, newKey, renames + 1);
    r := Renamed(newKey);
  }

  /** completeGroup, in memory: what is now true of every member, whichever key it was stored under. */
  method CompleteGroup(members: seq<Session>, key: Key, etag: string)
    requires Distinct(members)
    modifies members
    ensures forall o :: o in members ==>
              && o.state == Uploaded && o.mediaUploaded && o.key == key && o.uploadETag == etag
              && o.uploadAttempts == old(o.uploadAttempts) + 1 && o.keyRenames == old(o.keyRenames)
              && o.runs == old(o.runs)
  {
    for i := 0 to |members|
      invariant forall o :: o in members && o !in members[..i] ==> unchanged(o)
      invariant forall o :: o in members[..i] ==>
                  && o.state == Uploaded && o.mediaUploaded && o.key == key && o.uploadETag == etag
                  && o.uploadAttempts == old(o.uploadAttempts) + 1 && o.keyRenames == old(o.keyRenames)
                  && o.runs == old(o.runs)
    {
      var o := members[i];
      assert o !in members[..i];
      o.SetKey(key);
      o.mediaUploaded := true;
      o.state := Uploaded;
      o.uploadETag := etag;
      o.uploadAttempts := o.uploadAttempts + 1;
    }
    assert members[..|members|] == members;
  }
}
