/** The methods on session objects carry out the protocol's moves: claiming, renaming and completing a group on the
    objects of one recorder is InUpload, Moved and Completed on the state they represent, and the keyed lock gives the
    claim's guard. */
module UploadRefinement {
  import opened ObjectKeys
  import opened UploadProtocol
  import SessionRecord
  import Groups = UploadGroups
  import KeyedLocks

  type Session = SessionRecord.Session

  /** keepLocally is not part of the protocol. */
  function PhaseOf(state: SessionRecord.State): (p: Phase)
    requires !state.Kept?
  {
    match state
    case Recording => Recording
    case Finalized => Finalized
    case Uploading => Uploading
    case Uploaded => Uploaded
    case Failed => Failed
  }

  /** The object is in the state that the protocol has in memory; the loop is not part of it. */
  ghost predicate Shows(o: Session, m: Mem)
    reads o
  {
    !o.state.Kept? && m == Mem(PhaseOf(o.state), o.key, o.keyRenames, o.mediaUploaded, m.loop)
  }

  /** The objects are the recorder's sessions in memory, each under its own name. */
  ghost predicate Identified(w: World, mem: set<Sid>, rec: Rec, sessions: seq<Session>, ids: map<Session, Sid>) {
    && (forall o :: o in sessions ==> Named(w, mem, rec, o, ids))
    && (forall o, p :: o in sessions && p in sessions && o != p ==> o in ids && p in ids && ids[o] != ids[p])
    && (forall x :: x in mem && w.owner(x) == rec ==> exists o :: o in sessions && o in ids && ids[o] == x)
  }

  predicate Named(w: World, mem: set<Sid>, rec: Rec, o: Session, ids: map<Session, Sid>) {
    o in ids && ids[o] in mem && w.owner(ids[o]) == rec && w.rid(ids[o]) == o.id && w.start(ids[o]) == o.start
  }

  ghost predicate AllShow(s: State, sessions: seq<Session>, ids: map<Session, Sid>)
    reads sessions
  {
    forall o :: o in sessions ==> o in ids && ids[o] in s.mem && Shows(o, s.mem[ids[o]])
  }

  ghost predicate Represents(w: World, s: State, rec: Rec, sessions: seq<Session>, ids: map<Session, Sid>)
    reads sessions
  {
    Identified(w, s.mem.Keys, rec, sessions, ids) && AllShow(s, sessions, ids)
  }

  predicate Among(group: seq<Session>, sessions: seq<Session>, ids: map<Session, Sid>) {
    forall o :: o in group ==> o in sessions && o in ids
  }

  function Names(group: seq<Session>, ids: map<Session, Sid>): (r: seq<Sid>)
    requires forall o :: o in group ==> o in ids
    ensures |r| == |group| && forall i :: 0 <= i < |r| ==> r[i] == ids[group[i]]
  {
    if group == [] then [] else Names(group[..|group| - 1], ids) + [ids[group[|group| - 1]]]
  }

  /** A session is named exactly when its object is in the group. */
  lemma NamedIsIn(w: World, mem: set<Sid>, rec: Rec, sessions: seq<Session>, ids: map<Session, Sid>,
                  group: seq<Session>, o: Session)
    requires Identified(w, mem, rec, sessions, ids) && Among(group, sessions, ids) && o in sessions
    ensures o in ids && (ids[o] in Names(group, ids) <==> o in group)
  {
    var names := Names(group, ids);
    if o in group {
      var i :| 0 <= i < |group| && group[i] == o;
      assert names[i] == ids[o];
    }
    if ids[o] in names {
      var i :| 0 <= i < |names| && names[i] == ids[o];
      assert group[i] in group && ids[group[i]] == ids[o];
    }
  }

  lemma NamesKeepOrder(w: World, mem: set<Sid>, rec: Rec, sessions: seq<Session>, ids: map<Session, Sid>,
                       group: seq<Session>)
    requires Identified(w, mem, rec, sessions, ids) && Among(group, sessions, ids)
    requires Groups.Distinct(group) && Groups.InCaptureOrder(group)
    ensures NoDup(Names(group, ids)) && ByStart(w, Names(group, ids))
  {
    var names := Names(group, ids);
    forall i, j | 0 <= i < j < |names|
      ensures names[i] != names[j] && w.start(names[i]) <= w.start(names[j])
    {
      assert group[i] in group && group[j] in group;
      assert Named(w, mem, rec, group[i], ids) && Named(w, mem, rec, group[j], ids);
    }
  }

  // ---------------------------------------------------------------------------------------------------------------
  // Claiming
  // ---------------------------------------------------------------------------------------------------------------

  /** An object that shows m but is marked when named. */
  lemma Marked(s: State, o: Session, x: Sid, names: seq<Sid>)
    requires x in s.mem && o.key == s.mem[x].key && o.keyRenames == s.mem[x].renames
             && o.mediaUploaded == s.mem[x].stored
    requires if x in names then o.state == SessionRecord.Uploading
             else !o.state.Kept? && PhaseOf(o.state) == s.mem[x].phase
    ensures x in InUpload(s, names).mem && Shows(o, InUpload(s, names).mem[x])
  {
  }

  lemma MarkingKeepsKeys(s: State, names: seq<Sid>)
    ensures InUpload(s, names).mem.Keys == s.mem.Keys
  {
  }

  predicate Waits(m: Mem) {
    m.phase == Finalized || m.phase == Uploading
  }

  /** What claimGroup asks of a sibling, in the protocol's terms. */
  lemma SiblingIs(w: World, s: State, rec: Rec, sessions: seq<Session>, ids: map<Session, Sid>, o: Session, p: Session)
    requires Represents(w, s, rec, sessions, ids) && o in sessions && p in sessions
    ensures o in ids && p in ids && ids[o] in s.mem && ids[p] in s.mem
    ensures Groups.SameObject(p, o, o.key) <==> Claimable(w, s, ids[o], ids[p])
    ensures Groups.Waiting(p.state) <==> Waits(s.mem[ids[p]])
    ensures p.state == SessionRecord.Recording <==> s.mem[ids[p]].phase == Recording
    ensures p.key == s.mem[ids[p]].key
  {
    assert Named(w, s.mem.Keys, rec, o, ids) && Named(w, s.mem.Keys, rec, p, ids);
  }

  /** A group that claimGroup forms is one that the protocol grants. */
  lemma Granted(w: World, s: State, rec: Rec, sessions: seq<Session>, ids: map<Session, Sid>, o: Session,
                group: seq<Session>)
    requires Identified(w, s.mem.Keys, rec, sessions, ids) && o in group && Among(group, sessions, ids)
             && ids[o] in s.mem
    requires Groups.Distinct(group) && Groups.InCaptureOrder(group) && s.mem[ids[o]].loop == Waiting
             && Unlocked(w, s, ids[o])
    requires forall p :: p in sessions ==> p in ids && ids[p] in s.mem
    requires forall p :: p in sessions && Claimable(w, s, ids[o], ids[p]) ==> s.mem[ids[p]].phase != Recording
    requires forall p :: p in group <==> p in sessions && Claimable(w, s, ids[o], ids[p]) && Waits(s.mem[ids[p]])
    ensures CanClaim(w, s, ids[o], Names(group, ids))
  {
    var a, names := ids[o], Names(group, ids);
    NamesKeepOrder(w, s.mem.Keys, rec, sessions, ids, group);
    assert Named(w, s.mem.Keys, rec, o, ids);
    hide NoDup, ByStart, Unlocked, Groups.Distinct, Groups.InCaptureOrder;
    forall x | Claimable(w, s, a, x)
      ensures s.mem[x].phase != Recording && (x in names <==> Waits(s.mem[x]))
    {
      var p :| p in sessions && p in ids && ids[p] == x;
      NamedIsIn(w, s.mem.Keys, rec, sessions, ids, group, p);
    }
    forall x | x in names
      ensures Claimable(w, s, a, x) && Waits(s.mem[x])
    {
      var i :| 0 <= i < |names| && names[i] == x;
      assert group[i] in group;
    }
  }

  /** claimGroup marks what the protocol's claim marks, and grants it when the protocol does: the lock is the caller's
      business. */
  method Claim(sessions: seq<Session>, o: Session, key: Key, ghost w: World, ghost s: State, ghost rec: Rec,
               ghost ids: map<Session, Sid>)
      returns (claim: Groups.Claim, group: seq<Session>)
    requires Groups.Distinct(sessions) && o in sessions && Represents(w, s, rec, sessions, ids)
    modifies sessions`state
    ensures o in ids && ids[o] in s.mem
    ensures claim != Groups.Claimed ==> Represents(w, s, rec, sessions, ids)
    ensures claim == Groups.Claimed ==>
              && Among(group, sessions, ids) && s.mem[ids[o]].key == key
              && Represents(w, InUpload(s, Names(group, ids)), rec, sessions, ids)
              && (s.mem[ids[o]].loop == Waiting && Unlocked(w, s, ids[o]) ==> CanClaim(w, s, ids[o], Names(group, ids)))
    ensures claim == Groups.Deferred || claim == Groups.Terminal ==> forall g :: !CanClaim(w, s, ids[o], g)
  {
    hide InUpload, Unlocked, Claimable, Names, Groups.InCaptureOrder;
    forall p | p in sessions
      ensures p in ids && ids[p] in s.mem && p.key == s.mem[ids[p]].key && !p.state.Kept?
              && PhaseOf(p.state) == s.mem[ids[p]].phase
      ensures p.keyRenames == s.mem[ids[p]].renames && p.mediaUploaded == s.mem[ids[p]].stored
      ensures Groups.SameObject(p, o, o.key) <==> Claimable(w, s, ids[o], ids[p])
    {
      SiblingIs(w, s, rec, sessions, ids, o, p);
    }
    claim, group := Groups.ClaimGroup(sessions, o, key);
    if claim == Groups.Claimed {
      ghost var names := Names(group, ids);
      MarkingKeepsKeys(s, names);
      forall p | p in sessions
        ensures ids[p] in InUpload(s, names).mem && Shows(p, InUpload(s, names).mem[ids[p]])
      {
        NamedIsIn(w, s.mem.Keys, rec, sessions, ids, group, p);
        Marked(s, p, ids[p], names);
      }
      if s.mem[ids[o]].loop == Waiting && Unlocked(w, s, ids[o]) {
        Granted(w, s, rec, sessions, ids, o, group);
      }
    }
  }

  /** The guard that the claim leaves to its caller: a thread that holds the key's lock, as does every attempt for its
      own key. */
  lemma LockGivesTheGuard(w: World, s: State, a: Sid, steps: seq<KeyedLocks.Step>)
    requires a in s.mem && a !in s.attempts && HoldsLock(steps, a, s.mem[a].key)
    requires forall b :: b in s.attempts && w.owner(b) == w.owner(a) ==> HoldsLock(steps, b, s.attempts[b].key)
    ensures Unlocked(w, s, a)
  {
    hide KeyedLocks.After;
    forall b | b in s.attempts && w.owner(b) == w.owner(a)
      ensures s.attempts[b].key != s.mem[a].key
    {
      if s.attempts[b].key == s.mem[a].key {
        KeyedLocks.MutualExclusion(steps, a, b);
        assert false;
      }
    }
  }

  /** After these parts of lock and unlock, in any interleaving, the loop's goroutine holds the key's mutex. */
  predicate HoldsLock(steps: seq<KeyedLocks.Step>, a: Sid, key: Key) {
    var threads := KeyedLocks.After(steps).threads;
    a in threads && threads[a].Holding? && threads[a].key == key
  }

  // ---------------------------------------------------------------------------------------------------------------
  // Renaming
  // ---------------------------------------------------------------------------------------------------------------

  lemma {:induction false} RenamesAgree(s: State, group: seq<Session>, ids: map<Session, Sid>)
    requires forall o :: o in group ==> o in ids && ids[o] in s.mem && o.keyRenames == s.mem[ids[o]].renames
    ensures Groups.Renames(group) == MaxRenames(s, Names(group, ids))
    decreases |group|
  {
    if group != [] {
      var n := |group| - 1;
      RenamesAgree(s, group[..n], ids);
      assert Names(group, ids)[..n] == Names(group[..n], ids);
    }
  }

  lemma MoveShows(s: State, o: Session, x: Sid, names: seq<Sid>, key: Key, n: nat)
    requires x in s.mem
    requires if x in names then
               o.key == key && o.keyRenames == n + 1 && o.state == SessionRecord.Finalized &&
               o.mediaUploaded == (s.mem[x].stored && s.mem[x].key == key)
             else Shows(o, s.mem[x])
    ensures x in Moved(s, names, key, n).mem && Shows(o, Moved(s, names, key, n).mem[x])
  {
  }

  lemma MovingKeepsKeys(s: State, names: seq<Sid>, key: Key, n: nat)
    ensures Moved(s, names, key, n).mem.Keys == s.mem.Keys
  {
  }

  /** renameGroup is Moved under the same key, and gives up at the same limit. */
  method Rename(sessions: seq<Session>, group: seq<Session>, ghost w: World, ghost s: State, ghost rec: Rec,
                ghost ids: map<Session, Sid>)
      returns (r: Groups.Renaming)
    requires group != [] && Groups.Distinct(group) && Among(group, sessions, ids)
             && Represents(w, s, rec, sessions, ids)
    modifies group
    ensures var n := MaxRenames(s, Names(group, ids));
            && (r == Groups.TooOften <==> n >= MAX_RENAMES)
            && (r == Groups.TooOften ==> Represents(w, s, rec, sessions, ids))
            && (r != Groups.TooOften ==>
                  && ids[group[0]] in s.mem && r.key == RenamedKey(s.mem[ids[group[0]]].key, n)
                  && Represents(w, Moved(s, Names(group, ids), r.key, n), rec, sessions, ids))
  {
    hide Moved, Names, RenamedKey, MaxRenames, Groups.Renames;
    ghost var names := Names(group, ids);
    ghost var n := MaxRenames(s, names);
    assert group[0] in group;
    forall p | p in sessions
      ensures p in ids && ids[p] in s.mem && p.key == s.mem[ids[p]].key && !p.state.Kept?
              && PhaseOf(p.state) == s.mem[ids[p]].phase
      ensures p.keyRenames == s.mem[ids[p]].renames && p.mediaUploaded == s.mem[ids[p]].stored
    {
      assert Shows(p, s.mem[ids[p]]);
    }
    RenamesAgree(s, group, ids);
    r := Groups.RenameGroup(group);
    if r != Groups.TooOften {
      MovingKeepsKeys(s, names, r.key, n);
      forall p | p in sessions
        ensures ids[p] in Moved(s, names, r.key, n).mem && Shows(p, Moved(s, names, r.key, n).mem[ids[p]])
      {
        NamedIsIn(w, s.mem.Keys, rec, sessions, ids, group, p);
        MoveShows(s, p, ids[p], names, r.key, n);
      }
    } else {
      forall p | p in sessions
        ensures Shows(p, s.mem[ids[p]])
      {
        assert p in group ==> unchanged(p);
      }
    }
  }

  // ---------------------------------------------------------------------------------------------------------------
  // Completing
  // ---------------------------------------------------------------------------------------------------------------

  lemma CompletionShows(s: State, o: Session, x: Sid, names: seq<Sid>, key: Key)
    requires x in s.mem
    requires if x in names then
               o.key == key && o.keyRenames == s.mem[x].renames && o.state == SessionRecord.Uploaded && o.mediaUploaded
             else Shows(o, s.mem[x])
    ensures x in Completed(s, names, key).mem && Shows(o, Completed(s, names, key).mem[x])
  {
  }

  lemma CompletingKeepsKeys(s: State, names: seq<Sid>, key: Key)
    ensures Completed(s, names, key).mem.Keys == s.mem.Keys
  {
  }

  /** completeGroup is Completed. */
  method Complete(sessions: seq<Session>, members: seq<Session>, key: Key, etag: string, ghost w: World, ghost s: State,
                  ghost rec: Rec,
                  ghost ids: map<Session, Sid>)
    requires Groups.Distinct(members) && Among(members, sessions, ids) && Represents(w, s, rec, sessions, ids)
    modifies members
    ensures Represents(w, Completed(s, Names(members, ids), key), rec, sessions, ids)
  {
    hide Completed, Names;
    ghost var names := Names(members, ids);
    forall p | p in sessions
      ensures p in ids && ids[p] in s.mem && p.keyRenames == s.mem[ids[p]].renames
    {
      assert Shows(p, s.mem[ids[p]]);
    }
    Groups.CompleteGroup(members, key, etag);
    CompletingKeepsKeys(s, names, key);
    forall p | p in sessions
      ensures ids[p] in Completed(s, names, key).mem && Shows(p, Completed(s, names, key).mem[ids[p]])
    {
      NamedIsIn(w, s.mem.Keys, rec, sessions, ids, members, p);
      CompletionShows(s, p, ids[p], names, key);
    }
  }
}
