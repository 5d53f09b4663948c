/** The invariant of the upload protocol: what holds after every step, crash or no crash. */
module UploadInvariant {
  import opened Bytes
  import opened ObjectKeys
  import opened UploadProtocol

  // ---------------------------------------------------------------------------------------------------------------
  // Objects
  // ---------------------------------------------------------------------------------------------------------------

  predicate BySecond(w: World, s: seq<Sid>) {
    forall i, j :: 0 <= i < j < |s| ==> Second(w.start(s[i])) <= Second(w.start(s[j]))
  }

  /** Recording ids come back from metadata as what they went out as, once they have been through it. */
  ghost predicate StableHeaders(w: World) {
    forall x: Sid :: w.header(w.header(w.rid(x))) == w.header(w.rid(x))
  }

  /** Every part is its session's audio, unless a repair that was not safe had been at the capture. */
  ghost predicate PartsOk(made: map<Sid, seq<Frame>>, cut: set<Sid>, sessions: seq<Sid>, parts: seq<seq<Frame>>) {
    && |parts| == |sessions|
    && forall i :: 0 <= i < |sessions| ==> sessions[i] in made && (sessions[i] in cut || parts[i] == made[sessions[i]])
  }

  /** An object the recorder wrote: it holds exactly the audio of the sessions it was written for, each once, in order
      of their whole-second starts, a part each; and its metadata says so as far as it reaches. */
  ghost predicate GoodObject(w: World, made: map<Sid, seq<Frame>>, cut: set<Sid>, m: Meta, whose: seq<Sid>,
                             parts: seq<seq<Frame>>)
  {
    && whose != [] && NoDup(whose) && BySecond(w, whose) && PartsOk(made, cut, whose, parts)
    && TrueMeta(w, m, whose)
  }

  /** The manifest names the sessions up to the 113th and counts them all; or, of more than 114, it is contradictory. */
  ghost predicate TrueMeta(w: World, m: Meta, whose: seq<Sid>)
    requires whose != []
  {
    if |whose| > NAMED + 1 then m == Broken
    else
      && m.Manifest? && m.sessions == Named(whose) && m.parts == |whose|
      && m.last == Second(w.start(whose[|whose| - 1]))
      && (StableHeaders(w) ==> forall x :: x in whose ==> w.header(w.rid(x)) == m.rid)
  }

  /** The metadata of the object under the key lists the session. */
  predicate ListedAt(bucket: map<Key, Object>, key: Key, x: Sid) {
    key in bucket && bucket[key].meta.Manifest? && x in bucket[key].meta.sessions
  }

  /** The object under the key holds a part of the session. */
  predicate HeldAt(bucket: map<Key, Object>, key: Key, x: Sid) {
    key in bucket && x in bucket[key].whose
  }

  ghost predicate IsStored(bucket: map<Key, Object>, x: Sid) {
    exists key :: HeldAt(bucket, key, x)
  }

  predicate AllAt(bucket: map<Key, Object>, key: Key, s: seq<Sid>) {
    forall x :: x in s ==> HeldAt(bucket, key, x)
  }

  /** What a merge makes of o: sessions and audio appended, within the cap. */
  predicate Grows(o: Object, m: Meta, whose: seq<Sid>, parts: seq<seq<Frame>>) {
    && o.meta.Manifest? && m.Manifest?
    && o.whose < whose && |whose| <= MAX_PARTS && o.meta.sessions == o.whose && m.sessions == whose
    && o.parts <= parts
  }

  /** o became o': not at all, or by a merge. */
  predicate Extends(o: Object, o': Object) {
    o' == o || (Grows(o, o'.meta, o'.whose, o'.parts) && o.etag < o'.etag)
  }

  // ---------------------------------------------------------------------------------------------------------------
  // Sessions
  // ---------------------------------------------------------------------------------------------------------------

  /** It waits for an upload or is in one. */
  predicate Pending(phase: Phase) {
    phase == Finalized || phase == Uploading
  }

  /** The session records no more, in memory or after a crash. */
  predicate Settled(s: State, x: Sid) {
    && x in s.made
    && (x in s.mem ==> s.mem[x].phase != Recording)
    && (x in s.cards ==> s.cards[x].phase != Recording)
  }

  ghost predicate BucketOk(w: World, s: State) {
    forall key :: key in s.bucket ==> s.bucket[key].etag < s.nextEtag && ObjectOk(w, s, s.bucket[key])
  }

  ghost predicate ObjectOk(w: World, s: State, o: Object) {
    if o.whose == [] then !o.meta.Manifest? else Written(w, s, o.meta, o.whose, o.parts)
  }

  ghost predicate Written(w: World, s: State, m: Meta, whose: seq<Sid>, parts: seq<seq<Frame>>) {
    GoodObject(w, s.made, s.cut, m, whose, parts) && forall x :: x in whose ==> Settled(s, x)
  }

  /** A request would, if it were accepted, write a good object or grow one. */
  ghost predicate RequestOk(w: World, s: State, r: Request) {
    && Written(w, s, r.meta, r.whose, r.parts)
    && (r.ifMatch.Some? ==>
          && r.ifMatch.value < s.nextEtag
          && (Accepts(s, r) ==> Grows(s.bucket[r.key], r.meta, r.whose, r.parts)))
  }

  ghost predicate LateOk(w: World, s: State) {
    forall r :: r in s.late ==> RequestOk(w, s, r)
  }

  ghost predicate FilesOk(s: State) {
    forall x :: x in s.files ==> x in s.made && (x in s.cut || s.files[x].frames == s.made[x])
  }

  /** Audio that was captured has its capture or is in an object, and a capture that was repaired is not empty. */
  ghost predicate AudioKept(s: State) {
    && (forall x :: x in s.made && s.made[x] != [] ==> x in s.files || IsStored(s.bucket, x))
    && (forall x :: x in s.cut ==> x in s.made && (x in s.files ==> !s.files[x].Empty()))
  }

  /** What memory and sidecars claim about the object is true, the rename counter is bounded, and a session that stopped
      recording has said so in its sidecar. */
  predicate Known(s: State) {
    && (forall x :: x in s.mem ==>
          && x in s.made && s.mem[x].renames <= MAX_RENAMES && (s.mem[x].stored ==> HeldAt(s.bucket, s.mem[x].key, x))
          && (if s.mem[x].phase == Recording then s.mem[x].loop == NoLoop
              else x in s.cards ==> s.cards[x].phase != Recording))
    && (forall x :: x in s.cards ==>
          x in s.made && s.cards[x].renames <= MAX_RENAMES
          && (s.cards[x].stored ==> HeldAt(s.bucket, s.cards[x].key, x)))
  }

  // ---------------------------------------------------------------------------------------------------------------
  // Attempts
  // ---------------------------------------------------------------------------------------------------------------

  /** One attempt per recorder and key: the keyed lock. A recorder that is down has nothing in memory. */
  predicate Locks(w: World, s: State) {
    && (forall a, b :: a in s.attempts && b in s.attempts && a != b && w.owner(a) == w.owner(b) ==>
          s.attempts[a].key != s.attempts[b].key)
    && (forall x :: x in s.mem ==> w.owner(x) !in s.down)
  }

  /** The attempt has not completed its group yet. */
  predicate Open(pc: Pc) {
    !pc.Writing? && !pc.Removing?
  }

  /** The attempt's lock is on the key its group has: always, but while it completes what it stored under another key,
      the raw fallback's. */
  predicate Locked(t: Attempt) {
    Open(t.pc) || ((t.pc.Writing? || t.pc.Removing?) && t.pc.target == t.key)
  }

  predicate Members(w: World, s: State, a: Sid, t: Attempt) {
    && a in s.mem && a in t.group
    && forall g :: g in t.group ==>
         && g in s.mem && w.owner(g) == w.owner(a) && w.rid(g) == w.rid(a) && Settled(s, g)
         && (Locked(t) ==> s.mem[g].key == t.key)
  }

  predicate Within(s: seq<Sid>, group: seq<Sid>) {
    forall x :: x in s ==> x in group
  }

  /** o was under the key when the attempt looked; since then it has not changed or was extended. */
  ghost predicate Snapshot(w: World, s: State, key: Key, o: Object) {
    && o.meta.Manifest? && o.etag < s.nextEtag && Written(w, s, o.meta, o.whose, o.parts)
    && key in s.bucket && Extends(o, s.bucket[key])
  }

  /** The sessions to add may follow the ones in the object, and fit. */
  predicate Fits(w: World, m: Meta, toAdd: seq<Sid>, present: seq<Sid>)
    requires m.Manifest?
  {
    && (forall x :: x in toAdd ==> x !in m.sessions && w.start(x) >= m.last * 1000)
    && (toAdd != [] ==> m.parts + |toAdd| <= MAX_PARTS)
    && (forall x :: x in present ==> x in m.sessions)
  }

  ghost predicate Plan(w: World, s: State, a: Sid, t: Attempt, remote: Option<Object>, toAdd: seq<Sid>,
                       present: seq<Sid>) {
    && Within(toAdd, t.group) && Within(present, t.group) && NoDup(toAdd) && ByStart(w, toAdd)
    && (remote.None? ==> present == [])
    && (remote.Some? ==> Snapshot(w, s, t.key, remote.value) && remote.value.meta.rid == w.rid(a)
                         && Fits(w, remote.value.meta, toAdd, present))
  }

  /** Where an attempt may store: under its lock's key, or under the raw fallback's. */
  predicate Target(t: Attempt, target: Key) {
    target == t.key || target == FallbackKey(t.key)
  }

  ghost predicate PcOk(w: World, s: State, a: Sid, t: Attempt) {
    match t.pc
    case Claimed => NoDup(t.group) && ByStart(w, t.group)
    case Classified(local, missing, bad) =>
      && Within(local, t.group) && Within(missing, t.group) && Within(bad, t.group) && NoDup(local) && ByStart(w, local)
      && forall x :: x in local ==> x !in missing
    case Decided(remote, toAdd, present, bad) => Plan(w, s, a, t, remote, toAdd, present) && Within(bad, t.group)
    case Refused(bad) => Within(bad, t.group)
    case Measured(remote, toAdd, present, bad) => Plan(w, s, a, t, remote, toAdd, present) && Within(bad, t.group)
    case Built(remote, toAdd, present, parts) =>
      && Plan(w, s, a, t, remote, toAdd, present) && toAdd != []
      && PartsOk(s.made, s.cut, Whose(remote) + toAdd, parts) && StoredParts(remote) <= parts
    case Verifying(etag, toAdd, present) =>
      Within(toAdd, t.group) && Within(present, t.group) && AllAt(s.bucket, t.key, toAdd)
      && AllAt(s.bucket, t.key, present)
    case GivenUp(toAdd) => Plan(w, s, a, t, None, toAdd, []) && toAdd != []
    case RawBuilt(toAdd, parts) =>
      Plan(w, s, a, t, None, toAdd, []) && toAdd != [] && PartsOk(s.made, s.cut, toAdd, parts)
    case Stored(members, target) => Within(members, t.group) && AllAt(s.bucket, target, members) && Target(t, target)
    case Writing(todo, target, failed) => Within(todo, t.group) && AllAt(s.bucket, target, todo) && Target(t, target)
    case Removing(todo, target, failed) => Within(todo, t.group) && AllAt(s.bucket, target, todo) && Target(t, target)
  }

  ghost predicate AttemptOk(w: World, s: State, a: Sid, t: Attempt) {
    Members(w, s, a, t) && PcOk(w, s, a, t)
  }

  ghost predicate Inv(w: World, s: State) {
    && BucketOk(w, s) && LateOk(w, s) && FilesOk(s) && AudioKept(s) && Known(s) && Locks(w, s)
    && forall a :: a in s.attempts ==> AttemptOk(w, s, a, s.attempts[a])
  }

  // ---------------------------------------------------------------------------------------------------------------
  // What every step carries over
  // ---------------------------------------------------------------------------------------------------------------

  /** Objects only grow, ETags are not used twice, and a session that has settled stays so, with its audio unchanged. */
  ghost predicate Carries(s: State, s': State) {
    && s.nextEtag <= s'.nextEtag && s.cut <= s'.cut
    && (forall key :: key in s.bucket ==> key in s'.bucket && Extends(s.bucket[key], s'.bucket[key]))
    && (forall key :: key in s'.bucket ==>
          (key in s.bucket && s'.bucket[key] == s.bucket[key]) || s'.bucket[key].etag >= s.nextEtag)
    && (forall x :: Settled(s, x) ==> Settled(s', x) && s'.made[x] == s.made[x])
  }

  lemma PartsCarry(s: State, s': State, sessions: seq<Sid>, parts: seq<seq<Frame>>)
    requires PartsOk(s.made, s.cut, sessions, parts) && s.cut <= s'.cut
    requires forall x :: x in sessions ==> x in s'.made && (x in s.made ==> s'.made[x] == s.made[x])
    ensures PartsOk(s'.made, s'.cut, sessions, parts)
  {
  }

  lemma ExtendsTransitively(a: Object, b: Object, c: Object)
    requires Extends(a, b) && Extends(b, c)
    ensures Extends(a, c)
  {
    if b != a && c != b {
      assert a.whose <= c.whose;
    }
  }

  lemma HeldCarries(s: State, s': State, key: Key, x: Sid)
    requires Carries(s, s') && HeldAt(s.bucket, key, x)
    ensures HeldAt(s'.bucket, key, x)
  {
    var o, o' := s.bucket[key], s'.bucket[key];
    assert Extends(o, o');
    if o' != o {
      var i :| 0 <= i < |o.whose| && o.whose[i] == x;
      assert o'.whose[i] == x;
    }
  }

  lemma ListedCarries(s: State, s': State, key: Key, x: Sid)
    requires Carries(s, s') && ListedAt(s.bucket, key, x)
    ensures ListedAt(s'.bucket, key, x)
  {
    var o, o' := s.bucket[key], s'.bucket[key];
    assert Extends(o, o');
    if o' != o {
      var i :| 0 <= i < |o.whose| && o.whose[i] == x;
      assert o'.whose[i] == x;
    }
  }

  lemma AllAtCarries(s: State, s': State, key: Key, l: seq<Sid>)
    requires Carries(s, s') && AllAt(s.bucket, key, l)
    ensures AllAt(s'.bucket, key, l)
  {
    hide Carries;
    forall x | x in l
      ensures HeldAt(s'.bucket, key, x)
    {
      HeldCarries(s, s', key, x);
    }
  }

  lemma WrittenCarries(w: World, s: State, s': State, m: Meta, whose: seq<Sid>, parts: seq<seq<Frame>>)
    requires Carries(s, s') && Written(w, s, m, whose, parts)
    ensures Written(w, s', m, whose, parts)
  {
    hide NoDup, BySecond, TrueMeta, PartsOk, Extends;
    assert forall x :: x in whose ==> x in s'.made && (x in s.made ==> s'.made[x] == s.made[x]);
    PartsCarry(s, s', whose, parts);
  }

  lemma RequestCarries(w: World, s: State, s': State, r: Request)
    requires Carries(s, s') && RequestOk(w, s, r)
    ensures RequestOk(w, s', r)
  {
    WrittenCarries(w, s, s', r.meta, r.whose, r.parts);
    hide Written, Settled, Extends, Grows;
  }

  lemma LateCarries(w: World, s: State, s': State)
    requires Carries(s, s') && LateOk(w, s) && s'.late <= s.late
    ensures LateOk(w, s')
  {
    hide Carries, RequestOk;
    forall r | r in s'.late
      ensures RequestOk(w, s', r)
    {
      RequestCarries(w, s, s', r);
    }
  }

  lemma PlanCarries(w: World, s: State, s': State, a: Sid, t: Attempt, remote: Option<Object>, toAdd: seq<Sid>,
                    present: seq<Sid>)
    requires Carries(s, s') && Plan(w, s, a, t, remote, toAdd, present)
    ensures Plan(w, s', a, t, remote, toAdd, present)
  {
    hide NoDup, ByStart, Within, Fits, Written, Settled, Extends;
    if remote.Some? {
      WrittenCarries(w, s, s', remote.value.meta, remote.value.whose, remote.value.parts);
      ExtendsTransitively(remote.value, s.bucket[t.key], s'.bucket[t.key]);
    }
  }

  lemma PlannedCarry(w: World, s: State, s': State, a: Sid, t: Attempt, remote: Option<Object>, toAdd: seq<Sid>,
                     present: seq<Sid>,
                     parts: seq<seq<Frame>>)
    requires Carries(s, s') && Plan(w, s, a, t, remote, toAdd, present) && Members(w, s, a, t)
    ensures PartsOk(s.made, s.cut, Whose(remote) + toAdd, parts) ==>
              PartsOk(s'.made, s'.cut, Whose(remote) + toAdd, parts)
  {
    hide NoDup, ByStart, PartsOk, Fits, Extends, GoodObject;
    if PartsOk(s.made, s.cut, Whose(remote) + toAdd, parts) {
      assert forall x :: x in Whose(remote) + toAdd ==> Settled(s, x);
      PartsCarry(s, s', Whose(remote) + toAdd, parts);
    }
  }

  lemma PcCarries(w: World, s: State, s': State, a: Sid, t: Attempt)
    requires Carries(s, s') && AttemptOk(w, s, a, t)
    ensures PcOk(w, s', a, t)
  {
    hide NoDup, ByStart, AllAt, PartsOk, Plan, Members, Carries;
    match t.pc
    case Claimed =>
    case Classified(_, _, _) =>
    case Decided(remote, add, present, _) => PlanCarries(w, s, s', a, t, remote, add, present);
    case Refused(_) =>
    case Measured(remote, add, present, _) => PlanCarries(w, s, s', a, t, remote, add, present);
    case Built(remote, add, present, parts) =>
      PlanCarries(w, s, s', a, t, remote, add, present);
      PlannedCarry(w, s, s', a, t, remote, add, present, parts);
    case Verifying(_, add, present) => AllAtCarries(s, s', t.key, add); AllAtCarries(s, s', t.key, present);
    case GivenUp(add) => PlanCarries(w, s, s', a, t, None, add, []);
    case RawBuilt(add, parts) =>
      PlanCarries(w, s, s', a, t, None, add, []);
      PlannedCarry(w, s, s', a, t, None, add, [], parts);
      assert [] + add == add;
    case Stored(members, target) => AllAtCarries(s, s', target, members);
    case Writing(todo, target, _) => AllAtCarries(s, s', target, todo);
    case Removing(todo, target, _) => AllAtCarries(s, s', target, todo);
  }

  lemma PlanWithin(w: World, s: State, a: Sid, t: Attempt, remote: Option<Object>, toAdd: seq<Sid>, present: seq<Sid>)
    requires Plan(w, s, a, t, remote, toAdd, present)
    ensures Within(toAdd, t.group) && Within(present, t.group)
  {
  }

  /** Every attempt is one of before with its members kept, or known to be in order. */
  ghost predicate AttemptsKept(w: World, s: State, s': State) {
    forall b :: b in s'.attempts ==>
      || AttemptOk(w, s', b, s'.attempts[b])
      || (b in s.attempts && s'.attempts[b] == s.attempts[b] && Members(w, s', b, s'.attempts[b]))
  }

  lemma Preserved(w: World, s: State, s': State)
    requires Inv(w, s) && Carries(s, s') && AttemptsKept(w, s, s')
    requires BucketOk(w, s') && LateOk(w, s') && FilesOk(s') && AudioKept(s') && Known(s') && Locks(w, s')
    ensures Inv(w, s')
  {
    hide BucketOk, LateOk, FilesOk, AudioKept, Known, Members, PcOk, Carries, Locks;
    forall b | b in s'.attempts
      ensures AttemptOk(w, s', b, s'.attempts[b])
    {
      if !AttemptOk(w, s', b, s'.attempts[b]) {
        PcCarries(w, s, s', b, s.attempts[b]);
      }
    }
  }

  lemma ObjectCarries(w: World, s: State, s': State, o: Object)
    requires Carries(s, s') && ObjectOk(w, s, o)
    ensures ObjectOk(w, s', o)
  {
    hide Carries, Written;
    if o.whose != [] {
      WrittenCarries(w, s, s', o.meta, o.whose, o.parts);
    }
  }

  lemma BucketCarries(w: World, s: State, s': State)
    requires BucketOk(w, s) && Carries(s, s') && s'.bucket == s.bucket
    ensures BucketOk(w, s')
  {
    hide ObjectOk, Settled;
    forall key | key in s.bucket
      ensures ObjectOk(w, s', s.bucket[key])
    {
      ObjectCarries(w, s, s', s.bucket[key]);
    }
  }

  /** Only memory, sidecars and attempts changed. */
  lemma Remembered(w: World, s: State, s': State)
    requires Inv(w, s) && s' == s.(mem := s'.mem, cards := s'.cards, attempts := s'.attempts)
    requires Carries(s, s') && Known(s') && Locks(w, s') && AttemptsKept(w, s, s')
    ensures Inv(w, s')
  {
    hide BucketOk, LateOk, Known, AttemptOk, AttemptsKept, Carries, Locks;
    BucketCarries(w, s, s');
    LateCarries(w, s, s');
    Preserved(w, s, s');
  }
}
