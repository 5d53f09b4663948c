/** The upload/merge protocol (internal/recorder/upload.go, with the recovery half of internal/recorder/manager.go) as a
    state machine: any number of recorders, their upload loops and one bucket that enforces preconditions, in atomic
    steps that interleave freely. A crash may come between any two steps. The capture's whole frames are its audio;
    building an object is concatenation. */
module UploadProtocol {
  import opened Bytes
  import opened ObjectKeys

  type Sid = nat
  type Rec = nat
  type Frame = seq<Byte>

  const MAX_PARTS: nat := 20

  /** What never changes about a session: its recorder, the recording it belongs to, its start in milliseconds. `header`
      is what becomes of a recording id on its way through object metadata and back. */
  datatype World = World(owner: Sid -> Rec, rid: Sid -> string, start: Sid -> int, header: string -> string)

  datatype Phase = Recording | Finalized | Uploading | Uploaded | Failed

  /** The session's upload goroutine: none, before an attempt, in one, or after a failed one. */
  datatype Loop = NoLoop | Waiting | Attempting | Failing

  datatype Mem = Mem(phase: Phase, key: Key, renames: nat, stored: bool, loop: Loop)

  /** The durable sidecar. */
  datatype Card = Card(phase: Phase, key: Key, renames: nat, stored: bool)

  /** A capture file: its whole frames, and whether it holds other bytes. */
  datatype File = File(frames: seq<Frame>, junk: bool)
  {
    predicate Empty() { frames == [] && !junk }
  }

  /** An object's metadata as it reads back: none of the recorder's, contradictory, or a manifest. `sessions` are those
      its list names, `parts` its count; `last` is in whole seconds. */
  datatype Meta = Foreign | Broken | Manifest(rid: string, sessions: seq<Sid>, parts: nat, last: int)

  /** An object's content is its parts one after the other. `whose` is history: the sessions they were captured by,
      which the metadata need not name; none for an object that is not the recorder's. */
  datatype Object = Object(etag: nat, meta: Meta, whose: seq<Sid>, parts: seq<seq<Frame>>)
  {
    function Content(): (c: seq<Frame>) { Flatten(parts) }
  }

  /** A PUT on its way: create-only, or only on the object with this ETag. */
  datatype Request = Request(key: Key, ifMatch: Option<nat>, meta: Meta, whose: seq<Sid>, parts: seq<seq<Frame>>)

  /** How far an attempt is. `remote` is the object as the HEAD saw it, `bad` the members still to be parked as failed;
      a refused group is moved away after that. */
  datatype Pc =
    | Claimed
    | Classified(local: seq<Sid>, missing: seq<Sid>, bad: seq<Sid>)
    | Decided(remote: Option<Object>, toAdd: seq<Sid>, present: seq<Sid>, bad: seq<Sid>)
    | Refused(bad: seq<Sid>)
    | Measured(remote: Option<Object>, toAdd: seq<Sid>, present: seq<Sid>, bad: seq<Sid>)
    | Built(remote: Option<Object>, toAdd: seq<Sid>, present: seq<Sid>, parts: seq<seq<Frame>>)
    | Verifying(etag: nat, toAdd: seq<Sid>, present: seq<Sid>)
    | GivenUp(toAdd: seq<Sid>)
    | RawBuilt(toAdd: seq<Sid>, parts: seq<seq<Frame>>)
    | Stored(members: seq<Sid>, target: Key)
    | Writing(todo: seq<Sid>, target: Key, failed: bool)
    | Removing(todo: seq<Sid>, target: Key, failed: bool)

  datatype Attempt = Attempt(key: Key, group: seq<Sid>, pc: Pc)

  /** `late` are requests that the store may still apply although their attempt is over. `made` and `cut` are history:
      every frame a capture ever received, and the sessions whose capture lost or changed whole frames in a tail repair
      that was not safe. Attempts are listed under the session whose loop runs them. */
  datatype State = State(bucket: map<Key, Object>, nextEtag: nat, late: set<Request>, made: map<Sid, seq<Frame>>,
                         cut: set<Sid>, files: map<Sid, File>, cards: map<Sid, Card>, mem: map<Sid, Mem>,
                         attempts: map<Sid, Attempt>, down: set<Rec>)

  function Init(): (s: State)
  {
    State(map[], 0, {}, map[], {}, map[], map[], map[], map[], {})
  }

  // ---------------------------------------------------------------------------------------------------------------
  // Lists of sessions
  // ---------------------------------------------------------------------------------------------------------------

  predicate NoDup(s: seq<Sid>) {
    forall i, j :: 0 <= i < j < |s| ==> s[i] != s[j]
  }

  predicate ByStart(w: World, s: seq<Sid>) {
    forall i, j :: 0 <= i < j < |s| ==> w.start(s[i]) <= w.start(s[j])
  }

  /** The elements of s in (or out of) a set, in order. */
  function Pick(s: seq<Sid>, these: set<Sid>): (r: seq<Sid>)
    ensures forall x :: x in r <==> x in s && x in these
  {
    if s == [] then []
    else
      var r := Pick(s[..|s| - 1], these);
      var x := s[|s| - 1];
      if x in these then r + [x] else r
  }

  function Elements(s: seq<Sid>): (r: set<Sid>)
  {
    set x | x in s
  }

  /** The whole frames of the sessions' captures, a part per session. */
  function Parts(files: map<Sid, File>, s: seq<Sid>): (r: seq<seq<Frame>>)
    ensures |r| == |s| && forall i :: 0 <= i < |s| ==> r[i] == if s[i] in files then files[s[i]].frames else []
  {
    seq(|s|, i requires 0 <= i < |s| => if s[i] in files then files[s[i]].frames else [])
  }

  // ---------------------------------------------------------------------------------------------------------------
  // The object an attempt writes
  // ---------------------------------------------------------------------------------------------------------------

  /** RFC 3339 without fractions: whole seconds, rounded down. */
  function Second(ms: int): (s: int) {
    ms / 1000
  }

  function Listed(remote: Option<Object>): (s: seq<Sid>)
  {
    if remote.Some? && remote.value.meta.Manifest? then remote.value.meta.sessions else []
  }

  function StoredParts(remote: Option<Object>): (c: seq<seq<Frame>>)
  {
    if remote.Some? then remote.value.parts else []
  }

  function Whose(remote: Option<Object>): (s: seq<Sid>)
  {
    if remote.Some? then remote.value.whose else []
  }

  /** latest, folded over the sessions that are added. */
  function Latest(w: World, t: Option<int>, s: seq<Sid>): (r: Option<int>)
  {
    if s == [] then t
    else
      var a, b := Latest(w, t, s[..|s| - 1]), w.start(s[|s| - 1]);
      if a.None? || b > a.value then Some(b) else a
  }

  /** How many sessions a list can name: a header's 1024 bytes hold 113 digests, and all but the last digit of one
      more. */
  const NAMED: nat := 113

  function Named(list: seq<Sid>): (s: seq<Sid>)
    ensures s <= list && forall x :: x in s ==> x in list
  {
    if |list| <= NAMED then list else list[..NAMED]
  }

  /** What a manifest that is sent reads back as. With one session too many for the header the list still has as many
      entries as the count says, the last of which names nobody; with more the count contradicts it. */
  function ReadBack(rid: string, list: seq<Sid>, count: nat, last: int): (m: Meta)
  {
    if |list| > NAMED + 1 || |list| != count then Broken else Manifest(rid, Named(list), count, last)
  }

  /** summarize and objectMetadata, as far as merging goes, and the way through the header. */
  function NewMeta(w: World, remote: Option<Object>, toAdd: seq<Sid>): (m: Meta)
    requires toAdd != []
    requires remote.Some? ==> remote.value.meta.Manifest?
    ensures !m.Foreign?
  {
    var last := if remote.Some? then Some(remote.value.meta.last * 1000) else None;
    ReadBack(w.header(if remote.Some? then remote.value.meta.rid else w.rid(toAdd[0])),
             Listed(remote) + toAdd,
             (if remote.Some? then remote.value.meta.parts else 0) + |toAdd|,
             Second(Latest(w, last, toAdd).GetOr(0)))
  }

  // ---------------------------------------------------------------------------------------------------------------
  // Pieces of the steps
  // ---------------------------------------------------------------------------------------------------------------

  function SetPc(s: State, a: Sid, pc: Pc): (s': State)
    requires a in s.attempts
    ensures s' == s.(attempts := s'.attempts)
  {
    s.(attempts := s.attempts[a := s.attempts[a].(pc := pc)])
  }

  function Looping(s: State, x: Sid, loop: Loop): (s': State)
    ensures s' == s.(mem := s'.mem)
  {
    s.(mem := if x in s.mem then s.mem[x := s.mem[x].(loop := loop)] else s.mem)
  }

  /** The attempt is over and its keyed lock released. */
  function End(s: State, a: Sid, ok: bool): (s': State)
    ensures s' == s.(attempts := s.attempts - {a}, mem := s'.mem)
  {
    Looping(s.(attempts := s.attempts - {a}), a, if ok then NoLoop else Failing)
  }

  /** The sidecars of `saved`, rewritten from memory. */
  function Save(s: State, saved: set<Sid>): (s': State)
    ensures s' == s.(cards := s'.cards)
  {
    s.(cards := map x | x in s.cards.Keys + (saved * s.mem.Keys) ::
      if x in saved && x in s.mem then Card(s.mem[x].phase, s.mem[x].key, s.mem[x].renames, s.mem[x].stored)
      else s.cards[x])
  }

  /** setKey on a session in memory. */
  function Rekeyed(m: Mem, key: Key): (m': Mem)
  {
    m.(key := key, stored := m.stored && m.key == key)
  }

  function MaxRenames(s: State, group: seq<Sid>): (n: nat)
  {
    if group == [] then 0
    else
      var a, x := MaxRenames(s, group[..|group| - 1]), group[|group| - 1];
      if x in s.mem && s.mem[x].renames > a then s.mem[x].renames else a
  }

  /** The group under its next key, in memory. */
  function Moved(s: State, group: seq<Sid>, key: Key, n: nat): (s': State)
    ensures s' == s.(mem := s'.mem)
  {
    s.(mem := map x | x in s.mem ::
      if x in group then Rekeyed(s.mem[x], key).(renames := n + 1, phase := Finalized) else s.mem[x])
  }

  /** A session in another phase, in memory. */
  function Marked(s: State, x: Sid, phase: Phase): (s': State)
    ensures s' == s.(mem := s'.mem)
  {
    s.(mem := if x in s.mem then s.mem[x := s.mem[x].(phase := phase)] else s.mem)
  }

  /** renameGroup: the whole group moves to the next free name, or the limit is reached. Either way the attempt is
      over. */
  function Renamed(s: State, a: Sid, saved: set<Sid>): (s': State)
    requires a in s.attempts
    ensures s' == s.(attempts := s.attempts - {a}, mem := s'.mem, cards := s'.cards)
  {
    var t := s.attempts[a];
    var n := MaxRenames(s, t.group);
    if n >= MAX_RENAMES then End(s, a, false)
    else
      var key := RenamedKey(t.key, n);
      End(Save(Moved(s, t.group, key, n), saved * Elements(t.group)), a, false)
  }

  /** What the HEAD leads to (upload.go:280-336). */
  datatype Verdict = Proceed(pc: Pc) | Conflict | Inconsistent

  function Judge(w: World, a: Sid, t: Attempt, found: Option<Object>): (v: Verdict)
    requires t.pc.Classified?
    ensures v.Proceed? ==> v.pc.Decided? || v.pc.Refused?
  {
    var local, missing := t.pc.local, t.pc.missing;
    match found
    case None => Proceed(Decided(None, local, [], missing))
    case Some(o) =>
      if o.meta.Foreign? then Conflict
      else if o.meta.Broken? then Inconsistent
      else if o.meta.rid != w.rid(a) then Conflict
      else
        var has := Elements(o.meta.sessions);
        var toAdd, bad := Pick(local, Elements(local) - has), Pick(missing, Elements(missing) - has);
        if (exists m :: m in toAdd && w.start(m) < o.meta.last * 1000)
           || (|toAdd| > 0 && o.meta.parts + |toAdd| > MAX_PARTS)
        then if bad == [] then Conflict else Proceed(Refused(bad))
        else Proceed(Decided(found, toAdd, Pick(local, has) + Pick(missing, has), bad))
  }

  function Lookup(s: State, key: Key): (o: Option<Object>)
  {
    if key in s.bucket then Some(s.bucket[key]) else None
  }

  /** Upload's contract: create-only without an ETag, replace-exactly with one. */
  predicate Accepts(s: State, r: Request) {
    if r.ifMatch.None? then r.key !in s.bucket
    else r.key in s.bucket && s.bucket[r.key].etag == r.ifMatch.value
  }

  /** The bucket after a PUT that was accepted. */
  function PutAt(s: State, r: Request): (s': State)
    ensures s' == s.(bucket := s'.bucket, nextEtag := s'.nextEtag)
  {
    s.(bucket := s.bucket[r.key := Object(s.nextEtag, r.meta, r.whose, r.parts)], nextEtag := s.nextEtag + 1)
  }

  /** What is there counts as stored when it is equal: sizes are compared, and an object of the same size is taken to be
      the same upload. */
  predicate AlreadyThere(s: State, r: Request) {
    r.ifMatch.None? && r.key in s.bucket && s.bucket[r.key].whose == r.whose != []
    && s.bucket[r.key].Content() == Flatten(r.parts)
  }

  // ---------------------------------------------------------------------------------------------------------------
  // The steps
  // ---------------------------------------------------------------------------------------------------------------

  /** `a` is the session whose loop makes the step; `saved` the sidecar writes that succeed where the source only logs a
      failure. */
  datatype Step =
    | Start(sid: Sid, key: Key, from: Option<Sid>)
    | Capture(sid: Sid, frame: Frame)
    | CaptureJunk(sid: Sid)
    | TrimTail(sid: Sid, left: map<Sid, File>)
    | Finalize(sid: Sid)
    | Claim(a: Sid, group: seq<Sid>, saved: set<Sid>)
    | Classify(a: Sid)
    | Head(a: Sid, saved: set<Sid>)
    | FailMember(a: Sid, saved: set<Sid>)
    | Measure(a: Sid, left: map<Sid, File>)
    | Converge(a: Sid)
    | Build(a: Sid)
    | GiveUpBuild(a: Sid, saved: set<Sid>)
    | Escape(a: Sid, saved: set<Sid>)
    | HeadRaw(a: Sid, saved: set<Sid>)
    | Put(a: Sid, replyLost: bool)
    | PutLate(a: Sid)
    | Verify(a: Sid)
    | Complete(a: Sid)
    | WriteCard(a: Sid, ok: bool)
    | Remove(a: Sid, ok: bool)
    | Abort(a: Sid)
    | Retry(sid: Sid, mark: bool, saved: set<Sid>)
    | Quit(sid: Sid)
    | Retain(sid: Sid)
    | Crash(rec: Rec)
    | Recover(rec: Rec, resumed: set<Sid>, moved: map<Sid, Name>, saved: set<Sid>, left: map<Sid, File>)
    | Land(r: Request)
    | ForeignPut(key: Key, meta: Meta, parts: seq<seq<Frame>>)

  predicate At(s: State, a: Sid) {
    a in s.attempts && a in s.mem
  }

  /** startSessionLocked: a new session, whose key may be inherited from a session of the same recording. */
  predicate CanStart(w: World, s: State, sid: Sid, key: Key, from: Option<Sid>) {
    && sid !in s.made && w.owner(sid) !in s.down
    && (from.Some? ==> from.value in s.mem && w.owner(from.value) == w.owner(sid) && w.rid(from.value) == w.rid(sid) &&
                       key == s.mem[from.value].key)
  }

  function DoStart(s: State, sid: Sid, key: Key, from: Option<Sid>): (s': State)
  {
    var renames := if from.Some? && from.value in s.mem then s.mem[from.value].renames else 0;
    s.(made := s.made[sid := []], files := s.files[sid := File([], false)],
       cards := s.cards[sid := Card(Recording, key, renames, false)],
       mem := s.mem[sid := Mem(Recording, key, renames, false, NoLoop)])
  }

  predicate IsRecording(s: State, sid: Sid) {
    sid in s.mem && s.mem[sid].phase == Recording && sid in s.files && sid in s.made
  }

  function DoCapture(s: State, sid: Sid, frame: Frame): (s': State)
    requires IsRecording(s, sid)
  {
    s.(made := s.made[sid := s.made[sid] + [frame]],
       files := s.files[sid := s.files[sid].(frames := s.files[sid].frames + [frame])])
  }

  function DoJunk(s: State, sid: Sid): (s': State)
    requires IsRecording(s, sid)
  {
    s.(files := s.files[sid := s.files[sid].(junk := true)])
  }

  /** The tail repair on some captures: `left` is what it leaves of them. It is safe for those whose frames stay. */
  function Repaired(s: State, these: set<Sid>, left: map<Sid, File>): (s': State)
    ensures s' == s.(files := s'.files, cut := s'.cut)
  {
    s.(files := map x | x in s.files :: if x in these && x in left then left[x] else s.files[x],
       cut := s.cut + set x | x in these && x in left && x in s.files && left[x].frames != s.files[x].frames)
  }

  /** It takes bytes off the end, never all of them. */
  predicate Trims(s: State, left: map<Sid, File>) {
    forall x :: x in left ==> !left[x].Empty() && (x in s.files ==> left[x].frames <= s.files[x].frames)
  }

  function DoFinalize(s: State, sid: Sid): (s': State)
    requires IsRecording(s, sid)
    ensures s' == s.(mem := s'.mem, cards := s'.cards)
  {
    Looping(Save(Marked(s, sid, Finalized), {sid}), sid, Waiting)
  }

  predicate Claimable(w: World, s: State, a: Sid, o: Sid)
    requires a in s.mem
  {
    o in s.mem && w.owner(o) == w.owner(a) && w.rid(o) == w.rid(a) && s.mem[o].key == s.mem[a].key
  }

  /** No attempt of the same recorder runs under the session's key: what the keyed lock is for. */
  predicate Unlocked(w: World, s: State, a: Sid)
    requires a in s.mem
  {
    forall b :: b in s.attempts && w.owner(b) == w.owner(a) ==> s.attempts[b].key != s.mem[a].key
  }

  /** claimGroup under the keyed lock: no attempt of this recorder runs under the key, nobody still records into it, and
      the group is every session that waits for it, in capture order. */
  ghost predicate CanClaim(w: World, s: State, a: Sid, group: seq<Sid>) {
    && a in s.mem && s.mem[a].loop == Waiting && (s.mem[a].phase == Finalized || s.mem[a].phase == Uploading)
    && Unlocked(w, s, a)
    && (forall o :: Claimable(w, s, a, o) ==> s.mem[o].phase != Recording)
    && NoDup(group) && ByStart(w, group)
    && (forall o :: o in group <==>
          Claimable(w, s, a, o) && (s.mem[o].phase == Finalized || s.mem[o].phase == Uploading))
  }

  function InUpload(s: State, group: seq<Sid>): (s': State)
    ensures s' == s.(mem := s'.mem)
  {
    s.(mem := map x | x in s.mem :: if x in group then s.mem[x].(phase := Uploading) else s.mem[x])
  }

  function DoClaim(s: State, a: Sid, group: seq<Sid>, saved: set<Sid>): (s': State)
    requires a in s.mem
    ensures s' == s.(mem := s'.mem, cards := s'.cards, attempts := s'.attempts)
  {
    var claimed := Save(Looping(InUpload(s, group), a, Attempting), saved * Elements(group));
    claimed.(attempts := s.attempts[a := Attempt(s.mem[a].key, group, Claimed)])
  }

  /** An empty capture is a failure, a missing one is left to the manifest. */
  function Classification(s: State, group: seq<Sid>): (pc: Pc)
  {
    var there := set x | x in group && x in s.files;
    var empty := set x | x in group && x in s.files && s.files[x].Empty();
    Classified(Pick(group, there - empty), Pick(group, Elements(group) - there), Pick(group, empty))
  }

  function DoHead(w: World, s: State, a: Sid, saved: set<Sid>): (s': State)
    requires a in s.attempts && s.attempts[a].pc.Classified?
  {
    match Judge(w, a, s.attempts[a], Lookup(s, s.attempts[a].key))
    case Proceed(pc) => SetPc(s, a, pc)
    case Conflict => Renamed(s, a, saved)
    case Inconsistent => End(s, a, false)
  }

  predicate HasBad(pc: Pc) {
    (pc.Classified? || pc.Decided? || pc.Refused? || pc.Measured?) && pc.bad != []
  }

  predicate NoBad(pc: Pc) {
    (pc.Classified? || pc.Decided? || pc.Refused? || pc.Measured?) && pc.bad == []
  }

  function DoFailMember(s: State, a: Sid, saved: set<Sid>): (s': State)
    requires a in s.attempts && HasBad(s.attempts[a].pc)
  {
    var t := s.attempts[a];
    var x := t.pc.bad[0];
    SetPc(Save(Marked(s, x, Failed), saved * {x}), a, t.pc.(bad := t.pc.bad[1..]))
  }

  /** measure: the tails are repaired and members without one frame dropped; a capture that has gone is an error. */
  predicate CanMeasure(s: State, a: Sid, left: map<Sid, File>) {
    && Trims(s, left) && At(s, a) && s.attempts[a].pc.Decided? && NoBad(s.attempts[a].pc)
    && forall x :: x in s.attempts[a].pc.toAdd ==> x in s.files
  }

  function DoMeasure(s: State, a: Sid, left: map<Sid, File>): (s': State)
    requires a in s.attempts && s.attempts[a].pc.Decided?
  {
    var pc := s.attempts[a].pc;
    var trimmed := Repaired(s, Elements(pc.toAdd), left);
    var sound := set x | x in pc.toAdd && x in trimmed.files && trimmed.files[x].frames != [];
    SetPc(trimmed, a,
          Measured(pc.remote, Pick(pc.toAdd, sound), pc.present, Pick(pc.toAdd, Elements(pc.toAdd) - sound)))
  }

  predicate CanConverge(s: State, a: Sid) {
    At(s, a) && s.attempts[a].pc.Measured? && NoBad(s.attempts[a].pc) && s.attempts[a].pc.toAdd == []
  }

  function DoConverge(s: State, a: Sid): (s': State)
    requires a in s.attempts && s.attempts[a].pc.Measured?
  {
    var t := s.attempts[a];
    if t.pc.present == [] then End(s, a, true) else SetPc(s, a, Stored(t.pc.present, t.key))
  }

  /** The captures are on disk and, when merging, the download's If-Match holds. */
  predicate CanBuild(s: State, a: Sid) {
    && At(s, a) && s.attempts[a].pc.Measured? && NoBad(s.attempts[a].pc) && s.attempts[a].pc.toAdd != []
    && (forall x :: x in s.attempts[a].pc.toAdd ==> x in s.files)
    && var remote := s.attempts[a].pc.remote;
       remote.Some? ==> s.attempts[a].key in s.bucket && s.bucket[s.attempts[a].key].etag == remote.value.etag
  }

  function DoBuild(s: State, a: Sid): (s': State)
    requires CanBuild(s, a)
  {
    var t := s.attempts[a];
    var stored := if t.pc.remote.Some? then s.bucket[t.key].parts else [];
    SetPc(s, a, Built(t.pc.remote, t.pc.toAdd, t.pc.present, stored + Parts(s.files, t.pc.toAdd)))
  }

  predicate CanGiveUp(s: State, a: Sid) {
    At(s, a) && s.attempts[a].pc.Measured? && NoBad(s.attempts[a].pc) && s.attempts[a].pc.toAdd != []
  }

  /** uploadFallback never merges. */
  function DoGiveUp(s: State, a: Sid, saved: set<Sid>): (s': State)
    requires a in s.attempts && s.attempts[a].pc.Measured?
  {
    var pc := s.attempts[a].pc;
    if pc.remote.Some? then Renamed(s, a, saved) else SetPc(s, a, GivenUp(pc.toAdd))
  }

  /** The other reasons to rename: the companion's key is taken, or the endpoint does not enforce conditions; or the
      members of a refused group that are lost have been parked. */
  predicate CanEscape(s: State, a: Sid) {
    && At(s, a) && NoBad(s.attempts[a].pc)
    && (s.attempts[a].pc.Refused? || (s.attempts[a].pc.Measured? && s.attempts[a].pc.toAdd != []))
  }

  /** The attempt has built what it stores, under its key or raw under the fallback's. */
  predicate CanPut(s: State, a: Sid) {
    && At(s, a)
    && var pc := s.attempts[a].pc;
       || (pc.Built? && pc.toAdd != [] && (pc.remote.Some? ==> pc.remote.value.meta.Manifest?))
       || (pc.RawBuilt? && pc.toAdd != [])
  }

  /** The request it makes. */
  function Sent(w: World, t: Attempt): (r: Request)
    requires t.pc.Built? || t.pc.RawBuilt?
    requires t.pc.toAdd != []
    requires t.pc.Built? && t.pc.remote.Some? ==> t.pc.remote.value.meta.Manifest?
  {
    if t.pc.RawBuilt? then Request(FallbackKey(t.key), None, NewMeta(w, None, t.pc.toAdd), t.pc.toAdd, t.pc.parts)
    else
      var etag := if t.pc.remote.Some? then Some(t.pc.remote.value.etag) else None;
      Request(t.key, etag, NewMeta(w, t.pc.remote, t.pc.toAdd), Whose(t.pc.remote) + t.pc.toAdd, t.pc.parts)
  }

  /** Whom it has stored then. */
  function StoredBy(t: Attempt): (members: seq<Sid>)
    requires t.pc.Built? || t.pc.RawBuilt?
  {
    if t.pc.Built? then t.pc.toAdd + t.pc.present else t.pc.toAdd
  }

  function DoPut(w: World, s: State, a: Sid, replyLost: bool): (s': State)
    requires CanPut(s, a)
    ensures s' == s.(bucket := s'.bucket, nextEtag := s'.nextEtag, attempts := s'.attempts, mem := s'.mem)
  {
    var t := s.attempts[a];
    var r := Sent(w, t);
    if Accepts(s, r) then
      var put := PutAt(s, r);
      if replyLost then End(put, a, false)
      else if r.ifMatch.None? then SetPc(put, a, Stored(StoredBy(t), r.key))
      else SetPc(put, a, Verifying(s.nextEtag, t.pc.toAdd, t.pc.present))
    else if AlreadyThere(s, r) && !replyLost then SetPc(s, a, Stored(StoredBy(t), r.key))
    else End(s, a, false)
  }

  /** The attempt gives its request up, by a timeout or a cancellation, but the request has gone out. */
  function DoPutLate(w: World, s: State, a: Sid): (s': State)
    requires CanPut(s, a)
  {
    End(s.(late := s.late + {Sent(w, s.attempts[a])}), a, false)
  }

  /** The store gets to it after all. */
  function DoLand(s: State, r: Request): (s': State)
    ensures s' == s.(bucket := s'.bucket, nextEtag := s'.nextEtag, late := s.late - {r})
  {
    var done := s.(late := s.late - {r});
    if Accepts(s, r) then PutAt(done, r) else done
  }

  /** putObject re-reads a replaced object. */
  function DoVerify(s: State, a: Sid): (s': State)
    requires a in s.attempts && s.attempts[a].pc.Verifying?
  {
    var t := s.attempts[a];
    if t.key in s.bucket && s.bucket[t.key].etag == t.pc.etag then SetPc(s, a, Stored(t.pc.toAdd + t.pc.present, t.key))
    else End(s, a, false)
  }

  predicate CanHeadRaw(s: State, a: Sid) {
    && At(s, a) && s.attempts[a].pc.GivenUp?
    && forall x :: x in s.attempts[a].pc.toAdd ==> x in s.files
  }

  /** The fallback key is classified too: free, ours with all of these sessions, or somebody else's. */
  function DoHeadRaw(w: World, s: State, a: Sid, saved: set<Sid>): (s': State)
    requires a in s.attempts && s.attempts[a].pc.GivenUp?
  {
    var t := s.attempts[a];
    var raw := FallbackKey(t.key);
    if raw !in s.bucket then SetPc(s, a, RawBuilt(t.pc.toAdd, Parts(s.files, t.pc.toAdd)))
    else
      var m := s.bucket[raw].meta;
      if m.Manifest? && m.rid == w.rid(a) && (forall x :: x in t.pc.toAdd ==> x in m.sessions) then
        SetPc(s, a, Stored(t.pc.toAdd, raw))
      else Renamed(s, a, saved)
  }

  function Completed(s: State, members: seq<Sid>, key: Key): (s': State)
    ensures s' == s.(mem := s'.mem)
  {
    s.(mem := map x | x in s.mem ::
      if x in members then s.mem[x].(key := key, stored := true, phase := Uploaded) else s.mem[x])
  }

  /** completeGroup, in memory. */
  function DoComplete(s: State, a: Sid): (s': State)
    requires a in s.attempts && s.attempts[a].pc.Stored?
  {
    var pc := s.attempts[a].pc;
    SetPc(Completed(s, pc.members, pc.target), a, Writing(pc.members, pc.target, false))
  }

  function WithCard(s: State, x: Sid, key: Key): (s': State)
  {
    s.(cards := s.cards[x := Card(Uploaded, key, if x in s.mem then s.mem[x].renames else 0, true)])
  }

  /** ... then sidecar by sidecar; a capture is only removed after its own sidecar. */
  function DoWriteCard(s: State, a: Sid, ok: bool): (s': State)
    requires At(s, a) && s.attempts[a].pc.Writing?
  {
    var pc := s.attempts[a].pc;
    if pc.todo == [] then End(s, a, !pc.failed)
    else if !ok then SetPc(s, a, Writing(pc.todo[1..], pc.target, true))
    else
      SetPc(WithCard(s, pc.todo[0], pc.target), a, Removing(pc.todo, pc.target, pc.failed))
  }

  function DoRemove(s: State, a: Sid, ok: bool): (s': State)
    requires a in s.attempts && s.attempts[a].pc.Removing? && s.attempts[a].pc.todo != []
  {
    var pc := s.attempts[a].pc;
    SetPc(if ok then s.(files := s.files - {pc.todo[0]}) else s, a, Writing(pc.todo[1..], pc.target, pc.failed))
  }

  /** The loop after a failed attempt: immediately again, or marked for a later retry without a look at the state. */
  function DoRetry(s: State, sid: Sid, mark: bool, saved: set<Sid>): (s': State)
    requires sid in s.mem
    ensures s' == s.(mem := s'.mem, cards := s'.cards)
  {
    var again := Looping(s, sid, Waiting);
    if mark then Save(Marked(again, sid, Finalized), saved * {sid}) else again
  }

  /** A loop that finds its session done, by a sibling's attempt, ends. */
  predicate CanQuit(s: State, sid: Sid) {
    sid in s.mem && s.mem[sid].loop == Waiting && (s.mem[sid].phase == Uploaded || s.mem[sid].phase == Failed)
  }

  /** Retention forgets an uploaded session whose capture is gone and a failed one without data, long after their last
      attempt. */
  predicate CanRetain(s: State, sid: Sid) {
    && sid in s.mem && s.mem[sid].loop == NoLoop
    && (forall a :: a in s.attempts ==> sid !in s.attempts[a].group)
    && ((s.mem[sid].phase == Uploaded && sid !in s.files) ||
        (s.mem[sid].phase == Failed && (sid !in s.files || s.files[sid].Empty())))
  }

  function DoRetain(s: State, sid: Sid): (s': State)
  {
    s.(mem := s.mem - {sid}, cards := s.cards - {sid}, files := s.files - {sid})
  }

  function DoCrash(w: World, s: State, rec: Rec): (s': State)
    ensures s' == s.(mem := s'.mem, attempts := s'.attempts, down := s'.down)
  {
    s.(mem := map x | x in s.mem && w.owner(x) != rec :: s.mem[x],
       attempts := map a | a in s.attempts && w.owner(a) != rec :: s.attempts[a],
       down := s.down + {rec})
  }

  /** A key and how often its group has been renamed. */
  datatype Name = Name(key: Key, renames: nat)

  /** One sidecar as Recover takes it in: its phase, and whether it is queued for upload. */
  function Recovered(s: State, x: Sid, resumed: set<Sid>, moved: map<Sid, Name>): (m: Mem)
    requires x in s.cards
  {
    var c := s.cards[x];
    var name := if x in moved && c.phase != Uploaded && c.phase != Failed then moved[x] else Name(c.key, c.renames);
    var (phase, loop) :=
      match c.phase
      case Recording => if x in resumed && x in s.files then (Recording, NoLoop) else (Finalized, Waiting)
      case Finalized => (Finalized, Waiting)
      case Uploading => (Finalized, Waiting)
      case Uploaded => if x in s.files then (Finalized, Waiting) else (Uploaded, NoLoop)
      case Failed => (Failed, NoLoop);
    Mem(phase, name.key, name.renames, c.stored && c.key == name.key, loop)
  }

  function TakenIn(s: State, back: set<Sid>, resumed: set<Sid>, moved: map<Sid, Name>): (mem: map<Sid, Mem>)
    requires back <= s.cards.Keys
    ensures mem.Keys == s.mem.Keys + back
    ensures forall x :: x in mem ==> mem[x] == if x in back then Recovered(s, x, resumed, moved) else s.mem[x]
  {
    map x | x in s.mem.Keys + back :: if x in back then Recovered(s, x, resumed, moved) else s.mem[x]
  }

  /** A key that is migrated is computed anew, or inherited from a session of the recording with its count of
      renames. */
  predicate Migrates(moved: map<Sid, Name>) {
    forall x :: x in moved ==> moved[x].renames <= MAX_RENAMES
  }

  /** `moved`: the 1.0.x keys that are migrated; `saved`: whose sidecars were rewritten on the way. */
  function DoRecover(w: World, s: State, rec: Rec, resumed: set<Sid>, moved: map<Sid, Name>,
                     saved: set<Sid>): (s': State)
    ensures s' == s.(mem := s'.mem, cards := s'.cards, down := s'.down)
  {
    var back := set x | x in s.cards && w.owner(x) == rec;
    var s' := s.(mem := TakenIn(s, back, resumed, moved), down := s.down - {rec});
    var settled := set x | x in back && s.cards[x].phase == Recording && s'.mem[x].phase != Recording;
    Save(s', saved * back + settled)
  }

  /** The captures that are opened again, their tails repaired first. */
  function Resumed(w: World, s: State, rec: Rec, resumed: set<Sid>): (r: set<Sid>)
  {
    set x | x in resumed && x in s.cards && x in s.files && w.owner(x) == rec && s.cards[x].phase == Recording
  }

  // ---------------------------------------------------------------------------------------------------------------
  // All runs
  // ---------------------------------------------------------------------------------------------------------------

  ghost predicate Enabled(w: World, s: State, step: Step) {
    match step
    case Start(sid, key, from) => CanStart(w, s, sid, key, from)
    case Capture(sid, frame) => IsRecording(s, sid)
    case CaptureJunk(sid) => IsRecording(s, sid)
    case TrimTail(sid, left) => IsRecording(s, sid) && Trims(s, left)
    case Finalize(sid) => IsRecording(s, sid)
    case Claim(a, group, saved) => CanClaim(w, s, a, group)
    case Classify(a) => At(s, a) && s.attempts[a].pc.Claimed?
    case Head(a, saved) => At(s, a) && s.attempts[a].pc.Classified? && NoBad(s.attempts[a].pc)
    case FailMember(a, saved) => At(s, a) && HasBad(s.attempts[a].pc)
    case Measure(a, left) => CanMeasure(s, a, left)
    case Converge(a) => CanConverge(s, a)
    case Build(a) => CanBuild(s, a)
    case GiveUpBuild(a, saved) => CanGiveUp(s, a)
    case Escape(a, saved) => CanEscape(s, a)
    case Put(a, replyLost) => CanPut(s, a)
    case PutLate(a) => CanPut(s, a)
    case Verify(a) => At(s, a) && s.attempts[a].pc.Verifying?
    case HeadRaw(a, saved) => CanHeadRaw(s, a)
    case Complete(a) => At(s, a) && s.attempts[a].pc.Stored?
    case WriteCard(a, ok) => At(s, a) && s.attempts[a].pc.Writing?
    case Remove(a, ok) => At(s, a) && s.attempts[a].pc.Removing? && s.attempts[a].pc.todo != []
    case Abort(a) => At(s, a)
    case Retry(sid, mark, saved) => sid in s.mem && s.mem[sid].loop == Failing
    case Quit(sid) => CanQuit(s, sid)
    case Retain(sid) => CanRetain(s, sid)
    case Crash(rec) => rec !in s.down
    case Recover(rec, resumed, moved, saved, left) => rec in s.down && Migrates(moved) && Trims(s, left)
    case Land(r) => r in s.late
    case ForeignPut(key, meta, parts) => key !in s.bucket && !meta.Manifest?
  }

  ghost function Do(w: World, s: State, step: Step): (s': State)
    requires Enabled(w, s, step)
  {
    match step
    case Start(sid, key, from) => DoStart(s, sid, key, from)
    case Capture(sid, frame) => DoCapture(s, sid, frame)
    case CaptureJunk(sid) => DoJunk(s, sid)
    case TrimTail(sid, left) => Repaired(s, {sid}, left)
    case Finalize(sid) => DoFinalize(s, sid)
    case Claim(a, group, saved) => DoClaim(s, a, group, saved)
    case Classify(a) => SetPc(s, a, Classification(s, s.attempts[a].group))
    case Head(a, saved) => DoHead(w, s, a, saved)
    case FailMember(a, saved) => DoFailMember(s, a, saved)
    case Measure(a, left) => DoMeasure(s, a, left)
    case Converge(a) => DoConverge(s, a)
    case Build(a) => DoBuild(s, a)
    case GiveUpBuild(a, saved) => DoGiveUp(s, a, saved)
    case Escape(a, saved) => Renamed(s, a, saved)
    case Put(a, replyLost) => DoPut(w, s, a, replyLost)
    case PutLate(a) => DoPutLate(w, s, a)
    case Verify(a) => DoVerify(s, a)
    case HeadRaw(a, saved) => DoHeadRaw(w, s, a, saved)
    case Complete(a) => DoComplete(s, a)
    case WriteCard(a, ok) => DoWriteCard(s, a, ok)
    case Remove(a, ok) => DoRemove(s, a, ok)
    case Abort(a) => End(s, a, false)
    case Retry(sid, mark, saved) => DoRetry(s, sid, mark, saved)
    case Quit(sid) => Looping(s, sid, NoLoop)
    case Retain(sid) => DoRetain(s, sid)
    case Crash(rec) => DoCrash(w, s, rec)
    case Recover(rec, resumed, moved, saved, left) =>
      Repaired(DoRecover(w, s, rec, resumed, moved, saved), Resumed(w, s, rec, resumed), left)
    case Land(r) => DoLand(s, r)
    case ForeignPut(key, meta, parts) => PutAt(s, Request(key, None, meta, [], parts))
  }

  /** A step that is not enabled does not happen. */
  ghost function Then(w: World, s: State, step: Step): (s': State)
  {
    if Enabled(w, s, step) then Do(w, s, step) else s
  }

  /** The state after any sequence of steps. */
  ghost function After(w: World, steps: seq<Step>): (s: State)
  {
    if steps == [] then Init() else Then(w, After(w, steps[..|steps| - 1]), steps[|steps| - 1])
  }
}
