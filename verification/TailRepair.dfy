/** Repair of a capture's tail (internal/adts/adts.go: TrimPartialTail, ScanTail, walk): a file that ends inside a frame
    is cut back to the end of its last whole frame. */
module TailRepair {
  import opened Bytes
  import opened AdtsHeader
  import Id3

  const TAIL_WINDOW: nat := 0x4_0000 // 256 KiB
  const MIN_CHAIN: nat := 3

  /** What walk returns: whole frames seen, offset of a trailing partial frame or tag (-1 for none), unbroken chain. */
  datatype Walked = Walked(complete: nat, partialStart: int, valid: bool)

  const BROKEN := Walked(0, -1, false)

  predicate StartsWithId3(rest: seq<Byte>) {
    |rest| >= 3 && rest[0] == Id3.LETTER_I && rest[1] == Id3.LETTER_D && rest[2] == Id3.DIGIT_3
  }

  /** One link of a chain: its length, or why the chain ends here. */
  datatype Link = FrameLink(n: nat) | TagLink(n: nat) | Partial | Garbage

  function LinkAt(rest: seq<Byte>): (l: Link)
    requires |rest| > 0
    ensures l.FrameLink? || l.TagLink? ==> 0 < l.n <= |rest|
  {
    if StartsWithId3(rest) then
      if |rest| < 10 then Partial
      else match Id3.TagLen(rest)
        case None => Garbage
        case Some(n) => if n > |rest| then Partial else TagLink(n)
    else if |rest| < MIN_HEADER then
      if HeaderPrefixValid(rest) then Partial else Garbage
    else match ParseHeader(rest)
      case None => Garbage
      case Some(n) => if n > |rest| then Partial else FrameLink(n)
  }

  /** The chain of frames and tags that starts at q, `complete` frames having been seen before. */
  function Chain(tail: seq<Byte>, q: nat, complete: nat): (w: Walked)
    requires q <= |tail|
    ensures w.valid ==> w.partialStart == -1 || q <= w.partialStart < |tail|
    ensures w.valid ==> w.complete >= complete
    decreases |tail| - q
  {
    if q == |tail| then Walked(complete, -1, true)
    else match LinkAt(tail[q..])
      case Garbage => BROKEN
      case Partial => Walked(complete, q, true)
      case TagLink(n) => Chain(tail, q + n, complete)
      case FrameLink(n) => Chain(tail, q + n, complete + 1)
  }

  method Walk(tail: seq<Byte>, start: nat) returns (w: Walked)
    requires start <= |tail|
    ensures w == Chain(tail, start, 0)
  {
    hide HeaderPrefixValid, ParseHeader, Id3.TagLen;
    var q, complete := start, 0;
    while q < |tail|
      invariant q <= |tail| && Chain(tail, start, 0) == Chain(tail, q, complete)
      decreases |tail| - q
    {
      var rest := tail[q..];
      if |rest| >= 3 && rest[0] == Id3.LETTER_I && rest[1] == Id3.LETTER_D && rest[2] == Id3.DIGIT_3 {
        if |rest| < 10 {
          return Walked(complete, q, true);
        }
        var n := Id3.TagLen(rest);
        if n.None? {
          return BROKEN;
        }
        if n.value > |rest| {
          return Walked(complete, q, true);
        }
        q := q + n.value;
        continue;
      }
      if |rest| < MIN_HEADER {
        if !HeaderPrefixValid(rest) {
          return BROKEN;
        }
        return Walked(complete, q, true);
      }
      var frameLen := ParseHeader(rest);
      if frameLen.None? {
        return BROKEN;
      }
      if frameLen.value > |rest| {
        return Walked(complete, q, true);
      }
      complete := complete + 1;
      q := q + frameLen.value;
    }
    return Walked(complete, -1, true);
  }

  /** A chain that may be believed: it starts with a sync word, is unbroken, and is long enough or starts the file. */
  predicate Trustworthy(tail: seq<Byte>, p: nat, wholeFile: bool)
    requires p <= |tail|
  {
    && p + 1 < |tail| && IsSync(tail[p], tail[p + 1])
    && var w := Chain(tail, p, 0);
       w.valid && (w.complete >= MIN_CHAIN || (wholeFile && p == 0 && w.complete >= 1))
  }

  /** Where the file is to be cut, if a trustworthy chain starts at p. */
  function CutFor(tail: seq<Byte>, size: nat, p: nat): (cut: int)
    requires p <= |tail| <= size
  {
    var w := Chain(tail, p, 0);
    if w.partialStart < 0 then size else size - (|tail| - w.partialStart)
  }

  /** The earliest offset from p on at which a trustworthy chain starts. */
  function Search(tail: seq<Byte>, p: nat, wholeFile: bool): (r: Option<nat>)
    requires p <= |tail|
    ensures r.Some? ==> p <= r.value < |tail| && Trustworthy(tail, r.value, wholeFile)
    ensures r.Some? ==> forall e :: p <= e < r.value ==> !Trustworthy(tail, e, wholeFile)
    ensures r.None? ==> forall e :: p <= e < |tail| ==> !Trustworthy(tail, e, wholeFile)
    decreases |tail| - p
  {
    if p == |tail| then None
    else if Trustworthy(tail, p, wholeFile) then Some(p)
    else Search(tail, p + 1, wholeFile)
  }

  /** Where ScanTail says a file of `size` bytes that ends in `tail` is to be cut; None when no chain can be trusted. */
  function Cut(tail: seq<Byte>, size: nat): (r: Option<nat>)
    ensures r.Some? ==> size - |tail| <= r.value <= size
  {
    if |tail| < MIN_HEADER || |tail| > size then None
    else match Search(tail, 0, |tail| == size)
      case None => None
      case Some(p) => Some(CutFor(tail, size, p))
  }

  method ScanTail(tail: seq<Byte>, size: nat) returns (truncateAt: int, ok: bool)
    ensures size - |tail| <= truncateAt <= size
    ensures ok <==> Cut(tail, size).Some?
    ensures truncateAt == if ok then Cut(tail, size).value else size
  {
    hide Chain;
    var n := |tail|;
    if size < MIN_HEADER || n < MIN_HEADER || n > size {
      return size, false;
    }
    var wholeFile := n == size;
    for p := 0 to n - 1
      invariant Search(tail, 0, wholeFile) == Search(tail, p, wholeFile)
    {
      if !IsSync(tail[p], tail[p + 1]) {
        continue;
      }
      var w := Walk(tail, p);
      if !w.valid {
        continue;
      }
      var trusted := w.complete >= MIN_CHAIN || (wholeFile && p == 0 && w.complete >= 1);
      if !trusted {
        continue;
      }
      if w.partialStart < 0 {
        return size, true;
      }
      return size - (n - w.partialStart), true;
    }
    return size, false;
  }

  /** The last bytes of a file that TrimPartialTail looks at. */
  function Window(file: seq<Byte>): (tail: seq<Byte>)
    ensures |tail| <= TAIL_WINDOW && |tail| <= |file|
    ensures |file| <= TAIL_WINDOW ==> tail == file
  {
    if |file| > TAIL_WINDOW then file[|file| - TAIL_WINDOW..] else file
  }

  /** What TrimPartialTail leaves of a file. */
  function Trimmed(file: seq<Byte>): (left: seq<Byte>)
    ensures left <= file
  {
    match Cut(Window(file), |file|)
    case None => file
    case Some(cut) => file[..cut]
  }

  /** TrimPartialTail on the file's contents: what is left, and how many bytes were removed. */
  method TrimPartialTail(file: seq<Byte>) returns (left: seq<Byte>, removed: nat)
    ensures left == Trimmed(file)
    ensures |left| + removed == |file| && removed <= TAIL_WINDOW
  {
    hide Search, CutFor;
    var size := |file|;
    if size < MIN_HEADER {
      return file, 0;
    }
    var n := size;
    if n > TAIL_WINDOW {
      n := TAIL_WINDOW;
    }
    assert file[size - n..] == Window(file);
    var truncateAt, ok := ScanTail(file[size - n..], size);
    if !ok || truncateAt >= size {
      return file, 0;
    }
    return file[..truncateAt], size - truncateAt;
  }

  // ---------------------------------------------------------------------------------------------------------------
  // Exactness
  // ---------------------------------------------------------------------------------------------------------------

  ghost predicate AllFrames(frames: seq<seq<Byte>>) {
    forall f :: f in frames ==> IsFrame(f)
  }

  /** A chain standing at a frame boundary of a file of whole frames (any payload) and a strict prefix of one sees all
      of them and stops at the prefix. */
  lemma {:induction false} ChainFollowsFrames(pre: seq<Byte>, frames: seq<seq<Byte>>, partial: seq<Byte>, complete: nat)
    requires AllFrames(frames) && IsPartialFrame(partial)
    ensures Chain(pre + Flatten(frames) + partial, |pre|, complete) ==
              Walked(complete + |frames|, if partial == [] then -1 else |pre| + |Flatten(frames)|, true)
    decreases |frames|
  {
    hide ParseHeader, HeaderPrefixValid, Id3.TagLen, IsFrame, IsPartialFrame;
    var tail := pre + Flatten(frames) + partial;
    if frames == [] {
      assert tail[|pre|..] == partial;
      PartialFrameShape(partial);
    } else {
      var f, rest := frames[0], frames[1..];
      assert f in frames;
      assert tail[|pre|..] == f + (Flatten(rest) + partial);
      FrameIsLink(f, Flatten(rest) + partial);
      assert tail == (pre + f) + Flatten(rest) + partial;
      ChainFollowsFrames(pre + f, rest, partial, complete + 1);
    }
  }

  lemma FrameIsLink(f: seq<Byte>, more: seq<Byte>)
    requires IsFrame(f)
    ensures |f| >= MIN_HEADER && LinkAt(f + more) == FrameLink(|f|) && IsSync(f[0], f[1])
  {
    HeaderIsLocal(f, more);
  }

  /** A chain that starts at the first boundary behind `lead`, with enough frames, is trustworthy and cuts exactly. */
  lemma BoundaryIsTrustworthy(lead: seq<Byte>, frames: seq<seq<Byte>>, partial: seq<Byte>, size: nat)
    requires AllFrames(frames) && IsPartialFrame(partial) && |frames| > 0
    requires |lead| + |Flatten(frames)| + |partial| <= size
    requires |frames| >= MIN_CHAIN || (lead == [] && |Flatten(frames)| + |partial| == size)
    ensures var tail := lead + Flatten(frames) + partial;
            && |tail| >= MIN_HEADER && |lead| < |tail|
            && Trustworthy(tail, |lead|, |tail| == size)
            && CutFor(tail, size, |lead|) == size - |partial|
  {
    hide ParseHeader, IsFrame, IsPartialFrame, Chain;
    var tail := lead + Flatten(frames) + partial;
    ChainFollowsFrames(lead, frames, partial, 0);
    assert frames[0] in frames;
    FrameIsLink(frames[0], Flatten(frames[1..]) + partial);
    assert tail[|lead|..] == frames[0] + (Flatten(frames[1..]) + partial);
    assert tail[|lead|] == tail[|lead|..][0] && tail[|lead| + 1] == tail[|lead|..][1];
  }

  /** Exact on whole files: for every sequence of at least one frame, whatever the payloads, followed by a strict prefix
      of a frame, the cut is the last frame boundary. */
  lemma WholeFileCutIsExact(frames: seq<seq<Byte>>, partial: seq<Byte>)
    requires AllFrames(frames) && |frames| > 0 && IsPartialFrame(partial)
    ensures var file := Flatten(frames) + partial; Cut(file, |file|) == Some(|Flatten(frames)|)
  {
    hide Trustworthy, CutFor, IsFrame, IsPartialFrame;
    var file := Flatten(frames) + partial;
    assert [] + Flatten(frames) + partial == file;
    BoundaryIsTrustworthy([], frames, partial, |file|);
  }

  // ---------------------------------------------------------------------------------------------------------------
  // Which cuts are exact
  // ---------------------------------------------------------------------------------------------------------------

  /** The chain from q passes the offset `goal`. */
  predicate Visits(tail: seq<Byte>, q: nat, goal: nat)
    requires q <= |tail|
    decreases |tail| - q
  {
    || q == goal
    || (q < |tail| &&
        var l := LinkAt(tail[q..]);
        (l.FrameLink? || l.TagLink?) && Visits(tail, q + l.n, goal))
  }

  /** What is seen from q is what is seen from any place the chain passes. */
  lemma {:induction false} ChainThrough(tail: seq<Byte>, q: nat, goal: nat, complete: nat) returns (c: nat)
    requires q <= |tail| && Visits(tail, q, goal)
    ensures goal <= |tail| && Chain(tail, q, complete) == Chain(tail, goal, c)
    decreases |tail| - q
  {
    hide LinkAt;
    if q != goal {
      var l := LinkAt(tail[q..]);
      c := ChainThrough(tail, q + l.n, goal, if l.FrameLink? then complete + 1 else complete);
    } else {
      c := complete;
    }
  }

  /** An unbroken chain passes the place where it stops. */
  lemma {:induction false} ChainVisitsItsEnd(tail: seq<Byte>, q: nat, complete: nat)
    requires q <= |tail| && Chain(tail, q, complete).valid
    ensures var w := Chain(tail, q, complete); Visits(tail, q, if w.partialStart < 0 then |tail| else w.partialStart)
    decreases |tail| - q
  {
    hide LinkAt;
    if q < |tail| {
      var l := LinkAt(tail[q..]);
      if l.FrameLink? || l.TagLink? {
        ChainVisitsItsEnd(tail, q + l.n, if l.FrameLink? then complete + 1 else complete);
      }
    }
  }

  lemma {:induction false} VisitsOn(tail: seq<Byte>, q: nat, via: nat, goal: nat)
    requires q <= |tail| && Visits(tail, q, via) && via <= |tail| && Visits(tail, via, goal)
    ensures Visits(tail, q, goal)
    decreases |tail| - q
  {
    hide LinkAt;
    if q != via {
      VisitsOn(tail, q + LinkAt(tail[q..]).n, via, goal);
    }
  }

  /** From a frame boundary on, a chain passes the last one. */
  lemma {:induction false} FramesAreVisited(pre: seq<Byte>, frames: seq<seq<Byte>>, partial: seq<Byte>)
    requires AllFrames(frames)
    ensures Visits(pre + Flatten(frames) + partial, |pre|, |pre| + |Flatten(frames)|)
    decreases |frames|
  {
    hide LinkAt, IsFrame;
    if frames != [] {
      var f, rest := frames[0], frames[1..];
      var tail := pre + Flatten(frames) + partial;
      assert f in frames;
      assert tail[|pre|..] == f + (Flatten(rest) + partial);
      FrameIsLink(f, Flatten(rest) + partial);
      assert tail == (pre + f) + Flatten(rest) + partial;
      FramesAreVisited(pre + f, rest, partial);
    }
  }

  /** A trusted chain cuts at the last frame boundary exactly when it passes it. */
  lemma CutAtBoundary(lead: seq<Byte>, frames: seq<seq<Byte>>, partial: seq<Byte>, size: nat, p: nat)
    requires AllFrames(frames) && IsPartialFrame(partial)
    requires var tail := lead + Flatten(frames) + partial; p <= |tail| <= size && Chain(tail, p, 0).valid
    ensures var tail := lead + Flatten(frames) + partial;
            CutFor(tail, size, p) == size - |partial| <==> Visits(tail, p, |tail| - |partial|)
  {
    hide Chain, Visits, IsFrame, IsPartialFrame;
    var tail := lead + Flatten(frames) + partial;
    var goal := |tail| - |partial|;
    ChainVisitsItsEnd(tail, p, 0);
    if Visits(tail, p, goal) {
      var c := ChainThrough(tail, p, goal, 0);
      assert (lead + Flatten(frames)) + Flatten([]) + partial == tail;
      ChainFollowsFrames(lead + Flatten(frames), [], partial, c);
    }
  }

  /** A trusted chain starts at p, and none starts earlier. */
  predicate FirstTrusted(tail: seq<Byte>, p: nat, wholeFile: bool) {
    p < |tail| && Trustworthy(tail, p, wholeFile) && forall e :: 0 <= e < p ==> !Trustworthy(tail, e, wholeFile)
  }

  /** The chain from p passes a boundary of the frames behind `lead`. */
  ghost predicate JoinsBehind(lead: seq<Byte>, frames: seq<seq<Byte>>, partial: seq<Byte>, p: nat)
    requires p <= |lead + Flatten(frames) + partial|
  {
    exists k: nat :: BehindAt(lead, frames, partial, p, k)
  }

  ghost predicate BehindAt(lead: seq<Byte>, frames: seq<seq<Byte>>, partial: seq<Byte>, p: nat, k: nat)
    requires p <= |lead + Flatten(frames) + partial|
  {
    k <= |frames| && Visits(lead + Flatten(frames) + partial, p, |lead| + |Flatten(frames[..k])|)
  }

  /** The earliest trusted chain that starts in `lead`, if there is one, joins a frame boundary. */
  ghost predicate RemnantJoins(lead: seq<Byte>, frames: seq<seq<Byte>>, partial: seq<Byte>, wholeFile: bool) {
    forall p: nat :: FirstTrusted(lead + Flatten(frames) + partial, p, wholeFile) && p < |lead| ==>
        JoinsBehind(lead, frames, partial, p)
  }

  /** Any window: `lead`, whatever its bytes, then at least three whole frames and a strict prefix of one. A chain is
      always found, no later than at the first boundary, and the cut is the last boundary if and only if the earliest
      trusted chain in `lead`, if there is one, joins a frame boundary. */
  lemma WindowedCut(lead: seq<Byte>, frames: seq<seq<Byte>>, partial: seq<Byte>, size: nat)
    requires AllFrames(frames) && |frames| >= 3 && IsPartialFrame(partial)
    requires |lead| + |Flatten(frames)| + |partial| <= size
    ensures var tail := lead + Flatten(frames) + partial;
            var at := Search(tail, 0, |tail| == size);
            at.Some? && at.value <= |lead| && Cut(tail, size).Some?
    ensures var tail := lead + Flatten(frames) + partial;
            Cut(tail, size) == Some(size - |partial|) <==> RemnantJoins(lead, frames, partial, |tail| == size)
  {
    hide Trustworthy, CutFor, IsFrame, IsPartialFrame, Visits, Chain, Flatten;
    var tail := lead + Flatten(frames) + partial;
    BoundaryIsTrustworthy(lead, frames, partial, size);
    var whole := |tail| == size;
    var p := Search(tail, 0, whole).value;
    assert FirstTrusted(tail, p, whole);
    TrustedIsValid(tail, p, whole);
    CutAtBoundary(lead, frames, partial, size, p);
    if p < |lead| {
      assert forall q: nat :: FirstTrusted(tail, q, whole) ==> q == p;
      BehindGoesOn(lead, frames, partial, p);
    } else {
      FramesAreVisited(lead, frames, partial);
    }
  }

  lemma BehindGoesOn(lead: seq<Byte>, frames: seq<seq<Byte>>, partial: seq<Byte>, p: nat)
    requires AllFrames(frames) && p <= |lead + Flatten(frames) + partial|
    ensures JoinsBehind(lead, frames, partial, p) <==>
              Visits(lead + Flatten(frames) + partial, p, |lead| + |Flatten(frames)|)
  {
    hide Visits, IsFrame, Flatten;
    var tail := lead + Flatten(frames) + partial;
    if JoinsBehind(lead, frames, partial, p) {
      var k: nat :| BehindAt(lead, frames, partial, p, k);
      assert frames == frames[..k] + frames[k..];
      FlattenAppend(frames[..k], frames[k..]);
      Associate(lead, Flatten(frames[..k]), Flatten(frames[k..]));
      FramesAreVisited(lead + Flatten(frames[..k]), frames[k..], partial);
      VisitsOn(tail, p, |lead| + |Flatten(frames[..k])|, |lead| + |Flatten(frames)|);
    }
    if Visits(tail, p, |lead| + |Flatten(frames)|) {
      assert frames[..|frames|] == frames;
      assert BehindAt(lead, frames, partial, p, |frames|);
    }
  }

  /** The chain from p in the window behind the first `off` bytes of the file passes one of the file's frame
      boundaries. */
  ghost predicate Joins(frames: seq<seq<Byte>>, window: seq<Byte>, off: nat, p: nat)
    requires p <= |window|
  {
    exists k: nat :: JoinsAt(frames, window, off, p, k)
  }

  ghost predicate JoinsAt(frames: seq<seq<Byte>>, window: seq<Byte>, off: nat, p: nat, k: nat)
    requires p <= |window|
  {
    k <= |frames| && |Flatten(frames[..k])| >= off && Visits(window, p, |Flatten(frames[..k])| - off)
  }

  ghost predicate EarliestJoins(frames: seq<seq<Byte>>, window: seq<Byte>, off: nat, wholeFile: bool) {
    forall p: nat :: FirstTrusted(window, p, wholeFile) ==> Joins(frames, window, off, p)
  }

  /** Of all the chains a repair might follow, it follows the earliest trusted one. The repair is safe when that one
      joins a frame boundary of the file: when nothing in the payload that the window starts with spells a chain that
      steps over them all. */
  ghost predicate TrimIsSafe(frames: seq<seq<Byte>>, partial: seq<Byte>) {
    var file := Flatten(frames) + partial;
    var window := Window(file);
    EarliestJoins(frames, window, |file| - |window|, |window| == |file|)
  }

  lemma {:induction false} FlattenLength(frames: seq<seq<Byte>>)
    requires AllFrames(frames)
    ensures |Flatten(frames)| <= 8191 * |frames|
  {
    if frames != [] {
      assert frames[0] in frames && IsFrame(frames[0]);
      FrameIsShort(frames[0]);
      FlattenLength(frames[1..]);
    }
  }

  lemma FrameIsShort(f: seq<Byte>)
    requires IsFrame(f)
    ensures |f| <= 8191
  {
  }

  /** The frames behind the first boundary at or after `off`. */
  lemma {:induction false} SplitFrames(frames: seq<seq<Byte>>, off: nat) returns (k: nat)
    requires AllFrames(frames) && off <= |Flatten(frames)|
    ensures k <= |frames| && off <= |Flatten(frames[..k])| && (off == 0 ==> k == 0)
            && |Flatten(frames[..k])| < off + 8192
  {
    hide IsFrame;
    k := 0;
    assert Flatten(frames[..0]) == [];
    while |Flatten(frames[..k])| < off
      invariant k <= |frames| && (k > 0 ==> off > 0) && |Flatten(frames[..k])| < off + 8192
      decreases |frames| - k
    {
      assert k < |frames| by {
        assert frames[..|frames|] == frames;
      }
      assert frames[k] in frames;
      FrameIsShort(frames[k]);
      FlattenSnoc(frames[..k], frames[k]);
      assert frames[..k + 1] == frames[..k] + [frames[k]];
      k := k + 1;
    }
  }

  /** The window as remnant, whole frames and partial frame. */
  lemma WindowSplits(frames: seq<seq<Byte>>, partial: seq<Byte>, k: nat)
    requires AllFrames(frames) && k <= |frames|
    requires var file := Flatten(frames) + partial; |file| - |Window(file)| <= |Flatten(frames[..k])|
    ensures var file := Flatten(frames) + partial;
            var window := Window(file);
            && window == Flatten(frames[..k])[|file| - |window|..] + Flatten(frames[k..]) + partial
            && AllFrames(frames[k..])
  {
    hide IsFrame, Flatten, Window;
    assert frames == frames[..k] + frames[k..];
    FlattenAppend(frames[..k], frames[k..]);
    var a, b := Flatten(frames[..k]), Flatten(frames[k..]);
    Associate(a, b, partial);
    WindowIs(a + b + partial);
    SplitsBehind(a, b, partial, |a + b + partial| - |Window(a + b + partial)|);
  }

  lemma WindowIs(file: seq<Byte>)
    ensures Window(file) == file[|file| - |Window(file)|..]
  {
  }

  lemma SplitsBehind(a: seq<Byte>, b: seq<Byte>, c: seq<Byte>, n: nat)
    requires n <= |a|
    ensures (a + b + c)[n..] == a[n..] + b + c
  {
  }

  lemma PartialIsShort(b: seq<Byte>)
    requires IsPartialFrame(b)
    ensures |b| < 8191
  {
    hide IsFrame;
    var whole: seq<Byte> :| IsFrame(whole) && b < whole;
    FrameIsShort(whole);
  }

  /** In every capture of whole frames and a partial one the repair finds a trusted chain. */
  lemma AlwaysTrusted(frames: seq<seq<Byte>>, partial: seq<Byte>)
    requires AllFrames(frames) && |frames| > 0 && IsPartialFrame(partial)
    ensures var file := Flatten(frames) + partial;
            var window := Window(file);
            && MIN_HEADER <= |window| && |partial| <= |window| && Search(window, 0, |window| == |file|).Some?
            && (|window| == |file| ==> Search(window, 0, true) == Some(0))
  {
    hide Trustworthy, CutFor, IsFrame, IsPartialFrame, Flatten;
    var file := Flatten(frames) + partial;
    var window := Window(file);
    var off := |file| - |window|;
    PartialIsShort(partial);
    assert off <= |Flatten(frames)|;
    var k := SplitFrames(frames, off);
    WindowSplits(frames, partial, k);
    FlattenLength(frames[k..]);
    var lead := Flatten(frames[..k])[off..];
    if off == 0 {
      assert frames[k..] == frames;
      assert Flatten(frames[..0]) == [] by { NothingFlat(frames); }
      assert lead == [];
    } else {
      assert |frames[k..]| >= MIN_CHAIN;
    }
    BoundaryIsTrustworthy(lead, frames[k..], partial, |file|);
    assert Trustworthy(window, |lead|, |window| == |file|);
  }

  lemma NothingFlat(frames: seq<seq<Byte>>)
    ensures Flatten(frames[..0]) == []
  {
  }

  /** For every capture of at least one whole frame and a strict prefix of one, of any size: trimming leaves exactly the
      whole frames if and only if the repair is safe. */
  lemma TrimIsExactWhenSafe(frames: seq<seq<Byte>>, partial: seq<Byte>)
    requires AllFrames(frames) && |frames| > 0 && IsPartialFrame(partial)
    ensures Trimmed(Flatten(frames) + partial) == Flatten(frames) <==> TrimIsSafe(frames, partial)
  {
    var file := Flatten(frames) + partial;
    var window := Window(file);
    var off, whole := |file| - |window|, |window| == |file|;
    hide Trustworthy, CutFor, IsFrame, IsPartialFrame, Flatten, Visits, Chain, Window, Trimmed, TrimIsSafe, AllFrames,
      Search;
    AlwaysTrusted(frames, partial);
    var p := Search(window, 0, whole).value;
    PartialIsShort(partial);
    assert Cut(window, |file|) == Some(CutFor(window, |file|, p));
    hide Cut;
    TrimmedAt(file, CutFor(window, |file|, p), |Flatten(frames)|);
    FrontOf(Flatten(frames), partial);
    SafeMeansVisits(frames, partial, p);
    var k := SplitFrames(frames, off);
    WindowSplits(frames, partial, k);
    TrustedIsValid(window, p, whole);
    CutAtBoundary(Flatten(frames[..k])[off..], frames[k..], partial, |file|, p);
  }

  lemma TrimmedAt(file: seq<Byte>, cut: int, n: nat)
    requires n <= |file| && 0 <= cut && Cut(Window(file), |file|) == Some(cut)
    ensures Trimmed(file) == file[..n] <==> cut == n
  {
    hide Cut;
  }

  lemma FrontOf(a: seq<Byte>, b: seq<Byte>)
    ensures (a + b)[..|a|] == a
  {
  }

  lemma TrustedIsValid(tail: seq<Byte>, p: nat, whole: bool)
    requires p <= |tail| && Trustworthy(tail, p, whole)
    ensures Chain(tail, p, 0).valid
  {
  }

  lemma SafeMeansVisits(frames: seq<seq<Byte>>, partial: seq<Byte>, p: nat)
    requires AllFrames(frames) && IsPartialFrame(partial)
    requires var file := Flatten(frames) + partial; Search(Window(file), 0, |Window(file)| == |file|) == Some(p)
    requires |partial| <= |Window(Flatten(frames) + partial)|
    ensures var file := Flatten(frames) + partial;
            TrimIsSafe(frames, partial) <==> Visits(Window(file), p, |Window(file)| - |partial|)
  {
    hide Trustworthy, IsFrame, IsPartialFrame, Flatten, Visits, Joins, AllFrames;
    var file := Flatten(frames) + partial;
    var window := Window(file);
    var off, whole := |file| - |window|, |window| == |file|;
    assert FirstTrusted(window, p, whole);
    assert forall q :: FirstTrusted(window, q, whole) ==> q == p;
    hide Search, FirstTrusted;
    JoiningIsVisiting(frames, partial, p);
  }

  /** A chain that joins one boundary goes on to the last. */
  lemma JoiningIsVisiting(frames: seq<seq<Byte>>, partial: seq<Byte>, p: nat)
    requires AllFrames(frames) && IsPartialFrame(partial)
    requires p <= |Window(Flatten(frames) + partial)| && |partial| <= |Window(Flatten(frames) + partial)|
    ensures var file := Flatten(frames) + partial;
            Joins(frames, Window(file), |file| - |Window(file)|, p) <==>
              Visits(Window(file), p, |Window(file)| - |partial|)
  {
    hide IsFrame, IsPartialFrame, Flatten, Visits;
    var file := Flatten(frames) + partial;
    var window := Window(file);
    var off := |file| - |window|;
    if Joins(frames, window, off, p) {
      var k: nat :| JoinsAt(frames, window, off, p, k);
      WindowSplits(frames, partial, k);
      FramesAreVisited(Flatten(frames[..k])[off..], frames[k..], partial);
      VisitsOn(window, p, |Flatten(frames[..k])| - off, |window| - |partial|);
    }
    if Visits(window, p, |window| - |partial|) {
      assert frames[..|frames|] == frames;
      assert JoinsAt(frames, window, off, p, |frames|);
    }
  }

  /** A window that covers the file is always safe. */
  lemma CoveredIsSafe(frames: seq<seq<Byte>>, partial: seq<Byte>)
    requires AllFrames(frames) && |frames| > 0 && IsPartialFrame(partial)
             && |Flatten(frames)| + |partial| <= TAIL_WINDOW
    ensures TrimIsSafe(frames, partial)
  {
    hide Trustworthy, IsFrame, IsPartialFrame, Flatten;
    AlwaysTrusted(frames, partial);
    NothingFlat(frames);
    var file := Flatten(frames) + partial;
    assert JoinsAt(frames, file, 0, 0, 0);
    assert FirstTrusted(file, 0, true);
  }

  /** Trimming a file the window covers leaves exactly its whole frames, and trimming again changes nothing. */
  lemma TrimIsExact(frames: seq<seq<Byte>>, partial: seq<Byte>)
    requires AllFrames(frames) && |frames| > 0 && IsPartialFrame(partial)
    requires |Flatten(frames)| + |partial| <= 256 * 1024
    ensures Trimmed(Flatten(frames) + partial) == Flatten(frames)
    ensures Trimmed(Flatten(frames)) == Flatten(frames)
  {
    hide Trimmed, TrimIsSafe, IsFrame, IsPartialFrame;
    CoveredIsSafe(frames, partial);
    TrimIsExactWhenSafe(frames, partial);
    assert frames[0] in frames;
    EmptyIsPartial(frames[0]);
    CoveredIsSafe(frames, []);
    TrimIsExactWhenSafe(frames, []);
    assert Flatten(frames) + [] == Flatten(frames);
  }

  lemma EmptyIsPartial(f: seq<Byte>)
    requires IsFrame(f)
    ensures IsPartialFrame([])
  {
  }

  /** A trusted chain has a whole frame in front of the cut. */
  lemma {:induction false} CompleteMeansAhead(tail: seq<Byte>, q: nat, complete: nat)
    requires q <= |tail|
    ensures var w := Chain(tail, q, complete);
            w.valid && w.complete > complete && w.partialStart >= 0 ==> w.partialStart > q
    decreases |tail| - q
  {
    hide LinkAt;
    if q < |tail| {
      var l := LinkAt(tail[q..]);
      if l.TagLink? {
        CompleteMeansAhead(tail, q + l.n, complete);
      }
    }
  }

  /** Whatever the bytes, the repair never leaves nothing of a file. */
  lemma TrimLeavesSomething(file: seq<Byte>)
    requires file != []
    ensures Trimmed(file) != []
  {
    hide Chain;
    var window := Window(file);
    if Cut(window, |file|).Some? {
      CompleteMeansAhead(window, Search(window, 0, |window| == |file|).value, 0);
    }
  }

  // A smallest frame, and the header of the largest tag.
  const TINY: seq<Byte> := [0xFF, 0xF1, 0x50, 0x80, 0x00, 0xE0, 0xFC]
  const TAG_HEAD: seq<Byte> := [0x49, 0x44, 0x33, 4, 0, 0, 0x7F, 0x7F, 0x7F, 0x7F]

  // A frame of 38 bytes whose payload spells three of the former and the latter.
  const CARRIER: seq<Byte> := [0xFF, 0xF1, 0x50, 0x80, 0x04, 0xC0, 0xFC] + TINY + TINY + TINY + TAG_HEAD

  lemma TinyIsLink(more: seq<Byte>)
    ensures LinkAt(TINY + more) == FrameLink(7) && (TINY + more)[7..] == more
            && IsSync((TINY + more)[0], (TINY + more)[1])
  {
    assert ParseHeader(TINY) == Some(7);
    HeaderIsLocal(TINY, more);
  }

  lemma TagHeadIsPartial(more: seq<Byte>)
    requires |more| < 0x0FFF_0000
    ensures LinkAt(TAG_HEAD + more) == Partial
  {
    var rest := TAG_HEAD + more;
    assert Id3.TagLen(TAG_HEAD) == Some(10 + Id3.Desyncsafe(TAG_HEAD[6..10]));
    assert TAG_HEAD[6..10] == [0x7F, 0x7F, 0x7F, 0x7F];
    Id3.TagLenIsLocal(TAG_HEAD, more);
  }

  lemma TinyIsFrame()
    ensures IsFrame(TINY) && IsPartialFrame(TINY[..5])
  {
    assert ParseHeader(TINY) == Some(7);
    assert IsFrame(TINY) && TINY[..5] < TINY;
  }

  lemma CarrierIsFrame()
    ensures IsFrame(CARRIER) && |CARRIER| == 38
  {
    var head: seq<Byte> := [0xFF, 0xF1, 0x50, 0x80, 0x04, 0xC0, 0xFC];
    assert ParseHeader(head) == Some(38);
    HeaderIsLocal(head, TINY + TINY + TINY + TAG_HEAD);
    assert CARRIER == head + (TINY + TINY + TINY + TAG_HEAD);
  }

  /** The chain such a payload spells: three frames, then a tag that never ends. */
  lemma SpelledChain(rest: seq<Byte>)
    requires |rest| < 0x0FFF_0000
    ensures var tail := TINY + TINY + TINY + TAG_HEAD + rest;
            Trustworthy(tail, 0, false) && Chain(tail, 0, 0) == Walked(3, 21, true)
  {
    hide LinkAt;
    var t3 := TAG_HEAD + rest;
    var t2 := TINY + t3;
    var t1 := TINY + t2;
    var tail := TINY + TINY + TINY + TAG_HEAD + rest;
    assert tail == TINY + t1;
    TinyIsLink(t1);
    TinyIsLink(t2);
    TinyIsLink(t3);
    TagHeadIsPartial(rest);
    assert tail[0..] == tail && tail[7..] == t1 && tail[14..] == t2 && tail[21..] == t3;
    assert Chain(tail, 21, 3) == Walked(3, 21, true);
    assert Chain(tail, 14, 2) == Chain(tail, 21, 3);
    assert Chain(tail, 7, 1) == Chain(tail, 14, 2);
  }

  /** What a repair goes by is never less than three whole frames in a row, but for a chain that starts the file, which
      may have one: a file that is cut, or found whole, has them in its window, at a sync word, and nothing but frames
      and tags from there to the cut. */
  lemma CutNeedsThreeFrames(tail: seq<Byte>, size: nat)
    requires Cut(tail, size).Some?
    ensures exists p: nat :: p < |tail| && Trusts(tail, size, p) && Cut(tail, size).value == CutFor(tail, size, p)
  {
    hide Chain, CutFor;
    var p := Search(tail, 0, |tail| == size).value;
    assert Trusts(tail, size, p);
  }

  predicate Trusts(tail: seq<Byte>, size: nat, p: nat)
    requires p < |tail|
  {
    var w := Chain(tail, p, 0);
    tail[p] == 0xFF && w.valid && w.complete >= if p == 0 && |tail| == size then 1 else 3
  }

  /** Not every capture is safe. When the window happens to begin in such a payload, the repair cuts inside that frame:
      of a capture of whole frames, every one behind it is removed, almost the whole window. */
  lemma RemnantCanMislead(before: seq<seq<Byte>>, frames: seq<seq<Byte>>, partial: seq<Byte>)
    requires AllFrames(before) && AllFrames(frames) && IsPartialFrame(partial)
    requires 31 + |Flatten(frames)| + |partial| == TAIL_WINDOW
    ensures var all := before + [CARRIER] + frames;
            && AllFrames(all) && !TrimIsSafe(all, partial)
            && Trimmed(Flatten(all) + partial) == Flatten(before) + CARRIER[..28]
  {
    hide IsFrame, IsPartialFrame, Flatten, Trustworthy, Chain, TrimIsSafe, Window, Trimmed;
    var all := before + [CARRIER] + frames;
    CarrierIsFrame();
    FlattenSnoc(before, CARRIER);
    FlattenAppend(before + [CARRIER], frames);
    MisledTrim(Flatten(before), Flatten(frames) + partial);
    Associate(Flatten(before + [CARRIER]), Flatten(frames), partial);
    TrimIsExactWhenSafe(all, partial);
    assert |Flatten(all)| >= |Flatten(before)| + 38;
  }

  function Copies(n: nat): (frames: seq<seq<Byte>>)
  {
    if n == 0 then [] else Copies(n - 1) + [TINY]
  }

  lemma {:induction false} CopiesAreFrames(n: nat)
    ensures AllFrames(Copies(n)) && |Flatten(Copies(n))| == 7 * n
  {
    if n > 0 {
      CopiesAreFrames(n - 1);
      TinyIsFrame();
      FlattenSnoc(Copies(n - 1), TINY);
      hide IsFrame, Flatten;
    }
  }

  /** There are such captures: 37444 frames of seven bytes and five bytes of the next fill the window behind the
      carrier. */
  lemma RemnantDoesMislead(before: seq<seq<Byte>>)
    requires AllFrames(before)
    ensures var all := before + [CARRIER] + Copies(37444);
            && AllFrames(all) && IsPartialFrame(TINY[..5]) && !TrimIsSafe(all, TINY[..5])
            && Trimmed(Flatten(all) + TINY[..5]) == Flatten(before) + CARRIER[..28]
  {
    hide IsFrame, IsPartialFrame, Flatten, Copies, TrimIsSafe, Trimmed;
    CopiesAreFrames(37444);
    TinyIsFrame();
    RemnantCanMislead(before, Copies(37444), TINY[..5]);
  }

  /** What the repair does when the window begins right behind the carrier's header. */
  lemma MisledTrim(before: seq<Byte>, rest: seq<Byte>)
    requires 31 + |rest| == TAIL_WINDOW
    ensures Trimmed(before + CARRIER + rest) == before + CARRIER[..28]
  {
    hide Trustworthy, Chain, Trimmed, Cut;
    var window := TINY + TINY + TINY + TAG_HEAD + rest;
    var file := before + CARRIER + rest;
    WindowOfMisled(before, rest);
    assert |file| == |before| + 7 + |window|;
    assert Cut(window, |file|) == Some(|file| - |window| + 21) by {
      SpelledCut(rest, |file|);
    }
    TrimmedAt(file, |before| + 28, |before| + 28);
    FrontOf(before + CARRIER[..28], CARRIER[28..] + rest);
    MisledFront(before, rest);
  }

  lemma SpelledCut(rest: seq<Byte>, size: nat)
    requires 31 + |rest| == TAIL_WINDOW < size
    ensures var window := TINY + TINY + TINY + TAG_HEAD + rest; Cut(window, size) == Some(size - |window| + 21)
  {
    hide Trustworthy, Chain;
    SpelledChain(rest);
  }

  lemma WindowOfMisled(before: seq<Byte>, rest: seq<Byte>)
    requires 31 + |rest| == TAIL_WINDOW
    ensures |CARRIER| == 38 && Window(before + CARRIER + rest) == TINY + TINY + TINY + TAG_HEAD + rest
  {
    CarrierIsFrame();
    assert CARRIER[7..] == TINY + TINY + TINY + TAG_HEAD;
    var file := before + CARRIER + rest;
    assert file[|before| + 7..] == CARRIER[7..] + rest;
  }

  lemma MisledFront(before: seq<Byte>, rest: seq<Byte>)
    requires |CARRIER| == 38
    ensures before + CARRIER + rest == before + CARRIER[..28] + (CARRIER[28..] + rest)
  {
    assert CARRIER == CARRIER[..28] + CARRIER[28..];
  }
}
