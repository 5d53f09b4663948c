/** The loop that uploads one session (internal/recorder/upload.go uploadLoop): how often it tries and how long it
    waits. */
module UploadLoop {
  import opened Bytes
  import opened Doubling

  const FIRST_BACKOFF: nat := 5000 // milliseconds, as all waits
  const BLOCKED_RETRY: nat := 900000
  const DEFER: nat := 30000
  const MAX_IMMEDIATE: nat := 3

  /** What one attempt came to. `Moved` stands for the four errors that say the object or the key changed under the
      attempt. */
  datatype Outcome = Stored | Cancelled | Deferred(shuttingDown: bool) | Moved | Blocked | Failed

  datatype Reason = Deferral | Backoff | SlowRetry

  datatype Event = Attempt(outcome: Outcome) | Wait(reason: Reason, ms: nat)

  /** The wait the loop starts with. */
  function FirstBackoff(cap: nat): (ms: nat)
  {
    if cap > 0 && FIRST_BACKOFF > cap then cap else FIRST_BACKOFF
  }

  /** The next wait after a failure. */
  function Grown(backoff: nat, cap: nat): (ms: nat)
  {
    if backoff * 2 > cap then cap else backoff * 2
  }

  /** One turn of the loop: what happens, whether there is another, and with which wait and count of immediate
      retries. */
  datatype Turn = Turn(events: seq<Event>, again: bool, backoff: nat, immediate: nat)

  function TurnOf(o: Outcome, backoff: nat, immediate: nat, cap: nat): (t: Turn)
  {
    match o
    case Stored => Turn([Attempt(o)], false, backoff, immediate)
    case Cancelled => Turn([Attempt(o)], false, backoff, immediate)
    case Deferred(shuttingDown) =>
      if shuttingDown then Turn([Attempt(o)], false, backoff, immediate)
      else Turn([Attempt(o), Wait(Deferral, DEFER)], true, backoff, 0)
    case Moved =>
      if immediate < MAX_IMMEDIATE then Turn([Attempt(o)], true, backoff, immediate + 1)
      else Turn([Attempt(o), Wait(Backoff, backoff)], true, Grown(backoff, cap), 0)
    case Blocked => Turn([Attempt(o), Wait(SlowRetry, BLOCKED_RETRY)], true, backoff, 0)
    case Failed => Turn([Attempt(o), Wait(Backoff, backoff)], true, Grown(backoff, cap), 0)
  }

  /** What the loop does for these outcomes, from the given wait and count of immediate retries on. */
  function Events(outcomes: seq<Outcome>, backoff: nat, immediate: nat, cap: nat): (events: seq<Event>)
    decreases |outcomes|
  {
    if outcomes == [] then []
    else
      var t := TurnOf(outcomes[0], backoff, immediate, cap);
      t.events + if t.again then Events(outcomes[1..], t.backoff, t.immediate, cap) else []
  }

  /** The invariant of the loop: these events and those still to come are all of them. */
  predicate OnTrack(events: seq<Event>, outcomes: seq<Outcome>, i: nat, backoff: nat, immediate: nat, cap: nat)
    requires i <= |outcomes|
  {
    events + Events(outcomes[i..], backoff, immediate, cap) == Events(outcomes, FirstBackoff(cap), 0, cap)
  }

  lemma TurnKeepsTrack(events: seq<Event>, outcomes: seq<Outcome>, i: nat, backoff: nat, immediate: nat, cap: nat)
    requires i < |outcomes| && OnTrack(events, outcomes, i, backoff, immediate, cap)
    ensures var t := TurnOf(outcomes[i], backoff, immediate, cap);
            if t.again then OnTrack(events + t.events, outcomes, i + 1, t.backoff, t.immediate, cap)
            else events + t.events == Events(outcomes, FirstBackoff(cap), 0, cap)
  {
    hide TurnOf, FirstBackoff;
    var t := TurnOf(outcomes[i], backoff, immediate, cap);
    assert outcomes[i..][1..] == outcomes[i + 1..];
    Associate(events, t.events, if t.again then Events(outcomes[i + 1..], t.backoff, t.immediate, cap) else []);
  }

  /** The loop, fed with outcomes until it finishes or they run out. */
  method Run(outcomes: seq<Outcome>, cap: nat) returns (events: seq<Event>)
    ensures events == Events(outcomes, FirstBackoff(cap), 0, cap)
  {
    var backoff: nat := FIRST_BACKOFF;
    if cap > 0 && backoff > cap {
      backoff := cap;
    }
    var immediate: nat := 0;
    events := [];
    StartsOnTrack(outcomes, cap);
    assert backoff == FirstBackoff(cap);
    hide Events, OnTrack, FirstBackoff;
    var i := 0;
    while i < |outcomes|
      invariant i <= |outcomes| && immediate <= MAX_IMMEDIATE
      invariant OnTrack(events, outcomes, i, backoff, immediate, cap)
    {
      var o := outcomes[i];
      ghost var before, t := events, TurnOf(o, backoff, immediate, cap);
      TurnKeepsTrack(events, outcomes, i, backoff, immediate, cap);
      events := events + [Attempt(o)];
      i := i + 1;
      if o == Stored || o == Cancelled || o == Deferred(true) {
        return;
      }
      if o == Deferred(false) {
        immediate := 0;
        TwoEvents(before, Attempt(o), Wait(Deferral, DEFER));
        assert t == Turn([Attempt(o), Wait(Deferral, DEFER)], true, backoff, 0);
        events := events + [Wait(Deferral, DEFER)];
        continue;
      }
      if o == Moved {
        immediate := immediate + 1;
        if immediate <= MAX_IMMEDIATE {
          assert t == Turn([Attempt(o)], true, backoff, immediate);
          continue;
        }
      }
      immediate := 0;
      var wait := Wait(Backoff, backoff);
      if o == Blocked {
        wait := Wait(SlowRetry, BLOCKED_RETRY);
      }
      TwoEvents(before, Attempt(o), wait);
      assert t.again && t.events == [Attempt(o), wait] && t.immediate == 0;
      events := events + [wait];
      if o != Blocked {
        backoff := backoff * 2;
        if backoff > cap {
          backoff := cap;
        }
      }
    }
    EndsOnTrack(events, outcomes, backoff, immediate, cap);
  }

  lemma TwoEvents(before: seq<Event>, a: Event, b: Event)
    ensures before + [a] + [b] == before + [a, b]
  {
  }

  lemma StartsOnTrack(outcomes: seq<Outcome>, cap: nat)
    ensures OnTrack([], outcomes, 0, FirstBackoff(cap), 0, cap)
  {
    assert outcomes[0..] == outcomes;
  }

  lemma EndsOnTrack(events: seq<Event>, outcomes: seq<Outcome>, backoff: nat, immediate: nat, cap: nat)
    requires OnTrack(events, outcomes, |outcomes|, backoff, immediate, cap)
    ensures events == Events(outcomes, FirstBackoff(cap), 0, cap)
  {
    assert outcomes[|outcomes|..] == [];
  }

  // ---------------------------------------------------------------------------------------------------------------
  // Bounded retries
  // ---------------------------------------------------------------------------------------------------------------

  /** Among any five events in a row there is a wait. */
  ghost predicate Calm(events: seq<Event>) {
    forall i :: 0 <= i && i + MAX_IMMEDIATE + 1 < |events| ==> WaitWithin(events, i)
  }

  ghost predicate WaitWithin(events: seq<Event>, i: int) {
    exists j :: 0 <= i <= j <= i + MAX_IMMEDIATE + 1 && j < |events| && events[j].Wait?
  }

  /** At most this many attempts come before the first wait. */
  ghost predicate WaitsBy(events: seq<Event>, n: nat) {
    |events| > n ==> exists j :: 0 <= j <= n && events[j].Wait?
  }

  lemma CalmBefore(head: seq<Event>, tail: seq<Event>)
    requires Calm(tail) && WaitsBy(tail, MAX_IMMEDIATE + 1)
    requires head != [] && |head| <= 2 && head[|head| - 1].Wait?
    ensures Calm(head + tail)
  {
    var all := head + tail;
    forall i | 0 <= i && i + MAX_IMMEDIATE + 1 < |all|
      ensures WaitWithin(all, i)
    {
      if i < |head| {
        assert all[|head| - 1].Wait?;
      } else {
        assert WaitWithin(tail, i - |head|);
        var j :| 0 <= i - |head| <= j <= i - |head| + MAX_IMMEDIATE + 1 && j < |tail| && tail[j].Wait?;
        assert all[j + |head|].Wait?;
      }
    }
  }

  lemma CalmAfterMove(a: Event, tail: seq<Event>, n: nat)
    requires Calm(tail) && WaitsBy(tail, n) && n <= MAX_IMMEDIATE
    ensures Calm([a] + tail) && WaitsBy([a] + tail, n + 1)
  {
    var all := [a] + tail;
    if |tail| > n {
      var j :| 0 <= j <= n && tail[j].Wait?;
      assert all[j + 1].Wait?;
    }
    forall i | 0 <= i && i + MAX_IMMEDIATE + 1 < |all|
      ensures WaitWithin(all, i)
    {
      if i > 0 {
        assert WaitWithin(tail, i - 1);
        var j :| 0 <= i - 1 <= j <= i - 1 + MAX_IMMEDIATE + 1 && j < |tail| && tail[j].Wait?;
        assert all[j + 1].Wait?;
      }
    }
  }

  lemma {:induction false} EventsAreCalm(outcomes: seq<Outcome>, backoff: nat, immediate: nat, cap: nat)
    requires immediate <= MAX_IMMEDIATE
    ensures Calm(Events(outcomes, backoff, immediate, cap))
    ensures WaitsBy(Events(outcomes, backoff, immediate, cap), MAX_IMMEDIATE + 1 - immediate)
    decreases |outcomes|
  {
    if outcomes != [] {
      var o, rest := outcomes[0], outcomes[1..];
      if o == Moved && immediate < MAX_IMMEDIATE {
        EventsAreCalm(rest, backoff, immediate + 1, cap);
        CalmAfterMove(Attempt(o), Events(rest, backoff, immediate + 1, cap), MAX_IMMEDIATE - immediate);
      } else if o == Deferred(false) || o == Moved || o == Blocked || o == Failed {
        var next := if o == Moved || o == Failed then Grown(backoff, cap) else backoff;
        var events := Events(outcomes, backoff, immediate, cap);
        EventsAreCalm(rest, next, 0, cap);
        assert events == events[..2] + Events(rest, next, 0, cap);
        CalmBefore(events[..2], Events(rest, next, 0, cap));
        assert events[1].Wait?;
      }
    }
  }

  /** Between two waits there are at most four attempts, whatever the outcomes. */
  lemma AtMostFourAttempts(outcomes: seq<Outcome>, cap: nat)
    ensures Calm(Events(outcomes, FirstBackoff(cap), 0, cap))
  {
    EventsAreCalm(outcomes, FirstBackoff(cap), 0, cap);
  }

  // ---------------------------------------------------------------------------------------------------------------
  // The waits
  // ---------------------------------------------------------------------------------------------------------------

  /** The failure waits, in order. */
  function Backoffs(events: seq<Event>): (ms: seq<nat>)
  {
    if events == [] then []
    else if events[0].Wait? && events[0].reason == Backoff then [events[0].ms] + Backoffs(events[1..])
    else Backoffs(events[1..])
  }

  /** The k-th wait doubles the first one k times, within the cap. */
  ghost predicate Doubles(ms: seq<nat>, first: nat, cap: nat) {
    forall k :: 0 <= k < |ms| ==> ms[k] == Min(cap, first * Pow2(k))
  }

  lemma DoublesOn(ms: seq<nat>, first: nat, cap: nat)
    requires 0 < first <= cap && Doubles(ms, Grown(first, cap), cap)
    ensures Doubles([first] + ms, first, cap)
  {
    var all := [first] + ms;
    forall k | 0 <= k < |all|
      ensures all[k] == Min(cap, first * Pow2(k))
    {
      if k > 0 {
        assert all[k] == ms[k - 1];
        GrownPow(first, cap, k - 1);
      } else {
        assert first * Pow2(0) == first;
      }
    }
  }

  lemma GrownPow(first: nat, cap: nat, k: nat)
    requires 0 < first <= cap
    ensures Min(cap, Grown(first, cap) * Pow2(k)) == Min(cap, first * Pow2(k + 1))
  {
    var p := Pow2(k);
    assert first * (2 * p) == (first * 2) * p;
    if first * 2 > cap {
      assert (first * 2) * p >= cap * p;
      assert cap * p >= cap;
    }
  }

  lemma {:induction false} BackoffsDouble(outcomes: seq<Outcome>, backoff: nat, immediate: nat, cap: nat)
    requires 0 < backoff <= cap
    ensures Doubles(Backoffs(Events(outcomes, backoff, immediate, cap)), backoff, cap)
    decreases |outcomes|
  {
    if outcomes != [] {
      hide Doubles;
      var o, rest := outcomes[0], outcomes[1..];
      var events := Events(outcomes, backoff, immediate, cap);
      if o == Moved && immediate < MAX_IMMEDIATE {
        BackoffsDouble(rest, backoff, immediate + 1, cap);
        assert events[1..] == Events(rest, backoff, immediate + 1, cap);
      } else if o == Deferred(false) || o == Blocked {
        BackoffsDouble(rest, backoff, 0, cap);
        assert events[1..][1..] == Events(rest, backoff, 0, cap);
      } else if o == Moved || o == Failed {
        BackoffsDouble(rest, Grown(backoff, cap), 0, cap);
        assert events[1..][1..] == Events(rest, Grown(backoff, cap), 0, cap);
        DoublesOn(Backoffs(Events(rest, Grown(backoff, cap), 0, cap)), backoff, cap);
      } else {
        assert events[1..] == [];
        NoBackoffs(backoff, cap);
      }
    } else {
      NoBackoffs(backoff, cap);
    }
  }

  lemma NoBackoffs(backoff: nat, cap: nat)
    ensures Backoffs([]) == [] && Doubles([], backoff, cap)
  {
  }

  /** With a ceiling configured, the waits after failures are the first one doubled again and again, and never above the
      ceiling; deferrals and blocked attempts in between do not make them grow. */
  lemma WaitsDoubleUpToTheCap(outcomes: seq<Outcome>, cap: nat)
    requires cap > 0
    ensures var ms := Backoffs(Events(outcomes, FirstBackoff(cap), 0, cap));
            Doubles(ms, Min(cap, 5000), cap) && forall k :: 0 <= k < |ms| ==> ms[k] <= cap
  {
    BackoffsDouble(outcomes, FirstBackoff(cap), 0, cap);
  }

  // ---------------------------------------------------------------------------------------------------------------
  // How long it goes on
  // ---------------------------------------------------------------------------------------------------------------

  /** The outcomes the loop has come to see. */
  function Seen(events: seq<Event>): (outcomes: seq<Outcome>)
  {
    if events == [] then []
    else if events[0].Attempt? then [events[0].outcome] + Seen(events[1..])
    else Seen(events[1..])
  }

  /** Nothing is left to do, or nothing can be done any more. */
  predicate Final(o: Outcome) {
    o == Stored || o == Cancelled || o == Deferred(true)
  }

  /** How many of these the loop gets to see: all up to the first final one. */
  function Lasts(outcomes: seq<Outcome>): (n: nat)
    ensures n <= |outcomes| && (forall i :: 0 <= i < n - 1 ==> !Final(outcomes[i]))
    ensures n < |outcomes| ==> n > 0 && Final(outcomes[n - 1])
  {
    if outcomes == [] then 0 else if Final(outcomes[0]) then 1 else 1 + Lasts(outcomes[1..])
  }

  lemma {:induction false} SeesEverything(outcomes: seq<Outcome>, backoff: nat, immediate: nat, cap: nat)
    ensures Seen(Events(outcomes, backoff, immediate, cap)) == outcomes[..Lasts(outcomes)]
    decreases |outcomes|
  {
    hide Seen, TurnOf, Final;
    SeenIn([], []);
    if outcomes != [] {
      var o, rest := outcomes[0], outcomes[1..];
      var t := TurnOf(o, backoff, immediate, cap);
      TurnIs(o, backoff, immediate, cap);
      SeenIn(t.events, if t.again then Events(rest, t.backoff, t.immediate, cap) else []);
      if t.again {
        SeesEverything(rest, t.backoff, t.immediate, cap);
        assert outcomes[..Lasts(outcomes)] == [o] + rest[..Lasts(rest)];
      }
    }
  }

  lemma TurnIs(o: Outcome, backoff: nat, immediate: nat, cap: nat)
    ensures var t := TurnOf(o, backoff, immediate, cap);
            && 1 <= |t.events| <= 2 && t.events[0] == Attempt(o) && (|t.events| == 2 ==> t.events[1].Wait?)
            && (t.again <==> !Final(o))
  {
  }

  lemma SeenIn(turn: seq<Event>, rest: seq<Event>)
    requires |turn| <= 2 && (|turn| > 0 ==> turn[0].Attempt?) && (|turn| == 2 ==> turn[1].Wait?)
    ensures Seen(turn + rest) == (if turn == [] then [] else [turn[0].outcome]) + Seen(rest) && Seen([]) == []
  {
    var events := turn + rest;
    if |turn| == 0 {
      assert events == rest;
    } else if |turn| == 1 {
      assert events[1..] == rest;
    } else {
      assert events[1..][1..] == rest;
    }
  }

  /** Only success, a cancellation or a deferral during shutdown ends the loop: after anything else it tries again. */
  lemma EndsOnlyWhenDone(outcomes: seq<Outcome>, cap: nat)
    ensures Seen(Events(outcomes, FirstBackoff(cap), 0, cap)) == outcomes[..Lasts(outcomes)]
  {
    SeesEverything(outcomes, FirstBackoff(cap), 0, cap);
  }

  /** Event i is the last of four attempts in a row that found the object or the key changed; `before` of them came
      before the first event. */
  predicate FourthMove(events: seq<Event>, i: nat, before: nat)
    requires i < |events|
  {
    i + before >= 3 && forall j :: 0 <= j <= i && j >= i - 3 ==> events[j] == Attempt(Moved)
  }

  /** What follows the attempt of event i: a failure waits, a blocked upload waits 15 minutes, a deferral half a minute;
      one that found something changed tries again at once, but for the fourth in a row. */
  predicate Follows(events: seq<Event>, i: nat, before: nat)
    requires i + 1 < |events|
  {
    match events[i]
    case Attempt(Failed) => events[i + 1].Wait? && events[i + 1].reason == Backoff
    case Attempt(Blocked) => events[i + 1] == Wait(SlowRetry, 15 * 60 * 1000)
    case Attempt(Deferred(false)) => events[i + 1] == Wait(Deferral, 30 * 1000)
    case Attempt(Moved) =>
      if FourthMove(events, i, before) then events[i + 1].Wait? && events[i + 1].reason == Backoff
      else events[i + 1].Attempt?
    case Attempt(_) => false
    case Wait(_, _) => events[i + 1].Attempt?
  }

  /** Looking back from an event behind one turn of the loop. */
  lemma MoveBehind(turn: seq<Event>, rest: seq<Event>, i: nat, before: nat, after: nat)
    requires |turn| <= i < |turn| + |rest|
    requires (turn == [Attempt(Moved)] && after == before + 1) || (|turn| == 2 && turn[1].Wait? && after == 0)
    ensures FourthMove(turn + rest, i, before) <==> FourthMove(rest, i - |turn|, after)
  {
    var n, events := |turn|, turn + rest;
    assert forall j :: n <= j < |events| ==> events[j] == rest[j - n];
    assert forall j :: 0 <= j < |rest| ==> rest[j] == events[j + n];
    if n == 2 && i <= 4 {
      assert !events[1].Attempt?;
    }
  }

  lemma {:induction false} EveryEventFollows(outcomes: seq<Outcome>, backoff: nat, immediate: nat, cap: nat)
    requires immediate <= MAX_IMMEDIATE
    ensures var events := Events(outcomes, backoff, immediate, cap);
            && (events != [] ==> events[0].Attempt?)
            && forall i: nat :: i + 1 < |events| ==> Follows(events, i, immediate)
    decreases |outcomes|
  {
    if outcomes != [] {
      var o := outcomes[0];
      var t := TurnOf(o, backoff, immediate, cap);
      var events := Events(outcomes, backoff, immediate, cap);
      if t.again {
        var rest := Events(outcomes[1..], t.backoff, t.immediate, cap);
        EveryEventFollows(outcomes[1..], t.backoff, t.immediate, cap);
        var n := |t.events|;
        forall i: nat | i + 1 < |events|
          ensures Follows(events, i, immediate)
        {
          if i >= n {
            assert Follows(rest, i - n, t.immediate);
            assert events[i] == rest[i - n] && events[i + 1] == rest[i - n + 1];
            MoveBehind(t.events, rest, i, immediate, t.immediate);
          }
        }
      }
    }
  }

  /** What follows what, in every run of the loop. */
  lemma WaitsAsTheOutcomeSays(outcomes: seq<Outcome>, cap: nat, i: nat)
    requires i + 1 < |Events(outcomes, FirstBackoff(cap), 0, cap)|
    ensures Follows(Events(outcomes, FirstBackoff(cap), 0, cap), i, 0)
  {
    EveryEventFollows(outcomes, FirstBackoff(cap), 0, cap);
  }
}
