/** Check-in attempts that overlap. The check-in handler suspends while it waits for
    the device position, after its work-location check and before it decides. A press
    of the button during that wait starts a second attempt, because the button is
    disabled only once an attempt has already succeeded. Here an attempt is split
    into its Press, which runs up to the suspension, and its Resolve, which runs from
    the position reading to the end. Each pending attempt keeps the work location it
    saw when pressed, as the handler's closure does.

    `guardPending` selects the button: false is the button as written; true is a
    button that is also disabled while an attempt is pending. */
module Overlap {
  import opened Wrappers
  import opened Clock
  import opened Decision
  import opened Session

  /** The session state and the work locations of the attempts still waiting for a position. */
  datatype AsyncState = AsyncState(session: SessionState, pending: seq<Coordinate>)

  /** A fresh screen with no attempt under way. */
  const Start := AsyncState(Initial, [])

  datatype AsyncEvent =
    | Answer(granted: bool)
    | Pick(coordinate: Coordinate)
    | Press
    | Resolve(index: nat, current: Coordinate, now: LocalTime,
              distanceKm: (Coordinate, Coordinate) -> real, submissionFails: bool)

  /** Whether the check-in button responds to a press. */
  predicate Enabled(s: AsyncState, guardPending: bool)
  {
    TriggerEnabled(s.session) && (guardPending ==> s.pending == [])
  }

  /** Whether e resolves a pending attempt whose verdict is Accepted. */
  predicate ResolvesAccepted(s: AsyncState, e: AsyncEvent)
  {
    e.Resolve? && e.index < |s.pending| &&
    Evaluate(e.current, Some(s.pending[e.index]), e.now, e.distanceKm) == Accepted
  }

  function RemoveAt(xs: seq<Coordinate>, i: nat): (r: seq<Coordinate>)
    requires i < |xs|
    ensures |r| == |xs| - 1
    ensures forall k :: 0 <= k < i ==> r[k] == xs[k]
    ensures forall k :: i <= k < |r| ==> r[k] == xs[k + 1]
  {
    xs[..i] + xs[i + 1..]
  }

  /** The invariant the corrected button keeps: at most one attempt is pending,
      and none once checked in. */
  predicate OneAtATime(s: AsyncState)
  {
    |s.pending| <= 1 && (s.session.isCheckedIn ==> s.pending == [])
  }

  /** The state after event e. */
  function AsyncStep(s: AsyncState, e: AsyncEvent, guardPending: bool): (r: AsyncState)
    // the flag is never reset, and is set exactly by resolving an accepted attempt
    ensures r.session.isCheckedIn <==> s.session.isCheckedIn || ResolvesAccepted(s, e)
    // a press of a disabled button does nothing
    ensures e.Press? && !Enabled(s, guardPending) ==> r == s
    // an enabled press with a work location set adds one pending attempt for that location
    ensures e.Press? && Enabled(s, guardPending) && s.session.workLocation.Some? ==>
              r == s.(pending := s.pending + [s.session.workLocation.value])
    // resolving removes exactly the resolved attempt
    ensures e.Resolve? && e.index < |s.pending| ==> r.pending == RemoveAt(s.pending, e.index)
    // the corrected button keeps attempts one at a time
    ensures guardPending && OneAtATime(s) ==> OneAtATime(r)
    // the permission answer and the map press act on the session as in the atomic model
    ensures e.Answer? ==> r == s.(session := Step(s.session, PermissionAnswered(e.granted)))
    ensures e.Pick? ==> r == s.(session := s.session.(workLocation := Some(e.coordinate)))
    // a press without a work location alerts at once and starts nothing
    ensures e.Press? && s.session.workLocation.None? ==> r == s
    // a resolution touches only the flag and its own attempt
    ensures e.Resolve? && e.index < |s.pending| ==>
              r.session.workLocation == s.session.workLocation &&
              r.session.locationGranted == s.session.locationGranted
    // resolving an attempt that is not pending does nothing
    ensures e.Resolve? && e.index >= |s.pending| ==> r == s
  {
    match e
    case Answer(granted) => s.(session := Step(s.session, PermissionAnswered(granted)))
    case Pick(c) => s.(session := Step(s.session, MapPress(c)))
    case Press =>
      if Enabled(s, guardPending) && s.session.workLocation.Some? then
        s.(pending := s.pending + [s.session.workLocation.value])
      else s
    case Resolve(i, current, now, distanceKm, _) =>
      if i < |s.pending| then
        var v := Evaluate(current, Some(s.pending[i]), now, distanceKm);
        AsyncState(if v == Accepted then s.session.(isCheckedIn := true) else s.session,
                   RemoveAt(s.pending, i))
      else s
  }

  /** What event e, in state s, shows and sends. */
  function AsyncEffects(s: AsyncState, e: AsyncEvent, guardPending: bool): (es: seq<Effect>)
    ensures multiset(es)[Submit] == if ResolvesAccepted(s, e) then 1 else 0
    ensures e.Press? && Enabled(s, guardPending) && s.session.workLocation == None ==>
              es == [Alert(NoWorkLocationAlert)]
    ensures e.Press? && s.session.workLocation != None ==> es == []
    ensures e.Press? && !Enabled(s, guardPending) ==> es == []
    // a resolution shows the alerts of its verdict: success, submission and error alert, or the combined rejection
    ensures e.Resolve? && e.index < |s.pending| ==>
              es == Effects(Evaluate(e.current, Some(s.pending[e.index]), e.now, e.distanceKm), e.submissionFails)
    ensures e.Resolve? && e.index >= |s.pending| ==> es == []
    ensures e.Pick? ==> es == []
    ensures e.Answer? ==> es == StepEffects(s.session, PermissionAnswered(e.granted))
  {
    match e
    case Answer(granted) => StepEffects(s.session, PermissionAnswered(granted))
    case Pick(_) => []
    case Press =>
      if Enabled(s, guardPending) && s.session.workLocation.None? then [Alert(NoWorkLocationAlert)] else []
    case Resolve(i, current, now, distanceKm, submissionFails) =>
      if i < |s.pending| then Effects(Evaluate(current, Some(s.pending[i]), now, distanceKm), submissionFails)
      else []
  }

  function AsyncReplay(s: AsyncState, events: seq<AsyncEvent>, guardPending: bool): AsyncState
    decreases |events|
  {
    if events == [] then s else AsyncReplay(AsyncStep(s, events[0], guardPending), events[1..], guardPending)
  }

  function AsyncEmitted(s: AsyncState, events: seq<AsyncEvent>, guardPending: bool): seq<Effect>
    decreases |events|
  {
    if events == [] then []
    else AsyncEffects(s, events[0], guardPending) + AsyncEmitted(AsyncStep(s, events[0], guardPending), events[1..], guardPending)
  }

  /** One event of a replayed sequence. */
  lemma Unroll(s: AsyncState, events: seq<AsyncEvent>, guardPending: bool)
    requires events != []
    ensures AsyncReplay(s, events, guardPending)
         == AsyncReplay(AsyncStep(s, events[0], guardPending), events[1..], guardPending)
    ensures multiset(AsyncEmitted(s, events, guardPending))[Submit]
         == multiset(AsyncEffects(s, events[0], guardPending))[Submit]
          + multiset(AsyncEmitted(AsyncStep(s, events[0], guardPending), events[1..], guardPending))[Submit]
    ensures AsyncEmitted(s, events, guardPending)
         == AsyncEffects(s, events[0], guardPending)
          + AsyncEmitted(AsyncStep(s, events[0], guardPending), events[1..], guardPending)
  {
  }

  /** With no attempt pending, a press resolved at once is exactly one atomic button
      press of the Session model, for either button. */
  lemma PressThenResolveIsOneStep(s: AsyncState, current: Coordinate, now: LocalTime,
                                  distanceKm: (Coordinate, Coordinate) -> real,
                                  submissionFails: bool, guardPending: bool)
    requires s.pending == []
    ensures var events := [Press, Resolve(0, current, now, distanceKm, submissionFails)];
            AsyncReplay(s, events, guardPending)
              == AsyncState(Step(s.session, ButtonPress(current, now, distanceKm, submissionFails)), []) &&
            AsyncEmitted(s, events, guardPending)
              == StepEffects(s.session, ButtonPress(current, now, distanceKm, submissionFails))
  {
    var r := Resolve(0, current, now, distanceKm, submissionFails);
    var events := [Press, r];
    var s1 := AsyncStep(s, Press, guardPending);
    Unroll(s, events, guardPending);
    assert events[1..] == [r];
    Unroll(s1, [r], guardPending);
    assert [r][1..] == [];
  }

  /** Running two sequences one after the other. */
  lemma {:induction false} ReplayAppend(s: AsyncState, xs: seq<AsyncEvent>, ys: seq<AsyncEvent>, guardPending: bool)
    ensures AsyncReplay(s, xs + ys, guardPending) == AsyncReplay(AsyncReplay(s, xs, guardPending), ys, guardPending)
    decreases |xs|
  {
    if xs == [] {
      assert xs + ys == ys;
    } else {
      var zs := xs + ys;
      assert zs[0] == xs[0] && zs[1..] == xs[1..] + ys;
      ReplayAppend(AsyncStep(s, xs[0], guardPending), xs[1..], ys, guardPending);
    }
  }

  /** What two sequences run one after the other show and send. */
  lemma {:induction false} EmittedAppend(s: AsyncState, xs: seq<AsyncEvent>, ys: seq<AsyncEvent>, guardPending: bool)
    ensures AsyncEmitted(s, xs + ys, guardPending)
         == AsyncEmitted(s, xs, guardPending) + AsyncEmitted(AsyncReplay(s, xs, guardPending), ys, guardPending)
    decreases |xs|
  {
    if xs == [] {
      assert xs + ys == ys;
    } else {
      var zs, s1 := xs + ys, AsyncStep(s, xs[0], guardPending);
      assert zs[0] == xs[0] && zs[1..] == xs[1..] + ys;
      EmittedAppend(s1, xs[1..], ys, guardPending);
      var head := AsyncEffects(s, xs[0], guardPending);
      var left := AsyncEmitted(s1, xs[1..], guardPending);
      var right := AsyncEmitted(AsyncReplay(s1, xs[1..], guardPending), ys, guardPending);
      assert AsyncEmitted(s, zs, guardPending) == head + (left + right);
      assert head + (left + right) == (head + left) + right;
    }
  }

  /** As written: after permission, a map press and two presses of the button, two
      attempts for the picked location are pending at once, and nothing was sent. */
  lemma AsWrittenTwoPending(w: Coordinate)
    ensures var events := [Answer(true), Pick(w), Press, Press];
            AsyncReplay(Start, events, false) == AsyncState(SessionState(Some(w), false, true), [w, w]) &&
            AsyncEmitted(Start, events, false) == []
  {
    var events := [Answer(true), Pick(w), Press, Press];
    var s1 := AsyncStep(Start, Answer(true), false);
    assert s1 == AsyncState(SessionState(None, false, true), []);
    var s2 := AsyncStep(s1, Pick(w), false);
    assert s2 == AsyncState(SessionState(Some(w), false, true), []);
    var s3 := AsyncStep(s2, Press, false);
    assert s3 == AsyncState(SessionState(Some(w), false, true), [w]);
    var s4 := AsyncStep(s3, Press, false);
    assert s4 == AsyncState(SessionState(Some(w), false, true), [w, w]);
    Unroll(Start, events, false);
    assert events[1..] == [Pick(w), Press, Press];
    Unroll(s1, events[1..], false);
    assert events[2..] == [Press, Press];
    Unroll(s2, events[2..], false);
    assert events[3..] == [Press];
    Unroll(s3, events[3..], false);
    assert events[4..] == [];
  }

  /** As written: both pending attempts resolve as accepted and each sends the record. */
  lemma AsWrittenBothResolve(w: Coordinate, now: LocalTime, distanceKm: (Coordinate, Coordinate) -> real)
    requires distanceKm(w, w) <= MaxDistanceKm && InWindow(now)
    ensures var s := AsyncState(SessionState(Some(w), false, true), [w, w]);
            var r := Resolve(0, w, now, distanceKm, false);
            multiset(AsyncEmitted(s, [r, r], false))[Submit] == 2 &&
            AsyncReplay(s, [r, r], false).session.isCheckedIn
  {
    var s := AsyncState(SessionState(Some(w), false, true), [w, w]);
    var r := Resolve(0, w, now, distanceKm, false);
    assert ResolvesAccepted(s, r);
    var s5 := AsyncStep(s, r, false);
    assert s5.pending == [w];
    assert ResolvesAccepted(s5, r);
    Unroll(s, [r, r], false);
    assert [r, r][1..] == [r];
    Unroll(s5, [r], false);
    assert [r][1..] == [];
  }

  /** As written: the user grants permission, picks the work location, and presses
      twice while the first attempt waits for the position. Both attempts are then
      accepted, and the record is sent twice in one session. */
  lemma AsWrittenSubmitsTwice(w: Coordinate, now: LocalTime, distanceKm: (Coordinate, Coordinate) -> real)
    requires distanceKm(w, w) <= MaxDistanceKm && InWindow(now)
    ensures var r := Resolve(0, w, now, distanceKm, false);
            var events := [Answer(true), Pick(w), Press, Press, r, r];
            multiset(AsyncEmitted(Start, events, false))[Submit] == 2 &&
            AsyncReplay(Start, events, false).session.isCheckedIn
  {
    var r := Resolve(0, w, now, distanceKm, false);
    var prefix := [Answer(true), Pick(w), Press, Press];
    assert [Answer(true), Pick(w), Press, Press, r, r] == prefix + [r, r];
    ReplayAppend(Start, prefix, [r, r], false);
    EmittedAppend(Start, prefix, [r, r], false);
    AsWrittenTwoPending(w);
    AsWrittenBothResolve(w, now, distanceKm);
  }

  /** Corrected, once checked in: nothing further is sent and the flag stays set. */
  lemma {:induction false} GuardedCheckedInIsTerminal(s: AsyncState, events: seq<AsyncEvent>)
    requires s.session.isCheckedIn && s.pending == []
    ensures AsyncReplay(s, events, true).session.isCheckedIn
    ensures multiset(AsyncEmitted(s, events, true))[Submit] == 0
    decreases |events|
  {
    if events != [] {
      GuardedCheckedInIsTerminal(AsyncStep(s, events[0], true), events[1..]);
    }
  }

  /** Corrected: with the button also disabled while an attempt is pending, overlapping
      presses are impossible and any sequence of events sends at most one record
      (none once checked in), and exactly one when it ends checked in having started
      out not checked in. */
  lemma {:induction false} GuardedAtMostOneSubmission(s: AsyncState, events: seq<AsyncEvent>)
    requires OneAtATime(s)
    ensures multiset(AsyncEmitted(s, events, true))[Submit] <= if s.session.isCheckedIn then 0 else 1
    ensures multiset(AsyncEmitted(s, events, true))[Submit] == 1 <==>
              !s.session.isCheckedIn && AsyncReplay(s, events, true).session.isCheckedIn
    decreases |events|
  {
    if events != [] {
      var e, rest := events[0], events[1..];
      var s' := AsyncStep(s, e, true);
      assert AsyncEmitted(s, events, true) == AsyncEffects(s, e, true) + AsyncEmitted(s', rest, true);
      if ResolvesAccepted(s, e) {
        GuardedCheckedInIsTerminal(s', rest);
      } else {
        GuardedAtMostOneSubmission(s', rest);
      }
    }
  }

  /** Corrected, from a fresh screen: whatever is pressed and however the attempts
      interleave, at most one record is sent, and one exactly when the session ends
      checked in. */
  lemma GuardedSessionSubmitsAtMostOnce(events: seq<AsyncEvent>)
    ensures multiset(AsyncEmitted(Start, events, true))[Submit] <= 1
    ensures multiset(AsyncEmitted(Start, events, true))[Submit] == 1 <==>
              AsyncReplay(Start, events, true).session.isCheckedIn
  {
    GuardedAtMostOneSubmission(Start, events);
  }
}
