/** The check-in screen: the state it keeps (work location, checked-in flag,
    location permission), the events that change it (the permission answer, a
    press on the map, a press on the check-in button) and what each event shows
    the user or sends to the server.

    SessionState, Step and StepEffects are the specification; the class
    CheckInScreen holds the same state in fields and its methods are proved
    against them. Replay and Emitted run a whole session of events. */
module Session {
  import opened Wrappers
  import opened Clock
  import opened Decision

  /** The user-facing alerts the screen raises. Their wording is not modelled. */
  datatype Notice =
    | PermissionDeniedAlert
    | NoWorkLocationAlert
    | SuccessAlert
    | SubmissionErrorAlert
    | RangeOrTimeAlert

  /** What an event does outside the state: an alert, or the attendance record sent to the server. */
  datatype Effect = Alert(notice: Notice) | Submit

  /** The state of one running session. */
  datatype SessionState = SessionState(workLocation: Option<Coordinate>, isCheckedIn: bool, locationGranted: bool)

  /** Nothing picked, not checked in, permission not yet given. */
  const Initial := SessionState(None, false, false)

  /** What the user or the device does. A button press carries the readings taken
      while the attempt runs: the position, the local time, the distance function and
      whether the submission to the server fails. */
  datatype Event =
    | PermissionAnswered(granted: bool)
    | MapPress(coordinate: Coordinate)
    | ButtonPress(current: Coordinate, now: LocalTime,
                  distanceKm: (Coordinate, Coordinate) -> real, submissionFails: bool)

  /** The check-in button is enabled only before a successful check-in and once
      location permission was granted. */
  predicate TriggerEnabled(s: SessionState)
    // the button's `disabled` property is `isCheckedIn || !locationGranted`
    ensures TriggerEnabled(s) <==> !(s.isCheckedIn || !s.locationGranted)
  {
    !s.isCheckedIn && s.locationGranted
  }

  /** The verdict a button press would get in state s. */
  function VerdictIn(s: SessionState, e: Event): Verdict
    requires e.ButtonPress?
  {
    Evaluate(e.current, s.workLocation, e.now, e.distanceKm)
  }

  /** Whether event e, in state s, is a press of the enabled button that is accepted. */
  predicate Accepts(s: SessionState, e: Event)
  {
    e.ButtonPress? && TriggerEnabled(s) && VerdictIn(s, e) == Accepted
  }

  /** What one check-in attempt with verdict v shows and sends, in order. The
      server's failure only adds an alert after the success alert and the submission. */
  function Effects(v: Verdict, submissionFails: bool): (es: seq<Effect>)
    ensures |es| >= 1 && es[0].Alert?
    ensures multiset(es)[Submit] == if v == Accepted then 1 else 0
    ensures Alert(SuccessAlert) in es <==> v == Accepted
    ensures Alert(SubmissionErrorAlert) in es <==> v == Accepted && submissionFails
    ensures v == NoWorkLocation ==> es == [Alert(NoWorkLocationAlert)]
    ensures v == Rejected ==> es == [Alert(RangeOrTimeAlert)]
    // accepted: the success alert, then the submission, then the error alert if it failed
    ensures v == Accepted ==>
              |es| == (if submissionFails then 3 else 2) &&
              es[0] == Alert(SuccessAlert) && es[1] == Submit &&
              (submissionFails ==> es[2] == Alert(SubmissionErrorAlert))
  {
    match v
    case NoWorkLocation => [Alert(NoWorkLocationAlert)]
    case Rejected => [Alert(RangeOrTimeAlert)]
    case Accepted =>
      [Alert(SuccessAlert), Submit] + (if submissionFails then [Alert(SubmissionErrorAlert)] else [])
  }

  /** The state after event e. */
  function Step(s: SessionState, e: Event): (r: SessionState)
    // the checked-in flag is never reset, and is set only by an accepted press of the enabled button
    ensures s.isCheckedIn ==> r.isCheckedIn
    ensures r.isCheckedIn != s.isCheckedIn <==> Accepts(s, e)
    // a map press overwrites the work location, whatever the state, and changes nothing else
    ensures e.MapPress? ==> r == s.(workLocation := Some(e.coordinate))
    // a press of the disabled button does nothing
    ensures e.ButtonPress? && !TriggerEnabled(s) ==> r == s
    // a button press never touches the work location or the permission
    ensures e.ButtonPress? ==> r.workLocation == s.workLocation && r.locationGranted == s.locationGranted
    // the permission answer can only grant, never revoke
    ensures s.locationGranted ==> r.locationGranted
    // the permission answer grants when positive and touches nothing else
    ensures e.PermissionAnswered? ==> r == s.(locationGranted := s.locationGranted || e.granted)
  {
    match e
    case PermissionAnswered(granted) => if granted then s.(locationGranted := true) else s
    case MapPress(c) => s.(workLocation := Some(c))
    case ButtonPress(_, _, _, _) =>
      if TriggerEnabled(s) && VerdictIn(s, e) == Accepted then s.(isCheckedIn := true) else s
  }

  /** What event e, in state s, shows and sends. */
  function StepEffects(s: SessionState, e: Event): (es: seq<Effect>)
    ensures multiset(es)[Submit] == if Accepts(s, e) then 1 else 0
    ensures e.ButtonPress? && !TriggerEnabled(s) ==> es == []
    ensures e.MapPress? ==> es == []
    ensures e.PermissionAnswered? ==> es == (if e.granted then [] else [Alert(PermissionDeniedAlert)])
    // an enabled press shows and sends what its verdict calls for, in order
    ensures e.ButtonPress? && TriggerEnabled(s) ==> es == Effects(VerdictIn(s, e), e.submissionFails)
  {
    match e
    case PermissionAnswered(granted) => if granted then [] else [Alert(PermissionDeniedAlert)]
    case MapPress(_) => []
    case ButtonPress(_, _, _, submissionFails) =>
      if TriggerEnabled(s) then Effects(VerdictIn(s, e), submissionFails) else []
  }

  /** The state after a whole sequence of events. */
  function Replay(s: SessionState, events: seq<Event>): SessionState
    decreases |events|
  {
    if events == [] then s else Replay(Step(s, events[0]), events[1..])
  }

  /** Everything a whole sequence of events shows and sends, in order. */
  function Emitted(s: SessionState, events: seq<Event>): seq<Effect>
    decreases |events|
  {
    if events == [] then [] else StepEffects(s, events[0]) + Emitted(Step(s, events[0]), events[1..])
  }

  /** Once checked in, a session stays checked in whatever happens next. Like the
      lemmas below, this is about sessions in which every attempt completes before
      the next press; module Overlap covers attempts that overlap. */
  lemma {:induction false} CheckedInIsTerminal(s: SessionState, events: seq<Event>)
    requires s.isCheckedIn
    ensures Replay(s, events).isCheckedIn
    ensures !TriggerEnabled(Replay(s, events))
    ensures multiset(Emitted(s, events))[Submit] == 0
    decreases |events|
  {
    if events != [] {
      CheckedInIsTerminal(Step(s, events[0]), events[1..]);
    }
  }

  /** In a session whose attempts do not overlap, at most one check-in succeeds and so
      at most one record is sent: exactly once if the session ends checked in having
      started out not checked in, and never otherwise. */
  lemma {:induction false} AtMostOneSubmission(s: SessionState, events: seq<Event>)
    ensures multiset(Emitted(s, events))[Submit] <= if s.isCheckedIn then 0 else 1
    ensures multiset(Emitted(s, events))[Submit] == 1 <==> !s.isCheckedIn && Replay(s, events).isCheckedIn
    decreases |events|
  {
    if events != [] {
      var e, rest := events[0], events[1..];
      var s' := Step(s, e);
      assert Emitted(s, events) == StepEffects(s, e) + Emitted(s', rest);
      if Accepts(s, e) {
        CheckedInIsTerminal(s', rest);
      } else {
        AtMostOneSubmission(s', rest);
      }
    }
  }

  /** From the start of a session whose attempts do not overlap: at most one record is sent. */
  lemma SessionSubmitsAtMostOnce(events: seq<Event>)
    ensures multiset(Emitted(Initial, events))[Submit] <= 1
    ensures multiset(Emitted(Initial, events))[Submit] == 1 <==> Replay(Initial, events).isCheckedIn
  {
    AtMostOneSubmission(Initial, events);
  }

  /** The server's answer never reaches the state: a press leads to the same state
      whether the submission fails or not. */
  lemma SubmissionFailureKeepsState(s: SessionState, current: Coordinate, now: LocalTime,
                                    distanceKm: (Coordinate, Coordinate) -> real)
    ensures Step(s, ButtonPress(current, now, distanceKm, true))
         == Step(s, ButtonPress(current, now, distanceKm, false))
    ensures Accepts(s, ButtonPress(current, now, distanceKm, true)) ==>
              Step(s, ButtonPress(current, now, distanceKm, true)).isCheckedIn
  {
  }

  /** The screen component: its three pieces of state are fields that the event
      handlers overwrite. */
  class CheckInScreen {
    var workLocation: Option<Coordinate>
    var isCheckedIn: bool
    var locationGranted: bool

    /** The abstract state held by the fields. */
    function State(): SessionState
      reads this
    {
      SessionState(workLocation, isCheckedIn, locationGranted)
    }

    constructor ()
      ensures State() == Initial
    {
      workLocation := None;
      isCheckedIn := false;
      locationGranted := false;
    }

    /** The answer to the location-permission request made when the screen opens. */
    method OnPermissionAnswered(granted: bool) returns (effects: seq<Effect>)
      modifies this
      ensures State() == Step(old(State()), PermissionAnswered(granted))
      ensures effects == StepEffects(old(State()), PermissionAnswered(granted))
      ensures locationGranted == (old(locationGranted) || granted)
      ensures workLocation == old(workLocation) && isCheckedIn == old(isCheckedIn)
    {
      if !granted {
        effects := [Alert(PermissionDeniedAlert)];
        return;
      }
      locationGranted := true;
      effects := [];
    }

    /** A press on the map: the pressed point becomes the work location. */
    method HandleMapPress(coordinate: Coordinate)
      modifies this
      ensures State() == Step(old(State()), MapPress(coordinate))
      ensures workLocation == Some(coordinate)
      ensures isCheckedIn == old(isCheckedIn) && locationGranted == old(locationGranted)
    {
      workLocation := Some(coordinate);
    }

    /** One check-in attempt. It has no guard of its own: called when already
        checked in, it evaluates again and leaves the flag set. */
    method CheckIn(current: Coordinate, now: LocalTime,
                   distanceKm: (Coordinate, Coordinate) -> real, submissionFails: bool)
      returns (v: Verdict, effects: seq<Effect>)
      modifies this
      ensures v == Evaluate(current, old(workLocation), now, distanceKm)
      ensures effects == Effects(v, submissionFails)
      ensures isCheckedIn == (old(isCheckedIn) || v == Accepted)
      ensures workLocation == old(workLocation) && locationGranted == old(locationGranted)
    {
      if workLocation.None? {
        v := NoWorkLocation;
        effects := [Alert(NoWorkLocationAlert)];
        return;
      }
      var withinTime := WithinTime(now.hour, now.minute);
      var distance := distanceKm(current, workLocation.value);
      if distance <= MaxDistanceKm && withinTime {
        isCheckedIn := true;
        effects := [Alert(SuccessAlert), Submit];
        if submissionFails {
          effects := effects + [Alert(SubmissionErrorAlert)];
        }
        v := Accepted;
      } else {
        v := Rejected;
        effects := [Alert(RangeOrTimeAlert)];
      }
    }

    /** A press on the check-in button, which is disabled once checked in or
        while location permission is missing; a disabled press does nothing. */
    method PressCheckInButton(current: Coordinate, now: LocalTime,
                              distanceKm: (Coordinate, Coordinate) -> real, submissionFails: bool)
      returns (effects: seq<Effect>)
      modifies this
      ensures State() == Step(old(State()), ButtonPress(current, now, distanceKm, submissionFails))
      ensures effects == StepEffects(old(State()), ButtonPress(current, now, distanceKm, submissionFails))
    {
      if isCheckedIn || !locationGranted {
        effects := [];
        return;
      }
      var v;
      v, effects := CheckIn(current, now, distanceKm, submissionFails);
    }
  }
}
