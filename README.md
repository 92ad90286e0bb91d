# Attendance check-in: decision procedure and session state

A model of the check-in logic of a React Native attendance app (`wci_js.js`).
A user picks a work location on a map, grants location permission, and presses
a button to record presence. The attempt is accepted when the user stands within
1 km of the work location and the local time is between 08:30 and 09:00 (the
minute 09:00 included). An accepted attempt sets the session's checked-in flag,
which disables the button for the rest of the session, and sends a record to a
server whose failure only raises an alert.

Modules:

- `Wrappers` — `Option`, standing for JavaScript `null` in an optional state slot.
- `Clock` — local clock readings (hour 0–23, minute 0–59, as a JavaScript `Date`
  reports them) and the time-window test `WithinTime`, with its characterisation as
  the closed interval of minutes-of-day [08:30, 09:00] and the fact that the
  window spans exactly 31 clock minutes.
- `Decision` — coordinates, the `Verdict` (`NoWorkLocation | Rejected | Accepted`)
  and `Evaluate`, the decision of one attempt. The great-circle distance is an input:
  a function from two coordinates to kilometres.
- `Session` — the screen's state (`workLocation`, `isCheckedIn`, `locationGranted`),
  the events that change it (permission answer, map press, button press), the
  alerts and submission each event produces, the lemmas over whole sessions
  (at most one submission, the checked-in flag is terminal), and the class
  `CheckInScreen` whose fields hold that state and whose handlers are proved
  against the pure step function. Each attempt here runs as one step.
- `Overlap` — the same session with each attempt split at its `await` into a
  press and a later resolution, so that attempts can overlap. It shows that the
  button as written lets one session send the record twice, and proves that a
  button also disabled while an attempt is pending sends it at most once.

Four points of the code's behaviour that the model keeps as written:

- The window compares only hours and minutes, so it does not end at the instant
  09:00:00: every instant up to 09:00:59.999 is admitted (`Clock.WindowBoundaries`).
- The `checkIn` handler has no guard against a second check-in; only the button's
  `disabled` property suppresses further presses. `CheckInScreen.CheckIn` is
  therefore unguarded and `CheckInScreen.PressCheckInButton` carries the guard.
- The work location is overwritten on every map press, also after check-in.
- The button is disabled only once `isCheckedIn` is set, which happens after the
  handler's `await` for the position. A second press during that wait starts a
  second attempt, and both can succeed (see "## Findings").

## Model

| member | source | states |
|---|---|---|
| Clock.WithinTime | wci_js.js:39 | the window test holds exactly when the minute of the day lies in [08:30, 09:00]; it can only hold at hour 8, or at 09:00 |
| Clock.InWindow | wci_js.js:36-39 | a clock reading is in the window exactly when its hour and minute put it in [08:30, 09:00] |
| Clock.WindowBoundaries | wci_js.js:39 | 08:29 is out; 08:30, 08:59 and 09:00 are in; 09:01, 10:00, 07:59 and 20:30 are out; 09:00:59.999 is still in |
| Clock.SecondsIgnored | wci_js.js:36-39 | two readings with the same hour and minute get the same answer; zeroing seconds and milliseconds never changes it |
| Clock.WindowHasThirtyOneMinutes | wci_js.js:39 | the admitted minutes of the day are exactly the contiguous run 08:30 to 09:00, 31 minutes in all |
| Decision.Evaluate | wci_js.js:33-48 | the verdict is NoWorkLocation exactly when no work location is set; Accepted exactly when one is set, the distance to it is at most 1 km and the time is in [08:30, 09:00]; Rejected otherwise |
| Decision.NoWorkLocationIgnoresTimeAndDistance | wci_js.js:33 | with no work location, position, time and distance have no effect: the verdict is always NoWorkLocation |
| Decision.RejectionIsUndistinguished | wci_js.js:69-70 | with a work location set, being too far, outside the window, or both, all give the one Rejected verdict |
| Decision.Scenarios | wci_js.js:48 | at the work location at 08:45: accepted; 6 km away at 08:45: rejected; at the work location at 10:00: rejected |
| Session.TriggerEnabled | wci_js.js:116 | the button is enabled exactly when it is not disabled by "checked in, or no location permission": not checked in and permission granted |
| Session.Effects | wci_js.js:48-70 | an accepted attempt gives the success alert, then the submission, then the error alert exactly when the submission failed, and nothing else; it submits once exactly when accepted; the submission-error alert appears exactly when accepted and the submission failed; a rejection gives the one combined alert |
| Session.Step | wci_js.js:17-49 | the checked-in flag is never reset and changes exactly on an accepted press of the enabled button; a map press overwrites the work location in any state and changes nothing else; a disabled press changes nothing; a permission answer sets the permission flag when granted and changes nothing else |
| Session.StepEffects | wci_js.js:17-70 | an enabled press shows and sends exactly the effects of its verdict (success alert, submission, error alert; the no-location alert; the combined rejection alert); an event submits a record exactly when it is an accepted press of the enabled button; a disabled press and a map press produce nothing; a refused permission gives the denial alert, a granted one nothing |
| Session.CheckedInIsTerminal | wci_js.js:116 | with attempts that do not overlap: from a checked-in state, any sequence of events ends checked in, with the button disabled, and sends nothing |
| Session.AtMostOneSubmission | wci_js.js:48-62 | with attempts that do not overlap: any sequence of events sends at most one record (none if already checked in), and exactly one when it takes the session from not checked in to checked in |
| Session.SessionSubmitsAtMostOnce | wci_js.js:12 | with attempts that do not overlap: from the initial state, a session sends at most one record, and sends one exactly when it ends checked in |
| Session.SubmissionFailureKeepsState | wci_js.js:63-66 | the state after a press is the same whether the submission fails or not; an accepted press leaves the session checked in |
| Session.CheckInScreen.constructor | wci_js.js:10-13 | a new screen has no work location, is not checked in and has no location permission |
| Session.CheckInScreen.OnPermissionAnswered | wci_js.js:17-22 | a granted answer sets the permission flag; a refusal alerts and changes nothing; the step function's state and effects |
| Session.CheckInScreen.HandleMapPress | wci_js.js:28-30 | the pressed point becomes the work location; the other fields keep their values |
| Session.CheckInScreen.CheckIn | wci_js.js:32-72 | the verdict is Evaluate on the work location held before the call; the flag becomes set exactly when it was set or the verdict is Accepted; the alerts and submission are Effects of the verdict; the work location and permission are unchanged |
| Overlap.AsyncStep | wci_js.js:32-49 | the flag is set exactly by resolving an accepted pending attempt and never reset; a disabled press does nothing; an enabled press with a work location adds one pending attempt for that location; a resolution removes exactly its attempt and leaves the work location and permission unchanged; resolving an attempt that is not pending, or pressing without a work location, changes nothing; the permission answer and map press act as in the atomic model; the corrected button keeps at most one attempt pending and none once checked in |
| Overlap.AsyncEffects | wci_js.js:33-70 | an event submits exactly when it resolves an accepted attempt; an enabled press without a work location alerts at once; a press with a work location, a disabled press and a map press show nothing; a resolution shows exactly the effects of its verdict; a permission answer shows what the atomic model shows |
| Overlap.PressThenResolveIsOneStep | wci_js.js:32-72 | with nothing pending, a press resolved at once gives the same state and effects as one atomic press of the Session model |
| Overlap.AsWrittenTwoPending | wci_js.js:116 | as written, permission, a map press and two presses leave two attempts pending at once, with nothing sent |
| Overlap.AsWrittenBothResolve | wci_js.js:48-62 | as written, two pending attempts at the work location inside the window both resolve as accepted and each sends the record |
| Overlap.AsWrittenSubmitsTwice | wci_js.js:35 | as written, a second press during the wait for the position makes one session send the record twice |
| Overlap.GuardedCheckedInIsTerminal | wci_js.js:116 | with the corrected button, a checked-in state with nothing pending stays checked in and sends nothing |
| Overlap.GuardedAtMostOneSubmission | wci_js.js:49 | with the corrected button, however attempts interleave, at most one record is sent (none once checked in), and one exactly when the session goes from not checked in to checked in |
| Overlap.GuardedSessionSubmitsAtMostOnce | wci_js.js:12-13 | with the corrected button, from a fresh screen, at most one record is sent, and one exactly when the session ends checked in |
| Session.CheckInScreen.PressCheckInButton | wci_js.js:116 | the new state and the effects are those of the step function for a button press: nothing when disabled, CheckIn otherwise |

## Left out

- The haversine distance and `deg2rad` (`wci_js.js:74-86`): floating-point trigonometry. The distance is a parameter `distanceKm: (Coordinate, Coordinate) -> real`; its symmetry and zero self-distance are not claimed.
- Floating point: distances are reals, so a `NaN` distance (which the code would reject, since `NaN <= 1` is false) has no counterpart.
- The permission request runs once, when the screen opens; the model accepts a `PermissionAnswered` event at any point of a session, which only widens the sessions the lemmas cover.
- Geolocation (`wci_js.js:15-26`, `wci_js.js:35`): the permission request is modelled only by its answer (`PermissionAnswered`), and the position fetched during an attempt is an input. A position request that fails and aborts the attempt without a verdict is not modelled. The `currentLocation` state, used only to centre the map, is not modelled.
- Session.CheckedInIsTerminal, Session.AtMostOneSubmission, Session.SessionSubmitsAtMostOnce: these cover only sessions whose attempts do not overlap, since `Session.Step` runs a press as one atomic attempt. The program sends the record twice when a press lands while an earlier attempt waits for the position; module `Overlap` models that case.
- The handler's reads of `workLocation` (`wci_js.js:33`, `wci_js.js:44`) see the value of the render that created it, so both reads agree; `Overlap` keeps that value with each pending attempt.
- The server submission (`wci_js.js:53-66`): the endpoint, the JSON record with the two e-mail addresses and the ISO timestamp, and `console.error` are not modelled. The submission is an effect `Submit`, and its failure an input `submissionFails` that only adds an alert.
- `Overlap` resolves pending attempts in any order the events name; the real order depends on when each position request completes.
- The e-mail text inputs, the alert wording, rendering, the map marker and styles (`wci_js.js:88-145`): user interface only.

## Findings

| source | as written | input that shows it | evidently intended | confidence | as-written member | corrected member |
|---|---|---|---|---|---|---|
| wci_js.js:116 | the button is disabled by "checked in, or no location permission", and `isCheckedIn` is set only at line 49, after the `await` at line 35 | grant permission, pick W, press twice before the first position arrives, both positions at W at 08:45: two success alerts and two records | at most one check-in record per session | not executed; follows from the handler's suspension at line 35 | Overlap.AsWrittenSubmitsTwice | Overlap.GuardedSessionSubmitsAtMostOnce |
