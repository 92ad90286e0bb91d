/** The check-in decision: given the user's current position, the optional work
    location and the local time, accept, reject, or report that no work location
    has been chosen. The great-circle distance between two points is an input
    (a function of two coordinates), not computed here. */
module Decision {
  import opened Wrappers
  import opened Clock

  /** A point in decimal degrees, as reported by the device or picked on the map. */
  datatype Coordinate = Coordinate(latitude: real, longitude: real)

  /** The outcome of one check-in attempt. A rejection does not say whether the
      distance, the time or both were at fault. */
  datatype Verdict = NoWorkLocation | Rejected | Accepted

  /** The geofence radius around the work location, in kilometres. */
  const MaxDistanceKm: real := 1.0

  /** Decides one attempt from the current position, the work location (if any),
      the local time and the distance function. */
  function Evaluate(current: Coordinate, work: Option<Coordinate>, now: LocalTime,
                    distanceKm: (Coordinate, Coordinate) -> real): (v: Verdict)
    ensures v == NoWorkLocation <==> work == None
    ensures v == Accepted <==>
              work != None && distanceKm(current, work.value) <= MaxDistanceKm &&
              WindowStart <= MinuteOfDay(now.hour, now.minute) <= WindowEnd
  {
    if work.None? then NoWorkLocation
    else if distanceKm(current, work.value) <= MaxDistanceKm && WithinTime(now.hour, now.minute) then Accepted
    else Rejected
  }

  /** With no work location the verdict is the same whatever the position, the time
      and the distance: neither the window nor the geofence is consulted. */
  lemma NoWorkLocationIgnoresTimeAndDistance(c1: Coordinate, c2: Coordinate, t1: LocalTime, t2: LocalTime,
                                             d1: (Coordinate, Coordinate) -> real,
                                             d2: (Coordinate, Coordinate) -> real)
    ensures Evaluate(c1, None, t1, d1) == Evaluate(c2, None, t2, d2) == NoWorkLocation
  {
  }

  /** With a work location set, every attempt that is not accepted gets one and the same
      rejection, whether it was too far, outside the window, or both. */
  lemma RejectionIsUndistinguished(current: Coordinate, work: Coordinate, now: LocalTime,
                                   distanceKm: (Coordinate, Coordinate) -> real)
    requires distanceKm(current, work) > MaxDistanceKm || !InWindow(now)
    ensures Evaluate(current, Some(work), now, distanceKm) == Rejected
  {
  }

  /** Worked attempts against a work location W: standing on W at 08:45 is accepted;
      about 6 km away at 08:45 is rejected; standing on W at 10:00 is rejected. */
  lemma Scenarios(w: Coordinate, far: Coordinate, distanceKm: (Coordinate, Coordinate) -> real)
    requires distanceKm(w, w) == 0.0
    requires distanceKm(far, w) > 6.0
    ensures Evaluate(w, Some(w), LocalTime(8, 45, 0, 0), distanceKm) == Accepted
    ensures Evaluate(far, Some(w), LocalTime(8, 45, 0, 0), distanceKm) == Rejected
    ensures Evaluate(w, Some(w), LocalTime(10, 0, 0, 0), distanceKm) == Rejected
  {
  }
}
