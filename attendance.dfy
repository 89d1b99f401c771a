/** `markAttendance`: a member marks their own attendance of a meeting,
    inside the meeting's geofence when it has one, at most once. */
module AttendanceController {
  import opened Common
  import opened UserModel
  import opened MeetingModel
  import opened AttendanceModel

  /** The `location` object of the body; a coordinate is present only when
      it was sent as a number. */
  datatype LocationInput = LocationInput(lat: Option<real>, lng: Option<real>, address: Option<string>)

  /** The body of a mark. `timestamp` is the instant of a truthy timestamp
      field and is absent otherwise. */
  datatype MarkRequest = MarkRequest(
    status: Option<string>,
    timestamp: Option<Instant>,
    location: Option<LocationInput>)

  /** Distance in metres between two (latitude, longitude) points. */
  type Distance = (real, real, real, real) -> real

  predicate HasCoordinates(loc: Option<LocationInput>) {
    loc.Some? && loc.value.lat.Some? && loc.value.lng.Some?
  }

  /** The status to store: the requested one when it is of the enum,
      `present` otherwise. */
  function StatusOrPresent(s: Option<string>): (st: AttendanceStatus)
    ensures s.Some? && AttendanceModel.StatusOfText(s.value).Some? ==> AttendanceModel.StatusText(st) == s.value
    ensures s.None? || AttendanceModel.StatusOfText(s.value).None? ==> st == Present
  {
    if s.Some? && AttendanceModel.StatusOfText(s.value).Some? then AttendanceModel.StatusOfText(s.value).value
    else Present
  }

  /** The location to store: only a location with both coordinates. */
  function PointOf(loc: Option<LocationInput>): (p: Option<GeoPoint>)
    ensures p.Some? <==> HasCoordinates(loc)
    ensures p.Some? ==> p.value == GeoPoint(loc.value.lat.value, loc.value.lng.value, loc.value.address)
  {
    if HasCoordinates(loc) then Some(GeoPoint(loc.value.lat.value, loc.value.lng.value, loc.value.address))
    else None
  }

  /** The geofence gate: no geofence admits everything; a geofence needs
      both coordinates (400) and a distance of at most the radius (403 with
      the distance and the radius). */
  function Geofence(m: Meeting, loc: Option<LocationInput>, dist: Distance): (r: Option<Failure>)
    ensures !HasGeofence(m) ==> r.None?
    ensures HasGeofence(m) && !HasCoordinates(loc) ==> r == Some(BadRequest)
    ensures HasGeofence(m) && HasCoordinates(loc) ==>
      var d := dist(m.locationLat.value, m.locationLng.value, loc.value.lat.value, loc.value.lng.value);
      (r.None? <==> d <= m.radiusMeters.value)
      && (r.Some? ==> r.value == OutsideRadius(d, m.radiusMeters.value))
  {
    if !HasGeofence(m) then None
    else if !HasCoordinates(loc) then Some(BadRequest)
    else
      var d := dist(m.locationLat.value, m.locationLng.value, loc.value.lat.value, loc.value.lng.value);
      if d > m.radiusMeters.value then Some(OutsideRadius(d, m.radiusMeters.value)) else None
  }

  /** The checks before the geofence: a well-formed id, a signed-in caller,
      an existing meeting and a registered member. */
  predicate Reaches(meetingId: Id, isValidId: Id -> bool, caller: Option<string>,
                    meetings: map<Id, Meeting>, users: map<string, User>) {
    isValidId(meetingId) && SignedIn(caller) && meetingId in meetings && caller.value in users
  }

  /** `markAttendance` against the meetings, the users and the attendance
      collection keyed by `(meetingId, userId)`. */
  function Mark(meetingId: Id, isValidId: Id -> bool, caller: Option<string>, q: MarkRequest,
                meetings: map<Id, Meeting>, users: map<string, User>, marks: map<(Id, Id), Attendance>,
                dist: Distance, now: Instant): (r: Result<Attendance>)
    ensures !isValidId(meetingId) ==> r == Err(BadRequest)
    ensures isValidId(meetingId) && !SignedIn(caller) ==> r == Err(Unauthenticated)
    ensures isValidId(meetingId) && SignedIn(caller) && (meetingId !in meetings || caller.value !in users)
            ==> r == Err(NotFound)
    ensures r.Ok? <==> Reaches(meetingId, isValidId, caller, meetings, users)
                       && Geofence(meetings[meetingId], q.location, dist).None?
                       && (meetingId, users[caller.value].id) !in marks
    ensures Reaches(meetingId, isValidId, caller, meetings, users)
            && Geofence(meetings[meetingId], q.location, dist).Some?
            ==> r == Err(Geofence(meetings[meetingId], q.location, dist).value)
    ensures Reaches(meetingId, isValidId, caller, meetings, users)
            && Geofence(meetings[meetingId], q.location, dist).None?
            && (meetingId, users[caller.value].id) in marks
            ==> r == Err(Conflict)
    ensures r.Ok? ==>
      && KeyOf(r.value) == (meetingId, users[caller.value].id)
      && r.value.markedBy == caller.value
      && r.value.status == StatusOrPresent(q.status)
      && r.value.markedAt == (if q.timestamp.Some? then q.timestamp.value else now)
      && r.value.location == PointOf(q.location)
  {
    if !isValidId(meetingId) then Err(BadRequest)
    else if !SignedIn(caller) then Err(Unauthenticated)
    else if meetingId !in meetings then Err(NotFound)
    else if caller.value !in users then Err(NotFound)
    else
      var gate := Geofence(meetings[meetingId], q.location, dist);
      if gate.Some? then Err(gate.value)
      else
        var key := (meetingId, users[caller.value].id);
        if key in marks then Err(Conflict)
        else Ok(Attendance(
          meetingId := meetingId,
          userId := users[caller.value].id,
          markedBy := caller.value,
          status := StatusOrPresent(q.status),
          markedAt := if q.timestamp.Some? then q.timestamp.value else now,
          location := PointOf(q.location)))
  }

  /** A member marks a meeting at most once: once a mark succeeded, every
      later mark of the same member for the same meeting fails, with 409
      when it gets past the geofence. */
  lemma {:induction false} MarkedOnce(meetingId: Id, isValidId: Id -> bool, caller: Option<string>,
                                      q: MarkRequest, q2: MarkRequest, meetings: map<Id, Meeting>,
                                      users: map<string, User>, marks: map<(Id, Id), Attendance>,
                                      dist: Distance, now: Instant, later: Instant)
    requires Mark(meetingId, isValidId, caller, q, meetings, users, marks, dist, now).Ok?
    ensures var a := Mark(meetingId, isValidId, caller, q, meetings, users, marks, dist, now).value;
            var again := Mark(meetingId, isValidId, caller, q2, meetings, users, marks[KeyOf(a) := a], dist, later);
            && again.Err?
            && (Geofence(meetings[meetingId], q2.location, dist).None? ==> again == Err(Conflict))
  {
    var a := Mark(meetingId, isValidId, caller, q, meetings, users, marks, dist, now).value;
    assert KeyOf(a) in marks[KeyOf(a) := a];
  }

  /** A successful mark adds exactly one record under a new key. */
  lemma AddsOneMark(meetingId: Id, isValidId: Id -> bool, caller: Option<string>, q: MarkRequest,
                    meetings: map<Id, Meeting>, users: map<string, User>, marks: map<(Id, Id), Attendance>,
                    dist: Distance, now: Instant)
    requires Mark(meetingId, isValidId, caller, q, meetings, users, marks, dist, now).Ok?
    ensures var a := Mark(meetingId, isValidId, caller, q, meetings, users, marks, dist, now).value;
            KeyOf(a) !in marks && |marks[KeyOf(a) := a]| == |marks| + 1
  {
  }

  /** A point exactly on the boundary of the geofence is inside it. */
  lemma BoundaryIsInside(m: Meeting, loc: Option<LocationInput>, dist: Distance)
    requires HasGeofence(m) && HasCoordinates(loc)
    requires dist(m.locationLat.value, m.locationLng.value, loc.value.lat.value, loc.value.lng.value)
             == m.radiusMeters.value
    ensures Geofence(m, loc, dist).None?
  {
  }

  /** The attendance collection under its unique index. */
  class AttendanceBook {
    var marks: map<(Id, Id), Attendance>

    ghost predicate Valid()
      reads this
    {
      KeyedByPair(marks)
    }

    constructor ()
      ensures marks == map[] && Valid()
    {
      marks := map[];
    }

    /** The insert fails on the unique index when the key is taken; the
        earlier mark is then left as it was. */
    method MarkAttendance(meetingId: Id, isValidId: Id -> bool, caller: Option<string>, q: MarkRequest,
                          meetings: map<Id, Meeting>, users: map<string, User>, dist: Distance, now: Instant)
      returns (r: Result<Attendance>)
      modifies this
      ensures r == Mark(meetingId, isValidId, caller, q, meetings, users, old(marks), dist, now)
      ensures marks == if r.Ok? then old(marks)[KeyOf(r.value) := r.value] else old(marks)
      ensures r.Ok? ==> |marks| == |old(marks)| + 1
      ensures old(Valid()) ==> Valid()
    {
      if !isValidId(meetingId) { return Err(BadRequest); }
      if !SignedIn(caller) { return Err(Unauthenticated); }
      if meetingId !in meetings { return Err(NotFound); }
      var meeting := meetings[meetingId];
      if caller.value !in users { return Err(NotFound); }
      var user := users[caller.value];
      if HasGeofence(meeting) {
        if !HasCoordinates(q.location) { return Err(BadRequest); }
        var loc := q.location.value;
        var distance := dist(meeting.locationLat.value, meeting.locationLng.value, loc.lat.value, loc.lng.value);
        if distance > meeting.radiusMeters.value {
          return Err(OutsideRadius(distance, meeting.radiusMeters.value));
        }
      }
      var doc := Attendance(meetingId, user.id, caller.value, StatusOrPresent(q.status),
                            if q.timestamp.Some? then q.timestamp.value else now, PointOf(q.location));
      if (meetingId, user.id) in marks { return Err(Conflict); }
      marks := marks[(meetingId, user.id) := doc];
      r := Ok(doc);
    }
  }
}
