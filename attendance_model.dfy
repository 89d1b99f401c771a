/** The `attendances` collection: one mark per member per meeting, which the
    unique index on `(meetingId, userId)` enforces. */
module AttendanceModel {
  import opened Common

  datatype AttendanceStatus = Present | Absent | Late | Excused

  /** Where the member was when marking; both coordinates are required. */
  datatype GeoPoint = GeoPoint(lat: real, lng: real, address: Option<string>)

  datatype Attendance = Attendance(
    meetingId: Id,
    userId: Id,
    markedBy: string,
    status: AttendanceStatus,
    markedAt: Instant,
    location: Option<GeoPoint>)

  function StatusText(s: AttendanceStatus): string {
    match s
    case Present => "present"
    case Absent => "absent"
    case Late => "late"
    case Excused => "excused"
  }

  /** The status enum read from text; anything outside it is None. */
  function StatusOfText(t: string): (r: Option<AttendanceStatus>)
    ensures r.Some? ==> StatusText(r.value) == t
  {
    if t == "present" then Some(Present)
    else if t == "absent" then Some(Absent)
    else if t == "late" then Some(Late)
    else if t == "excused" then Some(Excused)
    else None
  }

  lemma StatusTextRoundTrip(s: AttendanceStatus)
    ensures StatusOfText(StatusText(s)) == Some(s)
  {
  }

  /** The key of the unique index. */
  function KeyOf(a: Attendance): (Id, Id) {
    (a.meetingId, a.userId)
  }

  /** The collection as a map from the unique key to the one mark holding
      it. */
  predicate KeyedByPair(marks: map<(Id, Id), Attendance>) {
    forall k | k in marks :: KeyOf(marks[k]) == k
  }
}
