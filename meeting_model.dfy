/** The `meetings` collection: a chapter meeting with a type, a start time
    and an optional geofence for attendance. */
module MeetingModel {
  import opened Common
  import opened Text

  datatype MeetingType = General | Special | Training

  datatype MeetingStatus = Scheduled | Completed | Cancelled

  datatype Meeting = Meeting(
    id: Id,
    title: string,
    meetingType: MeetingType,
    description: Option<string>,
    location: string,
    startsAt: Instant,
    dateString: string,
    timeString: string,
    status: MeetingStatus,
    createdBy: Option<string>,
    locationLat: Option<real>,
    locationLng: Option<real>,
    radiusMeters: Option<real>)

  function TypeText(t: MeetingType): string {
    match t
    case General => "general"
    case Special => "special"
    case Training => "training"
  }

  /** The type enum read from text; anything outside it is None. */
  function TypeOfText(s: string): (r: Option<MeetingType>)
    ensures r.Some? ==> TypeText(r.value) == s
  {
    if s == "general" then Some(General)
    else if s == "special" then Some(Special)
    else if s == "training" then Some(Training)
    else None
  }

  function StatusText(s: MeetingStatus): string {
    match s
    case Scheduled => "scheduled"
    case Completed => "completed"
    case Cancelled => "cancelled"
  }

  /** The status enum read from text; anything outside it is None. */
  function StatusOfText(s: string): (r: Option<MeetingStatus>)
    ensures r.Some? ==> StatusText(r.value) == s
  {
    if s == "scheduled" then Some(Scheduled)
    else if s == "completed" then Some(Completed)
    else if s == "cancelled" then Some(Cancelled)
    else None
  }

  lemma EnumTextsRoundTrip(t: MeetingType, s: MeetingStatus)
    ensures TypeOfText(TypeText(t)) == Some(t)
    ensures StatusOfText(StatusText(s)) == Some(s)
  {
  }

  /** What the schema accepts on save. */
  predicate WellFormed(m: Meeting) {
    && m.title != "" && Tight(m.title)
    && m.location != "" && Tight(m.location)
    && m.dateString != "" && m.timeString != ""
    && (m.description.Some? ==> Tight(m.description.value))
  }

  /** Attendance is geofenced only when all three fields are numbers. */
  predicate HasGeofence(m: Meeting) {
    m.locationLat.Some? && m.locationLng.Some? && m.radiusMeters.Some?
  }
}
