/** The meeting handlers: creation from a date and a time text, the public
    list with its filters and limit, and the signed-in list that tells the
    member which meetings they have already marked. */
module Meetings {
  import opened Common
  import opened Text
  import opened DateTime
  import opened Listing
  import opened UserModel
  import opened MeetingModel
  import opened AttendanceModel

  /** What every stored meeting satisfies: the schema holds and `startsAt`
      is the parse of the stored date and time texts. */
  predicate Consistent(m: Meeting) {
    var when := ParseDateTime(m.dateString, m.timeString);
    && WellFormed(m)
    && when.Some? && InRange(when.value) && m.startsAt == StartInstant(when.value)
  }

  /** The body of a create request. The geofence fields are present only
      when they were sent as numbers. */
  datatype MeetingRequest = MeetingRequest(
    title: Option<string>,
    meetingType: Option<string>,
    description: Option<string>,
    location: Option<string>,
    date: Option<string>,
    time: Option<string>,
    createdBy: Option<string>,
    locationLat: Option<real>,
    locationLng: Option<real>,
    radiusMeters: Option<real>)

  /** The checks of the create handler itself, before the schema sees the
      record. */
  predicate CreateAccepted(q: MeetingRequest) {
    && Truthy(q.title) && Truthy(q.location) && Truthy(q.date) && Truthy(q.time)
    && ParseDateTime(q.date.value, q.time.value).Some?
  }

  /** A meeting type of the enum, or `general`. */
  function TypeOrGeneral(t: Option<string>): (r: MeetingType)
    ensures t.Some? && TypeOfText(t.value).Some? ==> r == TypeOfText(t.value).value
    ensures t.None? || TypeOfText(t.value).None? ==> r == General
  {
    if t.Some? && TypeOfText(t.value).Some? then TypeOfText(t.value).value else General
  }

  /** `createMeeting`: no sign-in is needed. A title or location of white
      space only passes the handler and fails the schema (500). */
  function CreateMeeting(q: MeetingRequest, newId: Id): (r: Result<Meeting>)
    ensures r.Ok? <==> CreateAccepted(q) && !Blank(q.title.value) && !Blank(q.location.value)
    ensures r == Err(Internal) <==> CreateAccepted(q) && (Blank(q.title.value) || Blank(q.location.value))
    ensures r.Err? && r != Err(Internal) ==> r == Err(BadRequest)
    ensures r.Ok? ==>
      && r.value.id == newId && r.value.status == Scheduled
      && r.value.meetingType == TypeOrGeneral(q.meetingType)
      && r.value.title == Trim(q.title.value) && r.value.location == Trim(q.location.value)
      && r.value.dateString == Trim(q.date.value) && r.value.timeString == Trim(q.time.value)
      && r.value.startsAt == StartInstant(ParseDateTime(q.date.value, q.time.value).value)
      && r.value.locationLat == q.locationLat && r.value.locationLng == q.locationLng
      && r.value.radiusMeters == q.radiusMeters
      && (r.value.createdBy.Some? <==> Truthy(q.createdBy))
      && (Truthy(q.createdBy) ==> r.value.createdBy == q.createdBy)
      && r.value.description == TrimmedIfTruthy(q.description)
  {
    if !(Truthy(q.title) && Truthy(q.location) && Truthy(q.date) && Truthy(q.time)) then Err(BadRequest)
    else
      var when := ParseDateTime(q.date.value, q.time.value);
      if when.None? then Err(BadRequest)
      else if Blank(q.title.value) || Blank(q.location.value) then Err(Internal)
      else
        ParsedInRange(q.date.value, q.time.value);
        Ok(Meeting(
          id := newId,
          title := Trim(q.title.value),
          meetingType := TypeOrGeneral(q.meetingType),
          description := TrimmedIfTruthy(q.description),
          location := Trim(q.location.value),
          startsAt := StartInstant(when.value),
          dateString := Trim(q.date.value),
          timeString := Trim(q.time.value),
          status := Scheduled,
          createdBy := if Truthy(q.createdBy) then q.createdBy else None,
          locationLat := q.locationLat,
          locationLng := q.locationLng,
          radiusMeters := q.radiusMeters))
  }

  /** A well-formed meeting that stores the trimmed texts of a date and a
      time that parse, and their start instant, is consistent. */
  lemma StoresParsedTexts(m: Meeting, date: string, time: string)
    requires WellFormed(m) && m.dateString == Trim(date) && m.timeString == Trim(time)
    requires ParseDateTime(date, time).Some? && m.startsAt == StartInstant(ParseDateTime(date, time).value)
    ensures Consistent(m)
  {
    ParseTrimmed(date, time);
    ParsedInRange(date, time);
  }

  /** A created meeting is consistent: its `startsAt` is the parse of the
      trimmed texts it stores. */
  lemma {:induction false} CreatedMeetingConsistent(q: MeetingRequest, newId: Id)
    ensures CreateMeeting(q, newId).Ok? ==> Consistent(CreateMeeting(q, newId).value)
  {
    var r := CreateMeeting(q, newId);
    if r.Ok? {
      StoresParsedTexts(r.value, q.date.value, q.time.value);
    }
  }

  /** The find filter of the list endpoints. */
  datatype MeetingFilter = MeetingFilter(
    status: Option<MeetingStatus>,
    meetingType: Option<MeetingType>,
    from: Option<Instant>)

  predicate Matches(f: MeetingFilter, m: Meeting) {
    && (f.status.Some? ==> m.status == f.status.value)
    && (f.meetingType.Some? ==> m.meetingType == f.meetingType.value)
    && (f.from.Some? ==> m.startsAt >= f.from.value)
  }

  /** The `status` and `type` queries: each is a filter only when it names
      a value of its enum. */
  function EnumFilter(status: Option<string>, meetingType: Option<string>): (f: MeetingFilter)
    ensures f.status.Some? ==> status == Some(MeetingModel.StatusText(f.status.value))
    ensures f.meetingType.Some? ==> meetingType == Some(TypeText(f.meetingType.value))
    ensures status.Some? && MeetingModel.StatusOfText(status.value).Some? ==> f.status.Some?
    ensures meetingType.Some? && TypeOfText(meetingType.value).Some? ==> f.meetingType.Some?
    ensures f.from.None?
  {
    MeetingFilter(
      if status.Some? then MeetingModel.StatusOfText(status.value) else None,
      if meetingType.Some? then TypeOfText(meetingType.value) else None,
      None)
  }

  datatype MeetingQuery = MeetingQuery(
    status: Option<string>,
    meetingType: Option<string>,
    upcoming: Option<string>,
    limit: Option<int>)

  /** `String(upcoming).toLowerCase() === 'true'` */
  predicate Upcoming(q: MeetingQuery) {
    q.upcoming.Some? && ToLower(q.upcoming.value) == "true"
  }

  /** The filter of `listMeetings`: `upcoming` overrides the status filter
      with `scheduled` and adds `startsAt >= now`. */
  function ListFilter(q: MeetingQuery, now: Instant): (f: MeetingFilter)
    ensures Upcoming(q) ==> f.status == Some(Scheduled) && f.from == Some(now)
    ensures !Upcoming(q) ==> f == EnumFilter(q.status, q.meetingType)
    ensures f.meetingType == EnumFilter(q.status, q.meetingType).meetingType
  {
    var f := EnumFilter(q.status, q.meetingType);
    if Upcoming(q) then f.(status := Some(Scheduled), from := Some(now)) else f
  }

  /** The meetings matching `f`, earliest first, cut to `n`: the query both
      list handlers run. */
  function FilteredAsc(f: MeetingFilter, all: seq<Meeting>, n: nat): (r: seq<Meeting>)
    ensures |r| <= n
    ensures SortedAsc(r, (m: Meeting) => m.startsAt)
    ensures forall m | m in r :: m in all && Matches(f, m)
    ensures |r| < n ==> forall m | m in all && Matches(f, m) :: m in r
    ensures forall x, y | x in all && Matches(f, x) && x !in r && y in r :: y.startsAt <= x.startsAt
    ensures multiset(r) <= multiset(all)
    ensures |r| < n ==> forall x | x in all && Matches(f, x) :: multiset(r)[x] == multiset(all)[x]
  {
    var p := (m: Meeting) => Matches(f, m);
    assert forall m :: p(m) == Matches(f, m);
    QueryAsc(all, p, (m: Meeting) => m.startsAt, n)
  }

  const DefaultLimit: nat := 10
  const MaxLimit: nat := 100

  /** `listMeetings`: the matching meetings, earliest first, cut to the
      clamped limit. */
  function ListMeetings(q: MeetingQuery, all: seq<Meeting>, now: Instant): (r: seq<Meeting>)
    ensures |r| <= ClampLimit(q.limit, DefaultLimit, MaxLimit) <= MaxLimit
    ensures SortedAsc(r, (m: Meeting) => m.startsAt)
    ensures forall m | m in r :: m in all && Matches(ListFilter(q, now), m)
    ensures |r| < ClampLimit(q.limit, DefaultLimit, MaxLimit) ==>
              forall m | m in all && Matches(ListFilter(q, now), m) :: m in r
    ensures forall x, y | x in all && Matches(ListFilter(q, now), x) && x !in r && y in r :: y.startsAt <= x.startsAt
    ensures multiset(r) <= multiset(all)
    ensures |r| < ClampLimit(q.limit, DefaultLimit, MaxLimit) ==>
              forall x | x in all && Matches(ListFilter(q, now), x) :: multiset(r)[x] == multiset(all)[x]
  {
    FilteredAsc(ListFilter(q, now), all, ClampLimit(q.limit, DefaultLimit, MaxLimit))
  }

  /** With `upcoming=true` the `status` query makes no difference. */
  lemma UpcomingOverridesStatus(q: MeetingQuery, status: Option<string>, all: seq<Meeting>, now: Instant)
    requires Upcoming(q)
    ensures ListMeetings(q.(status := status), all, now) == ListMeetings(q, all, now)
  {
    assert ListFilter(q.(status := status), now) == ListFilter(q, now);
  }

  /** A status or type outside its enum is the same as none at all. */
  lemma UnknownFiltersIgnored(q: MeetingQuery, status: string, meetingType: string, all: seq<Meeting>, now: Instant)
    requires MeetingModel.StatusOfText(status).None? && TypeOfText(meetingType).None?
    ensures ListMeetings(q.(status := Some(status), meetingType := Some(meetingType)), all, now)
            == ListMeetings(q.(status := None, meetingType := None), all, now)
  {
    assert ListFilter(q.(status := Some(status), meetingType := Some(meetingType)), now)
           == ListFilter(q.(status := None, meetingType := None), now);
  }

  const StatusListLimit: nat := 200

  /** The meetings `listMeetingsWithUserStatus` enriches: those matching the
      filter built from the enum queries, earliest first, at most 200. */
  function StatusListItems(f: MeetingFilter, all: seq<Meeting>): (r: seq<Meeting>)
    ensures |r| <= StatusListLimit
    ensures SortedAsc(r, (m: Meeting) => m.startsAt)
    ensures forall m | m in r :: m in all && Matches(f, m)
    ensures |r| < StatusListLimit ==> forall m | m in all && Matches(f, m) :: m in r
    ensures forall x, y | x in all && Matches(f, x) && x !in r && y in r :: y.startsAt <= x.startsAt
    ensures multiset(r) <= multiset(all)
    ensures |r| < StatusListLimit ==> forall x | x in all && Matches(f, x) :: multiset(r)[x] == multiset(all)[x]
  {
    FilteredAsc(f, all, StatusListLimit)
  }

  /** The `markedAt` the enrichment reports for a meeting: the one of the
      last of the member's marks for it in collection order, since each
      later mark overwrites the entry of the earlier one. */
  function LastMark(marks: seq<Attendance>, meetingId: Id, userId: Id): (r: Option<Instant>)
    ensures r.Some? <==> exists a | a in marks :: a.meetingId == meetingId && a.userId == userId
    ensures r.Some? ==> exists a | a in marks :: a.meetingId == meetingId && a.userId == userId && a.markedAt == r.value
  {
    if marks == [] then None
    else
      var last := marks[|marks| - 1];
      var init := marks[..|marks| - 1];
      assert marks == init + [last];
      if last.meetingId == meetingId && last.userId == userId then Some(last.markedAt)
      else LastMark(init, meetingId, userId)
  }

  /** Under the unique index there is one mark per meeting and member, and
      `markedAt` is its time. */
  lemma LastMarkOfUnique(marks: seq<Attendance>, i: nat)
    requires i < |marks|
    requires forall j, k | 0 <= j < k < |marks| :: KeyOf(marks[j]) != KeyOf(marks[k])
    ensures LastMark(marks, marks[i].meetingId, marks[i].userId) == Some(marks[i].markedAt)
  {
    var r := LastMark(marks, marks[i].meetingId, marks[i].userId);
    var a :| a in marks && a.meetingId == marks[i].meetingId && a.userId == marks[i].userId && a.markedAt == r.value;
    var j :| 0 <= j < |marks| && marks[j] == a;
    assert KeyOf(marks[j]) == KeyOf(marks[i]);
  }

  /** One meeting of the enriched list. */
  datatype MarkedMeeting = MarkedMeeting(meeting: Meeting, hasMarked: bool, markedAt: Option<Instant>)

  /** The `forEach` over the member's marks for the listed meetings: each
      mark sets the entry of its meeting, so the last one wins. */
  method GatherMarks(attendance: seq<Attendance>, meetingIds: set<Id>, userId: Id) returns (seen: map<Id, Instant>)
    ensures forall k | k in meetingIds :: LastMark(attendance, k, userId) == (if k in seen then Some(seen[k]) else None)
  {
    seen := map[];
    var i := 0;
    while i < |attendance|
      invariant i <= |attendance|
      invariant forall k | k in meetingIds ::
                  LastMark(attendance[..i], k, userId) == (if k in seen then Some(seen[k]) else None)
    {
      var a := attendance[i];
      if a.meetingId in meetingIds && a.userId == userId {
        seen := seen[a.meetingId := a.markedAt];
      }
      assert attendance[..i + 1][..i] == attendance[..i];
      i := i + 1;
    }
    assert attendance[..i] == attendance;
  }

  /** The `map` over the listed meetings: each is paired with its entry in
      the gathered marks, if any. */
  method Enrich(items: seq<Meeting>, seen: map<Id, Instant>, attendance: seq<Attendance>, userId: Id)
    returns (enriched: seq<MarkedMeeting>)
    requires forall m | m in items :: LastMark(attendance, m.id, userId) == (if m.id in seen then Some(seen[m.id]) else None)
    ensures |enriched| == |items|
    ensures forall t | 0 <= t < |items| ::
              && enriched[t].meeting == items[t]
              && enriched[t].markedAt == LastMark(attendance, items[t].id, userId)
              && (enriched[t].hasMarked <==> exists a | a in attendance :: a.meetingId == items[t].id && a.userId == userId)
  {
    enriched := [];
    var j := 0;
    while j < |items|
      invariant j <= |items| && |enriched| == j
      invariant forall t | 0 <= t < j ::
                  && enriched[t].meeting == items[t]
                  && enriched[t].markedAt == LastMark(attendance, items[t].id, userId)
                  && (enriched[t].hasMarked <==> enriched[t].markedAt.Some?)
    {
      var m := items[j];
      var info := if m.id in seen then Some(seen[m.id]) else None;
      enriched := enriched + [MarkedMeeting(m, info.Some?, info)];
      j := j + 1;
    }
  }

  /** `listMeetingsWithUserStatus`. The marks of the member for the listed
      meetings are gathered into a map in collection order, then each
      listed meeting is looked up in it. */
  method ListMeetingsWithUserStatus(caller: Option<string>, status: Option<string>, meetingType: Option<string>,
                                    all: seq<Meeting>, users: map<string, User>, attendance: seq<Attendance>)
    returns (r: Result<seq<MarkedMeeting>>)
    ensures !SignedIn(caller) ==> r == Err(Unauthenticated)
    ensures r.Ok? <==> SignedIn(caller) && caller.value in users
    ensures SignedIn(caller) && caller.value !in users ==> r == Err(NotFound)
    ensures r.Ok? ==>
      var items := StatusListItems(EnumFilter(status, meetingType), all);
      var userId := users[caller.value].id;
      && |r.value| == |items|
      && forall t | 0 <= t < |items| ::
           && r.value[t].meeting == items[t]
           && (r.value[t].hasMarked <==>
                 exists a | a in attendance :: a.meetingId == items[t].id && a.userId == userId)
           && r.value[t].markedAt == LastMark(attendance, items[t].id, userId)
  {
    if !SignedIn(caller) { return Err(Unauthenticated); }
    var items := StatusListItems(EnumFilter(status, meetingType), all);
    if caller.value !in users { return Err(NotFound); }
    var userId := users[caller.value].id;
    var meetingIds := set m | m in items :: m.id;
    var seen := GatherMarks(attendance, meetingIds, userId);
    var enriched := Enrich(items, seen, attendance, userId);
    r := Ok(enriched);
  }
}
