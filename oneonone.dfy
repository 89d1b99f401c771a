/** The one-on-one handlers: a request is created `pending`, approved by the
    requested member into `scheduled`, and completed by the requester with a
    proof photo once its start time has passed. Either party may propose a
    reschedule, which the other party accepts or rejects. */
module OneOnOneController {
  import opened Common
  import opened Text
  import opened DateTime
  import opened Listing
  import opened OneOnOneModel

  /** What every stored one-on-one satisfies between requests: the schema
      holds, `startsAt` is the parse of the stored date and time texts, a
      proposal comes from one of the two parties, and a completed one-on-one
      carries its proof and completion time. */
  predicate Consistent(d: OneOnOne) {
    var when := ParseDateTime(d.dateString, d.timeString);
    && WellFormed(d)
    && when.Some? && InRange(when.value) && d.startsAt == StartInstant(when.value)
    && (d.proposal.Some? ==> IsParty(d, d.proposal.value.proposedByUid))
    && (d.proposal.Some? && d.proposal.value.location.Some? ==> Tight(d.proposal.value.location.value))
    && (d.status == Completed ==> d.completedAt.Some? && d.proofPhotoUrl.Some?)
  }

  /** The body of a create request; each field may be absent. */
  datatype CreateRequest = CreateRequest(
    title: Option<string>,
    description: Option<string>,
    location: Option<string>,
    date: Option<string>,
    time: Option<string>,
    requestedUid: Option<string>)

  /** The checks of the create handler itself, before the schema sees the
      record. */
  predicate CreateAccepted(caller: Option<string>, q: CreateRequest) {
    && SignedIn(caller)
    && Truthy(q.title) && Truthy(q.location) && Truthy(q.date) && Truthy(q.time) && Truthy(q.requestedUid)
    && !Blank(q.requestedUid.value)
    && ParseDateTime(q.date.value, q.time.value).Some?
  }

  /** `createOneOnOne`. A title or location of white space only passes the
      handler, is trimmed to "" by the schema and fails `required` (500). */
  function Create(caller: Option<string>, q: CreateRequest): (r: Result<OneOnOne>)
    ensures !SignedIn(caller) ==> r == Err(Unauthenticated)
    ensures r.Ok? <==> CreateAccepted(caller, q) && !Blank(q.title.value) && !Blank(q.location.value)
    ensures r == Err(Internal) <==> CreateAccepted(caller, q) && (Blank(q.title.value) || Blank(q.location.value))
    ensures SignedIn(caller) && r.Err? && r != Err(Internal) ==> r == Err(BadRequest)
    ensures r.Ok? ==>
      && r.value.status == Pending
      && r.value.requesterUid == caller.value && r.value.createdBy == caller
      && r.value.requestedUid == Trim(q.requestedUid.value)
      && r.value.title == Trim(q.title.value) && r.value.location == Trim(q.location.value)
      && r.value.description == TrimmedIfTruthy(q.description)
      && r.value.dateString == Trim(q.date.value) && r.value.timeString == Trim(q.time.value)
      && r.value.startsAt == StartInstant(ParseDateTime(q.date.value, q.time.value).value)
      && r.value.proposal.None? && r.value.lastActionAt.None?
      && r.value.proofPhotoUrl.None? && r.value.completedAt.None?
  {
    if !SignedIn(caller) then Err(Unauthenticated)
    else if !(Truthy(q.title) && Truthy(q.location) && Truthy(q.date) && Truthy(q.time) && Truthy(q.requestedUid)) then
      Err(BadRequest)
    else if Blank(q.requestedUid.value) then Err(BadRequest)
    else
      var when := ParseDateTime(q.date.value, q.time.value);
      if when.None? then Err(BadRequest)
      else if Blank(q.title.value) || Blank(q.location.value) then Err(Internal)
      else
        ParsedInRange(q.date.value, q.time.value);
        Ok(OneOnOne(
          title := Trim(q.title.value),
          description := if Truthy(q.description) then Some(Trim(q.description.value)) else None,
          location := Trim(q.location.value),
          startsAt := StartInstant(when.value),
          dateString := Trim(q.date.value),
          timeString := Trim(q.time.value),
          status := Pending,
          requesterUid := caller.value,
          requestedUid := Trim(q.requestedUid.value),
          createdBy := caller,
          proposal := None,
          lastActionAt := None,
          proofPhotoUrl := None,
          completedAt := None))
  }

  /** A created one-on-one is consistent: in particular its `startsAt` is the
      parse of the trimmed texts it stores. */
  lemma {:induction false} CreatedConsistent(caller: Option<string>, q: CreateRequest)
    ensures Create(caller, q).Ok? ==> Consistent(Create(caller, q).value)
  {
    if Create(caller, q).Ok? {
      ParseTrimmed(q.date.value, q.time.value);
      ParsedInRange(q.date.value, q.time.value);
    }
  }

  /** `approveOneOnOne`: the status is checked before the caller, and only
      the status changes. */
  function Approve(caller: Option<string>, id: Id, docs: map<Id, OneOnOne>): (r: Result<OneOnOne>)
    ensures r.Ok? <==> SignedIn(caller) && id != "" && id in docs
                       && docs[id].status == Pending && docs[id].requestedUid == caller.value
    ensures !SignedIn(caller) ==> r == Err(Unauthenticated)
    ensures SignedIn(caller) && id == "" ==> r == Err(BadRequest)
    ensures SignedIn(caller) && id != "" && id !in docs ==> r == Err(NotFound)
    ensures SignedIn(caller) && id != "" && id in docs && docs[id].status != Pending ==> r == Err(BadRequest)
    ensures SignedIn(caller) && id != "" && id in docs && docs[id].status == Pending
            && docs[id].requestedUid != caller.value
            ==> r == Err(Forbidden)
    ensures r.Ok? ==> r.value.status == Scheduled && r.value.(status := docs[id].status) == docs[id]
  {
    if !SignedIn(caller) then Err(Unauthenticated)
    else if id == "" then Err(BadRequest)
    else if id !in docs then Err(NotFound)
    else if docs[id].status != Pending then Err(BadRequest)
    else if docs[id].requestedUid != caller.value then Err(Forbidden)
    else Ok(docs[id].(status := Scheduled))
  }

  datatype RescheduleRequest = RescheduleRequest(
    date: Option<string>,
    time: Option<string>,
    location: Option<string>,
    note: Option<string>)

  /** `requestReschedule`: a fresh pending proposal replaces any earlier one;
      the one-on-one itself, its status included, is left as it was. */
  function Reschedule(caller: Option<string>, id: Id, q: RescheduleRequest, docs: map<Id, OneOnOne>, now: Instant)
    : (r: Result<OneOnOne>)
    ensures r.Ok? <==> SignedIn(caller) && id != "" && (Truthy(q.date) || Truthy(q.time) || Truthy(q.location))
                       && id in docs && IsParty(docs[id], caller.value)
    ensures !SignedIn(caller) ==> r == Err(Unauthenticated)
    ensures SignedIn(caller) && (id == "" || (!Truthy(q.date) && !Truthy(q.time) && !Truthy(q.location)))
            ==> r == Err(BadRequest)
    ensures SignedIn(caller) && id != "" && (Truthy(q.date) || Truthy(q.time) || Truthy(q.location))
            && id !in docs
            ==> r == Err(NotFound)
    ensures SignedIn(caller) && id != "" && (Truthy(q.date) || Truthy(q.time) || Truthy(q.location))
            && id in docs && !IsParty(docs[id], caller.value)
            ==> r == Err(Forbidden)
    ensures r.Ok? ==>
      && r.value.(proposal := docs[id].proposal, lastActionAt := docs[id].lastActionAt) == docs[id]
      && r.value.lastActionAt == Some(now)
      && r.value.proposal == Some(Proposal(TrimmedIfTruthy(q.date), TrimmedIfTruthy(q.time),
                                           TrimmedIfTruthy(q.location), caller.value, now,
                                           ProposalPending, TrimmedIfTruthy(q.note)))
  {
    if !SignedIn(caller) then Err(Unauthenticated)
    else if id == "" then Err(BadRequest)
    else if !Truthy(q.date) && !Truthy(q.time) && !Truthy(q.location) then Err(BadRequest)
    else if id !in docs then Err(NotFound)
    else if !IsParty(docs[id], caller.value) then Err(Forbidden)
    else
      var p := Proposal(TrimmedIfTruthy(q.date), TrimmedIfTruthy(q.time), TrimmedIfTruthy(q.location),
                        caller.value, now, ProposalPending, TrimmedIfTruthy(q.note));
      Ok(docs[id].(proposal := Some(p), lastActionAt := Some(now)))
  }

  /** `a || b` on an optional string: the proposed value when it is present
      and non-empty, the current one otherwise. */
  function OrCurrent(proposed: Option<string>, current: string): (r: string)
    ensures Truthy(proposed) ==> r == proposed.value
    ensures !Truthy(proposed) ==> r == current
  {
    if Truthy(proposed) then proposed.value else current
  }

  function NextDate(d: OneOnOne): string
    requires d.proposal.Some?
  {
    OrCurrent(d.proposal.value.dateString, d.dateString)
  }

  function NextTime(d: OneOnOne): string
    requires d.proposal.Some?
  {
    OrCurrent(d.proposal.value.timeString, d.timeString)
  }

  function NextLocation(d: OneOnOne): string
    requires d.proposal.Some?
  {
    OrCurrent(d.proposal.value.location, d.location)
  }

  /** The checks shared by accept and reject: a pending proposal exists and
      the caller is its counterparty. */
  function Answerable(caller: Option<string>, id: Id, docs: map<Id, OneOnOne>): (r: Result<OneOnOne>)
    ensures r.Ok? <==> SignedIn(caller) && id != "" && id in docs && HasPendingProposal(docs[id])
                       && caller.value == Counterparty(docs[id])
    ensures r.Ok? ==> r.value == docs[id]
    ensures !SignedIn(caller) ==> r == Err(Unauthenticated)
    ensures SignedIn(caller) && id == "" ==> r == Err(BadRequest)
    ensures SignedIn(caller) && id != "" && id !in docs ==> r == Err(NotFound)
    ensures SignedIn(caller) && id != "" && id in docs && !HasPendingProposal(docs[id]) ==> r == Err(BadRequest)
    ensures SignedIn(caller) && id != "" && id in docs && HasPendingProposal(docs[id])
            && caller.value != Counterparty(docs[id])
            ==> r == Err(Forbidden)
  {
    if !SignedIn(caller) then Err(Unauthenticated)
    else if id == "" then Err(BadRequest)
    else if id !in docs then Err(NotFound)
    else if !HasPendingProposal(docs[id]) then Err(BadRequest)
    else if caller.value != Counterparty(docs[id]) then Err(Forbidden)
    else Ok(docs[id])
  }

  /** `acceptReschedule`: the proposed date, time and location replace the
      current ones where given, the start instant is recomputed, and the
      one-on-one becomes `scheduled` whatever its status was. */
  function Accept(caller: Option<string>, id: Id, docs: map<Id, OneOnOne>, now: Instant): (r: Result<OneOnOne>)
    ensures r.Ok? <==> Answerable(caller, id, docs).Ok?
                       && ParseDateTime(NextDate(docs[id]), NextTime(docs[id])).Some?
    ensures Answerable(caller, id, docs).Err? ==> r == Answerable(caller, id, docs)
    ensures Answerable(caller, id, docs).Ok? && ParseDateTime(NextDate(docs[id]), NextTime(docs[id])).None?
            ==> r == Err(BadRequest)
    ensures r.Ok? ==>
      var d := docs[id];
      && r.value.dateString == NextDate(d) && r.value.timeString == NextTime(d)
      && r.value.location == NextLocation(d)
      && Some(r.value.startsAt) == StartOf(ParseDateTime(NextDate(d), NextTime(d)))
      && r.value.status == Scheduled
      && r.value.proposal == Some(d.proposal.value.(status := Accepted))
      && r.value.lastActionAt == Some(now)
      && r.value.(dateString := d.dateString, timeString := d.timeString, location := d.location,
                  startsAt := d.startsAt, status := d.status, proposal := d.proposal,
                  lastActionAt := d.lastActionAt) == d
  {
    match Answerable(caller, id, docs)
    case Err(f) => Err(f)
    case Ok(d) =>
      var when := ParseDateTime(NextDate(d), NextTime(d));
      if when.None? then Err(BadRequest)
      else
        ParsedInRange(NextDate(d), NextTime(d));
        Ok(d.(dateString := NextDate(d), timeString := NextTime(d), location := NextLocation(d),
              startsAt := StartInstant(when.value), status := Scheduled,
              proposal := Some(d.proposal.value.(status := Accepted)), lastActionAt := Some(now)))
  }

  /** The start instant of a parsed date-time, or nothing. */
  function StartOf(t: Option<LocalDateTime>): (r: Option<Instant>)
    ensures r.Some? <==> t.Some? && InRange(t.value)
  {
    if t.Some? && InRange(t.value) then Some(StartInstant(t.value)) else None
  }

  /** `rejectReschedule`: only the proposal's status and the last-action time
      change. */
  function Reject(caller: Option<string>, id: Id, docs: map<Id, OneOnOne>, now: Instant): (r: Result<OneOnOne>)
    ensures r.Ok? <==> Answerable(caller, id, docs).Ok?
    ensures r.Err? ==> r == Answerable(caller, id, docs)
    ensures r.Ok? ==>
      && r.value.proposal == Some(docs[id].proposal.value.(status := Rejected))
      && r.value.lastActionAt == Some(now)
      && r.value.(proposal := docs[id].proposal, lastActionAt := docs[id].lastActionAt) == docs[id]
  {
    match Answerable(caller, id, docs)
    case Err(f) => Err(f)
    case Ok(d) => Ok(d.(proposal := Some(d.proposal.value.(status := Rejected)), lastActionAt := Some(now)))
  }

  /** `completeOneOnOne`: only the requester, only a scheduled one-on-one, and
      not before it starts. */
  function Complete(caller: Option<string>, id: Id, proofUrl: Option<string>, docs: map<Id, OneOnOne>, now: Instant)
    : (r: Result<OneOnOne>)
    ensures r.Ok? <==> SignedIn(caller) && id != "" && Truthy(proofUrl) && id in docs
                       && docs[id].requesterUid == caller.value && docs[id].status == Scheduled
                       && docs[id].startsAt <= now
    ensures !SignedIn(caller) ==> r == Err(Unauthenticated)
    ensures SignedIn(caller) && (id == "" || !Truthy(proofUrl)) ==> r == Err(BadRequest)
    ensures SignedIn(caller) && id != "" && Truthy(proofUrl) && id !in docs ==> r == Err(NotFound)
    ensures SignedIn(caller) && id != "" && Truthy(proofUrl) && id in docs && docs[id].requesterUid != caller.value
            ==> r == Err(Forbidden)
    ensures SignedIn(caller) && id != "" && Truthy(proofUrl) && id in docs && docs[id].requesterUid == caller.value
            && (docs[id].status != Scheduled || now < docs[id].startsAt)
            ==> r == Err(BadRequest)
    ensures r.Ok? ==>
      && r.value.status == Completed && r.value.proofPhotoUrl == proofUrl
      && r.value.completedAt == Some(now) && r.value.lastActionAt == Some(now)
      && r.value.startsAt <= r.value.completedAt.value
      && r.value.(status := Scheduled, proofPhotoUrl := docs[id].proofPhotoUrl,
                  completedAt := docs[id].completedAt, lastActionAt := docs[id].lastActionAt) == docs[id]
  {
    if !SignedIn(caller) then Err(Unauthenticated)
    else if id == "" then Err(BadRequest)
    else if !Truthy(proofUrl) then Err(BadRequest)
    else if id !in docs then Err(NotFound)
    else
      var d := docs[id];
      if d.requesterUid != caller.value then Err(Forbidden)
      else if d.status != Scheduled then Err(BadRequest)
      else if now < d.startsAt then Err(BadRequest)
      else Ok(d.(proofPhotoUrl := proofUrl, completedAt := Some(now), status := Completed, lastActionAt := Some(now)))
  }

  /** The `status` query of the list endpoints: a filter only when it names
      a status of the enum. */
  function StatusFilter(q: Option<string>): (f: Option<Status>)
    ensures f.Some? ==> q == Some(StatusText(f.value))
  {
    if q.Some? then StatusOfText(q.value) else None
  }

  predicate Received(uid: string, f: Option<Status>, d: OneOnOne) {
    d.requestedUid == uid && (f.Some? ==> d.status == f.value)
  }

  predicate Sent(uid: string, f: Option<Status>, d: OneOnOne) {
    d.requesterUid == uid && (f.Some? ==> d.status == f.value)
  }

  const ListLimit: nat := 200

  /** `listReceivedRequests`: the caller's incoming one-on-ones, latest start
      first, at most 200. */
  function ListReceived(caller: Option<string>, status: Option<string>, all: seq<OneOnOne>)
    : (r: Result<seq<OneOnOne>>)
    ensures r.Ok? <==> SignedIn(caller)
    ensures r.Ok? ==>
      && |r.value| <= ListLimit
      && SortedDesc(r.value, (d: OneOnOne) => d.startsAt)
      && (forall d | d in r.value :: d in all && Received(caller.value, StatusFilter(status), d))
      && (|r.value| < ListLimit ==> forall d | d in all && Received(caller.value, StatusFilter(status), d) :: d in r.value)
      && (forall x, y | x in all && Received(caller.value, StatusFilter(status), x) && x !in r.value && y in r.value :: y.startsAt >= x.startsAt)
      && multiset(r.value) <= multiset(all)
      && (|r.value| < ListLimit ==> forall x | x in all && Received(caller.value, StatusFilter(status), x) ::
            multiset(r.value)[x] == multiset(all)[x])
  {
    if !SignedIn(caller) then Err(Unauthenticated)
    else
      var f := StatusFilter(status);
      var p := (d: OneOnOne) => Received(caller.value, f, d);
      assert forall d :: p(d) == Received(caller.value, StatusFilter(status), d);
      Ok(QueryDesc(all, p, (d: OneOnOne) => d.startsAt, ListLimit))
  }

  /** `listSentRequests`: the caller's outgoing one-on-ones, latest start
      first, at most 200. */
  function ListSent(caller: Option<string>, status: Option<string>, all: seq<OneOnOne>)
    : (r: Result<seq<OneOnOne>>)
    ensures r.Ok? <==> SignedIn(caller)
    ensures r.Ok? ==>
      && |r.value| <= ListLimit
      && SortedDesc(r.value, (d: OneOnOne) => d.startsAt)
      && (forall d | d in r.value :: d in all && Sent(caller.value, StatusFilter(status), d))
      && (|r.value| < ListLimit ==> forall d | d in all && Sent(caller.value, StatusFilter(status), d) :: d in r.value)
      && (forall x, y | x in all && Sent(caller.value, StatusFilter(status), x) && x !in r.value && y in r.value :: y.startsAt >= x.startsAt)
      && multiset(r.value) <= multiset(all)
      && (|r.value| < ListLimit ==> forall x | x in all && Sent(caller.value, StatusFilter(status), x) ::
            multiset(r.value)[x] == multiset(all)[x])
  {
    if !SignedIn(caller) then Err(Unauthenticated)
    else
      var f := StatusFilter(status);
      var p := (d: OneOnOne) => Sent(caller.value, f, d);
      assert forall d :: p(d) == Sent(caller.value, StatusFilter(status), d);
      Ok(QueryDesc(all, p, (d: OneOnOne) => d.startsAt, ListLimit))
  }

  predicate Involves(uid: string, d: OneOnOne) {
    d.requesterUid == uid || d.requestedUid == uid
  }

  /** `listMyOneOnOnes`: every one-on-one the caller is a party to, latest
      start first, at most 200. */
  function ListMine(caller: Option<string>, all: seq<OneOnOne>): (r: Result<seq<OneOnOne>>)
    ensures r.Ok? <==> SignedIn(caller)
    ensures r.Ok? ==>
      && |r.value| <= ListLimit
      && SortedDesc(r.value, (d: OneOnOne) => d.startsAt)
      && (forall d | d in r.value :: d in all && Involves(caller.value, d))
      && (|r.value| < ListLimit ==> forall d | d in all && Involves(caller.value, d) :: d in r.value)
      && (forall x, y | x in all && Involves(caller.value, x) && x !in r.value && y in r.value :: y.startsAt >= x.startsAt)
      && multiset(r.value) <= multiset(all)
      && (|r.value| < ListLimit ==> forall x | x in all && Involves(caller.value, x) ::
            multiset(r.value)[x] == multiset(all)[x])
  {
    if !SignedIn(caller) then Err(Unauthenticated)
    else
      var p := (d: OneOnOne) => Involves(caller.value, d);
      assert forall d :: p(d) == Involves(caller.value, d);
      Ok(QueryDesc(all, p, (d: OneOnOne) => d.startsAt, ListLimit))
  }

  /** The two members are the two parties, in either role. */
  predicate Between(uid: string, other: string, d: OneOnOne) {
    || (d.requesterUid == uid && d.requestedUid == other)
    || (d.requesterUid == other && d.requestedUid == uid)
  }

  /** `listBetweenTwoUsers`: the one-on-ones between the caller and
      `otherUid`, which must be given, latest start first, at most 200. */
  function ListBetween(caller: Option<string>, otherUid: Option<string>, all: seq<OneOnOne>)
    : (r: Result<seq<OneOnOne>>)
    ensures !SignedIn(caller) ==> r == Err(Unauthenticated)
    ensures SignedIn(caller) && !Truthy(otherUid) ==> r == Err(BadRequest)
    ensures r.Ok? <==> SignedIn(caller) && Truthy(otherUid)
    ensures r.Ok? ==>
      && |r.value| <= ListLimit
      && SortedDesc(r.value, (d: OneOnOne) => d.startsAt)
      && (forall d | d in r.value :: d in all && Between(caller.value, otherUid.value, d))
      && (|r.value| < ListLimit ==> forall d | d in all && Between(caller.value, otherUid.value, d) :: d in r.value)
      && (forall x, y | x in all && Between(caller.value, otherUid.value, x) && x !in r.value && y in r.value :: y.startsAt >= x.startsAt)
      && multiset(r.value) <= multiset(all)
      && (|r.value| < ListLimit ==> forall x | x in all && Between(caller.value, otherUid.value, x) ::
            multiset(r.value)[x] == multiset(all)[x])
  {
    if !SignedIn(caller) then Err(Unauthenticated)
    else if !Truthy(otherUid) then Err(BadRequest)
    else
      var p := (d: OneOnOne) => Between(caller.value, otherUid.value, d);
      assert forall d :: p(d) == Between(caller.value, otherUid.value, d);
      Ok(QueryDesc(all, p, (d: OneOnOne) => d.startsAt, ListLimit))
  }

  /** The list between two members is the same whichever of them asks. */
  lemma BetweenIsSymmetric(a: string, b: string, all: seq<OneOnOne>)
    requires a != "" && b != ""
    ensures ListBetween(Some(a), Some(b), all) == ListBetween(Some(b), Some(a), all)
  {
    SelectAgree(all, (d: OneOnOne) => Between(a, b, d), (d: OneOnOne) => Between(b, a, d));
  }

  /** Approving, proposing, rejecting and completing keep a stored one-on-one
      consistent. */
  lemma {:induction false} SimpleStepsKeepConsistent(caller: Option<string>, id: Id, docs: map<Id, OneOnOne>,
                                                     q: RescheduleRequest, proofUrl: Option<string>, now: Instant)
    requires id in docs ==> Consistent(docs[id])
    ensures Approve(caller, id, docs).Ok? ==> Consistent(Approve(caller, id, docs).value)
    ensures Reschedule(caller, id, q, docs, now).Ok? ==> Consistent(Reschedule(caller, id, q, docs, now).value)
    ensures Reject(caller, id, docs, now).Ok? ==> Consistent(Reject(caller, id, docs, now).value)
    ensures Complete(caller, id, proofUrl, docs, now).Ok? ==> Consistent(Complete(caller, id, proofUrl, docs, now).value)
  {
  }

  /** Accepting a proposal keeps a stored one-on-one consistent: the new
      `startsAt` is the parse of the new date and time texts. */
  lemma {:induction false} AcceptKeepsConsistent(caller: Option<string>, id: Id, docs: map<Id, OneOnOne>, now: Instant)
    requires id in docs ==> Consistent(docs[id])
    ensures Accept(caller, id, docs, now).Ok? ==> Consistent(Accept(caller, id, docs, now).value)
  {
    if Accept(caller, id, docs, now).Ok? {
      ParsedInRange(NextDate(docs[id]), NextTime(docs[id]));
    }
  }

  /** When the two parties differ, the member who proposed a reschedule can
      neither accept nor reject it. */
  lemma ProposerCannotAnswer(id: Id, docs: map<Id, OneOnOne>, now: Instant)
    requires id != "" && id in docs && Consistent(docs[id]) && HasPendingProposal(docs[id])
    requires docs[id].requesterUid != docs[id].requestedUid
    ensures var proposer := Some(docs[id].proposal.value.proposedByUid);
            Accept(proposer, id, docs, now) == Err(Forbidden) && Reject(proposer, id, docs, now) == Err(Forbidden)
  {
  }

  /** A proposal is answered at most once: after an accept or a reject, both
      answers are refused with 400. */
  lemma {:induction false} AnsweredOnce(caller: Option<string>, other: Option<string>, id: Id,
                                        docs: map<Id, OneOnOne>, now: Instant, later: Instant)
    ensures Accept(caller, id, docs, now).Ok? ==>
      var after := docs[id := Accept(caller, id, docs, now).value];
      SignedIn(other) ==> Accept(other, id, after, later) == Err(BadRequest) && Reject(other, id, after, later) == Err(BadRequest)
    ensures Reject(caller, id, docs, now).Ok? ==>
      var after := docs[id := Reject(caller, id, docs, now).value];
      SignedIn(other) ==> Accept(other, id, after, later) == Err(BadRequest) && Reject(other, id, after, later) == Err(BadRequest)
  {
    if Accept(caller, id, docs, now).Ok? {
      var after := docs[id := Accept(caller, id, docs, now).value];
      assert !HasPendingProposal(after[id]);
    }
    if Reject(caller, id, docs, now).Ok? {
      var after := docs[id := Reject(caller, id, docs, now).value];
      assert !HasPendingProposal(after[id]);
    }
  }

  /** A parse succeeds only on texts that are not blank. */
  lemma ParsedTextsNotBlank(dateText: string, timeText: string)
    requires ParseDateTime(dateText, timeText).Some?
    ensures Trim(dateText) != "" && Trim(timeText) != ""
  {
  }

  /** The slot a fresh proposal with a date, a time and a location proposes
      is exactly those three, trimmed. */
  lemma {:induction false} ProposedSlot(proposer: string, id: Id, q: RescheduleRequest,
                                        docs: map<Id, OneOnOne>, now: Instant)
    requires id != "" && id in docs && WellFormed(docs[id])
    requires proposer != "" && IsParty(docs[id], proposer)
    requires Truthy(q.date) && Truthy(q.time) && Truthy(q.location)
    requires Trim(q.date.value) != "" && Trim(q.time.value) != "" && Trim(q.location.value) != ""
    ensures Reschedule(Some(proposer), id, q, docs, now).Ok?
    ensures var d := Reschedule(Some(proposer), id, q, docs, now).value;
            && WellFormed(d) && HasPendingProposal(d) && Counterparty(d) != ""
            && NextDate(d) == Trim(q.date.value) && NextTime(d) == Trim(q.time.value)
            && NextLocation(d) == Trim(q.location.value)
  {
  }

  /** A reschedule proposed by one party with a new date, time and location
      that parse, and accepted by the other party, moves the one-on-one to
      exactly the proposed slot and schedules it. */
  lemma {:induction false} ProposeThenAccept(proposer: string, id: Id, q: RescheduleRequest,
                                             docs: map<Id, OneOnOne>, now: Instant, later: Instant)
    requires id != "" && id in docs && WellFormed(docs[id])
    requires proposer != "" && IsParty(docs[id], proposer)
    requires Truthy(q.date) && Truthy(q.time) && Truthy(q.location) && !Blank(q.location.value)
    requires ParseDateTime(q.date.value, q.time.value).Some?
    ensures Reschedule(Some(proposer), id, q, docs, now).Ok?
    ensures var d := Reschedule(Some(proposer), id, q, docs, now).value;
            var r := Accept(Some(Counterparty(d)), id, docs[id := d], later);
            && r.Ok?
            && r.value.dateString == Trim(q.date.value) && r.value.timeString == Trim(q.time.value)
            && r.value.location == Trim(q.location.value)
            && Some(r.value.startsAt) == StartOf(ParseDateTime(q.date.value, q.time.value))
            && r.value.status == Scheduled
  {
    ParsedTextsNotBlank(q.date.value, q.time.value);
    ProposedSlot(proposer, id, q, docs, now);
    ParseTrimmed(q.date.value, q.time.value);
    var d := Reschedule(Some(proposer), id, q, docs, now).value;
    var after := docs[id := d];
    assert after[id] == d;
    assert Answerable(Some(Counterparty(d)), id, after) == Ok(d);
  }

  /** As written, accepting a reschedule sets `scheduled` from any status, so
      a completed one-on-one with a pending proposal that only moves it to
      another place is re-opened; its completion time and proof stay on the
      record. */
  lemma AcceptReopensCompleted(id: Id, docs: map<Id, OneOnOne>, now: Instant)
    requires id != "" && id in docs && Consistent(docs[id]) && docs[id].status == Completed
    requires HasPendingProposal(docs[id])
    requires docs[id].proposal.value.dateString.None? && docs[id].proposal.value.timeString.None?
    ensures var r := Accept(Some(Counterparty(docs[id])), id, docs, now);
            && r.Ok? && r.value.status == Scheduled
            && r.value.completedAt == docs[id].completedAt && r.value.proofPhotoUrl == docs[id].proofPhotoUrl
  {
  }

  predicate AllConsistent(docs: map<Id, OneOnOne>) {
    forall id | id in docs :: Consistent(docs[id])
  }

  /** Saving a consistent record keeps the whole collection consistent. */
  lemma SaveKeepsConsistent(docs: map<Id, OneOnOne>, id: Id, d: OneOnOne)
    requires AllConsistent(docs) && Consistent(d)
    ensures AllConsistent(docs[id := d])
  {
    var saved := docs[id := d];
    forall k | k in saved ensures Consistent(saved[k]) {
      if k != id { assert saved[k] == docs[k]; }
    }
  }

  /** The one-on-one collection, keyed by document id. */
  class OneOnOneStore {
    var docs: map<Id, OneOnOne>

    ghost predicate Valid()
      reads this
    {
      AllConsistent(docs)
    }

    constructor ()
      ensures docs == map[] && Valid()
    {
      docs := map[];
    }

    method CreateOneOnOne(caller: Option<string>, q: CreateRequest, newId: Id) returns (r: Result<OneOnOne>)
      requires newId != "" && newId !in docs
      modifies this
      ensures r == Create(caller, q)
      ensures docs == if r.Ok? then old(docs)[newId := r.value] else old(docs)
      ensures old(Valid()) ==> Valid()
    {
      r := Create(caller, q);
      if r.Ok? {
        if Valid() {
          CreatedConsistent(caller, q);
          SaveKeepsConsistent(docs, newId, r.value);
        }
        docs := docs[newId := r.value];
      }
    }

    method ApproveOneOnOne(caller: Option<string>, id: Id) returns (r: Result<OneOnOne>)
      modifies this
      ensures r == Approve(caller, id, old(docs))
      ensures docs == if r.Ok? then old(docs)[id := r.value] else old(docs)
      ensures old(Valid()) ==> Valid()
    {
      if !SignedIn(caller) { return Err(Unauthenticated); }
      if id == "" { return Err(BadRequest); }
      if id !in docs { return Err(NotFound); }
      var doc := docs[id];
      if doc.status != Pending { return Err(BadRequest); }
      if doc.requestedUid != caller.value { return Err(Forbidden); }
      doc := doc.(status := Scheduled);
      if Valid() {
        SimpleStepsKeepConsistent(caller, id, docs, RescheduleRequest(None, None, None, None), None, 0);
        SaveKeepsConsistent(docs, id, doc);
      }
      docs := docs[id := doc];
      r := Ok(doc);
    }

    method RequestReschedule(caller: Option<string>, id: Id, q: RescheduleRequest, now: Instant)
      returns (r: Result<OneOnOne>)
      modifies this
      ensures r == Reschedule(caller, id, q, old(docs), now)
      ensures docs == if r.Ok? then old(docs)[id := r.value] else old(docs)
      ensures old(Valid()) ==> Valid()
    {
      if !SignedIn(caller) { return Err(Unauthenticated); }
      var uid := caller.value;
      if id == "" { return Err(BadRequest); }
      if !Truthy(q.date) && !Truthy(q.time) && !Truthy(q.location) { return Err(BadRequest); }
      if id !in docs { return Err(NotFound); }
      var doc := docs[id];
      if doc.requestedUid != uid && doc.requesterUid != uid { return Err(Forbidden); }
      // Each field sent and truthy is set, trimmed, on the new proposal.
      var proposal := Proposal(TrimmedIfTruthy(q.date), TrimmedIfTruthy(q.time), TrimmedIfTruthy(q.location),
                               uid, now, ProposalPending, TrimmedIfTruthy(q.note));
      doc := doc.(proposal := Some(proposal));
      doc := doc.(lastActionAt := Some(now));
      if Valid() {
        SimpleStepsKeepConsistent(caller, id, docs, q, None, now);
        SaveKeepsConsistent(docs, id, doc);
      }
      docs := docs[id := doc];
      r := Ok(doc);
    }

    method AcceptReschedule(caller: Option<string>, id: Id, now: Instant) returns (r: Result<OneOnOne>)
      modifies this
      ensures r == Accept(caller, id, old(docs), now)
      ensures docs == if r.Ok? then old(docs)[id := r.value] else old(docs)
      ensures old(Valid()) ==> Valid()
    {
      if !SignedIn(caller) { return Err(Unauthenticated); }
      if id == "" { return Err(BadRequest); }
      if id !in docs { return Err(NotFound); }
      var doc := docs[id];
      if doc.proposal.None? || doc.proposal.value.status != ProposalPending { return Err(BadRequest); }
      var counterParty := if doc.proposal.value.proposedByUid == doc.requestedUid then doc.requesterUid else doc.requestedUid;
      if caller.value != counterParty { return Err(Forbidden); }
      var nextDate := OrCurrent(doc.proposal.value.dateString, doc.dateString);
      var nextTime := OrCurrent(doc.proposal.value.timeString, doc.timeString);
      var nextLocation := OrCurrent(doc.proposal.value.location, doc.location);
      var nextStartsAt := ParseDateTime(nextDate, nextTime);
      if nextStartsAt.None? { return Err(BadRequest); }
      ParsedInRange(nextDate, nextTime);
      doc := doc.(dateString := nextDate, timeString := nextTime, location := nextLocation);
      doc := doc.(startsAt := StartInstant(nextStartsAt.value), status := Scheduled);
      doc := doc.(proposal := Some(doc.proposal.value.(status := Accepted)));
      doc := doc.(lastActionAt := Some(now));
      if Valid() {
        AcceptKeepsConsistent(caller, id, docs, now);
        SaveKeepsConsistent(docs, id, doc);
      }
      docs := docs[id := doc];
      r := Ok(doc);
    }

    method RejectReschedule(caller: Option<string>, id: Id, now: Instant) returns (r: Result<OneOnOne>)
      modifies this
      ensures r == Reject(caller, id, old(docs), now)
      ensures docs == if r.Ok? then old(docs)[id := r.value] else old(docs)
      ensures old(Valid()) ==> Valid()
    {
      if !SignedIn(caller) { return Err(Unauthenticated); }
      if id == "" { return Err(BadRequest); }
      if id !in docs { return Err(NotFound); }
      var doc := docs[id];
      if doc.proposal.None? || doc.proposal.value.status != ProposalPending { return Err(BadRequest); }
      var counterParty := if doc.proposal.value.proposedByUid == doc.requestedUid then doc.requesterUid else doc.requestedUid;
      if caller.value != counterParty { return Err(Forbidden); }
      doc := doc.(proposal := Some(doc.proposal.value.(status := Rejected)));
      doc := doc.(lastActionAt := Some(now));
      if Valid() {
        SimpleStepsKeepConsistent(caller, id, docs, RescheduleRequest(None, None, None, None), None, now);
        SaveKeepsConsistent(docs, id, doc);
      }
      docs := docs[id := doc];
      r := Ok(doc);
    }

    method CompleteOneOnOne(caller: Option<string>, id: Id, proofUrl: Option<string>, now: Instant)
      returns (r: Result<OneOnOne>)
      modifies this
      ensures r == Complete(caller, id, proofUrl, old(docs), now)
      ensures docs == if r.Ok? then old(docs)[id := r.value] else old(docs)
      ensures old(Valid()) ==> Valid()
    {
      if !SignedIn(caller) { return Err(Unauthenticated); }
      if id == "" { return Err(BadRequest); }
      if !Truthy(proofUrl) { return Err(BadRequest); }
      if id !in docs { return Err(NotFound); }
      var doc := docs[id];
      if doc.requesterUid != caller.value { return Err(Forbidden); }
      if doc.status != Scheduled { return Err(BadRequest); }
      if now < doc.startsAt { return Err(BadRequest); }
      doc := doc.(proofPhotoUrl := proofUrl, completedAt := Some(now));
      doc := doc.(status := Completed, lastActionAt := Some(now));
      if Valid() {
        SimpleStepsKeepConsistent(caller, id, docs, RescheduleRequest(None, None, None, None), proofUrl, now);
        SaveKeepsConsistent(docs, id, doc);
      }
      docs := docs[id := doc];
      r := Ok(doc);
    }
  }
}
