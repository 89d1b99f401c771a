/** The `one_on_one_meetings` collection: a one-on-one between a requester
    and a requested member, with an optional reschedule proposal embedded. */
module OneOnOneModel {
  import opened Common
  import opened Text

  datatype Status = Pending | Scheduled | Completed | Cancelled

  datatype ProposalStatus = ProposalPending | Accepted | Rejected

  /** The embedded reschedule proposal. Only the fields the proposer supplied
      are present. */
  datatype Proposal = Proposal(
    dateString: Option<string>,
    timeString: Option<string>,
    location: Option<string>,
    proposedByUid: string,
    proposedAt: Instant,
    status: ProposalStatus,
    note: Option<string>)

  datatype OneOnOne = OneOnOne(
    title: string,
    description: Option<string>,
    location: string,
    startsAt: Instant,
    dateString: string,
    timeString: string,
    status: Status,
    requesterUid: string,
    requestedUid: string,
    createdBy: Option<string>,
    proposal: Option<Proposal>,
    lastActionAt: Option<Instant>,
    proofPhotoUrl: Option<string>,
    completedAt: Option<Instant>)

  function StatusText(s: Status): string {
    match s
    case Pending => "pending"
    case Scheduled => "scheduled"
    case Completed => "completed"
    case Cancelled => "cancelled"
  }

  /** The status enum read from text; anything outside it is None. */
  function StatusOfText(t: string): (r: Option<Status>)
    ensures r.Some? ==> StatusText(r.value) == t
  {
    if t == "pending" then Some(Pending)
    else if t == "scheduled" then Some(Scheduled)
    else if t == "completed" then Some(Completed)
    else if t == "cancelled" then Some(Cancelled)
    else None
  }

  lemma StatusTextRoundTrip(s: Status)
    ensures StatusOfText(StatusText(s)) == Some(s)
  {
  }

  /** What the schema accepts on save: the required strings are present and
      non-empty, and the trimmed ones carry no outer white space. */
  predicate WellFormed(d: OneOnOne) {
    && d.title != "" && Tight(d.title)
    && d.location != "" && Tight(d.location)
    && d.dateString != "" && d.timeString != ""
    && d.requesterUid != "" && d.requestedUid != ""
    && (d.description.Some? ==> Tight(d.description.value))
  }

  predicate IsParty(d: OneOnOne, uid: string) {
    uid == d.requesterUid || uid == d.requestedUid
  }

  predicate HasPendingProposal(d: OneOnOne) {
    d.proposal.Some? && d.proposal.value.status == ProposalPending
  }

  /** The member who must answer a proposal: the requester when the requested
      member proposed, the requested member otherwise. */
  function Counterparty(d: OneOnOne): (uid: string)
    requires d.proposal.Some?
    ensures d.requesterUid != d.requestedUid && IsParty(d, d.proposal.value.proposedByUid)
            ==> IsParty(d, uid) && uid != d.proposal.value.proposedByUid
  {
    if d.proposal.value.proposedByUid == d.requestedUid then d.requesterUid else d.requestedUid
  }
}
