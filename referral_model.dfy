/** The `referrals` collection: a referral one member gives another, either
    of a fellow member or of an outside business entered by hand, with the
    receiver's confirmation and thank-you note. */
module ReferralModel {
  import opened Common
  import opened Text

  datatype ReferralStatus = Pending | Confirmed | Completed | Cancelled

  datatype ReferralType = MemberReferral | ManualReferral

  /** The hand-entered business of a `manual` referral. */
  datatype ManualContact = ManualContact(name: string, businessName: string, category: string, email: Option<string>)

  datatype Attachment = Attachment(name: Option<string>, url: string)

  datatype Referral = Referral(
    id: Id,
    giverUid: string,
    receiverUid: string,
    referralType: ReferralType,
    referredMemberUid: Option<string>,
    referredManual: Option<ManualContact>,
    description: string,
    notes: Option<string>,
    attachments: seq<Attachment>,
    thankNoteMessage: Option<string>,
    thankNoteAmount: Option<real>,
    status: ReferralStatus,
    createdAt: Instant)

  function StatusText(s: ReferralStatus): string {
    match s
    case Pending => "pending"
    case Confirmed => "confirmed"
    case Completed => "completed"
    case Cancelled => "cancelled"
  }

  /** The status enum read from text; anything outside it is None. */
  function StatusOfText(t: string): (r: Option<ReferralStatus>)
    ensures r.Some? ==> StatusText(r.value) == t
  {
    if t == "pending" then Some(Pending)
    else if t == "confirmed" then Some(Confirmed)
    else if t == "completed" then Some(Completed)
    else if t == "cancelled" then Some(Cancelled)
    else None
  }

  lemma StatusTextRoundTrip(s: ReferralStatus)
    ensures StatusOfText(StatusText(s)) == Some(s)
  {
  }

  function TypeOfText(t: string): (r: Option<ReferralType>)
    ensures r == Some(MemberReferral) <==> t == "member"
    ensures r == Some(ManualReferral) <==> t == "manual"
  {
    if t == "member" then Some(MemberReferral)
    else if t == "manual" then Some(ManualReferral)
    else None
  }

  /** A stored manual contact: the three required fields are trimmed and
      non-empty, the e-mail trimmed and lower case. */
  predicate ContactValid(m: ManualContact) {
    && m.name != "" && Tight(m.name)
    && m.businessName != "" && Tight(m.businessName)
    && m.category != "" && Tight(m.category)
    && (m.email.Some? ==> NormalEmail(m.email.value))
  }

  /** What the schema admits and the setters leave behind. */
  predicate Valid(r: Referral) {
    && r.giverUid != "" && r.receiverUid != ""
    && r.description != "" && Tight(r.description)
    && (r.notes.Some? ==> Tight(r.notes.value))
    && (r.thankNoteMessage.Some? ==> Tight(r.thankNoteMessage.value))
    && (r.thankNoteAmount.Some? ==> r.thankNoteAmount.value >= 0.0)
    && (forall i | 0 <= i < |r.attachments| :: r.attachments[i].url != "")
    && (r.referralType == MemberReferral ==> r.referredMemberUid.Some? && r.referredManual.None?)
    && (r.referralType == ManualReferral ==>
          r.referredMemberUid.None? && r.referredManual.Some? && ContactValid(r.referredManual.value))
  }

  /** The collection keyed by document id. */
  predicate KeyedById(referrals: map<Id, Referral>) {
    forall id | id in referrals :: referrals[id].id == id
  }
}
