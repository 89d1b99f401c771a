/** The referral handlers: creation, the receiver's confirmation and thank
    note, the unguarded status setter, and the given/taken lists. */
module Referrals {
  import opened Common
  import opened Text
  import opened Listing
  import opened ReferralModel

  /** The hand-entered contact of the body; each field is the text of the
      value sent, absent when undefined. */
  datatype ManualInput = ManualInput(
    name: Option<string>,
    businessName: Option<string>,
    category: Option<string>,
    email: Option<string>)

  /** One entry of `attachments`; `url` is absent when the entry has no
      url at all. */
  datatype AttachmentInput = AttachmentInput(name: Option<string>, url: Option<string>)

  /** The body of `createReferral`. `receiverUid`, `referralType`,
      `description` and `notes` are present only when they are strings. */
  datatype CreateRequest = CreateRequest(
    receiverUid: Option<string>,
    referralType: Option<string>,
    referredMemberUid: Option<string>,
    referredManual: Option<ManualInput>,
    description: Option<string>,
    notes: Option<string>,
    attachments: ListField<AttachmentInput>)

  /** `String(a?.url)`: an entry without a url becomes the text
      "undefined". */
  function UrlText(a: AttachmentInput): string {
    if a.url.Some? then a.url.value else "undefined"
  }

  /** The attachments mapping as written: `String(a?.url)` and then a filter
      on a non-empty url. */
  function AttachmentsAsWritten(items: seq<AttachmentInput>): (r: seq<Attachment>)
    ensures |r| <= |items|
    ensures forall i | 0 <= i < |r| :: r[i].url != ""
  {
    if items == [] then []
    else
      var rest := AttachmentsAsWritten(items[1..]);
      if UrlText(items[0]) != "" then [Attachment(items[0].name, UrlText(items[0]))] + rest else rest
  }

  /** An entry without a url is not dropped: it is kept with the url
      "undefined". */
  lemma MissingUrlKeptAsWritten(name: Option<string>)
    ensures AttachmentsAsWritten([AttachmentInput(name, None)]) == [Attachment(name, "undefined")]
  {
    assert [AttachmentInput(name, None)][1..] == [];
  }

  predicate HasUrl(a: AttachmentInput) {
    a.url.Some? && a.url.value != ""
  }

  /** The attachments as the filter evidently means them: only entries
      that carry a non-empty url, in their order. */
  function Attachments(items: seq<AttachmentInput>): (r: seq<Attachment>)
    ensures |r| <= |items|
    ensures forall i | 0 <= i < |r| :: r[i].url != ""
    ensures forall x | x in r :: exists a | a in items :: HasUrl(a) && x == Attachment(a.name, a.url.value)
    ensures forall a | a in items && HasUrl(a) :: Attachment(a.name, a.url.value) in r
  {
    if items == [] then []
    else
      var rest := Attachments(items[1..]);
      assert forall a | a in items[1..] :: a in items;
      if HasUrl(items[0]) then [Attachment(items[0].name, items[0].url.value)] + rest else rest
  }

  /** The two agree exactly when every entry has a url. */
  lemma {:induction false} AttachmentsAgreeWithUrls(items: seq<AttachmentInput>)
    requires forall i | 0 <= i < |items| :: items[i].url.Some?
    ensures AttachmentsAsWritten(items) == Attachments(items)
  {
    if items != [] {
      AttachmentsAgreeWithUrls(items[1..]);
    }
  }

  /** The kept attachments keep their order: the mapping works entry by
      entry. */
  lemma {:induction false} AttachmentsAppend(a: seq<AttachmentInput>, b: seq<AttachmentInput>)
    ensures Attachments(a + b) == Attachments(a) + Attachments(b)
    decreases |a|
  {
    if a == [] {
      assert a + b == b;
    } else {
      assert (a + b)[0] == a[0] && (a + b)[1..] == a[1..] + b;
      AttachmentsAppend(a[1..], b);
    }
  }

  /** The checks of `createReferral` that answer 400. */
  predicate CreateAccepted(q: CreateRequest) {
    && Truthy(q.receiverUid)
    && q.referralType.Some? && TypeOfText(q.referralType.value).Some?
    && q.description.Some? && !Blank(q.description.value)
    && (TypeOfText(q.referralType.value) == Some(MemberReferral) ==> Truthy(q.referredMemberUid))
    && (TypeOfText(q.referralType.value) == Some(ManualReferral) ==>
          q.referredManual.Some? && Truthy(q.referredManual.value.name)
          && Truthy(q.referredManual.value.businessName) && Truthy(q.referredManual.value.category))
  }

  /** The manual contact passes the `required` validators once the `trim`
      setters have run; a contact of white space only fails with 500. */
  predicate ContactSurvivesTrim(m: ManualInput)
    requires m.name.Some? && m.businessName.Some? && m.category.Some?
  {
    !Blank(m.name.value) && !Blank(m.businessName.value) && !Blank(m.category.value)
  }

  function ContactOf(m: ManualInput): (c: ManualContact)
    requires m.name.Some? && m.businessName.Some? && m.category.Some?
    requires ContactSurvivesTrim(m)
    ensures ContactValid(c)
    ensures c.name == Trim(m.name.value) && c.businessName == Trim(m.businessName.value)
            && c.category == Trim(m.category.value)
    ensures c.email.Some? <==> Truthy(m.email)
    ensures c.email.Some? ==> c.email.value == ToLower(Trim(m.email.value))
  {
    ManualContact(Trim(m.name.value), Trim(m.businessName.value), Trim(m.category.value), EmailIfTruthy(m.email))
  }

  /** `createReferral` with `Referral.create`. */
  function CreateReferral(caller: Option<string>, q: CreateRequest, newId: Id, now: Instant): (r: Result<Referral>)
    ensures !SignedIn(caller) ==> r == Err(Unauthenticated)
    ensures SignedIn(caller) && !CreateAccepted(q) ==> r == Err(BadRequest)
    ensures r.Ok? <==> SignedIn(caller) && CreateAccepted(q)
                       && (q.referralType == Some("manual") ==> ContactSurvivesTrim(q.referredManual.value))
    ensures r.Err? && SignedIn(caller) && CreateAccepted(q) ==> r == Err(Internal)
    ensures r.Ok? ==> Valid(r.value)
    ensures r.Ok? ==>
      && r.value.id == newId && r.value.createdAt == now
      && r.value.giverUid == caller.value && r.value.receiverUid == q.receiverUid.value
      && r.value.status == Pending
      && r.value.description == Trim(q.description.value)
      && r.value.thankNoteMessage.None? && r.value.thankNoteAmount.None?
      && r.value.attachments == Attachments(ItemsOrEmpty(q.attachments))
      && (r.value.referralType == MemberReferral <==> q.referralType == Some("member"))
      && (r.value.referralType == MemberReferral ==> r.value.referredMemberUid == q.referredMemberUid)
      && (r.value.referralType == MemberReferral ==> r.value.referredManual.None?)
      && (r.value.referralType == ManualReferral ==>
            r.value.referredMemberUid.None? && r.value.referredManual == Some(ContactOf(q.referredManual.value)))
      && (r.value.notes.Some? <==> q.notes.Some?)
      && (q.notes.Some? ==> r.value.notes == Some(Trim(q.notes.value)))
  {
    if !SignedIn(caller) then Err(Unauthenticated)
    else if !Truthy(q.receiverUid) then Err(BadRequest)
    else if q.referralType.None? || TypeOfText(q.referralType.value).None? then Err(BadRequest)
    else if q.description.None? || Blank(q.description.value) then Err(BadRequest)
    else
      var kind := TypeOfText(q.referralType.value).value;
      if kind == MemberReferral && !Truthy(q.referredMemberUid) then Err(BadRequest)
      else if kind == ManualReferral
              && (q.referredManual.None? || !Truthy(q.referredManual.value.name)
                  || !Truthy(q.referredManual.value.businessName) || !Truthy(q.referredManual.value.category))
      then Err(BadRequest)
      else if kind == ManualReferral && !ContactSurvivesTrim(q.referredManual.value) then Err(Internal)
      else Ok(Referral(
        id := newId,
        giverUid := caller.value,
        receiverUid := q.receiverUid.value,
        referralType := kind,
        referredMemberUid := if kind == MemberReferral then q.referredMemberUid else None,
        referredManual := if kind == ManualReferral then Some(ContactOf(q.referredManual.value)) else None,
        description := Trim(q.description.value),
        notes := if q.notes.Some? then Some(Trim(q.notes.value)) else None,
        attachments := Attachments(ItemsOrEmpty(q.attachments)),
        thankNoteMessage := None,
        thankNoteAmount := None,
        status := Pending,
        createdAt := now))
  }

  /** `confirmReferral`: the receiver confirms a pending referral. */
  function Confirm(caller: Option<string>, id: Id, referrals: map<Id, Referral>): (r: Result<Referral>)
    ensures !SignedIn(caller) ==> r == Err(Unauthenticated)
    ensures SignedIn(caller) && id !in referrals ==> r == Err(NotFound)
    ensures SignedIn(caller) && id in referrals && referrals[id].receiverUid != caller.value ==> r == Err(Forbidden)
    ensures SignedIn(caller) && id in referrals && referrals[id].receiverUid == caller.value
            && referrals[id].status != Pending
            ==> r == Err(BadRequest)
    ensures r.Ok? <==> SignedIn(caller) && id in referrals && referrals[id].receiverUid == caller.value
                       && referrals[id].status == Pending
    ensures r.Ok? ==> r.value == referrals[id].(status := Confirmed)
  {
    if !SignedIn(caller) then Err(Unauthenticated)
    else if id !in referrals then Err(NotFound)
    else if referrals[id].receiverUid != caller.value then Err(Forbidden)
    else if referrals[id].status != Pending then Err(BadRequest)
    else Ok(referrals[id].(status := Confirmed))
  }

  /** `submitThankNote`: the message and the amount are checked before the
      lookup; `amount` is absent when it is not a finite number. */
  function ThankNote(caller: Option<string>, id: Id, message: Option<string>, amount: Option<real>,
                     referrals: map<Id, Referral>): (r: Result<Referral>)
    ensures !SignedIn(caller) ==> r == Err(Unauthenticated)
    ensures SignedIn(caller) && (message.None? || Blank(message.value)) ==> r == Err(BadRequest)
    ensures SignedIn(caller) && message.Some? && !Blank(message.value) && (amount.None? || amount.value < 0.0)
            ==> r == Err(BadRequest)
    ensures r.Ok? <==> SignedIn(caller) && message.Some? && !Blank(message.value)
                       && amount.Some? && amount.value >= 0.0
                       && id in referrals && referrals[id].receiverUid == caller.value
                       && referrals[id].status == Confirmed
    ensures r.Ok? ==> r.value == referrals[id].(thankNoteMessage := Some(Trim(message.value)),
                                                thankNoteAmount := amount, status := Completed)
  {
    if !SignedIn(caller) then Err(Unauthenticated)
    else if message.None? || Blank(message.value) then Err(BadRequest)
    else if amount.None? || amount.value < 0.0 then Err(BadRequest)
    else if id !in referrals then Err(NotFound)
    else if referrals[id].receiverUid != caller.value then Err(Forbidden)
    else if referrals[id].status != Confirmed then Err(BadRequest)
    else Ok(referrals[id].(thankNoteMessage := Some(Trim(message.value)), thankNoteAmount := amount,
                           status := Completed))
  }

  /** The statuses `updateReferralStatus` accepts: `confirmed` is not among
      them. */
  function SettableStatus(t: Option<string>): (s: Option<ReferralStatus>)
    ensures s.Some? <==> t == Some("pending") || t == Some("completed") || t == Some("cancelled")
    ensures s.Some? ==> StatusText(s.value) == t.value && s.value != Confirmed
  {
    if t == Some("pending") then Some(Pending)
    else if t == Some("completed") then Some(Completed)
    else if t == Some("cancelled") then Some(Cancelled)
    else None
  }

  /** `updateReferralStatus`: any signed-in member may set any referral to
      one of the three statuses. */
  function SetStatus(caller: Option<string>, id: Id, status: Option<string>, referrals: map<Id, Referral>)
    : (r: Result<Referral>)
    ensures !SignedIn(caller) ==> r == Err(Unauthenticated)
    ensures SignedIn(caller) && SettableStatus(status).None? ==> r == Err(BadRequest)
    ensures SignedIn(caller) && SettableStatus(status).Some? && id !in referrals ==> r == Err(NotFound)
    ensures r.Ok? <==> SignedIn(caller) && SettableStatus(status).Some? && id in referrals
    ensures r.Ok? ==> r.value.status != Confirmed && StatusText(r.value.status) == status.value
    ensures r.Ok? ==> r.value == referrals[id].(status := r.value.status)
  {
    if !SignedIn(caller) then Err(Unauthenticated)
    else if SettableStatus(status).None? then Err(BadRequest)
    else if id !in referrals then Err(NotFound)
    else Ok(referrals[id].(status := SettableStatus(status).value))
  }

  /** Only the receiver moves a referral along `pending -> confirmed ->
      completed`: confirmation and thank note succeed for nobody else. */
  lemma OnlyReceiverAdvances(caller: Option<string>, id: Id, message: Option<string>, amount: Option<real>,
                             referrals: map<Id, Referral>)
    requires id in referrals && SignedIn(caller) && caller.value != referrals[id].receiverUid
    ensures Confirm(caller, id, referrals) == Err(Forbidden)
    ensures ThankNote(caller, id, message, amount, referrals).Err?
  {
  }

  /** After the receiver confirms, the receiver's thank note with a valid
      message and amount completes the referral. */
  lemma ConfirmThenThank(caller: Option<string>, id: Id, message: string, amount: real,
                         referrals: map<Id, Referral>)
    requires Confirm(caller, id, referrals).Ok?
    requires !Blank(message) && amount >= 0.0
    ensures var c := Confirm(caller, id, referrals).value;
            var t := ThankNote(caller, id, Some(message), Some(amount), referrals[id := c]);
            t.Ok? && t.value.status == Completed && t.value.thankNoteAmount == Some(amount)
  {
  }

  /** A thank note cannot skip the confirmation. */
  lemma NoThanksBeforeConfirm(caller: Option<string>, id: Id, message: Option<string>, amount: Option<real>,
                              referrals: map<Id, Referral>)
    requires id in referrals && referrals[id].status == Pending
    ensures ThankNote(caller, id, message, amount, referrals).Err?
  {
  }

  /** The handlers keep a stored referral valid. */
  lemma HandlersKeepValid(caller: Option<string>, id: Id, message: Option<string>, amount: Option<real>,
                          status: Option<string>, referrals: map<Id, Referral>)
    requires id in referrals && Valid(referrals[id])
    ensures Confirm(caller, id, referrals).Ok? ==> Valid(Confirm(caller, id, referrals).value)
    ensures ThankNote(caller, id, message, amount, referrals).Ok? ==> Valid(ThankNote(caller, id, message, amount, referrals).value)
    ensures SetStatus(caller, id, status, referrals).Ok? ==> Valid(SetStatus(caller, id, status, referrals).value)
  {
  }

  function CreatedAt(r: Referral): int { r.createdAt }

  /** `listGivenReferrals`: the caller's given referrals, newest first. */
  function ListGiven(caller: Option<string>, all: seq<Referral>): (r: Result<seq<Referral>>)
    ensures r.Ok? <==> SignedIn(caller)
    ensures !SignedIn(caller) ==> r == Err(Unauthenticated)
    ensures r.Ok? ==> SortedDesc(r.value, CreatedAt)
    ensures r.Ok? ==> forall x | x in r.value :: x in all && x.giverUid == caller.value
    ensures r.Ok? ==> forall x | x in all && x.giverUid == caller.value :: x in r.value
    ensures r.Ok? ==> forall x | x in all && x.giverUid == caller.value :: multiset(r.value)[x] == multiset(all)[x]
  {
    if !SignedIn(caller) then Err(Unauthenticated)
    else
      var p := (x: Referral) => x.giverUid == caller.value;
      SelectCount(all, p);
      Ok(SortDesc(Select(all, p), CreatedAt))
  }

  /** The `status` query of the taken list: used only when it is one of the
      four statuses once trimmed. */
  function StatusFilter(query: Option<string>): (s: Option<ReferralStatus>)
    ensures s.Some? <==> query.Some? && StatusOfText(Trim(query.value)).Some?
  {
    if query.Some? then StatusOfText(Trim(query.value)) else None
  }

  predicate Taken(caller: string, status: Option<ReferralStatus>, x: Referral) {
    x.receiverUid == caller && (status.Some? ==> x.status == status.value)
  }

  /** `listTakenReferrals`: the referrals the caller received, optionally
      of one status, newest first. */
  function ListTaken(caller: Option<string>, query: Option<string>, all: seq<Referral>)
    : (r: Result<seq<Referral>>)
    ensures r.Ok? <==> SignedIn(caller)
    ensures !SignedIn(caller) ==> r == Err(Unauthenticated)
    ensures r.Ok? ==> SortedDesc(r.value, CreatedAt)
    ensures r.Ok? ==> forall x | x in r.value :: x in all && Taken(caller.value, StatusFilter(query), x)
    ensures r.Ok? ==> forall x | x in all && Taken(caller.value, StatusFilter(query), x) :: x in r.value
    ensures r.Ok? ==> forall x | x in all && Taken(caller.value, StatusFilter(query), x) ::
                        multiset(r.value)[x] == multiset(all)[x]
  {
    if !SignedIn(caller) then Err(Unauthenticated)
    else
      var status := StatusFilter(query);
      var p := (x: Referral) => Taken(caller.value, status, x);
      SelectCount(all, p);
      Ok(SortDesc(Select(all, p), CreatedAt))
  }

  /** A status query outside the enum lists everything the caller received. */
  lemma UnknownStatusListsAll(caller: Option<string>, query: Option<string>, all: seq<Referral>)
    requires query.None? || StatusOfText(Trim(query.value)).None?
    ensures ListTaken(caller, query, all) == ListTaken(caller, None, all)
  {
  }

  /** The taken list of one status is the part of the unfiltered list that
      has that status. */
  lemma {:induction false} StatusNarrowsTaken(caller: Option<string>, status: ReferralStatus, all: seq<Referral>)
    requires SignedIn(caller)
    ensures forall x :: x in ListTaken(caller, Some(StatusText(status)), all).value
                        <==> x in ListTaken(caller, None, all).value && x.status == status
  {
    assert StatusFilter(Some(StatusText(status))) == Some(status) by {
      TrimTight(StatusText(status));
    }
  }

  predicate AllValid(referrals: map<Id, Referral>) {
    forall id | id in referrals :: Valid(referrals[id])
  }

  /** The referrals collection. */
  class ReferralStore {
    var referrals: map<Id, Referral>

    ghost predicate Valid()
      reads this
    {
      KeyedById(referrals) && AllValid(referrals)
    }

    constructor ()
      ensures referrals == map[] && Valid()
    {
      referrals := map[];
    }

    method CreateReferralDoc(caller: Option<string>, q: CreateRequest, newId: Id, now: Instant)
      returns (r: Result<Referral>)
      requires newId !in referrals
      modifies this
      ensures r == CreateReferral(caller, q, newId, now)
      ensures referrals == if r.Ok? then old(referrals)[newId := r.value] else old(referrals)
      ensures old(Valid()) ==> Valid()
    {
      r := CreateReferral(caller, q, newId, now);
      if r.Ok? {
        referrals := referrals[newId := r.value];
      }
    }

    /** The fetched document's status is changed in place and saved. */
    method ConfirmReferral(caller: Option<string>, id: Id) returns (r: Result<Referral>)
      modifies this
      ensures r == Confirm(caller, id, old(referrals))
      ensures referrals == if r.Ok? then old(referrals)[id := r.value] else old(referrals)
      ensures old(Valid()) ==> Valid()
    {
      if !SignedIn(caller) { return Err(Unauthenticated); }
      if id !in referrals { return Err(NotFound); }
      var doc := referrals[id];
      if doc.receiverUid != caller.value { return Err(Forbidden); }
      if doc.status != Pending { return Err(BadRequest); }
      doc := doc.(status := Confirmed);
      referrals := referrals[id := doc];
      r := Ok(doc);
    }

    method SubmitThankNote(caller: Option<string>, id: Id, message: Option<string>, amount: Option<real>)
      returns (r: Result<Referral>)
      modifies this
      ensures r == ThankNote(caller, id, message, amount, old(referrals))
      ensures referrals == if r.Ok? then old(referrals)[id := r.value] else old(referrals)
      ensures old(Valid()) ==> Valid()
    {
      if !SignedIn(caller) { return Err(Unauthenticated); }
      if message.None? || Blank(message.value) { return Err(BadRequest); }
      if amount.None? || amount.value < 0.0 { return Err(BadRequest); }
      if id !in referrals { return Err(NotFound); }
      var doc := referrals[id];
      if doc.receiverUid != caller.value { return Err(Forbidden); }
      if doc.status != Confirmed { return Err(BadRequest); }
      doc := doc.(thankNoteMessage := Some(Trim(message.value)));
      doc := doc.(thankNoteAmount := amount);
      doc := doc.(status := Completed);
      referrals := referrals[id := doc];
      r := Ok(doc);
    }

    method UpdateReferralStatus(caller: Option<string>, id: Id, status: Option<string>)
      returns (r: Result<Referral>)
      modifies this
      ensures r == SetStatus(caller, id, status, old(referrals))
      ensures referrals == if r.Ok? then old(referrals)[id := r.value] else old(referrals)
      ensures old(Valid()) ==> Valid()
    {
      if !SignedIn(caller) { return Err(Unauthenticated); }
      var next := SettableStatus(status);
      if next.None? { return Err(BadRequest); }
      if id !in referrals { return Err(NotFound); }
      var doc := referrals[id].(status := next.value);
      referrals := referrals[id := doc];
      r := Ok(doc);
    }
  }
}
