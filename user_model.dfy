/** The `users` collection: one registered member per Firebase uid, with a
    personal and a business section and an approval status. */
module UserModel {
  import opened Common
  import opened Text

  datatype RegistrationStatus = Pending | Approved | Rejected

  datatype Personal = Personal(
    name: string,
    profilePic: Option<string>,
    phone: string,
    email: Option<string>,
    groupId: string)

  datatype BusinessInfo = BusinessInfo(
    name: string,
    category: string,
    phone: Option<string>,
    email: Option<string>,
    location: Option<string>)

  datatype User = User(
    id: Id,
    firebaseUid: string,
    personal: Personal,
    business: BusinessInfo,
    status: RegistrationStatus,
    registeredAt: Instant)

  function StatusText(s: RegistrationStatus): string {
    match s
    case Pending => "pending"
    case Approved => "approved"
    case Rejected => "rejected"
  }

  /** The status enum read from text; anything outside it is None. */
  function StatusOfText(t: string): (r: Option<RegistrationStatus>)
    ensures r.Some? ==> StatusText(r.value) == t
  {
    if t == "pending" then Some(Pending)
    else if t == "approved" then Some(Approved)
    else if t == "rejected" then Some(Rejected)
    else None
  }

  lemma StatusTextRoundTrip(s: RegistrationStatus)
    ensures StatusOfText(StatusText(s)) == Some(s)
  {
  }

  /** What the schema setters leave behind: the trimmed fields are trimmed
      and the e-mail addresses are lower case. */
  predicate Normal(u: User) {
    && Tight(u.personal.name) && Tight(u.personal.phone) && Tight(u.personal.groupId)
    && (u.personal.email.Some? ==> NormalEmail(u.personal.email.value))
    && Tight(u.business.name) && Tight(u.business.category)
    && (u.business.email.Some? ==> NormalEmail(u.business.email.value))
    && (u.business.location.Some? ==> Tight(u.business.location.value))
  }

  /** The unique index on `firebaseUid`: the collection is a map from uid to
      the one user holding it, and document ids are not shared. */
  predicate KeyedByUid(users: map<string, User>) {
    && (forall uid | uid in users :: users[uid].firebaseUid == uid)
    && (forall a, b | a in users && b in users && a != b :: users[a].id != users[b].id)
  }

  predicate IdInUse(users: map<string, User>, id: Id) {
    exists uid | uid in users :: users[uid].id == id
  }
}
