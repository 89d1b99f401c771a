/** Member registration: an upsert of the `users` collection keyed by the
    Firebase uid, a lookup by uid, and the admin status update. */
module Registration {
  import opened Common
  import opened Text
  import opened UserModel

  /** The `personal` object of the request body; each field may be absent. */
  datatype PersonalInput = PersonalInput(
    name: Option<string>,
    profilePic: Option<string>,
    phone: Option<string>,
    email: Option<string>,
    groupId: Option<string>)

  /** The `business` object of the request body. */
  datatype BusinessInput = BusinessInput(
    name: Option<string>,
    category: Option<string>,
    phone: Option<string>,
    email: Option<string>,
    location: Option<string>)

  datatype RegistrationRequest = RegistrationRequest(
    firebaseUid: Option<string>,
    personal: Option<PersonalInput>,
    business: Option<BusinessInput>)

  /** The stored user and whether the upsert inserted it. */
  datatype Registration = Registration(user: User, created: bool)

  /** The four validation steps of the handler, all answered with 400. */
  predicate RequestComplete(q: RegistrationRequest) {
    && Truthy(q.firebaseUid)
    && q.personal.Some? && q.business.Some?
    && Truthy(q.personal.value.name) && Truthy(q.personal.value.phone) && Truthy(q.personal.value.groupId)
    && Truthy(q.business.value.name) && Truthy(q.business.value.category)
  }

  /** The personal section as stored: the handler drops an empty e-mail or
      picture and trims the others; the schema trims the required fields
      and lower-cases the e-mail. */
  function NormalPersonal(p: PersonalInput): (r: Personal)
    requires Truthy(p.name) && Truthy(p.phone) && Truthy(p.groupId)
    ensures r.name == Trim(p.name.value) && r.phone == Trim(p.phone.value) && r.groupId == Trim(p.groupId.value)
    ensures r.email.Some? <==> Truthy(p.email)
    ensures r.email.Some? ==> r.email.value == ToLower(Trim(p.email.value))
    ensures r.profilePic.Some? <==> Truthy(p.profilePic)
    ensures r.profilePic.Some? ==> r.profilePic.value == Trim(p.profilePic.value)
  {
    Personal(
      name := Trim(p.name.value),
      profilePic := TrimmedIfTruthy(p.profilePic),
      phone := Trim(p.phone.value),
      email := EmailIfTruthy(p.email),
      groupId := Trim(p.groupId.value))
  }

  /** The business section as stored: an empty phone or e-mail is dropped,
      the others trimmed; the schema trims name, category and location and
      lower-cases the e-mail. */
  function NormalBusiness(b: BusinessInput): (r: BusinessInfo)
    requires Truthy(b.name) && Truthy(b.category)
    ensures r.name == Trim(b.name.value) && r.category == Trim(b.category.value)
    ensures r.phone.Some? <==> Truthy(b.phone)
    ensures r.phone.Some? ==> r.phone.value == Trim(b.phone.value)
    ensures r.email.Some? <==> Truthy(b.email)
    ensures r.email.Some? ==> r.email.value == ToLower(Trim(b.email.value))
    ensures r.location.Some? <==> b.location.Some?
    ensures r.location.Some? ==> r.location.value == Trim(b.location.value)
  {
    BusinessInfo(
      name := Trim(b.name.value),
      category := Trim(b.category.value),
      phone := TrimmedIfTruthy(b.phone),
      email := EmailIfTruthy(b.email),
      location := if b.location.Some? then Some(Trim(b.location.value)) else None)
  }

  /** `createOrUpdateRegistration`: `$set` replaces both sections and resets
      the status to pending; `$setOnInsert` gives a new user its id and
      registration time. */
  function Register(q: RegistrationRequest, users: map<string, User>, newId: Id, now: Instant)
    : (r: Result<Registration>)
    ensures r.Ok? <==> RequestComplete(q)
    ensures r.Err? ==> r.failure == BadRequest
    ensures r.Ok? ==>
      var uid := q.firebaseUid.value;
      && r.value.user.firebaseUid == uid && r.value.user.status == Pending
      && r.value.user.personal == NormalPersonal(q.personal.value)
      && r.value.user.business == NormalBusiness(q.business.value)
      && (r.value.created <==> uid !in users)
      && (uid in users ==> r.value.user.id == users[uid].id && r.value.user.registeredAt == users[uid].registeredAt)
      && (uid !in users ==> r.value.user.id == newId && r.value.user.registeredAt == now)
  {
    if !RequestComplete(q) then Err(BadRequest)
    else
      var uid := q.firebaseUid.value;
      var personal := NormalPersonal(q.personal.value);
      var business := NormalBusiness(q.business.value);
      if uid in users then
        Ok(Registration(users[uid].(firebaseUid := uid, personal := personal, business := business, status := Pending), false))
      else
        Ok(Registration(User(newId, uid, personal, business, Pending, now), true))
  }

  /** The answer code of a registration: 201 on insert, 200 on update. */
  function RegistrationCode(reg: Registration): (code: nat)
    ensures code == 201 <==> reg.created
    ensures code == 200 <==> !reg.created
  {
    if reg.created then 201 else 200
  }

  /** What a registration stores is in the schema's normal form. */
  lemma RegisteredNormal(q: RegistrationRequest, users: map<string, User>, newId: Id, now: Instant)
    ensures Register(q, users, newId, now).Ok? ==> Normal(Register(q, users, newId, now).value.user)
  {
  }

  /** Registering the same request again updates the record the first call
      stored: same id, same registration time, same sections, answered 200. */
  lemma {:induction false} RegisterTwice(q: RegistrationRequest, users: map<string, User>,
                                         newId: Id, newId2: Id, now: Instant, later: Instant)
    requires RequestComplete(q)
    ensures var first := Register(q, users, newId, now).value;
            var second := Register(q, users[first.user.firebaseUid := first.user], newId2, later).value;
            && !second.created && second.user == first.user
  {
    var first := Register(q, users, newId, now).value;
    var after := users[first.user.firebaseUid := first.user];
    assert after[q.firebaseUid.value] == first.user;
  }

  /** A member who registers again after a decision is back to pending,
      while the registration time of the first insert is kept. */
  lemma ReRegisterResetsDecision(q: RegistrationRequest, users: map<string, User>, newId: Id, now: Instant)
    requires RequestComplete(q) && q.firebaseUid.value in users
    requires users[q.firebaseUid.value].status != Pending
    ensures var r := Register(q, users, newId, now).value;
            r.user.status == Pending && r.user.status != users[q.firebaseUid.value].status
            && r.user.registeredAt == users[q.firebaseUid.value].registeredAt && !r.created
  {
  }

  /** `getRegistrationByUid` */
  function LookupRegistration(uid: string, users: map<string, User>): (r: Result<User>)
    ensures r.Ok? <==> uid != "" && uid in users
    ensures uid == "" ==> r == Err(BadRequest)
    ensures uid != "" && uid !in users ==> r == Err(NotFound)
    ensures r.Ok? && KeyedByUid(users) ==> r.value.firebaseUid == uid && r.value in users.Values
  {
    if uid == "" then Err(BadRequest)
    else if uid !in users then Err(NotFound)
    else Ok(users[uid])
  }

  /** `updateRegistrationStatus`: only the three enum values, and only the
      status changes. */
  function SetStatus(uid: string, status: Option<string>, users: map<string, User>): (r: Result<User>)
    ensures r.Ok? <==> uid != "" && status.Some? && StatusOfText(status.value).Some? && uid in users
    ensures r.Err? && uid != "" && uid in users ==> r == Err(BadRequest)
    ensures uid == "" ==> r == Err(BadRequest)
    ensures uid != "" && status.Some? && StatusOfText(status.value).Some? && uid !in users ==> r == Err(NotFound)
    ensures r.Ok? ==> StatusText(r.value.status) == status.value
                      && r.value.(status := users[uid].status) == users[uid]
  {
    if uid == "" then Err(BadRequest)
    else if status.None? || StatusOfText(status.value).None? then Err(BadRequest)
    else if uid !in users then Err(NotFound)
    else Ok(users[uid].(status := StatusOfText(status.value).value))
  }

  predicate AllNormal(users: map<string, User>) {
    forall uid | uid in users :: Normal(users[uid])
  }

  /** Writing a user under its own uid, reusing the id it had or taking an
      id no one holds, keeps the collection keyed by uid. */
  lemma {:induction false} UpsertKeepsKeyed(users: map<string, User>, u: User)
    requires KeyedByUid(users)
    requires u.firebaseUid in users ==> u.id == users[u.firebaseUid].id
    requires u.firebaseUid !in users ==> !IdInUse(users, u.id)
    ensures KeyedByUid(users[u.firebaseUid := u])
  {
    var saved := users[u.firebaseUid := u];
    forall a, b | a in saved && b in saved && a != b ensures saved[a].id != saved[b].id {
      if a == u.firebaseUid {
        assert saved[b] == users[b];
      } else if b == u.firebaseUid {
        assert saved[a] == users[a];
      }
    }
  }

  lemma {:induction false} UpsertKeepsNormal(users: map<string, User>, u: User)
    requires AllNormal(users) && Normal(u)
    ensures AllNormal(users[u.firebaseUid := u])
  {
    var saved := users[u.firebaseUid := u];
    forall k | k in saved ensures Normal(saved[k]) {
      if k != u.firebaseUid { assert saved[k] == users[k]; }
    }
  }

  /** The `users` collection, keyed by Firebase uid (its unique index). */
  class UserStore {
    var users: map<string, User>

    ghost predicate Valid()
      reads this
    {
      KeyedByUid(users) && AllNormal(users)
    }

    constructor ()
      ensures users == map[] && Valid()
    {
      users := map[];
    }

    /** `newId` is the id the database would give an inserted document. */
    method CreateOrUpdateRegistration(q: RegistrationRequest, newId: Id, now: Instant)
      returns (r: Result<Registration>)
      requires !IdInUse(users, newId)
      modifies this
      ensures r == Register(q, old(users), newId, now)
      ensures users == if r.Ok? then old(users)[r.value.user.firebaseUid := r.value.user] else old(users)
      ensures old(Valid()) ==> Valid()
    {
      if !Truthy(q.firebaseUid) { return Err(BadRequest); }
      if q.personal.None? || q.business.None? { return Err(BadRequest); }
      var p, b := q.personal.value, q.business.value;
      if !Truthy(p.name) || !Truthy(p.phone) || !Truthy(p.groupId) { return Err(BadRequest); }
      if !Truthy(b.name) || !Truthy(b.category) { return Err(BadRequest); }
      var uid := q.firebaseUid.value;
      var personal := NormalPersonal(p);
      var business := NormalBusiness(b);
      var created := uid !in users;
      var user;
      if created {
        user := User(newId, uid, personal, business, Pending, now);
      } else {
        user := users[uid];
        user := user.(firebaseUid := uid, personal := personal, business := business, status := Pending);
      }
      if Valid() {
        RegisteredNormal(q, users, newId, now);
        UpsertKeepsKeyed(users, user);
        UpsertKeepsNormal(users, user);
      }
      users := users[uid := user];
      r := Ok(Registration(user, created));
    }

    method UpdateRegistrationStatus(uid: string, status: Option<string>) returns (r: Result<User>)
      modifies this
      ensures r == SetStatus(uid, status, old(users))
      ensures users == if r.Ok? then old(users)[uid := r.value] else old(users)
      ensures old(Valid()) ==> Valid()
    {
      if uid == "" { return Err(BadRequest); }
      if status.None? { return Err(BadRequest); }
      var next := StatusOfText(status.value);
      if next.None? { return Err(BadRequest); }
      if uid !in users { return Err(NotFound); }
      var user := users[uid];
      user := user.(status := next.value);
      if Valid() {
        UpsertKeepsKeyed(users, user);
        UpsertKeepsNormal(users, user);
      }
      users := users[uid := user];
      r := Ok(user);
    }
  }
}
