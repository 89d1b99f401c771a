/** The requirement handlers: posting a requirement, the public and own
    lists, answering a requirement and listing its answers. */
module Requirements {
  import opened Common
  import opened Text
  import opened Listing
  import opened RequirementModel
  import opened RequirementResponseModel
  import UserModel

  const DefaultLimit: nat := 20
  const MaxLimit: nat := 50
  /** The fixed size of the caller's own list. */
  const MineLimit: nat := 50

  /** The `timeline` body field: falsy, a date, or a value that is not a
      date (which the schema's date cast rejects when the record is
      created). */
  datatype TimelineInput = NoTimeline | TimelineAt(at: Instant) | TimelineInvalid

  /** The body of `createRequirement`. The text fields are present only
      when they are strings; `isPublic` is absent when undefined and
      otherwise holds the truthiness of the value sent. */
  datatype CreateRequest = CreateRequest(
    title: Option<string>,
    description: Option<string>,
    category: Option<string>,
    budget: Option<string>,
    timeline: TimelineInput,
    isPublic: Option<bool>,
    taggedMemberUid: Option<string>)

  /** `typeof f === 'string' ? f.trim() : undefined` */
  function TrimIfString(f: Option<string>): (r: Option<string>)
    ensures r.Some? <==> f.Some?
    ensures r.Some? ==> Tight(r.value) && r.value == Trim(f.value)
  {
    if f.Some? then Some(Trim(f.value)) else None
  }

  /** `Boolean(isPublic !== undefined ? isPublic : true)` */
  function PublicOf(isPublic: Option<bool>): (b: bool)
    ensures isPublic.None? ==> b
    ensures isPublic.Some? ==> b == isPublic.value
  {
    if isPublic.None? then true else isPublic.value
  }

  predicate TitleGiven(q: CreateRequest) {
    q.title.Some? && !Blank(q.title.value)
  }

  /** `createRequirement` */
  function CreateRequirement(caller: Option<string>, q: CreateRequest, newId: Id, now: Instant)
    : (r: Result<Requirement>)
    ensures !SignedIn(caller) ==> r == Err(Unauthenticated)
    ensures SignedIn(caller) && !TitleGiven(q) ==> r == Err(BadRequest)
    ensures r.Ok? <==> SignedIn(caller) && TitleGiven(q) && !q.timeline.TimelineInvalid?
    ensures SignedIn(caller) && TitleGiven(q) && q.timeline.TimelineInvalid? ==> r == Err(Internal)
    ensures r.Ok? ==> Valid(r.value)
    ensures r.Ok? ==> r.value.id == newId && r.value.firebaseUid == caller.value && r.value.createdAt == now
    ensures r.Ok? ==> r.value.title == Trim(q.title.value)
    ensures r.Ok? ==> r.value.isPublic == (q.isPublic.None? || q.isPublic.value)
    ensures r.Ok? ==> (r.value.timeline.Some? <==> q.timeline.TimelineAt?)
    ensures r.Ok? && q.timeline.TimelineAt? ==> r.value.timeline == Some(q.timeline.at)
    ensures r.Ok? ==> (r.value.description.Some? <==> q.description.Some?)
                      && (r.value.category.Some? <==> q.category.Some?)
                      && (r.value.budget.Some? <==> q.budget.Some?)
                      && (r.value.taggedMemberUid.Some? <==> q.taggedMemberUid.Some?)
    ensures r.Ok? ==> r.value.description == TrimIfString(q.description)
                      && r.value.category == TrimIfString(q.category)
                      && r.value.budget == TrimIfString(q.budget)
                      && r.value.taggedMemberUid == TrimIfString(q.taggedMemberUid)
  {
    if !SignedIn(caller) then Err(Unauthenticated)
    else if !TitleGiven(q) then Err(BadRequest)
    else if q.timeline.TimelineInvalid? then Err(Internal)
    else
      Ok(Requirement(
        newId,
        caller.value,
        Trim(q.title.value),
        TrimIfString(q.description),
        TrimIfString(q.category),
        TrimIfString(q.budget),
        if q.timeline.TimelineAt? then Some(q.timeline.at) else None,
        PublicOf(q.isPublic),
        TrimIfString(q.taggedMemberUid),
        now))
  }

  /** Who may answer a requirement: anyone when it is public, otherwise
      only its tagged member and its creator. */
  predicate MayRespond(uid: string, req: Requirement) {
    req.isPublic || req.taggedMemberUid == Some(uid) || uid == req.firebaseUid
  }

  predicate MessageGiven(message: Option<string>) {
    message.Some? && !Blank(message.value)
  }

  /** The `_id` of the caller's user document, when there is one. */
  function ResponderUserId(uid: string, users: map<string, UserModel.User>): (r: Option<Id>)
    ensures r.Some? <==> uid in users
    ensures r.Some? ==> r.value == users[uid].id
  {
    if uid in users then Some(users[uid].id) else None
  }

  /** `createRequirementResponse`; `isValidId` is the object-id syntax
      check. */
  function Respond(caller: Option<string>, requirementId: Id, isValidId: Id -> bool, message: Option<string>,
                   requirements: map<Id, Requirement>, users: map<string, UserModel.User>, newId: Id, now: Instant)
    : (r: Result<RequirementResponse>)
    ensures !SignedIn(caller) ==> r == Err(Unauthenticated)
    ensures SignedIn(caller) && !MessageGiven(message) ==> r == Err(BadRequest)
    ensures SignedIn(caller) && MessageGiven(message) && !isValidId(requirementId) ==> r == Err(BadRequest)
    ensures (SignedIn(caller) && MessageGiven(message) && isValidId(requirementId)
             && requirementId !in requirements) ==> r == Err(NotFound)
    ensures r == Err(Forbidden) <==>
              SignedIn(caller) && MessageGiven(message) && isValidId(requirementId)
              && requirementId in requirements && !MayRespond(caller.value, requirements[requirementId])
    ensures r.Ok? <==> SignedIn(caller) && MessageGiven(message) && isValidId(requirementId)
                       && requirementId in requirements && MayRespond(caller.value, requirements[requirementId])
    ensures r.Ok? ==> ValidResponse(r.value)
    ensures r.Ok? ==> r.value.id == newId && r.value.requirementId == requirementId
                      && r.value.responderUid == caller.value && r.value.createdAt == now
    ensures r.Ok? ==> r.value.message == Trim(message.value)
    ensures r.Ok? ==> (r.value.responderUserId.Some? <==> caller.value in users)
  {
    if !SignedIn(caller) then Err(Unauthenticated)
    else if !MessageGiven(message) then Err(BadRequest)
    else if !isValidId(requirementId) then Err(BadRequest)
    else if requirementId !in requirements then Err(NotFound)
    else if !MayRespond(caller.value, requirements[requirementId]) then Err(Forbidden)
    else
      Ok(RequirementResponse(newId, requirementId, caller.value, ResponderUserId(caller.value, users),
                             Trim(message.value), now))
  }

  /** A requirement posted without `isPublic` is public, so any signed-in
      member may answer it. */
  lemma PostedByDefaultIsOpen(creator: Option<string>, q: CreateRequest, newId: Id, now: Instant,
                              caller: Option<string>, isValidId: Id -> bool, message: Option<string>,
                              requirements: map<Id, Requirement>, users: map<string, UserModel.User>,
                              responseId: Id, later: Instant)
    requires CreateRequirement(creator, q, newId, now).Ok? && q.isPublic.None?
    requires SignedIn(caller) && MessageGiven(message) && isValidId(newId)
    ensures Respond(caller, newId, isValidId, message,
                    requirements[newId := CreateRequirement(creator, q, newId, now).value],
                    users, responseId, later).Ok?
  {
  }

  /** A private requirement is answerable by the member it was tagged for:
      the tag is stored trimmed, so it matches a uid without surrounding
      white space. */
  lemma TaggedMemberMayRespond(creator: Option<string>, q: CreateRequest, newId: Id, now: Instant,
                               tagged: string, isValidId: Id -> bool, message: Option<string>,
                               requirements: map<Id, Requirement>, users: map<string, UserModel.User>,
                               responseId: Id, later: Instant)
    requires CreateRequirement(creator, q, newId, now).Ok?
    requires q.taggedMemberUid == Some(tagged) && tagged != "" && Tight(tagged)
    requires MessageGiven(message) && isValidId(newId)
    ensures Respond(Some(tagged), newId, isValidId, message,
                    requirements[newId := CreateRequirement(creator, q, newId, now).value],
                    users, responseId, later).Ok?
  {
    TrimTight(tagged);
  }

  /** Nobody but the creator and the tagged member gets past a private
      requirement. */
  lemma PrivateIsClosed(caller: Option<string>, requirementId: Id, isValidId: Id -> bool, message: Option<string>,
                        requirements: map<Id, Requirement>, users: map<string, UserModel.User>, newId: Id,
                        now: Instant)
    requires requirementId in requirements && !requirements[requirementId].isPublic
    requires Respond(caller, requirementId, isValidId, message, requirements, users, newId, now).Ok?
    ensures caller.value == requirements[requirementId].firebaseUid
            || requirements[requirementId].taggedMemberUid == caller
  {
  }

  function CreatedAt(r: Requirement): int { r.createdAt }

  /** `listPublicRequirements`: at most `limit` public requirements, the
      newest first. */
  function ListPublic(limit: Option<int>, all: seq<Requirement>): (r: seq<Requirement>)
    ensures |r| <= ClampLimit(limit, DefaultLimit, MaxLimit)
    ensures SortedDesc(r, CreatedAt)
    ensures forall x | x in r :: x in all && x.isPublic
    ensures |r| < ClampLimit(limit, DefaultLimit, MaxLimit) ==> forall x | x in all && x.isPublic :: x in r
    ensures forall x, y | x in all && x.isPublic && x !in r && y in r :: y.createdAt >= x.createdAt
    ensures multiset(r) <= multiset(all)
    ensures |r| < ClampLimit(limit, DefaultLimit, MaxLimit) ==>
              forall x | x in all && x.isPublic :: multiset(r)[x] == multiset(all)[x]
  {
    var p := (x: Requirement) => x.isPublic;
    assert forall x :: p(x) == x.isPublic;
    QueryDesc(all, p, CreatedAt, ClampLimit(limit, DefaultLimit, MaxLimit))
  }

  /** Private requirements never change the public list. */
  lemma PublicListIgnoresPrivate(limit: Option<int>, all: seq<Requirement>, hidden: seq<Requirement>)
    requires forall i | 0 <= i < |hidden| :: !hidden[i].isPublic
    ensures ListPublic(limit, all + hidden) == ListPublic(limit, all)
  {
    var p := (x: Requirement) => x.isPublic;
    SelectAppend(all, hidden, p);
    SelectNone(hidden, p);
    assert Select(all + hidden, p) == Select(all, p);
  }

  /** `listMyRequirements`: the caller's own requirements, the newest
      first, at most fifty. */
  function ListMine(caller: Option<string>, all: seq<Requirement>): (r: Result<seq<Requirement>>)
    ensures r.Ok? <==> SignedIn(caller)
    ensures !SignedIn(caller) ==> r == Err(Unauthenticated)
    ensures r.Ok? ==> |r.value| <= MineLimit && SortedDesc(r.value, CreatedAt)
    ensures r.Ok? ==> forall x | x in r.value :: x in all && x.firebaseUid == caller.value
    ensures r.Ok? && |r.value| < MineLimit ==>
              forall x | x in all && x.firebaseUid == caller.value :: x in r.value
    ensures r.Ok? ==> forall x, y | x in all && x.firebaseUid == caller.value && x !in r.value && y in r.value ::
                        y.createdAt >= x.createdAt
    ensures r.Ok? ==> multiset(r.value) <= multiset(all)
    ensures r.Ok? && |r.value| < MineLimit ==>
              forall x | x in all && x.firebaseUid == caller.value :: multiset(r.value)[x] == multiset(all)[x]
  {
    if !SignedIn(caller) then Err(Unauthenticated)
    else
      var p := (x: Requirement) => x.firebaseUid == caller.value;
      assert forall x :: p(x) == (x.firebaseUid == caller.value);
      Ok(QueryDesc(all, p, CreatedAt, MineLimit))
  }

  function ResponseCreatedAt(r: RequirementResponse): int { r.createdAt }

  /** `listRequirementResponses`: every answer to the requirement, the
      newest first. An id that is not an object id is refused; one that
      names no requirement lists nothing. */
  function ListResponses(requirementId: Id, isValidId: Id -> bool, all: seq<RequirementResponse>)
    : (r: Result<seq<RequirementResponse>>)
    ensures r.Ok? <==> isValidId(requirementId)
    ensures !isValidId(requirementId) ==> r == Err(BadRequest)
    ensures r.Ok? ==> SortedDesc(r.value, ResponseCreatedAt)
    ensures r.Ok? ==> forall x | x in r.value :: x in all && x.requirementId == requirementId
    ensures r.Ok? ==> forall x | x in all && x.requirementId == requirementId :: x in r.value
    ensures r.Ok? ==> forall x | x in all && x.requirementId == requirementId :: multiset(r.value)[x] == multiset(all)[x]
  {
    if !isValidId(requirementId) then Err(BadRequest)
    else
      var p := (x: RequirementResponse) => x.requirementId == requirementId;
      SelectCount(all, p);
      Ok(SortDesc(Select(all, p), ResponseCreatedAt))
  }

  /** An accepted answer shows up in the list of its requirement. */
  lemma ResponseIsListed(caller: Option<string>, requirementId: Id, isValidId: Id -> bool, message: Option<string>,
                         requirements: map<Id, Requirement>, users: map<string, UserModel.User>, newId: Id,
                         now: Instant, before: seq<RequirementResponse>, after: seq<RequirementResponse>)
    requires Respond(caller, requirementId, isValidId, message, requirements, users, newId, now).Ok?
    ensures ListResponses(requirementId, isValidId,
                          before + [Respond(caller, requirementId, isValidId, message, requirements, users, newId, now).value]
                          + after).Ok?
    ensures Respond(caller, requirementId, isValidId, message, requirements, users, newId, now).value
            in ListResponses(requirementId, isValidId,
                             before + [Respond(caller, requirementId, isValidId, message, requirements, users, newId, now).value]
                             + after).value
  {
    var x := Respond(caller, requirementId, isValidId, message, requirements, users, newId, now).value;
    assert x in before + [x] + after;
  }

  predicate AllValid(requirements: map<Id, Requirement>) {
    forall id | id in requirements :: Valid(requirements[id])
  }

  /** Every stored answer is well formed and belongs to a stored
      requirement. */
  predicate AnswersHold(responses: map<Id, RequirementResponse>, requirements: map<Id, Requirement>) {
    forall id | id in responses :: ValidResponse(responses[id]) && responses[id].requirementId in requirements
  }

  /** The two collections. Requirements are never removed, so an answer's
      requirement stays stored. */
  class RequirementBoard {
    var requirements: map<Id, Requirement>
    var responses: map<Id, RequirementResponse>

    ghost predicate Valid()
      reads this
    {
      && KeyedById(requirements) && AllValid(requirements)
      && ResponsesKeyedById(responses) && AnswersHold(responses, requirements)
    }

    constructor ()
      ensures requirements == map[] && responses == map[] && Valid()
    {
      requirements := map[];
      responses := map[];
    }

    method PostRequirement(caller: Option<string>, q: CreateRequest, newId: Id, now: Instant)
      returns (r: Result<Requirement>)
      requires newId !in requirements
      modifies this
      ensures r == CreateRequirement(caller, q, newId, now)
      ensures requirements == if r.Ok? then old(requirements)[newId := r.value] else old(requirements)
      ensures responses == old(responses)
      ensures old(Valid()) ==> Valid()
    {
      r := CreateRequirement(caller, q, newId, now);
      if r.Ok? {
        requirements := requirements[newId := r.value];
      }
    }

    /** The requirement is read first, then the caller's user document, and
        the answer is inserted. */
    method PostResponse(caller: Option<string>, requirementId: Id, isValidId: Id -> bool, message: Option<string>,
                        users: map<string, UserModel.User>, newId: Id, now: Instant)
      returns (r: Result<RequirementResponse>)
      requires newId !in responses
      modifies this
      ensures r == Respond(caller, requirementId, isValidId, message, old(requirements), users, newId, now)
      ensures responses == if r.Ok? then old(responses)[newId := r.value] else old(responses)
      ensures requirements == old(requirements)
      ensures old(Valid()) ==> Valid()
    {
      if !SignedIn(caller) { return Err(Unauthenticated); }
      if !MessageGiven(message) { return Err(BadRequest); }
      if !isValidId(requirementId) { return Err(BadRequest); }
      if requirementId !in requirements { return Err(NotFound); }
      var req := requirements[requirementId];
      if !MayRespond(caller.value, req) { return Err(Forbidden); }
      var userId := ResponderUserId(caller.value, users);
      var created := RequirementResponse(newId, requirementId, caller.value, userId, Trim(message.value), now);
      responses := responses[newId := created];
      r := Ok(created);
    }
  }
}
