/** The `requirement_responses` collection: a member's answer to a
    requirement. */
module RequirementResponseModel {
  import opened Common
  import opened Text

  /** `responderUserId` is the responder's user document id, absent when
      no user document was found for the responder. */
  datatype RequirementResponse = RequirementResponse(
    id: Id,
    requirementId: Id,
    responderUid: string,
    responderUserId: Option<Id>,
    message: string,
    createdAt: Instant)

  /** The responder and a non-empty trimmed message are
      required. */
  predicate ValidResponse(r: RequirementResponse) {
    r.responderUid != "" && r.message != "" && Tight(r.message)
  }

  predicate ResponsesKeyedById(responses: map<Id, RequirementResponse>) {
    forall id | id in responses :: responses[id].id == id
  }
}
