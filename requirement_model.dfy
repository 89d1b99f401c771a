/** The `requirements` collection: a need a member posts, either to every
    member (public) or addressed to one tagged member. */
module RequirementModel {
  import opened Common
  import opened Text

  datatype Requirement = Requirement(
    id: Id,
    firebaseUid: string,
    title: string,
    description: Option<string>,
    category: Option<string>,
    budget: Option<string>,
    timeline: Option<Instant>,
    isPublic: bool,
    taggedMemberUid: Option<string>,
    createdAt: Instant)

  predicate TightOpt(f: Option<string>) {
    f.Some? ==> Tight(f.value)
  }

  /** What the schema admits: the creator and a non-empty title are
      required, and every text field is stored trimmed. */
  predicate Valid(r: Requirement) {
    && r.firebaseUid != ""
    && r.title != "" && Tight(r.title)
    && TightOpt(r.description) && TightOpt(r.category) && TightOpt(r.budget)
    && TightOpt(r.taggedMemberUid)
  }

  /** The collection keyed by document id. */
  predicate KeyedById(requirements: map<Id, Requirement>) {
    forall id | id in requirements :: requirements[id].id == id
  }
}
