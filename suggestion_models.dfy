/** The constants of the suggestion storage schema: suggestion types, target
    entity types, the sub-type, and the four statuses a suggestion can be in. */
module SuggestionModels {
  import opened Values

  const SuggestionTypeAdd: string := "add"
  const SuggestionTypeEdit: string := "edit"

  const EntityTypeExploration: string := "exploration"
  const EntityTypeQuestion: string := "question"
  const EntityTypeSkill: string := "skill"
  const EntityTypeTopic: string := "topic"

  const SuggestionEditStateContent: string := "edit_exploration_state_content"

  /** The lifecycle of a suggestion: it starts InReview and every other
      status is terminal. */
  datatype Status = Accepted | InReview | Invalid | Rejected

  /** The string each status is stored as. */
  function StatusName(s: Status): string
  {
    match s
    case Accepted => "accepted"
    case InReview => "review"
    case Invalid => "invalid"
    case Rejected => "rejected"
  }

  /** Reads a stored status string back; None for a string that is not one of
      the schema's choices. */
  function StatusFromName(name: string): (r: Option<Status>)
    ensures r.Some? ==> StatusName(r.value) == name
    ensures r.None? ==> name !in {"accepted", "review", "invalid", "rejected"}
  {
    if name == "accepted" then Some(Accepted)
    else if name == "review" then Some(InReview)
    else if name == "invalid" then Some(Invalid)
    else if name == "rejected" then Some(Rejected)
    else None
  }

  /** Every status is stored under a name that reads back as itself, so two
      distinct statuses never share a stored name. */
  lemma StatusNameRoundTrip(s: Status)
    ensures StatusFromName(StatusName(s)) == Some(s)
  {
  }

  lemma StatusNameInjective(s: Status, t: Status)
    requires StatusName(s) == StatusName(t)
    ensures s == t
  {
    StatusNameRoundTrip(s);
    StatusNameRoundTrip(t);
  }
}
