/** The suggestion domain object: the ten-field record that the suggestion
    services read and write, its username getters and its dict projection.
    The username service is a parameter `username` (user id to username). */
module SuggestionDomain {
  import opened Values
  import opened SuggestionModels

  /** A suggestion. The datatype constructor is the domain object's
      constructor: each argument is stored, unchanged, in the field of the
      same name. `reviewerId` is "" while no reviewer has accepted it. */
  datatype Suggestion = Suggestion(
    suggestionType: string,
    entityType: string,
    suggestionSubType: string,
    status: Status,
    customizationArgs: Dict,
    authorId: string,
    reviewerId: string,
    threadId: string,
    assignedReviewerId: string,
    payload: Dict)

  /** The keys of the dict projection. */
  const DictKeys: set<string> := {
    "suggestion_type", "entity_type", "suggestion_sub_type", "status",
    "customization_args", "author_name", "reviewer_name", "thread_id",
    "assigned_reviewer_name", "payload"
  }

  /** The author's username. */
  function AuthorName(s: Suggestion, username: string -> string): (r: string)
    ensures r == username(s.authorId)
  {
    username(s.authorId)
  }

  /** The reviewer's username; "" without any lookup while no reviewer is set. */
  function ReviewerName(s: Suggestion, username: string -> string): (r: string)
    ensures s.reviewerId == "" ==> r == ""
    ensures s.reviewerId != "" ==> r == username(s.reviewerId)
  {
    if s.reviewerId != "" then username(s.reviewerId) else ""
  }

  /** The assigned reviewer's username: looked up unconditionally. */
  function AssignedReviewerName(s: Suggestion, username: string -> string): (r: string)
    ensures r == username(s.assignedReviewerId)
  {
    username(s.assignedReviewerId)
  }

  /** The dict representation of a suggestion: seven fields copied verbatim
      and the three user ids replaced by usernames. */
  function ToDict(s: Suggestion, username: string -> string): (d: Dict)
    ensures d.Keys == DictKeys
    ensures d["suggestion_type"] == JString(s.suggestionType)
    ensures d["entity_type"] == JString(s.entityType)
    ensures d["suggestion_sub_type"] == JString(s.suggestionSubType)
    ensures d["status"] == JString(StatusName(s.status))
    ensures d["customization_args"] == JObject(s.customizationArgs)
    ensures d["thread_id"] == JString(s.threadId)
    ensures d["payload"] == JObject(s.payload)
    ensures d["author_name"] == JString(username(s.authorId))
    ensures d["reviewer_name"] == JString(ReviewerName(s, username))
    ensures d["assigned_reviewer_name"] == JString(username(s.assignedReviewerId))
  {
    map[
      "suggestion_type" := JString(s.suggestionType),
      "entity_type" := JString(s.entityType),
      "suggestion_sub_type" := JString(s.suggestionSubType),
      "status" := JString(StatusName(s.status)),
      "customization_args" := JObject(s.customizationArgs),
      "author_name" := JString(AuthorName(s, username)),
      "reviewer_name" := JString(ReviewerName(s, username)),
      "thread_id" := JString(s.threadId),
      "assigned_reviewer_name" := JString(AssignedReviewerName(s, username)),
      "payload" := JObject(s.payload)
    ]
  }

  /** The verbatim fields can be read back from the dict: two suggestions with
      the same dict agree on type, entity type, sub-type, status,
      customization args, thread id and payload. */
  lemma ToDictDeterminesCopiedFields(s: Suggestion, t: Suggestion, username: string -> string)
    requires ToDict(s, username) == ToDict(t, username)
    ensures s.suggestionType == t.suggestionType && s.entityType == t.entityType
    ensures s.suggestionSubType == t.suggestionSubType && s.status == t.status
    ensures s.customizationArgs == t.customizationArgs && s.threadId == t.threadId
    ensures s.payload == t.payload
  {
    var d, e := ToDict(s, username), ToDict(t, username);
    assert d["status"] == e["status"];
    StatusNameInjective(s.status, t.status);
  }

  /** Only the usernames of the three ids reach the dict: suggestions that
      differ in their ids but whose ids have the same usernames (and the same
      reviewer presence) give the same dict. */
  lemma ToDictSeesOnlyUsernames(s: Suggestion, t: Suggestion, username: string -> string)
    requires s.(authorId := t.authorId, reviewerId := t.reviewerId,
                assignedReviewerId := t.assignedReviewerId) == t
    requires username(s.authorId) == username(t.authorId)
    requires username(s.assignedReviewerId) == username(t.assignedReviewerId)
    requires (s.reviewerId == "") == (t.reviewerId == "")
    requires s.reviewerId != "" ==> username(s.reviewerId) == username(t.reviewerId)
    ensures ToDict(s, username) == ToDict(t, username)
  {
  }
}
