/** The suggestion lifecycle service: payload validation, creation (with the
    backing feedback thread for exploration edits), lookup by composite key,
    the partial update of a stored suggestion, the validator that invalidates
    a suggestion whose target state has vanished, and the handled check.

    The datastore is the class SuggestionService; each of its methods is
    specified by a step function on ServiceState, the value of the store. */
module SuggestionServices {
  import opened Values
  import opened SuggestionModels
  import opened SuggestionDomain

  const DefaultSuggestionThreadSubject: string := "Suggestion from a learner"

  /** The exceptions the service raises, or that Python raises inside it. */
  datatype Error =
    | InvalidPayload          // create_suggestion's own exception
    | SuggestionNotFound      // no stored record under the suggestion's key
    | MissingKey(key: string) // a KeyError on a payload lookup
    | NotADict(key: string)   // a TypeError: a non-dict payload value indexed by a string
    | AttributeOnString       // an AttributeError: a field assigned on a str
    | UndefinedName           // a NameError: a variable that is never bound

  datatype Result<+T> = Ok(value: T) | Err(error: Error)

  datatype Outcome = Pass | Fail(error: Error)

  /** The composite id a suggestion is stored under. */
  datatype Key = Key(suggestionType: string, entityType: string, threadId: string, entityId: Json)

  /** A feedback thread created for a suggestion, with its first message.
      The fields hold create_suggestion's arguments in the positions it
      passes them: the description as the subject and the default subject
      string as the first message's text. */
  datatype Thread = Thread(
    id: string, entityId: Json, authorId: string, subject: string,
    firstMessage: string, hasSuggestion: bool)

  /** A message a reviewer posts to a suggestion's thread, marking the thread
      ignored. */
  datatype PostedMessage = PostedMessage(threadId: string, authorId: string)

  /** What the datastore holds: the suggestions by key, the threads created
      for suggestions and the messages posted to them, in creation order. */
  datatype ServiceState = ServiceState(
    suggestions: map<Key, Suggestion>,
    threads: seq<Thread>,
    messages: seq<PostedMessage>)

  /** The verdict of validate_suggestion, the caller's suggestion object
      after the call (its status is assigned in place) and the new store. */
  datatype ValidateOutcome = ValidateOutcome(result: Result<bool>, suggestion: Suggestion, state: ServiceState)

  // ---------------------------------------------------------------------
  // Pure checks

  /** The keys a payload of each suggestion type must carry. */
  function RequiredPayloadKeys(suggestionType: string): set<string>
  {
    if suggestionType == SuggestionTypeAdd then {"entity_type", "entity_data"}
    else if suggestionType == SuggestionTypeEdit then {"entity_id", "entity_version_number", "change_list"}
    else {}
  }

  /** validate_suggestion_payload: an add payload must carry entity_type and
      entity_data, an edit payload entity_id, entity_version_number and
      change_list; a payload of any other type is valid. */
  function ValidatePayload(suggestionType: string, payload: Dict): (valid: bool)
    ensures valid <==> RequiredPayloadKeys(suggestionType) <= payload.Keys
    ensures suggestionType != SuggestionTypeAdd && suggestionType != SuggestionTypeEdit ==> valid
  {
    if suggestionType == SuggestionTypeAdd then
      "entity_type" in payload && "entity_data" in payload
    else if suggestionType == SuggestionTypeEdit then
      "entity_id" in payload && "entity_version_number" in payload && "change_list" in payload
    else
      true
  }

  /** is_suggestion_handled: a suggestion is handled once it has left review. */
  function IsHandled(s: Suggestion): (handled: bool)
    ensures handled <==> s.status in {Accepted, Invalid, Rejected}
  {
    !(s.status == InReview)
  }

  /** The key a suggestion is stored under: an edit suggestion is keyed by the
      entity id in its payload (a KeyError when it has none), any other by "". */
  function KeyOf(s: Suggestion): (k: Result<Key>)
    ensures k.Err? <==> s.suggestionType == SuggestionTypeEdit && "entity_id" !in s.payload
    ensures k.Err? ==> k.error == MissingKey("entity_id")
    ensures k.Ok? ==> k.value.suggestionType == s.suggestionType && k.value.entityType == s.entityType
                      && k.value.threadId == s.threadId
    ensures k.Ok? && s.suggestionType == SuggestionTypeEdit ==> k.value.entityId == s.payload["entity_id"]
    ensures k.Ok? && s.suggestionType != SuggestionTypeEdit ==> k.value.entityId == JString("")
  {
    if s.suggestionType == SuggestionTypeEdit then
      if "entity_id" in s.payload then Ok(Key(s.suggestionType, s.entityType, s.threadId, s.payload["entity_id"]))
      else Err(MissingKey("entity_id"))
    else
      Ok(Key(s.suggestionType, s.entityType, s.threadId, JString("")))
  }

  /** The one payload key an update may overwrite: change_list for an edit,
      entity_data for an add, none for any other type. */
  function EditablePayloadKeys(suggestionType: string): set<string>
  {
    if suggestionType == SuggestionTypeEdit then {"change_list"}
    else if suggestionType == SuggestionTypeAdd then {"entity_data"}
    else {}
  }

  /** The stored record after update_suggestion copies the editable fields of
      `s` onto it: status, reviewer, assigned reviewer and the editable payload
      key; a KeyError when `s`'s payload lacks that key. */
  function UpdatedRecord(stored: Suggestion, s: Suggestion): (r: Result<Suggestion>)
    ensures r.Err? <==> !(EditablePayloadKeys(s.suggestionType) <= s.payload.Keys)
    ensures r.Ok? ==>
      && r.value.status == s.status
      && r.value.reviewerId == s.reviewerId
      && r.value.assignedReviewerId == s.assignedReviewerId
      && r.value.suggestionType == stored.suggestionType
      && r.value.entityType == stored.entityType
      && r.value.suggestionSubType == stored.suggestionSubType
      && r.value.customizationArgs == stored.customizationArgs
      && r.value.authorId == stored.authorId
      && r.value.threadId == stored.threadId
    ensures r.Ok? ==> r.value.payload.Keys == stored.payload.Keys + EditablePayloadKeys(s.suggestionType)
    ensures r.Ok? ==> forall key :: key in stored.payload && key !in EditablePayloadKeys(s.suggestionType) ==>
                        r.value.payload[key] == stored.payload[key]
    ensures r.Ok? ==> forall key :: key in EditablePayloadKeys(s.suggestionType) ==>
                        key in s.payload && r.value.payload[key] == s.payload[key]
  {
    var base := stored.(status := s.status, reviewerId := s.reviewerId,
                        assignedReviewerId := s.assignedReviewerId);
    if s.suggestionType == SuggestionTypeEdit then
      if "change_list" in s.payload then
        Ok(base.(payload := stored.payload["change_list" := s.payload["change_list"]]))
      else Err(MissingKey("change_list"))
    else if s.suggestionType == SuggestionTypeAdd then
      if "entity_data" in s.payload then
        Ok(base.(payload := stored.payload["entity_data" := s.payload["entity_data"]]))
      else Err(MissingKey("entity_data"))
    else
      Ok(base)
  }

  /** Whether validate_suggestion examines the suggestion at all: only an edit
      of exploration state content that is still in review. */
  predicate IsCheckedByValidator(s: Suggestion)
  {
    s.status == InReview && s.suggestionType == SuggestionTypeEdit
    && s.suggestionSubType == SuggestionEditStateContent
  }

  /** payload['change_list']['state_name']: the state an edit suggestion
      targets. */
  function TargetState(payload: Dict): (r: Result<Json>)
    ensures r.Ok? <==> "change_list" in payload && payload["change_list"].JObject?
                       && "state_name" in payload["change_list"].fields
    ensures r.Ok? ==> r.value == payload["change_list"].fields["state_name"]
  {
    if "change_list" !in payload then Err(MissingKey("change_list"))
    else match payload["change_list"]
      case JObject(changes) =>
        if "state_name" in changes then Ok(changes["state_name"]) else Err(MissingKey("state_name"))
      case _ => Err(NotADict("change_list"))
  }

  /** The decision of validate_suggestion, given `statesOf`, the state names
      of the exploration with a given id: false exactly when the suggestion is
      checked and the state it targets is not among its exploration's states. */
  function ValidationCheck(s: Suggestion, statesOf: Json -> set<Json>): (r: Result<bool>)
    ensures !IsCheckedByValidator(s) ==> r == Ok(true)
    ensures r == Ok(false) <==>
      && IsCheckedByValidator(s)
      && "entity_id" in s.payload && TargetState(s.payload).Ok?
      && TargetState(s.payload).value !in statesOf(s.payload["entity_id"])
    ensures r == Ok(true) <==>
      || !IsCheckedByValidator(s)
      || ("entity_id" in s.payload && TargetState(s.payload).Ok?
          && TargetState(s.payload).value in statesOf(s.payload["entity_id"]))
    ensures r.Err? <==> IsCheckedByValidator(s) && ("entity_id" !in s.payload || TargetState(s.payload).Err?)
    ensures r.Err? && "entity_id" !in s.payload ==> r.error == MissingKey("entity_id")
    ensures r.Err? && "entity_id" in s.payload ==> r.error == TargetState(s.payload).error
  {
    if IsCheckedByValidator(s) then
      if "entity_id" !in s.payload then Err(MissingKey("entity_id"))
      else
        var states := statesOf(s.payload["entity_id"]);
        match TargetState(s.payload)
        case Err(e) => Err(e)
        case Ok(state) => Ok(state in states)
    else
      Ok(true)
  }

  // ---------------------------------------------------------------------
  // The operations, as steps on the store's value

  /** The thread id a new suggestion gets: a fresh thread only for an edit of
      an exploration, "" otherwise. */
  function NewThreadId(suggestionType: string, entityType: string, freshThreadId: string): string
  {
    if entityType == EntityTypeExploration && suggestionType == SuggestionTypeEdit then freshThreadId else ""
  }

  /** create_suggestion; `freshThreadId` is the id the feedback service would
      give a new thread. */
  function CreateStep(
    st: ServiceState, suggestionType: string, entityType: string, subType: string,
    customizationArgs: Dict, authorId: string, payload: Dict, description: string,
    reviewerId: string, assignedReviewerId: string, freshThreadId: string): (r: Result<ServiceState>)
    ensures r.Err? <==> !ValidatePayload(suggestionType, payload)
    ensures r.Err? ==> r.error == InvalidPayload
    ensures r.Ok? ==>
      var record := Suggestion(suggestionType, entityType, subType, InReview, customizationArgs,
                               authorId, reviewerId, NewThreadId(suggestionType, entityType, freshThreadId),
                               assignedReviewerId, payload);
      KeyOf(record).Ok? && r.value.suggestions == st.suggestions[KeyOf(record).value := record]
    ensures r.Ok? && entityType == EntityTypeExploration && suggestionType == SuggestionTypeEdit ==>
      r.value.threads == st.threads + [Thread(freshThreadId, payload["entity_id"], authorId,
                                              description, DefaultSuggestionThreadSubject, true)]
    ensures r.Ok? && !(entityType == EntityTypeExploration && suggestionType == SuggestionTypeEdit) ==>
      r.value.threads == st.threads
    ensures r.Ok? ==> r.value.messages == st.messages
  {
    if ValidatePayload(suggestionType, payload) then
      var threadId := NewThreadId(suggestionType, entityType, freshThreadId);
      var threads :=
        if entityType == EntityTypeExploration && suggestionType == SuggestionTypeEdit then
          st.threads + [Thread(freshThreadId, payload["entity_id"], authorId,
                               description, DefaultSuggestionThreadSubject, true)]
        else st.threads;
      var record := Suggestion(suggestionType, entityType, subType, InReview, customizationArgs,
                               authorId, reviewerId, threadId, assignedReviewerId, payload);
      Ok(st.(suggestions := st.suggestions[KeyOf(record).value := record], threads := threads))
    else
      Err(InvalidPayload)
  }

  /** get_suggestion: the record stored under the key, if any. */
  function Lookup(st: ServiceState, suggestionType: string, entityType: string, threadId: string,
                  entityId: Json): (r: Option<Suggestion>)
    ensures r.Some? <==> Key(suggestionType, entityType, threadId, entityId) in st.suggestions
    ensures r.Some? ==> r.value == st.suggestions[Key(suggestionType, entityType, threadId, entityId)]
  {
    var k := Key(suggestionType, entityType, threadId, entityId);
    if k in st.suggestions then Some(st.suggestions[k]) else None
  }

  /** update_suggestion, as its docstring intends: the record stored under the
      suggestion's key receives the editable fields of `s`. */
  function UpdateStep(st: ServiceState, s: Suggestion): (r: Result<ServiceState>)
    ensures KeyOf(s).Err? ==> r == Err(KeyOf(s).error)
    ensures KeyOf(s).Ok? && KeyOf(s).value !in st.suggestions ==> r == Err(SuggestionNotFound)
    ensures KeyOf(s).Ok? && KeyOf(s).value in st.suggestions ==>
      var k := KeyOf(s).value;
      match UpdatedRecord(st.suggestions[k], s)
      case Ok(record) => r == Ok(st.(suggestions := st.suggestions[k := record]))
      case Err(e) => r == Err(e)
  {
    match KeyOf(s)
    case Err(e) => Err(e)
    case Ok(k) =>
      if k !in st.suggestions then Err(SuggestionNotFound)
      else
        match UpdatedRecord(st.suggestions[k], s)
        case Err(e) => Err(e)
        case Ok(record) => Ok(st.(suggestions := st.suggestions[k := record]))
  }

  /** validate_suggestion with the stored suggestion, rather than an unbound
      name, supplying the thread: a checked suggestion whose target state is
      gone is set to invalid in the caller's object and in the store, and the
      reviewer posts a message to its thread. */
  function ValidateStep(st: ServiceState, s: Suggestion, reviewerId: string,
                        statesOf: Json -> set<Json>): (r: ValidateOutcome)
    ensures r.result == Ok(true) ==> r.suggestion == s && r.state == st
    ensures r.result == Ok(false) ==>
      && ValidationCheck(s, statesOf) == Ok(false)
      && r.suggestion == s.(status := Invalid)
      && UpdateStep(st, r.suggestion).Ok?
      && r.state.suggestions == UpdateStep(st, r.suggestion).value.suggestions
      && r.state.threads == st.threads
      && r.state.messages == st.messages + [PostedMessage(s.threadId, reviewerId)]
    ensures r.result.Err? ==> r.state == st
    ensures r.result.Ok? <==> ValidationCheck(s, statesOf).Ok? &&
                              (ValidationCheck(s, statesOf) == Ok(false) ==> UpdateStep(st, s.(status := Invalid)).Ok?)
    ensures ValidationCheck(s, statesOf) == Ok(true) ==> r.result == Ok(true)
    ensures ValidationCheck(s, statesOf) == Ok(false) && UpdateStep(st, s.(status := Invalid)).Ok? ==>
              r.result == Ok(false)
    ensures ValidationCheck(s, statesOf).Err? ==> r.result == Err(ValidationCheck(s, statesOf).error)
    ensures ValidationCheck(s, statesOf) == Ok(false) && UpdateStep(st, s.(status := Invalid)).Err? ==>
              r.result == Err(UpdateStep(st, s.(status := Invalid)).error)
  {
    match ValidationCheck(s, statesOf)
    case Err(e) => ValidateOutcome(Err(e), s, st)
    case Ok(valid) =>
      if valid then ValidateOutcome(Ok(true), s, st)
      else
        var invalidated := s.(status := Invalid);
        match UpdateStep(st, invalidated)
        case Err(e) => ValidateOutcome(Err(e), invalidated, st)
        case Ok(updated) =>
          ValidateOutcome(Ok(false), invalidated,
                          updated.(messages := updated.messages + [PostedMessage(s.threadId, reviewerId)]))
  }

  // ---------------------------------------------------------------------
  // Properties of the lifecycle

  /** A suggestion that was created can be fetched back by its type, entity
      type, thread id and entity id, with exactly the supplied fields, in
      review; and it is not yet handled. */
  lemma CreateThenGet(
    st: ServiceState, suggestionType: string, entityType: string, subType: string,
    customizationArgs: Dict, authorId: string, payload: Dict, description: string,
    reviewerId: string, assignedReviewerId: string, freshThreadId: string)
    requires ValidatePayload(suggestionType, payload)
    ensures
      var r := CreateStep(st, suggestionType, entityType, subType, customizationArgs, authorId,
                          payload, description, reviewerId, assignedReviewerId, freshThreadId);
      var threadId := NewThreadId(suggestionType, entityType, freshThreadId);
      var entityId := if suggestionType == SuggestionTypeEdit then payload["entity_id"] else JString("");
      var got := Lookup(r.value, suggestionType, entityType, threadId, entityId);
      && r.Ok?
      && got == Some(Suggestion(suggestionType, entityType, subType, InReview, customizationArgs,
                                authorId, reviewerId, threadId, assignedReviewerId, payload))
      && !IsHandled(got.value)
  {
  }

  /** validate_suggestion leaves a handled suggestion, and the store, as they
      are and reports it valid. */
  lemma ValidateKeepsHandled(st: ServiceState, s: Suggestion, reviewerId: string, statesOf: Json -> set<Json>)
    requires IsHandled(s)
    ensures ValidateStep(st, s, reviewerId, statesOf) == ValidateOutcome(Ok(true), s, st)
  {
  }

  /** The only status change validate_suggestion makes to a stored record is
      review to invalid, and only for the record under the suggestion's key. */
  lemma ValidateOnlyInvalidates(st: ServiceState, s: Suggestion, reviewerId: string,
                                statesOf: Json -> set<Json>, k: Key)
    requires k in st.suggestions
    ensures var r := ValidateStep(st, s, reviewerId, statesOf);
      && k in r.state.suggestions
      && (r.state.suggestions[k].status != st.suggestions[k].status ==>
            s.status == InReview && KeyOf(s) == Ok(k) && r.state.suggestions[k].status == Invalid)
  {
    var r := ValidateStep(st, s, reviewerId, statesOf);
    if r.result == Ok(false) {
      var u := UpdateStep(st, s.(status := Invalid));
      assert KeyOf(s.(status := Invalid)) == KeyOf(s);
      var key := KeyOf(s).value;
      assert UpdatedRecord(st.suggestions[key], s.(status := Invalid)).Ok?;
    }
  }

  /** An update changes no record but the one under the suggestion's key. */
  lemma UpdateTouchesOneRecord(st: ServiceState, s: Suggestion, k: Key)
    requires UpdateStep(st, s).Ok?
    requires k in st.suggestions && KeyOf(s) != Ok(k)
    ensures k in UpdateStep(st, s).value.suggestions
    ensures UpdateStep(st, s).value.suggestions[k] == st.suggestions[k]
    ensures UpdateStep(st, s).value.suggestions.Keys == st.suggestions.Keys
    ensures UpdateStep(st, s).value.threads == st.threads && UpdateStep(st, s).value.messages == st.messages
  {
  }

  // ---------------------------------------------------------------------
  // The service as written, where it fails

  /** update_suggestion as written: it binds the instance id (a str) where the
      stored model was meant, so the first field assignment raises, after the
      payload's entity_id has been read for an edit suggestion. */
  function UpdateStepAsWritten(st: ServiceState, s: Suggestion): (r: Result<ServiceState>)
    ensures r.Err?
    ensures KeyOf(s).Err? ==> r == Err(MissingKey("entity_id"))
    ensures KeyOf(s).Ok? ==> r == Err(AttributeOnString)
  {
    match KeyOf(s)
    case Err(e) => Err(e)
    case Ok(_) => Err(AttributeOnString)
  }

  /** validate_suggestion as written: the status is assigned in the caller's
      object, then update_suggestion raises, so the unbound suggestion_model
      after it is never reached. */
  function ValidateStepAsWritten(st: ServiceState, s: Suggestion, reviewerId: string,
                                 statesOf: Json -> set<Json>): (r: ValidateOutcome)
    ensures r.state == st
    ensures ValidationCheck(s, statesOf) == Ok(false) ==> r.result.Err? && r.suggestion == s.(status := Invalid)
  {
    match ValidationCheck(s, statesOf)
    case Err(e) => ValidateOutcome(Err(e), s, st)
    case Ok(valid) =>
      if valid then ValidateOutcome(Ok(true), s, st)
      else
        var invalidated := s.(status := Invalid);
        match UpdateStepAsWritten(st, invalidated)
        case Err(e) => ValidateOutcome(Err(e), invalidated, st)
        // Unreachable, since the update as written always raises; it records
        // the NameError the unbound suggestion_model would raise next.
        case Ok(_) => ValidateOutcome(Err(UndefinedName), invalidated, st)
  }

  /** A stored edit suggestion whose status a reviewer changes: the intended
      update persists the new status, the update as written raises. */
  lemma UpdateAsWrittenLosesStatus()
    ensures
      var stored := ExampleEdit(InReview);
      var st := ServiceState(map[KeyOf(stored).value := stored], [], []);
      var changed := stored.(status := Accepted);
      && UpdateStepAsWritten(st, changed) == Err(AttributeOnString)
      && UpdateStep(st, changed).Ok?
      && UpdateStep(st, changed).value.suggestions[KeyOf(stored).value] == changed
  {
    var stored := ExampleEdit(InReview);
    var changed := stored.(status := Accepted);
    assert KeyOf(changed) == KeyOf(stored);
    assert stored.payload["change_list" := changed.payload["change_list"]] == stored.payload;
  }

  /** An edit suggestion in review that targets a state its exploration does
      not have: the intended validator stores it as invalid and posts one
      message; the validator as written raises and stores nothing. */
  lemma ValidateAsWrittenNeverPersists()
    ensures
      var s := ExampleEdit(InReview);
      var st := ServiceState(map[KeyOf(s).value := s], [], []);
      var statesOf := (id: Json) => {JString("state_1"), JString("state_2")};
      var written := ValidateStepAsWritten(st, s, "reviewer", statesOf);
      var intended := ValidateStep(st, s, "reviewer", statesOf);
      && written.result.Err? && written.state == st
      && intended.result == Ok(false)
      && intended.state.suggestions[KeyOf(s).value].status == Invalid
      && intended.state.messages == [PostedMessage(s.threadId, "reviewer")]
  {
    var s := ExampleEdit(InReview);
    var statesOf := (id: Json) => {JString("state_1"), JString("state_2")};
    assert TargetState(s.payload) == Ok(JString("state_unknown"));
    assert ValidationCheck(s, statesOf) == Ok(false);
    assert KeyOf(s.(status := Invalid)) == KeyOf(s);
  }

  /** The edit suggestion of the service's tests, targeting "state_unknown". */
  function ExampleEdit(status: Status): Suggestion
  {
    Suggestion(SuggestionTypeEdit, EntityTypeExploration, SuggestionEditStateContent, status,
               map["contribution_type" := JString("translation"), "contribution_language" := JString("English")],
               "author", "reviewer", "thread_1", "assigned_reviewer",
               map["entity_id" := JString("exp1"), "entity_version_number" := JInt(1),
                   "change_list" := JObject(map["state_name" := JString("state_unknown")])])
  }

  // ---------------------------------------------------------------------
  // The datastore

  class SuggestionService {
    var suggestions: map<Key, Suggestion>
    var threads: seq<Thread>
    var messages: seq<PostedMessage>

    function State(): ServiceState
      reads this
    {
      ServiceState(suggestions, threads, messages)
    }

    constructor ()
      ensures State() == ServiceState(map[], [], [])
    {
      suggestions := map[];
      threads := [];
      messages := [];
    }

    method CreateSuggestion(
      suggestionType: string, entityType: string, subType: string, customizationArgs: Dict,
      authorId: string, payload: Dict, description: string, reviewerId: string,
      assignedReviewerId: string, freshThreadId: string) returns (r: Outcome)
      modifies this
      ensures var step := CreateStep(old(State()), suggestionType, entityType, subType, customizationArgs,
                                     authorId, payload, description, reviewerId, assignedReviewerId,
                                     freshThreadId);
        && (r.Pass? <==> step.Ok?)
        && (step.Ok? ==> State() == step.value)
        && (step.Err? ==> r == Fail(step.error) && State() == old(State()))
    {
      if !ValidatePayload(suggestionType, payload) {
        return Fail(InvalidPayload);
      }
      var threadId := "";
      if entityType == EntityTypeExploration && suggestionType == SuggestionTypeEdit {
        threadId := freshThreadId;
        threads := threads + [Thread(freshThreadId, payload["entity_id"], authorId,
                                     description, DefaultSuggestionThreadSubject, true)];
      }
      var record := Suggestion(suggestionType, entityType, subType, InReview, customizationArgs,
                               authorId, reviewerId, threadId, assignedReviewerId, payload);
      var key := KeyOf(record);
      suggestions := suggestions[key.value := record];
      r := Pass;
    }

    method GetSuggestion(suggestionType: string, entityType: string, threadId: string, entityId: Json)
      returns (r: Option<Suggestion>)
      ensures r == Lookup(State(), suggestionType, entityType, threadId, entityId)
    {
      var k := Key(suggestionType, entityType, threadId, entityId);
      if k in suggestions {
        r := Some(suggestions[k]);
      } else {
        r := None;
      }
    }

    method UpdateSuggestion(s: Suggestion) returns (r: Outcome)
      modifies this
      ensures var step := UpdateStep(old(State()), s);
        && (r.Pass? <==> step.Ok?)
        && (step.Ok? ==> State() == step.value)
        && (step.Err? ==> r == Fail(step.error) && State() == old(State()))
    {
      var key := KeyOf(s);
      if key.Err? {
        return Fail(key.error);
      }
      if key.value !in suggestions {
        return Fail(SuggestionNotFound);
      }
      var record := UpdatedRecord(suggestions[key.value], s);
      if record.Err? {
        return Fail(record.error);
      }
      suggestions := suggestions[key.value := record.value];
      r := Pass;
    }

    method ValidateSuggestion(s: Suggestion, reviewerId: string, statesOf: Json -> set<Json>)
      returns (r: Result<bool>, after: Suggestion)
      modifies this
      ensures var step := ValidateStep(old(State()), s, reviewerId, statesOf);
        r == step.result && after == step.suggestion && State() == step.state
    {
      after := s;
      var check := ValidationCheck(s, statesOf);
      if check.Err? {
        return Err(check.error), after;
      }
      if !check.value {
        after := after.(status := Invalid);
        var updated := UpdateSuggestion(after);
        if updated.Fail? {
          return Err(updated.error), after;
        }
        messages := messages + [PostedMessage(s.threadId, reviewerId)];
        return Ok(false), after;
      }
      r := Ok(true);
    }
  }

  /** The creation scenario of the service's tests: an edit of an exploration
      that is created, fetched back by its key and projected to a dict. */
  method CreateThenGetScenario(username: string -> string) returns (d: Dict)
    ensures d == map[
      "suggestion_type" := JString("edit"),
      "entity_type" := JString("exploration"),
      "suggestion_sub_type" := JString("edit_exploration_state_content"),
      "status" := JString("review"),
      "customization_args" := JObject(TestCustomizationArgs),
      "author_name" := JString(username("author_id")),
      "reviewer_name" := JString(username("reviewer_id")),
      "thread_id" := JString("thread_1"),
      "assigned_reviewer_name" := JString(username("assigned_reviewer_id")),
      "payload" := JObject(TestPayload)]
  {
    var service := new SuggestionService();
    var created := service.CreateSuggestion(SuggestionTypeEdit, EntityTypeExploration, SuggestionEditStateContent,
                                            TestCustomizationArgs, "author_id", TestPayload, "test description",
                                            "reviewer_id", "assigned_reviewer_id", "thread_1");
    var got := service.GetSuggestion(SuggestionTypeEdit, EntityTypeExploration, "thread_1", JString("exp1"));
    d := ToDict(got.value, username);
  }

  const TestCustomizationArgs: Dict :=
    map["contribution_type" := JString("translation"), "contribution_language" := JString("English")]

  const TestPayload: Dict :=
    map["entity_id" := JString("exp1"), "entity_version_number" := JInt(1), "change_list" := JObject(map[])]
}
