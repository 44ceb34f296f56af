# Suggestion lifecycle, contribution scoring and the active translation language

This project models, in Dafny, four parts of a content-authoring platform's
suggestion feature:

- **The suggestion service** (`suggestion_services.dfy`). It checks the shape
  of a suggestion's payload. It creates a suggestion in review, with a backing
  feedback thread only for an edit of an exploration. It fetches a suggestion
  by its composite key. It updates the editable fields of a stored suggestion.
  It marks a suggestion invalid when the exploration state it edits no longer
  exists. It tells whether a suggestion has been handled. The datastore is the
  class `SuggestionService`. Each method of the class is specified by a step
  function on `ServiceState`, the value the store holds. The lemmas about the
  lifecycle are stated on those step functions.
- **The suggestion record** (`suggestion_domain.dfy`). This is the ten-field
  domain object, with its username getters and its dict projection `to_dict`.
- **The contribution-scoring one-off job** (`suggestion_jobs.dfy`). The map
  step emits (score category, author) for each accepted suggestion. The
  shuffle groups the emitted pairs by category. The reduce step counts each
  author's occurrences. The result is proved equal to a direct count of
  accepted suggestions per (author, category). It is also proved to ignore
  suggestions that are not accepted, to be independent of visiting order, and
  to sum to the number of accepted suggestions.
- **The translation tab's language selector** (`translation_language.dfy`).
  This is a class with one nullable active code, a fixed list of allowed codes
  and a counter of language-changed events.

`suggestion_models.dfy` holds the storage schema's constants: the four
statuses and the strings they are stored as. `values.dfy` holds `Option` and
a JSON value type for payloads and dicts.

Collaborators outside this code are parameters:
- the username service is `username: string -> string`;
- the exploration lookup is `statesOf: Json -> set<Json>`, from an
  exploration id to its state names;
- the id of a newly created feedback thread is `freshThreadId`;
- the language utility service is the code list and `describe` function given
  to the selector's constructor.

## Model

| member | source | states |
|---|---|---|
| SuggestionModels.StatusFromName | core/storage/suggestion/gae_models.py:47-57 | Only the four stored status strings read back as a status, and each reads back as the status stored under that name |
| SuggestionModels.StatusNameRoundTrip | core/storage/suggestion/gae_models.py:47-57 | Every status reads back as itself from its stored string |
| SuggestionModels.StatusNameInjective | core/storage/suggestion/gae_models.py:47-57 | Distinct statuses are stored under distinct strings |
| SuggestionDomain.AuthorName | core/domain/suggestion_domain.py:69-75 | The author's username |
| SuggestionDomain.ReviewerName | core/domain/suggestion_domain.py:77-85 | "" with no lookup when no reviewer id is set; otherwise the reviewer's username |
| SuggestionDomain.AssignedReviewerName | core/domain/suggestion_domain.py:87-93 | The assigned reviewer's username, looked up even when no reviewer is assigned |
| SuggestionDomain.ToDict | core/domain/suggestion_domain.py:95-112 | Exactly the ten keys. Type, entity type, sub-type, status (as its stored string), customization args, thread id and payload are copied verbatim. Author, reviewer and assigned reviewer appear only as usernames |
| SuggestionDomain.ToDictDeterminesCopiedFields | core/domain/suggestion_domain.py:95-112 | Two suggestions with the same dict agree on all seven verbatim fields, so the dict loses none of them |
| SuggestionDomain.ToDictSeesOnlyUsernames | core/domain/suggestion_domain.py:69-112 | The dict depends on the three user ids only through their usernames and whether a reviewer is set |
| SuggestionServices.ValidatePayload | core/domain/suggestion_services.py:28-48 | A payload is valid iff it holds every required key of its type: entity_type and entity_data for add; entity_id, entity_version_number and change_list for edit. Any other type is always valid |
| SuggestionServices.IsHandled | core/domain/suggestion_services.py:192-202 | Handled iff the status is accepted, invalid or rejected, i.e. it has left review |
| SuggestionServices.KeyOf | core/domain/suggestion_services.py:137-144 | An edit suggestion is keyed by its payload's entity_id, and raises a KeyError without one. Any other suggestion is keyed by "". Type, entity type and thread id are always part of the key |
| SuggestionServices.UpdatedRecord | core/domain/suggestion_services.py:146-155 | The update takes status, reviewer and assigned reviewer from the suggestion, plus its change_list (edit) or entity_data (add). Every other field and payload key of the stored record is unchanged. It fails iff that payload key is missing |
| SuggestionServices.TargetState | core/domain/suggestion_services.py:181 | The targeted state is change_list's state_name. It is an error when change_list is missing, is not a dict, or lacks state_name |
| SuggestionServices.ValidationCheck | core/domain/suggestion_services.py:172-182 | Valid iff the suggestion is not an in-review edit of state content, or its target state is among its exploration's states. Invalid iff such an edit targets a state that is not there. It raises iff such an edit lacks entity_id (a KeyError), or its change_list is missing, is not a dict or lacks state_name |
| SuggestionServices.CreateStep | core/domain/suggestion_services.py:77-91 | An invalid payload raises and changes nothing. Otherwise the record is stored under its key with exactly the given fields and status in review. A thread is created only for an exploration edit, and the thread id is "" otherwise |
| SuggestionServices.Lookup | core/domain/suggestion_services.py:110-129 | The record under (type, entity type, thread id, entity id), or None when nothing is stored there |
| SuggestionServices.UpdateStep | core/domain/suggestion_services.py:131-156 | The record under the suggestion's key is replaced by UpdatedRecord. A missing key, a missing record or a missing payload key is an error and changes nothing |
| SuggestionServices.ValidateStep | core/domain/suggestion_services.py:172-190 | A valid suggestion returns True and nothing changes. An invalid one whose stored record can be updated returns False. Its caller's object and stored record become invalid, and the reviewer posts one message to its thread. A failing check or update returns that error and leaves the store unchanged |
| SuggestionServices.CreateThenGet | core/domain/suggestion_services_test.py:81-108 | After a successful create, get by (type, entity type, thread id, entity id) returns exactly the supplied fields, in review and not handled |
| SuggestionServices.ValidateKeepsHandled | core/domain/suggestion_services.py:172-190 | A handled suggestion is reported valid, and neither it nor the store changes |
| SuggestionServices.ValidateOnlyInvalidates | core/domain/suggestion_services.py:172-190 | The only status change validation makes to a stored record is to invalid. It happens only to the record under the suggestion's key, and only when the suggestion was in review |
| SuggestionServices.UpdateTouchesOneRecord | core/domain/suggestion_services.py:131-156 | An update leaves every other record, the set of keys, the threads and the messages unchanged |
| SuggestionServices.UpdateStepAsWritten | core/domain/suggestion_services.py:137-156 | As written, every call raises: a KeyError for an edit without entity_id, otherwise an AttributeError on the str instance id |
| SuggestionServices.ValidateStepAsWritten | core/domain/suggestion_services.py:172-190 | As written, the store never changes. A suggestion found invalid ends in an error, with only the caller's object set to invalid |
| SuggestionServices.UpdateAsWrittenLosesStatus | core/domain/suggestion_services.py:137-156 | For a stored edit whose status a reviewer changes, the code as written raises while the intended update persists the change |
| SuggestionServices.ValidateAsWrittenNeverPersists | core/domain/suggestion_services.py:183-189 | For an in-review edit whose state is gone, the code as written raises and stores nothing, while the intended validator stores invalid and posts one message |
| SuggestionServices.SuggestionService.CreateSuggestion | core/domain/suggestion_services.py:51-91 | The store's new value is CreateStep's. On failure it returns the error and changes nothing |
| SuggestionServices.SuggestionService.GetSuggestion | core/domain/suggestion_services.py:93-129 | Returns Lookup of the current store |
| SuggestionServices.SuggestionService.UpdateSuggestion | core/domain/suggestion_services.py:131-156 | The store's new value is UpdateStep's. On failure it returns the error and changes nothing |
| SuggestionServices.SuggestionService.ValidateSuggestion | core/domain/suggestion_services.py:158-190 | Verdict, caller's suggestion and new store are ValidateStep's. So an in-review edit whose target state is gone returns False, is stored as invalid and gets one message, and every other checkable suggestion returns True and changes nothing |
| SuggestionServices.CreateThenGetScenario | core/domain/suggestion_services_test.py:81-108 | Creating the test's edit suggestion and getting it back gives exactly the dict the test expects |
| SuggestionJobs.MapStep | core/domain/suggestion_jobs_one_off.py:33-36 | One pair (score category, author) for an accepted suggestion, and nothing for any other status |
| SuggestionJobs.Emitted | core/domain/suggestion_jobs_one_off.py:29-36 | Running the map step over every stored suggestion gives at most one pair per suggestion, and each pair comes from an accepted suggestion |
| SuggestionJobs.Shuffle | core/domain/suggestion_jobs_one_off.py:33-39 | The values grouped under a category key are exactly the authors emitted with that category, and there are no more of them than pairs |
| SuggestionJobs.ReduceCount | core/domain/suggestion_jobs_one_off.py:38-39 | An author's count under a key is at most the number of values, and is positive iff the author is among them |
| SuggestionJobs.Scores | core/domain/suggestion_jobs_one_off.py:29-39 | A pair (author, category) has a score iff (category, author) was emitted, and every score is positive and at most the number of suggestions |
| SuggestionJobs.EmittedLength | core/domain/suggestion_jobs_one_off.py:33-36 | The map step emits exactly as many pairs as there are accepted suggestions |
| SuggestionJobs.ReduceCountsAccepted | core/domain/suggestion_jobs_one_off_test.py:81-95 | After shuffle and reduce, an author's score in a category is the number of accepted suggestions with that author and category |
| SuggestionJobs.EmittedIffAccepted | core/domain/suggestion_jobs_one_off.py:33-36 | A (category, author) pair is emitted iff some accepted suggestion carries it |
| SuggestionJobs.ScoresAreAcceptedCounts | core/domain/suggestion_jobs_one_off_test.py:81-95 | A pair has a score iff it has an accepted suggestion, and its score is the number of them |
| SuggestionJobs.ScoresIgnoreUnaccepted | core/domain/suggestion_jobs_one_off_test.py:44-95 | Dropping every suggestion that is in review, invalid or rejected leaves every score unchanged |
| SuggestionJobs.ScoresOrderIndependent | core/domain/suggestion_jobs_one_off.py:29-36 | Any permutation of the suggestions gives the same scores |
| SuggestionJobs.TotalScoreIsAcceptedCount | core/domain/suggestion_jobs_one_off_test.py:44-95 | The scores summed over all (author, category) pairs equal the number of accepted suggestions |
| SuggestionJobs.TestScenarioScores | core/domain/suggestion_jobs_one_off_test.py:44-95 | For the test's seven suggestions the scores are 1, 1, 3 and 1, and they total 6 |
| TranslationLanguage.TranslationLanguageService.constructor | core/templates/pages/exploration-editor-page/translation-tab/services/translation-language.service.ts:34-37 | The active code starts null. The allowed codes are the voiceover codes, fixed for the object's life. No event or error has been issued |
| TranslationLanguage.TranslationLanguageService.GetActiveLanguageCode | core/templates/pages/exploration-editor-page/translation-tab/services/translation-language.service.ts:39-41 | Returns the active code, which is null or one of the allowed codes |
| TranslationLanguage.TranslationLanguageService.SetActiveLanguageCode | core/templates/pages/exploration-editor-page/translation-tab/services/translation-language.service.ts:43-51 | An allowed code becomes active and the change event fires exactly once. Any other code adds one error to the log, and the code and the event count stay as they were |
| TranslationLanguage.TranslationLanguageService.GetActiveLanguageDescription | core/templates/pages/exploration-editor-page/translation-tab/services/translation-language.service.ts:53-59 | null when no code (or the empty code) is active; otherwise the description of the active code |
| TranslationLanguage.SelectLanguage | core/templates/pages/exploration-editor-page/translation-tab/services/translation-language.service.ts:34-51 | A new service has no active code. An unknown code is refused. An allowed code is then active, after exactly one event |

## Left out

- `accept_suggestion` (core/domain/suggestion_services.py:204-218): its body
  is `pass`. The model gives it no behaviour.
- Some behaviour of the datastore is not shown: how `SuggestionModel.create`
  and `get_instance_id` build the id, and what happens when the id is already
  taken. The model keys the store by `Key` and derives it as
  `update_suggestion` does. A create under a key already in use overwrites
  the stored record.
- The schema's `choices` are enforced by the storage framework. Suggestion
  type, entity type and sub-type stay plain strings with named constants,
  because the service compares strings and accepts any of them.
- A reviewer id of None is folded into "": the getters treat both as unset.
- The username service is a total function, so a lookup that finds no user
  is not modelled.
- The exploration lookup is a total function from id to state names, so the
  error raised for an exploration that does not exist is not modelled.
- validate_suggestion tests `state not in` directly on the object the
  exploration lookup returns. That object is not part of this model. The
  model reads it as the exploration's set of state names.
- A feedback thread is modelled only as the record the service asks to be
  created. Its messages, read state, email notification and subject
  abbreviation are out of scope: the feedback service is not part of this
  model.
- The message `validate_suggestion` posts is recorded as (thread id,
  reviewer). As written, its arguments do not fit the feedback service's
  message signature.
- Not every suggestion gets a thread. The code creates one only for an edit
  of an exploration (core/domain/suggestion_services.py:78-84), and the model
  follows the code.
- The thread-creation helper's signature is not part of this model. `Thread`
  records the arguments in the positions create_suggestion passes them: the
  description as the subject, then the default subject string as the first
  message's text. The state name it passes (None) is not recorded.
- Default arguments are not modelled: create_suggestion's `reviewer_id=""`
  and `assigned_reviewer_id=""`, and get_suggestion's `entity_id=''`. The
  model takes every argument explicitly. A caller passes "" (or
  `JString("")`) to get the default.
- The scoring job framework is not modelled: the task queue, the map-reduce
  runner and the writing of `UserContributionScoringModel` records. The
  job's `reduce` is truncated in the source. It is modelled by the count its
  test asserts.
- `ScoringRecord` keeps only the three fields the job's map reads from
  `GeneralSuggestionModel` (status, score category and author id), plus the
  suggestion id, which only tells records apart. That model is not part of
  this model.
- The job class is declared with `def` where `class` is evidently meant.
  The model gives the intended map and count.
- `SuggestionJobs.TestScenarioScores`: states the four scores the test
  asserts and their total, but not that no other pair has a score.
  `ScoresAreAcceptedCounts` gives that for any input.
- The language-changed event's subscribers and the `onActiveLanguageChanged`
  getter are left out. The event is modelled as a counter of emissions, and
  the logger as a list of messages.
- The Protractor end-to-end files, the Angular spec files and the feedback
  tests are left out. Their implementations are not part of this model.

## Findings

| source | as written | input that shows it | evidently intended | confidence | as-written member | corrected member |
|---|---|---|---|---|---|---|
| core/domain/suggestion_services.py:137-156 | `suggestion_model` is bound to the instance id that `get_instance_id` returns (a str). Every call raises and nothing is saved: a KeyError at :140 for an edit without entity_id, otherwise an AttributeError at :146 on the str instance id. For a suggestion that is not an edit, the AttributeError assumes the three-argument `get_instance_id` call at :142-144 succeeds; that method's signature is not part of this model | the stored edit suggestion of `UpdateAsWrittenLosesStatus` with its status changed to accepted | fetch the stored model with that id, copy the editable fields onto it and save it | high; not executed | SuggestionServices.UpdateStepAsWritten | SuggestionServices.UpdateStep |
| core/domain/suggestion_services.py:183-189 | on the invalid path, `update_suggestion` raises first (the row above), so the unbound `suggestion_model` on the following lines is never reached; the suggestion is never stored as invalid and no message is posted | the in-review edit of `ValidateAsWrittenNeverPersists`, whose target state `state_unknown` is not among `state_1` and `state_2` | persist the invalid status, then post the reviewer's message to the suggestion's own thread, and return False | high; not executed | SuggestionServices.ValidateStepAsWritten | SuggestionServices.ValidateStep |
