# SLC AI Tutor: a Dafny model of its decision logic

The SLC AI Tutor is a training application for social-care learners. A learner chats with a
simulated care-home resident played by a language model served through OpenWebUI. During the
chat the learner may take scripted actions, ask a tutor model for help on the current turn,
and finally have a third model grade the whole conversation. The application has three parts:

- a Django REST backend that stores chats and notes, guards the chat operations and runs each
  language-model call as a background job;
- a React client that keeps the session tokens, renews them, derives the chat page's state and
  builds the grading prompt;
- the Python helper scripts of the development workflow, which parse planning documents,
  dependency lists and `git status`, rewrite `.env` files and post test results to GitHub.

This project models the logic of all three that decides rather than calls out.

- **Backend:** page arithmetic, the request guards, token lookup, the message-list check, the
  chat and note endpoints over tables keyed by id, the three background job bodies and the
  OpenWebUI client's request building and reply handling.
- **Client:** the preferences store, the re-authenticating base query, the route guard, login
  validation, the chat page and sidebar derivations, the user search, the dashboard grouping,
  error extraction, relative times, the avatar table and the message-history converter.
- **Scripts:** the parsers and rewriters listed below.

Everything the code hands to the outside world is an input of the model. This covers the
database, HTTP, the language models, GitHub, `git`, JSON encoding, the clock and the user's
typed answers. Each is given as a value or as a function from request to reply.

Where the source changes state in place, the model does too:

- the database tables are a class whose maps the endpoints and jobs update;
- the preferences store, the route guard, the login page and the chat page are classes with the
  fields their reducers and handlers assign;
- loops that build lists become methods with loop invariants, proved against a function that
  states the result.

The properties the source promises are `ensures` clauses or lemmas over those functions. They
include:

- the pagination bounds;
- that a refused request leaves every table unchanged;
- the help ledger holding no pending entry for the turn once its job ends;
- the round trip of the message-history converter;
- a 401 leading to at most one refresh and one repeated fetch;
- the `.env` rewrites replacing exactly the intended lines.

Modules follow the source files: `backend_*` for backend/api, `frontend_*` for frontend/src and
`script_*` for scripts. Five shared modules sit beside them: `Strs` (Python and JavaScript string
methods), `Seqs` (Python slicing), `Ordering` (`order_by` descending), `Json` and `Http`, plus
`Wrappers` for the Option and Result types.

## Model

| member | source | states |
|---|---|---|
| Pagination.ParamValue | backend/api/utils/pagination.py:41-48 | a query parameter that parses as an integer keeps its value; an absent or unparsable one takes the default |
| Pagination.CeilDiv | backend/api/utils/pagination.py:55 | `math.ceil(a / b)`: the fewest multiples of `b` that reach `a` |
| Pagination.GetPaginationData | backend/api/utils/pagination.py:28-76 | page and page size are at least 1 and fall back to 1 and 10 when missing, unparsable or out of range; at least one page; a next page exactly before the last page and a previous page exactly after the first; start index `(page-1)*page_size`, end index `min(page*page_size, total)`, at most one page size apart, ordered within the list while the page exists and empty beyond it; start item is start index + 1 unless the list is empty; end item is the end index |
| Pagination.TotalPagesFit | backend/api/utils/pagination.py:55 | the page count holds every item, and one page fewer would not (unless there is only one page) |
| Pagination.PageContents | backend/api/utils/pagination.py:59-60 | the page a view slices out holds at most a page size of items, is exactly `items[start:end]` while the page exists, and is empty beyond the last page |
| Pagination.PagesCover | backend/api/utils/pagination.py:55-60 | pages 1..total, concatenated, give back the whole list in order: no item is skipped or repeated |
| Pagination.PageAt | backend/api/utils/pagination.py:59-60 | page `k` starts where pages 1..k-1 end and ends where pages 1..k end |
| Pagination.PagesAreStretches | backend/api/utils/pagination.py:59-60 | while page `k` exists, pages 1..k are the consecutive stretches of the running item count |
| Pagination.StretchesCover | backend/api/utils/pagination.py:59-60 | the consecutive stretches of pages 1..k concatenate to the prefix they cover |
| Pagination.CoveredIsProduct | backend/api/utils/pagination.py:60 | pages 1..k hold `min(k * page_size, total)` items |
| Pagination.HundredItemsDefaults | backend/tests/test_utils.py:50-64 | 100 items with default parameters: 10 pages, indices 0..10, next page 2, no previous page |
| Pagination.HundredItemsThirdPage | backend/tests/test_utils.py:66-75 | page 3 of 100 items spans indices 20..30 and items 21..30 |
| Pagination.NoItems | backend/tests/test_utils.py:95-103 | no items: one page, start and end item 0, no next page |
| Pagination.BadParameters | backend/tests/test_utils.py:105-125 | an unparsable page and a negative page size fall back to page 1 of size 10 |
| Validation.CountUserMessages | backend/api/utils/validation.py:69-79 | the count is at most the number of messages, zero exactly when no message has role 'user', and all of them exactly when every message has |
| Validation.CountUserMessagesAppend | backend/api/utils/validation.py:79 | appending a message adds one to the count exactly when its role is 'user' |
| Validation.CountUserMessagesConcat | backend/api/utils/validation.py:79 | the count over two lists joined is the sum of their counts |
| Validation.CheckChatNotCompleted | backend/api/utils/validation.py:18-39 | a refusal exactly when the chat is completed or its status is complete, and then a 400 with `Cannot <action> a completed or graded chat` |
| Validation.MaxTurns | backend/api/utils/validation.py:52-54 | a limit exactly when the course data is a truthy dict with a non-null `max_turns`, and then that value |
| Validation.CheckMaxTurnsNotExceeded | backend/api/utils/validation.py:42-66 | no limit means no refusal; with an integer limit, a refusal exactly when the user messages reach it, as a 400 `Maximum turns (N) reached for this chat`; a limit Python cannot compare with an integer is a server error |
| Validation.MaxTurnsAfterOneMore | backend/api/utils/validation.py:55-58 | if a chat passes the max-turns guard, one more user message makes it fail exactly when it uses the last turn |
| OpenWebUIHelpers.GetOpenwebuiToken | backend/api/utils/openwebui_helpers.py:15-42 | exactly one half of the pair is present; the token comes back exactly when the profile holds a non-empty one (a missing profile counts as none); otherwise a 401 with the fixed message and `error_code` TOKEN_EXPIRED |
| Formatting.Metadata | backend/api/utils/formatting.py:27-32 | the metadata has exactly the keys title, course_data, avatar_id and interaction_count, holding the chat's values; `avatar_id` is the chat's avatar id as a string, or null when it has none |
| Formatting.TranscriptLine | backend/api/utils/formatting.py:36-37 | `User: <content>` for role 'user' and `Resident: <content>` for every other role, with missing content rendered empty |
| Formatting.TranscriptLines | backend/api/utils/formatting.py:34-37 | one line per message |
| Formatting.FormatConversationForLlm | backend/api/utils/formatting.py:13-50 | the loop builds the metadata header (JSON or `str()` rendering as chosen) followed by the transcript lines joined by line breaks |
| Formatting.TranscriptSplitsBack | backend/api/utils/formatting.py:39 | when no content holds a line break, splitting the transcript at line breaks gives back one line per message, in order |
| Formatting.EmptyConversation | backend/tests/test_utils.py:234-244 | with no messages the transcript part after the header is empty |
| Models.StatusValueInjective | backend/api/models.py:39-45 | the seven stored status values are pairwise distinct, so a stored value names one status |
| Store.Database.constructor | backend/api/models.py:33-100 | a database starts with the given users and no chats or notes |
| Store.Database.SaveChat | backend/api/views/chat_operations_views.py:70-71 | `chat.save()` overwrites that one chat row and changes no other table |
| Serializers.FirstMessageError | backend/api/serializers.py:104-110 | no error exactly when every element is a dict carrying both a 'role' and a 'content' key; otherwise the error belongs to the first bad element: 'Each message must be an object' for a non-dict, else the missing-keys message |
| Serializers.ValidateMessages | backend/api/serializers.py:99-112 | a value is accepted exactly when it is a list of well-formed elements, and is then returned unchanged; a non-list is refused with 'Messages must be a list'; otherwise the message of the first bad element |
| Serializers.MessagesToJson | backend/api/serializers.py:104 | a message list becomes a JSON list of the same length |
| Serializers.ValidateMessageList | backend/api/serializers.py:104-110 | a message list passes exactly when every message has both a role and a content; the values are not examined |
| Serializers.ChatWritableFields | backend/api/serializers.py:84-97 | the writable fields are the declared fields other than the read-only `id` |
| Serializers.LifecycleFieldsNotWritable | backend/api/serializers.py:84-97 | status, grading_data, help_responses, user and id cannot be written through the create/update serializer |
| Serializers.UserReadableFields | backend/api/serializers.py:10-25 | a serialized user shows every declared field but the write-only password, including is_staff and chat_count |
| Serializers.UserWritableFields | backend/api/serializers.py:8-25 | registration can set the password but not is_staff, chat_count or id |
| Serializers.CreateUser | backend/api/serializers.py:27-28 | `create_user` makes a non-staff user without a profile, holding the submitted names and address |
| ChatOperationsViews.SendMessage | backend/api/views/chat_operations_views.py:28-86 | a chat the requester does not own is a 404; then, in order, completed 400, max turns 400, empty message 400 and missing token 401, each leaving the database untouched; otherwise only that chat changes, to status in_progress, and the reply is a 202 with processing true and a message job carrying the token |
| ChatOperationsViews.LastHelpIndex | backend/api/views/chat_operations_views.py:131-135 | the position of the last help entry for the turn, or -1 when no entry has that turn |
| ChatOperationsViews.GetHelp | backend/api/views/chat_operations_views.py:94-181 | the ownership, completion, max-turn and empty-messages gates in order; with the current turn as the count of user messages, a pending last entry for that turn is a 202 with no change, a settled one a 400; then the token check; otherwise exactly one processing placeholder for the turn is appended and the reply is a 202 with the turn and a help job |
| ChatOperationsViews.Grade | backend/api/views/chat_operations_views.py:189-264 | ownership 404, then empty messages 400; grading data that is set and is neither a failure nor carries 'error' is returned with 200 unchanged; a chat being graded gives 202 with no change; then the token check; otherwise only that chat changes, to status grading, with a 202 and a grading job |
| ChatOperationsViews.HelpPlaceholderBlocksRepeat | backend/api/views/chat_operations_views.py:131-144 | right after the placeholder is appended, the last entry for the turn is that pending placeholder, so a repeat request waits instead of starting another job |
| ChatViews.Apply | backend/api/views/chat_views.py:171-173 | `serializer.save()` replaces exactly the writable fields the body carries and keeps every other field, including owner, status, grading data, help ledger and timestamp |
| ChatViews.ListChatsOf | backend/api/views/chat_views.py:18-30 | the listing holds each chat of the owner exactly once and no other, newest `updated_at` first, and the returned items are the requested page of it |
| ChatViews.ListChats | backend/api/views/chat_views.py:22-41 | a 200 whose items are only the requester's chats: the page of the requester's chats, newest first |
| ChatViews.ListUserChats | backend/api/views/chat_views.py:74-115 | a non-staff requester gets 403 and an unknown target user 404, both with no items; otherwise a 200 with the page of the target's chats, newest first |
| ChatViews.CreateChat | backend/api/views/chat_views.py:43-65 | an invalid body is a 400 that creates nothing; a valid one is a 201 that adds exactly one chat under a fresh key, owned by the requester and holding the body's fields |
| ChatViews.GetChat | backend/api/views/chat_views.py:124-155 | 200 exactly when the chat exists and the requester is staff or its owner; otherwise 404 |
| ChatViews.UpdateChat | backend/api/views/chat_views.py:157-252 | a chat the requester cannot see is a 404 and one they see but do not own (staff) a 403, both unchanged; an invalid body is a 400, unchanged; otherwise a 200 in which only that chat takes the body's fields, and its interaction count is recomputed as the user messages for a full update, or for a partial one only when the body carries messages |
| ChatViews.DeleteChat | backend/api/views/chat_views.py:254-282 | invisible 404 and non-owner 403 leave the chats unchanged; otherwise a 204 that removes exactly that chat |
| ChatViews.DeletedChatNotVisible | backend/tests/test_chat_crud.py:323-334 | once a chat is removed nobody, staff included, can see it, so a later GET is a 404 |
| NoteViews.ListNotes | backend/api/views/note_views.py:15-34 | the listing holds exactly the requester's notes in descending key order, and the items are the requested page of it, all written by the requester |
| NoteViews.CreateNote | backend/api/views/note_views.py:36-55 | an invalid body is a 400 that creates nothing; a valid one is a 201 that adds exactly one note under a fresh key with the body's title and content and the requester as author |
| NoteViews.GetNote | backend/api/views/note_views.py:62-83 | 200 exactly when the note exists and the requester wrote it; otherwise 404 |
| NoteViews.UpdateNote | backend/api/views/note_views.py:85-110 | a missing or foreign note is a 404 and an invalid body a 400, both unchanged; otherwise a 200 replacing that note's title and content only |
| NoteViews.DeleteNote | backend/api/views/note_views.py:112-123 | a missing or foreign note is a 404, unchanged; otherwise a 204 that removes exactly that note |
| BackgroundTasks.ForLlm | backend/api/background_tasks.py:52-63 | the action path's history has the stored list's length and order, with every scenario entry turned into a user message `[Action: <content>]` and every other message kept; it fails exactly when some scenario entry has no content (the `KeyError` the loop raises) |
| BackgroundTasks.ForLlmHasNoScenario | backend/api/background_tasks.py:53-61 | no scenario entry reaches the resident model |
| BackgroundTasks.ConvertActions | backend/api/background_tasks.py:52-63 | the conversion loop computes exactly the action-path history, or the failure |
| BackgroundTasks.SystemMessages | backend/api/background_tasks.py:90 | only system messages |
| BackgroundTasks.OtherMessages | backend/api/background_tasks.py:91-93 | no system message |
| BackgroundTasks.SplitPartitions | backend/api/background_tasks.py:90-93 | the system and non-system lists together hold every message of the history exactly once |
| BackgroundTasks.SplitLengths | backend/api/background_tasks.py:90-93 | the two lists are together as long as the history |
| BackgroundTasks.SplitStep | backend/api/background_tasks.py:90-93 | the last message lands in exactly one of the two lists |
| BackgroundTasks.SplitByRole | backend/api/background_tasks.py:89-93 | the loop yields the system messages and the others, each in order |
| BackgroundTasks.TrimHistoryKeepsRecent | backend/api/background_tasks.py:95-108 | with N ≥ 1 the trimmed history is all system messages in order, then the last 2N others when there are more, else all of them; so it holds at most 2N non-system messages |
| BackgroundTasks.TrimHistoryZero | backend/api/background_tasks.py:99-105 | a limit of 0 keeps every message, because the slice `[-0:]` is the whole list |
| BackgroundTasks.CountContentChars | backend/api/background_tasks.py:111-113 | the summed content length of the trimmed history, a missing content counting as empty |
| BackgroundTasks.LimitHistoryCases | backend/api/background_tasks.py:110-132 | the history sent is either the trimmed one or, past 6000 estimated tokens, the system messages followed by the last 8 others |
| BackgroundTasks.LimitHistoryShape | backend/api/background_tasks.py:89-132 | whichever way it goes, the history sent is all system messages followed by a suffix of the others |
| BackgroundTasks.LimitedHistory | backend/api/background_tasks.py:89-132 | the trimming and token steps compute that limited history |
| BackgroundTasks.ProcessChatMessage | backend/api/background_tasks.py:19-181 | a missing chat changes nothing; otherwise the stored list gains the user or scenario message and only that chat changes: on success the assistant reply is appended, the interaction count becomes the number of user messages and the status is ready; on an LLM failure, a broken exchange limit or a scenario entry without content, the status is ready and a system message `Error processing message: ...` is appended; the history sent is the limited one |
| BackgroundTasks.AnswerSavedMessage | backend/api/background_tasks.py:83-178 | after the thinking save: the limited history is sent and the reply or the error is saved as above |
| BackgroundTasks.ForLlmPrefixNone | backend/api/background_tasks.py:53-59 | once a scenario entry without content is met, the whole conversion fails |
| BackgroundTasks.DropPending | backend/api/background_tasks.py:234-238 | the ledger keeps, in order, exactly the entries that are not pending for the turn |
| BackgroundTasks.HelpLedgerSettled | backend/api/background_tasks.py:230-286 | after the help job no entry is pending for the turn, the job's own completed or error entry is last, and every entry that was not pending survives |
| BackgroundTasks.ProcessHelpRequest | backend/api/background_tasks.py:189-288 | a missing chat changes nothing; otherwise the help model is asked about the chat as saved with status getting_help and the placeholder, and in the end only that chat changes: the turn's pending entries are dropped, one completed entry (or an error entry `Error getting help: ...`) is appended and the status returns to ready |
| BackgroundTasks.ScoreOf | backend/api/background_tasks.py:321 | a reply without a score stores 0; a reply that is not a dict raises, since it has no `get` |
| BackgroundTasks.ScoreOfPercentage | backend/api/background_tasks.py:321 | a numeric percentage under `score` is stored as the score |
| BackgroundTasks.FailedGradingAllowsRetry | backend/api/background_tasks.py:336-342 | the grading data a failure leaves behind does not count as graded, so the grade view starts a new job |
| BackgroundTasks.ProcessGrading | backend/api/background_tasks.py:296-348 | a missing chat changes nothing; otherwise the grading model is asked about the chat; on success only that chat changes, storing the grading data and its percentage as score, with completed true and status complete; on failure the status is ready_for_grading and the grading data is `{error, status: 'failed', error_type}` |
| OpenWebUIClient.InitialToken | backend/api/openwebui_client.py:28-36 | a non-empty explicit token wins; without a user the explicit value is kept; with a user and no token the profile's token, or none when the user has no profile |
| OpenWebUIClient.Client.constructor | backend/api/openwebui_client.py:19-36 | the base URL is `OPENWEBUI_BASE_URL` or `http://localhost:8080`, the user is kept and the token is the initial token |
| OpenWebUIClient.Client.Headers | backend/api/openwebui_client.py:38-45 | always the JSON content type; an `Authorization: Bearer <token>` header exactly when a truthy token is held, and nothing else |
| OpenWebUIClient.Client.Login | backend/api/openwebui_client.py:70-76 | a reply without a truthy `token` raises `No token returned from OpenWebUI login` and leaves the token alone; otherwise the token is returned and held |
| OpenWebUIClient.Client.RequestFor | backend/api/openwebui_client.py:120-133 | posts to `<base>/api/chat/completions` with the client's headers; the payload has model and messages, plus temperature and max_tokens exactly when given; the timeout is the one given or 180 |
| OpenWebUIClient.Client.Completion | backend/api/openwebui_client.py:142-248 | the parsed body is returned exactly for a non-error status with a JSON body; every failure is an `Exception`; a 401 reports the expiry message that depends on whether there is a user and whether it has a profile |
| OpenWebUIClient.ErrorDetail | backend/api/openwebui_client.py:208-230 | a body that is not JSON gives its text, or the exception text when empty; for a JSON dict the first truthy of `detail`, `error` and `message` is reported, reduced (a dict to its truthy `message`), and with none of them the dict's rendering; a truthy string `detail` is reported as is; JSON that is not a dict is rendered |
| OpenWebUIClient.ReducedObject | backend/api/openwebui_client.py:222-226 | a dict chosen as the detail reports its truthy `message`, and is otherwise rendered whole |
| OpenWebUIClient.NestedErrorMessage | backend/api/openwebui_client.py:215-226 | a nested `{'error': {'message': m}}` reports `m` |
| OpenWebUIClient.ErrorDetailFallsBack | backend/api/openwebui_client.py:215-220 | an object with no truthy detail, error or message is reported by its rendering |
| OpenWebUIClient.ValidMessages | backend/api/openwebui_client.py:273-290 | no more messages than given, each with a truthy role and content |
| OpenWebUIClient.ValidMessagesMembers | backend/api/openwebui_client.py:273-290 | a message is forwarded exactly when it was given and is valid |
| OpenWebUIClient.ValidMessagesKeepsValid | backend/api/openwebui_client.py:273-290 | a history of valid messages is forwarded unchanged |
| OpenWebUIClient.ValidMessagesStep | backend/api/openwebui_client.py:273-290 | one more message is forwarded exactly when it is valid |
| OpenWebUIClient.ValidateMessages | backend/api/openwebui_client.py:270-290 | the loop yields the valid messages and their total content length |
| OpenWebUIClient.Subscript | backend/api/openwebui_client.py:316 | Python subscripting: a dict key, a list or string index in range gives the element; a missing dict key is a KeyError with the key's repr; a string key on a non-dict is a TypeError |
| OpenWebUIClient.FirstChoiceContent | backend/api/openwebui_client.py:305-320 | the content is found exactly when the choices are a non-empty list whose first element is a dict whose `message` is a dict holding `content`, and it is that content; a missing `choices` and falsy choices are told apart; a truthy dict of choices fails on the key `0`; a caught failure is reported by the missing key (`0`, `'message'` or `'content'`), and what the `except` does not catch is a TypeError |
| OpenWebUIClient.ConversationContent | backend/api/openwebui_client.py:304-320 | a missing `choices`, empty choices and a missing key each raise their own message; a value is returned exactly when the content is found, and it is that content |
| OpenWebUIClient.DictChoicesReportKeyZero | backend/api/openwebui_client.py:316-320 | any response whose `choices` is a truthy dict fails with `Invalid response structure: 0. Response: …`, the `KeyError(0)` of `choices[0]` |
| OpenWebUIClient.Client.GetConversationResponse | backend/api/openwebui_client.py:250-320 | sends only the valid messages with the default settings; a failing request is re-raised, else the shape checks decide |
| OpenWebUIClient.HelpContent | backend/api/openwebui_client.py:346-357 | a missing or empty `choices` raises the help format message; a caught key or index failure raises the help structure message with the key; a value exactly when the content is found, and it is the first choice's content |
| OpenWebUIClient.Client.HelpResponse | backend/api/openwebui_client.py:322-357 | the request goes to the completions URL with the bearer header and the default timeout, carrying exactly the helper model, the messages and temperature 0.7; a failing request is re-raised; otherwise a value exactly when the reply has the first content, and it is that content |
| OpenWebUIClient.GradingContent | backend/api/openwebui_client.py:385-403 | the grading shape checks; a value exactly when the content is found, is a string and parses as JSON, and it is the parsed value; a string that does not parse raises the parse message |
| OpenWebUIClient.Client.GradingResponse | backend/api/openwebui_client.py:359-403 | the request carries exactly the evaluator model, the messages and temperature 0.3 with the 300-second timeout; a failing request is re-raised; otherwise a value exactly when the reply's first content is a string that parses, and it is the parsed JSON |
| Api.PrepareHeaders | frontend/src/app/services/Api.ts:22-29 | the headers gain `Authorization: Bearer <token>` exactly when a non-empty access token is held, and are otherwise unchanged |
| Api.AccessOf | frontend/src/app/services/Api.ts:55-57 | only a non-empty `access` string of the refresh reply counts as a new token |
| Api.BaseQueryWithReauth | frontend/src/app/services/Api.ts:36-77 | the query is fetched once with the held token; a result other than a 401 is returned as is; after a 401 with the lock free, one refresh is posted, and a new access token is stored and the query fetched again with it, and otherwise both tokens are cleared and the 401 returned; with the lock held, the query is fetched again with the token left by the other refresh; avatar, dialogs and chat settings never change |
| Preferences.PreferencesState.constructor | frontend/src/app/store/preferences.slice.ts:17-25 | the initial state: no tokens, avatar `1`, only the welcome dialog, unseen, and no chat settings |
| Preferences.PreferencesState.SetUserAvatarId | frontend/src/app/store/preferences.slice.ts:31-33 | sets the avatar id; nothing else changes |
| Preferences.PreferencesState.SetSeenDialog | frontend/src/app/store/preferences.slice.ts:34-37 | sets one dialog's flag, adding the key when it is new; every other dialog and field is kept |
| Preferences.PreferencesState.SetApiToken | frontend/src/app/store/preferences.slice.ts:38-40 | sets or, without a payload, clears the access token; nothing else changes |
| Preferences.PreferencesState.SetRefreshToken | frontend/src/app/store/preferences.slice.ts:41-43 | sets or clears the refresh token; nothing else changes |
| Preferences.PreferencesState.SetChatSettings | frontend/src/app/store/preferences.slice.ts:44-46 | sets or clears the chat settings; nothing else changes |
| Preferences.PreferencesState.ResetState | frontend/src/app/store/preferences.slice.ts:47-53 | from any state back to the initial one, whose avatar is Carer 1 |
| Preferences.PreferencesState.GetUserAvatar | frontend/src/app/store/preferences.slice.ts:58 | the catalogue avatar with the chosen id, and none exactly when the catalogue has no such id |
| Avatars.AvatarIdsDistinct | frontend/src/app/utils/getAvatarById.ts:36-62 | the catalogue holds 25 avatars and no two share an id |
| Avatars.FindById | frontend/src/app/utils/getAvatarById.ts:64-66 | a result is an avatar of the list with the id; none exactly when no avatar has the id |
| Avatars.FindFirstAt | frontend/src/app/utils/getAvatarById.ts:64-66 | `find` returns the first avatar with the id |
| Avatars.GetAvatarByIdIsThePosition | frontend/src/app/utils/getAvatarById.ts:36-66 | every catalogue avatar is found by its own id |
| Avatars.GetAvatarById | frontend/src/app/utils/getAvatarById.ts:36-66 | the avatar found is a catalogue avatar with that id; none exactly when no catalogue avatar has it |
| Avatars.CarerOne | frontend/src/app/utils/getAvatarById.ts:37 | id `1` is Carer 1 |
| Avatars.TutorOne | frontend/src/app/utils/getAvatarById.ts:51 | id `15` is Tutor 1 |
| Avatars.RobotOne | frontend/src/app/utils/getAvatarById.ts:55 | id `19` is Robot 1 |
| Avatars.ResidentTwelve | frontend/src/app/utils/getAvatarById.ts:61 | id `25` is Resident 12 |
| Avatars.UnknownAvatar | frontend/src/app/utils/getAvatarById.ts:64-66 | id `26` finds nothing |
| ErrorUtils.ExtractErrorMessage | frontend/src/app/utils/errorUtils.ts:43-77 | a falsy error gives the default; a non-empty string is itself; anything that is neither an object nor a string gives the default; for an object, a truthy `data.detail` wins, then a truthy `data.message`, then a truthy `message`, else the default; a result other than the default is truthy |
| ErrorUtils.EmptyDetailIsSkipped | frontend/src/app/utils/errorUtils.ts:56-62 | an empty `data.detail` falls through to `data.message` |
| ErrorUtils.HasErrorStatus | frontend/src/app/utils/errorUtils.ts:86-93 | true exactly for a truthy object whose `status` equals the code |
| ErrorUtils.ErrorMessageContains | frontend/src/app/utils/errorUtils.ts:104-107 | defined exactly when the extracted message is a string, and then true exactly when its lower-cased form contains the lower-cased phrase |
| ErrorUtils.ContainsEmptyPhrase | frontend/src/app/utils/errorUtils.ts:104-107 | every string message contains the empty phrase |
| MessageConverter.CommonPrefix | frontend/src/app/utils/openWebUiMessageConverter.ts:36 | equal strings with a common prefix have equal tails |
| MessageConverter.MessageIdInjective | frontend/src/app/utils/openWebUiMessageConverter.ts:36 | distinct positions get distinct `msg-<base>-<index>` ids |
| MessageConverter.IdsBelowMembers | frontend/src/app/utils/openWebUiMessageConverter.ts:36-59 | the ids of the first `n` positions are exactly those of positions below `n` |
| MessageConverter.ConvertMessagesToOpenWebUIFormat | frontend/src/app/utils/openWebUiMessageConverter.ts:26-69 | one converted message per input, in order; the record's keys are exactly the ids of the positions, each holding the message at its position; the current id is the last message's, or null for no messages |
| MessageConverter.ConvertedIsLinked | frontend/src/app/utils/openWebUiMessageConverter.ts:32-44 | neighbours are linked both ways, the first message has no parent and the last has no children |
| MessageConverter.ToSimple | frontend/src/app/utils/openWebUiMessageConverter.ts:75-82 | one role/content message per input, in order |
| MessageConverter.RoundTrip | frontend/src/app/utils/openWebUiMessageConverter.ts:26-82 | converting to the OpenWebUI format and back gives the original messages |
| GradingRequest.TranscriptLines | frontend/src/app/utils/formatGradingRequest.ts:34-46 | at most one line per message |
| GradingRequest.TranscriptLinesCount | frontend/src/app/utils/formatGradingRequest.ts:36-46 | exactly one line for each learner, resident or action message, none for the others |
| GradingRequest.LineIndicesSnoc | frontend/src/app/utils/formatGradingRequest.ts:36-46 | one more message adds its index to the lined ones exactly when it makes a line |
| GradingRequest.SystemOnlyHasNoLines | frontend/src/app/utils/formatGradingRequest.ts:45 | system messages are left out of the transcript |
| GradingRequest.FormatGradingRequest | frontend/src/app/utils/formatGradingRequest.ts:29-66 | the prompt is the metadata block, the transcript lines joined by blank lines, and the `# YOUR TASK` section |
| GradingRequest.ThreeParts | frontend/src/app/utils/formatGradingRequest.ts:51-63 | a concatenation of three parts splits back into them |
| GradingRequest.SectionsInOrder | frontend/src/app/utils/formatGradingRequest.ts:51-63 | the prompt opens with the metadata header, and the metadata and the transcript are read back at fixed offsets, the `# YOUR TASK` section running to the end |
| GradingRequest.PrepareGradingMessages | frontend/src/app/utils/formatGradingRequest.ts:74-94 | exactly one user message carrying the grading prompt; the size estimate changes nothing |
| DateUtils.UnitsOfDiff | frontend/src/app/utils/dateUtils.ts:67-71 | the successive floor divisions are the millisecond difference divided once by a minute, an hour or a day |
| DateUtils.BucketRanges | frontend/src/app/utils/dateUtils.ts:67-94 | the buckets are disjoint ranges of the difference that cover every value, a future instant included: under a minute, under an hour, under a day, under two days, under seven days, and older; the minute, hour and day counts are the difference divided by the unit, and the day count is 2 to 6 |
| DateUtils.FormatRelativeTime | frontend/src/app/utils/dateUtils.ts:64-95 | under a minute (or in the future) is `just now`; a week or more is the formatted date |
| DateUtils.CountWording | frontend/src/app/utils/dateUtils.ts:77-91 | singular wording at exactly one minute or hour, `yesterday` for one day, the counts in minutes, hours or days otherwise |
| ForceLogin.NoTokenOrNoExpiryLogsOut | frontend/src/app/components/force-login/ForceLogin.tsx:27-30 | no access token, or one without a truthy `exp`, logs out |
| ForceLogin.UnexpiredIgnoresRefresh | frontend/src/app/components/force-login/ForceLogin.tsx:35-57 | an unexpired token authorizes, whatever the refresh endpoint would say |
| ForceLogin.AuthorizedIff | frontend/src/app/components/force-login/ForceLogin.tsx:26-61 | the guard authorizes exactly when the token has an `exp` and is unexpired, or is expired and the refresh returns an access token; it renews exactly in the latter case |
| ForceLogin.Guard.constructor | frontend/src/app/components/force-login/ForceLogin.tsx:13-15 | starts undecided, with the token check not yet performed and no navigation |
| ForceLogin.Guard.ForceLogout | frontend/src/app/components/force-login/ForceLogin.tsx:19-24 | both tokens cleared, not authorized, navigated to the login page; the other preferences are kept |
| ForceLogin.Guard.CheckAccessToken | frontend/src/app/components/force-login/ForceLogin.tsx:26-61 | the refresh endpoint is called exactly for a present token whose `exp` has passed; a logout clears both tokens and goes to the login page, an authorization keeps the tokens, a renewal stores the new access token; the other preferences are kept |
| ForceLogin.Guard.OnMount | frontend/src/app/components/force-login/ForceLogin.tsx:63-78 | the token check runs once per mount; a second run changes nothing and asks nothing |
| ForceLogin.Guard.Render | frontend/src/app/components/force-login/ForceLogin.tsx:80-84 | loading exactly while undecided, the children exactly when authorized, a redirect to login exactly when not |
| LoginPage.ValidIff | frontend/src/app/pages/login/LoginPage.tsx:31-44 | the form passes exactly when the email matches `\S+@\S+\.\S+` somewhere and the password has at least 6 characters |
| LoginPage.FieldMessages | frontend/src/app/pages/login/LoginPage.tsx:33-42 | an empty field is required, a non-empty one invalid or too short; each field's message depends on that field alone |
| LoginPage.ValidateForm | frontend/src/app/pages/login/LoginPage.tsx:31-44 | an email error exactly when the email is empty or lacks the pattern, `Email is required` exactly when empty; a password error exactly when it is shorter than six, `Password is required` exactly when empty |
| LoginPage.WellFormedAddress | frontend/src/app/pages/login/LoginPage.tsx:35 | `carer@slc.org` has the email shape |
| LoginPage.NoDotAfterAt | frontend/src/app/pages/login/LoginPage.tsx:35 | `carer@slc` does not |
| LoginPage.SpaceBeforeAt | frontend/src/app/pages/login/LoginPage.tsx:35 | `carer @slc.org` does not |
| LoginPage.RedirectOnLoad | frontend/src/app/pages/login/LoginPage.tsx:25-29 | goes to the dashboard exactly when both tokens are present and non-empty |
| LoginPage.Page.constructor | frontend/src/app/pages/login/LoginPage.tsx:20 | no error message, no navigation, not submitting |
| LoginPage.Page.OnSubmitForm | frontend/src/app/pages/login/LoginPage.tsx:46-68 | the lowercased email and the password are sent after both tokens are cleared; an access token stores both tokens and goes to the dashboard; an error or a throw that carries `data.detail` shows it with the tokens left cleared; one without `data` makes the handler reject with the message unchanged and submitting still on; otherwise submitting ends |
| ChatPage.PollingInterval | frontend/src/app/pages/chat/ChatPage.tsx:40-47 | polls every 2000 ms exactly while the status is thinking, in progress, grading or getting help, and not at all otherwise |
| ChatPage.ReachedIffNoneRemaining | frontend/src/app/pages/chat/ChatPage.tsx:56-58 | the limit is reached exactly when no turn remains; without `max_turns` it is never reached, while a limit of 0 is reached at once |
| ChatPage.ParseLeadingIntReadsDigits | frontend/src/app/pages/chat/ChatPage.tsx:19 | `parseInt` of a run of digits followed by a non-digit is the value of the digits |
| ChatPage.ParseLeadingIntReadsNegative | frontend/src/app/pages/chat/ChatPage.tsx:19 | after a minus sign the same digits give the negated value |
| ChatPage.ParseLeadingIntNaN | frontend/src/app/pages/chat/ChatPage.tsx:19 | a text starting with neither a space, a sign nor a digit is `NaN` |
| ChatPage.FindIndex | frontend/src/app/pages/chat/ChatPage.tsx:89-91 | the first action whose prompt is the content, or -1 exactly when none has it |
| ChatPage.UsedIndicesMembers | frontend/src/app/pages/chat/ChatPage.tsx:85-97 | an action index counts as used exactly when some scenario message carries its prompt and no earlier action has the same prompt |
| ChatPage.UserCount | frontend/src/app/pages/chat/ChatPage.tsx:81-82 | the turn count is at most the number of messages |
| ChatPage.EmptyResidentNoLines | frontend/src/app/pages/chat/ChatPage.tsx:101-110 | no metadata, no resident or no present field give an empty system message |
| ChatPage.FullResident | frontend/src/app/pages/chat/ChatPage.tsx:102-109 | with every field present the system message lists name, preferred name, setting, goals, must-disclose and refusals, in that order |
| ChatPage.LinePresent | frontend/src/app/pages/chat/ChatPage.tsx:103-108 | a present, non-empty field gives its `caption value \n` line |
| ChatPage.Capitalize | frontend/src/app/pages/chat/ChatPage.tsx:212 | the same length, the first character upper-cased and the rest kept |
| ChatPage.ExportLabels | frontend/src/app/pages/chat/ChatPage.tsx:209-212 | learner messages are labelled Student, resident ones with the resident's name, scenario ones Scenario, and other roles capitalized |
| ChatPage.Repeat | frontend/src/app/pages/chat/ChatPage.tsx:206 | `n` copies of the character |
| ChatPage.ExportEntriesSnoc | frontend/src/app/pages/chat/ChatPage.tsx:208-216 | each message appends its numbered entry after the earlier ones |
| ChatPage.WelcomeReopensForPaddedId | frontend/src/app/pages/chat/ChatPage.tsx:292 | as written, closing the intro dialog of route id `07` leaves it open |
| ChatPage.PaddedIdKey | frontend/src/app/pages/chat/ChatPage.tsx:54 | the page reads the flag of route id `07` under `chat-intro-7` |
| ChatPage.PaddedIdParses | frontend/src/app/pages/chat/ChatPage.tsx:19 | `parseInt('07')` is 7 |
| ChatPage.ClosingDismissesWelcome | frontend/src/app/pages/chat/ChatPage.tsx:292 | with the close handler writing the key the page reads, closing the intro dialog keeps it closed for every route id |
| ChatPage.BlankIffTrimmedEmpty | frontend/src/app/pages/chat/ChatPage.tsx:141 | `!input.trim()` holds exactly for input that is only whitespace |
| ChatPage.PageState.constructor | frontend/src/app/pages/chat/ChatPage.tsx:23-32 | no messages, no input, no used actions, no turns, no grading or help, no error |
| ChatPage.PageState.ApplyFetchedMessages | frontend/src/app/pages/chat/ChatPage.tsx:76-113 | fetched messages replace the list, the turn count becomes the number of learner messages and, when the metadata has actions, the used indices are recomputed; a chat without messages starts with the one system message, no turns and no used actions; nothing else changes |
| ChatPage.PageState.PickUpResults | frontend/src/app/pages/chat/ChatPage.tsx:115-136 | a grading error is shown as `Grading failed: ...`; a new result with communication quality is kept and its modal opened; help is picked up only while there is no grading data: a completed latest entry with text opens the help modal when none is shown, an errored one shows `Help request failed: ...`; in every other case (grading data already held, neither `error` nor a truthy communication quality, help already shown, empty or of another status) each of the grading data, help text, both modals and the error message is unchanged; messages, input and turns are kept |
| ChatPage.PageState.HandleSend | frontend/src/app/pages/chat/ChatPage.tsx:140-160 | blank input, a reached limit or a missing id change nothing and send nothing; otherwise the input is sent once as a message, one turn is counted, the input is cleared, submitting ends and a failed send shows its extracted error |
| ChatPage.PageState.HandleActionClick | frontend/src/app/pages/chat/ChatPage.tsx:162-185 | a used index, a reached limit or a missing id change nothing and send nothing; otherwise the prompt is sent once as an action, one turn is counted and the index is marked used |
| ChatPage.PageState.ExportTranscript | frontend/src/app/pages/chat/ChatPage.tsx:187-216 | the download is the header with title, time, message count, turn count and score, then one numbered entry per message in order |
| ChatSidebar.UnlimitedCounterIsGarbled | frontend/src/app/pages/chat/components/ChatSidebar.tsx:82 | as written, an unlimited counter ends in the three characters `âˆž` and holds no infinity sign |
| ChatSidebar.CounterEndsInLimit | frontend/src/app/pages/chat/components/ChatSidebar.tsx:82 | the corrected counter is `turns / ∞` without a limit and `turns / limit` with one |
| ChatSidebar.CounterText | frontend/src/app/pages/chat/components/ChatSidebar.tsx:82 | the counter starts with the turn count followed by ` / `, and without a limit ends in the infinity sign |
| ChatSidebar.RemainingCaption | frontend/src/app/pages/chat/components/ChatSidebar.tsx:84-88 | a caption exactly when one to three turns remain |
| ChatSidebar.RemainingWording | frontend/src/app/pages/chat/components/ChatSidebar.tsx:86 | singular wording for one turn, plural for two and three |
| ChatSidebar.MaxTurnsCaption | frontend/src/app/pages/chat/components/ChatSidebar.tsx:89-93 | `Max turns reached` exactly when the limit is reached |
| ChatSidebar.EnabledActionIsAccepted | frontend/src/app/pages/chat/components/ChatSidebar.tsx:109 | an enabled action button has an unused index and a limit not reached, so the page's handler sends it |
| ChatSidebar.LimitDisablesHelpAndActions | frontend/src/app/pages/chat/components/ChatSidebar.tsx:109-154 | at the limit, help and every action are disabled while export of a non-empty chat stays enabled |
| ChatSidebar.ButtonRules | frontend/src/app/pages/chat/components/ChatSidebar.tsx:109-154 | submitting disables every button but export; an action is enabled exactly when not submitting, unused and under the limit; help exactly when not submitting, complete, graded, at the limit or grading; grading exactly with two messages, no result and no submission; export exactly with one message |
| UserList.FilterMatching | frontend/src/app/components/user-list/UserList.tsx:34-39 | never more users than fetched |
| UserList.FilterMembers | frontend/src/app/components/user-list/UserList.tsx:34-39 | a user is kept exactly when its username, email or a non-empty first or last name contains the term |
| UserList.FilterIsSubsequence | frontend/src/app/components/user-list/UserList.tsx:34-39 | the kept users stay in fetched order |
| UserList.SubsequenceRefl | frontend/src/app/components/user-list/UserList.tsx:31 | a list is a subsequence of itself |
| UserList.FilteredUsersSpec | frontend/src/app/components/user-list/UserList.tsx:30-40 | an empty term shows everyone; otherwise a user is shown exactly when it matches the lower-cased term; the shown users keep the fetched order |
| UserList.FilteredUsers | frontend/src/app/components/user-list/UserList.tsx:30-40 | never more users than fetched, and everyone for an empty term |
| UserList.ListView | frontend/src/app/components/user-list/UserList.tsx:67-75 | the list shown is the filtered one, the count line counts it against all fetched users, and the empty state appears exactly when it is empty, with the wording for a search or for no users |
| UserList.CountTextWording | frontend/src/app/components/user-list/UserList.tsx:67-69 | the count line opens with the number shown and `user`, plural exactly when the number is not one, and ends with `(filtered from <total> total)` exactly when a term is entered |
| Dashboard.FirstUnitMatch | frontend/src/app/pages/dashboard/DashboardPage.tsx:23 | the first position from which `unit` and a digit follow, or none when there is none |
| Dashboard.UnitNumberExamples | frontend/src/app/pages/dashboard/DashboardPage.tsx:22-24 | `unit1_conversation1` is unit 1 and an id without a unit number is unit 0 |
| Dashboard.FirstOfUnit | frontend/src/app/pages/dashboard/DashboardPage.tsx:21-25 | the first scenario of a unit |
| Dashboard.WelcomeHeader | frontend/src/app/pages/dashboard/DashboardPage.tsx:35-40 | the header is rendered exactly when `userExists` holds (a loaded user with a truthy id, line 13), with the chosen avatar or avatar `1`, and greets the username or `User` |
| Dashboard.GroupedSpec | frontend/src/app/pages/dashboard/DashboardPage.tsx:18-30 | there is a group exactly for each unit of the list; it holds that unit's scenarios in list order, numbered by the id of its first scenario |
| Dashboard.GroupedKeys | frontend/src/app/pages/dashboard/DashboardPage.tsx:20-26 | a group exists exactly for the units that occur |
| Dashboard.GroupedConversations | frontend/src/app/pages/dashboard/DashboardPage.tsx:27 | each group holds its unit's scenarios in list order |
| Dashboard.GroupedUnitNumber | frontend/src/app/pages/dashboard/DashboardPage.tsx:21-25 | a group's number comes from the first scenario of its unit |
| Dashboard.FirstOfUnitPrefix | frontend/src/app/pages/dashboard/DashboardPage.tsx:21-25 | a unit already grouped keeps its first scenario as the list grows |
| Dashboard.OfUnitAbsent | frontend/src/app/pages/dashboard/DashboardPage.tsx:27 | a unit that does not occur has no scenarios |
| Dashboard.OfUnitMembers | frontend/src/app/pages/dashboard/DashboardPage.tsx:27 | a scenario appears in its own unit's group and in no other |
| Dashboard.GroupByUnit | frontend/src/app/pages/dashboard/DashboardPage.tsx:18-30 | the `forEach` builds exactly that grouping |
| Dashboard.CloseWelcome | frontend/src/app/pages/dashboard/DashboardPage.tsx:86-88 | closing sets the welcome flag, and the dialog stays closed; tokens, avatar and chat settings are kept |
| Dashboard.InitialShowsWelcome | frontend/src/app/pages/dashboard/DashboardPage.tsx:15 | a fresh session shows the welcome dialog |
| CheckDependencies.Section | scripts/github/check_dependencies.py:37-43 | a section is found exactly when the body contains the `## Dependencies` header line |
| CheckDependencies.ParseDependencies | scripts/github/check_dependencies.py:25-49 | a body without the header has no dependencies |
| CheckDependencies.IssueRefAt | scripts/github/check_dependencies.py:46-47 | `#n` not followed by a digit is read as the number `n` |
| CheckDependencies.SkipWithoutHash | scripts/github/check_dependencies.py:46 | text without `#` holds no reference |
| CheckDependencies.RefLinesRoundTrip | scripts/github/check_dependencies.py:46-47 | every number of a `- #n` list is read back, in order and with repetitions |
| CheckDependencies.RefLinesItem | scripts/github/check_dependencies.py:46 | a `- #n` list opens with its first item |
| CheckDependencies.RefLinesShape | scripts/github/check_dependencies.py:38 | in a `- #n` list every line break is followed by a dash |
| CheckDependencies.RefLinesHoldNoSection | scripts/github/check_dependencies.py:38 | such a list never contains the start of another section |
| CheckDependencies.SectionBetween | scripts/github/check_dependencies.py:37-47 | only the references between the first header and the next `\n##`, or the end, are read |
| CheckDependencies.HeaderFound | scripts/github/check_dependencies.py:37-41 | the search finds the first header |
| CheckDependencies.SectionEnds | scripts/github/check_dependencies.py:38 | the lazy group stops at the first `\n##` after the header, or runs to the end |
| CheckDependencies.NoNextInSection | scripts/github/check_dependencies.py:38 | no `\n##` starts inside a section free of one, even one running into what follows |
| CheckDependencies.NoNextAcross | scripts/github/check_dependencies.py:38 | no `\n##` starts just before a line break |
| CheckDependencies.NoNextInside | scripts/github/check_dependencies.py:38 | no `\n##` starts inside the content |
| CheckDependencies.ParseRefLines | scripts/github/check_dependencies.py:25-49 | a `- #n` list after the first header, ended by another section or the end, is read back exactly |
| CheckDependencies.ParseExample | scripts/github/check_dependencies.py:25-49 | a reference in a later section is not read, and a repeated one is read twice |
| CheckDependencies.UnmetAmongMembers | scripts/github/check_dependencies.py:72-87 | an entry is reported exactly when it describes a listed dependency that can be looked up and is not closed; failed lookups are skipped |
| CheckDependencies.AllMetIff | scripts/github/check_dependencies.py:89 | nothing is reported exactly when every dependency that can be looked up is closed |
| CheckDependencies.Check | scripts/github/check_dependencies.py:52-89 | a failed lookup of the issue raises, a body that is `None` raises; otherwise the unmet list is the one above, `all_met` holds exactly when it is empty, and no dependencies give `(True, [])` |
| CheckDependencies.Run | scripts/github/check_dependencies.py:92-128 | the exit status is 0 or 1, and 0 exactly when an integer issue number was given, the issue and its body were read and no dependency is unmet |
| CreateTickets.FrontMatter | scripts/github/create_tickets.py:37 | there is no front matter unless the document starts with a `---` line |
| CreateTickets.FrontMatterBetweenFences | scripts/github/create_tickets.py:37-41 | the block between the opening `---` line and the first following `\n---` is read back whole |
| CreateTickets.Fields | scripts/github/create_tickets.py:42-45 | one field per line, split at its first colon and stripped |
| CreateTickets.LastSetter | scripts/github/create_tickets.py:42-45 | the last line setting the key, or none when no line does |
| CreateTickets.CollectLastWins | scripts/github/create_tickets.py:42-45 | a key is present exactly when some line sets it, and a later line overwrites an earlier one |
| CreateTickets.ReadFrontMatter | scripts/github/create_tickets.py:40-45 | the loop builds exactly that metadata |
| CreateTickets.CollectStep | scripts/github/create_tickets.py:43-45 | one more line sets its key when it has a colon, and otherwise changes nothing |
| Strs.RestOfLine | scripts/github/create_tickets.py:69 | `.*` (also in setup_project_template.py:151) takes the longest prefix without a line break, and the next character, if any, is one |
| Strs.RestOfLineStops | scripts/github/setup_project_template.py:151 | `.*` over a break-free line followed by a break or the end takes exactly that line |
| CreateTickets.SubtasksStep | scripts/github/create_tickets.py:69 | a `- item` line yields its item |
| CreateTickets.SubtasksSkipBreak | scripts/github/create_tickets.py:69 | a line break starts no item |
| CreateTickets.SubtasksOfBullets | scripts/github/create_tickets.py:69 | the items of a bulleted list are found again, in order |
| CreateTickets.ParsePlanningDocument | scripts/github/create_tickets.py:25-83 | the document is accepted exactly when its status is `approved`, and otherwise refused with the status it has (`draft` when none); an accepted plan keeps its metadata and path and has one stripped task per numbered item, in order |
| CreateTickets.ReadTasks | scripts/github/create_tickets.py:59-77 | one task per numbered item, in order |
| CreateTickets.NoFrontMatterIsDraft | scripts/github/create_tickets.py:47-50 | a document without front matter counts as `draft` and is refused |
| CreateTickets.Parts | scripts/github/create_tickets.py:114-135 | where the parts of the body sit |
| CreateTickets.PrefixOfParts | scripts/github/create_tickets.py:114-135 | the body opens with its first part |
| CreateTickets.TicketBodyStates | scripts/github/create_tickets.py:114-135 | the body opens with the description, states `task n of total` right after the `## Task Progress` heading and ends with the fixed notes |
| CreateTickets.ChecklistLines | scripts/github/create_tickets.py:112 | the acceptance criteria are one unchecked box per subtask, in order |
| CreateTickets.TicketLabels | scripts/github/create_tickets.py:107-139 | the labels are `feature` and the document's priority, `medium` when it names none; the title is `[Feature] ` and the task title |
| CreateTickets.Tickets | scripts/github/create_tickets.py:192-203 | one issue per task |
| CreateTickets.CreateEach | scripts/github/create_tickets.py:195-204 | the tickets are sent in order; every one before the last sent was created; all are created exactly when every request succeeds; a failure stops the loop with that request's error |
| CreateTickets.CreateAll | scripts/github/create_tickets.py:161-204 | task `i` becomes issue `i + 1` of `n`, in document order, with the same stop-at-the-first-failure behaviour |
| CreatePr.ClassifyLines | scripts/github/create_pr.py:49-66 | the loop collects, in output order, the paths of the `??` lines as untracked and of the other non-blank statuses as uncommitted; clean exactly when both are empty |
| CreatePr.CheckGitStatusAsWritten | scripts/github/create_pr.py:35-66 | as written: the whole output is stripped before it is split into lines |
| CreatePr.CheckGitStatus | scripts/github/create_pr.py:35-66 | the corrected reading: every line is read whole, so a status with a leading space survives |
| CreatePr.StripOneLine | scripts/github/create_pr.py:52 | stripping removes a leading space and the final line break |
| CreatePr.FirstPathLosesLetter | scripts/github/create_pr.py:52-62 | as written, output ` M path` reports the path without its first letter |
| CreatePr.StrippedToOneLine | scripts/github/create_pr.py:52 | output ` M path` strips to the single line `M ` and the path |
| CreatePr.CoreOnOneLine | scripts/github/create_pr.py:52 | that stripped line holds no line break |
| CreatePr.OneStrippedLine | scripts/github/create_pr.py:52 | output that strips to one line without a break is read as that one line |
| CreatePr.StripsToCore | scripts/github/create_pr.py:52 | stripping ` M path` with its line break gives `M ` and the path |
| CreatePr.FirstPathKept | scripts/github/create_pr.py:52-62 | reading lines whole, output ` M path` reports the path itself |
| CreatePr.LineParts | scripts/github/create_pr.py:56-57 | a line's kind comes from its first two characters and its path starts after the third |
| CreatePr.EntryLineKind | scripts/github/create_pr.py:56-62 | an entry's porcelain line is counted as the entry's own kind and names its path |
| CreatePr.EntryLinesPaths | scripts/github/create_pr.py:52-62 | the porcelain paths of each kind are the entries' paths of that kind, in order |
| CreatePr.PathsOfKindSnoc | scripts/github/create_pr.py:52-62 | one more line adds its path exactly when it is of the kind |
| CreatePr.EntryLinesShape | scripts/github/create_pr.py:52 | one porcelain line per entry, in order |
| CreatePr.PathsIgnoreEmptyLast | scripts/github/create_pr.py:53-54 | a trailing empty piece is skipped |
| CreatePr.CheckGitStatusReadsPorcelain | scripts/github/create_pr.py:35-66 | reading lines whole recovers git's report exactly: the untracked and the uncommitted paths, each in order |
| CreatePr.EntryLineOnOneLine | scripts/github/create_pr.py:52 | an entry git prints on one line has no line break in its line |
| CreatePr.NoBreakWithEmptyLast | scripts/github/create_pr.py:52 | adding the empty last piece keeps every piece free of line breaks |
| CreatePr.PorcelainLines | scripts/github/create_pr.py:52 | split at its line breaks, the porcelain gives back each entry's line and an empty last piece |
| CreatePr.PayloadMembers | scripts/github/create_pr.py:135-140 | the request body has exactly title, body, head and base, each holding its argument |
| CreatePr.CreatePullRequest | scripts/github/create_pr.py:69-149 | from the base branch nothing is sent and the script refuses; with a dirty work tree (read as written, from the stripped output) nothing is sent unless the answer is `y` or `yes`; otherwise exactly the payload is posted and the reply decides the outcome |
| CreatePr.CleanReadingsAgree | scripts/github/create_pr.py:35-66 | on git's porcelain output (status letters not both blank, paths on one line) both readings are clean exactly when git lists nothing, so the stripping only damages the first path, not the clean-tree decision |
| CreatePr.Run | scripts/github/create_pr.py:152-174 | fewer than two arguments exit 1; the base defaults to `main`; the exit status is 0 exactly when the branch is not the base and, unless the user cancels at a dirty work tree, the pull request is created |
| CreateRepoAndProject.ChooseSource | scripts/github/create_repo_and_project.py:205-240 | a configured, non-blank template number is copied, as parsed by `int`; otherwise the project is built from scratch and given the seven columns; the title is the repository name and ` Kanban` |
| CreateRepoAndProject.FindStatusField | scripts/github/create_repo_and_project.py:271-276 | the first node that is a field named `Status`, or none exactly when no node is |
| CreateRepoAndProject.ColumnOptions | scripts/github/create_repo_and_project.py:302 | one option per column, in order, named after it, gray and without description |
| CreateRepoAndProject.RewriteLines | scripts/github/create_repo_and_project.py:460-471 | one rewritten line per line of the file |
| CreateRepoAndProject.UpdateEnvFile | scripts/github/create_repo_and_project.py:440-483 | without a `.env` nothing is written; otherwise the rewritten lines followed by the missing assignments |
| CreateRepoAndProject.Regroup3 | scripts/github/create_repo_and_project.py:459-479 | concatenation regroups |
| CreateRepoAndProject.EnvStep | scripts/github/create_repo_and_project.py:460-471 | one more line extends the rewritten lines and sets the flag of the key it assigns |
| CreateRepoAndProject.RewriteLinesSnoc | scripts/github/create_repo_and_project.py:460-471 | one more line appends its rewriting |
| CreateRepoAndProject.SeenStep | scripts/github/create_repo_and_project.py:460-469 | a key is seen after one more line exactly when it was seen or that line assigns it |
| CreateRepoAndProject.UpdatedLinesInPlace | scripts/github/create_repo_and_project.py:459-479 | every line keeps its place: key lines get the new value, all other lines are copied; one line is appended per missing key |
| CreateRepoAndProject.KeysExclusive | scripts/github/create_repo_and_project.py:461-467 | no line assigns two of the keys |
| CreateRepoAndProject.KeysExclusiveAt | scripts/github/create_repo_and_project.py:461-467 | a line assigns at most one key |
| CreateRepoAndProject.KeyAt7 | scripts/github/create_repo_and_project.py:461-467 | the eighth character tells the three keys apart |
| CreateRepoAndProject.RewrittenAssignsNew | scripts/github/create_repo_and_project.py:461-471 | a rewritten key line carries the new value |
| CreateRepoAndProject.MissingAssignNew | scripts/github/create_repo_and_project.py:474-479 | every appended line carries the new value |
| CreateRepoAndProject.UpdatedLinesAssignNewValues | scripts/github/create_repo_and_project.py:459-479 | every key line written carries the new value; a missing owner is appended after a blank line; a file assigning all three keys keeps its length |
| SetupProjectTemplate.FirstTemplate | scripts/github/setup_project_template.py:99-107 | the position of the first listed project whose title contains `template` or `kanban` in any case, with none before it; none exactly when no title does |
| SetupProjectTemplate.GuessTemplate | scripts/github/setup_project_template.py:99-107 | the loop finds exactly the first likely template |
| SetupProjectTemplate.PromptedEntryListed | scripts/github/setup_project_template.py:121-130 | the manual prompt settles on a listed project's number, read from the first answer accepted after all earlier ones were rejected |
| SetupProjectTemplate.PromptedStep | scripts/github/setup_project_template.py:123-130 | the prompt stops at an accepted answer and otherwise reads the next one |
| SetupProjectTemplate.AskProjectNumber | scripts/github/setup_project_template.py:121-130 | the number prompt, each answer judged by whether it parses and names a listed project |
| SetupProjectTemplate.PromptLoop | scripts/github/setup_project_template.py:123-130 | the loop computes the prompting result |
| SetupProjectTemplate.PromptedChoosesFirstAccepted | scripts/github/setup_project_template.py:123-130 | the value of the first accepted answer is returned after every earlier answer was rejected; nothing is returned only when no answer is accepted, and then all were read |
| SetupProjectTemplate.Setup | scripts/github/setup_project_template.py:44-178 | keeping the configured template exits 0 and writes nothing; otherwise `.env` is written exactly when projects are listed, a number was chosen and the file exists, and then the chosen number names a listed project and the text is the new `.env`; the exit is 0 exactly when it is written or the template is kept; when the template is not kept and projects are listed, the number chosen is the guessed template's unless the answer is `n`/`no` or its number is 0, and otherwise the first accepted manual answer |
| SetupProjectTemplate.SubOneLine | scripts/github/setup_project_template.py:150-154 | an assignment line, whatever its value, becomes the new assignment and the line break stays |
| SetupProjectTemplate.SubWithoutKey | scripts/github/setup_project_template.py:150-154 | text without the key is left as it is |
| SetupProjectTemplate.RewritesTheAssignment | scripts/github/setup_project_template.py:147-154 | a file assigning the key once keeps everything before and after that line and carries the new assignment in its place |
| SetupProjectTemplate.NewEnvWithKey | scripts/github/setup_project_template.py:147-154 | with the key present, the key's lines are rewritten |
| SetupProjectTemplate.SubRewritesLine | scripts/github/setup_project_template.py:150-154 | rewriting the one assignment line between text without the key puts the new line in its place |
| SetupProjectTemplate.HasKey | scripts/github/setup_project_template.py:147 | text that has the key at some position contains it |
| SetupProjectTemplate.SubAssignmentLine | scripts/github/setup_project_template.py:150-154 | an assignment line ended by a break or the end becomes the new assignment |
| SetupProjectTemplate.SubPrefix | scripts/github/setup_project_template.py:150-154 | text without the key is copied up to the first occurrence |
| SetupProjectTemplate.SubPrefixStep | scripts/github/setup_project_template.py:150-154 | the first character of text without the key is copied ahead of it |
| SetupProjectTemplate.KeyHasOneG | scripts/github/setup_project_template.py:147 | the key's first character occurs nowhere else in it |
| SetupProjectTemplate.SubStep | scripts/github/setup_project_template.py:150-154 | where the key does not start, the first character is copied |
| SetupProjectTemplate.InsertsBeforeMarker | scripts/github/setup_project_template.py:156-161 | without the key, the `# AUTO-POPULATED` marker is preceded by the new assignment and a blank line |
| SetupProjectTemplate.ReplacePrefix | scripts/github/setup_project_template.py:158-161 | text without the marker is copied up to the first marker |
| SetupProjectTemplate.MarkerHasOneHash | scripts/github/setup_project_template.py:157 | the marker's first character occurs nowhere else in it |
| SetupProjectTemplate.NewEnvAssigns | scripts/github/setup_project_template.py:162-163 | without key and marker, the assignment is appended on a line of its own after a line break |
| PostTestResults.FormatTestResults | scripts/github/post_test_results.py:24-81 | the comment built by appending is the verdict header, the output block when there is output, and the next steps |
| PostTestResults.CommentStatesVerdict | scripts/github/post_test_results.py:39-60 | the comment opens with its verdict heading, and the two headings differ |
| PostTestResults.HeadingsDiffer | scripts/github/post_test_results.py:40-60 | the passed and failed headings differ |
| PostTestResults.PrefixOfParts | scripts/github/post_test_results.py:39-58 | the comment opens with its first part |
| PostTestResults.CommentShowsOutput | scripts/github/post_test_results.py:47-79 | non-empty output appears verbatim in a fenced block right after the header; empty or no output adds nothing; the comment ends with the next steps |
| PostTestResults.BlockParts | scripts/github/post_test_results.py:47-58 | where the parts of the output block sit |
| PostTestResults.SuffixOf | scripts/github/post_test_results.py:55-58 | the next steps close the comment |
| PostTestResults.Post | scripts/github/post_test_results.py:84-146 | the comment is posted first, and a failure to post it stops everything with that error; otherwise the moves, the close on a pass and the issue lookup follow, and the issue's URL is the result |
| PostTestResults.FollowUpsByVerdict | scripts/github/post_test_results.py:122-143 | a passed run moves the issue to Done and closes it; a failed one moves it to Test Failed and leaves it open; the issue lookup comes last |
| PostTestResults.Run | scripts/github/post_test_results.py:149-180 | the exit is 0 or 1; bad arguments make no request and exit 1; otherwise the first request posts the comment for the status given, and the exit is 0 exactly when it is posted and the issue's URL is read back |
| GreenfieldHandoff.Placeholder | scripts/utils/generate_greenfield_handoff.py:19 | the key between doubled braces |
| GreenfieldHandoff.GenerateHandoff | scripts/utils/generate_greenfield_handoff.py:13-23 | the loop applies one replacement per variable, in the order of the variables file |
| GreenfieldHandoff.SubstitutedWithoutPlaceholders | scripts/utils/generate_greenfield_handoff.py:17-20 | a template naming none of the keys is written unchanged |
| GreenfieldHandoff.PlaceholderHoldsNoOther | scripts/utils/generate_greenfield_handoff.py:19 | the placeholder of a key without braces contains no other key's placeholder |
| GreenfieldHandoff.UnknownPlaceholderKept | scripts/utils/generate_greenfield_handoff.py:17-20 | a placeholder whose key is not among the variables is left verbatim |
| GreenfieldHandoff.UnknownPlaceholderSurvives | scripts/utils/generate_greenfield_handoff.py:17-20 | wherever a template holds the placeholder of a brace-free key that no variable has (the variables' keys brace-free too), the handoff still holds it |
| GreenfieldHandoff.PlaceholdersApart | scripts/utils/generate_greenfield_handoff.py:19 | no occurrence of another brace-free key's placeholder overlaps a placeholder standing in the text |
| GreenfieldHandoff.PlaceholdersDiffer | scripts/utils/generate_greenfield_handoff.py:19 | placeholders of different brace-free keys differ within their common length |
| GreenfieldHandoff.PlaceholderStartsOnlyOnce | scripts/utils/generate_greenfield_handoff.py:19 | a placeholder cannot start inside another one's brace-free placeholder |
| GreenfieldHandoff.SinglePlaceholderReplaced | scripts/utils/generate_greenfield_handoff.py:17-20 | a template that is one variable's placeholder becomes its value |
| GreenfieldHandoff.Run | scripts/utils/generate_greenfield_handoff.py:26-42 | any number of arguments other than two exits 1 and writes nothing; otherwise the substituted template is written to `tmp/cursor-handoff-greenfield.md` |
| Strs.NatToStr | frontend/src/app/utils/openWebUiMessageConverter.ts:36 | the decimal rendering of a number is a non-empty run of digits, a single digit exactly below ten |
| Strs.IntToStr | frontend/src/app/pages/chat/components/ChatSidebar.tsx:82 | a number written into text is non-empty and, for a natural number, its decimal digits |
| Strs.DigitsValueOfNatToStr | scripts/github/check_dependencies.py:47 | reading a rendered number back with `int` gives the number itself |
| Strs.NatToStrInjective | frontend/src/app/utils/openWebUiMessageConverter.ts:36 | distinct numbers render as distinct strings, so ids built from indices never collide |
| Strs.LeadingDigits | scripts/github/check_dependencies.py:46 | what `\d+` matches at the start of a text: a prefix of digits followed by the end or a non-digit |
| Strs.LeadingDigitsOf | scripts/github/check_dependencies.py:46 | a run of digits followed by a non-digit is matched exactly |
| Strs.PyInt | scripts/github/setup_project_template.py:125 | `int` of a plain run of digits is the value of those digits |
| Strs.PyIntOfNegative | scripts/github/post_test_results.py:158 | `int` of a minus sign and digits is the negated value |
| Strs.StripKeepsDigits | scripts/github/setup_project_template.py:125 | stripping a run of digits leaves it unchanged |
| Strs.IndexOf | scripts/github/check_dependencies.py:37-41 | the position found is an occurrence with none before it, and one is found exactly when the text contains the pattern |
| Strs.IndexOfFromFinds | scripts/github/check_dependencies.py:37-41 | a search from a position finds the first occurrence at or after it |
| Strs.IndexOfFromMisses | scripts/github/check_dependencies.py:37-41 | a search finds nothing when there is no occurrence from that position on |
| Strs.Lower | frontend/src/app/components/user-list/UserList.tsx:33 | lower-casing keeps the length and lower-cases each character in place |
| Strs.PyStripEmptyIffAllSpace | scripts/github/create_pr.py:61 | a text is blank after `strip` exactly when every character is whitespace |
| Strs.JsTrimEmptyIffAllSpace | frontend/src/app/pages/chat/ChatPage.tsx:141 | a text is blank after `trim` exactly when every character is whitespace |
| Strs.JoinSplit | scripts/github/create_pr.py:52 | joining the pieces of a split with the separator restores the text |
| Strs.SplitJoin | scripts/github/create_tickets.py:42 | splitting a join of separator-free pieces gives the pieces back |
| Strs.Split | scripts/github/create_pr.py:52 | a split yields at least one piece and no piece holds the separator |
| Strs.ReplaceAllAbsent | scripts/utils/generate_greenfield_handoff.py:20 | `replace` leaves a text without the pattern unchanged |
| Strs.ReplaceAllWhole | scripts/utils/generate_greenfield_handoff.py:20 | `replace` turns the pattern itself into the replacement |
| Strs.ReplaceAllKeeps | scripts/utils/generate_greenfield_handoff.py:20 | a stretch no occurrence of the pattern overlaps comes through `replace` verbatim between the replaced text before and after it |
| Strs.UntouchedDrop | scripts/utils/generate_greenfield_handoff.py:20 | dropping the first characters keeps a stretch free of overlapping occurrences |
| Seqs.SliceBound | backend/api/background_tasks.py:105 | a slice bound is clamped into the sequence, and a negative one counts from the end |
| Seqs.LastK | backend/api/background_tasks.py:131 | `s[-k:]` on a longer sequence keeps exactly its last `k` elements |
| Seqs.LastKShort | backend/api/background_tasks.py:105 | `s[-k:]` keeps everything when the sequence has at most `k` elements |
| Seqs.MinusZero | backend/api/background_tasks.py:105 | `s[-0:]` is the whole sequence |
| Ordering.InsertDesc | backend/api/views/chat_views.py:20 | inserting into a list sorted by descending key keeps it sorted and adds exactly the element |
| Ordering.SortDesc | backend/api/views/chat_views.py:20 | ordering by a descending key yields a sorted permutation of the records |
| Json.Get | backend/api/background_tasks.py:54 | `.get(key)` yields the member exactly when the value is an object holding the key |
| Http.Fail | backend/api/views/chat_operations_views.py:35 | a refusal carries the given status code, `status: fail` and the given message |

## Left out

- Threads: each background job is started on a daemon thread; the model runs each job body to completion, one at a time, so interleavings of two jobs on one chat are not modelled.
- The single-flight refresh lock of Api.ts: whether the lock is held, and the tokens another request leaves behind, are inputs rather than a shared mutex.
- React effect scheduling, polling timers and re-renders: each effect and handler is one method call on the page's state.
- The Django ORM and DRF: querysets, `save()` and responses become maps keyed by id, assignments to their records, and a status code with a JSON body.
- Serializer field validation other than the `messages` check (lengths and types of titles and contents) is a boolean input, not DRF's field-by-field rules.
- Password hashing in `create_user` and the simplejwt login endpoint are not modelled.
- HTTP to OpenWebUI and GitHub, `git` and `subprocess`: functions from request to reply, fixed per call.
- JSON encoding and decoding (`json.dumps`, `json.loads`, `JSON.stringify`, `JSON.parse`), jwt-decode, `Date` parsing and `toLocaleString`: their results are inputs or opaque strings.
- Python `str()` and JavaScript string conversion of whole JSON values are rendering functions passed in; only the rendering of integers is written out.
- Floating point: temperatures are exact constants; JSON numbers are integers; score percentages are taken as integers.
- Regular expressions: the few patterns the code uses are stated directly as functions on strings (`#(\d+)`, `## Dependencies\n(.*?)(?=\n##|\Z)`, `^---\n(.*?)\n---`, `\S+@\S+\.\S+`, `/unit(\d+)/`, `- (.+)`, and the unanchored `GITHUB_TEMPLATE_PROJECT_NUMBER=.*`).
- ParsePlanningDocument: the tasks section `## Implementation Tasks\n\n(.*?)(?=\n##|\Z)` and the numbered-item pattern `\d+\.\s+\*\*(.+?)\*\*:\s+(.+?)(?=\n\d+\.|\Z)` (scripts/github/create_tickets.py:53-66) are not modelled; their (title, description) groups are the input `matches`.
- Case folding (`lower`, `toLowerCase`) covers ASCII letters only; other letters are kept as they are.
- CeilDiv: the exact integer ceiling; `math.ceil(total_items / page_size)` divides in floating point, which agrees with it only while the counts stay below 2^53.
- Msg: a stored message holds optional strings only; a `content` that is JSON null or a number, which `str(m.get('content', ''))` (backend/api/background_tasks.py:112) and the f-string of backend/api/utils/formatting.py:37 render as `None` or as its digits, is not modelled, and a missing content and a null one are both empty.
- ParseLeadingInt: reads decimal digits only; `parseInt` without a radix also reads a `0x` prefix as hexadecimal (`0x1A` is 26, the model gives 0).
- PyInt: accepts an optional sign and ASCII digits only; Python's `int` also accepts underscores between digits (`1_000`) and non-ASCII decimal digits, which `\d` (scripts/github/check_dependencies.py:46) matches too.
- ValidIff: counts the password in characters; `values.password.length` (frontend/src/app/pages/login/LoginPage.tsx:40) counts UTF-16 code units, so a password of characters outside the Basic Multilingual Plane reaches six sooner than the model says.
- ValidateForm: the same character count.
- OnSubmitForm: a login reply whose `data` holds no `detail` sets the message to `undefined` (frontend/src/app/pages/login/LoginPage.tsx:61), which the string-valued message cannot hold; such a reply is not modelled.
- Grouped: the groups are a map, so the order in which `Object.entries` lists the units on the dashboard (frontend/src/app/pages/dashboard/DashboardPage.tsx:45, insertion order for non-numeric keys) is not modelled; GroupedSpec states only which groups exist and what each holds.
- Logging, `print`, warnings and console output are left out; where a failure only warns, the model continues as the code does.
- File reads and writes in the scripts: a missing file is an `Option`, and a write is returned as a path and contents.
- `setup_project_template.py` asks for a project number in a `while True` loop; the model takes the typed answers as a finite list, and running out of answers ends like end of input (exit 1, nothing written).
- The avatars' image sources are not modelled; only ids and labels are.
- The scenario metadata of the dashboard lives in JSON assets and is an input.
- backend/api/views.py is an older copy of the views package and is not part of this model; the package modules under backend/api/views/ are.
- Presentation-only components, the RTK Query endpoint declarations, browser storage and the management commands are not part of this model.

## Findings

| source | as written | input that shows it | evidently intended | confidence | as-written member | corrected member |
|---|---|---|---|---|---|---|
| frontend/src/app/pages/chat/components/ChatSidebar.tsx:82 | the unlimited turn counter writes the three characters `âˆž`, the UTF-8 bytes of the infinity sign read as Windows-1252 | a chat without `max_turns` and 2 turns shows `2 / âˆž` | `2 / ∞`, one infinity sign | high, not executed | ChatSidebar.UnlimitedCounterIsGarbled | ChatSidebar.CounterEndsInLimit |
| frontend/src/app/pages/chat/ChatPage.tsx:292 | closing the welcome dialog stores `'chat-intro-' + id` with the route id as typed, while line 54 reads the flag under `'chat-intro-' + parseInt(id)` | route id `07`: the flag is stored as `chat-intro-07` and read as `chat-intro-7`, so the dialog reopens | the flag is stored under the key it is read from | medium, not executed | ChatPage.WelcomeReopensForPaddedId | ChatPage.ClosingDismissesWelcome |
| scripts/github/create_pr.py:52 | `result.stdout.strip().split('\n')` also strips the leading space of the first porcelain line, and line 57 then takes the path from position 3 | output ` M README.md` gives status `M ` and path `EADME.md` | path `README.md` with status ` M` | high, not executed | CreatePr.FirstPathLosesLetter | CreatePr.CheckGitStatusReadsPorcelain |
