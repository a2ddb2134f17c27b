# QQ study-bot message pipeline, modelled in Dafny

This project models the core of a QQ chat bot for students preparing for the
Chinese postgraduate exam. A message passes through these stages:

1. The message router admits the sender (`_pre_check`): ban status, then token
   quota, then the per-minute and the daily limit.
2. It finds or creates the conversation context, stores the user's message and
   runs the message-processing graph:
   - the input processor;
   - the rule-based intent recognizer;
   - the context loader;
   - the response generator or the error handler.
3. It stores the bot's reply.

Around the router sit these parts:

- the managers for users, token quotas and bans (with the abuse heuristics);
- the context manager over a hybrid cache/database storage;
- the database repositories the managers rely on;
- the text and entity helpers;
- the chat and role-play modules;
- the context commands;
- the LLM service's token estimate, message conversion and JSON-fence
  extraction.

Modules, one per file:

| file | module | models |
|---|---|---|
| common.dfy | Common | `Option`, `Outcome` (a value or a raised exception), dictionary values, the Python string operations used (`strip`, `split`, slicing, `in`, `join`, `str(int)`) |
| sorting.dfy | Sorting | Python's stable `sorted`/`list.sort` with a key, as insertion sort with its correctness lemmas |
| models.dfy | Models | the records and enums of `src/storage/models.py` and the computed properties of `TokenQuota` and `BanRecord` |
| text_helpers.dfy | TextHelpers | `TextHelper` and `EntityHelper` of `src/utils/helpers.py` |
| state.dfy | RobotStates | `src/core/state.py`: the robot state, `create_initial_state`, `clone_state`, `is_terminal_state` |
| intent.dfy | Intent | `src/core/intent.py`: rule sorting, pattern compilation, rule-based recognition, `add_rule`, `remove_rules_by_intent` |
| graph.dfy | Graph | `src/core/langgraph.py`: the node functions, the edge functions as a transition table, `process` |
| store.dfy | Store | the repositories of `src/storage/database.py` as one `Database` object whose tables are maps and sequences |
| users.dfy | Users | `UserManager` of `src/managers/user.py` |
| tokens.dfy | Tokens | `TokenController` of `src/managers/token.py` |
| bans.dfy | Bans | `BanManager` of `src/managers/ban.py` with its three per-user trackers |
| sessions.dfy | Sessions | `src/core/context.py`: cache, database and hybrid context storage, and `ContextManager` |
| router.dfy | Router | `MessageRouter` of `src/core/router.py` |
| context_cmd.dfy | ContextCommands | `ContextCommandModule` of `src/modules/context_cmd.py` |
| llm.dfy | Llm | `estimate_tokens`, `estimate_messages_tokens`, `_convert_messages`, the prompt list and the JSON-fence extraction of `src/service/llm_service.py` |
| chat.dfy | Chat | `ChatModule` of `src/modules/chat.py` |
| role_play.dfy | RolePlay | `RolePlayModule` of `src/modules/role_play.py` |

## Conventions

Time is an integer number of seconds from an injected clock (`now`). Confidences
are integer hundredths. A call that can raise a Python exception returns an
`Outcome`: `Ok(value)` or `Raised(message)`.

The durable store is a `Database` object. Its flag `up` says whether the
database answers; when it is false, every repository call raises. The Redis
cache is a `CacheStorage` object with its own `up` flag: a cache failure is
logged and reported as `False` or `None`, exactly as the context storage
does.

Randomness is supplied by the caller:
- generated ids (uuid parts, message ids);
- the regular-expression search of intent patterns, as a `Matcher` predicate;
- the LLM's reply, as an `Outcome<string>` parameter.

### Behaviour kept as the code has it

- `process` reports COMPLETED after every graph run that returns, even one
  that ended in the error handler. `_should_end` answers "end" on both branches.
- An injected classifier that raises with an empty message leaves
  `error_message` empty. The run then goes on to the generator with intent
  UNKNOWN (`Graph.SilentClassifierFailure`).
- With no city in the text, the weather default response reads
  "正在查询None的天气信息...". This is because the input processor always
  sets the `location` key (`Graph.WeatherWithoutCity`).
- The router looks group contexts up under `group_<gid>`, an id
  `create_context` never mints (it mints `ctx_…`). Every group message
  therefore opens a new context (`Router.GroupLookupMisses`).
- The router stores every user message as TEXT, whatever its type
  (`Router.StoredMessageTypeIsText`). It stores the bot's reply with role USER.
- `_pre_check` runs the quota check with `tokens=0`, so only the per-minute
  limit can refuse there. Any exception admits the sender.
- `_pre_check`'s separate minute check can never refuse: the quota check
  before it has already refused on the same condition. `_pre_check` also
  consults the ban before the quota, so the ban text for a ban with no time
  left is never produced (`Router.BanNoticeOf`).
- `unban_user` moves the active ban's expiry to now. For a PERMANENT ban the
  record is still selected as active afterwards (`Bans.UnbanEffect`).
- `get_messages` with a negative limit drops messages from the front
  (`Sessions.NegativeLimitDropsFront`).
- `truncate_text` with a suffix longer than the limit returns more than
  `max_length` characters (`TextHelpers.TruncateTextShortLimit`).
- `cmd_join_context` passes an empty user name to `add_participant`.
- `activate_role` answers True once the context is assigned, even when saving
  it fails.
- The role lookup of `generate_response` runs outside its `try`, so a
  repository error propagates to the caller. The history read of
  `_build_messages` also sits outside that `try`, but it cannot raise: the
  cache and database reads each catch their own errors and answer None
  (src/core/context.py:115-124, 171-180), and the hybrid read only combines
  them (src/core/context.py:258-270).
## Model

| member | source | states |
|---|---|---|
| Sorting.SortByCorrect | src/core/intent.py:143-145 | Sorting by a key yields a key-ordered permutation of the input that keeps elements with equal keys in input order, as Python's stable `sorted` does |
| Sorting.SortBySortedInput | src/core/intent.py:321-322 | A list already in key order is returned unchanged |
| Models.RoleValue | src/storage/models.py:80-88 | Each message role has its own value: "user", "assistant" or "system", and only that member has it |
| Models.Remaining | src/storage/models.py:277-280 | `remaining` is never negative and equals `total_quota - used` whenever that is positive, else 0 |
| Models.DailyRemaining | src/storage/models.py:282-285 | `daily_remaining` is never negative and equals `daily_limit - daily_used` whenever that is positive, else 0 |
| Models.Recent | src/storage/models.py:287-293 | Every request the minute filter keeps is less than 60 seconds old |
| Models.RecentExactly | src/storage/models.py:295-301 | The filter keeps every request younger than 60 seconds, as often as it was logged, and drops every other one |
| Models.RecentAppend | src/storage/models.py:295-301 | Filtering a concatenation is the concatenation of the filtered parts, so the log order is kept |
| Models.RecentKeepsRecent | src/storage/models.py:295-301 | A log holding only recent requests is left whole |
| Models.RecentIdempotent | src/storage/models.py:295-301 | Validating an already validated log at the same instant changes nothing |
| Models.MinuteLimitExceededIff | src/storage/models.py:287-293 | The minute limit is exceeded exactly when the logged requests minus those 60 seconds old or older number at least `minute_limit` |
| Models.BanRemainingSeconds | src/storage/models.py:343-351 | None exactly for a PERMANENT ban; 0 for a temporary ban without expiry; otherwise `max(0, expires_at - now)` |
| Models.BanActiveIffTimeLeft | src/storage/models.py:334-351 | A temporary ban is active exactly while its remaining seconds are positive |
| Models.BanExpiresExactly | src/storage/models.py:334-341 | A temporary ban with an expiry is active at every instant before it and inactive from the expiry on |
| TextHelpers.Collapse | src/utils/helpers.py:34 | The `\s+` substitution never lengthens the text, empties only the empty text, and keeps whether the first and last characters are whitespace |
| TextHelpers.CollapseSingleSpaced | src/utils/helpers.py:64-66 | After the substitution every whitespace character is a plain space and no two are adjacent |
| TextHelpers.CleanText | src/utils/helpers.py:46-67 | The cleaned text has no whitespace at either end, every whitespace in it is a single space, and empty input gives "" |
| TextHelpers.CleanTextIdempotent | src/utils/helpers.py:46-67 | Cleaning a cleaned text changes nothing |
| TextHelpers.CleanTextBlank | src/utils/helpers.py:61-66 | A text made only of whitespace cleans to "" |
| TextHelpers.TruncateTextSpec | src/utils/helpers.py:70-89 | With a suffix no longer than the limit: a text that fits is unchanged; a longer one becomes its first `max_length - len(suffix)` characters plus the suffix, exactly `max_length` long |
| TextHelpers.TruncateTextShortLimit | src/utils/helpers.py:87-89 | With a suffix longer than the limit, the negative slice end counts from the end of the text, so the result is longer than `max_length` |
| TextHelpers.RemovePunctuation | src/utils/helpers.py:92-108 | The result holds no ASCII or listed Chinese punctuation and is no longer than the input |
| TextHelpers.RemovePunctuationAppend | src/utils/helpers.py:106-108 | Removal acts character by character: removing from a concatenation concatenates the results, so the order of what stays is kept |
| TextHelpers.RemovePunctuationKeeps | src/utils/helpers.py:106-108 | A text without punctuation is returned whole |
| TextHelpers.RemovePunctuationDropsYi | src/utils/helpers.py:105 | The ideograph 一 is in the Chinese punctuation table, so it is removed wherever it stands |
| TextHelpers.ExtractNumbersRun | src/utils/helpers.py:128-141 | A non-empty run of digits is read as the single number it spells |
| TextHelpers.ExtractNumbersSplit | src/utils/helpers.py:128-141 | A non-digit separates the numbers found on its two sides: the result on `a + c + b` is the result on `a` followed by the result on `b` |
| TextHelpers.ExtractNumbersNone | src/utils/helpers.py:128-141 | A text with no digit yields no number |
| TextHelpers.FirstHitIs | src/utils/helpers.py:333-337 | The keyword scan reports the first table entry contained in the text |
| TextHelpers.TimeEntities | src/utils/helpers.py:303-348 | The four keys are present; `minute` is None; `hour` is the first number when it is at most 23, else None; `has_time` holds exactly when a time type or an hour was found |
| TextHelpers.TimeTypeFirstKeyword | src/utils/helpers.py:324-337 | The time type is the one of the first table keyword the text contains |
| TextHelpers.TimeTypeNone | src/utils/helpers.py:324-337 | Without a time keyword the time type is None |
| TextHelpers.LocationEntities | src/utils/helpers.py:352-391 | Both keys are present, and `has_location` holds exactly when a location was found |
| TextHelpers.LocationFirstCity | src/utils/helpers.py:368-389 | The location is the first listed city the text contains |
| TextHelpers.LocationNone | src/utils/helpers.py:368-389 | Without a listed city the location is None |
| TextHelpers.ExtractIntentHints | src/utils/helpers.py:395-434 | `has_command` holds exactly when the text starts with "/" or "！"; the command is then the first whitespace-separated token after the marker; `has_query` holds exactly when a query type is set |
| TextHelpers.IntentHintsCommand | src/utils/helpers.py:412-417 | For "/" + word + a whitespace-led rest, the command is exactly the word |
| RobotStates.CreateInitialState | src/core/state.py:197-226 | The arguments are copied in; the stage is RECEIVED, the intent UNKNOWN with confidence 0, and there is no error, response, context or entity; the state is not terminal |
| RobotStates.CloneState | src/core/state.py:229-242 | `updated_at` becomes now; the ids and the creation time are kept; the stage takes its update when one is given; stage, response and error code are kept when not updated |
| RobotStates.CloneWithoutUpdates | src/core/state.py:229-242 | A clone without updates differs from the original only in `updated_at` |
| RobotStates.TerminalStages | src/core/state.py:245-257 | A state is terminal exactly when its stage is COMPLETED or FAILED |
| Intent.SortByPriorityCorrect | src/core/intent.py:143-145 | The recognizer's rule list is in non-increasing priority, holds exactly the given rules, and keeps rules of equal priority in their given order |
| Intent.AddToSorted | src/core/intent.py:321-322 | Appending a rule to a sorted list and re-sorting inserts it after every rule of equal or higher priority |
| Intent.CompilePatterns | src/core/intent.py:148-155 | Compiling a rule's patterns yields one (rule, pattern) pair per pattern, in pattern order |
| Intent.CompileAllFor | src/core/intent.py:148-155 | After compilation every pair belongs to a listed rule and one of its patterns, and every pattern of every rule has its pair |
| Intent.CompileRules | src/core/intent.py:148-155 | The compilation loop produces the pairs of every rule in rule order |
| Intent.CompileRuleLoop | src/core/intent.py:149-155 | The inner loop produces one pair per pattern of the rule, in pattern order |
| Intent.Prepare | src/core/intent.py:143-155 | The starting rules are the sorted given rules and the pairs are their compiled patterns; the rules are in priority order and the pairs consistent with them |
| Intent.IntentRecognizer.constructor | src/core/intent.py:134-157 | A new recognizer holds the given rules (the defaults when none are given) sorted by priority, with every pattern compiled |
| Intent.MatchCount | src/core/intent.py:284 | The count is at most the number of keywords and is zero exactly when the text contains none of them |
| Intent.KeywordConfidence | src/core/intent.py:274-297 | 0 without a keyword hit; otherwise 80 or 90 hundredths for a text shorter than 20 characters and 72 or 81 for a longer one, the lower value exactly when one keyword matches |
| Intent.PatternHitOwnPatterns | src/core/intent.py:256-258 | With consistent compiled pairs, a rule's pattern hit is exactly a match of one of its own patterns |
| Intent.RecognizeBlank | src/core/intent.py:190-206 | Empty or whitespace-only input is UNKNOWN with confidence 0 |
| Intent.RecognizeCommand | src/core/intent.py:221-236 | A text starting with a command marker and containing a COMMAND keyword is COMMAND with confidence 95 and the first word after the marker as its `command` entity, whatever the rule priorities |
| Intent.ScanFirstHit | src/core/intent.py:239-263 | The first non-COMMAND rule that hits decides the intent; its confidence is the keyword confidence for a keyword hit, else 85 |
| Intent.ScanNoHit | src/core/intent.py:265-271 | When no non-COMMAND rule hits, the result is CHAT with confidence 50 |
| Intent.RecognizeFirstHit | src/core/intent.py:190-263 | Recognition of a non-blank text without the command short-cut yields the intent of the first hitting non-COMMAND rule in list order |
| Intent.CatchAllRuleHits | src/core/intent.py:104-110 | With the CHAT rule's catch-all pattern compiled, the 50-hundredths fall-back is never reached |
| Intent.GivenRules | src/core/intent.py:141-142 | Custom rules, when given, are the ones used |
| Intent.IntentRecognizer.AddRule | src/core/intent.py:315-332 | The rule is inserted stably by priority, its patterns are appended to the compiled pairs, and the recognizer stays sorted and consistent |
| Intent.IntentRecognizer.RemoveRulesByIntent | src/core/intent.py:334-350 | Every rule and compiled pair of the intent goes, the others stay in order, the count removed is returned, and the recognizer stays sorted and consistent |
| Intent.WithoutIntent | src/core/intent.py:343 | The remaining rules are exactly those with another intent |
| Intent.CompiledWithoutIntent | src/core/intent.py:344-346 | The remaining compiled pairs are exactly those whose rule has another intent |
| Intent.RemovedCount | src/core/intent.py:342-349 | The number reported is the number of rules that had the intent |
| Intent.RemoveTwice | src/core/intent.py:334-350 | A second removal of the same intent removes nothing and reports 0 |
| Intent.RemovePreserves | src/core/intent.py:343-346 | Removal keeps the rules in priority order and the compiled pairs consistent with them |
| Graph.InputProcessorNode | src/core/langgraph.py:155-191 | The content becomes its cleaned text; the entities are the time entities overlaid with the location entities of that text; the stage is PREPROCESSING; error fields and intent are untouched |
| Graph.IntentClassifierNode | src/core/langgraph.py:193-236 | On success the intent and confidence are the classifier's and its entities are merged over the state's; when the classifier raises, the error message is recorded with INTENT_CLASSIFY_ERROR, the intent is UNKNOWN and the stage FAILED |
| Graph.ContextLoaderNode | src/core/langgraph.py:239-267 | The node changes nothing but the stage, which ends at PROCESSING |
| Graph.DefaultResponse | src/core/langgraph.py:409-429 | The default response is never empty |
| Graph.DefaultResponseDepends | src/core/langgraph.py:418-429 | The default response depends only on the intent, the `location` entity (for WEATHER) and the text (for CHAT) |
| Graph.ResponseGeneratorNode | src/core/langgraph.py:269-302 | A generated text becomes the response with stage POSTPROCESSING; an exception records RESPONSE_GENERATE_ERROR, sets FAILED and answers the fixed apology; the default generator always answers non-empty text |
| Graph.ErrorResponse | src/core/langgraph.py:318-328 | Each of the three error codes has its own apology, and every other code gets the generic one |
| Graph.ErrorHandlerNode | src/core/langgraph.py:305-330 | The stage becomes FAILED and the response the apology for the error code; nothing else changes |
| Graph.RouteByIntent | src/core/langgraph.py:348-377 | An error message routes to the error handler; otherwise WEATHER, ROLE_PLAY and the four CONTEXT intents go to their own targets and every other intent to chat |
| Graph.NextNode | src/core/langgraph.py:95-148 | Input goes to the classifier unless there is an error; the classifier goes to the context loader for the CONTEXT intents, to the error handler on error, else to the generator; the loader goes to the generator unless there is an error; generator and error handler end |
| Graph.ShouldEnd | src/core/langgraph.py:394-405 | Both branches of the end test answer "end" |
| Graph.Apply | src/core/langgraph.py:155-330 | No node changes the message, user, group or context ids or the creation time; the generator ends in POSTPROCESSING or FAILED; the error handler ends FAILED with a non-empty response |
| Graph.Process | src/core/langgraph.py:432-461 | A run that returns is reported COMPLETED (a terminal stage) whatever it did; a runtime exception returns the incoming state FAILED with GRAPH_EXECUTION_ERROR; the message and context ids are kept |
| Graph.RunKeepsIdentity | src/core/langgraph.py:432-461 | A whole run keeps the ids and the creation time of the state |
| Graph.RunSettles | src/core/langgraph.py:95-148 | Every run ends after the generator (POSTPROCESSING, or FAILED when it raised) or after the error handler (FAILED) |
| Graph.RunResponds | src/core/langgraph.py:269-330 | With the default generator, every run produces a non-empty response |
| Graph.WeatherWithoutCity | src/core/langgraph.py:172-184 | A WEATHER message without a listed city, classified by a classifier that reports no location, is answered "正在查询None的天气信息..." because the input processor always sets the `location` key |
| Graph.DefaultRecognizerNoLocation | src/core/langgraph.py:207-215 | The rule-based recognizer reports no `location` entity |
| Graph.InputLocation | src/core/langgraph.py:172-184 | The `location` entity after input processing is the one extracted from the cleaned text |
| Graph.RecognizeEntities | src/core/intent.py:211-271 | The rule-based recognizer reports no entity other than `command` |
| Graph.SilentClassifierFailure | src/core/langgraph.py:230-236 | A classifier that raises with an empty message leaves the error message empty, so the run continues to the generator and ends in POSTPROCESSING with intent UNKNOWN, the plain acknowledgement, and INTENT_CLASSIFY_ERROR still set |
| Graph.UnknownFallback | src/core/langgraph.py:409-429 | From the generator, an UNKNOWN intent gets the plain acknowledgement and the run ends in POSTPROCESSING |
| Graph.ClassifierFailureHandled | src/core/langgraph.py:193-236 | A classifier exception with a message leads to the error handler, which ends FAILED and answers that the message was not understood |
| Store.MessagesOf | src/storage/database.py:603-612 | A context's stored messages are exactly the message rows carrying its id |
| Store.LoadOrdered | src/storage/database.py:598-640 | Loading a context returns its stored messages ordered by timestamp, a permutation of them, with `max_messages` 200 |
| Store.LoadQuota | src/storage/database.py:769-784 | A quota row is loaded unchanged except that its minute log keeps only the requests less than 60 seconds old, as the model's validator does |
| Store.LatestCandidate | src/storage/database.py:866-883 | The selected ban is one of the user's records that is PERMANENT or expires after now, none of them started later, and there is none exactly when no record qualifies |
| Store.BanKeyMatches | src/storage/database.py:839-845 | The rows found for a ban update are exactly those with the user id and the start time |
| Store.ActiveRoles | src/storage/database.py:984-991 | The listed role rows are exactly the enabled ones |
| Store.FindRole | src/storage/database.py:946-953 | The role found carries the asked id, and there is none exactly when no row has it |
| Store.Database.constructor | src/storage/database.py:255-261 | A new store has empty tables and the given availability |
| Store.Database.GetUser | src/storage/database.py:289-305 | Raises exactly when the database is down; otherwise the stored user, or None exactly when absent |
| Store.Database.CreateUser | src/storage/database.py:264-287 | Succeeds exactly when the database is up and the id is new; the user is then added at the end of the table; nothing else changes |
| Store.Database.UpdateUser | src/storage/database.py:328-351 | Raises exactly when the database is down; every column but the creation time of the row with the user's id is rewritten; an absent row stays absent; nothing else changes |
| Store.Database.GetOrCreateUser | src/storage/database.py:307-326 | Raises exactly when the database is down; a stored user is returned unchanged; otherwise an active, unbanned user with that id, the nickname, no context or metadata, created and active now, is stored and returned |
| Store.Database.ListAllUsers | src/storage/database.py:369-384 | Raises exactly when the database is down; otherwise the first 100 users in insertion order (or all of them when fewer) |
| Store.Database.CreateContext | src/storage/database.py:436-463 | Succeeds exactly when the database is up and the id is new; the row is stored without messages and handed back loaded |
| Store.Database.GetContext | src/storage/database.py:465-481 | Raises exactly when the database is down; otherwise the loaded context, or None exactly when absent |
| Store.Database.UpdateContext | src/storage/database.py:483-509 | Raises exactly when the database is down; the row becomes the updated row (see Store.UpdatedRow); an absent row stays absent |
| Store.Database.ListExpired | src/storage/database.py:553-571 | Exactly the ids of ACTIVE contexts whose expiry lies before now |
| Store.Database.AddMessage | src/storage/database.py:573-594 | One message row is appended, and nothing else changes |
| Store.Database.GetQuota | src/storage/database.py:663-679 | Raises when the database is down or the stored row breaks the quota's field constraints; None when the user has no quota; otherwise the row loaded with its minute log pruned |
| Store.Database.CreateQuota | src/storage/database.py:681-704 | Succeeds exactly when the database is up and the user has no quota yet; the quota is stored and handed back loaded |
| Store.Database.UpdateQuota | src/storage/database.py:706-730 | The row with the quota's user id is rewritten, if there is one, and the given quota is handed back |
| Store.Database.IncrementUsed | src/storage/database.py:732-748 | Succeeds exactly when the database is up and a valid quota is stored; both `used` and `daily_used` of the loaded quota then grow by `tokens` and it is stored; otherwise nothing changes |
| Store.Database.ResetDaily | src/storage/database.py:750-765 | Succeeds exactly when the database is up and a valid quota is stored; `daily_used` of the loaded quota then becomes 0 and `daily_reset` now plus one day, the rest kept |
| Store.Database.CreateBan | src/storage/database.py:807-828 | Raises exactly when the database is down; otherwise the record is appended to the ban table and nothing else changes |
| Store.Database.UpdateBan | src/storage/database.py:830-855 | Succeeds exactly when the database is up and exactly one record has the user and start time; that record gets the new expiry and details and nothing else changes; otherwise nothing changes |
| Store.Database.GetActiveBan | src/storage/database.py:857-883 | Raises exactly when the database is down; otherwise the latest-started record that is permanent or expires after now |
| Store.Database.ListBansByUser | src/storage/database.py:885-901 | Raises exactly when the database is down; otherwise exactly the user's records, latest start first |
| Store.Database.GetRole | src/storage/database.py:937-953 | Raises exactly when the database is down; otherwise the stored role with that id, None exactly when there is none |
| Store.Database.CreateRole | src/storage/database.py:955-976 | Succeeds exactly when the database is up and the id is new; the role is appended |
| Store.Database.ListActiveRoles | src/storage/database.py:978-991 | Raises exactly when the database is down; otherwise exactly the enabled roles, oldest first |
| Store.UpdatedRow | src/storage/database.py:494-504 | An update keeps id, creator, creation time, messages and bound; it takes status and participants from the context and stamps the update time |
| Store.RowsOf | src/storage/database.py:379-384 | One user per listed id, in the listed order |
| Store.UserBans | src/storage/database.py:894-899 | Exactly the records of that user |
| Store.ListBansByUserCorrect | src/storage/database.py:885-901 | Listing a user's bans returns exactly that user's records, latest start first |
| Store.ListActiveRolesCorrect | src/storage/database.py:978-991 | Listing roles returns exactly the enabled roles, oldest first |
| Sessions.RewriteLoaded | src/core/context.py:644-674 | A context loaded from its row, given a new status and written back, changes only the row's status and update time |
| Sessions.SoftDeleted | src/core/context.py:201-214 | A soft delete keeps every row and changes only the deleted one, whose status becomes DELETED |
| Sessions.PyTail | src/core/context.py:568 | Python's `s[-n:]`: the last n elements for positive n, the elements after the first -n for negative n |
| Sessions.Trimmed | src/core/context.py:563-568 | After an append the list ends with the new message, holds at most `max_messages` entries, is a suffix of the old list plus the message, and is the whole of it while it fits |
| Sessions.Latest | src/core/context.py:588-592 | Without a limit, with limit 0 or with at most `limit` messages, all of them; with a positive limit, the last `limit` |
| Sessions.NegativeLimitDropsFront | src/core/context.py:589-590 | A negative limit drops messages from the front instead of keeping the last ones |
| Sessions.Left | src/core/context.py:509-513 | The leaving user's current context is no longer this one; every other user is untouched; the only possible change is clearing the current context |
| Sessions.Detached | src/core/context.py:439-446 | After the loop no participant still has this context as current; users outside the participant list are untouched |
| Sessions.RemoveFirst | src/core/context.py:502 | `list.remove` takes one occurrence out: one element fewer, the same multiset minus the removed value, and it is gone when the list had no duplicates |
| Sessions.Departed | src/core/context.py:502-507 | One occurrence of the user leaves the participants; the context is archived exactly when the user is its creator; only participants, status and update time change |
| Sessions.Joined | src/core/context.py:480-481 | The user is appended to the participants; only participants and update time change |
| Sessions.Appended | src/core/context.py:563-568 | The context's messages end with the new one and stay within the bound; only messages and update time change |
| Sessions.NewContext | src/core/context.py:363-386 | The new context carries the `ctx_` id, its creator among the participants after the given ones, ACTIVE with no messages, the default bound, an expiry of `hours` hours exactly when a non-zero number of hours is given, and the given name when it is not empty |
| Sessions.Ensured | src/core/context.py:477-478 | Making sure a user exists adds it when absent and keeps every existing user |
| Sessions.CacheStorage.constructor | src/core/context.py:104-112 | A new cache is empty |
| Sessions.CacheStorage.Get | src/core/context.py:115-124 | A hit exactly when the cache is up and holds the id |
| Sessions.CacheStorage.Save | src/core/context.py:127-135 | True exactly when the cache is up, which then stores the context under its id |
| Sessions.CacheStorage.Delete | src/core/context.py:138-146 | True exactly when the cache is up, which then drops the id |
| Sessions.DatabaseStorage.Get | src/core/context.py:171-180 | A hit exactly when the database is up and holds the row, loaded with its messages; errors become a miss |
| Sessions.DatabaseStorage.Save | src/core/context.py:183-198 | True exactly when the database is up; the row is updated when present and created otherwise |
| Sessions.DatabaseStorage.Delete | src/core/context.py:201-214 | True exactly when the database is up and the row exists; the row is soft-deleted |
| Sessions.DatabaseStorage.ListActive | src/core/context.py:217-229 | Exactly the ACTIVE stored contexts, restricted to those the user takes part in when a non-empty user id is given; nothing when the database is down |
| Sessions.HybridStorage.View | src/core/context.py:258-270 | A read answers the cache's copy when it has one, otherwise the durable copy |
| Sessions.HybridStorage.Backfilled | src/core/context.py:266-269 | A durable hit is written into the cache when the cache is up |
| Sessions.HybridStorage.Get | src/core/context.py:258-270 | A read returns the cache's copy or the durable one, back-fills the cache, and afterwards reads the same |
| Sessions.HybridStorage.Save | src/core/context.py:273-277 | Saved to both storages; true exactly when both succeed |
| Sessions.HybridStorage.Delete | src/core/context.py:280-284 | Removed from the cache and soft-deleted in the durable table; true exactly when both succeed |
| Sessions.HybridStorage.ListActive | src/core/context.py:287-289 | Listing is served by the durable storage alone |
| Sessions.ContextManager.constructor | src/core/context.py:310-335 | The manager wires a hybrid storage over the cache and the store it is given |
| Sessions.ContextManager.GetContext | src/core/context.py:402-411 | The hybrid read, with its back-fill |
| Sessions.ContextManager.UpdateContext | src/core/context.py:414-427 | The update time is stamped and the context saved to both storages; true exactly when both are up |
| Sessions.ContextManager.CreateContext | src/core/context.py:339-399 | The creator is made to exist, the new context stored in the durable table and the cache, and the creator's current context set to it; a down database or an id already taken raises with no context stored |
| Sessions.ContextManager.Register | src/core/context.py:389-390 | The row is inserted and the loaded copy saved to both storages; a down database or a taken id raises and changes nothing |
| Sessions.ContextManager.DeleteContext | src/core/context.py:430-451 | Every participant whose current context it was loses it, the row is soft-deleted and the cache entry dropped; true exactly when the cache is up and the row existed; a down database changes no user or row |
| Sessions.ContextManager.DetachAll | src/core/context.py:442-446 | The participants, one by one, lose this context as current; raises exactly when the database is down and there is a participant |
| Sessions.ContextManager.DetachOne | src/core/context.py:443-446 | One participant loses this context as current |
| Sessions.ContextManager.AddParticipant | src/core/context.py:455-482 | An unknown context answers false and a member true, with no write; otherwise the user is made to exist and appended once, and the context saved; a failure (the database down) changes no user and no context row |
| Sessions.ContextManager.RemoveParticipant | src/core/context.py:485-515 | An unknown context answers false and a non-member true, with no write; otherwise one occurrence of the user leaves, the context is archived if the user created it, the user's current context cleared if it was this one, and the context saved |
| Sessions.ContextManager.Withdraw | src/core/context.py:502-515 | The writes of a removal: the user leaves, then the departed context is saved |
| Sessions.ContextManager.AddMessage | src/core/context.py:519-570 | An unknown context answers false and writes nothing; otherwise the message gets a row of its own and the context, holding the newest messages up to its bound, is saved |
| Sessions.ContextManager.Record | src/core/context.py:560-570 | The writes of an append: the message row, then the trimmed context |
| Sessions.ContextManager.GetMessages | src/core/context.py:572-592 | The latest messages of the context as the storage shows it, none for an unknown context |
| Sessions.ContextManager.ListActiveContexts | src/core/context.py:595-604 | The ACTIVE contexts, restricted to the user's when one is given |
| Sessions.ContextManager.GetUserContext | src/core/context.py:606-619 | The context read through the storage for the user's current context id; None when the user is unknown or has none |
| Sessions.ContextManager.PauseContext | src/core/context.py:644-658 | A shown context is saved PAUSED; true exactly when it is shown and both storages are up; an unknown one changes nothing |
| Sessions.ContextManager.ResumeContext | src/core/context.py:660-674 | A shown context is saved ACTIVE; true exactly when it is shown and both storages are up; an unknown one changes nothing |
| Sessions.ContextManager.SweepOne | src/core/context.py:633-640 | A context is marked EXPIRED and saved exactly when it is ACTIVE with an expiry before now |
| Sessions.ContextManager.CleanupExpired | src/core/context.py:622-642 | Every ACTIVE context whose expiry lies before now is marked EXPIRED in both storages and nothing else changes; the count returned is the number of them |
| Sessions.SweptAll | src/core/context.py:631-639 | Once every listed context has been handled, the expired ids are exactly the ACTIVE contexts whose expiry lies before now |
| Sessions.SweptRows | src/core/context.py:632-639 | The sweep changes exactly the expired rows among those handled |
| Sessions.SweptCache | src/core/context.py:636-638 | The sweep stores in the cache the loaded, expired copy of each expired context it handled, and leaves every other entry |
| Sessions.SweptIdsStep | src/core/context.py:632-639 | Handling one more id adds it to the expired ids exactly when it has expired |
| Sessions.SweptCountStep | src/core/context.py:639 | Handling one more id adds one to the count exactly when it has expired |
| Sessions.SweptRowsStep | src/core/context.py:636-638 | Handling one more id changes at most that id's row |
| Sessions.SweptCacheStep | src/core/context.py:636-638 | Handling one more id changes at most that id's cache entry |
| Users.Merge | src/managers/user.py:448-449 | `dict.update`: the keys of both, the new value for every key of the update, the old value for every other key |
| Users.ApplyEdit | src/managers/user.py:165-312 | A flag or field setter never changes the user id, the creation time or the activity time |
| Users.NewUser | src/managers/user.py:109-115 | The new user is active, not banned, without a current context, and takes its id as nickname when none is given |
| Users.EligibleUsers | src/managers/user.py:377 | Exactly the active, unbanned users |
| Users.ActiveUsersCorrect | src/managers/user.py:364-380 | Only active, unbanned users are listed, most recently active first, at most `limit` of them, and all of them when the limit allows |
| Users.UserManager.constructor | src/managers/user.py:54-73 | The manager works on the store it is given |
| Users.UserManager.UpdateUser | src/managers/user.py:150-163 | The user, stamped active now, replaces the stored row (its creation time kept); raises exactly when the database is down |
| Users.UserManager.Rewrite | src/managers/user.py:165-312 | A setter answers false for an unknown user with no write; otherwise the edited user, stamped active now, is stored |
| Users.UserManager.CreateUser | src/managers/user.py:93-120 | Succeeds exactly when the database is up and the id is new; the new user is stored |
| Users.UserManager.GetOrCreateUser | src/managers/user.py:123-147 | An unknown user is created; a known one is returned unchanged unless a different non-empty nickname is given, which is then stored; no other user changes |
| Users.UserManager.UpdateNickname | src/managers/user.py:165-181 | An existing user gets the nickname and is stamped active; false for an unknown user |
| Users.UserManager.SetBannedFlag | src/managers/user.py:183-219 | `ban_user` and `unban_user` set exactly the banned flag of an existing user; false for an unknown user |
| Users.UserManager.SetActiveFlag | src/managers/user.py:221-257 | `deactivate_user` and `activate_user` set exactly the active flag of an existing user; false for an unknown user |
| Users.UserManager.SetUserContext | src/managers/user.py:275-312 | `set_user_context` and `clear_user_context` set exactly the current context of an existing user; false for an unknown user |
| Users.UserManager.UpdateLastActive | src/managers/user.py:347-362 | An existing user's activity time becomes now, nothing else changes; false for an unknown user |
| Users.UserManager.UpdateUserMetadata | src/managers/user.py:428-454 | An existing user's metadata is merged with or replaced by the given one; false for an unknown user |
| Users.UserManager.IsUserActive | src/managers/user.py:392-402 | True exactly for a stored, active user |
| Users.UserManager.IsUserBanned | src/managers/user.py:404-414 | True exactly for a stored, banned user |
| Users.UserManager.GetUserMetadata | src/managers/user.py:416-426 | The stored user's metadata, empty for an unknown user |
| Users.UserManager.GetActiveUsers | src/managers/user.py:364-380 | Raises exactly when the database is down; every listed user is a stored, active, unbanned user, most recently active first, at most `limit` of them |
| Tokens.DefaultQuota | src/managers/token.py:314-341 | A fresh quota of 50000 tokens, 5000 a day and 200 requests a minute, unused, with an empty log and the first reset a day away |
| Tokens.DailyRolled | src/managers/token.py:343-360 | Once now reaches the reset time today's usage is cleared and the next reset is a day away; before it nothing changes; either way the next reset lies in the future |
| Tokens.QuotaViewShape | src/managers/token.py:75-93 | A quota handed back by `get_quota` belongs to the user, is valid, logs only the last minute's requests, has its next reset in the future, and keeps the stored total and usage |
| Tokens.QuotaViewStable | src/managers/token.py:75-93 | Storing the quota `get_quota` handed back and loading again at the same instant gives the same quota |
| Tokens.RecordedLog | src/managers/token.py:362-375 | The new log is the last minute's requests followed by now |
| Tokens.MinuteLimitOkIff | src/managers/token.py:378-390 | The private minute check passes exactly when the quota's own exceeded flag is off, that is when fewer than `minute_limit` logged requests are less than a minute old |
| Tokens.DailyLimitOkIff | src/managers/token.py:393-402 | The daily check passes exactly while today's usage is below the daily limit |
| Tokens.CheckQuotaOf | src/managers/token.py:142-166 | Allowed exactly when the tokens fit both the total and the daily remainder and the minute limit is not exceeded; otherwise the first failing test's message, with the remaining amount where the source gives it |
| Tokens.CheckNoTokens | src/managers/token.py:142-166 | With no tokens requested only the per-minute limit can refuse |
| Tokens.Consumed | src/managers/token.py:210-214 | Both usage counters grow by the tokens and the request is logged; nothing else changes |
| Tokens.ConsumedRemaining | src/managers/token.py:194-220 | An allowed consumption lowers both remainders by exactly the tokens and logs the request as the newest entry |
| Tokens.ApplyEdit | src/managers/token.py:223-311 | A setter never changes whose quota it is |
| Tokens.TokenController.constructor | src/managers/token.py:55-71 | The controller works on the store it is given |
| Tokens.TokenController.GetQuota | src/managers/token.py:75-93 | The quota as `QuotaView` describes it (default when missing, validated, minute log pruned, rolled over when due); the store then holds a row that loads to it, and no other user's row changes |
| Tokens.TokenController.CheckQuota | src/managers/token.py:142-166 | The verdict and message of `CheckQuotaOf` on the loaded quota |
| Tokens.TokenController.CheckMinuteLimit | src/managers/token.py:168-178 | True exactly while the loaded quota's minute check passes |
| Tokens.TokenController.CheckDailyLimit | src/managers/token.py:180-190 | True exactly while the loaded quota's daily check passes |
| Tokens.TokenController.Consume | src/managers/token.py:194-220 | True exactly when the check allows the tokens; the stored quota is then the consumed one; a refusal leaves the quota as it loads |
| Tokens.TokenController.Charge | src/managers/token.py:210-220 | The writes of an allowed consumption: the stored quota becomes the consumed one |
| Tokens.TokenController.Rewrite | src/managers/token.py:223-311 | Load, adjust and store: the stored quota becomes the edited loaded quota |
| Tokens.TokenController.AddQuota | src/managers/token.py:223-239 | The total grows by the amount |
| Tokens.TokenController.ResetUser | src/managers/token.py:241-259 | Usage and the minute log are cleared; the limits stay |
| Tokens.TokenController.SetDailyLimit | src/managers/token.py:277-293 | The daily limit becomes the given one |
| Tokens.TokenController.SetMinuteLimit | src/managers/token.py:295-311 | The minute limit becomes the given one |
| Tokens.TokenController.ResetDaily | src/managers/token.py:261-275 | Today's usage goes back to 0 and the next reset is a day away |
| Bans.MergeRules | src/managers/ban.py:95-98 | The rule table holds every rule the detectors read: each custom rule overrides its default and every other default is kept |
| Bans.Window | src/managers/ban.py:379-382 | The times that still count, in log order: exactly those of the log less than `window` seconds old |
| Bans.Logged | src/managers/ban.py:379-385 | A tracker after one check ends with now and, for a positive window, holds only times that still count |
| Bans.WindowKeepsAll | src/managers/ban.py:379-382 | A log whose times all still count loses nothing to the window |
| Bans.ReplayAppend | src/managers/ban.py:358-387 | Replaying one more check is one more windowed append |
| Bans.ReplayPrefix | src/managers/ban.py:358-387 | Checks that fall inside one window, replayed from an empty tracker, are all remembered in order |
| Bans.BurstCounted | src/managers/ban.py:358-387 | Within one window the k-th check (from 0) sees exactly k + 1 entries, so with threshold 10 the eleventh request of a minute is the first one flagged |
| Bans.ContentWindow | src/managers/ban.py:475-478 | The timed texts that still count, in log order |
| Bans.CountText | src/managers/ban.py:481-484 | The number of entries carrying a text: at most the log's length, and zero exactly when none carries it |
| Bans.RepeatsCounted | src/managers/ban.py:449-489 | Repetitions of one text, all still inside the window, are all counted |
| Bans.After | src/managers/ban.py:536-542 | The request times after `before`: exactly those, in order |
| Bans.NewBan | src/managers/ban.py:187-203 | The record starts now; it is permanent exactly when it has no expiry; a temporary ban lasts the given hours, one hour when none is given |
| Bans.NewBanActive | src/managers/ban.py:167-219 | A new ban is in force at once unless it is temporary with a duration that is not positive |
| Bans.CandidateIsActive | src/managers/ban.py:109-123 | Every ban the store selects as active is active by the record's own test |
| Bans.UnbanEffect | src/managers/ban.py:236-239 | Moving the expiry to now ends a temporary ban, but a permanent ban is still selected afterwards |
| Bans.BanReasonText | src/managers/ban.py:146-148 | The record's details when not empty, else the reason's value; never empty |
| Bans.ActiveBans | src/managers/ban.py:517 | Exactly the records that are active now |
| Bans.BanManager.constructor | src/managers/ban.py:76-105 | The rules are the defaults overridden by the custom ones, and the three trackers start empty |
| Bans.BanManager.CheckBanStatus | src/managers/ban.py:109-123 | The store's active ban for the user, which is active by the record's own test |
| Bans.BanManager.IsBanned | src/managers/ban.py:125-135 | True exactly when some record of the user is permanent or expires after now |
| Bans.BanManager.GetRemainingBanTime | src/managers/ban.py:151-163 | The active ban's whole seconds left, never 0; None both with no ban and with a permanent ban |
| Bans.BanManager.GetBanReason | src/managers/ban.py:137-149 | The active ban's reason text, None without a ban |
| Bans.BanManager.ListBanRecords | src/managers/ban.py:492-507 | `records[:limit]` of the user's full listing, latest start first: a prefix of it of exactly that slice's length (Python slice rules, negative limits included), holding every one of the user's records whenever a non-negative limit is not reached |
| Bans.BanManager.GetAllActiveBans | src/managers/ban.py:509-517 | Exactly the records active now |
| Bans.BanManager.BanUser | src/managers/ban.py:167-219 | The new record is stored, a known user is flagged banned, and the user's three trackers are dropped; a down database raises with nothing changed |
| Bans.BanManager.UnbanUser | src/managers/ban.py:222-250 | False when no ban is active; with an active ban and the database up, True with the ban's expiry moved to now and a known user unflagged, failing only when the keyed update does not match exactly one record |
| Bans.BanManager.Lift | src/managers/ban.py:236-245 | The writes of an unban: the keyed record's expiry moves to now, then the user's flag is cleared |
| Bans.BanManager.ClearBanFlag | src/managers/ban.py:241-245 | A known user loses the banned flag, nothing else changes |
| Bans.BanManager.DetectRapidRequests | src/managers/ban.py:358-387 | The request tracker keeps its last-window times then now, and the check flags when it then holds more entries than the threshold |
| Bans.BanManager.DetectTokenAbuse | src/managers/ban.py:389-414 | Flags exactly a single use above the burst threshold |
| Bans.BanManager.DetectSpam | src/managers/ban.py:416-447 | The message tracker keeps its last-window times then now, and the check flags when it holds more entries than the threshold |
| Bans.BanManager.DetectRepeatedContent | src/managers/ban.py:449-489 | Empty text is never flagged and not recorded; otherwise the earlier copies inside the window are counted, the text recorded, and the check flags at the threshold |
| Bans.BanManager.DetectAbuse | src/managers/ban.py:320-356 | Rapid requests, then token burst (when tokens were used), then spam and repetition (when there is text): the first hit is reported and the later checks, with their tracker updates, are skipped |
| Bans.BanManager.ClearUserTracking | src/managers/ban.py:520-528 | The user leaves all three trackers |
| Bans.BanManager.CleanupTracking | src/managers/ban.py:530-545 | Every user's request times keep only those after `before`, users left with none are dropped, and the other trackers are not touched |
| Router.VerdictCases | src/core/router.py:206-265 | A down database admits everyone; a sender is refused USER_BANNED exactly when some stored ban of theirs is in force; QUOTA_EXCEEDED only ever reports the per-minute refusal of a zero-token quota check; RATE_LIMIT_EXCEEDED never happens; a refusal always carries a code and a text |
| Router.VerdictAdmits | src/core/router.py:206-265 | With the database up, a sender is admitted exactly when no ban of theirs is in force and their loaded quota is under both the per-minute and the daily limit |
| Router.BanNoticeOf | src/core/router.py:224-231 | A temporary ban in force is reported with its whole minutes left, rounded down; a permanent one with the permanent-ban text |
| Router.StoredMessageTypeIsText | src/core/router.py:163-167 | The user message is stored as TEXT for every type that is not a member name, and a member name (such as "TEXT") raises with the text `str(e)` gives, `'TEXT' is not a valid MessageType`; "text" is stored as TEXT |
| Router.Prepared | src/core/router.py:136-156 | The state handed to the graph is the initial state in RECEIVED with the context type ("private" or "group") and the found context's id |
| Router.GroupLookupMisses | src/core/router.py:311-313 | `group_<gid>` is never an id the context manager mints, so the group lookup never finds a stored context |
| Router.MessageRouter.constructor | src/core/router.py:57-93 | The router holds the store and the three managers it is given |
| Router.MessageRouter.ViewKeyed | src/core/context.py:258-270 | A context read through the hybrid storage carries the id it was read under, and a back-fill keeps the cache keyed by id |
| Router.MessageRouter.PreCheck | src/core/router.py:206-265 | The admission is the verdict on the stored bans and quotas; only the sender's quota row may be rewritten |
| Router.MessageRouter.GetOrCreateContext | src/core/router.py:268-334 | A private chat continues the sender's current context while it is ACTIVE and otherwise opens a new private one; a group chat opens a new group context; any result is ACTIVE and readable; a down database gives none, and an up database with an unused context id always gives one; only the sender's user record (created if missing, pointed at a new context), the chosen context's row and its cache entry change |
| Router.MessageRouter.PrivateContextFor | src/core/router.py:290-303 | The sender's current context while it is ACTIVE, with no user written; otherwise a new private context named after the sender, present exactly when that id is unused, with the sender's record created if missing and pointed at it; no other user, context row or cache entry changes |
| Router.MessageRouter.GroupContextFor | src/core/router.py:305-330 | A new group context named after the group, with the sender as its only participant, present exactly when the database is up and the id unused; only the sender's user record, that context row and its cache entry change |
| Router.MessageRouter.EnsureParticipant | src/core/router.py:324-330 | The context is returned as found; a sender already among its participants causes no write; otherwise the sender is added; with the database up the context is always returned, a failure leaves users and context rows alone, and only that context's row and cache entry and the sender's user record change |
| Router.MessageRouter.OpenContext | src/core/router.py:295-300 | `create_context` with the sender as creator and only participant; the loaded new context, ACTIVE; it fails exactly when the database is down or the id is taken, and then no context is stored (the creator's user record is still written when the database is up); on success the creator's current context is the new one |
| Router.MessageRouter.RouteMessage | src/core/router.py:97-203 | A refused sender gets the refusal and nothing changes; an admitted one gets the graph's response on the prepared state, with the user message recorded in the context (under role USER, type TEXT) and a non-empty reply recorded after it as the robot's, also under role USER. An admitted sender fails only for a message type that is a member name, and then only when a context was found (always, when the database is up and the context id unused): the result is the fixed apology with error `'<type>' is not a valid MessageType`, and no message is stored. The context is the sender's ACTIVE current one in a private chat, or the new `ctx_<token>`; only the sender's user record, that context's row and its cache entry change |
| Router.MessageRouter.Deliver | src/core/router.py:136-194 | What an admitted sender's message does: success for every message type that is not a member name, with the records above; a member name fails exactly when a context was found, with the apology, the ValueError's text and no message stored; the context used is the one `_get_or_create_context` returns, present whenever the database is up and its id unused |
| Router.MessageRouter.Exchange | src/core/router.py:155-194 | Given the context id found, success exactly when there is none or the type is not a member name; on success the snapshot carries that id and, when there is one, the user message and a non-empty reply are recorded in that context only; no user changes; on failure the fixed apology and nothing stored |
| Router.MessageRouter.Answer | src/core/router.py:171-187 | The graph runs on the state, and a non-empty response is recorded in the state's context as the robot's message; no user and no other context row or cache entry changes |
| Router.MessageRouter.Post | src/core/router.py:158-168 | The user message is appended to a readable context, which stays readable; no other context row or cache entry changes |
| Router.MessageRouter.HandleContextIntent | src/core/router.py:377-413 | CREATE opens a private context named after the user, caches it, makes it the user's current one and answers its id; JOIN answers that it is not implemented; LEAVE removes the user from the state's context, archives it when the user created it and clears the user's current context; END detaches every participant, soft-deletes the context and drops its cache entry; without a context id both answer that there is none; any other intent is an unknown operation; manager errors propagate with nothing written; no message rows, quotas, bans or roles change |
| ContextCommands.DefaultName | src/modules/context_cmd.py:91 | The asked name when given, else `私聊_` followed by the user name, or by the user id when the name is empty; never empty |
| ContextCommands.Clip | src/modules/context_cmd.py:318-320 | Content of at most 100 characters is shown whole; longer content shows its first 100 characters then "..." |
| ContextCommands.HistoryLines | src/modules/context_cmd.py:311-322 | One line per message, in message order |
| ContextCommands.Mine | src/modules/context_cmd.py:348 | Exactly the listed contexts, in listing order, that have the user as a participant, without repeats |
| ContextCommands.ListEntries | src/modules/context_cmd.py:355-360 | One entry per listed context, in order |
| ContextCommands.Cleared | src/modules/context_cmd.py:260-262 | The loop over the participants keeps the set of users |
| ContextCommands.ClearedCorrect | src/modules/context_cmd.py:260-262 | Every participant with a user row ends with no current context, and every other user is untouched |
| ContextCommands.LeftThenCleared | src/modules/context_cmd.py:202-205 | Clearing the user's current context after leaving gives the same users whether or not leaving had already cleared it |
| ContextCommands.EndTarget | src/modules/context_cmd.py:235-245 | The given non-empty id, otherwise the user's current context; without a user manager, an unknown user or no current context, the matching reply instead |
| ContextCommands.ContextCommandModule.constructor | src/modules/context_cmd.py:47-61 | The module holds the context and user managers it is given, either of which may be missing |
| ContextCommands.ContextCommandModule.CreateCmd | src/modules/context_cmd.py:65-112 | A private context named by `DefaultName`, with the user as only participant and the given expiry, is stored and cached and made the user's current context, and the reply describes it; a failure answers the failure text and stores or caches no context; no other user, message row, quota, ban or role changes |
| ContextCommands.ContextCommandModule.JoinCmd | src/modules/context_cmd.py:116-164 | Refused, with nothing written, when the context is missing, not ACTIVE, or already has the user; otherwise the user is made to exist, added to the context, and (with a user manager) given it as current context |
| ContextCommands.ContextCommandModule.Enrol | src/modules/context_cmd.py:149-159 | The writes of a join: the user joins the context and is given it as current context |
| ContextCommands.ContextCommandModule.LeaveCmd | src/modules/context_cmd.py:168-212 | Without a user manager or a current context, a reply and no write; otherwise the user leaves the current context (if a member) and has no current context afterwards; a missing context is reported |
| ContextCommands.ContextCommandModule.LeaveContext | src/modules/context_cmd.py:196-208 | Leaving a given context: reported missing with no write, or left and cleared |
| ContextCommands.ContextCommandModule.Depart | src/modules/context_cmd.py:196-202 | The context is read and, when it has the user, the user is taken out of it |
| ContextCommands.ContextCommandModule.EndCmd | src/modules/context_cmd.py:216-269 | With no target a reply and no write; otherwise refused unless the context exists and the user created it, in which case it is paused and every participant's current context cleared |
| ContextCommands.ContextCommandModule.EndContext | src/modules/context_cmd.py:247-265 | Ending a given context: refused unless it exists and the user created it; otherwise paused, with the participants' current contexts cleared |
| ContextCommands.ContextCommandModule.ClearParticipants | src/modules/context_cmd.py:260-262 | The participants, one by one, lose their current context; raises exactly when the database is down and there is a participant |
| ContextCommands.ContextCommandModule.ShowHistory | src/modules/context_cmd.py:273-329 | The newest `limit` messages of the user's current context rendered one line each, the empty-history reply when there are none, and the matching reply without a user manager or current context; nothing is written |
| ContextCommands.ContextCommandModule.RenderHistory | src/modules/context_cmd.py:309-325 | The rendered text is the header, then one line per message, joined by newlines |
| ContextCommands.ContextCommandModule.ListCmd | src/modules/context_cmd.py:332-367 | The user's ACTIVE contexts, in listing order, rendered one entry each |
| ContextCommands.MineIsListedForUser | src/modules/context_cmd.py:345-348 | Filtering all ACTIVE contexts by membership gives exactly what listing for the user gives |
| Llm.Entry | src/service/llm_service.py:311-314 | A message in the API form carries exactly the given role and content under "role" and "content" |
| Llm.CountCjk | src/service/llm_service.py:262 | The number of ideographs is at most the length of the text |
| Llm.EstimateTokens | src/service/llm_service.py:248-267 | The estimate lies between a quarter of the length plus one and the length plus one |
| Llm.CountCjkAppend | src/service/llm_service.py:262 | Counting ideographs distributes over concatenation |
| Llm.EstimateAllCjk | src/service/llm_service.py:262-267 | Text made only of ideographs costs one token per character, plus one |
| Llm.EstimateNoCjk | src/service/llm_service.py:262-267 | Text without ideographs costs a quarter token per character (rounded down), plus one |
| Llm.EstimateExamples | src/service/llm_service.py:248-267 | "你好世界" costs 5, "Hello world" 3 and "Hello世界" 4 |
| Llm.TokensSum | src/service/llm_service.py:281-287 | Every content costs at least one token |
| Llm.MessagesTokensAppend | src/service/llm_service.py:269-291 | The estimate of a list is the sum of the estimates of its parts |
| Llm.MessagesTokensLower | src/service/llm_service.py:281-291 | Every message costs at least five tokens: one for its content and four of overhead |
| Llm.EstimateMessagesTokens | src/service/llm_service.py:269-291 | The loop's total is the sum of the contents' estimates plus four per message, and it raises exactly when an element has no content |
| Llm.ApiForm | src/service/llm_service.py:307-316 | A dict is kept, a message becomes its role value and content, and any other element has no API form |
| Llm.Converted | src/service/llm_service.py:295-317 | The converted list is never longer than the input |
| Llm.ConvertedAppend | src/service/llm_service.py:306-317 | Conversion works element by element, so it keeps the input's order |
| Llm.ConvertedPointwise | src/service/llm_service.py:306-317 | With no foreign element, nothing is dropped and each element keeps its place in its API form |
| Llm.ConvertedOnlyForeign | src/service/llm_service.py:315-316 | Foreign elements are dropped and leave no trace |
| Llm.ConvertMessages | src/service/llm_service.py:295-317 | The loop's result is the element-by-element conversion |
| Llm.Transcript | src/modules/chat.py:204-210 | The history in the API form has no SYSTEM-role entry and is no longer than the history |
| Llm.TranscriptAppend | src/modules/chat.py:204-210 | The transcript of two histories is the concatenation of their transcripts |
| Llm.TranscriptKeepsConversation | src/modules/chat.py:204-210 | A history without SYSTEM messages is passed on whole, in order, each entry with its role value and content |
| Llm.PromptList | src/modules/chat.py:174-218 | The prompt list begins with the system prompt, ends with the user message, and holds the transcript of the history between them, with no other system entry |
| Llm.AppendHistory | src/modules/chat.py:204-210 | The loop appends exactly the transcript of the history |
| Llm.IndexOf | src/service/llm_service.py:233-236 | A found position leaves room for the needle in the text |
| Llm.IndexOfFirst | src/service/llm_service.py:233-236 | `find` returns the first occurrence, and fails only when there is none |
| Llm.ContainsIndexOf | src/service/llm_service.py:233-235 | `needle in text` holds exactly when `find` succeeds |
| Llm.Head | src/service/llm_service.py:234-236 | `split(sep)[0]` is a prefix of the text |
| Llm.After | src/service/llm_service.py:234-236 | What follows the first separator is no longer than the text |
| Llm.ExtractWithoutFence | src/service/llm_service.py:232-236 | A reply without any fence is only stripped |
| Llm.JsonFenceRoundTrip | src/service/llm_service.py:232-234 | A reply that is exactly a "```json" block yields its stripped body |
| Llm.PlainFenceRoundTrip | src/service/llm_service.py:232-236 | A reply that is exactly a plain "```" block yields its stripped body, unless the body begins with "json" |
| Chat.Shown | src/core/context.py:584-592 | The history for no context is empty; for a positive limit it is the last `limit` messages |
| Chat.Exchange | src/modules/chat.py:242-258 | The two rows of a save: the user's message under the user's id with role USER, then the reply as the assistant "system" with role ASSISTANT |
| Chat.LoadHistory | src/modules/chat.py:198-202 | The context's latest messages when there are both a context and a manager, else none; the storage still shows the same context |
| Chat.SaveExchange | src/modules/chat.py:221-263 | Both rows are recorded when the database is up and the context is readable; a failure of the first add ends the save with nothing recorded |
| Chat.StillShown | src/core/context.py:258-277 | Saving a context never hides one the storage showed |
| Chat.BuildPrompt | src/modules/chat.py:174-218 | The prompt list under the given system prompt with the context's shown history |
| Chat.Converse | src/modules/chat.py:99-125 | The stripped reply, with the exchange recorded in the conversation; the apology when the LLM call raises, with nothing recorded |
| Chat.ChatModule.constructor | src/modules/chat.py:60-77 | A missing or empty system prompt falls back to the default |
| Chat.ChatModule.SetSystemPrompt | src/modules/chat.py:266-273 | The system prompt becomes the given one |
| Chat.ChatModule.ClearSystemPrompt | src/modules/chat.py:275-278 | The system prompt goes back to the default |
| Chat.ChatModule.BuildMessages | src/modules/chat.py:174-218 | The prompt list under the module's system prompt with the context's shown history |
| Chat.ChatModule.Handle | src/modules/chat.py:81-125 | The stripped reply, with the exchange recorded in the conversation; the apology when the LLM call raises, with nothing recorded |
| RolePlay.Lookup | src/modules/role_play.py:256-257 | No default role is found exactly when no entry has the id; a found role is one of the entries under that id |
| RolePlay.MissingDefaults | src/modules/role_play.py:287-296 | Every role added from the defaults has an id not yet listed, is active when only active roles are asked for, and is built from one of the defaults |
| RolePlay.MissingDefaultsDistinct | src/modules/role_play.py:287-296 | With default ids unique, the roles added from the defaults have distinct ids |
| RolePlay.MissingDefaultsIds | src/modules/role_play.py:287-296 | An id is added from the defaults exactly when a default has it, it is not listed yet, and it is active or inactive roles are wanted |
| RolePlay.ListingDistinct | src/modules/role_play.py:265-299 | When the stored roles have distinct ids and the default ids are unique, the listing has no duplicate id |
| RolePlay.DefaultRolesListed | src/modules/role_play.py:40-82 | With nothing stored, "assistant", "teacher" and "humorous" are all listed |
| RolePlay.DefaultRolesUnique | src/modules/role_play.py:40-82 | The built-in roles have unique ids |
| RolePlay.ActiveRoleId | src/modules/role_play.py:359-363 | A role id is taken only from a context whose current role id is set and non-empty |
| RolePlay.RolePlayModule.constructor | src/modules/role_play.py:151-200 | The roles loaded from files are the defaults when there are any, else the built-in roles; the default ids are unique |
| RolePlay.RolePlayModule.GetRole | src/modules/role_play.py:240-263 | Raises exactly when the database is down; a stored role wins, then the default of that id, else none; a found role has the asked id |
| RolePlay.RolePlayModule.StoredRoles | src/modules/role_play.py:280-285 | Raises exactly when the database is down; no database means no stored roles |
| RolePlay.RolePlayModule.ListRoles | src/modules/role_play.py:265-299 | Raises exactly when the database is down; otherwise the stored active roles followed by the defaults whose id is not among them, filtered by activity when asked |
| RolePlay.RolePlayModule.ActivateRole | src/modules/role_play.py:303-336 | Succeeds exactly when the role exists, is active and there is a context manager; the context then carries the role id and is saved; otherwise nothing is saved; a lookup error propagates |
| RolePlay.RolePlayModule.GenerateResponse | src/modules/role_play.py:340-413 | The prompt under the active role's system prompt (or the generic one) with the shown history; the stripped reply or the apology; the exchange saved as in the chat module; a role lookup error propagates |

## Left out

- Async execution: every coroutine is modelled as a sequential call, so interleavings are not modelled. Among them is the race between two messages of one user on the ban trackers.
- Redis and SQLAlchemy: connections, sessions, table creation (`DatabaseManager`, src/storage/database.py:64-228), serialisation and the cache TTL. The cache is a map with an `up` flag and entries never expire.
- Only the hybrid configuration of the context storage is modelled, because it is the one `ContextManager` uses by default. The abstract `ContextStorage` interface (src/core/context.py:51-95) has no behaviour of its own.
- `list_all` is called on the context and ban repositories (src/core/context.py:222, 629; src/managers/ban.py:516) but no repository defines it. It is modelled as the evident intent: all stored rows in insertion order.
- Module singletons (`get_*_manager`, `get_*_module`, `get_database_manager`, ...) are left out; each class is constructed with its collaborators as parameters.
- Ids and time: `IDHelper` and `DatetimeHelper` (src/utils/helpers.py:214-520) are replaced by caller-supplied ids and an integer clock. `datetime` arithmetic is whole seconds, `timedelta(hours=h)` is `h * 3600`, and sub-second precision is dropped.
- Floats: confidences are integer hundredths, so Python's `0.7 + 0.1 == 0.7999…` becomes exactly 80.
- Regular expressions: intent patterns are an injected `Matcher`. The `\d` and `\s` classes of the helpers are the ASCII digits and the whitespace characters that `str.split()` splits on.
- The LLM: `LLMService.chat`, `stream_chat`, `check_connection`, `_get_client` and the HTTP call and `json.loads` of `classify_intent` (src/service/llm_service.py:76-345) are left out. A reply is an `Outcome<string>` parameter; only the fence extraction of `classify_intent` is modelled. `IntentRecognizer.recognize` and `_recognize_by_llm` (src/core/intent.py:160-197, 300-358) go through the LLM; only `recognize_sync` is modelled.
- `ChatModule.handle_stream` (src/modules/chat.py:129-172) streams from the LLM and is left out.
- The LangGraph runtime (`compile`, src/core/langgraph.py:56-93) becomes the transition table `Graph.NextNode`. `state_to_messages` and `messages_to_state` (src/core/langgraph.py:469-530) only convert to the runtime's message type.
- The router's static `handle_chat_intent`, `handle_weather_intent` and `handle_role_play_intent` (src/core/router.py:337-375) repeat the graph's default response (`Graph.DefaultResponse`) and are not called from the pipeline. `_calculate_elapsed_ms`, `processing_time_ms` and `tokens_used` are measurements, not logic.
- Role files: `_load_role_from_file`, `_load_roles_from_directory` and `load_roles_from_file` (src/modules/role_play.py:90-148, 457-492) read JSON from disk. The roles they produce are the `fileRoles` constructor parameter. `create_role` (src/modules/role_play.py:204-237) is left out because the pipeline never calls it.
- `RolePlayModule.activate_role` assigns `current_role_id` on the caller's own context object. The model returns the updated context instead of aliasing it.
- Text helpers outside the pipeline are left out: `extract_qq_number`, `extract_chinese`, `extract_words` and `count_words` (src/utils/helpers.py:112-200).
- `ContextCommandModule.get_help` (src/modules/context_cmd.py:371-402) returns a fixed help text. The order in which `cmd_list_contexts` receives the contexts comes from the storage and is a parameter of `ListCmd`.
- Thin wrappers are left out because each only calls modelled operations with fixed arguments:
  - `UserManager.get_user` and `count_active_users` (src/managers/user.py:77, 382);
  - `UserManager.create_private_context` (src/managers/user.py:314), which is `get_or_create_user` followed by `create_context`;
  - `TokenController.get_remaining_quota`, `get_daily_remaining` and `get_usage_info` (src/managers/token.py:95-140);
  - `BanManager.ban_user_for_spam`, `ban_user_for_abuse` and `ban_user_permanently` (src/managers/ban.py:252-320).
- `UserRepository.delete` and `update_last_active`, and `ContextRepository.delete` and `list_by_user` (src/storage/database.py:353-400, 511-545), are not called by the modelled managers.
- The ORM conversions (`_orm_to_model`) are modelled only where they change data: a context's messages are loaded in timestamp order and its message bound is reset to 200. The other modelled fields are copied unchanged.
- `Context.state` (src/storage/models.py:205), the optional robot-state snapshot stored with a context, is not a field of `Models.Context`: nothing in the modelled core writes it, so it would only be copied through.
- `RobotState` fields `context_data`, `conversation_history`, `history_limit`, `response_type`, `metadata`, `role_name` and `role_config` (src/core/state.py) are not modelled: no node of the graph and no step of the router reads them.
- Store.Database.ListAllUsers: `UserRepository.list_all` (src/storage/database.py:369-384) has no ORDER BY, so the database decides which rows fall under the limit; the model fixes insertion order, which decides which 100 users `get_active_users` considers.
- `detect_abuse`'s token-rate heuristic is a TODO in the source (src/managers/ban.py:413) and is not modelled.
- Llm.EstimateMessagesTokens: an element that is neither a dict nor a message object makes the source raise `AttributeError`; the model returns `Raised` for it.
- Users.UserManager.GetActiveUsers: its own contract does not say that every eligible stored user is listed when the limit allows; `Users.ActiveUsersCorrect` states that of the rows `list_all` returns.
