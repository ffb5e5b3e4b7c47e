# ai-supervisor backend core, modelled in Dafny

This project models the backend of an AI receptionist for a salon. It covers how help requests move through their lifecycle and how answered questions are reused as knowledge.

- **Help requests.** When the voice agent cannot answer a caller, it escalates by creating a *help request*, which is PENDING and has a deadline. A supervisor then either RESOLVES it, or a periodic sweep marks it TIMEOUT once its deadline has passed.
- **Resolution side effects.** Resolving a request notifies the customer with the answer and adds a *knowledge entry* to the knowledge base.
- **Knowledge reuse.** The knowledge base is searched by keyword relevance and ranked. It also keeps a usage counter and summary statistics.
- **Surrounding pieces.** The model also covers:
  - the record models and their document form (`to_dict`/`from_dict`);
  - the language-model helpers: sentinel detection, the knowledge context and keyword parsing;
  - the notification texts, the agent's prompt pieces and the input validators;
  - the in-memory voice-session table.

Stateful services are classes whose fields are the collections the source mutates:
- `HelpRequestService` holds the `help_requests` collection as a map from id to record.
- `KnowledgeService` holds the `knowledge_base` collection.
- `LiveKitService` holds `active_sessions`.

Each method states its whole new state in terms of specification functions, and lemmas prove what the source promises about those functions. Nondeterministic inputs are parameters, so both branches of every failure can be stated:
- the clock (`now`);
- fresh ids;
- the outcome of each store write (`stored`, `updated`, `written`);
- the outcome of each log-based notification (`logged`);
- the language model (`complete: Completion`).

Modules, one per file:
- `Base`, `Text`, `Timestamps`, `Documents`, `Sorting`, `Store`: shared values, Python string, sort and slice semantics, and the document store's listing.
- `HelpRequestModel`, `KnowledgeModel`, `CustomerModel`: the records.
- `Validators`, `Prompts`, `AIService`, `NotificationService`: the pure helpers.
- `KnowledgeService`, `HelpRequestService`, `LiveKitService`: the services.

Behaviours of the code worth knowing (the source defines `HelpRequestNotFoundError` and `ValidationError`, but these paths do not raise them):
- **No input validation on create.** `create_request` does not check that the phone and the question are non-empty.
- **Unknown id on resolve.** `resolve_request` on an unknown id returns `None` and does not raise a not-found error.
- **Knowledge failure propagates.** A knowledge-base failure during `resolve_request` propagates to the caller, after the RESOLVED status has already been written. It is not isolated.
- **`mark_timeout` checks no status.** It would overwrite a RESOLVED request. Only the sweep's PENDING listing protects resolved requests (`TimeoutOfResolvedBreaksWellFormed`).
- **Failed completion is not escalated.** When the completion fails, `check_if_needs_help` answers `(False, None)` rather than escalating.

## Model

| member | source | states |
|---|---|---|
| HelpRequestModel.ParseStatus | backend/src/models/help_request.py:11-15 | The status enum has exactly three members. Each maps to its lowercase wire string, `ParseStatus(w) == Some(s)` exactly when `StatusValue(s) == w`, and any other string is rejected. |
| HelpRequestModel.ResolveWith | backend/src/models/help_request.py:80-83 | A resolution built from an answer alone has `supervisor_id` "supervisor_1". |
| HelpRequestModel.NewHelpRequest | backend/src/models/help_request.py:18-43 | A new request keeps the caller's fields and is PENDING, not notified, created and updated now. It has no resolution time, answer, supervisor id or notification time, and satisfies the lifecycle invariant. |
| HelpRequestModel.ToDict | backend/src/models/help_request.py:51-58 | `to_dict` is the dump with every datetime replaced by its ISO text. No datetime is left in the result. |
| HelpRequestModel.FromDict | backend/src/models/help_request.py:60-69 | `from_dict` converts the five named datetime fields, then validates the record. |
| HelpRequestModel.BuildDump | backend/src/models/help_request.py:18-49 | Validating a dump gives back the record, whatever defaults would have applied. |
| HelpRequestModel.RoundTrip | backend/src/models/help_request.py:51-69 | `from_dict(to_dict(r)) == r` in every field. |
| KnowledgeModel.CreateWith | backend/src/models/knowledge_base.py:57-63 | `KnowledgeCreate` defaults to no category, no keywords and no source request. |
| KnowledgeModel.NewEntry | backend/src/models/knowledge_base.py:10-32 | A new entry has source "supervisor", confidence 1.0, `times_used` 0 and no `last_used_at`. It is created and updated now, and keeps the supplied content. |
| KnowledgeModel.ToDict | backend/src/models/knowledge_base.py:39-45 | `to_dict` is the dump with every datetime as ISO text, none left. |
| KnowledgeModel.FromDict | backend/src/models/knowledge_base.py:47-54 | `from_dict` converts `created_at`, `updated_at` and `last_used_at`, then validates. |
| KnowledgeModel.RoundTrip | backend/src/models/knowledge_base.py:39-54 | `from_dict(to_dict(e)) == e` in every field. |
| CustomerModel.NewCustomer | backend/src/models/customer.py:9-22 | A new customer has no name, email or last call, and zero calls. |
| CustomerModel.ToDict | backend/src/models/customer.py:29-35 | `to_dict` is the dump with every datetime as ISO text, none left. |
| CustomerModel.FromDict | backend/src/models/customer.py:37-44 | `from_dict` converts `created_at`, `updated_at` and `last_call_at`, then validates. |
| CustomerModel.RoundTrip | backend/src/models/customer.py:29-44 | `from_dict(to_dict(c)) == c` in every field. |
| Documents.IsoEncoded | backend/src/models/help_request.py:51-58 | The encoded document has the same keys and holds no datetime. |
| Documents.EncodeDatetimes | backend/src/models/help_request.py:55-57 | The in-place loop over the dict computes `IsoEncoded`. |
| Documents.DecodeDatetimes | backend/src/models/help_request.py:64-68 | The loop over the named fields computes `IsoDecoded`, failing where `fromisoformat` raises. |
| Documents.DecodedFields | backend/src/models/help_request.py:64-68 | Decoding succeeds exactly when every named, present, truthy field is ISO text. It then converts exactly those fields and leaves every other entry alone. |
| Documents.DecodeInvertsEncode | backend/src/models/help_request.py:51-69 | Decoding what encoding wrote restores the document when every datetime sits under a named field. |
| Timestamps.FromIsoFormatInverts | backend/src/models/help_request.py:51-69 | Reading back what `isoformat` wrote gives the same timestamp. |
| Validators.Cleaned | backend/src/utils/validators.py:20 | After the two replacements no space or hyphen remains. |
| Validators.MatchesPhonePatternIff | backend/src/utils/validators.py:19-20 | The token-by-token regex matcher accepts a string exactly when it matches the declarative shape. The shape is an optional plus, a digit from 1 to 9, then 1 to 14 more digits, then the end of the string or a newline that ends it. |
| Validators.ValidatePhoneNumber | backend/src/utils/validators.py:8-20 | A phone number is valid exactly when its cleaned form has that shape. |
| Validators.ValidPhoneDigits | backend/src/utils/validators.py:19 | A valid number carries 2 to 15 digits after its optional plus, all of them digits and the first not 0. |
| Validators.SanitizePhoneForKey | backend/src/utils/validators.py:23-33 | The key holds no "+", space or "-". |
| Validators.SanitizeIsCharwise | backend/src/utils/validators.py:33 | The three chained replacements equal one pass that turns "+" into "_", drops spaces and hyphens, and keeps every other character in order. |
| Validators.SanitizeIdempotent | backend/src/utils/validators.py:33 | Sanitising a key again changes nothing. |
| Validators.DefaultTextLength | backend/src/utils/validators.py:36-48 | With the default bounds, a text is valid exactly when it is non-empty and at most 1000 characters long. |
| Prompts.EscalationMessage | backend/src/agents/prompts.py:60-62 | The escalation line is a fixed text that mentions the supervisor. |
| Prompts.GetKnowledgeContextPrompt | backend/src/agents/prompts.py:65-85 | The loop builds exactly `KnowledgeContextPrompt`: the header, then one Q/A block for each of the first five entries, joined by newlines. |
| Prompts.PromptEmptyIff | backend/src/agents/prompts.py:75-78 | The prompt is empty exactly when the list is empty. Otherwise it opens with the header. |
| Prompts.PromptHoldsBlocks | backend/src/agents/prompts.py:78-85 | Each of the first five entries appears in the prompt as its block. |
| Prompts.PromptIgnoresTail | backend/src/agents/prompts.py:80 | Entries past the fifth do not change the prompt. |
| Prompts.MissingKeysRenderEmpty | backend/src/agents/prompts.py:81-83 | An entry missing both keys renders with both fields empty. |
| AIService.BuildKnowledgeContext | backend/src/services/ai_service.py:108-119 | The loop builds exactly `KnowledgeContext`: the placeholder for an empty list, else the first ten Q/A parts joined by a blank line. |
| AIService.ContextHoldsParts | backend/src/services/ai_service.py:113-119 | Each of the first ten entries appears in the context as its Q/A part. |
| AIService.ContextIgnoresTail | backend/src/services/ai_service.py:114 | Entries past the tenth do not change the context. |
| AIService.ContextPlaceholderIff | backend/src/services/ai_service.py:110-111 | The context is the placeholder exactly when the knowledge list is empty. |
| AIService.SystemPrompt | backend/src/services/ai_service.py:85-92 | The system prompt contains the knowledge context. |
| AIService.CheckIfNeedsHelp | backend/src/services/ai_service.py:71-106 | Help is needed exactly when the reply exists and contains "NEEDS_HELP", and then the answer is `None`. Otherwise the reply itself is the answer, a failed call (`None`) included. |
| AIService.ParseKeywords | backend/src/services/ai_service.py:135-139 | The parsed keywords number at most 5, contain no comma and are stripped at both ends. A missing or empty reply gives `[]`. |
| AIService.ExtractKeywords | backend/src/services/ai_service.py:121-139 | At most 5 keywords, and none when the completion fails. |
| AIService.ParseKeywordsOfJoin | backend/src/services/ai_service.py:136-137 | A reply listing comma-free keywords separated by commas parses back to the first five of them, each stripped of surrounding whitespace. |
| NotificationService.OrElse | backend/src/services/notification_service.py:74 | Python's `value or fallback`: a missing or empty value falls back. |
| NotificationService.FormatSupervisorNotification | backend/src/services/notification_service.py:70-84 | The message names the customer by name, else by phone. It always carries the phone, the question, the context or its placeholder, and the request id, each on its labelled line. |
| NotificationService.MissingContextPlaceholder | backend/src/services/notification_service.py:79 | A missing or empty context is shown as "No additional context". |
| NotificationService.FormatCustomerNotification | backend/src/services/notification_service.py:86-95 | The message carries the question and the answer verbatim on their labelled lines. |
| NotificationService.NotifySupervisor | backend/src/services/notification_service.py:17-39 | A notice is sent exactly when logging succeeds, and it carries the question. Failure is reported, never thrown. |
| NotificationService.NotifyCustomer | backend/src/services/notification_service.py:41-68 | A notice to the given phone is sent exactly when logging succeeds, and it carries the answer. |
| Sorting.SortDesc | backend/src/services/help_request_service.py:73 | The sort returns a permutation of its input. |
| Sorting.SortDescSorted | backend/src/services/help_request_service.py:73 | The sort's output has non-increasing keys. |
| Sorting.SortDescStable | backend/src/services/knowledge_service.py:101 | The sort is stable: for every key value, the elements with that key keep their original order. |
| Sorting.SliceTo | backend/src/services/knowledge_service.py:102 | Python's `s[:n]` gives a prefix of `min(n, len(s))` elements for `n >= 0`. For negative `n` it gives all but the last `-n`. |
| Store.Enumerate | backend/src/database/firebase_client.py:55-70 | Listing a collection names every key exactly once. |
| KnowledgeService.ScoreEntry | backend/src/services/knowledge_service.py:86-95 | The scoring loop computes `Score`: 3 when the lowercased query occurs in the lowercased question, plus 1 per keyword (duplicates included) occurring in the query. |
| KnowledgeService.ScorePositiveIff | backend/src/services/knowledge_service.py:89-97 | An entry is relevant exactly when the query occurs in its question or one of its keywords occurs in the query. The score is at most 3 plus the number of keywords. |
| KnowledgeService.EmptyQueryMatchesAll | backend/src/services/knowledge_service.py:89-90 | The empty query occurs in every question, so every entry scores at least 3. |
| KnowledgeService.RankEntries | backend/src/services/knowledge_service.py:81-102 | The scoring loop and ranking compute `Ranked`. |
| KnowledgeService.RankedSound | backend/src/services/knowledge_service.py:97-102 | Search returns only entries of the listing with a positive score, and at most `limit` of them. |
| KnowledgeService.RankedOrdered | backend/src/services/knowledge_service.py:101-102 | Results come in non-increasing score order. |
| KnowledgeService.RankedComplete | backend/src/services/knowledge_service.py:97-102 | With a limit of at least the listing's length, every relevant entry is returned. |
| KnowledgeService.RankedKeepsBest | backend/src/services/knowledge_service.py:97-102 | For any limit of 0 or more, including the default 5, the search returns `min(limit, number of relevant entries)` entries. Every relevant entry left out scores no higher than every entry returned. |
| KnowledgeService.RankedTiesKeepOrder | backend/src/services/knowledge_service.py:101-102 | For each score, the results with that score are a prefix of the listing's entries with that score, in listing order. |
| KnowledgeService.HistogramCounts | backend/src/services/knowledge_service.py:134-137 | The category dict holds exactly the labels that occur, each with its number of entries. A missing category counts as "uncategorized". |
| KnowledgeService.HistogramTotal | backend/src/services/knowledge_service.py:130-137 | The category counts add up to the number of entries. |
| KnowledgeService.SummaryFacts | backend/src/services/knowledge_service.py:126-144 | The summary has `total_entries` equal to the listing's length and category counts summing to it. `most_used` holds exactly `min(5, n)` entries, drawn from the listing with multiplicity, sorted by `times_used` descending, none used less than any entry left out. |
| KnowledgeService.Used | backend/src/services/knowledge_service.py:110-115 | One more use and `last_used_at == updated_at == now`. Every other field is unchanged. |
| KnowledgeService.KnowledgeService.AddEntry | backend/src/services/knowledge_service.py:18-46 | Uses the supplied keywords when non-empty, else those extracted from "question answer". It stores the new entry on success. A failed write raises and stores nothing. |
| KnowledgeService.KnowledgeService.AddFromHelpRequest | backend/src/services/knowledge_service.py:48-58 | The entry carries the request's question and answer and links back to the request. A request with no answer fails validation and writes nothing. |
| KnowledgeService.KnowledgeService.GetAllKnowledge | backend/src/services/knowledge_service.py:60-71 | Every stored entry appears once, sorted by `last_used_at or created_at`, newest first. |
| KnowledgeService.KnowledgeService.SearchKnowledge | backend/src/services/knowledge_service.py:73-102 | Search is the ranking of the recency listing. |
| KnowledgeService.KnowledgeService.GetEntry | backend/src/services/knowledge_service.py:119-124 | Returns the stored entry exactly when the id is stored. |
| KnowledgeService.KnowledgeService.IncrementUsage | backend/src/services/knowledge_service.py:104-117 | An unknown id gives `False` and writes nothing. Otherwise it reports the write's outcome, and only a successful write stores the `Used` entry. |
| KnowledgeService.KnowledgeService.GetKnowledgeSummary | backend/src/services/knowledge_service.py:126-144 | The histogram loop and the totals compute `Summarize` of the recency listing. |
| HelpRequestService.ResolveKeepsWellFormed | backend/src/services/help_request_service.py:101-135 | Resolving a pending request keeps the lifecycle invariant, with or without the notification mark. |
| HelpRequestService.TimeoutOfResolvedBreaksWellFormed | backend/src/services/help_request_service.py:143-156 | `mark_timeout` on a resolved request breaks that invariant, because it checks no status. |
| HelpRequestService.StatusFilterMembers | backend/src/database/firebase_client.py:62-64 | The status filter keeps exactly the listed requests of the status. |
| HelpRequestService.SweepLeavesFailures | backend/src/services/help_request_service.py:158-177 | After a sweep, the only requests still expired are those whose write failed. |
| HelpRequestService.SweepTwiceIsNoop | backend/src/services/help_request_service.py:158-177 | With the same write outcomes, a second sweep at the same time times out nothing and changes nothing. |
| HelpRequestService.SweepKeepsWellFormed | backend/src/services/help_request_service.py:165-172 | The sweep keeps the lifecycle invariant of every stored request. |
| HelpRequestService.SortedSelection | backend/src/services/help_request_service.py:62-75 | The listing holds exactly the stored requests of the status, each once, newest first. |
| HelpRequestService.HelpRequestService.CreateRequest | backend/src/services/help_request_service.py:21-53 | On a successful write, the request is PENDING with `timeout_at == now + timeout`, is stored, and the supervisor is notified. A failed write raises with nothing stored and nobody notified. |
| HelpRequestService.HelpRequestService.GetRequest | backend/src/services/help_request_service.py:55-60 | Returns the stored request exactly when the id is stored. |
| HelpRequestService.HelpRequestService.GetAllRequests | backend/src/services/help_request_service.py:62-75 | Returns exactly the stored requests matching the status, all when `None`, each once, sorted by `created_at` descending. |
| HelpRequestService.HelpRequestService.ResolveRequest | backend/src/services/help_request_service.py:77-141 | An unknown id, a request that is not pending, or a failed first write changes nothing, and the non-pending request is returned unchanged. Otherwise the request is stored RESOLVED with answer, supervisor id and `resolved_at == updated_at == now`. The customer is notified. The notified mark is stored only if both the notice and its write succeed. The learned entry is added, or the knowledge failure raises. |
| HelpRequestService.HelpRequestService.ResolveTwice | backend/src/services/help_request_service.py:96-98 | Resolving one request twice adds exactly one knowledge entry. The second call returns the stored RESOLVED request. |
| HelpRequestService.HelpRequestService.MarkTimeout | backend/src/services/help_request_service.py:143-156 | Sets TIMEOUT and `updated_at` whatever the status, and reports the write's outcome. |
| HelpRequestService.HelpRequestService.CheckAndTimeoutOldRequests | backend/src/services/help_request_service.py:158-177 | The store becomes `Swept`: exactly the pending requests with a deadline strictly passed, whose write succeeded, become TIMEOUT. The count is the number of those. |
| LiveKitService.Ended | backend/src/services/livekit_service.py:52-56 | Ending a known session sets only its `ended_at` and keeps every other session. |
| LiveKitService.LiveKitService.CreateSession | backend/src/services/livekit_service.py:20-40 | The id maps to the caller's phone with no start or end time, and the id is returned. |
| LiveKitService.LiveKitService.EndSession | backend/src/services/livekit_service.py:42-57 | A known id gives `True` and its end time is stamped. An unknown id gives `False` and the table is unchanged. |
| LiveKitService.LiveKitService.GetSessionInfo | backend/src/services/livekit_service.py:59-61 | Returns the stored record, or `None` for an unknown id. |

## Left out

- **The Firebase store.** The Firebase client and its configuration are not part of this model.
  - Each collection is a map, and each write's outcome is a boolean parameter.
  - A read failure, which the client turns into an empty listing or `None`, is not modelled; reads see the map.
  - The store's listing order is arbitrary (`Store.Enumerate`).
  - A partial update of an unknown id is not modelled.
- MarkTimeout: on an id that is not stored, Firebase's `update` would create a partial document. The model leaves the store unchanged.
- **Validation details.** Pydantic's type coercion is not modelled: a value of the wrong type is a validation error, not converted. Record validation is modelled as field-by-field reads with defaults.
- **The ISO-8601 text layout.** Timestamps are naturals. `isoformat`/`fromisoformat` are abstracted to a decimal rendering with a proved inverse. Clock reads are one parameter `now` per operation, whereas the source reads the clock several times:
  - `create_request` reads it for `timeout_at` (backend/src/services/help_request_service.py:26) and again for each of `created_at` and `updated_at` in the record's defaults;
  - each record's `created_at` and `updated_at` defaults are two separate `utcnow()` calls (backend/src/models/help_request.py:32-33, backend/src/models/knowledge_base.py:31-32, backend/src/models/customer.py:21-22), so they can differ by a few microseconds; the model gives both the same `now`;
  - the sweep reads `now` once (backend/src/services/help_request_service.py:166) and each `mark_timeout` it calls reads the clock again for `updated_at` (backend/src/services/help_request_service.py:145); the model stamps every timed-out request with the sweep's `now`;
  - `resolve_request` reads `now` (backend/src/services/help_request_service.py:101), and the learned knowledge entry takes its timestamps from a later read; the model uses the same `now`.
- **Settings.** `settings.help_request_timeout` (3600 seconds by default) is the `timeout` parameter of `CreateRequest`, since settings can be overridden from the environment.
- ValidatePhoneNumber: `\d` is taken as the ASCII digits, whereas Python's `re` also accepts other Unicode decimal digits.
- **`generate_response`.** The HTTP call, its JSON parsing and its temperature and token limits become the `Completion` parameter. `confidence` is an opaque real.
- **Logging.** Log output is not modelled, except that each notification's log write becomes the `logged` flag and the `notices` outbox.
- **Concurrency.** Concurrent invocation, last-writer-wins races on the store and overlapping sweeps are not modelled; every operation runs alone.
- **Out of scope.** The salon agent's event loop, the HTTP routes and app, settings loading, the scripts and the tests are not part of this model.
- **Aliasing.** Records and dicts are values in the model, so two in-place behaviours are not captured:
  - each `from_dict` (backend/src/models/help_request.py:66-68, backend/src/models/knowledge_base.py:51-53, backend/src/models/customer.py:41-43) also rewrites the caller's dict in place;
  - `get_session_info` (backend/src/services/livekit_service.py:59-61) returns the live session dict rather than a copy.
- `SALON_SYSTEM_PROMPT` is a constant text that no modelled operation reads.
- **Weaker Python semantics.**
  - `str.lower` is modelled on ASCII letters only.
  - `str.strip` is modelled with the `str.isspace` set, as the source uses it.
