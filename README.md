# SmartAIManager provider selection and fallback, in Dafny

This project models the engine inside `SmartAIManager` (`ai_manager.py`) that
decides which AI provider and which model serve a request, and proves what
that engine promises.

The engine keeps five providers: Google, OpenAI, Stability, Luma and Kling.
It works in these steps:

- **Discovery.** It checks their API keys and discovers their models once.
  Each model name is classified into chat, image or video with a priority by
  ordered substring rules. Each list is ranked by priority, and the best model
  of each service becomes active.
- **Requests.** A chat, image or video request is validated, checked against
  the user's daily quota, and offered to the available providers in order of
  fewest errors, then least use.
- **Retry per provider.** Inside one provider, `_execute_with_fallback` calls
  the backend and rotates through the ranked models on quota and model errors,
  up to a budget of attempts.
- **Bookkeeping.** It keeps an LRU cache of per-user daily counts (at most
  1000 entries), Gemini chat sessions that expire after an hour of inactivity,
  a cache of generated files, and a daily reset.

Modules:

- `Wrappers`: `Option`.
- `Text`: the few Python string operations the source uses (`lower`, `strip`,
  `in`, `endswith`, slicing, `str(int)`).
- `Sorting`: a stable insertion sort on integer pair keys, standing in for
  Python's stable `list.sort(key=...)`.
- `Catalog`: services, providers, `ModelInfo`, the two name analysers, the
  classify loop, the priority sort and `min(..., key=priority)`.
- `Registry`: `ProviderConfig` (here `Config`), the key checks, the discovery
  steps, `_select_best_models` and `get_available_providers`.
- `Quota`: the quota cache, an insertion-ordered dictionary written as a
  sequence of `(key, count)` slots.
- `Sessions`: the Gemini chat sessions and their idle sweep.
- `Fallback`: error classification, `rotate_model`'s successor rule and the
  retry loop, as pure functions.
- `Dispatch`: one provider's run, the provider cascade of a request, and the
  whole request flow of `chat_with_ai`, `generate_image` and `generate_video`.
- `Manager`: the class `SmartAIManager`. It holds the registry, the quota
  cache, the sessions, the file cache and the discovery flag, and its methods
  update them in place. Each loop that updates state is a method with its
  invariants, proved against the functions above. The per-service sort loop
  of discovery is a map display (`Manager.RankAll`), and the delete loop of
  `_cleanup_old_sessions` is a set difference.

Outside inputs are parameters:

- the backends, as an oracle from provider, model and attempt number to
  success or an error message;
- the environment: keys, limits, and whether each client could be set up;
- the clock: `now` in microseconds, `today` as `%Y-%m-%d`;
- the count the database holds for the user today;
- the MD5 digest of a prompt, as a function.

Where the behaviour of the code differs from what its comments or a
straightforward reading suggest, the model follows the code:

- `ensure_discovery` sets `discovery_completed` even when discovery failed,
  because `_setup_and_discover_async` swallows every exception.
- A provider with a single model stops after one failed attempt. Rotation
  yields the same model, and the loop only goes on with a different one.
- The key checks of `_init_providers` only ever disable a provider, and
  providers start disabled. A Google or OpenAI key shorter than 10
  characters is still enabled by discovery when the client can be set up.
- `_execute_with_fallback` always ends in the "all attempts failed" error,
  or the "not enabled" error. So a failed provider's `last_error` is that
  message, never the backend's own.
- A backend that returns an empty string is treated as falsy: the provider is
  skipped without touching any counter or the error list.
- `reset_daily_counts` deletes every key of the quota cache. Keys end with
  the service name, never with today's date.

## Model

| member | source | states |
|---|---|---|
| Catalog.AnalyzeGoogle | ai_manager.py:239-304 | a recognised Google model keeps its name, is a Google model, has a non-empty name and is marked latest exactly when its lower-cased name mentions "latest"; chat priorities are 10, 15, 20, 30, 40 or 100, image models get version 1.0 and priority 5, 10, 20, 30 or 50, and video models version 1.0 and priority 10 |
| Catalog.GoogleClassification | ai_manager.py:246-254 | a name is chat exactly when it contains "gemini" and not "tts"; otherwise image exactly when it contains "imagen" or "banana"; otherwise video exactly when it contains "veo"; discarded exactly when none of these holds |
| Catalog.ChatTierRank | ai_manager.py:263-286 | chat priorities go with versions: 3.0 gets 10, 2.5 gets 15, 2.0 gets 20, 1.5 gets 30, and 1.0 gets 40 (or 100 for an unrecognised Gemini) |
| Catalog.GoogleNewerChatPreferred | ai_manager.py:263-286 | of two Google chat models, the one with the newer Gemini version always has a strictly smaller priority |
| Catalog.GoogleImageRanking | ai_manager.py:288-295 | a "banana" image model gets priority 5, and every other image model gets 10, 20, 30 or 50, so a banana model always ranks first |
| Catalog.GoogleChatTable | ai_manager.py:262-286 | first matching rule wins: gemini-3 gets 3.0/10, gemini-2.5 or gemini-2-5 2.5/15, gemini-2.0 or gemini-2-0 2.0/20, gemini-1.5 or gemini-1-5 1.5/30, gemini-1.0, gemini-1-0 or gemini-pro 1.0/40, and any other chat model 1.0/100 |
| Catalog.GoogleImageTable | ai_manager.py:288-294 | first matching rule wins: banana 5, imagen-4 10, imagen-3 20, imagen-2 30, and any other image model 50, so a newer Imagen is preferred to an older one |
| Catalog.AnalyzeOpenAI | ai_manager.py:356-400 | a recognised OpenAI model keeps its name, provider and requested service, has a non-empty name and is never marked latest; chat priorities are 5, 10, 15, 20, 25 or 30 and image priorities 5 or 10; an image model is recognised exactly when its lower-cased name mentions "dall-e-3" or "dall-e-2"; every video request is accepted with version 1.0 and priority 100 |
| Catalog.OpenAIChatRecognised | ai_manager.py:363-377 | a chat model is recognised exactly when its lower-cased name mentions "gpt-4" or "gpt-3.5-turbo", and otherwise the answer is `None` |
| Catalog.OpenAIChatTable | ai_manager.py:363-375 | gpt-4o-mini, gpt-4o, gpt-4-turbo, gpt-4, gpt-3.5-turbo and gpt-3.5-turbo-instruct get priorities 5 < 10 < 15 < 20 < 25 < 30, with version 4.0 for the GPT-4 family and 3.5 for the rest |
| Catalog.OpenAIImageTable | ai_manager.py:379-385 | dall-e-3 gets version 3.0 and priority 5, ahead of dall-e-2 with version 2.0 and priority 10 |
| Catalog.Classified | ai_manager.py:218-221 | the models kept for a service all belong to that service, and there are never more than the names given |
| Catalog.ClassifiedMembers | ai_manager.py:218-221 | a model is in a service's list exactly when some name analyses to it with that service |
| Catalog.Classify | ai_manager.py:218-221 | the classify loop appends to each service's bucket exactly the recognised models of that service, in name order |
| Catalog.SortByPriority | ai_manager.py:223-227 | the ranked list is a permutation of the classified one |
| Catalog.SortByPriorityRanks | ai_manager.py:223-227 | the ranked list is ascending by priority, and models of equal priority keep their discovery order |
| Catalog.BestModel | ai_manager.py:473-475 | the best model is a member of the list, and no member has a smaller priority |
| Catalog.BestIndex | ai_manager.py:473-475 | the chosen index holds a minimum priority, and every earlier model has a strictly larger one, as `min` picks the first minimum |
| Catalog.BestOfRankedIsHead | ai_manager.py:466-475 | on a list ranked by priority, the best model is the head |
| Registry.CheckKey | ai_manager.py:131-137 | a key is reported missing exactly when it is absent or blank after stripping, and too short exactly when it is present, not blank and under 10 characters |
| Registry.InitConfig | ai_manager.py:100-128 | a new provider record has the given key and limit, is disabled, has zero counters, no error and no models |
| Registry.Discovered | ai_manager.py:149-172 | discovery keeps the registry's set of providers |
| Registry.DiscoveryEnabling | ai_manager.py:178-189 | after discovery, Google (OpenAI) is enabled exactly when its key is non-empty and its client could be set up; Stability, Luma and Kling exactly when their key is longer than 20 characters |
| Registry.ShortKeyStillEnablesGoogle | ai_manager.py:178-189 | a non-blank Google key of fewer than 10 characters is reported too short at start-up, yet discovery still enables Google |
| Registry.OthersGetNoModels | ai_manager.py:402-441 | Stability, Luma and Kling are never given discovered or active models |
| Registry.GoogleStepWellFormed | ai_manager.py:207-233 | after Google's discovery every model list is ranked with non-empty names, and every active model is in its service's list |
| Registry.OpenAIStepWellFormed | ai_manager.py:322-350 | after OpenAI's discovery every model list is ranked with non-empty names, and every active model is in its list |
| Registry.SelectBestHeads | ai_manager.py:466-475 | `_select_best_models` keeps the registry well formed, and makes the head of every non-empty ranked list of an enabled provider its active model |
| Registry.DiscoveryRanks | ai_manager.py:149-172 | one provider's discovery leaves ranked lists whose head is the active model of every service that has models |
| Registry.Candidates | ai_manager.py:489-502 | a provider is a candidate exactly when it is in the registry, enabled, under its daily limit and serves the service |
| Registry.AvailableOrderSpec | ai_manager.py:486-505 | the available providers are exactly the eligible ones, without repeats, ascending by (errors today, usage today), with ties in registry order |
| Registry.AnyAvailable | ai_manager.py:1267-1273 | the list of available providers is non-empty exactly when some provider is eligible |
| Quota.LimitFor | ai_manager.py:1227-1233 | "ai_chat", "image_gen" and "video_gen" get the chat, image and video limits, and any other service name gets 20 |
| Quota.Lookup | ai_manager.py:1208-1209 | a lookup misses exactly when the key is not in the cache, and a hit returns the count stored with the first entry holding the key |
| Quota.Decide | ai_manager.py:1235-1238 | the check allows exactly when usage is under the limit, with `limit - usage` remaining; otherwise it refuses with 0 |
| Quota.TouchSpec | ai_manager.py:1208-1221 | a hit or a miss leaves the key as the most recent entry with the usage read, keeps the other entries in order, and grows the cache only on a miss |
| Quota.CheckCacheBound | ai_manager.py:1223-1225 | a cache of at most 1000 entries stays at most 1000, and a larger one does not grow |
| Quota.CheckCacheKeepsKey | ai_manager.py:1208-1225 | after the check, the key is in the cache with the usage it was compared with |
| Quota.CheckCacheKeyed | ai_manager.py:1201-1225 | the check keeps the cache's keys unique |
| Quota.BumpSpec | ai_manager.py:1244-1252 | the usage update adds exactly 1 to its key's count, leaves every other count alone, keeps an existing key in place and appends a new one |
| Quota.BumpHit | ai_manager.py:1250-1251 | a cached count `c` becomes `c + 1` |
| Quota.BumpMiss | ai_manager.py:1250-1251 | an uncached key starts at 1 |
| Quota.BumpKeyed | ai_manager.py:1250-1251 | the update keeps the cache's keys unique |
| Quota.BumpTimes | ai_manager.py:1250-1251 | `n` updates add exactly `n` to the key's count |
| Quota.QuotaRunsOut | ai_manager.py:1235-1251 | after `n` consecutive usage updates with no check in between, the user is refused exactly when the count reaches the limit, and otherwise the remaining quota has dropped by `n` |
| Quota.SweepDay | ai_manager.py:1322-1330 | an entry survives the reset exactly when its key ends with today's date |
| Quota.SweepDayKeyed | ai_manager.py:1322-1330 | the reset keeps the cache's keys unique |
| Quota.CacheKeyIsServiceKey | ai_manager.py:1205 | every cache key built for the three services ends with the service's name |
| Quota.ServiceKeyNotToday | ai_manager.py:1325 | a key ending with a service name never ends with a `YYYY-MM-DD` date |
| Quota.ResetDropsEverything | ai_manager.py:1323-1329 | on a cache of service keys, the reset deletes every entry |
| Quota.UserStats | ai_manager.py:1275-1284 | the statistics hold exactly the three services, each with the cached count for today, or 0 |
| Quota.UserStatsBump | ai_manager.py:1244-1252 | after the usage update of one service today, the stats show that service one higher and the other two unchanged |
| Quota.UserStatsAfterReset | ai_manager.py:1323-1329 | after the daily reset of a cache of service keys, the stats show 0 for all three services |
| Sessions.Sweep | ai_manager.py:722-735 | the sweep keeps exactly the sessions idle for at most one hour, unchanged |
| Sessions.SweepBoundary | ai_manager.py:728 | a session idle for exactly one hour is kept, and one idle a microsecond longer is dropped |
| Sessions.HousekeepSpec | ai_manager.py:666-683 | a Gemini chat call keeps the user's live chat or opens one with a fresh handle, marks the user active now, and changes no other live session |
| Sessions.HousekeepIdempotent | ai_manager.py:666-683 | repeating the sweep and touch at the same instant changes nothing |
| Fallback.RetryableKeywords | ai_manager.py:571-576 | an error is retried exactly when its lower-cased text contains one of "429", "quota", "rate limit", "resource exhausted", "404", "not found" or "invalid model" |
| Fallback.NextModel | ai_manager.py:515-541 | rotation yields nothing exactly when the list is empty, otherwise a model of the list, and the head of the list when no model is current or the current one is not listed |
| Fallback.RotationStep | ai_manager.py:528-538 | from the model at index `j` of a list with distinct names, rotation goes to index `j + 1`, and from the last index back to 0 |
| Fallback.IndexOf | ai_manager.py:528-532 | the index found holds the model, and no earlier index does |
| Fallback.RotatedAt | ai_manager.py:515-541 | `k` rotations from index `j` land on index `(j + k) mod n` |
| Fallback.RotationNoRepeat | ai_manager.py:515-541 | on a non-empty list of `n` distinct names, fewer than `n` rotations never revisit a model |
| Fallback.RotationReachesAll | ai_manager.py:515-541 | on a non-empty list of `n` distinct names, every model of the list is reached within `n - 1` rotations |
| Fallback.RetryStep | ai_manager.py:568-585 | a retryable failure that rotates to another model is one call followed by the run from the next model |
| Fallback.RetryWithinBudget | ai_manager.py:553-594 | a run makes at most as many calls as the budget allows, and its first call uses the starting model |
| Fallback.RetryPayload | ai_manager.py:564-565 | a payload comes from the last call of the run, made with the model the run ended on |
| Fallback.RetryStaysInList | ai_manager.py:553-592 | every model called is the starting model or a model of the list |
| Fallback.RetryFailuresBeforeLast | ai_manager.py:567-589 | every call before the last failed with a retryable error and was followed by a rotation to a different model |
| Fallback.FatalFailureStops | ai_manager.py:590-592 | a failure that is not retryable ends the run after that one call, with no payload |
| Fallback.OneModelStopsAfterOneAttempt | ai_manager.py:583-589 | with a single model, a failure of any kind ends the run after one call |
| Fallback.RetryExhaustsBudget | ai_manager.py:553-594 | with two or more distinct models and only retryable failures, the run spends the whole budget, cycling through the models in rank order |
| Dispatch.ActiveModel | ai_manager.py:507-513 | there is an active model exactly when the provider is enabled and one is set for the service, and it is the one set for that service |
| Dispatch.RotateIn | ai_manager.py:515-541 | rotation fails exactly when there is no model for the service, and then changes nothing; otherwise it returns a model of the list, makes it active, and changes nothing else |
| Dispatch.RotateKeepsWellFormed | ai_manager.py:515-541 | rotation keeps every active model in its service's list |
| Dispatch.ExecuteBounded | ai_manager.py:553 | a provider's run calls the backend at most `max_retries` times |
| Dispatch.ExecuteResult | ai_manager.py:543-594 | a success is the result of the run's last call; a failure is the "not enabled" error for a disabled provider, and the "all attempts failed" error otherwise |
| Dispatch.ExecuteFrame | ai_manager.py:543-594 | a provider's run changes only the active model of the requested service |
| Dispatch.ExecuteStaysInList | ai_manager.py:555-589 | every model a run calls, and the model it leaves active, is in the service's ranked list |
| Dispatch.ExecuteKeepsWellFormed | ai_manager.py:543-594 | a provider's run keeps the record well formed |
| Dispatch.NoModelsNoCall | ai_manager.py:555-558 | a provider with no active model and no models for the service fails without calling the backend and without changing its record |
| Dispatch.OneModelOneCall | ai_manager.py:583-589 | a provider with one model whose first call fails makes exactly that one call |
| Dispatch.EmptyBackendEmptyRun | ai_manager.py:564-565 | a backend that returns empty strings gives an empty success on the first call |
| Dispatch.SettleCounters | ai_manager.py:642-653 | after its turn, an answering provider has one more use, a failed one has one more error and that error as its last, and an empty answer changes nothing |
| Dispatch.CascadeShape | ai_manager.py:625-653 | the providers are contacted in the given order, up to and including the first that answers with a non-empty payload, and all of them when none does |
| Dispatch.CascadeFailures | ai_manager.py:648-653 | every error collected comes from a provider of the order |
| Dispatch.EmptyPayloadsLeaveNoTrace | ai_manager.py:642-657 | when every payload is empty, nobody wins and no error is collected |
| Dispatch.Truncate | ai_manager.py:611-612 | text within the maximum passes unchanged; longer text becomes exactly its first 4000, 2000 or 1000 characters, followed by "..." for chat only |
| Dispatch.ErrorLines | ai_manager.py:650 | each error line is the provider's name and the first 100 characters of its error |
| Dispatch.Admit | ai_manager.py:614-621 | a request is refused for quota exactly when usage has reached the limit, with 0 remaining, and then no provider is touched |
| Dispatch.ServeValidation | ai_manager.py:605-609 | a user id of 0 or less is refused, and otherwise text shorter than 1, 3 or 5 characters once stripped is refused; neither touches the registry, the quota cache or any provider |
| Dispatch.BlankIsTooShort | ai_manager.py:608-609 | all-blank text is refused as too short |
| Dispatch.ServeQuotaGate | ai_manager.py:614-616 | a valid request is refused for quota exactly when usage has reached the limit, and then no provider is contacted |
| Dispatch.ServeCascade | ai_manager.py:605-657 | a valid request under quota with no available provider is refused with the registry unchanged; otherwise its reply is the cascade over the available providers |
| Dispatch.ConcludeSpec | ai_manager.py:642-657 | the reply is an answer exactly when a provider won, and then the use is recorded; otherwise it lists one to three error lines, or is the unexpected error exactly when there was no error, and the quota cache is untouched |
| Dispatch.DeliverAnswer | ai_manager.py:618-646 | an answer has a non-empty payload from an available, eligible provider, and records one use |
| Dispatch.AdmitAnswer | ai_manager.py:614-646 | an answer comes only under quota, and the user's count afterwards is the usage checked plus one |
| Dispatch.ServeAnswer | ai_manager.py:605-646 | an answered request came from an eligible provider under quota, and the user's count rises by exactly one |
| Dispatch.ServeFailureSummary | ai_manager.py:648-657 | a failure reply has one to three error lines, and every available provider was contacted |
| Manager.ChooseBest | ai_manager.py:466-475 | the loop over services computes `_select_best_models` for one record |
| Manager.PickedAll | ai_manager.py:466-475 | once every service has been visited, the active models are those of `_select_best_models` |
| Manager.StepGoogle | ai_manager.py:174-237 | Google's setup: unchanged without a key, disabled when the client fails, otherwise the listed or built-in names ranked |
| Manager.RankGoogle | ai_manager.py:207-233 | Google's classify, sort and top-chat steps compute the ranked record |
| Manager.StepOpenAI | ai_manager.py:306-354 | OpenAI's setup: unchanged without a key, disabled when the client fails, otherwise the known models ranked |
| Manager.RankOpenAI | ai_manager.py:322-350 | OpenAI's classify and sort loops compute the ranked record |
| Manager.EnableOthers | ai_manager.py:402-441 | Stability, Luma and Kling are enabled by a key longer than 20 characters, and the others are untouched |
| Manager.SelectAll | ai_manager.py:466-475 | every provider's record gets its best models |
| Manager.PipelineDiscovers | ai_manager.py:149-172 | the four steps one after the other are each provider's discovery |
| Manager.DiscoveredWellFormed | ai_manager.py:149-172 | discovery from fresh records leaves a well-formed registry |
| Manager.Discover | ai_manager.py:149-172 | the discovery steps compute the discovered registry, which is well formed |
| Manager.RotateConfig | ai_manager.py:515-541 | the rotation method computes `RotateIn` |
| Manager.IndexIn | ai_manager.py:528-533 | the search loop finds the first index of the current model, or none when it is absent |
| Manager.RotateWithin | ai_manager.py:515-541 | rotation inside the retry loop returns the successor and writes it as the active model |
| Manager.TakeTurn | ai_manager.py:562-592 | one iteration of the retry loop either ends the run or rotates to a different model from which the rest of the run continues |
| Manager.RetryLoop | ai_manager.py:553-594 | the retry loop computes the specified run, and leaves the model it ended on active |
| Manager.ExecuteOn | ai_manager.py:543-594 | `_execute_with_fallback` on a record computes the specified run |
| Manager.FallbackOn | ai_manager.py:543-594 | a provider's run updates only its record, and the chat sessions when Gemini chat was called, and keeps the state sound |
| Manager.Record | ai_manager.py:642-653 | after a provider's turn, a winner's use is recorded (and for a file its cache entry), a failure is charged, and the state stays sound |
| Manager.TryOn | ai_manager.py:625-653 | one provider's turn in a request: its run, then its counters, the quota and the file cache |
| Manager.StepOn | ai_manager.py:625-653 | one iteration of the provider loop advances the cascade by one provider |
| Manager.CanvassOn | ai_manager.py:625-657 | the provider loop computes the specified cascade and its reply |
| Manager.CheckIn | ai_manager.py:1201-1238 | the limit check computes the checked cache and the verdict, and keeps keys unique |
| Manager.AvailableIn | ai_manager.py:486-505 | the filter-and-sort loop computes the available order |
| Manager.DeliverOn | ai_manager.py:618-657 | an admitted request computes the specified reply and state |
| Manager.AdmitOn | ai_manager.py:614-657 | a valid request computes the specified reply and state |
| Manager.ServeOn | ai_manager.py:605-657 | a request after discovery computes the specified reply and state |
| Manager.StaleUsers | ai_manager.py:724-731 | the first sweep loop collects exactly the users idle for more than an hour |
| Manager.SweepIn | ai_manager.py:1322-1330 | the reset's loop keeps exactly the entries whose key ends with today's date |
| Manager.ZeroAll | ai_manager.py:1332-1335 | every provider's counters and last error are cleared |
| Manager.SmartAIManager.constructor | ai_manager.py:75-99 | the manager starts with the initial registry, all providers disabled, and empty caches, sessions and flag |
| Manager.SmartAIManager.EnsureDiscovery | ai_manager.py:141-147 | discovery runs only while the flag is off, and the flag is on afterwards whatever discovery found |
| Manager.SmartAIManager.DiscoverAll | ai_manager.py:149-172 | the registry becomes the discovered one, and the flag is set |
| Manager.SmartAIManager.GetAvailableProviders | ai_manager.py:486-505 | returns the available order of the current registry |
| Manager.SmartAIManager.GetAvailableServices | ai_manager.py:1267-1273 | each service is reported available exactly when some provider is eligible for it |
| Manager.SmartAIManager.RotateModel | ai_manager.py:515-541 | rotation changes only the provider's active model, and returns the rotated model |
| Manager.SmartAIManager.ExecuteWithFallback | ai_manager.py:543-594 | the run updates only the provider's record, and the chat sessions when Gemini chat was called |
| Manager.SmartAIManager.Request | ai_manager.py:598-662 | a request runs discovery if needed, replies as specified and leaves the specified state |
| Manager.SmartAIManager.ChatWithAI | ai_manager.py:598-662 | `chat_with_ai`: the request flow for chat |
| Manager.SmartAIManager.GenerateImage | ai_manager.py:739-818 | `generate_image`: the request flow for images, with the file cached under its key |
| Manager.SmartAIManager.GenerateVideo | ai_manager.py:994-1073 | `generate_video`: the request flow for videos, with the file cached under its key |
| Manager.SmartAIManager.CheckUserLimit | ai_manager.py:1201-1242 | the quota cache is updated by the check, the verdict is returned, and nothing else changes |
| Manager.SmartAIManager.UpdateUserUsage | ai_manager.py:1244-1265 | the user's count is bumped, and nothing else changes |
| Manager.SmartAIManager.CleanupOldSessions | ai_manager.py:722-735 | the sessions become the swept ones, and nothing else changes |
| Manager.SmartAIManager.TouchSession | ai_manager.py:668-683 | an unknown user gets a new chat with the next handle, and the user is marked active now |
| Manager.SmartAIManager.ResetDailyCounts | ai_manager.py:1318-1337 | the cache keeps only keys ending with today's date, and every provider's counters and last error are cleared |

## Left out

- The backends (`_chat_with_google` and `_chat_with_openai`, the three image
  and three video generators) are an oracle from provider, model and attempt
  number to a payload or an error message. Their timeouts, polling,
  decoding, file writes and `style`/`image_url` handling are not modelled.
- Prompt enhancement (`_enhance_image_prompt`, `_enhance_video_prompt`) is
  not modelled. The oracle is chosen per request, so the enhanced prompt is
  implicit in it; the cached prompt is the truncated one, as in the source.
- `_clean_response` depends on Python's regular expressions and is not part
  of this model.
- The database:
  - the SQL of `check_user_limit` and `update_user_usage` and the `db.save_*`
    calls are not modelled;
  - the stored count is a parameter;
  - the `(True, 999)` path taken on a database fault is not modelled.
- The outer `except` handlers of the request flows and of the quota methods
  are not modelled. Nothing in the modelled code raises there.
- `asyncio.Lock` and concurrency: discovery is a sequential once-flag.
- `os.getenv`: keys and limits are functions given to the constructor, and
  user limits are a parameter of each check.
- `datetime.now`: `now` and `today` are parameters.
- `hashlib.md5` is a digest function given as a parameter.
- Google's and OpenAI's setup either completes or fails at client setup
  (`googleSetupOk`, `openaiSetupOk`); a failed Google listing is an absent
  listing. An exception raised halfway through classification, which would
  leave a partly filled record, is not modelled.
- The `models/` prefix removal from listed Google names is not modelled:
  the listing is given already stripped.
- Logging, `_log_discovery_results`, `get_system_stats`,
  `_extract_version_number`, `avg_response_time` and the `ModelInfo` fields
  that nothing reads (`supports_enhancement` and the capability flags) are
  not part of this model.
- bot.py is not part of this model.
- `Text.Lower` and `Text.Strip` handle ASCII letters and ASCII white space
  only. Python's Unicode case mapping and white-space classes are not
  modelled.
- Error replies are constructors (`InvalidUser`, `TooShort`,
  `LimitReached`, ...), not the Arabic texts of the source. The failure
  reply carries its error lines as a list rather than joined by newlines.
- The exception texts raised for a disabled provider and for exhausted
  attempts (ai_manager.py:548 and 594) are English renderings
  (`Dispatch.DisabledMessage`, `Dispatch.ExhaustedMessage`). They reach
  `last_error` and the failure reply's error lines, whose 100-character cut
  therefore applies to different text.
- Manager.SmartAIManager.ExecuteWithFallback: Gemini chat sweeps and touches
  the sessions on every call; the model applies one round per run. At one
  instant, further rounds change nothing (`Sessions.HousekeepIdempotent`).
  Every call of one run shares the same `now`.
- Manager.SmartAIManager.Request: the provider records are values in a map,
  so the in-place update of a `ProviderConfig` object shared by the
  provider list and the registry is a map update.
