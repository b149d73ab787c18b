# market_planner core, modelled in Dafny

This project models the request handlers and services of the market_planner
backend. That backend is a FastAPI service that plans social-media content
for companies. It stores companies, posts, newsletters, blogs, monthly themes
and scheduled jobs in Firestore. It caches newsletter and blog listings in
Upstash Redis, and it asks a language model for posts, planners and themes.

Everything is stated over explicit state:

- Firestore is a map from document path to record (`Store`).
- Redis is a map from key to a string or a list of strings (`RedisConfig.Cache`). A small command interpreter stands in for the server.
- The model's completions are parameters, as are the image controller's answers, Firestore's auto ids, the clock, ISO-8601 parsing and JSON encoding and decoding (`Values.Env`).
- A Python value is a `Values.Value`.
- A raised exception is a `Values.Exc`. It renders as its `str()` where a handler wraps it in an HTTP 500.

Modules follow the source files:

| module | source |
|---|---|
| `Values`, `Store`, `Channels` | Python values and errors, the Firestore operations used, the three channels |
| `ContentModel` | models/content_model.py |
| `GptService` | services/gpt_service.py (validation, fence cleaning, post checks, theme calls, `normalize_field`) |
| `PlannerRoutes` | api/planner_routes.py |
| `ContentRoutes` | api/content_routes.py |
| `ContentService` | services/content_service.py |
| `SchedulerService` | services/scheduler_service.py |
| `SchedularRoutes` | api/schedular_routes.py |
| `ThemeRoutes` | api/theme_routes.py |
| `RedisConfig` | cache/redis_config.py |
| `LongFormRoutes` | api/newsletter_routes.py and api/blog_routes.py (one model, parameterised by `Kind`) |
| `CompanyRoutes` | api/company_routes.py |

Several handlers fail on every input that reaches a certain line, and the
model keeps that behaviour:

- `create_company` reads `company.url`, an attribute `CompanyRequest` does not declare. Every request that passes the name checks therefore ends in 500, with nothing written.
- `update_company` writes the update and then calls `generate_all_themes_route(company_id, db)`. That function takes one argument, so every update of an existing company is written and then reported as 500.
- The four defects that have an evident fix are listed under "## Findings". Each has both the as-written and the corrected version.

## Model

| member | source | states |
|---|---|---|
| ContentModel.ZRewriteSpec | models/content_model.py:19 | replacing every 'Z' by '+00:00' leaves no 'Z', and a string without one comes through unchanged |
| ContentModel.ZRewriteIdempotent | models/content_model.py:30 | the 'Z' rewrite applied twice gives the same string as applied once |
| ContentModel.ValidateScheduledTime | models/content_model.py:14-23 | `None` passes; a string passes, and is returned verbatim, exactly when it parses as ISO after the 'Z' rewrite; any other string is a ValueError |
| ContentModel.ScheduledDatetime | models/content_model.py:25-33 | no datetime for `None` or the empty string; otherwise the ISO parse of the rewritten string |
| ContentModel.ValidatedHasDatetime | models/content_model.py:14-33 | once the validator accepts a time, a datetime exists exactly when the time is a non-empty string |
| ContentModel.IsFutureSchedule | models/content_model.py:35-48 | true only with a datetime; an aware time is compared with the UTC clock and a naive one with the local clock, strictly later meaning future |
| ContentRoutes.ImageRequest | api/content_routes.py:25-29 | the image payload holds exactly the prompt, the company id and the channel name |
| ContentRoutes.GenerateImage | api/content_routes.py:22-42 | the route returns the image controller's answer to that payload unchanged |
| ContentRoutes.SavedPost | api/content_routes.py:94-104 | the saved document has exactly the nine fields: channel, company, the request's four fields as sent (unset reads `None`), the derived datetime and both timestamps |
| ContentRoutes.SavePost | api/content_routes.py:88-119 | a store failure gives 400 "Post couldn't be saved: ..." and writes nothing; otherwise the post is stored under the new id, which the response returns with `scheduled_for` equal to the request's time |
| ContentRoutes.SavedDatetimeMatchesTime | api/content_routes.py:94-104 | a saved post's datetime is the parse of its own rewritten `scheduled_time`, and `None` when the time is `None` |
| ContentRoutes.GetPost | api/content_routes.py:194-215 | 404 "Post ID ... not found" exactly for a missing post; otherwise the stored fields with `post_id` set to the id |
| ContentRoutes.WithIds | api/content_routes.py:275-279 | one listing entry per streamed document, in stream order, each with `post_id` added |
| ContentRoutes.GetAllPosts | api/content_routes.py:267-297 | a store failure is returned as an error body; otherwise `data` is the listing, with the "No posts found" message exactly when it is empty |
| ContentRoutes.GetAllPostsComplete | api/content_routes.py:267-297 | every stored post of that company and channel appears in the listing with its own id |
| ContentRoutes.UpdateData | api/content_routes.py:377-383 | exactly the fields the client set, each explicit `None` turned into `[]`, plus `updated_at` as the server timestamp |
| ContentRoutes.UpdatePost | api/content_routes.py:365-401 | 404 for a missing post with nothing written; a store failure gives 500 with nothing written; success exactly when the post exists and the store works, writing the update data |
| ContentRoutes.UpdateTouchesOnlySetFields | api/content_routes.py:377-387 | an update keeps every unsent field and every other document, refreshes `updated_at`, and leaves `scheduled_datetime` as it was even when `scheduled_time` changes |
| ContentRoutes.UpdateNullBecomesEmptyList | api/content_routes.py:379-381 | an explicit `null` caption is stored as an empty list |
| ContentService.RangeCount | services/content_service.py:42 | `range` over a count: an int runs that many units (none when negative), a bool runs 0 or 1, anything else is a TypeError |
| ContentService.UnitPost | services/content_service.py:73-84 | a unit's document: its channel and company, the image url, the planner's caption, hashtags and overlay text with their defaults, the request's time and its parse, and both timestamps |
| ContentService.ImageStage | services/content_service.py:47-65 | a unit gets an image only with a truthy planner answer and a truthy image prompt, and outside Instagram only once `ContentRequest` is bound |
| ContentService.ScheduleStage | services/content_service.py:69 | the time parses exactly when `scheduled_time` is a string that parses after the 'Z' rewrite; an unparsable string raises `ValueError` quoting the rewritten string's `repr`; a datetime raises `TypeError` "'str' object cannot be interpreted as an integer", because its own `replace` takes the year first; any other non-string has no `replace` |
| ContentService.UnitBody | services/content_service.py:43-88 | a unit that succeeds had a successful planner, had `ContentRequest` bound (or is Instagram), and yields a post of the right shape |
| ContentService.Unit | services/content_service.py:91-93 | a unit stops exactly when its body raises, with the 500 detail naming the channel and the 1-based unit number |
| ContentService.UnitKeepsStepOk | services/content_service.py:43-93 | every unit either stops with the store untouched or adds one post of its channel under its new id |
| ContentService.StepsLoop | services/content_service.py:42-93 | the loop over units 0 to n-1 stops at the first failure and matches the recursive run |
| ContentService.RunBatch | services/content_service.py:21-216 | the whole function: request validation, the three channel loops in order, the combined result and the outer 500 wrapper |
| ContentService.RunStepsIds | services/content_service.py:86-88 | a channel loop that completes lists one new id per unit, in unit order |
| ContentService.RunStepsHalted | services/content_service.py:91-93 | a loop that stops does so at some unit whose predecessors all went through |
| ContentService.UnitFailureNamesUnit | services/content_service.py:91-93 | a failing unit keeps the store and reports its channel, number and cause |
| ContentService.RunStepsExtends | services/content_service.py:86 | with fresh ids a loop only adds documents, all in the channel's posts collection |
| ContentService.RunStepsStores | services/content_service.py:73-88 | after a completed loop, every listed id names a stored post of the right shape |
| ContentService.FirstUnitNeeds | services/content_service.py:54-69 | a loop whose first unit succeeds had `ContentRequest` bound or is Instagram's, and had a string `scheduled_time` |
| ContentService.ChannelSuccess | services/content_service.py:42-93 | a channel loop that completes ran exactly its count of units and lists their ids |
| ContentService.RunFromSuccess | services/content_service.py:42-199 | the channels succeed only with valid counts, listing all ids in channel order and the counts |
| ContentService.UnboundRunsNothing | services/content_service.py:54 | with `ContentRequest` never bound and no Instagram unit, a successful run asked for no posts at all |
| ContentService.UnscheduledRunsNothing | services/content_service.py:69 | without a string `scheduled_time`, a successful run asked for no posts |
| ContentService.ChannelsSuccess | services/content_service.py:42-199 | a successful run has valid counts for all three channels and lists Instagram, Facebook, then LinkedIn ids |
| ContentService.GenerateSuccess | services/content_service.py:21-211 | a successful call had a valid planner request and valid counts and returns all ids in channel order with the counts |
| ContentService.UnscheduledBatchFails | services/content_service.py:69 | a call asking for any post without a string `scheduled_time` fails |
| ContentService.UnitLocal | services/content_service.py:43-93 | a unit depends only on its own collaborators' answers |
| ContentService.RunFromLocal | services/content_service.py:42-199 | the run consults only the units its counts ask for |
| ContentService.OnlyRequestedUnitsMatter | services/content_service.py:21-216 | two calls agreeing on the requested units' collaborators have the same outcome |
| ContentService.InstagramUnitIgnoresBinding | services/content_service.py:54 | an Instagram unit binds `ContentRequest` itself, so earlier binding makes no difference |
| ContentService.UnboundUnitFails | services/content_service.py:112 | a Facebook or LinkedIn unit that would succeed fails with UnboundLocalError when `ContentRequest` is unbound |
| ContentService.ChannelsBindingIrrelevant | services/content_service.py:54 | once an Instagram unit runs, where `ContentRequest` is imported no longer matters |
| ContentService.ImportIrrelevantWithInstagram | services/content_service.py:54 | with at least one Instagram post requested, the function behaves exactly like the corrected one |
| ContentService.ChannelsFacebookOnly | services/content_service.py:112 | with no Instagram post, a Facebook run that would succeed stops at its first unit |
| ContentService.FacebookOnlyBatchFails | services/content_service.py:54 | a Facebook request without Instagram posts that the corrected function serves fails as written, leaving the store untouched |
| ContentService.RunStepsOnlyPosts | services/content_service.py:86 | a channel loop changes only unit posts and deletes nothing |
| ContentService.GenerateOnlyPosts | services/content_service.py:21-216 | whatever happens, a call changes nothing but unit posts and deletes nothing |
| GptService.FirstAbsent | services/gpt_service.py:412-415 | the index found is the first listed field `not in` the value, and none is found exactly when every field is present |
| GptService.ValidateCompanyData | services/gpt_service.py:405-415 | falsy input is rejected first; the check passes exactly when all six required keys are present; a dict otherwise fails naming a required key it lacks |
| GptService.ValidationChecksPresenceOnly | services/gpt_service.py:412-415 | any dict holding the six keys passes, whatever their values |
| GptService.RemoveFencesLeavesNone | services/gpt_service.py:434 | after replacing "```" by the empty string no "```" is left, even where removing one joins backticks |
| GptService.CodeFenceCleanedHasNoFence | services/gpt_service.py:433-434 | whatever the model sends, the cleaned post text contains no code fence |
| GptService.CodeFenceRoundTrip | services/gpt_service.py:433-434 | a "```json" fenced reply whose body has no backticks is cleaned back to the stripped body |
| GptService.ThemeFenceRoundTrip | services/gpt_service.py:228-233 | any stripped body comes back exactly from its "```json ... ```" fenced form |
| GptService.ThemeFenceIdentity | services/gpt_service.py:228-233 | stripped text without the fences passes through the theme cleaner unchanged |
| GptService.CheckPost | services/gpt_service.py:438-448 | a decoded post is accepted exactly when it is a dict with the four fields, the expected channel and a list of hashtags |
| GptService.SinglePost | services/gpt_service.py:418-456 | success exactly when the reply's cleaned text decodes to an accepted post, which is returned; a failed call and a rejected post become "Error generating ... post"; undecodable text becomes "Failed to parse JSON response" with the content |
| GptService.GeneratePost | services/gpt_service.py:246-296 | a post is produced only for valid company data and an accepted reply for that channel; falsy company data is rejected before anything else |
| GptService.PromptNeedsToneAnalysis | services/gpt_service.py:246-296 | a company that passes validation but lacks `tone_analysis` fails with a KeyError while the prompt is built |
| GptService.PostsResult | services/gpt_service.py:468-474 | the result holds the three posts in the order Instagram, LinkedIn, Facebook |
| GptService.GenerateAllPosts | services/gpt_service.py:459-474 | success exactly when all three posts succeed, in that order; the first failure, in Instagram, LinkedIn, Facebook order, is the result |
| GptService.ExistingThemesContext | services/gpt_service.py:170-178 | the existing-themes context can be built exactly when the themes are a list whose first two entries are dicts |
| GptService.GenerateTheme | services/gpt_service.py:152-243 | a theme is returned only when the company has the keys read, and it is the decode of the reply after the fence cleaning; with no stored month document, or one whose `themes` holds two dicts to reference, a reply succeeds exactly when it decodes and a failed call propagates |
| GptService.SingleExistingThemeFails | services/gpt_service.py:170-178 | a month document holding a single existing theme makes regeneration fail on `themes[1]` |
| GptService.GenerateAllThemes | services/gpt_service.py:46-149 | a result is returned only with a non-`None` address, a detected language and all company keys present, and it is the decode of the stripped reply; with those, a decodable reply is returned, an undecodable one raises `ValueError` with its first 200 characters, and a failed call propagates; a language lookup error propagates |
| GptService.NullAddressLeavesLanguageUnbound | services/gpt_service.py:48-51 | a company whose address is `None` always fails with UnboundLocalError on `language` |
| GptService.NormalizeField | services/gpt_service.py:535-540 | `None` gives ""; a set gives exactly its elements, in its iteration order, joined by ", ", so every element appears; anything else gives its `str` (a string itself, a list or dict its `repr`) |
| GptService.NormalizeSetSplits | services/gpt_service.py:536-537 | splitting a non-empty set's text on ", " gives back its elements in iteration order, when no element holds a comma |
| GptService.NormalizePhrasesRoundTrip | services/gpt_service.py:535-540 | the `str` of a list of comma-free phrases of plain characters reads back as those phrases: brackets around single-quoted items joined by ", " |
| Values.SplitJoin | services/gpt_service.py:537 | splitting `sep.join(xs)` on `sep` gives back the pieces, when no piece holds the separator's first character |
| Values.PlainReprStr | services/gpt_service.py:540 | the `repr` of a string without quotes, backslashes or control characters is the string in single quotes |
| PlannerRoutes.Normalise | api/planner_routes.py:31-45 | the record has exactly the six planner keys, takes prompt, caption, hashtags and overlay text from the generated post with their defaults, and lower-cases and strips the channel; a non-string channel has no `lower` |
| PlannerRoutes.Planner | api/planner_routes.py:20-51 | 404 "Company ... not found" for a missing company; success exactly when the company exists and the post generator succeeds; every other failure is 500 with the channel's prefix |
| PlannerRoutes.LowerTitle | api/planner_routes.py:31 | lower-casing and stripping a channel's title gives its route name |
| PlannerRoutes.PlannerChannelIsRouteChannel | api/planner_routes.py:29-45 | a planner record always names the route's own channel and carries the generator's caption and list of hashtags |
| RedisConfig.FirstResult | cache/redis_config.py:117-118 | a first result exists exactly when the pipeline answer is a non-empty list, and it is that list's head |
| RedisConfig.TtlOf | cache/redis_config.py:87 | a missing TTL means the two-day default, a given one is used as is |
| RedisConfig.SetValue | cache/redis_config.py:89-94 | dicts and lists are stored as JSON, strings verbatim, anything else as its `str` (`None`, `True`/`False`, the decimal integer, a set's `repr`) |
| RedisConfig.SetCommand | cache/redis_config.py:97-100 | a positive TTL gives `SETEX key ttl value`, any other gives `SET key value` |
| RedisConfig.RedisSet | cache/redis_config.py:78-136 | nothing is sent without both settings; otherwise one pipelined write, reported successful exactly when its first result is "OK" |
| RedisConfig.Decoded | cache/redis_config.py:162-166 | a stored string comes back as its JSON value when it decodes, and as the raw string otherwise |
| RedisConfig.RedisGet | cache/redis_config.py:139-175 | `None` without settings or without a JSON object reply; a string result is decoded when possible, any other result is returned as is |
| RedisConfig.RedisDelete | cache/redis_config.py:178-206 | true exactly when configured and the reply reports at least one key removed |
| RedisConfig.RedisListPush | cache/redis_config.py:211-257 | one `RPUSH` of the JSON-encoded value; true exactly when the first result is a dict with a non-`None` `result` or an integer |
| RedisConfig.PushThenList | cache/redis_config.py:211-244 | against the server, a push is acknowledged exactly when the key is absent or holds a list; the list then gains the value's encoding at its end and nothing else changes, and a key holding a string is left as it was |
| RedisConfig.DecodeItems | cache/redis_config.py:300-310 | never more items than stored; when every item is decodable JSON text the result is their decodings in order |
| RedisConfig.RedisListGetAll | cache/redis_config.py:260-323 | empty without settings or without a reply; otherwise one `LRANGE key 0 -1` whose list result is decoded item by item |
| RedisConfig.SetAllCommands | cache/redis_config.py:339-352 | `DEL`, then one `RPUSH` per item in order, then `EXPIRE` exactly when the TTL is positive and there are items |
| RedisConfig.RedisListSetAll | cache/redis_config.py:326-384 | nothing is sent without settings; otherwise the replacing pipeline, reported successful exactly when the reply is a non-empty list |
| RedisConfig.RedisListRemoveByValue | cache/redis_config.py:387-435 | one `LREM key 0 json(value)`; 0 without settings or without a first result |
| RedisConfig.Without | cache/redis_config.py:400 | what `LREM key 0 v` keeps: no element equal to `v`, never more than before |
| RedisConfig.DefaultTtlCommand | cache/redis_config.py:87-98 | with no TTL the write is `SETEX key 172800 value` |
| RedisConfig.SetThenGet | cache/redis_config.py:78-175 | a write is acknowledged and a read returns the decoding of what was written, so a dict or list whose JSON round-trips comes back equal |
| RedisConfig.DeleteThenGet | cache/redis_config.py:178-206 | a deletion reports true exactly when the key existed, and a later read finds nothing |
| RedisConfig.RunPipelineAppend | cache/redis_config.py:339-352 | running two command lists in one pipeline is running them one after the other |
| RedisConfig.PushesAppend | cache/redis_config.py:344-348 | pushing items one by one appends their encodings to the list in order |
| RedisConfig.SetAllStores | cache/redis_config.py:326-384 | after replacing, the key holds exactly the items' encodings, and is absent for no items |
| RedisConfig.SetAllThenGetAllDecoded | cache/redis_config.py:260-384 | replacing a list is acknowledged, and reading it back returns each item as its JSON encoding decodes |
| RedisConfig.SetAllThenGetAll | cache/redis_config.py:260-384 | replacing a list and reading it back returns the items, provided each item's JSON round-trips |
| RedisConfig.WithoutRemoves | cache/redis_config.py:400 | something is removed exactly when the value is in the list, and every other element stays |
| RedisConfig.RemoveByValueCounts | cache/redis_config.py:387-422 | removing by value leaves the list without any copy of the encoding, keeps the other elements in order, deletes a list it empties, changes no other key, and reports how many copies there were |
| RedisConfig.ListGetAllOn | cache/redis_config.py:268-270 | without settings nothing is sent and the read is empty |
| RedisConfig.ListSetAllOn | cache/redis_config.py:332-334 | without settings nothing is sent and the write reports false |
| RedisConfig.DeleteOn | cache/redis_config.py:183-185 | without settings nothing is sent and the deletion reports false |
| RedisConfig.ListGetAllOnServeKeeps | cache/redis_config.py:260-323 | a list read leaves the cache as it was |
| SchedularRoutes.Rejection | api/schedular_routes.py:20-34 | the company check comes first; a request passes exactly when the company exists, some post count is non-zero, and the theme and its description are non-empty |
| SchedularRoutes.PostData | api/schedular_routes.py:37-43 | the job's generation request holds exactly the theme, its description and the three counts |
| SchedularRoutes.JobDoc | api/schedular_routes.py:46-53 | the job document, without `month_id`, holds the request, `pending`, the company and both timestamps |
| SchedularRoutes.RejectedWritesNothing | api/schedular_routes.py:20-34 | each check fails with its own status and message, in order, and a rejected request writes nothing |
| SchedularRoutes.SchedulePostNeverSchedules | api/schedular_routes.py:50 | as written no request creates a job: one that passes every check fails with 500 on the missing `month_id` attribute, and the store is unchanged |
| SchedularRoutes.SchedulePostFixedQueues | api/schedular_routes.py:46-59 | with `month_id` left out, a request passing the checks adds exactly one `pending` job under the new id, both timestamps the commit time, and changes nothing else |
| SchedularRoutes.QueuedJobNeverDue | api/schedular_routes.py:46-53 | a queued job has no `scheduled_at`, so the scheduler's due query never selects it |
| SchedulerService.UnawaitedJobFails | services/scheduler_service.py:156-177 | as written every job fails: the call returns a coroutine, and a job whose input could be built records the missing `get` attribute as its error |
| SchedulerService.AwaitedJobCompletes | services/scheduler_service.py:150-163 | with the call awaited, a job completes exactly when the batch succeeds, recording the batch's post ids |
| SchedulerService.AwaitedUndatedJobFails | services/scheduler_service.py:152 | with the call awaited, a job without `scheduled_date` that asks for posts still fails |
| SchedulerService.JobInput | services/scheduler_service.py:150-154 | the generation input exists exactly when `post_data` is a mapping, and is its fields plus `scheduled_time` taken from `scheduled_date` and the company id |
| SchedulerService.Verdict | services/scheduler_service.py:158-177 | an exception or a non-dict answer gives one `failed` update with the error's text; a dict gives the `completed` update with its `post_ids`, followed, exactly when those have no `len()`, by a `failed` update with the TypeError's text, the job then counted both ways |
| SchedulerService.FinishedAfter | services/scheduler_service.py:143-177 | after the `processing` update and the closing ones, the job is completed or failed as the verdict says, a job that reached the `completed` update keeping its completion time and ids, all stamps being commit times |
| SchedulerService.ProcessJob | services/scheduler_service.py:143-177 | a job's turn changes only its own document and unit posts |
| SchedulerService.ProcessJobOutcome | services/scheduler_service.py:143-177 | a job reaches the `completed` update exactly when its input could be built and the generation returned a dict, is recounted exactly when that dict's `post_ids` has no length, and is failed otherwise |
| SchedulerService.UnsizedJobRecounted | services/scheduler_service.py:158-172 | a generator answering `{"post_ids": n}` leaves the job `failed` with "object of type 'int' has no len()", still holding `n` as its ids, counted once processed and once failed |
| SchedulerService.GeneratorsSized | services/scheduler_service.py:156-169 | neither the coroutine nor the awaited batch ever answers with unsized `post_ids` |
| SchedulerService.JobTurnNoRecount | services/scheduler_service.py:130-184 | with such a generator no job's turn is recounted |
| SchedulerService.RunJobs | services/scheduler_service.py:130-184 | every listed job is counted once or twice, and exactly once when no turn is recounted; skipped stays 0 |
| SchedulerService.RunJobsLoop | services/scheduler_service.py:130-184 | the job loop matches the recursive definition |
| SchedulerService.RunJobsChanges | services/scheduler_service.py:130-184 | a company's loop changes only its listed jobs and unit posts |
| SchedulerService.RunJobsFinishes | services/scheduler_service.py:130-184 | every listed job of the company ends completed or failed |
| SchedulerService.RunCompanies | services/scheduler_service.py:111-184 | every listed job of every listed company is counted once or twice, and exactly once when no turn is recounted |
| SchedulerService.RunCompaniesLoop | services/scheduler_service.py:111-184 | the company loop matches the recursive definition |
| SchedulerService.RunCompaniesChanges | services/scheduler_service.py:111-184 | the run changes only listed jobs and unit posts |
| SchedulerService.RunCompaniesFinishes | services/scheduler_service.py:111-184 | every listed job ends completed or failed |
| SchedulerService.ListedAreDue | services/scheduler_service.py:109-123 | the jobs the two queries list are exactly the pending jobs whose `scheduled_at` is not after now |
| SchedulerService.AllJobsSize | services/scheduler_service.py:111-123 | with distinct ids the run counts as many jobs as there are listed documents |
| SchedulerService.ProcessDuePosts | services/scheduler_service.py:97-191 | processed plus failed lies between the number of due jobs and twice it, and equals it when the generator's answers have sized `post_ids`; every due job ends completed or failed; only due jobs and unit posts change, and nothing is deleted |
| SchedulerService.UnawaitedRunCompletesNothing | services/scheduler_service.py:156 | as written no job is ever completed: every due job is counted as failed |
| ThemeRoutes.ItemAssign | api/theme_routes.py:17 | item assignment succeeds exactly on a dict and sets that one key |
| ThemeRoutes.FixEntry | api/theme_routes.py:16-17 | an entry is fixed exactly when it is a dict: its other keys are kept, a list under `themes` is kept, and anything else there becomes `[]` |
| ThemeRoutes.FixEntries | api/theme_routes.py:14-17 | the loop succeeds exactly when every entry is a dict, fixing each in place |
| ThemeRoutes.ParseThemesResponse | api/theme_routes.py:11-20 | undecodable text becomes "Model did not return valid JSON: " with the first 200 characters; a decoded list comes back with each entry fixed |
| ThemeRoutes.ParseThemesOfObjects | api/theme_routes.py:11-18 | a decoded list of objects always parses, and every entry then has a list of themes |
| ThemeRoutes.FindMonth | api/theme_routes.py:31 | when every entry can be tested the scan succeeds; it finds the first entry whose `month` matches the name ignoring case, or reports that none matches |
| ThemeRoutes.MonthAt | api/theme_routes.py:30-36 | month `i` is the first matching entry with `month_id` set to `i`, or the empty placeholder, and in both cases names month `i` |
| ThemeRoutes.FirstMatchUniqueAll | api/theme_routes.py:31 | the first matching entry is unique |
| ThemeRoutes.MonthsFrom | api/theme_routes.py:30-36 | months `i` to 12 in order, each as `MonthAt` describes |
| ThemeRoutes.EnsureAllMonths | api/theme_routes.py:23-37 | the result has exactly twelve entries, entry `k` being month `k+1` taken from the first matching input entry or the placeholder |
| ThemeRoutes.EnsureAllMonthsOf | api/theme_routes.py:23-37 | on a list it is `EnsureAllMonths`; any result has twelve entries naming the months in order |
| ThemeRoutes.GetTheme | api/theme_routes.py:41-50 | the stored month document exactly when it exists; every failure is a 404 |
| ThemeRoutes.RegenerateMonthTheme | api/theme_routes.py:53-97 | 400 for a month outside 1..12, 404 for a missing company, 500 for later failures, nothing written on any failure; success exactly when the month is valid, the company exists and the model's reply is a dict with `themes` |
| ThemeRoutes.RegenerateStoresMonth | api/theme_routes.py:79-92 | a successful regeneration merges the month id, its name and the reply's themes into the month's document and returns that data |
| ThemeRoutes.WriteMonths | api/theme_routes.py:121-124 | writing the months loses no document and changes nothing outside the company's months collection |
| ThemeRoutes.ThemesOf | api/theme_routes.py:112-117 | a list is used as is, a string is parsed, anything else is "Invalid GPT response" naming its type |
| ThemeRoutes.GenerateAllThemesRoute | api/theme_routes.py:101-129 | every failure is 500 and writes nothing, a missing company's 404 included; success needs the company, a usable reply and twelve normalised months |
| ThemeRoutes.WriteMonthsAt | api/theme_routes.py:122-124 | each numbered month lands in the document named by its `month_id` |
| ThemeRoutes.WriteMonthsOutside | api/theme_routes.py:122-124 | a document no month is written to keeps its contents |
| ThemeRoutes.UnawaitedThemesRouteFails | api/theme_routes.py:111-117 | as written the route never saves: the un-awaited call yields a coroutine, reported as an invalid response, or the missing company's 404, both wrapped in 500 |
| ThemeRoutes.ThemesRouteSaves | api/theme_routes.py:118-126 | a success returns twelve months, month `k` named and numbered `k`, each stored under its number, with every document outside the months collection unchanged |
| ThemeRoutes.AwaitedThemesRouteSucceeds | api/theme_routes.py:111-126 | with the call awaited, a reply that is a list of month objects always succeeds |
| LongFormRoutes.NewDoc | api/newsletter_routes.py:37-48 | the item written has exactly six fields: company, id, equal creation and update stamps (the server-time sentinel for a newsletter, the clock for a blog), the initial status (`draft` for a newsletter, `scheduled` for a blog) and the generated content without `token_usage` |
| LongFormRoutes.CreatedFields | api/newsletter_routes.py:64-74 | the returned item has the new id and the initial status, no schedule, and a `month_id` of `None` when it has one |
| LongFormRoutes.Create | api/newsletter_routes.py:20-74 | 404 "Company not found" for a missing company; a generation failure propagates with nothing written; otherwise the item is written before the response is validated, and a success is the validated document |
| LongFormRoutes.CreateStamps | api/newsletter_routes.py:37-60 | the stored item holds no sentinel: a newsletter's stamps are the commit time, a blog's the clock reading |
| LongFormRoutes.CreateAddsOne | api/newsletter_routes.py:52-60 | a create adds exactly one document, and only when the company exists and generation succeeded, and changes no other |
| LongFormRoutes.RecordFields | api/newsletter_routes.py:177-188 | a listed item takes its id, status (with the kind's default) and schedule from the stored record; a newsletter takes the company from the path, a blog from the record |
| LongFormRoutes.DbEntry | api/newsletter_routes.py:162-193 | a stored record with a falsy `response` is skipped |
| LongFormRoutes.Reparsed | api/newsletter_routes.py:108-120 | a non-string timestamp is kept; a string parsed after the 'Z' rewrite becomes that datetime |
| LongFormRoutes.CachedEntry | api/newsletter_routes.py:90-145 | a cached entry that is not a dict, or has a falsy `response`, is skipped |
| LongFormRoutes.Kept | api/newsletter_routes.py:89-147 | the converted entries never outnumber the inputs |
| LongFormRoutes.KeptFrom | api/newsletter_routes.py:89-147 | every kept entry is the conversion of some input |
| LongFormRoutes.KeptAll | api/newsletter_routes.py:89-147 | when every input converts, all are kept in order |
| LongFormRoutes.KeptSkips | api/newsletter_routes.py:142-145 | an input that does not convert adds nothing |
| LongFormRoutes.ListItems | api/newsletter_routes.py:77-200 | a non-empty cached list is converted and returned without reading the store; otherwise the store's items are returned and written to the cache |
| LongFormRoutes.CachedListIgnoresStore | api/newsletter_routes.py:85-147 | while the cache holds a list, the listing does not depend on the store |
| LongFormRoutes.MissThenHit | api/newsletter_routes.py:85-200 | against a working cache, a listing that misses returns the store's items and caches them; the next listing, whatever the store then holds, returns the same items when there were any (given each cached entry converts back to its document), and reads the store again when there were none |
| LongFormRoutes.MissStores | api/newsletter_routes.py:150-200 | a listing that misses returns the store's items and leaves the cache holding each as its JSON round trip decodes |
| LongFormRoutes.GetById | api/newsletter_routes.py:203-250 | 404 "... not found" for a missing item, 500 "... data missing in document" for a falsy `response`; a result is returned exactly when the stored record converts, and it is that conversion |
| LongFormRoutes.ScheduleFields | api/newsletter_routes.py:277-285 | a schedule writes exactly the time as sent, its parse, `scheduled`, the update stamp and the `month_id` given (or `None`) |
| LongFormRoutes.Schedule | api/newsletter_routes.py:253-319 | 404 for a missing item and a ValueError for an unparsable time change nothing; otherwise the update is written first; the cache changes only on success or a late validation failure |
| LongFormRoutes.ScheduleMarksScheduled | api/newsletter_routes.py:274-285 | a successful schedule leaves the item `scheduled` with the given time, its parse, the `month_id` given, and the commit time as `updated_at` |
| LongFormRoutes.ScheduleInvalidates | api/newsletter_routes.py:303-307 | against a working cache, a successful schedule removes the company's cached listing |
| LongFormRoutes.ScheduleIgnoresCache | api/newsletter_routes.py:253-319 | what the store holds afterwards and what the route returns do not depend on the cache |
| CompanyRoutes.Page | api/company_routes.py:25 | the page is the documents at offsets `(page-1)*limit` onwards, at most `limit` of them, in stream order |
| CompanyRoutes.PagesCover | api/company_routes.py:25 | reading pages 1 to n in order gives exactly the first n*limit companies: no company is skipped or repeated |
| CompanyRoutes.GetCompanies | api/company_routes.py:21-35 | a store failure is 500 "Error fetching companies: ..."; otherwise `data` lists each streamed company with its `id`, and `page` and `limit` are echoed |
| CompanyRoutes.GetCompaniesPage | api/company_routes.py:24-32 | over the collection's stream, `data` holds at most `limit` stored companies, those from offset `(page-1)*limit` in stream order, each with its `id` |
| CompanyRoutes.EveryCompanyListed | api/company_routes.py:24-32 | with a positive limit, every stored company appears, with its `id`, in the `data` of some page |
| CompanyRoutes.CreateCompany | api/company_routes.py:38-99 | a missing or blank name is 400 "Company name is required"; a name already taken is 400 naming it; every other request is 500 on the missing `url` attribute |
| CompanyRoutes.CreateCompanyNeverCreates | api/company_routes.py:42-99 | as written no request creates a company: the answer is 400 exactly for a blank or taken name, and 500 otherwise |
| CompanyRoutes.GetCompany | api/company_routes.py:102-116 | the company with `company_id` added exactly when it exists; a missing company's 404 is reported as 500 |
| CompanyRoutes.UpdateData | api/company_routes.py:131-164 | exactly the fields set plus `updated_at`; values other than `None` pass unchanged; `None` becomes `[]` for keywords and theme colours, stays `None` for `company_url` and `font_typography`, and becomes "" otherwise |
| CompanyRoutes.UpdateCompany | api/company_routes.py:121-188 | 404 for a missing company with nothing written; otherwise the update is written and the call of the theme route with two arguments then fails with 500 |
| CompanyRoutes.UpdateWritesThenFails | api/company_routes.py:164-170 | an update of an existing company changes the sent fields, keeps the others and every other document, and still reports 500 |
| CompanyRoutes.DeleteCompany | api/company_routes.py:191-224 | a missing company's 404 is reported as 500 with nothing removed; otherwise the success message |
| CompanyRoutes.DeleteCompanyScope | api/company_routes.py:199-219 | exactly the company's Facebook, LinkedIn and Instagram posts, its theme months and its record are removed; every other document is kept as it was |
| CompanyRoutes.DeleteCompanySparesOthers | api/company_routes.py:199-219 | newsletters, blogs and other companies survive a deletion |
| Store.Stamped | api/content_routes.py:384 | a stored field never holds the server-time sentinel: the sentinel becomes the commit time, anything else is kept |
| Store.Set | api/schedular_routes.py:51-54 | a replacing write leaves exactly the given fields, the sentinel resolved to the commit time, and touches no other document |
| Store.Update | api/content_routes.py:387 | an update keeps the document set, overwrites the given fields with the sentinel resolved to the commit time, keeps the others, and touches no other document |
| Store.SetMerge | api/theme_routes.py:88 | a merge write creates the document if needed, overwrites the given fields with the sentinel resolved to the commit time, keeps the others, and touches no other document |
| Store.WritesResolve | api/content_routes.py:384-387 | writes keep a store free of the sentinel |
| Store.DeleteCollection | api/company_routes.py:200-203 | exactly the documents directly inside the collection are removed |

## Left out

- Network I/O is not modelled: the Firestore client, Upstash HTTP and the OpenAI and Gemini clients. Firestore and Redis are maps, the Upstash server is `RedisConfig.Serve` (or any function of the same type), and completions are parameters.
- HTTP status errors and transport exceptions in the Redis client all become the neutral result (`False`, `None`, `[]`, `0`). They are modelled as a reply that is not a JSON body.
- Keys are percent-encoded in `redis_get` and `redis_delete`. The model uses keys as they are, since the encoding is injective.
- Key expiry (`SETEX` and `EXPIRE`) is not modelled. The commands are built and checked, but the model cache never forgets a key.
- `FirestoreJSONEncoder` and `json.loads`/`json.dumps` are the parameters `env.encode` and `env.decode`. There are two encoders in the source: `redis_set` (cache/redis_config.py:90) uses `FirestoreJSONEncoder`, which writes a datetime as `isoformat()` and the sentinel as `null`; `RPUSH` and `LREM` use `json_dumps_firestore` (cache/redis_config.py:36-38), whose `default=str` writes a datetime as `str(dt)`. The one `env.encode` stands for both. `datetime.fromisoformat` is the partial parameter `env.parse`. Only the 'Z' rewrite is concrete.
- Prompt texts are not modelled. Neither are `figure_out_language` (its result is the `lang` parameter), `regenerate_caption` and `generate_image_prompt`.
- `generate_newsletter` and `generate_blog` are not part of this model: services/gpt_service.py defines neither, so the imports at api/newsletter_routes.py:3 and api/blog_routes.py:3 do not resolve as written. Their result, or the exception they raise, is a parameter of `LongFormRoutes.Create`.
- LongFormRoutes.DbEntry: a truthy `response` that is not a mapping fails in `dict(response_data)` (api/newsletter_routes.py:235-237) with `TypeError` or `ValueError`; the model folds that into the response model's validation failure, so `GetById` reports it as a `ValidationError` and the listing skips it.
- Pydantic construction of `NewsletterResponse`/`BlogResponse` and the documents is a parameter (`LongFormRoutes.Models`). It returns `None` for a validation failure.
- `async`/`await` scheduling is not modelled; the code is modelled as sequential. Where an `await` is missing, the call's value is a coroutine object (`Object("coroutine")`).
- Dict insertion order is dropped: Python dicts are Dafny maps. As a result `update_company`'s `updated_fields` list and `json.dumps` key order are not modelled.
- Logging is not modelled. Errors outside the per-job `try` of `process_due_posts` are logged and swallowed; the model has no such errors, since the queries are parameters (`Listed`).
- SchedulerService.ProcessDuePosts: it returns the final store and the counters, which `process_due_posts` only logs.
- The order of `stream()` results is a parameter (`IsListing`, `CompanyListing`, `DueListing`). The scheduler visits each company's due jobs in the listed order.
- `str.lower` and `str.strip` are ASCII-only.
- ThemeRoutes.ParseThemesResponse: a decoded non-empty dict or string fails on item assignment in the model. The source iterates a dict's keys, which are strings, so that also fails, but with a slightly different message.
- RedisConfig.RedisListGetAll: a first result that is a dict whose `result` is a dict (not a list) yields no items, because the model does not iterate a dict's keys.
- CompanyRoutes.GetCompanies: a store failure (for example a negative offset) is a parameter. `Page` and `PagesCover` state the paging the query performs, and `GetCompaniesPage` and `EveryCompanyListed` tie the handler's `data` to it.
- ContentRoutes.GetPost: the store-failure 500 is not modelled; only the 404 and the success are.
- Channel routes, request routes, app wiring, logger and error handler are not part of this model.
- Company creation past the checks is not modelled, since as written it always fails before writing.
- Firestore's commit time is a parameter of every write (`commit`, or `Commits` for a scheduler job's successive updates).
- ThemeRoutes.WriteMonths: the month documents are written as plain map entries; they hold decoded JSON, which carries no server-time sentinel.
- ContentRoutes.SavedPost: `created_at` and `updated_at` are one clock reading, whereas the source calls `datetime.now` once for each, microseconds apart.
- ContentService.UnitPost: `created_at` and `updated_at` are one clock reading (the batch's `now`), whereas the source calls `datetime.now` once for each.
- GptService.NormalizeField: a datetime, the server-time sentinel and other objects print as their class name in angle brackets, not as Python's `str`; dict keys and set elements print in ascending order, not insertion or hash order; every non-ASCII character counts as printable in a `repr`.
- RedisConfig.SetValue: for a set, a datetime or an object the stored `str` has the same limits as in `GptService.NormalizeField`.

## Findings

| source | as written | input that shows it | evidently intended | confidence | as-written member | corrected member |
|---|---|---|---|---|---|---|
| services/scheduler_service.py:156 | `generate_scheduled_posts` is `async` and is called without `await`, so `response.get` raises on the coroutine | any due job whose `post_data` is a mapping | await the call, so a job completes when its batch succeeds | not executed | `SchedulerService.Unawaited`, `SchedulerService.UnawaitedJobFails`, `SchedulerService.UnawaitedRunCompletesNothing` | `SchedulerService.Awaited`, `SchedulerService.AwaitedJobCompletes` |
| api/theme_routes.py:111 | `generate_all_themes` is `async` and is called without `await` from a plain function, so the result is neither a string nor a list | any existing company | await the call, so a list of month objects is normalised and saved | not executed | `ThemeRoutes.UnawaitedThemes`, `ThemeRoutes.UnawaitedThemesRouteFails` | `ThemeRoutes.AwaitedThemes`, `ThemeRoutes.AwaitedThemesRouteSucceeds`, `ThemeRoutes.ThemesRouteSaves` |
| services/content_service.py:54 | `ContentRequest` is imported inside the Instagram loop, so the Facebook and LinkedIn loops see it unbound when no Instagram unit ran | `instagram_post_count` 0 and `facebook_post_count` 1 | import it at module level | not executed | `ContentService.GenerateScheduledPosts`, `ContentService.FacebookOnlyBatchFails` | `ContentService.GenerateScheduledPostsImported`, `ContentService.GenerateSuccess`, `ContentService.ImportIrrelevantWithInstagram` |
| api/schedular_routes.py:50 | the job reads `schedular.month_id`, which `SchedularRequest` does not declare | any request that passes the checks | leave `month_id` out of the job | not executed | `SchedularRoutes.SchedulePost`, `SchedularRoutes.SchedulePostNeverSchedules` | `SchedularRoutes.SchedulePostFixed`, `SchedularRoutes.SchedulePostFixedQueues` |
