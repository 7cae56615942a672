# Autopost selection, media URLs and content generation: a Dafny model

This project models the core of a social-media scheduling backend written in
PHP (Laravel) and proves properties of that model.

- **Autopost selection** (`autopost_service.dfy`, module `AutopostService`).
  This is the engine that picks the next piece of content for an account to
  post. It works as follows:
  - It loads the account's category weights, keeping only rows with a
    positive weight.
  - It draws a number in `[1, total]`, or uses the draw the caller gave.
  - It picks the category whose inclusive cumulative range holds the draw.
  - It probes that category for content that has no post and no schedule.
  - On a miss it drops the category and retries, reusing the same draw.

  `PickCategoryByCumulativeWeight` keeps the source's loop, which updates a
  running cumulative sum. The rest is recursion and functions, as in the
  source. The database is a `Store` value. Randomness is a `Coins`
  parameter: attempt *k* uses draw coin *k* and tie-break coin *k*.
- **Autopost logger** (`autopost_logger_service.dfy`, module
  `AutopostLoggerService`). This is a class that holds a request id fixed at
  construction and a `trace` of log entries. Each of its six event methods
  appends exactly one entry. Every entry has the event's name as its message,
  and its context is the event's fields with `request_id` spread in front.
- **Traced selection** (`autopost_trace.dfy`, module `AutopostTrace`). This
  is the selection cascade driven through a logger by the methods
  `TraceHead`, `TraceOutcome`, `TraceAttempt`, `TraceRounds` and
  `SelectContentTraced`. Each one is proved to append exactly the log entries
  of a pure event list, and the event list is proved to agree with the
  untraced selection. The autopost logging tests
  (`tests/Feature/AutopostLoggingTest.php`) fix which events a selection
  logs and the fields of each; they look an entry up by its name and check
  neither the order nor the number of entries. The order below is this
  model's choice:
  - `no_weights` when nothing is weighted;
  - otherwise, for each attempt, `weights_loaded` and `category_picked`,
    then either `content_selected` or `category_skipped`;
  - `all_categories_exhausted` after the last miss.

  `AutopostService.php` contains no logger calls.
- **Media URL accessors** (`media.dfy`, module `Media`):
  - `isImage` / `isVideo`;
  - the storage URL, playback URL and thumbnail URL accessors, with PHP's
    truthiness of nullable strings;
  - `replaceMinioUrl`, a `str_replace` of the internal MinIO host modelled as
    a left-to-right non-overlapping `ReplaceAll`.

  The storage disk's `url` is a function parameter.
- **Content generation job** (`generate_content_job.dfy`, module
  `GenerateContentJob`). The request row is a class whose
  `UpdateStatus`/`UpdateCompleted`/`UpdateFailed` methods are the job's
  `update` calls. A ghost `statusHistory` records each status written.
  - The job's `Handle` and `Failed` methods are proved against the pure
    transitions `AfterHandle` and `AfterFailed`.
  - The AI writer is a datatype of two uninterpreted functions, each
    returning the variations or a thrown message.
- **MIME types** (`mime_type.dfy`, module `MimeType`): the enum, its image,
  video and combined value lists, and `array_merge` on lists.

`wrappers.dfy` holds the `Option` and `Result` datatypes, and
`social_media_content.dfy` (module `SocialMediaContent`) the content record
that the autopost engine selects and the job's rewrite writer reads.

Two details of the code are easy to misread, and the model follows the code:
- With no draw supplied, `selectFromWeights` passes `null` on to the retry,
  so every retry draws a fresh random number. Only a supplied draw is reused.
  In the model, attempt *k* therefore uses coin *k*.
- The writer's `generate` receives the prompt together with the platform and
  the tone.

## Model

| member | source | states |
|---|---|---|
| AutopostService.TotalWeight | app/Services/AutopostService.php:105 | with positive weights the total is at least the number of entries, so a draw in [1, total] exists |
| AutopostService.TotalWeightBounds | database/migrations/2023_01_17_014531_create_social_media_account_category_weights_table.php:21 | with unsigned tinyint weights the total lies between 0 and 255 times the number of entries |
| AutopostService.LoadWeights | app/Services/AutopostService.php:58-68 | an entry is loaded exactly when some row of the account with a positive weight has that category and weight; every loaded weight is positive and there are no more entries than rows |
| AutopostService.LoadedCategories | app/Services/AutopostService.php:58-68 | the loaded categories are exactly the account's categories with a positive weight row |
| AutopostService.ZeroWeightNeverSelected | app/Services/AutopostService.php:60-63 | a category whose rows for the account all have weight 0, or that has none, is never the category of the selected content |
| AutopostService.LoadedDistinct | database/migrations/2026_02_09_172734_add_performance_indices.php:32-37 | when (account, category) rows are unique, the loaded entries have distinct categories |
| AutopostService.ResolveDraw | app/Services/AutopostService.php:106 | a supplied draw is used as it is, even out of range; a missing draw is chosen in [1, total] |
| AutopostService.AnyDrawReachable | app/Services/AutopostService.php:106 | every value in [1, total] is the generated draw for some coin |
| AutopostService.PickIndex | app/Services/AutopostService.php:110-118 | the index the scan stops at is always within the list |
| AutopostService.Pick | app/Services/AutopostService.php:110-118 | the returned category id is one present in the list |
| AutopostService.CumulativeAtPick | app/Services/AutopostService.php:108-116 | the value is the running sum after the picked entry; no earlier running sum reaches the draw, and this one does unless the pick is the last entry; for a draw in [1, total] the draw lies in the picked entry's range; at the last entry the value is the total |
| AutopostService.PickIsFirstCover | app/Services/AutopostService.php:110-118 | the loop returns at the first running sum that reaches the draw: none before the pick reaches it, and the pick's does unless it is the fall-back last entry |
| AutopostService.PickCategoryByCumulativeWeight | app/Services/AutopostService.php:103-119 | the foreach loop with its running accumulator and early return yields the pick for the resolved draw |
| AutopostService.TotalWeightAppend | app/Services/AutopostService.php:105 | the sum of a list with one more entry grows by that entry's weight |
| AutopostService.PrefixFull | app/Services/AutopostService.php:108-111 | the running cumulative sum after every entry equals the total |
| AutopostService.PrefixMonotone | app/Services/AutopostService.php:108-111 | with non-negative weights the running sums never decrease |
| AutopostService.FirstCoverIsPick | app/Services/AutopostService.php:110-118 | the pick is the first entry whose cumulative sum reaches the draw, or the last entry |
| AutopostService.PickInRange | app/Services/AutopostService.php:108-116 | for a draw in [1, total], the picked entry's inclusive cumulative range contains the draw |
| AutopostService.RangeSelects | app/Services/AutopostService.php:108-116 | with positive weights, any entry whose inclusive range contains the draw is the one picked, so the range owner is unique |
| AutopostService.PickOutOfRange | app/Services/AutopostService.php:110-118 | a draw of 0 or less picks the first entry and a draw above the total picks the last |
| AutopostService.BoundaryTable | app/Services/AutopostService.php:23-38 | for weights 5, 3 and 2, draws 1 and 5 give the first category, 6 and 8 the second, 9 and 10 the third |
| AutopostService.RemoveCategory | app/Services/AutopostService.php:90-92 | the remainder holds exactly the entries of other categories; it is strictly shorter when the category was present, and positivity is kept |
| AutopostService.RemovedCategories | app/Services/AutopostService.php:90-92 | the categories left are the old ones minus the removed one |
| AutopostService.RemoveAbsentCategory | app/Services/AutopostService.php:90-92 | removing a category that is not in the list leaves the list unchanged |
| AutopostService.RemoveKeepsDistinct | app/Services/AutopostService.php:90-92 | with distinct categories the remainder stays distinct and is exactly one entry shorter |
| AutopostService.RemoveCategoryAppend | app/Services/AutopostService.php:90-92 | removal distributes over concatenation, so the survivors keep their order |
| AutopostService.Candidates | app/Services/AutopostService.php:127-131 | the candidates are exactly the account's contents in the category with no post and no schedule |
| AutopostService.FindAvailableContent | app/Services/AutopostService.php:125-134 | a result is an eligible content item; there is no result exactly when the category has no eligible content |
| AutopostService.AnyEligibleCanBeFound | app/Services/AutopostService.php:132-133 | for every eligible item some random order returns it |
| AutopostService.SelectFromWeights | app/Services/AutopostService.php:76-95 | a result is eligible and lies in a category of the weight set; null is returned exactly when every category in the set is exhausted; when the picked category has content, the result is that category's probe |
| AutopostService.SelectContent | app/Services/AutopostService.php:42-51 | a result is eligible and in a positively weighted category; null is returned exactly when every positively weighted category is exhausted, so an account without weights gets null |
| AutopostService.SelectFollowsPick | app/Services/AutopostService.php:42-51 | when the first pick's category has content, selectContent returns content of that category, the probe's choice |
| AutopostService.SelectContentBoundaries | tests/Feature/AutopostTest.php:444-508 | with weights 5, 3, 2 and one available content per category, draws 1 and 5 return the first category's content, 6 and 8 the second's, 9 and 10 the third's |
| AutopostLoggerService.LookupAppend | app/Services/AutopostLoggerService.php:102-105 | in a merged context a key of the later part wins over the earlier part |
| AutopostLoggerService.StampKeys | app/Services/AutopostLoggerService.php:100-106 | for the entry `Stamp` writes, read through `Lookup`: the logged message is the event; the logged context maps request_id to the logger's id when the event context has none, and keeps every other key of the event context |
| AutopostLoggerService.NoWeightsContext | app/Services/AutopostLoggerService.php:22-28 | context holds the account id and the fixed no-weights reason, and no request_id |
| AutopostLoggerService.WeightsLoadedContext | app/Services/AutopostLoggerService.php:35-43 | context holds the account id, the weights, total_weight as their sum and category_count as their count |
| AutopostLoggerService.CategoryPickedContext | app/Services/AutopostLoggerService.php:48-56 | context holds the category id, draw, total and cumulative value exactly as passed in |
| AutopostLoggerService.ContentSelectedContext | app/Services/AutopostLoggerService.php:61-69 | context holds the account id, the content's id and title and the category id |
| AutopostLoggerService.CategorySkippedContext | app/Services/AutopostLoggerService.php:74-82 | context holds the account id, the category id, the fixed skipped reason and the remaining count as passed in |
| AutopostLoggerService.ExhaustedContext | app/Services/AutopostLoggerService.php:87-93 | context holds the account id and the fixed exhausted reason |
| AutopostLoggerService.AutopostLogger.constructor | app/Services/AutopostLoggerService.php:14-17 | the request id is fixed once, the trace starts empty and the logger is valid |
| AutopostLoggerService.AutopostLogger.Log | app/Services/AutopostLoggerService.php:100-106 | exactly one entry is appended, built from the event and the context with the logger's request id spread in front; when the context has no request_id of its own, every entry still carries the logger's id |
| AutopostLoggerService.AutopostLogger.NoWeights | app/Services/AutopostLoggerService.php:22-28 | appends exactly the stamped no_weights entry, and every entry keeps the logger's request id |
| AutopostLoggerService.AutopostLogger.WeightsLoaded | app/Services/AutopostLoggerService.php:35-43 | appends exactly the stamped weights_loaded entry |
| AutopostLoggerService.AutopostLogger.CategoryPicked | app/Services/AutopostLoggerService.php:48-56 | appends exactly the stamped category_picked entry |
| AutopostLoggerService.AutopostLogger.ContentSelected | app/Services/AutopostLoggerService.php:61-69 | appends exactly the stamped content_selected entry |
| AutopostLoggerService.AutopostLogger.CategorySkipped | app/Services/AutopostLoggerService.php:74-82 | appends exactly the stamped category_skipped entry |
| AutopostLoggerService.AutopostLogger.AllCategoriesExhausted | app/Services/AutopostLoggerService.php:87-93 | appends exactly the stamped all_categories_exhausted entry |
| AutopostTrace.EventContext | app/Services/AutopostLoggerService.php:22-93 | no event method passes a request_id of its own, so the logger's id is never shadowed |
| AutopostTrace.Stamped | app/Services/AutopostLoggerService.php:100-106 | one log entry per event |
| AutopostTrace.StampedAppend | app/Services/AutopostLoggerService.php:100-106 | logging two event lists in turn writes the entries of their concatenation |
| AutopostTrace.StampedEntries | tests/Feature/AutopostLoggingTest.php:205-226 | every entry of one logger carries that logger's request id and its event's name |
| AutopostTrace.AttemptCategory | app/Services/AutopostService.php:82 | the category picked on an attempt belongs to the current weight set |
| AutopostTrace.RoundUnfold | app/Services/AutopostService.php:82-94 | on a hit, or when the miss empties the set, the cascade returns the probe's result and logs one attempt; on a miss with categories left it retries the remainder with the same draw, at the next attempt, and its events are the attempt's followed by the retry's |
| AutopostTrace.RoundOutcome | tests/Feature/AutopostLoggingTest.php:53-203 | a cascade's events start with weights_loaded and a category_picked for the attempt's pick; they end in content_selected for the returned content, or in all_categories_exhausted when there is none |
| AutopostTrace.RoundOpening | tests/Feature/AutopostLoggingTest.php:53-130 | a cascade's events start with weights_loaded for the working set and a category_picked for the first attempt's pick |
| AutopostTrace.RoundClosing | tests/Feature/AutopostLoggingTest.php:80-203 | a cascade's last event is content_selected for the content it returns, or all_categories_exhausted when it returns null |
| AutopostTrace.AttemptShape | tests/Feature/AutopostLoggingTest.php:53-203 | one attempt logs weights_loaded, then the pick of its category, and ends in content_selected on a hit or all_categories_exhausted after a miss that empties the set |
| AutopostTrace.SelectionRounds | tests/Feature/AutopostLoggingTest.php:53-203 | with weights the selection does not log no_weights, and its last event names its result |
| AutopostTrace.AttemptPicksOnce | app/Services/AutopostService.php:82-84 | each attempt logs one pick, the category it probes |
| AutopostTrace.RoundPicksWeighted | app/Services/AutopostService.php:76-95 | every category_picked event names a category of the weights it started from |
| AutopostTrace.SelectionOutcome | tests/Feature/AutopostLoggingTest.php:132-203 | the selection logs something; it logs only no_weights exactly when nothing is weighted; its last event is content_selected for the result, or all_categories_exhausted on null with weights |
| AutopostTrace.TraceHead | tests/Feature/AutopostLoggingTest.php:53-130 | the logged pick is the attempt's category, and exactly the weights_loaded and category_picked entries are appended |
| AutopostTrace.TraceOutcome | tests/Feature/AutopostLoggingTest.php:144-203 | appends exactly the entries for a hit, a miss, or the last miss |
| AutopostTrace.TraceAttempt | app/Services/AutopostService.php:82-92 | returns the probe's result and the remainder without the picked category, and appends exactly that attempt's entries |
| AutopostTrace.TraceRounds | app/Services/AutopostService.php:76-95 | returns what the recursive selection returns and appends exactly the cascade's entries |
| AutopostTrace.SelectContentTraced | app/Services/AutopostService.php:42-51 | returns what selectContent returns and appends exactly the selection's entries |
| Media.ImageOrVideo | app/Models/Media.php:49-57 | `IsImage` and `IsVideo` compare the type column with the two cases, so a record is an image exactly when it is not a video |
| Media.ReplaceAtHost | app/Models/Media.php:99-102 | `ReplaceMinioUrl` turns a leading http://minio:9000 into http://localhost:9002 and goes on replacing in the rest |
| Media.ReplaceKeepsHead | app/Models/Media.php:99-102 | a character that does not start http://minio:9000 is copied unchanged and the replacement goes on with the rest |
| Media.ReplaceHostPath | app/Models/Media.php:99-102 | a URL on the MinIO host whose path has no 'h' becomes the same path on http://localhost:9002 |
| Media.MinioUrlExample | app/Models/Media.php:99-102 | http://minio:9000/media/a.jpg becomes http://localhost:9002/media/a.jpg |
| Media.ReplaceAbsent | app/Models/Media.php:99-102 | a string without the pattern is left as it is |
| Media.NoMinioLeft | app/Models/Media.php:99-102 | after the replacement the MinIO host occurs nowhere, not even across a replacement boundary |
| Media.PrefixWithoutH | app/Models/Media.php:99-102 | a prefix of the output that contains no 'h' is a prefix of the input |
| Media.HttpsMinioKept | app/Models/Media.php:99-102 | the lookalike https://minio:9000 is not the pattern and is kept |
| Media.Url | app/Models/Media.php:62-69 | there is no URL exactly when the file path is null, empty or "0"; otherwise it is the storage URL of the path with the MinIO host replaced, so it never contains the MinIO host |
| Media.PlaybackUrl | app/Models/Media.php:74-81 | there is a playback URL exactly for a video with a truthy playback id, and it is that id's stream.mux.com HLS URL |
| Media.ThumbnailUrl | app/Models/Media.php:86-97 | there is a thumbnail exactly when there is a truthy stored path or a playback URL; a stored thumbnail's URL never contains the MinIO host |
| Media.ThumbnailPrefersStored | app/Models/Media.php:86-97 | a truthy stored thumbnail path wins, and its URL has the MinIO host replaced |
| Media.ThumbnailFallback | app/Models/Media.php:86-97 | without a stored thumbnail there is a thumbnail exactly when there is a playback URL, and it is that id's image.mux.com thumbnail |
| Media.ImageHasNoMuxUrls | app/Models/Media.php:74-97 | an image has no playback URL and a thumbnail only from a stored path |
| GenerateContentJob.ParseStatus | app/Enums/ContentGenerationStatus.php:5-11 | a string read back as a status is that status's value |
| GenerateContentJob.ParseValue | app/Enums/ContentGenerationStatus.php:5-11 | every status's stored value is read back as the same status |
| GenerateContentJob.Dispatch | app/Jobs/GenerateContentJob.php:30-41 | 'rewrite' calls rewrite with the linked content, platform and tone, and fails without linked content; 'generate' calls generate with prompt, platform and tone; any other type fails with no match arm; a writer error carries the writer's message |
| GenerateContentJob.AfterHandle | app/Jobs/GenerateContentJob.php:24-47 | on success the status is completed and generated_content is the writer's output; on anything thrown the status stays processing and generated_content is untouched; error and the inputs are untouched |
| GenerateContentJob.AfterFailed | app/Jobs/GenerateContentJob.php:52-58 | status becomes failed; error is the message, an empty one included, or the fixed unknown-error text when there is none; everything else is kept |
| GenerateContentJob.RunOutcome | app/Jobs/GenerateContentJob.php:24-58 | handle followed by failed on a throw ends completed or failed, completed exactly when the writer succeeded; a failed `generate` or `rewrite` call records the writer's message as the error |
| GenerateContentJob.FailedTwice | app/Jobs/GenerateContentJob.php:52-58 | a second failure only replaces the error |
| GenerateContentJob.FailedAfterSuccessKeepsContent | app/Jobs/GenerateContentJob.php:52-58 | failed after a completed handle keeps the generated content |
| GenerateContentJob.ContentGenerationRequest.constructor | app/Models/ContentGenerationRequest.php:25-47 | the record holds the given columns and no status has been written yet |
| GenerateContentJob.ContentGenerationRequest.UpdateStatus | app/Jobs/GenerateContentJob.php:26-28 | only the status changes, and it is recorded |
| GenerateContentJob.ContentGenerationRequest.UpdateCompleted | app/Jobs/GenerateContentJob.php:43-46 | only status and generated_content change |
| GenerateContentJob.ContentGenerationRequest.UpdateFailed | app/Jobs/GenerateContentJob.php:54-57 | only status and error change |
| GenerateContentJob.GenerateContentJob.constructor | app/Jobs/GenerateContentJob.php:19 | the job holds the given request |
| GenerateContentJob.GenerateContentJob.Handle | app/Jobs/GenerateContentJob.php:24-47 | the request ends as AfterHandle says, and processing is written before anything else, followed by completed only on success |
| GenerateContentJob.GenerateContentJob.Failed | app/Jobs/GenerateContentJob.php:52-58 | the request ends as AfterFailed says, with exactly one failed status written |
| MimeType.ArrayMerge | app/Enums/MimeType.php:41 | the merged list is the first list followed by the second |
| MimeType.ImageValues | app/Enums/MimeType.php:16-24 | four values, each an image/ type |
| MimeType.VideoValues | app/Enums/MimeType.php:29-34 | one value, a video/ type |
| MimeType.AllValues | app/Enums/MimeType.php:39-42 | the image values followed by the video values |
| MimeType.ExactLists | app/Enums/MimeType.php:16-42 | the lists are exactly the declared values in order |
| MimeType.ListsMatchCases | app/Enums/MimeType.php:7-42 | a case's value is in the image list exactly for the image cases, in the video list exactly for the video case, and always in the combined list |
| MimeType.ListsHoldOnlyCases | app/Enums/MimeType.php:7-42 | every listed value is some case's value |
| MimeType.ValueInjective | app/Enums/MimeType.php:7-11 | distinct cases have distinct values |
| MimeType.EachValueOnce | app/Enums/MimeType.php:7-42 | every case value occurs in the combined list exactly once |
| MimeType.Disjoint | app/Enums/MimeType.php:16-34 | no value is in both the image and the video list |

## Left out

- Randomness: `random_int` and `inRandomOrder` are the `Coins` parameter. Every draw and every tie-break is reachable through it, but no distribution is modelled.
- The database: queries are functions over a `Store` value holding the weight rows, contents, posts and schedules. Query builders, the `HasRelationFilter` scopes, transactions and concurrency are not modelled. Two concurrent selections may return the same content.
- UUID generation: the logger's request id is a constructor parameter.
- The log channel: log writes are appends to `trace`. Log levels, JSON formatting and channel configuration are not modelled.
- AutopostTrace: the order and number of the logged events are this model's choice. The logging tests look each entry up by its name and check its fields, not the order, the count, or that `weights_loaded` is logged on every attempt. The selection methods in `AutopostService.php` do not call the logger, so the traced methods model the logging those tests expect, not code that exists.
- AutopostTrace.TraceAttempt: it computes the remainder on a hit as well, where the source computes it only on a miss. The value is unused on a hit.
- PHP integers are modelled unbounded; weight sums of at most 255 per row cannot overflow.
- The storage disk's `url` is an uninterpreted function parameter. S3/MinIO configuration is not modelled.
- Media: the media migration has no `thumbnail_path` column, but the thumbnail accessor reads one; the model gives the record a nullable `thumbnailPath`. `mux_status` is not read by the accessors and is not modelled.
- Media: the `MediaType` enum is not part of this model. Its two cases are the `Image | Video` datatype.
- Media: `str_replace` is modelled for the single search string used here. There is no multibyte or encoding handling, and strings are character sequences.
- GenerateContentJob: the AI writer (prompt templates, the OpenAI call, the response schema) is an uninterpreted pair of functions. A thrown exception is represented by its message.
- GenerateContentJob.Run: the messages PHP itself gives to an unhandled match and to a null passed where content is required are a parameter, not the engine's exact text.
- GenerateContentJob: queue dispatch, retries, timestamps and the database write that `update` performs are not modelled. `update` is an assignment of fields.
- The HTTP layer, policies, form requests, resources, the Mux/S3/ffmpeg jobs and the request-timing middleware are outside the modelled core.
