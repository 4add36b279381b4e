# Video Prompt Generator: the generation core in Dafny

Video Prompt Generator is a desktop application. It uploads video files to a
generative-AI service and asks the service for a number of text prompts per
video, in batches. It records the prompts in an SQLite database, and it
tracks each video's status (`pending`, `processing`, `completed`, `error`).
This project models the core of that pipeline and proves properties of the
model:

- **`GenAIHelper`** (modules `BatchParser` and `GenAI`):
  - checking a video file;
  - uploading it, then polling while the service reports `PROCESSING`;
  - building the batch request;
  - parsing the service's reply. The parser tries JSON, then a located JSON
    fragment, then a numbered list, then the whole trimmed text;
  - splitting the request into batches, where a failed batch is skipped;
  - deleting the uploaded file whatever happens;
  - the per-video result map of `batch_generate_prompts`.
- **`ConfigManager`** (module `Config`):
  - dotted-path `get` and `set` over the nested configuration dictionary;
  - the API key lookup, where the environment wins over the file and the
    placeholder is refused;
  - the `.env` rewrite of `set_api_key`, as written and with the missing
    newline before the appended key line added (see "## Findings").
- **`PromptGenerator`** (module `Orchestrator`):
  - the job flag with start and stop;
  - the worker, which marks every video `processing` and then processes the
    videos one by one until the list ends or a stop is observed;
  - the processing of one video: validate, generate, store the non-blank
    prompts trimmed, mark `completed` or `error`;
  - the live counters and the completion message;
  - the ordered parameter validation, with the exceptions that escape it;
  - the status helpers: pending count, reset and cleanup.
- **The database** (module `Store`): an in-memory model of the two
  operations the core uses. `update_video_status` is an `UPDATE … WHERE id`
  that leaves the table alone when no video has the id. `add_prompt` is an
  append to the `prompts` table.

Python's dynamic values are the datatype `Values.Value`. It carries Python's
semantics where the code depends on them:

- truthiness;
- `bool` counts as an `int`;
- `==` across `True`/`1`;
- `in` on lists, strings and dicts, raising `TypeError` for any other
  container;
- `lo <= x <= hi` short-circuits, and raises on an incomparable bound;
- floor division;
- negative slice bounds.

Modules `Wrappers`, `PyText` and `Values` hold the shared vocabulary:
`Option`/`Result`, the string functions (`strip`, `split`, `join`,
`startswith`, `str(int)`, `rfind`) and the value datatype.

The remote service, the file system and the environment are inputs, not
effects:

- A `VideoWorld` holds what the service answers to the upload and to each
  status poll. It also holds the reply to each batch request, and whether the
  delete fails.
- A `FileFacts` holds what the file system says about the path: whether it
  exists, its size, whether it is readable.
- `env` is the value of `GENAI_API_KEY` in the environment, `""` when unset.
- The JSON decoder and the regular-expression search of the parser are a
  `Codec` parameter.

## Model

| member | source | states |
|---|---|---|
| PyText.Strip | ai_engine/genai_helper.py:179 | the result is no longer than the input and has no whitespace at either end |
| PyText.StripIsMiddle | ai_engine/genai_helper.py:179 | `strip` keeps a middle part of the text with only whitespace before and after it, and gives `""` exactly for an all-whitespace text |
| PyText.JoinSplit | app_utils/config_manager.py:65 | joining the pieces of `split(sep)` with `sep` gives the text back |
| PyText.SplitJoin | app_utils/config_manager.py:82 | splitting a join of separator-free pieces gives the pieces back |
| PyText.Split | ai_engine/genai_helper.py:176 | `split(sep)` gives at least one piece, and no piece holds the separator |
| PyText.PySlicePrefix | ai_engine/genai_helper.py:191 | `xs[:k]` is a prefix of `xs` whose length is `k` clamped to the list, counted from the end when `k` is negative |
| PyText.PyIndex | ai_engine/genai_helper.py:102 | `xs[i]` exists exactly for `-len <= i < len` and is counted from the end for negative `i` |
| PyText.IntToString | ai_engine/genai_helper.py:130 | `str(n)` is non-empty, all digits for `n >= 0`, and starts with `-` for negative `n` |
| PyText.IntToStringValue | ai_engine/genai_helper.py:130 | the digits of `str(n)` read back as `n`, after the `-` for negative `n` |
| PyText.IntToStringInjective | ai_engine/genai_helper.py:130 | different integers have different `str` forms, so `str(variation_level)` names one level |
| PyText.RFind | ai_engine/genai_helper.py:401 | the last index holding the character, or -1 when none does |
| PyText.FloorDiv | ai_engine/genai_helper.py:267 | Python's `//` rounds toward minus infinity, for either sign of the divisor |
| PyText.AsciiLower | ai_engine/genai_helper.py:401 | `lower` keeps the length, turns each ASCII capital into its small letter and keeps every other character |
| Values.PyEqRefl | ai_engine/prompt_generator.py:229 | every value is `==` to itself under Python equality |
| Rules.FirstFailure | ai_engine/genai_helper.py:398-416 | the first failing rule's report, None exactly when all rules pass |
| BatchParser.PromptsField | ai_engine/genai_helper.py:162 | the `prompts` list is found exactly for a dict holding a list under `prompts`; a dict never raises |
| BatchParser.JsonAttempt | ai_engine/genai_helper.py:160-165 | an undecodable text gives no list and no error; a list is found exactly for a decoded dict with a `prompts` list, and is that list; only a decoded non-dict raises |
| BatchParser.MatchAttempt | ai_engine/genai_helper.py:167-174 | no match gives no list; a list is found exactly when the matched piece yields one; only a matched piece that decodes to a non-dict raises |
| BatchParser.DigitRun | ai_engine/genai_helper.py:180 | the leading run of digits is maximal |
| BatchParser.IsNumberedIff | ai_engine/genai_helper.py:180 | a line matches `^\d+\.` exactly when it is one or more digits followed by a dot |
| BatchParser.ItemTextPiece | ai_engine/genai_helper.py:181 | the item of a numbered line is a piece of the line after its leading digits, trimmed |
| BatchParser.Unquote | ai_engine/genai_helper.py:182-183 | one pair of surrounding double quotes is removed, and only when both ends are quoted |
| BatchParser.UnquoteQuoted | ai_engine/genai_helper.py:182-183 | a quoted item becomes exactly the text between its first and last character |
| BatchParser.LineItemIff | ai_engine/genai_helper.py:179-184 | a line yields at most one item, and one exactly when its stripped form is numbered |
| BatchParser.ParseBatchResponse | ai_engine/genai_helper.py:155-191 | the parser computes the parse policy, and returns at most `expected` items whatever path it takes |
| BatchParser.ScanNumbered | ai_engine/genai_helper.py:176-186 | the numbered-line loop with its `break` collects the numbered items and stops once `expected` are held |
| BatchParser.ParseSpec | ai_engine/genai_helper.py:155-191 | the parse fails exactly when the `'prompts'` test raises its TypeError on the decoded whole text (decoded, but not a dict), or finds no list there and raises on the decoded located fragment; a decode error itself never fails the parse, it only falls through; the parse never returns more than `expected` items |
| BatchParser.WholeJsonPath | ai_engine/genai_helper.py:160-163 | a reply that decodes to a dict with a `prompts` list yields that list cut to `expected` |
| BatchParser.LocatedJsonPath | ai_engine/genai_helper.py:166-172 | when the whole reply gives no list and raises nothing, the located fragment's `prompts` list is used, cut to `expected` |
| BatchParser.NoNumberedItems | ai_engine/genai_helper.py:178-180 | no item is collected exactly when no stripped line matches `^\d+\.` |
| BatchParser.LastResort | ai_engine/genai_helper.py:188-191 | with no JSON list and no numbered line, the answer is the whole trimmed reply, or nothing when `expected` is 0 |
| BatchParser.FallbackPath | ai_engine/genai_helper.py:176-191 | with no JSON list found, the answer is the line-scan fallback |
| BatchParser.CollectedPrefix | ai_engine/genai_helper.py:185-186 | the scan keeps exactly the first `min(expected, found)` numbered items |
| BatchParser.NumberedLineItem | ai_engine/genai_helper.py:180-181 | a line `k. x` is recognised as numbered and its item is `x`, unquoted |
| BatchParser.QuotedLineItem | ai_engine/genai_helper.py:182-183 | a quoted item loses exactly its outer pair of quotes |
| BatchParser.NumberedListItems | ai_engine/genai_helper.py:178-184 | the numbered items of a written-out numbered list are the listed items, in order |
| BatchParser.NumberedListRoundTrip | ai_engine/genai_helper.py:155-191 | a reply written as a numbered list of plain items parses back to its first `expected` items |
| GenAI.SplitExt | ai_engine/genai_helper.py:401 | `splitext` cuts the path into root and extension, the extension being empty or a dot followed by no dot or slash |
| GenAI.SplitExtMeaning | ai_engine/genai_helper.py:401 | the extension is non-empty exactly when the last component has a dot with a non-dot before it, and it is then everything from that dot on |
| GenAI.ValidateVideoFile | ai_engine/genai_helper.py:391-416 | valid exactly when the file exists, has a supported extension, is within the size limit and is readable |
| GenAI.ValidateIsFirstFailure | ai_engine/genai_helper.py:398-414 | the verdict is that of the first failing check, in the source's order |
| GenAI.SettleIndex | ai_engine/genai_helper.py:68-72 | the first service answer that is not `PROCESSING`, if any |
| GenAI.UploadSpec | ai_engine/genai_helper.py:48-83 | the upload succeeds exactly when the client is ready, the file exists and the first answer that is not `PROCESSING` reports a state other than `FAILED`; the file returned has settled |
| GenAI.UploadVideo | ai_engine/genai_helper.py:48-83 | the upload-and-poll loop returns what the upload specification says |
| GenAI.BuildBatchPrompt | ai_engine/genai_helper.py:125-153 | the request fails exactly when `str(variation)` has no instruction, and otherwise interpolates that instruction |
| GenAI.AspectDesc | ai_engine/genai_helper.py:104-105 | the configured description of the aspect ratio, or `"Standard format"` when it is not configured |
| GenAI.GeneratePromptsBatch | ai_engine/genai_helper.py:85-123 | a batch succeeds exactly when the client is ready, both settings lookups succeed, the service replies to the request built from `levels[complexity - 1]`, the aspect description and the variation instruction, and the reply parses; the prompts are then the parse of that reply, at most the requested count; each failure names its cause |
| GenAI.JsonReplyBatch | ai_engine/genai_helper.py:101-120 | a batch whose reply is a JSON dict with a `prompts` list returns that list cut to the requested count |
| GenAI.RepliesBounded | ai_engine/genai_helper.py:289-296 | the answer to each batch request of a run holds at most the prompts it asked for |
| GenAI.BatchesDone | ai_engine/genai_helper.py:276-314 | after `k` batches: `k` calls, the prompts of the successful ones in order, and the count generated so far |
| GenAI.RunBatches | ai_engine/genai_helper.py:276-314 | the batch loop with failed batches skipped leaves exactly the state of `BatchCount` batches |
| GenAI.RunSpec | ai_engine/genai_helper.py:242-330 | the run succeeds exactly when the client is ready, the upload succeeds and the batch size is non-zero; the file is deleted exactly when it was uploaded; success returns the collected prompts cut to `num_prompts`; a failed upload makes no batch call |
| GenAI.BatchesDoneExt | ai_engine/genai_helper.py:276-314 | the batch loop depends only on the answers it gets |
| GenAI.DeleteFailureIgnored | ai_engine/genai_helper.py:325-330 | a failing delete leaves the result, the batch calls and the delete attempt as they are with a delete that succeeds |
| GenAI.GenerateMultiplePrompts | ai_engine/genai_helper.py:242-330 | upload, batch loop, truncation and delete together compute the run specification |
| GenAI.BatchCountIsCeiling | ai_engine/genai_helper.py:267 | with a positive cap the number of batches is the ceiling of `num_prompts / cap` |
| GenAI.BatchSizesInRange | ai_engine/genai_helper.py:276-278 | every batch asks for between 1 and `cap` prompts |
| GenAI.FullBatchesCount | ai_engine/genai_helper.py:298-299 | when every batch returns what it asked for, `min(k * cap, n)` prompts are collected after `k` batches |
| GenAI.RunBatchSizes | ai_engine/genai_helper.py:267-319 | over a run, the batch sizes add up to `num_prompts`, and with every batch full the result is all prompts generated |
| GenAI.AllPrompts | ai_engine/genai_helper.py:349-371 | one entry per video: the prompts of that video's run, or an empty list when it raised |
| GenAI.ResultsAfter | ai_engine/genai_helper.py:346-371 | the keys of the result map are exactly the ids of the videos processed so far |
| GenAI.BatchGeneratePrompts | ai_engine/genai_helper.py:332-376 | the loop over the videos builds the result map of all videos' prompts |
| GenAI.PromptsAt | ai_engine/genai_helper.py:350-371 | one iteration stores the run's prompts, or `[]` when the run raised |
| GenAI.ResultsOfLastOccurrence | ai_engine/genai_helper.py:367-371 | an id's entry is what its last video in the list produced |
| GenAI.BatchEntryOfVideo | ai_engine/genai_helper.py:332-376 | the entry of a video whose id does not recur is that video's prompts |
| Config.Walk | app_utils/config_manager.py:66-72 | the empty path gives the root; a non-empty path goes through only when the root is a dict holding its first key |
| Config.WalkAppend | app_utils/config_manager.py:69-70 | walking a path in two pieces is walking the first piece, then the second from where it ends |
| Config.Lookup | app_utils/config_manager.py:60-75 | a non-None default never raises; the only error is `KeyError` of the path, raised exactly when the path leads nowhere and there is no default |
| Config.Assign | app_utils/config_manager.py:82-90 | a successful `set` adds the first key at the top and leaves every other top-level key as it was; a one-key path stores the value there |
| Config.AssignFailsIffBlocked | app_utils/config_manager.py:85-90 | `set` raises exactly when an existing intermediate on the path is not a dict |
| Config.NeverBlockedInEmpty | app_utils/config_manager.py:85-88 | writing into an empty configuration never raises |
| Config.WalkAfterAssign | app_utils/config_manager.py:77-90 | after a successful `set`, `get` of the same path returns the value written |
| Config.AssignKeepsOthers | app_utils/config_manager.py:77-90 | a successful `set` leaves every path that diverges from the written one as it was |
| Config.LookupAfterAssign | app_utils/config_manager.py:60-90 | `get` after a successful `set` of the same dotted path returns the value set, whatever the default |
| Config.LookupKeepsOthers | app_utils/config_manager.py:60-90 | `get` of a dotted path that parts ways with the one set reads what it read before |
| Config.ConfigManager.constructor | app_utils/config_manager.py:39-50 | the manager holds the loaded configuration |
| Config.ConfigManager.Get | app_utils/config_manager.py:60-75 | the lookup on the held configuration; a non-None default never raises, any error is `KeyError` of the path |
| Config.ConfigManager.Set | app_utils/config_manager.py:77-90 | on success the configuration is the assigned one; on failure it is unchanged |
| Config.ConfigManager.GetApiKey | app_utils/config_manager.py:92-102 | a non-empty environment value wins, the configured key is the fallback, and an empty or placeholder key raises `ValueError` |
| Config.ApiKeyPath | app_utils/config_manager.py:97 | the stored key's path names section `api`, key `genai_api_key` |
| Config.RewriteEnvLines | app_utils/config_manager.py:111-121 | every line that defines the key is replaced, the others are kept, and the key line is appended when none was found |
| Config.RewriteDefinesKey | app_utils/config_manager.py:111-121 | the rewritten line list holds a key line, and every key line in it is the new key's line |
| Config.RewrittenLine | app_utils/config_manager.py:114-118 | a rewritten line defines the key exactly when the original did, and then it is the new key's line |
| Config.FileLinesRoundTrip | app_utils/config_manager.py:112-113 | the lines `for line in f` yields from the newline-translated text are a line list and join back to that text |
| Config.AsWrittenLosesKey | app_utils/config_manager.py:111-124 | as written, the file `FOO=bar` is rewritten to `FOO=barGENAI_API_KEY=k\n`, which holds no key line |
| Config.RewriteEnvFile | app_utils/config_manager.py:111-121 | the intended rewrite: the line loop, with a last line lacking `\n` terminated before the key line is appended |
| Config.FixedRewriteDefinesKey | app_utils/config_manager.py:111-124 | with the intended rewrite the written text reads back as the rewritten lines, defines the key, only with the new key, and keeps the other lines |
| Config.SetApiKeyFile | app_utils/config_manager.py:104-124 | the text written is the joined intended rewrite, and it defines the key with the new key only |
| Store.UpdateStatus | data_manager/database_helper.py:81-89 | the video with that id gets the status; every other video keeps its own; a missing id changes nothing |
| Store.UpdateStatusAgain | data_manager/database_helper.py:81-89 | setting a status twice in a row is setting it once |
| Store.VideoStore.constructor | data_manager/database_helper.py:11-14 | the store starts with the given statuses and rows |
| Store.VideoStore.UpdateVideoStatus | data_manager/database_helper.py:81-89 | the statuses become the updated map; the prompt rows are untouched |
| Store.VideoStore.AddPrompt | data_manager/database_helper.py:112-122 | the row is appended to the prompts; the statuses are untouched |
| Store.VideoStore.CountWith | ai_engine/prompt_generator.py:239-242 | the number of videos with a status is at most the number of videos |
| Orchestrator.FirstFault | ai_engine/prompt_generator.py:155-156 | the index of a prompt on which `strip` raises |
| Orchestrator.FirstFaultIsFirst | ai_engine/prompt_generator.py:155-156 | no prompt before that index raises, and with no index none does |
| Orchestrator.FirstFaultAt | ai_engine/prompt_generator.py:155-156 | the first raising prompt after a run of harmless ones is the first fault |
| Orchestrator.NoFault | ai_engine/prompt_generator.py:155-164 | without a raising prompt the loop completes |
| Orchestrator.RowOf | ai_engine/prompt_generator.py:156-163 | a prompt gives at most one row, exactly when it is a string with non-blank trimmed text; the row holds that trimmed text, the video's id and the job's settings |
| Orchestrator.StoredRows | ai_engine/prompt_generator.py:155-164 | no more rows than prompts are stored |
| Orchestrator.StoredRowsBelong | ai_engine/prompt_generator.py:156-163 | every stored row has non-blank trimmed text, the video's id and the job's complexity, aspect ratio and variation |
| Orchestrator.KeptPositionsExact | ai_engine/prompt_generator.py:155-156 | the kept positions are increasing, below `n`, each a kept prompt, and every kept prompt among the first `n` is listed |
| Orchestrator.StoredRowsExactly | ai_engine/prompt_generator.py:155-164 | the stored rows are, in order, the trimmed texts of exactly the non-blank string prompts |
| Orchestrator.StoredRowsAllKept | ai_engine/prompt_generator.py:155-164 | when every prompt is a non-blank string, each is stored trimmed, in order |
| Orchestrator.VideoEffect | ai_engine/prompt_generator.py:124-174 | processing succeeds exactly when the file is valid, the generation returns and no returned prompt raises; success stores no more rows than prompts returned; failure counts no prompts |
| Orchestrator.PromptsEffect | ai_engine/prompt_generator.py:154-167 | the prompt loop succeeds exactly without a raising prompt; on success it stores all rows and counts all prompts, otherwise it keeps the rows before the fault and counts none |
| Orchestrator.VideoEffectSound | ai_engine/prompt_generator.py:154-167 | every row one video's processing stores belongs to it and carries the job's settings |
| Orchestrator.EffectOfInvalidFile | ai_engine/prompt_generator.py:139-141 | an invalid file stores nothing and counts nothing |
| Orchestrator.EffectOfRaisedRun | ai_engine/prompt_generator.py:143-152 | a generation that raises stores nothing and counts nothing |
| Orchestrator.EffectOfPrompts | ai_engine/prompt_generator.py:143-167 | a generation that returns prompts has the prompt loop's effect |
| Orchestrator.Effects | ai_engine/prompt_generator.py:95-109 | one processing effect per video of the list, against that video's world |
| Orchestrator.EffectsSound | ai_engine/prompt_generator.py:95-109 | every video's effect is sound for that video |
| Orchestrator.AfterVideo | ai_engine/prompt_generator.py:99-109 | one iteration appends the effect's rows, marks the video `completed` on success and `error` on failure, leaves the other statuses, and counts the video once |
| Orchestrator.WorkerAfter | ai_engine/prompt_generator.py:95-109 | after `n` iterations the old rows are a prefix of the rows, the statuses cover the same videos, and `n` more videos are counted |
| Orchestrator.WorkerAfterStep | ai_engine/prompt_generator.py:95-109 | one more iteration applies the next video's effect |
| Orchestrator.ProcessedThenCounted | ai_engine/prompt_generator.py:99-109 | an iteration is the processing followed by the count, with a second `error` mark on failure that changes nothing |
| Orchestrator.MarkedAllSpec | ai_engine/prompt_generator.py:89-90 | exactly the stored videos of the list are `processing`; the others keep their status |
| Orchestrator.WorkerCounts | ai_engine/prompt_generator.py:95-109 | each iterated video is counted once, as processed or failed, and stored prompts never outgrow returned ones |
| Orchestrator.WorkerKeepsConsistent | ai_engine/prompt_generator.py:44-49 | a job started with fresh counters keeps them consistent however far the worker gets |
| Orchestrator.WorkerRows | ai_engine/prompt_generator.py:95-109 | rows are only appended, and each new row belongs to an iterated video with the job's settings |
| Orchestrator.WorkerStatuses | ai_engine/prompt_generator.py:95-109 | iterated videos end `completed` or `error`; the others are untouched |
| Orchestrator.CancelledStatuses | ai_engine/prompt_generator.py:95-97 | after a stop seen at the `n`-th check, the videos before it are `completed` or `error` and those from it on stay `processing` |
| Orchestrator.ResetAllSpec | ai_engine/prompt_generator.py:244-247 | the stored videos named in the list get the status; the others keep theirs |
| Orchestrator.Cleaned | ai_engine/prompt_generator.py:249-257 | every `error` video becomes `pending`; every other keeps its status |
| Orchestrator.CleanedCounts | ai_engine/prompt_generator.py:249-257 | after a cleanup no video is in error, and the pending ones are the old pending ones plus the old failed ones |
| Orchestrator.FirstMissing | ai_engine/prompt_generator.py:202-207 | the first required key absent from the parameters, all earlier ones being present |
| Orchestrator.InRange | ai_engine/prompt_generator.py:219 | `lo <= x <= hi` holds exactly for int bounds around `x`, and raises exactly when an evaluated bound is not a number |
| Orchestrator.PyContains | ai_engine/prompt_generator.py:229 | list membership for a list; raises exactly for a container that is neither list, string nor dict, for a non-string looked up in a string, and for a list or dict (unhashable) looked up in a dict |
| Orchestrator.ListedIsContained | ai_engine/prompt_generator.py:227-230 | an aspect ratio taken from the configured list passes the `in` test |
| Orchestrator.RequiredKeysPresent | ai_engine/prompt_generator.py:205-207 | checking the keys one by one accepts exactly when all are present |
| Orchestrator.CompletionMessage | ai_engine/prompt_generator.py:176-185 | the message starts with "Successfully" exactly when no video failed |
| Orchestrator.CompletionMessageDetermines | ai_engine/prompt_generator.py:176-185 | two equal messages report the same successful, processed and failed counts, so the message carries all three |
| Orchestrator.PromptGenerator.constructor | ai_engine/prompt_generator.py:11-25 | no job is running, there is no worker id, and the counters are zero |
| Orchestrator.PromptGenerator.StartGeneration | ai_engine/prompt_generator.py:27-60 | a running job refuses and changes nothing; otherwise the counters are reset to the list's length and the job runs under the worker id |
| Orchestrator.PromptGenerator.StopGeneration | ai_engine/prompt_generator.py:62-72 | without a job and a worker nothing happens; with them the flag and the worker id are cleared exactly when the thread manager stopped the worker |
| Orchestrator.PromptGenerator.StorePrompts | ai_engine/prompt_generator.py:154-164 | all rows are stored when no prompt raises; otherwise the rows before the first raising prompt stay; the statuses are untouched |
| Orchestrator.PromptGenerator.StorePrompt | ai_engine/prompt_generator.py:156-164 | one prompt raises exactly when it is faulty; otherwise its row, if it has one, is appended |
| Orchestrator.PromptGenerator.ProcessSingleVideo | ai_engine/prompt_generator.py:124-174 | returns exactly when the effect succeeds, and leaves the store and counters as that effect says |
| Orchestrator.PromptGenerator.RecordPrompts | ai_engine/prompt_generator.py:154-169 | storing, counting and the `completed`/`error` mark together have the prompt loop's effect |
| Orchestrator.PromptGenerator.MarkProcessing | ai_engine/prompt_generator.py:89-90 | every video of the list is marked `processing`; no row is added |
| Orchestrator.PromptGenerator.WorkerStep | ai_engine/prompt_generator.py:99-109 | one iteration applies that video's effect and counts it |
| Orchestrator.PromptGenerator.RunWorker | ai_engine/prompt_generator.py:74-122 | an empty list changes nothing; otherwise the store and counters are those after marking and the iterations before the stop; finished exactly without a stop; the flags are cleared in every case |
| Orchestrator.PromptGenerator.ProcessVideos | ai_engine/prompt_generator.py:95-115 | the loop runs the iterations before the stop, and the final check sees the flag exactly when no stop came |
| Orchestrator.PromptGenerator.PendingVideosCount | ai_engine/prompt_generator.py:239-242 | the number of `pending` videos |
| Orchestrator.PromptGenerator.ResetVideoStatus | ai_engine/prompt_generator.py:244-247 | the statuses become the reset map; no row is added |
| Orchestrator.PromptGenerator.CleanupFailedVideos | ai_engine/prompt_generator.py:249-257 | the statuses become the cleaned map, and the answer is the number of videos that were in error |
| Orchestrator.PromptGenerator.Range | app_utils/config_manager.py:216-222 | the pair of bounds exactly when both lookups succeed |
| Orchestrator.PromptGenerator.ValidateGenerationParams | ai_engine/prompt_generator.py:195-237 | valid exactly when every rule passes; a missing key is the first missing one; no videos is reported only with all keys present, a bad prompt count only with videos given; once those pass the verdict is that of the configuration rules |
| Orchestrator.PromptGenerator.ValidateSettings | ai_engine/prompt_generator.py:217-237 | the configuration rules pass exactly when both ranges hold, the aspect ratio is listed and the key is configured; each verdict comes only after the earlier rules passed |
| Orchestrator.PromptGenerator.RangeCheck | ai_engine/prompt_generator.py:217-225 | a range rule passes exactly when the value is an int within the configured bounds |

## Left out

- Floating point: progress percentages, and the megabyte figure in the "too large" message, are not modelled. The file size limit is `max_file_size_mb * 1024 * 1024` on integers.
- Progress and completion callbacks, `print` and logging are left out. They do not influence any result.
- Message texts are reduced to the verdict datatypes that carry their data; only `CompletionMessage` builds its string. The fixed English wording of the batch request template is not reproduced: `BuildBatchPrompt` returns a record of the fields it interpolates.
- Threads. `run_in_background`, thread termination and concurrent access are not modelled. A concurrent `stop_generation` is the parameter `stopAt`: the iteration at whose check the worker first sees the flag cleared. `StartGeneration` sets the flag before the worker body runs. In the source the thread may start before `is_generating` is set, and the model takes the order in which the flag is set first.
- The poll loop of `upload_video` is assumed to end (`Settles`). Otherwise the source polls forever, after a `time.sleep(2)` that is not modelled.
- The settings the helper reads are typed (`GenSettings`): the complexity levels, aspect ratios, variation instructions, formats, maximum size and maximum batch size. A configuration holding a non-int batch size, which makes the arithmetic raise `TypeError`, is not modelled.
- The worker's parameters are typed: `Params` holds a list of `Video` rows and a `Job`. Only `validate_generation_params` works over the dynamic dictionary. A video dict without `id` or `filepath` is not modelled.
- GenAI.SplitExt: `os.path.splitext` is modelled for POSIX paths only: `/` is the only separator and there is no drive part.
- PyText.AsciiLower: `str.lower` is modelled on ASCII letters only. Every other character is kept, where Python lowers non-ASCII capitals too: `É` becomes `é`, and U+212A KELVIN SIGN becomes the ASCII `k`. So for a file `clip.m\u212Av`, Python checks the extension `.mkv` against the supported formats, while the model checks `.m\u212Av`.
- BatchParser.DigitRun: `IsDigit`, and with it `DigitRun` and `IsNumbered`, accept only the ASCII digits `0`-`9`. The `\d` of a Python 3 `str` pattern matches every Unicode decimal digit, so a reply line numbered with, say, Arabic-Indic digits is numbered in the source but not in the model.
- `get_model_name`, the `generate_content` call and the client set-up are not modelled. The service's answers are part of the `VideoWorld`, and whether the client exists is the flag `clientReady`.
- `get_generation_stats`, `is_generation_active`, `test_connection`, `update_api_key`, `get_supported_formats` and the singleton accessors: trivial getters or outside the core, not modelled.
- The `RuntimeError` wrapper around the worker and the exception texts are not modelled. A raising step is modelled by its outcome.
- `add_prompt`'s return value (`lastrowid`) and the `updated_at` timestamp are not modelled. The caller does not use either.
- `set_api_key`'s file I/O, `os.environ` and `load_dotenv` are not modelled. The old `.env` text is a parameter (None when the file does not exist). It is the text after text mode's newline translation. The model splits it into lines after each `\n`, as `for line in f` does, and the new text is the rewritten lines joined as `writelines` joins them, before any translation on writing.
- Newline translation of text-mode files is not modelled. On reading, `\r\n` and a lone `\r` reach the loop as `\n`, so a `.env` with such endings must be given in its translated form. On writing, each `\n` becomes `os.linesep`, and the model takes POSIX, where that is `\n`.
- The configuration is held by value. In the source, `get` returns the live nested dict, so a caller can change the configuration through it, and `set` changes the nested dicts in place. The model has no such aliasing: `Set` replaces the whole configuration with `Assign`'s result.
- Config file loading and saving are not modelled. The manager is built from the loaded dictionary.
- Orchestrator.PromptGenerator.CleanupFailedVideos: resets the failed videos in an unspecified order rather than the database's row order. The final map does not depend on the order.
- Orchestrator.FirstFault: its own contract states only that the index found is a fault. `FirstFaultIsFirst`, `FirstFaultAt` and `NoFault` state the rest, that it is the first one.
- Store.VideoStore.CountWith: states only a bound. The exact count is stated by `PendingVideosCount`.

## Findings

| source | as written | input that shows it | evidently intended | confidence | as-written member | corrected member |
|---|---|---|---|---|---|---|
| app_utils/config_manager.py:111-124 | with no key line found, `GENAI_API_KEY=…\n` is appended after the last line read, and `writelines` joins the lines as they are | a `.env` holding `FOO=bar` with no final newline becomes `FOO=barGENAI_API_KEY=k\n`, a single line that defines no key | terminate the last line with `\n` before appending the key line, so that the file written defines the key | not executed | Config.AsWrittenLosesKey | Config.FixedRewriteDefinesKey |
