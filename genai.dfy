/**
 * The video side of `GenAIHelper`: checking a video file, uploading it and
 * waiting for the service to finish processing it, asking for prompts in
 * batches of bounded size, and collecting the results per video.
 *
 * The remote service is an oracle held in a `VideoWorld`: the answers to the
 * upload and to each status poll, the reply text to each batch request, and
 * whether deleting the remote file fails.
 */
module GenAI {
  import opened Wrappers
  import opened PyText
  import opened Values
  import opened Rules
  import opened BatchParser

  /** The configuration values the helper reads. */
  datatype GenSettings = GenSettings(
    supportedFormats: seq<string>,
    maxFileSizeMb: int,
    maxPromptsPerBatch: int,
    complexityLevels: seq<string>,
    aspectRatios: map<string, string>,
    variationInstructions: map<string, string>)

  /** `clientReady` is false when the client could not be created (no usable API key). */
  datatype Helper = Helper(clientReady: bool, settings: GenSettings, codec: Codec)

  /** What the file system says about a video path. */
  datatype FileFacts = FileFacts(present: bool, size: int, readable: bool)

  /** The processing state the service reports for an uploaded file. */
  datatype FileState = Processing | Active | Failed | Unspecified

  /** One answer of the service to the upload or to a status poll. */
  datatype Poll = Raised | Reported(state: FileState)

  datatype RemoteFile = RemoteFile(name: string, state: FileState)

  /** The request `_build_batch_prompt` renders into the prompt text. */
  datatype BatchRequest = BatchRequest(
    fileName: string, complexityDesc: string, aspectRatio: string,
    aspectDesc: string, variationInstruction: string, count: int)

  /**
   * The outside world of one video: file facts, the upload answer followed by
   * the poll answers, the reply text to the `k`-th batch request (None when the
   * call raises) and whether the final delete fails.
   */
  datatype VideoWorld = VideoWorld(
    file: FileFacts, uploadName: string, polls: seq<Poll>,
    reply: (nat, BatchRequest) -> Option<string>, deleteFails: bool)

  /** A video row as the callers pass it. */
  datatype Video = Video(id: int, filepath: string, filename: string)

  /** The generation parameters of one job. */
  datatype Job = Job(promptsPerVideo: int, complexity: int, aspectRatio: string, variation: int)

  // ---------------------------------------------------------------------
  // validate_video_file

  datatype VideoCheck = ValidVideo | FileMissing | UnsupportedFormat(ext: string) | FileTooLarge(size: int) | NotReadable

  /** Some character of `p[from..to]` is not a dot. */
  predicate HasNonDot(p: string, from: int, to: int)
    requires 0 <= from && to <= |p|
  {
    exists k :: from <= k < to && p[k] != '.'
  }

  /**
   * `os.path.splitext` on a POSIX path: the extension starts at the last dot of
   * the last path component, unless everything before that dot in the component
   * is dots.
   */
  function SplitExt(p: string): (r: (string, string))
    ensures r.0 + r.1 == p
    ensures r.1 == [] || (r.1[0] == '.' && '.' !in r.1[1..] && '/' !in r.1)
  {
    var sep := RFind(p, '/');
    var dot := RFind(p, '.');
    if dot > sep && HasNonDot(p, sep + 1, dot) then
      assert forall k :: 0 <= k < |p[dot..]| - 1 ==> p[dot..][1..][k] == p[dot + 1 + k];
      assert '/' !in p[dot..] by {
        assert forall k :: 0 <= k < |p[dot..]| ==> p[dot..][k] == p[dot + k];
      }
      (p[..dot], p[dot..])
    else (p, "")
  }

  /**
   * The extension can start at dot `i`: no dot and no `/` follows it, and something other than a
   * dot comes before it in the same path component.
   */
  predicate ExtStart(p: string, i: int) {
    0 <= i < |p| && p[i] == '.' && (forall j :: i < j < |p| ==> p[j] != '.' && p[j] != '/')
    && exists k :: 0 <= k < i && p[k] != '.' && forall j :: k <= j < i ==> p[j] != '/'
  }

  /**
   * `splitext` finds an extension exactly when the last component has a dot with a non-dot before
   * it, and the extension is then everything from the last dot on.
   */
  lemma SplitExtMeaning(p: string)
    ensures SplitExt(p).1 != [] <==> exists i :: ExtStart(p, i)
    ensures forall i :: ExtStart(p, i) ==> SplitExt(p).1 == p[i..]
  {
    var sep := RFind(p, '/');
    var dot := RFind(p, '.');
    forall i | ExtStart(p, i)
      ensures i == dot && dot > sep && HasNonDot(p, sep + 1, dot)
    {
      var k :| 0 <= k < i && p[k] != '.' && forall j :: k <= j < i ==> p[j] != '/';
      assert sep < k;
      assert sep + 1 <= k < dot && p[k] != '.';
    }
    if SplitExt(p).1 != [] {
      var k :| sep + 1 <= k < dot && p[k] != '.';
      assert ExtStart(p, dot);
    }
  }

  /** The extension `validate_video_file` compares: that of the lower-cased path. */
  function Extension(path: string): string {
    SplitExt(AsciiLower(path)).1
  }

  function MaxFileBytes(s: GenSettings): int {
    s.maxFileSizeMb * 1024 * 1024
  }

  /** The checks in the order the source applies them, each with the verdict it reports when it fails. */
  function VideoChecks(s: GenSettings, path: string, file: FileFacts): seq<Check<VideoCheck>> {
    [Check(file.present, FileMissing),
     Check(Extension(path) in s.supportedFormats, UnsupportedFormat(Extension(path))),
     Check(file.size <= MaxFileBytes(s), FileTooLarge(file.size)),
     Check(file.readable, NotReadable)]
  }

  /** `validate_video_file`: the first failing check, or valid. */
  function ValidateVideoFile(s: GenSettings, path: string, file: FileFacts): (r: VideoCheck)
    ensures r == ValidVideo <==>
              file.present && Extension(path) in s.supportedFormats && file.size <= MaxFileBytes(s) && file.readable
  {
    if !file.present then FileMissing
    else if Extension(path) !in s.supportedFormats then UnsupportedFormat(Extension(path))
    else if file.size > MaxFileBytes(s) then FileTooLarge(file.size)
    else if !file.readable then NotReadable
    else ValidVideo
  }

  /** The verdict is exactly the failure of the first failing check, in the source's order. */
  lemma ValidateIsFirstFailure(s: GenSettings, path: string, file: FileFacts)
    ensures var first := FirstFailure(VideoChecks(s, path, file));
            ValidateVideoFile(s, path, file) == if first.None? then ValidVideo else first.value
  {
    var checks := VideoChecks(s, path, file);
    var first := FirstFailure(checks);
    if first.Some? {
      var i :| 0 <= i < |checks| && !checks[i].passes && checks[i].failure == first.value
               && forall j :: 0 <= j < i ==> checks[j].passes;
      if i >= 1 { assert checks[0].passes; }
      if i >= 2 { assert checks[1].passes; }
      if i >= 3 { assert checks[2].passes; }
    } else {
      assert checks[0].passes && checks[1].passes && checks[2].passes && checks[3].passes;
    }
  }

  // ---------------------------------------------------------------------
  // upload_video

  datatype UploadError = ClientNotInitialized | VideoNotFound | UploadRaised | ProcessingFailed

  predicate StillProcessing(p: Poll) {
    p == Reported(Processing)
  }

  /** The index of the first answer that ends the poll loop, if any. */
  function SettleIndex(polls: seq<Poll>): (r: Option<nat>)
    ensures r.Some? ==> r.value < |polls| && !StillProcessing(polls[r.value])
    ensures r.Some? ==> forall j :: 0 <= j < r.value ==> StillProcessing(polls[j])
    ensures r.None? ==> forall j :: 0 <= j < |polls| ==> StillProcessing(polls[j])
  {
    if polls == [] then None
    else if !StillProcessing(polls[0]) then Some(0)
    else match SettleIndex(polls[1..])
         case None => None
         case Some(i) => Some(i + 1)
  }

  /** The service eventually stops reporting "processing" (otherwise the source polls forever). */
  predicate Settles(polls: seq<Poll>) {
    SettleIndex(polls).Some?
  }

  /** What `upload_video` returns or raises. */
  function UploadSpec(h: Helper, world: VideoWorld): (r: Result<RemoteFile, UploadError>)
    requires Settles(world.polls)
    ensures r.Ok? <==> h.clientReady && world.file.present
                       && world.polls[SettleIndex(world.polls).value].Reported?
                       && world.polls[SettleIndex(world.polls).value].state != Failed
    ensures r.Ok? ==> r.value.state != Processing && r.value.state != Failed && r.value.name == world.uploadName
  {
    if !h.clientReady then Err(ClientNotInitialized)
    else if !world.file.present then Err(VideoNotFound)
    else
      match world.polls[SettleIndex(world.polls).value]
      case Raised => Err(UploadRaised)
      case Reported(st) => if st == Failed then Err(ProcessingFailed) else Ok(RemoteFile(world.uploadName, st))
  }

  /** `upload_video`: upload, then poll while the service reports "processing". */
  method UploadVideo(h: Helper, world: VideoWorld) returns (r: Result<RemoteFile, UploadError>)
    requires Settles(world.polls)
    ensures r == UploadSpec(h, world)
  {
    if !h.clientReady {
      return Err(ClientNotInitialized);
    }
    if !world.file.present {
      return Err(VideoNotFound);
    }
    var settle := SettleIndex(world.polls).value;
    var i := 0;
    var answer := world.polls[0];
    while StillProcessing(answer)
      invariant 0 <= i <= settle
      invariant answer == world.polls[i]
      decreases settle - i
    {
      i := i + 1;
      answer := world.polls[i];
    }
    match answer
    case Raised => return Err(UploadRaised);
    case Reported(st) =>
      if st == Failed {
        return Err(ProcessingFailed);
      }
      return Ok(RemoteFile(world.uploadName, st));
  }

  // ---------------------------------------------------------------------
  // _build_batch_prompt and generate_prompts_batch

  datatype BatchError = NotInitialized | ComplexityOutOfRange | MissingVariation | ReplyFailed | ReplyUnparsable

  /** `_build_batch_prompt`: the variation instruction is looked up by the level's decimal text. */
  function BuildBatchPrompt(s: GenSettings, fileName: string, complexityDesc: string, aspectRatio: string,
                            aspectDesc: string, variation: int, count: int): (r: Result<BatchRequest, BatchError>)
    ensures r.Ok? <==> IntToString(variation) in s.variationInstructions
    ensures r.Err? ==> r.error == MissingVariation
    ensures r.Ok? ==> r.value.variationInstruction == s.variationInstructions[IntToString(variation)]
                      && r.value.count == count && r.value.complexityDesc == complexityDesc
                      && r.value.aspectRatio == aspectRatio && r.value.aspectDesc == aspectDesc
  {
    var key := IntToString(variation);
    if key in s.variationInstructions then
      Ok(BatchRequest(fileName, complexityDesc, aspectRatio, aspectDesc, s.variationInstructions[key], count))
    else Err(MissingVariation)
  }

  /** The aspect description, `"Standard format"` when the ratio is not configured. */
  function AspectDesc(s: GenSettings, aspectRatio: string): (r: string)
    ensures aspectRatio in s.aspectRatios ==> r == s.aspectRatios[aspectRatio]
    ensures aspectRatio !in s.aspectRatios ==> r == "Standard format"
  {
    if aspectRatio in s.aspectRatios then s.aspectRatios[aspectRatio] else "Standard format"
  }

  /** Both settings lookups of `generate_prompts_batch` succeed: the complexity level and the variation instruction. */
  predicate BatchLookups(h: Helper, job: Job) {
    PyIndex(h.settings.complexityLevels, job.complexity - 1).Some?
    && IntToString(job.variation) in h.settings.variationInstructions
  }

  /**
   * The request `generate_prompts_batch` sends for `count` prompts: the level's description,
   * the aspect ratio with its description and the variation instruction.
   */
  function BatchRequestFor(h: Helper, file: RemoteFile, job: Job, count: int): (r: BatchRequest)
    requires BatchLookups(h, job)
    ensures r.complexityDesc == PyIndex(h.settings.complexityLevels, job.complexity - 1).value
    ensures r.aspectRatio == job.aspectRatio && r.aspectDesc == AspectDesc(h.settings, job.aspectRatio)
    ensures r.variationInstruction == h.settings.variationInstructions[IntToString(job.variation)]
    ensures r.fileName == file.name && r.count == count
  {
    BuildBatchPrompt(h.settings, file.name, PyIndex(h.settings.complexityLevels, job.complexity - 1).value,
                     job.aspectRatio, AspectDesc(h.settings, job.aspectRatio), job.variation, count).value
  }

  /**
   * `generate_prompts_batch` as the `batch`-th request of a run: the complexity
   * description is `levels[complexity - 1]` (Python indexing, so 0 picks the last
   * level), and the reply is parsed for `count` prompts.
   */
  function GeneratePromptsBatch(h: Helper, world: VideoWorld, file: RemoteFile, job: Job, batch: nat, count: int)
    : (r: Result<seq<Value>, BatchError>)
    ensures r.Ok? && count >= 0 ==> |r.value| <= count
    ensures r.Ok? <==> h.clientReady && BatchLookups(h, job)
                       && world.reply(batch, BatchRequestFor(h, file, job, count)).Some?
                       && ParseSpec(world.reply(batch, BatchRequestFor(h, file, job, count)).value, count, h.codec).Ok?
    ensures r.Ok? ==> Ok(r.value) == ParseSpec(world.reply(batch, BatchRequestFor(h, file, job, count)).value, count, h.codec)
    ensures !h.clientReady ==> r == Err(NotInitialized)
    ensures h.clientReady && PyIndex(h.settings.complexityLevels, job.complexity - 1).None? ==> r == Err(ComplexityOutOfRange)
    ensures h.clientReady && PyIndex(h.settings.complexityLevels, job.complexity - 1).Some?
            && IntToString(job.variation) !in h.settings.variationInstructions
            ==> r == Err(MissingVariation)
    ensures h.clientReady && BatchLookups(h, job) && world.reply(batch, BatchRequestFor(h, file, job, count)).None?
            ==> r == Err(ReplyFailed)
  {
    if !h.clientReady then Err(NotInitialized)
    else
      match PyIndex(h.settings.complexityLevels, job.complexity - 1)
      case None => Err(ComplexityOutOfRange)
      case Some(desc) =>
        match BuildBatchPrompt(h.settings, file.name, desc, job.aspectRatio, AspectDesc(h.settings, job.aspectRatio),
                               job.variation, count)
        case Err(e) => Err(e)
        case Ok(request) =>
          match world.reply(batch, request)
          case None => Err(ReplyFailed)
          case Some(text) =>
            var parsed := ParseSpec(text, count, h.codec);
            if parsed.Err? then Err(ReplyUnparsable) else Ok(parsed.value)
  }

  /** A batch whose reply is a JSON dict with a `prompts` list returns that list, cut to the count asked for. */
  lemma JsonReplyBatch(h: Helper, world: VideoWorld, file: RemoteFile, job: Job, batch: nat, count: int,
                       m: map<string, Value>)
    requires count >= 0 && h.clientReady && BatchLookups(h, job)
    requires world.reply(batch, BatchRequestFor(h, file, job, count)).Some?
    requires h.codec.decode(world.reply(batch, BatchRequestFor(h, file, job, count)).value) == Some(VDict(m))
    requires "prompts" in m && m["prompts"].VList?
    ensures var items := m["prompts"].items;
            GeneratePromptsBatch(h, world, file, job, batch, count)
            == Ok(items[..if count < |items| then count else |items|])
  {
    var text := world.reply(batch, BatchRequestFor(h, file, job, count)).value;
    WholeJsonPath(text, count, h.codec, m);
  }

  // ---------------------------------------------------------------------
  // generate_multiple_prompts

  datatype BatchCall = BatchCall(size: int, outcome: Result<seq<Value>, BatchError>)

  datatype BatchState = BatchState(calls: seq<BatchCall>, prompts: seq<Value>, generated: int)

  /** The prompts of the successful calls, concatenated in call order. */
  function Successes(calls: seq<BatchCall>): seq<Value> {
    if calls == [] then []
    else
      var last := calls[|calls| - 1];
      Successes(calls[..|calls| - 1]) + (if last.outcome.Ok? then last.outcome.value else [])
  }

  /** The sum of the requested batch sizes. */
  function SizeSum(calls: seq<BatchCall>): int {
    if calls == [] then 0 else SizeSum(calls[..|calls| - 1]) + calls[|calls| - 1].size
  }

  /** Every call succeeded with exactly the number of prompts it asked for. */
  predicate AllFull(calls: seq<BatchCall>) {
    forall j :: 0 <= j < |calls| ==> calls[j].outcome.Ok? && |calls[j].outcome.value| == calls[j].size
  }

  /** The answer to the `b`-th batch request of a run when it asks for `size` prompts. */
  function Replies(h: Helper, world: VideoWorld, file: RemoteFile, job: Job): (nat, int) -> Result<seq<Value>, BatchError> {
    (b: nat, size: int) => GeneratePromptsBatch(h, world, file, job, b, size)
  }

  /** No batch answer holds more prompts than were asked for. */
  ghost predicate Bounded(batch: (nat, int) -> Result<seq<Value>, BatchError>) {
    forall b: nat, size: int :: size >= 0 && batch(b, size).Ok? ==> |batch(b, size).value| <= size
  }

  lemma RepliesBounded(h: Helper, world: VideoWorld, file: RemoteFile, job: Job)
    ensures Bounded(Replies(h, world, file, job))
  {
  }

  /**
   * The state of the batch loop after `k` iterations, `batch` answering each
   * request and `n` prompts being wanted: each asks for `min(cap, n - generated)`
   * prompts; a failed batch adds nothing and the loop goes on.
   */
  function BatchesDone(batch: (nat, int) -> Result<seq<Value>, BatchError>, n: int, cap: int, k: nat): (r: BatchState)
    ensures |r.calls| == k && r.generated == |r.prompts| && r.prompts == Successes(r.calls)
  {
    if k == 0 then BatchState([], [], 0)
    else
      var prev := BatchesDone(batch, n, cap, k - 1);
      var size := Min(cap, n - prev.generated);
      var out := batch(k - 1, size);
      var got := if out.Ok? then out.value else [];
      var calls := prev.calls + [BatchCall(size, out)];
      assert calls[..|calls| - 1] == prev.calls;
      BatchState(calls, prev.prompts + got, prev.generated + |got|)
  }

  /** The `k`-th iteration of the batch loop, stated without unfolding the batch call. */
  lemma BatchesDoneStep(batch: (nat, int) -> Result<seq<Value>, BatchError>, n: int, cap: int, k: nat)
    requires k >= 1
    ensures var prev := BatchesDone(batch, n, cap, k - 1);
            var st := BatchesDone(batch, n, cap, k);
            var call := st.calls[k - 1];
            call.size == Min(cap, n - prev.generated)
            && call.outcome == batch(k - 1, call.size)
            && st.calls == prev.calls + [call]
            && st.generated == prev.generated + (if call.outcome.Ok? then |call.outcome.value| else 0)
  {
  }

  /** `(n + cap - 1) // cap`, and no iteration at all when that is not positive. */
  function BatchCount(n: int, cap: int): nat
    requires cap != 0
  {
    var b := FloorDiv(n + cap - 1, cap);
    if b > 0 then b else 0
  }

  datatype GenError = GenNotInitialized | UploadFailed(cause: UploadError) | ZeroBatchCap

  /**
   * One run: the prompts or the error, the batch calls made, whether the
   * uploaded file was deleted, and whether that delete failed (which is only
   * reported, never raised).
   */
  datatype GenerationRun = GenerationRun(result: Result<seq<Value>, GenError>, calls: seq<BatchCall>,
                                         deleted: bool, cleanupFailed: bool)

  /** What `generate_multiple_prompts` returns, raises and does to the uploaded file. */
  function RunSpec(h: Helper, world: VideoWorld, job: Job): (r: GenerationRun)
    requires Settles(world.polls)
    ensures r.result.Ok? <==> h.clientReady && UploadSpec(h, world).Ok? && h.settings.maxPromptsPerBatch != 0
    ensures r.deleted <==> h.clientReady && UploadSpec(h, world).Ok?
    ensures r.cleanupFailed <==> r.deleted && world.deleteFails
    ensures r.result.Ok? ==> r.result.value == PySlicePrefix(Successes(r.calls), job.promptsPerVideo)
    ensures r.result.Ok? && h.settings.maxPromptsPerBatch != 0 ==>
              |r.calls| == BatchCount(job.promptsPerVideo, h.settings.maxPromptsPerBatch)
    ensures r.result.Err? ==> r.calls == []
  {
    if !h.clientReady then GenerationRun(Err(GenNotInitialized), [], false, false)
    else
      match UploadSpec(h, world)
      case Err(e) => GenerationRun(Err(UploadFailed(e)), [], false, false)
      case Ok(file) =>
        var cap := h.settings.maxPromptsPerBatch;
        if cap == 0 then GenerationRun(Err(ZeroBatchCap), [], true, world.deleteFails)
        else
          var st := BatchesDone(Replies(h, world, file, job), job.promptsPerVideo, cap, BatchCount(job.promptsPerVideo, cap));
          GenerationRun(Ok(PySlicePrefix(st.prompts, job.promptsPerVideo)), st.calls, true, world.deleteFails)
  }

  /** The batch loop depends on the answers only, not on how the answering function is written. */
  lemma {:induction false} BatchesDoneExt(f: (nat, int) -> Result<seq<Value>, BatchError>,
                                          g: (nat, int) -> Result<seq<Value>, BatchError>, n: int, cap: int, k: nat)
    requires forall b: nat, size: int :: f(b, size) == g(b, size)
    ensures BatchesDone(f, n, cap, k) == BatchesDone(g, n, cap, k)
  {
    if k > 0 {
      BatchesDoneExt(f, g, n, cap, k - 1);
      var size := Min(cap, n - BatchesDone(f, n, cap, k - 1).generated);
      assert f(k - 1, size) == g(k - 1, size);
    }
  }

  /**
   * A failing delete of the uploaded file is only reported: the prompts, the error, the batch
   * calls and the delete attempt are those of the same run with a delete that succeeds.
   */
  lemma DeleteFailureIgnored(h: Helper, world: VideoWorld, job: Job, fails: bool)
    requires Settles(world.polls)
    ensures var w := world.(deleteFails := fails);
            RunSpec(h, w, job).result == RunSpec(h, world, job).result
            && RunSpec(h, w, job).calls == RunSpec(h, world, job).calls
            && RunSpec(h, w, job).deleted == RunSpec(h, world, job).deleted
  {
    var w := world.(deleteFails := fails);
    assert UploadSpec(h, w) == UploadSpec(h, world);
    if h.clientReady && UploadSpec(h, world).Ok? && h.settings.maxPromptsPerBatch != 0 {
      var file := UploadSpec(h, world).value;
      var cap := h.settings.maxPromptsPerBatch;
      forall b: nat, size: int
        ensures Replies(h, w, file, job)(b, size) == Replies(h, world, file, job)(b, size)
      {
        assert GeneratePromptsBatch(h, w, file, job, b, size) == GeneratePromptsBatch(h, world, file, job, b, size);
      }
      BatchesDoneExt(Replies(h, w, file, job), Replies(h, world, file, job), job.promptsPerVideo, cap,
                     BatchCount(job.promptsPerVideo, cap));
    }
  }

  /** `generate_multiple_prompts`: upload, run the batches, truncate, and delete the uploaded file in any case. */
  method GenerateMultiplePrompts(h: Helper, world: VideoWorld, job: Job) returns (run: GenerationRun)
    requires Settles(world.polls)
    ensures run == RunSpec(h, world, job)
  {
    if !h.clientReady {
      return GenerationRun(Err(GenNotInitialized), [], false, false);
    }
    var cap := h.settings.maxPromptsPerBatch;
    var uploaded := UploadVideo(h, world);
    if uploaded.Err? {
      return GenerationRun(Err(UploadFailed(uploaded.error)), [], false, false);
    }
    var file := uploaded.value;
    if cap == 0 {
      return GenerationRun(Err(ZeroBatchCap), [], true, world.deleteFails);
    }
    var st := RunBatches(Replies(h, world, file, job), job.promptsPerVideo, cap);
    return GenerationRun(Ok(PySlicePrefix(st.prompts, job.promptsPerVideo)), st.calls, true, world.deleteFails);
  }

  /** The batch loop of `generate_multiple_prompts`, `batch` answering each request: a failed batch is reported and skipped. */
  method RunBatches(batch: (nat, int) -> Result<seq<Value>, BatchError>, n: int, cap: int) returns (st: BatchState)
    requires cap != 0
    ensures st == BatchesDone(batch, n, cap, BatchCount(n, cap))
  {
    var batches := BatchCount(n, cap);
    var calls: seq<BatchCall> := [];
    var all: seq<Value> := [];
    var generated := 0;
    var b := 0;
    while b < batches
      invariant 0 <= b <= batches
      invariant calls == BatchesDone(batch, n, cap, b).calls
      invariant all == BatchesDone(batch, n, cap, b).prompts
      invariant generated == BatchesDone(batch, n, cap, b).generated
    {
      BatchesDoneStep(batch, n, cap, b + 1);
      var size := Min(cap, n - generated);
      var out := batch(b, size);
      assert BatchesDone(batch, n, cap, b + 1).calls[b] == BatchCall(size, out);
      if out.Ok? {
        all := all + out.value;
        generated := generated + |out.value|;
      }
      calls := calls + [BatchCall(size, out)];
      b := b + 1;
    }
    return BatchState(calls, all, generated);
  }

  lemma MulSign(b: int, c: int)
    requires c >= 0
    ensures b <= 0 ==> b * c <= 0
    ensures b >= 1 ==> b * c >= c
  {
    if b >= 1 {
      MulMono(1, b, c);
    } else {
      MulMono(b, 0, c);
    }
  }

  lemma MulStep(k: int, c: int)
    ensures k * c == (k - 1) * c + c
  {
  }

  lemma MulMono(a: int, b: int, c: int)
    requires a <= b && c >= 0
    ensures a * c <= b * c
  {
    assert b * c - a * c == (b - a) * c;
  }

  /** With a positive cap the number of batches is the ceiling of `n / cap`. */
  lemma BatchCountIsCeiling(n: int, cap: int)
    requires cap >= 1
    ensures n <= 0 ==> BatchCount(n, cap) == 0
    ensures n >= 1 ==> (BatchCount(n, cap) - 1) * cap < n <= BatchCount(n, cap) * cap
  {
    var b := FloorDiv(n + cap - 1, cap);
    assert b * cap <= n + cap - 1 < b * cap + cap;
    assert (b - 1) * cap == b * cap - cap;
    MulSign(b, cap);
  }

  /** Before the `k`-th batch of the loop, fewer than `n` prompts can have been asked for in full batches. */
  lemma BeforeLastBatch(n: int, cap: int, k: nat)
    requires n >= 1 && cap >= 1 && 1 <= k <= BatchCount(n, cap)
    ensures (k - 1) * cap < n
  {
    BatchCountIsCeiling(n, cap);
    MulMono(k - 1, BatchCount(n, cap) - 1, cap);
  }

  /**
   * Given `n >= 1` and `cap >= 1`, no batch inside the loop's range asks for
   * fewer than one or more than `cap` prompts, and fewer than `k * cap` prompts
   * have been collected after `k` of them.
   */
  lemma {:induction false} BatchSizesInRange(batch: (nat, int) -> Result<seq<Value>, BatchError>, n: int, cap: int, k: nat)
    requires Bounded(batch)
    requires n >= 1 && cap >= 1
    requires k <= BatchCount(n, cap)
    ensures var st := BatchesDone(batch, n, cap, k);
            st.generated <= k * cap
            && forall j :: 0 <= j < k ==> 1 <= st.calls[j].size <= cap
  {
    if k > 0 {
      BatchSizesInRange(batch, n, cap, k - 1);
      BatchesDoneStep(batch, n, cap, k);
      BeforeLastBatch(n, cap, k);
      var prev := BatchesDone(batch, n, cap, k - 1);
      var st := BatchesDone(batch, n, cap, k);
      var call := st.calls[k - 1];
      assert 1 <= call.size <= cap;
      assert call.outcome.Ok? ==> |call.outcome.value| <= call.size;
      assert st.generated <= prev.generated + cap;
      MulStep(k, cap);
      forall j | 0 <= j < k
        ensures 1 <= st.calls[j].size <= cap
      {
        if j < k - 1 {
          assert st.calls[j] == prev.calls[j];
        }
      }
    }
  }

  /** When every batch returns exactly what it asked for, `min(k * cap, n)` prompts have been collected after `k` batches. */
  lemma {:induction false} FullBatchesCount(batch: (nat, int) -> Result<seq<Value>, BatchError>, n: int, cap: int, k: nat)
    requires n >= 1 && cap >= 1
    requires k <= BatchCount(n, cap)
    requires AllFull(BatchesDone(batch, n, cap, k).calls)
    ensures var st := BatchesDone(batch, n, cap, k);
            st.generated == SizeSum(st.calls) == Min(k * cap, n)
  {
    if k > 0 {
      BatchesDoneStep(batch, n, cap, k);
      var prev := BatchesDone(batch, n, cap, k - 1);
      var st := BatchesDone(batch, n, cap, k);
      var call := st.calls[k - 1];
      AllFullAppend(prev.calls, call);
      FullBatchesCount(batch, n, cap, k - 1);
      SizeSumAppend(prev.calls, call);
      FullStep(prev.generated, n, cap, k, call.size);
    }
  }

  /** A list of calls with one more at the end is full exactly when the list and the extra call are. */
  lemma AllFullAppend(calls: seq<BatchCall>, call: BatchCall)
    ensures AllFull(calls + [call]) <==>
              AllFull(calls) && call.outcome.Ok? && |call.outcome.value| == call.size
  {
    if AllFull(calls + [call]) {
      forall j | 0 <= j < |calls|
        ensures calls[j].outcome.Ok? && |calls[j].outcome.value| == calls[j].size
      {
        assert (calls + [call])[j] == calls[j];
      }
      assert (calls + [call])[|calls|] == call;
    }
  }

  lemma SizeSumAppend(calls: seq<BatchCall>, call: BatchCall)
    ensures SizeSum(calls + [call]) == SizeSum(calls) + call.size
  {
    assert (calls + [call])[..|calls|] == calls;
  }

  /** One full batch: `min((k-1)*cap, n) + min(cap, n - (k-1)*cap) == min(k*cap, n)` while `(k-1)*cap < n`. */
  lemma FullStep(before: int, n: int, cap: int, k: nat, size: int)
    requires n >= 1 && cap >= 1 && 1 <= k <= BatchCount(n, cap)
    requires before == Min((k - 1) * cap, n)
    requires size == Min(cap, n - before)
    ensures before + size == Min(k * cap, n)
  {
    BeforeLastBatch(n, cap, k);
    MulStep(k, cap);
  }

  /**
   * The batch-size properties of a whole run: with `n >= 1` prompts wanted and a
   * cap `>= 1`, every call asks for between 1 and `cap` prompts, and when every
   * call returns its full size the sizes add up to `n` and nothing is cut off.
   */
  lemma RunBatchSizes(h: Helper, world: VideoWorld, job: Job)
    requires Settles(world.polls)
    requires job.promptsPerVideo >= 1 && h.settings.maxPromptsPerBatch >= 1
    ensures var run := RunSpec(h, world, job);
            run.result.Ok? ==>
              (forall j :: 0 <= j < |run.calls| ==> 1 <= run.calls[j].size <= h.settings.maxPromptsPerBatch)
              && (AllFull(run.calls) ==> SizeSum(run.calls) == job.promptsPerVideo
                                         && run.result.value == Successes(run.calls))
  {
    var run := RunSpec(h, world, job);
    if run.result.Ok? {
      var file := UploadSpec(h, world).value;
      var cap := h.settings.maxPromptsPerBatch;
      var n := job.promptsPerVideo;
      var b := BatchCount(n, cap);
      RepliesBounded(h, world, file, job);
      BatchSizesInRange(Replies(h, world, file, job), n, cap, b);
      BatchCountIsCeiling(n, cap);
      if AllFull(run.calls) {
        FullBatchesCount(Replies(h, world, file, job), n, cap, b);
      }
    }
  }

  // ---------------------------------------------------------------------
  // batch_generate_prompts

  /** What one video contributes to the result map: its prompts, or nothing when its run raised. */
  function VideoPrompts(h: Helper, world: VideoWorld, job: Job): seq<Value>
    requires Settles(world.polls)
  {
    var run := RunSpec(h, world, job);
    if run.result.Ok? then run.result.value else []
  }

  /** The prompts of every video, in list order. */
  function AllPrompts(h: Helper, videos: seq<Video>, job: Job, worlds: seq<VideoWorld>): (r: seq<seq<Value>>)
    requires |worlds| == |videos|
    requires forall i :: 0 <= i < |worlds| ==> Settles(worlds[i].polls)
    ensures |r| == |videos|
    ensures forall i :: 0 <= i < |r| ==> r[i] == VideoPrompts(h, worlds[i], job)
  {
    seq(|videos|, i requires 0 <= i < |videos| => VideoPrompts(h, worlds[i], job))
  }

  /** The result map after the first `k` videos; a repeated id keeps the later video's entry. */
  function ResultsAfter(videos: seq<Video>, outs: seq<seq<Value>>, k: nat): (r: map<int, seq<Value>>)
    requires k <= |videos| == |outs|
    ensures r.Keys == set i | 0 <= i < k :: videos[i].id
  {
    if k == 0 then map[]
    else ResultsAfter(videos, outs, k - 1)[videos[k - 1].id := outs[k - 1]]
  }

  /** `outs[i]` is what video `i` produces in world `worlds[i]`. */
  predicate IsVideoPrompts(out: seq<Value>, h: Helper, world: VideoWorld, job: Job) {
    Settles(world.polls) && out == VideoPrompts(h, world, job)
  }

  /** `outs` are the prompts of the videos against their worlds, stated one video at a time. */
  predicate ArePrompts(outs: seq<seq<Value>>, h: Helper, job: Job, worlds: seq<VideoWorld>) {
    |outs| == |worlds|
    && forall i {:trigger IsVideoPrompts(outs[i], h, worlds[i], job)} ::
         0 <= i < |outs| ==> IsVideoPrompts(outs[i], h, worlds[i], job)
  }

  /** The prompts of the list are its videos' prompts. */
  lemma AllPromptsArePrompts(h: Helper, videos: seq<Video>, job: Job, worlds: seq<VideoWorld>)
    requires |worlds| == |videos|
    requires forall i :: 0 <= i < |worlds| ==> Settles(worlds[i].polls)
    ensures ArePrompts(AllPrompts(h, videos, job, worlds), h, job, worlds)
  {
  }

  /** `batch_generate_prompts`: one entry per video id, an empty list for a video whose run raised. */
  method BatchGeneratePrompts(h: Helper, videos: seq<Video>, job: Job, worlds: seq<VideoWorld>)
    returns (results: map<int, seq<Value>>)
    requires |worlds| == |videos|
    requires forall i :: 0 <= i < |worlds| ==> Settles(worlds[i].polls)
    ensures results == ResultsAfter(videos, AllPrompts(h, videos, job, worlds), |videos|)
  {
    ghost var outs := AllPrompts(h, videos, job, worlds);
    AllPromptsArePrompts(h, videos, job, worlds);
    results := map[];
    var i := 0;
    while i < |videos|
      invariant 0 <= i <= |videos|
      invariant results == ResultsAfter(videos, outs, i)
    {
      var ps := PromptsAt(h, job, worlds, i, outs);
      results := results[videos[i].id := ps];
      i := i + 1;
    }
  }

  /** One iteration of `batch_generate_prompts`: the run's prompts, or an empty list when it raised. */
  method PromptsAt(h: Helper, job: Job, worlds: seq<VideoWorld>, i: nat, ghost outs: seq<seq<Value>>)
    returns (ps: seq<Value>)
    requires i < |worlds|
    requires ArePrompts(outs, h, job, worlds)
    ensures ps == outs[i]
  {
    assert IsVideoPrompts(outs[i], h, worlds[i], job);
    var run := GenerateMultiplePrompts(h, worlds[i], job);
    if run.result.Ok? {
      ps := run.result.value;
    } else {
      ps := [];
    }
  }

  /** The entry of an id is what its last video in the list produced. */
  lemma {:induction false} ResultsOfLastOccurrence(videos: seq<Video>, outs: seq<seq<Value>>, k: nat, j: nat)
    requires k <= |videos| == |outs| && j < k
    requires forall i :: j < i < k ==> videos[i].id != videos[j].id
    ensures ResultsAfter(videos, outs, k)[videos[j].id] == outs[j]
  {
    if j < k - 1 {
      ResultsOfLastOccurrence(videos, outs, k - 1, j);
    }
  }

  /** The entry of a video whose id does not recur later in the list is what that video's run produced. */
  lemma BatchEntryOfVideo(h: Helper, videos: seq<Video>, job: Job, worlds: seq<VideoWorld>, j: nat)
    requires |worlds| == |videos| && j < |videos|
    requires forall i :: 0 <= i < |worlds| ==> Settles(worlds[i].polls)
    requires forall i :: j < i < |videos| ==> videos[i].id != videos[j].id
    ensures ResultsAfter(videos, AllPrompts(h, videos, job, worlds), |videos|)[videos[j].id]
            == VideoPrompts(h, worlds[j], job)
  {
    ResultsOfLastOccurrence(videos, AllPrompts(h, videos, job, worlds), |videos|, j);
  }
}
