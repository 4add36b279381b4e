/**
 * `PromptGenerator`: starting and stopping a generation job, the worker that
 * walks the selected videos, the processing of one video (validate, generate,
 * store the non-blank prompts), the completion message, the validation of the
 * generation parameters and the status reset helpers.
 */
module Orchestrator {
  import opened Wrappers
  import opened PyText
  import opened Values
  import opened GenAI
  import opened Config
  import Store

  /** The `generation_stats` dict. */
  datatype JobStats = JobStats(totalVideos: int, processedVideos: int, totalPrompts: int,
                               successfulPrompts: int, failedVideos: int)

  const NoStats: JobStats := JobStats(0, 0, 0, 0, 0)

  /** The counters of a job agree with each other: no more stored than returned, no more finished than selected. */
  predicate Consistent(s: JobStats) {
    0 <= s.successfulPrompts <= s.totalPrompts
    && 0 <= s.processedVideos && 0 <= s.failedVideos
    && s.processedVideos + s.failedVideos <= s.totalVideos
  }

  /** The generation parameters the worker reads, with the videos as typed rows. */
  datatype Params = Params(videos: seq<Video>, job: Job)

  // ---------------------------------------------------------------------
  // _process_single_video

  /** A returned prompt on which `prompt_text.strip()` raises: truthy, but not a string. */
  predicate Faulty(p: Value) {
    Truthy(p) && !p.VStr?
  }

  /** The index of the first faulty prompt, if any. */
  function FirstFault(ps: seq<Value>): (r: Option<nat>)
    ensures r.Some? ==> r.value < |ps| && Faulty(ps[r.value])
  {
    if ps == [] then None
    else if Faulty(ps[0]) then Some(0)
    else match FirstFault(ps[1..])
         case None => None
         case Some(i) => Some(i + 1)
  }

  /** No prompt before the first faulty one is faulty, and with no first faulty one none is. */
  lemma {:induction false} FirstFaultIsFirst(ps: seq<Value>)
    ensures FirstFault(ps).Some? ==> forall j :: 0 <= j < FirstFault(ps).value ==> !Faulty(ps[j])
    ensures FirstFault(ps).None? ==> forall j :: 0 <= j < |ps| ==> !Faulty(ps[j])
  {
    if ps != [] && !Faulty(ps[0]) {
      FirstFaultIsFirst(ps[1..]);
      assert forall j :: 1 <= j < |ps| ==> ps[j] == ps[1..][j - 1];
    }
  }

  /** The first faulty prompt is the one after a run of non-faulty ones. */
  lemma {:induction false} FirstFaultAt(ps: seq<Value>, i: nat)
    requires i < |ps| && Faulty(ps[i])
    requires forall j :: 0 <= j < i ==> !Faulty(ps[j])
    ensures FirstFault(ps) == Some(i)
  {
    if i > 0 {
      assert !Faulty(ps[0]);
      assert forall j :: 0 <= j < i - 1 ==> ps[1..][j] == ps[j + 1];
      FirstFaultAt(ps[1..], i - 1);
    }
  }

  /** Without a faulty prompt there is no first one. */
  lemma {:induction false} NoFault(ps: seq<Value>)
    requires forall j :: 0 <= j < |ps| ==> !Faulty(ps[j])
    ensures FirstFault(ps) == None
  {
    if ps != [] {
      assert forall j :: 0 <= j < |ps| - 1 ==> ps[1..][j] == ps[j + 1];
      NoFault(ps[1..]);
    }
  }

  /** The row one prompt contributes: a string with a non-blank trimmed text, stored trimmed. */
  function RowOf(id: int, job: Job, p: Value): (r: seq<Store.PromptRow>)
    ensures |r| <= 1
    ensures r != [] <==> Keeps(p)
    ensures r != [] ==> r[0].text == Strip(p.s) && Belongs(r[0], id, job)
  {
    if p.VStr? && Strip(p.s) != "" then [Store.PromptRow(id, Strip(p.s), job.complexity, job.aspectRatio, job.variation)]
    else []
  }

  /** A stored row of video `id` in job `job`: non-blank trimmed text and the job's settings. */
  predicate Belongs(row: Store.PromptRow, id: int, job: Job) {
    row.videoId == id && row.text != "" && IsStripped(row.text)
    && row.complexity == job.complexity && row.aspectRatio == job.aspectRatio && row.variation == job.variation
  }

  /** The rows stored for the first `n` prompts of `ps`, in order. */
  function StoredRows(id: int, job: Job, ps: seq<Value>, n: nat): (r: seq<Store.PromptRow>)
    requires n <= |ps|
    ensures |r| <= n
  {
    if n == 0 then [] else StoredRows(id, job, ps, n - 1) + RowOf(id, job, ps[n - 1])
  }

  /** Every stored row has a non-blank trimmed text and the job's settings. */
  lemma {:induction false} StoredRowsBelong(id: int, job: Job, ps: seq<Value>, n: nat)
    requires n <= |ps|
    ensures forall k :: 0 <= k < |StoredRows(id, job, ps, n)| ==> Belongs(StoredRows(id, job, ps, n)[k], id, job)
  {
    if n > 0 {
      StoredRowsBelong(id, job, ps, n - 1);
    }
  }

  /** A prompt that yields a row: a string whose trimmed text is not blank. */
  predicate Keeps(p: Value) {
    p.VStr? && Strip(p.s) != ""
  }

  /** The positions, among the first `n`, of the prompts that are kept. */
  function KeptPositions(ps: seq<Value>, n: nat): (r: seq<nat>)
    requires n <= |ps|
    ensures |r| <= n
  {
    if n == 0 then [] else KeptPositions(ps, n - 1) + (if Keeps(ps[n - 1]) then [n - 1] else [])
  }

  /** The kept positions are increasing, below `n`, kept, and every kept position is listed. */
  lemma {:induction false} KeptPositionsExact(ps: seq<Value>, n: nat)
    requires n <= |ps|
    ensures forall k :: 0 <= k < |KeptPositions(ps, n)| ==> KeptPositions(ps, n)[k] < n && Keeps(ps[KeptPositions(ps, n)[k]])
    ensures forall k, l :: 0 <= k < l < |KeptPositions(ps, n)| ==> KeptPositions(ps, n)[k] < KeptPositions(ps, n)[l]
    ensures forall j :: 0 <= j < n && Keeps(ps[j]) ==> j in KeptPositions(ps, n)
  {
    if n > 0 {
      KeptPositionsExact(ps, n - 1);
      var before := KeptPositions(ps, n - 1);
      assert forall k :: 0 <= k < |before| ==> KeptPositions(ps, n)[k] == before[k];
    }
  }

  /** One row is stored per kept prompt. */
  lemma {:induction false} StoredRowsCount(id: int, job: Job, ps: seq<Value>, n: nat)
    requires n <= |ps|
    ensures |StoredRows(id, job, ps, n)| == |KeptPositions(ps, n)|
  {
    if n > 0 {
      StoredRowsCount(id, job, ps, n - 1);
    }
  }

  /** The `k`-th stored row holds the trimmed text of the `k`-th kept prompt. */
  lemma {:induction false} StoredRowsAtKept(id: int, job: Job, ps: seq<Value>, n: nat)
    requires n <= |ps|
    ensures |StoredRows(id, job, ps, n)| == |KeptPositions(ps, n)|
    ensures forall k :: 0 <= k < |KeptPositions(ps, n)| ==>
              KeptPositions(ps, n)[k] < n && Keeps(ps[KeptPositions(ps, n)[k]])
              && StoredRows(id, job, ps, n)[k].text == Strip(ps[KeptPositions(ps, n)[k]].s)
  {
    StoredRowsCount(id, job, ps, n);
    if n > 0 {
      StoredRowsAtKept(id, job, ps, n - 1);
      var before := StoredRows(id, job, ps, n - 1);
      var pos := KeptPositions(ps, n - 1);
      var r := StoredRows(id, job, ps, n);
      var q := KeptPositions(ps, n);
      var row := RowOf(id, job, ps[n - 1]);
      assert r == before + row;
      if Keeps(ps[n - 1]) {
        assert q == pos + [n - 1];
        forall k | 0 <= k < |q|
          ensures q[k] < n && Keeps(ps[q[k]]) && r[k].text == Strip(ps[q[k]].s)
        {
          if k < |pos| {
            assert q[k] == pos[k] && r[k] == before[k];
          } else {
            assert q[k] == n - 1 && r[k] == row[0];
          }
        }
      } else {
        assert row == [] && r == before;
        assert q == pos;
      }
    }
  }

  /**
   * The rows stored for the first `n` prompts are exactly the kept ones among them, trimmed, in
   * their order: `idx` lists the positions of the prompts that gave the rows, increasing, and every
   * kept position among the first `n` is listed.
   */
  lemma StoredRowsExactly(id: int, job: Job, ps: seq<Value>, n: nat) returns (idx: seq<nat>)
    requires n <= |ps|
    ensures |idx| == |StoredRows(id, job, ps, n)|
    ensures forall k :: 0 <= k < |idx| ==> idx[k] < n && Keeps(ps[idx[k]]) && StoredRows(id, job, ps, n)[k].text == Strip(ps[idx[k]].s)
    ensures forall k, l :: 0 <= k < l < |idx| ==> idx[k] < idx[l]
    ensures forall j :: 0 <= j < n && Keeps(ps[j]) ==> j in idx
  {
    idx := KeptPositions(ps, n);
    KeptPositionsExact(ps, n);
    StoredRowsAtKept(id, job, ps, n);
  }

  /** When each of the first `n` prompts is a string with non-blank text, each one is stored, trimmed, in order. */
  lemma StoredRowsAllKept(id: int, job: Job, ps: seq<Value>, n: nat)
    requires n <= |ps|
    requires forall j :: 0 <= j < n ==> ps[j].VStr? && Strip(ps[j].s) != ""
    ensures |StoredRows(id, job, ps, n)| == n
    ensures forall j :: 0 <= j < n ==> StoredRows(id, job, ps, n)[j].text == Strip(ps[j].s)
  {
    var idx := StoredRowsExactly(id, job, ps, n);
    assert forall j :: 0 <= j < n ==> Keeps(ps[j]);
    IncreasingCover(idx, n);
  }

  /** An increasing list of positions below `n` that lists each of them is `0, 1, ..., n-1`. */
  lemma {:induction false} IncreasingCover(idx: seq<nat>, n: nat)
    requires forall k :: 0 <= k < |idx| ==> idx[k] < n
    requires forall k, l :: 0 <= k < l < |idx| ==> idx[k] < idx[l]
    requires forall j :: 0 <= j < n ==> j in idx
    ensures |idx| == n && forall k :: 0 <= k < n ==> idx[k] == k
  {
    assert |idx| > 0 ==> idx[0] < n;
    if n > 0 {
      assert n - 1 in idx;
      var last := |idx| - 1;
      var m :| 0 <= m < |idx| && idx[m] == n - 1;
      assert m == last;
      var front := idx[..last];
      forall j | 0 <= j < n - 1
        ensures j in front
      {
        assert j in idx;
        var q :| 0 <= q < |idx| && idx[q] == j;
        assert q != last;
        assert front[q] == j;
      }
      IncreasingCover(front, n - 1);
      assert idx == front + [n - 1];
    }
  }

  /** What processing one video does to the store and the counters. */
  datatype Effect = Effect(ok: bool, rows: seq<Store.PromptRow>, total: int)

  /**
   * `_process_single_video`: an invalid file or a raising generation stores
   * nothing; a faulty prompt stops the loop, keeping the rows added before
   * it and leaving the counters as they were; otherwise every non-blank
   * prompt is stored and the counters grow by the number returned and the
   * number stored.
   */
  function VideoEffect(h: Helper, job: Job, world: VideoWorld, video: Video): (e: Effect)
    requires Settles(world.polls)
    ensures e.ok <==> ValidateVideoFile(h.settings, video.filepath, world.file) == ValidVideo
                      && RunSpec(h, world, job).result.Ok?
                      && FirstFault(RunSpec(h, world, job).result.value).None?
    ensures e.ok ==> 0 <= |e.rows| <= e.total
    ensures !e.ok ==> e.total == 0
  {
    if ValidateVideoFile(h.settings, video.filepath, world.file) != ValidVideo then Effect(false, [], 0)
    else
      var run := RunSpec(h, world, job);
      if run.result.Err? then Effect(false, [], 0)
      else
        PromptsEffect(video.id, job, run.result.value)
  }

  /** The effect of the prompt loop over the returned prompts `ps`. */
  function PromptsEffect(id: int, job: Job, ps: seq<Value>): (e: Effect)
    ensures e.ok <==> FirstFault(ps).None?
    ensures e.ok ==> e.rows == StoredRows(id, job, ps, |ps|) && e.total == |ps|
    ensures !e.ok ==> e.rows == StoredRows(id, job, ps, FirstFault(ps).value) && e.total == 0
  {
    match FirstFault(ps)
    case Some(k) => Effect(false, StoredRows(id, job, ps, k), 0)
    case None => Effect(true, StoredRows(id, job, ps, |ps|), |ps|)
  }

  /** Every row a video's processing stores belongs to that video and carries the job's settings. */
  lemma VideoEffectSound(h: Helper, job: Job, world: VideoWorld, video: Video)
    requires Settles(world.polls)
    ensures EffectSound(VideoEffect(h, job, world, video), video.id, job)
  {
    if ValidateVideoFile(h.settings, video.filepath, world.file) == ValidVideo && RunSpec(h, world, job).result.Ok? {
      var ps := RunSpec(h, world, job).result.value;
      if FirstFault(ps).Some? {
        StoredRowsBelong(video.id, job, ps, FirstFault(ps).value);
      } else {
        StoredRowsBelong(video.id, job, ps, |ps|);
      }
    }
  }

  /** An invalid file stores nothing and counts nothing. */
  lemma EffectOfInvalidFile(h: Helper, job: Job, world: VideoWorld, video: Video)
    requires Settles(world.polls)
    requires ValidateVideoFile(h.settings, video.filepath, world.file) != ValidVideo
    ensures VideoEffect(h, job, world, video) == Effect(false, [], 0)
  {
  }

  /** A generation that raises stores nothing and counts nothing. */
  lemma EffectOfRaisedRun(h: Helper, job: Job, world: VideoWorld, video: Video)
    requires Settles(world.polls)
    requires ValidateVideoFile(h.settings, video.filepath, world.file) == ValidVideo
    requires RunSpec(h, world, job).result.Err?
    ensures VideoEffect(h, job, world, video) == Effect(false, [], 0)
  {
  }

  /** A generation that returns `ps` stores the rows of the prompts before the first faulty one. */
  lemma EffectOfPrompts(h: Helper, job: Job, world: VideoWorld, video: Video, ps: seq<Value>)
    requires Settles(world.polls)
    requires ValidateVideoFile(h.settings, video.filepath, world.file) == ValidVideo
    requires RunSpec(h, world, job).result == Ok(ps)
    ensures VideoEffect(h, job, world, video) == PromptsEffect(video.id, job, ps)
  {
  }

  // ---------------------------------------------------------------------
  // _generation_worker

  /** The effect is one that processing a video of that id in that job can have. */
  predicate EffectSound(e: Effect, id: int, job: Job) {
    (e.ok ==> 0 <= |e.rows| <= e.total)
    && (!e.ok ==> e.total == 0)
    && forall k :: 0 <= k < |e.rows| ==> Belongs(e.rows[k], id, job)
  }

  /** One remote world per video of the list, and the service settles in each. */
  predicate WorldsSettle(videos: seq<Video>, worlds: seq<VideoWorld>) {
    |worlds| == |videos| && forall i :: 0 <= i < |worlds| ==> Settles(worlds[i].polls)
  }

  /** The effect of each video of the list, the `i`-th video meeting the world `worlds[i]`. */
  function Effects(h: Helper, job: Job, videos: seq<Video>, worlds: seq<VideoWorld>): (r: seq<Effect>)
    requires WorldsSettle(videos, worlds)
    ensures |r| == |videos|
    ensures forall i :: 0 <= i < |videos| ==> r[i] == VideoEffect(h, job, worlds[i], videos[i])
  {
    seq(|videos|, i requires 0 <= i < |videos| => VideoEffect(h, job, worlds[i], videos[i]))
  }

  /** `e` is what processing `video` against `world` does. */
  predicate IsEffect(e: Effect, h: Helper, job: Job, world: VideoWorld, video: Video) {
    Settles(world.polls) && e == VideoEffect(h, job, world, video)
  }

  /** `effs` are the effects of the videos against their worlds, stated one video at a time. */
  predicate AreEffects(effs: seq<Effect>, h: Helper, job: Job, videos: seq<Video>, worlds: seq<VideoWorld>) {
    |effs| == |videos| == |worlds|
    && forall i {:trigger IsEffect(effs[i], h, job, worlds[i], videos[i])} ::
         0 <= i < |videos| ==> IsEffect(effs[i], h, job, worlds[i], videos[i])
  }

  /** The effects of a worker's videos are all sound. */
  lemma EffectsSound(h: Helper, job: Job, videos: seq<Video>, worlds: seq<VideoWorld>)
    requires WorldsSettle(videos, worlds)
    ensures AllSound(Effects(h, job, videos, worlds), videos, job)
  {
    forall i | 0 <= i < |videos|
      ensures EffectSound(Effects(h, job, videos, worlds)[i], videos[i].id, job)
    {
      VideoEffectSound(h, job, worlds[i], videos[i]);
    }
  }

  /** Every effect of the list is sound for its video. */
  predicate AllSound(effs: seq<Effect>, videos: seq<Video>, job: Job)
    requires |effs| == |videos|
  {
    forall i :: 0 <= i < |videos| ==> EffectSound(effs[i], videos[i].id, job)
  }

  /** The store and the counters as the worker leaves them after some videos. */
  datatype Progress = Progress(status: map<int, string>, rows: seq<Store.PromptRow>, stats: JobStats)

  /** What `_process_single_video` with effect `e` leaves: the rows appended, the video `completed` or `error`, the prompt counters grown on success. */
  function AfterProcessing(video: Video, e: Effect, s: Progress): Progress {
    Progress(Store.UpdateStatus(s.status, video.id, if e.ok then Store.Completed else Store.Error), s.rows + e.rows,
             if e.ok then s.stats.(totalPrompts := s.stats.totalPrompts + e.total,
                                   successfulPrompts := s.stats.successfulPrompts + |e.rows|)
             else s.stats)
  }

  /** One worker iteration with processing effect `e`: apply it, then count the video as processed or failed. */
  function AfterVideo(video: Video, e: Effect, s: Progress): (r: Progress)
    ensures r.rows == s.rows + e.rows
    ensures r.status.Keys == s.status.Keys
    ensures video.id in s.status ==> r.status[video.id] == if e.ok then Store.Completed else Store.Error
    ensures forall id :: id in s.status && id != video.id ==> r.status[id] == s.status[id]
    ensures r.stats.totalVideos == s.stats.totalVideos
    ensures r.stats.processedVideos == s.stats.processedVideos + (if e.ok then 1 else 0)
    ensures r.stats.failedVideos == s.stats.failedVideos + (if e.ok then 0 else 1)
  {
    if e.ok then
      Progress(Store.UpdateStatus(s.status, video.id, Store.Completed), s.rows + e.rows,
               s.stats.(processedVideos := s.stats.processedVideos + 1,
                        totalPrompts := s.stats.totalPrompts + e.total,
                        successfulPrompts := s.stats.successfulPrompts + |e.rows|))
    else
      Progress(Store.UpdateStatus(s.status, video.id, Store.Error), s.rows + e.rows,
               s.stats.(failedVideos := s.stats.failedVideos + 1))
  }

  /** The worker's state after the first `n` iterations, starting from `start`. */
  function WorkerAfter(videos: seq<Video>, effs: seq<Effect>, start: Progress, n: nat): (r: Progress)
    requires n <= |videos| == |effs|
    ensures |start.rows| <= |r.rows| && r.rows[..|start.rows|] == start.rows
    ensures r.status.Keys == start.status.Keys
    ensures r.stats.processedVideos + r.stats.failedVideos == start.stats.processedVideos + start.stats.failedVideos + n
  {
    if n == 0 then start
    else AfterVideo(videos[n - 1], effs[n - 1], WorkerAfter(videos, effs, start, n - 1))
  }

  /** One more iteration applies the next video's effect. */
  lemma WorkerAfterStep(videos: seq<Video>, effs: seq<Effect>, start: Progress, i: nat)
    requires i < |videos| == |effs|
    ensures WorkerAfter(videos, effs, start, i + 1) == AfterVideo(videos[i], effs[i], WorkerAfter(videos, effs, start, i))
  {
  }

  /** The statuses after the first `k` videos have been marked `processing`. */
  function MarkedAll(m: map<int, string>, videos: seq<Video>, k: nat): map<int, string>
    requires k <= |videos|
  {
    if k == 0 then m else Store.UpdateStatus(MarkedAll(m, videos, k - 1), videos[k - 1].id, Store.Processing)
  }

  /** A worker iteration is `_process_single_video` followed by the worker's own counting and, on failure, a second `error` mark. */
  lemma ProcessedThenCounted(video: Video, e: Effect, s: Progress)
    ensures var t := AfterProcessing(video, e, s);
            AfterVideo(video, e, s)
            == if e.ok then t.(stats := t.stats.(processedVideos := t.stats.processedVideos + 1))
               else Progress(Store.UpdateStatus(t.status, video.id, Store.Error), t.rows,
                             t.stats.(failedVideos := t.stats.failedVideos + 1))
  {
    Store.UpdateStatusAgain(s.status, video.id, Store.Error);
  }

  /** The ids of the first `k` videos. */
  function IdsOf(videos: seq<Video>, k: nat): set<int>
    requires k <= |videos|
  {
    set j | 0 <= j < k :: videos[j].id
  }

  /** Marking sets exactly the stored videos of the list to `processing`. */
  lemma {:induction false} MarkedAllSpec(m: map<int, string>, videos: seq<Video>, k: nat)
    requires k <= |videos|
    ensures MarkedAll(m, videos, k).Keys == m.Keys
    ensures forall id :: id in m ==>
              MarkedAll(m, videos, k)[id] == if id in IdsOf(videos, k) then Store.Processing else m[id]
  {
    if k > 0 {
      MarkedAllSpec(m, videos, k - 1);
      assert IdsOf(videos, k) == IdsOf(videos, k - 1) + {videos[k - 1].id};
    }
  }

  /** How the worker returns. */
  datatype WorkerOutcome = NoVideos | Cancelled | Finished(stats: JobStats)

  /** Each iterated video is counted exactly once, and the increment of stored prompts never exceeds that of returned ones. */
  lemma {:induction false} WorkerCounts(videos: seq<Video>, effs: seq<Effect>, job: Job, start: Progress, n: nat)
    requires n <= |videos| == |effs| && AllSound(effs, videos, job)
    ensures var fin := WorkerAfter(videos, effs, start, n).stats;
            fin.processedVideos + fin.failedVideos == start.stats.processedVideos + start.stats.failedVideos + n
            && fin.processedVideos >= start.stats.processedVideos
            && fin.failedVideos >= start.stats.failedVideos
            && fin.totalVideos == start.stats.totalVideos
            && 0 <= fin.successfulPrompts - start.stats.successfulPrompts <= fin.totalPrompts - start.stats.totalPrompts
  {
    if n > 0 {
      WorkerCounts(videos, effs, job, start, n - 1);
      assert EffectSound(effs[n - 1], videos[n - 1].id, job);
    }
  }

  /** A job started with fresh counters keeps them consistent however far the worker gets. */
  lemma WorkerKeepsConsistent(videos: seq<Video>, effs: seq<Effect>, job: Job, start: Progress, n: nat)
    requires n <= |videos| == |effs| && AllSound(effs, videos, job)
    requires start.stats == NoStats.(totalVideos := |videos|)
    ensures Consistent(WorkerAfter(videos, effs, start, n).stats)
  {
    WorkerCounts(videos, effs, job, start, n);
  }

  /** Rows are only appended, and every new row belongs to one of the iterated videos and carries the job's settings. */
  lemma {:induction false} WorkerRows(videos: seq<Video>, effs: seq<Effect>, job: Job, start: Progress, n: nat)
    requires n <= |videos| == |effs| && AllSound(effs, videos, job)
    ensures var fin := WorkerAfter(videos, effs, start, n).rows;
            |start.rows| <= |fin| && fin[..|start.rows|] == start.rows
            && forall k :: |start.rows| <= k < |fin| ==>
                 exists j :: 0 <= j < n && Belongs(fin[k], videos[j].id, job)
  {
    if n > 0 {
      WorkerRows(videos, effs, job, start, n - 1);
      var before := WorkerAfter(videos, effs, start, n - 1).rows;
      var e := effs[n - 1];
      assert EffectSound(e, videos[n - 1].id, job);
      var fin := WorkerAfter(videos, effs, start, n).rows;
      assert fin == before + e.rows;
      forall k | |start.rows| <= k < |fin|
        ensures exists j :: 0 <= j < n && Belongs(fin[k], videos[j].id, job)
      {
        if k < |before| {
          assert fin[k] == before[k];
        } else {
          assert fin[k] == e.rows[k - |before|];
          assert Belongs(fin[k], videos[n - 1].id, job);
        }
      }
    }
  }

  /** The ids of a list are pairwise distinct (the `id` primary key). */
  predicate DistinctIds(videos: seq<Video>) {
    forall i, j :: 0 <= i < j < |videos| ==> videos[i].id != videos[j].id
  }

  /** After `n` iterations the iterated videos are `completed` or `error` and the others are untouched. */
  lemma {:induction false} WorkerStatuses(videos: seq<Video>, effs: seq<Effect>, start: Progress, n: nat)
    requires n <= |videos| == |effs| && DistinctIds(videos)
    ensures var fin := WorkerAfter(videos, effs, start, n).status;
            fin.Keys == start.status.Keys
            && (forall j :: 0 <= j < n && videos[j].id in start.status ==>
                  fin[videos[j].id] == Store.Completed || fin[videos[j].id] == Store.Error)
            && (forall j :: n <= j < |videos| && videos[j].id in start.status ==>
                  fin[videos[j].id] == start.status[videos[j].id])
  {
    if n > 0 {
      WorkerStatuses(videos, effs, start, n - 1);
    }
  }

  /**
   * After a cancellation that the worker sees at its `n`-th check, the videos
   * before it are `completed` or `error` and those from it on stay `processing`.
   */
  lemma CancelledStatuses(videos: seq<Video>, effs: seq<Effect>,
                          m: map<int, string>, rows: seq<Store.PromptRow>, stats: JobStats, n: nat)
    requires n <= |videos| == |effs| && DistinctIds(videos)
    ensures var fin := WorkerAfter(videos, effs, Progress(MarkedAll(m, videos, |videos|), rows, stats), n).status;
            fin.Keys == m.Keys
            && (forall j :: 0 <= j < n && videos[j].id in m ==>
                  fin[videos[j].id] == Store.Completed || fin[videos[j].id] == Store.Error)
            && (forall j :: n <= j < |videos| && videos[j].id in m ==> fin[videos[j].id] == Store.Processing)
  {
    MarkedAllSpec(m, videos, |videos|);
    WorkerStatuses(videos, effs, Progress(MarkedAll(m, videos, |videos|), rows, stats), n);
    forall j | n <= j < |videos| && videos[j].id in m
      ensures videos[j].id in IdsOf(videos, |videos|)
    {
    }
  }

  // ---------------------------------------------------------------------
  // get_pending_videos_count, reset_video_status, cleanup_failed_videos

  /** The statuses after the first `k` ids of `ids` have been set to `s`. */
  function ResetAll(m: map<int, string>, ids: seq<int>, s: string, k: nat): map<int, string>
    requires k <= |ids|
  {
    if k == 0 then m else Store.UpdateStatus(ResetAll(m, ids, s, k - 1), ids[k - 1], s)
  }

  /** Resetting sets exactly the stored videos named in the list to `s`. */
  lemma {:induction false} ResetAllSpec(m: map<int, string>, ids: seq<int>, s: string, k: nat)
    requires k <= |ids|
    ensures ResetAll(m, ids, s, k).Keys == m.Keys
    ensures forall id :: id in m ==> ResetAll(m, ids, s, k)[id] == if id in ids[..k] then s else m[id]
  {
    if k > 0 {
      ResetAllSpec(m, ids, s, k - 1);
      assert ids[..k] == ids[..k - 1] + [ids[k - 1]];
    }
  }

  /** The statuses after every `error` video went back to `pending`. */
  function Cleaned(m: map<int, string>): (r: map<int, string>)
    ensures r.Keys == m.Keys
    ensures forall id :: id in m ==> r[id] == if m[id] == Store.Error then Store.Pending else m[id]
  {
    map id | id in m :: if m[id] == Store.Error then Store.Pending else m[id]
  }

  /** After a cleanup no video is in error, and the pending videos are the old pending ones together with the old failed ones. */
  lemma CleanedCounts(m: map<int, string>)
    ensures Store.IdsWith(Cleaned(m), Store.Error) == {}
    ensures Store.IdsWith(Cleaned(m), Store.Pending) == Store.IdsWith(m, Store.Pending) + Store.IdsWith(m, Store.Error)
    ensures |Store.IdsWith(Cleaned(m), Store.Pending)| == |Store.IdsWith(m, Store.Pending)| + |Store.IdsWith(m, Store.Error)|
  {
    var p := Store.IdsWith(m, Store.Pending);
    var e := Store.IdsWith(m, Store.Error);
    assert p * e == {} by {
      forall id | id in p
        ensures id !in e
      {
        PendingIsNotError();
      }
    }
    forall id | id in Store.IdsWith(Cleaned(m), Store.Error)
      ensures false
    {
      PendingIsNotError();
    }
    DisjointUnionSize(p, e);
  }

  lemma PendingIsNotError()
    ensures Store.Pending != Store.Error
  {
    assert Store.Pending[0] != Store.Error[0];
  }

  lemma {:induction false} DisjointUnionSize<T>(a: set<T>, b: set<T>)
    requires a * b == {}
    ensures |a + b| == |a| + |b|
    decreases |b|
  {
    if b != {} {
      var x :| x in b;
      DisjointUnionSize(a, b - {x});
      assert a + b == (a + (b - {x})) + {x};
    }
  }

  // ---------------------------------------------------------------------
  // validate_generation_params

  const RequiredKeys: seq<string> := ["videos", "prompts_per_video", "complexity_level", "aspect_ratio", "variation_level"]

  /** The first key of `keys` missing from `params`, if any. */
  function FirstMissing(params: map<string, Value>, keys: seq<string>): (r: Option<string>)
    ensures r.Some? ==> r.value in keys && r.value !in params
    ensures r.Some? ==> exists i :: 0 <= i < |keys| && keys[i] == r.value && forall j :: 0 <= j < i ==> keys[j] in params
    ensures r.None? ==> forall j :: 0 <= j < |keys| ==> keys[j] in params
  {
    if keys == [] then None
    else if keys[0] !in params then Some(keys[0])
    else match FirstMissing(params, keys[1..])
         case None => None
         case Some(k) =>
           assert forall j :: 1 <= j < |keys| ==> keys[j] == keys[1..][j - 1];
           Some(k)
  }

  /** The answer of `validate_generation_params`. */
  datatype ParamVerdict =
    | ParamsValid
    | MissingParameter(key: string)
    | NoVideosProvided
    | InvalidPromptsPerVideo
    | InvalidComplexity(lo: Value, hi: Value)
    | InvalidVariation(lo: Value, hi: Value)
    | InvalidAspectRatio(valid: Value)
    | KeyNotConfigured

  /** What escapes `validate_generation_params`: a KeyError of a range lookup, or a TypeError of a comparison or membership test. */
  datatype ParamFault = LookupRaised(cause: ConfigError) | NotComparable

  /** `lo <= x <= hi` on a Python int `x`: the second comparison runs only when the first holds; a non-number bound raises. */
  function InRange(lo: Value, x: int, hi: Value): (r: Result<bool, ParamFault>)
    ensures r == Ok(true) <==> IsPyInt(lo) && IsPyInt(hi) && AsInt(lo) <= x <= AsInt(hi)
    ensures r.Err? <==> !IsPyInt(lo) || (AsInt(lo) <= x && !IsPyInt(hi))
  {
    if !IsPyInt(lo) then Err(NotComparable)
    else if !(AsInt(lo) <= x) then Ok(false)
    else if !IsPyInt(hi) then Err(NotComparable)
    else Ok(x <= AsInt(hi))
  }

  /** `x in container`: list equality, substring, dict key; any other container, or an unhashable key, raises. */
  function PyContains(container: Value, x: Value): (r: Result<bool, ParamFault>)
    ensures container.VList? ==> r == Ok(PyIn(x, container.items))
    ensures r.Err? <==> (!(container.VList? || container.VStr? || container.VDict?)
                         || (container.VStr? && !x.VStr?)
                         || (container.VDict? && (x.VList? || x.VDict?)))
  {
    match container
    case VList(xs) => Ok(PyIn(x, xs))
    case VStr(s) => if x.VStr? then Ok(Contains(s, x.s)) else Err(NotComparable)
    case VDict(m) => if x.VStr? then Ok(x.s in m) else if x.VList? || x.VDict? then Err(NotComparable) else Ok(false)
    case _ => Err(NotComparable)
  }

  /** An entry of a list is `in` that list, since every value is `==` to itself. */
  lemma ListedIsContained(xs: seq<Value>, i: int)
    requires 0 <= i < |xs|
    ensures PyContains(VList(xs), xs[i]) == Ok(true)
  {
    PyEqRefl(xs[i]);
  }

  /** The rules that do not consult the configuration: the keys, a non-empty list of videos, at least one prompt per video. */
  predicate BasicsHold(params: map<string, Value>) {
    HasRequiredKeys(params)
    && Truthy(params["videos"]) && params["videos"].VList?
    && AtLeast(params["prompts_per_video"], 1)
  }

  /** Every required parameter is present. */
  predicate HasRequiredKeys(params: map<string, Value>) {
    "videos" in params && "prompts_per_video" in params && "complexity_level" in params
    && "aspect_ratio" in params && "variation_level" in params
  }

  /** The required keys, checked one by one in their order, are those of `HasRequiredKeys`. */
  lemma RequiredKeysPresent(params: map<string, Value>)
    ensures (forall j :: 0 <= j < |RequiredKeys| ==> RequiredKeys[j] in params) <==> HasRequiredKeys(params)
  {
    assert RequiredKeys[0] == "videos" && RequiredKeys[1] == "prompts_per_video" && RequiredKeys[2] == "complexity_level";
    assert RequiredKeys[3] == "aspect_ratio" && RequiredKeys[4] == "variation_level";
  }

  /** A parameter that must be a Python int with at least the value `lo`. */
  predicate AtLeast(v: Value, lo: int) {
    IsPyInt(v) && AsInt(v) >= lo
  }

  // ---------------------------------------------------------------------
  // _get_completion_message

  /** `_get_completion_message` for the counters `s`. */
  function CompletionMessage(s: JobStats): (r: string)
    ensures StartsWith(r, "Successfully") <==> s.failedVideos == 0
  {
    var counts := IntToString(s.successfulPrompts) + " prompts from " + IntToString(s.processedVideos) + " videos";
    if s.failedVideos == 0 then
      var m := "Successfully generated " + counts;
      assert m[..12] == "Successfully";
      m
    else
      var m := "Generated " + counts + ". " + IntToString(s.failedVideos) + " videos failed.";
      assert m[0] == 'G';
      m
  }

  /**
   * The message gives the counters away: two jobs with the same message succeeded on the same
   * number of prompts from the same number of videos, and failed on the same number of videos.
   */
  lemma CompletionMessageDetermines(s: JobStats, t: JobStats)
    requires CompletionMessage(s) == CompletionMessage(t)
    ensures s.successfulPrompts == t.successfulPrompts && s.processedVideos == t.processedVideos
    ensures s.failedVideos == t.failedVideos
  {
    var head, tail := MessageShape(s);
    var head', tail' := MessageShape(t);
    assert head == head';
    var a, b := IntToString(s.successfulPrompts), IntToString(s.processedVideos);
    var a', b' := IntToString(t.successfulPrompts), IntToString(t.processedVideos);
    NoSpaceInNumber(s.successfulPrompts); NoSpaceInNumber(t.successfulPrompts);
    NoSpaceInNumber(s.processedVideos); NoSpaceInNumber(t.processedVideos);
    DropHead(head, a + (" prompts from " + (b + (" videos" + tail))), a' + (" prompts from " + (b' + (" videos" + tail'))));
    SplitBeforeSpace(a, " prompts from " + (b + (" videos" + tail)), a', " prompts from " + (b' + (" videos" + tail')));
    DropHead(" prompts from ", b + (" videos" + tail), b' + (" videos" + tail'));
    SplitBeforeSpace(b, " videos" + tail, b', " videos" + tail');
    IntToStringInjective(s.successfulPrompts, t.successfulPrompts);
    IntToStringInjective(s.processedVideos, t.processedVideos);
    if s.failedVideos != 0 {
      var c, c' := IntToString(s.failedVideos), IntToString(t.failedVideos);
      NoSpaceInNumber(s.failedVideos); NoSpaceInNumber(t.failedVideos);
      DropHead(" videos. ", c + " videos failed.", c' + " videos failed.");
      SplitBeforeSpace(c, " videos failed.", c', " videos failed.");
      IntToStringInjective(s.failedVideos, t.failedVideos);
    }
  }

  /** The message, regrouped: a head that tells success from failure, the two counts, then the failure tail. */
  lemma MessageShape(s: JobStats) returns (head: string, tail: string)
    ensures head == if s.failedVideos == 0 then "Successfully generated " else "Generated "
    ensures tail == if s.failedVideos == 0 then [] else ". " + IntToString(s.failedVideos) + " videos failed."
    ensures CompletionMessage(s)
            == head + (IntToString(s.successfulPrompts) + (" prompts from " + (IntToString(s.processedVideos) + (" videos" + tail))))
    ensures s.failedVideos != 0 ==> " videos" + tail == " videos. " + (IntToString(s.failedVideos) + " videos failed.")
  {
    var a, b := IntToString(s.successfulPrompts), IntToString(s.processedVideos);
    if s.failedVideos == 0 {
      head, tail := "Successfully generated ", [];
      RegroupCounts(head, a, " prompts from ", b, " videos", tail);
    } else {
      var c := IntToString(s.failedVideos);
      head, tail := "Generated ", ". " + c + " videos failed.";
      RegroupCounts(head, a, " prompts from ", b, " videos", tail);
      RegroupTail(" videos", ". ", c, " videos failed.");
    }
  }

  lemma RegroupCounts(h: string, a: string, p: string, b: string, v: string, t: string)
    ensures h + (a + p + b + v) + t == h + (a + (p + (b + (v + t))))
    ensures t == [] ==> h + (a + p + b + v) == h + (a + (p + (b + (v + t))))
  {
  }

  lemma RegroupTail(v: string, d: string, c: string, f: string)
    ensures v + (d + c + f) == (v + d) + (c + f)
  {
  }

  // ---------------------------------------------------------------------

  datatype StartError = AlreadyInProgress

  /** The generator: the job flag, the worker id and the counters, over the store, the helper and the configuration. */
  class PromptGenerator {
    const config: ConfigManager
    const db: Store.VideoStore
    const helper: Helper
    var isGenerating: bool
    var currentWorkerId: Option<string>
    var stats: JobStats

    constructor(config: ConfigManager, db: Store.VideoStore, helper: Helper)
      ensures this.config == config && this.db == db && this.helper == helper
      ensures !isGenerating && currentWorkerId == None && stats == NoStats
    {
      this.config := config;
      this.db := db;
      this.helper := helper;
      isGenerating := false;
      currentWorkerId := None;
      stats := NoStats;
    }

    /**
     * `start_generation`, `workerId` being the id the thread manager hands
     * out. The flag is set before the worker body runs.
     */
    method StartGeneration(p: Params, workerId: string) returns (r: Result<string, StartError>)
      modifies this
      ensures old(isGenerating) ==> r == Err(AlreadyInProgress) && isGenerating
                                    && stats == old(stats) && currentWorkerId == old(currentWorkerId)
      ensures !old(isGenerating) ==> r == Ok(workerId) && isGenerating && currentWorkerId == Some(workerId)
                                     && stats == NoStats.(totalVideos := |p.videos|)
      ensures !old(isGenerating) ==> Consistent(stats)
    {
      if isGenerating {
        return Err(AlreadyInProgress);
      }
      stats := NoStats.(totalVideos := |p.videos|);
      currentWorkerId := Some(workerId);
      isGenerating := true;
      return Ok(workerId);
    }

    /** `current_worker_id` is truthy: set and non-empty. */
    predicate HasWorker()
      reads this
    {
      currentWorkerId.Some? && currentWorkerId.value != ""
    }

    /** `stop_generation`, `stopped` being what the thread manager answers. */
    method StopGeneration(stopped: bool) returns (r: bool)
      modifies this
      ensures !old(isGenerating) || !old(HasWorker()) ==>
                !r && isGenerating == old(isGenerating) && currentWorkerId == old(currentWorkerId)
      ensures old(isGenerating) && old(HasWorker()) ==>
                r == stopped
                && (stopped ==> !isGenerating && currentWorkerId == None)
                && (!stopped ==> isGenerating && currentWorkerId == old(currentWorkerId))
      ensures stats == old(stats)
    {
      if !isGenerating || !HasWorker() {
        return false;
      }
      if stopped {
        isGenerating := false;
        currentWorkerId := None;
      }
      return stopped;
    }

    /**
     * The loop of `_process_single_video` over the returned prompts: store
     * each non-blank string trimmed; false when a truthy non-string makes
     * `strip` raise, with the rows stored before it kept.
     */
    method StorePrompts(video: Video, job: Job, prompts: seq<Value>) returns (ok: bool, successful: nat)
      modifies db
      ensures ok == FirstFault(prompts).None?
      ensures ok ==> db.rows == old(db.rows) + StoredRows(video.id, job, prompts, |prompts|)
                     && successful == |StoredRows(video.id, job, prompts, |prompts|)|
      ensures !ok ==> db.rows == old(db.rows) + StoredRows(video.id, job, prompts, FirstFault(prompts).value)
      ensures db.status == old(db.status)
    {
      ghost var base := db.rows;
      ghost var stored: seq<Store.PromptRow> := [];
      successful := 0;
      var i := 0;
      while i < |prompts|
        invariant 0 <= i <= |prompts|
        invariant forall j :: 0 <= j < i ==> !Faulty(prompts[j])
        invariant stored == StoredRows(video.id, job, prompts, i)
        invariant db.rows == base + stored
        invariant successful == |stored|
        invariant db.status == old(db.status)
      {
        var faulty, added := StorePrompt(video, job, prompts[i]);
        if faulty {
          FirstFaultAt(prompts, i);
          return false, successful;
        }
        assert (base + stored) + RowOf(video.id, job, prompts[i]) == base + (stored + RowOf(video.id, job, prompts[i]));
        stored := stored + RowOf(video.id, job, prompts[i]);
        successful := successful + added;
        i := i + 1;
      }
      NoFault(prompts);
      return true, successful;
    }

    /** One iteration of that loop: a faulty prompt stores nothing; any other one stores its row, if any. */
    method StorePrompt(video: Video, job: Job, p: Value) returns (faulty: bool, added: nat)
      modifies db
      ensures faulty == Faulty(p)
      ensures db.rows == old(db.rows) + (if faulty then [] else RowOf(video.id, job, p))
      ensures added == |RowOf(video.id, job, p)|
      ensures db.status == old(db.status)
    {
      if Truthy(p) {
        if !p.VStr? {
          return true, 0;
        }
        if Strip(p.s) != "" {
          db.AddPrompt(Store.PromptRow(video.id, Strip(p.s), job.complexity, job.aspectRatio, job.variation));
          return false, 1;
        }
      }
      return false, 0;
    }

    /** `_process_single_video`; true when it returns, false when it raises (after marking the video `error`). */
    method ProcessSingleVideo(video: Video, job: Job, world: VideoWorld, ghost e: Effect) returns (ok: bool)
      requires Settles(world.polls)
      requires e == VideoEffect(helper, job, world, video)
      modifies this, db
      ensures ok == e.ok
      ensures Progress(db.status, db.rows, stats) == AfterProcessing(video, e, old(Progress(db.status, db.rows, stats)))
      ensures isGenerating == old(isGenerating) && currentWorkerId == old(currentWorkerId)
    {
      var check := ValidateVideoFile(helper.settings, video.filepath, world.file);
      if check != ValidVideo {
        EffectOfInvalidFile(helper, job, world, video);
        db.UpdateVideoStatus(video.id, Store.Error);
        return false;
      }
      var run := GenerateMultiplePrompts(helper, world, job);
      if run.result.Err? {
        EffectOfRaisedRun(helper, job, world, video);
        db.UpdateVideoStatus(video.id, Store.Error);
        return false;
      }
      EffectOfPrompts(helper, job, world, video, run.result.value);
      ok := RecordPrompts(video, job, run.result.value);
    }

    /**
     * The part of `_process_single_video` after a successful generation:
     * store the prompts, count them, and mark the video `completed`, or
     * `error` when the prompt loop raises.
     */
    method RecordPrompts(video: Video, job: Job, prompts: seq<Value>) returns (ok: bool)
      modifies this, db
      ensures ok == PromptsEffect(video.id, job, prompts).ok
      ensures Progress(db.status, db.rows, stats)
              == AfterProcessing(video, PromptsEffect(video.id, job, prompts), old(Progress(db.status, db.rows, stats)))
      ensures isGenerating == old(isGenerating) && currentWorkerId == old(currentWorkerId)
    {
      var stored, successful := StorePrompts(video, job, prompts);
      if !stored {
        db.UpdateVideoStatus(video.id, Store.Error);
        return false;
      }
      stats := stats.(totalPrompts := stats.totalPrompts + |prompts|, successfulPrompts := stats.successfulPrompts + successful);
      db.UpdateVideoStatus(video.id, Store.Completed);
      return true;
    }

    /** The first loop of `_generation_worker`: every video of the list is marked `processing`. */
    method MarkProcessing(videos: seq<Video>)
      modifies db
      ensures db.status == MarkedAll(old(db.status), videos, |videos|)
      ensures db.rows == old(db.rows)
    {
      var k := 0;
      while k < |videos|
        invariant 0 <= k <= |videos|
        invariant db.status == MarkedAll(old(db.status), videos, k)
        invariant db.rows == old(db.rows)
      {
        db.UpdateVideoStatus(videos[k].id, Store.Processing);
        k := k + 1;
      }
    }

    /** One iteration of the main loop of `_generation_worker`: process the video and count it. */
    method WorkerStep(videos: seq<Video>, job: Job, worlds: seq<VideoWorld>, i: nat, ghost effs: seq<Effect>)
      requires i < |videos|
      requires AreEffects(effs, helper, job, videos, worlds)
      modifies this, db
      ensures Progress(db.status, db.rows, stats) == AfterVideo(videos[i], effs[i], old(Progress(db.status, db.rows, stats)))
      ensures isGenerating == old(isGenerating) && currentWorkerId == old(currentWorkerId)
    {
      var video := videos[i];
      ghost var e := effs[i];
      assert IsEffect(e, helper, job, worlds[i], video);
      ghost var before := Progress(db.status, db.rows, stats);
      var ok := ProcessSingleVideo(video, job, worlds[i], e);
      if ok {
        stats := stats.(processedVideos := stats.processedVideos + 1);
      } else {
        stats := stats.(failedVideos := stats.failedVideos + 1);
        Store.UpdateStatusAgain(before.status, video.id, Store.Error);
        db.UpdateVideoStatus(video.id, Store.Error);
      }
      ProcessedThenCounted(video, e, before);
    }

    /**
     * `_generation_worker`. `stopAt` is the iteration at whose check the
     * worker first sees the flag cleared by a concurrent successful
     * `stop_generation` (past the end of the list: no stop at all; exactly
     * at the end: a stop after the last video, before the final check).
     */
    method RunWorker(p: Params, worlds: seq<VideoWorld>, stopAt: nat) returns (outcome: WorkerOutcome)
      requires isGenerating
      requires WorldsSettle(p.videos, worlds)
      modifies this, db
      ensures p.videos == [] ==> outcome == NoVideos && db.status == old(db.status) && db.rows == old(db.rows)
                                 && stats == old(stats)
      ensures p.videos != [] ==>
                var fin := WorkerAfter(p.videos, Effects(helper, p.job, p.videos, worlds),
                                       Progress(MarkedAll(old(db.status), p.videos, |p.videos|), old(db.rows), old(stats)),
                                       Min(stopAt, |p.videos|));
                db.status == fin.status && db.rows == fin.rows && stats == fin.stats
                && outcome == if stopAt > |p.videos| then Finished(fin.stats) else Cancelled
      ensures !isGenerating && currentWorkerId == None
    {
      if |p.videos| == 0 {
        isGenerating := false;
        currentWorkerId := None;
        return NoVideos;
      }
      MarkProcessing(p.videos);
      ghost var effs := Effects(helper, p.job, p.videos, worlds);
      var finished := ProcessVideos(p.videos, p.job, worlds, stopAt, effs);
      isGenerating := false;
      currentWorkerId := None;
      if finished {
        return Finished(stats);
      }
      return Cancelled;
    }

    /**
     * The main loop of `_generation_worker` and the flag check after it,
     * `effs` being the processing effects of the videos: true when the flag
     * is still set at the end.
     */
    method ProcessVideos(videos: seq<Video>, job: Job, worlds: seq<VideoWorld>, stopAt: nat, ghost effs: seq<Effect>)
      returns (finished: bool)
      requires isGenerating
      requires AreEffects(effs, helper, job, videos, worlds)
      modifies this, db
      ensures Progress(db.status, db.rows, stats)
              == WorkerAfter(videos, effs, old(Progress(db.status, db.rows, stats)), Min(stopAt, |videos|))
      ensures finished <==> stopAt > |videos|
    {
      ghost var start := Progress(db.status, db.rows, stats);
      var i := 0;
      while i < |videos|
        invariant 0 <= i <= |videos| && i <= stopAt
        invariant isGenerating
        invariant Progress(db.status, db.rows, stats) == WorkerAfter(videos, effs, start, i)
      {
        if i == stopAt {
          isGenerating := false;
          currentWorkerId := None;
        }
        if !isGenerating {
          break;
        }
        WorkerAfterStep(videos, effs, start, i);
        WorkerStep(videos, job, worlds, i, effs);
        i := i + 1;
      }
      if isGenerating && stopAt == |videos| {
        isGenerating := false;
        currentWorkerId := None;
      }
      return isGenerating;
    }

    /** `get_pending_videos_count` */
    function PendingVideosCount(): (r: nat)
      reads this, db
      ensures r == |Store.IdsWith(db.status, Store.Pending)|
      ensures r <= |db.status.Keys|
    {
      db.CountWith(Store.Pending)
    }

    /** `reset_video_status(video_ids, status)` */
    method ResetVideoStatus(ids: seq<int>, s: string)
      modifies db
      ensures db.status == ResetAll(old(db.status), ids, s, |ids|)
      ensures db.rows == old(db.rows)
    {
      var i := 0;
      while i < |ids|
        invariant 0 <= i <= |ids|
        invariant db.status == ResetAll(old(db.status), ids, s, i)
        invariant db.rows == old(db.rows)
      {
        db.UpdateVideoStatus(ids[i], s);
        i := i + 1;
      }
    }

    /** `cleanup_failed_videos`: every `error` video goes back to `pending`; the answer is how many did. */
    method CleanupFailedVideos() returns (count: nat)
      modifies db
      ensures db.status == Cleaned(old(db.status))
      ensures count == |Store.IdsWith(old(db.status), Store.Error)|
      ensures db.rows == old(db.rows)
    {
      var failed := Store.IdsWith(db.status, Store.Error);
      var todo := failed;
      count := 0;
      while todo != {}
        invariant todo <= failed
        invariant count + |todo| == |failed|
        invariant db.status.Keys == old(db.status).Keys
        invariant forall id :: id in db.status ==>
                    db.status[id] == if id in failed && id !in todo then Store.Pending else old(db.status)[id]
        invariant db.rows == old(db.rows)
        decreases |todo|
      {
        Store.NonEmptyHasElement(todo);
        var id :| id in todo;
        db.UpdateVideoStatus(id, Store.Pending);
        todo := todo - {id};
        count := count + 1;
      }
      forall id | id in db.status
        ensures db.status[id] == Cleaned(old(db.status))[id]
      {
        assert id in failed <==> old(db.status)[id] == Store.Error;
      }
    }

    /** The rules of `validate_generation_params` all pass, `env` being `GENAI_API_KEY` in the environment. */
    predicate ParamsAcceptable(params: map<string, Value>, env: string)
      reads config
    {
      BasicsHold(params) && SettingsAcceptable(params, env)
    }

    /** The rules that consult the configuration: both ranges, the aspect ratio list and the API key. */
    predicate SettingsAcceptable(params: map<string, Value>, env: string)
      requires HasRequiredKeys(params)
      reads config
    {
      ComplexityHolds(params) && VariationHolds(params) && AspectAccepted(params["aspect_ratio"])
      && config.GetApiKey(env).Ok?
    }

    /** The complexity rule: an int within the configured complexity range. */
    predicate ComplexityHolds(params: map<string, Value>)
      requires HasRequiredKeys(params)
      reads config
    {
      RangeHolds(params["complexity_level"], "generation.min_complexity_level", "generation.max_complexity_level")
    }

    /** The variation rule: an int within the configured variation range. */
    predicate VariationHolds(params: map<string, Value>)
      requires HasRequiredKeys(params)
      reads config
    {
      RangeHolds(params["variation_level"], "generation.min_variation_level", "generation.max_variation_level")
    }

    /** The configured list of aspect ratios can be read and contains `v`. */
    predicate AspectAccepted(v: Value)
      reads config
    {
      config.Get("generation.available_aspect_ratios", VNull).Ok?
      && PyContains(config.Get("generation.available_aspect_ratios", VNull).value, v) == Ok(true)
    }

    /** An int parameter within the configured inclusive range. */
    predicate RangeHolds(v: Value, loPath: string, hiPath: string)
      reads config
    {
      IsPyInt(v)
      && config.Get(loPath, VNull).Ok? && config.Get(hiPath, VNull).Ok?
      && InRange(config.Get(loPath, VNull).value, AsInt(v), config.Get(hiPath, VNull).value) == Ok(true)
    }

    /** `get_complexity_range()` and the like: both lookups, the lower bound first. */
    function Range(loPath: string, hiPath: string): (r: Result<(Value, Value), ParamFault>)
      reads config
      ensures r.Ok? <==> config.Get(loPath, VNull).Ok? && config.Get(hiPath, VNull).Ok?
      ensures r.Ok? ==> r.value == (config.Get(loPath, VNull).value, config.Get(hiPath, VNull).value)
    {
      match config.Get(loPath, VNull)
      case Err(e) => Err(LookupRaised(e))
      case Ok(lo) =>
        match config.Get(hiPath, VNull)
        case Err(e) => Err(LookupRaised(e))
        case Ok(hi) => Ok((lo, hi))
    }

    /**
     * `validate_generation_params`: the first failing rule, in the source's
     * order, or valid; a missing range key or an incomparable value raises.
     */
    function ValidateGenerationParams(params: map<string, Value>, env: string): (r: Result<ParamVerdict, ParamFault>)
      reads config
      ensures r == Ok(ParamsValid) <==> ParamsAcceptable(params, env)
      ensures r.Ok? && r.value.MissingParameter? ==> r.value.key in RequiredKeys && r.value.key !in params
      ensures r.Ok? && r.value.MissingParameter? ==> FirstMissing(params, RequiredKeys) == Some(r.value.key)
      ensures (r.Ok? && !r.value.MissingParameter?) || r.Err? ==> HasRequiredKeys(params)
      ensures r.Ok? && r.value.NoVideosProvided? ==> !(Truthy(params["videos"]) && params["videos"].VList?)
      ensures r.Ok? && r.value.InvalidPromptsPerVideo? ==>
                Truthy(params["videos"]) && params["videos"].VList? && !AtLeast(params["prompts_per_video"], 1)
      ensures !BasicsHold(params) ==> r.Ok? && (r.value.MissingParameter? || r.value.NoVideosProvided? || r.value.InvalidPromptsPerVideo?)
      ensures BasicsHold(params) ==> r == ValidateSettings(params, env)
    {
      RequiredKeysPresent(params);
      match FirstMissing(params, RequiredKeys)
      case Some(k) => Ok(MissingParameter(k))
      case None =>
        var videos := params["videos"];
        if !Truthy(videos) || !videos.VList? then Ok(NoVideosProvided)
        else if !AtLeast(params["prompts_per_video"], 1) then Ok(InvalidPromptsPerVideo)
        else ValidateSettings(params, env)
    }

    /** The rules of `validate_generation_params` that consult the configuration, from the complexity range on. */
    function ValidateSettings(params: map<string, Value>, env: string): (r: Result<ParamVerdict, ParamFault>)
      requires HasRequiredKeys(params)
      reads config
      ensures r == Ok(ParamsValid) <==> SettingsAcceptable(params, env)
      ensures r.Ok? ==> !r.value.MissingParameter? && !r.value.NoVideosProvided? && !r.value.InvalidPromptsPerVideo?
      ensures r.Ok? && r.value.InvalidComplexity? ==> !ComplexityHolds(params)
      ensures r.Ok? && r.value.InvalidVariation? ==> ComplexityHolds(params) && !VariationHolds(params)
      ensures r.Ok? && r.value.InvalidAspectRatio? ==>
                ComplexityHolds(params) && VariationHolds(params) && !AspectAccepted(params["aspect_ratio"])
                && config.Get("generation.available_aspect_ratios", VNull) == Ok(r.value.valid)
      ensures r.Ok? && r.value.KeyNotConfigured? ==>
                ComplexityHolds(params) && VariationHolds(params) && AspectAccepted(params["aspect_ratio"])
                && config.GetApiKey(env).Err?
      ensures r.Err? ==> !ComplexityHolds(params) || !VariationHolds(params) || !AspectAccepted(params["aspect_ratio"])
    {
      match RangeCheck(params["complexity_level"], "generation.min_complexity_level", "generation.max_complexity_level")
      case Err(f) => Err(f)
      case Ok(Some((lo, hi))) => Ok(InvalidComplexity(lo, hi))
      case Ok(None) =>
        match RangeCheck(params["variation_level"], "generation.min_variation_level", "generation.max_variation_level")
        case Err(f) => Err(f)
        case Ok(Some((lo, hi))) => Ok(InvalidVariation(lo, hi))
        case Ok(None) =>
          match config.Get("generation.available_aspect_ratios", VNull)
          case Err(e) => Err(LookupRaised(e))
          case Ok(valid) =>
            match PyContains(valid, params["aspect_ratio"])
            case Err(f) => Err(f)
            case Ok(false) => Ok(InvalidAspectRatio(valid))
            case Ok(true) => if config.GetApiKey(env).Err? then Ok(KeyNotConfigured) else Ok(ParamsValid)
    }

    /** One range rule: None when it passes, the bounds when it fails. */
    function RangeCheck(v: Value, loPath: string, hiPath: string): (r: Result<Option<(Value, Value)>, ParamFault>)
      reads config
      ensures r == Ok(None) <==> RangeHolds(v, loPath, hiPath)
    {
      match Range(loPath, hiPath)
      case Err(f) => Err(f)
      case Ok((lo, hi)) =>
        if !IsPyInt(v) then Ok(Some((lo, hi)))
        else
          match InRange(lo, AsInt(v), hi)
          case Err(f) => Err(f)
          case Ok(b) => if b then Ok(None) else Ok(Some((lo, hi)))
    }
  }
}


