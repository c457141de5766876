/** The browser's submit handler: validation, the single or chunked upload,
    the progress bar and the result or error it leaves on screen. */
module Submission {
  import opened Values
  import opened Transfer

  /** The selected file: its name and its bytes (`file.size` is their number). */
  datatype FileInfo = FileInfo(name: string, content: seq<bv8>)

  /** The multipart requests the page sends. */
  datatype Request =
    | Upload(file: FileInfo, analysisType: string, customPrompt: string)
    | UploadChunk(chunk: seq<bv8>, chunkNumber: nat, totalChunks: nat,
                  analysisType: string, customPrompt: string)

  /** What awaiting a request gives: the decoded response body, or a thrown error. */
  datatype Reply = Answered(data: Json) | Threw

  const NO_FILE_ERROR: string := "Please select a video file."
  const PROCESSING_ERROR: string := "An error occurred while processing the video. Please try again."
  const SUCCESS_MESSAGE: string := "Video processed successfully"

  /** The `/upload_chunk` request for chunk `n` of `t`: its bytes and its form fields. */
  function ChunkRequest(file: FileInfo, n: nat, analysisType: string, customPrompt: string): Request
    requires 1 <= n <= TotalChunks(|file.content|)
  {
    UploadChunk(file.content[ChunkStart(n)..ChunkEnd(n, |file.content|)], n,
                TotalChunks(|file.content|), analysisType, customPrompt)
  }

  /** The requests a submission of `file` issues when none of them fails, in order. */
  function Plan(file: FileInfo, analysisType: string, customPrompt: string): (reqs: seq<Request>)
  {
    if FitsOneRequest(|file.content|) then [Upload(file, analysisType, customPrompt)]
    else seq(TotalChunks(|file.content|),
             i requires 0 <= i < TotalChunks(|file.content|) => ChunkRequest(file, i + 1, analysisType, customPrompt))
  }

  lemma PlanChunk(file: FileInfo, analysisType: string, customPrompt: string, n: nat)
    requires !FitsOneRequest(|file.content|) && 1 <= n <= TotalChunks(|file.content|)
    ensures |Plan(file, analysisType, customPrompt)| == TotalChunks(|file.content|)
    ensures Plan(file, analysisType, customPrompt)[n - 1] == ChunkRequest(file, n, analysisType, customPrompt)
  {
  }

  /** The answers collected by sending requests one after another, and
      whether one of them threw (which stops the sequence). */
  datatype Run = Run(replies: seq<Json>, failed: bool)

  /** Number of requests a run actually sent: the answered ones and the one that threw. */
  function Attempted(r: Run): nat
  {
    |r.replies| + if r.failed then 1 else 0
  }

  /** Awaiting `reqs` strictly in order: each answer is kept, and the first throw
      stops the sequence, so the collected answers are exactly those of the
      requests before the first failing one. */
  function RunInOrder(reqs: seq<Request>, server: Request -> Reply): (r: Run)
    ensures |r.replies| <= |reqs|
    ensures forall i :: 0 <= i < |r.replies| ==> server(reqs[i]) == Answered(r.replies[i])
    ensures r.failed ==> |r.replies| < |reqs| && server(reqs[|r.replies|]) == Threw
    ensures !r.failed ==> |r.replies| == |reqs|
  {
    if reqs == [] then Run([], false)
    else
      match server(reqs[0])
      case Threw => Run([], true)
      case Answered(d) =>
        var rest := RunInOrder(reqs[1..], server);
        Run([d] + rest.replies, rest.failed)
  }

  /** The progress shown after chunk `n` of `t`: `(n / t) * 100`, exactly. */
  function Progress(n: nat, t: nat): real
    requires t > 0
  {
    (n as real) * 100.0 / (t as real)
  }

  /** The progress values set after chunks 1..k. */
  function ProgressSteps(k: nat, t: nat): seq<real>
    requires t > 0
  {
    seq(k, i requires 0 <= i < k => Progress(i + 1, t))
  }

  lemma ProgressStepsNext(k: nat, t: nat)
    requires t > 0
    ensures ProgressSteps(k + 1, t) == ProgressSteps(k, t) + [Progress(k + 1, t)]
  {
  }

  /** The record installed after a successful chunked upload. */
  function ChunkedResult(file: FileInfo, analysisType: string, customPrompt: string, chunks: seq<Json>): Json
  {
    JObj(map["filename" := JStr(file.name),
             "analysis_type" := JStr(analysisType),
             "custom_prompt" := JStr(customPrompt),
             "message" := JStr(SUCCESS_MESSAGE),
             "chunks" := JArr(chunks)])
  }

  /** The page state behind the upload form. `requests` and `progressUpdates`
      record, in order, every request sent and every value given to the progress bar. */
  class App {
    var file: Option<FileInfo>
    var analysisType: string
    var customPrompt: string
    var result: Option<Json>
    var loading: bool
    var error: Option<string>
    var progress: real
    ghost var requests: seq<Request>
    ghost var progressUpdates: seq<real>

    /** The initial `useState` values. */
    constructor ()
      ensures file == None && analysisType == "general" && customPrompt == ""
      ensures result == None && !loading && error == None && progress == 0.0
      ensures requests == [] && progressUpdates == []
    {
      file := None;
      analysisType := "general";
      customPrompt := "";
      result := None;
      loading := false;
      error := None;
      progress := 0.0;
      requests := [];
      progressUpdates := [];
    }

    /** The file input's change handler. */
    method SelectFile(f: Option<FileInfo>)
      modifies this`file
      ensures file == f
    {
      file := f;
    }

    /** The analysis-type select's change handler. */
    method SelectAnalysisType(t: string)
      modifies this`analysisType
      ensures analysisType == t
    {
      analysisType := t;
    }

    /** The custom-prompt input's change handler. */
    method EditCustomPrompt(p: string)
      modifies this`customPrompt
      ensures customPrompt == p
    {
      customPrompt := p;
    }

    /** Submitting the form. Without a file only the error is set. Otherwise
        loading is switched on and the error, result and progress are cleared
        before anything is sent (the precondition of `Send`); the planned requests
        are then sent one at a time until one throws, and loading ends false; the
        result is installed only if every request was answered. */
    method HandleSubmit(server: Request -> Reply)
      modifies this`result, this`loading, this`error, this`progress, this`requests, this`progressUpdates
      ensures old(file).None? ==>
                error == Some(NO_FILE_ERROR) && result == old(result) && loading == old(loading)
                && progress == old(progress) && requests == old(requests)
                && progressUpdates == old(progressUpdates)
      ensures old(file).Some? ==>
                var f := old(file).value;
                var run := RunInOrder(Plan(f, analysisType, customPrompt), server);
                && Settled(f, server)
                && requests == old(requests) + Plan(f, analysisType, customPrompt)[..Attempted(run)]
                && progressUpdates == old(progressUpdates) + [0.0] + Shown(f, server)
    {
      if file.None? {
        error := Some(NO_FILE_ERROR);
        return;
      }
      var f := file.value;
      loading := true;
      error := None;
      progress := 0.0;
      progressUpdates := progressUpdates + [0.0];
      result := None;
      Send(f, server);
    }

    /** The page after a submission of `f` has run its course: loading over, and
        either the result with no error, or no result with the generic error;
        the progress bar at its last value. */
    ghost predicate Settled(f: FileInfo, server: Request -> Reply)
      reads this
    {
      var run := RunInOrder(Plan(f, analysisType, customPrompt), server);
      && !loading
      && error == (if run.failed then Some(PROCESSING_ERROR) else None)
      && result == (if run.failed then None
                    else if FitsOneRequest(|f.content|) then Some(run.replies[0])
                    else Some(ChunkedResult(f, analysisType, customPrompt, run.replies)))
      && progress == (if FitsOneRequest(|f.content|) then 0.0
                      else Progress(|run.replies|, TotalChunks(|f.content|)))
    }

    /** The progress values a submission of `f` sets after the initial 0. */
    ghost function Shown(f: FileInfo, server: Request -> Reply): seq<real>
      reads this
    {
      if FitsOneRequest(|f.content|) then []
      else ProgressSteps(|RunInOrder(Plan(f, analysisType, customPrompt), server).replies|, TotalChunks(|f.content|))
    }

    /** The `try`/`catch`/`finally` of the handler, entered with loading on and
        error, result and progress cleared. */
    method Send(f: FileInfo, server: Request -> Reply)
      requires loading && error == None && result == None && progress == 0.0
      modifies this`result, this`loading, this`error, this`progress, this`requests, this`progressUpdates
      ensures Settled(f, server)
      ensures requests == old(requests)
                + Plan(f, analysisType, customPrompt)[..Attempted(RunInOrder(Plan(f, analysisType, customPrompt), server))]
      ensures progressUpdates == old(progressUpdates) + Shown(f, server)
    {
      if FitsOneRequest(|f.content|) {
        var reply := UploadWhole(f, server);
        match reply {
          case Threw =>
            error := Some(PROCESSING_ERROR);
          case Answered(data) =>
            result := Some(data);
        }
      } else {
        var replies, failed := UploadInChunks(f, server);
        RunDetermined(Plan(f, analysisType, customPrompt), server, replies, failed);
        if failed {
          error := Some(PROCESSING_ERROR);
        } else {
          result := Some(ChunkedResult(f, analysisType, customPrompt, replies));
        }
      }
      loading := false;
    }

    /** The single `/upload` request carrying the whole file and both form fields. */
    method UploadWhole(f: FileInfo, server: Request -> Reply) returns (reply: Reply)
      requires FitsOneRequest(|f.content|)
      requires loading && error == None && result == None
      modifies this`requests
      ensures reply == server(Upload(f, analysisType, customPrompt))
      ensures RunInOrder(Plan(f, analysisType, customPrompt), server)
                == (if reply.Threw? then Run([], true) else Run([reply.data], false))
      ensures requests == old(requests) + Plan(f, analysisType, customPrompt)
    {
      var req := Upload(f, analysisType, customPrompt);
      requests := requests + [req];
      reply := server(req);
      assert Plan(f, analysisType, customPrompt) == [req];
    }

    /** The `for` loop over chunk numbers: send chunk n, await it, keep its answer
        and set the progress to n / t * 100, until a request throws or all are sent. */
    method UploadInChunks(f: FileInfo, server: Request -> Reply) returns (replies: seq<Json>, failed: bool)
      requires !FitsOneRequest(|f.content|)
      requires loading && error == None && result == None && progress == 0.0
      modifies this`progress, this`requests, this`progressUpdates
      ensures |replies| <= |Plan(f, analysisType, customPrompt)|
      ensures forall i :: 0 <= i < |replies| ==> server(Plan(f, analysisType, customPrompt)[i]) == Answered(replies[i])
      ensures failed ==> |replies| < |Plan(f, analysisType, customPrompt)|
                         && server(Plan(f, analysisType, customPrompt)[|replies|]) == Threw
      ensures !failed ==> |replies| == |Plan(f, analysisType, customPrompt)|
      ensures requests == old(requests) + Plan(f, analysisType, customPrompt)[..Attempted(Run(replies, failed))]
      ensures progress == Progress(|replies|, TotalChunks(|f.content|))
      ensures progressUpdates == old(progressUpdates) + ProgressSteps(|replies|, TotalChunks(|f.content|))
    {
      ghost var plan := Plan(f, analysisType, customPrompt);
      var t := TotalChunks(|f.content|);
      replies := [];
      failed := false;
      assert progress == Progress(0, t);
      var n := 1;
      while n <= t
        invariant 1 <= n <= t + 1
        invariant |replies| == n - 1
        invariant forall i :: 0 <= i < n - 1 ==> server(plan[i]) == Answered(replies[i])
        invariant requests == old(requests) + plan[..n - 1]
        invariant progress == Progress(n - 1, t)
        invariant progressUpdates == old(progressUpdates) + ProgressSteps(n - 1, t)
        invariant !failed
      {
        var reply := SendChunk(f, n, server);
        assert plan[..n] == plan[..n - 1] + [plan[n - 1]];
        if reply.Threw? {
          failed := true;
          break;
        }
        replies := replies + [reply.data];
        progress := Progress(n, t);
        ProgressStepsNext(n - 1, t);
        progressUpdates := progressUpdates + [progress];
        n := n + 1;
      }
    }

    /** One pass of the loop body's request: slice chunk `n` out of the file,
        post it with the form fields and await the reply. */
    method SendChunk(f: FileInfo, n: nat, server: Request -> Reply) returns (reply: Reply)
      requires !FitsOneRequest(|f.content|) && 1 <= n <= TotalChunks(|f.content|)
      modifies this`requests
      ensures |Plan(f, analysisType, customPrompt)| == TotalChunks(|f.content|)
      ensures reply == server(Plan(f, analysisType, customPrompt)[n - 1])
      ensures requests == old(requests) + [Plan(f, analysisType, customPrompt)[n - 1]]
    {
      var req := ChunkRequest(f, n, analysisType, customPrompt);
      PlanChunk(f, analysisType, customPrompt, n);
      requests := requests + [req];
      reply := server(req);
    }
  }

  /** A run is pinned down by its answers: if the first k requests were answered
      with `replies` and the next one threw (or there is no next one), that is
      what sending them in order gives. */
  lemma RunDetermined(reqs: seq<Request>, server: Request -> Reply, replies: seq<Json>, failed: bool)
    requires |replies| <= |reqs|
    requires forall i :: 0 <= i < |replies| ==> server(reqs[i]) == Answered(replies[i])
    requires failed ==> |replies| < |reqs| && server(reqs[|replies|]) == Threw
    requires !failed ==> |replies| == |reqs|
    ensures RunInOrder(reqs, server) == Run(replies, failed)
  {
    var r := RunInOrder(reqs, server);
    assert |r.replies| == |replies|;
    assert r.replies == replies;
  }

  /** Each progress value set during a chunked upload is above the previous one
      (starting from the 0 set on submit), lies in (0, 100], and the value set
      after the last chunk is exactly 100. */
  lemma ProgressRisesToHundred(k: nat, t: nat)
    requires 0 < t && k <= t
    ensures forall a, b :: 0 <= a < b < k ==> ProgressSteps(k, t)[a] < ProgressSteps(k, t)[b]
    ensures forall a :: 0 <= a < k ==> 0.0 < ProgressSteps(k, t)[a] <= 100.0
    ensures k == t ==> ProgressSteps(k, t)[k - 1] == 100.0
  {
    var steps := ProgressSteps(k, t);
    forall a, b | 0 <= a < b < k
      ensures steps[a] < steps[b]
    {
      assert steps[a] == Progress(a + 1, t) && steps[b] == Progress(b + 1, t);
      Scaled((a + 1) as real, (b + 1) as real, t as real);
    }
    forall a | 0 <= a < k
      ensures 0.0 < steps[a] <= 100.0
    {
      assert steps[a] == Progress(a + 1, t);
      Scaled(0.0, (a + 1) as real, t as real);
      Whole(t as real);
      if a + 1 < t {
        Scaled((a + 1) as real, t as real, t as real);
      }
    }
    if k == t {
      assert steps[k - 1] == Progress(t, t);
      Whole(t as real);
    }
  }

  /** t out of t is 100 percent. */
  lemma Whole(t: real)
    requires 0.0 < t
    ensures t * 100.0 / t == 100.0
  {
  }

  /** Scaling by 100 / t keeps the strict order of two counts. */
  lemma Scaled(x: real, y: real, t: real)
    requires 0.0 < t && x < y
    ensures x * 100.0 / t < y * 100.0 / t
  {
    var d := y * 100.0 / t - x * 100.0 / t;
    assert d == (y - x) * 100.0 / t;
    assert d * t == (y - x) * 100.0;
  }

  /** Small files are sent whole in one `/upload` request; larger ones as
      `totalChunks >= 2` `/upload_chunk` requests numbered 1..totalChunks, each
      carrying its byte range of the file and the same form fields. */
  lemma PlanShape(file: FileInfo, analysisType: string, customPrompt: string)
    ensures var plan := Plan(file, analysisType, customPrompt);
      FitsOneRequest(|file.content|) ==> plan == [Upload(file, analysisType, customPrompt)]
    ensures var plan := Plan(file, analysisType, customPrompt);
      !FitsOneRequest(|file.content|) ==>
        && |plan| == TotalChunks(|file.content|) >= 2
        && forall i :: 0 <= i < |plan| ==>
             && plan[i].UploadChunk?
             && plan[i].chunkNumber == i + 1
             && plan[i].totalChunks == |plan|
             && plan[i].chunk == file.content[ChunkStart(i + 1)..ChunkEnd(i + 1, |file.content|)]
             && plan[i].analysisType == analysisType && plan[i].customPrompt == customPrompt
  {
    if !FitsOneRequest(|file.content|) {
      LargeFileHasSeveralChunks(|file.content|);
    }
  }

  /** The bytes carried by a sequence of chunk requests, glued in order. */
  function ChunkBytes(reqs: seq<Request>): seq<bv8>
  {
    if reqs == [] then []
    else ChunkBytes(reqs[..|reqs| - 1]) + (if reqs[|reqs| - 1].UploadChunk? then reqs[|reqs| - 1].chunk else [])
  }

  /** The chunk requests of a large file carry the whole file, byte for byte,
      in request order: no byte is lost, repeated or reordered. */
  lemma ChunksCarryWholeFile(file: FileInfo, analysisType: string, customPrompt: string)
    requires !FitsOneRequest(|file.content|)
    ensures ChunkBytes(Plan(file, analysisType, customPrompt)) == file.content
  {
    var plan := Plan(file, analysisType, customPrompt);
    var t := TotalChunks(|file.content|);
    ChunkBytesPrefix(file, analysisType, customPrompt, t);
    assert plan[..t] == plan;
    JoinedIsPrefix(file.content, t);
  }

  lemma {:induction false} ChunkBytesPrefix(file: FileInfo, analysisType: string, customPrompt: string, k: nat)
    requires !FitsOneRequest(|file.content|) && k <= TotalChunks(|file.content|)
    ensures ChunkBytes(Plan(file, analysisType, customPrompt)[..k]) == Joined(file.content, k)
  {
    var plan := Plan(file, analysisType, customPrompt);
    if k > 0 {
      ChunkBytesPrefix(file, analysisType, customPrompt, k - 1);
      assert plan[..k][..k - 1] == plan[..k - 1];
    }
  }

  /** After a chunked upload in which no request threw, the installed result
      lists one answer per chunk, the i-th being the answer to chunk i + 1,
      next to the file name, analysis type and custom prompt. */
  lemma ChunkedSuccessResult(file: FileInfo, analysisType: string, customPrompt: string, server: Request -> Reply)
    requires !FitsOneRequest(|file.content|)
    requires !RunInOrder(Plan(file, analysisType, customPrompt), server).failed
    ensures var plan := Plan(file, analysisType, customPrompt);
      var chunks := RunInOrder(plan, server).replies;
      var r := ChunkedResult(file, analysisType, customPrompt, chunks);
      && |chunks| == TotalChunks(|file.content|)
      && (forall i :: 0 <= i < |chunks| ==>
            server(ChunkRequest(file, i + 1, analysisType, customPrompt)) == Answered(chunks[i]))
      && r.fields["chunks"] == JArr(chunks) && r.fields["filename"] == JStr(file.name)
      && r.fields["analysis_type"] == JStr(analysisType) && r.fields["custom_prompt"] == JStr(customPrompt)
  {
    var plan := Plan(file, analysisType, customPrompt);
    var chunks := RunInOrder(plan, server).replies;
    forall i | 0 <= i < |chunks|
      ensures server(ChunkRequest(file, i + 1, analysisType, customPrompt)) == Answered(chunks[i])
    {
      assert plan[i] == ChunkRequest(file, i + 1, analysisType, customPrompt);
    }
  }
}
