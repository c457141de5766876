/** The server's endpoints: chunk processing, the single-upload decision with
    its cache, and the download dispatch. */
module Server {
  import opened Values
  import opened Frames
  import opened Gpt
  import opened Cache
  import opened Report
  import Transfer

  /** The collaborators whose code is not part of this model: the frames OpenCV
      reads from the bytes (up to the first failed read), the chat-completions
      call, the MD5 hex digest, UTF-8 encoding, `json.dumps(…, indent=2)` and `str()`.
      The chat call gives `None` when posting the request or decoding its reply
      as JSON raises. */
  datatype Services = Services(
    decode: seq<bv8> -> seq<Frame>,
    openai: ChatPayload -> Option<Json>,
    md5: seq<bv8> -> string,
    utf8: string -> seq<bv8>,
    dumps: Json -> string,
    str: Json -> string)

  /** 10 MiB: `/upload` processes only files strictly smaller than this. */
  const SINGLE_UPLOAD_LIMIT: nat := 10 * 1024 * 1024

  const TOO_LARGE_DETAIL: string := "File too large. Please use chunked upload."
  const NOT_FOUND_DETAIL: string := "Result not found"
  const INVALID_FORMAT_DETAIL: string := "Invalid format"
  const SERVER_ERROR_DETAIL: string := "Internal Server Error"

  /** An endpoint's answer. `PdfBody` stands for the PDF rendering of a result. */
  datatype Response =
    | JsonBody(body: Object)
    | PdfBody(result: Object)
    | MarkdownBody(text: string)
    | HttpError(status: nat, detail: string)

  /** The record `process_chunk` returns for chunk `n` of `t`, or `None` when
      the chat call raises (and with it `process_chunk`). */
  function ChunkResult(chunk: seq<bv8>, n: int, t: int, analysisType: string, customPrompt: string,
                       env: Services): (r: Option<Object>)
    ensures var answer := env.openai(ChatRequest(Sampled(env.decode(chunk), 1), analysisType, customPrompt));
      r.Some? <==> answer.Some?
    ensures r.Some? ==>
      && r.value.Keys == {"chunk_number", "total_chunks", "frames_extracted", "analysis"}
      && r.value["chunk_number"] == JNum(n) && r.value["total_chunks"] == JNum(t)
      && r.value["frames_extracted"] == JNum(|env.decode(chunk)|)
      && Some(r.value["analysis"]) == env.openai(ChatRequest(Sampled(env.decode(chunk), 1), analysisType, customPrompt))
  {
    var frames := Sampled(env.decode(chunk), 1);
    SampledEveryFrame(env.decode(chunk));
    match env.openai(ChatRequest(frames, analysisType, customPrompt))
    case None => None
    case Some(analysis) =>
      Some(map["chunk_number" := JNum(n),
               "total_chunks" := JNum(t),
               "frames_extracted" := JNum(|frames|),
               "analysis" := analysis])
  }

  /** `process_chunk`: decode the chunk, keep every frame, ask the model about
      the first five, and report the count and the analysis; `None` when the
      chat call raises. */
  method ProcessChunk(chunk: seq<bv8>, n: int, t: int, analysisType: string, customPrompt: string,
                      env: Services) returns (r: Option<Object>)
    ensures r == ChunkResult(chunk, n, t, analysisType, customPrompt, env)
  {
    var frames := ExtractFrames(env.decode(chunk), 1);
    var answer := env.openai(ChatRequest(frames, analysisType, customPrompt));
    if answer.None? {
      return None;
    }
    r := Some(map["chunk_number" := JNum(n),
                  "total_chunks" := JNum(t),
                  "frames_extracted" := JNum(|frames|),
                  "analysis" := answer.value]);
  }

  /** `/upload_chunk`: every chunk is analysed on its own and answered with its
      record; an exception from the chat call surfaces as a 500. */
  method UploadChunk(chunk: seq<bv8>, n: int, t: int, analysisType: string, customPrompt: string,
                     env: Services) returns (resp: Response)
    ensures match ChunkResult(chunk, n, t, analysisType, customPrompt, env)
      case Some(r) => resp == JsonBody(r)
      case None => resp == HttpError(500, SERVER_ERROR_DETAIL)
  {
    var r := ProcessChunk(chunk, n, t, analysisType, customPrompt, env);
    resp := if r.Some? then JsonBody(r.value) else HttpError(500, SERVER_ERROR_DETAIL);
  }

  /** The text whose digest forms the second half of an `/upload` cache key. */
  function RequestPrompt(analysisType: string, customPrompt: string): string
  {
    analysisType + "_" + customPrompt
  }

  /** The key an `/upload` request is cached under. */
  function UploadKey(env: Services, content: seq<bv8>, analysisType: string, customPrompt: string): string
  {
    CacheKey(env.md5, env.utf8, content, RequestPrompt(analysisType, customPrompt))
  }

  datatype Decision = ServeCached(result: Object) | ProcessWhole | TooLarge

  /** What `/upload` does: a truthy (non-empty) cached result is returned as
      it is; otherwise a file under 10 MiB is processed; otherwise it is refused. */
  function Decide(cached: Option<Object>, size: nat): (d: Decision)
    ensures d.ServeCached? <==> cached.Some? && cached.value != map[]
    ensures d.ServeCached? ==> d.result == cached.value
    ensures d == ProcessWhole <==> !(cached.Some? && cached.value != map[]) && size < SINGLE_UPLOAD_LIMIT
    ensures d == TooLarge <==> !(cached.Some? && cached.value != map[]) && size >= SINGLE_UPLOAD_LIMIT
  {
    if cached.Some? && Truthy(JObj(cached.value)) then ServeCached(cached.value)
    else if size < SINGLE_UPLOAD_LIMIT then ProcessWhole
    else TooLarge
  }

  /** `/upload`: look the request up in the cache and act on the decision;
      only a processed upload is stored, under its key. When processing raises,
      the answer is 500 and the cache is left as it was. */
  method UploadVideo(cache: ResultCache, env: Services, content: seq<bv8>, analysisType: string,
                     customPrompt: string) returns (resp: Response)
    modifies cache
    ensures var key := UploadKey(env, content, analysisType, customPrompt);
      match Decide(Stored(old(cache.entries), key), |content|)
      case ServeCached(r) => resp == JsonBody(r) && cache.entries == old(cache.entries)
      case ProcessWhole =>
        (match ChunkResult(content, 1, 1, analysisType, customPrompt, env)
         case Some(r) => resp == JsonBody(r) && cache.entries == old(cache.entries)[key := r]
         case None => resp == HttpError(500, SERVER_ERROR_DETAIL) && cache.entries == old(cache.entries))
      case TooLarge => resp == HttpError(413, TOO_LARGE_DETAIL) && cache.entries == old(cache.entries)
  {
    var key := CacheKey(env.md5, env.utf8, content, RequestPrompt(analysisType, customPrompt));
    var cached := cache.Get(key);
    if cached.Some? && Truthy(JObj(cached.value)) {
      return JsonBody(cached.value);
    }
    if |content| < SINGLE_UPLOAD_LIMIT {
      var result := ProcessChunk(content, 1, 1, analysisType, customPrompt, env);
      if result.None? {
        return HttpError(500, SERVER_ERROR_DETAIL);
      }
      cache.Save(key, result.value);
      assert cache.entries == old(cache.entries)[key := result.value];
      resp := JsonBody(result.value);
    } else {
      resp := HttpError(413, TOO_LARGE_DETAIL);
    }
  }

  /** The download answer for what the cache holds under the key: 404 when
      nothing truthy is stored, whatever the format; otherwise the JSON body,
      the PDF or the Markdown report for "json", "pdf" and "markdown" (both
      renderings fail with 500 when the result lacks a key they read), and 400
      for any other format. */
  function Dispatch(stored: Option<Object>, format: string, env: Services): (resp: Response)
    ensures resp == HttpError(404, NOT_FOUND_DETAIL) <==> !(stored.Some? && stored.value != map[])
    ensures resp == HttpError(400, INVALID_FORMAT_DETAIL) <==>
              stored.Some? && stored.value != map[] && format !in {"json", "pdf", "markdown"}
    ensures stored.Some? && stored.value != map[] ==>
              && (format == "json" ==> resp == JsonBody(stored.value))
              && (format == "pdf" ==>
                    resp == (if Outline(stored.value, env.dumps, env.str).Ok? then PdfBody(stored.value)
                             else HttpError(500, SERVER_ERROR_DETAIL)))
              && (format == "markdown" ==>
                    resp == (match Markdown(stored.value, env.dumps, env.str)
                             case Ok(text) => MarkdownBody(text)
                             case Err(_) => HttpError(500, SERVER_ERROR_DETAIL)))
  {
    if !(stored.Some? && Truthy(JObj(stored.value))) then HttpError(404, NOT_FOUND_DETAIL)
    else if format == "json" then JsonBody(stored.value)
    else if format == "pdf" then
      (if Outline(stored.value, env.dumps, env.str).Ok? then PdfBody(stored.value)
       else HttpError(500, SERVER_ERROR_DETAIL))
    else if format == "markdown" then
      match Markdown(stored.value, env.dumps, env.str)
      case Ok(text) => MarkdownBody(text)
      case Err(_) => HttpError(500, SERVER_ERROR_DETAIL)
    else HttpError(400, INVALID_FORMAT_DETAIL)
  }

  /** `/download/{format}/{cache_key}`. */
  method DownloadResult(cache: ResultCache, env: Services, format: string, key: string) returns (resp: Response)
    ensures resp == Dispatch(Stored(cache.entries, key), format, env)
  {
    var result := cache.Get(key);
    if !(result.Some? && Truthy(JObj(result.value))) {
      return HttpError(404, NOT_FOUND_DETAIL);
    }
    if format == "json" {
      resp := JsonBody(result.value);
    } else if format == "pdf" {
      // generate_pdf reads the same keys, in the same order, as the Markdown builder
      var outline := Outline(result.value, env.dumps, env.str);
      resp := if outline.Ok? then PdfBody(result.value) else HttpError(500, SERVER_ERROR_DETAIL);
    } else if format == "markdown" {
      var md := GenerateMarkdown(result.value, env.dumps, env.str);
      resp := if md.Ok? then MarkdownBody(md.value) else HttpError(500, SERVER_ERROR_DETAIL);
    } else {
      resp := HttpError(400, INVALID_FORMAT_DETAIL);
    }
  }

  /** A file the browser sends in one request (at most 5 MiB) is always under
      the 10 MiB limit, so the single-upload path is never refused with 413. */
  lemma SinglePathNeverTooLarge(size: nat, cached: Option<Object>)
    requires Transfer.FitsOneRequest(size)
    ensures Decide(cached, size) != TooLarge
  {
  }

  /** After a processed upload, the same upload again is answered from the
      cache with the stored record, and no other key's entry has changed; after
      one whose processing raised, nothing was stored and the same upload is
      processed again. */
  lemma RepeatedUploadIsCached(entries: map<string, Object>, env: Services, content: seq<bv8>,
                               analysisType: string, customPrompt: string, other: string)
    requires Decide(Stored(entries, UploadKey(env, content, analysisType, customPrompt)), |content|) == ProcessWhole
    ensures var key := UploadKey(env, content, analysisType, customPrompt);
      match ChunkResult(content, 1, 1, analysisType, customPrompt, env)
      case Some(r) =>
        && Decide(Stored(entries[key := r], key), |content|) == ServeCached(r)
        && (other != key ==> Stored(entries[key := r], other) == Stored(entries, other))
      case None =>
        Decide(Stored(entries, key), |content|) == ProcessWhole
  {
    var key := UploadKey(env, content, analysisType, customPrompt);
    var r := ChunkResult(content, 1, 1, analysisType, customPrompt, env);
    if r.Some? {
      assert "analysis" in r.value;
    }
  }

  /** The record `/upload` stores has no "filename" key, so rendering it as a
      PDF or as Markdown raises KeyError: downloading a single-upload result in
      either format answers 500, while "json" returns the record. */
  lemma StoredUploadRendersOnlyAsJson(chunk: seq<bv8>, analysisType: string, customPrompt: string,
                                      env: Services, format: string)
    ensures ChunkResult(chunk, 1, 1, analysisType, customPrompt, env).Some? ==>
      var r := ChunkResult(chunk, 1, 1, analysisType, customPrompt, env).value;
      && Markdown(r, env.dumps, env.str) == Err(KeyError("filename"))
      && (format == "json" ==> Dispatch(Some(r), format, env) == JsonBody(r))
      && (format in {"pdf", "markdown"} ==> Dispatch(Some(r), format, env) == HttpError(500, SERVER_ERROR_DETAIL))
  {
    var r := ChunkResult(chunk, 1, 1, analysisType, customPrompt, env);
    if r.Some? {
      assert "filename" !in r.value;
      assert "analysis" in r.value;
    }
  }

  /** The key's prompt half joins the type and the custom prompt with "_", so two
      requests that select different instructions for the model can share a
      cache key, and the second is answered with the first one's analysis. */
  lemma DistinctPromptsShareKey(env: Services, content: seq<bv8>)
    ensures UploadKey(env, content, "custom", "a_b") == UploadKey(env, content, "custom_a", "b")
    ensures SelectPrompt("custom", "a_b") != SelectPrompt("custom_a", "b")
  {
    assert RequestPrompt("custom", "a_b") == RequestPrompt("custom_a", "b");
  }
}
