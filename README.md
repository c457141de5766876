# Video analysis upload: a Dafny model

This project models the sequential core of a small video-analysis application.

The browser page (`frontend/src/App.jsx`) sends a video to the server:
- a file of at most 5 MiB goes in one `/upload` request;
- a larger file is cut into 5 MiB chunks, which are sent one at a time to `/upload_chunk`;
- the progress bar is updated after each chunk;
- the page then shows either the result or a fixed error message.

The server (`backend/main.py`) handles these requests:
- it decodes the video and keeps every frame;
- it asks a vision model about the first five frames, with an instruction chosen from the analysis type;
- it caches single-upload results under a key built from MD5 digests;
- it serves a stored result as JSON, PDF or Markdown.

Modules, one per component:

- `Values` (values.dfy): decoded JSON values, Python truthiness, Option/Result.
- `Transfer` (transfer.dfy): the chunk arithmetic. This covers `CHUNK_SIZE`, `Math.ceil(size / CHUNK_SIZE)` and the byte range of chunk n.
- `Submission` (submission.dfy): the page state as a class `App`. `HandleSubmit` follows `handleSubmit` step by step: validation, clearing state, the single request or the chunk loop, progress, result or error, and `loading` going back to false. Two ghost fields record what the page does:
  - `requests`: every request sent, in order;
  - `progressUpdates`: every value given to the progress bar.
  
  The server is a parameter `server: Request -> Reply`. A reply is either a response body or a thrown error. All requests of one submission are different, so any pattern of failures can be expressed.
- `Frames` (frames.dfy): `extract_frames` as a loop over the frames that decoding yields.
- `Gpt` (gpt.dfy): the choice of instruction, the message list with at most five frames, and the request payload.
- `Cache` (cache.dfy): the cache key and the key-to-result store. The store is a class whose map field is updated by `Save`.
- `Report` (report.dfy): `generate_markdown`. The report is described as an outline of blocks (what is written, in which order) and as the text those blocks render to. The method with the loop builds the text and is proved equal to the rendered outline.
- `Server` (server.dfy): `process_chunk`, `/upload_chunk`, the `/upload` decision and the download dispatch.

Calls into code the model cannot see are function parameters. On the server they are grouped in `Server.Services`:
- the frames OpenCV reads from the bytes;
- the chat-completions call, which gives either the decoded JSON reply or nothing, when posting the request or decoding its reply raises;
- the MD5 hex digest;
- UTF-8 encoding;
- `json.dumps(…, indent=2)`;
- Python's `str()`.

The cache's JSON file round trip (`json.dump` then `json.load`) is taken to give back the stored object.

Behaviour kept as the code has it:
- progress is set to exactly `n / totalChunks * 100` after chunk n;
- every failure shows the one fixed message;
- no history of past analyses is kept;
- nothing checks that a custom prompt is given for a custom type;
- the record `/upload` returns has no `cache_key` field.

## Model

| member | source | states |
|---|---|---|
| Transfer.TotalChunks | frontend/src/App.jsx:70 | The chunk count is the ceiling of size / 5 MiB. It is the least t with size <= t·CHUNK_SIZE, and it is 0 only for an empty file. |
| Transfer.ChunkEnd | frontend/src/App.jsx:74-75 | The end of chunk n (1 <= n <= total) lies strictly after its start and at most at the file size, so every chunk is non-empty. |
| Transfer.LargeFileHasSeveralChunks | frontend/src/App.jsx:58-70 | A file larger than CHUNK_SIZE takes the chunked path with at least two chunks. |
| Transfer.ChunkLayout | frontend/src/App.jsx:73-76 | Chunk 1 starts at byte 0. Every chunk but the last is exactly CHUNK_SIZE long and ends where the next starts. The last ends at the file size and holds 1..CHUNK_SIZE bytes. |
| Transfer.ByteInExactlyOneChunk | frontend/src/App.jsx:73-76 | Byte b lies in chunk n if and only if n = b / CHUNK_SIZE + 1, and that chunk exists. So the ranges cover [0, size) without overlap. |
| Transfer.JoinedIsPrefix | frontend/src/App.jsx:73-76 | Chunks 1..k glued in order are the file's bytes up to the end of chunk k. All chunks together are the whole file. |
| Submission.RunInOrder | frontend/src/App.jsx:73-82 | Requests awaited one at a time: the collected answers are those of the requests before the first one that throws. A run fails exactly when such a request exists. |
| Submission.RunDetermined | frontend/src/App.jsx:73-82 | A sequence of answers followed by a throw (or by the end of the list) determines the run completely. |
| Submission.ProgressRisesToHundred | frontend/src/App.jsx:81 | The progress values set after chunks 1..k rise strictly and lie in (0, 100]. After the last chunk the value is exactly 100. |
| Submission.PlanShape | frontend/src/App.jsx:30-78 | A small file gives one `/upload` request with the whole file. A large file gives `totalChunks >= 2` chunk requests numbered 1..totalChunks. Each carries its byte range, the total, the analysis type and the custom prompt. |
| Submission.ChunksCarryWholeFile | frontend/src/App.jsx:73-78 | The chunk requests' payloads, glued in request order, are exactly the file's bytes. |
| Submission.ChunkedSuccessResult | frontend/src/App.jsx:84-90 | When no chunk request throws, the installed record has one answer per chunk: entry i is the answer to chunk i+1. The record also carries the file name, the analysis type and the custom prompt. |
| Submission.App.constructor | frontend/src/App.jsx:8-14 | The initial page state: no file, type "general", empty prompt, no result, not loading, no error, progress 0. |
| Submission.App.SelectFile | frontend/src/App.jsx:127 | Choosing a file sets the file and nothing else. |
| Submission.App.SelectAnalysisType | frontend/src/App.jsx:136 | Choosing an analysis type sets it and nothing else. |
| Submission.App.EditCustomPrompt | frontend/src/App.jsx:150 | Editing the custom prompt sets it and nothing else. |
| Submission.App.HandleSubmit | frontend/src/App.jsx:45-98 | Without a file, only the error "Please select a video file." is set. Otherwise loading is switched on and error, result and progress are cleared before any request is sent. The page then ends settled: loading false, requests sent in plan order up to the first that throws, and either the result with no error or no result (no partial chunk list) with the generic error. The progress values are 0 and then those after each answered chunk. |
| Submission.App.Send | frontend/src/App.jsx:57-97 | The try/catch/finally of the handler. It is entered only while loading with no error, result or progress. It ends in the settled page state described above. |
| Submission.App.UploadWhole | frontend/src/App.jsx:58-67 | The single path sends exactly one `/upload` request while the page is loading, and its reply decides the run. |
| Submission.App.UploadInChunks | frontend/src/App.jsx:69-82 | The chunk loop runs while the page is loading. It sends the planned chunk requests in order until one throws, and only then stops. The answers it collects are exactly those of the requests before the throw. After each answered chunk n it sets the progress to n / totalChunks · 100. |
| Submission.App.SendChunk | frontend/src/App.jsx:73-78 | Chunk n's request is the n-th planned request. It is logged and its reply is the server's answer to it. |
| Frames.Sampled | backend/main.py:62-80 | The kept frames are at most the frames read. Each carries its position, a multiple of the interval, and the frame read there. |
| Frames.ExtractFrames | backend/main.py:62-80 | The counting loop returns exactly the frames the sampling rule keeps, in order. |
| Frames.SampledAscending | backend/main.py:67-77 | Kept frames come in strictly ascending position order. |
| Frames.SampledExactly | backend/main.py:72 | A position is kept if and only if it is a frame read and a multiple of the interval. |
| Frames.SampledEveryFrame | backend/main.py:62 | With the default interval 1, every frame read is kept, in order. |
| Gpt.SelectPrompt | backend/main.py:94-97 | A predefined type gives its description. Any other type gives the custom prompt when it is non-empty, else the "general" description. The instruction is never empty. |
| Gpt.PromptChoiceConsequences | backend/main.py:94-97 | The custom prompt is ignored for predefined types. An unknown type without a prompt is analysed like "general". |
| Gpt.Messages | backend/main.py:99-111 | The message list is the system message, then the instruction, then one image message for each of the first min(5, n) frames, in extraction order. |
| Gpt.ImageMessagesAt | backend/main.py:104-111 | Image message i carries frame i. There is one message per frame. |
| Gpt.ChatRequest | backend/main.py:99-117 | The posted payload names the vision model and allows 300 tokens. It holds 2 + min(5, frames) messages: the system message, then the instruction (for a predefined type, that type's text), then frame i in message i + 2. |
| Cache.CacheKeyDeterminesDigests | backend/main.py:45-48 | With 32-character digests, two keys are equal if and only if both the file digests and the prompt digests agree. In particular, equal inputs give equal keys. |
| Cache.ResultCache.Get | backend/main.py:50-55 | Lookup returns the stored object if and only if the key was saved, else nothing. |
| Cache.ResultCache.Save | backend/main.py:57-60 | After saving, the key maps to the new result, and every other key keeps its entry. |
| Report.Items | backend/main.py:179-180 | Iterating `result['chunks']`: a list yields its items, and an empty string or dict yields nothing. Anything else raises TypeError. |
| Report.ChunkBlock | backend/main.py:180-183 | A chunk record renders if and only if it is a dict with all four keys. Its section shows the chunk number, the total, the frame count and the dumped analysis. |
| Report.ChunkBlocks | backend/main.py:179-183 | The sections exist if and only if every record renders. Then there is one section per record, in order. Otherwise the error is that of a failing record. |
| Report.ChunkBlocksFirstError | backend/main.py:179-183 | The loop's error is the error of the first failing record. |
| Report.GenerateMarkdown | backend/main.py:171-188 | The string built by repeated appends equals the rendered outline, or the raised KeyError or TypeError. |
| Report.WriteHeader | backend/main.py:172-177 | The header lines render the title, the file name, the analysis type and (when present) the custom prompt. |
| Report.WriteChunkSections | backend/main.py:179-183 | The chunk loop appends one section per record, in order, and stops at the first failing record. |
| Report.RenderConcat | backend/main.py:171-188 | The text of two outlines in sequence is the concatenation of their texts. |
| Report.ReportStartsWithTitle | backend/main.py:172-174 | A rendered report starts with "# Video Analysis Result", followed by the file name and analysis type lines. |
| Report.CustomPromptLineIff | backend/main.py:176-177 | The Custom Prompt line appears if and only if the result has a non-empty custom prompt. It then follows the analysis type line. |
| Report.ChunkSectionsInOrder | backend/main.py:179-183 | With a chunk list, there is one "Chunk i of n" section per chunk, in list order, and no single section. |
| Report.SingleSectionWithoutChunks | backend/main.py:184-186 | Without chunks, the report ends with the one frames/analysis section and has no other section. |
| Report.OutlineSucceedsIff | backend/main.py:171-188 | For a result whose chunks, when present, are a list: it renders if and only if it has a file name and an analysis type, and either complete chunk records or the frames/analysis pair. A missing file name is reported first, whatever "chunks" holds. |
| Server.ChunkResult | backend/main.py:119-138 | The chunk record exists if and only if the chat call returns. It then has exactly four keys: the chunk number, the total, the number of frames decoded, and the model's answer about those frames. |
| Server.ProcessChunk | backend/main.py:119-146 | Processing a chunk extracts every frame and returns the chunk record above, or raises when the chat call raises. |
| Server.UploadChunk | backend/main.py:190-200 | `/upload_chunk` answers each chunk with its own record, or with 500 when processing raises. |
| Server.Decide | backend/main.py:211-221 | A non-empty cached result is served. Otherwise a file under 10 MiB is processed. Otherwise the answer is 413. The three cases are exclusive and exhaustive. |
| Server.UploadVideo | backend/main.py:202-221 | A cache hit returns the cached object unchanged and caches nothing. Processing returns the 1-of-1 chunk record and stores it under the key; if processing raises, the answer is 500 and nothing is stored. 413 leaves the cache unchanged. |
| Server.Dispatch | backend/main.py:228-242 | The answer is 404 if and only if nothing truthy is stored, whatever the format. json, pdf and markdown select their renderer, and 500 is returned when rendering raises. The answer is 400 if and only if the result exists and the format is any other. |
| Server.DownloadResult | backend/main.py:227-242 | The download endpoint answers with the dispatch of what the cache holds under the key. |
| Server.SinglePathNeverTooLarge | backend/main.py:216 | A file the page sends in one request (at most 5 MiB) is under the 10 MiB limit, so it is never refused with 413. |
| Server.RepeatedUploadIsCached | backend/main.py:209-219 | After an upload is processed, the same upload is served from the cache with the stored record, and other keys are unaffected. After one whose processing raised, the same upload is processed again. |
| Server.StoredUploadRendersOnlyAsJson | backend/main.py:133-138 | The record `/upload` stores has no "filename". Its Markdown rendering raises KeyError. Downloading it as pdf or markdown gives 500; json gives the record. |
| Server.DistinctPromptsShareKey | backend/main.py:209 | Type "custom" with prompt "a_b" and type "custom_a" with prompt "b" share a cache key, although the model would get different instructions. |

## Left out

- Network transport (axios, FastAPI routing, CORS, uvicorn) and async/await. Requests are calls to a server function, and the chunk loop is a plain sequential loop.
- `fetchAnalysisTypes`, `handleDownload` and all JSX rendering in the page: these are I/O and display.
- React's batching of state updates and re-rendering. The model applies each `setX` in order to a field. Re-submitting while loading is prevented only by the disabled button, which is not modelled.
- Floating point: progress is an exact rational. `Math.ceil(size / CHUNK_SIZE)` is integer ceiling division, which agrees with the JavaScript expression for every size below 2^53 bytes.
- OpenCV decoding and `cv2.imwrite` of frame files; `Extracted` carries the frame and its index instead of the file path. Temporary files and their cleanup are not modelled. The image part of a message (`Gpt.Part.ImageUrl`) carries the extracted frame itself, not the base64 text of its JPEG file; the index it holds is not sent.
- The OpenAI HTTP call, MD5, UTF-8 encoding, `json.dumps` and `str()`: all are function parameters with no properties assumed. The chat call may fail (it returns an optional value); the others are taken to be total.
- The chat request is posted without a timeout: a call that never returns is not modelled, only one that returns or raises.
- The on-disk cache directory: it is an in-memory map, and the JSON dump/load round trip is taken as the identity.
- `generate_pdf`: `PdfBody` stands for its output. The model keeps its failure on a missing key, because it reads the same keys in the same order as the Markdown builder.
- Dispatch: the PDF's latin-1 encoding failure on characters outside latin-1 is not modelled.
- JSON numbers are whole numbers here. The values the code reads (chunk number, totals, frame counts) are integers.
- ExtractFrames: requires a non-zero interval. With interval 0 the source raises ZeroDivisionError on the first frame read, and it returns [] for a video with no frames. The only caller passes 1.
- Sampled: requires a non-zero interval, for the same reason.
- `GET /analysis_types` is not modelled: it returns the constant `ANALYSIS_TYPES`.
- backend/setup.py: packaging metadata.
