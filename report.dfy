/** The Markdown report of a stored analysis result. The report is described
    twice: as an outline of blocks (what it says, in which order) and as the
    text those blocks render to. `json.dumps(…, indent=2)` and Python's `str()`
    are supplied by the caller. */
module Report {
  import opened Values

  const TITLE: string := "# Video Analysis Result\n\n"

  datatype Block =
    | Title
    | Filename(text: string)
    | AnalysisType(text: string)
    | CustomPrompt(text: string)
    | ChunkSection(number: string, total: string, frames: string, analysis: string)
    | SingleSection(frames: string, analysis: string)

  /** The text of one block, as the f-strings of `generate_markdown` lay it out. */
  function RenderBlock(b: Block): string
  {
    match b
    case Title => TITLE
    case Filename(t) => "**Filename:** " + t + "\n"
    case AnalysisType(t) => "**Analysis Type:** " + t + "\n"
    case CustomPrompt(t) => "**Custom Prompt:** " + t + "\n"
    case ChunkSection(n, total, frames, analysis) =>
      "\n## Chunk " + n + " of " + total + "\n"
      + "**Frames extracted:** " + frames + "\n"
      + "### GPT-4 Analysis:\n```json\n" + analysis + "\n```\n"
    case SingleSection(frames, analysis) =>
      "\n**Frames extracted:** " + frames + "\n"
      + "## GPT-4 Analysis:\n```json\n" + analysis + "\n```\n"
  }

  /** Strings glued together in order. */
  function Concat(parts: seq<string>): string
  {
    if parts == [] then "" else Concat(parts[..|parts| - 1]) + parts[|parts| - 1]
  }

  /** Gluing two lists of strings one after the other. */
  lemma {:induction false} ConcatAppend(a: seq<string>, b: seq<string>)
    ensures Concat(a + b) == Concat(a) + Concat(b)
    decreases |b|
  {
    if b == [] {
      assert a + b == a;
    } else {
      var front := b[..|b| - 1];
      assert (a + b)[..|a + b| - 1] == a + front;
      ConcatAppend(a, front);
    }
  }

  /** The texts of the blocks, one per block. */
  function Texts(bs: seq<Block>): (ts: seq<string>)
    ensures |ts| == |bs|
  {
    seq(|bs|, i requires 0 <= i < |bs| => RenderBlock(bs[i]))
  }

  /** The report text of an outline: its blocks' texts, one after another. */
  function Render(bs: seq<Block>): string
  {
    Concat(Texts(bs))
  }

  /** Rendering two outlines one after the other is rendering their concatenation. */
  lemma RenderConcat(a: seq<Block>, b: seq<Block>)
    ensures Render(a + b) == Render(a) + Render(b)
  {
    assert Texts(a + b) == Texts(a) + Texts(b);
    ConcatAppend(Texts(a), Texts(b));
  }

  /** Appending a block appends its text. */
  lemma RenderSnoc(bs: seq<Block>, b: Block)
    ensures Render(bs + [b]) == Render(bs) + RenderBlock(b)
  {
    RenderConcat(bs, [b]);
    assert Texts([b]) == [RenderBlock(b)];
    assert Concat([RenderBlock(b)]) == RenderBlock(b) by {
      assert [RenderBlock(b)][..0] == [];
    }
  }

  /** What `for chunk in result['chunks']` walks over. A list gives its items;
      an empty string or dict gives nothing; a non-empty string or dict yields
      strings, which the loop body then indexes by a key (a TypeError); any
      other value is not iterable (a TypeError). */
  function Items(j: Json): (r: Result<seq<Json>>)
    ensures r.Ok? <==> j.JArr? || j == JStr("") || j == JObj(map[])
    ensures j.JArr? ==> r == Ok(j.items)
    ensures r.Err? ==> r.error == TypeError
  {
    match j
    case JArr(items) => Ok(items)
    case JStr(s) => if s == "" then Ok([]) else Err(TypeError)
    case JObj(m) => if m == map[] then Ok([]) else Err(TypeError)
    case _ => Err(TypeError)
  }

  /** The section of one chunk record, reading its keys in the order the
      f-strings do; a value that is not a dict cannot be indexed by a key. */
  function ChunkBlock(c: Json, dumps: Json -> string, str: Json -> string): (r: Result<Block>)
    ensures r.Ok? <==> c.JObj? && {"chunk_number", "total_chunks", "frames_extracted", "analysis"} <= c.fields.Keys
    ensures r.Ok? ==> r.value == ChunkSection(str(c.fields["chunk_number"]), str(c.fields["total_chunks"]),
                                              str(c.fields["frames_extracted"]), dumps(c.fields["analysis"]))
  {
    match c
    case JObj(m) =>
      if "chunk_number" !in m then Err(KeyError("chunk_number"))
      else if "total_chunks" !in m then Err(KeyError("total_chunks"))
      else if "frames_extracted" !in m then Err(KeyError("frames_extracted"))
      else if "analysis" !in m then Err(KeyError("analysis"))
      else Ok(ChunkSection(str(m["chunk_number"]), str(m["total_chunks"]),
                           str(m["frames_extracted"]), dumps(m["analysis"])))
    case _ => Err(TypeError)
  }

  /** The sections of a list of chunk records; the first bad record's error wins. */
  function ChunkBlocks(items: seq<Json>, dumps: Json -> string, str: Json -> string): (r: Result<seq<Block>>)
    ensures r.Ok? <==> forall i :: 0 <= i < |items| ==> ChunkBlock(items[i], dumps, str).Ok?
    ensures r.Ok? ==> |r.value| == |items|
                      && forall i :: 0 <= i < |items| ==> ChunkBlock(items[i], dumps, str) == Ok(r.value[i])
    ensures r.Err? ==> exists i :: 0 <= i < |items| && ChunkBlock(items[i], dumps, str) == Err(r.error)
  {
    if items == [] then Ok([])
    else
      var front := ChunkBlocks(items[..|items| - 1], dumps, str);
      if front.Err? then Err(front.error)
      else
        match ChunkBlock(items[|items| - 1], dumps, str)
        case Err(e) => Err(e)
        case Ok(b) => Ok(front.value + [b])
  }

  /** True when the result has a non-empty custom prompt (`'custom_prompt' in result and result['custom_prompt']`). */
  predicate HasCustomPrompt(result: Object)
  {
    "custom_prompt" in result && Truthy(result["custom_prompt"])
  }

  /** The title, file name, analysis type and (when present) custom prompt lines. */
  function Header(result: Object, str: Json -> string): seq<Block>
    requires "filename" in result && "analysis_type" in result
  {
    [Title, Filename(str(result["filename"])), AnalysisType(str(result["analysis_type"]))]
      + (if HasCustomPrompt(result) then [CustomPrompt(str(result["custom_prompt"]))] else [])
  }

  /** The report's outline, or the exception building it raises. */
  function Outline(result: Object, dumps: Json -> string, str: Json -> string): Result<seq<Block>>
  {
    if "filename" !in result then Err(KeyError("filename"))
    else if "analysis_type" !in result then Err(KeyError("analysis_type"))
    else if "chunks" in result then
      match Items(result["chunks"])
      case Err(e) => Err(e)
      case Ok(items) =>
        match ChunkBlocks(items, dumps, str)
        case Err(e) => Err(e)
        case Ok(sections) => Ok(Header(result, str) + sections)
    else if "frames_extracted" !in result then Err(KeyError("frames_extracted"))
    else if "analysis" !in result then Err(KeyError("analysis"))
    else Ok(Header(result, str) + [SingleSection(str(result["frames_extracted"]), dumps(result["analysis"]))])
  }

  /** The report text of an outline, or its exception. */
  function Markdown(result: Object, dumps: Json -> string, str: Json -> string): Result<string>
  {
    match Outline(result, dumps, str)
    case Err(e) => Err(e)
    case Ok(bs) => Ok(Render(bs))
  }

  /** `generate_markdown`: appends the header lines, then one section per chunk
      or the single frames/analysis section, to a growing string. */
  method GenerateMarkdown(result: Object, dumps: Json -> string, str: Json -> string) returns (r: Result<string>)
    ensures r == Markdown(result, dumps, str)
  {
    if "filename" !in result {
      return Err(KeyError("filename"));
    }
    if "analysis_type" !in result {
      return Err(KeyError("analysis_type"));
    }
    var md := WriteHeader(result, str);
    ghost var header := Header(result, str);
    if "chunks" in result {
      var items := Items(result["chunks"]);
      if items.Err? {
        return Err(items.error);
      }
      r := WriteChunkSections(header, md, items.value, dumps, str);
    } else {
      if "frames_extracted" !in result {
        return Err(KeyError("frames_extracted"));
      }
      if "analysis" !in result {
        return Err(KeyError("analysis"));
      }
      var last := SingleSection(str(result["frames_extracted"]), dumps(result["analysis"]));
      RenderSnoc(header, last);
      r := Ok(md + RenderBlock(last));
    }
  }

  /** The title, file name, analysis type and optional custom prompt lines. */
  method WriteHeader(result: Object, str: Json -> string) returns (md: string)
    requires "filename" in result && "analysis_type" in result
    ensures md == Render(Header(result, str))
  {
    ghost var header: seq<Block> := [];
    md := "";
    assert md == Render(header) by {
      assert Texts(header) == [];
    }
    var step := Title;
    RenderSnoc(header, step);
    md := md + RenderBlock(step);
    header := header + [step];
    step := Filename(str(result["filename"]));
    RenderSnoc(header, step);
    md := md + RenderBlock(step);
    header := header + [step];
    step := AnalysisType(str(result["analysis_type"]));
    RenderSnoc(header, step);
    md := md + RenderBlock(step);
    header := header + [step];
    if HasCustomPrompt(result) {
      step := CustomPrompt(str(result["custom_prompt"]));
      RenderSnoc(header, step);
      md := md + RenderBlock(step);
      header := header + [step];
    }
    assert header == Header(result, str);
  }

  /** The `for chunk in result['chunks']` loop: one section per record, in
      order, stopping at the first record that raises. */
  method WriteChunkSections(ghost header: seq<Block>, md0: string, chunks: seq<Json>,
                            dumps: Json -> string, str: Json -> string) returns (r: Result<string>)
    requires md0 == Render(header)
    ensures r == match ChunkBlocks(chunks, dumps, str)
                 case Err(e) => Err(e)
                 case Ok(sections) => Ok(Render(header + sections))
  {
    var md := md0;
    var i := 0;
    assert chunks[..0] == [] && header + [] == header;
    while i < |chunks|
      invariant 0 <= i <= |chunks|
      invariant ChunkBlocks(chunks[..i], dumps, str).Ok?
      invariant md == Render(header + ChunkBlocks(chunks[..i], dumps, str).value)
    {
      assert chunks[..i + 1][..i] == chunks[..i];
      var section := ChunkBlock(chunks[i], dumps, str);
      if section.Err? {
        ChunkBlocksFirstError(chunks, i, dumps, str);
        return Err(section.error);
      }
      ghost var done := ChunkBlocks(chunks[..i], dumps, str).value;
      assert ChunkBlocks(chunks[..i + 1], dumps, str) == Ok(done + [section.value]);
      RenderSnoc(header + done, section.value);
      assert header + done + [section.value] == header + (done + [section.value]);
      md := md + RenderBlock(section.value);
      i := i + 1;
    }
    assert chunks[..i] == chunks;
    r := Ok(md);
  }

  /** When records before position i are fine and record i is bad, the list's
      error is record i's. */
  lemma ChunkBlocksFirstError(items: seq<Json>, i: nat, dumps: Json -> string, str: Json -> string)
    requires i < |items| && ChunkBlocks(items[..i], dumps, str).Ok? && ChunkBlock(items[i], dumps, str).Err?
    ensures ChunkBlocks(items, dumps, str) == Err(ChunkBlock(items[i], dumps, str).error)
    decreases |items|
  {
    var front := items[..|items| - 1];
    if i == |items| - 1 {
      assert front == items[..i];
    } else {
      assert front[..i] == items[..i] && front[i] == items[i];
      ChunkBlocksFirstError(front, i, dumps, str);
    }
  }

  /** The blocks after the header are all sections. */
  lemma BodyIsSections(result: Object, dumps: Json -> string, str: Json -> string)
    requires Outline(result, dumps, str).Ok?
    ensures var bs := Outline(result, dumps, str).value;
      var h := Header(result, str);
      && |h| <= |bs| && bs[..|h|] == h
      && forall i :: |h| <= i < |bs| ==> bs[i].ChunkSection? || bs[i].SingleSection?
  {
    var bs := Outline(result, dumps, str).value;
    var h := Header(result, str);
    if "chunks" in result {
      var items := Items(result["chunks"]).value;
      var sections := ChunkBlocks(items, dumps, str).value;
      assert bs == h + sections;
      forall i | |h| <= i < |bs|
        ensures bs[i].ChunkSection?
      {
        assert ChunkBlock(items[i - |h|], dumps, str) == Ok(bs[i]);
      }
    }
  }

  /** A report opens with its title: the outline starts with the title, file
      name and analysis type blocks, and the text starts with "# Video Analysis Result". */
  lemma ReportStartsWithTitle(result: Object, dumps: Json -> string, str: Json -> string)
    requires Outline(result, dumps, str).Ok?
    ensures var bs := Outline(result, dumps, str).value;
      |bs| >= 3 && bs[0] == Title
      && bs[1] == Filename(str(result["filename"])) && bs[2] == AnalysisType(str(result["analysis_type"]))
    ensures var text := Markdown(result, dumps, str).value;
      |text| >= |TITLE| && text[..|TITLE|] == TITLE
  {
    var bs := Outline(result, dumps, str).value;
    BodyIsSections(result, dumps, str);
    var rest := bs[1..];
    assert bs == [Title] + rest;
    RenderConcat([Title], rest);
    RenderSnoc([], Title);
    assert Render([]) == "" by {
      assert Texts([]) == [];
    }
    assert [] + [Title] == [Title];
    PrefixOfConcat(RenderBlock(Title), Render(rest));
  }

  lemma PrefixOfConcat(a: string, b: string)
    ensures |a + b| >= |a| && (a + b)[..|a|] == a
  {
  }

  /** The custom prompt line appears exactly when the result has a non-empty
      custom prompt, and then right after the analysis type line. */
  lemma CustomPromptLineIff(result: Object, dumps: Json -> string, str: Json -> string)
    requires Outline(result, dumps, str).Ok?
    ensures var bs := Outline(result, dumps, str).value;
      (exists i :: 0 <= i < |bs| && bs[i].CustomPrompt?) <==> HasCustomPrompt(result)
    ensures HasCustomPrompt(result) ==>
              Outline(result, dumps, str).value[3] == CustomPrompt(str(result["custom_prompt"]))
  {
    var bs := Outline(result, dumps, str).value;
    var h := Header(result, str);
    BodyIsSections(result, dumps, str);
    forall i | 0 <= i < |bs| && bs[i].CustomPrompt?
      ensures HasCustomPrompt(result)
    {
      assert i < |h| && bs[i] == h[i];
    }
    if HasCustomPrompt(result) {
      assert bs[3] == h[3];
    }
  }

  /** With a list of chunk records, the report has one "Chunk i of n" section
      per record, in list order, after the header, and nothing else. */
  lemma ChunkSectionsInOrder(result: Object, dumps: Json -> string, str: Json -> string)
    requires Outline(result, dumps, str).Ok?
    requires "chunks" in result && result["chunks"].JArr?
    ensures var bs := Outline(result, dumps, str).value;
      var h := |Header(result, str)|;
      var items := result["chunks"].items;
      && |bs| == h + |items|
      && (forall i :: 0 <= i < |items| ==>
            items[i].JObj? && bs[h + i] == ChunkSection(str(items[i].fields["chunk_number"]),
                                                         str(items[i].fields["total_chunks"]),
                                                         str(items[i].fields["frames_extracted"]),
                                                         dumps(items[i].fields["analysis"])))
      && (forall i :: 0 <= i < |bs| ==> !bs[i].SingleSection?)
  {
    var bs := Outline(result, dumps, str).value;
    var h := Header(result, str);
    var items := result["chunks"].items;
    var sections := ChunkBlocks(items, dumps, str).value;
    assert bs == h + sections;
    forall i | 0 <= i < |items|
      ensures bs[|h| + i] == sections[i] && ChunkBlock(items[i], dumps, str) == Ok(sections[i])
    {
    }
    forall i | 0 <= i < |bs|
      ensures !bs[i].SingleSection?
    {
      if i >= |h| {
        assert ChunkBlock(items[i - |h|], dumps, str) == Ok(bs[i]);
      }
    }
  }

  /** Without chunk records, the report has exactly one frames/analysis section, last. */
  lemma SingleSectionWithoutChunks(result: Object, dumps: Json -> string, str: Json -> string)
    requires Outline(result, dumps, str).Ok?
    requires "chunks" !in result
    ensures var bs := Outline(result, dumps, str).value;
      && bs[|bs| - 1] == SingleSection(str(result["frames_extracted"]), dumps(result["analysis"]))
      && (forall i :: 0 <= i < |bs| - 1 ==> !bs[i].SingleSection? && !bs[i].ChunkSection?)
  {
  }

  /** Which results can be rendered: every result with a file name and an
      analysis type, and either a list of complete chunk records or the
      frames/analysis pair; a missing file name is always reported first. */
  lemma OutlineSucceedsIff(result: Object, dumps: Json -> string, str: Json -> string)
    requires "chunks" in result ==> result["chunks"].JArr?
    ensures Outline(result, dumps, str).Ok? <==>
              && "filename" in result && "analysis_type" in result
              && ("chunks" in result ==>
                    forall i :: 0 <= i < |result["chunks"].items| ==>
                      ChunkBlock(result["chunks"].items[i], dumps, str).Ok?)
              && ("chunks" !in result ==> "frames_extracted" in result && "analysis" in result)
    ensures "filename" !in result ==> Outline(result, dumps, str) == Err(KeyError("filename"))
  {
  }
}
