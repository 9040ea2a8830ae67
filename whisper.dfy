/**
 * server/whisperTranscriber.js: picking the segment array out of the several
 * JSON shapes whisper.cpp may write (`extractSegmentsFromJson`), normalising
 * the segments and building `fullText`, and the decisions of `runWhisper`'s
 * `close` handler — the temporary audio file is deleted first, whatever the
 * exit code, then the exit code, the JSON file and its contents decide
 * between the transcript and a rejection.
 *
 * The whisper-cli process is given as its outcome (a start failure, or an
 * exit code with the stderr chunks and the JSON file it wrote); `JSON.parse`
 * is a parameter.
 */
module Whisper {
  import opened Wrappers
  import opened Text
  import opened JsValues
  import opened Files

  /** `Array.isArray(v) && v.length && typeof v[0]?.text === "string"`. */
  predicate IsSegmentList(v: Json)
  {
    v.Arr? && |v.items| > 0 && Get(v.items[0], "text").Str?
  }

  /** `Object.values(v)`: an array's elements, an object's property values, a string's characters. */
  function Values(v: Json): seq<Json>
  {
    match v
    case Arr(items) => items
    case Obj(fields) => seq(|fields|, i requires 0 <= i < |fields| => fields[i].1)
    case Str(s) => seq(|s|, i requires 0 <= i < |s| => Str([s[i]]))
    case _ => []
  }

  /** The first of `vals` that is a segment list (server/whisperTranscriber.js:44-47). */
  function FirstSegmentList(vals: seq<Json>): (r: Option<seq<Json>>)
    ensures r.None? <==> forall j :: 0 <= j < |vals| ==> !IsSegmentList(vals[j])
    ensures r.Some? ==> exists i :: (0 <= i < |vals| && IsSegmentList(vals[i]) && r.value == vals[i].items
      && forall j :: 0 <= j < i ==> !IsSegmentList(vals[j]))
  {
    if |vals| == 0 then None
    else if IsSegmentList(vals[0]) then Some(vals[0].items)
    else
      var r := FirstSegmentList(vals[1..]);
      assert forall j :: 1 <= j < |vals| ==> vals[j] == vals[1..][j - 1];
      r
  }

  /**
   * `extractSegmentsFromJson(data)` (server/whisperTranscriber.js:25-49). The
   * one case that throws is a one-element array whose element is `null`:
   * reading `data[0].segments` is then a TypeError. The error carries the
   * TypeError's `message`, without its name, as every rejection here does.
   */
  function ExtractSegments(data: Json): (r: Result<seq<Json>>)
    ensures !Truthy(data) ==> r == Ok([])
    ensures Truthy(data) && IsSegmentList(data) ==> r == Ok(data.items)
    ensures Truthy(data) && !IsSegmentList(data) && Get(data, "segments").Arr? ==> r == Ok(Get(data, "segments").items)
    ensures r.Err? <==> Truthy(data) && data.Arr? && !IsSegmentList(data) && |data.items| == 1 && IsNullish(data.items[0])
    ensures r.Err? ==> r.message == "Cannot read properties of " + ToString(data.items[0]) + " (reading 'segments')"
  {
    if !Truthy(data) then Ok([])
    else if IsSegmentList(data) then Ok(data.items)
    else if Get(data, "segments").Arr? then Ok(Get(data, "segments").items)
    else if Get(data, "chunks").Arr? then Ok(Get(data, "chunks").items)
    else if data.Arr? && |data.items| == 1 && IsNullish(data.items[0]) then
      Err("Cannot read properties of " + ToString(data.items[0]) + " (reading 'segments')")
    else if data.Arr? && |data.items| == 1 && Get(data.items[0], "segments").Arr? then
      Ok(Get(data.items[0], "segments").items)
    else
      match FirstSegmentList(Values(data))
      case Some(segs) => Ok(segs)
      case None => Ok([])
  }

  /**
   * Every non-empty list that `extractSegmentsFromJson` returns is one of the
   * places it looks, in its order: the input itself, `.segments`,
   * `.chunks`, the `segments` of a lone element, or the first segment list
   * among the input's values.
   */
  lemma ExtractSegmentsOrigin(data: Json)
    requires ExtractSegments(data).Ok? && ExtractSegments(data).value != []
    ensures var segs := ExtractSegments(data).value;
      || (IsSegmentList(data) && segs == data.items)
      || (Get(data, "segments").Arr? && segs == Get(data, "segments").items)
      || (Get(data, "chunks").Arr? && segs == Get(data, "chunks").items)
      || (data.Arr? && |data.items| == 1 && Get(data.items[0], "segments").Arr? && segs == Get(data.items[0], "segments").items)
      || (exists i :: 0 <= i < |Values(data)| && IsSegmentList(Values(data)[i]) && segs == Values(data)[i].items)
  {
  }

  /** The first segment list of `vals` is the one at the lowest index. */
  lemma {:induction false} FirstSegmentListAt(vals: seq<Json>, i: nat)
    requires i < |vals| && IsSegmentList(vals[i])
    requires forall j :: 0 <= j < i ==> !IsSegmentList(vals[j])
    ensures FirstSegmentList(vals) == Some(vals[i].items)
  {
    if i > 0 {
      assert vals[1..][i - 1] == vals[i];
      assert forall j :: 0 <= j < i - 1 ==> vals[1..][j] == vals[j + 1];
      FirstSegmentListAt(vals[1..], i - 1);
      assert !IsSegmentList(vals[0]);
    }
  }

  /** An object whose segment list sits under a key other than `segments` or `chunks` gives the first such list. */
  lemma {:induction false} ExtractFromOtherKey(fields: seq<(string, Json)>, i: nat)
    requires i < |fields| && IsSegmentList(fields[i].1)
    requires forall j :: 0 <= j < i ==> !IsSegmentList(fields[j].1)
    requires !Lookup(fields, "segments").Arr? && !Lookup(fields, "chunks").Arr?
    ensures ExtractSegments(Obj(fields)) == Ok(fields[i].1.items)
  {
    FirstSegmentListAt(Values(Obj(fields)), i);
  }

  /** A normalised segment; times are integers in this model. */
  datatype Segment = Segment(start: int, end: int, text: string)

  /**
   * `typeof v === "number" ? v : Number(v || 0)` for the values the model
   * covers: numbers, falsy values (0) and `true` (1).
   */
  function TimeOf(v: Json): int
  {
    if v.Num? then v.n
    else if v == Bool(true) then 1
    else 0
  }

  /** `String(s.text || "").trim()`. */
  function SegmentText(s: Json): (t: string)
    ensures Trimmed(t)
  {
    TrimIsSlice(ToString(Or(Get(s, "text"), Str(""))));
    Trim(ToString(Or(Get(s, "text"), Str(""))))
  }

  /** One element of `rawSegments.map(...)` (server/whisperTranscriber.js:130-134), for an element that is not `null` or `undefined`. */
  function SegmentOf(s: Json): Segment
  {
    Segment(TimeOf(Get(s, "start")), TimeOf(Get(s, "end")), SegmentText(s))
  }

  predicate NoneNullish(raw: seq<Json>)
  {
    forall i :: 0 <= i < |raw| ==> !IsNullish(raw[i])
  }

  /** The index of the first `null` or `undefined` element. */
  function FirstNullish(raw: seq<Json>): (k: nat)
    requires !NoneNullish(raw)
    ensures k < |raw| && IsNullish(raw[k])
    ensures forall j :: 0 <= j < k ==> !IsNullish(raw[j])
  {
    if IsNullish(raw[0]) then 0
    else
      assert !NoneNullish(raw[1..]) by {
        var j :| 0 <= j < |raw| && IsNullish(raw[j]);
        assert raw[1..][j - 1] == raw[j];
      }
      var k := FirstNullish(raw[1..]);
      assert raw[1..][k] == raw[k + 1];
      assert forall j :: 1 <= j < k + 1 ==> raw[j] == raw[1..][j - 1];
      k + 1
  }

  /**
   * `rawSegments.map(...)`: each element is normalised in order; the first
   * `null` or `undefined` element throws the TypeError of reading its `start`,
   * whose `message` (without the name `TypeError`) is the error.
   */
  function NormalizeSegments(raw: seq<Json>): (r: Result<seq<Segment>>)
    ensures r.Ok? <==> NoneNullish(raw)
    ensures r.Err? ==> r.message == "Cannot read properties of " + ToString(raw[FirstNullish(raw)]) + " (reading 'start')"
    ensures r.Ok? ==> |r.value| == |raw|
    ensures r.Ok? ==> forall i :: 0 <= i < |raw| ==> r.value[i] == SegmentOf(raw[i]) && Trimmed(r.value[i].text)
  {
    if NoneNullish(raw) then Ok(seq(|raw|, i requires 0 <= i < |raw| => SegmentOf(raw[i])))
    else Err("Cannot read properties of " + ToString(raw[FirstNullish(raw)]) + " (reading 'start')")
  }

  /** Normalisation keeps count and order, trims each text, and reads a missing `start` or `end` as 0. */
  lemma NormalizeSegmentsKeepsOrder(raw: seq<Json>, i: nat)
    requires NormalizeSegments(raw).Ok? && i < |raw|
    ensures var seg := NormalizeSegments(raw).value[i];
      && seg.text == Trim(ToString(Or(Get(raw[i], "text"), Str(""))))
      && (!Truthy(Get(raw[i], "start")) ==> seg.start == 0)
      && (!Truthy(Get(raw[i], "end")) ==> seg.end == 0)
      && (Get(raw[i], "start").Num? ==> seg.start == Get(raw[i], "start").n)
      && (Get(raw[i], "end").Num? ==> seg.end == Get(raw[i], "end").n)
  {
  }

  function Texts(segments: seq<Segment>): (r: seq<string>)
    ensures |r| == |segments| && forall i :: 0 <= i < |segments| ==> r[i] == segments[i].text
  {
    seq(|segments|, i requires 0 <= i < |segments| => segments[i].text)
  }

  /** `segments.map(s => s.text).filter(Boolean).join(" ").trim()`. */
  function FullText(segments: seq<Segment>): string
  {
    Trim(JoinWords(Texts(segments)))
  }

  lemma {:induction false} JoinTrimmed(xs: seq<string>)
    requires forall i :: 0 <= i < |xs| ==> xs[i] != "" && Trimmed(xs[i])
    ensures Trimmed(Join(xs, " "))
    ensures |xs| > 0 ==> (|Join(xs, " ")| > 0 && Join(xs, " ")[0] == xs[0][0]
      && Join(xs, " ")[|Join(xs, " ")| - 1] == xs[|xs| - 1][|xs[|xs| - 1]| - 1])
  {
    if |xs| > 1 {
      JoinTrimmed(xs[1..]);
      var rest := Join(xs[1..], " ");
      assert Join(xs, " ") == xs[0] + " " + rest;
    }
  }

  lemma {:induction false} NonEmptyKeepsTrimmed(xs: seq<string>)
    requires forall i :: 0 <= i < |xs| ==> Trimmed(xs[i])
    ensures forall i :: 0 <= i < |NonEmpty(xs)| ==> Trimmed(NonEmpty(xs)[i])
  {
    if |xs| > 0 {
      assert forall i :: 0 <= i < |xs| - 1 ==> xs[1..][i] == xs[i + 1];
      NonEmptyKeepsTrimmed(xs[1..]);
    }
  }

  /**
   * Because every segment text is already trimmed, the final `.trim()` of
   * `fullText` removes nothing: `fullText` is exactly the non-empty texts in
   * order, joined by single spaces (server/whisperTranscriber.js:136-140).
   */
  lemma FullTextIsJoin(segments: seq<Segment>)
    requires forall i :: 0 <= i < |segments| ==> Trimmed(segments[i].text)
    ensures FullText(segments) == JoinWords(Texts(segments))
  {
    var ts := Texts(segments);
    NonEmptyKeepsTrimmed(ts);
    JoinTrimmed(NonEmpty(ts));
    TrimOfTrimmed(JoinWords(ts));
  }

  /** What `runWhisper` resolves with. */
  datatype Transcript = Transcript(segments: seq<Segment>, fullText: string)

  /** The whisper-cli process: it fails to start, or it exits (code `None` when killed by a signal). */
  datatype WhisperRun =
    | SpawnError(message: string)
    | Exited(code: Option<int>, stderrChunks: seq<string>, writtenJson: Option<string>)

  function Concat(chunks: seq<string>): string
  {
    if |chunks| == 0 then "" else Concat(chunks[..|chunks| - 1]) + chunks[|chunks| - 1]
  }

  /** `stderrData += d.toString()` for each chunk, in arrival order. */
  method CollectStderr(chunks: seq<string>) returns (stderrData: string)
    ensures stderrData == Concat(chunks)
  {
    stderrData := "";
    var i := 0;
    while i < |chunks|
      invariant 0 <= i <= |chunks|
      invariant stderrData == Concat(chunks[..i])
    {
      assert chunks[..i + 1][..i] == chunks[..i];
      stderrData := stderrData + chunks[i];
      i := i + 1;
    }
    assert chunks[..i] == chunks;
  }

  function CodeText(code: Option<int>): string
  {
    match code
    case None => "null"
    case Some(c) => IntToDecimal(c)
  }

  /** The transcript built from the parsed JSON of `outputJson` (server/whisperTranscriber.js:120-140). */
  function TranscriptOf(json: Json, outputJson: string): Result<Transcript>
  {
    match ExtractSegments(json)
    case Err(e) => Err(e)
    case Ok(raw) =>
      if |raw| == 0 then Err("No segments found in Whisper output JSON: " + outputJson)
      else match NormalizeSegments(raw)
        case Err(e) => Err(e)
        case Ok(segments) => Ok(Transcript(segments, FullText(segments)))
  }

  /** The `close` code Node reports after a process failed to start (the negated errno of ENOENT). */
  const SpawnFailureCode := -2

  /** What the `close` handler settles with, once the audio file is gone and `files` is what remains. */
  function CloseOutcome(
    files: map<string, string>, outputJson: string, code: Option<int>, stderrData: string,
    parse: string -> Result<Json>): Result<Transcript>
  {
    if code != Some(0) then
      Err("Whisper failed (code " + CodeText(code) + "): " + (if stderrData != "" then stderrData else "no stderr"))
    else if outputJson !in files then Err("Output JSON not found: " + outputJson)
    else match parse(files[outputJson])
      case Err(m) => Err("Invalid JSON produced by Whisper: " + m)
      case Ok(json) => TranscriptOf(json, outputJson)
  }

  /** A transcript is produced only from a zero exit, a JSON file that parses, and at least one segment; it keeps their count. */
  lemma CloseOutcomeSuccess(
    files: map<string, string>, outputJson: string, code: Option<int>, stderrData: string,
    parse: string -> Result<Json>)
    requires CloseOutcome(files, outputJson, code, stderrData, parse).Ok?
    ensures code == Some(0) && outputJson in files && parse(files[outputJson]).Ok?
    ensures var t := CloseOutcome(files, outputJson, code, stderrData, parse).value;
      var raw := ExtractSegments(parse(files[outputJson]).value);
      && raw.Ok? && |raw.value| > 0
      && |t.segments| == |raw.value|
      && t.fullText == JoinWords(Texts(t.segments))
  {
    var raw := ExtractSegments(parse(files[outputJson]).value).value;
    var segments := NormalizeSegments(raw).value;
    FullTextIsJoin(segments);
  }

  /**
   * The part of the `close` handler after the audio file is gone
   * (server/whisperTranscriber.js:96-150): the JSON file is removed only
   * after a transcript was built from it.
   */
  method SettleClose(
    fs: FileSystem, outputJson: string, code: Option<int>, stderrData: string,
    parse: string -> Result<Json>)
    returns (r: Result<Transcript>)
    modifies fs
    ensures r == CloseOutcome(old(fs.files), outputJson, code, stderrData, parse)
    ensures fs.files == if r.Ok? then old(fs.files) - {outputJson} else old(fs.files)
  {
    if code != Some(0) {
      return Err("Whisper failed (code " + CodeText(code) + "): " + (if stderrData != "" then stderrData else "no stderr"));
    }
    var jsonExists := fs.Exists(outputJson);
    if !jsonExists {
      return Err("Output JSON not found: " + outputJson);
    }
    var raw := fs.files[outputJson];
    var parsed := parse(raw);
    if parsed.Err? {
      return Err("Invalid JSON produced by Whisper: " + parsed.message);
    }
    r := TranscriptOf(parsed.value, outputJson);
    if r.Ok? {
      var _ := fs.Unlink(outputJson);
    }
  }

  /**
   * The `close` handler (server/whisperTranscriber.js:88-154). The audio file
   * is removed before anything else; the JSON file is removed only after a
   * transcript was built.
   */
  method OnClose(
    fs: FileSystem, audioPath: string, outputJson: string, code: Option<int>, stderrData: string,
    parse: string -> Result<Json>)
    returns (r: Result<Transcript>)
    modifies fs
    ensures r == CloseOutcome(old(fs.files) - {audioPath}, outputJson, code, stderrData, parse)
    ensures fs.files == if r.Ok? then old(fs.files) - {audioPath, outputJson} else old(fs.files) - {audioPath}
  {
    var audioExists := fs.Exists(audioPath);
    if audioExists {
      var _ := fs.Unlink(audioPath);
    }
    ghost var remaining := fs.files;
    assert remaining == old(fs.files) - {audioPath};
    r := SettleClose(fs, outputJson, code, stderrData, parse);
    assert remaining - {outputJson} == old(fs.files) - {audioPath, outputJson};
  }

  /**
   * `runWhisper(audioPath)`: the process either fails to start or exits
   * after writing its JSON file and stderr; the close handler then decides.
   * A process that fails to start emits `error`, which rejects, and then
   * `close` with a negative code, whose handler still removes the audio file
   * (its own rejection comes too late to matter).
   */
  method RunWhisper(
    fs: FileSystem, audioPath: string, outputJson: string, run: WhisperRun,
    parse: string -> Result<Json>)
    returns (r: Result<Transcript>)
    modifies fs
    ensures run.SpawnError? ==>
      r == Err("Failed to start Whisper process: " + run.message) && fs.files == old(fs.files) - {audioPath}
    ensures run.Exited? ==>
      var written := if run.writtenJson.Some? then old(fs.files)[outputJson := run.writtenJson.value] else old(fs.files);
      && r == CloseOutcome(written - {audioPath}, outputJson, run.code, Concat(run.stderrChunks), parse)
      && fs.files == (if r.Ok? then written - {audioPath, outputJson} else written - {audioPath})
  {
    if run.SpawnError? {
      r := Err("Failed to start Whisper process: " + run.message);
      var _ := OnClose(fs, audioPath, outputJson, Some(SpawnFailureCode), "", parse);
      return;
    }
    if run.writtenJson.Some? {
      fs.Write(outputJson, run.writtenJson.value);
    }
    var stderrData := CollectStderr(run.stderrChunks);
    r := OnClose(fs, audioPath, outputJson, run.code, stderrData, parse);
  }
}
