/**
 * The Express routes of server/server.js as sequences of stages. Each stage
 * (the download, the Whisper run, the translation) is a collaborator given
 * as a function from its input to its outcome; a handler returns the HTTP
 * response it sends and the stages it ran, in order.
 */
module Server {
  import opened Wrappers
  import opened JsValues
  import opened Files

  /** The status and JSON body of `res.status(...).json(...)`; `res.json` alone sends 200. */
  datatype Response = Response(status: int, body: Json)

  /** A stage that a handler ran, with the input it was given. */
  datatype Stage =
    | Download(url: Json)
    | Transcribe(audioPath: string)
    | Translate(input: Json)

  const CookieFile := "server/youtube.com_cookies.txt"

  function ErrorBody(message: string): Json
  {
    Obj([("error", Str(message))])
  }

  /** The body of the `catch` of `/preload` and `/api/translateVideo`. */
  function Failure(message: string): Response
  {
    Response(500, Obj([("success", Bool(false)), ("error", Str(message))]))
  }

  const NoUrl := Response(400, ErrorBody("No YouTube URL provided"))

  /**
   * The outcome of the three-stage pipeline shared by `/preload` and
   * `/api/translateVideo`: the url check, then each stage on the previous
   * stage's result; the first failure ends the handler with a 500.
   * `third` is given the transcript as `pick` selects it, and `success`
   * builds the body from the transcript and the third stage's result.
   */
  function Pipeline(
    body: Json,
    download: Json -> Result<string>,
    transcribe: string -> Result<Json>,
    pick: Json -> Json,
    third: Json -> Result<Json>,
    success: (Json, Json) -> Json): (Response, seq<Stage>)
  {
    var url := Get(body, "url");
    if !Truthy(url) then (NoUrl, [])
    else match download(url)
      case Err(e) => (Failure(e), [Download(url)])
      case Ok(audioPath) =>
        match transcribe(audioPath)
        case Err(e) => (Failure(e), [Download(url), Transcribe(audioPath)])
        case Ok(english) =>
          var stages := [Download(url), Transcribe(audioPath), Translate(pick(english))];
          match third(pick(english))
          case Err(e) => (Failure(e), stages)
          case Ok(out) => (Response(200, success(english, out)), stages)
  }

  /**
   * The stages a handler runs are always a prefix of download, transcribe,
   * translate, each fed with the previous one's result, and a 200 is sent only
   * when all three ran and succeeded; no stage runs without a url.
   */
  lemma PipelineSequencing(
    body: Json,
    download: Json -> Result<string>,
    transcribe: string -> Result<Json>,
    pick: Json -> Json,
    third: Json -> Result<Json>,
    success: (Json, Json) -> Json)
    ensures var (resp, ran) := Pipeline(body, download, transcribe, pick, third, success);
      var url := Get(body, "url");
      && (!Truthy(url) <==> ran == [])
      && (|ran| >= 1 ==> ran[0] == Download(url))
      && (|ran| >= 2 ==> download(url).Ok? && ran[1] == Transcribe(download(url).value))
      && (|ran| >= 3 ==> (transcribe(download(url).value).Ok?
            && ran[2] == Translate(pick(transcribe(download(url).value).value))))
      && |ran| <= 3
      && (resp.status == 200 <==>
            |ran| == 3 && third(pick(transcribe(download(url).value).value)).Ok?)
  {
  }

  /** Every failure is reported with the message of the stage that failed, and nothing runs after it. */
  lemma PipelineFailure(
    body: Json,
    download: Json -> Result<string>,
    transcribe: string -> Result<Json>,
    pick: Json -> Json,
    third: Json -> Result<Json>,
    success: (Json, Json) -> Json)
    requires Truthy(Get(body, "url"))
    ensures var (resp, ran) := Pipeline(body, download, transcribe, pick, third, success);
      var url := Get(body, "url");
      && (download(url).Err? ==> resp == Failure(download(url).message) && |ran| == 1)
      && (download(url).Ok? && transcribe(download(url).value).Err? ==>
            resp == Failure(transcribe(download(url).value).message) && |ran| == 2)
      && (download(url).Ok? && transcribe(download(url).value).Ok?
          && third(pick(transcribe(download(url).value).value)).Err? ==>
            resp == Failure(third(pick(transcribe(download(url).value).value)).message) && |ran| == 3)
      && (resp.status != 200 ==> resp.status == 500 && Get(resp.body, "success") == Bool(false))
  {
  }

  /** `/preload` hands the whole transcript to the translator. */
  function Whole(transcript: Json): Json
  {
    transcript
  }

  function PreloadBody(english: Json, persian: Json): Json
  {
    Obj([("success", Bool(true)), ("english", english), ("persian", persian)])
  }

  /** `POST /preload` (server/server.js:21-40). `translateToPersian` is the collaborator `translate`. */
  method Preload(
    body: Json,
    download: Json -> Result<string>,
    transcribe: string -> Result<Json>,
    translate: Json -> Result<Json>)
    returns (resp: Response, ran: seq<Stage>)
    ensures (resp, ran) == Pipeline(body, download, transcribe, Whole, translate, PreloadBody)
  {
    ran := [];
    var url := Get(body, "url");
    if !Truthy(url) {
      return NoUrl, ran;
    }
    ran := ran + [Download(url)];
    var audioPath := download(url);
    if audioPath.Err? {
      assert ran == [Download(url)];
      return Failure(audioPath.message), ran;
    }
    ran := ran + [Transcribe(audioPath.value)];
    var english := transcribe(audioPath.value);
    if english.Err? {
      assert ran == [Download(url), Transcribe(audioPath.value)];
      return Failure(english.message), ran;
    }
    ran := ran + [Translate(english.value)];
    var persian := translate(english.value);
    assert ran == [Download(url), Transcribe(audioPath.value), Translate(english.value)];
    if persian.Err? {
      return Failure(persian.message), ran;
    }
    resp := Response(200, PreloadBody(english.value, persian.value));
  }

  /** On success `/preload` answers `{success: true, english, persian}` with the transcript and its translation. */
  lemma PreloadSuccess(
    body: Json,
    download: Json -> Result<string>,
    transcribe: string -> Result<Json>,
    translate: Json -> Result<Json>)
    requires Pipeline(body, download, transcribe, Whole, translate, PreloadBody).0.status == 200
    ensures var english := transcribe(download(Get(body, "url")).value).value;
      && Pipeline(body, download, transcribe, Whole, translate, PreloadBody).0.body
         == PreloadBody(english, translate(english).value)
      && Get(Pipeline(body, download, transcribe, Whole, translate, PreloadBody).0.body, "success") == Bool(true)
  {
    PipelineSequencing(body, download, transcribe, Whole, translate, PreloadBody);
  }

  function CaptionsBody(transcript: Json, captions: Json): Json
  {
    Obj([("success", Bool(true)), ("captions", captions)])
  }

  /** `const { segments } = await runWhisper(audioPath)`. */
  function Segments(transcript: Json): Json
  {
    Get(transcript, "segments")
  }

  /** The ReferenceError of calling a name that is not defined. */
  const TranslateSegmentsUndefined := "translateSegments is not defined"

  /**
   * `translateSegments(segments)`: `None` is the source as written, where no
   * such function is defined or imported and the call throws.
   */
  function TranslateSegmentsStage(translateSegments: Option<Json -> Result<Json>>): Json -> Result<Json>
  {
    match translateSegments
    case None => _ => Err(TranslateSegmentsUndefined)
    case Some(f) => f
  }

  /** `POST /api/translateVideo` (server/server.js:56-81). */
  method TranslateVideo(
    body: Json,
    download: Json -> Result<string>,
    transcribe: string -> Result<Json>,
    translateSegments: Option<Json -> Result<Json>>)
    returns (resp: Response, ran: seq<Stage>)
    ensures (resp, ran) == Pipeline(body, download, transcribe, Segments, TranslateSegmentsStage(translateSegments), CaptionsBody)
  {
    ran := [];
    var url := Get(body, "url");
    if !Truthy(url) {
      return NoUrl, ran;
    }
    ran := ran + [Download(url)];
    var audioPath := download(url);
    if audioPath.Err? {
      assert ran == [Download(url)];
      return Failure(audioPath.message), ran;
    }
    ran := ran + [Transcribe(audioPath.value)];
    var transcript := transcribe(audioPath.value);
    if transcript.Err? {
      assert ran == [Download(url), Transcribe(audioPath.value)];
      return Failure(transcript.message), ran;
    }
    var segments := Segments(transcript.value);
    ran := ran + [Translate(segments)];
    var persianSegments := TranslateSegmentsStage(translateSegments)(segments);
    assert ran == [Download(url), Transcribe(audioPath.value), Translate(segments)];
    if persianSegments.Err? {
      return Failure(persianSegments.message), ran;
    }
    resp := Response(200, CaptionsBody(transcript.value, persianSegments.value));
  }

  /**
   * As written, `/api/translateVideo` never succeeds: whenever a url is given,
   * it downloads and transcribes the video and then answers 500 with the
   * ReferenceError, or the earlier stage's error.
   */
  lemma TranslateVideoAsWrittenFails(
    body: Json,
    download: Json -> Result<string>,
    transcribe: string -> Result<Json>)
    ensures var (resp, ran) := Pipeline(body, download, transcribe, Segments, TranslateSegmentsStage(None), CaptionsBody);
      && resp.status != 200
      && (Truthy(Get(body, "url")) && download(Get(body, "url")).Ok?
          && transcribe(download(Get(body, "url")).value).Ok? ==>
            resp == Failure(TranslateSegmentsUndefined) && |ran| == 3)
  {
  }

  /**
   * With a `translateSegments` defined, a video whose download, transcription
   * and translation succeed is answered 200 with `{success: true, captions}`
   * holding the translated segments of the transcript.
   */
  lemma TranslateVideoWithTranslator(
    body: Json,
    download: Json -> Result<string>,
    transcribe: string -> Result<Json>,
    translateSegments: Json -> Result<Json>)
    requires Truthy(Get(body, "url")) && download(Get(body, "url")).Ok?
    requires transcribe(download(Get(body, "url")).value).Ok?
    requires translateSegments(Segments(transcribe(download(Get(body, "url")).value).value)).Ok?
    ensures Pipeline(body, download, transcribe, Segments, TranslateSegmentsStage(Some(translateSegments)), CaptionsBody).0
      == Response(200, Obj([("success", Bool(true)),
           ("captions", translateSegments(Segments(transcribe(download(Get(body, "url")).value).value)).value)]))
  {
  }

  /**
   * `POST /upload-cookies` (server/server.js:43-54). `diskError` is what
   * `writeFileSync` throws for a string, if anything; a value that is not a
   * string makes it throw a TypeError, whose message ends with Node's
   * description `received` of that value.
   */
  method UploadCookies(fs: FileSystem, body: Json, diskError: Option<string>, received: string) returns (resp: Response)
    modifies fs
    ensures !Truthy(Get(body, "cookies")) ==>
      resp == Response(400, ErrorBody("No cookies provided")) && fs.files == old(fs.files)
    ensures Truthy(Get(body, "cookies")) && !Get(body, "cookies").Str? ==>
      resp == Response(500, ErrorBody(WriteTypeError(received))) && fs.files == old(fs.files)
    ensures Get(body, "cookies").Str? && Truthy(Get(body, "cookies")) && diskError.Some? ==>
      resp == Response(500, ErrorBody(diskError.value)) && fs.files == old(fs.files)
    ensures Get(body, "cookies").Str? && Truthy(Get(body, "cookies")) && diskError.None? ==>
      resp == Response(200, Obj([("ok", Bool(true))]))
      && fs.files == old(fs.files)[CookieFile := Get(body, "cookies").s]
  {
    resp := StoreCookies(fs, Get(body, "cookies"), diskError, received);
  }

  /** The handler of `/upload-cookies` once `req.body.cookies` is read. */
  method StoreCookies(fs: FileSystem, cookies: Json, diskError: Option<string>, received: string) returns (resp: Response)
    modifies fs
    ensures !Truthy(cookies) ==>
      resp == Response(400, ErrorBody("No cookies provided")) && fs.files == old(fs.files)
    ensures Truthy(cookies) && !cookies.Str? ==>
      resp == Response(500, ErrorBody(WriteTypeError(received))) && fs.files == old(fs.files)
    ensures cookies.Str? && Truthy(cookies) && diskError.Some? ==>
      resp == Response(500, ErrorBody(diskError.value)) && fs.files == old(fs.files)
    ensures cookies.Str? && Truthy(cookies) && diskError.None? ==>
      resp == Response(200, Obj([("ok", Bool(true))])) && fs.files == old(fs.files)[CookieFile := cookies.s]
  {
    if !Truthy(cookies) {
      return Response(400, ErrorBody("No cookies provided"));
    }
    if !cookies.Str? {
      return Response(500, ErrorBody(WriteTypeError(received)));
    }
    if diskError.Some? {
      return Response(500, ErrorBody(diskError.value));
    }
    fs.Write(CookieFile, cookies.s);
    resp := Response(200, Obj([("ok", Bool(true))]));
  }

  /**
   * `String(err)` of the TypeError `writeFileSync` throws for data that is not
   * a string; `received` is Node's description of the value (such as
   * "type number (5)").
   */
  function WriteTypeError(received: string): string
  {
    "TypeError [ERR_INVALID_ARG_TYPE]: The \"data\" argument must be of type string or an instance of Buffer, TypedArray, or DataView. Received " + received
  }

  const HealthBody := Obj([("status", Str("ok")), ("message", Str("Server running and ready ✅"))])

  /** `GET /health` (server/server.js:83-85): the same answer for every request. */
  method Health() returns (resp: Response)
    ensures resp.status == 200 && Get(resp.body, "status") == Str("ok")
    ensures resp == Response(200, HealthBody)
  {
    resp := Response(200, HealthBody);
  }
}
