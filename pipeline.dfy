/**
 * The recording-callback handler. A status other than "completed" is
 * answered 400 and nothing else happens. Otherwise the stages run in the
 * order fetch, normalise, transcribe, publish, inside the request: the first
 * stage that fails answers 500 and no later stage runs; "Thanks!" with 200
 * is answered only when all four succeed.
 */
module Pipeline {
  import opened Wrappers
  import opened Http
  import opened Title
  import opened Stages
  import opened Transcribe

  /** The outside world the pipeline talks to. */
  datatype Env = Env(
    fetch: (string, string, string) -> Exchange,  // GET url with basic auth (account id, token)
    decode: Decoder,
    encode: Encoder,
    engine: Engine,
    createPage: PageCreator,
    now: int)                                     // the clock when the page is created

  datatype Stage = Fetching | Normalizing | Transcribing | Publishing

  const PipelineOrder: seq<Stage> := [Fetching, Normalizing, Transcribing, Publishing]

  /** How one pipeline run ends. */
  datatype Run = Completed(page: Page) | FailedAt(stage: Stage, error: StageError)

  /** The pipeline as a state machine over the stages' outcomes. */
  function RunPipeline(cfg: Config, env: Env, url: string): (run: Run)
    ensures (run.FailedAt? && run.stage == Fetching)
      <==> DownloadRecording(env.fetch(url, cfg.twilioAccountSid, cfg.twilioAuthToken)).Err?
    ensures run.FailedAt? && run.stage == Publishing ==> run.error == CreatePageFailed
    ensures run.Completed? ==>
      && env.createPage(cfg.notionAuthToken, run.page)
      && run.page.title == TranscriptTitle(run.page.body)
      && run.page.parentId == cfg.notionDatabaseId
      && run.page.date == env.now
  {
    match DownloadRecording(env.fetch(url, cfg.twilioAccountSid, cfg.twilioAuthToken))
    case Err(e) => FailedAt(Fetching, e)
    case Ok(recording) =>
      match ResampleRecording(env.decode, env.encode, recording)
      case Err(e) => FailedAt(Normalizing, e)
      case Ok(audio) =>
        match Transcription(env.engine, audio.data)
        case Err(e) => FailedAt(Transcribing, e)
        case Ok(transcript) =>
          match UploadTranscript(env.createPage, cfg, env.now, transcript)
          case Err(e) => FailedAt(Publishing, e)
          case Ok(page) => Completed(page)
  }

  function StageIndex(stage: Stage): (i: nat)
    ensures i < |PipelineOrder| && PipelineOrder[i] == stage
  {
    match stage
    case Fetching => 0
    case Normalizing => 1
    case Transcribing => 2
    case Publishing => 3
  }

  /** The stages a run invoked: all of them in order when it completed, and
      those up to and including the failing one otherwise. */
  function StagesRun(run: Run): (stages: seq<Stage>)
    ensures |stages| > 0 && stages <= PipelineOrder
    ensures run.Completed? ==> stages == PipelineOrder
    ensures run.FailedAt? ==>
      && stages[|stages| - 1] == run.stage
      && forall j :: |stages| <= j < |PipelineOrder| ==> PipelineOrder[j] !in stages
  {
    match run
    case Completed(_) => PipelineOrder
    case FailedAt(stage, _) => PipelineOrder[..StageIndex(stage) + 1]
  }

  /** The handler's effect on the request, as a value. */
  function RecordingDecision(cfg: Config, env: Env, form: Form): Decision
  {
    if FormGet(form, "RecordingStatus") != "completed" then AbortWith(StatusBadRequest)
    else if RunPipeline(cfg, env, FormGet(form, "RecordingUrl")).Completed? then Wrote(StatusOK, Plain("Thanks!"))
    else AbortWith(StatusInternalServerError)
  }

  /** The stages the handler invokes, as a value. */
  function RecordingTrace(cfg: Config, env: Env, form: Form): seq<Stage>
  {
    if FormGet(form, "RecordingStatus") != "completed" then []
    else StagesRun(RunPipeline(cfg, env, FormGet(form, "RecordingUrl")))
  }

  /** The handler: `trace` lists the stages it invoked, in order. */
  method HandleRecording(cfg: Config, env: Env, form: Form) returns (d: Decision, trace: seq<Stage>)
    ensures FormGet(form, "RecordingStatus") != "completed" ==>
      d == AbortWith(StatusBadRequest) && trace == []
    ensures FormGet(form, "RecordingStatus") == "completed" ==>
      var run := RunPipeline(cfg, env, FormGet(form, "RecordingUrl"));
      && trace == StagesRun(run)
      && d == (if run.Completed? then Wrote(StatusOK, Plain("Thanks!")) else AbortWith(StatusInternalServerError))
    ensures d == RecordingDecision(cfg, env, form) && trace == RecordingTrace(cfg, env, form)
  {
    var status := FormGet(form, "RecordingStatus");
    if status != "completed" {
      return AbortWith(StatusBadRequest), [];
    }

    var recordingUrl := FormGet(form, "RecordingUrl");
    trace := [Fetching];
    var recording := DownloadRecording(env.fetch(recordingUrl, cfg.twilioAccountSid, cfg.twilioAuthToken));
    if recording.Err? {
      return AbortWith(StatusInternalServerError), trace;
    }

    trace := trace + [Normalizing];
    var resampled := ResampleRecording(env.decode, env.encode, recording.value);
    if resampled.Err? {
      return AbortWith(StatusInternalServerError), trace;
    }

    trace := trace + [Transcribing];
    var transcript := TranscribeRecording(env.engine, resampled.value.data);
    if transcript.Err? {
      return AbortWith(StatusInternalServerError), trace;
    }

    trace := trace + [Publishing];
    var uploaded := UploadTranscript(env.createPage, cfg, env.now, transcript.value);
    if uploaded.Err? {
      d := AbortWith(StatusInternalServerError);
    } else {
      d := Wrote(StatusOK, Plain("Thanks!"));
    }
  }

  /** A run completes exactly when every stage succeeds. */
  lemma CompletedIffEveryStageSucceeds(cfg: Config, env: Env, url: string)
    ensures RunPipeline(cfg, env, url).Completed? <==>
      var recording := DownloadRecording(env.fetch(url, cfg.twilioAccountSid, cfg.twilioAuthToken));
      && recording.Ok?
      && ResampleRecording(env.decode, env.encode, recording.value).Ok?
      && Transcription(env.engine, ResampleRecording(env.decode, env.encode, recording.value).value.data).Ok?
      && env.createPage(cfg.notionAuthToken,
           NewPage(cfg, env.now,
             Transcription(env.engine, ResampleRecording(env.decode, env.encode, recording.value).value.data).value))
  {
  }

  /** A fetch answered with a status other than 200 ends the run at the fetch:
      the engine and the notes service are never called. */
  lemma FetchNotOkStopsPipeline(cfg: Config, env: Env, url: string)
    requires var ex := env.fetch(url, cfg.twilioAccountSid, cfg.twilioAuthToken);
      ex.Replied? && ex.status != StatusOK
    ensures RunPipeline(cfg, env, url)
      == FailedAt(Fetching, UnexpectedStatus(env.fetch(url, cfg.twilioAccountSid, cfg.twilioAuthToken).status))
    ensures StagesRun(RunPipeline(cfg, env, url)) == [Fetching]
  {
  }

  /** A recording that is not mono ends the run at normalisation: the engine
      and the notes service are never called. */
  lemma MultiChannelNeverReachesEngine(cfg: Config, env: Env, url: string, recording: Bytes)
    requires DownloadRecording(env.fetch(url, cfg.twilioAccountSid, cfg.twilioAuthToken)) == Ok(recording)
    requires env.decode(recording).Some? && env.decode(recording).value.numChannels != WhisperNumChans
    ensures RunPipeline(cfg, env, url)
      == FailedAt(Normalizing, UnsupportedChannels(env.decode(recording).value.numChannels))
    ensures Transcribing !in StagesRun(RunPipeline(cfg, env, url))
    ensures Publishing !in StagesRun(RunPipeline(cfg, env, url))
  {
  }

  /**
   * End to end: a mono recording fetched with 200, normalised and processed
   * into segments followed by the end marker, produces exactly one page,
   * whose body is the segments' texts in order and whose title is derived
   * from it; the run completes when the notes service accepts that page.
   */
  lemma {:induction false} PublishesSegmentsInOrder(
    cfg: Config, env: Env, url: string, recording: Bytes, format: Format,
    audio: Bytes, pcm: Pcm, segments: seq<Next>, tail: seq<Next>)
    requires env.fetch(url, cfg.twilioAccountSid, cfg.twilioAuthToken) == Replied(StatusOK, Some(recording), true)
    requires env.decode(recording) == Some(format) && format.numChannels == WhisperNumChans
    requires env.encode(recording, TargetFormat(format)) == Some(audio)
    requires env.engine.pcm(audio) == Some(pcm) && env.engine.contextOk
    requires forall j :: 0 <= j < |segments| ==> segments[j].Got?
    requires Ends(segments + [Eof] + tail)
    requires env.engine.process(pcm) == Some(segments + [Eof] + tail)
    ensures var page := Page(cfg.notionDatabaseId, env.now, TranscriptTitle(Texts(segments)), Texts(segments));
      && (env.createPage(cfg.notionAuthToken, page) ==> RunPipeline(cfg, env, url) == Completed(page))
      && (!env.createPage(cfg.notionAuthToken, page) ==> RunPipeline(cfg, env, url) == FailedAt(Publishing, CreatePageFailed))
  {
    SegmentsThenEof(segments, tail);
  }
}
