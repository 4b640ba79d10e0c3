/**
 * The configuration and the stages of the recording pipeline other than
 * transcription: fetching the recording, normalising its audio, and the
 * note published for a transcript. What the foreign libraries compute (the
 * HTTP exchange, WAV decoding, resampling and encoding, the notes-service
 * call) is given as parameters; the decisions the service takes on their
 * results are modelled.
 */
module Stages {
  import opened Wrappers
  import opened Title
  import opened Http

  type Bytes = seq<bv8>

  /** The process configuration, read once at startup. */
  datatype Config = Config(
    externalHostname: string,
    callerWhitelist: seq<string>,
    twilioAccountSid: string,
    twilioAuthToken: string,
    notionAuthToken: string,
    notionDatabaseId: string)

  /** Why a stage failed. */
  datatype StageError =
    | RequestFailed                    // the GET could not be built or sent
    | UnexpectedStatus(code: int)      // the GET was answered with a status other than 200
    | ReadFailed                       // the response body could not be read
    | CloseFailed                      // the response body could not be closed
    | DecodeFailed                     // the recording is not a readable WAV file
    | UnsupportedChannels(count: int)  // the recording is not mono
    | EncodeFailed                     // the resampled audio could not be encoded
    | PcmFailed                        // the normalised audio could not be read as PCM
    | ContextFailed                    // no inference context could be made
    | ProcessFailed                    // inference failed
    | SegmentFailed(reason: string)    // reading a segment failed with an error other than end-of-segments
    | CreatePageFailed                 // the notes service refused the page

  // ---------------------------------------------------------------- download

  /** What the GET of the recording produced. */
  datatype Exchange =
    | Unsent                                                 // building or sending the request failed
    | Replied(status: int, body: Option<Bytes>, closed: bool) // body None: reading it failed

  /** The decisions of the fetch: only a 200 answer whose body is read and closed yields bytes. */
  function DownloadRecording(exchange: Exchange): (r: Result<Bytes, StageError>)
    ensures r.Ok? <==> exchange.Replied? && exchange.status == StatusOK && exchange.body.Some? && exchange.closed
    ensures r.Ok? ==> r.value == exchange.body.value
    ensures exchange.Replied? && exchange.status != StatusOK ==> r == Err(UnexpectedStatus(exchange.status))
  {
    match exchange
    case Unsent => Err(RequestFailed)
    case Replied(status, body, closed) =>
      if status != StatusOK then Err(UnexpectedStatus(status))
      else if body.None? then Err(ReadFailed)
      else if !closed then Err(CloseFailed)
      else Ok(body.value)
  }

  // ---------------------------------------------------------------- resample

  /** The speech engine takes mono audio at 16 kHz. */
  const WhisperNumChans := 1
  const WhisperSampleRate := 16000

  datatype Format = Format(sampleRate: int, numChannels: int, precision: int)

  /** Encoded audio together with the format it was encoded in. */
  datatype Audio = Audio(format: Format, data: Bytes)

  /** WAV decoding: the format of the recording, or None when it cannot be decoded. */
  type Decoder = Bytes -> Option<Format>

  /** Resampling the decoded recording to the engine's rate (interpolation
      filter quality 3) and encoding it in the given format: the encoded
      bytes, or None when encoding fails. */
  type Encoder = (Bytes, Format) -> Option<Bytes>

  /** The format the resampled audio is encoded in: the engine's sample rate,
      the source's channel count and precision. */
  function TargetFormat(source: Format): (target: Format)
  {
    Format(WhisperSampleRate, source.numChannels, source.precision)
  }

  function ResampleRecording(decode: Decoder, encode: Encoder, recording: Bytes): (r: Result<Audio, StageError>)
    ensures r.Ok? <==>
      && decode(recording).Some?
      && decode(recording).value.numChannels == WhisperNumChans
      && encode(recording, TargetFormat(decode(recording).value)).Some?
    ensures r.Ok? ==>
      && r.value.format == Format(WhisperSampleRate, WhisperNumChans, decode(recording).value.precision)
      && r.value.data == encode(recording, r.value.format).value
    ensures decode(recording).Some? && decode(recording).value.numChannels != WhisperNumChans ==>
      r == Err(UnsupportedChannels(decode(recording).value.numChannels))
  {
    match decode(recording)
    case None => Err(DecodeFailed)
    case Some(format) =>
      if format.numChannels != WhisperNumChans then Err(UnsupportedChannels(format.numChannels))
      else
        var target := TargetFormat(format);
        match encode(recording, target)
        case None => Err(EncodeFailed)
        case Some(data) => Ok(Audio(target, data))
  }

  // ---------------------------------------------------------------- upload

  /** A note in the notes database: its parent database, date, title and one paragraph. */
  datatype Page = Page(parentId: string, date: int, title: string, body: string)

  /** The page created for a transcript at time `now`. */
  function NewPage(cfg: Config, now: int, transcript: string): Page
  {
    Page(cfg.notionDatabaseId, now, TranscriptTitle(transcript), transcript)
  }

  /** The notes-service call: does it accept the page (given the auth token)? */
  type PageCreator = (string, Page) -> bool

  /** Publishing: the created page holds the whole transcript as its body and
      the derived title, dated `now`, in the configured database. */
  function UploadTranscript(create: PageCreator, cfg: Config, now: int, transcript: string): (r: Result<Page, StageError>)
    ensures r.Ok? <==> create(cfg.notionAuthToken, NewPage(cfg, now, transcript))
    ensures r.Ok? ==>
      && r.value.body == transcript
      && r.value.title == TranscriptTitle(transcript)
      && r.value.parentId == cfg.notionDatabaseId
      && r.value.date == now
    ensures r.Err? ==> r.error == CreatePageFailed
  {
    var page := NewPage(cfg, now, transcript);
    if create(cfg.notionAuthToken, page) then Ok(page) else Err(CreatePageFailed)
  }
}
