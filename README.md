# phone-journal server: a verified model of its decisions

The service answers two Twilio webhooks. `POST /call` returns a TwiML document
that speaks a prompt and records the call. `POST /recording` is the
recording-completion callback: it fetches the recording, normalises it to mono
16 kHz WAV, transcribes it with whisper, and publishes the transcript as a
Notion page whose title is derived from the transcript. Both routes sit behind
two middlewares: a Twilio request-signature check and a caller allow-list.

The model keeps the decisions the repository's own code takes and treats every
foreign library call as an uninterpreted value:

- `Title` – the 32-code-point title rule.
- `Signature` – flattening the posted form to one value per key, the 400/403/next decision.
- `CallerAllowList` – building the allow-list map once, and the per-request decision.
- `Stages` – configuration, stage errors, the download status decision, the
  mono-channel guard and target format of normalisation, and the published page.
- `Transcribe` – the segment-reading loop, proved against a declarative definition.
- `Pipeline` – the recording handler as a short-circuiting state machine, with
  a trace of the stages it invoked.
- `Endpoints` – the two routes as chains: signature, allow-list, handler.

Foreign results are parameters: the request validator (`Validator`), the HTTP
exchange of the fetch (`Exchange`), WAV decoding (`Decoder`), resampling plus
encoding (`Encoder`), the speech engine (`Engine`: PCM decoding, context
creation, processing into a stream of segment answers), the notes-service call
(`PageCreator`), the clock (`Env.now`), and whether a TwiML document renders
(`rendered`).

The pipeline runs synchronously inside the `/recording` request. A stage
failure is answered with 500. A form field with zero or several values is
answered with 400. No stage is retried.

A route's handlers run in order. A handler that returns without aborting hands
the request on, even when it has already written a response. Once the status
line is written, later writes append to the body and a later abort status is
ignored. `Http.Writer` models this. The allow-list middleware writes its reject
document without aborting, so the route's handler still runs for an unlisted
caller (see Findings).

## Model

| member | source | states |
|---|---|---|
| `Title.TranscriptTitle` | server.go:228-234 | a transcript of at most 32 code points is its own title; a longer one gives a 35-code-point title made of its first 32 code points and "..." |
| `Title.TitleBounds` | server.go:228-234 | every title is at most 35 code points long and starts with the transcript's first min(32, length) code points |
| `Title.TitleIdempotent` | server.go:228-234 | the title of a title is that title |
| `Title.TitlesCoincide` | server.go:228-234 | two transcripts share a title iff they are equal or both exceed 32 code points and agree on the first 32 |
| `Signature.Flatten` | server.go:244-251 | for a form whose keys all carry one value, the parameter map has the same keys and maps each key to its sole value |
| `Signature.FlattenRoundTrip` | server.go:244-251 | flattening a single-valued form and expanding it back gives the form; expanding then flattening a parameter map gives the map |
| `Signature.CheckTwilioSignature` | server.go:238-259 | any key with a value count other than 1 gives 400 without consulting the validator, whatever order the keys are visited in; otherwise the validator is consulted with "https://"+hostname+path, the flattened form and the signature, and the request goes on iff it accepts, else 403 |
| `Signature.MalformedFormIgnoresValidator` | server.go:245-249 | for a form with a key that is not single-valued the decision is 400 whichever validator is used |
| `CallerAllowList.BuildAllowList` | server.go:262-265 | the map built from the configured list has exactly the listed callers as keys, all mapped to true |
| `CallerAllowList.CheckCallerWhitelist` | server.go:267-281 | the per-request decision: a request passes untouched iff its "From" value maps to true in the allow-list map; otherwise it gets a non-aborting 200 write of the reject document, or an abort with 500 when the document cannot be rendered; the chain goes on iff the caller is allowed or the document rendered |
| `CallerAllowList.CallerPassesIffListed` | server.go:267-281 | a request passes untouched iff its "From" value is on the configured list; otherwise the middleware writes the reject document with 200 without aborting, so the chain goes on, or aborts with 500 when the document cannot be rendered |
| `CallerAllowList.MissingCallerIsEmpty` | server.go:269-270 | a request without a caller goes on iff "" is on the list |
| `Stages.DownloadRecording` | server.go:123-147 | the fetch yields the body iff the answer has status 200 and its body was read and closed; any other status fails with that status and no body |
| `Stages.ResampleRecording` | server.go:149-171 | normalisation succeeds iff the recording decodes, is mono and encodes; a recording with another channel count fails before encoding; the result is 16 kHz, mono, with the source precision, encoded in that target format |
| `Stages.UploadTranscript` | server.go:202-226 | publishing succeeds iff the notes service accepts the page; that page holds the whole transcript as body, the derived title, the configured database and the current time |
| `Transcribe.FirstStop` | server.go:189-199 | the index of the first engine answer that is not a segment: all answers before it are segments |
| `Transcribe.TranscribeRecording` | server.go:173-200 | the stage's result equals its declarative definition: PCM, context and processing failures fail it; otherwise it is the in-order concatenation of segment texts up to the first non-segment answer when that answer is end-of-segments, and a failure when it is another error |
| `Transcribe.EndsAtStop` | server.go:190-196 | segments followed by end-of-segments or an error form a finite engine stream whatever follows |
| `Transcribe.SegmentsThenEof` | server.go:189-199 | segments followed by end-of-segments give the concatenation of their texts in order; answers after the marker are never read |
| `Transcribe.SegmentsThenError` | server.go:194-196 | segments followed by another error fail the stage with that error and no transcript |
| `Transcribe.StreamShape` | server.go:189-199 | every stream splits into segments, one non-segment answer, and a rest that is never read |
| `Pipeline.RunPipeline` | server.go:93-117 | the stage state machine: the run fails at the fetch iff the download fails; a failure at publishing is the notes service refusing the page; a completed run's page was accepted by the notes service and carries the configured database, the clock value and the title derived from its body |
| `Pipeline.StagesRun` | server.go:93-117 | the stages invoked form a non-empty prefix of fetch, normalise, transcribe, publish; a completed run invoked all four; a failed run ends at the failing stage and invoked no later one |
| `Pipeline.HandleRecording` | server.go:84-118 | a status other than "completed" aborts with 400 and invokes no stage; otherwise the stages invoked are those of the run, and the handler writes 200 "Thanks!" iff the run completed, else aborts with 500 |
| `Pipeline.CompletedIffEveryStageSucceeds` | server.go:93-117 | a run completes iff the fetch, the normalisation, the transcription and the page creation all succeed |
| `Pipeline.FetchNotOkStopsPipeline` | server.go:135-137 | a fetch answered with a status other than 200 fails the run at the fetch with that status; only the fetch was invoked |
| `Pipeline.MultiChannelNeverReachesEngine` | server.go:155-158 | a recording that is not mono fails the run at normalisation; transcription and publishing are never invoked |
| `Pipeline.PublishesSegmentsInOrder` | server.go:84-118 | a mono recording fetched with 200 whose engine answers are segments then end-of-segments publishes one page whose body is the segments' texts in order and whose title is derived from it |
| `Endpoints.CallHandler` | server.go:68-81 | the /call handler goes on iff the document renders, writing 200 with the say-then-record document whose callback is "https://"+hostname+"/recording"; otherwise it aborts with 500 |
| `Endpoints.ServeCall` | server.go:67-82 | the response is the chain signature, allow-list, handler: 400 for a form that is not single-valued, 403 for a rejected signature, 500 when TwiML cannot be rendered; otherwise 200 with the record directive (callback "https://"+hostname+"/recording"), preceded by the reject document when the caller is not listed |
| `Endpoints.ServeRecording` | server.go:84-118 | 400 or 403 from the signature check run no stage; a verified request from a listed caller, or from an unlisted one whose reject document was written, runs the handler's stages; an unlisted caller gets the reject document followed by "Thanks!" when the run completes |
| `Http.ChainIgnoresStepsAfterAbort` | server.go:84 | in a route's chain, handlers after the first one that aborts have no effect on the response |
| `Http.WrittenStatusIsFinal` | server.go:270-277 | once a response is written its status is fixed and its body only grows, whatever later handlers do |
| `CallerAllowList.CheckCallerWhitelistAborting` | server.go:270-277 | the allow-list with the rejection aborting the chain: a request goes on iff its caller is listed, and an unlisted one gets only the reject document |
| `Endpoints.UnlistedCallerReachesPipeline` | server.go:270-277 | as written, a verified /recording request from an unlisted caller runs all four stages when they succeed and is answered 200 with the reject document followed by "Thanks!" |
| `Endpoints.AbortingAllowListGuardsHandlers` | server.go:270-277 | with the aborting allow-list, an unlisted caller's request never reaches the route's handler, and a verified one gets the reject document alone (or 500) |

## Left out

- Gin routing, trusted-proxy settings and starting the server: framework plumbing. The chain rule (later handlers run unless an earlier one aborted; the first write fixes the status) is modelled by `Http.RunChain` and `Http.Apply`. Response headers are not modelled.
- Reading the configuration from the environment and loading the whisper model at startup: startup I/O; the configuration is a value.
- TwiML XML generation: a foreign template; a document is a tag (`SayThenRecord` or `Reject`), and one flag says whether rendering succeeds.
- The HMAC computation of the Twilio request validator: foreign code; it is an uninterpreted `Validator`.
- Reading the `X-Twilio-Signature` header (including Go's header-name canonicalisation): the header value is a parameter.
- The HTTP GET with basic auth and reading the body: network I/O; only the outcome (`Exchange`) and the status decision are modelled.
- WAV decoding, `beep.Resample` and WAV encoding: floating-point signal processing in libraries; only the channel guard and the target format are modelled, and the encoded bytes are the encoder's result.
- Whisper inference and the PCM sample values: a foreign engine; its answers are an abstract stream of segments.
- An engine whose segment answers never reach end-of-segments or an error (the source loop would not terminate): streams are finite and end in a non-segment answer.
- The Notion page-creation call, the request context and `time.Now()`: foreign service and clock; the page and the time are values.
- Printing the transcript to standard output: I/O.
- Errors of `ParseForm`, which the source ignores, and Go's replacement of invalid UTF-8 by U+FFFD when converting a string to runes: the form is already parsed and transcripts are sequences of code points.

## Findings

| source | as written | input that shows it | evidently intended | confidence | as-written member | corrected member |
|---|---|---|---|---|---|---|
| server.go:270-277 | the allow-list writes the reject document but never aborts, so the route's handler runs next | POST /recording with a valid signature, `From=+1555`, list `["+1444"]`, `RecordingStatus=completed` and a reachable mono recording: the whole pipeline runs and a page is published; POST /call answers the reject document followed by the record directive | an unlisted caller gets the reject document and no later handler runs | not executed | `Endpoints.UnlistedCallerReachesPipeline` | `CallerAllowList.CheckCallerWhitelistAborting` |

The routes in `Endpoints` model the code as written. The corrected allow-list
is stated by `CallerAllowList.CheckCallerWhitelistAborting`, and
`Endpoints.AbortingAllowListGuardsHandlers` proves that with it no route
handler runs for an unlisted caller.
