/**
 * Transcription: the normalised audio is read as PCM, an inference context
 * is made, the samples are processed, and the engine's segments are read one
 * by one and concatenated until the end-of-segments marker. Any other error
 * while reading segments fails the stage (and no transcript is produced).
 */
module Transcribe {
  import opened Wrappers
  import opened Stages

  /** One answer of the engine's next-segment call. */
  datatype Next = Got(text: string) | Eof | Failed(reason: string)

  /** The answers reach something other than a segment. */
  predicate Ends(s: seq<Next>)
    decreases |s|
  {
    |s| > 0 && (s[0].Got? ==> Ends(s[1..]))
  }

  /** The successive answers of the engine after processing. */
  type Stream = s: seq<Next> | Ends(s) witness [Eof]

  /** PCM samples (their values are not modelled). */
  type Pcm = seq<int>

  /** The speech engine: PCM decoding of the audio, whether a context can be
      made, and the outcome of processing a sample buffer. */
  datatype Engine = Engine(pcm: Bytes -> Option<Pcm>, contextOk: bool, process: Pcm -> Option<Stream>)

  /** Index of the first answer that is not a segment. */
  function FirstStop(s: seq<Next>): (k: nat)
    requires Ends(s)
    decreases |s|
    ensures k < |s| && !s[k].Got?
    ensures forall j :: 0 <= j < k ==> s[j].Got?
  {
    if s[0].Got? then 1 + FirstStop(s[1..]) else 0
  }

  /** The texts of the segments in `s`, concatenated in order. */
  function Texts(s: seq<Next>): string
    decreases |s|
  {
    if s == [] then ""
    else Texts(s[..|s| - 1]) + (if s[|s| - 1].Got? then s[|s| - 1].text else "")
  }

  /** What reading a stream yields: the segments' texts up to the first
      non-segment answer when that answer is the end marker, a failure otherwise. */
  function TranscriptOf(s: Stream): Result<string, StageError>
  {
    var k := FirstStop(s);
    if s[k].Eof? then Ok(Texts(s[..k])) else Err(SegmentFailed(s[k].reason))
  }

  /** The whole stage, as a value. */
  function Transcription(engine: Engine, audio: Bytes): Result<string, StageError>
  {
    match engine.pcm(audio)
    case None => Err(PcmFailed)
    case Some(pcm) =>
      if !engine.contextOk then Err(ContextFailed)
      else
        match engine.process(pcm)
        case None => Err(ProcessFailed)
        case Some(stream) => TranscriptOf(stream)
  }

  /** The stage: reads segments until the end marker, appending their texts. */
  method TranscribeRecording(engine: Engine, audio: Bytes) returns (r: Result<string, StageError>)
    ensures r == Transcription(engine, audio)
  {
    var pcm := engine.pcm(audio);
    if pcm.None? {
      return Err(PcmFailed);
    }
    if !engine.contextOk {
      return Err(ContextFailed);
    }
    var processed := engine.process(pcm.value);
    if processed.None? {
      return Err(ProcessFailed);
    }
    var stream := processed.value;
    var sb := "";
    var i := 0;
    while true
      invariant i <= FirstStop(stream)
      invariant sb == Texts(stream[..i])
      decreases |stream| - i
    {
      match stream[i]
      case Eof =>
        return Ok(sb);
      case Failed(reason) =>
        return Err(SegmentFailed(reason));
      case Got(text) =>
        assert stream[..i + 1][..i] == stream[..i];
        sb := sb + text;
        i := i + 1;
    }
  }

  /** Segments followed by a non-segment answer form a stream, whatever comes after. */
  lemma {:induction false} EndsAtStop(segments: seq<Next>, stop: Next, tail: seq<Next>)
    requires forall j :: 0 <= j < |segments| ==> segments[j].Got?
    requires !stop.Got?
    ensures Ends(segments + [stop] + tail)
    decreases |segments|
  {
    var s := segments + [stop] + tail;
    if segments != [] {
      assert s[1..] == segments[1..] + [stop] + tail;
      EndsAtStop(segments[1..], stop, tail);
    }
  }

  /** Segments then the end marker: the transcript is the segments' texts in
      order; what follows the marker is never read. */
  lemma SegmentsThenEof(segments: seq<Next>, tail: seq<Next>)
    requires forall j :: 0 <= j < |segments| ==> segments[j].Got?
    ensures Ends(segments + [Eof] + tail)
    ensures TranscriptOf(segments + [Eof] + tail) == Ok(Texts(segments))
  {
    EndsAtStop(segments, Eof, tail);
    var s := segments + [Eof] + tail;
    assert s[|segments|] == Eof;
    assert s[..|segments|] == segments;
  }

  /** Segments then another error: the stage fails with that error, whatever came before. */
  lemma SegmentsThenError(segments: seq<Next>, reason: string, tail: seq<Next>)
    requires forall j :: 0 <= j < |segments| ==> segments[j].Got?
    ensures Ends(segments + [Failed(reason)] + tail)
    ensures TranscriptOf(segments + [Failed(reason)] + tail) == Err(SegmentFailed(reason))
  {
    EndsAtStop(segments, Failed(reason), tail);
    var s := segments + [Failed(reason)] + tail;
    assert s[|segments|] == Failed(reason);
  }

  /** Every stream is segments, then a non-segment answer, then anything. */
  lemma StreamShape(s: Stream)
    ensures var k := FirstStop(s);
      && s == s[..k] + [s[k]] + s[k + 1..]
      && (forall j :: 0 <= j < k ==> s[..k][j].Got?)
  {
  }
}
