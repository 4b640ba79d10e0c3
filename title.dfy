/**
 * The title given to a transcript's note: the transcript itself when it is
 * short, otherwise its first MaxTitleLen code points followed by "...".
 * Strings are sequences of Unicode code points.
 */
module Title {
  const MaxTitleLen := 32
  const Ellipsis := "..."

  function TranscriptTitle(transcript: string): (title: string)
    ensures |transcript| <= MaxTitleLen ==> title == transcript
    ensures |transcript| > MaxTitleLen ==>
      && |title| == MaxTitleLen + |Ellipsis|
      && title[..MaxTitleLen] == transcript[..MaxTitleLen]
      && title[MaxTitleLen..] == Ellipsis
  {
    if |transcript| <= MaxTitleLen then transcript
    else transcript[..MaxTitleLen] + Ellipsis
  }

  /** A title never exceeds 35 code points, and it always starts with the
      transcript's first min(32, length) code points. */
  lemma TitleBounds(transcript: string)
    ensures |TranscriptTitle(transcript)| <= MaxTitleLen + |Ellipsis|
    ensures var n := if |transcript| < MaxTitleLen then |transcript| else MaxTitleLen;
      TranscriptTitle(transcript)[..n] == transcript[..n]
  {
  }

  /** Deriving a title from a title changes nothing. */
  lemma TitleIdempotent(transcript: string)
    ensures TranscriptTitle(TranscriptTitle(transcript)) == TranscriptTitle(transcript)
  {
  }

  /** Two transcripts share a title exactly when they are equal or both are
      long and agree on their first MaxTitleLen code points. */
  lemma TitlesCoincide(a: string, b: string)
    ensures TranscriptTitle(a) == TranscriptTitle(b) <==>
      a == b || (|a| > MaxTitleLen && |b| > MaxTitleLen && a[..MaxTitleLen] == b[..MaxTitleLen])
  {
  }
}
