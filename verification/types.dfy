/** The transcript data model returned by the remote transcription service, and
    the small wrapper types the rest of the model uses. Times are integer
    milliseconds; speaker labels are opaque strings. */
module Types {

  datatype Option<+T> = None | Some(value: T)

  /** The outcome of a call that either yields a value or throws an Error whose
      message is `error`. */
  datatype Result<+T> = Ok(value: T) | Err(error: string)

  /** One word of an utterance, with its own time range. */
  datatype Word = Word(text: string, start: int, end: int, confidence: real, speaker: string)

  /** One continuous speech segment attributed to one speaker. */
  datatype Utterance = Utterance(
    confidence: real,
    end: int,
    speaker: string,
    start: int,
    text: string,
    words: seq<Word>)

  /** A transcription job as reported by the service. */
  datatype TranscriptionResult = TranscriptionResult(
    utterances: seq<Utterance>,
    status: string,
    text: string,
    id: string)

  /** A file picked by the user: its name and the type the browser reports for
      it ("" when the browser does not know it). */
  datatype MediaFile = MediaFile(name: string, mimeType: string, size: nat)

  /** The speaker labels of the utterances, in order (`utterances.map(u => u.speaker)`). */
  function Labels(utterances: seq<Utterance>): (labels: seq<string>)
    ensures |labels| == |utterances|
    ensures forall i :: 0 <= i < |utterances| ==> labels[i] == utterances[i].speaker
  {
    if utterances == [] then [] else [utterances[0].speaker] + Labels(utterances[1..])
  }
}
