/** The client of the remote transcription service (src/services/assemblyai.ts):
    the content type chosen for an upload and the way each of the three remote
    calls turns an HTTP reply into a value or an error. The requests themselves
    are not modelled; a reply is a record handed in by the caller. */
module Service {
  import opened Types
  import opened Text

  /** What a `fetch` produced: a reply with its `ok` flag, status text and
      parsed JSON body, or a transport failure carrying the thrown message. */
  datatype Http<T> = Response(ok: bool, statusText: string, body: T) | NetworkFailure(message: string)

  /** The parsed body of a job-status reply: the transcript fields and the
      service's `error` field (absent when it sent none). */
  datatype StatusBody = StatusBody(result: TranscriptionResult, error: Option<string>)

  /** The three remote calls. */
  datatype RemoteStep = UploadStep | StartStep | ResultStep

  /** The body of the job-creation request: speaker labelling is always asked
      for, with a fixed hint of two speakers. */
  datatype TranscriptRequest = TranscriptRequest(audioUrl: string, speakerLabels: bool, speakersExpected: nat)

  function StartRequest(audioUrl: string): (request: TranscriptRequest)
    ensures request.audioUrl == audioUrl && request.speakerLabels && request.speakersExpected == 2
  {
    TranscriptRequest(audioUrl, true, 2)
  }

  /** The message an unsuccessful reply raises begins with the failed step. */
  function FailurePrefix(step: RemoteStep): string {
    match step
    case UploadStep => "Failed to upload audio file: "
    case StartStep => "Failed to start transcription: "
    case ResultStep => "Failed to get transcription result: "
  }

  /** The common `if (!response.ok) throw ...` check of the three calls: only an
      OK reply yields its body; a non-OK reply raises an error naming the step
      and the status text; a transport failure propagates its own message. */
  function Checked<T>(step: RemoteStep, reply: Http<T>): (r: Result<T>)
    ensures r.Ok? <==> reply.Response? && reply.ok
    ensures r.Ok? ==> r.value == reply.body
    ensures reply.Response? && !reply.ok ==>
      r.Err? && |FailurePrefix(step)| <= |r.error|
      && r.error[..|FailurePrefix(step)|] == FailurePrefix(step)
      && r.error[|FailurePrefix(step)|..] == reply.statusText
    ensures reply.NetworkFailure? ==> r == Err(reply.message)
  {
    match reply
    case NetworkFailure(message) => Err(message)
    case Response(ok, statusText, body) =>
      if ok then Ok(body) else Err(FailurePrefix(step) + statusText)
  }

  /** The error raised by a non-OK reply tells which of the three calls failed:
      two such messages can only be equal when they come from the same step. */
  lemma FailureMessageNamesStep<T, U>(a: RemoteStep, ra: Http<T>, b: RemoteStep, rb: Http<U>)
    requires ra.Response? && !ra.ok && rb.Response? && !rb.ok
    requires Checked(a, ra).error == Checked(b, rb).error
    ensures a == b
  {
    // the three prefixes share "Failed to " and differ at their eleventh character
    var m := Checked(a, ra).error;
    assert m[10] == FailurePrefix(a)[10];
    assert m[10] == FailurePrefix(b)[10];
  }

  /** `uploadAudio` after the fetch: the `upload_url` of an OK reply; a
      rejected upload is reported with the service's status text. */
  function UploadAudio(reply: Http<string>): (r: Result<string>)
    ensures reply.Response? && reply.ok ==> r == Ok(reply.body)
    ensures reply.Response? && !reply.ok ==> r == Err("Failed to upload audio file: " + reply.statusText)
    ensures reply.NetworkFailure? ==> r == Err(reply.message)
  {
    Checked(UploadStep, reply)
  }

  /** `startTranscription` after the fetch: the job `id` of an OK reply; a
      refused job is reported with the service's status text. */
  function StartTranscription(reply: Http<string>): (r: Result<string>)
    ensures reply.Response? && reply.ok ==> r == Ok(reply.body)
    ensures reply.Response? && !reply.ok ==> r == Err("Failed to start transcription: " + reply.statusText)
    ensures reply.NetworkFailure? ==> r == Err(reply.message)
  {
    Checked(StartStep, reply)
  }

  const UnknownError := "Unknown error occurred"
  const FailedPrefix := "Transcription failed: "

  /** `getTranscriptionResult` after the fetch: a job the service reports as
      failed raises "Transcription failed: " and the service's message (or a
      fixed text when it sent none); any other status is passed on untouched. */
  function GetTranscriptionResult(reply: Http<StatusBody>): (r: Result<TranscriptionResult>)
    ensures r.Ok? <==> reply.Response? && reply.ok && reply.body.result.status != "error"
    ensures r.Ok? ==> r.value == reply.body.result && r.value.status != "error"
    ensures reply.Response? && reply.ok && reply.body.result.status == "error" ==>
      r.Err? && |FailedPrefix| <= |r.error|
      && r.error[..|FailedPrefix|] == FailedPrefix
      && r.error[|FailedPrefix|..] ==
         if reply.body.error.Some? && reply.body.error.value != "" then reply.body.error.value else UnknownError
    ensures !(reply.Response? && reply.ok) ==> r.Err? && r.error == Checked(ResultStep, reply).error
  {
    match Checked(ResultStep, reply)
    case Err(e) => Err(e)
    case Ok(body) =>
      if body.result.status == "error" then
        var message := if body.error.Some? && body.error.value != "" then body.error.value else UnknownError;
        Err(FailedPrefix + message)
      else
        Ok(body.result)
  }

  /** The MIME types `getMimeType` knows, keyed by lower-case extension. */
  const MimeTable: map<string, string> := map[
    "mp3" := "audio/mpeg",
    "wav" := "audio/wav",
    "m4a" := "audio/mp4",
    "flac" := "audio/flac",
    "mp4" := "video/mp4",
    "mov" := "video/quicktime"
  ]

  const DefaultMimeType := "audio/mpeg"

  /** `s.split('.').pop()`: the text after the last '.', or all of `s` when it
      has no '.'. */
  function AfterLastDot(s: string): (r: string)
    ensures |r| <= |s| && r == s[|s| - |r|..]
    ensures '.' !in r
    ensures |r| < |s| ==> s[|s| - |r| - 1] == '.'
  {
    if s == [] then []
    else if s[|s| - 1] == '.' then []
    else AfterLastDot(s[..|s| - 1]) + [s[|s| - 1]]
  }

  /** The extension `getMimeType` looks up. */
  function Extension(filename: string): string {
    AfterLastDot(ToLower(filename))
  }

  /** `getMimeType` with the table read as a dictionary of its own six entries:
      a listed extension gives its type, anything else "audio/mpeg". */
  function GetMimeType(filename: string): (r: string)
    ensures Extension(filename) in MimeTable ==> r == MimeTable[Extension(filename)]
    ensures Extension(filename) !in MimeTable ==> r == DefaultMimeType
    ensures r in MimeTable.Values || r == DefaultMimeType
    ensures r != ""
  {
    var ext := Extension(filename);
    if ext in MimeTable then
      TypesNonEmpty(ext);
      MimeTable[ext]
    else DefaultMimeType
  }

  /** Every type in the table is a non-empty text. */
  lemma TypesNonEmpty(ext: string)
    requires ext in MimeTable
    ensures MimeTable[ext] != ""
  {
    assert forall k :: k in MimeTable ==> |MimeTable[k]| >= 9;
  }

  /** Only the text after the last '.' decides the type, whatever precedes it. */
  lemma {:induction false} ExtensionIsLastSegment(stem: string, ext: string)
    requires '.' !in ext
    ensures Extension(stem + "." + ext) == ToLower(ext)
  {
    var lowered := ToLower(stem + "." + ext);
    assert lowered == ToLower(stem) + "." + ToLower(ext);
    AfterLastDotOfSuffix(ToLower(stem), ToLower(ext));
  }

  lemma {:induction false} AfterLastDotOfSuffix(stem: string, ext: string)
    requires '.' !in ext
    ensures AfterLastDot(stem + "." + ext) == ext
  {
    if ext != [] {
      var last := ext[|ext| - 1];
      assert (stem + "." + ext)[..|stem + "." + ext| - 1] == stem + "." + ext[..|ext| - 1];
      AfterLastDotOfSuffix(stem, ext[..|ext| - 1]);
      assert ext == ext[..|ext| - 1] + [last];
    } else {
      assert (stem + "." + ext)[|stem|] == '.';
    }
  }

  /** The lookup ignores case: a name and its lower-cased form get one type. */
  lemma MimeTypeIgnoresCase(filename: string)
    ensures GetMimeType(filename) == GetMimeType(ToLower(filename))
  {
    ToLowerIdempotent(filename);
  }

  /** "mov" is QuickTime video. */
  lemma MovIsQuickTime()
    ensures GetMimeType("clip.mov") == "video/quicktime"
  {
    LiteralExtension("clip", "mov", "clip.mov");
  }

  /** An upper-case extension is looked up in lower case. */
  lemma UpperCaseMp3IsMpeg()
    ensures GetMimeType("Talk.MP3") == "audio/mpeg"
  {
    assert Extension("Talk.MP3") == "mp3" by {
      ExtensionIsLastSegment("Talk", "MP3");
      assert "Talk" + "." + "MP3" == "Talk.MP3";
      Mp3Lowered();
    }
  }

  lemma Mp3Lowered()
    ensures ToLower("MP3") == "mp3"
  {
    var lowered := ToLower("MP3");
    assert lowered[0] == 'm' && lowered[1] == 'p' && lowered[2] == '3';
  }

  /** An unlisted extension falls back to "audio/mpeg". */
  lemma UnlistedExtensionIsDefault()
    ensures GetMimeType("notes.txt") == DefaultMimeType
  {
    LiteralExtension("notes", "txt", "notes.txt");
    assert "txt" !in MimeTable by {
      assert forall k :: k in MimeTable ==> k[0] != 't';
    }
  }

  /** The extension of a literal name `stem.ext` whose extension is written in
      lower case. */
  lemma LiteralExtension(stem: string, ext: string, filename: string)
    requires '.' !in ext && filename == stem + "." + ext
    requires forall i :: 0 <= i < |ext| ==> !('A' <= ext[i] <= 'Z')
    ensures Extension(filename) == ext
  {
    ExtensionIsLastSegment(stem, ext);
    ToLowerNoCapitals(ext);
  }

  /** What `mimeTypes[ext]` evaluates to on the object literal as written: an
      own entry, a member inherited from `Object.prototype`, or nothing. */
  datatype LookupValue = Text(s: string) | InheritedMember(key: string)

  /** Lower-case names of members every object literal inherits. */
  const InheritedKeys: set<string> := {"constructor", "__proto__"}

  /** `getMimeType` as written: the lookup also finds the inherited members,
      which are truthy, so the "audio/mpeg" fallback is skipped for them. */
  function GetMimeTypeAsWritten(filename: string): (v: LookupValue)
    ensures Extension(filename) !in InheritedKeys ==> v == Text(GetMimeType(filename))
    ensures Extension(filename) in InheritedKeys ==> v == InheritedMember(Extension(filename))
  {
    var ext := Extension(filename);
    KeysDisjoint();
    if ext in MimeTable then Text(MimeTable[ext])
    else if ext in InheritedKeys then InheritedMember(ext)
    else Text(DefaultMimeType)
  }

  /** No own key of the table is an inherited member name. */
  lemma KeysDisjoint()
    ensures forall k :: k in InheritedKeys ==> k !in MimeTable
  {
    assert forall k :: k in MimeTable ==> |k| <= 4;
  }

  /** A file named "clip.constructor" gets the inherited `Object` constructor in
      place of a MIME type, where "audio/mpeg" was evidently meant. */
  lemma InheritedKeyEscapesFallback()
    ensures GetMimeTypeAsWritten("clip.constructor") == InheritedMember("constructor")
    ensures GetMimeType("clip.constructor") == DefaultMimeType
  {
    ConstructorExtension();
    KeysDisjoint();
    assert "constructor" in InheritedKeys;
  }

  lemma ConstructorExtension()
    ensures Extension("clip.constructor") == "constructor"
  {
    LiteralExtension("clip", "constructor", "clip.constructor");
  }

  /** The type declared for the uploaded blob: the browser's type when it
      reported one, the extension's otherwise, so never empty. */
  function BlobType(file: MediaFile): (t: string)
    ensures t != ""
    ensures file.mimeType != "" ==> t == file.mimeType
    ensures file.mimeType == "" ==> t == GetMimeType(file.name)
  {
    if file.mimeType != "" then file.mimeType else GetMimeType(file.name)
  }
}
