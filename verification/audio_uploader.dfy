/** The upload widget (src/components/AudioUploader.tsx): a dropped file list
    forwards its first file, and the URL form forwards the trimmed text once
    it is not blank, then clears the field. */
module AudioUploader {
  import opened Types
  import opened Text

  /** `onDrop`: nothing for an empty list, otherwise the first file. */
  function DroppedFile(files: seq<MediaFile>): (forwarded: Option<MediaFile>)
    ensures files == [] <==> forwarded.None?
    ensures files != [] ==> forwarded == Some(files[0])
  {
    if |files| > 0 then Some(files[0]) else None
  }

  /** The submit button is disabled while the trimmed URL is empty or a job is
      being processed: that is, while the field holds only whitespace or a
      job runs. */
  predicate SubmitDisabled(url: string, isProcessing: bool): (disabled: bool)
    ensures disabled <==> AllWhitespace(url) || isProcessing
  {
    TrimIsSlice(url);
    Trim(url) == "" || isProcessing
  }

  /** The URL field. */
  class UrlForm {
    var url: string

    constructor ()
      ensures url == ""
    {
      url := "";
    }

    /** Typing in the field. */
    method Edit(value: string)
      modifies this
      ensures url == value
    {
      url := value;
    }

    /** `handleUrlSubmit`: a blank URL is dropped and the field kept; any other
        is forwarded trimmed and the field cleared. */
    method Submit() returns (submitted: Option<string>)
      modifies this
      ensures Trim(old(url)) == "" ==> submitted == None && url == old(url)
      ensures Trim(old(url)) != "" ==> submitted == Some(Trim(old(url))) && url == ""
    {
      if Trim(url) != "" {
        submitted := Some(Trim(url));
        url := "";
      } else {
        submitted := None;
      }
    }

    /** Pressing the button while it is enabled: the form always forwards
        the trimmed URL and clears the field. */
    method EnabledSubmitForwards(isProcessing: bool) returns (submitted: Option<string>)
      requires !SubmitDisabled(url, isProcessing)
      modifies this
      ensures submitted == Some(Trim(old(url))) && Trim(old(url)) != "" && url == ""
    {
      submitted := Submit();
    }
  }

  /** What the form forwards is never blank and has no surrounding whitespace
      left, so trimming it again (as the page does not) would change nothing. */
  lemma SubmittedIsTrimmed(url: string)
    requires Trim(url) != ""
    ensures Trim(Trim(url)) == Trim(url)
    ensures !IsWhitespace(Trim(url)[0]) && !IsWhitespace(Trim(url)[|Trim(url)| - 1])
  {
    TrimIdempotent(url);
    TrimIsSlice(url);
  }
}
