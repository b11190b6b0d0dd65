/** The stand-alone result page (src/pages/TranscriptionResult.tsx): the
    selection starts with every speaker of the transcript and is replaced by a
    flipped copy on each badge click. */
module TranscriptionResultPage {
  import opened Types
  import ResultsSection
  import TranscriptionViewer

  /** `new Set(utterances.map(u => u.speaker))`. */
  function InitialSelection(utterances: seq<Utterance>): (selected: set<string>)
    ensures forall s :: s in selected <==> exists i :: 0 <= i < |utterances| && utterances[i].speaker == s
  {
    if utterances == [] then {}
    else
      var rest := InitialSelection(utterances[1..]);
      assert forall i :: 1 <= i < |utterances| ==> utterances[i] == utterances[1..][i - 1];
      {utterances[0].speaker} + rest
  }

  /** Every utterance's speaker starts out selected, so the view first shows
      the whole transcript. */
  lemma InitiallyAllShown(utterances: seq<Utterance>)
    ensures forall i :: 0 <= i < |utterances| ==> utterances[i].speaker in InitialSelection(utterances)
    ensures TranscriptionViewer.Visible(utterances, InitialSelection(utterances)) == utterances
  {
    var selected := InitialSelection(utterances);
    forall i | 0 <= i < |utterances| ensures utterances[i].speaker in selected {
      assert exists j :: 0 <= j < |utterances| && utterances[j].speaker == utterances[i].speaker;
    }
    TranscriptionViewer.AllSelectedShowsAll(utterances, selected);
  }

  /** The initial selection holds the same speakers as the view's sorted
      speaker list. */
  lemma InitialSelectionIsSpeakerList(utterances: seq<Utterance>)
    ensures forall s :: s in InitialSelection(utterances) <==> s in TranscriptionViewer.Speakers(utterances)
  {
    var labels := Labels(utterances);
    forall s ensures s in InitialSelection(utterances) <==> s in labels {
      if s in labels {
        var i :| 0 <= i < |labels| && labels[i] == s;
        assert utterances[i].speaker == s;
      }
    }
  }

  /** The page's selection state. */
  class ResultView {
    var selectedSpeakers: set<string>

    constructor (result: TranscriptionResult)
      ensures selectedSpeakers == InitialSelection(result.utterances)
    {
      selectedSpeakers := InitialSelection(result.utterances);
    }

    /** `onSpeakerToggle`: the state is replaced by the flipped copy. */
    method ToggleSpeaker(speaker: string)
      modifies this
      ensures selectedSpeakers == ResultsSection.Toggle(old(selectedSpeakers), speaker)
    {
      selectedSpeakers := ResultsSection.Toggle(selectedSpeakers, speaker);
    }

    /** Two clicks on the same badge restore the selection. */
    method ToggleSpeakerTwice(speaker: string)
      modifies this
      ensures selectedSpeakers == old(selectedSpeakers)
    {
      ToggleSpeaker(speaker);
      ToggleSpeaker(speaker);
      ResultsSection.ToggleTwice(old(selectedSpeakers), speaker);
    }
  }
}
