/** The results panel (src/components/ResultsSection.tsx): clicking a speaker
    badge hands the parent a copy of the selection with that speaker flipped.
    The incoming set is a value here, so it cannot be changed by the copy. */
module ResultsSection {

  /** The copy-and-flip of `onSpeakerToggle`: a selected speaker is removed,
      an unselected one added, and no other speaker's membership changes. */
  function Toggle(selected: set<string>, speaker: string): (next: set<string>)
    ensures speaker in selected ==> speaker !in next
    ensures speaker !in selected ==> speaker in next
    ensures forall other :: other != speaker ==> (other in next <==> other in selected)
  {
    if speaker in selected then selected - {speaker} else selected + {speaker}
  }

  /** Flipping the same speaker twice gives back the original selection. */
  lemma ToggleTwice(selected: set<string>, speaker: string)
    ensures Toggle(Toggle(selected, speaker), speaker) == selected
  {
  }

  /** Nothing keeps the selection from becoming empty: deselecting the last
      speaker leaves no speaker selected. */
  lemma LastSpeakerCanBeDeselected(speaker: string)
    ensures Toggle({speaker}, speaker) == {}
  {
  }

  /** Flips of two different speakers commute. */
  lemma TogglesCommute(selected: set<string>, a: string, b: string)
    ensures Toggle(Toggle(selected, a), b) == Toggle(Toggle(selected, b), a)
  {
  }
}
