/** The transcript view (src/components/TranscriptionViewer.tsx): the sorted
    list of distinct speakers, the utterances shown for the selected speakers,
    the highlight of the utterance being played, speaker renaming and the
    `m:ss` clock of each utterance. Times are integer milliseconds. */
module TranscriptionViewer {
  import opened Types
  import opened Text
  import TranscriptionPlayer

  // ---------------------------------------------------------------------
  // The speaker list: `Array.from(new Set(labels)).sort()`
  // ---------------------------------------------------------------------

  /** The order `sort()` puts strings in: character by character, a proper
      prefix first. */
  predicate StrLess(a: string, b: string) {
    if a == [] then b != []
    else if b == [] then false
    else if a[0] != b[0] then a[0] < b[0]
    else StrLess(a[1..], b[1..])
  }

  lemma {:induction false} StrLessIrreflexive(a: string)
    ensures !StrLess(a, a)
  {
    if a != [] {
      StrLessIrreflexive(a[1..]);
    }
  }

  lemma {:induction false} StrLessTransitive(a: string, b: string, c: string)
    requires StrLess(a, b) && StrLess(b, c)
    ensures StrLess(a, c)
  {
    if a != [] && b != [] && c != [] && a[0] == b[0] && b[0] == c[0] {
      StrLessTransitive(a[1..], b[1..], c[1..]);
    }
  }

  lemma {:induction false} StrLessTotal(a: string, b: string)
    requires a != b
    ensures StrLess(a, b) || StrLess(b, a)
  {
    if a != [] && b != [] && a[0] == b[0] {
      assert a == [a[0]] + a[1..] && b == [b[0]] + b[1..];
      StrLessTotal(a[1..], b[1..]);
    }
  }

  /** Every earlier element is below or equal to every later one. */
  predicate Sorted(s: seq<string>) {
    forall i, j :: 0 <= i < j < |s| ==> s[i] == s[j] || StrLess(s[i], s[j])
  }

  /** Every earlier element is strictly below every later one. */
  predicate StrictlySorted(s: seq<string>) {
    forall i, j :: 0 <= i < j < |s| ==> StrLess(s[i], s[j])
  }

  predicate NoDuplicates(s: seq<string>) {
    forall i, j :: 0 <= i < j < |s| ==> s[i] != s[j]
  }

  /** `new Set(labels)` read back as an array: each label once, at its first
      occurrence. */
  function Distinct(s: seq<string>): (r: seq<string>)
    ensures NoDuplicates(r)
    ensures forall x :: x in r <==> x in s
  {
    if s == [] then []
    else
      var d := Distinct(s[..|s| - 1]);
      assert forall x :: x in s <==> x in s[..|s| - 1] || x == s[|s| - 1];
      if s[|s| - 1] in d then d else d + [s[|s| - 1]]
  }

  /** Puts `x` before the first element that is not below it. */
  function Insert(x: string, s: seq<string>): (r: seq<string>)
    ensures multiset(r) == multiset(s) + multiset{x}
    ensures Sorted(s) ==> Sorted(r)
  {
    if s == [] then [x]
    else if !StrLess(s[0], x) then
      InsertFrontSorted(x, s);
      [x] + s
    else
      var rest := Insert(x, s[1..]);
      assert s == [s[0]] + s[1..];
      InsertBehindSorted(x, s, rest);
      [s[0]] + rest
  }

  lemma InsertFrontSorted(x: string, s: seq<string>)
    requires s != [] && !StrLess(s[0], x)
    ensures Sorted(s) ==> Sorted([x] + s)
  {
    if Sorted(s) {
      if x != s[0] {
        StrLessTotal(x, s[0]);
      }
      forall j | 1 <= j < |[x] + s| ensures x == ([x] + s)[j] || StrLess(x, ([x] + s)[j]) {
        assert ([x] + s)[j] == s[j - 1];
        if x != s[0] && s[0] != s[j - 1] {
          StrLessTransitive(x, s[0], s[j - 1]);
        }
      }
    }
  }

  lemma InsertBehindSorted(x: string, s: seq<string>, rest: seq<string>)
    requires s != [] && StrLess(s[0], x)
    requires multiset(rest) == multiset(s[1..]) + multiset{x}
    requires Sorted(s[1..]) ==> Sorted(rest)
    ensures Sorted(s) ==> Sorted([s[0]] + rest)
  {
    if Sorted(s) {
      assert Sorted(s[1..]);
      forall j | 0 <= j < |rest| ensures s[0] == rest[j] || StrLess(s[0], rest[j]) {
        assert rest[j] in multiset(rest);
        assert rest[j] == x || rest[j] in multiset(s[1..]);
        if rest[j] != x {
          var k :| 0 <= k < |s[1..]| && s[1..][k] == rest[j];
          assert s[k + 1] == rest[j];
        }
      }
    }
  }

  /** `sort()`: a sorted rearrangement of `s`, by insertion. */
  function Sort(s: seq<string>): (r: seq<string>)
    ensures multiset(r) == multiset(s)
    ensures Sorted(r)
  {
    if s == [] then []
    else
      assert s == s[..|s| - 1] + [s[|s| - 1]];
      Insert(s[|s| - 1], Sort(s[..|s| - 1]))
  }

  /** A rearrangement of a list without repeats has no repeats. */
  lemma NoDuplicatesPermutation(a: seq<string>, b: seq<string>)
    requires multiset(a) == multiset(b) && NoDuplicates(a)
    ensures NoDuplicates(b)
  {
    forall i, j | 0 <= i < j < |b| ensures b[i] != b[j] {
      if b[i] == b[j] {
        assert b == b[..i] + [b[i]] + b[i + 1..j] + [b[j]] + b[j + 1..];
        assert multiset(b)[b[i]] >= 2;
        AtMostOnce(a, b[i]);
        assert false;
      }
    }
  }

  lemma {:induction false} AtMostOnce(a: seq<string>, x: string)
    requires NoDuplicates(a)
    ensures multiset(a)[x] <= 1
  {
    if a != [] {
      var init := a[..|a| - 1];
      assert a == init + [a[|a| - 1]];
      AtMostOnce(init, x);
      if a[|a| - 1] == x {
        assert x !in init;
      }
    }
  }

  /** The speaker labels of the transcript, each once, in sorted order: the
      list is strictly sorted (so free of repeats) and holds exactly the
      labels that occur in the transcript. */
  function Speakers(utterances: seq<Utterance>): (speakers: seq<string>)
    ensures StrictlySorted(speakers)
    ensures NoDuplicates(speakers)
    ensures forall s :: s in speakers <==> s in Labels(utterances)
  {
    var d := Distinct(Labels(utterances));
    var r := Sort(d);
    NoDuplicatesPermutation(d, r);
    assert forall x :: x in r <==> x in d by {
      forall x ensures x in r <==> x in d {
        assert x in r <==> x in multiset(r);
        assert x in d <==> x in multiset(d);
      }
    }
    r
  }

  // ---------------------------------------------------------------------
  // The utterances shown: `utterances.filter(u => selectedSpeakers.has(u.speaker))`
  // ---------------------------------------------------------------------

  /** The positions of the utterances of selected speakers, in order. */
  function ShownIndices(utterances: seq<Utterance>, selected: set<string>): (idx: seq<nat>)
    ensures forall k :: 0 <= k < |idx| ==> idx[k] < |utterances|
    ensures forall k, l :: 0 <= k < l < |idx| ==> idx[k] < idx[l]
    ensures forall i :: 0 <= i < |utterances| ==> (i in idx <==> utterances[i].speaker in selected)
  {
    if utterances == [] then []
    else
      var n := |utterances| - 1;
      var front := ShownIndices(utterances[..n], selected);
      assert forall i :: 0 <= i < n ==> utterances[..n][i] == utterances[i];
      if utterances[n].speaker in selected then front + [n] else front
  }

  /** The list the view renders. */
  function Visible(utterances: seq<Utterance>, selected: set<string>): (shown: seq<Utterance>)
    ensures ListsShown(utterances, selected, shown)
  {
    if utterances == [] then []
    else
      var n := |utterances| - 1;
      var front := Visible(utterances[..n], selected);
      VisibleStep(utterances, selected, front);
      if utterances[n].speaker in selected then front + [utterances[n]] else front
  }

  /** `shown` holds the utterances at the positions the filter keeps, in
      order. */
  predicate ListsShown(utterances: seq<Utterance>, selected: set<string>, shown: seq<Utterance>) {
    |shown| == |ShownIndices(utterances, selected)|
    && forall k :: 0 <= k < |shown| ==> shown[k] == utterances[ShownIndices(utterances, selected)[k]]
  }

  /** Filtering one more utterance extends the list shown for the others by
      that utterance exactly when its speaker is selected. */
  lemma VisibleStep(utterances: seq<Utterance>, selected: set<string>, front: seq<Utterance>)
    requires utterances != []
    requires ListsShown(utterances[..|utterances| - 1], selected, front)
    ensures var n := |utterances| - 1;
      ListsShown(utterances, selected, if utterances[n].speaker in selected then front + [utterances[n]] else front)
  {
    var n := |utterances| - 1;
    var idx := ShownIndices(utterances[..n], selected);
    forall k | 0 <= k < |idx| ensures utterances[..n][idx[k]] == utterances[idx[k]] {
    }
  }

  /** With every speaker of the transcript selected, the whole transcript is
      shown. */
  lemma AllSelectedShowsAll(utterances: seq<Utterance>, selected: set<string>)
    requires forall i :: 0 <= i < |utterances| ==> utterances[i].speaker in selected
    ensures Visible(utterances, selected) == utterances
  {
    var idx := ShownIndices(utterances, selected);
    IndicesAreAll(idx, |utterances|);
  }

  /** An increasing list of positions below `n` that contains every one of
      them is 0, 1, ..., n - 1. */
  lemma {:induction false} IndicesAreAll(idx: seq<nat>, n: nat)
    requires forall k :: 0 <= k < |idx| ==> idx[k] < n
    requires forall k, l :: 0 <= k < l < |idx| ==> idx[k] < idx[l]
    requires forall i :: 0 <= i < n ==> i in idx
    ensures |idx| == n && forall k :: 0 <= k < n ==> idx[k] == k
  {
    if idx == [] {
      assert n == 0 || 0 in idx;
    } else {
      assert idx[0] < n;
      assert n - 1 in idx;
      var last := |idx| - 1;
      assert idx[last] == n - 1 by {
        var p :| 0 <= p < |idx| && idx[p] == n - 1;
        assert idx[p] <= idx[last];
      }
      var init := idx[..last];
      forall i | 0 <= i < n - 1 ensures i in init {
        assert i in idx;
        var p :| 0 <= p < |idx| && idx[p] == i;
        assert p != last;
        assert init[p] == i;
      }
      IndicesAreAll(init, n - 1);
    }
  }

  /** With no speaker selected, nothing is shown. */
  lemma {:induction false} NoneSelectedShowsNothing(utterances: seq<Utterance>)
    ensures Visible(utterances, {}) == []
  {
    if utterances != [] {
      NoneSelectedShowsNothing(utterances[..|utterances| - 1]);
    }
  }

  // ---------------------------------------------------------------------
  // Highlighting
  // ---------------------------------------------------------------------

  /** A shown utterance is highlighted while `start <= t <= end`, the same
      range test as the player's (`TranscriptionPlayer.Covers`). The view and
      the player agree: with the filter on, the player lets the sound through
      at `t` exactly when the view highlights some shown utterance at `t`. */
  lemma HighlightMatchesGate(utterances: seq<Utterance>, selected: set<string>, t: int)
    ensures TranscriptionPlayer.AnyActive(utterances, selected, t) ==>
      exists k :: 0 <= k < |Visible(utterances, selected)| && TranscriptionPlayer.Covers(Visible(utterances, selected)[k], t)
    ensures (exists k :: 0 <= k < |Visible(utterances, selected)| && TranscriptionPlayer.Covers(Visible(utterances, selected)[k], t)) ==>
      TranscriptionPlayer.AnyActive(utterances, selected, t)
  {
    if TranscriptionPlayer.AnyActive(utterances, selected, t) {
      var i :| 0 <= i < |utterances| && TranscriptionPlayer.IsActive(utterances[i], selected, t);
      ActiveIsShown(utterances, selected, t, i);
    }
    if exists k :: 0 <= k < |Visible(utterances, selected)| && TranscriptionPlayer.Covers(Visible(utterances, selected)[k], t) {
      var k :| 0 <= k < |Visible(utterances, selected)| && TranscriptionPlayer.Covers(Visible(utterances, selected)[k], t);
      ShownIsActive(utterances, selected, t, k);
    }
  }

  lemma ActiveIsShown(utterances: seq<Utterance>, selected: set<string>, t: int, i: nat)
    requires i < |utterances| && TranscriptionPlayer.IsActive(utterances[i], selected, t)
    ensures exists k :: 0 <= k < |Visible(utterances, selected)| && TranscriptionPlayer.Covers(Visible(utterances, selected)[k], t)
  {
    var idx := ShownIndices(utterances, selected);
    assert i in idx;
    var k :| 0 <= k < |idx| && idx[k] == i;
    assert Visible(utterances, selected)[k] == utterances[i];
  }

  lemma ShownIsActive(utterances: seq<Utterance>, selected: set<string>, t: int, k: nat)
    requires k < |Visible(utterances, selected)| && TranscriptionPlayer.Covers(Visible(utterances, selected)[k], t)
    ensures TranscriptionPlayer.AnyActive(utterances, selected, t)
  {
    var idx := ShownIndices(utterances, selected);
    var i := idx[k];
    assert i in idx;
    assert TranscriptionPlayer.IsActive(utterances[i], selected, t);
  }

  // ---------------------------------------------------------------------
  // Speaker names
  // ---------------------------------------------------------------------

  /** `speakerNames[speaker] || \`Speaker ${speaker}\``. */
  function DisplayName(names: map<string, string>, speaker: string): (title: string)
    ensures speaker in names && names[speaker] != "" ==> title == names[speaker]
    ensures !(speaker in names && names[speaker] != "") ==> title == "Speaker " + speaker
  {
    if speaker in names && names[speaker] != "" then names[speaker] else "Speaker " + speaker
  }

  /** The names the editor stores are never blank and are already trimmed. */
  predicate NamesWellFormed(names: map<string, string>) {
    forall s :: s in names ==> Trim(names[s]) == names[s] && names[s] != ""
  }

  /** Storing a non-blank trimmed name shows that name for the speaker and
      leaves every other speaker's label as it was. */
  lemma RenameShowsTrimmedName(names: map<string, string>, speaker: string, typed: string)
    requires Trim(typed) != ""
    ensures DisplayName(names[speaker := Trim(typed)], speaker) == Trim(typed)
    ensures forall other :: other != speaker ==>
      DisplayName(names[speaker := Trim(typed)], other) == DisplayName(names, other)
  {
  }

  /** Storing a non-blank trimmed name keeps the map well formed. */
  lemma StoreKeepsWellFormed(names: map<string, string>, speaker: string, name: string)
    requires name != "" && Trim(name) == name
    ensures NamesWellFormed(names) ==> NamesWellFormed(names[speaker := name])
  {
  }

  /** A well-formed map shows the custom name of every named speaker. */
  lemma NamedSpeakersShowTheirName(names: map<string, string>, speaker: string)
    requires NamesWellFormed(names) && speaker in names
    ensures DisplayName(names, speaker) == names[speaker]
  {
  }

  /** The renaming state of the view. */
  class SpeakerEditor {
    var speakerNames: map<string, string>
    var editingSpeaker: Option<string>
    var tempName: string

    constructor ()
      ensures speakerNames == map[] && editingSpeaker == None && tempName == ""
    {
      speakerNames := map[];
      editingSpeaker := None;
      tempName := "";
    }

    /** Opening a speaker's popover: the field starts from its current name
        (`speakerNames[speaker] || ""`). */
    method OpenEditor(speaker: string)
      modifies this`editingSpeaker, this`tempName
      ensures editingSpeaker == Some(speaker)
      ensures tempName == if speaker in speakerNames then speakerNames[speaker] else ""
    {
      editingSpeaker := Some(speaker);
      tempName := if speaker in speakerNames then speakerNames[speaker] else "";
    }

    /** Typing in the field. */
    method EditName(value: string)
      modifies this`tempName
      ensures tempName == value
    {
      tempName := value;
    }

    /** `handleSpeakerRename(speaker)`: a name that is blank once trimmed is
        ignored; otherwise the trimmed name is stored for that speaker. Either
        way the editor closes and the field is cleared. The stored names stay
        non-blank and trimmed. */
    method Rename(speaker: string)
      modifies this
      ensures Trim(old(tempName)) == "" ==> speakerNames == old(speakerNames)
      ensures Trim(old(tempName)) != "" ==> speakerNames == old(speakerNames)[speaker := Trim(old(tempName))]
      ensures editingSpeaker == None && tempName == ""
      ensures NamesWellFormed(old(speakerNames)) ==> NamesWellFormed(speakerNames)
    {
      var trimmed := Trim(tempName);
      if trimmed != "" {
        TrimIdempotent(tempName);
        StoreKeepsWellFormed(speakerNames, speaker, trimmed);
        speakerNames := speakerNames[speaker := trimmed];
      }
      editingSpeaker := None;
      tempName := "";
    }
  }

  // ---------------------------------------------------------------------
  // The `m:ss` clock of an utterance
  // ---------------------------------------------------------------------

  /** The view's `formatTime(ms)`: whole seconds by flooring, minutes by
      flooring again, the remainder by JavaScript's `%`, padded to two
      characters. */
  function FormatMs(ms: int): (r: string)
    ensures ms >= 0 ==> r == Clock(ms / 1000)
  {
    var seconds := ms / 1000;
    IntToString(seconds / 60) + ":" + PadStart2(IntToString(JsRem(seconds, 60)))
  }

  /** The player's clock, fed the same time in seconds, reads the same as the
      view's clock. */
  lemma PlayerClockAgrees(ms: nat)
    ensures TranscriptionPlayer.FormatTime(ms as real / 1000.0) == FormatMs(ms)
  {
    var time := ms as real / 1000.0;
    var sec := ms / 1000;
    assert time.Floor == sec by {
      TranscriptionPlayer.FloorDiv(ms as real, 1000);
      assert (ms as real).Floor == ms;
    }
    assert TranscriptionPlayer.FormatTime(time) == Clock(sec);
    assert FormatMs(ms) == Clock(sec);
  }
}
