/** The media player (src/components/TranscriptionPlayer.tsx): the effect that
    silences the output while no selected speaker is talking, the transport
    buttons, and the clock shown beside the seek bar. The media element is
    reduced to the fields the component reads and writes (its position,
    volume, muted flag and whether it plays); positions are integer
    milliseconds. */
module TranscriptionPlayer {
  import opened Types
  import opened Text

  /** `t` lies in the utterance's time range, both ends included. */
  predicate Covers(u: Utterance, t: int) {
    u.start <= t <= u.end
  }

  /** The test of the `find` in the gating effect: the range covers `t` and
      the speaker is selected. */
  predicate IsActive(u: Utterance, selected: set<string>, t: int) {
    Covers(u, t) && u.speaker in selected
  }

  /** Some utterance is active at `t`. */
  predicate AnyActive(utterances: seq<Utterance>, selected: set<string>, t: int) {
    exists i :: 0 <= i < |utterances| && IsActive(utterances[i], selected, t)
  }

  /** The index `find` stops at: the first active utterance, or the length of
      the list when there is none. */
  function FirstActive(utterances: seq<Utterance>, selected: set<string>, t: int): (k: nat)
    ensures k <= |utterances|
    ensures forall j :: 0 <= j < k ==> !IsActive(utterances[j], selected, t)
    ensures k < |utterances| ==> IsActive(utterances[k], selected, t)
  {
    if utterances == [] then 0
    else if IsActive(utterances[0], selected, t) then 0
    else
      var k := FirstActive(utterances[1..], selected, t);
      assert forall j :: 1 <= j < 1 + k ==> utterances[j] == utterances[1..][j - 1];
      1 + k
  }

  /** `utterances.find(...)`: the first active utterance, if any. */
  function FindActive(utterances: seq<Utterance>, selected: set<string>, t: int): (found: Option<Utterance>)
    ensures found.None? <==> !AnyActive(utterances, selected, t)
    ensures found.Some? ==> IsActive(found.value, selected, t)
  {
    var k := FirstActive(utterances, selected, t);
    if k < |utterances| then Some(utterances[k]) else None
  }

  /** The output volume the gating effect sets: the user's volume with the
      original sound on; otherwise the user's volume while a selected speaker
      is talking and 0 in between. */
  function GatedVolume(originalSound: bool, volume: real, utterances: seq<Utterance>,
                       selected: set<string>, t: int): (v: real)
    ensures originalSound ==> v == volume
    ensures !originalSound && AnyActive(utterances, selected, t) ==> v == volume
    ensures !originalSound && !AnyActive(utterances, selected, t) ==> v == 0.0
  {
    if originalSound then volume
    else if FindActive(utterances, selected, t).None? then 0.0
    else volume
  }

  /** Both ends of a selected speaker's utterance are inside it: with the
      filter on, the sound is on at its first and at its last millisecond. */
  lemma EndsAreAudible(utterances: seq<Utterance>, selected: set<string>, i: nat, volume: real)
    requires i < |utterances| && utterances[i].speaker in selected
    requires utterances[i].start <= utterances[i].end
    ensures GatedVolume(false, volume, utterances, selected, utterances[i].start) == volume
    ensures GatedVolume(false, volume, utterances, selected, utterances[i].end) == volume
  {
    assert IsActive(utterances[i], selected, utterances[i].start);
    assert IsActive(utterances[i], selected, utterances[i].end);
  }

  /** When one utterance ends exactly where the next starts, `find` picks the
      earlier one at the shared instant. */
  lemma TieGoesToEarlier(a: Utterance, b: Utterance, selected: set<string>)
    requires a.speaker in selected && b.speaker in selected
    requires a.start <= a.end == b.start <= b.end
    ensures FindActive([a, b], selected, a.end) == Some(a)
  {
    assert IsActive([a, b][0], selected, a.end);
  }

  /** A deselected speaker is never heard with the filter on: between
      utterances of selected speakers the output is silent even while the
      deselected one talks. */
  lemma DeselectedIsSilent(u: Utterance, selected: set<string>, volume: real, t: int)
    requires u.speaker !in selected && Covers(u, t)
    ensures GatedVolume(false, volume, [u], selected, t) == 0.0
  {
    assert !IsActive([u][0], selected, t);
  }

  /** Where a seek to `target` lands: the browser keeps a new position within
      the media, from 0 to its duration. */
  function SeekTarget(target: int, duration: nat): (p: int)
    ensures 0 <= p <= duration
    ensures 0 <= target <= duration ==> p == target
    ensures target < 0 ==> p == 0
    ensures target > duration ==> p == duration
  {
    if target < 0 then 0 else if target > duration then duration else target
  }

  const PlayFailedText := "Failed to play media. Please try again."
  const LoadFailedText := "Error loading media. Please check the file format and try again."

  /** The component's state and the media element it drives. */
  class MediaPlayer {
    /** Whether `mediaRef.current` is set. */
    var hasMedia: bool
    var isPlaying: bool
    /** The `currentTime` state, as last reported by the element. */
    var currentTime: int
    var volume: real
    var isMuted: bool
    var originalSound: bool
    var error: Option<string>
    /** The element's own position, volume, muted flag and playing state. */
    var position: int
    /** The length of the loaded media, the far end of the seekable range. */
    var mediaDuration: nat
    var mediaVolume: real
    var mediaMuted: bool
    var mediaPlaying: bool

    constructor (hasMedia: bool, mediaDuration: nat)
      ensures this.hasMedia == hasMedia && this.mediaDuration == mediaDuration
      ensures InRange()
      ensures !isPlaying && currentTime == 0 && volume == 1.0 && !isMuted && originalSound && error == None
      ensures position == 0 && mediaVolume == 1.0 && !mediaMuted && !mediaPlaying
    {
      this.hasMedia := hasMedia;
      this.mediaDuration := mediaDuration;
      isPlaying := false;
      currentTime := 0;
      volume := 1.0;
      isMuted := false;
      originalSound := true;
      error := None;
      position := 0;
      mediaVolume := 1.0;
      mediaMuted := false;
      mediaPlaying := false;
    }

    /** The element's position lies within the media. */
    ghost predicate InRange()
      reads this
    {
      0 <= position <= mediaDuration
    }

    /** The element's muted flag follows the `isMuted` state. */
    ghost predicate MuteInSync()
      reads this
    {
      hasMedia ==> mediaMuted == isMuted
    }

    /** The gating effect, run after a change of time, utterances, selection,
        volume or original-sound mode. It does nothing without an element or
        while the utterances or the selection are absent. */
    method GateVolume(utterances: Option<seq<Utterance>>, selected: Option<set<string>>)
      modifies this`mediaVolume
      ensures !hasMedia || utterances.None? || selected.None? ==> mediaVolume == old(mediaVolume)
      ensures hasMedia && utterances.Some? && selected.Some? ==>
        mediaVolume == GatedVolume(originalSound, volume, utterances.value, selected.value, currentTime)
    {
      if !hasMedia || utterances.None? || selected.None? {
        return;
      }
      if originalSound {
        mediaVolume := volume;
        return;
      }
      var current := FindActive(utterances.value, selected.value, currentTime);
      if current.None? {
        mediaVolume := 0.0;
      } else {
        mediaVolume := volume;
      }
    }

    /** `togglePlay`: pause or start the element and flip `isPlaying`;
        starting clears a previous error. */
    method TogglePlay()
      modifies this`isPlaying, this`mediaPlaying, this`error
      ensures !hasMedia ==> isPlaying == old(isPlaying) && mediaPlaying == old(mediaPlaying) && error == old(error)
      ensures hasMedia ==> isPlaying == !old(isPlaying) && mediaPlaying == !old(isPlaying)
      ensures hasMedia && !old(isPlaying) ==> error == None
      ensures hasMedia && old(isPlaying) ==> error == old(error)
    {
      if hasMedia {
        if isPlaying {
          mediaPlaying := false;
        } else {
          error := None;
          mediaPlaying := true;
        }
        isPlaying := !isPlaying;
      }
    }

    /** The rejection handler of `play()`: the error is shown and the button
        goes back to "play". */
    method PlaybackRejected()
      modifies this`isPlaying, this`error
      ensures error == Some(PlayFailedText) && !isPlaying
    {
      error := Some(PlayFailedText);
      isPlaying := false;
    }

    /** `handleError` of the element: a load failure is shown and playback
        stops. */
    method MediaFailed()
      modifies this`isPlaying, this`error
      ensures error == Some(LoadFailedText) && !isPlaying
    {
      error := Some(LoadFailedText);
      isPlaying := false;
    }

    /** `handleTimeUpdate`: the element's position becomes the `currentTime`
        state and is reported to the parent. */
    method TimeUpdate() returns (reported: Option<int>)
      modifies this`currentTime
      ensures hasMedia ==> currentTime == position && reported == Some(position)
      ensures !hasMedia ==> currentTime == old(currentTime) && reported == None
    {
      if hasMedia {
        currentTime := position;
        reported := Some(position);
      } else {
        reported := None;
      }
    }

    /** `skipTime(seconds)`: the element seeks that many seconds from its
        position, and the browser keeps the result within the media. */
    method SkipTime(seconds: int)
      modifies this`position
      ensures hasMedia ==> position == SeekTarget(old(position) + seconds * 1000, mediaDuration)
      ensures !hasMedia ==> position == old(position)
      ensures old(InRange()) ==> InRange()
    {
      if hasMedia {
        position := SeekTarget(position + seconds * 1000, mediaDuration);
      }
    }

    /** The −10 and +10 buttons in turn: from 10 seconds in or later the
        position comes back to where it was; nearer the start the first skip
        stops at 0, so the second lands at 10 seconds (or at the end of
        shorter media). */
    method SkipBackThenForward()
      requires InRange()
      modifies this`position
      ensures !hasMedia ==> position == old(position)
      ensures hasMedia && 10000 <= old(position) ==> position == old(position)
      ensures hasMedia && old(position) < 10000 ==>
        position == if mediaDuration < 10000 then mediaDuration else 10000
    {
      SkipTime(-10);
      SkipTime(10);
    }

    /** `toggleMute`: the element and the `isMuted` state both take the
        negation of `isMuted`. */
    method ToggleMute()
      modifies this`isMuted, this`mediaMuted
      ensures hasMedia ==> isMuted == !old(isMuted) && mediaMuted == !old(isMuted)
      ensures !hasMedia ==> isMuted == old(isMuted) && mediaMuted == old(mediaMuted)
      ensures MuteInSync()
    {
      if hasMedia {
        mediaMuted := !isMuted;
        isMuted := !isMuted;
      }
    }

    /** Muting twice restores both flags, once they are in step. */
    method ToggleMuteTwice()
      modifies this`isMuted, this`mediaMuted
      ensures isMuted == old(isMuted)
      ensures old(MuteInSync()) ==> mediaMuted == old(mediaMuted)
    {
      ToggleMute();
      ToggleMute();
    }

    /** `toggleOriginalSound`. */
    method ToggleOriginalSound()
      modifies this`originalSound
      ensures originalSound == !old(originalSound)
    {
      originalSound := !originalSound;
    }

    /** Switching the original sound twice restores the mode. */
    method ToggleOriginalSoundTwice()
      modifies this`originalSound
      ensures originalSound == old(originalSound)
    {
      ToggleOriginalSound();
      ToggleOriginalSound();
    }
  }

  /** `Math.trunc`. */
  function Trunc(x: real): int {
    if x >= 0.0 then x.Floor else -((-x).Floor)
  }

  /** JavaScript's `x % m` on numbers: `x` less the truncated multiple of `m`. */
  function RealRem(x: real, m: real): real
    requires m != 0.0
  {
    x - m * Trunc(x / m) as real
  }

  /** The player's `formatTime(time)` over seconds: the floored minutes, a
      colon, then the floored remainder padded to two characters. Exact real
      arithmetic stands for the element's floating-point time. At a
      non-negative time it is the clock of the whole seconds. */
  function FormatTime(time: real): (r: string)
    ensures time >= 0.0 ==> time.Floor >= 0 && r == Clock(time.Floor)
  {
    var minutes := (time / 60.0).Floor;
    var seconds := RealRem(time, 60.0).Floor;
    assert time >= 0.0 ==> time.Floor >= 0 && minutes == time.Floor / 60 && seconds == time.Floor % 60 by {
      if time >= 0.0 {
        SecondsParts(time);
      }
    }
    IntToString(minutes) + ":" + PadStart2(IntToString(seconds))
  }

  /** Dividing a non-negative real by `d` and flooring is flooring and then
      dividing by `d`. */
  lemma FloorDiv(x: real, d: nat)
    requires x >= 0.0 && d > 0
    ensures (x / d as real).Floor == x.Floor / d
  {
    var n := x.Floor;
    var q := n / d;
    assert q * d <= n < (q + 1) * d;
    CastProduct(q, d);
    CastProduct(q + 1, d);
    assert (q * d) as real <= x < ((q + 1) * d) as real;
    ScaleBounds(x, d as real, q as real, (q + 1) as real);
  }

  lemma CastProduct(a: int, b: int)
    ensures (a * b) as real == a as real * b as real
  {
  }

  /** Bounds on a multiple of a positive `d` bound the quotient. */
  lemma ScaleBounds(x: real, d: real, lo: real, hi: real)
    requires d > 0.0 && lo * d <= x < hi * d
    ensures lo <= x / d < hi
  {
  }

  /** At a non-negative time, the floored minutes and the floored remainder
      are the whole seconds divided by 60 and their remainder. */
  lemma SecondsParts(time: real)
    requires time >= 0.0
    ensures time.Floor >= 0
    ensures (time / 60.0).Floor == time.Floor / 60
    ensures RealRem(time, 60.0).Floor == time.Floor % 60
  {
    var n := time.Floor;
    FloorDiv(time, 60);
    var q := n / 60;
    assert Trunc(time / 60.0) == q;
    var rem := RealRem(time, 60.0);
    assert rem == time - (q * 60) as real;
    assert rem.Floor == n - q * 60 by {
      assert (n - q * 60) as real <= rem < (n - q * 60 + 1) as real;
    }
  }
}
