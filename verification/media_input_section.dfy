/** The media input panel (src/components/MediaInputSection.tsx): the
    expected-speakers field. What `parseInt` makes of the typed text is an
    input: `None` stands for NaN. */
module MediaInputSection {
  import opened Types

  const MinSpeakers := 1
  const MaxSpeakers := 10

  /** `Math.min(10, Math.max(1, parseInt(value) || 1))`: NaN and 0 are falsy
      and become 1, the result is then clamped into 1..10. */
  function ClampSpeakers(parsed: Option<int>): (count: int)
    ensures MinSpeakers <= count <= MaxSpeakers
    ensures parsed.Some? && MinSpeakers <= parsed.value <= MaxSpeakers ==> count == parsed.value
    ensures parsed.None? || parsed.value <= MinSpeakers ==> count == MinSpeakers
    ensures parsed.Some? && parsed.value >= MaxSpeakers ==> count == MaxSpeakers
  {
    var n := if parsed.Some? && parsed.value != 0 then parsed.value else 1;
    var atLeastOne := if n > MinSpeakers then n else MinSpeakers;
    if atLeastOne < MaxSpeakers then atLeastOne else MaxSpeakers
  }

  /** Clamping a stored count again leaves it as it is. */
  lemma ClampIdempotent(parsed: Option<int>)
    ensures ClampSpeakers(Some(ClampSpeakers(parsed))) == ClampSpeakers(parsed)
  {
  }
}
