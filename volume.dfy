/** The volume command group: an absolute level checked against 0..150,
    and steps of 10 up or down, clamped to that range. */
module Volume {
  import opened Errors

  /** The highest level the commands accept. */
  const MaxLevel: int := 150
  /** The amount one step up or down changes the level by. */
  const Step: int := 10

  /** `volume_group`: the level that is set, or the error for an out-of-range one. */
  function CheckedLevel(level: int): (r: Result<int>)
    ensures r.Ok? <==> 0 <= level <= MaxLevel
    ensures r.Ok? ==> r.value == level
    ensures level < 0 ==> r == Err(VolumeTooLow)
    ensures level > MaxLevel ==> r == Err(VolumeTooHigh)
  {
    if level < 0 then Err(VolumeTooLow)
    else if level > MaxLevel then Err(VolumeTooHigh)
    else Ok(level)
  }

  /** `volume_up_command`: refuses only at exactly 150; otherwise one step up,
      never beyond 150. */
  function Raised(level: int): (r: Result<int>)
    ensures r == Err(MaxVolume) <==> level == MaxLevel
    ensures r.Ok? ==> r.value <= MaxLevel
    ensures r.Ok? && level < MaxLevel ==> level < r.value <= level + Step
    ensures r.Ok? && level + Step <= MaxLevel ==> r.value == level + Step
    ensures r.Ok? && level > MaxLevel ==> r.value == MaxLevel
    ensures r.Ok? && level < MaxLevel < level + Step ==> r.value == MaxLevel
  {
    if level == MaxLevel then Err(MaxVolume)
    else Ok(if level + Step < MaxLevel then level + Step else MaxLevel)
  }

  /** `volume_down_command`: refuses only at exactly 0; otherwise one step
      down, never below 0. */
  function Lowered(level: int): (r: Result<int>)
    ensures r == Err(MinVolume) <==> level == 0
    ensures r.Ok? ==> r.value >= 0
    ensures r.Ok? && level > 0 ==> level - Step <= r.value < level
    ensures r.Ok? && level - Step >= 0 ==> r.value == level - Step
    ensures r.Ok? && level < 0 ==> r.value == 0
    ensures r.Ok? && 0 < level < Step ==> r.value == 0
  {
    if level == 0 then Err(MinVolume)
    else Ok(if 0 > level - Step then 0 else level - Step)
  }

  /** Every volume command keeps a level in 0..150 inside 0..150. */
  lemma CommandsKeepRange(level: int, requested: int)
    requires 0 <= level <= MaxLevel
    ensures CheckedLevel(requested).Ok? ==> 0 <= CheckedLevel(requested).value <= MaxLevel
    ensures Raised(level).Ok? ==> 0 <= Raised(level).value <= MaxLevel
    ensures Lowered(level).Ok? ==> 0 <= Lowered(level).value <= MaxLevel
  {
  }

  /** A step up and a step down undo each other away from the clamped ends. */
  lemma StepsUndoEachOther(level: int)
    ensures 0 <= level <= MaxLevel - Step ==> Lowered(Raised(level).value) == Ok(level)
    ensures Step <= level <= MaxLevel ==> Raised(Lowered(level).value) == Ok(level)
  {
  }

  /** Near the ends a step clamps, so the way back does not restore the level:
      145 goes up to 150, and back down to 140. */
  lemma ClampedStepIsLossy()
    ensures Raised(145) == Ok(MaxLevel) && Lowered(MaxLevel) == Ok(140)
    ensures Lowered(5) == Ok(0) && Raised(0) == Ok(10)
  {
  }
}
