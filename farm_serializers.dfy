/**
  The request-level checks of happy_farm/serializers.py: the experience
  still needed for the next level, the countdowns a plot shows, and the
  validation of plant, harvest and clear requests.
*/
module FarmForms {
  import opened Common
  import opened Farming

  /**
    `get_experience_to_next_level` (happy_farm/serializers.py:76-78): the
    threshold of the next level, level squared times 100, less the
    experience; positive whenever the level is the one the experience
    earns.
  */
  function ExperienceToNextLevel(level: int, experience: int): (left: int)
    ensures left + experience == level * level * 100
    ensures experience >= 0 && level == LevelFor(experience) ==> left > 0
  {
    level * level * 100 - experience
  }

  // ---------------------------------------------------------------------
  // Countdowns
  // ---------------------------------------------------------------------

  /**
    `get_time_until_ready` (happy_farm/serializers.py:32-40): nothing
    unless the plot is planted with a ready time; zero once that time has
    come; otherwise the seconds still to wait.
  */
  function TimeUntilReady(state: PlotState, readyAt: Option<int>, now: int): (t: Option<int>)
    ensures t.None? <==> state != Planted || readyAt.None?
    ensures t.Some? ==> t.value >= 0 && (t.value == 0 <==> now >= readyAt.value)
    ensures t.Some? && t.value > 0 ==> now + t.value == readyAt.value
  {
    if state != Planted || readyAt.None? then None
    else if readyAt.value - now <= 0 then Some(0)
    else Some(readyAt.value - now)
  }

  /** `get_time_until_withers` (happy_farm/serializers.py:42-50): the same countdown for a ready plot. */
  function TimeUntilWithers(state: PlotState, withersAt: Option<int>, now: int): (t: Option<int>)
    ensures t.None? <==> state != Ready || withersAt.None?
    ensures t.Some? ==> t.value >= 0 && (t.value == 0 <==> now >= withersAt.value)
    ensures t.Some? && t.value > 0 ==> now + t.value == withersAt.value
  {
    if state != Ready || withersAt.None? then None
    else if withersAt.value - now <= 0 then Some(0)
    else Some(withersAt.value - now)
  }

  /**
    The countdowns agree with `update_state`: a plot shows zero left exactly
    when its next update moves it on, and a positive countdown means the
    update leaves it where it is.
  */
  lemma CountdownsMatchUpdates(state: PlotState, readyAt: Option<int>, withersAt: Option<int>, now: int)
    ensures TimeUntilReady(state, readyAt, now) == Some(0) <==> state == Planted && NextState(state, readyAt, withersAt, now) == Ready
    ensures TimeUntilWithers(state, withersAt, now) == Some(0) <==> state == Ready && NextState(state, readyAt, withersAt, now) == Withered
    ensures (var t := TimeUntilReady(state, readyAt, now); t.Some? && t.value > 0) ==> NextState(state, readyAt, withersAt, now) == state
    ensures (var t := TimeUntilWithers(state, withersAt, now); t.Some? && t.value > 0) ==> NextState(state, readyAt, withersAt, now) == state
  {
  }

  // ---------------------------------------------------------------------
  // Request validation
  // ---------------------------------------------------------------------

  /** The plot numbers a request may name: 0 to 19. */
  predicate PlotNumberInRange(plotNumber: int)
  {
    0 <= plotNumber < MaxPlots
  }

  /** Why a plant request is refused. */
  datatype PlantError =
    | PlotOutOfRange
    | InvalidCropType
    | NoFarm
    | PlotLocked
    | LevelTooLow(required: nat, crop: string)
    | NotEnoughEnergy
    | PlotNotEmpty

  /** The messages of `PlantCropSerializer`; the range check is the framework's own. */
  function PlantMessage(e: PlantError): (m: Option<string>)
    ensures m.None? <==> e.PlotOutOfRange?
  {
    match e
    case PlotOutOfRange => None
    case InvalidCropType => Some("Invalid crop type")
    case NoFarm => Some("User does not have a farm")
    case PlotLocked => Some("Plot is not unlocked yet")
    case LevelTooLow(required, crop) => Some("Farm level " + NatToString(required) + " required to plant " + crop)
    case NotEnoughEnergy => Some("Not enough energy")
    case PlotNotEmpty => Some("Plot is not empty")
  }

  /** What validation reads from the farm; `energy` is the energy after regeneration. */
  datatype FarmFacts = FarmFacts(level: int, plotsUnlocked: int, energy: int)

  /**
    `PlantCropSerializer` (happy_farm/serializers.py:93-143): the field
    checks (plot number, crop), then the farm, the unlocked plots, the
    level, the energy and the plot's state, in that order; the first
    failing check is the answer.
  */
  function PlantCheck(plotNumber: int, crop: Option<CropType>, farm: Option<FarmFacts>, plot: PlotState): (r: Option<PlantError>)
    ensures r.None? <==> && PlotNumberInRange(plotNumber) && crop.Some? && farm.Some?
                         && plotNumber < farm.value.plotsUnlocked && farm.value.level >= crop.value.minLevel
                         && farm.value.energy >= crop.value.energyCost && plot == Empty
    ensures r == Some(PlotLocked) ==> PlotNumberInRange(plotNumber) && crop.Some? && farm.Some?
    ensures r.Some? && r.value.LevelTooLow? ==> farm.Some? && plotNumber < farm.value.plotsUnlocked
    ensures r == Some(NotEnoughEnergy) ==> farm.Some? && crop.Some? && farm.value.level >= crop.value.minLevel
    ensures r == Some(PlotNotEmpty) ==> farm.Some? && crop.Some? && farm.value.energy >= crop.value.energyCost && plot != Empty
  {
    if !PlotNumberInRange(plotNumber) then Some(PlotOutOfRange)
    else if crop.None? then Some(InvalidCropType)
    else if farm.None? then Some(NoFarm)
    else if plotNumber >= farm.value.plotsUnlocked then Some(PlotLocked)
    else if farm.value.level < crop.value.minLevel then
      // the level is a positive integer, so the required level is too
      Some(LevelTooLow(if crop.value.minLevel < 0 then 0 else crop.value.minLevel, crop.value.name))
    else if farm.value.energy < crop.value.energyCost then Some(NotEnoughEnergy)
    else if plot != Empty then Some(PlotNotEmpty)
    else None
  }

  /**
    The validation itself: `can_use_energy` regenerates the farm's energy
    (and keeps it) when the checks get that far; a plot that does not exist
    yet is created empty.
  */
  method ValidatePlant(plotNumber: int, crop: Option<CropType>, farm: Option<Farm>, plot: Option<PlotState>, now: int)
      returns (r: Option<PlantError>)
    requires farm.Some? ==> farm.value.Valid()
    modifies if farm.Some? then {farm.value} else {}
    ensures farm.Some? ==> farm.value.Valid()
    ensures var facts := if farm.None? then None else
        Some(FarmFacts(old(farm.value.level), old(farm.value.plotsUnlocked),
                       Regenerated(old(farm.value.energy), old(farm.value.maxEnergy), now - old(farm.value.lastEnergyUpdate))));
      r == PlantCheck(plotNumber, crop, facts, if plot.None? then Empty else plot.value)
    ensures farm.Some? && (r.None? || r == Some(NotEnoughEnergy) || r == Some(PlotNotEmpty)) ==>
      && farm.value.energy == Regenerated(old(farm.value.energy), old(farm.value.maxEnergy), now - old(farm.value.lastEnergyUpdate))
      && farm.value.lastEnergyUpdate == ClockAfter(old(farm.value.lastEnergyUpdate), now)
    ensures farm.Some? && !(r.None? || r == Some(NotEnoughEnergy) || r == Some(PlotNotEmpty)) ==> unchanged(farm.value)
    ensures farm.Some? ==> farm.value.level == old(farm.value.level) && farm.value.plotsUnlocked == old(farm.value.plotsUnlocked)
  {
    if !PlotNumberInRange(plotNumber) {
      return Some(PlotOutOfRange);
    }
    if crop.None? {
      return Some(InvalidCropType);
    }
    if farm.None? {
      return Some(NoFarm);
    }
    var f := farm.value;
    var c := crop.value;
    if plotNumber >= f.plotsUnlocked {
      return Some(PlotLocked);
    }
    if f.level < c.minLevel {
      return Some(LevelTooLow(c.minLevel, c.name));
    }
    var energy := f.UpdateEnergy(now);
    if energy < c.energyCost {
      return Some(NotEnoughEnergy);
    }
    var state := if plot.None? then Empty else plot.value;
    if state != Empty {
      return Some(PlotNotEmpty);
    }
    return None;
  }

  /**
    A plant request that passes validation is then carried out by
    `plant_crop`: the plot is still empty, and the energy the farm has at
    any later regeneration still covers the crop.
  */
  lemma ValidatedPlantSucceeds(plotNumber: int, c: CropType, level: int, plotsUnlocked: int,
                               energy: int, maxEnergy: int, elapsed: int, later: int)
    requires energy <= maxEnergy
    requires PlantCheck(plotNumber, Some(c), Some(FarmFacts(level, plotsUnlocked, Regenerated(energy, maxEnergy, elapsed))), Empty).None?
    ensures Regenerated(Regenerated(energy, maxEnergy, elapsed), maxEnergy, later) >= c.energyCost
    ensures 0 <= plotNumber < plotsUnlocked && level >= c.minLevel
  {
    RegeneratedBounds(energy, maxEnergy, elapsed);
    RegeneratedBounds(Regenerated(energy, maxEnergy, elapsed), maxEnergy, later);
  }

  /** Why a harvest or clear request is refused. */
  datatype PlotError = PlotNumberOutOfRange | FarmMissing | PlotMissing

  /** The messages of `HarvestPlotSerializer` and `ClearPlotSerializer`. */
  function PlotMessage(e: PlotError): (m: Option<string>)
    ensures m.None? <==> e.PlotNumberOutOfRange?
  {
    match e
    case PlotNumberOutOfRange => None
    case FarmMissing => Some("User does not have a farm")
    case PlotMissing => Some("Plot does not exist")
  }

  /**
    `HarvestPlotSerializer` and `ClearPlotSerializer`
    (happy_farm/serializers.py:146-189): the plot number, then the farm,
    then the plot must exist.
  */
  function PlotCheck(plotNumber: int, hasFarm: bool, plotExists: bool): (r: Option<PlotError>)
    ensures r.None? <==> PlotNumberInRange(plotNumber) && hasFarm && plotExists
    ensures r == Some(PlotMissing) ==> PlotNumberInRange(plotNumber) && hasFarm
    ensures r == Some(FarmMissing) ==> PlotNumberInRange(plotNumber)
  {
    if !PlotNumberInRange(plotNumber) then Some(PlotNumberOutOfRange)
    else if !hasFarm then Some(FarmMissing)
    else if !plotExists then Some(PlotMissing)
    else None
  }

  /**
    Every request that passes names one of the 20 plots a farm can ever
    unlock, and a plant request one the farm has unlocked already.
  */
  lemma AcceptedPlotsWithinCap(plotNumber: int, crop: Option<CropType>, farm: Option<FarmFacts>, plot: PlotState, hasFarm: bool, plotExists: bool)
    ensures PlantCheck(plotNumber, crop, farm, plot).None? ==> 0 <= plotNumber < MaxPlots && plotNumber < farm.value.plotsUnlocked
    ensures PlotCheck(plotNumber, hasFarm, plotExists).None? ==> 0 <= plotNumber < MaxPlots
  {
  }
}
