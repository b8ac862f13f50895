/**
  The farm mini-game of happy_farm/models.py: a farm whose energy
  regenerates over time and whose level follows its experience, crop types,
  and plots that move through empty, planted, ready and withered.

  Times are whole seconds; a crop's growth time is in minutes and crops
  wither a day after they are ready.
*/
module Farming {
  import opened Common
  import opened Ledger

  /** Seconds per minute, per five minutes (one energy point) and per day. */
  const Minute := 60
  const EnergyPeriod := 300
  const Day := 86400

  /** The caps of `add_experience`: at most 20 plots and 200 maximum energy. */
  const MaxPlots := 20
  const EnergyCeiling := 200

  // ---------------------------------------------------------------------
  // Energy
  // ---------------------------------------------------------------------

  /**
    The energy `update_energy` adds after `elapsed` seconds: whole minutes
    (cut toward zero) divided by five, and nothing for a clock that ran
    backwards.
  */
  function EnergyGained(elapsed: int): (n: nat)
    ensures n * EnergyPeriod <= (if elapsed < 0 then 0 else elapsed)
    ensures elapsed >= 0 ==> elapsed < (n + 1) * EnergyPeriod
  {
    if elapsed < Minute then 0 else (elapsed / Minute) / 5
  }

  /** Energy after regeneration: raised by the gain, never beyond the maximum. */
  function Regenerated(energy: int, maxEnergy: int, elapsed: int): int
  {
    if EnergyGained(elapsed) > 0 then Min(maxEnergy, energy + EnergyGained(elapsed)) else energy
  }

  /** The energy clock after regeneration: it moves to `now` only when energy was added. */
  function ClockAfter(last: int, now: int): int
  {
    if EnergyGained(now - last) > 0 then now else last
  }

  function Min(a: int, b: int): int
  {
    if a <= b then a else b
  }

  /**
    Regeneration never lowers energy that is within its maximum, never lifts
    it past the maximum, and adds exactly the gain while there is room.
  */
  lemma RegeneratedBounds(energy: int, maxEnergy: int, elapsed: int)
    requires energy <= maxEnergy
    ensures energy <= Regenerated(energy, maxEnergy, elapsed) <= maxEnergy
    ensures energy + EnergyGained(elapsed) <= maxEnergy ==> Regenerated(energy, maxEnergy, elapsed) == energy + EnergyGained(elapsed)
  {
  }

  /**
    The clock restarts at every update that adds energy, dropping the
    unfinished five minutes: updating in two steps never gains more than
    updating once.
  */
  lemma SplitRegenerationLosesRemainder(a: nat, b: nat)
    ensures EnergyGained(a) + EnergyGained(b) <= EnergyGained(a + b)
  {
    var n, m := EnergyGained(a), EnergyGained(b);
    assert (n + m) * EnergyPeriod <= a + b;
  }

  // ---------------------------------------------------------------------
  // Experience and level
  // ---------------------------------------------------------------------

  /** The integer square root. */
  function ISqrt(n: nat): (r: nat)
    ensures r * r <= n < (r + 1) * (r + 1)
  {
    if n == 0 then 0
    else
      var r := ISqrt(n - 1);
      if (r + 1) * (r + 1) <= n then r + 1 else r
  }

  /** The level formula of `add_experience`: int(sqrt(experience / 100)) + 1. */
  function LevelFor(experience: nat): (level: nat)
    ensures level >= 1
    ensures (level - 1) * (level - 1) * 100 <= experience < level * level * 100
  {
    ISqrt(experience / 100) + 1
  }

  /** More experience never means a lower level. */
  lemma LevelForMonotone(e: nat, e': nat)
    requires e <= e'
    ensures LevelFor(e) <= LevelFor(e')
  {
    var l, l' := LevelFor(e), LevelFor(e');
    if l' < l {
      SquareMonotone(l', l - 1);
    }
  }

  lemma SquareMonotone(a: nat, b: nat)
    requires a <= b
    ensures a * a <= b * b
  {
    assert a * a <= a * b <= b * b;
  }

  /**
    The plots after `add_experience` reaches `newLevel` from `level`: two
    more (up to 20) when that is a level up to an even level.
  */
  function PlotsAfter(level: int, plots: int, newLevel: int): int
  {
    if newLevel > level && newLevel % 2 == 0 then Min(MaxPlots, plots + 2) else plots
  }

  /**
    The maximum energy after `add_experience` reaches `newLevel` from
    `level`: ten more (up to 200) when that is a level up to a multiple of
    three.
  */
  function MaxEnergyAfter(level: int, maxEnergy: int, newLevel: int): int
  {
    if newLevel > level && newLevel % 3 == 0 then Min(EnergyCeiling, maxEnergy + 10) else maxEnergy
  }

  // ---------------------------------------------------------------------
  // The farm
  // ---------------------------------------------------------------------

  /** A user's farm, a record updated in place. */
  class Farm {
    var level: int
    var experience: nat
    var energy: int
    var maxEnergy: int
    /** `last_energy_update`, also touched by every full `save`. */
    var lastEnergyUpdate: int
    var plotsUnlocked: int

    /** The caps hold, and energy is between zero and its maximum. */
    ghost predicate Valid()
      reads this
    {
      && 1 <= level && plotsUnlocked <= MaxPlots && maxEnergy <= EnergyCeiling && 0 <= energy <= maxEnergy
    }

    /** A new farm: level 1, no experience, 100 of 100 energy, six plots. */
    constructor (now: int)
      ensures Valid()
      ensures level == 1 && experience == 0 && energy == 100 && maxEnergy == 100 && plotsUnlocked == 6
      ensures lastEnergyUpdate == now
    {
      level := 1;
      experience := 0;
      energy := 100;
      maxEnergy := 100;
      lastEnergyUpdate := now;
      plotsUnlocked := 6;
    }

    /**
      `update_energy` (happy_farm/models.py:33-46): energy becomes
      `Regenerated`; the clock moves to `now` only when energy was added.
    */
    method UpdateEnergy(now: int) returns (e: int)
      requires Valid()
      modifies this`energy, this`lastEnergyUpdate
      ensures Valid() && e == energy
      ensures energy == Regenerated(old(energy), maxEnergy, now - old(lastEnergyUpdate))
      ensures lastEnergyUpdate == ClockAfter(old(lastEnergyUpdate), now)
    {
      var minutesPassed := if now - lastEnergyUpdate >= 0 then (now - lastEnergyUpdate) / Minute else -((lastEnergyUpdate - now) / Minute);
      if minutesPassed > 0 {
        var energyToAdd := minutesPassed / 5;
        if energyToAdd > 0 {
          energy := Min(maxEnergy, energy + energyToAdd);
          lastEnergyUpdate := now;
        }
      }
      return energy;
    }

    /**
      `use_energy` (happy_farm/models.py:48-59): regenerate, then spend
      `amount` when there is that much; the regeneration stays either way.
    */
    method UseEnergy(amount: int, now: int) returns (ok: bool)
      requires Valid() && amount >= 0
      modifies this`energy, this`lastEnergyUpdate
      ensures Valid()
      ensures var regenerated := Regenerated(old(energy), maxEnergy, now - old(lastEnergyUpdate));
        && (ok <==> regenerated >= amount)
        && energy == (if ok then regenerated - amount else regenerated)
      ensures lastEnergyUpdate == ClockAfter(old(lastEnergyUpdate), now)
    {
      var e := UpdateEnergy(now);
      RegeneratedBounds(old(energy), maxEnergy, now - old(lastEnergyUpdate));
      if e >= amount {
        energy := energy - amount;
        return true;
      }
      return false;
    }

    /**
      `add_experience` (happy_farm/models.py:61-81). The experience grows by
      `amount`; when the formula gives a higher level the farm takes it,
      gains two plots (up to 20) if that level is even, and ten maximum
      energy (up to 200) plus a full refill if it is a multiple of three.
      The full `save` also restarts the energy clock.
    */
    method AddExperience(amount: int, now: int) returns (leveledUp: bool, newLevel: int)
      requires Valid() && experience + amount >= 0
      modifies this
      ensures Valid()
      ensures experience == old(experience) + amount && newLevel == LevelFor(experience)
      ensures leveledUp <==> newLevel > old(level)
      ensures level == if leveledUp then newLevel else old(level)
      ensures plotsUnlocked == PlotsAfter(old(level), old(plotsUnlocked), newLevel)
      ensures maxEnergy == MaxEnergyAfter(old(level), old(maxEnergy), newLevel)
      ensures energy == if leveledUp && newLevel % 3 == 0 then maxEnergy else old(energy)
      ensures lastEnergyUpdate == now
    {
      experience := experience + amount;
      var oldLevel := level;
      newLevel := LevelFor(experience);
      if newLevel > oldLevel {
        level := newLevel;
        if newLevel % 2 == 0 {
          plotsUnlocked := Min(MaxPlots, plotsUnlocked + 2);
        }
        if newLevel % 3 == 0 {
          maxEnergy := Min(EnergyCeiling, maxEnergy + 10);
          energy := maxEnergy;
        }
      }
      lastEnergyUpdate := now;
      leveledUp := newLevel > oldLevel;
    }
  }

  /**
    The level `add_experience` leaves: the formula's level when higher, the
    old one otherwise; so the level never drops, and always at least follows
    the experience.
  */
  function LevelAfter(level: int, experience: nat): (l: int)
    ensures l >= level && l >= LevelFor(experience)
    ensures l == level || l == LevelFor(experience)
  {
    if LevelFor(experience) > level then LevelFor(experience) else level
  }

  /**
    Plots unlock only when the new level itself is even: a jump of two or
    more levels to an odd level unlocks none, though it passes an even
    level on the way. A farm at level 1 that gains 400 experience at once
    lands on level 3 this way.
  */
  lemma LevelJumpSkipsUnlock(level: int, plots: int, newLevel: int)
    requires newLevel >= level + 2 && newLevel % 2 == 1
    ensures PlotsAfter(level, plots, newLevel) == plots
    ensures plots < MaxPlots ==>
      exists passed :: level < passed < newLevel && passed % 2 == 0 && PlotsAfter(level, plots, passed) > plots
    ensures LevelFor(400) == 3
  {
    var passed := newLevel - 1;
    assert level < passed < newLevel && passed % 2 == 0;
    assert plots < MaxPlots ==> PlotsAfter(level, plots, passed) > plots;
    assert ISqrt(1) == 1 && ISqrt(2) == 1 && ISqrt(3) == 1;
    assert ISqrt(4) == 2;
  }

  // ---------------------------------------------------------------------
  // Crops and plots
  // ---------------------------------------------------------------------

  /** A crop type; all prices are in đồng. */
  datatype CropType = CropType(
    name: string, seedPrice: int, sellPrice: int, growthMinutes: int,
    experienceReward: int, minLevel: int, energyCost: int)

  /** `profit` (happy_farm/models.py:102-105): what a harvest earns beyond the seeds. */
  function Profit(c: CropType): (p: int)
    ensures p + c.seedPrice == c.sellPrice
  {
    c.sellPrice - c.seedPrice
  }

  /** What `harvest` reports: a refusal with its message, a missing wallet, or the rewards. */
  datatype HarvestResult =
    | Refused(message: string)
    | NoWallet
    | Harvested(money: int, xp: int, leveledUp: bool, newLevel: int)

  /** The `state` choices of a plot. */
  datatype PlotState = Empty | Planted | Ready | Withered

  /**
    `update_state` (happy_farm/models.py:161-170) as a function of the
    stored fields: planted becomes ready once the ready time has come, ready
    becomes withered once the wither time has come; nothing else moves.
  */
  function NextState(state: PlotState, readyAt: Option<int>, withersAt: Option<int>, now: int): (s: PlotState)
    ensures s == state || (state == Planted && s == Ready) || (state == Ready && s == Withered)
    ensures state == Planted ==> (s == Ready <==> readyAt.Some? && now >= readyAt.value)
    ensures state == Ready ==> (s == Withered <==> withersAt.Some? && now >= withersAt.value)
  {
    if state == Planted && readyAt.Some? && now >= readyAt.value then Ready
    else if state == Ready && withersAt.Some? && now >= withersAt.value then Withered
    else state
  }

  /**
    One update moves at most one step, and a crop planted with its wither
    time a day after its ready time goes from planted to withered only over
    two updates at least a day apart.
  */
  lemma {:induction false} NextStateOneStep(readyAt: int, now: int, later: int)
    requires now >= readyAt && later < readyAt + Day
    ensures NextState(Planted, Some(readyAt), Some(readyAt + Day), now) == Ready
    ensures NextState(NextState(Planted, Some(readyAt), Some(readyAt + Day), now), Some(readyAt), Some(readyAt + Day), later) == Ready
  {
  }

  /** A plot of a farm, a record updated in place. */
  class FarmPlot {
    const farm: Farm
    const plotNumber: int
    var state: PlotState
    var crop: Option<CropType>
    var plantedAt: Option<int>
    var readyAt: Option<int>
    var withersAt: Option<int>

    /** The plot `get_or_create` makes: empty. */
    constructor (farm: Farm, plotNumber: int)
      ensures this.farm == farm && this.plotNumber == plotNumber && IsClear()
    {
      this.farm := farm;
      this.plotNumber := plotNumber;
      state := Empty;
      crop := None;
      plantedAt := None;
      readyAt := None;
      withersAt := None;
    }

    /** Empty, with no crop and no times. */
    predicate IsClear()
      reads this
    {
      state == Empty && crop.None? && plantedAt.None? && readyAt.None? && withersAt.None?
    }

    /**
      `plant_crop` (happy_farm/models.py:143-159): only on an empty plot and
      only when the farm can pay the crop's energy; then the crop is planted
      now, ready after its growth time and withering a day later.
    */
    method PlantCrop(c: CropType, now: int) returns (ok: bool, message: string)
      requires farm.Valid() && c.energyCost >= 0
      modifies this, farm`energy, farm`lastEnergyUpdate
      ensures farm.Valid()
      ensures old(state) != Empty ==> !ok && message == "Plot is not empty" && unchanged(this) && unchanged(farm)
      ensures old(state) == Empty && !ok ==> message == "Not enough energy" && unchanged(this)
      ensures ok <==> old(state) == Empty && Regenerated(old(farm.energy), farm.maxEnergy, now - old(farm.lastEnergyUpdate)) >= c.energyCost
      ensures old(state) == Empty ==>
        var regenerated := Regenerated(old(farm.energy), farm.maxEnergy, now - old(farm.lastEnergyUpdate));
        && farm.energy == (if ok then regenerated - c.energyCost else regenerated)
        && farm.lastEnergyUpdate == ClockAfter(old(farm.lastEnergyUpdate), now)
      ensures ok ==> && message == "Crop planted successfully"
                     && state == Planted && crop == Some(c) && plantedAt == Some(now)
                     && readyAt == Some(now + c.growthMinutes * Minute) && withersAt == Some(now + c.growthMinutes * Minute + Day)
    {
      if state != Empty {
        return false, "Plot is not empty";
      }
      var paid := farm.UseEnergy(c.energyCost, now);
      if !paid {
        return false, "Not enough energy";
      }
      crop := Some(c);
      state := Planted;
      plantedAt := Some(now);
      readyAt := Some(now + c.growthMinutes * Minute);
      withersAt := Some(now + c.growthMinutes * Minute + Day);
      return true, "Crop planted successfully";
    }

    /** `update_state`: the state becomes `NextState` of the stored fields; nothing else changes. */
    method UpdateState(now: int) returns (s: PlotState)
      modifies this`state
      ensures state == NextState(old(state), readyAt, withersAt, now) && s == state
    {
      if state == Planted && readyAt.Some? && now >= readyAt.value {
        state := Ready;
      } else if state == Ready && withersAt.Some? && now >= withersAt.value {
        state := Withered;
      }
      return state;
    }

    /**
      `harvest` (happy_farm/models.py:172-211): after `update_state`, only a
      ready plot that still has its crop pays out. The crop's sell price goes
      into the wallet with a `farm_harvest` record, its experience reward to
      the farm, and the plot is cleared. A user without a wallet makes the
      source raise after the state update: `NoWallet`, with nothing else
      changed.
    */
    method Harvest(wallet: Option<Wallet>, now: int) returns (r: HarvestResult)
      requires farm.Valid() && (wallet.Some? ==> wallet.value.Valid())
      requires crop.Some? ==> farm.experience + crop.value.experienceReward >= 0
      modifies this, farm, if wallet.Some? then {wallet.value} else {}
      ensures farm.Valid() && (wallet.Some? ==> wallet.value.Valid())
      ensures var s := NextState(old(state), old(readyAt), old(withersAt), now);
        && (s != Ready <==> r == Refused("Crop is not ready to harvest"))
        && (s == Ready && old(crop).None? <==> r == Refused("No crop planted"))
        && (s == Ready && old(crop).Some? && wallet.None? <==> r.NoWallet?)
      ensures !r.Harvested? ==> && state == NextState(old(state), old(readyAt), old(withersAt), now)
                                && crop == old(crop) && plantedAt == old(plantedAt)
                                && readyAt == old(readyAt) && withersAt == old(withersAt)
                                && unchanged(farm) && (wallet.Some? ==> unchanged(wallet.value))
      ensures r.Harvested? ==> && r.money == old(crop).value.sellPrice && r.xp == old(crop).value.experienceReward
                               && wallet.value.State() == Credit(old(wallet.value.State()), r.money, "farm_harvest",
                                    "Harvested " + old(crop).value.name + " from farm", None)
                               && farm.experience == old(farm.experience) + r.xp
                               && farm.level == LevelAfter(old(farm.level), farm.experience)
                               && (r.leveledUp <==> farm.level > old(farm.level)) && r.newLevel == LevelFor(farm.experience)
                               && farm.plotsUnlocked == PlotsAfter(old(farm.level), old(farm.plotsUnlocked), r.newLevel)
                               && farm.maxEnergy == MaxEnergyAfter(old(farm.level), old(farm.maxEnergy), r.newLevel)
                               && farm.energy == (if r.leveledUp && r.newLevel % 3 == 0 then farm.maxEnergy else old(farm.energy))
                               && farm.lastEnergyUpdate == now
                               && IsClear()
    {
      var s := UpdateState(now);
      if s != Ready {
        return Refused("Crop is not ready to harvest");
      }
      if crop.None? {
        return Refused("No crop planted");
      }
      if wallet.None? {
        return NoWallet;
      }
      var c := crop.value;
      var _ := wallet.value.AddBalance(c.sellPrice, "farm_harvest", "Harvested " + c.name + " from farm", None);
      var leveledUp, newLevel := farm.AddExperience(c.experienceReward, now);
      ClearPlot();
      return Harvested(c.sellPrice, c.experienceReward, leveledUp, newLevel);
    }

    /** `clear_plot` (happy_farm/models.py:213-220): whatever the plot held, it is empty again. */
    method ClearPlot()
      modifies this`state, this`crop, this`plantedAt, this`readyAt, this`withersAt
      ensures IsClear()
    {
      crop := None;
      state := Empty;
      plantedAt := None;
      readyAt := None;
      withersAt := None;
    }
  }
}
