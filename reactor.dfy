/** The reactor of the simulated plant (simulator/Reactor.java): a control rod
    sets the heating, water pumped in cools the core, water above 100 degrees
    boils off into steam, and over-temperature or over-pressure wears down the
    reactor's health. */
module Reactors {
  import opened Wrappers
  import opened JavaNumerics

  const DEFAULT_TEMPERATURE := 0
  const DEFAULT_PRESSURE := 0
  const DEFAULT_WATER_VOLUME := 8000
  const DEFAULT_STEAM_VOLUME := 0

  const MAX_TEMPERATURE := 2865
  const MAX_PRESSURE := 500
  const MAX_HEALTH := 100
  const MAX_HEATING_PER_STEP := 100
  const MIN_SAFE_WATER_VOLUME := 2000
  const UNSAFE_HEATING_MULTIPLIER := 2
  const WATER_STEAM_RATIO := 2
  const HEALTH_CHANGE_WHEN_DAMAGING := 10

  /** The percentage a new control rod is lowered to. */
  const DEFAULT_PERCENTAGE := 100

  /** The `IllegalArgumentException` a control rod throws. */
  datatype RodError = PercentageOutOfRange(requested: int)

  // ---------------- Per-step quantities ----------------

  /** `percentageToDecimal`: the source divides two ints, so the "decimal" is
      the truncated quotient: 0 below 100 percent and 1 at exactly 100. */
  function PercentageToDecimal(percentage: int): (d: int)
    ensures d == 0 <==> -100 < percentage < 100
    ensures 0 <= percentage <= 100 ==> (d == 1 <==> percentage == 100)
  {
    TruncDiv(percentage, 100)
  }

  /** `heating`: the temperature rise caused by the control rod. Because of
      the integer division it is all-or-nothing: no heating at all below a
      fully lowered rod, and the full rate (doubled when the water is at or
      below the safe minimum) at 100 percent. */
  function Heating(waterVolume: int, percentageLowered: int): (h: int)
    ensures -100 < percentageLowered < 100 ==> h == 0
    ensures percentageLowered == 100 && waterVolume > MIN_SAFE_WATER_VOLUME ==> h == MAX_HEATING_PER_STEP
    ensures percentageLowered == 100 && waterVolume <= MIN_SAFE_WATER_VOLUME ==>
              h == MAX_HEATING_PER_STEP * UNSAFE_HEATING_MULTIPLIER
  {
    var fraction := PercentageToDecimal(percentageLowered);
    if waterVolume <= MIN_SAFE_WATER_VOLUME then
      MAX_HEATING_PER_STEP * UNSAFE_HEATING_MULTIPLIER * fraction
    else
      MAX_HEATING_PER_STEP * fraction
  }

  /** `cooldown`: a tenth of the water pumped in, to the nearest degree. */
  function Cooldown(pumpedIn: int): (c: int)
    ensures 10 * c - 5 <= pumpedIn < 10 * c + 5
    ensures pumpedIn >= 0 ==> c >= 0
  {
    RoundTenth(pumpedIn)
  }

  /** The water `evaporateWater` boils off at a given temperature: none at or
      below 100 degrees, and half the temperature, rounded, above it. */
  function WaterEvaporated(temperature: int): (w: int)
    ensures temperature <= 100 ==> w == 0
    ensures temperature > 100 ==> w > 0 && temperature <= 2 * w <= temperature + 1
  {
    if temperature > 100 then HalfRoundedUp(temperature) else 0
  }

  // ---------------- The reactor's state and its step functions ----------------

  /** A snapshot of every field of a reactor, with its rod's percentage. */
  datatype ReactorState = ReactorState(
    temperature: int,
    pressure: int,
    waterVolume: int,
    steamVolume: int,
    health: int,
    operational: bool,
    waterPumpedIn: int,
    percentageLowered: int)

  /** A reactor with no health left is not operational. */
  predicate DeadIsDown(s: ReactorState)
  {
    s.health <= 0 ==> !s.operational
  }

  /** `updateTemperature`. */
  function TemperatureUpdated(s: ReactorState): (r: ReactorState)
  {
    s.(temperature := s.temperature + Heating(s.waterVolume, s.percentageLowered) - Cooldown(s.waterPumpedIn))
  }

  /** `checkIfDamaging`: one fixed penalty per exceeded limit; the reactor
      stops being operational once a penalty leaves it with no health. */
  function DamageChecked(s: ReactorState): (r: ReactorState)
  {
    var hits := (if s.temperature > MAX_TEMPERATURE then 1 else 0) + (if s.pressure > MAX_PRESSURE then 1 else 0);
    var health := s.health - HEALTH_CHANGE_WHEN_DAMAGING * hits;
    s.(health := health, operational := if hits > 0 && health <= 0 then false else s.operational)
  }

  /** `evaporateWater`. */
  function Evaporated(s: ReactorState): (r: ReactorState)
  {
    var w := WaterEvaporated(s.temperature);
    s.(waterVolume := s.waterVolume - w, steamVolume := s.steamVolume + w * WATER_STEAM_RATIO)
  }

  /** `updateState`: heat or cool first; the damage check and the evaporation
      both see the new temperature. */
  function Tick(s: ReactorState): (r: ReactorState)
    ensures r.pressure == s.pressure && r.percentageLowered == s.percentageLowered
    ensures r.waterPumpedIn == s.waterPumpedIn
    ensures r.steamVolume - s.steamVolume == WATER_STEAM_RATIO * (s.waterVolume - r.waterVolume)
    ensures r.health <= s.health
    ensures r.operational ==> s.operational
    ensures DeadIsDown(s) ==> DeadIsDown(r)
    ensures DeadIsDown(s) ==> (r.operational <==> s.operational && r.health > 0)
    ensures r.temperature == TemperatureUpdated(s).temperature
    ensures TemperatureUpdated(s).temperature <= 100 ==>
              r.waterVolume == s.waterVolume && r.steamVolume == s.steamVolume
    ensures TemperatureUpdated(s).temperature > 100 ==>
              r.temperature <= 2 * (s.waterVolume - r.waterVolume) <= r.temperature + 1
    ensures r.temperature <= MAX_TEMPERATURE && s.pressure <= MAX_PRESSURE ==> r.health == s.health
    ensures (r.temperature > MAX_TEMPERATURE) != (s.pressure > MAX_PRESSURE) ==>
              r.health == s.health - HEALTH_CHANGE_WHEN_DAMAGING
    ensures r.temperature > MAX_TEMPERATURE && s.pressure > MAX_PRESSURE ==>
              r.health == s.health - 2 * HEALTH_CHANGE_WHEN_DAMAGING
  {
    Evaporated(DamageChecked(TemperatureUpdated(s)))
  }

  /** The state after n calls of `updateState` with no other call between them. */
  function Ticks(s: ReactorState, n: nat): (r: ReactorState)
    ensures r.pressure == s.pressure
    ensures r.percentageLowered == s.percentageLowered && r.waterPumpedIn == s.waterPumpedIn
    ensures r.health <= s.health
    ensures r.steamVolume - s.steamVolume == WATER_STEAM_RATIO * (s.waterVolume - r.waterVolume)
    decreases n
  {
    if n == 0 then s else Tick(Ticks(s, n - 1))
  }

  /** A rod lowered anywhere short of 100 percent gives no heating at all, so
      without cooling water the temperature never moves, however long the
      reactor runs. */
  lemma {:induction false} PartialRodHoldsTemperature(s: ReactorState, n: nat)
    requires 0 <= s.percentageLowered < 100
    requires Cooldown(s.waterPumpedIn) == 0
    ensures Ticks(s, n).temperature == s.temperature
    decreases n
  {
    if n > 0 {
      PartialRodHoldsTemperature(s, n - 1);
    }
  }

  /** A reactor's pressure is never recomputed, so a reactor that starts at
      the default pressure never suffers pressure damage: it loses health
      only on ticks whose new temperature is above the maximum. */
  lemma OnlyOverheatingDamages(s: ReactorState, n: nat)
    requires s.pressure == DEFAULT_PRESSURE
    requires n > 0
    ensures var before := Ticks(s, n - 1);
            var after := Ticks(s, n);
            after.health == (if after.temperature > MAX_TEMPERATURE
                             then before.health - HEALTH_CHANGE_WHEN_DAMAGING
                             else before.health)
  {
  }

  // ---------------- The objects ----------------

  /** The reactor's control rod: how far it is lowered, always within
      [0, 100]. */
  class ControlRod {
    var percentageLowered: int

    ghost predicate Valid()
      reads this
    {
      0 <= percentageLowered <= 100
    }

    constructor ()
      ensures Valid() && percentageLowered == DEFAULT_PERCENTAGE
    {
      percentageLowered := DEFAULT_PERCENTAGE;
    }

    /** A percentage outside [0, 100] is refused and leaves the rod where it
        was; any other is stored as given. */
    method SetPercentageLowered(percentage: int) returns (outcome: Outcome<RodError>)
      requires Valid()
      modifies this
      ensures Valid()
      ensures outcome.Fail? <==> percentage < 0 || percentage > 100
      ensures outcome.Fail? ==>
                outcome.error == PercentageOutOfRange(percentage)
                && percentageLowered == old(percentageLowered)
      ensures outcome.Pass? ==> percentageLowered == percentage
    {
      if percentage < 0 || percentage > 100 {
        return Fail(PercentageOutOfRange(percentage));
      }
      percentageLowered := percentage;
      outcome := Pass;
    }
  }

  class Reactor {
    var temperature: int
    var pressure: int
    var waterVolume: int
    var steamVolume: int
    var health: int
    var operational: bool
    var waterPumpedIn: int
    const controlRod: ControlRod

    /** The rod stays in range, and a reactor without health is not
        operational. (The pressure keeps its constructor value too, since no
        method assigns it: every method's contract says so.) */
    ghost predicate Valid()
      reads this, controlRod
    {
      && controlRod.Valid()
      && health <= MAX_HEALTH
      && DeadIsDown(State())
    }

    function State(): (s: ReactorState)
      reads this, controlRod
    {
      ReactorState(temperature, pressure, waterVolume, steamVolume, health, operational,
                   waterPumpedIn, controlRod.percentageLowered)
    }

    constructor ()
      ensures Valid() && fresh(controlRod)
      ensures temperature == DEFAULT_TEMPERATURE && pressure == DEFAULT_PRESSURE
      ensures waterVolume == DEFAULT_WATER_VOLUME && steamVolume == DEFAULT_STEAM_VOLUME
      ensures health == MAX_HEALTH && operational && waterPumpedIn == 0
      ensures controlRod.percentageLowered == DEFAULT_PERCENTAGE
    {
      controlRod := new ControlRod();
      health := MAX_HEALTH;
      operational := true;
      temperature := DEFAULT_TEMPERATURE;
      pressure := DEFAULT_PRESSURE;
      waterVolume := DEFAULT_WATER_VOLUME;
      steamVolume := DEFAULT_STEAM_VOLUME;
      waterPumpedIn := 0;
    }

    /** Adds to the water and records the amount as this step's inflow,
        replacing (not adding to) the previous record. */
    method UpdateWaterVolume(amount: int)
      requires Valid()
      modifies this
      ensures Valid()
      ensures State() == old(State()).(waterVolume := old(waterVolume) + amount, waterPumpedIn := amount)
    {
      waterPumpedIn := amount;
      waterVolume := waterVolume + amount;
    }

    /** Adds to the steam and changes nothing else. */
    method UpdateSteamVolume(amount: int)
      requires Valid()
      modifies this
      ensures Valid()
      ensures State() == old(State()).(steamVolume := old(steamVolume) + amount)
    {
      steamVolume := steamVolume + amount;
    }

    method SetPercentageLowered(percentage: int) returns (outcome: Outcome<RodError>)
      requires Valid()
      modifies controlRod
      ensures Valid()
      ensures outcome.Fail? <==> percentage < 0 || percentage > 100
      ensures State() == if outcome.Fail? then old(State()) else old(State()).(percentageLowered := percentage)
    {
      outcome := controlRod.SetPercentageLowered(percentage);
    }

    method UpdateState()
      requires Valid()
      modifies this
      ensures Valid()
      ensures State() == Tick(old(State()))
    {
      UpdateTemperature();
      CheckIfDamaging();
      EvaporateWater();
    }

    method UpdateTemperature()
      requires Valid()
      modifies this
      ensures Valid()
      ensures State() == TemperatureUpdated(old(State()))
    {
      var changeInTemp := Heating(waterVolume, controlRod.percentageLowered) - Cooldown(waterPumpedIn);
      temperature := temperature + changeInTemp;
    }

    method EvaporateWater()
      requires Valid()
      modifies this
      ensures Valid()
      ensures State() == Evaporated(old(State()))
    {
      if temperature > 100 {
        var waterEvaporated := HalfRoundedUp(temperature);
        var steamCreated := waterEvaporated * WATER_STEAM_RATIO;
        waterVolume := waterVolume - waterEvaporated;
        steamVolume := steamVolume + steamCreated;
      }
    }

    method CheckIfDamaging()
      requires Valid()
      modifies this
      ensures Valid()
      ensures State() == DamageChecked(old(State()))
    {
      if temperature > MAX_TEMPERATURE {
        DamageReactor();
      }
      if pressure > MAX_PRESSURE {
        DamageReactor();
      }
    }

    /** One penalty; the reactor dies when its health reaches zero. */
    method DamageReactor()
      requires Valid()
      modifies this
      ensures Valid()
      ensures State() == old(State()).(health := old(health) - HEALTH_CHANGE_WHEN_DAMAGING,
                                       operational := old(operational) && health > 0)
    {
      health := health - HEALTH_CHANGE_WHEN_DAMAGING;
      if health <= 0 {
        operational := false;
      }
    }
  }

  /** A reactor at rest (no heat, the default water, no steam, no water
      pumped in) with its rod fully lowered: the first tick heats it to 100
      degrees without boiling anything, the second heats it to 200 and boils
      100 units of water into 200 of steam. */
  lemma FirstTwoTicks(s: ReactorState)
    requires s.temperature == 0 && s.pressure == 0 && s.waterVolume == 8000 && s.steamVolume == 0
    requires s.waterPumpedIn == 0 && s.percentageLowered == 100 && s.health == MAX_HEALTH
    ensures Tick(s) == s.(temperature := 100)
    ensures Tick(Tick(s)) == s.(temperature := 200, waterVolume := 7900, steamVolume := 200)
  {
  }

  /** The same two ticks, driven through a new reactor object. */
  method FreshReactorTwoTicks() returns (first: ReactorState, second: ReactorState)
    ensures first.temperature == 100 && first.waterVolume == 8000 && first.steamVolume == 0
    ensures second.temperature == 200 && second.waterVolume == 7900 && second.steamVolume == 200
    ensures second.health == MAX_HEALTH && second.operational
  {
    var reactor := new Reactor();
    FirstTwoTicks(reactor.State());
    reactor.UpdateState();
    first := reactor.State();
    reactor.UpdateState();
    second := reactor.State();
  }
}
