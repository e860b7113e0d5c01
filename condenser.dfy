/** The condenser of the simulated plant (simulator/Condenser.java): steam
    arriving from upstream heats it, coolant cools it by a fixed amount, part
    of its steam condenses back into water, its pressure follows its steam
    volume, and over-temperature or over-pressure wears down its health. */
module Condensers {
  import opened JavaNumerics

  const DEFAULT_TEMPERATURE := 50
  const DEFAULT_PRESSURE := 0
  const DEFAULT_WATER_VOLUME := 2000
  const DEFAULT_STEAM_VOLUME := 0

  const MAX_TEMPERATURE := 2000
  const MAX_PRESSURE := 2000
  const MAX_HEALTH := 100
  const HEALTH_CHANGE_WHEN_DAMAGING := 10
  /** The temperature of the coolant coming in. */
  const COOLANT_TEMP := 20
  const COOLDOWN_PER_STEP := 200
  const WATER_STEAM_RATIO := 2

  // ---------------- Per-step quantities ----------------

  /** `heating`: the temperature rise caused by the steam that came in this
      step. The fraction of fresh steam is a truncating integer quotient, so
      the temperature difference is multiplied by a whole number: 1 whenever
      some steam came in and the inflow is less than twice the steam held,
      the whole quotient inflow / steam held when the inflow is larger (a
      stale inflow, or steam held after an overshoot), and minus the quotient
      for a negative inflow. */
  function Heating(steamTemperature: int, temperature: int, steamVolume: int, steamIn: int): (h: int)
    ensures steamVolume < 1 || steamIn == 0 ==> h == 0
    ensures steamVolume >= 1 && 0 < steamIn < 2 * steamVolume ==> h == steamTemperature - temperature
    ensures steamVolume >= 1 && steamIn > 0 ==>
              h == (steamTemperature - temperature) * Max(1, steamIn / steamVolume)
    ensures steamVolume >= 1 && steamIn < 0 ==>
              h == -(steamTemperature - temperature) * ((-steamIn) / steamVolume)
  {
    var tempDiff := steamTemperature - temperature;
    if steamVolume < 1 then 0
    else if steamIn == 0 then 0
    else
      HeatingFactor(steamVolume, steamIn);
      tempDiff * (1 - TruncDiv(steamVolume - steamIn, steamVolume))
  }

  /** The factor `1 - (steamVolume - steamIn) / steamVolume` of `heating`, in
      Java's truncating division, as a whole multiple of the inflow. */
  lemma HeatingFactor(steamVolume: int, steamIn: int)
    requires steamVolume >= 1 && steamIn != 0
    ensures steamIn > 0 ==> 1 - TruncDiv(steamVolume - steamIn, steamVolume) == Max(1, steamIn / steamVolume)
    ensures steamIn < 0 ==> 1 - TruncDiv(steamVolume - steamIn, steamVolume) == -((-steamIn) / steamVolume)
  {
    var v, i := steamVolume, steamIn;
    if i > v {
      // A negative dividend: Java's quotient is minus that of i - v.
      assert TruncDiv(v - i, v) == -((i - v) / v);
      DivAddDivisor(i - v, v);
    } else if i > 0 {
      // 0 <= v - i < v, so the quotient is 0, and i / v is 0 or 1.
      DivUnique(i, v, if i == v then 1 else 0);
    } else {
      // A dividend above v: one more than (-i) / v.
      assert TruncDiv(v - i, v) == (-i + v) / v;
      DivAddDivisor(-i, v);
    }
  }

  /** The larger of two temperatures: the reference the cooldown is stated
      against. */
  function Max(a: int, b: int): (m: int)
    ensures m >= a && m >= b
    ensures m == a || m == b
  {
    if a >= b then a else b
  }

  /** `cooldown`: a fixed amount per step, but never past the coolant's
      temperature. */
  function Cooldown(temperature: int): (c: int)
    ensures temperature - c == Max(temperature - COOLDOWN_PER_STEP, COOLANT_TEMP)
    ensures c <= COOLDOWN_PER_STEP
  {
    var potentialNewTemp := temperature - COOLDOWN_PER_STEP;
    if potentialNewTemp > COOLANT_TEMP then COOLDOWN_PER_STEP else temperature - COOLANT_TEMP
  }

  /** The steam `condenseSteam` sets out to condense, before it is rounded to
      whole water: 0.8 of the margin below the maximum temperature, rounded
      up, but never more than the steam held. */
  function SteamToCondense(temperature: int, steamVolume: int): (c: int)
    ensures c <= steamVolume
    ensures temperature >= MAX_TEMPERATURE ==> c == (if steamVolume < 0 then steamVolume else 0)
    ensures temperature < MAX_TEMPERATURE ==> 5 * c - 5 < 4 * (MAX_TEMPERATURE - temperature)
    ensures temperature < MAX_TEMPERATURE ==> c == steamVolume || 4 * (MAX_TEMPERATURE - temperature) <= 5 * c
  {
    var wanted := if temperature < MAX_TEMPERATURE then CeilFourFifths(MAX_TEMPERATURE - temperature) else 0;
    if wanted > steamVolume then steamVolume else wanted
  }

  /** `updatePressure`: 0.15 of the steam volume, to the nearest unit. */
  function PressureOf(steamVolume: int): (p: int)
    ensures 20 * p - 10 <= 3 * steamVolume < 20 * p + 10
    ensures steamVolume >= 0 ==> p >= 0
  {
    RoundThreeTwentieths(steamVolume)
  }

  // ---------------- The condenser's state and its step functions ----------------

  /** A snapshot of every field of a condenser. */
  datatype CondenserState = CondenserState(
    temperature: int,
    pressure: int,
    health: int,
    waterVolume: int,
    steamVolume: int,
    steamIn: int,
    operational: bool)

  /** `updateTemperature`, given the temperature of the inbound steam flow. */
  function TemperatureUpdated(s: CondenserState, steamTemperature: int): (r: CondenserState)
  {
    var change := Heating(steamTemperature, s.temperature, s.steamVolume, s.steamIn) - Cooldown(s.temperature);
    s.(temperature := s.temperature + change)
  }

  /** `condenseSteam`: the water created is half the steam to condense,
      rounded up, and the steam removed is recomputed from it, so that steam
      lost is exactly twice the water gained. The rounding can take one unit
      more steam than is held. */
  function Condensed(s: CondenserState): (r: CondenserState)
    ensures r == s.(steamVolume := r.steamVolume, waterVolume := r.waterVolume)
    ensures s.steamVolume - r.steamVolume == WATER_STEAM_RATIO * (r.waterVolume - s.waterVolume)
    ensures s.steamVolume - r.steamVolume == SteamToCondense(s.temperature, s.steamVolume) + SteamToCondense(s.temperature, s.steamVolume) % 2
    ensures s.steamVolume >= 0 ==> -1 <= r.steamVolume <= s.steamVolume
    ensures s.steamVolume >= 0 && s.temperature >= MAX_TEMPERATURE ==> r == s
  {
    var waterCreated := HalfRoundedUp(SteamToCondense(s.temperature, s.steamVolume));
    s.(steamVolume := s.steamVolume - waterCreated * WATER_STEAM_RATIO, waterVolume := s.waterVolume + waterCreated)
  }

  /** `updatePressure`: the pressure is overwritten from the steam volume
      alone. */
  function PressureUpdated(s: CondenserState): (r: CondenserState)
  {
    s.(pressure := PressureOf(s.steamVolume))
  }

  /** `checkIfDamaging`: one fixed penalty per limit reached (note: reached,
      not exceeded); a condenser's operational flag is never touched. */
  function DamageChecked(s: CondenserState): (r: CondenserState)
  {
    var hits := (if s.temperature >= MAX_TEMPERATURE then 1 else 0) + (if s.pressure >= MAX_PRESSURE then 1 else 0);
    s.(health := s.health - HEALTH_CHANGE_WHEN_DAMAGING * hits)
  }

  /** `updateState`: temperature, then condensation, then pressure, then the
      damage check, which sees this step's pressure. */
  function Tick(s: CondenserState, steamTemperature: int): (r: CondenserState)
    ensures r.operational == s.operational && r.steamIn == s.steamIn
    ensures s.steamVolume - r.steamVolume == WATER_STEAM_RATIO * (r.waterVolume - s.waterVolume)
    ensures r.pressure == PressureOf(r.steamVolume)
    ensures r.health <= s.health
    ensures r.temperature == TemperatureUpdated(s, steamTemperature).temperature
    ensures Heating(steamTemperature, s.temperature, s.steamVolume, s.steamIn) == 0 ==>
              r.temperature == Max(s.temperature - COOLDOWN_PER_STEP, COOLANT_TEMP)
    ensures r.temperature < MAX_TEMPERATURE && r.pressure < MAX_PRESSURE ==> r.health == s.health
    ensures (r.temperature >= MAX_TEMPERATURE) != (r.pressure >= MAX_PRESSURE) ==>
              r.health == s.health - HEALTH_CHANGE_WHEN_DAMAGING
    ensures r.temperature >= MAX_TEMPERATURE && r.pressure >= MAX_PRESSURE ==>
              r.health == s.health - 2 * HEALTH_CHANGE_WHEN_DAMAGING
  {
    DamageChecked(PressureUpdated(Condensed(TemperatureUpdated(s, steamTemperature))))
  }

  /** Recomputing the pressure a second time changes nothing, and what it
      computes does not depend on the pressure it replaces. */
  lemma PressureUpdateIdempotent(s: CondenserState, stale: int)
    ensures PressureUpdated(PressureUpdated(s)) == PressureUpdated(s)
    ensures PressureUpdated(s.(pressure := stale)) == PressureUpdated(s)
  {
  }

  // ---------------- The object ----------------

  class Condenser {
    var temperature: int
    var pressure: int
    var health: int
    var waterVolume: int
    var steamVolume: int
    var steamIn: int
    var operational: bool

    function State(): (s: CondenserState)
      reads this
    {
      CondenserState(temperature, pressure, health, waterVolume, steamVolume, steamIn, operational)
    }

    constructor ()
      ensures temperature == DEFAULT_TEMPERATURE && pressure == DEFAULT_PRESSURE && health == MAX_HEALTH
      ensures waterVolume == DEFAULT_WATER_VOLUME && steamVolume == DEFAULT_STEAM_VOLUME
      ensures steamIn == 0 && operational
    {
      health := MAX_HEALTH;
      operational := true;
      temperature := DEFAULT_TEMPERATURE;
      pressure := DEFAULT_PRESSURE;
      waterVolume := DEFAULT_WATER_VOLUME;
      steamVolume := DEFAULT_STEAM_VOLUME;
      steamIn := 0;
    }

    /** Adds to the water and changes nothing else. */
    method UpdateWaterVolume(amount: int)
      modifies this
      ensures State() == old(State()).(waterVolume := old(waterVolume) + amount)
    {
      waterVolume := waterVolume + amount;
    }

    /** Adds to the steam and records the amount as this step's inflow,
        replacing (not adding to) the previous record. */
    method UpdateSteamVolume(amount: int)
      modifies this
      ensures State() == old(State()).(steamVolume := old(steamVolume) + amount, steamIn := amount)
    {
      steamIn := amount;
      steamVolume := steamVolume + amount;
    }

    /** Health exhausted means failed; a condenser never fails at random. */
    method CheckFailure() returns (failed: bool)
      ensures failed <==> health <= 0
    {
      if health <= 0 {
        return true;
      } else {
        return false;
      }
    }

    /** One step, with the temperature of the steam flowing in from upstream. */
    method UpdateState(steamTemperature: int)
      modifies this
      ensures State() == Tick(old(State()), steamTemperature)
    {
      UpdateTemperature(steamTemperature);
      CondenseSteam();
      UpdatePressure();
      CheckIfDamaging();
    }

    method UpdateTemperature(steamTemperature: int)
      modifies this
      ensures State() == TemperatureUpdated(old(State()), steamTemperature)
    {
      var changeInTemp := Heating(steamTemperature, temperature, steamVolume, steamIn) - Cooldown(temperature);
      temperature := temperature + changeInTemp;
    }

    method UpdatePressure()
      modifies this
      ensures State() == PressureUpdated(old(State()))
    {
      pressure := RoundThreeTwentieths(steamVolume);
    }

    method CondenseSteam()
      modifies this
      ensures State() == Condensed(old(State()))
    {
      var steamCondensed;
      if temperature < MAX_TEMPERATURE {
        steamCondensed := CeilFourFifths(MAX_TEMPERATURE - temperature);
      } else {
        steamCondensed := 0;
      }
      if steamCondensed > steamVolume {
        steamCondensed := steamVolume;
      }
      var waterCreated := HalfRoundedUp(steamCondensed);
      // Recomputed from the rounded water so that no water is lost or made.
      steamCondensed := waterCreated * WATER_STEAM_RATIO;
      steamVolume := steamVolume - steamCondensed;
      waterVolume := waterVolume + waterCreated;
    }

    method CheckIfDamaging()
      modifies this
      ensures State() == DamageChecked(old(State()))
    {
      if temperature >= MAX_TEMPERATURE {
        DamageCondenser();
      }
      if pressure >= MAX_PRESSURE {
        DamageCondenser();
      }
    }

    method DamageCondenser()
      modifies this
      ensures State() == old(State()).(health := old(health) - HEALTH_CHANGE_WHEN_DAMAGING)
    {
      health := health - HEALTH_CHANGE_WHEN_DAMAGING;
    }
  }

  /** A condenser at 50 degrees holding 2000 units of water, into which 100
      units of steam at 100 degrees have just come (and no other steam): the
      steam heats it by 50 and the coolant cools it by 30, to 70 degrees; all
      100 units condense into 50 of water; the pressure is 0 and nothing is
      damaged. */
  lemma SteamArrival(s: CondenserState)
    requires s.temperature == 50 && s.waterVolume == 2000 && s.steamVolume == 100 && s.steamIn == 100
    ensures Tick(s, 100) == s.(temperature := 70, waterVolume := 2050, steamVolume := 0, pressure := 0)
  {
  }

  /** `steamIn` is never reset by a step, so a driver that skips
      `updateSteamVolume` leaves the last inflow in force. Steam at 1990
      degrees, with 300 units recorded as the inflow: the first step takes
      the condenser to 1960 degrees and the second to 1790. The steam held
      has meanwhile condensed to 100 units, so the third step heats by three
      times the temperature difference, to 2190 degrees: hotter than the steam
      feeding it, and damaged. */
  lemma StaleInflowOverheats(s: CondenserState)
    requires s.temperature == 50 && s.steamVolume == 300 && s.steamIn == 300
    requires s.waterVolume == 2000 && s.health == MAX_HEALTH
    ensures Tick(s, 1990).temperature == 1960
    ensures Tick(Tick(s, 1990), 1990).temperature == 1790
    ensures Tick(Tick(Tick(s, 1990), 1990), 1990).temperature == 2190
    ensures Tick(Tick(Tick(s, 1990), 1990), 1990).health == MAX_HEALTH - HEALTH_CHANGE_WHEN_DAMAGING
  {
    StaleInflowStep1(s);
    var s1 := Tick(s, 1990);
    StaleInflowStep2(s1);
    StaleInflowStep3(Tick(s1, 1990));
  }

  /** The first step of `StaleInflowOverheats`: the inflow equals the steam
      held, so the heating is the plain temperature difference. */
  lemma StaleInflowStep1(s: CondenserState)
    requires s.temperature == 50 && s.steamVolume == 300 && s.steamIn == 300 && s.waterVolume == 2000
    ensures Tick(s, 1990) == s.(temperature := 1960, steamVolume := 268, waterVolume := 2016, pressure := 40)
  {
    assert Heating(1990, 50, 300, 300) == 1940;
  }

  /** The second step: the inflow is now more than the steam held but less
      than twice it, so the heating is still the plain difference. */
  lemma StaleInflowStep2(s: CondenserState)
    requires s.temperature == 1960 && s.steamVolume == 268 && s.steamIn == 300 && s.waterVolume == 2016
    ensures Tick(s, 1990) == s.(temperature := 1790, steamVolume := 100, waterVolume := 2100, pressure := 15)
  {
    assert Heating(1990, 1960, 268, 300) == 30;
  }

  /** The third step: the inflow is three times the steam held, which triples
      the heating; at 2190 degrees nothing condenses and the limit is reached. */
  lemma StaleInflowStep3(s: CondenserState)
    requires s.temperature == 1790 && s.steamVolume == 100 && s.steamIn == 300
    ensures Tick(s, 1990).temperature == 2190
    ensures Tick(s, 1990).health == s.health - HEALTH_CHANGE_WHEN_DAMAGING
  {
    assert Heating(1990, 1790, 100, 300) == 600;
  }

  /** The same step, driven through a new condenser object. */
  method SteamArrivesAtFreshCondenser() returns (s: CondenserState)
    ensures s.temperature == 70 && s.steamVolume == 0 && s.waterVolume == 2050
    ensures s.pressure == 0 && s.health == MAX_HEALTH && s.steamIn == 100
  {
    var condenser := new Condenser();
    condenser.UpdateSteamVolume(100);
    SteamArrival(condenser.State());
    condenser.UpdateState(100);
    s := condenser.State();
  }
}
