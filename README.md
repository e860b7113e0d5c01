# Plant simulator core in Dafny

A model of the per-step physics of the training simulator's nuclear plant, together with
the plant-level bookkeeping around it. It covers three source files:

- **Reactor** (`reactor.dfy` → module `Reactors`). The `Reactor` class keeps temperature,
  pressure, water and steam volumes, health, the operational flag, the water pumped in on the
  last call, and an owned `ControlRod`. The control rod refuses percentages outside [0, 100].
  `UpdateState` heats or cools first, then checks for damage, then evaporates.
- **Condenser** (`condenser.dfy` → module `Condensers`). The `Condenser` class has the same
  kind of state plus the steam that came in on the last call. `UpdateState` takes the
  upstream steam temperature as a parameter. It updates the temperature, condenses steam with
  an exact 1:2 water:steam balance, recomputes the pressure from the steam volume, and then
  checks for damage.
- **Plant** (`plant.dfy` → module `Plants`). The `Plant` class keeps:
  - the component list;
  - a failed-components list without duplicates;
  - a step counter that only grows;
  - lazily cached views of the list by kind (reactor, condenser, valves, connector pipes),
    which are never invalidated.

  Components are values of a tagged datatype: an identity plus a kind (Reactor, Condenser,
  Valve, Pipe or Other).

`Reactor` and `Condenser` each have a `State()` function that returns a plain snapshot
datatype. Every method of theirs that changes state gives the whole new state in terms of
`old(State())`. It does so through a step function of its module (`Tick`, `TemperatureUpdated`,
`Condensed`, …) or through a record update of `old(State())`.
The properties are proved about those step functions. `ControlRod` has a single field, and its
setter states the new value of that field directly. `Plant` has no snapshot. Each of its
methods names in `modifies` only the fields it changes and states their new values. The
non-trivial ones use a module function (`WithFailed`, `StepsAfter`, `FirstOfKind`,
`OfKind`), and the properties are proved about those functions.

`java_numerics.dfy` holds the source's integer arithmetic: Java's truncating `/` and the
fixed floating-point multipliers written as exact rationals. `wrappers.dfy` holds `Option`
(for Java's `null`) and `Outcome` (for a thrown exception).

Behaviour the model makes explicit, following the code:

- **Heating is all-or-nothing.** `percentageToDecimal` divides two ints (Reactor.java:155),
  so the rod heats the core by 0 at any setting below 100 percent. At 100 percent it heats
  by 100, or by 200 when the water is at or below the safe minimum. `Heating` states this.
  `PartialRodHoldsTemperature` proves that with no cooling water the temperature then never
  moves.
- **Reactor pressure never changes.** No method assigns the reactor's pressure after the
  constructor. Every method's contract keeps it, `Ticks` carries it across any number of
  steps, and so the pressure-damage branch never fires from a fresh reactor
  (`OnlyOverheatingDamages`).
- **The condenser takes on the full temperature difference.** The heating factor is
  `1 − (steamVolume − steamIn) / steamVolume` in int arithmetic (Condenser.java:132). The
  quotient truncates to 0 whenever 0 < steamIn < 2·steamVolume, so the condenser then takes on
  the steam's whole temperature difference (`Condensers.Heating`).
- **A larger or stale inflow multiplies the condenser's heating.** When the recorded inflow
  exceeds the steam held, the difference is multiplied by the whole quotient of the two. The
  inflow can exceed the steam held after an overshoot to −1 steam, or when the inflow is stale.
  A negative inflow multiplies it by minus that quotient.
  - A step never resets the recorded inflow, so a driver that skips `updateSteamVolume` keeps
    heating with the last inflow.
  - `StaleInflowOverheats` follows three such steps with steam at 1990 degrees. The condensed
    steam shrinks until the third step triples the heating, so the condenser ends at 2190
    degrees, hotter than its steam, and is damaged.
- **Condensation can overshoot.** It rounds the water up, so an odd amount of steam
  overshoots by one and the steam volume can reach −1 (`Condensed`).
- **The condenser damage limits use `>=`.** The reactor's use `>`.
- **Condenser cooling stops at the coolant temperature.** A step cools by 200 degrees, but
  never below the coolant's 20 degrees: the temperature becomes max(t − 200, 20).

## Model

| member | source | states |
|---|---|---|
| `JavaNumerics.TruncDiv` | simulator/Condenser.java:132 | Java `/` for a positive divisor: the remainder has the dividend's sign and is smaller than the divisor; the quotient is 0 when the dividend is smaller in magnitude than the divisor |
| `JavaNumerics.HalfRoundedUp` | simulator/Reactor.java:168 | `Math.round(x*0.5)`, and the same value as `Math.ceil(x*0.5)` at Condenser.java:166: `x <= 2r <= x+1` |
| `JavaNumerics.RoundTenth` | simulator/Reactor.java:124 | `Math.round(x*0.1)`: the integer nearest to x/10, ties up |
| `JavaNumerics.CeilFourFifths` | simulator/Condenser.java:160 | `Math.ceil(x*0.8)`: the least integer r with `4x <= 5r` |
| `JavaNumerics.RoundThreeTwentieths` | simulator/Condenser.java:116 | `Math.round(x*0.15)`: the integer nearest to 3x/20, ties up |
| `Reactors.PercentageToDecimal` | simulator/Reactor.java:154-156 | the "decimal" is 0 exactly for percentages strictly between −100 and 100; within [0, 100] it is 1 exactly at 100 |
| `Reactors.Heating` | simulator/Reactor.java:138-145 | 0 for any rod setting below 100 percent; at 100 percent, 100 if the water is above 2000, else 200 |
| `Reactors.Cooldown` | simulator/Reactor.java:123-125 | a tenth of the water pumped in, to the nearest degree; never negative for a non-negative inflow |
| `Reactors.WaterEvaporated` | simulator/Reactor.java:162-174 | nothing at or below 100 degrees; above it, a positive amount w with `t <= 2w <= t+1` (half the temperature, rounded) |
| `Reactors.Tick` | simulator/Reactor.java:104-108 | one `updateState`: the temperature changes by heating minus cooldown first. Evaporation at the new temperature gives steam gained = 2 × water lost, and nothing boils at or below 100. Damage at the new temperature takes 10 per limit exceeded (20 for both) and never raises health. The operational flag only goes from true to false. From a state where "no health ⇒ not operational" holds, it stays set exactly when it was set and health is still positive, so only terminal damage takes the reactor offline. Pressure, rod and recorded inflow are unchanged |
| `Reactors.Ticks` | simulator/Reactor.java:104-108 | over any number of steps: the pressure, rod percentage and recorded inflow never change (so the cooldown of the last pump-in keeps applying); health never rises; steam gained = 2 × water lost |
| `Reactors.PartialRodHoldsTemperature` | simulator/Reactor.java:138-156 | with the rod below 100 percent and no cooling, the temperature after any number of steps equals the starting temperature |
| `Reactors.OnlyOverheatingDamages` | simulator/Reactor.java:176-183 | from the default pressure, a step costs health exactly when its new temperature exceeds 2865, and then exactly 10 |
| `Reactors.FirstTwoTicks` | simulator/Reactor.java:104-114 | a rod fully lowered, 8000 water and no inflow: step 1 gives 100 degrees and nothing boils; step 2 gives 200 degrees, 7900 water and 200 steam |
| `Reactors.FreshReactorTwoTicks` | simulator/Reactor.java:28-36 | the same two steps through a newly constructed reactor object, with health still full and the reactor operational |
| `Reactors.ControlRod.constructor` | simulator/Reactor.java:192-198 | a new rod is lowered 100 percent and in range |
| `Reactors.ControlRod.SetPercentageLowered` | simulator/Reactor.java:204-210 | fails exactly when the percentage is below 0 or above 100, and then leaves the rod unchanged; otherwise it stores exactly the percentage |
| `Reactors.Reactor.constructor` | simulator/Reactor.java:28-36 | temperature 0, pressure 0, water 8000, steam 0, health 100, operational, no inflow, rod at 100 |
| `Reactors.Reactor.SetPercentageLowered` | simulator/Reactor.java:98-100 | delegates to the rod: fails exactly outside [0, 100] and then changes nothing; otherwise only the rod percentage changes |
| `Reactors.Reactor.UpdateWaterVolume` | simulator/Reactor.java:67-70 | water increases by the amount; the recorded inflow is overwritten with it; nothing else changes |
| `Reactors.Reactor.UpdateSteamVolume` | simulator/Reactor.java:85-88 | only the steam volume changes, by the amount |
| `Reactors.Reactor.UpdateState` | simulator/Reactor.java:104-108 | the new state is `Tick` of the old, and the invariant (rod in range, health at most 100, no health ⇒ not operational) is kept |
| `Reactors.Reactor.UpdateTemperature` | simulator/Reactor.java:110-114 | only the temperature changes, by heating at the current rod and water minus cooldown of the recorded inflow |
| `Reactors.Reactor.EvaporateWater` | simulator/Reactor.java:162-174 | the state becomes `Evaporated` of the old: water down by `WaterEvaporated`, steam up by twice that |
| `Reactors.Reactor.CheckIfDamaging` | simulator/Reactor.java:176-183 | one penalty per limit exceeded, applied in sequence, equals the closed form `DamageChecked` |
| `Reactors.Reactor.DamageReactor` | simulator/Reactor.java:185-190 | health down by 10; operational afterwards exactly when it was before and health is still positive |
| `Condensers.Heating` | simulator/Condenser.java:128-133 | 0 when there is no steam (volume < 1) or no inflow. With steam held and a positive inflow, the temperature difference times max(1, steamIn / steamVolume), so exactly the difference when 0 < steamIn < 2·steamVolume. With a negative inflow, minus the difference times (−steamIn) / steamVolume |
| `Condensers.HeatingFactor` | simulator/Condenser.java:132 | the truncating factor `1 − (steamVolume − steamIn) / steamVolume` is max(1, steamIn / steamVolume) for a positive inflow, and −((−steamIn) / steamVolume) for a negative one |
| `Condensers.Cooldown` | simulator/Condenser.java:143-150 | temperature − cooldown = max(temperature − 200, 20): the fixed cooling never goes past the coolant's 20 degrees, and the cooldown is never more than 200 |
| `Condensers.SteamToCondense` | simulator/Condenser.java:159-165 | at most the steam held; at or above 2000 degrees nothing (or the negative steam volume itself); below 2000 the smaller of the steam held and ⌈0.8 × (2000 − temperature)⌉ |
| `Condensers.PressureOf` | simulator/Condenser.java:114-118 | 0.15 × steam volume to the nearest unit; non-negative for non-negative steam |
| `Condensers.Condensed` | simulator/Condenser.java:156-174 | only the volumes change. Steam lost = 2 × water gained, and equals the capped amount rounded up to even. From steam ≥ 0 the steam ends between −1 and its old value. At or above 2000 degrees with steam ≥ 0 nothing changes |
| `Condensers.Tick` | simulator/Condenser.java:90-95 | one `updateState`: steam lost = 2 × water gained, and the pressure is that of the final steam volume, not accumulated. Damage sees this step's temperature and pressure: 10 per limit reached (`>=`), 20 for both, never raising health. Without heating, the temperature becomes max(t − 200, 20). The operational flag and recorded inflow are unchanged |
| `Condensers.PressureUpdateIdempotent` | simulator/Condenser.java:114-118 | recomputing the pressure twice equals recomputing it once, and the result does not depend on the old pressure |
| `Condensers.StaleInflowOverheats` | simulator/Condenser.java:90-95 | with 300 units recorded as inflow and never renewed, three steps with steam at 1990 degrees take the condenser from 50 degrees to 1960, then 1790, then 2190, and cost it 10 health |
| `Condensers.SteamArrival` | simulator/Condenser.java:90-95 | 50 degrees, 2000 water, 100 steam just arrived at 100 degrees: one step gives 70 degrees, 0 steam, 2050 water, pressure 0 |
| `Condensers.SteamArrivesAtFreshCondenser` | simulator/Condenser.java:26-33 | a new condenser object given 100 steam at 100 degrees ends at 70 degrees, 0 steam, 2050 water, pressure 0, full health |
| `Condensers.Condenser.constructor` | simulator/Condenser.java:26-33 | temperature 50, pressure 0, health 100, water 2000, steam 0, no inflow, operational |
| `Condensers.Condenser.UpdateWaterVolume` | simulator/Condenser.java:62-64 | only the water volume changes, by the amount |
| `Condensers.Condenser.UpdateSteamVolume` | simulator/Condenser.java:80-84 | steam increases by the amount; the recorded inflow is overwritten with it; nothing else changes |
| `Condensers.Condenser.CheckFailure` | simulator/Condenser.java:97-103 | true exactly when health ≤ 0 |
| `Condensers.Condenser.UpdateState` | simulator/Condenser.java:90-95 | the new state is `Tick` of the old for the given upstream steam temperature |
| `Condensers.Condenser.UpdateTemperature` | simulator/Condenser.java:105-112 | only the temperature changes, by heating minus cooldown |
| `Condensers.Condenser.UpdatePressure` | simulator/Condenser.java:114-118 | only the pressure changes, to `PressureOf` the current steam volume |
| `Condensers.Condenser.CondenseSteam` | simulator/Condenser.java:156-174 | the step-by-step local computation equals `Condensed` |
| `Condensers.Condenser.CheckIfDamaging` | simulator/Condenser.java:176-183 | one penalty per limit reached, in sequence, equals `DamageChecked`; the operational flag is untouched |
| `Condensers.Condenser.DamageCondenser` | simulator/Condenser.java:185-187 | health down by 10, nothing else changes |
| `Plants.OfKind` | simulator/Plant.java:86-88 | a component is selected exactly when it is in the list and of the kind; the result is no longer than the list |
| `Plants.OfKindConcat` | simulator/Plant.java:86-88 | selecting from a concatenation is the concatenation of the selections, so list order is kept |
| `Plants.FirstOfKind` | simulator/Plant.java:71-77 | none exactly when no component has the kind; otherwise a component of the kind at some index with no component of the kind before it |
| `Plants.WithFailed` | simulator/Plant.java:162-166 | the component is present afterwards. The old entries stay in order as a prefix. Nothing changes if it was already present. Membership is old ∪ {c}, and "no duplicates" is preserved |
| `Plants.AddFailedIdempotent` | simulator/Plant.java:162-166 | adding the same component twice gives the same list as adding it once |
| `Plants.StepsAfter` | simulator/Plant.java:136-138 | after any series of updates the counter is at least where it started; non-positive amounts leave it alone; with non-negative amounts it grows by their sum |
| `Plants.StaleViews` | simulator/Plant.java:148-150 | a reactor asked for before any exists is not cached. The empty valve list is cached. After the list is replaced, the plant still returns the first reactor and no valves, although the list now holds another reactor and a valve |
| `Plants.Plant.constructor` | simulator/Plant.java:27-36 | step count 0, score 0, not paused, empty component, failed and repair lists, no cached views |
| `Plants.Plant.FindFirst` | simulator/Plant.java:71-77 | the loop returns `FirstOfKind` of the component list |
| `Plants.Plant.CollectAll` | simulator/Plant.java:86-88 | the loop returns `OfKind` of the component list |
| `Plants.Plant.GetReactor` | simulator/Plant.java:67-79 | a cached reactor is returned unchanged. Otherwise it returns the first reactor in list order and caches it. None found caches nothing |
| `Plants.Plant.GetCondenser` | simulator/Plant.java:108-121 | the same as `GetReactor`, for the condenser |
| `Plants.Plant.GetValves` | simulator/Plant.java:81-92 | a cached list is returned unchanged. Otherwise it returns every valve in list order and caches the result, even when it is empty |
| `Plants.Plant.GetConnectorPipes` | simulator/Plant.java:94-106 | the same as `GetValves`, for connector pipes |
| `Plants.Plant.SetPlantComponents` | simulator/Plant.java:148-150 | the list is replaced; no cached view changes (the frame allows only the list) |
| `Plants.Plant.UpdateTimeStepsUsed` | simulator/Plant.java:136-138 | adds n when n > 0, otherwise nothing (`StepsAfter` of one call); the counter never decreases |
| `Plants.Plant.AddFailedComponent` | simulator/Plant.java:162-166 | the failed list becomes `WithFailed` of the old one, keeping "no duplicates" |

## Left out

- PlantComponent, Flow, Valve, ConnectorPipe, Repair and HighScore are not part of this model.
  - The operational flag is a plain field of each class.
  - The reactor's and condenser's `super(0,0,true,true)` is modelled only as "operational".
  - Random failure and the pressurised flag are not modelled.
  - `Repair` keeps only the repaired component.
- The condenser's `getInput().getFlowOut().getTemperature()` is a parameter of `UpdateState` and `UpdateTemperature`.
- Floating-point multipliers are modelled as exact rationals.
  - This is exact for 0.5 and for `Math.ceil` of x·0.8.
  - `Cooldown` and `PressureOf` agree with the doubles except possibly at exact ties: 0.1 and 0.15 are not exact binary fractions. No property depends on a tie.
  - `percentageToDecimal` returns a double, but its value is always an integer, so it is modelled as an `int`.
- Java `int` overflow, and the `long`-to-`int` casts after `Math.round`, are not modelled: all arithmetic is on unbounded integers.
- The rule that the volume updaters are called at most once per step is not enforced, just as in the source. A second call overwrites the recorded inflow, and the model states that.
- Trivial accessors are not modelled, because they only read or write a field:
  - the component getters (temperature, pressure, volumes, health, rod percentage, maxima);
  - `getOperatorName`/`setOperatorName`, `getScore`/`setScore`, `isPaused`/`setPaused`;
  - `getHighScores`/`setHighScores`, `getMaxSteamFlowRate`.
- The plant's lists are values (`seq`), not shared mutable `ArrayList`s, so aliasing is not modelled.
  - In the source these all hand out the plant's own list: `getPlantComponents`, `getFailedComponents` and `getBeingRepaired` (Plant.java:140-154), and the cached views from `getValves` and `getConnectorPipes`.
  - `setPlantComponents` stores the caller's own list.
  - So in Java a caller can change a list in place without going through the plant: it can append a duplicate failed component, or add to the component list or a cached view.
  - `Plants.Plant.Valid`'s no-duplicates and per-kind cache conditions therefore hold only when no caller writes through a list it was given or passed in.
  - `setPlantComponents(null)`, and the NullPointerException the next uncached getter then throws, are also not modelled.
- The `highScores` field is not a field of `Plant` here: nothing in the model reads it.
- The game loop that calls the components in flow order, and registers failed components, is not part of this model.
