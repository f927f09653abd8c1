# MonsterWars Idle: the session state machine

A Dafny model of the game session in `docs/main.js`. The session is one state
object with these parts:

- the player's resources: cash, heat, capture kits, stamina and its cap;
- the collection of owned monsters;
- a team of at most three;
- at most one running mission.

The state changes through two timer ticks and a handful of player actions. The
model makes it the class `Game.Session`, with one method per operation. The
pure parts are functions in their own modules:

- `Catalog`: the monster and mission tables and the lookups over them;
- `Power`: team power;
- `Rules`: mission duration, success odds, capture chance, mission progress and
  the outcome of resolving a mission;
- `Roster`: slot removal;
- `EventLog`: the bounded feed of outcomes.

The constructor establishes the session invariant `Valid()`, and every other
method except `LogEvent` starts from it and restores it. `LogEvent` is an internal
helper that only touches the feed; it states instead that the new feed is `Logged`
of the old one, which keeps the feed within 60 entries. The `ensures` give the
whole new state in terms of the old state and these functions.
The invariant says:

- heat ≥ 0, captureKits ≥ 0 and 0 ≤ stamina ≤ staminaMax;
- the team has at most 3 members;
- the feed has at most 60 entries;
- every owned monster comes from the monster table;
- every team member is owned;
- a running mission comes from the mission table, and its duration is NaN or at
  least 5000 ms.

`activeMission` is an `Option`, so at most one mission can run.

Modelling choices:

- `Math.random()` becomes a roll parameter, and `Date.now()` becomes a `now`
  parameter in milliseconds. The `setInterval` timers become explicit calls to
  `RegenTick` and `TickActiveMission`.
- JavaScript numbers are `real` for cash, stats, odds and durations, and `int`
  for heat, kits and stamina.
- A key missing from a YAML definition is `None`. The defaults the code applies
  (`?? 0`, destructuring defaults, `|| 1`) are written out.
- A mission without `recommended_power` gets the duration `None`, which stands
  for NaN. In `docs/main.js:133` that duration is NaN, so the progress at
  `docs/main.js:175` never reaches 1. Such a mission therefore never resolves,
  and `Progress` and `TickActiveMission` say so.
- `gear_components` grants a kit only when it is truthy: present and not 0.
- Log entries are structured `Message` values, newest first, not rendered text.

Constants and checks as `docs/main.js` has them:

- a mission lasts `5000 + max(0, rp − power) * 10` ms (docs/main.js:133);
- after a successful mission, a recruit is tried when the second roll is below 0.4 (docs/main.js:156);
- the capture chance is `min(0.9, (0.3 + loyalty/120) * max(0.1, 1 − heat*0.02))` (docs/main.js:192-194);
- team power weighs hp, attack, special, defense, speed and grit by 0.25, 0.8, 0.7, 0.4, 0.6 and 1.2 (docs/main.js:59);
- the feed keeps the 60 most recent entries (docs/main.js:51);
- starting a mission does not check for an empty team (docs/main.js:119-129);
- a capture with an unknown id returns before a kit is spent (docs/main.js:185-186);
- `addToTeam` does not check whether the monster is already on the team (docs/main.js:208-217).

## Model

| member | source | states |
|---|---|---|
| `Catalog.Find` | docs/main.js:155-158 | `find` returns an element of the list that satisfies the predicate, and the first such one; it returns nothing exactly when no element does |
| `Catalog.MonsterById` | docs/main.js:185-186 | a found monster is the first table entry with the requested id; none is found exactly when no entry has that id |
| `Catalog.MissionById` | docs/main.js:120-121 | a found mission is the first table entry with the selected id; none is found exactly when no entry has that id |
| `Catalog.FirstMonsterEncounter` | docs/main.js:155 | the encounter found is the first of the mission's encounters with type "monster"; none is found exactly when the list is missing or has no such entry |
| `Catalog.LeadEnemy` | docs/main.js:157 | `enemy_team?.[0]` exists exactly when the list is present and non-empty, and is then its first id |
| `Catalog.CashReward` | docs/main.js:149 | the listed cash reward, and 0 when the bundle or its cash entry is missing |
| `Catalog.HasDnaShards` | docs/main.js:151 | shard heat exactly when the bundle lists a `dna_shards` entry: none without a bundle or without that entry, and any listed entry counts, whatever its amount |
| `Catalog.HasGearComponents` | docs/main.js:152 | a kit exactly when the gear count is truthy: a listed non-zero count grants it; no bundle, no count or a count of 0 grants none |
| `Catalog.Loyalty` | docs/main.js:192 | the listed loyalty, and 0 when the stats or their loyalty entry are missing |
| `Power.TeamPowerIsSum` | docs/main.js:56-61 | the left-to-right `reduce` equals the plain sum of the members' weighted powers |
| `Power.TeamPowerAppend` | docs/main.js:56-61 | an empty team has power 0; appending a member adds exactly that member's power |
| `Power.TeamPowerAfterRemoval` | docs/main.js:84 | removing slot i lowers team power by exactly the power of the monster in slot i |
| `Power.TeamPower` | docs/main.js:56-61 | `calculateTeamPower`: the `reduce` from 0 over the team, left to right; a team whose stats are all non-negative has non-negative power (its value is pinned down by `TeamPowerIsSum` and `TeamPowerAppend`) |
| `Power.MemberPower` | docs/main.js:58-59 | one member's weighted stats; a monster without stats contributes 0, and non-negative stats give a non-negative contribution |
| `Rules.Difficulty` | docs/main.js:145 | the difficulty is never 0; a missing or zero recommended power gives 1, and any other value is used as is |
| `Rules.MissionOdds` | docs/main.js:144-146 | the odds always lie in [0.25, 0.95], and equal power/(1.2·difficulty) whenever that ratio is inside the range |
| `Rules.OddsRiseWithPower` | docs/main.js:146 | for a non-negative recommendation, more team power never lowers the odds |
| `Rules.MissionDuration` | docs/main.js:133 | the duration is NaN exactly when the recommendation is missing; otherwise it is at least 5000 ms, and exactly 5000 ms iff the team meets the recommendation |
| `Rules.DurationFallsWithPower` | docs/main.js:133 | more team power never lengthens a mission |
| `Rules.Progress` | docs/main.js:174-177 | progress is NaN exactly when the duration is, never exceeds 1, and reaches 1 exactly when the elapsed time is at least the duration |
| `Rules.Finished` | docs/main.js:174-177 | finished exactly when the duration is a number and the elapsed time has reached it; a NaN duration never finishes; a mission with a well-formed duration cannot finish less than 5000 ms after its start |
| `Rules.FinishedStays` | docs/main.js:177 | a mission that is due at some time is due at every later time |
| `Rules.HeatModifier` | docs/main.js:193 | the heat modifier is at least 0.1, and at most 1 when heat is non-negative |
| `Rules.BaseChance` | docs/main.js:192 | `0.3 + loyalty/120` is at least 0.3 exactly when loyalty is non-negative |
| `Rules.CaptureChance` | docs/main.js:192-194 | the capture chance never exceeds 0.9, and is at least 0.03 for non-negative loyalty |
| `Rules.CaptureChanceFallsWithHeat` | docs/main.js:193-194 | more heat never raises the capture chance |
| `Rules.RecruitTarget` | docs/main.js:155-159 | the target is the FIRST catalogue monster whose id is the lead enemy of the first "monster" encounter; there is none exactly when that encounter is missing, lists no enemy, or names an id the catalogue lacks |
| `Rules.Resolve` | docs/main.js:144-167 | success iff roll < odds. On success: the cash reward is added (0 if absent), +1 heat iff DNA shards are listed, +1 kit iff gear components are truthy. On failure: exactly +3 heat and nothing else. A recruit happens iff the mission succeeded, the second roll < 0.4 and the first monster encounter's lead enemy is a catalogue id; the recruit is then `RecruitTarget`, the first catalogue entry with that id |
| `Rules.OutcomeLog` | docs/main.js:153-166 | a failure prepends only the botched message; a success prepends the success message, then the recruit message when a monster joined, newest first; older entries follow in order, cut to 60 |
| `EventLog.Logged` | docs/main.js:45-54 | the new entry is first, the previous entries follow in order, and the feed is cut to the 60 most recent |
| `Roster.RemoveAt` | docs/main.js:84 | `splice(i, 1)` removes exactly the element at i: one fewer element, the rest in their order, the same multiset minus that element |
| `Game.Session.constructor` | docs/main.js:1-14 | the opening state (750 cash, 0 heat, 3 kits, stamina 18 of 20, no mission). With the starter grant: the first three monsters are owned and the first two are on the team. The invariant holds |
| `Game.Session.LogEvent` | docs/main.js:45-54 | prepending and then trimming from the end until 60 entries remain leaves exactly `Logged(old feed, message)` |
| `Game.Session.RegenTick` | docs/main.js:110-117 | stamina rises by 1 iff it was below the cap, so never above it; cash rises by exactly 6; heat becomes max(0, heat − 1); the invariant is kept |
| `Game.Session.StartMission` | docs/main.js:119-140 | an unknown id changes nothing. A running mission or stamina below the cost only logs why. Otherwise stamina drops by exactly the cost, heat rises by 2 and the mission starts at `now` with `MissionDuration` of the current team power. A mission is set only when none was running |
| `Game.Session.ResolveMission` | docs/main.js:142-169 | cash, heat, kits and collection change by exactly the deltas of `Resolve`, and the feed gets its messages; the team and the mission slot are untouched |
| `Game.Session.RecruitFromEncounter` | docs/main.js:155-163 | at most one monster joins the collection: the recruit target, and only when the roll < 0.4 |
| `Game.Session.TickActiveMission` | docs/main.js:171-182 | with no mission running, or its time not yet up, nothing changes. Once elapsed ≥ duration the mission is resolved once with `Resolve`'s deltas and the slot is cleared |
| `Game.Session.CaptureAttempt` | docs/main.js:184-206 | an unknown id changes nothing; no kits only logs. Otherwise exactly one kit is spent. A roll below `CaptureChance` (at most 0.9) appends the monster and sets heat to max(0, heat − 2); any other roll adds 2 heat |
| `Game.Session.AddToTeam` | docs/main.js:208-220 | an empty or unowned id changes nothing; a full team only logs; otherwise the owned monster is appended, so the team never exceeds 3 |
| `Game.Session.RemoveFromTeam` | docs/main.js:83-87 | the team loses exactly the member in the slot, the rest in order; a slot past the end changes nothing |

## Left out

- DOM rendering and event wiring are not modelled: `renderResources`, `renderTeam` markup, `renderCollectionSelects`, `updateMissionDetails`, the progress-bar width, the `elements` table and the `init` listeners. They only display state.
- `formatRewards` is not modelled; it builds display text only.
- `logEvent` keeps its list shape (newest first, 60 entries). The rendered text and the CSS class (`info`, `success`, `fail`) of an entry are not modelled; they only affect display.
- Loading the YAML tables with `fetch`/`jsyaml` is not modelled; the tables are constructor arguments and are never changed.
- `setInterval` scheduling is replaced by explicit calls; `Math.random` and `Date.now` are parameters.
- IEEE floating-point rounding is not modelled; arithmetic is exact over `real`.
- A YAML `null` behaves like 0 or like a missing key in every use the code makes of it. `null - power` is `-power` and `null || 1` is 1, so a null recommended power acts as `Some(0.0)`. A null stat multiplies to 0, and a null cash, shard, gear, encounter or loyalty entry acts as missing (`None`). Non-numeric strings are not modelled: they would give NaN, or string concatenation in `cash +=`.
- A missing, negative or fractional `stamina_cost` is not modelled, because `staminaCost` is a `nat`.
- Every catalogue monster is assumed to have an id (`Monster.id` is a `string`). In the code, an encounter with a missing or empty `enemy_team` gives an `undefined` target id, and `state.monsters.find((m) => m.id === undefined)` (docs/main.js:157-158) would then recruit the first monster without an id. The model recruits nobody in that case, so `RecruitTarget`'s "none" case holds only under this assumption.
- `grantStarterTeam` is folded into the constructor, which builds the state after `init` has loaded the tables.
