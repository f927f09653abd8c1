/**
 * The read-only definition tables the game loads once at start-up: monsters
 * and missions. A key that is missing from a definition is `None`.
 */
module Catalog {
  import opened Wrappers

  /** Base stats of a monster; any entry may be missing and then counts as 0. */
  datatype Stats = Stats(
    hp: Option<real>,
    attack: Option<real>,
    special: Option<real>,
    defense: Option<real>,
    speed: Option<real>,
    grit: Option<real>,
    loyalty: Option<real>)

  datatype Monster = Monster(id: string, name: string, affinity: string, role: string, stats: Option<Stats>)

  datatype DnaShards = DnaShards(amount: real, affinity: string)

  /** The reward bundle of a mission. */
  datatype Rewards = Rewards(cash: Option<real>, dnaShards: Option<DnaShards>, gearComponents: Option<int>)

  /** An encounter of a mission; `kind` is the YAML `type` ("monster", ...). */
  datatype Encounter = Encounter(kind: string, enemyTeam: Option<seq<string>>)

  datatype Mission = Mission(
    id: string,
    name: string,
    district: string,
    staminaCost: nat,
    recommendedPower: Option<real>,
    rewards: Option<Rewards>,
    encounters: Option<seq<Encounter>>)

  /** `xs.find(p)`: the first element that satisfies `p`, if any. */
  function Find<T>(xs: seq<T>, p: T -> bool): (r: Option<T>)
    ensures r.Some? ==> r.value in xs && p(r.value)
    ensures r.None? <==> forall i :: 0 <= i < |xs| ==> !p(xs[i])
    ensures r.Some? ==> exists i :: 0 <= i < |xs| && xs[i] == r.value && forall j :: 0 <= j < i ==> !p(xs[j])
  {
    if |xs| == 0 then None
    else if p(xs[0]) then Some(xs[0])
    else
      var r := Find(xs[1..], p);
      assert forall j :: 1 <= j < |xs| ==> xs[j] == xs[1..][j - 1];
      r
  }

  /** Lookup of a monster by id in a table or in the player's collection. */
  function MonsterById(monsters: seq<Monster>, id: string): (r: Option<Monster>)
    ensures r.Some? ==> r.value in monsters && r.value.id == id
    ensures r.None? <==> forall m :: m in monsters ==> m.id != id
    ensures r.Some? ==> exists i :: 0 <= i < |monsters| && monsters[i] == r.value
                                    && forall j :: 0 <= j < i ==> monsters[j].id != id
  {
    Find(monsters, (m: Monster) => m.id == id)
  }

  function MissionById(missions: seq<Mission>, id: string): (r: Option<Mission>)
    ensures r.Some? ==> r.value in missions && r.value.id == id
    ensures r.None? <==> forall m :: m in missions ==> m.id != id
    ensures r.Some? ==> exists i :: 0 <= i < |missions| && missions[i] == r.value
                                    && forall j :: 0 <= j < i ==> missions[j].id != id
  {
    Find(missions, (m: Mission) => m.id == id)
  }

  /** The first encounter of type "monster" (`encounters?.find(...)`). */
  function FirstMonsterEncounter(mission: Mission): (r: Option<Encounter>)
    ensures r.Some? ==> mission.encounters.Some? && r.value in mission.encounters.value && r.value.kind == "monster"
    ensures r.None? <==> mission.encounters.None? || forall e :: e in mission.encounters.value ==> e.kind != "monster"
    ensures r.Some? ==> exists i :: 0 <= i < |mission.encounters.value| && mission.encounters.value[i] == r.value
                                    && forall j :: 0 <= j < i ==> mission.encounters.value[j].kind != "monster"
  {
    match mission.encounters
    case None => None
    case Some(es) => Find(es, (e: Encounter) => e.kind == "monster")
  }

  /** `enemy_team?.[0]`: the first listed enemy, if the list is present and non-empty. */
  function LeadEnemy(e: Encounter): (r: Option<string>)
    ensures r.Some? <==> e.enemyTeam.Some? && |e.enemyTeam.value| > 0
    ensures r.Some? ==> r.value == e.enemyTeam.value[0]
  {
    match e.enemyTeam
    case Some(ids) => if |ids| > 0 then Some(ids[0]) else None
    case None => None
  }

  /** `rewards?.cash ?? 0`: the listed cash, or 0 when the bundle or its cash entry is missing. */
  function CashReward(mission: Mission): (r: real)
    ensures mission.rewards.None? || mission.rewards.value.cash.None? ==> r == 0.0
    ensures mission.rewards.Some? && mission.rewards.value.cash.Some? ==> r == mission.rewards.value.cash.value
  {
    match mission.rewards
    case Some(r) => GetOr(r.cash, 0.0)
    case None => 0.0
  }

  /** `rewards?.dna_shards` is truthy: a shard bundle is present, whatever its amount. */
  predicate HasDnaShards(mission: Mission)
    ensures mission.rewards.None? ==> !HasDnaShards(mission)
    ensures mission.rewards.Some? && mission.rewards.value.dnaShards.Some? ==> HasDnaShards(mission)
    ensures mission.rewards.Some? && mission.rewards.value.dnaShards.None? ==> !HasDnaShards(mission)
  {
    mission.rewards.Some? && mission.rewards.value.dnaShards.Some?
  }

  /** `rewards?.gear_components` is truthy: present and not 0. */
  predicate HasGearComponents(mission: Mission)
    ensures mission.rewards.None? ==> !HasGearComponents(mission)
    ensures mission.rewards.Some? && mission.rewards.value.gearComponents == Some(0) ==> !HasGearComponents(mission)
    ensures HasGearComponents(mission) ==> mission.rewards.value.gearComponents.Some?
    ensures (mission.rewards.Some? && mission.rewards.value.gearComponents.Some?
             && mission.rewards.value.gearComponents.value != 0) ==> HasGearComponents(mission)
  {
    mission.rewards.Some? && mission.rewards.value.gearComponents.Some?
    && mission.rewards.value.gearComponents.value != 0
  }

  /** `stats?.loyalty ?? 0`: the listed loyalty, or 0 when the stats or their loyalty entry are missing. */
  function Loyalty(m: Monster): (r: real)
    ensures m.stats.None? || m.stats.value.loyalty.None? ==> r == 0.0
    ensures m.stats.Some? && m.stats.value.loyalty.Some? ==> r == m.stats.value.loyalty.value
  {
    match m.stats
    case Some(s) => GetOr(s.loyalty, 0.0)
    case None => 0.0
  }
}
