/**
 * The game's arithmetic: mission duration, mission odds, capture chance,
 * mission progress and the outcome of resolving a mission.
 * Times are milliseconds; rolls are the values `Math.random()` would return.
 */
module Rules {
  import opened Wrappers
  import opened Catalog
  import opened Power
  import opened EventLog

  /** Chance, after a successful mission, of trying to recruit from its monster encounter. */
  const RecruitChance: real := 0.4

  /**
   * A running mission. `duration` is `None` when the mission has no recommended
   * power: the duration is then NaN, and a NaN progress never reaches 1.
   */
  datatype ActiveMission = ActiveMission(mission: Mission, started: int, duration: Option<real>)

  /** `recommended_power || 1`: a missing or zero recommendation counts as 1. */
  function Difficulty(rp: Option<real>): (d: real)
    ensures d != 0.0
    ensures rp.None? || rp.value == 0.0 ==> d == 1.0
    ensures rp.Some? && rp.value != 0.0 ==> d == rp.value
  {
    match rp
    case None => 1.0
    case Some(p) => if p == 0.0 then 1.0 else p
  }

  /** Success odds of a mission: team power over 1.2 times the difficulty, clamped to [0.25, 0.95]. */
  function MissionOdds(power: real, rp: Option<real>): (odds: real)
    ensures 0.25 <= odds <= 0.95
    ensures 0.25 <= power / (Difficulty(rp) * 1.2) <= 0.95 ==> odds == power / (Difficulty(rp) * 1.2)
  {
    MinReal(0.95, MaxReal(0.25, power / (Difficulty(rp) * 1.2)))
  }

  /** A stronger team never has worse odds on a mission with a non-negative recommendation. */
  lemma OddsRiseWithPower(p1: real, p2: real, rp: Option<real>)
    requires p1 <= p2
    requires rp.None? || rp.value >= 0.0
    ensures MissionOdds(p1, rp) <= MissionOdds(p2, rp)
  {
    var d := Difficulty(rp) * 1.2;
    assert d > 0.0;
    assert p1 / d <= p2 / d by {
      assert p2 / d - p1 / d == (p2 - p1) / d;
    }
  }

  /**
   * Mission length: 5000 ms plus 10 ms for every point the team falls short of
   * the recommendation; `None` (NaN) when there is no recommendation.
   */
  function MissionDuration(rp: Option<real>, power: real): (r: Option<real>)
    ensures r.None? <==> rp.None?
    ensures r.Some? ==> r.value >= 5000.0
    ensures r.Some? ==> (r.value == 5000.0 <==> rp.value <= power)
  {
    match rp
    case None => None
    case Some(p) => Some(5000.0 + MaxReal(0.0, p - power) * 10.0)
  }

  /** A stronger team never gets a longer mission. */
  lemma DurationFallsWithPower(rp: Option<real>, p1: real, p2: real)
    requires p1 <= p2 && rp.Some?
    ensures MissionDuration(rp, p2).value <= MissionDuration(rp, p1).value
  {
  }

  /** Durations a running mission can have: NaN or at least 5000 ms. */
  predicate WellTimed(a: ActiveMission)
  {
    a.duration.Some? ==> a.duration.value >= 5000.0
  }

  /**
   * The mission's time is up: its duration is a number and has fully elapsed.
   * A NaN duration never finishes, and no mission finishes within 5000 ms of its start.
   */
  predicate Finished(a: ActiveMission, now: int)
    ensures a.duration.None? ==> !Finished(a, now)
    ensures Finished(a, now) && WellTimed(a) ==> now - a.started >= 5000
    ensures a.duration.Some? && (now - a.started) as real >= a.duration.value ==> Finished(a, now)
  {
    a.duration.Some? && (now - a.started) as real >= a.duration.value
  }

  /** `min(1, elapsed / duration)`; `None` stands for NaN. It reaches 1 exactly when the mission is finished. */
  function Progress(a: ActiveMission, now: int): (pct: Option<real>)
    requires WellTimed(a)
    ensures pct.None? <==> a.duration.None?
    ensures pct.Some? ==> pct.value <= 1.0
    ensures pct.Some? ==> (pct.value >= 1.0 <==> Finished(a, now))
  {
    match a.duration
    case None => None
    case Some(d) =>
      var elapsed := (now - a.started) as real;
      assert elapsed / d >= 1.0 <==> elapsed >= d by {
        assert (elapsed / d) * d == elapsed;
        if elapsed / d >= 1.0 {
          assert (elapsed / d) * d >= 1.0 * d;
        }
        if elapsed >= d {
          assert elapsed / d >= d / d;
        }
      }
      Some(MinReal(1.0, elapsed / d))
  }

  /** Once finished, a mission stays finished at every later time. */
  lemma FinishedStays(a: ActiveMission, now: int, later: int)
    requires Finished(a, now) && now <= later
    ensures Finished(a, later)
  {
  }

  /** `0.3 + loyalty / 120`: at least 0.3 exactly when loyalty is non-negative. */
  function BaseChance(m: Monster): (r: real)
    ensures r >= 0.3 <==> Loyalty(m) >= 0.0
  {
    0.3 + Loyalty(m) / 120.0
  }

  /** `max(0.1, 1 - heat * 0.02)`: heat scales a capture down, never below a tenth. */
  function HeatModifier(heat: int): (k: real)
    ensures 0.1 <= k
    ensures heat >= 0 ==> k <= 1.0
  {
    MaxReal(0.1, 1.0 - heat as real * 0.02)
  }

  /** Capture chance: the base chance scaled by the heat modifier, capped at 0.9. */
  function CaptureChance(m: Monster, heat: int): (c: real)
    ensures c <= 0.9
    ensures Loyalty(m) >= 0.0 ==> c >= 0.03
  {
    ProductFloor(BaseChance(m), HeatModifier(heat));
    MinReal(0.9, BaseChance(m) * HeatModifier(heat))
  }

  lemma ProductFloor(b: real, k: real)
    ensures b >= 0.3 && k >= 0.1 ==> b * k >= 0.03
  {
    if b >= 0.3 && k >= 0.1 {
      ScaleMonotone(k, 0.3, b);
    }
  }

  /** More heat never makes a capture more likely. */
  lemma CaptureChanceFallsWithHeat(m: Monster, h1: int, h2: int)
    requires h1 <= h2 && Loyalty(m) >= 0.0
    ensures CaptureChance(m, h2) <= CaptureChance(m, h1)
  {
    var base, k1, k2 := BaseChance(m), HeatModifier(h1), HeatModifier(h2);
    assert k2 <= k1 by {
      assert h2 as real * 0.02 >= h1 as real * 0.02;
    }
    CappedScaleMonotone(base, k2, k1);
    assert CaptureChance(m, h1) == MinReal(0.9, base * k1);
    assert CaptureChance(m, h2) == MinReal(0.9, base * k2);
  }

  lemma CappedScaleMonotone(k: real, x: real, y: real)
    requires k >= 0.0 && x <= y
    ensures MinReal(0.9, k * x) <= MinReal(0.9, k * y)
  {
    ScaleMonotone(k, x, y);
    var a, b := k * x, k * y;
    assert a <= b;
    assert MinReal(0.9, a) == if a <= 0.9 then a else 0.9;
  }

  lemma ScaleMonotone(k: real, x: real, y: real)
    requires k >= 0.0 && x <= y
    ensures k * x <= k * y
  {
    assert k * y - k * x == k * (y - x);
  }

  /** What resolving a mission adds to the player's state. */
  datatype Outcome = Outcome(success: bool, cashGain: real, heatGain: int, kitGain: int, recruit: Option<Monster>)

  /**
   * The monster a successful mission may recruit: the catalogue monster whose id
   * is the lead enemy of the mission's first "monster" encounter.
   */
  function RecruitTarget(monsters: seq<Monster>, mission: Mission): (r: Option<Monster>)
    ensures r.Some? ==>
              r.value in monsters && FirstMonsterEncounter(mission).Some?
              && LeadEnemy(FirstMonsterEncounter(mission).value) == Some(r.value.id)
    ensures r.None? <==>
              || FirstMonsterEncounter(mission).None?
              || LeadEnemy(FirstMonsterEncounter(mission).value).None?
              || forall m :: m in monsters ==> Some(m.id) != LeadEnemy(FirstMonsterEncounter(mission).value)
    ensures r.Some? ==>
              exists i :: 0 <= i < |monsters| && monsters[i] == r.value
                          && forall j :: 0 <= j < i ==> monsters[j].id != r.value.id
  {
    match FirstMonsterEncounter(mission)
    case None => None
    case Some(e) =>
      match LeadEnemy(e)
      case None => None
      case Some(id) => MonsterById(monsters, id)
  }

  /** The outcome of resolving `mission` with `team`, given the success roll and the recruit roll. */
  function Resolve(monsters: seq<Monster>, team: seq<Monster>, mission: Mission, roll: real, recruitRoll: real): (o: Outcome)
    ensures o.success <==> roll < MissionOdds(TeamPower(team), mission.recommendedPower)
    ensures o.success ==> o.cashGain == CashReward(mission)
    ensures o.success ==> (o.heatGain == 1 <==> HasDnaShards(mission)) && 0 <= o.heatGain <= 1
    ensures o.success ==> (o.kitGain == 1 <==> HasGearComponents(mission)) && 0 <= o.kitGain <= 1
    ensures !o.success ==> o.cashGain == 0.0 && o.heatGain == 3 && o.kitGain == 0 && o.recruit.None?
    ensures o.recruit.Some? <==> o.success && recruitRoll < RecruitChance && RecruitTarget(monsters, mission).Some?
    ensures o.recruit.Some? ==>
              o.recruit.value in monsters && FirstMonsterEncounter(mission).Some?
              && LeadEnemy(FirstMonsterEncounter(mission).value) == Some(o.recruit.value.id)
    ensures o.recruit.Some? ==> o.recruit == RecruitTarget(monsters, mission)
  {
    if roll < MissionOdds(TeamPower(team), mission.recommendedPower) then
      Outcome(
        true,
        CashReward(mission),
        if HasDnaShards(mission) then 1 else 0,
        if HasGearComponents(mission) then 1 else 0,
        if recruitRoll < RecruitChance then RecruitTarget(monsters, mission) else None)
    else
      Outcome(false, 0.0, 3, 0, None)
  }

  /**
   * The feed after a resolution: the botched message on failure; on success the
   * success message, followed by the recruit message when a monster joined.
   */
  function OutcomeLog(log: seq<Message>, mission: Mission, o: Outcome): (r: seq<Message>)
    ensures !o.success || o.recruit.None? ==> |r| == MinInt(LogCapacity, |log| + 1)
    ensures o.success && o.recruit.Some? ==> |r| == MinInt(LogCapacity, |log| + 2)
    ensures !o.success ==> r[0] == MissionBotched(mission.name) && r[1..] == log[..|r| - 1]
    ensures o.success && o.recruit.None? ==> r[0] == MissionSucceeded(mission.name, o.cashGain) && r[1..] == log[..|r| - 1]
    ensures o.success && o.recruit.Some? ==>
              |r| >= 2 && r[0] == MonsterLured(o.recruit.value.name) && r[1] == MissionSucceeded(mission.name, o.cashGain)
              && r[2..] == log[..|r| - 2]
  {
    if !o.success then Logged(log, MissionBotched(mission.name))
    else
      var l := Logged(log, MissionSucceeded(mission.name, o.cashGain));
      if o.recruit.Some? then Logged(l, MonsterLured(o.recruit.value.name)) else l
  }
}
