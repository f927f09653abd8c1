/**
 * The running game session: the player's resources, the owned monsters, the
 * team and the one mission in flight, changed in place by the timer ticks and
 * the player's actions. Clock readings and random rolls are parameters.
 */
module Game {
  import opened Wrappers
  import opened Catalog
  import opened Roster
  import opened Power
  import opened EventLog
  import opened Rules

  class Session {
    /** The definition tables, fixed once loaded. */
    const monsters: seq<Monster>
    const missions: seq<Mission>
    /** No operation changes the stamina cap. */
    const staminaMax: int

    var cash: real
    var heat: int
    var captureKits: int
    var stamina: int
    var collection: seq<Monster>
    var team: seq<Monster>
    /** At most one mission runs at a time: `None` when idle. */
    var activeMission: Option<ActiveMission>
    var log: seq<Message>

    /** The session invariant every operation keeps. */
    ghost predicate Valid()
      reads this
    {
      && heat >= 0
      && 0 <= stamina <= staminaMax
      && captureKits >= 0
      && |team| <= TeamCapacity
      && |log| <= LogCapacity
      && (forall m :: m in collection ==> m in monsters)
      && (forall m :: m in team ==> m in collection)
      && (activeMission.Some? ==> activeMission.value.mission in missions && WellTimed(activeMission.value))
    }

    /**
     * The opening state once the tables are loaded: the starting resources, the
     * first three monsters owned, the first two of those on the team.
     */
    constructor (monsters: seq<Monster>, missions: seq<Mission>)
      ensures Valid()
      ensures this.monsters == monsters && this.missions == missions
      ensures cash == 750.0 && heat == 0 && captureKits == 3 && stamina == 18 && staminaMax == 20
      ensures collection == monsters[..MinInt(3, |monsters|)]
      ensures team == collection[..MinInt(2, |collection|)]
      ensures activeMission.None?
      ensures log == [Welcome, StarterTeam]
    {
      this.monsters := monsters;
      this.missions := missions;
      staminaMax := 20;
      cash := 750.0;
      heat := 0;
      captureKits := 3;
      stamina := 18;
      var owned := monsters[..MinInt(3, |monsters|)];
      collection := owned;
      team := owned[..MinInt(2, |owned|)];
      activeMission := None;
      log := Logged(Logged([], StarterTeam), Welcome);
    }

    /** Adds `msg` at the head of the feed and drops entries beyond the capacity, oldest first. */
    method LogEvent(msg: Message)
      modifies this`log
      ensures log == Logged(old(log), msg)
    {
      log := [msg] + log;
      while |log| > LogCapacity
        invariant |log| >= MinInt(LogCapacity, |old(log)| + 1)
        invariant log == ([msg] + old(log))[..|log|]
        decreases |log|
      {
        log := log[..|log| - 1];
      }
    }

    /** The slow timer: one stamina back up to the cap, a 6 cash drip, one heat off down to 0. */
    method RegenTick()
      requires Valid()
      modifies this`stamina, this`cash, this`heat
      ensures Valid()
      ensures old(stamina) <= stamina <= old(stamina) + 1 && stamina <= staminaMax
      ensures stamina == old(stamina) + 1 <==> old(stamina) < staminaMax
      ensures cash == old(cash) + 6.0
      ensures heat == MaxInt(0, old(heat) - 1)
    {
      if stamina < staminaMax {
        stamina := MinInt(staminaMax, stamina + 1);
      }
      cash := cash + 6.0;
      heat := MaxInt(0, heat - 1);
    }

    /**
     * Starts the selected mission at time `now`. An unknown id does nothing; a
     * running mission or too little stamina only logs why.
     */
    method StartMission(missionId: string, now: int)
      requires Valid()
      modifies this`stamina, this`heat, this`activeMission, this`log
      ensures Valid()
      ensures MissionById(missions, missionId).None? ==>
                stamina == old(stamina) && heat == old(heat) && activeMission == old(activeMission) && log == old(log)
      ensures MissionById(missions, missionId).Some? && old(activeMission).Some? ==>
                stamina == old(stamina) && heat == old(heat) && activeMission == old(activeMission)
                && log == Logged(old(log), MissionAlreadyRunning)
      ensures var m := MissionById(missions, missionId);
              m.Some? && old(activeMission).None? && old(stamina) < m.value.staminaCost ==>
                stamina == old(stamina) && heat == old(heat) && activeMission.None?
                && log == Logged(old(log), NotEnoughStamina)
      ensures var m := MissionById(missions, missionId);
              m.Some? && old(activeMission).None? && old(stamina) >= m.value.staminaCost ==>
                stamina == old(stamina) - m.value.staminaCost && heat == old(heat) + 2
                && activeMission == Some(ActiveMission(m.value, now, MissionDuration(m.value.recommendedPower, TeamPower(team))))
                && log == Logged(old(log), CrewSent(m.value.name))
    {
      var found := MissionById(missions, missionId);
      if found.None? {
        return;
      }
      var mission := found.value;
      if activeMission.Some? {
        LogEvent(MissionAlreadyRunning);
        return;
      }
      if stamina < mission.staminaCost {
        LogEvent(NotEnoughStamina);
        return;
      }
      stamina := stamina - mission.staminaCost;
      heat := heat + 2;
      var duration := MissionDuration(mission.recommendedPower, TeamPower(team));
      activeMission := Some(ActiveMission(mission, now, duration));
      LogEvent(CrewSent(mission.name));
    }

    /**
     * Settles the running mission: rolls for success against the clamped odds,
     * pays the rewards or adds the failure heat, and may recruit a monster.
     */
    method ResolveMission(roll: real, recruitRoll: real)
      requires Valid() && activeMission.Some?
      modifies this`cash, this`heat, this`captureKits, this`collection, this`log
      ensures Valid()
      ensures cash == old(cash) + Resolve(monsters, team, activeMission.value.mission, roll, recruitRoll).cashGain
      ensures heat == old(heat) + Resolve(monsters, team, activeMission.value.mission, roll, recruitRoll).heatGain
      ensures captureKits == old(captureKits) + Resolve(monsters, team, activeMission.value.mission, roll, recruitRoll).kitGain
      ensures var o := Resolve(monsters, team, activeMission.value.mission, roll, recruitRoll);
              collection == old(collection) + (if o.recruit.Some? then [o.recruit.value] else [])
      ensures log == OutcomeLog(old(log), activeMission.value.mission, Resolve(monsters, team, activeMission.value.mission, roll, recruitRoll))
    {
      var mission := activeMission.value.mission;
      var teamPower := TeamPower(team);
      var odds := MissionOdds(teamPower, mission.recommendedPower);
      var success := roll < odds;
      if success {
        var cashReward := CashReward(mission);
        cash := cash + cashReward;
        if HasDnaShards(mission) {
          heat := heat + 1;
        }
        if HasGearComponents(mission) {
          captureKits := captureKits + 1;
        }
        LogEvent(MissionSucceeded(mission.name, cashReward));
        RecruitFromEncounter(mission, recruitRoll);
      } else {
        heat := heat + 3;
        LogEvent(MissionBotched(mission.name));
      }
    }

    /**
     * After a success: with probability 0.4 (the roll below it), the catalogue
     * monster leading the mission's first "monster" encounter joins the collection.
     */
    method RecruitFromEncounter(mission: Mission, recruitRoll: real)
      requires Valid()
      modifies this`collection, this`log
      ensures Valid()
      ensures var target := if recruitRoll < RecruitChance then RecruitTarget(monsters, mission) else None;
              && collection == old(collection) + (if target.Some? then [target.value] else [])
              && log == (if target.Some? then Logged(old(log), MonsterLured(target.value.name)) else old(log))
    {
      var encounter := FirstMonsterEncounter(mission);
      if encounter.Some? && recruitRoll < RecruitChance {
        var targetId := LeadEnemy(encounter.value);
        if targetId.Some? {
          var monster := MonsterById(monsters, targetId.value);
          if monster.Some? {
            collection := collection + [monster.value];
            LogEvent(MonsterLured(monster.value.name));
          }
        }
      }
    }

    /**
     * The fast timer at time `now`: when the running mission's time is up it is
     * resolved and cleared; otherwise nothing changes.
     */
    method TickActiveMission(now: int, roll: real, recruitRoll: real)
      requires Valid()
      modifies this`cash, this`heat, this`captureKits, this`collection, this`activeMission, this`log
      ensures Valid()
      ensures old(activeMission).None? || !Finished(old(activeMission).value, now) ==>
                cash == old(cash) && heat == old(heat) && captureKits == old(captureKits)
                && collection == old(collection) && activeMission == old(activeMission) && log == old(log)
      ensures old(activeMission).Some? && Finished(old(activeMission).value, now) ==>
                var mission := old(activeMission).value.mission;
                var o := Resolve(monsters, team, mission, roll, recruitRoll);
                && activeMission.None?
                && cash == old(cash) + o.cashGain
                && heat == old(heat) + o.heatGain
                && captureKits == old(captureKits) + o.kitGain
                && collection == old(collection) + (if o.recruit.Some? then [o.recruit.value] else [])
                && log == OutcomeLog(old(log), mission, o)
    {
      if activeMission.None? {
        return;
      }
      var pct := Progress(activeMission.value, now);
      if pct.Some? && pct.value >= 1.0 {
        ResolveMission(roll, recruitRoll);
        activeMission := None;
      }
    }

    /**
     * Tries to capture the selected catalogue monster. An unknown id does
     * nothing; with no kit left it only logs; otherwise it spends one kit and
     * rolls against the heat-dependent chance.
     */
    method CaptureAttempt(monsterId: string, roll: real)
      requires Valid()
      modifies this`captureKits, this`collection, this`heat, this`log
      ensures Valid()
      ensures MonsterById(monsters, monsterId).None? ==>
                captureKits == old(captureKits) && collection == old(collection) && heat == old(heat) && log == old(log)
      ensures MonsterById(monsters, monsterId).Some? && old(captureKits) <= 0 ==>
                captureKits == old(captureKits) && collection == old(collection) && heat == old(heat)
                && log == Logged(old(log), NoCaptureKits)
      ensures var m := MonsterById(monsters, monsterId);
              m.Some? && old(captureKits) > 0 && roll < CaptureChance(m.value, old(heat)) ==>
                captureKits == old(captureKits) - 1 && collection == old(collection) + [m.value]
                && heat == MaxInt(0, old(heat) - 2) && log == Logged(old(log), Captured(m.value.name))
      ensures var m := MonsterById(monsters, monsterId);
              m.Some? && old(captureKits) > 0 && roll >= CaptureChance(m.value, old(heat)) ==>
                captureKits == old(captureKits) - 1 && collection == old(collection)
                && heat == old(heat) + 2 && log == Logged(old(log), SlippedAway(m.value.name))
    {
      var found := MonsterById(monsters, monsterId);
      if found.None? {
        return;
      }
      var monster := found.value;
      if captureKits <= 0 {
        LogEvent(NoCaptureKits);
        return;
      }
      captureKits := captureKits - 1;
      var finalChance := CaptureChance(monster, heat);
      if roll < finalChance {
        collection := collection + [monster];
        LogEvent(Captured(monster.name));
        heat := MaxInt(0, heat - 2);
      } else {
        heat := heat + 2;
        LogEvent(SlippedAway(monster.name));
      }
    }

    /**
     * Puts the owned monster with id `id` on the team. An empty or unknown id
     * does nothing; a full team only logs.
     */
    method AddToTeam(id: string)
      requires Valid()
      modifies this`team, this`log
      ensures Valid()
      ensures id == "" || MonsterById(collection, id).None? ==> team == old(team) && log == old(log)
      ensures id != "" && MonsterById(collection, id).Some? && |old(team)| >= TeamCapacity ==>
                team == old(team) && log == Logged(old(log), TeamFull)
      ensures id != "" && MonsterById(collection, id).Some? && |old(team)| < TeamCapacity ==>
                team == old(team) + [MonsterById(collection, id).value] && log == old(log)
    {
      if id == "" {
        return;
      }
      var found := MonsterById(collection, id);
      if found.None? {
        return;
      }
      if |team| >= TeamCapacity {
        LogEvent(TeamFull);
        return;
      }
      team := team + [found.value];
    }

    /** The Remove button of team slot `slot`: `splice(slot, 1)`, a no-op past the end. */
    method RemoveFromTeam(slot: nat)
      requires Valid()
      modifies this`team
      ensures Valid()
      ensures team == if slot < |old(team)| then RemoveAt(old(team), slot) else old(team)
    {
      if slot < |team| {
        team := RemoveAt(team, slot);
      }
    }
  }
}
