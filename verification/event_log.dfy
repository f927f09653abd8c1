/**
 * The event feed: newest entry first, trimmed to the most recent 60.
 * Entries are kept as structured messages rather than rendered text.
 */
module EventLog {
  import opened Wrappers

  /** How many entries the feed keeps. */
  const LogCapacity: nat := 60

  datatype Message =
    | Welcome                                   // data loaded at start-up
    | StarterTeam                               // starter monsters granted
    | MissionAlreadyRunning
    | NotEnoughStamina
    | CrewSent(mission: string)
    | MissionSucceeded(mission: string, cash: real)
    | MonsterLured(monster: string)
    | MissionBotched(mission: string)
    | NoCaptureKits
    | Captured(monster: string)
    | SlippedAway(monster: string)
    | TeamFull

  /** The feed after `msg` is prepended and the oldest entries beyond the capacity dropped. */
  function Logged(log: seq<Message>, msg: Message): (r: seq<Message>)
    ensures |r| == MinInt(LogCapacity, |log| + 1)
    ensures r[0] == msg
    ensures r[1..] == log[..|r| - 1]
  {
    ([msg] + log)[..MinInt(LogCapacity, |log| + 1)]
  }
}
