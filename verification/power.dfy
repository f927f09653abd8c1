/** Team power: the weighted stat sum the game compares against a mission's recommended power. */
module Power {
  import opened Wrappers
  import opened Catalog
  import opened Roster

  /** One monster's contribution; a missing stat (or missing stats) counts as 0. */
  function MemberPower(m: Monster): (r: real)
    ensures m.stats.None? ==> r == 0.0
    ensures NonNegativeStats(m) ==> r >= 0.0
  {
    match m.stats
    case None => 0.0
    case Some(s) =>
      GetOr(s.hp, 0.0) * 0.25 + GetOr(s.attack, 0.0) * 0.8 + GetOr(s.special, 0.0) * 0.7
      + GetOr(s.defense, 0.0) * 0.4 + GetOr(s.speed, 0.0) * 0.6 + GetOr(s.grit, 0.0) * 1.2
  }

  /** All six weighted stats of `m` are present-and-non-negative or missing. */
  predicate NonNegativeStats(m: Monster)
  {
    match m.stats
    case None => true
    case Some(s) =>
      GetOr(s.hp, 0.0) >= 0.0 && GetOr(s.attack, 0.0) >= 0.0 && GetOr(s.special, 0.0) >= 0.0
      && GetOr(s.defense, 0.0) >= 0.0 && GetOr(s.speed, 0.0) >= 0.0 && GetOr(s.grit, 0.0) >= 0.0
  }

  /**
   * The `reduce` over the team, starting from 0 and adding members left to
   * right; a team whose stats are all non-negative has non-negative power.
   */
  function TeamPower(team: seq<Monster>): (r: real)
    ensures (forall i :: 0 <= i < |team| ==> NonNegativeStats(team[i])) ==> r >= 0.0
  {
    if |team| == 0 then 0.0
    else TeamPower(team[..|team| - 1]) + MemberPower(team[|team| - 1])
  }

  /** Reference definition: the plain sum of the members' powers. */
  function SumPowers(team: seq<Monster>): (r: real)
  {
    if |team| == 0 then 0.0 else MemberPower(team[0]) + SumPowers(team[1..])
  }

  lemma {:induction false} SumPowersConcat(a: seq<Monster>, b: seq<Monster>)
    ensures SumPowers(a + b) == SumPowers(a) + SumPowers(b)
  {
    if |a| == 0 {
      assert a + b == b;
    } else {
      assert (a + b)[1..] == a[1..] + b;
      SumPowersConcat(a[1..], b);
    }
  }

  /** The fold the game computes is the sum over exactly the team's members. */
  lemma {:induction false} TeamPowerIsSum(team: seq<Monster>)
    ensures TeamPower(team) == SumPowers(team)
  {
    if |team| > 0 {
      var init, last := team[..|team| - 1], team[|team| - 1];
      TeamPowerIsSum(init);
      SumPowersConcat(init, [last]);
      assert init + [last] == team;
    }
  }

  /** An empty team has power 0, and adding a member adds exactly its power. */
  lemma TeamPowerAppend(team: seq<Monster>, m: Monster)
    ensures TeamPower([]) == 0.0
    ensures TeamPower(team + [m]) == TeamPower(team) + MemberPower(m)
  {
    assert (team + [m])[..|team|] == team;
  }

  lemma SumPowersRemoveAt(team: seq<Monster>, i: nat)
    requires i < |team|
    ensures SumPowers(RemoveAt(team, i)) == SumPowers(team) - MemberPower(team[i])
  {
    var pre, rest := team[..i], team[i..];
    assert team == pre + rest;
    assert RemoveAt(team, i) == pre + rest[1..];
    SumPowersConcat(pre, rest);
    SumPowersConcat(pre, rest[1..]);
  }

  /** Removing the monster in slot `i` lowers the power by exactly that monster's power. */
  lemma TeamPowerAfterRemoval(team: seq<Monster>, i: nat)
    requires i < |team|
    ensures TeamPower(RemoveAt(team, i)) == TeamPower(team) - MemberPower(team[i])
  {
    SumPowersRemoveAt(team, i);
    TeamPowerIsSum(team);
    TeamPowerIsSum(RemoveAt(team, i));
  }
}
