/** The player's team: at most three monsters, edited by appending and by removing a slot. */
module Roster {

  /** The team never holds more than this many monsters. */
  const TeamCapacity: nat := 3

  /** `splice(i, 1)`: the sequence without its element at index `i`, the rest in order. */
  function RemoveAt<T>(s: seq<T>, i: nat): (r: seq<T>)
    requires i < |s|
    ensures |r| == |s| - 1
    ensures forall j :: 0 <= j < i ==> r[j] == s[j]
    ensures forall j :: i <= j < |r| ==> r[j] == s[j + 1]
    ensures multiset(r) + multiset{s[i]} == multiset(s)
  {
    assert s == s[..i] + [s[i]] + s[i + 1..];
    s[..i] + s[i + 1..]
  }
}
