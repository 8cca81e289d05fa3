/**
  Each parkour session runs in a world of its own, named after the player
  who started it: the fixed prefix `parkour_` followed by the player's name.
 */
module WorldNames {

  datatype Option<+T> = None | Some(value: T)

  const Prefix: string := "parkour_"

  /** The name of the world created for `player`'s session. */
  function WorldName(player: string): (w: string)
    ensures |w| == |Prefix| + |player|
    ensures w[..|Prefix|] == Prefix
    ensures w[|Prefix|..] == player
  {
    Prefix + player
  }

  /** Recovers the player a session world belongs to; `None` for any other world. */
  function PlayerOfWorld(w: string): (r: Option<string>)
    ensures r.Some? <==> |Prefix| <= |w| && w[..|Prefix|] == Prefix
    ensures r.Some? ==> |r.value| == |w| - |Prefix|
  {
    if |Prefix| <= |w| && w[..|Prefix|] == Prefix then Some(w[|Prefix|..]) else None
  }

  /** Reading the player back out of a session world's name gives that player. */
  lemma WorldNameRoundTrip(player: string)
    ensures PlayerOfWorld(WorldName(player)) == Some(player)
  {
  }

  /** Every name recognised as a session world is the world name of the player it yields. */
  lemma PlayerOfWorldRoundTrip(w: string, player: string)
    requires PlayerOfWorld(w) == Some(player)
    ensures WorldName(player) == w
  {
  }

  /** Two different players never share a session world. */
  lemma WorldNameInjective(p: string, q: string)
    requires p != q
    ensures WorldName(p) != WorldName(q)
  {
  }
}
