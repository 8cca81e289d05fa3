/**
  Per-player parkour progress, as the plugin's `Main` class keeps it: two maps
  keyed by player name, one giving the world of the player's session and one
  the furthest whole X coordinate the player has reached since starting or
  last falling. Each host event becomes a pure transition that returns the
  next state and the host calls the plugin would make, in order.
 */
module Sessions {
  import opened Coordinates
  import opened WorldNames
  import opened PhpValues

  /** Who issued the start command: a player in the game, or the server console. */
  datatype Sender = PlayerSender(name: string) | Console

  /** The host events the plugin reacts to. */
  datatype Event =
    | Command(sender: Sender)
    | Move(player: string, x: real, y: real)
    | Quit(player: string)

  /** The chat messages the plugin sends. */
  datatype Notice = Starting | Fell | InGameOnly

  /** Calls into the game server, recorded rather than performed. */
  datatype Effect =
      /** Generate a flat world, load it and schedule the section generator on it every `taskPeriod` ticks. */
    | CreateWorld(world: string, taskPeriod: nat)
    | TeleportToWorldSpawn(player: string, world: string)
      /** Teleport to the safe spawn of the world the player is currently in. */
    | TeleportToSafeSpawn(player: string)
    | Notify(to: Sender, notice: Notice)
    | RefreshScoreboard(player: string, distance: int)
    | DeleteWorld(world: string)

  datatype State = State(worlds: map<string, string>, distances: map<string, int>)

  datatype Transition = Transition(next: State, effects: seq<Effect>)

  /** Period, in server ticks, of the repeating section-generator task. */
  const TaskPeriod: nat := 20

  /** The plugin's state when it is enabled: no sessions, no distances. */
  const Init: State := State(map[], map[])

  /** The entries of `p` are the same in both states, in both maps. */
  ghost predicate SameEntries(s: State, t: State, p: string)
  {
    && (p in s.worlds <==> p in t.worlds)
    && (p in s.worlds ==> s.worlds[p] == t.worlds[p])
    && (p in s.distances <==> p in t.distances)
    && (p in s.distances ==> s.distances[p] == t.distances[p])
  }

  /** Every player other than `player` keeps their entries. */
  ghost predicate OthersUntouched(s: State, t: State, player: string)
  {
    forall p :: p != player ==> SameEntries(s, t, p)
  }

  /** The state every reachable state satisfies. */
  ghost predicate Valid(s: State)
  {
    && s.worlds.Keys <= s.distances.Keys
    && (forall p :: p in s.worlds ==> s.worlds[p] == WorldName(p))
    && (forall p :: p in s.distances ==> 0 <= s.distances[p])
  }

  /**
    Whether the truncated X beats the player's stored distance under PHP's
    loose `>`, where a missing entry reads as null.
   */
  function Exceeds(d: int, s: State, player: string): (b: bool)
    ensures b == LooseGreater(PhpInt(d), if player in s.distances then PhpInt(s.distances[player]) else PhpNull)
  {
    if player in s.distances then d > s.distances[player] else d != 0
  }

  function Max(a: int, b: int): int
  {
    if a < b then b else a
  }

  /** Starts (or restarts) a session for `player`. */
  function Start(s: State, player: string): (r: Transition)
    ensures player in r.next.worlds && r.next.worlds[player] == WorldName(player)
    ensures player in r.next.distances && r.next.distances[player] == 0
    ensures r.next.worlds.Keys == s.worlds.Keys + {player}
    ensures r.next.distances.Keys == s.distances.Keys + {player}
    ensures player in s.worlds ==> |r.next.worlds| == |s.worlds|
    ensures OthersUntouched(s, r.next, player)
    ensures |r.effects| == 4
    ensures r.effects[0] == CreateWorld(WorldName(player), TaskPeriod)
    ensures r.effects[1] == TeleportToWorldSpawn(player, WorldName(player))
    ensures r.effects[2] == Notify(PlayerSender(player), Starting)
    ensures r.effects[3] == RefreshScoreboard(player, r.next.distances[player])
  {
    var world := WorldName(player);
    var next := State(s.worlds[player := world], s.distances[player := 0]);
    Transition(next, [ CreateWorld(world, TaskPeriod),
                       TeleportToWorldSpawn(player, world),
                       Notify(PlayerSender(player), Starting),
                       RefreshScoreboard(player, 0) ])
  }

  /** The start command: only a player in the game can start a session. */
  function OnCommand(s: State, sender: Sender): (r: Transition)
    ensures sender.Console? ==> r.next == s && r.effects == [Notify(Console, InGameOnly)]
    ensures sender.PlayerSender? ==> r == Start(s, sender.name)
  {
    match sender
    case PlayerSender(name) => Start(s, name)
    case Console => Transition(s, [Notify(Console, InGameOnly)])
  }

  /** A movement of `player` to a position with coordinates `x` and `y`. */
  function OnMove(s: State, player: string, x: real, y: real): (r: Transition)
    ensures r.next.worlds == s.worlds
    ensures r.next.distances.Keys <= s.distances.Keys + {player}
    ensures OthersUntouched(s, r.next, player)
    ensures player !in s.worlds ==> r.next == s && r.effects == []
    // a fall below Y = 0 resets the distance, wherever the player is along X
    ensures player in s.worlds && y < 0.0 ==>
              && player in r.next.distances && r.next.distances[player] == 0
              && r.effects == [TeleportToSafeSpawn(player), Notify(PlayerSender(player), Fell)]
    // otherwise the distance becomes the larger of the old one and the truncated X
    ensures player in s.worlds && 0.0 <= y && player in s.distances ==>
              && player in r.next.distances
              && r.next.distances[player] == Max(s.distances[player], Trunc(x))
    // with no stored distance, any non-zero truncated X is stored, even a negative one
    ensures player in s.worlds && 0.0 <= y && player !in s.distances ==>
              r.next.distances == (if Trunc(x) != 0 then s.distances[player := Trunc(x)] else s.distances)
    // and the scoreboard is redrawn, with the new distance, exactly when it grew
    ensures player in s.worlds && 0.0 <= y ==>
              (r.effects != [] <==> Exceeds(Trunc(x), s, player))
    ensures player in s.worlds && 0.0 <= y && r.effects != [] ==>
              && player in r.next.distances
              && r.effects == [RefreshScoreboard(player, r.next.distances[player])]
  {
    if player !in s.worlds then
      Transition(s, [])
    else if y < 0.0 then
      Transition(State(s.worlds, s.distances[player := 0]),
                 [TeleportToSafeSpawn(player), Notify(PlayerSender(player), Fell)])
    else
      var distance := Trunc(x);
      if Exceeds(distance, s, player) then
        Transition(State(s.worlds, s.distances[player := distance]),
                   [RefreshScoreboard(player, distance)])
      else
        Transition(s, [])
  }

  /** `player` leaves the server: their session world goes, their distance stays. */
  function OnQuit(s: State, player: string): (r: Transition)
    ensures r.next.distances == s.distances
    ensures r.next.worlds.Keys == s.worlds.Keys - {player}
    ensures OthersUntouched(s, r.next, player)
    ensures player in s.worlds ==> r.effects == [DeleteWorld(s.worlds[player])]
    ensures player !in s.worlds ==> r.next == s && r.effects == []
  {
    if player in s.worlds then
      Transition(State(s.worlds - {player}, s.distances), [DeleteWorld(s.worlds[player])])
    else
      Transition(s, [])
  }

  /** The player an event is about, if any. */
  predicate Concerns(e: Event, p: string)
  {
    match e
    case Command(sender) => sender == PlayerSender(p)
    case Move(player, _, _) => player == p
    case Quit(player) => player == p
  }

  /** `e` starts a new session for `p`. */
  predicate Restarts(e: Event, p: string)
  {
    e == Command(PlayerSender(p))
  }

  /** `e` is a move of `p` below Y = 0. */
  predicate FallsFor(e: Event, p: string)
  {
    e.Move? && e.player == p && e.y < 0.0
  }

  /** Dispatches a host event to its handler. */
  function Step(s: State, e: Event): (r: Transition)
    ensures forall p :: !Concerns(e, p) ==> SameEntries(s, r.next, p)
  {
    match e
    case Command(sender) => OnCommand(s, sender)
    case Move(player, x, y) => OnMove(s, player, x, y)
    case Quit(player) => OnQuit(s, player)
  }

  /** The state after handling `events` in arrival order. */
  function Run(s: State, events: seq<Event>): State
    decreases |events|
  {
    if |events| == 0 then s else Run(Step(s, events[0]).next, events[1..])
  }

  // ---------------------------------------------------------------------------
  // Invariants and properties over event sequences
  // ---------------------------------------------------------------------------

  lemma InitValid()
    ensures Valid(Init)
  {
  }

  /** Every handler keeps the state valid. */
  lemma StepPreservesValid(s: State, e: Event)
    requires Valid(s)
    ensures Valid(Step(s, e).next)
  {
  }

  /** Handling any sequence of events keeps the state valid. */
  lemma {:induction false} RunPreservesValid(s: State, events: seq<Event>)
    requires Valid(s)
    ensures Valid(Run(s, events))
    decreases |events|
  {
    if |events| > 0 {
      StepPreservesValid(s, events[0]);
      RunPreservesValid(Step(s, events[0]).next, events[1..]);
    }
  }

  /** Every state the plugin can reach from being enabled is valid. */
  lemma {:induction false} ReachableValid(events: seq<Event>)
    ensures Valid(Run(Init, events))
  {
    InitValid();
    RunPreservesValid(Init, events);
  }

  /** In a valid state, no two players share a session world. */
  lemma WorldsDistinct(s: State, p: string, q: string)
    requires Valid(s)
    requires p in s.worlds && q in s.worlds && p != q
    ensures s.worlds[p] != s.worlds[q]
  {
  }

  /** Only a restart or a fall can lower a player's distance, and no event removes it. */
  lemma DistanceMonotoneStep(s: State, e: Event, p: string)
    requires p in s.distances
    requires !Restarts(e, p) && !FallsFor(e, p)
    ensures p in Step(s, e).next.distances
    ensures s.distances[p] <= Step(s, e).next.distances[p]
  {
  }

  /** Between restarts and falls, a player's distance never decreases. */
  lemma {:induction false} DistanceMonotoneRun(s: State, events: seq<Event>, p: string)
    requires p in s.distances
    requires forall i :: 0 <= i < |events| ==> !Restarts(events[i], p) && !FallsFor(events[i], p)
    ensures p in Run(s, events).distances
    ensures s.distances[p] <= Run(s, events).distances[p]
    decreases |events|
  {
    if |events| > 0 {
      DistanceMonotoneStep(s, events[0], p);
      DistanceMonotoneRun(Step(s, events[0]).next, events[1..], p);
    }
  }

  /** A player without a session is unaffected by anything except starting one. */
  lemma {:induction false} InactiveStep(s: State, e: Event, p: string)
    requires p !in s.worlds
    requires !Restarts(e, p)
    ensures SameEntries(s, Step(s, e).next, p)
  {
  }

  /** After quitting, a player's entries stay frozen until the player starts again. */
  lemma {:induction false} InactiveRun(s: State, events: seq<Event>, p: string)
    requires p !in s.worlds
    requires forall i :: 0 <= i < |events| ==> !Restarts(events[i], p)
    ensures SameEntries(s, Run(s, events), p)
    decreases |events|
  {
    if |events| > 0 {
      var t := Step(s, events[0]).next;
      InactiveStep(s, events[0], p);
      InactiveRun(t, events[1..], p);
    }
  }

  /** A move right after quitting changes nothing and calls nothing. */
  lemma QuitThenMove(s: State, p: string, x: real, y: real)
    ensures var q := OnQuit(s, p).next;
            OnMove(q, p, x, y) == Transition(q, [])
  {
  }

  /** Handling three events is handling the first, then the second, then the third. */
  lemma {:induction false} RunThree(s: State, a: Event, b: Event, c: Event)
    ensures Run(s, [a, b, c]) == Step(Step(Step(s, a).next, b).next, c).next
  {
    var s1 := Step(s, a).next;
    var s2 := Step(s1, b).next;
    assert [a, b, c][1..] == [b, c];
    assert [b, c][1..] == [c];
    assert [c][1..] == [];
    assert Run(s, [a, b, c]) == Run(s1, [b, c]);
    assert Run(s1, [b, c]) == Run(s2, [c]);
    assert Run(s2, [c]) == Run(Step(s2, c).next, []);
  }

  /** Start, progress to X = 40, then fall: the distance reads 40 and then 0. */
  lemma {:induction false} ProgressThenFall(p: string)
    ensures var s := Run(Init, [Command(PlayerSender(p)), Move(p, 10.0, 65.0), Move(p, 40.5, 65.0)]);
            p in s.distances && s.distances[p] == 40
    ensures var s := Run(Init, [Command(PlayerSender(p)), Move(p, 40.5, 65.0), Move(p, 41.0, -0.5)]);
            p in s.distances && s.distances[p] == 0
  {
    RunThree(Init, Command(PlayerSender(p)), Move(p, 10.0, 65.0), Move(p, 40.5, 65.0));
    RunThree(Init, Command(PlayerSender(p)), Move(p, 40.5, 65.0), Move(p, 41.0, -0.5));
    var s1 := Start(Init, p).next;
    TruncOfWhole(10);
    assert OnMove(s1, p, 10.0, 65.0).next.distances[p] == 10;
    assert Trunc(40.5) == 40;
  }
}
