# InfinityParkour — a Dafny model of the session logic and the section generator

InfinityParkour is a PocketMine-MP plugin. A player runs the plugin's command
to start a parkour session. The plugin creates a flat world named after the
player. It places short runs of grass blocks in that world, and it tracks how
far along X the player has got.

This project models the two pieces of sequential logic in the plugin's `Main`
class and its `ParkourTask`:

- **Session progress** (`sessions.dfy`, module `Sessions`). The plugin's state is
  two maps keyed by player name. `worlds` maps a player to the world of their
  session. `distances` maps a player to the furthest whole X coordinate reached
  since the session started or since the last fall. The plugin reacts to three
  host events: the start command, a player move and a player quit. Each one is
  a pure transition that returns the next state and, in order, the calls the
  plugin would make into the game server (`Effect`): creating or deleting a
  world, teleporting, sending a chat notice, redrawing the scoreboard. These
  calls are recorded, not performed. `Run` folds a sequence of events. The
  invariant `Valid` holds in every reachable state:
  - every active player also has a distance;
  - every session world is named after its player;
  - no distance is negative.
- **World names** (`world_names.dfy`, module `WorldNames`). A session world is
  named `parkour_` followed by the player's name. `PlayerOfWorld` reads the
  player back out of a world name, and the two are proved to be inverses.
- **Coordinate truncation** (`coordinates.dfy`, module `Coordinates`). Positions
  are mathematical reals. PHP's `(int)` cast is defined as truncation toward
  zero.
- **PHP loose comparison** (`php_values.dfy`, module `PhpValues`). This module
  defines PHP's `>` between integers and null, as the plugin's distance
  comparison sees it. A null operand makes both sides compare as booleans.
- **Section generator** (`track.dfy`, module `Track`). One run of the repeating
  task places five blocks, starting at (100, 64, 0). After each block it steps
  `rand(2, 4)` along X and `rand(-1, 1)` along Y. The random draws are passed
  in as a sequence of five offset pairs, so the generator is a pure function of
  them. `GenerateSection` follows the source loop. `BlockAt` gives the
  closed-form position of each block, and the loop is proved to agree with it.

Behaviour the model makes explicit:

- A fall resets the distance to 0, but the scoreboard is not redrawn. It keeps
  showing the old distance until the player next improves on 0.
- Restarting while a session is active overwrites both entries and records a
  second world creation. The old world is not deleted first.
- The fifth pair of draws is made but never used (`BlockAtPrefix`).
- If a registered player had no distance entry, PHP would read the missing
  entry as null, and an integer compares greater than null exactly when it is
  non-zero (`Exceeds`). `Valid` shows this state cannot be reached from an
  empty start while every host call succeeds. In the plugin, start records the
  world before it teleports and writes the distance only afterwards, so a
  failing teleport would leave exactly this state behind.

A restart simply overwrites both of the player's entries and schedules one
more generator task. Neither a restart nor a quit cancels a task already
scheduled. Every run of a task lays five new blocks from (100, 64, 0) with
fresh draws, within X 100..116 and Y 60..68, on top of those already placed.

## Model

| member | source | states |
|---|---|---|
| Coordinates.Trunc | src/Luthfi/InfinityParkour/Main.php:114 | the `(int)` cast of the X coordinate lies within 1 of it, on the side toward zero |
| Coordinates.TruncOfWhole | src/Luthfi/InfinityParkour/Main.php:114 | a whole X coordinate is kept unchanged as the distance |
| Coordinates.TruncNegate | src/Luthfi/InfinityParkour/Main.php:114 | the cast truncates toward zero, so it is symmetric about 0 |
| Coordinates.TruncMonotone | src/Luthfi/InfinityParkour/Main.php:114 | a position further along X never yields a smaller distance |
| Coordinates.TruncNearZero | src/Luthfi/InfinityParkour/Main.php:114 | any X strictly between -1 and 1 gives distance 0 |
| WorldNames.WorldName | src/Luthfi/InfinityParkour/Main.php:57 | a session world's name is the prefix `parkour_` followed by exactly the player's name |
| WorldNames.PlayerOfWorld | src/Luthfi/InfinityParkour/Main.php:57 | inverse of the world-name construction: defined exactly on names that carry the `parkour_` prefix, yielding the rest of the name |
| WorldNames.WorldNameRoundTrip | src/Luthfi/InfinityParkour/Main.php:57 | the player can be read back from their world's name |
| WorldNames.PlayerOfWorldRoundTrip | src/Luthfi/InfinityParkour/Main.php:57 | every recognised session world is the world of the player read from it |
| WorldNames.WorldNameInjective | src/Luthfi/InfinityParkour/Main.php:57-59 | different players never get the same world name |
| Sessions.Start | src/Luthfi/InfinityParkour/Main.php:56-73 | start maps the player to `parkour_<name>` and their distance to 0; an earlier entry is overwritten, not duplicated; other players keep their entries; creates the world and schedules the generator every 20 ticks, then teleports, notifies and shows distance 0 |
| Sessions.OnCommand | src/Luthfi/InfinityParkour/Main.php:47-54 | only a player can start a session; from the console the state is unchanged and an in-game-only notice is sent |
| Sessions.Exceeds | src/Luthfi/InfinityParkour/Main.php:115 | the comparison agrees with PHP's loose `>` between the truncated X and the stored entry, read as null when missing |
| PhpValues.IntGreaterThanNull | src/Luthfi/InfinityParkour/Main.php:115 | under PHP's loose comparison an integer is greater than null exactly when it is non-zero |
| Sessions.OnMove | src/Luthfi/InfinityParkour/Main.php:105-121 | a move of an unregistered player changes nothing; below Y = 0 the distance becomes 0 whatever X is; otherwise it becomes the larger of the old distance and the truncated X, and with no stored distance any non-zero truncated X is stored, even a negative one; the scoreboard is redrawn exactly on a strict increase; registrations and other players are untouched |
| Sessions.OnQuit | src/Luthfi/InfinityParkour/Main.php:97-103 | quit removes the player's world entry and deletes that world; distances are untouched; quitting without a session changes nothing |
| Sessions.Step | src/Luthfi/InfinityParkour/Main.php:47-121 | an event leaves the entries of every player it is not about unchanged, in both maps |
| Sessions.StepPreservesValid | src/Luthfi/InfinityParkour/Main.php:56-121 | every handler keeps every active player's distance present, every world named after its player, and every distance non-negative |
| Sessions.RunPreservesValid | src/Luthfi/InfinityParkour/Main.php:56-121 | any sequence of events keeps the state valid |
| Sessions.ReachableValid | src/Luthfi/InfinityParkour/Main.php:31-32 | every state reachable from the initial empty maps is valid |
| Sessions.WorldsDistinct | src/Luthfi/InfinityParkour/Main.php:57-59 | in a reachable state no two active players share a world |
| Sessions.DistanceMonotoneStep | src/Luthfi/InfinityParkour/Main.php:107-117 | an event that is neither a restart nor a fall of the player never lowers or removes their distance |
| Sessions.DistanceMonotoneRun | src/Luthfi/InfinityParkour/Main.php:107-117 | between restarts and falls a player's distance never decreases |
| Sessions.InactiveStep | src/Luthfi/InfinityParkour/Main.php:97-107 | for a player without a session, any event except their own start leaves their entries unchanged |
| Sessions.InactiveRun | src/Luthfi/InfinityParkour/Main.php:97-107 | after a quit, a player's entries stay frozen until they start again |
| Sessions.QuitThenMove | src/Luthfi/InfinityParkour/Main.php:97-107 | a move straight after quitting is a no-op with no host calls |
| Sessions.ProgressThenFall | src/Luthfi/InfinityParkour/Main.php:105-117 | start, then moves to X = 10 and X = 40.5, gives distance 40; start, a move to X = 40.5 and a fall give distance 0 |
| Track.BlockAtNext | src/Luthfi/InfinityParkour/Main.php:157-161 | each block lies exactly one iteration's draws beyond the previous one |
| Track.BlockBounds | src/Luthfi/InfinityParkour/Main.php:154-161 | with in-range draws, block i lies between 2i and 4i beyond X = 100, within i of Y = 64, at Z = 0 |
| Track.BlockXIncreasing | src/Luthfi/InfinityParkour/Main.php:157-159 | blocks placed later lie strictly further along X |
| Track.BlockAtPrefix | src/Luthfi/InfinityParkour/Main.php:157-161 | a block depends only on the draws made before it is placed |
| Track.SectionShape | src/Luthfi/InfinityParkour/Main.php:153-161 | five blocks in closed form start at (100, 64, 0), stay at Z = 0, step 2–4 in X and −1..+1 in Y, increase strictly in X, and lie within X 100..116 and Y 60..68 |
| Track.GenerateSection | src/Luthfi/InfinityParkour/Main.php:153-162 | the loop places exactly five blocks, each at its closed-form position, and the section has the shape above |

## Left out

- World creation, loading and unloading through the host's level manager, and the scheduling of the repeating task (`Main.php:66-74`). These are calls into the PocketMine runtime. Start only records them as a `CreateWorld` effect with the 20-tick period.
- `deleteWorld` and the recursive `deleteDirectory` (`Main.php:76-95`). These are filesystem I/O. Quit records them as a `DeleteWorld` effect.
- `onEnable` and `onDisable` (`Main.php:35-45`). These are config loading, event registration and deleting every world at shutdown, all host calls. The model starts from the empty maps (`Init`).
- The scoreboard's contents and title configuration (`Main.php:123-138`), the teleport targets, and the chat text and colours. These are UI. They appear only as `RefreshScoreboard`, `Teleport…` and `Notify` effects.
- `onCommand`'s return value, which is always `true` (`Main.php:53`). It carries no information.
- Repeated runs of `ParkourTask` every 20 ticks, and the block type placed. Only one run is modelled, as the list of coordinates it places.
- The randomness of `rand`. The draws are an input sequence, constrained to the ranges `rand` draws from.
- Coordinates.Trunc: models truncation of a real. It does not cover IEEE floats: no NaN or infinity, no rounding error, and no 64-bit range limit on the cast.
- Sessions.Start: assumes every host call succeeds, so the writes of the world entry and of the distance happen together. In the plugin they are separated by the teleport and the start message (`Main.php:60-61`). If either throws, the world entry is kept without a distance. If world creation at `Main.php:58` throws, neither entry is written. World creation itself uses `GenerationOptions`, a class the file never imports (`Main.php:68`). The model does not say what that does at run time.
- Sessions.OnMove: also assumes the teleport on a fall succeeds (`Main.php:110`), so the reset to 0 always happens.
- The "undefined array key" warning PHP emits when a registered player has no distance entry. The comparison itself is modelled (`Exceeds`). That state cannot be reached while every host call succeeds.
- PHP's conversion of numeric-string array keys to integers. It does not change which entries a lookup finds.
