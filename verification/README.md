# Quadball rules engine in Dafny

This project models the per-tick rules engine of a quadball simulation and
proves properties about it. Quadball is played with one volleyball, three
dodgeballs and six hoops by chasers, keepers, beaters and seekers. The
model covers the following:

- the entity records (`core/entities.py`) and the shared game state
  (`core/game_state.py`);
- the rule components in `core/game_logic/`:
  - the spatial index: squared distances and nearest-first lists;
  - kinematics, player contacts and the volleyball rules;
  - dodgeball pickups and beats, and the third-dodgeball rule;
  - penalties, boundaries and restarts, and player actions;
  - the orchestrator that runs one frame;
- the hoop-blockage detour of the computer players
  (`MoveAroundHoopBlockage.__call__` in `computer_player/computer_player_utility.py`).

Files and modules:

- `wrappers.dfy` (`Wrappers`): `Option`, `Result` and the `Outcome` of a step
  that may raise; the errors are named after the Python exception they model.
- `numerics.dfy`, `vectors.dfy`: `Vector2` algebra, reflection, and the
  square-root function every length goes through.
- `json.dfy`, `entities.dfy`: the JSON values `serialize`/`deserialize` use;
  players, balls and hoops as datatypes.
- `game_state.dfy` (`State`): `class GameState`, whose players, balls and
  hoops live in id-keyed maps beside their dict insertion order (every scan
  of the source follows that order), with its lookups and updates.
- `utility_logic.dfy`, `basic_logic.dfy`, `physical_contact_logic.dfy`,
  `volleyball_logic.dfy`, `dodgeball_logic.dfy`, `penalty_logic.dfy`,
  `boundary_logic.dfy` with `free_ways.dfy`, `process_action_logic.dfy`,
  `game_logic.dfy`: one class per rule component, sharing one `GameState`.
- `computer_player_utility.dfy`: the detour computation as functions and a
  small class with its scanning loops.

How the model is built:

- Each rule step is a pure specification function on the tables it touches.
  The component's `method` performs the step in place, with the source's
  loops, and is proved to leave exactly the state the function describes.
- Lemmas then state what the rules promise about those functions:
  - a pickup hands the ball over and changes nothing else;
  - a beat knocks out and never revives;
  - a goal adds exactly 10 points;
  - the distance tables hold exactly the non-skipped pairs;
  - the clamp puts balls on the pitch;
  - the detour aims at the buffered corner.
- A Python exception is an `Outcome` or `Result` failure that stops the frame.
  This covers a `KeyError` on a missing id, an `AttributeError` on a field a
  record never declared, and a `ZeroDivisionError`.
- Several of the source's own behaviours are stated as lemmas rather than
  corrected:
  - a tackle that finds an opponent raises, since players have no tackling list;
  - a ball never deserializes, because the constructor call omits its radius;
  - the distance tables are never cleared, so stale pairs persist;
  - turnover designation does not check for knocked-out players;
  - the team-1 keeper-zone test reaches back to the left boundary.

Numbers are `real`. Every square root goes through a parameter
`sqrt: real -> real` constrained by `Numerics.IsSqrt`. The random draws are
parameters too:

- `randint(0, 1)` of the interference tie-break becomes `tieBreak`;
- `random.uniform(0.95, 1.05)` of the free-way pushes becomes `jitter(scan, id)`, a separate pair of draws for each of the two scans and each pushed player;
- `random.choice([-1, 1])` becomes `sign`.

A frame (`Game.GameLogic.Update`) runs in the source's order:

1. the clock;
2. player velocities;
3. contacts;
4. ball velocities;
5. positions;
6. both free ways;
7. hoop blockage;
8. revival;
9. the distance rebuild;
10. ball collisions;
11. volleyball possessions;
12. dodgeball interactions;
13. goals;
14. the third dodgeball;
15. delay of game;
16. the pitch clamp.

Contact resolution therefore reads the previous frame's nearest-first lists.

## Model

| member | source | states |
|---|---|---|
| Vectors.FromDict | core/entities.py:50-52 | `Vector2.from_dict` fails with a TypeError on a non-object and with KeyError("x") when the x coordinate is missing |
| Vectors.AddSubCancel | core/entities.py:24-28 | `Vector2.__add__` and `__sub__`, componentwise, cancel each other: `(a + b) - b == a` and `(a + b) - a == b` |
| Vectors.Sub | core/entities.py:27-28 | `a - b` is the zero vector exactly when `a == b` |
| Vectors.Scale | core/entities.py:30-31 | `v * 1` is `v` and `v * 0` is the zero vector |
| Vectors.DotFacts | core/entities.py:37 | the dot product written out inline in `reflect` is symmetric, and a vector with itself gives its squared length |
| Vectors.ToTuple | core/entities.py:33-34 | `from_tuple(v.to_tuple()) == v` |
| Vectors.ToDict | core/entities.py:47-48 | `from_dict(v.to_dict())` succeeds with `v` |
| Vectors.ReflectAcross | core/entities.py:36-41 | a vector orthogonal to the normal is only scaled by `1 - reflect_loss`, and a loss of 1 stops every vector |
| Vectors.NormSqScale | core/entities.py:30-31 | `v * c` scales the squared length by `c * c` |
| Vectors.TupleRoundTrip | core/entities.py:33-45 | `Vector2.from_tuple` is also a left inverse: `from_tuple(t).to_tuple() == t` |
| Vectors.ReflectNormal | core/entities.py:36-41 | with a unit normal and no loss, the reflection negates the normal component |
| Vectors.ReflectTangent | core/entities.py:36-41 | with no loss, the reflection keeps every component orthogonal to the normal |
| Vectors.ReflectTwice | core/entities.py:36-41 | with a unit normal and no loss, reflecting twice gives back the vector |
| Vectors.ReflectNorm | core/entities.py:36-41 | with a unit normal, the reflection's squared length is `(1 - loss)^2` times the original |
| Entities.RoleFrom | core/entities.py:6-11 | `PlayerRole(value)` accepts exactly the four role names, and a decoded role encodes back to its input; anything else is a ValueError |
| Entities.RoleRoundTrip | core/entities.py:6-11 | every role decodes from its own value |
| Entities.HasBallFromJson | core/entities.py:66 | a decoded `has_ball` (False, None or a ball id) encodes back to the same JSON value |
| Entities.DeserializePlayer | core/entities.py:91-102 | `Player.deserialize` resets direction to zero, contacts to empty, cooldown to 0 and inbounding to None; a missing "id" is KeyError("id") |
| Entities.SerializePlayer | core/entities.py:78-102 | `Player.serialize` writes an object that `Player.deserialize` reads back as the player with its transient fields reset (`Restored(p)`) |
| Entities.SerializeBall | core/entities.py:120-139 | `Ball.serialize` writes an object that `Ball.deserialize` cannot read back: the constructor misses the radius |
| Entities.SerializeHoop | core/entities.py:196-214 | `Hoop.serialize` writes an object that `Hoop.deserialize` reads back as the same hoop |
| Entities.PlayerRoundTrip | core/entities.py:78-102 | `deserialize(serialize(p))` succeeds and keeps id, team, role, position, velocity, knockout and `has_ball`, with every other field at its default |
| Entities.PlayerFieldsRoundTrip | core/entities.py:78-102 | each serialized field group (identity, position, velocity, status) reads back unchanged |
| Entities.PlayerVectorsRoundTrip | core/entities.py:84-99 | the serialized position and velocity read back unchanged |
| Entities.PlayerStatusRoundTrip | core/entities.py:87-101 | the serialized knockout flag and `has_ball` read back unchanged |
| Entities.DeserializeBall | core/entities.py:130-139 | `Ball.deserialize` always fails: the constructor call omits the required radius |
| Entities.BallRoundTripFails | core/entities.py:120-139 | the ball round trip fails for every ball, on the missing radius |
| Entities.DeserializeHoop | core/entities.py:206-214 | `Hoop.deserialize` defaults the thickness to 0.1 and the position to the origin; an empty object cannot give a string id |
| Entities.HoopRoundTrip | core/entities.py:196-214 | `Hoop.deserialize(h.serialize()) == h` |
| State.GetPlayer | core/game_state.py:46-48 | `get_player` returns the stored player exactly when the id is a key, and then exactly for the ids in table order |
| State.GetBall | core/game_state.py:65-67 | `get_ball` returns the stored ball exactly when the id is a key, and then exactly for the ids in table order |
| State.WithPlayer | core/game_state.py:37-39 | after `add_player` the player is found under its id, every other lookup is unchanged, the old order is a prefix of the new one, longer by at most the new id, and balls and hoops stay |
| State.WithoutPlayer | core/game_state.py:41-44 | after `remove_player` the id is not found, every other lookup is unchanged, the order loses exactly that id if it was stored, and balls and hoops stay |
| State.ReplacingPlayer | core/game_state.py:92-95 | `update_player` keeps the keys and their order, puts a stored player's new value under its id and changes no other lookup |
| State.WithBall | core/game_state.py:61-63 | after `add_ball` the ball is found under its id, every other lookup is unchanged, the old order is a prefix of the new one, and players and hoops stay |
| State.VolleyballIn | core/game_state.py:69-74 | the first id in dict order whose ball is a volleyball; None exactly when no listed ball is one |
| State.GetVolleyball | core/game_state.py:69-74 | `get_volleyball` finds a volleyball when one exists and None otherwise |
| State.DodgeballsIn | core/game_state.py:76-78 | exactly the listed ids whose ball is a dodgeball, in order, without repeats |
| State.GetDodgeballs | core/game_state.py:76-78 | `get_dodgeballs` lists exactly the stored dodgeballs, each once (its order is that of `DodgeballsIn` over the ball order) |
| State.DodgeballsInOrder | core/game_state.py:76-78 | the filter keeps table order: the dodgeballs of `a + b` are those of `a` followed by those of `b` |
| State.PlayersWhere | core/game_state.py:50-59 | exactly the stored players that pass the optional team and role filters |
| State.GetPlayersByTeam | core/game_state.py:50-52 | exactly the players of the team |
| State.GetPlayersByRole | core/game_state.py:54-59 | exactly the players of the role, and of the team when one is given |
| State.AddScore | core/game_state.py:80-83 | a team other than 0 or 1 leaves the score alone; otherwise only that team's entry grows by the points; a too-short score list is an IndexError |
| State.AdvanceClock | core/game_state.py:85-90 | game time grows by dt, the seeker flag latches once time reaches the seeker floor, and nothing else changes |
| State.Without | core/game_state.py:41-44 | removing an id from the insertion order keeps every other id and keeps them distinct |
| State.Serialize | core/game_state.py:97-122 | reading back a serialized state fails with the ball constructor's missing radius as soon as there is a ball; a state without balls comes back with players `Restored`, hoops, score, clock, seeker flag, set score and phase kept and everything else at its default |
| State.Deserialize | core/game_state.py:110-122 | `deserialize` of a non-object fails on `get`; a decoded state has consistent tables, no balls (no ball can be decoded) and the default configuration, distance tables and rule flags |
| State.DecodeTable | core/game_state.py:114-116 | a missing table decodes as empty, and a decoded table lists each of its keys once |
| State.DeserializeEntries | core/game_state.py:114-116 | a decoded dict comprehension lists each key once, in first-insertion order, and succeeds only if its first value decodes |
| State.EntriesRoundTrip | core/game_state.py:100-116 | a table serialized and read back entry by entry has the same keys in the same order, each value mapped through the entity round trip |
| State.PlayersTableRoundTrip | core/game_state.py:97-114 | the player table of a serialized state reads back in order with each player `Restored` |
| State.BallsTableRoundTrip | core/game_state.py:97-115 | the ball table of a serialized state fails at its first ball, and is empty when there is none |
| State.HoopsTableRoundTrip | core/game_state.py:97-116 | the hoop table of a serialized state reads back exactly, in order |
| State.StateRoundTrip | core/game_state.py:97-122 | the whole state round trip: failure on any ball, otherwise the state with players restored and every serialized scalar kept |
| State.ScoreRoundTrip | core/game_state.py:97-122 | the serialized score deserializes to itself |
| State.DeserializeDefaults | core/game_state.py:110-122 | an empty object deserializes to the default state: score [0, 0], time 0, phase "waiting" |
| State.BallEntriesFail | core/game_state.py:97-115 | a serialized, non-empty ball table cannot be decoded: it fails with the missing radius of its first ball |
| State.AddPlayerFacts | core/game_state.py:37-48 | after `add_player` the player is found under its id and every other lookup is unchanged |
| State.RemovePlayerFacts | core/game_state.py:41-48 | after `remove_player` the id is gone, other lookups are unchanged, and removing an absent id changes nothing |
| State.UpdatePlayerFacts | core/game_state.py:92-95 | `update_player` replaces a present player and ignores an absent one |
| State.GameState.constructor | core/game_state.py:6-35 | the default state under the given configuration |
| State.GameState.AddPlayer | core/game_state.py:37-39 | the state becomes the world with the player added |
| State.GameState.RemovePlayer | core/game_state.py:41-44 | the state becomes the world without the player |
| State.GameState.UpdatePlayer | core/game_state.py:92-95 | the state becomes the world with the player replaced |
| State.GameState.AddBall | core/game_state.py:61-63 | the state becomes the world with the ball added |
| State.GameState.UpdateScore | core/game_state.py:80-83 | the score becomes the `AddScore` result, or the error is reported with the score unchanged |
| State.GameState.UpdateGameTime | core/game_state.py:85-90 | the state becomes `AdvanceClock` of the old state |
| Basic.Kinematics | core/game_logic/basic_logic.py:27-48 | `update_player_velocity` fails only with a KeyError when a knocked-out player's team hoop is missing, or by dividing by zero in the cap |
| Basic.SteerUnit | core/game_logic/basic_logic.py:34-36 | a direction longer than 1 is rescaled to length exactly 1; a shorter one is kept |
| Basic.CapBounds | core/game_logic/basic_logic.py:40-48 | the capped velocity is never faster than `max_speed`; the cap divides by zero exactly when the speed is 0 and `max_speed` is negative |
| Basic.CapStops | core/game_logic/basic_logic.py:46-48 | a player slower than `min_speed` with a direction shorter than `min_dir` stops |
| Basic.KinematicsEffect | core/game_logic/basic_logic.py:27-48 | velocity at most `max_speed`; direction normalised when longer than 1; a knocked-out player recovers exactly when its direction is shorter than its radius plus its hoop's thickness; nothing else changes |
| Basic.KinematicsStops | core/game_logic/basic_logic.py:40-48 | a slow step with a short direction leaves the player standing |
| Basic.Aim | core/game_logic/basic_logic.py:68-83 | only the direction changes; it fails exactly when a knocked-out player's hoop is missing |
| Basic.Inbound | core/game_logic/basic_logic.py:84-109 | the inbounding step keeps the ball table's keys |
| Basic.PlayerStep | core/game_logic/basic_logic.py:65-110 | one player's step keeps the keys of both tables |
| Basic.Prepare | core/game_logic/basic_logic.py:68-109 | aiming and inbounding keep the keys of both tables |
| Basic.StepKeepsOthers | core/game_logic/basic_logic.py:65-110 | one player's step leaves every other player as it was |
| Basic.SteerAll | core/game_logic/basic_logic.py:64-110 | the loop over all players keeps the keys of both tables |
| Basic.VolleyballValue | core/game_logic/basic_logic.py:64 | the looked-up volleyball is a volleyball |
| Basic.KnockedOutHeadsHome | core/game_logic/basic_logic.py:68-70 | a knocked-out, non-inbounding player heads for its own hoop's centre and then takes the kinematic step |
| Basic.InboundingEnds | core/game_logic/basic_logic.py:90-109 | an inbounder that reached the ball stops, loses its immunity and inbounding, and the volleyball's inbounder is cleared, with the ball left where it is |
| Basic.InboundingApproaches | core/game_logic/basic_logic.py:84-89 | an inbounder not yet at the ball heads straight for it and nothing else changes |
| Basic.KeeperReturns | core/game_logic/basic_logic.py:71-83 | a keeper of the team owning a dead, held volleyball heads along x to its own side of the midline |
| Basic.SteerAllOthers | core/game_logic/basic_logic.py:65-110 | a player outside the scanned ids is untouched |
| Basic.FreeVelocityScales | core/game_logic/basic_logic.py:112-116 | friction scales the velocity by `1 - rate * dt` |
| Basic.TurnoverVelocity | core/game_logic/basic_logic.py:142-147 | aiming a turnover ball can fail only by dividing by zero |
| Basic.TurnoverVelocityBound | core/game_logic/basic_logic.py:142-147 | a turnover ball is never faster than the receiver's throw velocity, and a near receiver is aimed at exactly |
| Basic.BallStep | core/game_logic/basic_logic.py:130-161 | one ball's step keeps the keys of both tables |
| Basic.BallsStep | core/game_logic/basic_logic.py:130-161 | the loop over all balls keeps the keys of both tables |
| Basic.FreeBallRegime | core/game_logic/basic_logic.py:148-155 | a free ball slows by friction; a free dodgeball below its dead threshold loses its possession team; nothing else changes |
| Basic.HeldBallRegime | core/game_logic/basic_logic.py:156-161 | a held ball takes its holder's velocity and nothing else changes |
| Basic.TurnoverRegime | core/game_logic/basic_logic.py:139-147 | a ball in turnover to an awake receiver steers at it, never faster than the receiver's throw velocity |
| Basic.TurnoverRedesignated | core/game_logic/basic_logic.py:133-139 | a ball whose receiver is gone or knocked out is redesignated first, and keeps its velocity when no one is eligible |
| Basic.Advanced | core/game_logic/basic_logic.py:163-166 | a step of length zero keeps the position |
| Basic.Positions | core/game_logic/basic_logic.py:168-192 | moving all entities keeps the keys of both tables |
| Basic.MovePlayerEffect | core/game_logic/basic_logic.py:170-187 | previous position recorded, one Euler step, cooldown `max(0, cooldown - dt)`, a keeper immune exactly in its keeper zone, others' immunity kept |
| Basic.PositionsStandStill | core/game_logic/basic_logic.py:168-192 | with dt = 0 nothing moves; only the previous positions are recorded |
| Basic.TeamOneZoneQuirk | core/game_logic/basic_logic.py:179 | the team-1 keeper zone test holds for every x up to `keeper_zone_x_1 + r`, the left boundary included |
| Basic.ReflectKeepsSpeed | core/game_logic/basic_logic.py:254-255 | a loss-free reflection in a unit normal keeps the speed |
| Basic.BounceExchangesSpeeds | core/game_logic/basic_logic.py:244-260 | two moving balls that bounce swap speeds |
| Basic.BounceOneStanding | core/game_logic/basic_logic.py:228-243 | a standing ball takes over the moving ball's velocity and the mover stops; two standing balls do not bounce |
| Basic.CollidePair | core/game_logic/basic_logic.py:216-261 | one pair's collision keeps the table's keys and changes nothing when it fails |
| Basic.CollideRow | core/game_logic/basic_logic.py:216-261 | one ball against the rest keeps the table's keys |
| Basic.CollideAll | core/game_logic/basic_logic.py:210-261 | all pairs keep the table's keys |
| Basic.RowSkipped | core/game_logic/basic_logic.py:211-215 | a dead ball, or one in turnover, collides with nothing |
| Basic.SkippedPair | core/game_logic/basic_logic.py:216-222 | a pair with a dead, turnover or held ball is left alone |
| Basic.CollidingPair | core/game_logic/basic_logic.py:223-260 | overlapping free balls change only their velocities: swapped speeds when both move, a handover when one stands |
| Basic.BasicLogic.constructor | core/game_logic/basic_logic.py:16-25 | the component holds the shared state and the penalty component |
| Basic.BasicLogic.UpdatePlayerVelocity | core/game_logic/basic_logic.py:27-48 | the player becomes `Kinematics` of the old player and the outcome is reported |
| Basic.BasicLogic.PlayerKinematics | core/game_logic/basic_logic.py:27-48 | the step-by-step computation yields exactly `Kinematics` of the player, and changes nothing |
| Basic.BasicLogic.AimPlayer | core/game_logic/basic_logic.py:68-83 | the player becomes `Aim` of the old player, or the error is reported with the table unchanged |
| Basic.BasicLogic.InboundPlayer | core/game_logic/basic_logic.py:84-109 | player and balls become `Inbound` of the old ones |
| Basic.BasicLogic.PreparePlayer | core/game_logic/basic_logic.py:68-109 | aiming then inbounding leaves exactly the tables of `Prepare` |
| Basic.BasicLogic.SteerPlayer | core/game_logic/basic_logic.py:65-110 | the tables become `PlayerStep` of the old tables |
| Basic.BasicLogic.UpdatePlayerVelocities | core/game_logic/basic_logic.py:51-110 | the tables become `SteerAll` over every player of the old tables |
| Basic.BasicLogic.SteerAtReceiver | core/game_logic/basic_logic.py:139-147 | the ball's velocity becomes `TurnoverVelocity`, or the error is reported |
| Basic.BasicLogic.BallVelocity | core/game_logic/basic_logic.py:130-161 | the tables become `BallStep` of the old tables |
| Basic.BasicLogic.UpdateBallVelocities | core/game_logic/basic_logic.py:118-161 | the tables become `BallsStep` over every ball of the old tables |
| Basic.BasicLogic.MovePlayerAt | core/game_logic/basic_logic.py:170-187 | the player becomes `MovePlayer` of the old one |
| Basic.BasicLogic.MovePlayers | core/game_logic/basic_logic.py:170-187 | every player is moved by `MovePlayer` |
| Basic.BasicLogic.MoveBalls | core/game_logic/basic_logic.py:189-192 | every ball is moved by `MoveBall` |
| Basic.BasicLogic.UpdatePositions | core/game_logic/basic_logic.py:168-192 | the tables become `Positions` of the old tables |
| Basic.BasicLogic.CheckBallCollisions | core/game_logic/basic_logic.py:196-261 | the balls become `CollideAll` of the old balls |
| Basic.BasicLogic.CollidePairAt | core/game_logic/basic_logic.py:216-261 | the balls become `CollidePair` of the old balls |
| Basic.BasicLogic.CollideRowAt | core/game_logic/basic_logic.py:216-261 | the inner loop for one ball leaves exactly the balls of `CollideRow` |
| Basic.BasicLogic.BounceVelocities | core/game_logic/basic_logic.py:228-260 | the two new velocities are `Bounce` of the two balls |
| Contact.Touch | core/game_logic/physical_contact_logic.py:32-84 | one touching pair keeps the player table's keys |
| Contact.PairStep | core/game_logic/physical_contact_logic.py:28-84 | one candidate pair keeps the player table's keys |
| Contact.ContactRow | core/game_logic/physical_contact_logic.py:27-84 | one player's distance list keeps the player table's keys |
| Contact.ContactsFrom | core/game_logic/physical_contact_logic.py:23-84 | the scan from one player on keeps the player table's keys |
| Contact.ClearContacts | core/game_logic/physical_contact_logic.py:21-22 | every contact list is emptied and no player is added or lost |
| Contact.ResolveContacts | core/game_logic/physical_contact_logic.py:20-84 | the whole pass keeps the player table's keys |
| Contact.ExchangeConserves | core/game_logic/physical_contact_logic.py:77-84 | a push conserves the sum of the two velocities |
| Contact.TangentialPart | core/game_logic/physical_contact_logic.py:56-65 | the perpendicular part is orthogonal to a unit normal |
| Contact.ExchangeAverages | core/game_logic/physical_contact_logic.py:56-84 | after a push both normal components equal their mean and each tangential part is kept |
| Contact.ExchangeForm | core/game_logic/physical_contact_logic.py:56-84 | each new velocity is the mean normal part plus the player's own tangential part |
| Contact.MeanPlusTangent | core/game_logic/physical_contact_logic.py:56-84 | a velocity built that way has the mean as its normal component |
| Contact.ContactNormalUnit | core/game_logic/physical_contact_logic.py:37-45 | the contact normal, when it exists, has unit length |
| Contact.TouchEffect | core/game_logic/physical_contact_logic.py:32-84 | touching players record each other and change only contacts and velocities; every other player is untouched |
| Contact.SeparatingKeepVelocities | core/game_logic/physical_contact_logic.py:53-54 | players moving apart keep their velocities |
| Contact.SlowerPusherKeepsVelocities | core/game_logic/physical_contact_logic.py:66-75 | players moving the same way along the normal keep their velocities when the one behind is the slower |
| Contact.TouchLists | core/game_logic/physical_contact_logic.py:35-36 | each contact list gains the other's id, appended once |
| Contact.TouchConsistent | core/game_logic/physical_contact_logic.py:24-36 | a touch between two standing players keeps contacts mutual, irreflexive and among standing players |
| Contact.TouchEntry | core/game_logic/physical_contact_logic.py:32-36 | after a touch each player keeps its knock-out flag and its list grows by exactly the other party's id, if it is one of the two |
| Contact.MutualContactConsistent | core/game_logic/physical_contact_logic.py:24-36 | appending each party to the other's list, for two different standing players, keeps the contact lists consistent |
| Contact.TouchKeepsConsistent | core/game_logic/physical_contact_logic.py:24-36 | a touch between two standing players keeps contacts mutual, irreflexive and among standing players |
| Contact.TouchOnlyContacts | core/game_logic/physical_contact_logic.py:32-84 | a touch between two standing players changes only contact lists and velocities |
| Contact.RowConsistent | core/game_logic/physical_contact_logic.py:27-84 | one player's row keeps the contact lists consistent |
| Contact.FromConsistent | core/game_logic/physical_contact_logic.py:23-84 | the scan keeps the contact lists consistent |
| Contact.ResolveConsistent | core/game_logic/physical_contact_logic.py:20-84 | after the pass every contact is mutual, between two different standing players, and only contacts and velocities changed |
| Contact.KnockedOutUntouched | core/game_logic/physical_contact_logic.py:24-31 | a knocked-out player ends with no contacts and its velocity unchanged |
| Contact.PhysicalContactLogic.constructor | core/game_logic/physical_contact_logic.py:5-6 | the component holds the shared state |
| Contact.PhysicalContactLogic.ClearContactIds | core/game_logic/physical_contact_logic.py:21-22 | the players become `ClearContacts` of the old players |
| Contact.PhysicalContactLogic.TouchAt | core/game_logic/physical_contact_logic.py:32-84 | the players become `Touch` of the old players |
| Contact.PhysicalContactLogic.PairAt | core/game_logic/physical_contact_logic.py:28-84 | the players become `PairStep` of the old players |
| Contact.PhysicalContactLogic.TouchRow | core/game_logic/physical_contact_logic.py:27-84 | the players become `ContactRow` of the old players |
| Contact.PhysicalContactLogic.CheckPlayerCollisions | core/game_logic/physical_contact_logic.py:8-84 | the players become `ResolveContacts` of the old players over the insertion order and the previous distance lists |
| Penalty.Assign | core/game_logic/penalty_logic.py:126-143 | handing a ball to a candidate keeps the player and ball tables' keys |
| Penalty.TurnoverScan | core/game_logic/penalty_logic.py:120-143 | the nearest-first scan keeps the player and ball tables' keys |
| Penalty.Turnover | core/game_logic/penalty_logic.py:109-144 | designating a turnover keeps the player and ball tables' keys, reading a missing distance list as empty |
| Penalty.AssignTarget | core/game_logic/penalty_logic.py:127-138 | the ball's turnover target becomes the candidate, and a dodgeball's receiver is flagged as receiving |
| Penalty.AssignHolder | core/game_logic/penalty_logic.py:128-142 | the hand-over raises exactly when the ball names a holder missing from the table; otherwise the ball ends with no holder and a stored holder ends with no ball |
| Penalty.AssignKeeps | core/game_logic/penalty_logic.py:126-143 | a hand-over changes no knock-out flag, no ball's kind and no ball but the one handed over |
| Penalty.TurnoverPicksFirst | core/game_logic/penalty_logic.py:120-143 | the ball goes to the first eligible opponent in the nearest-first list |
| Penalty.TurnoverWithoutCandidate | core/game_logic/penalty_logic.py:144 | with no eligible opponent in the list nothing changes |
| Penalty.TurnoverKeeps | core/game_logic/penalty_logic.py:120-143 | a turnover changes no knock-out flag, no ball's kind and no ball but the one handed over |
| Penalty.CloseOpponentBlocks | core/game_logic/penalty_logic.py:63-74 | in an ascending distance list, any opponent chaser or keeper closer than 2, or loaded beater closer than 4, prevents the delay |
| Penalty.NoCloseOpponent | core/game_logic/penalty_logic.py:63-74 | without such a close opponent the scan never prevents the delay |
| Penalty.DelayVelocity | core/game_logic/penalty_logic.py:34-79 | a nonzero delay needs a live, possessed volleyball that is not inbounded or turned over and is slow in its own half; the only failure is the KeyError of a missing distance list |
| Penalty.DelayVelocityValue | core/game_logic/penalty_logic.py:63-79 | for a slow volleyball in play the delay is 0 when a close opponent exists, and otherwise the shortfall below the threshold in the team's forward direction |
| Penalty.DelayVelocityPositive | core/game_logic/penalty_logic.py:55-79 | a positive delay means the volleyball moves forward strictly slower than the threshold |
| Penalty.Warn | core/game_logic/penalty_logic.py:84-96 | a warning keeps the player and ball tables' keys |
| Penalty.RunTimer | core/game_logic/penalty_logic.py:82-96 | advancing the delay timer keeps the player and ball tables' keys |
| Penalty.DelayOfGame | core/game_logic/penalty_logic.py:25-107 | the whole delay-of-game check keeps the player and ball tables' keys |
| Penalty.WarnEffect | core/game_logic/penalty_logic.py:85-96 | the team's warning count rises by one from 0 when absent; up to the maximum only the timer restarts, beyond it the volleyball is turned over |
| Penalty.DelayTimerRuns | core/game_logic/penalty_logic.py:82-84 | a positive delay below the limit only adds dt times the delay to the volleyball's timer |
| Penalty.DelayTimerWarns | core/game_logic/penalty_logic.py:83-96 | at the limit the possessing team is warned with the timer already advanced |
| Penalty.DelayTimerResets | core/game_logic/penalty_logic.py:97-107 | with no delay only the volleyball's timer changes: it restarts unless an immune keeper holds the volleyball |
| Penalty.Priorities | core/game_logic/penalty_logic.py:168-179 | every other listed dodgeball gets its priority (1 unpossessed, 2 held by the other team, plus 0.5 without holder), and only the offending ball is skipped |
| Penalty.PickSecond | core/game_logic/penalty_logic.py:180-190 | fewer than two candidates raise the ValueError; otherwise the higher of the first two priorities wins and a tie goes to the random index |
| Penalty.ResetBeatTimes | core/game_logic/penalty_logic.py:204-205 | resetting the beat-attempt times keeps the ball table's keys |
| Penalty.TurnVolleyball | core/game_logic/penalty_logic.py:193-195 | the volleyball turnover keeps the player and ball tables' keys |
| Penalty.TurnDodgeballs | core/game_logic/penalty_logic.py:196-199 | the two dodgeball turnovers keep the player and ball tables' keys |
| Penalty.Penalise | core/game_logic/penalty_logic.py:191-205 | the penalty's turnovers and resets keep the player and ball tables' keys |
| Penalty.InterferenceStep | core/game_logic/penalty_logic.py:146-205 | the whole interference ruling keeps the player and ball tables' keys |
| Penalty.InterferenceHasSecond | core/game_logic/penalty_logic.py:182-183 | with three or more distinct dodgeballs there are at least two others, so the ValueError cannot occur |
| Penalty.TurnDodgeballsKeepKnockouts | core/game_logic/penalty_logic.py:196-199 | the dodgeball turnovers change no knock-out flag |
| Penalty.PenaliseKeepsKnockouts | core/game_logic/penalty_logic.py:191-205 | the penalty's turnovers change no knock-out flag |
| Penalty.PenaliseClears | core/game_logic/penalty_logic.py:201-205 | a completed penalty leaves no third dodgeball, no third-dodgeball team, nothing pending and every dodgeball's beat time at 0 |
| Penalty.InterferenceEffect | core/game_logic/penalty_logic.py:163-205 | without a beat attempt the offender is knocked out and a completed ruling clears the third-dodgeball state and beat times |
| Penalty.InterferenceDeferred | core/game_logic/penalty_logic.py:157-162 | during a beat attempt the interference is only recorded as pending |
| Penalty.PenaltyLogic.constructor | core/game_logic/penalty_logic.py:16-23 | the component keeps the shared game state |
| Penalty.PenaltyLogic.AssignTurnover | core/game_logic/penalty_logic.py:126-143 | the in-place hand-over leaves exactly the tables of `Assign` |
| Penalty.PenaltyLogic.DesignateTurnover | core/game_logic/penalty_logic.py:109-144 | the loop over the distance list leaves exactly the tables of `Turnover` |
| Penalty.PenaltyLogic.CheckDelayOfGame | core/game_logic/penalty_logic.py:25-107 | the in-place check leaves exactly the tables and warning counts of `DelayOfGame` |
| Penalty.PenaltyLogic.AdvanceTimer | core/game_logic/penalty_logic.py:82-96 | the timer update leaves exactly the state of `RunTimer` |
| Penalty.PenaltyLogic.WarnTeam | core/game_logic/penalty_logic.py:85-96 | the warning leaves exactly the state of `Warn` |
| Penalty.PenaltyLogic.SecondDodgeballPriorities | core/game_logic/penalty_logic.py:168-179 | the loop builds exactly the table of `Priorities` |
| Penalty.PenaltyLogic.ResetBeatTimers | core/game_logic/penalty_logic.py:204-205 | the loop leaves exactly the ball table of `ResetBeatTimes` |
| Penalty.PenaltyLogic.ThirdDodgeballInterference | core/game_logic/penalty_logic.py:146-205 | the in-place ruling leaves exactly the state of `InterferenceStep` |
| Penalty.PenaltyLogic.CarryOut | core/game_logic/penalty_logic.py:191-205 | the turnovers and resets leave exactly the state of `Penalise` |
| Penalty.PenaltyLogic.HandOverVolleyball | core/game_logic/penalty_logic.py:193-195 | leaves exactly the tables of `TurnVolleyball` |
| Penalty.PenaltyLogic.HandOverDodgeballs | core/game_logic/penalty_logic.py:196-199 | leaves exactly the tables of `TurnDodgeballs` |
| DodgeballRules.Take | core/game_logic/dodgeball_logic.py:47-54 | a pickup keeps the player and ball tables' keys |
| DodgeballRules.PossessionAttempt | core/game_logic/dodgeball_logic.py:24-56 | the attempt succeeds exactly for a beater off its catch cooldown holding nothing, and otherwise changes nothing |
| DodgeballRules.PickupEffect | core/game_logic/dodgeball_logic.py:47-55 | outside a third-dodgeball interference the ball and the player name each other, the ball passes to the player's team, a turnover is completed, and nothing else changes |
| DodgeballRules.ThirdDodgeballTouched | core/game_logic/dodgeball_logic.py:43-45 | a beater of the team the third dodgeball is not reserved for triggers the interference: recorded as pending during a beat attempt, otherwise the beater is knocked out |
| DodgeballRules.Deflect | core/game_logic/dodgeball_logic.py:129-137 | the only way the reflection fails is the division by a zero normal length |
| DodgeballRules.DeflectSpeed | core/game_logic/dodgeball_logic.py:129-137 | for apart centres the reflection succeeds and its squared speed is the old one times the square of 1 minus the loss |
| DodgeballRules.Drop | core/game_logic/dodgeball_logic.py:141-148 | dropping a knocked-out player's ball keeps the tables' keys |
| DodgeballRules.Beat | core/game_logic/dodgeball_logic.py:96-164 | the beat check keeps the tables' keys |
| DodgeballRules.Deflection | core/game_logic/dodgeball_logic.py:124-138 | the deflection of a team-mate's or an immune player's ball keeps the tables' keys |
| DodgeballRules.Knockout | core/game_logic/dodgeball_logic.py:139-164 | the knockout of an opponent keeps the tables' keys |
| DodgeballRules.HeldNeverBeats | core/game_logic/dodgeball_logic.py:122-123 | a held dodgeball changes nothing |
| DodgeballRules.FriendlyDeflection | core/game_logic/dodgeball_logic.py:124-138 | a team-mate or an immune player only deflects the ball: its possession is cleared, its squared speed scales by the square of 1 minus the loss, and no player or other ball changes (the docstring at dodgeball_logic.py:112-113 says a reflection keeps possession; the code clears it at line 127, and the model follows the code) |
| DodgeballRules.ThrowerPassesThrough | core/game_logic/dodgeball_logic.py:125-126 | the thrower still on its catch cooldown is not touched by its own ball |
| DodgeballRules.BeatKnocksOut | core/game_logic/dodgeball_logic.py:139-164 | a loose ball of another team knocks a non-immune player out; a completed beat leaves the player without a ball, clears the third-dodgeball state and resets every beat time |
| DodgeballRules.BeatDropsBall | core/game_logic/dodgeball_logic.py:141-148 | the ball the knocked-out player held lies without holder, possession or velocity |
| DodgeballRules.EntryStep | core/game_logic/dodgeball_logic.py:75-91 | one entry of the distance list keeps the tables' keys |
| DodgeballRules.React | core/game_logic/dodgeball_logic.py:75-91 | every reaction other than ignoring the entry is about a stored player |
| DodgeballRules.EntryIgnored | core/game_logic/dodgeball_logic.py:75-80 | a missing or knocked-out player, one out of reach, or a ball turned over to someone else changes nothing and does not stop the scan |
| DodgeballRules.InterferenceKeepsKnockouts | core/game_logic/penalty_logic.py:146-205 | the interference penalty revives nobody |
| DodgeballRules.AttemptKeepsKnockouts | core/game_logic/dodgeball_logic.py:24-56 | a pickup attempt revives nobody |
| DodgeballRules.BeatKeepsKnockouts | core/game_logic/dodgeball_logic.py:96-164 | a beat only ever knocks players out |
| DodgeballRules.EntryKeepsKnockouts | core/game_logic/dodgeball_logic.py:75-91 | no entry of the scan revives a player |
| DodgeballRules.DodgeRow | core/game_logic/dodgeball_logic.py:74-91 | one dodgeball's scan keeps the tables' keys |
| DodgeballRules.DodgeballsFrom | core/game_logic/dodgeball_logic.py:72-91 | the scans over the remaining dodgeballs keep the tables' keys |
| DodgeballRules.Interactions | core/game_logic/dodgeball_logic.py:58-91 | the whole interaction check keeps the tables' keys |
| DodgeballRules.RowKeepsKnockouts | core/game_logic/dodgeball_logic.py:74-91 | one dodgeball's scan revives nobody |
| DodgeballRules.DodgeballsFromKeepKnockouts | core/game_logic/dodgeball_logic.py:72-91 | the scans over the remaining dodgeballs revive nobody |
| DodgeballRules.InteractionsKeepKnockouts | core/game_logic/dodgeball_logic.py:58-91 | dodgeball play never revives a knocked-out player |
| DodgeballRules.Hold | core/game_logic/dodgeball_logic.py:265-267 | a held ball can be listed exactly for teams 0 and 1; any other team raises the KeyError |
| DodgeballRules.Throw | core/game_logic/dodgeball_logic.py:268-269 | a thrown ball can be listed exactly for teams 0 and 1; any other team raises the KeyError |
| DodgeballRules.Classify | core/game_logic/dodgeball_logic.py:263-269 | a classified ball adds exactly one entry, and only that ball is new |
| DodgeballRules.TimerStep | core/game_logic/dodgeball_logic.py:252-262 | the beat-timer step keeps the tables' keys, and the ball it goes on with is stored |
| DodgeballRules.TallyStep | core/game_logic/dodgeball_logic.py:251-269 | one pass keeps the tables' keys and classifies exactly one stored ball |
| DodgeballRules.TallyFrom | core/game_logic/dodgeball_logic.py:251-269 | the classification loop keeps the tables' keys |
| DodgeballRules.TallyCount | core/game_logic/dodgeball_logic.py:251-269 | a completed loop classifies exactly as many balls as it visits |
| DodgeballRules.TallyDeadAreLoose | core/game_logic/dodgeball_logic.py:251-264 | without a pending interference every ball listed as dead is stored and in nobody's possession |
| DodgeballRules.ThirdTeamIff | core/game_logic/dodgeball_logic.py:185-192 | with three balls classified, the third dodgeball goes to a team exactly when one ball is dead and the other team holds both others |
| DodgeballRules.StartBeatIdempotent | core/game_logic/dodgeball_logic.py:220-223 | starting a beat attempt twice is starting it once |
| DodgeballRules.StartBeats | core/game_logic/dodgeball_logic.py:218-223 | starting the beat attempts keeps the ball table's keys |
| DodgeballRules.Settle | core/game_logic/dodgeball_logic.py:276-285 | re-checking an existing third dodgeball keeps the tables' keys |
| DodgeballRules.ThirdDodgeball | core/game_logic/dodgeball_logic.py:194-285 | the third-dodgeball check keeps the tables' keys and changes nothing unless exactly three dodgeballs exist |
| DodgeballRules.ThirdIsLoose | core/game_logic/dodgeball_logic.py:270-275 | a newly designated third dodgeball is stored, in nobody's possession, and reserved for team 0 or 1 |
| DodgeballRules.ThirdLifts | core/game_logic/dodgeball_logic.py:204-207 | once the reserved team holds or throws a dodgeball the third-dodgeball state is cleared and every beat time resets |
| DodgeballRules.ThirdStays | core/game_logic/dodgeball_logic.py:208-235 | while the reserved team has no dodgeball, only the other team's loose thrown balls with stopped timers start a beat attempt |
| DodgeballRules.DodgeballLogic.constructor | core/game_logic/dodgeball_logic.py:13-22 | the component keeps the shared state and the penalty component |
| DodgeballRules.DodgeballLogic.TryPossession | core/game_logic/dodgeball_logic.py:24-56 | the in-place attempt leaves exactly the result of `PossessionAttempt` |
| DodgeballRules.DodgeballLogic.CheckBeats | core/game_logic/dodgeball_logic.py:96-164 | the in-place beat check leaves exactly the state of `Beat` |
| DodgeballRules.DodgeballLogic.DeflectOff | core/game_logic/dodgeball_logic.py:124-138 | the in-place deflection leaves exactly the state of `Deflection` |
| DodgeballRules.DodgeballLogic.KnockOut | core/game_logic/dodgeball_logic.py:139-164 | the in-place knockout leaves exactly the state of `Knockout` |
| DodgeballRules.DodgeballLogic.EntryAt | core/game_logic/dodgeball_logic.py:75-91 | one loop body leaves exactly the result of `EntryStep` |
| DodgeballRules.DodgeballLogic.ScanDodgeball | core/game_logic/dodgeball_logic.py:74-91 | the inner loop leaves exactly the state of `DodgeRow` |
| DodgeballRules.DodgeballLogic.CheckDodgeballInteractions | core/game_logic/dodgeball_logic.py:58-91 | the loops leave exactly the state of `Interactions` |
| DodgeballRules.DodgeballLogic.TallyAt | core/game_logic/dodgeball_logic.py:251-269 | one loop body leaves exactly the result of `TallyStep` |
| DodgeballRules.DodgeballLogic.ClassifyAll | core/game_logic/dodgeball_logic.py:251-269 | the classification loop leaves exactly the state and tally of `TallyFrom`, and every listed ball is stored |
| DodgeballRules.DodgeballLogic.CheckThirdDodgeball | core/game_logic/dodgeball_logic.py:194-285 | the in-place check leaves exactly the state of `ThirdDodgeball` |
| DodgeballRules.DodgeballLogic.SettleThird | core/game_logic/dodgeball_logic.py:276-285 | leaves exactly the state of `Settle` |
| DodgeballRules.DodgeballLogic.StartBeatAttempts | core/game_logic/dodgeball_logic.py:218-223 | the loop leaves exactly the ball table of `StartBeats` |
| VolleyballRules.PickupIndex | core/game_logic/volleyball_logic.py:29-52 | the volleyball goes to the first eligible candidate with no stopping entry before it; with none, every eligible candidate lies behind an entry that ends the scan |
| VolleyballRules.Pickup | core/game_logic/volleyball_logic.py:42-48 | a pickup keeps the player and ball tables' keys |
| VolleyballRules.Possessions | core/game_logic/volleyball_logic.py:8-52 | the possession check keeps the player and ball tables' keys |
| VolleyballRules.PossessionsEffect | core/game_logic/volleyball_logic.py:23-52 | when a loose volleyball has an eligible candidate (the first entry of its distance list found by `PickupIndex`), that player picks it up: the board changes, the ball's holder is that player, the player holds the ball, possession passes to the player's team and the turnover is cleared, and no other ball or player changes; with no loose volleyball or no eligible candidate nothing changes |
| VolleyballRules.HeldVolleyballStays | core/game_logic/volleyball_logic.py:24-27 | a held volleyball is never picked up |
| VolleyballRules.IneligiblePlayers | core/game_logic/volleyball_logic.py:34-38 | a beater, a seeker, a knocked-out player or one on catch cooldown never takes the volleyball nor ends the scan |
| VolleyballRules.BandHoop | core/game_logic/volleyball_logic.py:83-87 | the hoop found belongs to the team and its ring band holds the ball's y |
| VolleyballRules.BandHoopFirst | core/game_logic/volleyball_logic.py:83-93 | the hoop found is the first of the team's hoops in table order whose band holds y, since the loop breaks there; no hoop means no listed hoop of the team has a band holding y |
| VolleyballRules.Cross | core/game_logic/volleyball_logic.py:80-94 | one team's crossing check leaves a volleyball |
| VolleyballRules.CrossTeams | core/game_logic/volleyball_logic.py:79-94 | the crossing loop over both teams leaves a volleyball |
| VolleyballRules.Goals | core/game_logic/volleyball_logic.py:54-110 | the goal check keeps the ball table's keys |
| VolleyballRules.FractionBetween | core/game_logic/volleyball_logic.py:81-82 | the crossing fraction lies strictly between 0 and 1 exactly when the hoop's x lies strictly between the old and the new x |
| VolleyballRules.CrossingBetween | core/game_logic/volleyball_logic.py:81-82 | the ball crosses a hoop plane this tick exactly when the plane lies strictly between its previous and current x |
| VolleyballRules.CrossToggles | core/game_logic/volleyball_logic.py:80-94 | a crossing check either changes nothing, clears a recorded crossing, or records the crossing of a hoop of the team whose band holds the ball after the ball crossed that team's plane |
| VolleyballRules.GoalAwards | core/game_logic/volleyball_logic.py:95-110 | once the whole ball has passed a recorded hoop, that hoop's team gains 10 and no other score changes; the ball is loose, its crossing cleared, and dead for the team's keeper if one exists |
| VolleyballRules.GoalsScoreByTen | core/game_logic/volleyball_logic.py:54-110 | a goal check leaves the score alone or adds exactly 10 to one of the two teams |
| VolleyballRules.DeadVolleyballCannotScore | core/game_logic/volleyball_logic.py:75-78 | a dead volleyball, or one being turned over, never scores and is left alone |
| VolleyballRules.MakeAlive | core/game_logic/volleyball_logic.py:137-164 | making the volleyball alive keeps the ball table's keys |
| VolleyballRules.ReviveIff | core/game_logic/volleyball_logic.py:144-164 | only the dead flag may change, and a dead volleyball comes alive exactly when its own team's keeper holds it in its own half |
| VolleyballRules.ReviveNeverKills | core/game_logic/volleyball_logic.py:147-148 | a live volleyball is left as it is |
| VolleyballRules.VolleyballLogic.constructor | core/game_logic/volleyball_logic.py:5-6 | the component keeps the shared state |
| VolleyballRules.VolleyballLogic.CheckVolleyballPossessions | core/game_logic/volleyball_logic.py:8-52 | the in-place loop leaves exactly the tables of `Possessions` |
| VolleyballRules.VolleyballLogic.CrossAt | core/game_logic/volleyball_logic.py:80-94 | the loop over the hoops computes exactly `Cross` |
| VolleyballRules.VolleyballLogic.FindKeeper | core/game_logic/volleyball_logic.py:104-109 | the loop finds a keeper exactly when the team has one |
| VolleyballRules.VolleyballLogic.ConfirmAt | core/game_logic/volleyball_logic.py:95-110 | only the volleyball and the score change, as `Confirm` says |
| VolleyballRules.VolleyballLogic.CheckGoals | core/game_logic/volleyball_logic.py:54-110 | the in-place check leaves exactly the balls and score of `Goals` |
| VolleyballRules.VolleyballLogic.MakeVolleyballAlive | core/game_logic/volleyball_logic.py:137-164 | leaves exactly the ball table of `MakeAlive`, and nothing changes on the KeyError of a missing holder |
| Boundary.InbounderIndex | core/game_logic/boundary_logic.py:152-165 | the inbounder is the first entry of the nearest-first list that may inbound, and none exists when no entry may |
| Boundary.Appoint | core/game_logic/boundary_logic.py:161-164 | appointing an inbounder keeps the player and ball tables' keys |
| Boundary.StartInbounding | core/game_logic/boundary_logic.py:131-165 | the inbounding procedure keeps the player and ball tables' keys |
| Boundary.InboundingEffect | core/game_logic/boundary_logic.py:146-165 | when a volleyball has no inbounder and `InbounderIndex` finds the first opponent chaser or keeper in its distance list that is standing, holds nothing and is not inbounding, that player is appointed: the board changes, the player becomes inbounding and immune, the ball records the inbounder and has no holder, and no other ball or player changes; with no volleyball, an inbounder already set or no eligible player nothing changes |
| Boundary.InboundingOnce | core/game_logic/boundary_logic.py:146-150 | without a volleyball, or with an inbounder already appointed, nothing changes |
| Boundary.InboundingMovesNothing | core/game_logic/boundary_logic.py:161-164 | the appointment moves no player and no ball |
| Boundary.ClampBounds | core/game_logic/boundary_logic.py:92-93 | the clamp of `min(max(lo, x), hi)` lands in a non-empty interval and leaves exactly the values inside it alone |
| Boundary.ClampedInBounds | core/game_logic/boundary_logic.py:92-94 | a clamped position lies on the pitch, and a position is left alone exactly when it is on the pitch already |
| Boundary.ShiftPartners | core/game_logic/boundary_logic.py:120-126 | moving the contact partners keeps the player table's keys |
| Boundary.ShiftTranslates | core/game_logic/boundary_logic.py:120-126 | partners listed once are translated by exactly the clamp delta, and no other player or field changes |
| Boundary.DropOutside | core/game_logic/boundary_logic.py:106-118 | dropping the volleyball of a clamped player keeps the tables' keys |
| Boundary.DropOutsideCases | core/game_logic/boundary_logic.py:106-110 | a player without a ball changes nothing; a held id naming no ball raises on `ball_type`; a held dodgeball stays held and nothing changes |
| Boundary.DropOutsideEffect | core/game_logic/boundary_logic.py:108-118 | a held volleyball is put where the player stood, freed, the player marked as having dropped it, and the inbounding procedure started on that board |
| Boundary.InboundingKeepsHolds | core/game_logic/boundary_logic.py:118 | starting the inbounding procedure keeps a free ball free and changes no player's hold on a ball |
| Boundary.ClampPlayer | core/game_logic/boundary_logic.py:91-128 | one player's clamp keeps the tables' keys |
| Boundary.ClampBall | core/game_logic/boundary_logic.py:91-128 | one ball's clamp keeps the tables' keys |
| Boundary.ClampPlayers | core/game_logic/boundary_logic.py:91-128 | the player loop keeps the tables' keys |
| Boundary.ClampBalls | core/game_logic/boundary_logic.py:91-128 | the ball loop keeps the tables' keys |
| Boundary.PitchClamp | core/game_logic/boundary_logic.py:77-128 | the pitch boundary enforcement keeps the tables' keys |
| Boundary.ClampBallEffect | core/game_logic/boundary_logic.py:92-105 | a ball on the pitch is left alone; a ball off it is put back on the pitch and stopped, and no other ball moves and no radius changes |
| Boundary.ClampBallInbounding | core/game_logic/boundary_logic.py:92-105 | a free, live volleyball off the pitch is stopped, starts the inbounding procedure and is then put back on the pitch; any other ball off the pitch is only stopped and put back, starting nothing |
| Boundary.ClampPlayerEffect | core/game_logic/boundary_logic.py:92-128 | a player on the pitch is left alone; a player off it is put back on the pitch keeping its velocity, and partners listed once move by exactly its clamp delta |
| Boundary.DropKeepsPlaces | core/game_logic/boundary_logic.py:106-118 | dropping the volleyball moves no player |
| Boundary.ClampBallsInBounds | core/game_logic/boundary_logic.py:91-128 | after the ball loop every listed ball is on the pitch, and unlisted balls and every player stay where they were |
| Boundary.ClampPlayersInBounds | core/game_logic/boundary_logic.py:91-128 | with no contacts, a completed player loop leaves every listed player on the pitch and unlisted players in place |
| Boundary.PitchClampInBounds | core/game_logic/boundary_logic.py:77-128 | every ball ends on the pitch, and with no contacts a completed clamp leaves every player on the pitch too |
| Boundary.ClampPlayerKeepsRadii | core/game_logic/boundary_logic.py:91-128 | one player's clamp changes no ball's radius |
| Boundary.RadiiKept | core/game_logic/boundary_logic.py:91-128 | the player loop changes no ball's radius |
| Boundary.FirstHoop | core/game_logic/boundary_logic.py:41-55 | the hoop found is the first one in table order whose zone the chaser is not away from, and none is found when it is away from all |
| Boundary.ShiftX | core/game_logic/boundary_logic.py:71-73 | moving the partners along x keeps the player table's keys |
| Boundary.ShiftXTranslates | core/game_logic/boundary_logic.py:71-73 | partners listed once move by exactly the offset along x, and no other player or field changes |
| Boundary.Push | core/game_logic/boundary_logic.py:56-74 | the push out of a hoop keeps the tables' keys |
| Boundary.BlockChaser | core/game_logic/boundary_logic.py:40-74 | one chaser's hoop loop keeps the tables' keys |
| Boundary.BlockFrom | core/game_logic/boundary_logic.py:39-74 | the player loop keeps the tables' keys |
| Boundary.HoopBlockage | core/game_logic/boundary_logic.py:26-74 | the hoop blockage enforcement keeps the tables' keys |
| Boundary.PushedOut | core/game_logic/boundary_logic.py:56-74 | a pushed chaser ends on the zone's edge outside the open x band and stopped, keeping its y; the ball it holds is stopped and moved by the same offset, and partners listed once move by it too |
| Boundary.PushedPlayer | core/game_logic/boundary_logic.py:56-70 | the pushed chaser ends at the near edge of the zone, stopped, with its y and other fields kept |
| Boundary.PushedPartners | core/game_logic/boundary_logic.py:71-73 | the partners of the pushed chaser, listed once, move along x by the push offset |
| Boundary.OnlyChasersBlocked | core/game_logic/boundary_logic.py:40 | players other than chasers are never pushed |
| Boundary.BoundaryLogic.constructor | core/game_logic/boundary_logic.py:17-24 | the component keeps the shared state |
| Boundary.BoundaryLogic.StartInboundingProcedure | core/game_logic/boundary_logic.py:131-165 | the in-place procedure leaves exactly the tables of `StartInbounding` |
| Boundary.BoundaryLogic.ShiftPartnersAt | core/game_logic/boundary_logic.py:120-126 | the partner loop leaves exactly the players of `ShiftPartners` |
| Boundary.BoundaryLogic.ClampPlayerAt | core/game_logic/boundary_logic.py:91-128 | one player's clamp leaves exactly the tables of `ClampPlayer` |
| Boundary.BoundaryLogic.ClampBallAt | core/game_logic/boundary_logic.py:91-128 | one ball's clamp leaves exactly the tables of `ClampBall` |
| Boundary.BoundaryLogic.ClampAllPlayers | core/game_logic/boundary_logic.py:91-128 | the player loop leaves exactly the tables of `ClampPlayers` |
| Boundary.BoundaryLogic.ClampAllBalls | core/game_logic/boundary_logic.py:91-128 | the ball loop leaves exactly the tables of `ClampBalls` |
| Boundary.BoundaryLogic.EnforcePitchBoundaries | core/game_logic/boundary_logic.py:77-128 | leaves exactly the tables of `PitchClamp` |
| Boundary.BoundaryLogic.ShiftXAt | core/game_logic/boundary_logic.py:71-73 | the partner loop leaves exactly the players of `ShiftX` |
| Boundary.BoundaryLogic.PushAt | core/game_logic/boundary_logic.py:56-74 | the push leaves exactly the tables of `Push` |
| Boundary.BoundaryLogic.BlockChaserAt | core/game_logic/boundary_logic.py:41-74 | the hoop loop leaves exactly the tables of `BlockChaser` |
| Boundary.BoundaryLogic.EnforceHoopBlockage | core/game_logic/boundary_logic.py:26-74 | leaves exactly the tables of `HoopBlockage` |
| Boundary.BoundaryLogic.CalculateMoveAwayVector | core/game_logic/boundary_logic.py:284-333 | returns the move and normal of `MoveAway`, or none for coincident positions, and changes only that player's velocity |
| Boundary.BoundaryLogic.PushFromInbounder | core/game_logic/boundary_logic.py:200-210 | the inbounder scan collects exactly the moves of `AwayFromInbounder` |
| Boundary.BoundaryLogic.VolleyballEntryAt | core/game_logic/boundary_logic.py:215-242 | one entry of the volleyball scan leaves exactly the result of `VolleyballStep` |
| Boundary.BoundaryLogic.PushFromVolleyball | core/game_logic/boundary_logic.py:214-242 | the volleyball scan collects exactly the moves of `AwayFromVolleyball` |
| Boundary.BoundaryLogic.ApplyMovesAt | core/game_logic/boundary_logic.py:245-248 | the final loop leaves exactly the players of `ApplyMoves` |
| Boundary.BoundaryLogic.InboundingFreeWay | core/game_logic/boundary_logic.py:167-248 | leaves exactly the tables of `ClearForInbounder` |
| Boundary.BoundaryLogic.FindKeeperOf | core/game_logic/boundary_logic.py:265-269 | the loop finds exactly `KeeperOf` |
| Boundary.BoundaryLogic.KeeperPassAt | core/game_logic/boundary_logic.py:273-281 | one pass leaves exactly the players of `KeeperPass` |
| Boundary.BoundaryLogic.ShoveAway | core/game_logic/boundary_logic.py:277-281 | one crowding player is pushed exactly as `MoveAway` says, or nothing changes when there is no move |
| Boundary.BoundaryLogic.MakingAliveKeeperFreeWay | core/game_logic/boundary_logic.py:250-281 | leaves exactly the tables of `ClearForKeeper` |
| FreeWays.AcrossUnit | core/game_logic/boundary_logic.py:318-325 | removing the part along a unit normal leaves a velocity with no part along it |
| FreeWays.MoveAwayAcross | core/game_logic/boundary_logic.py:307-333 | the move-away vector is missing exactly for coincident positions; otherwise its normal is a unit vector and the new velocity is the old one minus exactly its part along the normal |
| FreeWays.NoMoveFromSelf | core/game_logic/boundary_logic.py:311-314 | a player is never pushed away from its own position |
| FreeWays.Record | core/game_logic/boundary_logic.py:207-208 | recording a move keeps the collected moves listed once each and belonging to players |
| FreeWays.AwayFromInbounder | core/game_logic/boundary_logic.py:200-210 | the inbounder scan keeps the player table's keys and the collected moves well formed |
| FreeWays.Deadlock | core/game_logic/boundary_logic.py:223-239 | the deadlock check only replaces a collected move: players, collected ids and order stay |
| FreeWays.VolleyballStep | core/game_logic/boundary_logic.py:215-242 | one volleyball entry keeps the player table's keys and the collected moves well formed, and a raised error ends the scan |
| FreeWays.AwayFromVolleyball | core/game_logic/boundary_logic.py:214-242 | the volleyball scan keeps the player table's keys and the collected moves well formed |
| FreeWays.ApplyMoves | core/game_logic/boundary_logic.py:245-248 | applying the moves keeps the player table's keys |
| FreeWays.ApplyMovesEffect | core/game_logic/boundary_logic.py:245-248 | each player listed once moves by exactly its collected move, every other player stays, and nothing but positions changes |
| FreeWays.ClearForInbounder | core/game_logic/boundary_logic.py:167-248 | the inbounding free way keeps the tables' keys and changes no ball |
| FreeWays.InbounderScanFrame | core/game_logic/boundary_logic.py:200-210 | the inbounder scan leaves alone, and collects no move for, a player it does not list or one standing where the pushes start |
| FreeWays.VolleyballScanFrame | core/game_logic/boundary_logic.py:214-242 | the volleyball scan leaves alone, and collects no move for, the inbounder and every player it does not list |
| FreeWays.FreeWayFrame | core/game_logic/boundary_logic.py:185-248 | the inbounder, and every player in neither distance list, keeps its record |
| FreeWays.KeeperOf | core/game_logic/boundary_logic.py:265-269 | the keeper found is the first keeper of the team in possession in table order, and none is found when there is none |
| FreeWays.KeeperPass | core/game_logic/boundary_logic.py:273-281 | one pass keeps the player table's keys and raises only on an unpacked missing move |
| FreeWays.KeeperPasses | core/game_logic/boundary_logic.py:270-281 | the passes keep the player table's keys and raise only on an unpacked missing move |
| FreeWays.ClearForKeeper | core/game_logic/boundary_logic.py:250-281 | the keeper free way keeps the tables' keys and changes no ball |
| FreeWays.KeeperMissing | core/game_logic/boundary_logic.py:265-273 | the keeper free way raises before any push exactly when the volleyball is dead, there are players, and none is a keeper of the team in possession |
| FreeWays.KeeperPassFrame | core/game_logic/boundary_logic.py:273-281 | one pass leaves the keeper and every player its list does not name as they were |
| FreeWays.KeeperPassesFrame | core/game_logic/boundary_logic.py:270-281 | the keeper free way moves nobody but the players its list names; the keeper keeps its record |
| Utility.SquaredDistance | core/game_logic/utility_logic.py:97-114 | a squared distance is never negative |
| Utility.SquaredDistanceSymmetric | core/game_logic/utility_logic.py:97-114 | the squared distance from a to b is the one from b to a |
| Utility.InitTables | core/game_logic/utility_logic.py:25-27 | every entity gets a table, existing tables are kept, and no distance changes |
| Utility.Store | core/game_logic/utility_logic.py:58-60 | storing a pair's distance adds no table |
| Utility.PairStep | core/game_logic/utility_logic.py:36-60 | one pair of the inner loop adds no table |
| Utility.Row | core/game_logic/utility_logic.py:36-60 | the inner loop adds no table |
| Utility.Rows | core/game_logic/utility_logic.py:28-60 | the outer loop adds no table |
| Utility.EntityIdsAreEntities | core/game_logic/utility_logic.py:24 | the players followed by the balls list every entity, each once |
| Utility.Distances | core/game_logic/utility_logic.py:24-60 | the tables after the pair loops are the old ones plus one per entity |
| Utility.RowLookup | core/game_logic/utility_logic.py:36-60 | after the inner loop for entity i, exactly its pairs with later entities that are not skipped hold their squared distance, both ways; every other entry is as before |
| Utility.PairStepLookup | core/game_logic/utility_logic.py:36-60 | after one pair of the inner loop the pair holds its squared distance both ways and every other entry is as before |
| Utility.RowsLookup | core/game_logic/utility_logic.py:28-60 | after the outer loop from i on, exactly the non-skipped pairs of distinct later entities hold their squared distance; every other entry is as before |
| Utility.DistancesLookup | core/game_logic/utility_logic.py:9-60 | every non-skipped pair of distinct entities holds its squared distance; every other entry is the old one |
| Utility.DistancesSymmetric | core/game_logic/utility_logic.py:58-60 | when the old tables were symmetric for a pair, the new ones are too |
| Utility.DistancesSkip | core/game_logic/utility_logic.py:31-52 | pairs with a knocked-out player, a beater with a chaser or keeper, or a beater with the volleyball keep their old entry |
| Utility.DistancesBallPairs | core/game_logic/utility_logic.py:53-60 | every pair of distinct balls holds its squared distance |
| Utility.DistancesCover | core/game_logic/utility_logic.py:24-27 | every player and ball has a table, and no old table is dropped |
| Utility.InsertAscending | core/game_logic/utility_logic.py:64 | inserting at the insertion point keeps a list ascending by distance |
| Utility.InsertKeepsSorted | core/game_logic/utility_logic.py:64 | inserting a new entry at its insertion point keeps the list the sorted items of the table |
| Utility.InsertDistinct | core/game_logic/utility_logic.py:64 | inserting a key the table lacks keeps the keys distinct |
| Utility.InsertEntries | core/game_logic/utility_logic.py:64 | after the insertion every entry is an entry of the updated table |
| Utility.InsertComplete | core/game_logic/utility_logic.py:64 | after the insertion every key of the updated table is listed |
| Utility.SortedItems | core/game_logic/utility_logic.py:64 | the list built is ascending by distance and holds every item of the table exactly once |
| Utility.UtilityLogic.constructor | core/game_logic/utility_logic.py:6-7 | the component keeps the shared state |
| Utility.UtilityLogic.CalculateDistances | core/game_logic/utility_logic.py:9-64 | the tables become `Distances`, every entity's nearest-first list holds its table's items sorted, and other lists are kept |
| Utility.UtilityLogic.AddEmptyTables | core/game_logic/utility_logic.py:25-27 | the loop leaves exactly the tables of `InitTables` |
| Utility.UtilityLogic.StorePairs | core/game_logic/utility_logic.py:28-60 | the loop leaves exactly the tables of `Rows` |
| Utility.UtilityLogic.StorePartners | core/game_logic/utility_logic.py:36-60 | the inner loop leaves exactly the tables of `Row` |
| Utility.UtilityLogic.SortTables | core/game_logic/utility_logic.py:62-64 | every listed entity's nearest-first list holds its table's items sorted, and other lists are kept |
| Game.PlayerVelocities | core/game_logic/game_logic.py:85 | the player velocity stage keeps the configuration, the tables' keys and orders, the hoops, the set score, phase and clock |
| Game.PlayerCollisions | core/game_logic/game_logic.py:86 | the player contact stage keeps what every stage keeps |
| Game.BallVelocities | core/game_logic/game_logic.py:87 | the ball velocity stage keeps what every stage keeps |
| Game.UpdatePositions | core/game_logic/game_logic.py:90 | the position stage keeps what every stage keeps |
| Game.InboundingFreeWay | core/game_logic/game_logic.py:92 | the inbounding free way stage keeps what every stage keeps |
| Game.KeeperFreeWay | core/game_logic/game_logic.py:93 | the keeper free way stage keeps what every stage keeps |
| Game.HoopBlockage | core/game_logic/game_logic.py:94 | the hoop blockage stage keeps what every stage keeps |
| Game.VolleyballAlive | core/game_logic/game_logic.py:95 | the volleyball revival stage keeps what every stage keeps |
| Game.BallCollisions | core/game_logic/game_logic.py:98 | the ball collision stage keeps what every stage keeps |
| Game.VolleyballPossessions | core/game_logic/game_logic.py:100 | the volleyball possession stage keeps what every stage keeps |
| Game.DodgeballInteractions | core/game_logic/game_logic.py:101 | the dodgeball interaction stage keeps what every stage keeps |
| Game.Goals | core/game_logic/game_logic.py:103 | the goal stage keeps what every stage keeps |
| Game.ThirdDodgeball | core/game_logic/game_logic.py:105 | the third-dodgeball stage keeps what every stage keeps |
| Game.DelayOfGame | core/game_logic/game_logic.py:106 | the delay-of-game stage keeps what every stage keeps |
| Game.PitchBoundaries | core/game_logic/game_logic.py:109 | the pitch boundary stage keeps what every stage keeps |
| Game.KeptValid | core/game_logic/game_logic.py:83-109 | a state with the same keys and key orders as a well-formed one is well formed |
| Game.Movement | core/game_logic/game_logic.py:83-95 | the stages up to the revival, after the clock advances, keep what every stage keeps, stopping at the first that raises |
| Game.Contests | core/game_logic/game_logic.py:98-101 | the ball contests keep what every stage keeps |
| Game.Judgements | core/game_logic/game_logic.py:103-106 | the referee's calls keep what every stage keeps |
| Game.Rules | core/game_logic/game_logic.py:98-106 | the stages reading the distance tables keep what every stage keeps |
| Game.Rulings | core/game_logic/game_logic.py:98-109 | the second half of the frame keeps what every stage keeps |
| Game.FrameEndsInBounds | core/game_logic/game_logic.py:108-109 | a completed frame ends with every ball on the pitch, and with every player on it when no player was in contact before the clamp |
| Game.Reset | core/game_logic/game_logic.py:53-56 | every listed entity gets a fresh empty distance table and every other table stays |
| Game.GameLogic.constructor | core/game_logic/game_logic.py:30-70 | every component shares the one state and the penalty component, and only the distance tables are reset, one empty table per entity |
| Game.GameLogic.ResetTables | core/game_logic/game_logic.py:54-56 | the loop leaves exactly the tables of `Reset` |
| Game.GameLogic.Update | core/game_logic/game_logic.py:73-109 | a frame is `Movement`, then the distance rebuild, then `Rulings`, stopping at the first stage that raises |
| Game.GameLogic.Measure | core/game_logic/game_logic.py:97 | the distance rebuild leaves the tables `Distances` and each entity's list sorted, and nothing else changes |
| Game.GameLogic.Move | core/game_logic/game_logic.py:83-95 | the in-place stages leave exactly the state of `Movement` |
| Game.GameLogic.Rule | core/game_logic/game_logic.py:98-109 | the in-place stages leave exactly the state of `Rulings` |
| Game.GameLogic.Contest | core/game_logic/game_logic.py:98-101 | the in-place stages leave exactly the state of `Contests` |
| Game.GameLogic.Judge | core/game_logic/game_logic.py:103-106 | the in-place stages leave exactly the state of `Judgements` |
| Game.GameLogic.StagePlayerVelocities | core/game_logic/game_logic.py:85 | the in-place stage leaves exactly the state of `PlayerVelocities` |
| Game.GameLogic.StagePlayerCollisions | core/game_logic/game_logic.py:86 | the in-place stage leaves exactly the state of `PlayerCollisions` |
| Game.GameLogic.StageBallVelocities | core/game_logic/game_logic.py:87 | the in-place stage leaves exactly the state of `BallVelocities` |
| Game.GameLogic.StagePositions | core/game_logic/game_logic.py:90 | the in-place stage leaves exactly the state of `UpdatePositions` |
| Game.GameLogic.StageInboundingFreeWay | core/game_logic/game_logic.py:92 | the in-place stage leaves exactly the state of `InboundingFreeWay` |
| Game.GameLogic.StageKeeperFreeWay | core/game_logic/game_logic.py:93 | the in-place stage leaves exactly the state of `KeeperFreeWay` |
| Game.GameLogic.StageHoopBlockage | core/game_logic/game_logic.py:94 | the in-place stage leaves exactly the state of `HoopBlockage` |
| Game.GameLogic.StageVolleyballAlive | core/game_logic/game_logic.py:95 | the in-place stage leaves exactly the state of `VolleyballAlive` |
| Game.GameLogic.StageBallCollisions | core/game_logic/game_logic.py:98 | the in-place stage leaves exactly the state of `BallCollisions` |
| Game.GameLogic.StageVolleyballPossessions | core/game_logic/game_logic.py:100 | the in-place stage leaves exactly the state of `VolleyballPossessions` |
| Game.GameLogic.StageDodgeballInteractions | core/game_logic/game_logic.py:101 | the in-place stage leaves exactly the state of `DodgeballInteractions` |
| Game.GameLogic.StageGoals | core/game_logic/game_logic.py:103 | the in-place stage leaves exactly the state of `Goals` |
| Game.GameLogic.StageThirdDodgeball | core/game_logic/game_logic.py:105 | the in-place stage leaves exactly the state of `ThirdDodgeball` |
| Game.GameLogic.StageDelayOfGame | core/game_logic/game_logic.py:106 | the in-place stage leaves exactly the state of `DelayOfGame` |
| Game.GameLogic.StagePitchBoundaries | core/game_logic/game_logic.py:109 | the in-place stage leaves exactly the state of `PitchBoundaries` |
| ProcessAction.Throw | core/game_logic/process_action_logic.py:37-63 | a throw happens exactly when the player holds a stored ball; otherwise nothing changes; a throw frees the ball, records the thrower, keeps the ball's position and possession, and empties the player's hand without moving it; the direction is scaled down to unit length when longer, the ball's velocity is the throw velocity times that direction, and the catch cooldown is `ThrowCooldown` of the player's radius, the ball's new speed and the player's top speed |
| ProcessAction.SteeredShort | core/game_logic/process_action_logic.py:48-51 | the direction after normalisation is never longer than 1 |
| ProcessAction.ScaledShort | core/game_logic/process_action_logic.py:52-53 | a direction no longer than 1 scaled by c is no longer than c |
| ProcessAction.ThrowSpeed | core/game_logic/process_action_logic.py:48-53 | a thrown ball leaves at most at the thrower's throw velocity, and the stored direction is no longer than 1 |
| ProcessAction.ThrowFullSpeed | core/game_logic/process_action_logic.py:48-53 | a direction longer than 1 throws at exactly the throw velocity |
| ProcessAction.CooldownFacts | core/game_logic/process_action_logic.py:54-59 | the catch cooldown is never negative, zero for a slow ball, and otherwise times the speed equals five radii times the top speed |
| ProcessAction.ThrowOnce | core/game_logic/process_action_logic.py:37-60 | a player cannot throw twice without catching in between |
| ProcessAction.TackleTarget | core/game_logic/process_action_logic.py:87-94 | the target is the first contact that is a stored opponent holding a ball, and none is found when no contact is one |
| ProcessAction.Tackle | core/game_logic/process_action_logic.py:65-99 | a tackle never returns True; returning False means the player exists and either holds a ball or touches no stored opponent holding one |
| ProcessAction.TackleOutcomes | core/game_logic/process_action_logic.py:72-99 | a tackle never succeeds; it raises on the missing tackle list exactly when a ball-less player touches an opponent holding a ball, and on `has_ball` exactly when the player is missing |
| ProcessAction.ProcessActionLogic.constructor | core/game_logic/process_action_logic.py:12-19 | the component keeps the shared state |
| ProcessAction.ProcessActionLogic.ProcessThrowAction | core/game_logic/process_action_logic.py:21-63 | the in-place throw leaves exactly the tables and result of `Throw` |
| ProcessAction.ProcessActionLogic.ProcessTackleAction | core/game_logic/process_action_logic.py:65-99 | the scan returns exactly `Tackle` and never a success |
| ComputerPlayerUtility.LineT | computer_player/computer_player_utility.py:85 | the crossing parameter of a level exists exactly when the segment moves along that axis |
| ComputerPlayerUtility.LineTReaches | computer_player/computer_player_utility.py:85-87 | at that parameter the segment is exactly at the level |
| ComputerPlayerUtility.FirstInXBand | computer_player/computer_player_utility.py:89-92 | the hoop chosen is the first defence hoop whose band holds the crossing y, and none is chosen when no band holds it |
| ComputerPlayerUtility.XHit | computer_player/computer_player_utility.py:85-92 | an x intercept lies within the tolerance of the segment and aims at the blockage line plus the x buffer |
| ComputerPlayerUtility.EdgeHit | computer_player/computer_player_utility.py:95-103 | a ring-edge intercept belongs to its hoop, lies within the tolerance of the segment, and aims at the edge pushed out by the buffer factor |
| ComputerPlayerUtility.XHitOnLine | computer_player/computer_player_utility.py:85-92 | an x intercept is where the segment meets the blockage line, at a defence hoop whose band holds it and before which no hoop's band does; without one, no hoop's band holds the crossing |
| ComputerPlayerUtility.EdgeHitOnEdge | computer_player/computer_player_utility.py:96-100 | an edge intercept is where the segment meets the ring edge, inside the hoop's blockage x band |
| ComputerPlayerUtility.ScanYEarliest | computer_player/computer_player_utility.py:94-103 | the edge scan finds nothing exactly when no edge of any hoop is crossed; otherwise it returns one of the crossings, and no crossing is earlier |
| ComputerPlayerUtility.Detour | computer_player/computer_player_utility.py:57-65 | a target at the player's position gives the zero vector |
| ComputerPlayerUtility.LineAim | computer_player/computer_player_utility.py:70-77 | the x intercept aims at the hoop's x moved by the buffered half-width towards the player's side |
| ComputerPlayerUtility.DirectAim | computer_player/computer_player_utility.py:104-112 | without a blockage the direction is the lookahead or the way to the target, shifted by the x buffer when asked; with neither it leads exactly to the target |
| ComputerPlayerUtility.LineCorner | computer_player/computer_player_utility.py:113-120 | when the x intercept comes first, the player heads for the buffered x of the blockage line and the buffered ring corner above or below by the sign of the way to the target |
| ComputerPlayerUtility.EdgeCorner | computer_player/computer_player_utility.py:121-126 | when an edge intercept comes first, the player heads for the buffered corner of that hoop on the target's side, at a buffered ring edge |
| ComputerPlayerUtility.Unblocked | computer_player/computer_player_utility.py:80-83 | with player and target on the same side of the blockage, or no defence hoops, the direction is the direct one |
| ComputerPlayerUtility.LineAimOutside | computer_player/computer_player_utility.py:70-77 | with a buffer factor of at least 1 the x aim never lies inside the blockage line |
| ComputerPlayerUtility.MoveAroundHoopBlockage.constructor | computer_player/computer_player_utility.py:11-20 | the object keeps the defence hoops, the buffer factor and the tolerance |
| ComputerPlayerUtility.MoveAroundHoopBlockage.ScanLine | computer_player/computer_player_utility.py:85-92 | the hoop loop finds exactly the x intercept of `XHit` |
| ComputerPlayerUtility.MoveAroundHoopBlockage.ScanEdges | computer_player/computer_player_utility.py:94-103 | the nested loop finds exactly the earliest edge intercept of `ScanY` |
| ComputerPlayerUtility.MoveAroundHoopBlockage.Call | computer_player/computer_player_utility.py:22-127 | the returned direction is exactly `Detour` of the query |

## Left out

- Floating point: numbers are reals, so there is no rounding, no overflow to infinity and no NaN.
  - `float('inf')` in the crossing parameters becomes a missing value (`None`).
  - The square root is a parameter satisfying `IsSqrt`, not `** 0.5` itself.
- Randomness: `random.randint`, `random.uniform` and `random.choice` are not modelled as generators. Their results are parameters (`tieBreak`, `jitter`, `sign`, and the `Draws` of a frame).
- Logging and `print` output are not modelled; the `logger` parameter of `MoveAroundHoopBlockage` is dropped.
- Aliasing: records are values in id-keyed maps, and each record is identified by its key.
  - Two entities sharing one `Vector2` object are not modelled; the source copies positions where it matters.
  - `MoveAroundHoopBlockage.__call__` writes the caller's `lookahead_to_target.x` in place. The model returns the shifted vector as a value and does not model the write-back to the caller's object.
- Dict order: every map keeps its insertion order in a separate id sequence, and scans follow it. Ids are assumed unique and present (`State.Valid`); the source would raise `KeyError` on an order entry that is missing from its dict.
- Utility.SortedItems: Python's `sorted` is stable, so equal distances keep the insertion order of the inner distance dict, which is the entity order of the pair scan. The inner tables are maps here and keep no insertion order, so the list is stated as "the table's items sorted ascending, each once" and the order among equal distances is left open.
- Utility.UtilityLogic.SortTables: the same as `SortedItems`; the order among equal distances in each rebuilt list is left open.
- Utility.UtilityLogic.CalculateDistances: the same as `SortedItems`; the order among equal distances in each rebuilt list is left open.
- Game.GameLogic.Measure: the same as `SortedItems`. Every nearest-first scan of a frame (contacts, pickups, free ways) may therefore visit two equally distant entities in either order, where the source visits them in entity order.
- Typed decoding: `deserialize` in the source stores whatever JSON value it finds in a field, unchecked. The model's records are typed, so a value of the wrong JSON type (a string where a number belongs, say) fails with `Unrepresentable` where the source would build the record and fail later, or never.
- Entities.ReadIdentity: because fields are type-checked as they are read, a wrongly typed early field fails before a missing later one, so which `KeyError` the source raises can differ from the failure the model reports.
- State.DeserializeScalars: the same as `ReadIdentity` for the scalar fields of the state; a wrongly typed `score`, `game_time` or flag fails with `Unrepresentable`.
- Boundary.PitchClampInBounds: it does not promise every player on the pitch when contacts exist. Shifting a clamped player's contact partners can push an already-clamped player back off the pitch, so it promises all players in bounds only when no player is in contact; every ball always ends in bounds.
- Game.FrameEndsInBounds: it inherits the same restriction as the pitch clamp, so every entity ends in bounds only when no player is in contact before the clamp. It also assumes that the pitch leaves room for each radius.
- Entities.DeserializeHoop: a hoop whose id or team is missing gets `None` in the source, but ids are strings and teams integers in the model. Such input is reported as a failure rather than building a hoop with a `None` id.
- ProcessAction.Tackle: only the failing path exists in the source. A tackle that reaches the tackling-list append raises `AttributeError`, so the successful tackle and its mutual tackling lists are not modelled.
- Not modelled, as it lies outside the rules engine:
  - the superseded monolithic `core/game_logic.py`;
  - the network server and the rendering;
  - the configuration constants, which appear as a `Config` record;
  - the computer-player AI, including `InterceptionRatioCalculator`.
