/** The shared game state: entity tables, score, clock and the rule flags every logic component reads and writes. */
module State {
  import opened Wrappers
  import opened Json
  import opened Vectors
  import opened Entities

  /** The pitch geometry and rule constants, fixed for a game. */
  datatype Config = Config(
    boundaryX0: real, boundaryX1: real,
    boundaryY0: real, boundaryY1: real,
    keeperZoneX0: real, keeperZoneX1: real,
    midlineX: real,
    delayLimit: real,
    delayThreshold: real,
    maxDelayWarnings: int,
    beatAttemptTimeLimit: real,
    seekerFloorSeconds: int)

  const DefaultConfig: Config := Config(0.0, 60.0, 0.0, 33.0, 19.0, 41.0, 30.0, 10.0, 0.5, 1, 10.0, 1200)

  /** A pending third-dodgeball interference: which ball and which player. */
  datatype Interference = Interference(dodgeballId: Id, playerId: Id)

  /**
    * The value of a game state. Each table is a map keyed by id together with
    * the order of its keys, since every scan follows the tables' insertion order.
    */
  datatype World = World(
    cfg: Config,
    players: map<Id, Player>,
    playerIds: seq<Id>,
    balls: map<Id, Ball>,
    ballIds: seq<Id>,
    hoops: map<Id, Hoop>,
    hoopIds: seq<Id>,
    score: seq<int>,
    squaredDistances: map<Id, seq<(Id, real)>>,
    squaredDistancesDicts: map<Id, map<Id, real>>,
    gameTime: real,
    delayWarnings: map<int, int>,
    thirdDodgeball: Option<Id>,
    thirdDodgeballTeam: Option<int>,
    pendingInterference: Option<Interference>,
    seekerOnPitch: bool,
    setScore: Option<int>,
    gamePhase: string)

  predicate Distinct<T(==)>(s: seq<T>)
  {
    forall i, j :: 0 <= i < j < |s| ==> s[i] != s[j]
  }

  /** The tail of a list without repeats has none, and does not list the head. */
  lemma DistinctTail<T>(s: seq<T>)
    requires |s| > 0 && Distinct(s)
    ensures Distinct(s[1..]) && s[0] !in s[1..]
  {
    forall i, j | 0 <= i < j < |s[1..]| ensures s[1..][i] != s[1..][j] {
      assert s[1..][i] == s[i + 1] && s[1..][j] == s[j + 1];
    }
    forall j | 0 <= j < |s[1..]| ensures s[1..][j] != s[0] {
      assert s[1..][j] == s[j + 1];
    }
  }

  /** `ids` lists the set `keys`, each once. */
  predicate Indexes(ids: seq<Id>, keys: set<Id>)
  {
    Distinct(ids) && (forall id :: id in keys ==> id in ids) && (forall id :: id in ids ==> id in keys)
  }

  /**
    * The shape every table keeps: the key orders list the tables' keys, and
    * no player shares an id with a ball. A record is identified by its key.
    */
  predicate Valid(w: World)
  {
    && Indexes(w.playerIds, w.players.Keys)
    && Indexes(w.ballIds, w.balls.Keys)
    && Indexes(w.hoopIds, w.hoops.Keys)
    && w.players.Keys !! w.balls.Keys
  }

  /** A fresh state with the record's defaults. */
  function EmptyWorld(): World
  {
    World(DefaultConfig, map[], [], map[], [], map[], [], [0, 0], map[], map[], 0.0,
          map[0 := 0, 1 := 0], None, None, None, false, None, "waiting")
  }

  /* ---------------- lookups and filters ---------------- */

  /** `get_player`: the player stored under `id`; found exactly for the ids the table order lists. */
  function GetPlayer(w: World, id: Id): (r: Option<Player>)
    ensures r.Some? <==> id in w.players
    ensures r.Some? ==> r.value == w.players[id]
    ensures Valid(w) ==> (r.Some? <==> id in w.playerIds)
  {
    if id in w.players then Some(w.players[id]) else None
  }

  /** `get_ball`: the ball stored under `id`; found exactly for the ids the table order lists. */
  function GetBall(w: World, id: Id): (r: Option<Ball>)
    ensures r.Some? <==> id in w.balls
    ensures r.Some? ==> r.value == w.balls[id]
    ensures Valid(w) ==> (r.Some? <==> id in w.ballIds)
  {
    if id in w.balls then Some(w.balls[id]) else None
  }

  /** The position in `ids` of the first volleyball of `balls`, or |ids| if there is none. */
  function FirstVolleyballAt(ids: seq<Id>, balls: map<Id, Ball>): (k: nat)
    ensures k <= |ids|
    ensures forall j :: 0 <= j < k ==> ids[j] !in balls || !IsVolleyball(balls[ids[j]])
    ensures k < |ids| ==> ids[k] in balls && IsVolleyball(balls[ids[k]])
  {
    if ids == [] then 0
    else if ids[0] in balls && IsVolleyball(balls[ids[0]]) then 0
    else 1 + FirstVolleyballAt(ids[1..], balls)
  }

  /** The first volleyball of `balls` in the order `ids`, or None. */
  function VolleyballIn(ids: seq<Id>, balls: map<Id, Ball>): (r: Option<Id>)
    ensures r.Some? ==> r.value in balls && IsVolleyball(balls[r.value])
    ensures r.None? ==> forall id :: id in ids && id in balls ==> !IsVolleyball(balls[id])
  {
    var k := FirstVolleyballAt(ids, balls);
    if k < |ids| then Some(ids[k])
    else
      assert forall id :: id in ids && id in balls ==> !IsVolleyball(balls[id]) by {
        forall id | id in ids && id in balls ensures !IsVolleyball(balls[id]) {
          var j :| 0 <= j < |ids| && ids[j] == id;
        }
      }
      None
  }

  /** `get_volleyball`: the key of the first volleyball in table order, or None. */
  function GetVolleyball(w: World): (r: Option<Id>)
    requires Valid(w)
    ensures r.None? <==> forall id :: id in w.balls ==> !IsVolleyball(w.balls[id])
    ensures r.Some? ==> r.value in w.balls && IsVolleyball(w.balls[r.value])
  {
    VolleyballIn(w.ballIds, w.balls)
  }

  /** The dodgeballs of `balls` in the order `ids`. */
  function DodgeballsIn(ids: seq<Id>, balls: map<Id, Ball>): (r: seq<Id>)
    ensures forall id :: id in r <==> id in ids && id in balls && IsDodgeball(balls[id])
    ensures |r| <= |ids|
    ensures Distinct(ids) ==> Distinct(r)
  {
    if ids == [] then []
    else
      var rest := DodgeballsIn(ids[1..], balls);
      assert Distinct(ids) ==> Distinct(ids[1..]) && ids[0] !in ids[1..];
      if ids[0] in balls && IsDodgeball(balls[ids[0]]) then [ids[0]] + rest else rest
  }

  /**
    * The filter keeps order: the dodgeballs of a concatenation are those of
    * the first part followed by those of the second. With the membership
    * contract of `DodgeballsIn` this fixes the result to the dodgeballs in
    * the order listed.
    */
  lemma {:induction false} DodgeballsInOrder(a: seq<Id>, b: seq<Id>, balls: map<Id, Ball>)
    ensures DodgeballsIn(a + b, balls) == DodgeballsIn(a, balls) + DodgeballsIn(b, balls)
  {
    if a != [] {
      assert (a + b)[0] == a[0] && (a + b)[1..] == a[1..] + b;
      DodgeballsInOrder(a[1..], b, balls);
    } else {
      assert a + b == b;
    }
  }

  /** `get_dodgeballs`: the ids of every dodgeball, in table order. */
  function GetDodgeballs(w: World): (r: seq<Id>)
    requires Valid(w)
    ensures forall id :: id in r <==> id in w.balls && IsDodgeball(w.balls[id])
    ensures Distinct(r)
  {
    DodgeballsIn(w.ballIds, w.balls)
  }

  /** The players among `ids` that pass the team and role filters, in order. */
  function PlayersWhere(ids: seq<Id>, players: map<Id, Player>, team: Option<int>, role: Option<Role>): (r: seq<Player>)
    requires forall id :: id in ids ==> id in players
    ensures forall p :: p in r <==> exists id :: id in ids && players[id] == p
                                                 && (team.Some? ==> p.team == team.value)
                                                 && (role.Some? ==> p.role == role.value)
  {
    if ids == [] then []
    else
      var p := players[ids[0]];
      var rest := PlayersWhere(ids[1..], players, team, role);
      assert forall id :: id in ids <==> id == ids[0] || id in ids[1..];
      if (team.Some? ==> p.team == team.value) && (role.Some? ==> p.role == role.value) then [p] + rest else rest
  }

  /** `get_players_by_team`: exactly the players of that team. */
  function GetPlayersByTeam(w: World, team: int): (r: seq<Player>)
    requires Valid(w)
    ensures forall p :: p in r <==> p in w.players.Values && p.team == team
  {
    PlayersWhere(w.playerIds, w.players, Some(team), None)
  }

  /** `get_players_by_role`: exactly the players of that role, and of that team when one is given. */
  function GetPlayersByRole(w: World, role: Role, team: Option<int>): (r: seq<Player>)
    requires Valid(w)
    ensures forall p :: p in r <==> p in w.players.Values && p.role == role && (team.Some? ==> p.team == team.value)
  {
    PlayersWhere(w.playerIds, w.players, team, Some(role))
  }

  /* ---------------- score and clock ---------------- */

  /**
    * `update_score`: points go to `score[team]` only for team 0 or 1; a score
    * list too short for the team is an IndexError.
    */
  function AddScore(score: seq<int>, team: int, points: int): (r: Result<seq<int>>)
    ensures team != 0 && team != 1 ==> r == Success(score)
    ensures (team == 0 || team == 1) && team < |score| ==>
              r.Success? && |r.value| == |score| && r.value[team] == score[team] + points
              && forall i :: 0 <= i < |score| && i != team ==> r.value[i] == score[i]
    ensures (team == 0 || team == 1) && |score| <= team ==> r == Failure(IndexError(team))
  {
    if team != 0 && team != 1 then Success(score)
    else if team < |score| then Success(score[team := score[team] + points])
    else Failure(IndexError(team))
  }

  /**
    * `update_game_time`: the clock advances by exactly dt, and the seeker
    * comes on once the clock reaches the seeker floor; it is never taken off.
    */
  function AdvanceClock(w: World, dt: real): (r: World)
    ensures r.gameTime == w.gameTime + dt
    ensures r.seekerOnPitch == (w.seekerOnPitch || w.gameTime + dt >= w.cfg.seekerFloorSeconds as real)
    ensures r == w.(gameTime := r.gameTime, seekerOnPitch := r.seekerOnPitch)
  {
    var t := w.gameTime + dt;
    w.(gameTime := t, seekerOnPitch := if t >= w.cfg.seekerFloorSeconds as real && !w.seekerOnPitch then true else w.seekerOnPitch)
  }

  /** Removing one element from a sequence of distinct ids. */
  function Without(ids: seq<Id>, id: Id): (r: seq<Id>)
    ensures forall x :: x in r <==> x in ids && x != id
    ensures Distinct(ids) ==> Distinct(r)
  {
    if ids == [] then []
    else
      assert Distinct(ids) ==> Distinct(ids[1..]) && ids[0] !in ids[1..];
      if ids[0] == id then Without(ids[1..], id) else [ids[0]] + Without(ids[1..], id)
  }

  /* ---------------- serialisation ---------------- */

  /** `{k: v.serialize() for k, v in table.items()}`: one entry per id, in table order. */
  function SerializeEntries<T>(ids: seq<Id>, m: map<Id, T>, f: T -> Json): (r: seq<(string, Json)>)
    requires forall id :: id in ids ==> id in m
    ensures |r| == |ids|
  {
    if ids == [] then [] else SerializeEntries(ids[..|ids| - 1], m, f) + [(ids[|ids| - 1], f(m[ids[|ids| - 1]]))]
  }

  function ScoreToJson(score: seq<int>): seq<Json>
  {
    if score == [] then [] else [JInt(score[0])] + ScoreToJson(score[1..])
  }

  /** One table as a JSON object. */
  function TableJson<T>(ids: seq<Id>, m: map<Id, T>, f: T -> Json): Json
    requires forall id :: id in ids ==> id in m
  {
    JObj(SerializeEntries(ids, m, f))
  }

  /** The fields `GameState.serialize` writes: the tables, score, clock and phase; configuration and rule flags are left out. */
  function StateFields(w: World): seq<(string, Json)>
    requires Valid(w)
  {
    [("players", TableJson(w.playerIds, w.players, SerializePlayer)),
     ("balls", TableJson(w.ballIds, w.balls, SerializeBall)),
     ("hoops", TableJson(w.hoopIds, w.hoops, SerializeHoop)),
     ("score", JList(ScoreToJson(w.score))),
     ("game_time", JReal(w.gameTime)),
     ("seeker_on_pitch", JBool(w.seekerOnPitch)),
     ("set_score", if w.setScore.Some? then JInt(w.setScore.value) else JNull),
     ("game_phase", JStr(w.gamePhase))]
  }

  /** Every player of a state as a serialisation round trip leaves it. */
  function RestoredPlayers(w: World): map<Id, Player>
  {
    map id | id in w.players :: Restored(w.players[id])
  }

  /**
    * What a state without balls becomes after a serialisation round trip:
    * players `Restored`, hoops, score, clock, seeker flag, set score and
    * phase kept, everything else at its default.
    */
  function RoundTripped(w: World): World
  {
    Tables((RestoredPlayers(w), w.playerIds), (w.balls, w.ballIds), (w.hoops, w.hoopIds))
      .(score := w.score, gameTime := w.gameTime, seekerOnPitch := w.seekerOnPitch, setScore := w.setScore, gamePhase := w.gamePhase)
  }

  /**
    * `GameState.serialize`. Reading the result back fails with the ball
    * constructor's missing radius as soon as there is a ball; a state without
    * balls comes back as `RoundTripped(w)`.
    */
  function Serialize(w: World): (r: Json)
    requires Valid(w)
    ensures w.ballIds != [] ==> Deserialize(r) == Failure(MissingRadius)
    ensures w.ballIds == [] ==> Deserialize(r) == Success(RoundTripped(w))
  {
    StateRoundTrip(w);
    JObj(StateFields(w))
  }

  /**
    * A dictionary comprehension over the entries of a JSON object: each value
    * is decoded in order and the first failure is raised; a repeated key keeps
    * its first position and takes the later value.
    */
  function DeserializeEntries<T>(entries: seq<(string, Json)>, f: Json -> Result<T>): (r: Result<(map<Id, T>, seq<Id>)>)
    ensures r.Success? ==> Indexes(r.value.1, r.value.0.Keys)
    ensures r.Success? && entries != [] ==> f(entries[0].1).Success?
  {
    if entries == [] then Success((map[], []))
    else
      match DeserializeEntries(entries[..|entries| - 1], f)
      case Failure(e) => Failure(e)
      case Success(acc) =>
        var (key, j) := entries[|entries| - 1];
        match f(j)
        case Failure(e) => Failure(e)
        case Success(v) =>
          if key in acc.0 then Success((acc.0[key := v], acc.1))
          else
            DistinctAppend(acc.1, key);
            Success((acc.0[key := v], acc.1 + [key]))
  }

  lemma DistinctAppend<T>(s: seq<T>, x: T)
    requires Distinct(s) && x !in s
    ensures Distinct(s + [x])
  {
    forall i, j | 0 <= i < j < |s| + 1 ensures (s + [x])[i] != (s + [x])[j] {
      if j == |s| {
        assert (s + [x])[i] == s[i];
      }
    }
  }

  /** `.items()` of a value read with `get`: only an object has items. */
  function EntriesOf(j: Json): Result<seq<(string, Json)>>
  {
    if j.JObj? then Success(j.fields) else Failure(AttributeError("items"))
  }

  function ScoreFromJson(items: seq<Json>): Result<seq<int>>
  {
    if items == [] then Success([])
    else if !items[0].JInt? then Failure(Unrepresentable("score"))
    else
      match ScoreFromJson(items[1..])
      case Failure(e) => Failure(e)
      case Success(rest) => Success([items[0].i] + rest)
  }

  lemma {:induction false} ScoreRoundTrip(score: seq<int>)
    ensures ScoreFromJson(ScoreToJson(score)) == Success(score)
  {
    if score != [] {
      ScoreRoundTrip(score[1..]);
      assert [score[0]] + score[1..] == score;
    }
  }

  /** The scalar fields, each read with its default. */
  function DeserializeScalars(fields: seq<(string, Json)>, w: World): Result<World>
  {
    var js := GetOr(fields, "score", JList(ScoreToJson([0, 0])));
    if !js.JList? then Failure(Unrepresentable("score"))
    else
      match ScoreFromJson(js.items)
      case Failure(e) => Failure(e)
      case Success(score) =>
        match AsReal(GetOr(fields, "game_time", JReal(0.0)), "game_time")
        case Failure(e) => Failure(e)
        case Success(t) =>
          match AsBool(GetOr(fields, "seeker_on_pitch", JBool(false)), "seeker_on_pitch")
          case Failure(e) => Failure(e)
          case Success(seeker) =>
            var jset := GetOr(fields, "set_score", JNull);
            if !jset.JNull? && !jset.JInt? then Failure(Unrepresentable("set_score"))
            else
              match AsString(GetOr(fields, "game_phase", JStr("waiting")), "game_phase")
              case Failure(e) => Failure(e)
              case Success(phase) =>
                Success(w.(score := score, gameTime := t, seekerOnPitch := seeker,
                           setScore := if jset.JInt? then Some(jset.i) else None, gamePhase := phase))
  }

  /**
    * `GameState.deserialize`: a fresh default state whose players, balls and
    * hoops are decoded in that order, followed by the scalar fields.
    */
  function Deserialize(j: Json): (r: Result<World>)
    ensures !j.JObj? ==> r == Failure(AttributeError("get"))
    ensures r.Success? ==> Valid(r.value) && r.value.balls == map[]
    ensures r.Success? ==> r.value.cfg == DefaultConfig && r.value.squaredDistances == map[]
                           && r.value.squaredDistancesDicts == map[] && r.value.delayWarnings == EmptyWorld().delayWarnings
                           && r.value.thirdDodgeball.None? && r.value.pendingInterference.None?
  {
    if !j.JObj? then Failure(AttributeError("get"))
    else
      match DecodeTable(j.fields, "players", DeserializePlayer)
      case Failure(e) => Failure(e)
      case Success(ps) =>
        match DecodeTable(j.fields, "balls", DeserializeBall)
        case Failure(e) => Failure(e)
        case Success(bs) =>
          match DecodeTable(j.fields, "hoops", DeserializeHoop)
          case Failure(e) => Failure(e)
          case Success(hs) => DeserializeScalars(j.fields, Tables(ps, bs, hs))
  }

  /**
    * `{k: T.deserialize(v) for k, v in data.get(key, {}).items()}`: an absent
    * table is empty, and a value without items raises.
    */
  function DecodeTable<T>(fields: seq<(string, Json)>, key: string, f: Json -> Result<T>): (r: Result<(map<Id, T>, seq<Id>)>)
    ensures Get(fields, key).None? ==> r == Success((map[], []))
    ensures r.Success? ==> Indexes(r.value.1, r.value.0.Keys)
  {
    match EntriesOf(GetOr(fields, key, JObj([])))
    case Failure(e) => Failure(e)
    case Success(entries) => DeserializeEntries(entries, f)
  }

  /** A fresh default state holding the decoded tables. */
  function Tables(ps: (map<Id, Player>, seq<Id>), bs: (map<Id, Ball>, seq<Id>), hs: (map<Id, Hoop>, seq<Id>)): World
  {
    EmptyWorld().(players := ps.0, playerIds := ps.1, balls := bs.0, ballIds := bs.1, hoops := hs.0, hoopIds := hs.1)
  }

  /** A missing key falls back to the defaults: score [0, 0], clock 0.0, phase "waiting". */
  lemma DeserializeDefaults()
    ensures Deserialize(JObj([])) == Success(EmptyWorld())
    ensures EmptyWorld().score == [0, 0] && EmptyWorld().gameTime == 0.0 && EmptyWorld().gamePhase == "waiting"
  {
    ScoreRoundTrip([0, 0]);
  }

  /**
    * A table written and read back entry by entry is rebuilt with the same
    * keys in the same order, each value mapped by `h`.
    */
  lemma {:induction false} EntriesRoundTrip<T, U>(ids: seq<Id>, m: map<Id, T>, f: T -> Json, g: Json -> Result<U>, h: T -> U)
    requires Distinct(ids) && forall id :: id in ids ==> id in m
    requires forall t :: g(f(t)) == Success(h(t))
    ensures var r := DeserializeEntries(SerializeEntries(ids, m, f), g);
            && r.Success? && r.value.1 == ids
            && (forall id :: id in r.value.0 <==> id in ids)
            && (forall id :: id in r.value.0 ==> r.value.0[id] == h(m[id]))
  {
    if ids != [] {
      var n := |ids|;
      var init, last := ids[..n - 1], ids[n - 1];
      assert ids == init + [last];
      assert Distinct(init) && last !in init by {
        forall i, j | 0 <= i < j < |init| ensures init[i] != init[j] {
          assert init[i] == ids[i] && init[j] == ids[j];
        }
      }
      EntriesRoundTrip(init, m, f, g, h);
      var e := SerializeEntries(ids, m, f);
      assert e[..|e| - 1] == SerializeEntries(init, m, f);
      var acc := DeserializeEntries(SerializeEntries(init, m, f), g).value.0;
      assert g(f(m[last])) == Success(h(m[last]));
      assert last !in acc;
      assert DeserializeEntries(e, g) == Success((acc[last := h(m[last])], init + [last]));
    }
  }

  /** The scalar fields of a serialised state are read back as written. */
  lemma ScalarsRoundTrip(f: seq<(string, Json)>, w: World, base: World)
    requires |f| == 8 && f[0].0 == "players" && f[1].0 == "balls" && f[2].0 == "hoops"
    requires f[3] == ("score", JList(ScoreToJson(w.score))) && f[4] == ("game_time", JReal(w.gameTime))
    requires f[5] == ("seeker_on_pitch", JBool(w.seekerOnPitch))
    requires f[6] == ("set_score", if w.setScore.Some? then JInt(w.setScore.value) else JNull)
    requires f[7] == ("game_phase", JStr(w.gamePhase))
    ensures DeserializeScalars(f, base)
            == Success(base.(score := w.score, gameTime := w.gameTime, seekerOnPitch := w.seekerOnPitch,
                             setScore := w.setScore, gamePhase := w.gamePhase))
  {
    GetAt(f, 3, "score");
    GetAt(f, 4, "game_time");
    GetAt(f, 5, "seeker_on_pitch");
    GetAt(f, 6, "set_score");
    GetAt(f, 7, "game_phase");
    ScoreRoundTrip(w.score);
  }

  /** `EntriesRoundTrip` for players, which come back `Restored`. */
  lemma RestoredEntries(ids: seq<Id>, players: map<Id, Player>)
    requires Indexes(ids, players.Keys)
    ensures DeserializeEntries(SerializeEntries(ids, players, SerializePlayer), DeserializePlayer)
            == Success((map id | id in players :: Restored(players[id]), ids))
  {
    forall p: Player ensures DeserializePlayer(SerializePlayer(p)) == Success(Restored(p)) {
    }
    EntriesRoundTrip(ids, players, SerializePlayer, DeserializePlayer, Restored);
    var read := DeserializeEntries(SerializeEntries(ids, players, SerializePlayer), DeserializePlayer).value.0;
    PlayersReadBack(read, players, ids);
  }

  /** A map with the listed keys, each holding the stored player `Restored`, is the restored table. */
  lemma PlayersReadBack(read: map<Id, Player>, players: map<Id, Player>, ids: seq<Id>)
    requires Indexes(ids, players.Keys)
    requires forall id :: id in read <==> id in ids
    requires forall id :: id in read ==> read[id] == Restored(players[id])
    ensures read == map id | id in players :: Restored(players[id])
  {
    assert read.Keys == players.Keys;
  }

  /** `EntriesRoundTrip` for hoops, which come back unchanged. */
  lemma HoopEntries(ids: seq<Id>, hoops: map<Id, Hoop>)
    requires Indexes(ids, hoops.Keys)
    ensures DeserializeEntries(SerializeEntries(ids, hoops, SerializeHoop), DeserializeHoop) == Success((hoops, ids))
  {
    forall h: Hoop ensures DeserializeHoop(SerializeHoop(h)) == Success(h) {
    }
    EntriesRoundTrip(ids, hoops, SerializeHoop, DeserializeHoop, (x: Hoop) => x);
    var read := DeserializeEntries(SerializeEntries(ids, hoops, SerializeHoop), DeserializeHoop).value.0;
    HoopsReadBack(read, hoops, ids);
  }

  /** A map with the listed keys, each holding the stored hoop, is the hoop table. */
  lemma HoopsReadBack(read: map<Id, Hoop>, hoops: map<Id, Hoop>, ids: seq<Id>)
    requires Indexes(ids, hoops.Keys)
    requires forall id :: id in read <==> id in ids
    requires forall id :: id in read ==> read[id] == hoops[id]
    ensures read == hoops
  {
    assert read.Keys == hoops.Keys;
  }

  /** The table stored as an object under the first occurrence of `key` is the one decoded. */
  lemma DecodeAt<T>(fields: seq<(string, Json)>, i: nat, key: string, entries: seq<(string, Json)>, g: Json -> Result<T>)
    requires i < |fields| && fields[i] == (key, JObj(entries))
    requires forall j :: 0 <= j < i ==> fields[j].0 != key
    ensures DecodeTable(fields, key, g) == DeserializeEntries(entries, g)
  {
    GetAt(fields, i, key);
  }

  /** The player table of a serialised state is read back in order, each player `Restored`. */
  lemma PlayersTableRoundTrip(w: World)
    requires Valid(w)
    ensures DecodeTable(StateFields(w), "players", DeserializePlayer) == Success((RestoredPlayers(w), w.playerIds))
  {
    DecodeAt(StateFields(w), 0, "players", SerializeEntries(w.playerIds, w.players, SerializePlayer), DeserializePlayer);
    RestoredEntries(w.playerIds, w.players);
  }

  /** The ball table of a serialised state fails at its first ball, and is empty when there is none. */
  lemma BallsTableRoundTrip(w: World)
    requires Valid(w)
    ensures w.ballIds != [] ==> DecodeTable(StateFields(w), "balls", DeserializeBall) == Failure(MissingRadius)
    ensures w.ballIds == [] ==> DecodeTable(StateFields(w), "balls", DeserializeBall) == Success((w.balls, w.ballIds))
  {
    DecodeAt(StateFields(w), 1, "balls", SerializeEntries(w.ballIds, w.balls, SerializeBall), DeserializeBall);
    if w.ballIds != [] {
      BallEntriesFail(w.ballIds, w.balls);
    } else {
      assert w.balls == map[];
    }
  }

  /** The hoop table of a serialised state is read back exactly. */
  lemma HoopsTableRoundTrip(w: World)
    requires Valid(w)
    ensures DecodeTable(StateFields(w), "hoops", DeserializeHoop) == Success((w.hoops, w.hoopIds))
  {
    DecodeAt(StateFields(w), 2, "hoops", SerializeEntries(w.hoopIds, w.hoops, SerializeHoop), DeserializeHoop);
    HoopEntries(w.hoopIds, w.hoops);
  }

  /** The state round trip, on the serialised fields. */
  lemma StateRoundTrip(w: World)
    requires Valid(w)
    ensures w.ballIds != [] ==> Deserialize(JObj(StateFields(w))) == Failure(MissingRadius)
    ensures w.ballIds == [] ==> Deserialize(JObj(StateFields(w))) == Success(RoundTripped(w))
  {
    PlayersTableRoundTrip(w);
    BallsTableRoundTrip(w);
    if w.ballIds == [] {
      HoopsTableRoundTrip(w);
      ScalarsRoundTrip(StateFields(w), w, Tables((RestoredPlayers(w), w.playerIds), (w.balls, w.ballIds), (w.hoops, w.hoopIds)));
    }
  }

  /** Decoding a serialised ball table fails at its first ball with the missing-radius TypeError. */
  lemma {:induction false} BallEntriesFail(ids: seq<Id>, balls: map<Id, Ball>)
    requires forall id :: id in ids ==> id in balls
    requires ids != []
    ensures DeserializeEntries(SerializeEntries(ids, balls, SerializeBall), DeserializeBall) == Failure(MissingRadius)
  {
    var e := SerializeEntries(ids, balls, SerializeBall);
    var n := |ids|;
    assert e[..|e| - 1] == SerializeEntries(ids[..n - 1], balls, SerializeBall);
    if n > 1 {
      BallEntriesFail(ids[..n - 1], balls);
    } else {
      BallRoundTripFails(balls[ids[0]]);
    }
  }

  /* ---------------- table updates ---------------- */

  /**
    * `add_player`: stores the player under its id, where it is then found;
    * every other lookup is unchanged and a new id goes to the end of the
    * table order.
    */
  function WithPlayer(w: World, p: Player): (r: World)
    ensures GetPlayer(r, p.id) == Some(p)
    ensures forall id :: id != p.id ==> GetPlayer(r, id) == GetPlayer(w, id)
    ensures w.playerIds <= r.playerIds && |r.playerIds| <= |w.playerIds| + 1
    ensures r.balls == w.balls && r.hoops == w.hoops
  {
    w.(players := w.players[p.id := p], playerIds := if p.id in w.players then w.playerIds else w.playerIds + [p.id])
  }

  /** `remove_player`: afterwards `id` is not found, every other lookup is unchanged, and the order drops only `id`. */
  function WithoutPlayer(w: World, id: Id): (r: World)
    ensures GetPlayer(r, id) == None
    ensures forall other :: other != id ==> GetPlayer(r, other) == GetPlayer(w, other)
    ensures forall x :: x in r.playerIds <==> x in w.playerIds && (x != id || id !in w.players)
    ensures r.balls == w.balls && r.hoops == w.hoops
  {
    if id in w.players then w.(players := w.players - {id}, playerIds := Without(w.playerIds, id)) else w
  }

  /** `update_player`: replaces an existing entry and never inserts; the keys and their order stay. */
  function ReplacingPlayer(w: World, p: Player): (r: World)
    ensures r.players.Keys == w.players.Keys && r.playerIds == w.playerIds
    ensures p.id in w.players ==> GetPlayer(r, p.id) == Some(p)
    ensures forall id :: id != p.id ==> GetPlayer(r, id) == GetPlayer(w, id)
  {
    if p.id in w.players then w.(players := w.players[p.id := p]) else w
  }

  /** `add_ball`: the ball is then found under its id, every other lookup is unchanged, and a new id goes last. */
  function WithBall(w: World, b: Ball): (r: World)
    ensures GetBall(r, b.id) == Some(b)
    ensures forall id :: id != b.id ==> GetBall(r, id) == GetBall(w, id)
    ensures w.ballIds <= r.ballIds && |r.ballIds| <= |w.ballIds| + 1
    ensures r.players == w.players && r.hoops == w.hoops
  {
    w.(balls := w.balls[b.id := b], ballIds := if b.id in w.balls then w.ballIds else w.ballIds + [b.id])
  }

  /** After `add_player` the player is found under its id, every other lookup is unchanged, and the tables stay consistent. */
  lemma AddPlayerFacts(w: World, p: Player)
    requires Valid(w) && p.id !in w.balls
    ensures Valid(WithPlayer(w, p))
    ensures GetPlayer(WithPlayer(w, p), p.id) == Some(p)
    ensures forall id :: id != p.id ==> GetPlayer(WithPlayer(w, p), id) == GetPlayer(w, id)
  {
    var r := WithPlayer(w, p);
    if p.id !in w.players {
      assert p.id !in w.playerIds;
      forall i, j | 0 <= i < j < |r.playerIds| ensures r.playerIds[i] != r.playerIds[j] {
        if j == |w.playerIds| {
          assert w.playerIds[i] in w.playerIds;
        }
      }
    }
  }

  /** `remove_player` of an absent id changes nothing; otherwise only that player disappears. */
  lemma RemovePlayerFacts(w: World, id: Id)
    requires Valid(w)
    ensures id !in w.players ==> WithoutPlayer(w, id) == w
    ensures Valid(WithoutPlayer(w, id))
    ensures GetPlayer(WithoutPlayer(w, id), id) == None
    ensures forall other :: other != id ==> GetPlayer(WithoutPlayer(w, id), other) == GetPlayer(w, other)
  {
  }

  /** `update_player` never inserts: the key set and order are unchanged, and an absent id leaves the state as it was. */
  lemma UpdatePlayerFacts(w: World, p: Player)
    requires Valid(w)
    ensures ReplacingPlayer(w, p).players.Keys == w.players.Keys
    ensures ReplacingPlayer(w, p).playerIds == w.playerIds
    ensures p.id !in w.players ==> ReplacingPlayer(w, p) == w
    ensures p.id in w.players ==> GetPlayer(ReplacingPlayer(w, p), p.id) == Some(p)
  {
  }

  /* ---------------- steps of the logic components ---------------- */

  /** The two tables the logic components rewrite in place. */
  datatype Board = Board(players: map<Id, Player>, balls: map<Id, Ball>)

  function BoardOf(w: World): Board
  {
    Board(w.players, w.balls)
  }

  /** A step that only rewrites records keeps the keys of both tables. */
  predicate SameKeys(bd: Board, bd': Board)
  {
    bd'.players.Keys == bd.players.Keys && bd'.balls.Keys == bd.balls.Keys
  }

  /** The tables a step leaves and whether it raised; what was written before an error stays written. */
  datatype Moved = Moved(bd: Board, out: Outcome)

  /** The players a scan over them leaves and whether it raised part-way. */
  datatype Shifted = Shifted(players: map<Id, Player>, out: Outcome)

  /**
    * The tables together with the third-dodgeball state: what the dodgeball
    * rules and the interference penalty read and rewrite, and whether they raised.
    */
  datatype Ruling = Ruling(bd: Board, third: Option<Id>, thirdTeam: Option<int>, pending: Option<Interference>, out: Outcome)

  function DigitChar(d: nat): char
    requires d < 10
  {
    "0123456789"[d]
  }

  function Digits(n: nat): string
  {
    if n < 10 then [DigitChar(n)] else Digits(n / 10) + [DigitChar(n % 10)]
  }

  /** Python's `str` of an integer. */
  function IntToString(n: int): string
  {
    if n < 0 then "-" + Digits(-n) else Digits(n)
  }

  /** The key of a team's centre hoop, `f'hoop_{team}_center'`. */
  function HoopKey(team: int): string
  {
    "hoop_" + IntToString(team) + "_center"
  }

  /** `squared_distances.get(id, [])`: the distance list of `id`, nearest first, or none. */
  function DistancesOf(dists: map<Id, seq<(Id, real)>>, id: Id): seq<(Id, real)>
  {
    if id in dists then dists[id] else []
  }

  /**
    * The mutable game state shared by every logic component. Its fields are
    * the tables and flags of `World`; `Snapshot` reads them as one value.
    */
  class GameState {
    const cfg: Config
    var players: map<Id, Player>
    var playerIds: seq<Id>
    var balls: map<Id, Ball>
    var ballIds: seq<Id>
    var hoops: map<Id, Hoop>
    var hoopIds: seq<Id>
    var score: seq<int>
    var squaredDistances: map<Id, seq<(Id, real)>>
    var squaredDistancesDicts: map<Id, map<Id, real>>
    var gameTime: real
    var delayWarnings: map<int, int>
    var thirdDodgeball: Option<Id>
    var thirdDodgeballTeam: Option<int>
    var pendingInterference: Option<Interference>
    var seekerOnPitch: bool
    var setScore: Option<int>
    var gamePhase: string

    /** The players and balls tables. */
    function Tables(): Board
      reads this
    {
      Board(players, balls)
    }

    function Ruled(out: Outcome): Ruling
      reads this
    {
      Ruling(Tables(), thirdDodgeball, thirdDodgeballTeam, pendingInterference, out)
    }

    function Snapshot(): World
      reads this
    {
      World(cfg, players, playerIds, balls, ballIds, hoops, hoopIds, score, squaredDistances,
            squaredDistancesDicts, gameTime, delayWarnings, thirdDodgeball, thirdDodgeballTeam,
            pendingInterference, seekerOnPitch, setScore, gamePhase)
    }

    /** A fresh state with the given configuration and the record's defaults. */
    constructor (cfg: Config)
      ensures Snapshot() == EmptyWorld().(cfg := cfg)
    {
      this.cfg := cfg;
      var w := EmptyWorld();
      players, playerIds, balls, ballIds, hoops, hoopIds := w.players, w.playerIds, w.balls, w.ballIds, w.hoops, w.hoopIds;
      score, squaredDistances, squaredDistancesDicts, gameTime := w.score, w.squaredDistances, w.squaredDistancesDicts, w.gameTime;
      delayWarnings, thirdDodgeball, thirdDodgeballTeam := w.delayWarnings, w.thirdDodgeball, w.thirdDodgeballTeam;
      pendingInterference, seekerOnPitch, setScore, gamePhase := w.pendingInterference, w.seekerOnPitch, w.setScore, w.gamePhase;
    }

    method AddPlayer(p: Player)
      modifies this
      ensures Snapshot() == WithPlayer(old(Snapshot()), p)
    {
      if p.id !in players {
        playerIds := playerIds + [p.id];
      }
      players := players[p.id := p];
    }

    method RemovePlayer(id: Id)
      modifies this
      ensures Snapshot() == WithoutPlayer(old(Snapshot()), id)
    {
      if id in players {
        players := players - {id};
        playerIds := Without(playerIds, id);
      }
    }

    method UpdatePlayer(p: Player)
      modifies this
      ensures Snapshot() == ReplacingPlayer(old(Snapshot()), p)
    {
      if p.id in players {
        players := players[p.id := p];
      }
    }

    method AddBall(b: Ball)
      modifies this
      ensures Snapshot() == WithBall(old(Snapshot()), b)
    {
      if b.id !in balls {
        ballIds := ballIds + [b.id];
      }
      balls := balls[b.id := b];
    }

    /** `update_score`; the IndexError of a short score list is returned and nothing changes. */
    method UpdateScore(team: int, points: int) returns (out: Outcome)
      modifies this`score
      ensures AddScore(old(score), team, points).Success? ==> out == Pass && score == AddScore(old(score), team, points).value
      ensures AddScore(old(score), team, points).Failure? ==> out == Fail(AddScore(old(score), team, points).error) && score == old(score)
    {
      if team == 0 || team == 1 {
        if team < |score| {
          score := score[team := score[team] + points];
        } else {
          return Fail(IndexError(team));
        }
      }
      return Pass;
    }

    method UpdateGameTime(dt: real)
      modifies this
      ensures Snapshot() == AdvanceClock(old(Snapshot()), dt)
    {
      gameTime := gameTime + dt;
      if gameTime >= cfg.seekerFloorSeconds as real && !seekerOnPitch {
        seekerOnPitch := true;
      }
    }
  }
}
