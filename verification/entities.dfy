/** Players, balls and hoops: the records the rules engine reads and rewrites. */
module Entities {
  import opened Wrappers
  import opened Json
  import opened Vectors

  type Id = string

  datatype Role = Keeper | Chaser | Beater | Seeker

  /** The string value of each role, as serialised. */
  function RoleValue(r: Role): string
  {
    match r
    case Keeper => "keeper"
    case Chaser => "chaser"
    case Beater => "beater"
    case Seeker => "seeker"
  }

  /** `PlayerRole(value)`: the role with that value, or a ValueError. */
  function RoleFrom(j: Json): (r: Result<Role>)
    ensures r.Success? ==> j == JStr(RoleValue(r.value))
    ensures r.Failure? ==> r.error.ValueError?
  {
    if j == JStr("keeper") then Success(Keeper)
    else if j == JStr("chaser") then Success(Chaser)
    else if j == JStr("beater") then Success(Beater)
    else if j == JStr("seeker") then Success(Seeker)
    else Failure(ValueError("not a valid PlayerRole"))
  }

  lemma RoleRoundTrip(r: Role)
    ensures RoleFrom(JStr(RoleValue(r))) == Success(r)
  {
  }

  /**
    * A player's `has_ball`: False when it never held a ball, None after it
    * dropped one, and the ball's id while it holds one.
    */
  datatype HasBall = NoBall | Dropped | Holding(ballId: Id)

  /** The truth value of `has_ball`: only a non-empty id is true. */
  predicate Loaded(h: HasBall) { h.Holding? && h.ballId != "" }

  datatype Player = Player(
    id: Id,
    team: int,
    role: Role,
    position: Vec,
    previousPosition: Vec,
    direction: Vec,
    velocity: Vec,
    radius: real,
    isKnockedOut: bool,
    hasBall: HasBall,
    maxSpeed: real,
    minSpeed: real,
    acceleration: real,
    deaccelerationRate: real,
    minDir: real,
    throwVelocity: real,
    catchCooldown: real,
    dodgeballImmunity: bool,
    inbounding: Option<Id>,
    inContact: seq<Id>,
    /** `is_receiving_turnover_ball`, an attribute only set by pickups and turnovers: None while it does not exist. */
    receivingTurnover: Option<bool>)

  /** A player with the record's default values. */
  function NewPlayer(id: Id, team: int, role: Role, position: Vec): Player
  {
    Player(id, team, role, position, Zero, Zero, Zero, 0.3, false, NoBall,
           2.0, 0.3, 1.0, 0.5, 0.2, 8.0, 0.0, false, None, [], None)
  }

  /** The fields only one kind of ball has. */
  datatype BallKind =
    | Volleyball(crossedHoop: Option<(Id, real)>, inbounder: Option<Id>, isDead: bool, delayTimer: real)
    | Dodgeball(beatAttemptTime: real, deadVelocityThreshold: real)

  datatype Ball = Ball(
    id: Id,
    kind: BallKind,
    radius: real,
    position: Vec,
    previousPosition: Vec,
    velocity: Vec,
    deaccelerationRate: real,
    possessionTeam: Option<int>,
    holderId: Option<Id>,
    previousThrowerId: Option<Id>,
    reflectLoss: real,
    turnoverTo: Option<Id>)

  function NewVolleyBall(id: Id, radius: real, position: Vec): Ball
  {
    Ball(id, Volleyball(None, None, false, 0.0), radius, position, Zero, Zero, 0.0, None, None, None, 0.3, None)
  }

  function NewDodgeBall(id: Id, radius: real, position: Vec): Ball
  {
    Ball(id, Dodgeball(0.0, 0.0), radius, position, Zero, Zero, 0.0, None, None, None, 0.3, None)
  }

  predicate IsVolleyball(b: Ball) { b.kind.Volleyball? }

  predicate IsDodgeball(b: Ball) { b.kind.Dodgeball? }

  /** `is_dead`, read only where the engine guards it by the ball's type. */
  predicate IsDead(b: Ball) { b.kind.Volleyball? && b.kind.isDead }

  function BallTypeValue(b: Ball): string
  {
    if b.kind.Volleyball? then "volleyball" else "dodgeball"
  }

  datatype Hoop = Hoop(id: Id, team: int, position: Vec, radius: real, thickness: real)

  /* ---------------- serialisation ---------------- */

  function HasBallToJson(h: HasBall): Json
  {
    match h
    case NoBall => JBool(false)
    case Dropped => JNull
    case Holding(b) => JStr(b)
  }

  function HasBallFromJson(j: Json): (r: Result<HasBall>)
    ensures r.Success? ==> HasBallToJson(r.value) == j
  {
    match j
    case JBool(false) => Success(NoBall)
    case JNull => Success(Dropped)
    case JStr(b) => Success(Holding(b))
    case _ => Failure(Unrepresentable("has_ball"))
  }

  function OptionIdToJson(o: Option<Id>): Json
  {
    match o
    case None => JNull
    case Some(s) => JStr(s)
  }

  /** The eight fields `Player.serialize` writes; every other field is left out. */
  function PlayerFields(p: Player): seq<(string, Json)>
  {
    [("id", JStr(p.id)), ("team", JInt(p.team)), ("role", JStr(RoleValue(p.role))),
     ("position", ToDict(p.position)), ("direction", ToDict(p.direction)),
     ("velocity", ToDict(p.velocity)), ("is_knocked_out", JBool(p.isKnockedOut)),
     ("has_ball", HasBallToJson(p.hasBall))]
  }

  /**
    * `Player.serialize`. Reading the result back keeps id, team, role,
    * position, velocity, is_knocked_out and has_ball and resets everything
    * else, the direction included, to its default.
    */
  function SerializePlayer(p: Player): (r: Json)
    ensures DeserializePlayer(r) == Success(Restored(p))
  {
    PlayerRoundTrip(p);
    JObj(PlayerFields(p))
  }

  /** The identity fields `id`, `team` and `role`, read in that order. */
  function ReadIdentity(fields: seq<(string, Json)>): Result<(Id, int, Role)>
  {
    match Index(fields, "id")
    case Failure(e) => Failure(e)
    case Success(jid) =>
      match AsString(jid, "id")
      case Failure(e) => Failure(e)
      case Success(id) =>
        match Index(fields, "team")
        case Failure(e) => Failure(e)
        case Success(jteam) =>
          match AsInt(jteam, "team")
          case Failure(e) => Failure(e)
          case Success(team) =>
            match Index(fields, "role")
            case Failure(e) => Failure(e)
            case Success(jrole) =>
              match RoleFrom(jrole)
              case Failure(e) => Failure(e)
              case Success(role) => Success((id, team, role))
  }

  /** A vector stored under `key`. */
  function ReadVec(fields: seq<(string, Json)>, key: string): Result<Vec>
  {
    match Index(fields, key)
    case Failure(e) => Failure(e)
    case Success(j) => FromDict(j)
  }

  /** The status fields `is_knocked_out` and `has_ball`. */
  function ReadStatus(fields: seq<(string, Json)>): Result<(bool, HasBall)>
  {
    match Index(fields, "is_knocked_out")
    case Failure(e) => Failure(e)
    case Success(jko) =>
      match AsBool(jko, "is_knocked_out")
      case Failure(e) => Failure(e)
      case Success(ko) =>
        match Index(fields, "has_ball")
        case Failure(e) => Failure(e)
        case Success(jhb) =>
          match HasBallFromJson(jhb)
          case Failure(e) => Failure(e)
          case Success(hb) => Success((ko, hb))
  }

  /**
    * `Player.deserialize`: reads id, team, role, position, velocity,
    * is_knocked_out and has_ball in that order; the direction and every other
    * field take their defaults.
    */
  function DeserializePlayer(j: Json): (r: Result<Player>)
    ensures r.Success? ==> r.value.direction == Zero && r.value.inContact == []
                           && r.value.catchCooldown == 0.0 && r.value.inbounding == None
    ensures j.JObj? && Get(j.fields, "id").None? ==> r == Failure(KeyError("id"))
  {
    match AsObject(j)
    case Failure(e) => Failure(e)
    case Success(fields) =>
      match ReadIdentity(fields)
      case Failure(e) => Failure(e)
      case Success(ident) =>
        match ReadVec(fields, "position")
        case Failure(e) => Failure(e)
        case Success(pos) =>
          match ReadVec(fields, "velocity")
          case Failure(e) => Failure(e)
          case Success(vel) =>
            match ReadStatus(fields)
            case Failure(e) => Failure(e)
            case Success(status) =>
              Success(NewPlayer(ident.0, ident.1, ident.2, pos).(velocity := vel, isKnockedOut := status.0, hasBall := status.1))
  }

  /** What a player becomes after a serialisation round trip. */
  function Restored(p: Player): Player
  {
    NewPlayer(p.id, p.team, p.role, p.position).(velocity := p.velocity, isKnockedOut := p.isKnockedOut, hasBall := p.hasBall)
  }

  /** The player round trip, on the serialised fields. */
  lemma PlayerRoundTrip(p: Player)
    ensures DeserializePlayer(JObj(PlayerFields(p))) == Success(Restored(p))
  {
    var f := PlayerFields(p);
    PlayerFieldsRoundTrip(p);
    assert AsObject(JObj(f)) == Success(f);
  }

  lemma PlayerFieldsRoundTrip(p: Player)
    ensures ReadIdentity(PlayerFields(p)) == Success((p.id, p.team, p.role))
    ensures ReadVec(PlayerFields(p), "position") == Success(p.position)
    ensures ReadVec(PlayerFields(p), "velocity") == Success(p.velocity)
    ensures ReadStatus(PlayerFields(p)) == Success((p.isKnockedOut, p.hasBall))
  {
    var f := PlayerFields(p);
    GetAt(f, 0, "id");
    GetAt(f, 1, "team");
    GetAt(f, 2, "role");
    RoleRoundTrip(p.role);
    PlayerVectorsRoundTrip(p);
    PlayerStatusRoundTrip(p);
  }

  lemma PlayerVectorsRoundTrip(p: Player)
    ensures ReadVec(PlayerFields(p), "position") == Success(p.position)
    ensures ReadVec(PlayerFields(p), "velocity") == Success(p.velocity)
  {
    var f := PlayerFields(p);
    GetAt(f, 3, "position");
    GetAt(f, 5, "velocity");
  }

  lemma PlayerStatusRoundTrip(p: Player)
    ensures ReadStatus(PlayerFields(p)) == Success((p.isKnockedOut, p.hasBall))
  {
    var f := PlayerFields(p);
    GetAt(f, 6, "is_knocked_out");
    GetAt(f, 7, "has_ball");
    assert HasBallFromJson(HasBallToJson(p.hasBall)) == Success(p.hasBall);
  }

  /** The fields `Ball.serialize` writes: the radius and every type-specific field are left out. */
  function BallFields(b: Ball): seq<(string, Json)>
  {
    [("id", JStr(b.id)), ("ball_type", JStr(BallTypeValue(b))), ("position", ToDict(b.position)),
     ("velocity", ToDict(b.velocity)), ("holder_id", OptionIdToJson(b.holderId))]
  }

  /** `Ball.serialize`, whose result never deserialises: the radius it omits is demanded back. */
  function SerializeBall(b: Ball): (r: Json)
    ensures DeserializeBall(r) == Failure(MissingRadius)
  {
    BallRoundTripFails(b);
    JObj(BallFields(b))
  }

  /** The error the constructor call raises: the base record demands a radius. */
  const MissingRadius: Error := TypeError("missing 1 required positional argument: 'radius'")

  /**
    * `Ball.deserialize`: the arguments are evaluated in order (id, ball_type,
    * position, velocity, holder_id) and then the base record is built
    * without a radius, which always raises.
    */
  function DeserializeBall(j: Json): (r: Result<Ball>)
    ensures r.Failure?
  {
    match AsObject(j)
    case Failure(e) => Failure(e)
    case Success(fields) =>
      match Index(fields, "id")
      case Failure(e) => Failure(e)
      case Success(_) =>
        match Index(fields, "ball_type")
        case Failure(e) => Failure(e)
        case Success(jt) =>
          if jt != JStr("volleyball") && jt != JStr("dodgeball") then Failure(ValueError("not a valid BallType"))
          else
            match Index(fields, "position")
            case Failure(e) => Failure(e)
            case Success(jpos) =>
              match FromDict(jpos)
              case Failure(e) => Failure(e)
              case Success(_) =>
                match Index(fields, "velocity")
                case Failure(e) => Failure(e)
                case Success(jvel) =>
                  match FromDict(jvel)
                  case Failure(e) => Failure(e)
                  case Success(_) => Failure(MissingRadius)
  }

  /** Every serialised ball fails to deserialise, with the missing-radius TypeError. */
  lemma BallRoundTripFails(b: Ball)
    ensures DeserializeBall(JObj(BallFields(b))) == Failure(MissingRadius)
  {
    var f := BallFields(b);
    GetAt(f, 0, "id");
    GetAt(f, 1, "ball_type");
    GetAt(f, 2, "position");
    GetAt(f, 3, "velocity");
  }

  /** The five fields `Hoop.serialize` writes: every field of the record. */
  function HoopFields(h: Hoop): seq<(string, Json)>
  {
    [("id", JStr(h.id)), ("team", JInt(h.team)), ("position", ToDict(h.position)),
     ("radius", JReal(h.radius)), ("thickness", JReal(h.thickness))]
  }

  /** `Hoop.serialize`, which `Hoop.deserialize` inverts exactly. */
  function SerializeHoop(h: Hoop): (r: Json)
    ensures DeserializeHoop(r) == Success(h)
  {
    HoopRoundTrip(h);
    JObj(HoopFields(h))
  }

  /** The position a hoop gets when its record has none. */
  const DefaultHoopPosition: Json := JObj([("x", JInt(0)), ("y", JInt(0))])

  /**
    * `Hoop.deserialize`: every field is read with a default (position at the
    * origin, radius 0.0, thickness 0.1); an absent id or team would be stored
    * as None, which a typed hoop cannot hold.
    */
  function DeserializeHoop(j: Json): (r: Result<Hoop>)
    ensures j == JObj([]) ==> r == Failure(Unrepresentable("id"))
    ensures r.Success? && j.JObj? && Get(j.fields, "thickness").None? ==> r.value.thickness == 0.1
    ensures r.Success? && j.JObj? && Get(j.fields, "position").None? ==> r.value.position == Zero
  {
    if !j.JObj? then Failure(AttributeError("get"))
    else
      var fields := j.fields;
      match AsString(GetOr(fields, "id", JNull), "id")
      case Failure(e) => Failure(e)
      case Success(id) =>
        match AsInt(GetOr(fields, "team", JNull), "team")
        case Failure(e) => Failure(e)
        case Success(team) =>
          match FromDict(GetOr(fields, "position", DefaultHoopPosition))
          case Failure(e) => Failure(e)
          case Success(pos) =>
            match AsReal(GetOr(fields, "radius", JReal(0.0)), "radius")
            case Failure(e) => Failure(e)
            case Success(radius) =>
              match AsReal(GetOr(fields, "thickness", JReal(0.1)), "thickness")
              case Failure(e) => Failure(e)
              case Success(thickness) => Success(Hoop(id, team, pos, radius, thickness))
  }

  /** The hoop round trip, on the serialised fields. */
  lemma HoopRoundTrip(h: Hoop)
    ensures DeserializeHoop(JObj(HoopFields(h))) == Success(h)
  {
    var f := HoopFields(h);
    GetAt(f, 0, "id");
    GetAt(f, 1, "team");
    GetAt(f, 2, "position");
    GetAt(f, 3, "radius");
    GetAt(f, 4, "thickness");
  }
}
