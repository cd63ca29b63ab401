/**
  * Baseline kinematics: player steering and speed cap, the three ball-velocity
  * regimes, the Euler position step and collisions between free balls.
  */
module Basic {
  import opened Wrappers
  import opened Numerics
  import opened Vectors
  import opened Entities
  import opened State
  import opened Penalty

  /* ---------------- one player's velocity ---------------- */

  /** `direction`, rescaled to length 1 when it is longer than 1. */
  function Steer(dir: Vec, magDir: real): (r: Vec)
  {
    if magDir > 1.0 then DivBy(dir, magDir) else dir
  }

  /** `v + (-decel * v + dir * acc) * dt`, componentwise. */
  function Accelerate(v: Vec, dir: Vec, decel: real, acc: real, dt: real): Vec
  {
    Vec(v.x + (-decel * v.x + dir.x * acc) * dt, v.y + (-decel * v.y + dir.y * acc) * dt)
  }

  /**
    * The speed cap: a velocity faster than `maxSpeed` is scaled down to it, a
    * slow one with a short direction stops. Scaling a standing velocity
    * divides by zero, which only a negative cap can ask for.
    */
  function Cap(v: Vec, speed: real, maxSpeed: real, minSpeed: real, magDir: real, minDir: real): (r: Result<Vec>)
  {
    if speed > maxSpeed then
      if speed == 0.0 then Failure(ZeroDivisionError) else Success(Scale(v, maxSpeed / speed))
    else if speed < minSpeed && magDir < minDir then Success(Zero)
    else Success(v)
  }

  /** A player record after a step that may have raised part-way, with the writes made before the error. */
  datatype Stepped = Stepped(p: Player, out: Outcome)

  /**
    * `update_player_velocity`: a knocked-out player close enough to its own
    * centre hoop recovers, the direction is rescaled, the velocity is
    * accelerated and capped. The hoop is looked up only for a knocked-out
    * player, before anything is written; a division by zero in the cap comes
    * after the new direction and velocity are written.
    */
  function Kinematics(sqrt: real -> real, hoops: map<Id, Hoop>, p: Player, dt: real): (r: Stepped)
    ensures p.isKnockedOut && HoopKey(p.team) !in hoops ==> r == Stepped(p, Fail(KeyError(HoopKey(p.team))))
    ensures r.out.Fail? ==> r.out.error == ZeroDivisionError || (p.isKnockedOut && HoopKey(p.team) !in hoops)
  {
    var magDir := Length(sqrt, p.direction);
    if p.isKnockedOut && HoopKey(p.team) !in hoops then Stepped(p, Fail(KeyError(HoopKey(p.team))))
    else
      var recovered := p.isKnockedOut && magDir < p.radius + hoops[HoopKey(p.team)].thickness;
      var dir := Steer(p.direction, magDir);
      var v := Accelerate(p.velocity, dir, p.deaccelerationRate, p.acceleration, dt);
      var p' := p.(isKnockedOut := p.isKnockedOut && !recovered, direction := dir, velocity := v);
      var capped := Cap(v, Length(sqrt, v), p.maxSpeed, p.minSpeed, magDir, p.minDir);
      if capped.Failure? then Stepped(p', Fail(capped.error))
      else Stepped(p'.(velocity := capped.value), Pass)
  }

  /** A direction longer than 1 comes out with length exactly 1; any other is kept. */
  lemma SteerUnit(sqrt: real -> real, dir: Vec)
    requires IsSqrt(sqrt)
    ensures Length(sqrt, dir) > 1.0 ==> NormSq(Steer(dir, Length(sqrt, dir))) == 1.0
    ensures Length(sqrt, dir) <= 1.0 ==> Steer(dir, Length(sqrt, dir)) == dir
  {
    LengthFacts(sqrt, dir);
    var m := Length(sqrt, dir);
    if m > 1.0 {
      DivideByLength(dir, m);
    }
  }

  /** After the cap the velocity is never faster than the cap, whatever it was. */
  lemma CapBounds(sqrt: real -> real, v: Vec, maxSpeed: real, minSpeed: real, magDir: real, minDir: real)
    requires IsSqrt(sqrt)
    ensures var r := Cap(v, Length(sqrt, v), maxSpeed, minSpeed, magDir, minDir);
            r.Success? ==> NormSq(r.value) <= maxSpeed * maxSpeed
    ensures Cap(v, Length(sqrt, v), maxSpeed, minSpeed, magDir, minDir).Failure? <==> Length(sqrt, v) == 0.0 && maxSpeed < 0.0
  {
    LengthFacts(sqrt, v);
    var s := Length(sqrt, v);
    if s > maxSpeed {
      if s != 0.0 {
        ScaleToLength(v, s, maxSpeed);
      }
    } else {
      if 0.0 <= s {
        SquareMonotone(s, maxSpeed);
      }
      assert 0.0 <= maxSpeed * maxSpeed by { SquareNonNegative(maxSpeed); }
    }
  }

  lemma SquareNonNegative(a: real)
    ensures 0.0 <= a * a
  {
  }

  /** A slow player without a real direction stops dead, unless the cap applies first. */
  lemma CapStops(v: Vec, speed: real, maxSpeed: real, minSpeed: real, magDir: real, minDir: real)
    requires speed <= maxSpeed && speed < minSpeed && magDir < minDir
    ensures Cap(v, speed, maxSpeed, minSpeed, magDir, minDir) == Success(Zero)
  {
  }

  /**
    * The promises of `update_player_velocity`: the speed is capped, the
    * direction has length at most 1 after a rescale, a knocked-out player
    * recovers exactly when its direction is shorter than its radius plus its
    * hoop's thickness, and nothing but knockout, direction and velocity changes.
    */
  lemma KinematicsEffect(sqrt: real -> real, hoops: map<Id, Hoop>, p: Player, dt: real)
    requires IsSqrt(sqrt)
    ensures var r := Kinematics(sqrt, hoops, p, dt);
            && (r.out.Pass? ==> NormSq(r.p.velocity) <= p.maxSpeed * p.maxSpeed)
            && (!p.isKnockedOut || HoopKey(p.team) in hoops ==>
                  && (Length(sqrt, p.direction) > 1.0 ==> NormSq(r.p.direction) == 1.0)
                  && (Length(sqrt, p.direction) <= 1.0 ==> r.p.direction == p.direction)
                  && (p.isKnockedOut ==>
                        (r.p.isKnockedOut <==> Length(sqrt, p.direction) >= p.radius + hoops[HoopKey(p.team)].thickness))
                  && (!p.isKnockedOut ==> !r.p.isKnockedOut))
            && r.p == p.(isKnockedOut := r.p.isKnockedOut, direction := r.p.direction, velocity := r.p.velocity)
  {
    var magDir := Length(sqrt, p.direction);
    var dir := Steer(p.direction, magDir);
    var v := Accelerate(p.velocity, dir, p.deaccelerationRate, p.acceleration, dt);
    CapBounds(sqrt, v, p.maxSpeed, p.minSpeed, magDir, p.minDir);
    SteerUnit(sqrt, p.direction);
  }

  /** A slow player whose direction is shorter than `minDir` ends the step standing. */
  lemma KinematicsStops(sqrt: real -> real, hoops: map<Id, Hoop>, p: Player, dt: real)
    requires IsSqrt(sqrt)
    requires !p.isKnockedOut || HoopKey(p.team) in hoops
    requires var dir := Steer(p.direction, Length(sqrt, p.direction));
             var v := Accelerate(p.velocity, dir, p.deaccelerationRate, p.acceleration, dt);
             Length(sqrt, v) <= p.maxSpeed && Length(sqrt, v) < p.minSpeed && Length(sqrt, p.direction) < p.minDir
    ensures Kinematics(sqrt, hoops, p, dt).out.Pass? && Kinematics(sqrt, hoops, p, dt).p.velocity == Zero
  {
    var magDir := Length(sqrt, p.direction);
    var dir := Steer(p.direction, magDir);
    var v := Accelerate(p.velocity, dir, p.deaccelerationRate, p.acceleration, dt);
    CapStops(v, Length(sqrt, v), p.maxSpeed, p.minSpeed, magDir, p.minDir);
  }

  /* ---------------- steering every player ---------------- */

  /** The way back to the midline for a keeper whose team restarts with a held dead volleyball. */
  function MidlineWay(team: int): Vec
  {
    if team == 0 then Vec(-1.0, 0.0) else Vec(1.0, 0.0)
  }

  /**
    * The direction `update_player_velocities` sets before inbounding: a
    * knocked-out player heads for its own centre hoop; the keeper of the team
    * holding a dead volleyball goes for the ball while it is loose and back to
    * the midline once it is held. `vball` is the volleyball as the step found it.
    */
  function Aim(hoops: map<Id, Hoop>, vball: Option<Ball>, p: Player): (r: Result<Player>)
    ensures r.Success? ==> r.value == p.(direction := r.value.direction)
    ensures r.Failure? <==> p.isKnockedOut && HoopKey(p.team) !in hoops
  {
    if p.isKnockedOut then
      if HoopKey(p.team) !in hoops then Failure(KeyError(HoopKey(p.team)))
      else Success(p.(direction := Sub(hoops[HoopKey(p.team)].position, p.position)))
    else if vball.Some? && IsDead(vball.value) && vball.value.possessionTeam == Some(p.team) && p.role == Keeper then
      if vball.value.holderId.None? then Success(p.(direction := Sub(vball.value.position, p.position)))
      else Success(p.(direction := MidlineWay(p.team)))
    else Success(p)
  }

  /** One coordinate of the way off a boundary: +1 off the low side, -1 off the high side, else 0. */
  function AwayFrom(c: real, low: real, high: real, r: real): real
  {
    if c <= low + r then 1.0 else if c >= high - r then -1.0 else 0.0
  }

  /** The volleyball after its inbounder reached it; a dodgeball has no inbounder to clear. */
  function ClearInbounder(b: Ball): Ball
  {
    if b.kind.Volleyball? then b.(kind := b.kind.(inbounder := None)) else b
  }

  /**
    * The inbounding part of `update_player_velocities` for a player whose
    * `inbounding` ball `iid` is in the table: short of the ball it heads for
    * it; on reaching it the player faces away from the boundaries, stops, and
    * both the player's `inbounding` and the ball's `inbounder` are cleared,
    * together with the player's dodgeball immunity.
    */
  function Inbound(cfg: Config, p: Player, balls: map<Id, Ball>, iid: Id): (r: (Player, map<Id, Ball>))
    requires iid in balls
    ensures r.1.Keys == balls.Keys
  {
    var b := balls[iid];
    var gap := Sub(b.position, p.position);
    if NormSq(gap) > (p.radius + b.radius) * (p.radius + b.radius) then (p.(direction := gap), balls)
    else
      var dir := Vec(AwayFrom(b.position.x, cfg.boundaryX0, cfg.boundaryX1, p.radius),
                     AwayFrom(b.position.y, cfg.boundaryY0, cfg.boundaryY1, p.radius));
      (p.(direction := dir, velocity := Zero, inbounding := None, dodgeballImmunity := false),
       balls[iid := ClearInbounder(b)])
  }

  /**
    * The first part of the loop body of `update_player_velocities`: the
    * player is aimed, then an inbounding player whose ball is in the table
    * runs `Inbound`; a missing inbounding ball raises.
    */
  function Prepare(cfg: Config, hoops: map<Id, Hoop>, vball: Option<Ball>, bd: Board, pid: Id): (r: Moved)
    requires pid in bd.players
    ensures SameKeys(bd, r.bd)
  {
    var aimed := Aim(hoops, vball, bd.players[pid]);
    if aimed.Failure? then Moved(bd, Fail(aimed.error))
    else
      var p := aimed.value;
      if p.inbounding.None? then Moved(Board(bd.players[pid := p], bd.balls), Pass)
      else if p.inbounding.value !in bd.balls then Moved(Board(bd.players[pid := p], bd.balls), Fail(KeyError(p.inbounding.value)))
      else
        var (p', balls) := Inbound(cfg, p, bd.balls, p.inbounding.value);
        Moved(Board(bd.players[pid := p'], balls), Pass)
  }

  /** The body of the loop of `update_player_velocities` for the player stored under `pid`: `Prepare`, then `Kinematics`. */
  function PlayerStep(sqrt: real -> real, cfg: Config, hoops: map<Id, Hoop>, vball: Option<Ball>, dt: real,
                      bd: Board, pid: Id): (r: Moved)
    ensures SameKeys(bd, r.bd)
  {
    if pid !in bd.players then Moved(bd, Pass)
    else
      var m := Prepare(cfg, hoops, vball, bd, pid);
      if m.out.Fail? then m
      else
        var k := Kinematics(sqrt, hoops, m.bd.players[pid], dt);
        Moved(Board(m.bd.players[pid := k.p], m.bd.balls), k.out)
  }

  /** The loop of `update_player_velocities` over the players in table order; it stops at an error. */
  function SteerAll(sqrt: real -> real, cfg: Config, hoops: map<Id, Hoop>, vball: Option<Ball>, dt: real,
                    bd: Board, ids: seq<Id>): (r: Moved)
    ensures SameKeys(bd, r.bd)
    decreases |ids|
  {
    if ids == [] then Moved(bd, Pass)
    else
      var m := PlayerStep(sqrt, cfg, hoops, vball, dt, bd, ids[0]);
      if m.out.Fail? then m else SteerAll(sqrt, cfg, hoops, vball, dt, m.bd, ids[1..])
  }

  /** The volleyball `update_player_velocities` reads: the first in table order, as a value. */
  function VolleyballValue(ids: seq<Id>, balls: map<Id, Ball>): (r: Option<Ball>)
    ensures r.Some? ==> IsVolleyball(r.value)
  {
    var vb := VolleyballIn(ids, balls);
    if vb.Some? then Some(balls[vb.value]) else None
  }

  /**
    * A knocked-out player without an inbounding ball heads for its own centre
    * hoop: its new direction is the way to the hoop, rescaled if longer than 1,
    * and it then moves as `Kinematics` says.
    */
  lemma KnockedOutHeadsHome(sqrt: real -> real, cfg: Config, hoops: map<Id, Hoop>, vball: Option<Ball>, dt: real,
                            bd: Board, pid: Id)
    requires pid in bd.players && bd.players[pid].isKnockedOut && bd.players[pid].inbounding.None?
    requires HoopKey(bd.players[pid].team) in hoops
    ensures var p := bd.players[pid];
            var k := Kinematics(sqrt, hoops, p.(direction := Sub(hoops[HoopKey(p.team)].position, p.position)), dt);
            var r := PlayerStep(sqrt, cfg, hoops, vball, dt, bd, pid);
            r == Moved(Board(bd.players[pid := k.p], bd.balls), k.out)
  {
  }

  /**
    * Reaching the inbounding ball ends the procedure: the player's
    * `inbounding`, the ball's `inbounder` and the player's immunity are
    * cleared together and the player starts the velocity update from rest.
    */
  lemma InboundingEnds(cfg: Config, p: Player, balls: map<Id, Ball>, iid: Id)
    requires iid in balls
    requires var b := balls[iid];
             NormSq(Sub(b.position, p.position)) <= (p.radius + b.radius) * (p.radius + b.radius)
    ensures var (p', balls') := Inbound(cfg, p, balls, iid);
            && p'.inbounding.None? && !p'.dodgeballImmunity && p'.velocity == Zero
            && (IsVolleyball(balls[iid]) ==> balls'[iid].kind.inbounder.None?)
            && balls' == balls[iid := balls'[iid]]
            && balls'[iid].position == balls[iid].position
  {
  }

  /** Short of its ball the inbounder only turns towards it. */
  lemma InboundingApproaches(cfg: Config, p: Player, balls: map<Id, Ball>, iid: Id)
    requires iid in balls
    requires var b := balls[iid];
             NormSq(Sub(b.position, p.position)) > (p.radius + b.radius) * (p.radius + b.radius)
    ensures Inbound(cfg, p, balls, iid) == (p.(direction := Sub(balls[iid].position, p.position)), balls)
  {
  }

  /** The keeper of the team restarting with a held dead volleyball turns back towards the midline. */
  lemma KeeperReturns(hoops: map<Id, Hoop>, vball: Option<Ball>, p: Player)
    requires !p.isKnockedOut && p.role == Keeper
    requires vball.Some? && IsDead(vball.value) && vball.value.possessionTeam == Some(p.team) && vball.value.holderId.Some?
    ensures Aim(hoops, vball, p) == Success(p.(direction := MidlineWay(p.team)))
    ensures MidlineWay(p.team).x == (if p.team == 0 then -1.0 else 1.0) && MidlineWay(p.team).y == 0.0
  {
  }

  /** The loop only rewrites the listed players: every other player comes out as it went in. */
  lemma {:induction false} SteerAllOthers(sqrt: real -> real, cfg: Config, hoops: map<Id, Hoop>, vball: Option<Ball>, dt: real,
                                          bd: Board, ids: seq<Id>, id: Id)
    requires id in bd.players && id !in ids
    ensures SteerAll(sqrt, cfg, hoops, vball, dt, bd, ids).bd.players[id] == bd.players[id]
    decreases |ids|
  {
    if ids != [] {
      var m := PlayerStep(sqrt, cfg, hoops, vball, dt, bd, ids[0]);
      StepKeepsOthers(sqrt, cfg, hoops, vball, dt, bd, ids[0], id);
      if m.out.Pass? {
        SteerAllOthers(sqrt, cfg, hoops, vball, dt, m.bd, ids[1..], id);
      }
    }
  }

  /** One step rewrites at most the player it is about. */
  lemma StepKeepsOthers(sqrt: real -> real, cfg: Config, hoops: map<Id, Hoop>, vball: Option<Ball>, dt: real,
                        bd: Board, pid: Id, id: Id)
    requires id in bd.players && id != pid
    ensures PlayerStep(sqrt, cfg, hoops, vball, dt, bd, pid).bd.players[id] == bd.players[id]
  {
    if pid in bd.players {
      var m := Prepare(cfg, hoops, vball, bd, pid);
      assert m.bd.players[id] == bd.players[id];
    }
  }

  /* ---------------- ball velocities ---------------- */

  /** `get_free_ball_velocity`: friction takes `drag * v * dt` off each component. */
  function FreeVelocity(b: Ball, dt: real): Vec
  {
    Vec(b.velocity.x - b.deaccelerationRate * b.velocity.x * dt, b.velocity.y - b.deaccelerationRate * b.velocity.y * dt)
  }

  /** A free ball's velocity is its old one scaled by `1 - drag * dt`. */
  lemma FreeVelocityScales(b: Ball, dt: real)
    ensures FreeVelocity(b, dt) == Scale(b.velocity, 1.0 - b.deaccelerationRate * dt)
  {
    var d, vx, vy := b.deaccelerationRate, b.velocity.x, b.velocity.y;
    var x', y' := vx - d * vx * dt, vy - d * vy * dt;
    Distribute(vx, d, dt, x');
    Distribute(vy, d, dt, y');
    assert FreeVelocity(b, dt) == Vec(x', y');
  }

  lemma Distribute(v: real, d: real, t: real, r: real)
    requires r == v - d * v * t
    ensures r == v * (1.0 - d * t)
  {
  }

  /**
    * The velocity of a ball in turnover towards its receiver: straight at the
    * receiver, scaled down to the receiver's throw velocity when the way is
    * longer. The ball's velocity is the way itself until the division, so a
    * division by zero leaves it there.
    */
  function TurnoverVelocity(sqrt: real -> real, receiver: Player, b: Ball): (r: Result<Vec>)
    ensures r.Failure? ==> r.error == ZeroDivisionError
  {
    var way := Sub(receiver.position, b.position);
    var mag := Length(sqrt, way);
    if mag > receiver.throwVelocity then
      if mag == 0.0 then Failure(ZeroDivisionError) else Success(Scale(DivBy(way, mag), receiver.throwVelocity))
    else Success(way)
  }

  /** The steering never makes the ball faster than the receiver's throw velocity. */
  lemma TurnoverVelocityBound(sqrt: real -> real, receiver: Player, b: Ball)
    requires IsSqrt(sqrt)
    ensures var r := TurnoverVelocity(sqrt, receiver, b);
            r.Success? ==> NormSq(r.value) <= receiver.throwVelocity * receiver.throwVelocity
    ensures var way := Sub(receiver.position, b.position);
            Length(sqrt, way) <= receiver.throwVelocity ==> TurnoverVelocity(sqrt, receiver, b) == Success(way)
  {
    var way := Sub(receiver.position, b.position);
    var mag := Length(sqrt, way);
    var tv := receiver.throwVelocity;
    LengthFacts(sqrt, way);
    if mag > tv {
      if mag != 0.0 {
        DivideByLength(way, mag);
        assert Scale(DivBy(way, mag), tv) == Scale(way, tv / mag) by { QuotientTimes(way.x, mag, tv); QuotientTimes(way.y, mag, tv); }
        ScaleToLength(way, mag, tv);
      }
    } else {
      SquareMonotone(mag, tv);
    }
  }

  lemma QuotientTimes(a: real, m: real, t: real)
    requires m != 0.0
    ensures a / m * t == a * (t / m)
  {
  }

  /**
    * The velocity regimes of `update_ball_velocities` for the ball under
    * `bid`. A ball in turnover whose receiver is gone or knocked out is first
    * designated anew; it then steers at its (possibly new) receiver if that one
    * is present and awake. A free ball slows down, and a free dodgeball
    * slower than its dead threshold loses its possession. A held ball takes
    * its holder's velocity.
    */
  function BallStep(sqrt: real -> real, sd: map<Id, seq<(Id, real)>>, dt: real, bd: Board, bid: Id): (r: Moved)
    ensures SameKeys(bd, r.bd)
  {
    if bid !in bd.balls then Moved(bd, Pass)
    else
      var b := bd.balls[bid];
      if b.turnoverTo.Some? then
        var pid := b.turnoverTo.value;
        var m := if pid !in bd.players || bd.players[pid].isKnockedOut then Turnover(bd, sd, bid) else Moved(bd, Pass);
        if m.out.Fail? then m
        else
          var b1 := m.bd.balls[bid];
          if b1.turnoverTo.None? || b1.turnoverTo.value !in m.bd.players || m.bd.players[b1.turnoverTo.value].isKnockedOut then m
          else
            var receiver := m.bd.players[b1.turnoverTo.value];
            var steer := TurnoverVelocity(sqrt, receiver, b1);
            if steer.Failure? then
              Moved(Board(m.bd.players, m.bd.balls[bid := b1.(velocity := Sub(receiver.position, b1.position))]), Fail(steer.error))
            else Moved(Board(m.bd.players, m.bd.balls[bid := b1.(velocity := steer.value)]), Pass)
      else if b.holderId.None? then
        var v := FreeVelocity(b, dt);
        var dead := b.kind.Dodgeball? && NormSq(v) < b.kind.deadVelocityThreshold * b.kind.deadVelocityThreshold;
        Moved(Board(bd.players, bd.balls[bid := b.(velocity := v, possessionTeam := if dead then None else b.possessionTeam)]), Pass)
      else if b.holderId.value in bd.players then
        Moved(Board(bd.players, bd.balls[bid := b.(velocity := bd.players[b.holderId.value].velocity)]), Pass)
      else Moved(bd, Pass)
  }

  /** The loop of `update_ball_velocities` over the balls in table order; it stops at an error. */
  function BallsStep(sqrt: real -> real, sd: map<Id, seq<(Id, real)>>, dt: real, bd: Board, ids: seq<Id>): (r: Moved)
    ensures SameKeys(bd, r.bd)
    decreases |ids|
  {
    if ids == [] then Moved(bd, Pass)
    else
      var m := BallStep(sqrt, sd, dt, bd, ids[0]);
      if m.out.Fail? then m else BallsStep(sqrt, sd, dt, m.bd, ids[1..])
  }

  /** A free ball: slowed by friction, players untouched; a free dodgeball below its threshold is no one's. */
  lemma FreeBallRegime(sqrt: real -> real, sd: map<Id, seq<(Id, real)>>, dt: real, bd: Board, bid: Id)
    requires bid in bd.balls && bd.balls[bid].turnoverTo.None? && bd.balls[bid].holderId.None?
    ensures var b := bd.balls[bid];
            var r := BallStep(sqrt, sd, dt, bd, bid);
            && r.out == Pass && r.bd.players == bd.players
            && r.bd.balls == bd.balls[bid := r.bd.balls[bid]]
            && r.bd.balls[bid].velocity == Scale(b.velocity, 1.0 - b.deaccelerationRate * dt)
            && var slow := IsDodgeball(b) && NormSq(r.bd.balls[bid].velocity) < b.kind.deadVelocityThreshold * b.kind.deadVelocityThreshold;
               (slow ==> r.bd.balls[bid].possessionTeam.None?)
               && (!slow ==> r.bd.balls[bid] == b.(velocity := r.bd.balls[bid].velocity))
  {
    FreeVelocityScales(bd.balls[bid], dt);
  }

  /** A held ball moves exactly with its holder. */
  lemma HeldBallRegime(sqrt: real -> real, sd: map<Id, seq<(Id, real)>>, dt: real, bd: Board, bid: Id)
    requires bid in bd.balls && bd.balls[bid].turnoverTo.None? && bd.balls[bid].holderId.Some?
    requires bd.balls[bid].holderId.value in bd.players
    ensures BallStep(sqrt, sd, dt, bd, bid)
              == Moved(Board(bd.players, bd.balls[bid := bd.balls[bid].(velocity := bd.players[bd.balls[bid].holderId.value].velocity)]), Pass)
  {
  }

  /**
    * A ball in turnover to a present, awake receiver steers at it and is never
    * faster than the receiver's throw velocity; nothing else changes.
    */
  lemma TurnoverRegime(sqrt: real -> real, sd: map<Id, seq<(Id, real)>>, dt: real, bd: Board, bid: Id)
    requires IsSqrt(sqrt)
    requires bid in bd.balls && bd.balls[bid].turnoverTo.Some?
    requires bd.balls[bid].turnoverTo.value in bd.players && !bd.players[bd.balls[bid].turnoverTo.value].isKnockedOut
    ensures var b := bd.balls[bid];
            var receiver := bd.players[b.turnoverTo.value];
            var r := BallStep(sqrt, sd, dt, bd, bid);
            && r.bd.players == bd.players
            && r.bd.balls == bd.balls[bid := b.(velocity := r.bd.balls[bid].velocity)]
            && (r.out.Pass? ==> NormSq(r.bd.balls[bid].velocity) <= receiver.throwVelocity * receiver.throwVelocity)
            && (Length(sqrt, Sub(receiver.position, b.position)) <= receiver.throwVelocity ==>
                  r.out.Pass? && r.bd.balls[bid].velocity == Sub(receiver.position, b.position))
  {
    var b := bd.balls[bid];
    TurnoverVelocityBound(sqrt, bd.players[b.turnoverTo.value], b);
  }

  /**
    * A ball in turnover whose receiver is gone or knocked out gets a new
    * designation first; when no candidate is eligible it keeps its target and
    * keeps its velocity too.
    */
  lemma TurnoverRedesignated(sqrt: real -> real, sd: map<Id, seq<(Id, real)>>, dt: real, bd: Board, bid: Id)
    requires bid in bd.balls && bd.balls[bid].turnoverTo.Some?
    requires var pid := bd.balls[bid].turnoverTo.value; pid !in bd.players || bd.players[pid].isKnockedOut
    ensures var m := Turnover(bd, sd, bid);
            var r := BallStep(sqrt, sd, dt, bd, bid);
            && (m.out.Fail? ==> r == m)
            && (m.bd == bd && m.out.Pass? ==> r == m)
  {
  }

  /* ---------------- positions ---------------- */

  /** `get_update_position`: one Euler step, `position + velocity * dt`. */
  function Advanced(position: Vec, velocity: Vec, dt: real): (r: Vec)
    ensures dt == 0.0 ==> r == position
  {
    Vec(position.x + velocity.x * dt, position.y + velocity.y * dt)
  }

  /**
    * The keeper-zone test of `update_positions` at the new x. Team 0's zone
    * lies left of `keeperZoneX0`; team 1's test is written as `x <= keeperZoneX1 + r`.
    */
  predicate InKeeperZone(cfg: Config, p: Player, x: real)
  {
    (p.team == 0 && cfg.keeperZoneX0 >= x - p.radius) || (p.team == 1 && x <= cfg.keeperZoneX1 + p.radius)
  }

  /** One player's part of `update_positions`. */
  function MovePlayer(cfg: Config, p: Player, dt: real): (r: Player)
  {
    var position := Advanced(p.position, p.velocity, dt);
    p.(previousPosition := p.position,
       position := position,
       dodgeballImmunity := if p.role == Keeper then InKeeperZone(cfg, p, position.x) else p.dodgeballImmunity,
       catchCooldown := if p.catchCooldown > dt then p.catchCooldown - dt else 0.0)
  }

  /** One ball's part of `update_positions`. */
  function MoveBall(b: Ball, dt: real): (r: Ball)
  {
    b.(previousPosition := b.position, position := Advanced(b.position, b.velocity, dt))
  }

  /** `update_positions`: every player and every ball takes its step; each entity's step reads only itself. */
  function Positions(cfg: Config, bd: Board, dt: real): (r: Board)
    ensures SameKeys(bd, r)
  {
    Board(map id | id in bd.players :: MovePlayer(cfg, bd.players[id], dt),
          map id | id in bd.balls :: MoveBall(bd.balls[id], dt))
  }

  /**
    * What `update_positions` promises of a player: the old position is kept
    * as the previous one, the new one is one Euler step on, the catch cooldown
    * is `max(0, cooldown - dt)`, and a keeper is immune exactly inside its
    * keeper zone while any other player's immunity is left alone.
    */
  lemma MovePlayerEffect(cfg: Config, p: Player, dt: real)
    ensures var r := MovePlayer(cfg, p, dt);
            && r.previousPosition == p.position
            && r.position == Advanced(p.position, p.velocity, dt)
            && r.catchCooldown == (if p.catchCooldown - dt > 0.0 then p.catchCooldown - dt else 0.0)
            && 0.0 <= r.catchCooldown
            && (p.role == Keeper ==> (r.dodgeballImmunity <==> InKeeperZone(cfg, p, r.position.x)))
            && (p.role != Keeper ==> r.dodgeballImmunity == p.dodgeballImmunity)
            && r == p.(previousPosition := r.previousPosition, position := r.position,
                       dodgeballImmunity := r.dodgeballImmunity, catchCooldown := r.catchCooldown)
  {
  }

  /** A step of length zero leaves every position where it was and only records it as the previous one. */
  lemma PositionsStandStill(cfg: Config, bd: Board)
    ensures var r := Positions(cfg, bd, 0.0);
            && (forall id :: id in bd.players ==>
                  r.players[id].position == bd.players[id].position && r.players[id].previousPosition == bd.players[id].position)
            && (forall id :: id in bd.balls ==> r.balls[id] == bd.balls[id].(previousPosition := bd.balls[id].position))
  {
  }

  /**
    * The team-1 keeper test as written holds for every x up to
    * `keeperZoneX1 + r`, so a team-1 keeper at the left boundary is immune too.
    */
  lemma TeamOneZoneQuirk(cfg: Config, p: Player, x: real)
    requires p.team == 1 && x <= cfg.keeperZoneX1 + p.radius
    ensures InKeeperZone(cfg, p, x)
  {
  }

  /* ---------------- ball collisions ---------------- */

  /** The balls table after a step that may have raised part-way. */
  datatype Collided = Collided(balls: map<Id, Ball>, out: Outcome)

  /** A ball that takes part in collisions at all: not a dead volleyball, not in turnover. */
  predicate Collidable(b: Ball)
  {
    !IsDead(b) && b.turnoverTo.None?
  }

  /**
    * The new velocities of two colliding free balls, or None when the
    * collision is skipped (both stand, or the centres coincide). A standing
    * ball takes the other's velocity and the other stops; otherwise both are
    * reflected about the line of centres and their speeds are exchanged.
    */
  function Bounce(sqrt: real -> real, b1: Ball, b2: Ball): Option<(Vec, Vec)>
  {
    var m1 := Length(sqrt, b1.velocity);
    var m2 := Length(sqrt, b2.velocity);
    if m1 == 0.0 && m2 == 0.0 then None
    else if m1 == 0.0 then Some((b2.velocity, Zero))
    else if m2 == 0.0 then Some((Zero, b1.velocity))
    else
      var normal := Sub(b2.position, b1.position);
      var nm := Length(sqrt, normal);
      if nm == 0.0 then None
      else
        var n := DivBy(normal, nm);
        var ratio := m1 / m2;
        Some((Scale(Reflect(b1.velocity, n, 0.0), 1.0 / ratio), Scale(Reflect(b2.velocity, Vec(-n.x, -n.y), 0.0), ratio)))
  }

  lemma InverseRatio(a: real, b: real)
    requires a != 0.0 && b != 0.0
    ensures 1.0 / (a / b) == b / a
  {
  }

  /** The speed of a reflected vector about a unit normal is the vector's own speed. */
  lemma ReflectKeepsSpeed(v: Vec, n: Vec)
    requires NormSq(n) == 1.0
    ensures NormSq(Reflect(v, n, 0.0)) == NormSq(v)
  {
    ReflectNorm(v, n, 0.0);
  }

  /** Two moving balls with distinct centres exchange their speeds. */
  lemma BounceExchangesSpeeds(sqrt: real -> real, b1: Ball, b2: Ball)
    requires IsSqrt(sqrt)
    requires Length(sqrt, b1.velocity) != 0.0 && Length(sqrt, b2.velocity) != 0.0
    requires Length(sqrt, Sub(b2.position, b1.position)) != 0.0
    ensures Bounce(sqrt, b1, b2).Some?
    ensures NormSq(Bounce(sqrt, b1, b2).value.0) == NormSq(b2.velocity)
    ensures NormSq(Bounce(sqrt, b1, b2).value.1) == NormSq(b1.velocity)
  {
    var m1 := Length(sqrt, b1.velocity);
    var m2 := Length(sqrt, b2.velocity);
    LengthFacts(sqrt, b1.velocity);
    LengthFacts(sqrt, b2.velocity);
    var normal := Sub(b2.position, b1.position);
    var nm := Length(sqrt, normal);
    LengthFacts(sqrt, normal);
    var n := DivBy(normal, nm);
    DivideByLength(normal, nm);
    var minus := Vec(-n.x, -n.y);
    assert NormSq(minus) == NormSq(n);
    var r1 := Reflect(b1.velocity, n, 0.0);
    var r2 := Reflect(b2.velocity, minus, 0.0);
    ReflectKeepsSpeed(b1.velocity, n);
    ReflectKeepsSpeed(b2.velocity, minus);
    InverseRatio(m1, m2);
    ScaleToLength(r1, m1, m2);
    ScaleToLength(r2, m2, m1);
  }

  /** A standing ball takes the mover's velocity and the mover stops. */
  lemma BounceOneStanding(sqrt: real -> real, b1: Ball, b2: Ball)
    ensures Length(sqrt, b1.velocity) == 0.0 && Length(sqrt, b2.velocity) != 0.0 ==>
              Bounce(sqrt, b1, b2) == Some((b2.velocity, Zero))
    ensures Length(sqrt, b1.velocity) != 0.0 && Length(sqrt, b2.velocity) == 0.0 ==>
              Bounce(sqrt, b1, b2) == Some((Zero, b1.velocity))
    ensures Length(sqrt, b1.velocity) == 0.0 && Length(sqrt, b2.velocity) == 0.0 ==> Bounce(sqrt, b1, b2).None?
  {
  }

  /**
    * One pair of `_check_ball_collisions`. Only two collidable free balls are
    * looked at; their squared distance is read from the distance table (a
    * missing entry is a KeyError), and closer than the sum of their radii they bounce.
    */
  function CollidePair(sqrt: real -> real, dicts: map<Id, map<Id, real>>, balls: map<Id, Ball>, id1: Id, id2: Id): (r: Collided)
    ensures r.balls.Keys == balls.Keys
    ensures r.out.Fail? ==> r.balls == balls
  {
    if id1 !in balls || id2 !in balls then Collided(balls, Pass)
    else
      var b1 := balls[id1];
      var b2 := balls[id2];
      if !Collidable(b1) || !Collidable(b2) || b1.holderId.Some? || b2.holderId.Some? then Collided(balls, Pass)
      else if id1 !in dicts then Collided(balls, Fail(KeyError(id1)))
      else if id2 !in dicts[id1] then Collided(balls, Fail(KeyError(id2)))
      else if dicts[id1][id2] < (b1.radius + b2.radius) * (b1.radius + b2.radius) then
        var bounce := Bounce(sqrt, b1, b2);
        if bounce.None? then Collided(balls, Pass)
        else Collided(balls[id1 := b1.(velocity := bounce.value.0)][id2 := b2.(velocity := bounce.value.1)], Pass)
      else Collided(balls, Pass)
  }

  /** The inner loop of `_check_ball_collisions`: ball `id1` against each later ball. */
  function CollideRow(sqrt: real -> real, dicts: map<Id, map<Id, real>>, balls: map<Id, Ball>, id1: Id, rest: seq<Id>): (r: Collided)
    ensures r.balls.Keys == balls.Keys
    decreases |rest|
  {
    if rest == [] then Collided(balls, Pass)
    else
      var c := CollidePair(sqrt, dicts, balls, id1, rest[0]);
      if c.out.Fail? then c else CollideRow(sqrt, dicts, c.balls, id1, rest[1..])
  }

  /** `_check_ball_collisions`: every ball against every later one, in table order. */
  function CollideAll(sqrt: real -> real, dicts: map<Id, map<Id, real>>, balls: map<Id, Ball>, ids: seq<Id>): (r: Collided)
    ensures r.balls.Keys == balls.Keys
    decreases |ids|
  {
    if ids == [] then Collided(balls, Pass)
    else
      var row := CollideRow(sqrt, dicts, balls, ids[0], ids[1..]);
      if row.out.Fail? then row else CollideAll(sqrt, dicts, row.balls, ids[1..])
  }

  /** A ball that does not collide (absent, dead or in turnover) leaves its whole row unchanged. */
  lemma {:induction false} RowSkipped(sqrt: real -> real, dicts: map<Id, map<Id, real>>, balls: map<Id, Ball>, id1: Id, rest: seq<Id>)
    requires id1 !in balls || !Collidable(balls[id1])
    ensures CollideRow(sqrt, dicts, balls, id1, rest) == Collided(balls, Pass)
    decreases |rest|
  {
    if rest != [] {
      RowSkipped(sqrt, dicts, balls, id1, rest[1..]);
    }
  }

  /** Dead, turnover-bound and held balls never collide: such a pair changes nothing. */
  lemma SkippedPair(sqrt: real -> real, dicts: map<Id, map<Id, real>>, balls: map<Id, Ball>, id1: Id, id2: Id)
    requires id1 in balls && id2 in balls
    requires var b1, b2 := balls[id1], balls[id2];
             IsDead(b1) || IsDead(b2) || b1.turnoverTo.Some? || b2.turnoverTo.Some? || b1.holderId.Some? || b2.holderId.Some?
    ensures CollidePair(sqrt, dicts, balls, id1, id2) == Collided(balls, Pass)
  {
  }

  /**
    * A colliding pair changes the two balls' velocities and nothing else:
    * exchanged speeds when both move, a handed-over velocity when one stands.
    */
  lemma CollidingPair(sqrt: real -> real, dicts: map<Id, map<Id, real>>, balls: map<Id, Ball>, id1: Id, id2: Id)
    requires IsSqrt(sqrt)
    requires id1 in balls && id2 in balls && id1 != id2
    requires Collidable(balls[id1]) && Collidable(balls[id2]) && balls[id1].holderId.None? && balls[id2].holderId.None?
    requires id1 in dicts && id2 in dicts[id1]
    requires dicts[id1][id2] < (balls[id1].radius + balls[id2].radius) * (balls[id1].radius + balls[id2].radius)
    ensures var b1, b2 := balls[id1], balls[id2];
            var r := CollidePair(sqrt, dicts, balls, id1, id2);
            && r.out.Pass?
            && r.balls == balls[id1 := b1.(velocity := r.balls[id1].velocity)][id2 := b2.(velocity := r.balls[id2].velocity)]
            && (Length(sqrt, b1.velocity) != 0.0 && Length(sqrt, b2.velocity) != 0.0 && Length(sqrt, Sub(b2.position, b1.position)) != 0.0 ==>
                  NormSq(r.balls[id1].velocity) == NormSq(b2.velocity) && NormSq(r.balls[id2].velocity) == NormSq(b1.velocity))
            && (Length(sqrt, b1.velocity) == 0.0 && Length(sqrt, b2.velocity) != 0.0 ==>
                  r.balls[id1].velocity == b2.velocity && r.balls[id2].velocity == Zero)
            && (Length(sqrt, b1.velocity) != 0.0 && Length(sqrt, b2.velocity) == 0.0 ==>
                  r.balls[id1].velocity == Zero && r.balls[id2].velocity == b1.velocity)
  {
    var b1, b2 := balls[id1], balls[id2];
    if Length(sqrt, b1.velocity) != 0.0 && Length(sqrt, b2.velocity) != 0.0 && Length(sqrt, Sub(b2.position, b1.position)) != 0.0 {
      BounceExchangesSpeeds(sqrt, b1, b2);
    }
    BounceOneStanding(sqrt, b1, b2);
  }

  /* ---------------- the component ---------------- */

  class BasicLogic {
    const state: GameState
    /** The penalty component, shared with the dodgeball rules, that designates turnovers. */
    const penalty: PenaltyLogic

    constructor (state: GameState, penalty: PenaltyLogic)
      ensures this.state == state && this.penalty == penalty
    {
      this.state := state;
      this.penalty := penalty;
    }

    /** `update_player_velocity` on the player stored under `pid`; `sqrt` is the host's `** 0.5`. */
    method UpdatePlayerVelocity(sqrt: real -> real, pid: Id, dt: real) returns (out: Outcome)
      requires pid in state.players
      modifies state`players
      ensures var k := Kinematics(sqrt, state.hoops, old(state.players[pid]), dt);
              state.players == old(state.players)[pid := k.p] && out == k.out
    {
      var p := state.players[pid];
      var k := PlayerKinematics(sqrt, p, dt);
      if p.isKnockedOut && HoopKey(p.team) !in state.hoops {
        assert state.players == state.players[pid := k.p];
        return k.out;
      }
      state.players := state.players[pid := k.p];
      return k.out;
    }

    /**
      * The computation of `update_player_velocity` on the record `p`, step by
      * step; the record it returns is the one the caller writes back.
      */
    method PlayerKinematics(sqrt: real -> real, p: Player, dt: real) returns (k: Stepped)
      ensures k == Kinematics(sqrt, state.hoops, p, dt)
    {
      var q := p;
      var magDir := Length(sqrt, q.direction);
      if q.isKnockedOut {
        var key := HoopKey(q.team);
        if key !in state.hoops {
          return Stepped(q, Fail(KeyError(key)));
        }
        if magDir < q.radius + state.hoops[key].thickness {
          q := q.(isKnockedOut := false);
        }
      }
      if magDir > 1.0 {
        q := q.(direction := DivBy(q.direction, magDir));
      }
      q := q.(velocity := Accelerate(q.velocity, q.direction, q.deaccelerationRate, q.acceleration, dt));
      var speed := Length(sqrt, q.velocity);
      if speed > q.maxSpeed {
        if speed == 0.0 {
          return Stepped(q, Fail(ZeroDivisionError));
        }
        var scale := q.maxSpeed / speed;
        q := q.(velocity := Scale(q.velocity, scale));
      } else if speed < q.minSpeed && magDir < q.minDir {
        q := q.(velocity := Zero);
      }
      return Stepped(q, Pass);
    }

    /** The direction-setting part of the loop body: `Aim` written field by field. */
    method AimPlayer(vball: Option<Ball>, pid: Id) returns (out: Outcome)
      requires pid in state.players
      modifies state`players
      ensures var a := Aim(state.hoops, vball, old(state.players[pid]));
              && (a.Success? ==> out == Pass && state.players == old(state.players)[pid := a.value])
              && (a.Failure? ==> out == Fail(a.error) && state.players == old(state.players))
    {
      var p := state.players[pid];
      if p.isKnockedOut {
        var key := HoopKey(p.team);
        if key !in state.hoops {
          return Fail(KeyError(key));
        }
        p := p.(direction := Sub(state.hoops[key].position, p.position));
      } else if vball.Some? {
        var vb := vball.value;
        if IsDead(vb) && vb.possessionTeam == Some(p.team) && p.role == Keeper {
          if vb.holderId.None? {
            p := p.(direction := Sub(vb.position, p.position));
          } else {
            p := p.(direction := MidlineWay(p.team));
          }
        }
      }
      state.players := state.players[pid := p];
      return Pass;
    }

    /** The inbounding part of the loop body for a player whose ball `iid` is in the table: `Inbound`. */
    method InboundPlayer(pid: Id, iid: Id)
      requires pid in state.players && iid in state.balls
      modifies state`players, state`balls
      ensures var (p, balls) := Inbound(state.cfg, old(state.players[pid]), old(state.balls), iid);
              state.players == old(state.players)[pid := p] && state.balls == balls
    {
      var p := state.players[pid];
      var b := state.balls[iid];
      var gap := Sub(b.position, p.position);
      if NormSq(gap) > (p.radius + b.radius) * (p.radius + b.radius) {
        p := p.(direction := gap);
      } else {
        var dir := Vec(AwayFrom(b.position.x, state.cfg.boundaryX0, state.cfg.boundaryX1, p.radius),
                       AwayFrom(b.position.y, state.cfg.boundaryY0, state.cfg.boundaryY1, p.radius));
        p := p.(direction := dir, velocity := Zero, inbounding := None, dodgeballImmunity := false);
        state.balls := state.balls[iid := ClearInbounder(b)];
      }
      state.players := state.players[pid := p];
    }

    /** The body of the loop of `update_player_velocities` for the player stored under `pid`. */
    method SteerPlayer(sqrt: real -> real, vball: Option<Ball>, dt: real, pid: Id) returns (out: Outcome)
      modifies state`players, state`balls
      ensures Moved(state.Tables(), out) == PlayerStep(sqrt, state.cfg, state.hoops, vball, dt, old(state.Tables()), pid)
    {
      if pid !in state.players {
        return Pass;
      }
      out := PreparePlayer(vball, pid);
      if out.Fail? {
        return;
      }
      out := UpdatePlayerVelocity(sqrt, pid, dt);
    }

    /** The aiming and inbounding part of the loop body: `Prepare`. */
    method PreparePlayer(vball: Option<Ball>, pid: Id) returns (out: Outcome)
      requires pid in state.players
      modifies state`players, state`balls
      ensures Moved(state.Tables(), out) == Prepare(state.cfg, state.hoops, vball, old(state.Tables()), pid)
    {
      ghost var players := state.players;
      out := AimPlayer(vball, pid);
      if out.Fail? {
        return;
      }
      var p := state.players[pid];
      if p.inbounding.Some? {
        var iid := p.inbounding.value;
        if iid !in state.balls {
          return Fail(KeyError(iid));
        }
        InboundPlayer(pid, iid);
        assert state.players == players[pid := state.players[pid]];
      }
    }

    /** `update_player_velocities`: every player in table order, with the volleyball as the step found it. */
    method UpdatePlayerVelocities(sqrt: real -> real, dt: real) returns (out: Outcome)
      modifies state`players, state`balls
      ensures Moved(state.Tables(), out)
                == SteerAll(sqrt, state.cfg, state.hoops, VolleyballValue(old(state.ballIds), old(state.balls)), dt,
                            old(state.Tables()), state.playerIds)
    {
      var vball := VolleyballValue(state.ballIds, state.balls);
      ghost var bd := state.Tables();
      var ids := state.playerIds;
      var i := 0;
      while i < |ids|
        invariant 0 <= i <= |ids|
        invariant SteerAll(sqrt, state.cfg, state.hoops, vball, dt, bd, ids)
                    == SteerAll(sqrt, state.cfg, state.hoops, vball, dt, state.Tables(), ids[i..])
      {
        assert ids[i..][0] == ids[i] && ids[i..][1..] == ids[i + 1..];
        out := SteerPlayer(sqrt, vball, dt, ids[i]);
        if out.Fail? {
          return;
        }
        i := i + 1;
      }
      return Pass;
    }

    /** The steering of a turnover ball `bid` at its present, awake receiver `pid`. */
    method SteerAtReceiver(sqrt: real -> real, bid: Id, pid: Id) returns (out: Outcome)
      requires bid in state.balls && pid in state.players
      modifies state`balls
      ensures var b := old(state.balls[bid]);
              var steer := TurnoverVelocity(sqrt, state.players[pid], b);
              && (steer.Success? ==> out == Pass && state.balls == old(state.balls)[bid := b.(velocity := steer.value)])
              && (steer.Failure? ==>
                    out == Fail(steer.error)
                    && state.balls == old(state.balls)[bid := b.(velocity := Sub(state.players[pid].position, b.position))])
    {
      var player := state.players[pid];
      var b := state.balls[bid];
      b := b.(velocity := Sub(player.position, b.position));
      var magDir := Length(sqrt, b.velocity);
      if magDir > player.throwVelocity {
        if magDir == 0.0 {
          state.balls := state.balls[bid := b];
          return Fail(ZeroDivisionError);
        }
        b := b.(velocity := Scale(DivBy(b.velocity, magDir), player.throwVelocity));
      }
      state.balls := state.balls[bid := b];
      return Pass;
    }

    /** The body of the loop of `update_ball_velocities` for the ball stored under `bid`. */
    method BallVelocity(sqrt: real -> real, dt: real, bid: Id) returns (out: Outcome)
      requires penalty.state == state
      modifies state`players, state`balls
      ensures Moved(state.Tables(), out) == BallStep(sqrt, state.squaredDistances, dt, old(state.Tables()), bid)
    {
      if bid !in state.balls {
        return Pass;
      }
      var b := state.balls[bid];
      if b.turnoverTo.Some? {
        var pid := b.turnoverTo.value;
        if pid !in state.players || state.players[pid].isKnockedOut {
          out := penalty.DesignateTurnover(bid);
          if out.Fail? {
            return;
          }
        }
        ghost var m := state.Tables();
        var target := state.balls[bid].turnoverTo;
        if target.Some? && target.value in state.players && !state.players[target.value].isKnockedOut {
          out := SteerAtReceiver(sqrt, bid, target.value);
          assert state.Tables() == Board(m.players, state.balls);
          return;
        }
        return Pass;
      } else if b.holderId.None? {
        var v := FreeVelocity(b, dt);
        b := b.(velocity := v);
        if IsDodgeball(b) && NormSq(v) < b.kind.deadVelocityThreshold * b.kind.deadVelocityThreshold {
          b := b.(possessionTeam := None);
        }
        state.balls := state.balls[bid := b];
      } else if b.holderId.value in state.players {
        var holder := state.players[b.holderId.value];
        state.balls := state.balls[bid := b.(velocity := holder.velocity)];
      }
      return Pass;
    }

    /** `update_ball_velocities`: every ball in table order. */
    method UpdateBallVelocities(sqrt: real -> real, dt: real) returns (out: Outcome)
      requires penalty.state == state
      modifies state`players, state`balls
      ensures Moved(state.Tables(), out) == BallsStep(sqrt, state.squaredDistances, dt, old(state.Tables()), state.ballIds)
    {
      ghost var bd := state.Tables();
      var ids := state.ballIds;
      var i := 0;
      while i < |ids|
        invariant 0 <= i <= |ids|
        invariant BallsStep(sqrt, state.squaredDistances, dt, bd, ids)
                    == BallsStep(sqrt, state.squaredDistances, dt, state.Tables(), ids[i..])
      {
        assert ids[i..][0] == ids[i] && ids[i..][1..] == ids[i + 1..];
        out := BallVelocity(sqrt, dt, ids[i]);
        if out.Fail? {
          return;
        }
        i := i + 1;
      }
      return Pass;
    }

    /** One player's part of `update_positions`, written field by field. */
    method MovePlayerAt(id: Id, dt: real)
      requires id in state.players
      modifies state`players
      ensures state.players == old(state.players)[id := MovePlayer(state.cfg, old(state.players[id]), dt)]
    {
      var p := state.players[id];
      p := p.(previousPosition := p.position, position := Advanced(p.position, p.velocity, dt));
      if p.role == Keeper {
        if (p.team == 0 && state.cfg.keeperZoneX0 >= p.position.x - p.radius)
           || (p.team == 1 && p.position.x <= state.cfg.keeperZoneX1 + p.radius) {
          p := p.(dodgeballImmunity := true);
        } else {
          p := p.(dodgeballImmunity := false);
        }
      }
      if p.catchCooldown > dt {
        p := p.(catchCooldown := p.catchCooldown - dt);
      } else {
        p := p.(catchCooldown := 0.0);
      }
      state.players := state.players[id := p];
    }

    /** The player loop of `update_positions`. */
    method MovePlayers(dt: real)
      modifies state`players
      ensures state.players == map id | id in old(state.players) :: MovePlayer(state.cfg, old(state.players)[id], dt)
    {
      ghost var players := state.players;
      var todo := state.players.Keys;
      while todo != {}
        invariant todo <= players.Keys
        invariant state.players.Keys == players.Keys
        invariant forall id :: id in players ==>
                    state.players[id] == if id in todo then players[id] else MovePlayer(state.cfg, players[id], dt)
        decreases |todo|
      {
        var id :| id in todo;
        MovePlayerAt(id, dt);
        todo := todo - {id};
      }
    }

    /** The ball loop of `update_positions`. */
    method MoveBalls(dt: real)
      modifies state`balls
      ensures state.balls == map id | id in old(state.balls) :: MoveBall(old(state.balls)[id], dt)
    {
      ghost var balls := state.balls;
      var todo := state.balls.Keys;
      while todo != {}
        invariant todo <= balls.Keys
        invariant state.balls.Keys == balls.Keys
        invariant forall id :: id in balls ==> state.balls[id] == if id in todo then balls[id] else MoveBall(balls[id], dt)
        decreases |todo|
      {
        var id :| id in todo;
        var b := state.balls[id];
        b := b.(previousPosition := b.position, position := Advanced(b.position, b.velocity, dt));
        state.balls := state.balls[id := b];
        todo := todo - {id};
      }
    }

    /** `update_positions`: every player, then every ball, takes its Euler step. */
    method UpdatePositions(dt: real)
      modifies state`players, state`balls
      ensures state.Tables() == Positions(state.cfg, old(state.Tables()), dt)
    {
      MovePlayers(dt);
      MoveBalls(dt);
    }

    /** `_check_ball_collisions`: each ball against each later one, in table order. */
    method CheckBallCollisions(sqrt: real -> real) returns (out: Outcome)
      modifies state`balls
      ensures Collided(state.balls, out) == CollideAll(sqrt, state.squaredDistancesDicts, old(state.balls), state.ballIds)
    {
      ghost var balls := state.balls;
      var dicts := state.squaredDistancesDicts;
      var ids := state.ballIds;
      var i := 0;
      while i < |ids|
        invariant 0 <= i <= |ids|
        invariant CollideAll(sqrt, dicts, balls, ids) == CollideAll(sqrt, dicts, state.balls, ids[i..])
      {
        assert ids[i..][0] == ids[i] && ids[i..][1..] == ids[i + 1..];
        var id1 := ids[i];
        if id1 !in state.balls || !Collidable(state.balls[id1]) {
          RowSkipped(sqrt, dicts, state.balls, id1, ids[i + 1..]);
        } else {
          out := CollideRowAt(sqrt, id1, ids[i + 1..]);
          if out.Fail? {
            return;
          }
        }
        i := i + 1;
      }
      return Pass;
    }

    /** The inner loop of `_check_ball_collisions`: ball `id1` against each of `rest`, stopping at an exception. */
    method CollideRowAt(sqrt: real -> real, id1: Id, rest: seq<Id>) returns (out: Outcome)
      modifies state`balls
      ensures Collided(state.balls, out) == CollideRow(sqrt, state.squaredDistancesDicts, old(state.balls), id1, rest)
    {
      ghost var balls := state.balls;
      var j := 0;
      while j < |rest|
        invariant 0 <= j <= |rest|
        invariant CollideRow(sqrt, state.squaredDistancesDicts, balls, id1, rest)
                  == CollideRow(sqrt, state.squaredDistancesDicts, state.balls, id1, rest[j..])
      {
        assert rest[j..][0] == rest[j] && rest[j..][1..] == rest[j + 1..];
        out := CollidePairAt(sqrt, id1, rest[j]);
        if out.Fail? {
          return;
        }
        j := j + 1;
      }
      return Pass;
    }

    /** One pair of `_check_ball_collisions`: `CollidePair` written field by field. */
    method CollidePairAt(sqrt: real -> real, id1: Id, id2: Id) returns (out: Outcome)
      modifies state`balls
      ensures Collided(state.balls, out) == CollidePair(sqrt, state.squaredDistancesDicts, old(state.balls), id1, id2)
    {
      if id1 !in state.balls || id2 !in state.balls {
        return Pass;
      }
      var b1 := state.balls[id1];
      var b2 := state.balls[id2];
      if IsDead(b1) || b1.turnoverTo.Some? || IsDead(b2) || b2.turnoverTo.Some? {
        return Pass;
      }
      if b1.holderId.Some? || b2.holderId.Some? {
        return Pass;
      }
      if id1 !in state.squaredDistancesDicts {
        return Fail(KeyError(id1));
      }
      if id2 !in state.squaredDistancesDicts[id1] {
        return Fail(KeyError(id2));
      }
      var distSq := state.squaredDistancesDicts[id1][id2];
      if distSq < (b1.radius + b2.radius) * (b1.radius + b2.radius) {
        var bounce := BounceVelocities(sqrt, b1, b2);
        if bounce.Some? {
          state.balls := state.balls[id1 := b1.(velocity := bounce.value.0)][id2 := b2.(velocity := bounce.value.1)];
        }
      }
      return Pass;
    }

    /** The velocity exchange of one colliding pair: `Bounce` written step by step. */
    static method BounceVelocities(sqrt: real -> real, b1: Ball, b2: Ball) returns (r: Option<(Vec, Vec)>)
      ensures r == Bounce(sqrt, b1, b2)
    {
      var m1 := Length(sqrt, b1.velocity);
      var m2 := Length(sqrt, b2.velocity);
      if m1 == 0.0 && m2 == 0.0 {
        return None;
      }
      if m1 == 0.0 {
        return Some((b2.velocity, Zero));
      }
      if m2 == 0.0 {
        return Some((Zero, b1.velocity));
      }
      var normal := Sub(b2.position, b1.position);
      var nm := Length(sqrt, normal);
      if nm == 0.0 {
        return None;
      }
      var n := DivBy(normal, nm);
      var v1 := Reflect(b1.velocity, n, 0.0);
      var v2 := Reflect(b2.velocity, Vec(-n.x, -n.y), 0.0);
      var ratio := m1 / m2;
      return Some((Scale(v1, 1.0 / ratio), Scale(v2, ratio)));
    }
  }
}
