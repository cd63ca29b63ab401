/**
  * The player actions the clients send: a throw releases the ball the player
  * holds along the player's direction, and a tackle, never completed, either
  * refuses or raises on the missing tackle list.
  */
module ProcessAction {
  import opened Wrappers
  import opened Numerics
  import opened Vectors
  import opened Entities
  import opened State
  import Basic

  /* ---------------- throwing ---------------- */

  /**
    * The catch cooldown a throw at `speed` imposes: the time the ball needs to
    * cross two radii, stretched by the thrower's top speed and a buffer of 2.5;
    * a ball slower than 0.01 imposes none.
    */
  function ThrowCooldown(radius: real, speed: real, maxSpeed: real): real
  {
    if speed > 0.01 then 2.0 * radius / speed * maxSpeed * 2.5 else 0.0
  }

  /** The ball the player under `pid` may throw: a true `has_ball` naming a stored ball. */
  predicate CanThrow(bd: Board, pid: Id)
  {
    pid in bd.players && Loaded(bd.players[pid].hasBall) && bd.players[pid].hasBall.ballId in bd.balls
  }

  /**
    * `process_throw_action`: the tables after the throw and whether it happened.
    * The thrower's direction is normalised in place when longer than 1, the
    * ball leaves at `throw_velocity` times that direction from where it is,
    * and the player's hold ends.
    */
  function Throw(sqrt: real -> real, bd: Board, pid: Id): (r: (Board, bool))
    ensures r.1 <==> CanThrow(bd, pid)
    ensures !r.1 ==> r.0 == bd
    ensures SameKeys(bd, r.0)
    ensures r.1 ==>
              var p := bd.players[pid];
              var bid := p.hasBall.ballId;
              && r.0.players == bd.players[pid := r.0.players[pid]]
              && r.0.balls == bd.balls[bid := r.0.balls[bid]]
              && r.0.players[pid].hasBall == NoBall
              && r.0.balls[bid].holderId.None?
              && r.0.balls[bid].previousThrowerId == Some(p.id)
              && r.0.balls[bid].position == bd.balls[bid].position
              && r.0.balls[bid].possessionTeam == bd.balls[bid].possessionTeam
              && r.0.players[pid].position == p.position
              && r.0.players[pid].velocity == p.velocity
              && r.0.players[pid].direction == Basic.Steer(p.direction, Length(sqrt, p.direction))
              && r.0.balls[bid].velocity == Scale(r.0.players[pid].direction, p.throwVelocity)
              && r.0.players[pid].catchCooldown == ThrowCooldown(p.radius, Length(sqrt, r.0.balls[bid].velocity), p.maxSpeed)
  {
    if !CanThrow(bd, pid) then (bd, false)
    else
      var p := bd.players[pid];
      var bid := p.hasBall.ballId;
      var dir := Basic.Steer(p.direction, Length(sqrt, p.direction));
      var v := Scale(dir, p.throwVelocity);
      var b := bd.balls[bid].(previousThrowerId := Some(p.id), holderId := None, velocity := v);
      var p' := p.(direction := dir, catchCooldown := ThrowCooldown(p.radius, Length(sqrt, v), p.maxSpeed), hasBall := NoBall);
      (Board(bd.players[pid := p'], bd.balls[bid := b]), true)
  }

  /** After normalisation a direction is never longer than 1. */
  lemma SteeredShort(sqrt: real -> real, dir: Vec)
    requires IsSqrt(sqrt)
    ensures NormSq(Basic.Steer(dir, Length(sqrt, dir))) <= 1.0
  {
    Basic.SteerUnit(sqrt, dir);
    LengthFacts(sqrt, dir);
    var m := Length(sqrt, dir);
    if m <= 1.0 {
      SquareMonotone(m, 1.0);
    }
  }

  /** A unit-bounded vector scaled by `c >= 0` is no longer than `c`. */
  lemma ScaledShort(sqrt: real -> real, dir: Vec, c: real)
    requires IsSqrt(sqrt) && NormSq(dir) <= 1.0 && 0.0 <= c
    ensures NormSq(Scale(dir, c)) <= c * c
    ensures Length(sqrt, Scale(dir, c)) <= c
  {
    NormSqScale(dir, c);
    var n := NormSq(dir);
    var q := c * c;
    assert q * n <= q by {
      assert 0.0 <= q;
    }
    LengthFacts(sqrt, Scale(dir, c));
    SquareLess(c, Length(sqrt, Scale(dir, c)));
  }

  /**
    * A throw sends the ball at most at the thrower's throw velocity, along a
    * direction of length at most 1, and leaves it with no holder.
    */
  lemma ThrowSpeed(sqrt: real -> real, bd: Board, pid: Id)
    requires IsSqrt(sqrt) && CanThrow(bd, pid) && 0.0 <= bd.players[pid].throwVelocity
    ensures var r := Throw(sqrt, bd, pid);
            var p := bd.players[pid];
            var b := r.0.balls[p.hasBall.ballId];
            && NormSq(r.0.players[pid].direction) <= 1.0
            && Length(sqrt, b.velocity) <= p.throwVelocity
            && NormSq(b.velocity) <= p.throwVelocity * p.throwVelocity
  {
    var p := bd.players[pid];
    var dir := Basic.Steer(p.direction, Length(sqrt, p.direction));
    SteeredShort(sqrt, p.direction);
    ScaledShort(sqrt, dir, p.throwVelocity);
  }

  /** A throw along a direction of length 1 or more leaves at exactly the throw velocity. */
  lemma ThrowFullSpeed(sqrt: real -> real, bd: Board, pid: Id)
    requires IsSqrt(sqrt) && CanThrow(bd, pid)
    requires Length(sqrt, bd.players[pid].direction) > 1.0
    ensures var p := bd.players[pid];
            NormSq(Throw(sqrt, bd, pid).0.balls[p.hasBall.ballId].velocity) == p.throwVelocity * p.throwVelocity
  {
    var p := bd.players[pid];
    Basic.SteerUnit(sqrt, p.direction);
    var dir := Basic.Steer(p.direction, Length(sqrt, p.direction));
    NormSqScale(dir, p.throwVelocity);
  }

  /**
    * The cooldown is never negative for a non-negative radius and top speed;
    * it is zero for a ball no faster than 0.01, and otherwise its product with
    * the ball's speed is five radii times the top speed.
    */
  lemma CooldownFacts(radius: real, speed: real, maxSpeed: real)
    requires 0.0 <= radius && 0.0 <= maxSpeed
    ensures 0.0 <= ThrowCooldown(radius, speed, maxSpeed)
    ensures speed <= 0.01 ==> ThrowCooldown(radius, speed, maxSpeed) == 0.0
    ensures speed > 0.01 ==> ThrowCooldown(radius, speed, maxSpeed) * speed == 5.0 * radius * maxSpeed
  {
    if speed > 0.01 {
      var q := 2.0 * radius / speed;
      assert 0.0 <= q;
      assert q * speed == 2.0 * radius;
      assert 0.0 <= q * maxSpeed;
      assert q * maxSpeed * 2.5 * speed == q * speed * maxSpeed * 2.5;
    }
  }

  /** A thrown ball can be thrown again only after it is caught: the thrower holds nothing. */
  lemma ThrowOnce(sqrt: real -> real, bd: Board, pid: Id)
    ensures !CanThrow(Throw(sqrt, bd, pid).0, pid)
    ensures Throw(sqrt, Throw(sqrt, bd, pid).0, pid).1 == false
  {
  }

  /* ---------------- tackling ---------------- */

  /** An opponent in contact that a ball-less player may tackle: a stored player holding a ball, on another team. */
  predicate Tackleable(players: map<Id, Player>, team: int, oid: Id)
  {
    oid in players && Loaded(players[oid].hasBall) && players[oid].team != team
  }

  /** The first id of `ids` a player of `team` may tackle. */
  function TackleTarget(players: map<Id, Player>, team: int, ids: seq<Id>): (r: Option<nat>)
    ensures r.Some? ==> r.value < |ids| && Tackleable(players, team, ids[r.value])
                        && forall j :: 0 <= j < r.value ==> !Tackleable(players, team, ids[j])
    ensures r.None? ==> forall j :: 0 <= j < |ids| ==> !Tackleable(players, team, ids[j])
  {
    if ids == [] then None
    else if Tackleable(players, team, ids[0]) then Some(0)
    else
      match TackleTarget(players, team, ids[1..])
      case None => None
      case Some(k) => Some(k + 1)
  }

  /** Appending to `tackling_player_ids`, an attribute no player has. */
  const NoTackleList: Error := AttributeError("tackling_player_ids")

  /**
    * `process_tackle_action`: a missing player raises on `has_ball`; a
    * ball-less player in contact with an opponent holding a ball raises on
    * the tackle list; every other call refuses. No table changes.
    */
  function Tackle(players: map<Id, Player>, pid: Id): (r: Result<bool>)
    ensures r != Success(true)
    ensures r.Success? ==> pid in players
                           && (|| Loaded(players[pid].hasBall)
                               || forall j :: 0 <= j < |players[pid].inContact| ==> !Tackleable(players, players[pid].team, players[pid].inContact[j]))
  {
    if pid !in players then Failure(AttributeError("has_ball"))
    else
      var p := players[pid];
      if !Loaded(p.hasBall) && TackleTarget(players, p.team, p.inContact).Some? then Failure(NoTackleList)
      else Success(false)
  }

  /**
    * A tackle never succeeds. It raises on the tackle list exactly when the
    * player exists, holds no ball and is in contact with an opponent who does,
    * and raises on `has_ball` exactly when the player is missing.
    */
  lemma {:induction false} TackleOutcomes(players: map<Id, Player>, pid: Id)
    ensures Tackle(players, pid) != Success(true)
    ensures Tackle(players, pid) == Failure(AttributeError("has_ball")) <==> pid !in players
    ensures Tackle(players, pid) == Failure(NoTackleList) <==>
              pid in players && !Loaded(players[pid].hasBall)
              && exists oid :: oid in players[pid].inContact && Tackleable(players, players[pid].team, oid)
  {
    if pid in players {
      var p := players[pid];
      var t := TackleTarget(players, p.team, p.inContact);
      if t.Some? {
        assert p.inContact[t.value] in p.inContact;
      } else {
        forall oid | oid in p.inContact ensures !Tackleable(players, p.team, oid) {
          var j :| 0 <= j < |p.inContact| && p.inContact[j] == oid;
        }
      }
    }
  }

  /* ---------------- the component ---------------- */

  class ProcessActionLogic {
    const state: GameState

    constructor (state: GameState)
      ensures this.state == state
    {
      this.state := state;
    }

    /** `process_throw_action`; `sqrt` is the host's `** 0.5`. */
    method ProcessThrowAction(sqrt: real -> real, pid: Id) returns (thrown: bool)
      modifies state`players, state`balls
      ensures (state.Tables(), thrown) == Throw(sqrt, old(state.Tables()), pid)
    {
      if pid !in state.players || !Loaded(state.players[pid].hasBall) {
        return false;
      }
      var p := state.players[pid];
      var bid := p.hasBall.ballId;
      if bid !in state.balls {
        return false;
      }
      var magDir := Length(sqrt, p.direction);
      var dir := p.direction;
      if magDir > 1.0 {
        dir := DivBy(dir, magDir);
      }
      assert dir == Basic.Steer(p.direction, magDir);
      var v := Vec(p.throwVelocity * dir.x, p.throwVelocity * dir.y);
      assert v == Scale(dir, p.throwVelocity);
      var magVelocity := Length(sqrt, v);
      var cooldown := 0.0;
      if magVelocity > 0.01 {
        cooldown := 2.0 * p.radius / magVelocity * p.maxSpeed * 2.5;
      }
      assert cooldown == ThrowCooldown(p.radius, magVelocity, p.maxSpeed);
      state.balls := state.balls[bid := state.balls[bid].(previousThrowerId := Some(p.id), holderId := None, velocity := v)];
      state.players := state.players[pid := p.(direction := dir, catchCooldown := cooldown, hasBall := NoBall)];
      return true;
    }

    /** `process_tackle_action`: the scan over the player's contacts; it changes nothing. */
    method ProcessTackleAction(pid: Id) returns (r: Result<bool>)
      ensures r == Tackle(state.players, pid)
      ensures r != Success(true)
    {
      if pid !in state.players {
        return Failure(AttributeError("has_ball"));
      }
      var p := state.players[pid];
      if !Loaded(p.hasBall) && |p.inContact| > 0 {
        var i := 0;
        while i < |p.inContact|
          invariant 0 <= i <= |p.inContact|
          invariant forall j :: 0 <= j < i ==> !Tackleable(state.players, p.team, p.inContact[j])
        {
          var oid := p.inContact[i];
          if oid in state.players && Loaded(state.players[oid].hasBall) && state.players[oid].team != p.team {
            return Failure(NoTackleList);
          }
          i := i + 1;
        }
      }
      return Success(false);
    }
  }
}
