/**
  * The volleyball rules: pickups by chasers and keepers, goals through the
  * hoops, and the keeper's revival of a dead volleyball.
  */
module VolleyballRules {
  import opened Wrappers
  import opened Numerics
  import opened Vectors
  import opened Entities
  import opened State

  /* ---------------- pickups ---------------- */

  /**
    * The entry `(pid, distance)` of the volleyball's distance list names a
    * player who may take the ball if near enough: a player that the ball is
    * not turned over away from, standing, off its catch cooldown, a chaser or
    * keeper, and, for a dead ball, the keeper of the team in possession.
    */
  predicate Candidate(vb: Ball, players: map<Id, Player>, e: (Id, real))
  {
    && e.0 in players
    && (vb.turnoverTo.None? || vb.turnoverTo.value == e.0)
    && !players[e.0].isKnockedOut
    && players[e.0].catchCooldown <= 0.0
    && (IsDead(vb) ==> players[e.0].role == Keeper && vb.possessionTeam == Some(players[e.0].team))
    && (players[e.0].role == Chaser || players[e.0].role == Keeper)
  }

  predicate InReach(vb: Ball, p: Player, distance: real)
  {
    distance < (p.radius + vb.radius) * (p.radius + vb.radius)
  }

  /** A candidate in reach that is the inbounder, or there is none. */
  predicate Eligible(vb: Ball, players: map<Id, Player>, e: (Id, real))
    requires IsVolleyball(vb)
  {
    && Candidate(vb, players, e) && InReach(vb, players[e.0], e.1)
    && (vb.kind.inbounder.None? || vb.kind.inbounder.value == e.0)
  }

  /** The first candidate out of reach ends the scan. */
  predicate Stops(vb: Ball, players: map<Id, Player>, e: (Id, real))
  {
    Candidate(vb, players, e) && !InReach(vb, players[e.0], e.1)
  }

  /**
    * The position in the distance list of the player who picks the loose
    * volleyball up: the first eligible entry, provided no candidate out of
    * reach comes before it.
    */
  function PickupIndex(vb: Ball, players: map<Id, Player>, entries: seq<(Id, real)>): (r: Option<nat>)
    requires IsVolleyball(vb)
    ensures r.Some? ==> r.value < |entries| && Eligible(vb, players, entries[r.value])
    ensures r.Some? ==> forall j :: 0 <= j < r.value ==> !Eligible(vb, players, entries[j]) && !Stops(vb, players, entries[j])
    ensures r.None? ==> forall j :: 0 <= j < |entries| && Eligible(vb, players, entries[j]) ==>
                          exists i :: 0 <= i < j && Stops(vb, players, entries[i])
    decreases |entries|
  {
    if entries == [] then None
    else if Eligible(vb, players, entries[0]) then Some(0)
    else if Stops(vb, players, entries[0]) then None
    else
      var rest := PickupIndex(vb, players, entries[1..]);
      if rest.None? then
        assert forall j :: 1 <= j < |entries| && Eligible(vb, players, entries[j]) ==>
                 exists i :: 0 <= i < j && Stops(vb, players, entries[i]) by {
          forall j | 1 <= j < |entries| && Eligible(vb, players, entries[j])
            ensures exists i :: 0 <= i < j && Stops(vb, players, entries[i])
          {
            assert entries[1..][j - 1] == entries[j];
            var i :| 0 <= i < j - 1 && Stops(vb, players, entries[1..][i]);
            assert entries[i + 1] == entries[1..][i];
          }
        }
        None
      else
        assert forall j :: 1 <= j <= rest.value ==> entries[j] == entries[1..][j - 1];
        Some(rest.value + 1)
  }

  /** The pickup: the ball is held by `pid` for its team and a turnover to it is complete. */
  function Pickup(bd: Board, vid: Id, pid: Id): (r: Board)
    requires vid in bd.balls && pid in bd.players
    ensures SameKeys(bd, r)
  {
    var vb := bd.balls[vid];
    var p := bd.players[pid];
    Board(bd.players[pid := p.(hasBall := Holding(vid),
                               receivingTurnover := if vb.turnoverTo.Some? then Some(false) else p.receivingTurnover)],
          bd.balls[vid := vb.(holderId := Some(pid), possessionTeam := Some(p.team), turnoverTo := None)])
  }

  /** `_check_volleyball_possessions`: a loose volleyball goes to the first eligible player in its distance list. */
  function Possessions(bd: Board, ballIds: seq<Id>, dists: map<Id, seq<(Id, real)>>): (r: Board)
    ensures SameKeys(bd, r)
  {
    var vb := VolleyballIn(ballIds, bd.balls);
    if vb.None? || bd.balls[vb.value].holderId.Some? then bd
    else
      var entries := DistancesOf(dists, vb.value);
      var k := PickupIndex(bd.balls[vb.value], bd.players, entries);
      if k.None? then bd else Pickup(bd, vb.value, entries[k.value].0)
  }

  /**
    * A loose volleyball is picked up by the player at `PickupIndex`, the first
    * eligible entry with no stopping entry before it, which changes the
    * board: holder and player name each other, the ball's possession is the
    * player's team, any turnover is over, and nothing else changes. Without
    * such an entry, or for a held ball, nothing changes.
    */
  lemma PossessionsEffect(bd: Board, ballIds: seq<Id>, dists: map<Id, seq<(Id, real)>>)
    ensures var vb := VolleyballIn(ballIds, bd.balls); var r := Possessions(bd, ballIds, dists);
            && ((vb.None? || bd.balls[vb.value].holderId.Some?
                 || PickupIndex(bd.balls[vb.value], bd.players, DistancesOf(dists, vb.value)).None?) ==> r == bd)
            && (vb.Some? && bd.balls[vb.value].holderId.None?
                && PickupIndex(bd.balls[vb.value], bd.players, DistancesOf(dists, vb.value)).Some? ==>
                  var vid := vb.value;
                  var pid := DistancesOf(dists, vid)[PickupIndex(bd.balls[vid], bd.players, DistancesOf(dists, vid)).value].0;
                  && r == Pickup(bd, vid, pid) && r != bd
                  && r.balls == bd.balls[vid := r.balls[vid]]
                  && r.players == bd.players[pid := r.players[pid]]
                  && r.balls[vid].holderId == Some(pid) && r.players[pid].hasBall == Holding(vid)
                  && r.balls[vid].possessionTeam == Some(bd.players[pid].team)
                  && r.balls[vid].turnoverTo.None?)
  {
    var vb := VolleyballIn(ballIds, bd.balls);
    if vb.Some? && bd.balls[vb.value].holderId.None? {
      var entries := DistancesOf(dists, vb.value);
      var k := PickupIndex(bd.balls[vb.value], bd.players, entries);
      if k.Some? {
        var r := Possessions(bd, ballIds, dists);
        var pid := entries[k.value].0;
        assert r.balls == bd.balls[vb.value := r.balls[vb.value]];
        assert r.players == bd.players[pid := r.players[pid]];
        assert r.balls[vb.value].holderId != bd.balls[vb.value].holderId;
      }
    }
  }

  /** A held volleyball is never picked up. */
  lemma HeldVolleyballStays(bd: Board, ballIds: seq<Id>, dists: map<Id, seq<(Id, real)>>)
    requires var vb := VolleyballIn(ballIds, bd.balls); vb.Some? && bd.balls[vb.value].holderId.Some?
    ensures Possessions(bd, ballIds, dists) == bd
  {
  }

  /** A beater, a knocked-out player or one still on catch cooldown never takes the volleyball. */
  lemma IneligiblePlayers(vb: Ball, players: map<Id, Player>, e: (Id, real))
    requires IsVolleyball(vb) && e.0 in players
    requires players[e.0].role == Beater || players[e.0].role == Seeker || players[e.0].isKnockedOut || players[e.0].catchCooldown > 0.0
    ensures !Eligible(vb, players, e) && !Stops(vb, players, e)
  {
  }

  /* ---------------- goals ---------------- */

  /** `0 < steps_to_hoops < 1`: the crossing fraction of the plane `x = hx` lies inside this tick. */
  predicate CrossesPlane(hx: real, prev: real, x: real)
  {
    prev != x && 0.0 < (hx - prev) / (x - prev) < 1.0
  }

  /** The ball's y lies within the hoop's ring band. */
  predicate InBand(h: Hoop, y: real)
  {
    y >= h.position.y - h.radius && y <= h.position.y + h.radius
  }

  /** The hoop stored under `id` belongs to `team` and its band holds `y`. */
  predicate TeamBand(hoops: map<Id, Hoop>, id: Id, team: int, y: real)
  {
    id in hoops && hoops[id].team == team && InBand(hoops[id], y)
  }

  /** The first hoop of `team`, in table order, whose band holds `y`. */
  function BandHoop(hoops: map<Id, Hoop>, ids: seq<Id>, team: int, y: real): (r: Option<Id>)
    ensures r.Some? ==> r.value in hoops && r.value in ids && hoops[r.value].team == team && InBand(hoops[r.value], y)
    decreases |ids|
  {
    if ids == [] then None
    else if TeamBand(hoops, ids[0], team, y) then Some(ids[0])
    else BandHoop(hoops, ids[1..], team, y)
  }

  /**
    * The hoop found is the first in table order that passes the test: every
    * listed id before it fails it, and None means every listed id fails it.
    */
  lemma {:induction false} BandHoopFirst(hoops: map<Id, Hoop>, ids: seq<Id>, team: int, y: real)
    ensures var r := BandHoop(hoops, ids, team, y);
            && (r.Some? ==> exists k :: 0 <= k < |ids| && ids[k] == r.value && forall j :: 0 <= j < k ==> !TeamBand(hoops, ids[j], team, y))
            && (r.None? ==> forall j :: 0 <= j < |ids| ==> !TeamBand(hoops, ids[j], team, y))
  {
    if ids != [] && !TeamBand(hoops, ids[0], team, y) {
      var r := BandHoop(hoops, ids[1..], team, y);
      BandHoopFirst(hoops, ids[1..], team, y);
      assert forall j :: 1 <= j < |ids| ==> ids[j] == ids[1..][j - 1];
      if r.Some? {
        var k :| 0 <= k < |ids[1..]| && ids[1..][k] == r.value && forall j :: 0 <= j < k ==> !TeamBand(hoops, ids[1..][j], team, y);
        assert ids[k + 1] == r.value && forall j :: 0 <= j < k + 1 ==> !TeamBand(hoops, ids[j], team, y);
      }
    } else if ids != [] {
      assert ids[0] == BandHoop(hoops, ids, team, y).value;
    }
  }

  /**
    * One team's turn of the crossing loop: when the ball crosses the plane of
    * that team's centre hoop inside a ring band, its crossing mark is set, or
    * cleared when one was already set. A missing centre hoop is a KeyError.
    */
  function Cross(hoops: map<Id, Hoop>, hoopIds: seq<Id>, b: Ball, team: int): (r: Result<Ball>)
    requires IsVolleyball(b)
    ensures r.Success? ==> IsVolleyball(r.value)
  {
    var key := HoopKey(team);
    if key !in hoops then Failure(KeyError(key))
    else if !CrossesPlane(hoops[key].position.x, b.previousPosition.x, b.position.x) then Success(b)
    else
      var hid := BandHoop(hoops, hoopIds, team, b.position.y);
      if hid.None? then Success(b)
      else Success(b.(kind := b.kind.(crossedHoop := if b.kind.crossedHoop.None? then Some((hid.value, b.position.y)) else None)))
  }

  datatype Marked = Marked(ball: Ball, out: Outcome)

  /** The crossing loop over teams `team`, ..., 1. */
  function CrossTeams(hoops: map<Id, Hoop>, hoopIds: seq<Id>, b: Ball, team: nat): (r: Marked)
    requires IsVolleyball(b) && team <= 2
    ensures IsVolleyball(r.ball)
    decreases 2 - team
  {
    if team == 2 then Marked(b, Pass)
    else
      var c := Cross(hoops, hoopIds, b, team);
      if c.Failure? then Marked(b, Fail(c.error)) else CrossTeams(hoops, hoopIds, c.value, team + 1)
  }

  /** Some player of `team` in table order is a keeper. */
  predicate HasKeeper(players: map<Id, Player>, ids: seq<Id>, team: int)
  {
    exists i :: 0 <= i < |ids| && ids[i] in players && players[ids[i]].team == team && players[ids[i]].role == Keeper
  }

  datatype Goal = Goal(ball: Ball, score: seq<int>, out: Outcome)

  /**
    * The confirmation: once the ball is more than its radius away from its
    * crossing point, 10 points go to the hoop's team, the mark and the holder
    * are cleared, and the ball is dead in that team's possession when the team
    * has a keeper, or in nobody's possession otherwise.
    */
  function Confirm(sqrt: real -> real, hoops: map<Id, Hoop>, players: map<Id, Player>, playerIds: seq<Id>, score: seq<int>, b: Ball): (r: Goal)
    requires IsVolleyball(b)
  {
    if b.kind.crossedHoop.None? then Goal(b, score, Pass)
    else
      var hid := b.kind.crossedHoop.value.0;
      var crossY := b.kind.crossedHoop.value.1;
      if hid !in hoops then Goal(b, score, Fail(KeyError(hid)))
      else
        var hoop := hoops[hid];
        var passed := Length(sqrt, Vec(b.position.x - hoop.position.x, b.position.y - crossY));
        if !(passed > b.radius) then Goal(b, score, Pass)
        else
          var added := AddScore(score, hoop.team, 10);
          if added.Failure? then Goal(b, score, Fail(added.error))
          else
            var cleared := b.(kind := b.kind.(crossedHoop := None), holderId := None);
            if HasKeeper(players, playerIds, hoop.team) then
              Goal(cleared.(possessionTeam := Some(hoop.team), kind := cleared.kind.(isDead := true)), added.value, Pass)
            else Goal(cleared.(possessionTeam := None), added.value, Pass)
  }

  datatype Scored = Scored(balls: map<Id, Ball>, score: seq<int>, out: Outcome)

  /** `_check_goals`: a live volleyball that is not being turned over is tracked through the hoops. */
  function Goals(sqrt: real -> real, w: World): (r: Scored)
    ensures r.balls.Keys == w.balls.Keys
  {
    var vb := VolleyballIn(w.ballIds, w.balls);
    if vb.None? then Scored(w.balls, w.score, Pass)
    else
      var b := w.balls[vb.value];
      if IsDead(b) || b.turnoverTo.Some? then Scored(w.balls, w.score, Pass)
      else
        var m := CrossTeams(w.hoops, w.hoopIds, b, 0);
        if m.out.Fail? then Scored(w.balls[vb.value := m.ball], w.score, m.out)
        else
          var g := Confirm(sqrt, w.hoops, w.players, w.playerIds, w.score, m.ball);
          Scored(w.balls[vb.value := g.ball], g.score, g.out)
  }

  lemma ProductPositive(a: real, b: real)
    requires 0.0 < a && 0.0 < b
    ensures 0.0 < a * b
  {
  }

  lemma ProductNotPositive(a: real, b: real)
    requires a <= 0.0 && 0.0 < b
    ensures a * b <= 0.0
  {
  }

  lemma QuotientTimesDivisor(x: real, d: real, t: real)
    requires d != 0.0 && t == x / d
    ensures t * d == x
  {
  }

  lemma ComplementTimes(t: real, d: real, q: real)
    requires q == (1.0 - t) * d
    ensures q == d - t * d
  {
  }

  /** `(h - a) / d` with d > 0 lies strictly between 0 and 1 exactly when h lies strictly between a and a + d. */
  lemma FractionBetween(h: real, a: real, d: real, t: real)
    requires 0.0 < d && t == (h - a) / d
    ensures 0.0 < t < 1.0 <==> a < h < a + d
  {
    QuotientTimesDivisor(h - a, d, t);
    var p := t * d;
    assert p == h - a;
    if 0.0 < t {
      ProductPositive(t, d);
      assert a < h;
    } else {
      ProductNotPositive(t, d);
      assert h <= a;
    }
    var q := (1.0 - t) * d;
    ComplementTimes(t, d, q);
    assert q == d - p;
    if t < 1.0 {
      ProductPositive(1.0 - t, d);
      assert 0.0 < q;
      assert h < a + d;
    } else {
      ProductNotPositive(1.0 - t, d);
      assert q <= 0.0;
      assert a + d <= h;
    }
  }

  /** The ball crosses the plane of a hoop this tick exactly when the hoop's x lies strictly between its old and new x. */
  lemma CrossingBetween(hx: real, prev: real, x: real)
    ensures CrossesPlane(hx, prev, x) <==> (prev < hx < x || x < hx < prev)
  {
    if prev < x {
      FractionBetween(hx, prev, x - prev, (hx - prev) / (x - prev));
    } else if x < prev {
      var t := (hx - prev) / (x - prev);
      assert t == (prev - hx) / (prev - x);
      FractionBetween(-hx, -prev, prev - x, t);
    }
  }

  /**
    * One team's turn either leaves the ball alone or toggles its mark: an
    * unmarked ball is marked with a band hoop of that team and its own y,
    * a marked ball crossing back is unmarked. Nothing else of the ball changes.
    */
  lemma CrossToggles(hoops: map<Id, Hoop>, hoopIds: seq<Id>, b: Ball, team: int)
    requires IsVolleyball(b)
    ensures var c := Cross(hoops, hoopIds, b, team);
            c.Success? ==>
              || c.value == b
              || (b.kind.crossedHoop.Some? && c.value == b.(kind := b.kind.(crossedHoop := None)))
              || (b.kind.crossedHoop.None? && exists hid :: hid in hoops && hoops[hid].team == team && InBand(hoops[hid], b.position.y)
                                                          && c.value == b.(kind := b.kind.(crossedHoop := Some((hid, b.position.y))))
                                                          && CrossesPlane(hoops[HoopKey(team)].position.x, b.previousPosition.x, b.position.x))
  {
  }

  /**
    * A confirmed goal adds exactly 10 to the score of the hoop's team and to
    * nothing else, clears the mark and the holder, and leaves the ball dead in
    * that team's possession when it has a keeper, in nobody's possession otherwise.
    */
  lemma GoalAwards(sqrt: real -> real, hoops: map<Id, Hoop>, players: map<Id, Player>, playerIds: seq<Id>, score: seq<int>, b: Ball)
    requires IsVolleyball(b) && b.kind.crossedHoop.Some? && b.kind.crossedHoop.value.0 in hoops
    requires var hoop := hoops[b.kind.crossedHoop.value.0];
             && Length(sqrt, Vec(b.position.x - hoop.position.x, b.position.y - b.kind.crossedHoop.value.1)) > b.radius
             && (hoop.team == 0 || hoop.team == 1) && hoop.team < |score|
    ensures var team := hoops[b.kind.crossedHoop.value.0].team;
            var g := Confirm(sqrt, hoops, players, playerIds, score, b);
            && g.out == Pass
            && |g.score| == |score| && g.score[team] == score[team] + 10
            && (forall i :: 0 <= i < |score| && i != team ==> g.score[i] == score[i])
            && g.ball.kind.crossedHoop.None? && g.ball.holderId.None?
            && g.ball.kind.isDead == (HasKeeper(players, playerIds, team) || b.kind.isDead)
            && g.ball.possessionTeam == (if HasKeeper(players, playerIds, team) then Some(team) else None)
            && g.ball.position == b.position && g.ball.velocity == b.velocity
  {
  }

  /**
    * Whatever happens in a tick, the score either stays or exactly one of the
    * two teams gains 10 points.
    */
  lemma GoalsScoreByTen(sqrt: real -> real, w: World)
    ensures var r := Goals(sqrt, w);
            r.score == w.score || exists team :: 0 <= team < 2 && team < |w.score| && r.score == w.score[team := w.score[team] + 10]
  {
    var vb := VolleyballIn(w.ballIds, w.balls);
    if vb.Some? && !IsDead(w.balls[vb.value]) && w.balls[vb.value].turnoverTo.None? {
      var m := CrossTeams(w.hoops, w.hoopIds, w.balls[vb.value], 0);
      if m.out.Pass? && m.ball.kind.crossedHoop.Some? && m.ball.kind.crossedHoop.value.0 in w.hoops {
        var team := w.hoops[m.ball.kind.crossedHoop.value.0].team;
        var added := AddScore(w.score, team, 10);
        if added.Success? && (team == 0 || team == 1) {
          assert added.value == w.score[team := w.score[team] + 10];
        }
      }
    }
  }

  /** A dead volleyball, or one being turned over, never scores and is left alone. */
  lemma DeadVolleyballCannotScore(sqrt: real -> real, w: World)
    requires var vb := VolleyballIn(w.ballIds, w.balls);
             vb.Some? && (IsDead(w.balls[vb.value]) || w.balls[vb.value].turnoverTo.Some?)
    ensures Goals(sqrt, w) == Scored(w.balls, w.score, Pass)
  {
  }

  /* ---------------- revival ---------------- */

  /**
    * The keeper's revival of the volleyball `b`: a dead ball held by the
    * keeper of the team in possession comes alive while that keeper is in its
    * own half (team 0 at or left of the midline, any other team at or right of
    * it); the midline is half the right boundary. A holder missing from the
    * player table is a KeyError.
    */
  function Revive(cfg: Config, players: map<Id, Player>, b: Ball): (r: Result<Ball>)
    requires IsVolleyball(b)
  {
    if !b.kind.isDead || b.holderId.None? then Success(b)
    else if b.holderId.value !in players then Failure(KeyError(b.holderId.value))
    else
      var p := players[b.holderId.value];
      if p.role == Keeper && b.possessionTeam == Some(p.team) then
        var midline := cfg.boundaryX1 / 2.0;
        if p.team == 0 && p.position.x > midline then Success(b)
        else if p.team != 0 && p.position.x < midline then Success(b)
        else Success(b.(kind := b.kind.(isDead := false)))
      else Success(b)
  }

  /** `make_volleyball_alive` on the first volleyball of the table. */
  function MakeAlive(w: World): (r: Result<map<Id, Ball>>)
    ensures r.Success? ==> r.value.Keys == w.balls.Keys
  {
    var vb := VolleyballIn(w.ballIds, w.balls);
    if vb.None? then Success(w.balls)
    else
      var b := Revive(w.cfg, w.players, w.balls[vb.value]);
      if b.Failure? then Failure(b.error) else Success(w.balls[vb.value := b.value])
  }

  /**
    * The volleyball comes alive exactly when it was dead, its holder is the
    * keeper of the team in possession and that keeper stands in its own half;
    * only the dead flag ever changes.
    */
  lemma ReviveIff(cfg: Config, players: map<Id, Player>, b: Ball)
    requires IsVolleyball(b) && (b.holderId.Some? ==> b.holderId.value in players)
    ensures var r := Revive(cfg, players, b);
            && r.Success?
            && r.value == b.(kind := b.kind.(isDead := r.value.kind.isDead))
            && (!r.value.kind.isDead && b.kind.isDead <==>
                  && b.kind.isDead && b.holderId.Some?
                  && var p := players[b.holderId.value];
                     && p.role == Keeper && b.possessionTeam == Some(p.team)
                     && (if p.team == 0 then p.position.x <= cfg.boundaryX1 / 2.0 else p.position.x >= cfg.boundaryX1 / 2.0))
  {
  }

  /** A volleyball is never made dead by revival. */
  lemma ReviveNeverKills(cfg: Config, players: map<Id, Player>, b: Ball)
    requires IsVolleyball(b) && !b.kind.isDead
    ensures Revive(cfg, players, b) == Success(b)
  {
  }

  /* ---------------- the component ---------------- */

  class VolleyballLogic {
    const state: GameState

    constructor (state: GameState)
      ensures this.state == state
    {
      this.state := state;
    }

    /** `_check_volleyball_possessions`. */
    method CheckVolleyballPossessions()
      modifies state`players, state`balls
      ensures state.Tables() == Possessions(old(state.Tables()), state.ballIds, state.squaredDistances)
    {
      var vb := VolleyballIn(state.ballIds, state.balls);
      if vb.None? || state.balls[vb.value].holderId.Some? {
        return;
      }
      var vid := vb.value;
      var b := state.balls[vid];
      var entries := DistancesOf(state.squaredDistances, vid);
      ghost var r := PickupIndex(b, state.players, entries);
      var k := 0;
      while k < |entries|
        invariant k <= |entries|
        invariant forall j :: 0 <= j < k ==> !Eligible(b, state.players, entries[j]) && !Stops(b, state.players, entries[j])
      {
        var pid := entries[k].0;
        var distance := entries[k].1;
        if pid in state.players {
          var p := state.players[pid];
          if b.turnoverTo.None? || b.turnoverTo.value == pid {
            if !p.isKnockedOut && p.catchCooldown <= 0.0 {
              if !b.kind.isDead || (p.role == Keeper && b.possessionTeam == Some(p.team)) {
                if p.role == Chaser || p.role == Keeper {
                  if distance < (p.radius + b.radius) * (p.radius + b.radius) {
                    if b.kind.inbounder.None? || pid == b.kind.inbounder.value {
                      assert Eligible(b, state.players, entries[k]);
                      assert r == Some(k);
                      state.balls := state.balls[vid := b.(holderId := Some(pid), possessionTeam := Some(p.team), turnoverTo := None)];
                      state.players := state.players[pid := p.(hasBall := Holding(vid),
                                                               receivingTurnover := if b.turnoverTo.Some? then Some(false) else p.receivingTurnover)];
                      return;
                    }
                  } else {
                    assert Stops(b, state.players, entries[k]);
                    assert r.None?;
                    return;
                  }
                }
              }
            }
          }
        }
        k := k + 1;
      }
      assert r.None?;
    }

    /** One team's turn of the crossing loop of `_check_goals`. */
    method CrossAt(b: Ball, team: int) returns (r: Result<Ball>)
      requires IsVolleyball(b)
      ensures r == Cross(state.hoops, state.hoopIds, b, team)
    {
      var key := HoopKey(team);
      if key !in state.hoops {
        return Failure(KeyError(key));
      }
      var hoopX := state.hoops[key].position.x;
      if b.previousPosition.x == b.position.x {
        return Success(b);
      }
      var steps := (hoopX - b.previousPosition.x) / (b.position.x - b.previousPosition.x);
      if !(0.0 < steps && steps < 1.0) {
        return Success(b);
      }
      var ids := state.hoopIds;
      var i := 0;
      while i < |ids|
        invariant i <= |ids|
        invariant BandHoop(state.hoops, ids, team, b.position.y) == BandHoop(state.hoops, ids[i..], team, b.position.y)
      {
        assert ids[i..][0] == ids[i] && ids[i..][1..] == ids[i + 1..];
        var hid := ids[i];
        if hid in state.hoops && state.hoops[hid].team == team {
          var hoop := state.hoops[hid];
          if b.position.y >= hoop.position.y - hoop.radius && b.position.y <= hoop.position.y + hoop.radius {
            if b.kind.crossedHoop.None? {
              return Success(b.(kind := b.kind.(crossedHoop := Some((hid, b.position.y)))));
            } else {
              return Success(b.(kind := b.kind.(crossedHoop := None)));
            }
          }
        }
        i := i + 1;
      }
      assert ids[i..] == [];
      return Success(b);
    }

    /** The keeper search after a goal: a keeper of `team` in table order. */
    method FindKeeper(team: int) returns (found: bool)
      ensures found == HasKeeper(state.players, state.playerIds, team)
    {
      var ids := state.playerIds;
      var i := 0;
      while i < |ids|
        invariant i <= |ids|
        invariant forall j :: 0 <= j < i ==> !(ids[j] in state.players && state.players[ids[j]].team == team && state.players[ids[j]].role == Keeper)
      {
        if ids[i] in state.players && state.players[ids[i]].team == team && state.players[ids[i]].role == Keeper {
          return true;
        }
        i := i + 1;
      }
      return false;
    }

    /** The confirmation half of `_check_goals`, on the volleyball stored under `vid`. */
    method ConfirmAt(sqrt: real -> real, vid: Id) returns (out: Outcome)
      requires vid in state.balls && IsVolleyball(state.balls[vid])
      modifies state`balls, state`score
      ensures var g := Confirm(sqrt, state.hoops, state.players, state.playerIds, old(state.score), old(state.balls[vid]));
              state.balls == old(state.balls)[vid := g.ball] && state.score == g.score && out == g.out
    {
      var b := state.balls[vid];
      if b.kind.crossedHoop.None? {
        state.balls := state.balls[vid := b];
        return Pass;
      }
      var hid := b.kind.crossedHoop.value.0;
      var crossY := b.kind.crossedHoop.value.1;
      if hid !in state.hoops {
        state.balls := state.balls[vid := b];
        return Fail(KeyError(hid));
      }
      var hoop := state.hoops[hid];
      var passed := Length(sqrt, Vec(b.position.x - hoop.position.x, b.position.y - crossY));
      if !(passed > b.radius) {
        state.balls := state.balls[vid := b];
        return Pass;
      }
      out := state.UpdateScore(hoop.team, 10);
      if out.Fail? {
        state.balls := state.balls[vid := b];
        return;
      }
      b := b.(kind := b.kind.(crossedHoop := None), holderId := None);
      var keeper := FindKeeper(hoop.team);
      if keeper {
        b := b.(possessionTeam := Some(hoop.team), kind := b.kind.(isDead := true));
      } else {
        b := b.(possessionTeam := None);
      }
      state.balls := state.balls[vid := b];
    }

    /** `_check_goals`. */
    method CheckGoals(sqrt: real -> real) returns (out: Outcome)
      modifies state`balls, state`score
      ensures Scored(state.balls, state.score, out) == Goals(sqrt, old(state.Snapshot()))
    {
      ghost var w := state.Snapshot();
      var vb := VolleyballIn(state.ballIds, state.balls);
      if vb.None? {
        return Pass;
      }
      var vid := vb.value;
      var b := state.balls[vid];
      if b.kind.isDead || b.turnoverTo.Some? {
        return Pass;
      }
      var team := 0;
      while team < 2
        invariant 0 <= team <= 2 && IsVolleyball(b)
        invariant state.balls == w.balls[vid := b] && state.score == w.score
        invariant CrossTeams(w.hoops, w.hoopIds, w.balls[vid], 0) == CrossTeams(w.hoops, w.hoopIds, b, team)
      {
        var c := CrossAt(b, team);
        if c.Failure? {
          return Fail(c.error);
        }
        b := c.value;
        state.balls := state.balls[vid := b];
        team := team + 1;
      }
      out := ConfirmAt(sqrt, vid);
    }

    /** `make_volleyball_alive`; the KeyError of a holder missing from the table leaves everything as it was. */
    method MakeVolleyballAlive() returns (out: Outcome)
      modifies state`balls
      ensures var r := MakeAlive(old(state.Snapshot()));
              && (r.Success? ==> state.balls == r.value && out == Pass)
              && (r.Failure? ==> state.balls == old(state.balls) && out == Fail(r.error))
    {
      var vb := VolleyballIn(state.ballIds, state.balls);
      if vb.None? {
        return Pass;
      }
      var vid := vb.value;
      var b := state.balls[vid];
      if !b.kind.isDead || b.holderId.None? {
        return Pass;
      }
      if b.holderId.value !in state.players {
        return Fail(KeyError(b.holderId.value));
      }
      var p := state.players[b.holderId.value];
      if p.role == Keeper && b.possessionTeam == Some(p.team) {
        var midline := state.cfg.boundaryX1 / 2.0;
        if p.team == 0 {
          if p.position.x > midline {
            return Pass;
          }
        } else {
          if p.position.x < midline {
            return Pass;
          }
        }
        state.balls := state.balls[vid := b.(kind := b.kind.(isDead := false))];
      }
      return Pass;
    }
  }
}
