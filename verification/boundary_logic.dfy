/**
  * The boundary rules: the pitch clamp that keeps every entity inside the
  * pitch, the inbounding procedure a volleyball leaving the pitch starts,
  * the push that keeps chasers out of their own hoops, and the move-away
  * vector the free ways are built from.
  */
module Boundary {
  import opened Wrappers
  import opened Numerics
  import opened Vectors
  import opened Entities
  import opened State
  import opened FreeWays

  /* ---------------- inbounding ---------------- */

  /**
    * A player that may inbound the volleyball: not on the team in possession,
    * a chaser or keeper, not inbounding already, holding nothing and standing.
    */
  predicate MayInbound(vb: Ball, p: Player)
  {
    && vb.possessionTeam != Some(p.team)
    && (p.role == Chaser || p.role == Keeper)
    && p.inbounding.None?
    && !Loaded(p.hasBall)
    && !p.isKnockedOut
  }

  /** The entry of the volleyball's distance list names a player that may inbound it. */
  predicate Inbounds(vb: Ball, players: map<Id, Player>, e: (Id, real))
  {
    e.0 in players && MayInbound(vb, players[e.0])
  }

  /** The position of the first entry naming a player that may inbound the ball. */
  function InbounderIndex(vb: Ball, players: map<Id, Player>, entries: seq<(Id, real)>): (r: Option<nat>)
    ensures r.Some? ==> r.value < |entries| && Inbounds(vb, players, entries[r.value])
    ensures r.Some? ==> forall j :: 0 <= j < r.value ==> !Inbounds(vb, players, entries[j])
    ensures r.None? ==> forall j :: 0 <= j < |entries| ==> !Inbounds(vb, players, entries[j])
    decreases |entries|
  {
    if entries == [] then None
    else if Inbounds(vb, players, entries[0]) then Some(0)
    else
      var rest := InbounderIndex(vb, players, entries[1..]);
      assert forall j :: 1 <= j < |entries| ==> entries[j] == entries[1..][j - 1];
      if rest.None? then None else Some(rest.value + 1)
  }

  /** The inbounder takes the ball on: it is inbounding, immune to dodgeballs, and the ball is free. */
  function Appoint(bd: Board, vid: Id, pid: Id): (r: Board)
    requires vid in bd.balls && pid in bd.players && IsVolleyball(bd.balls[vid])
    ensures SameKeys(bd, r)
  {
    var b := bd.balls[vid];
    Board(bd.players[pid := bd.players[pid].(inbounding := Some(vid), dodgeballImmunity := true)],
          bd.balls[vid := b.(kind := b.kind.(inbounder := Some(pid)), holderId := None)])
  }

  /**
    * `_start_inbounding_procedure`: unless there is no volleyball or it has an
    * inbounder already, the first player in its nearest-first list that may
    * inbound it is appointed.
    */
  function StartInbounding(bd: Board, ballIds: seq<Id>, sd: map<Id, seq<(Id, real)>>): (r: Board)
    ensures SameKeys(bd, r)
  {
    var vb := VolleyballIn(ballIds, bd.balls);
    if vb.None? || bd.balls[vb.value].kind.inbounder.Some? then bd
    else
      var entries := DistancesOf(sd, vb.value);
      var k := InbounderIndex(bd.balls[vb.value], bd.players, entries);
      if k.None? then bd else Appoint(bd, vb.value, entries[k.value].0)
  }

  /**
    * With a volleyball and no inbounder yet, the player at the first entry of
    * its list that may inbound it (`InbounderIndex`) is appointed, which
    * changes the board, and only that player and the ball change; otherwise,
    * or without such a player, nothing changes.
    */
  lemma InboundingEffect(bd: Board, ballIds: seq<Id>, sd: map<Id, seq<(Id, real)>>)
    ensures var vb := VolleyballIn(ballIds, bd.balls); var r := StartInbounding(bd, ballIds, sd);
            && ((vb.None? || bd.balls[vb.value].kind.inbounder.Some?
                 || InbounderIndex(bd.balls[vb.value], bd.players, DistancesOf(sd, vb.value)).None?) ==> r == bd)
            && (vb.Some? && bd.balls[vb.value].kind.inbounder.None?
                && InbounderIndex(bd.balls[vb.value], bd.players, DistancesOf(sd, vb.value)).Some? ==>
                  var vid := vb.value;
                  var pid := DistancesOf(sd, vid)[InbounderIndex(bd.balls[vid], bd.players, DistancesOf(sd, vid)).value].0;
                  && r == Appoint(bd, vid, pid) && r != bd
                  && r.players == bd.players[pid := bd.players[pid].(inbounding := Some(vid), dodgeballImmunity := true)]
                  && r.balls == bd.balls[vid := r.balls[vid]]
                  && r.balls[vid].kind.inbounder == Some(pid) && r.balls[vid].holderId.None?)
  {
    var vb := VolleyballIn(ballIds, bd.balls);
    if vb.Some? && bd.balls[vb.value].kind.inbounder.None? {
      var entries := DistancesOf(sd, vb.value);
      var k := InbounderIndex(bd.balls[vb.value], bd.players, entries);
      if k.Some? {
        var r := StartInbounding(bd, ballIds, sd);
        assert r.balls == bd.balls[vb.value := r.balls[vb.value]];
        assert r.balls[vb.value] != bd.balls[vb.value];
      }
    }
  }

  /** Without a volleyball, or with an inbounder already appointed, nothing changes. */
  lemma InboundingOnce(bd: Board, ballIds: seq<Id>, sd: map<Id, seq<(Id, real)>>)
    requires var vb := VolleyballIn(ballIds, bd.balls); vb.None? || bd.balls[vb.value].kind.inbounder.Some?
    ensures StartInbounding(bd, ballIds, sd) == bd
  {
  }

  /** No player moved: positions, velocities, radii and contacts stay. */
  ghost predicate PlayersInPlace(bd: Board, bd': Board)
  {
    && SameKeys(bd, bd')
    && forall id :: id in bd.players ==>
         && bd'.players[id].position == bd.players[id].position
         && bd'.players[id].velocity == bd.players[id].velocity
         && bd'.players[id].radius == bd.players[id].radius
         && bd'.players[id].inContact == bd.players[id].inContact
  }

  /** No ball moved: positions, velocities and radii stay. */
  ghost predicate BallsInPlace(bd: Board, bd': Board)
  {
    && SameKeys(bd, bd')
    && forall id :: id in bd.balls ==>
         && bd'.balls[id].position == bd.balls[id].position
         && bd'.balls[id].velocity == bd.balls[id].velocity
         && bd'.balls[id].radius == bd.balls[id].radius
  }

  /** The appointment moves nothing. */
  lemma InboundingMovesNothing(bd: Board, ballIds: seq<Id>, sd: map<Id, seq<(Id, real)>>)
    ensures PlayersInPlace(bd, StartInbounding(bd, ballIds, sd))
    ensures BallsInPlace(bd, StartInbounding(bd, ballIds, sd))
  {
  }

  /* ---------------- the pitch clamp ---------------- */

  /** `min(max(lo, x), hi)`. */
  function Clamp(lo: real, x: real, hi: real): real
  {
    var m := if x > lo then x else lo;
    if hi < m then hi else m
  }

  /** On a non-empty interval the clamp lands inside it, and leaves exactly the values inside it alone. */
  lemma ClampBounds(lo: real, x: real, hi: real)
    requires lo <= hi
    ensures lo <= Clamp(lo, x, hi) <= hi
    ensures Clamp(lo, x, hi) == x <==> lo <= x <= hi
  {
  }

  /** The pitch leaves room for an entity of radius `r`. */
  predicate Roomy(cfg: Config, r: real)
  {
    cfg.boundaryX0 + r <= cfg.boundaryX1 - r && cfg.boundaryY0 + r <= cfg.boundaryY1 - r
  }

  /** An entity of radius `r` at `pos` lies entirely on the pitch. */
  predicate InBounds(cfg: Config, pos: Vec, r: real)
  {
    && cfg.boundaryX0 + r <= pos.x <= cfg.boundaryX1 - r
    && cfg.boundaryY0 + r <= pos.y <= cfg.boundaryY1 - r
  }

  /** The position clamped into the pitch, axis by axis. */
  function Clamped(cfg: Config, pos: Vec, r: real): Vec
  {
    Vec(Clamp(cfg.boundaryX0 + r, pos.x, cfg.boundaryX1 - r), Clamp(cfg.boundaryY0 + r, pos.y, cfg.boundaryY1 - r))
  }

  /** A clamped position is on the pitch, and a position is left alone exactly when it is on the pitch already. */
  lemma ClampedInBounds(cfg: Config, pos: Vec, r: real)
    requires Roomy(cfg, r)
    ensures InBounds(cfg, Clamped(cfg, pos, r), r)
    ensures Clamped(cfg, pos, r) == pos <==> InBounds(cfg, pos, r)
  {
    ClampBounds(cfg.boundaryX0 + r, pos.x, cfg.boundaryX1 - r);
    ClampBounds(cfg.boundaryY0 + r, pos.y, cfg.boundaryY1 - r);
  }

  /**
    * The contact partners of a clamped player `pid` follow it: each is moved
    * by the distance from `pid`'s current position to its clamped `target`.
    * A partner that is no player raises.
    */
  function ShiftPartners(players: map<Id, Player>, pid: Id, target: Vec, ids: seq<Id>): (r: Shifted)
    requires pid in players
    ensures r.players.Keys == players.Keys
    decreases |ids|
  {
    if ids == [] then Shifted(players, Pass)
    else if ids[0] !in players then Shifted(players, Fail(KeyError(ids[0])))
    else
      var delta := Sub(target, players[pid].position);
      var c := players[ids[0]];
      ShiftPartners(players[ids[0] := c.(position := Add(c.position, delta))], pid, target, ids[1..])
  }

  /**
    * `r` is `players` with the listed players translated by `delta` and
    * nothing else changed.
    */
  predicate Translated(players: map<Id, Player>, r: map<Id, Player>, ids: seq<Id>, delta: Vec)
  {
    forall id :: id in players ==>
      && id in r
      && r[id] == players[id].(position := r[id].position)
      && r[id].position == if id in ids then Add(players[id].position, delta) else players[id].position
  }

  /**
    * Partners listed once, not including the player itself, are translated by
    * exactly the clamp delta; every other player stays where it is.
    */
  lemma {:induction false} ShiftTranslates(players: map<Id, Player>, pid: Id, target: Vec, ids: seq<Id>)
    requires pid in players && pid !in ids && Distinct(ids)
    ensures var r := ShiftPartners(players, pid, target, ids);
            r.out.Pass? ==> Translated(players, r.players, ids, Sub(target, players[pid].position))
    decreases |ids|
  {
    if ids != [] && ids[0] in players {
      var c := players[ids[0]];
      var delta := Sub(target, players[pid].position);
      var next := players[ids[0] := c.(position := Add(c.position, delta))];
      DistinctTail(ids);
      ShiftTranslates(next, pid, target, ids[1..]);
      var r := ShiftPartners(players, pid, target, ids);
      assert r == ShiftPartners(next, pid, target, ids[1..]);
      assert next[pid] == players[pid];
      if r.out.Pass? {
        TranslatedStep(players, next, r.players, ids, delta);
      }
    }
  }

  /** Translating the head, then the rest of a list that does not repeat it, translates the whole list. */
  lemma TranslatedStep(players: map<Id, Player>, next: map<Id, Player>, r: map<Id, Player>, ids: seq<Id>, delta: Vec)
    requires ids != [] && ids[0] in players && ids[0] !in ids[1..]
    requires next == players[ids[0] := players[ids[0]].(position := Add(players[ids[0]].position, delta))]
    requires Translated(next, r, ids[1..], delta)
    ensures Translated(players, r, ids, delta)
  {
    forall id | id in players
      ensures && id in r
              && r[id] == players[id].(position := r[id].position)
              && r[id].position == if id in ids then Add(players[id].position, delta) else players[id].position
    {
      assert id in next;
    }
  }

  /**
    * A clamped player holding the volleyball drops it where it stood before
    * the clamp and the inbounding procedure starts; a held id naming no ball
    * raises.
    */
  function DropOutside(bd: Board, ballIds: seq<Id>, sd: map<Id, seq<(Id, real)>>, pid: Id): (r: Moved)
    requires pid in bd.players
    ensures SameKeys(bd, r.bd)
  {
    var p := bd.players[pid];
    if !Loaded(p.hasBall) then Moved(bd, Pass)
    else if p.hasBall.ballId !in bd.balls then Moved(bd, Fail(AttributeError("ball_type")))
    else
      var bid := p.hasBall.ballId;
      var b := bd.balls[bid];
      if !IsVolleyball(b) then Moved(bd, Pass)
      else
        var dropped := Board(bd.players[pid := p.(hasBall := Dropped)], bd.balls[bid := b.(position := p.position, holderId := None)]);
        Moved(StartInbounding(dropped, ballIds, sd), Pass)
  }

  /**
    * The drop case by case: without a ball in hand nothing happens; a held id
    * naming no ball raises on `ball_type`; a held dodgeball stays held.
    */
  lemma DropOutsideCases(bd: Board, ballIds: seq<Id>, sd: map<Id, seq<(Id, real)>>, pid: Id)
    requires pid in bd.players
    ensures var p := bd.players[pid]; var r := DropOutside(bd, ballIds, sd, pid);
            && (!Loaded(p.hasBall) ==> r == Moved(bd, Pass))
            && (Loaded(p.hasBall) && p.hasBall.ballId !in bd.balls ==> r == Moved(bd, Fail(AttributeError("ball_type"))))
            && (Loaded(p.hasBall) && p.hasBall.ballId in bd.balls && !IsVolleyball(bd.balls[p.hasBall.ballId]) ==> r == Moved(bd, Pass))
  {
  }

  /**
    * A held volleyball is dropped: it lies free where the player stood before
    * the clamp, the player is marked as having dropped it, and the inbounding
    * procedure starts on that board without moving anything.
    */
  lemma DropOutsideEffect(bd: Board, ballIds: seq<Id>, sd: map<Id, seq<(Id, real)>>, pid: Id)
    requires pid in bd.players
    requires Loaded(bd.players[pid].hasBall) && bd.players[pid].hasBall.ballId in bd.balls
    requires IsVolleyball(bd.balls[bd.players[pid].hasBall.ballId])
    ensures var p := bd.players[pid]; var bid := p.hasBall.ballId; var b := bd.balls[bid];
            var r := DropOutside(bd, ballIds, sd, pid);
            && r.out == Pass
            && r.bd == StartInbounding(Board(bd.players[pid := p.(hasBall := Dropped)], bd.balls[bid := b.(position := p.position, holderId := None)]), ballIds, sd)
            && r.bd.balls[bid].position == p.position && r.bd.balls[bid].holderId.None?
            && r.bd.players[pid].hasBall == Dropped
  {
    var p := bd.players[pid];
    var bid := p.hasBall.ballId;
    var b := bd.balls[bid];
    var dropped := Board(bd.players[pid := p.(hasBall := Dropped)], bd.balls[bid := b.(position := p.position, holderId := None)]);
    InboundingMovesNothing(dropped, ballIds, sd);
    InboundingKeepsHolds(dropped, ballIds, sd, pid, bid);
  }

  /** The appointment frees the volleyball it appoints for and changes no player's hold on a ball. */
  lemma InboundingKeepsHolds(bd: Board, ballIds: seq<Id>, sd: map<Id, seq<(Id, real)>>, pid: Id, bid: Id)
    requires pid in bd.players && bid in bd.balls && bd.balls[bid].holderId.None?
    ensures StartInbounding(bd, ballIds, sd).players[pid].hasBall == bd.players[pid].hasBall
    ensures StartInbounding(bd, ballIds, sd).balls[bid].holderId.None?
  {
  }

  /**
    * The clamp of player `pid`: a player off the pitch is put back on it,
    * keeping its velocity, after dropping a held volleyball and moving its
    * contact partners by the same delta.
    */
  function ClampPlayer(cfg: Config, ballIds: seq<Id>, sd: map<Id, seq<(Id, real)>>, bd: Board, pid: Id): (r: Moved)
    requires pid in bd.players
    ensures SameKeys(bd, r.bd)
  {
    var p := bd.players[pid];
    var target := Clamped(cfg, p.position, p.radius);
    if target == p.position then Moved(bd, Pass)
    else
      var d := DropOutside(bd, ballIds, sd, pid);
      if d.out.Fail? then d
      else
        var s := ShiftPartners(d.bd.players, pid, target, p.inContact);
        if s.out.Fail? then Moved(Board(s.players, d.bd.balls), s.out)
        else Moved(Board(s.players[pid := s.players[pid].(position := target)], d.bd.balls), Pass)
  }

  /**
    * The clamp of ball `bid`: a ball off the pitch is stopped and put back on
    * it; a free, live volleyball leaving the pitch starts the inbounding
    * procedure.
    */
  function ClampBall(cfg: Config, ballIds: seq<Id>, sd: map<Id, seq<(Id, real)>>, bd: Board, bid: Id): (r: Board)
    requires bid in bd.balls
    ensures SameKeys(bd, r)
  {
    var b := bd.balls[bid];
    var target := Clamped(cfg, b.position, b.radius);
    if target == b.position then bd
    else
      var stopped := Board(bd.players, bd.balls[bid := b.(velocity := Zero)]);
      var started := if IsVolleyball(b) && b.holderId.None? && !b.kind.isDead then StartInbounding(stopped, ballIds, sd) else stopped;
      Board(started.players, started.balls[bid := started.balls[bid].(position := target)])
  }

  function ClampPlayers(cfg: Config, ballIds: seq<Id>, sd: map<Id, seq<(Id, real)>>, bd: Board, ids: seq<Id>): (r: Moved)
    requires forall id :: id in ids ==> id in bd.players
    ensures SameKeys(bd, r.bd)
    decreases |ids|
  {
    if ids == [] then Moved(bd, Pass)
    else
      var m := ClampPlayer(cfg, ballIds, sd, bd, ids[0]);
      if m.out.Fail? then m else ClampPlayers(cfg, ballIds, sd, m.bd, ids[1..])
  }

  function ClampBalls(cfg: Config, ballIds: seq<Id>, sd: map<Id, seq<(Id, real)>>, bd: Board, ids: seq<Id>): (r: Board)
    requires forall id :: id in ids ==> id in bd.balls
    ensures SameKeys(bd, r)
    decreases |ids|
  {
    if ids == [] then bd
    else ClampBalls(cfg, ballIds, sd, ClampBall(cfg, ballIds, sd, bd, ids[0]), ids[1..])
  }

  /** `_enforce_pitch_boundaries`: every player, then every ball, in table order. */
  function PitchClamp(cfg: Config, playerIds: seq<Id>, ballIds: seq<Id>, sd: map<Id, seq<(Id, real)>>, bd: Board): (r: Moved)
    requires forall id :: id in playerIds ==> id in bd.players
    requires forall id :: id in ballIds ==> id in bd.balls
    ensures SameKeys(bd, r.bd)
  {
    var m := ClampPlayers(cfg, ballIds, sd, bd, playerIds);
    if m.out.Fail? then m else Moved(ClampBalls(cfg, ballIds, sd, m.bd, ballIds), Pass)
  }

  /**
    * A ball on the pitch is left alone; a ball off it is put back on the
    * pitch and stopped, and no other ball moves.
    */
  lemma ClampBallEffect(cfg: Config, ballIds: seq<Id>, sd: map<Id, seq<(Id, real)>>, bd: Board, bid: Id)
    requires bid in bd.balls && Roomy(cfg, bd.balls[bid].radius)
    ensures var b := bd.balls[bid]; var r := ClampBall(cfg, ballIds, sd, bd, bid);
            && (InBounds(cfg, b.position, b.radius) ==> r == bd)
            && (!InBounds(cfg, b.position, b.radius) ==> r.balls[bid].velocity == Zero)
            && InBounds(cfg, r.balls[bid].position, r.balls[bid].radius)
            && (forall id :: id in bd.balls ==> r.balls[id].radius == bd.balls[id].radius)
            && (forall id :: id in bd.balls && id != bid ==> r.balls[id].position == bd.balls[id].position)
            && PlayersInPlace(bd, r)
  {
    var b := bd.balls[bid];
    ClampedInBounds(cfg, b.position, b.radius);
    var target := Clamped(cfg, b.position, b.radius);
    if target != b.position {
      var stopped := Board(bd.players, bd.balls[bid := b.(velocity := Zero)]);
      InboundingMovesNothing(stopped, ballIds, sd);
      var started := if IsVolleyball(b) && b.holderId.None? && !b.kind.isDead then StartInbounding(stopped, ballIds, sd) else stopped;
      assert started.balls[bid].radius == b.radius;
      assert started.balls[bid].velocity == Zero;
    }
  }

  /**
    * A free, live volleyball off the pitch is stopped, the inbounding
    * procedure starts on the stopped board, and the ball is then put back on
    * the pitch; any other ball off the pitch is only stopped and put back,
    * and starts nothing.
    */
  lemma ClampBallInbounding(cfg: Config, ballIds: seq<Id>, sd: map<Id, seq<(Id, real)>>, bd: Board, bid: Id)
    requires bid in bd.balls && Roomy(cfg, bd.balls[bid].radius)
    ensures var b := bd.balls[bid]; var r := ClampBall(cfg, ballIds, sd, bd, bid);
            var target := Clamped(cfg, b.position, b.radius);
            var stopped := Board(bd.players, bd.balls[bid := b.(velocity := Zero)]);
            var started := StartInbounding(stopped, ballIds, sd);
            && (!InBounds(cfg, b.position, b.radius) && IsVolleyball(b) && b.holderId.None? && !b.kind.isDead ==>
                  r == Board(started.players, started.balls[bid := started.balls[bid].(position := target)]))
            && (!InBounds(cfg, b.position, b.radius) && !(IsVolleyball(b) && b.holderId.None? && !b.kind.isDead) ==>
                  r == Board(bd.players, bd.balls[bid := b.(velocity := Zero, position := target)]))
  {
    var b := bd.balls[bid];
    ClampedInBounds(cfg, b.position, b.radius);
  }

  /**
    * A player on the pitch is left alone. A player off it, when the clamp
    * completes, is put back on the pitch with its velocity kept; partners
    * listed once are moved by exactly its clamp delta, and no other player
    * moves.
    */
  lemma ClampPlayerEffect(cfg: Config, ballIds: seq<Id>, sd: map<Id, seq<(Id, real)>>, bd: Board, pid: Id)
    requires pid in bd.players && Roomy(cfg, bd.players[pid].radius)
    requires Distinct(bd.players[pid].inContact) && pid !in bd.players[pid].inContact
    ensures var p := bd.players[pid]; var r := ClampPlayer(cfg, ballIds, sd, bd, pid);
            var delta := Sub(Clamped(cfg, p.position, p.radius), p.position);
            && (InBounds(cfg, p.position, p.radius) ==> r == Moved(bd, Pass))
            && (r.out.Pass? ==>
                  && InBounds(cfg, r.bd.players[pid].position, p.radius)
                  && r.bd.players[pid].velocity == p.velocity
                  && (forall id :: id in bd.players ==>
                        r.bd.players[id].radius == bd.players[id].radius && r.bd.players[id].inContact == bd.players[id].inContact)
                  && forall id :: id in bd.players && id != pid ==>
                       r.bd.players[id].position == if id in p.inContact then Add(bd.players[id].position, delta) else bd.players[id].position)
  {
    var p := bd.players[pid];
    ClampedInBounds(cfg, p.position, p.radius);
    var target := Clamped(cfg, p.position, p.radius);
    var r := ClampPlayer(cfg, ballIds, sd, bd, pid);
    if target != p.position {
      var d := DropOutside(bd, ballIds, sd, pid);
      DropKeepsPlaces(bd, ballIds, sd, pid);
      if d.out.Pass? {
        var s := ShiftPartners(d.bd.players, pid, target, p.inContact);
        ShiftTranslates(d.bd.players, pid, target, p.inContact);
        if s.out.Pass? {
          assert r.bd.players == s.players[pid := s.players[pid].(position := target)];
          assert d.bd.players[pid].position == p.position;
          forall id | id in bd.players
            ensures r.bd.players[id].radius == bd.players[id].radius && r.bd.players[id].inContact == bd.players[id].inContact
          {
            assert s.players[id] == d.bd.players[id].(position := s.players[id].position);
          }
        }
      }
    }
  }

  /** Dropping the volleyball moves no player. */
  lemma DropKeepsPlaces(bd: Board, ballIds: seq<Id>, sd: map<Id, seq<(Id, real)>>, pid: Id)
    requires pid in bd.players
    ensures PlayersInPlace(bd, DropOutside(bd, ballIds, sd, pid).bd)
  {
    var p := bd.players[pid];
    if Loaded(p.hasBall) && p.hasBall.ballId in bd.balls && IsVolleyball(bd.balls[p.hasBall.ballId]) {
      var bid := p.hasBall.ballId;
      var b := bd.balls[bid];
      var dropped := Board(bd.players[pid := p.(hasBall := Dropped)], bd.balls[bid := b.(position := p.position, holderId := None)]);
      assert DropOutside(bd, ballIds, sd, pid).bd == StartInbounding(dropped, ballIds, sd);
      assert PlayersInPlace(bd, dropped);
      InboundingMovesNothing(dropped, ballIds, sd);
      PlayersInPlaceTrans(bd, dropped, StartInbounding(dropped, ballIds, sd));
    }
  }

  lemma PlayersInPlaceTrans(a: Board, b: Board, c: Board)
    requires PlayersInPlace(a, b) && PlayersInPlace(b, c)
    ensures PlayersInPlace(a, c)
  {
  }

  /**
    * After the ball clamp every listed ball is on the pitch; balls not listed
    * and all players stay where they were.
    */
  lemma {:induction false} ClampBallsInBounds(cfg: Config, ballIds: seq<Id>, sd: map<Id, seq<(Id, real)>>, bd: Board, ids: seq<Id>)
    requires forall id :: id in ids ==> id in bd.balls
    requires forall id :: id in bd.balls ==> Roomy(cfg, bd.balls[id].radius)
    ensures var r := ClampBalls(cfg, ballIds, sd, bd, ids);
            && (forall id :: id in ids ==> InBounds(cfg, r.balls[id].position, r.balls[id].radius))
            && (forall id :: id in bd.balls ==> r.balls[id].radius == bd.balls[id].radius)
            && (forall id :: id in bd.balls && id !in ids ==> r.balls[id].position == bd.balls[id].position)
            && PlayersInPlace(bd, r)
    decreases |ids|
  {
    if ids != [] {
      var next := ClampBall(cfg, ballIds, sd, bd, ids[0]);
      ClampBallEffect(cfg, ballIds, sd, bd, ids[0]);
      ClampBallsInBounds(cfg, ballIds, sd, next, ids[1..]);
      assert forall id :: id in ids[1..] ==> id in ids;
    }
  }

  /**
    * When no player is in contact with another, a completed player clamp
    * leaves every listed player on the pitch and unlisted players where they
    * were.
    */
  lemma {:induction false} ClampPlayersInBounds(cfg: Config, ballIds: seq<Id>, sd: map<Id, seq<(Id, real)>>, bd: Board, ids: seq<Id>)
    requires forall id :: id in ids ==> id in bd.players
    requires forall id :: id in bd.players ==> Roomy(cfg, bd.players[id].radius) && bd.players[id].inContact == []
    ensures var r := ClampPlayers(cfg, ballIds, sd, bd, ids);
            r.out.Pass? ==>
              && (forall id :: id in ids ==> InBounds(cfg, r.bd.players[id].position, r.bd.players[id].radius))
              && (forall id :: id in bd.players ==>
                    r.bd.players[id].radius == bd.players[id].radius && r.bd.players[id].inContact == [])
              && forall id :: id in bd.players && id !in ids ==> r.bd.players[id].position == bd.players[id].position
    decreases |ids|
  {
    if ids != [] {
      var m := ClampPlayer(cfg, ballIds, sd, bd, ids[0]);
      ClampPlayerEffect(cfg, ballIds, sd, bd, ids[0]);
      if m.out.Pass? {
        ClampPlayersInBounds(cfg, ballIds, sd, m.bd, ids[1..]);
        assert forall id :: id in ids[1..] ==> id in ids;
      }
    }
  }

  /**
    * The pitch clamp puts every ball on the pitch; when no player is in
    * contact with another and the clamp completes, every player too.
    */
  lemma PitchClampInBounds(cfg: Config, playerIds: seq<Id>, ballIds: seq<Id>, sd: map<Id, seq<(Id, real)>>, bd: Board)
    requires Indexes(playerIds, bd.players.Keys) && Indexes(ballIds, bd.balls.Keys)
    requires forall id :: id in bd.balls ==> Roomy(cfg, bd.balls[id].radius)
    requires forall id :: id in bd.players ==> Roomy(cfg, bd.players[id].radius)
    ensures var r := PitchClamp(cfg, playerIds, ballIds, sd, bd);
            && (r.out.Pass? ==> forall id :: id in r.bd.balls ==> InBounds(cfg, r.bd.balls[id].position, r.bd.balls[id].radius))
            && ((forall id :: id in bd.players ==> bd.players[id].inContact == []) && r.out.Pass? ==>
                  forall id :: id in r.bd.players ==> InBounds(cfg, r.bd.players[id].position, r.bd.players[id].radius))
  {
    var m := ClampPlayers(cfg, ballIds, sd, bd, playerIds);
    var r := PitchClamp(cfg, playerIds, ballIds, sd, bd);
    if m.out.Pass? {
      assert r.bd == ClampBalls(cfg, ballIds, sd, m.bd, ballIds);
      RadiiKept(cfg, ballIds, sd, bd, playerIds);
      ClampBallsInBounds(cfg, ballIds, sd, m.bd, ballIds);
      if forall id :: id in bd.players ==> bd.players[id].inContact == [] {
        ClampPlayersInBounds(cfg, ballIds, sd, bd, playerIds);
        forall id | id in r.bd.players
          ensures InBounds(cfg, r.bd.players[id].position, r.bd.players[id].radius)
        {
          assert id in playerIds;
          assert r.bd.players[id].position == m.bd.players[id].position;
          assert r.bd.players[id].radius == m.bd.players[id].radius;
        }
      }
    }
  }

  /** One player's clamp changes no ball's radius. */
  lemma ClampPlayerKeepsRadii(cfg: Config, ballIds: seq<Id>, sd: map<Id, seq<(Id, real)>>, bd: Board, pid: Id)
    requires pid in bd.players
    ensures var r := ClampPlayer(cfg, ballIds, sd, bd, pid);
            forall id :: id in bd.balls ==> r.bd.balls[id].radius == bd.balls[id].radius
  {
    var p := bd.players[pid];
    var r := ClampPlayer(cfg, ballIds, sd, bd, pid);
    var d := DropOutside(bd, ballIds, sd, pid);
    assert r.bd.balls == bd.balls || r.bd.balls == d.bd.balls;
    if Loaded(p.hasBall) && p.hasBall.ballId in bd.balls && IsVolleyball(bd.balls[p.hasBall.ballId]) {
      var bid := p.hasBall.ballId;
      var b := bd.balls[bid];
      var dropped := Board(bd.players[pid := p.(hasBall := Dropped)], bd.balls[bid := b.(position := p.position, holderId := None)]);
      assert d.bd == StartInbounding(dropped, ballIds, sd);
      InboundingMovesNothing(dropped, ballIds, sd);
      assert forall id :: id in bd.balls ==> dropped.balls[id].radius == bd.balls[id].radius;
    }
  }

  /** The player clamp changes no ball's radius. */
  lemma {:induction false} RadiiKept(cfg: Config, ballIds: seq<Id>, sd: map<Id, seq<(Id, real)>>, bd: Board, ids: seq<Id>)
    requires forall id :: id in ids ==> id in bd.players
    ensures var r := ClampPlayers(cfg, ballIds, sd, bd, ids);
            forall id :: id in bd.balls ==> r.bd.balls[id].radius == bd.balls[id].radius
    decreases |ids|
  {
    if ids != [] {
      var m := ClampPlayer(cfg, ballIds, sd, bd, ids[0]);
      ClampPlayerKeepsRadii(cfg, ballIds, sd, bd, ids[0]);
      if m.out.Pass? {
        RadiiKept(cfg, ballIds, sd, m.bd, ids[1..]);
      }
    }
  }

  /* ---------------- hoop blockage ---------------- */

  /** What one hoop does to a chaser in the blockage scan. */
  datatype HoopCheck = Away | Inside | NoVolleyball

  /**
    * Whether the chaser `p` stands inside the no-go zone of hoop `h`: an own
    * hoop, the chaser neither inbounding nor knocked out, within the hoop's
    * x band widened by its own and the volleyball's radius (checked for
    * teams 0 and 1 only) and within the ring's y band. The volleyball's
    * radius `vr` is needed, and missing, when there is no volleyball.
    */
  function CheckHoop(p: Player, h: Hoop, vr: Option<real>): HoopCheck
  {
    if !(h.team == p.team && p.inbounding.None? && !p.isKnockedOut) then Away
    else if (p.team == 0 || p.team == 1) && vr.None? then NoVolleyball
    else if (p.team == 0 || p.team == 1) && !(h.position.x - p.radius - vr.value < p.position.x < h.position.x + p.radius + vr.value) then Away
    else if !(h.position.y - h.radius < p.position.y < h.position.y + h.radius) then Away
    else if vr.None? then NoVolleyball
    else Inside
  }

  /** The first hoop in table order that the chaser does not stand away from. */
  function FirstHoop(p: Player, hoops: map<Id, Hoop>, ids: seq<Id>, vr: Option<real>): (r: Option<Id>)
    ensures r.Some? ==> r.value in hoops && r.value in ids && CheckHoop(p, hoops[r.value], vr) != Away
    ensures r.None? ==> forall id :: id in ids && id in hoops ==> CheckHoop(p, hoops[id], vr) == Away
    decreases |ids|
  {
    if ids == [] then None
    else if ids[0] in hoops && CheckHoop(p, hoops[ids[0]], vr) != Away then Some(ids[0])
    else FirstHoop(p, hoops, ids[1..], vr)
  }

  /** Moves the listed players along x by `dx`; a listed id that is no player raises. */
  function ShiftX(players: map<Id, Player>, ids: seq<Id>, dx: real): (r: Shifted)
    ensures r.players.Keys == players.Keys
    decreases |ids|
  {
    if ids == [] then Shifted(players, Pass)
    else if ids[0] !in players then Shifted(players, Fail(KeyError(ids[0])))
    else
      var c := players[ids[0]];
      ShiftX(players[ids[0] := c.(position := Vec(c.position.x + dx, c.position.y))], ids[1..], dx)
  }

  /** `r` is `players` with the listed players moved by `dx` along x and nothing else changed. */
  predicate TranslatedX(players: map<Id, Player>, r: map<Id, Player>, ids: seq<Id>, dx: real)
  {
    forall id :: id in players ==>
      && id in r
      && r[id] == players[id].(position := r[id].position)
      && r[id].position == if id in ids then Vec(players[id].position.x + dx, players[id].position.y) else players[id].position
  }

  /** Listed players, each listed once, move by exactly `dx` along x; no other player moves. */
  lemma {:induction false} ShiftXTranslates(players: map<Id, Player>, ids: seq<Id>, dx: real)
    requires Distinct(ids)
    ensures var r := ShiftX(players, ids, dx);
            r.out.Pass? ==> TranslatedX(players, r.players, ids, dx)
    decreases |ids|
  {
    if ids != [] && ids[0] in players {
      var c := players[ids[0]];
      var next := players[ids[0] := c.(position := Vec(c.position.x + dx, c.position.y))];
      DistinctTail(ids);
      ShiftXTranslates(next, ids[1..], dx);
      var r := ShiftX(players, ids, dx);
      assert r == ShiftX(next, ids[1..], dx);
      if r.out.Pass? {
        TranslatedXStep(players, next, r.players, ids, dx);
      }
    }
  }

  /** Moving the head, then the rest of a list that does not repeat it, moves the whole list. */
  lemma TranslatedXStep(players: map<Id, Player>, next: map<Id, Player>, r: map<Id, Player>, ids: seq<Id>, dx: real)
    requires ids != [] && ids[0] in players && ids[0] !in ids[1..]
    requires next == players[ids[0] := players[ids[0]].(position := Vec(players[ids[0]].position.x + dx, players[ids[0]].position.y))]
    requires TranslatedX(next, r, ids[1..], dx)
    ensures TranslatedX(players, r, ids, dx)
  {
    forall id | id in players
      ensures && id in r
              && r[id] == players[id].(position := r[id].position)
              && r[id].position == if id in ids then Vec(players[id].position.x + dx, players[id].position.y) else players[id].position
    {
      assert id in next;
    }
  }

  /**
    * The push out of hoop `h`: the chaser is put on the near edge of the
    * zone and stopped; the ball it holds, stopped too, and its contact
    * partners move along x by the same offset.
    */
  function Push(bd: Board, pid: Id, h: Hoop, vr: real): (r: Moved)
    requires pid in bd.players
    ensures SameKeys(bd, r.bd)
  {
    var p := bd.players[pid];
    var edge := if p.position.x < h.position.x then h.position.x - p.radius - vr else h.position.x + p.radius + vr;
    var reset := edge - p.position.x;
    var players := bd.players[pid := p.(position := Vec(edge, p.position.y), velocity := Zero)];
    var balls :=
      if Loaded(p.hasBall) && p.hasBall.ballId in bd.balls then
        var b := bd.balls[p.hasBall.ballId];
        bd.balls[p.hasBall.ballId := b.(position := Vec(b.position.x + reset, b.position.y), velocity := Zero)]
      else bd.balls;
    var s := ShiftX(players, p.inContact, reset);
    Moved(Board(s.players, balls), s.out)
  }

  /** One chaser of `_enforce_hoop_blockage`: at most one hoop, the first it is not away from, pushes it. */
  function BlockChaser(bd: Board, hoops: map<Id, Hoop>, hoopIds: seq<Id>, vr: Option<real>, pid: Id): (r: Moved)
    requires pid in bd.players
    ensures SameKeys(bd, r.bd)
  {
    var p := bd.players[pid];
    if p.role != Chaser then Moved(bd, Pass)
    else
      var h := FirstHoop(p, hoops, hoopIds, vr);
      if h.None? then Moved(bd, Pass)
      else if CheckHoop(p, hoops[h.value], vr) == NoVolleyball then Moved(bd, Fail(AttributeError("radius")))
      else Push(bd, pid, hoops[h.value], vr.value)
  }

  function BlockFrom(bd: Board, hoops: map<Id, Hoop>, hoopIds: seq<Id>, vr: Option<real>, ids: seq<Id>): (r: Moved)
    requires forall id :: id in ids ==> id in bd.players
    ensures SameKeys(bd, r.bd)
    decreases |ids|
  {
    if ids == [] then Moved(bd, Pass)
    else
      var m := BlockChaser(bd, hoops, hoopIds, vr, ids[0]);
      if m.out.Fail? then m else BlockFrom(m.bd, hoops, hoopIds, vr, ids[1..])
  }

  /** The radius of the volleyball, if there is one. */
  function VolleyballRadius(ballIds: seq<Id>, balls: map<Id, Ball>): Option<real>
  {
    var vb := VolleyballIn(ballIds, balls);
    if vb.None? then None else Some(balls[vb.value].radius)
  }

  /** `_enforce_hoop_blockage`: every chaser, in table order. */
  function HoopBlockage(bd: Board, hoops: map<Id, Hoop>, hoopIds: seq<Id>, playerIds: seq<Id>, ballIds: seq<Id>): (r: Moved)
    requires forall id :: id in playerIds ==> id in bd.players
    ensures SameKeys(bd, r.bd)
  {
    BlockFrom(bd, hoops, hoopIds, VolleyballRadius(ballIds, bd.balls), playerIds)
  }

  /**
    * A chaser inside its own hoop's zone ends on the zone's edge, outside
    * the open x band, and stopped; its y and its other fields are kept; the
    * ball it holds is stopped and moved by the same x offset, and partners
    * listed once move by that offset too.
    */
  lemma PushedOut(bd: Board, pid: Id, h: Hoop, vr: real)
    requires pid in bd.players && Distinct(bd.players[pid].inContact) && pid !in bd.players[pid].inContact
    ensures var p := bd.players[pid]; var r := Push(bd, pid, h, vr);
            var reset := r.bd.players[pid].position.x - p.position.x;
            r.out.Pass? ==>
              && !(h.position.x - p.radius - vr < r.bd.players[pid].position.x < h.position.x + p.radius + vr)
              && r.bd.players[pid] == p.(position := Vec(p.position.x + reset, p.position.y), velocity := Zero)
              && (Loaded(p.hasBall) && p.hasBall.ballId in bd.balls ==>
                    var b := bd.balls[p.hasBall.ballId];
                    r.bd.balls[p.hasBall.ballId] == b.(position := Vec(b.position.x + reset, b.position.y), velocity := Zero))
              && forall id :: id in p.inContact && id in bd.players ==>
                   r.bd.players[id].position == Vec(bd.players[id].position.x + reset, bd.players[id].position.y)
  {
    var p := bd.players[pid];
    var edge := if p.position.x < h.position.x then h.position.x - p.radius - vr else h.position.x + p.radius + vr;
    var reset := edge - p.position.x;
    var r := Push(bd, pid, h, vr);
    if r.out.Pass? {
      PushedPlayer(bd, pid, h, vr, edge);
      assert r.bd.players[pid].position.x - p.position.x == reset;
      PushedBall(bd, pid, h, vr, reset);
      PushedPartners(bd, pid, h, vr, reset);
    }
  }

  /** The pushed chaser itself ends at `edge`, stopped, with its y and other fields kept. */
  lemma PushedPlayer(bd: Board, pid: Id, h: Hoop, vr: real, edge: real)
    requires pid in bd.players && pid !in bd.players[pid].inContact && Distinct(bd.players[pid].inContact)
    requires var p := bd.players[pid];
             edge == if p.position.x < h.position.x then h.position.x - p.radius - vr else h.position.x + p.radius + vr
    ensures var p := bd.players[pid]; var r := Push(bd, pid, h, vr);
            r.out.Pass? ==> r.bd.players[pid] == p.(position := Vec(edge, p.position.y), velocity := Zero)
  {
    var p := bd.players[pid];
    var players := bd.players[pid := p.(position := Vec(edge, p.position.y), velocity := Zero)];
    var s := ShiftX(players, p.inContact, edge - p.position.x);
    assert Push(bd, pid, h, vr).bd.players == s.players && Push(bd, pid, h, vr).out == s.out;
    ShiftXTranslates(players, p.inContact, edge - p.position.x);
    if s.out.Pass? {
      assert pid in players;
    }
  }

  /** The ball the pushed chaser holds is stopped and moved along x by the push offset. */
  lemma PushedBall(bd: Board, pid: Id, h: Hoop, vr: real, reset: real)
    requires pid in bd.players
    requires var p := bd.players[pid];
             reset == (if p.position.x < h.position.x then h.position.x - p.radius - vr else h.position.x + p.radius + vr) - p.position.x
    ensures var p := bd.players[pid]; var r := Push(bd, pid, h, vr);
            Loaded(p.hasBall) && p.hasBall.ballId in bd.balls ==>
              var b := bd.balls[p.hasBall.ballId];
              r.bd.balls[p.hasBall.ballId] == b.(position := Vec(b.position.x + reset, b.position.y), velocity := Zero)
  {
  }

  /** The pushed chaser's partners, listed once, move along x by the push offset. */
  lemma PushedPartners(bd: Board, pid: Id, h: Hoop, vr: real, reset: real)
    requires pid in bd.players && pid !in bd.players[pid].inContact && Distinct(bd.players[pid].inContact)
    requires var p := bd.players[pid];
             reset == (if p.position.x < h.position.x then h.position.x - p.radius - vr else h.position.x + p.radius + vr) - p.position.x
    ensures var p := bd.players[pid]; var r := Push(bd, pid, h, vr);
            r.out.Pass? ==>
              forall id :: id in p.inContact && id in bd.players ==>
                r.bd.players[id].position == Vec(bd.players[id].position.x + reset, bd.players[id].position.y)
  {
    var p := bd.players[pid];
    var players := bd.players[pid := p.(position := Vec(p.position.x + reset, p.position.y), velocity := Zero)];
    var s := ShiftX(players, p.inContact, reset);
    assert Push(bd, pid, h, vr).bd.players == s.players && Push(bd, pid, h, vr).out == s.out;
    ShiftXTranslates(players, p.inContact, reset);
    if s.out.Pass? {
      forall id | id in p.inContact && id in bd.players
        ensures s.players[id].position == Vec(bd.players[id].position.x + reset, bd.players[id].position.y)
      {
        assert id in players && players[id] == bd.players[id];
      }
    }
  }

  /** Only chasers are pushed out of hoops. */
  lemma OnlyChasersBlocked(bd: Board, hoops: map<Id, Hoop>, hoopIds: seq<Id>, vr: Option<real>, pid: Id)
    requires pid in bd.players && bd.players[pid].role != Chaser
    ensures BlockChaser(bd, hoops, hoopIds, vr, pid) == Moved(bd, Pass)
  {
  }

  /* ---------------- the rules on the shared state ---------------- */

  class BoundaryLogic {
    const state: GameState

    constructor (state: GameState)
      ensures this.state == state
    {
      this.state := state;
    }

    /** `_start_inbounding_procedure`. */
    method StartInboundingProcedure()
      modifies state`players, state`balls
      ensures state.Tables() == StartInbounding(old(state.Tables()), state.ballIds, state.squaredDistances)
    {
      var vb := VolleyballIn(state.ballIds, state.balls);
      if vb.None? || state.balls[vb.value].kind.inbounder.Some? {
        return;
      }
      var vid := vb.value;
      var b := state.balls[vid];
      var entries := DistancesOf(state.squaredDistances, vid);
      ghost var r := InbounderIndex(b, state.players, entries);
      var k := 0;
      while k < |entries|
        invariant k <= |entries|
        invariant forall j :: 0 <= j < k ==> !Inbounds(b, state.players, entries[j])
      {
        var pid := entries[k].0;
        if pid in state.players {
          var p := state.players[pid];
          if b.possessionTeam != Some(p.team) && (p.role == Chaser || p.role == Keeper) && p.inbounding.None? && !Loaded(p.hasBall) && !p.isKnockedOut {
            assert Inbounds(b, state.players, entries[k]);
            assert r == Some(k);
            state.players := state.players[pid := p.(inbounding := Some(vid), dodgeballImmunity := true)];
            state.balls := state.balls[vid := b.(kind := b.kind.(inbounder := Some(pid)), holderId := None)];
            return;
          }
        }
        k := k + 1;
      }
      assert r.None?;
    }

    /** The partner loop of `_enforce_pitch_boundaries` for the clamped player `pid`. */
    method ShiftPartnersAt(pid: Id, target: Vec, ids: seq<Id>) returns (out: Outcome)
      requires pid in state.players
      modifies state`players
      ensures Shifted(state.players, out) == ShiftPartners(old(state.players), pid, target, ids)
    {
      ghost var players := state.players;
      var i := 0;
      while i < |ids|
        invariant 0 <= i <= |ids|
        invariant pid in state.players
        invariant ShiftPartners(players, pid, target, ids) == ShiftPartners(state.players, pid, target, ids[i..])
      {
        assert ids[i..][0] == ids[i] && ids[i..][1..] == ids[i + 1..];
        var cid := ids[i];
        if cid !in state.players {
          return Fail(KeyError(cid));
        }
        var delta := Sub(target, state.players[pid].position);
        var c := state.players[cid];
        state.players := state.players[cid := c.(position := Add(c.position, delta))];
        i := i + 1;
      }
      return Pass;
    }

    /** One player of `_enforce_pitch_boundaries`. */
    method ClampPlayerAt(pid: Id) returns (out: Outcome)
      requires pid in state.players
      modifies state`players, state`balls
      ensures Moved(state.Tables(), out) == ClampPlayer(state.cfg, state.ballIds, state.squaredDistances, old(state.Tables()), pid)
    {
      var p := state.players[pid];
      var target := Clamped(state.cfg, p.position, p.radius);
      if target == p.position {
        return Pass;
      }
      if Loaded(p.hasBall) {
        var bid := p.hasBall.ballId;
        if bid !in state.balls {
          return Fail(AttributeError("ball_type"));
        }
        var b := state.balls[bid];
        if IsVolleyball(b) {
          state.balls := state.balls[bid := b.(position := p.position, holderId := None)];
          state.players := state.players[pid := p.(hasBall := Dropped)];
          StartInboundingProcedure();
        }
      }
      out := ShiftPartnersAt(pid, target, p.inContact);
      if out.Fail? {
        return;
      }
      state.players := state.players[pid := state.players[pid].(position := target)];
    }

    /** One ball of `_enforce_pitch_boundaries`. */
    method ClampBallAt(bid: Id)
      requires bid in state.balls
      modifies state`players, state`balls
      ensures state.Tables() == ClampBall(state.cfg, state.ballIds, state.squaredDistances, old(state.Tables()), bid)
    {
      var b := state.balls[bid];
      var target := Clamped(state.cfg, b.position, b.radius);
      if target == b.position {
        return;
      }
      state.balls := state.balls[bid := b.(velocity := Zero)];
      if IsVolleyball(b) && b.holderId.None? && !b.kind.isDead {
        StartInboundingProcedure();
      }
      state.balls := state.balls[bid := state.balls[bid].(position := target)];
    }

    /** The player half of `_enforce_pitch_boundaries`. */
    method ClampAllPlayers() returns (out: Outcome)
      requires forall id :: id in state.playerIds ==> id in state.players
      modifies state`players, state`balls
      ensures Moved(state.Tables(), out) == ClampPlayers(state.cfg, state.ballIds, state.squaredDistances, old(state.Tables()), state.playerIds)
    {
      var ids := state.playerIds;
      ghost var bd := state.Tables();
      var i := 0;
      while i < |ids|
        invariant 0 <= i <= |ids|
        invariant state.players.Keys == bd.players.Keys && state.balls.Keys == bd.balls.Keys
        invariant ClampPlayers(state.cfg, state.ballIds, state.squaredDistances, bd, ids)
                  == ClampPlayers(state.cfg, state.ballIds, state.squaredDistances, state.Tables(), ids[i..])
      {
        assert ids[i..][0] == ids[i] && ids[i..][1..] == ids[i + 1..];
        out := ClampPlayerAt(ids[i]);
        if out.Fail? {
          return;
        }
        i := i + 1;
      }
      return Pass;
    }

    /** The ball half of `_enforce_pitch_boundaries`. */
    method ClampAllBalls()
      requires forall id :: id in state.ballIds ==> id in state.balls
      modifies state`players, state`balls
      ensures state.Tables() == ClampBalls(state.cfg, state.ballIds, state.squaredDistances, old(state.Tables()), state.ballIds)
    {
      var ids := state.ballIds;
      ghost var bd := state.Tables();
      var i := 0;
      while i < |ids|
        invariant 0 <= i <= |ids|
        invariant state.players.Keys == bd.players.Keys && state.balls.Keys == bd.balls.Keys
        invariant ClampBalls(state.cfg, state.ballIds, state.squaredDistances, bd, ids)
                  == ClampBalls(state.cfg, state.ballIds, state.squaredDistances, state.Tables(), ids[i..])
      {
        assert ids[i..][0] == ids[i] && ids[i..][1..] == ids[i + 1..];
        ClampBallAt(ids[i]);
        i := i + 1;
      }
    }

    /** `_enforce_pitch_boundaries`. */
    method EnforcePitchBoundaries() returns (out: Outcome)
      requires forall id :: id in state.playerIds ==> id in state.players
      requires forall id :: id in state.ballIds ==> id in state.balls
      modifies state`players, state`balls
      ensures Moved(state.Tables(), out) == PitchClamp(state.cfg, state.playerIds, state.ballIds, state.squaredDistances, old(state.Tables()))
    {
      out := ClampAllPlayers();
      if out.Fail? {
        return;
      }
      ClampAllBalls();
    }

    /** The partner loop of the hoop push. */
    method ShiftXAt(ids: seq<Id>, dx: real) returns (out: Outcome)
      modifies state`players
      ensures Shifted(state.players, out) == ShiftX(old(state.players), ids, dx)
    {
      ghost var players := state.players;
      var i := 0;
      while i < |ids|
        invariant 0 <= i <= |ids|
        invariant ShiftX(players, ids, dx) == ShiftX(state.players, ids[i..], dx)
      {
        assert ids[i..][0] == ids[i] && ids[i..][1..] == ids[i + 1..];
        var cid := ids[i];
        if cid !in state.players {
          return Fail(KeyError(cid));
        }
        var c := state.players[cid];
        state.players := state.players[cid := c.(position := Vec(c.position.x + dx, c.position.y))];
        i := i + 1;
      }
      return Pass;
    }

    /** The push of chaser `pid` out of hoop `h` in `_enforce_hoop_blockage`. */
    method PushAt(pid: Id, h: Hoop, vr: real) returns (out: Outcome)
      requires pid in state.players
      modifies state`players, state`balls
      ensures Moved(state.Tables(), out) == Push(old(state.Tables()), pid, h, vr)
    {
      var p := state.players[pid];
      ghost var push := Push(state.Tables(), pid, h, vr);
      var edge := if p.position.x < h.position.x then h.position.x - p.radius - vr else h.position.x + p.radius + vr;
      var reset := edge - p.position.x;
      state.players := state.players[pid := p.(position := Vec(edge, p.position.y), velocity := Zero)];
      if Loaded(p.hasBall) && p.hasBall.ballId in state.balls {
        var b := state.balls[p.hasBall.ballId];
        state.balls := state.balls[p.hasBall.ballId := b.(position := Vec(b.position.x + reset, b.position.y), velocity := Zero)];
      }
      assert push == Moved(Board(ShiftX(state.players, p.inContact, reset).players, state.balls), ShiftX(state.players, p.inContact, reset).out);
      out := ShiftXAt(p.inContact, reset);
    }

    /** The hoop loop of `_enforce_hoop_blockage` for player `pid`. */
    method BlockChaserAt(pid: Id, vr: Option<real>) returns (out: Outcome)
      requires pid in state.players
      modifies state`players, state`balls
      ensures Moved(state.Tables(), out) == BlockChaser(old(state.Tables()), state.hoops, state.hoopIds, vr, pid)
    {
      var p := state.players[pid];
      if p.role != Chaser {
        return Pass;
      }
      var ids := state.hoopIds;
      var i := 0;
      while i < |ids|
        invariant 0 <= i <= |ids|
        invariant FirstHoop(p, state.hoops, ids, vr) == FirstHoop(p, state.hoops, ids[i..], vr)
      {
        assert ids[i..][0] == ids[i] && ids[i..][1..] == ids[i + 1..];
        var hid := ids[i];
        if hid in state.hoops {
          var check := CheckHoop(p, state.hoops[hid], vr);
          if check == NoVolleyball {
            return Fail(AttributeError("radius"));
          } else if check == Inside {
            out := PushAt(pid, state.hoops[hid], vr.value);
            return;
          }
        }
        i := i + 1;
      }
      return Pass;
    }

    /** `_enforce_hoop_blockage`. */
    method EnforceHoopBlockage() returns (out: Outcome)
      requires forall id :: id in state.playerIds ==> id in state.players
      modifies state`players, state`balls
      ensures Moved(state.Tables(), out) == HoopBlockage(old(state.Tables()), state.hoops, state.hoopIds, state.playerIds, state.ballIds)
    {
      var vr := VolleyballRadius(state.ballIds, state.balls);
      var ids := state.playerIds;
      ghost var bd := state.Tables();
      var i := 0;
      while i < |ids|
        invariant 0 <= i <= |ids|
        invariant state.players.Keys == bd.players.Keys && state.balls.Keys == bd.balls.Keys
        invariant BlockFrom(bd, state.hoops, state.hoopIds, vr, ids)
                  == BlockFrom(state.Tables(), state.hoops, state.hoopIds, vr, ids[i..])
      {
        assert ids[i..][0] == ids[i] && ids[i..][1..] == ids[i + 1..];
        out := BlockChaserAt(ids[i], vr);
        if out.Fail? {
          return;
        }
        i := i + 1;
      }
      return Pass;
    }

    /**
      * `_calculate_move_away_vector` of player `pid` away from `from`, with
      * the jitter factors `jx` and `jy` drawn for it: the move and the normal,
      * and the player's velocity cut to its part across the normal.
      */
    method CalculateMoveAwayVector(sqrt: real -> real, from: Vec, pid: Id, dt: real, speed: real, jx: real, jy: real)
      returns (r: Option<(Vec, Vec)>)
      requires pid in state.players
      modifies state`players
      ensures var m := MoveAway(sqrt, from, old(state.players[pid]), dt, speed, jx, jy);
              && (m.None? ==> r.None? && state.players == old(state.players))
              && (m.Some? ==> r == Some((m.value.0, m.value.1))
                               && state.players == old(state.players)[pid := old(state.players[pid]).(velocity := m.value.2)])
    {
      var p := state.players[pid];
      var normal := Sub(p.position, from);
      var mag := Length(sqrt, normal);
      if mag == 0.0 {
        return None;
      }
      var n := DivBy(normal, mag);
      var d := Dot(p.velocity, n);
      var along := Vec(n.x * d, n.y * d);
      var move := Vec((n.x * speed - along.x) * jx, (n.y * speed - along.y) * jy);
      ghost var m := MoveAway(sqrt, from, p, dt, speed, jx, jy);
      assert m.Some?;
      assert m.value.1 == n;
      assert m.value.2 == Sub(p.velocity, along);
      assert m.value.0 == Vec(move.x * dt, move.y * dt);
      state.players := state.players[pid := p.(velocity := Sub(p.velocity, along))];
      return Some((Vec(move.x * dt, move.y * dt), n));
    }

    /** The inbounder scan of `_inbounding_free_way`, from the inbounder's position `from`. */
    method PushFromInbounder(sqrt: real -> real, from: Vec, entries: seq<(Id, real)>, dt: real, jitter: (nat, Id) -> (real, real))
      returns (moves: map<Id, Vec>, normals: map<Id, Vec>, order: seq<Id>, out: Outcome)
      modifies state`players
      ensures Scanned(Pushes(state.players, moves, normals, order), out)
              == AwayFromInbounder(sqrt, from, Pushes(old(state.players), map[], map[], []), entries, dt, jitter)
    {
      ghost var s0 := Pushes(state.players, map[], map[], []);
      moves, normals, order := map[], map[], [];
      var k := 0;
      while k < |entries|
        invariant 0 <= k <= |entries|
        invariant AwayFromInbounder(sqrt, from, s0, entries, dt, jitter)
                  == AwayFromInbounder(sqrt, from, Pushes(state.players, moves, normals, order), entries[k..], dt, jitter)
      {
        assert entries[k..][0] == entries[k] && entries[k..][1..] == entries[k + 1..];
        var oid := entries[k].0;
        if oid in state.players {
          var o := state.players[oid];
          if !Crowds(o, entries[k].1) {
            return moves, normals, order, Pass;
          }
          var r := CalculateMoveAwayVector(sqrt, from, oid, dt, o.maxSpeed, jitter(0, oid).0, jitter(0, oid).1);
          if r.None? {
            return moves, normals, order, Fail(NoMove);
          }
          order := if oid in moves then order else order + [oid];
          moves := moves[oid := r.value.0];
          normals := normals[oid := r.value.1];
        }
        k := k + 1;
      }
      return moves, normals, order, Pass;
    }

    /** One entry of the volleyball scan of `_inbounding_free_way`. */
    method VolleyballEntryAt(sqrt: real -> real, from: Vec, ibid: Id, e: (Id, real), dt: real,
                             jitter: (nat, Id) -> (real, real), sign: Id -> real,
                             moves0: map<Id, Vec>, normals0: map<Id, Vec>, order0: seq<Id>)
      returns (moves: map<Id, Vec>, normals: map<Id, Vec>, order: seq<Id>, out: Outcome, stop: bool)
      modifies state`players
      ensures Step(Pushes(state.players, moves, normals, order), out, stop)
              == VolleyballStep(sqrt, from, ibid, Pushes(old(state.players), moves0, normals0, order0), e, dt, jitter, sign)
    {
      moves, normals, order := moves0, normals0, order0;
      var oid := e.0;
      if oid !in state.players || oid == ibid {
        return moves, normals, order, Pass, false;
      }
      var o := state.players[oid];
      if !Crowds(o, e.1) {
        return moves, normals, order, Pass, true;
      }
      ghost var m := MoveAway(sqrt, from, o, dt, o.maxSpeed, jitter(1, oid).0, jitter(1, oid).1);
      var r := CalculateMoveAwayVector(sqrt, from, oid, dt, o.maxSpeed, jitter(1, oid).0, jitter(1, oid).1);
      if r.None? {
        return moves, normals, order, Fail(NoMove), true;
      }
      ghost var s1 := Pushes(state.players, moves, normals, order);
      if oid !in moves {
        order := order + [oid];
        moves := moves[oid := r.value.0];
        return moves, normals, order, Pass, false;
      }
      if oid !in normals {
        return moves, normals, order, Fail(KeyError(oid)), true;
      }
      var ne := normals[oid];
      var me := moves[oid];
      var n := r.value.1;
      if Opposed(n, ne) {
        moves := moves[oid := TurnAside(me, ne, o.maxSpeed, dt, sign(oid))];
      }
      return moves, normals, order, Pass, false;
    }

    /** The volleyball scan of `_inbounding_free_way`, from the ball's position `from`, continuing the moves collected. */
    method PushFromVolleyball(sqrt: real -> real, from: Vec, ibid: Id, entries: seq<(Id, real)>, dt: real,
                              jitter: (nat, Id) -> (real, real), sign: Id -> real,
                              moves0: map<Id, Vec>, normals0: map<Id, Vec>, order0: seq<Id>)
      returns (moves: map<Id, Vec>, normals: map<Id, Vec>, order: seq<Id>, out: Outcome)
      modifies state`players
      ensures Scanned(Pushes(state.players, moves, normals, order), out)
              == AwayFromVolleyball(sqrt, from, ibid, Pushes(old(state.players), moves0, normals0, order0), entries, dt, jitter, sign)
    {
      ghost var s0 := Pushes(state.players, moves0, normals0, order0);
      moves, normals, order := moves0, normals0, order0;
      var k := 0;
      while k < |entries|
        invariant 0 <= k <= |entries|
        invariant AwayFromVolleyball(sqrt, from, ibid, s0, entries, dt, jitter, sign)
                  == AwayFromVolleyball(sqrt, from, ibid, Pushes(state.players, moves, normals, order), entries[k..], dt, jitter, sign)
      {
        assert entries[k..][0] == entries[k] && entries[k..][1..] == entries[k + 1..];
        var stop;
        moves, normals, order, out, stop := VolleyballEntryAt(sqrt, from, ibid, entries[k], dt, jitter, sign, moves, normals, order);
        if stop {
          return;
        }
        k := k + 1;
      }
      return moves, normals, order, Pass;
    }

    /** The final loop of `_inbounding_free_way`: the collected moves applied in the order collected. */
    method ApplyMovesAt(moves: map<Id, Vec>, order: seq<Id>)
      requires forall id :: id in order ==> id in state.players && id in moves
      modifies state`players
      ensures state.players == ApplyMoves(old(state.players), moves, order)
    {
      ghost var players := state.players;
      var i := 0;
      while i < |order|
        invariant 0 <= i <= |order|
        invariant state.players.Keys == players.Keys
        invariant ApplyMoves(players, moves, order) == ApplyMoves(state.players, moves, order[i..])
      {
        assert order[i..][0] == order[i] && order[i..][1..] == order[i + 1..];
        var p := state.players[order[i]];
        state.players := state.players[order[i] := p.(position := Add(p.position, moves[order[i]]))];
        i := i + 1;
      }
    }

    /** `_inbounding_free_way`; `jitter` and `sign` supply the random draws. */
    method InboundingFreeWay(sqrt: real -> real, dt: real, jitter: (nat, Id) -> (real, real), sign: Id -> real) returns (out: Outcome)
      modifies state`players
      ensures Moved(state.Tables(), out) == ClearForInbounder(sqrt, state.ballIds, state.squaredDistances, old(state.Tables()), dt, jitter, sign)
    {
      var vb := VolleyballIn(state.ballIds, state.balls);
      if vb.None? || state.balls[vb.value].kind.inbounder.None? {
        return Pass;
      }
      var ibid := state.balls[vb.value].kind.inbounder.value;
      if ibid !in state.players {
        return Pass;
      }
      ghost var s0 := Pushes(state.players, map[], map[], []);
      assert Collected(s0);
      var moves, normals, order;
      moves, normals, order, out := PushFromInbounder(sqrt, state.players[ibid].position, DistancesOf(state.squaredDistances, ibid), dt, jitter);
      if out.Fail? {
        return;
      }
      moves, normals, order, out := PushFromVolleyball(sqrt, state.balls[vb.value].position, ibid, DistancesOf(state.squaredDistances, vb.value),
                                                       dt, jitter, sign, moves, normals, order);
      if out.Fail? {
        return;
      }
      ApplyMovesAt(moves, order);
      return Pass;
    }

    /** The keeper search of `_making_alive_keeper_free_way`. */
    method FindKeeperOf(team: Option<int>) returns (kid: Option<Id>)
      ensures kid == KeeperOf(state.players, state.playerIds, team)
    {
      var ids := state.playerIds;
      var i := 0;
      while i < |ids|
        invariant 0 <= i <= |ids|
        invariant KeeperOf(state.players, ids, team) == KeeperOf(state.players, ids[i..], team)
      {
        assert ids[i..][0] == ids[i] && ids[i..][1..] == ids[i + 1..];
        if ids[i] in state.players && state.players[ids[i]].role == Keeper && team == Some(state.players[ids[i]].team) {
          return Some(ids[i]);
        }
        i := i + 1;
      }
      return None;
    }

    /** Pass `k` of `_making_alive_keeper_free_way`, away from keeper `kid`. */
    method KeeperPassAt(sqrt: real -> real, kid: Id, entries: seq<(Id, real)>, dt: real, jitter: (nat, Id) -> (real, real), k: nat)
      returns (out: Outcome)
      requires kid in state.players
      modifies state`players
      ensures Shifted(state.players, out) == KeeperPass(sqrt, kid, old(state.players), entries, dt, jitter, k)
    {
      ghost var players := state.players;
      var i := 0;
      while i < |entries|
        invariant 0 <= i <= |entries|
        invariant kid in state.players
        invariant KeeperPass(sqrt, kid, players, entries, dt, jitter, k) == KeeperPass(sqrt, kid, state.players, entries[i..], dt, jitter, k)
      {
        assert entries[i..][0] == entries[i] && entries[i..][1..] == entries[i + 1..];
        var oid := entries[i].0;
        if oid in state.players && Crowds(state.players[oid], entries[i].1) {
          var moved := ShoveAway(sqrt, kid, oid, dt, jitter(2 + k, oid));
          if !moved {
            return Fail(NoMove);
          }
        }
        i := i + 1;
      }
      return Pass;
    }

    /** One crowding player `oid` of a keeper pass, pushed away from keeper `kid` with the draws `j`. */
    method ShoveAway(sqrt: real -> real, kid: Id, oid: Id, dt: real, j: (real, real)) returns (moved: bool)
      requires kid in state.players && oid in state.players
      modifies state`players
      ensures var o := old(state.players[oid]);
              var m := MoveAway(sqrt, old(state.players[kid].position), o, dt, o.maxSpeed, j.0, j.1);
              && moved == m.Some?
              && state.players == if m.None? then old(state.players)
                                  else old(state.players)[oid := o.(velocity := m.value.2, position := Add(o.position, m.value.0))]
    {
      var o := state.players[oid];
      ghost var m := MoveAway(sqrt, state.players[kid].position, o, dt, o.maxSpeed, j.0, j.1);
      ghost var before := state.players;
      var r := CalculateMoveAwayVector(sqrt, state.players[kid].position, oid, dt, o.maxSpeed, j.0, j.1);
      if r.None? {
        return false;
      }
      state.players := state.players[oid := state.players[oid].(position := Add(state.players[oid].position, r.value.0))];
      assert state.players == before[oid := o.(velocity := m.value.2, position := Add(o.position, m.value.0))];
      return true;
    }

    /** `_making_alive_keeper_free_way`; `jitter` supplies the random draws, pass by pass. */
    method MakingAliveKeeperFreeWay(sqrt: real -> real, dt: real, jitter: (nat, Id) -> (real, real)) returns (out: Outcome)
      modifies state`players
      ensures Moved(state.Tables(), out) == ClearForKeeper(sqrt, state.playerIds, state.ballIds, state.squaredDistances, old(state.Tables()), dt, jitter)
    {
      var vb := VolleyballIn(state.ballIds, state.balls);
      if vb.None? || !state.balls[vb.value].kind.isDead {
        return Pass;
      }
      var kid := FindKeeperOf(state.balls[vb.value].possessionTeam);
      var n := |state.playerIds|;
      if kid.None? {
        return if n == 0 then Pass else Fail(AttributeError("id"));
      }
      var entries := DistancesOf(state.squaredDistances, kid.value);
      ghost var players := state.players;
      var k := 0;
      while k < n
        invariant 0 <= k <= n
        invariant kid.value in state.players
        invariant KeeperPasses(sqrt, kid.value, players, entries, dt, jitter, 0, n)
                  == KeeperPasses(sqrt, kid.value, state.players, entries, dt, jitter, k, n)
      {
        out := KeeperPassAt(sqrt, kid.value, entries, dt, jitter, k);
        if out.Fail? {
          return;
        }
        k := k + 1;
      }
      return Pass;
    }
  }
}
