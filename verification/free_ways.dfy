/**
  * The free ways of the restarts: while the volleyball is inbounded, players
  * crowding the inbounder or the ball are pushed away; while a dead
  * volleyball waits for its keeper, players crowding the keeper are. The
  * random jitter and deadlock signs are supplied by the caller.
  */
module FreeWays {
  import opened Wrappers
  import opened Numerics
  import opened Vectors
  import opened Entities
  import opened State

  /* ---------------- the move-away vector ---------------- */

  /**
    * `_calculate_move_away_vector` of player `p` away from the point `from`,
    * with `jx` and `jy` the jitter factors drawn for it: none when the two
    * coincide; otherwise the move for this frame, the unit normal from `from`
    * to the player, and the player's new velocity, which keeps only its part
    * across the normal.
    */
  function MoveAway(sqrt: real -> real, from: Vec, p: Player, dt: real, speed: real, jx: real, jy: real): Option<(Vec, Vec, Vec)>
  {
    var normal := Sub(p.position, from);
    var mag := Length(sqrt, normal);
    if mag == 0.0 then None
    else
      var n := DivBy(normal, mag);
      var d := Dot(p.velocity, n);
      var along := Vec(n.x * d, n.y * d);
      var move := Vec((n.x * speed - along.x) * jx, (n.y * speed - along.y) * jy);
      Some((Vec(move.x * dt, move.y * dt), n, Sub(p.velocity, along)))
  }

  /** `v - (v.n) n` has no part along a unit `n`. */
  lemma AcrossUnit(v: Vec, n: Vec, d: real)
    requires NormSq(n) == 1.0 && d == Dot(v, n)
    ensures Dot(Sub(v, Vec(n.x * d, n.y * d)), n) == 0.0
  {
    calc {
      Dot(Sub(v, Vec(n.x * d, n.y * d)), n);
      (v.x - n.x * d) * n.x + (v.y - n.y * d) * n.y;
      Dot(v, n) - d * NormSq(n);
    }
  }

  /**
    * Apart positions always give a move; its normal is a unit vector, and the
    * new velocity has no part along it while the removed part lies along it.
    */
  lemma MoveAwayAcross(sqrt: real -> real, from: Vec, p: Player, dt: real, speed: real, jx: real, jy: real)
    requires IsSqrt(sqrt)
    ensures MoveAway(sqrt, from, p, dt, speed, jx, jy).None? <==> NormSq(Sub(p.position, from)) == 0.0
    ensures var r := MoveAway(sqrt, from, p, dt, speed, jx, jy);
            r.Some? ==>
              && NormSq(r.value.1) == 1.0
              && Dot(r.value.2, r.value.1) == 0.0
              && Add(r.value.2, Scale(r.value.1, Dot(p.velocity, r.value.1))) == p.velocity
  {
    var normal := Sub(p.position, from);
    var mag := Length(sqrt, normal);
    LengthFacts(sqrt, normal);
    if mag != 0.0 {
      assert 0.0 < mag;
      SquareLess(0.0, mag);
      DivideByLength(normal, mag);
      var n := DivBy(normal, mag);
      var d := Dot(p.velocity, n);
      AcrossUnit(p.velocity, n, d);
      var across := Sub(p.velocity, Vec(n.x * d, n.y * d));
      assert MoveAway(sqrt, from, p, dt, speed, jx, jy).value.1 == n;
      assert MoveAway(sqrt, from, p, dt, speed, jx, jy).value.2 == across;
      assert Add(across, Scale(n, d)) == p.velocity;
    } else {
      assert NormSq(normal) == mag * mag;
    }
  }

  /** Coinciding positions give no move: a player is never pushed away from itself. */
  lemma NoMoveFromSelf(sqrt: real -> real, p: Player, dt: real, speed: real, jx: real, jy: real)
    requires IsSqrt(sqrt)
    ensures MoveAway(sqrt, p.position, p, dt, speed, jx, jy).None?
  {
    MoveAwayAcross(sqrt, p.position, p, dt, speed, jx, jy);
  }

  /* ---------------- the inbounding free way ---------------- */

  /** A player crowds the free zone when its squared distance is under (4 r)^2. */
  predicate Crowds(o: Player, dist: real)
  {
    dist < (4.0 * o.radius) * (4.0 * o.radius)
  }

  /**
    * The scans of `_inbounding_free_way` so far: the players, whose
    * velocities the move-away vectors have cut, and the moves and normals
    * collected, the moves' ids in the order first collected.
    */
  datatype Pushes = Pushes(players: map<Id, Player>, moves: map<Id, Vec>, normals: map<Id, Vec>, order: seq<Id>)

  /** The collected moves are listed once each and belong to players. */
  ghost predicate Collected(s: Pushes)
  {
    Indexes(s.order, s.moves.Keys) && s.moves.Keys <= s.players.Keys
  }

  /** Records the move of `id`, replacing an earlier one. */
  function Record(s: Pushes, id: Id, move: Vec): (r: Pushes)
    requires id in s.players
    ensures Collected(s) ==> Collected(r)
  {
    var r := s.(moves := s.moves[id := move], order := if id in s.moves then s.order else s.order + [id]);
    assert Collected(s) ==> Indexes(r.order, r.moves.Keys) by {
      if Collected(s) && id !in s.moves {
        assert forall i :: 0 <= i < |s.order| ==> r.order[i] == s.order[i];
      }
    }
    r
  }

  /**
    * The unpacking of a move-away vector that is None: the free ways unpack
    * the result before testing it, so coinciding positions raise.
    */
  const NoMove: Error := TypeError("cannot unpack non-iterable NoneType object")

  /** The outcome of a scan of the inbounding free way. */
  datatype Scanned = Scanned(pushes: Pushes, out: Outcome)

  /** The scan of the inbounder's nearest-first list: crowding players are pushed away from it, up to the first that does not crowd. */
  function AwayFromInbounder(sqrt: real -> real, from: Vec, s: Pushes, entries: seq<(Id, real)>, dt: real,
                             jitter: (nat, Id) -> (real, real)): (r: Scanned)
    ensures r.pushes.players.Keys == s.players.Keys
    ensures Collected(s) ==> Collected(r.pushes)
    decreases |entries|
  {
    if entries == [] then Scanned(s, Pass)
    else
      var oid := entries[0].0;
      if oid !in s.players then AwayFromInbounder(sqrt, from, s, entries[1..], dt, jitter)
      else
        var o := s.players[oid];
        if !Crowds(o, entries[0].1) then Scanned(s, Pass)
        else
          var m := MoveAway(sqrt, from, o, dt, o.maxSpeed, jitter(0, oid).0, jitter(0, oid).1);
          if m.None? then Scanned(s, Fail(NoMove))
          else
            var s1 := Record(s.(players := s.players[oid := o.(velocity := m.value.2)]), oid, m.value.0);
            AwayFromInbounder(sqrt, from, s1.(normals := s1.normals[oid := m.value.1]), entries[1..], dt, jitter)
  }

  /**
    * A second push for a player already pushed away from the inbounder:
    * when the two normals are nearly opposite, the earlier move is turned
    * aside by half a step along the earlier normal's perpendicular, with
    * the drawn `sign`; otherwise the earlier move stays. A missing earlier
    * normal raises.
    */
  function Deadlock(s: Pushes, oid: Id, n: Vec, speed: real, dt: real, sign: real): (r: Result<Pushes>)
    requires oid in s.players && oid in s.moves
    ensures r.Success? ==> r.value.players == s.players && r.value.moves.Keys == s.moves.Keys && r.value.order == s.order
  {
    if oid !in s.normals then Failure(KeyError(oid))
    else if Opposed(n, s.normals[oid]) then Success(Record(s, oid, TurnAside(s.moves[oid], s.normals[oid], speed, dt, sign)))
    else Success(s)
  }

  /** The deadlock test: the two normals are nearly parallel and point apart. */
  predicate Opposed(n: Vec, ne: Vec)
  {
    var cross := n.x * ne.y - n.y * ne.x;
    cross * cross < 0.15 && Dot(n, ne) < 0.0
  }

  /** The earlier move turned aside by half a step along the earlier normal's perpendicular, in the drawn direction. */
  function TurnAside(me: Vec, ne: Vec, speed: real, dt: real, sign: real): Vec
  {
    Vec(me.x + sign * ne.y * speed * dt * 0.5, me.y + sign * -ne.x * speed * dt * 0.5)
  }

  /** One entry of the volleyball scan: the pushes after it, the outcome, and whether the scan ends there. */
  datatype Step = Step(pushes: Pushes, out: Outcome, stop: bool)

  /**
    * One entry of the volleyball's list: a crowding player other than the
    * inbounder is pushed away from the ball; one already pushed away from the
    * inbounder keeps that move unless the two pushes deadlock. The first
    * player that does not crowd ends the scan.
    */
  function VolleyballStep(sqrt: real -> real, from: Vec, ibid: Id, s: Pushes, e: (Id, real), dt: real,
                          jitter: (nat, Id) -> (real, real), sign: Id -> real): (r: Step)
    ensures r.pushes.players.Keys == s.players.Keys
    ensures Collected(s) ==> Collected(r.pushes)
    ensures r.out.Fail? ==> r.stop
  {
    var oid := e.0;
    if oid !in s.players || oid == ibid then Step(s, Pass, false)
    else
      var o := s.players[oid];
      if !Crowds(o, e.1) then Step(s, Pass, true)
      else
        var m := MoveAway(sqrt, from, o, dt, o.maxSpeed, jitter(1, oid).0, jitter(1, oid).1);
        if m.None? then Step(s, Fail(NoMove), true)
        else
          var s1 := s.(players := s.players[oid := o.(velocity := m.value.2)]);
          if oid !in s1.moves then Step(Record(s1, oid, m.value.0), Pass, false)
          else
            var d := Deadlock(s1, oid, m.value.1, o.maxSpeed, dt, sign(oid));
            if d.Failure? then Step(s1, Fail(d.error), true) else Step(d.value, Pass, false)
  }

  /** The scan of the volleyball's nearest-first list, entry by entry. */
  function AwayFromVolleyball(sqrt: real -> real, from: Vec, ibid: Id, s: Pushes, entries: seq<(Id, real)>, dt: real,
                              jitter: (nat, Id) -> (real, real), sign: Id -> real): (r: Scanned)
    ensures r.pushes.players.Keys == s.players.Keys
    ensures Collected(s) ==> Collected(r.pushes)
    decreases |entries|
  {
    if entries == [] then Scanned(s, Pass)
    else
      var st := VolleyballStep(sqrt, from, ibid, s, entries[0], dt, jitter, sign);
      if st.stop then Scanned(st.pushes, st.out)
      else AwayFromVolleyball(sqrt, from, ibid, st.pushes, entries[1..], dt, jitter, sign)
  }

  /** Applies the collected moves, in the order collected. */
  function ApplyMoves(players: map<Id, Player>, moves: map<Id, Vec>, order: seq<Id>): (r: map<Id, Player>)
    requires forall id :: id in order ==> id in players && id in moves
    ensures r.Keys == players.Keys
    decreases |order|
  {
    if order == [] then players
    else
      var p := players[order[0]];
      ApplyMoves(players[order[0] := p.(position := Add(p.position, moves[order[0]]))], moves, order[1..])
  }

  /** Each player listed once is moved by exactly its collected move, and by nothing else; nothing but positions changes. */
  lemma {:induction false} ApplyMovesEffect(players: map<Id, Player>, moves: map<Id, Vec>, order: seq<Id>)
    requires forall id :: id in order ==> id in players && id in moves
    requires Distinct(order)
    ensures var r := ApplyMoves(players, moves, order);
            forall id :: id in players ==>
              && r[id] == players[id].(position := r[id].position)
              && r[id].position == if id in order then Add(players[id].position, moves[id]) else players[id].position
    decreases |order|
  {
    if order != [] {
      var p := players[order[0]];
      var next := players[order[0] := p.(position := Add(p.position, moves[order[0]]))];
      assert Distinct(order[1..]) && order[0] !in order[1..] by {
        forall i, j | 0 <= i < j < |order[1..]| ensures order[1..][i] != order[1..][j] {
          assert order[1..][i] == order[i + 1] && order[1..][j] == order[j + 1];
        }
        forall j | 0 <= j < |order[1..]| ensures order[1..][j] != order[0] {
          assert order[1..][j] == order[j + 1];
        }
      }
      ApplyMovesEffect(next, moves, order[1..]);
    }
  }

  /**
    * `_inbounding_free_way`: with a volleyball being inbounded by a player,
    * the crowding players are pushed away from the inbounder and then from
    * the ball, and the collected moves applied. `jitter(0, id)` and
    * `jitter(1, id)` are the factors drawn for player `id` in the two scans,
    * `sign(id)` its deadlock direction.
    */
  function ClearForInbounder(sqrt: real -> real, ballIds: seq<Id>, sd: map<Id, seq<(Id, real)>>, bd: Board, dt: real,
                             jitter: (nat, Id) -> (real, real), sign: Id -> real): (r: Moved)
    ensures SameKeys(bd, r.bd) && r.bd.balls == bd.balls
  {
    var vb := VolleyballIn(ballIds, bd.balls);
    if vb.None? || bd.balls[vb.value].kind.inbounder.None? then Moved(bd, Pass)
    else
      var ibid := bd.balls[vb.value].kind.inbounder.value;
      if ibid !in bd.players then Moved(bd, Pass)
      else
        var s0 := Pushes(bd.players, map[], map[], []);
        var s1 := AwayFromInbounder(sqrt, bd.players[ibid].position, s0, DistancesOf(sd, ibid), dt, jitter);
        if s1.out.Fail? then Moved(Board(s1.pushes.players, bd.balls), s1.out)
        else
        var s2 := AwayFromVolleyball(sqrt, bd.balls[vb.value].position, ibid, s1.pushes, DistancesOf(sd, vb.value), dt, jitter, sign);
        if s2.out.Fail? then Moved(Board(s2.pushes.players, bd.balls), s2.out)
        else Moved(Board(ApplyMoves(s2.pushes.players, s2.pushes.moves, s2.pushes.order), bd.balls), Pass)
  }

  /** The ids a distance list names. */
  ghost function Named(entries: seq<(Id, real)>): set<Id>
  {
    set e | e in entries :: e.0
  }

  /**
    * The inbounder scan leaves alone, and collects no move for, a player it
    * does not list, or one standing where the pushes start from.
    */
  lemma {:induction false} InbounderScanFrame(sqrt: real -> real, from: Vec, s: Pushes, entries: seq<(Id, real)>, dt: real,
                                              jitter: (nat, Id) -> (real, real), id: Id)
    requires id in s.players && id !in s.moves
    requires id !in Named(entries) || (IsSqrt(sqrt) && s.players[id].position == from)
    ensures var r := AwayFromInbounder(sqrt, from, s, entries, dt, jitter);
            r.pushes.players[id] == s.players[id] && id !in r.pushes.moves
    decreases |entries|
  {
    if entries != [] {
      assert Named(entries[1..]) <= Named(entries) by {
        forall x | x in Named(entries[1..]) ensures x in Named(entries) {
          var e :| e in entries[1..] && e.0 == x;
          assert e in entries;
        }
      }
      var oid := entries[0].0;
      if oid in s.players && Crowds(s.players[oid], entries[0].1) {
        var o := s.players[oid];
        if oid == id {
          assert entries[0] in entries;
          NoMoveFromSelf(sqrt, o, dt, o.maxSpeed, jitter(0, oid).0, jitter(0, oid).1);
        } else {
          var m := MoveAway(sqrt, from, o, dt, o.maxSpeed, jitter(0, oid).0, jitter(0, oid).1);
          if m.Some? {
            var s1 := Record(s.(players := s.players[oid := o.(velocity := m.value.2)]), oid, m.value.0);
            InbounderScanFrame(sqrt, from, s1.(normals := s1.normals[oid := m.value.1]), entries[1..], dt, jitter, id);
          }
        }
      } else if oid !in s.players {
        InbounderScanFrame(sqrt, from, s, entries[1..], dt, jitter, id);
      }
    }
  }

  /** The volleyball scan leaves alone, and collects no move for, the inbounder and any player it does not list. */
  lemma {:induction false} VolleyballScanFrame(sqrt: real -> real, from: Vec, ibid: Id, s: Pushes, entries: seq<(Id, real)>, dt: real,
                                               jitter: (nat, Id) -> (real, real), sign: Id -> real, id: Id)
    requires id in s.players && id !in s.moves
    requires id == ibid || id !in Named(entries)
    ensures var r := AwayFromVolleyball(sqrt, from, ibid, s, entries, dt, jitter, sign);
            r.pushes.players[id] == s.players[id] && id !in r.pushes.moves
    decreases |entries|
  {
    if entries != [] {
      assert Named(entries[1..]) <= Named(entries) by {
        forall x | x in Named(entries[1..]) ensures x in Named(entries) {
          var e :| e in entries[1..] && e.0 == x;
          assert e in entries;
        }
      }
      var st := VolleyballStep(sqrt, from, ibid, s, entries[0], dt, jitter, sign);
      assert entries[0] in entries;
      assert st.pushes.players[id] == s.players[id] && id !in st.pushes.moves;
      if !st.stop {
        VolleyballScanFrame(sqrt, from, ibid, st.pushes, entries[1..], dt, jitter, sign, id);
      }
    }
  }

  /**
    * The inbounding free way moves nobody but crowding players: the
    * inbounder keeps its place and velocity, and so does every player named
    * in neither the inbounder's nor the volleyball's distance list.
    */
  lemma FreeWayFrame(sqrt: real -> real, ballIds: seq<Id>, sd: map<Id, seq<(Id, real)>>, bd: Board, dt: real,
                     jitter: (nat, Id) -> (real, real), sign: Id -> real, id: Id)
    requires IsSqrt(sqrt) && id in bd.players
    requires var vb := VolleyballIn(ballIds, bd.balls);
             vb.Some? ==>
               var ib := bd.balls[vb.value].kind.inbounder;
               ib == Some(id) || id !in Named(DistancesOf(sd, vb.value)) + (if ib.Some? then Named(DistancesOf(sd, ib.value)) else {})
    ensures ClearForInbounder(sqrt, ballIds, sd, bd, dt, jitter, sign).bd.players[id] == bd.players[id]
  {
    var vb := VolleyballIn(ballIds, bd.balls);
    if vb.Some? && bd.balls[vb.value].kind.inbounder.Some? {
      var ibid := bd.balls[vb.value].kind.inbounder.value;
      if ibid in bd.players {
        var s0 := Pushes(bd.players, map[], map[], []);
        var s1 := AwayFromInbounder(sqrt, bd.players[ibid].position, s0, DistancesOf(sd, ibid), dt, jitter);
        InbounderScanFrame(sqrt, bd.players[ibid].position, s0, DistancesOf(sd, ibid), dt, jitter, id);
        if s1.out.Pass? {
          var s2 := AwayFromVolleyball(sqrt, bd.balls[vb.value].position, ibid, s1.pushes, DistancesOf(sd, vb.value), dt, jitter, sign);
          VolleyballScanFrame(sqrt, bd.balls[vb.value].position, ibid, s1.pushes, DistancesOf(sd, vb.value), dt, jitter, sign, id);
          if s2.out.Pass? {
            ApplyMovesEffect(s2.pushes.players, s2.pushes.moves, s2.pushes.order);
          }
        }
      }
    }
  }

  /* ---------------- the keeper free way ---------------- */

  /** A keeper of the team in possession. */
  predicate KeeperFor(p: Player, team: Option<int>)
  {
    p.role == Keeper && team == Some(p.team)
  }

  /** The first keeper of the team in possession, in table order. */
  function KeeperOf(players: map<Id, Player>, ids: seq<Id>, team: Option<int>): (r: Option<Id>)
    ensures r.Some? ==> r.value in ids && r.value in players && KeeperFor(players[r.value], team)
    ensures r.None? ==> forall id :: id in ids && id in players ==> !KeeperFor(players[id], team)
    decreases |ids|
  {
    if ids == [] then None
    else if ids[0] in players && KeeperFor(players[ids[0]], team) then Some(ids[0])
    else KeeperOf(players, ids[1..], team)
  }

  /**
    * Pass `k` of the keeper free way: every crowding player in the keeper's
    * list is pushed away from the keeper at once, its velocity cut to the
    * part across the push. Its factors are `jitter(2 + k, id)`, so they are
    * drawn apart from those of the two inbounding scans.
    */
  function KeeperPass(sqrt: real -> real, kid: Id, players: map<Id, Player>, entries: seq<(Id, real)>, dt: real,
                      jitter: (nat, Id) -> (real, real), k: nat): (r: Shifted)
    requires kid in players
    ensures r.players.Keys == players.Keys
    ensures r.out.Fail? ==> r.out.error == NoMove
    decreases |entries|
  {
    if entries == [] then Shifted(players, Pass)
    else
      var oid := entries[0].0;
      if oid !in players || !Crowds(players[oid], entries[0].1) then KeeperPass(sqrt, kid, players, entries[1..], dt, jitter, k)
      else
        var o := players[oid];
        var m := MoveAway(sqrt, players[kid].position, o, dt, o.maxSpeed, jitter(2 + k, oid).0, jitter(2 + k, oid).1);
        if m.None? then Shifted(players, Fail(NoMove))
        else KeeperPass(sqrt, kid, players[oid := o.(velocity := m.value.2, position := Add(o.position, m.value.0))], entries[1..], dt, jitter, k)
  }

  /** Passes `k` up to `n` of the keeper free way. */
  function KeeperPasses(sqrt: real -> real, kid: Id, players: map<Id, Player>, entries: seq<(Id, real)>, dt: real,
                        jitter: (nat, Id) -> (real, real), k: nat, n: nat): (r: Shifted)
    requires kid in players
    ensures r.players.Keys == players.Keys
    ensures r.out.Fail? ==> r.out.error == NoMove
    decreases n - k
  {
    if n <= k then Shifted(players, Pass)
    else
      var p := KeeperPass(sqrt, kid, players, entries, dt, jitter, k);
      if p.out.Fail? then p else KeeperPasses(sqrt, kid, p.players, entries, dt, jitter, k + 1, n)
  }

  /**
    * `_making_alive_keeper_free_way`: while the volleyball is dead, one pass
    * per player pushes the players crowding the keeper of the team in
    * possession away from it. Without such a keeper the first pass raises,
    * unless there are no players.
    */
  function ClearForKeeper(sqrt: real -> real, playerIds: seq<Id>, ballIds: seq<Id>, sd: map<Id, seq<(Id, real)>>, bd: Board, dt: real,
                         jitter: (nat, Id) -> (real, real)): (r: Moved)
    ensures SameKeys(bd, r.bd) && r.bd.balls == bd.balls
  {
    var vb := VolleyballIn(ballIds, bd.balls);
    if vb.None? || !bd.balls[vb.value].kind.isDead then Moved(bd, Pass)
    else
      var kid := KeeperOf(bd.players, playerIds, bd.balls[vb.value].possessionTeam);
      if kid.None? then Moved(bd, if playerIds == [] then Pass else Fail(AttributeError("id")))
      else
        var r := KeeperPasses(sqrt, kid.value, bd.players, DistancesOf(sd, kid.value), dt, jitter, 0, |playerIds|);
        Moved(Board(r.players, bd.balls), r.out)
  }

  /**
    * The keeper free way raises, before any push, exactly when the volleyball
    * is dead, there are players, and none is a keeper of the team in
    * possession.
    */
  lemma KeeperMissing(sqrt: real -> real, playerIds: seq<Id>, ballIds: seq<Id>, sd: map<Id, seq<(Id, real)>>, bd: Board, dt: real,
                      jitter: (nat, Id) -> (real, real))
    ensures var vb := VolleyballIn(ballIds, bd.balls);
            ClearForKeeper(sqrt, playerIds, ballIds, sd, bd, dt, jitter).out == Fail(AttributeError("id"))
            <==> && vb.Some? && bd.balls[vb.value].kind.isDead && playerIds != []
                 && forall id :: id in playerIds && id in bd.players ==> !KeeperFor(bd.players[id], bd.balls[vb.value].possessionTeam)
  {
    var vb := VolleyballIn(ballIds, bd.balls);
    if vb.Some? && bd.balls[vb.value].kind.isDead {
      var kid := KeeperOf(bd.players, playerIds, bd.balls[vb.value].possessionTeam);
      if kid.Some? {
        var r := KeeperPasses(sqrt, kid.value, bd.players, DistancesOf(sd, kid.value), dt, jitter, 0, |playerIds|);
        assert r.out != Fail(AttributeError("id"));
      }
    }
  }

  /** One pass leaves the keeper, and every player its list does not name, as they were. */
  lemma {:induction false} KeeperPassFrame(sqrt: real -> real, kid: Id, players: map<Id, Player>, entries: seq<(Id, real)>, dt: real,
                                           jitter: (nat, Id) -> (real, real), k: nat, id: Id)
    requires IsSqrt(sqrt) && kid in players && id in players
    requires id == kid || id !in Named(entries)
    ensures var r := KeeperPass(sqrt, kid, players, entries, dt, jitter, k);
            r.players[id] == players[id] && r.players[kid] == players[kid]
    decreases |entries|
  {
    if entries != [] {
      assert Named(entries[1..]) <= Named(entries) by {
        forall x | x in Named(entries[1..]) ensures x in Named(entries) {
          var e :| e in entries[1..] && e.0 == x;
          assert e in entries;
        }
      }
      var oid := entries[0].0;
      if oid !in players || !Crowds(players[oid], entries[0].1) {
        KeeperPassFrame(sqrt, kid, players, entries[1..], dt, jitter, k, id);
      } else {
        var o := players[oid];
        assert entries[0] in entries;
        if oid == kid {
          NoMoveFromSelf(sqrt, o, dt, o.maxSpeed, jitter(2 + k, oid).0, jitter(2 + k, oid).1);
        }
        var m := MoveAway(sqrt, players[kid].position, o, dt, o.maxSpeed, jitter(2 + k, oid).0, jitter(2 + k, oid).1);
        if m.Some? {
          var next := players[oid := o.(velocity := m.value.2, position := Add(o.position, m.value.0))];
          KeeperPassFrame(sqrt, kid, next, entries[1..], dt, jitter, k, id);
        }
      }
    }
  }

  /** The keeper free way moves nobody but crowding players: the keeper and every player its list does not name keep their records. */
  lemma {:induction false} KeeperPassesFrame(sqrt: real -> real, kid: Id, players: map<Id, Player>, entries: seq<(Id, real)>, dt: real,
                                             jitter: (nat, Id) -> (real, real), k: nat, n: nat, id: Id)
    requires IsSqrt(sqrt) && kid in players && id in players
    requires id == kid || id !in Named(entries)
    ensures KeeperPasses(sqrt, kid, players, entries, dt, jitter, k, n).players[id] == players[id]
    decreases n - k
  {
    if k < n {
      KeeperPassFrame(sqrt, kid, players, entries, dt, jitter, k, id);
      var p := KeeperPass(sqrt, kid, players, entries, dt, jitter, k);
      if p.out.Pass? {
        KeeperPassesFrame(sqrt, kid, p.players, entries, dt, jitter, k + 1, n, id);
      }
    }
  }
}
