/**
  * Penalties: the delay-of-game timer and warnings, turnover designation,
  * and the third-dodgeball interference.
  */
module Penalty {
  import opened Wrappers
  import opened Entities
  import opened State
  import opened Utility

  /* ---------------- turnover designation ---------------- */

  /**
    * The part of the turnover rule read before the receiving flag: an
    * opponent of the possessing team holding nothing, a chaser or keeper for
    * the volleyball and a beater for a dodgeball. Knock-outs are not looked at.
    */
  predicate RoleFits(b: Ball, p: Player)
  {
    && b.possessionTeam != Some(p.team)
    && !Loaded(p.hasBall)
    && (if IsVolleyball(b) then p.role == Chaser || p.role == Keeper else p.role == Beater)
  }

  /** Candidate `pid` receives ball `bid`; a dodgeball also needs the candidate not to be receiving one already. */
  predicate Eligible(bd: Board, bid: Id, pid: Id)
    requires bid in bd.balls
  {
    && pid in bd.players
    && RoleFits(bd.balls[bid], bd.players[pid])
    && (IsDodgeball(bd.balls[bid]) ==> bd.players[pid].receivingTurnover == Some(false))
  }

  /** The receiving flag is read from a beater on which it was never set: an AttributeError. */
  predicate Raises(bd: Board, bid: Id, pid: Id)
    requires bid in bd.balls
  {
    && pid in bd.players
    && RoleFits(bd.balls[bid], bd.players[pid])
    && IsDodgeball(bd.balls[bid])
    && bd.players[pid].receivingTurnover.None?
  }

  const ReceivingFlag: string := "is_receiving_turnover_ball"

  /** Handing ball `bid` to `pid`: the target is set, a dodgeball's receiver is flagged, and a holder is stripped. */
  function Assign(bd: Board, bid: Id, pid: Id): (r: Moved)
    requires bid in bd.balls && pid in bd.players
    ensures SameKeys(bd, r.bd)
  {
    var b := bd.balls[bid].(turnoverTo := Some(pid));
    var players := if IsDodgeball(b) then bd.players[pid := bd.players[pid].(receivingTurnover := Some(true))] else bd.players;
    if b.holderId.None? then Moved(Board(players, bd.balls[bid := b]), Pass)
    else if b.holderId.value !in players then Moved(Board(players, bd.balls[bid := b]), Fail(AttributeError("has_ball")))
    else
      var hid := b.holderId.value;
      Moved(Board(players[hid := players[hid].(hasBall := NoBall)], bd.balls[bid := b.(holderId := None)]), Pass)
  }

  /** The scan over the ball's nearest-first list; it stops at the first eligible candidate. */
  function TurnoverScan(bd: Board, bid: Id, items: seq<(Id, real)>): (r: Moved)
    requires bid in bd.balls
    ensures SameKeys(bd, r.bd)
  {
    if items == [] then Moved(bd, Pass)
    else if Raises(bd, bid, items[0].0) then Moved(bd, Fail(AttributeError(ReceivingFlag)))
    else if Eligible(bd, bid, items[0].0) then Assign(bd, bid, items[0].0)
    else TurnoverScan(bd, bid, items[1..])
  }

  /** The nearest-first list of an entity, or none. */
  function Nearest(sd: map<Id, seq<(Id, real)>>, id: Id): seq<(Id, real)>
  {
    if id in sd then sd[id] else []
  }

  /** `_designate_turnover` of ball `bid`, with `sd` the nearest-first lists. */
  function Turnover(bd: Board, sd: map<Id, seq<(Id, real)>>, bid: Id): (r: Moved)
    requires bid in bd.balls
    ensures SameKeys(bd, r.bd)
  {
    TurnoverScan(bd, bid, Nearest(sd, bid))
  }

  /** A hand-over sets the target and flags a dodgeball's receiver. */
  lemma AssignTarget(bd: Board, bid: Id, pid: Id)
    requires bid in bd.balls && pid in bd.players
    ensures Assign(bd, bid, pid).bd.balls[bid].turnoverTo == Some(pid)
    ensures IsDodgeball(bd.balls[bid]) ==> Assign(bd, bid, pid).bd.players[pid].receivingTurnover == Some(true)
  {
  }

  /**
    * A hand-over takes the ball from its holder, who no longer has a ball; a
    * holder id naming no player is the AttributeError of `None.has_ball`.
    */
  lemma AssignHolder(bd: Board, bid: Id, pid: Id)
    requires bid in bd.balls && pid in bd.players
    ensures Assign(bd, bid, pid).out.Fail? <==> bd.balls[bid].holderId.Some? && bd.balls[bid].holderId.value !in bd.players
    ensures Assign(bd, bid, pid).out.Pass? ==> Assign(bd, bid, pid).bd.balls[bid].holderId.None?
    ensures bd.balls[bid].holderId.Some? && bd.balls[bid].holderId.value in bd.players ==>
              Assign(bd, bid, pid).bd.players[bd.balls[bid].holderId.value].hasBall == NoBall
  {
  }

  /** A hand-over changes no knock-out flag, no ball's kind and no ball other than `bid`. */
  lemma AssignKeeps(bd: Board, bid: Id, pid: Id)
    requires bid in bd.balls && pid in bd.players
    ensures forall id :: id in bd.players ==> Assign(bd, bid, pid).bd.players[id].isKnockedOut == bd.players[id].isKnockedOut
    ensures Assign(bd, bid, pid).bd.balls[bid].kind == bd.balls[bid].kind
    ensures Assign(bd, bid, pid).bd.balls == bd.balls[bid := Assign(bd, bid, pid).bd.balls[bid]]
  {
  }

  /**
    * The first eligible candidate in the list gets the ball, provided no
    * candidate before it raises; whether it is knocked out is not checked.
    */
  lemma {:induction false} TurnoverPicksFirst(bd: Board, bid: Id, items: seq<(Id, real)>, k: nat)
    requires bid in bd.balls
    requires k < |items| && Eligible(bd, bid, items[k].0)
    requires forall j :: 0 <= j < k ==> !Eligible(bd, bid, items[j].0) && !Raises(bd, bid, items[j].0)
    ensures TurnoverScan(bd, bid, items) == Assign(bd, bid, items[k].0)
  {
    if k > 0 {
      assert !Eligible(bd, bid, items[0].0) && !Raises(bd, bid, items[0].0);
      TurnoverPicksFirst(bd, bid, items[1..], k - 1);
    } else {
      assert !Raises(bd, bid, items[0].0);
    }
  }

  /** With no eligible candidate, and none that raises, nothing changes. */
  lemma {:induction false} TurnoverWithoutCandidate(bd: Board, bid: Id, items: seq<(Id, real)>)
    requires bid in bd.balls
    requires forall j :: 0 <= j < |items| ==> !Eligible(bd, bid, items[j].0) && !Raises(bd, bid, items[j].0)
    ensures TurnoverScan(bd, bid, items) == Moved(bd, Pass)
  {
    if items != [] {
      assert !Eligible(bd, bid, items[0].0) && !Raises(bd, bid, items[0].0);
      TurnoverWithoutCandidate(bd, bid, items[1..]);
    }
  }

  /** A turnover changes no knock-out flag, no ball's kind, and no ball but the one handed over. */
  lemma {:induction false} TurnoverKeeps(bd: Board, bid: Id, items: seq<(Id, real)>)
    requires bid in bd.balls
    ensures forall id :: id in bd.players ==> TurnoverScan(bd, bid, items).bd.players[id].isKnockedOut == bd.players[id].isKnockedOut
    ensures TurnoverScan(bd, bid, items).bd.balls[bid].kind == bd.balls[bid].kind
    ensures TurnoverScan(bd, bid, items).bd.balls == bd.balls[bid := TurnoverScan(bd, bid, items).bd.balls[bid]]
  {
    if items != [] && !Raises(bd, bid, items[0].0) {
      if Eligible(bd, bid, items[0].0) {
        AssignKeeps(bd, bid, items[0].0);
      } else {
        TurnoverKeeps(bd, bid, items[1..]);
      }
    }
  }

  /* ---------------- delay of game ---------------- */

  /**
    * The scan of `_check_delay_velocity` over the volleyball's nearest-first
    * list: true (delay 0) at an opposing chaser or keeper closer than 2 or an
    * opposing beater with `has_ball` not None closer than 4; an opposing beater
    * of that kind farther away ends the scan.
    */
  function OpponentBlocks(players: map<Id, Player>, team: int, items: seq<(Id, real)>): bool
  {
    if items == [] then false
    else
      var oid := items[0].0;
      var d := items[0].1;
      if oid in players && players[oid].team != team then
        var p := players[oid];
        if p.role == Chaser || p.role == Keeper then d < 2.0 || OpponentBlocks(players, team, items[1..])
        else if p.role == Beater && !p.hasBall.Dropped? then d < 4.0
        else OpponentBlocks(players, team, items[1..])
      else OpponentBlocks(players, team, items[1..])
  }

  /** A close opponent in the sense above. */
  predicate CloseOpponent(players: map<Id, Player>, team: int, item: (Id, real))
  {
    && item.0 in players && players[item.0].team != team
    && ((players[item.0].role in {Chaser, Keeper} && item.1 < 2.0)
        || (players[item.0].role == Beater && !players[item.0].hasBall.Dropped? && item.1 < 4.0))
  }

  /**
    * On a list sorted nearest-first the early end of the scan loses nothing:
    * any close opponent anywhere in the list makes the delay 0.
    */
  lemma {:induction false} CloseOpponentBlocks(players: map<Id, Player>, team: int, items: seq<(Id, real)>, k: nat)
    requires Ascending(items)
    requires k < |items| && CloseOpponent(players, team, items[k])
    ensures OpponentBlocks(players, team, items)
  {
    if k > 0 {
      assert items[0].1 <= items[k].1;
      assert Ascending(items[1..]);
      assert items[1..][k - 1] == items[k];
      var oid := items[0].0;
      if oid in players && players[oid].team != team && !(players[oid].role in {Chaser, Keeper})
         && players[oid].role == Beater && !players[oid].hasBall.Dropped? {
        assert items[0].1 < 4.0;
      } else {
        CloseOpponentBlocks(players, team, items[1..], k - 1);
      }
    }
  }

  /** Without any close opponent the scan never blocks. */
  lemma {:induction false} NoCloseOpponent(players: map<Id, Player>, team: int, items: seq<(Id, real)>)
    requires forall k :: 0 <= k < |items| ==> !CloseOpponent(players, team, items[k])
    ensures !OpponentBlocks(players, team, items)
  {
    if items != [] {
      assert !CloseOpponent(players, team, items[0]);
      NoCloseOpponent(players, team, items[1..]);
    }
  }

  /** The volleyball is in its possessing team's own half and not moving forward fast enough. */
  predicate SlowInOwnHalf(cfg: Config, b: Ball)
    requires b.possessionTeam.Some?
  {
    var t := b.possessionTeam.value;
    || (t == 0 && b.position.x < cfg.midlineX && !(b.velocity.x > cfg.delayThreshold))
    || (t == 1 && b.position.x > cfg.midlineX && !(b.velocity.x < -cfg.delayThreshold))
  }

  /** A volleyball that is live, not being inbounded or turned over, and possessed. */
  predicate InPlay(b: Ball)
  {
    b.kind.Volleyball? && !b.kind.isDead && b.kind.inbounder.None? && b.turnoverTo.None? && b.possessionTeam.Some?
  }

  /**
    * `_check_delay_velocity` on the volleyball stored under `vb`: how far
    * below the forward-speed threshold it is, or 0. Reading the nearest-first
    * list of a volleyball that has none is a KeyError.
    */
  function DelayVelocity(w: World, vb: Option<Id>): (r: Result<real>)
    requires vb.Some? ==> vb.value in w.balls
    ensures r.Success? && r.value != 0.0 ==>
              vb.Some? && InPlay(w.balls[vb.value]) && SlowInOwnHalf(w.cfg, w.balls[vb.value])
    ensures r.Failure? ==> vb.Some? && r.error == KeyError(vb.value) && vb.value !in w.squaredDistances
  {
    if vb.None? then Success(0.0)
    else
      var vid := vb.value;
      var b := w.balls[vid];
      if !InPlay(b) then Success(0.0)
      else if !SlowInOwnHalf(w.cfg, b) then Success(0.0)
      else if vid !in w.squaredDistances then Failure(KeyError(vid))
      else if OpponentBlocks(w.players, b.possessionTeam.value, w.squaredDistances[vid]) then Success(0.0)
      else if b.possessionTeam.value == 0 then Success(w.cfg.delayThreshold - b.velocity.x)
      else Success(w.cfg.delayThreshold + b.velocity.x)
  }

  /**
    * For a slow volleyball in its own half with a sorted list, the delay
    * velocity is the shortfall below the threshold in the possessing team's
    * forward direction exactly when no close opponent is in the list, and 0
    * when one is.
    */
  lemma DelayVelocityValue(w: World, vid: Id)
    requires vid in w.balls && InPlay(w.balls[vid]) && SlowInOwnHalf(w.cfg, w.balls[vid])
    requires vid in w.squaredDistances && Ascending(w.squaredDistances[vid])
    ensures var b := w.balls[vid];
            var items := w.squaredDistances[vid];
            var t := b.possessionTeam.value;
            && ((exists k :: 0 <= k < |items| && CloseOpponent(w.players, t, items[k])) ==> DelayVelocity(w, Some(vid)) == Success(0.0))
            && ((forall k :: 0 <= k < |items| ==> !CloseOpponent(w.players, t, items[k])) ==>
                  DelayVelocity(w, Some(vid)) == Success(if t == 0 then w.cfg.delayThreshold - b.velocity.x
                                                         else w.cfg.delayThreshold + b.velocity.x))
  {
    var items := w.squaredDistances[vid];
    var t := w.balls[vid].possessionTeam.value;
    if exists k :: 0 <= k < |items| && CloseOpponent(w.players, t, items[k]) {
      var k :| 0 <= k < |items| && CloseOpponent(w.players, t, items[k]);
      CloseOpponentBlocks(w.players, t, items, k);
    } else {
      NoCloseOpponent(w.players, t, items);
    }
  }

  /** A positive delay velocity means the volleyball is strictly below the threshold in its forward direction. */
  lemma DelayVelocityPositive(w: World, vb: Option<Id>)
    requires vb.Some? ==> vb.value in w.balls
    requires DelayVelocity(w, vb).Success? && DelayVelocity(w, vb).value > 0.0
    ensures var b := w.balls[vb.value];
            if b.possessionTeam.value == 0 then b.velocity.x < w.cfg.delayThreshold
            else b.velocity.x > -w.cfg.delayThreshold
  {
  }

  /** The volleyball's delay timer set to `t`; other balls are left alone. */
  function WithTimer(b: Ball, t: real): Ball
  {
    if b.kind.Volleyball? then b.(kind := b.kind.(delayTimer := t)) else b
  }

  /** The holder of the volleyball is a keeper with dodgeball immunity: its timer is not reset. */
  predicate ProtectedKeeper(players: map<Id, Player>, b: Ball)
  {
    b.holderId.Some? && b.holderId.value in players
    && players[b.holderId.value].role == Keeper && players[b.holderId.value].dodgeballImmunity
  }

  /** The team's warning count after one more warning; a team never warned counts from 0. */
  function NextWarning(warnings: map<int, int>, team: int): int
  {
    (if team in warnings then warnings[team] else 0) + 1
  }

  /** What the delay-of-game check leaves: the tables, the warning counts, and whether it raised. */
  datatype Delayed = Delayed(bd: Board, warnings: map<int, int>, out: Outcome)

  /**
    * The timer of `vid` reached the limit: one more warning for `team`, a
    * turnover once past the allowed number, then the timer back to 0. The
    * configuration, nearest-first lists and counts are read from `w`.
    */
  function Warn(w: World, bd: Board, vid: Id, team: int): (r: Delayed)
    requires vid in bd.balls
    ensures SameKeys(bd, r.bd)
  {
    var count := NextWarning(w.delayWarnings, team);
    var warnings := w.delayWarnings[team := count];
    var m := if count <= w.cfg.maxDelayWarnings then Moved(bd, Pass) else Turnover(bd, w.squaredDistances, vid);
    if m.out.Fail? then Delayed(m.bd, warnings, m.out)
    else Delayed(Board(m.bd.players, m.bd.balls[vid := WithTimer(m.bd.balls[vid], 0.0)]), warnings, Pass)
  }

  /** The timer of the in-play volleyball `vid` runs on by `dt * delay`; at the limit the team is warned. */
  function RunTimer(w: World, vid: Id, dt: real, delay: real): (r: Delayed)
    requires vid in w.balls && InPlay(w.balls[vid])
    ensures SameKeys(BoardOf(w), r.bd)
  {
    var b := w.balls[vid];
    var timer := b.kind.delayTimer + dt * delay;
    var bd := Board(w.players, w.balls[vid := WithTimer(b, timer)]);
    if timer >= w.cfg.delayLimit then Warn(w, bd, vid, b.possessionTeam.value) else Delayed(bd, w.delayWarnings, Pass)
  }

  /** `_check_delay_of_game`. */
  function DelayOfGame(w: World, dt: real): (r: Delayed)
    ensures SameKeys(BoardOf(w), r.bd)
  {
    var vb := VolleyballIn(w.ballIds, w.balls);
    var delay := DelayVelocity(w, vb);
    if delay.Failure? then Delayed(BoardOf(w), w.delayWarnings, Fail(delay.error))
    else if delay.value > 0.0 then RunTimer(w, vb.value, dt, delay.value)
    else if vb.None? || ProtectedKeeper(w.players, w.balls[vb.value]) then Delayed(BoardOf(w), w.delayWarnings, Pass)
      else Delayed(Board(w.players, w.balls[vb.value := WithTimer(w.balls[vb.value], 0.0)]), w.delayWarnings, Pass)
  }

  /**
    * Every warning raises the team's count by one. Up to the allowed number it
    * only restarts the timer; past it the turnover of the volleyball comes
    * first and, unless it raises, the timer restarts.
    */
  lemma WarnEffect(w: World, bd: Board, vid: Id, team: int)
    requires vid in bd.balls && bd.balls[vid].kind.Volleyball?
    ensures var count := NextWarning(w.delayWarnings, team);
            var r := Warn(w, bd, vid, team);
            && r.warnings == w.delayWarnings[team := count]
            && (count <= w.cfg.maxDelayWarnings ==>
                  r.bd == Board(bd.players, bd.balls[vid := WithTimer(bd.balls[vid], 0.0)]) && r.out == Pass)
            && (count > w.cfg.maxDelayWarnings ==> r.out == Turnover(bd, w.squaredDistances, vid).out)
            && (r.out.Pass? ==> r.bd.balls[vid].kind.Volleyball? && r.bd.balls[vid].kind.delayTimer == 0.0)
  {
    TurnoverKeeps(bd, vid, Nearest(w.squaredDistances, vid));
  }

  /** A positive delay below the limit only adds `dt * delay` to the volleyball's timer. */
  lemma DelayTimerRuns(w: World, dt: real)
    requires VolleyballIn(w.ballIds, w.balls).Some?
    requires DelayVelocity(w, VolleyballIn(w.ballIds, w.balls)).Success?
    requires DelayVelocity(w, VolleyballIn(w.ballIds, w.balls)).value > 0.0
    ensures var vid := VolleyballIn(w.ballIds, w.balls).value;
            var timer := w.balls[vid].kind.delayTimer + dt * DelayVelocity(w, VolleyballIn(w.ballIds, w.balls)).value;
            timer < w.cfg.delayLimit ==>
              DelayOfGame(w, dt) == Delayed(Board(w.players, w.balls[vid := WithTimer(w.balls[vid], timer)]), w.delayWarnings, Pass)
  {
  }

  /** At the limit the possessing team is warned (see `WarnEffect`), with the timer already advanced. */
  lemma DelayTimerWarns(w: World, dt: real)
    requires VolleyballIn(w.ballIds, w.balls).Some?
    requires DelayVelocity(w, VolleyballIn(w.ballIds, w.balls)).Success?
    requires DelayVelocity(w, VolleyballIn(w.ballIds, w.balls)).value > 0.0
    ensures var vid := VolleyballIn(w.ballIds, w.balls).value;
            var b := w.balls[vid];
            var timer := b.kind.delayTimer + dt * DelayVelocity(w, VolleyballIn(w.ballIds, w.balls)).value;
            timer >= w.cfg.delayLimit ==>
              DelayOfGame(w, dt) == Warn(w, Board(w.players, w.balls[vid := WithTimer(b, timer)]), vid, b.possessionTeam.value)
  {
    var r := DelayVelocity(w, VolleyballIn(w.ballIds, w.balls));
    assert DelayOfGame(w, dt) == RunTimer(w, VolleyballIn(w.ballIds, w.balls).value, dt, r.value);
  }

  /** With no delay the timer restarts, unless an immune keeper holds the volleyball; nothing else changes. */
  lemma DelayTimerResets(w: World, dt: real)
    requires VolleyballIn(w.ballIds, w.balls).Some?
    requires DelayVelocity(w, VolleyballIn(w.ballIds, w.balls)) == Success(0.0)
    ensures var vid := VolleyballIn(w.ballIds, w.balls).value;
            var r := DelayOfGame(w, dt);
            && r.out == Pass && r.warnings == w.delayWarnings && r.bd.players == w.players
            && r.bd.balls == w.balls[vid := r.bd.balls[vid]]
            && (ProtectedKeeper(w.players, w.balls[vid]) ==> r.bd.balls[vid] == w.balls[vid])
            && (!ProtectedKeeper(w.players, w.balls[vid]) ==> r.bd.balls[vid].kind.delayTimer == 0.0)
  {
  }

  /* ---------------- third-dodgeball interference ---------------- */

  /** The turnover priority of a candidate second dodgeball against the offender's team. */
  function Priority(b: Ball, team: int): real
  {
    (if b.possessionTeam.None? then 1.0 else if b.possessionTeam.value != team then 2.0 else 0.0)
    + (if b.holderId.None? then 0.5 else 0.0)
  }

  /** The priority table of the other dodgeballs, in table order. */
  function Priorities(balls: map<Id, Ball>, ids: seq<Id>, except: Id, team: int): (r: seq<(Id, real)>)
    requires forall id :: id in ids ==> id in balls
    ensures forall i :: 0 <= i < |r| ==> r[i].0 in ids && r[i].0 != except && r[i].1 == Priority(balls[r[i].0], team)
    ensures Distinct(ids) ==> |r| == |ids| - (if except in ids then 1 else 0)
  {
    if ids == [] then []
    else
      var rest := Priorities(balls, ids[1..], except, team);
      assert Distinct(ids) ==> Distinct(ids[1..]) && ids[0] !in ids[1..];
      assert forall id :: id in ids <==> id == ids[0] || id in ids[1..];
      if ids[0] == except then rest else [(ids[0], Priority(balls[ids[0]], team))] + rest
  }

  const MissingSecond: Error := ValueError("Missing second dodgeball in third dodgeball interference.")

  /** The higher of the first two priorities wins; a tie goes to the injected choice (`randint(0, 1)`). */
  function PickSecond(prios: seq<(Id, real)>, tieBreak: nat): (r: Result<Id>)
    requires tieBreak <= 1
    ensures |prios| < 2 <==> r == Failure(MissingSecond)
    ensures r.Success? ==> (r.value == prios[0].0 || r.value == prios[1].0)
    ensures r.Success? && prios[0].1 != prios[1].1 ==>
              r.value == (if prios[0].1 > prios[1].1 then prios[0].0 else prios[1].0)
    ensures r.Success? && prios[0].1 == prios[1].1 ==> r.value == prios[tieBreak].0
  {
    if |prios| < 2 then Failure(MissingSecond)
    else if prios[0].1 > prios[1].1 then Success(prios[0].0)
    else if prios[0].1 < prios[1].1 then Success(prios[1].0)
    else Success(prios[tieBreak].0)
  }

  function ResetBeat(b: Ball): Ball
  {
    if b.kind.Dodgeball? then b.(kind := b.kind.(beatAttemptTime := 0.0)) else b
  }

  /** Every listed dodgeball's beat-attempt time back to 0; the table keeps its keys. */
  function ResetBeatTimes(balls: map<Id, Ball>, ids: seq<Id>): (r: map<Id, Ball>)
    ensures r.Keys == balls.Keys
  {
    map id | id in balls :: if id in ids then ResetBeat(balls[id]) else balls[id]
  }

  /** Hands the volleyball over after setting its possession to the offender's team. */
  function TurnVolleyball(ballIds: seq<Id>, sd: map<Id, seq<(Id, real)>>, bd: Board, team: int): (r: Moved)
    ensures SameKeys(bd, r.bd)
  {
    var vb := VolleyballIn(ballIds, bd.balls);
    if vb.None? then Moved(bd, Pass)
    else
      var vid := vb.value;
      Turnover(Board(bd.players, bd.balls[vid := bd.balls[vid].(possessionTeam := Some(team))]), sd, vid)
  }

  /** Both dodgeballs are set to the offender's team and handed over, the offender's first. */
  function TurnDodgeballs(sd: map<Id, seq<(Id, real)>>, bd: Board, dbid: Id, sid: Id, team: int): (r: Moved)
    requires dbid in bd.balls && sid in bd.balls
    ensures SameKeys(bd, r.bd)
  {
    var balls1 := bd.balls[dbid := bd.balls[dbid].(possessionTeam := Some(team))];
    var balls2 := balls1[sid := balls1[sid].(possessionTeam := Some(team))];
    var m := Turnover(Board(bd.players, balls2), sd, dbid);
    if m.out.Fail? then m else Turnover(m.bd, sd, sid)
  }

  /**
    * The penalty once the second dodgeball `sid` is chosen: volleyball and
    * both dodgeballs turned over, then the third-dodgeball state and every
    * beat timer reset.
    */
  function Penalise(ballIds: seq<Id>, sd: map<Id, seq<(Id, real)>>, s: Ruling, dbid: Id, sid: Id, team: int): (r: Ruling)
    requires dbid in s.bd.balls && sid in s.bd.balls
    ensures SameKeys(s.bd, r.bd)
  {
    var m1 := TurnVolleyball(ballIds, sd, s.bd, team);
    if m1.out.Fail? then s.(bd := m1.bd, out := m1.out)
    else
      var m2 := TurnDodgeballs(sd, m1.bd, dbid, sid, team);
      if m2.out.Fail? then s.(bd := m2.bd, out := m2.out)
      else
        var balls := ResetBeatTimes(m2.bd.balls, DodgeballsIn(ballIds, m2.bd.balls));
        Ruling(Board(m2.bd.players, balls), None, None, None, Pass)
  }

  /**
    * `_third_dodgeball_interference` by the player `pid` on the dodgeball
    * `dbid`, from the tables and third-dodgeball state `s`: while a beat
    * attempt is running only the pending interference is recorded; otherwise
    * the offender is knocked out and, given a second dodgeball, the penalty is
    * carried out.
    */
  function InterferenceStep(ballIds: seq<Id>, sd: map<Id, seq<(Id, real)>>, s: Ruling, pid: Id, dbid: Id, tieBreak: nat): (r: Ruling)
    requires pid in s.bd.players && dbid in s.bd.balls && tieBreak <= 1
    ensures SameKeys(s.bd, r.bd)
  {
    var db := s.bd.balls[dbid];
    if !db.kind.Dodgeball? then s.(out := Fail(AttributeError("beat_attempt_time")))
    else if db.kind.beatAttemptTime > 0.0 then s.(pending := Some(State.Interference(dbid, pid)), out := Pass)
    else
      var players := s.bd.players;
      var bd := Board(players[pid := players[pid].(isKnockedOut := true)], s.bd.balls);
      var team := players[pid].team;
      var prios := Priorities(s.bd.balls, DodgeballsIn(ballIds, s.bd.balls), dbid, team);
      var second := PickSecond(prios, tieBreak);
      if second.Failure? then s.(bd := bd, out := Fail(second.error))
      else Penalise(ballIds, sd, s.(bd := bd), dbid, second.value, team)
  }

  /** With three or more dodgeballs there are always two others, so the ValueError cannot occur. */
  lemma InterferenceHasSecond(ballIds: seq<Id>, balls: map<Id, Ball>, dbid: Id, team: int)
    requires Distinct(ballIds) && dbid in balls && IsDodgeball(balls[dbid])
    requires |DodgeballsIn(ballIds, balls)| >= 3
    ensures |Priorities(balls, DodgeballsIn(ballIds, balls), dbid, team)| >= 2
  {
  }

  /** The two hand-overs of the dodgeballs change no knock-out flag. */
  lemma TurnDodgeballsKeepKnockouts(sd: map<Id, seq<(Id, real)>>, bd: Board, dbid: Id, sid: Id, team: int)
    requires dbid in bd.balls && sid in bd.balls
    ensures forall id :: id in bd.players ==> TurnDodgeballs(sd, bd, dbid, sid, team).bd.players[id].isKnockedOut == bd.players[id].isKnockedOut
  {
    var balls1 := bd.balls[dbid := bd.balls[dbid].(possessionTeam := Some(team))];
    var bd2 := Board(bd.players, balls1[sid := balls1[sid].(possessionTeam := Some(team))]);
    TurnoverKeeps(bd2, dbid, Nearest(sd, dbid));
    var m := Turnover(bd2, sd, dbid);
    TurnoverKeeps(m.bd, sid, Nearest(sd, sid));
  }

  /** The penalty's turnovers change no knock-out flag. */
  lemma PenaliseKeepsKnockouts(ballIds: seq<Id>, sd: map<Id, seq<(Id, real)>>, s: Ruling, dbid: Id, sid: Id, team: int)
    requires dbid in s.bd.balls && sid in s.bd.balls
    ensures forall id :: id in s.bd.players ==> Penalise(ballIds, sd, s, dbid, sid, team).bd.players[id].isKnockedOut == s.bd.players[id].isKnockedOut
  {
    var bd := s.bd;
    var vb := VolleyballIn(ballIds, bd.balls);
    if vb.Some? {
      var vid := vb.value;
      TurnoverKeeps(Board(bd.players, bd.balls[vid := bd.balls[vid].(possessionTeam := Some(team))]), vid, Nearest(sd, vid));
    }
    var m1 := TurnVolleyball(ballIds, sd, bd, team);
    if m1.out.Pass? {
      TurnDodgeballsKeepKnockouts(sd, m1.bd, dbid, sid, team);
    }
  }

  /** A completed penalty leaves no third-dodgeball state and every dodgeball's beat timer at 0. */
  lemma PenaliseClears(ballIds: seq<Id>, sd: map<Id, seq<(Id, real)>>, s: Ruling, dbid: Id, sid: Id, team: int)
    requires Indexes(ballIds, s.bd.balls.Keys) && dbid in s.bd.balls && sid in s.bd.balls
    ensures var r := Penalise(ballIds, sd, s, dbid, sid, team);
            r.out.Pass? ==>
              && r.third.None? && r.thirdTeam.None? && r.pending.None?
              && forall id :: id in r.bd.balls && IsDodgeball(r.bd.balls[id]) ==> r.bd.balls[id].kind.beatAttemptTime == 0.0
  {
    var m1 := TurnVolleyball(ballIds, sd, s.bd, team);
    if m1.out.Pass? {
      var m2 := TurnDodgeballs(sd, m1.bd, dbid, sid, team);
      if m2.out.Pass? {
        var ids := DodgeballsIn(ballIds, m2.bd.balls);
        forall id | id in m2.bd.balls && IsDodgeball(m2.bd.balls[id]) ensures id in ids {
        }
      }
    }
  }

  /**
    * A carried-out interference always knocks the offender out, even when a
    * later turnover raises; when it completes, the third-dodgeball state is
    * cleared and every dodgeball's beat timer is 0.
    */
  lemma InterferenceEffect(ballIds: seq<Id>, sd: map<Id, seq<(Id, real)>>, s: Ruling, pid: Id, dbid: Id, tieBreak: nat)
    requires Indexes(ballIds, s.bd.balls.Keys) && pid in s.bd.players && dbid in s.bd.balls && tieBreak <= 1
    requires IsDodgeball(s.bd.balls[dbid]) && !(s.bd.balls[dbid].kind.beatAttemptTime > 0.0)
    ensures InterferenceStep(ballIds, sd, s, pid, dbid, tieBreak).bd.players[pid].isKnockedOut
    ensures var r := InterferenceStep(ballIds, sd, s, pid, dbid, tieBreak);
            r.out.Pass? ==>
              && r.third.None? && r.thirdTeam.None? && r.pending.None?
              && forall id :: id in r.bd.balls && IsDodgeball(r.bd.balls[id]) ==> r.bd.balls[id].kind.beatAttemptTime == 0.0
  {
    var players := s.bd.players;
    var s' := s.(bd := Board(players[pid := players[pid].(isKnockedOut := true)], s.bd.balls));
    var team := players[pid].team;
    var pick := PickSecond(Priorities(s.bd.balls, DodgeballsIn(ballIds, s.bd.balls), dbid, team), tieBreak);
    if pick.Success? {
      PenaliseKeepsKnockouts(ballIds, sd, s', dbid, pick.value, team);
      PenaliseClears(ballIds, sd, s', dbid, pick.value, team);
    }
  }

  /** While a beat attempt runs, the interference is only recorded as pending. */
  lemma InterferenceDeferred(ballIds: seq<Id>, sd: map<Id, seq<(Id, real)>>, s: Ruling, pid: Id, dbid: Id, tieBreak: nat)
    requires pid in s.bd.players && dbid in s.bd.balls && tieBreak <= 1
    requires IsDodgeball(s.bd.balls[dbid]) && s.bd.balls[dbid].kind.beatAttemptTime > 0.0
    ensures InterferenceStep(ballIds, sd, s, pid, dbid, tieBreak) == s.(pending := Some(State.Interference(dbid, pid)), out := Pass)
  {
  }

  /* ---------------- the component ---------------- */

  class PenaltyLogic {
    const state: GameState

    constructor (state: GameState)
      ensures this.state == state
    {
      this.state := state;
    }

    /** The hand-over of `Assign`, written field by field. */
    method AssignTurnover(bid: Id, pid: Id) returns (out: Outcome)
      requires bid in state.balls && pid in state.players
      modifies state`players, state`balls
      ensures Moved(state.Tables(), out) == Assign(old(state.Tables()), bid, pid)
    {
      var b := state.balls[bid].(turnoverTo := Some(pid));
      state.balls := state.balls[bid := b];
      if IsDodgeball(b) {
        state.players := state.players[pid := state.players[pid].(receivingTurnover := Some(true))];
      }
      if b.holderId.Some? {
        var hid := b.holderId.value;
        if hid !in state.players {
          return Fail(AttributeError("has_ball"));
        }
        state.players := state.players[hid := state.players[hid].(hasBall := NoBall)];
        state.balls := state.balls[bid := state.balls[bid].(holderId := None)];
      }
      return Pass;
    }

    /** `_designate_turnover`. */
    method DesignateTurnover(bid: Id) returns (out: Outcome)
      requires bid in state.balls
      modifies state`players, state`balls
      ensures Moved(state.Tables(), out) == Turnover(old(state.Tables()), state.squaredDistances, bid)
    {
      ghost var bd := state.Tables();
      var items := if bid in state.squaredDistances then state.squaredDistances[bid] else [];
      var i := 0;
      while i < |items|
        invariant 0 <= i <= |items|
        invariant state.players == bd.players && state.balls == bd.balls
        invariant TurnoverScan(bd, bid, items) == TurnoverScan(bd, bid, items[i..])
      {
        assert items[i..][0] == items[i] && items[i..][1..] == items[i + 1..];
        var pid := items[i].0;
        if pid in state.players {
          var p := state.players[pid];
          var b := state.balls[bid];
          if b.possessionTeam != Some(p.team) {
            if IsVolleyball(b) {
              if (p.role == Chaser || p.role == Keeper) && !Loaded(p.hasBall) {
                out := AssignTurnover(bid, pid);
                return;
              }
            } else if p.role == Beater && !Loaded(p.hasBall) {
              if p.receivingTurnover.None? {
                return Fail(AttributeError(ReceivingFlag));
              }
              if !p.receivingTurnover.value {
                out := AssignTurnover(bid, pid);
                return;
              }
            }
          }
        }
        i := i + 1;
      }
      return Pass;
    }

    /** `_check_delay_of_game`; `_check_delay_velocity` is the function `DelayVelocity`. */
    method CheckDelayOfGame(dt: real) returns (out: Outcome)
      modifies state`players, state`balls, state`delayWarnings
      ensures Delayed(state.Tables(), state.delayWarnings, out) == DelayOfGame(old(state.Snapshot()), dt)
    {
      ghost var w := state.Snapshot();
      var vb := VolleyballIn(state.ballIds, state.balls);
      var result := DelayVelocity(state.Snapshot(), vb);
      if result.Failure? {
        return Fail(result.error);
      }
      var delay := result.value;
      if delay > 0.0 {
        assert result == Success(delay);
        assert DelayOfGame(w, dt) == RunTimer(w, vb.value, dt, delay);
        out := AdvanceTimer(vb.value, dt, delay);
        return;
      }
      if vb.Some? {
        var vid := vb.value;
        var b := state.balls[vid];
        var protectedKeeper := false;
        if b.holderId.Some? && b.holderId.value in state.players {
          var holder := state.players[b.holderId.value];
          if holder.role == Keeper && holder.dodgeballImmunity {
            protectedKeeper := true;
          }
        }
        if !protectedKeeper {
          state.balls := state.balls[vid := WithTimer(b, 0.0)];
        }
      }
      return Pass;
    }

    /** The timer update of `_check_delay_of_game` for a positive delay. */
    method AdvanceTimer(vid: Id, dt: real, delay: real) returns (out: Outcome)
      requires vid in state.balls && InPlay(state.balls[vid])
      modifies state`players, state`balls, state`delayWarnings
      ensures Delayed(state.Tables(), state.delayWarnings, out) == RunTimer(old(state.Snapshot()), vid, dt, delay)
    {
      ghost var w := state.Snapshot();
      var b := state.balls[vid];
      var timer := b.kind.delayTimer + dt * delay;
      state.balls := state.balls[vid := WithTimer(b, timer)];
      if timer >= state.cfg.delayLimit {
        out := WarnTeam(w, vid, b.possessionTeam.value);
      } else {
        out := Pass;
      }
    }

    /** The warning of `_check_delay_of_game` once the timer reaches the limit. */
    method WarnTeam(ghost w: World, vid: Id, team: int) returns (out: Outcome)
      requires vid in state.balls
      requires w.cfg == state.cfg && w.delayWarnings == state.delayWarnings && w.squaredDistances == state.squaredDistances
      modifies state`players, state`balls, state`delayWarnings
      ensures Delayed(state.Tables(), state.delayWarnings, out) == Warn(w, old(state.Tables()), vid, team)
    {
      var count := (if team in state.delayWarnings then state.delayWarnings[team] else 0) + 1;
      state.delayWarnings := state.delayWarnings[team := count];
      if count > state.cfg.maxDelayWarnings {
        out := DesignateTurnover(vid);
        if out.Fail? {
          return;
        }
      }
      state.balls := state.balls[vid := WithTimer(state.balls[vid], 0.0)];
      return Pass;
    }

    /** The priority table of the other dodgeballs, built in table order. */
    method SecondDodgeballPriorities(dbid: Id, team: int) returns (prios: seq<(Id, real)>)
      ensures prios == Priorities(state.balls, DodgeballsIn(state.ballIds, state.balls), dbid, team)
    {
      var ids := DodgeballsIn(state.ballIds, state.balls);
      prios := [];
      var i := |ids|;
      while i > 0
        invariant 0 <= i <= |ids|
        invariant prios == Priorities(state.balls, ids[i..], dbid, team)
      {
        i := i - 1;
        assert ids[i..][1..] == ids[i + 1..];
        if ids[i] != dbid {
          prios := [(ids[i], Priority(state.balls[ids[i]], team))] + prios;
        }
      }
    }

    /** Every dodgeball's beat timer back to 0. */
    method ResetBeatTimers()
      modifies state`balls
      ensures state.balls == ResetBeatTimes(old(state.balls), DodgeballsIn(state.ballIds, old(state.balls)))
    {
      ghost var balls := state.balls;
      var ids := DodgeballsIn(state.ballIds, state.balls);
      var i := 0;
      while i < |ids|
        invariant 0 <= i <= |ids|
        invariant state.balls == ResetBeatTimes(balls, ids[..i])
      {
        assert ids[..i + 1] == ids[..i] + [ids[i]];
        state.balls := state.balls[ids[i] := ResetBeat(state.balls[ids[i]])];
        i := i + 1;
      }
      assert ids[..i] == ids;
    }

    /** `_third_dodgeball_interference`; `tieBreak` is the value `randint(0, 1)` would return. */
    method ThirdDodgeballInterference(pid: Id, dbid: Id, tieBreak: nat) returns (out: Outcome)
      requires pid in state.players && dbid in state.balls && tieBreak <= 1
      modifies state`players, state`balls, state`thirdDodgeball, state`thirdDodgeballTeam, state`pendingInterference
      ensures state.Ruled(out) == InterferenceStep(state.ballIds, state.squaredDistances, old(state.Ruled(Pass)), pid, dbid, tieBreak)
    {
      var db := state.balls[dbid];
      if !db.kind.Dodgeball? {
        return Fail(AttributeError("beat_attempt_time"));
      }
      if db.kind.beatAttemptTime > 0.0 {
        state.pendingInterference := Some(State.Interference(dbid, pid));
        return Pass;
      }
      var team := state.players[pid].team;
      var prios := SecondDodgeballPriorities(dbid, team);
      state.players := state.players[pid := state.players[pid].(isKnockedOut := true)];
      var pick := PickSecond(prios, tieBreak);
      if pick.Failure? {
        return Fail(pick.error);
      }
      out := CarryOut(dbid, pick.value, team);
    }

    /** The turnovers and resets of `_third_dodgeball_interference` once the second dodgeball is chosen. */
    method CarryOut(dbid: Id, sid: Id, team: int) returns (out: Outcome)
      requires dbid in state.balls && sid in state.balls
      modifies state`players, state`balls, state`thirdDodgeball, state`thirdDodgeballTeam, state`pendingInterference
      ensures state.Ruled(out) == Penalise(state.ballIds, state.squaredDistances, old(state.Ruled(Pass)), dbid, sid, team)
    {
      ghost var s := state.Ruled(Pass);
      out := HandOverVolleyball(team);
      ghost var m1 := Moved(state.Tables(), out);
      assert m1 == TurnVolleyball(state.ballIds, state.squaredDistances, s.bd, team);
      if out.Fail? {
        return;
      }
      out := HandOverDodgeballs(dbid, sid, team);
      ghost var m2 := Moved(state.Tables(), out);
      assert m2 == TurnDodgeballs(state.squaredDistances, m1.bd, dbid, sid, team);
      if out.Fail? {
        return;
      }
      state.thirdDodgeball := None;
      state.thirdDodgeballTeam := None;
      state.pendingInterference := None;
      ResetBeatTimers();
      assert state.Tables() == Board(m2.bd.players, ResetBeatTimes(m2.bd.balls, DodgeballsIn(state.ballIds, m2.bd.balls)));
      return Pass;
    }

    /** The volleyball hand-over of `_third_dodgeball_interference`. */
    method HandOverVolleyball(team: int) returns (out: Outcome)
      modifies state`players, state`balls
      ensures Moved(state.Tables(), out) == TurnVolleyball(state.ballIds, state.squaredDistances, old(state.Tables()), team)
    {
      var vb := VolleyballIn(state.ballIds, state.balls);
      if vb.None? {
        return Pass;
      }
      state.balls := state.balls[vb.value := state.balls[vb.value].(possessionTeam := Some(team))];
      out := DesignateTurnover(vb.value);
    }

    /** The two dodgeball hand-overs of `_third_dodgeball_interference`. */
    method HandOverDodgeballs(dbid: Id, sid: Id, team: int) returns (out: Outcome)
      requires dbid in state.balls && sid in state.balls
      modifies state`players, state`balls
      ensures Moved(state.Tables(), out) == TurnDodgeballs(state.squaredDistances, old(state.Tables()), dbid, sid, team)
    {
      state.balls := state.balls[dbid := state.balls[dbid].(possessionTeam := Some(team))];
      state.balls := state.balls[sid := state.balls[sid].(possessionTeam := Some(team))];
      out := DesignateTurnover(dbid);
      if out.Fail? {
        return;
      }
      out := DesignateTurnover(sid);
    }
  }
}
