/**
  * The dodgeball rules: pickups by beaters, beats of opponents, and the
  * third-dodgeball rule that keeps one team from holding all three balls.
  *
  * Every rule reads and rewrites the tables together with the
  * third-dodgeball state (a `Ruling`); an exception the engine would raise
  * ends the rule with `out == Fail(e)` and the state reached so far.
  */
module DodgeballRules {
  import opened Wrappers
  import opened Numerics
  import opened Vectors
  import opened Entities
  import opened State
  import opened Penalty

  /* ---------------- pickups ---------------- */

  /** A beater off its catch cooldown and holding nothing may take a dodgeball. */
  predicate MayTake(p: Player)
  {
    p.catchCooldown <= 0.0 && p.role == Beater && !Loaded(p.hasBall)
  }

  /** The dodgeball is the third one and the player is not on the team it is reserved for. */
  predicate Interferes(s: Ruling, p: Player, dbid: Id)
  {
    s.third == Some(dbid) && s.thirdTeam != Some(p.team)
  }

  /** Whether the scan over a dodgeball's neighbours stops here, and the state it leaves. */
  datatype Attempt = Attempt(taken: bool, rule: Ruling)

  /** The pickup itself: ball and player name each other, and a turnover to the player is complete. */
  function Take(bd: Board, dbid: Id, pid: Id): (r: Board)
    requires dbid in bd.balls && pid in bd.players
    ensures SameKeys(bd, r)
  {
    var db := bd.balls[dbid];
    var p := bd.players[pid];
    Board(bd.players[pid := p.(hasBall := Holding(dbid),
                               receivingTurnover := if db.turnoverTo.Some? then Some(false) else p.receivingTurnover)],
          bd.balls[dbid := db.(holderId := Some(pid), possessionTeam := Some(p.team), turnoverTo := None)])
  }

  /**
    * `_check_dodgeball_possession_of_player`: a player that may take the
    * ball either interferes with the third dodgeball or picks it up; in
    * both cases the scan stops.
    */
  function PossessionAttempt(ballIds: seq<Id>, sd: map<Id, seq<(Id, real)>>, s: Ruling, pid: Id, dbid: Id, tieBreak: nat): (r: Attempt)
    requires pid in s.bd.players && dbid in s.bd.balls && tieBreak <= 1
    ensures SameKeys(s.bd, r.rule.bd)
    ensures r.taken <==> MayTake(s.bd.players[pid])
    ensures !r.taken ==> r.rule == s
  {
    var p := s.bd.players[pid];
    if !MayTake(p) then Attempt(false, s)
    else if Interferes(s, p, dbid) then Attempt(true, InterferenceStep(ballIds, sd, s, pid, dbid, tieBreak))
    else Attempt(true, s.(bd := Take(s.bd, dbid, pid), out := Pass))
  }

  /**
    * A beater that may take a dodgeball picks it up unless it is the third
    * one reserved for the other team: it becomes the holder, the ball is in
    * the beater's team's possession, any turnover of it is complete, and
    * nothing else changes.
    */
  lemma PickupEffect(ballIds: seq<Id>, sd: map<Id, seq<(Id, real)>>, s: Ruling, pid: Id, dbid: Id, tieBreak: nat)
    requires pid in s.bd.players && dbid in s.bd.balls && tieBreak <= 1
    requires MayTake(s.bd.players[pid]) && !Interferes(s, s.bd.players[pid], dbid)
    ensures var r := PossessionAttempt(ballIds, sd, s, pid, dbid, tieBreak).rule;
            && r.out == Pass
            && r.bd.balls[dbid].holderId == Some(pid)
            && r.bd.players[pid].hasBall == Holding(dbid)
            && r.bd.balls[dbid].possessionTeam == Some(s.bd.players[pid].team)
            && r.bd.balls[dbid].turnoverTo.None?
            && r.bd.balls == s.bd.balls[dbid := r.bd.balls[dbid]]
            && r.bd.players == s.bd.players[pid := r.bd.players[pid]]
            && r.third == s.third && r.thirdTeam == s.thirdTeam && r.pending == s.pending
  {
  }

  /**
    * A beater of the wrong team touching the third dodgeball is penalised
    * instead of picking it up: knocked out at once when no beat attempt
    * runs, otherwise only recorded as the pending interference.
    */
  lemma ThirdDodgeballTouched(ballIds: seq<Id>, sd: map<Id, seq<(Id, real)>>, s: Ruling, pid: Id, dbid: Id, tieBreak: nat)
    requires Indexes(ballIds, s.bd.balls.Keys) && pid in s.bd.players && dbid in s.bd.balls && tieBreak <= 1
    requires MayTake(s.bd.players[pid]) && Interferes(s, s.bd.players[pid], dbid) && IsDodgeball(s.bd.balls[dbid])
    ensures var r := PossessionAttempt(ballIds, sd, s, pid, dbid, tieBreak);
            && r.taken
            && (s.bd.balls[dbid].kind.beatAttemptTime > 0.0 ==> r.rule == s.(pending := Some(State.Interference(dbid, pid)), out := Pass))
            && (!(s.bd.balls[dbid].kind.beatAttemptTime > 0.0) ==> r.rule.bd.players[pid].isKnockedOut)
  {
    if s.bd.balls[dbid].kind.beatAttemptTime > 0.0 {
      InterferenceDeferred(ballIds, sd, s, pid, dbid, tieBreak);
    } else {
      InterferenceEffect(ballIds, sd, s, pid, dbid, tieBreak);
    }
  }

  /* ---------------- beats ---------------- */

  /**
    * The dodgeball's velocity reflected, with its reflection loss, about the
    * unit normal from the player's centre to the ball's; coincident centres
    * divide by zero.
    */
  function Deflect(sqrt: real -> real, db: Ball, p: Player): (r: Result<Vec>)
    ensures r.Failure? ==> r.error == ZeroDivisionError
  {
    var normal := Sub(db.position, p.position);
    var mag := Length(sqrt, normal);
    if mag == 0.0 then Failure(ZeroDivisionError) else Success(Reflect(db.velocity, DivBy(normal, mag), db.reflectLoss))
  }

  /** Apart centres never raise, and the deflected speed is the old one scaled by 1 - loss. */
  lemma DeflectSpeed(sqrt: real -> real, db: Ball, p: Player)
    requires IsSqrt(sqrt) && 0.0 < NormSq(Sub(db.position, p.position))
    ensures Deflect(sqrt, db, p).Success?
    ensures NormSq(Deflect(sqrt, db, p).value) == (1.0 - db.reflectLoss) * (1.0 - db.reflectLoss) * NormSq(db.velocity)
  {
    var normal := Sub(db.position, p.position);
    var mag := Length(sqrt, normal);
    LengthFacts(sqrt, normal);
    assert 0.0 < mag;
    DivideByLength(normal, mag);
    ReflectNorm(db.velocity, DivBy(normal, mag), db.reflectLoss);
  }

  /**
    * The knocked-out player lets go of the ball it holds: the ball is loose,
    * still and in nobody's possession, and the player's `has_ball` is None.
    * A held id naming no ball raises.
    */
  function Drop(bd: Board, pid: Id): (r: Moved)
    requires pid in bd.players
    ensures SameKeys(bd, r.bd)
  {
    var p := bd.players[pid];
    if !Loaded(p.hasBall) then Moved(bd, Pass)
    else if p.hasBall.ballId !in bd.balls then Moved(bd, Fail(AttributeError("holder_id")))
    else
      var bid := p.hasBall.ballId;
      Moved(Board(bd.players[pid := p.(hasBall := Dropped)],
                  bd.balls[bid := bd.balls[bid].(holderId := None, velocity := Zero, possessionTeam := None)]), Pass)
  }

  /**
    * `_check_beats` of player `pid` by dodgeball `dbid`: a held ball does
    * nothing; a team-mate, or an immune player, deflects the ball and takes it
    * out of possession (its own thrower, still on cooldown, is passed
    * through); an opponent is knocked out, drops what it holds and deflects
    * the ball, and every beat timer and the third-dodgeball state are reset.
    */
  function Beat(sqrt: real -> real, ballIds: seq<Id>, s: Ruling, pid: Id, dbid: Id): (r: Ruling)
    requires pid in s.bd.players && dbid in s.bd.balls
    ensures SameKeys(s.bd, r.bd)
  {
    var p := s.bd.players[pid];
    var db := s.bd.balls[dbid];
    if db.holderId.Some? then s.(out := Pass)
    else if db.possessionTeam == Some(p.team) || p.dodgeballImmunity then
      if db.previousThrowerId == Some(pid) && p.catchCooldown > 0.0 then s.(out := Pass)
      else Deflection(sqrt, s, pid, dbid)
    else Knockout(sqrt, ballIds, s, pid, dbid)
  }

  /** A team-mate or an immune player deflects the dodgeball, which leaves its team's possession.
    * The method's own description says a deflection keeps possession; its code clears it, and
    * this follows the code. */
  function Deflection(sqrt: real -> real, s: Ruling, pid: Id, dbid: Id): (r: Ruling)
    requires pid in s.bd.players && dbid in s.bd.balls
    ensures SameKeys(s.bd, r.bd)
  {
    var loose := s.bd.balls[dbid].(possessionTeam := None);
    var v := Deflect(sqrt, loose, s.bd.players[pid]);
    if v.Failure? then s.(bd := Board(s.bd.players, s.bd.balls[dbid := loose]), out := Fail(v.error))
    else s.(bd := Board(s.bd.players, s.bd.balls[dbid := loose.(velocity := v.value)]), out := Pass)
  }

  /**
    * An opponent is knocked out, drops what it holds and deflects the ball;
    * every beat timer and the third-dodgeball state are reset.
    */
  function Knockout(sqrt: real -> real, ballIds: seq<Id>, s: Ruling, pid: Id, dbid: Id): (r: Ruling)
    requires pid in s.bd.players && dbid in s.bd.balls
    ensures SameKeys(s.bd, r.bd)
  {
    var p := s.bd.players[pid];
    var m := Drop(Board(s.bd.players[pid := p.(isKnockedOut := true)], s.bd.balls), pid);
    if m.out.Fail? then s.(bd := m.bd, out := m.out)
    else
      var hit := m.bd.balls[dbid];
      var v := Deflect(sqrt, hit, p);
      if v.Failure? then s.(bd := m.bd, out := Fail(v.error))
      else
        var balls := m.bd.balls[dbid := hit.(velocity := v.value)];
        Ruling(Board(m.bd.players, ResetBeatTimes(balls, DodgeballsIn(ballIds, balls))), None, None, None, Pass)
  }

  /** A dodgeball someone holds beats nobody. */
  lemma HeldNeverBeats(sqrt: real -> real, ballIds: seq<Id>, s: Ruling, pid: Id, dbid: Id)
    requires pid in s.bd.players && dbid in s.bd.balls && s.bd.balls[dbid].holderId.Some?
    ensures Beat(sqrt, ballIds, s, pid, dbid) == s.(out := Pass)
  {
  }

  /** A team-mate or an immune player is never knocked out: the ball only bounces off and loses its possession. */
  lemma FriendlyDeflection(sqrt: real -> real, ballIds: seq<Id>, s: Ruling, pid: Id, dbid: Id)
    requires IsSqrt(sqrt) && pid in s.bd.players && dbid in s.bd.balls
    requires var p := s.bd.players[pid]; var db := s.bd.balls[dbid];
             && db.holderId.None?
             && (db.possessionTeam == Some(p.team) || p.dodgeballImmunity)
             && !(db.previousThrowerId == Some(pid) && p.catchCooldown > 0.0)
             && 0.0 < NormSq(Sub(db.position, p.position))
    ensures var r := Beat(sqrt, ballIds, s, pid, dbid); var db := s.bd.balls[dbid];
            && r.out == Pass
            && r.bd.players == s.bd.players
            && r.bd.balls == s.bd.balls[dbid := r.bd.balls[dbid]]
            && r.bd.balls[dbid].possessionTeam.None?
            && NormSq(r.bd.balls[dbid].velocity) == (1.0 - db.reflectLoss) * (1.0 - db.reflectLoss) * NormSq(db.velocity)
            && r.third == s.third && r.thirdTeam == s.thirdTeam && r.pending == s.pending
  {
    var loose := s.bd.balls[dbid].(possessionTeam := None);
    DeflectSpeed(sqrt, loose, s.bd.players[pid]);
  }

  /** The thrower of a dodgeball, still on its catch cooldown, is not touched by its own throw. */
  lemma ThrowerPassesThrough(sqrt: real -> real, ballIds: seq<Id>, s: Ruling, pid: Id, dbid: Id)
    requires pid in s.bd.players && dbid in s.bd.balls
    requires var p := s.bd.players[pid]; var db := s.bd.balls[dbid];
             && (db.possessionTeam == Some(p.team) || p.dodgeballImmunity)
             && db.previousThrowerId == Some(pid) && p.catchCooldown > 0.0
    ensures Beat(sqrt, ballIds, s, pid, dbid) == s.(out := Pass)
  {
  }

  /**
    * A loose dodgeball touching an opponent without immunity knocks it out:
    * the player holds nothing any more, a ball it held is loose, still and in
    * nobody's possession, every beat timer is 0 and the third-dodgeball state
    * is cleared.
    */
  lemma BeatKnocksOut(sqrt: real -> real, ballIds: seq<Id>, s: Ruling, pid: Id, dbid: Id)
    requires pid in s.bd.players && dbid in s.bd.balls
    requires var p := s.bd.players[pid]; var db := s.bd.balls[dbid];
             db.holderId.None? && db.possessionTeam != Some(p.team) && !p.dodgeballImmunity
    ensures var r := Beat(sqrt, ballIds, s, pid, dbid);
            && r.bd.players[pid].isKnockedOut
            && (r.out.Pass? ==> !Loaded(r.bd.players[pid].hasBall))
            && (r.out.Pass? ==> r.third.None? && r.thirdTeam.None? && r.pending.None?)
            && (r.out.Pass? ==> forall id :: id in ballIds && id in r.bd.balls && IsDodgeball(r.bd.balls[id]) ==>
                                  r.bd.balls[id].kind.beatAttemptTime == 0.0)
  {
    var r := Beat(sqrt, ballIds, s, pid, dbid);
    var p := s.bd.players[pid];
    var m := Drop(Board(s.bd.players[pid := p.(isKnockedOut := true)], s.bd.balls), pid);
    assert m.bd.players[pid].isKnockedOut;
    if r.out.Pass? {
      var hit := m.bd.balls[dbid];
      var v := Deflect(sqrt, hit, p);
      var balls := m.bd.balls[dbid := hit.(velocity := v.value)];
      forall id | id in ballIds && id in r.bd.balls && IsDodgeball(r.bd.balls[id])
        ensures r.bd.balls[id].kind.beatAttemptTime == 0.0
      {
        assert id in DodgeballsIn(ballIds, balls);
      }
    }
  }

  /** The ball a knocked-out opponent held, when it is not the dodgeball that hit, lies loose and still. */
  lemma BeatDropsBall(sqrt: real -> real, ballIds: seq<Id>, s: Ruling, pid: Id, dbid: Id)
    requires pid in s.bd.players && dbid in s.bd.balls
    requires var p := s.bd.players[pid]; var db := s.bd.balls[dbid];
             db.holderId.None? && db.possessionTeam != Some(p.team) && !p.dodgeballImmunity
    requires var h := s.bd.players[pid].hasBall; Loaded(h) && h.ballId in s.bd.balls && h.ballId != dbid
    ensures var r := Beat(sqrt, ballIds, s, pid, dbid); var bid := s.bd.players[pid].hasBall.ballId;
            r.out.Pass? ==> r.bd.balls[bid].holderId.None? && r.bd.balls[bid].possessionTeam.None? && r.bd.balls[bid].velocity == Zero
  {
  }

  /* ---------------- the interaction scan ---------------- */

  /** What an entry of a dodgeball's nearest-first list does. */
  datatype Reaction = Ignore | Possess | Unflagged | Beaten

  /**
    * The reaction to entry `(pid, distance)` of the dodgeball's nearest-first
    * list: a standing player within reach may pick the ball up (a loose ball,
    * a beater of the team in possession, or the receiver of a turnover) or
    * else be beaten; a ball turned over to someone else is left alone, and a
    * turnover meeting a player with no receiving flag raises.
    */
  function React(bd: Board, dbid: Id, e: (Id, real)): (r: Reaction)
    requires dbid in bd.balls
    ensures r != Ignore ==> e.0 in bd.players
  {
    var pid := e.0;
    if pid !in bd.players then Ignore
    else
      var p := bd.players[pid];
      var db := bd.balls[dbid];
      if p.isKnockedOut || !(e.1 < (p.radius + db.radius) * (p.radius + db.radius)) then Ignore
      else if db.turnoverTo.Some? && db.turnoverTo.value != pid then Ignore
      else if db.possessionTeam.None? || (db.possessionTeam == Some(p.team) && p.role == Beater) then Possess
      else if db.turnoverTo.Some? && db.possessionTeam != Some(p.team) then
        if p.receivingTurnover.None? then Unflagged
        else if p.receivingTurnover.value then Possess
        else Beaten
      else Beaten
  }

  /** One entry of the scan: the reaction carried out. */
  function EntryStep(sqrt: real -> real, ballIds: seq<Id>, sd: map<Id, seq<(Id, real)>>, s: Ruling, dbid: Id, e: (Id, real), tieBreak: nat): (r: Attempt)
    requires dbid in s.bd.balls && tieBreak <= 1
    ensures SameKeys(s.bd, r.rule.bd)
  {
    match React(s.bd, dbid, e)
    case Ignore => Attempt(false, s)
    case Possess => PossessionAttempt(ballIds, sd, s, e.0, dbid, tieBreak)
    case Unflagged => Attempt(false, s.(out := Fail(AttributeError(ReceivingFlag))))
    case Beaten => Attempt(false, Beat(sqrt, ballIds, s, e.0, dbid))
  }

  /** Entries that are no standing player in reach, or a ball turned over to another player, change nothing. */
  lemma EntryIgnored(sqrt: real -> real, ballIds: seq<Id>, sd: map<Id, seq<(Id, real)>>, s: Ruling, dbid: Id, e: (Id, real), tieBreak: nat)
    requires dbid in s.bd.balls && tieBreak <= 1
    requires var db := s.bd.balls[dbid];
             || e.0 !in s.bd.players
             || s.bd.players[e.0].isKnockedOut
             || !(e.1 < (s.bd.players[e.0].radius + db.radius) * (s.bd.players[e.0].radius + db.radius))
             || (db.turnoverTo.Some? && db.turnoverTo.value != e.0)
    ensures EntryStep(sqrt, ballIds, sd, s, dbid, e, tieBreak) == Attempt(false, s)
  {
  }

  /** Every player knocked out before is knocked out after. */
  ghost predicate KnockoutsKept(bd: Board, bd': Board)
  {
    forall id :: id in bd.players && bd.players[id].isKnockedOut ==> id in bd'.players && bd'.players[id].isKnockedOut
  }

  /** The interference penalty revives nobody. */
  lemma InterferenceKeepsKnockouts(ballIds: seq<Id>, sd: map<Id, seq<(Id, real)>>, s: Ruling, pid: Id, dbid: Id, tieBreak: nat)
    requires pid in s.bd.players && dbid in s.bd.balls && tieBreak <= 1
    ensures KnockoutsKept(s.bd, InterferenceStep(ballIds, sd, s, pid, dbid, tieBreak).bd)
  {
    var db := s.bd.balls[dbid];
    if db.kind.Dodgeball? && !(db.kind.beatAttemptTime > 0.0) {
      var players := s.bd.players;
      var s' := s.(bd := Board(players[pid := players[pid].(isKnockedOut := true)], s.bd.balls));
      var team := players[pid].team;
      var pick := PickSecond(Priorities(s.bd.balls, DodgeballsIn(ballIds, s.bd.balls), dbid, team), tieBreak);
      assert KnockoutsKept(s.bd, s'.bd);
      if pick.Success? {
        var r := Penalise(ballIds, sd, s', dbid, pick.value, team);
        assert InterferenceStep(ballIds, sd, s, pid, dbid, tieBreak) == r;
        PenaliseKeepsKnockouts(ballIds, sd, s', dbid, pick.value, team);
        assert KnockoutsKept(s'.bd, r.bd);
      }
    }
  }

  /** A pickup attempt revives nobody. */
  lemma AttemptKeepsKnockouts(ballIds: seq<Id>, sd: map<Id, seq<(Id, real)>>, s: Ruling, pid: Id, dbid: Id, tieBreak: nat)
    requires pid in s.bd.players && dbid in s.bd.balls && tieBreak <= 1
    ensures KnockoutsKept(s.bd, PossessionAttempt(ballIds, sd, s, pid, dbid, tieBreak).rule.bd)
  {
    var p := s.bd.players[pid];
    if MayTake(p) && Interferes(s, p, dbid) {
      InterferenceKeepsKnockouts(ballIds, sd, s, pid, dbid, tieBreak);
    }
  }

  /** A beat only ever knocks a player out. */
  lemma BeatKeepsKnockouts(sqrt: real -> real, ballIds: seq<Id>, s: Ruling, pid: Id, dbid: Id)
    requires pid in s.bd.players && dbid in s.bd.balls
    ensures KnockoutsKept(s.bd, Beat(sqrt, ballIds, s, pid, dbid).bd)
  {
  }

  /** No entry of the scan revives a knocked-out player. */
  lemma EntryKeepsKnockouts(sqrt: real -> real, ballIds: seq<Id>, sd: map<Id, seq<(Id, real)>>, s: Ruling, dbid: Id, e: (Id, real), tieBreak: nat)
    requires dbid in s.bd.balls && tieBreak <= 1
    ensures KnockoutsKept(s.bd, EntryStep(sqrt, ballIds, sd, s, dbid, e, tieBreak).rule.bd)
  {
    var pid := e.0;
    if pid in s.bd.players {
      AttemptKeepsKnockouts(ballIds, sd, s, pid, dbid, tieBreak);
      BeatKeepsKnockouts(sqrt, ballIds, s, pid, dbid);
    }
  }

  /** The scan over one dodgeball's neighbours, stopping at a pickup or an exception. */
  function DodgeRow(sqrt: real -> real, ballIds: seq<Id>, sd: map<Id, seq<(Id, real)>>, s: Ruling, dbid: Id, entries: seq<(Id, real)>, tieBreak: nat): (r: Ruling)
    requires dbid in s.bd.balls && tieBreak <= 1
    ensures SameKeys(s.bd, r.bd)
    decreases |entries|
  {
    if entries == [] then s
    else
      var a := EntryStep(sqrt, ballIds, sd, s, dbid, entries[0], tieBreak);
      if a.rule.out.Fail? || a.taken then a.rule
      else DodgeRow(sqrt, ballIds, sd, a.rule, dbid, entries[1..], tieBreak)
  }

  /** The scans over every dodgeball in table order, stopping at an exception. */
  function DodgeballsFrom(sqrt: real -> real, ballIds: seq<Id>, sd: map<Id, seq<(Id, real)>>, s: Ruling, ids: seq<Id>, tieBreak: nat): (r: Ruling)
    requires forall id :: id in ids ==> id in s.bd.balls
    requires tieBreak <= 1
    ensures SameKeys(s.bd, r.bd)
    decreases |ids|
  {
    if ids == [] then s
    else
      var r1 := DodgeRow(sqrt, ballIds, sd, s, ids[0], DistancesOf(sd, ids[0]), tieBreak);
      if r1.out.Fail? then r1 else DodgeballsFrom(sqrt, ballIds, sd, r1, ids[1..], tieBreak)
  }

  /**
    * `_check_dodgeball_interactions`: every dodgeball (in table order) scans
    * its nearest-first list of neighbours.
    */
  function Interactions(sqrt: real -> real, ballIds: seq<Id>, sd: map<Id, seq<(Id, real)>>, s: Ruling, tieBreak: nat): (r: Ruling)
    requires tieBreak <= 1
    ensures SameKeys(s.bd, r.bd)
  {
    DodgeballsFrom(sqrt, ballIds, sd, s, DodgeballsIn(ballIds, s.bd.balls), tieBreak)
  }

  lemma {:induction false} RowKeepsKnockouts(sqrt: real -> real, ballIds: seq<Id>, sd: map<Id, seq<(Id, real)>>, s: Ruling, dbid: Id, entries: seq<(Id, real)>, tieBreak: nat)
    requires dbid in s.bd.balls && tieBreak <= 1
    ensures KnockoutsKept(s.bd, DodgeRow(sqrt, ballIds, sd, s, dbid, entries, tieBreak).bd)
    decreases |entries|
  {
    if entries != [] {
      var a := EntryStep(sqrt, ballIds, sd, s, dbid, entries[0], tieBreak);
      EntryKeepsKnockouts(sqrt, ballIds, sd, s, dbid, entries[0], tieBreak);
      if !(a.rule.out.Fail? || a.taken) {
        RowKeepsKnockouts(sqrt, ballIds, sd, a.rule, dbid, entries[1..], tieBreak);
      }
    }
  }

  lemma {:induction false} DodgeballsFromKeepKnockouts(sqrt: real -> real, ballIds: seq<Id>, sd: map<Id, seq<(Id, real)>>, s: Ruling, ids: seq<Id>, tieBreak: nat)
    requires forall id :: id in ids ==> id in s.bd.balls
    requires tieBreak <= 1
    ensures KnockoutsKept(s.bd, DodgeballsFrom(sqrt, ballIds, sd, s, ids, tieBreak).bd)
    decreases |ids|
  {
    if ids != [] {
      var r1 := DodgeRow(sqrt, ballIds, sd, s, ids[0], DistancesOf(sd, ids[0]), tieBreak);
      RowKeepsKnockouts(sqrt, ballIds, sd, s, ids[0], DistancesOf(sd, ids[0]), tieBreak);
      if r1.out.Pass? {
        DodgeballsFromKeepKnockouts(sqrt, ballIds, sd, r1, ids[1..], tieBreak);
      }
    }
  }

  /** Dodgeball play never revives a knocked-out player. */
  lemma InteractionsKeepKnockouts(sqrt: real -> real, ballIds: seq<Id>, sd: map<Id, seq<(Id, real)>>, s: Ruling, tieBreak: nat)
    requires tieBreak <= 1
    ensures KnockoutsKept(s.bd, Interactions(sqrt, ballIds, sd, s, tieBreak).bd)
  {
    DodgeballsFromKeepKnockouts(sqrt, ballIds, sd, s, DodgeballsIn(ballIds, s.bd.balls), tieBreak);
  }

  /* ---------------- the third dodgeball ---------------- */

  /** The classification of the dodgeballs: held per team, thrown per team, and dead (in nobody's possession). */
  datatype Tally = Tally(hold0: seq<Id>, hold1: seq<Id>, thrown0: seq<Id>, thrown1: seq<Id>, dead: seq<Id>)

  const NoTally: Tally := Tally([], [], [], [], [])

  /** Every entry of the classification, in one list. */
  function Listed(t: Tally): seq<Id>
  {
    t.hold0 + t.hold1 + t.thrown0 + t.thrown1 + t.dead
  }

  /** Adds `id` to the held list of `team`; only teams 0 and 1 have one. */
  function Hold(t: Tally, team: int, id: Id): (r: Result<Tally>)
    ensures r.Success? <==> team == 0 || team == 1
  {
    if team == 0 then Success(t.(hold0 := t.hold0 + [id]))
    else if team == 1 then Success(t.(hold1 := t.hold1 + [id]))
    else Failure(KeyError("hold_dodgeballs_" + IntToString(team)))
  }

  /** Adds `id` to the thrown list of `team`; only teams 0 and 1 have one. */
  function Throw(t: Tally, team: int, id: Id): (r: Result<Tally>)
    ensures r.Success? <==> team == 0 || team == 1
  {
    if team == 0 then Success(t.(thrown0 := t.thrown0 + [id]))
    else if team == 1 then Success(t.(thrown1 := t.thrown1 + [id]))
    else Failure(KeyError("thrown_dodgeballs_" + IntToString(team)))
  }

  /** Classifies ball `id`: dead without possession, held by its holder's team, otherwise thrown by the team in possession. */
  function Classify(players: map<Id, Player>, b: Ball, id: Id, t: Tally): (r: Result<Tally>)
    ensures r.Success? ==> |Listed(r.value)| == |Listed(t)| + 1
    ensures r.Success? ==> forall x :: x in Listed(r.value) ==> x in Listed(t) || x == id
  {
    if b.possessionTeam.None? then Success(t.(dead := t.dead + [id]))
    else if b.holderId.Some? then
      if b.holderId.value !in players then Failure(KeyError(b.holderId.value))
      else Hold(t, players[b.holderId.value].team, id)
    else Throw(t, b.possessionTeam.value, id)
  }

  /**
    * The beat-timer step of `_check_third_dodgeball` for ball `id`: a running
    * beat attempt advances by `dt`; once past the limit, a pending
    * interference is carried out on its ball, whose timer is reset first, and
    * that ball is the one classified next. Returns the state and the id to
    * classify.
    */
  function TimerStep(limit: real, ballIds: seq<Id>, sd: map<Id, seq<(Id, real)>>, s: Ruling, id: Id, dt: real, tieBreak: nat): (r: (Ruling, Id))
    requires id in s.bd.balls && tieBreak <= 1
    ensures SameKeys(s.bd, r.0.bd)
    ensures r.0.out.Pass? && s.out.Pass? ==> r.1 in r.0.bd.balls
  {
    var b := s.bd.balls[id];
    if !(b.kind.Dodgeball? && b.kind.beatAttemptTime > 0.0) then (s, id)
    else
      var time := b.kind.beatAttemptTime + dt;
      var s1 := s.(bd := Board(s.bd.players, s.bd.balls[id := b.(kind := b.kind.(beatAttemptTime := time))]));
      if !(time > limit) || s.pending.None? then (s1, id)
      else
        var pid := s.pending.value.playerId;
        var dbid := s.pending.value.dodgeballId;
        if pid !in s1.bd.players then (s1.(out := Fail(KeyError(pid))), id)
        else if dbid !in s1.bd.balls then (s1.(out := Fail(KeyError(dbid))), id)
        else
          var s2 := s1.(bd := Board(s1.bd.players, s1.bd.balls[dbid := ResetBeat(s1.bd.balls[dbid])]));
          (InterferenceStep(ballIds, sd, s2, pid, dbid, tieBreak), dbid)
  }

  /** The state and the classification so far. */
  datatype Counted = Counted(rule: Ruling, tally: Tally)

  /** One pass of the classification loop: the timer step, then the classification of the ball it names. */
  function TallyStep(limit: real, ballIds: seq<Id>, sd: map<Id, seq<(Id, real)>>, s: Ruling, t: Tally, id: Id, dt: real, tieBreak: nat): (r: Counted)
    requires id in s.bd.balls && tieBreak <= 1 && s.out.Pass?
    ensures SameKeys(s.bd, r.rule.bd)
    ensures r.rule.out.Pass? ==> |Listed(r.tally)| == |Listed(t)| + 1
    ensures r.rule.out.Pass? ==> forall x :: x in Listed(r.tally) ==> x in Listed(t) || x in s.bd.balls
  {
    var step := TimerStep(limit, ballIds, sd, s, id, dt, tieBreak);
    var s1 := step.0;
    if s1.out.Fail? then Counted(s1, t)
    else
      var c := Classify(s1.bd.players, s1.bd.balls[step.1], step.1, t);
      if c.Failure? then Counted(s1.(out := Fail(c.error)), t) else Counted(s1, c.value)
  }

  /** The classification loop over `ids`, stopping at an exception. */
  function TallyFrom(limit: real, ballIds: seq<Id>, sd: map<Id, seq<(Id, real)>>, s: Ruling, t: Tally, ids: seq<Id>, dt: real, tieBreak: nat): (r: Counted)
    requires forall id :: id in ids ==> id in s.bd.balls
    requires tieBreak <= 1 && s.out.Pass?
    ensures SameKeys(s.bd, r.rule.bd)
    decreases |ids|
  {
    if ids == [] then Counted(s, t)
    else
      var c := TallyStep(limit, ballIds, sd, s, t, ids[0], dt, tieBreak);
      if c.rule.out.Fail? then c else TallyFrom(limit, ballIds, sd, c.rule, c.tally, ids[1..], dt, tieBreak)
  }

  /** Each pass classifies exactly one ball, so a completed loop classifies as many balls as it visits. */
  lemma {:induction false} TallyCount(limit: real, ballIds: seq<Id>, sd: map<Id, seq<(Id, real)>>, s: Ruling, t: Tally, ids: seq<Id>, dt: real, tieBreak: nat)
    requires forall id :: id in ids ==> id in s.bd.balls
    requires tieBreak <= 1 && s.out.Pass?
    ensures var c := TallyFrom(limit, ballIds, sd, s, t, ids, dt, tieBreak);
            c.rule.out.Pass? ==> |Listed(c.tally)| == |Listed(t)| + |ids|
    decreases |ids|
  {
    if ids != [] {
      var c := TallyStep(limit, ballIds, sd, s, t, ids[0], dt, tieBreak);
      if c.rule.out.Pass? {
        TallyCount(limit, ballIds, sd, c.rule, c.tally, ids[1..], dt, tieBreak);
      }
    }
  }

  /**
    * Without a pending interference the loop only runs timers, and the balls
    * it calls dead are exactly those it met in nobody's possession.
    */
  lemma {:induction false} TallyDeadAreLoose(limit: real, ballIds: seq<Id>, sd: map<Id, seq<(Id, real)>>, s: Ruling, t: Tally, ids: seq<Id>, dt: real, tieBreak: nat)
    requires forall id :: id in ids ==> id in s.bd.balls
    requires tieBreak <= 1 && s.out.Pass? && s.pending.None?
    requires forall x :: x in t.dead ==> x in s.bd.balls && s.bd.balls[x].possessionTeam.None?
    ensures var c := TallyFrom(limit, ballIds, sd, s, t, ids, dt, tieBreak);
            && c.rule.pending.None? && c.rule.third == s.third && c.rule.thirdTeam == s.thirdTeam
            && forall x :: x in c.tally.dead ==> x in c.rule.bd.balls && c.rule.bd.balls[x].possessionTeam.None?
    decreases |ids|
  {
    if ids != [] {
      var c := TallyStep(limit, ballIds, sd, s, t, ids[0], dt, tieBreak);
      var b := s.bd.balls[ids[0]];
      assert forall x :: x in s.bd.balls ==> c.rule.bd.balls[x].possessionTeam == s.bd.balls[x].possessionTeam;
      if c.rule.out.Pass? {
        TallyDeadAreLoose(limit, ballIds, sd, c.rule, c.tally, ids[1..], dt, tieBreak);
      }
    }
  }

  /** `_is_dodgeball_third`: the team the one dead ball is reserved for, when the other team holds both others. */
  function ThirdTeam(t: Tally): Option<int>
  {
    if |t.dead| != 1 then None
    else if |t.hold0| == 2 && |t.hold1| == 0 then Some(1)
    else if |t.hold0| == 0 && |t.hold1| == 2 then Some(0)
    else None
  }

  /**
    * Of three classified dodgeballs, a third dodgeball exists exactly when
    * none is in flight, one is dead and one team holds the other two; it is
    * reserved for the team that holds none.
    */
  lemma ThirdTeamIff(t: Tally, team: int)
    requires |Listed(t)| == 3
    ensures ThirdTeam(t) == Some(team) <==>
              && t.thrown0 == [] && t.thrown1 == [] && |t.dead| == 1
              && ((team == 0 && |t.hold1| == 2) || (team == 1 && |t.hold0| == 2))
  {
  }

  /** The thrown list of `team` in 0 and 1. */
  function ThrownBy(t: Tally, team: int): seq<Id>
  {
    if team == 0 then t.thrown0 else t.thrown1
  }

  /** The held list of `team` in 0 and 1. */
  function HeldBy(t: Tally, team: int): seq<Id>
  {
    if team == 0 then t.hold0 else t.hold1
  }

  /** Starts the beat attempt of a loose dodgeball whose timer is not running. */
  function StartBeat(b: Ball, dt: real): Ball
  {
    if b.kind.Dodgeball? && b.holderId.None? && b.kind.beatAttemptTime == 0.0 then b.(kind := b.kind.(beatAttemptTime := dt)) else b
  }

  /** Starting a beat attempt twice is starting it once. */
  lemma StartBeatIdempotent(b: Ball, dt: real)
    ensures StartBeat(StartBeat(b, dt), dt) == StartBeat(b, dt)
  {
  }

  /** `StartBeat` applied to every listed ball. */
  function StartBeats(balls: map<Id, Ball>, ids: seq<Id>, dt: real): (r: map<Id, Ball>)
    ensures r.Keys == balls.Keys
  {
    map id | id in balls :: if id in ids then StartBeat(balls[id], dt) else balls[id]
  }

  /**
    * After classifying: with no third dodgeball, one is designated when
    * `ThirdTeam` finds one; with one, it is lifted as soon as the team it is
    * reserved for holds or has thrown a dodgeball (timers and pending
    * interference reset), and otherwise the beat attempts of the other team's
    * thrown dodgeballs are started. A team other than 0 and 1 has no list.
    */
  function Settle(ballIds: seq<Id>, s: Ruling, t: Tally, dt: real): (r: Ruling)
    ensures SameKeys(s.bd, r.bd)
  {
    if s.third.None? then
      var team := ThirdTeam(t);
      if team.None? then s else s.(third := Some(t.dead[0]), thirdTeam := team)
    else if s.thirdTeam.None? then s.(out := Fail(KeyError("hold_dodgeballs_None")))
    else
      var team := s.thirdTeam.value;
      if team != 0 && team != 1 then s.(out := Fail(KeyError("hold_dodgeballs_" + IntToString(team))))
      else if |HeldBy(t, team) + ThrownBy(t, team)| > 0 then
        var balls := s.bd.balls;
        s.(bd := Board(s.bd.players, ResetBeatTimes(balls, DodgeballsIn(ballIds, balls))), third := None, thirdTeam := None, pending := None)
      else
        s.(bd := Board(s.bd.players, StartBeats(s.bd.balls, ThrownBy(t, if team == 0 then 1 else 0), dt)))
  }

  /**
    * `_check_third_dodgeball`: with exactly three dodgeballs, classify them
    * (running beat timers and a due interference on the way), then settle
    * the third-dodgeball state; with any other number nothing happens.
    */
  function ThirdDodgeball(limit: real, ballIds: seq<Id>, sd: map<Id, seq<(Id, real)>>, s: Ruling, dt: real, tieBreak: nat): (r: Ruling)
    requires tieBreak <= 1 && s.out.Pass?
    ensures SameKeys(s.bd, r.bd)
    ensures |DodgeballsIn(ballIds, s.bd.balls)| != 3 ==> r == s
  {
    var ids := DodgeballsIn(ballIds, s.bd.balls);
    if |ids| != 3 then s
    else
      var c := TallyFrom(limit, ballIds, sd, s, NoTally, ids, dt, tieBreak);
      if c.rule.out.Fail? then c.rule
      else Settle(ballIds, c.rule, c.tally, dt)
  }

  /**
    * A newly designated third dodgeball, when no interference was pending,
    * is a dodgeball in nobody's possession, reserved for team 0 or 1, and no
    * dodgeball is in flight.
    */
  lemma ThirdIsLoose(limit: real, ballIds: seq<Id>, sd: map<Id, seq<(Id, real)>>, s: Ruling, dt: real, tieBreak: nat)
    requires tieBreak <= 1 && s.out.Pass? && s.third.None? && s.pending.None?
    ensures var r := ThirdDodgeball(limit, ballIds, sd, s, dt, tieBreak);
            r.out.Pass? && r.third.Some? ==>
              && r.third.value in r.bd.balls && r.bd.balls[r.third.value].possessionTeam.None?
              && (r.thirdTeam == Some(0) || r.thirdTeam == Some(1))
  {
    var ids := DodgeballsIn(ballIds, s.bd.balls);
    if |ids| == 3 {
      TallyDeadAreLoose(limit, ballIds, sd, s, NoTally, ids, dt, tieBreak);
    }
  }

  /**
    * The third dodgeball is lifted once the team it is reserved for holds or
    * has thrown a dodgeball: the state is cleared and every beat timer is 0.
    */
  lemma ThirdLifts(ballIds: seq<Id>, s: Ruling, t: Tally, dt: real)
    requires s.third.Some? && (s.thirdTeam == Some(0) || s.thirdTeam == Some(1))
    requires |HeldBy(t, s.thirdTeam.value)| + |ThrownBy(t, s.thirdTeam.value)| > 0
    ensures var r := Settle(ballIds, s, t, dt);
            && r.out == s.out && r.third.None? && r.thirdTeam.None? && r.pending.None?
            && r.bd.players == s.bd.players
            && forall id :: id in ballIds && id in r.bd.balls && IsDodgeball(r.bd.balls[id]) ==> r.bd.balls[id].kind.beatAttemptTime == 0.0
  {
    var r := Settle(ballIds, s, t, dt);
    forall id | id in ballIds && id in r.bd.balls && IsDodgeball(r.bd.balls[id])
      ensures r.bd.balls[id].kind.beatAttemptTime == 0.0
    {
      assert id in DodgeballsIn(ballIds, s.bd.balls);
    }
  }

  /**
    * While the team it is reserved for has no dodgeball, the third dodgeball
    * stays, and the other team's thrown, loose dodgeballs whose timer is at 0
    * start their beat attempt at `dt`; nothing else changes.
    */
  lemma ThirdStays(ballIds: seq<Id>, s: Ruling, t: Tally, dt: real)
    requires s.third.Some? && (s.thirdTeam == Some(0) || s.thirdTeam == Some(1))
    requires HeldBy(t, s.thirdTeam.value) == [] && ThrownBy(t, s.thirdTeam.value) == []
    ensures var r := Settle(ballIds, s, t, dt); var other := 1 - s.thirdTeam.value;
            && r == s.(bd := r.bd)
            && r.bd.players == s.bd.players
            && forall id :: id in s.bd.balls ==>
                 if id in ThrownBy(t, other) && IsDodgeball(s.bd.balls[id]) && s.bd.balls[id].holderId.None? && s.bd.balls[id].kind.beatAttemptTime == 0.0
                 then r.bd.balls[id].kind.beatAttemptTime == dt
                 else r.bd.balls[id] == s.bd.balls[id]
  {
  }

  /* ---------------- the component ---------------- */

  /** The dodgeball rules of one game; the interference penalty is delegated to `penalty`. */
  class DodgeballLogic {
    const state: GameState
    const penalty: PenaltyLogic

    constructor (state: GameState, penalty: PenaltyLogic)
      requires penalty.state == state
      ensures this.state == state && this.penalty == penalty
    {
      this.state := state;
      this.penalty := penalty;
    }

    /** `_check_dodgeball_possession_of_player`; `tieBreak` is the draw an interference would make. */
    method TryPossession(pid: Id, dbid: Id, tieBreak: nat) returns (taken: bool, out: Outcome)
      requires penalty.state == state
      requires pid in state.players && dbid in state.balls && tieBreak <= 1
      modifies state`players, state`balls, state`thirdDodgeball, state`thirdDodgeballTeam, state`pendingInterference
      ensures Attempt(taken, state.Ruled(out)) == PossessionAttempt(state.ballIds, state.squaredDistances, old(state.Ruled(Pass)), pid, dbid, tieBreak)
    {
      var p := state.players[pid];
      if !(p.catchCooldown <= 0.0 && p.role == Beater && !Loaded(p.hasBall)) {
        return false, Pass;
      }
      if state.thirdDodgeball == Some(dbid) && state.thirdDodgeballTeam != Some(p.team) {
        out := penalty.ThirdDodgeballInterference(pid, dbid, tieBreak);
        return true, out;
      }
      var db := state.balls[dbid];
      state.balls := state.balls[dbid := db.(holderId := Some(pid), possessionTeam := Some(p.team), turnoverTo := None)];
      state.players := state.players[pid := p.(hasBall := Holding(dbid),
                                               receivingTurnover := if db.turnoverTo.Some? then Some(false) else p.receivingTurnover)];
      return true, Pass;
    }

    /** `_check_beats`; its boolean result is not used by the scan and is not returned. */
    method CheckBeats(sqrt: real -> real, pid: Id, dbid: Id) returns (out: Outcome)
      requires penalty.state == state
      requires pid in state.players && dbid in state.balls
      modifies state`players, state`balls, state`thirdDodgeball, state`thirdDodgeballTeam, state`pendingInterference
      ensures state.Ruled(out) == Beat(sqrt, state.ballIds, old(state.Ruled(Pass)), pid, dbid)
    {
      var p := state.players[pid];
      var db := state.balls[dbid];
      if db.holderId.Some? {
        return Pass;
      }
      if db.possessionTeam == Some(p.team) || p.dodgeballImmunity {
        if db.previousThrowerId == Some(pid) && p.catchCooldown > 0.0 {
          return Pass;
        }
        out := DeflectOff(sqrt, pid, dbid);
        return;
      }
      out := KnockOut(sqrt, pid, dbid);
    }

    /** The deflection branch of `_check_beats`. */
    method DeflectOff(sqrt: real -> real, pid: Id, dbid: Id) returns (out: Outcome)
      requires pid in state.players && dbid in state.balls
      modifies state`balls
      ensures state.Ruled(out) == Deflection(sqrt, old(state.Ruled(Pass)), pid, dbid)
    {
      var loose := state.balls[dbid].(possessionTeam := None);
      state.balls := state.balls[dbid := loose];
      var v := Deflect(sqrt, loose, state.players[pid]);
      if v.Failure? {
        return Fail(v.error);
      }
      state.balls := state.balls[dbid := loose.(velocity := v.value)];
      return Pass;
    }

    /** The knock-out branch of `_check_beats`. */
    method KnockOut(sqrt: real -> real, pid: Id, dbid: Id) returns (out: Outcome)
      requires penalty.state == state
      requires pid in state.players && dbid in state.balls
      modifies state`players, state`balls, state`thirdDodgeball, state`thirdDodgeballTeam, state`pendingInterference
      ensures state.Ruled(out) == Knockout(sqrt, state.ballIds, old(state.Ruled(Pass)), pid, dbid)
    {
      var p := state.players[pid];
      state.players := state.players[pid := p.(isKnockedOut := true)];
      if Loaded(p.hasBall) {
        var bid := p.hasBall.ballId;
        if bid !in state.balls {
          return Fail(AttributeError("holder_id"));
        }
        state.balls := state.balls[bid := state.balls[bid].(holderId := None, velocity := Zero, possessionTeam := None)];
        state.players := state.players[pid := state.players[pid].(hasBall := Dropped)];
      }
      var hit := state.balls[dbid];
      var v := Deflect(sqrt, hit, p);
      if v.Failure? {
        return Fail(v.error);
      }
      state.balls := state.balls[dbid := hit.(velocity := v.value)];
      penalty.ResetBeatTimers();
      state.pendingInterference := None;
      state.thirdDodgeball := None;
      state.thirdDodgeballTeam := None;
      return Pass;
    }

    /** One entry of the scan of `_check_dodgeball_interactions`; `stop` is its `break`. */
    method EntryAt(sqrt: real -> real, dbid: Id, e: (Id, real), tieBreak: nat) returns (stop: bool, out: Outcome)
      requires penalty.state == state
      requires dbid in state.balls && tieBreak <= 1
      modifies state`players, state`balls, state`thirdDodgeball, state`thirdDodgeballTeam, state`pendingInterference
      ensures Attempt(stop, state.Ruled(out)) == EntryStep(sqrt, state.ballIds, state.squaredDistances, old(state.Ruled(Pass)), dbid, e, tieBreak)
    {
      var reaction := React(state.Tables(), dbid, e);
      match reaction {
        case Ignore =>
          return false, Pass;
        case Possess =>
          stop, out := TryPossession(e.0, dbid, tieBreak);
        case Unflagged =>
          return false, Fail(AttributeError(ReceivingFlag));
        case Beaten =>
          out := CheckBeats(sqrt, e.0, dbid);
          stop := false;
      }
    }

    /** The scan over one dodgeball's nearest-first list. */
    method ScanDodgeball(sqrt: real -> real, dbid: Id, tieBreak: nat) returns (out: Outcome)
      requires penalty.state == state
      requires dbid in state.balls && tieBreak <= 1
      modifies state`players, state`balls, state`thirdDodgeball, state`thirdDodgeballTeam, state`pendingInterference
      ensures state.Ruled(out) == DodgeRow(sqrt, state.ballIds, state.squaredDistances, old(state.Ruled(Pass)), dbid, DistancesOf(state.squaredDistances, dbid), tieBreak)
    {
      var entries := DistancesOf(state.squaredDistances, dbid);
      ghost var s0 := state.Ruled(Pass);
      var k := 0;
      while k < |entries|
        invariant 0 <= k <= |entries|
        invariant dbid in state.balls
        invariant DodgeRow(sqrt, state.ballIds, state.squaredDistances, s0, dbid, entries, tieBreak)
                  == DodgeRow(sqrt, state.ballIds, state.squaredDistances, state.Ruled(Pass), dbid, entries[k..], tieBreak)
      {
        assert entries[k..][0] == entries[k] && entries[k..][1..] == entries[k + 1..];
        var stop;
        stop, out := EntryAt(sqrt, dbid, entries[k], tieBreak);
        if out.Fail? || stop {
          return;
        }
        k := k + 1;
      }
      return Pass;
    }

    /** `_check_dodgeball_interactions`. */
    method CheckDodgeballInteractions(sqrt: real -> real, tieBreak: nat) returns (out: Outcome)
      requires penalty.state == state
      requires tieBreak <= 1
      modifies state`players, state`balls, state`thirdDodgeball, state`thirdDodgeballTeam, state`pendingInterference
      ensures state.Ruled(out) == Interactions(sqrt, state.ballIds, state.squaredDistances, old(state.Ruled(Pass)), tieBreak)
    {
      var ids := DodgeballsIn(state.ballIds, state.balls);
      ghost var s0 := state.Ruled(Pass);
      ghost var keys := state.balls.Keys;
      var i := 0;
      while i < |ids|
        invariant 0 <= i <= |ids|
        invariant state.balls.Keys == keys
        invariant forall id :: id in ids ==> id in keys
        invariant DodgeballsFrom(sqrt, state.ballIds, state.squaredDistances, s0, ids, tieBreak)
                  == DodgeballsFrom(sqrt, state.ballIds, state.squaredDistances, state.Ruled(Pass), ids[i..], tieBreak)
      {
        assert ids[i..][0] == ids[i] && ids[i..][1..] == ids[i + 1..];
        out := ScanDodgeball(sqrt, ids[i], tieBreak);
        if out.Fail? {
          return;
        }
        i := i + 1;
      }
      return Pass;
    }

    /** One pass of the classification loop of `_check_third_dodgeball`. */
    method TallyAt(dt: real, id: Id, t: Tally, tieBreak: nat) returns (t': Tally, out: Outcome)
      requires penalty.state == state
      requires id in state.balls && tieBreak <= 1
      modifies state`players, state`balls, state`thirdDodgeball, state`thirdDodgeballTeam, state`pendingInterference
      ensures Counted(state.Ruled(out), t') == TallyStep(state.cfg.beatAttemptTimeLimit, state.ballIds, state.squaredDistances, old(state.Ruled(Pass)), t, id, dt, tieBreak)
    {
      var cid := id;
      var b := state.balls[id];
      if b.kind.Dodgeball? && b.kind.beatAttemptTime > 0.0 {
        var time := b.kind.beatAttemptTime + dt;
        state.balls := state.balls[id := b.(kind := b.kind.(beatAttemptTime := time))];
        if time > state.cfg.beatAttemptTimeLimit && state.pendingInterference.Some? {
          var pid := state.pendingInterference.value.playerId;
          var dbid := state.pendingInterference.value.dodgeballId;
          if pid !in state.players {
            return t, Fail(KeyError(pid));
          }
          if dbid !in state.balls {
            return t, Fail(KeyError(dbid));
          }
          state.balls := state.balls[dbid := ResetBeat(state.balls[dbid])];
          out := penalty.ThirdDodgeballInterference(pid, dbid, tieBreak);
          if out.Fail? {
            return t, out;
          }
          cid := dbid;
        }
      }
      var c := Classify(state.players, state.balls[cid], cid, t);
      if c.Failure? {
        return t, Fail(c.error);
      }
      return c.value, Pass;
    }

    /** `_check_third_dodgeball`. */
    method CheckThirdDodgeball(dt: real, tieBreak: nat) returns (out: Outcome)
      requires penalty.state == state
      requires tieBreak <= 1
      modifies state`players, state`balls, state`thirdDodgeball, state`thirdDodgeballTeam, state`pendingInterference
      ensures state.Ruled(out) == ThirdDodgeball(state.cfg.beatAttemptTimeLimit, state.ballIds, state.squaredDistances, old(state.Ruled(Pass)), dt, tieBreak)
    {
      var ids := DodgeballsIn(state.ballIds, state.balls);
      if |ids| != 3 {
        return Pass;
      }
      var t;
      t, out := ClassifyAll(ids, dt, tieBreak);
      if out.Fail? {
        return;
      }
      out := SettleThird(t, dt);
    }

    /** The classification loop of `_check_third_dodgeball`, stopping at an exception. */
    method ClassifyAll(ids: seq<Id>, dt: real, tieBreak: nat) returns (t: Tally, out: Outcome)
      requires penalty.state == state
      requires tieBreak <= 1
      requires forall id :: id in ids ==> id in state.balls
      modifies state`players, state`balls, state`thirdDodgeball, state`thirdDodgeballTeam, state`pendingInterference
      ensures Counted(state.Ruled(out), t) == TallyFrom(state.cfg.beatAttemptTimeLimit, state.ballIds, state.squaredDistances, old(state.Ruled(Pass)), NoTally, ids, dt, tieBreak)
      ensures out.Pass? ==> forall x :: x in Listed(t) ==> x in state.balls
    {
      ghost var s0 := state.Ruled(Pass);
      ghost var keys := state.balls.Keys;
      t := NoTally;
      out := Pass;
      var i := 0;
      while i < |ids|
        invariant 0 <= i <= |ids|
        invariant state.balls.Keys == keys && out == Pass
        invariant forall x :: x in Listed(t) ==> x in keys
        invariant TallyFrom(state.cfg.beatAttemptTimeLimit, state.ballIds, state.squaredDistances, s0, NoTally, ids, dt, tieBreak)
                  == TallyFrom(state.cfg.beatAttemptTimeLimit, state.ballIds, state.squaredDistances, state.Ruled(Pass), t, ids[i..], dt, tieBreak)
      {
        assert ids[i..][0] == ids[i] && ids[i..][1..] == ids[i + 1..];
        t, out := TallyAt(dt, ids[i], t, tieBreak);
        if out.Fail? {
          return;
        }
        i := i + 1;
      }
      assert ids[i..] == [];
    }

    /** The designation, lifting or keeping of the third dodgeball that ends `_check_third_dodgeball`. */
    method SettleThird(t: Tally, dt: real) returns (out: Outcome)
      requires penalty.state == state
      requires forall x :: x in Listed(t) ==> x in state.balls
      modifies state`balls, state`thirdDodgeball, state`thirdDodgeballTeam, state`pendingInterference
      ensures state.Ruled(out) == Settle(state.ballIds, old(state.Ruled(Pass)), t, dt)
    {
      if state.thirdDodgeball.None? {
        var team := ThirdTeam(t);
        if team.Some? {
          state.thirdDodgeballTeam := team;
          state.thirdDodgeball := Some(t.dead[0]);
        }
        return Pass;
      }
      if state.thirdDodgeballTeam.None? {
        return Fail(KeyError("hold_dodgeballs_None"));
      }
      var team := state.thirdDodgeballTeam.value;
      if team != 0 && team != 1 {
        return Fail(KeyError("hold_dodgeballs_" + IntToString(team)));
      }
      if |HeldBy(t, team) + ThrownBy(t, team)| > 0 {
        state.thirdDodgeball := None;
        state.thirdDodgeballTeam := None;
        penalty.ResetBeatTimers();
        state.pendingInterference := None;
        return Pass;
      }
      StartBeatAttempts(ThrownBy(t, if team == 0 then 1 else 0), dt);
      return Pass;
    }

    /** The loop of `is_still_third_dodgeball` that starts the beat attempts of thrown dodgeballs. */
    method StartBeatAttempts(ids: seq<Id>, dt: real)
      requires forall id :: id in ids ==> id in state.balls
      modifies state`balls
      ensures state.balls == StartBeats(old(state.balls), ids, dt)
    {
      ghost var balls := state.balls;
      var i := 0;
      while i < |ids|
        invariant 0 <= i <= |ids|
        invariant state.balls == StartBeats(balls, ids[..i], dt)
      {
        assert ids[..i + 1] == ids[..i] + [ids[i]];
        StartBeatIdempotent(balls[ids[i]], dt);
        state.balls := state.balls[ids[i] := StartBeat(state.balls[ids[i]], dt)];
        i := i + 1;
      }
      assert ids[..i] == ids;
    }
  }
}
