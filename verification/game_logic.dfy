/**
  * The frame update: the logic components wired to one shared state, and the
  * fixed order in which one frame runs them. Each stage is the step function
  * of its component applied to the state the previous stage left; an
  * exception ends the frame where it is raised.
  */
module Game {
  import opened Wrappers
  import opened Entities
  import opened State
  import Basic
  import Contact
  import FreeWays
  import Boundary
  import VolleyballRules
  import DodgeballRules
  import Penalty
  import Utility
  import ProcessAction

  /**
    * What the host's random number generator supplies to one frame: the
    * jitter and turning side of the free ways, and the coin flips of the
    * dodgeball possession ties and the third-dodgeball check. `jitter(i, id)`
    * is the draw for player `id` in scan `i`: 0 and 1 are the two inbounding
    * scans, `2 + k` is pass `k` of the keeper free way.
    */
  datatype Draws = Draws(jitter: (nat, Id) -> (real, real), sign: Id -> real, interactionTieBreak: nat, thirdTieBreak: nat)

  /** A coin flip is 0 or 1. */
  predicate Coins(dr: Draws)
  {
    dr.interactionTieBreak <= 1 && dr.thirdTieBreak <= 1
  }

  /** A state and whether the stages that produced it raised. */
  datatype Frame = Frame(w: World, out: Outcome)

  function WithBoard(w: World, m: Moved): Frame
  {
    Frame(w.(players := m.bd.players, balls := m.bd.balls), m.out)
  }

  function RulingOf(w: World): Ruling
  {
    Ruling(BoardOf(w), w.thirdDodgeball, w.thirdDodgeballTeam, w.pendingInterference, Pass)
  }

  function WithRuling(w: World, r: Ruling): Frame
  {
    Frame(w.(players := r.bd.players, balls := r.bd.balls, thirdDodgeball := r.third,
             thirdDodgeballTeam := r.thirdTeam, pendingInterference := r.pending), r.out)
  }

  /**
    * What no stage but the clock changes: the configuration, the keys of the
    * tables and their orders, the hoops, the set score and phase, and the clock.
    */
  predicate Kept(w: World, w': World)
  {
    && w'.cfg == w.cfg && w'.playerIds == w.playerIds && w'.ballIds == w.ballIds
    && w'.players.Keys == w.players.Keys && w'.balls.Keys == w.balls.Keys
    && w'.hoops == w.hoops && w'.hoopIds == w.hoopIds
    && w'.setScore == w.setScore && w'.gamePhase == w.gamePhase
    && w'.gameTime == w.gameTime && w'.seekerOnPitch == w.seekerOnPitch
  }

  /* ---------------- the stages of a frame, in order ---------------- */

  function PlayerVelocities(sqrt: real -> real, dt: real, w: World): (r: Frame)
    ensures Kept(w, r.w)
  {
    WithBoard(w, Basic.SteerAll(sqrt, w.cfg, w.hoops, Basic.VolleyballValue(w.ballIds, w.balls), dt, BoardOf(w), w.playerIds))
  }

  function PlayerCollisions(sqrt: real -> real, w: World): (r: World)
    requires Valid(w)
    ensures Kept(w, r)
  {
    w.(players := Contact.ResolveContacts(sqrt, w.players, w.playerIds, w.squaredDistances))
  }

  function BallVelocities(sqrt: real -> real, dt: real, w: World): (r: Frame)
    ensures Kept(w, r.w)
  {
    WithBoard(w, Basic.BallsStep(sqrt, w.squaredDistances, dt, BoardOf(w), w.ballIds))
  }

  function UpdatePositions(dt: real, w: World): (r: World)
    ensures Kept(w, r)
  {
    var bd := Basic.Positions(w.cfg, BoardOf(w), dt);
    w.(players := bd.players, balls := bd.balls)
  }

  function InboundingFreeWay(sqrt: real -> real, dt: real, dr: Draws, w: World): (r: Frame)
    ensures Kept(w, r.w)
  {
    WithBoard(w, FreeWays.ClearForInbounder(sqrt, w.ballIds, w.squaredDistances, BoardOf(w), dt, dr.jitter, dr.sign))
  }

  function KeeperFreeWay(sqrt: real -> real, dt: real, dr: Draws, w: World): (r: Frame)
    ensures Kept(w, r.w)
  {
    WithBoard(w, FreeWays.ClearForKeeper(sqrt, w.playerIds, w.ballIds, w.squaredDistances, BoardOf(w), dt, dr.jitter))
  }

  function HoopBlockage(w: World): (r: Frame)
    requires Valid(w)
    ensures Kept(w, r.w)
  {
    WithBoard(w, Boundary.HoopBlockage(BoardOf(w), w.hoops, w.hoopIds, w.playerIds, w.ballIds))
  }

  function VolleyballAlive(w: World): (r: Frame)
    ensures Kept(w, r.w)
  {
    var r := VolleyballRules.MakeAlive(w);
    if r.Failure? then Frame(w, Fail(r.error)) else Frame(w.(balls := r.value), Pass)
  }

  function BallCollisions(sqrt: real -> real, w: World): (r: Frame)
    ensures Kept(w, r.w)
  {
    var c := Basic.CollideAll(sqrt, w.squaredDistancesDicts, w.balls, w.ballIds);
    Frame(w.(balls := c.balls), c.out)
  }

  function VolleyballPossessions(w: World): (r: World)
    ensures Kept(w, r)
  {
    var bd := VolleyballRules.Possessions(BoardOf(w), w.ballIds, w.squaredDistances);
    w.(players := bd.players, balls := bd.balls)
  }

  function DodgeballInteractions(sqrt: real -> real, dr: Draws, w: World): (r: Frame)
    requires Coins(dr)
    ensures Kept(w, r.w)
  {
    WithRuling(w, DodgeballRules.Interactions(sqrt, w.ballIds, w.squaredDistances, RulingOf(w), dr.interactionTieBreak))
  }

  function Goals(sqrt: real -> real, w: World): (r: Frame)
    ensures Kept(w, r.w)
  {
    var g := VolleyballRules.Goals(sqrt, w);
    Frame(w.(balls := g.balls, score := g.score), g.out)
  }

  function ThirdDodgeball(dt: real, dr: Draws, w: World): (r: Frame)
    requires Coins(dr)
    ensures Kept(w, r.w)
  {
    WithRuling(w, DodgeballRules.ThirdDodgeball(w.cfg.beatAttemptTimeLimit, w.ballIds, w.squaredDistances, RulingOf(w), dt, dr.thirdTieBreak))
  }

  function DelayOfGame(dt: real, w: World): (r: Frame)
    ensures Kept(w, r.w)
  {
    var d := Penalty.DelayOfGame(w, dt);
    Frame(w.(players := d.bd.players, balls := d.bd.balls, delayWarnings := d.warnings), d.out)
  }

  function PitchBoundaries(w: World): (r: Frame)
    requires Valid(w)
    ensures Kept(w, r.w)
  {
    WithBoard(w, Boundary.PitchClamp(w.cfg, w.playerIds, w.ballIds, w.squaredDistances, BoardOf(w)))
  }

  /** A state with the same keys and key orders as a valid one is valid. */
  lemma KeptValid(w: World, w': World)
    requires Valid(w) && Kept(w, w')
    ensures Valid(w')
  {
  }

  /**
    * The stages before the distance tables are rebuilt, from the clock to the
    * revival of the volleyball, up to the first one that raises.
    */
  function Movement(sqrt: real -> real, dr: Draws, dt: real, w: World): (r: Frame)
    requires Valid(w)
    ensures Kept(AdvanceClock(w, dt), r.w)
  {
    var w1 := AdvanceClock(w, dt);
    var f2 := PlayerVelocities(sqrt, dt, w1);
    if f2.out.Fail? then f2 else
    KeptValid(w1, f2.w);
    var w3 := PlayerCollisions(sqrt, f2.w);
    var f4 := BallVelocities(sqrt, dt, w3);
    if f4.out.Fail? then f4 else
    var w5 := UpdatePositions(dt, f4.w);
    var f6 := InboundingFreeWay(sqrt, dt, dr, w5);
    if f6.out.Fail? then f6 else
    var f7 := KeeperFreeWay(sqrt, dt, dr, f6.w);
    if f7.out.Fail? then f7 else
    KeptValid(w1, f7.w);
    var f8 := HoopBlockage(f7.w);
    if f8.out.Fail? then f8 else
    VolleyballAlive(f8.w)
  }

  /** The contests for the balls: collisions between balls, volleyball possessions and the dodgeball interactions. */
  function Contests(sqrt: real -> real, dr: Draws, w: World): (r: Frame)
    requires Coins(dr)
    ensures Kept(w, r.w)
  {
    var f1 := BallCollisions(sqrt, w);
    if f1.out.Fail? then f1 else
    var w2 := VolleyballPossessions(f1.w);
    DodgeballInteractions(sqrt, dr, w2)
  }

  /** The referee's calls: goals, the third-dodgeball rule and delay of game. */
  function Judgements(sqrt: real -> real, dr: Draws, dt: real, w: World): (r: Frame)
    requires Coins(dr)
    ensures Kept(w, r.w)
  {
    var f1 := Goals(sqrt, w);
    if f1.out.Fail? then f1 else
    var f2 := ThirdDodgeball(dt, dr, f1.w);
    if f2.out.Fail? then f2 else
    DelayOfGame(dt, f2.w)
  }

  /** The stages after the distance tables are rebuilt, which read them, up to the pitch clamp. */
  function Rules(sqrt: real -> real, dr: Draws, dt: real, w: World): (r: Frame)
    requires Coins(dr)
    ensures Kept(w, r.w)
  {
    var f := Contests(sqrt, dr, w);
    if f.out.Fail? then f else Judgements(sqrt, dr, dt, f.w)
  }

  /** The second half of the frame: the rules, then the pitch clamp. */
  function Rulings(sqrt: real -> real, dr: Draws, dt: real, w: World): (r: Frame)
    requires Valid(w) && Coins(dr)
    ensures Kept(w, r.w)
  {
    var f := Rules(sqrt, dr, dt, w);
    KeptValid(w, f.w);
    if f.out.Fail? then f else PitchBoundaries(f.w)
  }

  /**
    * `_calculate_distances` between the two halves of the frame: the nested
    * tables become `Distances` of the state, each entity's list is its table
    * sorted nearest first, the lists of other ids stay, and nothing else changes.
    */
  ghost predicate Measured(w: World, w': World)
    requires Valid(w)
  {
    && w' == w.(squaredDistancesDicts := Utility.Distances(w), squaredDistances := w'.squaredDistances)
    && (forall id :: id in w.players || id in w.balls ==>
          id in w'.squaredDistances && Utility.IsSortedItems(w'.squaredDistances[id], w'.squaredDistancesDicts[id]))
    && (forall id :: !(id in w.players || id in w.balls) ==>
          (id in w'.squaredDistances <==> id in w.squaredDistances)
          && (id in w'.squaredDistances ==> w'.squaredDistances[id] == w.squaredDistances[id]))
  }

  /**
    * When the second half of a frame completes, every ball ends inside the
    * pitch, given room for its radius in the state the clamp starts from;
    * when that state also has no player in contact, so do all players.
    */
  lemma {:induction false} FrameEndsInBounds(sqrt: real -> real, dr: Draws, dt: real, m: World)
    requires Valid(m) && Coins(dr)
    requires var pre := Rules(sqrt, dr, dt, m).w;
             && (forall id :: id in pre.balls ==> Boundary.Roomy(pre.cfg, pre.balls[id].radius))
             && (forall id :: id in pre.players ==> Boundary.Roomy(pre.cfg, pre.players[id].radius))
    ensures var r := Rulings(sqrt, dr, dt, m);
            && (r.out.Pass? ==> forall id :: id in r.w.balls ==> Boundary.InBounds(m.cfg, r.w.balls[id].position, r.w.balls[id].radius))
            && (var pre := Rules(sqrt, dr, dt, m).w;
                (forall id :: id in pre.players ==> pre.players[id].inContact == []) && r.out.Pass? ==>
                  forall id :: id in r.w.players ==> Boundary.InBounds(m.cfg, r.w.players[id].position, r.w.players[id].radius))
  {
    var f := Rules(sqrt, dr, dt, m);
    if f.out.Pass? {
      var pre := f.w;
      Boundary.PitchClampInBounds(pre.cfg, pre.playerIds, pre.ballIds, pre.squaredDistances, BoardOf(pre));
    }
  }

  /** Every id of `ids` gets a fresh empty distance table; every other entry stays. */
  function Reset(d: Utility.Table, ids: seq<Id>): (r: Utility.Table)
    ensures r.Keys == d.Keys + set id | id in ids
    ensures forall id :: id in ids ==> r[id] == map[]
    ensures forall id :: id in d && id !in ids ==> r[id] == d[id]
  {
    if ids == [] then d else Reset(d, ids[..|ids| - 1])[ids[|ids| - 1] := map[]]
  }

  /* ---------------- the component ---------------- */

  class GameLogic {
    const state: GameState
    const penalty: Penalty.PenaltyLogic
    const basic: Basic.BasicLogic
    const dodgeball: DodgeballRules.DodgeballLogic
    const volleyball: VolleyballRules.VolleyballLogic
    const contact: Contact.PhysicalContactLogic
    const boundary: Boundary.BoundaryLogic
    const actions: ProcessAction.ProcessActionLogic
    const utility: Utility.UtilityLogic

    /** Every component works on this state, and the two that designate turnovers share one penalty component. */
    predicate Wired()
    {
      && penalty.state == state
      && basic.state == state && basic.penalty == penalty
      && dodgeball.state == state && dodgeball.penalty == penalty
      && volleyball.state == state && contact.state == state && boundary.state == state
      && actions.state == state && utility.state == state
    }

    /** Every player and ball gets an empty distance table, then the components are built on the state. */
    constructor (state: GameState)
      modifies state
      ensures this.state == state && Wired()
      ensures state.Snapshot()
              == old(state.Snapshot()).(squaredDistancesDicts := Reset(old(state.squaredDistancesDicts), old(state.playerIds + state.ballIds)))
    {
      this.state := state;
      var ids := state.playerIds + state.ballIds;
      ResetTables(state, ids);
      ghost var reset := state.Snapshot();
      assert reset == old(state.Snapshot()).(squaredDistancesDicts := Reset(old(state.squaredDistancesDicts), ids));
      var penalty := new Penalty.PenaltyLogic(state);
      this.penalty := penalty;
      basic := new Basic.BasicLogic(state, penalty);
      dodgeball := new DodgeballRules.DodgeballLogic(state, penalty);
      volleyball := new VolleyballRules.VolleyballLogic(state);
      contact := new Contact.PhysicalContactLogic(state);
      boundary := new Boundary.BoundaryLogic(state);
      actions := new ProcessAction.ProcessActionLogic(state);
      utility := new Utility.UtilityLogic(state);
      assert state.Snapshot() == reset;
    }

    /** The empty distance table of each entity, written in order. */
    static method ResetTables(state: GameState, ids: seq<Id>)
      modifies state`squaredDistancesDicts
      ensures state.squaredDistancesDicts == Reset(old(state.squaredDistancesDicts), ids)
    {
      var i := 0;
      while i < |ids|
        invariant 0 <= i <= |ids|
        invariant state.squaredDistancesDicts == Reset(old(state.squaredDistancesDicts), ids[..i])
      {
        assert ids[..i + 1][..i] == ids[..i];
        state.squaredDistancesDicts := state.squaredDistancesDicts[ids[i] := map[]];
        i := i + 1;
      }
      assert ids[..i] == ids;
    }

    /**
      * `update`: one frame. The first half runs as `Movement` says; when it
      * completes the distance tables are rebuilt (`measured` is the state
      * that leaves) and the second half runs as `Rulings` says.
      */
    method Update(sqrt: real -> real, dt: real, dr: Draws) returns (out: Outcome, ghost measured: World)
      requires Wired() && Valid(state.Snapshot()) && Coins(dr)
      modifies state
      ensures var m := Movement(sqrt, dr, dt, old(state.Snapshot()));
              && (m.out.Fail? ==> Frame(state.Snapshot(), out) == m)
              && (m.out.Pass? ==> Valid(m.w) && Measured(m.w, measured) && Valid(measured)
                                  && Frame(state.Snapshot(), out) == Rulings(sqrt, dr, dt, measured))
    {
      ghost var w := state.Snapshot();
      ghost var m := Movement(sqrt, dr, dt, w);
      measured := w;
      out := Move(sqrt, dt, dr);
      assert Frame(state.Snapshot(), out) == m;
      if out.Fail? { return; }
      KeptValid(AdvanceClock(w, dt), m.w);
      Measure();
      measured := state.Snapshot();
      KeptValid(m.w, measured);
      out := Rule(sqrt, dt, dr);
      assert Frame(state.Snapshot(), out) == Rulings(sqrt, dr, dt, measured);
    }

    /** `_calculate_distances`, as the frame sees it. */
    method Measure()
      requires Wired() && Valid(state.Snapshot())
      modifies state
      ensures Measured(old(state.Snapshot()), state.Snapshot())
    {
      utility.CalculateDistances();
    }

    /** The calls of `update` before `_calculate_distances`. */
    method Move(sqrt: real -> real, dt: real, dr: Draws) returns (out: Outcome)
      requires Wired() && Valid(state.Snapshot())
      modifies state
      ensures Frame(state.Snapshot(), out) == Movement(sqrt, dr, dt, old(state.Snapshot()))
    {
      state.UpdateGameTime(dt);
      ghost var w1 := state.Snapshot();
      out := StagePlayerVelocities(sqrt, dt);
      if out.Fail? { return; }
      KeptValid(w1, state.Snapshot());
      StagePlayerCollisions(sqrt);
      out := StageBallVelocities(sqrt, dt);
      if out.Fail? { return; }
      StagePositions(dt);
      out := StageInboundingFreeWay(sqrt, dt, dr);
      if out.Fail? { return; }
      out := StageKeeperFreeWay(sqrt, dt, dr);
      if out.Fail? { return; }
      KeptValid(w1, state.Snapshot());
      out := StageHoopBlockage();
      if out.Fail? { return; }
      out := StageVolleyballAlive();
    }

    /** `update_player_velocities`, as the frame sees it. */
    method StagePlayerVelocities(sqrt: real -> real, dt: real) returns (out: Outcome)
      requires Wired()
      modifies state
      ensures Frame(state.Snapshot(), out) == PlayerVelocities(sqrt, dt, old(state.Snapshot()))
    {
      out := basic.UpdatePlayerVelocities(sqrt, dt);
    }

    /** `check_player_collisions`, as the frame sees it. */
    method StagePlayerCollisions(sqrt: real -> real)
      requires Wired() && Valid(state.Snapshot())
      modifies state
      ensures state.Snapshot() == PlayerCollisions(sqrt, old(state.Snapshot()))
    {
      contact.CheckPlayerCollisions(sqrt);
    }

    /** `update_ball_velocities`, as the frame sees it. */
    method StageBallVelocities(sqrt: real -> real, dt: real) returns (out: Outcome)
      requires Wired()
      modifies state
      ensures Frame(state.Snapshot(), out) == BallVelocities(sqrt, dt, old(state.Snapshot()))
    {
      out := basic.UpdateBallVelocities(sqrt, dt);
    }

    /** `update_positions`, as the frame sees it. */
    method StagePositions(dt: real)
      requires Wired()
      modifies state
      ensures state.Snapshot() == UpdatePositions(dt, old(state.Snapshot()))
    {
      basic.UpdatePositions(dt);
    }

    /** `inbounding_free_way`, as the frame sees it. */
    method StageInboundingFreeWay(sqrt: real -> real, dt: real, dr: Draws) returns (out: Outcome)
      requires Wired()
      modifies state
      ensures Frame(state.Snapshot(), out) == InboundingFreeWay(sqrt, dt, dr, old(state.Snapshot()))
    {
      out := boundary.InboundingFreeWay(sqrt, dt, dr.jitter, dr.sign);
    }

    /** `making_alive_keeper_free_way`, as the frame sees it. */
    method StageKeeperFreeWay(sqrt: real -> real, dt: real, dr: Draws) returns (out: Outcome)
      requires Wired()
      modifies state
      ensures Frame(state.Snapshot(), out) == KeeperFreeWay(sqrt, dt, dr, old(state.Snapshot()))
    {
      out := boundary.MakingAliveKeeperFreeWay(sqrt, dt, dr.jitter);
    }

    /** `enforce_hoop_blockage`, as the frame sees it. */
    method StageHoopBlockage() returns (out: Outcome)
      requires Wired() && Valid(state.Snapshot())
      modifies state
      ensures Frame(state.Snapshot(), out) == HoopBlockage(old(state.Snapshot()))
    {
      out := boundary.EnforceHoopBlockage();
    }

    /** `make_volleyball_alive`, as the frame sees it. */
    method StageVolleyballAlive() returns (out: Outcome)
      requires Wired()
      modifies state
      ensures Frame(state.Snapshot(), out) == VolleyballAlive(old(state.Snapshot()))
    {
      out := volleyball.MakeVolleyballAlive();
    }

    /** The calls of `update` after `_calculate_distances`. */
    method Rule(sqrt: real -> real, dt: real, dr: Draws) returns (out: Outcome)
      requires Wired() && Valid(state.Snapshot()) && Coins(dr)
      modifies state
      ensures Frame(state.Snapshot(), out) == Rulings(sqrt, dr, dt, old(state.Snapshot()))
    {
      ghost var w0 := state.Snapshot();
      out := Contest(sqrt, dr);
      if out.Fail? { return; }
      out := Judge(sqrt, dt, dr);
      assert Frame(state.Snapshot(), out) == Rules(sqrt, dr, dt, w0);
      if out.Fail? { return; }
      KeptValid(w0, state.Snapshot());
      out := StagePitchBoundaries();
    }

    /** `enforce_pitch_boundaries`, as the frame sees it. */
    method StagePitchBoundaries() returns (out: Outcome)
      requires Wired() && Valid(state.Snapshot())
      modifies state
      ensures Frame(state.Snapshot(), out) == PitchBoundaries(old(state.Snapshot()))
    {
      out := boundary.EnforcePitchBoundaries();
    }

    /** The ball collisions, volleyball possessions and dodgeball interactions of `update`. */
    method Contest(sqrt: real -> real, dr: Draws) returns (out: Outcome)
      requires Wired() && Coins(dr)
      modifies state
      ensures Frame(state.Snapshot(), out) == Contests(sqrt, dr, old(state.Snapshot()))
    {
      out := StageBallCollisions(sqrt);
      if out.Fail? { return; }
      StageVolleyballPossessions();
      out := StageDodgeballInteractions(sqrt, dr);
    }

    /** `check_ball_collisions`, as the frame sees it. */
    method StageBallCollisions(sqrt: real -> real) returns (out: Outcome)
      requires Wired()
      modifies state
      ensures Frame(state.Snapshot(), out) == BallCollisions(sqrt, old(state.Snapshot()))
    {
      out := basic.CheckBallCollisions(sqrt);
    }

    /** `check_volleyball_possessions`, as the frame sees it. */
    method StageVolleyballPossessions()
      requires Wired()
      modifies state
      ensures state.Snapshot() == VolleyballPossessions(old(state.Snapshot()))
    {
      volleyball.CheckVolleyballPossessions();
    }

    /** `check_dodgeball_interactions`, as the frame sees it. */
    method StageDodgeballInteractions(sqrt: real -> real, dr: Draws) returns (out: Outcome)
      requires Wired() && Coins(dr)
      modifies state
      ensures Frame(state.Snapshot(), out) == DodgeballInteractions(sqrt, dr, old(state.Snapshot()))
    {
      out := dodgeball.CheckDodgeballInteractions(sqrt, dr.interactionTieBreak);
    }

    /** The goal, third-dodgeball and delay-of-game checks of `update`. */
    method Judge(sqrt: real -> real, dt: real, dr: Draws) returns (out: Outcome)
      requires Wired() && Coins(dr)
      modifies state
      ensures Frame(state.Snapshot(), out) == Judgements(sqrt, dr, dt, old(state.Snapshot()))
    {
      out := StageGoals(sqrt);
      if out.Fail? { return; }
      out := StageThirdDodgeball(dt, dr);
      if out.Fail? { return; }
      out := StageDelayOfGame(dt);
    }

    /** `check_goals`, as the frame sees it. */
    method StageGoals(sqrt: real -> real) returns (out: Outcome)
      requires Wired()
      modifies state
      ensures Frame(state.Snapshot(), out) == Goals(sqrt, old(state.Snapshot()))
    {
      out := volleyball.CheckGoals(sqrt);
    }

    /** `check_third_dodgeball`, as the frame sees it. */
    method StageThirdDodgeball(dt: real, dr: Draws) returns (out: Outcome)
      requires Wired() && Coins(dr)
      modifies state
      ensures Frame(state.Snapshot(), out) == ThirdDodgeball(dt, dr, old(state.Snapshot()))
    {
      out := dodgeball.CheckThirdDodgeball(dt, dr.thirdTieBreak);
    }

    /** `check_delay_of_game`, as the frame sees it. */
    method StageDelayOfGame(dt: real) returns (out: Outcome)
      requires Wired()
      modifies state
      ensures Frame(state.Snapshot(), out) == DelayOfGame(dt, old(state.Snapshot()))
    {
      out := penalty.CheckDelayOfGame(dt);
    }
  }
}
