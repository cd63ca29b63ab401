/**
  * The computer player's detour around hoop blockage. The straight segment
  * from a defender to its target is checked against the blockage line on the
  * defender's side of the target hoop and against the top and bottom edges
  * of every defended hoop; the defender is sent to a buffered corner of the
  * earliest blockage it would cross, or straight on when it crosses none.
  * Hoops are assumed upright: their radius runs along y, their blockage
  * half-width `add_hoop_blockage_x` along x.
  */
module ComputerPlayerUtility {
  import opened Wrappers
  import opened Vectors
  import opened Entities

  /** The default `move_buffer_factor` and `tol` of the constructor. */
  const DefaultMoveBufferFactor: real := 1.2
  const DefaultTol: real := 0.01

  /**
    * The arguments of one call: the defender, the point it wants to reach,
    * the hoop whose side decides the blockage line, the blockage half-width,
    * the optional lookahead direction and the `add_target_x_buffer` flag.
    */
  datatype Query = Query(player: Player, target: Vec, targetHoop: Hoop, addX: real,
                         lookahead: Option<Vec>, addTargetXBuffer: bool)

  /** A crossing of the segment: its parameter `t`, the point to aim for, and the hoop crossed. */
  datatype Intercept = Intercept(t: real, x: real, y: real, hoop: Hoop)

  /** `direction_to_target`. */
  function Direction(q: Query): Vec { Sub(q.target, q.player.position) }

  /** `x_pos_position`: the target lies to the right of the target hoop. */
  predicate TargetRight(q: Query) { q.targetHoop.position.x < q.target.x }

  /** The blockage line between the defender and the target: the band edge on the side away from the target. */
  function BlockageX(q: Query): real
  {
    if TargetRight(q) then q.targetHoop.position.x - q.addX else q.targetHoop.position.x + q.addX
  }

  /** `add_x_buffer`: the extra room beyond the blockage line, pointing away from the target. */
  function XBuffer(q: Query, factor: real): real
  {
    if TargetRight(q) then -q.addX * (factor - 1.0) else q.addX * (factor - 1.0)
  }

  /** Defender and target both right of the band, or both left of it: nothing is checked. */
  predicate SameSide(q: Query)
  {
    var hx := q.targetHoop.position.x;
    var px := q.player.position.x;
    (px > hx + q.addX && q.target.x > hx + q.addX) || (px < hx - q.addX && q.target.x < hx - q.addX)
  }

  /** The coordinate `c` moved by `w` stretched by the buffer factor: a buffered corner. */
  function Offset(c: real, w: real, factor: real): real { c + w * factor }

  /** The coordinate at parameter `t` of a segment starting at `start` and moving by `extent`. */
  function Along(start: real, extent: real, t: real): real { start + extent * t }

  /**
    * The parameter at which a coordinate starting at `start` and moving by
    * `extent` over the segment reaches `level`; `None` stands for the
    * infinite parameter of an axis the segment does not move along.
    */
  function LineT(level: real, start: real, extent: real): (r: Option<real>)
    ensures r.Some? <==> extent != 0.0
  {
    if extent != 0.0 then Some((level - start) / extent) else None
  }

  /** A finite parameter does reach the level. */
  lemma LineTReaches(level: real, start: real, extent: real)
    requires extent != 0.0
    ensures Along(start, extent, LineT(level, start, extent).value) == level
  {
    var t := (level - start) / extent;
    assert extent * t == level - start;
  }

  /** A finite parameter inside the segment, up to the tolerance at both ends. */
  predicate Within(t: Option<real>, tol: real)
  {
    t.Some? && -tol < t.value < 1.0 + tol
  }

  /* ---------------- the crossing of the blockage line ---------------- */

  /**
    * The y range of a hoop that blocks the x crossing: from the bottom of the
    * hoop up to `add_hoop_blockage_x` above its centre (the upper bound uses
    * the blockage half-width, not the radius).
    */
  predicate XBand(h: Hoop, y: real, addX: real)
  {
    h.position.y - h.radius <= y <= h.position.y + addX
  }

  /** The index of the first hoop whose x band holds `y`. */
  function FirstInXBand(hoops: seq<Hoop>, y: real, addX: real): (r: Option<nat>)
    ensures r.Some? ==> r.value < |hoops| && XBand(hoops[r.value], y, addX)
                        && forall j :: 0 <= j < r.value ==> !XBand(hoops[j], y, addX)
    ensures r.None? ==> forall j :: 0 <= j < |hoops| ==> !XBand(hoops[j], y, addX)
  {
    if hoops == [] then None
    else if XBand(hoops[0], y, addX) then Some(0)
    else
      match FirstInXBand(hoops[1..], y, addX)
      case None => None
      case Some(k) => Some(k + 1)
  }

  /**
    * `best_x_intercepting`: where the segment crosses the blockage line,
    * recorded against the first hoop whose band holds the crossing; the aim
    * point lies the buffer beyond the line.
    */
  function XHit(hoops: seq<Hoop>, factor: real, tol: real, q: Query): (r: Option<Intercept>)
    ensures r.Some? ==> -tol < r.value.t < 1.0 + tol && r.value.x == BlockageX(q) + XBuffer(q, factor)
  {
    var p := q.player.position;
    var d := Direction(q);
    var t := LineT(BlockageX(q), p.x, d.x);
    if !Within(t, tol) then None
    else
      var y := Along(p.y, d.y, t.value);
      match FirstInXBand(hoops, y, q.addX)
      case None => None
      case Some(k) => Some(Intercept(t.value, BlockageX(q) + XBuffer(q, factor), y, hoops[k]))
  }

  /* ---------------- the crossings of the hoop edges ---------------- */

  /** The two edges of a hoop, as offsets of its centre: top, then bottom. */
  function Edges(h: Hoop): seq<real> { [h.radius, -h.radius] }

  /**
    * Where the segment crosses the edge `off` away from the hoop's centre
    * within the hoop's x band; the aim point is that edge pushed out by the
    * buffer factor.
    */
  function EdgeHit(h: Hoop, off: real, factor: real, tol: real, q: Query): (r: Option<Intercept>)
    ensures r.Some? ==> r.value.hoop == h && -tol < r.value.t < 1.0 + tol && r.value.y == Offset(h.position.y, off, factor)
  {
    var p := q.player.position;
    var d := Direction(q);
    var t := LineT(h.position.y + off, p.y, d.y);
    if !Within(t, tol) then None
    else
      var x := Along(p.x, d.x, t.value);
      if h.position.x - q.addX <= x <= h.position.x + q.addX
      then Some(Intercept(t.value, x, Offset(h.position.y, off, factor), h))
      else None
  }

  /**
    * A line crossing lies on the blockage line, on the segment, and inside
    * the band of the first defended hoop whose band holds it; when there is
    * none although the segment reaches the line, no defended hoop's band
    * holds the crossing point.
    */
  lemma XHitOnLine(hoops: seq<Hoop>, factor: real, tol: real, q: Query)
    ensures var r := XHit(hoops, factor, tol, q);
            var p := q.player.position;
            var d := Direction(q);
            r.Some? ==>
              && Along(p.x, d.x, r.value.t) == BlockageX(q)
              && r.value.y == Along(p.y, d.y, r.value.t)
              && r.value.hoop in hoops
              && XBand(r.value.hoop, r.value.y, q.addX)
              && exists k :: 0 <= k < |hoops| && hoops[k] == r.value.hoop && forall j :: 0 <= j < k ==> !XBand(hoops[j], r.value.y, q.addX)
    ensures var p := q.player.position;
            var d := Direction(q);
            var t := LineT(BlockageX(q), p.x, d.x);
            XHit(hoops, factor, tol, q).None? && Within(t, tol) ==>
              forall h :: h in hoops ==> !XBand(h, Along(p.y, d.y, t.value), q.addX)
  {
    var p := q.player.position;
    var d := Direction(q);
    var t := LineT(BlockageX(q), p.x, d.x);
    if Within(t, tol) {
      LineTReaches(BlockageX(q), p.x, d.x);
      var y := Along(p.y, d.y, t.value);
      var first := FirstInXBand(hoops, y, q.addX);
      if first.Some? {
        assert hoops[first.value] in hoops;
      }
    }
  }

  /**
    * An edge crossing lies on that edge, on the segment, and inside the
    * crossed hoop's x band.
    */
  lemma EdgeHitOnEdge(h: Hoop, off: real, factor: real, tol: real, q: Query)
    ensures var r := EdgeHit(h, off, factor, tol, q);
            var p := q.player.position;
            var d := Direction(q);
            r.Some? ==>
              && Along(p.y, d.y, r.value.t) == h.position.y + off
              && r.value.x == Along(p.x, d.x, r.value.t)
              && h.position.x - q.addX <= r.value.x <= h.position.x + q.addX
  {
    var p := q.player.position;
    var d := Direction(q);
    var t := LineT(h.position.y + off, p.y, d.y);
    if Within(t, tol) {
      LineTReaches(h.position.y + off, p.y, d.y);
    }
  }

  /** The better of the best crossing so far and a candidate: a strictly earlier one replaces it. */
  function Keep(best: Option<Intercept>, c: Option<Intercept>): Option<Intercept>
  {
    if c.Some? && (best.None? || c.value.t < best.value.t) then c else best
  }

  /** `best` after the candidates of the edges `offs` of `h`, in order. */
  function KeepEdges(best: Option<Intercept>, h: Hoop, offs: seq<real>, factor: real, tol: real, q: Query): Option<Intercept>
  {
    if offs == [] then best
    else Keep(KeepEdges(best, h, offs[..|offs| - 1], factor, tol, q), EdgeHit(h, offs[|offs| - 1], factor, tol, q))
  }

  /** `best_y_intercepting` after scanning the edges of `hoops`, hoop by hoop. */
  function ScanY(hoops: seq<Hoop>, factor: real, tol: real, q: Query): Option<Intercept>
  {
    if hoops == [] then None
    else
      var h := hoops[|hoops| - 1];
      KeepEdges(ScanY(hoops[..|hoops| - 1], factor, tol, q), h, Edges(h), factor, tol, q)
  }

  /** The candidate crossing of edge `k` of hoop `i`. */
  function Crossing(hoops: seq<Hoop>, i: nat, k: nat, factor: real, tol: real, q: Query): Option<Intercept>
    requires i < |hoops| && k < 2
  {
    EdgeHit(hoops[i], Edges(hoops[i])[k], factor, tol, q)
  }

  /**
    * The edge scan finds nothing exactly when no edge is crossed; otherwise
    * it returns one of the crossings, and none is earlier.
    */
  lemma {:induction false} ScanYEarliest(hoops: seq<Hoop>, factor: real, tol: real, q: Query)
    ensures var r := ScanY(hoops, factor, tol, q);
            r.None? <==> forall i, k :: 0 <= i < |hoops| && 0 <= k < 2 ==> Crossing(hoops, i, k, factor, tol, q).None?
    ensures var r := ScanY(hoops, factor, tol, q);
            r.Some? ==> exists i, k :: 0 <= i < |hoops| && 0 <= k < 2 && Crossing(hoops, i, k, factor, tol, q) == r
    ensures var r := ScanY(hoops, factor, tol, q);
            r.Some? ==> forall i, k :: 0 <= i < |hoops| && 0 <= k < 2 && Crossing(hoops, i, k, factor, tol, q).Some?
                          ==> r.value.t <= Crossing(hoops, i, k, factor, tol, q).value.t
  {
    if hoops != [] {
      var n := |hoops| - 1;
      var init := hoops[..n];
      var h := hoops[n];
      ScanYEarliest(init, factor, tol, q);
      forall i, k | 0 <= i < n && 0 <= k < 2
        ensures Crossing(init, i, k, factor, tol, q) == Crossing(hoops, i, k, factor, tol, q)
      {
        assert init[i] == hoops[i];
      }
      var b0 := ScanY(init, factor, tol, q);
      var c0 := Crossing(hoops, n, 0, factor, tol, q);
      var c1 := Crossing(hoops, n, 1, factor, tol, q);
      assert Edges(h)[..1] == [h.radius];
      assert Edges(h)[..1][..0] == [];
      assert KeepEdges(b0, h, Edges(h)[..1], factor, tol, q) == Keep(b0, c0);
      assert ScanY(hoops, factor, tol, q) == KeepEdges(b0, h, Edges(h), factor, tol, q);
    }
  }

  /* ---------------- the detour ---------------- */

  /** Both crossings, or none when defender and target are on the same side of the band. */
  function Blockages(hoops: seq<Hoop>, factor: real, tol: real, q: Query): (Option<Intercept>, Option<Intercept>)
  {
    if SameSide(q) then (None, None) else (XHit(hoops, factor, tol, q), ScanY(hoops, factor, tol, q))
  }

  /**
    * The direction when nothing blocks: the lookahead if one is given, the
    * direction to the target otherwise, moved by the buffer towards the
    * target's side when asked.
    */
  function Direct(q: Query, factor: real): Vec
  {
    var dir := if q.lookahead.Some? then q.lookahead.value else Direction(q);
    if q.addTargetXBuffer then Vec(dir.x - XBuffer(q, factor), dir.y) else dir
  }

  /** The line crossing comes first: it exists and no edge crossing is as early. */
  predicate XFirst(lineHit: Option<Intercept>, edgeHit: Option<Intercept>)
  {
    lineHit.Some? && (edgeHit.None? || lineHit.value.t < edgeHit.value.t)
  }

  /** `MoveAroundHoopBlockage.__call__`: the direction the defender should move in. */
  function Detour(hoops: seq<Hoop>, factor: real, tol: real, q: Query): (r: Vec)
    ensures q.target == q.player.position ==> r == Zero
  {
    var p := q.player.position;
    var d := Direction(q);
    if d.x == 0.0 && d.y == 0.0 then Zero
    else
      var (lineHit, edgeHit) := Blockages(hoops, factor, tol, q);
      if lineHit.None? && edgeHit.None? then Direct(q, factor)
      else if XFirst(lineHit, edgeHit) then
        var h := lineHit.value.hoop;
        var cornerY := if d.y < 0.0 then Offset(h.position.y, h.radius, factor) else Offset(h.position.y, -h.radius, factor);
        Vec(lineHit.value.x - p.x, cornerY - p.y)
      else
        var h := edgeHit.value.hoop;
        var cornerX := if TargetRight(q) then Offset(h.position.x, q.addX, factor) else Offset(h.position.x, -q.addX, factor);
        Vec(cornerX - p.x, edgeHit.value.y - p.y)
  }

  /**
    * The line crossing's aim point is the buffered corner of the target
    * hoop's band on the defender's side: left of the hoop when the target is
    * to its right, right of it otherwise.
    */
  lemma LineAim(hoops: seq<Hoop>, factor: real, tol: real, q: Query)
    requires XHit(hoops, factor, tol, q).Some?
    ensures XHit(hoops, factor, tol, q).value.x
            == if TargetRight(q) then Offset(q.targetHoop.position.x, -q.addX, factor)
               else Offset(q.targetHoop.position.x, q.addX, factor)
  {
    var a := q.addX;
    assert a * (factor - 1.0) == a * factor - a;
    assert (-a) * factor == -(a * factor);
  }

  /**
    * When nothing blocks, the detour is the direct direction, which from the
    * defender's position reaches the target itself when there is neither a
    * lookahead nor a buffer.
    */
  lemma DirectAim(hoops: seq<Hoop>, factor: real, tol: real, q: Query)
    requires q.target != q.player.position
    requires Blockages(hoops, factor, tol, q) == (None, None)
    ensures Detour(hoops, factor, tol, q) == Direct(q, factor)
    ensures q.lookahead.None? && !q.addTargetXBuffer ==> Add(q.player.position, Detour(hoops, factor, tol, q)) == q.target
  {
    assert !(Direction(q).x == 0.0 && Direction(q).y == 0.0);
  }

  /**
    * When the blockage line is crossed first, the detour aims past the line,
    * on the defender's side of the target hoop, at the buffered corner of the
    * recorded hoop on the side the defender comes from in y: above it when
    * moving down in y, below it otherwise.
    */
  lemma LineCorner(hoops: seq<Hoop>, factor: real, tol: real, q: Query)
    requires q.target != q.player.position
    requires XFirst(Blockages(hoops, factor, tol, q).0, Blockages(hoops, factor, tol, q).1)
    ensures var h := Blockages(hoops, factor, tol, q).0.value.hoop;
            var aim := Add(q.player.position, Detour(hoops, factor, tol, q));
            && h in hoops
            && aim.x == (if TargetRight(q) then Offset(q.targetHoop.position.x, -q.addX, factor)
                         else Offset(q.targetHoop.position.x, q.addX, factor))
            && aim.y == (if Direction(q).y < 0.0 then Offset(h.position.y, h.radius, factor)
                         else Offset(h.position.y, -h.radius, factor))
  {
    assert !(Direction(q).x == 0.0 && Direction(q).y == 0.0);
    LineAim(hoops, factor, tol, q);
  }

  /**
    * When an edge is crossed no later than the line, the detour aims at the
    * crossed edge pushed out by the buffer factor, beside the crossed hoop on
    * the target's side, and that hoop is a defended hoop.
    */
  lemma EdgeCorner(hoops: seq<Hoop>, factor: real, tol: real, q: Query)
    requires q.target != q.player.position
    requires Blockages(hoops, factor, tol, q).1.Some?
    requires !XFirst(Blockages(hoops, factor, tol, q).0, Blockages(hoops, factor, tol, q).1)
    ensures var h := Blockages(hoops, factor, tol, q).1.value.hoop;
            var aim := Add(q.player.position, Detour(hoops, factor, tol, q));
            && h in hoops
            && aim.x == (if TargetRight(q) then Offset(h.position.x, q.addX, factor) else Offset(h.position.x, -q.addX, factor))
            && (aim.y == Offset(h.position.y, h.radius, factor) || aim.y == Offset(h.position.y, -h.radius, factor))
  {
    assert !(Direction(q).x == 0.0 && Direction(q).y == 0.0);
    var edgeHit := Blockages(hoops, factor, tol, q).1;
    ScanYEarliest(hoops, factor, tol, q);
    var i, k :| 0 <= i < |hoops| && 0 <= k < 2 && Crossing(hoops, i, k, factor, tol, q) == edgeHit;
    assert edgeHit.value.hoop == hoops[i];
  }

  /**
    * A defender and target on the same side of the band, or a defence with
    * no hoops, leave the direct direction unchanged.
    */
  lemma Unblocked(hoops: seq<Hoop>, factor: real, tol: real, q: Query)
    requires q.target != q.player.position
    requires SameSide(q) || hoops == []
    ensures Detour(hoops, factor, tol, q) == Direct(q, factor)
  {
    assert !(Direction(q).x == 0.0 && Direction(q).y == 0.0);
  }

  /**
    * The aim point past the blockage line lies outside the band on the
    * defender's side when the buffer factor is at least 1 and the half-width
    * is not negative.
    */
  lemma LineAimOutside(hoops: seq<Hoop>, factor: real, tol: real, q: Query)
    requires XHit(hoops, factor, tol, q).Some? && 1.0 <= factor && 0.0 <= q.addX
    ensures TargetRight(q) ==> XHit(hoops, factor, tol, q).value.x <= BlockageX(q)
    ensures !TargetRight(q) ==> XHit(hoops, factor, tol, q).value.x >= BlockageX(q)
  {
    NonNegativeProduct(q.addX, factor - 1.0);
  }

  lemma NonNegativeProduct(a: real, b: real)
    requires 0.0 <= a && 0.0 <= b
    ensures 0.0 <= a * b
  {
  }

  /* ---------------- the component ---------------- */

  /** `MoveAroundHoopBlockage`: the defended hoops and the two tuning values, fixed at construction. */
  class MoveAroundHoopBlockage {
    const defenceHoops: seq<Hoop>
    const moveBufferFactor: real
    const tol: real

    constructor (defenceHoops: seq<Hoop>, moveBufferFactor: real, tol: real)
      ensures this.defenceHoops == defenceHoops && this.moveBufferFactor == moveBufferFactor && this.tol == tol
    {
      this.defenceHoops := defenceHoops;
      this.moveBufferFactor := moveBufferFactor;
      this.tol := tol;
    }

    /** The `best_x_intercepting` scan: the first defended hoop whose band holds the line crossing. */
    method ScanLine(q: Query) returns (best: Option<Intercept>)
      ensures best == XHit(defenceHoops, moveBufferFactor, tol, q)
    {
      var p := q.player.position;
      var d := Direction(q);
      var blockageX := BlockageX(q);
      var buffer := XBuffer(q, moveBufferFactor);
      best := None;
      var tx := LineT(blockageX, p.x, d.x);
      if Within(tx, tol) {
        var y := Along(p.y, d.y, tx.value);
        var i := 0;
        while i < |defenceHoops|
          invariant 0 <= i <= |defenceHoops|
          invariant best.None?
          invariant forall j :: 0 <= j < i ==> !XBand(defenceHoops[j], y, q.addX)
        {
          var h := defenceHoops[i];
          if h.position.y - h.radius <= y <= h.position.y + q.addX {
            best := Some(Intercept(tx.value, blockageX + buffer, y, h));
            break;
          }
          i := i + 1;
        }
      }
    }

    /** The `best_y_intercepting` scan over the top and bottom edge of every defended hoop. */
    method ScanEdges(q: Query) returns (best: Option<Intercept>)
      ensures best == ScanY(defenceHoops, moveBufferFactor, tol, q)
    {
      var p := q.player.position;
      var d := Direction(q);
      best := None;
      var i := 0;
      while i < |defenceHoops|
        invariant 0 <= i <= |defenceHoops|
        invariant best == ScanY(defenceHoops[..i], moveBufferFactor, tol, q)
      {
        var h := defenceHoops[i];
        var offs := [h.radius, -h.radius];
        ghost var before := best;
        var k := 0;
        while k < |offs|
          invariant 0 <= k <= |offs|
          invariant best == KeepEdges(before, h, offs[..k], moveBufferFactor, tol, q)
        {
          var off := offs[k];
          assert offs[..k + 1][..k] == offs[..k];
          assert KeepEdges(before, h, offs[..k + 1], moveBufferFactor, tol, q)
              == Keep(best, EdgeHit(h, off, moveBufferFactor, tol, q));
          var ty := LineT(h.position.y + off, p.y, d.y);
          if Within(ty, tol) {
            var x := Along(p.x, d.x, ty.value);
            if h.position.x - q.addX <= x <= h.position.x + q.addX {
              if best.None? || ty.value < best.value.t {
                best := Some(Intercept(ty.value, x, Offset(h.position.y, off, moveBufferFactor), h));
              }
            }
          }
          k := k + 1;
        }
        assert offs[..k] == Edges(h);
        assert defenceHoops[..i + 1][..i] == defenceHoops[..i];
        i := i + 1;
      }
      assert defenceHoops[..i] == defenceHoops;
    }

    /** `__call__`: both scans, unless defender and target share a side of the band, then the choice of aim. */
    method Call(player: Player, target: Vec, targetHoop: Hoop, addX: real, lookahead: Option<Vec>, addTargetXBuffer: bool)
      returns (direction: Vec)
      ensures direction == Detour(defenceHoops, moveBufferFactor, tol, Query(player, target, targetHoop, addX, lookahead, addTargetXBuffer))
    {
      var q := Query(player, target, targetHoop, addX, lookahead, addTargetXBuffer);
      var p := player.position;
      var d := Direction(q);
      if d.x == 0.0 && d.y == 0.0 {
        return Zero;
      }
      var bestX: Option<Intercept> := None;
      var bestY: Option<Intercept> := None;
      if !SameSide(q) {
        bestX := ScanLine(q);
        bestY := ScanEdges(q);
      }
      if bestX.None? && bestY.None? {
        if lookahead.Some? {
          direction := lookahead.value;
        } else {
          direction := d;
        }
        if addTargetXBuffer {
          direction := direction.(x := direction.x - XBuffer(q, moveBufferFactor));
        }
      } else if bestX.Some? && (bestY.None? || bestX.value.t < bestY.value.t) {
        var h := bestX.value.hoop;
        var cornerY;
        if d.y < 0.0 {
          cornerY := Offset(h.position.y, h.radius, moveBufferFactor);
        } else {
          cornerY := Offset(h.position.y, -h.radius, moveBufferFactor);
        }
        direction := Vec(bestX.value.x - p.x, cornerY - p.y);
      } else {
        var h := bestY.value.hoop;
        var cornerX;
        if TargetRight(q) {
          cornerX := Offset(h.position.x, addX, moveBufferFactor);
        } else {
          cornerX := Offset(h.position.x, -addX, moveBufferFactor);
        }
        direction := Vec(cornerX - p.x, bestY.value.y - p.y);
      }
    }
  }
}
