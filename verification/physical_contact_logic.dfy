/**
  * Contact between players: each pair of standing players closer than the sum
  * of their radii records the contact on both sides, and unless they are
  * separating their velocity components along the line between them are
  * averaged while each keeps its tangential component.
  */
module Contact {
  import opened Wrappers
  import opened Numerics
  import opened Vectors
  import opened Entities
  import opened State

  /* ---------------- one pair ---------------- */

  /**
    * The velocities after two players push against each other across the unit
    * normal `n`: both take the mean of their normal components and keep their
    * own tangential components.
    */
  function Exchange(n: Vec, v1: Vec, v2: Vec): (r: (Vec, Vec))
  {
    var a1 := Scale(n, Dot(v1, n));
    var a2 := Scale(n, Dot(v2, n));
    var mean := Vec((a1.x + a2.x) / 2.0, (a1.y + a2.y) / 2.0);
    (Add(mean, Sub(v1, a1)), Add(mean, Sub(v2, a2)))
  }

  /**
    * Whether a touching pair pushes: not when they are separating, not when
    * both move towards the second and the first is the slower, and not when
    * both move towards the first and the second is the slower.
    */
  function Pushes(sqrt: real -> real, n: Vec, v1: Vec, v2: Vec): bool
  {
    var d1 := Dot(v1, n);
    var d2 := Dot(v2, n);
    if d1 < 0.0 && d2 > 0.0 then false
    else if d1 > 0.0 && d2 > 0.0 then !(Length(sqrt, Scale(n, d1)) < Length(sqrt, Scale(n, d2)))
    else if d1 < 0.0 && d2 < 0.0 then !(Length(sqrt, Scale(n, d1)) > Length(sqrt, Scale(n, d2)))
    else true
  }

  /** The unit vector from `p` towards `q`, or None when they stand on the same spot. */
  function ContactNormal(sqrt: real -> real, p: Player, q: Player): (r: Option<Vec>)
  {
    var normal := Sub(q.position, p.position);
    var nm := Length(sqrt, normal);
    if nm == 0.0 then None else Some(DivBy(normal, nm))
  }

  /** The contact of two touching players: both record it, then they push or not. */
  function Touch(sqrt: real -> real, players: map<Id, Player>, id: Id, other: Id): (r: map<Id, Player>)
    requires id in players && other in players && id != other
    ensures r.Keys == players.Keys
  {
    var p := players[id];
    var q := players[other];
    var touched := players[id := p.(inContact := p.inContact + [other])][other := q.(inContact := q.inContact + [id])];
    var n := ContactNormal(sqrt, p, q);
    if n.None? || !Pushes(sqrt, n.value, p.velocity, q.velocity) then touched
    else
      var e := Exchange(n.value, p.velocity, q.velocity);
      touched[id := touched[id].(velocity := e.0)][other := touched[other].(velocity := e.1)]
  }

  /** `ids` lists distinct players of `players`. */
  predicate Roster(ids: seq<Id>, players: map<Id, Player>)
  {
    Distinct(ids) && forall id :: id in ids ==> id in players
  }

  /**
    * One entry `(other, distance)` of the distance list of `ids[i]`: only a
    * later player in table order that is standing and closer than the sum of
    * the radii is touched.
    */
  function PairStep(sqrt: real -> real, players: map<Id, Player>, ids: seq<Id>, i: nat, entry: (Id, real)): (r: map<Id, Player>)
    requires i < |ids| && Roster(ids, players)
    ensures r.Keys == players.Keys
  {
    var id := ids[i];
    var other := entry.0;
    if other !in ids[i + 1..] || players[other].isKnockedOut then players
    else
      var reach := players[id].radius + players[other].radius;
      if entry.1 < reach * reach then Touch(sqrt, players, id, other) else players
  }

  /** The inner loop: the entries of one player's distance list in order. */
  function ContactRow(sqrt: real -> real, players: map<Id, Player>, ids: seq<Id>, i: nat, entries: seq<(Id, real)>): (r: map<Id, Player>)
    requires i < |ids| && Roster(ids, players)
    ensures r.Keys == players.Keys
    decreases |entries|
  {
    if entries == [] then players
    else ContactRow(sqrt, PairStep(sqrt, players, ids, i, entries[0]), ids, i, entries[1..])
  }

  /** The outer loop from position `i`: every player but the last, skipping knocked-out ones. */
  function ContactsFrom(sqrt: real -> real, players: map<Id, Player>, ids: seq<Id>, dists: map<Id, seq<(Id, real)>>, i: nat): (r: map<Id, Player>)
    requires i <= |ids| && Roster(ids, players)
    ensures r.Keys == players.Keys
    decreases |ids| - i
  {
    if i + 1 >= |ids| then players
    else
      var next := if players[ids[i]].isKnockedOut then players else ContactRow(sqrt, players, ids, i, DistancesOf(dists, ids[i]));
      ContactsFrom(sqrt, next, ids, dists, i + 1)
  }

  /** The first loop: every player's contact list is emptied. */
  function ClearContacts(players: map<Id, Player>): (r: map<Id, Player>)
    ensures r.Keys == players.Keys
    ensures forall id :: id in r ==> r[id].inContact == []
  {
    map id | id in players :: players[id].(inContact := [])
  }

  /** `_check_player_collisions`. */
  function ResolveContacts(sqrt: real -> real, players: map<Id, Player>, ids: seq<Id>, dists: map<Id, seq<(Id, real)>>): (r: map<Id, Player>)
    requires Roster(ids, players)
    ensures r.Keys == players.Keys
  {
    ContactsFrom(sqrt, ClearContacts(players), ids, dists, 0)
  }

  /* ---------------- what the resolution promises ---------------- */

  /** Pushing conserves the sum of the two velocities. */
  lemma ExchangeConserves(n: Vec, v1: Vec, v2: Vec)
    ensures var e := Exchange(n, v1, v2); Add(e.0, e.1) == Add(v1, v2)
  {
  }

  /** `a * d / 2 + a * e / 2 == a * ((d + e) / 2)`, over the reals. */
  lemma HalfSum(a: real, d: real, e: real, r: real)
    requires r == (a * d + a * e) / 2.0
    ensures r == a * ((d + e) / 2.0)
  {
  }

  /** `(n.x * d) * n.x + (n.y * d) * n.y == d` for a unit `n`. */
  lemma UnitComponent(n: Vec, d: real, r: real)
    requires NormSq(n) == 1.0 && r == Dot(Scale(n, d), n)
    ensures r == d
  {
    assert r == d * (n.x * n.x + n.y * n.y);
  }

  /** Across a unit normal the tangential part of a vector has no normal component. */
  lemma TangentialPart(n: Vec, v: Vec)
    requires NormSq(n) == 1.0
    ensures Dot(Sub(v, Scale(n, Dot(v, n))), n) == 0.0
  {
    var d := Dot(v, n);
    UnitComponent(n, d, Dot(Scale(n, d), n));
  }

  /** The exchange written as the mean normal part plus each player's own tangential part. */
  lemma ExchangeForm(n: Vec, v1: Vec, v2: Vec)
    ensures var e := Exchange(n, v1, v2);
            var mean := (Dot(v1, n) + Dot(v2, n)) / 2.0;
            && e.0 == Add(Scale(n, mean), Sub(v1, Scale(n, Dot(v1, n))))
            && e.1 == Add(Scale(n, mean), Sub(v2, Scale(n, Dot(v2, n))))
  {
    var d1, d2 := Dot(v1, n), Dot(v2, n);
    var a1, a2 := Scale(n, d1), Scale(n, d2);
    var m := Vec((a1.x + a2.x) / 2.0, (a1.y + a2.y) / 2.0);
    HalfSum(n.x, d1, d2, m.x);
    HalfSum(n.y, d1, d2, m.y);
    assert m == Scale(n, (d1 + d2) / 2.0);
  }

  /** The normal component of a sum is the sum of the normal components. */
  lemma DotAdd(a: Vec, b: Vec, n: Vec)
    ensures Dot(Add(a, b), n) == Dot(a, n) + Dot(b, n)
  {
    assert (a.x + b.x) * n.x == a.x * n.x + b.x * n.x;
    assert (a.y + b.y) * n.y == a.y * n.y + b.y * n.y;
  }

  /** The mean normal part plus a tangential part has the mean as its normal component. */
  lemma MeanPlusTangent(n: Vec, mean: Vec, v: Vec, mu: real)
    requires NormSq(n) == 1.0 && mean == Scale(n, mu)
    ensures Dot(Add(mean, Sub(v, Scale(n, Dot(v, n)))), n) == mu
  {
    DotAdd(mean, Sub(v, Scale(n, Dot(v, n))), n);
    UnitComponent(n, mu, Dot(mean, n));
    TangentialPart(n, v);
  }

  /**
    * Across a unit normal both players leave with the mean of their normal
    * components, and each keeps its own tangential component.
    */
  lemma ExchangeAverages(n: Vec, v1: Vec, v2: Vec)
    requires NormSq(n) == 1.0
    ensures var e := Exchange(n, v1, v2);
            var mean := (Dot(v1, n) + Dot(v2, n)) / 2.0;
            && Dot(e.0, n) == mean && Dot(e.1, n) == mean
            && Sub(e.0, Scale(n, mean)) == Sub(v1, Scale(n, Dot(v1, n)))
            && Sub(e.1, Scale(n, mean)) == Sub(v2, Scale(n, Dot(v2, n)))
  {
    var mean := (Dot(v1, n) + Dot(v2, n)) / 2.0;
    ExchangeForm(n, v1, v2);
    MeanPlusTangent(n, Scale(n, mean), v1, mean);
    MeanPlusTangent(n, Scale(n, mean), v2, mean);
  }

  /** The normal of two players on different spots has unit length. */
  lemma ContactNormalUnit(sqrt: real -> real, p: Player, q: Player)
    requires IsSqrt(sqrt)
    ensures var n := ContactNormal(sqrt, p, q);
            n.Some? ==> NormSq(n.value) == 1.0
  {
    var normal := Sub(q.position, p.position);
    LengthFacts(sqrt, normal);
    var nm := Length(sqrt, normal);
    if nm != 0.0 {
      DivideByLength(normal, nm);
    }
  }

  /**
    * A touch records the contact on both sides, changes only contact lists
    * and velocities, conserves the sum of the two velocities and, when the
    * pair pushes, leaves both with the same normal component.
    */
  lemma TouchEffect(sqrt: real -> real, players: map<Id, Player>, id: Id, other: Id)
    requires IsSqrt(sqrt)
    requires id in players && other in players && id != other
    ensures var r := Touch(sqrt, players, id, other);
            var p, q := players[id], players[other];
            && r[id].inContact == p.inContact + [other]
            && r[other].inContact == q.inContact + [id]
            && r[id] == p.(inContact := r[id].inContact, velocity := r[id].velocity)
            && r[other] == q.(inContact := r[other].inContact, velocity := r[other].velocity)
            && (forall x :: x in players && x != id && x != other ==> r[x] == players[x])
            && Add(r[id].velocity, r[other].velocity) == Add(p.velocity, q.velocity)
            && (r[id].velocity != p.velocity || r[other].velocity != q.velocity ==>
                  var n := ContactNormal(sqrt, p, q).value;
                  Dot(r[id].velocity, n) == Dot(r[other].velocity, n) == (Dot(p.velocity, n) + Dot(q.velocity, n)) / 2.0)
  {
    var p, q := players[id], players[other];
    var n := ContactNormal(sqrt, p, q);
    ContactNormalUnit(sqrt, p, q);
    if n.Some? && Pushes(sqrt, n.value, p.velocity, q.velocity) {
      ExchangeConserves(n.value, p.velocity, q.velocity);
      ExchangeAverages(n.value, p.velocity, q.velocity);
    }
  }

  /** Separating players are not pushed. */
  lemma SeparatingKeepVelocities(sqrt: real -> real, players: map<Id, Player>, id: Id, other: Id)
    requires id in players && other in players && id != other
    requires var n := ContactNormal(sqrt, players[id], players[other]);
             n.Some? && Dot(players[id].velocity, n.value) < 0.0 && Dot(players[other].velocity, n.value) > 0.0
    ensures var r := Touch(sqrt, players, id, other);
            r[id].velocity == players[id].velocity && r[other].velocity == players[other].velocity
  {
  }

  /**
    * Players moving the same way along the normal are not pushed when the one
    * behind is the slower: both towards the second with the first slower, or
    * both towards the first with the second slower.
    */
  lemma SlowerPusherKeepsVelocities(sqrt: real -> real, players: map<Id, Player>, id: Id, other: Id)
    requires id in players && other in players && id != other
    requires var n := ContactNormal(sqrt, players[id], players[other]);
             n.Some? &&
             var d1 := Dot(players[id].velocity, n.value);
             var d2 := Dot(players[other].velocity, n.value);
             || (d1 > 0.0 && d2 > 0.0 && Length(sqrt, Scale(n.value, d1)) < Length(sqrt, Scale(n.value, d2)))
             || (d1 < 0.0 && d2 < 0.0 && Length(sqrt, Scale(n.value, d1)) > Length(sqrt, Scale(n.value, d2)))
    ensures var r := Touch(sqrt, players, id, other);
            r[id].velocity == players[id].velocity && r[other].velocity == players[other].velocity
  {
  }

  /**
    * The contact lists are consistent: contact is mutual, between two
    * different players that are both standing.
    */
  ghost predicate Consistent(players: map<Id, Player>)
  {
    forall a, b :: a in players && b in players[a].inContact ==>
      && b in players && a != b && a in players[b].inContact
      && !players[a].isKnockedOut && !players[b].isKnockedOut
  }

  /** `r` differs from `players` at most in contact lists and velocities. */
  ghost predicate OnlyContacts(players: map<Id, Player>, r: map<Id, Player>)
  {
    && r.Keys == players.Keys
    && forall id :: id in players ==>
         && r[id] == players[id].(inContact := r[id].inContact, velocity := r[id].velocity)
         && (players[id].isKnockedOut ==> r[id] == players[id])
  }

  /** A touch appends to the two contact lists and changes nothing else of anybody's but velocities. */
  lemma TouchLists(sqrt: real -> real, players: map<Id, Player>, id: Id, other: Id)
    requires id in players && other in players && id != other
    ensures var r := Touch(sqrt, players, id, other);
            && r[id] == players[id].(inContact := players[id].inContact + [other], velocity := r[id].velocity)
            && r[other] == players[other].(inContact := players[other].inContact + [id], velocity := r[other].velocity)
            && forall x :: x in players && x != id && x != other ==> r[x] == players[x]
  {
  }

  /** What a touch of `id` and `other` appends to the contact list of `x`. */
  function Added(x: Id, id: Id, other: Id): seq<Id>
  {
    if x == id then [other] else if x == other then [id] else []
  }

  /** One player's entry after a touch: the same knock-out flag, and the list grown by `Added`. */
  lemma TouchEntry(sqrt: real -> real, players: map<Id, Player>, id: Id, other: Id, x: Id)
    requires id in players && other in players && id != other && x in players
    ensures var r := Touch(sqrt, players, id, other);
            && x in r && r[x].isKnockedOut == players[x].isKnockedOut
            && r[x].inContact == players[x].inContact + Added(x, id, other)
  {
    TouchLists(sqrt, players, id, other);
  }

  /** Recording a mutual contact between two distinct standing players keeps the lists consistent. */
  lemma MutualContactConsistent(players: map<Id, Player>, r: map<Id, Player>, id: Id, other: Id)
    requires id in players && other in players && id != other
    requires !players[id].isKnockedOut && !players[other].isKnockedOut
    requires Consistent(players) && r.Keys == players.Keys
    requires forall x :: x in players ==>
               r[x].isKnockedOut == players[x].isKnockedOut && r[x].inContact == players[x].inContact + Added(x, id, other)
    ensures Consistent(r)
  {
    forall a, b | a in r && b in r[a].inContact
      ensures b in r && a != b && a in r[b].inContact && !r[a].isKnockedOut && !r[b].isKnockedOut
    {
      assert b in players[a].inContact || b in Added(a, id, other);
      assert r[b].inContact == players[b].inContact + Added(b, id, other);
    }
  }

  /** A touch of two standing players keeps the contact lists consistent. */
  lemma TouchKeepsConsistent(sqrt: real -> real, players: map<Id, Player>, id: Id, other: Id)
    requires id in players && other in players && id != other
    requires !players[id].isKnockedOut && !players[other].isKnockedOut
    requires Consistent(players)
    ensures Consistent(Touch(sqrt, players, id, other))
  {
    var r := Touch(sqrt, players, id, other);
    forall x | x in players
      ensures r[x].isKnockedOut == players[x].isKnockedOut && r[x].inContact == players[x].inContact + Added(x, id, other)
    {
      TouchEntry(sqrt, players, id, other, x);
    }
    MutualContactConsistent(players, r, id, other);
  }

  /** A touch of two standing players changes only contact lists and velocities. */
  lemma TouchOnlyContacts(sqrt: real -> real, players: map<Id, Player>, id: Id, other: Id)
    requires id in players && other in players && id != other
    requires !players[id].isKnockedOut && !players[other].isKnockedOut
    ensures OnlyContacts(players, Touch(sqrt, players, id, other))
  {
    TouchLists(sqrt, players, id, other);
  }

  /** A touch of two standing players keeps the contact lists consistent and changes only lists and velocities. */
  lemma TouchConsistent(sqrt: real -> real, players: map<Id, Player>, id: Id, other: Id)
    requires id in players && other in players && id != other
    requires !players[id].isKnockedOut && !players[other].isKnockedOut
    requires Consistent(players)
    ensures Consistent(Touch(sqrt, players, id, other))
    ensures OnlyContacts(players, Touch(sqrt, players, id, other))
  {
    TouchKeepsConsistent(sqrt, players, id, other);
    TouchOnlyContacts(sqrt, players, id, other);
  }

  lemma {:induction false} RowConsistent(sqrt: real -> real, players: map<Id, Player>, ids: seq<Id>, i: nat, entries: seq<(Id, real)>)
    requires i < |ids| && Roster(ids, players)
    requires Consistent(players) && !players[ids[i]].isKnockedOut
    ensures Consistent(ContactRow(sqrt, players, ids, i, entries))
    ensures OnlyContacts(players, ContactRow(sqrt, players, ids, i, entries))
    decreases |entries|
  {
    if entries != [] {
      var other := entries[0].0;
      var next := PairStep(sqrt, players, ids, i, entries[0]);
      if next != players {
        assert other in ids[i + 1..];
        var k :| i + 1 <= k < |ids| && ids[k] == other;
        TouchConsistent(sqrt, players, ids[i], other);
      }
      assert next[ids[i]].isKnockedOut == players[ids[i]].isKnockedOut;
      RowConsistent(sqrt, next, ids, i, entries[1..]);
    }
  }

  lemma {:induction false} FromConsistent(sqrt: real -> real, players: map<Id, Player>, ids: seq<Id>, dists: map<Id, seq<(Id, real)>>, i: nat)
    requires i <= |ids| && Roster(ids, players)
    requires Consistent(players)
    ensures Consistent(ContactsFrom(sqrt, players, ids, dists, i))
    ensures OnlyContacts(players, ContactsFrom(sqrt, players, ids, dists, i))
    decreases |ids| - i
  {
    if i + 1 < |ids| {
      var next := if players[ids[i]].isKnockedOut then players else ContactRow(sqrt, players, ids, i, DistancesOf(dists, ids[i]));
      if !players[ids[i]].isKnockedOut {
        RowConsistent(sqrt, players, ids, i, DistancesOf(dists, ids[i]));
      }
      FromConsistent(sqrt, next, ids, dists, i + 1);
    }
  }

  /**
    * After contact resolution every contact is mutual, between two different
    * standing players; apart from the cleared contact lists, nothing but
    * contact lists and velocities of standing players changed.
    */
  lemma ResolveConsistent(sqrt: real -> real, players: map<Id, Player>, ids: seq<Id>, dists: map<Id, seq<(Id, real)>>)
    requires Roster(ids, players)
    ensures Consistent(ResolveContacts(sqrt, players, ids, dists))
    ensures OnlyContacts(ClearContacts(players), ResolveContacts(sqrt, players, ids, dists))
  {
    var cleared := ClearContacts(players);
    FromConsistent(sqrt, cleared, ids, dists, 0);
  }

  /** A knocked-out player ends with no contacts. */
  lemma KnockedOutUntouched(sqrt: real -> real, players: map<Id, Player>, ids: seq<Id>, dists: map<Id, seq<(Id, real)>>, id: Id)
    requires Distinct(ids) && forall x :: x in ids ==> x in players
    requires id in players && players[id].isKnockedOut
    ensures var r := ResolveContacts(sqrt, players, ids, dists);
            r[id].inContact == [] && r[id].velocity == players[id].velocity
  {
    var cleared := ClearContacts(players);
    FromConsistent(sqrt, cleared, ids, dists, 0);
    assert cleared[id].isKnockedOut;
  }

  /* ---------------- the component ---------------- */

  class PhysicalContactLogic {
    const state: GameState

    constructor (state: GameState)
      ensures this.state == state
    {
      this.state := state;
    }

    /** The first loop of `_check_player_collisions`. */
    method ClearContactIds()
      modifies state`players
      ensures state.players == ClearContacts(old(state.players))
    {
      ghost var players := state.players;
      var todo := state.players.Keys;
      while todo != {}
        invariant todo <= players.Keys
        invariant state.players.Keys == players.Keys
        invariant forall id :: id in players ==>
                    state.players[id] == if id in todo then players[id] else players[id].(inContact := [])
        decreases |todo|
      {
        var id :| id in todo;
        state.players := state.players[id := state.players[id].(inContact := [])];
        todo := todo - {id};
      }
      ghost var cleared := ClearContacts(players);
      assert state.players.Keys == cleared.Keys;
      assert forall id :: id in cleared ==> state.players[id] == cleared[id];
    }

    /** The body of the inner loop for two touching players, written step by step. */
    method TouchAt(sqrt: real -> real, id: Id, other: Id)
      requires id in state.players && other in state.players && id != other
      modifies state`players
      ensures state.players == Touch(sqrt, old(state.players), id, other)
    {
      var p := state.players[id];
      var q := state.players[other];
      state.players := state.players[id := p.(inContact := p.inContact + [other])];
      state.players := state.players[other := q.(inContact := q.inContact + [id])];
      var normal := Sub(q.position, p.position);
      var nm := Length(sqrt, normal);
      if nm == 0.0 {
        assert ContactNormal(sqrt, p, q).None?;
        return;
      }
      var n := DivBy(normal, nm);
      assert ContactNormal(sqrt, p, q) == Some(n);
      var d1 := Dot(p.velocity, n);
      var d2 := Dot(q.velocity, n);
      if d1 < 0.0 && d2 > 0.0 {
        assert !Pushes(sqrt, n, p.velocity, q.velocity);
        return;
      }
      var a1 := Scale(n, d1);
      var t1 := Sub(p.velocity, a1);
      var a2 := Scale(n, d2);
      var t2 := Sub(q.velocity, a2);
      if d1 > 0.0 && d2 > 0.0 {
        if Length(sqrt, a1) < Length(sqrt, a2) {
          assert !Pushes(sqrt, n, p.velocity, q.velocity);
          return;
        }
      } else if d1 < 0.0 && d2 < 0.0 {
        if Length(sqrt, a1) > Length(sqrt, a2) {
          assert !Pushes(sqrt, n, p.velocity, q.velocity);
          return;
        }
      }
      assert Pushes(sqrt, n, p.velocity, q.velocity);
      var mean := Vec((a1.x + a2.x) / 2.0, (a1.y + a2.y) / 2.0);
      assert Exchange(n, p.velocity, q.velocity) == (Add(mean, t1), Add(mean, t2));
      state.players := state.players[id := state.players[id].(velocity := Add(mean, t1))];
      state.players := state.players[other := state.players[other].(velocity := Add(mean, t2))];
    }

    /** One entry of a player's distance list. */
    method PairAt(sqrt: real -> real, ids: seq<Id>, i: nat, entry: (Id, real))
      requires i < |ids| && Roster(ids, state.players)
      modifies state`players
      ensures state.players == PairStep(sqrt, old(state.players), ids, i, entry)
    {
      var id := ids[i];
      var other := entry.0;
      if other in ids[i + 1..] && !state.players[other].isKnockedOut {
        var reach := state.players[id].radius + state.players[other].radius;
        if entry.1 < reach * reach {
          assert other != id by {
            var j :| i + 1 <= j < |ids| && ids[j] == other;
          }
          TouchAt(sqrt, id, other);
        }
      }
    }

    /** The inner loop of `_check_player_collisions`, over one player's distance list. */
    method TouchRow(sqrt: real -> real, ids: seq<Id>, i: nat, entries: seq<(Id, real)>)
      requires i < |ids| && Roster(ids, state.players)
      modifies state`players
      ensures state.players == ContactRow(sqrt, old(state.players), ids, i, entries)
    {
      var k := 0;
      while k < |entries|
        invariant k <= |entries|
        invariant state.players.Keys == old(state.players).Keys
        invariant ContactRow(sqrt, old(state.players), ids, i, entries) == ContactRow(sqrt, state.players, ids, i, entries[k..])
      {
        assert entries[k..][0] == entries[k] && entries[k..][1..] == entries[k + 1..];
        PairAt(sqrt, ids, i, entries[k]);
        k := k + 1;
      }
      assert entries[k..] == [];
    }

    /** `_check_player_collisions`: contact lists are rebuilt and touching players push. */
    method CheckPlayerCollisions(sqrt: real -> real)
      requires Indexes(state.playerIds, state.players.Keys)
      modifies state`players
      ensures state.players == ResolveContacts(sqrt, old(state.players), state.playerIds, state.squaredDistances)
    {
      ClearContactIds();
      ghost var cleared := state.players;
      var ids := state.playerIds;
      var dists := state.squaredDistances;
      var i := 0;
      while i + 1 < |ids|
        invariant i <= |ids|
        invariant state.players.Keys == cleared.Keys && Roster(ids, state.players)
        invariant ContactsFrom(sqrt, cleared, ids, dists, 0) == ContactsFrom(sqrt, state.players, ids, dists, i)
      {
        if !state.players[ids[i]].isKnockedOut {
          TouchRow(sqrt, ids, i, DistancesOf(dists, ids[i]));
        }
        i := i + 1;
      }
    }
  }
}
