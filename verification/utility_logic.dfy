/**
  * The spatial index: squared distances between every pair of entities that
  * can interact, kept both as a nested table and as nearest-first lists.
  */
module Utility {
  import opened Wrappers
  import opened Vectors
  import opened Entities
  import opened State

  /** `_squared_distance`: never negative, and the same in both directions (see `SquaredDistanceSymmetric`). */
  function SquaredDistance(a: Vec, b: Vec): (r: real)
    ensures 0.0 <= r
  {
    var dx := a.x - b.x;
    var dy := a.y - b.y;
    dx * dx + dy * dy
  }

  lemma SquaredDistanceSymmetric(a: Vec, b: Vec)
    ensures SquaredDistance(a, b) == SquaredDistance(b, a)
  {
    var dx, dy := a.x - b.x, a.y - b.y;
    assert (b.x - a.x) * (b.x - a.x) == dx * dx;
    assert (b.y - a.y) * (b.y - a.y) == dy * dy;
  }

  /* ---------------- entities and skip rules ---------------- */

  /** The entity list of one pass: every player, then every ball, in table order. */
  function EntityIds(w: World): seq<Id>
  {
    w.playerIds + w.ballIds
  }

  predicate IsEntity(players: map<Id, Player>, balls: map<Id, Ball>, id: Id)
  {
    id in players || id in balls
  }

  function Position(players: map<Id, Player>, balls: map<Id, Ball>, id: Id): Vec
    requires IsEntity(players, balls, id)
  {
    if id in players then players[id].position else balls[id].position
  }

  /** Only players carry a knock-out flag. */
  predicate KnockedOut(players: map<Id, Player>, id: Id)
  {
    id in players && players[id].isKnockedOut
  }

  /** The ordered half of the type-based skip rule: a beater against a keeper, a chaser or the volleyball. */
  predicate BeaterSkips(players: map<Id, Player>, balls: map<Id, Ball>, a: Id, b: Id)
  {
    && a in players && players[a].role == Beater
    && ((b in players && players[b].role in {Keeper, Chaser}) || (b in balls && IsVolleyball(balls[b])))
  }

  /** Whether a pass stores the distance of the pair (a, b). */
  predicate Written(players: map<Id, Player>, balls: map<Id, Ball>, a: Id, b: Id)
  {
    && !KnockedOut(players, a) && !KnockedOut(players, b)
    && !BeaterSkips(players, balls, a, b) && !BeaterSkips(players, balls, b, a)
  }

  /* ---------------- the distance table ---------------- */

  type Table = map<Id, map<Id, real>>

  /** The stored distance from `a` to `b`, if any. */
  function Lookup(d: Table, a: Id, b: Id): Option<real>
  {
    if a in d && b in d[a] then Some(d[a][b]) else None
  }

  /** First loop: an empty inner table for every entity that has none yet. */
  function InitTables(d: Table, ids: seq<Id>): (r: Table)
    ensures r.Keys == d.Keys + set id | id in ids
    ensures forall a, b :: Lookup(r, a, b) == Lookup(d, a, b)
    decreases |ids|
  {
    if ids == [] then d
    else InitTables(if ids[0] in d then d else d[ids[0] := map[]], ids[1..])
  }

  /** Storing one pair in both directions. */
  function Store(d: Table, a: Id, b: Id, s: real): (r: Table)
    requires a in d && b in d
    ensures r.Keys == d.Keys
  {
    var d1 := d[a := d[a][b := s]];
    d1[b := d1[b][a := s]]
  }

  function PairStep(w: World, a: Id, b: Id, d: Table): (r: Table)
    requires IsEntity(w.players, w.balls, a) && IsEntity(w.players, w.balls, b)
    requires a in d && b in d
    ensures r.Keys == d.Keys
  {
    if Written(w.players, w.balls, a, b)
    then Store(d, a, b, SquaredDistance(Position(w.players, w.balls, a), Position(w.players, w.balls, b)))
    else d
  }

  predicate AllEntities(w: World, ids: seq<Id>)
  {
    forall id :: id in ids ==> IsEntity(w.players, w.balls, id)
  }

  /** Every id of `ids` has an inner table in `d`. */
  predicate HasTables(d: Table, ids: seq<Id>)
  {
    forall id :: id in ids ==> id in d
  }

  /** The inner loop for `ids[i]`, from partner `ids[j]` on. */
  function Row(w: World, ids: seq<Id>, i: nat, j: nat, d: Table): (r: Table)
    requires AllEntities(w, ids) && i < |ids|
    requires HasTables(d, ids)
    ensures r.Keys == d.Keys
    decreases |ids| - j
  {
    if j >= |ids| then d
    else Row(w, ids, i, j + 1, PairStep(w, ids[i], ids[j], d))
  }

  /** The outer loop from `ids[i]` on: the last entity ends it, a knocked-out one is passed over. */
  function Rows(w: World, ids: seq<Id>, i: nat, d: Table): (r: Table)
    requires AllEntities(w, ids)
    requires HasTables(d, ids)
    ensures r.Keys == d.Keys
    decreases |ids| - i
  {
    if i + 1 >= |ids| then d
    else if KnockedOut(w.players, ids[i]) then Rows(w, ids, i + 1, d)
    else Rows(w, ids, i + 1, Row(w, ids, i, i + 1, d))
  }

  lemma EntityIdsAreEntities(w: World)
    requires Valid(w)
    ensures AllEntities(w, EntityIds(w))
    ensures Distinct(EntityIds(w))
  {
    var ids := EntityIds(w);
    forall i, j | 0 <= i < j < |ids| ensures ids[i] != ids[j] {
      if j >= |w.playerIds| && i < |w.playerIds| {
        assert ids[i] in w.players;
        assert ids[j] in w.balls;
      }
    }
  }

  /** The nested table after `_calculate_distances`. */
  function Distances(w: World): (r: Table)
    requires Valid(w)
    ensures r.Keys == w.squaredDistancesDicts.Keys + set id | id in EntityIds(w)
  {
    EntityIdsAreEntities(w);
    var ids := EntityIds(w);
    Rows(w, ids, 0, InitTables(w.squaredDistancesDicts, ids))
  }

  /* ---------------- what the table holds ---------------- */

  /** What one pair step leaves at (a, b): the pair's distance when (a, b) is the pair either way round and it is written. */
  lemma PairStepLookup(w: World, x: Id, y: Id, d: Table, a: Id, b: Id)
    requires IsEntity(w.players, w.balls, x) && IsEntity(w.players, w.balls, y)
    requires x in d && y in d
    ensures Lookup(PairStep(w, x, y, d), a, b) ==
            if ((a == x && b == y) || (a == y && b == x)) && Written(w.players, w.balls, a, b)
            then Some(SquaredDistance(Position(w.players, w.balls, a), Position(w.players, w.balls, b)))
            else Lookup(d, a, b)
  {
    if Written(w.players, w.balls, x, y) {
      SquaredDistanceSymmetric(Position(w.players, w.balls, x), Position(w.players, w.balls, y));
    }
  }

  lemma {:induction false} RowLookup(w: World, ids: seq<Id>, i: nat, j: nat, d: Table, a: Id, b: Id)
    requires AllEntities(w, ids) && i < |ids| && j <= |ids|
    requires HasTables(d, ids)
    ensures Lookup(Row(w, ids, i, j, d), a, b) ==
            if ((a == ids[i] && b in ids[j..]) || (b == ids[i] && a in ids[j..])) && Written(w.players, w.balls, a, b)
            then Some(SquaredDistance(Position(w.players, w.balls, a), Position(w.players, w.balls, b)))
            else Lookup(d, a, b)
    decreases |ids| - j
  {
    if j < |ids| {
      var d' := PairStep(w, ids[i], ids[j], d);
      assert Row(w, ids, i, j, d) == Row(w, ids, i, j + 1, d');
      RowLookup(w, ids, i, j + 1, d', a, b);
      PairStepLookup(w, ids[i], ids[j], d, a, b);
      assert ids[j..] == [ids[j]] + ids[j + 1..];
    }
  }

  lemma {:induction false} RowsLookup(w: World, ids: seq<Id>, i: nat, d: Table, a: Id, b: Id)
    requires AllEntities(w, ids) && Distinct(ids) && i <= |ids|
    requires HasTables(d, ids)
    ensures Lookup(Rows(w, ids, i, d), a, b) ==
            if a in ids[i..] && b in ids[i..] && a != b && Written(w.players, w.balls, a, b)
            then Some(SquaredDistance(Position(w.players, w.balls, a), Position(w.players, w.balls, b)))
            else Lookup(d, a, b)
    decreases |ids| - i
  {
    assert ids[i..] == [] || ids[i..] == [ids[i]] + ids[i + 1..];
    if i + 1 >= |ids| {
    } else if KnockedOut(w.players, ids[i]) {
      RowsLookup(w, ids, i + 1, d, a, b);
    } else {
      var d' := Row(w, ids, i, i + 1, d);
      RowsLookup(w, ids, i + 1, d', a, b);
      RowLookup(w, ids, i, i + 1, d, a, b);
      assert ids[i] !in ids[i + 1..];
    }
  }

  /**
    * The whole effect of `_calculate_distances` on the nested table: a pair of
    * distinct entities that are both up and not a beater against a keeper,
    * chaser or the volleyball holds its squared distance; every other entry,
    * including pairs left from earlier calls, is kept as it was.
    */
  lemma DistancesLookup(w: World, a: Id, b: Id)
    requires Valid(w)
    ensures Lookup(Distances(w), a, b) ==
            if IsEntity(w.players, w.balls, a) && IsEntity(w.players, w.balls, b) && a != b && Written(w.players, w.balls, a, b)
            then Some(SquaredDistance(Position(w.players, w.balls, a), Position(w.players, w.balls, b)))
            else Lookup(w.squaredDistancesDicts, a, b)
  {
    EntityIdsAreEntities(w);
    var ids := EntityIds(w);
    RowsLookup(w, ids, 0, InitTables(w.squaredDistancesDicts, ids), a, b);
    assert ids[0..] == ids;
  }

  /** Written pairs are stored symmetrically; a table that was symmetric stays symmetric. */
  lemma DistancesSymmetric(w: World, a: Id, b: Id)
    requires Valid(w)
    requires Lookup(w.squaredDistancesDicts, a, b) == Lookup(w.squaredDistancesDicts, b, a)
    ensures Lookup(Distances(w), a, b) == Lookup(Distances(w), b, a)
  {
    DistancesLookup(w, a, b);
    DistancesLookup(w, b, a);
    if IsEntity(w.players, w.balls, a) && IsEntity(w.players, w.balls, b) {
      SquaredDistanceSymmetric(Position(w.players, w.balls, a), Position(w.players, w.balls, b));
    }
  }

  /** No pair with a knocked-out side and no skipped beater pair is written: such entries keep their old value. */
  lemma DistancesSkip(w: World, a: Id, b: Id)
    requires Valid(w)
    requires KnockedOut(w.players, a) || KnockedOut(w.players, b) || BeaterSkips(w.players, w.balls, a, b) || BeaterSkips(w.players, w.balls, b, a)
    ensures Lookup(Distances(w), a, b) == Lookup(w.squaredDistancesDicts, a, b)
  {
    DistancesLookup(w, a, b);
  }

  /** Two balls always get their distance: there is no ball-to-ball skip rule. */
  lemma DistancesBallPairs(w: World, a: Id, b: Id)
    requires Valid(w) && a in w.balls && b in w.balls && a != b
    ensures Lookup(Distances(w), a, b) == Some(SquaredDistance(w.balls[a].position, w.balls[b].position))
  {
    DistancesLookup(w, a, b);
    assert a !in w.players && b !in w.players;
    assert Position(w.players, w.balls, a) == w.balls[a].position;
    assert Position(w.players, w.balls, b) == w.balls[b].position;
    assert Written(w.players, w.balls, a, b);
  }

  /** Every entity has an inner table afterwards, and no table is removed. */
  lemma DistancesCover(w: World)
    requires Valid(w)
    ensures forall id :: id in w.players || id in w.balls ==> id in Distances(w)
    ensures w.squaredDistancesDicts.Keys <= Distances(w).Keys
  {
    forall id | id in w.players || id in w.balls ensures id in EntityIds(w) {
    }
  }

  /* ---------------- nearest-first lists ---------------- */

  predicate Ascending(items: seq<(Id, real)>)
  {
    forall i, j :: 0 <= i < j < |items| ==> items[i].1 <= items[j].1
  }

  /** No key appears twice. */
  predicate KeysDistinct(items: seq<(Id, real)>)
  {
    forall i, j :: 0 <= i < j < |items| ==> items[i].0 != items[j].0
  }

  /** Every entry is an item of `m`. */
  predicate EntriesOf(items: seq<(Id, real)>, m: map<Id, real>)
  {
    forall i :: 0 <= i < |items| ==> items[i].0 in m && m[items[i].0] == items[i].1
  }

  /** Every item of `m` is an entry. */
  predicate ListsAll(items: seq<(Id, real)>, m: map<Id, real>)
  {
    forall k :: k in m ==> (k, m[k]) in items
  }

  /**
    * `items` is the items of `m`, each exactly once, sorted ascending by
    * distance: what `sorted(dict.items(), key=itemgetter(1))` returns.
    */
  predicate IsSortedItems(items: seq<(Id, real)>, m: map<Id, real>)
  {
    Ascending(items) && KeysDistinct(items) && EntriesOf(items, m) && ListsAll(items, m)
  }

  /** Where a value goes in an ascending list: after every entry not larger than it. */
  function InsertionPoint(items: seq<(Id, real)>, v: real): (k: nat)
    requires Ascending(items)
    ensures k <= |items|
    ensures forall i :: 0 <= i < k ==> items[i].1 <= v
    ensures forall i :: k <= i < |items| ==> v < items[i].1
  {
    if items == [] || v < items[0].1 then 0
    else 1 + InsertionPoint(items[1..], v)
  }

  /** The list with `x` placed at index `k`. */
  function InsertAt(items: seq<(Id, real)>, k: nat, x: (Id, real)): (r: seq<(Id, real)>)
    requires k <= |items|
    ensures |r| == |items| + 1 && r[k] == x
    ensures forall i :: 0 <= i < k ==> r[i] == items[i]
    ensures forall i :: k < i < |r| ==> r[i] == items[i - 1]
  {
    items[..k] + [x] + items[k..]
  }

  lemma InsertAscending(items: seq<(Id, real)>, v: real, key: Id)
    requires Ascending(items)
    ensures Ascending(InsertAt(items, InsertionPoint(items, v), (key, v)))
  {
    var k := InsertionPoint(items, v);
    var r := InsertAt(items, k, (key, v));
    forall i, j | 0 <= i < j < |r| ensures r[i].1 <= r[j].1 {
      if j < k {
        assert r[i] == items[i] && r[j] == items[j];
      } else if j == k {
        assert r[i] == items[i];
      } else if i < k {
        assert r[i] == items[i] && r[j] == items[j - 1];
      } else if i == k {
        assert r[j] == items[j - 1];
      } else {
        assert r[i] == items[i - 1] && r[j] == items[j - 1];
      }
    }
  }

  /** Inserting a key the table lacks keeps the listed keys distinct. */
  lemma InsertDistinct(items: seq<(Id, real)>, m: map<Id, real>, k: nat, key: Id, v: real)
    requires k <= |items| && KeysDistinct(items) && EntriesOf(items, m) && key !in m
    ensures KeysDistinct(InsertAt(items, k, (key, v)))
  {
    var r := InsertAt(items, k, (key, v));
    forall i, j | 0 <= i < j < |r| ensures r[i].0 != r[j].0 {
      var i' := if i < k then i else i - 1;
      var j' := if j <= k then j else j - 1;
      if i != k && j != k {
        assert r[i] == items[i'] && r[j] == items[j'];
      } else if i == k {
        assert r[j] == items[j'];
        assert items[j'].0 in m;
      } else {
        assert r[i] == items[i'];
        assert items[i'].0 in m;
      }
    }
  }

  /** After inserting `(key, v)` every listed entry is an entry of the updated table. */
  lemma InsertEntries(items: seq<(Id, real)>, m: map<Id, real>, k: nat, key: Id, v: real)
    requires k <= |items| && EntriesOf(items, m) && key !in m
    ensures EntriesOf(InsertAt(items, k, (key, v)), m[key := v])
  {
    var r := InsertAt(items, k, (key, v));
    var m' := m[key := v];
    forall i | 0 <= i < |r| ensures r[i].0 in m' && m'[r[i].0] == r[i].1 {
      if i < k { assert r[i] == items[i]; } else if i > k { assert r[i] == items[i - 1]; }
    }
  }

  /** After inserting `(key, v)` every entry of the updated table is listed. */
  lemma InsertComplete(items: seq<(Id, real)>, m: map<Id, real>, k: nat, key: Id, v: real)
    requires k <= |items| && ListsAll(items, m)
    ensures ListsAll(InsertAt(items, k, (key, v)), m[key := v])
  {
    var r := InsertAt(items, k, (key, v));
    var m' := m[key := v];
    forall x | x in m' ensures (x, m'[x]) in r {
      if x != key {
        var i :| 0 <= i < |items| && items[i] == (x, m[x]);
        if i < k { assert r[i] == items[i]; } else { assert r[i + 1] == items[i]; }
      }
    }
  }

  /** One insertion keeps the list a sorted view of the enlarged dictionary. */
  lemma InsertKeepsSorted(items: seq<(Id, real)>, m: map<Id, real>, key: Id, v: real)
    requires IsSortedItems(items, m) && key !in m
    ensures IsSortedItems(InsertAt(items, InsertionPoint(items, v), (key, v)), m[key := v])
  {
    var k := InsertionPoint(items, v);
    InsertAscending(items, v, key);
    InsertDistinct(items, m, k, key, v);
    InsertEntries(items, m, k, key, v);
    InsertComplete(items, m, k, key, v);
  }

  /**
    * `sorted(dicts[e].items(), key=itemgetter(1))`. Python's sort is stable,
    * so ties keep the inner dict's insertion order; the inner dicts here are
    * maps, which keep no order, so the order of ties is left open.
    */
  method SortedItems(m: map<Id, real>) returns (items: seq<(Id, real)>)
    ensures IsSortedItems(items, m)
  {
    items := [];
    var remaining := m.Keys;
    while remaining != {}
      invariant remaining <= m.Keys
      invariant IsSortedItems(items, map k | k in m && k !in remaining :: m[k])
      decreases |remaining|
    {
      var key :| key in remaining;
      var done := map k | k in m && k !in remaining :: m[k];
      InsertKeepsSorted(items, done, key, m[key]);
      var k := InsertionPoint(items, m[key]);
      items := InsertAt(items, k, (key, m[key]));
      remaining := remaining - {key};
      assert done[key := m[key]] == map k | k in m && k !in remaining :: m[k];
    }
    assert m == map k | k in m && k !in remaining :: m[k];
  }

  /* ---------------- the component ---------------- */

  class UtilityLogic {
    const state: GameState

    constructor (state: GameState)
      ensures this.state == state
    {
      this.state := state;
    }

    /**
      * `_calculate_distances`: fills the nested table as `Distances` says and
      * rebuilds the nearest-first list of every entity from it; lists of ids
      * that are no longer entities stay as they were.
      */
    method CalculateDistances()
      requires Valid(state.Snapshot())
      modifies state`squaredDistancesDicts, state`squaredDistances
      ensures state.squaredDistancesDicts == Distances(old(state.Snapshot()))
      ensures forall id :: id in old(state.players) || id in old(state.balls) ==>
                (id in state.squaredDistances && IsSortedItems(state.squaredDistances[id], state.squaredDistancesDicts[id]))
      ensures forall id :: !(id in old(state.players) || id in old(state.balls)) ==>
                ((id in state.squaredDistances <==> id in old(state.squaredDistances))
                 && (id in state.squaredDistances ==> state.squaredDistances[id] == old(state.squaredDistances)[id]))
    {
      ghost var w := state.Snapshot();
      EntityIdsAreEntities(w);
      var ids := state.playerIds + state.ballIds;
      assert ids == EntityIds(w);
      AddEmptyTables(ids);
      ghost var d0 := state.squaredDistancesDicts;
      assert d0 == InitTables(w.squaredDistancesDicts, ids);
      assert HasTables(d0, ids);
      StorePairs(w, ids);
      assert state.squaredDistancesDicts == Rows(w, ids, 0, d0);
      SortTables(ids);
      forall id | id in w.players || id in w.balls ensures id in ids {
      }
    }

    /** The first loop: every entity gets an empty inner table unless it has one. */
    method AddEmptyTables(ids: seq<Id>)
      modifies state`squaredDistancesDicts
      ensures state.squaredDistancesDicts == InitTables(old(state.squaredDistancesDicts), ids)
    {
      ghost var d := state.squaredDistancesDicts;
      var i := 0;
      while i < |ids|
        invariant 0 <= i <= |ids|
        invariant InitTables(d, ids) == InitTables(state.squaredDistancesDicts, ids[i..])
      {
        if ids[i] !in state.squaredDistancesDicts {
          state.squaredDistancesDicts := state.squaredDistancesDicts[ids[i] := map[]];
        }
        assert ids[i..] == [ids[i]] + ids[i + 1..];
        i := i + 1;
      }
      assert ids[i..] == [];
    }

    /** The pair loops: the last entity ends the outer loop and a knocked-out one is passed over. */
    method StorePairs(ghost w: World, ids: seq<Id>)
      requires w.players == state.players && w.balls == state.balls
      requires AllEntities(w, ids)
      requires HasTables(state.squaredDistancesDicts, ids)
      modifies state`squaredDistancesDicts
      ensures state.squaredDistancesDicts == Rows(w, ids, 0, old(state.squaredDistancesDicts))
    {
      ghost var d0 := state.squaredDistancesDicts;
      var i := 0;
      while i < |ids|
        invariant 0 <= i <= |ids|
        invariant w.players == state.players && w.balls == state.balls
        invariant HasTables(state.squaredDistancesDicts, ids)
        invariant Rows(w, ids, 0, d0) == Rows(w, ids, i, state.squaredDistancesDicts)
      {
        if i + 1 == |ids| {
          break;
        }
        var first := ids[i];
        if first in state.players && state.players[first].isKnockedOut {
          i := i + 1;
          continue;
        }
        ghost var before := state.squaredDistancesDicts;
        assert Rows(w, ids, i, before) == Rows(w, ids, i + 1, Row(w, ids, i, i + 1, before));
        StorePartners(w, ids, i);
        i := i + 1;
      }
    }

    /** The inner loop: the partners after `ids[i]` that pass the skip rules get their distance, in both directions. */
    method StorePartners(ghost w: World, ids: seq<Id>, i: nat)
      requires w.players == state.players && w.balls == state.balls
      requires AllEntities(w, ids) && i < |ids| && !KnockedOut(w.players, ids[i])
      requires HasTables(state.squaredDistancesDicts, ids)
      modifies state`squaredDistancesDicts
      ensures state.squaredDistancesDicts == Row(w, ids, i, i + 1, old(state.squaredDistancesDicts))
    {
      ghost var d := state.squaredDistancesDicts;
      var first := ids[i];
      var j := i + 1;
      while j < |ids|
        invariant i + 1 <= j
        invariant HasTables(state.squaredDistancesDicts, ids)
        invariant Row(w, ids, i, i + 1, d) == Row(w, ids, i, j, state.squaredDistancesDicts)
        decreases |ids| - j
      {
        var second := ids[j];
        ghost var before := state.squaredDistancesDicts;
        assert Row(w, ids, i, j, before) == Row(w, ids, i, j + 1, PairStep(w, first, second, before));
        if second in state.players && state.players[second].isKnockedOut {
          j := j + 1;
          continue;
        }
        if BeaterSkips(state.players, state.balls, first, second) || BeaterSkips(state.players, state.balls, second, first) {
          j := j + 1;
          continue;
        }
        var s := SquaredDistance(Position(state.players, state.balls, first), Position(state.players, state.balls, second));
        state.squaredDistancesDicts := state.squaredDistancesDicts[first := state.squaredDistancesDicts[first][second := s]];
        state.squaredDistancesDicts := state.squaredDistancesDicts[second := state.squaredDistancesDicts[second][first := s]];
        assert state.squaredDistancesDicts == PairStep(w, first, second, before);
        j := j + 1;
      }
    }

    /** The last loop: each entity's list becomes its inner table sorted nearest-first. */
    method SortTables(ids: seq<Id>)
      requires HasTables(state.squaredDistancesDicts, ids)
      modifies state`squaredDistances
      ensures forall id :: id in ids ==>
                (id in state.squaredDistances && IsSortedItems(state.squaredDistances[id], state.squaredDistancesDicts[id]))
      ensures forall id :: id !in ids ==>
                ((id in state.squaredDistances <==> id in old(state.squaredDistances))
                 && (id in state.squaredDistances ==> state.squaredDistances[id] == old(state.squaredDistances)[id]))
    {
      ghost var sd := state.squaredDistances;
      var i := 0;
      while i < |ids|
        invariant 0 <= i <= |ids|
        invariant forall k :: 0 <= k < i ==>
                    (ids[k] in state.squaredDistances && IsSortedItems(state.squaredDistances[ids[k]], state.squaredDistancesDicts[ids[k]]))
        invariant forall id :: id !in ids ==>
                    ((id in state.squaredDistances <==> id in sd) && (id in state.squaredDistances ==> state.squaredDistances[id] == sd[id]))
      {
        var items := SortedItems(state.squaredDistancesDicts[ids[i]]);
        state.squaredDistances := state.squaredDistances[ids[i] := items];
        i := i + 1;
      }
    }
  }
}
