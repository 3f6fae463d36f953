/** The catchable flies of one game: the difficulty table, spawning a batch of
 *  flies and catching one (src/app/game/page.tsx). */
module Flies {

  datatype Option<T> = None | Some(value: T)

  /** One fly on the board. Positions are percentages of the board; 0..80 keeps
   *  the whole sprite visible. */
  datatype Fly = Fly(id: int, x: real, y: real)

  /** One row of the difficulty table: how many flies, and how fast they move. */
  datatype Config = Config(flyCount: nat, speedMultiplier: real)

  /** Largest coordinate a fly may have on either axis. */
  const FIELD_MAX: real := 80.0

  /** A value that Math.random can return. */
  predicate IsDraw(r: real) { 0.0 <= r < 1.0 }

  predicate InField(f: Fly) { 0.0 <= f.x <= FIELD_MAX && 0.0 <= f.y <= FIELD_MAX }

  predicate UniqueIds(flies: seq<Fly>) {
    forall i, j :: 0 <= i < j < |flies| ==> flies[i].id != flies[j].id
  }

  /** The ids of the flies, in board order. */
  function Ids(flies: seq<Fly>): (ids: seq<int>)
    ensures |ids| == |flies|
  {
    seq(|flies|, i requires 0 <= i < |flies| => flies[i].id)
  }

  /** GAME_CONFIG looked up by the difficulty key of the page's URL: only the
   *  three keys of the table are configured. */
  function ConfigFor(difficulty: string): (r: Option<Config>)
    ensures r.Some? <==> difficulty in {"easy", "medium", "hard"}
    ensures r.Some? ==> 0 < r.value.flyCount && 0.0 < r.value.speedMultiplier
  {
    if difficulty == "easy" then Some(Config(5, 0.7))
    else if difficulty == "medium" then Some(Config(8, 1.0))
    else if difficulty == "hard" then Some(Config(12, 1.5))
    else None
  }

  /** The table's rows; a harder level has both more and faster flies. */
  lemma DifficultyTable()
    ensures ConfigFor("easy") == Some(Config(5, 0.7))
    ensures ConfigFor("medium") == Some(Config(8, 1.0))
    ensures ConfigFor("hard") == Some(Config(12, 1.5))
    ensures ConfigFor("easy").value.flyCount < ConfigFor("medium").value.flyCount < ConfigFor("hard").value.flyCount
    ensures ConfigFor("easy").value.speedMultiplier < ConfigFor("medium").value.speedMultiplier
              < ConfigFor("hard").value.speedMultiplier
  {
  }

  /** generateFlies: `count` flies with ids 0..count-1; fly i takes the draws
   *  2i (x) and 2i+1 (y), each scaled by 80. */
  function SpawnFlies(count: nat, draws: seq<real>): (r: seq<Fly>)
    requires |draws| == 2 * count
    ensures |r| == count && UniqueIds(r)
    ensures Ids(r) == seq(count, i => i)
    ensures forall i :: 0 <= i < count ==> r[i].x == draws[2 * i] * FIELD_MAX && r[i].y == draws[2 * i + 1] * FIELD_MAX
    ensures (forall k :: 0 <= k < |draws| ==> IsDraw(draws[k])) ==>
              forall i :: 0 <= i < count ==> 0.0 <= r[i].x < FIELD_MAX && 0.0 <= r[i].y < FIELD_MAX
  {
    var r := seq(count, i requires 0 <= i < count => Fly(i, draws[2 * i] * FIELD_MAX, draws[2 * i + 1] * FIELD_MAX));
    assert forall i :: 0 <= i < count ==> r[i].id == i;
    assert Ids(r) == seq(count, i => i);
    assert (forall k :: 0 <= k < |draws| ==> IsDraw(draws[k])) ==>
             forall i :: 0 <= i < count ==> IsDraw(draws[2 * i]) && IsDraw(draws[2 * i + 1]);
    r
  }

  /** catchFly: keep the flies whose id differs from `id`, in their order. */
  function CatchFly(flies: seq<Fly>, id: int): (r: seq<Fly>)
    ensures |r| <= |flies|
    ensures forall f :: f in r <==> f in flies && f.id != id
    ensures (forall f :: f in flies ==> f.id != id) ==> r == flies
    ensures UniqueIds(flies) ==> UniqueIds(r)
  {
    if flies == [] then []
    else if flies[0].id == id then CatchFly(flies[1..], id)
    else [flies[0]] + CatchFly(flies[1..], id)
  }

  /** Catching the same id twice is catching it once. */
  lemma CatchFlyIdempotent(flies: seq<Fly>, id: int)
    ensures CatchFly(CatchFly(flies, id), id) == CatchFly(flies, id)
  {
  }

  /** Catching works piecewise on the board list: it filters each part in place,
   *  so the survivors keep their relative order. */
  lemma {:induction false} CatchFlyConcat(a: seq<Fly>, b: seq<Fly>, id: int)
    ensures CatchFly(a + b, id) == CatchFly(a, id) + CatchFly(b, id)
  {
    if a == [] {
      assert a + b == b;
    } else {
      assert (a + b)[1..] == a[1..] + b;
      CatchFlyConcat(a[1..], b, id);
    }
  }

  /** Catching two ids gives the same board in either order. */
  lemma {:induction false} CatchFlyCommutes(flies: seq<Fly>, a: int, b: int)
    ensures CatchFly(CatchFly(flies, a), b) == CatchFly(CatchFly(flies, b), a)
  {
    if flies != [] {
      CatchFlyCommutes(flies[1..], a, b);
    }
  }

  /** The board is emptied by a catch exactly when every fly left carries the
   *  caught id. */
  lemma {:induction false} CatchFlyEmpties(flies: seq<Fly>, id: int)
    ensures CatchFly(flies, id) == [] <==> forall f :: f in flies ==> f.id == id
  {
    var r := CatchFly(flies, id);
    if r != [] {
      assert r[0] in r;
    }
  }

  /** With unique ids, catching the fly at position i removes that one fly and
   *  nothing else. */
  lemma {:induction false} CatchPresent(flies: seq<Fly>, i: nat)
    requires UniqueIds(flies) && i < |flies|
    ensures CatchFly(flies, flies[i].id) == flies[..i] + flies[i + 1..]
    ensures |CatchFly(flies, flies[i].id)| == |flies| - 1
  {
    var id := flies[i].id;
    var before, after := flies[..i], flies[i + 1..];
    assert flies == before + ([flies[i]] + after);
    CatchFlyConcat(before, [flies[i]] + after, id);
    CatchFlyConcat([flies[i]], after, id);
    assert forall f :: f in before ==> f.id != id;
    assert forall f :: f in after ==> f.id != id;
    assert [flies[i]][1..] == [];
  }

  /** Catching the ids in `ids` one after another. */
  function CatchEach(flies: seq<Fly>, ids: seq<int>): (r: seq<Fly>)
    ensures |r| <= |flies|
    decreases ids
  {
    if ids == [] then flies else CatchEach(CatchFly(flies, ids[0]), ids[1..])
  }

  /** Catching the first k flies of a board with unique ids, one at a time,
   *  leaves the rest; the board is empty exactly after the last catch. */
  lemma {:induction false} CatchInBoardOrder(flies: seq<Fly>, k: nat)
    requires UniqueIds(flies) && k <= |flies|
    ensures CatchEach(flies, Ids(flies)[..k]) == flies[k..]
    ensures CatchEach(flies, Ids(flies)[..k]) == [] <==> k == |flies|
  {
    if k > 0 {
      var ids := Ids(flies)[..k];
      CatchPresent(flies, 0);
      assert flies[..0] + flies[1..] == flies[1..];
      assert ids[1..] == Ids(flies[1..])[..k - 1];
      assert UniqueIds(flies[1..]);
      CatchInBoardOrder(flies[1..], k - 1);
    }
  }
}
