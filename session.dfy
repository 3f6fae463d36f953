/** One game session on the game page (src/app/game/page.tsx): the flags
 *  isPlaying and gameComplete, the timer in tenths of a second, the flies on
 *  the board, and the saves sent to the ranking service. */
module Session {
  import opened Flies
  import opened Motion

  /** One call to the ranking service's save operation. */
  datatype Save = Save(username: string, tenths: nat, difficulty: string)

  /** A URL parameter counts as given when it is there and not empty (the
   *  page tests it for truthiness). */
  predicate Present(param: Option<string>) { param.Some? && param.value != "" }

  class Game {
    /** The `username` and `difficulty` URL parameters; absent ones are None. */
    const username: Option<string>
    const difficulty: Option<string>

    var isPlaying: bool
    var gameComplete: bool
    /** Elapsed time, in tenths of a second. */
    var time: nat
    var flies: seq<Fly>
    /** Every save issued so far, oldest first. */
    var saves: seq<Save>

    /** The difficulty table's row for this page, if its key is configured. */
    function ConfigRow(): Option<Config> {
      if difficulty.Some? then ConfigFor(difficulty.value) else None
    }

    /** The three phases: idle (before the start button is pressed), playing,
     *  and complete (final: the page has no way to play again). Flies are only
     *  on the board while playing, they stay in the field with distinct ids,
     *  and at most one save is ever issued, on completion. */
    ghost predicate Valid()
      reads this
    {
      (forall i :: 0 <= i < |flies| ==> InField(flies[i])) &&
      UniqueIds(flies) &&
      (flies != [] ==> ConfigRow().Some?) &&
      (!isPlaying ==> flies == []) &&
      !(isPlaying && gameComplete) &&
      (!isPlaying && !gameComplete ==> time == 0) &&
      (!gameComplete ==> saves == []) &&
      |saves| <= 1
    }

    /** The page before any input: idle, no flies, time zero. */
    constructor (username: Option<string>, difficulty: Option<string>)
      ensures Valid()
      ensures this.username == username && this.difficulty == difficulty
      ensures !isPlaying && !gameComplete && time == 0 && flies == [] && saves == []
    {
      this.username := username;
      this.difficulty := difficulty;
      isPlaying, gameComplete, time, flies, saves := false, false, 0, [], [];
    }

    /** A press on the start button, which is only shown while neither playing
     *  nor complete; startGame then sets playing, zeroes the time and spawns the
     *  difficulty's flies from `draws`. For a difficulty that is not in the
     *  table the spawn fails after the flags are set, so the board stays empty. */
    method StartGame(draws: seq<real>) returns (started: bool)
      requires Valid()
      requires ConfigRow().Some? ==> |draws| == 2 * ConfigRow().value.flyCount
      requires forall k :: 0 <= k < |draws| ==> IsDraw(draws[k])
      modifies this
      ensures Valid()
      ensures started == old(!isPlaying && !gameComplete)
      ensures !started ==> unchanged(this)
      ensures started ==> isPlaying && !gameComplete && time == 0 && saves == []
      ensures started ==> flies == if ConfigRow().Some? then SpawnFlies(ConfigRow().value.flyCount, draws) else []
    {
      started := !isPlaying && !gameComplete;
      if started {
        isPlaying := true;
        time := 0;
        var config := ConfigRow();
        if config.Some? {
          flies := SpawnFlies(config.value.flyCount, draws);
        }
      }
    }

    /** One tick of the 100 ms interval: a tenth of a second more, but only
     *  while playing and not complete. */
    method Tick()
      requires Valid()
      modifies this`time
      ensures Valid()
      ensures time == if isPlaying && !gameComplete then old(time) + 1 else old(time)
    {
      if isPlaying && !gameComplete {
        time := time + 1;
      }
    }

    /** A tap on the fly with id `id` (or a stale tap on one already gone). */
    method CatchFly(id: int)
      requires Valid()
      modifies this`flies
      ensures Valid()
      ensures flies == Flies.CatchFly(old(flies), id)
    {
      flies := Flies.CatchFly(flies, id);
    }

    /** One animation frame, run through `anim`, the current run of the
     *  animation effect; a frame does nothing unless playing and not complete. */
    method Frame(anim: Animator, currentTime: real, jitters: seq<Jitter>)
      requires Valid()
      requires |flies| <= anim.directions.Length && |jitters| == |flies|
      requires flies != [] ==> anim.speedMultiplier == ConfigRow().value.speedMultiplier
      modifies this`flies, anim, anim.directions
      ensures Valid()
      ensures |flies| == |old(flies)| && Ids(flies) == Ids(old(flies))
      ensures !old(isPlaying && !gameComplete) ==> flies == old(flies) && unchanged(anim, anim.directions)
    {
      if isPlaying && !gameComplete {
        var next := anim.Animate(currentTime, flies, jitters);
        assert forall i, j :: 0 <= i < j < |next| ==> next[i].id == Ids(next)[i] && next[j].id == Ids(next)[j];
        assert forall i, j :: 0 <= i < j < |flies| ==> flies[i].id == Ids(flies)[i] && flies[j].id == Ids(flies)[j];
        flies := next;
      }
    }

    /** The completion effect: playing with an empty board completes the game,
     *  stops play and, when both URL parameters are given, saves the time. */
    method CheckCompletion() returns (completed: bool)
      requires Valid()
      modifies this
      ensures Valid()
      ensures completed == old(isPlaying && flies == [])
      ensures !completed ==> unchanged(this)
      ensures completed ==> gameComplete && !isPlaying && time == old(time) && flies == []
      ensures completed ==>
                saves == if Present(username) && Present(difficulty) then [Save(username.value, time, difficulty.value)] else []
    {
      completed := isPlaying && flies == [];
      if completed {
        gameComplete := true;
        isPlaying := false;
        if Present(username) && Present(difficulty) {
          saves := saves + [Save(username.value, time, difficulty.value)];
        }
      }
    }
  }

  /** An example, one input of each kind after completion: a start press, a
   *  tick, a tap, an animation frame and a completion check leave the game
   *  complete, with the clock and the saves as they were. The general fact
   *  follows from each method's contract with Valid(): StartGame and
   *  CheckCompletion change nothing unless idle or playing, Tick and Frame
   *  change nothing unless playing, and a tap on the empty board keeps it
   *  empty. */
  method CompleteIsFinal(g: Game, anim: Animator, id: int, draws: seq<real>, currentTime: real)
    requires g.Valid() && g.gameComplete
    requires g.ConfigRow().Some? ==> |draws| == 2 * g.ConfigRow().value.flyCount
    requires forall k :: 0 <= k < |draws| ==> IsDraw(draws[k])
    modifies g, anim, anim.directions
    ensures g.Valid() && g.gameComplete && !g.isPlaying
    ensures g.time == old(g.time) && g.saves == old(g.saves) && g.flies == []
  {
    var started := g.StartGame(draws);
    g.Tick();
    g.CatchFly(id);
    g.Frame(anim, currentTime, []);
    var completed := g.CheckCompletion();
    assert !started && !completed;
  }

  /** A player who taps the flies in board order, with the completion effect
   *  run after every tap: the game completes on the last tap and on no earlier
   *  one, with the clock where it stood, and issues its one save. */
  method CatchAllInOrder(g: Game) returns (taps: nat)
    requires g.Valid() && g.isPlaying && g.flies != []
    modifies g
    ensures g.Valid() && g.gameComplete && !g.isPlaying && taps == |old(g.flies)|
    ensures g.time == old(g.time)
    ensures g.saves == if Present(g.username) && Present(g.difficulty) then [Save(g.username.value, g.time, g.difficulty.value)] else []
  {
    var board := g.flies;
    var ids := Ids(board);
    taps := 0;
    var completed := false;
    while !completed
      invariant 0 <= taps <= |board|
      invariant g.Valid() && g.time == old(g.time)
      invariant !completed ==> g.isPlaying && !g.gameComplete && taps < |board| && g.flies == board[taps..]
      invariant completed ==> g.gameComplete && !g.isPlaying && taps == |board|
      invariant completed ==> g.saves == if Present(g.username) && Present(g.difficulty) then [Save(g.username.value, g.time, g.difficulty.value)] else []
      decreases |board| - taps, !completed
    {
      assert Flies.CatchFly(board[taps..], ids[taps]) == board[taps + 1..] by {
        CatchPresent(board[taps..], 0);
        assert board[taps..][..0] + board[taps..][1..] == board[taps + 1..];
      }
      g.CatchFly(ids[taps]);
      taps := taps + 1;
      completed := g.CheckCompletion();
    }
  }
}
