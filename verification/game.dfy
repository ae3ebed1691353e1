/**
 * One frame of `gameLoop` without the drawing, and the state transitions
 * made by the play/pause, restart and jump handlers (game.js:43-68, 187-238).
 */
module Game {
  import opened Entities
  import Seqs
  import Physics
  import Spawn
  import World
  import Collisions

  /** Frames only advance the simulation while a game is on and not paused. */
  predicate Running(g: Game) { g.isPlaying && !g.isPaused }

  /** The stages of a frame before collisions: physics, the spawn rule, then the world update. */
  function Advance(g: Game, c: Canvas, heightRoll: real, goldRoll: real): Game
  {
    var spawned := if Spawn.ShouldSpawn(c, g) then Spawn.CreatePipe(g, c, heightRoll, goldRoll) else g;
    spawned.(bird := Physics.Fall(g.bird),
             pipes := World.UpdatePipes(spawned.pipes),
             golds := World.UpdateGolds(spawned.golds))
  }

  /**
   * `gameLoop`: a no-op unless running; otherwise gravity, the spawn rule,
   * scrolling and pruning, then `checkCollisions` on the moved world.
   * `heightRoll` and `goldRoll` are the two `Math.random()` draws of a spawn.
   */
  function Tick(g: Game, c: Canvas, heightRoll: real, goldRoll: real): (r: Game)
    ensures !Running(g) ==> r == g
    ensures Running(g) ==> r.bird.velocity == g.bird.velocity + Gravity && r.bird.y == g.bird.y + r.bird.velocity
    ensures Running(g) ==> r.lastPipe == (if Spawn.ShouldSpawn(c, g) then c.width as real else g.lastPipe)
    ensures Running(g) ==> (r.isPlaying <==> !Collisions.OutOfBounds(r.bird, c) && !Collisions.HitsAnyPipe(r.bird, r.pipes))
    ensures Running(g) ==> |r.pipes| <= |g.pipes| + 2 && |r.golds| <= |g.golds| + 1
    ensures Running(g) && !Spawn.ShouldSpawn(c, g) ==> |r.pipes| <= |g.pipes| && |r.golds| <= |g.golds|
    ensures Running(g) && Spawn.ShouldSpawn(c, g) ==>
      && |r.pipes| >= 2
      && var top, bottom := r.pipes[|r.pipes| - 2], r.pipes[|r.pipes| - 1];
      && top.x == c.width as real - ScrollStep && bottom.x == c.width as real - ScrollStep
      && top.y == 0.0 && bottom.y - top.height == PipeGap
      && top.height + bottom.height == c.height as real - PipeGap
    ensures Running(g) ==> r.gold - g.gold == Seqs.Count(r.golds, Collisions.Collected)
    ensures r.isPaused == g.isPaused
    ensures r.score >= g.score && r.gold >= g.gold && r.highScore >= g.highScore
  {
    if !Running(g) then g
    else
      var a := Advance(g, c, heightRoll, goldRoll);
      Seqs.CountNone(a.golds, Collisions.Collected);
      if Spawn.ShouldSpawn(c, g) then
        SpawnedPairScrolls(g, c, heightRoll, goldRoll);
        Collisions.CheckCollisions(a, c)
      else
        Collisions.CheckCollisions(a, c)
  }

  /** A freshly spawned pair is still on screen after its first scroll, so it ends the world update as the last two pipes. */
  lemma SpawnedPairScrolls(g: Game, c: Canvas, heightRoll: real, goldRoll: real)
    requires Spawn.ShouldSpawn(c, g)
    ensures var spawned := Spawn.CreatePipe(g, c, heightRoll, goldRoll);
      var top, bottom := spawned.pipes[|g.pipes|], spawned.pipes[|g.pipes| + 1];
      Advance(g, c, heightRoll, goldRoll).pipes == World.UpdatePipes(g.pipes) + [World.MovePipe(top), World.MovePipe(bottom)]
  {
    var spawned := Spawn.CreatePipe(g, c, heightRoll, goldRoll);
    var top, bottom := spawned.pipes[|g.pipes|], spawned.pipes[|g.pipes| + 1];
    assert spawned.pipes == g.pipes + [top, bottom];
    Seqs.StepAndKeepAppend(g.pipes, [top, bottom], World.MovePipe, World.PipeOnScreen);
    ScrollTwo(top, bottom);
  }

  /** The jump handlers: the velocity is overwritten with the jump impulse, only while running. */
  function Jump(g: Game): (r: Game)
    ensures Running(g) ==> r == g.(bird := Bird(g.bird.y, JumpVelocity))
    ensures !Running(g) ==> r == g
  {
    if Running(g) then g.(bird := g.bird.(velocity := JumpVelocity)) else g
  }

  /** The keydown listener: only Space and Enter jump. */
  function KeyDown(g: Game, code: string): (r: Game)
    ensures code == "Space" || code == "Enter" ==> r == Jump(g)
    ensures code != "Space" && code != "Enter" ==> r == g
  {
    if code == "Space" || code == "Enter" then Jump(g) else g
  }

  /** `resetGame`: a fresh round for canvas `c`; the gold count and the high score carry over. */
  function Reset(g: Game, c: Canvas): (r: Game)
    ensures r.bird == Bird(c.height as real / 2.0, 0.0)
    ensures r.pipes == [] && r.golds == [] && r.score == 0 && r.lastPipe == 0.0
    ensures r.gold == g.gold && r.highScore == g.highScore
    ensures r.isPlaying == g.isPlaying && r.isPaused == g.isPaused
  {
    g.(bird := g.bird.(y := c.height as real / 2.0, velocity := 0.0),
       pipes := [], golds := [], score := 0, lastPipe := 0.0)
  }

  /** The state change shared by starting from the menu and restarting, before the frame they run. */
  function Start(g: Game, c: Canvas): (r: Game)
    ensures Running(r)
    ensures r == Reset(g, c).(isPlaying := true, isPaused := false)
  {
    Reset(g.(isPlaying := true, isPaused := false), c)
  }

  /** The restart button: start a new round and run its first frame at once. */
  function Restart(g: Game, c: Canvas, heightRoll: real, goldRoll: real): (r: Game)
    ensures !r.isPaused && r.score >= 0
    ensures r.gold >= g.gold && r.highScore >= g.highScore
  {
    Tick(Start(g, c), c, heightRoll, goldRoll)
  }

  /**
   * The play/pause button: from the menu it starts a round and runs a
   * frame; during a round it toggles the pause flag, and a resume also
   * runs a frame.
   */
  function PlayPause(g: Game, c: Canvas, heightRoll: real, goldRoll: real): (r: Game)
    ensures g.isPlaying ==> r.isPaused == !g.isPaused
    ensures !g.isPlaying ==> !r.isPaused && r.score >= 0
    ensures r.gold >= g.gold && r.highScore >= g.highScore
  {
    if !g.isPlaying then Tick(Start(g, c), c, heightRoll, goldRoll)
    else
      var toggled := g.(isPaused := !g.isPaused);
      if toggled.isPaused then toggled else Tick(toggled, c, heightRoll, goldRoll)
  }

  /** Pausing a running game only raises the pause flag, and the frames that follow change nothing. */
  lemma PauseFreezes(g: Game, c: Canvas, heightRoll: real, goldRoll: real, c2: Canvas, heightRoll2: real, goldRoll2: real)
    requires Running(g)
    ensures PlayPause(g, c, heightRoll, goldRoll) == g.(isPaused := true)
    ensures Tick(PlayPause(g, c, heightRoll, goldRoll), c2, heightRoll2, goldRoll2) == g.(isPaused := true)
  {
  }

  /** Resuming clears the pause flag and runs exactly one frame of the untouched game. */
  lemma ResumeRunsOneFrame(g: Game, c: Canvas, heightRoll: real, goldRoll: real)
    requires g.isPlaying && g.isPaused
    ensures PlayPause(g, c, heightRoll, goldRoll) == Tick(g.(isPaused := false), c, heightRoll, goldRoll)
    ensures !PlayPause(g, c, heightRoll, goldRoll).isPaused
  {
  }

  /** From the menu the play button does what restart does. */
  lemma PlayFromMenuIsRestart(g: Game, c: Canvas, heightRoll: real, goldRoll: real)
    requires !g.isPlaying
    ensures PlayPause(g, c, heightRoll, goldRoll) == Restart(g, c, heightRoll, goldRoll)
  {
  }

  /** A jump fixes the next frame's velocity whatever it was before. */
  lemma JumpThenTick(g: Game, c: Canvas, heightRoll: real, goldRoll: real)
    requires Running(g)
    ensures Tick(Jump(g), c, heightRoll, goldRoll).bird.velocity == JumpVelocity + Gravity
    ensures Tick(Jump(g), c, heightRoll, goldRoll).bird.y == g.bird.y + JumpVelocity + Gravity
  {
  }

  /** Two on-screen pipes both survive one scroll. */
  lemma ScrollTwo(p0: Pipe, p1: Pipe)
    requires World.PipeOnScreen(World.MovePipe(p0)) && World.PipeOnScreen(World.MovePipe(p1))
    ensures World.UpdatePipes([p0, p1]) == [World.MovePipe(p0), World.MovePipe(p1)]
  {
    Seqs.StepAndKeepCons([p0, p1], World.MovePipe, World.PipeOnScreen);
    Seqs.StepAndKeepCons([p1], World.MovePipe, World.PipeOnScreen);
    assert [p0, p1][1..] == [p1];
    assert [p1][1..] == [];
  }

  /** A gold at least 35 units right of the bird's centre is out of reach. */
  lemma FarGoldOutOfReach(b: Bird, gd: Gold)
    requires gd.x >= BirdX + 35.0 && gd.size == GoldSize
    ensures !Collisions.Near(b, gd)
  {
  }

  /** An uncollected on-screen gold survives one scroll. */
  lemma ScrollOneGold(gd: Gold)
    requires World.GoldKept(World.MoveGold(gd))
    ensures World.UpdateGolds([gd]) == [World.MoveGold(gd)]
  {
    Seqs.StepAndKeepCons([gd], World.MoveGold, World.GoldKept);
    assert [gd][1..] == [];
  }

  /** The world just before the collision pass of restart's first frame. */
  lemma RestartAdvance(g: Game, c: Canvas, heightRoll: real, goldRoll: real)
    requires c.width >= 62
    ensures var a := Advance(Start(g, c), c, heightRoll, goldRoll);
      && Running(a) && a.score == 0 && a.gold == g.gold && a.highScore == g.highScore
      && a.lastPipe == c.width as real
      && a.bird == Bird(c.height as real / 2.0 + Gravity, Gravity)
      && |a.pipes| == 2
      && (forall i :: 0 <= i < 2 ==> a.pipes[i].x == c.width as real - ScrollStep && a.pipes[i].width == PipeWidth && !a.pipes[i].passed)
      && (forall i :: 0 <= i < |a.golds| ==> a.golds[i].x == c.width as real + GoldOffset - ScrollStep && a.golds[i].size == GoldSize && !a.golds[i].collected)
  {
    var s := Start(g, c);
    assert Spawn.ShouldSpawn(c, s);
    var spawned := Spawn.CreatePipe(s, c, heightRoll, goldRoll);
    var p0, p1 := spawned.pipes[0], spawned.pipes[1];
    assert spawned.pipes == [p0, p1];
    ScrollTwo(p0, p1);
    var golds: seq<Gold>;
    if goldRoll < GoldChance {
      assert spawned.golds == [spawned.golds[0]];
      ScrollOneGold(spawned.golds[0]);
      golds := [World.MoveGold(spawned.golds[0])];
    } else {
      assert spawned.golds == [];
      golds := [];
    }
    assert World.UpdateGolds(spawned.golds) == golds;
    var a := spawned.(bird := Physics.Fall(s.bird), pipes := [World.MovePipe(p0), World.MovePipe(p1)], golds := golds);
    assert Advance(s, c, heightRoll, goldRoll) == a;
  }

  /**
   * On a canvas wide enough for the first pair to spawn clear of the bird,
   * restart's immediate frame leaves a running round with one fresh pair,
   * no points, and the gold count and high score carried over.
   */
  lemma RestartFirstFrame(g: Game, c: Canvas, heightRoll: real, goldRoll: real)
    requires c.width >= 62 && c.height >= 1
    ensures var r := Restart(g, c, heightRoll, goldRoll);
      && Running(r)
      && r.score == 0 && r.gold == g.gold && r.highScore == g.highScore
      && |r.pipes| == 2 && r.lastPipe == c.width as real
      && r.bird == Bird(c.height as real / 2.0 + Gravity, Gravity)
  {
    var a := Advance(Start(g, c), c, heightRoll, goldRoll);
    RestartAdvance(g, c, heightRoll, goldRoll);
    assert !Collisions.Overlaps(a.bird, a.pipes[0]) && !Collisions.Overlaps(a.bird, a.pipes[1]);
    assert !Collisions.HitsAnyPipe(a.bird, a.pipes);
    assert !Collisions.OutOfBounds(a.bird, c);
    forall i | 0 <= i < |a.golds|
      ensures !Collisions.Collects(a.bird, a.golds[i])
    {
      FarGoldOutOfReach(a.bird, a.golds[i]);
    }
    var r := Collisions.CheckCollisions(a, c);
    assert r.pipes == a.pipes;
    assert r.golds == a.golds;
    assert Restart(g, c, heightRoll, goldRoll) == r;
  }

  /** The host inputs to one call of `gameLoop`: the canvas size and the two random draws. */
  datatype Frame = Frame(canvas: Canvas, heightRoll: real, goldRoll: real)

  /** What can happen to the game: an animation frame or one of the user's inputs. */
  datatype Action =
    | Animate(frame: Frame)
    | Key(code: string)
    | Touch
    | PlayPauseClick(frame: Frame)
    | RestartClick(frame: Frame)

  function Step(g: Game, a: Action): Game
  {
    match a
    case Animate(f) => Tick(g, f.canvas, f.heightRoll, f.goldRoll)
    case Key(code) => KeyDown(g, code)
    case Touch => Jump(g)
    case PlayPauseClick(f) => PlayPause(g, f.canvas, f.heightRoll, f.goldRoll)
    case RestartClick(f) => Restart(g, f.canvas, f.heightRoll, f.goldRoll)
  }

  function Run(g: Game, acts: seq<Action>): Game
    decreases |acts|
  {
    if |acts| == 0 then g else Run(Step(g, acts[0]), acts[1..])
  }

  /** The session is one of menu (not playing), running, or paused; it is never paused without a game. */
  predicate SessionOk(g: Game) { g.isPaused ==> g.isPlaying }

  /** Every action keeps the session well formed and never lowers the high score or the gold count. */
  lemma StepInvariants(g: Game, a: Action)
    requires SessionOk(g)
    ensures SessionOk(Step(g, a))
    ensures Step(g, a).highScore >= g.highScore
    ensures Step(g, a).gold >= g.gold
  {
  }

  /** Over any sequence of actions the high score and the gold count only grow. */
  lemma {:induction false} RunInvariants(g: Game, acts: seq<Action>)
    requires SessionOk(g)
    ensures SessionOk(Run(g, acts))
    ensures Run(g, acts).highScore >= g.highScore
    ensures Run(g, acts).gold >= g.gold
    decreases |acts|
  {
    if |acts| > 0 {
      StepInvariants(g, acts[0]);
      RunInvariants(Step(g, acts[0]), acts[1..]);
    }
  }

  /** The random draws are real `Math.random()` values and the canvas has room for a gap and two minimum pipes. */
  predicate GoodFrame(f: Frame)
  {
    Spawn.RoomyCanvas(f.canvas) && Spawn.IsRoll(f.heightRoll)
  }

  predicate GoodAction(a: Action)
  {
    (a.Animate? || a.PlayPauseClick? || a.RestartClick?) ==> GoodFrame(a.frame)
  }

  /** A frame keeps the pipe list a sequence of spawned pairs. */
  lemma TickKeepsPairs(g: Game, c: Canvas, heightRoll: real, goldRoll: real)
    requires Paired(g.pipes) && Spawn.RoomyCanvas(c) && Spawn.IsRoll(heightRoll)
    ensures Paired(Tick(g, c, heightRoll, goldRoll).pipes)
  {
    if Running(g) {
      var spawned := if Spawn.ShouldSpawn(c, g) then Spawn.CreatePipe(g, c, heightRoll, goldRoll) else g;
      if Spawn.ShouldSpawn(c, g) {
        Spawn.CreatePipeKeepsPairs(g, c, heightRoll, goldRoll);
      }
      World.UpdatePipesKeepsPairs(spawned.pipes);
      var a := Advance(g, c, heightRoll, goldRoll);
      var r := Collisions.CheckCollisions(a, c);
      Collisions.MarkPassedKeepsPairs(a.pipes, r.pipes);
    }
  }

  /** The play/pause button keeps pairs: from the menu it starts and ticks, during a round it toggles and ticks. */
  lemma PlayPauseKeepsPairs(g: Game, f: Frame)
    requires Paired(g.pipes) && GoodFrame(f)
    ensures Paired(PlayPause(g, f.canvas, f.heightRoll, f.goldRoll).pipes)
  {
    if !g.isPlaying {
      TickKeepsPairs(Start(g, f.canvas), f.canvas, f.heightRoll, f.goldRoll);
    } else {
      TickKeepsPairs(g.(isPaused := !g.isPaused), f.canvas, f.heightRoll, f.goldRoll);
    }
  }

  lemma StepKeepsPairs(g: Game, a: Action)
    requires Paired(g.pipes) && GoodAction(a)
    ensures Paired(Step(g, a).pipes)
  {
    match a
    case Animate(f) => TickKeepsPairs(g, f.canvas, f.heightRoll, f.goldRoll);
    case Key(code) =>
    case Touch =>
    case PlayPauseClick(f) => PlayPauseKeepsPairs(g, f);
    case RestartClick(f) => TickKeepsPairs(Start(g, f.canvas), f.canvas, f.heightRoll, f.goldRoll);
  }

  /**
   * Under well-behaved frames the pipe list is always a sequence of pairs,
   * so each pair is worth exactly one point: its ceiling segment.
   */
  lemma {:induction false} RunKeepsPairs(g: Game, acts: seq<Action>)
    requires Paired(g.pipes)
    requires forall i :: 0 <= i < |acts| ==> GoodAction(acts[i])
    ensures Paired(Run(g, acts).pipes)
    decreases |acts|
  {
    if |acts| > 0 {
      StepKeepsPairs(g, acts[0]);
      RunKeepsPairs(Step(g, acts[0]), acts[1..]);
    }
  }

  /** After a frame that spawned, an unchanged canvas width spawns again only once every pipe is gone. */
  lemma NextSpawnWaitsForEmpty(g: Game, c: Canvas, heightRoll: real, goldRoll: real)
    requires Running(g) && Spawn.ShouldSpawn(c, g)
    ensures var r := Tick(g, c, heightRoll, goldRoll);
      Spawn.ShouldSpawn(c, r) <==> |r.pipes| == 0
  {
    Spawn.SpawnWaitsForEmpty(Tick(g, c, heightRoll, goldRoll), c);
  }

  /**
   * The high score is raised only by the scoring pass, not by gold pickups:
   * a frame in which the bird only picks up a gold leaves the score above
   * the high score.
   */
  lemma GoldPickupLeavesHighScoreBehind()
    ensures var c := Canvas(400, 400);
      var g := Game(Bird(200.0, -0.2),
                    [Pipe(300.0, 0.0, 50.0, 100.0, false), Pipe(300.0, 250.0, 50.0, 150.0, false)],
                    [Gold(52.0, 200.0, GoldSize, false)],
                    0, 0, 0, true, false, 400.0);
      var r := Tick(g, c, 0.0, 0.0);
      r.isPlaying && r.score == 5 && r.gold == 1 && r.highScore == 0
  {
  }
}
