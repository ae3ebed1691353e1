/** The spawn rule of the game loop and `createPipe` (game.js:53-55, 77-108). */
module Spawn {
  import opened Entities

  /** A value `Math.random()` can return. */
  predicate IsRoll(u: real) { 0.0 <= u < 1.0 }

  /** A new pair is due when the canvas has outgrown the last spawn point by more than the spacing, or no pipe is left. */
  predicate ShouldSpawn(c: Canvas, g: Game)
  {
    (c.width as real) - g.lastPipe > PipeSpacing || |g.pipes| == 0
  }

  /** The height of the top pipe drawn from `heightRoll`, the source's `height`. */
  function GapTop(c: Canvas, heightRoll: real): real
  {
    var maxHeight := c.height as real - PipeGap - MinHeight;
    heightRoll * (maxHeight - MinHeight) + MinHeight
  }

  /** The canvas is tall enough for the random range of `GapTop` not to be degenerate. */
  predicate RoomyCanvas(c: Canvas)
  {
    c.height as real >= PipeGap + 2.0 * MinHeight
  }

  /** On a canvas tall enough for a gap and two minimum pipes, the top pipe lies within `[MinHeight, H - gap - MinHeight]`. */
  lemma GapTopInRange(c: Canvas, heightRoll: real)
    requires RoomyCanvas(c) && IsRoll(heightRoll)
    ensures MinHeight <= GapTop(c, heightRoll) <= c.height as real - PipeGap - MinHeight
  {
    var span := (c.height as real - PipeGap - MinHeight) - MinHeight;
    assert GapTop(c, heightRoll) == heightRoll * span + MinHeight;
    ScaledRollBounds(heightRoll, span);
    assert c.height as real - PipeGap - MinHeight == span + MinHeight;
  }

  /** A roll in `[0, 1)` scales a non-negative span into `[0, span]`. */
  lemma ScaledRollBounds(u: real, span: real)
    requires IsRoll(u) && span >= 0.0
    ensures 0.0 <= u * span <= span
  {
    assert span - u * span == (1.0 - u) * span;
  }

  /** The top and bottom segments of a freshly spawned pair on canvas `c`, whose gap starts at `h`. */
  predicate FreshPair(top: Pipe, bottom: Pipe, c: Canvas)
  {
    var w := c.width as real;
    && top.x == w && bottom.x == w
    && top.width == PipeWidth && bottom.width == PipeWidth
    && !top.passed && !bottom.passed
    // the top segment hangs from the ceiling, the bottom one stands on the floor
    && top.y == 0.0
    && bottom.y + bottom.height == c.height as real
    // with exactly one gap between them
    && bottom.y - (top.y + top.height) == PipeGap
  }

  /**
   * `createPipe`: appends a top and a bottom segment at the right edge, and
   * with a gold roll below the chance one gold centred in the gap.
   */
  function CreatePipe(g: Game, c: Canvas, heightRoll: real, goldRoll: real): (r: Game)
    ensures |r.pipes| == |g.pipes| + 2 && r.pipes[..|g.pipes|] == g.pipes
    ensures FreshPair(r.pipes[|g.pipes|], r.pipes[|g.pipes| + 1], c)
    ensures r.pipes[|g.pipes|].height + r.pipes[|g.pipes| + 1].height == c.height as real - PipeGap
    ensures r.pipes[|g.pipes|].height == GapTop(c, heightRoll)
    ensures goldRoll < GoldChance ==>
      var top, bottom := r.pipes[|g.pipes|], r.pipes[|g.pipes| + 1];
      && |r.golds| == |g.golds| + 1 && r.golds[..|g.golds|] == g.golds
      && r.golds[|g.golds|] == Gold(top.x + top.width / 2.0, (top.height + bottom.y) / 2.0, GoldSize, false)
      && r.golds[|g.golds|].x == c.width as real + GoldOffset
    ensures goldRoll >= GoldChance ==> r.golds == g.golds
    ensures r.lastPipe == c.width as real
    ensures r == g.(pipes := r.pipes, golds := r.golds, lastPipe := r.lastPipe)
  {
    var w := c.width as real;
    var h := GapTop(c, heightRoll);
    var top := Pipe(w, 0.0, PipeWidth, h, false);
    var bottom := Pipe(w, h + PipeGap, PipeWidth, c.height as real - h - PipeGap, false);
    var golds := if goldRoll < GoldChance then g.golds + [Gold(w + GoldOffset, h + PipeGap / 2.0, GoldSize, false)] else g.golds;
    g.(pipes := g.pipes + [top, bottom], golds := golds, lastPipe := w)
  }

  /** Right after a spawn the tracker equals the canvas width, so with the same width the next spawn waits for an empty pipe list. */
  lemma SpawnWaitsForEmpty(g: Game, c: Canvas)
    requires g.lastPipe == c.width as real
    ensures ShouldSpawn(c, g) <==> |g.pipes| == 0
  {
  }

  /** Appending one more pair keeps the list a sequence of pairs. */
  lemma {:induction false} PairedAppend(ps: seq<Pipe>, top: Pipe, bottom: Pipe)
    requires Paired(ps) && IsPair(top, bottom)
    ensures Paired(ps + [top, bottom])
    decreases |ps|
  {
    if |ps| > 0 {
      PairedAppend(ps[2..], top, bottom);
      assert (ps + [top, bottom])[2..] == ps[2..] + [top, bottom];
    } else {
      assert (ps + [top, bottom])[2..] == [];
    }
  }

  /** On a canvas with room for both minimum pipes, a spawn keeps the pipe list a sequence of pairs. */
  lemma CreatePipeKeepsPairs(g: Game, c: Canvas, heightRoll: real, goldRoll: real)
    requires Paired(g.pipes) && RoomyCanvas(c) && IsRoll(heightRoll)
    ensures Paired(CreatePipe(g, c, heightRoll, goldRoll).pipes)
  {
    var r := CreatePipe(g, c, heightRoll, goldRoll);
    GapTopInRange(c, heightRoll);
    assert r.pipes == g.pipes + [r.pipes[|g.pipes|], r.pipes[|g.pipes| + 1]];
    PairedAppend(g.pipes, r.pipes[|g.pipes|], r.pipes[|g.pipes| + 1]);
  }
}
