/** `checkCollisions` and the state part of `gameOver` (game.js:142-190). */
module Collisions {
  import opened Entities
  import Seqs

  /** The bird's centre is above the canvas top or below its bottom. */
  predicate OutOfBounds(b: Bird, c: Canvas)
  {
    b.y < 0.0 || b.y > c.height as real
  }

  /** The bird's square (centre, half-side `BirdSize`) strictly overlaps the pipe's rectangle, edge by edge. */
  predicate Overlaps(b: Bird, p: Pipe)
  {
    && BirdX + BirdSize > p.x
    && BirdX - BirdSize < p.x + p.width
    && b.y + BirdSize > p.y
    && b.y - BirdSize < p.y + p.height
  }

  predicate HitsAnyPipe(b: Bird, ps: seq<Pipe>)
  {
    exists i :: 0 <= i < |ps| && Overlaps(b, ps[i])
  }

  /** A point strictly inside the bird's square. */
  ghost predicate InBirdBox(b: Bird, px: real, py: real)
  {
    BirdX - BirdSize < px < BirdX + BirdSize && b.y - BirdSize < py < b.y + BirdSize
  }

  /** A point strictly inside the pipe's rectangle. */
  ghost predicate InPipe(p: Pipe, px: real, py: real)
  {
    p.x < px < p.x + p.width && p.y < py < p.y + p.height
  }

  function Lower(a: real, b: real): real { if a < b then a else b }
  function Upper(a: real, b: real): real { if a < b then b else a }

  /** For a pipe of positive size, the edge test is the same as the two open rectangles sharing a point. */
  lemma OverlapsIffSharedPoint(b: Bird, p: Pipe)
    requires p.width > 0.0 && p.height > 0.0
    ensures Overlaps(b, p) <==> exists px, py :: InBirdBox(b, px, py) && InPipe(p, px, py)
  {
    if Overlaps(b, p) {
      var px := (Upper(BirdX - BirdSize, p.x) + Lower(BirdX + BirdSize, p.x + p.width)) / 2.0;
      var py := (Upper(b.y - BirdSize, p.y) + Lower(b.y + BirdSize, p.y + p.height)) / 2.0;
      assert InBirdBox(b, px, py) && InPipe(p, px, py);
    }
  }

  /**
   * The gold's centre is closer to the bird's centre than the sum of the
   * radii. The source compares `Math.hypot(dx, dy)`; here the squared
   * distance is compared with the squared radius sum, which is positive.
   */
  predicate Near(b: Bird, g: Gold)
  {
    var dx := BirdX - g.x;
    var dy := b.y - g.y;
    var reach := BirdSize + g.size;
    reach > 0.0 && dx * dx + dy * dy < reach * reach
  }

  /** `Near` agrees with comparing the Euclidean distance `d` itself. */
  lemma NearIffWithinReach(b: Bird, g: Gold, d: real)
    requires d >= 0.0 && d * d == (BirdX - g.x) * (BirdX - g.x) + (b.y - g.y) * (b.y - g.y)
    ensures Near(b, g) <==> d < BirdSize + g.size
  {
    var reach := BirdSize + g.size;
    if d < reach {
      var e := reach - d;
      assert reach * reach == d * d + 2.0 * d * e + e * e;
      assert e * e > 0.0 && d * e >= 0.0;
    } else if reach > 0.0 {
      var e := d - reach;
      assert d * d == reach * reach + 2.0 * reach * e + e * e;
      assert e * e >= 0.0 && reach * e >= 0.0;
    }
  }

  predicate Collects(b: Bird, g: Gold) { !g.collected && Near(b, g) }

  /** The gold after the pickup test of one frame. */
  function Pick(b: Bird, g: Gold): Gold
  {
    if Collects(b, g) then g.(collected := true) else g
  }

  predicate Collected(g: Gold) { g.collected }

  datatype Pickup = Pickup(golds: seq<Gold>, picked: nat)

  /**
   * The gold pass: every gold the bird reaches that was not yet collected
   * becomes collected; `picked` is the number of flags that flipped.
   */
  function CollectGolds(b: Bird, gs: seq<Gold>): (r: Pickup)
    ensures |r.golds| == |gs|
    ensures forall i :: 0 <= i < |gs| ==> r.golds[i] == Pick(b, gs[i])
    ensures r.picked == Seqs.Count(r.golds, Collected) - Seqs.Count(gs, Collected)
    decreases |gs|
  {
    if |gs| == 0 then Pickup([], 0)
    else
      var rest := CollectGolds(b, gs[1..]);
      var g := Pick(b, gs[0]);
      assert ([g] + rest.golds)[1..] == rest.golds;
      Pickup([g] + rest.golds, (if Collects(b, gs[0]) then 1 else 0) + rest.picked)
  }

  /** The pipe is behind the bird and not flagged yet. */
  predicate Passes(p: Pipe) { !p.passed && p.x + p.width < BirdX }

  function MarkPassed(p: Pipe): Pipe
  {
    if Passes(p) then p.(passed := true) else p
  }

  /** A flagged ceiling segment: the only kind that is worth a point. */
  predicate PassedTop(p: Pipe) { p.passed && p.y == 0.0 }

  datatype Tally = Tally(pipes: seq<Pipe>, score: int, highScore: int)

  /**
   * The scoring pass: every pipe behind the bird gets its flag; each newly
   * flagged ceiling segment adds one point, and the high score follows the
   * score whenever such a point is scored.
   */
  function ScorePasses(ps: seq<Pipe>, score: int, highScore: int): (r: Tally)
    ensures |r.pipes| == |ps|
    ensures forall i :: 0 <= i < |ps| ==> r.pipes[i] == MarkPassed(ps[i])
    ensures r.score == score + (Seqs.Count(r.pipes, PassedTop) - Seqs.Count(ps, PassedTop))
    ensures r.score >= score
    ensures r.highScore == if r.score > score then Max(highScore, r.score) else highScore
    decreases |ps|
  {
    if |ps| == 0 then Tally([], score, highScore)
    else
      var p := ps[0];
      var scored := Passes(p) && p.y == 0.0;
      var s' := if scored then score + 1 else score;
      var h' := if scored && s' > highScore then s' else highScore;
      var rest := ScorePasses(ps[1..], s', h');
      assert ([MarkPassed(p)] + rest.pipes)[1..] == rest.pipes;
      Tally([MarkPassed(p)] + rest.pipes, rest.score, rest.highScore)
  }

  /** Flags do not move pipes, so the hit test sees the same rectangles after scoring. */
  lemma HitsIgnoreFlags(b: Bird, ps: seq<Pipe>, qs: seq<Pipe>)
    requires |qs| == |ps| && forall i :: 0 <= i < |ps| ==> qs[i] == MarkPassed(ps[i])
    ensures HitsAnyPipe(b, qs) <==> HitsAnyPipe(b, ps)
  {
  }

  /**
   * `checkCollisions`: a boundary or pipe hit ends the game, but the gold
   * and scoring passes still run in the same frame. Gold pickups add to
   * the score before the scoring pass compares it with the high score.
   */
  function CheckCollisions(g: Game, c: Canvas): (r: Game)
    ensures r.bird == g.bird && r.isPaused == g.isPaused && r.lastPipe == g.lastPipe
    ensures r.isPlaying == (g.isPlaying && !OutOfBounds(r.bird, c) && !HitsAnyPipe(r.bird, r.pipes))
    ensures |r.golds| == |g.golds| && forall i :: 0 <= i < |g.golds| ==> r.golds[i] == Pick(g.bird, g.golds[i])
    ensures |r.pipes| == |g.pipes| && forall i :: 0 <= i < |g.pipes| ==> r.pipes[i] == MarkPassed(g.pipes[i])
    ensures r.gold == g.gold + (Seqs.Count(r.golds, Collected) - Seqs.Count(g.golds, Collected))
    ensures r.score == g.score + GoldScore * (r.gold - g.gold) + (Seqs.Count(r.pipes, PassedTop) - Seqs.Count(g.pipes, PassedTop))
    ensures r.gold >= g.gold && r.score >= g.score
    ensures r.highScore == if Seqs.Count(r.pipes, PassedTop) > Seqs.Count(g.pipes, PassedTop) then Max(g.highScore, r.score) else g.highScore
  {
    var ended := OutOfBounds(g.bird, c) || HitsAnyPipe(g.bird, g.pipes);
    var pickup := CollectGolds(g.bird, g.golds);
    var tally := ScorePasses(g.pipes, g.score + GoldScore * pickup.picked, g.highScore);
    HitsIgnoreFlags(g.bird, g.pipes, tally.pipes);
    g.(isPlaying := if ended then false else g.isPlaying,
       golds := pickup.golds, gold := g.gold + pickup.picked,
       pipes := tally.pipes, score := tally.score, highScore := tally.highScore)
  }

  /** Marking passes keeps pairs: both segments of a pair share a column, so they are flagged together. */
  lemma {:induction false} MarkPassedKeepsPairs(ps: seq<Pipe>, qs: seq<Pipe>)
    requires Paired(ps)
    requires |qs| == |ps| && forall i :: 0 <= i < |ps| ==> qs[i] == MarkPassed(ps[i])
    ensures Paired(qs)
    decreases |ps|
  {
    if |ps| > 0 {
      assert IsPair(qs[0], qs[1]);
      MarkPassedKeepsPairs(ps[2..], qs[2..]);
    }
  }

  /** A second gold pass in the same spot finds nothing: a collected gold never triggers again. */
  lemma CollectGoldsIdempotent(b: Bird, gs: seq<Gold>)
    ensures CollectGolds(b, CollectGolds(b, gs).golds).golds == CollectGolds(b, gs).golds
    ensures CollectGolds(b, CollectGolds(b, gs).golds).picked == 0
  {
  }

  /** A second scoring pass flags nothing new and leaves score and high score alone: each flag flips at most once. */
  lemma ScorePassesIdempotent(ps: seq<Pipe>, score: int, highScore: int, score2: int, highScore2: int)
    ensures var once := ScorePasses(ps, score, highScore).pipes;
      ScorePasses(once, score2, highScore2) == Tally(once, score2, highScore2)
  {
  }

  /** The bird at its start height against two 50 by 100 pipes: one straddling it, one far to the right. */
  lemma CollisionExamples()
    ensures Overlaps(Bird(150.0, 0.0), Pipe(45.0, 100.0, 50.0, 100.0, false))
    ensures !Overlaps(Bird(150.0, 0.0), Pipe(200.0, 100.0, 50.0, 100.0, false))
  {
  }
}
