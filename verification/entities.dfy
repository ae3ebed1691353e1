/**
 * The game's tunable constants and its state: the bird, the pipe and gold
 * records, the canvas dimensions, and the whole mutable game state gathered
 * into one immutable record. Coordinates are exact `real`s.
 */
module Entities {

  // The bird (game.js:12-19). Only `y` and `velocity` ever change.
  const BirdX: real := 50.0
  const BirdStartY: real := 150.0
  const Gravity: real := 0.2
  const JumpVelocity: real := -5.0
  const BirdSize: real := 10.0

  // Pipe layout (game.js:28-30, 78).
  const PipeGap: real := 150.0
  const PipeWidth: real := 50.0
  const PipeSpacing: real := 250.0
  const MinHeight: real := 50.0

  /** Leftward movement of pipes and golds per frame; the literal `2`, not `pipeSpeed`. */
  const ScrollStep: real := 2.0

  // Golds (game.js:98-104, 165).
  const GoldOffset: real := 25.0
  const GoldSize: real := 10.0
  const GoldChance: real := 0.3
  const GoldScore: int := 5

  datatype Bird = Bird(y: real, velocity: real)

  /** One pipe segment. The bottom segment of a pair also carries `passed`, starting false. */
  datatype Pipe = Pipe(x: real, y: real, width: real, height: real, passed: bool)

  datatype Gold = Gold(x: real, y: real, size: real, collected: bool)

  /** The canvas size as read at the start of a frame; canvas dimensions are unsigned integers. */
  datatype Canvas = Canvas(width: nat, height: nat)

  /** All module-level `let` variables of the game that the simulation touches. */
  datatype Game = Game(
    bird: Bird,
    pipes: seq<Pipe>,
    golds: seq<Gold>,
    score: int,
    gold: int,
    highScore: int,
    isPlaying: bool,
    isPaused: bool,
    lastPipe: real)

  /**
   * Two consecutive segments that came from one spawn: a ceiling segment
   * and a segment below it sharing its column and its pass flag.
   */
  predicate IsPair(top: Pipe, bottom: Pipe)
  {
    && top.y == 0.0 && bottom.y > 0.0
    && top.x == bottom.x && top.width == bottom.width
    && top.passed == bottom.passed
  }

  /** The pipe list is a sequence of spawned pairs, top segment first. */
  predicate Paired(ps: seq<Pipe>)
    decreases |ps|
  {
    |ps| == 0 || (|ps| >= 2 && IsPair(ps[0], ps[1]) && Paired(ps[2..]))
  }

  function Max(a: int, b: int): int { if a < b then b else a }

  /** The state when the script loads; `storedHighScore` is what the browser's storage held (0 if absent). */
  function Initial(storedHighScore: int): (g: Game)
    ensures !g.isPlaying && !g.isPaused
    ensures g.pipes == [] && g.golds == [] && g.score == 0 && g.gold == 0
    ensures g.highScore == storedHighScore
  {
    Game(Bird(BirdStartY, 0.0), [], [], 0, 0, storedHighScore, false, false, 0.0)
  }
}
