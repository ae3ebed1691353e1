/** The bird's per-frame integration step (game.js:49-50). */
module Physics {
  import opened Entities

  /** One frame of gravity: velocity first, then position with the new velocity. */
  function Fall(b: Bird): Bird
  {
    var v := b.velocity + Gravity;
    Bird(b.y + v, v)
  }

  /** `n` frames of free fall with no jump in between. */
  function FallFor(b: Bird, n: nat): Bird
    decreases n
  {
    if n == 0 then b else Fall(FallFor(b, n - 1))
  }

  /**
   * Free fall is constant acceleration with a fixed per-frame increment:
   * after `n` frames the velocity has grown by `n * Gravity` and the height
   * by `n * v0 + Gravity * n * (n + 1) / 2`.
   */
  lemma {:induction false} FallForClosedForm(b: Bird, n: nat)
    ensures FallFor(b, n).velocity == b.velocity + (n as real) * Gravity
    ensures FallFor(b, n).y == b.y + (n as real) * b.velocity + Gravity * (n as real) * ((n + 1) as real) / 2.0
    decreases n
  {
    if n > 0 {
      FallForClosedForm(b, n - 1);
      var m := (n - 1) as real;
      var prev := FallFor(b, n - 1);
      var v := b.velocity + (m + 1.0) * Gravity;
      assert FallFor(b, n).velocity == v;
      calc {
        FallFor(b, n).y;
        prev.y + v;
        b.y + m * b.velocity + Gravity * m * (m + 1.0) / 2.0 + b.velocity + (m + 1.0) * Gravity;
        b.y + (m + 1.0) * b.velocity + Gravity * (m + 1.0) * (m + 2.0) / 2.0;
      }
    }
  }
}
