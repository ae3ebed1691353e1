/** `updatePipes` and `updateGolds`: scroll everything left, then prune (game.js:110-122). */
module World {
  import opened Entities
  import Seqs

  function MovePipe(p: Pipe): Pipe { p.(x := p.x - ScrollStep) }

  /** Some part of the pipe is still right of the canvas's left edge. */
  predicate PipeOnScreen(p: Pipe) { p.x + p.width > 0.0 }

  function MoveGold(g: Gold): Gold { g.(x := g.x - ScrollStep) }

  /** A gold is kept while it is still to be picked up and still on screen. */
  predicate GoldKept(g: Gold) { !g.collected && g.x + g.size > 0.0 }

  /**
   * Every pipe moves two units left; the survivors are exactly the moved
   * pipes still on screen, in their original order.
   */
  function UpdatePipes(ps: seq<Pipe>): (r: seq<Pipe>)
    ensures |r| <= |ps|
    ensures Seqs.IsSubsequence(r, Seqs.Map(MovePipe, ps))
    ensures forall k :: 0 <= k < |r| ==> PipeOnScreen(r[k])
    ensures forall i :: 0 <= i < |ps| && ps[i].x - 2.0 + ps[i].width > 0.0 ==> MovePipe(ps[i]) in r
    ensures |r| == Seqs.Count(Seqs.Map(MovePipe, ps), PipeOnScreen)
  {
    Seqs.StepAndKeep(ps, MovePipe, PipeOnScreen)
  }

  /**
   * Every gold moves two units left; the survivors are exactly the moved
   * golds that are uncollected and on screen, in their original order.
   */
  function UpdateGolds(gs: seq<Gold>): (r: seq<Gold>)
    ensures |r| <= |gs|
    ensures Seqs.IsSubsequence(r, Seqs.Map(MoveGold, gs))
    ensures forall k :: 0 <= k < |r| ==> !r[k].collected && r[k].x + r[k].size > 0.0
    ensures forall i :: 0 <= i < |gs| && !gs[i].collected && gs[i].x - 2.0 + gs[i].size > 0.0 ==> MoveGold(gs[i]) in r
    ensures |r| == Seqs.Count(Seqs.Map(MoveGold, gs), GoldKept)
  {
    Seqs.StepAndKeep(gs, MoveGold, GoldKept)
  }

  /** Each surviving pipe is an input pipe moved by exactly two units. */
  lemma UpdatePipesShiftsByTwo(ps: seq<Pipe>)
    ensures forall k :: 0 <= k < |UpdatePipes(ps)| ==> UpdatePipes(ps)[k].(x := UpdatePipes(ps)[k].x + 2.0) in ps
  {
  }

  /** Each surviving gold is an input gold moved by exactly two units. */
  lemma UpdateGoldsShiftsByTwo(gs: seq<Gold>)
    ensures forall k :: 0 <= k < |UpdateGolds(gs)| ==> UpdateGolds(gs)[k].(x := UpdateGolds(gs)[k].x + 2.0) in gs
  {
  }

  /** The two segments of a pair scroll together and leave the screen together, so pruning keeps the list a sequence of pairs. */
  lemma {:induction false} UpdatePipesKeepsPairs(ps: seq<Pipe>)
    requires Paired(ps)
    ensures Paired(UpdatePipes(ps))
    decreases |ps|
  {
    if |ps| > 0 {
      var top, bottom := MovePipe(ps[0]), MovePipe(ps[1]);
      assert IsPair(top, bottom) && (PipeOnScreen(top) <==> PipeOnScreen(bottom));
      var rest := UpdatePipes(ps[2..]);
      UpdatePipesKeepsPairs(ps[2..]);
      Seqs.StepAndKeepCons(ps, MovePipe, PipeOnScreen);
      Seqs.StepAndKeepCons(ps[1..], MovePipe, PipeOnScreen);
      assert ps[1..][1..] == ps[2..];
      if PipeOnScreen(top) {
        assert UpdatePipes(ps[1..]) == [bottom] + rest;
        assert UpdatePipes(ps) == [top] + ([bottom] + rest);
        assert ([top] + ([bottom] + rest))[2..] == rest;
      } else {
        assert UpdatePipes(ps[1..]) == [] + rest;
        assert UpdatePipes(ps) == [] + ([] + rest);
        assert [] + ([] + rest) == rest;
      }
    }
  }
}
