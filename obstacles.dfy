/** The pipes: how one is spawned, how the list moves every frame and which
    pipes are dropped (`updatePipes` in script.js). These functions specify the
    method `Flappy.Game.UpdatePipes`, which changes the list in place. */
module Obstacles {
  import opened World

  /** A pipe whose gap has the right size and whose upper segment ends in the
      upper half of the field, as every spawned pipe has. */
  predicate WellFormed(p: Pipe)
  {
    && p.width == PipeWidth
    && 0.0 <= p.top < GameHeight / 2.0
    && p.top + p.bottom + PipeGap == GameHeight
  }

  /** The pipe's right edge is still right of the field's left edge. */
  predicate OnScreen(p: Pipe)
  {
    p.x + p.width > 0.0
  }

  /** The list is in left-to-right screen order, oldest pipe first. */
  predicate LeftToRight(ps: seq<Pipe>)
  {
    forall i, j :: 0 <= i < j < |ps| ==> ps[i].x < ps[j].x
  }

  /** What holds of the pipe list between two frames. */
  predicate PipesValid(ps: seq<Pipe>)
  {
    && (forall p :: p in ps ==> WellFormed(p) && OnScreen(p) && p.x < GameWidth)
    && LeftToRight(ps)
  }

  /** `a` is `b` with some elements left out, the rest in their order. */
  predicate Subsequence<T(==)>(a: seq<T>, b: seq<T>)
    decreases |b|
  {
    || a == []
    || (&& |b| > 0
        && (|| (a[|a| - 1] == b[|b| - 1] && Subsequence(a[..|a| - 1], b[..|b| - 1]))
            || Subsequence(a, b[..|b| - 1])))
  }

  /** The pipe spawned at the right edge of the field, its upper segment `top`
      high and its gap `PipeGap` high. */
  function NewPipe(top: real): (p: Pipe)
    ensures p.x == GameWidth
    ensures p.width == PipeWidth && p.top == top
    ensures p.top + p.bottom + PipeGap == GameHeight
    ensures 0.0 <= top < GameHeight / 2.0 ==> WellFormed(p)
  {
    Pipe(GameWidth, PipeWidth, top, GameHeight - top - PipeGap)
  }

  /** The pipes spawned on frame `frame`. */
  function Spawned(frame: nat, top: real): seq<Pipe>
  {
    if frame % SpawnInterval == 0 then [NewPipe(top)] else []
  }

  function Shifted(p: Pipe): Pipe
  {
    p.(x := p.x - PipeSpeed)
  }

  /** Every pipe moved left by `PipeSpeed`, nothing else about it changed. */
  function ShiftAll(ps: seq<Pipe>): seq<Pipe>
  {
    seq(|ps|, i requires 0 <= i < |ps| => Shifted(ps[i]))
  }

  /** `pipes.filter(pipe => pipe.x + pipe.width > 0)`: exactly the pipes still
      on screen are kept. */
  function KeepOnScreen(ps: seq<Pipe>): (r: seq<Pipe>)
    ensures forall p :: p in r <==> p in ps && OnScreen(p)
  {
    if ps == [] then []
    else
      assert ps == ps[..|ps| - 1] + [ps[|ps| - 1]];
      KeepOnScreen(ps[..|ps| - 1]) + (if OnScreen(ps[|ps| - 1]) then [ps[|ps| - 1]] else [])
  }

  /** The filter keeps the pipes it does not drop in their order. */
  lemma {:induction false} KeepOnScreenInOrder(ps: seq<Pipe>)
    ensures Subsequence(KeepOnScreen(ps), ps)
  {
    if ps != [] {
      var init := ps[..|ps| - 1];
      KeepOnScreenInOrder(init);
      var r := KeepOnScreen(ps);
      if OnScreen(ps[|ps| - 1]) {
        assert r[..|r| - 1] == KeepOnScreen(init);
      } else {
        assert r == KeepOnScreen(init);
      }
    }
  }

  /** Filtering a left-to-right list leaves a left-to-right list. */
  lemma {:induction false} KeepOnScreenLeftToRight(ps: seq<Pipe>)
    requires LeftToRight(ps)
    ensures LeftToRight(KeepOnScreen(ps))
  {
    if ps != [] {
      var init, last := ps[..|ps| - 1], ps[|ps| - 1];
      KeepOnScreenLeftToRight(init);
      var kept := KeepOnScreen(init);
      forall q | q in kept ensures q.x < last.x {
        var i :| 0 <= i < |init| && init[i] == q;
        assert ps[i] == q;
      }
    }
  }

  /** The pipe list after one call of `updatePipes` on frame `frame`, where
      `top` is the random height drawn for a pipe spawned on that frame. */
  function Advanced(ps: seq<Pipe>, frame: nat, top: real): seq<Pipe>
  {
    KeepOnScreen(ShiftAll(ps + Spawned(frame, top)))
  }

  /** Exactly one pipe is added, and only on a frame that is a multiple of
      `SpawnInterval`; it enters the list last, already moved once, and is
      never dropped on the frame it appears. */
  lemma AdvancedSpawns(ps: seq<Pipe>, frame: nat, top: real)
    ensures Advanced(ps, frame, top) ==
            KeepOnScreen(ShiftAll(ps)) + (if frame % SpawnInterval == 0 then [Shifted(NewPipe(top))] else [])
  {
    if frame % SpawnInterval == 0 {
      var all := ShiftAll(ps + [NewPipe(top)]);
      assert all == ShiftAll(ps) + [Shifted(NewPipe(top))];
      assert all[..|all| - 1] == ShiftAll(ps);
    } else {
      assert ps + [] == ps;
    }
  }

  /** Every pipe that stays has moved left by exactly `PipeSpeed` with its other
      measurements kept; the pipes that stay keep their relative order; the
      dropped ones are exactly those whose right edge has reached the left
      edge of the field. */
  lemma AdvancedMovesLeft(ps: seq<Pipe>, frame: nat, top: real)
    ensures Subsequence(Advanced(ps, frame, top), ShiftAll(ps + Spawned(frame, top)))
    ensures forall p :: p in Advanced(ps, frame, top) <==>
              OnScreen(p) && exists q :: q in ps + Spawned(frame, top) && p == q.(x := q.x - PipeSpeed)
  {
    var all := ps + Spawned(frame, top);
    KeepOnScreenInOrder(ShiftAll(all));
    forall p ensures p in ShiftAll(all) <==> exists q :: q in all && p == q.(x := q.x - PipeSpeed) {
      if p in ShiftAll(all) {
        var i :| 0 <= i < |all| && ShiftAll(all)[i] == p;
        assert all[i] in all;
      }
      if exists q :: q in all && p == q.(x := q.x - PipeSpeed) {
        var q :| q in all && p == q.(x := q.x - PipeSpeed);
        var i :| 0 <= i < |all| && all[i] == q;
        assert ShiftAll(all)[i] == p;
      }
    }
  }

  /** One frame of pipe movement keeps the list valid: well-formed pipes, all
      on screen, all left of the right edge, in left-to-right order. */
  lemma AdvancedValid(ps: seq<Pipe>, frame: nat, top: real)
    requires PipesValid(ps)
    requires 0.0 <= top < GameHeight / 2.0
    ensures PipesValid(Advanced(ps, frame, top))
  {
    var all := ShiftAll(ps + Spawned(frame, top));
    assert forall i :: 0 <= i < |all| ==> WellFormed(all[i]) && all[i].x < GameWidth by {
      forall i | 0 <= i < |all| ensures WellFormed(all[i]) && all[i].x < GameWidth {
        if i < |ps| {
          assert ps[i] in ps;
        }
      }
    }
    assert LeftToRight(all) by {
      forall i, j | 0 <= i < j < |all| ensures all[i].x < all[j].x {
        assert ps[i] in ps;
        if j < |ps| {
          assert ps[j] in ps;
        }
      }
    }
    KeepOnScreenLeftToRight(all);
  }
}
