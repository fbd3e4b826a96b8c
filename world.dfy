/**
 * The game's global state: the plant, the active nutrients, and the log of
 * nutrients taken out of the scene. `GlobalStep` is one animation frame.
 */
module Worlds {
  import opened Vectors
  import opened BodySpheres
  import opened Plants
  import opened Nutrients

  /** Unfolding the sweep at `n`: the element at `n` is kept or removed. */
  lemma SweepUnfold(all: seq<Nutrient>, n: nat)
    requires n < |all|
    ensures Kept(all[n..]) == (if all[n].markedForRemoval then [] else [all[n]]) + Kept(all[n + 1..])
    ensures Removed(all[n..]) == Removed(all[n + 1..]) + (if all[n].markedForRemoval then [all[n]] else [])
  {
    assert all[n..][1..] == all[n + 1..];
  }

  /** Splicing out the element between `p` and `k`. */
  lemma SpliceMiddle<T>(p: seq<T>, x: T, k: seq<T>)
    ensures var s := p + [x] + k;
            && s[|p|] == x
            && s[..|p|] + s[|p| + 1..] == p + k
  {
    var s := p + [x] + k;
    assert s[..|p|] == p;
    assert s[|p| + 1..] == k;
  }

  /**
   * The sweep's loop step: with every index above `n` done, visiting `n`
   * leaves the list as if every index from `n` up were done.
   */
  lemma KeptOneMore(all: seq<Nutrient>, n: nat, ns: seq<Nutrient>)
    requires n < |all|
    requires ns == all[..n + 1] + Kept(all[n + 1..])
    ensures n < |ns| && ns[n] == all[n]
    ensures all[n].markedForRemoval ==> ns[..n] + ns[n + 1..] == all[..n] + Kept(all[n..])
    ensures !all[n].markedForRemoval ==> ns == all[..n] + Kept(all[n..])
  {
    SweepUnfold(all, n);
    var rest := Kept(all[n + 1..]);
    assert all[..n + 1] == all[..n] + [all[n]];
    SpliceMiddle(all[..n], all[n], rest);
    assert ns == all[..n] + [all[n]] + rest;
  }

  /** The same step for the log of nutrients removed from the scene. */
  lemma RemovedOneMore(all: seq<Nutrient>, n: nat, log: seq<Nutrient>, base: seq<Nutrient>)
    requires n < |all|
    requires log == base + Removed(all[n + 1..])
    ensures all[n].markedForRemoval ==> log + [all[n]] == base + Removed(all[n..])
    ensures !all[n].markedForRemoval ==> log == base + Removed(all[n..])
  {
    SweepUnfold(all, n);
    if all[n].markedForRemoval {
      assert log + [all[n]] == base + (Removed(all[n + 1..]) + [all[n]]);
    }
  }

  /**
   * Nutrient `i` of a frame whose checks began on `start` is done: it is
   * marked exactly when it hit, and its position is where its check left it.
   */
  ghost predicate Settled(x: Nutrient, start: seq<BodySphere>, ms: seq<Mover>, i: nat, scene: Scene)
    requires i < |ms|
    reads x
  {
    x.markedForRemoval == HitAt(start, ms, i, scene) && x.position == LandingAt(start, ms, i, scene)
  }

  /** When every mark records a hit, the sweep removes one nutrient per hit. */
  lemma {:induction false} RemovedCountsHits(ns: seq<Nutrient>, start: seq<BodySphere>, ms: seq<Mover>, k: nat, scene: Scene)
    requires k <= |ns| == |ms|
    requires forall i :: 0 <= i < |ns| ==> ns[i].markedForRemoval == HitAt(start, ms, i, scene)
    ensures |Removed(ns[..k])| == HitCount(start, ms, k, scene)
  {
    if k == 0 {
      assert ns[..0] == [];
    } else {
      RemovedCountsHits(ns, start, ms, k - 1, scene);
      RemovedPrefixOneMore(ns, k - 1);
    }
  }

  /**
   * Once every nutrient of a frame is settled, each one is marked exactly
   * when it hit and sits where its check left it, and the sweep will remove
   * one nutrient per hit.
   */
  lemma FrameOutcome(ns: seq<Nutrient>, start: seq<BodySphere>, ms: seq<Mover>, scene: Scene)
    requires |ns| == |ms|
    requires forall i {:trigger Settled(ns[i], start, ms, i, scene)} :: 0 <= i < |ns| ==> Settled(ns[i], start, ms, i, scene)
    ensures forall i {:trigger HitAt(start, ms, i, scene)} :: 0 <= i < |ns| ==> ns[i].markedForRemoval == HitAt(start, ms, i, scene)
    ensures forall i {:trigger LandingAt(start, ms, i, scene)} :: 0 <= i < |ns| ==> ns[i].position == LandingAt(start, ms, i, scene)
    ensures |Removed(ns)| == HitCount(start, ms, |ns|, scene)
  {
    assert forall i :: 0 <= i < |ns| ==> Settled(ns[i], start, ms, i, scene);
    RemovedCountsHits(ns, start, ms, |ns|, scene);
    assert ns[..|ns|] == ns;
  }

  class World {
    const plant: Plant
    var nutrients: seq<Nutrient>
    /** Every nutrient handed to `removeFromScene`, in call order. */
    var sceneRemovals: seq<Nutrient>

    /**
     * Between frames: the plant is well formed, no nutrient is listed
     * twice or carries a mark, and none that left the scene is listed.
     */
    ghost predicate Valid()
      reads this, plant, nutrients
    {
      && plant.Valid()
      && Distinct(nutrients)
      && NoneMarked(nutrients)
      && (forall x :: x in sceneRemovals ==> x !in nutrients)
    }

    /** The state `init` leaves: its four-sphere plant and no nutrients. */
    constructor()
      ensures Valid() && fresh(plant)
      ensures plant.spheres == InitialSpheres()
      ensures nutrients == [] && sceneRemovals == []
    {
      var seedling := InitialPlant();
      plant := seedling;
      nutrients := [];
      sceneRemovals := [];
    }

    /** The timer callback: one new nutrient at the left edge, moving right. */
    method SpawnNutrient() returns (n: Nutrient)
      requires Valid()
      modifies this
      ensures Valid() && fresh(n)
      ensures nutrients == old(nutrients) + [n]
      ensures n.position == SPAWN_POSITION && n.velocity == SPAWN_VELOCITY && n.radius == NUTRIENT_RADIUS
      ensures !n.markedForRemoval
      ensures sceneRemovals == old(sceneRemovals)
    {
      n := new Nutrient(SPAWN_POSITION, SPAWN_VELOCITY, NUTRIENT_RADIUS);
      nutrients := nutrients + [n];
    }

    /**
     * The frame loop's call of one nutrient's step. `start` is the plant the
     * frame's checks began with and `ms` the frame's moved nutrients, so the
     * plant is `Grow(start, ms, n)` on entry and the nutrients before `n`
     * are settled. The nutrient moves and the plant answers the collision
     * test at the new position: a hit marks the nutrient, grows one sphere
     * from the first sphere hit, and leaves the nutrient's position in that
     * sphere's frame. Afterwards nutrient `n` is settled too.
     */
    method StepNutrientAt(n: nat, dtime: real, scene: Scene, ghost start: seq<BodySphere>, ghost ms: seq<Mover>)
      requires n < |nutrients| && n < |ms| && plant.Valid()
      requires plant.spheres == Grow(start, ms, n, scene)
      requires ms[n] == Mover(nutrients[n].position.Add(nutrients[n].velocity.Scaled(dtime)), nutrients[n].radius)
      requires !nutrients[n].markedForRemoval
      requires forall i :: 0 <= i < n ==> nutrients[i] != nutrients[n]
      requires forall i {:trigger Settled(nutrients[i], start, ms, i, scene)} :: 0 <= i < n ==> Settled(nutrients[i], start, ms, i, scene)
      modifies plant, nutrients[n]
      ensures plant.Valid()
      ensures plant.spheres == Grow(start, ms, n + 1, scene)
      ensures forall i {:trigger Settled(nutrients[i], start, ms, i, scene)} :: 0 <= i <= n ==> Settled(nutrients[i], start, ms, i, scene)
    {
      nutrients[n].Step(plant, dtime, scene);
    }

    /**
     * The frame loop over the nutrients, in list order: each is stepped
     * once, and afterwards all are settled against the checks that began on
     * `start`, and the plant is what those checks grew.
     */
    method SettleAll(dtime: real, scene: Scene, ghost start: seq<BodySphere>, ghost ms: seq<Mover>)
      requires plant.Valid() && plant.spheres == start
      requires Distinct(nutrients) && NoneMarked(nutrients) && |ms| == |nutrients|
      requires forall i :: 0 <= i < |nutrients| ==>
                 ms[i] == Mover(nutrients[i].position.Add(nutrients[i].velocity.Scaled(dtime)), nutrients[i].radius)
      modifies plant, nutrients
      ensures plant.Valid()
      ensures plant.spheres == Grow(start, ms, |nutrients|, scene)
      ensures forall i {:trigger Settled(nutrients[i], start, ms, i, scene)} :: 0 <= i < |nutrients| ==> Settled(nutrients[i], start, ms, i, scene)
    {
      var n := 0;
      while n < |nutrients|
        invariant 0 <= n <= |nutrients|
        invariant plant.Valid()
        invariant plant.spheres == Grow(start, ms, n, scene)
        invariant forall i {:trigger Settled(nutrients[i], start, ms, i, scene)} :: 0 <= i < n ==> Settled(nutrients[i], start, ms, i, scene)
        invariant forall i :: n <= i < |nutrients| ==>
                    nutrients[i].position == old(nutrients[i].position) && !nutrients[i].markedForRemoval
      {
        assert forall i :: 0 <= i < n ==> nutrients[i] != nutrients[n];
        StepNutrientAt(n, dtime, scene, start, ms);
        n := n + 1;
      }
    }

    /**
     * Steps every nutrient once, in list order. Nutrient `i` is tested
     * against the plant as the nutrients before it left it (`Grow`): it is
     * marked exactly when it hits there and ends where its check left it,
     * and the plant ends as all of the frame's checks leave it, one sphere
     * longer per marked nutrient.
     */
    method StepNutrients(dtime: real, scene: Scene)
      requires plant.Valid() && Distinct(nutrients) && NoneMarked(nutrients)
      modifies plant, nutrients
      ensures plant.Valid()
      ensures plant.spheres == Grow(old(plant.spheres), old(Moved(nutrients, dtime)), |nutrients|, scene)
      ensures forall i {:trigger HitAt(old(plant.spheres), old(Moved(nutrients, dtime)), i, scene)} :: 0 <= i < |nutrients| ==>
                nutrients[i].markedForRemoval == HitAt(old(plant.spheres), old(Moved(nutrients, dtime)), i, scene)
      ensures forall i {:trigger LandingAt(old(plant.spheres), old(Moved(nutrients, dtime)), i, scene)} :: 0 <= i < |nutrients| ==>
                nutrients[i].position == LandingAt(old(plant.spheres), old(Moved(nutrients, dtime)), i, scene)
      ensures |plant.spheres| == |old(plant.spheres)| + |Removed(nutrients)|
      ensures plant.spheres[..|old(plant.spheres)|] == old(plant.spheres)
    {
      ghost var start := plant.spheres;
      ghost var ms := Moved(nutrients, dtime);
      SettleAll(dtime, scene, start, ms);
      GrowAppends(start, ms, |nutrients|, scene);
      FrameOutcome(nutrients, start, ms, scene);
    }

    /** One visit of the sweep: a marked nutrient at `n` leaves the scene and the list. */
    method RemoveIfMarked(n: nat)
      requires n < |nutrients|
      modifies this
      ensures old(nutrients[n].markedForRemoval) ==>
                && nutrients == old(nutrients[..n] + nutrients[n + 1..])
                && sceneRemovals == old(sceneRemovals + [nutrients[n]])
      ensures !old(nutrients[n].markedForRemoval) ==>
                nutrients == old(nutrients) && sceneRemovals == old(sceneRemovals)
    {
      if nutrients[n].markedForRemoval {
        sceneRemovals := sceneRemovals + [nutrients[n]];
        nutrients := nutrients[..n] + nutrients[n + 1..];
      }
    }

    /**
     * The removal sweep: walks from the last index down, so no removal
     * shifts an element the walk has yet to visit.
     */
    method RemoveMarked()
      modifies this
      ensures nutrients == Kept(old(nutrients))
      ensures sceneRemovals == old(sceneRemovals) + Removed(old(nutrients))
    {
      ghost var all := nutrients;
      var n := |nutrients| - 1;
      while n >= 0
        invariant -1 <= n < |all|
        invariant nutrients == all[..n + 1] + Kept(all[n + 1..])
        invariant sceneRemovals == old(sceneRemovals) + Removed(all[n + 1..])
      {
        KeptOneMore(all, n, nutrients);
        RemovedOneMore(all, n, sceneRemovals, old(sceneRemovals));
        RemoveIfMarked(n);
        n := n - 1;
      }
      assert all[0..] == all;
    }

    /**
     * The first two phases of a frame: every sphere ages by `dtime`, then
     * every nutrient is stepped against the aged plant, in list order.
     */
    method Advance(dtime: real, scene: Scene)
      requires Valid()
      modifies plant, nutrients
      ensures plant.Valid() && Distinct(nutrients)
      ensures plant.spheres == Grow(StepAll(old(plant.spheres), dtime), old(Moved(nutrients, dtime)), |nutrients|, scene)
      ensures forall i {:trigger HitAt(StepAll(old(plant.spheres), dtime), old(Moved(nutrients, dtime)), i, scene)} ::
                0 <= i < |nutrients| ==>
                nutrients[i].markedForRemoval == HitAt(StepAll(old(plant.spheres), dtime), old(Moved(nutrients, dtime)), i, scene)
      ensures forall i {:trigger LandingAt(StepAll(old(plant.spheres), dtime), old(Moved(nutrients, dtime)), i, scene)} ::
                0 <= i < |nutrients| ==>
                nutrients[i].position == LandingAt(StepAll(old(plant.spheres), dtime), old(Moved(nutrients, dtime)), i, scene)
      ensures |plant.spheres| == |old(plant.spheres)| + |Removed(nutrients)|
      ensures forall i :: 0 <= i < |old(plant.spheres)| ==> plant.spheres[i] == old(plant.spheres[i]).Step(dtime)
    {
      ghost var ms := Moved(nutrients, dtime);
      plant.Step(dtime);
      ghost var aged := plant.spheres;
      assert ms == Moved(nutrients, dtime);
      StepNutrients(dtime, scene);
      assert forall i :: 0 <= i < |aged| ==> plant.spheres[i] == aged[i];
    }

    /**
     * One frame: grow the plant, move the nutrients (collisions grow new
     * spheres), then sweep. Afterwards no nutrient is marked and the plant
     * is what the frame's collision checks, in list order, made of the aged
     * plant. A nutrient survives, in order, exactly when it did not hit;
     * each one that hit left the scene once.
     */
    method GlobalStep(dtime: real, scene: Scene)
      requires Valid()
      modifies this, plant, nutrients
      ensures Valid()
      ensures plant.spheres == Grow(StepAll(old(plant.spheres), dtime), old(Moved(nutrients, dtime)), |old(nutrients)|, scene)
      ensures forall i {:trigger HitAt(StepAll(old(plant.spheres), dtime), old(Moved(nutrients, dtime)), i, scene)} ::
                0 <= i < |old(nutrients)| ==>
                old(nutrients)[i].markedForRemoval == HitAt(StepAll(old(plant.spheres), dtime), old(Moved(nutrients, dtime)), i, scene)
      ensures forall i {:trigger LandingAt(StepAll(old(plant.spheres), dtime), old(Moved(nutrients, dtime)), i, scene)} ::
                0 <= i < |old(nutrients)| ==>
                old(nutrients)[i].position == LandingAt(StepAll(old(plant.spheres), dtime), old(Moved(nutrients, dtime)), i, scene)
      ensures nutrients == Kept(old(nutrients))
      ensures sceneRemovals == old(sceneRemovals) + Removed(old(nutrients))
      ensures |plant.spheres| == |old(plant.spheres)| + |Removed(old(nutrients))|
      ensures forall i :: 0 <= i < |old(plant.spheres)| ==> plant.spheres[i] == old(plant.spheres[i]).Step(dtime)
    {
      Advance(dtime, scene);
      ghost var stepped := nutrients;
      RemoveMarked();
      KeptDistinct(stepped);
      KeptAreUnmarked(stepped);
      RemovedAreMarked(stepped);
      assert forall x :: x in sceneRemovals ==> x !in nutrients;
    }
  }
}
