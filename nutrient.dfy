/**
 * A falling nutrient pellet, and the two ways the frame sweep splits a
 * list of them: the ones kept, in order, and the ones removed from the
 * scene, in the order the sweep removes them (highest index first).
 */
module Nutrients {
  import opened Vectors
  import opened Plants

  /** Radius, start point and velocity of every nutrient the timer spawns. */
  const NUTRIENT_RADIUS: real := 0.2
  const SPAWN_POSITION: Vec3 := Vec3(-2.0, 0.0, 0.0)
  const SPAWN_VELOCITY: Vec3 := Vec3(1.0, 0.0, 0.0)

  class Nutrient {
    var position: Vec3
    const velocity: Vec3
    const radius: real
    var markedForRemoval: bool

    constructor(position: Vec3, velocity: Vec3, radius: real)
      ensures this.position == position && this.velocity == velocity && this.radius == radius
      ensures !markedForRemoval
    {
      this.velocity := velocity;
      this.radius := radius;
      this.position := position;
      this.markedForRemoval := false;
    }

    /**
     * Moves by `velocity * dtime`, then asks the plant for a collision at
     * the new position and marks itself for removal on a hit. A hit also
     * leaves the position converted into the hit sphere's frame, since the
     * test rewrites the nutrient's own vector. The mark is never cleared.
     */
    method Step(plant: Plant, dtime: real, scene: Scene)
      modifies this, plant
      ensures var moved := old(position).Add(velocity.Scaled(dtime));
              && position == Relocated(old(plant.spheres), moved, radius, scene)
              && markedForRemoval == (old(markedForRemoval) || FirstHit(old(plant.spheres), moved, radius, scene).Some?)
              && plant.spheres == AfterCollision(old(plant.spheres), moved, radius, scene)
      ensures old(plant.Valid()) ==> plant.Valid()
    {
      position := position.Add(velocity.Scaled(dtime));
      var hit;
      hit, position := plant.CheckCollision(position, radius, scene);
      if hit {
        markedForRemoval := true;
      }
    }
  }

  /** The frame's nutrients as the collision test sees them after moving by `dtime`. */
  function Moved(ns: seq<Nutrient>, dtime: real): (ms: seq<Mover>)
    reads ns
    ensures |ms| == |ns|
  {
    seq(|ns|, i reads ns requires 0 <= i < |ns| => Mover(ns[i].position.Add(ns[i].velocity.Scaled(dtime)), ns[i].radius))
  }

  predicate Distinct<T(==)>(s: seq<T>) {
    forall i, j :: 0 <= i < j < |s| ==> s[i] != s[j]
  }

  predicate NoneMarked(ns: seq<Nutrient>)
    reads ns
  {
    forall i :: 0 <= i < |ns| ==> !ns[i].markedForRemoval
  }

  /** The nutrients the sweep keeps: exactly the unmarked ones. */
  function Kept(ns: seq<Nutrient>): seq<Nutrient>
    reads ns
  {
    if ns == [] then []
    else (if ns[0].markedForRemoval then [] else [ns[0]]) + Kept(ns[1..])
  }

  /** The nutrients the sweep removes from the scene: exactly the marked ones. */
  function Removed(ns: seq<Nutrient>): seq<Nutrient>
    reads ns
  {
    if ns == [] then []
    else Removed(ns[1..]) + (if ns[0].markedForRemoval then [ns[0]] else [])
  }

  /** The sweep keeps exactly the unmarked nutrients. */
  lemma {:induction false} KeptAreUnmarked(ns: seq<Nutrient>)
    ensures forall i :: 0 <= i < |Kept(ns)| ==> Kept(ns)[i] in ns && !Kept(ns)[i].markedForRemoval
    ensures forall i :: 0 <= i < |ns| && !ns[i].markedForRemoval ==> ns[i] in Kept(ns)
  {
    if ns != [] {
      KeptAreUnmarked(ns[1..]);
      assert forall i :: 1 <= i < |ns| ==> ns[i] == ns[1..][i - 1];
    }
  }

  /** The sweep removes exactly the marked nutrients. */
  lemma {:induction false} RemovedAreMarked(ns: seq<Nutrient>)
    ensures forall i :: 0 <= i < |Removed(ns)| ==> Removed(ns)[i] in ns && Removed(ns)[i].markedForRemoval
    ensures forall i :: 0 <= i < |ns| && ns[i].markedForRemoval ==> ns[i] in Removed(ns)
  {
    if ns != [] {
      RemovedAreMarked(ns[1..]);
      assert forall i :: 1 <= i < |ns| ==> ns[i] == ns[1..][i - 1];
    }
  }

  /** The sweep keeps relative order: it distributes over concatenation. */
  lemma {:induction false} KeptDistributes(a: seq<Nutrient>, b: seq<Nutrient>)
    ensures Kept(a + b) == Kept(a) + Kept(b)
  {
    if a != [] {
      assert (a + b)[0] == a[0] && (a + b)[1..] == a[1..] + b;
      KeptDistributes(a[1..], b);
    } else {
      assert a + b == b;
    }
  }

  /** Removal runs from the back: the last element is removed first. */
  lemma {:induction false} RemovedAppend(ns: seq<Nutrient>, x: Nutrient)
    ensures Removed(ns + [x]) == (if x.markedForRemoval then [x] else []) + Removed(ns)
  {
    if ns != [] {
      assert (ns + [x])[1..] == ns[1..] + [x];
      RemovedAppend(ns[1..], x);
    }
  }

  /** Extending a prefix by one element: that element is removed first. */
  lemma RemovedPrefixOneMore(ns: seq<Nutrient>, n: nat)
    requires n < |ns|
    ensures Removed(ns[..n + 1]) == (if ns[n].markedForRemoval then [ns[n]] else []) + Removed(ns[..n])
  {
    assert ns[..n + 1] == ns[..n] + [ns[n]];
    RemovedAppend(ns[..n], ns[n]);
  }

  /** Every nutrient is either kept or removed, never both, never lost. */
  lemma {:induction false} SweepPartitions(ns: seq<Nutrient>)
    ensures multiset(Kept(ns)) + multiset(Removed(ns)) == multiset(ns)
    ensures |Kept(ns)| + |Removed(ns)| == |ns|
  {
    if ns != [] {
      SweepPartitions(ns[1..]);
      assert ns == [ns[0]] + ns[1..];
    }
  }

  /** A list without marks is swept to itself and nothing leaves the scene. */
  lemma {:induction false} SweepOfUnmarked(ns: seq<Nutrient>)
    requires NoneMarked(ns)
    ensures Kept(ns) == ns
    ensures Removed(ns) == []
  {
    if ns != [] {
      SweepOfUnmarked(ns[1..]);
    }
  }

  /** Sweeping twice is sweeping once. */
  lemma SweepIsIdempotent(ns: seq<Nutrient>)
    ensures Kept(Kept(ns)) == Kept(ns)
    ensures Removed(Kept(ns)) == []
  {
    KeptAreUnmarked(ns);
    SweepOfUnmarked(Kept(ns));
  }

  lemma {:induction false} KeptDistinct(ns: seq<Nutrient>)
    requires Distinct(ns)
    ensures Distinct(Kept(ns))
  {
    if ns != [] {
      KeptDistinct(ns[1..]);
      KeptAreUnmarked(ns[1..]);
      assert ns[0] !in ns[1..];
    }
  }

  lemma {:induction false} DistinctOccursOnce<T>(s: seq<T>, x: T)
    requires Distinct(s) && x in s
    ensures multiset(s)[x] == 1
  {
    assert s == [s[0]] + s[1..];
    if s[0] == x {
      assert x !in s[1..];
    } else {
      DistinctOccursOnce(s[1..], x);
    }
  }

  /** In a list without duplicates, each marked nutrient leaves the scene exactly once. */
  lemma RemovedExactlyOnce(ns: seq<Nutrient>, x: Nutrient)
    requires Distinct(ns) && x in ns && x.markedForRemoval
    ensures multiset(Removed(ns))[x] == 1
  {
    SweepPartitions(ns);
    DistinctOccursOnce(ns, x);
    KeptAreUnmarked(ns);
    assert x !in Kept(ns);
  }
}
