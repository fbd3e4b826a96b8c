/**
 * The plant: an append-only list of spheres whose entry 0 is the seed.
 * A sphere's parent is the index of the sphere it grew from.
 */
module Plants {
  import opened Options
  import opened Vectors
  import opened BodySpheres

  /** The seed the plant is created with. */
  function Seed(): BodySphere {
    NewSphere(ORIGIN, SPHERE_RADIUS, None)
  }

  /** Every parent pointer refers to an earlier sphere of the list. */
  predicate ParentsBefore(spheres: seq<BodySphere>) {
    forall i :: 0 <= i < |spheres| && spheres[i].parent.Some? ==> spheres[i].parent.value < i
  }

  /**
   * The plant's shape: the seed (origin, radius 0.2, no parent) at index 0
   * and every other sphere hanging from an earlier one.
   */
  predicate WellFormed(spheres: seq<BodySphere>) {
    && |spheres| >= 1
    && spheres[0].local == ORIGIN
    && spheres[0].radius == SPHERE_RADIUS
    && spheres[0].parent.None?
    && (forall i :: 1 <= i < |spheres| ==> spheres[i].parent.Some?)
    && ParentsBefore(spheres)
  }

  /** The sphere reached from sphere `i` by following parents. */
  function RootOf(spheres: seq<BodySphere>, i: nat): (r: nat)
    requires i < |spheres| && ParentsBefore(spheres)
    ensures r <= i && spheres[r].parent.None?
    ensures WellFormed(spheres) ==> r == 0
    decreases i
  {
    match spheres[i].parent
    case None => i
    case Some(p) => RootOf(spheres, p)
  }

  /** Sphere `k` collides with a nutrient of the given radius at `pos`. */
  predicate Hits(spheres: seq<BodySphere>, k: nat, pos: Vec3, radius: real, scene: Scene)
    requires k < |spheres|
  {
    Collides(scene.distance(pos, k), radius, spheres[k].radius)
  }

  /** The lowest-indexed sphere at or after `from` that collides, if any. */
  function FirstHitFrom(spheres: seq<BodySphere>, from: nat, pos: Vec3, radius: real, scene: Scene): (k: Option<nat>)
    ensures k.Some? ==> from <= k.value < |spheres| && Hits(spheres, k.value, pos, radius, scene)
    ensures k.Some? ==> forall j :: from <= j < k.value ==> !Hits(spheres, j, pos, radius, scene)
    ensures k.None? ==> forall j :: from <= j < |spheres| ==> !Hits(spheres, j, pos, radius, scene)
    decreases |spheres| - from
  {
    if from >= |spheres| then None
    else if Hits(spheres, from, pos, radius, scene) then Some(from)
    else FirstHitFrom(spheres, from + 1, pos, radius, scene)
  }

  function FirstHit(spheres: seq<BodySphere>, pos: Vec3, radius: real, scene: Scene): Option<nat> {
    FirstHitFrom(spheres, 0, pos, radius, scene)
  }

  /** The sphere grown from sphere `k` by a nutrient at `pos`. */
  function Child(k: nat, pos: Vec3, scene: Scene): (r: BodySphere)
    ensures r.parent == Some(k) && r.local == scene.toLocal(pos, k)
    ensures r.radius == SPHERE_RADIUS && r.age == 0.0
  {
    NewSphere(scene.toLocal(pos, k), SPHERE_RADIUS, Some(k))
  }

  /** The list after one collision check of a nutrient at `pos`. */
  function AfterCollision(spheres: seq<BodySphere>, pos: Vec3, radius: real, scene: Scene): (grown: seq<BodySphere>)
    ensures |grown| == |spheres| + (if FirstHit(spheres, pos, radius, scene).Some? then 1 else 0)
    ensures grown[..|spheres|] == spheres
    ensures |grown| > |spheres| <==> exists k :: 0 <= k < |spheres| && Hits(spheres, k, pos, radius, scene)
    ensures |grown| > |spheres| ==> grown[|spheres|].parent.Some?
    ensures |grown| > |spheres| ==>
              var k := grown[|spheres|].parent.value;
              && k < |spheres|
              && Hits(spheres, k, pos, radius, scene)
              && (forall j :: 0 <= j < k ==> !Hits(spheres, j, pos, radius, scene))
              && grown[|spheres|].radius == SPHERE_RADIUS
              && grown[|spheres|].age == 0.0
    ensures WellFormed(spheres) ==> WellFormed(grown)
  {
    match FirstHit(spheres, pos, radius, scene)
    case None => spheres
    case Some(k) => spheres + [Child(k, pos, scene)]
  }

  /**
   * Where the nutrient's position ends after the check: the collision test
   * converts it in place into the frame of the sphere it hit.
   */
  function Relocated(spheres: seq<BodySphere>, pos: Vec3, radius: real, scene: Scene): Vec3 {
    match FirstHit(spheres, pos, radius, scene)
    case None => pos
    case Some(k) => scene.toLocal(pos, k)
  }

  /**
   * A nutrient that hits ends where the new sphere sits, in the frame of the
   * sphere it grew from; one that misses keeps its position.
   */
  lemma RelocatedToChild(spheres: seq<BodySphere>, pos: Vec3, radius: real, scene: Scene)
    ensures var grown := AfterCollision(spheres, pos, radius, scene);
            |grown| > |spheres| ==> Relocated(spheres, pos, radius, scene) == grown[|spheres|].local
    ensures FirstHit(spheres, pos, radius, scene).None? ==> Relocated(spheres, pos, radius, scene) == pos
  {
  }

  /** A nutrient as the collision test sees it: its position after moving, and its radius. */
  datatype Mover = Mover(position: Vec3, radius: real)

  /** The list after the collision checks of the first `n` movers, one after the other in list order. */
  function Grow(spheres: seq<BodySphere>, ms: seq<Mover>, n: nat, scene: Scene): seq<BodySphere>
    requires n <= |ms|
  {
    if n == 0 then spheres
    else AfterCollision(Grow(spheres, ms, n - 1, scene), ms[n - 1].position, ms[n - 1].radius, scene)
  }

  /** Mover `i` hits the plant the movers before it have grown. */
  predicate HitAt(spheres: seq<BodySphere>, ms: seq<Mover>, i: nat, scene: Scene)
    requires i < |ms|
  {
    FirstHit(Grow(spheres, ms, i, scene), ms[i].position, ms[i].radius, scene).Some?
  }

  /** Where mover `i`'s position ends after its check. */
  function LandingAt(spheres: seq<BodySphere>, ms: seq<Mover>, i: nat, scene: Scene): Vec3
    requires i < |ms|
  {
    Relocated(Grow(spheres, ms, i, scene), ms[i].position, ms[i].radius, scene)
  }

  /** How many of the first `n` movers hit. */
  function HitCount(spheres: seq<BodySphere>, ms: seq<Mover>, n: nat, scene: Scene): nat
    requires n <= |ms|
  {
    if n == 0 then 0
    else HitCount(spheres, ms, n - 1, scene) + (if HitAt(spheres, ms, n - 1, scene) then 1 else 0)
  }

  /**
   * A frame's checks only append: the old spheres stay in front, the plant
   * stays well formed, and it gains exactly one sphere per mover that hits.
   */
  lemma {:induction false} GrowAppends(spheres: seq<BodySphere>, ms: seq<Mover>, n: nat, scene: Scene)
    requires n <= |ms|
    ensures |Grow(spheres, ms, n, scene)| == |spheres| + HitCount(spheres, ms, n, scene)
    ensures Grow(spheres, ms, n, scene)[..|spheres|] == spheres
    ensures WellFormed(spheres) ==> WellFormed(Grow(spheres, ms, n, scene))
  {
    if n > 0 {
      GrowAppends(spheres, ms, n - 1, scene);
      var before := Grow(spheres, ms, n - 1, scene);
      assert before[..|spheres|] == spheres;
    }
  }

  /** Every sphere aged by one growth step. */
  function StepAll(spheres: seq<BodySphere>, dtime: real): (stepped: seq<BodySphere>)
    ensures |stepped| == |spheres|
    ensures forall i :: 0 <= i < |spheres| ==> stepped[i] == spheres[i].Step(dtime)
    ensures WellFormed(spheres) ==> WellFormed(stepped)
  {
    seq(|spheres|, i requires 0 <= i < |spheres| => spheres[i].Step(dtime))
  }

  /** The plant `init` builds: the seed with two leaves and a leaf on the second. */
  function InitialSpheres(): seq<BodySphere> {
    [ Seed(),
      NewSphere(Vec3(0.3, 0.0, 0.0), SPHERE_RADIUS, Some(0)),
      NewSphere(Vec3(0.0, 0.3, 0.0), SPHERE_RADIUS, Some(0)),
      NewSphere(Vec3(0.0, 0.3, 0.0), SPHERE_RADIUS, Some(2)) ]
  }

  class Plant {
    var spheres: seq<BodySphere>

    ghost predicate Valid()
      reads this
    {
      WellFormed(spheres)
    }

    /** A new plant holds the seed alone. */
    constructor()
      ensures Valid()
      ensures spheres == [Seed()]
    {
      spheres := [Seed()];
    }

    method AddBodySphere(sphere: BodySphere)
      modifies this
      ensures spheres == old(spheres) + [sphere]
      ensures old(Valid()) && sphere.parent.Some? && sphere.parent.value < |old(spheres)| ==> Valid()
    {
      spheres := spheres + [sphere];
    }

    /**
     * Sphere `k`'s collision test against a nutrient at `pos`; on a hit it
     * appends one new sphere grown from sphere `k`. The test converts the
     * nutrient's own position vector into sphere `k`'s frame in place;
     * `moved` is that vector as the test leaves it.
     */
    method SphereCheckCollision(k: nat, pos: Vec3, radius: real, scene: Scene) returns (hit: bool, moved: Vec3)
      requires k < |spheres|
      modifies this
      ensures hit == Hits(old(spheres), k, pos, radius, scene)
      ensures spheres == if hit then old(spheres) + [Child(k, pos, scene)] else old(spheres)
      ensures moved == if hit then scene.toLocal(pos, k) else pos
      ensures old(Valid()) ==> Valid()
    {
      var distance := scene.distance(pos, k);
      if Collides(distance, radius, spheres[k].radius) {
        moved := scene.toLocal(pos, k);
        AddBodySphere(NewSphere(moved, SPHERE_RADIUS, Some(k)));
        return true, moved;
      }
      return false, pos;
    }

    /**
     * Tries the spheres in list order and stops at the first that collides,
     * so at most one sphere is added, grown from the lowest colliding index.
     */
    method CheckCollision(pos: Vec3, radius: real, scene: Scene) returns (hit: bool, moved: Vec3)
      modifies this
      ensures hit == FirstHit(old(spheres), pos, radius, scene).Some?
      ensures spheres == AfterCollision(old(spheres), pos, radius, scene)
      ensures moved == Relocated(old(spheres), pos, radius, scene)
      ensures old(Valid()) ==> Valid()
    {
      var i := 0;
      while i < |spheres|
        invariant 0 <= i <= |spheres|
        invariant spheres == old(spheres)
        invariant FirstHit(spheres, pos, radius, scene) == FirstHitFrom(spheres, i, pos, radius, scene)
      {
        hit, moved := SphereCheckCollision(i, pos, radius, scene);
        if hit {
          return;
        }
        i := i + 1;
      }
      return false, pos;
    }

    /** Ages every sphere by exactly `dtime`, each once. */
    method Step(dtime: real)
      modifies this
      ensures spheres == StepAll(old(spheres), dtime)
      ensures old(Valid()) ==> Valid()
    {
      var n := 0;
      while n < |spheres|
        invariant 0 <= n <= |spheres| == |old(spheres)|
        invariant forall i :: 0 <= i < n ==> spheres[i] == old(spheres[i]).Step(dtime)
        invariant forall i :: n <= i < |spheres| ==> spheres[i] == old(spheres[i])
      {
        spheres := spheres[n := spheres[n].Step(dtime)];
        n := n + 1;
      }
    }
  }

  /** `init`'s plant: a seed, two leaves on it, a third leaf on the second. */
  method InitialPlant() returns (plant: Plant)
    ensures fresh(plant) && plant.Valid()
    ensures plant.spheres == InitialSpheres()
  {
    plant := new Plant();
    var leaf1 := NewSphere(Vec3(0.3, 0.0, 0.0), SPHERE_RADIUS, Some(0));
    var leaf2 := NewSphere(Vec3(0.0, 0.3, 0.0), SPHERE_RADIUS, Some(0));
    var leaf3 := NewSphere(Vec3(0.0, 0.3, 0.0), SPHERE_RADIUS, Some(2));
    plant.AddBodySphere(leaf1);
    plant.AddBodySphere(leaf2);
    plant.AddBodySphere(leaf3);
  }
}
