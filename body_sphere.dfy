/**
 * One sphere of the plant: its collision threshold and its growth timer.
 * A sphere is a record; the plant keeps them in a list and replaces an
 * entry when the sphere ages.
 */
module BodySpheres {
  import opened Options
  import opened Vectors

  /** How far two spheres may sink into each other before they touch. */
  const OVERLAP: real := 0.1
  /** Seconds a new sphere takes to grow to full size. */
  const SPAWNTIME: real := 0.3
  /** Radius of the seed and of every sphere the plant grows. */
  const SPHERE_RADIUS: real := 0.2
  /** A new mesh shows scale 1 until its first growth step sets it. */
  const DEFAULT_SCALE: real := 1.0

  /**
   * `local` is the position in the parent's frame (in the world's frame
   * for the seed), `parent` the parent's index in the plant's list, and
   * `scale` the mesh scale the last step set.
   */
  datatype BodySphere = BodySphere(local: Vec3, radius: real, parent: Option<nat>, age: real, scale: real)
  {
    /**
     * One growth step: the sphere ages by `dtime` and is resized; where it
     * sits, how big it is and what it hangs from do not change.
     */
    function Step(dtime: real): (r: BodySphere)
      ensures r.local == local && r.radius == radius && r.parent == parent
      ensures r.age - age == dtime
      ensures r.age >= 0.0 ==> 0.0 <= r.scale <= 1.0
      ensures r.scale == ScaleAt(r.age)
      ensures r.scale == 1.0 <==> r.age >= SPAWNTIME
    {
      var grown := age + dtime;
      this.(age := grown, scale := ScaleAt(grown))
    }
  }

  /** A sphere as its constructor leaves it: age 0, default mesh scale. */
  function NewSphere(local: Vec3, radius: real, parent: Option<nat>): (r: BodySphere)
    ensures r.local == local && r.radius == radius && r.parent == parent
    ensures r.age == 0.0 && r.scale == 1.0
  {
    BodySphere(local, radius, parent, 0.0, DEFAULT_SCALE)
  }

  /**
   * The collision test: the two bodies must sink into each other by more
   * than OVERLAP. Since OVERLAP is positive, bodies that merely touch do
   * not collide.
   */
  predicate Collides(distance: real, nutrientRadius: real, sphereRadius: real): (hit: bool)
    ensures hit ==> distance < nutrientRadius + sphereRadius
    ensures nutrientRadius + sphereRadius - distance > OVERLAP ==> hit
  {
    distance < nutrientRadius + sphereRadius - OVERLAP
  }

  /** Equality with the threshold is not a collision. */
  lemma CollisionIsStrict(nutrientRadius: real, sphereRadius: real)
    ensures !Collides(nutrientRadius + sphereRadius - OVERLAP, nutrientRadius, sphereRadius)
    ensures forall d :: d < nutrientRadius + sphereRadius - OVERLAP ==> Collides(d, nutrientRadius, sphereRadius)
  {
  }

  /** Anything closer than a colliding body collides too. */
  lemma CollisionIsMonotone(near: real, far: real, nutrientRadius: real, sphereRadius: real)
    requires near <= far
    ensures Collides(far, nutrientRadius, sphereRadius) ==> Collides(near, nutrientRadius, sphereRadius)
  {
  }

  /** A nutrient of radius 0.2 touches a grown sphere exactly when nearer than 0.3. */
  lemma DefaultReach(distance: real)
    ensures Collides(distance, SPHERE_RADIUS, SPHERE_RADIUS) <==> distance < 0.3
  {
  }

  /** The mesh scale a growth step sets for a sphere of the given age. */
  function ScaleAt(age: real): (s: real)
    ensures s == 1.0 <==> age >= SPAWNTIME
    ensures 0.0 <= age ==> 0.0 <= s <= 1.0
  {
    if age < SPAWNTIME then age / SPAWNTIME else 1.0
  }

  /** Before SPAWNTIME the scale grows at the constant rate 1/SPAWNTIME. */
  lemma ScaleIsLinear(a: real, b: real)
    requires a < SPAWNTIME && b < SPAWNTIME
    ensures ScaleAt(b) - ScaleAt(a) == (b - a) / SPAWNTIME
    ensures ScaleAt(SPAWNTIME / 2.0) == 0.5
  {
  }

  /** An older sphere is never drawn smaller. */
  lemma ScaleIsMonotone(a: real, b: real)
    requires a <= b
    ensures ScaleAt(a) <= ScaleAt(b)
  {
  }

  /** Sum of the frame durations, adding the last one last. */
  function Sum(dts: seq<real>): real {
    if dts == [] then 0.0 else Sum(dts[..|dts| - 1]) + dts[|dts| - 1]
  }

  predicate NonNegative(dts: seq<real>) {
    forall i :: 0 <= i < |dts| ==> dts[i] >= 0.0
  }

  /** The sphere after one growth step per frame duration, in order. */
  function StepMany(s: BodySphere, dts: seq<real>): BodySphere {
    if dts == [] then s else StepMany(s, dts[..|dts| - 1]).Step(dts[|dts| - 1])
  }

  /** Steps add up: age grows by exactly the elapsed time; nothing else but the scale changes. */
  lemma {:induction false} StepsAccumulateAge(s: BodySphere, dts: seq<real>)
    ensures StepMany(s, dts).age == s.age + Sum(dts)
    ensures StepMany(s, dts).local == s.local
    ensures StepMany(s, dts).radius == s.radius
    ensures StepMany(s, dts).parent == s.parent
  {
    if dts != [] {
      StepsAccumulateAge(s, dts[..|dts| - 1]);
    }
  }

  lemma {:induction false} SumNonNegative(dts: seq<real>)
    requires NonNegative(dts)
    ensures Sum(dts) >= 0.0
  {
    if dts != [] {
      SumNonNegative(dts[..|dts| - 1]);
    }
  }

  /** Once stepped, a sphere born at a nonnegative age is drawn at a scale in [0, 1]. */
  lemma GrowthStaysInRange(s: BodySphere, dts: seq<real>)
    requires s.age >= 0.0 && NonNegative(dts) && dts != []
    ensures 0.0 <= StepMany(s, dts).scale <= 1.0
    ensures StepMany(s, dts).scale == 1.0 <==> s.age + Sum(dts) >= SPAWNTIME
  {
    StepsAccumulateAge(s, dts);
    SumNonNegative(dts);
  }

  /** From its first step on, a sphere never shrinks under nonnegative steps. */
  lemma ScaleNeverShrinks(s: BodySphere, dts: seq<real>, dtime: real)
    requires dts != [] && dtime >= 0.0
    ensures StepMany(s, dts).scale <= StepMany(s, dts + [dtime]).scale
  {
    assert (dts + [dtime])[..|dts|] == dts;
    var before := StepMany(s, dts);
    ScaleIsMonotone(before.age, before.age + dtime);
  }

  /**
   * A new mesh is drawn at the default scale 1 until its first step, which
   * shrinks it when that step is shorter than SPAWNTIME.
   */
  lemma FirstStepRestartsGrowth(local: Vec3, radius: real, parent: Option<nat>, dtime: real)
    requires 0.0 <= dtime < SPAWNTIME
    ensures NewSphere(local, radius, parent).scale == 1.0
    ensures NewSphere(local, radius, parent).Step(dtime).scale < 1.0
  {
  }
}
