# Bonsai life: growth and collision bookkeeping

A model of the simulation core of the plant game in `src/main.js`. The
plant is a flat, append-only list of body spheres with the seed at index 0.
Nutrient pellets drift towards it. Once per animation frame the game:

- ages every sphere;
- moves every nutrient and asks the plant whether it hit a sphere;
- grows one new sphere from the first sphere hit;
- sweeps the hit nutrients out of the list and out of the scene.

Modules:

- `Vectors` (vectors.dfy): points and velocities (`Vec3`), and `Scene`, the
  frame's world transforms taken as given. `Scene.distance(p, i)` is the
  distance from world point `p` to sphere `i`. `Scene.toLocal(p, i)` is `p`
  in sphere `i`'s local frame.
- `BodySpheres` (body_sphere.dfy) covers one sphere: the constants `OVERLAP`
  (0.1) and `SPAWNTIME` (0.3), the strict collision test, and the growth
  timer with its scale.
- `Plants` (plant.dfy) holds the `Plant` class. Its `spheres` field is a
  `seq` of sphere records, and each record names its parent by list index.
  The file also has the first-hit search and the plant that `init` builds.
- `Nutrients` (nutrient.dfy): the `Nutrient` class, whose position and
  removal mark change in place. It also has `Kept` and `Removed`, the two
  halves a sweep splits a nutrient list into.
- `Worlds` (world.dfy): the `World` class holding the game's globals. These
  are the plant, the nutrient list and the log of `removeFromScene` calls.
  It also has the timer's spawn and `GlobalStep`, one frame.

Points of the code's behaviour that the model keeps:

- **Collision threshold.** A nutrient collides with a sphere when their
  distance is below `r1 + r2 - OVERLAP`. The sphere's growth scale plays no
  part.
- **Growth curve.** Before SPAWNTIME the scale is `age / SPAWNTIME`, a
  straight line; from SPAWNTIME on it is 1.
- **Sphere storage and search.** The spheres form a flat list, and a
  collision test tries them in creation order and stops at the first hit.
- **New spheres.** Every new sphere has radius 0.2.
- **Nutrient position on a hit.** The collision test converts the
  nutrient's own position vector in place into the frame of the sphere it
  hit. The new sphere is placed at that converted position, and the
  nutrient keeps it until the sweep removes it.
- **Order within a frame.** Each nutrient is tested against the plant as
  the nutrients before it in the list left it, so a sphere grown earlier in
  the frame can already be hit later in the same frame (`Plants.Grow`).

A three.js mesh starts at scale 1. A new sphere is therefore drawn at full
size until its first growth step. When that step is shorter than
SPAWNTIME, it shrinks the sphere to `dtime / SPAWNTIME`; a longer first
step leaves the scale at 1.
The model keeps this: a sphere's `scale` field starts at 1
(`FirstStepRestartsGrowth`), and the scale is monotone only from the first
step on (`ScaleNeverShrinks`).

## Model

| member | source | states |
|---|---|---|
| BodySpheres.BodySphere.Step | src/main.js:112-121 | one growth step keeps the sphere's position, radius and parent, adds exactly `dtime` to its age, and sets the scale to `ScaleAt` of the new age (`age / SPAWNTIME` before SPAWNTIME), a value in [0, 1] for a nonnegative age that is 1 exactly from SPAWNTIME on |
| BodySpheres.NewSphere | src/main.js:80-88 | a new sphere has the given position, radius and parent, age 0, and the mesh's default scale 1 |
| BodySpheres.Collides | src/main.js:104 | a collision needs the two bodies to overlap; sinking in by more than OVERLAP always collides |
| BodySpheres.CollisionIsStrict | src/main.js:104 | a body exactly at distance `r1 + r2 - OVERLAP` does not collide; every body strictly nearer does |
| BodySpheres.CollisionIsMonotone | src/main.js:104 | if a body at some distance collides, so does any body nearer |
| BodySpheres.DefaultReach | src/main.js:104 | with OVERLAP = 0.1, a radius-0.2 nutrient and a radius-0.2 sphere collide iff their distance is below 0.3 |
| BodySpheres.ScaleAt | src/main.js:112-121 | the scale is exactly 1 iff the age has reached SPAWNTIME, and lies in [0, 1] for every nonnegative age |
| BodySpheres.ScaleIsLinear | src/main.js:115-117 | before SPAWNTIME the scale grows at the constant rate 1/SPAWNTIME; half of SPAWNTIME gives scale 0.5 |
| BodySpheres.ScaleIsMonotone | src/main.js:115-120 | an older sphere is never given a smaller scale |
| BodySpheres.StepsAccumulateAge | src/main.js:112-113 | after any sequence of steps the age has grown by exactly their sum; position, radius and parent are unchanged |
| BodySpheres.GrowthStaysInRange | src/main.js:112-121 | once stepped with nonnegative durations from a nonnegative age, the scale is in [0, 1], and it is 1 exactly when the total age reaches SPAWNTIME |
| BodySpheres.ScaleNeverShrinks | src/main.js:112-121 | from the first step on, a further nonnegative step never decreases the scale |
| BodySpheres.FirstStepRestartsGrowth | src/main.js:80-121 | a new sphere's mesh shows scale 1, and a first step shorter than SPAWNTIME sets a scale below 1 |
| Plants.RootOf | src/main.js:80-99 | following parents from any sphere ends at a parentless sphere; in a well-formed plant that sphere is the seed at index 0 |
| Plants.FirstHitFrom | src/main.js:37-42 | yields the lowest index at or after the start whose sphere collides, with no colliding sphere before it; yields none iff no sphere from the start on collides |
| Plants.Child | src/main.js:105 | the sphere grown from sphere `k` hangs from `k`, sits at the nutrient's position converted into `k`'s frame, has radius 0.2 and age 0 |
| Plants.AfterCollision | src/main.js:101-110 | the list grows by one iff some sphere collides. The old spheres stay unchanged in front. The new sphere hangs from the lowest colliding index, with radius 0.2 and age 0. Well-formedness is kept |
| Plants.Plant.constructor | src/main.js:16-21 | a new plant holds only the seed: origin, radius 0.2, no parent |
| Plants.Plant.AddBodySphere | src/main.js:23-25 | appends the sphere at the end. If the plant was well formed and the parent is an existing index, the plant stays well formed |
| Plants.Plant.SphereCheckCollision | src/main.js:101-110 | returns true iff the sphere collides under the strict threshold. On a hit it appends exactly one radius-0.2 sphere whose parent is that sphere and whose position is the nutrient's position in that sphere's frame, and the nutrient's position is left converted into that frame. On a miss the list and the position are unchanged |
| Plants.Plant.CheckCollision | src/main.js:37-42 | reports a hit iff some sphere collides, and the list becomes `AfterCollision` of the old one: at most one sphere is added, grown from the first colliding sphere; a miss returns false. The nutrient's position ends as `Relocated`: converted into the first hit sphere's frame, or unchanged on a miss |
| Plants.RelocatedToChild | src/main.js:101-110 | after a hit, the nutrient's position equals the new sphere's local position; after a miss, it is unchanged |
| Plants.GrowAppends | src/main.js:164-168 | a frame's collision checks only append: the old spheres stay in front, the plant stays well formed, and it gains exactly one sphere per nutrient that hits |
| Plants.StepAll | src/main.js:44-49 | every sphere is replaced by its own one-step successor, the length is unchanged, and well-formedness is kept |
| Plants.Plant.Step | src/main.js:44-49 | the list becomes `StepAll` of the old one: every sphere stepped exactly once by `dtime`, the length unchanged; the plant stays well formed |
| Plants.InitialPlant | src/main.js:135-141 | the plant `init` builds: the seed; leaves at (0.3,0,0) and (0,0.3,0) on the seed; a leaf at (0,0.3,0) on the second leaf |
| Nutrients.Nutrient.constructor | src/main.js:53-59 | a new nutrient has the given position, velocity and radius and is not marked for removal |
| Nutrients.Nutrient.Step | src/main.js:72-76 | the position advances by `velocity * dtime` before the test. The nutrient ends marked iff it was marked already or some sphere collides at the new position. The plant's list becomes `AfterCollision` of the old one. The position ends `Relocated`: in the hit sphere's frame after a hit, at the moved position after a miss |
| Nutrients.Moved | src/main.js:73 | one entry per nutrient, in list order, each as the collision test sees it after the move |
| Nutrients.KeptAreUnmarked | src/main.js:171-176 | the kept nutrients are exactly the unmarked ones of the list |
| Nutrients.RemovedAreMarked | src/main.js:171-176 | the removed nutrients are exactly the marked ones of the list |
| Nutrients.KeptDistributes | src/main.js:171-176 | keeping distributes over concatenation, so survivors keep their relative order |
| Nutrients.RemovedAppend | src/main.js:171-176 | removal goes from the back: the last element, if marked, is removed first |
| Nutrients.RemovedPrefixOneMore | src/main.js:171-176 | extending the swept prefix by one nutrient puts that nutrient, if marked, in front of the removal order |
| Nutrients.SweepPartitions | src/main.js:171-176 | every nutrient is either kept or removed, none is lost or duplicated; the two counts add up to the list length |
| Nutrients.SweepOfUnmarked | src/main.js:171-176 | a list with no marks is kept whole and nothing leaves the scene |
| Nutrients.SweepIsIdempotent | src/main.js:171-176 | sweeping the survivors again keeps them all and removes nothing |
| Nutrients.KeptDistinct | src/main.js:171-176 | a list without duplicates is swept to a list without duplicates |
| Nutrients.RemovedExactlyOnce | src/main.js:172-174 | in a list without duplicates, each marked nutrient is passed to `removeFromScene` exactly once |
| Worlds.KeptOneMore | src/main.js:171-176 | one visit of the downward sweep at index `n`: splicing out a marked element, or keeping an unmarked one, leaves the list as if every index from `n` up had been swept |
| Worlds.RemovedOneMore | src/main.js:172-174 | the same visit extends the removal log by the element at `n` exactly when it is marked |
| Worlds.World.constructor | src/main.js:129-146 | the initial state: the four-sphere plant of `init`, no nutrients, nothing removed; it satisfies the frame invariant |
| Worlds.World.SpawnNutrient | src/main.js:148-154 | appends one fresh unmarked nutrient at (-2,0,0), velocity (1,0,0), radius 0.2, and keeps the frame invariant |
| Worlds.RemovedCountsHits | src/main.js:164-176 | when every mark records a hit, the sweep of any prefix removes exactly as many nutrients as hit in it |
| Worlds.FrameOutcome | src/main.js:164-168 | once all of a frame's nutrients are settled, each is marked exactly when it hit the plant grown by those before it, sits where its check left it, and the hits and the nutrients the sweep will remove are equal in number |
| Worlds.World.StepNutrientAt | src/main.js:165-168 | one nutrient's step in the frame loop, with the nutrients before it settled: the plant becomes `Grow` over one more nutrient, the nutrients before it stay settled, and this one is marked exactly when it hit the plant as the earlier ones left it and sits where its check left it |
| Worlds.World.SettleAll | src/main.js:164-168 | after the loop every nutrient is settled against the checks in list order, and the plant is what those checks grew |
| Worlds.World.StepNutrients | src/main.js:164-168 | the plant ends as `Grow` over the moved nutrients in list order. Nutrient `i` is marked exactly when it hit the plant as nutrients `0..i-1` left it, and its position is where its check left it. The plant gains one sphere per marked nutrient, appended after the existing ones |
| Worlds.World.RemoveIfMarked | src/main.js:172-175 | a marked nutrient at index `n` is logged as removed from the scene and spliced out; otherwise nothing changes |
| Worlds.World.RemoveMarked | src/main.js:170-176 | after the descending sweep the list is exactly the unmarked nutrients in original order; the removal log gained exactly the marked ones, highest index first |
| Worlds.World.Advance | src/main.js:156-168 | ages every sphere, then steps every nutrient against the aged plant in list order; the plant, the marks and the positions are as `Grow` over the aged plant says |
| Worlds.World.GlobalStep | src/main.js:156-179 | one frame keeps the invariant: no marked nutrient remains, no duplicates, nothing removed is still listed. The plant is `Grow` of the aged plant over the moved nutrients in list order. Each nutrient was marked exactly when it hit and sits where its check left it. The survivors are the unhit nutrients in order, and each hit one left the scene once. Every old sphere aged by `dtime`, and the plant gained one sphere per removed nutrient |

## Left out

- Rendering and the three.js scene: meshes, geometries, materials, `scene.add`/`scene.remove` (modelled only as the `sceneRemovals` log), `renderer.render`, camera setup and `onWindowResize`. These are calls into a graphics library.
- World transforms: `getWorldPosition`, `distanceTo` and `worldToLocal` are taken as the given functions of `Scene`. Matrix math and square roots are not modelled.
- `Plant.rotate` (src/main.js:27-35): it only turns the seed's mesh through `rotateOnWorldAxis`. In the model its effect reaches the plant only through the frame's `Scene`.
- Timing: the `setInterval` schedule (every 2 s), `requestAnimationFrame` and `THREE.Clock`. The timer callback's body is modelled (`SpawnNutrient`), and `dtime` is a parameter. Most statements allow any real `dtime`; the growth lemmas assume it is nonnegative.
- Mouse handlers (src/main.js:188-201): UI input wiring.
- Floating point: radii, ages, distances and positions are exact reals, so IEEE rounding is not reproduced.
- `Plants.Plant.CheckCollision`: a miss makes the source return `undefined`, which the model returns as `false`; both are falsy to its only caller.
