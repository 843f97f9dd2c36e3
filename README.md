# canvas-boilerplate-ts core, modelled in Dafny

This project models the logic core of canvas-boilerplate-ts, a TypeScript
boilerplate for HTML canvas animations. The core has four parts:

- **Tween**: Robert Penner's thirty-one easing curves, the name registry
  `TWEEN_OPTIONS`, and the entry points `tweenProperty` and `tweenObject`.
- **Particle**: a mutable body. It has a position, a velocity, friction,
  gravity, bounce, a radius and a mass.
  - It keeps an ordered list of springs, each pulling it towards an anchor
    point.
  - It keeps an ordered list of gravitation peers, particles that attract it.
  - `update` integrates one frame. `boundaryBounce` keeps it inside a box.
- **Utils**: the numeric helpers: normalize, lerp and map, clamp, ranges and
  rectangles, angle conversion, the Bezier evaluators and `zSort`.
- **Vector**: a mutable 2-D vector class.

Modules:

| module | file | contents |
|---|---|---|
| `Numerics` | `numerics.dfy` | min/max/abs, small division lemmas, PI, and `MathLib` |
| `Shapes` | `shapes.dfy` | the `{x, y}` point class, `Rectangle`, `Object3D` |
| `Utils` | `utils.dfy` | the helpers of `src/utils/index.ts` |
| `Vectors` | `vector.dfy` | class `Vector` |
| `Curves` | `curves.dfy` | the easing curves |
| `CurveLaws` | `curve_laws.dfy` | how the curves relate to each other |
| `Tween` | `tween.dfy` | the registry, `tweenProperty`, `tweenObject` |
| `Lists` | `lists.dfy` | the splice-out-by-identity operation on sequences |
| `Particles` | `particle.dfy` | the force model, stated on values, and class `Particle` |

Numbers are modelled as mathematical reals.

`MathLib` is a record of functions passed to every operation that calls
them: `Math.cos`, `Math.sin`, `Math.sqrt`, `Math.asin` and `Math.pow(2, ·)`.
- A curve that calls one of them reaches its exact start or end value only
  if that function returns the exact special value there. Each such
  contract names the one value it needs, such as cos 0 = 1 or sqrt 1 = 1.
  `Tween.StartExact` and `Tween.EndExact` collect those hypotheses per curve.
- `MathLib.DoubleSpecialValues()` lists the special values that double
  arithmetic does return exactly: cos 0, cos π, sin 0, sin(π/2), sqrt 0,
  sqrt 1 and 2^0. cos(π/2) is not among them: for the double nearest π/2
  it is about 6.1e-17. So easeInSine need not end exactly at b + c, and
  the model does not prove that it does.
- The linear, polynomial, back and bounce curves call none of these
  functions, and their boundary values hold with no hypothesis.
- Properties that need the square root to behave are stated under
  `MathLib.SqrtSound()`.

Objects the source updates in place are Dafny classes with `modifies` frames:
- `Particle`;
- `Vector`;
- the `{x, y}` targets of `tweenObject` and the Bezier functions.

`update` is specified against a function on values.
- `Particles.Step` states one frame: springs, then gravitations, then
  friction, gravity and the position.
- Its pieces are `ApplySprings`, `ApplyGravitations` and `Integrate`.
- `Anchors` and `Bodies` read the positions of the spring points and the
  peers from the heap.

The invariant `Particle.Valid()` holds:
- the cached heading is 0;
- no spring point occurs twice in the spring list;
- no peer occurs twice in the peer list.

Every method that edits a list preserves it.

Behaviour of the code that the model keeps:
- The registry holds 31 curves (src/tween/index.ts:221-253).
- The back curves' overshoot parameter defaults to 0
  (src/tween/index.ts:179, :185, :192). The comment at
  src/tween/index.ts:177 names a default of 1.70158.
  - That value is only reached through the `s == undefined` fallback. For a
    number argument, or an omitted one, the fallback never fires.
  - `tweenProperty` passes its arguments positionally, so the back curves
    receive `a` as their overshoot and never see `s`.
- The `heading` setter does not update the cached heading.
  - Nothing reassigns that field after the constructor sets it to 0.
  - So the `speed` setter always uses heading 0.
- The `heading` setter scales by the speed stored at construction, which
  nothing reassigns, not by the current speed.
- An unknown easing name makes the source call `undefined`, which throws.
  Here it is the error value `UnknownEasing(name)`.

## Model

| member | source | states |
|---|---|---|
| `Utils.Normalize` | src/utils/index.ts:1 | the minimum maps to 0 and the maximum to 1 |
| `Utils.Lerp` | src/utils/index.ts:3 | norm 0 gives the minimum and norm 1 the maximum |
| `Utils.LerpNormalize` | src/utils/index.ts:1-3 | lerp undoes normalize over the same range |
| `Utils.NormalizeLerp` | src/utils/index.ts:1-3 | normalize undoes lerp over the same range |
| `Utils.Map` | src/utils/index.ts:5-7 | the source range's endpoints map to the destination range's endpoints |
| `Utils.MapInverse` | src/utils/index.ts:5-7 | mapping back from the destination range restores the value |
| `Utils.InRange` | src/utils/index.ts:35-36 | true exactly when the value lies between the two bounds, in either order |
| `Utils.InRangeSwap` | src/utils/index.ts:35-36 | the order of the bounds does not matter |
| `Utils.PointInRectangle` | src/utils/index.ts:32-33 | true exactly when each coordinate lies between the rectangle's two edges on its axis, for a positive or negative width and height |
| `Utils.RangeIntersect` | src/utils/index.ts:38-39 | true exactly when an end of one range lies in the other |
| `Utils.RectangleIntersect` | src/utils/index.ts:41-43 | a rectangle that contains a corner of the other intersects it |
| `Utils.Clamp` | src/utils/index.ts:9-10 | the result is in range; an in-range value is unchanged; below both bounds gives the smaller bound; above both gives the larger |
| `Utils.ClampFixedIffInRange` | src/utils/index.ts:9-10 | clamp leaves a value unchanged exactly when it is in range |
| `Utils.ClampSwap` | src/utils/index.ts:9-10 | the order of the bounds does not matter |
| `Utils.ClampIdempotent` | src/utils/index.ts:9-10 | clamping twice is clamping once |
| `Utils.RangeIntersectIffCommonPoint` | src/utils/index.ts:38-39 | two ranges intersect exactly when some value lies in both |
| `Utils.RangeIntersectSymmetric` | src/utils/index.ts:38-39 | intersection does not depend on which range comes first |
| `Utils.RangeIntersectSwap` | src/utils/index.ts:38-39 | the order of each range's bounds does not matter |
| `Utils.CornersInRectangle` | src/utils/index.ts:32-33 | a rectangle contains its origin corner and its opposite corner |
| `Utils.RectangleIntersectSymmetric` | src/utils/index.ts:41-43 | rectangle intersection is symmetric |
| `Utils.RectangleIntersectIffCommonPoint` | src/utils/index.ts:41-43 | two rectangles intersect exactly when some point lies in both |
| `Utils.DegreesToRadians` | src/utils/index.ts:49 | 180 degrees is PI radians |
| `Utils.RadiansToDegrees` | src/utils/index.ts:51 | PI radians is 180 degrees |
| `Utils.DegreesRadiansRoundTrip` | src/utils/index.ts:49-51 | the two conversions are inverse to each other |
| `Utils.ZSort` | src/utils/index.ts:128 | negative exactly when the first object is farther (greater z); zero exactly when the depths are equal |
| `Utils.ZSortAntisymmetric` | src/utils/index.ts:128 | swapping the arguments negates the result |
| `Utils.QuadraticAt` | src/utils/index.ts:82-83 | the curve starts at p0 (t = 0) and ends at p2 (t = 1) |
| `Utils.CubicAt` | src/utils/index.ts:96-105 | the curve starts at p0 (t = 0) and ends at p3 (t = 1) |
| `Utils.QuadraticIsRepeatedLerp` | src/utils/index.ts:82-83 | the quadratic formula equals de Casteljau's construction: a lerp of two lerps |
| `Utils.CubicIsRepeatedLerp` | src/utils/index.ts:96-105 | the cubic formula is the lerp of the two quadratic curves over consecutive control points |
| `Utils.QuadraticBezier` | src/utils/index.ts:75-86 | given `pointFinal`, writes both coordinates of the quadratic curve into `pointFinal` and returns that same object; any argument may alias it |
| `Utils.CubicBezier` | src/utils/index.ts:88-108 | given `pointFinal`, writes both coordinates of the cubic curve into `pointFinal` and returns that same object |
| `Utils.QuadraticBezierFresh` | src/utils/index.ts:75-86 | without `pointFinal` (default at :80), the curve point is written into a new object, which is returned |
| `Utils.CubicBezierFresh` | src/utils/index.ts:88-108 | without `pointFinal` (default at :94), the curve point is written into a new object, which is returned |
| `Shapes.Point.constructor` | src/utils/index.ts:80 | a point with the given coordinates |
| `Vectors.Vector.constructor` | src/classes/vector/index.ts:5-8 | x and y default to 0 |
| `Vectors.Vector.SetX` | src/classes/vector/index.ts:14-16 | sets x and leaves y unchanged |
| `Vectors.Vector.SetY` | src/classes/vector/index.ts:22-24 | sets y and leaves x unchanged |
| `Vectors.Vector.Add` | src/classes/vector/index.ts:47-52 | a fresh vector holding the componentwise sum |
| `Vectors.Vector.Subtract` | src/classes/vector/index.ts:54-59 | a fresh vector holding the componentwise difference |
| `Vectors.Vector.Multiply` | src/classes/vector/index.ts:61-66 | a fresh vector holding the vector scaled by the value |
| `Vectors.Vector.Divide` | src/classes/vector/index.ts:68-73 | a fresh vector holding the vector divided by the value |
| `Vectors.Vector.AddTo` | src/classes/vector/index.ts:75-78 | adds the old components of `v2` in place; `v2` is unchanged unless it is this vector |
| `Vectors.Vector.SubtractFrom` | src/classes/vector/index.ts:80-83 | subtracts the old components of `v2` in place |
| `Vectors.Vector.MultiplyBy` | src/classes/vector/index.ts:85-88 | scales this vector in place |
| `Vectors.Vector.DivideBy` | src/classes/vector/index.ts:90-93 | divides this vector in place |
| `Vectors.AddThenSubtract` | src/classes/vector/index.ts:47-59 | `v.add(w).subtract(w)` equals `v` componentwise and is a new object, neither `v` nor `w` |
| `Vectors.MultiplyThenDivide` | src/classes/vector/index.ts:61-73 | `v.multiply(s).divide(s)` equals `v` componentwise and is a new object |
| `Vectors.AddToSelf` | src/classes/vector/index.ts:75-78 | `v.addTo(v)` doubles `v` |
| `Curves.Linear` | src/tween/index.ts:38 | starts at b (t = 0) and ends at b + c (t = d) |
| `Curves.EaseInQuad` | src/tween/index.ts:42 | starts at b and ends at b + c |
| `Curves.EaseOutQuad` | src/tween/index.ts:45 | starts at b and ends at b + c |
| `Curves.EaseInOutQuad` | src/tween/index.ts:48-51 | starts at b and ends at b + c |
| `Curves.EaseInCubic` | src/tween/index.ts:55 | starts at b and ends at b + c |
| `Curves.EaseOutCubic` | src/tween/index.ts:58 | starts at b and ends at b + c |
| `Curves.EaseInOutCubic` | src/tween/index.ts:61-64 | starts at b and ends at b + c |
| `Curves.EaseInQuart` | src/tween/index.ts:68 | starts at b and ends at b + c |
| `Curves.EaseOutQuart` | src/tween/index.ts:71 | starts at b and ends at b + c |
| `Curves.EaseInOutQuart` | src/tween/index.ts:74-77 | starts at b and ends at b + c |
| `Curves.EaseInQuint` | src/tween/index.ts:81 | starts at b and ends at b + c |
| `Curves.EaseOutQuint` | src/tween/index.ts:84 | starts at b and ends at b + c |
| `Curves.EaseInOutQuint` | src/tween/index.ts:87-90 | starts at b and ends at b + c |
| `Curves.EaseInSine` | src/tween/index.ts:93 | starts at b and ends at b + c, given exact cos 0 and cos(π/2) |
| `Curves.EaseOutSine` | src/tween/index.ts:96 | starts at b and ends at b + c, given exact sin 0 and sin(π/2) |
| `Curves.EaseInOutSine` | src/tween/index.ts:99 | starts at b and ends at b + c, given exact cos 0 and cos π |
| `Curves.EaseInExpo` | src/tween/index.ts:103 | the guard makes t = 0 give b; ends at b + c given 2^0 = 1 |
| `Curves.EaseOutExpo` | src/tween/index.ts:106-107 | starts at b given 2^0 = 1; the guard makes t = d give b + c |
| `Curves.EaseInOutExpo` | src/tween/index.ts:110-115 | both guards: t = 0 gives b and t = d gives b + c |
| `Curves.EaseInCirc` | src/tween/index.ts:119 | starts at b and ends at b + c, given exact sqrt 1 and sqrt 0 |
| `Curves.EaseOutCirc` | src/tween/index.ts:122 | starts at b and ends at b + c, given exact sqrt 0 and sqrt 1 |
| `Curves.EaseInOutCirc` | src/tween/index.ts:125-128 | starts at b and ends at b + c, given exact sqrt 1 |
| `Curves.ElasticShape` | src/tween/index.ts:136-141 | below the change the amplitude becomes c and the phase p/4; otherwise the amplitude is kept |
| `Curves.EaseInElastic` | src/tween/index.ts:132-143 | the two guards make t = 0 give b and t = d give b + c |
| `Curves.EaseOutElastic` | src/tween/index.ts:145-156 | the two guards make t = 0 give b and t = d give b + c |
| `Curves.EaseInOutElastic` | src/tween/index.ts:158-170 | the two guards make t = 0 give b and t = d give b + c |
| `Curves.EaseInBack` | src/tween/index.ts:179-182 | starts at b and ends at b + c, for every overshoot |
| `Curves.EaseOutBack` | src/tween/index.ts:185-188 | starts at b and ends at b + c, for every overshoot |
| `Curves.EaseInOutBack` | src/tween/index.ts:192-196 | starts at b and ends at b + c, for every overshoot |
| `Curves.BounceUnit` | src/tween/index.ts:204-212 | the unit bounce shape maps 0 to 0 and 1 to 1 |
| `Curves.EaseOutBounce` | src/tween/index.ts:203-213 | starts at b and ends at b + c |
| `Curves.EaseInBounce` | src/tween/index.ts:200 | starts at b and ends at b + c |
| `Curves.EaseInOutBounce` | src/tween/index.ts:216-219 | for a positive duration, starts at b and ends at b + c |
| `CurveLaws.LinearIsLerp` | src/tween/index.ts:38 | linear easing is lerp from b to b + c by the fraction t/d |
| `CurveLaws.ReversedQuad` | src/tween/index.ts:42-45 | quad-out is quad-in run backwards in time and in value |
| `CurveLaws.ReversedCubic` | src/tween/index.ts:55-58 | cubic-out is cubic-in reversed |
| `CurveLaws.ReversedQuart` | src/tween/index.ts:68-71 | quart-out is quart-in reversed |
| `CurveLaws.ReversedQuint` | src/tween/index.ts:81-84 | quint-out is quint-in reversed |
| `CurveLaws.ReversedBack` | src/tween/index.ts:179-188 | back-out is back-in reversed, for the same overshoot |
| `CurveLaws.ReversedBounce` | src/tween/index.ts:200-213 | bounce-out is bounce-in reversed (the converse of bounce-in's definition) |
| `CurveLaws.InOutQuadHalves` | src/tween/index.ts:42-51 | quad-in-out is half-height quad-in over the first half and half-height quad-out over the second |
| `CurveLaws.InOutCubicHalves` | src/tween/index.ts:55-64 | the same split for the cubic curves |
| `CurveLaws.InOutQuartHalves` | src/tween/index.ts:68-77 | the same split for the quart curves |
| `CurveLaws.InOutQuintHalves` | src/tween/index.ts:81-90 | the same split for the quint curves |
| `CurveLaws.InOutBackHalves` | src/tween/index.ts:179-196 | the same split for the back curves, with the overshoot scaled by 1.525 |
| `CurveLaws.BackWithoutOvershootIsCubic` | src/tween/index.ts:176-196 | with overshoot 0, the default, each back curve equals the matching cubic curve |
| `CurveLaws.BounceUnitBounded` | src/tween/index.ts:203-213 | on the unit interval the bounce shape stays between 0 and 1 |
| `CurveLaws.BounceTouchdowns` | src/tween/index.ts:203-213 | at each break point, both neighbouring arcs reach height 1 |
| `CurveLaws.OutBounceWithinRange` | src/tween/index.ts:203-213 | during the tween, with c ≥ 0, bounce-out stays between b and b + c |
| `CurveLaws.InOutBounceMidpoint` | src/tween/index.ts:216-219 | the halves of in-out bounce meet halfway, at b + c/2 |
| `Tween.LookupIffName` | src/tween/index.ts:221-253 | the registry maps a name to a curve exactly when that is the curve's own name |
| `Tween.LookupFindsItsName` | src/tween/index.ts:221-253 | every registered key is the name of the curve it holds |
| `Tween.Name` | src/tween/index.ts:221-253 | the registry holds each curve under its own key |
| `Tween.Lookup` | src/tween/index.ts:221-253 | a name that is neither `linear` nor an `ease…` name is not found; which key holds which curve is stated by `Tween.LookupIffName` |
| `Tween.DoubleSpecialValuesSuffice` | src/tween/index.ts:93-128 | the special values of double arithmetic meet every curve's start hypothesis and every end hypothesis except easeInSine's |
| `Tween.TweenPropertyBoundariesWithDoubles` | src/tween/index.ts:255-268 | under those special values, every registered name gives b at t = 0, and every name but easeInSine gives b + c at t = d |
| `Tween.Apply` | src/tween/index.ts:265-267 | for a positive duration, every curve starts at b and ends at b + c, given the curve's own `StartExact` or `EndExact` hypothesis, which is `true` for the curves that call no Math function |
| `Tween.TweenProperty` | src/tween/index.ts:255-268 | fails exactly when the name is not registered, with that name in the error; otherwise it is the registered curve applied to (t, b, c, d, a, p) |
| `Tween.TweenPropertyDefaultsToLinear` | src/tween/index.ts:260 | with no name given, the tween is linear |
| `Tween.TweenPropertyBoundaries` | src/tween/index.ts:255-268 | for a positive duration, every registered name gives b at t = 0 and b + c at t = d, under its curve's `StartExact` or `EndExact` hypothesis; unconditionally for the linear, polynomial, back and bounce curves |
| `Tween.BackOvershootComesFromA` | src/tween/index.ts:267 | the back curves take their overshoot from `a`; with the defaults, easeInBack is easeInCubic |
| `Tween.OvershootArgumentIgnored` | src/tween/index.ts:267 | the result does not depend on `s` |
| `Tween.TweenObject` | src/tween/index.ts:270-285 | writes the same curve into x and y, computed from the old start and change; an unknown name fails and writes nothing; at t = 0 both coordinates are the start and at t = d the start plus the change, under the curve's `StartExact` or `EndExact` hypothesis |
| `Lists.IndexOf` | src/classes/particle/index.ts:38-39 | the first position holding `x`, or none exactly when `x` is absent |
| `Lists.RemoveAt` | src/classes/particle/index.ts:40 | `splice(i, 1)`: the elements before `i` stay in place and the later ones move back one |
| `Lists.RemoveFirst` | src/classes/particle/index.ts:37-44 | an absent element leaves the list as it is; otherwise one occurrence leaves the multiset, and the result is `RemoveAt` of the first position holding it, so the rest keeps its order |
| `Lists.Without` | src/classes/particle/index.ts:37-44 | holds exactly the elements other than `x` |
| `Lists.WithoutAppend` | src/classes/particle/index.ts:37-44 | filtering keeps the order of what remains: filtering a concatenation concatenates the filtered parts |
| `Lists.RemoveFirstOfDistinct` | src/classes/particle/index.ts:37-44 | in a list without repeats, removing the first occurrence removes every occurrence and keeps the list repeat-free |
| `Lists.ReplaceByIdentity` | src/classes/particle/index.ts:32-35 | remove-then-push on a repeat-free list leaves `x` exactly once, last |
| `Particles.Points` | src/classes/particle/index.ts:57 | the spring points, in list order |
| `Particles.RemoveSpringTo` | src/classes/particle/index.ts:55-62 | removes the first spring on `point` from the point list; without such a spring the list is unchanged |
| `Particles.RemoveSpringToKeepsOthers` | src/classes/particle/index.ts:55-62 | on a list without repeated points, exactly the spring on `point` goes and no point repeats afterwards |
| `Particles.AddSpringTo` | src/classes/particle/index.ts:46-53 | the new spring is last |
| `Particles.AddSpringToReplaces` | src/classes/particle/index.ts:46-53 | after adding, `point` carries exactly one spring, the new one, and the other springs keep their order |
| `Particles.AddPeer` | src/classes/particle/index.ts:32-35 | the new peer is last |
| `Particles.AddPeerReplaces` | src/classes/particle/index.ts:32-35 | after adding, the peer occurs exactly once, last, and the others keep their order |
| `Particles.Anchors` | src/classes/particle/index.ts:177-183 | the point position, stiffness and rest length each spring uses, in list order |
| `Particles.Bodies` | src/classes/particle/index.ts:169-175 | the peer position and mass each gravitation uses, in list order |
| `Particles.Step` | src/classes/particle/index.ts:155-167 | the position moves by the new velocity; with no springs and no peers a frame is `Integrate` of the old state |
| `Particles.Integrate` | src/classes/particle/index.ts:159-166 | the position moves by the new velocity; friction 0 leaves only gravity; friction 1 and no gravity keep the velocity |
| `Particles.BounceFar` | src/classes/particle/index.ts:198-201 | afterwards the particle does not cross the far edge; strictly inside it is untouched; touching or past it is put on the edge with its velocity scaled by `bounce` |
| `Particles.BounceNear` | src/classes/particle/index.ts:202-205 | afterwards the particle does not cross the near edge; strictly inside it is untouched; touching or past it is put on the edge with its velocity scaled by `bounce` |
| `Particles.DistanceSquared` | src/classes/particle/index.ts:219 | non-negative, and zero at zero displacement |
| `Particles.SpringAccel` | src/classes/particle/index.ts:229-237 | a spring at its rest length, or with zero stiffness, pulls with zero force |
| `Particles.GravityAccel` | src/classes/particle/index.ts:216-227 | a massless peer pulls with zero force |
| `Particles.BounceAxis` | src/classes/particle/index.ts:197-214 | the new position is the old one, the far edge minus the radius, or the radius |
| `Particles.StepWithoutForces` | src/classes/particle/index.ts:155-167 | without springs or peers, a frame is friction, then gravity, then motion |
| `Particles.FreeLinearMotion` | src/classes/particle/index.ts:155-167 | with friction 1 and no gravity, a free particle moves by exactly its velocity |
| `Particles.GravityIsNotDamped` | src/classes/particle/index.ts:159-166 | gravity is added after friction: at friction 0 the vertical velocity is exactly `gravity` |
| `Particles.SpringsAtRestKeepVelocity` | src/classes/particle/index.ts:177-183 | springs that are all at rest length leave the velocity unchanged |
| `Particles.SlackSpringsKeepVelocity` | src/classes/particle/index.ts:177-183 | springs that all have zero stiffness leave the velocity unchanged |
| `Particles.MasslessPeersKeepVelocity` | src/classes/particle/index.ts:169-175 | peers that all have zero mass leave the velocity unchanged |
| `Particles.SpringPullsTowardsPoint` | src/classes/particle/index.ts:229-237 | Hooke's law: the pull points towards the anchor exactly when the spring is stretched, and away exactly when it is compressed |
| `Particles.GravityPullsTowardsPeer` | src/classes/particle/index.ts:216-227 | a peer with positive mass pulls the particle towards itself |
| `Particles.BounceKeepsInside` | src/classes/particle/index.ts:197-214 | in a box wider than the particle, a bounce leaves it between the edges |
| `Particles.BounceReflectsOnlyAtEdges` | src/classes/particle/index.ts:197-214 | the velocity is scaled by `bounce` once at an edge, and a particle strictly inside is untouched |
| `Particles.BounceAtEdgeReflectsAgain` | src/classes/particle/index.ts:198-213 | the edge tests are inclusive: a particle left on an edge is reflected again by the next call |
| `Particles.NarrowBoxReflectsTwice` | src/classes/particle/index.ts:198-205 | in a box no wider than the particle, hitting the far edge fires both rules and reflects twice |
| `Particles.Particle.constructor` | src/classes/particle/index.ts:16-30 | the velocity from direction and speed; heading 0, friction 1, bounce -1; both lists empty; the invariant holds |
| `Particles.Particle.AddGravitation` | src/classes/particle/index.ts:32-35 | the peer list becomes `AddPeer` of the old one; the invariant is preserved |
| `Particles.Particle.RemoveGravitation` | src/classes/particle/index.ts:37-44 | splices out the first identical peer, which removes every occurrence; the invariant is preserved |
| `Particles.Particle.AddSpring` | src/classes/particle/index.ts:46-53 | the spring list becomes `AddSpringTo` of the old one; the invariant is preserved |
| `Particles.Particle.RemoveSpring` | src/classes/particle/index.ts:55-62 | splices out the first spring on `point`, leaving exactly the other points; the invariant is preserved |
| `Particles.Particle.SetSpeed` | src/classes/particle/index.ts:132-137 | the velocity is `speed` along the cached heading, so exactly (`speed`, 0) when cos 0 = 1 and sin 0 = 0 |
| `Particles.Particle.SetHeading` | src/classes/particle/index.ts:143-148 | the velocity is the stored construction speed along the new heading; the cached heading is unchanged |
| `Particles.Particle.Accelerate` | src/classes/particle/index.ts:150-153 | adds the acceleration to the velocity |
| `Particles.Particle.SpringTo` | src/classes/particle/index.ts:229-237 | adds the spring acceleration to the velocity |
| `Particles.Particle.GravitateTo` | src/classes/particle/index.ts:216-227 | adds the gravitation acceleration, computed from the target's old position and mass, to the velocity |
| `Particles.Particle.HandleSprings` | src/classes/particle/index.ts:177-183 | the velocity after every spring has acted once, in list order |
| `Particles.Particle.HandleGravitations` | src/classes/particle/index.ts:169-175 | the velocity after every peer has acted once, in list order |
| `Particles.Particle.Update` | src/classes/particle/index.ts:155-167 | the new position and velocity are `Step` of the old ones: springs, then gravitations, then friction, gravity and the position |
| `Particles.Particle.Move` | src/classes/particle/index.ts:159-166 | friction on both velocity components, gravity on the vertical one, then the position moves by the new velocity |
| `Particles.Particle.BoundaryBounce` | src/classes/particle/index.ts:197-214 | each axis gets the far-edge rule, then the near-edge rule |

## Left out

- Floating point: numbers are reals. IEEE rounding, NaN and Infinity are not modelled.
  - Each division by zero the source would reach is a precondition instead: normalize and map with an empty source range, a zero duration, a zero divisor, a spring or peer at zero distance.
  - The elastic curves' `asin(0 / 0)` at amplitude 0 is excluded the same way.
- `Math.cos`, `Math.sin`, `Math.sqrt`, `Math.asin` and `Math.pow(2, ·)` are library calls. They are parameters of type `MathLib`, not definitions.
- `Math.pow(1 - t, 2)`, `Math.pow(1 - t, 3)` and the curves' `Math.pow(x, n)` are written as repeated products.
- JavaScript objects inherit keys such as `toString`. So `TWEEN_OPTIONS[name]` can find a function for a name that is not a curve. The registry here holds only the thirty-one curves.
- The `s == undefined` fallback to 1.70158 in the back curves is not modelled. The overshoot is a number and defaults to 0, and for a number the fallback never fires. JavaScript's `null == undefined` would let a `null` argument reach it; `null` is not a value of the model.
- Every curve requires d ≠ 0. The guarded curves easeInExpo, easeInOutExpo and the three elastic curves return b at t = 0 before dividing (src/tween/index.ts:103, :111, :133, :146, :159); easeOutExpo returns b + c at t = d (:107). Those calls are defined in the source at d = 0, and the model does not cover them.
- `tweenObject`'s `tweenTarget` is any object with numeric `x` and `y`; the demo at src/apps/tween/index.ts:65 passes a `Particle`. The model takes a `Point`. A spring's point in `addSpring` is likewise duck-typed and modelled as a `Point`.
- `Particles.ApplySprings` and `Particles.ApplyGravitations`: the two folds carry no `ensures`. Their properties are stated as lemmas: `SpringsAtRestKeepVelocity`, `SlackSpringsKeepVelocity` and `MasslessPeersKeepVelocity`, and `HandleSprings` and `HandleGravitations` are proved equal to them.
- `Particles.SpringAccel`: states only the zero-force cases. The direction of the pull is `SpringPullsTowardsPoint`; its size, (distance − length) · k, is not stated as a property.
- `Particles.GravityAccel`: states only the zero-force case. The direction is `GravityPullsTowardsPeer`; the magnitude, mass over the squared distance, is not stated as a property.
- The particle's `speed` getter, `heading` getter, `angleTo` and `distanceTo` are not modelled, because they are square roots and arc tangents.
  - The constructor's `cos`/`sin` of the direction comes from `MathLib`, as do the `speed` and `heading` setters'.
- The plain getters and setters of the particle's fields are field reads and writes: x, y, vx, vy, friction, gravity, mass, radius.
- `update`'s friction, gravity and position lines are factored into their own method, `Move`.
- Vector `getAngle`, `setAngle`, `getLength` and `setLength` are not modelled, because they are arc tangents, square roots and trigonometry.
- Utils `particleDistance`, `distanceXY`, `circleCollision`, `circlePointCollision`, `getMagnitude` and `getParticleAngle` are not modelled, because they are square roots and arc tangents.
- Utils `randomRange`, `randomInt`, `randomDistribution`, `roundToPlaces`, `roundNearest` and `multipleCurves` are not modelled: randomness, rounding, and canvas drawing.
- The demo applications under `src/apps`, the entry point and the build configuration are outside the core and not modelled.
- Object identity for springs and peers is Dafny reference equality on `Point` and `Particle`, as `===` is in the source.
- Concurrency: none exists; the source is single-threaded.
