# ADEPT core in Dafny

ADEPT is a framework for adversarial attacks on autonomous vehicles. This
project models its core:

- The keyed records of the transform layer: 2-D and 3-D coordinates in several
  frames, Euler-angle and quaternion poses with quaternion multiplication,
  points, lines, 2-D and 3-D boxes, and the sampled 2-D path with its
  nearest-point search.
- The vehicle layer: velocity vectors, the vehicle's configuration lookup,
  base and simple-dynamics vehicle states, the reference planner that samples
  a path from the rows of a file, control inputs clipped to their ranges, and
  the pure-pursuit controller that steers towards a key point of the path.
- The three template methods of the attack layer: `Attacker._attack` (set up,
  then optimise until failure or success), `PhysicalLoop.loop` (capture, set
  up, optimise a perturbation in an inner loop, and apply it once more), and
  `ContinuousLoop.loop` (drive the vehicle under attack until the planner's
  final state or the end of the lifetime).

Every `__getitem__` alias table is modelled key by key. Python keys are the
`Key` datatype (`Int` or `Str`). A raised exception becomes an `Err` of the
`Error` datatype, with the exception class the source would raise. An
unsupported string key raises `KeyError`. An unsupported integer key raises
`TypeError`, because the error message concatenates the key to a string.

The three template loops share one skeleton, `TemplateLoop.Drive`: query
failure, run the body, query success, and update. Each loop is specified by
this skeleton, with its hooks as functions of an abstract state. Each loop is
also written as an imperative `while` method of a class whose fields the
hooks update, and that method is proved equal to the specification. The
pure-pursuit controller and the sampled path are classes too, because the
source updates their fields in place.

## Model

| member | source | states |
|---|---|---|
| Lookup.Unsupported | adept/transforms/_coordinate.py:43-49 | An unsupported key raises `KeyError` exactly when it is a string and `TypeError` exactly when it is an integer, because `"The key " + key` fails on an int. |
| Coordinates.GetPlanar | adept/transforms/_coordinate.py:37-49 | A 2-D coordinate answers `x`, `X` and 0 with x, and `y`, `Y` and 1 with y. Every other key is an error, and the error kind follows the key's type. |
| Coordinates.Get | adept/transforms/_coordinate.py:61-71 | The 3-D lookup behaves as written. x and y keys as in 2-D; `z` and `Z` give z; the ordinal key 2 raises `TypeError` because the inner error message fails before the z test is reached. Success holds exactly for the listed aliases. |
| Coordinates.GetIntended | adept/transforms/_coordinate.py:61-71 | The corrected lookup agrees with `Get` everywhere except key 2 on a 3-D coordinate, which gives z. |
| Coordinates.IntendedAliasesAgree | adept/transforms/_coordinate.py:37-41 | Every alias of an axis, ordinal included, reads that axis's component in the corrected lookup. |
| Coordinates.OrdinalZRaises | adept/transforms/_coordinate.py:61-71 | Key 2 is declared an alias of z, yet as written it raises `TypeError` on every 3-D coordinate, while `z` reads z. |
| Coordinates.ConstructorsReadBack | adept/transforms/_coordinate.py:32-35 | Each frame class reads back the x and y it was given through every alias. Frame subclasses read like their 2-D or 3-D base. Components default to 0. |
| Coordinates.IsKeyForX | adept/transforms/_coordinate.py:37-38 | `_is_key_for_x` accepts exactly the x aliases, and none of them names y or z. |
| Coordinates.IsKeyForY | adept/transforms/_coordinate.py:40-41 | `_is_key_for_y` accepts exactly the y aliases, and none of them names x or z. |
| Coordinates.IsKeyForZ | adept/transforms/_coordinate.py:61-62 | `_is_key_for_z` accepts exactly the z aliases, 2 included, and none of them names x or y. |
| Poses.GetAngle | adept/transforms/_pose.py:44-61 | An Euler angle answers the pitch, roll and yaw aliases with their angle. Every other key is an error of the key's kind. |
| Poses.IsKeyForPitch | adept/transforms/_pose.py:44-45 | Accepts exactly the pitch aliases; the only integer pitch key is 0, and no pitch key names roll or yaw. |
| Poses.IsKeyForRoll | adept/transforms/_pose.py:47-48 | Accepts exactly the roll aliases; the only integer roll key is 1, and no roll key names pitch or yaw. |
| Poses.IsKeyForYaw | adept/transforms/_pose.py:50-51 | Accepts exactly the yaw aliases; the only integer yaw key is 2, and no yaw key names pitch or roll. |
| Poses.IsKeyForReal | adept/transforms/_pose.py:80-81 | Accepts exactly the real-part aliases; the only integer key of the real part is 0, and no real-part key names another part. |
| Poses.IsKeyForImaginary | adept/transforms/_pose.py:83-84 | Accepts exactly the imaginary-vector aliases, all strings, and none of them names another part. |
| Poses.IsKeyForVx | adept/transforms/_pose.py:86-87 | Accepts exactly the x aliases; the only integer key of x is 1, and no x key names another part. |
| Poses.IsKeyForVy | adept/transforms/_pose.py:89-90 | Accepts exactly the y aliases; the only integer key of y is 2, and no y key names another part. |
| Poses.IsKeyForVz | adept/transforms/_pose.py:92-93 | Accepts exactly the z aliases; the only integer key of z is 3, and no z key names another part. |
| Poses.NewQuaternion | adept/transforms/_pose.py:75-78 | A quaternion built from w, x, y, z reads them back under `w`, 1, 2, 3, and reads `[x, y, z]` under `v`. |
| Poses.GetPart | adept/transforms/_pose.py:80-107 | A quaternion answers its real part, its imaginary vector and its three components under their aliases. Integer keys succeed exactly for 0 to 3. String keys succeed exactly for the eleven aliases. |
| Poses.Get | adept/transforms/_pose.py:53-61 | Lookup on a pose dispatches to the Euler or the quaternion table. |
| Poses.EulerAngleDefaults | adept/transforms/_pose.py:38-42 | The Euler constructor takes pitch, roll and yaw in that order (ordinals 0, 1, 2 read them back). Every angle left out is 0: a default angle reads 0.0 under every key it accepts. |
| Poses.MulAsWritten | adept/transforms/_pose.py:109-122 | `__mul__` as written succeeds exactly for a number or a quaternion operand, always yields a quaternion, and raises `TypeError` otherwise. |
| Poses.MulAsWrittenUsesLeftVector | adept/transforms/_pose.py:116 | As written, the product uses the left operand's vector in place of the right one's. |
| Poses.MulAsWrittenClosedForm | adept/transforms/_pose.py:114-120 | As written, the product of (w1, v1) and (w2, v2) is (w1·w2 − v1·v1, (w1 + w2)·v1), whatever v2 is. |
| Poses.MulAsWrittenPure | adept/transforms/_pose.py:114-120 | As written, the product of two pure quaternions has a zero vector part. |
| Poses.MulAsWrittenDiffers | adept/transforms/_pose.py:116 | As written and intended products of two pure quaternions agree only if the vectors' cross product is zero. |
| Poses.MulAsWrittenDropsVector | adept/transforms/_pose.py:116 | As written, the identity quaternion times q loses q's vector part. |
| Poses.MulAsWrittenCounterexample | adept/transforms/_pose.py:116 | For every q with a non-zero vector, identity × q differs between the written and the intended product. |
| Poses.Mul | adept/transforms/_pose.py:109-122 | The Hamilton product; same success and error cases as the written operator. |
| Poses.MulIdentity | adept/transforms/_pose.py:114-120 | The identity quaternion is a left and a right unit of the intended product. |
| Poses.MulPure | adept/transforms/_pose.py:114-120 | The intended product of pure quaternions is (−v1·v2, v1×v2). |
| Poses.MulAgreesOffQuaternions | adept/transforms/_pose.py:112-113 | For a number or an unsupported operand, the written and intended operators agree. |
| Poses.ScalarMulScalesNorm | adept/transforms/_pose.py:112-113 | `q * k` for a number k succeeds, and multiplies w and each of x, y, z by k, so the squared norm scales by k². |
| Dynamics.GetPlanar | adept/vehicles/_dynamics.py:37-49 | A 2-D vector answers the x and y aliases. Every other key is an error of the key's kind. |
| Dynamics.Get | adept/vehicles/_dynamics.py:61-71 | The 3-D lookup as written: `z` and `Z` read z, key 2 raises `TypeError`, and success holds exactly for the listed aliases. |
| Dynamics.GetIntended | adept/vehicles/_dynamics.py:61-71 | The corrected lookup agrees with `Get` except that every z alias, 2 included, reads z on a 3-D vector. |
| Dynamics.OrdinalZRaises | adept/vehicles/_dynamics.py:61-71 | As written, key 2 raises on a 3-D vector while `z` reads z. In the corrected lookup both read z. |
| Dynamics.ConstructorsReadBack | adept/vehicles/_dynamics.py:32-35 | The constructors store their components unchanged and default them to 0. |
| Dynamics.IsKeyForX | adept/vehicles/_dynamics.py:37-38 | Accepts exactly the x aliases; the only integer x key is 0, and no x key names y or z. |
| Dynamics.IsKeyForY | adept/vehicles/_dynamics.py:40-41 | Accepts exactly the y aliases; the only integer y key is 1, and no y key names x or z. |
| Dynamics.IsKeyForZ | adept/vehicles/_dynamics.py:61-62 | Accepts exactly the z aliases, 2 included; no z key names x or y. |
| Entities.PointGet | adept/transforms/_entity.py:37-41 | A point answers 0, `c` and `coord` with its coordinate, and exactly those keys. |
| Entities.LineGet | adept/transforms/_entity.py:61-73 | A line answers the p0 and p1 aliases. Every other key is an error. |
| Entities.BoxGet | adept/transforms/_entity.py:90-112 | A 2-D box answers each corner's aliases with that corner. Every other key is an error. |
| Entities.OrdinalCorners | adept/transforms/_entity.py:90-100 | Ordinals 0 to 3 name the corners counter-clockwise from top-left. 4 and `center` are errors. |
| Entities.Box3DGet | adept/transforms/_entity.py:126-138 | A 3-D box answers the front and back aliases. Every other key is an error. |
| Entities.FromItems | adept/transforms/_entity.py:154 | A list of at most two numbers becomes a 2-D coordinate, with the missing components defaulted to 0. |
| Entities.NearestUnique | adept/transforms/_entity.py:156-163 | At most one index satisfies the nearest-point specification. |
| Entities.SamplePath2D.constructor | adept/transforms/_entity.py:146-148 | The path holds the given points. |
| Entities.SamplePath2D.Append | adept/transforms/_entity.py:150-154 | A point is appended as is. A list of at most two numbers is appended as a 2-D point. A longer list raises `TypeError` and leaves the path unchanged. The old points stay in place. |
| Entities.SamplePath2D.GetNearestPoint | adept/transforms/_entity.py:156-163 | Corrected, with the Euclidean distance: the index returned is the first point whose distance is at least `away_from` and minimal among such points, or −1 if there is none. The point returned is that point's x and y, or the origin. |
| Entities.DistanceFrom | adept/transforms/_entity.py:43-47 | `distance_from` raises `ValueError` exactly for its default Frobenius order, which numpy rejects for a vector; with the Euclidean order it is the Euclidean norm of the offset. |
| Entities.SamplePath2D.GetNearestPointAsWritten | adept/transforms/_entity.py:156-163 | As written, `get_nearest_point` returns only on an empty path (the origin and −1). On every other path it raises `ValueError` from the first `distance_from` call. |
| Entities.SamplePath2D.Get | adept/transforms/_entity.py:165-179 | The start keys give the first point; the end keys (−1, the last index, `end`, `last`) give the last point; an index 1..len−1 gives that point. Empty paths raise `IndexError` on start and end keys. Every other key raises `TypeError`. |
| Entities.SamplePath2D.Length | adept/transforms/_entity.py:181-182 | The path is empty exactly when its start key, and exactly when its key −1, fails. |
| Entities.IsKeyForStart | adept/transforms/_entity.py:165-166 | A start key is never a slice, and its only integer is 0. |
| Entities.IsKeyForEnd | adept/transforms/_entity.py:168-169 | An end key is never a slice, and its only integers are the last index and −1. |
| Vehicles.GetConfig | adept/vehicles/_vehicle.py:34-35 | A configuration entry is found exactly when its name is in the configuration map. |
| Vehicles.BaseGet | adept/vehicles/_vehicle.py:178-190 | A base state answers the coordinate and pose aliases. Every other key is an error of the key's kind. |
| Vehicles.Get | adept/vehicles/_vehicle.py:203-213 | A simple-dynamics state as written: `v` and `velocity` read the velocity, key 2 raises `TypeError`, and success holds exactly for the coordinate, pose and velocity string aliases. |
| Vehicles.GetIntended | adept/vehicles/_vehicle.py:203-213 | The corrected lookup agrees with `Get` except on key 2, which reads the velocity of a simple-dynamics state. |
| Vehicles.IntendedAliasesAgree | adept/vehicles/_vehicle.py:178-182 | Every alias of a component a state has reads that component in the corrected lookup. |
| Vehicles.OrdinalVelocityRaises | adept/vehicles/_vehicle.py:203-213 | Key 2 is declared a velocity alias, yet as written it raises `TypeError`, while `v` reads the velocity. |
| Vehicles.IsKeyForCoord | adept/vehicles/_vehicle.py:178-179 | `_is_key_for_coord` accepts exactly the coordinate aliases, and none of them names the pose or the velocity. |
| Vehicles.IsKeyForPose | adept/vehicles/_vehicle.py:181-182 | `_is_key_for_pose` accepts exactly the pose aliases, and none of them names the coordinate or the velocity. |
| Vehicles.IsKeyForVelocity | adept/vehicles/_vehicle.py:203-204 | `_is_key_for_velocity` accepts exactly the velocity aliases, 2 included, and none of them names the coordinate or the pose. |
| Planning.FirstFields | adept/vehicles/_plan.py:59 | A row keeps its first `dim` = 2 fields, or all of them if it is shorter. |
| Planning.RowPoint | adept/vehicles/_plan.py:59-60 | A row becomes the 2-D point of its first two fields, with missing fields defaulted to 0. |
| Planning.Sampled | adept/vehicles/_plan.py:55-61 | Sampling n lines keeps at most n points, and the first line is always kept, as the first point. |
| Planning.SampledCount | adept/vehicles/_plan.py:55-61 | With sample rate m > 0, the number of points kept from n lines is ⌈n/m⌉. |
| Planning.KeptLinePosition | adept/vehicles/_plan.py:58 | When line n−1 is a multiple of m (so `cnt % sample_rate == 0` keeps it), exactly (n−1)/m lines were kept before it, so it is appended at position (n−1)/m. |
| Planning.SampledPositions | adept/vehicles/_plan.py:55-61 | Point j of the sampled path is the point of line j·m. |
| Planning.SampleRateOneKeepsAll | adept/vehicles/_plan.py:55-61 | With the default rate 1, every line becomes a point, in order. |
| Planning.SliceStart | adept/vehicles/_plan.py:72 | Python's slice start: a non-negative start in range is kept, and a negative one counts from the end. |
| Planning.TargetPathFrom | adept/vehicles/_plan.py:69-72 | The target path from `start` is None exactly when start ≥ length. Otherwise it is the suffix of the path from the slice start, indexwise, and non-empty when the path is. |
| Planning.TargetPathFromZero | adept/vehicles/_plan.py:69-72 | The target path from 0 of a non-empty path is the whole path. |
| Planning.NewReferencePlanner | adept/vehicles/_plan.py:41-61 | Reading rows with rate 0 raises `ZeroDivisionError` exactly when there is a row. Otherwise the planner's path is the sampled points. |
| Planning.ReferencePlanner.constructor | adept/vehicles/_plan.py:41-47 | The planner holds the given path. |
| Planning.ReferencePlanner.InFinalStates | adept/vehicles/_plan.py:63-64 | An index is final exactly when the target path from it is None, and exactly when the written `get_target_path_from` returns None. A non-final index that is not negative names a point of the path. |
| Planning.ReferencePlanner.GetTargetPath | adept/vehicles/_plan.py:66-67 | The target path is the planner's own path object, not a copy. |
| Planning.ReferencePlanner.GetTargetPathFromAsWritten | adept/vehicles/_plan.py:69-72 | As written: None exactly when start ≥ length; otherwise the slice raises `TypeError`, because `SamplePath2D.__getitem__` has no slice case. |
| Planning.TargetPathFromRaises | adept/vehicles/_plan.py:69-72 | As written, the target path from 0 raises on every non-empty path, whereas the intended one is the whole path. |
| Control.Clip | adept/vehicles/_control.py:107-109 | A clipped value lies in its range, equals the value inside the range and equals the nearer bound outside it. |
| Control.NewControlInput | adept/vehicles/_control.py:105-109 | A control input has its steer in [−1, 1] and its throttle and brake in [0, 1]. Values inside their range are kept, and values outside are clamped to the nearer bound. |
| Control.NewControlInputIdempotent | adept/vehicles/_control.py:105-109 | Rebuilding a control input from its own fields gives it back. |
| Control.Get | adept/vehicles/_control.py:111-128 | A control input answers the steer, throttle and brake aliases with that field. Every other key is an error of the key's kind. |
| Control.IsKeyForSteer | adept/vehicles/_control.py:111-112 | `_is_key_for_steer` accepts exactly the steer aliases, and none of them names throttle or brake. |
| Control.IsKeyForThrottle | adept/vehicles/_control.py:114-115 | `_is_key_for_throttle` accepts exactly the throttle aliases, and none of them names steer or brake. |
| Control.IsKeyForBrake | adept/vehicles/_control.py:117-118 | `_is_key_for_brake` accepts exactly the brake aliases, and none of them names steer or throttle. |
| Control.GetControlFrom | adept/vehicles/_control.py:89-97 | The control for a steer angle and a speed has brake 0, and throttle 0.3 exactly below speed 1 (0.2 otherwise). Its steer is the angle clipped to [−1, 1]: kept inside the range, the nearer bound outside it. |
| Control.SteerTowards | adept/vehicles/_control.py:76-84 | Steering towards a point fails with `TypeError` exactly when the wheel base is not configured, because `2*None` raises. Otherwise it is the control for the computed steer angle and the speed. |
| Control.AdvanceKeepsPoint | adept/vehicles/_control.py:74-75 | An index into the target path from `from` becomes the index of the same point in the whole path, and never moves backwards. |
| Control.PurePursuitController.constructor | adept/vehicles/_control.py:46-58 | The controller stores its planner and gains, and starts at key point 0. |
| Control.PurePursuitController.CurrentKeyPoint | adept/vehicles/_control.py:60-61 | The current key point is the path's point at `start`, or its last point when `start` is −1. It exists exactly when the path is non-empty and −1 ≤ start < length. |
| Control.PurePursuitController.LookForward | adept/vehicles/_control.py:69 | With the default gain 0, or at speed 0, the look-forward distance is the lookahead distance `ld`. |
| Control.PurePursuitController.LookForwardGrows | adept/vehicles/_control.py:69 | With a positive gain, the look-forward distance exceeds `ld` at positive speed and falls short of it at negative speed. |
| Control.PurePursuitController.SearchFrom | adept/vehicles/_control.py:74-75 | A search from an index past the path raises `AttributeError` on None. Otherwise it returns the nearest qualifying point of the target path and its index there. |
| Control.PurePursuitController.SteerFrom | adept/vehicles/_control.py:69-84 | One steering step from an index: `AttributeError` past the path; otherwise it finds the nearest point at least the look-forward distance away and steers towards it. |
| Control.PurePursuitController.PathFollowing | adept/vehicles/_control.py:63-84 | Corrected, with the intended target path and a numeric speed: a first search from 0 places the key point when `start` is 0, then the second search steers. The stored `start` is the whole-path index of the point steered towards. |
| Control.PurePursuitController.PathFollowingAsWritten | adept/vehicles/_control.py:71-75 | The search order of `path_following`, with the intended target path and a numeric speed. When `start` is 0 a first search from 0 places the key point, and the second search steers. The stored `start` is the index as written: inside the target path, not inside the whole path. |
| Control.RelativeIndexCounterexample | adept/vehicles/_control.py:75 | On a straight four-point path with key point 2, the search finds the point (3, 0) at target index 1. As written, index 1 names the already-passed (1, 0); the corrected index is 3. |
| TemplateLoop.Hooks | adept/attacks/_attack.py:33-40 | The hook events of a body become trace steps, one for one. |
| TemplateLoop.Drive | adept/attacks/_attack.py:33-42 | The skeleton loop ends with a true success query exactly when `done`, and with a true failure query otherwise. On success the success hook holds and the body ran at least once; on failure the failure hook holds. The body never ran exactly when the failure hook held at entry. |
| TemplateLoop.DriveUnfold | adept/attacks/_attack.py:33-40 | One turn of the loop: fail at once, succeed after one body, or update and go round again. |
| TemplateLoop.ThenThen | adept/attacks/_attack.py:33-40 | Prefixing a run twice is prefixing it once with the concatenation. |
| TemplateLoop.ThenFailed | adept/attacks/_attack.py:33 | A loop that has run a prefix and now fails its check ends with that prefix and the failed check. |
| TemplateLoop.ThenSucceeded | adept/attacks/_attack.py:33-38 | A loop that has run a prefix and now succeeds after the body ends with that prefix and the last iteration. |
| TemplateLoop.ThenContinues | adept/attacks/_attack.py:33-40 | A loop that has run a prefix and now updates continues as the same loop from the updated state. |
| TemplateLoop.DisciplinedIteration | adept/attacks/_attack.py:36-40 | A non-final iteration keeps the call discipline. |
| TemplateLoop.DisciplinedLastIteration | adept/attacks/_attack.py:36-38 | A final, successful iteration keeps the call discipline. |
| TemplateLoop.DriveDisciplined | adept/attacks/_attack.py:33-40 | In every run, update is called exactly right after a false success query. |
| TemplateLoop.Events | adept/attacks/_attack.py:33-40 | The hook events of a trace are no more than its steps. What they are is stated by EventsFromHooks, EventsAppend, EventsOfHooks and DriveEvents. |
| TemplateLoop.EventsAppend | adept/attacks/_attack.py:33-40 | The events of a concatenation are the concatenation of the events. |
| TemplateLoop.EventsOfHooks | adept/attacks/_attack.py:33-40 | Reading back the events of hook steps gives the events. |
| TemplateLoop.EventsFromHooks | adept/attacks/_attack.py:33-40 | Every event of a trace comes from one of its hook steps. |
| TemplateLoop.EventsOfIteration | adept/attacks/_attack.py:33-40 | The events of one iteration are its body's events followed by the rest. |
| TemplateLoop.DriveEvents | adept/attacks/_attack.py:33-40 | The hook events of a run are the body events of its iterations, in order. |
| TemplateLoop.DriveBlocks | adept/attacks/_attack.py:33-40 | Every iteration's events satisfy any property that every body's events satisfy. |
| TemplateLoop.DriveExhausts | adept/attacks/_attack.py:33-40 | If the loop continues n times and then fails, the run fails after exactly n iterations, in the n-th updated state. |
| TemplateLoop.DriveIgnoresEvents | adept/attacks/_attack.py:33-40 | Two drivers that differ only in the events of their bodies agree on outcome, final state and iteration count. |
| TemplateLoop.LastAnswerAppend | adept/attacks/_attack.py:33-40 | The last query answer of a concatenation is the second part's, if it has one. |
| TemplateLoop.LastAnswerOfHooks | adept/attacks/_attack.py:33-40 | Hook steps carry no query answer. |
| TemplateLoop.DriveLastAnswer | adept/attacks/_attack.py:33-42 | `done` is the answer of the last query the loop made. |
| Attacks.AttackRun | adept/attacks/_attack.py:23-42 | `_attack` calls `attack_init` first and `attack_retrieve` last, and returns the perturbation retrieved from the final state. `done` implies success after at least one optimiser step. `not done` implies the failure hook holds. No optimiser step runs exactly when the failure hook held right after init. |
| Attacks.Optimizes | adept/attacks/_attack.py:34 | n optimiser events, and nothing else. |
| Attacks.FlattenOptimizes | adept/attacks/_attack.py:33-40 | Iterations of one optimiser step each flatten to that many optimiser steps. |
| Attacks.AttackEvents | adept/attacks/_attack.py:23-42 | The hooks called are init, then one optimiser step per iteration, then retrieve. |
| Attacks.InitOnceFirst | adept/attacks/_attack.py:31 | `attack_init` is the first step and is never called again. |
| Attacks.FailedOnEntry | adept/attacks/_attack.py:33-42 | If the attack fails right after init, the result is `(False, retrieve())` with no optimiser step. |
| Attacks.LoopShape | adept/attacks/_attack.py:33-40 | Every success query follows an optimiser step that a false failure query let through, and every optimiser step is followed by a success query. |
| Attacks.DoneIffSucceededAfterOptimize | adept/attacks/_attack.py:33-42 | `done` is true exactly when the run ends with an optimiser step, a true success query and retrieve. |
| Attacks.UpdateOnlyAfterFailedCheck | adept/attacks/_attack.py:36-40 | `attack_update` runs exactly right after a false success query that followed an optimiser step, and every false success query is followed by an update. |
| Attacks.Exhausted | adept/attacks/_attack.py:33-42 | If the failure hook trips after n updates with no success before, the optimiser runs exactly n times and `done` is false. |
| Attacks.BaseTerminates | adept/attacks/_attack.py:44-70 | The base class's own hooks terminate. |
| Attacks.BaseHooks | adept/attacks/_attack.py:44-70 | The base class's hooks: the failure query is always false and the success query always true; init and the optimiser set the perturbation to None; update keeps it; retrieve returns it. |
| Attacks.BaseAttack | adept/attacks/_attack.py:44-70 | With the base hooks, an attack optimises once, succeeds, and returns no perturbation. |
| Attacks.LoopStep | adept/attacks/_attack.py:33-40 | One iteration stated on the hooks: fail at once, succeed after one optimiser step, or update with a smaller remaining budget and go round again. |
| Attacks.Attacker.constructor | adept/attacks/_attack.py:18-21 | The attacker holds its hooks and state and has made no call. |
| Attacks.Attacker.Attack | adept/attacks/_attack.py:23-42 | The imperative `_attack` returns `done` and the perturbation of `AttackRun`, and leaves the state and call trace of `AttackRun`. |
| PhysicalLoops.InnerPassShape | adept/attacks/_physical_loop.py:55-70 | An optimising `_inner_loop` makes apply, digital replace, physical replace, capture and optimise, and returns the optimiser's flag. The final pass makes the first three and returns the physical scene. |
| PhysicalLoops.SetupPass | adept/attacks/_physical_loop.py:29-38 | The setup captures the scene, generates the target mask, extracts the target, generates the perturbation mask and the perturbation, each from the values before it. |
| PhysicalLoops.PhysicalRun | adept/attacks/_physical_loop.py:22-53 | `loop` starts with a capture of the given scene, ends with a final pass of the shape above, and returns that pass's physical scene. |
| PhysicalLoops.IterationsShaped | adept/attacks/_physical_loop.py:41-47 | Every inner iteration is an optimising pass over the setup's values. |
| PhysicalLoops.PhysicalEvents | adept/attacks/_physical_loop.py:22-53 | The hook calls of `loop` are the setup, the inner iterations and the final pass, in order. |
| PhysicalLoops.NoSetupInIterations | adept/attacks/_physical_loop.py:55-70 | Inner iterations make no setup call. |
| PhysicalLoops.NoSetupAfterPrefix | adept/attacks/_physical_loop.py:22-53 | After a five-call setup prefix, calls without setup calls add none. |
| PhysicalLoops.SetupOnce | adept/attacks/_physical_loop.py:29-38 | The setup hooks run once each, in their order, right at the start, and never again. |
| PhysicalLoops.FinalPass | adept/attacks/_physical_loop.py:49-53 | The run ends with apply, digital replace and physical replace over the setup's values, and returns the scene the last one produced. |
| PhysicalLoops.Captures | adept/attacks/_physical_loop.py:30 | A count of capture calls never exceeds the number of calls. |
| PhysicalLoops.CapturesAppend | adept/attacks/_physical_loop.py:22-53 | Capture counts add over concatenation. |
| PhysicalLoops.CaptureCount | adept/attacks/_physical_loop.py:30 | `sensor_capture` runs once in setup and once per inner iteration. |
| PhysicalLoops.FailedOnEntry | adept/attacks/_physical_loop.py:41 | If the inner loop fails on entry, the run is the setup and the final pass, with a single capture. |
| PhysicalLoops.InnerLoopDisciplined | adept/attacks/_physical_loop.py:41-47 | The inner loop updates exactly after a false success query. |
| PhysicalLoops.DoneDiscarded | adept/attacks/_physical_loop.py:42-43 | The flag `_inner_loop` returns is ignored: it changes neither the scene returned, nor the final state, nor the iteration count. |
| PhysicalLoops.MaskGenerate | adept/attacks/_physical_loop.py:177-188 | The template `"whole"` gives a mask of ones like the scene. `"box"` gives None (its branch returns nothing). Every other template string raises `KeyError`. |
| PhysicalLoops.DefaultSensorCapture | adept/attacks/_physical_loop.py:162-166 | The default capture is the vehicle's front camera output. |
| PhysicalLoops.DefaultMasks | adept/attacks/_physical_loop.py:171-175 | The default target mask is None, with or without a box; the default perturbation mask is all ones. |
| PhysicalLoops.PhysicalLoop.constructor | adept/attacks/_physical_loop.py:18-20 | The loop holds its hooks and state and has made no call. |
| PhysicalLoops.PhysicalLoop.InnerLoop | adept/attacks/_physical_loop.py:55-70 | The imperative `_inner_loop` returns and leaves what `InnerPass` specifies. |
| PhysicalLoops.PhysicalLoop.InnerWhile | adept/attacks/_physical_loop.py:41-47 | The imperative inner `while` ends in the final state of the skeleton run, with its trace and iterations. |
| PhysicalLoops.PhysicalLoop.Loop | adept/attacks/_physical_loop.py:22-53 | The imperative `loop` returns the scene of `PhysicalRun`, and leaves its state and call trace. |
| ContinuousLoops.LoopInit | adept/attacks/_continous_loop.py:138-142 | `loop_init` sets time 0, final time the lifetime, and the vehicle's current state. |
| ContinuousLoops.LoopUpdate | adept/attacks/_continous_loop.py:144-146 | `loop_update` advances the clock by one and keeps the final time and the world. |
| ContinuousLoops.TaskFailed | adept/attacks/_continous_loop.py:151-152 | `task_failed` holds exactly when the loop's termination measure, the number of ticks left up to and including the final time, is exhausted. |
| ContinuousLoops.TaskSucceeded | adept/attacks/_continous_loop.py:154-160 | `task_succeeded` holds exactly when the planner calls the vehicle's freshly retrieved state final. |
| ContinuousLoops.SucceededReadsFreshState | adept/attacks/_continous_loop.py:154-160 | The verdict ignores the state `loop_update` stored. |
| ContinuousLoops.Body | adept/attacks/_continous_loop.py:36-48 | An iteration body keeps the clock, the final time and the stored state, and makes the five collaborator calls with the iteration shape. |
| ContinuousLoops.LoopBounded | adept/attacks/_continous_loop.py:151-152 | The clock bounds the loop: it terminates for every lifetime. |
| ContinuousLoops.ContinuousRun | adept/attacks/_continous_loop.py:25-55 | A true result means the planner called the final vehicle state final; a false one means time passed the final time. The body never runs exactly when the lifetime is negative. |
| ContinuousLoops.IterationsShaped | adept/attacks/_continous_loop.py:36-48 | Every iteration retrieves the scene, computes the target input, generates the adversarial scene from both, computes the vehicle's input from it and applies that input. |
| ContinuousLoops.AppliedInputFromAdvScene | adept/attacks/_continous_loop.py:42-48 | The applied input is the vehicle's input for the adversarial scene; the target input only reaches the physical loop. |
| ContinuousLoops.AdvanceTime | adept/attacks/_continous_loop.py:144-146 | After k updates the clock has advanced by k. |
| ContinuousLoops.NeverFinal | adept/attacks/_continous_loop.py:25-55 | If no state is final, a lifetime M ≥ 0 runs the body M + 1 times, stops the clock at M + 1 and returns false. |
| ContinuousLoops.TimeCounts | adept/attacks/_continous_loop.py:50-53 | The clock counts the iterations that did not succeed, and a success happens within the lifetime. |
| ContinuousLoops.SuccessKeepsTime | adept/attacks/_continous_loop.py:50-53 | On success the clock stays at the iteration that succeeded (within the lifetime). On failure it has passed the lifetime. |
| ContinuousLoops.ResultIsLastAnswer | adept/attacks/_continous_loop.py:154-160 | The result is the planner's last answer, and false when the body never ran. |
| ContinuousLoops.DefaultContinuousLoop.constructor | adept/attacks/_continous_loop.py:127-136 | The loop holds its collaborators, world and lifetime (default 3600) and has made no call. |
| ContinuousLoops.DefaultContinuousLoop.Iteration | adept/attacks/_continous_loop.py:36-48 | The imperative body makes the five collaborator calls of `Body`, keeps the clock, and has the iteration shape. |
| ContinuousLoops.DefaultContinuousLoop.Iterate | adept/attacks/_continous_loop.py:33-53 | The imperative `while` reaches the outcome, final state and trace of the skeleton run. |
| ContinuousLoops.DefaultContinuousLoop.Loop | adept/attacks/_continous_loop.py:25-55 | The imperative `loop` returns the result of `ContinuousRun` and leaves its world, clock, state and trace. |

## Left out

- Floating point: coordinates, angles and gains are `real`. `float('inf')` in `get_nearest_point` becomes "no candidate yet".
- Numpy and the trigonometry: the Euclidean norm that `distance_from` computes for a vector is the parameter `norm2` (`dist` in the nearest-point search). The steer angle computed with `atan2`/`sin` is the parameter `steering`. `torch.ones_like` is the parameter `onesLike`.
- File reading and float parsing in `_read_ref_path`: the planner is built from rows that are already split and parsed. The `dim == 3` branch (a TODO that leaves no path) is not modelled; `dim` is 2.
- CARLA, the simulator environments, `End2EndVehicle`, `load_vehicle_model`, the image and video views, and the coordinate and pose transformers (whose `trans_from`, `trans_to` and `transform` bodies are empty) are not part of this model.
- The FGSM and PGD attackers: their hooks only `pass`. The hooks of every template are abstract functions of a hidden state.
- The template loops' hooks carry a `budget` that must fall on every update. The source loops may run forever; the model only describes terminating hooks. The continuous loop needs no such assumption, because its clock bounds it.
- The unused `target_input` and `target_output` arguments of `_attack`.
- TemplateLoop.Drive: the failure and success queries (`attack_failed`, `attack_succeeded`, `inner_loop_failed`, `inner_loop_succeeded`, `task_failed`, `task_succeeded`) are modelled as side-effect-free functions `S -> bool`. In the source they are methods that may change `self`; every other hook returns a new state. So "`done` implies success" in `Attacks.AttackRun` and `TemplateLoop.Drive` speaks of the state the query saw, which is also the final state only because queries cannot change it. The one write such a query makes in the source, `self.done` in `DefaultContinuousLoop.task_succeeded`, is the loop's result in the model.
- Entities.SamplePath2D.GetNearestPoint: as written, every call on a non-empty path raises `ValueError`. `distance_from` passes its default `ord='fro'` to `np.linalg.norm` (adept/transforms/_entity.py:43-47), and numpy rejects that order for a vector. The method's `dist` stands for the intended Euclidean distance (`ord=None` or 2); `GetNearestPointAsWritten` models the call as written. The numpy behaviour is taken from its documented `norm`, which is not part of this model.
- The default physical loop never returns. `DefaultPhysicalLoop.inner_loop_failed` and `inner_loop_succeeded` (adept/attacks/_physical_loop.py:153-157) only `pass`, so they return None, and `while not None` never exits. Those hooks admit no falling budget, so `PhysicalLoops.PhysicalRun` does not describe that loop; only the default capture and mask hooks are modelled.
- Control.PurePursuitController.PathFollowing: the vehicle's position and speed are parameters rather than read through `self.vehicle.get_state()`. The speed is a number, and the target path is the intended suffix (`Planning.TargetPathFrom`).
- Control.PurePursuitController.PathFollowingAsWritten: as written, `path_following` never reaches a search. `state['v']` is the state's velocity, a `Vector3D`, which defines no multiplication, so `self.lf_gain * v` (adept/vehicles/_control.py:69) raises `TypeError` on every call. Past that line, `get_target_path_from(self.start)` raises `TypeError` (adept/vehicles/_plan.py:72) on every call, because the slice it passes to `SamplePath2D.__getitem__` cannot be compared with an int. Its searches would then raise `ValueError` too (see `Entities.SamplePath2D.GetNearestPoint`). The member models the search order and the index it stores, assuming all three are corrected.
- The continuous loop's collaborators (`path_following(state, target_path)`, `in_final_states(state)`) are functions of an abstract world. Their signatures differ from the controller's and the planner's methods, which take no argument and an index.
- Aliasing of the Python list `plist`: `SamplePath2D` stores the list it is given, so two paths built from one list share it. In the model `plist` is a sequence value, and only the sharing of the path object itself (`GetTargetPath`) is captured.
- Fields that the source initialises to `None` before `loop_init` (`time`, `final_time`, `done`, `state`) are not modelled. `loop` always runs `loop_init` first.
- `print` in `mask_generate` on a missing box key is not modelled; the call still returns None.

## Findings

| source | as written | input that shows it | evidently intended | confidence | as-written member | corrected member |
|---|---|---|---|---|---|---|
| adept/transforms/_pose.py:116 | `v2` is taken from `self.v`, so the product ignores the right operand's vector | identity (1, 0, 0, 0) times (w, x, y, z) with a non-zero vector gives (w, 0, 0, 0) | `v2 = other.v`, the Hamilton product | high; not executed | Poses.MulAsWrittenCounterexample | Poses.MulIdentity |
| adept/transforms/_coordinate.py:64-71 | the base lookup raises `KeyError("The key " + key ...)`, which fails with `TypeError` for an int key before the z test runs | `Coordinate3D(1, 2, 3)[2]` | key 2 reads z, as `_is_key_for_z` declares | high; not executed | Coordinates.OrdinalZRaises | Coordinates.IntendedAliasesAgree |
| adept/vehicles/_dynamics.py:64-71 | the same error path makes key 2 raise `TypeError` | `Vector3D(1, 2, 3)[2]` | key 2 reads z | high; not executed | Dynamics.OrdinalZRaises | Dynamics.GetIntended |
| adept/vehicles/_vehicle.py:206-213 | the same error path makes key 2 raise `TypeError` | `SimpleDynamicsVehicleState(c, p, v)[2]` | key 2 reads the velocity | high; not executed | Vehicles.OrdinalVelocityRaises | Vehicles.IntendedAliasesAgree |
| adept/vehicles/_plan.py:72 | `self.path[start:]` passes a slice to `SamplePath2D.__getitem__`, which has no slice case and fails comparing the slice with an int | `get_target_path_from(0)` on any non-empty path | the suffix of the point list from `start` | high; not executed | Planning.TargetPathFromRaises | Planning.TargetPathFromZero |
| adept/transforms/_entity.py:43-47 | `distance_from` defaults to `ord='fro'`, an order numpy's `norm` accepts only for matrices; `get_nearest_point` (line 159) applies it to the two-component offset, which raises `ValueError` | `SamplePath2D([Point(Coordinate2D(0, 0))]).get_nearest_point(0, 0)` | the Euclidean distance (`ord=None` or 2) | medium: rests on numpy's `norm` raising for a string order on a vector; not executed | Entities.SamplePath2D.GetNearestPointAsWritten | Entities.SamplePath2D.GetNearestPoint |
| adept/vehicles/_control.py:75 | `self.start` receives the index within the target path from `start`, not within the whole path | straight path (0,0),(1,0),(2,0),(3,0), start 2, vehicle at (3,0): stores 1, naming (1,0) | store `start` plus the found index | low: reachable only once line 69, `_plan.py:72` and the order of `distance_from` are corrected (see "Left out"); not executed | Control.RelativeIndexCounterexample | Control.AdvanceKeepsPoint |
