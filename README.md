# spherical-image, modelled in Dafny

spherical-image shows a 360° picture inside a WebGL canvas. The picture is a
texture on the inside of a unit sphere, and a camera at the centre looks out
from it. Dragging turns the camera. In the bundle that also follows the
device's motion sensor, the phone's orientation turns it as well. This project
models, in Dafny, the logic under the WebGL and DOM glue, and proves what that
logic promises.

The repository has three generations of the viewer.

- The older generation: `Renderer` (src/Renderer.ts) with `SphiricalObject`
  (src/SphiricalObject.ts) and the older `Matrix4` (src/Matrix4.ts). Dragging
  turns the displayed rotation directly. dist/spherical-image.js is the
  compiled form of the same classes; its `EventDispatcher` lacks
  `removeAllEventListeners`. The same Dafny members model both.
- The current source generation: `SphericalImage` (src/SphericalImage.ts)
  with `SphereMesh` (src/SphereMesh.ts). Dragging moves a target rotation,
  and every animation frame eases the current rotation toward it
  (exponential damping).
- The compiled bundle dist/spherical-image.module.js. It adds
  `DeviceOrientation` (src/DeviceOrientation.ts), the newer math classes
  (src/math/), a power-of-two texture policy, and a view that the device's
  quaternion turns.

| module | file | models |
|---|---|---|
| `Numerics` | numerics.dfy | `Math.PI` constants, `Math.min`/`max`/`abs`, the JavaScript `%` on numbers, and the platform `Math` as a parameter `MathLib` |
| `Wrappers` | wrappers.dfy | `Option` for optional arguments and readings |
| `Vectors` | vector3.dfy | src/math/Vector3.ts |
| `Quaternions` | quaternion.dfy | src/math/Quaternion.ts |
| `Matrices` | matrices.dfy | src/math/Matrix4.ts |
| `LegacyMatrices` | legacy_matrices.dfy | src/Matrix4.ts |
| `Events` | events.dfy | src/EventDispatcher.ts |
| `DeviceOrientations` | device_orientation.dfy | src/DeviceOrientation.ts |
| `SphereGeometry` | sphere_geometry.dfy | the module-level vertex and index loops of src/SphereMesh.ts and src/SphiricalObject.ts |
| `Textures` | textures.dfy | `isPowerOfTwo`, `ceilPowerOfTwo`, `isPowerOfTwoImage`, `resizeImage` of the bundle |
| `Meshes` | sphere_mesh.dfy | src/SphereMesh.ts |
| `LegacyMeshes` | legacy_mesh.dfy | src/SphiricalObject.ts |
| `BundleMeshes` | bundle_mesh.dfy | the bundle's `SphereMesh` |
| `Cameras` | cameras.dfy | the drag, damping, clamp and reset arithmetic that the three controllers share |
| `Viewers` | viewer.dfy | src/SphericalImage.ts |
| `LegacyViewers` | legacy_viewer.dfy | src/Renderer.ts |
| `DeviceViewers` | device_viewer.dfy | the bundle's `SphericalImage` |

How the model is built:

- Every number is a `real`.
- `Math.sin`, `cos`, `tan`, `exp` and `sqrt` are the fields of a `MathLib`
  value that is passed in. The proofs assume only a few facts about them
  (`Numerics.Lawful`):
  - the values at 0;
  - sin² + cos² = 1;
  - exp is positive, and at most 1 for arguments ≤ 0;
  - sqrt is the non-negative square root.
- Each class the source mutates in place is a Dafny class. Its fixed-size
  `Float32Array` is an `array<real>`, and each method is proved to leave the
  array holding the value that a function on values prescribes:
  - `Quat` is that value for `Quaternion`;
  - `Mat4` is that value for both `Matrix4` classes.
- Subclasses of `EventDispatcher` hold a dispatcher object.
- A listener is represented by its identity. `DispatchEvent` returns the
  listeners it called, and the owning object performs their reaction (usually
  setting `willRender`).
- Pointer listeners become `Drag` methods that take pixel deltas.
- The animation frame becomes `Tick(elapsed)`.
- An asynchronous image load becomes an `OnImageLoaded` / `OnTextureLoaded`
  method that takes the loaded picture.
- The window's sensor events become `OnDeviceOrientationChange` and
  `OnScreenOrientationChange`, which take the event's values.

Notable behaviour of the code, which the model follows as written:

- **Euler matrix.** `makeRotationFromEulerXYZ` builds the product
  `Rx · Ry · Rz` of the three axis rotations (`Matrices.EulerXYZIsAxisProduct`).
- **Calibration.** `calibrate` only records offsets. The next update after
  calibrating yields `q1 · axisAngle(Z, -screen)`, whatever the orientation
  was before (`DeviceOrientations.CalibratedDeviceQuat`), so the view can jump.
- **Reset.** `reset` takes JavaScript's truncated `%`. The result differs from
  the angle by a whole number of turns and keeps its sign, so a negative
  angle stays negative and the result lies in (-2π, 2π); for example, 5π
  becomes π (`Cameras.ResetRemainder`, `Cameras.ResetFiveHalfTurns`).
- **Field of view.** `CAMERA_FOV` carries the comment `// in deg`
  (src/SphericalImage.ts:14), but `perspective` hands half of it to `tan` as
  radians. This is the one place where a comment in the repository and the
  code disagree. The model keeps the literal 45 and uses it as the code does.
- **State after construction.** The constructors run the first animation
  frame at once, so a freshly built viewer has already rendered and has
  `willRender` false.
- **Texture-coordinate count.** The texture-coordinate attribute's `numItems`
  is `length / 3` = 726, while its buffer holds 1089 coordinate pairs
  (`Meshes.MeshAttributeCounts`).

## Model

| member | source | states |
|---|---|---|
| Vectors.Vector3.Extract | src/math/Vector3.ts:47-51 | the backing array is `[x, y, z]`, in that order |
| Vectors.FromArray | src/math/Vector3.ts:5-9 | a 3-element array read back as a vector keeps its three components |
| Vectors.ExtractRoundTrip | src/math/Vector3.ts:5-51 | `Extract` and reading back are inverse both ways, so a stored vector is recovered exactly |
| Vectors.ConstructorDefaults | src/math/Vector3.ts:5-39 | omitted constructor arguments are 0, and the getters return the arguments given |
| Quaternions.MulIdentity | src/math/Quaternion.ts:7-11 | the default quaternion (0,0,0,1) is a left and a right unit of the Hamilton product |
| Quaternions.MulNorm | src/math/Quaternion.ts:125-139 | the squared norm of a product is the product of the squared norms (four-square identity) |
| Quaternions.MulUnit | src/math/Quaternion.ts:125-139 | the product of two unit quaternions is a unit quaternion |
| Quaternions.AxisAngleUnit | src/math/Quaternion.ts:101-117 | about a unit axis, `setFromAxisAngle` yields a unit quaternion |
| Quaternions.AxisAngleZero | src/math/Quaternion.ts:101-117 | angle 0 gives the identity, whatever the axis |
| Quaternions.ParseOrder | src/math/Quaternion.ts:43-99 | an order string is recognised only if it is the name of that order |
| Quaternions.ParseOrderName | src/math/Quaternion.ts:43-99 | each of the six order names is recognised as its own order |
| Quaternions.EulerQuatIsAxisProduct | src/math/Quaternion.ts:43-99 | each of the six closed-form branches equals the product of the three single-axis rotations, taken in the order the name spells |
| Quaternions.EulerZero | src/math/Quaternion.ts:43-99 | zero angles give the identity in every order |
| Quaternions.EulerUnit | src/math/Quaternion.ts:43-99 | every Euler quaternion is a unit quaternion |
| Quaternions.Quaternion.Value | src/math/Quaternion.ts:13-35 | the getters `x`, `y`, `z`, `w` read array entries 0 to 3 |
| Quaternions.Quaternion.constructor | src/math/Quaternion.ts:7-11 | a fresh array holding the arguments, which default to the identity (0,0,0,1) |
| Quaternions.Quaternion.Extract | src/math/Quaternion.ts:37-41 | returns the backing array itself, not a copy |
| Quaternions.Quaternion.SetFromEuler | src/math/Quaternion.ts:43-99 | a recognised order overwrites the array with that order's Euler quaternion; any other string leaves it unchanged; returns `this` |
| Quaternions.Quaternion.SetFromAxisAngle | src/math/Quaternion.ts:101-117 | the array becomes (axis·sin(θ/2), cos(θ/2)); returns `this` |
| Quaternions.Quaternion.Multiply | src/math/Quaternion.ts:119-123 | `this := this · q`, correct even when `q` is `this` |
| Quaternions.Quaternion.MultiplyQuaternions | src/math/Quaternion.ts:125-139 | `this := a · b` from the values before the call, so either operand may alias `this` |
| Matrices.ProductEntry | src/math/Matrix4.ts:37-75 | product entry `[4c + r]` is `Σk a[4k + r] · b[4c + k]`, the column-major rule |
| Matrices.ProductIdentity | src/math/Matrix4.ts:24-75 | the identity is a left and a right unit of the product |
| Matrices.EulerXYZIsAxisProduct | src/math/Matrix4.ts:90-125 | the Euler-XYZ matrix is `RotX(x) × RotY(y) × RotZ(z)` with no translation and a bottom row of (0,0,0,1) |
| Matrices.EulerXYZZero | src/math/Matrix4.ts:90-125 | zero angles give the identity |
| Matrices.Placed | src/math/Matrix4.ts:134-166 | `compose` puts 0 in entries 3, 7 and 11, 1 in entry 15, and the position in entries 12 to 14 |
| Matrices.RotationOfQuatIsBlock | src/math/Matrix4.ts:4-5 | `makeRotationFromQuaternion` is `compose` at `POSITION_ZERO` with `SCALE_ONE`: exactly the quaternion's rotation block |
| Matrices.ComposeScalesColumns | src/math/Matrix4.ts:134-166 | the scale multiplies column k of the rotation block by its k-th factor and changes no other entry |
| Matrices.ComposeIdentity | src/math/Matrix4.ts:134-166 | the identity quaternion at the origin with unit scale composes to the identity matrix |
| Matrices.RotationOfUnitQuatOrthonormal | src/math/Matrix4.ts:127-166 | a unit quaternion yields a rotation block whose three columns are orthonormal |
| Matrices.PerspectiveEntries | src/math/Matrix4.ts:168-193 | entry 5 is f, entry 11 is -1, entry 15 is 0, and the other unlisted entries are 0 |
| Matrices.PerspectiveProjects | src/math/Matrix4.ts:168-193 | tan(fovy/2) · entry 5 = 1 and entry 0 = entry 5 / aspect; after the divide by w, depths -near and -far land on clip depths -1 and +1 |
| Matrices.Matrix4.constructor | src/math/Matrix4.ts:11-16 | a new matrix is the identity |
| Matrices.Matrix4.Extract | src/math/Matrix4.ts:18-22 | returns the backing array itself |
| Matrices.Matrix4.Identity | src/math/Matrix4.ts:24-35 | overwrites all 16 entries with the unit matrix and returns `this` |
| Matrices.Matrix4.MultiplyMatrices | src/math/Matrix4.ts:37-75 | `this := a × b` from the values before the call, so `a` or `b` (or both) may be `this` |
| Matrices.Matrix4.MakeRotationFromEulerXYZ | src/math/Matrix4.ts:90-125 | the array holds `RotX(x) × RotY(y) × RotZ(z)`; returns `this` |
| Matrices.Matrix4.MakeRotationFromQuaternion | src/math/Matrix4.ts:127-131 | the array holds the rotation of the quaternion's value, with no translation and unit scale |
| Matrices.Matrix4.Compose | src/math/Matrix4.ts:134-166 | the array holds translation, rotation and scale combined |
| Matrices.Matrix4.Perspective | src/math/Matrix4.ts:168-193 | the array holds the perspective projection, with fovy handed to `tan` as radians |
| LegacyMatrices.Matrix4.constructor | src/Matrix4.ts:5-10 | a new matrix is the identity |
| LegacyMatrices.Matrix4.Extract | src/Matrix4.ts:12-16 | returns the backing array itself |
| LegacyMatrices.Matrix4.Identity | src/Matrix4.ts:18-41 | overwrites all 16 entries with the unit matrix |
| LegacyMatrices.Matrix4.MakeRotationFromEulerXYZ | src/Matrix4.ts:95-130 | the same rotation as the newer class, so zero angles give the identity and entries 3, 7, 11, 12, 13 and 14 are 0 |
| LegacyMatrices.Matrix4.Perspective | src/Matrix4.ts:132-157 | the same projection entries as the newer class, every unlisted entry 0 |
| Events.WithListener | src/EventDispatcher.ts:20-31 | an unseen type gets the list `[l]`; a listener already present changes nothing; otherwise it is appended; other types keep their lists |
| Events.WithListenerIdempotent | src/EventDispatcher.ts:20-31 | adding the same listener twice is the same as adding it once |
| Events.WithListenerKeepsNoDuplicates | src/EventDispatcher.ts:20-31 | adding never puts a listener twice into one type's list |
| Events.WithListenerKeepsOrder | src/EventDispatcher.ts:20-31 | a type's earlier list is a prefix of its new list (insertion order) |
| Events.Cleared | src/EventDispatcher.ts:55-66 | a missing or empty type clears every type; a named type's list is emptied and every other type is kept |
| Events.ClearedKeepsNoDuplicates | src/EventDispatcher.ts:55-66 | clearing keeps every list free of duplicates |
| Events.EventDispatcher.constructor | src/EventDispatcher.ts:14-18 | a new dispatcher has no listeners |
| Events.EventDispatcher.AddEventListener | src/EventDispatcher.ts:20-31 | the registry becomes `WithListener` of the old one, and stays free of duplicates |
| Events.EventDispatcher.RemoveAllEventListeners | src/EventDispatcher.ts:55-66 | the registry becomes `Cleared` of the old one |
| Events.EventDispatcher.DispatchEvent | src/EventDispatcher.ts:68-85 | calls exactly the type's list, in order, over a copy taken first, and sets `target`; a type with no list calls nothing and leaves `target` unset |
| DeviceOrientations.SensorAngle | src/DeviceOrientation.ts:37-39 | a missing reading or a reading of 0 becomes the default; the value is converted to radians |
| DeviceOrientations.ZeroBetaBecomesUpright | src/DeviceOrientation.ts:38 | a beta reading of exactly 0° is stored as π/2, while alpha and gamma of 0 stay 0 |
| DeviceOrientations.ScreenAngle | src/DeviceOrientation.ts:47 | the screen angle in radians, or 0 when the orientation is missing |
| DeviceOrientations.DeviceQuatUnit | src/DeviceOrientation.ts:52-62 | the camera quaternion `Euler(β, α, -γ, YXZ) · q1 · axisAngle(Z, -screen)` is always a unit quaternion |
| DeviceOrientations.Q1Unit | src/DeviceOrientation.ts:9 | `q1` = (-√½, 0, 0, √½) is a unit quaternion |
| DeviceOrientations.CalibratedDeviceQuat | src/DeviceOrientation.ts:52-62 | after `calibrate`, with unchanged readings, the Euler part is the identity and only `q1 · axisAngle(Z, -screen)` remains |
| DeviceOrientations.DeviceOrientation.constructor | src/DeviceOrientation.ts:13-79 | starts at raw (0, π/2, 0) with zero offsets and screen angle, listening, with the quaternion already computed by one update |
| DeviceOrientations.DeviceOrientation.Update | src/DeviceOrientation.ts:52-66 | the quaternion becomes the one the corrected angles prescribe, and then exactly one 'updated' is dispatched |
| DeviceOrientations.DeviceOrientation.Orient | src/DeviceOrientation.ts:54-62 | the three in-place steps leave the quaternion equal to `DeviceQuat` of the corrected angles |
| DeviceOrientations.DeviceOrientation.TurnDevice | src/DeviceOrientation.ts:60-61 | `setFromEuler(beta, alpha, -gamma, 'YXZ')` followed by `multiply(q1)` |
| DeviceOrientations.DeviceOrientation.Notify | src/DeviceOrientation.ts:64 | dispatches 'updated' to the current list |
| DeviceOrientations.DeviceOrientation.OnDeviceOrientationChange | src/DeviceOrientation.ts:35-42 | while listening, stores the defaulted angles, keeps offsets and screen angle, and recomputes and notifies; once destroyed, nothing changes |
| DeviceOrientations.DeviceOrientation.OnScreenOrientationChange | src/DeviceOrientation.ts:44-50 | while listening, stores the screen angle, keeps the readings and offsets, and recomputes and notifies; once destroyed, nothing changes |
| DeviceOrientations.DeviceOrientation.Destroy | src/DeviceOrientation.ts:72-77 | stops listening to the window and keeps every reading |
| DeviceOrientations.DeviceOrientation.Calibrate | src/DeviceOrientation.ts:110-117 | each offset becomes the negated raw angle; the readings, screen angle and quaternion are untouched and no event is dispatched |
| SphereGeometry.Quad | src/SphereMesh.ts:55-63 | each cell pushes six indices |
| SphereGeometry.QuadCorners | src/SphereMesh.ts:55-63 | the triangles (first, second, first+1) and (second, second+1, first+1) use exactly the cell's four corners, each below 1089 |
| SphereGeometry.BuildIndices | src/SphereMesh.ts:49-67 | 6·32·32 = 6144 indices, each below 1089, with every cell's six indices at its place in row-major order |
| SphereGeometry.TexCoordInUnitSquare | src/SphereMesh.ts:33-34 | u = long/32 and v = 1 - lat/32 both lie in [0, 1] |
| SphereGeometry.VertexOnUnitSphere | src/SphereMesh.ts:20-43 | every normal has length 1, and with radius 1 every position equals its normal |
| SphereGeometry.BuildVertices | src/SphereMesh.ts:14-47 | 33×33 vertices with 3 position, 3 normal and 2 texture floats each, every vertex's data at its place, and every texture coordinate in [0, 1] |
| SphereGeometry.PushRow | src/SphereMesh.ts:24-45 | the inner loop appends the 33 vertices of one latitude row |
| SphereGeometry.TexCoordsInUnitSquare | src/SphereMesh.ts:33-34 | every texture coordinate of a filled grid lies in [0, 1] |
| Meshes.MeshAttributeCounts | src/SphereMesh.ts:73-94 | `numItems` is 6144 for indices and 1089 for positions and normals, but 726 for texture coordinates, which is not the 1089 pairs they hold |
| Meshes.BuildAttributes | src/SphereMesh.ts:14-94 | module load yields an `ATTRIBUTES` record satisfying `SphereAttributes`: counts as above, every index a vertex that fits `Uint16`, the cells' triangles, every vertex's data for the grid's start longitude, and texture coordinates in [0, 1] |
| Meshes.Awaited | src/SphereMesh.ts:150-172 | a URL source leaves one load awaited, and an element leaves none |
| Meshes.SphereMesh.constructor | src/SphereMesh.ts:101-128 | the mesh's `attributes` is the shared record of the grid from longitude π/2 (`SphereAttributes` with `PHI_OFFSET`, kept in `Valid()`); the model matrix is `makeRotationFromEulerXYZ(phi, theta, 0)`; the initial rotations are kept; the texture is the canvas source or else the empty 1×1 canvas; a URL is awaited |
| Meshes.SphereMesh.Rotate | src/SphereMesh.ts:142-148 | overwrites the model matrix with the Euler-XYZ rotation (phi, theta, 0) |
| Meshes.SphereMesh.UpdateTexture | src/SphereMesh.ts:150-172 | a canvas becomes the texture and 'textureUpdated' fires at once; a URL is awaited with nothing changed; any other element is ignored |
| Meshes.SphereMesh.OnImageLoaded | src/SphereMesh.ts:155-161 | the loaded image becomes the texture, 'textureUpdated' fires, and that load is no longer awaited |
| LegacyMeshes.SphiricalObject.constructor | src/SphiricalObject.ts:99-131 | keeps the record over the module buffers of the grid from longitude 0 (`SphereAttributes` with `LEGACY_PHI_OFFSET`, kept in `Valid()`) and starts from the empty 1×1 canvas before taking the source |
| LegacyMeshes.SphiricalObject.UpdateTexture | src/SphiricalObject.ts:133-155 | a canvas is taken and announced at once; a URL is awaited; any other element is ignored |
| LegacyMeshes.SphiricalObject.OnImageLoaded | src/SphiricalObject.ts:138-144 | the loaded image becomes the texture, 'textureUpdated' fires, and the load is taken once |
| Textures.Pow2Monotone | dist/spherical-image.module.js:627-629 | powers of two grow with the exponent |
| Textures.BitAnd | dist/spherical-image.module.js:624-626 | `a & b` is at most each operand |
| Textures.BitAndSelf | dist/spherical-image.module.js:624-626 | `a & a == a` |
| Textures.IsPowerOfTwoIff | dist/spherical-image.module.js:624-626 | `(v & (v-1)) === 0 && v !== 0` holds exactly when v is a positive power of two |
| Textures.CeilLog2Bounds | dist/spherical-image.module.js:627-629 | 2^⌈log₂ v⌉ ≥ v, and half of it is below v |
| Textures.CeilPowerOfTwo | dist/spherical-image.module.js:627-629 | for v ≥ 1, a power of two at least v; 0 for v = 0 |
| Textures.CeilPowerOfTwoLeast | dist/spherical-image.module.js:627-629 | no power of two at least v is smaller than `ceilPowerOfTwo(v)` |
| Textures.CeilPowerOfTwoFixed | dist/spherical-image.module.js:627-629 | `ceilPowerOfTwo(v) == v` exactly when v is a power of two |
| Textures.ResizedSide | dist/spherical-image.module.js:611-613 | the side is `ceilPowerOfTwo(side)` or the GPU limit, and never above the limit |
| Textures.ResizedSideProperties | dist/spherical-image.module.js:611-613 | with a power-of-two limit, the side is a power of two, and it covers the original side whenever the limit allows |
| Textures.ResizeImage | dist/spherical-image.module.js:611-620 | a new canvas of the resized sides, none above the limit |
| Textures.PowerOfTwoTexture | dist/spherical-image.module.js:597-605 | a power-of-two picture is kept as it is; any other picture is replaced by its resized canvas |
| Textures.PowerOfTwoTextureIsPowerOfTwo | dist/spherical-image.module.js:597-629 | with a power-of-two limit, the kept texture is always a power-of-two picture, and keeping it again changes nothing |
| BundleMeshes.AngleOrZero | dist/spherical-image.module.js:588-589 | an omitted (`undefined`) angle is 0 |
| BundleMeshes.SphereMesh.constructor | dist/spherical-image.module.js:558-572 | the mesh's `attributes` is the shared record of the grid from longitude π/2 (module.js:499), kept in `Valid()`; the model matrix is the `rotateTo` rotation of the offsets; a canvas source is taken through the power-of-two policy; a URL is awaited |
| BundleMeshes.SphereMesh.RotateTo | dist/spherical-image.module.js:587-591 | the model matrix becomes the Euler-XYZ rotation (phi, theta, 0), with omitted angles 0 |
| BundleMeshes.SphereMesh.UpdateTexture | dist/spherical-image.module.js:592-608 | a canvas is taken, resized unless both sides are powers of two, and announced; a URL is awaited; any other element is ignored |
| BundleMeshes.SphereMesh.OnImageLoaded | dist/spherical-image.module.js:596-600 | the loaded image, resized unless its sides are powers of two, becomes the texture and is announced once |
| Cameras.OrZero | src/SphericalImage.ts:69-70 | a missing option is 0 |
| Cameras.DragAngleAdditive | src/SphericalImage.ts:146-147 | two drags add up to one drag over the summed distance, and no movement adds nothing |
| Cameras.DragAngleSign | src/SphericalImage.ts:146-147 | with a negative rate, a drag right or down turns to smaller angles, and left or up to larger ones |
| Cameras.LerpRatioInUnitInterval | src/SphericalImage.ts:165 | for non-negative damping and frame time, `1 - exp(-k·dt/16)` lies in [0, 1), and a frame of no time covers nothing |
| Cameras.ApproachContracts | src/SphericalImage.ts:167-173 | a step with a ratio in [0, 1] multiplies the remaining difference by 1 − ratio: it never overshoots, never grows, and keeps its sign |
| Cameras.ClampPitch | src/SphericalImage.ts:241-242 | the result lies in ±(π/2 − 1e-10); a pitch inside stays as it is; a pitch outside lands on the nearer bound |
| Cameras.ClampPitchIdempotent | src/SphericalImage.ts:241-242 | clamping twice is clamping once |
| Cameras.ResetRemainder | src/SphericalImage.ts:313-314 | `angle % 2π` is the angle less `trunc(angle / 2π)` whole turns; it keeps the sign and lies in (-2π, 2π); an angle already inside is unchanged, so a second reset changes nothing |
| Cameras.ResetFiveHalfTurns | src/SphericalImage.ts:313-314 | five half turns reset to one: `5π % 2π == π` |
| Cameras.ZeroRotation | src/SphericalImage.ts:30-31 | a fresh rotation array (0, 0, 0) |
| Cameras.NewLegacyProjection | src/SphericalImage.ts:64-65 | a fresh matrix holding `perspective(45, width/height, 0.1, 100)` |
| Numerics.Trunc | src/SphericalImage.ts:313-314 | the truncated quotient lies within 1 of its argument, on the side of zero |
| Numerics.TruncRem | src/SphericalImage.ts:313-314 | the JavaScript `%`: `x` less `trunc(x / n)` multiples of `n`, so it keeps the dividend's sign and lies strictly inside (-n, n) |
| Numerics.TruncRemInRange | src/SphericalImage.ts:313-314 | a value already strictly inside (-n, n) is its own remainder |
| Viewers.NewListenedMesh | src/SphericalImage.ts:67-77 | given the shared `ATTRIBUTES` record, the mesh with the default rotation and the viewer's 'textureUpdated' listener as its only listener |
| Viewers.SphericalImage.constructor | src/SphericalImage.ts:39-94 | damping 0.1, both rotations 0, the projection for the canvas size, the mesh rotated by `defaultRotation… \|\| 0`, and, after the immediate first frame, the identity view with `willRender` false |
| Viewers.SphericalImage.FirstFrame | src/SphericalImage.ts:82-94 | the constructor's `tick(0)` renders the initial view and clears the flag |
| Viewers.SphericalImage.Drag | src/SphericalImage.ts:139-152 | the target pitch and yaw move by −0.1°/px of the vertical and horizontal deltas; nothing is scheduled |
| Viewers.SphericalImage.UpdateCameraRotation | src/SphericalImage.ts:163-178 | unless both axes are within 1e-5, both ease toward the target by `lerpRatio` and a render is scheduled; otherwise nothing changes |
| Viewers.SphericalImage.Render | src/SphericalImage.ts:233-253 | when scheduled, clamps the target pitch (not the current one), views from the current pitch and yaw, and clears the flag; otherwise nothing changes |
| Viewers.SphericalImage.Tick | src/SphericalImage.ts:82-94 | nothing once destroyed; otherwise the damping step and then `_render`, leaving no render pending |
| Viewers.SphericalImage.SetSize | src/SphericalImage.ts:221-231 | the projection for the new aspect ratio, and a render scheduled |
| Viewers.SphericalImage.Reset | src/SphericalImage.ts:311-318 | the current angles become `angle % 2π` and the target 0; roll and scheduling are untouched |
| Viewers.SphericalImage.Destroy | src/SphericalImage.ts:180-184 | sets the destroyed flag and clears `willRender` |
| Viewers.SphericalImage.OnTextureLoaded | src/SphericalImage.ts:77 | a loaded texture schedules a render through the viewer's listener |
| LegacyViewers.NewListenedObject | src/Renderer.ts:92-99 | given the record over the module buffers, the sphere with the renderer's 'textureUpdated' listener as its only listener |
| LegacyViewers.Renderer.constructor | src/Renderer.ts:68-108 | rotation 0, the projection for the canvas size, and, after the immediate first frame, the identity view with `willRender` false |
| LegacyViewers.Renderer.Drag | src/Renderer.ts:153-167 | the displayed rotation moves by −0.1°/px directly, and a render is scheduled |
| LegacyViewers.Renderer.Render | src/Renderer.ts:180-204 | when scheduled, clamps the displayed pitch in place, so it is within ±(π/2 − 1e-10), views from the clamped rotation, and clears the flag; otherwise nothing changes |
| LegacyViewers.Renderer.OnTextureLoaded | src/Renderer.ts:99 | a loaded texture schedules a render |
| DeviceViewers.ViewOf | dist/spherical-image.module.js:862-864 | the rendered view is `Euler-XYZ(pitch, yaw, 0) × rotation(device quaternion)` |
| DeviceViewers.ViewOfProperties | dist/spherical-image.module.js:862-864 | with the device at the identity, the view is the camera's own rotation (the identity at zero angles); a unit device quaternion turns it by an orthonormal rotation |
| DeviceViewers.NewProjection | dist/spherical-image.module.js:738-739 | a fresh matrix holding `perspective(45, width/height, 0.1, 100)` |
| DeviceViewers.NewListenedMesh | dist/spherical-image.module.js:740-742 | given the shared `ATTRIBUTES` record, the mesh with `offsetAzimuth \|\| 0`, `offsetAltitude \|\| 0` and the viewer's listener as its only listener |
| DeviceViewers.NewMatricesAndMesh | dist/spherical-image.module.js:702-742 | the view, scratch and projection matrices and the mesh, all fresh and apart |
| DeviceViewers.NewRotationsAndDevice | dist/spherical-image.module.js:714-718 | both rotations 0, and the device object in its initial state with no listeners |
| DeviceViewers.SphericalImage.constructor | dist/spherical-image.module.js:708-835 | as the source generation, plus the device object created first and listened to after the first frame; the initial view is `ViewOf(0, 0, initial device quaternion)` |
| DeviceViewers.SphericalImage.Start | dist/spherical-image.module.js:745-806 | the immediate `tick(0)`, then the 'updated' listener on the device |
| DeviceViewers.SphericalImage.FirstFrame | dist/spherical-image.module.js:745-753 | the first frame renders `ViewOf(0, 0, device)` and clears the flag |
| DeviceViewers.SphericalImage.Drag | dist/spherical-image.module.js:779-787 | the target moves by −0.2°/px; nothing is scheduled |
| DeviceViewers.SphericalImage.UpdateCameraRotation | dist/spherical-image.module.js:794-803 | the damping step with frame length 8 |
| DeviceViewers.SphericalImage.ComposeView | dist/spherical-image.module.js:862-864 | `mat4a` holds the camera rotation, `mat4b` the device rotation, and the view their product |
| DeviceViewers.SphericalImage.Render | dist/spherical-image.module.js:855-867 | when scheduled, clamps the target pitch, views by `ViewOf` of the current rotation and the device, and clears the flag; otherwise nothing changes |
| DeviceViewers.SphericalImage.Draw | dist/spherical-image.module.js:860-864 | the clamp and the three matrix steps of `_render` |
| DeviceViewers.SphericalImage.Tick | dist/spherical-image.module.js:745-753 | nothing once destroyed; otherwise the damping step and `_render`, leaving no render pending |
| DeviceViewers.SphericalImage.SetSize | dist/spherical-image.module.js:836-844 | the projection for the new aspect ratio, and a render scheduled |
| DeviceViewers.SphericalImage.Reset | dist/spherical-image.module.js:845-850 | the current angles become `angle % 2π` and the target 0 |
| DeviceViewers.SphericalImage.Calibrate | dist/spherical-image.module.js:851-854 | the device takes its readings as zero, and a render is scheduled although the quaternion is not recomputed |
| DeviceViewers.SphericalImage.OnDeviceOrientationChange | dist/spherical-image.module.js:804-806 | while live, the device stores the defaulted readings, keeps its offsets and screen angle, and recomputes, and its 'updated' event schedules a render; once destroyed, nothing changes |
| DeviceViewers.SphericalImage.OnScreenOrientationChange | dist/spherical-image.module.js:804-806 | while live, the device stores the screen angle, keeps its readings and offsets, and recomputes, and a render is scheduled; once destroyed, nothing changes |
| DeviceViewers.SphericalImage.Destroy | dist/spherical-image.module.js:807-834 | sets the destroyed flag, clears `willRender`, removes every listener of the device object, and detaches the device from the window, keeping its readings, offsets and screen angle |
| DeviceViewers.SphericalImage.OnTextureLoaded | dist/spherical-image.module.js:742 | a loaded texture, kept through the power-of-two policy, schedules a render |

## Left out

- WebGL: context creation, shaders, buffer and texture upload, `_renderObject`
  / `renderObject`, and every `gl.*` call in the constructors and in
  `destory` / `destroy`. These are foreign GPU calls with no logic. Because of
  this, the GPU upload listener that `uploadObject` adds to each mesh is not
  modelled either; the viewer's own listener is the mesh's only listener in
  the model.
- src/webglStats.ts and the bundle's `webglStats` probe: `maxTextureSize` is
  a parameter.
- DOM wiring:
  - the canvas and document pointer listeners, `normalizePointerEvent`, and
    the `lastDragX` / `lastDragY` bookkeeping (drags take the pixel deltas);
  - the canvas size read at construction (width and height are parameters);
  - `requestAnimationFrame` and `cancelAnimationFrame` (a frame is a call of
    `Tick`).
- Asynchronous image loading, and the drawing into the canvas in
  `resizeImage`. Only its size rule is modelled. The element a resized copy
  becomes is the parameter `freshId`.
- Floating point:
  - Float32 storage and IEEE rounding;
  - NaN and the infinities. For the `|| 0` and `|| default` tests, `None` stands for a missing or NaN value. For `BundleMeshes.SphereMesh.RotateTo`, which tests `=== void 0`, `None` stands for `undefined` only, and a NaN angle is outside the model.
- Textures.CeilLog2Bounds: states the exact ⌈log₂ v⌉. The floating-point
  `Math.log(value) / Math.LN2` that the source computes can be off for large
  powers of two, and that is not modelled.
- Textures.BitAnd: models JavaScript's `&` only on non-negative integers.
  Image sides are never negative, and the 32-bit conversion of larger values
  is not modelled.
- Matrices.Matrix4.Perspective: requires tan(fovy/2), aspect and near − far
  to be non-zero, because JavaScript would divide by zero and produce
  infinities there.
- LegacyMatrices.Matrix4.Perspective: the same requirement, for the same
  reason.
- Viewers.SphericalImage.constructor: requires a non-zero canvas width and
  height, because the aspect ratio `width / height` is otherwise Infinity or
  NaN.
- Viewers.SphericalImage.SetSize: the same requirement, for the same reason.
- LegacyViewers.Renderer.constructor: the same requirement, for the same
  reason.
- DeviceViewers.SphericalImage.constructor: the same requirement, for the
  same reason.
- DeviceViewers.SphericalImage.SetSize: the same requirement, for the same
  reason.
- Module-level scratch objects are held per instance:
  - `q0` and `q1` of src/DeviceOrientation.ts;
  - `mat4a` and `mat4b` of the bundle.

  Each is overwritten before it is read, or never written, so sharing them
  changes no result.
- Listener bodies: a listener is its identity, and the owner performs its
  reaction, so a listener added during a dispatch is never called in that
  round.
- The `quaternion`, `alpha`, `beta` and `gamma` getters of
  `DeviceOrientation`, and the `modelMatrix` and `baseTexture` getters of the
  meshes. They return a field, and the model reads that field directly.
- The `attributes` getter of src/SphereMesh.ts returns the module constant
  `ATTRIBUTES`. The model keeps that record in the mesh's constant field
  `attributes`, which every mesh shares.
- The module-level buffers and `ATTRIBUTES` are built once, when the module
  loads (`Meshes.BuildAttributes`). The viewers and meshes take that record as
  a parameter, and they require it to be the built one
  (`Meshes.SphereAttributes`).
- The trigonometric values of the vertex positions and normals are stated
  through `MathLib`. Only their layout and unit length are proved; nothing
  about their numeric values is.
- src/Matrix4.ts: its `multiply` and `translate` are commented out, so they
  are not modelled.
- The dist/*.d.ts declaration files and rollup.config.js hold no logic.
