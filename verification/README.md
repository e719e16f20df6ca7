# Transform math, camera and asset loaders of a small OpenGL viewer

This project is a Dafny model of the core of a small C OpenGL/X11 viewer. It has three parts:

- **The transform library (`3d.c`).** This covers 3-D vectors, quaternions, and 4x4 matrices
  stored row by row (`3d.h` declares the fields row major). It includes the step-limited `approach`, the rigid-transform
  inverse, the general 4x4 inverse, the perspective, frustum and orthographic projections, the
  two look-at builders, quaternion/matrix/Euler conversion and slerp.
- **The camera state of the viewer (`main.c`).** This is the set-up of the perspective and the
  camera, the per-frame rotation and translation of the camera, the view-matrix update, and the
  cycling of the current angle.
- **The validation and defaulting done by the two loaders (`assets.c`).** `read_mob` reads a
  mesh file and `load_ktx` reads a KTX texture.

How the model maps the C code:

- **Arithmetic.** All arithmetic is over `real`. The C `float`/`double` values are taken as
  exact reals, and float constants are widened exactly: `0.01f` is
  `0.00999999977648258209228515625` and `0.9999f` is `0.99989998340606689453125`.
- **Math library.** The C math library (`sqrtf`, `sinf`, `cosf`, `tanf`, `atan2f`, `asinf`) and
  `M_PI` are fields of a `Scalar.MathLib` value passed as a parameter. Lemmas that need a fact
  about them state it as a precondition. Examples are an exact square root (`SqrtExactAt`) or
  `sin 0 = 0`, `cos 0 = 1` (`ExactAtZero`).
- **Values and state.**
  - Pure value computations are functions on datatypes: `Vec3`, `Vec4`, and `Mat` (a sequence
    of 16 reals).
  - Routines that write through an output pointer are methods on `array<real>` or on the mutable
    cells `Vectors.Vec3Cell` and `Quaternions.QuatCell`. Where the C code can be called with
    aliased arguments, the method states what aliasing does.
  - The globals of `main.c` (`speeds`, `view_matrix`, `projection_matrix`, `camera`,
    `perspective`, `camera_changed`, `cur_angle`, `mx`, `my`) are the fields of the class
    `Viewer.Viewer`.
- **Loaders.** File contents and outcomes are parameters: whether `fopen` succeeded, the header
  read, the file length, the bytes `fread` returned, and whether `malloc` succeeded. The
  loaders' outputs are fields of output objects.

Matrix layout: the C field `_ab` is index `a + 4*b` of the flat sequence. `At(m, r, c)` is
`m[4*r + c]`, so the C field `_ab` is `At(m, b, a)`. The translation lives at indices 3, 7 and
11.

## Model

| member | source | states |
|---|---|---|
| Scalar.Approach | 3d.c:12-22 | for a non-negative step: moves at most `dt`, stays between current and goal, reaches the goal exactly when it is within `dt`, and otherwise closes the gap by exactly `dt` |
| Vectors.AddScaled | 3d.c:41-47 | `u + scale*v`; scale 1 is plain addition and scale 0 returns `u` |
| Vectors.Sub | 3d.c:50-54 | the difference is the vector that added to `v` gives back `u`, i.e. `u + (-1)v` |
| Vectors.SubLength | 3d.c:57-62 | the length of `u - v`, which is the same as the length of `v - u` |
| Vectors.Hadamard | 3d.c:84-90 | the component sum of the element-wise product is the dot product |
| Vectors.Normalized | 3d.c:98-105 | a zero vector (zero length) is left as it is; otherwise the result scaled by the length is the input |
| Vectors.NormalizedIsUnit | 3d.c:98-105 | with an exact square root, a normalized non-zero vector has unit length |
| Vectors.NormalizedOrthogonal | 3d.c:98-105 | normalizing keeps orthogonality to any vector |
| Vectors.Normal | 3d.c:108-116 | the normal of `u`, `v` is the normalized cross product |
| Vectors.NormalOrthogonal | 3d.c:108-116 | the normal is orthogonal to both inputs |
| Vectors.CrossOrthogonal | 3d.c:77-81 | the cross product is orthogonal to both factors |
| Vectors.CrossAntiCommutative | 3d.c:77-81 | swapping the factors negates the cross product |
| Vectors.CrossOfOrthonormal | 3d.c:77-81 | the cross product of two orthonormal vectors has unit length |
| Vectors.Lagrange | 3d.c:77-81 | Lagrange's identity: the squared length of `u x v` is `(u.u)(v.v) - (u.v)^2` |
| Vectors.DotScaled | 3d.c:65-74 | scaling a vector by `s` scales its squared length by `s^2` |
| Vectors.Vec3Cell.Scale | 3d.c:65-69 | the cell holds its old value scaled |
| Vectors.Vec3Cell.Normalize | 3d.c:98-105 | the cell holds its old value normalized; a zero vector stays zero |
| Matrices.ProductEntries | 3d.c:468-490 | entry (r, c) of the product is row r of the left factor times column c of the right factor |
| Matrices.IdentityIsUnit | 3d.c:293-298 | the identity is a two-sided unit of the matrix product |
| Matrices.MulMatrix | 3d.c:468-490 | with an output distinct from both inputs, the output holds the product |
| Matrices.TransposedEntries | 3d.c:417-434 | entry (r, c) of the transpose is entry (c, r) of the input |
| Matrices.TransposeInvolution | 3d.c:417-434 | transposing twice gives the input back and the diagonal is kept |
| Matrices.Transpose | 3d.c:417-434 | into a distinct output: the transpose; in place: the upper triangle mirrored over the diagonal |
| Matrices.MirroredUpperEntries | 3d.c:417-434 | the in-place result is symmetric and keeps the upper triangle |
| Matrices.InPlaceTransposeCorrectIff | 3d.c:417-434 | transposing in place yields the transpose if and only if the input is symmetric |
| Matrices.MulVector3IsDirection | 3d.c:322-338 | the 3-vector product is the 4-vector product of the direction `(v, 0)`, so it does not depend on the translation column or `_33` |
| Matrices.MulVector4Identity | 3d.c:293-298 | the identity maps every 4-vector to itself |
| Matrices.MulVector4Product | 3d.c:331-338 | applying the product `a * b` to a vector is applying `b` and then `a` |
| Matrices.RightInverseUndoes | 3d.c:331-338 | a matrix undoes any right inverse of it applied first |
| Matrices.WithTranslationChangesOnlyTranslation | 3d.c:301-305 | setting a translation writes indices 3, 7 and 11 and leaves the other 13 entries alone |
| Matrices.TranslationMovesPoints | 3d.c:301-305 | a translation matrix moves every point `(p, 1)` by the vector |
| Matrices.TranslationKeepsDirections | 3d.c:301-305 | setting the translation does not change how directions are mapped |
| Matrices.SetTranslation | 3d.c:301-305 | the array holds its old contents with the translation set |
| Matrices.SetNegTranslation | 3d.c:308-312 | the array holds its old contents with the negated translation set |
| Matrices.WithScaleChangesOnlyDiagonal | 3d.c:315-319 | setting the scale writes the first three diagonal entries and nothing else |
| Matrices.ScaleScalesDirections | 3d.c:315-319 | a scale matrix multiplies each direction component by its factor |
| Matrices.SetScale | 3d.c:315-319 | the array holds its old contents with the scale set |
| Matrices.InvertTR | 3d.c:437-457 | into a distinct output, the output holds `RigidInverse` of the input; in place, it holds `RigidInverse` of the mirrored input |
| Matrices.RigidInverseShape | 3d.c:437-457 | the result's bottom row is `(0, 0, 0, 1)` and its 3x3 block is the transposed block of the input |
| Matrices.RigidInverseIsInverse | 3d.c:437-457 | for a rigid transform (orthonormal 3x3 block, bottom row `0 0 0 1`) the result is a right inverse |
| Matrices.RigidInverseIgnoresBottomRow | 3d.c:437-457 | the result does not depend on the input's bottom row |
| Inverse.AdjugateProduct | 3d.c:583-711 | the matrix times the cofactor matrix the source computes is `det * I` |
| Inverse.InverseIsInverse | 3d.c:583-711 | for a non-zero determinant, the cofactors divided by the determinant form a right inverse |
| Inverse.Invert | 3d.c:583-711 | returns 1 exactly when the determinant is non-zero, and the output then holds cofactors / det; on 0 the output is untouched |
| Projection.WithFrustum | 3d.c:364-380 | the eight entries the frustum does not write (`_10, _30, _01, _31, _02, _12, _03, _13`) keep their values |
| Projection.ProjectFrustum | 3d.c:364-380 | the array holds its old contents with the frustum entries written |
| Projection.FrustumDepth | 3d.c:364-380 | whatever the unwritten entries hold, the point straight ahead on the near plane maps to clip depth `-n` with `w = n`, and the one on the far plane to depth `f` with `w = f`: normalized depths -1 and +1 |
| Projection.FrustumDepthPlanes | 3d.c:364-380 | built on the identity, every point of the near plane maps to clip depth `-n` with `w = n` and every point of the far plane to depth `f` with `w = f` |
| Projection.FrustumNearCorners | 3d.c:364-380 | the near-plane corners `(l, b)` and `(r, t)` map to the corners `(-1, -1)` and `(1, 1)` of the clip square |
| Projection.PerspectiveMatrix | 3d.c:383-392 | the perspective writes a frustum: the third column's first two entries are 0 and the bottom row ends in `-1, 0` |
| Projection.PerspectiveProjection | 3d.c:383-392 | the array holds the perspective frustum of its old contents |
| Projection.SetOrthographic | 3d.c:395-414 | the array holds the orthographic matrix |
| Projection.OrthographicTransposeMapsBox | 3d.c:395-414 | read column by column (as its transpose), the matrix maps the box corners `(left, bottom, -near)` and `(right, top, -far)` to the corners of the unit cube |
| Projection.OrthographicKeepsOrigin | 3d.c:395-414 | the homogeneous origin is mapped to itself |
| Projection.ClipToEyeIgnoresBottomRow | 3d.c:492-500 | the result does not depend on the projection's bottom row |
| Projection.ClipToEyeUndoesRigid | 3d.c:492-500 | for a rotation-plus-translation matrix, the returned x and y are those of the point the matrix maps to `u` |
| Projection.CentredFrustumShape | 3d.c:364-380 | a frustum with `l = -r` on the identity has `_00` as the only entry of its x row, bottom row `0 0 -1 0`, x scale `n / r`, and non-zero `_00`, `_11`, `_32` when `n` and `f` are non-zero |
| Projection.CentredFrustumDet | 3d.c:364-380 | the determinant of such a frustum is the product of `_00`, `_11` and `_32` |
| Projection.ClipToEyeMultipliesScale | 3d.c:492-500 | on a centred frustum, the returned x is the clip x times the x scale, and the projection maps that point to the clip x times the square of the scale |
| Projection.ClipToEyeIntended | 3d.c:492-500 | with the general inverse, the projection maps the unprojected point back to `u`; x and y are that point's, z is -1 and w is 0 |
| Projection.ClipToEyeIntendedDividesScale | 3d.c:492-500 | on a centred frustum with non-zero scales, the determinant is non-zero and the intended x times the x scale is the clip x |
| Projection.ClipToEyeSample | 3d.c:492-500 | for the frustum `l = b = -0.5`, `r = t = 0.5`, `n = 1`, `f = 3` on the identity the x scale is 2, and the clip point `(1, 0, -1, 1)` comes back with `x = 2` |
| Projection.ClipToEyeIntendedSample | 3d.c:492-500 | on the same input the intended version returns `x = 0.5`, which is `r / n` |
| Projection.EyeToWorldInvertsView | 3d.c:502-513 | for an orthonormal view block, the view maps the world direction back to the normalized eye direction |
| Projection.TransposedBlockDirection | 3d.c:502-513 | the rigid inverse maps an eye direction to a world direction of the same length that the view maps back |
| LookAt.LookAtR | 3d.c:515-552 | the output is the rigid inverse of the matrix whose rows are `right = normalize(at x up)`, `right x at` and `-at`, with `eye` in the bottom row |
| LookAt.LookAtRHasNoTranslation | 3d.c:515-552 | the result has no translation |
| LookAt.LookAtRIgnoresEye | 3d.c:515-552 | the result does not depend on `eye` |
| LookAt.LookAtRInvertsRotation | 3d.c:515-552 | for a unit `at` not parallel to `up`, the basis is orthonormal and the output inverts it |
| LookAt.LookAtL | 3d.c:554-580 | the output is the view built from the forward, left and up axes and the eye |
| LookAt.LookAtLMovesEyeToOrigin | 3d.c:554-580 | the view, read column by column, maps the eye to the origin |
| LookAt.LookAtLSeesTarget | 3d.c:554-580 | the transpose of the view is a rigid transform, and it maps the target onto the negative z axis at its distance from the eye |
| LookAt.LookAtBasis | 3d.c:554-580 | the forward, left and up axes the source builds are orthonormal |
| Quaternions.QuatNormalized | 3d.c:128-134 | each component times the length gives back the input |
| Quaternions.QuatNormalizedIsUnit | 3d.c:123-134 | with an exact square root, the normalized quaternion has norm 1 |
| Quaternions.Conjugate | 3d.c:137-142 | the conjugate has the same norm |
| Quaternions.ConjugateInvolution | 3d.c:137-142 | conjugating twice gives the input back |
| Quaternions.QuatMulUnit | 3d.c:145-152 | `(0, 0, 0, 1)` is a two-sided unit of the product |
| Quaternions.QuatMulConjugate | 3d.c:137-152 | `q q*` and `q* q` are the real quaternion whose `w` is the squared norm of `q` |
| Quaternions.AliasedMul | 3d.c:145-152 | with no aliasing, the stored value is the Hamilton product |
| Quaternions.MulQuaternion | 3d.c:145-152 | `out` holds the component-by-component result with the given aliasing, and the plain product when `out` is neither input |
| Quaternions.AliasedMulDiffers | 3d.c:145-152 | storing into the first factor changes the result: `(0,0,0,1)` times `(1,0,0,0)` becomes `(1,0,0,-1)` instead of `(1,0,0,0)` |
| Quaternions.AliasedMulIntoSecondDiffers | 3d.c:145-152 | storing into the second factor changes the result in the same way |
| Quaternions.QuatCell.Normalize | 3d.c:128-134 | the cell holds its old value normalized |
| Quaternions.QuatCell.SetFromEuler | 3d.c:177-194 | the cell holds the quaternion of the three Euler angles |
| Quaternions.MulVectorUnit | 3d.c:155-163 | the identity quaternion leaves every vector where it is |
| Quaternions.ToMatrix | 3d.c:222-254 | the matrix has no translation and its bottom row is `(0, 0, 0, 1)` |
| Quaternions.QuaternionToMatrix | 3d.c:222-254 | the array holds the rotation matrix of the quaternion |
| Quaternions.ToMatrixConjugate | 3d.c:222-254 | the matrix of the conjugate is the transposed matrix |
| Quaternions.ToMatrixRotates | 3d.c:222-254 | for a unit quaternion, the matrix rotates vectors exactly as `quaternion_mul_vector` does |
| Quaternions.FromAxisAngle | 3d.c:166-173 | about a unit axis, with `sin^2 + cos^2 = 1` at the half angle, the quaternion has norm 1; angle 0 gives the identity rotation when `sin 0 = 0` and `cos 0 = 1` |
| Quaternions.FromEulerIsAxisAngleProduct | 3d.c:166-194 | the Euler quaternion is the product of the axis-angle rotations about y by the attitude, about x by the heading and about z by the bank, in that order |
| Quaternions.FromEulerZero | 3d.c:177-194 | all angles 0 give the identity rotation, which normalizing leaves unchanged |
| Quaternions.ToEuler | 3d.c:197-219 | near the poles (`xy + zw` above 0.499 or below -0.499) the attitude is `+-pi/2`, the bank is 0 and the heading is `+-2 atan2(x, w)`; elsewhere the attitude is `asin(2 (xy + zw))` |
| Slerp.Slerp | 3d.c:257-287 | as written, in the linear band: `t = 0` returns the start point `o`; `t = 1` returns `p`, or `p` with only its `w` negated after a flip |
| Slerp.SlerpIntended | 3d.c:257-287 | agrees with the source whenever cos omega is non-negative; in the linear band `t = 0` returns `o` and `t = 1` returns `p` or its antipode, both the rotation `p` stands for |
| Slerp.SlerpOfSame | 3d.c:257-287 | interpolating a unit quaternion with itself returns it at every `t`, in both versions |
| Slerp.SlerpFlipWrong | 3d.c:264-286 | from a unit `o` to `-o` (the same rotation), the source returns `(-o.x, -o.y, -o.z, o.w)`, a different rotation; the intended version returns `o` |
| Slerp.CosOmegaAntipode | 3d.c:264-265 | the dot product of `o` with `-o` is minus the squared norm of `o`, so the flip branch is taken |
| Slerp.SlerpFlipInstance | 3d.c:264-286 | `(0.6, 0, 0, 0.8)` is a concrete unit quaternion that `SlerpFlipWrong` applies to |
| Viewer.UpdCurAngle | main.c:176-185 | the result is in 0..2; inside the range it is `cur + dir`; a step of +-1 from a valid angle wraps modulo 3 |
| Viewer.UpdCurAngleInverse | main.c:176-185 | a step back undoes a step, and three steps in one direction return to the start |
| Viewer.TranslationSpeeds | main.c:187-190 | only slots 0 and 2 move; each moves at most `dt * 0.01` towards its goal in slot 1 or 3, and reaches it exactly when it is within reach |
| Viewer.RotationSpeeds | main.c:198-208 | slot 4 becomes `dt * approach(...)`; slot 5 is reset to 0 exactly when slot 4 exceeds it, and slots 0-3 are kept |
| Viewer.TranslatedUnrotated | main.c:191-195 | with the identity rotation the camera moves by the step itself |
| Viewer.TranslatedAtRest | main.c:191-195 | a zero step leaves the position unchanged |
| Viewer.TurnedWithoutMouse | main.c:198-205 | with no mouse motion the rotation is unchanged, and a unit rotation survives normalization |
| Viewer.CameraPerspective | main.c:143-151 | the kind is kept, the field of view is `radians(75)`, near is 1 and far is 20, `view_aspect * height = width`, the aspect and its reciprocal multiply to 1, and the ortho scales are `2/width` and `-2/height` |
| Viewer.CameraProjectionShape | main.c:143-152 | the projection of the identity has the frustum's zero pattern, `-1` in the last row, and `y` scale = `x` scale * aspect |
| Viewer.ViewMatrixMapsPoints | main.c:213-218 | the view matrix maps a point `x` to `rotate(x) - position` |
| Viewer.Viewer.constructor | main.c:38-69 | every modelled camera global starts at zero: the flag, the angle index, the mouse deltas, the speeds, the rotation and the position |
| Viewer.Viewer.SetupPerspective | main.c:143-165 | identity view, the camera's perspective and its projection, the position `(0, 0, 6)`, the normalized zero-angle rotation (the identity for an exact library), and the change flag raised |
| Viewer.Viewer.TranslateCamera | main.c:187-196 | the speeds become `TranslationSpeeds` and the position moves by the step rotated by the conjugate camera rotation |
| Viewer.Viewer.RotateCamera | main.c:198-211 | the speeds become `RotationSpeeds`, the rotation becomes the normalized mouse-turned rotation, and the mouse deltas are cleared |
| Viewer.Viewer.UpdateCamera | main.c:213-222 | without the change flag nothing changes; with it, rotate then translate, and the view matrix maps to camera space from the new rotation and position; the flag is cleared |
| Viewer.TurnCamera | main.c:200-205 | the rotation becomes the normalized product of the two axis-angle turns and the old rotation, formed in place |
| Viewer.ResetRotation | main.c:158-160 | the rotation becomes the normalized zero-angle rotation |
| Viewer.CopyMatrix | main.c:144 | the array holds the given matrix |
| Assets.MobVerdictLoaded | assets.c:46-93 | the mesh loads if and only if the file opened, the version is 141, the type is interleaved (2), the length is `16 + 4 vertex_size + 2 index_size`, and both reads were complete |
| Assets.ReadMob | assets.c:39-100 | the status is the verdict; on failure the outputs are untouched; on success the sizes, the joint count and both data chunks are stored |
| Assets.CheckIdentifier | assets.c:147-168 | true exactly when all twelve identifier bytes match the KTX 1 magic |
| Assets.Defaulted | assets.c:170-174 | a zero field becomes 1 and a non-zero value is kept, so the result is never 0 |
| Assets.ApplyDefaults | assets.c:170-174 | width, depth, mipmap levels, array elements and faces are defaulted; every other header field is unchanged |
| Assets.MulU32 | assets.c:190 | the product wraps modulo 2^32, and is the exact product whenever that is below 2^32 |
| Assets.MulU32Wraps | assets.c:190-193 | `3 * 0x5555_5556` wraps to 2, so an RGB image of `0x5555_5556` by 1 pixels with image size 2 raises no size warning |
| Assets.Pad | assets.c:199 | the pad is 1..4, is 4 exactly on a multiple of 4, and always aligns the size to 4 |
| Assets.MipPadding | assets.c:199 | the KTX 1 mip padding is 0..3 and aligns the size to 4 |
| Assets.PadVersusMipPadding | assets.c:199 | the two paddings agree except on multiples of 4, where the source's is 4 larger |
| Assets.AsInt32 | assets.c:215-216 | the u32-to-int conversion lies in the int range and is congruent modulo 2^32 |
| Assets.KtxVerdictLoaded | assets.c:153-223 | the texture loads (0) if and only if the file opened, the identifier matches, the defaulted level count is 1 and the pixel buffer was allocated; otherwise -1 |
| Assets.LoadKtx | assets.c:142-224 | the result is the verdict; on success the texture id and the defaulted width and height are returned; on failure the outputs are untouched; a bad open or identifier leaves the header alone, and otherwise the header is left defaulted (`ApplyDefaults`) with every other field kept; the size warning is raised exactly for an RGB image whose size is not `3 * width * height` (32-bit) |

## Left out

- Floating point: IEEE rounding, `-0.0`, NaN and infinities are not modelled. Where the C code
  divides without a guard, the division would give inf or NaN, and the model requires a
  non-zero divisor instead. Examples are normalizing a zero quaternion, a degenerate frustum and
  a zero window size.
- `max_f` (3d.c:25-27) truncates a `double` to `int` in a helper no core routine calls. It is
  not modelled.
- `radians` (3d.c:7-9) and all transcendental results go through the `MathLib` parameter.
  Consequently no Euler round trip (`ToEuler(FromEuler(v)) == v`) is stated: it depends on
  identities of `sin`, `cos`, `atan2` and `asin` that a parameter does not carry.
- Quaternions.ToEuler: its contract only fixes the pole branches and the attitude, which read
  like the body. There is no inverse to relate it to, for the reason given above.
- `vector_3d_add`, `vector_3d_scale`, `vector_3d_dot`, `vector_3d_cross`, `vector_3d_length`,
  `quaternion_length`, `quaternion_mul_vector`, `matrix_4x4_mul_vector_3d`,
  `matrix_4x4_mul_vector_4d` and `eye_to_world_coordinates` (3d.c:34-38, 65-81, 93-95, 123-125,
  155-163, 322-338, 502-513) are plain value functions. They are stated through the lemmas above
  rather than contracts of their own. `eye_to_world_coordinates` (`Projection.EyeToWorld`) is
  stated through `EyeToWorldInvertsView`, and `matrix_4x4_mul_vector_4d` (`Matrices.MulVector4`)
  through `MulVector3IsDirection`, `MulVector4Identity` and `MulVector4Product`.
- The window size globals `width` and `height` (main.c:41-42, 800 and 450 at start) are not fields
  of `Viewer`: `SetupPerspective` takes the window size as parameters.
- Matrices.MulMatrix requires an output distinct from both inputs. The source writes the output
  entry by entry, so an aliased call would read entries it had already overwritten.
- Matrices.InvertTR models the in-place call on the mirrored block, as the source's field order
  implies.
- Viewer.UpdCurAngle: `cur_angle + dir` is an `int` sum, and its overflow at `INT_MAX` is not
  modelled.
- The `double` time step of `main.c` is mixed with `float` speeds. The model uses one `real`
  type, so the narrowing of `dt * speeds` to `float` is not modelled.
- Viewer.Viewer.RotateCamera and Viewer.TurnCamera model `quaternion_mul_quaternion` called with
  `out` aliased to an input exactly as written (`AliasedMul`). Because of that, the camera turn
  is not the Hamilton product of the two turns and the rotation. The model keeps the source's
  behaviour and exposes the difference (`AliasedMulDiffers`, `AliasedMulIntoSecondDiffers`);
  rotation-composition properties are therefore not stated for the camera.
- The X11 event loop, which sets `speeds`, `mx`, `my`, `cur_angle` and `camera_changed`, is not
  part of this model; those fields are inputs of the camera methods. Also not modelled: the GL
  calls, `render`, `print_mat`, shading (`shading.c`) and `gl_lite.h`.
- Assets: file I/O is reduced to parameters. These are the open outcome, the header bytes, the
  file length and the bytes each `fread` delivered. For the KTX loader they are the image size
  word and whether `malloc` succeeded. Leaked file handles on the error paths and
  `glPixelStorei` calls are not modelled. `generate_texture` is reduced to the texture id
  parameter and `mk_indexed_model` is not modelled.
- Assets.ReadMob does not model an `ftell` failure (-1) or a short read of the header itself,
  which the source does not check; the header is a parameter.
- Assets.LoadKtx does not model the key-value skip (`fseek`) or the pixel bytes themselves. The
  `pad` and the loop counter `i` feed nothing that is observable, and only `Pad` is kept.

## Findings

| source | as written | input that shows it | evidently intended | confidence | as-written member | corrected member |
|---|---|---|---|---|---|---|
| 3d.c:264-286 | when cos omega is negative, `quaternion_slerp` negates only the `w` of its copy of the far endpoint; the blend reads x, y and z from the un-negated vector part | `o = (0.6, 0, 0, 0.8)`, `p = -o = (-0.6, 0, 0, -0.8)`, `t = 1`: the result is `(-0.6, 0, 0, 0.8)`, a different rotation from `o` and `-o` | negate all four components of the far endpoint, so the result is `o` | not executed | Slerp.SlerpFlipWrong | Slerp.SlerpIntended |
| 3d.c:492-500 | `clip_to_eye_coordinates` undoes the projection with `matrix_4x4_invert_tr`, which inverts only a rotation plus a translation; on a perspective projection it multiplies the clip x by the x scale `_00` where undoing the projection divides by it | the frustum `l = b = -0.5`, `r = t = 0.5`, `n = 1`, `f = 3` on the identity (x scale 2) and the clip point `(1, 0, -1, 1)` at the right edge of the near plane: the result has `x = 2`, and the projection maps the unprojected point to `x = 4` instead of 1 | undo the projection with the general inverse (`matrix_4x4_invert`), giving `x = 0.5 = r / n`, the edge of the frustum one unit in front of the eye | not executed | Projection.ClipToEyeSample | Projection.ClipToEyeIntended |
