# CS211B Mesh Renderer in Dafny

A model of the core of CS211B-Mesh-Renderer, an OpenGL viewer for textured OBJ meshes. It has three parts:

- **The math library** (`src/Math.h`, `src/Math.cpp`):
  - `Vector2/3/4` are values, modelled as sequences of `real` of fixed length.
  - `Matrix4` is four `Vector4` columns, so `m[c][r]` is column c, row r.
  - The matrix's in-place operations are a class over an `array` of its four columns.
  - `Matrix4Stack` is a class over a sequence of matrices that is never empty.
  - Each in-place operation (`*=`, `/=`, `transpose`, `loadIdentity`, `translate`, `scale`, `rotate`, `lookAt`, `frustum`, `prespective`) is proved against a pure function of the old value. The algebra is proved about those functions:
    - the product, identity and associativity;
    - transpose;
    - translate and scale as right-multiplication;
    - rotate keeps column 3 and fixes its axis;
    - the depths the frustum maps to;
    - the perspective symmetry;
    - lookAt's eye and line of sight.
- **The viewer** (`src/main.cpp`):
  - The GLUT callbacks `mouse`, `mouseMovement` and `key`, `resetCamera`, and the push/compose/pop bracket of `DrawEntity`.
  - They are methods of a class `Viewer` whose fields are the program's globals, grouped into values: the selection, the display, the cursor flag, the drag state and the camera.
  - Each callback is proved equal to a pure step function on a snapshot of those globals. The properties are lemmas about the step functions:
    - the drag step is a sign;
    - xRot wraps and yRot is clamped;
    - the eye stays on its sphere;
    - picking finds the first match;
    - a nudge changes one component, and opposite nudges cancel;
    - deselecting disables editing;
    - `h` toggles the cursor flag.
- **The OBJ reader** (`LoadOBJ` in `src/Util.cpp`):
  - It works over lines already split into records `V`, `VT`, `VN`, `F` and `Other`.
  - A loop method (`LoadObj`, with the face loop `AddFace`) is proved equal to a fold over the lines.
  - Lemmas show:
    - the attribute lists are exactly the declarations, in file order;
    - faces resolve only against earlier lines, 1-based;
    - out-of-bounds corners are dropped;
    - each face adds at most three vertices;
    - an empty result is fatal.

The C math routines `sqrt`, `sin`/`sinf`, `cos`/`cosf` and `tan` are fields of a `Libm` value passed as a parameter. Lemmas that need an exact square root or an exact sine and cosine say so in their `requires`.

## Model

| member | source | states |
|---|---|---|
| Scalars.RadiansUsesTruncatedPi | src/Math.h:8 | RADIANS maps 180 to 3.1415, not M_PI. For every positive angle it is strictly below the M_PI conversion `rotate` uses, and the two agree only at 0 |
| Vectors.WidenNarrowRoundTrip | src/Math.h:18-61 | Narrowing (explicit Vector2(Vector3), Vector3(Vector4), ...) undoes widening with caller-supplied trailing components. Widening a narrowed vector with the dropped components restores it |
| Vectors.Add | src/Math.cpp:535-554 | operator+ of each arity returns a vector of the operands' arity |
| Vectors.Sub | src/Math.cpp:556-575 | operator- (binary) returns a vector of the operands' arity |
| Vectors.Mul | src/Math.cpp:514-533 | The componentwise operator* returns a vector of the operands' arity |
| Vectors.Scale | src/Math.cpp:577-617 | s*v, v*s and `*=` keep the arity |
| Vectors.Div | src/Math.cpp:619-638 | v/s and `/=` keep the arity, for s != 0 |
| Vectors.Neg | src/Math.cpp:640-653 | Unary minus (written `-1 * v`) keeps the arity |
| Vectors.MulDistributes | src/Math.cpp:514-554 | The componentwise operator* distributes over +, and scaling one factor scales the product |
| Vectors.ComponentwiseAlgebra | src/Math.cpp:535-575 | (a+b)-b = a. a-b = a+(-b). + and the componentwise * commute. Scaling distributes over + |
| Vectors.AddNegIsZero | src/Math.cpp:640-653 | v + (-v) is the zero vector, and -(-v) = v |
| Vectors.ScaleDivRoundTrip | src/Math.cpp:577-638 | Dividing by s != 0 undoes scaling by s, and the reverse |
| Vectors.DotProperties | src/Math.cpp:492-505 | dot is symmetric and pulls scalars out. dot(v, v) >= 0. The Vector4 dot of (a,0) and (b,0) is the Vector3 dot of a and b |
| Vectors.Dot2And4Properties | src/Math.cpp:492-505 | The Vector2 and Vector4 dots are symmetric, pull scalars out, and are non-negative on a vector with itself |
| Vectors.CrossProperties | src/Math.cpp:507-512 | cross(a, b) is orthogonal to a and to b. cross(a, b) = -cross(b, a). cross(a, a) = 0 |
| Vectors.NormalizedIsUnit | src/Math.cpp:127-132 | With an exact sqrt, dividing a nonzero Vector3 by length() gives a vector whose dot with itself is 1 |
| Matrices.Multiply | src/Math.cpp:659-672 | The triple loop (zero the entry, accumulate over k) yields entry (c, r) = sum over k of m1[k][r]*m2[c][k] |
| Matrices.MatrixTimesVector | src/Math.cpp:682-688 | The loop of M*v yields row k = sum over c of M[c][k]*v[c], whatever values the two uninitialised components held |
| Matrices.VectorTimesMatrix | src/Math.cpp:674-680 | The loop of v*M yields component k = dot(M[k], v), whatever values the two uninitialised components held |
| Matrices.IdentityNeutral | src/Math.cpp:208-214 | The default-constructed identity is a left and a right neutral element of the product |
| Matrices.TransformOfProduct | src/Math.cpp:659-672 | (A*B)*v = A*(B*v): `M *= R` means transform by R first, then by the old M |
| Matrices.ProductAssociative | src/Math.cpp:659-672 | (A*B)*D = A*(B*D) |
| Matrices.TransposeProperties | src/Math.cpp:270-278 | Transposing twice restores the matrix. v*M equals (M transposed)*v |
| Matrices.ScalarOperatorProperties | src/Math.cpp:254-268 | M *= s scales only columns 0-2, so it equals scale(s,s,s) and M*diag(s,s,s,1), and keeps column 3. /= s undoes it. -M keeps column 3, negates columns 0-2, and is an involution |
| Matrices.TranslatedColumns | src/Math.cpp:288-295 | translate leaves columns 0-2 and sets column 3 to x*col0 + y*col1 + z*col2 + col3 |
| Matrices.TranslateIsProduct | src/Math.cpp:288-295 | translate(x,y,z) is M*T(x,y,z) |
| Matrices.TranslateComposes | src/Math.cpp:288-295 | Two translations are one translation by the sum |
| Matrices.ScaleIsProduct | src/Math.cpp:297-302 | scale(x,y,z) is M*diag(x,y,z,1) |
| Matrices.RotateProperties | src/Math.cpp:304-338 | R's column 3 is (0,0,0,1) and its row 3 is 0 in columns 0-2, so rotate never changes M's column 3. With cosine 1 and sine 0, M is unchanged |
| Matrices.RotationFixesAxis | src/Math.cpp:316-334 | For a unit axis (x,y,z), the entries R is filled with send (x,y,z,0) to itself |
| Matrices.RotateFixesItsAxis | src/Math.cpp:304-338 | With an exact sqrt, the rotation `rotate` builds fixes its normalised axis |
| Matrices.FrustumDepth | src/Math.cpp:383-394 | F sends depth -n to clip z = -w and depth -f to clip z = +w, and w = -z |
| Matrices.PerspectiveIsSymmetric | src/Math.cpp:396-400 | prespective builds a frustum with no x/y skew. It scales x by near/(aspect*t) and y by near/t, takes w from -z, has the depth coefficient -(f+n)/(f-n), and has column 3 = (0, 0, -2fn/(f-n), 0) |
| Matrices.LookAtFrameOrthogonal | src/Math.cpp:343-350 | With an exact sqrt, forward is a unit vector, and side and up = cross(side, forward) are orthogonal to it |
| Matrices.LookAtLooksDownMinusZ | src/Math.cpp:340-361 | With an exact sqrt, lookAt's L sends the normalised line of sight to (0,0,-1,0) |
| Matrices.LookAtMovesEyeToOrigin | src/Math.cpp:340-361 | The matrix after lookAt sends the eye point to the old M's column 3, and to the origin when M was the identity |
| Matrix4Class.Matrix4.constructor | src/Math.cpp:208-214 | Matrix4() holds the identity |
| Matrix4Class.Matrix4.FromColumns | src/Math.cpp:216-225 | The four columns are stored in order |
| Matrix4Class.Matrix4.FromEntries | src/Math.cpp:227-236 | Parameter m{c}{r} lands in column c, row r |
| Matrix4Class.Matrix4.SetColumn | src/Math.cpp:238-241 | Writing through operator[] replaces one whole column and no other |
| Matrix4Class.Matrix4.MulAssign | src/Math.cpp:248-252 | M *= other stores the product of the old values, so `m *= m` squares m |
| Matrix4Class.Matrix4.ScaleAssign | src/Math.cpp:254-260 | M *= s stores ScalarTimes(old M, s): columns 0-2 scaled, column 3 kept |
| Matrix4Class.Matrix4.DivAssign | src/Math.cpp:262-268 | M /= s stores ScalarDivide(old M, s) |
| Matrix4Class.Matrix4.Transpose | src/Math.cpp:270-278 | The swap loop leaves entry (c, r) equal to the old entry (r, c) |
| Matrix4Class.Matrix4.LoadIdentity | src/Math.cpp:280-286 | The value becomes the identity |
| Matrix4Class.Matrix4.Translate | src/Math.cpp:288-295 | The four in-place writes of column 3 give Translated(old M) |
| Matrix4Class.Matrix4.Scale | src/Math.cpp:297-302 | The value becomes Scaled(old M) |
| Matrix4Class.Matrix4.Rotate | src/Math.cpp:304-338 | The value becomes old M times the rotation R the method fills |
| Matrix4Class.Matrix4.LookAt | src/Math.cpp:340-361 | Build L, transpose it, M *= L, then translate by -eye: the value becomes LookedAt(old M) |
| Matrix4Class.Matrix4.Frustum | src/Math.cpp:383-394 | The value becomes old M times F |
| Matrix4Class.Matrix4.Prespective | src/Math.cpp:396-400 | Delegating to frustum(-aspect*t, aspect*t, -t, t, near, far) gives Perspective(old M) |
| Matrix4Class.Matrix4.TranslateBy | src/Math.cpp:363-366 | translate(Vector3) is translate(v[0], v[1], v[2]) |
| Matrix4Class.Matrix4.ScaleBy | src/Math.cpp:368-371 | scale(Vector3) is scale(v[0], v[1], v[2]) |
| Matrix4Class.Matrix4.RotateAbout | src/Math.cpp:373-376 | rotate(angle, Vector3) is rotate(angle, v[0], v[1], v[2]) |
| Matrix4Class.Matrix4.LookAtPoints | src/Math.cpp:378-381 | lookAt(Vector3 x3) is the nine-float lookAt |
| MatrixStack.StackNeverEmpty | src/Math.cpp:406-427 | No operation empties the stack. push grows it by one. pop shrinks it by one unless one matrix is left. Editing the top keeps the depth |
| MatrixStack.PopOfLastMatrix | src/Math.cpp:422-427 | Popping the only matrix leaves exactly one identity |
| MatrixStack.PushThenPop | src/Math.cpp:417-427 | push duplicates the top, and pop after push restores the stack |
| MatrixStack.WithTopKeepsBelow | src/Math.cpp:429-486 | The transform calls change only the top. Every matrix beneath it is unchanged |
| MatrixStack.PushEditPop | src/Math.cpp:417-427 | push, any edit of the top, pop: the stack is as before |
| MatrixStack.Matrix4Stack.Top | src/Math.cpp:412-415 | top() is the matrix the transform calls replace (rewriting it with itself changes nothing) and the one push copies |
| MatrixStack.Matrix4Stack.constructor | src/Math.cpp:406-410 | A new stack holds one identity |
| MatrixStack.Matrix4Stack.Push | src/Math.cpp:417-420 | The new top is a copy of the old top |
| MatrixStack.Matrix4Stack.Pop | src/Math.cpp:422-427 | Drops the top, and pushes an identity when that empties the stack |
| MatrixStack.Matrix4Stack.LoadIdentity | src/Math.cpp:429-432 | Only the top changes, to the identity |
| MatrixStack.Matrix4Stack.Translate | src/Math.cpp:434-437 | Only the top changes, to Translated(old top) |
| MatrixStack.Matrix4Stack.Scale | src/Math.cpp:439-442 | Only the top changes, to Scaled(old top) |
| MatrixStack.Matrix4Stack.Rotate | src/Math.cpp:444-447 | Only the top changes, to Rotated(old top) |
| MatrixStack.Matrix4Stack.LookAt | src/Math.cpp:449-456 | Only the top changes, to LookedAt(old top) |
| MatrixStack.Matrix4Stack.TranslateBy | src/Math.cpp:458-461 | Only the top changes, translated by the vector's components |
| MatrixStack.Matrix4Stack.ScaleBy | src/Math.cpp:463-466 | Only the top changes, scaled by the vector's components |
| MatrixStack.Matrix4Stack.RotateAbout | src/Math.cpp:468-471 | Only the top changes, rotated about the vector |
| MatrixStack.Matrix4Stack.LookAtPoints | src/Math.cpp:473-476 | Only the top changes, to LookedAt(old top) |
| MatrixStack.Matrix4Stack.Frustum | src/Math.cpp:478-481 | Only the top changes, to Frustumed(old top) |
| MatrixStack.Matrix4Stack.Prespective | src/Math.cpp:483-486 | Only the top changes, to Perspective(old top) |
| Viewer.CreateEntity | src/main.cpp:84-102 | A new entity has translation 0, rotation 0, scale 1, white diffuse colour, black specular colour, shininess 0 and back-face culling, and carries the given mesh, texture and object id |
| Viewer.CreatedEntityIsNeutral | src/main.cpp:84-102 | The defaults (translation 0, rotation 0, scale 1) make DrawEntity's transform leave the parent matrix unchanged when cos 0 = 1 and sin 0 = 0 |
| Viewer.EntityModelviewIsParentTimesLocal | src/main.cpp:106-111 | The matrix DrawEntity uploads is parent * T * Ry * Rz * Rx * S, in that order |
| Viewer.EntityOriginAtTranslation | src/main.cpp:106-111 | The entity's local origin is drawn at its translation, seen through the parent matrix |
| Viewer.Viewer.DrawEntity | src/main.cpp:104-167 | Push, compose, pop: the stack is unchanged on exit, and the drawn matrix is EntityModelview(old top, entity) |
| Viewer.EyeOnSphere | src/main.cpp:176-178 | With exact sin and cos, the eye that resetCamera and the drags compute lies at distance \|zoom\| from the origin: its squared distance is zoom², for either sign, since zooming is not clamped |
| Viewer.CameraResetProperties | src/main.cpp:169-181 | A reset camera has its eye matching its angles, and its angles in range. It forgets the previous camera, and resetting twice is resetting once |
| Viewer.Viewer.ResetCamera | src/main.cpp:169-181 | Only the camera changes, to CameraReset(old camera) |
| Viewer.Viewer.constructor | src/main.cpp:51-82 | The globals' initial values with the given entity list, then resetCamera |
| Viewer.MouseFlags | src/main.cpp:555-588 | A press sets its own drag flag and records the cursor. A release clears only its own flag. No button touches another's flag or positions. Other buttons or states change nothing |
| Viewer.Viewer.Mouse | src/main.cpp:555-588 | Only the drag state changes, to MouseStep(old drag, button, state, x, y) |
| Viewer.DragStepIsSign | src/main.cpp:596-597 | `(d == 0) ? 0 : abs(d)/d`, with C's truncating division, is the sign of d: -1, 0 or 1 |
| Viewer.MotionAngles | src/main.cpp:602-613 | After a rotate drag yRot is in [-90, 90]. xRot stays in [0, 360] when it started there. Without a rotate drag neither angle moves |
| Viewer.MotionSteps | src/main.cpp:590-647 | A drag touches neither the selection, the display, the cursor flag, the drag flags, the center, up nor offset[1]. Zoom moves by 0.2 times the step. Each block changes nothing while its button is up |
| Viewer.MotionKeepsInvariants | src/main.cpp:590-647 | Every drag keeps the eye where the angles and zoom put it, and keeps the angles in range |
| Viewer.PanIsTurnedStep | src/main.cpp:644-645 | A pan keeps offset[1]. With exact sin and cos at xRot, it moves offset in the (x, z) plane by a vector whose length is 0.2 times the length of the drag step (dx, dy): the step is turned through xRot, not stretched |
| Viewer.Viewer.MouseMovement | src/main.cpp:590-647 | The new globals are MotionStep(old globals, x, y): rotate, zoom and pan blocks in order |
| Viewer.Viewer.RotateBlock | src/main.cpp:592-618 | The source's if-chains for the wrap and the clamp compute RotateDrag |
| Viewer.Viewer.ZoomBlock | src/main.cpp:620-632 | The zoom block computes ZoomDrag |
| Viewer.Viewer.PanBlock | src/main.cpp:634-646 | The two offset updates compute PanDrag |
| Viewer.FirstMatch | src/main.cpp:670-677 | A found index holds an entity with the id |
| Viewer.FirstMatchIsFirst | src/main.cpp:670-677 | FirstMatch is Some(i) iff entity i has the id and no earlier one does. It is None iff no entity has the id |
| Viewer.FindEntity | src/main.cpp:670-677 | The search loop with `break` returns FirstMatch |
| Viewer.PickSelectsFirstMatch | src/main.cpp:663-678 | 'p' selects the id. When some entity has it, the index becomes the smallest such. Otherwise the index stays. The index stays valid |
| Viewer.NudgedChangesOneComponent | src/main.cpp:701-754 | A nudge changes one component of the attribute the mode selects, by +-0.1 (+-2 in rotate mode), and nothing else. The opposite nudge undoes it |
| Viewer.NudgeKeyChangesSelectedOnly | src/main.cpp:699-754 | With a selection, w/s, a/d and q/e change only entities[selectedIndex], by the nudge of component 2, 0 or 1 |
| Viewer.OppositeNudgesCancel | src/main.cpp:701-754 | w then s, a then d, q then e (either order) restore every global |
| Viewer.ModeKeys | src/main.cpp:755-769 | z, x and c set the edit mode to translate, rotate or scale, and only while something is selected |
| Viewer.DeselectDisablesEditing | src/main.cpp:679-682 | After 'o' nothing is selected, and every non-global key (nudges, z/x/c) is then a no-op |
| Viewer.ToggleAndOffsetKeys | src/main.cpp:687-698 | 'h' flips hidecursor only, and twice restores the state. '=' raises offset[1] by 0.1, and '=' and '-' undo each other |
| Viewer.KeyKeepsInvariants | src/main.cpp:649-771 | Every key keeps the selected index valid, the entity count, the eye matching the angles, and the angles in range |
| Viewer.Viewer.Key | src/main.cpp:649-771 | The new globals are KeyStep(old globals, key, id read under the cursor) |
| Viewer.Viewer.NudgeSelected | src/main.cpp:701-754 | The switch on editMode changes only entities[selectedIndex], to its nudge |
| ObjLoader.Emitted | src/Util.cpp:138-151 | A face's corners emit at most one vertex each |
| ObjLoader.ReadLine | src/Util.cpp:115-152 | One line only appends. Non-face lines add no vertex. Face lines add at most three and leave the attribute lists |
| ObjLoader.LoadObj | src/Util.cpp:101-161 | The line loop returns LoadSpec(file): the vertices of the fold over the lines, or the fatal error when there are none or the file cannot be opened |
| ObjLoader.AddFace | src/Util.cpp:138-151 | The three-corner loop appends exactly the vertices of the in-bounds corners, in corner order |
| ObjLoader.EmittedAppend | src/Util.cpp:138-151 | Corner order is vertex order: the corners of two runs emit the first run's vertices, then the second's |
| ObjLoader.EmittedAllInBounds | src/Util.cpp:143-149 | When every corner is in bounds, vertex k is (positions[v-1], textureCoords[vt-1], normals[vn-1]) of corner k |
| ObjLoader.EmittedNoneInBounds | src/Util.cpp:143 | When no corner passes the bounds check, the face emits nothing |
| ObjLoader.EmittedComeFromCorners | src/Util.cpp:143-149 | Every emitted vertex is the one some in-bounds corner names |
| ObjLoader.AttributesAreDeclarations | src/Util.cpp:118-135 | The three attribute lists are exactly the file's v, vt and vn records in file order |
| ObjLoader.ReadingOnlyAppends | src/Util.cpp:113-153 | The state after the first i lines is a prefix of the final state, list by list, so vertices keep file order |
| ObjLoader.FaceResolvesAgainstEarlierLines | src/Util.cpp:136-151 | Face line i adds the vertices of its corners resolved against the attributes declared before line i only |
| ObjLoader.AtMostThreeVerticesPerFace | src/Util.cpp:136-151 | The vertex count is at most three times the number of face lines |
| ObjLoader.LoadOutcome | src/Util.cpp:156-157 | Loading succeeds iff some vertex was produced, and then returns all of them. An unopenable file or one without faces is fatal |
| ObjLoader.ForwardReferenceFails | src/Util.cpp:143 | A file whose only face precedes its vertex data fails to load |
| ObjLoader.BackwardReferenceLoads | src/Util.cpp:143-149 | The same records with the face last load three copies of the declared vertex |

## Left out

- Floating point: every component is a `real`. Rounding, overflow, NaN and infinities are not modelled. The constants 0.1f, 0.2f and 3.1415 are taken as the exact decimals.
- `sqrt`, `sin`/`sinf`, `cos`/`cosf` and `tan` are not modelled. They are opaque fields of the `Libm` parameter. Properties that depend on their values (unit vectors, the eye's distance, the pan's length) assume an exact square root or sin²+cos² = 1 at the angle used.
- Division by zero: `Div`, `ScalarDivide`, `rotate`, `lookAt`, `frustum` and `prespective` require their divisors to be non-zero. The source would produce infinities or NaNs there.
- Matrices.MatrixTimesVector and Matrices.VectorTimesMatrix: the uninitialised components 2 and 3 of a default Vector4 are two independent arbitrary parameters. The default Vector3/Vector4 constructors are otherwise not modelled, and no result depends on those components.
- Vectors are values: the in-place vector `*=`/`/=` are the functions `Scale`/`Div` whose result replaces the old vector. Aliasing of vector references is not modelled.
- `operator[]` on vectors is sequence indexing. On a matrix it is whole-column access (`SetColumn`, `Value()[c]`).
- Matrices.Multiply and the vector products take their operands by value, as the const-reference free operators do.
- OpenGL and GLUT plumbing is not part of this model:
  - `init`, `reshape`, `draw`, `pick`, `drawGeometryBuffers`, `display1`-`display3`, `display`, `main`;
  - the uniform uploads, face culling and draw calls inside `DrawEntity`;
  - the `projection` stack;
  - `checkError`.
- The `display` function pointer is the enumeration `Display`.
- Viewer.Viewer.DrawEntity returns the matrix it would upload instead of calling `glUniformMatrix4fv`.
- Viewer.Viewer.Key: the id `glReadPixels` reads under the cursor on 'p' is a parameter. The cursor position itself is not modelled.
- Viewer.Viewer.Key: the console messages of z, x and c are not modelled.
- Viewer.Viewer.constructor requires a non-empty entity list, as the one `init()` builds. `selectedIndex` 0 must name an entity for the edit keys to be defined. The camera's values before the first reset are immaterial and set to zero.
- Viewer.MotionSteps: `x - lastRX` and the other cursor differences are unbounded integers; 32-bit overflow of `int` is not modelled.
- Viewer: the ten entity fields follow main.cpp's use, including `cull`. Its values are limited to GL_BACK and GL_NONE (`CullBack`, `CullNone`).
- ObjLoader.LoadObj: the text and float parsing of `std::ifstream`/`std::stringstream` is not modelled. The reader takes lines already split into records. A face record holds exactly three corners, and a malformed number is not modelled. A file that cannot be opened is `None`.
- ObjLoader.LoadObj requires every face index to be at least 1. Index 0 passes the source's bounds check `v <= size` and then reads the element before the first one, which is undefined behaviour, so the reader is specified only on 1-based indices.
- ObjLoader.LoadObj: `fatalError` is the result `FatalError`. Exiting the process and the "Loaded Model" message are not modelled.
- `src/gbuffer.cpp`, `src/gbuffer.h` and the rest of `src/Util.cpp` are not part of this model. They are framebuffer setup, shader loading, textures and file reading.
