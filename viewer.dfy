/** The viewer of main.cpp: a list of entities drawn through the modelview stack, an
    orbiting camera driven by mouse drags, and a keyboard that selects entities and nudges
    the selected one. The source keeps all of this in global variables changed by GLUT
    callbacks; here those globals are the fields of the class `Viewer`, each callback is a
    method, and each method is specified by a pure step function on a snapshot
    (`ViewState`) of the globals. The properties are proved about the step functions. */
module Viewer {
  import opened Scalars
  import opened Vectors
  import opened Matrices
  import opened MatrixStack

  // ---------------------------------------------------------------------------
  // Entities

  /** Face culling of an entity: GL_BACK or GL_NONE. */
  datatype Cull = CullBack | CullNone

  /** One drawable object: its local transform, material, mesh, texture and pick id. */
  datatype Entity = Entity(translation: Vector3, rotation: Vector3, scale: Vector3,
                           diffuseColor: Vector3, specularColor: Vector3, shininess: real,
                           mesh: uint32, texture: uint32, objectID: uint32, cull: Cull)

  /** A new entity sits at the origin, unrotated and unscaled, white, without highlights,
      with back faces culled. */
  function CreateEntity(mesh: uint32, texture: uint32, objectID: uint32): (e: Entity)
    ensures e.translation == Zero(3) && e.rotation == Zero(3) && e.scale == [1.0, 1.0, 1.0]
    ensures e.diffuseColor == [1.0, 1.0, 1.0] && e.specularColor == Zero(3) && e.shininess == 0.0
    ensures e.mesh == mesh && e.texture == texture && e.objectID == objectID
    ensures e.cull == CullBack
  {
    Entity([0.0, 0.0, 0.0], [0.0, 0.0, 0.0], [1.0, 1.0, 1.0],
           [1.0, 1.0, 1.0], [0.0, 0.0, 0.0], 0.0,
           mesh, texture, objectID, CullBack)
  }

  // ---------------------------------------------------------------------------
  // The modelview matrix of an entity

  const XAxis: Vector3 := [1.0, 0.0, 0.0]
  const YAxis: Vector3 := [0.0, 1.0, 0.0]
  const ZAxis: Vector3 := [0.0, 0.0, 1.0]

  /** The three coordinate axes can be normalised: `sqrt(1)` is not 0. */
  predicate AxesNormalisable(libm: Libm)
  {
    Length3(XAxis, libm) != 0.0 && Length3(YAxis, libm) != 0.0 && Length3(ZAxis, libm) != 0.0
  }

  /** The matrix DrawEntity uploads: the parent's top, then translate, rotate about Y,
      about Z, about X, then scale, each applied to the top in that order. */
  function EntityModelview(top: Matrix, e: Entity, libm: Libm): Matrix
    requires AxesNormalisable(libm)
  {
    var t := Translated(top, e.translation[0], e.translation[1], e.translation[2]);
    var ry := Rotated(t, e.rotation[1], YAxis, libm);
    var rz := Rotated(ry, e.rotation[2], ZAxis, libm);
    var rx := Rotated(rz, e.rotation[0], XAxis, libm);
    Scaled(rx, e.scale[0], e.scale[1], e.scale[2])
  }

  /** The entity's own transform T * Ry * Rz * Rx * S, independent of the parent. */
  function LocalTransform(e: Entity, libm: Libm): Matrix
    requires AxesNormalisable(libm)
  {
    Product(Product(Product(Product(
      TranslationMatrix(e.translation[0], e.translation[1], e.translation[2]),
      RotationFor(e.rotation[1], YAxis, libm)),
      RotationFor(e.rotation[2], ZAxis, libm)),
      RotationFor(e.rotation[0], XAxis, libm)),
      ScaleMatrix(e.scale[0], e.scale[1], e.scale[2]))
  }

  /** What DrawEntity uploads is the parent matrix times the entity's local transform,
      composed in the order translate, rotate Y, rotate Z, rotate X, scale. */
  lemma EntityModelviewIsParentTimesLocal(top: Matrix, e: Entity, libm: Libm)
    requires AxesNormalisable(libm)
    ensures EntityModelview(top, e, libm) == Product(top, LocalTransform(e, libm))
    ensures EntityModelview(Identity, e, libm) == LocalTransform(e, libm)
  {
    var tm := TranslationMatrix(e.translation[0], e.translation[1], e.translation[2]);
    var ry := RotationFor(e.rotation[1], YAxis, libm);
    var rz := RotationFor(e.rotation[2], ZAxis, libm);
    var rx := RotationFor(e.rotation[0], XAxis, libm);
    var sm := ScaleMatrix(e.scale[0], e.scale[1], e.scale[2]);
    var m1 := Translated(top, e.translation[0], e.translation[1], e.translation[2]);
    TranslateIsProduct(top, e.translation[0], e.translation[1], e.translation[2]);
    var m4 := Rotated(Rotated(Rotated(m1, e.rotation[1], YAxis, libm), e.rotation[2], ZAxis, libm), e.rotation[0], XAxis, libm);
    ScaleIsProduct(m4, e.scale[0], e.scale[1], e.scale[2]);
    assert EntityModelview(top, e, libm) == Product(Product(Product(Product(Product(top, tm), ry), rz), rx), sm);
    ProductAssociative(top, tm, ry);
    ProductAssociative(top, Product(tm, ry), rz);
    ProductAssociative(top, Product(Product(tm, ry), rz), rx);
    ProductAssociative(top, Product(Product(Product(tm, ry), rz), rx), sm);
    IdentityNeutral(tm);
    var i1 := Translated(Identity, e.translation[0], e.translation[1], e.translation[2]);
    TranslateIsProduct(Identity, e.translation[0], e.translation[1], e.translation[2]);
    var i4 := Rotated(Rotated(Rotated(i1, e.rotation[1], YAxis, libm), e.rotation[2], ZAxis, libm), e.rotation[0], XAxis, libm);
    ScaleIsProduct(i4, e.scale[0], e.scale[1], e.scale[2]);
  }

  /** The entity's origin is drawn at its translation, seen in the parent's frame:
      rotation and scale leave the local origin where it is. */
  lemma EntityOriginAtTranslation(top: Matrix, e: Entity, libm: Libm)
    requires AxesNormalisable(libm)
    ensures Transform(EntityModelview(top, e, libm), UnitW) == Transform(top, Widen3To4(e.translation, 1.0))
  {
    var tm := TranslationMatrix(e.translation[0], e.translation[1], e.translation[2]);
    var ry := RotationFor(e.rotation[1], YAxis, libm);
    var rz := RotationFor(e.rotation[2], ZAxis, libm);
    var rx := RotationFor(e.rotation[0], XAxis, libm);
    var sm := ScaleMatrix(e.scale[0], e.scale[1], e.scale[2]);
    RotateProperties(tm, e.rotation[1], YAxis, libm);
    RotateProperties(tm, e.rotation[2], ZAxis, libm);
    RotateProperties(tm, e.rotation[0], XAxis, libm);
    ProductKeepsColumn3(tm, ry);
    ProductKeepsColumn3(Product(tm, ry), rz);
    ProductKeepsColumn3(Product(Product(tm, ry), rz), rx);
    ProductKeepsColumn3(Product(Product(Product(tm, ry), rz), rx), sm);
    var local := LocalTransform(e, libm);
    assert local[3] == Widen3To4(e.translation, 1.0);
    assert Transform(local, UnitW) == local[3];
    EntityModelviewIsParentTimesLocal(top, e, libm);
    TransformOfProduct(top, local, UnitW);
  }

  /** A freshly created entity is drawn with its parent's matrix unchanged, provided the
      math library returns cos 0 = 1 and sin 0 = 0. */
  lemma CreatedEntityIsNeutral(top: Matrix, mesh: uint32, texture: uint32, objectID: uint32, libm: Libm)
    requires AxesNormalisable(libm) && libm.cos(0.0) == 1.0 && libm.sin(0.0) == 0.0
    ensures EntityModelview(top, CreateEntity(mesh, texture, objectID), libm) == top
  {
    var e := CreateEntity(mesh, texture, objectID);
    assert DegreesToRadians(0.0) == 0.0;
    var t := Translated(top, 0.0, 0.0, 0.0);
    assert t[3] == top[3];
    assert t == top;
    RotateProperties(top, 0.0, YAxis, libm);
    RotateProperties(top, 0.0, ZAxis, libm);
    RotateProperties(top, 0.0, XAxis, libm);
    var s := Scaled(top, 1.0, 1.0, 1.0);
    assert s[0] == top[0] && s[1] == top[1] && s[2] == top[2];
    assert s == top;
  }

  // ---------------------------------------------------------------------------
  // The viewer's globals, grouped into values

  /** The three edit modes of the keyboard. */
  datatype Mode = TranslateMode | RotateMode | ScaleMode

  /** Which of the three render paths `display` calls. */
  datatype Display = Display1 | Display2 | Display3

  /** The entity list and what the keyboard has selected in it. */
  datatype Selection = Selection(entities: seq<Entity>, selected: uint32, selectedIndex: nat, editMode: Mode)

  /** The three drag flags and the cursor position each drag saw last. */
  datatype Drag = Drag(mouseRotate: bool, mouseZoom: bool, mouseTranslate: bool,
                       lastRX: int, lastRY: int, lastZY: int, lastTX: int, lastTY: int)

  /** The orbiting camera: two angles in degrees, a distance, and the vectors lookAt gets. */
  datatype Camera = Camera(xRot: real, yRot: real, zoom: real,
                           offset: Vector3, eye: Vector3, center: Vector3, up: Vector3)

  /** Every global that the input callbacks read or write. */
  datatype ViewState = ViewState(selection: Selection, display: Display, hidecursor: bool,
                                 drag: Drag, camera: Camera)

  /** The selected index names an entity, so the edit keys have one to change. */
  predicate Consistent(sel: Selection)
  {
    sel.selectedIndex < |sel.entities|
  }

  /** The globals at program start, before init() resets the camera. The camera vectors
      are overwritten by that reset, so their start value is immaterial. */
  function Initial(entities: seq<Entity>): ViewState
  {
    ViewState(Selection(entities, 0, 0, TranslateMode), Display1, true,
              Drag(false, false, false, 0, 0, 0, 0, 0),
              Camera(0.0, 0.0, 0.0, [0.0, 0.0, 0.0], [0.0, 0.0, 0.0], [0.0, 0.0, 0.0], [0.0, 0.0, 0.0]))
  }

  // ---------------------------------------------------------------------------
  // The camera

  /** The camera position on the sphere of radius `zoom` given by the two angles, with
      the RADIANS conversion. */
  function EyePosition(zoom: real, xRot: real, yRot: real, libm: Libm): Vector3
  {
    [zoom * libm.sin(Radians(xRot)) * libm.cos(Radians(yRot)),
     zoom * libm.sin(Radians(yRot)),
     zoom * libm.cos(Radians(xRot)) * libm.cos(Radians(yRot))]
  }

  /** sin^2 + cos^2 = 1 at angle a. */
  predicate PythagoreanAt(libm: Libm, a: real)
  {
    libm.sin(a) * libm.sin(a) + libm.cos(a) * libm.cos(a) == 1.0
  }

  lemma SphereIdentity(z: real, sx: real, cx: real, sy: real, cy: real)
    requires sx * sx + cx * cx == 1.0 && sy * sy + cy * cy == 1.0
    ensures (z * sx * cy) * (z * sx * cy) + (z * sy) * (z * sy) + (z * cx * cy) * (z * cx * cy) == z * z
  {
    calc {
      (z * sx * cy) * (z * sx * cy) + (z * sy) * (z * sy) + (z * cx * cy) * (z * cx * cy);
      (z * z) * ((sx * sx + cx * cx) * (cy * cy) + sy * sy);
      (z * z) * (cy * cy + sy * sy);
    }
  }

  /** With an exact sine and cosine, the eye lies at distance |zoom| from the origin: its
      squared distance is zoom * zoom, for either sign of zoom (zooming is not clamped). */
  lemma EyeOnSphere(zoom: real, xRot: real, yRot: real, libm: Libm)
    requires PythagoreanAt(libm, Radians(xRot)) && PythagoreanAt(libm, Radians(yRot))
    ensures Dot3(EyePosition(zoom, xRot, yRot, libm), EyePosition(zoom, xRot, yRot, libm)) == zoom * zoom
  {
    SphereIdentity(zoom, libm.sin(Radians(xRot)), libm.cos(Radians(xRot)),
                   libm.sin(Radians(yRot)), libm.cos(Radians(yRot)));
  }

  /** The eye is where the two angles and the zoom put it. */
  predicate EyeMatchesAngles(c: Camera, libm: Libm)
  {
    c.eye == EyePosition(c.zoom, c.xRot, c.yRot, libm)
  }

  /** xRot in [0, 360] and yRot in [-90, 90]. */
  predicate AnglesInRange(c: Camera)
  {
    0.0 <= c.xRot <= 360.0 && -90.0 <= c.yRot <= 90.0
  }

  /** resetCamera(): angles 45 and 20, zoom 5, offset one unit up, looking at the origin
      with +Y up. */
  function CameraReset(c: Camera, libm: Libm): Camera
  {
    c.(xRot := 45.0, yRot := 20.0, zoom := 5.0, offset := [0.0, 1.0, 0.0],
       eye := EyePosition(5.0, 45.0, 20.0, libm),
       center := [0.0, 0.0, 0.0], up := [0.0, 1.0, 0.0])
  }

  /** A reset camera is consistent and in range, forgets the camera it replaced, and
      resetting twice is resetting once. */
  lemma CameraResetProperties(c: Camera, c2: Camera, libm: Libm)
    ensures EyeMatchesAngles(CameraReset(c, libm), libm) && AnglesInRange(CameraReset(c, libm))
    ensures CameraReset(c, libm) == CameraReset(c2, libm)
    ensures CameraReset(CameraReset(c, libm), libm) == CameraReset(c, libm)
  {
  }

  // ---------------------------------------------------------------------------
  // mouse(button, state, x, y)

  const GlutLeftButton: int := 0
  const GlutMiddleButton: int := 1
  const GlutRightButton: int := 2
  const GlutDown: int := 0
  const GlutUp: int := 1

  /** Pressing a button starts its drag and records where; releasing ends it. Left
      rotates, right zooms, middle pans. */
  function MouseStep(d: Drag, button: int, state: int, x: int, y: int): Drag
  {
    if button == GlutLeftButton && state == GlutDown then d.(mouseRotate := true, lastRX := x, lastRY := y)
    else if button == GlutLeftButton && state == GlutUp then d.(mouseRotate := false)
    else if button == GlutRightButton && state == GlutDown then d.(mouseZoom := true, lastZY := y)
    else if button == GlutRightButton && state == GlutUp then d.(mouseZoom := false)
    else if button == GlutMiddleButton && state == GlutDown then d.(mouseTranslate := true, lastTX := x, lastTY := y)
    else if button == GlutMiddleButton && state == GlutUp then d.(mouseTranslate := false)
    else d
  }

  /** A press sets its own flag and records the cursor; a release clears only its own
      flag; no button touches another button's flag or position; any other button or
      state is ignored. */
  lemma MouseFlags(d: Drag, button: int, state: int, x: int, y: int)
    ensures var r := MouseStep(d, button, state, x, y);
      (button == GlutLeftButton && state == GlutDown ==> r.mouseRotate && r.lastRX == x && r.lastRY == y) &&
      (button == GlutRightButton && state == GlutDown ==> r.mouseZoom && r.lastZY == y) &&
      (button == GlutMiddleButton && state == GlutDown ==> r.mouseTranslate && r.lastTX == x && r.lastTY == y) &&
      (button == GlutLeftButton && state == GlutUp ==> r == d.(mouseRotate := false)) &&
      (button == GlutRightButton && state == GlutUp ==> r == d.(mouseZoom := false)) &&
      (button == GlutMiddleButton && state == GlutUp ==> r == d.(mouseTranslate := false))
    ensures var r := MouseStep(d, button, state, x, y);
      (button != GlutLeftButton ==> r.mouseRotate == d.mouseRotate && r.lastRX == d.lastRX && r.lastRY == d.lastRY) &&
      (button != GlutRightButton ==> r.mouseZoom == d.mouseZoom && r.lastZY == d.lastZY) &&
      (button != GlutMiddleButton ==> r.mouseTranslate == d.mouseTranslate && r.lastTX == d.lastTX && r.lastTY == d.lastTY)
    ensures (state != GlutDown && state != GlutUp) ||
            (button != GlutLeftButton && button != GlutMiddleButton && button != GlutRightButton)
            ==> MouseStep(d, button, state, x, y) == d
  {
  }

  // ---------------------------------------------------------------------------
  // mouseMovement(x, y)

  const RotateSpeed: real := 4.0
  const ZoomSpeed: real := 0.2
  const PanSpeed: real := 0.2

  function Abs(d: int): nat
  {
    if d < 0 then -d else d
  }

  /** C's `/` on int, which truncates toward zero (Dafny's `/` is Euclidean). */
  function TruncatedDiv(a: int, b: int): int
    requires b != 0
  {
    if (a < 0) == (b < 0) then Abs(a) / Abs(b) else -(Abs(a) / Abs(b))
  }

  /** One drag step: `(d == 0) ? 0 : abs(d) / d` in integer arithmetic. */
  function DragStep(d: int): int
  {
    if d == 0 then 0 else TruncatedDiv(Abs(d), d)
  }

  /** A drag step is the sign of the cursor's movement: -1, 0 or 1. */
  lemma DragStepIsSign(d: int)
    ensures DragStep(d) == if d > 0 then 1 else if d < 0 then -1 else 0
    ensures -1 <= DragStep(d) <= 1
  {
    if d != 0 {
      assert Abs(d) / Abs(d) == 1;
    }
  }

  /** xRot is brought back by one turn when it leaves [0, 360]. */
  function WrapXRot(xRot: real): real
  {
    if xRot > 360.0 then xRot - 360.0 else if xRot < 0.0 then xRot + 360.0 else xRot
  }

  /** yRot is clamped to [-90, 90]. */
  function ClampYRot(yRot: real): real
  {
    if yRot > 90.0 then 90.0 else if yRot < -90.0 then -90.0 else yRot
  }

  /** The rotate block: turn by one speed step per axis, wrap xRot, clamp yRot, move the eye. */
  function RotateDrag(s: ViewState, x: int, y: int, libm: Libm): ViewState
  {
    if !s.drag.mouseRotate then s
    else
      var dx := DragStep(x - s.drag.lastRX);
      var dy := DragStep(y - s.drag.lastRY);
      var xRot := WrapXRot(s.camera.xRot + -RotateSpeed * dx as real);
      var yRot := ClampYRot(s.camera.yRot + RotateSpeed * dy as real);
      s.(drag := s.drag.(lastRX := x, lastRY := y),
         camera := s.camera.(xRot := xRot, yRot := yRot, eye := EyePosition(s.camera.zoom, xRot, yRot, libm)))
  }

  /** RotateDrag with the wrapped and clamped angles named. */
  lemma RotateDragUnfolded(s: ViewState, x: int, y: int, libm: Libm, xRot: real, yRot: real)
    requires s.drag.mouseRotate
    requires xRot == WrapXRot(s.camera.xRot + -RotateSpeed * DragStep(x - s.drag.lastRX) as real)
    requires yRot == ClampYRot(s.camera.yRot + RotateSpeed * DragStep(y - s.drag.lastRY) as real)
    ensures RotateDrag(s, x, y, libm) ==
      s.(drag := s.drag.(lastRX := x, lastRY := y),
         camera := s.camera.(xRot := xRot, yRot := yRot, eye := EyePosition(s.camera.zoom, xRot, yRot, libm)))
  {
  }

  /** The zoom block: change the distance by one speed step and move the eye. */
  function ZoomDrag(s: ViewState, y: int, libm: Libm): ViewState
  {
    if !s.drag.mouseZoom then s
    else
      var dy := DragStep(y - s.drag.lastZY);
      var zoom := s.camera.zoom + ZoomSpeed * dy as real;
      s.(drag := s.drag.(lastZY := y),
         camera := s.camera.(zoom := zoom, eye := EyePosition(zoom, s.camera.xRot, s.camera.yRot, libm)))
  }

  /** The offset moved in the ground plane by the drag step (dx, dy) turned by xRot. */
  function Panned(offset: Vector3, dx: int, dy: int, xRot: real, libm: Libm): Vector3
  {
    var c := libm.cos(Radians(xRot));
    var sn := libm.sin(Radians(xRot));
    [offset[0] + PanSpeed * (dx as real * c + dy as real * sn),
     offset[1],
     offset[2] + PanSpeed * (dx as real * -sn + dy as real * c)]
  }

  /** The pan block. */
  function PanDrag(s: ViewState, x: int, y: int, libm: Libm): ViewState
  {
    if !s.drag.mouseTranslate then s
    else
      var dx := DragStep(x - s.drag.lastTX);
      var dy := DragStep(y - s.drag.lastTY);
      s.(drag := s.drag.(lastTX := x, lastTY := y),
         camera := s.camera.(offset := Panned(s.camera.offset, dx, dy, s.camera.xRot, libm)))
  }

  /** Panned, component by component, with the cosine and sine named. */
  lemma PannedComponents(offset: Vector3, dx: int, dy: int, xRot: real, libm: Libm, c: real, sn: real, p: Vector3)
    requires c == libm.cos(Radians(xRot)) && sn == libm.sin(Radians(xRot))
    requires p[0] == offset[0] + PanSpeed * (dx as real * c + dy as real * sn)
    requires p[1] == offset[1]
    requires p[2] == offset[2] + PanSpeed * (dx as real * -sn + dy as real * c)
    ensures Panned(offset, dx, dy, xRot, libm) == p
  {
    var q := Panned(offset, dx, dy, xRot, libm);
    assert q[0] == p[0] && q[1] == p[1] && q[2] == p[2];
  }

  /** mouseMovement: the three blocks in order, each seeing the previous one's result. */
  function MotionStep(s: ViewState, x: int, y: int, libm: Libm): ViewState
  {
    PanDrag(ZoomDrag(RotateDrag(s, x, y, libm), y, libm), x, y, libm)
  }

  /** After a rotate drag yRot is in [-90, 90] whatever it was; xRot stays in [0, 360]
      when it started there; without a rotate drag neither angle moves. */
  lemma MotionAngles(s: ViewState, x: int, y: int, libm: Libm)
    ensures var r := MotionStep(s, x, y, libm).camera;
      (s.drag.mouseRotate ==> -90.0 <= r.yRot <= 90.0) &&
      (0.0 <= s.camera.xRot <= 360.0 ==> 0.0 <= r.xRot <= 360.0) &&
      (!s.drag.mouseRotate ==> r.xRot == s.camera.xRot && r.yRot == s.camera.yRot)
    ensures AnglesInRange(s.camera) ==> AnglesInRange(MotionStep(s, x, y, libm).camera)
  {
    DragStepIsSign(x - s.drag.lastRX);
    DragStepIsSign(y - s.drag.lastRY);
  }

  /** A drag moves the zoom by one speed step in the direction the cursor moved, pans
      only in the ground plane, and touches neither the selection, the display, the
      cursor flag, the drag flags, nor the point looked at. Each block changes its state
      only while its button is held. */
  lemma MotionSteps(s: ViewState, x: int, y: int, libm: Libm)
    ensures var r := MotionStep(s, x, y, libm);
      r.selection == s.selection && r.display == s.display && r.hidecursor == s.hidecursor &&
      r.drag.mouseRotate == s.drag.mouseRotate && r.drag.mouseZoom == s.drag.mouseZoom &&
      r.drag.mouseTranslate == s.drag.mouseTranslate &&
      r.camera.center == s.camera.center && r.camera.up == s.camera.up &&
      r.camera.offset[1] == s.camera.offset[1]
    ensures var r := MotionStep(s, x, y, libm);
      (s.drag.mouseZoom ==> r.camera.zoom == s.camera.zoom + ZoomSpeed * DragStep(y - s.drag.lastZY) as real) &&
      (!s.drag.mouseZoom ==> r.camera.zoom == s.camera.zoom && r.drag.lastZY == s.drag.lastZY) &&
      (!s.drag.mouseTranslate ==> r.camera.offset == s.camera.offset && r.drag.lastTX == s.drag.lastTX) &&
      (!s.drag.mouseRotate ==> r.drag.lastRX == s.drag.lastRX && r.drag.lastRY == s.drag.lastRY)
  {
  }

  /** Every drag keeps the eye where the angles and the zoom put it and keeps the angles
      in range. */
  lemma MotionKeepsInvariants(s: ViewState, x: int, y: int, libm: Libm)
    requires EyeMatchesAngles(s.camera, libm) && AnglesInRange(s.camera)
    ensures EyeMatchesAngles(MotionStep(s, x, y, libm).camera, libm)
    ensures AnglesInRange(MotionStep(s, x, y, libm).camera)
  {
    MotionAngles(s, x, y, libm);
  }

  lemma TurnedStepLength(c: real, sn: real, dx: real, dy: real)
    requires sn * sn + c * c == 1.0
    ensures (PanSpeed * (dx * c + dy * sn)) * (PanSpeed * (dx * c + dy * sn))
          + (PanSpeed * (dx * -sn + dy * c)) * (PanSpeed * (dx * -sn + dy * c))
         == PanSpeed * PanSpeed * (dx * dx + dy * dy)
  {
    calc {
      (PanSpeed * (dx * c + dy * sn)) * (PanSpeed * (dx * c + dy * sn))
        + (PanSpeed * (dx * -sn + dy * c)) * (PanSpeed * (dx * -sn + dy * c));
      PanSpeed * PanSpeed * ((dx * dx + dy * dy) * (sn * sn + c * c));
    }
  }

  /** A pan moves the offset in the ground plane only, by the drag step turned through
      xRot: with an exact sine and cosine its length is the speed times the step's. */
  lemma PanIsTurnedStep(offset: Vector3, dx: int, dy: int, xRot: real, libm: Libm)
    requires PythagoreanAt(libm, Radians(xRot))
    ensures var p := Panned(offset, dx, dy, xRot, libm);
      p[1] == offset[1] &&
      (p[0] - offset[0]) * (p[0] - offset[0]) + (p[2] - offset[2]) * (p[2] - offset[2])
        == PanSpeed * PanSpeed * (dx as real * dx as real + dy as real * dy as real)
  {
    TurnedStepLength(libm.cos(Radians(xRot)), libm.sin(Radians(xRot)), dx as real, dy as real);
  }

  // ---------------------------------------------------------------------------
  // key(key, x, y)

  /** The smallest index whose entity carries `id`, if any. */
  function FirstMatch(entities: seq<Entity>, id: uint32): (r: Option<nat>)
    ensures r.Some? ==> r.value < |entities| && entities[r.value].objectID == id
  {
    if |entities| == 0 then None
    else if entities[0].objectID == id then Some(0)
    else match FirstMatch(entities[1..], id)
      case None => None
      case Some(i) => Some(i + 1)
  }

  /** FirstMatch finds the first entity with the id, and finds nothing exactly when no
      entity has it. */
  lemma {:induction false} FirstMatchIsFirst(entities: seq<Entity>, id: uint32, i: nat)
    ensures FirstMatch(entities, id) == Some(i) <==>
            (i < |entities| && entities[i].objectID == id && forall j | 0 <= j < i :: entities[j].objectID != id)
    ensures FirstMatch(entities, id) == None <==> forall j | 0 <= j < |entities| :: entities[j].objectID != id
  {
    if |entities| > 0 && entities[0].objectID != id {
      FirstMatchIsFirst(entities[1..], id, if i > 0 then i - 1 else 0);
      assert forall j | 1 <= j < |entities| :: entities[j] == entities[1..][j - 1];
    }
  }

  /** The search loop of key 'p': the first index holding `id`, or not found. */
  method FindEntity(entities: seq<Entity>, id: uint32) returns (found: bool, index: nat)
    ensures FirstMatch(entities, id) == if found then Some(index) else None
  {
    found, index := false, 0;
    var i := 0;
    while i < |entities|
      invariant 0 <= i <= |entities|
      invariant forall j | 0 <= j < i :: entities[j].objectID != id
    {
      if entities[i].objectID == id {
        found, index := true, i;
        FirstMatchIsFirst(entities, id, i);
        return;
      }
      i := i + 1;
    }
    FirstMatchIsFirst(entities, id, 0);
  }

  /** Key 'p': the id under the cursor becomes the selection, and the index moves to the
      first entity with that id; when there is none the old index stays. */
  function Picked(sel: Selection, id: uint32): Selection
  {
    sel.(selected := id,
         selectedIndex := match FirstMatch(sel.entities, id) case Some(i) => i case None => sel.selectedIndex)
  }

  /** Size of one nudge: 2 degrees in rotate mode, 0.1 otherwise, signed. */
  function Delta(mode: Mode, increase: bool): real
  {
    var step := if mode == RotateMode then 2.0 else 0.1;
    if increase then step else -step
  }

  /** The vector an edit mode changes. */
  function Attribute(e: Entity, mode: Mode): Vector3
  {
    match mode
    case TranslateMode => e.translation
    case RotateMode => e.rotation
    case ScaleMode => e.scale
  }

  /** One nudge of component `axis` of the attribute the mode selects. */
  function Nudged(e: Entity, mode: Mode, axis: nat, increase: bool): Entity
    requires axis < 3
  {
    match mode
    case TranslateMode => e.(translation := e.translation[axis := e.translation[axis] + Delta(mode, increase)])
    case RotateMode => e.(rotation := e.rotation[axis := e.rotation[axis] + Delta(mode, increase)])
    case ScaleMode => e.(scale := e.scale[axis := e.scale[axis] + Delta(mode, increase)])
  }

  /** A nudge changes one component of one attribute by one step and nothing else, and
      the opposite nudge undoes it. */
  lemma NudgedChangesOneComponent(e: Entity, mode: Mode, axis: nat, increase: bool)
    requires axis < 3
    ensures Attribute(Nudged(e, mode, axis, increase), mode)[axis] == Attribute(e, mode)[axis] + Delta(mode, increase)
    ensures forall k | 0 <= k < 3 && k != axis ::
      Attribute(Nudged(e, mode, axis, increase), mode)[k] == Attribute(e, mode)[k]
    ensures forall other: Mode | other != mode ::
      Attribute(Nudged(e, mode, axis, increase), other) == Attribute(e, other)
    ensures Nudged(e, mode, axis, increase).(translation := e.translation, rotation := e.rotation, scale := e.scale) == e
    ensures Nudged(Nudged(e, mode, axis, increase), mode, axis, !increase) == e
  {
    var n := Nudged(e, mode, axis, increase);
    assert Attribute(Nudged(n, mode, axis, !increase), mode) == Attribute(e, mode);
  }

  predicate IsNudgeKey(key: char)
  {
    key == 'w' || key == 's' || key == 'a' || key == 'd' || key == 'q' || key == 'e'
  }

  /** w/s move along component 2, a/d along 0, q/e along 1. */
  function NudgeAxis(key: char): nat
  {
    if key == 'w' || key == 's' then 2 else if key == 'a' || key == 'd' then 0 else 1
  }

  /** w, a and q add the step; s, d and e subtract it. */
  predicate NudgeIncreases(key: char)
  {
    key == 'w' || key == 'a' || key == 'q'
  }

  /** The keys handled whether or not something is selected. */
  predicate IsGlobalKey(key: char)
  {
    key == '1' || key == '2' || key == '3' || key == 'p' || key == 'o' ||
    key == 'r' || key == '=' || key == '-' || key == 'h'
  }

  /** The keys that act on the selection: nudges and the mode switches z, x, c. */
  function EditStep(sel: Selection, key: char): Selection
    requires Consistent(sel)
  {
    if IsNudgeKey(key) then
      sel.(entities := sel.entities[sel.selectedIndex :=
             Nudged(sel.entities[sel.selectedIndex], sel.editMode, NudgeAxis(key), NudgeIncreases(key))])
    else if key == 'z' then sel.(editMode := TranslateMode)
    else if key == 'x' then sel.(editMode := RotateMode)
    else if key == 'c' then sel.(editMode := ScaleMode)
    else sel
  }

  /** key(): the keyboard callback. */
  function KeyStep(s: ViewState, key: char, pickedId: uint32, libm: Libm): ViewState
    requires Consistent(s.selection)
  {
    if key == '1' then s.(display := Display1)
    else if key == '2' then s.(display := Display2)
    else if key == '3' then s.(display := Display3)
    else if key == 'p' then s.(selection := Picked(s.selection, pickedId))
    else if key == 'o' then s.(selection := s.selection.(selected := 0))
    else if key == 'r' then s.(camera := CameraReset(s.camera, libm))
    else if key == '=' then s.(camera := s.camera.(offset := s.camera.offset[1 := s.camera.offset[1] + 0.1]))
    else if key == '-' then s.(camera := s.camera.(offset := s.camera.offset[1 := s.camera.offset[1] - 0.1]))
    else if key == 'h' then s.(hidecursor := !s.hidecursor)
    else if s.selection.selected != 0 then s.(selection := EditStep(s.selection, key))
    else s
  }

  /** Key 'p' selects the id read under the cursor and moves the index to the smallest
      index holding that id; when no entity holds it the index stays where it was. */
  lemma PickSelectsFirstMatch(sel: Selection, id: uint32)
    requires Consistent(sel)
    ensures var r := Picked(sel, id);
      r.selected == id && Consistent(r) && r.entities == sel.entities && r.editMode == sel.editMode &&
      ((exists j | 0 <= j < |sel.entities| :: sel.entities[j].objectID == id) ==>
         sel.entities[r.selectedIndex].objectID == id &&
         forall j | 0 <= j < r.selectedIndex :: sel.entities[j].objectID != id) &&
      ((forall j | 0 <= j < |sel.entities| :: sel.entities[j].objectID != id) ==> r.selectedIndex == sel.selectedIndex)
  {
    match FirstMatch(sel.entities, id)
    case Some(i) => FirstMatchIsFirst(sel.entities, id, i);
    case None => FirstMatchIsFirst(sel.entities, id, 0);
  }

  /** With something selected, a nudge key changes one component of one attribute of the
      selected entity, chosen by the key and the edit mode, and nothing else. */
  lemma NudgeKeyChangesSelectedOnly(s: ViewState, key: char, id: uint32, libm: Libm)
    requires Consistent(s.selection) && s.selection.selected != 0 && IsNudgeKey(key)
    ensures var r := KeyStep(s, key, id, libm);
      var i := s.selection.selectedIndex;
      r == s.(selection := r.selection) && r.selection == s.selection.(entities := r.selection.entities) &&
      |r.selection.entities| == |s.selection.entities| &&
      (forall j | 0 <= j < |s.selection.entities| && j != i :: r.selection.entities[j] == s.selection.entities[j]) &&
      r.selection.entities[i] == Nudged(s.selection.entities[i], s.selection.editMode, NudgeAxis(key), NudgeIncreases(key))
  {
  }

  /** w then s, a then d, q then e (in either order) put everything back. */
  lemma OppositeNudgesCancel(s: ViewState, key: char, opposite: char, id: uint32, libm: Libm)
    requires Consistent(s.selection) && s.selection.selected != 0 && IsNudgeKey(key) && IsNudgeKey(opposite)
    requires NudgeAxis(key) == NudgeAxis(opposite) && NudgeIncreases(key) != NudgeIncreases(opposite)
    ensures Consistent(KeyStep(s, key, id, libm).selection)
    ensures KeyStep(KeyStep(s, key, id, libm), opposite, id, libm) == s
  {
    var sel := s.selection;
    var e := sel.entities[sel.selectedIndex];
    NudgedChangesOneComponent(e, sel.editMode, NudgeAxis(key), NudgeIncreases(key));
    var once := EditStep(sel, key);
    assert KeyStep(s, key, id, libm) == s.(selection := once);
    assert EditStep(once, opposite).entities == sel.entities;
  }

  /** z, x and c choose the edit mode, but only while something is selected. */
  lemma ModeKeys(s: ViewState, id: uint32, libm: Libm)
    requires Consistent(s.selection)
    ensures KeyStep(s, 'z', id, libm) == if s.selection.selected != 0 then s.(selection := s.selection.(editMode := TranslateMode)) else s
    ensures KeyStep(s, 'x', id, libm) == if s.selection.selected != 0 then s.(selection := s.selection.(editMode := RotateMode)) else s
    ensures KeyStep(s, 'c', id, libm) == if s.selection.selected != 0 then s.(selection := s.selection.(editMode := ScaleMode)) else s
  {
  }

  /** After 'o' nothing is selected, and then every key but the global ones (the nudges
      and z, x, c among them) leaves the state as it is. */
  lemma DeselectDisablesEditing(s: ViewState, key: char, id: uint32, libm: Libm)
    requires Consistent(s.selection) && !IsGlobalKey(key)
    ensures KeyStep(s, 'o', id, libm).selection.selected == 0
    ensures KeyStep(KeyStep(s, 'o', id, libm), key, id, libm) == KeyStep(s, 'o', id, libm)
  {
  }

  /** 'h' flips the cursor flag and nothing else; pressing it twice restores the state.
      '=' and '-' raise and lower the offset by the same step and undo each other. */
  lemma ToggleAndOffsetKeys(s: ViewState, id: uint32, libm: Libm)
    requires Consistent(s.selection)
    ensures KeyStep(s, 'h', id, libm) == s.(hidecursor := !s.hidecursor)
    ensures KeyStep(KeyStep(s, 'h', id, libm), 'h', id, libm) == s
    ensures KeyStep(s, '=', id, libm).camera.offset[1] == s.camera.offset[1] + 0.1
    ensures KeyStep(KeyStep(s, '=', id, libm), '-', id, libm) == s
    ensures KeyStep(KeyStep(s, '-', id, libm), '=', id, libm) == s
  {
    var o := s.camera.offset;
    assert o[1 := o[1] + 0.1][1 := o[1]] == o;
    assert o[1 := o[1] - 0.1][1 := o[1]] == o;
  }

  /** Every key keeps the selection index valid and the number of entities, and keeps
      the eye where the angles and zoom put it and the angles in range. */
  lemma KeyKeepsInvariants(s: ViewState, key: char, id: uint32, libm: Libm)
    requires Consistent(s.selection) && EyeMatchesAngles(s.camera, libm) && AnglesInRange(s.camera)
    ensures var r := KeyStep(s, key, id, libm);
      Consistent(r.selection) && |r.selection.entities| == |s.selection.entities| &&
      EyeMatchesAngles(r.camera, libm) && AnglesInRange(r.camera)
  {
    if key == 'r' {
      CameraResetProperties(s.camera, s.camera, libm);
    } else if key == 'p' {
      PickSelectsFirstMatch(s.selection, id);
    }
  }

  // ---------------------------------------------------------------------------
  // The globals and the callbacks

  class Viewer {
    /** entities, selected, selectedIndex and editMode */
    var selection: Selection
    /** currentDisplay */
    var display: Display
    var hidecursor: bool
    /** mouseRotate, mouseZoom, mouseTranslate and the last cursor positions */
    var drag: Drag
    /** xRot, yRot, zoom, offset, eye, center and up */
    var camera: Camera
    const modelview: Matrix4Stack

    ghost predicate Valid()
      reads this, modelview
    {
      modelview.Valid() && Consistent(selection)
    }

    /** The globals as one value. */
    function State(): ViewState
      reads this
    {
      ViewState(selection, display, hidecursor, drag, camera)
    }

    /** Program start followed by init(): the globals' initial values, the entity list
        init() builds, then resetCamera(). */
    constructor (initialEntities: seq<Entity>, libm: Libm)
      requires |initialEntities| >= 1
      ensures Valid() && fresh(modelview) && modelview.stack == [Identity]
      ensures State() == Initial(initialEntities).(camera := CameraReset(Initial(initialEntities).camera, libm))
    {
      selection := Selection(initialEntities, 0, 0, TranslateMode);
      display := Display1;
      hidecursor := true;
      drag := Drag(false, false, false, 0, 0, 0, 0, 0);
      camera := Camera(0.0, 0.0, 0.0, [0.0, 0.0, 0.0], [0.0, 0.0, 0.0], [0.0, 0.0, 0.0], [0.0, 0.0, 0.0]);
      modelview := new Matrix4Stack();
      new;
      ResetCamera(libm);
    }

    /** resetCamera() */
    method ResetCamera(libm: Libm)
      modifies this
      ensures State() == old(State()).(camera := CameraReset(old(State()).camera, libm))
    {
      camera := camera.(xRot := 45.0);
      camera := camera.(yRot := 20.0);
      camera := camera.(zoom := 5.0);
      camera := camera.(offset := [0.0, 1.0, 0.0]);
      camera := camera.(eye := EyePosition(camera.zoom, camera.xRot, camera.yRot, libm));
      camera := camera.(center := [0.0, 0.0, 0.0]);
      camera := camera.(up := [0.0, 1.0, 0.0]);
    }

    /** DrawEntity(): push, compose the entity's transform onto the top, hand the top to
        the shader (returned here as `drawn`), pop. */
    method DrawEntity(entity: Entity, libm: Libm) returns (drawn: Matrix)
      requires Valid() && AxesNormalisable(libm)
      modifies modelview
      ensures Valid()
      ensures modelview.stack == old(modelview.stack)
      ensures drawn == EntityModelview(old(modelview.Top()), entity, libm)
    {
      modelview.Push();
      modelview.TranslateBy(entity.translation);
      modelview.Rotate(entity.rotation[1], 0.0, 1.0, 0.0, libm);
      modelview.Rotate(entity.rotation[2], 0.0, 0.0, 1.0, libm);
      modelview.Rotate(entity.rotation[0], 1.0, 0.0, 0.0, libm);
      modelview.ScaleBy(entity.scale);
      drawn := modelview.Top();
      modelview.Pop();
      PushEditPop(old(modelview.stack), drawn);
    }

    /** mouse(button, state, x, y) */
    method Mouse(button: int, state: int, x: int, y: int)
      requires Valid()
      modifies this
      ensures Valid()
      ensures State() == old(State()).(drag := MouseStep(old(State()).drag, button, state, x, y))
    {
      if button == GlutLeftButton && state == GlutDown {
        drag := drag.(mouseRotate := true);
        drag := drag.(lastRX := x);
        drag := drag.(lastRY := y);
      } else if button == GlutLeftButton && state == GlutUp {
        drag := drag.(mouseRotate := false);
      } else if button == GlutRightButton && state == GlutDown {
        drag := drag.(mouseZoom := true);
        drag := drag.(lastZY := y);
      } else if button == GlutRightButton && state == GlutUp {
        drag := drag.(mouseZoom := false);
      } else if button == GlutMiddleButton && state == GlutDown {
        drag := drag.(mouseTranslate := true);
        drag := drag.(lastTX := x);
        drag := drag.(lastTY := y);
      } else if button == GlutMiddleButton && state == GlutUp {
        drag := drag.(mouseTranslate := false);
      }
    }

    /** mouseMovement(x, y): the rotate, zoom and pan blocks in order, each guarded by
        its drag flag. */
    method MouseMovement(x: int, y: int, libm: Libm)
      requires Valid()
      modifies this
      ensures Valid()
      ensures State() == MotionStep(old(State()), x, y, libm)
    {
      RotateBlock(x, y, libm);
      ZoomBlock(y, libm);
      PanBlock(x, y, libm);
    }

    /** The block of mouseMovement run while the left button is held. */
    method RotateBlock(x: int, y: int, libm: Libm)
      requires Valid()
      modifies this
      ensures Valid()
      ensures State() == RotateDrag(old(State()), x, y, libm)
    {
      if drag.mouseRotate {
        var dx := DragStep(x - drag.lastRX);
        var dy := DragStep(y - drag.lastRY);
        drag := drag.(lastRX := x);
        drag := drag.(lastRY := y);
        camera := camera.(xRot := camera.xRot + -RotateSpeed * dx as real);
        camera := camera.(yRot := camera.yRot + RotateSpeed * dy as real);
        if camera.xRot > 360.0 {
          camera := camera.(xRot := camera.xRot - 360.0);
        } else if camera.xRot < 0.0 {
          camera := camera.(xRot := camera.xRot + 360.0);
        }
        assert camera.xRot == WrapXRot(old(camera.xRot) + -RotateSpeed * dx as real);
        if camera.yRot > 90.0 {
          camera := camera.(yRot := 90.0);
        } else if camera.yRot < -90.0 {
          camera := camera.(yRot := -90.0);
        }
        assert camera.yRot == ClampYRot(old(camera.yRot) + RotateSpeed * dy as real);
        RotateDragUnfolded(old(State()), x, y, libm, camera.xRot, camera.yRot);
        camera := camera.(eye := EyePosition(camera.zoom, camera.xRot, camera.yRot, libm));
      }
    }

    /** The block of mouseMovement run while the right button is held. */
    method ZoomBlock(y: int, libm: Libm)
      requires Valid()
      modifies this
      ensures Valid()
      ensures State() == ZoomDrag(old(State()), y, libm)
    {
      if drag.mouseZoom {
        var dy := DragStep(y - drag.lastZY);
        drag := drag.(lastZY := y);
        camera := camera.(zoom := camera.zoom + ZoomSpeed * dy as real);
        camera := camera.(eye := EyePosition(camera.zoom, camera.xRot, camera.yRot, libm));
      }
    }

    /** The block of mouseMovement run while the middle button is held: offset[0] and
        offset[2] move, offset[1] stays. */
    method PanBlock(x: int, y: int, libm: Libm)
      requires Valid()
      modifies this
      ensures Valid()
      ensures State() == PanDrag(old(State()), x, y, libm)
    {
      if drag.mouseTranslate {
        var dx := DragStep(x - drag.lastTX);
        var dy := DragStep(y - drag.lastTY);
        drag := drag.(lastTX := x);
        drag := drag.(lastTY := y);
        ghost var o := camera.offset;
        var c := libm.cos(Radians(camera.xRot));
        var sn := libm.sin(Radians(camera.xRot));
        camera := camera.(offset := camera.offset[0 := camera.offset[0] + PanSpeed * (dx as real * c + dy as real * sn)]);
        camera := camera.(offset := camera.offset[2 := camera.offset[2] + PanSpeed * (dx as real * -sn + dy as real * c)]);
        PannedComponents(o, dx, dy, camera.xRot, libm, c, sn, camera.offset);
      }
    }

    /** key(key, x, y), with the id glReadPixels reads under the cursor passed in as
        `pickedId`. */
    method Key(key: char, pickedId: uint32, libm: Libm)
      requires Valid()
      modifies this
      ensures Valid()
      ensures State() == KeyStep(old(State()), key, pickedId, libm)
    {
      if key == '1' {
        display := Display1;
      } else if key == '2' {
        display := Display2;
      } else if key == '3' {
        display := Display3;
      } else if key == 'p' {
        selection := selection.(selected := pickedId);
        var found, i := FindEntity(selection.entities, selection.selected);
        if found {
          selection := selection.(selectedIndex := i);
        }
      } else if key == 'o' {
        selection := selection.(selected := 0);
      } else if key == 'r' {
        ResetCamera(libm);
      } else if key == '=' {
        camera := camera.(offset := camera.offset[1 := camera.offset[1] + 0.1]);
      } else if key == '-' {
        camera := camera.(offset := camera.offset[1 := camera.offset[1] - 0.1]);
      } else if key == 'h' {
        hidecursor := !hidecursor;
      } else if selection.selected != 0 {
        if IsNudgeKey(key) {
          NudgeSelected(NudgeAxis(key), NudgeIncreases(key));
        } else if key == 'z' {
          selection := selection.(editMode := TranslateMode);
        } else if key == 'x' {
          selection := selection.(editMode := RotateMode);
        } else if key == 'c' {
          selection := selection.(editMode := ScaleMode);
        }
      }
    }

    /** One nudge of the selected entity: the switch on editMode inside each of the keys
        w, s, a, d, q and e. */
    method NudgeSelected(axis: nat, increase: bool)
      requires Valid() && axis < 3
      modifies this
      ensures Valid()
      ensures State() == old(State()).(selection := old(State()).selection.(entities :=
                old(selection.entities)[old(selection.selectedIndex) :=
                  Nudged(old(selection.entities)[old(selection.selectedIndex)], old(selection.editMode), axis, increase)]))
    {
      var i := selection.selectedIndex;
      var e := selection.entities[i];
      var delta := Delta(selection.editMode, increase);
      match selection.editMode {
        case TranslateMode =>
          e := e.(translation := e.translation[axis := e.translation[axis] + delta]);
        case RotateMode =>
          e := e.(rotation := e.rotation[axis := e.rotation[axis] + delta]);
        case ScaleMode =>
          e := e.(scale := e.scale[axis := e.scale[axis] + delta]);
      }
      selection := selection.(entities := selection.entities[i := e]);
    }
  }
}
