/** Matrix4Stack: a stack of matrix values (std::stack<Matrix4>) that is never empty. Its
    top is the matrix every transform call edits; the sequence is kept bottom first, so
    the top is the last element. */
module MatrixStack {
  import opened Scalars
  import opened Vectors
  import opened Matrices

  /** The stack after push(): the top is copied onto itself. */
  function Pushed(s: seq<Matrix>): seq<Matrix>
    requires |s| >= 1
  {
    s + [s[|s| - 1]]
  }

  /** The stack after pop(): the top is dropped, and when that empties the stack a fresh
      identity is pushed in its place, where OpenGL would report stack underflow. */
  function Popped(s: seq<Matrix>): seq<Matrix>
    requires |s| >= 1
  {
    if |s| == 1 then [Identity] else s[..|s| - 1]
  }

  /** The stack after an operation that rewrites the top in place. */
  function WithTop(s: seq<Matrix>, m: Matrix): seq<Matrix>
    requires |s| >= 1
  {
    s[..|s| - 1] + [m]
  }

  /** None of the stack operations can empty the stack; push grows it by one, pop shrinks
      it by one unless it holds a single matrix, and editing the top keeps its depth. */
  lemma StackNeverEmpty(s: seq<Matrix>, m: Matrix)
    requires |s| >= 1
    ensures |Pushed(s)| == |s| + 1
    ensures |Popped(s)| == if |s| == 1 then 1 else |s| - 1
    ensures |Popped(s)| >= 1
    ensures |WithTop(s, m)| == |s|
  {
  }

  /** Popping the last matrix leaves exactly one identity, whatever the matrix was. */
  lemma PopOfLastMatrix(m: Matrix)
    ensures Popped([m]) == [Identity]
  {
  }

  /** push duplicates the top, so the new top equals the old one and a pop restores both
      the old depth and the old contents. */
  lemma PushThenPop(s: seq<Matrix>)
    requires |s| >= 1
    ensures Pushed(s)[|s|] == s[|s| - 1]
    ensures Popped(Pushed(s)) == s
  {
    assert Pushed(s)[..|s|] == s;
  }

  /** Editing the top changes only the top: every matrix beneath it is unchanged. */
  lemma WithTopKeepsBelow(s: seq<Matrix>, m: Matrix)
    requires |s| >= 1
    ensures WithTop(s, m)[|s| - 1] == m
    ensures forall i | 0 <= i < |s| - 1 :: WithTop(s, m)[i] == s[i]
  {
  }

  /** push, any number of edits of the copied top, pop: the stack is as before. This is
      the bracket every draw call relies on. */
  lemma PushEditPop(s: seq<Matrix>, m: Matrix)
    requires |s| >= 1
    ensures Popped(WithTop(Pushed(s), m)) == s
  {
    assert WithTop(Pushed(s), m)[..|s|] == s;
  }

  class Matrix4Stack {
    /** m_stack, bottom first. */
    var stack: seq<Matrix>

    ghost predicate Valid()
      reads this
    {
      |stack| >= 1
    }

    /** Matrix4Stack(): one identity. */
    constructor ()
      ensures Valid() && stack == [Identity]
    {
      stack := [Identity];
    }

    /** top() const: the matrix the transform calls rewrite and push copies. */
    function Top(): (m: Matrix)
      requires Valid()
      reads this
      ensures WithTop(stack, m) == stack
      ensures Pushed(stack)[|stack|] == m
    {
      stack[|stack| - 1]
    }

    /** push() */
    method Push()
      requires Valid()
      modifies this
      ensures Valid() && stack == Pushed(old(stack))
    {
      stack := stack + [stack[|stack| - 1]];
    }

    /** pop() */
    method Pop()
      requires Valid()
      modifies this
      ensures Valid() && stack == Popped(old(stack))
    {
      stack := stack[..|stack| - 1];
      if |stack| == 0 {
        stack := stack + [Identity];
      }
    }

    /** loadIdentity() on the top. */
    method LoadIdentity()
      requires Valid()
      modifies this
      ensures Valid() && stack == WithTop(old(stack), Identity)
    {
      stack := stack[|stack| - 1 := Identity];
    }

    /** translate(x, y, z) on the top. */
    method Translate(x: real, y: real, z: real)
      requires Valid()
      modifies this
      ensures Valid() && stack == WithTop(old(stack), Translated(old(Top()), x, y, z))
    {
      stack := stack[|stack| - 1 := Translated(Top(), x, y, z)];
    }

    /** scale(x, y, z) on the top. */
    method Scale(x: real, y: real, z: real)
      requires Valid()
      modifies this
      ensures Valid() && stack == WithTop(old(stack), Scaled(old(Top()), x, y, z))
    {
      stack := stack[|stack| - 1 := Scaled(Top(), x, y, z)];
    }

    /** rotate(angle, x, y, z) on the top. */
    method Rotate(angle: real, x: real, y: real, z: real, libm: Libm)
      requires Valid() && Length3([x, y, z], libm) != 0.0
      modifies this
      ensures Valid() && stack == WithTop(old(stack), Rotated(old(Top()), angle, [x, y, z], libm))
    {
      stack := stack[|stack| - 1 := Rotated(Top(), angle, [x, y, z], libm)];
    }

    /** lookAt(eye, center, up) on the top. */
    method LookAt(eyeX: real, eyeY: real, eyeZ: real,
                  centerX: real, centerY: real, centerZ: real,
                  upX: real, upY: real, upZ: real, libm: Libm)
      requires Valid() && LookAtDefined([eyeX, eyeY, eyeZ], [centerX, centerY, centerZ], [upX, upY, upZ], libm)
      modifies this
      ensures Valid()
      ensures stack == WithTop(old(stack), LookedAt(old(Top()), [eyeX, eyeY, eyeZ], [centerX, centerY, centerZ], [upX, upY, upZ], libm))
    {
      stack := stack[|stack| - 1 := LookedAt(Top(), [eyeX, eyeY, eyeZ], [centerX, centerY, centerZ], [upX, upY, upZ], libm)];
    }

    /** frustum(l, r, b, t, n, f) on the top. */
    method Frustum(l: real, r: real, b: real, t: real, n: real, f: real)
      requires Valid() && r != l && t != b && f != n
      modifies this
      ensures Valid() && stack == WithTop(old(stack), Frustumed(old(Top()), l, r, b, t, n, f))
    {
      stack := stack[|stack| - 1 := Frustumed(Top(), l, r, b, t, n, f)];
    }

    /** prespective(angle, aspect, near, far) on the top. */
    method Prespective(angle: real, aspect: real, near: real, far: real, libm: Libm)
      requires Valid() && aspect != 0.0 && PerspectiveTop(angle, near, libm) != 0.0 && far != near
      modifies this
      ensures Valid() && stack == WithTop(old(stack), Perspective(old(Top()), angle, aspect, near, far, libm))
    {
      stack := stack[|stack| - 1 := Perspective(Top(), angle, aspect, near, far, libm)];
    }

    /** translate(Vector3) */
    method TranslateBy(v: Vector3)
      requires Valid()
      modifies this
      ensures Valid() && stack == WithTop(old(stack), Translated(old(Top()), v[0], v[1], v[2]))
    {
      Translate(v[0], v[1], v[2]);
    }

    /** scale(Vector3) */
    method ScaleBy(v: Vector3)
      requires Valid()
      modifies this
      ensures Valid() && stack == WithTop(old(stack), Scaled(old(Top()), v[0], v[1], v[2]))
    {
      Scale(v[0], v[1], v[2]);
    }

    /** rotate(angle, Vector3) */
    method RotateAbout(angle: real, v: Vector3, libm: Libm)
      requires Valid() && Length3(v, libm) != 0.0
      modifies this
      ensures Valid() && stack == WithTop(old(stack), Rotated(old(Top()), angle, v, libm))
    {
      assert [v[0], v[1], v[2]] == v;
      Rotate(angle, v[0], v[1], v[2], libm);
    }

    /** lookAt(Vector3 eye, Vector3 center, Vector3 up) */
    method LookAtPoints(eye: Vector3, center: Vector3, up: Vector3, libm: Libm)
      requires Valid() && LookAtDefined(eye, center, up, libm)
      modifies this
      ensures Valid() && stack == WithTop(old(stack), LookedAt(old(Top()), eye, center, up, libm))
    {
      assert [eye[0], eye[1], eye[2]] == eye && [center[0], center[1], center[2]] == center;
      assert [up[0], up[1], up[2]] == up;
      LookAt(eye[0], eye[1], eye[2], center[0], center[1], center[2], up[0], up[1], up[2], libm);
    }
  }
}
