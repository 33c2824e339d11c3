/** LoadOBJ: the Wavefront OBJ reader, over lines that are already split into a keyword
    and its numbers. Position, texture-coordinate and normal lines each append to their
    own list; a face line turns each of its three corners into a vertex, looking its
    three 1-based indices up in the lists as read so far, and drops a corner whose index
    runs past the end of a list. A file that yields no vertex is a fatal error. */
module ObjLoader {
  import opened Scalars
  import opened Vectors

  /** One `v/vt/vn` corner of a face: the three unsigned indices read from it. */
  datatype Corner = Corner(v: uint32, vt: uint32, vn: uint32)

  /** One line of the file by its first token. */
  datatype Line =
    | V(position: Vector3)
    | VT(textureCoord: Vector2)
    | VN(normal: Vector3)
    | F(first: Corner, second: Corner, third: Corner)
    | Other

  /** The vertex record handed to the GPU. */
  datatype Vertex = Vertex(position: Vector3, textureCoord: Vector2, normal: Vector3)

  /** The three attribute lists. */
  datatype Attributes = Attributes(positions: seq<Vector3>, textureCoords: seq<Vector2>, normals: seq<Vector3>)

  /** Everything the reading loop has built so far. */
  datatype Reader = Reader(attributes: Attributes, vertices: seq<Vertex>)

  /** What LoadOBJ ends in: the vertex list, or fatalError. */
  datatype LoadResult = Loaded(vertices: seq<Vertex>) | FatalError

  const NothingRead: Reader := Reader(Attributes([], [], []), [])

  /** The corners of a face line, in the order they are read. */
  function Corners(line: Line): seq<Corner>
    requires line.F?
  {
    [line.first, line.second, line.third]
  }

  /** OBJ indices count from 1. An index 0 passes the bounds check but reads the element
      before the first one, so the reader is only defined on indices of at least 1. */
  predicate OneBased(c: Corner)
  {
    c.v >= 1 && c.vt >= 1 && c.vn >= 1
  }

  predicate LineOneBased(line: Line)
  {
    line.F? ==> OneBased(line.first) && OneBased(line.second) && OneBased(line.third)
  }

  predicate CornersOneBased(corners: seq<Corner>)
  {
    forall k | 0 <= k < |corners| :: OneBased(corners[k])
  }

  predicate AllOneBased(lines: seq<Line>)
  {
    forall i | 0 <= i < |lines| :: LineOneBased(lines[i])
  }

  /** The bounds check on a corner: each index at most the length of its list. */
  predicate InBounds(c: Corner, a: Attributes)
  {
    c.v as int <= |a.positions| && c.vt as int <= |a.textureCoords| && c.vn as int <= |a.normals|
  }

  /** The vertex a corner names. */
  function Resolve(c: Corner, a: Attributes): Vertex
    requires OneBased(c) && InBounds(c, a)
  {
    Vertex(a.positions[c.v as int - 1], a.textureCoords[c.vt as int - 1], a.normals[c.vn as int - 1])
  }

  /** The vertices a run of corners produces: one for each corner that passes the bounds
      check, in corner order. */
  function Emitted(corners: seq<Corner>, a: Attributes): (vs: seq<Vertex>)
    requires CornersOneBased(corners)
    ensures |vs| <= |corners|
  {
    if |corners| == 0 then []
    else
      (if InBounds(corners[0], a) then [Resolve(corners[0], a)] else []) + Emitted(corners[1..], a)
  }

  /** The effect of one line. Each kind of line touches its own list only, every list
      only grows, and a line adds at most three vertices. */
  function ReadLine(r: Reader, line: Line): (n: Reader)
    requires LineOneBased(line)
    ensures r.attributes.positions <= n.attributes.positions
    ensures r.attributes.textureCoords <= n.attributes.textureCoords
    ensures r.attributes.normals <= n.attributes.normals
    ensures r.vertices <= n.vertices && |n.vertices| <= |r.vertices| + 3
    ensures !line.F? ==> n.vertices == r.vertices
    ensures line.F? ==> n.attributes == r.attributes
  {
    match line
    case V(p) => r.(attributes := r.attributes.(positions := r.attributes.positions + [p]))
    case VT(t) => r.(attributes := r.attributes.(textureCoords := r.attributes.textureCoords + [t]))
    case VN(nm) => r.(attributes := r.attributes.(normals := r.attributes.normals + [nm]))
    case F(_, _, _) => r.(vertices := r.vertices + Emitted(Corners(line), r.attributes))
    case Other => r
  }

  /** The state after reading the lines in order. */
  function ReadLines(lines: seq<Line>): Reader
    requires AllOneBased(lines)
  {
    if |lines| == 0 then NothingRead
    else ReadLine(ReadLines(lines[..|lines| - 1]), lines[|lines| - 1])
  }

  /** The outcome of LoadOBJ; `None` is a file that cannot be opened. */
  function LoadSpec(file: Option<seq<Line>>): LoadResult
    requires file.Some? ==> AllOneBased(file.value)
  {
    match file
    case None => FatalError
    case Some(lines) =>
      var vs := ReadLines(lines).vertices;
      if |vs| == 0 then FatalError else Loaded(vs)
  }

  /** LoadOBJ(filename): the line loop with its inner loop over the three corners of a
      face, appending to local lists. */
  method LoadObj(file: Option<seq<Line>>) returns (result: LoadResult)
    requires file.Some? ==> AllOneBased(file.value)
    ensures result == LoadSpec(file)
  {
    var vertices: seq<Vertex> := [];
    if file.Some? {
      var lines := file.value;
      var positions: seq<Vector3> := [];
      var textureCoords: seq<Vector2> := [];
      var normals: seq<Vector3> := [];
      var i := 0;
      while i < |lines|
        invariant 0 <= i <= |lines|
        invariant Reader(Attributes(positions, textureCoords, normals), vertices) == ReadLines(lines[..i])
      {
        var line := lines[i];
        assert lines[..i + 1][..i] == lines[..i];
        assert LineOneBased(line);
        match line {
          case V(p) =>
            positions := positions + [p];
          case VT(t) =>
            textureCoords := textureCoords + [t];
          case VN(nm) =>
            normals := normals + [nm];
          case F(_, _, _) =>
            vertices := AddFace(Attributes(positions, textureCoords, normals), Corners(line), vertices);
          case Other =>
        }
        i := i + 1;
      }
      assert lines[..|lines|] == lines;
    }
    if |vertices| == 0 {
      result := FatalError;
    } else {
      result := Loaded(vertices);
    }
  }

  /** The inner loop over the three corners of a face line: each corner that passes
      the bounds check is resolved and appended. */
  method AddFace(attributes: Attributes, corners: seq<Corner>, vertices: seq<Vertex>) returns (extended: seq<Vertex>)
    requires CornersOneBased(corners) && |corners| == 3
    ensures extended == vertices + Emitted(corners, attributes)
  {
    extended := vertices;
    for k := 0 to 3
      invariant extended == vertices + Emitted(corners[..k], attributes)
    {
      var c := corners[k];
      if c.v as int <= |attributes.positions| && c.vt as int <= |attributes.textureCoords|
         && c.vn as int <= |attributes.normals| {
        extended := extended + [Vertex(attributes.positions[c.v as int - 1],
                                       attributes.textureCoords[c.vt as int - 1],
                                       attributes.normals[c.vn as int - 1])];
      }
      assert corners[..k + 1] == corners[..k] + [c];
      EmittedAppend(corners[..k], [c], attributes);
    }
    assert corners[..3] == corners;
  }

  // ---------------------------------------------------------------------------
  // Corners

  /** The corners of two runs, read one after the other, emit the vertices of the first
      run followed by those of the second: corner order is vertex order. */
  lemma {:induction false} EmittedAppend(c1: seq<Corner>, c2: seq<Corner>, a: Attributes)
    requires CornersOneBased(c1) && CornersOneBased(c2)
    ensures Emitted(c1 + c2, a) == Emitted(c1, a) + Emitted(c2, a)
  {
    if |c1| > 0 {
      assert (c1 + c2)[1..] == c1[1..] + c2;
      EmittedAppend(c1[1..], c2, a);
    } else {
      assert c1 + c2 == c2;
    }
  }

  /** When every corner passes the bounds check, corner k becomes vertex k, holding the
      position, texture coordinate and normal its indices name, counted from 1. */
  lemma {:induction false} EmittedAllInBounds(corners: seq<Corner>, a: Attributes)
    requires CornersOneBased(corners)
    requires forall k | 0 <= k < |corners| :: InBounds(corners[k], a)
    ensures |Emitted(corners, a)| == |corners|
    ensures forall k | 0 <= k < |corners| :: Emitted(corners, a)[k] == Resolve(corners[k], a)
  {
    if |corners| > 0 {
      EmittedAllInBounds(corners[1..], a);
    }
  }

  /** When no corner passes the bounds check, the face emits nothing. */
  lemma {:induction false} EmittedNoneInBounds(corners: seq<Corner>, a: Attributes)
    requires CornersOneBased(corners)
    requires forall k | 0 <= k < |corners| :: !InBounds(corners[k], a)
    ensures Emitted(corners, a) == []
  {
    if |corners| > 0 {
      EmittedNoneInBounds(corners[1..], a);
    }
  }

  /** Every emitted vertex is the one some in-bounds corner names. */
  lemma {:induction false} EmittedComeFromCorners(corners: seq<Corner>, a: Attributes)
    requires CornersOneBased(corners)
    ensures forall k | 0 <= k < |Emitted(corners, a)| ::
      exists j | 0 <= j < |corners| :: InBounds(corners[j], a) && Emitted(corners, a)[k] == Resolve(corners[j], a)
  {
    if |corners| > 0 {
      var rest := corners[1..];
      EmittedComeFromCorners(rest, a);
      var e := Emitted(corners, a);
      var head := if InBounds(corners[0], a) then [Resolve(corners[0], a)] else [];
      assert e == head + Emitted(rest, a);
      forall k | 0 <= k < |Emitted(corners, a)|
        ensures exists j | 0 <= j < |corners| :: InBounds(corners[j], a) && Emitted(corners, a)[k] == Resolve(corners[j], a)
      {
        if k < |head| {
          assert InBounds(corners[0], a) && e[k] == Resolve(corners[0], a);
        } else {
          var k' := k - |head|;
          assert 0 <= k' < |Emitted(rest, a)| && Emitted(rest, a)[k'] == e[k];
          var j :| 0 <= j < |rest| && InBounds(rest[j], a) && Emitted(rest, a)[k'] == Resolve(rest[j], a);
          assert corners[j + 1] == rest[j];
          assert InBounds(corners[j + 1], a) && e[k] == Resolve(corners[j + 1], a);
        }
      }
    } else {
      assert Emitted(corners, a) == [];
    }
  }

  // ---------------------------------------------------------------------------
  // The attribute lists

  /** The positions the file declares, in file order. */
  function PositionsOf(lines: seq<Line>): seq<Vector3>
  {
    if |lines| == 0 then []
    else (if lines[0].V? then [lines[0].position] else []) + PositionsOf(lines[1..])
  }

  /** The texture coordinates the file declares, in file order. */
  function TextureCoordsOf(lines: seq<Line>): seq<Vector2>
  {
    if |lines| == 0 then []
    else (if lines[0].VT? then [lines[0].textureCoord] else []) + TextureCoordsOf(lines[1..])
  }

  /** The normals the file declares, in file order. */
  function NormalsOf(lines: seq<Line>): seq<Vector3>
  {
    if |lines| == 0 then []
    else (if lines[0].VN? then [lines[0].normal] else []) + NormalsOf(lines[1..])
  }

  /** The number of face lines. */
  function FaceCount(lines: seq<Line>): nat
  {
    if |lines| == 0 then 0 else (if lines[0].F? then 1 else 0) + FaceCount(lines[1..])
  }

  /** The three declaration lists and the face count of the lines in order. */
  function Declared(lines: seq<Line>): Attributes
  {
    Attributes(PositionsOf(lines), TextureCoordsOf(lines), NormalsOf(lines))
  }

  lemma {:induction false} DeclaredAppend(l1: seq<Line>, l2: seq<Line>)
    ensures Declared(l1 + l2).positions == Declared(l1).positions + Declared(l2).positions
    ensures Declared(l1 + l2).textureCoords == Declared(l1).textureCoords + Declared(l2).textureCoords
    ensures Declared(l1 + l2).normals == Declared(l1).normals + Declared(l2).normals
    ensures FaceCount(l1 + l2) == FaceCount(l1) + FaceCount(l2)
  {
    if |l1| > 0 {
      assert (l1 + l2)[1..] == l1[1..] + l2;
      DeclaredAppend(l1[1..], l2);
    } else {
      assert l1 + l2 == l2;
    }
  }

  lemma DeclaredOfOne(l: Line)
    ensures PositionsOf([l]) == if l.V? then [l.position] else []
    ensures TextureCoordsOf([l]) == if l.VT? then [l.textureCoord] else []
    ensures NormalsOf([l]) == if l.VN? then [l.normal] else []
    ensures FaceCount([l]) == if l.F? then 1 else 0
  {
    assert [l][1..] == [];
  }

  /** The attribute lists the reader holds are exactly the file's `v`, `vt` and `vn`
      lines in file order: other lines, faces included, add nothing to them. */
  lemma {:induction false} AttributesAreDeclarations(lines: seq<Line>)
    requires AllOneBased(lines)
    ensures ReadLines(lines).attributes == Declared(lines)
  {
    if |lines| > 0 {
      var init := lines[..|lines| - 1];
      var last := lines[|lines| - 1];
      AttributesAreDeclarations(init);
      DeclaredAppend(init, [last]);
      assert init + [last] == lines;
      DeclaredOfOne(last);
    }
  }

  // ---------------------------------------------------------------------------
  // The vertices

  /** Reading more lines only appends: the state after the first i lines is a prefix of
      the final one, list by list, so vertices come out in file order. */
  lemma {:induction false} ReadingOnlyAppends(lines: seq<Line>, i: nat)
    requires AllOneBased(lines) && i <= |lines|
    ensures AllOneBased(lines[..i])
    ensures ReadLines(lines[..i]).vertices <= ReadLines(lines).vertices
    ensures ReadLines(lines[..i]).attributes.positions <= ReadLines(lines).attributes.positions
    ensures ReadLines(lines[..i]).attributes.textureCoords <= ReadLines(lines).attributes.textureCoords
    ensures ReadLines(lines[..i]).attributes.normals <= ReadLines(lines).attributes.normals
  {
    assert forall j | 0 <= j < i :: lines[..i][j] == lines[j];
    if i < |lines| {
      var init := lines[..|lines| - 1];
      assert init[..i] == lines[..i];
      ReadingOnlyAppends(init, i);
    } else {
      assert lines[..i] == lines;
    }
  }

  /** Face line i contributes the vertices of its in-bounds corners, looked up in the
      attributes declared BEFORE it: a corner that refers to a position, texture
      coordinate or normal declared further down the file is dropped. */
  lemma FaceResolvesAgainstEarlierLines(lines: seq<Line>, i: nat)
    requires AllOneBased(lines) && i < |lines| && lines[i].F?
    ensures AllOneBased(lines[..i]) && AllOneBased(lines[..i + 1])
    ensures ReadLines(lines[..i + 1]).vertices ==
            ReadLines(lines[..i]).vertices + Emitted(Corners(lines[i]), Declared(lines[..i]))
  {
    assert forall j | 0 <= j < i + 1 :: lines[..i + 1][j] == lines[j];
    assert lines[..i + 1][..i] == lines[..i];
    AttributesAreDeclarations(lines[..i]);
  }

  /** Each face line adds at most three vertices, and no other line adds any. */
  lemma {:induction false} AtMostThreeVerticesPerFace(lines: seq<Line>)
    requires AllOneBased(lines)
    ensures |ReadLines(lines).vertices| <= 3 * FaceCount(lines)
  {
    if |lines| > 0 {
      var init := lines[..|lines| - 1];
      var last := lines[|lines| - 1];
      AtMostThreeVerticesPerFace(init);
      DeclaredAppend(init, [last]);
      assert init + [last] == lines;
      DeclaredOfOne(last);
    }
  }

  /** LoadOBJ succeeds exactly when some vertex was produced, and then returns all of
      them; a file that cannot be opened, or that has no face line, is fatal. */
  lemma LoadOutcome(file: Option<seq<Line>>)
    requires file.Some? ==> AllOneBased(file.value)
    ensures file.None? ==> LoadSpec(file) == FatalError
    ensures file.Some? ==>
      (LoadSpec(file).Loaded? <==> |ReadLines(file.value).vertices| > 0) &&
      (LoadSpec(file).Loaded? ==> LoadSpec(file).vertices == ReadLines(file.value).vertices) &&
      (FaceCount(file.value) == 0 ==> LoadSpec(file) == FatalError)
  {
    if file.Some? {
      AtMostThreeVerticesPerFace(file.value);
    }
  }

  /** A face that refers to vertex data declared only after it is dropped: a file whose
      only face comes before its vertex data fails to load. */
  lemma ForwardReferenceFails(p: Vector3, t: Vector2, nm: Vector3)
    ensures var c := Corner(1, 1, 1);
      LoadSpec(Some([F(c, c, c), V(p), VT(t), VN(nm)])) == FatalError
  {
    var c := Corner(1, 1, 1);
    var early := [F(c, c, c), V(p), VT(t), VN(nm)];
    assert early[..1][..0] == [] && early[..1][0] == F(c, c, c);
    EmittedNoneInBounds([c, c, c], NothingRead.attributes);
    assert ReadLines(early[..1]).vertices == [];
    assert early[..2][..1] == early[..1] && early[..2][1] == V(p);
    assert ReadLines(early[..2]).vertices == [];
    assert early[..3][..2] == early[..2] && early[..3][2] == VT(t);
    assert ReadLines(early[..3]).vertices == [];
    assert early[..3] == early[..|early| - 1];
  }

  /** The same lines with the face last load three copies of the one vertex they declare. */
  lemma BackwardReferenceLoads(p: Vector3, t: Vector2, nm: Vector3)
    ensures var c := Corner(1, 1, 1);
      LoadSpec(Some([V(p), VT(t), VN(nm), F(c, c, c)])) == Loaded([Vertex(p, t, nm), Vertex(p, t, nm), Vertex(p, t, nm)])
  {
    var c := Corner(1, 1, 1);
    var late := [V(p), VT(t), VN(nm), F(c, c, c)];
    var a := Attributes([p], [t], [nm]);
    assert late[..1][..0] == [] && late[..1][0] == V(p);
    assert ReadLines(late[..1]) == Reader(Attributes([p], [], []), []);
    assert late[..2][..1] == late[..1] && late[..2][1] == VT(t);
    assert ReadLines(late[..2]) == Reader(Attributes([p], [t], []), []);
    assert late[..3][..2] == late[..2] && late[..3][2] == VN(nm);
    assert ReadLines(late[..3]) == Reader(a, []);
    assert late[..3] == late[..|late| - 1];
    EmittedAllInBounds([c, c, c], a);
  }
}
