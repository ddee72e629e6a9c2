/**
 * `render.objLoader.ObjLoader`: reads OBJ text into attribute lists,
 * gives every distinct (position, texture, normal) corner one dense id,
 * checks the corners' indices, and drives a lenient, explicit mesh builder
 * with one vertex per id followed by the faces or lines as index data.
 *
 * `Float.parseFloat` and `Integer.parseInt` are supplied by the caller as
 * partial functions, and the scanner's lines as a sequence of strings.
 */
module ObjLoaders {
  import opened Base
  import opened JavaString
  import opened OpenGlUtil
  import opened VertexAttributes
  import opened VertexFormats
  import opened ExpandableBuffers
  import opened MeshBuilders

  /** One face or line corner as read: the line it is on and its three 1-based indices, -1 when absent. */
  datatype Vertex = Vertex(lineNo: int, pos: int32, tex: int32, norm: int32)

  /** What `Vertex.equals` and `hashCode` look at: the indices, not the line. */
  datatype VertexKey = VertexKey(pos: int32, tex: int32, norm: int32)

  function Key(v: Vertex): VertexKey {
    VertexKey(v.pos, v.tex, v.norm)
  }

  /** `Vector3i` of a face and `Vector2i` of a line: ids of deduplicated corners. */
  datatype Tri = Tri(x: int, y: int, z: int)
  datatype Seg = Seg(x: int, y: int)

  /** The loader's lists and its corner map. */
  datatype ObjData = ObjData(positions: seq<Vec3>, colors: seq<Vec4>, textures: seq<Vec2>, normals: seq<Vec3>,
                             indices: map<VertexKey, int>, vertexList: seq<Vertex>,
                             tris: seq<Tri>, lines: seq<Seg>)

  /** A new loader: every list and the map empty. */
  function Empty(): (d: ObjData)
    ensures d.positions == [] && d.colors == [] && d.textures == [] && d.normals == []
    ensures d.indices == map[] && d.vertexList == [] && d.tris == [] && d.lines == []
  {
    ObjData([], [], [], [], map[], [], [], [])
  }

  // ----- Parsing -----

  /** `parseFloat(lineNo, str)`. */
  function ParseFloatAt(syn: NumberSyntax, lineNo: int, str: string): Result<real> {
    match syn.parseFloat(str)
    case None => Failure(ObjFormat(lineNo, InvalidFloat(str)))
    case Some(f) => Success(f)
  }

  /** `parseInt(lineNo, str)`. */
  function ParseIntAt(syn: NumberSyntax, lineNo: int, str: string): Result<int32> {
    match syn.parseInt(str)
    case None => Failure(ObjFormat(lineNo, InvalidInteger(str)))
    case Some(i) => Success(i)
  }

  /** `parseVertex(lineNo, str)`: `pos/tex/norm`, where a missing or empty `tex` and a missing `norm` are -1. */
  function ParseVertex(syn: NumberSyntax, lineNo: int, str: string): Result<Vertex> {
    var parts := Split(str, '/');
    if |parts| > 3 then Failure(ObjFormat(lineNo, TooManyIndexParts))
    else if parts == [] then Failure(IndexOutOfBounds(0))
    else
      var pos :- ParseIntAt(syn, lineNo, parts[0]);
      var tex :- if |parts| > 1 && parts[1] != "" then ParseIntAt(syn, lineNo, parts[1]) else Success(-1);
      var norm :- if |parts| > 2 then ParseIntAt(syn, lineNo, parts[2]) else Success(-1);
      Success(Vertex(lineNo, pos, tex, norm))
  }

  /**
   * The map lookup of `parseVertexToIndex`: a known corner gets its id back,
   * a new one the next id, `indices.size()`, and is appended to `vertexList`.
   */
  function AddVertex(d: ObjData, v: Vertex): (int, ObjData) {
    if Key(v) in d.indices then (d.indices[Key(v)], d)
    else (|d.indices|, d.(indices := d.indices[Key(v) := |d.indices|], vertexList := d.vertexList + [v]))
  }

  /** `parseVertexToIndex(lineNo, str)`. */
  function IndexCorner(syn: NumberSyntax, d: ObjData, lineNo: int, str: string): Result<(int, ObjData)> {
    var v :- ParseVertex(syn, lineNo, str);
    Success(AddVertex(d, v))
  }

  /** The `v` case: arity 4, 5, 7 or 8; a colour from parts 4 to 6 (and 7), white otherwise. */
  function ParsePositionLine(syn: NumberSyntax, lineNo: int, parts: seq<string>): Result<(Vec3, Vec4)> {
    if |parts| != 4 && |parts| != 5 && |parts| != 7 && |parts| != 8 then Failure(ObjFormat(lineNo, VertexArity))
    else
      var x :- ParseFloatAt(syn, lineNo, parts[1]);
      var y :- ParseFloatAt(syn, lineNo, parts[2]);
      var z :- ParseFloatAt(syn, lineNo, parts[3]);
      if |parts| >= 7 then
        var r :- ParseFloatAt(syn, lineNo, parts[4]);
        var g :- ParseFloatAt(syn, lineNo, parts[5]);
        var b :- ParseFloatAt(syn, lineNo, parts[6]);
        var a :- if |parts| > 7 then ParseFloatAt(syn, lineNo, parts[7]) else Success(1.0);
        Success((Vec3(x, y, z), Vec4(r, g, b, a)))
      else Success((Vec3(x, y, z), Vec4(1.0, 1.0, 1.0, 1.0)))
  }

  /** The `vt` case: exactly two coordinates. */
  function ParseTextureLine(syn: NumberSyntax, lineNo: int, parts: seq<string>): Result<Vec2> {
    if |parts| != 3 then Failure(ObjFormat(lineNo, TextureArity))
    else
      var u :- ParseFloatAt(syn, lineNo, parts[1]);
      var v :- ParseFloatAt(syn, lineNo, parts[2]);
      Success(Vec2(u, v))
  }

  /** The `vn` case: exactly three coordinates. */
  function ParseNormalLine(syn: NumberSyntax, lineNo: int, parts: seq<string>): Result<Vec3> {
    if |parts| != 4 then Failure(ObjFormat(lineNo, NormalArity))
    else
      var x :- ParseFloatAt(syn, lineNo, parts[1]);
      var y :- ParseFloatAt(syn, lineNo, parts[2]);
      var z :- ParseFloatAt(syn, lineNo, parts[3]);
      Success(Vec3(x, y, z))
  }

  /** The `f` case: triangle mode, then exactly three corners, indexed left to right. */
  function ParseFaceLine(syn: NumberSyntax, d: ObjData, lineNo: int, parts: seq<string>, primitive: int): Result<ObjData> {
    if primitive != GL_TRIANGLES then Failure(ObjFormat(lineNo, FacesNeedTriangles))
    else if |parts| != 4 then Failure(ObjFormat(lineNo, FaceArity))
    else
      var a :- IndexCorner(syn, d, lineNo, parts[1]);
      var b :- IndexCorner(syn, a.1, lineNo, parts[2]);
      var c :- IndexCorner(syn, b.1, lineNo, parts[3]);
      Success(c.1.(tris := c.1.tris + [Tri(a.0, b.0, c.0)]))
  }

  /** The `l` case: lines mode, then exactly two corners. */
  function ParseSegmentLine(syn: NumberSyntax, d: ObjData, lineNo: int, parts: seq<string>, primitive: int): Result<ObjData> {
    if primitive != GL_LINES then Failure(ObjFormat(lineNo, LinesNeedLines))
    else if |parts| != 3 then Failure(ObjFormat(lineNo, LineArity))
    else
      var a :- IndexCorner(syn, d, lineNo, parts[1]);
      var b :- IndexCorner(syn, a.1, lineNo, parts[2]);
      Success(b.1.(lines := b.1.lines + [Seg(a.0, b.0)]))
  }

  /**
   * `parseLine(lineNo, line, primitiveType)`: comments and unknown
   * directives change nothing; a line of spaces only splits into no parts,
   * so reading `parts[0]` fails.
   */
  function ParseLineStep(syn: NumberSyntax, d: ObjData, lineNo: int, line: string, primitive: int): Result<ObjData> {
    if StartsWith(line, "#") then Success(d)
    else
      var parts := Split(line, ' ');
      if parts == [] then Failure(IndexOutOfBounds(0))
      else if parts[0] == "v" then
        var pc :- ParsePositionLine(syn, lineNo, parts);
        Success(d.(positions := d.positions + [pc.0], colors := d.colors + [pc.1]))
      else if parts[0] == "vt" then
        var t :- ParseTextureLine(syn, lineNo, parts);
        Success(d.(textures := d.textures + [t]))
      else if parts[0] == "vn" then
        var n :- ParseNormalLine(syn, lineNo, parts);
        Success(d.(normals := d.normals + [n]))
      else if parts[0] == "f" then ParseFaceLine(syn, d, lineNo, parts, primitive)
      else if parts[0] == "l" then ParseSegmentLine(syn, d, lineNo, parts, primitive)
      else Success(d)
  }

  /**
   * Lines that change nothing: comments, the empty line, and lines whose
   * first word is no directive the loader knows. A non-empty line of spaces
   * alone has no first word, and reading it throws.
   */
  lemma IgnoredLines(syn: NumberSyntax, d: ObjData, lineNo: int, line: string, primitive: int)
    ensures StartsWith(line, "#") ==> ParseLineStep(syn, d, lineNo, line, primitive) == Success(d)
    ensures ParseLineStep(syn, d, lineNo, "", primitive) == Success(d)
    ensures !StartsWith(line, "#") && Split(line, ' ') != []
            && Split(line, ' ')[0] != "v" && Split(line, ' ')[0] != "vt" && Split(line, ' ')[0] != "vn"
            && Split(line, ' ')[0] != "f" && Split(line, ' ')[0] != "l" ==>
              ParseLineStep(syn, d, lineNo, line, primitive) == Success(d)
    ensures line != "" && (forall k :: 0 <= k < |line| ==> line[k] == ' ') ==>
              ParseLineStep(syn, d, lineNo, line, primitive) == Failure(IndexOutOfBounds(0))
  {
    if line != "" && forall k :: 0 <= k < |line| ==> line[k] == ' ' {
      SplitOnlySeparators(line, ' ');
    }
  }

  /** The value `parseFloat` gave, for a string it accepted. */
  function FloatOf(syn: NumberSyntax, str: string): real
    requires syn.parseFloat(str).Some?
  {
    syn.parseFloat(str).value
  }

  /**
   * A `v` line: any arity but 4, 5, 7 or 8 is refused before a number is
   * read; otherwise it succeeds exactly when the numbers it reads parse, and
   * gives the position from parts 1 to 3 and the colour (r, g, b, a) from 8
   * parts, (r, g, b, 1) from 7 and white from 4 or 5.
   */
  lemma PositionLineBehaviour(syn: NumberSyntax, lineNo: int, parts: seq<string>)
    ensures !(|parts| == 4 || |parts| == 5 || |parts| == 7 || |parts| == 8) ==>
              ParsePositionLine(syn, lineNo, parts) == Failure(ObjFormat(lineNo, VertexArity))
    ensures ParsePositionLine(syn, lineNo, parts).Success? <==>
              (|parts| == 4 || |parts| == 5 || |parts| == 7 || |parts| == 8)
              && (forall k :: 1 <= k < (if |parts| >= 7 then |parts| else 4) ==> syn.parseFloat(parts[k]).Some?)
    ensures ParsePositionLine(syn, lineNo, parts).Failure? ==>
              ParsePositionLine(syn, lineNo, parts).error.ObjFormat?
              && ParsePositionLine(syn, lineNo, parts).error.line == lineNo
    ensures ParsePositionLine(syn, lineNo, parts).Success? ==>
              var (p, c) := ParsePositionLine(syn, lineNo, parts).value;
              p == Vec3(FloatOf(syn, parts[1]), FloatOf(syn, parts[2]), FloatOf(syn, parts[3]))
              && c == if |parts| == 8 then Vec4(FloatOf(syn, parts[4]), FloatOf(syn, parts[5]), FloatOf(syn, parts[6]), FloatOf(syn, parts[7]))
                      else if |parts| == 7 then Vec4(FloatOf(syn, parts[4]), FloatOf(syn, parts[5]), FloatOf(syn, parts[6]), 1.0)
                      else Vec4(1.0, 1.0, 1.0, 1.0)
  {
    if |parts| == 4 || |parts| == 5 || |parts| == 7 || |parts| == 8 {
      var m := if |parts| >= 7 then |parts| else 4;
      if forall k :: 1 <= k < m ==> syn.parseFloat(parts[k]).Some? {
        assert syn.parseFloat(parts[1]).Some? && syn.parseFloat(parts[2]).Some? && syn.parseFloat(parts[3]).Some?;
        if |parts| >= 7 {
          assert syn.parseFloat(parts[4]).Some? && syn.parseFloat(parts[5]).Some? && syn.parseFloat(parts[6]).Some?;
          if |parts| == 8 {
            assert syn.parseFloat(parts[7]).Some?;
          }
        }
      } else {
        var k :| 1 <= k < m && syn.parseFloat(parts[k]).None?;
        assert k == 1 || k == 2 || k == 3 || k == 4 || k == 5 || k == 6 || k == 7;
      }
    }
  }

  /** A `vt` line needs exactly 3 parts and gives the two numbers of parts 1 and 2. */
  lemma TextureLineBehaviour(syn: NumberSyntax, lineNo: int, parts: seq<string>)
    ensures |parts| != 3 ==> ParseTextureLine(syn, lineNo, parts) == Failure(ObjFormat(lineNo, TextureArity))
    ensures ParseTextureLine(syn, lineNo, parts).Success? <==>
              |parts| == 3 && syn.parseFloat(parts[1]).Some? && syn.parseFloat(parts[2]).Some?
    ensures ParseTextureLine(syn, lineNo, parts).Failure? ==>
              ParseTextureLine(syn, lineNo, parts).error.ObjFormat?
              && ParseTextureLine(syn, lineNo, parts).error.line == lineNo
    ensures ParseTextureLine(syn, lineNo, parts).Success? ==>
              ParseTextureLine(syn, lineNo, parts).value == Vec2(FloatOf(syn, parts[1]), FloatOf(syn, parts[2]))
  {
  }

  /** A `vn` line needs exactly 4 parts and gives the three numbers of parts 1 to 3. */
  lemma NormalLineBehaviour(syn: NumberSyntax, lineNo: int, parts: seq<string>)
    ensures |parts| != 4 ==> ParseNormalLine(syn, lineNo, parts) == Failure(ObjFormat(lineNo, NormalArity))
    ensures ParseNormalLine(syn, lineNo, parts).Success? <==>
              |parts| == 4 && syn.parseFloat(parts[1]).Some? && syn.parseFloat(parts[2]).Some?
              && syn.parseFloat(parts[3]).Some?
    ensures ParseNormalLine(syn, lineNo, parts).Failure? ==>
              ParseNormalLine(syn, lineNo, parts).error.ObjFormat?
              && ParseNormalLine(syn, lineNo, parts).error.line == lineNo
    ensures ParseNormalLine(syn, lineNo, parts).Success? ==>
              ParseNormalLine(syn, lineNo, parts).value
              == Vec3(FloatOf(syn, parts[1]), FloatOf(syn, parts[2]), FloatOf(syn, parts[3]))
  {
  }

  /**
   * A corner `pos/tex/norm`: more than three `/`-parts is refused; `pos` must
   * parse; a missing or empty `tex` and a missing `norm` become -1; the
   * corner remembers its line.
   */
  lemma ParseVertexBehaviour(syn: NumberSyntax, lineNo: int, str: string)
    ensures |Split(str, '/')| > 3 ==> ParseVertex(syn, lineNo, str) == Failure(ObjFormat(lineNo, TooManyIndexParts))
    ensures var parts := Split(str, '/');
            ParseVertex(syn, lineNo, str).Success? <==>
              1 <= |parts| <= 3 && syn.parseInt(parts[0]).Some?
              && (|parts| > 1 && parts[1] != "" ==> syn.parseInt(parts[1]).Some?)
              && (|parts| > 2 ==> syn.parseInt(parts[2]).Some?)
    ensures var parts := Split(str, '/');
            ParseVertex(syn, lineNo, str).Success? ==>
              var v := ParseVertex(syn, lineNo, str).value;
              v.lineNo == lineNo && syn.parseInt(parts[0]) == Some(v.pos)
              && (if |parts| > 1 && parts[1] != "" then syn.parseInt(parts[1]) == Some(v.tex) else v.tex == -1)
              && (if |parts| > 2 then syn.parseInt(parts[2]) == Some(v.norm) else v.norm == -1)
  {
  }

  /** A line that throws names itself, unless it is a line of spaces alone, whose first word is missing. */
  lemma LineErrorsNameTheLine(syn: NumberSyntax, d: ObjData, lineNo: int, line: string, primitive: int)
    ensures ParseLineStep(syn, d, lineNo, line, primitive).Failure? ==>
              var e := ParseLineStep(syn, d, lineNo, line, primitive).error;
              (e.ObjFormat? && e.line == lineNo) || e == IndexOutOfBounds(0)
  {
    var parts := Split(line, ' ');
    if !StartsWith(line, "#") && parts != [] {
      if parts[0] == "v" {
        PositionLineBehaviour(syn, lineNo, parts);
      } else if parts[0] == "vt" {
        TextureLineBehaviour(syn, lineNo, parts);
      } else if parts[0] == "vn" {
        NormalLineBehaviour(syn, lineNo, parts);
      } else if parts[0] == "f" && primitive == GL_TRIANGLES && |parts| == 4 {
        CornerErrorsNameTheLine(syn, d, lineNo, parts[1]);
        if IndexCorner(syn, d, lineNo, parts[1]).Success? {
          var a := IndexCorner(syn, d, lineNo, parts[1]).value;
          CornerErrorsNameTheLine(syn, a.1, lineNo, parts[2]);
          if IndexCorner(syn, a.1, lineNo, parts[2]).Success? {
            CornerErrorsNameTheLine(syn, IndexCorner(syn, a.1, lineNo, parts[2]).value.1, lineNo, parts[3]);
          }
        }
      } else if parts[0] == "l" && primitive == GL_LINES && |parts| == 3 {
        CornerErrorsNameTheLine(syn, d, lineNo, parts[1]);
        if IndexCorner(syn, d, lineNo, parts[1]).Success? {
          CornerErrorsNameTheLine(syn, IndexCorner(syn, d, lineNo, parts[1]).value.1, lineNo, parts[2]);
        }
      }
    }
  }

  /** A corner that throws names its line, unless it has no `/`-part at all. */
  lemma CornerErrorsNameTheLine(syn: NumberSyntax, d: ObjData, lineNo: int, str: string)
    ensures IndexCorner(syn, d, lineNo, str).Failure? ==>
              var e := IndexCorner(syn, d, lineNo, str).error;
              (e.ObjFormat? && e.line == lineNo) || e == IndexOutOfBounds(0)
  {
  }

  /** The deduplication map and `vertexList` are inverse: ids are dense, in first-seen order, one per key. */
  predicate DedupInv(d: ObjData) {
    |d.indices| == |d.vertexList|
    && (forall k :: k in d.indices ==> 0 <= d.indices[k] < |d.vertexList| && Key(d.vertexList[d.indices[k]]) == k)
    && (forall i :: 0 <= i < |d.vertexList| ==> Key(d.vertexList[i]) in d.indices && d.indices[Key(d.vertexList[i])] == i)
  }

  /** Every face and line names ids of `vertexList`. */
  predicate IdsInRange(d: ObjData) {
    (forall t :: 0 <= t < |d.tris| ==>
       0 <= d.tris[t].x < |d.vertexList| && 0 <= d.tris[t].y < |d.vertexList| && 0 <= d.tris[t].z < |d.vertexList|)
    && (forall t :: 0 <= t < |d.lines| ==> 0 <= d.lines[t].x < |d.vertexList| && 0 <= d.lines[t].y < |d.vertexList|)
  }

  /** What parsing keeps: the dedup invariant, ids in range, and one colour per position. */
  predicate Wellformed(d: ObjData) {
    DedupInv(d) && IdsInRange(d) && |d.positions| == |d.colors|
  }

  /**
   * The `while (scan.hasNextLine())` loop, from the lists `d` already holds:
   * lines numbered from 1, stopping at the first exception.
   */
  function ParseLines(syn: NumberSyntax, d: ObjData, source: seq<string>, primitive: int): (r: Result<ObjData>)
    requires Wellformed(d)
    ensures r.Success? ==> Wellformed(r.value) && |r.value.vertexList| <= |d.vertexList| + 3 * |source|
  {
    if source == [] then Success(d)
    else
      match ParseLines(syn, d, source[..|source| - 1], primitive)
      case Failure(e) => Failure(e)
      case Success(e) =>
        ParseLineKeepsWellformed(syn, e, |source|, source[|source| - 1], primitive);
        ParseLineStep(syn, e, |source|, source[|source| - 1], primitive)
  }

  // ----- Properties of parsing -----

  /** `e` is `d` with only corners added: the other lists are as they were and `vertexList` extends. */
  predicate OnlyCornersAdded(d: ObjData, e: ObjData) {
    e.positions == d.positions && e.colors == d.colors && e.textures == d.textures && e.normals == d.normals
    && e.tris == d.tris && e.lines == d.lines && d.vertexList <= e.vertexList
  }

  /**
   * Deduplication: equal keys share one id whatever their lines; a new key
   * gets the next id and goes to the end of `vertexList`; the id always names
   * a vertex with the corner's key.
   */
  lemma AddVertexBehaviour(d: ObjData, v: Vertex)
    requires DedupInv(d)
    ensures var (id, e) := AddVertex(d, v);
            DedupInv(e) && OnlyCornersAdded(d, e) && |e.vertexList| <= |d.vertexList| + 1
            && 0 <= id < |e.vertexList| && Key(e.vertexList[id]) == Key(v)
            && (Key(v) in d.indices ==> e == d && id == d.indices[Key(v)])
            && (Key(v) !in d.indices ==> id == |d.vertexList| && e.vertexList == d.vertexList + [v])
  {
    if Key(v) !in d.indices {
      var (id, e) := AddVertex(d, v);
      assert |e.indices| == |d.indices| + 1;
      forall i | 0 <= i < |e.vertexList|
        ensures Key(e.vertexList[i]) in e.indices && e.indices[Key(e.vertexList[i])] == i
      {
        if i < |d.vertexList| {
          assert e.vertexList[i] == d.vertexList[i];
          assert Key(d.vertexList[i]) != Key(v);
        }
      }
    }
  }

  /** Two corners with the same indices get the same id, whichever line each is on. */
  lemma DedupIgnoresLine(d: ObjData, v: Vertex, w: Vertex)
    requires DedupInv(d) && Key(v) == Key(w)
    ensures AddVertex(d, v).0 == AddVertex(d, w).0
    ensures AddVertex(AddVertex(d, v).1, w) == (AddVertex(d, v).0, AddVertex(d, v).1)
  {
    AddVertexBehaviour(d, v);
  }

  /** `parseVertexToIndex`: all of the above, once the corner has parsed. */
  lemma IndexCornerBehaviour(syn: NumberSyntax, d: ObjData, lineNo: int, str: string)
    requires DedupInv(d)
    ensures IndexCorner(syn, d, lineNo, str).Success? <==> ParseVertex(syn, lineNo, str).Success?
    ensures IndexCorner(syn, d, lineNo, str).Success? ==>
              var (id, e) := IndexCorner(syn, d, lineNo, str).value;
              DedupInv(e) && OnlyCornersAdded(d, e) && |e.vertexList| <= |d.vertexList| + 1
              && 0 <= id < |e.vertexList| && Key(e.vertexList[id]) == Key(ParseVertex(syn, lineNo, str).value)
  {
    if ParseVertex(syn, lineNo, str).Success? {
      AddVertexBehaviour(d, ParseVertex(syn, lineNo, str).value);
    }
  }

  /** Adding corners keeps every old face and line in range. */
  lemma CornersKeepIdsInRange(d: ObjData, e: ObjData)
    requires IdsInRange(d) && OnlyCornersAdded(d, e)
    ensures IdsInRange(e)
  {
  }

  /** The topology is checked before the arity. */
  lemma FaceLineChecks(syn: NumberSyntax, d: ObjData, lineNo: int, parts: seq<string>, primitive: int)
    ensures primitive != GL_TRIANGLES ==> ParseFaceLine(syn, d, lineNo, parts, primitive) == Failure(ObjFormat(lineNo, FacesNeedTriangles))
    ensures primitive == GL_TRIANGLES && |parts| != 4 ==> ParseFaceLine(syn, d, lineNo, parts, primitive) == Failure(ObjFormat(lineNo, FaceArity))
  {
  }

  /** One face: its three ids name vertices with the keys of its corners, in order. */
  lemma FaceLineBehaviour(syn: NumberSyntax, d: ObjData, lineNo: int, parts: seq<string>, primitive: int)
    requires Wellformed(d)
    ensures ParseFaceLine(syn, d, lineNo, parts, primitive).Success? ==>
              var e := ParseFaceLine(syn, d, lineNo, parts, primitive).value;
              Wellformed(e) && |e.vertexList| <= |d.vertexList| + 3
              && |e.tris| == |d.tris| + 1 && e.tris[..|d.tris|] == d.tris
              && e.positions == d.positions && e.textures == d.textures && e.normals == d.normals && e.lines == d.lines
              && Key(e.vertexList[e.tris[|d.tris|].x]) == Key(ParseVertex(syn, lineNo, parts[1]).value)
              && Key(e.vertexList[e.tris[|d.tris|].y]) == Key(ParseVertex(syn, lineNo, parts[2]).value)
              && Key(e.vertexList[e.tris[|d.tris|].z]) == Key(ParseVertex(syn, lineNo, parts[3]).value)
  {
    if ParseFaceLine(syn, d, lineNo, parts, primitive).Success? {
      IndexCornerBehaviour(syn, d, lineNo, parts[1]);
      var a := IndexCorner(syn, d, lineNo, parts[1]).value;
      IndexCornerBehaviour(syn, a.1, lineNo, parts[2]);
      var b := IndexCorner(syn, a.1, lineNo, parts[2]).value;
      IndexCornerBehaviour(syn, b.1, lineNo, parts[3]);
      var c := IndexCorner(syn, b.1, lineNo, parts[3]).value;
      assert a.1.vertexList <= c.1.vertexList;
      assert b.1.vertexList <= c.1.vertexList;
      assert OnlyCornersAdded(d, c.1);
      CornersKeepIdsInRange(d, c.1);
      var e := c.1.(tris := c.1.tris + [Tri(a.0, b.0, c.0)]);
      assert ParseFaceLine(syn, d, lineNo, parts, primitive) == Success(e);
      AddTriKeepsIdsInRange(c.1, Tri(a.0, b.0, c.0));
    }
  }

  lemma AddTriKeepsIdsInRange(d: ObjData, t: Tri)
    requires IdsInRange(d)
    requires 0 <= t.x < |d.vertexList| && 0 <= t.y < |d.vertexList| && 0 <= t.z < |d.vertexList|
    ensures IdsInRange(d.(tris := d.tris + [t]))
  {
    var e := d.(tris := d.tris + [t]);
    forall i | 0 <= i < |e.tris|
      ensures 0 <= e.tris[i].x < |e.vertexList| && 0 <= e.tris[i].y < |e.vertexList| && 0 <= e.tris[i].z < |e.vertexList|
    {
      if i < |d.tris| { assert e.tris[i] == d.tris[i]; }
    }
  }

  /** The topology is checked before the arity. */
  lemma SegmentLineChecks(syn: NumberSyntax, d: ObjData, lineNo: int, parts: seq<string>, primitive: int)
    ensures primitive != GL_LINES ==> ParseSegmentLine(syn, d, lineNo, parts, primitive) == Failure(ObjFormat(lineNo, LinesNeedLines))
    ensures primitive == GL_LINES && |parts| != 3 ==> ParseSegmentLine(syn, d, lineNo, parts, primitive) == Failure(ObjFormat(lineNo, LineArity))
  {
  }

  /** One line segment: its two ids name vertices with the keys of its corners, in order. */
  lemma SegmentLineBehaviour(syn: NumberSyntax, d: ObjData, lineNo: int, parts: seq<string>, primitive: int)
    requires Wellformed(d)
    ensures ParseSegmentLine(syn, d, lineNo, parts, primitive).Success? ==>
              var e := ParseSegmentLine(syn, d, lineNo, parts, primitive).value;
              Wellformed(e) && |e.vertexList| <= |d.vertexList| + 2
              && |e.lines| == |d.lines| + 1 && e.lines[..|d.lines|] == d.lines
              && e.positions == d.positions && e.textures == d.textures && e.normals == d.normals && e.tris == d.tris
              && Key(e.vertexList[e.lines[|d.lines|].x]) == Key(ParseVertex(syn, lineNo, parts[1]).value)
              && Key(e.vertexList[e.lines[|d.lines|].y]) == Key(ParseVertex(syn, lineNo, parts[2]).value)
  {
    if ParseSegmentLine(syn, d, lineNo, parts, primitive).Success? {
      IndexCornerBehaviour(syn, d, lineNo, parts[1]);
      var a := IndexCorner(syn, d, lineNo, parts[1]).value;
      IndexCornerBehaviour(syn, a.1, lineNo, parts[2]);
      var b := IndexCorner(syn, a.1, lineNo, parts[2]).value;
      assert a.1.vertexList <= b.1.vertexList;
      assert OnlyCornersAdded(d, b.1);
      CornersKeepIdsInRange(d, b.1);
      var e := b.1.(lines := b.1.lines + [Seg(a.0, b.0)]);
      assert ParseSegmentLine(syn, d, lineNo, parts, primitive) == Success(e);
      AddSegKeepsIdsInRange(b.1, Seg(a.0, b.0));
    }
  }

  lemma AddSegKeepsIdsInRange(d: ObjData, t: Seg)
    requires IdsInRange(d)
    requires 0 <= t.x < |d.vertexList| && 0 <= t.y < |d.vertexList|
    ensures IdsInRange(d.(lines := d.lines + [t]))
  {
    var e := d.(lines := d.lines + [t]);
    forall i | 0 <= i < |e.lines|
      ensures 0 <= e.lines[i].x < |e.vertexList| && 0 <= e.lines[i].y < |e.vertexList|
    {
      if i < |d.lines| { assert e.lines[i] == d.lines[i]; }
    }
  }

  /** Every line keeps the loader well formed and adds at most three corners. */
  lemma ParseLineKeepsWellformed(syn: NumberSyntax, d: ObjData, lineNo: int, line: string, primitive: int)
    requires Wellformed(d)
    ensures ParseLineStep(syn, d, lineNo, line, primitive).Success? ==>
              Wellformed(ParseLineStep(syn, d, lineNo, line, primitive).value)
              && |ParseLineStep(syn, d, lineNo, line, primitive).value.vertexList| <= |d.vertexList| + 3
  {
    var r := ParseLineStep(syn, d, lineNo, line, primitive);
    var parts := Split(line, ' ');
    if StartsWith(line, "#") || parts == [] {
    } else if parts[0] == "v" {
      var pc := ParsePositionLine(syn, lineNo, parts);
      assert r.Success? ==> r.value == d.(positions := d.positions + [pc.value.0], colors := d.colors + [pc.value.1]);
    } else if parts[0] == "vt" {
      var t := ParseTextureLine(syn, lineNo, parts);
      assert r.Success? ==> r.value == d.(textures := d.textures + [t.value]);
    } else if parts[0] == "vn" {
      var n := ParseNormalLine(syn, lineNo, parts);
      assert r.Success? ==> r.value == d.(normals := d.normals + [n.value]);
    } else if parts[0] == "f" {
      assert r == ParseFaceLine(syn, d, lineNo, parts, primitive);
      FaceLineBehaviour(syn, d, lineNo, parts, primitive);
    } else if parts[0] == "l" {
      assert r == ParseSegmentLine(syn, d, lineNo, parts, primitive);
      SegmentLineBehaviour(syn, d, lineNo, parts, primitive);
    }
  }

  // ----- What a line that throws leaves behind -----

  /** The three coordinates of a `v` line parse: `parseLine` then adds the position before it reads a colour. */
  predicate CoordinatesParse(syn: NumberSyntax, parts: seq<string>) {
    |parts| >= 4 && syn.parseFloat(parts[1]).Some? && syn.parseFloat(parts[2]).Some? && syn.parseFloat(parts[3]).Some?
  }

  /**
   * The lists after the `v` case, whether it returns or throws: a position
   * whose coordinates parsed is added at once, its colour only once the
   * colour has parsed too.
   */
  function PositionLeaves(syn: NumberSyntax, d: ObjData, lineNo: int, parts: seq<string>): ObjData {
    if |parts| != 4 && |parts| != 5 && |parts| != 7 && |parts| != 8 then d
    else if !CoordinatesParse(syn, parts) then d
    else
      var p := d.(positions := d.positions + [Vec3(FloatOf(syn, parts[1]), FloatOf(syn, parts[2]), FloatOf(syn, parts[3]))]);
      match ParsePositionLine(syn, lineNo, parts)
      case Success(pc) => p.(colors := d.colors + [pc.1])
      case Failure(_) => p
  }

  /** The lists after the `f` case: every corner indexed before one throws stays indexed. */
  function FaceLeaves(syn: NumberSyntax, d: ObjData, lineNo: int, parts: seq<string>, primitive: int): ObjData {
    if primitive != GL_TRIANGLES || |parts| != 4 then d
    else
      match IndexCorner(syn, d, lineNo, parts[1])
      case Failure(_) => d
      case Success(a) =>
        match IndexCorner(syn, a.1, lineNo, parts[2])
        case Failure(_) => a.1
        case Success(b) =>
          match IndexCorner(syn, b.1, lineNo, parts[3])
          case Failure(_) => b.1
          case Success(c) => c.1.(tris := c.1.tris + [Tri(a.0, b.0, c.0)])
  }

  /** The lists after the `l` case: the first corner stays indexed when the second throws. */
  function SegmentLeaves(syn: NumberSyntax, d: ObjData, lineNo: int, parts: seq<string>, primitive: int): ObjData {
    if primitive != GL_LINES || |parts| != 3 then d
    else
      match IndexCorner(syn, d, lineNo, parts[1])
      case Failure(_) => d
      case Success(a) =>
        match IndexCorner(syn, a.1, lineNo, parts[2])
        case Failure(_) => a.1
        case Success(b) => b.1.(lines := b.1.lines + [Seg(a.0, b.0)])
  }

  /** The lists after `parseLine(lineNo, line, primitiveType)`, whether it returns or throws. */
  function LineLeaves(syn: NumberSyntax, d: ObjData, lineNo: int, line: string, primitive: int): ObjData {
    if StartsWith(line, "#") then d
    else
      var parts := Split(line, ' ');
      if parts == [] then d
      else if parts[0] == "v" then PositionLeaves(syn, d, lineNo, parts)
      else if parts[0] == "vt" then
        (match ParseTextureLine(syn, lineNo, parts)
         case Success(t) => d.(textures := d.textures + [t])
         case Failure(_) => d)
      else if parts[0] == "vn" then
        (match ParseNormalLine(syn, lineNo, parts)
         case Success(n) => d.(normals := d.normals + [n])
         case Failure(_) => d)
      else if parts[0] == "f" then FaceLeaves(syn, d, lineNo, parts, primitive)
      else if parts[0] == "l" then SegmentLeaves(syn, d, lineNo, parts, primitive)
      else d
  }

  /**
   * `e` is what a throwing line left of `d`: no colour, texture, normal,
   * face or line was added; at most one position was, and then no corner.
   */
  predicate ThrownKeeps(d: ObjData, e: ObjData) {
    e.colors == d.colors && e.textures == d.textures && e.normals == d.normals
    && e.tris == d.tris && e.lines == d.lines && d.vertexList <= e.vertexList
    && d.positions <= e.positions && |e.positions| <= |d.positions| + 1
    && (e.positions == d.positions || e.vertexList == d.vertexList)
  }

  /**
   * A `v` line leaves the step's position and colour when it returns. When
   * it throws, the colours stay as they were, and the position is kept
   * exactly when the arity was right and the coordinates parsed, so that
   * one position then has no colour.
   */
  lemma PositionLeavesBehaviour(syn: NumberSyntax, d: ObjData, lineNo: int, parts: seq<string>)
    ensures var e := PositionLeaves(syn, d, lineNo, parts);
            ParsePositionLine(syn, lineNo, parts).Success? ==>
              e == d.(positions := d.positions + [ParsePositionLine(syn, lineNo, parts).value.0],
                      colors := d.colors + [ParsePositionLine(syn, lineNo, parts).value.1])
    ensures var e := PositionLeaves(syn, d, lineNo, parts);
            var kept := (|parts| == 4 || |parts| == 5 || |parts| == 7 || |parts| == 8) && CoordinatesParse(syn, parts);
            ParsePositionLine(syn, lineNo, parts).Failure? ==>
              ThrownKeeps(d, e) && e.vertexList == d.vertexList && e.indices == d.indices
              && (kept ==> e.positions == d.positions + [Vec3(FloatOf(syn, parts[1]), FloatOf(syn, parts[2]), FloatOf(syn, parts[3]))])
              && (!kept ==> e == d)
  {
    PositionLineBehaviour(syn, lineNo, parts);
  }

  /** Indexing a corner only adds corners, keeps the dedup invariant, and on a throw changes nothing. */
  lemma IndexCornerLeaves(syn: NumberSyntax, d: ObjData, lineNo: int, str: string)
    requires DedupInv(d)
    ensures IndexCorner(syn, d, lineNo, str).Success? ==>
              var e := IndexCorner(syn, d, lineNo, str).value.1;
              DedupInv(e) && OnlyCornersAdded(d, e) && e.indices.Keys >= d.indices.Keys
              && Key(ParseVertex(syn, lineNo, str).value) in e.indices
  {
    if ParseVertex(syn, lineNo, str).Success? {
      AddVertexBehaviour(d, ParseVertex(syn, lineNo, str).value);
    }
  }

  /**
   * An `f` line leaves the step's lists when it returns. When it throws, no
   * face is added, yet every corner before the one that threw stays in the
   * dedup map, and the map and `vertexList` stay inverse.
   */
  lemma FaceLeavesBehaviour(syn: NumberSyntax, d: ObjData, lineNo: int, parts: seq<string>, primitive: int)
    requires DedupInv(d)
    ensures var e := FaceLeaves(syn, d, lineNo, parts, primitive);
            ParseFaceLine(syn, d, lineNo, parts, primitive).Success? ==> e == ParseFaceLine(syn, d, lineNo, parts, primitive).value
    ensures var e := FaceLeaves(syn, d, lineNo, parts, primitive);
            ParseFaceLine(syn, d, lineNo, parts, primitive).Failure? ==>
              OnlyCornersAdded(d, e) && DedupInv(e) && |e.vertexList| <= |d.vertexList| + 2
              && (primitive == GL_TRIANGLES && |parts| == 4 && ParseVertex(syn, lineNo, parts[1]).Success? ==>
                    Key(ParseVertex(syn, lineNo, parts[1]).value) in e.indices)
              && (primitive == GL_TRIANGLES && |parts| == 4 && ParseVertex(syn, lineNo, parts[1]).Success?
                  && ParseVertex(syn, lineNo, parts[2]).Success? ==>
                    Key(ParseVertex(syn, lineNo, parts[2]).value) in e.indices)
              && (primitive != GL_TRIANGLES || |parts| != 4 || ParseVertex(syn, lineNo, parts[1]).Failure? ==> e == d)
  {
    if primitive == GL_TRIANGLES && |parts| == 4 {
      IndexCornerLeaves(syn, d, lineNo, parts[1]);
      IndexCornerBehaviour(syn, d, lineNo, parts[1]);
      if IndexCorner(syn, d, lineNo, parts[1]).Success? {
        var a := IndexCorner(syn, d, lineNo, parts[1]).value;
        IndexCornerLeaves(syn, a.1, lineNo, parts[2]);
        IndexCornerBehaviour(syn, a.1, lineNo, parts[2]);
        if IndexCorner(syn, a.1, lineNo, parts[2]).Success? {
          var b := IndexCorner(syn, a.1, lineNo, parts[2]).value;
          assert OnlyCornersAdded(d, b.1);
          IndexCornerLeaves(syn, b.1, lineNo, parts[3]);
        }
      }
    }
  }

  /**
   * An `l` line leaves the step's lists when it returns. When it throws, no
   * line is added, yet a first corner that parsed stays in the dedup map.
   */
  lemma SegmentLeavesBehaviour(syn: NumberSyntax, d: ObjData, lineNo: int, parts: seq<string>, primitive: int)
    requires DedupInv(d)
    ensures var e := SegmentLeaves(syn, d, lineNo, parts, primitive);
            ParseSegmentLine(syn, d, lineNo, parts, primitive).Success? ==> e == ParseSegmentLine(syn, d, lineNo, parts, primitive).value
    ensures var e := SegmentLeaves(syn, d, lineNo, parts, primitive);
            ParseSegmentLine(syn, d, lineNo, parts, primitive).Failure? ==>
              OnlyCornersAdded(d, e) && DedupInv(e) && |e.vertexList| <= |d.vertexList| + 1
              && (primitive == GL_LINES && |parts| == 3 && ParseVertex(syn, lineNo, parts[1]).Success? ==>
                    Key(ParseVertex(syn, lineNo, parts[1]).value) in e.indices)
              && (primitive != GL_LINES || |parts| != 3 || ParseVertex(syn, lineNo, parts[1]).Failure? ==> e == d)
  {
    if primitive == GL_LINES && |parts| == 3 {
      IndexCornerLeaves(syn, d, lineNo, parts[1]);
      IndexCornerBehaviour(syn, d, lineNo, parts[1]);
      if IndexCorner(syn, d, lineNo, parts[1]).Success? {
        var a := IndexCorner(syn, d, lineNo, parts[1]).value;
        IndexCornerLeaves(syn, a.1, lineNo, parts[2]);
      }
    }
  }

  /**
   * Any line: when it returns it leaves the step's lists; when it throws it
   * leaves what `ThrownKeeps` allows, with the dedup map and `vertexList`
   * still inverse and every face and line still in range.
   */
  lemma LineLeavesBehaviour(syn: NumberSyntax, d: ObjData, lineNo: int, line: string, primitive: int)
    requires Wellformed(d)
    ensures ParseLineStep(syn, d, lineNo, line, primitive).Success? ==>
              LineLeaves(syn, d, lineNo, line, primitive) == ParseLineStep(syn, d, lineNo, line, primitive).value
    ensures ParseLineStep(syn, d, lineNo, line, primitive).Failure? ==>
              var e := LineLeaves(syn, d, lineNo, line, primitive);
              ThrownKeeps(d, e) && DedupInv(e) && IdsInRange(e) && |e.vertexList| <= |d.vertexList| + 2
  {
    var parts := Split(line, ' ');
    var r := ParseLineStep(syn, d, lineNo, line, primitive);
    var e := LineLeaves(syn, d, lineNo, line, primitive);
    if StartsWith(line, "#") || parts == [] {
    } else if parts[0] == "v" {
      assert e == PositionLeaves(syn, d, lineNo, parts);
      PositionLeavesBehaviour(syn, d, lineNo, parts);
    } else if parts[0] == "vt" {
      assert r.Failure? ==> e == d;
    } else if parts[0] == "vn" {
      assert r.Failure? ==> e == d;
    } else if parts[0] == "f" {
      assert r == ParseFaceLine(syn, d, lineNo, parts, primitive) && e == FaceLeaves(syn, d, lineNo, parts, primitive);
      FaceLineLeaves(syn, d, lineNo, parts, primitive);
    } else if parts[0] == "l" {
      assert r == ParseSegmentLine(syn, d, lineNo, parts, primitive) && e == SegmentLeaves(syn, d, lineNo, parts, primitive);
      SegmentLineLeaves(syn, d, lineNo, parts, primitive);
    }
  }

  /** `LineLeavesBehaviour` for an `f` line. */
  lemma FaceLineLeaves(syn: NumberSyntax, d: ObjData, lineNo: int, parts: seq<string>, primitive: int)
    requires Wellformed(d)
    ensures var r := ParseFaceLine(syn, d, lineNo, parts, primitive);
            var e := FaceLeaves(syn, d, lineNo, parts, primitive);
            (r.Success? ==> e == r.value)
            && (r.Failure? ==> ThrownKeeps(d, e) && DedupInv(e) && IdsInRange(e) && |e.vertexList| <= |d.vertexList| + 2)
  {
    FaceLeavesBehaviour(syn, d, lineNo, parts, primitive);
    if ParseFaceLine(syn, d, lineNo, parts, primitive).Failure? {
      CornersKeepIdsInRange(d, FaceLeaves(syn, d, lineNo, parts, primitive));
    }
  }

  /** `LineLeavesBehaviour` for an `l` line. */
  lemma SegmentLineLeaves(syn: NumberSyntax, d: ObjData, lineNo: int, parts: seq<string>, primitive: int)
    requires Wellformed(d)
    ensures var r := ParseSegmentLine(syn, d, lineNo, parts, primitive);
            var e := SegmentLeaves(syn, d, lineNo, parts, primitive);
            (r.Success? ==> e == r.value)
            && (r.Failure? ==> ThrownKeeps(d, e) && DedupInv(e) && IdsInRange(e) && |e.vertexList| <= |d.vertexList| + 2)
  {
    SegmentLeavesBehaviour(syn, d, lineNo, parts, primitive);
    if ParseSegmentLine(syn, d, lineNo, parts, primitive).Failure? {
      CornersKeepIdsInRange(d, SegmentLeaves(syn, d, lineNo, parts, primitive));
    }
  }

  // ----- Emission -----

  /** A corner's attributes once its indices are resolved against the lists. */
  datatype Corner = Corner(pos: Vec3, col: Vec4, tex: Vec2, norm: Vec3)

  /** The bounds test of `load`, as written: -1, or anything from 1 up to the list's size, passes. */
  predicate InBounds(idx: int32, size: nat) {
    !((idx != -1 && idx <= 0) || idx as int > size)
  }

  /** The three bounds checks, in order, then the lookups with their defaults. */
  function Resolve(d: ObjData, v: Vertex): Result<Corner>
    requires |d.positions| == |d.colors|
  {
    if !InBounds(v.pos, |d.positions|) then Failure(ObjFormat(v.lineNo, PositionIndexOutOfBounds(v.pos as int)))
    else if !InBounds(v.tex, |d.textures|) then Failure(ObjFormat(v.lineNo, TextureIndexOutOfBounds(v.tex as int)))
    else if !InBounds(v.norm, |d.normals|) then Failure(ObjFormat(v.lineNo, NormalIndexOutOfBounds(v.norm as int)))
    else
      Success(Corner(
        if v.pos != -1 then d.positions[v.pos as int - 1] else Vec3(0.0, 0.0, 0.0),
        if v.pos != -1 then d.colors[v.pos as int - 1] else Vec4(1.0, 1.0, 1.0, 1.0),
        if v.tex != -1 then d.textures[v.tex as int - 1] else Vec2(0.0, 0.0),
        if v.norm != -1 then d.normals[v.norm as int - 1] else Vec3(1.0, 0.0, 0.0)))
  }

  /**
   * The bounds checks of `load`: an index passes when it is -1 (absent) or
   * names an entry of its list; the position is checked first, then the
   * texture, then the normal, and the error names the line the corner was
   * first read on. An absent position gives the origin and white, an absent
   * texture (0, 0) and an absent normal (1, 0, 0).
   */
  lemma ResolveBehaviour(d: ObjData, v: Vertex)
    requires |d.positions| == |d.colors|
    ensures Resolve(d, v).Success? <==>
              (v.pos == -1 || 1 <= v.pos as int <= |d.positions|)
              && (v.tex == -1 || 1 <= v.tex as int <= |d.textures|)
              && (v.norm == -1 || 1 <= v.norm as int <= |d.normals|)
    ensures !(v.pos == -1 || 1 <= v.pos as int <= |d.positions|) ==>
              Resolve(d, v) == Failure(ObjFormat(v.lineNo, PositionIndexOutOfBounds(v.pos as int)))
    ensures Resolve(d, v).Failure? ==> Resolve(d, v).error.ObjFormat? && Resolve(d, v).error.line == v.lineNo
    ensures Resolve(d, v).Success? ==>
              var c := Resolve(d, v).value;
              (v.pos == -1 ==> c.pos == Vec3(0.0, 0.0, 0.0) && c.col == Vec4(1.0, 1.0, 1.0, 1.0))
              && (v.pos != -1 ==> c.pos == d.positions[v.pos - 1] && c.col == d.colors[v.pos - 1])
              && (v.tex == -1 ==> c.tex == Vec2(0.0, 0.0))
              && (v.tex != -1 ==> c.tex == d.textures[v.tex - 1])
              && (v.norm == -1 ==> c.norm == Vec3(1.0, 0.0, 0.0))
              && (v.norm != -1 ==> c.norm == d.normals[v.norm - 1])
  {
  }

  /** The vector `load` stores for every corner of every face when the file has no texture coordinates. */
  const UP: Vec3 := Vec3(0.0, 0.0, 1.0)

  /** Face `t` uses vertex `i`. */
  predicate Touches(t: Tri, i: int) {
    t.x == i || t.y == i || t.z == i
  }

  /**
   * The tangent pre-pass over `tris`: a table of `n` null entries, and, only
   * when there are no texture coordinates, `UP` at each corner of each face.
   */
  function TangentTable(n: nat, tris: seq<Tri>, textured: bool): (table: seq<Option<Vec3>>)
    requires forall t :: 0 <= t < |tris| ==> 0 <= tris[t].x < n && 0 <= tris[t].y < n && 0 <= tris[t].z < n
    ensures |table| == n
  {
    if tris == [] then seq(n, _ => None)
    else
      var table := TangentTable(n, tris[..|tris| - 1], textured);
      var t := tris[|tris| - 1];
      if textured then table else table[t.x := Some(UP)][t.y := Some(UP)][t.z := Some(UP)]
  }

  /**
   * `tang = tangents[i]` (and `bitang = bitangents[i]`, which always holds the
   * same): `new Vector3f()` without a table, an index error past its end, and
   * otherwise the entry, which the pre-pass may have left null.
   */
  function TangentSlot(table: Option<seq<Option<Vec3>>>, i: nat): Result<Option<Vec3>> {
    match table
    case None => Success(Some(Vec3(0.0, 0.0, 0.0)))
    case Some(t) => if i >= |t| then Failure(IndexOutOfBounds(i)) else Success(t[i])
  }

  /** Reading `tang.x`: a null entry throws. */
  function Deref(entry: Option<Vec3>): Result<Vec3> {
    match entry
    case None => Failure(NullPointer)
    case Some(v) => Success(v)
  }

  /** The tangent vertex `i` is given, or the exception reading it raises. */
  function TangentAt(table: Option<seq<Option<Vec3>>>, i: nat): Result<Vec3> {
    var entry :- TangentSlot(table, i);
    Deref(entry)
  }

  /** The first four calls of the chain: `pos`, `tex`, `col`, `norm`, in that order. */
  function FirstCalls(c: Corner): seq<Call> {
    PosTexCalls(c) + ColNormCalls(c)
  }

  function PosTexCalls(c: Corner): seq<Call> {
    [PosCall(c.pos.x, c.pos.y, c.pos.z), TexCall(c.tex.x, c.tex.y)]
  }

  function ColNormCalls(c: Corner): seq<Call> {
    [ColCall(c.col.x, c.col.y, c.col.z, c.col.w), NormCall(c.norm.x, c.norm.y, c.norm.z)]
  }

  /** The last two: `tangent` and `bitangent` with the same vector. */
  function LastCalls(tang: Vec3): seq<Call> {
    [TangentCall(tang.x, tang.y, tang.z), BitangentCall(tang.x, tang.y, tang.z)]
  }

  /** The attributes an OBJ corner supplies, in the order `load` calls them. */
  lemma CallOrder(c: Corner, tang: Vec3)
    ensures CallTypes(FirstCalls(c) + LastCalls(tang)) == Types(POS_TEX_COL4_NORM_TANG_BITANG)
  {
  }

  /** What an emission step needs of the lists: one colour per position. */
  predicate Emittable(d: ObjData) {
    |d.positions| == |d.colors|
  }

  /**
   * Vertex `i` of the loop in `load`: the bounds checks, the tangent array
   * reads, the four calls, reading `tang.x` (a null entry throws), the two
   * tangent calls, `endVertex()`.
   */
  function EmitVertexStep(attrs: seq<VertexAttribute>, num: Numerics, d: ObjData, table: Option<seq<Option<Vec3>>>,
                          s: State, i: nat): (r: Result<State>)
    requires Emittable(d) && i < |d.vertexList| && Inv(attrs, s)
    ensures r.Success? ==> Inv(attrs, r.value)
  {
    var c :- Resolve(d, d.vertexList[i]);
    var entry :- TangentSlot(table, i);
    ChainStep(attrs, num, s, c, entry)
  }

  /**
   * The call chain of one vertex: the four calls, reading `tang.x`, the two
   * tangent calls, `endVertex()`.
   */
  function ChainStep(attrs: seq<VertexAttribute>, num: Numerics, s: State, c: Corner, entry: Option<Vec3>): (r: Result<State>)
    requires Inv(attrs, s)
    ensures r.Success? ==> Inv(attrs, r.value)
  {
    var s1 :- Run(attrs, num, s, FirstCalls(c));
    var tang :- Deref(entry);
    var s2 :- Run(attrs, num, s1, LastCalls(tang));
    EndVertexBehaviour(attrs, s2);
    EndVertexStep(attrs, s2)
  }

  /** A method that returns or throws `o`, leaving the builder in `after`, ends as `r` says. */
  predicate Reaches(r: Result<State>, after: State, o: Outcome) {
    (r.Success? ==> o == Pass && after == r.value) && (r.Failure? ==> o == Fail(r.error))
  }

  /** Vertex `i` passes the bounds checks and the tangent read. */
  predicate VertexOk(d: ObjData, table: Option<seq<Option<Vec3>>>, i: nat)
    requires Emittable(d) && i < |d.vertexList|
  {
    Resolve(d, d.vertexList[i]).Success? && TangentAt(table, i).Success?
  }

  /** Every one of the first `n` vertices passes. */
  predicate VerticesOk(d: ObjData, table: Option<seq<Option<Vec3>>>, n: nat)
    requires Emittable(d) && n <= |d.vertexList|
  {
    forall j :: 0 <= j < n ==> VertexOk(d, table, j)
  }

  /** The exception vertex `i` raises when it does not pass. */
  function VertexError(d: ObjData, table: Option<seq<Option<Vec3>>>, i: nat): Exception
    requires Emittable(d) && i < |d.vertexList| && !VertexOk(d, table, i)
  {
    if Resolve(d, d.vertexList[i]).Failure? then Resolve(d, d.vertexList[i]).error else TangentAt(table, i).error
  }

  ghost predicate Ready(attrs: seq<VertexAttribute>, s: State) {
    Inv(attrs, s) && s.index == 0 && s.explicit && s.lenient
  }

  /** One more whole vertex than `s`, with the cursor back at 0 and the modes and indices kept. */
  ghost predicate OneMoreVertex(attrs: seq<VertexAttribute>, s: State, t: State) {
    Ready(attrs, t) && t.vertices == s.vertices + 1 && t.indexList == s.indexList && t.format == s.format
    && s.written <= t.written && Width(t.written) == Width(s.written) + Stride(attrs)
  }

  /**
   * A lenient explicit builder on a format the OBJ layout leniently fills,
   * given one call per slot of that layout in its order, split anywhere,
   * accepts every call and then closes exactly one vertex.
   */
  lemma ChainAddsOneVertex(attrs: seq<VertexAttribute>, num: Numerics, s: State, first: seq<Call>, last: seq<Call>)
    requires Ready(attrs, s) && LenientlyCompatible(POS_TEX_COL4_NORM_TANG_BITANG, attrs)
    requires CallTypes(first + last) == Types(POS_TEX_COL4_NORM_TANG_BITANG)
    ensures Run(attrs, num, s, first).Success?
    ensures Run(attrs, num, Run(attrs, num, s, first).value, last).Success?
    ensures EndVertexStep(attrs, Run(attrs, num, Run(attrs, num, s, first).value, last).value).Success?
    ensures OneMoreVertex(attrs, s, EndVertexStep(attrs, Run(attrs, num, Run(attrs, num, s, first).value, last).value).value)
  {
    LenientFeedFillsEverySlot(POS_TEX_COL4_NORM_TANG_BITANG, attrs, num, s, first + last);
    RunAppend(attrs, num, s, first, last);
    var s1 := Run(attrs, num, s, first).value;
    ExplicitRunKeepsCounts(attrs, num, s, first);
    var s2 := Run(attrs, num, s1, last).value;
    ExplicitRunKeepsCounts(attrs, num, s1, last);
    EndVertexBehaviour(attrs, s2);
    var t := EndVertexStep(attrs, s2).value;
    WholeVertices(attrs, s);
    WholeVertices(attrs, t);
    OneMoreStride(Width(s.written), Width(t.written), s.vertices, t.vertices, Stride(attrs));
  }

  /** `k + 1` whole vertices are one stride more than `k`. */
  lemma OneMoreStride(w0: nat, w1: nat, k0: nat, k1: nat, stride: nat)
    requires w0 == k0 * stride && w1 == k1 * stride && k1 == k0 + 1
    ensures w1 == w0 + stride
  {
  }

  /**
   * With a format the OBJ layout leniently fills, a vertex fails only on its
   * bounds checks or a null tangent; otherwise it adds exactly one whole
   * vertex, leaving the cursor at 0, the modes and the indices as they were.
   */
  lemma EmitVertexBehaviour(attrs: seq<VertexAttribute>, num: Numerics, d: ObjData, table: Option<seq<Option<Vec3>>>,
                            s: State, i: nat)
    requires Emittable(d) && i < |d.vertexList| && Ready(attrs, s)
    requires LenientlyCompatible(POS_TEX_COL4_NORM_TANG_BITANG, attrs)
    ensures EmitVertexStep(attrs, num, d, table, s, i).Success? <==> VertexOk(d, table, i)
    ensures !VertexOk(d, table, i) ==> EmitVertexStep(attrs, num, d, table, s, i) == Failure(VertexError(d, table, i))
    ensures VertexOk(d, table, i) ==> OneMoreVertex(attrs, s, EmitVertexStep(attrs, num, d, table, s, i).value)
  {
    var r := Resolve(d, d.vertexList[i]);
    if r.Success? {
      var c := r.value;
      var tang := if TangentAt(table, i).Success? then TangentAt(table, i).value else UP;
      CallOrder(c, tang);
      ChainAddsOneVertex(attrs, num, s, FirstCalls(c), LastCalls(tang));
    }
  }

  // ----- The vertex loop -----

  /**
   * `n` iterations of a loop whose body may throw: iteration `i` runs `step`
   * on the state the earlier ones left, and the first exception ends the loop.
   */
  function Loop(step: (State, nat) -> Result<State>, s: State, n: nat): Result<State> {
    if n == 0 then Success(s)
    else match Loop(step, s, n - 1)
      case Failure(e) => Failure(e)
      case Success(t) => step(t, n - 1)
  }

  /**
   * What one iteration promises when `inv` holds before it: it fails exactly
   * when `ok(i)` does not hold, then with `err(i)`, and otherwise re-establishes
   * `inv` for the next iteration.
   */
  predicate StepKeeps(step: (State, nat) -> Result<State>, inv: (State, nat) -> bool,
                      ok: nat -> bool, err: nat -> Exception, t: State, i: nat) {
    (step(t, i).Success? <==> ok(i))
    && (!ok(i) ==> step(t, i) == Failure(err(i)))
    && (ok(i) ==> inv(step(t, i).value, i + 1))
  }

  /**
   * Induction over the loop: if every iteration keeps its promise, the loop
   * succeeds exactly when every iteration is ok, ends in a state satisfying the
   * invariant, and otherwise fails with the error of the first iteration that
   * is not ok.
   */
  lemma {:induction false} LoopBehaviour(step: (State, nat) -> Result<State>, s: State, n: nat,
                                         inv: (State, nat) -> bool, ok: nat -> bool, err: nat -> Exception)
    requires inv(s, 0)
    requires forall t, i :: 0 <= i < n && inv(t, i) ==> StepKeeps(step, inv, ok, err, t, i)
    ensures Loop(step, s, n).Success? <==> forall j :: 0 <= j < n ==> ok(j)
    ensures Loop(step, s, n).Success? ==> inv(Loop(step, s, n).value, n)
    ensures Loop(step, s, n).Failure? ==>
              exists k :: 0 <= k < n && !ok(k) && (forall j :: 0 <= j < k ==> ok(j)) && Loop(step, s, n).error == err(k)
  {
    if n > 0 {
      LoopBehaviour(step, s, n - 1, inv, ok, err);
      var prev := Loop(step, s, n - 1);
      if prev.Success? {
        assert StepKeeps(step, inv, ok, err, prev.value, n - 1);
        if ok(n - 1) {
          forall j | 0 <= j < n
            ensures ok(j)
          {
            if j < n - 1 {
              assert ok(j);
            }
          }
        } else {
          assert !(forall j :: 0 <= j < n ==> ok(j));
        }
      } else {
        var k :| 0 <= k < n - 1 && !ok(k) && (forall j :: 0 <= j < k ==> ok(j)) && prev.error == err(k);
        assert !(forall j :: 0 <= j < n ==> ok(j));
      }
    }
  }

  /** Iteration `i` of the vertex loop of `load`. */
  ghost function VertexStep(attrs: seq<VertexAttribute>, num: Numerics, d: ObjData,
                            table: Option<seq<Option<Vec3>>>): (State, nat) -> Result<State>
    requires Emittable(d)
  {
    (t: State, i: nat) =>
      if i < |d.vertexList| && Inv(attrs, t) then EmitVertexStep(attrs, num, d, table, t, i)
      else Failure(Assertion)
  }

  /** The first `n` iterations of the vertex loop. */
  ghost function EmitVertices(attrs: seq<VertexAttribute>, num: Numerics, d: ObjData,
                              table: Option<seq<Option<Vec3>>>, s: State, n: nat): Result<State>
    requires Emittable(d)
  {
    Loop(VertexStep(attrs, num, d, table), s, n)
  }

  /**
   * `t` is what `i` iterations of the vertex loop leave from `s`: `i` more whole
   * vertices, the cursor at 0, the modes and the indices kept.
   */
  ghost predicate After(attrs: seq<VertexAttribute>, s: State, t: State, i: nat) {
    Ready(attrs, t) && t.vertices == s.vertices + i && t.indexList == s.indexList && t.format == s.format
    && s.written <= t.written && Width(t.written) == Width(s.written) + i * Stride(attrs)
  }

  /** `After` from `s`, the passing vertices and their exceptions, as the loop induction takes them. */
  ghost function AfterFrom(attrs: seq<VertexAttribute>, s: State): (State, nat) -> bool {
    (t: State, i: nat) => After(attrs, s, t, i)
  }

  function PassesAt(d: ObjData, table: Option<seq<Option<Vec3>>>): nat -> bool
    requires Emittable(d)
  {
    (i: nat) => i < |d.vertexList| && VertexOk(d, table, i)
  }

  function ErrorAt(d: ObjData, table: Option<seq<Option<Vec3>>>): nat -> Exception
    requires Emittable(d)
  {
    (i: nat) => if i < |d.vertexList| && !VertexOk(d, table, i) then VertexError(d, table, i) else Assertion
  }

  /** On a format the OBJ layout leniently fills, each iteration keeps its promise. */
  lemma VertexStepKeeps(attrs: seq<VertexAttribute>, num: Numerics, d: ObjData, table: Option<seq<Option<Vec3>>>,
                        s: State, t: State, i: nat)
    requires Emittable(d) && i < |d.vertexList| && After(attrs, s, t, i)
    requires LenientlyCompatible(POS_TEX_COL4_NORM_TANG_BITANG, attrs)
    ensures StepKeeps(VertexStep(attrs, num, d, table), AfterFrom(attrs, s), PassesAt(d, table), ErrorAt(d, table), t, i)
  {
    var step := EmitVertexStep(attrs, num, d, table, t, i);
    EmitVertexBehaviour(attrs, num, d, table, t, i);
    if step.Success? {
      OneMoreVertices(Width(s.written), Width(t.written), Width(step.value.written), i, Stride(attrs));
    }
  }

  lemma VertexStepsKeep(attrs: seq<VertexAttribute>, num: Numerics, d: ObjData, table: Option<seq<Option<Vec3>>>,
                        s: State, n: nat)
    requires Emittable(d) && n <= |d.vertexList|
    requires LenientlyCompatible(POS_TEX_COL4_NORM_TANG_BITANG, attrs)
    ensures forall t, i :: 0 <= i < n && AfterFrom(attrs, s)(t, i) ==>
              StepKeeps(VertexStep(attrs, num, d, table), AfterFrom(attrs, s), PassesAt(d, table), ErrorAt(d, table), t, i)
  {
    forall t, i | 0 <= i < n && AfterFrom(attrs, s)(t, i)
      ensures StepKeeps(VertexStep(attrs, num, d, table), AfterFrom(attrs, s), PassesAt(d, table), ErrorAt(d, table), t, i)
    {
      VertexStepKeeps(attrs, num, d, table, s, t, i);
    }
  }

  lemma OneMoreVertices(w0: nat, w1: nat, w2: nat, n: nat, stride: nat)
    requires w1 == w0 + n * stride && w2 == w1 + stride
    ensures w2 == w0 + (n + 1) * stride
  {
  }

  lemma PassesAtAll(d: ObjData, table: Option<seq<Option<Vec3>>>, n: nat)
    requires Emittable(d) && n <= |d.vertexList|
    ensures (forall j :: 0 <= j < n ==> PassesAt(d, table)(j)) <==> VerticesOk(d, table, n)
  {
    if forall j :: 0 <= j < n ==> PassesAt(d, table)(j) {
      forall j | 0 <= j < n
        ensures VertexOk(d, table, j)
      {
        assert PassesAt(d, table)(j);
      }
    } else {
      var j :| 0 <= j < n && !PassesAt(d, table)(j);
      assert !VertexOk(d, table, j);
    }
  }

  /**
   * The vertex loop of `load`, on a format the OBJ layout leniently fills,
   * succeeds exactly when every vertex passes its bounds checks and its
   * tangent read.
   */
  lemma EmitVerticesSucceeds(attrs: seq<VertexAttribute>, num: Numerics, d: ObjData,
                              table: Option<seq<Option<Vec3>>>, s: State, n: nat)
    requires Emittable(d) && n <= |d.vertexList| && Ready(attrs, s)
    requires LenientlyCompatible(POS_TEX_COL4_NORM_TANG_BITANG, attrs)
    ensures EmitVertices(attrs, num, d, table, s, n).Success? <==> VerticesOk(d, table, n)
  {
    PassesAtAll(d, table, n);
    VertexStepsKeep(attrs, num, d, table, s, n);
    assert AfterFrom(attrs, s)(s, 0);
    LoopBehaviour(VertexStep(attrs, num, d, table), s, n, AfterFrom(attrs, s), PassesAt(d, table), ErrorAt(d, table));
  }

  /** When it succeeds, it has added one whole vertex per vertex. */
  lemma EmitVerticesState(attrs: seq<VertexAttribute>, num: Numerics, d: ObjData,
                              table: Option<seq<Option<Vec3>>>, s: State, n: nat)
    requires Emittable(d) && n <= |d.vertexList| && Ready(attrs, s)
    requires LenientlyCompatible(POS_TEX_COL4_NORM_TANG_BITANG, attrs)
    ensures EmitVertices(attrs, num, d, table, s, n).Success? ==> After(attrs, s, EmitVertices(attrs, num, d, table, s, n).value, n)
  {
    VertexStepsKeep(attrs, num, d, table, s, n);
    assert AfterFrom(attrs, s)(s, 0);
    LoopBehaviour(VertexStep(attrs, num, d, table), s, n, AfterFrom(attrs, s), PassesAt(d, table), ErrorAt(d, table));
  }

  /** Otherwise it stops at the first vertex that does not pass, with that vertex's exception. */
  lemma EmitVerticesFailure(attrs: seq<VertexAttribute>, num: Numerics, d: ObjData,
                              table: Option<seq<Option<Vec3>>>, s: State, n: nat)
    requires Emittable(d) && n <= |d.vertexList| && Ready(attrs, s)
    requires LenientlyCompatible(POS_TEX_COL4_NORM_TANG_BITANG, attrs)
    ensures EmitVertices(attrs, num, d, table, s, n).Failure? ==>
              exists k :: 0 <= k < n && !VertexOk(d, table, k) && VerticesOk(d, table, k)
                          && EmitVertices(attrs, num, d, table, s, n).error == VertexError(d, table, k)
  {
    VertexStepsKeep(attrs, num, d, table, s, n);
    assert AfterFrom(attrs, s)(s, 0);
    LoopBehaviour(VertexStep(attrs, num, d, table), s, n, AfterFrom(attrs, s), PassesAt(d, table), ErrorAt(d, table));
    if EmitVertices(attrs, num, d, table, s, n).Failure? {
      var k :| 0 <= k < n && !PassesAt(d, table)(k) && (forall j :: 0 <= j < k ==> PassesAt(d, table)(j))
               && EmitVertices(attrs, num, d, table, s, n).error == ErrorAt(d, table)(k);
      PassesAtAll(d, table, k);
    }
  }

  // ----- Index emission -----

  /** An id as the Java `int` `indices.size()` returns: as the `Map.size` contract states, it saturates at `Integer.MAX_VALUE`. */
  function JavaInt(id: nat): (r: int32)
    ensures id < 0x8000_0000 ==> r as int == id
  {
    if id < 0x8000_0000 then id as int32 else 0x7fff_ffff
  }

  /** The ids of a face or a line as `indices(...)` receives them. */
  function TriIndices(t: Tri): seq<int32>
    requires t.x >= 0 && t.y >= 0 && t.z >= 0
  {
    [JavaInt(t.x), JavaInt(t.y), JavaInt(t.z)]
  }

  function SegIndices(l: Seg): seq<int32>
    requires l.x >= 0 && l.y >= 0
  {
    [JavaInt(l.x), JavaInt(l.y)]
  }

  /** The `indices(...)` calls of `load`: one per face for triangles, one per line for lines, none otherwise. */
  function IndexGroups(d: ObjData, primitive: int): (groups: seq<seq<int32>>)
    requires IdsInRange(d)
    ensures primitive == GL_TRIANGLES ==> |groups| == |d.tris|
    ensures primitive == GL_LINES ==> |groups| == |d.lines|
    ensures primitive != GL_TRIANGLES && primitive != GL_LINES ==> groups == []
  {
    if primitive == GL_TRIANGLES then seq(|d.tris|, i requires 0 <= i < |d.tris| => TriIndices(d.tris[i]))
    else if primitive == GL_LINES then seq(|d.lines|, i requires 0 <= i < |d.lines| => SegIndices(d.lines[i]))
    else []
  }

  function Flatten(groups: seq<seq<int32>>): seq<int32> {
    if groups == [] then [] else Flatten(groups[..|groups| - 1]) + groups[|groups| - 1]
  }

  /** Iteration `i` of the index loop of `load`. */
  function IndexStep(attrs: seq<VertexAttribute>, groups: seq<seq<int32>>): (State, nat) -> Result<State> {
    (t: State, i: nat) => if i < |groups| then IndicesStep(attrs, t, groups[i]) else Failure(Assertion)
  }

  /** The index loop of `load`. */
  function EmitIndices(attrs: seq<VertexAttribute>, s: State, groups: seq<seq<int32>>): Result<State> {
    Loop(IndexStep(attrs, groups), s, |groups|)
  }

  /** Every id of every group names one of the first `n` vertices. */
  predicate GroupsBelow(groups: seq<seq<int32>>, n: int) {
    forall g :: 0 <= g < |groups| ==> AllBelow(groups[g], n)
  }

  /** After `i` index calls: the first `i` groups appended, everything else as in `s`. */
  ghost function IndexedFrom(attrs: seq<VertexAttribute>, s: State, groups: seq<seq<int32>>): (State, nat) -> bool {
    (t: State, i: nat) => i <= |groups| && Inv(attrs, t) && t == s.(indexList := s.indexList + Flatten(groups[..i]))
  }

  function StrideAt(attrs: seq<VertexAttribute>): nat -> bool {
    (i: nat) => Stride(attrs) > 0
  }

  function ArithmeticAt(): nat -> Exception {
    (i: nat) => Arithmetic
  }

  lemma IndexStepKeeps(attrs: seq<VertexAttribute>, s: State, groups: seq<seq<int32>>, t: State, i: nat)
    requires Inv(attrs, s) && s.index == 0 && GroupsBelow(groups, s.vertices)
    requires i < |groups| && IndexedFrom(attrs, s, groups)(t, i)
    ensures StepKeeps(IndexStep(attrs, groups), IndexedFrom(attrs, s, groups), StrideAt(attrs), ArithmeticAt(), t, i)
  {
    IndicesBehaviour(attrs, t, groups[i]);
    assert AllBelow(groups[i], t.vertices);
    assert groups[..i + 1][..i] == groups[..i];
    assert Flatten(groups[..i + 1]) == Flatten(groups[..i]) + groups[i];
  }

  /**
   * The index loop of `load`, after whole vertices and with every id naming
   * one of them, fails only on an empty format, with the division by zero of
   * `indices`; otherwise it appends every group in order.
   */
  lemma EmitIndicesBehaviour(attrs: seq<VertexAttribute>, s: State, groups: seq<seq<int32>>)
    requires Inv(attrs, s) && s.index == 0 && GroupsBelow(groups, s.vertices)
    ensures EmitIndices(attrs, s, groups).Success? <==> groups == [] || Stride(attrs) > 0
    ensures EmitIndices(attrs, s, groups).Failure? ==> EmitIndices(attrs, s, groups).error == Arithmetic
    ensures EmitIndices(attrs, s, groups).Success? ==>
              EmitIndices(attrs, s, groups).value == s.(indexList := s.indexList + Flatten(groups))
  {
    forall t, i | 0 <= i < |groups| && IndexedFrom(attrs, s, groups)(t, i)
      ensures StepKeeps(IndexStep(attrs, groups), IndexedFrom(attrs, s, groups), StrideAt(attrs), ArithmeticAt(), t, i)
    {
      IndexStepKeeps(attrs, s, groups, t, i);
    }
    assert groups[..0] == [];
    assert s == s.(indexList := s.indexList + Flatten(groups[..0]));
    LoopBehaviour(IndexStep(attrs, groups), s, |groups|, IndexedFrom(attrs, s, groups), StrideAt(attrs), ArithmeticAt());
    assert groups[..|groups|] == groups;
    if groups != [] && Stride(attrs) == 0 {
      assert !StrideAt(attrs)(0);
    }
  }

  // ----- The whole of `load` -----

  /** The tangent arrays `load` leaves: new ones only when the format has both tangent attributes. */
  function TablePass(attrs: seq<VertexAttribute>, d: ObjData, table: Option<seq<Option<Vec3>>>): Option<seq<Option<Vec3>>>
    requires IdsInRange(d)
  {
    if (exists a :: a in attrs && TypeOf(a) == Tangent) && (exists a :: a in attrs && TypeOf(a) == Bitangent)
    then Some(TangentTable(|d.vertexList|, d.tris, |d.textures| != 0))
    else table
  }

  /** The builder `load` starts from: fresh, then `setLenient(true).setExplicit(true)`. */
  function LoadStart(format: VertexFormat): State {
    Initial(format).(lenient := true, explicit := true)
  }

  /** The builder part of `load` on parsed data `d` and tangent table `table`: the vertex loop, then the index loop. */
  ghost function EmitAll(num: Numerics, format: VertexFormat, primitive: int, d: ObjData,
                         table: Option<seq<Option<Vec3>>>): Result<State>
    requires Wellformed(d)
  {
    var attrs := format.attributes;
    var t1 := EmitVertices(attrs, num, d, table, LoadStart(format), |d.vertexList|);
    if t1.Failure? then Failure(t1.error) else EmitIndices(attrs, t1.value, IndexGroups(d, primitive))
  }

  /**
   * `load(vertexFormat, primitiveType)` up to `createMesh()`, from a loader
   * holding `d` and `table` with `source` left to read: the builder's state,
   * or the exception that ends it.
   */
  ghost function LoadState(syn: NumberSyntax, num: Numerics, format: VertexFormat, primitive: int,
                           d: ObjData, table: Option<seq<Option<Vec3>>>, source: seq<string>): Result<State>
    requires Wellformed(d)
  {
    if !LenientlyCompatible(POS_TEX_COL4_NORM_TANG_BITANG, format.attributes) then Failure(IllegalState(IncompatibleObjFormat))
    else
      var e :- ParseLines(syn, d, source, primitive);
      EmitAll(num, format, primitive, e, TablePass(format.attributes, e, table))
  }

  /**
   * What `createMesh()` gives on a builder left in `t` between vertices, on
   * buffers that started empty: it refuses an unknown primitive type, and an
   * empty format without indices; otherwise the uploaded data starts with the
   * vertex bytes and the index bytes, and the mesh draws the indices, or the
   * vertices when there are none.
   */
  predicate MadeMesh(num: Numerics, primitive: int, t: State, r: Result<BakedMesh>) {
    var known := primitive == GL_TRIANGLES || primitive == GL_LINES;
    var made :=
      (r.Failure? <==> !known || (|t.indexList| == 0 && Stride(t.format.attributes) == 0))
      && (r.Failure? ==> r.error == if !known then IllegalArgument(UnsupportedPrimitive(primitive)) else Arithmetic)
      && (r.Success? ==>
            var m := r.value;
            Encode(num, t.written) <= m.vertexData
            && (primitive == GL_TRIANGLES <==> m.kind in {Baked, IndicesBaked})
            && (|t.indexList| > 0 <==> m.kind in {IndicesBaked, LineIndicesBaked})
            && (|t.indexList| > 0 ==> m.count == |t.indexList| && EncodeIndices(t.indexList) <= m.indexData)
            && (|t.indexList| == 0 ==> m.count == t.vertices && m.indexData == []));
    made
  }

  /** What the whole of `load` returns: its exception, or the mesh `createMesh()` makes of the builder. */
  predicate Loaded(num: Numerics, primitive: int, l: Result<State>, r: Result<BakedMesh>) {
    (l.Failure? ==> r == Failure(l.error)) && (l.Success? ==> MadeMesh(num, primitive, l.value, r))
  }

  /**
   * The format check comes first: a format the OBJ layout cannot leniently
   * fill is refused before any line is read; otherwise a parse error is the
   * exception of the whole load.
   */
  lemma LoadChecksFormatFirst(syn: NumberSyntax, num: Numerics, format: VertexFormat, primitive: int,
                              d: ObjData, table: Option<seq<Option<Vec3>>>, source: seq<string>)
    requires Wellformed(d)
    ensures !LenientlyCompatible(POS_TEX_COL4_NORM_TANG_BITANG, format.attributes) ==>
              LoadState(syn, num, format, primitive, d, table, source) == Failure(IllegalState(IncompatibleObjFormat))
    ensures LenientlyCompatible(POS_TEX_COL4_NORM_TANG_BITANG, format.attributes)
            && ParseLines(syn, d, source, primitive).Failure? ==>
              LoadState(syn, num, format, primitive, d, table, source) == Failure(ParseLines(syn, d, source, primitive).error)
  {
  }

  /** A format the OBJ layout leniently fills has no empty slot, so it has a zero stride only when it is empty. */
  lemma ObjFormatStride(attrs: seq<VertexAttribute>)
    requires LenientlyCompatible(POS_TEX_COL4_NORM_TANG_BITANG, attrs)
    ensures Stride(attrs) == 0 <==> attrs == []
  {
    if attrs != [] {
      var parent := Types(POS_TEX_COL4_NORM_TANG_BITANG);
      GreedySound(parent, Types(attrs));
      assert Types(attrs)[..Greedy(parent, Types(attrs))] == Types(attrs);
      var e: seq<nat> :| Embeds(Types(attrs), parent, e);
      var last := |attrs| - 1;
      assert parent[e[last]] == TypeOf(attrs[last]);
      NullIsUnique(attrs[last]);
      NonNullShape(attrs[last]);
    }
  }

  /** Every id `load` passes to `indices` names one of the vertices it emitted. */
  lemma IndexGroupsBelow(d: ObjData, primitive: int)
    requires IdsInRange(d)
    ensures GroupsBelow(IndexGroups(d, primitive), |d.vertexList|)
  {
    var groups := IndexGroups(d, primitive);
    forall g | 0 <= g < |groups|
      ensures AllBelow(groups[g], |d.vertexList|)
    {
      if primitive == GL_TRIANGLES {
        assert groups[g] == TriIndices(d.tris[g]);
      } else {
        assert groups[g] == SegIndices(d.lines[g]);
      }
    }
  }

  /**
   * The builder part of `load`, on well-formed data and a format the OBJ
   * layout leniently fills, succeeds exactly when every vertex passes its
   * bounds checks and its tangent read and, if there are faces or lines to
   * index, the format is not empty. It fails with the first failing vertex's
   * exception, or with the division by zero of `indices` on an empty format;
   * no builder exception (an incomplete vertex, a wrong type, an index out of
   * range) can occur. On success the builder holds one whole vertex per id,
   * in id order, and exactly the ids of the faces or lines, in file order.
   */
  lemma EmitAllBehaviour(num: Numerics, format: VertexFormat, primitive: int, e: ObjData, tab: Option<seq<Option<Vec3>>>)
    requires Wellformed(e) && LenientlyCompatible(POS_TEX_COL4_NORM_TANG_BITANG, format.attributes)
    ensures var groups := IndexGroups(e, primitive);
            var r := EmitAll(num, format, primitive, e, tab);
            (r.Success? <==> VerticesOk(e, tab, |e.vertexList|) && (groups == [] || format.attributes != []))
            && (r.Failure? ==>
                  (exists k :: 0 <= k < |e.vertexList| && !VertexOk(e, tab, k) && VerticesOk(e, tab, k)
                               && r.error == VertexError(e, tab, k))
                  || (VerticesOk(e, tab, |e.vertexList|) && groups != [] && format.attributes == [] && r.error == Arithmetic))
            && (r.Success? ==>
                  r.value.format == format && r.value.index == 0 && r.value.lenient && r.value.explicit
                  && r.value.vertices == |e.vertexList| && r.value.indexList == Flatten(groups)
                  && Width(r.value.written) == |e.vertexList| * Stride(format.attributes))
  {
    var attrs := format.attributes;
    var groups := IndexGroups(e, primitive);
    var n := |e.vertexList|;
    var s0 := LoadStart(format);
    InitialInv(attrs, format);
    assert Ready(attrs, s0);
    EmitVerticesSucceeds(attrs, num, e, tab, s0, n);
    EmitVerticesState(attrs, num, e, tab, s0, n);
    EmitVerticesFailure(attrs, num, e, tab, s0, n);
    var t1 := EmitVertices(attrs, num, e, tab, s0, n);
    if t1.Success? {
      IndexGroupsBelow(e, primitive);
      EmitIndicesBehaviour(attrs, t1.value, groups);
      ObjFormatStride(attrs);
    }
  }

  /** The builder part of `load`, when it succeeds, leaves the builder between vertices, with its format. */
  lemma EmitAllEndsBetweenVertices(num: Numerics, format: VertexFormat, primitive: int, e: ObjData,
                                   tab: Option<seq<Option<Vec3>>>)
    requires Wellformed(e) && LenientlyCompatible(POS_TEX_COL4_NORM_TANG_BITANG, format.attributes)
    ensures EmitAll(num, format, primitive, e, tab).Success? ==>
              EmitAll(num, format, primitive, e, tab).value.index == 0
              && EmitAll(num, format, primitive, e, tab).value.format == format
  {
    EmitAllBehaviour(num, format, primitive, e, tab);
  }

  /**
   * Once the lines are parsed, `load` on a format the OBJ layout leniently
   * fills behaves as `EmitAllBehaviour` says of the parsed data and the
   * pre-pass's tangent table.
   */
  lemma LoadBehaviour(syn: NumberSyntax, num: Numerics, format: VertexFormat, primitive: int,
                      d: ObjData, table: Option<seq<Option<Vec3>>>, source: seq<string>)
    requires Wellformed(d) && LenientlyCompatible(POS_TEX_COL4_NORM_TANG_BITANG, format.attributes)
    requires ParseLines(syn, d, source, primitive).Success?
    ensures var e := ParseLines(syn, d, source, primitive).value;
            var tab := TablePass(format.attributes, e, table);
            var groups := IndexGroups(e, primitive);
            var r := LoadState(syn, num, format, primitive, d, table, source);
            (r.Success? <==> VerticesOk(e, tab, |e.vertexList|) && (groups == [] || format.attributes != []))
            && (r.Failure? ==>
                  (exists k :: 0 <= k < |e.vertexList| && !VertexOk(e, tab, k) && VerticesOk(e, tab, k)
                               && r.error == VertexError(e, tab, k))
                  || (VerticesOk(e, tab, |e.vertexList|) && groups != [] && format.attributes == [] && r.error == Arithmetic))
            && (r.Success? ==>
                  r.value.format == format && r.value.index == 0 && r.value.lenient && r.value.explicit
                  && r.value.vertices == |e.vertexList| && r.value.indexList == Flatten(groups)
                  && Width(r.value.written) == |e.vertexList| * Stride(format.attributes))
  {
    var e := ParseLines(syn, d, source, primitive).value;
    EmitAllBehaviour(num, format, primitive, e, TablePass(format.attributes, e, table));
  }

  // ----- The tangent pre-pass -----

  /**
   * The pre-pass puts `UP` exactly at the vertices some face uses, and only
   * when the file has no texture coordinates; every other entry stays null.
   */
  lemma {:induction false} TangentTableCover(n: nat, tris: seq<Tri>, textured: bool, i: nat)
    requires forall t :: 0 <= t < |tris| ==> 0 <= tris[t].x < n && 0 <= tris[t].y < n && 0 <= tris[t].z < n
    requires i < n
    ensures TangentTable(n, tris, textured)[i] ==
            if !textured && exists t :: 0 <= t < |tris| && Touches(tris[t], i) then Some(UP) else None
  {
    if tris != [] {
      var init := tris[..|tris| - 1];
      var last := tris[|tris| - 1];
      assert forall t :: 0 <= t < |init| ==> init[t] == tris[t];
      TangentTableCover(n, init, textured, i);
      if !textured {
        if Touches(last, i) {
          assert Touches(tris[|tris| - 1], i);
        } else if exists t :: 0 <= t < |tris| && Touches(tris[t], i) {
          var t :| 0 <= t < |tris| && Touches(tris[t], i);
          assert t < |init| && Touches(init[t], i);
        }
      }
    }
  }

  /**
   * The pre-pass has no generator for textured files: with both tangent
   * attributes in the format and a texture coordinate read, every entry of
   * the table is null, so every vertex that passes its bounds checks throws
   * a null pointer exception.
   */
  lemma TexturedTangentsAreNull(attrs: seq<VertexAttribute>, d: ObjData, table: Option<seq<Option<Vec3>>>, i: nat)
    requires IdsInRange(d) && Emittable(d) && i < |d.vertexList| && |d.textures| != 0
    requires (exists a :: a in attrs && TypeOf(a) == Tangent) && (exists a :: a in attrs && TypeOf(a) == Bitangent)
    ensures TangentAt(TablePass(attrs, d, table), i) == Failure(NullPointer)
    ensures !VertexOk(d, TablePass(attrs, d, table), i)
    ensures Resolve(d, d.vertexList[i]).Success? ==> VertexError(d, TablePass(attrs, d, table), i) == NullPointer
  {
    TangentTableCover(|d.vertexList|, d.tris, true, i);
  }

  /**
   * Hence `load` never succeeds on a textured file with at least one corner
   * when the format asks for tangents: it throws on the first vertex, with a
   * null pointer exception unless that vertex fails its bounds checks.
   */
  lemma TexturedTangentLoadFails(syn: NumberSyntax, num: Numerics, format: VertexFormat, primitive: int,
                                 d: ObjData, table: Option<seq<Option<Vec3>>>, source: seq<string>)
    requires Wellformed(d) && LenientlyCompatible(POS_TEX_COL4_NORM_TANG_BITANG, format.attributes)
    requires ParseLines(syn, d, source, primitive).Success?
    requires var e := ParseLines(syn, d, source, primitive).value; |e.textures| != 0 && |e.vertexList| != 0
    requires (exists a :: a in format.attributes && TypeOf(a) == Tangent)
             && (exists a :: a in format.attributes && TypeOf(a) == Bitangent)
    ensures var e := ParseLines(syn, d, source, primitive).value;
            var r := LoadState(syn, num, format, primitive, d, table, source);
            r.Failure? && !VertexOk(e, TablePass(format.attributes, e, table), 0)
            && r.error == VertexError(e, TablePass(format.attributes, e, table), 0)
            && (Resolve(e, e.vertexList[0]).Success? ==> r.error == NullPointer)
  {
    var e := ParseLines(syn, d, source, primitive).value;
    var tab := TablePass(format.attributes, e, table);
    LoadBehaviour(syn, num, format, primitive, d, table, source);
    TexturedTangentsAreNull(format.attributes, e, table, 0);
    var r := LoadState(syn, num, format, primitive, d, table, source);
    if r.Failure? && exists k :: 0 <= k < |e.vertexList| && !VertexOk(e, tab, k) && VerticesOk(e, tab, k)
                                 && r.error == VertexError(e, tab, k) {
      var k :| 0 <= k < |e.vertexList| && !VertexOk(e, tab, k) && VerticesOk(e, tab, k) && r.error == VertexError(e, tab, k);
      assert k == 0;
    }
  }

  // ----- The loader object -----

  /** A failure of the first `k` lines is the failure of the whole file. */
  lemma {:induction false} ParseLinesStopAtFailure(syn: NumberSyntax, d: ObjData, source: seq<string>, k: nat, primitive: int)
    requires Wellformed(d) && k <= |source| && ParseLines(syn, d, source[..k], primitive).Failure?
    ensures ParseLines(syn, d, source, primitive) == ParseLines(syn, d, source[..k], primitive)
  {
    if k == |source| {
      assert source[..k] == source;
    } else {
      var init := source[..|source| - 1];
      assert init[..k] == source[..k];
      ParseLinesStopAtFailure(syn, d, init, k, primitive);
    }
  }

  /** Parsing one line more is one more `ParseLineStep`, numbered with its position from 1. */
  lemma ParseLinesNext(syn: NumberSyntax, d: ObjData, source: seq<string>, k: nat, primitive: int)
    requires Wellformed(d) && k < |source| && ParseLines(syn, d, source[..k], primitive).Success?
    ensures ParseLines(syn, d, source[..k + 1], primitive)
            == ParseLineStep(syn, ParseLines(syn, d, source[..k], primitive).value, k + 1, source[k], primitive)
  {
    assert source[..k + 1][..k] == source[..k];
  }

  /**
   * Line `k + 1` is where `source` fails: the lines before it parse, and
   * parsing that line gives the whole file's error, which names the line (or
   * is the missing first word of a line of spaces).
   */
  ghost predicate FailsAtLine(syn: NumberSyntax, d: ObjData, source: seq<string>, primitive: int, k: nat)
    requires Wellformed(d)
  {
    k < |source| && ParseLines(syn, d, source[..k], primitive).Success?
    && ParseLines(syn, d, source, primitive).Failure?
    && ParseLineStep(syn, ParseLines(syn, d, source[..k], primitive).value, k + 1, source[k], primitive)
       == ParseLines(syn, d, source, primitive)
    && var e := ParseLines(syn, d, source, primitive).error;
       (e.ObjFormat? && e.line == k + 1) || e == IndexOutOfBounds(0)
  }

  /** A failure at line `k + 1` of the file without its last line is a failure at the same line of the whole file. */
  lemma FailsAtLineExtend(syn: NumberSyntax, d: ObjData, source: seq<string>, primitive: int, k: nat)
    requires Wellformed(d) && source != [] && FailsAtLine(syn, d, source[..|source| - 1], primitive, k)
    ensures FailsAtLine(syn, d, source, primitive, k)
  {
    var init := source[..|source| - 1];
    var before := source[..k];
    assert init[..k] == before && init[k] == source[k];
    assert ParseLines(syn, d, init, primitive).Failure?;
    assert ParseLines(syn, d, source, primitive) == ParseLines(syn, d, init, primitive);
    assert ParseLines(syn, d, before, primitive).Success?;
  }

  /** A file whose lines parse but for the last, which throws, fails at its last line. */
  lemma FailsAtLastLine(syn: NumberSyntax, d: ObjData, source: seq<string>, primitive: int)
    requires Wellformed(d) && source != [] && ParseLines(syn, d, source[..|source| - 1], primitive).Success?
    requires ParseLines(syn, d, source, primitive).Failure?
    ensures FailsAtLine(syn, d, source, primitive, |source| - 1)
  {
    var n := |source|;
    ParseLinesNext(syn, d, source, n - 1, primitive);
    assert source[..n] == source;
    LineErrorsNameTheLine(syn, ParseLines(syn, d, source[..n - 1], primitive).value, n, source[n - 1], primitive);
  }

  /** A file that fails to parse fails at its first bad line, and the error names that line. */
  lemma {:induction false} ParseErrorsNameTheirLine(syn: NumberSyntax, d: ObjData, source: seq<string>, primitive: int)
    requires Wellformed(d)
    ensures ParseLines(syn, d, source, primitive).Failure? ==> exists k :: FailsAtLine(syn, d, source, primitive, k)
  {
    if source != [] && ParseLines(syn, d, source, primitive).Failure? {
      var init := source[..|source| - 1];
      if ParseLines(syn, d, init, primitive).Failure? {
        ParseErrorsNameTheirLine(syn, d, init, primitive);
        var k :| FailsAtLine(syn, d, init, primitive, k);
        FailsAtLineExtend(syn, d, source, primitive, k);
      } else {
        FailsAtLastLine(syn, d, source, primitive);
      }
    }
  }

  /**
   * The lists the `while (scan.hasNextLine())` loop leaves, whether it ends
   * or throws: those of the lines before the first bad one, and what that
   * line added before it threw.
   */
  function LinesLeave(syn: NumberSyntax, d: ObjData, source: seq<string>, primitive: int): ObjData
    requires Wellformed(d)
  {
    if source == [] then d
    else
      var init := source[..|source| - 1];
      match ParseLines(syn, d, init, primitive)
      case Failure(_) => LinesLeave(syn, d, init, primitive)
      case Success(e) => LineLeaves(syn, e, |source|, source[|source| - 1], primitive)
  }

  /** How many lines the loop takes from the scanner: all of them, or those up to and including the first that throws. */
  function LinesConsumed(syn: NumberSyntax, d: ObjData, source: seq<string>, primitive: int): (c: nat)
    requires Wellformed(d)
    ensures c <= |source|
  {
    if source == [] then 0
    else if ParseLines(syn, d, source[..|source| - 1], primitive).Failure? then LinesConsumed(syn, d, source[..|source| - 1], primitive)
    else |source|
  }

  /** A file that parses leaves its parsed lists, and every line is taken from the scanner. */
  lemma LinesLeaveOnSuccess(syn: NumberSyntax, d: ObjData, source: seq<string>, primitive: int)
    requires Wellformed(d) && ParseLines(syn, d, source, primitive).Success?
    ensures LinesLeave(syn, d, source, primitive) == ParseLines(syn, d, source, primitive).value
    ensures LinesConsumed(syn, d, source, primitive) == |source|
  {
    if source != [] {
      var init := source[..|source| - 1];
      var e := ParseLines(syn, d, init, primitive).value;
      LineLeavesBehaviour(syn, e, |source|, source[|source| - 1], primitive);
    }
  }

  /** After a failure in the first `k` lines, the rest of the file is neither read nor parsed. */
  lemma {:induction false} LinesLeaveStopAtFailure(syn: NumberSyntax, d: ObjData, source: seq<string>, k: nat, primitive: int)
    requires Wellformed(d) && k <= |source| && ParseLines(syn, d, source[..k], primitive).Failure?
    ensures LinesLeave(syn, d, source, primitive) == LinesLeave(syn, d, source[..k], primitive)
    ensures LinesConsumed(syn, d, source, primitive) == LinesConsumed(syn, d, source[..k], primitive)
  {
    if k == |source| {
      assert source[..k] == source;
    } else {
      var init := source[..|source| - 1];
      assert init[..k] == source[..k];
      ParseLinesStopAtFailure(syn, d, init, k, primitive);
      LinesLeaveStopAtFailure(syn, d, init, k, primitive);
    }
  }

  /**
   * A file that throws is read up to and including its first bad line `c`:
   * the lines before it parse, the exception is line `c`'s, and the lists
   * are what line `c` left of theirs.
   */
  lemma ThrownFileStops(syn: NumberSyntax, d: ObjData, source: seq<string>, primitive: int)
    requires Wellformed(d) && ParseLines(syn, d, source, primitive).Failure?
    ensures var c := LinesConsumed(syn, d, source, primitive);
            1 <= c <= |source| && ParseLines(syn, d, source[..c - 1], primitive).Success?
            && ParseLines(syn, d, source, primitive)
               == ParseLineStep(syn, ParseLines(syn, d, source[..c - 1], primitive).value, c, source[c - 1], primitive)
            && LinesLeave(syn, d, source, primitive)
               == LineLeaves(syn, ParseLines(syn, d, source[..c - 1], primitive).value, c, source[c - 1], primitive)
  {
    var k := FirstThrow(syn, d, source, primitive);
    ParseLinesStopAtFailure(syn, d, source, k, primitive);
    LinesLeaveStopAtFailure(syn, d, source, k, primitive);
    var upTo := source[..k];
    PrefixOfPrefix(source, k, k - 1);
    LinesThrownLast(syn, d, upTo, primitive);
  }

  /** A file that throws has a first line `k` that throws: the lines before it parse. */
  lemma {:induction false} FirstThrow(syn: NumberSyntax, d: ObjData, source: seq<string>, primitive: int) returns (k: nat)
    requires Wellformed(d) && ParseLines(syn, d, source, primitive).Failure?
    ensures 1 <= k <= |source| && ParseLines(syn, d, source[..k - 1], primitive).Success?
    ensures ParseLines(syn, d, source[..k], primitive).Failure?
  {
    var init := source[..|source| - 1];
    if ParseLines(syn, d, init, primitive).Failure? {
      k := FirstThrow(syn, d, init, primitive);
      PrefixOfPrefix(source, |source| - 1, k - 1);
      PrefixOfPrefix(source, |source| - 1, k);
    } else {
      k := |source|;
      assert source[..k] == source;
    }
  }

  /** A file whose lines before the last parse is left as its last line leaves it, with every line consumed. */
  lemma LinesThrownLast(syn: NumberSyntax, d: ObjData, source: seq<string>, primitive: int)
    requires Wellformed(d) && source != [] && ParseLines(syn, d, source[..|source| - 1], primitive).Success?
    ensures var before := ParseLines(syn, d, source[..|source| - 1], primitive).value;
            ParseLines(syn, d, source, primitive) == ParseLineStep(syn, before, |source|, source[|source| - 1], primitive)
            && LinesLeave(syn, d, source, primitive) == LineLeaves(syn, before, |source|, source[|source| - 1], primitive)
            && LinesConsumed(syn, d, source, primitive) == |source|
  {
  }

  /** Cutting a prefix shorter is cutting the whole sequence shorter. */
  lemma PrefixOfPrefix<T>(s: seq<T>, n: nat, k: nat)
    requires k <= n <= |s|
    ensures s[..n][..k] == s[..k]
  {
  }

  /**
   * What a file that throws leaves: the lists of the lines before its first
   * bad line `c`, plus what line `c` added before throwing, which
   * `ThrownKeeps` bounds; the dedup map and `vertexList` are still inverse
   * and every face and line is still in range.
   */
  lemma ThrownFileKeeps(syn: NumberSyntax, d: ObjData, source: seq<string>, primitive: int)
    requires Wellformed(d) && ParseLines(syn, d, source, primitive).Failure?
    ensures var c := LinesConsumed(syn, d, source, primitive);
            1 <= c <= |source| && ParseLines(syn, d, source[..c - 1], primitive).Success?
            && var e := LinesLeave(syn, d, source, primitive);
               ThrownKeeps(ParseLines(syn, d, source[..c - 1], primitive).value, e) && DedupInv(e) && IdsInRange(e)
  {
    ThrownFileStops(syn, d, source, primitive);
    var c := LinesConsumed(syn, d, source, primitive);
    var before := ParseLines(syn, d, source[..c - 1], primitive).value;
    LineLeavesBehaviour(syn, before, c, source[c - 1], primitive);
  }

  /** One attribute call more is one `Feed` more, and a call that throws ends the run, whatever follows it. */
  lemma RunSnoc(attrs: seq<VertexAttribute>, num: Numerics, s: State, done: seq<Call>, c: Call, rest: seq<Call>)
    requires Inv(attrs, s) && Run(attrs, num, s, done).Success?
    ensures Run(attrs, num, s, done + [c]) == Feed(attrs, num, Run(attrs, num, s, done).value, c)
    ensures Run(attrs, num, s, done + [c]).Failure? ==> Run(attrs, num, s, done + [c] + rest) == Run(attrs, num, s, done + [c])
  {
    assert (done + [c])[..|done|] == done;
    RunAppend(attrs, num, s, done + [c], rest);
  }

  /** A loop that has thrown by iteration `k` has thrown the same by any later one. */
  lemma {:induction false} LoopStopsAtFailure(step: (State, nat) -> Result<State>, s: State, k: nat, n: nat)
    requires k <= n && Loop(step, s, k).Failure?
    ensures Loop(step, s, n) == Loop(step, s, k)
    decreases n
  {
    if k < n {
      LoopStopsAtFailure(step, s, k, n - 1);
    }
  }

  /**
   * The arrays of the tangent pre-pass, one null entry per corner, and its
   * `for (Vector3i face : tris)` loop: without texture coordinates, `UP` into both arrays at each corner of each face;
   * with them, nothing, since the generator is commented out.
   */
  method NewTangents(n: nat, tris: seq<Tri>, textured: bool) returns (tang: array<Option<Vec3>>, bitang: array<Option<Vec3>>)
    requires forall t :: 0 <= t < |tris| ==> 0 <= tris[t].x < n && 0 <= tris[t].y < n && 0 <= tris[t].z < n
    ensures fresh(tang) && fresh(bitang)
    ensures tang[..] == TangentTable(n, tris, textured) && bitang[..] == tang[..]
  {
    tang := new Option<Vec3>[n](_ => None);
    bitang := new Option<Vec3>[n](_ => None);
    assert tang[..] == TangentTable(n, [], textured) == bitang[..];
    var t := 0;
    while t < |tris|
      invariant t <= |tris|
      invariant tang[..] == TangentTable(n, tris[..t], textured) && bitang[..] == tang[..]
    {
      var face := tris[t];
      assert tris[..t + 1][..t] == tris[..t] && tris[..t + 1][t] == face;
      if !textured {
        var v := Some(UP);
        tang[face.x] := v;
        tang[face.y] := v;
        tang[face.z] := v;
        bitang[face.x] := v;
        bitang[face.y] := v;
        bitang[face.z] := v;
      }
      t := t + 1;
    }
    assert tris[..t] == tris;
  }

  /** Call `k` of a run, made on the state the first `k` left, is the run's step `k + 1`. */
  lemma RunCallNext(attrs: seq<VertexAttribute>, num: Numerics, s: State, calls: seq<Call>, k: nat, t: State)
    requires Inv(attrs, s) && k < |calls| && Run(attrs, num, s, calls[..k]) == Success(t)
    ensures Run(attrs, num, s, calls[..k + 1]) == Feed(attrs, num, t, calls[k])
  {
    RunSnoc(attrs, num, s, calls[..k], calls[k], calls[k + 1..]);
    assert calls[..k + 1] == calls[..k] + [calls[k]];
  }

  /** A run whose first `j` calls throw throws the same, whatever follows. */
  lemma RunPrefixFailure(attrs: seq<VertexAttribute>, num: Numerics, s: State, calls: seq<Call>, j: nat)
    requires Inv(attrs, s) && j <= |calls| && Run(attrs, num, s, calls[..j]).Failure?
    ensures Run(attrs, num, s, calls) == Run(attrs, num, s, calls[..j])
  {
    RunAppend(attrs, num, s, calls[..j], calls[j..]);
    assert calls[..j] + calls[j..] == calls;
  }

  /**
   * Call `k` of a run, made on the state the first `k` left: if it returns,
   * the run has reached `k + 1`; if it throws, that is the whole run's result.
   */
  lemma RunCallStep(attrs: seq<VertexAttribute>, num: Numerics, s: State, calls: seq<Call>, k: nat,
                    t: State, u: State, o: Outcome)
    requires Inv(attrs, s) && k < |calls| && Reaches(Run(attrs, num, s, calls[..k]), t, Pass)
    requires Follows(t, Feed(attrs, num, t, calls[k]), u, o)
    ensures o.Pass? ==> Reaches(Run(attrs, num, s, calls[..k + 1]), u, Pass)
    ensures o.Fail? ==> Reaches(Run(attrs, num, s, calls), u, o)
  {
    RunCallNext(attrs, num, s, calls, k, t);
    if o.Fail? {
      RunPrefixFailure(attrs, num, s, calls, k + 1);
    }
  }

  /**
   * A call made only if the one before it returned: the state it was made on
   * (`s`, reached with `prev`) and the state it leaves (`u`, with `o`).
   */
  predicate Guarded(attrs: seq<VertexAttribute>, num: Numerics, s: State, prev: Outcome, c: Call, u: State, o: Outcome)
    requires s.index <= |attrs|
  {
    (prev.Pass? ==> Follows(s, Feed(attrs, num, s, c), u, o)) && (prev.Fail? ==> u == s && o == prev)
  }

  /** Two calls, the second made only if the first returned, are `Run` of the pair. */
  lemma PairTrace(attrs: seq<VertexAttribute>, num: Numerics, calls: seq<Call>,
                  s0: State, s1: State, o1: Outcome, s2: State, o2: Outcome)
    requires |calls| == 2 && Inv(attrs, s0) && Inv(attrs, s1)
    requires Guarded(attrs, num, s0, Pass, calls[0], s1, o1)
    requires Guarded(attrs, num, s1, o1, calls[1], s2, o2)
    ensures Reaches(Run(attrs, num, s0, calls), s2, o2)
  {
    assert calls[..0] == [];
    RunCallStep(attrs, num, s0, calls, 0, s0, s1, o1);
    if o1.Pass? {
      RunCallStep(attrs, num, s0, calls, 1, s1, s2, o2);
      assert calls[..2] == calls;
    }
  }

  /** Two runs, the second made only if the first returned, are the run of both. */
  lemma ConcatTrace(attrs: seq<VertexAttribute>, num: Numerics, first: seq<Call>, second: seq<Call>,
                    s0: State, s1: State, o1: Outcome, s2: State, o2: Outcome)
    requires Inv(attrs, s0) && Reaches(Run(attrs, num, s0, first), s1, o1)
    requires o1.Pass? ==> Inv(attrs, s1) && Reaches(Run(attrs, num, s1, second), s2, o2)
    requires o1.Fail? ==> o2 == o1
    ensures Reaches(Run(attrs, num, s0, first + second), s2, o2)
  {
    RunAppend(attrs, num, s0, first, second);
  }

  /** The rest of `Chain`, traced, is what `ChainStep` does after the first four calls. */
  lemma FinishTrace(attrs: seq<VertexAttribute>, num: Numerics, entry: Option<Vec3>,
                    s1: State, o2: Outcome, s3: State, o3: Outcome, s4: State, o4: Outcome)
    requires Inv(attrs, s1)
    requires o2 == (if entry.None? then Fail(NullPointer) else Pass)
    requires o2.Pass? ==> Reaches(Run(attrs, num, s1, LastCalls(entry.value)), s3, o3)
    requires o2.Fail? ==> o3 == o2
    requires o3.Pass? ==> Inv(attrs, s3) && Follows(s3, EndVertexStep(attrs, s3), s4, o4)
    requires o3.Fail? ==> o4 == o3
    ensures Reaches(var tang :- Deref(entry);
                    var s2 :- Run(attrs, num, s1, LastCalls(tang));
                    EndVertexStep(attrs, s2), s4, o4)
  {
  }

  /** The two halves of `Chain`, traced, are `ChainStep`. */
  lemma ChainTrace(attrs: seq<VertexAttribute>, num: Numerics, c: Corner, entry: Option<Vec3>,
                   s0: State, s1: State, o1: Outcome, s4: State, o4: Outcome)
    requires Inv(attrs, s0) && Reaches(Run(attrs, num, s0, FirstCalls(c)), s1, o1)
    requires o1.Pass? ==> Reaches(var tang :- Deref(entry);
                                  var s2 :- Run(attrs, num, s1, LastCalls(tang));
                                  EndVertexStep(attrs, s2), s4, o4)
    requires o1.Fail? ==> o4 == o1
    ensures Reaches(ChainStep(attrs, num, s0, c, entry), s4, o4)
  {
    if o1.Pass? && entry.Some? {
      var s2 := Run(attrs, num, s1, LastCalls(entry.value));
      if s2.Success? {
        EndVertexBehaviour(attrs, s2.value);
      }
    }
  }

  /**
   * `pos(...).tex(...).col(...).norm(...).tangent(tang.x, ...).bitangent(bitang.x, ...).endVertex()`,
   * where `bitang` is always `tang`.
   */
  method Chain(b: MeshBuilder, c: Corner, tang: Option<Vec3>) returns (o: Outcome)
    requires b.Valid()
    modifies b.Repr()
    ensures b.Valid() && fresh(b.Repr() - old(b.Repr())) && b.SameBuffers()
    ensures Reaches(ChainStep(b.vertexFormat.attributes, b.num, old(b.Abs()), c, tang), b.Abs(), o)
  {
    ghost var s0 := b.Abs();
    o := FirstChain(b, c);
    ghost var s1, o1 := b.Abs(), o;
    if o.Pass? {
      o := Finish(b, tang);
    }
    ChainTrace(b.vertexFormat.attributes, b.num, c, tang, s0, s1, o1, b.Abs(), o);
  }

  /** From reading `tang.x` to `endVertex()`. */
  method Finish(b: MeshBuilder, tang: Option<Vec3>) returns (o: Outcome)
    requires b.Valid()
    modifies b.Repr()
    ensures b.Valid() && fresh(b.Repr() - old(b.Repr())) && b.SameBuffers()
    ensures Reaches(var t :- Deref(tang);
                    var s2 :- Run(b.vertexFormat.attributes, b.num, old(b.Abs()), LastCalls(t));
                    EndVertexStep(b.vertexFormat.attributes, s2), b.Abs(), o)
  {
    ghost var s1 := b.Abs();
    o := if tang.None? then Fail(NullPointer) else Pass;
    ghost var o2 := o;
    if o.Pass? {
      o := LastChain(b, tang.value);
    }
    ghost var s3, o3 := b.Abs(), o;
    if o.Pass? {
      o := b.EndVertex();
    }
    FinishTrace(b.vertexFormat.attributes, b.num, tang, s1, o2, s3, o3, b.Abs(), o);
  }

  /** `pos(...).tex(...).col(...).norm(...)` with the corner's attributes. */
  method FirstChain(b: MeshBuilder, c: Corner) returns (o: Outcome)
    requires b.Valid()
    modifies b.Repr()
    ensures b.Valid() && fresh(b.Repr() - old(b.Repr())) && b.SameBuffers()
    ensures Reaches(Run(b.vertexFormat.attributes, b.num, old(b.Abs()), FirstCalls(c)), b.Abs(), o)
  {
    ghost var s0 := b.Abs();
    o := PosTex(b, c);
    ghost var s1, o1 := b.Abs(), o;
    if o.Pass? {
      o := ColNorm(b, c);
    }
    ConcatTrace(b.vertexFormat.attributes, b.num, PosTexCalls(c), ColNormCalls(c), s0, s1, o1, b.Abs(), o);
  }

  /** `pos(...).tex(...)`. */
  method PosTex(b: MeshBuilder, c: Corner) returns (o: Outcome)
    requires b.Valid()
    modifies b.Repr()
    ensures b.Valid() && fresh(b.Repr() - old(b.Repr())) && b.SameBuffers()
    ensures Reaches(Run(b.vertexFormat.attributes, b.num, old(b.Abs()), PosTexCalls(c)), b.Abs(), o)
  {
    ghost var s0 := b.Abs();
    o := b.Pos(c.pos.x, c.pos.y, c.pos.z);
    ghost var s1, o1 := b.Abs(), o;
    if o.Pass? {
      o := b.Tex(c.tex.x, c.tex.y);
    }
    PairTrace(b.vertexFormat.attributes, b.num, PosTexCalls(c), s0, s1, o1, b.Abs(), o);
  }

  /** `col(...).norm(...)`. */
  method ColNorm(b: MeshBuilder, c: Corner) returns (o: Outcome)
    requires b.Valid()
    modifies b.Repr()
    ensures b.Valid() && fresh(b.Repr() - old(b.Repr())) && b.SameBuffers()
    ensures Reaches(Run(b.vertexFormat.attributes, b.num, old(b.Abs()), ColNormCalls(c)), b.Abs(), o)
  {
    ghost var s0 := b.Abs();
    o := b.Col(c.col.x, c.col.y, c.col.z, c.col.w);
    ghost var s1, o1 := b.Abs(), o;
    if o.Pass? {
      o := b.Norm(c.norm.x, c.norm.y, c.norm.z);
    }
    PairTrace(b.vertexFormat.attributes, b.num, ColNormCalls(c), s0, s1, o1, b.Abs(), o);
  }

  /** `tangent(...).bitangent(...)` with the same vector. */
  method LastChain(b: MeshBuilder, tang: Vec3) returns (o: Outcome)
    requires b.Valid()
    modifies b.Repr()
    ensures b.Valid() && fresh(b.Repr() - old(b.Repr())) && b.SameBuffers()
    ensures Reaches(Run(b.vertexFormat.attributes, b.num, old(b.Abs()), LastCalls(tang)), b.Abs(), o)
  {
    ghost var s0 := b.Abs();
    o := b.Tangent(tang.x, tang.y, tang.z);
    ghost var s1, o1 := b.Abs(), o;
    if o.Pass? {
      o := b.Bitangent(tang.x, tang.y, tang.z);
    }
    PairTrace(b.vertexFormat.attributes, b.num, LastCalls(tang), s0, s1, o1, b.Abs(), o);
  }

  /** The tangent table as the arrays hold it: absent, or one entry per corner id. */
  ghost function TableOf(tangents: array?<Option<Vec3>>): Option<seq<Option<Vec3>>>
    reads tangents
  {
    if tangents == null then None else Some(tangents[..])
  }

  /** The two tangent arrays are both absent or hold the same entries, and lie outside `r`. */
  ghost predicate TangentArrays(tangents: array?<Option<Vec3>>, bitangents: array?<Option<Vec3>>, r: set<object>)
    reads tangents, bitangents
  {
    var ok := (tangents == null <==> bitangents == null)
      && (tangents != null ==> tangents[..] == bitangents[..] && tangents !in r && bitangents !in r);
    ok
  }

  /**
   * One pass of a loop whose body was proved against `step`: if the body
   * returned, the loop has run `i + 1` iterations; if it threw, that is the
   * result of the whole loop of `n`.
   */
  lemma LoopTrace(step: (State, nat) -> Result<State>, s0: State, i: nat, n: nat, t: State, u: State, o: Outcome)
    requires i < n && Loop(step, s0, i) == Success(t) && Reaches(step(t, i), u, o)
    ensures o.Pass? ==> Loop(step, s0, i + 1) == Success(u)
    ensures o.Fail? ==> Loop(step, s0, n) == Failure(o.error)
  {
    if o.Fail? {
      LoopStopsAtFailure(step, s0, i + 1, n);
    }
  }

  /** Iteration `i` of the vertex loop, on a state that keeps the builder invariant, is `EmitVertexStep`. */
  lemma VertexStepAt(attrs: seq<VertexAttribute>, num: Numerics, d: ObjData, table: Option<seq<Option<Vec3>>>,
                     t: State, i: nat)
    requires Emittable(d) && i < |d.vertexList| && Inv(attrs, t)
    ensures VertexStep(attrs, num, d, table)(t, i) == EmitVertexStep(attrs, num, d, table, t, i)
  {
  }

  /**
   * One iteration of the vertex loop of `load`, from the bounds checks to
   * `endVertex()`, on any builder: it throws exactly what `EmitVertexStep`
   * says and otherwise leaves the builder in the state it says.
   */
  method EmitVertex(b: MeshBuilder, d: ObjData, tangents: array?<Option<Vec3>>, bitangents: array?<Option<Vec3>>, i: nat)
    returns (o: Outcome)
    requires Emittable(d) && i < |d.vertexList| && b.Valid() && TangentArrays(tangents, bitangents, b.Repr())
    modifies b.Repr()
    ensures b.Valid() && fresh(b.Repr() - old(b.Repr())) && b.SameBuffers()
    ensures Reaches(EmitVertexStep(b.vertexFormat.attributes, b.num, d, TableOf(tangents), old(b.Abs()), i), b.Abs(), o)
  {
    var vertex := d.vertexList[i];
    if (vertex.pos != -1 && vertex.pos <= 0) || vertex.pos as int > |d.positions| {
      return Fail(ObjFormat(vertex.lineNo, PositionIndexOutOfBounds(vertex.pos as int)));
    }
    if (vertex.tex != -1 && vertex.tex <= 0) || vertex.tex as int > |d.textures| {
      return Fail(ObjFormat(vertex.lineNo, TextureIndexOutOfBounds(vertex.tex as int)));
    }
    if (vertex.norm != -1 && vertex.norm <= 0) || vertex.norm as int > |d.normals| {
      return Fail(ObjFormat(vertex.lineNo, NormalIndexOutOfBounds(vertex.norm as int)));
    }
    var pos := if vertex.pos != -1 then d.positions[vertex.pos as int - 1] else Vec3(0.0, 0.0, 0.0);
    var col := if vertex.pos != -1 then d.colors[vertex.pos as int - 1] else Vec4(1.0, 1.0, 1.0, 1.0);
    var tex := if vertex.tex != -1 then d.textures[vertex.tex as int - 1] else Vec2(0.0, 0.0);
    var norm := if vertex.norm != -1 then d.normals[vertex.norm as int - 1] else Vec3(1.0, 0.0, 0.0);
    assert Resolve(d, vertex) == Success(Corner(pos, col, tex, norm));
    var tang: Option<Vec3> := Some(Vec3(0.0, 0.0, 0.0));
    if tangents != null && bitangents != null {
      if i >= tangents.Length {
        return Fail(IndexOutOfBounds(i));
      }
      tang := tangents[i];
      assert bitangents[i] == tang;
    }
    assert TangentSlot(TableOf(tangents), i) == Success(tang);
    o := Chain(b, Corner(pos, col, tex, norm), tang);
  }

  /** The builder is valid (kept whole, as a loop invariant that is cheap to carry). */
  ghost predicate Live(b: MeshBuilder)
    reads b, b.vertexBuf, b.indicesBuf, b.vertexBuf.Repr, b.indicesBuf.Repr
  {
    var ok := b.Valid(); ok
  }

  /**
   * `rs` lists what the first `k` iterations of a loop give, for every `k` up
   * to `n`. (The `var` keeps the predicate whole, so that a loop can carry it
   * without unfolding `Loop`.)
   */
  ghost predicate Traced(rs: seq<Result<State>>, step: (State, nat) -> Result<State>, s0: State, n: nat) {
    var whole := |rs| == n + 1 && forall k {:trigger Loop(step, s0, k)} :: 0 <= k <= n ==> rs[k] == Loop(step, s0, k);
    whole
  }

  /** The table of a loop's results after every number of iterations up to `n`. */
  lemma LoopResults(step: (State, nat) -> Result<State>, s0: State, n: nat) returns (rs: seq<Result<State>>)
    ensures Traced(rs, step, s0, n) && rs[0] == Success(s0)
  {
    rs := seq(n + 1, k requires 0 <= k => Loop(step, s0, k));
  }

  /**
   * Iteration `i` of the vertex loop, after `i` iterations that returned: it
   * either makes it `i + 1` or throws what the whole loop throws.
   */
  method VertexIteration(b: MeshBuilder, d: ObjData, tangents: array?<Option<Vec3>>, bitangents: array?<Option<Vec3>>,
                         i: nat, ghost rs: seq<Result<State>>, ghost s0: State)
    returns (o: Outcome)
    requires Emittable(d) && i < |d.vertexList| && b.Valid() && TangentArrays(tangents, bitangents, b.Repr())
    requires Traced(rs, VertexStep(b.vertexFormat.attributes, b.num, d, TableOf(tangents)), s0, |d.vertexList|)
    requires rs[i] == Success(b.Abs())
    modifies b.Repr()
    ensures b.Valid() && fresh(b.Repr() - old(b.Repr())) && b.SameBuffers()
    ensures o.Pass? ==> rs[i + 1] == Success(b.Abs())
    ensures o.Fail? ==> rs[|d.vertexList|] == Failure(o.error)
  {
    ghost var t := b.Abs();
    ghost var step := VertexStep(b.vertexFormat.attributes, b.num, d, TableOf(tangents));
    assert Loop(step, s0, i) == Success(t);
    VertexStepAt(b.vertexFormat.attributes, b.num, d, TableOf(tangents), t, i);
    o := EmitVertex(b, d, tangents, bitangents, i);
    LoopTrace(step, s0, i, |d.vertexList|, t, b.Abs(), o);
    assert Loop(step, s0, i + 1) == rs[i + 1];
    assert Loop(step, s0, |d.vertexList|) == rs[|d.vertexList|];
  }

  /** The vertex loop of `load`: one `EmitVertex` per corner id, in order, until one throws. */
  method VertexLoop(b: MeshBuilder, d: ObjData, tangents: array?<Option<Vec3>>, bitangents: array?<Option<Vec3>>)
    returns (o: Outcome)
    requires Emittable(d) && b.Valid() && TangentArrays(tangents, bitangents, b.Repr())
    modifies b.Repr()
    ensures b.Valid() && fresh(b.Repr() - old(b.Repr())) && b.SameBuffers()
    ensures Reaches(EmitVertices(b.vertexFormat.attributes, b.num, d, TableOf(tangents), old(b.Abs()), |d.vertexList|),
                    b.Abs(), o)
  {
    ghost var step := VertexStep(b.vertexFormat.attributes, b.num, d, TableOf(tangents));
    ghost var rs := LoopResults(step, b.Abs(), |d.vertexList|);
    var i := 0;
    o := Pass;
    while o.Pass? && i < |d.vertexList|
      invariant i <= |d.vertexList|
      invariant Live(b) && fresh(b.Repr() - old(b.Repr())) && b.SameBuffers()
      invariant TangentArrays(tangents, bitangents, b.Repr())
      invariant o.Pass? ==> rs[i] == Success(b.Abs())
      invariant o.Fail? ==> rs[|d.vertexList|] == Failure(o.error)
    {
      o := VertexIteration(b, d, tangents, bitangents, i, rs, old(b.Abs()));
      i := i + 1;
    }
    assert Loop(step, old(b.Abs()), |d.vertexList|) == rs[|d.vertexList|];
  }

  /**
   * Call `k` of the index loop, with the ids `ids` of group `k`, after `k`
   * calls that returned: it either makes it `k + 1` or throws what the whole
   * loop throws.
   */
  method IndexIteration(b: MeshBuilder, ghost groups: seq<seq<int32>>, k: nat, ids: seq<int32>,
                        ghost rs: seq<Result<State>>, ghost s0: State)
    returns (o: Outcome)
    requires k < |groups| && ids == groups[k] && b.Valid()
    requires Traced(rs, IndexStep(b.vertexFormat.attributes, groups), s0, |groups|) && rs[k] == Success(b.Abs())
    modifies b.Repr()
    ensures b.Valid() && fresh(b.Repr() - old(b.Repr())) && b.SameBuffers()
    ensures o.Pass? ==> rs[k + 1] == Success(b.Abs())
    ensures o.Fail? ==> rs[|groups|] == Failure(o.error)
  {
    ghost var t := b.Abs();
    ghost var step := IndexStep(b.vertexFormat.attributes, groups);
    assert Loop(step, s0, k) == Success(t);
    o := b.Indices(ids);
    LoopTrace(step, s0, k, |groups|, t, b.Abs(), o);
    assert Loop(step, s0, k + 1) == rs[k + 1];
    assert Loop(step, s0, |groups|) == rs[|groups|];
  }

  /** Call `k` of the triangle loop: the `indices` call for face `k`. */
  method TriangleIteration(b: MeshBuilder, d: ObjData, k: nat, ghost rs: seq<Result<State>>, ghost s0: State)
    returns (o: Outcome)
    requires IdsInRange(d) && k < |d.tris| && b.Valid()
    requires Traced(rs, IndexStep(b.vertexFormat.attributes, IndexGroups(d, GL_TRIANGLES)), s0, |d.tris|) && rs[k] == Success(b.Abs())
    modifies b.Repr()
    ensures b.Valid() && fresh(b.Repr() - old(b.Repr())) && b.SameBuffers()
    ensures o.Pass? ==> rs[k + 1] == Success(b.Abs())
    ensures o.Fail? ==> rs[|d.tris|] == Failure(o.error)
  {
    var tri := d.tris[k];
    o := IndexIteration(b, IndexGroups(d, GL_TRIANGLES), k, [JavaInt(tri.x), JavaInt(tri.y), JavaInt(tri.z)], rs, s0);
  }

  /** The index loop of `load` for triangles: one `indices` call per face, in file order, until one throws. */
  method TriangleLoop(b: MeshBuilder, d: ObjData) returns (o: Outcome)
    requires IdsInRange(d) && b.Valid()
    modifies b.Repr()
    ensures b.Valid() && fresh(b.Repr() - old(b.Repr())) && b.SameBuffers()
    ensures Reaches(EmitIndices(b.vertexFormat.attributes, old(b.Abs()), IndexGroups(d, GL_TRIANGLES)), b.Abs(), o)
  {
    ghost var groups := IndexGroups(d, GL_TRIANGLES);
    ghost var rs := LoopResults(IndexStep(b.vertexFormat.attributes, groups), b.Abs(), |groups|);
    var k := 0;
    o := Pass;
    while o.Pass? && k < |d.tris|
      invariant k <= |d.tris|
      invariant Live(b) && fresh(b.Repr() - old(b.Repr())) && b.SameBuffers()
      invariant o.Pass? ==> rs[k] == Success(b.Abs())
      invariant o.Fail? ==> rs[|groups|] == Failure(o.error)
    {
      o := TriangleIteration(b, d, k, rs, old(b.Abs()));
      k := k + 1;
    }
    assert Loop(IndexStep(b.vertexFormat.attributes, groups), old(b.Abs()), |groups|) == rs[|groups|];
  }

  /** Call `k` of the segment loop: the `indices` call for line `k`. */
  method SegmentIteration(b: MeshBuilder, d: ObjData, k: nat, ghost rs: seq<Result<State>>, ghost s0: State)
    returns (o: Outcome)
    requires IdsInRange(d) && k < |d.lines| && b.Valid()
    requires Traced(rs, IndexStep(b.vertexFormat.attributes, IndexGroups(d, GL_LINES)), s0, |d.lines|) && rs[k] == Success(b.Abs())
    modifies b.Repr()
    ensures b.Valid() && fresh(b.Repr() - old(b.Repr())) && b.SameBuffers()
    ensures o.Pass? ==> rs[k + 1] == Success(b.Abs())
    ensures o.Fail? ==> rs[|d.lines|] == Failure(o.error)
  {
    var line := d.lines[k];
    o := IndexIteration(b, IndexGroups(d, GL_LINES), k, [JavaInt(line.x), JavaInt(line.y)], rs, s0);
  }

  /** The index loop of `load` for lines: one `indices` call per line, in file order, until one throws. */
  method SegmentLoop(b: MeshBuilder, d: ObjData) returns (o: Outcome)
    requires IdsInRange(d) && b.Valid()
    modifies b.Repr()
    ensures b.Valid() && fresh(b.Repr() - old(b.Repr())) && b.SameBuffers()
    ensures Reaches(EmitIndices(b.vertexFormat.attributes, old(b.Abs()), IndexGroups(d, GL_LINES)), b.Abs(), o)
  {
    ghost var groups := IndexGroups(d, GL_LINES);
    ghost var rs := LoopResults(IndexStep(b.vertexFormat.attributes, groups), b.Abs(), |groups|);
    var k := 0;
    o := Pass;
    while o.Pass? && k < |d.lines|
      invariant k <= |d.lines|
      invariant Live(b) && fresh(b.Repr() - old(b.Repr())) && b.SameBuffers()
      invariant o.Pass? ==> rs[k] == Success(b.Abs())
      invariant o.Fail? ==> rs[|groups|] == Failure(o.error)
    {
      o := SegmentIteration(b, d, k, rs, old(b.Abs()));
      k := k + 1;
    }
    assert Loop(IndexStep(b.vertexFormat.attributes, groups), old(b.Abs()), |groups|) == rs[|groups|];
  }

  /** The index loop of `load`: triangles or lines as the primitive type says, nothing for any other. */
  method IndexLoop(b: MeshBuilder, d: ObjData, primitive: int) returns (o: Outcome)
    requires IdsInRange(d) && b.Valid()
    modifies b.Repr()
    ensures b.Valid() && fresh(b.Repr() - old(b.Repr())) && b.SameBuffers()
    ensures Reaches(EmitIndices(b.vertexFormat.attributes, old(b.Abs()), IndexGroups(d, primitive)), b.Abs(), o)
  {
    if primitive == GL_TRIANGLES {
      o := TriangleLoop(b, d);
    } else if primitive == GL_LINES {
      o := SegmentLoop(b, d);
    } else {
      o := Pass;
    }
  }

  /** `BakedMesh.builder(vertexFormat, primitiveType).setLenient(true).setExplicit(true)` on the given buffers. */
  method StartBuilder(format: VertexFormat, primitive: int, num: Numerics, vertexBuf: ExpandableBuffer,
                      indicesBuf: ExpandableBuffer) returns (b: MeshBuilder)
    requires format.Valid() && vertexBuf.Valid() && indicesBuf.Valid() && vertexBuf.Repr !! indicesBuf.Repr
    modifies vertexBuf, indicesBuf
    ensures fresh(b) && b.Valid() && b.Abs() == LoadStart(format)
    ensures b.vertexFormat == format && b.primitiveDrawType == primitive && b.num == num
    ensures b.vertexBuf == vertexBuf && b.indicesBuf == indicesBuf && b.vertexPrefix == [] && b.indicesPrefix == []
    ensures vertexBuf.Repr == old(vertexBuf.Repr) && indicesBuf.Repr == old(indicesBuf.Repr)
  {
    b := new MeshBuilder(format, primitive, num, vertexBuf, indicesBuf);
    b.SetLenient(true);
    b.SetExplicit(true);
  }

  /** The two loops of `load` on a builder it just started: the vertex loop, then, if it returned, the index loop. */
  method Emit(b: MeshBuilder, d: ObjData, tangents: array?<Option<Vec3>>, bitangents: array?<Option<Vec3>>,
              primitive: int) returns (o: Outcome)
    requires Wellformed(d) && b.Valid() && b.Abs() == LoadStart(b.vertexFormat) && TangentArrays(tangents, bitangents, b.Repr())
    modifies b.Repr()
    ensures b.Valid() && fresh(b.Repr() - old(b.Repr())) && b.SameBuffers()
    ensures Reaches(EmitAll(b.num, b.vertexFormat, primitive, d, TableOf(tangents)), b.Abs(), o)
  {
    o := VertexLoop(b, d, tangents, bitangents);
    if o.Pass? {
      o := IndexLoop(b, d, primitive);
    }
  }

  /** `createMesh()` on a builder between vertices whose buffers started empty. */
  method CreateMeshOf(b: MeshBuilder) returns (r: Result<BakedMesh>)
    requires b.Valid() && b.Abs().index == 0 && b.vertexPrefix == [] && b.indicesPrefix == []
    modifies b.vertexBuf, b.indicesBuf
    ensures MadeMesh(b.num, b.primitiveDrawType, old(b.Abs()), r)
  {
    r := b.CreateMesh();
  }

  class ObjLoader {
    const syn: NumberSyntax
    // The lines the scanner has still to deliver.
    var scan: seq<string>
    var positions: seq<Vec3>
    var colors: seq<Vec4>
    var textures: seq<Vec2>
    var normals: seq<Vec3>
    var tangents: array?<Option<Vec3>>
    var bitangents: array?<Option<Vec3>>
    var indices: map<VertexKey, int>
    var vertexList: seq<Vertex>
    var tris: seq<Tri>
    var lines: seq<Seg>

    /** The lists and the corner map as one value. */
    function Data(): ObjData
      reads this`positions, this`colors, this`textures, this`normals, this`indices, this`vertexList
      reads this`tris, this`lines
    {
      ObjData(positions, colors, textures, normals, indices, vertexList, tris, lines)
    }

    /** The tangent arrays' contents, when they exist. */
    ghost function Table(): Option<seq<Option<Vec3>>>
      reads this`tangents, tangents
    {
      TableOf(tangents)
    }

    /** The data is well formed, and the two tangent arrays exist together and hold the same entries. */
    ghost predicate Valid()
      reads this, tangents, bitangents
    {
      Wellformed(Data()) && (tangents == null <==> bitangents == null)
      && (tangents != null ==> tangents[..] == bitangents[..])
    }

    /** None of the loader's own objects is in `s`. */
    ghost predicate ApartFrom(s: set<object>)
      reads this
    {
      this !in s && (tangents != null ==> tangents !in s) && (bitangents != null ==> bitangents !in s)
    }

    /** `ObjLoader(scan)`: every list and the map empty, no tangent arrays. */
    constructor (syn: NumberSyntax, source: seq<string>)
      ensures Valid() && this.syn == syn && scan == source && Data() == Empty() && Table() == None
    {
      this.syn := syn;
      scan := source;
      positions := [];
      colors := [];
      textures := [];
      normals := [];
      tangents := null;
      bitangents := null;
      indices := map[];
      vertexList := [];
      tris := [];
      lines := [];
    }

    /** `parseVertexToIndex(lineNo, str)`: a known corner's id, or the next id for a new corner. */
    method ParseVertexToIndex(lineNo: int, str: string) returns (r: Result<int>)
      modifies this`indices, this`vertexList
      ensures IndexCorner(syn, old(Data()), lineNo, str).Success? ==>
                r == Success(IndexCorner(syn, old(Data()), lineNo, str).value.0)
                && Data() == IndexCorner(syn, old(Data()), lineNo, str).value.1
      ensures IndexCorner(syn, old(Data()), lineNo, str).Failure? ==>
                r == Failure(IndexCorner(syn, old(Data()), lineNo, str).error) && Data() == old(Data())
    {
      var vert :- ParseVertex(syn, lineNo, str);
      var key := Key(vert);
      if key in indices {
        return Success(indices[key]);
      }
      var newIndex := |indices|;
      indices := indices[key := newIndex];
      vertexList := vertexList + [vert];
      return Success(newIndex);
    }

    /**
     * `parseLine(lineNo, line, primitiveType)`. It returns exactly when
     * `ParseLineStep` succeeds, leaving the lists as that step says, and it
     * throws that step's exception otherwise; either way the lists are as
     * `LineLeaves` says, so what it added before throwing (a position
     * without its colour, the corners of a face read so far) stays.
     */
    method ParseLine(lineNo: int, line: string, primitive: int) returns (o: Outcome)
      modifies this`positions, this`colors, this`textures, this`normals, this`indices, this`vertexList
      modifies this`tris, this`lines
      ensures o.Pass? <==> ParseLineStep(syn, old(Data()), lineNo, line, primitive).Success?
      ensures o.Pass? ==> Data() == ParseLineStep(syn, old(Data()), lineNo, line, primitive).value
      ensures o.Fail? ==> ParseLineStep(syn, old(Data()), lineNo, line, primitive) == Failure(o.error)
      ensures Data() == LineLeaves(syn, old(Data()), lineNo, line, primitive)
    {
      if StartsWith(line, "#") {
        return Pass;
      }
      var parts := Split(line, ' ');
      if |parts| == 0 {
        return Fail(IndexOutOfBounds(0));
      }
      if parts[0] == "v" {
        o := ParsePosition(lineNo, parts);
      } else if parts[0] == "vt" {
        o := ParseTexture(lineNo, parts);
      } else if parts[0] == "vn" {
        o := ParseNormal(lineNo, parts);
      } else if parts[0] == "f" {
        o := ParseFace(lineNo, parts, primitive);
      } else if parts[0] == "l" {
        o := ParseSegment(lineNo, parts, primitive);
      } else {
        o := Pass;
      }
    }

    /** The `v` case: the position is added before the colour is read. */
    method ParsePosition(lineNo: int, parts: seq<string>) returns (o: Outcome)
      modifies this`positions, this`colors
      ensures o.Pass? <==> ParsePositionLine(syn, lineNo, parts).Success?
      ensures o.Pass? ==> positions == old(positions) + [ParsePositionLine(syn, lineNo, parts).value.0]
                          && colors == old(colors) + [ParsePositionLine(syn, lineNo, parts).value.1]
      ensures o.Fail? ==> ParsePositionLine(syn, lineNo, parts) == Failure(o.error)
      ensures Data() == PositionLeaves(syn, old(Data()), lineNo, parts)
    {
      if |parts| != 4 && |parts| != 5 && |parts| != 7 && |parts| != 8 {
        return Fail(ObjFormat(lineNo, VertexArity));
      }
      var x := ParseFloatAt(syn, lineNo, parts[1]);
      if x.Failure? { return Fail(x.error); }
      var y := ParseFloatAt(syn, lineNo, parts[2]);
      if y.Failure? { return Fail(y.error); }
      var z := ParseFloatAt(syn, lineNo, parts[3]);
      if z.Failure? { return Fail(z.error); }
      positions := positions + [Vec3(x.value, y.value, z.value)];
      if |parts| >= 7 {
        var r := ParseFloatAt(syn, lineNo, parts[4]);
        if r.Failure? { return Fail(r.error); }
        var g := ParseFloatAt(syn, lineNo, parts[5]);
        if g.Failure? { return Fail(g.error); }
        var b := ParseFloatAt(syn, lineNo, parts[6]);
        if b.Failure? { return Fail(b.error); }
        var a := if |parts| > 7 then ParseFloatAt(syn, lineNo, parts[7]) else Success(1.0);
        if a.Failure? { return Fail(a.error); }
        colors := colors + [Vec4(r.value, g.value, b.value, a.value)];
      } else {
        colors := colors + [Vec4(1.0, 1.0, 1.0, 1.0)];
      }
      return Pass;
    }

    /** The `vt` case. */
    method ParseTexture(lineNo: int, parts: seq<string>) returns (o: Outcome)
      modifies this`textures
      ensures o.Pass? <==> ParseTextureLine(syn, lineNo, parts).Success?
      ensures o.Pass? ==> textures == old(textures) + [ParseTextureLine(syn, lineNo, parts).value]
      ensures o.Fail? ==> ParseTextureLine(syn, lineNo, parts) == Failure(o.error) && textures == old(textures)
    {
      if |parts| != 3 {
        return Fail(ObjFormat(lineNo, TextureArity));
      }
      var u := ParseFloatAt(syn, lineNo, parts[1]);
      if u.Failure? { return Fail(u.error); }
      var v := ParseFloatAt(syn, lineNo, parts[2]);
      if v.Failure? { return Fail(v.error); }
      textures := textures + [Vec2(u.value, v.value)];
      return Pass;
    }

    /** The `vn` case. */
    method ParseNormal(lineNo: int, parts: seq<string>) returns (o: Outcome)
      modifies this`normals
      ensures o.Pass? <==> ParseNormalLine(syn, lineNo, parts).Success?
      ensures o.Pass? ==> normals == old(normals) + [ParseNormalLine(syn, lineNo, parts).value]
      ensures o.Fail? ==> ParseNormalLine(syn, lineNo, parts) == Failure(o.error) && normals == old(normals)
    {
      if |parts| != 4 {
        return Fail(ObjFormat(lineNo, NormalArity));
      }
      var x := ParseFloatAt(syn, lineNo, parts[1]);
      if x.Failure? { return Fail(x.error); }
      var y := ParseFloatAt(syn, lineNo, parts[2]);
      if y.Failure? { return Fail(y.error); }
      var z := ParseFloatAt(syn, lineNo, parts[3]);
      if z.Failure? { return Fail(z.error); }
      normals := normals + [Vec3(x.value, y.value, z.value)];
      return Pass;
    }

    /** The `f` case: the corners are indexed left to right, each as soon as it is read. */
    method ParseFace(lineNo: int, parts: seq<string>, primitive: int) returns (o: Outcome)
      modifies this`indices, this`vertexList, this`tris
      ensures o.Pass? <==> ParseFaceLine(syn, old(Data()), lineNo, parts, primitive).Success?
      ensures o.Pass? ==> Data() == ParseFaceLine(syn, old(Data()), lineNo, parts, primitive).value
      ensures o.Fail? ==> ParseFaceLine(syn, old(Data()), lineNo, parts, primitive) == Failure(o.error)
      ensures Data() == FaceLeaves(syn, old(Data()), lineNo, parts, primitive)
    {
      if primitive != GL_TRIANGLES {
        return Fail(ObjFormat(lineNo, FacesNeedTriangles));
      }
      if |parts| != 4 {
        return Fail(ObjFormat(lineNo, FaceArity));
      }
      var a := ParseVertexToIndex(lineNo, parts[1]);
      if a.Failure? { return Fail(a.error); }
      var b := ParseVertexToIndex(lineNo, parts[2]);
      if b.Failure? { return Fail(b.error); }
      var c := ParseVertexToIndex(lineNo, parts[3]);
      if c.Failure? { return Fail(c.error); }
      tris := tris + [Tri(a.value, b.value, c.value)];
      return Pass;
    }

    /** The `l` case. */
    method ParseSegment(lineNo: int, parts: seq<string>, primitive: int) returns (o: Outcome)
      modifies this`indices, this`vertexList, this`lines
      ensures o.Pass? <==> ParseSegmentLine(syn, old(Data()), lineNo, parts, primitive).Success?
      ensures o.Pass? ==> Data() == ParseSegmentLine(syn, old(Data()), lineNo, parts, primitive).value
      ensures o.Fail? ==> ParseSegmentLine(syn, old(Data()), lineNo, parts, primitive) == Failure(o.error)
      ensures Data() == SegmentLeaves(syn, old(Data()), lineNo, parts, primitive)
    {
      if primitive != GL_LINES {
        return Fail(ObjFormat(lineNo, LinesNeedLines));
      }
      if |parts| != 3 {
        return Fail(ObjFormat(lineNo, LineArity));
      }
      var a := ParseVertexToIndex(lineNo, parts[1]);
      if a.Failure? { return Fail(a.error); }
      var b := ParseVertexToIndex(lineNo, parts[2]);
      if b.Failure? { return Fail(b.error); }
      lines := lines + [Seg(a.value, b.value)];
      return Pass;
    }

    /**
     * One pass of the `while (scan.hasNextLine())` loop of `load`: line
     * `lineNo`, after the lines before it were parsed. It either leaves the
     * lists as parsing one line more says, or throws what parsing the whole
     * source throws; either way the lists are what the loop leaves after
     * `lineNo` lines.
     */
    method ReadLine(lineNo: nat, line: string, primitive: int, ghost source: seq<string>, ghost d0: ObjData)
      returns (o: Outcome)
      requires Wellformed(d0) && 1 <= lineNo <= |source| && source[lineNo - 1] == line
      requires ParseLines(syn, d0, source[..lineNo - 1], primitive) == Success(Data())
      modifies this`positions, this`colors, this`textures, this`normals, this`indices
      modifies this`vertexList, this`tris, this`lines
      ensures o.Pass? ==> ParseLines(syn, d0, source[..lineNo], primitive) == Success(Data())
      ensures o.Fail? ==> ParseLines(syn, d0, source[..lineNo], primitive).Failure?
                          && ParseLines(syn, d0, source, primitive) == Failure(o.error)
      ensures Data() == LinesLeave(syn, d0, source[..lineNo], primitive)
      ensures LinesConsumed(syn, d0, source[..lineNo], primitive) == lineNo
    {
      assert source[..lineNo][..lineNo - 1] == source[..lineNo - 1];
      ParseLinesNext(syn, d0, source, lineNo - 1, primitive);
      o := ParseLine(lineNo, line, primitive);
      if o.Fail? {
        ParseLinesStopAtFailure(syn, d0, source, lineNo, primitive);
      }
    }

    /**
     * The `while (scan.hasNextLine())` loop of `load`: every remaining line
     * parsed in turn, numbered from 1, until one throws.
     */
    method ReadLines(primitive: int) returns (o: Outcome)
      requires Valid()
      modifies this`scan, this`positions, this`colors, this`textures, this`normals, this`indices
      modifies this`vertexList, this`tris, this`lines
      ensures o.Pass? <==> ParseLines(syn, old(Data()), old(scan), primitive).Success?
      ensures o.Pass? ==> Valid() && scan == [] && Data() == ParseLines(syn, old(Data()), old(scan), primitive).value
      ensures o.Fail? ==> ParseLines(syn, old(Data()), old(scan), primitive) == Failure(o.error)
      ensures scan == old(scan)[LinesConsumed(syn, old(Data()), old(scan), primitive)..]
      ensures Data() == LinesLeave(syn, old(Data()), old(scan), primitive)
    {
      ghost var source := scan;
      ghost var d0 := Data();
      var lineNo := 1;
      assert source[..0] == [];
      o := Pass;
      while o.Pass? && scan != []
        invariant 1 <= lineNo <= |source| + 1 && scan == source[lineNo - 1..]
        invariant o.Pass? ==> ParseLines(syn, d0, source[..lineNo - 1], primitive) == Success(Data())
        invariant o.Fail? ==> ParseLines(syn, d0, source[..lineNo - 1], primitive).Failure?
                              && ParseLines(syn, d0, source, primitive) == Failure(o.error)
        invariant Data() == LinesLeave(syn, d0, source[..lineNo - 1], primitive)
        invariant LinesConsumed(syn, d0, source[..lineNo - 1], primitive) == lineNo - 1
        decreases |scan|
      {
        var line := scan[0];
        scan := scan[1..];
        o := ReadLine(lineNo, line, primitive, source, d0);
        lineNo := lineNo + 1;
      }
      if o.Pass? {
        assert source[..lineNo - 1] == source;
      } else {
        LinesLeaveStopAtFailure(syn, d0, source, lineNo - 1, primitive);
      }
    }

    /**
     * The tangent pre-pass of `load`: with both tangent attributes in the
     * format, two new arrays of one null entry per corner, and `UP` at every
     * corner of every face when the file has no texture coordinates.
     */
    method PrepareTangents(format: VertexFormat)
      requires Valid()
      modifies this`tangents, this`bitangents
      ensures Valid() && Table() == TablePass(format.attributes, Data(), old(Table()))
      ensures (tangents == old(tangents) && bitangents == old(bitangents)) || (fresh(tangents) && fresh(bitangents))
    {
      var hasTangent := format.HasAttributeType(Tangent);
      if !hasTangent {
        return;
      }
      var hasBitangent := format.HasAttributeType(Bitangent);
      if !hasBitangent {
        return;
      }
      var tang, bitang := NewTangents(|vertexList|, tris, |textures| != 0);
      tangents := tang;
      bitangents := bitang;
    }

    /**
     * The reading part of `load`: every line parsed, then the tangent
     * pre-pass. It throws the first parse error, keeping the lists the lines
     * up to it left and the tangent arrays it had.
     */
    method Read(format: VertexFormat, primitive: int) returns (o: Outcome)
      requires Valid()
      modifies this`scan, this`positions, this`colors, this`textures, this`normals, this`indices
      modifies this`vertexList, this`tris, this`lines, this`tangents, this`bitangents
      ensures o.Pass? <==> ParseLines(syn, old(Data()), old(scan), primitive).Success?
      ensures o.Fail? ==> ParseLines(syn, old(Data()), old(scan), primitive) == Failure(o.error)
      ensures o.Pass? ==> Valid() && Data() == ParseLines(syn, old(Data()), old(scan), primitive).value
                          && Table() == TablePass(format.attributes, Data(), old(Table()))
      ensures o.Fail? ==> tangents == old(tangents) && bitangents == old(bitangents)
      ensures (tangents == old(tangents) && bitangents == old(bitangents)) || (fresh(tangents) && fresh(bitangents))
      ensures scan == old(scan)[LinesConsumed(syn, old(Data()), old(scan), primitive)..]
      ensures Data() == LinesLeave(syn, old(Data()), old(scan), primitive)
    {
      o := ReadLines(primitive);
      if o.Pass? {
        PrepareTangents(format);
      }
    }

    /**
     * The builder part of `load`, on the given buffers: a lenient explicit
     * builder, the vertex loop and the index loop.
     */
    method Build(format: VertexFormat, primitive: int, num: Numerics, vertexBuf: ExpandableBuffer,
                 indicesBuf: ExpandableBuffer) returns (o: Outcome, b: MeshBuilder)
      requires Valid() && format.Valid() && vertexBuf.Valid() && indicesBuf.Valid() && vertexBuf.Repr !! indicesBuf.Repr
      requires ApartFrom(vertexBuf.Repr + indicesBuf.Repr)
      modifies vertexBuf.Repr, indicesBuf.Repr
      ensures b.Valid() && b.vertexFormat == format && b.primitiveDrawType == primitive && b.num == num
      ensures b.vertexBuf == vertexBuf && b.indicesBuf == indicesBuf && b.vertexPrefix == [] && b.indicesPrefix == []
      ensures Reaches(EmitAll(num, format, primitive, Data(), Table()), b.Abs(), o)
    {
      b := StartBuilder(format, primitive, num, vertexBuf, indicesBuf);
      o := Emit(b, Data(), tangents, bitangents, primitive);
    }

    /** The builder part of `load`, then `createMesh()`. */
    method Bake(format: VertexFormat, primitive: int, num: Numerics, vertexBuf: ExpandableBuffer,
                indicesBuf: ExpandableBuffer) returns (r: Result<BakedMesh>)
      requires Valid() && format.Valid() && vertexBuf.Valid() && indicesBuf.Valid() && vertexBuf.Repr !! indicesBuf.Repr
      requires ApartFrom(vertexBuf.Repr + indicesBuf.Repr)
      requires LenientlyCompatible(POS_TEX_COL4_NORM_TANG_BITANG, format.attributes)
      modifies vertexBuf.Repr, indicesBuf.Repr
      ensures Loaded(num, primitive, EmitAll(num, format, primitive, Data(), Table()), r)
    {
      EmitAllEndsBetweenVertices(num, format, primitive, Data(), Table());
      var o, b := Build(format, primitive, num, vertexBuf, indicesBuf);
      if o.Fail? {
        r := Failure(o.error);
      } else {
        r := CreateMeshOf(b);
      }
    }

    /**
     * `load(vertexFormat, primitiveType)`, building on the given buffers: it
     * returns or throws exactly what `LoadState` and `createMesh()` say of
     * the lines left to read, the lists already held and the tangent arrays.
     * Afterwards the scanner has delivered the lines the loop read, the
     * lists are what those lines left, even past an exception, and the
     * tangent arrays are new only when the whole file parsed.
     */
    method Load(format: VertexFormat, primitive: int, num: Numerics, vertexBuf: ExpandableBuffer,
                indicesBuf: ExpandableBuffer) returns (r: Result<BakedMesh>)
      requires Valid() && format.Valid() && vertexBuf.Valid() && indicesBuf.Valid() && vertexBuf.Repr !! indicesBuf.Repr
      requires ApartFrom(vertexBuf.Repr + indicesBuf.Repr)
      modifies this, vertexBuf.Repr, indicesBuf.Repr
      ensures Loaded(num, primitive, LoadState(syn, num, format, primitive, old(Data()), old(Table()), old(scan)), r)
      ensures !LenientlyCompatible(POS_TEX_COL4_NORM_TANG_BITANG, format.attributes) ==>
                scan == old(scan) && Data() == old(Data()) && tangents == old(tangents) && bitangents == old(bitangents)
      ensures LenientlyCompatible(POS_TEX_COL4_NORM_TANG_BITANG, format.attributes) ==>
                scan == old(scan)[LinesConsumed(syn, old(Data()), old(scan), primitive)..]
                && Data() == LinesLeave(syn, old(Data()), old(scan), primitive)
      ensures LenientlyCompatible(POS_TEX_COL4_NORM_TANG_BITANG, format.attributes)
              && ParseLines(syn, old(Data()), old(scan), primitive).Failure? ==>
                tangents == old(tangents) && bitangents == old(bitangents)
      ensures LenientlyCompatible(POS_TEX_COL4_NORM_TANG_BITANG, format.attributes)
              && ParseLines(syn, old(Data()), old(scan), primitive).Success? ==>
                Valid() && Table() == TablePass(format.attributes, Data(), old(Table()))
    {
      var obj := new VertexFormat(POS_TEX_COL4_NORM_TANG_BITANG);
      var compatible := obj.IsLenientlyCompatible(format);
      if !compatible {
        return Failure(IllegalState(IncompatibleObjFormat));
      }
      var o := Read(format, primitive);
      if o.Fail? {
        return Failure(o.error);
      }
      r := Bake(format, primitive, num, vertexBuf, indicesBuf);
    }
  }
}
