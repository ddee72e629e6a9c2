/**
 * `physics.Mesh`: a second, smaller OBJ reader for the physics side. It
 * keeps positions, normals and triangles, and bakes them into a
 * non-indexed triangle mesh of (position, normal) vertices.
 *
 * `Float.parseFloat` and `Integer.parseInt` are supplied by the caller,
 * the scanner's lines are a sequence of strings, and the resource lookup
 * in `loadMesh` is not modelled.
 */
module PhysicsMesh {
  import opened Base
  import opened JavaString
  import opened OpenGlUtil
  import opened VertexAttributes
  import opened VertexFormats
  import opened ExpandableBuffers
  import opened MeshBuilders

  /** Three 1-based list indices, as in one of `Triangle`'s `int[3]` arrays. */
  datatype Triple = Triple(a: int32, b: int32, c: int32)

  /** `Triangle`: the position indices and the normal indices of its corners. */
  datatype Triangle = Triangle(posInds: Triple, normInds: Triple)

  /** The mesh's three lists. */
  datatype MeshData = MeshData(positions: seq<Vec3>, normals: seq<Vec3>, primitives: seq<Triangle>)

  function Empty(): (d: MeshData)
    ensures d.positions == [] && d.normals == [] && d.primitives == []
  {
    MeshData([], [], [])
  }

  // ----- Parsing -----

  /** `Float.parseFloat(str)`; a `NumberFormatException` is not caught here. */
  function ParseFloat(syn: NumberSyntax, str: string): (r: Result<real>)
    ensures r.Failure? <==> syn.parseFloat(str).None?
    ensures r.Failure? ==> r.error == NumberFormat(str)
  {
    match syn.parseFloat(str)
    case None => Failure(NumberFormat(str))
    case Some(f) => Success(f)
  }

  /** `Integer.parseInt(str)`. */
  function ParseInt(syn: NumberSyntax, str: string): (r: Result<int32>)
    ensures r.Failure? <==> syn.parseInt(str).None?
    ensures r.Failure? ==> r.error == NumberFormat(str)
  {
    match syn.parseInt(str)
    case None => Failure(NumberFormat(str))
    case Some(n) => Success(n)
  }

  /** `new Vector3f(parseFloat(parts[1]), parseFloat(parts[2]), parseFloat(parts[3]))`, left to right. */
  function ParseVec(syn: NumberSyntax, parts: seq<string>): (r: Result<Vec3>)
    requires |parts| == 4
    ensures r.Success? <==> syn.parseFloat(parts[1]).Some? && syn.parseFloat(parts[2]).Some? && syn.parseFloat(parts[3]).Some?
    ensures r.Success? ==> r.value == Vec3(syn.parseFloat(parts[1]).value, syn.parseFloat(parts[2]).value,
                                           syn.parseFloat(parts[3]).value)
    ensures r.Failure? ==> !r.error.IO?
  {
    var x :- ParseFloat(syn, parts[1]);
    var y :- ParseFloat(syn, parts[2]);
    var z :- ParseFloat(syn, parts[3]);
    Success(Vec3(x, y, z))
  }

  /** `ps[i]` on a Java array: out of range throws. */
  function Part(ps: seq<string>, i: nat): (r: Result<string>)
    ensures r.Success? <==> i < |ps|
    ensures r.Success? ==> r.value == ps[i]
    ensures r.Failure? ==> r.error == IndexOutOfBounds(i)
  {
    if i < |ps| then Success(ps[i]) else Failure(IndexOutOfBounds(i))
  }

  /** `Integer.parseInt(vert[i])`. */
  function IndexPart(syn: NumberSyntax, vert: seq<string>, i: nat): (r: Result<int32>)
    ensures r.Success? ==> i < |vert| && syn.parseInt(vert[i]) == Some(r.value)
    ensures r.Failure? ==> !r.error.IO?
  {
    var s :- Part(vert, i);
    ParseInt(syn, s)
  }

  /**
   * The `f` case: each corner split on `/`, then the `Triangle` constructor's
   * arguments in order: the three position parts `[0]`, then the three
   * normal parts `[2]`.
   */
  function ParseFace(syn: NumberSyntax, parts: seq<string>): (r: Result<Triangle>)
    requires |parts| == 4
    ensures r.Success? ==> |Split(parts[1], '/')| >= 3 && |Split(parts[2], '/')| >= 3 && |Split(parts[3], '/')| >= 3
    ensures r.Failure? ==> !r.error.IO?
  {
    var v1 := Split(parts[1], '/');
    var v2 := Split(parts[2], '/');
    var v3 := Split(parts[3], '/');
    var p1 :- IndexPart(syn, v1, 0);
    var p2 :- IndexPart(syn, v2, 0);
    var p3 :- IndexPart(syn, v3, 0);
    var n1 :- IndexPart(syn, v1, 2);
    var n2 :- IndexPart(syn, v2, 2);
    var n3 :- IndexPart(syn, v3, 2);
    Success(Triangle(Triple(p1, p2, p3), Triple(n1, n2, n3)))
  }

  /**
   * `parseLine(lineNo, line)`: comments and unknown directives (`vt`
   * included) change nothing; `v`, `vn` and `f` need four parts and add one
   * entry to their list, which happens only once every part has been read.
   */
  function ParseLineStep(syn: NumberSyntax, d: MeshData, lineNo: int, line: string): (r: Result<MeshData>)
    ensures r.Success? ==> d.positions <= r.value.positions && d.normals <= r.value.normals
                           && d.primitives <= r.value.primitives
    ensures r.Success? ==> |r.value.positions| + |r.value.normals| + |r.value.primitives|
                           <= |d.positions| + |d.normals| + |d.primitives| + 1
    ensures r.Failure? && r.error.IO? ==> r.error.ioLine == lineNo
  {
    if StartsWith(line, "#") then Success(d)
    else ParseParts(syn, d, lineNo, Split(line, ' '))
  }

  /** The switch on the first of the line's space-separated parts. */
  function ParseParts(syn: NumberSyntax, d: MeshData, lineNo: int, parts: seq<string>): (r: Result<MeshData>)
    ensures r.Success? ==> d.positions <= r.value.positions && d.normals <= r.value.normals
                           && d.primitives <= r.value.primitives
    ensures r.Success? ==> |r.value.positions| + |r.value.normals| + |r.value.primitives|
                           <= |d.positions| + |d.normals| + |d.primitives| + 1
    ensures r.Failure? && r.error.IO? ==> r.error.ioLine == lineNo
    ensures |parts| == 4 && parts[0] == "f" ==>
              (r.Success? <==> ParseFace(syn, parts).Success?)
  {
    if parts == [] then Failure(IndexOutOfBounds(0))
    else if parts[0] == "v" then
      if |parts| != 4 then Failure(IO(lineNo, InvalidPositionData))
      else
        var p :- ParseVec(syn, parts);
        Success(d.(positions := d.positions + [p]))
    else if parts[0] == "vn" then
      if |parts| != 4 then Failure(IO(lineNo, InvalidNormalData))
      else
        var n :- ParseVec(syn, parts);
        Success(d.(normals := d.normals + [n]))
    else if parts[0] == "f" then
      if |parts| != 4 then Failure(IO(lineNo, InvalidFaceData))
      else
        var t :- ParseFace(syn, parts);
        Success(d.(primitives := d.primitives + [t]))
    else Success(d)
  }

  /** Lines that change nothing: comments, texture coordinates and any other first word. */
  lemma IgnoredLines(syn: NumberSyntax, d: MeshData, lineNo: int, line: string)
    ensures StartsWith(line, "#") ==> ParseLineStep(syn, d, lineNo, line) == Success(d)
    ensures var parts := Split(line, ' ');
            !StartsWith(line, "#") && parts != [] && parts[0] != "v" && parts[0] != "vn" && parts[0] != "f" ==>
              ParseLineStep(syn, d, lineNo, line) == Success(d)
    ensures !StartsWith(line, "#") && Split(line, ' ') != [] && Split(line, ' ')[0] == "vt" ==>
              ParseLineStep(syn, d, lineNo, line) == Success(d)
  {
  }

  /**
   * A `v`, `vn` or `f` line of other than four parts throws an
   * `IOException` for `lineNo`; one of four parts that reads adds exactly its
   * entry.
   */
  lemma DirectiveLines(syn: NumberSyntax, d: MeshData, lineNo: int, line: string)
    requires !StartsWith(line, "#") && Split(line, ' ') != []
    ensures var parts := Split(line, ' '); var r := ParseLineStep(syn, d, lineNo, line);
            (parts[0] == "v" && |parts| != 4 ==> r == Failure(IO(lineNo, InvalidPositionData)))
            && (parts[0] == "vn" && |parts| != 4 ==> r == Failure(IO(lineNo, InvalidNormalData)))
            && (parts[0] == "f" && |parts| != 4 ==> r == Failure(IO(lineNo, InvalidFaceData)))
            && (parts[0] == "v" && r.Success? ==> r.value == d.(positions := d.positions + [ParseVec(syn, parts).value]))
            && (parts[0] == "vn" && r.Success? ==> r.value == d.(normals := d.normals + [ParseVec(syn, parts).value]))
            && (parts[0] == "f" && r.Success? ==> r.value == d.(primitives := d.primitives + [ParseFace(syn, parts).value]))
  {
  }

  /** A face corner of fewer than three `/` parts has no normal index, and the line throws. */
  lemma ShortCornerThrows(syn: NumberSyntax, d: MeshData, lineNo: int, line: string, i: nat)
    requires !StartsWith(line, "#")
    requires var parts := Split(line, ' '); |parts| == 4 && parts[0] == "f" && 1 <= i <= 3 && |Split(parts[i], '/')| < 3
    ensures ParseLineStep(syn, d, lineNo, line).Failure?
  {
    var parts := Split(line, ' ');
    if i == 1 {
      assert |Split(parts[1], '/')| < 3;
    } else if i == 2 {
      assert |Split(parts[2], '/')| < 3;
    } else {
      assert |Split(parts[3], '/')| < 3;
    }
    assert ParseFace(syn, parts).Failure?;
    assert ParseLineStep(syn, d, lineNo, line) == ParseParts(syn, d, lineNo, parts);
  }

  /** What the loop of `loadMesh` leaves: the lists, and whether the last line read threw. */
  datatype Loading = Loading(data: MeshData, outcome: Outcome)

  /**
   * `while (scan.hasNextLine()) parseLine(lineNo, scan.nextLine())`: every
   * line is parsed with `lineNo` 1, because the increment comes after the
   * loop; the first exception ends it, with the lines before it loaded.
   */
  function LoadLines(syn: NumberSyntax, d: MeshData, source: seq<string>): (r: Loading)
    ensures d.positions <= r.data.positions && d.normals <= r.data.normals && d.primitives <= r.data.primitives
    decreases |source|
  {
    if source == [] then Loading(d, Pass)
    else match ParseLineStep(syn, d, 1, source[0])
      case Failure(e) => Loading(d, Fail(e))
      case Success(e) => LoadLines(syn, e, source[1..])
  }

  /** Every `IOException` the loop throws names line 1, whichever line it was raised for. */
  lemma {:induction false} ErrorsNameLineOne(syn: NumberSyntax, d: MeshData, source: seq<string>)
    ensures var o := LoadLines(syn, d, source).outcome; o.Fail? && o.error.IO? ==> o.error.ioLine == 1
    decreases |source|
  {
    if source != [] {
      match ParseLineStep(syn, d, 1, source[0])
      case Failure(e) =>
      case Success(e) =>
        ErrorsNameLineOne(syn, e, source[1..]);
    }
  }

  /** Reading `pre` and then `post` is reading `pre + post`, unless `pre` already threw. */
  lemma {:induction false} LoadLinesAppend(syn: NumberSyntax, d: MeshData, pre: seq<string>, post: seq<string>)
    ensures var l := LoadLines(syn, d, pre);
            LoadLines(syn, d, pre + post) == if l.outcome.Pass? then LoadLines(syn, l.data, post) else l
    decreases |pre|
  {
    if pre == [] {
      assert pre + post == post;
    } else {
      assert (pre + post)[0] == pre[0];
      assert (pre + post)[1..] == pre[1..] + post;
      match ParseLineStep(syn, d, 1, pre[0])
      case Failure(e) =>
      case Success(e) =>
        LoadLinesAppend(syn, e, pre[1..], post);
    }
  }

  /**
   * `new Mesh(location)` up to the resource lookup: the lines are loaded;
   * an `IOException` is swallowed, leaving what was read before it; any
   * other exception escapes the constructor.
   */
  function Construct(syn: NumberSyntax, source: seq<string>): (r: Result<MeshData>)
    ensures r.Failure? ==> !r.error.IO? && LoadLines(syn, Empty(), source).outcome == Fail(r.error)
    ensures r.Success? ==> r.value == LoadLines(syn, Empty(), source).data
  {
    var l := LoadLines(syn, Empty(), source);
    if l.outcome.Fail? && !l.outcome.error.IO? then Failure(l.outcome.error) else Success(l.data)
  }

  /** A line that raises an `IOException` leaves the mesh as the lines before it made it; what follows is not read. */
  lemma BadLineKeepsEarlierLines(syn: NumberSyntax, pre: seq<string>, bad: string, post: seq<string>)
    requires LoadLines(syn, Empty(), pre).outcome.Pass?
    requires var e := ParseLineStep(syn, LoadLines(syn, Empty(), pre).data, 1, bad); e.Failure? && e.error.IO?
    ensures Construct(syn, pre + [bad] + post) == Success(LoadLines(syn, Empty(), pre).data)
  {
    var l := LoadLines(syn, Empty(), pre);
    LoadLinesAppend(syn, Empty(), pre, [bad] + post);
    assert pre + [bad] + post == pre + ([bad] + post);
    assert ([bad] + post)[0] == bad;
  }

  // ----- Baking -----

  /** One vertex of the baked mesh. */
  datatype Corner = Corner(pos: Vec3, norm: Vec3)

  /** `index - 1` in Java `int` arithmetic. */
  function Before(index: int32): int {
    if index == -0x8000_0000 then 0x7FFF_FFFF else index as int - 1
  }

  /** `list.get(index - 1)`: a 1-based lookup that throws outside the list. */
  function Get(list: seq<Vec3>, index: int32): (r: Result<Vec3>)
    requires |list| < 0x8000_0000
    ensures r.Success? <==> 1 <= index as int <= |list|
    ensures r.Success? ==> r.value == list[index - 1]
    ensures r.Failure? ==> r.error == IndexOutOfBounds(Before(index))
  {
    var i := Before(index);
    if 0 <= i < |list| then Success(list[i]) else Failure(IndexOutOfBounds(i))
  }

  /** Corner `j` of a triangle: the position looked up first, then the normal. */
  function CornerAt(d: MeshData, p: int32, n: int32): (r: Result<Corner>)
    requires |d.positions| < 0x8000_0000 && |d.normals| < 0x8000_0000
    ensures r.Success? <==> 1 <= p as int <= |d.positions| && 1 <= n as int <= |d.normals|
    ensures r.Success? ==> r.value == Corner(d.positions[p - 1], d.normals[n - 1])
  {
    var pos :- Get(d.positions, p);
    var norm :- Get(d.normals, n);
    Success(Corner(pos, norm))
  }

  predicate Fits(d: MeshData) {
    |d.positions| < 0x8000_0000 && |d.normals| < 0x8000_0000
  }

  /** A triangle's three corners, in the order the builder chain reads them. */
  function TriangleCorners(d: MeshData, t: Triangle): (r: Result<seq<Corner>>)
    requires Fits(d)
    ensures r.Success? ==> |r.value| == 3
  {
    var c1 :- CornerAt(d, t.posInds.a, t.normInds.a);
    var c2 :- CornerAt(d, t.posInds.b, t.normInds.b);
    var c3 :- CornerAt(d, t.posInds.c, t.normInds.c);
    Success([c1, c2, c3])
  }

  /** The corners of the first `k` triangles, or the first lookup that throws. */
  function Corners(d: MeshData, k: nat): (r: Result<seq<Corner>>)
    requires Fits(d) && k <= |d.primitives|
    ensures r.Success? ==> |r.value| == 3 * k
  {
    if k == 0 then Success([])
    else
      var cs :- Corners(d, k - 1);
      var t :- TriangleCorners(d, d.primitives[k - 1]);
      Success(cs + t)
  }

  /** Each index of triangle `t` names an entry of its list. */
  predicate TriangleInRange(d: MeshData, t: Triangle) {
    (1 <= t.posInds.a as int <= |d.positions| && 1 <= t.posInds.b as int <= |d.positions|
     && 1 <= t.posInds.c as int <= |d.positions|)
    && (1 <= t.normInds.a as int <= |d.normals| && 1 <= t.normInds.b as int <= |d.normals|
        && 1 <= t.normInds.c as int <= |d.normals|)
  }

  /** Every index of every triangle names an entry of its list. */
  predicate InRange(d: MeshData) {
    forall i :: 0 <= i < |d.primitives| ==> TriangleInRange(d, d.primitives[i])
  }

  /** One triangle's lookups all succeed exactly when its indices are in range. */
  lemma TriangleCornersSucceed(d: MeshData, t: Triangle)
    requires Fits(d)
    ensures TriangleCorners(d, t).Success? <==> TriangleInRange(d, t)
  {
  }

  /** The first `k` triangles bake exactly when the first `k - 1` do and triangle `k` does. */
  lemma CornersStep(d: MeshData, k: nat)
    requires Fits(d) && 0 < k <= |d.primitives|
    ensures Corners(d, k).Success? <==> Corners(d, k - 1).Success? && TriangleCorners(d, d.primitives[k - 1]).Success?
  {
  }

  /** The first `k` triangles are in range exactly when the first `k - 1` are and triangle `k` is. */
  lemma InRangeStep(d: MeshData, k: nat)
    requires 0 < k <= |d.primitives|
    ensures InRange(d.(primitives := d.primitives[..k]))
            <==> InRange(d.(primitives := d.primitives[..k - 1])) && TriangleInRange(d, d.primitives[k - 1])
  {
    var shorter := d.(primitives := d.primitives[..k - 1]);
    var longer := d.(primitives := d.primitives[..k]);
    assert longer.primitives[k - 1] == d.primitives[k - 1];
    if InRange(longer) {
      assert TriangleInRange(longer, longer.primitives[k - 1]);
      forall i | 0 <= i < |shorter.primitives|
        ensures TriangleInRange(shorter, shorter.primitives[i])
      {
        assert longer.primitives[i] == shorter.primitives[i];
        assert TriangleInRange(longer, longer.primitives[i]);
      }
    }
    if InRange(shorter) && TriangleInRange(d, d.primitives[k - 1]) {
      forall i | 0 <= i < |longer.primitives|
        ensures TriangleInRange(longer, longer.primitives[i])
      {
        if i < k - 1 {
          assert longer.primitives[i] == shorter.primitives[i];
          assert TriangleInRange(shorter, shorter.primitives[i]);
        }
      }
    }
  }

  /** Baking throws exactly when some index is out of range. */
  lemma {:induction false} CornersSucceed(d: MeshData, k: nat)
    requires Fits(d) && k <= |d.primitives|
    ensures Corners(d, k).Success? <==> InRange(d.(primitives := d.primitives[..k]))
  {
    if k > 0 {
      CornersSucceed(d, k - 1);
      CornersStep(d, k);
      TriangleCornersSucceed(d, d.primitives[k - 1]);
      InRangeStep(d, k);
    }
  }

  /** A lookup that threw for the first `k` triangles is what baking them all throws. */
  lemma {:induction false} CornersStopAtFailure(d: MeshData, k: nat, n: nat)
    requires Fits(d) && k <= n <= |d.primitives| && Corners(d, k).Failure?
    ensures Corners(d, n) == Corners(d, k)
    decreases n
  {
    if k < n {
      CornersStopAtFailure(d, k, n - 1);
    }
  }

  /** What `pos(v)` writes in a `POSITION_DOUBLE` slot and `norm(v)` in a `NORMAL_FLOAT` slot. */
  function PosComponents(v: Vec3): seq<Component> {
    [DoubleValue(v.x), DoubleValue(v.y), DoubleValue(v.z)]
  }

  function NormComponents(v: Vec3): seq<Component> {
    [FloatValue(v.x), FloatValue(v.y), FloatValue(v.z)]
  }

  /** The components of the vertices `cs`, in order. */
  function Written(cs: seq<Corner>): seq<Component> {
    if cs == [] then []
    else Written(cs[..|cs| - 1]) + PosComponents(cs[|cs| - 1].pos) + NormComponents(cs[|cs| - 1].norm)
  }

  /** A strict, implicit `POS_NORM` builder that has written the vertices `cs` and no index. */
  function Filled(format: VertexFormat, cs: seq<Corner>): State {
    State(format, 0, false, false, |cs|, Written(cs), [])
  }

  /** A builder that has written `cs` and then the position `v`. */
  function HalfFilled(format: VertexFormat, cs: seq<Corner>, v: Vec3): State {
    Filled(format, cs).(index := 1, written := Written(cs) + PosComponents(v))
  }

  /** `pos` on a builder between vertices fills the position slot. */
  lemma FeedPos(format: VertexFormat, num: Numerics, cs: seq<Corner>, v: Vec3)
    requires format.attributes == POS_NORM
    ensures Feed(POS_NORM, num, Filled(format, cs), PosCall(v.x, v.y, v.z)) == Success(HalfFilled(format, cs, v))
  {
  }

  /** `norm` after it completes one vertex more. */
  lemma FeedNorm(format: VertexFormat, num: Numerics, cs: seq<Corner>, c: Corner)
    requires format.attributes == POS_NORM
    ensures Feed(POS_NORM, num, HalfFilled(format, cs, c.pos), NormCall(c.norm.x, c.norm.y, c.norm.z))
            == Success(Filled(format, cs + [c]))
  {
    assert (cs + [c])[..|cs|] == cs;
  }

  /** What `bakeMesh` returns for the lists `d`. */
  ghost predicate BakedFrom(num: Numerics, d: MeshData, r: Result<BakedMesh>)
    requires Fits(d)
  {
    match Corners(d, |d.primitives|)
    case Failure(e) => r == Failure(e)
    case Success(cs) =>
      r.Success? && r.value.kind == Baked && r.value.count == 3 * |d.primitives|
      && Encode(num, Written(cs)) <= r.value.vertexData && r.value.indexData == []
  }

  /** The mesh, with its lists as fields. */
  class Mesh {
    const location: string
    const syn: NumberSyntax
    var positions: seq<Vec3>
    var normals: seq<Vec3>
    var primitives: seq<Triangle>

    function Data(): MeshData
      reads this
    {
      MeshData(positions, normals, primitives)
    }

    /** The field initialisers: three empty lists. */
    constructor (location: string, syn: NumberSyntax)
      ensures this.location == location && this.syn == syn && Data() == Empty()
    {
      this.location := location;
      this.syn := syn;
      positions := [];
      normals := [];
      primitives := [];
    }

    /** `parseLine(lineNo, line)`: returns or throws as `ParseLineStep` says; a line that throws adds nothing. */
    method ParseLine(lineNo: int, line: string) returns (o: Outcome)
      modifies this
      ensures o.Pass? <==> ParseLineStep(syn, old(Data()), lineNo, line).Success?
      ensures o.Pass? ==> Data() == ParseLineStep(syn, old(Data()), lineNo, line).value
      ensures o.Fail? ==> ParseLineStep(syn, old(Data()), lineNo, line) == Failure(o.error) && Data() == old(Data())
    {
      if StartsWith(line, "#") {
        return Pass;
      }
      var parts := Split(line, ' ');
      if |parts| == 0 {
        return Fail(IndexOutOfBounds(0));
      }
      if parts[0] == "v" {
        if |parts| != 4 {
          return Fail(IO(lineNo, InvalidPositionData));
        }
        var p := ParseVec(syn, parts);
        if p.Failure? {
          return Fail(p.error);
        }
        positions := positions + [p.value];
      } else if parts[0] == "vn" {
        if |parts| != 4 {
          return Fail(IO(lineNo, InvalidNormalData));
        }
        var n := ParseVec(syn, parts);
        if n.Failure? {
          return Fail(n.error);
        }
        normals := normals + [n.value];
      } else if parts[0] == "f" {
        if |parts| != 4 {
          return Fail(IO(lineNo, InvalidFaceData));
        }
        var t := ParseFace(syn, parts);
        if t.Failure? {
          return Fail(t.error);
        }
        primitives := primitives + [t.value];
      }
      o := Pass;
    }

    /** The line loop of `loadMesh`, over the lines the scanner yields. */
    method LoadMesh(source: seq<string>) returns (o: Outcome)
      modifies this
      ensures LoadLines(syn, old(Data()), source) == Loading(Data(), o)
    {
      var lineNo := 1;
      var k := 0;
      o := Pass;
      while o.Pass? && k < |source|
        invariant 0 <= k <= |source|
        invariant o.Pass? ==> LoadLines(syn, old(Data()), source) == LoadLines(syn, Data(), source[k..])
        invariant o.Fail? ==> LoadLines(syn, old(Data()), source) == Loading(Data(), o)
        decreases |source| - k
      {
        assert source[k..][0] == source[k] && source[k..][1..] == source[k + 1..];
        o := ParseLine(lineNo, source[k]);
        k := k + 1;
      }
      lineNo := lineNo + 1;
    }

    /**
     * `bakeMesh()` on a strict `POS_NORM` builder for triangles over the given
     * buffers: three (position, normal) vertices per triangle, in order,
     * then `createMesh()`.
     */
    method BakeMesh(format: VertexFormat, num: Numerics, vertexBuf: ExpandableBuffer, indicesBuf: ExpandableBuffer)
      returns (r: Result<BakedMesh>)
      requires Fits(Data()) && format.attributes == POS_NORM && format.Valid()
      requires vertexBuf.Valid() && indicesBuf.Valid() && vertexBuf.Repr !! indicesBuf.Repr
      requires this !in vertexBuf.Repr && this !in indicesBuf.Repr
      modifies vertexBuf.Repr, indicesBuf.Repr
      ensures BakedFrom(num, Data(), r)
    {
      var b := new MeshBuilder(format, GL_TRIANGLES, num, vertexBuf, indicesBuf);
      var o := EmitTriangles(b, Data());
      if o.Fail? {
        r := Failure(o.error);
      } else {
        r := b.CreateMesh();
      }
    }
  }

  /** The `for (Triangle tri : primitives)` loop, over the mesh's lists `d`. */
  method EmitTriangles(b: MeshBuilder, d: MeshData) returns (o: Outcome)
    requires Fits(d) && b.Valid() && b.vertexFormat.attributes == POS_NORM
    requires b.Abs() == Filled(b.vertexFormat, [])
    modifies b.Repr()
    ensures b.Valid() && fresh(b.Repr() - old(b.Repr())) && b.SameBuffers()
    ensures match Corners(d, |d.primitives|)
            case Success(cs) => o == Pass && b.Abs() == Filled(b.vertexFormat, cs)
            case Failure(e) => o == Fail(e)
  {
    ghost var rs := CornerResults(d);
    ghost var cs: seq<Corner> := [];
    var k := 0;
    o := Pass;
    while o.Pass? && k < |d.primitives|
      invariant 0 <= k <= |d.primitives|
      invariant b.Valid() && fresh(b.Repr() - old(b.Repr())) && b.SameBuffers()
      invariant o.Pass? ==> rs[k] == Success(cs) && b.Abs() == Filled(b.vertexFormat, cs)
      invariant o.Fail? ==> rs[|d.primitives|] == Failure(o.error)
      decreases |d.primitives| - k
    {
      o, cs := EmitTriangle(b, d, k, cs, rs);
      k := k + 1;
    }
    assert rs[|d.primitives|] == Corners(d, |d.primitives|);
  }

  /** One triangle: `pos(..).norm(..)` for each of its corners. */
  method EmitTriangle(b: MeshBuilder, d: MeshData, k: nat, ghost cs: seq<Corner>, ghost rs: seq<Result<seq<Corner>>>)
    returns (o: Outcome, ghost next: seq<Corner>)
    requires CornerTable(rs, d) && k < |d.primitives| && rs[k] == Success(cs)
    requires b.Valid() && b.vertexFormat.attributes == POS_NORM
    requires b.Abs() == Filled(b.vertexFormat, cs)
    modifies b.Repr()
    ensures b.Valid() && fresh(b.Repr() - old(b.Repr())) && b.SameBuffers()
    ensures o.Pass? ==> rs[k + 1] == Success(next) && b.Abs() == Filled(b.vertexFormat, next)
    ensures o.Fail? ==> rs[|d.primitives|] == Failure(o.error)
  {
    assert rs[k] == Corners(d, k);
    var tri := d.primitives[k];
    ghost var zero := Corner(Vec3(0.0, 0.0, 0.0), Vec3(0.0, 0.0, 0.0));
    ghost var c1, c2, c3 := zero, zero, zero;
    o, c1 := EmitCorner(b, d, tri.posInds.a, tri.normInds.a, cs);
    if o.Pass? {
      o, c2, c3 := EmitLastCorners(b, d, tri, cs + [c1]);
    }
    next := cs + [c1] + [c2] + [c3];
    TriangleTrace(d, k, cs, o, c1, c2, c3);
    assert rs[k + 1] == Corners(d, k + 1);
    assert rs[|d.primitives|] == Corners(d, |d.primitives|);
  }

  /** The second and third corners of triangle `t`, the first exception ending it. */
  method EmitLastCorners(b: MeshBuilder, d: MeshData, t: Triangle, ghost cs: seq<Corner>)
    returns (o: Outcome, ghost c2: Corner, ghost c3: Corner)
    requires Fits(d) && b.Valid() && b.vertexFormat.attributes == POS_NORM
    requires b.Abs() == Filled(b.vertexFormat, cs)
    modifies b.Repr()
    ensures b.Valid() && fresh(b.Repr() - old(b.Repr())) && b.SameBuffers()
    ensures var r2 := CornerAt(d, t.posInds.b, t.normInds.b);
            (r2.Failure? ==> o == Fail(r2.error))
            && (r2.Success? ==> r2 == Success(c2) && Lands(CornerAt(d, t.posInds.c, t.normInds.c), o, c3))
    ensures o.Pass? ==> b.Abs() == Filled(b.vertexFormat, cs + [c2] + [c3])
  {
    c3 := Corner(Vec3(0.0, 0.0, 0.0), Vec3(0.0, 0.0, 0.0));
    o, c2 := EmitCorner(b, d, t.posInds.b, t.normInds.b, cs);
    if o.Pass? {
      o, c3 := EmitCorner(b, d, t.posInds.c, t.normInds.c, cs + [c2]);
    }
  }

  /** `pos(positions.get(p - 1)).norm(normals.get(n - 1))`. */
  method EmitCorner(b: MeshBuilder, d: MeshData, p: int32, n: int32, ghost cs: seq<Corner>)
    returns (o: Outcome, ghost c: Corner)
    requires Fits(d) && b.Valid() && b.vertexFormat.attributes == POS_NORM
    requires b.Abs() == Filled(b.vertexFormat, cs)
    modifies b.Repr()
    ensures b.Valid() && fresh(b.Repr() - old(b.Repr())) && b.SameBuffers()
    ensures Lands(CornerAt(d, p, n), o, c)
    ensures o.Pass? ==> b.Abs() == Filled(b.vertexFormat, cs + [c])
  {
    c := Corner(Vec3(0.0, 0.0, 0.0), Vec3(0.0, 0.0, 0.0));
    var pos := Get(d.positions, p);
    if pos.Failure? {
      o := Fail(pos.error);
    } else {
      EmitPos(b, pos.value, cs);
      var norm := Get(d.normals, n);
      if norm.Failure? {
        o := Fail(norm.error);
      } else {
        c := Corner(pos.value, norm.value);
        EmitNorm(b, Corner(pos.value, norm.value), cs);
        o := Pass;
      }
    }
  }

  /**
   * `rs` lists the corners of the first `k` triangles for every `k`. (The
   * `var` keeps the predicate whole, so that a loop can carry it without
   * unfolding `Corners`.)
   */
  ghost predicate CornerTable(rs: seq<Result<seq<Corner>>>, d: MeshData) {
    var whole := Fits(d) && |rs| == |d.primitives| + 1
      && forall k {:trigger Corners(d, k)} :: 0 <= k <= |d.primitives| ==> rs[k] == Corners(d, k);
    whole
  }

  /** The table of `Corners` for a mesh's lists. */
  lemma CornerResults(d: MeshData) returns (rs: seq<Result<seq<Corner>>>)
    requires Fits(d)
    ensures CornerTable(rs, d) && rs[0] == Success([])
  {
    rs := seq(|d.primitives| + 1, k requires 0 <= k <= |d.primitives| => Corners(d, k));
  }

  /** A lookup that returned `c` or threw `o`'s exception. */
  predicate Lands(r: Result<Corner>, o: Outcome, c: Corner) {
    (o.Pass? ==> r == Success(c)) && (o.Fail? ==> r == Failure(o.error))
  }

  /**
   * The three corners of triangle `k` as `EmitCorner` found them, the first
   * exception ending the triangle, decide the triangles so far.
   */
  lemma TriangleTrace(d: MeshData, k: nat, cs: seq<Corner>, o: Outcome, c1: Corner, c2: Corner, c3: Corner)
    requires Fits(d) && k < |d.primitives| && Corners(d, k) == Success(cs)
    requires var t := d.primitives[k];
             var r1 := CornerAt(d, t.posInds.a, t.normInds.a);
             var r2 := CornerAt(d, t.posInds.b, t.normInds.b);
             var r3 := CornerAt(d, t.posInds.c, t.normInds.c);
             (r1.Failure? ==> o == Fail(r1.error))
             && (r1 == Success(c1) && r2.Failure? ==> o == Fail(r2.error))
             && (r1 == Success(c1) && r2 == Success(c2) ==> Lands(r3, o, c3))
             && (r1.Success? ==> r1 == Success(c1)) && (r1.Success? && r2.Success? ==> r2 == Success(c2))
    ensures o.Pass? ==> Corners(d, k + 1) == Success(cs + [c1] + [c2] + [c3])
    ensures o.Fail? ==> Corners(d, |d.primitives|) == Failure(o.error)
  {
    if o.Pass? {
      assert cs + [c1] + [c2] + [c3] == cs + [c1, c2, c3];
    } else {
      CornersStopAtFailure(d, k + 1, |d.primitives|);
    }
  }

  /** `pos(v)` on a builder between vertices. */
  method EmitPos(b: MeshBuilder, v: Vec3, ghost cs: seq<Corner>)
    requires b.Valid() && b.vertexFormat.attributes == POS_NORM && b.Abs() == Filled(b.vertexFormat, cs)
    modifies b.Repr()
    ensures b.Valid() && fresh(b.Repr() - old(b.Repr())) && b.SameBuffers()
    ensures b.Abs() == HalfFilled(b.vertexFormat, cs, v)
  {
    FeedPos(b.vertexFormat, b.num, cs, v);
    var o := b.PosVec(v);
  }

  /** `norm(c.norm)` after `pos(c.pos)`. */
  method EmitNorm(b: MeshBuilder, c: Corner, ghost cs: seq<Corner>)
    requires b.Valid() && b.vertexFormat.attributes == POS_NORM && b.Abs() == HalfFilled(b.vertexFormat, cs, c.pos)
    modifies b.Repr()
    ensures b.Valid() && fresh(b.Repr() - old(b.Repr())) && b.SameBuffers()
    ensures b.Abs() == Filled(b.vertexFormat, cs + [c])
  {
    FeedNorm(b.vertexFormat, b.num, cs, c);
    var o := b.NormVec(c.norm);
  }

  /** `new Mesh(location)` on the lines of its resource: `IOException`s are swallowed, other exceptions escape. */
  method NewMesh(location: string, syn: NumberSyntax, source: seq<string>) returns (r: Result<Mesh>)
    ensures r.Failure? <==> Construct(syn, source).Failure?
    ensures r.Failure? ==> r.error == Construct(syn, source).error
    ensures r.Success? ==> fresh(r.value) && r.value.location == location && r.value.Data() == Construct(syn, source).value
  {
    var m := new Mesh(location, syn);
    var o := m.LoadMesh(source);
    if o.Fail? && !o.error.IO? {
      r := Failure(o.error);
    } else {
      r := Success(m);
    }
  }
}
