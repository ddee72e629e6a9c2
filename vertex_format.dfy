/**
 * `render.util.VertexFormat`: an immutable sequence of vertex attributes
 * with its per-vertex byte size, the two compatibility relations between
 * formats, and the choice of mesh kind at the end of mesh creation.
 */
module VertexFormats {
  import opened Base
  import opened OpenGlUtil
  import opened VertexAttributes

  // The predefined formats.
  const POS2_COL: seq<VertexAttribute> := [POSITION2_FLOAT, COLOR_FLOAT]
  const POS2_COL4: seq<VertexAttribute> := [POSITION2_FLOAT, COLOR4_FLOAT]
  const POS2_TEX: seq<VertexAttribute> := [POSITION2_FLOAT, TEXTURE_FLOAT]
  const POS2_TEX_COL4: seq<VertexAttribute> := [POSITION2_FLOAT, TEXTURE_FLOAT, COLOR4_FLOAT]
  const POS2: seq<VertexAttribute> := [POSITION2_FLOAT]
  const POS: seq<VertexAttribute> := [POSITION_DOUBLE]
  const POS_NORM: seq<VertexAttribute> := [POSITION_DOUBLE, NORMAL_FLOAT]
  const POS_COL_NORM: seq<VertexAttribute> := [POSITION_DOUBLE, COLOR_FLOAT, NORMAL_FLOAT]
  const POS_COL4_NORM: seq<VertexAttribute> := [POSITION_DOUBLE, COLOR4_FLOAT, NORMAL_FLOAT]
  const POS_TEX_NORM: seq<VertexAttribute> := [POSITION_DOUBLE, TEXTURE_FLOAT, NORMAL_FLOAT]
  const POS_TEX_NORM_TANG_BITANG: seq<VertexAttribute> :=
    [POSITION_FLOAT, TEXTURE_FLOAT, NORMAL_FLOAT, TANGENT_FLOAT, BITANGENT_FLOAT]
  const POS_TEX_COL4_NORM_TANG_BITANG: seq<VertexAttribute> :=
    [POSITION_FLOAT, TEXTURE_FLOAT, COLOR4_FLOAT, NORMAL_FLOAT, TANGENT_FLOAT, BITANGENT_FLOAT]

  /** The attribute types of a format, in order. */
  function Types(attrs: seq<VertexAttribute>): (ts: seq<AttrType>)
    ensures |ts| == |attrs|
    ensures forall i :: 0 <= i < |attrs| ==> ts[i] == TypeOf(attrs[i])
  {
    seq(|attrs|, i requires 0 <= i < |attrs| => TypeOf(attrs[i]))
  }

  /** Bytes per vertex: the sizes of the attributes added up. */
  function Stride(attrs: seq<VertexAttribute>): nat {
    if attrs == [] then 0 else Stride(attrs[..|attrs| - 1]) + Size(attrs[|attrs| - 1])
  }

  /** Byte offset of attribute `k` within a vertex: the sizes of the slots before it. */
  function PrefixSize(attrs: seq<VertexAttribute>, k: nat): nat
    requires k <= |attrs|
  {
    Stride(attrs[..k])
  }

  /** Past the last slot the offset is the whole vertex. */
  lemma PrefixSizeWhole(attrs: seq<VertexAttribute>)
    ensures PrefixSize(attrs, |attrs|) == Stride(attrs)
  {
    assert attrs[..|attrs|] == attrs;
  }

  /** Every slot lies inside the vertex: its offset plus its size is the next offset. */
  lemma PrefixSizeStep(attrs: seq<VertexAttribute>, k: nat)
    requires k < |attrs|
    ensures PrefixSize(attrs, k + 1) == PrefixSize(attrs, k) + Size(attrs[k])
    ensures PrefixSize(attrs, k + 1) <= Stride(attrs)
  {
    assert attrs[..k + 1][..k] == attrs[..k];
    PrefixSizeMonotone(attrs, k + 1);
  }

  /** All slots lie inside the vertex. */
  lemma SlotsInsideVertex(attrs: seq<VertexAttribute>)
    ensures forall k :: 0 <= k < |attrs| ==> PrefixSize(attrs, k) + Size(attrs[k]) <= Stride(attrs)
  {
    forall k | 0 <= k < |attrs|
      ensures PrefixSize(attrs, k) + Size(attrs[k]) <= Stride(attrs)
    {
      PrefixSizeStep(attrs, k);
    }
  }

  lemma {:induction false} PrefixSizeMonotone(attrs: seq<VertexAttribute>, k: nat)
    requires k <= |attrs|
    ensures PrefixSize(attrs, k) <= Stride(attrs)
    decreases |attrs| - k
  {
    if k == |attrs| {
      PrefixSizeWhole(attrs);
    } else {
      assert attrs[..k + 1][..k] == attrs[..k];
      PrefixSizeMonotone(attrs, k + 1);
    }
  }

  /** Strict compatibility: same length and the same type at every position. */
  predicate Compatible(a: seq<VertexAttribute>, b: seq<VertexAttribute>) {
    |a| == |b| && forall i :: 0 <= i < |a| ==> TypeOf(a[i]) == TypeOf(b[i])
  }

  /**
   * The number of child types the greedy left-to-right scan of the parent
   * matches: each parent type matches the next unmatched child type if equal.
   */
  function Greedy(parent: seq<AttrType>, child: seq<AttrType>): (g: nat)
    ensures g <= |child| && g <= |parent|
  {
    if parent == [] then 0
    else
      var g := Greedy(parent[..|parent| - 1], child);
      if g < |child| && parent[|parent| - 1] == child[g] then g + 1 else g
  }

  /** `e` places the elements of `child` at strictly increasing positions of `parent`. */
  predicate Embeds(child: seq<AttrType>, parent: seq<AttrType>, e: seq<nat>) {
    |e| == |child|
    && (forall i :: 0 <= i < |e| ==> e[i] < |parent| && parent[e[i]] == child[i])
    && (forall i, j :: 0 <= i < j < |e| ==> e[i] < e[j])
  }

  ghost predicate IsSubsequence(child: seq<AttrType>, parent: seq<AttrType>) {
    exists e :: Embeds(child, parent, e)
  }

  /** Lenient compatibility as the source computes it. */
  predicate LenientlyCompatible(parent: seq<VertexAttribute>, child: seq<VertexAttribute>) {
    Greedy(Types(parent), Types(child)) == |child|
  }

  /** What the greedy scan matched is embedded in the parent. */
  lemma {:induction false} GreedySound(parent: seq<AttrType>, child: seq<AttrType>)
    ensures IsSubsequence(child[..Greedy(parent, child)], parent)
  {
    if parent == [] {
      assert Embeds(child[..0], parent, []);
    } else {
      var p := parent[..|parent| - 1];
      var g := Greedy(p, child);
      GreedySound(p, child);
      var e: seq<nat> :| Embeds(child[..g], p, e);
      assert Embeds(child[..g], parent, e);
      if g < |child| && parent[|parent| - 1] == child[g] {
        var e' := e + [|parent| - 1];
        assert Embeds(child[..g + 1], parent, e');
      }
    }
  }

  /** The greedy scan matches at least as many child types as any embedding does. */
  lemma {:induction false} GreedyMaximal(parent: seq<AttrType>, child: seq<AttrType>, j: nat)
    requires j <= |child| && IsSubsequence(child[..j], parent)
    ensures Greedy(parent, child) >= j
  {
    if j == 0 {
      return;
    }
    var e :| Embeds(child[..j], parent, e);
    assert e[j - 1] < |parent|;
    var p := parent[..|parent| - 1];
    if e[j - 1] < |parent| - 1 {
      assert Embeds(child[..j], p, e);
      GreedyMaximal(p, child, j);
    } else {
      var e' := e[..j - 1];
      assert Embeds(child[..j - 1], p, e') by {
        forall i | 0 <= i < j - 1 ensures e'[i] < |p| {
          assert e[i] < e[j - 1];
        }
      }
      GreedyMaximal(p, child, j - 1);
    }
  }

  /** The greedy scan decides the subsequence relation exactly. */
  lemma GreedyIsSubsequence(parent: seq<AttrType>, child: seq<AttrType>)
    ensures Greedy(parent, child) == |child| <==> IsSubsequence(child, parent)
  {
    assert child[..|child|] == child;
    if Greedy(parent, child) == |child| {
      GreedySound(parent, child);
    }
    if IsSubsequence(child, parent) {
      GreedyMaximal(parent, child, |child|);
    }
  }

  /** The documented meaning of lenient compatibility: the child's types are a subsequence of the parent's. */
  lemma LenientlyCompatibleMeansSubsequence(parent: seq<VertexAttribute>, child: seq<VertexAttribute>)
    ensures LenientlyCompatible(parent, child) <==> IsSubsequence(Types(child), Types(parent))
  {
    GreedyIsSubsequence(Types(parent), Types(child));
  }

  lemma CompatibleIsReflexiveAndSymmetric(a: seq<VertexAttribute>, b: seq<VertexAttribute>)
    ensures Compatible(a, a)
    ensures Compatible(a, b) ==> Compatible(b, a)
  {
  }

  /** Strict compatibility implies lenient compatibility. */
  lemma CompatibleImpliesLenient(a: seq<VertexAttribute>, b: seq<VertexAttribute>)
    requires Compatible(a, b)
    ensures LenientlyCompatible(a, b)
  {
    assert Types(a) == Types(b);
    var e := seq(|b|, i requires 0 <= i < |b| => i);
    assert Embeds(Types(b), Types(a), e);
    GreedyIsSubsequence(Types(a), Types(b));
  }

  /** ... but not the converse, and lenient compatibility is one-way. */
  lemma LenientIsOneWay()
    ensures LenientlyCompatible(POS_NORM, POS) && !Compatible(POS_NORM, POS)
    ensures !LenientlyCompatible(POS, POS_NORM)
  {
    assert Types(POS_NORM) == [Position, Normal];
    assert Types(POS) == [Position];
    assert Greedy([Position], [Position, Normal]) == 1 by {
      assert [Position][..0] == [];
    }
  }

  /** An explicit embedding witnesses lenient compatibility. */
  lemma EmbeddingWitness(parent: seq<VertexAttribute>, child: seq<VertexAttribute>, e: seq<nat>)
    requires Embeds(Types(child), Types(parent), e)
    ensures LenientlyCompatible(parent, child)
  {
    GreedyIsSubsequence(Types(parent), Types(child));
  }

  /** The OBJ loader's source format can feed every predefined two-dimensional format ... */
  lemma ObjSourceFeeds2D()
    ensures LenientlyCompatible(POS_TEX_COL4_NORM_TANG_BITANG, POS2)
    ensures LenientlyCompatible(POS_TEX_COL4_NORM_TANG_BITANG, POS2_COL)
    ensures LenientlyCompatible(POS_TEX_COL4_NORM_TANG_BITANG, POS2_COL4)
  {
    var src := POS_TEX_COL4_NORM_TANG_BITANG;
    assert Types(src) == [Position, Texture, Color, Normal, Tangent, Bitangent];
    assert LenientlyCompatible(src, POS2) by { EmbeddingWitness(src, POS2, [0]); }
    assert LenientlyCompatible(src, POS2_COL) by { EmbeddingWitness(src, POS2_COL, [0, 2]); }
    assert LenientlyCompatible(src, POS2_COL4) by { EmbeddingWitness(src, POS2_COL4, [0, 2]); }
  }

  lemma ObjSourceFeeds2DTextured()
    ensures LenientlyCompatible(POS_TEX_COL4_NORM_TANG_BITANG, POS2_TEX)
    ensures LenientlyCompatible(POS_TEX_COL4_NORM_TANG_BITANG, POS2_TEX_COL4)
  {
    var src := POS_TEX_COL4_NORM_TANG_BITANG;
    assert Types(src) == [Position, Texture, Color, Normal, Tangent, Bitangent];
    assert LenientlyCompatible(src, POS2_TEX) by { EmbeddingWitness(src, POS2_TEX, [0, 1]); }
    assert LenientlyCompatible(src, POS2_TEX_COL4) by { EmbeddingWitness(src, POS2_TEX_COL4, [0, 1, 2]); }
  }

  /** ... and every predefined three-dimensional format without tangents ... */
  lemma ObjSourceFeeds3D()
    ensures LenientlyCompatible(POS_TEX_COL4_NORM_TANG_BITANG, POS)
    ensures LenientlyCompatible(POS_TEX_COL4_NORM_TANG_BITANG, POS_NORM)
    ensures LenientlyCompatible(POS_TEX_COL4_NORM_TANG_BITANG, POS_TEX_NORM)
  {
    var src := POS_TEX_COL4_NORM_TANG_BITANG;
    assert Types(src) == [Position, Texture, Color, Normal, Tangent, Bitangent];
    assert LenientlyCompatible(src, POS) by { EmbeddingWitness(src, POS, [0]); }
    assert LenientlyCompatible(src, POS_NORM) by { EmbeddingWitness(src, POS_NORM, [0, 3]); }
    assert LenientlyCompatible(src, POS_TEX_NORM) by { EmbeddingWitness(src, POS_TEX_NORM, [0, 1, 3]); }
  }

  lemma ObjSourceFeeds3DColored()
    ensures LenientlyCompatible(POS_TEX_COL4_NORM_TANG_BITANG, POS_COL_NORM)
    ensures LenientlyCompatible(POS_TEX_COL4_NORM_TANG_BITANG, POS_COL4_NORM)
  {
    var src := POS_TEX_COL4_NORM_TANG_BITANG;
    assert Types(src) == [Position, Texture, Color, Normal, Tangent, Bitangent];
    assert LenientlyCompatible(src, POS_COL_NORM) by { EmbeddingWitness(src, POS_COL_NORM, [0, 2, 3]); }
    assert LenientlyCompatible(src, POS_COL4_NORM) by { EmbeddingWitness(src, POS_COL4_NORM, [0, 2, 3]); }
  }

  /** ... and the two with tangents and bitangents. */
  lemma ObjSourceFeedsTangentFormats()
    ensures LenientlyCompatible(POS_TEX_COL4_NORM_TANG_BITANG, POS_TEX_NORM_TANG_BITANG)
    ensures LenientlyCompatible(POS_TEX_COL4_NORM_TANG_BITANG, POS_TEX_COL4_NORM_TANG_BITANG)
  {
    var src := POS_TEX_COL4_NORM_TANG_BITANG;
    assert Types(src) == [Position, Texture, Color, Normal, Tangent, Bitangent];
    assert LenientlyCompatible(src, POS_TEX_NORM_TANG_BITANG) by { EmbeddingWitness(src, POS_TEX_NORM_TANG_BITANG, [0, 1, 3, 4, 5]); }
    assert LenientlyCompatible(src, src) by { CompatibleImpliesLenient(src, src); }
  }

  /** ... while a format listing colour before position cannot be fed. */
  lemma ObjSourceRejectsColourFirst()
    ensures !LenientlyCompatible(POS_TEX_COL4_NORM_TANG_BITANG, [COLOR4_FLOAT, POSITION_FLOAT])
    ensures !IsSubsequence(Types([COLOR4_FLOAT, POSITION_FLOAT]), Types(POS_TEX_COL4_NORM_TANG_BITANG))
  {
    var src := Types(POS_TEX_COL4_NORM_TANG_BITANG);
    var c := Types([COLOR4_FLOAT, POSITION_FLOAT]);
    assert src == [Position, Texture, Color, Normal, Tangent, Bitangent];
    assert c == [Color, Position];
    assert Greedy(src[..1], c) == 0;
    assert Greedy(src[..2], c) == 0 by { assert src[..2][..1] == src[..1]; }
    assert Greedy(src[..3], c) == 1 by { assert src[..3][..2] == src[..2]; }
    assert Greedy(src[..4], c) == 1 by { assert src[..4][..3] == src[..3]; }
    assert Greedy(src[..5], c) == 1 by { assert src[..5][..4] == src[..4]; }
    assert Greedy(src, c) == 1 by { assert src[..5] == src[..|src| - 1]; }
    GreedyIsSubsequence(src, c);
  }

  /** The kinds of baked mesh `createMesh` can return. */
  datatype MeshKind = Baked | IndicesBaked | LineBaked | LineIndicesBaked

  /** One `glVertexAttribPointer` call: attribute index, component count, data type, stride, offset. */
  datatype AttribPointer = AttribPointer(index: nat, size: nat, dataType: int, stride: nat, offset: nat)

  /**
   * What a created mesh holds: its kind, the vertex or index count it will
   * draw, the attribute layout it was given, and the uploaded buffers.
   */
  datatype BakedMesh = BakedMesh(kind: MeshKind, count: int, pointers: seq<AttribPointer>,
                                 vertexData: seq<byte>, indexData: seq<byte>)

  class VertexFormat {
    const attributes: seq<VertexAttribute>
    const vertexSize: nat

    ghost predicate Valid() {
      vertexSize == Stride(attributes)
    }

    /** The per-vertex size is the attributes' sizes summed, once, at construction. */
    constructor (attributes: seq<VertexAttribute>)
      ensures this.attributes == attributes && Valid()
    {
      this.attributes := attributes;
      var size := 0;
      var i := 0;
      while i < |attributes|
        invariant 0 <= i <= |attributes|
        invariant size == Stride(attributes[..i])
      {
        assert attributes[..i + 1][..i] == attributes[..i];
        size := size + Size(attributes[i]);
        i := i + 1;
      }
      assert attributes[..i] == attributes;
      vertexSize := size;
    }

    method IsCompatible(other: VertexFormat) returns (b: bool)
      ensures b == Compatible(attributes, other.attributes)
    {
      if |attributes| != |other.attributes| {
        return false;
      }
      var i := 0;
      while i < |attributes|
        invariant 0 <= i <= |attributes|
        invariant forall k :: 0 <= k < i ==> TypeOf(attributes[k]) == TypeOf(other.attributes[k])
      {
        if TypeOf(attributes[i]) != TypeOf(other.attributes[i]) {
          return false;
        }
        i := i + 1;
      }
      return true;
    }

    method IsLenientlyCompatible(child: VertexFormat) returns (b: bool)
      ensures b == LenientlyCompatible(attributes, child.attributes)
      ensures b <==> IsSubsequence(Types(child.attributes), Types(attributes))
    {
      var childIndex := 0;
      var i := 0;
      while i < |attributes|
        invariant 0 <= i <= |attributes|
        invariant childIndex == Greedy(Types(attributes[..i]), Types(child.attributes))
      {
        assert Types(attributes[..i + 1])[..i] == Types(attributes[..i]);
        if childIndex < |child.attributes| && TypeOf(attributes[i]) == TypeOf(child.attributes[childIndex]) {
          childIndex := childIndex + 1;
        }
        i := i + 1;
      }
      assert attributes[..i] == attributes;
      b := childIndex == |child.attributes|;
      LenientlyCompatibleMeansSubsequence(attributes, child.attributes);
    }

    method HasAttributeType(t: AttrType) returns (b: bool)
      ensures b <==> exists a :: a in attributes && TypeOf(a) == t
    {
      var i := 0;
      while i < |attributes|
        invariant 0 <= i <= |attributes|
        invariant forall k :: 0 <= k < i ==> TypeOf(attributes[k]) != t
      {
        if TypeOf(attributes[i]) == t {
          return true;
        }
        i := i + 1;
      }
      return false;
    }

    /** The `glVertexAttribPointer` layout: attribute i at offset `PrefixSize(i)`, stride `vertexSize`. */
    method AttributePointers() returns (ptrs: seq<AttribPointer>)
      requires Valid()
      ensures |ptrs| == |attributes|
      ensures forall i :: 0 <= i < |ptrs| ==>
                ptrs[i] == AttribPointer(i, Count(attributes[i]), DataType(attributes[i]), vertexSize, PrefixSize(attributes, i))
      ensures forall i :: 0 <= i < |ptrs| ==> ptrs[i].offset + Size(attributes[i]) <= vertexSize
    {
      ptrs := [];
      var ptr := 0;
      var i := 0;
      while i < |attributes|
        invariant 0 <= i <= |attributes|
        invariant ptr == PrefixSize(attributes, i)
        invariant |ptrs| == i
        invariant forall k :: 0 <= k < i ==>
                    ptrs[k] == AttribPointer(k, Count(attributes[k]), DataType(attributes[k]), vertexSize, PrefixSize(attributes, k))
      {
        PrefixSizeStep(attributes, i);
        ptrs := ptrs + [AttribPointer(i, Count(attributes[i]), DataType(attributes[i]), vertexSize, ptr)];
        ptr := ptr + Size(attributes[i]);
        i := i + 1;
      }
      SlotsInsideVertex(attributes);
    }

    /**
     * The mesh `createMesh` returns once the buffers are uploaded: indexed
     * exactly when there are indices, counting indices or whole vertices,
     * and only for triangles or lines.
     */
    method CreateMesh(vertexData: seq<byte>, vertexBufferSize: int, indexData: seq<byte>,
                      indicesCount: int, primitiveDrawType: int) returns (r: Result<BakedMesh>)
      requires Valid()
      ensures r.Failure? <==> ((primitiveDrawType != GL_TRIANGLES && primitiveDrawType != GL_LINES)
                               || (indicesCount <= 0 && vertexSize == 0))
      ensures r.Failure? ==> r.error == if primitiveDrawType != GL_TRIANGLES && primitiveDrawType != GL_LINES
                                        then IllegalArgument(UnsupportedPrimitive(primitiveDrawType))
                                        else Arithmetic
      ensures r.Success? ==> var m := r.value;
                m.kind == (if primitiveDrawType == GL_TRIANGLES
                           then (if indicesCount > 0 then IndicesBaked else Baked)
                           else (if indicesCount > 0 then LineIndicesBaked else LineBaked))
                && (indicesCount > 0 ==> m.count == indicesCount && m.indexData == indexData)
                && (indicesCount <= 0 ==> m.count * vertexSize <= vertexBufferSize < (m.count + 1) * vertexSize
                                          || vertexBufferSize < 0)
                && (indicesCount <= 0 ==> m.indexData == [])
                && m.vertexData == vertexData
                && |m.pointers| == |attributes|
                && forall i :: 0 <= i < |attributes| ==> m.pointers[i].offset == PrefixSize(attributes, i)
    {
      var pointers := AttributePointers();
      var uploaded := if indicesCount > 0 then indexData else [];
      if primitiveDrawType == GL_TRIANGLES || primitiveDrawType == GL_LINES {
        var indexed := if primitiveDrawType == GL_TRIANGLES then IndicesBaked else LineIndicesBaked;
        var plain := if primitiveDrawType == GL_TRIANGLES then Baked else LineBaked;
        if indicesCount > 0 {
          return Success(BakedMesh(indexed, indicesCount, pointers, vertexData, uploaded));
        } else if vertexSize == 0 {
          return Failure(Arithmetic);
        } else {
          var count := JavaDiv(vertexBufferSize, vertexSize);
          return Success(BakedMesh(plain, count, pointers, vertexData, uploaded));
        }
      } else {
        return Failure(IllegalArgument(UnsupportedPrimitive(primitiveDrawType)));
      }
    }
  }
}
