/**
 * `render.util.MeshBuilder`: the schema-driven vertex encoder.
 *
 * The builder walks the slots of its vertex format with one cursor,
 * `attributeIndex`. Each attribute call (`pos`, `col`, `tex`, `norm`,
 * `tangent`, `bitangent`) is checked against the current slot, encoded in
 * the slot's data type and appended to the vertex buffer; `indices` appends
 * checked vertex ids to the index buffer.
 *
 * Values are abstract reals; Java's `(int)` cast and the float and double
 * bit patterns are supplied by the caller as a `Numerics` record.
 * The pure functions below are the builder's state machine; the class's
 * methods are proved to follow it.
 */
module MeshBuilders {
  import opened Base
  import opened OpenGlUtil
  import opened VertexAttributes
  import opened VertexFormats
  import opened ExpandableBuffers

  /** Java's numeric conversions, left abstract: `(int)` of a double, and the IEEE bit patterns. */
  datatype Numerics = Numerics(toInt: real -> int32, floatBits: real -> uint32, doubleBits: real -> uint64)

  /** One value as it is written to the vertex buffer. */
  datatype Component = IntValue(i: int32) | FloatValue(f: real) | DoubleValue(d: real)

  function ComponentType(c: Component): int {
    match c
    case IntValue(_) => GL_INT
    case FloatValue(_) => GL_FLOAT
    case DoubleValue(_) => GL_DOUBLE
  }

  /** 4 bytes for an int or a float, 8 for a double. */
  function ValueWidth(c: Component): nat {
    if c.DoubleValue? then 8 else 4
  }

  function ComponentBytes(num: Numerics, c: Component): (bs: seq<byte>)
    ensures |bs| == ValueWidth(c)
    ensures Sizeof(ComponentType(c)) == Success(|bs|)
  {
    match c
    case IntValue(i) => IntBytes(i)
    case FloatValue(f) => FloatBytes(num.floatBits(f))
    case DoubleValue(d) => DoubleBytes(num.doubleBits(d))
  }

  /** The bytes of a sequence of components, in order. */
  function Encode(num: Numerics, cs: seq<Component>): seq<byte> {
    if cs == [] then [] else Encode(num, cs[..|cs| - 1]) + ComponentBytes(num, cs[|cs| - 1])
  }

  /** The bytes of a sequence of indices, each a Java `int`. */
  function EncodeIndices(idx: seq<int32>): seq<byte> {
    if idx == [] then [] else EncodeIndices(idx[..|idx| - 1]) + IntBytes(idx[|idx| - 1])
  }

  /** Number of bytes the components take: 4 per int or float, 8 per double. */
  function Width(cs: seq<Component>): nat {
    if cs == [] then 0 else Width(cs[..|cs| - 1]) + ValueWidth(cs[|cs| - 1])
  }

  lemma EncodeSnoc(num: Numerics, cs: seq<Component>, c: Component)
    ensures Encode(num, cs + [c]) == Encode(num, cs) + ComponentBytes(num, c)
  {
    assert (cs + [c])[..|cs|] == cs;
  }

  lemma {:induction false} EncodeAppend(num: Numerics, a: seq<Component>, b: seq<Component>)
    ensures Encode(num, a + b) == Encode(num, a) + Encode(num, b)
    decreases |b|
  {
    if b == [] {
      assert a + b == a;
    } else {
      var init := b[..|b| - 1];
      var last := b[|b| - 1];
      assert b == init + [last];
      assert a + b == (a + init) + [last];
      EncodeSnoc(num, a + init, last);
      EncodeSnoc(num, init, last);
      EncodeAppend(num, a, init);
      ConcatAssoc(Encode(num, a), Encode(num, init), ComponentBytes(num, last));
    }
  }

  lemma ConcatAssoc<T>(x: seq<T>, y: seq<T>, z: seq<T>)
    ensures (x + y) + z == x + (y + z)
  {
  }

  lemma {:induction false} WidthAppend(a: seq<Component>, b: seq<Component>)
    ensures Width(a + b) == Width(a) + Width(b)
    decreases |b|
  {
    if b == [] {
      assert a + b == a;
    } else {
      var init := b[..|b| - 1];
      var ab := a + b;
      assert ab[..|ab| - 1] == a + init;
      assert ab[|ab| - 1] == b[|b| - 1];
      WidthAppend(a, init);
    }
  }

  /** Components all `w` bytes wide take `w` bytes each. */
  lemma {:induction false} UniformWidth(cs: seq<Component>, w: nat)
    requires forall i :: 0 <= i < |cs| ==> ValueWidth(cs[i]) == w
    ensures Width(cs) == |cs| * w
  {
    if cs != [] {
      UniformWidth(cs[..|cs| - 1], w);
    }
  }

  /** The encoding is exactly `Width` bytes long, whatever the conversions. */
  lemma {:induction false} EncodeLength(num: Numerics, cs: seq<Component>)
    ensures |Encode(num, cs)| == Width(cs)
  {
    if cs != [] {
      EncodeLength(num, cs[..|cs| - 1]);
    }
  }

  /** Only the empty sequence of components has width 0. */
  lemma WidthZero(cs: seq<Component>)
    requires Width(cs) == 0
    ensures cs == []
  {
  }

  /**
   * The builder calls, with the arguments as the dispatching method sees
   * them (the narrower overloads have already been widened).
   */
  datatype Call =
    | PosCall(x: real, y: real, z: real)
    | ColCall(r: real, g: real, b: real, a: real)
    | TexCall(u: real, v: real)
    | NormCall(normX: real, normY: real, normZ: real)
    | TangentCall(tanX: real, tanY: real, tanZ: real)
    | BitangentCall(bitX: real, bitY: real, bitZ: real)

  /** The attribute type each call asks `checkAttributeType` for. */
  function Attempted(c: Call): AttrType {
    match c
    case PosCall(_, _, _) => Position
    case ColCall(_, _, _, _) => Color
    case TexCall(_, _) => Texture
    case NormCall(_, _, _) => Normal
    case TangentCall(_, _, _) => Tangent
    case BitangentCall(_, _, _) => Bitangent
  }

  function CallTypes(calls: seq<Call>): (ts: seq<AttrType>)
    ensures |ts| == |calls|
    ensures forall i :: 0 <= i < |calls| ==> ts[i] == Attempted(calls[i])
  {
    seq(|calls|, i requires 0 <= i < |calls| => Attempted(calls[i]))
  }

  /**
   * The `switch (currentAttribute())` of each call: what is written for
   * slot `a`, or `None` for the `default` arm's `AssertionError`.
   */
  function Payload(num: Numerics, a: VertexAttribute, c: Call): Option<seq<Component>> {
    match c
    case PosCall(x, y, z) =>
      (match a
       case POSITION2_INTEGER => Some([IntValue(num.toInt(x)), IntValue(num.toInt(y))])
       case POSITION2_FLOAT => Some([FloatValue(x), FloatValue(y)])
       case POSITION2_DOUBLE => Some([DoubleValue(x), DoubleValue(y)])
       case POSITION_INTEGER => Some([IntValue(num.toInt(x)), IntValue(num.toInt(y)), IntValue(num.toInt(z))])
       case POSITION_FLOAT => Some([FloatValue(x), FloatValue(y), FloatValue(z)])
       case POSITION_DOUBLE => Some([DoubleValue(x), DoubleValue(y), DoubleValue(z)])
       case _ => None)
    case ColCall(r, g, b, alpha) =>
      (match a
       case COLOR_FLOAT => Some([FloatValue(r), FloatValue(g), FloatValue(b)])
       case COLOR4_FLOAT => Some([FloatValue(r), FloatValue(g), FloatValue(b), FloatValue(alpha)])
       case _ => None)
    case TexCall(u, v) =>
      (match a
       case TEXTURE_INTEGER => Some([IntValue(num.toInt(u)), IntValue(num.toInt(v))])
       case TEXTURE_FLOAT => Some([FloatValue(u), FloatValue(v)])
       case TEXTURE_DOUBLE => Some([DoubleValue(u), DoubleValue(v)])
       case _ => None)
    case NormCall(x, y, z) =>
      (match a
       case NORMAL_FLOAT => Some([FloatValue(x), FloatValue(y), FloatValue(z)])
       case NORMAL_DOUBLE => Some([DoubleValue(x), DoubleValue(y), DoubleValue(z)])
       case _ => None)
    case TangentCall(x, y, z) =>
      (match a
       case TANGENT_FLOAT => Some([FloatValue(x), FloatValue(y), FloatValue(z)])
       case _ => None)
    case BitangentCall(x, y, z) =>
      (match a
       case BITANGENT_FLOAT => Some([FloatValue(x), FloatValue(y), FloatValue(z)])
       case _ => None)
  }

  /**
   * Every slot a call is accepted for has an arm in that call's switch, so
   * the `AssertionError` defaults are unreachable; the arm writes `getCount()`
   * components of the slot's data type, which is `getSize()` bytes.
   */
  lemma PayloadFitsSlot(num: Numerics, a: VertexAttribute, c: Call)
    requires TypeOf(a) == Attempted(c)
    ensures Payload(num, a, c).Some?
    ensures var cs := Payload(num, a, c).value;
            |cs| == Count(a)
            && (forall i :: 0 <= i < |cs| ==> ComponentType(cs[i]) == DataType(a))
            && Width(cs) == Size(a)
  {
    var cs := Payload(num, a, c).value;
    var w := ComponentWidth(a);
    assert forall i :: 0 <= i < |cs| ==> ValueWidth(cs[i]) == w;
    UniformWidth(cs, w);
  }

  /** No call asks for type NULL, so the NULL a full lenient vertex reports never matches. */
  lemma AttemptedIsNeverNull(c: Call)
    ensures Attempted(c) != NullType
  {
  }

  /**
   * What the builder keeps: the format it was made for, the cursor, the two
   * modes, and (for the proofs)
   * the number of completed vertices, the components written and the indices
   * recorded. The builder's byte counter `verticesSize` is the width of
   * `written` and its `indicesCount` the length of `indexList`.
   */
  datatype State = State(format: VertexFormat, index: nat, lenient: bool, explicit: bool,
                         vertices: nat, written: seq<Component>, indexList: seq<int32>)

  /** A fresh builder for `format`: cursor at 0, nothing written, strict and implicit. */
  function Initial(format: VertexFormat): (s: State)
    ensures s.format == format && s.index == 0 && s.vertices == 0
    ensures !s.lenient && !s.explicit && s.written == [] && s.indexList == []
  {
    State(format, 0, false, false, 0, [], [])
  }

  /**
   * The builder invariant: the cursor is within [0, n], and below n unless
   * the vertex is explicit (or the format empty); the bytes written are
   * whole vertices plus the slots before the cursor; every recorded index
   * names a completed vertex.
   */
  ghost predicate Inv(attrs: seq<VertexAttribute>, s: State) {
    s.index <= |attrs|
    && (!s.explicit ==> s.index < |attrs| || s.index == 0)
    && Width(s.written) == s.vertices * Stride(attrs) + PrefixSize(attrs, s.index)
    && forall i :: 0 <= i < |s.indexList| ==> 0 <= s.indexList[i] as int < s.vertices
  }

  /** A fresh builder satisfies the invariant for every format. */
  lemma InitialInv(attrs: seq<VertexAttribute>, format: VertexFormat)
    ensures Inv(attrs, Initial(format))
  {
  }

  /** `currentAttribute()`. */
  function Current(attrs: seq<VertexAttribute>, s: State): (r: Result<VertexAttribute>)
    requires s.index <= |attrs|
    ensures r.Success? && s.index < |attrs| ==> r.value == attrs[s.index]
  {
    if s.index == |attrs| then
      if s.explicit then
        if s.lenient then Success(NULL) else Failure(IllegalState(TooManyAttributes))
      else Failure(Assertion)
    else Success(attrs[s.index])
  }

  /** `checkAttributeType(attempted)`: accept, ignore (lenient), or throw. */
  function Check(attrs: seq<VertexAttribute>, s: State, attempted: AttrType): (r: Result<bool>)
    requires s.index <= |attrs|
    ensures r.Success? ==> Current(attrs, s).Success?
  {
    match Current(attrs, s)
    case Failure(e) => Failure(e)
    case Success(a) =>
      if TypeOf(a) != attempted then
        if s.lenient then Success(false)
        else Failure(IllegalState(WrongAttributeType(attempted, TypeOf(a))))
      else Success(true)
  }

  /** `incAttributeIndex()`, with the completed-vertex count it implies. */
  function Advance(attrs: seq<VertexAttribute>, s: State): State {
    if s.index + 1 == |attrs| && !s.explicit then s.(index := 0, vertices := s.vertices + 1)
    else s.(index := s.index + 1)
  }

  /** One attribute call: check, dispatch on the slot, write, advance. */
  function Feed(attrs: seq<VertexAttribute>, num: Numerics, s: State, c: Call): (r: Result<State>)
    requires s.index <= |attrs|
  {
    match Check(attrs, s, Attempted(c))
    case Failure(e) => Failure(e)
    case Success(accepted) =>
      if !accepted then Success(s)
      else match Payload(num, Current(attrs, s).value, c)
        case None => Failure(Assertion)
        case Some(cs) =>
          Success(Advance(attrs, s.(written := s.written + cs)))
  }

  /** `endVertex()`. */
  function EndVertexStep(attrs: seq<VertexAttribute>, s: State): Result<State> {
    if !s.explicit then Success(s)
    else if s.index != |attrs| then Failure(IllegalState(VertexIncomplete))
    else Success(s.(index := 0, vertices := s.vertices + 1))
  }

  /** `setExplicit(explicit)`: leaving explicit mode closes a full vertex. */
  function SetExplicitStep(attrs: seq<VertexAttribute>, s: State, explicit: bool): State {
    if !explicit && s.index == |attrs| then s.(explicit := explicit, index := 0, vertices := s.vertices + 1)
    else s.(explicit := explicit)
  }

  /** All of `idx` lies in [0, count). */
  predicate AllBelow(idx: seq<int32>, count: int) {
    forall k :: 0 <= k < |idx| ==> 0 <= idx[k] as int < count
  }

  /** The position of the first index outside [0, count), if any. */
  function FirstOutOfRange(idx: seq<int32>, count: int): (r: Option<nat>)
    ensures r.None? <==> AllBelow(idx, count)
    ensures r.Some? ==> r.value < |idx| && !(0 <= idx[r.value] as int < count)
                        && AllBelow(idx[..r.value], count)
  {
    if idx == [] then None
    else if !(0 <= idx[0] as int < count) then Some(0)
    else match FirstOutOfRange(idx[1..], count)
      case None => None
      case Some(k) => Some(k + 1)
  }

  /** `indices(idx...)`: checked all at once against the whole vertices written so far. */
  function IndicesStep(attrs: seq<VertexAttribute>, s: State, idx: seq<int32>): Result<State> {
    if s.index != 0 then Failure(IllegalState(PartWayThroughVertex))
    else if Stride(attrs) == 0 then Failure(Arithmetic)
    else
      var vertexCount := JavaDiv(Width(s.written), Stride(attrs));
      match FirstOutOfRange(idx, vertexCount)
      case Some(k) => Failure(IndexOutOfBounds(idx[k] as int))
      case None => Success(s.(indexList := s.indexList + idx))
  }

  /** Several attribute calls in a row, stopping at the first exception. */
  function Run(attrs: seq<VertexAttribute>, num: Numerics, s: State, calls: seq<Call>): (r: Result<State>)
    requires Inv(attrs, s)
    ensures r.Success? ==> Inv(attrs, r.value)
  {
    if calls == [] then Success(s)
    else match Run(attrs, num, s, calls[..|calls| - 1])
      case Failure(e) => Failure(e)
      case Success(t) =>
        FeedPreservesInv(attrs, num, t, calls[|calls| - 1]);
        Feed(attrs, num, t, calls[|calls| - 1])
  }

  // ----- Properties of the state machine -----

  /** Every attribute call keeps the invariant. */
  lemma FeedPreservesInv(attrs: seq<VertexAttribute>, num: Numerics, s: State, c: Call)
    requires Inv(attrs, s)
    ensures Feed(attrs, num, s, c).Success? ==> Inv(attrs, Feed(attrs, num, s, c).value)
  {
    var chk := Check(attrs, s, Attempted(c));
    if chk.Success? && chk.value {
      AttemptedIsNeverNull(c);
      var a := attrs[s.index];
      PayloadFitsSlot(num, a, c);
      var cs := Payload(num, a, c).value;
      AcceptPreservesInv(attrs, s, cs);
    }
  }

  /** Writing a slot's worth of components and advancing keeps the invariant. */
  lemma AcceptPreservesInv(attrs: seq<VertexAttribute>, s: State, cs: seq<Component>)
    requires Inv(attrs, s) && s.index < |attrs| && Width(cs) == Size(attrs[s.index])
    ensures Inv(attrs, Advance(attrs, s.(written := s.written + cs)))
  {
    WidthAppend(s.written, cs);
    PrefixSizeStep(attrs, s.index);
    if s.index + 1 == |attrs| && !s.explicit {
      CloseVertex(attrs, Width(s.written + cs), s.vertices);
    }
  }

  /** Bytes that fill every slot of the open vertex are one more whole vertex. */
  lemma CloseVertex(attrs: seq<VertexAttribute>, width: nat, vertices: nat)
    requires width == vertices * Stride(attrs) + PrefixSize(attrs, |attrs|)
    ensures width == (vertices + 1) * Stride(attrs) + PrefixSize(attrs, 0)
  {
    PrefixSizeWhole(attrs);
    assert (vertices + 1) * Stride(attrs) == vertices * Stride(attrs) + Stride(attrs);
    assert attrs[..0] == [];
  }

  /** Without explicit mode an accepted attribute moves the cursor on by one, wrapping after the last slot. */
  lemma ImplicitCursorWraps(attrs: seq<VertexAttribute>, num: Numerics, s: State, c: Call)
    requires s.index < |attrs| && !s.explicit
    requires Check(attrs, s, Attempted(c)) == Success(true)
    ensures Feed(attrs, num, s, c).Success?
    ensures Feed(attrs, num, s, c).value.index == (s.index + 1) % |attrs| < |attrs|
  {
    var a := attrs[s.index];
    assert Current(attrs, s) == Success(a);
    PayloadFitsSlot(num, a, c);
    var cs := Payload(num, a, c).value;
    assert Feed(attrs, num, s, c) == Success(Advance(attrs, s.(written := s.written + cs)));
  }

  /** A strict builder throws on a slot of another type; nothing is written and the cursor stays. */
  lemma StrictMismatchThrows(attrs: seq<VertexAttribute>, num: Numerics, s: State, c: Call)
    requires s.index < |attrs| && !s.lenient && TypeOf(attrs[s.index]) != Attempted(c)
    ensures Feed(attrs, num, s, c) == Failure(IllegalState(WrongAttributeType(Attempted(c), TypeOf(attrs[s.index]))))
  {
  }

  /** A strict builder throws on any call past a full explicit vertex. */
  lemma StrictFullVertexThrows(attrs: seq<VertexAttribute>, num: Numerics, s: State, c: Call)
    requires s.index == |attrs| && s.explicit && !s.lenient
    ensures Feed(attrs, num, s, c) == Failure(IllegalState(TooManyAttributes))
  {
  }

  /**
   * A lenient builder ignores a call the current slot does not take,
   * including every call after an explicit vertex is full (the slot is NULL).
   */
  lemma LenientMismatchIsIgnored(attrs: seq<VertexAttribute>, num: Numerics, s: State, c: Call)
    requires s.index <= |attrs| && s.lenient
    requires (s.index == |attrs| && s.explicit) || (s.index < |attrs| && TypeOf(attrs[s.index]) != Attempted(c))
    ensures Feed(attrs, num, s, c) == Success(s)
  {
    AttemptedIsNeverNull(c);
  }

  /** An accepted attribute writes exactly the slot's `getSize()` bytes: its components, in its data type. */
  lemma AcceptedWritesSlotSize(attrs: seq<VertexAttribute>, num: Numerics, s: State, c: Call)
    requires s.index < |attrs| && TypeOf(attrs[s.index]) == Attempted(c)
    ensures Feed(attrs, num, s, c).Success?
    ensures var t := Feed(attrs, num, s, c).value;
            var cs := t.written[|s.written|..];
            Width(t.written) == Width(s.written) + Size(attrs[s.index])
            && t.written == s.written + cs
            && |cs| == Count(attrs[s.index])
            && (forall i :: 0 <= i < |cs| ==> ComponentType(cs[i]) == DataType(attrs[s.index]))
  {
    PayloadFitsSlot(num, attrs[s.index], c);
    var cs := Payload(num, attrs[s.index], c).value;
    WidthAppend(s.written, cs);
    assert (s.written + cs)[|s.written|..] == cs;
  }

  /** `endVertex()`: a no-op unless explicit; then it needs a full cursor and resets it. */
  lemma EndVertexBehaviour(attrs: seq<VertexAttribute>, s: State)
    requires Inv(attrs, s)
    ensures !s.explicit ==> EndVertexStep(attrs, s) == Success(s)
    ensures s.explicit ==> (EndVertexStep(attrs, s).Success? <==> s.index == |attrs|)
    ensures EndVertexStep(attrs, s).Success? ==> Inv(attrs, EndVertexStep(attrs, s).value)
    ensures s.explicit && EndVertexStep(attrs, s).Success? ==> EndVertexStep(attrs, s).value.index == 0
  {
    if s.explicit && s.index == |attrs| {
      CloseVertex(attrs, Width(s.written), s.vertices);
    }
  }

  /** `setExplicit(false)` on a full cursor resets it to 0; the invariant is kept either way. */
  lemma SetExplicitBehaviour(attrs: seq<VertexAttribute>, s: State, explicit: bool)
    requires Inv(attrs, s)
    ensures Inv(attrs, SetExplicitStep(attrs, s, explicit))
    ensures SetExplicitStep(attrs, s, explicit).explicit == explicit
    ensures !explicit && s.index == |attrs| ==> SetExplicitStep(attrs, s, explicit).index == 0
    ensures (explicit || s.index < |attrs|) ==> SetExplicitStep(attrs, s, explicit).index == s.index
  {
    if !explicit && s.index == |attrs| {
      CloseVertex(attrs, Width(s.written), s.vertices);
    }
  }

  /** Between vertices the byte count is whole vertices, so it divides back to the vertex count. */
  lemma WholeVertices(attrs: seq<VertexAttribute>, s: State)
    requires Inv(attrs, s) && s.index == 0
    ensures Width(s.written) == s.vertices * Stride(attrs)
    ensures Stride(attrs) > 0 ==> JavaDiv(Width(s.written), Stride(attrs)) == s.vertices
  {
    if Stride(attrs) > 0 {
      DivExact(s.vertices, Stride(attrs));
    }
  }

  lemma DivExact(k: nat, n: nat)
    requires n > 0
    ensures (k * n) / n == k
  {
    var m := k * n;
    var q := m / n;
    var r := m % n;
    assert m == q * n + r && 0 <= r < n;
    assert (k - q) * n == r;
    MulSign(k - q, n);
  }

  lemma MulSign(d: int, n: nat)
    ensures d >= 1 ==> d * n >= n
    ensures d <= -1 ==> d * n <= 0 - n as int
  {
    if d >= 1 {
      assert d * n == (d - 1) * n + n;
    } else if d <= -1 {
      assert d * n == (d + 1) * n - n;
    }
  }

  /**
   * `indices(idx...)` succeeds exactly between vertices, with a non-empty
   * vertex and every index naming a written vertex; a failure names the
   * first bad index; success only appends.
   */
  lemma IndicesBehaviour(attrs: seq<VertexAttribute>, s: State, idx: seq<int32>)
    requires Inv(attrs, s)
    ensures IndicesStep(attrs, s, idx).Success? <==> s.index == 0 && Stride(attrs) > 0 && AllBelow(idx, s.vertices)
    ensures s.index != 0 ==> IndicesStep(attrs, s, idx) == Failure(IllegalState(PartWayThroughVertex))
    ensures s.index == 0 && Stride(attrs) > 0 && !AllBelow(idx, s.vertices) ==>
              exists k :: 0 <= k < |idx| && AllBelow(idx[..k], s.vertices)
                          && IndicesStep(attrs, s, idx) == Failure(IndexOutOfBounds(idx[k] as int))
    ensures IndicesStep(attrs, s, idx).Success? ==>
              var t := IndicesStep(attrs, s, idx).value;
              Inv(attrs, t) && t == s.(indexList := s.indexList + idx)
  {
    if s.index == 0 && Stride(attrs) > 0 {
      WholeVertices(attrs, s);
      var first := FirstOutOfRange(idx, s.vertices);
      if first.Some? {
        assert AllBelow(idx[..first.value], s.vertices);
      } else {
        var t := IndicesStep(attrs, s, idx).value;
        forall i | 0 <= i < |t.indexList| ensures 0 <= t.indexList[i] as int < t.vertices {
          if i >= |s.indexList| {
            assert t.indexList[i] == idx[i - |s.indexList|];
          }
        }
      }
    }
  }

  /** One vertex's worth of calls, one per slot in the format's order, from a fresh cursor. */
  lemma {:induction false} OneVertexPrefix(attrs: seq<VertexAttribute>, num: Numerics, s: State, calls: seq<Call>, k: nat)
    requires Inv(attrs, s) && s.index == 0 && |attrs| > 0
    requires CallTypes(calls) == Types(attrs) && k <= |calls|
    ensures Run(attrs, num, s, calls[..k]).Success?
    ensures var t := Run(attrs, num, s, calls[..k]).value;
            t.explicit == s.explicit && t.lenient == s.lenient
            && Width(t.written) == Width(s.written) + PrefixSize(attrs, k)
            && (k < |attrs| || s.explicit ==> t.index == k && t.vertices == s.vertices)
            && (k == |attrs| && !s.explicit ==> t.index == 0 && t.vertices == s.vertices + 1)
  {
    if k == 0 {
      assert calls[..0] == [];
    } else {
      OneVertexPrefix(attrs, num, s, calls, k - 1);
      assert calls[..k][..k - 1] == calls[..k - 1];
      var t := Run(attrs, num, s, calls[..k - 1]).value;
      var c := calls[k - 1];
      assert CallTypes(calls)[k - 1] == Types(attrs)[k - 1];
      AcceptedWritesSlotSize(attrs, num, t, c);
      PrefixSizeStep(attrs, k - 1);
      if k == |attrs| {
        PrefixSizeWhole(attrs);
      }
    }
  }

  /**
   * After one complete vertex fed in the format's order the byte count has
   * grown by exactly the stride; in explicit mode `endVertex` then succeeds.
   */
  lemma OneVertex(attrs: seq<VertexAttribute>, num: Numerics, s: State, calls: seq<Call>)
    requires Inv(attrs, s) && s.index == 0 && |attrs| > 0
    requires CallTypes(calls) == Types(attrs)
    ensures Run(attrs, num, s, calls).Success?
    ensures var t := Run(attrs, num, s, calls).value;
            Width(t.written) == Width(s.written) + Stride(attrs)
            && EndVertexStep(attrs, t).Success?
            && EndVertexStep(attrs, t).value.index == 0
            && EndVertexStep(attrs, t).value.vertices == s.vertices + 1
  {
    OneVertexPrefix(attrs, num, s, calls, |calls|);
    assert calls[..|calls|] == calls;
    PrefixSizeWhole(attrs);
  }

  /**
   * A lenient explicit builder fed any sequence of calls from the start of a
   * vertex matches slots exactly as `isLenientlyCompatible`'s greedy scan does.
   */
  lemma {:induction false} LenientRunIsGreedy(attrs: seq<VertexAttribute>, num: Numerics, s: State, calls: seq<Call>)
    requires Inv(attrs, s) && s.index == 0 && s.explicit && s.lenient
    ensures Run(attrs, num, s, calls).Success?
    ensures Run(attrs, num, s, calls).value.index == Greedy(CallTypes(calls), Types(attrs))
  {
    if calls != [] {
      var init := calls[..|calls| - 1];
      var c := calls[|calls| - 1];
      LenientRunIsGreedy(attrs, num, s, init);
      assert CallTypes(calls)[..|calls| - 1] == CallTypes(init);
      var t := Run(attrs, num, s, init).value;
      assert t.explicit && t.lenient by { LenientRunKeepsModes(attrs, num, s, init); }
      if t.index < |attrs| && TypeOf(attrs[t.index]) == Attempted(c) {
        AcceptedWritesSlotSize(attrs, num, t, c);
      } else {
        LenientMismatchIsIgnored(attrs, num, t, c);
      }
    }
  }

  lemma {:induction false} LenientRunKeepsModes(attrs: seq<VertexAttribute>, num: Numerics, s: State, calls: seq<Call>)
    requires Inv(attrs, s)
    ensures Run(attrs, num, s, calls).Success? ==>
              Run(attrs, num, s, calls).value.explicit == s.explicit && Run(attrs, num, s, calls).value.lenient == s.lenient
  {
    if calls != [] {
      LenientRunKeepsModes(attrs, num, s, calls[..|calls| - 1]);
    }
  }

  /**
   * If `parent.isLenientlyCompatible(child)`, a lenient explicit builder on
   * `child` fed one call per slot of `parent`, in `parent`'s order, fills
   * every slot of `child`, so the explicit `endVertex` that follows succeeds.
   */
  lemma LenientFeedFillsEverySlot(parent: seq<VertexAttribute>, attrs: seq<VertexAttribute>, num: Numerics,
                                  s: State, calls: seq<Call>)
    requires LenientlyCompatible(parent, attrs)
    requires Inv(attrs, s) && s.index == 0 && s.explicit && s.lenient
    requires CallTypes(calls) == Types(parent)
    ensures Run(attrs, num, s, calls).Success?
    ensures Run(attrs, num, s, calls).value.index == |attrs|
    ensures EndVertexStep(attrs, Run(attrs, num, s, calls).value).Success?
  {
    LenientRunIsGreedy(attrs, num, s, calls);
  }

  /** Running `a` then `b` is running `a + b`: a failure in `a` is the failure of the whole. */
  lemma {:induction false} RunAppend(attrs: seq<VertexAttribute>, num: Numerics, s: State, a: seq<Call>, b: seq<Call>)
    requires Inv(attrs, s)
    ensures Run(attrs, num, s, a).Failure? ==> Run(attrs, num, s, a + b) == Run(attrs, num, s, a)
    ensures Run(attrs, num, s, a).Success? ==> Run(attrs, num, s, a + b) == Run(attrs, num, Run(attrs, num, s, a).value, b)
  {
    if b == [] {
      assert a + b == a;
    } else {
      var b' := b[..|b| - 1];
      RunAppend(attrs, num, s, a, b');
      assert (a + b)[..|a + b| - 1] == a + b';
      assert (a + b)[|a + b| - 1] == b[|b| - 1];
    }
  }

  /**
   * In explicit mode attribute calls never close a vertex: the vertex count,
   * the indices and the modes stay, and components are only appended.
   */
  lemma {:induction false} ExplicitRunKeepsCounts(attrs: seq<VertexAttribute>, num: Numerics, s: State, calls: seq<Call>)
    requires Inv(attrs, s) && s.explicit
    ensures Run(attrs, num, s, calls).Success? ==>
              var t := Run(attrs, num, s, calls).value;
              t.vertices == s.vertices && t.indexList == s.indexList && t.format == s.format
              && t.explicit && t.lenient == s.lenient && s.written <= t.written
  {
    if calls != [] {
      ExplicitRunKeepsCounts(attrs, num, s, calls[..|calls| - 1]);
    }
  }

  // ----- Colour packing -----

  /** The low 32 bits of a Java `int`. */
  function Bits(x: int32): bv32 {
    ((x as int) % 0x1_0000_0000) as bv32
  }

  /** `(argb >>> shift) & 0xff`. */
  function Channel(argb: int32, shift: bv32): bv32
    requires shift < 32
  {
    (Bits(argb) >> shift) & 0xff
  }

  /** `(argb >>> shift) & 0xff` as the Java `int` it is. */
  function ChannelValue(argb: int32, shift: bv32): (v: int32)
    requires shift < 32
    ensures 0 <= v < 256
  {
    (Channel(argb, shift) as int) as int32
  }

  /** `n / 255f`. */
  function Unit(n: int32): real {
    (n as int) as real / 255.0
  }

  /** `col(int r, int g, int b, int a)`: each channel divided by 255. */
  function IntColorCall(r: int32, g: int32, b: int32, a: int32): Call {
    ColCall(Unit(r), Unit(g), Unit(b), Unit(a))
  }

  /** `col(int r, int g, int b)` and `col(float r, float g, float b)`: alpha 1. */
  function OpaqueCall(r: real, g: real, b: real): Call {
    ColCall(r, g, b, 1.0)
  }

  /** The colour `col(int argb)` passes on: red, green, blue from bits 16, 8, 0 and alpha from bit 24. */
  function ArgbCall(argb: int32): Call {
    IntColorCall(ChannelValue(argb, 16), ChannelValue(argb, 8), ChannelValue(argb, 0), ChannelValue(argb, 24))
  }

  /** 0xAARRGGBB from its four channels. */
  function Pack(a: bv8, r: bv8, g: bv8, b: bv8): bv32 {
    (a as bv32 << 24) | (r as bv32 << 16) | (g as bv32 << 8) | (b as bv32)
  }

  /** `col(0xAARRGGBB)` is `col(RR, GG, BB, AA)`: unpacking a packed colour gives its channels back. */
  lemma ChannelsOfPacked(argb: int32, a: bv8, r: bv8, g: bv8, b: bv8)
    requires Bits(argb) == Pack(a, r, g, b)
    ensures Channel(argb, 24) == a as bv32 && Channel(argb, 16) == r as bv32
    ensures Channel(argb, 8) == g as bv32 && Channel(argb, 0) == b as bv32
    ensures ArgbCall(argb) == IntColorCall(r as int as int32, g as int as int32, b as int as int32, a as int as int32)
  {
    PackedChannels(Bits(argb), a, r, g, b);
    ChannelValueOf(argb, 24, a);
    ChannelValueOf(argb, 16, r);
    ChannelValueOf(argb, 8, g);
    ChannelValueOf(argb, 0, b);
  }

  lemma ChannelValueOf(argb: int32, shift: bv32, x: bv8)
    requires shift < 32 && Channel(argb, shift) == x as bv32
    ensures ChannelValue(argb, shift) == x as int as int32
  {
  }

  lemma PackedChannels(p: bv32, a: bv8, r: bv8, g: bv8, b: bv8)
    requires p == Pack(a, r, g, b)
    ensures (p >> 24) & 0xff == a as bv32 && (p >> 16) & 0xff == r as bv32
    ensures (p >> 8) & 0xff == g as bv32 && (p >> 0) & 0xff == b as bv32
  {
  }

  /** An accepted call writes its slot's payload and advances. */
  lemma FeedAccepted(attrs: seq<VertexAttribute>, num: Numerics, s: State, c: Call)
    requires s.index < |attrs| && Check(attrs, s, Attempted(c)) == Success(true)
    ensures TypeOf(attrs[s.index]) == Attempted(c)
    ensures Feed(attrs, num, s, c) == Success(Advance(attrs, s.(written := s.written + Payload(num, attrs[s.index], c).value)))
  {
    PayloadFitsSlot(num, attrs[s.index], c);
  }

  /** A call the check does not accept throws what the check threw, or (lenient) leaves the state alone. */
  lemma FeedRejected(attrs: seq<VertexAttribute>, num: Numerics, s: State, c: Call)
    requires s.index <= |attrs| && Check(attrs, s, Attempted(c)) != Success(true)
    ensures var check := Check(attrs, s, Attempted(c));
            Feed(attrs, num, s, c) == if check.Failure? then Failure(check.error) else Success(s)
  {
  }

  /** One `State` changes into the next as a Java call either returns or throws (leaving the state as it was). */
  predicate Follows(before: State, r: Result<State>, after: State, o: Outcome) {
    (r.Success? ==> o == Pass && after == r.value)
    && (r.Failure? ==> o == Fail(r.error) && after == before)
  }

  /** `withBuffers(...)`: refused once any vertex byte or index has been counted. */
  function WithBuffersStep(s: State): Result<State> {
    if Width(s.written) != 0 || |s.indexList| != 0 then Failure(IllegalState(BuffersInUse))
    else Success(s)
  }

  /** The buffers can be swapped exactly while nothing has been written or indexed. */
  lemma WithBuffersBehaviour(s: State)
    ensures WithBuffersStep(s).Success? <==> s.written == [] && s.indexList == []
    ensures WithBuffersStep(s).Success? ==> WithBuffersStep(s).value == s
  {
    if Width(s.written) == 0 {
      WidthZero(s.written);
    }
  }

  /** An index outside the range, with every earlier one inside, is the one `FirstOutOfRange` finds. */
  lemma {:induction false} FirstOutOfRangeAt(idx: seq<int32>, count: int, k: nat)
    requires k < |idx| && AllBelow(idx[..k], count) && !(0 <= idx[k] as int < count)
    ensures FirstOutOfRange(idx, count) == Some(k)
  {
    if k > 0 {
      assert idx[..k][0] == idx[0];
      assert idx[1..][..k - 1] == idx[..k][1..];
      FirstOutOfRangeAt(idx[1..], count, k - 1);
    }
  }

  /** The `for (int index : indices)` check of `indices`: the first index outside [0, count). */
  method FirstBadIndex(idx: seq<int32>, count: int) returns (r: Option<nat>)
    ensures r == FirstOutOfRange(idx, count)
  {
    var k := 0;
    while k < |idx|
      invariant 0 <= k <= |idx| && AllBelow(idx[..k], count)
    {
      if idx[k] < 0 || idx[k] as int >= count {
        FirstOutOfRangeAt(idx, count, k);
        return Some(k);
      }
      assert idx[..k + 1] == idx[..k] + [idx[k]];
      k := k + 1;
    }
    assert idx[..k] == idx;
    return None;
  }

  /** A byte count of whole vertices divides back to the vertex count. */
  lemma QuotientOfWhole(count: int, vertices: nat, stride: nat)
    requires stride > 0
    requires count * stride <= vertices * stride < (count + 1) * stride
    ensures count == vertices
  {
    MulSign(vertices - count, stride);
    MulSign(count + 1 - vertices, stride);
    assert (vertices - count) * stride == vertices * stride - count * stride;
    assert (count + 1 - vertices) * stride == (count + 1) * stride - vertices * stride;
  }

  /** Each index takes four bytes. */
  lemma {:induction false} EncodeIndicesLength(idx: seq<int32>)
    ensures |EncodeIndices(idx)| == 4 * |idx|
  {
    if idx != [] {
      EncodeIndicesLength(idx[..|idx| - 1]);
    }
  }

  class MeshBuilder {
    const vertexFormat: VertexFormat
    const num: Numerics
    const primitiveDrawType: int
    var vertexBuf: ExpandableBuffer
    var indicesBuf: ExpandableBuffer
    var verticesSize: int
    var indicesCount: int
    var attributeIndex: nat
    var lenient: bool
    var explicit: bool
    // The completed vertices, the components written and the indices recorded,
    // and the buffers' contents before this builder started writing.
    ghost var vertices: nat
    ghost var written: seq<Component>
    ghost var indexList: seq<int32>
    ghost var vertexPrefix: seq<byte>
    ghost var indicesPrefix: seq<byte>

    /** The builder and its two buffers' storage. */
    ghost function Repr(): set<object>
      reads this, vertexBuf, indicesBuf
    {
      {this, vertexBuf, vertexBuf.data, indicesBuf, indicesBuf.data}
    }

    ghost function Abs(): State
      reads this
    {
      State(vertexFormat, attributeIndex, lenient, explicit, vertices, written, indexList)
    }

    /** The buffers are separate, valid, and hold exactly what was written after their prefixes. */
    ghost predicate Wired()
      reads this`vertexBuf, this`indicesBuf, this`vertexPrefix, this`indicesPrefix
      reads this`written, this`indexList, vertexBuf, indicesBuf, vertexBuf.Repr, indicesBuf.Repr
    {
      this !in vertexBuf.Repr && this !in indicesBuf.Repr && vertexBuf.Repr !! indicesBuf.Repr
      && vertexBuf.Valid() && indicesBuf.Valid() && vertexFormat.Valid()
      && vertexBuf.content == vertexPrefix + Encode(num, written)
      && indicesBuf.content == indicesPrefix + EncodeIndices(indexList)
    }

    /** The byte and index counters agree with what was written. */
    ghost predicate Counted()
      reads this`vertexBuf, this`indicesBuf, this`vertexPrefix, this`indicesPrefix
      reads this`written, this`indexList, this`verticesSize, this`indicesCount
      reads vertexBuf, indicesBuf, vertexBuf.Repr, indicesBuf.Repr
    {
      Wired() && verticesSize == Width(written) && indicesCount == |indexList|
    }

    ghost predicate Valid()
      reads this, vertexBuf, indicesBuf, vertexBuf.Repr, indicesBuf.Repr
    {
      Counted() && Inv(vertexFormat.attributes, Abs())
    }

    /** The builder still writes to the same buffers, after the same prefixes. */
    twostate predicate SameBuffers()
      reads this
    {
      vertexBuf == old(vertexBuf) && indicesBuf == old(indicesBuf)
      && vertexPrefix == old(vertexPrefix) && indicesPrefix == old(indicesPrefix)
    }

    /** Only `cs` was appended to the vertex data; the cursor, modes and indices are as they were. */
    twostate predicate AppendedOnly(cs: seq<Component>)
      reads this
    {
      written == old(written) + cs && SameBuffers()
      && attributeIndex == old(attributeIndex) && lenient == old(lenient) && explicit == old(explicit)
      && vertices == old(vertices) && indexList == old(indexList) && indicesCount == old(indicesCount)
    }

    /**
     * `MeshBuilder(vertexFormat, primitiveDrawType)` on the calling thread's
     * buffers, which are rewound.
     */
    constructor (vertexFormat: VertexFormat, primitiveDrawType: int, num: Numerics,
                 vertexBuf: ExpandableBuffer, indicesBuf: ExpandableBuffer)
      requires vertexFormat.Valid() && vertexBuf.Valid() && indicesBuf.Valid() && vertexBuf.Repr !! indicesBuf.Repr
      modifies vertexBuf, indicesBuf
      ensures Valid() && Abs() == Initial(vertexFormat)
      ensures this.vertexFormat == vertexFormat && this.primitiveDrawType == primitiveDrawType && this.num == num
      ensures this.vertexBuf == vertexBuf && this.indicesBuf == indicesBuf
      ensures fresh(Repr() - vertexBuf.Repr - indicesBuf.Repr)
      ensures vertexBuf.data == old(vertexBuf.data) && indicesBuf.data == old(indicesBuf.data)
      ensures vertexBuf.Repr == old(vertexBuf.Repr) && indicesBuf.Repr == old(indicesBuf.Repr)
      ensures vertexPrefix == [] && indicesPrefix == []
    {
      this.vertexFormat := vertexFormat;
      this.primitiveDrawType := primitiveDrawType;
      this.num := num;
      this.vertexBuf := vertexBuf;
      this.indicesBuf := indicesBuf;
      verticesSize := 0;
      indicesCount := 0;
      attributeIndex := 0;
      lenient := false;
      explicit := false;
      vertices := 0;
      written := [];
      indexList := [];
      vertexPrefix := [];
      indicesPrefix := [];
      new;
      vertexBuf.Rewind();
      indicesBuf.Rewind();
      InitialInv(vertexFormat.attributes, vertexFormat);
      assert vertexBuf.content == [] && indicesBuf.content == [];
    }

    // ----- Cursor -----

    /** `currentAttribute()`: the slot under the cursor, NULL past a full lenient explicit vertex. */
    method CurrentAttribute() returns (r: Result<VertexAttribute>)
      requires attributeIndex <= |vertexFormat.attributes|
      ensures r == Current(vertexFormat.attributes, Abs())
    {
      if attributeIndex == |vertexFormat.attributes| {
        if explicit {
          if lenient {
            return Success(NULL);
          }
          return Failure(IllegalState(TooManyAttributes));
        }
        return Failure(Assertion);
      }
      return Success(vertexFormat.attributes[attributeIndex]);
    }

    /** `checkAttributeType(attempted)`. */
    method CheckAttributeType(attempted: AttrType) returns (r: Result<bool>)
      requires attributeIndex <= |vertexFormat.attributes|
      ensures r == Check(vertexFormat.attributes, Abs(), attempted)
    {
      var current := CurrentAttribute();
      if current.Failure? {
        return Failure(current.error);
      }
      if TypeOf(current.value) != attempted {
        if lenient {
          return Success(false);
        }
        return Failure(IllegalState(WrongAttributeType(attempted, TypeOf(current.value))));
      }
      return Success(true);
    }

    /** `incAttributeIndex()`; the ghost vertex count goes up when the cursor wraps. */
    method IncAttributeIndex()
      modifies this`attributeIndex, this`vertices
      ensures Abs() == Advance(vertexFormat.attributes, old(Abs()))
    {
      attributeIndex := attributeIndex + 1;
      if attributeIndex == |vertexFormat.attributes| && !explicit {
        attributeIndex := 0;
        vertices := vertices + 1;
      }
    }

    // ----- Writing components -----

    /**
     * `vertexBuf.putInt(a)`, recording the component written and counting its
     * bytes; the `put*` helpers below count all their bytes before writing,
     * which comes to the same once they return.
     */
    method EmitInt(a: int32)
      requires Counted()
      modifies Repr()
      ensures Counted() && fresh(Repr() - old(Repr()))
      ensures AppendedOnly([IntValue(a)]) && verticesSize == old(verticesSize) + 4
    {
      EncodeSnoc(num, written, IntValue(a));
      ConcatAssoc(vertexPrefix, Encode(num, written), ComponentBytes(num, IntValue(a)));
      WidthAppend(written, [IntValue(a)]);
      written := written + [IntValue(a)];
      vertexBuf.PutInt(a);
      verticesSize := verticesSize + 4;
    }

    /** `vertexBuf.putFloat(a)`: the bytes of the float's bit pattern, counted. */
    method EmitFloat(a: real)
      requires Counted()
      modifies Repr()
      ensures Counted() && fresh(Repr() - old(Repr()))
      ensures AppendedOnly([FloatValue(a)]) && verticesSize == old(verticesSize) + 4
    {
      EncodeSnoc(num, written, FloatValue(a));
      ConcatAssoc(vertexPrefix, Encode(num, written), ComponentBytes(num, FloatValue(a)));
      WidthAppend(written, [FloatValue(a)]);
      written := written + [FloatValue(a)];
      vertexBuf.PutFloat(num.floatBits(a));
      verticesSize := verticesSize + 4;
    }

    /** `vertexBuf.putDouble(a)`: the bytes of the double's bit pattern, counted. */
    method EmitDouble(a: real)
      requires Counted()
      modifies Repr()
      ensures Counted() && fresh(Repr() - old(Repr()))
      ensures AppendedOnly([DoubleValue(a)]) && verticesSize == old(verticesSize) + 8
    {
      EncodeSnoc(num, written, DoubleValue(a));
      ConcatAssoc(vertexPrefix, Encode(num, written), ComponentBytes(num, DoubleValue(a)));
      WidthAppend(written, [DoubleValue(a)]);
      written := written + [DoubleValue(a)];
      vertexBuf.PutDouble(num.doubleBits(a));
      verticesSize := verticesSize + 8;
    }

    /** `putInt(a)`: 4 bytes counted, then written. */
    method PutInt(a: int32)
      requires Counted()
      modifies Repr()
      ensures Counted() && fresh(Repr() - old(Repr()))
      ensures AppendedOnly([IntValue(a)]) && verticesSize == old(verticesSize) + 4
    {
      EmitInt(a);
    }

    /** `putInt2(a, b)`: 8 bytes. */
    method PutInt2(a: int32, b: int32)
      requires Counted()
      modifies Repr()
      ensures Counted() && fresh(Repr() - old(Repr()))
      ensures AppendedOnly([IntValue(a), IntValue(b)]) && verticesSize == old(verticesSize) + 8
    {
      EmitInt(a);
      EmitInt(b);
    }

    /** `putInt3(a, b, c)`: 12 bytes: the same puts, in order, as a pair and one more. */
    method PutInt3(a: int32, b: int32, c: int32)
      requires Counted()
      modifies Repr()
      ensures Counted() && fresh(Repr() - old(Repr()))
      ensures AppendedOnly([IntValue(a), IntValue(b), IntValue(c)]) && verticesSize == old(verticesSize) + 12
    {
      PutInt2(a, b);
      EmitInt(c);
    }

    /** `putInt4(a, b, c, d)`: 16 bytes: the same puts, in order, as two pairs. */
    method PutInt4(a: int32, b: int32, c: int32, d: int32)
      requires Counted()
      modifies Repr()
      ensures Counted() && fresh(Repr() - old(Repr()))
      ensures AppendedOnly([IntValue(a), IntValue(b), IntValue(c), IntValue(d)])
      ensures verticesSize == old(verticesSize) + 16
    {
      PutInt2(a, b);
      PutInt2(c, d);
    }

    /** `putFloat(a)`: 4 bytes. */
    method PutFloat(a: real)
      requires Counted()
      modifies Repr()
      ensures Counted() && fresh(Repr() - old(Repr()))
      ensures AppendedOnly([FloatValue(a)]) && verticesSize == old(verticesSize) + 4
    {
      EmitFloat(a);
    }

    /** `putFloat2(a, b)`: 8 bytes. */
    method PutFloat2(a: real, b: real)
      requires Counted()
      modifies Repr()
      ensures Counted() && fresh(Repr() - old(Repr()))
      ensures AppendedOnly([FloatValue(a), FloatValue(b)]) && verticesSize == old(verticesSize) + 8
    {
      EmitFloat(a);
      EmitFloat(b);
    }

    /** `putFloat3(a, b, c)`: 12 bytes: the same puts, in order, as a pair and one more. */
    method PutFloat3(a: real, b: real, c: real)
      requires Counted()
      modifies Repr()
      ensures Counted() && fresh(Repr() - old(Repr()))
      ensures AppendedOnly([FloatValue(a), FloatValue(b), FloatValue(c)]) && verticesSize == old(verticesSize) + 12
    {
      PutFloat2(a, b);
      EmitFloat(c);
    }

    /** `putFloat4(a, b, c, d)`: 16 bytes: the same puts, in order, as two pairs. */
    method PutFloat4(a: real, b: real, c: real, d: real)
      requires Counted()
      modifies Repr()
      ensures Counted() && fresh(Repr() - old(Repr()))
      ensures AppendedOnly([FloatValue(a), FloatValue(b), FloatValue(c), FloatValue(d)])
      ensures verticesSize == old(verticesSize) + 16
    {
      PutFloat2(a, b);
      PutFloat2(c, d);
    }

    /** `putDouble(a)`: 8 bytes. */
    method PutDouble(a: real)
      requires Counted()
      modifies Repr()
      ensures Counted() && fresh(Repr() - old(Repr()))
      ensures AppendedOnly([DoubleValue(a)]) && verticesSize == old(verticesSize) + 8
    {
      EmitDouble(a);
    }

    /** `putDouble2(a, b)`: 16 bytes. */
    method PutDouble2(a: real, b: real)
      requires Counted()
      modifies Repr()
      ensures Counted() && fresh(Repr() - old(Repr()))
      ensures AppendedOnly([DoubleValue(a), DoubleValue(b)]) && verticesSize == old(verticesSize) + 16
    {
      EmitDouble(a);
      EmitDouble(b);
    }

    /** `putDouble3(a, b, c)`: 24 bytes: the same puts, in order, as a pair and one more. */
    method PutDouble3(a: real, b: real, c: real)
      requires Counted()
      modifies Repr()
      ensures Counted() && fresh(Repr() - old(Repr()))
      ensures AppendedOnly([DoubleValue(a), DoubleValue(b), DoubleValue(c)]) && verticesSize == old(verticesSize) + 24
    {
      PutDouble2(a, b);
      EmitDouble(c);
    }

    /** `putDouble4(a, b, c, d)`: 32 bytes: the same puts, in order, as two pairs. */
    method PutDouble4(a: real, b: real, c: real, d: real)
      requires Counted()
      modifies Repr()
      ensures Counted() && fresh(Repr() - old(Repr()))
      ensures AppendedOnly([DoubleValue(a), DoubleValue(b), DoubleValue(c), DoubleValue(d)])
      ensures verticesSize == old(verticesSize) + 32
    {
      PutDouble2(a, b);
      PutDouble2(c, d);
    }

    // ----- Attribute calls -----

    /** The `switch (currentAttribute())` of `pos`. */
    method PutPosition(slot: VertexAttribute, x: real, y: real, z: real)
      requires Counted() && TypeOf(slot) == Attempted(PosCall(x, y, z))
      modifies Repr()
      ensures Counted() && fresh(Repr() - old(Repr()))
      ensures AppendedOnly(Payload(num, slot, PosCall(x, y, z)).value)
    {
      match slot {
        case POSITION2_INTEGER => PutInt2(num.toInt(x), num.toInt(y));
        case POSITION2_FLOAT => PutFloat2(x, y);
        case POSITION2_DOUBLE => PutDouble2(x, y);
        case POSITION_INTEGER => PutInt3(num.toInt(x), num.toInt(y), num.toInt(z));
        case POSITION_FLOAT => PutFloat3(x, y, z);
        case POSITION_DOUBLE => PutDouble3(x, y, z);
      }
    }

    /** The `switch (currentAttribute())` of `col`. */
    method PutColor(slot: VertexAttribute, r: real, g: real, b: real, a: real)
      requires Counted() && TypeOf(slot) == Attempted(ColCall(r, g, b, a))
      modifies Repr()
      ensures Counted() && fresh(Repr() - old(Repr()))
      ensures AppendedOnly(Payload(num, slot, ColCall(r, g, b, a)).value)
    {
      match slot {
        case COLOR_FLOAT => PutFloat3(r, g, b);
        case COLOR4_FLOAT => PutFloat4(r, g, b, a);
      }
    }

    /** The `switch (currentAttribute())` of `tex`. */
    method PutTexture(slot: VertexAttribute, u: real, v: real)
      requires Counted() && TypeOf(slot) == Attempted(TexCall(u, v))
      modifies Repr()
      ensures Counted() && fresh(Repr() - old(Repr()))
      ensures AppendedOnly(Payload(num, slot, TexCall(u, v)).value)
    {
      match slot {
        case TEXTURE_INTEGER => PutInt2(num.toInt(u), num.toInt(v));
        case TEXTURE_FLOAT => PutFloat2(u, v);
        case TEXTURE_DOUBLE => PutDouble2(u, v);
      }
    }

    /** The `switch (currentAttribute())` of `norm`. */
    method PutNormal(slot: VertexAttribute, x: real, y: real, z: real)
      requires Counted() && TypeOf(slot) == Attempted(NormCall(x, y, z))
      modifies Repr()
      ensures Counted() && fresh(Repr() - old(Repr()))
      ensures AppendedOnly(Payload(num, slot, NormCall(x, y, z)).value)
    {
      match slot {
        case NORMAL_FLOAT => PutFloat3(x, y, z);
        case NORMAL_DOUBLE => PutDouble3(x, y, z);
      }
    }

    /** The `switch (currentAttribute())` of `tangent`. */
    method PutTangent(slot: VertexAttribute, x: real, y: real, z: real)
      requires Counted() && TypeOf(slot) == Attempted(TangentCall(x, y, z))
      modifies Repr()
      ensures Counted() && fresh(Repr() - old(Repr()))
      ensures AppendedOnly(Payload(num, slot, TangentCall(x, y, z)).value)
    {
      match slot {
        case TANGENT_FLOAT => PutFloat3(x, y, z);
      }
    }

    /** The `switch (currentAttribute())` of `bitangent`. */
    method PutBitangent(slot: VertexAttribute, x: real, y: real, z: real)
      requires Counted() && TypeOf(slot) == Attempted(BitangentCall(x, y, z))
      modifies Repr()
      ensures Counted() && fresh(Repr() - old(Repr()))
      ensures AppendedOnly(Payload(num, slot, BitangentCall(x, y, z)).value)
    {
      match slot {
        case BITANGENT_FLOAT => PutFloat3(x, y, z);
      }
    }

    /**
     * What every attribute method does once `checkAttributeType` accepted
     * the call: its switch writes the slot's components, then
     * `incAttributeIndex()`. The switches' `default` arms are unreachable.
     */
    method Accept(slot: VertexAttribute, c: Call)
      requires Valid() && attributeIndex < |vertexFormat.attributes|
      requires slot == vertexFormat.attributes[attributeIndex] && TypeOf(slot) == Attempted(c)
      modifies Repr()
      ensures Valid() && fresh(Repr() - old(Repr())) && SameBuffers()
      ensures Abs() == Advance(vertexFormat.attributes, old(Abs()).(written := old(written) + Payload(num, slot, c).value))
    {
      PayloadFitsSlot(num, slot, c);
      AcceptPreservesInv(vertexFormat.attributes, Abs(), Payload(num, slot, c).value);
      WriteSlot(slot, c);
    }

    /** The slot's switch, then `incAttributeIndex()`. */
    method WriteSlot(slot: VertexAttribute, c: Call)
      requires Counted() && attributeIndex < |vertexFormat.attributes|
      requires slot == vertexFormat.attributes[attributeIndex] && TypeOf(slot) == Attempted(c)
      modifies Repr()
      ensures Counted() && fresh(Repr() - old(Repr())) && SameBuffers()
      ensures Abs() == Advance(vertexFormat.attributes, old(Abs()).(written := old(written) + Payload(num, slot, c).value))
    {
      PutPayload(slot, c);
      IncAttributeIndex();
    }

    /** The switch of whichever attribute method `c` calls. */
    method PutPayload(slot: VertexAttribute, c: Call)
      requires Counted() && TypeOf(slot) == Attempted(c)
      modifies Repr()
      ensures Counted() && fresh(Repr() - old(Repr()))
      ensures AppendedOnly(Payload(num, slot, c).value)
    {
      match c {
        case PosCall(x, y, z) => PutPosition(slot, x, y, z);
        case ColCall(r, g, b, a) => PutColor(slot, r, g, b, a);
        case TexCall(u, v) => PutTexture(slot, u, v);
        case NormCall(x, y, z) => PutNormal(slot, x, y, z);
        case TangentCall(x, y, z) => PutTangent(slot, x, y, z);
        case BitangentCall(x, y, z) => PutBitangent(slot, x, y, z);
      }
    }

    /** `checkAttributeType`, then, when the call is accepted, the rest of the attribute method. */
    method Attribute(c: Call) returns (o: Outcome)
      requires Valid()
      modifies Repr()
      ensures Valid() && fresh(Repr() - old(Repr())) && SameBuffers()
      ensures Follows(old(Abs()), Feed(vertexFormat.attributes, num, old(Abs()), c), Abs(), o)
    {
      var check := CheckAttributeType(Attempted(c));
      if check == Success(true) {
        var slot := CurrentAttribute();
        FeedAccepted(vertexFormat.attributes, num, Abs(), c);
        Accept(slot.value, c);
        o := Pass;
      } else {
        FeedRejected(vertexFormat.attributes, num, Abs(), c);
        o := if check.Failure? then Fail(check.error) else Pass;
      }
    }

    // ----- Public attribute methods -----

    /** `pos(x, y, z)`: the z value is dropped by a 2D slot. */
    method Pos(x: real, y: real, z: real) returns (o: Outcome)
      requires Valid()
      modifies Repr()
      ensures Valid() && fresh(Repr() - old(Repr())) && SameBuffers()
      ensures Follows(old(Abs()), Feed(vertexFormat.attributes, num, old(Abs()), PosCall(x, y, z)), Abs(), o)
    {
      o := Attribute(PosCall(x, y, z));
    }

    /** `pos(Vector3f)`. */
    method PosVec(v: Vec3) returns (o: Outcome)
      requires Valid()
      modifies Repr()
      ensures Valid() && fresh(Repr() - old(Repr())) && SameBuffers()
      ensures Follows(old(Abs()), Feed(vertexFormat.attributes, num, old(Abs()), PosCall(v.x, v.y, v.z)), Abs(), o)
    {
      o := Attribute(PosCall(v.x, v.y, v.z));
    }

    /** `pos(x, y)`: `pos(x, y, 0)`. */
    method Pos2(x: real, y: real) returns (o: Outcome)
      requires Valid()
      modifies Repr()
      ensures Valid() && fresh(Repr() - old(Repr())) && SameBuffers()
      ensures Follows(old(Abs()), Feed(vertexFormat.attributes, num, old(Abs()), PosCall(x, y, 0.0)), Abs(), o)
    {
      o := Attribute(PosCall(x, y, 0.0));
    }

    /** `col(float r, float g, float b, float a)`: the alpha is dropped by a 3-channel slot. */
    method Col(r: real, g: real, b: real, a: real) returns (o: Outcome)
      requires Valid()
      modifies Repr()
      ensures Valid() && fresh(Repr() - old(Repr())) && SameBuffers()
      ensures Follows(old(Abs()), Feed(vertexFormat.attributes, num, old(Abs()), ColCall(r, g, b, a)), Abs(), o)
    {
      o := Attribute(ColCall(r, g, b, a));
    }

    /** `col(float r, float g, float b)`: alpha 1. */
    method Col3(r: real, g: real, b: real) returns (o: Outcome)
      requires Valid()
      modifies Repr()
      ensures Valid() && fresh(Repr() - old(Repr())) && SameBuffers()
      ensures Follows(old(Abs()), Feed(vertexFormat.attributes, num, old(Abs()), OpaqueCall(r, g, b)), Abs(), o)
    {
      o := Attribute(OpaqueCall(r, g, b));
    }

    /** `col(int r, int g, int b, int a)`: channels in [0, 255] scaled to [0, 1]. */
    method ColInt(r: int32, g: int32, b: int32, a: int32) returns (o: Outcome)
      requires Valid()
      modifies Repr()
      ensures Valid() && fresh(Repr() - old(Repr())) && SameBuffers()
      ensures Follows(old(Abs()), Feed(vertexFormat.attributes, num, old(Abs()), IntColorCall(r, g, b, a)), Abs(), o)
    {
      o := Attribute(IntColorCall(r, g, b, a));
    }

    /** `col(int r, int g, int b)`: `col(r / 255f, g / 255f, b / 255f)`, so alpha 1. */
    method ColInt3(r: int32, g: int32, b: int32) returns (o: Outcome)
      requires Valid()
      modifies Repr()
      ensures Valid() && fresh(Repr() - old(Repr())) && SameBuffers()
      ensures Follows(old(Abs()), Feed(vertexFormat.attributes, num, old(Abs()), OpaqueCall(Unit(r), Unit(g), Unit(b))), Abs(), o)
    {
      o := Attribute(OpaqueCall(Unit(r), Unit(g), Unit(b)));
    }

    /** `col(int argb)`, for 0xAARRGGBB. */
    method ColArgb(argb: int32) returns (o: Outcome)
      requires Valid()
      modifies Repr()
      ensures Valid() && fresh(Repr() - old(Repr())) && SameBuffers()
      ensures Follows(old(Abs()), Feed(vertexFormat.attributes, num, old(Abs()), ArgbCall(argb)), Abs(), o)
    {
      o := Attribute(ArgbCall(argb));
    }

    /** `tex(u, v)`. */
    method Tex(u: real, v: real) returns (o: Outcome)
      requires Valid()
      modifies Repr()
      ensures Valid() && fresh(Repr() - old(Repr())) && SameBuffers()
      ensures Follows(old(Abs()), Feed(vertexFormat.attributes, num, old(Abs()), TexCall(u, v)), Abs(), o)
    {
      o := Attribute(TexCall(u, v));
    }

    /** `norm(x, y, z)`. */
    method Norm(x: real, y: real, z: real) returns (o: Outcome)
      requires Valid()
      modifies Repr()
      ensures Valid() && fresh(Repr() - old(Repr())) && SameBuffers()
      ensures Follows(old(Abs()), Feed(vertexFormat.attributes, num, old(Abs()), NormCall(x, y, z)), Abs(), o)
    {
      o := Attribute(NormCall(x, y, z));
    }

    /** `norm(Vector3f)`. */
    method NormVec(v: Vec3) returns (o: Outcome)
      requires Valid()
      modifies Repr()
      ensures Valid() && fresh(Repr() - old(Repr())) && SameBuffers()
      ensures Follows(old(Abs()), Feed(vertexFormat.attributes, num, old(Abs()), NormCall(v.x, v.y, v.z)), Abs(), o)
    {
      o := Attribute(NormCall(v.x, v.y, v.z));
    }

    /** `tangent(x, y, z)`. */
    method Tangent(x: real, y: real, z: real) returns (o: Outcome)
      requires Valid()
      modifies Repr()
      ensures Valid() && fresh(Repr() - old(Repr())) && SameBuffers()
      ensures Follows(old(Abs()), Feed(vertexFormat.attributes, num, old(Abs()), TangentCall(x, y, z)), Abs(), o)
    {
      o := Attribute(TangentCall(x, y, z));
    }

    /** `bitangent(x, y, z)`. */
    method Bitangent(x: real, y: real, z: real) returns (o: Outcome)
      requires Valid()
      modifies Repr()
      ensures Valid() && fresh(Repr() - old(Repr())) && SameBuffers()
      ensures Follows(old(Abs()), Feed(vertexFormat.attributes, num, old(Abs()), BitangentCall(x, y, z)), Abs(), o)
    {
      o := Attribute(BitangentCall(x, y, z));
    }

    // ----- Modes and vertices -----

    /** `endVertex()`: in explicit mode the vertex must be full; it is then closed. */
    method EndVertex() returns (o: Outcome)
      requires Valid()
      modifies this`attributeIndex, this`vertices
      ensures Valid() && Repr() == old(Repr()) && SameBuffers()
      ensures Follows(old(Abs()), EndVertexStep(vertexFormat.attributes, old(Abs())), Abs(), o)
    {
      EndVertexBehaviour(vertexFormat.attributes, Abs());
      if explicit && attributeIndex != |vertexFormat.attributes| {
        o := Fail(IllegalState(VertexIncomplete));
      } else {
        if explicit {
          attributeIndex := 0;
          vertices := vertices + 1;
        }
        o := Pass;
      }
    }

    /** `setLenient(lenient)`. */
    method SetLenient(lenient: bool)
      requires Valid()
      modifies this`lenient
      ensures Valid() && Abs() == old(Abs()).(lenient := lenient)
    {
      this.lenient := lenient;
    }

    /** `setExplicit(explicit)`. */
    method SetExplicit(explicit: bool)
      requires Valid()
      modifies this`explicit, this`attributeIndex, this`vertices
      ensures Valid() && Abs() == SetExplicitStep(vertexFormat.attributes, old(Abs()), explicit)
    {
      SetExplicitBehaviour(vertexFormat.attributes, Abs(), explicit);
      ghost var next := SetExplicitStep(vertexFormat.attributes, Abs(), explicit);
      this.explicit := explicit;
      if !explicit && attributeIndex == |vertexFormat.attributes| {
        attributeIndex := 0;
        vertices := vertices + 1;
      }
      assert Abs() == next;
    }

    // ----- Indices -----

    /** `indices(idx...)`: every index checked before any is written. */
    method Indices(idx: seq<int32>) returns (o: Outcome)
      requires Valid()
      modifies Repr()
      ensures Valid() && fresh(Repr() - old(Repr())) && SameBuffers()
      ensures Follows(old(Abs()), IndicesStep(vertexFormat.attributes, old(Abs()), idx), Abs(), o)
    {
      IndicesBehaviour(vertexFormat.attributes, Abs(), idx);
      if attributeIndex != 0 {
        o := Fail(IllegalState(PartWayThroughVertex));
      } else if vertexFormat.vertexSize == 0 {
        o := Fail(Arithmetic);
      } else {
        WholeVertices(vertexFormat.attributes, Abs());
        var vertexCount := JavaDiv(verticesSize, vertexFormat.vertexSize);
        var bad := FirstBadIndex(idx, vertexCount);
        if bad.Some? {
          o := Fail(IndexOutOfBounds(idx[bad.value] as int));
        } else {
          AddIndices(idx);
          o := Pass;
        }
      }
    }

    /** `addIndexCount(idx.length)`, then one `indicesBuf.putInt` per index. */
    method AddIndices(idx: seq<int32>)
      requires Counted()
      modifies Repr()
      ensures Counted() && fresh(Repr() - old(Repr()))
      ensures IndicesAppended(idx)
    {
      indicesCount := indicesCount + |idx|;
      PutIndices(idx);
    }

    /** The `for (int index : idx) indicesBuf.putInt(index)` loop. */
    method PutIndices(idx: seq<int32>)
      requires Wired()
      modifies Repr()
      ensures Wired() && fresh(Repr() - old(Repr()))
      ensures IndicesAppended(idx) && indicesCount == old(indicesCount)
    {
      ghost var others := Others();
      var k := 0;
      while k < |idx|
        invariant 0 <= k <= |idx|
        invariant WiredWhole() && fresh(Repr() - old(Repr()))
        invariant indexList == old(indexList) + idx[..k] && Others() == others
      {
        PutIndex(idx[k]);
        assert idx[..k + 1] == idx[..k] + [idx[k]];
        k := k + 1;
      }
      assert idx[..k] == idx;
    }

    /** Everything `putInt` on the indices buffer leaves as it was. */
    ghost function Others(): (ExpandableBuffer, ExpandableBuffer, seq<byte>, seq<byte>, seq<Component>, int, nat, bool, bool, nat, int)
      reads this
    {
      (vertexBuf, indicesBuf, vertexPrefix, indicesPrefix, written, verticesSize, attributeIndex, lenient, explicit, vertices, indicesCount)
    }

    /** `Wired()`, kept whole as a loop invariant. */
    ghost predicate WiredWhole()
      reads this`vertexBuf, this`indicesBuf, this`vertexPrefix, this`indicesPrefix
      reads this`written, this`indexList, vertexBuf, indicesBuf, vertexBuf.Repr, indicesBuf.Repr
    {
      var ok := Wired(); ok
    }

    /** One `indicesBuf.putInt(index)`. */
    method PutIndex(index: int32)
      requires Wired()
      modifies Repr()
      ensures Wired() && fresh(Repr() - old(Repr()))
      ensures IndicesAppended([index]) && indicesCount == old(indicesCount)
    {
      ConcatAssoc(indicesPrefix, EncodeIndices(indexList), IntBytes(index));
      assert (indexList + [index])[..|indexList|] == indexList;
      indexList := indexList + [index];
      indicesBuf.PutInt(index);
    }

    /** Only `idx` was appended to the indices; the vertex data, cursor and modes are as they were. */
    twostate predicate IndicesAppended(idx: seq<int32>)
      reads this
    {
      indexList == old(indexList) + idx && SameBuffers()
      && written == old(written) && verticesSize == old(verticesSize)
      && attributeIndex == old(attributeIndex) && lenient == old(lenient) && explicit == old(explicit)
      && vertices == old(vertices)
    }

    // ----- Buffers and the finished mesh -----

    /**
     * `withBuffers(vertexBuffer, indicesBuffer)`: allowed only before anything
     * was counted. The new buffers are not rewound, so whatever they hold
     * stays in front of the data written from now on.
     */
    method WithBuffers(vertexBuffer: ExpandableBuffer, indicesBuffer: ExpandableBuffer) returns (o: Outcome)
      requires Valid() && vertexBuffer.Valid() && indicesBuffer.Valid() && vertexBuffer.Repr !! indicesBuffer.Repr
      modifies this`vertexBuf, this`indicesBuf, this`vertexPrefix, this`indicesPrefix
      ensures Valid() && Follows(old(Abs()), WithBuffersStep(old(Abs())), Abs(), o)
      ensures o.Pass? <==> old(verticesSize) == 0 && old(indicesCount) == 0
      ensures o.Pass? ==> vertexBuf == vertexBuffer && indicesBuf == indicesBuffer
                          && vertexPrefix == vertexBuffer.content && indicesPrefix == indicesBuffer.content
      ensures o.Fail? ==> SameBuffers()
    {
      WithBuffersBehaviour(Abs());
      if verticesSize != 0 || indicesCount != 0 {
        o := Fail(IllegalState(BuffersInUse));
      } else {
        vertexBuf := vertexBuffer;
        indicesBuf := indicesBuffer;
        vertexPrefix := vertexBuffer.content;
        indicesPrefix := indicesBuffer.content;
        o := Pass;
      }
    }

    /** `getVertexBuffer()`: the buffer vertex data currently goes to. */
    method GetVertexBuffer() returns (b: ExpandableBuffer)
      ensures b == vertexBuf
    {
      b := vertexBuf;
    }

    /** `getIndicesBuffer()`: the buffer indices currently go to. */
    method GetIndicesBuffer() returns (b: ExpandableBuffer)
      ensures b == indicesBuf
    {
      b := indicesBuf;
    }

    /**
     * `createMesh()`: only between vertices. Both buffers are rewound and
     * their storage handed to the format; the bytes uploaded start with
     * exactly what was written, and a mesh without indices draws exactly the
     * vertices completed.
     */
    method CreateMesh() returns (r: Result<BakedMesh>)
      requires Valid()
      modifies vertexBuf, indicesBuf
      ensures attributeIndex != 0 ==> r == Failure(IllegalState(PartWayThroughVertex))
      ensures attributeIndex == 0 ==>
                (r.Failure? <==> (primitiveDrawType != GL_TRIANGLES && primitiveDrawType != GL_LINES)
                                 || (indicesCount == 0 && Stride(vertexFormat.attributes) == 0))
      ensures attributeIndex == 0 && r.Failure? ==>
                r.error == if primitiveDrawType != GL_TRIANGLES && primitiveDrawType != GL_LINES
                           then IllegalArgument(UnsupportedPrimitive(primitiveDrawType))
                           else Arithmetic
      ensures r.Success? ==>
                var m := r.value;
                vertexPrefix + Encode(num, written) <= m.vertexData
                && (primitiveDrawType == GL_TRIANGLES <==> m.kind in {Baked, IndicesBaked})
                && (indicesCount > 0 <==> m.kind in {IndicesBaked, LineIndicesBaked})
                && (indicesCount > 0 ==> m.count == |indexList| && indicesPrefix + EncodeIndices(indexList) <= m.indexData)
                && (indicesCount == 0 ==> m.count == vertices && m.indexData == [])
    {
      if attributeIndex != 0 {
        r := Failure(IllegalState(PartWayThroughVertex));
      } else {
        WholeVertices(vertexFormat.attributes, Abs());
        assert vertexBuf.content <= vertexBuf.data[..];
        assert indicesBuf.content <= indicesBuf.data[..];
        vertexBuf.Rewind();
        indicesBuf.Rewind();
        r := vertexFormat.CreateMesh(vertexBuf.data[..], verticesSize, indicesBuf.data[..], indicesCount, primitiveDrawType);
        if r.Success? && indicesCount == 0 {
          QuotientOfWhole(r.value.count, vertices, vertexFormat.vertexSize);
        }
      }
    }
  }
}
