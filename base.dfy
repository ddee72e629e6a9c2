/**
 * Shared vocabulary of the model: Java's fixed-width integers, the optional
 * and result wrappers used for the source's exceptions, and the exceptions
 * themselves together with the reason each one is raised for.
 */
module Base {

  /** Java `short`, `int` and `long`. */
  newtype int16 = x: int | -0x8000 <= x < 0x8000
  newtype int32 = x: int | -0x8000_0000 <= x < 0x8000_0000
  newtype int64 = x: int | -0x8000_0000_0000_0000 <= x < 0x8000_0000_0000_0000

  /** An unsigned byte as it sits in a buffer, and the raw bit patterns of `char`, `float` and `double`. */
  newtype byte = x: int | 0 <= x < 0x100
  newtype uint16 = x: int | 0 <= x < 0x1_0000
  newtype uint32 = x: int | 0 <= x < 0x1_0000_0000
  newtype uint64 = x: int | 0 <= x < 0x1_0000_0000_0000_0000

  datatype Option<T> = None | Some(value: T)

  /** `Float.parseFloat` and `Integer.parseInt`, left abstract: `None` where they throw `NumberFormatException`. */
  datatype NumberSyntax = NumberSyntax(parseFloat: string -> Option<real>, parseInt: string -> Option<int32>)

  /** JOML's `Vector2f`, `Vector3f` and `Vector4f`, with abstract real components. */
  datatype Vec2 = Vec2(x: real, y: real)
  datatype Vec3 = Vec3(x: real, y: real, z: real)
  datatype Vec4 = Vec4(x: real, y: real, z: real, w: real)

  /** The value of a Java expression that either returns or throws. */
  datatype Result<T> = Success(value: T) | Failure(error: Exception)
  {
    predicate IsFailure() { Failure? }
    function PropagateFailure<U>(): Result<U> requires Failure? { Failure(error) }
    function Extract(): T requires Success? { value }
  }

  /** The effect of a Java `void` method: it returns normally or throws. */
  datatype Outcome = Pass | Fail(error: Exception)
  {
    predicate IsFailure() { Fail? }
    function PropagateFailure(): Outcome requires Fail? { this }
  }

  /** The attribute kinds the mesh builder and the formats talk about. */
  datatype AttrType = NullType | Position | Color | Texture | Normal | Tangent | Bitangent

  /** Why an `IllegalStateException` was thrown. */
  datatype StateReason =
    | PartWayThroughVertex          // createMesh or indices while a vertex is open
    | TooManyAttributes             // explicit, strict builder given more than the format holds
    | WrongAttributeType(attempted: AttrType, expected: AttrType)
    | VertexIncomplete              // endVertex on an explicit builder before the last slot
    | BuffersInUse                  // withBuffers after writing
    | IncompatibleObjFormat         // ObjLoader.load with a format it cannot fill

  /** Why an `IllegalArgumentException` was thrown. */
  datatype ArgumentReason =
    | UnknownGlType(glType: int)
    | UnsupportedPrimitive(primitive: int)
    | BadPosition(newPosition: int)
    | AttributeNameCount(names: int, attributes: int)
    | ShaderNotFound(name: string)

  /** Why the OBJ loader raised an `ObjFormatException`. */
  datatype ObjReason =
    | VertexArity | TextureArity | NormalArity
    | FacesNeedTriangles | FaceArity | LinesNeedLines | LineArity
    | InvalidFloat(text: string) | InvalidInteger(text: string)
    | TooManyIndexParts
    | PositionIndexOutOfBounds(index: int)
    | TextureIndexOutOfBounds(index: int)
    | NormalIndexOutOfBounds(index: int)

  /** Why `physics.Mesh` raised an `IOException`. */
  datatype IOReason = InvalidPositionData | InvalidNormalData | InvalidFaceData

  /** The exceptions the core can raise. */
  datatype Exception =
    | IllegalState(state: StateReason)
    | IllegalArgument(argument: ArgumentReason)
    | IndexOutOfBounds(index: int)      // array, list and string index errors
    | NullPointer
    | Arithmetic                        // integer division by zero
    | Assertion                         // a Java `assert`/AssertionError
    | NumberFormat(text: string)        // unchecked parse error of Float/Integer
    | ObjFormat(line: int, reason: ObjReason)
    | IO(ioLine: int, ioReason: IOReason)

  /** Java's `int` division: the quotient is truncated toward zero. */
  function JavaDiv(a: int, b: int): (q: int)
    requires b != 0
    ensures var rem := a - q * b; (rem == 0 || (rem < 0) == (a < 0)) && Abs(rem) < Abs(b)
    ensures a >= 0 && b > 0 ==> q == a / b
  {
    var m := Abs(a) / Abs(b);
    var q := if (a < 0) != (b < 0) then -m else m;
    TruncatedRemainder(a, b, m, q);
    q
  }

  /** The remainder left by the truncated quotient is that of `|a| / |b|`, with the sign of `a`. */
  lemma TruncatedRemainder(a: int, b: int, m: int, q: int)
    requires b != 0 && m == Abs(a) / Abs(b) && q == if (a < 0) != (b < 0) then -m else m
    ensures var r := Abs(a) % Abs(b); a - q * b == if a < 0 then -r else r
  {
    var A: int, B: int := Abs(a), Abs(b);
    var t := m * B;
    assert A == t + A % B;
    if b < 0 {
      NegateFactor(m, B);
      NegateFactor(-m, B);
      assert b + B == 0;
    } else {
      NegateFactor(m, B);
      assert b == B;
    }
  }

  /** Negating one factor negates the product. */
  lemma NegateFactor(x: int, y: int)
    ensures (-x) * y == -(x * y) && x * (-y) == -(x * y)
  {
  }

  function Abs(x: int): nat {
    if x < 0 then -x else x
  }

  /** 2^k, used for buffer growth and byte encodings. */
  function Pow2(k: nat): (p: nat)
    ensures p >= 1
  {
    if k == 0 then 1 else 2 * Pow2(k - 1)
  }
}
