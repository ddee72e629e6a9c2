/**
 * `render.util.VertexAttribute`: the enum of vertex attributes, each a
 * (type, GL data type, component count) triple whose byte size is
 * count × sizeof(data type).
 */
module VertexAttributes {
  import opened Base
  import opened OpenGlUtil

  datatype VertexAttribute =
    | NULL
    | POSITION_INTEGER | POSITION_FLOAT | POSITION_DOUBLE
    | POSITION2_INTEGER | POSITION2_FLOAT | POSITION2_DOUBLE
    | COLOR_FLOAT | COLOR4_FLOAT
    | TEXTURE_INTEGER | TEXTURE_FLOAT | TEXTURE_DOUBLE
    | NORMAL_FLOAT | NORMAL_DOUBLE
    | TANGENT_FLOAT
    | BITANGENT_FLOAT

  /** `getType()`. */
  function TypeOf(a: VertexAttribute): AttrType {
    match a
    case NULL => NullType
    case POSITION_INTEGER | POSITION_FLOAT | POSITION_DOUBLE
       | POSITION2_INTEGER | POSITION2_FLOAT | POSITION2_DOUBLE => Position
    case COLOR_FLOAT | COLOR4_FLOAT => Color
    case TEXTURE_INTEGER | TEXTURE_FLOAT | TEXTURE_DOUBLE => Texture
    case NORMAL_FLOAT | NORMAL_DOUBLE => Normal
    case TANGENT_FLOAT => Tangent
    case BITANGENT_FLOAT => Bitangent
  }

  /** `getDataType()`. */
  function DataType(a: VertexAttribute): int {
    match a
    case NULL => GL_BYTE
    case POSITION_INTEGER | POSITION2_INTEGER | TEXTURE_INTEGER => GL_INT
    case POSITION_DOUBLE | POSITION2_DOUBLE | TEXTURE_DOUBLE | NORMAL_DOUBLE => GL_DOUBLE
    case _ => GL_FLOAT
  }

  /** `getCount()`. */
  function Count(a: VertexAttribute): nat {
    match a
    case NULL => 0
    case POSITION2_INTEGER | POSITION2_FLOAT | POSITION2_DOUBLE
       | TEXTURE_INTEGER | TEXTURE_FLOAT | TEXTURE_DOUBLE => 2
    case COLOR4_FLOAT => 4
    case _ => 3
  }

  /** `getSize()`: set once by the enum constructor from the count and `sizeof`. */
  function Size(a: VertexAttribute): (n: nat)
    ensures Sizeof(DataType(a)).Success?
    ensures n == Count(a) * Sizeof(DataType(a)).value
  {
    Count(a) * ComponentWidth(a)
  }

  /** The width of one component: 4 for ints and floats, 8 for doubles. */
  function ComponentWidth(a: VertexAttribute): nat {
    Sizeof(DataType(a)).value
  }

  /** NULL is the only attribute of type NULL, and it is empty. */
  lemma NullIsUnique(a: VertexAttribute)
    ensures TypeOf(a) == NullType <==> a == NULL
    ensures a == NULL ==> Count(a) == 0 && Size(a) == 0
  {
  }

  /** Every other attribute has 2, 3 or 4 components of 4 or 8 bytes each. */
  lemma NonNullShape(a: VertexAttribute)
    requires a != NULL
    ensures 2 <= Count(a) <= 4
    ensures DataType(a) in {GL_INT, GL_FLOAT, GL_DOUBLE}
    ensures ComponentWidth(a) == (if DataType(a) == GL_DOUBLE then 8 else 4)
    ensures Size(a) > 0
  {
  }

  /** The declared table, one attribute type at a time. */
  lemma DeclaredTable(a: VertexAttribute)
    ensures TypeOf(a) == Position ==> Count(a) in {2, 3} && DataType(a) in {GL_INT, GL_FLOAT, GL_DOUBLE}
    ensures TypeOf(a) == Color ==> Count(a) in {3, 4} && DataType(a) == GL_FLOAT
    ensures TypeOf(a) == Texture ==> Count(a) == 2 && DataType(a) in {GL_INT, GL_FLOAT, GL_DOUBLE}
    ensures TypeOf(a) == Normal ==> Count(a) == 3 && DataType(a) in {GL_FLOAT, GL_DOUBLE}
    ensures TypeOf(a) in {Tangent, Bitangent} ==> Count(a) == 3 && DataType(a) == GL_FLOAT
  {
  }
}
