/** The OpenGL constants the core uses, and `OpenGlUtil.sizeof`. */
module OpenGlUtil {
  import opened Base

  const GL_LINES: int := 0x0001
  const GL_TRIANGLES: int := 0x0004

  const GL_BYTE: int := 0x1400
  const GL_UNSIGNED_BYTE: int := 0x1401
  const GL_SHORT: int := 0x1402
  const GL_UNSIGNED_SHORT: int := 0x1403
  const GL_INT: int := 0x1404
  const GL_UNSIGNED_INT: int := 0x1405
  const GL_FLOAT: int := 0x1406
  const GL_2_BYTES: int := 0x1407
  const GL_3_BYTES: int := 0x1408
  const GL_4_BYTES: int := 0x1409
  const GL_DOUBLE: int := 0x140A

  /** The GL data-type codes `sizeof` recognises: the contiguous block BYTE .. DOUBLE. */
  predicate IsGlDataType(t: int) {
    GL_BYTE <= t <= GL_DOUBLE
  }

  /** The number of bytes one value of GL data type `t` occupies. */
  function Sizeof(t: int): (r: Result<nat>)
    ensures r.Success? <==> IsGlDataType(t)
    ensures r.Failure? ==> r.error == IllegalArgument(UnknownGlType(t))
    ensures r.Success? ==> 1 <= r.value <= 8
    ensures r.Success? ==> (r.value == 1 <==> t in {GL_BYTE, GL_UNSIGNED_BYTE})
    ensures r.Success? ==> (r.value == 2 <==> t in {GL_SHORT, GL_UNSIGNED_SHORT, GL_2_BYTES})
    ensures r.Success? ==> (r.value == 3 <==> t == GL_3_BYTES)
    ensures r.Success? ==> (r.value == 4 <==> t in {GL_INT, GL_UNSIGNED_INT, GL_FLOAT, GL_4_BYTES})
    ensures r.Success? ==> (r.value == 8 <==> t == GL_DOUBLE)
  {
    if t == GL_BYTE || t == GL_UNSIGNED_BYTE then Success(1)
    else if t == GL_SHORT || t == GL_UNSIGNED_SHORT || t == GL_2_BYTES then Success(2)
    else if t == GL_3_BYTES then Success(3)
    else if t == GL_INT || t == GL_UNSIGNED_INT || t == GL_FLOAT || t == GL_4_BYTES then Success(4)
    else if t == GL_DOUBLE then Success(8)
    else Failure(IllegalArgument(UnknownGlType(t)))
  }
}
