# SoftBodyDynamics mesh ingestion, modelled in Dafny

SoftBodyDynamics is a small Java soft-body physics demo with an OpenGL renderer. This project models the part of it that turns text into GPU-ready and physics-ready meshes, and proves properties of that model:

- `ObjLoader` parses Wavefront OBJ lines (`v`, `vt`, `vn`, `f`, `l`), resolves and de-duplicates vertices and computes tangents. It streams everything into a `MeshBuilder`.
- `MeshBuilder` checks every attribute call against the `VertexFormat` and writes the vertex and index bytes into `ExpandableBuffer`s.
- `VertexFormat` and `VertexAttribute` describe the vertex layout. `OpenGlUtil.sizeof` gives the byte size of each GL type.
- `ShaderProgram` expands `#include` directives recursively. It records a `LineNumberMap` so that a line of the expanded source can be traced back to its file and local line.
- `physics.Mesh` reads the simpler OBJ subset the simulation uses and bakes it into triangles.
- `MathUtil.clamp` is modelled for `int` and `long`.

Each Java source file is one module. `Base` holds `Option`, `Result`, `Outcome`, the Java exceptions the core throws and fixed-width integer helpers. `JavaString` models the `String` methods the parsers depend on (`split`, `trim`, `indexOf`, `startsWith`).

Some code is pure, such as line parsing, clamping and GL sizes. It becomes functions with lemmas about them.

Some code updates fields in place: `MeshBuilder`, `ExpandableBuffer`, `LineNumberMap.Builder`, the `ObjLoader` lists, `ShaderProgram.readShader` and `Mesh.loadMesh`. It becomes classes whose methods are proved equal to a pure state machine or recursive definition. That definition carries the properties.

Some inputs are supplied by the caller:
- floats and doubles are `real`;
- `Float.parseFloat` and `Integer.parseInt` are parameters (`NumberSyntax`);
- float-to-bits and narrowing conversions are parameters too (`Numerics`);
- resources are a map from names to their lines.

## Model

| member | source | states |
|---|---|---|
| MathUtil.ClampInt | src/main/java/util/MathUtil.java:5-7 | for min ≤ max the result lies in [min, max], equals val when val is already inside, and is the point of the range nearest to val |
| MathUtil.ClampLong | src/main/java/util/MathUtil.java:9-11 | the same as ClampInt for the long overload |
| MathUtil.ClampIntIdempotent | src/main/java/util/MathUtil.java:5-7 | clamping twice with min ≤ max equals clamping once |
| MathUtil.ClampLongIdempotent | src/main/java/util/MathUtil.java:9-11 | clamping twice with min ≤ max equals clamping once (long) |
| MathUtil.ClampIntCrossed | src/main/java/util/MathUtil.java:5-7 | with min > max the below-min test wins: the result is min exactly when val < min, max otherwise |
| MathUtil.ClampLongCrossed | src/main/java/util/MathUtil.java:9-11 | the crossed-bounds behaviour of the long overload |
| MathUtil.ClampIntCrossedNotIdempotent | src/main/java/util/MathUtil.java:5-7 | with crossed bounds clamping is not idempotent: clamp(0, 2, 1) is 2 but clamping that again gives 1 |
| OpenGlUtil.Sizeof | src/main/java/render/util/OpenGlUtil.java:13-34 | succeeds exactly on the listed GL type codes, with 1 for the byte types, 2 for the short types and 2_BYTES, 3 for 3_BYTES, 4 for the int, float and 4_BYTES types, 8 for DOUBLE; any other code is an IllegalArgumentException |
| VertexAttributes.Size | src/main/java/render/util/VertexAttribute.java:122-127 | every constant's data type has a size, and the attribute's size is its count times that size |
| VertexAttributes.NullIsUnique | src/main/java/render/util/VertexAttribute.java:28 | NULL is the only attribute whose type is NULL, and it has count 0 and size 0 |
| VertexAttributes.NonNullShape | src/main/java/render/util/VertexAttribute.java:36-112 | every other attribute has 2 to 4 components of type int, float or double, 4 or 8 bytes wide, and a positive size |
| VertexAttributes.DeclaredTable | src/main/java/render/util/VertexAttribute.java:36-112 | position: 2 or 3 ints, floats or doubles; colour: 3 or 4 floats; texture: 2 ints, floats or doubles; normal: 3 floats or doubles; tangent and bitangent: 3 floats |
| VertexFormats.VertexFormat.constructor | src/main/java/render/util/VertexFormat.java:62-68 | the loop leaves vertexSize equal to the sum of the attribute sizes (Stride) |
| VertexFormats.PrefixSizeStep | src/main/java/render/util/VertexFormat.java:188-192 | the offset of slot k+1 is the offset of slot k plus slot k's size, and never passes the vertex size |
| VertexFormats.SlotsInsideVertex | src/main/java/render/util/VertexFormat.java:188-192 | every slot's offset plus its size fits inside one vertex |
| VertexFormats.VertexFormat.IsCompatible | src/main/java/render/util/VertexFormat.java:100-110 | the loop answers true exactly when both formats have the same length and the same type at every position |
| VertexFormats.CompatibleIsReflexiveAndSymmetric | src/main/java/render/util/VertexFormat.java:85-99 | strict compatibility is reflexive and symmetric |
| VertexFormats.VertexFormat.IsLenientlyCompatible | src/main/java/render/util/VertexFormat.java:131-139 | the greedy childIndex loop answers true exactly when the child's type sequence is a subsequence of the parent's |
| VertexFormats.GreedySound | src/main/java/render/util/VertexFormat.java:131-139 | the child prefix the greedy scan matched is embedded at increasing positions of the parent |
| VertexFormats.GreedyMaximal | src/main/java/render/util/VertexFormat.java:131-139 | the greedy scan matches at least as many child types as any embedding does |
| VertexFormats.GreedyIsSubsequence | src/main/java/render/util/VertexFormat.java:131-139 | the greedy scan reaches the end of the child if and only if the child is a subsequence of the parent |
| VertexFormats.LenientlyCompatibleMeansSubsequence | src/main/java/render/util/VertexFormat.java:112-139 | the documented meaning: leniently compatible if and only if a subsequence of the parent's types equals the child's |
| VertexFormats.CompatibleImpliesLenient | src/main/java/render/util/VertexFormat.java:112-139 | strictly compatible formats are leniently compatible |
| VertexFormats.LenientIsOneWay | src/main/java/render/util/VertexFormat.java:112-117 | POS_NORM is leniently but not strictly compatible with POS, and POS is not leniently compatible with POS_NORM |
| VertexFormats.EmbeddingWitness | src/main/java/render/util/VertexFormat.java:124-125 | an explicit increasing embedding of the child's types in the parent's establishes lenient compatibility |
| VertexFormats.ObjSourceFeeds2D | src/main/java/render/util/VertexFormat.java:29-37 | POS_TEX_COL4_NORM_TANG_BITANG is leniently compatible with POS2, POS2_COL and POS2_COL4 |
| VertexFormats.ObjSourceFeeds2DTextured | src/main/java/render/util/VertexFormat.java:33-35 | ... and with POS2_TEX and POS2_TEX_COL4 |
| VertexFormats.ObjSourceFeeds3D | src/main/java/render/util/VertexFormat.java:41-49 | ... and with POS, POS_NORM and POS_TEX_NORM |
| VertexFormats.ObjSourceFeeds3DColored | src/main/java/render/util/VertexFormat.java:45-47 | ... and with POS_COL_NORM and POS_COL4_NORM |
| VertexFormats.ObjSourceFeedsTangentFormats | src/main/java/render/util/VertexFormat.java:51-54 | ... and with POS_TEX_NORM_TANG_BITANG and itself |
| VertexFormats.ObjSourceRejectsColourFirst | src/main/java/render/util/VertexFormat.java:131-139 | a format with colour before position is not leniently compatible with it, and its types are not a subsequence |
| VertexFormats.VertexFormat.HasAttributeType | src/main/java/render/util/VertexFormat.java:161-168 | true exactly when some attribute of the format has the given type |
| VertexFormats.VertexFormat.AttributePointers | src/main/java/render/util/VertexFormat.java:188-192 | attribute i gets count, data type, stride vertexSize and offset equal to the sizes of the slots before it, and each slot fits inside the stride |
| VertexFormats.VertexFormat.CreateMesh | src/main/java/render/util/VertexFormat.java:195-223 | fails exactly for a topology other than triangles or lines (IllegalArgumentException), or for a division by a zero vertexSize; otherwise indexed with count indicesCount when indicesCount > 0, else plain with count vertexBufferSize / vertexSize |
| ExpandableBuffers.LittleEndianRoundTrip | src/main/java/render/util/ExpandableBuffer.java:272-330 | the n bytes a multi-byte put writes read back as the value, for every value below 2^(8n) |
| ExpandableBuffers.IntRoundTrip | src/main/java/render/util/ExpandableBuffer.java:307-310 | the four bytes putInt writes read back as the int's two's-complement residue |
| ExpandableBuffers.Doubled | src/main/java/render/util/ExpandableBuffer.java:32-35 | from a positive capacity that lacks room, the do-while loop ends at capacity × 2^k for the least k ≥ 1 that leaves n bytes past the position |
| ExpandableBuffers.ZeroCapacityNeverGrows | src/main/java/render/util/ExpandableBuffer.java:12-13 | from capacity 0 no doubling ever makes room for a positive n, so the loop could not end |
| ExpandableBuffers.GrowthIsLeast | src/main/java/render/util/ExpandableBuffer.java:32-35 | a grown capacity is at least twice the old one, makes room for n, and its half would not have |
| ExpandableBuffers.ExpandableBuffer.constructor | src/main/java/render/util/ExpandableBuffer.java:12-14 | a fresh buffer of the requested positive capacity, position 0 |
| ExpandableBuffers.ExpandableBuffer.EnsureAdditionalCapacity | src/main/java/render/util/ExpandableBuffer.java:30-48 | with enough room, storage and bytes are untouched; otherwise a fresh array of the least doubled capacity holding the bytes before the position; position kept, at least n bytes remaining afterwards |
| ExpandableBuffers.ExpandableBuffer.PutBytes | src/main/java/render/util/ExpandableBuffer.java:247-330 | a relative put never fails: the bytes land at the old position, the position advances by their number, and the storage is kept when they fit and grown by doubling otherwise |
| ExpandableBuffers.ExpandableBuffer.Put | src/main/java/render/util/ExpandableBuffer.java:247-250 | put(byte): one byte appended at the position |
| ExpandableBuffers.ExpandableBuffer.PutArray | src/main/java/render/util/ExpandableBuffer.java:257-260 | put(byte[]): the whole array appended |
| ExpandableBuffers.ExpandableBuffer.PutRange | src/main/java/render/util/ExpandableBuffer.java:252-255 | grows for min(src.length − offset, length) bytes, then appends src[offset, offset+length) when that range is valid, and is an IndexOutOfBoundsException leaving the position and contents alone otherwise |
| ExpandableBuffers.ExpandableBuffer.PutChar | src/main/java/render/util/ExpandableBuffer.java:272-275 | appends the char's 2 bytes |
| ExpandableBuffers.ExpandableBuffer.PutShort | src/main/java/render/util/ExpandableBuffer.java:327-330 | appends the short's 2 bytes |
| ExpandableBuffers.ExpandableBuffer.PutInt | src/main/java/render/util/ExpandableBuffer.java:307-310 | appends the int's 4 bytes |
| ExpandableBuffers.ExpandableBuffer.PutLong | src/main/java/render/util/ExpandableBuffer.java:317-320 | appends the long's 8 bytes |
| ExpandableBuffers.ExpandableBuffer.PutFloat | src/main/java/render/util/ExpandableBuffer.java:292-295 | appends the float's 4 bytes |
| ExpandableBuffers.ExpandableBuffer.PutDouble | src/main/java/render/util/ExpandableBuffer.java:282-285 | appends the double's 8 bytes |
| ExpandableBuffers.ExpandableBuffer.PutBytesAt | src/main/java/render/util/ExpandableBuffer.java:267-330 | an absolute put sizes its growth from the position, not the index; it then succeeds exactly when the bytes fit at the index in the (possibly grown) storage, writes them there, keeps the position, and otherwise is an IndexOutOfBoundsException |
| ExpandableBuffers.ExpandableBuffer.PutAt | src/main/java/render/util/ExpandableBuffer.java:267-270 | put(int index, byte) as an absolute put of one byte |
| ExpandableBuffers.ExpandableBuffer.PutCharAt | src/main/java/render/util/ExpandableBuffer.java:277-280 | putChar(int index, char) as an absolute put of 2 bytes |
| ExpandableBuffers.ExpandableBuffer.PutShortAt | src/main/java/render/util/ExpandableBuffer.java:322-325 | putShort(int index, short) as an absolute put of 2 bytes |
| ExpandableBuffers.ExpandableBuffer.PutIntAt | src/main/java/render/util/ExpandableBuffer.java:302-305 | putInt(int index, int) as an absolute put of 4 bytes |
| ExpandableBuffers.ExpandableBuffer.PutLongAt | src/main/java/render/util/ExpandableBuffer.java:312-315 | putLong(int index, long) as an absolute put of 8 bytes |
| ExpandableBuffers.ExpandableBuffer.PutFloatAt | src/main/java/render/util/ExpandableBuffer.java:297-300 | putFloat(int index, float) as an absolute put of 4 bytes |
| ExpandableBuffers.ExpandableBuffer.PutDoubleAt | src/main/java/render/util/ExpandableBuffer.java:287-290 | putDouble(int index, double) as an absolute put of 8 bytes |
| ExpandableBuffers.ExpandableBuffer.Rewind | src/main/java/render/util/ExpandableBuffer.java:341-344 | position 0, same storage and bytes |
| ExpandableBuffers.ExpandableBuffer.Clear | src/main/java/render/util/ExpandableBuffer.java:97-100 | position 0, same storage and bytes |
| ExpandableBuffers.ExpandableBuffer.SetPosition | src/main/java/render/util/ExpandableBuffer.java:242-245 | moves the position exactly when the new one lies in [0, capacity], and is an IllegalArgumentException that changes nothing otherwise |
| LineNumberMaps.RemoveSpec | src/main/java/render/shader/LineNumberMap.java:44 | TreeSet.remove keeps exactly the entries whose global line differs, and keeps them ascending |
| LineNumberMaps.AddSpec | src/main/java/render/shader/LineNumberMap.java:45 | TreeSet.add loses no entry, brings in nothing but the new one, brings it in when its global line is free, and keeps the order |
| LineNumberMaps.AddKeepsPresent | src/main/java/render/shader/LineNumberMap.java:65-82 | because equality is by global line only, add on its own leaves the set unchanged when that line is present |
| LineNumberMaps.PutReplaces | src/main/java/render/shader/LineNumberMap.java:42-46 | addEntry replaces: afterwards the entries are ascending, hold the new entry, and otherwise hold exactly the old entries with another global line |
| LineNumberMaps.PutLast | src/main/java/render/shader/LineNumberMap.java:42-46 | an entry at or past every global line is appended, or replaces the last entry when it has the same line |
| LineNumberMaps.Builder.constructor | src/main/java/render/shader/LineNumberMap.java:40 | an empty entry set |
| LineNumberMaps.Builder.AddEntry | src/main/java/render/shader/LineNumberMap.java:42-46 | the set becomes the old one with the entry of that global line replaced, and stays ascending |
| LineNumberMaps.Builder.Build | src/main/java/render/shader/LineNumberMap.java:48-50 | the built map holds exactly the builder's entries, strictly ascending by global line |
| LineNumberMaps.BinarySearchContract | src/main/java/render/shader/LineNumberMap.java:15 | on ascending entries the search gives the index of an entry with that global line, or −(insertion point) − 1 with every earlier entry below and every later one above the line |
| LineNumberMaps.RankSplits | src/main/java/render/shader/LineNumberMap.java:15 | entries before the insertion point lie below the line, the rest at or above it |
| LineNumberMaps.GetEntryIsFloor | src/main/java/render/shader/LineNumberMap.java:14-22 | on an ascending non-empty map, any line but the first entry's own finds an entry of the map: the first entry for a line before it, otherwise the entry with the greatest global line not above the line |
| LineNumberMaps.FirstEntryHitFails | src/main/java/render/shader/LineNumberMap.java:16-21 | as written, looking up the first entry's own global line hits index 0, which is not > 0, and reads index −2: an out-of-bounds failure |
| LineNumberMaps.EmptyMapFails | src/main/java/render/shader/LineNumberMap.java:18-19 | an empty map fails on index 0 for every line |
| LineNumberMaps.GetActualFileName | src/main/java/render/shader/LineNumberMap.java:24-26 | fails exactly when the lookup does, and is otherwise the found entry's file name |
| LineNumberMaps.GetActualLineNumber | src/main/java/render/shader/LineNumberMap.java:28-31 | fails exactly when the lookup does; otherwise the result lies as far past the entry's local line as the line lies past the entry's global line |
| LineNumberMaps.LookupIgnoresLater | src/main/java/render/shader/LineNumberMap.java:14-22 | entries added past a line do not change what looking up that line finds |
| LineNumberMaps.LookupFindsLast | src/main/java/render/shader/LineNumberMap.java:14-22 | with every entry at or below the line, a line past the first entry's finds the last entry |
| LineNumberMaps.CorrectedGetEntryIsFloor | src/main/java/render/shader/LineNumberMap.java:14-22 | with the exact-hit test at index >= 0, every line of an ascending non-empty map finds an entry: the first for a line before it, otherwise the one with the greatest global line not above the line |
| LineNumberMaps.CorrectionOnlyAtFirstEntry | src/main/java/render/shader/LineNumberMap.java:16-17 | the corrected lookup differs from the written one only at the first entry's own global line |
| LineNumberMaps.CorrectedFirstEntryHit | src/main/java/render/shader/LineNumberMap.java:16-17 | corrected, the first entry's own line finds the first entry |
| LineNumberMaps.FirstEntryHitExample | src/main/java/render/shader/LineNumberMap.java:16-21 | a one-entry map at global line 1: as written line 1 fails on index −2, corrected it finds the entry |
| LineNumberMaps.GetActualFileNameCorrected | src/main/java/render/shader/LineNumberMap.java:24-26 | fails exactly when the corrected lookup does, otherwise the found entry's file name |
| LineNumberMaps.GetActualLineNumberCorrected | src/main/java/render/shader/LineNumberMap.java:28-31 | fails exactly when the corrected lookup does, otherwise as far past the entry's local line as the line lies past its global line |
| ShaderPrograms.Lookup | src/main/java/render/shader/ShaderProgram.java:74-81 | a resource is found exactly when the name is known; the program's shaders win over the standard ones |
| ShaderPrograms.IncludeRoundTrip | src/main/java/render/shader/ShaderProgram.java:88-94 | for a non-empty name without surrounding blanks or `//`, the line `#include name` is a directive and its included name is the name again |
| ShaderPrograms.IncludeLineHasNoComment | src/main/java/render/shader/ShaderProgram.java:90-91 | a directive line built from a name without `//` holds no `//`, so nothing is cut |
| ShaderPrograms.CommentOnlyIncludeThrows | src/main/java/render/shader/ShaderProgram.java:88-93 | `#include //...` is a directive, but after the cut and the trim fewer than nine characters are left and substring throws |
| ShaderPrograms.ReadFile | src/main/java/render/shader/ShaderProgram.java:71-82 | a name found by neither lookup is an IllegalArgumentException; a successful read marks the file included and only extends the lines, with the returned global line counting the lines emitted |
| ShaderPrograms.ReadLines | src/main/java/render/shader/ShaderProgram.java:83-110 | the loop only extends the output: a successful read adds lines and origins in step and returns the input global line plus the number of lines emitted |
| ShaderPrograms.ReadInclude | src/main/java/render/shader/ShaderProgram.java:96-100 | an include only extends the output, with the global line counting every line of the nested expansion |
| ShaderPrograms.PlainStep | src/main/java/render/shader/ShaderProgram.java:101-106 | a line that is not a directive is appended once to the text (with `\n`) and to `lines`, and the global line grows by exactly one |
| ShaderPrograms.IncludeStep | src/main/java/render/shader/ShaderProgram.java:88-100 | a directive emits nothing itself and hands over to the include of its name |
| ShaderPrograms.NewIncludeStep | src/main/java/render/shader/ShaderProgram.java:96-100 | a file not yet included is read between the entries (1, G, name) and (localLine + 1, G', includer) |
| ShaderPrograms.ReadLinesTracks | src/main/java/render/shader/ShaderProgram.java:83-110 | with the includer's entry recorded, the loop keeps the invariant: entries ascend from global line 1, the text is the lines joined with newlines, the corrected lookup reports every line at its true file and line |
| ShaderPrograms.ReadIncludeTracks | src/main/java/render/shader/ShaderProgram.java:96-100 | an include (new or repeated) keeps the same invariant |
| ShaderPrograms.ReadFileTracks | src/main/java/render/shader/ShaderProgram.java:71-111 | reading a file whose first line is where the last entry points keeps the invariant |
| ShaderPrograms.ReadLocatesLines | src/main/java/render/shader/ShaderProgram.java:60-68 | a successful expansion's text is its lines each followed by a newline, the next global line is one past them, every origin names the true line of a known file, and the built map answers every global line from 2 on with that line's file and local line |
| ShaderPrograms.ReadLocatesLinesCorrected | src/main/java/render/shader/ShaderProgram.java:60-68 | with the corrected lookup, the built map answers every global line from 1 on with that line's file and local line |
| ShaderPrograms.FirstLineLookupFails | src/main/java/render/shader/ShaderProgram.java:63 | global line 1 is the first entry's own line, so looking it up in the built map throws |
| ShaderPrograms.SingleLineRead | src/main/java/render/shader/ShaderProgram.java:71-111 | a one-line file without directives emits that line and ends one global line on |
| ShaderPrograms.SelfIncludeEnds | src/main/java/render/shader/ShaderProgram.java:72 | a file that includes itself is read once, since its name is already included: the recursion ends |
| ShaderPrograms.SkippedIncludeMisreports | src/main/java/render/shader/ShaderProgram.java:96-100 | as written, with a = [include b, include b, x] and b = [y], the expansion is [y, x] with x from a:3, yet the map reports global line 2 as a:2 |
| ShaderPrograms.SkippedIncludeExample | src/main/java/render/shader/ShaderProgram.java:96-100 | the concrete instance a = `#include b`, `#include b`, `x` and b = `y` of the misreport |
| ShaderPrograms.SkippedIncludeFixed | src/main/java/render/shader/ShaderProgram.java:96-100 | recording the includer's next line for a skipped include as well, the same input reports global line 2 as a:3 |
| ShaderPrograms.ShaderProgram.constructor | src/main/java/render/shader/ShaderProgram.java:25-26 | no lines and no line number map yet |
| ShaderPrograms.ShaderProgram.ReadShader | src/main/java/render/shader/ShaderProgram.java:60-68 | returns the expansion's text and leaves `lines` and the built map equal to those of the corrected expansion (ShaderPrograms.Read with `fixed` set), or throws its exception; the text, `lines` and the exception are also those of the as-written expansion |
| ShaderPrograms.ShaderProgram.ReadShaderFrom | src/main/java/render/shader/ShaderProgram.java:71-111 | with `fixed` set (the corrected bookkeeping): the recursive method with its StringBuilder, HashSet and builder agrees with ReadFile, with the same new global line, the same state and the same exception |
| ShaderPrograms.ShaderProgram.ReadLineOf | src/main/java/render/shader/ShaderProgram.java:86-106 | with `fixed` set: one pass of the while loop agrees with one step of ReadLines; a directive naming a file already included adds the includer's entry (k + 2, g, shader), which the source does not |
| ShaderPrograms.ShaderProgram.ReadIncludeOf | src/main/java/render/shader/ShaderProgram.java:96-100 | with `fixed` set: the entry, the recursive read and the closing entry agree with ReadInclude on a file not yet included |
| ShaderPrograms.FlagOnlyLines | src/main/java/render/shader/ShaderProgram.java:86-110 | from states that differ only in their entries, the line loop with and without the corrected bookkeeping throws the same exception, or ends at the same global line with the same text, lines, origins and include set |
| ShaderPrograms.FlagOnlyInclude | src/main/java/render/shader/ShaderProgram.java:96-100 | the same agreement for one include, new or repeated |
| ShaderPrograms.FlagOnlyFile | src/main/java/render/shader/ShaderProgram.java:71-82 | the same agreement for a whole file |
| ShaderPrograms.ReadFlagOnlyChangesEntries | src/main/java/render/shader/ShaderProgram.java:60-68 | the corrected expansion differs from the as-written one only in the map entries: the same success or exception, text, lines, origins, include set and global line |
| ShaderPrograms.ExpandedIsAsWritten | src/main/java/render/shader/ShaderProgram.java:40-43 | the text the constructor expands is the as-written expansion's text, or its exception |
| ShaderPrograms.Expanded | src/main/java/render/shader/ShaderProgram.java:40-43 | a null shader is skipped; an expanded one is a successful read |
| ShaderPrograms.Construct | src/main/java/render/shader/ShaderProgram.java:28-48 | a name count other than the format's attribute count throws IllegalArgumentException before anything is read; success means equal counts and an expansion for each non-null shader |
| ShaderPrograms.MissingShaderThrows | src/main/java/render/shader/ShaderProgram.java:40-41 | with matching counts, a vertex shader found by neither lookup makes the constructor throw "Shader not found" |
| ShaderPrograms.NewShaderProgram | src/main/java/render/shader/ShaderProgram.java:28-48 | the method agrees with Construct: the count check, then the expansions on one program object |
| PhysicsMesh.ParseVec | src/main/java/physics/Mesh.java:69 | a four-part line gives a vector exactly when all three numbers parse, holding those numbers; otherwise the NumberFormatException escapes |
| PhysicsMesh.Part | src/main/java/physics/Mesh.java:89-90 | indexing a split corner succeeds exactly inside the array and is an ArrayIndexOutOfBoundsException otherwise |
| PhysicsMesh.ParseFace | src/main/java/physics/Mesh.java:85-90 | a triangle is built only when all three corners split into at least three `/` parts; a failure is never an IOException |
| PhysicsMesh.ParseLineStep | src/main/java/physics/Mesh.java:57-100 | a line only appends, and at most one entry in all three lists; an IOException it throws names the line number it was given |
| PhysicsMesh.ParseParts | src/main/java/physics/Mesh.java:62-99 | the same for the switch on the first part, and a four-part `f` line succeeds exactly when its face parses |
| PhysicsMesh.IgnoredLines | src/main/java/physics/Mesh.java:59-60 | comments, `vt` lines and any other first word leave the lists unchanged |
| PhysicsMesh.DirectiveLines | src/main/java/physics/Mesh.java:65-93 | `v`, `vn` and `f` with other than four parts throw their IOException for the line; one that succeeds appends exactly its vector or triangle to its own list |
| PhysicsMesh.ShortCornerThrows | src/main/java/physics/Mesh.java:85-90 | a face with a corner of fewer than three `/` parts throws |
| PhysicsMesh.LoadLines | src/main/java/physics/Mesh.java:46-52 | reading lines only extends the lists; the first exception ends the loop |
| PhysicsMesh.ErrorsNameLineOne | src/main/java/physics/Mesh.java:46-52 | every IOException the loop throws names line 1, because the increment sits after the loop |
| PhysicsMesh.LoadLinesAppend | src/main/java/physics/Mesh.java:48-50 | reading `pre` then `post` is reading `pre + post`, unless `pre` already threw |
| PhysicsMesh.Construct | src/main/java/physics/Mesh.java:26-35 | the constructor swallows an IOException, keeping the lists loaded so far; any other exception escapes |
| PhysicsMesh.BadLineKeepsEarlierLines | src/main/java/physics/Mesh.java:29-33 | a line that throws an IOException leaves the mesh as the lines before it made it, and nothing after it is read |
| PhysicsMesh.NewMesh | src/main/java/physics/Mesh.java:26-35 | the constructor method agrees with Construct: a fresh mesh with the loaded lists, or the escaping exception |
| PhysicsMesh.Mesh.constructor | src/main/java/physics/Mesh.java:18-27 | three empty lists and the location |
| PhysicsMesh.Mesh.ParseLine | src/main/java/physics/Mesh.java:57-100 | the method agrees with ParseLineStep, and a line that throws leaves the lists unchanged |
| PhysicsMesh.Mesh.LoadMesh | src/main/java/physics/Mesh.java:45-53 | the loop agrees with LoadLines: the lists it leaves and the exception that ended it |
| PhysicsMesh.Get | src/main/java/physics/Mesh.java:107-112 | `list.get(i - 1)` succeeds exactly for 1 ≤ i ≤ size and returns that element, throwing IndexOutOfBoundsException for i − 1 (with int wrap-around) otherwise |
| PhysicsMesh.CornerAt | src/main/java/physics/Mesh.java:107-108 | a corner is found exactly when both 1-based indices are in range, and is that position and normal |
| PhysicsMesh.Corners | src/main/java/physics/Mesh.java:106-113 | the corners of the first k triangles, three per triangle |
| PhysicsMesh.CornersSucceed | src/main/java/physics/Mesh.java:103-116 | baking the first k triangles succeeds exactly when every index of each names an entry of its list |
| PhysicsMesh.CornersStopAtFailure | src/main/java/physics/Mesh.java:106-113 | the first lookup that throws is what baking all triangles throws |
| PhysicsMesh.FeedPos | src/main/java/physics/Mesh.java:107 | `pos` on a POS_NORM builder between vertices fills the position slot with three doubles |
| PhysicsMesh.FeedNorm | src/main/java/physics/Mesh.java:108 | `norm` after it writes three floats and completes one vertex more |
| PhysicsMesh.TriangleTrace | src/main/java/physics/Mesh.java:107-112 | the three corner lookups of one triangle, the first exception ending it, decide the corners so far or the exception of the whole bake |
| PhysicsMesh.Mesh.BakeMesh | src/main/java/physics/Mesh.java:103-116 | throws the first failing lookup, or returns a non-indexed triangle mesh of 3 × triangles vertices whose data starts with each corner's position and normal, in order |
| PhysicsMesh.EmitTriangles | src/main/java/physics/Mesh.java:106-113 | the loop over triangles leaves the builder holding exactly all corners as vertices, or stops with the first exception |
| PhysicsMesh.EmitTriangle | src/main/java/physics/Mesh.java:107-112 | one triangle's chain adds its three corners, or throws what the bake throws |
| PhysicsMesh.EmitLastCorners | src/main/java/physics/Mesh.java:109-112 | the second and third corners, the first exception ending the chain |
| PhysicsMesh.EmitCorner | src/main/java/physics/Mesh.java:107-108 | `pos(positions.get(p - 1)).norm(normals.get(n - 1))` adds that corner, or throws the lookup's exception |
| PhysicsMesh.EmitPos | src/main/java/physics/Mesh.java:107 | the builder now holds the position after the earlier vertices |
| PhysicsMesh.EmitNorm | src/main/java/physics/Mesh.java:108 | the builder now holds one vertex more |
| MeshBuilders.ComponentBytes | src/main/java/render/util/MeshBuilder.java:447-523 | each int, float or double is written as exactly as many bytes as `sizeof` gives for its GL type (4, 4, 8) |
| MeshBuilders.EncodeLength | src/main/java/render/util/MeshBuilder.java:447-523 | the bytes written for a sequence of values are exactly its width, one value after another, whatever the numeric conversions |
| MeshBuilders.UniformWidth | src/main/java/render/util/MeshBuilder.java:447-523 | values that are all w bytes wide take w bytes each |
| MeshBuilders.WidthZero | src/main/java/render/util/MeshBuilder.java:558-560 | a vertex byte count of zero means nothing was written |
| MeshBuilders.CallTypes | src/main/java/render/util/MeshBuilder.java:204-386 | each builder call attempts exactly one attribute type, position for pos, colour for col, and so on |
| MeshBuilders.PayloadFitsSlot | src/main/java/render/util/MeshBuilder.java:208-229 | for every slot a call is accepted for, the switch has an arm (the AssertionError default is unreachable) and that arm writes getCount() values of the slot's data type, getSize() bytes in all |
| MeshBuilders.AttemptedIsNeverNull | src/main/java/render/util/MeshBuilder.java:548-556 | no builder call attempts the NULL attribute type |
| MeshBuilders.Initial | src/main/java/render/util/MeshBuilder.java:410-427 | a new builder is at slot 0 with no vertices, no bytes, no indices, strict and implicit |
| MeshBuilders.InitialInv | src/main/java/render/util/MeshBuilder.java:410-427 | a new builder satisfies the byte-count invariant: bytes written equal whole vertices times the stride plus the sizes of the slots filled so far, and every index is below the vertex count |
| MeshBuilders.Current | src/main/java/render/util/MeshBuilder.java:534-546 | the current attribute, when there is one, is the format's attribute at the cursor |
| MeshBuilders.Check | src/main/java/render/util/MeshBuilder.java:548-556 | the type check succeeds only when there is a current attribute |
| MeshBuilders.Run | src/main/java/render/util/MeshBuilder.java:204-386 | a run of builder calls that throws nothing keeps the byte-count invariant |
| MeshBuilders.FeedPreservesInv | src/main/java/render/util/MeshBuilder.java:204-386 | one accepted builder call keeps the byte-count invariant |
| MeshBuilders.AcceptPreservesInv | src/main/java/render/util/MeshBuilder.java:528-532 | writing a slot's size and advancing the cursor keeps the invariant, including the wrap to a new vertex |
| MeshBuilders.CloseVertex | src/main/java/render/util/MeshBuilder.java:528-532 | a cursor past the last slot is the same byte count as one more whole vertex at slot 0 |
| MeshBuilders.ImplicitCursorWraps | src/main/java/render/util/MeshBuilder.java:528-532 | in implicit mode an accepted call moves the cursor from i to (i + 1) mod the attribute count |
| MeshBuilders.StrictMismatchThrows | src/main/java/render/util/MeshBuilder.java:548-556 | a strict builder given the wrong attribute type throws IllegalStateException naming the attempted and the expected types |
| MeshBuilders.StrictFullVertexThrows | src/main/java/render/util/MeshBuilder.java:534-546 | a strict explicit builder whose vertex is full throws IllegalStateException on any further attribute |
| MeshBuilders.LenientMismatchIsIgnored | src/main/java/render/util/MeshBuilder.java:534-556 | a lenient builder given a mismatched type, or a full explicit vertex, changes nothing and throws nothing |
| MeshBuilders.AcceptedWritesSlotSize | src/main/java/render/util/MeshBuilder.java:204-232 | a call of the slot's type succeeds, appends exactly getCount() values of the slot's data type and grows the byte count by getSize() |
| MeshBuilders.FeedAccepted | src/main/java/render/util/MeshBuilder.java:204-232 | an accepted call appends the slot's payload and advances the cursor |
| MeshBuilders.FeedRejected | src/main/java/render/util/MeshBuilder.java:204-232 | a rejected call either throws the type check's exception or leaves the builder as it was |
| MeshBuilders.EndVertexBehaviour | src/main/java/render/util/MeshBuilder.java:396-403 | implicit endVertex is a no-op; explicit endVertex succeeds exactly on a full vertex, keeps the invariant and returns the cursor to 0 |
| MeshBuilders.SetExplicitBehaviour | src/main/java/render/util/MeshBuilder.java:153-158 | setExplicit keeps the invariant, sets the mode, resets a full cursor when leaving explicit mode and otherwise keeps the cursor |
| MeshBuilders.WholeVertices | src/main/java/render/util/MeshBuilder.java:122 | between vertices the byte count is whole vertices times the stride, so verticesSize / stride is the vertex count |
| MeshBuilders.FirstOutOfRange | src/main/java/render/util/MeshBuilder.java:123-126 | finds no index exactly when all indices lie in [0, count), and otherwise the first index outside it |
| MeshBuilders.FirstOutOfRangeAt | src/main/java/render/util/MeshBuilder.java:123-126 | the first out-of-range index is the one the loop throws on |
| MeshBuilders.FirstBadIndex | src/main/java/render/util/MeshBuilder.java:123-126 | the loop over the indices stops at the first one outside [0, vertex count) |
| MeshBuilders.IndicesBehaviour | src/main/java/render/util/MeshBuilder.java:117-133 | indices succeed exactly between vertices with a non-empty stride and every index below the vertex count; otherwise IllegalStateException or IndexOutOfBoundsException for the first bad index; on success they are appended and the invariant holds |
| MeshBuilders.QuotientOfWhole | src/main/java/render/util/MeshBuilder.java:122 | integer division of whole vertices' bytes by the stride gives back the vertex count |
| MeshBuilders.EncodeIndicesLength | src/main/java/render/util/MeshBuilder.java:128-130 | each index takes four bytes in the index buffer |
| MeshBuilders.OneVertexPrefix | src/main/java/render/util/MeshBuilder.java:204-386 | the first k calls of a vertex given in format order all succeed and fill the first k slots |
| MeshBuilders.OneVertex | src/main/java/render/util/MeshBuilder.java:204-403 | one call per slot in format order writes exactly one stride and endVertex then closes one more vertex |
| MeshBuilders.LenientRunIsGreedy | src/main/java/render/util/VertexFormat.java:131-139 | a lenient explicit builder's cursor after any calls is the greedy match of the call types against the format |
| MeshBuilders.LenientRunKeepsModes | src/main/java/render/util/MeshBuilder.java:143-158 | builder calls never change the lenient and explicit flags |
| MeshBuilders.LenientFeedFillsEverySlot | src/main/java/render/util/VertexFormat.java:131-139 | feeding a leniently compatible parent format's vertex into a lenient explicit builder fills every slot so endVertex succeeds |
| MeshBuilders.RunAppend | src/main/java/render/util/MeshBuilder.java:204-386 | running two call lists is running the first and then the second, and an exception stops the rest |
| MeshBuilders.ExplicitRunKeepsCounts | src/main/java/render/util/MeshBuilder.java:396-403 | in explicit mode calls only append bytes: the vertex count, indices and format are unchanged until endVertex |
| MeshBuilders.ChannelValue | src/main/java/render/util/MeshBuilder.java:294-296 | a channel of a packed colour lies in [0, 255] |
| MeshBuilders.ChannelsOfPacked | src/main/java/render/util/MeshBuilder.java:294-296 | col(0xAARRGGBB) is col(RR, GG, BB, AA): the bits at 24, 16, 8 and 0 are the alpha, red, green and blue |
| MeshBuilders.WithBuffersBehaviour | src/main/java/render/util/MeshBuilder.java:166-173 | the buffers can be replaced exactly while no vertex byte and no index has been counted, and doing so changes no other state |
| MeshBuilders.MeshBuilder.constructor | src/main/java/render/util/MeshBuilder.java:410-432 | a new builder is in its initial state on the given format, draw type and buffers, with the buffers' contents untouched |
| MeshBuilders.MeshBuilder.CurrentAttribute | src/main/java/render/util/MeshBuilder.java:534-546 | returns the current attribute as Current specifies |
| MeshBuilders.MeshBuilder.CheckAttributeType | src/main/java/render/util/MeshBuilder.java:548-556 | performs the type check as Check specifies |
| MeshBuilders.MeshBuilder.IncAttributeIndex | src/main/java/render/util/MeshBuilder.java:528-532 | advances the cursor, wrapping to a new vertex in implicit mode |
| MeshBuilders.MeshBuilder.EmitInt | src/main/java/render/util/MeshBuilder.java:447-450 | appends one int's bytes to the vertex buffer and adds 4 to the byte count |
| MeshBuilders.MeshBuilder.EmitFloat | src/main/java/render/util/MeshBuilder.java:473-476 | appends one float's bytes and adds 4 to the byte count |
| MeshBuilders.MeshBuilder.EmitDouble | src/main/java/render/util/MeshBuilder.java:499-502 | appends one double's bytes and adds 8 to the byte count |
| MeshBuilders.MeshBuilder.PutInt | src/main/java/render/util/MeshBuilder.java:447-450 | appends one int and adds 4 to the byte count |
| MeshBuilders.MeshBuilder.PutInt2 | src/main/java/render/util/MeshBuilder.java:452-456 | appends two ints in order and adds 8 |
| MeshBuilders.MeshBuilder.PutInt3 | src/main/java/render/util/MeshBuilder.java:458-463 | appends three ints in order and adds 12 |
| MeshBuilders.MeshBuilder.PutInt4 | src/main/java/render/util/MeshBuilder.java:465-471 | appends four ints in order and adds 16 |
| MeshBuilders.MeshBuilder.PutFloat | src/main/java/render/util/MeshBuilder.java:473-476 | appends one float and adds 4 |
| MeshBuilders.MeshBuilder.PutFloat2 | src/main/java/render/util/MeshBuilder.java:478-482 | appends two floats in order and adds 8 |
| MeshBuilders.MeshBuilder.PutFloat3 | src/main/java/render/util/MeshBuilder.java:484-489 | appends three floats in order and adds 12 |
| MeshBuilders.MeshBuilder.PutFloat4 | src/main/java/render/util/MeshBuilder.java:491-497 | appends four floats in order and adds 16 |
| MeshBuilders.MeshBuilder.PutDouble | src/main/java/render/util/MeshBuilder.java:499-502 | appends one double and adds 8 |
| MeshBuilders.MeshBuilder.PutDouble2 | src/main/java/render/util/MeshBuilder.java:504-508 | appends two doubles in order and adds 16 |
| MeshBuilders.MeshBuilder.PutDouble3 | src/main/java/render/util/MeshBuilder.java:510-515 | appends three doubles in order and adds 24 |
| MeshBuilders.MeshBuilder.PutDouble4 | src/main/java/render/util/MeshBuilder.java:517-523 | appends four doubles in order and adds 32 |
| MeshBuilders.MeshBuilder.PutPosition | src/main/java/render/util/MeshBuilder.java:208-229 | writes the position in the slot's own count and data type (2 or 3 ints, floats or doubles) |
| MeshBuilders.MeshBuilder.PutColor | src/main/java/render/util/MeshBuilder.java:276-285 | writes three or four float channels according to the colour slot |
| MeshBuilders.MeshBuilder.PutTexture | src/main/java/render/util/MeshBuilder.java:307-319 | writes the texture coordinate as two ints, floats or doubles according to the slot |
| MeshBuilders.MeshBuilder.PutNormal | src/main/java/render/util/MeshBuilder.java:338-347 | writes the normal as three floats or doubles according to the slot |
| MeshBuilders.MeshBuilder.PutTangent | src/main/java/render/util/MeshBuilder.java:356-368 | writes the tangent as three floats |
| MeshBuilders.MeshBuilder.PutBitangent | src/main/java/render/util/MeshBuilder.java:374-386 | writes the bitangent as three floats |
| MeshBuilders.MeshBuilder.Accept | src/main/java/render/util/MeshBuilder.java:204-232 | writes an accepted call's payload and advances the cursor, keeping the builder valid |
| MeshBuilders.MeshBuilder.Attribute | src/main/java/render/util/MeshBuilder.java:204-386 | any attribute call moves the builder exactly as the Feed state machine says, and on an exception leaves it unchanged |
| MeshBuilders.MeshBuilder.Pos | src/main/java/render/util/MeshBuilder.java:204-232 | pos(x, y, z) follows Feed for a position call |
| MeshBuilders.MeshBuilder.PosVec | src/main/java/render/util/MeshBuilder.java:197-199 | pos(Vector3f) is pos of its three components |
| MeshBuilders.MeshBuilder.Pos2 | src/main/java/render/util/MeshBuilder.java:237-239 | pos(x, y) is pos(x, y, 0) |
| MeshBuilders.MeshBuilder.Col | src/main/java/render/util/MeshBuilder.java:272-287 | col(r, g, b, a) follows Feed for a colour call |
| MeshBuilders.MeshBuilder.Col3 | src/main/java/render/util/MeshBuilder.java:256-258 | col(float r, g, b) is an opaque colour, alpha 1 |
| MeshBuilders.MeshBuilder.ColInt | src/main/java/render/util/MeshBuilder.java:264-266 | col(int r, g, b, a) divides each channel by 255 |
| MeshBuilders.MeshBuilder.ColInt3 | src/main/java/render/util/MeshBuilder.java:248-250 | col(int r, g, b) is the opaque colour with each channel divided by 255 |
| MeshBuilders.MeshBuilder.ColArgb | src/main/java/render/util/MeshBuilder.java:294-296 | col(int argb) takes red, green, blue and alpha from bits 16, 8, 0 and 24 |
| MeshBuilders.MeshBuilder.Tex | src/main/java/render/util/MeshBuilder.java:304-322 | tex(u, v) follows Feed for a texture call |
| MeshBuilders.MeshBuilder.Norm | src/main/java/render/util/MeshBuilder.java:335-350 | norm(x, y, z) follows Feed for a normal call |
| MeshBuilders.MeshBuilder.NormVec | src/main/java/render/util/MeshBuilder.java:327-329 | norm(Vector3f) is norm of its components |
| MeshBuilders.MeshBuilder.Tangent | src/main/java/render/util/MeshBuilder.java:356-368 | tangent(x, y, z) follows Feed for a tangent call |
| MeshBuilders.MeshBuilder.Bitangent | src/main/java/render/util/MeshBuilder.java:374-386 | bitangent(x, y, z) follows Feed for a bitangent call |
| MeshBuilders.MeshBuilder.EndVertex | src/main/java/render/util/MeshBuilder.java:396-403 | endVertex moves the builder as EndVertexStep says, touching no buffer |
| MeshBuilders.MeshBuilder.SetLenient | src/main/java/render/util/MeshBuilder.java:143-146 | sets the lenient flag and nothing else |
| MeshBuilders.MeshBuilder.SetExplicit | src/main/java/render/util/MeshBuilder.java:153-158 | moves the builder as SetExplicitStep says |
| MeshBuilders.MeshBuilder.Indices | src/main/java/render/util/MeshBuilder.java:117-133 | indices(...) moves the builder as IndicesStep says and writes the accepted indices to the index buffer |
| MeshBuilders.MeshBuilder.AddIndices | src/main/java/render/util/MeshBuilder.java:128-130 | appends every index, four bytes each, and counts them |
| MeshBuilders.MeshBuilder.PutIndices | src/main/java/render/util/MeshBuilder.java:129-130 | the put loop appends exactly the given indices, in order, and changes nothing else of the builder |
| MeshBuilders.MeshBuilder.PutIndex | src/main/java/render/util/MeshBuilder.java:130 | appends one index's four bytes to the index buffer |
| MeshBuilders.MeshBuilder.WithBuffers | src/main/java/render/util/MeshBuilder.java:166-173 | the buffers are replaced exactly when the vertex byte count and the index count are both zero; otherwise IllegalStateException and the old buffers stay |
| MeshBuilders.MeshBuilder.GetVertexBuffer | src/main/java/render/util/MeshBuilder.java:179-181 | returns the current vertex buffer |
| MeshBuilders.MeshBuilder.GetIndicesBuffer | src/main/java/render/util/MeshBuilder.java:187-189 | returns the current index buffer |
| MeshBuilders.MeshBuilder.CreateMesh | src/main/java/render/util/MeshBuilder.java:104-112 | refuses part-way through a vertex; otherwise the mesh kind follows the draw type and whether indices were given, its vertex data begins with everything written and its count is the index count or the vertex count; an unsupported draw type or an empty stride without indices is an exception |
| ObjLoaders.Empty | src/main/java/render/objLoader/ObjLoader.java:68-77 | a new loader holds no positions, colours, textures, normals, corners, faces or lines |
| ObjLoaders.IgnoredLines | src/main/java/render/objLoader/ObjLoader.java:296-300 | comment lines, the empty line and any unknown first word change nothing; a non-empty line of spaces alone throws on its missing first word |
| ObjLoaders.PositionLineBehaviour | src/main/java/render/objLoader/ObjLoader.java:302-310 | a `v` line needs 4, 5, 7 or 8 parts and succeeds exactly when its numbers parse; the colour is (r, g, b, a) from 8 parts, (r, g, b, 1) from 7, white otherwise; an error names the line |
| ObjLoaders.TextureLineBehaviour | src/main/java/render/objLoader/ObjLoader.java:312-317 | a `vt` line needs exactly 3 parts and gives the two parsed numbers; an error names the line |
| ObjLoaders.NormalLineBehaviour | src/main/java/render/objLoader/ObjLoader.java:318-323 | a `vn` line needs exactly 4 parts and gives the three parsed numbers; an error names the line |
| ObjLoaders.ParseVertexBehaviour | src/main/java/render/objLoader/ObjLoader.java:364-374 | more than three `/`-parts is an error; the corner parses exactly when pos and any present tex and norm parse; an empty or missing tex and a missing norm become -1 |
| ObjLoaders.LineErrorsNameTheLine | src/main/java/render/objLoader/ObjLoader.java:294-362 | every exception a line raises is an ObjFormatException carrying that line's number, except the missing first word of a line of spaces |
| ObjLoaders.CornerErrorsNameTheLine | src/main/java/render/objLoader/ObjLoader.java:364-387 | every exception a corner raises carries the corner's line number, except a corner with no `/`-part |
| ObjLoaders.ParseLines | src/main/java/render/objLoader/ObjLoader.java:119-122 | parsing the whole file keeps the loader well formed: one colour per position, ids dense and in range, at most three new corners per line |
| ObjLoaders.ParseErrorsNameTheirLine | src/main/java/render/objLoader/ObjLoader.java:119-122 | a file that fails stops at its first bad line, numbered from 1, with that line's exception |
| ObjLoaders.ParseLinesStopAtFailure | src/main/java/render/objLoader/ObjLoader.java:119-122 | an exception in the first k lines is the exception of the whole file |
| ObjLoaders.ParseLinesNext | src/main/java/render/objLoader/ObjLoader.java:119-122 | line k + 1 is parsed with the number k + 1 on the lists the first k lines left |
| ObjLoaders.AddVertexBehaviour | src/main/java/render/objLoader/ObjLoader.java:376-387 | a known key gets its old id and changes nothing; a new key gets id `indices.size()` and is appended to vertexList; the id always names a corner with that key |
| ObjLoaders.DedupIgnoresLine | src/main/java/render/objLoader/ObjLoader.java:402-420 | two corners with the same (pos, tex, norm) get the same id whatever lines they are on |
| ObjLoaders.IndexCornerBehaviour | src/main/java/render/objLoader/ObjLoader.java:376-387 | parseVertexToIndex succeeds exactly when the corner parses, and then deduplicates it as AddVertexBehaviour says |
| ObjLoaders.CornersKeepIdsInRange | src/main/java/render/objLoader/ObjLoader.java:385 | adding corners keeps every earlier face and line pointing at existing ids |
| ObjLoaders.FaceLineChecks | src/main/java/render/objLoader/ObjLoader.java:324-328 | an `f` line is refused outside triangle mode before its arity is checked, and needs exactly 4 parts |
| ObjLoaders.FaceLineBehaviour | src/main/java/render/objLoader/ObjLoader.java:330 | an accepted face's three ids name corners with the keys of its three corners, processed left to right |
| ObjLoaders.AddTriKeepsIdsInRange | src/main/java/render/objLoader/ObjLoader.java:330 | a face of existing ids keeps every face in range |
| ObjLoaders.SegmentLineChecks | src/main/java/render/objLoader/ObjLoader.java:333-337 | an `l` line is refused outside lines mode before its arity is checked, and needs exactly 3 parts |
| ObjLoaders.SegmentLineBehaviour | src/main/java/render/objLoader/ObjLoader.java:339 | an accepted line's two ids name corners with the keys of its two corners, in order |
| ObjLoaders.AddSegKeepsIdsInRange | src/main/java/render/objLoader/ObjLoader.java:339 | a line of existing ids keeps every line in range |
| ObjLoaders.PositionLeavesBehaviour | src/main/java/render/objLoader/ObjLoader.java:301-311 | a `v` line that returns adds its position and colour; one that throws adds no colour, and keeps its position exactly when the arity was right and the three coordinates parsed |
| ObjLoaders.IndexCornerLeaves | src/main/java/render/objLoader/ObjLoader.java:376-387 | indexing a corner only adds corners, keeps the map and vertexList inverse and puts the corner's key in the map |
| ObjLoaders.FaceLeavesBehaviour | src/main/java/render/objLoader/ObjLoader.java:324-332 | an `f` line that throws adds no face, but the corners indexed before the failing one stay in the map, still inverse to vertexList; a refused mode, arity or first corner leaves everything as it was |
| ObjLoaders.SegmentLeavesBehaviour | src/main/java/render/objLoader/ObjLoader.java:333-340 | an `l` line that throws adds no line, but a first corner that parsed stays in the map |
| ObjLoaders.LineLeavesBehaviour | src/main/java/render/objLoader/ObjLoader.java:294-346 | a line that returns leaves the step's lists; one that throws leaves at most one colourless position or up to two new corners, with the map inverse to vertexList and every face and line in range |
| ObjLoaders.LinesLeaveOnSuccess | src/main/java/render/objLoader/ObjLoader.java:119-122 | a file that parses is read to its end and leaves the lists ParseLines gives |
| ObjLoaders.LinesLeaveStopAtFailure | src/main/java/render/objLoader/ObjLoader.java:119-122 | once a line has thrown, the lines after it are neither read nor change the lists |
| ObjLoaders.ThrownFileStops | src/main/java/render/objLoader/ObjLoader.java:119-122 | a file that throws is read up to and including its first bad line c, whose exception it throws, and leaves what that line left of the earlier lines' lists |
| ObjLoaders.FirstThrow | src/main/java/render/objLoader/ObjLoader.java:119-122 | a file whose lines throw has a first line k that throws: lines 1..k-1 parse and lines 1..k do not |
| ObjLoaders.ThrownFileKeeps | src/main/java/render/objLoader/ObjLoader.java:119-122 | after a throw the loader holds the earlier lines' lists plus what ThrownKeeps allows, with the map inverse to vertexList and every face and line in range |
| ObjLoaders.ParseLineKeepsWellformed | src/main/java/render/objLoader/ObjLoader.java:294-346 | every successful line keeps one colour per position, the dedup map inverse to vertexList and all ids in range, adding at most three corners |
| ObjLoaders.ResolveBehaviour | src/main/java/render/objLoader/ObjLoader.java:154-164 | an index passes when it is -1 or names an entry; position is checked before texture and normal; the error carries the line the corner was first read on; absent parts get the defaults (origin and white, (0, 0), (1, 0, 0)) |
| ObjLoaders.TangentTable | src/main/java/render/objLoader/ObjLoader.java:125-143 | the tangent table has one entry per corner id |
| ObjLoaders.TangentTableCover | src/main/java/render/objLoader/ObjLoader.java:129-142 | the pre-pass puts (0, 0, 1) exactly at the corners some face uses, and only when no texture coordinate was read; every other entry stays null |
| ObjLoaders.TexturedTangentsAreNull | src/main/java/render/objLoader/ObjLoader.java:139-141 | with both tangent types in the format and a texture read, every tangent entry is null, so a vertex that passes its bounds checks throws NullPointerException |
| ObjLoaders.TexturedTangentLoadFails | src/main/java/render/objLoader/ObjLoader.java:125-178 | load never succeeds on a textured file with a corner when the format has tangents |
| ObjLoaders.NewTangents | src/main/java/render/objLoader/ObjLoader.java:125-143 | the arrays the pre-pass fills are the tangent table, bitangents equal to tangents |
| ObjLoaders.CallOrder | src/main/java/render/objLoader/ObjLoader.java:176-178 | the chain calls pos, tex, col, norm, tangent, bitangent, the attribute types of POS_TEX_COL4_NORM_TANG_BITANG in order |
| ObjLoaders.EmitVertexStep | src/main/java/render/objLoader/ObjLoader.java:150-179 | one vertex iteration keeps the builder invariant |
| ObjLoaders.ChainStep | src/main/java/render/objLoader/ObjLoader.java:176-178 | the call chain of one vertex keeps the builder invariant |
| ObjLoaders.ChainAddsOneVertex | src/main/java/render/util/VertexFormat.java:131-139 | on a format the OBJ layout leniently fills, every call of the chain is accepted and the explicit endVertex succeeds, closing exactly one vertex |
| ObjLoaders.EmitVertexBehaviour | src/main/java/render/objLoader/ObjLoader.java:150-179 | a vertex fails exactly on its bounds checks or a null tangent, with that exception, and otherwise adds one whole vertex with the cursor back at 0 |
| ObjLoaders.LoopBehaviour | src/main/java/render/objLoader/ObjLoader.java:150-190 | a loop whose every iteration keeps its promise succeeds exactly when every iteration is ok, and otherwise fails with the first failing iteration's error |
| ObjLoaders.VertexStepKeeps | src/main/java/render/objLoader/ObjLoader.java:150-179 | each vertex iteration keeps the loop's promise |
| ObjLoaders.EmitVerticesSucceeds | src/main/java/render/objLoader/ObjLoader.java:150-179 | the vertex loop succeeds exactly when every corner passes its bounds checks and its tangent read |
| ObjLoaders.EmitVerticesState | src/main/java/render/objLoader/ObjLoader.java:150-179 | a successful vertex loop emits one whole vertex per corner id |
| ObjLoaders.EmitVerticesFailure | src/main/java/render/objLoader/ObjLoader.java:150-179 | a failing vertex loop throws the exception of the first corner that does not pass, in vertexList order |
| ObjLoaders.JavaInt | src/main/java/render/objLoader/ObjLoader.java:383 | an id below 2^31 is itself as a Java int |
| ObjLoaders.IndexGroups | src/main/java/render/objLoader/ObjLoader.java:182-190 | one indices call per face in triangle mode, one per line in lines mode, none otherwise |
| ObjLoaders.IndexGroupsBelow | src/main/java/render/objLoader/ObjLoader.java:182-190 | every id passed to indices names an emitted vertex |
| ObjLoaders.IndexStepKeeps | src/main/java/render/objLoader/ObjLoader.java:182-190 | each indices call keeps the index loop's promise |
| ObjLoaders.EmitIndicesBehaviour | src/main/java/render/objLoader/ObjLoader.java:182-190 | the index loop fails only for an empty format, with the division by zero in indices, and otherwise appends every group in order |
| ObjLoaders.ObjFormatStride | src/main/java/render/util/VertexFormat.java:131-139 | a format the OBJ layout leniently fills has stride 0 only when it is empty |
| ObjLoaders.LoadChecksFormatFirst | src/main/java/render/objLoader/ObjLoader.java:114-122 | an incompatible format is refused with IllegalStateException before any line is read; otherwise a parse error is the whole load's exception |
| ObjLoaders.EmitAllBehaviour | src/main/java/render/objLoader/ObjLoader.java:146-190 | the builder part of load succeeds exactly when every corner passes and, if there is something to index, the format is not empty; then it holds one vertex per corner and the faces or lines as indices in file order |
| ObjLoaders.EmitAllEndsBetweenVertices | src/main/java/render/objLoader/ObjLoader.java:146-192 | a successful builder part leaves the builder between vertices, so createMesh does not throw for being part way through |
| ObjLoaders.LoadBehaviour | src/main/java/render/objLoader/ObjLoader.java:114-192 | after parsing, load behaves as EmitAllBehaviour says of the parsed lists and the pre-pass's tangent table |
| ObjLoaders.LoopStopsAtFailure | src/main/java/render/objLoader/ObjLoader.java:150-190 | a loop that has thrown stays thrown |
| ObjLoaders.Chain | src/main/java/render/objLoader/ObjLoader.java:176-178 | the builder chain of one vertex moves the builder as ChainStep says |
| ObjLoaders.EmitVertex | src/main/java/render/objLoader/ObjLoader.java:152-178 | one iteration of the vertex loop on the builder throws exactly what EmitVertexStep says and otherwise leaves the state it says |
| ObjLoaders.VertexLoop | src/main/java/render/objLoader/ObjLoader.java:150-179 | the vertex loop on the builder does what EmitVertices says |
| ObjLoaders.TriangleLoop | src/main/java/render/objLoader/ObjLoader.java:182-185 | one indices call per face in file order, as EmitIndices says |
| ObjLoaders.SegmentLoop | src/main/java/render/objLoader/ObjLoader.java:186-189 | one indices call per line in file order, as EmitIndices says |
| ObjLoaders.IndexLoop | src/main/java/render/objLoader/ObjLoader.java:182-190 | triangles or lines as the primitive type says, nothing for any other |
| ObjLoaders.StartBuilder | src/main/java/render/objLoader/ObjLoader.java:146-147 | a fresh builder on the format and primitive type, lenient and explicit, with nothing written |
| ObjLoaders.Emit | src/main/java/render/objLoader/ObjLoader.java:150-190 | the vertex loop, then, only if it returned, the index loop, as EmitAll says |
| ObjLoaders.CreateMeshOf | src/main/java/render/objLoader/ObjLoader.java:192 | createMesh on buffers that started empty yields what MadeMesh describes |
| ObjLoaders.ObjLoader.constructor | src/main/java/render/objLoader/ObjLoader.java:82-84 | a new loader reads the given lines, with every list and the map empty and no tangent arrays |
| ObjLoaders.ObjLoader.ParseVertexToIndex | src/main/java/render/objLoader/ObjLoader.java:376-387 | updates the map and vertexList exactly as IndexCorner says, returning the corner's id, or throws its parse error leaving them unchanged |
| ObjLoaders.ObjLoader.ParseLine | src/main/java/render/objLoader/ObjLoader.java:294-346 | returns exactly when ParseLineStep succeeds, with the lists it gives, and otherwise throws that step's exception; either way the lists are what LineLeaves says, so what the line added before it threw stays |
| ObjLoaders.ObjLoader.ParsePosition | src/main/java/render/objLoader/ObjLoader.java:301-311 | appends the parsed position, and its colour, or throws the `v` line's exception; the lists are what PositionLeaves says, so a position whose colour failed to parse stays without a colour |
| ObjLoaders.ObjLoader.ParseTexture | src/main/java/render/objLoader/ObjLoader.java:312-317 | appends the parsed coordinate, or throws the `vt` line's exception with the textures unchanged |
| ObjLoaders.ObjLoader.ParseNormal | src/main/java/render/objLoader/ObjLoader.java:318-323 | appends the parsed normal, or throws the `vn` line's exception with the normals unchanged |
| ObjLoaders.ObjLoader.ParseFace | src/main/java/render/objLoader/ObjLoader.java:324-332 | indexes the three corners left to right and appends the face, as ParseFaceLine says; on a throw the lists are what FaceLeaves says, keeping the corners indexed before it |
| ObjLoaders.ObjLoader.ParseSegment | src/main/java/render/objLoader/ObjLoader.java:333-340 | indexes the two corners and appends the line, as ParseSegmentLine says; on a throw the lists are what SegmentLeaves says, keeping a first corner already indexed |
| ObjLoaders.ObjLoader.ReadLine | src/main/java/render/objLoader/ObjLoader.java:120-122 | one pass of the line loop either advances ParseLines by one line or throws what the whole file throws; either way the lists are what LinesLeave says of the lines so far, and all of them were taken |
| ObjLoaders.ObjLoader.ReadLines | src/main/java/render/objLoader/ObjLoader.java:119-122 | the line loop returns exactly when the whole file parses, consuming every line and leaving the lists ParseLines gives, and otherwise throws its exception; either way the scanner has delivered LinesConsumed lines and the lists are what LinesLeave says |
| ObjLoaders.ObjLoader.PrepareTangents | src/main/java/render/objLoader/ObjLoader.java:125-143 | the tangent arrays become the table the pre-pass gives, new arrays only when both tangent types are in the format |
| ObjLoaders.ObjLoader.Read | src/main/java/render/objLoader/ObjLoader.java:119-143 | every line parsed, then the tangent pre-pass; throws the first parse error, keeping the tangent arrays, the lists LinesLeave gives and the scanner past LinesConsumed lines |
| ObjLoaders.ObjLoader.Build | src/main/java/render/objLoader/ObjLoader.java:146-190 | the builder ends in the state EmitAll gives for the loader's lists and tangent table |
| ObjLoaders.ObjLoader.Bake | src/main/java/render/objLoader/ObjLoader.java:146-192 | the builder part, then createMesh, giving what Loaded describes |
| ObjLoaders.ObjLoader.Load | src/main/java/render/objLoader/ObjLoader.java:114-192 | load returns or throws exactly what LoadState and createMesh say of the remaining lines, the lists already held and the tangent arrays; afterwards the loader is unchanged for a refused format, and otherwise holds the lists LinesLeave gives with the scanner past LinesConsumed lines, and new tangent arrays only when the file parsed |

## Left out

- All OpenGL calls are left out, because GL is a foreign API. This covers VAO/VBO creation, `glBufferData`, uniforms, `createShader`, linking, `bindAttribLocations`, a failing `glCreateProgram` and `filterLog`. `ShaderProgram`'s constructor is modelled only up to its shader-count check and the include expansion.
- Opening resources and files is left out, because it is I/O. Resources are a map from name to lines, and a `Scanner` over a file is the sequence of its lines. `Mesh.loadMesh`'s "Model not found" path (src/main/java/physics/Mesh.java:39-43) is not modelled. A `lines == null` is modelled as an empty or absent value.
- `Float.parseFloat`, `Integer.parseInt`, `Float.floatToIntBits` and the narrowing casts are parameters, because the model does not reproduce IEEE parsing. Floating-point rounding is therefore not modelled.
- After an exception inside `readShader`, the partial state of the builder, the string builder and the include set is not modelled. Only the exception is.
- Java `int` wrap-around of global line numbers, OBJ line numbers, `getActualLineNumber`, `verticesSize` and `indicesCount` is not modelled. These counters are unbounded integers, because no plausible input reaches 2^31.
- ExpandableBuffers.Doubled: doubles `capacity` over unbounded integers. The source's `capacity *= 2` (src/main/java/render/util/ExpandableBuffer.java:34) is a Java `int`. From 2^30 it wraps to −2^31 and then to 0, so the source's loop would then never end, or memAlloc would get a negative size. The model does not capture that overflow; it always terminates.
- ShaderPrograms.ShaderProgram.ReadShader: uses the corrected include bookkeeping described under Findings, so its line number map does not reproduce the as-written misreport. Its text, `lines` and exceptions are proved equal to the as-written ones (ShaderPrograms.ReadFlagOnlyChangesEntries). The as-written recursion is modelled by ShaderPrograms.Read with `fixed` unset.
- ShaderPrograms.ShaderProgram.ReadShaderFrom: is proved equal to ShaderPrograms.ReadFile with `fixed` set, not to the as-written recursion. The only difference is the map entry a skipped include records.
- ShaderPrograms.ShaderProgram.ReadLineOf: for a directive naming a file already included, it adds the entry (k + 2, g, shader), while src/main/java/render/shader/ShaderProgram.java:96-100 records nothing. Everything else agrees with the source.
- ShaderPrograms.ShaderProgram.ReadIncludeOf: is proved against ShaderPrograms.ReadInclude with `fixed` set. For a file not yet included, the two settings coincide.
- The float `clamp`, `lerp` and the other `MathUtil` members are left out. They are outside the modelled core, and the float versions are floating point.
- `ExpandableBuffer`'s `limit`, `flip`, `compact`, `array`, the `asXBuffer` views, `duplicate`, `slice`, `reset` and `put(ByteBuffer)` (src/main/java/render/util/ExpandableBuffer.java:262-265) are left out. The model keeps the limit equal to the capacity.
- ExpandableBuffers.ExpandableBuffer.constructor: requires a positive capacity. With capacity 0 the doubling never grows the buffer (ExpandableBuffers.ZeroCapacityNeverGrows), so the source would loop forever.
- The `warningMessage` printed to `System.err` is left out, because it is output only.
- `MeshBuilder`'s `ThreadLocal` buffer pool and `freeBuffers` (src/main/java/render/util/MeshBuilder.java:40-44, 90-99) are left out, because they are thread-local caching. The builder takes caller-supplied buffers instead.
- `VertexFormat.createMesh` with a negative buffer size is not modelled, because the model takes sizes as naturals.
- `LineNumberMap.dump` is left out, because it is debug output.
- `VertexFormat.isCurrentlyCompatible` and `VertexFormat.isCurrentlyLenientlyCompatible` are left out, because they query the currently bound shader program.
- `ObjLoader.genTangAndBitang` is left out, because nothing calls it.
- MeshBuilders.MeshBuilder.CreateMesh: does not state that the builder is still valid afterwards. The rewound pool buffers are not part of the model.
- The `ExpandableBuffer(ByteBuffer)` constructor (src/main/java/render/util/ExpandableBuffer.java:16-18) is left out, along with the `asReadOnlyBuffer` and `duplicate` views that use it, because the model's buffer always owns its storage.
- The one-argument `MeshBuilder(VertexFormat)` constructor is not modelled separately: it is the modelled constructor with the draw type GL_TRIANGLES that `primitiveDrawType` defaults to (src/main/java/render/util/MeshBuilder.java:50, 409-426).
- `ObjLoader.Vertex.hashCode`'s arithmetic is left out. Only the equality it is consistent with matters for de-duplication.

## Findings

| source | as written | input that shows it | evidently intended | confidence | as-written member | corrected member |
|---|---|---|---|---|---|---|
| src/main/java/render/shader/ShaderProgram.java:96-100 | an `#include` of a file already included records no map entry, yet the includer's local line still advances | a = `#include b`, `#include b`, `x`; b = `y`: global line 2 is `x`, local line 3 of a, but the map reports a:2 | record the includer's next line after every include, skipped or not | not executed | ShaderPrograms.SkippedIncludeMisreports | ShaderPrograms.SkippedIncludeFixed |
| src/main/java/render/shader/LineNumberMap.java:16-17 | an exact hit is accepted only at `index > 0`, so a hit at index 0 falls through and reads `entries[-2]` | every expanded shader: its global line 1 is the first entry's own line, and looking it up throws `ArrayIndexOutOfBoundsException` | accept an exact hit at `index >= 0` | not executed | ShaderPrograms.FirstLineLookupFails | LineNumberMaps.CorrectedGetEntryIsFloor |
