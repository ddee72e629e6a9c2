/**
 * The `#include` expansion of `render/shader/ShaderProgram.java`: reading a
 * shader resource, splicing in every file it includes (each at most once),
 * collecting the emitted lines, and recording in a `LineNumberMap.Builder`
 * where each run of emitted lines came from. The resources are a map from
 * name to lines, looked up first among the program's shaders and then among
 * the standard ones; GL compilation and linking are not modelled.
 */
module ShaderPrograms {
  import opened Base
  import opened JavaString
  import opened LineNumberMaps
  import opened VertexFormats

  /** `/shaders/<name>` and `/shaders/std/<name>`, as the lines a `Scanner` splitting on `\r?\n` yields. */
  datatype Resources = Resources(shaders: map<string, seq<string>>, standard: map<string, seq<string>>)

  /** Every name some lookup finds. */
  function Known(res: Resources): set<string> {
    res.shaders.Keys + res.standard.Keys
  }

  /** `getResourceAsStream("/shaders/" + name)`, falling back to `"/shaders/std/" + name`. */
  function Lookup(res: Resources, name: string): (r: Option<seq<string>>)
    ensures r.Some? <==> name in Known(res)
    ensures name in res.shaders ==> r == Some(res.shaders[name])
    ensures name !in res.shaders && name in res.standard ==> r == Some(res.standard[name])
  {
    if name in res.shaders then Some(res.shaders[name])
    else if name in res.standard then Some(res.standard[name])
    else None
  }

  const INCLUDE: string := "#include "

  /** A directive line: its trimmed text starts with `#include `. */
  predicate IsInclude(line: string) {
    StartsWith(Trim(line), INCLUDE)
  }

  /**
   * The name a directive includes: the line up to its first `//`, trimmed,
   * without the directive's nine characters, trimmed again. When trimming
   * leaves fewer than nine characters (`#include //x`) `substring` throws.
   */
  function IncludedName(line: string): Result<string> {
    var cut := match IndexOf(line, "//") case Some(i) => line[..i] case None => line;
    var t := Trim(cut);
    if |t| < |INCLUDE| then Failure(IndexOutOfBounds(|INCLUDE|))
    else Success(Trim(t[|INCLUDE|..]))
  }

  /** A name the directive can carry unchanged: not empty, no surrounding blanks, no `//`. */
  ghost predicate PlainName(name: string) {
    name != [] && !IsTrimmed(name[0]) && !IsTrimmed(name[|name| - 1])
    && forall i: nat :: !OccursAt(name, "//", i)
  }

  /** A string with no blank at either end is its own trim. */
  lemma TrimKeepsUnpadded(s: string)
    requires s != [] && !IsTrimmed(s[0]) && !IsTrimmed(s[|s| - 1])
    ensures Trim(s) == s
  {
    assert TrimStart(s) == 0;
    assert s[0..] == s;
    assert TrimEnd(s) == |s|;
  }

  /** The directive itself holds no `/`. */
  lemma NoSlashInInclude(i: nat)
    requires i < |INCLUDE|
    ensures INCLUDE[i] != '/'
  {
    assert INCLUDE[i] in INCLUDE;
  }

  /** The directive's own characters hold no `//`, so a name without one gives a line without one. */
  lemma IncludeLineHasNoComment(name: string)
    requires name != [] && forall i: nat :: !OccursAt(name, "//", i)
    ensures forall i: nat :: !OccursAt(INCLUDE + name, "//", i)
  {
    var line := INCLUDE + name;
    forall i: nat | i + 2 <= |line|
      ensures !OccursAt(line, "//", i)
    {
      if i < |INCLUDE| {
        assert line[i] == INCLUDE[i];
        NoSlashInInclude(i);
        assert line[i..i + 2][0] == line[i];
      } else {
        assert line[i..i + 2] == name[i - |INCLUDE|..i - |INCLUDE| + 2];
        assert !OccursAt(name, "//", i - |INCLUDE|);
      }
    }
  }

  /** Writing `#include name` and reading it back gives the name: the directive round trip. */
  lemma IncludeRoundTrip(name: string)
    requires PlainName(name)
    ensures IsInclude(INCLUDE + name)
    ensures IncludedName(INCLUDE + name) == Success(name)
  {
    var line := INCLUDE + name;
    TrimKeepsUnpadded(line);
    assert line[..|INCLUDE|] == INCLUDE;
    IncludeLineHasNoComment(name);
    assert IndexOf(line, "//").None?;
    assert line[|INCLUDE|..] == name;
    TrimKeepsUnpadded(name);
  }

  /** A directive whose name is only a comment is a directive, and reading its name throws. */
  lemma CommentOnlyIncludeThrows(comment: string)
    ensures IsInclude(INCLUDE + "//" + comment)
    ensures IncludedName(INCLUDE + "//" + comment) == Failure(IndexOutOfBounds(|INCLUDE|))
  {
    var line := INCLUDE + "//" + comment;
    assert line[..|INCLUDE|] == INCLUDE;
    assert TrimStart(line) == 0;
    assert line[0..] == line;
    assert !IsTrimmed(line[10]);
    TrimEndSpec(line);
    assert TrimEnd(line) > 10;
    assert Trim(line)[..|INCLUDE|] == INCLUDE;
    assert OccursAt(line, "//", |INCLUDE|);
    forall i: nat | i < |INCLUDE|
      ensures !OccursAt(line, "//", i)
    {
      assert line[i] == INCLUDE[i];
      NoSlashInInclude(i);
      assert line[i..i + 2][0] == line[i];
    }
    assert IndexOf(line, "//") == Some(|INCLUDE|);
    assert TrimEnd(INCLUDE) == 8 by {
      assert INCLUDE[..8] == "#include";
    }
    assert Trim(INCLUDE) == "#include" by {
      assert TrimStart(INCLUDE) == 0;
      assert INCLUDE[0..] == INCLUDE;
    }
  }

  /** Where an emitted line came from: local line `line` of file `file`. */
  datatype Origin = Origin(file: string, line: int)

  /**
   * The state `readShader` threads through the recursion: the `StringBuilder`,
   * the `lines` list, the `alreadyIncluded` set and the builder's entries,
   * plus the origin of every emitted line (bookkeeping of the model only).
   */
  datatype Reading = Reading(text: string, lines: seq<string>, origins: seq<Origin>,
                             included: set<string>, entries: seq<Entry>)

  /** The recursion's result: the state after a file, and the next global line. */
  datatype Progress = Progress(st: Reading, global: int)

  /** `st'` extends `st` by the lines a read emitted, each with its origin, with `g'` counting them on from `g`. */
  predicate Grows(st: Reading, g: int, st': Reading, g': int) {
    st.included <= st'.included
    && st.lines <= st'.lines && st.origins <= st'.origins
    && |st'.origins| - |st.origins| == |st'.lines| - |st.lines|
    && g' == g + (|st'.lines| - |st.lines|)
  }

  /** One more than the number of lines of `name`, or 0 when there is no such resource: ranks a read before its lines. */
  function Span(res: Resources, name: string): nat {
    match Lookup(res, name) case Some(src) => |src| + 1 case None => 0
  }

  /**
   * `readShader(shader, str, globalLine, alreadyIncluded, lnmb)`: marks the
   * file included, looks it up, and reads its lines. With `fixed` set, an
   * include of a file already read still records where the includer goes
   * on; without it, as written, it records nothing.
   */
  function ReadFile(res: Resources, fixed: bool, shader: string, st: Reading, g: int): (r: Result<Progress>)
    ensures Lookup(res, shader).None? ==> r == Failure(IllegalArgument(ShaderNotFound(shader)))
    ensures r.Success? ==> Grows(st, g, r.value.st, r.value.global) && shader in r.value.st.included
    decreases Known(res) - (st.included + {shader}), Span(res, shader), 0
  {
    var st1 := st.(included := st.included + {shader});
    match Lookup(res, shader)
    case None => Failure(IllegalArgument(ShaderNotFound(shader)))
    case Some(src) => ReadLines(res, fixed, shader, src, 0, st1, g)
  }

  /** The `while (scan.hasNext())` loop of `readShader` from line `k` (local line `k + 1`) of `src` on. */
  function ReadLines(res: Resources, fixed: bool, shader: string, src: seq<string>, k: nat,
                     st: Reading, g: int): (r: Result<Progress>)
    requires k <= |src|
    ensures r.Success? ==> Grows(st, g, r.value.st, r.value.global)
    decreases Known(res) - st.included, |src| - k, 1
  {
    if k == |src| then Success(Progress(st, g))
    else
      var line := src[k];
      if IsInclude(line) then
        var name :- IncludedName(line);
        ReadInclude(res, fixed, shader, src, k, name, st, g)
      else
        var st1 := st.(text := st.text + line + "\n", lines := st.lines + [line],
                       origins := st.origins + [Origin(shader, k + 1)]);
        ReadLines(res, fixed, shader, src, k + 1, st1, g + 1)
  }

  /**
   * Line `k` of `src` includes `name`: a file not yet included is read
   * between an entry (1, g, name) and an entry for the includer's next
   * line; one already included is skipped.
   */
  function ReadInclude(res: Resources, fixed: bool, shader: string, src: seq<string>, k: nat, name: string,
                       st: Reading, g: int): (r: Result<Progress>)
    requires k < |src|
    ensures r.Success? ==> Grows(st, g, r.value.st, r.value.global)
    decreases Known(res) - st.included, |src| - k, 0
  {
    if name !in st.included then
      var p :- ReadFile(res, fixed, name, st.(entries := Put(st.entries, Entry(1, g, name))), g);
      ReadLines(res, fixed, shader, src, k + 1, p.st.(entries := Put(p.st.entries, Entry(k + 2, p.global, shader))), p.global)
    else if fixed then
      ReadLines(res, fixed, shader, src, k + 1, st.(entries := Put(st.entries, Entry(k + 2, g, shader))), g)
    else
      ReadLines(res, fixed, shader, src, k + 1, st, g)
  }

  /** Where `readShader(shader)` starts: an empty text, no lines, nothing included, the entry (1, 1, shader). */
  function Start(shader: string): Reading {
    Reading("", [], [], {}, [Entry(1, 1, shader)])
  }

  /** `readShader(shader)`: the whole expansion from global line 1. */
  function Read(res: Resources, fixed: bool, shader: string): Result<Progress> {
    ReadFile(res, fixed, shader, Start(shader), 1)
  }

  // ----- What the map built from the entries says -----

  /** The concatenation of `lines`, each followed by a newline. */
  function Text(lines: seq<string>): string {
    if lines == [] then "" else lines[0] + "\n" + Text(lines[1..])
  }

  lemma {:induction false} TextSnoc(lines: seq<string>, line: string)
    ensures Text(lines + [line]) == Text(lines) + line + "\n"
  {
    if lines == [] {
      assert [] + [line] == [line];
    } else {
      assert (lines + [line])[1..] == lines[1..] + [line];
      TextSnoc(lines[1..], line);
    }
  }

  /** A lookup of global line `h` reports `o`. */
  predicate Describes(r: Result<Entry>, h: int, o: Origin) {
    r.Success? && r.value.fileName == o.file && h - r.value.globalLine + r.value.localLine == o.line
  }

  /** `o` names a line of a known file, and that line is `line`. */
  predicate Truthful(res: Resources, o: Origin, line: string) {
    var src := Lookup(res, o.file);
    src.Some? && 1 <= o.line <= |src.value| && src.value[o.line - 1] == line
  }

  /**
   * What holds between emitted lines: the entries ascend from global line 1
   * and lie at or below `g`; line h of the text is `lines[h - 1]` and
   * `g` is the next one; the corrected lookup reports every line at its origin;
   * every origin is true.
   */
  predicate Inv(res: Resources, st: Reading, g: int) {
    Ascending(st.entries) && st.entries != [] && st.entries[0].globalLine == 1
    && AllBelow(st.entries, g + 1)
    && g == |st.lines| + 1 && |st.origins| == |st.lines|
    && st.text == Text(st.lines)
    && (forall h :: 1 <= h < g ==> Describes(GetEntryCorrected(LineNumberMap(st.entries), h), h, st.origins[h - 1]))
    && (forall i :: 0 <= i < |st.lines| ==> Truthful(res, st.origins[i], st.lines[i]))
  }

  /** The last entry says that global line `g` is local line `local` of `shader`. */
  predicate Next(es: seq<Entry>, g: int, shader: string, local: int) {
    es != [] && es[|es| - 1].fileName == shader && g - es[|es| - 1].globalLine + es[|es| - 1].localLine == local
  }

  /** Entries past `h` do not change a lookup of `h`, whichever entry sits last. */
  lemma LookupIgnoresLast(pre: seq<Entry>, last: seq<Entry>, e: Entry, h: int)
    requires pre != [] && |last| <= 1 && (forall i :: 0 <= i < |last| ==> last[i].globalLine > h) && e.globalLine > h
    ensures GetEntry(LineNumberMap(pre + [e]), h) == GetEntry(LineNumberMap(pre + last), h)
  {
    LookupIgnoresLater(pre, [e], h);
    LookupIgnoresLater(pre, last, h);
  }

  /** An entry at global line `e.globalLine` leaves the lookups of earlier lines alone. */
  lemma PutKeepsEarlier(es: seq<Entry>, e: Entry, h: int)
    requires Ascending(es) && es != [] && AllBelow(es, e.globalLine + 1) && es[0].globalLine <= h < e.globalLine
    ensures GetEntry(LineNumberMap(Put(es, e)), h) == GetEntry(LineNumberMap(es), h)
  {
    PutLast(es, e);
    var n := |es|;
    if es[n - 1].globalLine == e.globalLine {
      assert n >= 2;
      assert es == es[..n - 1] + [es[n - 1]];
      LookupIgnoresLast(es[..n - 1], [es[n - 1]], e, h);
    } else {
      assert es == es + [];
      LookupIgnoresLast(es, [], e, h);
    }
  }

  /** The entry list after `addEntry` at the next global line `g`: still ascending, starting at 1, below `g + 1`, `e` last. */
  lemma PutAtNext(es: seq<Entry>, e: Entry, g: int)
    requires Ascending(es) && es != [] && es[0].globalLine == 1 && AllBelow(es, g + 1) && e.globalLine == g
    ensures var es' := Put(es, e);
            Ascending(es') && es' != [] && es'[0].globalLine == 1 && AllBelow(es', g + 1) && es'[|es'| - 1] == e
  {
    PutLast(es, e);
    PutReplaces(es, e);
    var es' := Put(es, e);
    var n := |es|;
    if es[n - 1].globalLine == g {
      assert es' == es[..n - 1] + [e];
      if n == 1 {
        assert g == 1;
      } else {
        assert es'[0] == es[0];
      }
      forall i | 0 <= i < |es'|
        ensures es'[i].globalLine < g + 1
      {
        if i < n - 1 {
          assert es'[i] == es[i];
        }
      }
    } else {
      assert es' == es + [e];
      assert es'[0] == es[0];
      forall i | 0 <= i < |es'|
        ensures es'[i].globalLine < g + 1
      {
        if i < n {
          assert es'[i] == es[i];
        }
      }
    }
  }

  /** `addEntry` at the next global line keeps the invariant and becomes the last entry. */
  lemma PutKeepsInv(res: Resources, st: Reading, g: int, e: Entry)
    requires Inv(res, st, g) && e.globalLine == g
    ensures Inv(res, st.(entries := Put(st.entries, e)), g)
    ensures var es := Put(st.entries, e); es != [] && es[|es| - 1] == e
  {
    var es := st.entries;
    PutAtNext(es, e, g);
    var es' := Put(es, e);
    var st' := st.(entries := es');
    forall h | 1 <= h < g
      ensures Describes(GetEntryCorrected(LineNumberMap(es'), h), h, st.origins[h - 1])
    {
      if h == 1 {
        PutReplaces(es, e);
        assert es[0] in es';
        var j :| 0 <= j < |es'| && es'[j] == es[0];
        assert j == 0;
        CorrectedFirstEntryHit(LineNumberMap(es));
        CorrectedFirstEntryHit(LineNumberMap(es'));
      } else {
        CorrectionOnlyAtFirstEntry(LineNumberMap(es), h);
        CorrectionOnlyAtFirstEntry(LineNumberMap(es'), h);
        PutKeepsEarlier(es, e, h);
      }
    }
    assert Inv(res, st', g);
  }

  /** Emitting line `k` of `shader` at global line `g` keeps the invariant. */
  lemma EmitKeepsInv(res: Resources, shader: string, src: seq<string>, k: nat, st: Reading, g: int)
    requires Lookup(res, shader) == Some(src) && k < |src|
    requires Inv(res, st, g) && Next(st.entries, g, shader, k + 1)
    ensures var st1 := st.(text := st.text + src[k] + "\n", lines := st.lines + [src[k]],
                           origins := st.origins + [Origin(shader, k + 1)]);
            Inv(res, st1, g + 1) && Next(st1.entries, g + 1, shader, k + 2)
  {
    var st1 := st.(text := st.text + src[k] + "\n", lines := st.lines + [src[k]],
                   origins := st.origins + [Origin(shader, k + 1)]);
    TextSnoc(st.lines, src[k]);
    if g >= 2 {
      LookupFindsLast(st.entries, g);
      CorrectionOnlyAtFirstEntry(LineNumberMap(st.entries), g);
    } else {
      assert |st.entries| == 1;
      CorrectedFirstEntryHit(LineNumberMap(st.entries));
    }
    assert st.origins <= st1.origins && st.lines <= st1.lines;
  }

  /** With `fixed` set, the rest of a file keeps the invariant. */
  lemma {:induction false} ReadLinesTracks(res: Resources, shader: string, src: seq<string>, k: nat, st: Reading, g: int)
    requires Lookup(res, shader) == Some(src) && k <= |src|
    requires Inv(res, st, g) && Next(st.entries, g, shader, k + 1)
    ensures var r := ReadLines(res, true, shader, src, k, st, g); r.Success? ==> Inv(res, r.value.st, r.value.global)
    decreases Known(res) - st.included, |src| - k, 1
  {
    if k < |src| {
      var line := src[k];
      if IsInclude(line) {
        var n := IncludedName(line);
        if n.Success? {
          ReadIncludeTracks(res, shader, src, k, n.value, st, g);
        }
      } else {
        EmitKeepsInv(res, shader, src, k, st, g);
        var st1 := st.(text := st.text + line + "\n", lines := st.lines + [line],
                       origins := st.origins + [Origin(shader, k + 1)]);
        ReadLinesTracks(res, shader, src, k + 1, st1, g + 1);
      }
    }
  }

  /** With `fixed` set, an include keeps the invariant, whether it reads the file or skips it. */
  lemma {:induction false} ReadIncludeTracks(res: Resources, shader: string, src: seq<string>, k: nat, name: string,
                                             st: Reading, g: int)
    requires Lookup(res, shader) == Some(src) && k < |src|
    requires Inv(res, st, g) && Next(st.entries, g, shader, k + 1)
    ensures var r := ReadInclude(res, true, shader, src, k, name, st, g); r.Success? ==> Inv(res, r.value.st, r.value.global)
    decreases Known(res) - st.included, |src| - k, 0
  {
    if name !in st.included {
      var st1 := st.(entries := Put(st.entries, Entry(1, g, name)));
      PutKeepsInv(res, st, g, Entry(1, g, name));
      ReadFileTracks(res, name, st1, g);
      var p := ReadFile(res, true, name, st1, g);
      if p.Success? {
        var q := p.value;
        var e := Entry(k + 2, q.global, shader);
        PutKeepsInv(res, q.st, q.global, e);
        ReadLinesTracks(res, shader, src, k + 1, q.st.(entries := Put(q.st.entries, e)), q.global);
      }
    } else {
      var e := Entry(k + 2, g, shader);
      PutKeepsInv(res, st, g, e);
      ReadLinesTracks(res, shader, src, k + 1, st.(entries := Put(st.entries, e)), g);
    }
  }

  /** With `fixed` set, a whole file read from its first line keeps the invariant. */
  lemma {:induction false} ReadFileTracks(res: Resources, shader: string, st: Reading, g: int)
    requires Inv(res, st, g) && Next(st.entries, g, shader, 1)
    ensures var r := ReadFile(res, true, shader, st, g); r.Success? ==> Inv(res, r.value.st, r.value.global)
    decreases Known(res) - (st.included + {shader}), Span(res, shader), 0
  {
    var src := Lookup(res, shader);
    if src.Some? {
      ReadLinesTracks(res, shader, src.value, 0, st.(included := st.included + {shader}), g);
    }
  }

  /**
   * With `fixed` set, the expansion's text is its lines, each followed by a
   * newline; global line h is line h - 1 of the list and comes from a true
   * origin; the map reports every line but the first at that origin.
   */
  lemma ReadLocatesLines(res: Resources, shader: string)
    ensures var r := Read(res, true, shader);
            r.Success? ==>
              var p := r.value;
              p.st.text == Text(p.st.lines) && p.global == |p.st.lines| + 1
              && |p.st.origins| == |p.st.lines|
              && (forall i :: 0 <= i < |p.st.lines| ==> Truthful(res, p.st.origins[i], p.st.lines[i]))
              && (forall h :: 2 <= h <= |p.st.lines| ==>
                    GetActualFileName(LineNumberMap(p.st.entries), h) == Success(p.st.origins[h - 1].file)
                    && GetActualLineNumber(LineNumberMap(p.st.entries), h) == Success(p.st.origins[h - 1].line))
  {
    StartTracks(res, shader);
    var r := Read(res, true, shader);
    if r.Success? {
      var p := r.value;
      forall h | 2 <= h <= |p.st.lines|
        ensures GetActualFileName(LineNumberMap(p.st.entries), h) == Success(p.st.origins[h - 1].file)
        ensures GetActualLineNumber(LineNumberMap(p.st.entries), h) == Success(p.st.origins[h - 1].line)
      {
        CorrectionOnlyAtFirstEntry(LineNumberMap(p.st.entries), h);
        assert Describes(GetEntry(LineNumberMap(p.st.entries), h), h, p.st.origins[h - 1]);
      }
    }
  }

  /** With the corrected lookup, every line of the expansion, the first included, is reported at its origin. */
  lemma ReadLocatesLinesCorrected(res: Resources, shader: string)
    ensures var r := Read(res, true, shader);
            r.Success? ==>
              var p := r.value;
              forall h :: 1 <= h <= |p.st.lines| ==>
                GetActualFileNameCorrected(LineNumberMap(p.st.entries), h) == Success(p.st.origins[h - 1].file)
                && GetActualLineNumberCorrected(LineNumberMap(p.st.entries), h) == Success(p.st.origins[h - 1].line)
  {
    StartTracks(res, shader);
    var r := Read(res, true, shader);
    if r.Success? {
      var p := r.value;
      forall h | 1 <= h <= |p.st.lines|
        ensures GetActualFileNameCorrected(LineNumberMap(p.st.entries), h) == Success(p.st.origins[h - 1].file)
        ensures GetActualLineNumberCorrected(LineNumberMap(p.st.entries), h) == Success(p.st.origins[h - 1].line)
      {
        assert Describes(GetEntryCorrected(LineNumberMap(p.st.entries), h), h, p.st.origins[h - 1]);
      }
    }
  }

  /** The expansion starts in the invariant, so a successful one ends in it. */
  lemma StartTracks(res: Resources, shader: string)
    ensures var r := Read(res, true, shader); r.Success? ==> Inv(res, r.value.st, r.value.global)
  {
    assert Inv(res, Start(shader), 1);
    ReadFileTracks(res, shader, Start(shader), 1);
  }

  /** The first global line is the first entry's own line, so its lookup throws. */
  lemma FirstLineLookupFails(res: Resources, shader: string)
    ensures var r := Read(res, true, shader);
            r.Success? ==> GetEntry(LineNumberMap(r.value.st.entries), 1) == Failure(IndexOutOfBounds(-2))
  {
    StartTracks(res, shader);
    var r := Read(res, true, shader);
    if r.Success? {
      FirstEntryHitFails(LineNumberMap(r.value.st.entries));
    }
  }

  // ----- An include of a file already read, as written -----

  /** A file that is found is read from its first line, marked included. */
  lemma FileStep(res: Resources, fixed: bool, shader: string, src: seq<string>, st: Reading, g: int)
    requires Lookup(res, shader) == Some(src)
    ensures ReadFile(res, fixed, shader, st, g) == ReadLines(res, fixed, shader, src, 0, st.(included := st.included + {shader}), g)
  {
  }

  /** A line that is not a directive is emitted, and the loop goes on at the next line. */
  lemma PlainStep(res: Resources, fixed: bool, shader: string, src: seq<string>, k: nat, st: Reading, g: int)
    requires k < |src| && !IsInclude(src[k])
    ensures ReadLines(res, fixed, shader, src, k, st, g)
            == ReadLines(res, fixed, shader, src, k + 1,
                         st.(text := st.text + src[k] + "\n", lines := st.lines + [src[k]],
                             origins := st.origins + [Origin(shader, k + 1)]), g + 1)
  {
  }

  /** A directive naming `name` hands over to the include step. */
  lemma IncludeStep(res: Resources, fixed: bool, shader: string, src: seq<string>, k: nat, name: string,
                    st: Reading, g: int)
    requires k < |src| && IsInclude(src[k]) && IncludedName(src[k]) == Success(name)
    ensures ReadLines(res, fixed, shader, src, k, st, g) == ReadInclude(res, fixed, shader, src, k, name, st, g)
  {
  }

  /** An include of a new file that reads successfully goes on after it, with the includer's entry recorded. */
  lemma NewIncludeStep(res: Resources, fixed: bool, shader: string, src: seq<string>, k: nat, name: string,
                       st: Reading, g: int, p: Progress)
    requires k < |src| && name !in st.included
    requires ReadFile(res, fixed, name, st.(entries := Put(st.entries, Entry(1, g, name))), g) == Success(p)
    ensures ReadInclude(res, fixed, shader, src, k, name, st, g)
            == ReadLines(res, fixed, shader, src, k + 1, p.st.(entries := Put(p.st.entries, Entry(k + 2, p.global, shader))), p.global)
  {
  }

  /** A file of one plain line emits it and ends. */
  lemma SingleLineRead(res: Resources, fixed: bool, b: string, y: string, st: Reading, g: int)
    requires Lookup(res, b) == Some([y]) && !IsInclude(y)
    ensures ReadFile(res, fixed, b, st, g)
            == Success(Progress(st.(included := st.included + {b}, text := st.text + y + "\n", lines := st.lines + [y],
                                    origins := st.origins + [Origin(b, 1)]), g + 1))
  {
    FileStep(res, fixed, b, [y], st, g);
    PlainStep(res, fixed, b, [y], 0, st.(included := st.included + {b}), g);
  }

  /** `d` is a directive that includes `name`. */
  predicate Includes(d: string, name: string) {
    IsInclude(d) && IncludedName(d) == Success(name)
  }

  /**
   * File `a` is the directive `d` including `b`, `d` again, and the line
   * `x`; `b` is the line `y`. Returns the state the expansion reaches once
   * `b` has been read: the lines so far, and the entries (1, 1, b) and (2, 2, a).
   */
  lemma ReadTwiceFirstInclude(res: Resources, fixed: bool, a: string, b: string, d: string, x: string, y: string)
    returns (st4: Reading)
    requires a != b && Includes(d, b) && !IsInclude(y)
    requires Lookup(res, a) == Some([d, d, x]) && Lookup(res, b) == Some([y])
    ensures st4 == Reading(y + "\n", [y], [Origin(b, 1)], {a, b}, [Entry(1, 1, b), Entry(2, 2, a)])
    ensures Read(res, fixed, a) == ReadLines(res, fixed, a, [d, d, x], 1, st4, 2)
  {
    var A := [d, d, x];
    var st1 := Reading("", [], [], {a}, [Entry(1, 1, a)]);
    FirstLineIncludes(res, fixed, a, b, A, st1);
    st4 := Reading(y + "\n", [y], [Origin(b, 1)], {a, b}, [Entry(1, 1, b), Entry(2, 2, a)]);
    ReadOneLineInclude(res, fixed, a, b, A, y, st1);
  }

  /** A file whose first line includes `b` hands over to the include at line 0. */
  lemma FirstLineIncludes(res: Resources, fixed: bool, a: string, b: string, A: seq<string>, st1: Reading)
    requires A != [] && Includes(A[0], b) && Lookup(res, a) == Some(A)
    requires st1 == Reading("", [], [], {a}, [Entry(1, 1, a)])
    ensures Read(res, fixed, a) == ReadInclude(res, fixed, a, A, 0, b, st1, 1)
  {
    FileStep(res, fixed, a, A, Start(a), 1);
    assert Start(a).(included := {} + {a}) == st1;
    IncludeStep(res, fixed, a, A, 0, b, st1, 1);
  }

  /** Including, at line 0 of `a`, a file `b` that is the single line `y` emits `y` and records (1, 1, b) and (2, 2, a). */
  lemma ReadOneLineInclude(res: Resources, fixed: bool, a: string, b: string, A: seq<string>, y: string, st1: Reading)
    requires |A| > 1 && a != b && Lookup(res, b) == Some([y]) && !IsInclude(y)
    requires st1 == Reading("", [], [], {a}, [Entry(1, 1, a)])
    ensures ReadInclude(res, fixed, a, A, 0, b, st1, 1)
            == ReadLines(res, fixed, a, A, 1, Reading(y + "\n", [y], [Origin(b, 1)], {a, b}, [Entry(1, 1, b), Entry(2, 2, a)]), 2)
  {
    var e1 := Entry(1, 1, b);
    var st3 := Reading(y + "\n", [y], [Origin(b, 1)], {a, b}, [e1]);
    ReadOnlyLine(res, fixed, a, b, y, st1);
    NewIncludeStep(res, fixed, a, A, 0, b, st1, 1, Progress(st3, 2));
    var e2 := Entry(2, 2, a);
    PutLast(st3.entries, e2);
    assert Put(st3.entries, e2) == [e1, e2];
  }

  /** Reading `b`, the single line `y`, right after its entry (1, 1, b) replaced `a`'s first one. */
  lemma ReadOnlyLine(res: Resources, fixed: bool, a: string, b: string, y: string, st1: Reading)
    requires Lookup(res, b) == Some([y]) && !IsInclude(y)
    requires st1 == Reading("", [], [], {a}, [Entry(1, 1, a)])
    ensures ReadFile(res, fixed, b, st1.(entries := Put(st1.entries, Entry(1, 1, b))), 1)
            == Success(Progress(Reading(y + "\n", [y], [Origin(b, 1)], {a, b}, [Entry(1, 1, b)]), 2))
  {
    var e1 := Entry(1, 1, b);
    PutLast(st1.entries, e1);
    assert Put(st1.entries, e1) == [e1];
    var st2 := Reading("", [], [], {a}, [e1]);
    SingleLineRead(res, fixed, b, y, st2, 1);
    assert st2.(included := st2.included + {b}, text := st2.text + y + "\n", lines := st2.lines + [y],
                origins := st2.origins + [Origin(b, 1)]) == Reading(y + "\n", [y], [Origin(b, 1)], {a, b}, [e1]);
  }

  /**
   * As written, the skipped second include records no entry, so global line
   * 2 (`x`, line 3 of `a`) is reported as line 2 of `a`.
   */
  lemma SkippedIncludeMisreports(res: Resources, a: string, b: string, d: string, x: string, y: string)
    requires a != b && Includes(d, b) && !IsInclude(x) && !IsInclude(y)
    requires Lookup(res, a) == Some([d, d, x]) && Lookup(res, b) == Some([y])
    ensures Read(res, false, a).Success?
    ensures var p := Read(res, false, a).value;
            p.st.lines == [y, x] && p.st.origins == [Origin(b, 1), Origin(a, 3)]
            && GetActualFileName(LineNumberMap(p.st.entries), 2) == Success(a)
            && GetActualLineNumber(LineNumberMap(p.st.entries), 2) == Success(2)
  {
    var A := [d, d, x];
    var st4 := ReadTwiceFirstInclude(res, false, a, b, d, x, y);
    IncludeStep(res, false, a, A, 1, b, st4, 2);
    assert ReadInclude(res, false, a, A, 1, b, st4, 2) == ReadLines(res, false, a, A, 2, st4, 2);
    PlainStep(res, false, a, A, 2, st4, 2);
    var st5 := st4.(text := st4.text + x + "\n", lines := [y, x], origins := [Origin(b, 1), Origin(a, 3)]);
    assert ReadLines(res, false, a, A, 3, st5, 3) == Success(Progress(st5, 3));
    assert Rank(st5.entries, 2) == 1;
  }

  /** With the includer's entry recorded after the skipped include too, the same line is reported as line 3 of `a`. */
  lemma SkippedIncludeFixed(res: Resources, a: string, b: string, d: string, x: string, y: string)
    requires a != b && Includes(d, b) && !IsInclude(x) && !IsInclude(y)
    requires Lookup(res, a) == Some([d, d, x]) && Lookup(res, b) == Some([y])
    ensures Read(res, true, a).Success?
    ensures var p := Read(res, true, a).value;
            p.st.lines == [y, x] && p.st.origins == [Origin(b, 1), Origin(a, 3)]
            && GetActualFileName(LineNumberMap(p.st.entries), 2) == Success(a)
            && GetActualLineNumber(LineNumberMap(p.st.entries), 2) == Success(3)
  {
    var st5 := FixedTwiceRead(res, a, b, d, x, y);
    SecondEntryLookup(b, a);
  }

  /** The whole expansion of that instance with the fix: the second include records (3, 2, a). */
  lemma FixedTwiceRead(res: Resources, a: string, b: string, d: string, x: string, y: string) returns (st5: Reading)
    requires a != b && Includes(d, b) && !IsInclude(x) && !IsInclude(y)
    requires Lookup(res, a) == Some([d, d, x]) && Lookup(res, b) == Some([y])
    ensures st5.lines == [y, x] && st5.origins == [Origin(b, 1), Origin(a, 3)]
    ensures st5.entries == [Entry(1, 1, b), Entry(3, 2, a)]
    ensures Read(res, true, a) == Success(Progress(st5, 3))
  {
    var A := [d, d, x];
    var st4 := ReadTwiceFirstInclude(res, true, a, b, d, x, y);
    IncludeStep(res, true, a, A, 1, b, st4, 2);
    var e3 := Entry(3, 2, a);
    PutLast(st4.entries, e3);
    var st4' := st4.(entries := [Entry(1, 1, b), e3]);
    assert Put(st4.entries, e3) == [Entry(1, 1, b), e3] by {
      assert st4.entries[..1] == [Entry(1, 1, b)];
    }
    assert ReadInclude(res, true, a, A, 1, b, st4, 2) == ReadLines(res, true, a, A, 2, st4', 2);
    PlainStep(res, true, a, A, 2, st4', 2);
    st5 := st4'.(text := st4'.text + A[2] + "\n", lines := st4'.lines + [A[2]], origins := st4'.origins + [Origin(a, 2 + 1)]);
    assert ReadLines(res, true, a, A, 3, st5, 3) == Success(Progress(st5, 3));
    assert Read(res, true, a) == ReadLines(res, true, a, A, 2, st4', 2);
  }

  /** Global line 2 of the map (1, 1, b), (3, 2, a) is line 3 of `a`. */
  lemma SecondEntryLookup(b: string, a: string)
    ensures var m := LineNumberMap([Entry(1, 1, b), Entry(3, 2, a)]);
            GetActualFileName(m, 2) == Success(a) && GetActualLineNumber(m, 2) == Success(3)
  {
    assert Rank([Entry(1, 1, b), Entry(3, 2, a)], 2) == 1;
  }

  /** The smallest instance: `a` is `#include b`, `#include b`, `x`, and `b` is `y`. */
  lemma SkippedIncludeExample(res: Resources)
    requires res == TWICE
    ensures var p := Read(res, false, "a");
            p.Success? && p.value.st.origins == [Origin("b", 1), Origin("a", 3)]
            && GetActualLineNumber(LineNumberMap(p.value.st.entries), 2) == Success(2)
  {
    IncludeOfB();
    ShortLinesPlain();
    TwiceLookups(res);
    SkippedIncludeMisreports(res, "a", "b", "#include b", "x", "y");
  }

  /** `#include b` includes `b`. */
  lemma IncludeOfB()
    ensures Includes("#include b", "b")
  {
    IncludeRoundTrip("b");
    assert INCLUDE + "b" == "#include b";
  }

  /** `x` and `y` are plain lines. */
  lemma ShortLinesPlain()
    ensures !IsInclude("x") && !IsInclude("y")
  {
    assert |Trim("x")| <= 1 && |Trim("y")| <= 1;
  }

  /** The two files of the instance. */
  lemma TwiceLookups(res: Resources)
    requires res == TWICE
    ensures Lookup(res, "a") == Some(["#include b", "#include b", "x"]) && Lookup(res, "b") == Some(["y"])
  {
  }

  const TWICE: Resources := Resources(map["a" := ["#include b", "#include b", "x"], "b" := ["y"]], map[])

  /** A file that includes itself is read once: the repeated name ends the recursion. */
  lemma SelfIncludeEnds(res: Resources, fixed: bool, a: string, d: string, x: string)
    requires Includes(d, a) && !IsInclude(x) && Lookup(res, a) == Some([d, x])
    ensures var r := Read(res, fixed, a);
            r.Success? && r.value.st.lines == [x] && r.value.global == 2
  {
    var A := [d, x];
    FileStep(res, fixed, a, A, Start(a), 1);
    var st1 := Start(a).(included := {} + {a});
    IncludeStep(res, fixed, a, A, 0, a, st1, 1);
    var st2 := if fixed then st1.(entries := Put(st1.entries, Entry(2, 1, a))) else st1;
    assert ReadInclude(res, fixed, a, A, 0, a, st1, 1) == ReadLines(res, fixed, a, A, 1, st2, 1);
    PlainStep(res, fixed, a, A, 1, st2, 1);
  }

  // ----- The bookkeeping flag changes only the map -----

  /** Two states that differ at most in the builder's entries. */
  predicate SameButEntries(a: Reading, b: Reading) {
    a.text == b.text && a.lines == b.lines && a.origins == b.origins && a.included == b.included
  }

  /** Two results with the same exception, or the same next global line and states that differ at most in their entries. */
  predicate AgreeButEntries(r1: Result<Progress>, r2: Result<Progress>) {
    match r1
    case Failure(e) => r2 == Failure(e)
    case Success(p) => r2.Success? && r2.value.global == p.global && SameButEntries(p.st, r2.value.st)
  }

  /** The line loop with and without the corrected bookkeeping, from states that differ only in their entries. */
  lemma {:induction false} FlagOnlyLines(res: Resources, shader: string, src: seq<string>, k: nat,
                                         a: Reading, b: Reading, g: int)
    requires k <= |src| && SameButEntries(a, b)
    ensures AgreeButEntries(ReadLines(res, false, shader, src, k, a, g), ReadLines(res, true, shader, src, k, b, g))
    decreases Known(res) - a.included, |src| - k, 1
  {
    if k < |src| {
      var line := src[k];
      if IsInclude(line) {
        var n := IncludedName(line);
        if n.Success? {
          FlagOnlyInclude(res, shader, src, k, n.value, a, b, g);
        }
      } else {
        FlagOnlyLines(res, shader, src, k + 1,
                      a.(text := a.text + line + "\n", lines := a.lines + [line], origins := a.origins + [Origin(shader, k + 1)]),
                      b.(text := b.text + line + "\n", lines := b.lines + [line], origins := b.origins + [Origin(shader, k + 1)]),
                      g + 1);
      }
    }
  }

  /** An include with and without the corrected bookkeeping. */
  lemma {:induction false} FlagOnlyInclude(res: Resources, shader: string, src: seq<string>, k: nat, name: string,
                                           a: Reading, b: Reading, g: int)
    requires k < |src| && SameButEntries(a, b)
    ensures AgreeButEntries(ReadInclude(res, false, shader, src, k, name, a, g),
                            ReadInclude(res, true, shader, src, k, name, b, g))
    decreases Known(res) - a.included, |src| - k, 0
  {
    if name !in a.included {
      var a1 := a.(entries := Put(a.entries, Entry(1, g, name)));
      var b1 := b.(entries := Put(b.entries, Entry(1, g, name)));
      FlagOnlyFile(res, name, a1, b1, g);
      var p := ReadFile(res, false, name, a1, g);
      var q := ReadFile(res, true, name, b1, g);
      if p.Success? {
        FlagOnlyLines(res, shader, src, k + 1, p.value.st.(entries := Put(p.value.st.entries, Entry(k + 2, p.value.global, shader))),
                      q.value.st.(entries := Put(q.value.st.entries, Entry(k + 2, q.value.global, shader))), p.value.global);
      }
    } else {
      FlagOnlyLines(res, shader, src, k + 1, a, b.(entries := Put(b.entries, Entry(k + 2, g, shader))), g);
    }
  }

  /** A whole file with and without the corrected bookkeeping. */
  lemma {:induction false} FlagOnlyFile(res: Resources, shader: string, a: Reading, b: Reading, g: int)
    requires SameButEntries(a, b)
    ensures AgreeButEntries(ReadFile(res, false, shader, a, g), ReadFile(res, true, shader, b, g))
    decreases Known(res) - (a.included + {shader}), Span(res, shader), 0
  {
    match Lookup(res, shader)
    case None =>
    case Some(src) =>
      FlagOnlyLines(res, shader, src, 0, a.(included := a.included + {shader}), b.(included := b.included + {shader}), g);
  }

  /**
   * The corrected bookkeeping changes nothing but the map: with and without
   * it the expansion throws the same exception, or yields the same text,
   * lines, origins, include set and next global line.
   */
  lemma ReadFlagOnlyChangesEntries(res: Resources, shader: string)
    ensures var r1 := Read(res, false, shader);
            var r2 := Read(res, true, shader);
            (r1.Success? <==> r2.Success?)
            && (r1.Failure? ==> r2.error == r1.error)
            && (r1.Success? ==> r2.value.st.text == r1.value.st.text && r2.value.st.lines == r1.value.st.lines
                                && r2.value.st.origins == r1.value.st.origins
                                && r2.value.st.included == r1.value.st.included && r2.value.global == r1.value.global)
  {
    FlagOnlyFile(res, shader, Start(shader), Start(shader), 1);
  }

  // ----- The mutable objects `readShader` works on -----

  /** `StringBuilder`: only `append` is used. */
  class TextBuilder {
    var text: string

    constructor ()
      ensures text == ""
    {
      text := "";
    }

    method Append(s: string)
      modifies this
      ensures text == old(text) + s
    {
      text := text + s;
    }
  }

  /** The `HashSet<String>` of names already included. */
  class NameSet {
    var names: set<string>

    constructor ()
      ensures names == {}
    {
      names := {};
    }

    method Add(name: string)
      modifies this
      ensures names == old(names) + {name}
    {
      names := names + {name};
    }
  }

  /** How a `Result<int>` return and the objects after it match the model's result. */
  predicate Matches(r: Result<int>, f: Result<Progress>, st: Reading) {
    match f
    case Success(p) => r == Success(p.global) && st == p.st
    case Failure(e) => r == Failure(e)
  }

  /**
   * The shader program's state during `readShader`: the `lines` list and the
   * line number map the last expansion built (`null` before one finishes is
   * `None`). The GL handles are not modelled.
   */
  class ShaderProgram {
    const resources: Resources
    var lines: seq<string>
    var lineNumberMap: Option<LineNumberMap>
    /** Where each of `lines` came from: bookkeeping of the model only. */
    ghost var origins: seq<Origin>

    constructor (resources: Resources)
      ensures this.resources == resources && lines == [] && origins == [] && lineNumberMap == None
    {
      this.resources := resources;
      lines := [];
      origins := [];
      lineNumberMap := None;
    }

    /** The objects of one expansion, as the model's state. */
    ghost function State(str: TextBuilder, already: NameSet, lnmb: Builder): Reading
      reads this, str, already, lnmb
    {
      Reading(str.text, lines, origins, already.names, lnmb.entries)
    }

    /**
     * `readShader(shader)`: a fresh builder holding (1, 1, shader), a fresh
     * `lines` list and set, the recursive expansion, then `build()`. On
     * success the text, the lines and the map are those of the model's
     * expansion; a missing resource or a bad directive throws as it does.
     * The text, the lines and the exception are also those of the expansion
     * as written: the corrected bookkeeping changes only the map.
     */
    method ReadShader(shader: string) returns (r: Result<string>)
      modifies this
      ensures match Read(resources, true, shader)
              case Success(p) => r == Success(p.st.text) && lines == p.st.lines
                                 && lineNumberMap == Some(LineNumberMap(p.st.entries))
              case Failure(e) => r == Failure(e)
    ensures match Read(resources, false, shader)
            case Success(p) => r == Success(p.st.text) && lines == p.st.lines
            case Failure(e) => r == Failure(e)
    {
      ReadFlagOnlyChangesEntries(resources, shader);
      var str := new TextBuilder();
      var lnmb := new Builder();
      lnmb.AddEntry(1, 1, shader);
      assert lnmb.entries == [Entry(1, 1, shader)];
      lines := [];
      origins := [];
      var already := new NameSet();
      assert State(str, already, lnmb) == Start(shader);
      var g := ReadShaderFrom(shader, str, 1, already, lnmb);
      if g.Success? {
        lineNumberMap := Some(lnmb.Build());
        r := Success(str.text);
      } else {
        r := Failure(g.error);
      }
    }

    /**
     * `readShader(shader, str, globalLine, alreadyIncluded, lnmb)`: marks the
     * file included, looks it up (the program's shaders, then the standard
     * ones), and runs the line loop; returns the next global line.
     */
    method ReadShaderFrom(shader: string, str: TextBuilder, globalLine: int, already: NameSet, lnmb: Builder)
      returns (r: Result<int>)
      requires lnmb.Valid()
      modifies this, str, already, lnmb
      ensures lnmb.Valid() && old(already.names) <= already.names
      ensures Matches(r, ReadFile(resources, true, shader, old(State(str, already, lnmb)), globalLine),
                      State(str, already, lnmb))
      decreases Known(resources) - (already.names + {shader}), Span(resources, shader), 0
    {
      ghost var st0 := State(str, already, lnmb);
      already.Add(shader);
      ghost var st1 := State(str, already, lnmb);
      assert st1 == st0.(included := st0.included + {shader});
      match Lookup(resources, shader)
      case None =>
        r := Failure(IllegalArgument(ShaderNotFound(shader)));
      case Some(src) =>
        ghost var whole := ReadLines(resources, true, shader, src, 0, st1, globalLine);
        var k := 0;
        var g := globalLine;
        r := Success(g);
        while r.Success? && k < |src|
          invariant 0 <= k <= |src| && lnmb.Valid()
          invariant st1.included <= already.names
          invariant r.Success? ==> r == Success(g) && whole == ReadLines(resources, true, shader, src, k, State(str, already, lnmb), g)
          invariant r.Failure? ==> whole == Failure(r.error)
          decreases |src| - k
        {
          r := ReadLineOf(shader, src, k, str, g, already, lnmb);
          if r.Success? {
            g := r.value;
          }
          k := k + 1;
        }
    }

    /** One pass of the loop: line `k` (local line `k + 1`) is a directive or text. */
    method ReadLineOf(shader: string, src: seq<string>, k: nat, str: TextBuilder, g: int, already: NameSet, lnmb: Builder)
      returns (r: Result<int>)
      requires k < |src| && lnmb.Valid()
      modifies this, str, already, lnmb
      ensures lnmb.Valid() && old(already.names) <= already.names
      ensures r.Success? ==> ReadLines(resources, true, shader, src, k, old(State(str, already, lnmb)), g)
                             == ReadLines(resources, true, shader, src, k + 1, State(str, already, lnmb), r.value)
      ensures r.Failure? ==> ReadLines(resources, true, shader, src, k, old(State(str, already, lnmb)), g) == Failure(r.error)
      decreases Known(resources) - already.names, |src| - k, 1
    {
      var line := src[k];
      if IsInclude(line) {
        var name := IncludedName(line);
        if name.Failure? {
          r := Failure(name.error);
        } else if name.value !in already.names {
          r := ReadIncludeOf(shader, src, k, name.value, str, g, already, lnmb);
        } else {
          lnmb.AddEntry(k + 2, g, shader);
          r := Success(g);
        }
      } else {
        lines := lines + [line];
        origins := origins + [Origin(shader, k + 1)];
        str.Append(line);
        str.Append("\n");
        r := Success(g + 1);
      }
    }

    /** A directive naming a file not yet included: entry, recursive read, entry for the includer's next line. */
    method ReadIncludeOf(shader: string, src: seq<string>, k: nat, name: string, str: TextBuilder, g: int,
                         already: NameSet, lnmb: Builder)
      returns (r: Result<int>)
      requires k < |src| && lnmb.Valid() && name !in already.names
      modifies this, str, already, lnmb
      ensures lnmb.Valid() && old(already.names) <= already.names
      ensures r.Success? ==> ReadInclude(resources, true, shader, src, k, name, old(State(str, already, lnmb)), g)
                             == ReadLines(resources, true, shader, src, k + 1, State(str, already, lnmb), r.value)
      ensures r.Failure? ==> ReadInclude(resources, true, shader, src, k, name, old(State(str, already, lnmb)), g)
                             == Failure(r.error)
      decreases Known(resources) - already.names, |src| - k, 0
    {
      lnmb.AddEntry(1, g, name);
      r := ReadShaderFrom(name, str, g, already, lnmb);
      if r.Success? {
        lnmb.AddEntry(k + 2, r.value, shader);
      }
    }
  }

  // ----- The constructor -----

  /** The expanded sources the constructor hands to `createShader`; a `null` shader is `None` and is skipped. */
  datatype Sources = Sources(vertex: Option<string>, fragment: Option<string>)

  /** `readShader` applied to a shader that may be `null`. */
  function Expanded(res: Resources, shader: Option<string>): (r: Result<Option<string>>)
    ensures shader.None? ==> r == Success(None)
    ensures shader.Some? && r.Success? ==> r.value.Some? && Read(res, true, shader.value).Success?
  {
    match shader
    case None => Success(None)
    case Some(name) =>
      var p :- Read(res, true, name);
      Success(Some(p.st.text))
  }

  /** The expanded text does not depend on the include bookkeeping: it is the as-written expansion's. */
  lemma ExpandedIsAsWritten(res: Resources, name: string)
    ensures Read(res, false, name).Failure? ==> Expanded(res, Some(name)) == Failure(Read(res, false, name).error)
    ensures Read(res, false, name).Success? ==> Expanded(res, Some(name)) == Success(Some(Read(res, false, name).value.st.text))
  {
    ReadFlagOnlyChangesEntries(res, name);
  }

  /**
   * `new ShaderProgram(vertexShader, fragmentShader, vertexFormat, attribNames)`
   * up to the GL calls: a name count that differs from the format's attribute
   * count throws before anything is read; otherwise the vertex shader, then
   * the fragment shader, is expanded.
   */
  function Construct(res: Resources, vertex: Option<string>, fragment: Option<string>,
                     attributes: nat, names: nat): (r: Result<Sources>)
    ensures attributes != names ==> r == Failure(IllegalArgument(AttributeNameCount(names, attributes)))
    ensures r.Success? ==> attributes == names
                           && (vertex.Some? <==> r.value.vertex.Some?) && (fragment.Some? <==> r.value.fragment.Some?)
  {
    if attributes != names then Failure(IllegalArgument(AttributeNameCount(names, attributes)))
    else
      var v :- Expanded(res, vertex);
      var f :- Expanded(res, fragment);
      Success(Sources(v, f))
  }

  /** With matching counts, a missing vertex shader makes the constructor throw as `readShader` does. */
  lemma MissingShaderThrows(res: Resources, vertex: string, fragment: Option<string>, n: nat)
    requires vertex !in Known(res)
    ensures Construct(res, Some(vertex), fragment, n, n) == Failure(IllegalArgument(ShaderNotFound(vertex)))
  {
  }

  /** The constructor: the count check, the expansions on one program object, then `lines` and the map cleared. */
  method NewShaderProgram(res: Resources, vertex: Option<string>, fragment: Option<string>,
                          format: VertexFormat, attribNames: seq<string>)
    returns (r: Result<Sources>)
    ensures r == Construct(res, vertex, fragment, |format.attributes|, |attribNames|)
  {
    if |format.attributes| != |attribNames| {
      return Failure(IllegalArgument(AttributeNameCount(|attribNames|, |format.attributes|)));
    }
    var program := new ShaderProgram(res);
    var v: Option<string> := None;
    if vertex.Some? {
      var t := program.ReadShader(vertex.value);
      if t.Failure? {
        return Failure(t.error);
      }
      v := Some(t.value);
    }
    var f: Option<string> := None;
    if fragment.Some? {
      var t := program.ReadShader(fragment.value);
      if t.Failure? {
        return Failure(t.error);
      }
      f := Some(t.value);
    }
    program.lineNumberMap := None;
    program.lines := [];
    r := Success(Sources(v, f));
  }
}
