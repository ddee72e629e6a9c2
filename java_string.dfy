/**
 * The few `java.lang.String` operations the core relies on, with Java's
 * exact edge cases: `split` on a one-character separator drops trailing
 * empty pieces but keeps leading and inner ones (and splits "" into [""]),
 * `trim` strips every character up to and including the space character.
 */
module JavaString {
  import opened Base

  predicate StartsWith(s: string, prefix: string) {
    |prefix| <= |s| && s[..|prefix|] == prefix
  }

  /** Characters `trim` removes: code points up to U+0020. */
  predicate IsTrimmed(ch: char) {
    ch <= ' '
  }

  /** `t` occurs in `s` starting at index `i`. */
  predicate OccursAt(s: string, t: string, i: nat) {
    i + |t| <= |s| && s[i..i + |t|] == t
  }

  /** The first position at which `t` occurs in `s` (`String.indexOf`). */
  function IndexOf(s: string, t: string): (r: Option<nat>)
    ensures r.Some? ==> OccursAt(s, t, r.value)
    ensures r.Some? ==> forall i: nat :: i < r.value ==> !OccursAt(s, t, i)
    ensures r.None? ==> forall i: nat :: !OccursAt(s, t, i)
  {
    IndexOfFrom(s, t, 0)
  }

  function IndexOfFrom(s: string, t: string, from: nat): (r: Option<nat>)
    requires forall i: nat :: i < from ==> !OccursAt(s, t, i)
    ensures r.Some? ==> from <= r.value && OccursAt(s, t, r.value)
    ensures r.Some? ==> forall i: nat :: i < r.value ==> !OccursAt(s, t, i)
    ensures r.None? ==> forall i: nat :: !OccursAt(s, t, i)
    decreases |s| + 1 - from
  {
    if from + |t| > |s| then None
    else if OccursAt(s, t, from) then Some(from)
    else IndexOfFrom(s, t, from + 1)
  }

  predicate Contains(s: string, t: string) {
    IndexOf(s, t).Some?
  }

  /** `s.trim()`: `s` without its leading and trailing characters up to U+0020. */
  function Trim(s: string): string {
    var a := TrimStart(s);
    s[a..a + TrimEnd(s[a..])]
  }

  /** `trim` keeps an inner range of `s` that neither starts nor ends with a trimmed character, and drops only trimmed ones. */
  lemma TrimSpec(s: string)
    ensures var r := Trim(s);
            (exists i, j :: 0 <= i <= j <= |s| && r == s[i..j]
              && (forall k :: 0 <= k < i ==> IsTrimmed(s[k]))
              && (forall k :: j <= k < |s| ==> IsTrimmed(s[k])))
            && (r != [] ==> !IsTrimmed(r[0]) && !IsTrimmed(r[|r| - 1]))
  {
    var a := TrimStart(s);
    var b := TrimEnd(s[a..]);
    var r := Trim(s);
    TrimStartSpec(s);
    TrimEndSpec(s[a..]);
    assert r == s[a..a + b];
    forall k | a + b <= k < |s|
      ensures IsTrimmed(s[k])
    {
      assert s[a..][k - a] == s[k];
    }
    assert 0 <= a <= a + b <= |s| && r == s[a..a + b]
      && (forall k :: 0 <= k < a ==> IsTrimmed(s[k]))
      && (forall k :: a + b <= k < |s| ==> IsTrimmed(s[k]));
    if b > 0 {
      assert r[0] == s[a];
      assert r[|r| - 1] == s[a..][b - 1];
    }
  }

  /** Number of trimmed characters at the start of `s`. */
  function TrimStart(s: string): (n: nat)
    ensures n <= |s|
  {
    if s == [] || !IsTrimmed(s[0]) then 0 else 1 + TrimStart(s[1..])
  }

  /** The first `TrimStart(s)` characters are trimmed ones, and the next is not. */
  lemma {:induction false} TrimStartSpec(s: string)
    ensures forall k :: 0 <= k < TrimStart(s) ==> IsTrimmed(s[k])
    ensures TrimStart(s) < |s| ==> !IsTrimmed(s[TrimStart(s)])
  {
    if s != [] && IsTrimmed(s[0]) {
      TrimStartSpec(s[1..]);
      forall k | 1 <= k < TrimStart(s)
        ensures IsTrimmed(s[k])
      {
        assert s[1..][k - 1] == s[k];
      }
    }
  }

  /** Length of `s` without its trailing trimmed characters. */
  function TrimEnd(s: string): (n: nat)
    ensures n <= |s|
  {
    if s == [] || !IsTrimmed(s[|s| - 1]) then |s| else TrimEnd(s[..|s| - 1])
  }

  /** The characters from `TrimEnd(s)` on are trimmed ones, and the one before is not. */
  lemma {:induction false} TrimEndSpec(s: string)
    ensures forall k :: TrimEnd(s) <= k < |s| ==> IsTrimmed(s[k])
    ensures TrimEnd(s) > 0 ==> !IsTrimmed(s[TrimEnd(s) - 1])
  {
    if s != [] && IsTrimmed(s[|s| - 1]) {
      TrimEndSpec(s[..|s| - 1]);
    }
  }

  /** The separated pieces of `s`, all of them, empty ones included. */
  function SplitAll(s: string, sep: char): (parts: seq<string>)
    ensures |parts| >= 1
    ensures forall p :: p in parts ==> sep !in p
    ensures Join(parts, sep) == s
  {
    if sep !in s then [s]
    else
      var i := FirstIndexOf(s, sep);
      var rest := SplitAll(s[i + 1..], sep);
      assert s == s[..i] + [sep] + s[i + 1..];
      [s[..i]] + rest
  }

  function FirstIndexOf(s: string, ch: char): (i: nat)
    requires ch in s
    ensures i < |s| && s[i] == ch && ch !in s[..i]
  {
    if s[0] == ch then 0 else 1 + FirstIndexOf(s[1..], ch)
  }

  /** The inverse of splitting: the pieces glued back with the separator. */
  function Join(parts: seq<string>, sep: char): string {
    if parts == [] then ""
    else if |parts| == 1 then parts[0]
    else parts[0] + [sep] + Join(parts[1..], sep)
  }

  /** `parts` without its trailing empty strings. */
  function StripTrailingEmpty(parts: seq<string>): (r: seq<string>)
    ensures r <= parts
    ensures r != [] ==> r[|r| - 1] != ""
    ensures forall k :: |r| <= k < |parts| ==> parts[k] == ""
  {
    if parts == [] || parts[|parts| - 1] != "" then parts
    else StripTrailingEmpty(parts[..|parts| - 1])
  }

  /** `s.split(String.valueOf(sep))` for a separator that is not a regular-expression metacharacter. */
  function Split(s: string, sep: char): (parts: seq<string>)
    ensures s == "" ==> parts == [""]
    ensures s != "" ==> parts <= SplitAll(s, sep)
    ensures forall p :: p in parts ==> sep !in p
  {
    if s == "" then [""] else StripTrailingEmpty(SplitAll(s, sep))
  }

  /** A string free of the separator splits into itself. */
  lemma SplitWithoutSeparator(s: string, sep: char)
    requires s != "" && sep !in s
    ensures Split(s, sep) == [s]
  {
  }

  /** `a + sep + b` with no separator in `a` splits into `a` followed by the pieces of `b`. */
  lemma {:induction false} SplitCons(a: string, sep: char, b: string)
    requires sep !in a && b != ""
    ensures Split(a + [sep] + b, sep) == if Split(b, sep) == [] && a == "" then [] else [a] + Split(b, sep)
  {
    var s := a + [sep] + b;
    assert sep in s by { assert s[|a|] == sep; }
    var i := FirstIndexOf(s, sep);
    assert forall k :: 0 <= k < |a| ==> s[k] == a[k];
    assert forall k :: 0 <= k < i ==> s[..i][k] == s[k];
    assert s[|a|] == sep;
    assert i == |a|;
    assert s[..i] == a;
    assert s[i + 1..] == b;
    StripConsLemma(a, SplitAll(b, sep));
  }

  lemma {:induction false} StripConsLemma(a: string, rest: seq<string>)
    requires rest != []
    ensures StripTrailingEmpty([a] + rest) ==
            if StripTrailingEmpty(rest) == [] && a == "" then [] else [a] + StripTrailingEmpty(rest)
    decreases |rest|
  {
    var whole := [a] + rest;
    assert whole[|whole| - 1] == rest[|rest| - 1];
    if rest[|rest| - 1] == "" {
      var init := rest[..|rest| - 1];
      assert whole[..|whole| - 1] == [a] + init;
      if init == [] {
        assert StripTrailingEmpty(rest) == [];
        assert StripTrailingEmpty(whole) == StripTrailingEmpty([a]);
      } else {
        StripConsLemma(a, init);
      }
    }
  }

  /** A non-empty string of separators alone splits into no pieces at all. */
  lemma {:induction false} SplitOnlySeparators(s: string, sep: char)
    requires s != "" && forall k :: 0 <= k < |s| ==> s[k] == sep
    ensures Split(s, sep) == []
  {
    if |s| == 1 {
      assert s[0] == sep;
      assert FirstIndexOf(s, sep) == 0;
      assert SplitAll(s[1..], sep) == [""];
      assert SplitAll(s, sep) == ["", ""];
    } else {
      SplitOnlySeparators(s[1..], sep);
      assert s == "" + [sep] + s[1..];
      SplitCons("", sep, s[1..]);
    }
  }
}
