/**
 * The key under which shared shadow renderers are cached: the four
 * configuration fingerprints (canvas id, clip-state hash, geometry-state
 * hash, mesh-state hash) joined with ";".
 */
module Fingerprint {

  const Separator: char := ';'

  /** `parts.join(sep)` */
  function Join(parts: seq<string>, sep: char): string
  {
    if |parts| == 0 then ""
    else if |parts| == 1 then parts[0]
    else parts[0] + [sep] + Join(parts[1..], sep)
  }

  /** The first position of `c` in `s`. */
  function IndexOf(s: string, c: char): (i: nat)
    requires c in s
    ensures i < |s| && s[i] == c && c !in s[..i]
  {
    if s[0] == c then 0
    else
      var j := IndexOf(s[1..], c);
      assert s[..j + 1] == [s[0]] + s[1..][..j];
      j + 1
  }

  /** `s.split(sep)`: the inverse of Join on separator-free parts. */
  function Split(s: string, sep: char): (parts: seq<string>)
    ensures |parts| >= 1
    decreases |s|
  {
    if sep !in s then [s]
    else
      var i := IndexOf(s, sep);
      [s[..i]] + Split(s[i + 1..], sep)
  }

  lemma FirstSeparator(a: string, sep: char, b: string)
    requires sep !in a
    ensures sep in a + [sep] + b
    ensures IndexOf(a + [sep] + b, sep) == |a|
  {
    var s := a + [sep] + b;
    assert s[|a|] == sep;
    assert forall i :: 0 <= i < |a| ==> s[i] == a[i];
  }

  /** Splitting stops at the first separator and carries on after it. */
  lemma SplitAtFirst(a: string, sep: char, b: string)
    requires sep !in a
    ensures Split(a + [sep] + b, sep) == [a] + Split(b, sep)
  {
    var s := a + [sep] + b;
    FirstSeparator(a, sep, b);
    assert s[..|a|] == a;
    assert s[|a| + 1..] == b;
  }

  /** Splitting a join of separator-free parts gives the parts back. */
  lemma {:induction false} SplitJoin(parts: seq<string>, sep: char)
    requires |parts| >= 1
    requires forall i :: 0 <= i < |parts| ==> sep !in parts[i]
    ensures Split(Join(parts, sep), sep) == parts
  {
    if |parts| > 1 {
      var rest := Join(parts[1..], sep);
      assert Join(parts, sep) == parts[0] + [sep] + rest;
      SplitAtFirst(parts[0], sep, rest);
      SplitJoin(parts[1..], sep);
      assert parts == [parts[0]] + parts[1..];
    }
  }

  /** The renderer key of shadowRenderer.js:21-25. */
  function Hash(canvasId: string, clipsHash: string, geometryHash: string, stateHash: string): string
  {
    Join([canvasId, clipsHash, geometryHash, stateHash], Separator)
  }

  /** No component contains the separator. */
  predicate Plain(canvasId: string, clipsHash: string, geometryHash: string, stateHash: string)
  {
    Separator !in canvasId && Separator !in clipsHash && Separator !in geometryHash && Separator !in stateHash
  }

  /** The four components as a list of separator-free parts. */
  lemma PlainParts(canvasId: string, clipsHash: string, geometryHash: string, stateHash: string)
    requires Plain(canvasId, clipsHash, geometryHash, stateHash)
    ensures var parts := [canvasId, clipsHash, geometryHash, stateHash];
      forall i :: 0 <= i < |parts| ==> Separator !in parts[i]
  {
    var parts := [canvasId, clipsHash, geometryHash, stateHash];
    forall i | 0 <= i < |parts|
      ensures Separator !in parts[i]
    {
      if i == 0 {
      } else if i == 1 {
      } else if i == 2 {
      } else {
        assert i == 3;
      }
    }
  }

  /**
   * With separator-free components, two meshes share a key exactly when
   * all four of their fingerprints agree.
   */
  lemma HashDeterminesComponents(c1: string, k1: string, g1: string, s1: string,
                                 c2: string, k2: string, g2: string, s2: string)
    requires Plain(c1, k1, g1, s1) && Plain(c2, k2, g2, s2)
    ensures Hash(c1, k1, g1, s1) == Hash(c2, k2, g2, s2) <==> (c1, k1, g1, s1) == (c2, k2, g2, s2)
  {
    var p1 := [c1, k1, g1, s1];
    var p2 := [c2, k2, g2, s2];
    if Join(p1, Separator) == Join(p2, Separator) {
      PlainParts(c1, k1, g1, s1);
      PlainParts(c2, k2, g2, s2);
      SplitJoin(p1, Separator);
      SplitJoin(p2, Separator);
      assert p1[0] == p2[0] && p1[1] == p2[1] && p1[2] == p2[2] && p1[3] == p2[3];
    }
  }

  /** A separator inside a component lets two different meshes collide. */
  lemma HashCollidesOnSeparator()
    ensures Hash("a;b", "c", "g", "s") == Hash("a", "b;c", "g", "s")
  {
    assert Hash("a;b", "c", "g", "s") == "a;b;c;g;s";
    assert Hash("a", "b;c", "g", "s") == "a;b;c;g;s";
  }
}
