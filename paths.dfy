/** Relative path templates built by joining names with the separator "/".
    The loader writes `parent + SEP + child`; `Join` is the same operation over a
    whole list of segments, and `Split` (cut at the last separator) is its inverse. */
module Paths {

  /** The separator the loader puts between two path names. */
  const SEP_CHAR: char := '/'
  const SEP: string := [SEP_CHAR]

  /** The empty string the loader passes for an unused fileset name or exclude pattern. */
  const EMPTY: string := ""

  /** A single path name: it holds no separator. */
  predicate IsSegment(s: string) {
    SEP_CHAR !in s
  }

  predicate AllSegments(segs: seq<string>) {
    forall i :: 0 <= i < |segs| ==> IsSegment(segs[i])
  }

  /** `segs[0] + SEP + segs[1] + SEP + ... + SEP + segs[|segs| - 1]`, associated to
      the left as the loader writes it. */
  function Join(segs: seq<string>): string
    requires |segs| >= 1
    decreases |segs|
  {
    if |segs| == 1 then segs[0]
    else Join(segs[..|segs| - 1]) + SEP + segs[|segs| - 1]
  }

  /** Index of the last separator of `s`. */
  function LastSep(s: string): (k: nat)
    requires SEP_CHAR in s
    ensures k < |s| && s[k] == SEP_CHAR
    ensures IsSegment(s[k + 1..])
    decreases |s|
  {
    if s[|s| - 1] == SEP_CHAR then |s| - 1
    else
      assert SEP_CHAR in s[..|s| - 1] by {
        var i :| 0 <= i < |s| && s[i] == SEP_CHAR;
        assert s[..|s| - 1][i] == SEP_CHAR;
      }
      LastSep(s[..|s| - 1])
  }

  /** The names of a path, in order: cut at the last separator, recursively. */
  function Split(s: string): (r: seq<string>)
    ensures |r| >= 1 && AllSegments(r)
    decreases |s|
  {
    if SEP_CHAR !in s then [s]
    else
      var k := LastSep(s);
      Split(s[..k]) + [s[k + 1..]]
  }

  /** Splitting a joined list of names gives the names back. */
  lemma {:induction false} SplitJoin(segs: seq<string>)
    requires |segs| >= 1 && AllSegments(segs)
    ensures Split(Join(segs)) == segs
    decreases |segs|
  {
    if |segs| > 1 {
      var init, last := segs[..|segs| - 1], segs[|segs| - 1];
      var j := Join(init);
      var s := j + SEP + last;
      assert s == Join(segs);
      assert s[|j|] == SEP_CHAR;
      var k := LastSep(s);
      assert k == |j|;
      assert s[..k] == j;
      assert s[k + 1..] == last;
      SplitJoin(init);
      assert init + [last] == segs;
    }
  }

  /** Joining the names of a path gives the path back. */
  lemma {:induction false} JoinSplit(s: string)
    ensures Join(Split(s)) == s
    decreases |s|
  {
    if SEP_CHAR in s {
      var k := LastSep(s);
      var r := Split(s[..k]);
      JoinSplit(s[..k]);
      var whole := r + [s[k + 1..]];
      assert whole[..|whole| - 1] == r;
      assert Join(whole) == s[..k] + SEP + s[k + 1..];
      assert s == s[..k] + SEP + s[k + 1..];
    }
  }

  /** Two lists of names that join to the same path are the same list. */
  lemma JoinInjective(a: seq<string>, b: seq<string>)
    requires |a| >= 1 && AllSegments(a)
    requires |b| >= 1 && AllSegments(b)
    requires Join(a) == Join(b)
    ensures a == b
  {
    SplitJoin(a);
    SplitJoin(b);
  }

  /** A path starts with each of its leading directories followed by the separator. */
  lemma {:induction false} JoinPrefix(segs: seq<string>, k: nat)
    requires 1 <= k < |segs|
    ensures Join(segs[..k]) + SEP <= Join(segs)
    decreases |segs|
  {
    var m := |segs| - 1;
    if k < m {
      JoinPrefix(segs[..m], k);
      assert segs[..m][..k] == segs[..k];
      var a, b, c := Join(segs[..k]) + SEP, Join(segs[..m]), Join(segs);
      assert c == b + SEP + segs[m];
      assert a <= b;
      assert c[..|a|] == b[..|a|];
    }
  }

  /** Paths of two to five names, spelled as the loader writes them. */
  lemma Join2(a: string, b: string)
    ensures Join([a, b]) == a + SEP + b
  {
    assert [a, b][..1] == [a];
  }

  lemma Join3(a: string, b: string, c: string)
    ensures Join([a, b, c]) == a + SEP + b + SEP + c
  {
    assert [a, b, c][..2] == [a, b];
    Join2(a, b);
  }

  lemma Join4(a: string, b: string, c: string, d: string)
    ensures Join([a, b, c, d]) == a + SEP + b + SEP + c + SEP + d
  {
    assert [a, b, c, d][..3] == [a, b, c];
    Join3(a, b, c);
  }

  lemma Join5(a: string, b: string, c: string, d: string, e: string)
    ensures Join([a, b, c, d, e]) == a + SEP + b + SEP + c + SEP + d + SEP + e
  {
    assert [a, b, c, d, e][..4] == [a, b, c, d];
    Join4(a, b, c, d);
  }
}
