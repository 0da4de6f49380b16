/**
 * Component locators: the string helpers Component::makeLoc, Component::parentLoc and
 * Component::name, and the splitFirst helper used by locator resolution.
 *
 * A locator is the root sigil `$` followed by `.`-separated segment names, for
 * example `$.scene`. `Join` is the reference definition of that grammar: it glues
 * segments together with `.` separators.
 */
module Locator {

  /** Index of the first `ch` in `s`, or `|s|` when there is none (std::string::npos). */
  function FindFirst(s: string, ch: char): (i: nat)
    ensures i <= |s|
    ensures i < |s| ==> s[i] == ch
    ensures forall j :: 0 <= j < i ==> s[j] != ch
    ensures i == |s| <==> ch !in s
  {
    if s == [] then 0
    else if s[0] == ch then 0
    else
      var k := FindFirst(s[1..], ch);
      assert forall j :: 1 <= j < 1 + k ==> s[j] == s[1..][j - 1];
      1 + k
  }

  /** Index of the last `ch` in `s`, or -1 when there is none (find_last_of). */
  function FindLast(s: string, ch: char): (i: int)
    ensures -1 <= i < |s|
    ensures 0 <= i ==> s[i] == ch
    ensures forall j :: i < j < |s| ==> s[j] != ch
    ensures i == -1 <==> ch !in s
  {
    if s == [] then -1
    else if s[|s| - 1] == ch then |s| - 1
    else
      var k := FindLast(s[..|s| - 1], ch);
      assert forall j :: 0 <= j < |s| - 1 ==> s[j] == s[..|s| - 1][j];
      k
  }

  /**
   * splitFirst: given `xxx.yyy.zzz` returns (`xxx`, `yyy.zzz`); a string without
   * `.` is returned whole with an empty remainder.
   */
  function SplitFirst(s: string): (r: (string, string))
    ensures '.' !in r.0
    ensures '.' in s ==> s == r.0 + "." + r.1
    ensures '.' !in s ==> r.0 == s && r.1 == ""
    ensures s != "" ==> |r.1| < |s|
  {
    var i := FindFirst(s, '.');
    if i == |s| then (s, "")
    else
      assert s == s[..i] + "." + s[i + 1..];
      (s[..i], s[i + 1..])
  }

  /**
   * makeLoc(base, child): `child` under `base`. The source asserts that `child`
   * is non-empty.
   */
  function MakeLoc(base: string, child: string): (r: string)
    requires child != ""
    ensures base == "" ==> r == child
    ensures |r| == (if base == "" then 0 else |base| + 1) + |child|
    ensures base != "" ==> r[..|base|] == base && r[|base|] == '.' && r[|base| + 1..] == child
  {
    if base == "" then child else base + "." + child
  }

  /** parentLoc: the part of `loc` before its last `.`, or "" when `loc` has none. */
  function ParentLoc(loc: string): (r: string)
    ensures '.' !in loc ==> r == ""
    ensures '.' in loc ==> |r| < |loc| && loc[..|r|] == r && loc[|r|] == '.' && '.' !in loc[|r| + 1..]
  {
    var i := FindLast(loc, '.');
    if i < 0 then "" else loc[..i]
  }

  /**
   * name: the part of `loc` after its last `.`. The source asserts that `loc`
   * contains a `.`.
   */
  function Name(loc: string): (r: string)
    requires '.' in loc
    ensures '.' !in r
    ensures loc == ParentLoc(loc) + "." + r
  {
    var i := FindLast(loc, '.');
    assert loc == loc[..i] + "." + loc[i + 1..];
    loc[i + 1..]
  }

  /** A well-formed segment name: non-empty and free of `.`. */
  predicate IsSegment(s: string) {
    s != "" && '.' !in s
  }

  /** The locator made of `segs` separated by `.` (the reference grammar). */
  function Join(segs: seq<string>): string
    decreases |segs|
  {
    if |segs| == 0 then ""
    else if |segs| == 1 then segs[0]
    else segs[0] + "." + Join(segs[1..])
  }

  /** makeLoc then parentLoc/name give back the base and the child. */
  lemma ParentNameOfMakeLoc(base: string, child: string)
    requires base != "" && IsSegment(child)
    ensures ParentLoc(MakeLoc(base, child)) == base
    ensures Name(MakeLoc(base, child)) == child
  {
    var l := MakeLoc(base, child);
    assert l[|base|] == '.';
    var i := FindLast(l, '.');
    assert forall j :: |base| < j < |l| ==> l[j] == child[j - |base| - 1];
    assert i == |base|;
    assert ParentLoc(l) == l[..|base|];
  }

  /** A locator at the top level (`makeLoc("", c)`) has no parent locator. */
  lemma ParentOfTopLevel(child: string)
    requires IsSegment(child)
    ensures ParentLoc(MakeLoc("", child)) == ""
  {
  }

  /** The converse round trip: a locator with an inner `.` is rebuilt from parentLoc and name. */
  lemma MakeLocOfParentName(loc: string)
    requires '.' in loc && ParentLoc(loc) != "" && Name(loc) != ""
    ensures MakeLoc(ParentLoc(loc), Name(loc)) == loc
  {
  }

  /** Splitting a joined locator peels off exactly its first segment. */
  lemma {:induction false} SplitFirstJoin(segs: seq<string>)
    requires |segs| >= 1 && '.' !in segs[0]
    ensures SplitFirst(Join(segs)) == (segs[0], if |segs| == 1 then "" else Join(segs[1..]))
  {
    if |segs| > 1 {
      var s := Join(segs);
      assert s == segs[0] + "." + Join(segs[1..]);
      assert s[|segs[0]|] == '.';
      var i := FindFirst(s, '.');
      assert i <= |segs[0]|;
      assert forall j :: 0 <= j < |segs[0]| ==> s[j] == segs[0][j];
      assert i == |segs[0]|;
      assert s[..i] == segs[0];
      assert s[i + 1..] == Join(segs[1..]);
    }
  }

  /** makeLoc appends one segment to a joined locator. */
  lemma {:induction false} MakeLocJoin(segs: seq<string>, child: string)
    requires forall k :: 0 <= k < |segs| ==> IsSegment(segs[k])
    requires IsSegment(child)
    ensures MakeLoc(Join(segs), child) == Join(segs + [child])
    decreases |segs|
  {
    if |segs| == 0 {
      assert segs + [child] == [child];
    } else if |segs| == 1 {
      assert segs + [child] == [segs[0], child];
      assert (segs + [child])[1..] == [child];
    } else {
      MakeLocJoin(segs[1..], child);
      assert (segs + [child])[1..] == segs[1..] + [child];
      assert Join(segs) != "";
    }
  }
}
