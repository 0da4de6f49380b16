/**
 * The raw mesh: flat position, normal and texture-coordinate arrays grouped into
 * vectors, and face records indexing into them. Triangle `f` is made of the face
 * records 3f, 3f+1 and 3f+2. Coordinates are an opaque type `T`.
 */
module MeshRaw {

  datatype Vec3<T> = Vec3(x: T, y: T, z: T)
  datatype Vec2<T> = Vec2(u: T, v: T)

  /** One face corner: indices of its position, texture coordinates and normal. */
  datatype FaceIndex = FaceIndex(p: int, t: int, n: int)

  /** A face record that has not been filled in. */
  function DefaultFaceIndex(): (f: FaceIndex)
    ensures f.p == -1 && f.t == -1 && f.n == -1
  {
    FaceIndex(-1, -1, -1)
  }

  /** A triangle corner: position, normal and texture coordinates. */
  datatype Vertex<T> = Vertex(p: Vec3<T>, n: Vec3<T>, t: Vec2<T>)
  datatype Tri<T> = Tri(p1: Vertex<T>, p2: Vertex<T>, p3: Vertex<T>)

  /** Corner `j` (0, 1 or 2) of a triangle. */
  function CornerOf<T>(tri: Tri<T>, j: int): Vertex<T>
    requires 0 <= j < 3
  {
    if j == 0 then tri.p1 else if j == 1 then tri.p2 else tri.p3
  }

  /** `vs` holds the consecutive triples of `xs`. */
  ghost predicate GroupedTriples<T>(xs: seq<T>, vs: seq<Vec3<T>>) {
    |xs| == 3 * |vs| && forall k :: 0 <= k < |vs| ==> vs[k] == Vec3(xs[3 * k], xs[3 * k + 1], xs[3 * k + 2])
  }

  /** `vs` holds the consecutive pairs of `xs`. */
  ghost predicate GroupedPairs<T>(xs: seq<T>, vs: seq<Vec2<T>>) {
    |xs| == 2 * |vs| && forall k :: 0 <= k < |vs| ==> vs[k] == Vec2(xs[2 * k], xs[2 * k + 1])
  }

  /** The strided loop over a flat array of 3-vectors. The array length must be a multiple of 3. */
  method GroupTriples<T>(xs: seq<T>) returns (vs: seq<Vec3<T>>)
    requires |xs| % 3 == 0
    ensures GroupedTriples(xs, vs)
    ensures |vs| == |xs| / 3
  {
    vs := [];
    var i := 0;
    while i < |xs|
      invariant i == 3 * |vs| <= |xs|
      invariant forall k :: 0 <= k < |vs| ==> vs[k] == Vec3(xs[3 * k], xs[3 * k + 1], xs[3 * k + 2])
    {
      vs := vs + [Vec3(xs[i], xs[i + 1], xs[i + 2])];
      i := i + 3;
    }
  }

  /** The strided loop over a flat array of 2-vectors. The array length must be even. */
  method GroupPairs<T>(xs: seq<T>) returns (vs: seq<Vec2<T>>)
    requires |xs| % 2 == 0
    ensures GroupedPairs(xs, vs)
    ensures |vs| == |xs| / 2
  {
    vs := [];
    var i := 0;
    while i < |xs|
      invariant i == 2 * |vs| <= |xs|
      invariant forall k :: 0 <= k < |vs| ==> vs[k] == Vec2(xs[2 * k], xs[2 * k + 1])
    {
      vs := vs + [Vec2(xs[i], xs[i + 1])];
      i := i + 2;
    }
  }

  /** One face record per entry of fs["p"], taking the t and n entries at the same index. */
  method ZipFaces(fp: seq<int>, ft: seq<int>, fn: seq<int>) returns (fs: seq<FaceIndex>)
    requires |ft| >= |fp| && |fn| >= |fp|
    ensures |fs| == |fp|
    ensures forall i :: 0 <= i < |fs| ==> fs[i] == FaceIndex(fp[i], ft[i], fn[i])
  {
    fs := [];
    var i := 0;
    while i < |fp|
      invariant 0 <= i <= |fp| && |fs| == i
      invariant forall j :: 0 <= j < i ==> fs[j] == FaceIndex(fp[j], ft[j], fn[j])
    {
      fs := fs + [FaceIndex(fp[i], ft[i], fn[i])];
      i := i + 1;
    }
  }

  class Mesh<T> {
    var ps: seq<Vec3<T>>
    var ns: seq<Vec3<T>>
    var ts: seq<Vec2<T>>
    var fs: seq<FaceIndex>

    constructor ()
      ensures ps == [] && ns == [] && ts == [] && fs == []
    {
      ps, ns, ts, fs := [], [], [], [];
    }

    /**
     * construct(prop): append the grouped prop["ps"], prop["ns"], prop["ts"] and
     * the face records of prop["fs"]; it always succeeds.
     */
    method Construct(flatPs: seq<T>, flatNs: seq<T>, flatTs: seq<T>, fp: seq<int>, ft: seq<int>, fn: seq<int>) returns (ok: bool)
      requires |flatPs| % 3 == 0 && |flatNs| % 3 == 0 && |flatTs| % 2 == 0
      requires |ft| >= |fp| && |fn| >= |fp|
      modifies this
      ensures ok
      ensures |old(ps)| <= |ps| && ps[..|old(ps)|] == old(ps) && GroupedTriples(flatPs, ps[|old(ps)|..])
      ensures |old(ns)| <= |ns| && ns[..|old(ns)|] == old(ns) && GroupedTriples(flatNs, ns[|old(ns)|..])
      ensures |old(ts)| <= |ts| && ts[..|old(ts)|] == old(ts) && GroupedPairs(flatTs, ts[|old(ts)|..])
      ensures |fs| == |old(fs)| + |fp| && fs[..|old(fs)|] == old(fs)
      ensures forall i :: 0 <= i < |fp| ==> fs[|old(fs)| + i] == FaceIndex(fp[i], ft[i], fn[i])
    {
      var gp := GroupTriples(flatPs);
      assert (ps + gp)[|ps|..] == gp;
      ps := ps + gp;
      var gn := GroupTriples(flatNs);
      assert (ns + gn)[|ns|..] == gn;
      ns := ns + gn;
      var gt := GroupPairs(flatTs);
      assert (ts + gt)[|ts|..] == gt;
      ts := ts + gt;
      var f := ZipFaces(fp, ft, fn);
      fs := fs + f;
      return true;
    }

    /** numTriangles: the number of complete triples of face records. */
    function NumTriangles(): (n: int)
      reads this
      ensures n >= 0 && 3 * n <= |fs| < 3 * n + 3
    {
      |fs| / 3
    }

    /** A face record whose three indices are in range. */
    predicate CornerInRange(f: FaceIndex)
      reads this
    {
      0 <= f.p < |ps| && 0 <= f.n < |ns| && 0 <= f.t < |ts|
    }

    /** Every face record used by some triangle is in range. */
    predicate FacesInRange()
      reads this
    {
      forall i :: 0 <= i < 3 * NumTriangles() ==> CornerInRange(fs[i])
    }

    function Corner(f: FaceIndex): Vertex<T>
      reads this
      requires CornerInRange(f)
    {
      Vertex(ps[f.p], ns[f.n], ts[f.t])
    }

    /** triangleAt(face): the corners given by face records 3*face, 3*face+1, 3*face+2. */
    function TriangleAt(face: int): (tri: Tri<T>)
      reads this
      requires 0 <= face && 3 * face + 2 < |fs|
      requires CornerInRange(fs[3 * face]) && CornerInRange(fs[3 * face + 1]) && CornerInRange(fs[3 * face + 2])
      ensures forall j :: 0 <= j < 3 ==> var f := fs[3 * face + j];
        CornerOf(tri, j) == Vertex(ps[f.p], ns[f.n], ts[f.t])
    {
      Tri(Corner(fs[3 * face]), Corner(fs[3 * face + 1]), Corner(fs[3 * face + 2]))
    }

    /** foreachTriangle: the callback sees each face index 0 .. numTriangles()-1 once, in order, with its triangle. */
    method ForeachTriangle() returns (visited: seq<(int, Tri<T>)>)
      requires FacesInRange()
      ensures |visited| == NumTriangles()
      ensures forall i :: 0 <= i < |visited| ==> visited[i].0 == i
      ensures forall i :: 0 <= i < |visited| ==> 3 * i + 2 < |fs| && visited[i].1 == TriangleAt(i)
    {
      visited := [];
      var fi := 0;
      while fi < |fs| / 3
        invariant 0 <= fi <= |fs| / 3 && |visited| == fi
        invariant forall i :: 0 <= i < fi ==> visited[i].0 == i
        invariant forall i :: 0 <= i < fi ==> 3 * i + 2 < |fs| && visited[i].1 == TriangleAt(i)
      {
        assert 3 * fi + 2 < 3 * NumTriangles();
        visited := visited + [(fi, TriangleAt(fi))];
        fi := fi + 1;
      }
    }
  }

  /** The vertex a face record selects, read directly from the flat arrays. */
  function FlatVertex<T>(flatPs: seq<T>, flatNs: seq<T>, flatTs: seq<T>, f: FaceIndex): Vertex<T>
    requires 0 <= f.p && 3 * f.p + 2 < |flatPs|
    requires 0 <= f.n && 3 * f.n + 2 < |flatNs|
    requires 0 <= f.t && 2 * f.t + 1 < |flatTs|
  {
    Vertex(Vec3(flatPs[3 * f.p], flatPs[3 * f.p + 1], flatPs[3 * f.p + 2]),
           Vec3(flatNs[3 * f.n], flatNs[3 * f.n + 1], flatNs[3 * f.n + 2]),
           Vec2(flatTs[2 * f.t], flatTs[2 * f.t + 1]))
  }

  /**
   * After construct, every corner of a triangle is the position triple, normal
   * triple and texture-coordinate pair of the flat arrays that its face record
   * points to.
   */
  lemma TriangleFromFlat<T>(m: Mesh<T>, flatPs: seq<T>, flatNs: seq<T>, flatTs: seq<T>, face: int)
    requires GroupedTriples(flatPs, m.ps) && GroupedTriples(flatNs, m.ns) && GroupedPairs(flatTs, m.ts)
    requires 0 <= face && 3 * face + 2 < |m.fs|
    requires m.CornerInRange(m.fs[3 * face]) && m.CornerInRange(m.fs[3 * face + 1]) && m.CornerInRange(m.fs[3 * face + 2])
    ensures forall j :: 0 <= j < 3 ==>
      CornerOf(m.TriangleAt(face), j) == FlatVertex(flatPs, flatNs, flatTs, m.fs[3 * face + j])
  {
    forall j | 0 <= j < 3
      ensures CornerOf(m.TriangleAt(face), j) == FlatVertex(flatPs, flatNs, flatTs, m.fs[3 * face + j])
    {
      var f := m.fs[3 * face + j];
      assert m.CornerInRange(f);
      assert m.ps[f.p] == Vec3(flatPs[3 * f.p], flatPs[3 * f.p + 1], flatPs[3 * f.p + 2]);
      assert m.ns[f.n] == Vec3(flatNs[3 * f.n], flatNs[3 * f.n + 1], flatNs[3 * f.n + 2]);
      assert m.ts[f.t] == Vec2(flatTs[2 * f.t], flatTs[2 * f.t + 1]);
    }
  }

  /** Scenario: one triangle built from flat arrays. */
  method OneTriangleScenario()
  {
    var m := new Mesh<int>();
    var flat, fp, zero := [0, 0, 0, 1, 0, 0, 0, 1, 0], [0, 1, 2], [0, 0, 0];
    var ok := m.Construct(flat, [0, 0, 1], [0, 0], fp, zero, zero);
    assert m.ps[..0] == [] && m.ps == m.ps[0..];
    assert |m.ps| == 3 && m.ps[1] == Vec3(1, 0, 0);
    assert |m.fs| == 3;
    assert fp[0] == 0 && fp[1] == 1 && fp[2] == 2 && zero[0] == 0 && zero[1] == 0 && zero[2] == 0;
    assert m.fs[0] == FaceIndex(0, 0, 0) && m.fs[1] == FaceIndex(1, 0, 0) && m.fs[2] == FaceIndex(2, 0, 0);
    assert m.NumTriangles() == 1;
    var tris := m.ForeachTriangle();
    assert |tris| == 1 && tris[0].1.p2.p == Vec3(1, 0, 0);
  }
}
