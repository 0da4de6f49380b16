/**
 * The primitive table of the OpenGL example viewer: meshes, materials and
 * primitives held in vectors, materials de-duplicated by name, and named
 * primitives that can be replaced in place. GL meshes and materials are opaque
 * tokens standing for the objects the source allocates.
 */
module GLScenes {
  import opened Wrappers

  datatype GLMesh = GLMesh(id: nat)
  datatype GLMaterial = GLMaterial(id: nat)

  /** A transform: the identity matrix or an opaque one. */
  datatype Mat4 = Identity | Mat4(id: nat)

  /** A primitive: an optional name (empty when unnamed), a transform and mesh/material indices. */
  datatype GLPrimitive = GLPrimitive(name: string, transform: Mat4, mesh: int, material: int)

  class GLScene {
    var meshes: seq<GLMesh>
    var materials: seq<GLMaterial>
    var materialMap: map<string, int>
    var primitives: seq<GLPrimitive>
    var namedPrimitiveMap: map<string, int>

    /** Every index held by a primitive or a name map points into its vector. */
    ghost predicate Valid()
      reads this
    {
      (forall i :: 0 <= i < |primitives| ==> 0 <= primitives[i].mesh < |meshes| && 0 <= primitives[i].material < |materials|) &&
      (forall n :: n in materialMap ==> 0 <= materialMap[n] < |materials|) &&
      (forall n :: n in namedPrimitiveMap ==> 0 <= namedPrimitiveMap[n] < |primitives|)
    }

    constructor ()
      ensures Valid()
      ensures meshes == [] && materials == [] && materialMap == map[] && primitives == [] && namedPrimitiveMap == map[]
    {
      meshes, materials, primitives := [], [], [];
      materialMap, namedPrimitiveMap := map[], map[];
    }

    /** reset: empty every vector and map. */
    method Reset()
      modifies this
      ensures Valid()
      ensures meshes == [] && materials == [] && materialMap == map[] && primitives == [] && namedPrimitiveMap == map[]
    {
      meshes, materials, primitives := [], [], [];
      materialMap, namedPrimitiveMap := map[], map[];
    }

    /**
     * add(transform, mesh, material): one new mesh and one unnamed primitive using it;
     * the material recorded under `materialName` is reused, otherwise `material` is
     * appended and recorded under that name.
     */
    method Add(transform: Mat4, mesh: GLMesh, material: GLMaterial, materialName: string)
      requires Valid()
      modifies this
      ensures Valid()
      ensures meshes == old(meshes) + [mesh]
      ensures namedPrimitiveMap == old(namedPrimitiveMap)
      ensures materialName in old(materialMap) ==>
        materials == old(materials) && materialMap == old(materialMap) &&
        primitives == old(primitives) + [GLPrimitive("", transform, |old(meshes)|, old(materialMap)[materialName])]
      ensures materialName !in old(materialMap) ==>
        materials == old(materials) + [material] && materialMap == old(materialMap)[materialName := |old(materials)|] &&
        primitives == old(primitives) + [GLPrimitive("", transform, |old(meshes)|, |old(materials)|)]
    {
      var meshidx := |meshes|;
      meshes := meshes + [mesh];
      var materialidx;
      if materialName in materialMap {
        materialidx := materialMap[materialName];
      } else {
        materialidx := |materials|;
        materialMap := materialMap[materialName := materialidx];
        materials := materials + [material];
      }
      primitives := primitives + [GLPrimitive("", transform, meshidx, materialidx)];
    }

    /** add(type, color, lineWidth, vs): one new mesh, one new material and an unnamed primitive using both. */
    method AddGeometry(mesh: GLMesh, material: GLMaterial)
      requires Valid()
      modifies this
      ensures Valid()
      ensures meshes == old(meshes) + [mesh] && materials == old(materials) + [material]
      ensures primitives == old(primitives) + [GLPrimitive("", Identity, |old(meshes)|, |old(materials)|)]
      ensures materialMap == old(materialMap) && namedPrimitiveMap == old(namedPrimitiveMap)
    {
      var meshidx := |meshes|;
      var materialidx := |materials|;
      meshes := meshes + [mesh];
      materials := materials + [material];
      primitives := primitives + [GLPrimitive("", Identity, meshidx, materialidx)];
    }

    /**
     * addByName: a new name adds a mesh, a material and a primitive recorded under
     * the name; a known name replaces only that primitive's mesh and material slots.
     * Both branches return the primitive count before the call.
     */
    method AddByName(name: string, mesh: GLMesh, material: GLMaterial) returns (index: int)
      requires Valid()
      modifies this
      ensures Valid()
      ensures index == |old(primitives)|
      ensures materialMap == old(materialMap)
      ensures name in old(namedPrimitiveMap) ==>
        var p := old(primitives)[old(namedPrimitiveMap)[name]];
        primitives == old(primitives) && namedPrimitiveMap == old(namedPrimitiveMap) &&
        meshes == old(meshes)[p.mesh := mesh] && materials == old(materials)[p.material := material]
      ensures name !in old(namedPrimitiveMap) ==>
        meshes == old(meshes) + [mesh] && materials == old(materials) + [material] &&
        namedPrimitiveMap == old(namedPrimitiveMap)[name := index] &&
        primitives == old(primitives) + [GLPrimitive(name, Identity, |old(meshes)|, |old(materials)|)]
    {
      index := |primitives|;
      if name in namedPrimitiveMap {
        var p := primitives[namedPrimitiveMap[name]];
        meshes := meshes[p.mesh := mesh];
        materials := materials[p.material := material];
      } else {
        var meshidx := |meshes|;
        var materialidx := |materials|;
        meshes := meshes + [mesh];
        materials := materials + [material];
        namedPrimitiveMap := namedPrimitiveMap[name := index];
        primitives := primitives + [GLPrimitive(name, Identity, meshidx, materialidx)];
      }
    }

    /** primitiveAt(i): the i-th primitive; out of range is an error (vector::at). */
    function PrimitiveAt(i: int): (r: Outcome<GLPrimitive>)
      reads this
      ensures r.Ok? <==> 0 <= i < |primitives|
      ensures r.Ok? ==> r.value == primitives[i]
    {
      if 0 <= i < |primitives| then Ok(primitives[i]) else Err("out_of_range")
    }

    /** materialAt(i): the i-th material; out of range is an error. */
    function MaterialAt(i: int): (r: Outcome<GLMaterial>)
      reads this
      ensures r.Ok? <==> 0 <= i < |materials|
      ensures r.Ok? ==> r.value == materials[i]
    {
      if 0 <= i < |materials| then Ok(materials[i]) else Err("out_of_range")
    }

    /** primitiveByName: the primitive recorded under `name`; an unknown name is an error. */
    function PrimitiveByName(name: string): (r: Outcome<GLPrimitive>)
      reads this
      ensures Valid() ==> (r.Ok? <==> name in namedPrimitiveMap)
      ensures r.Ok? ==> name in namedPrimitiveMap && r == PrimitiveAt(namedPrimitiveMap[name])
    {
      if name !in namedPrimitiveMap then Err("out_of_range")
      else PrimitiveAt(namedPrimitiveMap[name])
    }

    /** foreachPrimitive: the callback sees every primitive once, in order. */
    method ForeachPrimitive() returns (visited: seq<GLPrimitive>)
      ensures visited == primitives
    {
      visited := [];
      var i := 0;
      while i < |primitives|
        invariant 0 <= i <= |primitives| && visited == primitives[..i]
      {
        visited := visited + [primitives[i]];
        i := i + 1;
      }
    }
  }

  /**
   * In a valid scene every primitive's mesh and material can be fetched, so a
   * draw pass over the primitives never hits an error.
   */
  lemma PrimitivesResolve(s: GLScene, i: int)
    requires s.Valid() && 0 <= i < |s.primitives|
    ensures s.PrimitiveAt(i).Ok? && s.MaterialAt(s.PrimitiveAt(i).value.material).Ok?
  {
  }

  /** Scenario: shared material names, replace-by-name, and the index addByName returns. */
  method SceneScenario()
  {
    var s := new GLScene();
    s.Add(Mat4(1), GLMesh(1), GLMaterial(1), "red");
    s.Add(Mat4(2), GLMesh(2), GLMaterial(2), "red");
    assert |s.materials| == 1 && s.primitives[0].material == s.primitives[1].material == 0;
    var a := s.AddByName("axis", GLMesh(3), GLMaterial(3));
    assert a == 2 && s.namedPrimitiveMap["axis"] == 2;
    var b := s.AddByName("axis", GLMesh(4), GLMaterial(4));
    assert |s.primitives| == 3 && s.meshes[2] == GLMesh(4) && s.materials[1] == GLMaterial(4);
    assert b == 3 && s.PrimitiveAt(b).Err?;
    assert s.PrimitiveByName("axis").Ok? && s.PrimitiveByName("grid").Err?;
    s.Reset();
    assert s.PrimitiveAt(0).Err?;
  }
}
