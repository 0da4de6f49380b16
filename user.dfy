/**
 * The default user context: the root of the component tree. It owns three
 * children, the assets, the scene and the renderer, reachable as `$.assets`,
 * `$.scene` and `$.renderer`.
 */
module UserCtx {
  import opened Wrappers
  import opened Locator
  import opened Components

  /** What the user context's underlying(name) exposes: its non-null slots by name. */
  function Slots(assets: Component?, scene: Component?, renderer: Component?): (m: map<string, Component>)
    ensures forall n :: n in m <==>
      (n == "assets" && assets != null) || (n == "scene" && scene != null) || (n == "renderer" && renderer != null)
    ensures assets != null ==> m["assets"] == assets
    ensures scene != null ==> m["scene"] == scene
    ensures renderer != null ==> m["renderer"] == renderer
  {
    var m0: map<string, Component> := map[];
    var m1 := if assets != null then m0["assets" := assets] else m0;
    var m2 := if scene != null then m1["scene" := scene] else m1;
    if renderer != null then m2["renderer" := renderer] else m2
  }

  /** One slot of reset: create the successor, then release the instance it replaces. */
  method Replace(ctx: ComponentContext, key: string, loc: string, prev: Component?) returns (p: Component)
    requires KeyGen(key) in ctx.funcMap
    modifies ctx`released
    ensures fresh(p) && p.key == key && p.loc == loc
    ensures p.createFunc == Fn(ctx.funcMap[key].create) && p.releaseFunc == ctx.funcMap[key].release
    ensures ctx.released == old(ctx.released) + ReleaseOf(prev)
  {
    var c := ctx.Create(key, loc);
    p := c;
    if prev != null {
      ctx.Delete(prev);
    }
  }

  class UserContext {
    /** The Component part of the user context (key, locator, exposed children). */
    const base: Component
    var assets: Component?
    var scene: Component?
    var renderer: Component?

    /** The exposed children are exactly the owned slots. */
    ghost predicate Valid()
      reads this, base
    {
      base.children == Slots(assets, scene, renderer)
    }

    /**
     * UserContext_Default(): the new context registers itself as the root. In the
     * source, createComp stamps the key "user::default" and create<T> stamps the
     * locator only after this constructor has run; the model stamps both here,
     * with `loc` the locator create<T> gives (`$` when made by ContextInstance::init).
     */
    constructor (ctx: ComponentContext, loc: string)
      modifies ctx`root
      ensures Valid() && fresh(base)
      ensures ctx.root == base
      ensures base.key == "user::default" && base.loc == loc
      ensures assets == null && scene == null && renderer == null
    {
      var b := new Component();
      b.key := "user::default";
      b.loc := loc;
      base := b;
      assets, scene, renderer := null, null, null;
      new;
      ctx.RegisterRootComp(base);
    }

    /** underlying: dispatch on the three slot names; any other name has no child. */
    function Underlying(name: string): (c: Component?)
      reads this
      ensures c != null <==> name in Slots(assets, scene, renderer)
      ensures c != null ==> c == Slots(assets, scene, renderer)[name]
    {
      if name == "assets" then assets
      else if name == "scene" then scene
      else if name == "renderer" then renderer
      else null
    }

    /**
     * foreachUnderlying: visit assets, scene and renderer, in that order, as owned
     * references. The visitor cannot re-bind an owned slot, so all three keep
     * their targets.
     */
    method ForeachUnderlying(visitor: (Component?, bool) -> Component?) returns (visits: seq<Visit>)
      requires Valid()
      modifies this`assets, this`scene, this`renderer
      ensures Valid()
      ensures assets == old(assets) && scene == old(scene) && renderer == old(renderer)
      ensures |visits| == 3
      ensures forall k :: 0 <= k < 3 ==> !visits[k].weak
      ensures visits[0].target == Underlying("assets")
      ensures visits[1].target == Underlying("scene")
      ensures visits[2].target == Underlying("renderer")
    {
      visits := [Visit(assets, false), Visit(scene, false), Visit(renderer, false)];
      assets := VisitUnique(visitor, assets);
      scene := VisitUnique(visitor, scene);
      renderer := VisitUnique(visitor, renderer);
    }

    /**
     * reset: fresh assets at makeLoc("assets") and scene at makeLoc("scene"), no
     * renderer. Each replaced instance is released after its successor is made.
     * The source asserts that both default implementations are registered.
     */
    method Reset(ctx: ComponentContext)
      requires Valid()
      requires "assets::default" in ctx.funcMap && "scene::default" in ctx.funcMap
      modifies this, base, ctx`released
      ensures Valid()
      ensures assets != null && fresh(assets) && assets.key == "assets::default"
      ensures assets.loc == MakeLoc(base.loc, "assets")
      ensures scene != null && fresh(scene) && scene.key == "scene::default"
      ensures scene.loc == MakeLoc(base.loc, "scene")
      ensures assets.createFunc == Fn(ctx.funcMap["assets::default"].create)
      ensures assets.releaseFunc == ctx.funcMap["assets::default"].release
      ensures scene.createFunc == Fn(ctx.funcMap["scene::default"].create)
      ensures scene.releaseFunc == ctx.funcMap["scene::default"].release
      ensures renderer == null
      ensures base.key == old(base.key) && base.loc == old(base.loc)
      ensures base.createFunc == old(base.createFunc) && base.releaseFunc == old(base.releaseFunc)
      ensures ctx.released == old(ctx.released) + ReleaseOf(old(assets)) + ReleaseOf(old(scene)) + ReleaseOf(old(renderer))
    {
      var oldAssets, oldScene, oldRenderer := assets, scene, renderer;
      assets := Replace(ctx, "assets::default", MakeLoc(base.loc, "assets"), oldAssets);
      scene := Replace(ctx, "scene::default", MakeLoc(base.loc, "scene"), oldScene);
      renderer := null;
      if oldRenderer != null {
        ctx.Delete(oldRenderer);
      }
      base.children := Slots(assets, scene, renderer);
    }

    /**
     * construct: the subsystem initialisations (exception, logger, parallel,
     * progress, debugio, objloader) then reset; it always reports success.
     */
    method Construct(ctx: ComponentContext) returns (ok: bool)
      requires Valid()
      requires "assets::default" in ctx.funcMap && "scene::default" in ctx.funcMap
      modifies this, base, ctx`released
      ensures ok && Valid()
      ensures assets != null && fresh(assets) && assets.key == "assets::default"
      ensures assets.loc == MakeLoc(base.loc, "assets")
      ensures scene != null && fresh(scene) && scene.key == "scene::default"
      ensures scene.loc == MakeLoc(base.loc, "scene")
      ensures assets.createFunc == Fn(ctx.funcMap["assets::default"].create)
      ensures assets.releaseFunc == ctx.funcMap["assets::default"].release
      ensures scene.createFunc == Fn(ctx.funcMap["scene::default"].create)
      ensures scene.releaseFunc == ctx.funcMap["scene::default"].release
      ensures renderer == null
      ensures base.key == old(base.key) && base.loc == old(base.loc)
      ensures base.createFunc == old(base.createFunc) && base.releaseFunc == old(base.releaseFunc)
      ensures ctx.released == old(ctx.released) + ReleaseOf(old(assets)) + ReleaseOf(old(scene)) + ReleaseOf(old(renderer))
    {
      Reset(ctx);
      return true;
    }

    /**
     * renderer(name, prop): replace the renderer by a new one at makeLoc("renderer");
     * an error when creation or construction fails, leaving no renderer.
     */
    method SetRenderer(ctx: ComponentContext, rendererName: string, constructs: bool)
      returns (res: Outcome<()>, ghost rejected: seq<Release>)
      requires Valid()
      modifies this`renderer, base, ctx`released
      ensures Valid()
      ensures res.Err? <==> renderer == null
      ensures renderer == null <==> rendererName !in ctx.funcMap || !constructs
      ensures renderer != null ==> fresh(renderer) && renderer.key == rendererName
      ensures renderer != null ==> renderer.loc == MakeLoc(base.loc, "renderer")
      ensures renderer != null ==>
        renderer.createFunc == Fn(ctx.funcMap[rendererName].create) && renderer.releaseFunc == ctx.funcMap[rendererName].release
      ensures assets == old(assets) && scene == old(scene)
      ensures base.key == old(base.key) && base.loc == old(base.loc)
      ensures base.createFunc == old(base.createFunc) && base.releaseFunc == old(base.releaseFunc)
      ensures |ctx.released| >= |old(ctx.released)| + |ReleaseOf(old(renderer))|
      ensures ctx.released[..|old(ctx.released)|] == old(ctx.released)
      ensures ctx.released[|ctx.released| - |ReleaseOf(old(renderer))|..] == ReleaseOf(old(renderer))
      ensures ctx.released == old(ctx.released) + rejected + ReleaseOf(old(renderer))
      ensures RejectReleases(ctx.funcMap, rendererName, constructs, rejected)
      ensures forall r :: r in rejected ==> fresh(r.target)
    {
      var oldRenderer := renderer;
      ghost var rel := ReleaseOf(oldRenderer);
      ghost var before := ctx.released;
      var r := ctx.CreateWithProp(rendererName, MakeLoc(base.loc, "renderer"), constructs);
      ghost var mid := ctx.released;
      rejected := mid[|before|..];
      assert mid == before + rejected;
      renderer := r;
      if oldRenderer != null {
        ctx.Delete(oldRenderer);
      }
      assert ctx.released == mid + rel;
      base.children := Slots(assets, scene, renderer);
      if renderer == null {
        return Err("Failed to render"), rejected;
      }
      return Ok(()), rejected;
    }

    /**
     * render: an error when the renderer needs a scene and the scene is not
     * renderable. `requiresScene` and `sceneRenderable` are the answers of the
     * renderer and the scene; the source dereferences the renderer unconditionally.
     */
    method Render(requiresScene: bool, sceneRenderable: bool) returns (res: Outcome<()>)
      requires renderer != null
      ensures res.Err? <==> requiresScene && !sceneRenderable
    {
      if requiresScene && !sceneRenderable {
        return Err("Consult log outputs for detailed error messages");
      }
      return Ok(());
    }

    /** save(filmName, outpath): an error when the film locator does not resolve or the film fails to save. */
    method Save(ctx: ComponentContext, filmName: string, saves: bool) returns (res: Outcome<()>)
      ensures res.Err? <==> Lookup(ctx.root, filmName) == null || !saves
    {
      var film := ctx.Get(filmName);
      if film == null {
        return Err("Consult log outputs for detailed error messages");
      }
      if !saves {
        return Err("Consult log outputs for detailed error messages");
      }
      return Ok(());
    }

    /** buffer(filmName): the film found at the locator, or an error when it does not resolve. */
    method Buffer(ctx: ComponentContext, filmName: string) returns (res: Outcome<Component>)
      ensures res.Err? <==> Lookup(ctx.root, filmName) == null
      ensures res.Ok? ==> res.value == Lookup(ctx.root, filmName)
    {
      var film := ctx.Get(filmName);
      if film == null {
        return Err("Consult log outputs for detailed error messages");
      }
      return Ok(film);
    }

    /** serialize: the slots handed to the archive, assets first, then scene, then renderer. */
    method Serialize() returns (saved: seq<Component?>)
      ensures |saved| == 3
      ensures saved[0] == Underlying("assets") && saved[1] == Underlying("scene") && saved[2] == Underlying("renderer")
    {
      saved := [assets, scene, renderer];
    }

    /** deserialize: the slots are read back from the archive in the order serialize wrote them. */
    method Deserialize(loaded: seq<Component?>)
      requires Valid() && |loaded| >= 3
      modifies this`assets, this`scene, this`renderer, base
      ensures Valid()
      ensures assets == loaded[0] && scene == loaded[1] && renderer == loaded[2]
      ensures base.key == old(base.key) && base.loc == old(base.loc)
      ensures base.createFunc == old(base.createFunc) && base.releaseFunc == old(base.releaseFunc)
    {
      assets := loaded[0];
      scene := loaded[1];
      renderer := loaded[2];
      base.children := Slots(assets, scene, renderer);
    }
  }

  /** The root's exposed children agree with the user context's underlying dispatch. */
  lemma UnderlyingAgrees(u: UserContext, name: string)
    requires u.Valid()
    ensures u.base.Underlying(name) == u.Underlying(name)
  {
  }

  /** With the user context as root, get("$.<name>") is underlying(name) for every segment name. */
  lemma LookupSlot(ctx: ComponentContext, u: UserContext, name: string)
    requires u.Valid() && ctx.root == u.base
    requires IsSegment(name)
    ensures Lookup(ctx.root, "$." + name) == u.Underlying(name)
  {
    LookupPath(u.base, [name]);
    assert Join(["$"] + [name]) == "$." + name;
    assert WalkSegs(u.base, [name]) == WalkSegs(u.base.Underlying(name), []);
  }

  /** After reset, the scene is found at its own locator "$.scene" (so weak references to it stay valid). */
  lemma SceneAtItsLocator(ctx: ComponentContext, u: UserContext)
    requires u.Valid() && ctx.root == u.base && u.base.loc == "$"
    requires u.scene != null && u.scene.loc == MakeLoc(u.base.loc, "scene")
    ensures Lookup(ctx.root, u.scene.loc) == u.scene
  {
    LookupSlot(ctx, u, "scene");
  }

  /** Scenario: a root user context after reset resolves `$.scene` to the new scene. */
  method ResetThenResolve(ctx: ComponentContext)
    requires "assets::default" in ctx.funcMap && "scene::default" in ctx.funcMap
    modifies ctx
  {
    var u := new UserContext(ctx, "$");
    u.Reset(ctx);
    LookupSlot(ctx, u, "scene");
    var s := ctx.Get("$.scene");
    assert s == u.scene && s != null;
  }

  // ----------------------------------------------------------------------------
  // Scene-graph calls made by the free function `primitive`.

  /** An opaque 4x4 transform. */
  datatype Mat4 = Mat4(id: nat)

  datatype NodeKind = PrimitiveNode | GroupNode(transform: Option<Mat4>)

  /** A scene node: its kind, child node indices and child models (by locator). */
  datatype SceneNode = SceneNode(kind: NodeKind, children: seq<nat>, models: seq<string>)

  /**
   * The node table of a scene as the user API uses it: createNode appends a node
   * and returns its index, addChild and addChildFromModel append to a node, and
   * node 0 is the root.
   */
  class SceneNodes {
    var nodes: seq<SceneNode>

    constructor ()
      ensures nodes == [SceneNode(GroupNode(None), [], [])]
    {
      nodes := [SceneNode(GroupNode(None), [], [])];
    }

    function RootNode(): nat { 0 }

    method CreateNode(kind: NodeKind) returns (index: nat)
      modifies this
      ensures index == |old(nodes)| && nodes == old(nodes) + [SceneNode(kind, [], [])]
    {
      index := |nodes|;
      nodes := nodes + [SceneNode(kind, [], [])];
    }

    method AddChild(parent: nat, child: nat)
      requires parent < |nodes|
      modifies this
      ensures nodes == old(nodes)[parent := old(nodes)[parent].(children := old(nodes)[parent].children + [child])]
    {
      nodes := nodes[parent := nodes[parent].(children := nodes[parent].children + [child])];
    }

    method AddChildFromModel(parent: nat, modelLoc: string)
      requires parent < |nodes|
      modifies this
      ensures nodes == old(nodes)[parent := old(nodes)[parent].(models := old(nodes)[parent].models + [modelLoc])]
    {
      nodes := nodes[parent := nodes[parent].(models := nodes[parent].models + [modelLoc])];
    }
  }

  /**
   * primitive(transform, prop): one new transform node holding either the model named
   * by prop["model"] or a new primitive node, appended as a child of the root node.
   */
  method Primitive(scene: SceneNodes, transform: Mat4, model: Option<string>) returns (t: nat)
    requires |scene.nodes| > 0
    modifies scene
    ensures t == |old(scene.nodes)|
    ensures |scene.nodes| == |old(scene.nodes)| + (if model.Some? then 1 else 2)
    ensures scene.nodes[0].kind == old(scene.nodes)[0].kind
    ensures scene.nodes[0].children == old(scene.nodes)[0].children + [t]
    ensures scene.nodes[0].models == old(scene.nodes)[0].models
    ensures forall k :: 0 < k < |old(scene.nodes)| ==> scene.nodes[k] == old(scene.nodes)[k]
    ensures model.Some? ==> scene.nodes[t] == SceneNode(GroupNode(Some(transform)), [], [model.value])
    ensures model.None? ==> scene.nodes[t] == SceneNode(GroupNode(Some(transform)), [t + 1], [])
    ensures model.None? ==> scene.nodes[t + 1] == SceneNode(PrimitiveNode, [], [])
  {
    t := scene.CreateNode(GroupNode(Some(transform)));
    if model.Some? {
      scene.AddChildFromModel(t, model.value);
    } else {
      var p := scene.CreateNode(PrimitiveNode);
      scene.AddChild(t, p);
    }
    scene.AddChild(scene.RootNode(), t);
  }
}
