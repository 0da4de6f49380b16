/**
 * The component runtime: the process-wide registry of factories keyed by string
 * (ComponentContext), component instances, the single root and locator
 * resolution, plugin bookkeeping, and the helpers of the component header
 * (create<T>, ComponentDeleter, updateWeakRef, visit, ContextInstance, RegEntry).
 */
module Components {
  import opened Wrappers
  import opened Locator

  /** A std::function value: empty (Null) or an opaque function identity. */
  datatype FnRef = Null | Fn(id: nat)

  /** CreateAndReleaseFunctions: the factory pair registered under one key. */
  datatype Factory = Factory(create: nat, release: FnRef)

  /** One invocation of a release function on an instance. */
  datatype Release = Release(fn: nat, target: Component)

  /**
   * The release calls create<T>(key, loc, prop) itself makes: one, through the
   * registered release function, when the key is registered with a release
   * function and construct(prop) rejects the new instance; none otherwise.
   */
  ghost predicate RejectReleases(funcMap: map<string, Factory>, key: string, constructs: bool, calls: seq<Release>) {
    if key in funcMap && !constructs && funcMap[key].release.Fn? then
      |calls| == 1 && calls[0].fn == funcMap[key].release.id
    else
      calls == []
  }

  /** A loaded plugin: the shared library opened from `file`. */
  datatype SharedLibrary = SharedLibrary(file: string)

  /** An entry of a plugin directory listing. */
  datatype DirEntry = DirEntry(filename: string, isRegularFile: bool)

  /**
   * A component instance. `children` holds what the instance's `underlying(name)`
   * returns: the named child components it exposes to the locator tree.
   */
  class Component {
    var key: string
    var loc: string
    var createFunc: FnRef
    var releaseFunc: FnRef
    var children: map<string, Component>

    /** Component() = default: every field empty. */
    constructor ()
      ensures key == "" && loc == "" && createFunc == Null && releaseFunc == Null
      ensures children == map[]
    {
      key, loc, createFunc, releaseFunc := "", "", Null, Null;
      children := map[];
    }

    /** underlying(name): the named child, or null when no child has that name. */
    function Underlying(name: string): (c: Component?)
      reads this
      ensures c != null <==> name in children
      ensures c != null ==> c == children[name]
    {
      if name in children then children[name] else null
    }
  }

  /** The release calls ComponentDeleter makes for `p`: one call iff its releaseFunc is set. */
  function ReleaseOf(p: Component?): (calls: seq<Release>)
    reads p
    ensures p == null ==> calls == []
    ensures p != null ==> (|calls| == 1 <==> p.releaseFunc.Fn?)
    ensures p != null && p.releaseFunc.Fn? ==> calls == [Release(p.releaseFunc.id, p)]
    ensures |calls| <= 1
  {
    if p == null || p.releaseFunc == Null then [] else [Release(p.releaseFunc.id, p)]
  }

  /** The loop of `get`: walk `remaining` one splitFirst segment at a time, stopping at null. */
  function Resolve(curr: Component?, remaining: string): (r: Component?)
    reads *
    ensures curr == null ==> r == null
    ensures remaining == "" ==> r == curr
    decreases |remaining|
  {
    if curr == null || remaining == "" then curr
    else
      var (s, r) := SplitFirst(remaining);
      Resolve(curr.Underlying(s), r)
  }

  /** get(locator) from `root`: null without a root, for "" and unless the first segment is `$`. */
  function Lookup(root: Component?, locator: string): (r: Component?)
    reads *
    ensures root == null || locator == "" ==> r == null
    ensures SplitFirst(locator).0 != "$" ==> r == null
    ensures locator == "$" ==> r == root
  {
    if root == null || locator == "" then null
    else
      var (s0, r0) := SplitFirst(locator);
      if s0 != "$" then null else Resolve(root, r0)
  }

  /** Reference walk: follow `underlying` along the list of segment names. */
  function WalkSegs(curr: Component?, segs: seq<string>): Component?
    reads *
    decreases |segs|
  {
    if curr == null || segs == [] then curr else WalkSegs(curr.Underlying(segs[0]), segs[1..])
  }

  /** Resolving a joined path of well-formed segments walks exactly those segments. */
  lemma {:induction false} ResolveJoin(curr: Component?, segs: seq<string>)
    requires forall k :: 0 <= k < |segs| ==> IsSegment(segs[k])
    ensures Resolve(curr, Join(segs)) == WalkSegs(curr, segs)
    decreases |segs|
  {
    if curr != null && |segs| > 0 {
      SplitFirstJoin(segs);
      if |segs| > 1 {
        ResolveJoin(curr.Underlying(segs[0]), segs[1..]);
        assert Join(segs) != "";
      }
    }
  }

  /** get("$.s1.….sn") walks s1 … sn from the root; get("$") is the root itself. */
  lemma LookupPath(root: Component, segs: seq<string>)
    requires forall k :: 0 <= k < |segs| ==> IsSegment(segs[k])
    ensures Lookup(root, Join(["$"] + segs)) == WalkSegs(root, segs)
  {
    var path := ["$"] + segs;
    assert path[1..] == segs;
    SplitFirstJoin(path);
    ResolveJoin(root, segs);
  }

  /** The two-segment case: get("$.a.b") is root.underlying(a).underlying(b), null at the first null. */
  lemma LookupTwoSegments(root: Component, a: string, b: string)
    requires IsSegment(a) && IsSegment(b)
    ensures Lookup(root, "$." + a + "." + b) ==
      (var x := root.Underlying(a); if x == null then null else x.Underlying(b))
  {
    var path := ["$", a, b];
    assert ["$"] + [a, b] == path;
    assert path[1..] == [a, b] && path[1..][1..] == [b];
    assert Join([b]) == b;
    assert Join([a, b]) == a + "." + b;
    assert Join(path) == "$" + "." + (a + "." + b);
    assert "$" + "." + (a + "." + b) == "$." + a + "." + b;
    LookupPath(root, [a, b]);
    var x := root.Underlying(a);
    assert WalkSegs(root, [a, b]) == WalkSegs(x, [b]);
    if x != null {
      assert WalkSegs(x, [b]) == WalkSegs(x.Underlying(b), []);
    }
  }

  /** Whatever `get` finds was addressed by "$" or by a locator starting with "$.". */
  lemma LookupNeedsRootSigil(root: Component?, locator: string)
    requires Lookup(root, locator) != null
    ensures root != null
    ensures locator == "$" || (|locator| >= 2 && locator[..2] == "$.")
  {
    var (s0, r0) := SplitFirst(locator);
    if '.' in locator {
      assert locator == "$" + "." + r0;
      assert locator[..2] == "$.";
    }
  }

  /** create<T> computes its registry key with KeyGen; a non-template type keeps its key. */
  function KeyGen(s: string): (k: string)
    ensures k == s
  {
    s
  }

  /** A character allowed in a plugin name by `^[0-9a-z_]+\.so$`. */
  predicate IsPluginNameChar(c: char) {
    ('0' <= c <= '9') || ('a' <= c <= 'z') || c == '_'
  }

  /** The Linux plugin filename pattern `^[0-9a-z_]+\.so$`. */
  predicate IsPluginFileName(f: string) {
    |f| > 3 && f[|f| - 3..] == ".so" && forall i :: 0 <= i < |f| - 3 ==> IsPluginNameChar(f[i])
  }

  /** path.stem() of a matching filename: the name without its `.so` extension. */
  function PluginStem(f: string): (stem: string)
    requires IsPluginFileName(f)
    ensures stem != "" && '.' !in stem
    ensures stem + ".so" == f
    ensures forall i :: 0 <= i < |stem| ==> IsPluginNameChar(stem[i])
  {
    var stem := f[..|f| - 3];
    assert forall i :: 0 <= i < |stem| ==> stem[i] == f[i];
    assert forall i :: 0 <= i < |stem| ==> stem[i] != '.';
    assert stem + f[|f| - 3..] == f;
    stem
  }

  /** Whether the directory scan attempts to load this entry. */
  predicate IsScanned(e: DirEntry) {
    e.isRegularFile && IsPluginFileName(e.filename)
  }

  /** The plugin names the directory scan passes to loadPlugin, in listing order. */
  function ScanCandidates(entries: seq<DirEntry>): (stems: seq<string>)
    ensures |stems| <= |entries|
    ensures forall e :: e in entries && IsScanned(e) ==> PluginStem(e.filename) in stems
    ensures forall s :: s in stems ==>
      exists e :: e in entries && IsScanned(e) && PluginStem(e.filename) == s
    decreases |entries|
  {
    if entries == [] then []
    else
      var init := entries[..|entries| - 1];
      var last := entries[|entries| - 1];
      assert entries == init + [last];
      ScanCandidates(init) + (if IsScanned(last) then [PluginStem(last.filename)] else [])
  }

  /** The libraries kept after attempting `stems`, given which loads succeed. */
  function LoadedLibraries(stems: seq<string>, opens: string -> bool): (libs: seq<SharedLibrary>)
    ensures |libs| <= |stems|
    ensures forall l :: l in libs ==> exists s :: s in stems && opens(s) && l == SharedLibrary(s + ".so")
    decreases |stems|
  {
    if stems == [] then []
    else
      var init := stems[..|stems| - 1];
      var last := stems[|stems| - 1];
      assert forall s :: s in init ==> s in stems;
      LoadedLibraries(init, opens) + (if opens(last) then [SharedLibrary(last + ".so")] else [])
  }

  /** Every attempted stem whose load succeeds leaves its library in the list; if all succeed, none is missing. */
  lemma {:induction false} LoadedLibrariesComplete(stems: seq<string>, opens: string -> bool)
    ensures forall s :: s in stems && opens(s) ==> SharedLibrary(s + ".so") in LoadedLibraries(stems, opens)
    ensures (forall s :: s in stems ==> opens(s)) ==> |LoadedLibraries(stems, opens)| == |stems|
    decreases |stems|
  {
    if stems != [] {
      var init, last := stems[..|stems| - 1], stems[|stems| - 1];
      assert stems == init + [last];
      assert forall s :: s in init ==> s in stems;
      LoadedLibrariesComplete(init, opens);
    }
  }

  /**
   * The libraries are kept in the order their stems were attempted: those of an
   * earlier run of stems all come before those of a later one.
   */
  lemma {:induction false} LoadedLibrariesAppend(a: seq<string>, b: seq<string>, opens: string -> bool)
    ensures LoadedLibraries(a + b, opens) == LoadedLibraries(a, opens) + LoadedLibraries(b, opens)
    decreases |b|
  {
    if b == [] {
      assert a + b == a;
    } else {
      var init, last := b[..|b| - 1], b[|b| - 1];
      LoadedLibrariesAppend(a, init, opens);
      assert (a + b)[..|a + b| - 1] == a + init;
      assert (a + b)[|a + b| - 1] == last;
    }
  }

  /** One more listing entry adds its stem to the candidates exactly when it is scanned. */
  lemma ScanCandidatesStep(entries: seq<DirEntry>, i: nat)
    requires i < |entries|
    ensures ScanCandidates(entries[..i + 1]) ==
      ScanCandidates(entries[..i]) + (if IsScanned(entries[i]) then [PluginStem(entries[i].filename)] else [])
  {
    assert entries[..i + 1][..i] == entries[..i];
  }

  /** One more attempted stem adds its library exactly when it opens. */
  lemma LoadedLibrariesStep(stems: seq<string>, s: string, opens: string -> bool)
    ensures LoadedLibraries(stems + [s], opens) ==
      LoadedLibraries(stems, opens) + (if opens(s) then [SharedLibrary(s + ".so")] else [])
  {
    assert (stems + [s])[..|stems|] == stems;
  }

  /** The registry: factories by key, loaded plugins and the root of the locator tree. */
  class ComponentContext {
    var funcMap: map<string, Factory>
    var plugins: seq<SharedLibrary>
    var root: Component?
    /** Release-function calls made through ComponentDeleter, oldest first. */
    var released: seq<Release>

    constructor ()
      ensures funcMap == map[] && plugins == [] && root == null && released == []
    {
      funcMap, plugins, root, released := map[], [], null, [];
    }

    /**
     * createComp: null for an unregistered key; otherwise a new instance stamped
     * with the key and the registered create/release pair.
     */
    method CreateComp(key: string) returns (p: Component?)
      ensures p == null <==> key !in funcMap
      ensures p != null ==> fresh(p) && p.key == key && p.loc == "" && p.children == map[]
      ensures p != null ==> p.createFunc == Fn(funcMap[key].create) && p.releaseFunc == funcMap[key].release
    {
      if key !in funcMap {
        return null;
      }
      var f := funcMap[key];
      p := new Component();
      p.key := key;
      p.createFunc := Fn(f.create);
      p.releaseFunc := f.release;
    }

    /** reg: insert or overwrite the entry for `key`; `overriding` is the warning of the source. */
    method Reg(key: string, create: nat, release: FnRef) returns (overriding: bool)
      modifies this`funcMap
      ensures overriding <==> key in old(funcMap)
      ensures funcMap == old(funcMap)[key := Factory(create, release)]
    {
      overriding := key in funcMap;
      funcMap := funcMap[key := Factory(create, release)];
    }

    /** unreg: erase `key`; nothing happens when it is absent. */
    method Unreg(key: string)
      modifies this`funcMap
      ensures funcMap == old(funcMap) - {key}
    {
      funcMap := funcMap - {key};
    }

    /** loadPlugin: keep the library opened from `path.so` iff the platform loader succeeds. */
    method LoadPlugin(path: string, opens: bool) returns (ok: bool)
      modifies this`plugins
      ensures ok == opens
      ensures plugins == old(plugins) + (if opens then [SharedLibrary(path + ".so")] else [])
    {
      if !opens {
        return false;
      }
      plugins := plugins + [SharedLibrary(path + ".so")];
      return true;
    }

    /**
     * loadPluginDirectory: skip a missing directory; otherwise attempt loadPlugin on
     * the stem of every regular file matching the plugin pattern, in listing order,
     * ignoring failures. `opens(stem)` says whether loading that plugin succeeds.
     */
    method LoadPluginDirectory(isDirectory: bool, entries: seq<DirEntry>, opens: string -> bool)
      modifies this`plugins
      ensures !isDirectory ==> plugins == old(plugins)
      ensures isDirectory ==> plugins == old(plugins) + LoadedLibraries(ScanCandidates(entries), opens)
      ensures isDirectory ==> forall e :: e in entries && IsScanned(e) && opens(PluginStem(e.filename)) ==>
        SharedLibrary(PluginStem(e.filename) + ".so") in plugins
    {
      if !isDirectory {
        return;
      }
      var i := 0;
      while i < |entries|
        invariant 0 <= i <= |entries|
        invariant plugins == old(plugins) + LoadedLibraries(ScanCandidates(entries[..i]), opens)
      {
        var e := entries[i];
        ScanCandidatesStep(entries, i);
        if !e.isRegularFile || !IsPluginFileName(e.filename) {
          assert !IsScanned(e);
          assert ScanCandidates(entries[..i + 1]) == ScanCandidates(entries[..i]);
          i := i + 1;
          continue;
        }
        var stem := PluginStem(e.filename);
        var stems := ScanCandidates(entries[..i]);
        LoadedLibrariesStep(stems, stem, opens);
        assert ScanCandidates(entries[..i + 1]) == stems + [stem];
        var _ := LoadPlugin(stem, opens(stem));
        assert plugins == old(plugins) + LoadedLibraries(stems, opens) + (if opens(stem) then [SharedLibrary(stem + ".so")] else []);
        i := i + 1;
      }
      assert entries[..i] == entries;
      LoadedLibrariesComplete(ScanCandidates(entries), opens);
    }

    /** unloadPlugins: every plugin is unloaded and the list is cleared. */
    method UnloadPlugins()
      modifies this`plugins
      ensures plugins == []
    {
      plugins := [];
    }

    /** foreachRegistered: every registered key exactly once (in no particular order). */
    method ForeachRegistered() returns (keys: seq<string>)
      ensures forall k :: k in keys <==> k in funcMap
      ensures forall i, j :: 0 <= i < j < |keys| ==> keys[i] != keys[j]
    {
      keys := [];
      var rest := funcMap.Keys;
      while rest != {}
        invariant rest <= funcMap.Keys
        invariant forall k :: k in keys <==> k in funcMap && k !in rest
        invariant forall i, j :: 0 <= i < j < |keys| ==> keys[i] != keys[j]
        decreases rest
      {
        var k :| k in rest;
        keys := keys + [k];
        rest := rest - {k};
      }
    }

    /** registerRootComp: `p` becomes the root; the previous root is not destroyed. */
    method RegisterRootComp(p: Component?)
      modifies this`root
      ensures root == p
    {
      root := p;
    }

    /**
     * get: resolve `locator` from the root. Null without a root, for the empty
     * locator, when the first segment is not `$`, and when a step finds no child.
     */
    method Get(locator: string) returns (r: Component?)
      ensures r == Lookup(root, locator)
    {
      if root == null || locator == "" {
        return null;
      }
      var (s0, r0) := SplitFirst(locator);
      if s0 != "$" {
        return null;
      }
      var remaining := r0;
      var curr: Component? := root;
      while curr != null && remaining != ""
        invariant Resolve(curr, remaining) == Resolve(root, r0)
        decreases |remaining|
      {
        var (s, r) := SplitFirst(remaining);
        curr := curr.Underlying(s);
        remaining := r;
      }
      return curr;
    }

    /** ComponentDeleter: call the instance's releaseFunc when it is set, else do nothing. */
    method Delete(p: Component)
      modifies this`released
      ensures released == old(released) + ReleaseOf(p)
    {
      if p.releaseFunc.Fn? {
        released := released + [Release(p.releaseFunc.id, p)];
      }
    }

    /** create<T>(key, loc): createComp on KeyGen(key), then set the locator. */
    method Create(key: string, loc: string) returns (p: Component?)
      ensures p == null <==> KeyGen(key) !in funcMap
      ensures p != null ==> fresh(p) && p.key == key && p.loc == loc && p.children == map[]
      ensures p != null ==> p.createFunc == Fn(funcMap[key].create) && p.releaseFunc == funcMap[key].release
    {
      p := CreateComp(KeyGen(key));
      if p != null {
        p.loc := loc;
      }
    }

    /**
     * create<T>(key, loc, prop): as Create, but empty when construct(prop) fails, in
     * which case the new instance is released. `constructs` is construct's verdict.
     */
    method CreateWithProp(key: string, loc: string, constructs: bool) returns (p: Component?)
      modifies this`released
      ensures p == null <==> key !in funcMap || !constructs
      ensures p != null ==> fresh(p) && p.key == key && p.loc == loc && p.children == map[]
      ensures p != null ==> p.createFunc == Fn(funcMap[key].create) && p.releaseFunc == funcMap[key].release
      ensures key in funcMap && !constructs && funcMap[key].release.Fn? ==>
        |released| == |old(released)| + 1 && released[..|old(released)|] == old(released) &&
        released[|old(released)|].fn == funcMap[key].release.id && fresh(released[|old(released)|].target)
      ensures !(key in funcMap && !constructs && funcMap[key].release.Fn?) ==> released == old(released)
      ensures |old(released)| <= |released| && released[..|old(released)|] == old(released)
      ensures RejectReleases(funcMap, key, constructs, released[|old(released)|..])
      ensures forall i :: |old(released)| <= i < |released| ==> fresh(released[i].target)
    {
      var inst := Create(key, loc);
      if inst == null {
        return null;
      }
      if !constructs {
        Delete(inst);
        return null;
      }
      return inst;
    }

    /** updateWeakRef: re-resolve a located pointer through `get`; null or unlocated ones stay. */
    method UpdateWeakRef(p: Component?) returns (q: Component?)
      ensures p == null || p.loc == "" ==> q == p
      ensures p != null && p.loc != "" ==> q == Lookup(root, p.loc)
    {
      if p == null || p.loc == "" {
        return p;
      }
      q := Get(p.loc);
    }
  }

  /** A weak reference passed to a component visitor, or an owned one. */
  datatype Visit = Visit(target: Component?, weak: bool)

  /**
   * visit for a weak pointer: the visitor receives the pointer flagged weak and
   * the pointer it leaves behind is written back, so a weak reference can be
   * re-bound.
   */
  function VisitWeak(visitor: (Component?, bool) -> Component?, p: Component?): (q: Component?)
    ensures q == visitor(p, true)
  {
    visitor(p, true)
  }

  /**
   * visit for an owned pointer: the visitor receives the pointer flagged owned
   * and whatever it does to its copy, the owning pointer keeps its target.
   */
  function VisitUnique(visitor: (Component?, bool) -> Component?, p: Component?): (q: Component?)
    ensures q == p
  {
    var _ := visitor(p, false);
    p
  }

  /** ContextInstance: the singleton owning one context component located at `$`. */
  class ContextInstance {
    var context: Component?

    constructor ()
      ensures context == null
    {
      context := null;
    }

    /** initialized: a context is held. */
    predicate Initialized()
      reads this
      ensures Initialized() <==> context != null
    {
      context != null
    }

    /** get: the held context; throws when uninitialised. */
    method Get() returns (r: Outcome<Component>)
      ensures r.Err? <==> !Initialized()
      ensures r.Ok? ==> r.value == context
    {
      if context == null {
        return Err("Uninitialized subsystem. Possible failure to call *::init() function.");
      }
      return Ok(context);
    }

    /** shutdown: release the held context, if any. */
    method Shutdown(ctx: ComponentContext)
      modifies this`context, ctx`released
      ensures context == null
      ensures ctx.released == old(ctx.released) + ReleaseOf(old(context))
    {
      if context != null {
        ctx.Delete(context);
        context := null;
      }
    }

    /**
     * init: shut down a held context first, then create the new one at locator `$`.
     * Creation or construction failure leaves the singleton uninitialised.
     */
    method Init(ctx: ComponentContext, typ: string, constructs: bool) returns (ghost rejected: seq<Release>)
      modifies this`context, ctx`released
      ensures Initialized() <==> typ in ctx.funcMap && constructs
      ensures context != null ==> fresh(context) && context.key == typ && context.loc == "$"
      ensures context != null ==>
        context.createFunc == Fn(ctx.funcMap[typ].create) && context.releaseFunc == ctx.funcMap[typ].release
      ensures |ctx.released| >= |old(ctx.released)| + |ReleaseOf(old(context))|
      ensures ctx.released[..|old(ctx.released)| + |ReleaseOf(old(context))|] ==
        old(ctx.released) + ReleaseOf(old(context))
      ensures ctx.released == old(ctx.released) + ReleaseOf(old(context)) + rejected
      ensures RejectReleases(ctx.funcMap, typ, constructs, rejected)
      ensures forall r :: r in rejected ==> fresh(r.target)
    {
      if context != null {
        Shutdown(ctx);
      }
      ghost var mid := ctx.released;
      context := ctx.CreateWithProp(typ, "$", constructs);
      rejected := ctx.released[|mid|..];
      assert ctx.released == mid + rejected;
      assert ctx.released[..|mid|] == mid;
    }
  }

  /** RegEntry: registers its key on construction and unregisters it on destruction. */
  class RegEntry {
    const key: string

    constructor (ctx: ComponentContext, key: string, create: nat, release: nat)
      modifies ctx`funcMap
      ensures this.key == KeyGen(key)
      ensures ctx.funcMap == old(ctx.funcMap)[KeyGen(key) := Factory(create, Fn(release))]
    {
      this.key := KeyGen(key);
      new;
      var _ := ctx.Reg(this.key, create, Fn(release));
    }

    /** ~RegEntry */
    method Destroy(ctx: ComponentContext)
      modifies ctx`funcMap
      ensures ctx.funcMap == old(ctx.funcMap) - {key}
    {
      ctx.Unreg(key);
    }
  }

  /** Registering a key twice: the second pair wins and other keys are untouched. */
  method RegisterTwiceScenario(ctx: ComponentContext, k: string, other: string)
    requires k != other
    modifies ctx`funcMap
  {
    var before := ctx.funcMap;
    var first := ctx.Reg(k, 1, Fn(10));
    var second := ctx.Reg(k, 2, Fn(20));
    assert second;
    var p := ctx.CreateComp(k);
    assert p != null && p.key == k && p.createFunc == Fn(2) && p.releaseFunc == Fn(20);
    assert other in ctx.funcMap <==> other in before;
    assert other in before ==> ctx.funcMap[other] == before[other];
    ctx.Unreg(k);
    var q := ctx.CreateComp(k);
    assert q == null;
  }
}
