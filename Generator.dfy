/**
  `BevyModel::generate` of the codegen crate and the `BevyCodegen` builder
  calls it makes: the model becomes an ordered list of code items, namely an
  optional test-harness import, the entry construct chosen by the model's
  kind, one struct per component and one function per system.
 */
module Generator {
  import opened Wrappers
  import opened Model
  import opened CodeScope
  import opened Chain

  function Entries(plugins: seq<PluginRef>): (es: seq<PluginEntry>)
    ensures |es| == |plugins|
    ensures forall i :: 0 <= i < |plugins| ==> es[i] == PluginEntry(plugins[i].name, plugins[i].isGroup)
  {
    seq(|plugins|, i requires 0 <= i < |plugins| => PluginEntry(plugins[i].name, plugins[i].isGroup))
  }

  function Names(systems: seq<SystemSpec>): (ns: seq<string>)
    ensures |ns| == |systems|
    ensures forall i :: 0 <= i < |systems| ==> ns[i] == systems[i].name
  {
    seq(|systems|, i requires 0 <= i < |systems| => systems[i].name)
  }

  /** The suffix chain of a model: its plugins, startup systems and runtime systems. */
  function ModelChain(m: BevyModel): string
  {
    SuffixChain(Entries(m.plugins), Names(m.startupSystems), Names(m.systems))
  }

  /** `fn main` whose only line runs a fresh app with the chain applied. */
  function MainFn(chain: string): Fn
  {
    Fn("main", false, [], None, [], ["App::new()" + chain + ".run();"])
  }

  /** `fn build(&self, app: &mut App)` with the lines `app`, the chain, `;`. */
  function BuildFn(chain: string): Fn
  {
    Fn("build", true, [("app", "&mut App")], None, [], ["app", chain, ";"])
  }

  function PluginTrait(isGroup: bool): string
  {
    if isGroup then "Plugins" else "Plugin"
  }

  /** The function generated for a system. */
  function QueryFn(system: SystemSpec): Fn
  {
    Fn(system.name, false, system.param, Some(system.visibility), system.attributes, [system.content])
  }

  /** The struct generated for a component: its name only, deriving Component. */
  function ComponentItem(c: ComponentSpec): Item
  {
    Struct(c.name, None, ["Component"])
  }

  function ImportItems(kind: BevyType): seq<Item>
  {
    if kind == Example then [Import("bevy_test", "BevyTest")] else []
  }

  function EntryItems(kind: BevyType, chain: string): seq<Item>
  {
    match kind
    case Plugin(name) => [Struct(name, Some("pub"), []), Impl(name, PluginTrait(false), [BuildFn(chain)])]
    case PluginGroup(name) => [Struct(name, Some("pub"), []), Impl(name, PluginTrait(true), [BuildFn(chain)])]
    case _ => [Function(MainFn(chain))]
  }

  function ComponentItems(cs: seq<ComponentSpec>): seq<Item>
  {
    seq(|cs|, i requires 0 <= i < |cs| => ComponentItem(cs[i]))
  }

  function QueryItems(systems: seq<SystemSpec>): seq<Item>
  {
    seq(|systems|, i requires 0 <= i < |systems| => Function(QueryFn(systems[i])))
  }

  lemma ComponentItemsSnoc(cs: seq<ComponentSpec>, i: nat)
    requires i < |cs|
    ensures ComponentItems(cs[..i + 1]) == ComponentItems(cs[..i]) + [ComponentItem(cs[i])]
  {
  }

  lemma QueryItemsSnoc(systems: seq<SystemSpec>, i: nat)
    requires i < |systems|
    ensures QueryItems(systems[..i + 1]) == QueryItems(systems[..i]) + [Function(QueryFn(systems[i]))]
  {
  }

  /** The items `generate` leaves in its scope, in order. */
  function Layout(m: BevyModel): seq<Item>
  {
    Assemble(m.meta.bevyType, ModelChain(m), m.components, m.startupSystems, m.systems)
  }

  /** The layout for a kind and a chain text, with the component and system lists. */
  function Assemble(kind: BevyType, chain: string, components: seq<ComponentSpec>,
                    startup: seq<SystemSpec>, runtime: seq<SystemSpec>): seq<Item>
  {
    Head(kind, chain) + Body(components, startup, runtime)
  }

  /** The import (for an example) and the entry construct. */
  function Head(kind: BevyType, chain: string): seq<Item>
  {
    ImportItems(kind) + EntryItems(kind, chain)
  }

  /** The component structs, then the startup functions, then the runtime functions. */
  function Body(components: seq<ComponentSpec>, startup: seq<SystemSpec>, runtime: seq<SystemSpec>): seq<Item>
  {
    ComponentItems(components) + QueryItems(startup) + QueryItems(runtime)
  }

  /** Number of items before the components: the import (if any) and the entry construct. */
  function HeadLength(kind: BevyType): nat
  {
    (if kind == Example then 1 else 0) + (if kind.Plugin? || kind.PluginGroup? then 2 else 1)
  }

  // The `BevyCodegen` calls on the scope.

  method CreateApp(scope: Scope, content: string)
    modifies scope
    ensures scope.items == old(scope.items) + [Function(MainFn(content))]
  {
    scope.Push(Function(Fn("main", false, [], None, [], ["App::new()" + content + ".run();"])));
  }

  method CreatePlugin(scope: Scope, name: string, isGroup: bool, content: string)
    modifies scope
    ensures scope.items == old(scope.items) + [Struct(name, Some("pub"), []), Impl(name, PluginTrait(isGroup), [BuildFn(content)])]
  {
    scope.Push(Struct(name, Some("pub"), []));
    var traitName := if isGroup then "Plugins" else "Plugin";
    var build := Fn("build", true, [("app", "&mut App")], None, [], ["app", content, ";"]);
    scope.Push(Impl(name, traitName, [build]));
  }

  /**
    A system becomes a function with the system's name, its parameters in
    order, its visibility, its attributes in order and one body line: the
    system's content verbatim.
   */
  method CreateQuery(scope: Scope, system: SystemSpec)
    modifies scope
    ensures scope.items == old(scope.items) + [Function(QueryFn(system))]
  {
    var fun := Fn(system.name, false, [], None, [], []);
    for i := 0 to |system.param|
      invariant fun == Fn(system.name, false, system.param[..i], None, [], [])
    {
      fun := fun.(params := fun.params + [system.param[i]]);
      assert system.param[..i + 1] == system.param[..i] + [system.param[i]];
    }
    assert system.param[..|system.param|] == system.param;
    fun := fun.(vis := Some(system.visibility));
    for j := 0 to |system.attributes|
      invariant fun == Fn(system.name, false, system.param, Some(system.visibility), system.attributes[..j], [])
    {
      fun := fun.(attrs := fun.attrs + [system.attributes[j]]);
      assert system.attributes[..j + 1] == system.attributes[..j] + [system.attributes[j]];
    }
    assert system.attributes[..|system.attributes|] == system.attributes;
    fun := fun.(lines := [system.content]);
    scope.Push(Function(fun));
  }

  method CreateComponent(scope: Scope, name: string)
    modifies scope
    ensures scope.items == old(scope.items) + [Struct(name, None, ["Component"])]
  {
    scope.Push(Struct(name, None, ["Component"]));
  }

  /** The entry construct for the model's kind: a plugin (group) or `fn main`. */
  method CreateEntry(scope: Scope, kind: BevyType, chain: string)
    modifies scope
    ensures scope.items == old(scope.items) + EntryItems(kind, chain)
  {
    match kind {
      case Plugin(name) => CreatePlugin(scope, name, false, chain);
      case PluginGroup(name) => CreatePlugin(scope, name, true, chain);
      case _ => CreateApp(scope, chain);
    }
  }

  /** `BevyModel::generate`: never fails, and yields exactly the items of Layout. */
  method Generate(m: BevyModel) returns (items: seq<Item>)
    ensures items == Layout(m)
  {
    var scope := new Scope();
    if m.meta.bevyType == Example {
      scope.Push(Import("bevy_test", "BevyTest"));
    }
    var chain := BuildSuffixChain(Entries(m.plugins), Names(m.startupSystems), Names(m.systems));
    CreateEntry(scope, m.meta.bevyType, chain);
    ghost var head := scope.items;
    assert head == Head(m.meta.bevyType, chain);
    for i := 0 to |m.components|
      invariant scope.items == head + ComponentItems(m.components[..i])
    {
      CreateComponent(scope, m.components[i].name);
      ComponentItemsSnoc(m.components, i);
    }
    assert m.components[..|m.components|] == m.components;
    ghost var withComponents := scope.items;
    for j := 0 to |m.startupSystems|
      invariant scope.items == withComponents + QueryItems(m.startupSystems[..j])
    {
      CreateQuery(scope, m.startupSystems[j]);
      QueryItemsSnoc(m.startupSystems, j);
    }
    assert m.startupSystems[..|m.startupSystems|] == m.startupSystems;
    ghost var withStartup := scope.items;
    for k := 0 to |m.systems|
      invariant scope.items == withStartup + QueryItems(m.systems[..k])
    {
      CreateQuery(scope, m.systems[k]);
      QueryItemsSnoc(m.systems, k);
    }
    assert m.systems[..|m.systems|] == m.systems;
    items := scope.items;
    Regroup(head, ComponentItems(m.components), QueryItems(m.startupSystems), QueryItems(m.systems));
  }

  // Properties of the generated layout.

  lemma HeadSize(kind: BevyType, chain: string)
    ensures |Head(kind, chain)| == HeadLength(kind)
  {
  }

  lemma Regroup<T>(h: seq<T>, a: seq<T>, b: seq<T>, c: seq<T>)
    ensures h + a + b + c == h + (a + b + c)
  {
  }

  /** Items inside a prefix. */
  lemma Ahead<T>(a: seq<T>, b: seq<T>)
    ensures forall i :: 0 <= i < |a| ==> (a + b)[i] == a[i]
  {
  }

  /** The body: component structs, then startup functions, then runtime functions. */
  lemma BodyRegions(components: seq<ComponentSpec>, startup: seq<SystemSpec>, runtime: seq<SystemSpec>)
    ensures var b := Body(components, startup, runtime);
      && |b| == |components| + |startup| + |runtime|
      && (forall i :: 0 <= i < |components| ==> b[i] == ComponentItem(components[i]))
      && (forall j :: 0 <= j < |startup| ==> b[|components| + j] == Function(QueryFn(startup[j])))
      && (forall k :: 0 <= k < |runtime| ==> b[|components| + |startup| + k] == Function(QueryFn(runtime[k])))
  {
  }

  /**
    After the import and the entry construct come one Component struct per
    component (its name only, in list order), then one function per startup
    system, then one per runtime system, each in list order; nothing else.
   */
  lemma AssembleRegions(kind: BevyType, chain: string, components: seq<ComponentSpec>,
                        startup: seq<SystemSpec>, runtime: seq<SystemSpec>)
    ensures var l := Assemble(kind, chain, components, startup, runtime);
      && |l| == HeadLength(kind) + |components| + |startup| + |runtime|
      && (forall i :: 0 <= i < |components| ==>
            l[HeadLength(kind) + i] == Struct(components[i].name, None, ["Component"]))
      && (forall j :: 0 <= j < |startup| ==>
            l[HeadLength(kind) + |components| + j] == Function(QueryFn(startup[j])))
      && (forall k :: 0 <= k < |runtime| ==>
            l[HeadLength(kind) + |components| + |startup| + k] == Function(QueryFn(runtime[k])))
  {
    HeadSize(kind, chain);
    BodyRegions(components, startup, runtime);
    forall i | 0 <= i < |components|
      ensures Assemble(kind, chain, components, startup, runtime)[HeadLength(kind) + i]
              == Struct(components[i].name, None, ["Component"])
    {
      AssembleAt(kind, chain, components, startup, runtime, i);
    }
    forall j | 0 <= j < |startup|
      ensures Assemble(kind, chain, components, startup, runtime)[HeadLength(kind) + |components| + j]
              == Function(QueryFn(startup[j]))
    {
      AssembleAt(kind, chain, components, startup, runtime, |components| + j);
    }
    forall k | 0 <= k < |runtime|
      ensures Assemble(kind, chain, components, startup, runtime)[HeadLength(kind) + |components| + |startup| + k]
              == Function(QueryFn(runtime[k]))
    {
      AssembleAt(kind, chain, components, startup, runtime, |components| + |startup| + k);
    }
  }

  /** The body's item at `i` sits at `i` past the head. */
  lemma AssembleAt(kind: BevyType, chain: string, components: seq<ComponentSpec>,
                   startup: seq<SystemSpec>, runtime: seq<SystemSpec>, i: nat)
    requires i < |Body(components, startup, runtime)|
    ensures HeadLength(kind) + i < |Assemble(kind, chain, components, startup, runtime)|
    ensures Assemble(kind, chain, components, startup, runtime)[HeadLength(kind) + i] == Body(components, startup, runtime)[i]
  {
    HeadSize(kind, chain);
  }

  lemma LayoutRegions(m: BevyModel)
    ensures |Layout(m)| == HeadLength(m.meta.bevyType) + |m.components| + |m.startupSystems| + |m.systems|
    ensures forall i :: 0 <= i < |m.components| ==>
      Layout(m)[HeadLength(m.meta.bevyType) + i] == Struct(m.components[i].name, None, ["Component"])
    ensures forall j :: 0 <= j < |m.startupSystems| ==>
      Layout(m)[HeadLength(m.meta.bevyType) + |m.components| + j] == Function(QueryFn(m.startupSystems[j]))
    ensures forall k :: 0 <= k < |m.systems| ==>
      Layout(m)[HeadLength(m.meta.bevyType) + |m.components| + |m.startupSystems| + k] == Function(QueryFn(m.systems[k]))
  {
    AssembleRegions(m.meta.bevyType, ModelChain(m), m.components, m.startupSystems, m.systems);
  }

  /**
    A system's function carries the system's parameters, visibility and
    attributes unchanged and exactly one body line, its content verbatim.
   */
  lemma QueryFnFaithful(system: SystemSpec)
    ensures var f := QueryFn(system);
      && f.name == system.name && !f.selfRef
      && f.params == system.param
      && f.vis == Some(system.visibility)
      && f.attrs == system.attributes
      && f.lines == [system.content]
  {
  }

  /** Only an Example imports the test harness, and that import is the first item. */
  lemma ImportOnlyForExample(m: BevyModel)
    ensures forall i :: 0 <= i < |Layout(m)| ==>
      (Layout(m)[i].Import? <==> i == 0 && m.meta.bevyType == Example)
    ensures m.meta.bevyType == Example ==> Layout(m)[0] == Import("bevy_test", "BevyTest")
  {
    LayoutRegions(m);
  }

  /**
    App and Example get one entry item, `fn main`, whose single line is
    `App::new()`, the chain and `.run();`.
   */
  lemma AppEntry(m: BevyModel)
    requires m.meta.bevyType == App || m.meta.bevyType == Example
    ensures var at := if m.meta.bevyType == Example then 1 else 0;
      && Layout(m)[at] == Function(Fn("main", false, [], None, [], ["App::new()" + ModelChain(m) + ".run();"]))
      && HeadLength(m.meta.bevyType) == at + 1
  {
    var head := Head(m.meta.bevyType, ModelChain(m));
    Ahead(head, Body(m.components, m.startupSystems, m.systems));
    assert head[|head| - 1] == Function(MainFn(ModelChain(m)));
  }

  /**
    Plugin(name) and PluginGroup(name) get a public struct `name` and an
    impl of Plugin (or Plugins) for `name` whose `build` has the lines
    `app`, the chain, `;`.
   */
  lemma PluginEntryItems(m: BevyModel)
    requires m.meta.bevyType.Plugin? || m.meta.bevyType.PluginGroup?
    ensures var name := m.meta.bevyType.name;
      && Layout(m)[0] == Struct(name, Some("pub"), [])
      && Layout(m)[1] == Impl(name, if m.meta.bevyType.PluginGroup? then "Plugins" else "Plugin",
                              [Fn("build", true, [("app", "&mut App")], None, [], ["app", ModelChain(m), ";"])])
      && HeadLength(m.meta.bevyType) == 2
  {
    var kind := m.meta.bevyType;
    var head := Head(kind, ModelChain(m));
    Ahead(head, Body(m.components, m.startupSystems, m.systems));
    assert head == [Struct(kind.name, Some("pub"), []), Impl(kind.name, PluginTrait(kind.PluginGroup?), [BuildFn(ModelChain(m))])];
  }

  /** A model with nothing in it generates only `fn main() { App::new().run(); }`. */
  lemma EmptyAppModel()
    ensures Layout(DefaultModel()) == [Function(Fn("main", false, [], None, [], ["App::new().run();"]))]
  {
    var m := DefaultModel();
    assert Entries([]) == [] && Names([]) == [];
    assert SuffixChunks([], [], []) == [];
    assert ModelChain(m) == "";
    assert "App::new()" + "" + ".run();" == "App::new().run();";
    assert EntryItems(App, "") == [Function(Fn("main", false, [], None, [], ["App::new().run();"]))];
    assert ComponentItems([]) == [] && QueryItems([]) == [];
  }

  /**
    Plugin("Foo") with one startup system `setup` (no parameters, body
    `call();`) gives the struct Foo, its Plugin impl whose build chains
    `.add_startup_system(setup)`, and the function setup.
   */
  lemma FooPluginScenario(vis: string)
    ensures var m := DefaultModel().(
                meta := Meta("foo", Plugin("Foo")),
                startupSystems := [SystemSpec("setup", [], "call();", vis, [])]);
      Layout(m) == [
        Struct("Foo", Some("pub"), []),
        Impl("Foo", "Plugin", [Fn("build", true, [("app", "&mut App")], None, [], ["app", ".add_startup_system(setup)", ";"])]),
        Function(Fn("setup", false, [], Some(vis), [], ["call();"]))]
  {
    var m := DefaultModel().(
                meta := Meta("foo", Plugin("Foo")),
                startupSystems := [SystemSpec("setup", [], "call();", vis, [])]);
    var setup := SystemSpec("setup", [], "call();", vis, []);
    assert Entries([]) == [] && Names([]) == [] && Names([setup]) == ["setup"];
    var cs := SuffixChunks([], ["setup"], []);
    assert cs == [AddStartupSystem("setup")];
    RenderOne(AddStartupSystem("setup"));
    assert ModelChain(m) == ".add_startup_system(setup)";
    assert ComponentItems([]) == [] && QueryItems([]) == [];
    assert QueryItems([setup]) == [Function(Fn("setup", false, [], Some(vis), [], ["call();"]))];
  }
}
