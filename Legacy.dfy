/**
  The earlier generator (the root crate): its own model records, its
  `generate` with the `BevyCodegen` calls it makes, and the `Display` listing
  of a model. It builds the same suffix chain as the codegen crate, but keeps
  the prelude import and `#[bevy_main]` in the scope, and its system
  functions carry no visibility and no attributes.
 */
module Legacy {
  import opened Wrappers
  import opened Text
  import opened Model
  import opened CodeScope
  import Chain
  import opened Generator

  /** A system: its name, its (name, type) parameters and its body text. */
  datatype LegacySystem = LegacySystem(name: string, param: seq<(string, string)>, content: string)

  datatype LegacyComponent = LegacyComponent(name: string)

  datatype LegacyPlugin = LegacyPlugin(name: string, isGroup: bool)

  datatype LegacyModel = LegacyModel(
    plugins: seq<LegacyPlugin>,
    components: seq<LegacyComponent>,
    startupSystems: seq<LegacySystem>,
    systems: seq<LegacySystem>,
    bevySettings: Settings,
    meta: Meta,
    examples: seq<LegacyModel>)

  /** The value `BevyModel::default()` gives in the earlier crate. */
  function LegacyDefault(): LegacyModel
  {
    LegacyModel([], [], [], [], Settings([], []), DefaultMeta(), [])
  }

  // The generated items.

  /** The codegen crate's plugin records for the earlier ones: the same names and group flags, no dependencies. */
  function UpgradePlugins(plugins: seq<LegacyPlugin>): (ps: seq<PluginRef>)
    ensures |ps| == |plugins|
    ensures forall i :: 0 <= i < |plugins| ==> ps[i] == PluginRef(plugins[i].name, plugins[i].isGroup, [])
  {
    seq(|plugins|, i requires 0 <= i < |plugins| => PluginRef(plugins[i].name, plugins[i].isGroup, []))
  }

  /** The codegen crate's system records for the earlier ones: private, without attributes. */
  function UpgradeSystems(systems: seq<LegacySystem>): (ss: seq<SystemSpec>)
    ensures |ss| == |systems|
    ensures forall i :: 0 <= i < |systems| ==>
      ss[i] == SystemSpec(systems[i].name, systems[i].param, systems[i].content, "", [])
  {
    seq(|systems|, i requires 0 <= i < |systems| =>
      SystemSpec(systems[i].name, systems[i].param, systems[i].content, "", []))
  }

  /** The earlier chain reads the plugins as the codegen crate does. */
  function PluginEntries(plugins: seq<LegacyPlugin>): (es: seq<Chain.PluginEntry>)
    ensures |es| == |plugins|
    ensures forall i :: 0 <= i < |plugins| ==> es[i] == Chain.PluginEntry(plugins[i].name, plugins[i].isGroup)
  {
    Entries(UpgradePlugins(plugins))
  }

  /** The earlier chain and listing read the system names as the codegen crate does. */
  function SystemNames(systems: seq<LegacySystem>): (ns: seq<string>)
    ensures |ns| == |systems|
    ensures forall i :: 0 <= i < |systems| ==> ns[i] == systems[i].name
  {
    Names(UpgradeSystems(systems))
  }

  function LegacyChain(m: LegacyModel): string
  {
    Chain.SuffixChain(PluginEntries(m.plugins), SystemNames(m.startupSystems), SystemNames(m.systems))
  }

  /** The function generated for a system: no visibility, no attributes, the content as its one line. */
  function LegacyQueryFn(system: LegacySystem): Fn
  {
    Fn(system.name, false, system.param, None, [], [system.content])
  }

  /** An application or example gets the raw `#[bevy_main]` line before `fn main`. */
  function LegacyEntryItems(kind: BevyType, chain: string): seq<Item>
  {
    if kind == App || kind == Example then [Raw("#[bevy_main]")] + EntryItems(kind, chain)
    else EntryItems(kind, chain)
  }

  /** The prelude import, the test-harness import of an example, and the entry construct. */
  function LegacyHead(kind: BevyType, chain: string): seq<Item>
  {
    [Import("bevy::prelude", "*")] + ImportItems(kind) + LegacyEntryItems(kind, chain)
  }

  function LegacyComponentItems(cs: seq<LegacyComponent>): seq<Item>
  {
    seq(|cs|, i requires 0 <= i < |cs| => Struct(cs[i].name, None, ["Component"]))
  }

  function LegacyQueryItems(systems: seq<LegacySystem>): seq<Item>
  {
    seq(|systems|, i requires 0 <= i < |systems| => Function(LegacyQueryFn(systems[i])))
  }

  function LegacyBody(components: seq<LegacyComponent>, startup: seq<LegacySystem>, runtime: seq<LegacySystem>): seq<Item>
  {
    LegacyComponentItems(components) + LegacyQueryItems(startup) + LegacyQueryItems(runtime)
  }

  /** The items the earlier `generate` leaves in its scope, in order. */
  function LegacyLayout(m: LegacyModel): seq<Item>
  {
    LegacyAssemble(m.meta.bevyType, LegacyChain(m), m.components, m.startupSystems, m.systems)
  }

  /** The earlier layout for a kind and a chain text, with the component and system lists. */
  function LegacyAssemble(kind: BevyType, chain: string, components: seq<LegacyComponent>,
                          startup: seq<LegacySystem>, runtime: seq<LegacySystem>): seq<Item>
  {
    LegacyHead(kind, chain) + LegacyBody(components, startup, runtime)
  }

  /** Items before the components: the prelude, the example import if any, and two entry items. */
  function LegacyHeadLength(kind: BevyType): nat
  {
    if kind == Example then 4 else 3
  }

  lemma LegacyComponentItemsSnoc(cs: seq<LegacyComponent>, i: nat)
    requires i < |cs|
    ensures LegacyComponentItems(cs[..i + 1]) == LegacyComponentItems(cs[..i]) + [Struct(cs[i].name, None, ["Component"])]
  {
  }

  lemma LegacyQueryItemsSnoc(systems: seq<LegacySystem>, i: nat)
    requires i < |systems|
    ensures LegacyQueryItems(systems[..i + 1]) == LegacyQueryItems(systems[..i]) + [Function(LegacyQueryFn(systems[i]))]
  {
  }

  // The `BevyCodegen` calls of the earlier crate that differ from the codegen crate's.

  /** `#[bevy_main]` as a raw line, then `fn main` running the app with the chain. */
  method LegacyCreateApp(scope: Scope, content: string)
    modifies scope
    ensures scope.items == old(scope.items) + [Raw("#[bevy_main]"), Function(MainFn(content))]
  {
    scope.Push(Raw("#[bevy_main]"));
    scope.Push(Function(Fn("main", false, [], None, [], ["App::new()" + content + ".run();"])));
  }

  /** A function with the system's name, its parameters in order and one body line. */
  method LegacyCreateQuery(scope: Scope, name: string, args: seq<(string, string)>, content: string)
    modifies scope
    ensures scope.items == old(scope.items) + [Function(Fn(name, false, args, None, [], [content]))]
  {
    var fun := Fn(name, false, [], None, [], []);
    for i := 0 to |args|
      invariant fun == Fn(name, false, args[..i], None, [], [])
    {
      fun := fun.(params := fun.params + [args[i]]);
      assert args[..i + 1] == args[..i] + [args[i]];
    }
    assert args[..|args|] == args;
    fun := fun.(lines := [content]);
    scope.Push(Function(fun));
  }

  method LegacyCreateEntry(scope: Scope, kind: BevyType, chain: string)
    modifies scope
    ensures scope.items == old(scope.items) + LegacyEntryItems(kind, chain)
  {
    match kind {
      case Plugin(name) => CreatePlugin(scope, name, false, chain);
      case PluginGroup(name) => CreatePlugin(scope, name, true, chain);
      case _ => LegacyCreateApp(scope, chain);
    }
  }

  /** The earlier `BevyModel::generate`: never fails, and yields exactly the items of LegacyLayout. */
  method LegacyGenerate(m: LegacyModel) returns (items: seq<Item>)
    ensures items == LegacyLayout(m)
  {
    var scope := new Scope();
    scope.Push(Import("bevy::prelude", "*"));
    if m.meta.bevyType == Example {
      scope.Push(Import("bevy_test", "BevyTest"));
    }
    var chain := Chain.BuildSuffixChain(PluginEntries(m.plugins), SystemNames(m.startupSystems), SystemNames(m.systems));
    LegacyCreateEntry(scope, m.meta.bevyType, chain);
    ghost var head := scope.items;
    assert head == LegacyHead(m.meta.bevyType, chain);
    LegacyCreateComponents(scope, m.components);
    LegacyCreateQueries(scope, m.startupSystems);
    LegacyCreateQueries(scope, m.systems);
    items := scope.items;
    Regroup(head, LegacyComponentItems(m.components), LegacyQueryItems(m.startupSystems), LegacyQueryItems(m.systems));
  }

  /** The loop over the components: one struct each, in order. */
  method LegacyCreateComponents(scope: Scope, components: seq<LegacyComponent>)
    modifies scope
    ensures scope.items == old(scope.items) + LegacyComponentItems(components)
  {
    ghost var before := scope.items;
    for i := 0 to |components|
      invariant scope.items == before + LegacyComponentItems(components[..i])
    {
      CreateComponent(scope, components[i].name);
      LegacyComponentItemsSnoc(components, i);
    }
    assert components[..|components|] == components;
  }

  /** A loop over systems: one function each, in order. */
  method LegacyCreateQueries(scope: Scope, systems: seq<LegacySystem>)
    modifies scope
    ensures scope.items == old(scope.items) + LegacyQueryItems(systems)
  {
    ghost var before := scope.items;
    for i := 0 to |systems|
      invariant scope.items == before + LegacyQueryItems(systems[..i])
    {
      LegacyCreateQuery(scope, systems[i].name, systems[i].param, systems[i].content);
      LegacyQueryItemsSnoc(systems, i);
    }
    assert systems[..|systems|] == systems;
  }

  // Properties of the earlier layout.

  lemma LegacyHeadSize(kind: BevyType, chain: string)
    ensures |LegacyHead(kind, chain)| == LegacyHeadLength(kind)
  {
  }

  /**
    The prelude import comes first, then the test-harness import for an
    example; an application or example then has `#[bevy_main]` immediately
    before `fn main`, a plugin (group) its struct and impl.
   */
  lemma LegacyHeadItems(m: LegacyModel)
    ensures var l := LegacyLayout(m);
      var at := if m.meta.bevyType == Example then 2 else 1;
      && l[0] == Import("bevy::prelude", "*")
      && (m.meta.bevyType == Example ==> l[1] == Import("bevy_test", "BevyTest"))
      && (m.meta.bevyType == App || m.meta.bevyType == Example ==>
            l[at] == Raw("#[bevy_main]")
            && l[at + 1] == Function(Fn("main", false, [], None, [], ["App::new()" + LegacyChain(m) + ".run();"])))
      && (m.meta.bevyType.Plugin? || m.meta.bevyType.PluginGroup? ==>
            l[at] == Struct(m.meta.bevyType.name, Some("pub"), [])
            && l[at + 1] == Impl(m.meta.bevyType.name, PluginTrait(m.meta.bevyType.PluginGroup?),
                                 [Fn("build", true, [("app", "&mut App")], None, [], ["app", LegacyChain(m), ";"])]))
  {
    var head := LegacyHead(m.meta.bevyType, LegacyChain(m));
    LegacyHeadSize(m.meta.bevyType, LegacyChain(m));
    Ahead(head, LegacyBody(m.components, m.startupSystems, m.systems));
  }

  lemma LegacyBodyRegions(components: seq<LegacyComponent>, startup: seq<LegacySystem>, runtime: seq<LegacySystem>)
    ensures var b := LegacyBody(components, startup, runtime);
      && |b| == |components| + |startup| + |runtime|
      && (forall i :: 0 <= i < |components| ==> b[i] == Struct(components[i].name, None, ["Component"]))
      && (forall j :: 0 <= j < |startup| ==> b[|components| + j] == Function(LegacyQueryFn(startup[j])))
      && (forall k :: 0 <= k < |runtime| ==> b[|components| + |startup| + k] == Function(LegacyQueryFn(runtime[k])))
  {
  }

  /**
    After the head come one Component struct per component, then one
    function per startup system, then one per runtime system, each in list
    order; nothing else.
   */
  lemma LegacyLayoutRegions(m: LegacyModel)
    ensures |LegacyLayout(m)| == LegacyHeadLength(m.meta.bevyType) + |m.components| + |m.startupSystems| + |m.systems|
    ensures forall i :: 0 <= i < |m.components| ==>
      LegacyLayout(m)[LegacyHeadLength(m.meta.bevyType) + i] == Struct(m.components[i].name, None, ["Component"])
    ensures forall j :: 0 <= j < |m.startupSystems| ==>
      LegacyLayout(m)[LegacyHeadLength(m.meta.bevyType) + |m.components| + j] == Function(LegacyQueryFn(m.startupSystems[j]))
    ensures forall k :: 0 <= k < |m.systems| ==>
      LegacyLayout(m)[LegacyHeadLength(m.meta.bevyType) + |m.components| + |m.startupSystems| + k]
      == Function(LegacyQueryFn(m.systems[k]))
  {
    LegacyAssembleRegions(m.meta.bevyType, LegacyChain(m), m.components, m.startupSystems, m.systems);
  }

  /** The same positions for any chain text. */
  lemma LegacyAssembleRegions(kind: BevyType, chain: string, components: seq<LegacyComponent>,
                              startup: seq<LegacySystem>, runtime: seq<LegacySystem>)
    ensures |LegacyAssemble(kind, chain, components, startup, runtime)|
            == LegacyHeadLength(kind) + |components| + |startup| + |runtime|
    ensures forall i :: 0 <= i < |components| ==>
      LegacyAssemble(kind, chain, components, startup, runtime)[LegacyHeadLength(kind) + i]
      == Struct(components[i].name, None, ["Component"])
    ensures forall j :: 0 <= j < |startup| ==>
      LegacyAssemble(kind, chain, components, startup, runtime)[LegacyHeadLength(kind) + |components| + j]
      == Function(LegacyQueryFn(startup[j]))
    ensures forall k :: 0 <= k < |runtime| ==>
      LegacyAssemble(kind, chain, components, startup, runtime)[LegacyHeadLength(kind) + |components| + |startup| + k]
      == Function(LegacyQueryFn(runtime[k]))
  {
    LegacyHeadSize(kind, chain);
    LegacyBodyRegions(components, startup, runtime);
    forall i | 0 <= i < |components|
      ensures LegacyAssemble(kind, chain, components, startup, runtime)[LegacyHeadLength(kind) + i]
              == Struct(components[i].name, None, ["Component"])
    {
      LegacyAssembleAt(kind, chain, components, startup, runtime, i);
    }
    forall j | 0 <= j < |startup|
      ensures LegacyAssemble(kind, chain, components, startup, runtime)[LegacyHeadLength(kind) + |components| + j]
              == Function(LegacyQueryFn(startup[j]))
    {
      LegacyAssembleAt(kind, chain, components, startup, runtime, |components| + j);
    }
    forall k | 0 <= k < |runtime|
      ensures LegacyAssemble(kind, chain, components, startup, runtime)[LegacyHeadLength(kind) + |components| + |startup| + k]
              == Function(LegacyQueryFn(runtime[k]))
    {
      LegacyAssembleAt(kind, chain, components, startup, runtime, |components| + |startup| + k);
    }
  }

  /** The body's item at `i` sits at `i` past the head. */
  lemma LegacyAssembleAt(kind: BevyType, chain: string, components: seq<LegacyComponent>,
                         startup: seq<LegacySystem>, runtime: seq<LegacySystem>, i: nat)
    requires i < |LegacyBody(components, startup, runtime)|
    ensures LegacyHeadLength(kind) + i < |LegacyAssemble(kind, chain, components, startup, runtime)|
    ensures LegacyAssemble(kind, chain, components, startup, runtime)[LegacyHeadLength(kind) + i]
            == LegacyBody(components, startup, runtime)[i]
  {
    LegacyHeadSize(kind, chain);
  }

  /** The raw `#[bevy_main]` line appears once in an application's or example's layout, and never in a plugin's. */
  lemma BevyMainOnlyForApps(m: LegacyModel)
    ensures forall i :: 0 <= i < |LegacyLayout(m)| ==>
      (LegacyLayout(m)[i].Raw? <==> (m.meta.bevyType == App || m.meta.bevyType == Example)
                                    && i == (if m.meta.bevyType == Example then 2 else 1))
  {
    LegacyHeadItems(m);
    LegacyLayoutRegions(m);
  }

  // The same chain in both crates.

  /** The codegen crate's model with the same content: no plugin dependencies, no field types, private systems. */
  function Upgrade(m: LegacyModel): (u: BevyModel)
    ensures u.meta == m.meta && u.bevySettings == m.bevySettings && |u.examples| == |m.examples|
  {
    BevyModel(
      UpgradePlugins(m.plugins),
      seq(|m.components|, i requires 0 <= i < |m.components| => ComponentSpec(m.components[i].name, [])),
      UpgradeSystems(m.startupSystems),
      UpgradeSystems(m.systems),
      m.bevySettings,
      m.meta,
      seq(|m.examples|, i requires 0 <= i < |m.examples| => Upgrade(m.examples[i])))
  }

  /** Both generators apply the same plugins and systems to the app, in the same order. */
  lemma SameChain(m: LegacyModel)
    ensures LegacyChain(m) == ModelChain(Upgrade(m))
  {
  }

  /**
    Both generators produce the same components and system functions in the
    same order; the earlier one adds the prelude import and, for an
    application, `#[bevy_main]`, and leaves the functions without visibility.
   */
  lemma SameBody(m: LegacyModel)
    ensures var u := Upgrade(m);
      && LegacyComponentItems(m.components) == ComponentItems(u.components)
      && |LegacyQueryItems(m.startupSystems)| == |QueryItems(u.startupSystems)|
      && (forall j :: 0 <= j < |m.startupSystems| ==>
            QueryItems(u.startupSystems)[j] == Function(LegacyQueryFn(m.startupSystems[j]).(vis := Some(""))))
      && (forall k :: 0 <= k < |m.systems| ==>
            QueryItems(u.systems)[k] == Function(LegacyQueryFn(m.systems[k]).(vis := Some(""))))
  {
  }

  // The `Display` listing.

  /** Each line followed by a line break, as `writeln!` writes it. */
  function Unlines(lines: seq<string>): string
  {
    if lines == [] then "" else Unlines(lines[..|lines| - 1]) + lines[|lines| - 1] + "\n"
  }

  /** Entries of a list, indented by seven spaces, each followed by `suffix`. */
  function Indented(entries: seq<string>, suffix: string): (ls: seq<string>)
    ensures |ls| == |entries|
    ensures forall i :: 0 <= i < |entries| ==> ls[i] == "       " + entries[i] + suffix
  {
    seq(|entries|, i requires 0 <= i < |entries| => "       " + entries[i] + suffix)
  }

  /** `{:?}` of a kind, without escaping inside the quoted name. */
  function DebugKind(kind: BevyType): string
  {
    match kind
    case App => "App"
    case Plugin(name) => "Plugin(\"" + name + "\")"
    case PluginGroup(name) => "PluginGroup(\"" + name + "\")"
    case Example => "Example"
  }

  function DebugMeta(meta: Meta): string
  {
    "Meta { name: \"" + meta.name + "\", bevy_type: " + DebugKind(meta.bevyType) + " }"
  }

  function DebugPlugin(p: LegacyPlugin): string
  {
    "Plugin { name: \"" + p.name + "\", is_group: " + (if p.isGroup then "true" else "false") + " }"
  }

  function ComponentNames(cs: seq<LegacyComponent>): seq<string>
  {
    seq(|cs|, i requires 0 <= i < |cs| => cs[i].name)
  }

  function PluginTexts(plugins: seq<LegacyPlugin>): seq<string>
  {
    seq(|plugins|, i requires 0 <= i < |plugins| => DebugPlugin(plugins[i]))
  }

  /** The listing's frame: the section headings around the meta line and the four lists. */
  function Listing(meta: string, components: seq<string>, startup: seq<string>,
                   runtime: seq<string>, plugins: seq<string>): seq<string>
  {
    ["BevyModel:", "   Meta:", meta, "   Components:"]
    + components
    + ["", "   Startup Systems:"]
    + startup
    + ["", "   Runtime Systems:"]
    + runtime
    + ["", "   Plugins:"]
    + plugins
  }

  /**
    The lines of the listing: headings for the meta, components, startup
    and runtime systems and plugins, an empty line before each heading after
    the first list, and one indented line per entry; runtime systems and
    plugins carry a trailing comma, components and startup systems do not.
   */
  function DisplayLines(m: LegacyModel): seq<string>
  {
    Listing("       " + DebugMeta(m.meta),
            Indented(ComponentNames(m.components), ""),
            Indented(SystemNames(m.startupSystems), ""),
            Indented(SystemNames(m.systems), ","),
            Indented(PluginTexts(m.plugins), ","))
  }

  lemma UnlinesSnoc(lines: seq<string>, line: string)
    ensures Unlines(lines + [line]) == Unlines(lines) + line + "\n"
  {
    assert (lines + [line])[..|lines|] == lines;
  }

  /** Writes each line with `writeln!`, after what `text0` already holds. */
  method WriteLines(text0: string, ghost before: seq<string>, lines: seq<string>) returns (text: string)
    requires text0 == Unlines(before)
    ensures text == Unlines(before + lines)
  {
    text := text0;
    assert before + lines[..0] == before;
    for i := 0 to |lines|
      invariant text == Unlines(before + lines[..i])
    {
      UnlinesSnoc(before + lines[..i], lines[i]);
      assert before + lines[..i + 1] == before + lines[..i] + [lines[i]];
      text := text + lines[i] + "\n";
    }
    assert lines[..|lines|] == lines;
  }

  /** `impl Display for BevyModel`: the headings and one `writeln!` per entry of each list. */
  method Display(m: LegacyModel) returns (text: string)
    ensures text == Unlines(DisplayLines(m))
  {
    var heading := ["BevyModel:", "   Meta:", "       " + DebugMeta(m.meta), "   Components:"];
    assert [] + heading == heading;
    text := WriteLines("", [], heading);
    ghost var lines := heading;
    text := WriteLines(text, lines, Indented(ComponentNames(m.components), ""));
    lines := lines + Indented(ComponentNames(m.components), "");
    text := WriteLines(text, lines, ["", "   Startup Systems:"]);
    lines := lines + ["", "   Startup Systems:"];
    text := WriteLines(text, lines, Indented(SystemNames(m.startupSystems), ""));
    lines := lines + Indented(SystemNames(m.startupSystems), "");
    text := WriteLines(text, lines, ["", "   Runtime Systems:"]);
    lines := lines + ["", "   Runtime Systems:"];
    text := WriteLines(text, lines, Indented(SystemNames(m.systems), ","));
    lines := lines + Indented(SystemNames(m.systems), ",");
    text := WriteLines(text, lines, ["", "   Plugins:"]);
    lines := lines + ["", "   Plugins:"];
    text := WriteLines(text, lines, Indented(PluginTexts(m.plugins), ","));
  }

  lemma EmptySuffix(s: string)
    ensures s + "" == s
  {
  }

  /** The listing has ten fixed lines besides the four lists. */
  lemma ListingLength(meta: string, components: seq<string>, startup: seq<string>,
                      runtime: seq<string>, plugins: seq<string>)
    ensures |Listing(meta, components, startup, runtime, plugins)|
      == 10 + |components| + |startup| + |runtime| + |plugins|
  {
  }

  /** Where the `i`-th line of each list sits in the listing. */
  lemma ListingComponentAt(meta: string, components: seq<string>, startup: seq<string>,
                           runtime: seq<string>, plugins: seq<string>, i: nat)
    requires i < |components|
    ensures 4 + i < |Listing(meta, components, startup, runtime, plugins)|
    ensures Listing(meta, components, startup, runtime, plugins)[4 + i] == components[i]
  {
  }

  lemma ListingStartupAt(meta: string, components: seq<string>, startup: seq<string>,
                         runtime: seq<string>, plugins: seq<string>, j: nat)
    requires j < |startup|
    ensures 6 + |components| + j < |Listing(meta, components, startup, runtime, plugins)|
    ensures Listing(meta, components, startup, runtime, plugins)[6 + |components| + j] == startup[j]
  {
  }

  lemma ListingRuntimeAt(meta: string, components: seq<string>, startup: seq<string>,
                         runtime: seq<string>, plugins: seq<string>, k: nat)
    requires k < |runtime|
    ensures 8 + |components| + |startup| + k < |Listing(meta, components, startup, runtime, plugins)|
    ensures Listing(meta, components, startup, runtime, plugins)[8 + |components| + |startup| + k] == runtime[k]
  {
  }

  lemma ListingPluginAt(meta: string, components: seq<string>, startup: seq<string>,
                        runtime: seq<string>, plugins: seq<string>, p: nat)
    requires p < |plugins|
    ensures 10 + |components| + |startup| + |runtime| + p < |Listing(meta, components, startup, runtime, plugins)|
    ensures Listing(meta, components, startup, runtime, plugins)[10 + |components| + |startup| + |runtime| + p] == plugins[p]
  {
  }

  /**
    The listing has ten fixed lines and one line per component, startup
    system, runtime system and plugin, with each entry at a known line.
   */
  lemma DisplayLayout(m: LegacyModel)
    ensures |DisplayLines(m)| == 10 + |m.components| + |m.startupSystems| + |m.systems| + |m.plugins|
    ensures forall i :: 0 <= i < |m.components| ==> DisplayLines(m)[4 + i] == "       " + m.components[i].name
    ensures forall j :: 0 <= j < |m.startupSystems| ==>
      DisplayLines(m)[6 + |m.components| + j] == "       " + m.startupSystems[j].name
    ensures forall k :: 0 <= k < |m.systems| ==>
      DisplayLines(m)[8 + |m.components| + |m.startupSystems| + k] == "       " + m.systems[k].name + ","
    ensures forall p :: 0 <= p < |m.plugins| ==>
      DisplayLines(m)[10 + |m.components| + |m.startupSystems| + |m.systems| + p] == "       " + DebugPlugin(m.plugins[p]) + ","
  {
    var meta := "       " + DebugMeta(m.meta);
    var components := Indented(ComponentNames(m.components), "");
    var startup := Indented(SystemNames(m.startupSystems), "");
    var runtime := Indented(SystemNames(m.systems), ",");
    var plugins := Indented(PluginTexts(m.plugins), ",");
    ListingLength(meta, components, startup, runtime, plugins);
    assert |components| == |m.components| && |startup| == |m.startupSystems| && |runtime| == |m.systems|;
    forall i | 0 <= i < |m.components|
      ensures DisplayLines(m)[4 + i] == "       " + m.components[i].name
    {
      ListingComponentAt(meta, components, startup, runtime, plugins, i);
      EmptySuffix("       " + m.components[i].name);
    }
    forall j | 0 <= j < |m.startupSystems|
      ensures DisplayLines(m)[6 + |m.components| + j] == "       " + m.startupSystems[j].name
    {
      ListingStartupAt(meta, components, startup, runtime, plugins, j);
      EmptySuffix("       " + m.startupSystems[j].name);
    }
    forall k | 0 <= k < |m.systems|
      ensures DisplayLines(m)[8 + |m.components| + |m.startupSystems| + k] == "       " + m.systems[k].name + ","
    {
      ListingRuntimeAt(meta, components, startup, runtime, plugins, k);
    }
    forall p | 0 <= p < |m.plugins|
      ensures DisplayLines(m)[10 + |m.components| + |m.startupSystems| + |m.systems| + p]
        == "       " + DebugPlugin(m.plugins[p]) + ","
    {
      ListingPluginAt(meta, components, startup, runtime, plugins, p);
    }
  }

  /** With no line break inside any line, the text has exactly one line break per line. */
  lemma {:induction false} UnlinesCount(lines: seq<string>)
    requires NoBreaks(lines)
    ensures Count(Unlines(lines), '\n') == |lines|
  {
    if lines != [] {
      var init := lines[..|lines| - 1];
      var last := lines[|lines| - 1];
      UnlinesCount(init);
      CountAppend(Unlines(init) + last, "\n", '\n');
      CountAppend(Unlines(init), last, '\n');
      CountAbsent(last, '\n');
      assert Count("\n", '\n') == 1;
    }
  }

  /** No name the listing prints holds a line break. */
  predicate SingleLineNames(m: LegacyModel)
  {
    && '\n' !in m.meta.name
    && (m.meta.bevyType.Plugin? || m.meta.bevyType.PluginGroup? ==> '\n' !in m.meta.bevyType.name)
    && (forall i :: 0 <= i < |m.components| ==> '\n' !in m.components[i].name)
    && (forall j :: 0 <= j < |m.startupSystems| ==> '\n' !in m.startupSystems[j].name)
    && (forall k :: 0 <= k < |m.systems| ==> '\n' !in m.systems[k].name)
    && (forall p :: 0 <= p < |m.plugins| ==> '\n' !in m.plugins[p].name)
  }

  predicate NoBreaks(lines: seq<string>)
  {
    forall i :: 0 <= i < |lines| ==> '\n' !in lines[i]
  }

  lemma NoBreaksAppend(a: seq<string>, b: seq<string>)
    requires NoBreaks(a) && NoBreaks(b)
    ensures NoBreaks(a + b)
  {
    assert forall i :: |a| <= i < |a + b| ==> (a + b)[i] == b[i - |a|];
  }

  lemma IndentedNoBreaks(entries: seq<string>, suffix: string)
    requires NoBreaks(entries) && '\n' !in suffix
    ensures NoBreaks(Indented(entries, suffix))
  {
    assert '\n' !in "       ";
  }

  lemma DebugNoBreaks(m: LegacyModel)
    requires SingleLineNames(m)
    ensures '\n' !in DebugMeta(m.meta)
    ensures NoBreaks(PluginTexts(m.plugins))
  {
    assert '\n' !in DebugKind(m.meta.bevyType);
    assert '\n' !in "Meta { name: \"" && '\n' !in "\", bevy_type: " && '\n' !in " }";
    assert '\n' !in "Plugin { name: \"" && '\n' !in "\", is_group: " && '\n' !in "true" && '\n' !in "false";
    forall p | 0 <= p < |m.plugins|
      ensures '\n' !in DebugPlugin(m.plugins[p])
    {
    }
  }

  /** Then the listing is exactly ten heading lines plus one line per entry. */
  lemma DisplayLineCount(m: LegacyModel)
    requires SingleLineNames(m)
    ensures Count(Unlines(DisplayLines(m)), '\n') == 10 + |m.components| + |m.startupSystems| + |m.systems| + |m.plugins|
  {
    DebugNoBreaks(m);
    var heading := ["BevyModel:", "   Meta:", "       " + DebugMeta(m.meta), "   Components:"];
    assert '\n' !in "       ";
    assert NoBreaks(heading);
    var components := Indented(ComponentNames(m.components), "");
    var startup := Indented(SystemNames(m.startupSystems), "");
    var runtime := Indented(SystemNames(m.systems), ",");
    var plugins := Indented(PluginTexts(m.plugins), ",");
    IndentedNoBreaks(ComponentNames(m.components), "");
    IndentedNoBreaks(SystemNames(m.startupSystems), "");
    IndentedNoBreaks(SystemNames(m.systems), ",");
    IndentedNoBreaks(PluginTexts(m.plugins), ",");
    assert NoBreaks(["", "   Startup Systems:"]) && NoBreaks(["", "   Runtime Systems:"]) && NoBreaks(["", "   Plugins:"]);
    NoBreaksAppend(heading, components);
    NoBreaksAppend(heading + components, ["", "   Startup Systems:"]);
    NoBreaksAppend(heading + components + ["", "   Startup Systems:"], startup);
    NoBreaksAppend(heading + components + ["", "   Startup Systems:"] + startup, ["", "   Runtime Systems:"]);
    NoBreaksAppend(heading + components + ["", "   Startup Systems:"] + startup + ["", "   Runtime Systems:"], runtime);
    NoBreaksAppend(heading + components + ["", "   Startup Systems:"] + startup + ["", "   Runtime Systems:"] + runtime,
                   ["", "   Plugins:"]);
    NoBreaksAppend(heading + components + ["", "   Startup Systems:"] + startup + ["", "   Runtime Systems:"] + runtime
                   + ["", "   Plugins:"], plugins);
    UnlinesCount(DisplayLines(m));
    DisplayLayout(m);
  }
}
