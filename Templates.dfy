/**
  The template factories: the application and plugin models the tools start
  from, in the codegen crate (`default_game.rs`, `default_plugin.rs`) and in
  the earlier crate. Each is built the way the source builds it, from the
  default model by pushes, and the lemmas say what the generator and the
  writer make of it.
 */
module Templates {
  import opened Wrappers
  import opened Model
  import opened CodeScope
  import opened FileSystem
  import opened Manifest
  import opened Generator
  import opened Emitter
  import opened Writer
  import opened Legacy
  import opened LegacyWriter
  import Chain

  /** The body of the template's `setup` system: a camera and the player's sprite. */
  const SetupContent: string :=
    "\n\ncommands.spawn_bundle(Camera2dBundle::default());\n\n// player\n"
    + "let ship_handle = asset_server.load(\"ship_C.png\");\ncommands\n.spawn_bundle(SpriteBundle {\n"
    + "    texture: ship_handle,\n    ..default()\n})\n.insert(Player {\n    velocity: Vec3::ZERO,\n"
    + "    rotation_speed: f32::to_radians(180.0),\n    shooting_timer: None,\n});\n\n"

  // The codegen crate's templates.

  /**
    `create_default_template` of `default_game.rs`: the application
    `bevy_test` with the Player component, the DefaultPlugins group, the
    startup systems setup and hello_world, and the dynamic feature.
   */
  method CreateDefaultTemplate() returns (m: BevyModel)
    ensures m.meta == Meta("bevy_test", App)
    ensures m.components == [ComponentSpec("Player", [("velocity", "Vec3"), ("rotation_speed", "f32"), ("shooting_timer", "Option<f32>")])]
    ensures m.plugins == [PluginRef("DefaultPlugins", true, [])]
    ensures |m.startupSystems| == 2
    ensures m.startupSystems[0] == SystemSpec("setup", [("mut commands", "Commands"), ("asset_server", "Res<AssetServer>")],
                                              SetupContent, "pub", [])
    ensures m.startupSystems[1] == SystemSpec("hello_world", [], "println!(\"Hello World!\");", "pub", ["no_mangle"])
    ensures m.systems == [] && m.examples == []
    ensures m.bevySettings == Settings([Dynamic], [])
  {
    m := DefaultModel().(meta := Meta("bevy_test", App));
    m := m.(components := m.components + [ComponentSpec("Player", [("velocity", "Vec3"), ("rotation_speed", "f32"), ("shooting_timer", "Option<f32>")])]);
    m := m.(plugins := m.plugins + [PluginRef("DefaultPlugins", true, [])]);
    var setupEntities := SystemSpec("setup", [("mut commands", "Commands"), ("asset_server", "Res<AssetServer>")], SetupContent, "pub", []);
    m := m.(startupSystems := m.startupSystems + [setupEntities]);
    var helloWorld := SystemSpec("hello_world", [], "println!(\"Hello World!\");", "pub", ["no_mangle"]);
    m := m.(startupSystems := m.startupSystems + [helloWorld]);
    m := m.(bevySettings := m.bevySettings.(features := m.bevySettings.features + [Dynamic]));
  }

  /** The text of three chain fragments, one after the other. */
  lemma RenderThree(a: Chain.Chunk, b: Chain.Chunk, c: Chain.Chunk)
    ensures Chain.Render([a, b, c]) == Chain.ChunkText(a) + Chain.ChunkText(b) + Chain.ChunkText(c)
  {
    assert [a, b, c][1..] == [b, c];
    assert [b, c][1..] == [c];
    Chain.RenderOne(c);
  }

  /**
    A model with the DefaultPlugins group, the startup systems setup and
    hello_world, and no runtime system, gets the chain that adds the group
    and then the two systems.
   */
  lemma DefaultTemplateChain(m: BevyModel)
    requires m.plugins == [PluginRef("DefaultPlugins", true, [])] && m.systems == []
    requires |m.startupSystems| == 2 && m.startupSystems[0].name == "setup" && m.startupSystems[1].name == "hello_world"
    ensures ModelChain(m) == ".add_plugins(DefaultPlugins)" + ".add_startup_system(setup)" + ".add_startup_system(hello_world)"
  {
    assert Entries(m.plugins) == [Chain.PluginEntry("DefaultPlugins", true)];
    assert Names(m.startupSystems) == ["setup", "hello_world"];
    assert Names(m.systems) == [];
    var cs := Chain.SuffixChunks([Chain.PluginEntry("DefaultPlugins", true)], ["setup", "hello_world"], []);
    assert cs == [Chain.AddPlugins("DefaultPlugins"), Chain.AddStartupSystem("setup"), Chain.AddStartupSystem("hello_world")];
    RenderThree(Chain.AddPlugins("DefaultPlugins"), Chain.AddStartupSystem("setup"), Chain.AddStartupSystem("hello_world"));
    DefaultChunkTexts();
  }

  lemma DefaultChunkTexts()
    ensures Chain.ChunkText(Chain.AddPlugins("DefaultPlugins")) == ".add_plugins(DefaultPlugins)"
    ensures Chain.ChunkText(Chain.AddStartupSystem("setup")) == ".add_startup_system(setup)"
    ensures Chain.ChunkText(Chain.AddStartupSystem("hello_world")) == ".add_startup_system(hello_world)"
  {
  }

  /**
    The default template generates `fn main` running the app with that
    chain, the Player struct, then the functions setup and hello_world with
    their parameters, visibility and attributes.
   */
  lemma DefaultTemplateLayout(m: BevyModel, setup: SystemSpec, helloWorld: SystemSpec)
    requires m.meta.bevyType == App && m.components == [ComponentSpec("Player", [("velocity", "Vec3"), ("rotation_speed", "f32"), ("shooting_timer", "Option<f32>")])]
    requires m.plugins == [PluginRef("DefaultPlugins", true, [])] && m.systems == []
    requires m.startupSystems == [setup, helloWorld] && setup.name == "setup" && helloWorld.name == "hello_world"
    ensures Layout(m) == [
      Function(Fn("main", false, [], None, [],
                  ["App::new()" + (".add_plugins(DefaultPlugins)" + ".add_startup_system(setup)" + ".add_startup_system(hello_world)") + ".run();"])),
      Struct("Player", None, ["Component"]),
      Function(Fn("setup", false, setup.param, Some(setup.visibility), setup.attributes, [setup.content])),
      Function(Fn("hello_world", false, helloWorld.param, Some(helloWorld.visibility), helloWorld.attributes, [helloWorld.content]))]
  {
    DefaultTemplateChain(m);
    assert Head(App, ModelChain(m)) == [Function(MainFn(ModelChain(m)))];
    assert Body(m.components, m.startupSystems, m.systems) == [Struct("Player", None, ["Component"]), Function(QueryFn(setup)), Function(QueryFn(helloWorld))];
    assert ComponentItems(m.components) == [Struct("Player", None, ["Component"])];
    assert QueryItems(m.startupSystems) == [Function(QueryFn(setup)), Function(QueryFn(helloWorld))];
    assert QueryItems([]) == [];
  }

  /**
    Written out, the default template is a binary crate: `src/main.rs` with
    `#[bevy_main]`, no plugin dependency or import, and a manifest with the
    dynamic feature and no development features.
   */
  lemma DefaultTemplateFiles(m: BevyModel)
    requires m.meta == Meta("bevy_test", App) && m.plugins == [PluginRef("DefaultPlugins", true, [])]
    requires m.bevySettings == Settings([Dynamic], [])
    ensures SourceFileName(m.meta.bevyType) == "main.rs"
    ensures ManifestOf(m) == CargoToml("bevy_test", "", "features = [" + "\"dynamic\"" + "]", "default-features = false")
    ensures SourceChunks(m) == [Text(SourceHeader), Text("\n"), Text("#[bevy_main]\n"), Rendered(Layout(m))]
  {
    BarePlugins(m.plugins);
    assert ToFeature(Dynamic) == "dynamic";
    assert Tags([Dynamic]) == ["dynamic"];
    assert "\"" + "dynamic" + "\"" == "\"dynamic\"";
    assert QuoteAll(["dynamic"]) == ["\"dynamic\""];
    assert "" + "\n" == "\n";
  }

  /**
    `create_plugin_template` of `default_plugin.rs`: the plugin BevyTest
    with the component Test1 and the startup system hello_world, and one
    example that adds the plugin.
   */
  method CreatePluginTemplate() returns (m: BevyModel)
    ensures m.meta == Meta("bevy_test", Plugin("BevyTest"))
    ensures m.examples == [DefaultModel().(meta := Meta("example_test", Example), plugins := [PluginRef("BevyTest", false, [])])]
    ensures m.plugins == [] && m.systems == [] && m.bevySettings == Settings([], [])
    ensures m.components == [ComponentSpec("Test1", [])]
    ensures m.startupSystems == [SystemSpec("hello_world", [], "println!(\"Hello World From Plugin!\");", "pub", [])]
  {
    var example := DefaultModel().(meta := Meta("example_test", Example), plugins := [PluginRef("BevyTest", false, [])]);
    m := DefaultModel().(meta := Meta("bevy_test", Plugin("BevyTest")), examples := [example]);
    m := m.(components := m.components + [ComponentSpec("Test1", [])]);
    var helloWorld := SystemSpec("hello_world", [], "println!(\"Hello World From Plugin!\");", "pub", []);
    m := m.(startupSystems := m.startupSystems + [helloWorld]);
  }

  /** The example of the plugin template imports the plugin and runs an app that adds it. */
  lemma PluginTemplateExample(e: BevyModel)
    requires e == DefaultModel().(meta := Meta("example_test", Example), plugins := [PluginRef("BevyTest", false, [])])
    ensures Layout(e) == [Import("bevy_test", "BevyTest"),
                          Function(Fn("main", false, [], None, [], ["App::new()" + ".add_plugin(BevyTest)" + ".run();"]))]
  {
    BevyTestChain(e);
    assert ComponentItems([]) == [] && QueryItems([]) == [];
  }

  /** An example whose only plugin is BevyTest chains just that plugin. */
  lemma BevyTestChain(e: BevyModel)
    requires e.plugins == [PluginRef("BevyTest", false, [])] && e.startupSystems == [] && e.systems == []
    ensures ModelChain(e) == ".add_plugin(BevyTest)"
  {
    assert Entries(e.plugins) == [Chain.PluginEntry("BevyTest", false)];
    assert Names([]) == [];
    assert Chain.SuffixChunks([Chain.PluginEntry("BevyTest", false)], [], []) == [Chain.AddPlugin("BevyTest")];
    Chain.RenderOne(Chain.AddPlugin("BevyTest"));
    assert Chain.ChunkText(Chain.AddPlugin("BevyTest")) == ".add_plugin(BevyTest)";
  }

  /**
    The plugin template generates the public struct BevyTest, its Plugin
    impl whose build adds hello_world, the Test1 struct and the function
    hello_world.
   */
  lemma PluginTemplateLayout(m: BevyModel, helloWorld: SystemSpec)
    requires m.meta.bevyType == Plugin("BevyTest") && m.plugins == [] && m.systems == []
    requires m.components == [ComponentSpec("Test1", [])]
    requires m.startupSystems == [helloWorld] && helloWorld.name == "hello_world"
    ensures Layout(m) == [
      Struct("BevyTest", Some("pub"), []),
      Impl("BevyTest", "Plugin", [Fn("build", true, [("app", "&mut App")], None, [], ["app", ".add_startup_system(hello_world)", ";"])]),
      Struct("Test1", None, ["Component"]),
      Function(Fn("hello_world", false, helloWorld.param, Some(helloWorld.visibility), helloWorld.attributes, [helloWorld.content]))]
  {
    assert Entries([]) == [] && Names([]) == [];
    assert Names(m.startupSystems) == ["hello_world"];
    assert Chain.SuffixChunks([], ["hello_world"], []) == [Chain.AddStartupSystem("hello_world")];
    Chain.RenderOne(Chain.AddStartupSystem("hello_world"));
    assert Chain.ChunkText(Chain.AddStartupSystem("hello_world")) == ".add_startup_system(hello_world)";
    assert ComponentItems(m.components) == [Struct("Test1", None, ["Component"])];
    assert QueryItems(m.startupSystems) == [Function(QueryFn(helloWorld))];
    assert QueryItems([]) == [];
  }

  /**
    Written out, the plugin template is a library crate: `src/lib.rs`
    without `#[bevy_main]`, a manifest without features, and one example
    file `example_test`.
   */
  lemma PluginTemplateFiles(m: BevyModel)
    requires m.meta == Meta("bevy_test", Plugin("BevyTest")) && m.plugins == [] && m.bevySettings == Settings([], [])
    requires m.examples == [DefaultModel().(meta := Meta("example_test", Example), plugins := [PluginRef("BevyTest", false, [])])]
    ensures SourceFileName(m.meta.bevyType) == "lib.rs"
    ensures ManifestOf(m) == CargoToml("bevy_test", "", "default-features = false", "default-features = false")
    ensures SourceChunks(m) == [Text(SourceHeader), Text("\n"), Rendered(Layout(m))]
    ensures ExampleSources(m) == [("example_test", [Import("bevy_test", "BevyTest"),
                                   Function(Fn("main", false, [], None, [], ["App::new()" + ".add_plugin(BevyTest)" + ".run();"]))])]
  {
    BarePlugins(m.plugins);
    assert "" + "\n" == "\n";
    PluginTemplateExample(m.examples[0]);
  }

  // The earlier crate's templates.

  /** The earlier `create_default_template`: the application bevy_test with Test1, hello_world and the dynamic feature. */
  method LegacyCreateDefaultTemplate() returns (m: LegacyModel)
    ensures m.meta == Meta("bevy_test", App)
    ensures m.components == [LegacyComponent("Test1")]
    ensures m.startupSystems == [LegacySystem("hello_world", [], "println!(\"Hello World!\");")]
    ensures m.plugins == [] && m.systems == [] && m.examples == []
    ensures m.bevySettings == Settings([Dynamic], [])
  {
    m := LegacyDefault().(meta := Meta("bevy_test", App));
    m := m.(components := m.components + [LegacyComponent("Test1")]);
    var helloWorld := LegacySystem("hello_world", [], "println!(\"Hello World!\");");
    m := m.(startupSystems := m.startupSystems + [helloWorld]);
    m := m.(bevySettings := m.bevySettings.(features := m.bevySettings.features + [Dynamic]));
  }

  /**
    The earlier default template generates the prelude import, `#[bevy_main]`,
    `fn main` adding hello_world, the Test1 struct and the function
    hello_world without visibility.
   */
  lemma LegacyDefaultTemplateLayout(m: LegacyModel, helloWorld: LegacySystem)
    requires m.meta.bevyType == App && m.plugins == [] && m.systems == []
    requires m.components == [LegacyComponent("Test1")]
    requires m.startupSystems == [helloWorld] && helloWorld.name == "hello_world"
    ensures LegacyLayout(m) == [
      Import("bevy::prelude", "*"),
      Raw("#[bevy_main]"),
      Function(Fn("main", false, [], None, [], ["App::new()" + ".add_startup_system(hello_world)" + ".run();"])),
      Struct("Test1", None, ["Component"]),
      Function(Fn("hello_world", false, helloWorld.param, None, [], [helloWorld.content]))]
  {
    assert PluginEntries([]) == [] && SystemNames([]) == [];
    assert SystemNames(m.startupSystems) == ["hello_world"];
    assert Chain.SuffixChunks([], ["hello_world"], []) == [Chain.AddStartupSystem("hello_world")];
    Chain.RenderOne(Chain.AddStartupSystem("hello_world"));
    assert Chain.ChunkText(Chain.AddStartupSystem("hello_world")) == ".add_startup_system(hello_world)";
    assert LegacyComponentItems(m.components) == [Struct("Test1", None, ["Component"])];
    assert LegacyQueryItems(m.startupSystems) == [Function(LegacyQueryFn(helloWorld))];
    assert LegacyQueryItems([]) == [];
  }

  /** The earlier plugin template: BevyTest with Test1 and hello_world, and one example adding the plugin. */
  method LegacyCreatePluginTemplate() returns (m: LegacyModel)
    ensures m.meta == Meta("bevy_test", Plugin("BevyTest"))
    ensures m.examples == [LegacyDefault().(meta := Meta("example_test", Example), plugins := [LegacyPlugin("BevyTest", false)])]
    ensures m.components == [LegacyComponent("Test1")]
    ensures m.startupSystems == [LegacySystem("hello_world", [], "println!(\"Hello World From Plugin!\");")]
    ensures m.plugins == [] && m.systems == [] && m.bevySettings == Settings([], [])
  {
    var example := LegacyDefault().(meta := Meta("example_test", Example), plugins := [LegacyPlugin("BevyTest", false)]);
    m := LegacyDefault().(meta := Meta("bevy_test", Plugin("BevyTest")), examples := [example]);
    m := m.(components := m.components + [LegacyComponent("Test1")]);
    var helloWorld := LegacySystem("hello_world", [], "println!(\"Hello World From Plugin!\");");
    m := m.(startupSystems := m.startupSystems + [helloWorld]);
  }

  /** The earlier plugin template's example: the prelude, the plugin's import, `#[bevy_main]` and `fn main` adding the plugin. */
  lemma LegacyPluginTemplateExample(e: LegacyModel)
    requires e == LegacyDefault().(meta := Meta("example_test", Example), plugins := [LegacyPlugin("BevyTest", false)])
    ensures LegacyLayout(e) == [
      Import("bevy::prelude", "*"),
      Import("bevy_test", "BevyTest"),
      Raw("#[bevy_main]"),
      Function(Fn("main", false, [], None, [], ["App::new()" + ".add_plugin(BevyTest)" + ".run();"]))]
  {
    assert PluginEntries(e.plugins) == [Chain.PluginEntry("BevyTest", false)];
    assert SystemNames([]) == [];
    assert Chain.SuffixChunks([Chain.PluginEntry("BevyTest", false)], [], []) == [Chain.AddPlugin("BevyTest")];
    Chain.RenderOne(Chain.AddPlugin("BevyTest"));
    assert Chain.ChunkText(Chain.AddPlugin("BevyTest")) == ".add_plugin(BevyTest)";
    assert LegacyHead(Example, LegacyChain(e)) == [Import("bevy::prelude", "*"), Import("bevy_test", "BevyTest"),
                                                   Raw("#[bevy_main]"), Function(MainFn(LegacyChain(e)))];
    assert LegacyComponentItems([]) == [] && LegacyQueryItems([]) == [];
  }

  /**
    The earlier plugin template's own file: the prelude, the public struct
    BevyTest with its Plugin impl adding hello_world, the Test1 struct and
    the function hello_world.
   */
  lemma LegacyPluginTemplateLayout(m: LegacyModel, helloWorld: LegacySystem)
    requires m.meta.bevyType == Plugin("BevyTest") && m.plugins == [] && m.systems == []
    requires m.components == [LegacyComponent("Test1")]
    requires m.startupSystems == [helloWorld] && helloWorld.name == "hello_world"
    ensures LegacyLayout(m) == [
      Import("bevy::prelude", "*"),
      Struct("BevyTest", Some("pub"), []),
      Impl("BevyTest", "Plugin", [Fn("build", true, [("app", "&mut App")], None, [], ["app", ".add_startup_system(hello_world)", ";"])]),
      Struct("Test1", None, ["Component"]),
      Function(Fn("hello_world", false, helloWorld.param, None, [], [helloWorld.content]))]
  {
    assert PluginEntries([]) == [] && SystemNames([]) == [];
    assert SystemNames(m.startupSystems) == ["hello_world"];
    assert Chain.SuffixChunks([], ["hello_world"], []) == [Chain.AddStartupSystem("hello_world")];
    Chain.RenderOne(Chain.AddStartupSystem("hello_world"));
    assert Chain.ChunkText(Chain.AddStartupSystem("hello_world")) == ".add_startup_system(hello_world)";
    assert LegacyComponentItems(m.components) == [Struct("Test1", None, ["Component"])];
    assert LegacyQueryItems(m.startupSystems) == [Function(LegacyQueryFn(helloWorld))];
    assert LegacyQueryItems([]) == [];
  }

  /** Written out, the earlier plugin template has a manifest without features and one example file `example_test`. */
  lemma LegacyPluginTemplateFiles(m: LegacyModel)
    requires m.meta == Meta("bevy_test", Plugin("BevyTest")) && m.bevySettings == Settings([], [])
    requires m.examples == [LegacyDefault().(meta := Meta("example_test", Example), plugins := [LegacyPlugin("BevyTest", false)])]
    ensures SourceFileName(m.meta.bevyType) == "lib.rs"
    ensures LegacyManifestOf(m) == LegacyCargoToml("bevy_test", "default-features = false", "default-features = false")
    ensures LegacyExampleSources(m) == [("example_test", [
      Import("bevy::prelude", "*"),
      Import("bevy_test", "BevyTest"),
      Raw("#[bevy_main]"),
      Function(Fn("main", false, [], None, [], ["App::new()" + ".add_plugin(BevyTest)" + ".run();"]))])]
  {
    LegacyPluginTemplateExample(m.examples[0]);
  }
}
