# bevy_cursed_editor code generator and edit history, in Dafny

bevy_cursed_editor scaffolds a Bevy game or plugin crate from a declarative
`BevyModel`. The model holds:

- a name and a kind (`App`, `Plugin(name)`, `PluginGroup(name)` or `Example`);
- the plugins, components, startup systems and runtime systems;
- engine features and dev features;
- nested example models.

`generate` turns a model into the items of a `codegen::Scope`.
`write_to_file` writes a crate folder from them: `Cargo.toml`,
`.cargo/config.toml`, `src/main.rs` or `src/lib.rs`, and one file per
example. The interactive editor edits a model through an undo history.

The repository holds two versions of the generator, and this project models
both:

- the `bevy_codegen` crate (`codegen/src/lib.rs`). Its systems carry a
  visibility and attributes, and its plugins carry crate dependencies. It
  writes the prelude import and `#[bevy_main]` into the file header.
- the earlier root crate (`src/lib.rs`). It has simpler records and writes
  the bevy 0.7 manifest. Its scope carries the prelude import and a raw
  `#[bevy_main]` line. It also has a `Display` listing.

## Modules

- `Model`: the value types of a model. `ToFeature` is there, together with
  its inverse, which proves that feature tags are injective.
- `CodeScope`: the generated items (`Fn`, `Item`) and the class `Scope`.
  Its item list only grows, one push per builder call.
- `Chain`: the suffix chain appended to `App::new()` or to `app` in
  `build`. It has one fragment per plugin, then one per startup system, then
  one per runtime system. `ParseChain` reads a chain text back into its
  fragments, which proves that the chain determines them.
- `Generator`: the codegen crate's `BevyCodegen` methods on `Scope` and
  `BevyModel::generate`. Each method is specified by the items it appends.
  `Generate` is proved to return exactly `Layout(m)`, and lemmas give the
  position of every item in the layout.
- `Legacy`: the earlier crate's records, `generate` and `Display`.
  - Its `create_plugin` is the same as the codegen crate's, so the model
    reuses `Generator.CreatePlugin`.
  - `Upgrade` maps an earlier model to the codegen model. `SameChain` and
    `SameBody` relate the two generators through it.
- `Manifest`: the manifest text.
  - `feature_write` is proved against `FeatureClause`. A clause has one
    fewer comma than it has features, no trailing comma, and parses back to
    its feature list.
  - `crate_deps` and `import_deps` are proved against `CrateDeps` and
    `ImportDeps`, with lemmas on the number of lines and on appending
    plugins.
  - `CargoToml` holds both manifest formats, and the manifest's package name
    is proved to be the folder name.
- `FileSystem`: a value model of the directories and files that `std::fs`
  sees. `remove_dir_all`, `remove_file`, `create_dir`, `File::create` and
  `write` become functions that return `Ok(fs)` or an `IoError`.
- `Emitter`: the folder steps of `write_to_file` that both versions share:
  open (clear or create), write the manifest, create `.cargo` and `src`, and
  handle the examples. The final state is stated by `Output`, and lemmas
  say what is in it and what it leaves untouched.
- `Writer` and `LegacyWriter`: `write_to_file` of each crate, both as
  written and corrected (see Findings).
- `Templates`: the template factories of both crates, built by pushes as
  the source builds them, with what the generator and writer make of them.
- `Editor`: the `Add` action (`apply` pushes a component, `undo` pops one),
  the project model whose `apply`, `undo` and `redo` go through a history,
  the guards of the Edit menu, and `setup_non_send`.
  - The history is the `undo` crate, which is not part of this model. It is
    modelled as a linear log with a cursor, and this is an assumption about
    that crate.
  - Lemmas prove the following. Each step keeps the model equal to the
    applied prefix replayed on the starting model. A new action drops the
    redo tail. N applies followed by N undos, then N redos, return to the
    state after the applies.

`write_to_file` is meant to replace a crate folder in full on every run:
it ignores a failed removal of `Cargo.toml` (codegen/src/lib.rs:139) so
that a missing manifest is no obstacle. It does not do the same for the
`examples` directory, so a folder without one cannot be written. The model
follows the code (see Findings).

## Model

| member | source | states |
|---|---|---|
| Model.ToFeature | src/lib.rs:208-248 | no tag contains a double quote or a comma, and each tag identifies its feature (by length and one character) |
| Model.FeatureOfTag | src/lib.rs:208-248 | a tag read back as a feature is exactly that feature's tag |
| Model.TagNamesFeature | src/lib.rs:208-248 | every feature's manifest tag maps back to that feature |
| Model.ToFeatureInjective | src/lib.rs:208-248 | distinct features have distinct tags |
| CodeScope.Scope.constructor | codegen/src/lib.rs:16 | `Scope::new()` starts with no items |
| CodeScope.Scope.Push | codegen/src/lib.rs:76-111 | a builder call adds its item after all earlier items and changes nothing else |
| Chain.PluginChunk | codegen/src/lib.rs:24-28 | a group is added with `add_plugins` and a single plugin with `add_plugin`, under the plugin's own name |
| Chain.SuffixChunks | codegen/src/lib.rs:22-45 | the chain has exactly one fragment per plugin, then per startup system, then per runtime system, each list in its order |
| Chain.RenderOne | codegen/src/lib.rs:25-39 | the text of a one-fragment chain is that fragment's text |
| Chain.RenderAppend | codegen/src/lib.rs:42-45 | the text of joined chains is the join of their texts |
| Chain.PluginChunksSnoc | codegen/src/lib.rs:23-29 | one more plugin adds its fragment at the end |
| Chain.StartupChunksSnoc | codegen/src/lib.rs:32-35 | one more startup system adds its `add_startup_system` fragment at the end |
| Chain.RuntimeChunksSnoc | codegen/src/lib.rs:38-40 | one more runtime system adds its `add_system` fragment at the end |
| Chain.BuildSuffixChain | codegen/src/lib.rs:22-45 | the three loops and the merge produce the text of the specified fragments |
| Chain.ParseChunk | codegen/src/lib.rs:25-39 | reading a fragment always consumes input |
| Chain.ParseName | codegen/src/lib.rs:25-39 | reading a fragment's name always consumes input |
| Chain.Differs | codegen/src/lib.rs:25-39 | text that differs from a verb at some position does not start with that verb |
| Chain.ParseNameAfter | codegen/src/lib.rs:25-39 | a name without `)` is read back up to its closing parenthesis |
| Chain.ParseChunkText | codegen/src/lib.rs:25-39 | each fragment's text is read back as that fragment, leaving what follows |
| Chain.ParseRender | codegen/src/lib.rs:22-45 | a chain text is read back as exactly the fragments it was built from, so the chain determines plugins and systems in order |
| Generator.Entries | codegen/src/lib.rs:23-28 | the chain sees every plugin's name and group flag, in order |
| Generator.Names | codegen/src/lib.rs:32-40 | the chain sees every system's name, in order |
| Generator.ComponentItemsSnoc | codegen/src/lib.rs:53-55 | each turn of the components loop adds one struct at the end |
| Generator.QueryItemsSnoc | codegen/src/lib.rs:57-62 | each turn of a systems loop adds one function at the end |
| Generator.CreateApp | codegen/src/lib.rs:77-80 | appends `fn main` whose one line runs `App::new()` with the chain |
| Generator.CreatePlugin | codegen/src/lib.rs:82-95 | appends a `pub` struct and its `Plugin` or `Plugins` impl, whose `build(&self, app: &mut App)` has the lines `app`, the chain and `;` |
| Generator.CreateQuery | codegen/src/lib.rs:97-107 | appends one function with the system's name, parameters in order, visibility, attributes in order and content as its one line |
| Generator.CreateComponent | codegen/src/lib.rs:109-111 | appends a struct with the component's name deriving `Component` |
| Generator.CreateEntry | codegen/src/lib.rs:47-51 | plugins and plugin groups get a plugin, every other kind gets `fn main` |
| Generator.Generate | codegen/src/lib.rs:15-64 | never fails and yields exactly `Layout(m)`: optional import, entry, components, startup functions, runtime functions |
| Generator.HeadSize | codegen/src/lib.rs:18-51 | the items before the components are one entry, plus one import for an example, with a plugin's entry being two items |
| Generator.BodyRegions | codegen/src/lib.rs:53-62 | the body has one struct per component, then one function per startup system, then one per runtime system, at computed positions |
| Generator.AssembleRegions | codegen/src/lib.rs:15-64 | the same positions, counted after the head |
| Generator.LayoutRegions | codegen/src/lib.rs:15-64 | the layout's length, and each component's and system's item at its exact index |
| Generator.QueryFnFaithful | codegen/src/lib.rs:97-107 | a system's function keeps its name, parameters, visibility, attributes and body, and takes no `self` |
| Generator.ImportOnlyForExample | codegen/src/lib.rs:18-20 | an item is an import if and only if the model is an example and the item is the first one, which imports `bevy_test::BevyTest` |
| Generator.AppEntry | codegen/src/lib.rs:47-51 | an app or example has `fn main` running `App::new()` + chain + `.run();` right after the import |
| Generator.PluginEntryItems | codegen/src/lib.rs:47-49 | a plugin or group begins with its `pub` struct and the impl of the right trait, whose build holds the chain |
| Generator.EmptyAppModel | codegen/src/lib.rs:15-64 | the default model generates only `fn main` running `App::new().run();` |
| Generator.FooPluginScenario | codegen/src/lib.rs:15-64 | plugin Foo with startup system setup generates the struct, the impl chaining `.add_startup_system(setup)`, and the function |
| Generator.ModelChain | codegen/src/lib.rs:22-45 | the text appended to `App::new()` or `app`: the plugins' fragments, then the startup systems', then the runtime systems' |
| Generator.MainFn | codegen/src/lib.rs:77-80 | `fn main` whose single line is `App::new()`, the chain and `.run();` |
| Generator.BuildFn | codegen/src/lib.rs:88-94 | `build` taking `&self` and `app: &mut App`, with the lines `app`, the chain and `;` |
| Generator.PluginTrait | codegen/src/lib.rs:84-87 | the impl's trait: `Plugins` for a group, `Plugin` otherwise |
| Generator.QueryFn | codegen/src/lib.rs:97-107 | a system's function: its name, its parameters in order, its visibility, its attributes in order, and its content as the one line |
| Generator.Head | codegen/src/lib.rs:18-51 | the `bevy_test` import for an example only, then `fn main` for an application or example, or the struct and impl for a plugin or plugin group |
| Generator.Body | codegen/src/lib.rs:53-62 | one component struct per component, then one function per startup system, then one per runtime system, each in list order |
| Generator.Layout | codegen/src/lib.rs:15-64 | the items `generate` leaves in its scope: the head for the model's kind and chain, then the body |
| Legacy.PluginEntries | src/lib.rs:79-85 | the earlier chain sees every plugin's name and group flag, in order, read through the codegen crate's `Entries` |
| Legacy.SystemNames | src/lib.rs:88-96 | the earlier chain sees every system's name, in order, read through the codegen crate's `Names` |
| Legacy.LegacyComponentItemsSnoc | src/lib.rs:109-111 | each component loop turn adds one struct at the end |
| Legacy.LegacyQueryItemsSnoc | src/lib.rs:113-118 | each systems loop turn adds one function at the end |
| Legacy.LegacyCreateApp | src/lib.rs:260-264 | appends the raw `#[bevy_main]` line, then `fn main` running the app with the chain |
| Legacy.LegacyCreateQuery | src/lib.rs:281-287 | appends one function with the name, the parameters in order and the content, with no visibility and no attributes |
| Legacy.LegacyCreateEntry | src/lib.rs:103-107 | plugins and groups get a plugin, other kinds get `#[bevy_main]` and `fn main` |
| Legacy.LegacyGenerate | src/lib.rs:70-120 | never fails and yields exactly `LegacyLayout(m)` |
| Legacy.LegacyCreateComponents | src/lib.rs:109-111 | the components loop appends one struct per component, in order |
| Legacy.LegacyCreateQueries | src/lib.rs:113-118 | a systems loop appends one function per system, in order |
| Legacy.LegacyHeadSize | src/lib.rs:73-107 | the number of items before the components, by kind |
| Legacy.LegacyHeadItems | src/lib.rs:73-107 | the prelude import comes first, then the example import, then `#[bevy_main]` and `fn main` or the plugin struct and impl |
| Legacy.LegacyBodyRegions | src/lib.rs:109-118 | one struct per component, then one function per startup and per runtime system, at computed positions |
| Legacy.LegacyLayoutRegions | src/lib.rs:70-120 | the layout's length, and each component's and system's item at its exact index |
| Legacy.LegacyAssembleRegions | src/lib.rs:70-120 | for any head kind and chain, the component structs, then the startup and runtime functions, follow the head at known offsets |
| Legacy.BevyMainOnlyForApps | src/lib.rs:260-264 | an item is a raw line if and only if the model is an app or example and the item sits right before `fn main` |
| Legacy.Upgrade | src/lib.rs:11-20 | not a source function: it maps the earlier record to the codegen record with the same content (same meta, settings and number of examples), so that SameChain and SameBody can compare the two generators |
| Legacy.SameChain | src/lib.rs:78-101 | both generators build the same chain for corresponding models |
| Legacy.SameBody | src/lib.rs:109-118 | both generators emit the same component structs, and system functions that differ only in visibility and attributes |
| Legacy.Indented | src/lib.rs:40-66 | every listed entry is indented by seven spaces and followed by its suffix |
| Legacy.UnlinesSnoc | src/lib.rs:33-66 | each `writeln!` adds its line and a line break at the end |
| Legacy.WriteLines | src/lib.rs:40-66 | the `for_each` loops write every line of a list, in order |
| Legacy.Display | src/lib.rs:31-67 | the listing is the specified lines, each ending in a line break |
| Legacy.DisplayLayout | src/lib.rs:31-67 | each component, system and plugin sits at its exact line, indented, with runtime systems and plugins followed by a comma |
| Legacy.UnlinesCount | src/lib.rs:31-67 | lines without line breaks give one line break per line |
| Legacy.NoBreaksAppend | src/lib.rs:31-67 | two lists of single lines joined stay single lines |
| Legacy.IndentedNoBreaks | src/lib.rs:40-66 | indenting single-line entries keeps them single lines |
| Legacy.DebugNoBreaks | src/lib.rs:37-66 | the Debug texts of meta and plugins have no line break when the names have none |
| Legacy.DisplayLineCount | src/lib.rs:31-67 | with single-line names the listing has ten heading lines plus one line per entry |
| Legacy.UpgradePlugins | src/lib.rs:157-161 | not a source function: the codegen plugin record with the same name and group flag and no dependencies |
| Legacy.UpgradeSystems | src/lib.rs:145-150 | not a source function: the codegen system record with the same name, parameters and content, private and without attributes |
| Legacy.LegacyChain | src/lib.rs:77-101 | the earlier chain, built from the same fragments as the codegen crate's |
| Legacy.LegacyQueryFn | src/lib.rs:281-287 | a system's function: its name, its parameters in order and its content as the one line, with no visibility and no attributes |
| Legacy.LegacyEntryItems | src/lib.rs:103-107 | a raw `#[bevy_main]` line and `fn main` for an application or example; the plugin struct and impl otherwise |
| Legacy.LegacyHead | src/lib.rs:70-107 | the prelude import, the `bevy_test` import for an example only, then the entry items |
| Legacy.LegacyLayout | src/lib.rs:70-120 | the items the earlier `generate` leaves in its scope: the head, then the component structs and the startup and runtime functions |
| Legacy.DebugMeta | src/lib.rs:130-134 | the `{:?}` text of a meta record: its name quoted and its kind |
| Legacy.DebugPlugin | src/lib.rs:157-161 | the `{:?}` text of a plugin record: its name quoted and its group flag |
| Legacy.DisplayLines | src/lib.rs:31-66 | the lines the listing writes: the headings, the meta, then one indented line per component, startup system, runtime system (with a comma) and plugin (with a comma), with empty lines between the lists |
| Manifest.Tags | codegen/src/lib.rs:121-122 | one tag per feature, in order |
| Manifest.QuoteAll | codegen/src/lib.rs:122 | each tag is wrapped in double quotes |
| Manifest.WrittenSnoc | codegen/src/lib.rs:121-126 | one loop turn adds the next quoted tag, with a comma unless it is the last |
| Manifest.WrittenStep | codegen/src/lib.rs:121-126 | the loop body keeps the text equal to the quoted tags so far |
| Manifest.WrittenAll | codegen/src/lib.rs:127 | closing the bracket after the last tag gives the clause |
| Manifest.FeatureWrite | codegen/src/lib.rs:114-130 | `default-features = false` for no features, otherwise `features = [` with the quoted tags comma-separated and `]` |
| Manifest.FeatureClauseCommas | codegen/src/lib.rs:123-125 | a non-empty clause has exactly one comma fewer than it has features |
| Manifest.OpeningHasNoComma | codegen/src/lib.rs:119 | the opening of a clause has no comma |
| Manifest.BracketCommas | codegen/src/lib.rs:119-127 | the brackets add no comma |
| Manifest.JoinCommas | codegen/src/lib.rs:121-126 | joining comma-free tags puts exactly one comma between each pair of neighbours |
| Manifest.FeatureClauseEnd | codegen/src/lib.rs:123-127 | a non-empty clause ends with a quote and `]`, with no trailing comma |
| Manifest.JoinEndsWithLast | codegen/src/lib.rs:121-126 | the joined text ends with the last part |
| Manifest.TagsNameFeatures | src/lib.rs:208-248 | the tags of a feature list name exactly that list back |
| Manifest.SplitQuoted | codegen/src/lib.rs:122 | a quoted tag ends at its closing quote |
| Manifest.ParseTagsLast | codegen/src/lib.rs:122 | one quoted tag reads back as that tag |
| Manifest.ParseTagsCons | codegen/src/lib.rs:122-125 | a quoted tag followed by a comma and more tags reads back as that tag followed by the rest |
| Manifest.ParseJoinedTags | codegen/src/lib.rs:121-126 | the comma-joined quoted tags read back as the tag list |
| Manifest.FeatureClauseRoundTrip | codegen/src/lib.rs:114-130 | parsing a clause gives back its feature list in order, including the empty one |
| Manifest.DepLine | codegen/src/lib.rs:156-160 | each dependency gives one line ending in a line break |
| Manifest.DepLines | codegen/src/lib.rs:155-162 | one line per dependency, in order |
| Manifest.PluginDepsText | codegen/src/lib.rs:153-164 | the closure of `crate_deps` appends the lines of a plugin's dependencies in order |
| Manifest.PerPlugin | codegen/src/lib.rs:150-166 | the `map` gives one text per plugin, in order |
| Manifest.PluginImportsText | codegen/src/lib.rs:233-241 | the closure of `import_deps` writes one `use` line per dependency and crate path, in order |
| Manifest.DepsAppend | codegen/src/lib.rs:150-166 | adding plugins at the end adds their manifest lines and `use` lines at the end of both texts |
| Manifest.BarePlugins | codegen/src/lib.rs:150-243 | plugins without dependencies add no manifest line and no `use` line |
| Manifest.DepLinesCount | codegen/src/lib.rs:155-162 | single-line names and versions give exactly one line per dependency |
| Manifest.CrateDepsLines | codegen/src/lib.rs:150-166 | `crate_deps` has exactly as many lines as the plugins have dependencies |
| Manifest.NameBeforeQuote | codegen/src/lib.rs:169-170 | the manifest's package name is read back as the text up to its closing quote |
| Manifest.ManifestDeclaresName | codegen/src/lib.rs:168-206 | both manifest formats declare the given name as the package name |
| Manifest.CurrentManifestName | codegen/src/lib.rs:168-206 | the codegen manifest declares the model's name |
| Manifest.LegacyManifestName | src/lib.rs:489-525 | the earlier manifest declares the model's name |
| Manifest.FeatureClause | codegen/src/lib.rs:114-130 | `default-features = false` for no features; otherwise `features = [`, the quoted tags separated by commas, and `]` |
| Manifest.PluginDeps | codegen/src/lib.rs:153-164 | one plugin's dependency lines, in order |
| Manifest.CrateDeps | codegen/src/lib.rs:150-166 | `crate_deps`: the plugins' dependency texts joined with nothing between them |
| Manifest.UseLine | codegen/src/lib.rs:237 | one `use crate::path;` line with its line break |
| Manifest.DepImports | codegen/src/lib.rs:236-238 | one `use` line per crate path of a dependency, in order |
| Manifest.PluginImports | codegen/src/lib.rs:233-241 | one plugin's `use` lines, dependency by dependency |
| Manifest.ImportDeps | codegen/src/lib.rs:230-243 | `import_deps`: the plugins' `use` texts joined with nothing between them |
| Manifest.ManifestLead | codegen/src/lib.rs:169-170 | both manifests open with the `[package]` table and `name = "` |
| Manifest.CargoManifest | codegen/src/lib.rs:168-206 | the codegen manifest: the opening, the name and its closing quote, then the body |
| Manifest.CargoBody | codegen/src/lib.rs:171-202 | the rest of the codegen manifest: version and edition, workspace and profile tables, the winit 0.27 target, the dependency lines, and bevy 0.8 with both feature clauses |
| Manifest.LegacyCargoManifest | src/lib.rs:489-523 | the earlier manifest: the opening, the name and its closing quote, then the body |
| Manifest.LegacyCargoBody | src/lib.rs:492-519 | the rest of the earlier manifest: no workspace table, winit 0.26.1, no dependency lines, bevy 0.7 with both feature clauses |
| Manifest.TomlText | codegen/src/lib.rs:168-206 | the manifest text of either crate from its `format!` arguments |
| Manifest.CargoConfig | codegen/src/lib.rs:214-216 | the Windows linker settings, without a final line break |
| Manifest.SourceHeader | codegen/src/lib.rs:245-246 | the subsystem attribute and the prelude import, each with its line break |
| Manifest.LegacySourceHeader | src/lib.rs:545-546 | the subsystem attribute alone, without a line break |
| FileSystem.Prune | codegen/src/lib.rs:137 | removing a tree drops exactly the entries at or below it and keeps every other file's content |
| FileSystem.PruneValid | codegen/src/lib.rs:137 | removing a tree keeps the filesystem well formed |
| FileSystem.RemoveDirAll | codegen/src/lib.rs:137-138 | succeeds if and only if the path is a directory, removing exactly its subtree; fails with NotADirectory when the path or one of its ancestors is a file, and NotFound otherwise |
| FileSystem.RemoveFile | codegen/src/lib.rs:139 | succeeds if and only if the path is a file, and removes only that file |
| FileSystem.CreateDir | codegen/src/lib.rs:141 | succeeds if and only if nothing is at the path and its parent is a directory, and adds only that directory |
| FileSystem.CreateFile | codegen/src/lib.rs:145 | succeeds unless the path is a directory or lacks a parent, and leaves the file empty |
| FileSystem.Append | codegen/src/lib.rs:208 | a write adds its chunk after the file's content and changes nothing else |
| FileSystem.Extend | codegen/src/lib.rs:245-254 | successive writes accumulate in order |
| Emitter.SourceFileName | codegen/src/lib.rs:223-226 | the primary file is `main.rs` if and only if the model is an app, and `lib.rs` otherwise |
| Emitter.PathFacts | codegen/src/lib.rs:133-139 | `src`, `.cargo`, `Cargo.toml` and `examples` sit in the folder and none lies below another |
| Emitter.Open | codegen/src/lib.rs:136-142 | succeeds if and only if the folder is new or has both `src` and `.cargo`; on success the folder is cleared or created; on failure nothing changed when `src` is not a directory (NotADirectory if it or the folder is a file, else NotFound), while `src` is already gone when `.cargo` is not a directory; nothing under `examples` changes |
| Emitter.Prepare | codegen/src/lib.rs:136-228 | the opening steps through the creation of the empty primary file succeed exactly when opening can and leave the specified skeleton; a failure leaves the `Abandoned` state with its error, IsADirectory when `Cargo.toml` is a directory |
| Emitter.WriteManifest | codegen/src/lib.rs:145-208 | fails with IsADirectory exactly when `Cargo.toml` is a directory, and otherwise leaves it holding the manifest |
| Emitter.WriteConfigAndSource | codegen/src/lib.rs:210-228 | creates `.cargo` with `config.toml` holding the linker settings, and `src` with an empty primary file |
| Emitter.Rewrite | codegen/src/lib.rs:213-218 | creating a file and writing one chunk leaves exactly that chunk |
| Emitter.EmptiedPaths | codegen/src/lib.rs:136-142 | after opening, nothing exists under `src` or `.cargo` |
| Emitter.ClearedEmptied | codegen/src/lib.rs:137-139 | clearing an existing folder empties `src` and `.cargo` |
| Emitter.CreatedEmptied | codegen/src/lib.rs:140-142 | a newly created folder has nothing in it |
| Emitter.WriteExampleFiles | codegen/src/lib.rs:259-264 | the examples loop leaves one file per example name holding its generated code, with later examples overwriting earlier ones of the same name |
| Emitter.ExampleFilesSnoc | codegen/src/lib.rs:260-263 | each loop turn writes one more example file |
| Emitter.ExamplePathBelow | codegen/src/lib.rs:262 | every example file lies in `examples` |
| Emitter.WriteExamples | codegen/src/lib.rs:257-265 | as written, succeeds if and only if `examples` is already a directory, and fails with NotFound or NotADirectory otherwise, leaving the state unchanged |
| Emitter.WriteExamplesFixed | codegen/src/lib.rs:257-265 | with the removal allowed to fail, succeeds unless examples must be written where a file named `examples` is |
| Emitter.WrittenKeeps | codegen/src/lib.rs:136-254 | writing the sources leaves every entry outside `src`, `.cargo`, `Cargo.toml` and the folder as it was |
| Emitter.WrittenShape | codegen/src/lib.rs:136-254 | after the sources, `Cargo.toml`, `config.toml` and the primary file hold their texts, and `src` and `.cargo` hold nothing else |
| Emitter.WrittenValid | codegen/src/lib.rs:136-254 | writing the sources keeps the filesystem well formed |
| Emitter.SourcesWrittenFacts | codegen/src/lib.rs:136-254 | what the examples step needs: the folder exists, and `examples` is as before |
| Emitter.OutputExamples | codegen/src/lib.rs:257-265 | a complete run has `examples` if and only if there are examples, holding exactly the example files |
| Emitter.ExamplesStepKeeps | codegen/src/lib.rs:257-265 | the examples step touches nothing outside `examples` |
| Emitter.OutputSources | codegen/src/lib.rs:132-268 | a complete run leaves the manifest, the linker settings and the primary file with their texts |
| Emitter.OutputKeeps | codegen/src/lib.rs:132-268 | a complete run leaves every entry outside the generated subtree as it was |
| Emitter.ExampleFilesDomain | codegen/src/lib.rs:260-264 | the example files are exactly one per example name, all in `examples` |
| Emitter.ExamplePathInjective | codegen/src/lib.rs:262 | distinct example names give distinct files |
| Emitter.ExampleFilesContent | codegen/src/lib.rs:260-264 | with distinct names, each example's file holds exactly that example's code |
| Emitter.NoneBelowAbsent | codegen/src/lib.rs:257 | nothing exists below a path that does not exist |
| Emitter.FreshHasNoExamples | codegen/src/lib.rs:136-142 | a folder that does not exist has no `examples` either |
| Emitter.Cleared | codegen/src/lib.rs:136-139 | an existing folder without `src`, `.cargo` and their contents, and without a `Cargo.toml` file |
| Emitter.Opened | codegen/src/lib.rs:136-142 | the folder cleared if it existed, created otherwise |
| Emitter.CanOpen | codegen/src/lib.rs:136-145 | the opening steps and the creation of `Cargo.toml` succeed: the folder is new, or it has `src` and `.cargo` directories and `Cargo.toml` is not a directory |
| Emitter.Abandoned | codegen/src/lib.rs:136-145 | what a failed opening leaves: nothing changed when `src` is not a directory, `src` removed when `.cargo` is not one, both removed when `Cargo.toml` is a directory |
| Emitter.AbandonError | codegen/src/lib.rs:136-145 | the error of that failure: from removing `src`, from removing `.cargo`, or IsADirectory from creating `Cargo.toml` |
| Emitter.Output | codegen/src/lib.rs:132-268 | the state after a complete run: the sources written, the old `examples` removed, and a new one with one file per example when there are examples |
| Writer.ManifestNamesFolder | codegen/src/lib.rs:168-206 | the manifest's package name is the output folder's name |
| Writer.ExampleSources | codegen/src/lib.rs:260-263 | each example contributes its name and its generated items, in order |
| Writer.BuildManifest | codegen/src/lib.rs:147-148 | the manifest's feature clauses come from `feature_write` |
| Writer.WritePrimary | codegen/src/lib.rs:245-254 | the primary file holds the header, the `use` lines, `#[bevy_main]` for an app only, then the generated code |
| Writer.WriteSources | codegen/src/lib.rs:132-254 | writing the sources succeeds exactly when opening can, and leaves the specified state with `examples` untouched; a failure leaves the `Abandoned` state and error |
| Writer.WriteToFile | codegen/src/lib.rs:132-268 | as written, succeeds if and only if opening can and `examples` already exists; a failure after a successful opening leaves the manifest, linker settings and primary source written, with NotFound (NotADirectory for a file `examples`); never creates `examples` where none was; a new folder ends in NotFound |
| Writer.WriteToFileFixed | codegen/src/lib.rs:257-265 | corrected, a new folder is always written completely, and a success leaves the full output; the only failure after the opening is a file named `examples`, with the sources written |
| Writer.ManifestOf | codegen/src/lib.rs:146-206 | the manifest's arguments: the folder name, `crate_deps` and both feature clauses |
| Writer.SourceChunks | codegen/src/lib.rs:245-254 | the writes to the primary file: the header, the import lines and a line break, `#[bevy_main]` for an application only, then the generated code |
| LegacyWriter.LegacyExampleSources | src/lib.rs:553-557 | each example contributes its name and its generated items, in order |
| LegacyWriter.LegacyBuildManifest | src/lib.rs:486-487 | the earlier manifest's feature clauses come from `feature_write` |
| LegacyWriter.LegacyWritePrimary | src/lib.rs:545-547 | the primary file holds the attribute line without a break, then the generated code |
| LegacyWriter.LegacyWriteSources | src/lib.rs:471-547 | writing the sources succeeds exactly when opening can, with `examples` untouched; a failure leaves the `Abandoned` state and error |
| LegacyWriter.LegacyWriteToFile | src/lib.rs:471-563 | as written, succeeds if and only if opening can and `examples` already exists; a failure after a successful opening leaves the sources written, with NotFound (NotADirectory for a file `examples`); a new folder ends in NotFound |
| LegacyWriter.LegacyWriteToFileFixed | src/lib.rs:550-559 | corrected, a new folder is always written completely; the only failure after the opening is a file named `examples`, with the sources written |
| LegacyWriter.LegacyManifestOf | src/lib.rs:486-522 | the earlier manifest's arguments: the folder name and both feature clauses |
| LegacyWriter.LegacySourceChunks | src/lib.rs:545-547 | the writes to the primary file: the attribute without a line break, then the generated code |
| Templates.CreateDefaultTemplate | codegen/src/templates/default_game.rs:6-75 | the app `bevy_test` with the Player component and its three fields, DefaultPlugins, the startup systems setup and hello_world, and the dynamic feature |
| Templates.DefaultTemplateChain | codegen/src/lib.rs:22-45 | the default game's chain adds DefaultPlugins, then setup, then hello_world |
| Templates.DefaultTemplateLayout | codegen/src/lib.rs:15-64 | the default game generates `fn main`, the Player struct, and the setup and hello_world functions |
| Templates.DefaultTemplateFiles | codegen/src/lib.rs:145-254 | the default game writes `main.rs` with `#[bevy_main]`, and a manifest with `features = ["dynamic"]` and no dev features |
| Templates.CreatePluginTemplate | codegen/src/templates/default_plugin.rs:6-48 | the plugin BevyTest with the component Test1, the startup system hello_world, and one example using the plugin |
| Templates.PluginTemplateExample | codegen/src/lib.rs:15-64 | the plugin template's example imports `bevy_test::BevyTest` and runs `App::new().add_plugin(BevyTest).run();` |
| Templates.PluginTemplateLayout | codegen/src/lib.rs:15-64 | the plugin template generates the struct BevyTest, its Plugin impl adding hello_world, the Test1 struct and hello_world |
| Templates.PluginTemplateFiles | codegen/src/lib.rs:145-263 | the plugin template writes `lib.rs` without `#[bevy_main]`, default-features off twice, and the example file example_test |
| Templates.LegacyCreateDefaultTemplate | src/lib.rs:295-318 | the earlier app `bevy_test` with Test1, hello_world and the dynamic feature |
| Templates.LegacyDefaultTemplateLayout | src/lib.rs:70-120 | it generates the prelude, `#[bevy_main]`, `fn main`, Test1 and hello_world |
| Templates.LegacyCreatePluginTemplate | src/lib.rs:320-356 | the earlier plugin BevyTest with Test1, hello_world and one example using the plugin |
| Templates.LegacyPluginTemplateExample | src/lib.rs:70-120 | its example imports the prelude and BevyTest and runs the app with `.add_plugin(BevyTest)` |
| Templates.LegacyPluginTemplateLayout | src/lib.rs:70-120 | it generates the prelude, the struct BevyTest and its impl, Test1 and hello_world |
| Templates.LegacyPluginTemplateFiles | src/lib.rs:471-559 | it writes `lib.rs`, the bevy 0.7 manifest with default-features off, and the example file |
| Templates.SetupContent | codegen/src/templates/default_game.rs:37-53 | the body of the template's `setup` system, character for character |
| Editor.AddApply | editor/src/ui/mod.rs:97-107 | `apply` pushes the component, keeps all earlier components and every other field, and succeeds |
| Editor.AddUndo | editor/src/ui/mod.rs:109-114 | `undo` pops the last component (no change when there is none), keeps every other field, and succeeds |
| Editor.AddApplyMatches | editor/src/ui/mod.rs:97-107 | what `apply` ensures determines the model `ApplyAdd` gives |
| Editor.AddUndoMatches | editor/src/ui/mod.rs:109-114 | what `undo` ensures determines the model `UndoAdd` gives |
| Editor.AddRoundTrip | editor/src/ui/mod.rs:92-115 | `undo` after `apply` restores the model exactly |
| Editor.ReplayAppends | editor/src/ui/mod.rs:65-67 | replaying actions appends their components in order and changes nothing else |
| Editor.ApplyKeeps | editor/src/ui/mod.rs:65-67 | applying keeps the model equal to the applied actions replayed on the start |
| Editor.UndoKeeps | editor/src/ui/mod.rs:73-75 | undoing keeps that invariant |
| Editor.RedoKeeps | editor/src/ui/mod.rs:69-71 | redoing keeps that invariant |
| Editor.ApplyDropsRedo | editor/src/ui/mod.rs:65-67 | after an apply nothing can be redone, and the discarded tail is gone |
| Editor.ApplyAll | editor/src/ui/mod.rs:65-67 | applying several actions keeps the cursor within the log |
| Editor.UndoN | editor/src/ui/mod.rs:73-75 | undos keep the log and only move the cursor back |
| Editor.RedoN | editor/src/ui/mod.rs:69-71 | redos keep the log and only move the cursor forward, within the log |
| Editor.ApplyAllState | editor/src/ui/mod.rs:65-67 | N applies replay the actions, truncate the log at the cursor, append them and advance the cursor by N |
| Editor.UndoBack | editor/src/ui/mod.rs:73-75 | k undos step back over the last k applied actions |
| Editor.RedoForward | editor/src/ui/mod.rs:69-71 | k redos replay the next k undone actions in order |
| Editor.UndoRedoRoundTrip | editor/src/ui/mod.rs:64-76 | N applies then N undos restore model and cursor, and N redos then give exactly the state after the applies |
| Editor.ComponentsRoundTrip | editor/src/ui/mod.rs:64-76 | N component adds append their components in order, and N undos restore the original list |
| Editor.ProjectModel.constructor | editor/src/ui/mod.rs:38-55 | a project starts with its model and an empty history |
| Editor.ProjectModel.Apply | editor/src/ui/mod.rs:65-67 | the project takes the apply step and keeps its invariant |
| Editor.ProjectModel.Undo | editor/src/ui/mod.rs:73-75 | the project takes the undo step, a no-op with nothing to undo, and keeps its invariant |
| Editor.ProjectModel.Redo | editor/src/ui/mod.rs:69-71 | the project takes the redo step, a no-op with nothing to redo, and keeps its invariant |
| Editor.ProjectModel.EditMenu | editor/src/ui/mod.rs:338-345 | Redo runs only when it was enabled, and then Undo only when it is enabled afterwards; unclicked or disabled buttons change nothing |
| Editor.SetupNonSend | editor/src/ui/mod.rs:37-62 | the editor starts on the empty app `bevy_test` with Test1 applied, one logged action, and the cursor after it |
| Editor.SetupHistory | editor/src/ui/mod.rs:37-57 | undoing the setup action leaves the empty model, and redoing it brings Test1 back |
| Editor.ApplyAdd | editor/src/ui/mod.rs:97-107 | the model with the action's component pushed at the end |
| Editor.UndoAdd | editor/src/ui/mod.rs:109-114 | the model with its last component popped, unchanged when there is none |
| Editor.Replay | editor/src/ui/mod.rs:64-76 | the model after a sequence of actions, each applied in turn |
| Editor.Consistent | editor/src/ui/mod.rs:64-76 | the history's invariant: the cursor is within the log and the model is the start with the applied actions replayed |
| Editor.ApplyStep | editor/src/ui/mod.rs:65-67 | `History::apply`: the action applied, the redo tail dropped, the action appended and the cursor after it |
| Editor.UndoStep | editor/src/ui/mod.rs:73-75 | `History::undo`: the action before the cursor undone and the cursor moved back, nothing when nothing is applied |
| Editor.RedoStep | editor/src/ui/mod.rs:69-71 | `History::redo`: the action at the cursor applied again and the cursor moved on, nothing at the end of the log |

## Left out

- Generator.Generate: it gives the generated items, not the text that `Scope::to_string` renders from them. That renderer is in the external `codegen` crate, which is not part of this model. The same holds for every `Rendered` chunk that the writers put in a file.
- Manifest.ManifestDeclaresName: the manifest is written as the arguments of its `format!` (`CargoToml`). `TomlText` gives the text, and only the package name is proved about that text.
- Editor.ProjectModel: `undo::History` is not part of this model. It is assumed to be a linear log with a cursor. Its branch tree, `go_to` and its own error reporting are left out.
- `ProjectModel::default` and `create_default_template_v2` (editor/src/ui/mod.rs:117-212) build a large literal template and are left out. The codegen templates are modelled instead.
- The results of writes whose errors are ignored (`let _ = ...`) are treated as successes. IO error details other than the kind are left out.
- `Display` uses `{:?}` for meta and plugins. The model writes a Debug-like text without escaping quotes or backslashes inside names.
- Component fields are not rendered into the component structs, because the source emits only the name and the derive.
- The `println!` in `setup_non_send` and the insertion of the resource into the Bevy world are left out. The method returns the project instead.
- The `cmd_*` functions spawn cargo and editor processes and are left out, as external process calls.
- The command-line entry points, the egui windows other than the Edit menu guards, and JSON import and export are left out.
- codegen/src/model.rs is not part of this model. Its types are reconstructed from their uses in codegen/src/lib.rs and the templates.
- Emitter.Open: a folder name and each example name are taken as one path component below the working directory. The source joins them with `/`, so an empty name (NotFound from `create_dir`), a name containing `/` whose parent is missing, and `.` or `..` (which clear `src` and `.cargo` in an existing directory) behave differently there, and none of them is modelled.
- Byte encoding is left out: files hold chunks of text or generated items, not bytes.

## Findings

| source | as written | input that shows it | evidently intended | confidence | as-written member | corrected member |
|---|---|---|---|---|---|---|
| codegen/src/lib.rs:257 | `remove_dir_all` of `examples` with `?`, run unconditionally | a folder that does not exist yet (a new project). It has no `examples`, so the call fails with NotFound before any example is written, and every later run on that folder fails the same way | the removal may fail when there is nothing to remove, as with `Cargo.toml` at line 139, so that regeneration is a full replace | not executed | Writer.WriteToFile | Writer.WriteToFileFixed |
| src/lib.rs:550 | the same unconditional `remove_dir_all` of `examples` with `?` | a new project folder: NotFound after the sources are written and before any example | the same: ignore a missing `examples` directory | not executed | LegacyWriter.LegacyWriteToFile | LegacyWriter.LegacyWriteToFileFixed |
