/**
  `write_to_file` of the code generator: the project folder named after the
  model, with its manifest, linker settings, primary source file and one
  file per example.
 */
module Writer {
  import opened Wrappers
  import opened Model
  import opened CodeScope
  import opened FileSystem
  import opened Manifest
  import opened Generator
  import opened Emitter

  /** The manifest: named after the output folder, with the plugins' crates and both feature clauses. */
  function ManifestOf(m: BevyModel): CargoToml
  {
    CargoToml(m.meta.name, CrateDeps(m.plugins), FeatureClause(m.bevySettings.features),
              FeatureClause(m.bevySettings.devFeatures))
  }

  /** The manifest's package name is the output folder's name. */
  lemma ManifestNamesFolder(m: BevyModel)
    requires '"' !in m.meta.name
    ensures ManifestName(TomlText(ManifestOf(m))) == Some(m.meta.name)
  {
    ManifestDeclaresName(ManifestOf(m));
  }

  /** The writes to the primary source file, in order; `#[bevy_main]` only for an application. */
  function SourceChunks(m: BevyModel): seq<Chunk>
  {
    [Text(SourceHeader), Text(ImportDeps(m.plugins) + "\n")]
    + (if m.meta.bevyType == App then [Text("#[bevy_main]\n")] else [])
    + [Rendered(Layout(m))]
  }

  /** Each example's file stem and generated code, in the model's order. */
  function ExampleSources(m: BevyModel): (examples: seq<(string, seq<Item>)>)
    ensures |examples| == |m.examples|
    ensures forall i :: 0 <= i < |m.examples| ==> examples[i] == (m.examples[i].meta.name, Layout(m.examples[i]))
  {
    seq(|m.examples|, i requires 0 <= i < |m.examples| => (m.examples[i].meta.name, Layout(m.examples[i])))
  }

  /** The manifest's arguments, with both feature clauses built by `feature_write`. */
  method BuildManifest(m: BevyModel) returns (manifest: CargoToml)
    ensures manifest == ManifestOf(m)
  {
    var features := FeatureWrite(m.bevySettings.features);
    var devFeatures := FeatureWrite(m.bevySettings.devFeatures);
    manifest := CargoToml(m.meta.name, CrateDeps(m.plugins), features, devFeatures);
  }

  /** The writes to the freshly created primary source file, in order. */
  method WritePrimary(fs0: Fs, path: Path, m: BevyModel) returns (fs: Fs)
    requires path in fs0.files && fs0.files[path] == []
    ensures fs == Fs(fs0.dirs, fs0.files[path := SourceChunks(m)])
  {
    ghost var written: seq<Chunk> := [];
    assert fs0.files[path := written] == fs0.files;
    fs := Append(fs0, path, Text(SourceHeader));
    Extend(fs0.files, path, written, Text(SourceHeader));
    written := written + [Text(SourceHeader)];
    fs := Append(fs, path, Text(ImportDeps(m.plugins) + "\n"));
    Extend(fs0.files, path, written, Text(ImportDeps(m.plugins) + "\n"));
    written := written + [Text(ImportDeps(m.plugins) + "\n")];
    if m.meta.bevyType == App {
      fs := Append(fs, path, Text("#[bevy_main]\n"));
      Extend(fs0.files, path, written, Text("#[bevy_main]\n"));
      written := written + [Text("#[bevy_main]\n")];
    }
    var items := Generate(m);
    fs := Append(fs, path, Rendered(items));
    Extend(fs0.files, path, written, Rendered(items));
    written := written + [Rendered(items)];
    assert written == SourceChunks(m);
  }

  /** Everything up to the examples: the folder, the manifest, the linker settings and the primary source file. */
  method WriteSources(fs0: Fs, m: BevyModel) returns (status: Status, fs: Fs)
    requires Valid(fs0)
    ensures status.Done? <==> CanOpen(fs0, m.meta.name)
    ensures status.Done? ==> fs == SourcesWritten(fs0, m.meta.name, ManifestOf(m), SourceFileName(m.meta.bevyType), SourceChunks(m))
    ensures status.Done? ==> Valid(fs) && [m.meta.name] in fs.dirs
    ensures status.Failed? ==> fs == Abandoned(fs0, m.meta.name) && status.error == AbandonError(fs0, m.meta.name)
    ensures Same(fs0, fs, ExamplesDir(m.meta.name))
  {
    var folder := m.meta.name;
    var manifest := BuildManifest(m);
    var fileName := SourceFileName(m.meta.bevyType);
    status, fs := Prepare(fs0, folder, manifest, fileName);
    if status.Failed? {
      return;
    }
    fs := WritePrimary(fs, SourcePath(folder, fileName), m);
    SourcesWrittenFacts(fs0, folder, manifest, fileName, SourceChunks(m));
  }

  /**
    `write_to_file` as written. It succeeds only when the folder already
    has an `examples` directory, and never creates one where there was
    none: a new project always ends in NotFound, before any example is
    written, and so does every later run on it.
   */
  method WriteToFile(fs0: Fs, m: BevyModel) returns (status: Status, fs: Fs)
    requires Valid(fs0)
    ensures status.Done? <==> CanOpen(fs0, m.meta.name) && ExamplesDir(m.meta.name) in fs0.dirs
    ensures status.Done? ==> fs == Output(fs0, m.meta.name, ManifestOf(m), SourceFileName(m.meta.bevyType),
                                          SourceChunks(m), ExampleSources(m))
    ensures ExamplesDir(m.meta.name) in fs.dirs ==> ExamplesDir(m.meta.name) in fs0.dirs
    ensures !Exists(fs0, [m.meta.name]) ==> status == Failed(NotFound)
    ensures status.Failed? && !CanOpen(fs0, m.meta.name) ==>
      fs == Abandoned(fs0, m.meta.name) && status.error == AbandonError(fs0, m.meta.name)
    ensures status.Failed? && CanOpen(fs0, m.meta.name) ==>
      && fs == SourcesWritten(fs0, m.meta.name, ManifestOf(m), SourceFileName(m.meta.bevyType), SourceChunks(m))
      && status.error == (if ExamplesDir(m.meta.name) in fs0.files then NotADirectory else NotFound)
  {
    status, fs := WriteSources(fs0, m);
    if status.Failed? {
      return;
    }
    FreshHasNoExamples(fs0, m.meta.name);
    status, fs := WriteExamples(fs, m.meta.name, ExampleSources(m));
  }

  /** The same with the examples removal allowed to fail: a new project is written completely. */
  method WriteToFileFixed(fs0: Fs, m: BevyModel) returns (status: Status, fs: Fs)
    requires Valid(fs0)
    ensures status.Done? <==> CanOpen(fs0, m.meta.name) && (m.examples == [] || ExamplesDir(m.meta.name) !in fs0.files)
    ensures status.Done? ==> fs == Output(fs0, m.meta.name, ManifestOf(m), SourceFileName(m.meta.bevyType),
                                          SourceChunks(m), ExampleSources(m))
    ensures !Exists(fs0, [m.meta.name]) ==> status.Done?
    ensures status.Failed? && !CanOpen(fs0, m.meta.name) ==>
      fs == Abandoned(fs0, m.meta.name) && status.error == AbandonError(fs0, m.meta.name)
    ensures status.Failed? && CanOpen(fs0, m.meta.name) ==>
      && fs == SourcesWritten(fs0, m.meta.name, ManifestOf(m), SourceFileName(m.meta.bevyType), SourceChunks(m))
      && status.error == AlreadyExists
  {
    status, fs := WriteSources(fs0, m);
    if status.Failed? {
      return;
    }
    FreshHasNoExamples(fs0, m.meta.name);
    status, fs := WriteExamplesFixed(fs, m.meta.name, ExampleSources(m));
  }
}
