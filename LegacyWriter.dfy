/**
  `write_to_file` of the earlier crate: the same folder steps as the codegen
  crate's, with the bevy 0.7 manifest (no plugin dependencies), and a primary
  source file holding the subsystem attribute (without a line break) followed
  by the generated scope, which carries its own prelude import and
  `#[bevy_main]`.
 */
module LegacyWriter {
  import opened Model
  import opened CodeScope
  import opened FileSystem
  import opened Manifest
  import opened Emitter
  import opened Legacy

  function LegacyManifestOf(m: LegacyModel): CargoToml
  {
    LegacyCargoToml(m.meta.name, FeatureClause(m.bevySettings.features), FeatureClause(m.bevySettings.devFeatures))
  }

  /** The writes to the primary source file, in order. */
  function LegacySourceChunks(m: LegacyModel): seq<Chunk>
  {
    [Text(LegacySourceHeader), Rendered(LegacyLayout(m))]
  }

  function LegacyExampleSources(m: LegacyModel): (examples: seq<(string, seq<Item>)>)
    ensures |examples| == |m.examples|
    ensures forall i :: 0 <= i < |m.examples| ==>
      examples[i] == (m.examples[i].meta.name, LegacyLayout(m.examples[i]))
  {
    seq(|m.examples|, i requires 0 <= i < |m.examples| => (m.examples[i].meta.name, LegacyLayout(m.examples[i])))
  }

  /** The manifest's arguments, with both feature clauses built by `feature_write`. */
  method LegacyBuildManifest(m: LegacyModel) returns (manifest: CargoToml)
    ensures manifest == LegacyManifestOf(m)
  {
    var features := FeatureWrite(m.bevySettings.features);
    var devFeatures := FeatureWrite(m.bevySettings.devFeatures);
    manifest := LegacyCargoToml(m.meta.name, features, devFeatures);
  }

  /** The two writes to the freshly created primary source file. */
  method LegacyWritePrimary(fs0: Fs, path: Path, m: LegacyModel) returns (fs: Fs)
    requires path in fs0.files && fs0.files[path] == []
    ensures fs == Fs(fs0.dirs, fs0.files[path := LegacySourceChunks(m)])
  {
    assert fs0.files[path := []] == fs0.files;
    fs := Append(fs0, path, Text(LegacySourceHeader));
    Extend(fs0.files, path, [], Text(LegacySourceHeader));
    var items := LegacyGenerate(m);
    fs := Append(fs, path, Rendered(items));
    Extend(fs0.files, path, [Text(LegacySourceHeader)], Rendered(items));
    assert [] + [Text(LegacySourceHeader)] == [Text(LegacySourceHeader)];
    assert [Text(LegacySourceHeader)] + [Rendered(items)] == LegacySourceChunks(m);
  }

  /** Everything up to the examples. */
  method LegacyWriteSources(fs0: Fs, m: LegacyModel) returns (status: Status, fs: Fs)
    requires Valid(fs0)
    ensures status.Done? <==> CanOpen(fs0, m.meta.name)
    ensures status.Done? ==> fs == SourcesWritten(fs0, m.meta.name, LegacyManifestOf(m), SourceFileName(m.meta.bevyType),
                                                  LegacySourceChunks(m))
    ensures status.Done? ==> Valid(fs) && [m.meta.name] in fs.dirs
    ensures status.Failed? ==> fs == Abandoned(fs0, m.meta.name) && status.error == AbandonError(fs0, m.meta.name)
    ensures Same(fs0, fs, ExamplesDir(m.meta.name))
  {
    var folder := m.meta.name;
    var manifest := LegacyBuildManifest(m);
    var fileName := SourceFileName(m.meta.bevyType);
    status, fs := Prepare(fs0, folder, manifest, fileName);
    if status.Failed? {
      return;
    }
    fs := LegacyWritePrimary(fs, SourcePath(folder, fileName), m);
    SourcesWrittenFacts(fs0, folder, manifest, fileName, LegacySourceChunks(m));
  }

  /**
    The earlier `write_to_file`, as written: like the codegen crate's, it
    succeeds only when the folder already has an `examples` directory.
   */
  method LegacyWriteToFile(fs0: Fs, m: LegacyModel) returns (status: Status, fs: Fs)
    requires Valid(fs0)
    ensures status.Done? <==> CanOpen(fs0, m.meta.name) && ExamplesDir(m.meta.name) in fs0.dirs
    ensures status.Done? ==> fs == Output(fs0, m.meta.name, LegacyManifestOf(m), SourceFileName(m.meta.bevyType),
                                          LegacySourceChunks(m), LegacyExampleSources(m))
    ensures ExamplesDir(m.meta.name) in fs.dirs ==> ExamplesDir(m.meta.name) in fs0.dirs
    ensures !Exists(fs0, [m.meta.name]) ==> status == Failed(NotFound)
    ensures status.Failed? && !CanOpen(fs0, m.meta.name) ==>
      fs == Abandoned(fs0, m.meta.name) && status.error == AbandonError(fs0, m.meta.name)
    ensures status.Failed? && CanOpen(fs0, m.meta.name) ==>
      && fs == SourcesWritten(fs0, m.meta.name, LegacyManifestOf(m), SourceFileName(m.meta.bevyType), LegacySourceChunks(m))
      && status.error == (if ExamplesDir(m.meta.name) in fs0.files then NotADirectory else NotFound)
  {
    status, fs := LegacyWriteSources(fs0, m);
    if status.Failed? {
      return;
    }
    FreshHasNoExamples(fs0, m.meta.name);
    status, fs := WriteExamples(fs, m.meta.name, LegacyExampleSources(m));
  }

  /** The same with the examples removal allowed to fail: a new project is written completely. */
  method LegacyWriteToFileFixed(fs0: Fs, m: LegacyModel) returns (status: Status, fs: Fs)
    requires Valid(fs0)
    ensures status.Done? <==> CanOpen(fs0, m.meta.name) && (m.examples == [] || ExamplesDir(m.meta.name) !in fs0.files)
    ensures status.Done? ==> fs == Output(fs0, m.meta.name, LegacyManifestOf(m), SourceFileName(m.meta.bevyType),
                                          LegacySourceChunks(m), LegacyExampleSources(m))
    ensures !Exists(fs0, [m.meta.name]) ==> status.Done?
    ensures status.Failed? && !CanOpen(fs0, m.meta.name) ==>
      fs == Abandoned(fs0, m.meta.name) && status.error == AbandonError(fs0, m.meta.name)
    ensures status.Failed? && CanOpen(fs0, m.meta.name) ==>
      && fs == SourcesWritten(fs0, m.meta.name, LegacyManifestOf(m), SourceFileName(m.meta.bevyType), LegacySourceChunks(m))
      && status.error == AlreadyExists
  {
    status, fs := LegacyWriteSources(fs0, m);
    if status.Failed? {
      return;
    }
    FreshHasNoExamples(fs0, m.meta.name);
    status, fs := WriteExamplesFixed(fs, m.meta.name, LegacyExampleSources(m));
  }
}
