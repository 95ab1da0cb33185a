/**
  The filesystem side of `write_to_file`, shared by both generator versions:
  clearing or creating the output folder, writing `Cargo.toml`,
  `.cargo/config.toml` and the primary source file, then the examples.
  The texts written are parameters; the two versions differ only in those.
 */
module Emitter {
  import opened Model
  import opened CodeScope
  import opened FileSystem
  import opened Manifest

  datatype Status = Done | Failed(error: IoError)

  function SrcDir(folder: string): Path { [folder, "src"] }
  function ConfigDir(folder: string): Path { [folder, ".cargo"] }
  function ManifestPath(folder: string): Path { [folder, "Cargo.toml"] }
  function ConfigPath(folder: string): Path { [folder, ".cargo", "config.toml"] }
  function ExamplesDir(folder: string): Path { [folder, "examples"] }
  function SourcePath(folder: string, fileName: string): Path { [folder, "src", fileName] }
  function ExamplePath(folder: string, name: string): Path { [folder, "examples", name + ".rs"] }

  /** The primary source file: `main.rs` for an application, `lib.rs` for every other kind. */
  function SourceFileName(kind: BevyType): (n: string)
    ensures n == "main.rs" || n == "lib.rs"
    ensures n == "main.rs" <==> kind == App
  {
    match kind
    case App => "main.rs"
    case _ => "lib.rs"
  }

  /** How the paths `write_to_file` touches sit relative to each other. */
  lemma PathFacts(folder: string, fileName: string)
    ensures StrictlyUnder(SrcDir(folder), [folder]) && StrictlyUnder(ConfigDir(folder), [folder])
    ensures StrictlyUnder(ManifestPath(folder), [folder]) && StrictlyUnder(ExamplesDir(folder), [folder])
    ensures !Under([folder], SrcDir(folder)) && !Under([folder], ConfigDir(folder)) && !Under([folder], ExamplesDir(folder))
    ensures !Under(ManifestPath(folder), SrcDir(folder)) && !Under(ManifestPath(folder), ConfigDir(folder))
    ensures !Under(ManifestPath(folder), ExamplesDir(folder))
    ensures !Under(ConfigDir(folder), SrcDir(folder)) && !Under(SrcDir(folder), ConfigDir(folder))
    ensures !Under(ConfigDir(folder), ExamplesDir(folder)) && !Under(SrcDir(folder), ExamplesDir(folder))
    ensures !Under(ExamplesDir(folder), SrcDir(folder)) && !Under(ExamplesDir(folder), ConfigDir(folder))
    ensures Under(ConfigPath(folder), ConfigDir(folder)) && Under(SourcePath(folder, fileName), SrcDir(folder))
    ensures !Under(ConfigPath(folder), ExamplesDir(folder)) && !Under(SourcePath(folder, fileName), ExamplesDir(folder))
  {
    assert ManifestPath(folder)[..2] == ManifestPath(folder);
    assert SrcDir(folder)[..2] == SrcDir(folder);
    assert ConfigDir(folder)[..2] == ConfigDir(folder);
    assert ExamplesDir(folder)[..2] == ExamplesDir(folder);
    assert ConfigPath(folder)[..2] == ConfigDir(folder);
    assert SourcePath(folder, fileName)[..2] == SrcDir(folder);
  }

  // The states the steps lead to.

  /** The existing folder after `src` and `.cargo` are removed and `Cargo.toml` is removed if it is a file. */
  function Cleared(fs: Fs, folder: string): Fs
  {
    var pruned := Prune(Prune(fs, SrcDir(folder)), ConfigDir(folder));
    Fs(pruned.dirs, pruned.files - {ManifestPath(folder)})
  }

  /** The state before the manifest is written: the folder cleared, or created if it was absent. */
  function Opened(fs: Fs, folder: string): Fs
  {
    if Exists(fs, [folder]) then Cleared(fs, folder) else Fs(fs.dirs + {[folder]}, fs.files)
  }

  /** Whether the opening steps succeed: a fresh folder always does; an existing one needs `src` and `.cargo`. */
  predicate CanOpen(fs: Fs, folder: string)
  {
    !Exists(fs, [folder]) || (SrcDir(folder) in fs.dirs && ConfigDir(folder) in fs.dirs && ManifestPath(folder) !in fs.dirs)
  }

  /**
    What a run that stops before the manifest is written leaves: nothing
    changed when `src` is not a directory; `src` already removed when
    `.cargo` is not one; both removed (and a `Cargo.toml` file, if any)
    when `Cargo.toml` is a directory.
   */
  function Abandoned(fs: Fs, folder: string): Fs
  {
    if SrcDir(folder) !in fs.dirs then fs
    else if ConfigDir(folder) !in fs.dirs then Prune(fs, SrcDir(folder))
    else Cleared(fs, folder)
  }

  /** The error of that run: from removing `src`, from removing `.cargo`, or from creating `Cargo.toml`. */
  function AbandonError(fs: Fs, folder: string): IoError
  {
    if SrcDir(folder) !in fs.dirs then
      (if SrcDir(folder) in fs.files || [folder] in fs.files then NotADirectory else NotFound)
    else if ConfigDir(folder) !in fs.dirs then
      (if ConfigDir(folder) in fs.files then NotADirectory else NotFound)
    else IsADirectory
  }

  /** The state once the primary source file has been created (still empty). */
  function Skeleton(fs: Fs, folder: string, manifest: CargoToml, fileName: string): Fs
  {
    Populated(Opened(fs, folder), folder, manifest, fileName)
  }

  /** `o` with the manifest, `.cargo/config.toml` and an empty primary source file written. */
  function Populated(o: Fs, folder: string, manifest: CargoToml, fileName: string): Fs
  {
    Fs(o.dirs + {ConfigDir(folder), SrcDir(folder)},
       o.files[ManifestPath(folder) := [Toml(manifest)]]
              [ConfigPath(folder) := [Text(CargoConfig)]]
              [SourcePath(folder, fileName) := []])
  }

  /** The files the examples loop leaves, later examples overwriting earlier ones of the same name. */
  function ExampleFiles(folder: string, examples: seq<(string, seq<Item>)>): map<Path, seq<Chunk>>
  {
    if examples == [] then map[]
    else
      var last := examples[|examples| - 1];
      ExampleFiles(folder, examples[..|examples| - 1])[ExamplePath(folder, last.0) := [Rendered(last.1)]]
  }

  /** After the old examples folder is gone: a new one holding the examples, if there are any. */
  function WithExamples(fs: Fs, folder: string, examples: seq<(string, seq<Item>)>): Fs
  {
    if examples == [] then fs
    else Fs(fs.dirs + {ExamplesDir(folder)}, fs.files + ExampleFiles(folder, examples))
  }

  /** The examples folder removed with everything in it, if it is a directory. */
  function ExamplesCleared(fs: Fs, folder: string): Fs
  {
    if ExamplesDir(folder) in fs.dirs then Prune(fs, ExamplesDir(folder)) else fs
  }

  /** The state once the primary source file holds `source`. */
  function SourcesWritten(fs: Fs, folder: string, manifest: CargoToml, fileName: string, source: seq<Chunk>): Fs
  {
    var s := Skeleton(fs, folder, manifest, fileName);
    Fs(s.dirs, s.files[SourcePath(folder, fileName) := source])
  }

  /** The final state of a complete run. */
  function Output(fs: Fs, folder: string, manifest: CargoToml, fileName: string, source: seq<Chunk>,
                  examples: seq<(string, seq<Item>)>): Fs
  {
    WithExamples(ExamplesCleared(SourcesWritten(fs, folder, manifest, fileName, source), folder), folder, examples)
  }

  // The steps.

  /**
    The first statement of `write_to_file`: an existing folder loses `src`,
    `.cargo` and (if it is a file) `Cargo.toml`; an absent one is created.
   */
  method Open(fs0: Fs, folder: string) returns (status: Status, fs: Fs)
    requires Valid(fs0)
    ensures status.Done? <==> !Exists(fs0, [folder]) || (SrcDir(folder) in fs0.dirs && ConfigDir(folder) in fs0.dirs)
    ensures status.Done? ==> fs == Opened(fs0, folder) && Emptied(fs, folder)
    ensures status.Done? ==> (ManifestPath(folder) !in fs.dirs <==> CanOpen(fs0, folder))
    ensures status.Failed? ==> fs == Abandoned(fs0, folder) && status.error == AbandonError(fs0, folder)
    ensures status.Failed? && SrcDir(folder) in fs0.dirs ==> fs == Prune(fs0, SrcDir(folder))
    ensures Same(fs0, fs, ExamplesDir(folder))
  {
    PathFacts(folder, "");
    BelowFileTwo(fs0, folder, "src");
    BelowFileTwo(fs0, folder, ".cargo");
    fs := fs0;
    if Exists(fs, [folder]) {
      var r := RemoveDirAll(fs, SrcDir(folder));
      if r.Err? {
        return Failed(r.error), fs;
      }
      fs := r.fs;
      BelowFileTwo(fs, folder, ".cargo");
      r := RemoveDirAll(fs, ConfigDir(folder));
      if r.Err? {
        return Failed(r.error), fs;
      }
      fs := r.fs;
      r := RemoveFile(fs, ManifestPath(folder));
      if r.Ok? {
        fs := r.fs;
      }
      assert fs == Cleared(fs0, folder);
      ClearedEmptied(fs0, folder);
    } else {
      // Creating a top-level directory that does not exist cannot fail.
      fs := CreateDir(fs, [folder]).fs;
      CreatedEmptied(fs0, folder);
    }
    status := Done;
  }

  /**
    From the start of `write_to_file` to the creation of the primary source
    file. Only the opening steps and the creation of `Cargo.toml` can fail;
    the later `?`s cannot fire once those succeeded.
   */
  method Prepare(fs0: Fs, folder: string, manifest: CargoToml, fileName: string) returns (status: Status, fs: Fs)
    requires Valid(fs0)
    ensures status.Done? <==> CanOpen(fs0, folder)
    ensures status.Done? ==> fs == Skeleton(fs0, folder, manifest, fileName) && Valid(fs)
    ensures status.Done? ==> SourcePath(folder, fileName) in fs.files && fs.files[SourcePath(folder, fileName)] == []
    ensures status.Failed? ==> fs == Abandoned(fs0, folder) && status.error == AbandonError(fs0, folder)
    ensures Same(fs0, fs, ExamplesDir(folder))
  {
    PathFacts(folder, fileName);
    status, fs := Open(fs0, folder);
    if status.Failed? {
      return;
    }
    ghost var o := fs;
    status, fs := WriteManifest(fs, folder, manifest);
    if status.Failed? {
      return;
    }
    fs := WriteConfigAndSource(fs, folder, fileName);
  }

  /** `File::create` on `Cargo.toml`, which fails only if it is a directory, then the manifest written. */
  method WriteManifest(o: Fs, folder: string, manifest: CargoToml) returns (status: Status, fs: Fs)
    requires Emptied(o, folder)
    ensures status.Done? <==> ManifestPath(folder) !in o.dirs
    ensures status.Done? ==> fs == Fs(o.dirs, o.files[ManifestPath(folder) := [Toml(manifest)]]) && Emptied(fs, folder)
    ensures status.Failed? ==> fs == o && status.error == IsADirectory
  {
    EmptiedPaths(o, folder, "");
    PathFacts(folder, "");
    fs := o;
    var r := CreateFile(fs, ManifestPath(folder));
    if r.Err? {
      return Failed(r.error), fs;
    }
    fs := Append(r.fs, ManifestPath(folder), Toml(manifest));
    Rewrite(o.files, ManifestPath(folder), Toml(manifest));
    status := Done;
  }

  /**
    The steps after the manifest: `.cargo` and its `config.toml`, then `src`
    and the (still empty) primary source file. None of them can fail here.
   */
  method WriteConfigAndSource(o: Fs, folder: string, fileName: string) returns (fs: Fs)
    requires Emptied(o, folder)
    ensures fs == Fs(o.dirs + {ConfigDir(folder), SrcDir(folder)},
                     o.files[ConfigPath(folder) := [Text(CargoConfig)]][SourcePath(folder, fileName) := []])
    ensures Valid(fs)
  {
    EmptiedPaths(o, folder, fileName);
    fs := CreateDir(o, ConfigDir(folder)).fs;
    ghost var withConfigDir := fs;
    fs := CreateFile(fs, ConfigPath(folder)).fs;
    fs := Append(fs, ConfigPath(folder), Text(CargoConfig));
    Rewrite(withConfigDir.files, ConfigPath(folder), Text(CargoConfig));
    fs := CreateDir(fs, SrcDir(folder)).fs;
    fs := CreateFile(fs, SourcePath(folder, fileName)).fs;
  }

  /** Creating a file and writing one chunk to it leaves the file holding exactly that chunk. */
  lemma Rewrite(files: map<Path, seq<Chunk>>, p: Path, c: Chunk)
    ensures files[p := []][p := files[p := []][p] + [c]] == files[p := [c]]
  {
    assert files[p := []][p] + [c] == [c];
  }

  /** What the later steps rely on: the folder is a directory with nothing in or under `src` or `.cargo`. */
  ghost predicate Emptied(o: Fs, folder: string)
  {
    && Valid(o) && [folder] in o.dirs
    && (forall q :: Under(q, SrcDir(folder)) ==> !Exists(o, q))
    && (forall q :: Under(q, ConfigDir(folder)) ==> !Exists(o, q))
  }

  lemma EmptiedPaths(o: Fs, folder: string, fileName: string)
    requires Emptied(o, folder)
    ensures !Exists(o, ConfigDir(folder)) && !Exists(o, ConfigPath(folder))
    ensures !Exists(o, SrcDir(folder)) && !Exists(o, SourcePath(folder, fileName))
    ensures ManifestPath(folder) != ConfigPath(folder) && ManifestPath(folder) != SourcePath(folder, fileName)
    ensures ConfigPath(folder) != SourcePath(folder, fileName)
    ensures ConfigDir(folder) != SrcDir(folder) && ConfigDir(folder) != ManifestPath(folder) && SrcDir(folder) != ManifestPath(folder)
    ensures ManifestPath(folder)[..1] == [folder] && ConfigDir(folder)[..1] == [folder] && SrcDir(folder)[..1] == [folder]
    ensures ConfigPath(folder)[..2] == ConfigDir(folder) && SourcePath(folder, fileName)[..2] == SrcDir(folder)
  {
    PathFacts(folder, fileName);
  }

  lemma ClearedEmptied(fs: Fs, folder: string)
    requires Valid(fs) && SrcDir(folder) in fs.dirs && ConfigDir(folder) in fs.dirs
    ensures Emptied(Cleared(fs, folder), folder)
    ensures ManifestPath(folder) in Cleared(fs, folder).dirs <==> ManifestPath(folder) in fs.dirs
  {
    PathFacts(folder, "");
    var once := Prune(fs, SrcDir(folder));
    PruneValid(fs, SrcDir(folder));
    PruneValid(once, ConfigDir(folder));
    var twice := Prune(once, ConfigDir(folder));
    assert Valid(Cleared(fs, folder)) by {
      assert RemoveFile(twice, ManifestPath(folder)).Ok? ==> RemoveFile(twice, ManifestPath(folder)).fs == Cleared(fs, folder);
    }
  }

  lemma CreatedEmptied(fs: Fs, folder: string)
    requires Valid(fs) && !Exists(fs, [folder])
    ensures Emptied(Fs(fs.dirs + {[folder]}, fs.files), folder)
    ensures ManifestPath(folder) !in fs.dirs
  {
    PathFacts(folder, "");
    var o := Fs(fs.dirs + {[folder]}, fs.files);
    assert o == CreateDir(fs, [folder]).fs;
    forall q | Under(q, SrcDir(folder)) || Under(q, ConfigDir(folder)) || q == ManifestPath(folder)
      ensures !Exists(fs, q)
    {
      NoneBelowAbsent(fs, [folder], q);
    }
    assert !Exists(fs, ManifestPath(folder));
  }

  /** One file per example, in order, each holding that example's generated code. */
  method WriteExampleFiles(fs0: Fs, folder: string, examples: seq<(string, seq<Item>)>) returns (fs: Fs)
    requires Valid(fs0) && ExamplesDir(folder) in fs0.dirs
    requires forall q :: StrictlyUnder(q, ExamplesDir(folder)) ==> !Exists(fs0, q)
    ensures fs == Fs(fs0.dirs, fs0.files + ExampleFiles(folder, examples))
    ensures Valid(fs)
  {
    fs := fs0;
    for i := 0 to |examples|
      invariant fs == Fs(fs0.dirs, fs0.files + ExampleFiles(folder, examples[..i]))
      invariant Valid(fs)
    {
      var path := ExamplePath(folder, examples[i].0);
      ExamplePathBelow(folder, examples[i].0);
      ghost var before := fs;
      fs := CreateFile(fs, path).fs;
      fs := Append(fs, path, Rendered(examples[i].1));
      Rewrite(before.files, path, Rendered(examples[i].1));
      ExampleFilesSnoc(fs0.files, folder, examples, i);
    }
    assert examples[..|examples|] == examples;
  }

  lemma ExampleFilesSnoc(files: map<Path, seq<Chunk>>, folder: string, examples: seq<(string, seq<Item>)>, i: nat)
    requires i < |examples|
    ensures (files + ExampleFiles(folder, examples[..i]))[ExamplePath(folder, examples[i].0) := [Rendered(examples[i].1)]]
         == files + ExampleFiles(folder, examples[..i + 1])
  {
    assert examples[..i + 1][..i] == examples[..i];
  }

  lemma ExamplePathBelow(folder: string, name: string)
    ensures StrictlyUnder(ExamplePath(folder, name), ExamplesDir(folder))
    ensures ExamplePath(folder, name)[..2] == ExamplesDir(folder)
  {
  }

  /**
    The examples step as written: the old examples folder is removed and
    that removal must succeed; a new folder is made only when there are
    examples to write.
   */
  method WriteExamples(fs0: Fs, folder: string, examples: seq<(string, seq<Item>)>) returns (status: Status, fs: Fs)
    requires Valid(fs0) && [folder] in fs0.dirs
    ensures status.Done? <==> ExamplesDir(folder) in fs0.dirs
    ensures status.Done? ==> fs == WithExamples(ExamplesCleared(fs0, folder), folder, examples)
    ensures status.Failed? ==> fs == fs0 && status.error == (if ExamplesDir(folder) in fs0.files then NotADirectory else NotFound)
    ensures Valid(fs)
  {
    BelowFileTwo(fs0, folder, "examples");
    var r := RemoveDirAll(fs0, ExamplesDir(folder));
    if r.Err? {
      return Failed(r.error), fs0;
    }
    fs := r.fs;
    if |examples| > 0 {
      PathFacts(folder, "");
      // The folder was just removed, so creating it again cannot fail.
      fs := CreateDir(fs, ExamplesDir(folder)).fs;
      fs := WriteExampleFiles(fs, folder, examples);
    }
    status := Done;
  }

  /**
    The examples step with the removal's failure ignored, as `write_to_file`
    already does for `Cargo.toml`: it now fails only when a file named
    `examples` is in the way of the new folder.
   */
  method WriteExamplesFixed(fs0: Fs, folder: string, examples: seq<(string, seq<Item>)>) returns (status: Status, fs: Fs)
    requires Valid(fs0) && [folder] in fs0.dirs
    ensures status.Done? <==> examples == [] || ExamplesDir(folder) !in fs0.files
    ensures status.Done? ==> fs == WithExamples(ExamplesCleared(fs0, folder), folder, examples)
    ensures status.Failed? ==> fs == fs0 && status.error == AlreadyExists
    ensures Valid(fs)
  {
    var r := RemoveDirAll(fs0, ExamplesDir(folder));
    fs := if r.Ok? then r.fs else fs0;
    if |examples| > 0 {
      PathFacts(folder, "");
      var c := CreateDir(fs, ExamplesDir(folder));
      if c.Err? {
        return Failed(c.error), fs;
      }
      if r.Err? {
        forall q | StrictlyUnder(q, ExamplesDir(folder))
          ensures !Exists(fs, q)
        {
          NoneBelowAbsent(fs, ExamplesDir(folder), q);
        }
      }
      fs := WriteExampleFiles(c.fs, folder, examples);
    }
    status := Done;
  }

  // What a complete run leaves behind.

  /**
    Outside `src`, `.cargo` and `Cargo.toml`, writing the sources leaves
    every entry as it was, apart from creating the folder itself.
   */
  lemma WrittenKeeps(fs: Fs, folder: string, manifest: CargoToml, fileName: string, source: seq<Chunk>, q: Path)
    requires !Under(q, SrcDir(folder)) && !Under(q, ConfigDir(folder))
    requires q != ManifestPath(folder) && q != [folder]
    ensures Same(fs, SourcesWritten(fs, folder, manifest, fileName, source), q)
  {
    PathFacts(folder, fileName);
    assert q != ConfigPath(folder) && q != SourcePath(folder, fileName) && q != ConfigDir(folder) && q != SrcDir(folder);
  }

  /**
    After the sources are written, `src` holds exactly the primary source
    file and `.cargo` exactly `config.toml`, with the given contents, and
    `Cargo.toml` holds the manifest.
   */
  lemma WrittenShape(fs: Fs, folder: string, manifest: CargoToml, fileName: string, source: seq<Chunk>)
    requires Valid(fs) && CanOpen(fs, folder)
    ensures var w := SourcesWritten(fs, folder, manifest, fileName, source);
      && [folder] in w.dirs && SrcDir(folder) in w.dirs && ConfigDir(folder) in w.dirs
      && ManifestPath(folder) in w.files && w.files[ManifestPath(folder)] == [Toml(manifest)]
      && ConfigPath(folder) in w.files && w.files[ConfigPath(folder)] == [Text(CargoConfig)]
      && SourcePath(folder, fileName) in w.files && w.files[SourcePath(folder, fileName)] == source
      && (forall q :: StrictlyUnder(q, SrcDir(folder)) ==> q !in w.dirs && (q in w.files <==> q == SourcePath(folder, fileName)))
      && (forall q :: StrictlyUnder(q, ConfigDir(folder)) ==> q !in w.dirs && (q in w.files <==> q == ConfigPath(folder)))
  {
    var o := Opened(fs, folder);
    if Exists(fs, [folder]) {
      ClearedEmptied(fs, folder);
    } else {
      CreatedEmptied(fs, folder);
    }
    EmptiedPaths(o, folder, fileName);
    PathFacts(folder, fileName);
    forall q | StrictlyUnder(q, SrcDir(folder)) || StrictlyUnder(q, ConfigDir(folder))
      ensures !Exists(o, q) && q != SrcDir(folder) && q != ConfigDir(folder) && q != ManifestPath(folder)
      ensures StrictlyUnder(q, SrcDir(folder)) ==> q != ConfigPath(folder)
      ensures StrictlyUnder(q, ConfigDir(folder)) ==> q != SourcePath(folder, fileName)
    {
      if StrictlyUnder(q, SrcDir(folder)) {
        assert q[..2] == SrcDir(folder);
      } else {
        assert q[..2] == ConfigDir(folder);
      }
    }
  }

  lemma WrittenValid(fs: Fs, folder: string, manifest: CargoToml, fileName: string, source: seq<Chunk>)
    requires Valid(fs) && CanOpen(fs, folder)
    ensures Valid(SourcesWritten(fs, folder, manifest, fileName, source))
  {
    var o := Opened(fs, folder);
    if Exists(fs, [folder]) {
      ClearedEmptied(fs, folder);
    } else {
      CreatedEmptied(fs, folder);
    }
    EmptiedPaths(o, folder, fileName);
  }

  /** What the examples step needs of the state the sources were written to. */
  lemma SourcesWrittenFacts(fs: Fs, folder: string, manifest: CargoToml, fileName: string, source: seq<Chunk>)
    requires Valid(fs) && CanOpen(fs, folder)
    ensures var w := SourcesWritten(fs, folder, manifest, fileName, source);
      Valid(w) && [folder] in w.dirs && Same(fs, w, ExamplesDir(folder))
  {
    PathFacts(folder, fileName);
    WrittenValid(fs, folder, manifest, fileName, source);
    WrittenShape(fs, folder, manifest, fileName, source);
    WrittenKeeps(fs, folder, manifest, fileName, source, ExamplesDir(folder));
  }

  /**
    A run that gets past the examples removal leaves an examples folder
    exactly when there are examples, holding exactly their files.
   */
  lemma OutputExamples(fs: Fs, folder: string, manifest: CargoToml, fileName: string, source: seq<Chunk>,
                       examples: seq<(string, seq<Item>)>)
    requires Valid(fs) && CanOpen(fs, folder) && ExamplesDir(folder) !in fs.files
    ensures var out := Output(fs, folder, manifest, fileName, source, examples);
      && (ExamplesDir(folder) in out.dirs <==> examples != [])
      && ExamplesDir(folder) !in out.files
      && (forall q :: StrictlyUnder(q, ExamplesDir(folder)) ==>
            && q !in out.dirs
            && (q in out.files <==> q in ExampleFiles(folder, examples))
            && (q in out.files ==> out.files[q] == ExampleFiles(folder, examples)[q]))
  {
    PathFacts(folder, fileName);
    var w := SourcesWritten(fs, folder, manifest, fileName, source);
    WrittenKeeps(fs, folder, manifest, fileName, source, ExamplesDir(folder));
    WrittenValid(fs, folder, manifest, fileName, source);
    var c := ExamplesCleared(w, folder);
    forall q | StrictlyUnder(q, ExamplesDir(folder))
      ensures !Exists(c, q)
    {
      if ExamplesDir(folder) !in w.dirs {
        NoneBelowAbsent(w, ExamplesDir(folder), q);
      }
    }
    ExampleFilesDomain(folder, examples);
  }

  /** The examples step touches nothing outside the examples folder. */
  lemma ExamplesStepKeeps(w: Fs, folder: string, examples: seq<(string, seq<Item>)>, q: Path)
    requires !Under(q, ExamplesDir(folder))
    ensures Same(w, WithExamples(ExamplesCleared(w, folder), folder, examples), q)
  {
    ExampleFilesDomain(folder, examples);
  }

  /**
    What a complete run leaves in the folder: the manifest, the linker
    settings and the primary source file with the given contents, and
    nothing else in `src` and `.cargo`.
   */
  lemma OutputSources(fs: Fs, folder: string, manifest: CargoToml, fileName: string, source: seq<Chunk>,
                      examples: seq<(string, seq<Item>)>)
    requires Valid(fs) && CanOpen(fs, folder)
    ensures var out := Output(fs, folder, manifest, fileName, source, examples);
      && [folder] in out.dirs && SrcDir(folder) in out.dirs && ConfigDir(folder) in out.dirs
      && ManifestPath(folder) in out.files && out.files[ManifestPath(folder)] == [Toml(manifest)]
      && ConfigPath(folder) in out.files && out.files[ConfigPath(folder)] == [Text(CargoConfig)]
      && SourcePath(folder, fileName) in out.files && out.files[SourcePath(folder, fileName)] == source
      && (forall q :: StrictlyUnder(q, SrcDir(folder)) ==> q !in out.dirs && (q in out.files <==> q == SourcePath(folder, fileName)))
      && (forall q :: StrictlyUnder(q, ConfigDir(folder)) ==> q !in out.dirs && (q in out.files <==> q == ConfigPath(folder)))
  {
    PathFacts(folder, fileName);
    var w := SourcesWritten(fs, folder, manifest, fileName, source);
    WrittenShape(fs, folder, manifest, fileName, source);
    forall q | StrictlyUnder(q, SrcDir(folder)) || StrictlyUnder(q, ConfigDir(folder)) || q in {ManifestPath(folder), [folder], SrcDir(folder), ConfigDir(folder)}
      ensures Same(w, Output(fs, folder, manifest, fileName, source, examples), q)
    {
      if StrictlyUnder(q, SrcDir(folder)) {
        assert q[..2] == SrcDir(folder);
      } else if StrictlyUnder(q, ConfigDir(folder)) {
        assert q[..2] == ConfigDir(folder);
      }
      ExamplesStepKeeps(w, folder, examples, q);
    }
  }

  /** A complete run leaves every entry outside `src`, `.cargo`, `examples` and `Cargo.toml` as it was. */
  lemma OutputKeeps(fs: Fs, folder: string, manifest: CargoToml, fileName: string, source: seq<Chunk>,
                    examples: seq<(string, seq<Item>)>)
    ensures var out := Output(fs, folder, manifest, fileName, source, examples);
      forall q :: (&& !Under(q, SrcDir(folder)) && !Under(q, ConfigDir(folder)) && !Under(q, ExamplesDir(folder))
                   && q != ManifestPath(folder) && q != [folder]) ==> Same(fs, out, q)
  {
    var w := SourcesWritten(fs, folder, manifest, fileName, source);
    forall q | && !Under(q, SrcDir(folder)) && !Under(q, ConfigDir(folder)) && !Under(q, ExamplesDir(folder))
               && q != ManifestPath(folder) && q != [folder]
      ensures Same(fs, Output(fs, folder, manifest, fileName, source, examples), q)
    {
      WrittenKeeps(fs, folder, manifest, fileName, source, q);
      ExamplesStepKeeps(w, folder, examples, q);
    }
  }

  /** The files of the examples loop: one per example name, each below the examples folder. */
  lemma {:induction false} ExampleFilesDomain(folder: string, examples: seq<(string, seq<Item>)>)
    ensures forall q :: q in ExampleFiles(folder, examples) <==>
      exists i :: 0 <= i < |examples| && q == ExamplePath(folder, examples[i].0)
    ensures forall q :: q in ExampleFiles(folder, examples) ==> StrictlyUnder(q, ExamplesDir(folder))
  {
    if examples != [] {
      var init := examples[..|examples| - 1];
      ExampleFilesDomain(folder, init);
      ExamplePathBelow(folder, examples[|examples| - 1].0);
      forall q | q in ExampleFiles(folder, examples)
        ensures exists i :: 0 <= i < |examples| && q == ExamplePath(folder, examples[i].0)
      {
        if q != ExamplePath(folder, examples[|examples| - 1].0) {
          assert q in ExampleFiles(folder, init);
          var i :| 0 <= i < |init| && q == ExamplePath(folder, init[i].0);
          assert q == ExamplePath(folder, examples[i].0);
        }
      }
      forall i | 0 <= i < |examples|
        ensures ExamplePath(folder, examples[i].0) in ExampleFiles(folder, examples)
      {
        if i < |init| {
          assert init[i] == examples[i];
        }
      }
    }
  }

  /** Distinct names give distinct files. */
  lemma ExamplePathInjective(folder: string, a: string, b: string)
    requires ExamplePath(folder, a) == ExamplePath(folder, b)
    ensures a == b
  {
    assert a + ".rs" == ExamplePath(folder, a)[2] == ExamplePath(folder, b)[2] == b + ".rs";
    assert a == (a + ".rs")[..|a|];
  }

  /** With distinct example names, each example's file holds exactly that example's code. */
  lemma {:induction false} ExampleFilesContent(folder: string, examples: seq<(string, seq<Item>)>, i: nat)
    requires i < |examples|
    requires forall j, k :: 0 <= j < k < |examples| ==> examples[j].0 != examples[k].0
    ensures ExamplePath(folder, examples[i].0) in ExampleFiles(folder, examples)
    ensures ExampleFiles(folder, examples)[ExamplePath(folder, examples[i].0)] == [Rendered(examples[i].1)]
  {
    var n := |examples| - 1;
    var init := examples[..n];
    if i < n {
      if ExamplePath(folder, examples[i].0) == ExamplePath(folder, examples[n].0) {
        ExamplePathInjective(folder, examples[i].0, examples[n].0);
        assert false;
      }
      assert init[i] == examples[i];
      ExampleFilesContent(folder, init, i);
    }
  }

  /** Nothing exists below a path that does not exist. */
  lemma {:induction false} NoneBelowAbsent(fs: Fs, root: Path, q: Path)
    requires Valid(fs) && |root| > 0 && root !in fs.dirs && StrictlyUnder(q, root)
    ensures !Exists(fs, q)
    decreases |q|
  {
    if Exists(fs, q) {
      var parent := q[..|q| - 1];
      assert parent in fs.dirs;
      if parent == root {
      } else {
        assert parent[..|root|] == q[..|root|];
        NoneBelowAbsent(fs, root, parent);
      }
    }
  }

  /** A folder that does not exist has no examples folder either. */
  lemma FreshHasNoExamples(fs: Fs, folder: string)
    requires Valid(fs)
    ensures !Exists(fs, [folder]) ==> !Exists(fs, ExamplesDir(folder))
  {
    PathFacts(folder, "");
    if !Exists(fs, [folder]) {
      NoneBelowAbsent(fs, [folder], ExamplesDir(folder));
    }
  }
}
