/**
  An in-memory filesystem on which the output steps of `write_to_file` are
  modelled: a set of directories and a map from file paths to what has been
  written to each file, in write order. Paths are lists of components
  relative to the working directory; a path of one component lives directly
  in it. Each operation behaves like the `std::fs` call of the same name
  for the cases the generator meets: it either fails and changes nothing,
  or succeeds with the effect stated in its contract.
 */
module FileSystem {
  import opened CodeScope
  import opened Manifest

  type Path = seq<string>

  /**
    One write to a file: literal text, the rendering of a generated scope, or
    the manifest's `format!` given by its arguments (its text is TomlText).
   */
  datatype Chunk = Text(text: string) | Rendered(items: seq<Item>) | Toml(manifest: CargoToml)

  datatype Fs = Fs(dirs: set<Path>, files: map<Path, seq<Chunk>>)

  datatype IoError = NotFound | AlreadyExists | IsADirectory | NotADirectory

  datatype Outcome = Ok(fs: Fs) | Err(error: IoError)

  /** `p` is `root` or lies below it. */
  predicate Under(p: Path, root: Path)
  {
    |root| <= |p| && p[..|root|] == root
  }

  predicate StrictlyUnder(p: Path, root: Path)
  {
    |root| < |p| && p[..|root|] == root
  }

  predicate Exists(fs: Fs, p: Path)
  {
    p in fs.dirs || p in fs.files
  }

  /** The directory `p` would be created in exists (the working directory always does). */
  predicate ParentIsDir(fs: Fs, p: Path)
  {
    |p| > 0 && (|p| == 1 || p[..|p| - 1] in fs.dirs)
  }

  /** Every entry sits in an existing directory, and nothing is both a file and a directory. */
  predicate Valid(fs: Fs)
  {
    && (forall p :: p in fs.dirs ==> ParentIsDir(fs, p))
    && (forall p :: p in fs.files ==> ParentIsDir(fs, p) && p !in fs.dirs)
  }

  /** `q` is the same entry, with the same contents, in `a` and `b`. */
  predicate Same(a: Fs, b: Fs, q: Path)
  {
    && (q in a.dirs <==> q in b.dirs)
    && (q in a.files <==> q in b.files)
    && (q in a.files && q in b.files ==> a.files[q] == b.files[q])
  }

  /** `fs` without `p` and everything below it. */
  function Prune(fs: Fs, p: Path): (r: Fs)
    ensures forall q :: q in r.dirs <==> q in fs.dirs && !Under(q, p)
    ensures forall q :: q in r.files <==> q in fs.files && !Under(q, p)
    ensures forall q :: q in r.files ==> r.files[q] == fs.files[q]
  {
    Fs(set q | q in fs.dirs && !Under(q, p), map q | q in fs.files && !Under(q, p) :: fs.files[q])
  }

  lemma PruneValid(fs: Fs, p: Path)
    ensures Valid(fs) ==> Valid(Prune(fs, p))
  {
  }

  /** Some proper ancestor of `p` is a file, so `p` cannot be reached. */
  predicate BelowFile(fs: Fs, p: Path)
  {
    exists k :: 0 < k < |p| && p[..k] in fs.files
  }

  /** For a path of two components the only ancestor is the first. */
  lemma BelowFileTwo(fs: Fs, folder: string, name: string)
    ensures BelowFile(fs, [folder, name]) <==> [folder] in fs.files
  {
    assert [folder, name][..1] == [folder];
  }

  /**
    `remove_dir_all`: fails unless `p` is a directory, with NotADirectory
    when `p` or one of its ancestors is a file; otherwise removes `p` with
    its contents.
   */
  function RemoveDirAll(fs: Fs, p: Path): (r: Outcome)
    ensures r.Ok? <==> p in fs.dirs
    ensures r.Err? ==> r.error == (if p in fs.files || BelowFile(fs, p) then NotADirectory else NotFound)
    ensures r.Ok? ==> r.fs == Prune(fs, p)
    ensures Valid(fs) && r.Ok? ==> Valid(r.fs)
  {
    PruneValid(fs, p);
    if p in fs.dirs then Ok(Prune(fs, p))
    else if p in fs.files || BelowFile(fs, p) then Err(NotADirectory)
    else Err(NotFound)
  }

  /** `remove_file`: fails unless `p` is a file; otherwise removes that file only. */
  function RemoveFile(fs: Fs, p: Path): (r: Outcome)
    ensures r.Ok? <==> p in fs.files
    ensures r.Ok? ==> r.fs.dirs == fs.dirs && r.fs.files == fs.files - {p}
    ensures Valid(fs) && r.Ok? ==> Valid(r.fs)
  {
    if p in fs.files then Ok(Fs(fs.dirs, fs.files - {p}))
    else if p in fs.dirs then Err(IsADirectory)
    else Err(NotFound)
  }

  /** `create_dir`: fails if `p` exists or its parent is not a directory. */
  function CreateDir(fs: Fs, p: Path): (r: Outcome)
    requires |p| > 0
    ensures r.Ok? <==> !Exists(fs, p) && ParentIsDir(fs, p)
    ensures r.Ok? ==> r.fs.dirs == fs.dirs + {p} && r.fs.files == fs.files
    ensures Valid(fs) && r.Ok? ==> Valid(r.fs)
  {
    if Exists(fs, p) then Err(AlreadyExists)
    else if !ParentIsDir(fs, p) then Err(NotFound)
    else Ok(Fs(fs.dirs + {p}, fs.files))
  }

  /**
    `File::create`: fails if `p` is a directory or its parent is not one;
    otherwise `p` is an empty file, whether or not it existed before.
   */
  function CreateFile(fs: Fs, p: Path): (r: Outcome)
    requires |p| > 0
    ensures r.Ok? <==> p !in fs.dirs && ParentIsDir(fs, p)
    ensures r.Ok? ==> r.fs.dirs == fs.dirs && r.fs.files == fs.files[p := []]
    ensures Valid(fs) && r.Ok? ==> Valid(r.fs)
  {
    if p in fs.dirs then Err(IsADirectory)
    else if !ParentIsDir(fs, p) then Err(NotFound)
    else Ok(Fs(fs.dirs, fs.files[p := []]))
  }

  /** A write to an open file: the chunk is added after what the file already holds. */
  function Append(fs: Fs, p: Path, c: Chunk): (r: Fs)
    requires p in fs.files
    ensures r.dirs == fs.dirs && r.files == fs.files[p := fs.files[p] + [c]]
    ensures Valid(fs) ==> Valid(r)
  {
    Fs(fs.dirs, fs.files[p := fs.files[p] + [c]])
  }

  /** Writing `c` to a file that holds `s` leaves it holding `s + [c]`. */
  lemma Extend(files: map<Path, seq<Chunk>>, p: Path, s: seq<Chunk>, c: Chunk)
    ensures files[p := s][p := files[p := s][p] + [c]] == files[p := s + [c]]
  {
  }
}
