/**
  The text `write_to_file` puts into the generated crate's manifest and
  source header: the feature clause of `bevy` (`feature_write`), the
  dependency lines each plugin contributes, the `use` lines of the crates'
  paths, the manifest itself and the cargo configuration file.
 */
module Manifest {
  import opened Wrappers
  import opened Text
  import opened Model

  // Feature clauses.

  /** The manifest tags of the features, in order. */
  function Tags(features: seq<Feature>): (tags: seq<string>)
    ensures |tags| == |features|
    ensures forall i :: 0 <= i < |features| ==> tags[i] == ToFeature(features[i])
  {
    seq(|features|, i requires 0 <= i < |features| => ToFeature(features[i]))
  }

  /** Each text in double quotes. */
  function QuoteAll(tags: seq<string>): (qs: seq<string>)
    ensures |qs| == |tags|
    ensures forall i :: 0 <= i < |tags| ==> qs[i] == "\"" + tags[i] + "\""
  {
    seq(|tags|, i requires 0 <= i < |tags| => "\"" + tags[i] + "\"")
  }

  function QuotedTags(features: seq<Feature>): seq<string>
  {
    QuoteAll(Tags(features))
  }

  /**
    The clause `feature_write` produces: `default-features = false` for no
    features, otherwise `features = [` followed by the quoted tags, comma
    separated, and `]`.
   */
  function FeatureClause(features: seq<Feature>): string
  {
    if features == [] then "default-features = false"
    else "features = [" + Join(QuotedTags(features), ",") + "]"
  }

  /**
    What the loop of `feature_write` has appended after `features = [` once
    it has handled the first `i` features: their quoted tags, each followed
    by a comma unless it is the last feature of the list.
   */
  function Written(quoted: seq<string>, i: nat): string
    requires i <= |quoted|
  {
    if i == 0 then "" else Join(quoted[..i], ",") + (if i < |quoted| then "," else "")
  }

  lemma WrittenSnoc(quoted: seq<string>, i: nat)
    requires i < |quoted|
    ensures Written(quoted, i + 1) == Written(quoted, i) + quoted[i] + (if i != |quoted| - 1 then "," else "")
  {
    if i == 0 {
      assert quoted[..1] == [quoted[0]];
    } else {
      assert quoted[..i + 1] == quoted[..i] + [quoted[i]];
      JoinSnoc(quoted[..i], ",", quoted[i]);
    }
  }

  /** One turn of the loop: the tag, then a comma unless it was the last. */
  lemma WrittenStep(s: string, head: string, quoted: seq<string>, i: nat, tag: string)
    requires i < |quoted| && s == head + Written(quoted, i) && tag == quoted[i]
    ensures i != |quoted| - 1 ==> s + tag + "," == head + Written(quoted, i + 1)
    ensures i == |quoted| - 1 ==> s + tag == head + Written(quoted, i + 1)
  {
    WrittenSnoc(quoted, i);
  }

  /** After the last turn, closing the list gives the clause. */
  lemma WrittenAll(s: string, features: seq<Feature>)
    requires |features| > 0 && s == "features = [" + Written(QuotedTags(features), |features|)
    ensures s + "]" == FeatureClause(features)
  {
    var quoted := QuotedTags(features);
    assert quoted[..|quoted|] == quoted;
  }

  /**
    `feature_write`: one quoted tag per feature, followed by a comma unless
    it is the last one, between `features = [` and `]`.
   */
  method FeatureWrite(features: seq<Feature>) returns (s: string)
    ensures s == FeatureClause(features)
  {
    s := "";
    if |features| == 0 {
      s := s + "default-features = false";
      return;
    }
    s := s + "features = [";
    ghost var head := s;
    ghost var quoted := QuotedTags(features);
    var len := |features|;
    for i := 0 to len
      invariant s == head + Written(quoted, i)
    {
      var tag := "\"" + ToFeature(features[i]) + "\"";
      WrittenStep(s, head, quoted, i, tag);
      s := s + tag;
      if i != len - 1 {
        s := s + ",";
      }
    }
    WrittenAll(s, features);
    s := s + "]";
  }

  /** Commas in a non-empty clause only separate tags: there are one fewer than features. */
  lemma FeatureClauseCommas(features: seq<Feature>)
    requires |features| > 0
    ensures Count(FeatureClause(features), ',') == |features| - 1
  {
    var tags := Tags(features);
    forall t | t in tags ensures ',' !in t {
      var i :| 0 <= i < |tags| && tags[i] == t;
      assert t == ToFeature(features[i]);
    }
    JoinCommas(tags);
    BracketCommas(Join(QuotedTags(features), ","));
  }

  lemma OpeningHasNoComma()
    ensures ',' !in "features = ["
  {
  }

  lemma BracketCommas(j: string)
    ensures Count("features = [" + j + "]", ',') == Count(j, ',')
  {
    OpeningHasNoComma();
    CountAppend("features = [" + j, "]", ',');
    CountAppend("features = [", j, ',');
    CountAbsent("features = [", ',');
    CountAbsent("]", ',');
  }

  lemma {:induction false} JoinCommas(tags: seq<string>)
    requires |tags| > 0
    requires forall t :: t in tags ==> ',' !in t
    ensures Count(Join(QuoteAll(tags), ","), ',') == |tags| - 1
  {
    var qs := QuoteAll(tags);
    assert ',' !in qs[0] by { assert tags[0] in tags; }
    CountAbsent(qs[0], ',');
    if |tags| > 1 {
      assert qs[1..] == QuoteAll(tags[1..]);
      JoinCommas(tags[1..]);
      CountAppend(qs[0] + ",", Join(qs[1..], ","), ',');
      CountAppend(qs[0], ",", ',');
    }
  }

  /** A non-empty clause ends with the last tag's closing quote and `]`: no trailing comma. */
  lemma FeatureClauseEnd(features: seq<Feature>)
    requires |features| > 0
    ensures var s := FeatureClause(features);
      |s| >= 2 && s[|s| - 1] == ']' && s[|s| - 2] == '"'
  {
    JoinEndsWithLast(QuotedTags(features), ",");
  }

  lemma {:induction false} JoinEndsWithLast(parts: seq<string>, sep: string)
    requires |parts| > 0
    ensures |Join(parts, sep)| >= |parts[|parts| - 1]|
    ensures var j := Join(parts, sep);
      j[|j| - |parts[|parts| - 1]|..] == parts[|parts| - 1]
  {
    if |parts| > 1 {
      JoinEndsWithLast(parts[1..], sep);
    }
  }

  /** Reads a feature clause back into its features. */
  function ParseFeatureClause(s: string): Option<seq<Feature>>
  {
    if s == "default-features = false" then Some([])
    else if StartsWith(s, "features = [") && |s| > 12 && s[|s| - 1] == ']' then
      match ParseTags(s[12..|s| - 1])
      case None => None
      case Some(tags) => FeaturesOfTags(tags)
    else None
  }

  /** Reads `"t1","t2",...` back into the tags t1, t2, ... */
  function ParseTags(t: string): Option<seq<string>>
    decreases |t|
  {
    if |t| == 0 || t[0] != '"' then None
    else
      match SplitAtFirst(t[1..], '"')
      case None => None
      case Some(split) =>
        if split.1 == [] then Some([split.0])
        else if split.1[0] != ',' then None
        else
          match ParseTags(split.1[1..])
          case None => None
          case Some(more) => Some([split.0] + more)
  }

  /** The features the tags name; None if one of them names none. */
  function FeaturesOfTags(tags: seq<string>): Option<seq<Feature>>
  {
    if tags == [] then Some([])
    else
      match FeatureOfTag(tags[0])
      case None => None
      case Some(f) =>
        match FeaturesOfTags(tags[1..])
        case None => None
        case Some(more) => Some([f] + more)
  }

  lemma {:induction false} TagsNameFeatures(features: seq<Feature>)
    ensures FeaturesOfTags(Tags(features)) == Some(features)
  {
    if features != [] {
      TagNamesFeature(features[0]);
      assert Tags(features)[1..] == Tags(features[1..]);
      TagsNameFeatures(features[1..]);
      assert [features[0]] + features[1..] == features;
    }
  }

  /** Splitting `"tag"` plus what follows at the closing quote. */
  lemma SplitQuoted(tag: string, rest: string)
    requires '"' !in tag
    ensures var t := "\"" + tag + "\"" + rest;
      |t| > 0 && t[0] == '"' && SplitAtFirst(t[1..], '"') == Some((tag, rest))
  {
    var t := "\"" + tag + "\"" + rest;
    assert t[1..] == tag + ['"'] + rest;
    SplitAtFirstAfter(tag, '"', rest);
  }

  lemma ParseTagsLast(tag: string)
    requires '"' !in tag
    ensures ParseTags("\"" + tag + "\"") == Some([tag])
  {
    SplitQuoted(tag, []);
    assert "\"" + tag + "\"" + [] == "\"" + tag + "\"";
  }

  lemma ParseTagsCons(tag: string, more: string, tags: seq<string>)
    requires '"' !in tag
    requires ParseTags(more) == Some(tags)
    ensures ParseTags("\"" + tag + "\"" + "," + more) == Some([tag] + tags)
  {
    var rest := "," + more;
    SplitQuoted(tag, rest);
    assert "\"" + tag + "\"" + rest == "\"" + tag + "\"" + "," + more;
    assert rest[1..] == more;
  }

  lemma {:induction false} ParseJoinedTags(tags: seq<string>)
    requires |tags| > 0
    requires forall t :: t in tags ==> '"' !in t
    ensures ParseTags(Join(QuoteAll(tags), ",")) == Some(tags)
  {
    var qs := QuoteAll(tags);
    assert '"' !in tags[0] by { assert tags[0] in tags; }
    if |tags| == 1 {
      ParseTagsLast(tags[0]);
      assert [tags[0]] == tags;
    } else {
      assert qs[1..] == QuoteAll(tags[1..]);
      ParseJoinedTags(tags[1..]);
      ParseTagsCons(tags[0], Join(qs[1..], ","), tags[1..]);
      assert [tags[0]] + tags[1..] == tags;
    }
  }

  /** The clause determines the feature list: parsing it gives the list back, in order. */
  lemma FeatureClauseRoundTrip(features: seq<Feature>)
    ensures ParseFeatureClause(FeatureClause(features)) == Some(features)
  {
    if features != [] {
      var j := Join(QuotedTags(features), ",");
      var s := FeatureClause(features);
      assert s[0] == 'f';
      assert s != "default-features = false";
      assert s[..12] == "features = [";
      assert s[12..|s| - 1] == j;
      var tags := Tags(features);
      forall t | t in tags ensures '"' !in t {
        var i :| 0 <= i < |tags| && tags[i] == t;
        assert t == ToFeature(features[i]);
      }
      ParseJoinedTags(tags);
      TagsNameFeatures(features);
    }
  }

  // Dependency and import lines.

  /**
    The manifest line of one dependency: a version starting with `{` is an
    inline table written as is, any other version is quoted.
   */
  function DepLine(d: PluginDependency): (line: string)
    ensures |line| > 0 && line[|line| - 1] == '\n'
  {
    if |d.crateVersion| > 0 && d.crateVersion[0] == '{' then d.crateName + " = " + d.crateVersion + "\n"
    else d.crateName + " = \"" + d.crateVersion + "\"\n"
  }

  function DepLines(deps: seq<PluginDependency>): (lines: seq<string>)
    ensures |lines| == |deps|
    ensures forall i :: 0 <= i < |deps| ==> lines[i] == DepLine(deps[i])
  {
    seq(|deps|, i requires 0 <= i < |deps| => DepLine(deps[i]))
  }

  /** What one plugin contributes to `[dependencies]`: its dependencies' lines, in order. */
  function PluginDeps(p: PluginRef): string
  {
    Concat(DepLines(p.dependencies))
  }

  /** The body of the closure in `crate_deps`: one line per dependency, appended in order. */
  method PluginDepsText(p: PluginRef) returns (s: string)
    ensures s == PluginDeps(p)
  {
    s := "";
    ghost var lines := DepLines(p.dependencies);
    for i := 0 to |p.dependencies|
      invariant s == Concat(lines[..i])
    {
      var b := p.dependencies[i];
      var k: string;
      if |b.crateVersion| > 0 && b.crateVersion[0] == '{' {
        k := b.crateName + " = " + b.crateVersion + "\n";
      } else {
        k := b.crateName + " = \"" + b.crateVersion + "\"\n";
      }
      ConcatStep(lines, i, s, k);
      s := s + k;
    }
    ConcatAll(lines);
  }

  function PerPlugin(plugins: seq<PluginRef>, f: PluginRef -> string): (texts: seq<string>)
    ensures |texts| == |plugins|
    ensures forall i :: 0 <= i < |plugins| ==> texts[i] == f(plugins[i])
  {
    seq(|plugins|, i requires 0 <= i < |plugins| => f(plugins[i]))
  }

  /** `crate_deps`: the plugins' dependency texts joined with nothing between them. */
  function CrateDeps(plugins: seq<PluginRef>): string
  {
    Concat(PerPlugin(plugins, PluginDeps))
  }

  /** One `use` line. */
  function UseLine(crateName: string, path: string): string
  {
    "use " + crateName + "::" + path + ";\n"
  }

  /** The `use` lines of one dependency: one per crate path, in order. */
  function DepImports(d: PluginDependency): string
  {
    Concat(seq(|d.cratePaths|, i requires 0 <= i < |d.cratePaths| => UseLine(d.crateName, d.cratePaths[i])))
  }

  /** What one plugin contributes to the imports: its dependencies' `use` lines, in order. */
  function PluginImports(p: PluginRef): string
  {
    Concat(seq(|p.dependencies|, i requires 0 <= i < |p.dependencies| => DepImports(p.dependencies[i])))
  }

  /** The body of the closure in `import_deps`: two nested loops over dependencies and their paths. */
  method PluginImportsText(p: PluginRef) returns (s: string)
    ensures s == PluginImports(p)
  {
    s := "";
    ghost var perDep := seq(|p.dependencies|, i requires 0 <= i < |p.dependencies| => DepImports(p.dependencies[i]));
    for i := 0 to |p.dependencies|
      invariant s == Concat(perDep[..i])
    {
      var b := p.dependencies[i];
      ghost var before := s;
      ghost var uses := seq(|b.cratePaths|, k requires 0 <= k < |b.cratePaths| => UseLine(b.crateName, b.cratePaths[k]));
      for j := 0 to |b.cratePaths|
        invariant s == before + Concat(uses[..j])
      {
        var line := "use " + b.crateName + "::" + b.cratePaths[j] + ";\n";
        ConcatStepAfter(before, uses, j, s, line);
        s := s + line;
      }
      ConcatAll(uses);
      ConcatStep(perDep, i, before, Concat(uses));
    }
    ConcatAll(perDep);
  }

  /** `import_deps`: the plugins' `use` texts joined with nothing between them. */
  function ImportDeps(plugins: seq<PluginRef>): string
  {
    Concat(PerPlugin(plugins, PluginImports))
  }

  /** Adding a plugin at the end adds its lines at the end of both texts, after all earlier ones. */
  lemma DepsAppend(a: seq<PluginRef>, b: seq<PluginRef>)
    ensures CrateDeps(a + b) == CrateDeps(a) + CrateDeps(b)
    ensures ImportDeps(a + b) == ImportDeps(a) + ImportDeps(b)
  {
    assert PerPlugin(a + b, PluginDeps) == PerPlugin(a, PluginDeps) + PerPlugin(b, PluginDeps);
    ConcatAppend(PerPlugin(a, PluginDeps), PerPlugin(b, PluginDeps));
    assert PerPlugin(a + b, PluginImports) == PerPlugin(a, PluginImports) + PerPlugin(b, PluginImports);
    ConcatAppend(PerPlugin(a, PluginImports), PerPlugin(b, PluginImports));
  }

  /** Plugins without dependencies add no manifest line and no `use` line. */
  lemma {:induction false} BarePlugins(plugins: seq<PluginRef>)
    requires forall i :: 0 <= i < |plugins| ==> plugins[i].dependencies == []
    ensures CrateDeps(plugins) == "" && ImportDeps(plugins) == ""
  {
    if plugins != [] {
      BarePlugins(plugins[1..]);
      assert [plugins[0]] + plugins[1..] == plugins;
      DepsAppend([plugins[0]], plugins[1..]);
      assert DepLines(plugins[0].dependencies) == [];
      assert PerPlugin([plugins[0]], PluginDeps) == [""];
      assert PerPlugin([plugins[0]], PluginImports) == [""];
      assert [""][1..] == [];
    }
  }

  /** Number of dependencies over all plugins. */
  function DepCount(plugins: seq<PluginRef>): nat
  {
    if plugins == [] then 0 else |plugins[0].dependencies| + DepCount(plugins[1..])
  }

  /** A name or version without a line break. */
  predicate OneLine(s: string)
  {
    '\n' !in s
  }

  lemma {:induction false} DepLinesCount(deps: seq<PluginDependency>)
    requires forall d :: d in deps ==> OneLine(d.crateName) && OneLine(d.crateVersion)
    ensures Count(Concat(DepLines(deps)), '\n') == |deps|
  {
    if deps != [] {
      var d := deps[0];
      var line := DepLine(d);
      CountAbsent(d.crateName, '\n');
      CountAbsent(d.crateVersion, '\n');
      if |d.crateVersion| > 0 && d.crateVersion[0] == '{' {
        CountAppend(d.crateName + " = ", d.crateVersion, '\n');
        CountAppend(d.crateName, " = ", '\n');
        CountAppend(d.crateName + " = " + d.crateVersion, "\n", '\n');
      } else {
        CountAppend(d.crateName + " = \"", d.crateVersion, '\n');
        CountAppend(d.crateName, " = \"", '\n');
        CountAppend(d.crateName + " = \"" + d.crateVersion, "\"\n", '\n');
      }
      assert Count(line, '\n') == 1;
      assert DepLines(deps)[1..] == DepLines(deps[1..]);
      DepLinesCount(deps[1..]);
      CountAppend(line, Concat(DepLines(deps[1..])), '\n');
    }
  }

  /**
    With names and versions on one line each, `crate_deps` has exactly one
    line per dependency of every plugin.
   */
  lemma {:induction false} CrateDepsLines(plugins: seq<PluginRef>)
    requires forall p, d :: p in plugins && d in p.dependencies ==> OneLine(d.crateName) && OneLine(d.crateVersion)
    ensures Count(CrateDeps(plugins), '\n') == DepCount(plugins)
  {
    if plugins != [] {
      DepLinesCount(plugins[0].dependencies);
      assert PerPlugin(plugins, PluginDeps)[1..] == PerPlugin(plugins[1..], PluginDeps);
      CrateDepsLines(plugins[1..]);
      CountAppend(PluginDeps(plugins[0]), CrateDeps(plugins[1..]), '\n');
    }
  }

  // The files' fixed texts.

  /** The manifest `write_to_file` writes for a crate named `name`. */
  function CargoManifest(name: string, crateDeps: string, features: string, devFeatures: string): string
  {
    ManifestLead + name + "\"" + CargoBody(crateDeps, features, devFeatures)
  }

  /** Everything after the package name's closing quote. */
  function CargoBody(crateDeps: string, features: string, devFeatures: string): string
  {
    "\nversion = \"0.1.0\"\nedition = \"2021\"\n\n"
    + "[workspace]\n\n"
    + "# Enable only a small amount of optimization in debug mode\n[profile.dev]\nopt-level = 1\n\n"
    + "# Enable high optimizations for dependencies (incl. Bevy), but not for our code:\n"
    + "[profile.dev.package.\"*\"]\nopt-level = 3\n\n"
    + "# Maximize release performance with Link-Time-Optimization\n[profile.release]\n"
    + "lto = \"thin\"\ncodegen-units = 1\n\n"
    + "[target.'cfg(target_os = \"linux\")'.dependencies]\n"
    + "winit = { version = \"0.27\", features=[\"x11\"]}\n\n"
    + "[dependencies]\n" + crateDeps + "\n"
    + "[dependencies.bevy]\nversion = \"0.8\"\n" + features + "\n\n"
    + "[dev-dependencies.bevy]\nversion = \"0.8\"\n" + devFeatures + "\n\n"
  }

  /** The manifest of the earlier generator: bevy 0.7, no workspace table, no plugin dependencies. */
  function LegacyCargoManifest(name: string, features: string, devFeatures: string): string
  {
    ManifestLead + name + "\"" + LegacyCargoBody(features, devFeatures)
  }

  function LegacyCargoBody(features: string, devFeatures: string): string
  {
    "\nversion = \"0.1.0\"\nedition = \"2021\"\n\n"
    + "# Enable only a small amount of optimization in debug mode\n[profile.dev]\nopt-level = 1\n\n"
    + "# Enable high optimizations for dependencies (incl. Bevy), but not for our code:\n"
    + "[profile.dev.package.\"*\"]\nopt-level = 3\n\n"
    + "# Maximize release performance with Link-Time-Optimization\n[profile.release]\n"
    + "lto = \"thin\"\ncodegen-units = 1\n\n"
    + "[target.'cfg(target_os = \"linux\")'.dependencies]\n"
    + "winit = { version = \"0.26.1\", features=[\"x11\"]}\n\n"
    + "[dependencies.bevy]\nversion = \"0.7\"\n" + features + "\n\n"
    + "[dev-dependencies.bevy]\nversion = \"0.7\"\n" + devFeatures + "\n\n"
  }

  /** The opening of both manifests, up to the package name. */
  const ManifestLead: string := "[package]\nname = \""

  /** The package name a manifest declares: the text between `name = "` and the next quote. */
  function ManifestName(text: string): Option<string>
  {
    if !StartsWith(text, ManifestLead) then None
    else
      match SplitAtFirst(text[|ManifestLead|..], '"')
      case None => None
      case Some(split) => Some(split.0)
  }

  lemma NameBeforeQuote(name: string, rest: string)
    requires '"' !in name
    ensures ManifestName(ManifestLead + name + "\"" + rest) == Some(name)
  {
    var t := ManifestLead + name + "\"" + rest;
    assert t[..|ManifestLead|] == ManifestLead;
    assert t[|ManifestLead|..] == name + ['"'] + rest;
    SplitAtFirstAfter(name, '"', rest);
  }

  /**
    The arguments of the manifest's `format!`: the package name, the plugins'
    dependency lines (the earlier generator has none) and both feature clauses.
   */
  datatype CargoToml =
    | CargoToml(name: string, crateDeps: string, features: string, devFeatures: string)
    | LegacyCargoToml(name: string, features: string, devFeatures: string)

  /** The text the manifest's `format!` produces from its arguments. */
  function TomlText(t: CargoToml): string
  {
    match t
    case CargoToml(name, crateDeps, features, devFeatures) => CargoManifest(name, crateDeps, features, devFeatures)
    case LegacyCargoToml(name, features, devFeatures) => LegacyCargoManifest(name, features, devFeatures)
  }

  /** Both manifests declare the output folder's name as the package name. */
  lemma ManifestDeclaresName(t: CargoToml)
    requires '"' !in t.name
    ensures ManifestName(TomlText(t)) == Some(t.name)
  {
    match t
    case CargoToml(name, crateDeps, features, devFeatures) =>
      CurrentManifestName(name, crateDeps, features, devFeatures);
    case LegacyCargoToml(name, features, devFeatures) =>
      LegacyManifestName(name, features, devFeatures);
  }

  lemma CurrentManifestName(name: string, crateDeps: string, features: string, devFeatures: string)
    requires '"' !in name
    ensures ManifestName(CargoManifest(name, crateDeps, features, devFeatures)) == Some(name)
  {
    NameBeforeQuote(name, CargoBody(crateDeps, features, devFeatures));
  }

  lemma LegacyManifestName(name: string, features: string, devFeatures: string)
    requires '"' !in name
    ensures ManifestName(LegacyCargoManifest(name, features, devFeatures)) == Some(name)
  {
    NameBeforeQuote(name, LegacyCargoBody(features, devFeatures));
  }

  /** `.cargo/config.toml`: the Windows linker settings, with no final newline. */
  const CargoConfig: string :=
    "[target.x86_64-pc-windows-msvc]\nlinker = \"rust-lld.exe\"\nrustflags = [\"-Zshare-generics=off\"]"

  /** The first write to the primary source file: the subsystem attribute and the prelude import. */
  const SourceHeader: string :=
    "#![cfg_attr(not(debug_assertions), windows_subsystem = \"windows\")]\nuse bevy::prelude::*;\n"

  /** The earlier generator's first write: the attribute alone, without a line break. */
  const LegacySourceHeader: string :=
    "#![cfg_attr(not(debug_assertions), windows_subsystem = \"windows\")]"
}
