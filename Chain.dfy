/**
  The suffix chain: the method-call fragments appended to the app builder,
  one per plugin, then one per startup system, then one per runtime system.
  Both generator versions build it with the same three loops.
 */
module Chain {
  import opened Wrappers
  import opened Text

  /** A plugin as the chain sees it: its name and whether it is a plugin group. */
  datatype PluginEntry = PluginEntry(name: string, isGroup: bool)

  /** One fragment of the chain. */
  datatype Chunk =
    | AddPlugins(name: string)
    | AddPlugin(name: string)
    | AddStartupSystem(name: string)
    | AddSystem(name: string)

  function Verb(c: Chunk): string
  {
    match c
    case AddPlugins(_) => ".add_plugins("
    case AddPlugin(_) => ".add_plugin("
    case AddStartupSystem(_) => ".add_startup_system("
    case AddSystem(_) => ".add_system("
  }

  /** The text of a fragment, e.g. `.add_plugin(Name)`. */
  function ChunkText(c: Chunk): string
  {
    Verb(c) + c.name + ")"
  }

  /** The text of a list of fragments, in order. */
  function Render(cs: seq<Chunk>): string
  {
    if cs == [] then "" else ChunkText(cs[0]) + Render(cs[1..])
  }

  lemma RenderOne(c: Chunk)
    ensures Render([c]) == ChunkText(c)
  {
    assert [c][1..] == [];
  }

  lemma {:induction false} RenderAppend(a: seq<Chunk>, b: seq<Chunk>)
    ensures Render(a + b) == Render(a) + Render(b)
  {
    if a == [] {
      assert a + b == b;
    } else {
      assert (a + b)[1..] == a[1..] + b;
      RenderAppend(a[1..], b);
    }
  }

  /** A group is added with `add_plugins`, a single plugin with `add_plugin`. */
  function PluginChunk(p: PluginEntry): (c: Chunk)
    ensures c.name == p.name
    ensures c.AddPlugins? <==> p.isGroup
    ensures c.AddPlugins? || c.AddPlugin?
  {
    if p.isGroup then AddPlugins(p.name) else AddPlugin(p.name)
  }

  /**
    The fragments of the chain: exactly one per plugin, startup system and
    runtime system, in that order, each list keeping its own order and
    nothing removed or merged.
   */
  function SuffixChunks(plugins: seq<PluginEntry>, startup: seq<string>, runtime: seq<string>): (cs: seq<Chunk>)
    ensures |cs| == |plugins| + |startup| + |runtime|
    ensures forall i :: 0 <= i < |plugins| ==> cs[i] == PluginChunk(plugins[i])
    ensures forall j :: 0 <= j < |startup| ==> cs[|plugins| + j] == AddStartupSystem(startup[j])
    ensures forall k :: 0 <= k < |runtime| ==> cs[|plugins| + |startup| + k] == AddSystem(runtime[k])
  {
    PluginChunks(plugins) + StartupChunks(startup) + RuntimeChunks(runtime)
  }

  function PluginChunks(plugins: seq<PluginEntry>): seq<Chunk>
  {
    seq(|plugins|, i requires 0 <= i < |plugins| => PluginChunk(plugins[i]))
  }

  function StartupChunks(names: seq<string>): seq<Chunk>
  {
    seq(|names|, i requires 0 <= i < |names| => AddStartupSystem(names[i]))
  }

  function RuntimeChunks(names: seq<string>): seq<Chunk>
  {
    seq(|names|, i requires 0 <= i < |names| => AddSystem(names[i]))
  }

  lemma PluginChunksSnoc(plugins: seq<PluginEntry>, i: nat)
    requires i < |plugins|
    ensures PluginChunks(plugins[..i + 1]) == PluginChunks(plugins[..i]) + [PluginChunk(plugins[i])]
  {
  }

  lemma StartupChunksSnoc(names: seq<string>, i: nat)
    requires i < |names|
    ensures StartupChunks(names[..i + 1]) == StartupChunks(names[..i]) + [AddStartupSystem(names[i])]
  {
  }

  lemma RuntimeChunksSnoc(names: seq<string>, i: nat)
    requires i < |names|
    ensures RuntimeChunks(names[..i + 1]) == RuntimeChunks(names[..i]) + [AddSystem(names[i])]
  {
  }

  /** The chain text: the fragments' texts, in order. */
  function SuffixChain(plugins: seq<PluginEntry>, startup: seq<string>, runtime: seq<string>): string
  {
    Render(SuffixChunks(plugins, startup, runtime))
  }

  /**
    Builds the chain the way the generator does: one string per list, each
    grown by one fragment per element, then the three joined.
   */
  method BuildSuffixChain(plugins: seq<PluginEntry>, startup: seq<string>, runtime: seq<string>)
    returns (chain: string)
    ensures chain == SuffixChain(plugins, startup, runtime)
  {
    var pluginCode := "";
    for i := 0 to |plugins|
      invariant pluginCode == Render(PluginChunks(plugins[..i]))
    {
      var fragment: string;
      if plugins[i].isGroup {
        fragment := ".add_plugins(" + plugins[i].name + ")";
      } else {
        fragment := ".add_plugin(" + plugins[i].name + ")";
      }
      pluginCode := pluginCode + fragment;
      PluginChunksSnoc(plugins, i);
      RenderAppend(PluginChunks(plugins[..i]), [PluginChunk(plugins[i])]);
      RenderOne(PluginChunk(plugins[i]));
    }
    var startupCode := "";
    for j := 0 to |startup|
      invariant startupCode == Render(StartupChunks(startup[..j]))
    {
      var fragment := ".add_startup_system(" + startup[j] + ")";
      startupCode := startupCode + fragment;
      StartupChunksSnoc(startup, j);
      RenderAppend(StartupChunks(startup[..j]), [AddStartupSystem(startup[j])]);
      RenderOne(AddStartupSystem(startup[j]));
    }
    var systemCode := "";
    for k := 0 to |runtime|
      invariant systemCode == Render(RuntimeChunks(runtime[..k]))
    {
      var fragment := ".add_system(" + runtime[k] + ")";
      systemCode := systemCode + fragment;
      RuntimeChunksSnoc(runtime, k);
      RenderAppend(RuntimeChunks(runtime[..k]), [AddSystem(runtime[k])]);
      RenderOne(AddSystem(runtime[k]));
    }
    chain := pluginCode + startupCode + systemCode;
    assert plugins[..|plugins|] == plugins && startup[..|startup|] == startup && runtime[..|runtime|] == runtime;
    RenderAppend(PluginChunks(plugins), StartupChunks(startup));
    RenderAppend(PluginChunks(plugins) + StartupChunks(startup), RuntimeChunks(runtime));
  }

  /** Recognises one fragment at the front of `s`, returning it and what follows. */
  function ParseChunk(s: string): (r: Option<(Chunk, string)>)
    ensures r.Some? ==> |r.value.1| < |s|
  {
    if StartsWith(s, ".add_plugins(") then ParseName(s, 13, n => AddPlugins(n))
    else if StartsWith(s, ".add_plugin(") then ParseName(s, 12, n => AddPlugin(n))
    else if StartsWith(s, ".add_startup_system(") then ParseName(s, 20, n => AddStartupSystem(n))
    else if StartsWith(s, ".add_system(") then ParseName(s, 12, n => AddSystem(n))
    else None
  }

  function ParseName(s: string, verbLength: nat, make: string -> Chunk): (r: Option<(Chunk, string)>)
    requires verbLength <= |s|
    ensures r.Some? ==> |r.value.1| < |s|
  {
    match SplitAtFirst(s[verbLength..], ')')
    case None => None
    case Some(split) => Some((make(split.0), split.1))
  }

  /** Reads a whole chain text back into its fragments. */
  function ParseChain(s: string): Option<seq<Chunk>>
    decreases |s|
  {
    if s == [] then Some([])
    else
      match ParseChunk(s)
      case None => None
      case Some(first) =>
        match ParseChain(first.1)
        case None => None
        case Some(rest) => Some([first.0] + rest)
  }

  lemma Differs(s: string, prefix: string, k: nat)
    requires k < |s| && k < |prefix| && s[k] != prefix[k]
    ensures !StartsWith(s, prefix)
  {
  }

  lemma ParseNameAfter(verb: string, name: string, rest: string, make: string -> Chunk)
    requires ')' !in name
    ensures ParseName(verb + name + ")" + rest, |verb|, make) == Some((make(name), rest))
  {
    var s := verb + name + ")" + rest;
    assert s[|verb|..] == name + [')'] + rest;
    SplitAtFirstAfter(name, ')', rest);
  }

  lemma ParseChunkText(c: Chunk, rest: string)
    requires ')' !in c.name
    ensures ParseChunk(ChunkText(c) + rest) == Some((c, rest))
  {
    var s := ChunkText(c) + rest;
    assert s == Verb(c) + c.name + ")" + rest;
    assert StartsWith(s, Verb(c));
    match c
    case AddPlugins(n) =>
      ParseNameAfter(".add_plugins(", n, rest, n => AddPlugins(n));
    case AddPlugin(n) =>
      Differs(s, ".add_plugins(", 11);
      ParseNameAfter(".add_plugin(", n, rest, n => AddPlugin(n));
    case AddStartupSystem(n) =>
      Differs(s, ".add_plugins(", 5);
      Differs(s, ".add_plugin(", 5);
      ParseNameAfter(".add_startup_system(", n, rest, n => AddStartupSystem(n));
    case AddSystem(n) =>
      Differs(s, ".add_plugins(", 5);
      Differs(s, ".add_plugin(", 5);
      Differs(s, ".add_startup_system(", 6);
      ParseNameAfter(".add_system(", n, rest, n => AddSystem(n));
  }

  /**
    The chain text determines its fragments: reading it back gives exactly
    the fragments it was built from (names must not contain `)`).
   */
  lemma {:induction false} ParseRender(cs: seq<Chunk>)
    requires forall c :: c in cs ==> ')' !in c.name
    ensures ParseChain(Render(cs)) == Some(cs)
  {
    if cs != [] {
      ParseChunkText(cs[0], Render(cs[1..]));
      ParseRender(cs[1..]);
      assert [cs[0]] + cs[1..] == cs;
    }
  }
}
