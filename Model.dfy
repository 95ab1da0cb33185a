/**
  The project description (BevyModel) that the generator turns into code,
  with its kinds, plugins, components, systems and engine feature settings.
 */
module Model {
  import opened Wrappers

  /** What the generated crate is; Plugin and PluginGroup carry the name of the plugin type. */
  datatype BevyType = App | Plugin(name: string) | PluginGroup(name: string) | Example

  /** `name` is the output directory (or example file stem). */
  datatype Meta = Meta(name: string, bevyType: BevyType)

  /** A crate a plugin needs: its version text (or inline table) and the paths imported from it. */
  datatype PluginDependency = PluginDependency(crateName: string, crateVersion: string, cratePaths: seq<string>)

  datatype PluginRef = PluginRef(name: string, isGroup: bool, dependencies: seq<PluginDependency>)

  /** A component: its name and its (field name, field type) pairs. */
  datatype ComponentSpec = ComponentSpec(name: string, content: seq<(string, string)>)

  /** A system: parameters as (name, type) pairs; `content` is opaque body text. */
  datatype SystemSpec = SystemSpec(
    name: string,
    param: seq<(string, string)>,
    content: string,
    visibility: string,
    attributes: seq<string>)

  datatype Settings = Settings(features: seq<Feature>, devFeatures: seq<Feature>)

  datatype BevyModel = BevyModel(
    plugins: seq<PluginRef>,
    components: seq<ComponentSpec>,
    startupSystems: seq<SystemSpec>,
    systems: seq<SystemSpec>,
    bevySettings: Settings,
    meta: Meta,
    examples: seq<BevyModel>)

  /** The value `Meta::default()` gives. */
  function DefaultMeta(): Meta
  {
    Meta("bevy_default_meta", App)
  }

  /** The value `BevyModel::default()` gives: every list empty, the default meta. */
  function DefaultModel(): BevyModel
  {
    BevyModel([], [], [], [], Settings([], []), DefaultMeta(), [])
  }

  /** The optional engine features a generated crate can switch on. */
  datatype Feature =
    | Default
    | BevyAudio
    | BevyGilrs
    | BevyWinit
    | Render
    | Png
    | Hdr
    | Vorbis
    | X11
    | FilesystemWatcher
    | TraceChrome
    | TraceTracy
    | Wayland
    | WgpuTrace
    | BevyCiTesting
    | BevySprite
    | Dynamic
    | BevyUi
    | Tga
    | Serialize
    | Mp3
    | BevyCorePipeline
    | Wav
    | Trace
    | SubpixelGlyphAtlas
    | Bmp
    | BevyGltf
    | Dds
    | BevyDynamicPlugin
    | BevyRender
    | BevyText
    | Flac
    | BevyPbr
    | Jpeg
    | BevyDylib

  /** The manifest tag of each feature. */
  function ToFeature(f: Feature): (tag: string)
    ensures Candidate(tag) == Some(f)
    ensures '"' !in tag && ',' !in tag
  {
    if f.Default? || f.BevyAudio? || f.BevyGilrs? || f.BevyWinit? || f.Render? || f.Png? || f.Hdr? then Tag1(f)
    else if f.Vorbis? || f.X11? || f.FilesystemWatcher? || f.TraceChrome? || f.TraceTracy? || f.Wayland? || f.WgpuTrace? then Tag2(f)
    else if f.BevyCiTesting? || f.BevySprite? || f.Dynamic? || f.BevyUi? || f.Tga? || f.Serialize? || f.Mp3? then Tag3(f)
    else if f.BevyCorePipeline? || f.Wav? || f.Trace? || f.SubpixelGlyphAtlas? || f.Bmp? || f.BevyGltf? || f.Dds? then Tag4(f)
    else Tag5(f)
  }

  /*
    The tags, in five groups so that the facts about each group's literals
    are checked apart from the others.
   */
  function Tag1(f: Feature): (tag: string)
    requires f.Default? || f.BevyAudio? || f.BevyGilrs? || f.BevyWinit? || f.Render? || f.Png? || f.Hdr?
    ensures Candidate(tag) == Some(f)
    ensures '"' !in tag && ',' !in tag
  {
    match f
    case Default => "default"
    case BevyAudio => "bevy_audio"
    case BevyGilrs => "bevy_gilrs"
    case BevyWinit => "bevy_winit"
    case Render => "render"
    case Png => "png"
    case Hdr => "hdr"
  }

  function Tag2(f: Feature): (tag: string)
    requires f.Vorbis? || f.X11? || f.FilesystemWatcher? || f.TraceChrome? || f.TraceTracy? || f.Wayland? || f.WgpuTrace?
    ensures Candidate(tag) == Some(f)
    ensures '"' !in tag && ',' !in tag
  {
    match f
    case Vorbis => "vorbis"
    case X11 => "x11"
    case FilesystemWatcher => "filesystem_watcher"
    case TraceChrome => "trace_chrome"
    case TraceTracy => "trace_tracy"
    case Wayland => "wayland"
    case WgpuTrace => "wgpu_trace"
  }

  function Tag3(f: Feature): (tag: string)
    requires f.BevyCiTesting? || f.BevySprite? || f.Dynamic? || f.BevyUi? || f.Tga? || f.Serialize? || f.Mp3?
    ensures Candidate(tag) == Some(f)
    ensures '"' !in tag && ',' !in tag
  {
    match f
    case BevyCiTesting => "bevy_ci_testing"
    case BevySprite => "bevy_sprite"
    case Dynamic => "dynamic"
    case BevyUi => "bevy_ui"
    case Tga => "tga"
    case Serialize => "serialize"
    case Mp3 => "mp3"
  }

  function Tag4(f: Feature): (tag: string)
    requires f.BevyCorePipeline? || f.Wav? || f.Trace? || f.SubpixelGlyphAtlas? || f.Bmp? || f.BevyGltf? || f.Dds?
    ensures Candidate(tag) == Some(f)
    ensures '"' !in tag && ',' !in tag
  {
    match f
    case BevyCorePipeline => "bevy_core_pipeline"
    case Wav => "wav"
    case Trace => "trace"
    case SubpixelGlyphAtlas => "subpixel_glyph_atlas"
    case Bmp => "bmp"
    case BevyGltf => "bevy_gltf"
    case Dds => "dds"
  }

  function Tag5(f: Feature): (tag: string)
    requires f.BevyDynamicPlugin? || f.BevyRender? || f.BevyText? || f.Flac? || f.BevyPbr? || f.Jpeg? || f.BevyDylib?
    ensures Candidate(tag) == Some(f)
    ensures '"' !in tag && ',' !in tag
  {
    match f
    case BevyDynamicPlugin => "bevy_dynamic_plugin"
    case BevyRender => "bevy_render"
    case BevyText => "bevy_text"
    case Flac => "flac"
    case BevyPbr => "bevy_pbr"
    case Jpeg => "jpeg"
    case BevyDylib => "bevy_dylib"
  }

  /**
    The only feature whose tag could be `tag`: tags of the same length differ
    at their sixth character, or at their first when shorter than six.
   */
  function Candidate(tag: string): Option<Feature>
  {
    var key := if |tag| > 5 then tag[5] else if |tag| > 0 then tag[0] else ' ';
    match |tag|
    case 3 =>
      if key == 'p' then Some(Png)
      else if key == 'h' then Some(Hdr)
      else if key == 'x' then Some(X11)
      else if key == 't' then Some(Tga)
      else if key == 'm' then Some(Mp3)
      else if key == 'w' then Some(Wav)
      else if key == 'b' then Some(Bmp)
      else if key == 'd' then Some(Dds)
      else None
    case 4 =>
      if key == 'f' then Some(Flac)
      else if key == 'j' then Some(Jpeg)
      else None
    case 5 =>
      if key == 't' then Some(Trace)
      else None
    case 6 =>
      if key == 'r' then Some(Render)
      else if key == 's' then Some(Vorbis)
      else None
    case 7 =>
      if key == 'l' then Some(Default)
      else if key == 'n' then Some(Wayland)
      else if key == 'i' then Some(Dynamic)
      else if key == 'u' then Some(BevyUi)
      else None
    case 8 =>
      if key == 'p' then Some(BevyPbr)
      else None
    case 9 =>
      if key == 'l' then Some(Serialize)
      else if key == 'g' then Some(BevyGltf)
      else if key == 't' then Some(BevyText)
      else None
    case 10 =>
      if key == 'a' then Some(BevyAudio)
      else if key == 'g' then Some(BevyGilrs)
      else if key == 'w' then Some(BevyWinit)
      else if key == 't' then Some(WgpuTrace)
      else if key == 'd' then Some(BevyDylib)
      else None
    case 11 =>
      if key == '_' then Some(TraceTracy)
      else if key == 's' then Some(BevySprite)
      else if key == 'r' then Some(BevyRender)
      else None
    case 12 =>
      if key == '_' then Some(TraceChrome)
      else None
    case 15 =>
      if key == 'c' then Some(BevyCiTesting)
      else None
    case 18 =>
      if key == 'y' then Some(FilesystemWatcher)
      else if key == 'c' then Some(BevyCorePipeline)
      else None
    case 19 =>
      if key == 'd' then Some(BevyDynamicPlugin)
      else None
    case 20 =>
      if key == 'x' then Some(SubpixelGlyphAtlas)
      else None
    case _ => None
  }

  /** The inverse of ToFeature: the feature whose tag is `tag`, if any. */
  function FeatureOfTag(tag: string): (r: Option<Feature>)
    ensures r.Some? ==> ToFeature(r.value) == tag
  {
    var c := Candidate(tag);
    if c.Some? && ToFeature(c.value) == tag then c else None
  }

  /** Every tag names its feature back. */
  lemma TagNamesFeature(f: Feature)
    ensures FeatureOfTag(ToFeature(f)) == Some(f)
  {
  }

  /** Distinct features have distinct tags. */
  lemma ToFeatureInjective(a: Feature, b: Feature)
    ensures ToFeature(a) == ToFeature(b) ==> a == b
  {
    TagNamesFeature(a);
    TagNamesFeature(b);
  }
}
