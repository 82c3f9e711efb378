/**
 * The process-wide extension registry of ExoMedia: renderer class names per
 * renderer type, the prioritised list of media-source builders, and the
 * slot holding the HTTP data-source factory provider.
 *
 * The Java class keeps these as static mutable fields of `ExoMedia.Data`;
 * here they are the three fields of an immutable `Registry` value, and each
 * public static operation is a pure function from the old value to the new.
 */
module ExoMedia {
  import opened Wrappers

  /** The closed set of renderer categories. */
  datatype RendererType = Audio | Video | ClosedCaption | Metadata

  const AllRendererTypes: set<RendererType> := {Audio, Video, ClosedCaption, Metadata}

  /**
   * A media-source builder. The three built-in builder classes are named;
   * any builder an application supplies is an opaque token.
   */
  datatype MediaSourceBuilder =
    | HlsMediaSourceBuilder
    | DashMediaSourceBuilder
    | SsMediaSourceBuilder
    | CustomBuilder(id: nat)

  /** One match rule: the builder plus the extension and regex strings it is chosen by. */
  datatype SourceTypeBuilder = SourceTypeBuilder(builder: MediaSourceBuilder, extension: string, regex: string)

  /** An application-supplied HTTP data-source factory provider, as an opaque token. */
  datatype HttpDataSourceFactoryProvider = ProviderToken(id: nat)

  /** The state held by `ExoMedia.Data`. */
  datatype Registry = Registry(
    registeredRendererClasses: map<RendererType, seq<string>>,
    sourceTypeBuilders: seq<SourceTypeBuilder>,
    httpDataSourceFactoryProvider: Option<HttpDataSourceFactoryProvider>)

  /** Every renderer type has a list, and there are no other keys. */
  predicate Valid(r: Registry) {
    r.registeredRendererClasses.Keys == AllRendererTypes
  }

  // Class names of the ExoPlayer extension renderers registered by default.
  const OpusRenderer: string := "com.google.android.exoplayer2.ext.opus.LibopusAudioRenderer"
  const FlacRenderer: string := "com.google.android.exoplayer2.ext.flac.LibflacAudioRenderer"
  const FfmpegRenderer: string := "com.google.android.exoplayer2.ext.ffmpeg.FfmpegAudioRenderer"
  const Vp9Renderer: string := "com.google.android.exoplayer2.ext.vp9.LibvpxVideoRenderer"

  // The built-in match rules for the adaptive-streaming formats.
  const HlsEntry: SourceTypeBuilder := SourceTypeBuilder(HlsMediaSourceBuilder, ".m3u8", ".*m3u8.*")
  const DashEntry: SourceTypeBuilder := SourceTypeBuilder(DashMediaSourceBuilder, ".mpd", ".*mpd.*")
  const SsEntry: SourceTypeBuilder := SourceTypeBuilder(SsMediaSourceBuilder, ".ism", ".*ism.*")

  /**
   * `List.add(name)` on the list stored under `t`: the old list survives as
   * a prefix, `name` is its new last element, and no other key is touched.
   */
  function AddClass(m: map<RendererType, seq<string>>, t: RendererType, name: string): (m': map<RendererType, seq<string>>)
    requires t in m
    ensures m'.Keys == m.Keys
    ensures m[t] <= m'[t]
    ensures |m'[t]| == |m[t]| + 1
    ensures m'[t][|m[t]|] == name
    ensures forall u :: u in m && u != t ==> m'[u] == m[u]
  {
    m[t := m[t] + [name]]
  }

  /**
   * The renderer half of the static initialiser: four empty lists, then the
   * opus, flac and ffmpeg audio renderers and the vp9 video renderer.
   */
  function InstantiateRendererClasses(): (m: map<RendererType, seq<string>>)
    ensures m.Keys == AllRendererTypes
    ensures m[Audio] == [OpusRenderer, FlacRenderer, FfmpegRenderer]
    ensures m[Video] == [Vp9Renderer]
    ensures m[ClosedCaption] == [] && m[Metadata] == []
  {
    var empty := map[Audio := [], Video := [], ClosedCaption := [], Metadata := []];
    var audio := AddClass(AddClass(AddClass(empty, Audio, OpusRenderer), Audio, FlacRenderer), Audio, FfmpegRenderer);
    AddClass(audio, Video, Vp9Renderer)
  }

  /** The builder half of the static initialiser: HLS, DASH and SmoothStreaming appended in that order. */
  function InstantiateSourceProviders(): (s: seq<SourceTypeBuilder>)
    ensures |s| == 3
    ensures s[0].builder == HlsMediaSourceBuilder && s[0].extension == ".m3u8" && s[0].regex == ".*m3u8.*"
    ensures s[1].builder == DashMediaSourceBuilder && s[1].extension == ".mpd" && s[1].regex == ".*mpd.*"
    ensures s[2].builder == SsMediaSourceBuilder && s[2].extension == ".ism" && s[2].regex == ".*ism.*"
  {
    [HlsEntry] + [DashEntry] + [SsEntry]
  }

  /** The built-in builder list, in priority order. */
  function Builtins(): seq<SourceTypeBuilder> {
    InstantiateSourceProviders()
  }

  /**
   * The state right after the static initialiser of `ExoMedia.Data` has run:
   * the default renderers, the three built-in builders, and no provider.
   */
  function Init(): (r: Registry)
    ensures Valid(r)
    ensures r.registeredRendererClasses == map[Audio := [OpusRenderer, FlacRenderer, FfmpegRenderer],
                                               Video := [Vp9Renderer], ClosedCaption := [], Metadata := []]
    ensures r.sourceTypeBuilders == [HlsEntry, DashEntry, SsEntry]
    ensures r.httpDataSourceFactoryProvider == None
  {
    Registry(InstantiateRendererClasses(), InstantiateSourceProviders(), None)
  }

  /**
   * `registerRenderer(type, clazz)`, with the class passed as its name.
   * The Java code dereferences the list stored under `t`, which `Valid`
   * guarantees to exist.
   */
  function RegisterRenderer(r: Registry, t: RendererType, className: string): (r': Registry)
    requires t in r.registeredRendererClasses
    ensures r'.registeredRendererClasses.Keys == r.registeredRendererClasses.Keys
    ensures Valid(r) ==> Valid(r')
    ensures r.registeredRendererClasses[t] <= r'.registeredRendererClasses[t]
    ensures |r'.registeredRendererClasses[t]| == |r.registeredRendererClasses[t]| + 1
    ensures r'.registeredRendererClasses[t][|r.registeredRendererClasses[t]|] == className
    ensures forall u :: u in r.registeredRendererClasses && u != t ==>
                          r'.registeredRendererClasses[u] == r.registeredRendererClasses[u]
    ensures r'.sourceTypeBuilders == r.sourceTypeBuilders
    ensures r'.httpDataSourceFactoryProvider == r.httpDataSourceFactoryProvider
  {
    r.(registeredRendererClasses := AddClass(r.registeredRendererClasses, t, className))
  }

  /**
   * `registerMediaSourceBuilder(builder)`: the entry goes in at index 0, so
   * every earlier entry moves one place back and loses priority to it.
   */
  function RegisterMediaSourceBuilder(r: Registry, entry: SourceTypeBuilder): (r': Registry)
    ensures |r'.sourceTypeBuilders| == |r.sourceTypeBuilders| + 1
    ensures r'.sourceTypeBuilders[0] == entry
    ensures forall i :: 0 <= i < |r.sourceTypeBuilders| ==> r'.sourceTypeBuilders[i + 1] == r.sourceTypeBuilders[i]
    ensures r'.registeredRendererClasses == r.registeredRendererClasses
    ensures r'.httpDataSourceFactoryProvider == r.httpDataSourceFactoryProvider
  {
    r.(sourceTypeBuilders := [entry] + r.sourceTypeBuilders)
  }

  /** `setHttpDataSourceFactoryProvider(provider)`: the slot is overwritten, `None` included. */
  function SetHttpDataSourceFactoryProvider(r: Registry, provider: Option<HttpDataSourceFactoryProvider>): (r': Registry)
    ensures r'.httpDataSourceFactoryProvider == provider
    ensures r'.registeredRendererClasses == r.registeredRendererClasses
    ensures r'.sourceTypeBuilders == r.sourceTypeBuilders
  {
    r.(httpDataSourceFactoryProvider := provider)
  }

  /** Only the last of two provider writes is observable. */
  lemma LastProviderWriteWins(r: Registry, p: Option<HttpDataSourceFactoryProvider>, q: Option<HttpDataSourceFactoryProvider>)
    ensures SetHttpDataSourceFactoryProvider(SetHttpDataSourceFactoryProvider(r, p), q)
         == SetHttpDataSourceFactoryProvider(r, q)
  {
  }

  /** Writing the value the slot already holds changes nothing. */
  lemma ProviderWriteIdempotent(r: Registry, p: Option<HttpDataSourceFactoryProvider>)
    ensures SetHttpDataSourceFactoryProvider(r, r.httpDataSourceFactoryProvider) == r
    ensures SetHttpDataSourceFactoryProvider(SetHttpDataSourceFactoryProvider(r, p), p)
         == SetHttpDataSourceFactoryProvider(r, p)
  {
  }
}
