# ExoMedia extension registry, in Dafny

This project models `ExoMedia`, the process-wide registry that applications use to extend the ExoMedia player. It holds three independent pieces of state, kept in the static class `ExoMedia.Data`:

- **Renderer registry.** A map from each `RendererType` (audio, video, closed caption, metadata) to an ordered list of renderer class names. A static initialiser seeds it with the ExoPlayer extension renderers: opus, flac and ffmpeg for audio, and vp9 for video. `registerRenderer` appends to the end of a list and never removes duplicates.
- **Source-type builder list.** An ordered list of `(builder, extension, regex)` match rules. It is seeded with HLS, DASH and SmoothStreaming, in that order. `registerMediaSourceBuilder` inserts at index 0, so the builder registered last is tried first, and every built-in comes after every user registration.
- **HTTP data-source factory provider slot.** A nullable field. `setHttpDataSourceFactoryProvider` overwrites it, and the last write wins.

The model uses an immutable `Registry` datatype with one field per structure. `ExoMedia.Init` is the state the static initialiser leaves behind. Each public static method becomes a pure function from the old registry to the new one. The `Registrations` module runs arbitrary sequences of those calls. For each structure it has a reference definition that looks only at the calls touching that structure, and it proves the run's result equal to that definition for every sequence of calls.

Builders and providers are foreign objects. They are modelled as opaque tokens: the three built-in builder classes are named, and any other builder is a `CustomBuilder(id)`. The extension and regex strings are stored as plain data and never interpreted.

Files:
- `wrappers.dfy`: `Option`, which stands in for a nullable reference.
- `exomedia.dfy`: the data model, the static seeding and the three public operations.
- `registrations.dfy`: sequences of calls, the reference definitions, and the lemmas relating them.

The comment at `ExoMedia.java:105` lists the built-ins as "HLS, SmoothStream, and MPEG Dash". The code at lines 106-108 adds them as HLS, DASH, SmoothStreaming. The model follows the code.

## Model

| member | source | states |
|---|---|---|
| `ExoMedia.AddClass` | library/src/main/java/com/devbrackets/android/exomedia/ExoMedia.java:48 | Adding a name to a type's list keeps the old list as a prefix. The list grows by exactly one, the name becomes its last element, and the lists of all other types and the key set do not change. |
| `ExoMedia.InstantiateRendererClasses` | library/src/main/java/com/devbrackets/android/exomedia/ExoMedia.java:87-102 | After seeding, the map has exactly the four renderer types as keys. AUDIO is [opus, flac, ffmpeg], VIDEO is [vp9], and CLOSED_CAPTION and METADATA are empty. |
| `ExoMedia.InstantiateSourceProviders` | library/src/main/java/com/devbrackets/android/exomedia/ExoMedia.java:104-109 | After seeding, the builder list has exactly three entries, in this order: HLS with ".m3u8" / ".*m3u8.*", DASH with ".mpd" / ".*mpd.*", and SmoothStreaming with ".ism" / ".*ism.*". |
| `ExoMedia.Init` | library/src/main/java/com/devbrackets/android/exomedia/ExoMedia.java:74-85 | The state after the static initialiser satisfies the key invariant. It holds the default renderer lists and the three built-in builders in order, and the provider slot is empty (Java's `null`). |
| `ExoMedia.RegisterRenderer` | library/src/main/java/com/devbrackets/android/exomedia/ExoMedia.java:47-49 | The list for `t` becomes the old list with the class name appended at the end, and its length grows by one. The lists of other types, the builder list and the provider slot are unchanged. The key set is unchanged, so the invariant is kept. |
| `ExoMedia.RegisterMediaSourceBuilder` | library/src/main/java/com/devbrackets/android/exomedia/ExoMedia.java:51-60 | The new entry is at index 0 and every old entry moves back one place, so the list grows by one. The renderer map and the provider slot are unchanged. |
| `ExoMedia.SetHttpDataSourceFactoryProvider` | library/src/main/java/com/devbrackets/android/exomedia/ExoMedia.java:70-72 | The slot holds exactly the given value, including `None`, whatever it held before. Nothing else changes. |
| `ExoMedia.LastProviderWriteWins` | library/src/main/java/com/devbrackets/android/exomedia/ExoMedia.java:70-72 | Setting the provider to `p` and then to `q` gives the same registry as setting it to `q` once. |
| `ExoMedia.ProviderWriteIdempotent` | library/src/main/java/com/devbrackets/android/exomedia/ExoMedia.java:70-72 | Writing the current value back changes nothing, and writing the same value twice equals writing it once. |
| `Registrations.ValidHasEveryType` | library/src/main/java/com/devbrackets/android/exomedia/ExoMedia.java:89-92 | In a registry that satisfies the invariant, every renderer type has a list. So as long as the fields change only through the three public calls, the `get(type)` at line 48 never yields null. |
| `Registrations.Apply` | library/src/main/java/com/devbrackets/android/exomedia/ExoMedia.java:47-72 | Each of the three public calls keeps the invariant that the renderer map has exactly the four types as keys. |
| `Registrations.Run` | library/src/main/java/com/devbrackets/android/exomedia/ExoMedia.java:74-92 | Any sequence of public calls keeps the invariant that the renderer map has exactly the four types as keys. |
| `Registrations.RenderersAfterRun` | library/src/main/java/com/devbrackets/android/exomedia/ExoMedia.java:47-49 | After any sequence of calls, a type's list is its starting list followed by every name registered for that type, in registration order. Calls of other kinds have no effect on it. |
| `Registrations.BuildersAfterRun` | library/src/main/java/com/devbrackets/android/exomedia/ExoMedia.java:51-60 | After any sequence of calls, the builder list is every registered entry, newest first, followed by the starting list in its original order. |
| `Registrations.ProviderAfterRun` | library/src/main/java/com/devbrackets/android/exomedia/ExoMedia.java:70-72 | After any sequence of calls, the slot holds the value of the last provider write. With no provider write it keeps its starting value. |
| `Registrations.OccurrencesAfterRun` | library/src/main/java/com/devbrackets/android/exomedia/ExoMedia.java:48 | There is no de-duplication. After any sequence of calls, the number of occurrences of a name in a type's list is its starting count plus the number of calls that registered it for that type. |
| `Registrations.RepeatedRegistration` | library/src/main/java/com/devbrackets/android/exomedia/ExoMedia.java:48 | Registering the same name k times for a type appends exactly k copies of it to that type's list. That is exactly k more occurrences. |
| `Registrations.DefaultsStayFirst` | library/src/main/java/com/devbrackets/android/exomedia/ExoMedia.java:87-102 | From the initial state, after any calls, each list is its defaults followed by the user registrations for that type. So [opus, flac, ffmpeg] lead AUDIO, [vp9] leads VIDEO, and CLOSED_CAPTION and METADATA hold only user registrations. |
| `Registrations.BuilderPriority` | library/src/main/java/com/devbrackets/android/exomedia/ExoMedia.java:51-60 | From the initial state, the i-th user builder registered sits at index (number registered - 1 - i), so a later registration comes earlier. The three built-ins follow, in their original order, behind every user registration. |
| `Registrations.LatestBuilderFirst` | library/src/main/java/com/devbrackets/android/exomedia/ExoMedia.java:51-60 | If any builder has been registered, the one registered last is at index 0 and takes precedence. |
| `Registrations.IndependentCallsCommute` | library/src/main/java/com/devbrackets/android/exomedia/ExoMedia.java:47-80 | Two calls commute when they write different structures, or when both register renderers for different types. Each call touches only its own structure. |
| `Registrations.SameTypeOrderMatters` | library/src/main/java/com/devbrackets/android/exomedia/ExoMedia.java:48 | From any valid registry, registering two different names for the same type in one order gives a different registry than the other order, because the list keeps registration order. |
| `Registrations.BuilderOrderMatters` | library/src/main/java/com/devbrackets/android/exomedia/ExoMedia.java:59 | From any valid registry, of two different builder registrations the later one ends up at index 0. So swapping them changes which builder is tried first, and the two orders give different registries. |

## Left out

- Resolving a content locator to a builder (suffix or regex matching, first match wins) is done by `MediaSourceProvider`, which is not part of this model. The registry only stores the extension and regex strings, so the model treats them as opaque data.
- Memory visibility and thread safety are left out: the `volatile` provider field, and concurrent use of the `HashMap` and `ArrayList`/`LinkedList`. Every operation is modelled as one sequential step.
- Reflection is left out. `registerRenderer` receives a `Class` and stores `clazz.getName()`; the model takes the class name directly.
- The builders, `HttpDataSourceFactoryProvider.provide`, `HttpDataSource.BaseFactory`, `TransferListener` and the Android `Context` are foreign library types. The model keeps them as opaque tokens.
- Null arguments are left out. The source marks `type`, `clazz` and `builder` `@NonNull`. A null there would throw `NullPointerException` for a renderer, and would be stored as a null entry for a builder. The model's parameters cannot be null.
- Writes that bypass the three public calls are left out. The fields of `ExoMedia.Data` are `public static` and hold mutable collections (lines 75-80), so any code can change them directly. For example, `Data.registeredRendererClasses.remove(RendererType.AUDIO)` breaks the four-keys invariant, and a later `registerRenderer` for that type throws `NullPointerException` at line 48. The model assumes the fields change only through `registerRenderer`, `registerMediaSourceBuilder` and `setHttpDataSourceFactoryProvider`.
- Collaborators read the fields of `ExoMedia.Data` directly. Those reads are the fields of `Registry`, so the model has no separate accessor operations.
- The process-wide singleton lifetime is left out. The model passes a `Registry` value explicitly instead of holding it in global state.
