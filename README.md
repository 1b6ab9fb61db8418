# Valkyrie settings store, destination view-model and CLI validation

This project models three small, stateful or decision-making pieces of the
Valkyrie plugin and CLI:

- **The settings store** (`InMemorySettings`). It holds a persisted record of
  nullable strings plus one flag (`ValkyrieState`), together with the immutable
  snapshot it exposes (`ValkyriesSettings`). Each `updateX` writes one persisted
  field and then re-derives the snapshot. `clear` resets every field. The list of
  nested packs is stored as one comma-joined string and decoded by split-and-filter.
- **The icon-pack destination view-model** (`IconPackDestinationViewModel`). Its
  three-field state starts from the saved destination. Picking a directory
  replaces it, and `saveSettings` writes the chosen destination back into the
  settings store.
- **The CLI argument validation** (`res2iv`). It runs two ordered checks over
  facts about the input and output paths, each with a fixed message.

Files:

- `kotlin_text.dfy` (module `KotlinText`): nullable values, `orEmpty`,
  `joinToString`, `split` and `filter { it.isNotEmpty() }`, with both round trips
  between join and split.
- `settings.dfy` (module `Settings`): `Mode`, the persisted record, the snapshot
  function `ToValkyriesSettings`, and the class `InMemorySettings`.
- `destination.dfy` (module `Destination`): the view-model state, a value-level
  model of a sequence of view-model calls, and the class `IconPackDestinationViewModel`.
- `converter.dfy` (module `Converter`): `Res2Iv` over abstract path facts.

The class invariant `InMemorySettings.Valid()` says two things. The stored mode
string names a `Mode`, so the snapshot's `Mode.valueOf(mode!!)` cannot throw.
And `current` is exactly the snapshot derived from the persisted record, so it
is never stale. Every update method and `Clear` preserves it. Each method also
states its whole new persisted record ("nothing else changes") and its new
snapshot.

## Model

| member | source | states |
|---|---|---|
| `KotlinText.Split` | plugin/src/main/kotlin/io/github/composegears/valkyrie/settings/InMemorySettings.kt:84-85 | `split(",")` always yields at least one piece, and no piece contains the separator |
| `KotlinText.NonEmpty` | plugin/src/main/kotlin/io/github/composegears/valkyrie/settings/InMemorySettings.kt:86 | the filtered list holds no empty string and only elements of the input, keeps every non-empty input element, and is no longer than the input |
| `KotlinText.NonEmptyAppend` | plugin/src/main/kotlin/io/github/composegears/valkyrie/settings/InMemorySettings.kt:86 | filtering a concatenation gives the filtered parts in their original order, so the filter keeps the order of the kept elements |
| `KotlinText.NonEmptyKeepsAll` | plugin/src/main/kotlin/io/github/composegears/valkyrie/settings/InMemorySettings.kt:86 | filtering a list with no empty element returns it unchanged |
| `KotlinText.SplitJoin` | plugin/src/main/kotlin/io/github/composegears/valkyrie/settings/InMemorySettings.kt:37 | splitting the joined form of a non-empty, separator-free list gives the list back |
| `KotlinText.JoinSplit` | plugin/src/main/kotlin/io/github/composegears/valkyrie/settings/InMemorySettings.kt:84-85 | joining the pieces of any split restores the original string, so split loses nothing |
| `KotlinText.JoinThenDecode` | plugin/src/main/kotlin/io/github/composegears/valkyrie/settings/InMemorySettings.kt:84-86 | decoding a joined separator-free list yields exactly its non-empty elements in order; this includes the empty list |
| `Settings.ModeValueOf` | plugin/src/main/kotlin/io/github/composegears/valkyrie/settings/InMemorySettings.kt:78 | `Mode.valueOf(name)` yields mode `m` exactly when `name` is `m`'s name, and fails on every other string |
| `Settings.Or` | plugin/src/main/kotlin/io/github/composegears/valkyrie/settings/InMemorySettings.kt:80-82 | a non-empty stored string is kept; a null or empty one gives the default; with a non-empty default, the result is never empty |
| `Settings.DecodeNestedPacks` | plugin/src/main/kotlin/io/github/composegears/valkyrie/settings/InMemorySettings.kt:84-86 | whatever the stored string, the decoded list holds no empty name and no name containing a comma |
| `Settings.ToValkyriesSettings` | plugin/src/main/kotlin/io/github/composegears/valkyrie/settings/InMemorySettings.kt:76-92 | the snapshot exists exactly when the stored mode names a `Mode`, and a null mode fails as `mode!!` does; the snapshot's mode is the stored one; its package and pack names are never empty; its nested packs hold no empty string |
| `Settings.ClearedSnapshot` | plugin/src/main/kotlin/io/github/composegears/valkyrie/settings/InMemorySettings.kt:54-92 | after `clear` the snapshot has mode `Unspecified`, no preview, no nested packs, current pack "", the default package and pack names, and initial directory "", since the home fallback applies only to null (this relies on the persisted record keeping "" as "", see Left out) |
| `Settings.DefaultSnapshot` | plugin/src/main/kotlin/io/github/composegears/valkyrie/settings/PersistentSettings.kt:16-28 | a never-written record gives the default snapshot, whose initial directory is the home directory |
| `Settings.NestedPacksRoundTrip` | plugin/src/main/kotlin/io/github/composegears/valkyrie/settings/InMemorySettings.kt:32-40 | a non-empty list of non-empty, comma-free names, stored and then decoded, comes back unchanged |
| `Settings.InMemorySettings.constructor` | plugin/src/main/kotlin/io/github/composegears/valkyrie/settings/InMemorySettings.kt:10-14 | the store starts from the loaded record with its snapshot derived from it |
| `Settings.InMemorySettings.UpdateSettings` | plugin/src/main/kotlin/io/github/composegears/valkyrie/settings/InMemorySettings.kt:71-74 | after the rewrite, the snapshot is the one derived from the persisted record |
| `Settings.InMemorySettings.UpdateGeneratePreview` | plugin/src/main/kotlin/io/github/composegears/valkyrie/settings/InMemorySettings.kt:16-18 | only the preview flag changes, in both the record and the snapshot; the invariant is kept |
| `Settings.InMemorySettings.UpdateInitialDirectory` | plugin/src/main/kotlin/io/github/composegears/valkyrie/settings/InMemorySettings.kt:20-22 | only the initial directory changes; the snapshot shows the written string, even "" (this relies on the persisted record keeping "" as "", see Left out) |
| `Settings.InMemorySettings.UpdateIconPackName` | plugin/src/main/kotlin/io/github/composegears/valkyrie/settings/InMemorySettings.kt:24-26 | only the pack name changes; an empty name shows as `ValkyrieIcons` |
| `Settings.InMemorySettings.UpdateIconPackDestination` | plugin/src/main/kotlin/io/github/composegears/valkyrie/settings/InMemorySettings.kt:28-30 | only the destination changes, and the snapshot shows exactly the written string |
| `Settings.InMemorySettings.UpdateNestedPack` | plugin/src/main/kotlin/io/github/composegears/valkyrie/settings/InMemorySettings.kt:32-40 | an empty list stores "" in both fields; otherwise it stores the comma-joined list and makes the first name current; only the two nested-pack fields change; for comma-free names the snapshot's list is the non-empty input names |
| `Settings.InMemorySettings.UpdateCurrentNestedPack` | plugin/src/main/kotlin/io/github/composegears/valkyrie/settings/InMemorySettings.kt:42-44 | only the current nested pack changes |
| `Settings.InMemorySettings.UpdatePackageName` | plugin/src/main/kotlin/io/github/composegears/valkyrie/settings/InMemorySettings.kt:46-48 | only the package name changes; an empty name shows as the default package |
| `Settings.InMemorySettings.UpdateMode` | plugin/src/main/kotlin/io/github/composegears/valkyrie/settings/InMemorySettings.kt:50-52 | the mode's name is stored, and the snapshot's mode is that mode; nothing else changes |
| `Settings.InMemorySettings.Clear` | plugin/src/main/kotlin/io/github/composegears/valkyrie/settings/InMemorySettings.kt:54-69 | every persisted field is reset; the snapshot is the cleared default one |
| `Destination.InitialDestinationState` | idea-plugin/src/main/kotlin/io/github/composegears/valkyrie/ui/screen/mode/iconpack/destination/IconPackDestinationViewModel.kt:19-25 | the next button starts enabled exactly when the saved destination is non-empty; the destination is the saved one; the predicted package is the extractor's answer, or "" when it has none |
| `Destination.OpenEmptyIsDefault` | idea-plugin/src/main/kotlin/io/github/composegears/valkyrie/ui/screen/mode/iconpack/destination/IconPackDestinationViewModel.kt:43-47 | the default state (false, "", "") is what opening with no saved destination produces |
| `Destination.RunFollowsLastPick` | idea-plugin/src/main/kotlin/io/github/composegears/valkyrie/ui/screen/mode/iconpack/destination/IconPackDestinationViewModel.kt:28-40 | after any sequence of picks and saves, the state is set by the last pick: its absolute path, the extractor's prediction or "", and the next button enabled; with no pick the state is unchanged |
| `Destination.NextButtonStaysEnabled` | idea-plugin/src/main/kotlin/io/github/composegears/valkyrie/ui/screen/mode/iconpack/destination/IconPackDestinationViewModel.kt:28-36 | after any calls, the next button is enabled exactly when it was already enabled or some path was picked; once enabled it stays enabled |
| `Destination.SaveThenReopen` | idea-plugin/src/main/kotlin/io/github/composegears/valkyrie/ui/screen/mode/iconpack/destination/IconPackDestinationViewModel.kt:38-40 | a view-model opened after a save shows the saved destination, with the next button enabled exactly when it is non-empty |
| `Destination.IconPackDestinationViewModel.constructor` | idea-plugin/src/main/kotlin/io/github/composegears/valkyrie/ui/screen/mode/iconpack/destination/IconPackDestinationViewModel.kt:17-25 | the state is built from the store's current destination |
| `Destination.IconPackDestinationViewModel.UpdateDestination` | idea-plugin/src/main/kotlin/io/github/composegears/valkyrie/ui/screen/mode/iconpack/destination/IconPackDestinationViewModel.kt:28-36 | the destination becomes the path's absolute string; the next button is enabled; the prediction comes from the path's invariant-separator form |
| `Destination.IconPackDestinationViewModel.SaveSettings` | idea-plugin/src/main/kotlin/io/github/composegears/valkyrie/ui/screen/mode/iconpack/destination/IconPackDestinationViewModel.kt:38-40 | the store's snapshot destination then equals the view-model's; only the store's destination field changes; the view-model's state is unchanged |
| `Converter.Res2Iv` | cli/src/main/kotlin/io/github/composegears/valkyrie/Converter.kt:13-32 | the input message is reported exactly for a regular file that is neither SVG nor XML; the output message is reported exactly when the input passes and the output is not a directory; otherwise nothing is reported; no other message exists |
| `Converter.NonFileInputPassesExtensionCheck` | cli/src/main/kotlin/io/github/composegears/valkyrie/Converter.kt:22-26 | an input that is not a regular file is never rejected for its extension |
| `Converter.OutcomeIgnoresOptions` | cli/src/main/kotlin/io/github/composegears/valkyrie/Converter.kt:13-20 | package name, pack name, preview flag and output format have no effect on the outcome, because this version performs no conversion |

## Left out

- The conversion pipeline is outside the modelled files. The SVG/XML parser,
  code generator and icon-pack generator are called from
  `NewPackViewModel.kt:120` and `ImageVectorWithPreviewTest.kt:17-28`, but
  their own code is not part of this model.
- The persisted record is one process-wide object shared by every store. Here
  each `InMemorySettings` owns its own copy as a value field, so aliasing
  between two stores is not modelled.
- Settings.InMemorySettings.constructor: requires that the loaded record's mode
  name a `Mode`. Kotlin would throw from `Mode.valueOf` otherwise. That failure
  is modelled in `ToValkyriesSettings` (`Failure(UnknownMode(..))`), but a store
  built from such a record is not.
- Settings.ClearedSnapshot: `BaseState.string()` (PersistentSettings.kt:17-27)
  is not part of this model. Each such field is taken to store "" as "". If the
  persistence layer instead turns "" into null, `clear()` leaves the initial
  directory null. The `?:` at InMemorySettings.kt:91 would then give the home
  directory, not "".
- Settings.InMemorySettings.UpdateInitialDirectory: relies on the same
  assumption. If "" reads back as null, writing "" shows the home directory.
  `Clear` and the other setters' handling of "" rely on it as well. For the
  fields read through `or`, `orEmpty` or `split`, null and "" give the same
  snapshot value, so only the initial directory is affected.
- `or(default)`: its definition is not part of this model. It is taken to
  return the default when the stored string is null or empty (`Settings.Or`).
- `System.getProperty("user.home")` is the constant field `home`, fixed when the
  store is built. A null property is not modelled.
- `MutableStateFlow`/`StateFlow` are plain fields. Observers, coroutines and
  `TiamatViewModel` lifecycle are left out.
- `PackageExtractor.getFrom` is an arbitrary function parameter. A `Path` is
  reduced to its two string forms. The file system and `isSvg`/`isXml` are an
  arbitrary `facts` function from path string to `PathFacts`.
- Converter.Res2Iv: `Path(inputPathString)` and `Path(outputPathString)`
  (Converter.kt:21,28) throw for strings that are not valid paths. The model's
  `facts` function accepts every string, so that exception is not modelled.
- Converter.Res2Iv: `outputError` is not part of this model. It is taken to end
  the process, so only the first failing check's message is reported. A
  reported failure is `Exited(message)`; the exit status is not modelled.
- Compose screens, navigation, drag-and-drop, previews, `NewPackViewModel`,
  `FileToPainter` and the persistence service plumbing are UI or I/O and are
  not modelled.
- `Mode`'s enum declaration is not part of this model. Its three constants and
  their names are taken from the exhaustive `when` at
  idea-plugin/src/main/kotlin/io/github/composegears/valkyrie/ui/screen/settings/tabs/GeneralSettingsScreen.kt:114-118.

## Notes on the source

- The persisted record in `PersistentSettings.kt` does not declare
  `iconPackDestination`, but `InMemorySettings.kt:28-29,60,82` reads and writes
  it. The model adds it as a nullable string that starts as null.
- `res2iv` (Converter.kt:13-32) runs the two checks and converts nothing. It
  never reads its package name, pack name, preview flag or output format.
- A saved destination is re-read through `getFrom(absolutePathString)` when the
  view-model is reopened. A fresh pick uses `invariantSeparatorsPathString`
  instead. So the predicted package after reopening can differ wherever the two
  strings differ (`Destination.RunFollowsLastPick`, `Destination.InitialDestinationState`).
