# ALVR visionOS client: entry screens and app rules in Dafny

This project models the logic behind the entry screens of the ALVR visionOS
streaming client, plus the app-level rules around them. It proves properties
of that model.

The model covers:

- **The start/stop control** (`ALVRClient/Entry/EntryControls.swift`):
  - the button's disabled rule and its action;
  - the icon, text and colour of the button;
  - the activation sequence that runs when `isShowingClient` turns true. It
    saves, then takes one of two paths:
    - experimental 40 PPD path: probe the view info with a dummy immersive
      space unless it is cached, reset the world-tracking origin anchor,
      then open the RealityKit client;
    - default path: open the Metal client.

    Either path then applies the refresh rate and optionally dismisses the
    entry window.

  The platform's answers come in as a script, and the calls the sequence
  makes are recorded as an action log. The class method
  `OnShowingClientChanged` performs the sequence. It is proved against the
  specification function `ActivationLog`, and the ordering and counting
  properties are lemmas about that function.
- **The entry window** (`ALVRClient/Entry/Entry.swift`):
  - clamping the chroma-key distance range;
  - the list of manually saved streamer addresses: add (with trimming),
    select and delete;
  - the predicates that drive what the list shows;
  - the save on scene-phase changes.
- **The app** (`ALVRClient/ALVRClientApp.swift`):
  - the compositor layer configuration;
  - the version check in `loadSettings`, which records a new version and
    raises the changelog at most once per process;
  - the app's scene-phase dispatch;
  - the two buttons of the AWDL warning.

The settings store, the view model and the world tracker are classes in
`platform.dfy`. The store's save marks the current settings as persisted
and counts the saves. Foundation's `trimmingCharacters(in:
.whitespacesAndNewlines)` is modelled in `trimming.dfy`.

## Model

| member | source | states |
|---|---|---|
| EntryControls.EntryControlsView.MainButtonTapped | ALVRClient/Entry/EntryControls.swift:27-31 | `isShowingClient` flips when connected. Otherwise it stays, which is exactly when the button is disabled (`MainButtonDisabled`, line 46). |
| EntryControls.ButtonFaceDeterminedByTwoInputs | ALVRClient/Entry/EntryControls.swift:119-147 | Icon, text and colour each separate exactly three situations: not connected (whatever `isShowingClient` is), connected and showing, connected and not showing. |
| EntryControls.EntryControlsView.OnShowingClientChanged | ALVRClient/Entry/EntryControls.swift:62-116 | Turning the flag off changes nothing. Turning it on completes exactly when `ActivationLog` does and appends its actions. On the experimental path the anchor flag ends false, `immersiveSpaceIsShown` is true iff the RealityKit open reported opened, and otherwise both space flags are false. On other runs the flags and the anchor are untouched. |
| EntryControls.EntryControlsView.OpenClientSpace | ALVRClient/Entry/EntryControls.swift:97-105 | One open is logged. The space counts as shown iff the open reported opened; any other result also clears `showImmersiveSpace`. |
| EntryControls.ProbeOpenAttempts | ALVRClient/Entry/EntryControls.swift:69-79 | The probe loop stops exactly when some attempt reports opened. It then has made one attempt per result up to and including the first opened one. |
| EntryControls.PollRenderInfo | ALVRClient/Entry/EntryControls.swift:81-83 | The poll stops exactly when some read finds render info. It sleeps once for each read before the first that found it. |
| EntryControls.RunProbe | ALVRClient/Entry/EntryControls.swift:69-86 | The probe steps complete iff both loops stop. Their steps are then the specification's probe steps; otherwise they are the opens and sleeps made before the script ran out. |
| EntryControls.PrepareRealityKit | ALVRClient/Entry/EntryControls.swift:68-93 | The steps before the RealityKit open complete exactly when the specification's preparation does, and are the same steps. |
| EntryControls.MetalPathOpensOnlyMetalClient | ALVRClient/Entry/EntryControls.swift:67-113 | With `experimental40ppd` off (line 67; lines 107-113), the sequence always completes: save, open `MetalClient`, apply the refresh rate, and optionally dismiss the window. The probe space is never opened. |
| EntryControls.CachedRenderInfoSkipsProbe | ALVRClient/Entry/EntryControls.swift:68-97 | With render info cached at the first read, the probe is skipped whatever the probe would answer: save, the missing-view-info diagnostic exactly when render info is gone at the check, reset the anchor, open `RealityKitClient`, then finish; the probe space is never opened or dismissed and the poll never waits. |
| EntryControls.ProbeRetriedUntilOpened | ALVRClient/Entry/EntryControls.swift:69-79 | On the probe path, the number of probe opens is the position of the first opened result. All earlier results were error or user-cancelled. |
| EntryControls.PollUntilRenderInfo | ALVRClient/Entry/EntryControls.swift:81-83 | On the probe path, the number of poll sleeps is the position of the first read that found render info. All earlier reads found none. |
| EntryControls.ProbeDismissedOnce | ALVRClient/Entry/EntryControls.swift:85-86 | The probe space is dismissed, and the settle sleep taken, exactly once on the probe path and never otherwise. |
| EntryControls.NoMissingViewInfoWhenRenderInfoStays | ALVRClient/Entry/EntryControls.swift:81-91 | If render info, once seen, is still there at the check, "missing view info" is never reported. |
| EntryControls.ActivationOrder | ALVRClient/Entry/EntryControls.swift:65-113 | Every completed activation starts with the save and opens the chosen client space right before the finishing steps. The finishing steps are applying the refresh rate, then dismissing the window iff `dismissWindowOnEnter`. |
| EntryControls.ActivationCounts | ALVRClient/Entry/EntryControls.swift:65-113 | The save, the chosen client open and the refresh rate each happen exactly once, whatever the open reported. The other client space is never opened. The window is dismissed once iff `dismissWindowOnEnter`. |
| EntryControls.OriginResetBeforeRealityKit | ALVRClient/Entry/EntryControls.swift:93-97 | On the experimental path the anchor reset comes immediately before the RealityKit open. |
| EntryControls.PreparationSteps | ALVRClient/Entry/EntryControls.swift:67-93 | Between the save and the client open there are only probe steps, the view-info check and the anchor reset. On the experimental path this part ends with the reset; on the Metal path it is empty. |
| EntryControls.ProbePathPreparation | ALVRClient/Entry/EntryControls.swift:68-93 | In closed form, the probe path completes iff some probe open reports opened and some poll read finds render info. |
| EntryControls.ProbePreparation | ALVRClient/Entry/EntryControls.swift:68-93 | A completed probe path means both loops stopped, with the probe steps for the first successes. |
| Entry.ClampedRange | ALVRClient/Entry/Entry.swift:30-46 | After clamping, 0.001 ≤ max ≤ 1 and 0 ≤ min ≤ max. An in-range max is kept, a min within [0, max] is kept, and an in-range pair is unchanged. |
| Entry.ClampIdempotent | ALVRClient/Entry/Entry.swift:30-46 | Clamping twice is clamping once. |
| Entry.EntryView.ApplyRangeSettings | ALVRClient/Entry/Entry.swift:30-49 | The stored range becomes `ClampedRange` of the old one, and nothing else in the settings changes. The view's maximum mirrors the new max, and the settings are saved. |
| Entry.AddEntryContents | ALVRClient/Entry/Entry.swift:55-62 | Adding keeps the old entries in order and appends at most the trimmed input. An address is saved afterwards iff it was before, or it is the non-empty trimmed input. |
| Entry.AddPreservesWellFormed | ALVRClient/Entry/Entry.swift:55-62 | Adding keeps the list free of duplicates, empty entries and untrimmed entries. |
| Entry.EntryView.AddNewIPAddress | ALVRClient/Entry/Entry.swift:55-62 | A non-empty, new trimmed input is appended, the field is cleared and the settings are saved. Otherwise nothing changes and nothing is saved. |
| Entry.RemoveEntryCount | ALVRClient/Entry/Entry.swift:459-465 | Deleting a saved address removes exactly one copy of it, and every other address occurs as often as before. Deleting an unsaved address changes nothing. |
| Entry.RemovePreservesWellFormed | ALVRClient/Entry/Entry.swift:459-465 | Deleting keeps the list free of duplicates, empty entries and untrimmed entries, and the deleted address is gone. |
| Entry.EntryView.DeleteRow | ALVRClient/Entry/Entry.swift:459-465 | The first occurrence is removed, the selection is cleared iff it was that address, and the settings are saved. An unsaved address changes nothing. |
| Entry.EntryView.SelectRow | ALVRClient/Entry/Entry.swift:439-458 | The row's address becomes the selected one and the settings are saved, for the discovered row (lines 439-441) and for manual rows (lines 455-458). |
| Entry.AddButtonAgreesOnTrimmedInput | ALVRClient/Entry/Entry.swift:372 | Against `addNewIPAddress` (lines 55-58): for input without surrounding whitespace, the Add button is enabled iff a tap adds the input. |
| Entry.AddButtonEnabledForBlankInput | ALVRClient/Entry/Entry.swift:372 | A single space enables the Add button (it tests the raw input), yet a tap saves nothing. |
| Entry.AddButtonEnabledForPaddedDuplicate | ALVRClient/Entry/Entry.swift:372 | A saved address typed with a trailing space enables the Add button, yet a tap saves nothing. |
| Entry.ConnectedRowUnique | ALVRClient/Entry/Entry.swift:404-452 | With no duplicates, at most one manual row shows as connected. While one does, the placeholder is hidden, and the discovered row is shown iff the address is non-empty. |
| Entry.EntryView.OnScenePhaseChange | ALVRClient/Entry/Entry.swift:121-134 | The window saves on background and inactive and does nothing on active. The settings never change. |
| ClientApp.MakeConfiguration | ALVRClient/ALVRClientApp.swift:19-41 | Depth is `depth32Float` and colour ends as `rgba16Float`. Foveation is enabled iff supported. The layout is layered iff the layouts queried, with the foveation option exactly when foveation is supported, include layered; otherwise it is dedicated. |
| ClientApp.MakeConfigurationIgnoresInput | ALVRClient/ALVRClientApp.swift:19-41 | The four fields it sets (depth format, colour format, foveation, layout) do not depend on their earlier values. |
| ClientApp.CurrentVersion | ALVRClient/ALVRClientApp.swift:146 | The compared version is the app version, then " build ", then the build number. |
| ClientApp.CheckVersion | ALVRClient/ALVRClientApp.swift:149-157 | The stored version becomes the current one. The changelog is raised iff the version is new and no changelog was raised in this process, and that raise is remembered. An unchanged version changes nothing, because `testChangelog` (line 97) is false. |
| ClientApp.CheckVersionIdempotent | ALVRClient/ALVRClientApp.swift:149-157 | Checking the same version twice is checking it once. |
| ClientApp.ChangelogRaisedOnce | ALVRClient/ALVRClientApp.swift:149-157 | After the changelog has been raised and dismissed once, no later check raises it again, whatever version it sees, because the process-wide `showedChangelog` (line 94) stays set. |
| ClientApp.App.LoadSettings | ALVRClient/ALVRClientApp.swift:135-160 | If either bundle version is missing, nothing changes. Otherwise the state becomes `CheckVersion`'s result, and the settings are saved exactly when a version is recorded. |
| ClientApp.App.OnScenePhaseChange | ALVRClient/ALVRClientApp.swift:198-233 | The headset-entered notification is sent once on active. Background and inactive do nothing. |
| ClientApp.AWDLAlert.ConfirmTapped | ALVRClient/ALVRClientApp.swift:63-67 | OK only dismisses the alert window. |
| ClientApp.AWDLAlert.DontShowAgainTapped | ALVRClient/ALVRClientApp.swift:69-75 | "Don't show again" sets `dontShowAWDLAlertAgain` and saves, then dismisses the window; no other setting changes. |
| Platform.GlobalSettingsStore.Save | ALVRClient/ALVRClientApp.swift:127-133 | Saving persists the current settings unchanged and counts one save. |
| Sequences.FirstIndexOf | ALVRClient/Entry/Entry.swift:459 | The result is the index of the first occurrence, or the length when the element is absent. |
| Sequences.RemoveFirstOccurrence | ALVRClient/Entry/Entry.swift:459-460 | Removing at the first index takes exactly one copy of the element out, and every other element occurs as often as before. |
| Sequences.RemoveFirstOccurrenceNoDuplicates | ALVRClient/Entry/Entry.swift:459-460 | In a duplicate-free list, removing at the first index leaves no copy of the element and keeps the list duplicate-free. |
| Trimming.Trim | ALVRClient/Entry/Entry.swift:56 | The trimmed string is the slice of the input that starts at its first non-whitespace character. It neither starts nor ends with whitespace and keeps every non-whitespace character. |
| Trimming.TrimEmptyIffBlank | ALVRClient/Entry/Entry.swift:56-57 | The trimmed input is empty iff the input is all whitespace. |
| Trimming.TrimFixedPoint | ALVRClient/Entry/Entry.swift:56 | A string is its own trim iff it neither starts nor ends with whitespace. |
| Trimming.TrimIdempotent | ALVRClient/Entry/Entry.swift:56 | Trimming twice is trimming once. |
| Trimming.TrimDropsTrailingSpace | ALVRClient/Entry/Entry.swift:56 | A trimmed string with a space appended trims back to itself. |

## Left out

- Durations: the 1 ms poll sleep and the 1 s settle sleep are actions (`PollWait`, `SettleWait`). Real time is not modelled.
- Asynchrony: the activation sequence and every `saveAction` run inside asynchronous blocks in the source. The model runs each one to completion in a single step. Interleavings are not modelled, such as `isShowingClient` being switched off while the sequence is still waiting.
- `DummyMetalRenderer.haveRenderInfo` is set by a renderer on another thread. The model supplies its values at the points where the sequence reads it (`RenderInfoReads`).
- Unbounded loops: the probe loop and the poll are unbounded in the source. The model drives them from finite scripts. When a script runs out while a loop is still waiting, the handler reports that it has not finished.
- EntryControls.EntryControlsView.OnShowingClientChanged: when the script runs out, it states only that the log was extended and that no flag changed. It does not state the exact partial actions; `RunProbe` states those.
- The `@unknown default` branches: open results other than opened, error and user-cancelled are not modelled.
- Collaborators that are not part of this model:
  - `VideoHandler.applyRefreshRate` is an action here, so the refresh-rate choice is not modelled. Neither are `applyStreamHz` or the refresh-rate lists.
  - Nothing of `EventHandler` is modelled beyond the connection state and the address it reports.
  - `WorldTracker` is modelled only through the anchor flag.
- The `saveAction` of the start/stop control is a closure chosen by its caller (the home tab passes an empty one). The home tab also shows the control only while the connection state is not connected (ALVRClient/Entry/Entry.swift:279-280), so there the main button is disabled whenever it is visible and its activation handler exists only while disconnected; the model states the control's own rules without that placement. It is therefore recorded as an action, not as a store save. The entry window's and the alert's `saveAction` is the app's settings save.
- Settings I/O: `load()`, the write to storage and the `fatalError` on failure are not modelled. A save marks the settings as persisted.
- The app start-up block is not modelled: setting `isShowingClient` false, starting the engine and the AR session. Neither is the chroma-key colour.
- Entry.ClampedRange: the chroma values are `real`. Float rounding of `max - 0.001` is not modelled. NaN is not modelled either: in the source a NaN passes every comparison unchanged, so the bounds do not hold for it.
- The whitespace set is `CharacterSet.whitespacesAndNewlines`. Trimming works on Unicode scalars, one `char` each.
- ClientApp.MakeConfiguration: the compositor configuration is modelled by the four fields `makeConfiguration` writes. Its other fields (such as `maxRenderQuality`) keep their earlier values in the source and are not part of the model.
- Entry.EntryView.AddNewIPAddress: saved addresses are compared code point by code point, not by Swift's canonical equivalence of `String`; an input such as `e` followed by a combining acute accent is appended even when the precomposed `é` is already saved, where the source would treat it as a duplicate. The same holds for `AddButtonDisabled`.
- Entry.EntryView.DeleteRow: the first index of the deleted address and the test that clears the selection compare code point by code point, not by Swift's canonical equivalence of `String`.
- The `#if XCODE_BETA_26` block (`maxRenderQuality`) and the commented-out background/resume logic are not modelled.
- View layout and text: the row names, selection highlighting and localised strings are not modelled. Only the predicates that decide what is shown or enabled are.
- The changelog alert's dismiss button is the step that resets `showChangelog`. `ChangelogRaisedOnce` models it by clearing the flag between two checks.
