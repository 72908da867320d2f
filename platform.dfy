/** Types and shared objects that the entry screens and the app read or
    write but that belong to collaborators outside this model: the streaming
    engine's connection state, the SwiftUI scene phase, the outcome of
    opening an immersive space, the observable view model, the settings
    store and the world tracker. */
module Platform {

  datatype Option<T> = None | Some(value: T)

  /** Connection state published by the event handler. The entry screens
      only ever compare it with Connected. */
  datatype ConnectionState = Disconnected | Connecting | Connected

  /** SwiftUI's scene phase. */
  datatype ScenePhase = Background | Inactive | Active

  /** What `openImmersiveSpace` reports. */
  datatype OpenResult = Opened | Error | UserCancelled

  /** The three immersive spaces the app declares. */
  datatype SpaceId = DummyImmersiveSpace | RealityKitClient | MetalClient

  /** The fields of the persisted settings record that this model uses. */
  datatype GlobalSettings = GlobalSettings(
    experimental40ppd: bool,
    dismissWindowOnEnter: bool,
    chromaKeyDistRangeMin: real,
    chromaKeyDistRangeMax: real,
    savedIPAddresses: seq<string>,
    currentSelectedIP: string,
    lastUsedAppVersion: string,
    dontShowAWDLAlertAgain: bool)

  /** The process-wide settings store. Writing to storage is outside the
      model: a save records the settings as persisted and counts the save. */
  class GlobalSettingsStore {
    var settings: GlobalSettings
    var persisted: GlobalSettings
    var saveCount: nat

    constructor (initial: GlobalSettings)
      ensures settings == initial && persisted == initial && saveCount == 0
    {
      settings := initial;
      persisted := initial;
      saveCount := 0;
    }

    method Save()
      modifies this
      ensures settings == old(settings)
      ensures persisted == settings && saveCount == old(saveCount) + 1
    {
      persisted := settings;
      saveCount := saveCount + 1;
    }
  }

  /** The shared view model; only the flag that starts and stops streaming. */
  class ViewModel {
    var isShowingClient: bool

    constructor ()
      ensures !isShowingClient
    {
      isShowingClient := false;
    }
  }

  /** The world tracker; only the flag the activation sequence clears. */
  class WorldTracker {
    var worldTrackingAddedOriginAnchor: bool

    constructor (anchored: bool)
      ensures worldTrackingAddedOriginAnchor == anchored
    {
      worldTrackingAddedOriginAnchor := anchored;
    }
  }
}
