/** App-level rules (ALVRClient/ALVRClientApp.swift): the compositor layer
    configuration, the version check that records the running version and
    raises the changelog once per process, the app's scene-phase dispatch
    and the two buttons of the AWDL warning. */
module ClientApp {
  import opened Platform

  // ------------------------------------------------------------------
  // Compositor layer configuration

  datatype Layout = Dedicated | Shared | Layered
  datatype ColorFormat = Bgra8UnormSrgb | Rgba16Float | Rgba8Unorm
  datatype DepthFormat = Depth32Float | Depth16Unorm

  /** What the compositor reports: whether foveation is supported, and the
      layouts it supports when queried with and without the foveation
      option. */
  datatype Capabilities = Capabilities(
    supportsFoveation: bool,
    layoutsWithFoveation: set<Layout>,
    layoutsWithoutFoveation: set<Layout>)

  /** The layouts reported for a query made with the foveation option or
      without any option. */
  function SupportedLayouts(caps: Capabilities, foveationOption: bool): set<Layout> {
    if foveationOption then caps.layoutsWithFoveation else caps.layoutsWithoutFoveation
  }

  datatype LayerConfiguration = LayerConfiguration(
    depthFormat: DepthFormat,
    colorFormat: ColorFormat,
    isFoveationEnabled: bool,
    layout: Layout)

  /** makeConfiguration, one assignment at a time: the colour format is
      first set to bgra8Unorm_srgb and finally overwritten; the layouts are
      queried with the foveation option exactly when foveation is
      supported. Only these four fields are modelled; each is overwritten
      whatever it held before. */
  function MakeConfiguration(caps: Capabilities, config: LayerConfiguration): (c: LayerConfiguration)
    ensures c.depthFormat == Depth32Float && c.colorFormat == Rgba16Float
    ensures c.isFoveationEnabled == caps.supportsFoveation
    ensures c.layout == Layered <==> Layered in SupportedLayouts(caps, caps.supportsFoveation)
    ensures c.layout != Layered ==> c.layout == Dedicated
  {
    var c1 := config.(depthFormat := Depth32Float);
    var c2 := c1.(colorFormat := Bgra8UnormSrgb);
    var foveationEnabled := caps.supportsFoveation;
    var c3 := c2.(isFoveationEnabled := foveationEnabled);
    var supportedLayouts := SupportedLayouts(caps, foveationEnabled);
    var c4 := c3.(layout := if Layered in supportedLayouts then Layered else Dedicated);
    c4.(colorFormat := Rgba16Float)
  }

  /** The four fields makeConfiguration sets do not depend on what they
      held before. */
  lemma MakeConfigurationIgnoresInput(caps: Capabilities, a: LayerConfiguration, b: LayerConfiguration)
    ensures MakeConfiguration(caps, a) == MakeConfiguration(caps, b)
  {
    var x := MakeConfiguration(caps, a);
    var y := MakeConfiguration(caps, b);
    assert x.layout == y.layout;
  }

  // ------------------------------------------------------------------
  // Version check and changelog

  /** The changelog test switch of the source, off. */
  const TestChangelog: bool := false

  /** The version string the app compares with the stored one. */
  function CurrentVersion(appVersion: string, buildVersionNumber: string): (v: string)
    ensures |v| == |appVersion| + 7 + |buildVersionNumber|
    ensures v[..|appVersion|] == appVersion
    ensures v[|v| - |buildVersionNumber|..] == buildVersionNumber
  {
    appVersion + " build " + buildVersionNumber
  }

  /** The stored last-used version and the two changelog flags. */
  datatype ChangelogState = ChangelogState(lastUsedAppVersion: string, showChangelog: bool, showedChangelog: bool)

  /** Whether the version check records `current` (and saves). */
  predicate RecordsVersion(current: string, st: ChangelogState) {
    current != st.lastUsedAppVersion || (TestChangelog && !st.showedChangelog)
  }

  /** The version check of loadSettings once both bundle versions are known:
      a new version is recorded, and the changelog is raised unless it was
      already raised in this process. With the test switch off, nothing
      changes for the version already recorded. */
  function CheckVersion(current: string, st: ChangelogState): (r: ChangelogState)
    ensures r.lastUsedAppVersion == current
    ensures r.showedChangelog == (st.showedChangelog || current != st.lastUsedAppVersion)
    ensures r.showChangelog == (st.showChangelog || (current != st.lastUsedAppVersion && !st.showedChangelog))
    ensures current == st.lastUsedAppVersion ==> r == st
  {
    if RecordsVersion(current, st) then
      var raise := !st.showedChangelog;
      ChangelogState(current, if raise then true else st.showChangelog, true)
    else st
  }

  /** Checking the same version twice is checking it once. */
  lemma CheckVersionIdempotent(current: string, st: ChangelogState)
    ensures CheckVersion(current, CheckVersion(current, st)) == CheckVersion(current, st)
  {
    assert CheckVersion(current, st).lastUsedAppVersion == current;
  }

  /** The changelog is raised at most once per process: after one raise
      (and the alert being dismissed in between), no later check raises it
      again, whatever versions they see. */
  lemma ChangelogRaisedOnce(v1: string, v2: string, st: ChangelogState)
    ensures var s1 := CheckVersion(v1, st);
      s1.showChangelog && !st.showChangelog ==>
        !CheckVersion(v2, s1.(showChangelog := false)).showChangelog
  {
    var s1 := CheckVersion(v1, st);
    if s1.showChangelog && !st.showChangelog {
      assert s1.showedChangelog;
    }
  }

  // ------------------------------------------------------------------
  // The app object

  /** Whether the app's scene-phase handler acts: only on Active, where it
      reports that the headset was put on. */
  predicate AppActsOn(phase: ScenePhase) {
    phase == Active
  }

  class App {
    const store: GlobalSettingsStore
    var showChangelog: bool
    /** A static variable in the source: one per process. */
    var showedChangelog: bool
    /** How often the streaming engine was told the headset was put on. */
    var headsetEnteredCalls: nat

    constructor (store: GlobalSettingsStore)
      ensures this.store == store && !showChangelog && !showedChangelog && headsetEnteredCalls == 0
    {
      this.store := store;
      showChangelog := false;
      showedChangelog := false;
      headsetEnteredCalls := 0;
    }

    function Changelog(): ChangelogState
      reads this, store
    {
      ChangelogState(store.settings.lastUsedAppVersion, showChangelog, showedChangelog)
    }

    /** The version check of loadSettings, after the settings are loaded.
        The bundle versions are parameters; when either is missing nothing
        changes. Otherwise the check runs and, when it records a version,
        the settings are saved. */
    method LoadSettings(appVersion: Option<string>, buildVersionNumber: Option<string>)
      modifies this, store
      ensures headsetEnteredCalls == old(headsetEnteredCalls)
      ensures appVersion.None? || buildVersionNumber.None? ==>
        && Changelog() == old(Changelog())
        && store.settings == old(store.settings) && store.persisted == old(store.persisted)
        && store.saveCount == old(store.saveCount)
      ensures appVersion.Some? && buildVersionNumber.Some? ==>
        var current := CurrentVersion(appVersion.value, buildVersionNumber.value);
        && Changelog() == CheckVersion(current, old(Changelog()))
        && store.settings == old(store.settings).(lastUsedAppVersion := Changelog().lastUsedAppVersion)
        && (RecordsVersion(current, old(Changelog())) ==>
              store.persisted == store.settings && store.saveCount == old(store.saveCount) + 1)
        && (!RecordsVersion(current, old(Changelog())) ==>
              store.persisted == old(store.persisted) && store.saveCount == old(store.saveCount))
    {
      if appVersion.Some? {
        if buildVersionNumber.Some? {
          var currentVersion := CurrentVersion(appVersion.value, buildVersionNumber.value);
          if currentVersion != store.settings.lastUsedAppVersion || (TestChangelog && !showedChangelog) {
            store.settings := store.settings.(lastUsedAppVersion := currentVersion);
            store.Save();
            if !showedChangelog {
              showChangelog := true;
            }
            showedChangelog := true;
          }
        }
      }
    }

    /** The app's scene-phase handler. */
    method OnScenePhaseChange(phase: ScenePhase)
      modifies this
      ensures headsetEnteredCalls == old(headsetEnteredCalls) + (if AppActsOn(phase) then 1 else 0)
      ensures showChangelog == old(showChangelog) && showedChangelog == old(showedChangelog)
    {
      match phase {
        case Background =>
        case Inactive =>
        case Active => headsetEnteredCalls := headsetEnteredCalls + 1;
      }
    }
  }

  // ------------------------------------------------------------------
  // The AWDL warning

  datatype AlertEffect = SaveSettings | DismissAlertWindow

  class AWDLAlert {
    const store: GlobalSettingsStore
    /** What the buttons did, oldest first. */
    var effects: seq<AlertEffect>

    constructor (store: GlobalSettingsStore)
      ensures this.store == store && effects == []
    {
      this.store := store;
      effects := [];
    }

    /** The OK button only closes the window. */
    method ConfirmTapped()
      modifies this
      ensures effects == old(effects) + [DismissAlertWindow]
    {
      effects := effects + [DismissAlertWindow];
    }

    /** The don't-show-again button records the choice, saves it and then
        closes the window. */
    method DontShowAgainTapped()
      modifies this, store
      ensures store.settings == old(store.settings).(dontShowAWDLAlertAgain := true)
      ensures store.persisted == store.settings && store.saveCount == old(store.saveCount) + 1
      ensures effects == old(effects) + [SaveSettings, DismissAlertWindow]
    {
      store.settings := store.settings.(dontShowAWDLAlertAgain := true);
      store.Save();
      effects := effects + [SaveSettings];
      effects := effects + [DismissAlertWindow];
    }
  }
}
