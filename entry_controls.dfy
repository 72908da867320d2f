/** The start/stop control of the entry window and the activation sequence
    that runs when streaming is switched on
    (ALVRClient/Entry/EntryControls.swift).

    The platform calls the sequence makes (opening and dismissing immersive
    spaces, sleeping, applying the refresh rate, dismissing the window) are
    recorded as `Action`s in a log. What the platform answers is supplied as
    a script: the results of successive attempts to open the probe space, the
    values `haveRenderInfo` has when it is read (it is set by the probe's
    renderer on another thread), and the result of opening the RealityKit
    client. Both wait loops of the source are unbounded; when the script
    runs out while the sequence is still waiting, the handler stops and
    reports that it has not finished. */
module EntryControls {
  import opened Platform
  import opened Sequences

  // ------------------------------------------------------------------
  // The main button

  /** The button is disabled whenever the engine is not connected. */
  predicate MainButtonDisabled(state: ConnectionState) {
    state != Connected
  }

  datatype Color = Gray | Red | Blue

  function ButtonIcon(state: ConnectionState, isShowingClient: bool): string {
    if state != Connected then "wifi.slash"
    else if isShowingClient then "stop.fill"
    else "play.fill"
  }

  function ButtonText(state: ConnectionState, isShowingClient: bool): string {
    if state != Connected then "未连接"
    else if isShowingClient then "停止串流"
    else "开始串流"
  }

  function ButtonColor(state: ConnectionState, isShowingClient: bool): Color {
    if state != Connected then Gray
    else if isShowingClient then Red
    else Blue
  }

  /** Two (state, isShowingClient) situations look the same on the button. */
  predicate SameButtonFace(s1: ConnectionState, b1: bool, s2: ConnectionState, b2: bool) {
    (s1 != Connected && s2 != Connected) || (s1 == Connected && s2 == Connected && b1 == b2)
  }

  /** The icon, the text and the colour each tell apart exactly three
      situations: not connected (whatever isShowingClient is), connected and
      streaming, connected and not streaming. */
  lemma ButtonFaceDeterminedByTwoInputs(s1: ConnectionState, b1: bool, s2: ConnectionState, b2: bool)
    ensures ButtonIcon(s1, b1) == ButtonIcon(s2, b2) <==> SameButtonFace(s1, b1, s2, b2)
    ensures ButtonText(s1, b1) == ButtonText(s2, b2) <==> SameButtonFace(s1, b1, s2, b2)
    ensures ButtonColor(s1, b1) == ButtonColor(s2, b2) <==> SameButtonFace(s1, b1, s2, b2)
  {
    assert "wifi.slash"[0] != "stop.fill"[0] && "wifi.slash"[0] != "play.fill"[0];
    assert "stop.fill"[0] != "play.fill"[0];
    assert "未连接"[0] != "停止串流"[0] && "未连接"[0] != "开始串流"[0];
    assert "停止串流"[0] != "开始串流"[0];
  }

  // ------------------------------------------------------------------
  // The activation sequence, as a specification of its action log

  datatype Action =
    | SaveAction            // the view's saveAction closure
    | OpenSpace(space: SpaceId)
    | DismissSpace
    | PollWait              // the 1 ms sleep of the render-info poll
    | SettleWait            // the 1 s sleep after dismissing the probe
    | MissingViewInfo       // the "MISSING VIEW INFO" diagnostic
    | ResetOriginAnchor     // clearing worldTrackingAddedOriginAnchor
    | ApplyRefreshRate
    | DismissEntryWindow

  /** The steps every completed activation ends with. */
  function Finish(dismissWindowOnEnter: bool): seq<Action> {
    [ApplyRefreshRate] + (if dismissWindowOnEnter then [DismissEntryWindow] else [])
  }

  /** The space that carries the stream. */
  function ClientSpace(experimental40ppd: bool): SpaceId {
    if experimental40ppd then RealityKitClient else MetalClient
  }

  /** The values haveRenderInfo has when the sequence reads it: when it
      decides whether to probe, at each check of the poll loop (in order),
      and when it checks for missing view info. */
  datatype RenderInfoReads = RenderInfoReads(atStart: bool, duringPoll: seq<bool>, atCheck: bool)

  /** The probe steps: `attempts` opens of the probe space, `polls` sleeps
      of the render-info poll, then the probe is dismissed and the sequence
      settles. */
  function ProbeActions(attempts: nat, polls: nat): seq<Action> {
    Repeat(OpenSpace(DummyImmersiveSpace), attempts) + Repeat(PollWait, polls) + [DismissSpace, SettleWait]
  }

  /** The render-info check and the origin-anchor reset. */
  function OriginReset(haveRenderInfo: bool): seq<Action> {
    (if haveRenderInfo then [] else [MissingViewInfo]) + [ResetOriginAnchor]
  }

  /** What happens between saveAction and the opening of the client space,
      or None when the scripted outcomes run out inside one of the two wait
      loops. Nothing on the Metal path; on the experimental path the probe
      steps unless render info is already there, then the check and reset. */
  function Preparation(experimental40ppd: bool, probeResults: seq<OpenResult>,
                       info: RenderInfoReads): Option<seq<Action>>
  {
    if !experimental40ppd then Some([])
    else if info.atStart then Some(OriginReset(info.atCheck))
    else
      var attempts := FirstIndexOf(probeResults, Opened);
      var polls := FirstIndexOf(info.duringPoll, true);
      if attempts == |probeResults| || polls == |info.duringPoll| then None
      else Some(ProbeActions(attempts + 1, polls) + OriginReset(info.atCheck))
  }

  /** A completed activation: saveAction, the preparation, the opening of
      the client space, the finishing steps. */
  function Completed(prep: seq<Action>, open: Action, dismissWindowOnEnter: bool): seq<Action> {
    [SaveAction] + prep + [open] + Finish(dismissWindowOnEnter)
  }

  /** The actions of one activation (isShowingClient turned true), or None
      when the scripted outcomes run out before it completes. */
  function ActivationLog(experimental40ppd: bool, dismissWindowOnEnter: bool,
                         probeResults: seq<OpenResult>, info: RenderInfoReads): Option<seq<Action>>
  {
    match Preparation(experimental40ppd, probeResults, info)
    case None => None
    case Some(prep) => Some(Completed(prep, OpenSpace(ClientSpace(experimental40ppd)), dismissWindowOnEnter))
  }

  /** Once haveRenderInfo has been read true, it is still true at the check
      for missing view info (nothing resets it in between). */
  predicate StaysSet(info: RenderInfoReads) {
    && (info.atStart ==> info.atCheck)
    && (forall i :: 0 <= i < |info.duringPoll| && info.duringPoll[i] ==> info.atCheck)
  }

  /** The actions that may occur between saveAction and the client open. */
  predicate IsPreparationStep(a: Action) {
    || a == OpenSpace(DummyImmersiveSpace)
    || a in {PollWait, DismissSpace, SettleWait, MissingViewInfo, ResetOriginAnchor}
  }

  // ------------------------------------------------------------------
  // Properties of the activation sequence

  /** How often each action occurs among the probe steps. */
  lemma ProbeActionsCount(attempts: nat, polls: nat, a: Action)
    ensures Count(ProbeActions(attempts, polls), a)
      == (if a == OpenSpace(DummyImmersiveSpace) then attempts else 0)
         + (if a == PollWait then polls else 0)
         + (if a == DismissSpace || a == SettleWait then 1 else 0)
  {
    var opens := Repeat(OpenSpace(DummyImmersiveSpace), attempts);
    var waits := Repeat(PollWait, polls);
    RepeatCount(OpenSpace(DummyImmersiveSpace), attempts, a);
    RepeatCount(PollWait, polls, a);
    CountConcat(opens + waits, [DismissSpace, SettleWait], a);
    CountConcat(opens, waits, a);
    CountConcat([DismissSpace], [SettleWait], a);
    assert [DismissSpace, SettleWait] == [DismissSpace] + [SettleWait];
  }

  /** How often each action occurs in the preparation of the probe path. */
  lemma ProbePreparationCount(attempts: nat, polls: nat, haveRenderInfo: bool, a: Action)
    ensures Count(ProbeActions(attempts, polls) + OriginReset(haveRenderInfo), a)
      == Count(ProbeActions(attempts, polls), a)
         + (if a == MissingViewInfo && !haveRenderInfo then 1 else 0)
         + (if a == ResetOriginAnchor then 1 else 0)
  {
    CountConcat(ProbeActions(attempts, polls), OriginReset(haveRenderInfo), a);
    CountConcat(if haveRenderInfo then [] else [MissingViewInfo], [ResetOriginAnchor], a);
  }

  /** How often each action occurs in a completed activation. */
  lemma CompletedCount(prep: seq<Action>, open: Action, dismissWindowOnEnter: bool, a: Action)
    ensures Count(Completed(prep, open, dismissWindowOnEnter), a)
      == Count(prep, a)
         + (if a == SaveAction then 1 else 0)
         + (if a == open then 1 else 0)
         + (if a == ApplyRefreshRate then 1 else 0)
         + (if a == DismissEntryWindow && dismissWindowOnEnter then 1 else 0)
  {
    CountConcat([SaveAction] + prep + [open], Finish(dismissWindowOnEnter), a);
    CountConcat([SaveAction] + prep, [open], a);
    CountConcat([SaveAction], prep, a);
    CountConcat([ApplyRefreshRate], if dismissWindowOnEnter then [DismissEntryWindow] else [], a);
  }

  /** Where the fixed steps sit in a completed activation. */
  lemma CompletedPositions(prep: seq<Action>, open: Action, dismissWindowOnEnter: bool)
    ensures var log := Completed(prep, open, dismissWindowOnEnter);
      && |log| == |prep| + 2 + |Finish(dismissWindowOnEnter)|
      && log[0] == SaveAction
      && log[1..|prep| + 1] == prep
      && log[|prep| + 1] == open
      && log[|prep| + 2..] == Finish(dismissWindowOnEnter)
  {
    var log := Completed(prep, open, dismissWindowOnEnter);
    assert log == [SaveAction] + prep + [open] + Finish(dismissWindowOnEnter);
    assert log[1..|prep| + 1] == prep;
    assert log[|prep| + 2..] == Finish(dismissWindowOnEnter);
  }

  /** On the probe path the preparation is the probe steps for the first
      successful probe open and the first render-info read that found it,
      followed by the check and the reset; a completed probe path means both
      wait loops stopped within the script. */
  lemma ProbePreparation(probeResults: seq<OpenResult>, info: RenderInfoReads)
    requires !info.atStart
    requires Preparation(true, probeResults, info).Some?
    ensures Opened in probeResults && true in info.duringPoll
    ensures Preparation(true, probeResults, info).value
      == ProbeActions(FirstIndexOf(probeResults, Opened) + 1, FirstIndexOf(info.duringPoll, true))
         + OriginReset(info.atCheck)
  {
  }

  /** The probe path in closed form: it completes exactly when some probe
      open reports Opened and some poll read finds render info. */
  lemma ProbePathPreparation(probeResults: seq<OpenResult>, info: RenderInfoReads)
    requires !info.atStart
    ensures Preparation(true, probeResults, info)
      == if Opened in probeResults && true in info.duringPoll
         then Some(ProbeActions(FirstIndexOf(probeResults, Opened) + 1, FirstIndexOf(info.duringPoll, true))
                   + OriginReset(info.atCheck))
         else None
  {
  }

  /** Only the probe steps, the check and the reset occur in a preparation;
      on the experimental path it is never empty and ends with the reset. */
  lemma PreparationSteps(experimental40ppd: bool, probeResults: seq<OpenResult>, info: RenderInfoReads, a: Action)
    requires Preparation(experimental40ppd, probeResults, info).Some?
    ensures var prep := Preparation(experimental40ppd, probeResults, info).value;
      && (!IsPreparationStep(a) ==> Count(prep, a) == 0)
      && (experimental40ppd <==> prep != [])
      && (experimental40ppd ==> prep[|prep| - 1] == ResetOriginAnchor)
  {
    if experimental40ppd && !info.atStart {
      ProbePreparation(probeResults, info);
      var attempts := FirstIndexOf(probeResults, Opened) + 1;
      var polls := FirstIndexOf(info.duringPoll, true);
      ProbePreparationCount(attempts, polls, info.atCheck, a);
      ProbeActionsCount(attempts, polls, a);
    }
  }

  /** With experimental40ppd off, the sequence completes whatever the script
      says: saveAction, MetalClient opened, the finishing steps, and nothing
      else, so the probe space is never opened. */
  lemma MetalPathOpensOnlyMetalClient(dismissWindowOnEnter: bool,
                                      probeResults: seq<OpenResult>, info: RenderInfoReads)
    ensures ActivationLog(false, dismissWindowOnEnter, probeResults, info)
      == Some([SaveAction, OpenSpace(MetalClient)] + Finish(dismissWindowOnEnter))
  {
    assert [SaveAction] + [] + [OpenSpace(MetalClient)] == [SaveAction, OpenSpace(MetalClient)];
  }

  /** With experimental40ppd on and render info already cached, the probe
      steps are skipped and RealityKitClient is opened directly, whatever
      the probe would have answered. The skip depends only on the first
      read: if render info is gone again at the check, the missing-view-info
      diagnostic comes before the anchor reset, and the open still follows. */
  lemma CachedRenderInfoSkipsProbe(dismissWindowOnEnter: bool,
                                   probeResults: seq<OpenResult>, info: RenderInfoReads)
    requires info.atStart
    ensures ActivationLog(true, dismissWindowOnEnter, probeResults, info)
      == Some([SaveAction] + OriginReset(info.atCheck) + [OpenSpace(RealityKitClient)] + Finish(dismissWindowOnEnter))
    ensures var log := ActivationLog(true, dismissWindowOnEnter, probeResults, info).value;
      && Count(log, OpenSpace(DummyImmersiveSpace)) == 0
      && Count(log, DismissSpace) == 0
      && Count(log, PollWait) == 0
      && (Count(log, MissingViewInfo) == 0 <==> info.atCheck)
  {
    var a := OpenSpace(DummyImmersiveSpace);
    var prep := OriginReset(info.atCheck);
    var open := OpenSpace(RealityKitClient);
    CompletedCount(prep, open, dismissWindowOnEnter, a);
    CompletedCount(prep, open, dismissWindowOnEnter, DismissSpace);
    CompletedCount(prep, open, dismissWindowOnEnter, PollWait);
    CompletedCount(prep, open, dismissWindowOnEnter, MissingViewInfo);
    CountConcat(if info.atCheck then [] else [MissingViewInfo], [ResetOriginAnchor], a);
    CountConcat(if info.atCheck then [] else [MissingViewInfo], [ResetOriginAnchor], DismissSpace);
    CountConcat(if info.atCheck then [] else [MissingViewInfo], [ResetOriginAnchor], PollWait);
    CountConcat(if info.atCheck then [] else [MissingViewInfo], [ResetOriginAnchor], MissingViewInfo);
  }

  /** On the probe path the probe space is opened once per attempt up to and
      including the first that reports Opened; every earlier attempt
      reported Error or UserCancelled. */
  lemma ProbeRetriedUntilOpened(dismissWindowOnEnter: bool,
                                probeResults: seq<OpenResult>, info: RenderInfoReads)
    requires !info.atStart
    requires ActivationLog(true, dismissWindowOnEnter, probeResults, info).Some?
    ensures var attempts := Count(ActivationLog(true, dismissWindowOnEnter, probeResults, info).value, OpenSpace(DummyImmersiveSpace));
      && 0 < attempts <= |probeResults|
      && probeResults[attempts - 1] == Opened
      && (forall i :: 0 <= i < attempts - 1 ==> probeResults[i] in {Error, UserCancelled})
  {
    ProbePreparation(probeResults, info);
    var attempts := FirstIndexOf(probeResults, Opened) + 1;
    var polls := FirstIndexOf(info.duringPoll, true);
    var a := OpenSpace(DummyImmersiveSpace);
    CompletedCount(ProbeActions(attempts, polls) + OriginReset(info.atCheck), OpenSpace(RealityKitClient),
                   dismissWindowOnEnter, a);
    ProbePreparationCount(attempts, polls, info.atCheck, a);
    ProbeActionsCount(attempts, polls, a);
    forall i | 0 <= i < attempts - 1 ensures probeResults[i] in {Error, UserCancelled} {
      assert probeResults[i] != Opened;
    }
  }

  /** On the probe path the poll sleeps once per read that found no render
      info, up to the first read that found it. */
  lemma PollUntilRenderInfo(dismissWindowOnEnter: bool,
                            probeResults: seq<OpenResult>, info: RenderInfoReads)
    requires !info.atStart
    requires ActivationLog(true, dismissWindowOnEnter, probeResults, info).Some?
    ensures var polls := Count(ActivationLog(true, dismissWindowOnEnter, probeResults, info).value, PollWait);
      && polls < |info.duringPoll| && info.duringPoll[polls]
      && (forall i :: 0 <= i < polls ==> !info.duringPoll[i])
  {
    ProbePreparation(probeResults, info);
    var attempts := FirstIndexOf(probeResults, Opened) + 1;
    var polls := FirstIndexOf(info.duringPoll, true);
    CompletedCount(ProbeActions(attempts, polls) + OriginReset(info.atCheck), OpenSpace(RealityKitClient),
                   dismissWindowOnEnter, PollWait);
    ProbePreparationCount(attempts, polls, info.atCheck, PollWait);
    ProbeActionsCount(attempts, polls, PollWait);
  }

  /** On the probe path the probe space is dismissed exactly once, and so is
      the settling sleep after it; on the other paths neither happens. */
  lemma ProbeDismissedOnce(experimental40ppd: bool, dismissWindowOnEnter: bool,
                           probeResults: seq<OpenResult>, info: RenderInfoReads)
    requires ActivationLog(experimental40ppd, dismissWindowOnEnter, probeResults, info).Some?
    ensures var log := ActivationLog(experimental40ppd, dismissWindowOnEnter, probeResults, info).value;
      && Count(log, DismissSpace) == (if experimental40ppd && !info.atStart then 1 else 0)
      && Count(log, SettleWait) == Count(log, DismissSpace)
  {
    var prep := Preparation(experimental40ppd, probeResults, info).value;
    var open := OpenSpace(ClientSpace(experimental40ppd));
    CompletedCount(prep, open, dismissWindowOnEnter, DismissSpace);
    CompletedCount(prep, open, dismissWindowOnEnter, SettleWait);
    if experimental40ppd && !info.atStart {
      ProbePreparation(probeResults, info);
      var attempts := FirstIndexOf(probeResults, Opened) + 1;
      var polls := FirstIndexOf(info.duringPoll, true);
      ProbePreparationCount(attempts, polls, info.atCheck, DismissSpace);
      ProbeActionsCount(attempts, polls, DismissSpace);
      ProbePreparationCount(attempts, polls, info.atCheck, SettleWait);
      ProbeActionsCount(attempts, polls, SettleWait);
    }
  }

  /** If nothing resets haveRenderInfo, a completed activation never reports
      missing view info, on the probe path or the cached path. */
  lemma NoMissingViewInfoWhenRenderInfoStays(dismissWindowOnEnter: bool,
                                             probeResults: seq<OpenResult>, info: RenderInfoReads)
    requires StaysSet(info)
    requires ActivationLog(true, dismissWindowOnEnter, probeResults, info).Some?
    ensures Count(ActivationLog(true, dismissWindowOnEnter, probeResults, info).value, MissingViewInfo) == 0
  {
    var prep := Preparation(true, probeResults, info).value;
    CompletedCount(prep, OpenSpace(RealityKitClient), dismissWindowOnEnter, MissingViewInfo);
    if !info.atStart {
      ProbePreparation(probeResults, info);
      var attempts := FirstIndexOf(probeResults, Opened) + 1;
      var polls := FirstIndexOf(info.duringPoll, true);
      assert info.duringPoll[polls];
      ProbePreparationCount(attempts, polls, info.atCheck, MissingViewInfo);
      ProbeActionsCount(attempts, polls, MissingViewInfo);
    }
  }

  /** Every completed activation, on either path: saveAction runs first and
      once; the client space of the chosen renderer is opened once and the
      other one never; right after that open the refresh rate is applied,
      exactly once, whatever the open reported; and the entry window is
      dismissed, last, exactly when dismissWindowOnEnter. */
  lemma ActivationOrder(experimental40ppd: bool, dismissWindowOnEnter: bool,
                        probeResults: seq<OpenResult>, info: RenderInfoReads)
    requires ActivationLog(experimental40ppd, dismissWindowOnEnter, probeResults, info).Some?
    ensures var log := ActivationLog(experimental40ppd, dismissWindowOnEnter, probeResults, info).value;
      var n := |log| - |Finish(dismissWindowOnEnter)|;
      && 2 <= n && log[0] == SaveAction && log[n - 1] == OpenSpace(ClientSpace(experimental40ppd))
      && log[n..] == Finish(dismissWindowOnEnter)
  {
    var prep := Preparation(experimental40ppd, probeResults, info).value;
    CompletedPositions(prep, OpenSpace(ClientSpace(experimental40ppd)), dismissWindowOnEnter);
  }

  /** How often the fixed steps occur in a completed activation. */
  lemma ActivationCounts(experimental40ppd: bool, dismissWindowOnEnter: bool,
                         probeResults: seq<OpenResult>, info: RenderInfoReads, a: Action)
    requires ActivationLog(experimental40ppd, dismissWindowOnEnter, probeResults, info).Some?
    requires !IsPreparationStep(a)
    ensures Count(ActivationLog(experimental40ppd, dismissWindowOnEnter, probeResults, info).value, a)
      == if a == SaveAction || a == OpenSpace(ClientSpace(experimental40ppd)) || a == ApplyRefreshRate then 1
         else if a == DismissEntryWindow && dismissWindowOnEnter then 1
         else 0
  {
    var prep := Preparation(experimental40ppd, probeResults, info).value;
    PreparationSteps(experimental40ppd, probeResults, info, a);
    CompletedCount(prep, OpenSpace(ClientSpace(experimental40ppd)), dismissWindowOnEnter, a);
  }

  /** On the experimental path the origin anchor is reset immediately before
      RealityKitClient is opened. */
  lemma OriginResetBeforeRealityKit(dismissWindowOnEnter: bool,
                                    probeResults: seq<OpenResult>, info: RenderInfoReads)
    requires ActivationLog(true, dismissWindowOnEnter, probeResults, info).Some?
    ensures var log := ActivationLog(true, dismissWindowOnEnter, probeResults, info).value;
      var n := |log| - |Finish(dismissWindowOnEnter)|;
      && 3 <= n && log[n - 2] == ResetOriginAnchor && log[n - 1] == OpenSpace(RealityKitClient)
  {
    var prep := Preparation(true, probeResults, info).value;
    PreparationSteps(true, probeResults, info, ResetOriginAnchor);
    CompletedPositions(prep, OpenSpace(RealityKitClient), dismissWindowOnEnter);
    var log := Completed(prep, OpenSpace(RealityKitClient), dismissWindowOnEnter);
    assert log[|prep|] == log[1..|prep| + 1][|prep| - 1];
  }

  // ------------------------------------------------------------------
  // The two wait loops

  /** The probe-opening loop: keeps calling openImmersiveSpace for the probe
      until an attempt reports Opened. Returns how many attempts were made
      and whether one succeeded before the script ran out. */
  method ProbeOpenAttempts(probeResults: seq<OpenResult>) returns (attempts: nat, succeeded: bool)
    ensures succeeded <==> Opened in probeResults
    ensures attempts == if succeeded then FirstIndexOf(probeResults, Opened) + 1 else |probeResults|
  {
    var dummySpaceIsOpened := false;
    attempts := 0;
    while !dummySpaceIsOpened && attempts < |probeResults|
      invariant attempts <= |probeResults|
      invariant !dummySpaceIsOpened ==> forall i :: 0 <= i < attempts ==> probeResults[i] != Opened
      invariant dummySpaceIsOpened ==> attempts == FirstIndexOf(probeResults, Opened) + 1
    {
      match probeResults[attempts] {
        case Opened => dummySpaceIsOpened := true;
        case Error => dummySpaceIsOpened := false;
        case UserCancelled => dummySpaceIsOpened := false;
      }
      attempts := attempts + 1;
    }
    succeeded := dummySpaceIsOpened;
  }

  /** The render-info poll: sleeps while haveRenderInfo reads false. Returns
      the number of sleeps and whether a true read came before the script
      ran out. */
  method PollRenderInfo(duringPoll: seq<bool>) returns (polls: nat, ready: bool)
    ensures ready <==> true in duringPoll
    ensures polls == FirstIndexOf(duringPoll, true)
  {
    polls := 0;
    while polls < |duringPoll| && !duringPoll[polls]
      invariant polls <= |duringPoll|
      invariant forall i :: 0 <= i < polls ==> !duringPoll[i]
    {
      polls := polls + 1;
    }
    ready := polls < |duringPoll|;
  }

  /** The probe steps of the experimental path: the probe-opening loop, the
      render-info poll, the dismissal of the probe and the settling sleep.
      Completes exactly when both loops stop within the script, with the
      probe steps of the specification; otherwise returns the steps made
      before the script ran out. */
  method RunProbe(probeResults: seq<OpenResult>, duringPoll: seq<bool>)
    returns (steps: seq<Action>, completed: bool)
    ensures completed <==> Opened in probeResults && true in duringPoll
    ensures completed ==>
      steps == ProbeActions(FirstIndexOf(probeResults, Opened) + 1, FirstIndexOf(duringPoll, true))
    ensures Opened !in probeResults ==>
      steps == Repeat(OpenSpace(DummyImmersiveSpace), |probeResults|)
    ensures Opened in probeResults && true !in duringPoll ==>
      steps == Repeat(OpenSpace(DummyImmersiveSpace), FirstIndexOf(probeResults, Opened) + 1)
               + Repeat(PollWait, |duringPoll|)
  {
    var attempts, probeOpened := ProbeOpenAttempts(probeResults);
    steps := Repeat(OpenSpace(DummyImmersiveSpace), attempts);
    if !probeOpened {
      return steps, false;
    }
    var polls, ready := PollRenderInfo(duringPoll);
    steps := steps + Repeat(PollWait, polls);
    if !ready {
      return steps, false;
    }
    steps := steps + [DismissSpace, SettleWait];
    completed := true;
  }

  /** The steps of the experimental path before RealityKitClient is opened:
      the probe steps unless render info is already there, the check for
      missing view info and the origin-anchor reset. Completes exactly when
      the specification's preparation does, with the same steps. */
  method PrepareRealityKit(probeResults: seq<OpenResult>, info: RenderInfoReads)
    returns (prep: seq<Action>, completed: bool)
    ensures completed <==> Preparation(true, probeResults, info).Some?
    ensures completed ==> Preparation(true, probeResults, info) == Some(prep)
  {
    prep := [];
    if !info.atStart {
      var steps, probed := RunProbe(probeResults, info.duringPoll);
      ProbePathPreparation(probeResults, info);
      if !probed {
        return steps, false;
      }
      prep := steps;
    }
    ghost var probe := prep;
    if !info.atCheck {
      prep := prep + [MissingViewInfo];
    }
    prep := prep + [ResetOriginAnchor];
    assert prep == probe + OriginReset(info.atCheck);
    assert info.atStart ==> prep == OriginReset(info.atCheck);
    completed := true;
  }

  // ------------------------------------------------------------------
  // The view's state and its handlers

  class EntryControlsView {
    const model: ViewModel
    const store: GlobalSettingsStore
    const tracker: WorldTracker
    var showImmersiveSpace: bool
    var immersiveSpaceIsShown: bool
    /** The platform calls made so far, oldest first. */
    var log: seq<Action>

    constructor (model: ViewModel, store: GlobalSettingsStore, tracker: WorldTracker)
      ensures this.model == model && this.store == store && this.tracker == tracker
      ensures !showImmersiveSpace && !immersiveSpaceIsShown && log == []
    {
      this.model := model;
      this.store := store;
      this.tracker := tracker;
      showImmersiveSpace := false;
      immersiveSpaceIsShown := false;
      log := [];
    }

    /** The main button: toggles isShowingClient when connected. It is
        disabled exactly when a tap would change nothing. */
    method MainButtonTapped(state: ConnectionState)
      modifies model
      ensures model.isShowingClient == if MainButtonDisabled(state) then old(model.isShowingClient)
                                       else !old(model.isShowingClient)
    {
      if state == Connected {
        model.isShowingClient := !model.isShowingClient;
      }
    }

    /** Opens the client space `space`; when the open does not report
        Opened, the space is recorded as not shown and no longer requested. */
    method OpenClientSpace(space: SpaceId, clientResult: OpenResult)
      modifies this
      ensures log == old(log) + [OpenSpace(space)]
      ensures immersiveSpaceIsShown == (clientResult == Opened)
      ensures showImmersiveSpace == (old(showImmersiveSpace) && clientResult == Opened)
    {
      log := log + [OpenSpace(space)];
      match clientResult {
        case Opened =>
          immersiveSpaceIsShown := true;
        case Error =>
          immersiveSpaceIsShown := false;
          showImmersiveSpace := false;
        case UserCancelled =>
          immersiveSpaceIsShown := false;
          showImmersiveSpace := false;
      }
    }

    /** The handler that runs when isShowingClient changes to `isShowing`.
        Turning it off does nothing at all. Turning it on performs
        ActivationLog's actions; on the experimental path the origin anchor
        flag ends cleared, and the space counts as shown exactly when the
        RealityKit open reported Opened (otherwise both state flags are
        cleared). When the script runs out first, the actions made so far
        extend the log and no flag has changed. */
    method OnShowingClientChanged(isShowing: bool, probeResults: seq<OpenResult>,
                                  info: RenderInfoReads, clientResult: OpenResult)
      returns (finished: bool)
      modifies this, tracker
      ensures !isShowing ==> finished && log == old(log)
      ensures isShowing ==>
        finished == ActivationLog(store.settings.experimental40ppd, store.settings.dismissWindowOnEnter,
                                  probeResults, info).Some?
      ensures isShowing && finished ==>
        log == old(log) + ActivationLog(store.settings.experimental40ppd, store.settings.dismissWindowOnEnter,
                                        probeResults, info).value
      ensures !finished ==> old(log) <= log
      ensures isShowing && finished && store.settings.experimental40ppd ==>
        && !tracker.worldTrackingAddedOriginAnchor
        && immersiveSpaceIsShown == (clientResult == Opened)
        && showImmersiveSpace == (old(showImmersiveSpace) && clientResult == Opened)
      ensures !(isShowing && finished && store.settings.experimental40ppd) ==>
        && tracker.worldTrackingAddedOriginAnchor == old(tracker.worldTrackingAddedOriginAnchor)
        && immersiveSpaceIsShown == old(immersiveSpaceIsShown)
        && showImmersiveSpace == old(showImmersiveSpace)
    {
      if !isShowing {
        return true;
      }
      ghost var before := log;
      var experimental := store.settings.experimental40ppd;
      var dismiss := store.settings.dismissWindowOnEnter;
      var prep: seq<Action> := [];
      log := log + [SaveAction];
      assert log == before + [SaveAction] + prep;
      if experimental {
        var completed;
        prep, completed := PrepareRealityKit(probeResults, info);
        log := log + prep;
        if !completed {
          return false;
        }
        assert log == before + [SaveAction] + prep;
        // the reset step recorded at the end of the preparation
        tracker.worldTrackingAddedOriginAnchor := false;
        OpenClientSpace(RealityKitClient, clientResult);
      } else {
        log := log + [OpenSpace(MetalClient)];
      }
      assert log == before + ([SaveAction] + prep + [OpenSpace(ClientSpace(experimental))]);
      log := log + Finish(dismiss);
      assert log == before + Completed(prep, OpenSpace(ClientSpace(experimental)), dismiss);
      finished := true;
    }
  }
}
