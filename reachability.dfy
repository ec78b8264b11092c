/** Runs of the component: sequences of events starting from the mounted state.
    A click is possible only when the rendered screen shows its control; the two
    timer callbacks and the orientation effect may happen at any moment (this
    over-approximates when React and the browser actually run them, so whatever
    holds here holds of the real schedule too). */
module Reachability {
  import opened Session
  import opened Render

  datatype Event =
    | ClickNewProject
    | ClickMyProjects
    | ClickProject(projectId: string)
    | ClickHome
    | ClickAddIntro
    | ClickAddBackground
    | ClickAddButtons
    | ClickRemoveButton
    | ClickRun
    | ClickAllowAudio
    | ClickDisclaimerOk
    | ClickBack
    | AudioTimerFires
    | IntroTimerFires
    | OrientationEffect

  /** Whether the control of a click is on the screen that `s` renders. */
  predicate Enabled(s: State, e: Event)
  {
    var b := SelectBranch(s.currentView, s.orientation);
    match e
    case ClickNewProject => b == Some(HomeScreen)
    case ClickMyProjects => b == Some(HomeScreen)
    case ClickProject(_) => b == Some(ProjectsList)
    case ClickHome => b == Some(ProjectsList) || b == Some(EditorScreen)
    case ClickAddIntro => b == Some(EditorScreen)
    case ClickAddBackground => b == Some(EditorScreen)
    case ClickAddButtons => b == Some(EditorScreen)
    case ClickRemoveButton => b == Some(EditorScreen)
    case ClickRun => b == Some(EditorScreen)
    case ClickAllowAudio => b == Some(PreviewScreen) && s.showAudioPermission
    case ClickDisclaimerOk => b == Some(PreviewScreen) && s.showDisclaimerModal
    case ClickBack => b == Some(PreviewScreen)
    case AudioTimerFires => true
    case IntroTimerFires => true
    case OrientationEffect => true
  }

  function Step(s: State, e: Event): State
  {
    match e
    case ClickNewProject => NewProject(s)
    case ClickMyProjects => MyProjects(s)
    case ClickProject(id) => ProjectSelect(s, id)
    case ClickHome => GoHome(s)
    case ClickAddIntro => AddIntro(s)
    case ClickAddBackground => AddBackground(s)
    case ClickAddButtons => AddButtons(s)
    case ClickRemoveButton => RemoveButton(s)
    case ClickRun => Run(s)
    case ClickAllowAudio => AudioPermission(s)
    case ClickDisclaimerOk => DisclaimerOk(s)
    case ClickBack => Back(s)
    case AudioTimerFires => TimerAudioDone(s)
    case IntroTimerFires => IntroEndedTimer(s)
    case OrientationEffect => SyncOrientation(s)
  }

  /** Every event of the trace is enabled in the state it happens in. */
  predicate ValidTrace(s: State, trace: seq<Event>)
    decreases |trace|
  {
    trace == [] || (Enabled(s, trace[0]) && ValidTrace(Step(s, trace[0]), trace[1..]))
  }

  function Replay(s: State, trace: seq<Event>): State
    decreases |trace|
  {
    if trace == [] then s else Replay(Step(s, trace[0]), trace[1..])
  }

  /** What holds in every state a run can reach:
      at most one gate is raised, and only in the preview; a raised gate agrees
      with the precedence of RUN; playback happens only in the preview with both
      gates closed; every element is one of the three of the fixed batch. */
  predicate Inv(s: State)
  {
    && !(s.showAudioPermission && s.showDisclaimerModal)
    && (s.currentView != Preview ==> !s.showAudioPermission && !s.showDisclaimerModal && !s.isPlaying)
    && (s.showAudioPermission ==> s.hasIntro)
    && (s.showDisclaimerModal ==> s.hasBackground && !s.hasIntro)
    && (s.isPlaying ==> !s.showAudioPermission && !s.showDisclaimerModal)
    && (forall i :: 0 <= i < |s.draggableElements| ==> s.draggableElements[i] in NewButtons)
  }

  lemma InitialInv()
    ensures Inv(Initial)
    ensures SelectBranch(Initial.currentView, Initial.orientation) == Some(HomeScreen)
  {
  }

  lemma StepPreservesInv(s: State, e: Event)
    requires Inv(s) && Enabled(s, e)
    ensures Inv(Step(s, e))
  {
  }

  /** The invariant holds after every valid run from a state where it holds. */
  lemma {:induction false} ReplayPreservesInv(s: State, trace: seq<Event>)
    requires Inv(s) && ValidTrace(s, trace)
    ensures Inv(Replay(s, trace))
    decreases |trace|
  {
    if trace != [] {
      StepPreservesInv(s, trace[0]);
      ReplayPreservesInv(Step(s, trace[0]), trace[1..]);
    }
  }

  /** So every state reachable from mounting satisfies it. */
  lemma ReachableInv(trace: seq<Event>)
    requires ValidTrace(Initial, trace)
    ensures Inv(Replay(Initial, trace))
  {
    InitialInv();
    ReplayPreservesInv(Initial, trace);
  }

  /** Whenever RUN can be pressed, both gates are closed, so RUN raises exactly
      the audio gate when there is an intro, exactly the disclaimer when there is
      a background and no intro, and neither otherwise. */
  lemma RunGatesWhenEnabled(s: State)
    requires Inv(s) && Enabled(s, ClickRun)
    ensures Run(s).currentView == Preview
    ensures Run(s).showAudioPermission == s.hasIntro
    ensures Run(s).showDisclaimerModal == (!s.hasIntro && s.hasBackground)
    ensures !Run(s).isPlaying
  {
  }

  /** While a gate is raised nothing plays; confirming it shows its video. */
  lemma GatesAndPlayback(s: State)
    requires Inv(s)
    ensures s.showAudioPermission || s.showDisclaimerModal ==>
              !RenderPreview(s).introVideo && !RenderPreview(s).backgroundVideo
    ensures Enabled(s, ClickAllowAudio) ==>
              var f := RenderPreview(AudioPermission(s));
              f.introVideo && !f.audioModal && !f.disclaimerModal && f.overlays == []
    ensures Enabled(s, ClickDisclaimerOk) ==>
              var f := RenderPreview(DisclaimerOk(s));
              f.backgroundVideo && !f.introVideo && !f.audioModal && !f.disclaimerModal &&
              f.overlays == OverlayBoxes(s.draggableElements)
  {
  }

  /** When the disclaimer is confirmed in a reachable state the background video
      is not mounted yet, so `videoRef.current` is null and the handler's
      `play()` call is skipped. */
  lemma DisclaimerOkSkipsPlay(s: State)
    requires Inv(s) && Enabled(s, ClickDisclaimerOk)
    ensures !BackgroundVideoMounted(s)
  {
  }

  /** The audio timer can fire stale too: a timer left over from an earlier
      confirmation that fires right after a new confirmation stops the new
      playback, and the intro video it started is unmounted. */
  lemma StaleAudioTimerStopsIntro(s: State)
    requires Inv(s) && Enabled(s, ClickAllowAudio)
    ensures RenderPreview(AudioPermission(s)).introVideo
    ensures !RenderPreview(TimerAudioDone(AudioPermission(s))).introVideo
    ensures TimerAudioDone(AudioPermission(s)).currentView == Preview
  {
  }

  /** After the back button (or the intro timer) no gate and no video is shown,
      and what the editor had is still there. */
  lemma BackClearsPreview(s: State)
    ensures var t := Back(s);
            var f := RenderPreview(t);
            !f.audioModal && !f.disclaimerModal && !f.introVideo && !f.backgroundVideo &&
            t.hasIntro == s.hasIntro && t.hasBackground == s.hasBackground &&
            t.draggableElements == s.draggableElements
    ensures Step(s, IntroTimerFires) == Step(s, ClickBack)
  {
  }

  /** In the editor, "add buttons" followed by three "remove" clicks is a valid
      run that gives back the state before; on an empty list a further "remove"
      is a valid click that changes nothing. */
  lemma {:induction false} AddRemoveThriceInEditor(s: State)
    requires SelectBranch(s.currentView, s.orientation) == Some(EditorScreen)
    ensures var trace := [ClickAddButtons, ClickRemoveButton, ClickRemoveButton, ClickRemoveButton];
            ValidTrace(s, trace) && Replay(s, trace) == s
    ensures s.draggableElements == [] ==>
              ValidTrace(s, [ClickRemoveButton]) && Replay(s, [ClickRemoveButton]) == s
  {
    var trace := [ClickAddButtons, ClickRemoveButton, ClickRemoveButton, ClickRemoveButton];
    var s1 := AddButtons(s);
    var s2 := RemoveButton(s1);
    var s3 := RemoveButton(s2);
    var s4 := RemoveButton(s3);
    AddThenRemoveThrice(s);
    assert trace[1..] == [ClickRemoveButton, ClickRemoveButton, ClickRemoveButton];
    assert trace[1..][1..] == [ClickRemoveButton, ClickRemoveButton];
    assert trace[1..][1..][1..] == [ClickRemoveButton];
    assert ValidTrace(s4, []) && Replay(s4, []) == s4;
    assert ValidTrace(s3, [ClickRemoveButton]) && Replay(s3, [ClickRemoveButton]) == s4;
    assert ValidTrace(s2, trace[1..][1..]) && Replay(s2, trace[1..][1..]) == s4;
    assert ValidTrace(s1, trace[1..]) && Replay(s1, trace[1..]) == s4;
    if s.draggableElements == [] {
      RemoveOnEmptyIsNoOp(s);
      assert Replay(RemoveButton(s), []) == s;
    }
  }
}
