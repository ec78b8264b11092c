/** The session state of the single-screen video-creator shell and its transitions.

    Every event handler of the `Index` component, the two timer callbacks and the
    orientation effect become one pure function from the state before to the state
    after.  A React setter called inside a handler only takes effect after the
    handler returns.  Every setter writes a constant, except the two list setters,
    which pass an updater of the previous list (append, drop last); each handler
    calls at most one of them and React applies it to the latest list, so each
    handler is the record update of the fields it sets. */
module Session {

  datatype View = Home | Projects | Editor | Preview

  datatype Orientation = Portrait | Landscape

  /** One overlay image placed on the editor canvas (stored position and size). */
  datatype Element = Element(id: string, src: string, x: int, y: int, width: int, height: int)

  /** Everything the component keeps in `useState` that the handlers change.
      The static project seed list is not part of it. */
  datatype State = State(
    currentView: View,
    orientation: Orientation,
    hasIntro: bool,
    hasBackground: bool,
    draggableElements: seq<Element>,
    showAudioPermission: bool,
    showDisclaimerModal: bool,
    isPlaying: bool)

  /** The state of a freshly mounted component. */
  const Initial: State :=
    State(Home, Portrait, false, false, [], false, false, false)

  const Placeholder: string := "/placeholder.svg"

  /** The batch that "add buttons" appends, with its literal ids. */
  const NewButtons: seq<Element> := [
    Element("1", Placeholder, 50, 50, 80, 80),
    Element("2", Placeholder, 150, 100, 80, 80),
    Element("3", Placeholder, 100, 200, 80, 80)
  ]

  /** The orientation the effect chooses for a view: landscape for the editor only. */
  function OrientationFor(v: View): (o: Orientation)
    ensures o == Landscape <==> v == Editor
  {
    if v == Editor then Landscape else Portrait
  }

  /** The `useEffect` on `currentView`: it only ever touches the orientation. */
  function SyncOrientation(s: State): (r: State)
    ensures r.orientation == Landscape <==> s.currentView == Editor
    ensures r.(orientation := s.orientation) == s
  {
    s.(orientation := OrientationFor(s.currentView))
  }

  function NewProject(s: State): (r: State)
    ensures r.currentView == Editor
    ensures r.(currentView := s.currentView) == s
  {
    s.(currentView := Editor)
  }

  function MyProjects(s: State): (r: State)
    ensures r.currentView == Projects
    ensures r.(currentView := s.currentView) == s
  {
    s.(currentView := Projects)
  }

  /** Selecting a project opens the editor; the project id is never read. */
  function ProjectSelect(s: State, projectId: string): (r: State)
    ensures r == NewProject(s)
  {
    s.(currentView := Editor)
  }

  /** The two inline arrow buttons that go back to the home screen
      (one in the project list, one in the editor's top bar). */
  function GoHome(s: State): (r: State)
    ensures r.currentView == Home
    ensures r.(currentView := s.currentView) == s
  {
    s.(currentView := Home)
  }

  function AddIntro(s: State): (r: State)
    ensures r.hasIntro
    ensures r.(hasIntro := s.hasIntro) == s
  {
    s.(hasIntro := true)
  }

  function AddBackground(s: State): (r: State)
    ensures r.hasBackground
    ensures r.(hasBackground := s.hasBackground) == s
  {
    s.(hasBackground := true)
  }

  /** Appends the fixed three-element batch behind whatever is already there. */
  function AddButtons(s: State): (r: State)
    ensures |r.draggableElements| == |s.draggableElements| + 3
    ensures r.draggableElements[..|s.draggableElements|] == s.draggableElements
    ensures r.draggableElements[|s.draggableElements|..] == NewButtons
    ensures r.(draggableElements := s.draggableElements) == s
  {
    s.(draggableElements := s.draggableElements + NewButtons)
  }

  /** `prev.slice(0, -1)`: every element but the last; an empty list stays empty. */
  function DropLast(els: seq<Element>): (r: seq<Element>)
    ensures |els| > 0 ==> r + [els[|els| - 1]] == els
    ensures |els| == 0 ==> r == []
  {
    if |els| == 0 then [] else els[..|els| - 1]
  }

  function RemoveButton(s: State): (r: State)
    ensures |s.draggableElements| > 0 ==>
              |r.draggableElements| == |s.draggableElements| - 1 &&
              r.draggableElements + [s.draggableElements[|s.draggableElements| - 1]] == s.draggableElements
    ensures |s.draggableElements| == 0 ==> r == s
    ensures r.(draggableElements := s.draggableElements) == s
  {
    s.(draggableElements := DropLast(s.draggableElements))
  }

  /** The RUN button: always enters the preview; raises the audio-permission
      gate when there is an intro, else the disclaimer gate when there is a
      background.  It never lowers a gate that is already raised. */
  function Run(s: State): (r: State)
    ensures r.currentView == Preview
    ensures r.showAudioPermission == (s.showAudioPermission || s.hasIntro)
    ensures r.showDisclaimerModal == (s.showDisclaimerModal || (!s.hasIntro && s.hasBackground))
    ensures !(r.showAudioPermission && !s.showAudioPermission && r.showDisclaimerModal && !s.showDisclaimerModal)
    ensures r.(currentView := s.currentView,
               showAudioPermission := s.showAudioPermission,
               showDisclaimerModal := s.showDisclaimerModal) == s
  {
    if s.hasIntro then
      s.(showAudioPermission := true, currentView := Preview)
    else if s.hasBackground then
      s.(showDisclaimerModal := true, currentView := Preview)
    else
      s.(currentView := Preview)
  }

  /** Confirming the audio-permission gate: close it and start playback. */
  function AudioPermission(s: State): (r: State)
    ensures !r.showAudioPermission && r.isPlaying
    ensures r.(showAudioPermission := s.showAudioPermission, isPlaying := s.isPlaying) == s
  {
    s.(showAudioPermission := false, isPlaying := true)
  }

  /** Confirming the disclaimer gate: close it and start playback. */
  function DisclaimerOk(s: State): (r: State)
    ensures !r.showDisclaimerModal && r.isPlaying
    ensures r.(showDisclaimerModal := s.showDisclaimerModal, isPlaying := s.isPlaying) == s
  {
    s.(showDisclaimerModal := false, isPlaying := true)
  }

  /** The 6000 ms callback scheduled by the audio-permission handler. */
  function TimerAudioDone(s: State): (r: State)
    ensures !r.isPlaying
    ensures r.currentView == s.currentView
    ensures r.(isPlaying := s.isPlaying) == s
  {
    s.(isPlaying := false)
  }

  /** The preview's back button: return to the editor and cancel playback and
      both gates; the project content (intro, background, elements) is kept. */
  function Back(s: State): (r: State)
    ensures r.currentView == Editor
    ensures !r.isPlaying && !r.showAudioPermission && !r.showDisclaimerModal
    ensures r.orientation == s.orientation
    ensures r.hasIntro == s.hasIntro && r.hasBackground == s.hasBackground
    ensures r.draggableElements == s.draggableElements
  {
    s.(currentView := Editor, isPlaying := false,
       showAudioPermission := false, showDisclaimerModal := false)
  }

  /** The 3000 ms callback scheduled when the intro video ends: stop playback,
      then run the back handler. */
  function IntroEndedTimer(s: State): (r: State)
    ensures r == Back(s)
  {
    Back(s.(isPlaying := false))
  }

  // ----- Properties that relate several transitions -----

  /** Starting a new project, once the orientation effect has run, shows the
      editor in landscape, whatever state the session was in. */
  lemma NewProjectOpensLandscapeEditor(s: State, projectId: string)
    ensures SyncOrientation(NewProject(s)).currentView == Editor
    ensures SyncOrientation(NewProject(s)).orientation == Landscape
    ensures SyncOrientation(ProjectSelect(s, projectId)) == SyncOrientation(NewProject(s))
  {
  }

  /** The tool flags are idempotent: a second press changes nothing. */
  lemma ToolFlagsIdempotent(s: State)
    ensures AddIntro(AddIntro(s)) == AddIntro(s)
    ensures AddBackground(AddBackground(s)) == AddBackground(s)
    ensures AddIntro(AddBackground(s)) == AddBackground(AddIntro(s))
  {
  }

  /** Removing three times undoes one "add buttons", and nothing else moves. */
  lemma AddThenRemoveThrice(s: State)
    ensures RemoveButton(RemoveButton(RemoveButton(AddButtons(s)))) == s
  {
  }

  /** Removing from an empty list is a no-op, however often it is repeated. */
  lemma RemoveOnEmptyIsNoOp(s: State)
    requires s.draggableElements == []
    ensures RemoveButton(s) == s
    ensures RemoveButton(RemoveButton(s)) == s
  {
  }

  /** Ids are literal per batch: two batches put the same id "1" at two positions. */
  lemma IdsRepeatAcrossBatches(s: State)
    ensures var els := AddButtons(AddButtons(s)).draggableElements;
            var n := |s.draggableElements|;
            |els| == n + 6 && els[n].id == els[n + 3].id == "1" &&
            els[n + 1].id == els[n + 4].id == "2" && els[n + 2].id == els[n + 5].id == "3"
  {
  }

  /** With both gates closed (the case whenever RUN can be pressed), RUN raises
      exactly the gate the precedence rule picks, and never both. */
  lemma RunPicksOneGate(s: State)
    requires !s.showAudioPermission && !s.showDisclaimerModal
    ensures Run(s).showAudioPermission == s.hasIntro
    ensures Run(s).showDisclaimerModal == (!s.hasIntro && s.hasBackground)
    ensures !(Run(s).showAudioPermission && Run(s).showDisclaimerModal)
  {
  }

  /** Back is idempotent, and both timer callbacks are harmless when they fire
      right after a back press. */
  lemma LateTimersAfterBack(s: State)
    ensures Back(Back(s)) == Back(s)
    ensures IntroEndedTimer(Back(s)) == Back(s)
    ensures TimerAudioDone(Back(s)) == Back(s)
  {
  }

  /** Audio playback followed by its timer: the gate stays closed, playback has
      stopped and the view is still the one the gate was confirmed in. */
  lemma AudioTimerEndsPlayback(s: State)
    ensures var t := TimerAudioDone(AudioPermission(s));
            !t.isPlaying && !t.showAudioPermission && t.currentView == s.currentView
  {
  }

  /** The intro timer is not harmless once the user has moved on: if the user
      went back and then home before it fires, it pulls the view back to the
      editor (with the home screen's portrait orientation until the effect runs). */
  lemma LateIntroTimerAfterHome(s: State)
    ensures GoHome(Back(s)).currentView == Home
    ensures IntroEndedTimer(GoHome(Back(s))).currentView == Editor
    ensures IntroEndedTimer(GoHome(Back(s))) != GoHome(Back(s))
  {
  }
}
