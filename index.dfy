/** The `Index` component as an object: its `useState` hooks are fields, and
    each handler, timer callback and the orientation effect is a method that
    writes those fields in the order the source calls the setters.  Every method
    is specified by the matching transition of module Session. */
module IndexPage {
  import opened Session
  import Render

  class Index {
    var currentView: View
    var orientation: Orientation
    var hasIntro: bool
    var hasBackground: bool
    var draggableElements: seq<Element>
    var showAudioPermission: bool
    var showDisclaimerModal: bool
    var isPlaying: bool

    /** The fields as one session-state value. */
    function Snapshot(): State
      reads this
    {
      State(currentView, orientation, hasIntro, hasBackground, draggableElements,
            showAudioPermission, showDisclaimerModal, isPlaying)
    }

    /** Mounting: the home screen in portrait, nothing added, nothing playing. */
    constructor ()
      ensures Snapshot() == Initial
      ensures Render.SelectBranch(currentView, orientation) == Render.Some(Render.HomeScreen)
    {
      currentView := Home;
      orientation := Portrait;
      hasIntro := false;
      hasBackground := false;
      draggableElements := [];
      showAudioPermission := false;
      showDisclaimerModal := false;
      isPlaying := false;
    }

    /** The effect that follows a change of view. */
    method SyncOrientation()
      modifies this
      ensures Snapshot() == Session.SyncOrientation(old(Snapshot()))
      ensures orientation == Landscape <==> currentView == Editor
    {
      if currentView == Editor {
        orientation := Landscape;
      } else {
        orientation := Portrait;
      }
    }

    method HandleNewProject()
      modifies this
      ensures Snapshot() == NewProject(old(Snapshot()))
    {
      currentView := Editor;
    }

    method HandleMyProjects()
      modifies this
      ensures Snapshot() == MyProjects(old(Snapshot()))
    {
      currentView := Projects;
    }

    method HandleProjectSelect(projectId: string)
      modifies this
      ensures Snapshot() == ProjectSelect(old(Snapshot()), projectId)
    {
      currentView := Editor;
    }

    /** The arrow button of the project list and the "back" button of the editor. */
    method HandleGoHome()
      modifies this
      ensures Snapshot() == GoHome(old(Snapshot()))
    {
      currentView := Home;
    }

    method HandleAddIntro()
      modifies this
      ensures Snapshot() == AddIntro(old(Snapshot()))
    {
      hasIntro := true;
    }

    method HandleAddBackground()
      modifies this
      ensures Snapshot() == AddBackground(old(Snapshot()))
    {
      hasBackground := true;
    }

    method HandleAddButtons()
      modifies this
      ensures Snapshot() == AddButtons(old(Snapshot()))
      ensures draggableElements == old(draggableElements) + NewButtons
    {
      var newElements := [
        Element("1", Placeholder, 50, 50, 80, 80),
        Element("2", Placeholder, 150, 100, 80, 80),
        Element("3", Placeholder, 100, 200, 80, 80)
      ];
      draggableElements := draggableElements + newElements;
    }

    method HandleRemoveButton()
      modifies this
      ensures Snapshot() == RemoveButton(old(Snapshot()))
      ensures old(draggableElements) == [] ==> draggableElements == []
      ensures old(draggableElements) != [] ==> draggableElements + [old(draggableElements)[|old(draggableElements)| - 1]] == old(draggableElements)
    {
      if |draggableElements| > 0 {
        draggableElements := draggableElements[..|draggableElements| - 1];
      }
    }

    method HandleRun()
      modifies this
      ensures Snapshot() == Run(old(Snapshot()))
      ensures currentView == Preview
      ensures old(!showAudioPermission && !showDisclaimerModal) ==>
                showAudioPermission == hasIntro && showDisclaimerModal == (!hasIntro && hasBackground)
    {
      if hasIntro {
        showAudioPermission := true;
        currentView := Preview;
      } else if hasBackground {
        showDisclaimerModal := true;
        currentView := Preview;
      } else {
        currentView := Preview;
      }
    }

    method HandleAudioPermission()
      modifies this
      ensures Snapshot() == AudioPermission(old(Snapshot()))
    {
      showAudioPermission := false;
      isPlaying := true;
    }

    /** Returns whether `videoRef.current.play()` is called: the ref is set only
        while the background video of the current render is mounted. */
    method HandleDisclaimerOk() returns (playCalled: bool)
      modifies this
      ensures Snapshot() == DisclaimerOk(old(Snapshot()))
      ensures playCalled == Render.BackgroundVideoMounted(old(Snapshot()))
    {
      var refSet := Render.BackgroundVideoMounted(Snapshot());
      showDisclaimerModal := false;
      isPlaying := true;
      playCalled := refSet;
    }

    /** The callback 6000 ms after the audio permission. */
    method TimerAudioDone()
      modifies this
      ensures Snapshot() == Session.TimerAudioDone(old(Snapshot()))
    {
      isPlaying := false;
    }

    method HandleBack()
      modifies this
      ensures Snapshot() == Back(old(Snapshot()))
    {
      currentView := Editor;
      isPlaying := false;
      showAudioPermission := false;
      showDisclaimerModal := false;
    }

    /** The callback 3000 ms after the intro video ends. */
    method IntroEndedTimer()
      modifies this
      ensures Snapshot() == Session.IntroEndedTimer(old(Snapshot()))
    {
      isPlaying := false;
      HandleBack();
    }
  }
}
