# Video-creator session shell, modelled in Dafny

This project models the session logic of the single-screen video-creator
mock-up. That logic lives in the `Index` page component. The component keeps
its state in React hooks:

- which screen is shown (`currentView`: home, projects, editor, preview);
- the display `orientation`;
- two project flags, intro and background;
- the ordered list of draggable overlay elements;
- the two modal gates of the preview (audio permission, disclaimer);
- whether playback is running.

Button handlers, two `setTimeout` callbacks and an orientation effect change
this state.

- `session.dfy` (module `Session`): the state as a record `State`, plus one
  pure transition function for each handler, for each timer callback and for
  the orientation effect. Each function's contract says what it changes and
  that nothing else changes. Lemmas cover combinations: idempotence,
  add-then-remove, late timers.
- `render.dfy` (module `Render`): which of the four screens the component
  renders (or none), when the placeholder, each modal and each video is shown,
  and the ×2 layout of overlay boxes in the preview.
- `index.dfy` (module `IndexPage`): the component as a class `Index`. Its fields
  are the hooks. Each handler is a method that assigns the fields step by step
  and is proved equal to its `Session` transition.
- `reachability.dfy` (module `Reachability`): runs made of events. A click
  is possible only when the rendered screen shows its control. Timers and the
  orientation effect may fire at any moment. An invariant holds in every
  reachable state: at most one gate is raised, gates and playback happen only
  in the preview, and every element comes from the fixed batch. The lemmas
  that need reachability build on this invariant.

Four behaviours of the code worth noting:

- Orientation is a separate field that the effect updates after the view
  changes. It is not derived from the view. So between a navigation and the
  effect, the state can be, for example, view home in landscape. In that state
  the component renders nothing (`Render.TransientHomeRendersNothing`).
- RUN raises one gate and does not lower the other. So the rule "RUN raises
  the audio gate exactly when there is an intro, and the disclaimer exactly
  when there is a background and no intro" holds only when both gates start
  closed. The invariant shows they always are when RUN can be pressed
  (`Reachability.RunGatesWhenEnabled`).
- The intro timer is harmless right after a back press. It is not harmless
  once the user has gone on to the home screen: it brings the view back to the
  editor (`Session.LateIntroTimerAfterHome`). The audio timer can fire stale
  in the same way: allow audio, press back, press RUN and allow audio again
  within 6 s, and the first timer stops the second playback and unmounts the
  intro video (`Reachability.StaleAudioTimerStopsIntro`).
- When the disclaimer is confirmed, the background video is not mounted yet.
  So `videoRef.current` is null and the handler's `play()` call never runs
  (`Reachability.DisclaimerOkSkipsPlay`). The background `<video>` element has
  `loop` but no `autoPlay`, so once mounted it never starts playing.

## Model

| member | source | states |
|---|---|---|
| `Session.OrientationFor` | src/pages/Index.tsx:38-44 | the effect picks landscape exactly for the editor view |
| `Session.SyncOrientation` | src/pages/Index.tsx:38-44 | after the effect, orientation is landscape iff the view is editor; nothing else changes |
| `Session.NewProject` | src/pages/Index.tsx:46-48 | the view becomes editor; every other field is unchanged |
| `Session.MyProjects` | src/pages/Index.tsx:50-52 | the view becomes projects; every other field is unchanged |
| `Session.ProjectSelect` | src/pages/Index.tsx:54-56 | selecting any project is the same transition as a new project (the id is ignored) |
| `Session.GoHome` | src/pages/Index.tsx:152-153 | the back arrows of the project list (line 153) and of the editor's top bar (line 234) set the view to home and change nothing else |
| `Session.AddIntro` | src/pages/Index.tsx:58-60 | the intro flag becomes true; every other field is unchanged |
| `Session.AddBackground` | src/pages/Index.tsx:62-64 | the background flag becomes true; every other field is unchanged |
| `Session.AddButtons` | src/pages/Index.tsx:66-73 | the list grows by three; the old list is kept as a prefix and the fixed batch is the suffix; nothing else changes |
| `Session.DropLast` | src/pages/Index.tsx:76 | `slice(0, -1)`: on a non-empty list the result plus the old last element is the old list; an empty list stays empty |
| `Session.RemoveButton` | src/pages/Index.tsx:75-77 | a non-empty list loses exactly its last element; on an empty list the state is unchanged |
| `Session.Run` | src/pages/Index.tsx:79-89 | the view becomes preview; the audio gate is raised iff there is an intro, the disclaimer iff there is a background and no intro; the run never raises both; an already raised gate stays raised |
| `Session.AudioPermission` | src/pages/Index.tsx:91-94 | the audio gate closes and playback starts; nothing else changes |
| `Session.DisclaimerOk` | src/pages/Index.tsx:101-103 | the disclaimer closes and playback starts; nothing else changes |
| `Session.TimerAudioDone` | src/pages/Index.tsx:95-98 | the 6000 ms callback stops playback and leaves the view and everything else unchanged |
| `Session.Back` | src/pages/Index.tsx:109-114 | the view becomes editor, playback stops and both gates close; intro, background and elements are kept |
| `Session.IntroEndedTimer` | src/pages/Index.tsx:345-349 | the intro-ended callback has the same effect as the back button |
| `Session.NewProjectOpensLandscapeEditor` | src/pages/Index.tsx:38-56 | new project, and selecting any project, followed by the effect give the editor in landscape |
| `Session.ToolFlagsIdempotent` | src/pages/Index.tsx:58-64 | pressing intro or background twice is the same as once, and the two commute |
| `Session.AddThenRemoveThrice` | src/pages/Index.tsx:66-77 | add buttons then three removes restores the whole state |
| `Session.RemoveOnEmptyIsNoOp` | src/pages/Index.tsx:75-77 | removing from an empty list, once or twice, changes nothing |
| `Session.IdsRepeatAcrossBatches` | src/pages/Index.tsx:67-72 | two batches put the ids "1", "2", "3" twice, so the ids are not unique |
| `Session.RunPicksOneGate` | src/pages/Index.tsx:79-89 | with both gates closed, RUN raises exactly the gate picked by precedence and never both |
| `Session.LateTimersAfterBack` | src/pages/Index.tsx:346-349 | back is idempotent; either timer firing after back leaves the state of back unchanged |
| `Session.AudioTimerEndsPlayback` | src/pages/Index.tsx:91-98 | audio permission followed by its timer: gate closed, playback stopped, view unchanged |
| `Session.LateIntroTimerAfterHome` | src/pages/Index.tsx:346-349 | after back and then home, a late intro timer moves the view from home back to the editor |
| `Render.SelectBranch` | src/pages/Index.tsx:116-379 | no screen is rendered iff the view is not preview and the orientation differs from the view's; otherwise the view's own screen is rendered |
| `Render.SyncedStateRendersItsView` | src/pages/Index.tsx:38-44 | once the effect has run, every view renders its own screen |
| `Render.TransientHomeRendersNothing` | src/pages/Index.tsx:379 | leaving the landscape editor for home renders nothing until the effect runs, then renders the home screen |
| `Render.EditorPlaceholderShown` | src/pages/Index.tsx:273 | defines when the editor canvas shows the monitor placeholder: no background and no element |
| `Render.PlaceholderHiddenAfterContent` | src/pages/Index.tsx:273 | the editor placeholder disappears after add buttons or add background; after a remove it shows iff there is no background and the list had at most one element before the remove |
| `Render.Scale` | src/pages/Index.tsx:361-366 | defines one overlay box: the element's key and image at twice its x, y, width and height |
| `Render.OverlayBoxes` | src/pages/Index.tsx:357 | the preview draws one overlay per element |
| `Render.OverlayBoxesAt` | src/pages/Index.tsx:357-366 | the i-th overlay is the i-th element at twice its x, y, width and height |
| `Render.OverlayBoxesAppend` | src/pages/Index.tsx:357 | the overlays of a concatenated list are the concatenated overlays |
| `Render.RenderPreview` | src/pages/Index.tsx:299-374 | each modal follows its flag; background video iff background and playing; intro video iff intro and playing; no overlays with an intro, and without one the overlays are the elements' doubled boxes in list order |
| `Render.BackgroundVideoMounted` | src/pages/Index.tsx:326-328 | defines when `ref={videoRef}` is attached: the preview is rendered and the background video is shown |
| `Render.SingleElementPreview` | src/pages/Index.tsx:361-366 | the element at (50,50), 80×80 is drawn at left 100, top 100, 160×160 |
| `Render.AddButtonsPreview` | src/pages/Index.tsx:357-366 | one batch adds the boxes (100,100), (300,200), (200,400), each 160×160, after the existing ones |
| `IndexPage.Index.constructor` | src/pages/Index.tsx:23-35 | mounting gives the home screen in portrait with nothing added and nothing playing |
| `IndexPage.Index.SyncOrientation` | src/pages/Index.tsx:38-44 | the effect method equals the effect transition |
| `IndexPage.Index.HandleNewProject` | src/pages/Index.tsx:46-48 | the new state is the new-project transition of the old |
| `IndexPage.Index.HandleMyProjects` | src/pages/Index.tsx:50-52 | the new state is the projects transition of the old |
| `IndexPage.Index.HandleProjectSelect` | src/pages/Index.tsx:54-56 | the new state is the project-select transition of the old |
| `IndexPage.Index.HandleGoHome` | src/pages/Index.tsx:233-234 | for both back-to-home arrows (line 234 in the editor, line 153 in the project list) the new state is the go-home transition of the old |
| `IndexPage.Index.HandleAddIntro` | src/pages/Index.tsx:58-60 | the new state is the add-intro transition of the old |
| `IndexPage.Index.HandleAddBackground` | src/pages/Index.tsx:62-64 | the new state is the add-background transition of the old |
| `IndexPage.Index.HandleAddButtons` | src/pages/Index.tsx:66-73 | the list is the old list followed by the fixed batch; nothing else changes |
| `IndexPage.Index.HandleRemoveButton` | src/pages/Index.tsx:75-77 | the list loses its last element if it has one; nothing else changes |
| `IndexPage.Index.HandleRun` | src/pages/Index.tsx:79-89 | the new state is the RUN transition; starting with closed gates, exactly the precedence gate is raised |
| `IndexPage.Index.HandleAudioPermission` | src/pages/Index.tsx:91-99 | the new state is the audio-permission transition of the old |
| `IndexPage.Index.HandleDisclaimerOk` | src/pages/Index.tsx:101-107 | the new state is the disclaimer transition; `play()` is called iff the background video was mounted in the current render |
| `IndexPage.Index.TimerAudioDone` | src/pages/Index.tsx:95-98 | the new state is the audio-timer transition of the old |
| `IndexPage.Index.HandleBack` | src/pages/Index.tsx:109-114 | the new state is the back transition of the old |
| `IndexPage.Index.IntroEndedTimer` | src/pages/Index.tsx:345-349 | stopping playback and then calling the back handler gives the intro-timer transition |
| `Reachability.Enabled` | src/pages/Index.tsx:126-318 | defines which click the rendered screen offers: new project and my projects on home (126-141), the back arrow and project cards on the list (152-168), the tools, back and RUN in the editor (192-248), back always and each modal button only while its flag is set in the preview (290-318); timers and the effect are always possible |
| `Reachability.InitialInv` | src/pages/Index.tsx:23-35 | the mounted state satisfies the invariant and renders the home screen |
| `Reachability.StepPreservesInv` | src/pages/Index.tsx:46-114 | every enabled event keeps the invariant |
| `Reachability.ReplayPreservesInv` | src/pages/Index.tsx:46-114 | every valid run keeps the invariant |
| `Reachability.ReachableInv` | src/pages/Index.tsx:23-114 | every state reachable from mounting has at most one gate, gates and playback only in the preview, and only batch elements |
| `Reachability.RunGatesWhenEnabled` | src/pages/Index.tsx:79-89 | in a reachable editor, RUN raises the audio gate iff intro, the disclaimer iff background and no intro, and does not start playback |
| `Reachability.GatesAndPlayback` | src/pages/Index.tsx:300-354 | nothing plays while a gate is raised; confirming the audio gate shows the intro video without overlays; confirming the disclaimer shows the background video with the overlays |
| `Reachability.DisclaimerOkSkipsPlay` | src/pages/Index.tsx:104-106 | whenever the disclaimer can be confirmed, the background video is not mounted, so `play()` is not called |
| `Reachability.StaleAudioTimerStopsIntro` | src/pages/Index.tsx:91-98 | an audio timer that fires right after a later confirmation stops that playback and unmounts the intro video, leaving the view in the preview |
| `Reachability.BackClearsPreview` | src/pages/Index.tsx:109-114 | after back no gate and no video is shown and the project content is kept; the intro timer event equals the back event |
| `Reachability.AddRemoveThriceInEditor` | src/pages/Index.tsx:210-226 | in the editor, add then three removes is a valid run back to the same state; on an empty list a remove is a valid no-op |

## Left out

- Markup, styling and the `Button`, `Card` and `Icon` components: they are presentation only.
- The static project seed list: nothing changes it, and selecting a project ignores its id.
- Live drag positions from `react-draggable`: the library never writes them back to the element list, so stored x/y stay fixed.
- Media playback (`<video>`, `play()`, `loop`, `autoPlay`): browser I/O. Only the intro video's end notification is modelled, through the timer event it schedules. `play()` is modelled only as whether it is called.
- Real timer delays (6000 ms, 3000 ms) and the fade mentioned in a comment: the timers are events that may fire at any moment. This over-approximates the real schedule.
- React scheduling beyond one explicit orientation-effect step; a handler's setters are applied in order, which gives the same state as React's batching: every setter writes a constant except the two list setters, which pass an updater of the previous list; each handler calls at most one of them, and React applies it to the latest list.
- Coordinates are unbounded integers, not JavaScript floating-point numbers. Every stored coordinate is a small integer literal, so doubling it is exact.
