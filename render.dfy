/** What the component renders for a session state: which of the four screens
    is chosen, and, in the preview, which modals, videos and overlay boxes
    appear.  Markup and styling are not modelled; only these decisions are. */
module Render {
  import opened Session

  datatype Option<T> = None | Some(value: T)

  /** The four render branches, in the order the component tests them. */
  datatype Branch = HomeScreen | ProjectsList | EditorScreen | PreviewScreen

  /** The screen each view is meant to show. */
  function BranchOf(v: View): Branch
  {
    match v
    case Home => HomeScreen
    case Projects => ProjectsList
    case Editor => EditorScreen
    case Preview => PreviewScreen
  }

  /** The chain of `if` branches of the component; falling through all of
      them renders nothing.  Preview matches in either orientation; the other
      three screens render only once the orientation matches their view, so
      the result is empty exactly in the window before the orientation effect. */
  function SelectBranch(v: View, o: Orientation): (r: Option<Branch>)
    ensures r.None? <==> v != Preview && o != OrientationFor(v)
    ensures r.Some? ==> r.value == BranchOf(v)
  {
    if v == Home && o == Portrait then Some(HomeScreen)
    else if v == Projects && o == Portrait then Some(ProjectsList)
    else if v == Editor && o == Landscape then Some(EditorScreen)
    else if v == Preview then Some(PreviewScreen)
    else None
  }

  /** After the orientation effect has run, every state renders the screen of
      its view. */
  lemma SyncedStateRendersItsView(s: State)
    ensures SelectBranch(SyncOrientation(s).currentView, SyncOrientation(s).orientation) == Some(BranchOf(s.currentView))
  {
  }

  /** Leaving the editor for home renders nothing until the effect has run. */
  lemma TransientHomeRendersNothing(s: State)
    requires s.currentView == Editor && s.orientation == Landscape
    ensures SelectBranch(GoHome(s).currentView, GoHome(s).orientation) == None
    ensures SelectBranch(SyncOrientation(GoHome(s)).currentView, SyncOrientation(GoHome(s)).orientation) == Some(HomeScreen)
  {
  }

  // ----- Editor canvas -----

  /** The monitor placeholder on the editor canvas: no background and no element. */
  predicate EditorPlaceholderShown(s: State)
  {
    !s.hasBackground && |s.draggableElements| == 0
  }

  /** Adding buttons or a background always hides the placeholder. */
  lemma PlaceholderHiddenAfterContent(s: State)
    ensures !EditorPlaceholderShown(AddButtons(s))
    ensures !EditorPlaceholderShown(AddBackground(s))
    ensures EditorPlaceholderShown(RemoveButton(s)) <==>
              !s.hasBackground && |s.draggableElements| <= 1
  {
  }

  // ----- Preview -----

  /** One overlay as laid out on the preview: CSS left, top, width and height. */
  datatype Box = Box(key: string, src: string, left: int, top: int, width: int, height: int)

  /** The preview draws an element at twice its editor position and size. */
  function Scale(e: Element): Box
  {
    Box(e.id, e.src, e.x * 2, e.y * 2, e.width * 2, e.height * 2)
  }

  /** `draggableElements.map(...)` of the preview, element by element. */
  function OverlayBoxes(els: seq<Element>): (r: seq<Box>)
    ensures |r| == |els|
  {
    if els == [] then [] else [Scale(els[0])] + OverlayBoxes(els[1..])
  }

  /** The overlay list keeps the element order and doubles every coordinate. */
  lemma {:induction false} OverlayBoxesAt(els: seq<Element>, i: nat)
    requires i < |els|
    ensures OverlayBoxes(els)[i] ==
              Box(els[i].id, els[i].src, 2 * els[i].x, 2 * els[i].y, 2 * els[i].width, 2 * els[i].height)
  {
    if i > 0 {
      OverlayBoxesAt(els[1..], i - 1);
    }
  }

  /** The overlay list of a concatenation is the concatenation of the lists. */
  lemma {:induction false} OverlayBoxesAppend(a: seq<Element>, b: seq<Element>)
    ensures OverlayBoxes(a + b) == OverlayBoxes(a) + OverlayBoxes(b)
  {
    if a == [] {
      assert a + b == b;
    } else {
      assert (a + b)[0] == a[0];
      assert (a + b)[1..] == a[1..] + b;
      OverlayBoxesAppend(a[1..], b);
    }
  }

  /** Everything the preview branch decides to show. */
  datatype PreviewFrame = PreviewFrame(
    audioModal: bool,
    disclaimerModal: bool,
    backgroundVideo: bool,
    introVideo: bool,
    overlays: seq<Box>)

  /** The preview branch: each gate modal follows its flag, each video is shown
      while playing and its asset has been added, and the overlays are drawn
      whenever there is no intro. */
  function RenderPreview(s: State): (f: PreviewFrame)
    ensures f.audioModal == s.showAudioPermission
    ensures f.disclaimerModal == s.showDisclaimerModal
    ensures f.backgroundVideo <==> s.hasBackground && s.isPlaying
    ensures f.introVideo <==> s.hasIntro && s.isPlaying
    ensures s.hasIntro ==> f.overlays == []
    ensures !s.hasIntro ==> f.overlays == OverlayBoxes(s.draggableElements)
  {
    PreviewFrame(
      s.showAudioPermission,
      s.showDisclaimerModal,
      s.hasBackground && s.isPlaying,
      s.hasIntro && s.isPlaying,
      if s.hasIntro then [] else OverlayBoxes(s.draggableElements))
  }

  /** `videoRef.current` is set exactly while the background video is mounted:
      the preview branch is rendered and the background video is shown. */
  predicate BackgroundVideoMounted(s: State)
  {
    SelectBranch(s.currentView, s.orientation) == Some(PreviewScreen) && RenderPreview(s).backgroundVideo
  }

  /** A single element recorded at (50, 50), 80 by 80, is drawn at left 100,
      top 100, 160 by 160 when there is no intro. */
  lemma SingleElementPreview(s: State)
    requires !s.hasIntro
    requires s.draggableElements == [Element("1", Placeholder, 50, 50, 80, 80)]
    ensures RenderPreview(s).overlays == [Box("1", Placeholder, 100, 100, 160, 160)]
  {
  }

  /** One batch of buttons without an intro adds the three doubled boxes
      behind the existing overlays. */
  lemma {:induction false} AddButtonsPreview(s: State)
    requires !s.hasIntro
    ensures RenderPreview(AddButtons(s)).overlays ==
              RenderPreview(s).overlays +
              [Box("1", Placeholder, 100, 100, 160, 160),
               Box("2", Placeholder, 300, 200, 160, 160),
               Box("3", Placeholder, 200, 400, 160, 160)]
  {
    OverlayBoxesAppend(s.draggableElements, NewButtons);
    OverlayBoxesAt(NewButtons, 0);
    OverlayBoxesAt(NewButtons, 1);
    OverlayBoxesAt(NewButtons, 2);
  }
}
