/**
 * The application shell (src/App.js): which screen is shown, the paused
 * flag derived from it, the creature picked for the detail modal and the
 * record of discovered creatures.
 */
module Screens {
  import opened Wrappers

  const MAIN_MENU: string := "mainMenu"
  const TUTORIAL: string := "tutorial"
  const GAME: string := "game"
  const CREATURE_MODAL: string := "creatureModal"
  const PAUSE: string := "pause"
  const GALLERY: string := "gallery"

  /** The six screen names the shell knows how to render. */
  predicate IsKnownScreen(screen: string)
  {
    screen in {MAIN_MENU, TUTORIAL, GAME, CREATURE_MODAL, PAUSE, GALLERY}
  }

  /** The screens on which the game is frozen behind an overlay. */
  predicate IsPausedFor(screen: string)
  {
    screen == PAUSE || screen == CREATURE_MODAL
  }

  /** Records a discovery: the functional update `{...prev, [id]: true}`. */
  function Discover(discovered: map<string, bool>, id: string): (r: map<string, bool>)
    ensures id in r && r[id]
    ensures r.Keys == discovered.Keys + {id}
    ensures forall k :: k in discovered && k != id ==> r[k] == discovered[k]
  {
    discovered[id := true]
  }

  lemma DiscoverIsIdempotent(discovered: map<string, bool>, id: string)
    ensures Discover(Discover(discovered, id), id) == Discover(discovered, id)
  {
  }

  /** The order in which two creatures are discovered does not matter. */
  lemma DiscoveriesCommute(discovered: map<string, bool>, a: string, b: string)
    ensures Discover(Discover(discovered, a), b) == Discover(Discover(discovered, b), a)
  {
    var ab := Discover(Discover(discovered, a), b);
    var ba := Discover(Discover(discovered, b), a);
    assert ab.Keys == ba.Keys;
    forall k | k in ab.Keys
      ensures ab[k] == ba[k]
    {
    }
  }

  /** A creature once discovered stays discovered whatever is discovered next. */
  lemma {:induction false} DiscoveriesAccumulate(discovered: map<string, bool>, ids: seq<string>, id: string)
    requires id in discovered && discovered[id]
    ensures id in DiscoverAll(discovered, ids) && DiscoverAll(discovered, ids)[id]
    decreases |ids|
  {
    if |ids| > 0 {
      DiscoveriesAccumulate(Discover(discovered, ids[0]), ids[1..], id);
    }
  }

  /** Discovers several creatures in turn (a sequence of discovery events). */
  function DiscoverAll(discovered: map<string, bool>, ids: seq<string>): (r: map<string, bool>)
    ensures r.Keys == discovered.Keys + set i | 0 <= i < |ids| :: ids[i]
    ensures forall k :: k in discovered && k !in ids ==> r[k] == discovered[k]
    decreases |ids|
  {
    if |ids| == 0 then discovered else DiscoverAll(Discover(discovered, ids[0]), ids[1..])
  }

  /** After a run of discoveries every creature in the run is recorded. */
  lemma {:induction false} DiscoverAllRecordsEach(discovered: map<string, bool>, ids: seq<string>)
    ensures forall i :: 0 <= i < |ids| ==> ids[i] in DiscoverAll(discovered, ids) && DiscoverAll(discovered, ids)[ids[i]]
    decreases |ids|
  {
    if |ids| > 0 {
      var rest := DiscoverAll(Discover(discovered, ids[0]), ids[1..]);
      DiscoverAllRecordsEach(Discover(discovered, ids[0]), ids[1..]);
      DiscoveriesAccumulate(Discover(discovered, ids[0]), ids[1..], ids[0]);
      forall i | 1 <= i < |ids|
        ensures ids[i] in rest && rest[ids[i]]
      {
        assert ids[i] == ids[1..][i - 1];
      }
    }
  }

  datatype Overlay = NoOverlay | CreatureModalOverlay | PauseMenuOverlay

  /** What the shell puts on screen: the game view carries its overlay. */
  datatype View = MainMenuView | TutorialView | GameView(overlay: Overlay) | GalleryView

  /** The screen switch, with its fallback to the main menu. */
  function RenderScreen(screen: string): (v: View)
    ensures v.GameView? <==> screen in {GAME, CREATURE_MODAL, PAUSE}
    ensures v.GameView? ==> (v.overlay != NoOverlay <==> IsPausedFor(screen))
    ensures !IsKnownScreen(screen) ==> v == MainMenuView
    ensures v == MainMenuView ==> screen == MAIN_MENU || !IsKnownScreen(screen)
  {
    if screen == MAIN_MENU then MainMenuView
    else if screen == TUTORIAL then TutorialView
    else if screen == GAME then GameView(NoOverlay)
    else if screen == CREATURE_MODAL then GameView(CreatureModalOverlay)
    else if screen == PAUSE then GameView(PauseMenuOverlay)
    else if screen == GALLERY then GalleryView
    else MainMenuView
  }

  /** The paused flag and the overlay agree: the game view is frozen exactly when something covers it. */
  lemma OverlayMeansPaused(screen: string)
    ensures RenderScreen(screen) == GameView(NoOverlay) <==> screen == GAME
    ensures IsPausedFor(screen) ==> RenderScreen(screen).GameView? && RenderScreen(screen).overlay != NoOverlay
  {
  }

  /**
   * The shell's state. `isPaused` is written by the effect that follows every
   * change of `currentScreen`; the model runs that effect as part of each handler.
   * The selected creature is kept by its id.
   */
  class App {
    var currentScreen: string
    var isPaused: bool
    var discoveredCreatures: map<string, bool>
    var selectedCreature: Option<string>

    ghost predicate Valid()
      reads this
    {
      isPaused == IsPausedFor(currentScreen)
    }

    constructor ()
      ensures Valid()
      ensures currentScreen == MAIN_MENU && !isPaused
      ensures discoveredCreatures == map[] && selectedCreature == None
    {
      currentScreen := MAIN_MENU;
      isPaused := false;
      discoveredCreatures := map[];
      selectedCreature := None;
    }

    /** The effect on `currentScreen`: pause exactly on the two overlay screens. */
    method SyncPaused()
      modifies this`isPaused
      ensures Valid()
      ensures isPaused <==> currentScreen == PAUSE || currentScreen == CREATURE_MODAL
    {
      if currentScreen == PAUSE || currentScreen == CREATURE_MODAL {
        isPaused := true;
      } else {
        isPaused := false;
      }
    }

    method SetScreen(screen: string)
      modifies this`currentScreen, this`isPaused
      ensures currentScreen == screen
      ensures Valid()
    {
      currentScreen := screen;
      SyncPaused();
    }

    method HandleStartGame()
      modifies this`currentScreen, this`isPaused
      ensures currentScreen == TUTORIAL && !isPaused && Valid()
    {
      SetScreen(TUTORIAL);
    }

    method HandleShowGallery()
      modifies this`currentScreen, this`isPaused
      ensures currentScreen == GALLERY && !isPaused && Valid()
    {
      SetScreen(GALLERY);
    }

    method HandleCreatureDiscovery(creatureId: string)
      modifies this`discoveredCreatures
      ensures discoveredCreatures == Discover(old(discoveredCreatures), creatureId)
    {
      discoveredCreatures := Discover(discoveredCreatures, creatureId);
    }

    method HandleShowCreatureModal(creatureId: string)
      modifies this`selectedCreature, this`currentScreen, this`isPaused
      ensures selectedCreature == Some(creatureId)
      ensures currentScreen == CREATURE_MODAL && isPaused && Valid()
    {
      selectedCreature := Some(creatureId);
      SetScreen(CREATURE_MODAL);
    }

    /** Clears the selection only: the screen, and so the pause, stay as they were. */
    method HandleCloseCreatureModal()
      modifies this`selectedCreature
      ensures selectedCreature == None
    {
      selectedCreature := None;
    }

    method HandleGamePause()
      modifies this`currentScreen, this`isPaused
      ensures currentScreen == PAUSE && isPaused && Valid()
    {
      SetScreen(PAUSE);
    }

    method HandleResumeGame()
      modifies this`currentScreen, this`isPaused
      ensures currentScreen == GAME && !isPaused && Valid()
    {
      SetScreen(GAME);
    }

    method HandleBackToMenu()
      modifies this`currentScreen, this`isPaused
      ensures currentScreen == MAIN_MENU && !isPaused && Valid()
    {
      SetScreen(MAIN_MENU);
    }

    method HandleCloseGallery()
      modifies this`currentScreen, this`isPaused
      ensures currentScreen == MAIN_MENU && !isPaused && Valid()
    {
      SetScreen(MAIN_MENU);
    }

    method HandleCloseTutorial()
      modifies this`currentScreen, this`isPaused
      ensures currentScreen == GAME && !isPaused && Valid()
    {
      SetScreen(GAME);
    }

    function Render(): (v: View)
      reads this
      ensures Valid() ==> (v.GameView? && v.overlay != NoOverlay <==> isPaused)
    {
      RenderScreen(currentScreen)
    }
  }
}
