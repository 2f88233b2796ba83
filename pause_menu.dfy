/**
 * The pause menu of the graphical client: ESCAPE shows or hides it; while
 * shown, the main page offers resume / themes / quit and the theme page
 * cycles through the loaded themes.
 */
module PauseMenu {
  import opened InputManager
  import opened CppInt

  datatype PauseMenuState = MainMenu | ThemeMenu

  datatype SceneType = Basic

  /** How many buttons the main page has. */
  const ButtonCount: int := 3

  /** The themes init loads: CLASSIC and POKEMON. */
  const ThemeNames: seq<string> := ["CLASSIC", "POKEMON"]

  class PauseMenu {
    var display: bool
    var shouldChangeScene: bool
    var sceneType: SceneType
    const key: int
    var selectedButton: int
    var selectedTheme: int
    var menuState: PauseMenuState
    var themes: seq<string>

    /** The selection stays on a button and, once themes are loaded, on a theme. */
    ghost predicate Valid()
      reads this
    {
      key == KeyEscape &&
      0 <= selectedButton < ButtonCount &&
      (themes == [] || themes == ThemeNames) &&
      0 <= selectedTheme && (themes == [] ==> selectedTheme == 0) && (themes != [] ==> selectedTheme < |themes|)
    }

    constructor ()
      ensures Valid()
      ensures !display && !shouldChangeScene && sceneType == Basic && key == KeyEscape
      ensures selectedButton == 0 && selectedTheme == 0 && menuState == MainMenu && themes == []
    {
      display, shouldChangeScene, sceneType, key := false, false, Basic, KeyEscape;
      selectedButton, selectedTheme, menuState, themes := 0, 0, MainMenu, [];
    }

    /** init: loads the two themes (their textures are not modelled). */
    method Init()
      requires Valid()
      modifies this`themes
      ensures Valid() && themes == ThemeNames
    {
      themes := ThemeNames;
    }

    /**
     * handleInput. closeWindow reports that "quit" was chosen (the window
     * library's CloseWindow).
     */
    method HandleInput(im: InputManager) returns (closeWindow: bool)
      requires Valid() && themes != []
      modifies this`display, this`selectedButton, this`selectedTheme, this`menuState
      ensures Valid()
      ensures im.IsKeyPressed(key) ==>
        display == !old(display) && selectedButton == old(selectedButton) &&
        selectedTheme == old(selectedTheme) && menuState == old(menuState) && !closeWindow
      ensures !im.IsKeyPressed(key) && !old(display) ==>
        !display && selectedButton == old(selectedButton) &&
        selectedTheme == old(selectedTheme) && menuState == old(menuState) && !closeWindow
      ensures !im.IsKeyPressed(key) && old(display) && old(menuState) == MainMenu ==>
        MainPageOutcome(im, old(selectedButton), display, selectedButton, menuState, closeWindow) &&
        selectedTheme == old(selectedTheme)
      ensures !im.IsKeyPressed(key) && old(display) && old(menuState) == ThemeMenu ==>
        display && selectedButton == old(selectedButton) && !closeWindow &&
        selectedTheme == ThemeStep(im, old(selectedTheme), |themes|) &&
        menuState == (if Confirms(im) then MainMenu else ThemeMenu)
    {
      closeWindow := false;
      if im.IsKeyPressed(key) {
        display := !display;
        return;
      }
      if !display {
        return;
      }
      if menuState == MainMenu {
        closeWindow := MainPage(im);
      } else {
        ThemePage(im);
      }
      if im.IsKeyPressed(KeyEscape) {
        // ESCAPE is the toggle key, whose frame returned above.
        assert false;
      }
    }

    /** The main page: UP, then DOWN, then a confirmation on the button reached. */
    method MainPage(im: InputManager) returns (closeWindow: bool)
      requires display && menuState == MainMenu && 0 <= selectedButton < ButtonCount
      modifies this`selectedButton, this`display, this`menuState
      ensures MainPageOutcome(im, old(selectedButton), display, selectedButton, menuState, closeWindow)
    {
      closeWindow := false;
      if im.IsKeyPressed(KeyUp) {
        selectedButton := (selectedButton - 1 + 3) % 3;
      }
      if im.IsKeyPressed(KeyDown) {
        selectedButton := (selectedButton + 1) % 3;
      }
      if Confirms(im) {
        if selectedButton == 0 {
          display := false;
        } else if selectedButton == 1 {
          menuState := ThemeMenu;
        } else {
          closeWindow := true;
        }
      }
    }

    /** The theme page: LEFT, then RIGHT, then ESCAPE or a confirmation goes back to the main page. */
    method ThemePage(im: InputManager)
      requires themes != [] && 0 <= selectedTheme < |themes|
      modifies this`selectedTheme, this`menuState
      ensures selectedTheme == ThemeStep(im, old(selectedTheme), |themes|)
      ensures menuState == if im.IsKeyPressed(KeyEscape) || Confirms(im) then MainMenu else old(menuState)
    {
      if im.IsKeyPressed(KeyLeft) {
        selectedTheme := (selectedTheme - 1 + |themes|) % |themes|;
      }
      if im.IsKeyPressed(KeyRight) {
        selectedTheme := (selectedTheme + 1) % |themes|;
      }
      if im.IsKeyPressed(KeyEscape) {
        menuState := MainMenu;
      }
      if Confirms(im) {
        menuState := MainMenu;
      }
    }
  }

  /** ENTER or SPACE went down this frame. */
  predicate Confirms(im: InputManager)
    reads im
  {
    im.IsKeyPressed(KeyEnter) || im.IsKeyPressed(KeySpace)
  }

  /** The button after UP then DOWN, each moving one step round the three buttons. */
  function ButtonStep(im: InputManager, b: int): (r: int)
    reads im
    requires 0 <= b < ButtonCount
    ensures 0 <= r < ButtonCount
    ensures !im.IsKeyPressed(KeyUp) && !im.IsKeyPressed(KeyDown) ==> r == b
  {
    var up := if im.IsKeyPressed(KeyUp) then (b + 2) % 3 else b;
    if im.IsKeyPressed(KeyDown) then (up + 1) % 3 else up
  }

  /** The theme after LEFT then RIGHT, each moving one step round the themes. */
  function ThemeStep(im: InputManager, t: int, count: nat): (r: int)
    reads im
    requires 0 <= t < count
    ensures 0 <= r < count
    ensures im.IsKeyPressed(KeyLeft) == im.IsKeyPressed(KeyRight) ==> r == t
  {
    WrapOnce(t - 1 + count, count);
    var left := if im.IsKeyPressed(KeyLeft) then (t - 1 + count) % count else t;
    WrapOnce(left + 1, count);
    if im.IsKeyPressed(KeyRight) then (left + 1) % count else left
  }

  /**
   * The main page with ESCAPE not pressed: the button moves, then a
   * confirmation acts on the button it lands on (0 hides the menu, 1 opens
   * the theme page, 2 quits).
   */
  ghost predicate MainPageOutcome(im: InputManager, oldButton: int, display: bool, button: int, state: PauseMenuState, close: bool)
    reads im
    requires 0 <= oldButton < ButtonCount
  {
    button == ButtonStep(im, oldButton) &&
    display == !(Confirms(im) && button == 0) &&
    state == (if Confirms(im) && button == 1 then ThemeMenu else MainMenu) &&
    close == (Confirms(im) && button == 2)
  }

  /** Pressing UP then DOWN on the same frame leaves the selection where it was. */
  lemma UpThenDownCancel(im: InputManager, b: int)
    requires 0 <= b < ButtonCount && im.IsKeyPressed(KeyUp) && im.IsKeyPressed(KeyDown)
    ensures ButtonStep(im, b) == b
  {
  }
}
