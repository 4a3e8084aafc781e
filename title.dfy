/**
 * The title screen: a logo that slides down into place, a "press enter"
 * phase, and then a three-entry menu whose cursor wraps around and whose
 * selected entry becomes the next screen when Enter is pressed.
 *
 * The fade of the "press enter" text (a float colour animation) and all
 * layout that depends on texture or text sizes are left out.
 */
module Title {

  /** The menu's entries, from the game's screen enumeration. */
  datatype GameScreen = Gameplay | Options | Credits

  /**
   * What the screen asks the framework for: nothing yet (the reset value
   * 0 of finishScreen) or a move to a screen.
   */
  datatype Request = NoRequest | Goto(screen: GameScreen)

  const MaxOptions := 3
  const MenuOptions: seq<GameScreen> := [Gameplay, Options, Credits]
  /** The logo starts above the top of the screen. */
  const LogoStartY := -200

  /** The keys and gestures the title screen reads in one frame (all "pressed this frame"). */
  datatype TitleKeys = TitleKeys(enter: bool, tap: bool, keyDown: bool, keyS: bool, keyUp: bool, keyW: bool)

  predicate Confirm(k: TitleKeys) { k.enter || k.tap }
  predicate Down(k: TitleKeys) { k.keyDown || k.keyS }
  predicate Up(k: TitleKeys) { k.keyUp || k.keyW }

  /** The title screen's module state, as a value. */
  datatype TitleState = TitleState(
    framesCounter: int,
    finishScreen: Request,
    cursorIndex: int,
    hasPressedEntered: bool,
    currentLogoPositionY: int,
    finalLogoPositionY: int)

  function Max(a: int, b: int): int
  {
    if a < b then b else a
  }

  /** The cursor is on a menu entry, and the logo is never below where it should stop. */
  predicate Invariant(s: TitleState)
  {
    0 <= s.cursorIndex < MaxOptions &&
    s.currentLogoPositionY <= Max(s.finalLogoPositionY, LogoStartY)
  }

  /** The cursor after a "down" press: the next entry, wrapping to the first. */
  function CursorAfterDown(i: int): (r: int)
    ensures 0 <= i < MaxOptions ==> r == (i + 1) % MaxOptions
  {
    if i + 1 >= MaxOptions then 0 else i + 1
  }

  /** The cursor after an "up" press: the previous entry, wrapping to the last. */
  function CursorAfterUp(i: int): (r: int)
    ensures 0 <= i < MaxOptions ==> r == (i + MaxOptions - 1) % MaxOptions
  {
    if i - 1 < 0 then MaxOptions - 1 else i - 1
  }

  /**
   * One UpdateTitleScreen, as a function of the state before it: Enter in
   * the menu phase selects the entry under the cursor; Enter in the first
   * phase only opens the menu; down and up move the cursor once the menu is
   * open (already in the frame that opens it); the frame counter advances;
   * the logo moves one unit down while it is above its final position.
   */
  function TitleStep(s: TitleState, k: TitleKeys): (r: TitleState)
    requires 0 <= s.cursorIndex < MaxOptions
    ensures r.framesCounter == s.framesCounter + 1
    ensures 0 <= r.cursorIndex < MaxOptions
    ensures r.hasPressedEntered <==> s.hasPressedEntered || Confirm(k)
    ensures s.hasPressedEntered && Confirm(k) ==> r.finishScreen == Goto(MenuOptions[s.cursorIndex])
    ensures !(s.hasPressedEntered && Confirm(k)) ==> r.finishScreen == s.finishScreen
    ensures !r.hasPressedEntered ==> r.cursorIndex == s.cursorIndex
    ensures r.hasPressedEntered ==>
      r.cursorIndex == (s.cursorIndex + (if Down(k) then 1 else 0) + (if Up(k) then MaxOptions - 1 else 0)) % MaxOptions
    ensures r.hasPressedEntered && Down(k) && Up(k) ==> r.cursorIndex == s.cursorIndex
    ensures r.finalLogoPositionY == s.finalLogoPositionY
    ensures s.currentLogoPositionY < s.finalLogoPositionY ==> r.currentLogoPositionY == s.currentLogoPositionY + 1
    ensures s.currentLogoPositionY >= s.finalLogoPositionY ==> r.currentLogoPositionY == s.currentLogoPositionY
    ensures Invariant(s) ==> Invariant(r)
  {
    var finish := if s.hasPressedEntered && Confirm(k) then Goto(MenuOptions[s.cursorIndex]) else s.finishScreen;
    var entered := if !s.hasPressedEntered && Confirm(k) then true else s.hasPressedEntered;
    var afterDown := if entered && Down(k) then CursorAfterDown(s.cursorIndex) else s.cursorIndex;
    var afterUp := if entered && Up(k) then CursorAfterUp(afterDown) else afterDown;
    var logo := if s.currentLogoPositionY < s.finalLogoPositionY then s.currentLogoPositionY + 1
                else s.currentLogoPositionY;
    TitleState(s.framesCounter + 1, finish, afterUp, entered, logo, s.finalLogoPositionY)
  }

  /** The state after one update per element of `frames`, in order. */
  function RunTitle(s: TitleState, frames: seq<TitleKeys>): (r: TitleState)
    requires Invariant(s)
    ensures Invariant(r)
    ensures r.framesCounter == s.framesCounter + |frames|
    ensures r.finalLogoPositionY == s.finalLogoPositionY
    decreases |frames|
  {
    if frames == [] then s else RunTitle(TitleStep(s, frames[0]), frames[1..])
  }

  /**
   * The logo slides down one unit per frame and stops exactly at its final
   * position: it never passes it.
   */
  lemma {:induction false} LogoStopsAtTarget(s: TitleState, frames: seq<TitleKeys>)
    requires Invariant(s)
    requires s.currentLogoPositionY <= s.finalLogoPositionY
    ensures RunTitle(s, frames).currentLogoPositionY ==
      if s.currentLogoPositionY + |frames| < s.finalLogoPositionY then s.currentLogoPositionY + |frames|
      else s.finalLogoPositionY
    decreases |frames|
  {
    if frames != [] {
      LogoStopsAtTarget(TitleStep(s, frames[0]), frames[1..]);
    }
  }

  /**
   * Until Enter or a tap opens the menu, the cursor stays put and no screen
   * change is requested, whatever else is pressed.
   */
  lemma {:induction false} NothingHappensBeforeEnter(s: TitleState, frames: seq<TitleKeys>)
    requires Invariant(s)
    requires !s.hasPressedEntered
    requires forall i :: 0 <= i < |frames| ==> !Confirm(frames[i])
    ensures var r := RunTitle(s, frames);
      !r.hasPressedEntered && r.cursorIndex == s.cursorIndex && r.finishScreen == s.finishScreen
    decreases |frames|
  {
    if frames != [] {
      NothingHappensBeforeEnter(TitleStep(s, frames[0]), frames[1..]);
    }
  }

  /** The first Enter opens the menu; the second, in a later frame, selects the entry under the cursor. */
  lemma EnterTwiceSelects(s: TitleState, first: TitleKeys, second: TitleKeys)
    requires Invariant(s) && !s.hasPressedEntered
    requires Confirm(first) && !Down(first) && !Up(first) && Confirm(second)
    ensures TitleStep(s, first).finishScreen == s.finishScreen
    ensures TitleStep(TitleStep(s, first), second).finishScreen == Goto(MenuOptions[s.cursorIndex])
  {
  }

  /** The title screen's module statics. */
  class TitleScreen {
    var framesCounter: int
    var finishScreen: Request
    var cursorIndex: int
    var hasPressedEntered: bool
    var currentLogoPositionY: int
    var finalLogoPositionY: int

    function State(): TitleState
      reads this
    {
      TitleState(framesCounter, finishScreen, cursorIndex, hasPressedEntered, currentLogoPositionY, finalLogoPositionY)
    }

    ghost predicate Valid()
      reads this
    {
      Invariant(State())
    }

    /** The statics before the first InitTitleScreen. */
    constructor ()
      ensures Valid()
      ensures State() == TitleState(0, NoRequest, 0, false, 0, 0)
    {
      framesCounter := 0;
      finishScreen := NoRequest;
      cursorIndex := 0;
      hasPressedEntered := false;
      currentLogoPositionY := 0;
      finalLogoPositionY := 0;
    }

    /**
     * InitTitleScreen: reset the frame counter and the request. The menu
     * phase and the cursor survive re-entry; only while the menu has never
     * been opened is the logo sent back above the screen and its stopping
     * row recomputed from the screen and title image heights.
     */
    method Init(screenHeight: int, titleImageHeight: int)
      requires Valid()
      requires screenHeight >= 0
      modifies this
      ensures Valid()
      ensures framesCounter == 0 && finishScreen == NoRequest
      ensures cursorIndex == old(cursorIndex) && hasPressedEntered == old(hasPressedEntered)
      ensures !hasPressedEntered ==>
        finalLogoPositionY == screenHeight / 2 - titleImageHeight * 4 && currentLogoPositionY == LogoStartY
      ensures hasPressedEntered ==>
        finalLogoPositionY == old(finalLogoPositionY) && currentLogoPositionY == old(currentLogoPositionY)
    {
      framesCounter := 0;
      finishScreen := NoRequest;
      if !hasPressedEntered {
        finalLogoPositionY := screenHeight / 2 - titleImageHeight * 4;
        currentLogoPositionY := LogoStartY;
      }
    }

    /** UpdateTitleScreen: the conditional updates in the order the screen makes them. */
    method Update(k: TitleKeys)
      requires Valid()
      modifies this
      ensures Valid()
      ensures State() == TitleStep(old(State()), k)
    {
      if hasPressedEntered && (k.enter || k.tap) {
        finishScreen := Goto(MenuOptions[cursorIndex]);
      }

      if !hasPressedEntered && (k.enter || k.tap) {
        hasPressedEntered := true;
      }

      if hasPressedEntered && (k.keyDown || k.keyS) {
        cursorIndex := cursorIndex + 1;
        if cursorIndex >= MaxOptions {
          cursorIndex := 0;
        }
      }

      if hasPressedEntered && (k.keyUp || k.keyW) {
        cursorIndex := cursorIndex - 1;
        if cursorIndex < 0 {
          cursorIndex := MaxOptions - 1;
        }
      }

      framesCounter := framesCounter + 1;

      if currentLogoPositionY < finalLogoPositionY {
        currentLogoPositionY := currentLogoPositionY + 1;
      }
    }
  }
}
