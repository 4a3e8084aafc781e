/**
 * The ending screen: it loads the stored best score and best survival
 * time, shows the time as minutes and seconds, and waits for Enter (play
 * again) or Q (main menu).
 *
 * The storage file is a map from slot to stored value; a slot that was
 * never written reads as 0.
 */
module Ending {

  /** Storage slots: the best survival time in seconds, and the best score. */
  const TimeSlot := 0
  const PointsSlot := 1

  /** What the screen hands the framework: play again, or go to the main menu. */
  const PlayAgainCode := 3
  const MainMenuCode := 1

  /** The keys and gestures the ending screen reads in one frame. */
  datatype EndingKeys = EndingKeys(enter: bool, tap: bool, keyQ: bool)

  /** The storage file: slot to value. */
  type Storage = map<int, int>

  function LoadStorageValue(storage: Storage, slot: int): (v: int)
    ensures slot in storage ==> v == storage[slot]
    ensures slot !in storage ==> v == 0
  {
    if slot in storage then storage[slot] else 0
  }

  /**
   * One UpdateEndingScreen on finishScreen: Enter or a tap asks to play
   * again; Q asks for the main menu and wins when both come in one frame;
   * otherwise the request stays as it was.
   */
  function EndingFinish(finishScreen: int, k: EndingKeys): (r: int)
    ensures k.keyQ ==> r == MainMenuCode
    ensures !k.keyQ && (k.enter || k.tap) ==> r == PlayAgainCode
    ensures !k.keyQ && !k.enter && !k.tap ==> r == finishScreen
    ensures r == PlayAgainCode ==> k.enter || k.tap || finishScreen == PlayAgainCode
  {
    var afterEnter := if k.enter || k.tap then PlayAgainCode else finishScreen;
    if k.keyQ then MainMenuCode else afterEnter
  }

  /** C's int division, which truncates toward zero (Dafny's is Euclidean). */
  function CDiv(a: int, b: int): int
    requires b > 0
  {
    if a >= 0 then a / b else -((-a) / b)
  }

  /** C's int remainder, whose sign follows the dividend. */
  function CRem(a: int, b: int): int
    requires b > 0
  {
    if a >= 0 then a % b else -((-a) % b)
  }

  /**
   * The minutes and seconds the screen shows for a time in seconds. For a
   * non-negative time the seconds are in [0, 60); the two parts always
   * recombine to the time.
   */
  function MinutesSeconds(time: int): (ms: (int, int))
    ensures ms.0 * 60 + ms.1 == time
    ensures time >= 0 ==> 0 <= ms.1 < 60 && 0 <= ms.0 <= time
    ensures time < 0 ==> -60 < ms.1 <= 0 && time <= ms.0 <= 0
  {
    (CDiv(time, 60), CRem(time, 60))
  }

  /** The ending screen's statics. */
  class EndingScreen {
    var framesCounter: int
    var finishScreen: int
    var highScorePoints: int
    var highScoreTime: int

    constructor ()
      ensures framesCounter == 0 && finishScreen == 0 && highScorePoints == 0 && highScoreTime == 0
    {
      framesCounter := 0;
      finishScreen := 0;
      highScorePoints := 0;
      highScoreTime := 0;
    }

    /** InitEndingScreen: reset the counters and load both best values from storage. */
    method Init(storage: Storage)
      modifies this
      ensures framesCounter == 0 && finishScreen == 0
      ensures highScorePoints == LoadStorageValue(storage, PointsSlot)
      ensures highScoreTime == LoadStorageValue(storage, TimeSlot)
    {
      framesCounter := 0;
      finishScreen := 0;
      highScorePoints := LoadStorageValue(storage, PointsSlot);
      highScoreTime := LoadStorageValue(storage, TimeSlot);
    }

    /** UpdateEndingScreen: the Enter check first, then the Q check. */
    method Update(k: EndingKeys)
      modifies this
      ensures finishScreen == EndingFinish(old(finishScreen), k)
      ensures framesCounter == old(framesCounter)
      ensures highScorePoints == old(highScorePoints) && highScoreTime == old(highScoreTime)
    {
      if k.enter || k.tap {
        finishScreen := PlayAgainCode;
      }

      if k.keyQ {
        finishScreen := MainMenuCode;
      }
    }
  }
}
