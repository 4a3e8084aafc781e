/**
 * The options screen: a volume selector with eleven steps (0 to 10) that
 * writes the program-wide volume level (a fraction in [0, 1]) every frame,
 * and Enter or a tap to leave.
 *
 * The program-wide float volumeLevel is an exact real here; applying it to
 * the music stream and the sounds is left out (audio).
 */
module Options {

  const MaxVolume := 10
  /** The value the screen hands the framework when it wants to leave (back to the main menu). */
  const LeaveCode := 1

  /** The keys and gestures the options screen reads in one frame. */
  datatype OptionsKeys = OptionsKeys(enter: bool, tap: bool, keyA: bool, keyLeft: bool, keyD: bool, keyRight: bool)

  predicate Confirm(k: OptionsKeys) { k.enter || k.tap }
  predicate Lower(k: OptionsKeys) { k.keyA || k.keyLeft }
  predicate Raise(k: OptionsKeys) { k.keyD || k.keyRight }

  /** The options screen's statics together with the program-wide volume level. */
  datatype OptionsState = OptionsState(framesCounter: int, finishScreen: int, selectedVolume: int, volumeLevel: real)

  predicate Invariant(s: OptionsState)
  {
    0 <= s.selectedVolume <= MaxVolume && 0.0 <= s.volumeLevel <= 1.0
  }

  /** A volume step as the fraction the audio device takes. */
  function VolumeFraction(step: int): (v: real)
    ensures 0 <= step <= MaxVolume ==> 0.0 <= v <= 1.0
    ensures step as real == v * 10.0
  {
    step as real / 10.0
  }

  /** C's conversion of a floating value to int: the fraction is dropped, toward zero. */
  function TruncateToInt(x: real): (n: int)
    ensures 0.0 <= x ==> 0 <= n && n as real <= x < n as real + 1.0
    ensures x < 0.0 ==> n <= 0 && n as real - 1.0 < x <= n as real
  {
    if x >= 0.0 then x.Floor else -((-x).Floor)
  }

  /** The step InitOptionsScreen derives from the current volume level. */
  function StepOfVolume(volumeLevel: real): (step: int)
    ensures 0.0 <= volumeLevel <= 1.0 ==> 0 <= step <= MaxVolume
    ensures 0.0 <= volumeLevel ==> VolumeFraction(step) <= volumeLevel < VolumeFraction(step + 1)
  {
    TruncateToInt(volumeLevel * 10.0)
  }

  /** Entering the screen again finds the step that was left: the level the screen writes reads back as that step. */
  lemma StepOfVolumeRoundTrip(step: int)
    requires 0 <= step <= MaxVolume
    ensures StepOfVolume(VolumeFraction(step)) == step
  {
  }

  /**
   * One UpdateOptionsScreen: Enter or a tap requests leaving; left lowers
   * and right raises the step, clamped to [0, 10] (both in one frame
   * cancel, except at 0); the volume level is then set from the step.
   */
  function OptionsStep(s: OptionsState, k: OptionsKeys): (r: OptionsState)
    ensures r.framesCounter == s.framesCounter
    ensures r.finishScreen == if Confirm(k) then LeaveCode else s.finishScreen
    ensures Lower(k) && !Raise(k) && s.selectedVolume > 0 ==> r.selectedVolume == s.selectedVolume - 1
    ensures Raise(k) && !Lower(k) && s.selectedVolume < MaxVolume ==> r.selectedVolume == s.selectedVolume + 1
    ensures Lower(k) && !Raise(k) && s.selectedVolume == 0 ==> r.selectedVolume == 0
    ensures Raise(k) && !Lower(k) && s.selectedVolume == MaxVolume ==> r.selectedVolume == MaxVolume
    ensures Lower(k) && Raise(k) && 0 < s.selectedVolume <= MaxVolume ==> r.selectedVolume == s.selectedVolume
    ensures Lower(k) && Raise(k) && s.selectedVolume == 0 ==> r.selectedVolume == 1
    ensures !Lower(k) && !Raise(k) ==> r.selectedVolume == s.selectedVolume
    ensures 0 <= s.selectedVolume <= MaxVolume ==> 0 <= r.selectedVolume <= MaxVolume
    ensures r.volumeLevel == VolumeFraction(r.selectedVolume)
    ensures Invariant(s) ==> Invariant(r)
  {
    var finish := if Confirm(k) then LeaveCode else s.finishScreen;
    var lowered := if Lower(k) && s.selectedVolume > 0 then s.selectedVolume - 1 else s.selectedVolume;
    var raised := if Raise(k) && lowered < MaxVolume then lowered + 1 else lowered;
    OptionsState(s.framesCounter, finish, raised, VolumeFraction(raised))
  }

  /** Any number of frames keeps the step in range and the volume level equal to it. */
  function RunOptions(s: OptionsState, frames: seq<OptionsKeys>): (r: OptionsState)
    requires Invariant(s)
    ensures Invariant(r)
    ensures frames != [] ==> r.volumeLevel == VolumeFraction(r.selectedVolume)
    ensures r.framesCounter == s.framesCounter
    decreases |frames|
  {
    if frames == [] then s else RunOptions(OptionsStep(s, frames[0]), frames[1..])
  }

  /**
   * Holding "lower" for at least as many frames as the current step brings
   * the volume to silence (and it stays there).
   */
  lemma {:induction false} LoweringReachesSilence(s: OptionsState, frames: seq<OptionsKeys>)
    requires Invariant(s)
    requires forall i :: 0 <= i < |frames| ==> Lower(frames[i]) && !Raise(frames[i])
    requires |frames| >= s.selectedVolume
    ensures RunOptions(s, frames).selectedVolume == 0
    decreases |frames|
  {
    if frames != [] {
      var next := OptionsStep(s, frames[0]);
      assert next.selectedVolume == if s.selectedVolume > 0 then s.selectedVolume - 1 else 0;
      LoweringReachesSilence(next, frames[1..]);
    }
  }

  /** The options screen's statics, plus the program-wide volume level it reads and writes. */
  class OptionsScreen {
    var framesCounter: int
    var finishScreen: int
    var selectedVolume: int
    var volumeLevel: real

    function State(): OptionsState
      reads this
    {
      OptionsState(framesCounter, finishScreen, selectedVolume, volumeLevel)
    }

    ghost predicate Valid()
      reads this
    {
      Invariant(State())
    }

    /** The statics before the first InitOptionsScreen; the volume level is whatever the program started with. */
    constructor (initialVolumeLevel: real)
      requires 0.0 <= initialVolumeLevel <= 1.0
      ensures Valid()
      ensures State() == OptionsState(0, 0, 0, initialVolumeLevel)
    {
      framesCounter := 0;
      finishScreen := 0;
      selectedVolume := 0;
      volumeLevel := initialVolumeLevel;
    }

    /** InitOptionsScreen: reset the counters and take the step from the current volume level. */
    method Init()
      requires Valid()
      modifies this
      ensures Valid()
      ensures State() == OptionsState(0, 0, StepOfVolume(old(volumeLevel)), old(volumeLevel))
    {
      framesCounter := 0;
      finishScreen := 0;
      selectedVolume := TruncateToInt(volumeLevel * 10.0);
    }

    /** UpdateOptionsScreen, in the screen's own order of updates. */
    method Update(k: OptionsKeys)
      requires Valid()
      modifies this
      ensures Valid()
      ensures State() == OptionsStep(old(State()), k)
    {
      if k.enter || k.tap {
        finishScreen := LeaveCode;
      }

      if k.keyA || k.keyLeft {
        if selectedVolume > 0 {
          selectedVolume := selectedVolume - 1;
        }
      }

      if k.keyD || k.keyRight {
        if selectedVolume < MaxVolume {
          selectedVolume := selectedVolume + 1;
        }
      }

      volumeLevel := selectedVolume as real / 10.0;
    }
  }
}
