/**
 * The recording overlay's level meter (WaveformView.swift): a window of the most
 * recent audio levels that shifts left as levels arrive, and the bar height each
 * level is drawn with.
 */
module Waveform {

  /** The number of bars drawn. */
  const BarCount: nat := 12

  /** The height of a bar with level 0, and of a bar past the end of the window. */
  const MinHeight: real := 4.0

  /** The window after `updateLevels(newLevel)`: drop the oldest level and append the new one, or restart from `[newLevel]` when at most one level was held. */
  function Shifted(levels: seq<real>, newLevel: real): (window: seq<real>)
    ensures |window| == if |levels| > 1 then |levels| else 1
    ensures window[|window| - 1] == newLevel
  {
    if |levels| > 1 then levels[1..] + [newLevel] else [newLevel]
  }

  /** `barHeight(for:in:)` on the window `levels`. */
  function BarHeight(levels: seq<real>, index: nat, maxHeight: real): (h: real)
    ensures index >= |levels| ==> h == MinHeight
    ensures index < |levels| && 0.0 <= levels[index] <= 1.0 && maxHeight >= MinHeight ==> MinHeight <= h <= maxHeight
    ensures index < |levels| && maxHeight > MinHeight ==> (h == MinHeight <==> levels[index] == 0.0)
    ensures index < |levels| && maxHeight > MinHeight ==> (h == maxHeight <==> levels[index] == 1.0)
  {
    if index >= |levels| then MinHeight
    else
      var level, range := levels[index], maxHeight - MinHeight;
      assert range > 0.0 ==> (level * range == range <==> level == 1.0) by {
        if range > 0.0 && level * range == range {
          assert (level - 1.0) * range == 0.0;
        }
      }
      MinHeight + level * range
  }

  /** A window of more than one level keeps its length; the new level is last and the others move one place left. */
  lemma ShiftedSlides(levels: seq<real>, newLevel: real)
    requires |levels| > 1
    ensures |Shifted(levels, newLevel)| == |levels|
    ensures Shifted(levels, newLevel)[|levels| - 1] == newLevel
    ensures forall i :: 0 <= i < |levels| - 1 ==> Shifted(levels, newLevel)[i] == levels[i + 1]
  {
  }

  /** A window of at most one level becomes exactly the new level. */
  lemma ShiftedRestarts(levels: seq<real>, newLevel: real)
    requires |levels| <= 1
    ensures Shifted(levels, newLevel) == [newLevel]
  {
  }

  /** The window after `updateLevels` has been called with each of `news`, in order. */
  function ShiftedAll(levels: seq<real>, news: seq<real>): seq<real>
  {
    if news == [] then levels else Shifted(ShiftedAll(levels, news[..|news| - 1]), news[|news| - 1])
  }

  /** A window of more than one level, after a run of updates, holds the most recent levels of all: the old ones it still has room for, then the updates. */
  lemma {:induction false} ShiftedAllWindow(levels: seq<real>, news: seq<real>)
    requires |levels| > 1
    ensures ShiftedAll(levels, news) == (levels + news)[|news|..]
  {
    if news != [] {
      var init, last := news[..|news| - 1], news[|news| - 1];
      ShiftedAllWindow(levels, init);
      var window := (levels + init)[|init|..];
      assert |window| == |levels| > 1;
      assert ShiftedAll(levels, news) == window[1..] + [last];
      assert levels + news == (levels + init) + [last];
    }
  }

  /** Levels in [0, 1] stay in [0, 1] after an update with a level in [0, 1]. */
  lemma ShiftedKeepsRange(levels: seq<real>, newLevel: real)
    requires forall i :: 0 <= i < |levels| ==> 0.0 <= levels[i] <= 1.0
    requires 0.0 <= newLevel <= 1.0
    ensures forall i :: 0 <= i < |Shifted(levels, newLevel)| ==> 0.0 <= Shifted(levels, newLevel)[i] <= 1.0
  {
  }

  /**
   * The view's state: the level its parent passes in (a new `WaveformView`
   * value each time, while the `@State` window persists) and the window of
   * animated levels.
   */
  class WaveformView {
    var level: real
    var animatedLevels: seq<real>

    constructor (level: real)
      ensures this.level == level && animatedLevels == []
    {
      this.level := level;
      animatedLevels := [];
    }

    /** `onAppear`: the window becomes `barCount` zeros. */
    method OnAppear()
      modifies this`animatedLevels
      ensures animatedLevels == seq(BarCount, _ => 0.0)
      ensures |animatedLevels| == BarCount
    {
      animatedLevels := seq(BarCount, _ => 0.0);
    }

    /** `updateLevels`, run by `onChange(of: level)`. */
    method UpdateLevels(newLevel: real)
      modifies this`animatedLevels
      ensures animatedLevels == Shifted(old(animatedLevels), newLevel)
    {
      var newLevels := animatedLevels;
      if |newLevels| > 1 {
        newLevels := newLevels[1..];
        newLevels := newLevels + [newLevel];
      } else {
        newLevels := [newLevel];
      }
      animatedLevels := newLevels;
    }

    /** The parent passes `newLevel`; `onChange(of: level)` runs `updateLevels` only when the level differs. */
    method LevelChanged(newLevel: real)
      modifies this
      ensures level == newLevel
      ensures animatedLevels == if newLevel != old(level) then Shifted(old(animatedLevels), newLevel) else old(animatedLevels)
    {
      var oldLevel := level;
      level := newLevel;
      if newLevel != oldLevel {
        UpdateLevels(newLevel);
      }
    }

    /** `barHeight(for:in:)` on the current window. */
    function Height(index: nat, maxHeight: real): real
      reads this
    {
      BarHeight(animatedLevels, index, maxHeight)
    }
  }

  /**
   * A view shown at level 0: after `onAppear` every bar is drawn at the minimum
   * height; when the parent then passes `newLevel`, the window keeps twelve
   * levels and ends with it, and a `newLevel` of 0 changes nothing.
   */
  method AppearThenUpdate(maxHeight: real, newLevel: real) returns (v: WaveformView)
    ensures fresh(v) && v.level == newLevel
    ensures |v.animatedLevels| == BarCount && v.animatedLevels[BarCount - 1] == newLevel
    ensures forall i: nat :: i < BarCount - 1 ==> v.Height(i, maxHeight) == MinHeight
    ensures newLevel == 0.0 ==> v.animatedLevels == seq(BarCount, _ => 0.0)
  {
    v := new WaveformView(0.0);
    v.OnAppear();
    assert forall i: nat :: i < BarCount ==> v.Height(i, maxHeight) == MinHeight;
    v.LevelChanged(newLevel);
    ShiftedSlides(seq(BarCount, _ => 0.0), newLevel);
  }
}
