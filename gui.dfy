/** Core/Helpers/GuiHelpers.cs: a counter of open GUI layers that decides
    whether the mouse cursor is free (GUI mode) or captured by the camera. */
module Gui {
  import opened Raylib

  /** The static `_isGuiMode` counter. */
  class GuiMode {
    var counter: int

    ghost predicate Valid()
      reads this
    {
      counter >= 0
    }

    constructor ()
      ensures Valid() && counter == 0 && !IsGuiMode()
    {
      counter := 0;
    }

    /** IsGuiMode: some GUI layer is open. */
    function IsGuiMode(): bool
      reads this
    {
      counter > 0
    }

    /** SetGuiMode: opening a layer counts up, closing counts down but never below 0;
        afterwards the cursor is enabled exactly in GUI mode. */
    method SetGuiMode(state: bool, dev: Device)
      requires Valid()
      modifies this, dev
      ensures Valid() && counter == NextCounter(old(counter), state)
      ensures dev.calls == old(dev.calls) + [CursorCall(counter)]
      ensures dev.state.cursorEnabled == IsGuiMode()
      ensures dev.Env() == old(dev.Env()) && dev.nextHandle == old(dev.nextHandle)
    {
      if state {
        counter := counter + 1;
      } else {
        counter := counter - 1;
        if counter < 0 {
          counter := 0;
        }
      }
      StepCursor(dev.state);
      if IsGuiMode() {
        dev.Issue(EnableCursor);
      } else {
        dev.Issue(DisableCursor);
      }
    }
  }

  /** The counter after one SetGuiMode call. */
  function NextCounter(counter: int, state: bool): int {
    if state then counter + 1 else if counter - 1 < 0 then 0 else counter - 1
  }

  /** The cursor call SetGuiMode ends with. */
  function CursorCall(counter: int): GpuCall {
    if counter > 0 then EnableCursor else DisableCursor
  }

  /** The counter stays non-negative; opening adds exactly one; closing removes one with a floor at 0. */
  lemma CounterRules(counter: int, state: bool)
    requires counter >= 0
    ensures NextCounter(counter, state) >= 0
    ensures state ==> NextCounter(counter, state) == counter + 1
    ensures !state ==> NextCounter(counter, state) == if counter == 0 then 0 else counter - 1
  {
  }

  /** The counter after a run of SetGuiMode calls. */
  function CounterAfter(counter: int, states: seq<bool>): int
    decreases |states|
  {
    if states == [] then counter else CounterAfter(NextCounter(counter, states[0]), states[1..])
  }

  /** Because of the floor, the counter never drops below 0 and is at least the number of
      opens minus the number of closes: a surplus of closes cannot hide a later open. */
  lemma {:induction false} CounterAfterBounds(counter: int, states: seq<bool>)
    requires counter >= 0
    ensures CounterAfter(counter, states) >= 0
    ensures CounterAfter(counter, states) >= counter + Opens(states) - (|states| - Opens(states))
    ensures CounterAfter(counter, states) <= counter + Opens(states)
    decreases |states|
  {
    if states != [] {
      CounterAfterBounds(NextCounter(counter, states[0]), states[1..]);
      assert states == [states[0]] + states[1..];
    }
  }

  function Opens(states: seq<bool>): (n: nat)
    ensures n <= |states|
  {
    if states == [] then 0 else (if states[0] then 1 else 0) + Opens(states[1..])
  }
}
