/** The keyboard callback: a table of 1024 pressed/released flags indexed by
    key code, and the window's close request raised by Escape. */
module Keyboard {

  const KeyCount: nat := 1024

  /** Action codes the windowing library reports with a key event. */
  const ActionRelease: int := 0
  const ActionPress: int := 1

  /** Key code of Escape in the windowing library. */
  const KeyEscape: int := 256

  type Keys = s: seq<bool> | |s| == KeyCount witness seq(KeyCount, _ => false)

  /** Every key released, as the zero-initialised table starts out. */
  const AllReleased: Keys := seq(KeyCount, _ => false)

  datatype InputState = InputState(keys: Keys, closeRequested: bool)

  /** One key event as delivered to the callback. The scancode and modifier
      bits are not used and not modelled. */
  datatype KeyEvent = KeyEvent(key: int, action: int)

  /** Records one key event: a press sets the key's flag, a release clears
      it, anything else (a repeat) leaves it; keys outside the table are
      ignored. A press of Escape also asks the window to close. */
  function KeyboardCallback(inp: InputState, key: int, action: int): (r: InputState)
    ensures r.closeRequested <==> inp.closeRequested || (key == KeyEscape && action == ActionPress)
    ensures forall k :: 0 <= k < KeyCount && k != key ==> r.keys[k] == inp.keys[k]
    ensures !(0 <= key < KeyCount) ==> r.keys == inp.keys
    ensures action != ActionPress && action != ActionRelease ==> r.keys == inp.keys
    ensures 0 <= key < KeyCount && action == ActionPress ==> r.keys[key]
    ensures 0 <= key < KeyCount && action == ActionRelease ==> !r.keys[key]
  {
    var close := inp.closeRequested || (key == KeyEscape && action == ActionPress);
    var keys :=
      if 0 <= key < KeyCount then
        if action == ActionPress then inp.keys[key := true]
        else if action == ActionRelease then inp.keys[key := false]
        else inp.keys
      else inp.keys;
    InputState(keys, close)
  }

  /** Pressing and then releasing a key that was up leaves the table as it
      was. */
  lemma PressThenRelease(inp: InputState, key: int)
    requires 0 <= key < KeyCount && !inp.keys[key]
    ensures KeyboardCallback(KeyboardCallback(inp, key, ActionPress), key, ActionRelease).keys == inp.keys
  {
    var r := KeyboardCallback(KeyboardCallback(inp, key, ActionPress), key, ActionRelease);
    assert forall k :: 0 <= k < KeyCount ==> r.keys[k] == inp.keys[k];
  }

  /** A second press (or release) of the same key changes nothing more. */
  lemma CallbackIdempotent(inp: InputState, key: int, action: int)
    ensures var once := KeyboardCallback(inp, key, action);
            KeyboardCallback(once, key, action) == once
  {
  }

  /** The events the window delivers between two frames, applied in order. */
  function ApplyEvents(inp: InputState, events: seq<KeyEvent>): (r: InputState)
    ensures inp.closeRequested ==> r.closeRequested
    ensures forall k :: 0 <= k < KeyCount && (forall e :: e in events ==> e.key != k) ==> r.keys[k] == inp.keys[k]
    decreases |events|
  {
    if |events| == 0 then inp
    else ApplyEvents(KeyboardCallback(inp, events[0].key, events[0].action), events[1..])
  }
}
