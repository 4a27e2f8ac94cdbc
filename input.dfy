/** The player's input as the game's systems see it each frame. */
module Input {

  /** The keys the systems read (Bevy's KeyCode, restricted to those used). */
  datatype KeyCode =
    | ArrowUp | ArrowDown | ArrowLeft | ArrowRight
    | KeyW | KeyA | KeyS | KeyD
    | KeyT | KeyG

  /** ButtonInput<KeyCode>::pressed: the set of keys held this frame. */
  type HeldKeys = set<KeyCode>

  /** A logical action is held when either of its two key bindings is. */
  predicate EitherHeld(pressed: HeldKeys, arrow: KeyCode, letter: KeyCode) {
    arrow in pressed || letter in pressed
  }

  predicate AccelerateHeld(pressed: HeldKeys) { EitherHeld(pressed, ArrowUp, KeyW) }
  predicate BrakeHeld(pressed: HeldKeys) { EitherHeld(pressed, ArrowDown, KeyS) }
  predicate LeftHeld(pressed: HeldKeys) { EitherHeld(pressed, ArrowLeft, KeyA) }
  predicate RightHeld(pressed: HeldKeys) { EitherHeld(pressed, ArrowRight, KeyD) }

  /** One frame as a system sees it: the keys held and Time::delta_secs. */
  datatype Frame = Frame(pressed: HeldKeys, dt: real)

  /** Bevy's UI Interaction state of a button whose interaction changed. */
  datatype Interaction = Pressed | Hovered | None

  /** How many of the changed interactions of one button are presses. */
  function CountPressed(changes: seq<Interaction>): (n: nat)
    ensures n <= |changes|
    ensures n == 0 <==> Pressed !in changes
  {
    if changes == [] then 0
    else (if changes[0] == Pressed then 1 else 0) + CountPressed(changes[1..])
  }

  /** The presses of two runs of interactions add up. */
  lemma {:induction false} CountPressedConcat(a: seq<Interaction>, b: seq<Interaction>)
    ensures CountPressed(a + b) == CountPressed(a) + CountPressed(b)
  {
    if a != [] {
      assert (a + b)[1..] == a[1..] + b;
      CountPressedConcat(a[1..], b);
    } else {
      assert a + b == b;
    }
  }

  lemma {:induction false} CountPressedAppend(changes: seq<Interaction>, i: Interaction)
    ensures CountPressed(changes + [i]) == CountPressed(changes) + (if i == Pressed then 1 else 0)
  {
    if changes != [] {
      assert (changes + [i])[1..] == changes[1..] + [i];
      CountPressedAppend(changes[1..], i);
    }
  }
}
