/**
 * gmae/loop_state.py: the per-iteration key snapshot of the main loop.
 */
module KeyState {
  import Utils

  /** GLFW key states as `glfw.get_key` reports them. */
  const Release: int := 0
  const Press: int := 1
  const Repeat: int := 2

  /** `glfw.KEY_F5`. */
  const KeyF5: int := 294

  /** `key_pressed`: a key counts as pressed only in the PRESS state. */
  function KeyPressed(state: int): (r: bool)
    ensures r <==> state == Press
  {
    state == Press
  }

  /** `LoopState`: whether F5 is held and whether a compile is running. */
  datatype LoopState = LoopState(f5Pressed: bool, compiling: bool)

  /** `LoopState()` with its field defaults. */
  function DefaultLoopState(): (s: LoopState)
    ensures !s.f5Pressed
    ensures !s.compiling
  {
    LoopState(false, false)
  }

  /**
   * `LoopState.read(processor)`: `keyState` is `glfw.get_key` on the
   * processor's window and `info` is `processor.info`.
   */
  function Read(keyState: int -> int, info: Utils.TitleInfo): (s: LoopState)
    reads info
    ensures s.f5Pressed <==> keyState(KeyF5) == Press
    ensures s.compiling == info.isCompiling
  {
    LoopState(KeyPressed(keyState(KeyF5)), info.isCompiling)
  }
}
