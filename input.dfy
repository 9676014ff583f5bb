/** The winit input types the application reacts to. Only the key codes the
    renderer inspects are named; every other physical key is `OtherKey`. */
module Input {
  import opened Types

  datatype KeyCode = Escape | KeyW | KeyA | KeyS | KeyD | ShiftLeft | OtherKey(code: nat)

  /** A physical key is either a known key code or an unidentified native code. */
  datatype PhysicalKey = Code(code: KeyCode) | Unidentified(native: nat)

  datatype ElementState = Pressed | Released

  datatype KeyEvent = KeyEvent(physicalKey: PhysicalKey, state: ElementState)

  datatype MouseButton = Left | Right | Middle | Back | Forward | OtherButton(id: nat)

  /** The window events `App::window_event` distinguishes; the rest are `OtherWindowEvent`.
      Sizes are physical pixels (`u32`), positions are f64 values modelled as reals. */
  datatype WindowEvent =
    | Resized(width: U32, height: U32)
    | RedrawRequested
    | CloseRequested
    | CursorMoved(x: real, y: real)
    | MouseInput(state: ElementState, button: MouseButton)
    | KeyboardInput(event: KeyEvent, isSynthetic: bool)
    | OtherWindowEvent

  datatype DeviceEvent = MouseMotion(dx: real, dy: real) | OtherDeviceEvent
}
