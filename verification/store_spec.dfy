/**
 * The actions of the circuit store as pure state transitions. Each function
 * gives the state an action leaves behind; the class in module Store is
 * proved to update its fields exactly as these functions say, and the lemmas
 * here state what the actions promise.
 */
module StoreSpec {
  import opened Circuit

  /** The state the store is created with: nothing placed, LED on pin 10, button on pin 2, all pins LOW. */
  function Initial(): (s: CircuitState)
    ensures Valid(s)
    ensures forall kind :: !Placed(s, kind)
    ensures IsAllLow(s.pinLevels)
  {
    CircuitState(
      isUnoPlaced := false, isLedPlaced := false, isBtnPlaced := false,
      ledPin := 10, btnPin := 2,
      isRunning := false, pinLevels := AllLow(),
      showCode := false)
  }

  /** Puts component `kind` on the canvas: its flag becomes true and nothing else changes. */
  function PlaceComponent(s: CircuitState, kind: Component): (r: CircuitState)
    ensures Placed(r, kind)
    ensures forall other :: other != kind ==> Placed(r, other) == Placed(s, other)
    ensures r == s.(isUnoPlaced := r.isUnoPlaced, isLedPlaced := r.isLedPlaced, isBtnPlaced := r.isBtnPlaced)
    ensures Valid(s) ==> Valid(r)
  {
    match kind
    case Arduino => s.(isUnoPlaced := true)
    case Led => s.(isLedPlaced := true)
    case Pushbutton => s.(isBtnPlaced := true)
  }

  /**
   * Clears the canvas: no component placed, simulation stopped, every pin LOW.
   * The pin assignment and the code view are kept.
   */
  function ResetCanvas(s: CircuitState): (r: CircuitState)
    ensures forall kind :: !Placed(r, kind)
    ensures !r.isRunning && IsAllLow(r.pinLevels)
    ensures r.ledPin == s.ledPin && r.btnPin == s.btnPin && r.showCode == s.showCode
    ensures Valid(s) ==> Valid(r)
  {
    s.(isUnoPlaced := false, isLedPlaced := false, isBtnPlaced := false,
       isRunning := false, pinLevels := AllLow())
  }

  /**
   * Assigns `newPin` to `role`. An assignment to the pin the other role
   * already holds is rejected and leaves the state unchanged; otherwise only
   * the chosen role's pin changes.
   */
  function SetPin(s: CircuitState, role: Role, newPin: PinId): (r: CircuitState)
    ensures newPin == PinOf(s, Other(role)) ==> r == s
    ensures newPin != PinOf(s, Other(role)) ==>
      PinOf(r, role) == newPin && PinOf(r, Other(role)) == PinOf(s, Other(role))
    ensures r == s.(ledPin := r.ledPin, btnPin := r.btnPin)
    ensures Valid(s) ==> Valid(r)
  {
    if role == LedPin && s.btnPin == newPin then s
    else if role == BtnPin && s.ledPin == newPin then s
    else if role == LedPin then s.(ledPin := newPin)
    else s.(btnPin := newPin)
  }

  /**
   * Starts or stops the simulation. Nothing happens unless all three
   * components are placed; a stop drives every pin LOW, a start keeps the
   * pin levels as they are.
   */
  function ToggleSimulation(s: CircuitState): (r: CircuitState)
    ensures !AllPlaced(s) ==> r == s
    ensures AllPlaced(s) ==> r.isRunning == !s.isRunning
    ensures AllPlaced(s) && s.isRunning ==> IsAllLow(r.pinLevels)
    ensures AllPlaced(s) && !s.isRunning ==> r.pinLevels == s.pinLevels
    ensures r == s.(isRunning := r.isRunning, pinLevels := r.pinLevels)
    ensures Valid(s) ==> Valid(r)
  {
    if !s.isUnoPlaced || !s.isLedPlaced || !s.isBtnPlaced then s
    else if s.isRunning then s.(isRunning := false, pinLevels := AllLow())
    else s.(isRunning := true)
  }

  /** Shows or hides the generated code listing; only `showCode` changes. */
  function ToggleCodeView(s: CircuitState): (r: CircuitState)
    ensures r.showCode != s.showCode
    ensures r == s.(showCode := r.showCode)
    ensures Valid(s) ==> Valid(r)
  {
    s.(showCode := !s.showCode)
  }

  /** Drives pin `pin` to `level`; every other pin and every other field is unchanged. */
  function SetPinLevel(s: CircuitState, pin: PinId, level: Level): (r: CircuitState)
    ensures r.pinLevels[pin] == level
    ensures forall p: PinId :: p != pin ==> r.pinLevels[p] == s.pinLevels[p]
    ensures r == s.(pinLevels := r.pinLevels)
    ensures Valid(s) ==> Valid(r)
  {
    s.(pinLevels := s.pinLevels[pin := level])
  }

  /** Placing a component that is already placed changes nothing. */
  lemma PlaceIdempotent(s: CircuitState, kind: Component)
    ensures PlaceComponent(PlaceComponent(s, kind), kind) == PlaceComponent(s, kind)
  {
  }

  /** Placing the three components in any order gives the same state. */
  lemma PlaceCommutes(s: CircuitState, a: Component, b: Component)
    ensures PlaceComponent(PlaceComponent(s, a), b) == PlaceComponent(PlaceComponent(s, b), a)
  {
  }

  /**
   * Assigning the same pin to the LED and then to the button never makes the
   * two roles share a pin, whatever the pin.
   */
  lemma SamePinTwiceNeverShared(s: CircuitState, pin: PinId)
    requires Valid(s)
    ensures var r := SetPin(SetPin(s, LedPin, pin), BtnPin, pin); r.ledPin != r.btnPin
  {
  }

  /** In a reachable state a toggle while running always stops the run and clears every pin. */
  lemma StopClearsPins(s: CircuitState)
    requires Valid(s) && s.isRunning
    ensures var r := ToggleSimulation(s); !r.isRunning && IsAllLow(r.pinLevels)
  {
  }

  /** Starting and then stopping ends stopped, with every pin LOW and the configuration as it was. */
  lemma StartThenStop(s: CircuitState)
    requires AllPlaced(s) && !s.isRunning
    ensures var r := ToggleSimulation(ToggleSimulation(s));
      !r.isRunning && IsAllLow(r.pinLevels) &&
      r == s.(pinLevels := r.pinLevels)
  {
  }

  /** After a reset the simulation cannot start until the components are placed again. */
  lemma ResetBlocksStart(s: CircuitState)
    ensures var r := ResetCanvas(s); ToggleSimulation(r) == r
  {
  }

  /** Toggling the code view twice restores the state. */
  lemma ToggleCodeViewTwice(s: CircuitState)
    ensures ToggleCodeView(ToggleCodeView(s)) == s
  {
  }

  /** Writing the level a pin already has, or writing the same level twice, changes nothing more. */
  lemma SetPinLevelIdempotent(s: CircuitState, pin: PinId, level: Level)
    ensures SetPinLevel(SetPinLevel(s, pin, level), pin, level) == SetPinLevel(s, pin, level)
    ensures s.pinLevels[pin] == level ==> SetPinLevel(s, pin, level) == s
  {
  }
}
