/**
 * The circuit store: one long-lived object whose actions update its fields in
 * place. Every action keeps the invariant Valid() and leaves behind exactly
 * the state the matching function of StoreSpec gives.
 */
module Store {
  import opened Circuit
  import StoreSpec

  class CircuitStore {
    var isUnoPlaced: bool
    var isLedPlaced: bool
    var isBtnPlaced: bool
    var ledPin: PinId
    var btnPin: PinId
    var isRunning: bool
    var pinLevels: PinTable
    var showCode: bool

    /** The current contents of the store as a state record. */
    function Snapshot(): (s: CircuitState)
      reads this
      ensures s.ledPin == ledPin && s.btnPin == btnPin && s.pinLevels == pinLevels && s.isRunning == isRunning
    {
      CircuitState(isUnoPlaced, isLedPlaced, isBtnPlaced, ledPin, btnPin, isRunning, pinLevels, showCode)
    }

    ghost predicate Valid()
      reads this
    {
      Circuit.Valid(Snapshot())
    }

    /** Creates the store in its initial state. */
    constructor ()
      ensures Valid()
      ensures Snapshot() == StoreSpec.Initial()
    {
      isUnoPlaced, isLedPlaced, isBtnPlaced := false, false, false;
      ledPin, btnPin := 10, 2;
      isRunning := false;
      pinLevels := AllLow();
      showCode := false;
    }

    method PlaceComponent(kind: Component)
      requires Valid()
      modifies this
      ensures Valid()
      ensures Snapshot() == StoreSpec.PlaceComponent(old(Snapshot()), kind)
    {
      if kind == Arduino { isUnoPlaced := true; }
      if kind == Led { isLedPlaced := true; }
      if kind == Pushbutton { isBtnPlaced := true; }
    }

    method ResetCanvas()
      requires Valid()
      modifies this
      ensures Valid()
      ensures Snapshot() == StoreSpec.ResetCanvas(old(Snapshot()))
    {
      isUnoPlaced, isLedPlaced, isBtnPlaced := false, false, false;
      isRunning := false;
      pinLevels := AllLow();
    }

    /** Assigns `newPin` to `role`, refusing a pin the other role holds. */
    method SetPin(role: Role, newPin: PinId)
      requires Valid()
      modifies this
      ensures Valid()
      ensures Snapshot() == StoreSpec.SetPin(old(Snapshot()), role, newPin)
    {
      if role == LedPin && btnPin == newPin { return; }
      if role == BtnPin && ledPin == newPin { return; }
      if role == LedPin {
        ledPin := newPin;
      } else {
        btnPin := newPin;
      }
    }

    /** Starts or stops the run; only once all three components are placed. */
    method ToggleSimulation()
      requires Valid()
      modifies this
      ensures Valid()
      ensures Snapshot() == StoreSpec.ToggleSimulation(old(Snapshot()))
    {
      if !isUnoPlaced || !isLedPlaced || !isBtnPlaced { return; }
      if isRunning {
        isRunning := false;
        pinLevels := AllLow();
        return;
      }
      isRunning := true;
    }

    method ToggleCodeView()
      requires Valid()
      modifies this
      ensures Valid()
      ensures Snapshot() == StoreSpec.ToggleCodeView(old(Snapshot()))
    {
      showCode := !showCode;
    }

    method SetPinLevel(pin: PinId, level: Level)
      requires Valid()
      modifies this
      ensures Valid()
      ensures Snapshot() == StoreSpec.SetPinLevel(old(Snapshot()), pin, level)
    {
      pinLevels := pinLevels[pin := level];
    }
  }
}
