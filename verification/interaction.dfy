/**
 * Button press and release on the canvas. The listeners exist only while the
 * button is placed; a press drives the button's pin HIGH and a release drives
 * it LOW. Neither touches the LED pin: the tick does that.
 */
module Interaction {
  import opened Circuit
  import StoreSpec
  import opened Store
  import SimulationLoop

  /** The state a press leaves behind. */
  function Pressed(s: CircuitState): (r: CircuitState)
    ensures s.isBtnPlaced ==> r.pinLevels[s.btnPin] == High
    ensures !s.isBtnPlaced ==> r == s
    ensures forall p: PinId :: p != s.btnPin ==> r.pinLevels[p] == s.pinLevels[p]
    ensures r == s.(pinLevels := r.pinLevels)
    ensures Valid(s) ==> Valid(r)
  {
    if s.isBtnPlaced then StoreSpec.SetPinLevel(s, s.btnPin, High) else s
  }

  /** The state a release leaves behind. */
  function Released(s: CircuitState): (r: CircuitState)
    ensures s.isBtnPlaced ==> r.pinLevels[s.btnPin] == Low
    ensures !s.isBtnPlaced ==> r == s
    ensures forall p: PinId :: p != s.btnPin ==> r.pinLevels[p] == s.pinLevels[p]
    ensures r == s.(pinLevels := r.pinLevels)
    ensures Valid(s) ==> Valid(r)
  {
    if s.isBtnPlaced then StoreSpec.SetPinLevel(s, s.btnPin, Low) else s
  }

  /** Releasing twice, or releasing without a press, is the same as releasing once. */
  lemma ReleaseIdempotent(s: CircuitState)
    ensures Released(Released(s)) == Released(s)
  {
  }

  /** While running, a press followed by one timer firing lights the LED. */
  lemma PressLightsLed(s: CircuitState)
    requires Valid(s) && s.isRunning
    ensures SimulationLoop.Fire(Pressed(s)).pinLevels[s.ledPin] == High
  {
  }

  /** While running, a release followed by one timer firing darkens the LED. */
  lemma ReleaseDarkensLed(s: CircuitState)
    requires Valid(s) && s.isRunning
    ensures SimulationLoop.Fire(Released(s)).pinLevels[s.ledPin] == Low
  {
  }

  method Press(store: CircuitStore)
    requires store.Valid()
    modifies store
    ensures store.Valid()
    ensures store.Snapshot() == Pressed(old(store.Snapshot()))
  {
    if store.isBtnPlaced {
      store.SetPinLevel(store.btnPin, High);
    }
  }

  method Release(store: CircuitStore)
    requires store.Valid()
    modifies store
    ensures store.Valid()
    ensures store.Snapshot() == Released(old(store.Snapshot()))
  {
    if store.isBtnPlaced {
      store.SetPinLevel(store.btnPin, Low);
    }
  }
}
