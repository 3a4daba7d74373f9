/**
 * The firmware tick: while the simulation runs, a timer reads the button
 * pin's level and copies it to the LED pin, writing only when the LED level
 * differs. Pins and levels are read from the store on every tick.
 */
module SimulationLoop {
  import opened Circuit
  import StoreSpec
  import opened Store

  /** The fixed firmware logic: the LED shows HIGH exactly when the button reads HIGH. */
  function TargetLevel(btnState: Level): (target: Level)
    ensures target == btnState
  {
    if btnState == High then High else assert btnState.Low?; Low
  }

  /** One tick applied to a state: the LED pin takes the button pin's level. */
  function Step(s: CircuitState): (r: CircuitState)
    ensures r.pinLevels[s.ledPin] == s.pinLevels[s.btnPin]
    ensures forall p: PinId :: p != s.ledPin ==> r.pinLevels[p] == s.pinLevels[p]
    ensures s.pinLevels[s.ledPin] == s.pinLevels[s.btnPin] ==> r == s
    ensures r == s.(pinLevels := r.pinLevels)
    ensures Valid(s) ==> Valid(r)
  {
    var target := TargetLevel(s.pinLevels[s.btnPin]);
    if s.pinLevels[s.ledPin] != target then StoreSpec.SetPinLevel(s, s.ledPin, target) else s
  }

  /** One firing of the interval timer: a tick while running, nothing while stopped. */
  function Fire(s: CircuitState): (r: CircuitState)
    ensures !s.isRunning ==> r == s
    ensures s.isRunning ==> r.pinLevels[s.ledPin] == s.pinLevels[s.btnPin]
    ensures forall p: PinId :: p != s.ledPin ==> r.pinLevels[p] == s.pinLevels[p]
    ensures r == s.(pinLevels := r.pinLevels)
    ensures Valid(s) ==> Valid(r)
  {
    if s.isRunning then Step(s) else s
  }

  /** `n` timer firings in a row with no other action in between. */
  function Fires(s: CircuitState, n: nat): CircuitState
    decreases n
  {
    if n == 0 then s else Fires(Fire(s), n - 1)
  }

  /** A second tick right after a first finds the LED already right and changes nothing. */
  lemma StepIdempotent(s: CircuitState)
    ensures Step(Step(s)) == Step(s)
  {
  }

  /** The same for timer firings. */
  lemma FireIdempotent(s: CircuitState)
    ensures Fire(Fire(s)) == Fire(s)
  {
  }

  /** Any positive number of firings with no input in between leaves the state one firing leaves. */
  lemma {:induction false} FiresSettle(s: CircuitState, n: nat)
    requires n >= 1
    ensures Fires(s, n) == Fire(s)
    decreases n
  {
    if n > 1 {
      FiresSettle(Fire(s), n - 1);
      FireIdempotent(s);
    }
  }

  /** While stopped, no number of timer firings changes anything. */
  lemma {:induction false} StoppedFiresNothing(s: CircuitState, n: nat)
    requires !s.isRunning
    ensures Fires(s, n) == s
    decreases n
  {
    if n > 0 {
      StoppedFiresNothing(s, n - 1);
    }
  }

  /**
   * The tick reads the pin assignment afresh: after the LED is moved to a new
   * pin while running, the next tick drives the new pin, not the old one.
   */
  lemma TickFollowsReassignment(s: CircuitState, newPin: PinId)
    requires Valid(s) && s.isRunning && newPin != s.btnPin
    ensures Fire(StoreSpec.SetPin(s, LedPin, newPin)).pinLevels[newPin] == s.pinLevels[s.btnPin]
  {
  }

  /**
   * The tick body run against the store: reads the button level and writes
   * the LED pin only when it differs. `wrote` reports whether a write happened.
   */
  method Tick(store: CircuitStore) returns (wrote: bool)
    requires store.Valid()
    modifies store
    ensures store.Valid()
    ensures store.Snapshot() == Step(old(store.Snapshot()))
    ensures wrote <==> old(store.pinLevels[store.ledPin] != store.pinLevels[store.btnPin])
  {
    var btnPin, ledPin, pinLevels := store.btnPin, store.ledPin, store.pinLevels;
    var btnState := pinLevels[btnPin];
    var targetLedState := TargetLevel(btnState);
    wrote := pinLevels[ledPin] != targetLedState;
    if wrote {
      store.SetPinLevel(ledPin, targetLedState);
    }
  }

  /** One firing of the interval timer, which exists only while the store is running. */
  method OnInterval(store: CircuitStore)
    requires store.Valid()
    modifies store
    ensures store.Valid()
    ensures store.Snapshot() == Fire(old(store.Snapshot()))
  {
    if store.isRunning {
      var _ := Tick(store);
    }
  }
}
