/**
 * The data model of the simulator: digital pin identifiers, pin levels, the
 * total pin table and the circuit state record held by the store.
 */
module Circuit {

  /** A digital pin of the board that a component may be wired to: 2 through 13. */
  type PinId = p: int | 2 <= p <= 13 witness 2

  /** The logical level of a digital pin. */
  datatype Level = High | Low

  /** Every valid pin identifier, as a set. */
  const AllPins: set<PinId> := set p: PinId | 2 <= p <= 13

  /** A table of pin levels with an entry for every valid pin. */
  type PinTable = t: map<PinId, Level> | forall p: PinId :: p in t
    witness map p | p in AllPins :: Low

  /** The three components the user can place on the canvas. */
  datatype Component = Arduino | Led | Pushbutton

  /** The two pin roles: the pin the LED is wired to and the pin the button is wired to. */
  datatype Role = LedPin | BtnPin

  /**
   * The state record of the circuit. The `isWired` field of the source record
   * is not part of this model: nothing in the store ever sets it.
   */
  datatype CircuitState = CircuitState(
    isUnoPlaced: bool,
    isLedPlaced: bool,
    isBtnPlaced: bool,
    ledPin: PinId,
    btnPin: PinId,
    isRunning: bool,
    pinLevels: PinTable,
    showCode: bool)

  /** The placement flag that belongs to component `kind`. */
  predicate Placed(s: CircuitState, kind: Component) {
    match kind
    case Arduino => s.isUnoPlaced
    case Led => s.isLedPlaced
    case Pushbutton => s.isBtnPlaced
  }

  /** All three components are on the canvas. */
  predicate AllPlaced(s: CircuitState)
    ensures AllPlaced(s) <==> forall kind :: Placed(s, kind)
  {
    assert Placed(s, Arduino) && Placed(s, Led) && Placed(s, Pushbutton) ==> forall kind :: Placed(s, kind);
    s.isUnoPlaced && s.isLedPlaced && s.isBtnPlaced
  }

  /** The other role: the LED's pin competes with the button's and vice versa. */
  function Other(role: Role): (o: Role)
    ensures o != role
  {
    match role
    case LedPin => BtnPin
    case BtnPin => LedPin
  }

  /** The pin assigned to `role`. */
  function PinOf(s: CircuitState, role: Role): PinId {
    match role
    case LedPin => s.ledPin
    case BtnPin => s.btnPin
  }

  /** Every pin of `t` reads LOW. */
  predicate IsAllLow(t: PinTable) {
    forall p: PinId :: t[p] == Low
  }

  /** The table the store starts from and returns to on stop and reset. */
  function AllLow(): (t: PinTable)
    ensures IsAllLow(t)
  {
    map p | p in AllPins :: Low
  }

  /**
   * The invariant every reachable state keeps: the two roles never share a
   * pin, and the simulation only runs with all three components placed.
   */
  predicate Valid(s: CircuitState) {
    s.ledPin != s.btnPin &&
    (s.isRunning ==> AllPlaced(s))
  }

  /** The valid pins are exactly the twelve integers 2..13. */
  lemma PinCount()
    ensures AllPins == {2, 3, 4, 5, 6, 7, 8, 9, 10, 11, 12, 13}
    ensures |AllPins| == 12
  {
  }
}
