/** The controller's pin table, shared by the host driver and both device
    simulators: eight dual-channel signals, each a pair of booleans for the
    redundant channels A and B. */
module Pins {

  datatype Option<T> = None | Some(value: T)

  /** The two redundant channels of every safety signal. */
  datatype Channel = A | B

  function Other(c: Channel): (r: Channel)
    ensures r != c
  {
    match c
    case A => B
    case B => A
  }

  /** One dual-channel signal, as the source's `(bool, bool)` tuple. */
  datatype Pair = Pair(a: bool, b: bool) {

    function Get(c: Channel): bool {
      match c
      case A => a
      case B => b
    }

    /** The pair with channel `c` replaced and the other channel kept. */
    function With(c: Channel, v: bool): (r: Pair)
      ensures r.Get(c) == v && r.Get(Other(c)) == Get(Other(c))
    {
      match c
      case A => Pair(v, b)
      case B => Pair(a, v)
    }
  }

  /** The eight signal names, the keys of the source's pin-state dictionary. */
  datatype Field = Mode1 | Mode2 | EStop | Interlock | Stop | Teach | Heartbeat | Power

  /** Dictionary order of the keys; also the bit order of the status frame. */
  const FieldOrder: seq<Field> := [Mode1, Mode2, EStop, Interlock, Stop, Teach, Heartbeat, Power]

  datatype PinBank = PinBank(
    mode1: Pair,
    mode2: Pair,
    estop: Pair,
    interlock: Pair,
    stop: Pair,
    teach: Pair,
    heartbeat: Pair,
    power: Pair)

  /** Dictionary lookup `pin_states[f]`. */
  function Get(bank: PinBank, f: Field): Pair {
    match f
    case Mode1 => bank.mode1
    case Mode2 => bank.mode2
    case EStop => bank.estop
    case Interlock => bank.interlock
    case Stop => bank.stop
    case Teach => bank.teach
    case Heartbeat => bank.heartbeat
    case Power => bank.power
  }

  lemma FieldOrderIsComplete(f: Field)
    ensures f in FieldOrder
  {
    match f
    case Mode1 => assert FieldOrder[0] == f;
    case Mode2 => assert FieldOrder[1] == f;
    case EStop => assert FieldOrder[2] == f;
    case Interlock => assert FieldOrder[3] == f;
    case Stop => assert FieldOrder[4] == f;
    case Teach => assert FieldOrder[5] == f;
    case Heartbeat => assert FieldOrder[6] == f;
    case Power => assert FieldOrder[7] == f;
  }

  /** Two tables agree on every signal outside `changed`. */
  ghost predicate AgreeExcept(x: PinBank, y: PinBank, changed: set<Field>) {
    forall f :: f !in changed ==> Get(x, f) == Get(y, f)
  }

  /** The derived rule of the controller: `stop` mirrors `estop`. */
  predicate StopMirrorsEStop(bank: PinBank) {
    bank.stop == bank.estop
  }

  /** `str(int(v))`: the wire character of one bit. */
  function Bit(v: bool): char {
    if v then '1' else '0'
  }

  /** `c == "1"`: how every reader of the wire turns a character into a bit. */
  predicate IsOne(c: char) {
    c == '1'
  }

  lemma BitIsOne(v: bool)
    ensures IsOne(Bit(v)) == v
  {
  }

  /** The host driver's cache before the first status poll: every pin cleared. */
  const AllClear: PinBank := PinBank(
    Pair(false, false), Pair(false, false), Pair(false, false), Pair(false, false),
    Pair(false, false), Pair(false, false), Pair(false, false), Pair(false, false))

  /** The pin table a simulated controller starts with. */
  const FactoryDefault: PinBank := PinBank(
    Pair(false, true), Pair(true, false), Pair(true, true), Pair(true, true),
    Pair(true, true), Pair(false, false), Pair(false, false), Pair(true, true))
}
