/** Values shared by the serving path (cpp-bidder/src/types.h). */
module Types {

  datatype Option<+T> = None | Some(value: T)

  /** The outcome of the bid computation for a request. */
  datatype Decision = Decision(bidPrice: real, winProbability: real, expectedProfit: real)

  /** A default-constructed decision: what a shed request is answered with. */
  const EMPTY_DECISION := Decision(0.0, 0.0, 0.0)

  const CAT_WIDTH: nat := 9
  const CONT_WIDTH: nat := 9
  const TAG_WIDTH: nat := 10

  /** The three fixed-size input rows of the model for one request. */
  datatype Tensors = Tensors(cat: seq<int>, cont: seq<real>, tags: seq<int>)

  type Features = t: Tensors | |t.cat| == CAT_WIDTH && |t.cont| == CONT_WIDTH && |t.tags| == TAG_WIDTH
    witness Tensors(seq(CAT_WIDTH, _ => 0), seq(CONT_WIDTH, _ => 0.0), seq(TAG_WIDTH, _ => 0))

  /** A loaded model. The graph is row-wise: `row` is what it computes for one request alone. */
  datatype Session = Session(width: nat, row: Features -> seq<real>)

  ghost predicate IsRowWise(s: Session) {
    forall f: Features :: |s.row(f)| == s.width
  }

  function Max(a: int, b: int): int {
    if a >= b then a else b
  }

  function Min(a: int, b: int): int {
    if a <= b then a else b
  }

  /** Clock readings are nanoseconds of a clock that never goes back; settings are milliseconds. */
  const NANOS_PER_MILLI: int := 1_000_000
}
