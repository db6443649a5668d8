/**
 * Vocabulary shared by the three branch predictors: the branch event they
 * consume, modulo indexing into their tables, the +1/-1 encoding of an
 * outcome, and the 2-bit saturating counter used both as a prediction
 * counter and as a tournament selector.
 */
module Branch {

  /** One observed branch: its address and whether it was taken. */
  datatype Event = Event(addr: nat, taken: bool)

  /** The largest value of a 2-bit saturating counter. */
  const CounterMax: int := 3

  /** A 2-bit counter value lies in [0, 3]. */
  predicate IsCounter(c: int) {
    0 <= c <= CounterMax
  }

  /** Every entry of a table is a 2-bit counter. */
  predicate AllCounters(t: seq<int>) {
    forall i :: 0 <= i < |t| ==> IsCounter(t[i])
  }

  /**
   * The table slot of an address: plain modulo indexing, with no
   * power-of-two requirement on the table size.  The result is the
   * remainder of the address divided by the size.
   */
  function Index(addr: nat, size: nat): (i: nat)
    requires size >= 1
    ensures i < size
    ensures addr == (addr / size) * size + i
  {
    addr % size
  }

  /** An outcome as a history value: +1 for taken, -1 for not taken. */
  function Sign(taken: bool): (a: int)
    ensures a == 1 || a == -1
    ensures taken <==> a > 0
  {
    if taken then 1 else -1
  }

  /** The smaller of two integers. */
  function Min(x: int, y: int): int {
    if x <= y then x else y
  }

  /** The larger of two integers. */
  function Max(x: int, y: int): int {
    if x >= y then x else y
  }

  /**
   * One step of a 2-bit saturating counter: up adds one, saturating at 3;
   * down subtracts one, with a floor at 0.  Inside [0, 3] the counter
   * moves by exactly one unless it already sits on the rail it moves
   * towards.
   */
  function Saturate(c: int, up: bool): (r: int)
    ensures IsCounter(c) ==> IsCounter(r)
    ensures IsCounter(c) && up ==> r == c + 1 || r == c == CounterMax
    ensures IsCounter(c) && !up ==> r == c - 1 || r == c == 0
  {
    if up then Min(c + 1, CounterMax) else Max(c - 1, 0)
  }

  /** k saturating steps up from c land on min(c + k, 3). */
  function Climb(c: int, k: nat): int {
    Min(c + k, CounterMax)
  }
}
