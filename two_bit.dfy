/**
 * The 2-bit saturating counter predictor: a table of counters indexed by
 * address modulo the table size, predicting taken when the counter is at
 * least 2 and trained towards every actual outcome.
 */
module TwoBit {
  import opened Branch

  /** The prediction the table t makes for addr. */
  function Prediction(t: seq<int>, addr: nat): bool
    requires |t| >= 1
  {
    t[Index(addr, |t|)] >= 2
  }

  /** The table after training the counter of addr with one outcome. */
  function Trained(t: seq<int>, addr: nat, taken: bool): (r: seq<int>)
    requires |t| >= 1
    ensures |r| == |t|
    ensures AllCounters(t) ==> AllCounters(r)
    ensures forall i :: 0 <= i < |t| && i != Index(addr, |t|) ==> r[i] == t[i]
  {
    var i := Index(addr, |t|);
    t[i := Saturate(t[i], taken)]
  }

  /** The table after training it, in order, with every event of trace. */
  function StateAfter(t: seq<int>, trace: seq<Event>): (r: seq<int>)
    requires |t| >= 1
    ensures |r| == |t|
    ensures AllCounters(t) ==> AllCounters(r)
  {
    if trace == [] then t
    else
      var e := trace[|trace| - 1];
      Trained(StateAfter(t, trace[..|trace| - 1]), e.addr, e.taken)
  }

  /**
   * The number of events of trace predicted correctly, where the
   * prediction for each event is made on the table trained with exactly
   * the events before it.
   */
  function Hits(t: seq<int>, trace: seq<Event>): (n: nat)
    requires |t| >= 1
    ensures n <= |trace|
  {
    if trace == [] then 0
    else
      var prefix, e := trace[..|trace| - 1], trace[|trace| - 1];
      Hits(t, prefix) + (if Prediction(StateAfter(t, prefix), e.addr) == e.taken then 1 else 0)
  }

  /** Every event of trace is taken and lands in slot i of a table of the given size. */
  predicate TakenAt(trace: seq<Event>, size: nat, i: nat)
    requires size >= 1
  {
    forall k :: 0 <= k < |trace| ==> trace[k].taken && Index(trace[k].addr, size) == i
  }

  /**
   * A stream of taken outcomes at one slot climbs that counter one step
   * per event until it saturates at 3.
   */
  lemma {:induction false} TakenStreamClimbs(t: seq<int>, trace: seq<Event>, i: nat)
    requires |t| >= 1 && i < |t| && IsCounter(t[i])
    requires TakenAt(trace, |t|, i)
    ensures StateAfter(t, trace)[i] == Climb(t[i], |trace|)
  {
    if trace != [] {
      var prefix := trace[..|trace| - 1];
      assert TakenAt(prefix, |t|, i) by {
        forall k | 0 <= k < |prefix| ensures prefix[k] == trace[k] { }
      }
      TakenStreamClimbs(t, prefix, i);
    }
  }

  /**
   * From the initial counter value 1, a stream of taken outcomes at one
   * slot reaches 3 after two events and stays there, and every prediction
   * after the first event is taken.
   */
  lemma TakenStreamFromInitial(t: seq<int>, trace: seq<Event>, i: nat, k: nat)
    requires |t| >= 1 && i < |t| && t[i] == 1
    requires TakenAt(trace, |t|, i)
    requires k <= |trace|
    ensures k >= 2 ==> StateAfter(t, trace[..k])[i] == CounterMax
    ensures 1 <= k < |trace| ==> Prediction(StateAfter(t, trace[..k]), trace[k].addr)
  {
    var prefix := trace[..k];
    assert TakenAt(prefix, |t|, i) by {
      forall j | 0 <= j < |prefix| ensures prefix[j] == trace[j] { }
    }
    TakenStreamClimbs(t, prefix, i);
  }

  /** The trace T, T, N, T, T at one address, fed to a one-entry table. */
  function ExampleTrace(): seq<Event> {
    [Event(0x1000, true), Event(0x1000, true), Event(0x1000, false),
     Event(0x1000, true), Event(0x1000, true)]
  }

  /**
   * On ExampleTrace from the counter value 1, the counter runs
   * 1, 2, 3, 2, 3, 3, the predictions are F, T, T, T, T and three of the
   * five events are predicted correctly.
   */
  lemma ExampleTrajectory()
    ensures StateAfter([1], ExampleTrace()[..1]) == [2]
    ensures StateAfter([1], ExampleTrace()[..2]) == [3]
    ensures StateAfter([1], ExampleTrace()[..3]) == [2]
    ensures StateAfter([1], ExampleTrace()[..4]) == [3]
    ensures StateAfter([1], ExampleTrace()) == [3]
    ensures Hits([1], ExampleTrace()) == 3
    ensures !Prediction([1], 0x1000)
    ensures forall k :: 1 <= k < 5 ==> Prediction(StateAfter([1], ExampleTrace()[..k]), 0x1000)
  {
    var tr := ExampleTrace();
    assert tr[..1][..0] == [];
    assert tr[..2][..1] == tr[..1];
    assert tr[..3][..2] == tr[..2];
    assert tr[..4][..3] == tr[..3];
    assert tr[..4] == tr[..|tr| - 1];
  }

  /** A table of 2-bit counters, updated in place. */
  class TwoBitPredictor {
    const tableSize: nat
    const counters: array<int>

    ghost predicate Valid()
      reads this, counters
    {
      tableSize >= 1 && counters.Length == tableSize && AllCounters(counters[..])
    }

    /** Every counter starts weakly not-taken (1). */
    constructor (tableSize: nat)
      requires tableSize >= 1
      ensures Valid() && fresh(counters)
      ensures this.tableSize == tableSize
      ensures counters[..] == seq(tableSize, _ => 1)
    {
      this.tableSize := tableSize;
      counters := new int[tableSize](_ => 1);
    }

    /** Predict taken exactly when the counter of addr is at least 2; reads only. */
    method Predict(addr: nat) returns (taken: bool)
      requires Valid()
      ensures taken <==> counters[addr % tableSize] >= 2
      ensures taken == Prediction(counters[..], addr)
    {
      var idx := Index(addr, tableSize);
      var counter := counters[idx];
      taken := counter >= 2;
    }

    /** Move the counter of addr one step towards the actual outcome. */
    method Update(addr: nat, taken: bool)
      requires Valid()
      modifies counters
      ensures Valid()
      ensures counters[..] == Trained(old(counters[..]), addr, taken)
      ensures counters[addr % tableSize] == Saturate(old(counters[addr % tableSize]), taken)
      ensures forall i :: 0 <= i < tableSize && i != addr % tableSize ==> counters[i] == old(counters[i])
    {
      var idx := Index(addr, tableSize);
      var counter := counters[idx];
      if taken {
        counter := Min(counter + 1, CounterMax);
      } else {
        counter := Max(counter - 1, 0);
      }
      counters[idx] := counter;
    }

    /**
     * Replay trace in order: predict, compare, update.  Returns the number
     * of correct predictions and the number of events.
     */
    method RunTrace(trace: seq<Event>) returns (correct: nat, total: nat)
      requires Valid()
      modifies counters
      ensures Valid()
      ensures total == |trace| && correct <= total
      ensures correct == Hits(old(counters[..]), trace)
      ensures counters[..] == StateAfter(old(counters[..]), trace)
    {
      ghost var start := counters[..];
      correct, total := 0, 0;
      for k := 0 to |trace|
        invariant Valid()
        invariant total == k && correct <= total
        invariant counters[..] == StateAfter(start, trace[..k])
        invariant correct == Hits(start, trace[..k])
      {
        assert trace[..k + 1][..k] == trace[..k];
        var e := trace[k];
        var prediction := Predict(e.addr);
        if prediction == e.taken {
          correct := correct + 1;
        }
        Update(e.addr, e.taken);
        total := total + 1;
      }
      assert trace[..|trace|] == trace;
    }
  }

  /** The scenario of ExampleTrajectory run on a freshly built one-entry predictor. */
  method ExampleRun() returns (correct: nat, total: nat)
    ensures correct == 3 && total == 5
  {
    var p := new TwoBitPredictor(1);
    assert p.counters[..] == [1];
    correct, total := p.RunTrace(ExampleTrace());
    ExampleTrajectory();
  }
}
