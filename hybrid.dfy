/**
 * The hybrid (tournament) predictor: one 2-bit counter predictor, one
 * perceptron predictor, and its own table of 2-bit selectors that decides,
 * per address slot, which of the two sub-predictions to return.  A
 * selector is trained only when exactly one sub-predictor was right.
 */
module Hybrid {
  import opened Branch
  import TwoBit
  import Perceptron

  /** Everything predict reports: the chosen prediction and both sub-predictions. */
  datatype Prediction = Prediction(final: bool, twoBit: bool, percep: bool, percepOutput: int)

  /**
   * The tournament rule: a selector moves towards the perceptron (up) when
   * only the perceptron was right, towards the counter predictor (down) when
   * only the counter predictor was right, and stays put when both were right
   * or both were wrong.
   */
  function SelectorNext(s: int, taken: bool, twoBitPred: bool, percepPred: bool): (r: int)
    ensures IsCounter(s) ==> IsCounter(r)
    ensures (percepPred == taken) == (twoBitPred == taken) ==> r == s
    ensures IsCounter(s) && percepPred == taken && twoBitPred != taken ==> r == s + 1 || r == s == CounterMax
    ensures IsCounter(s) && twoBitPred == taken && percepPred != taken ==> r == s - 1 || r == s == 0
  {
    var twoBitCorrect := twoBitPred == taken;
    var percepCorrect := percepPred == taken;
    if percepCorrect && !twoBitCorrect then Min(s + 1, CounterMax)
    else if twoBitCorrect && !percepCorrect then Max(s - 1, 0)
    else s
  }

  /** The whole state of a hybrid predictor, as values. */
  datatype State = State(counters: seq<int>, perceptron: Perceptron.State, selector: seq<int>)

  /** All three tables have the same size, at least one, and counters and selectors are 2-bit. */
  predicate Shaped(s: State) {
    && Perceptron.Shaped(s.perceptron)
    && |s.counters| == |s.selector| == |s.perceptron.rows|
    && AllCounters(s.counters)
    && AllCounters(s.selector)
  }

  /** The state at construction: counters and selectors 1, and a fresh perceptron state. */
  function Initial(tableSize: nat, historyLength: nat): (s: State)
    requires tableSize >= 1 && historyLength >= 1
    ensures Shaped(s) && |s.selector| == tableSize
  {
    State(seq(tableSize, _ => 1), Perceptron.Initial(historyLength, tableSize), seq(tableSize, _ => 1))
  }

  /**
   * What the state s predicts for addr: both sub-predictions unaltered,
   * and the perceptron's one as the final prediction exactly when the
   * selector of addr is at least 2.
   */
  function PredictionOf(s: State, addr: nat): (p: Prediction)
    requires Shaped(s)
    ensures p.twoBit == TwoBit.Prediction(s.counters, addr)
    ensures p.percepOutput == Perceptron.PredictOutput(s.perceptron, addr)
    ensures p.percep <==> p.percepOutput >= 0
    ensures p.final == if s.selector[Index(addr, |s.selector|)] >= 2 then p.percep else p.twoBit
  {
    var twoBitPred := TwoBit.Prediction(s.counters, addr);
    var percepOutput := Perceptron.PredictOutput(s.perceptron, addr);
    var percepPred := percepOutput >= 0;
    var usePercep := s.selector[Index(addr, |s.selector|)] >= 2;
    Prediction(if usePercep then percepPred else twoBitPred, twoBitPred, percepPred, percepOutput)
  }

  /**
   * The state after one update: both sub-predictors always learn the
   * actual outcome, and only the selector of addr may change, by the
   * tournament rule.
   */
  function Trained(s: State, threshold: int, addr: nat, taken: bool,
                   twoBitPred: bool, percepPred: bool, percepOutput: int): (r: State)
    requires Shaped(s)
    ensures Shaped(r)
    ensures r.counters == TwoBit.Trained(s.counters, addr, taken)
    ensures r.perceptron == Perceptron.Trained(s.perceptron, threshold, addr, taken, percepOutput)
    ensures |r.selector| == |s.selector|
    ensures r.selector[Index(addr, |s.selector|)] ==
      SelectorNext(s.selector[Index(addr, |s.selector|)], taken, twoBitPred, percepPred)
    ensures forall i :: 0 <= i < |s.selector| && i != Index(addr, |s.selector|) ==> r.selector[i] == s.selector[i]
  {
    var idx := Index(addr, |s.selector|);
    State(TwoBit.Trained(s.counters, addr, taken),
          Perceptron.Trained(s.perceptron, threshold, addr, taken, percepOutput),
          s.selector[idx := SelectorNext(s.selector[idx], taken, twoBitPred, percepPred)])
  }

  /** The state after replaying trace in order, each update receiving its own event's predictions. */
  function StateAfter(s: State, threshold: int, trace: seq<Event>): (r: State)
    requires Shaped(s)
    ensures Shaped(r) && |r.selector| == |s.selector|
  {
    if trace == [] then s
    else
      var e := trace[|trace| - 1];
      var before := StateAfter(s, threshold, trace[..|trace| - 1]);
      var p := PredictionOf(before, e.addr);
      Trained(before, threshold, e.addr, e.taken, p.twoBit, p.percep, p.percepOutput)
  }

  /** The number of events of trace whose final prediction, made on the state before it, is right. */
  function Hits(s: State, threshold: int, trace: seq<Event>): (n: nat)
    requires Shaped(s)
    ensures n <= |trace|
  {
    if trace == [] then 0
    else
      var prefix, e := trace[..|trace| - 1], trace[|trace| - 1];
      var p := PredictionOf(StateAfter(s, threshold, prefix), e.addr);
      Hits(s, threshold, prefix) + (if p.final == e.taken then 1 else 0)
  }

  /**
   * The selector never feeds back into the sub-predictors: inside a hybrid,
   * the counter table and the perceptron evolve exactly as they would if
   * each ran the trace alone.
   */
  lemma {:induction false} SubPredictorsRunAlone(s: State, threshold: int, trace: seq<Event>)
    requires Shaped(s)
    ensures StateAfter(s, threshold, trace).counters == TwoBit.StateAfter(s.counters, trace)
    ensures StateAfter(s, threshold, trace).perceptron == Perceptron.StateAfter(s.perceptron, threshold, trace)
  {
    if trace != [] {
      SubPredictorsRunAlone(s, threshold, trace[..|trace| - 1]);
    }
  }

  /** The number of events of trace that land in slot i of a table of the given size. */
  function EventsAt(trace: seq<Event>, size: nat, i: nat): (n: nat)
    requires size >= 1
    ensures n <= |trace|
  {
    if trace == [] then 0
    else EventsAt(trace[..|trace| - 1], size, i) + (if Index(trace[|trace| - 1].addr, size) == i then 1 else 0)
  }

  /**
   * If event k of trace falls in slot i, then on the state before it the
   * perceptron predicts it right and the counter predictor wrong.  Events
   * at other slots are unconstrained.
   */
  predicate OnlyPerceptronRight(s: State, threshold: int, trace: seq<Event>, i: nat, k: nat)
    requires Shaped(s) && k < |trace|
  {
    var p := PredictionOf(StateAfter(s, threshold, trace[..k]), trace[k].addr);
    Index(trace[k].addr, |s.selector|) == i ==> p.percep == trace[k].taken && p.twoBit != trace[k].taken
  }

  /** At every event of trace that falls in slot i, only the perceptron is right. */
  predicate AlwaysOnlyPerceptronRight(s: State, threshold: int, trace: seq<Event>, i: nat)
    requires Shaped(s)
  {
    forall k :: 0 <= k < |trace| ==> OnlyPerceptronRight(s, threshold, trace, i, k)
  }

  /** What holds of every event of a trace holds of every event of its prefixes. */
  lemma OnlyPerceptronRightPrefix(s: State, threshold: int, trace: seq<Event>, i: nat, n: nat)
    requires Shaped(s) && n <= |trace|
    requires AlwaysOnlyPerceptronRight(s, threshold, trace, i)
    ensures AlwaysOnlyPerceptronRight(s, threshold, trace[..n], i)
  {
    var prefix := trace[..n];
    forall k | 0 <= k < n ensures OnlyPerceptronRight(s, threshold, prefix, i, k) {
      assert prefix[..k] == trace[..k] && prefix[k] == trace[k];
      assert OnlyPerceptronRight(s, threshold, trace, i, k);
    }
  }

  /**
   * If at every event of slot i the perceptron is right and the counter
   * predictor wrong, that selector climbs one step per such event until
   * it saturates at 3; events at other slots, which may interleave
   * freely, leave it alone.
   */
  lemma {:induction false} SelectorClimbs(s: State, threshold: int, trace: seq<Event>, i: nat)
    requires Shaped(s) && i < |s.selector|
    requires AlwaysOnlyPerceptronRight(s, threshold, trace, i)
    ensures StateAfter(s, threshold, trace).selector[i] == Climb(s.selector[i], EventsAt(trace, |s.selector|, i))
  {
    if trace != [] {
      var n := |trace| - 1;
      OnlyPerceptronRightPrefix(s, threshold, trace, i, n);
      SelectorClimbs(s, threshold, trace[..n], i);
      assert OnlyPerceptronRight(s, threshold, trace, i, n);
    }
  }

  /**
   * From the initial selector value 1, in that situation the selector is 2
   * after the first event of slot i, 3 after the second, and stays at 3.
   */
  lemma SelectorConverges(s: State, threshold: int, trace: seq<Event>, i: nat, k: nat)
    requires Shaped(s) && i < |s.selector| && s.selector[i] == 1
    requires AlwaysOnlyPerceptronRight(s, threshold, trace, i)
    requires k <= |trace|
    ensures EventsAt(trace[..k], |s.selector|, i) == 1 ==> StateAfter(s, threshold, trace[..k]).selector[i] == 2
    ensures EventsAt(trace[..k], |s.selector|, i) >= 2 ==> StateAfter(s, threshold, trace[..k]).selector[i] == CounterMax
  {
    OnlyPerceptronRightPrefix(s, threshold, trace, i, k);
    SelectorClimbs(s, threshold, trace[..k], i);
  }

  /**
   * Two slots, history length 2: taken at slot 0, then not-taken twice at
   * slot 1 (which turns the history to -1, -1), then not-taken at slot 0.
   */
  function MixedTrace(): seq<Event> {
    [Event(0, true), Event(1, false), Event(1, false), Event(0, false)]
  }

  /** The hybrid state after the first k events of MixedTrace, from Initial(2, 2). */
  function MixedState(k: nat): State
    requires k <= 3
  {
    if k == 0 then State([1, 1], Perceptron.State([[0, 0, 0], [0, 0, 0]], [1, 1]), [1, 1])
    else if k == 1 then State([2, 1], Perceptron.State([[1, 1, 1], [0, 0, 0]], [1, 1]), [2, 1])
    else if k == 2 then State([2, 0], Perceptron.State([[1, 1, 1], [-1, -1, -1]], [-1, 1]), [2, 0])
    else State([2, 0], Perceptron.State([[1, 1, 1], [-2, 0, -2]], [-1, -1]), [2, 0])
  }

  /** Initial(2, 2) written out. */
  lemma MixedStart()
    ensures Initial(2, 2) == MixedState(0) && Perceptron.Threshold(2) == 17
  {
    assert seq(3, _ => 0) == [0, 0, 0] && seq(2, _ => 1) == [1, 1];
  }

  /** Slot 0, taken: only the perceptron (output 0) is right; the selector goes 1 to 2. */
  lemma MixedStep1()
    ensures Shaped(MixedState(0))
    ensures var p := PredictionOf(MixedState(0), 0);
      p == Prediction(false, false, true, 0) && Trained(MixedState(0), 17, 0, true, p.twoBit, p.percep, p.percepOutput) == MixedState(1)
  {
    assert Perceptron.TrainedRow([0, 0, 0], [1, 1], 1) == [1, 1, 1];
  }

  /** Slot 1, not taken: only the counter predictor is right. */
  lemma MixedStep2()
    ensures Shaped(MixedState(1))
    ensures var p := PredictionOf(MixedState(1), 1);
      p == Prediction(false, false, true, 0) && Trained(MixedState(1), 17, 1, false, p.twoBit, p.percep, p.percepOutput) == MixedState(2)
  {
    assert Perceptron.TrainedRow([0, 0, 0], [1, 1], -1) == [-1, -1, -1];
  }

  /** Slot 1, not taken: both are right (output -1), and training still fires. */
  lemma MixedStep3()
    ensures Shaped(MixedState(2))
    ensures var p := PredictionOf(MixedState(2), 1);
      p == Prediction(false, false, false, -1) && Trained(MixedState(2), 17, 1, false, p.twoBit, p.percep, p.percepOutput) == MixedState(3)
  {
    assert Perceptron.TrainedRow([-1, -1, -1], [-1, 1], -1) == [-2, 0, -2];
  }

  /** Slot 0, not taken: the counter (2) is wrong and the output 1 - 1 - 1 = -1 is right, and chosen by selector 2. */
  lemma MixedStep4()
    ensures Shaped(MixedState(3))
    ensures PredictionOf(MixedState(3), 0) == Prediction(false, true, false, -1)
    ensures Trained(MixedState(3), 17, 0, false, true, false, -1).selector[0] == CounterMax
  {
  }

  /** The first k events of MixedTrace lead from Initial(2, 2) to MixedState(k). */
  lemma {:induction false} MixedPrefix(k: nat)
    requires k <= 3
    ensures StateAfter(Initial(2, 2), 17, MixedTrace()[..k]) == MixedState(k)
  {
    var tr := MixedTrace();
    MixedStart();
    if k > 0 {
      MixedPrefix(k - 1);
      assert tr[..k][..k - 1] == tr[..k - 1];
      if k == 1 { MixedStep1(); } else if k == 2 { MixedStep2(); } else { MixedStep3(); }
    }
  }

  /** At slot 0 of MixedTrace, only the perceptron is right, from Initial(2, 2). */
  lemma MixedTraceOnlyPerceptronRight()
    ensures AlwaysOnlyPerceptronRight(Initial(2, 2), 17, MixedTrace(), 0)
  {
    var s, tr := Initial(2, 2), MixedTrace();
    MixedStart();
    forall k | 0 <= k < |tr| ensures OnlyPerceptronRight(s, 17, tr, 0, k) {
      if k == 0 {
        MixedPrefix(0);
        MixedStep1();
      } else if k == 3 {
        MixedPrefix(3);
        MixedStep4();
      }
    }
  }

  /**
   * A freshly built hybrid meets the hypothesis of SelectorConverges at
   * slot 0 on MixedTrace, where slot-1 events interleave, and its selector
   * there goes 1, 2, 3.
   */
  lemma MixedTraceClimbs()
    ensures AlwaysOnlyPerceptronRight(Initial(2, 2), Perceptron.Threshold(2), MixedTrace(), 0)
    ensures StateAfter(Initial(2, 2), Perceptron.Threshold(2), MixedTrace()[..1]).selector[0] == 2
    ensures StateAfter(Initial(2, 2), Perceptron.Threshold(2), MixedTrace()).selector[0] == CounterMax
  {
    var tr := MixedTrace();
    MixedStart();
    MixedTraceOnlyPerceptronRight();
    MixedPrefix(1);
    MixedPrefix(3);
    MixedStep4();
    assert tr[..|tr| - 1] == tr[..3];
  }

  /** A counter predictor, a perceptron predictor and a selector table, each with its own storage. */
  class HybridPredictor {
    const tableSize: nat
    const twoBit: TwoBit.TwoBitPredictor
    const perceptron: Perceptron.PerceptronPredictor
    const selector: array<int>

    ghost predicate Valid()
      reads this, twoBit, twoBit.counters, perceptron, perceptron.weights, selector
    {
      && twoBit.Valid()
      && perceptron.Valid()
      && tableSize >= 1
      && twoBit.tableSize == tableSize
      && perceptron.numPerceptrons == tableSize
      && selector.Length == tableSize
      && selector != twoBit.counters
      && AllCounters(selector[..])
    }

    ghost function Model(): State
      reads this, twoBit, twoBit.counters, perceptron, selector
    {
      State(twoBit.counters[..], perceptron.Model(), selector[..])
    }

    /** Both sub-predictors are built with the given sizes; every selector starts at 1 (weakly favour the counter predictor). */
    constructor (tableSize: nat, historyLength: nat)
      requires tableSize >= 1 && historyLength >= 1
      ensures Valid() && fresh(twoBit) && fresh(twoBit.counters) && fresh(perceptron)
      ensures fresh(perceptron.weights) && fresh(selector)
      ensures this.tableSize == tableSize && perceptron.historyLength == historyLength
      ensures perceptron.threshold == Perceptron.Threshold(historyLength)
      ensures Model() == Initial(tableSize, historyLength)
    {
      this.tableSize := tableSize;
      twoBit := new TwoBit.TwoBitPredictor(tableSize);
      perceptron := new Perceptron.PerceptronPredictor(historyLength, tableSize);
      selector := new int[tableSize](_ => 1);
    }

    /** Ask both sub-predictors and let the selector of addr choose; reads only. */
    method Predict(addr: nat) returns (p: Prediction)
      requires Valid()
      ensures p == PredictionOf(Model(), addr)
      ensures p.final == if selector[addr % tableSize] >= 2 then p.percep else p.twoBit
    {
      var idx := Index(addr, tableSize);
      var twoBitPred := twoBit.Predict(addr);
      var percepPred, percepOutput := perceptron.Predict(addr);
      var usePercep := selector[idx] >= 2;
      var finalPrediction := if usePercep then percepPred else twoBitPred;
      p := Prediction(finalPrediction, twoBitPred, percepPred, percepOutput);
    }

    /**
     * Train both sub-predictors with the actual outcome, then the selector
     * of addr by the tournament rule on the given sub-predictions.
     */
    method Update(addr: nat, taken: bool, twoBitPred: bool, percepPred: bool, percepOutput: int)
      requires Valid()
      modifies twoBit.counters, perceptron, perceptron.weights, selector
      ensures Valid()
      ensures Model() == Trained(old(Model()), perceptron.threshold, addr, taken, twoBitPred, percepPred, percepOutput)
      ensures twoBit.counters[..] == TwoBit.Trained(old(twoBit.counters[..]), addr, taken)
      ensures perceptron.Model() == Perceptron.Trained(old(perceptron.Model()), perceptron.threshold, addr, taken, percepOutput)
      ensures selector[addr % tableSize] == SelectorNext(old(selector[addr % tableSize]), taken, twoBitPred, percepPred)
      ensures forall i :: 0 <= i < tableSize && i != addr % tableSize ==> selector[i] == old(selector[i])
    {
      var idx := Index(addr, tableSize);
      twoBit.Update(addr, taken);
      perceptron.Update(addr, taken, percepOutput);
      var twoBitCorrect := twoBitPred == taken;
      var percepCorrect := percepPred == taken;
      if percepCorrect && !twoBitCorrect {
        selector[idx] := Min(selector[idx] + 1, CounterMax);
      } else if twoBitCorrect && !percepCorrect {
        selector[idx] := Max(selector[idx] - 1, 0);
      }
    }

    /**
     * Replay trace in order: predict, compare the final prediction, then
     * update with that same event's sub-predictions.  Returns the number of
     * correct predictions and the number of events.
     */
    method RunTrace(trace: seq<Event>) returns (correct: nat, total: nat)
      requires Valid()
      modifies twoBit.counters, perceptron, perceptron.weights, selector
      ensures Valid()
      ensures total == |trace| && correct <= total
      ensures correct == Hits(old(Model()), perceptron.threshold, trace)
      ensures Model() == StateAfter(old(Model()), perceptron.threshold, trace)
    {
      ghost var start := Model();
      correct, total := 0, 0;
      for k := 0 to |trace|
        invariant Valid()
        invariant total == k && correct <= total
        invariant Model() == StateAfter(start, perceptron.threshold, trace[..k])
        invariant correct == Hits(start, perceptron.threshold, trace[..k])
      {
        assert trace[..k + 1][..k] == trace[..k];
        var e := trace[k];
        var p := Predict(e.addr);
        if p.final == e.taken {
          correct := correct + 1;
        }
        Update(e.addr, e.taken, p.twoBit, p.percep, p.percepOutput);
        total := total + 1;
      }
      assert trace[..|trace|] == trace;
    }
  }
}
