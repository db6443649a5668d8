/**
 * The perceptron predictor: a table of integer weight rows indexed by
 * address modulo the table size, and one global history register (GHR)
 * of the last outcomes as +1/-1, most recent first.  A prediction is the
 * sign of bias + weights . history; training is gated by a threshold and
 * the GHR shifts in every actual outcome.
 */
module Perceptron {
  import opened Branch

  /** Every entry of h is +1 or -1. */
  predicate IsHistory(h: seq<int>) {
    forall i :: 0 <= i < |h| ==> h[i] == 1 || h[i] == -1
  }

  /** Absolute value. */
  function Abs(x: int): (r: nat)
    ensures r == x || r == -x
  {
    if x < 0 then -x else x
  }

  /** The weighted sum of the first k history entries: w[1]*h[0] + ... + w[k]*h[k-1]. */
  function PartialDot(w: seq<int>, h: seq<int>, k: nat): int
    requires k <= |h| && |h| < |w|
  {
    if k == 0 then 0 else PartialDot(w, h, k - 1) + w[k] * h[k - 1]
  }

  /** The perceptron output: bias w[0] plus the weighted sum of the whole history. */
  function Output(w: seq<int>, h: seq<int>): int
    requires |w| == |h| + 1
  {
    w[0] + PartialDot(w, h, |h|)
  }

  /** The training threshold for a history length H: the integer part of 1.93 * H + 14. */
  function Threshold(historyLength: nat): (theta: nat)
    ensures 100 * theta <= 193 * historyLength + 1400 < 100 * (theta + 1)
  {
    (193 * historyLength + 1400) / 100
  }

  /**
   * Training fires on a misprediction (the sign of output disagrees with
   * the outcome) or on a low-confidence output.
   */
  function TrainFires(taken: bool, output: int, threshold: int): (fires: bool)
    ensures fires <==> (output >= 0) != taken || -threshold < output < threshold
  {
    (taken && output < 0) || (!taken && output >= 0) || Abs(output) < threshold
  }

  /**
   * One training step on a row: the bias moves by a and every other
   * weight by a times its history entry.  With a history of +1/-1 and
   * a = +1 or -1, every weight moves by exactly one.
   */
  function TrainedRow(w: seq<int>, h: seq<int>, a: int): (r: seq<int>)
    requires |w| == |h| + 1
    ensures |r| == |w|
    ensures IsHistory(h) && (a == 1 || a == -1) ==>
      forall j :: 0 <= j < |w| ==> r[j] == w[j] + 1 || r[j] == w[j] - 1
  {
    seq(|w|, j requires 0 <= j < |w| => if j == 0 then w[0] + a else w[j] + a * h[j - 1])
  }

  /** The history with a shifted in at the front and the oldest entry dropped. */
  function Shifted(h: seq<int>, a: int): (r: seq<int>)
    requires |h| >= 1
    ensures |r| == |h|
    ensures IsHistory(h) && (a == 1 || a == -1) ==> IsHistory(r)
  {
    [a] + h[..|h| - 1]
  }

  /** The whole state of a perceptron predictor, as values. */
  datatype State = State(rows: seq<seq<int>>, ghr: seq<int>)

  /** At least one row, a GHR of length H >= 1 holding +1/-1, every row of length H + 1. */
  predicate Shaped(s: State) {
    && |s.rows| >= 1
    && |s.ghr| >= 1
    && IsHistory(s.ghr)
    && forall i :: 0 <= i < |s.rows| ==> |s.rows[i]| == |s.ghr| + 1
  }

  /** The state at construction: every weight 0 and every history entry +1. */
  function Initial(historyLength: nat, numPerceptrons: nat): (s: State)
    requires historyLength >= 1 && numPerceptrons >= 1
    ensures Shaped(s) && |s.rows| == numPerceptrons && |s.ghr| == historyLength
  {
    State(seq(numPerceptrons, _ => seq(historyLength + 1, _ => 0)), seq(historyLength, _ => 1))
  }

  /** The output the state s computes for addr. */
  function PredictOutput(s: State, addr: nat): int
    requires Shaped(s)
  {
    Output(s.rows[Index(addr, |s.rows|)], s.ghr)
  }

  /**
   * The state after one update: the row of addr is trained when training
   * fires for the given output, and the actual outcome is shifted into the
   * GHR in every case.  No other row changes and no weight moves by more
   * than one.
   */
  function Trained(s: State, threshold: int, addr: nat, taken: bool, output: int): (r: State)
    requires Shaped(s)
    ensures Shaped(r) && |r.rows| == |s.rows| && |r.ghr| == |s.ghr|
    ensures forall i :: 0 <= i < |s.rows| && i != Index(addr, |s.rows|) ==> r.rows[i] == s.rows[i]
    ensures !TrainFires(taken, output, threshold) ==> r.rows == s.rows
    ensures forall i, j :: 0 <= i < |s.rows| && 0 <= j <= |s.ghr| ==>
      s.rows[i][j] - 1 <= r.rows[i][j] <= s.rows[i][j] + 1
    ensures r.ghr[0] == Sign(taken) && r.ghr[1..] == s.ghr[..|s.ghr| - 1]
  {
    var i, a := Index(addr, |s.rows|), Sign(taken);
    var rows := if TrainFires(taken, output, threshold)
      then s.rows[i := TrainedRow(s.rows[i], s.ghr, a)]
      else s.rows;
    State(rows, Shifted(s.ghr, a))
  }

  /**
   * The state after replaying trace in order, each update receiving the
   * output predicted on the state just before it.
   */
  function StateAfter(s: State, threshold: int, trace: seq<Event>): (r: State)
    requires Shaped(s)
    ensures Shaped(r) && |r.rows| == |s.rows| && |r.ghr| == |s.ghr|
  {
    if trace == [] then s
    else
      var e := trace[|trace| - 1];
      var before := StateAfter(s, threshold, trace[..|trace| - 1]);
      Trained(before, threshold, e.addr, e.taken, PredictOutput(before, e.addr))
  }

  /** The number of events of trace whose prediction, made on the state before it, is right. */
  function Hits(s: State, threshold: int, trace: seq<Event>): (n: nat)
    requires Shaped(s)
    ensures n <= |trace|
  {
    if trace == [] then 0
    else
      var prefix, e := trace[..|trace| - 1], trace[|trace| - 1];
      var before := StateAfter(s, threshold, prefix);
      Hits(s, threshold, prefix) + (if (PredictOutput(before, e.addr) >= 0) == e.taken then 1 else 0)
  }

  /** A trained row's partial sum over the same history gains a for every position. */
  lemma {:induction false} PartialDotTrained(w: seq<int>, h: seq<int>, a: int, k: nat)
    requires |w| == |h| + 1 && k <= |h| && IsHistory(h)
    ensures PartialDot(TrainedRow(w, h, a), h, k) == PartialDot(w, h, k) + a * k
  {
    if k > 0 {
      PartialDotTrained(w, h, a, k - 1);
      var r := TrainedRow(w, h, a);
      assert r[k] == w[k] + a * h[k - 1];
      assert h[k - 1] == 1 || h[k - 1] == -1;
      assert r[k] * h[k - 1] == w[k] * h[k - 1] + a;
    }
  }

  /**
   * Training moves the output on the same history towards the outcome by
   * exactly H + 1.
   */
  lemma TrainingShiftsOutput(w: seq<int>, h: seq<int>, a: int)
    requires |w| == |h| + 1 && IsHistory(h)
    ensures Output(TrainedRow(w, h, a), h) == Output(w, h) + a * (|h| + 1)
  {
    PartialDotTrained(w, h, a, |h|);
  }

  /**
   * The GHR is a sliding window of actual outcomes, most recent first:
   * after a trace, entry j holds the outcome j events back, or, once the
   * trace is shorter than that, the initial entry it pushed along.
   * Training has no effect on it.
   */
  lemma {:induction false} HistoryIsWindow(s: State, threshold: int, trace: seq<Event>, j: nat)
    requires Shaped(s) && j < |s.ghr|
    ensures StateAfter(s, threshold, trace).ghr[j] ==
      if j < |trace| then Sign(trace[|trace| - 1 - j].taken) else s.ghr[j - |trace|]
  {
    if trace != [] {
      var n := |trace| - 1;
      HistoryStep(s, threshold, trace);
      if j > 0 {
        var before := StateAfter(s, threshold, trace[..n]).ghr;
        assert StateAfter(s, threshold, trace).ghr[j] == before[j - 1];
        HistoryIsWindow(s, threshold, trace[..n], j - 1);
        if j < |trace| {
          assert trace[..n][n - 1 - (j - 1)] == trace[n - j];
        }
      }
    }
  }

  /** One more event shifts its outcome into the GHR left by the events before it. */
  lemma HistoryStep(s: State, threshold: int, trace: seq<Event>)
    requires Shaped(s) && trace != []
    ensures var before := StateAfter(s, threshold, trace[..|trace| - 1]).ghr;
      StateAfter(s, threshold, trace).ghr == Shifted(before, Sign(trace[|trace| - 1].taken))
  {
  }

  /** A row of zero weights sums to zero over any history. */
  lemma {:induction false} ZeroRowPartialDot(w: seq<int>, h: seq<int>, k: nat)
    requires k <= |h| < |w|
    requires forall j :: 0 <= j < |w| ==> w[j] == 0
    ensures PartialDot(w, h, k) == 0
  {
    if k > 0 {
      ZeroRowPartialDot(w, h, k - 1);
    }
  }

  /**
   * Before any training the output is 0 at every address, so the first
   * prediction is always taken, whatever the all-+1 initial GHR holds.
   */
  lemma InitialPredictsTaken(historyLength: nat, numPerceptrons: nat, addr: nat)
    requires historyLength >= 1 && numPerceptrons >= 1
    ensures PredictOutput(Initial(historyLength, numPerceptrons), addr) == 0
  {
    var s := Initial(historyLength, numPerceptrons);
    ZeroRowPartialDot(s.rows[Index(addr, numPerceptrons)], s.ghr, historyLength);
  }

  /** Every event of trace is taken. */
  predicate AllTaken(trace: seq<Event>) {
    forall k :: 0 <= k < |trace| ==> trace[k].taken
  }

  /** Under a stream of taken outcomes no bias ever decreases. */
  lemma {:induction false} BiasNeverDecreases(s: State, threshold: int, trace: seq<Event>)
    requires Shaped(s) && AllTaken(trace)
    ensures forall i :: 0 <= i < |s.rows| ==> StateAfter(s, threshold, trace).rows[i][0] >= s.rows[i][0]
  {
    if trace != [] {
      var prefix := trace[..|trace| - 1];
      assert AllTaken(prefix) by {
        forall k | 0 <= k < |prefix| ensures prefix[k] == trace[k] { }
      }
      BiasNeverDecreases(s, threshold, prefix);
      var before := StateAfter(s, threshold, prefix);
      var e := trace[|trace| - 1];
      assert e.taken;
      var after := StateAfter(s, threshold, trace);
      forall i | 0 <= i < |s.rows| ensures after.rows[i][0] >= before.rows[i][0] {
        var idx := Index(e.addr, |s.rows|);
        if i == idx && TrainFires(e.taken, PredictOutput(before, e.addr), threshold) {
          assert after.rows[i] == TrainedRow(before.rows[i], before.ghr, 1);
        }
      }
    }
  }

  /** A perceptron table over a two-dimensional weight array, and a GHR that is reassigned on every update. */
  class PerceptronPredictor {
    const historyLength: nat
    const numPerceptrons: nat
    const threshold: int
    const weights: array2<int>
    var ghr: seq<int>
    /** The weight rows as values, kept equal to the contents of weights. */
    ghost var rows: seq<seq<int>>

    ghost predicate Valid()
      reads this, weights
    {
      && historyLength >= 1
      && numPerceptrons >= 1
      && weights.Length0 == numPerceptrons
      && weights.Length1 == historyLength + 1
      && |ghr| == historyLength
      && |rows| == numPerceptrons
      && Shaped(State(rows, ghr))
      && forall i, j :: 0 <= i < numPerceptrons && 0 <= j <= historyLength ==> weights[i, j] == rows[i][j]
    }

    ghost function Model(): State
      reads this
    {
      State(rows, ghr)
    }

    /** All weights start at 0, the GHR all +1, and the threshold is fixed from H. */
    constructor (historyLength: nat, numPerceptrons: nat)
      requires historyLength >= 1 && numPerceptrons >= 1
      ensures Valid() && fresh(weights)
      ensures this.historyLength == historyLength && this.numPerceptrons == numPerceptrons
      ensures threshold == Threshold(historyLength)
      ensures Model() == Initial(historyLength, numPerceptrons)
      ensures forall i, j :: 0 <= i < numPerceptrons && 0 <= j <= historyLength ==> weights[i, j] == 0
      ensures forall i :: 0 <= i < historyLength ==> ghr[i] == 1
    {
      this.historyLength := historyLength;
      this.numPerceptrons := numPerceptrons;
      weights := new int[numPerceptrons, historyLength + 1]((_, _) => 0);
      ghr := seq(historyLength, _ => 1);
      threshold := Threshold(historyLength);
      rows := seq(numPerceptrons, _ => seq(historyLength + 1, _ => 0));
    }

    /** The dot product of the row of addr with the GHR, and its sign as the prediction; reads only. */
    method Predict(addr: nat) returns (taken: bool, output: int)
      requires Valid()
      ensures output == PredictOutput(Model(), addr)
      ensures output == weights[addr % numPerceptrons, 0] + PartialDot(rows[addr % numPerceptrons], ghr, historyLength)
      ensures taken <==> output >= 0
    {
      var idx := Index(addr, numPerceptrons);
      output := weights[idx, 0];
      for i := 0 to historyLength
        invariant output == rows[idx][0] + PartialDot(rows[idx], ghr, i)
      {
        output := output + weights[idx, i + 1] * ghr[i];
      }
      taken := output >= 0;
    }

    /**
     * Train the row of addr when training fires for output, using the GHR
     * from before the shift, then shift the actual outcome into the GHR.
     */
    method Update(addr: nat, taken: bool, output: int)
      requires Valid()
      modifies this, weights
      ensures Valid()
      ensures Model() == Trained(old(Model()), threshold, addr, taken, output)
      ensures ghr[0] == Sign(taken) && ghr[1..] == old(ghr)[..historyLength - 1]
      ensures TrainFires(taken, output, threshold) ==>
        weights[addr % numPerceptrons, 0] == old(weights[addr % numPerceptrons, 0]) + Sign(taken)
      ensures TrainFires(taken, output, threshold) ==> forall i :: 0 <= i < historyLength ==>
        weights[addr % numPerceptrons, i + 1] == old(weights[addr % numPerceptrons, i + 1]) + Sign(taken) * old(ghr)[i]
      ensures forall i, j ::
        && 0 <= i < numPerceptrons && 0 <= j <= historyLength
        && (i != addr % numPerceptrons || !TrainFires(taken, output, threshold))
        ==> weights[i, j] == old(weights[i, j])
    {
      var idx := Index(addr, numPerceptrons);
      var actual := if taken then 1 else -1;
      if (taken && output < 0) || (!taken && output >= 0) || Abs(output) < threshold {
        TrainRow(idx, actual);
      }
      ghr := [actual] + ghr[..|ghr| - 1];
    }

    /** Add a to the bias of row idx and a * ghr[i] to its weight i + 1, in place. */
    method TrainRow(idx: nat, a: int)
      requires Valid() && idx < numPerceptrons
      modifies this`rows, weights
      ensures Valid()
      ensures rows == old(rows)[idx := TrainedRow(old(rows)[idx], ghr, a)]
    {
      ghost var row := TrainedRow(rows[idx], ghr, a);
      weights[idx, 0] := weights[idx, 0] + a;
      for i := 0 to historyLength
        modifies weights
        invariant forall r, j :: 0 <= r < numPerceptrons && 0 <= j <= historyLength ==>
          weights[r, j] == if r == idx && j <= i then row[j] else rows[r][j]
      {
        weights[idx, i + 1] := weights[idx, i + 1] + a * ghr[i];
      }
      rows := rows[idx := row];
    }

    /**
     * Replay trace in order: predict, compare, then update with the output
     * just predicted.  Returns the number of correct predictions and the
     * number of events.
     */
    method RunTrace(trace: seq<Event>) returns (correct: nat, total: nat)
      requires Valid()
      modifies this, weights
      ensures Valid()
      ensures total == |trace| && correct <= total
      ensures correct == Hits(old(Model()), threshold, trace)
      ensures Model() == StateAfter(old(Model()), threshold, trace)
    {
      ghost var start := Model();
      correct, total := 0, 0;
      for k := 0 to |trace|
        invariant Valid()
        invariant total == k && correct <= total
        invariant Model() == StateAfter(start, threshold, trace[..k])
        invariant correct == Hits(start, threshold, trace[..k])
      {
        assert trace[..k + 1][..k] == trace[..k];
        var e := trace[k];
        var prediction, output := Predict(e.addr);
        if prediction == e.taken {
          correct := correct + 1;
        }
        Update(e.addr, e.taken, output);
        total := total + 1;
      }
      assert trace[..|trace|] == trace;
    }
  }
}
