# Branch predictors: a verified model

This project models three branch-predictor state machines and the loop
that evaluates them on a trace of `(address, taken)` events:

- **TwoBitPredictor**: a table of 2-bit saturating counters indexed by
  `address mod table_size`. It predicts taken when the counter is at least 2.
  Each update moves the counter one step towards the actual outcome, clamped
  to `[0, 3]`.
- **PerceptronPredictor**: a table of integer weight rows of length `H + 1`
  (bias first). A global history register (GHR) holds the last `H` outcomes as
  `+1`/`-1`, most recent first. The prediction is the sign of the dot product.
  Training is gated by a threshold `int(1.93 * H + 14)`. Every update shifts
  the actual outcome into the GHR.
- **HybridPredictor**: one predictor of each kind above, plus its own table of
  2-bit selectors. The selector of an address picks which sub-prediction to
  return. It is trained only when exactly one sub-predictor was right.
- **run_trace**: in each class, a strictly ordered predict → compare →
  update loop that counts `correct` and `total`.

Layout, one module per source file:

- `branch.dfy` (`Branch`): the event, modulo indexing, the ±1 encoding and the
  saturating counter step.
- `two_bit.dfy` (`TwoBit`), `perceptron.dfy` (`Perceptron`) and `hybrid.dfy`
  (`Hybrid`): one predictor each.

Each predictor module has two layers:

- A class that keeps the source's mutable state:
  - two-bit: a counter `array<int>`;
  - perceptron: a two-dimensional weight array and a `ghr: seq<int>` field,
    reassigned on every update as the source reassigns `self.ghr`;
  - hybrid: a selector `array<int>` and the two sub-predictor objects.
- Pure specification functions over values (`Prediction`/`PredictionOf`,
  `Trained`, `StateAfter`, `Hits`).

The class methods are proved against the pure functions. The properties are
then lemmas about those functions. `StateAfter(s, trace)` and `Hits(s, trace)`
recurse on the trace with its last event removed. So "the prediction for
event k sees exactly the state after events `0..k-1`" is how they are defined.
Each `RunTrace` method is proved to compute exactly these functions.

Each prediction reads the counter before its own update (1, 2, 3, 2, 3), so
on a one-entry table with outcomes T, T, N, T, T the predictions are
F, T, T, T, T and 3 of 5 are correct; `TwoBit.ExampleTrajectory` states
these values.

## Model

| member | source | states |
|---|---|---|
| `Branch.Index` | predictors/two_bit_predictor.py:12-13 | the slot is below the table size and is the remainder of the address divided by it (the same `_index` in all three classes) |
| `Branch.Sign` | predictors/perceptron_predictor.py:47 | an outcome encodes as +1 or -1, positive exactly when taken |
| `Branch.Saturate` | predictors/two_bit_predictor.py:24-27 | a 2-bit counter stays in [0,3]; it moves up one step on taken and down one step on not-taken, unless it is already at 3 (up) or 0 (down) |
| `TwoBit.Trained` | predictors/two_bit_predictor.py:20-29 | training keeps the table length, keeps every counter in [0,3], and leaves every slot except `addr % size` unchanged |
| `TwoBit.StateAfter` | predictors/two_bit_predictor.py:40-45 | after any sequence of updates the table keeps its length and every counter stays in [0,3] |
| `TwoBit.Hits` | predictors/two_bit_predictor.py:40-45 | the number of correct predictions never exceeds the number of events |
| `TwoBit.TakenStreamClimbs` | predictors/two_bit_predictor.py:24-25 | a stream of taken events at one slot raises that counter to min(c + k, 3) after k events |
| `TwoBit.TakenStreamFromInitial` | predictors/two_bit_predictor.py:10-25 | from the initial value 1, a taken stream at one slot reaches 3 after two updates and stays there; every prediction after the first event is taken |
| `TwoBit.ExampleTrajectory` | predictors/two_bit_predictor.py:15-29 | one-entry table, outcomes T,T,N,T,T: the counter goes 1→2→3→2→3→3, the predictions are F,T,T,T,T, and 3 are correct |
| `TwoBit.ExampleRun` | predictors/two_bit_predictor.py:37-48 | run_trace on a freshly built one-entry predictor with that trace returns correct = 3 and total = 5 |
| `TwoBit.TwoBitPredictor.constructor` | predictors/two_bit_predictor.py:8-10 | every counter starts at 1 |
| `TwoBit.TwoBitPredictor.Predict` | predictors/two_bit_predictor.py:15-18 | returns true exactly when `counters[addr % table_size] >= 2`; it changes no state |
| `TwoBit.TwoBitPredictor.Update` | predictors/two_bit_predictor.py:20-29 | the counter of `addr % table_size` becomes min(c+1,3) on taken and max(c-1,0) otherwise; the other counters are unchanged and all stay in [0,3] |
| `TwoBit.TwoBitPredictor.RunTrace` | predictors/two_bit_predictor.py:31-48 | total = number of events and correct ≤ total (both 0 on an empty trace); correct and the final table are exactly `Hits` and `StateAfter` of the ordered predict-then-update fold |
| `Perceptron.Threshold` | predictors/perceptron_predictor.py:26 | the threshold is the integer part of 1.93·H + 14, computed exactly |
| `Perceptron.TrainFires` | predictors/perceptron_predictor.py:50 | training fires exactly on a misprediction (sign of output differs from the outcome) or when abs(output) < threshold |
| `Perceptron.TrainedRow` | predictors/perceptron_predictor.py:52-57 | a training step keeps the row length; with a ±1 history and a ±1 outcome, every weight moves by exactly one |
| `Perceptron.Shifted` | predictors/perceptron_predictor.py:60 | the shift keeps the GHR length and keeps every entry ±1 |
| `Perceptron.Initial` | predictors/perceptron_predictor.py:19-23 | the initial state has N rows and a GHR of length H, all ±1 |
| `Perceptron.Trained` | predictors/perceptron_predictor.py:43-60 | one update keeps the shape; the new `ghr[0]` is the outcome as ±1 and `ghr[1..]` is the old `ghr[..H-1]`, whether or not training fired; rows other than `addr % N` are unchanged; no row changes when training does not fire; no weight moves by more than one |
| `Perceptron.StateAfter` | predictors/perceptron_predictor.py:62-71 | after any trace the GHR has length H with ±1 entries, and every row keeps length H+1 |
| `Perceptron.Hits` | predictors/perceptron_predictor.py:62-74 | the number of correct predictions never exceeds the number of events |
| `Perceptron.PartialDotTrained` | predictors/perceptron_predictor.py:52-57 | after training on history h, the partial dot product over the first k history entries gains a·k |
| `Perceptron.TrainingShiftsOutput` | predictors/perceptron_predictor.py:50-57 | training on a history moves the output on that same history towards the outcome by exactly H + 1 |
| `Perceptron.HistoryIsWindow` | predictors/perceptron_predictor.py:60 | after any trace, GHR entry j is the outcome from j events back; if the trace is shorter than j+1 events, it is the initial entry shifted along; training never affects it |
| `Perceptron.InitialPredictsTaken` | predictors/perceptron_predictor.py:19-41 | with all-zero initial weights the output is 0 at every address, so the first prediction is taken whatever the all-+1 GHR holds |
| `Perceptron.BiasNeverDecreases` | predictors/perceptron_predictor.py:47-53 | under a trace of taken events no row's bias ever decreases |
| `Perceptron.PerceptronPredictor.constructor` | predictors/perceptron_predictor.py:15-26 | all weights start at 0, the GHR at all +1, and the threshold is fixed by H |
| `Perceptron.PerceptronPredictor.Predict` | predictors/perceptron_predictor.py:31-41 | the loop computes `output = w[0] + Σ_{i<H} w[i+1]*ghr[i]` for row `addr % N` and predicts `output >= 0`; it changes no state |
| `Perceptron.PerceptronPredictor.Update` | predictors/perceptron_predictor.py:43-60 | when training fires, `w[0] += actual` and `w[i+1] += actual*ghr_old[i]`; otherwise and in other rows the weights stay the same; then the GHR drops its oldest entry and takes the outcome at the front |
| `Perceptron.PerceptronPredictor.TrainRow` | predictors/perceptron_predictor.py:52-57 | the in-place bias and weight loop leaves row idx equal to the trained row and changes no other row |
| `Perceptron.PerceptronPredictor.RunTrace` | predictors/perceptron_predictor.py:62-74 | total = number of events and correct ≤ total; each update gets the output just predicted on the current state, and the results are exactly `Hits` and `StateAfter` |
| `Hybrid.SelectorNext` | predictors/hybrid_predictor.py:49-56 | perceptron right and two-bit wrong: the selector moves up one step (saturating at 3); two-bit right and perceptron wrong: down one step (floor 0); both right or both wrong: unchanged; it stays in [0,3] |
| `Hybrid.Initial` | predictors/hybrid_predictor.py:14-23 | the initial hybrid state is well formed, with one selector per table slot |
| `Hybrid.PredictionOf` | predictors/hybrid_predictor.py:28-39 | returns both sub-predictions and the perceptron output unaltered; final is the perceptron's prediction exactly when the selector of addr is at least 2, and the two-bit prediction otherwise |
| `Hybrid.Trained` | predictors/hybrid_predictor.py:41-56 | both sub-predictors always learn the actual outcome; the selector of addr takes the tournament-rule value `SelectorNext` of the given sub-predictions; every other selector is unchanged; selectors stay in [0,3] |
| `Hybrid.StateAfter` | predictors/hybrid_predictor.py:58-69 | after any trace every counter and selector is in [0,3] and all tables keep their size |
| `Hybrid.Hits` | predictors/hybrid_predictor.py:58-72 | the number of correct final predictions never exceeds the number of events |
| `Hybrid.SubPredictorsRunAlone` | predictors/hybrid_predictor.py:44-46 | inside a hybrid, the counter table and the perceptron evolve exactly as if each ran the trace alone: the selector never affects them |
| `Hybrid.SelectorClimbs` | predictors/hybrid_predictor.py:52-53 | if at every event of one slot the perceptron is right and the two-bit predictor wrong, that selector is min(s + k, 3) after k events of that slot; events at other slots may interleave freely and leave it alone |
| `Hybrid.SelectorConverges` | predictors/hybrid_predictor.py:22-53 | starting from the initial selector value 1, in that situation the selector is 2 after the first event of its slot, 3 after the second, and stays at 3 |
| `Hybrid.MixedTraceClimbs` | predictors/hybrid_predictor.py:14-56 | a freshly built hybrid (2 slots, H = 2, threshold 17) meets that hypothesis at slot 0 on the trace (0,T), (1,N), (1,N), (0,N), and its slot-0 selector goes 1→2→3 |
| `Hybrid.HybridPredictor.constructor` | predictors/hybrid_predictor.py:14-23 | builds both sub-predictors with the given sizes; every selector starts at 1 |
| `Hybrid.HybridPredictor.Predict` | predictors/hybrid_predictor.py:28-39 | returns exactly `PredictionOf` of the current state, with final chosen by `selector[addr % table_size] >= 2`; it changes no state |
| `Hybrid.HybridPredictor.Update` | predictors/hybrid_predictor.py:41-56 | updates both sub-predictors with the outcome and the selector of addr by the tournament rule; other selectors are unchanged |
| `Hybrid.HybridPredictor.RunTrace` | predictors/hybrid_predictor.py:58-72 | total = number of events and correct ≤ total; each event's predict values go to that same event's update, and the results are exactly `Hits` and `StateAfter` |

## Left out

- Accuracy as a floating-point ratio (`correct / total`, or `0`/`0.0` for an empty trace): every `RunTrace` returns only `(correct, total)`. An empty trace gives `(0, 0)`.
- `Perceptron.Threshold`: Python computes `int(1.93 * H + 14)` in binary floating point. The model uses the exact value `(193·H + 1400) / 100`. Where floating-point rounding would land just below an integer, the two could differ; no such case is analysed.
- Degenerate configurations: `table_size`, `num_perceptrons` and `history_length` must be at least 1, as constructor preconditions. With `H = 0` the source's GHR shift would grow the register to length 1. With size 0, `addr % 0` raises an error.
- Addresses are natural numbers. A negative address is not modelled; the source's loader could produce one from a signed hex string.
- The in-place row update: the source mutates the row through an alias (`w = self.weights[idx]`). The model writes the same cells of a two-dimensional weight array. Aliasing between rows therefore cannot arise and is not modelled.
- Python presentation details: default constructor arguments, `__main__` blocks, and the nested-tuple return shape of the hybrid `predict`. The hybrid prediction is the `Prediction` record.
- The trace loader (`utils/trace_loader.py`): file I/O and Python string and integer parsing. The trace is an input `seq<Event>`.
- The trace generator (`generate_traces.py`): randomness and file output, no predictor logic.
- The experiment driver (`final code to run/run_all.py`): it prints reports and computes MPKI/CPI from `(correct, total)` outside the predictors.
