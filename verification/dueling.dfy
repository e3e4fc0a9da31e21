/** The dueling Q-network of the PER-D3QN agent, as a value.

    The linear layers and rectified-linear activations of the two heads are
    not modelled: a network carries its first-layer weight matrix as data
    (the one layer the agent perturbs) and its two heads as opaque functions
    of one observation. What is modelled exactly is how the heads are
    combined — `advantage + value - advantage.mean()`, where the mean is over
    the WHOLE advantage matrix of the batch, not per row — and the
    epsilon-greedy choice of `act`. */
module Dueling {
  import opened Numerics

  /** `advantage` stands for adv_fc2(relu(adv_fc1(relu(fc(x))))) and `value`
      for value_fc2(relu(value_fc1(relu(fc(x))))), both on one observation. */
  datatype Network = Network(
    fcWeight: seq<seq<real>>,
    advantage: seq<real> -> seq<real>,
    value: seq<real> -> real)

  /** The advantage head yields one entry per action. */
  ghost predicate WellFormed(net: Network, actions: nat)
  {
    forall x :: |net.advantage(x)| == actions
  }

  /** Every row of `m` has `cols` entries. */
  predicate Rectangular(m: seq<seq<real>>, cols: nat)
  {
    forall n :: 0 <= n < |m| ==> |m[n]| == cols
  }

  /** Mean of all entries of a rows-by-`cols` matrix (`tensor.mean()`). */
  function Mean(m: seq<seq<real>>, cols: nat): real
    requires |m| > 0 && cols > 0
  {
    MatrixSum(m) / |m| as real / cols as real
  }

  /** The mean times the number of entries is the total. */
  lemma MeanTimesSize(m: seq<seq<real>>, cols: nat)
    requires |m| > 0 && cols > 0
    ensures Mean(m, cols) * (|m| as real * cols as real) == MatrixSum(m)
  {
    Undivide(MatrixSum(m), |m| as real, cols as real);
  }

  lemma Undivide(t: real, n: real, c: real)
    requires n > 0.0 && c > 0.0
    ensures t / n / c * (n * c) == t
  {
    assert t / n / c * c == t / n;
    assert t / n * n == t;
  }

  /** Row `n` of `m` moved by `c[n]`. */
  function ShiftRows(m: seq<seq<real>>, c: seq<real>): (r: seq<seq<real>>)
    requires |c| == |m|
    ensures |r| == |m|
    ensures forall n :: 0 <= n < |m| ==> |r[n]| == |m[n]|
  {
    seq(|m|, n requires 0 <= n < |m| => Shift(m[n], c[n]))
  }

  /** Shifting every row of a rectangular matrix adds `cols` copies of
      `sum(c)` to its total. */
  lemma {:induction false} ShiftRowsSum(m: seq<seq<real>>, c: seq<real>, cols: nat)
    requires |c| == |m| && Rectangular(m, cols)
    ensures MatrixSum(ShiftRows(m, c)) == MatrixSum(m) + Times(cols, SeqSum(c))
    decreases |m|
  {
    if |m| > 0 {
      assert ShiftRows(m, c)[0] == Shift(m[0], c[0]);
      assert ShiftRows(m, c)[1..] == ShiftRows(m[1..], c[1..]);
      SumShift(m[0], c[0]);
      ShiftRowsSum(m[1..], c[1..], cols);
      TimesAdd(cols, c[0], SeqSum(c[1..]));
    } else {
      TimesIsProduct(cols, 0.0);
    }
  }

  /** The dueling combine as written: the advantage matrix plus the value
      column, minus the mean of the whole advantage matrix. */
  function DuelingCombine(adv: seq<seq<real>>, value: seq<real>, actions: nat): (q: seq<seq<real>>)
    requires |adv| == |value| > 0 && actions > 0 && Rectangular(adv, actions)
    ensures |q| == |adv| && Rectangular(q, actions)
  {
    ShiftRows(adv, Shift(value, -Mean(adv, actions)))
  }

  /** The textbook dueling combine, with the advantage mean taken per row
      (over the actions of one observation); a reference for comparison. */
  function RowwiseCombine(adv: seq<seq<real>>, value: seq<real>, actions: nat): (q: seq<seq<real>>)
    requires |adv| == |value| && actions > 0 && Rectangular(adv, actions)
    ensures |q| == |adv| && Rectangular(q, actions)
    ensures forall n :: 0 <= n < |q| ==> SeqSum(q[n]) == actions as real * value[n]
  {
    var q := seq(|adv|, n requires 0 <= n < |adv| => Shift(adv[n], value[n] - SeqSum(adv[n]) / actions as real));
    assert forall n :: 0 <= n < |q| ==> SeqSum(q[n]) == actions as real * value[n] by {
      forall n | 0 <= n < |q| ensures SeqSum(q[n]) == actions as real * value[n] {
        SumShift(adv[n], value[n] - SeqSum(adv[n]) / actions as real);
        TimesIsProduct(actions, value[n] - SeqSum(adv[n]) / actions as real);
      }
    }
    q
  }

  /** Over the whole batch the combine is identifiable: its entries add up
      to `actions` copies of the sum of the values, whatever the advantages
      (`Times` is that product, see TimesIsProduct). */
  lemma CombineTotal(adv: seq<seq<real>>, value: seq<real>, actions: nat)
    requires |adv| == |value| > 0 && actions > 0 && Rectangular(adv, actions)
    ensures MatrixSum(DuelingCombine(adv, value, actions)) == Times(actions, SeqSum(value))
  {
    var m := Mean(adv, actions);
    SumShift(value, -m);
    ShiftRowsSum(adv, Shift(value, -m), actions);
    MeanCancels(MatrixSum(adv), actions, |adv|, SeqSum(value), m, -m);
  }

  /** The real arithmetic behind CombineTotal: `actions` copies of the values
      moved down by the mean win back exactly the advantage total. */
  lemma MeanCancels(total: real, actions: nat, rows: nat, sv: real, m: real, c: real)
    requires actions > 0 && rows > 0 && m == total / rows as real / actions as real && c == -m
    ensures total + Times(actions, sv + Times(rows, c)) == Times(actions, sv)
  {
    var a, n := actions as real, rows as real;
    TimesIsProduct(rows, c);
    TimesIsProduct(actions, sv + Times(rows, c));
    TimesIsProduct(actions, sv);
    assert m * a == total / n;
    assert (m * a) * n == total;
    assert a * (sv + n * c) == a * sv - (m * a) * n;
  }

  /** Row by row, the combine as written differs from the per-row textbook
      combine by the row's advantage mean minus the batch's. */
  lemma CombineVersusRowwise(adv: seq<seq<real>>, value: seq<real>, actions: nat, n: nat)
    requires |adv| == |value| > 0 && actions > 0 && Rectangular(adv, actions)
    requires n < |adv|
    ensures DuelingCombine(adv, value, actions)[n]
         == Shift(RowwiseCombine(adv, value, actions)[n], SeqSum(adv[n]) / actions as real - Mean(adv, actions))
  {
  }

  lemma {:induction false} MatrixSumUniform(m: seq<seq<real>>, row: seq<real>)
    requires forall n :: 0 <= n < |m| ==> m[n] == row
    ensures MatrixSum(m) == |m| as real * SeqSum(row)
    decreases |m|
  {
    if |m| > 0 {
      MatrixSumUniform(m[1..], row);
    }
  }

  /** The mean of `rows` equal rows of sum `s` is the mean of one row. */
  lemma MeanOfEqualRows(total: real, rows: real, actions: real, s: real)
    requires rows > 0.0 && actions > 0.0 && total == rows * s
    ensures total / rows / actions == s / actions
  {
    assert total / rows == s;
  }

  /** When every row of the advantage matrix is the same (a batch of one
      observation, or of equal observations), the batch mean is the row mean
      and the combine as written is the textbook one. */
  lemma CombineUniformRows(adv: seq<seq<real>>, value: seq<real>, actions: nat)
    requires |adv| == |value| > 0 && actions > 0 && Rectangular(adv, actions)
    requires forall n :: 0 <= n < |adv| ==> adv[n] == adv[0]
    ensures DuelingCombine(adv, value, actions) == RowwiseCombine(adv, value, actions)
  {
    MatrixSumUniform(adv, adv[0]);
    MeanOfEqualRows(MatrixSum(adv), |adv| as real, actions as real, SeqSum(adv[0]));
    var q, r := DuelingCombine(adv, value, actions), RowwiseCombine(adv, value, actions);
    forall n | 0 <= n < |adv| ensures q[n] == r[n] {
      CombineRowAtMean(adv, value, actions, n);
    }
  }

  /** A row whose advantage mean is the batch mean is combined as the
      textbook combine would. */
  lemma CombineRowAtMean(adv: seq<seq<real>>, value: seq<real>, actions: nat, n: nat)
    requires |adv| == |value| > 0 && actions > 0 && Rectangular(adv, actions)
    requires n < |adv| && SeqSum(adv[n]) / actions as real == Mean(adv, actions)
    ensures DuelingCombine(adv, value, actions)[n] == RowwiseCombine(adv, value, actions)[n]
  {
    CombineVersusRowwise(adv, value, actions, n);
    var row := RowwiseCombine(adv, value, actions)[n];
    assert Shift(row, 0.0) == row;
  }

  /** The combine shifts each row by one constant, so the greedy action of a
      row is the greedy action of its advantages: the value head never
      decides it. */
  lemma CombineKeepsGreedy(adv: seq<seq<real>>, value: seq<real>, actions: nat, n: nat)
    requires |adv| == |value| > 0 && actions > 0 && Rectangular(adv, actions)
    requires n < |adv|
    ensures Argmax(DuelingCombine(adv, value, actions)[n]) == Argmax(adv[n])
  {
    ArgmaxShift(adv[n], value[n] - Mean(adv, actions));
  }

  function Advantages(net: Network, obs: seq<seq<real>>): seq<seq<real>>
  {
    seq(|obs|, n requires 0 <= n < |obs| => net.advantage(obs[n]))
  }

  function Values(net: Network, obs: seq<seq<real>>): seq<real>
  {
    seq(|obs|, n requires 0 <= n < |obs| => net.value(obs[n]))
  }

  /** `forward` on a batch of observations: one row of action values each. */
  function Forward(net: Network, actions: nat, obs: seq<seq<real>>): (q: seq<seq<real>>)
    requires WellFormed(net, actions) && actions > 0 && |obs| > 0
    ensures |q| == |obs| && Rectangular(q, actions)
  {
    DuelingCombine(Advantages(net, obs), Values(net, obs), actions)
  }

  /** A batch of N equal observations gets the textbook per-row combine, so
      each row's action values average to that row's value. */
  lemma ForwardUniformBatch(net: Network, actions: nat, obs: seq<seq<real>>)
    requires WellFormed(net, actions) && actions > 0 && |obs| > 0
    requires forall n :: 0 <= n < |obs| ==> obs[n] == obs[0]
    ensures var q := Forward(net, actions, obs);
      forall n :: 0 <= n < |q| ==> SeqSum(q[n]) == actions as real * net.value(obs[n])
  {
    var adv := Advantages(net, obs);
    CombineUniformRows(adv, Values(net, obs), actions);
  }

  /** `act`: explore with the uniform draw `randomAction` unless the uniform
      number `u` exceeds `epsilon`, in which case take the first action of
      largest value. */
  function Act(q: seq<real>, epsilon: real, u: real, randomAction: nat): (a: nat)
    requires |q| > 0 && randomAction < |q|
    ensures a < |q|
    ensures u > epsilon ==> (forall j :: 0 <= j < |q| ==> q[j] <= q[a]) && (forall j :: 0 <= j < a ==> q[j] < q[a])
    ensures u <= epsilon ==> a == randomAction
  {
    if u > epsilon then Argmax(q) else randomAction
  }

  /** Acting on one observation: the greedy action is the first largest
      advantage; the value head plays no part in the choice. */
  lemma ActIgnoresValueHead(net: Network, actions: nat, x: seq<real>, epsilon: real, u: real, randomAction: nat)
    requires WellFormed(net, actions) && actions > 0 && randomAction < actions
    ensures Act(Forward(net, actions, [x])[0], epsilon, u, randomAction)
         == Act(net.advantage(x), epsilon, u, randomAction)
  {
    var adv := Advantages(net, [x]);
    assert adv[0] == net.advantage(x);
    CombineKeepsGreedy(adv, Values(net, [x]), actions, 0);
  }

  /** `random.random()` lies in [0, 1): with `epsilon >= 1` every action is
      random, and even with `epsilon == 0` a draw of exactly 0.0 is not
      greater than `epsilon`, so it too picks the random action. */
  lemma ActEpsilonEdges(q: seq<real>, u: real, randomAction: nat)
    requires |q| > 0 && randomAction < |q| && 0.0 <= u < 1.0
    ensures forall epsilon :: epsilon >= 1.0 ==> Act(q, epsilon, u, randomAction) == randomAction
    ensures u == 0.0 ==> Act(q, 0.0, u, randomAction) == randomAction
    ensures u > 0.0 ==> Act(q, 0.0, u, randomAction) == Argmax(q)
  {
  }
}
