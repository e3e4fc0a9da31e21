/** Small numeric vocabulary shared by the replay buffer and the networks:
    an Option type, absolute value, the max-reduction (value and first
    index), sums and a constant shift of a vector. */
module Numerics {

  datatype Option<+T> = None | Some(value: T)

  function Abs(x: real): (r: real)
    ensures r >= 0.0
    ensures r == x || r == -x
  {
    if x < 0.0 then -x else x
  }

  /** Index of the largest element; on ties the lowest such index wins, as a
      max-reduction over a tensor dimension reports it. */
  function Argmax(s: seq<real>): (r: nat)
    requires |s| > 0
    ensures r < |s|
    ensures forall j :: 0 <= j < |s| ==> s[j] <= s[r]
    ensures forall j :: 0 <= j < r ==> s[j] < s[r]
    decreases |s|
  {
    if |s| == 1 then 0
    else
      var k := Argmax(s[1..]) + 1;
      assert s[1..][k - 1] == s[k];
      if s[0] >= s[k] then 0 else k
  }

  /** The first-index characterisation determines the index uniquely. */
  lemma ArgmaxUnique(s: seq<real>, r: nat)
    requires r < |s|
    requires forall j :: 0 <= j < |s| ==> s[j] <= s[r]
    requires forall j :: 0 <= j < r ==> s[j] < s[r]
    ensures r == Argmax(s)
  {
  }

  /** The largest element of a non-empty vector. */
  function Max(s: seq<real>): (m: real)
    requires |s| > 0
    ensures forall j :: 0 <= j < |s| ==> s[j] <= m
    ensures exists j :: 0 <= j < |s| && s[j] == m
  {
    s[Argmax(s)]
  }

  function SeqSum(s: seq<real>): real
  {
    if |s| == 0 then 0.0 else s[0] + SeqSum(s[1..])
  }

  /** Every element of `s` moved by the same amount `c`. */
  function Shift(s: seq<real>, c: real): (r: seq<real>)
    ensures |r| == |s|
  {
    seq(|s|, k requires 0 <= k < |s| => s[k] + c)
  }

  /** Sum of all entries of a matrix, row by row. */
  function MatrixSum(m: seq<seq<real>>): real
  {
    if |m| == 0 then 0.0 else SeqSum(m[0]) + MatrixSum(m[1..])
  }

  /** `k` copies of `x` added up: `k * x` written so that sums of shifted
      vectors stay linear for the solver. */
  function Times(k: nat, x: real): real
  {
    if k == 0 then 0.0 else x + Times(k - 1, x)
  }

  lemma {:induction false} TimesIsProduct(k: nat, x: real)
    ensures Times(k, x) == k as real * x
  {
    if k > 0 {
      TimesIsProduct(k - 1, x);
    }
  }

  lemma {:induction false} TimesAdd(k: nat, x: real, y: real)
    ensures Times(k, x + y) == Times(k, x) + Times(k, y)
  {
    if k > 0 {
      TimesAdd(k - 1, x, y);
    }
  }

  /** Shifting a vector by `c` adds `|s|` copies of `c` to its sum. */
  lemma {:induction false} SumShift(s: seq<real>, c: real)
    ensures SeqSum(Shift(s, c)) == SeqSum(s) + Times(|s|, c)
    decreases |s|
  {
    if |s| > 0 {
      assert Shift(s, c)[1..] == Shift(s[1..], c);
      SumShift(s[1..], c);
    }
  }

  /** A constant shift does not move the first largest element. */
  lemma ArgmaxShift(s: seq<real>, c: real)
    requires |s| > 0
    ensures Argmax(Shift(s, c)) == Argmax(s)
  {
    var r := Argmax(s);
    var t := Shift(s, c);
    forall j | 0 <= j < |t| ensures t[j] <= t[r] { }
    forall j | 0 <= j < r ensures t[j] < t[r] { }
    ArgmaxUnique(t, r);
  }
}
