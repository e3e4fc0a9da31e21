/** The prioritized experience replay buffer of the PER-D3QN agent: a
    fixed-capacity circular store of transitions with a parallel array of
    priorities indexed by the write position.

    The buffer's abstract value is a `BufferState`; the functions on it
    (`Stored`, `ApplyUpdates`, `NextBeta`) are the specification that the
    methods of `PrioritizedReplayBuffer` are proved against, and the lemmas
    state what the circular store promises over many calls. */
module ReplayBuffer {
  import opened Numerics

  /** One environment step as it is stored. */
  datatype Transition = Transition(
    observation: seq<real>,
    action: int,
    reward: real,
    nextObservation: seq<real>,
    done: bool)

  /** What `sample` hands back: the drawn slot indices and the transitions
      gathered from them (importance weights are not modelled). */
  datatype Batch = Batch(indices: seq<int>, transitions: seq<Transition>)

  /** The part of a buffer that `store` and `update_priorities` change. */
  datatype BufferState = BufferState(
    capacity: nat,
    memory: seq<Transition>,
    priorities: seq<real>,
    pos: nat)

  /** The circular-store invariant: never more transitions than slots, the
      write position is a slot, and until the store is full it points just
      past the last transition. */
  predicate Inv(s: BufferState)
  {
    && |s.priorities| == s.capacity
    && |s.memory| <= s.capacity
    && (if s.capacity == 0 then s.pos == 0 else s.pos < s.capacity)
    && (|s.memory| < s.capacity ==> s.pos == |s.memory|)
  }

  /** A freshly constructed buffer: no transitions, every priority zero. */
  function Empty(capacity: nat): (s: BufferState)
    ensures Inv(s) && s.capacity == capacity && s.memory == [] && s.pos == 0
    ensures forall k :: 0 <= k < capacity ==> s.priorities[k] == 0.0
  {
    BufferState(capacity, [], seq(capacity, _ => 0.0), 0)
  }

  /** One `store`: append while there is room, otherwise overwrite the slot at
      the write position; that slot gets the largest priority of the whole
      priority array (1.0 while nothing is stored); the position advances
      modulo the capacity. */
  function Stored(s: BufferState, t: Transition): (r: BufferState)
    requires Inv(s) && s.capacity > 0
    ensures Inv(r) && r.capacity == s.capacity
    ensures |r.memory| == if |s.memory| < s.capacity then |s.memory| + 1 else s.capacity
    ensures r.memory[s.pos] == t
    ensures forall k :: 0 <= k < |s.memory| && k != s.pos ==> r.memory[k] == s.memory[k]
    ensures forall k :: 0 <= k < s.capacity && k != s.pos ==> r.priorities[k] == s.priorities[k]
  {
    var maxPrior := if |s.memory| > 0 then Max(s.priorities) else 1.0;
    var memory := if |s.memory| < s.capacity then s.memory + [t] else s.memory[s.pos := t];
    ModStep(s.pos, s.capacity);
    BufferState(s.capacity, memory, s.priorities[s.pos := maxPrior], (s.pos + 1) % s.capacity)
  }

  /** `ts` stored one after the other, in order. */
  function StoreAll(s: BufferState, ts: seq<Transition>): (r: BufferState)
    requires Inv(s) && s.capacity > 0
    ensures Inv(r) && r.capacity == s.capacity
    decreases |ts|
  {
    if |ts| == 0 then s else Stored(StoreAll(s, ts[..|ts| - 1]), ts[|ts| - 1])
  }

  lemma MulAtLeast(a: int, c: int)
    requires a >= 1 && c > 0
    ensures a * c >= c
  {
  }

  lemma MulNonPositive(a: int, c: int)
    requires a <= 0 && c > 0
    ensures a * c <= 0
  {
  }

  /** `x = q*c + r` with `0 <= r < c` pins down `x % c`. */
  lemma ModUnique(x: int, c: int, q: int, r: int)
    requires c > 0 && 0 <= r < c && x == q * c + r
    ensures x % c == r
  {
    var q', r' := x / c, x % c;
    assert x == q' * c + r';
    assert (q - q') * c == r' - r;
    if q > q' {
      MulAtLeast(q - q', c);
    } else if q < q' {
      MulAtLeast(q' - q, c);
    }
  }

  /** Advancing a slot index modulo the capacity wraps only at the end. */
  lemma ModStep(p: nat, c: nat)
    requires p < c
    ensures (p + 1) % c == if p + 1 == c then 0 else p + 1
  {
    if p + 1 == c {
      ModUnique(p + 1, c, 1, 0);
    } else {
      ModUnique(p + 1, c, 0, p + 1);
    }
  }

  lemma ModSucc(n: nat, c: nat)
    requires c > 0
    ensures (n % c + 1) % c == (n + 1) % c
  {
    var q, r := n / c, n % c;
    assert n == q * c + r;
    ModStep(r, c);
    if r + 1 < c {
      ModUnique(n + 1, c, q, r + 1);
    } else {
      assert (q + 1) * c == q * c + c;
      ModUnique(n + 1, c, q + 1, 0);
    }
  }

  /** Two positions fewer than `c` apart never share a slot. */
  lemma ModDistinct(j: nat, n: nat, c: nat)
    requires c > 0 && j < n && n - j < c
    ensures j % c != n % c
  {
    var qj, qn := j / c, n / c;
    assert j == qj * c + j % c;
    assert n == qn * c + n % c;
    if j % c == n % c {
      assert n - j == qn * c - qj * c;
      assert qn * c - qj * c == (qn - qj) * c;
      if qn - qj >= 1 {
        MulAtLeast(qn - qj, c);
      } else {
        MulNonPositive(qn - qj, c);
      }
    }
  }

  /** What the store-after-`n`-stores picture looks like for a state. */
  predicate HoldsLast(r: BufferState, c: nat, ts: seq<Transition>)
    requires c > 0
  {
    && |r.memory| == (if |ts| < c then |ts| else c)
    && r.pos == |ts| % c
    && forall j :: 0 <= j < |ts| && |ts| - c <= j ==> j % c < |r.memory| && r.memory[j % c] == ts[j]
  }

  /** One more store keeps the picture, with the new transition appended. */
  lemma StoreStep(prev: BufferState, c: nat, front: seq<Transition>, t: Transition)
    requires c > 0 && Inv(prev) && prev.capacity == c
    requires HoldsLast(prev, c, front)
    ensures HoldsLast(Stored(prev, t), c, front + [t])
  {
    var n := |front|;
    var ts := front + [t];
    var r := Stored(prev, t);
    ModSucc(n, c);
    assert r.pos == (n + 1) % c;
    forall j | 0 <= j < |ts| && |ts| - c <= j
      ensures j % c < |r.memory| && r.memory[j % c] == ts[j]
    {
      if j < n {
        ModDistinct(j, n, c);
        assert front[j] == ts[j];
      } else {
        assert ts[j] == t;
      }
    }
  }

  /** After storing `ts` into an empty buffer of capacity `c`: the length is
      `min(|ts|, c)`, the write position is `|ts| mod c`, and the last `c`
      transitions sit in the slots `j mod c` — every older one was overwritten
      by a newer one, oldest first. */
  lemma {:induction false} StoreAllFromEmpty(c: nat, ts: seq<Transition>)
    requires c > 0
    ensures HoldsLast(StoreAll(Empty(c), ts), c, ts)
    decreases |ts|
  {
    if |ts| == 0 {
      assert 0 % c == 0;
    } else {
      var front := ts[..|ts| - 1];
      StoreAllFromEmpty(c, front);
      StoreStep(StoreAll(Empty(c), front), c, front, ts[|ts| - 1]);
      assert front + [ts[|ts| - 1]] == ts;
    }
  }

  /** The example of a capacity-4 buffer given five transitions: four are
      kept, the fifth sits in slot 0 and the write position moved to slot 1. */
  lemma FiveStoresIntoFourSlots(ts: seq<Transition>)
    requires |ts| == 5
    ensures var r := StoreAll(Empty(4), ts);
      |r.memory| == 4 && r.memory == [ts[4], ts[1], ts[2], ts[3]] && r.pos == 1
  {
    StoreAllFromEmpty(4, ts);
    var r := StoreAll(Empty(4), ts);
    assert 4 % 4 == 0 && 1 % 4 == 1 && 2 % 4 == 2 && 3 % 4 == 3 && 5 % 4 == 1;
    assert r.memory[0] == ts[4] && r.memory[1] == ts[1] && r.memory[2] == ts[2] && r.memory[3] == ts[3];
  }

  /** Once the store is full, the write position holds the oldest
      transition still kept, so the next store overwrites exactly that one. */
  lemma FullStoreOverwritesOldest(c: nat, ts: seq<Transition>)
    requires c > 0 && |ts| >= c
    ensures var r := StoreAll(Empty(c), ts);
      |r.memory| == c && r.memory[r.pos] == ts[|ts| - c]
  {
    StoreAllFromEmpty(c, ts);
    ModBack(|ts|, c);
    var j := |ts| - c;
    assert j % c < c && StoreAll(Empty(c), ts).memory[j % c] == ts[j];
  }

  lemma ModBack(n: nat, c: nat)
    requires c > 0 && n >= c
    ensures (n - c) % c == n % c
  {
    var q, m := n / c, n % c;
    assert n == q * c + m;
    assert (q - 1) * c == q * c - c;
    ModUnique(n - c, c, q - 1, m);
  }

  /** The stored entry's priority is at least every priority in the array
      afterwards, as long as the empty-buffer default 1.0 is not below the
      priorities already there. */
  lemma StoredPriorityIsLargest(s: BufferState, t: Transition)
    requires Inv(s) && s.capacity > 0
    requires |s.memory| == 0 ==> forall k :: 0 <= k < s.capacity ==> s.priorities[k] <= 1.0
    ensures var r := Stored(s, t);
      forall k :: 0 <= k < r.capacity ==> r.priorities[k] <= r.priorities[s.pos]
  {
  }

  /** The stored entry's priority is the largest priority before the store,
      or 1.0 when nothing was stored yet. */
  lemma StoredPriority(s: BufferState, t: Transition)
    requires Inv(s) && s.capacity > 0
    ensures var p := Stored(s, t).priorities[s.pos];
      if |s.memory| == 0 then p == 1.0
      else
        && (forall k :: 0 <= k < s.capacity ==> s.priorities[k] <= p)
        && (exists k :: 0 <= k < s.capacity && s.priorities[k] == p)
  {
  }

  /** numpy-style position of index `idx` in an array of length `n`: negative
      indices count from the end, anything else outside the array raises
      IndexError (None). */
  function Slot(idx: int, n: nat): (r: Option<nat>)
    ensures r.Some? <==> -(n as int) <= idx < n
    ensures r.Some? ==> r.value < n && (r.value == idx || r.value == idx + n)
  {
    if 0 <= idx < n then Some(idx)
    else if -(n as int) <= idx < 0 then Some((idx + n) as nat)
    else None
  }

  /** Number of (index, priority) pairs that `zip` produces. */
  function Pairs(indices: seq<int>, prios: seq<real>): nat
  {
    if |indices| < |prios| then |indices| else |prios|
  }

  /** True when no index of a zipped pair is out of range. */
  predicate AllInRange(indices: seq<int>, prios: seq<real>, n: nat)
  {
    forall k :: 0 <= k < Pairs(indices, prios) ==> Slot(indices[k], n).Some?
  }

  /** The priority array after writing `prios[k]` at `indices[k]` for the
      zipped pairs in order, stopping at the first index out of range. */
  function ApplyUpdates(p: seq<real>, indices: seq<int>, prios: seq<real>): (r: seq<real>)
    ensures |r| == |p|
    decreases |indices|
  {
    if |indices| == 0 || |prios| == 0 then p
    else match Slot(indices[0], |p|)
      case None => p
      case Some(k) => ApplyUpdates(p[k := prios[0]], indices[1..], prios[1..])
  }

  /** A slot that no zipped index names keeps its priority. */
  lemma {:induction false} UpdatesFrame(p: seq<real>, indices: seq<int>, prios: seq<real>, s: nat)
    requires s < |p|
    requires forall k :: 0 <= k < Pairs(indices, prios) ==> Slot(indices[k], |p|) != Some(s)
    ensures ApplyUpdates(p, indices, prios)[s] == p[s]
    decreases |indices|
  {
    if |indices| > 0 && |prios| > 0 {
      match Slot(indices[0], |p|)
      case None =>
      case Some(k) =>
        assert Slot(indices[0], |p|) != Some(s);
        forall j | 0 <= j < Pairs(indices[1..], prios[1..])
          ensures Slot(indices[1..][j], |p|) != Some(s)
        {
          assert indices[1..][j] == indices[j + 1];
        }
        UpdatesFrame(p[k := prios[0]], indices[1..], prios[1..], s);
    }
  }

  /** When every index is in range, the slot of pair `k` ends with `prios[k]`
      unless a later pair names the same slot: the last write wins. */
  lemma {:induction false} UpdatesLastWins(p: seq<real>, indices: seq<int>, prios: seq<real>, k: nat)
    requires k < Pairs(indices, prios)
    requires AllInRange(indices, prios, |p|)
    requires forall j :: k < j < Pairs(indices, prios) ==> Slot(indices[j], |p|) != Slot(indices[k], |p|)
    ensures ApplyUpdates(p, indices, prios)[Slot(indices[k], |p|).value] == prios[k]
    decreases k
  {
    var first := Slot(indices[0], |p|).value;
    var p' := p[first := prios[0]];
    var s := Slot(indices[k], |p|).value;
    assert ApplyUpdates(p, indices, prios) == ApplyUpdates(p', indices[1..], prios[1..]);
    if k == 0 {
      forall j | 0 <= j < Pairs(indices[1..], prios[1..])
        ensures Slot(indices[1..][j], |p'|) != Some(s)
      {
        assert indices[1..][j] == indices[j + 1];
      }
      UpdatesFrame(p', indices[1..], prios[1..], s);
    } else {
      forall j | 0 <= j < Pairs(indices[1..], prios[1..])
        ensures Slot(indices[1..][j], |p'|).Some?
      {
        assert indices[1..][j] == indices[j + 1];
      }
      forall j | k - 1 < j < Pairs(indices[1..], prios[1..])
        ensures Slot(indices[1..][j], |p'|) != Slot(indices[1..][k - 1], |p'|)
      {
        assert indices[1..][j] == indices[j + 1];
      }
      UpdatesLastWins(p', indices[1..], prios[1..], k - 1);
    }
  }

  /** The transitions at the drawn slots, in draw order. */
  function Gather(memory: seq<Transition>, draw: seq<int>): (r: seq<Transition>)
    requires forall k :: 0 <= k < |draw| ==> 0 <= draw[k] < |memory|
    ensures |r| == |draw|
    ensures forall k :: 0 <= k < |draw| ==> r[k] == memory[draw[k]]
  {
    seq(|draw|, k requires 0 <= k < |draw| => memory[draw[k]])
  }

  /** `np.concatenate` of the drawn observations, and of the drawn next
      observations, needs all of them to have one length. */
  predicate Concatenable(batch: seq<Transition>)
  {
    forall k :: 0 <= k < |batch| ==>
      |batch[k].observation| == |batch[0].observation| && |batch[k].nextObservation| == |batch[0].nextObservation|
  }

  /** The priorities the sampling distribution is built from: the occupied
      prefix while the buffer is filling, the whole array once it is full. */
  function SamplingPriorities(s: BufferState): (r: seq<real>)
    requires Inv(s)
    ensures r == s.priorities[..|s.memory|]
  {
    if |s.memory| < s.capacity then s.priorities[..|s.memory|] else s.priorities
  }

  /** `alpha` is a whole number. */
  predicate WholeExponent(alpha: real)
  {
    alpha == alpha.Floor as real
  }

  /** `alpha` is an even whole number. */
  predicate EvenExponent(alpha: real)
  {
    WholeExponent(alpha) && alpha.Floor % 2 == 0
  }

  /** `x ** alpha` is a finite number: a zero to a negative power is
      infinity, a negative number to a fractional power NaN (any number to
      the power 0 is 1). */
  predicate PowerDefined(x: real, alpha: real)
  {
    alpha == 0.0 || (x > 0.0 || (x == 0.0 && alpha > 0.0) || (x < 0.0 && WholeExponent(alpha)))
  }

  /** The sign of `x ** alpha` where it is defined: 1 for `alpha == 0`;
      otherwise that of `x`, made positive by an even whole exponent. */
  function PowerSign(x: real, alpha: real): (r: int)
    ensures -1 <= r <= 1
    ensures r == 0 <==> alpha != 0.0 && x == 0.0
  {
    if alpha == 0.0 || x > 0.0 then 1
    else if x == 0.0 then 0
    else if EvenExponent(alpha) then 1
    else -1
  }

  /** The sampling probabilities `p ** alpha / sum(p ** alpha)` are well
      defined: every power is a finite number, and all of them have one sign
      (all >= 0 with one > 0, or all <= 0 with one < 0), so that the
      normalised vector is a distribution. With `alpha == 0` every entry
      becomes 1, so any non-empty vector will do. Otherwise the normalised
      vector holds NaN or a negative entry, and drawing raises ValueError. */
  predicate Drawable(p: seq<real>, alpha: real)
  {
    && |p| > 0
    && (forall k :: 0 <= k < |p| ==> PowerDefined(p[k], alpha))
    && (|| ((forall k :: 0 <= k < |p| ==> PowerSign(p[k], alpha) >= 0) && (exists k :: 0 <= k < |p| && PowerSign(p[k], alpha) > 0))
        || ((forall k :: 0 <= k < |p| ==> PowerSign(p[k], alpha) <= 0) && (exists k :: 0 <= k < |p| && PowerSign(p[k], alpha) < 0)))
  }

  /** Under a well-defined distribution, a slot of this priority has
      positive probability: every slot when `alpha == 0`, otherwise the slots
      of non-zero priority (their powers share the sign of the sum). */
  predicate Possible(priority: real, alpha: real)
  {
    alpha == 0.0 || priority != 0.0
  }

  /** Drawability of a two-entry vector, spelled out. */
  lemma DrawableTwo(a: real, b: real, alpha: real)
    ensures Drawable([a, b], alpha) <==>
      && PowerDefined(a, alpha) && PowerDefined(b, alpha)
      && (|| (PowerSign(a, alpha) >= 0 && PowerSign(b, alpha) >= 0 && (PowerSign(a, alpha) > 0 || PowerSign(b, alpha) > 0))
          || (PowerSign(a, alpha) <= 0 && PowerSign(b, alpha) <= 0 && (PowerSign(a, alpha) < 0 || PowerSign(b, alpha) < 0)))
  {
    var p := [a, b];
    assert p[0] == a && p[1] == b;
  }

  /** Negative priorities: an even whole exponent gives a distribution; an
      odd whole one does when every priority is negative, not when the
      signs are mixed; a fractional one never does. */
  lemma NegativePriorityPowers()
    ensures Drawable([-1.0, 2.0], -2.0) && Drawable([-1.0, 2.0], 2.0)
    ensures Drawable([-1.0, -2.0], 1.0) && Drawable([-1.0, -2.0], -1.0)
    ensures !Drawable([-1.0, 2.0], -1.0) && !Drawable([-1.0, 2.0], 1.0) && !Drawable([-1.0, 2.0], 0.5)
    ensures Drawable([-1.0, 2.0], 0.0)
  {
    assert (-2.0).Floor == -2 && (2.0).Floor == 2 && (-1.0).Floor == -1 && (1.0).Floor == 1 && (0.5).Floor == 0;
    assert EvenExponent(-2.0) && EvenExponent(2.0) && !EvenExponent(1.0) && !EvenExponent(-1.0);
    assert WholeExponent(1.0) && WholeExponent(-1.0) && !WholeExponent(0.5);
    DrawableTwo(-1.0, 2.0, -2.0);
    DrawableTwo(-1.0, 2.0, 2.0);
    DrawableTwo(-1.0, -2.0, 1.0);
    DrawableTwo(-1.0, -2.0, -1.0);
    DrawableTwo(-1.0, 2.0, -1.0);
    DrawableTwo(-1.0, 2.0, 1.0);
    DrawableTwo(-1.0, 2.0, 0.5);
    DrawableTwo(-1.0, 2.0, 0.0);
  }

  /** Over non-negative priorities, drawability is the plain sign test: some
      positive priority for `alpha > 0`, all positive for `alpha < 0`. */
  lemma DrawableNonNegative(p: seq<real>, alpha: real)
    requires forall k :: 0 <= k < |p| ==> p[k] >= 0.0
    ensures alpha > 0.0 ==> (Drawable(p, alpha) <==> SomePositive(p))
    ensures alpha < 0.0 ==> (Drawable(p, alpha) <==> AllPositive(p))
  {
    if alpha > 0.0 {
      assert forall k :: 0 <= k < |p| ==> PowerDefined(p[k], alpha) && PowerSign(p[k], alpha) >= 0;
      if SomePositive(p) {
        var k :| 0 <= k < |p| && p[k] > 0.0;
        assert PowerSign(p[k], alpha) > 0;
      }
      if Drawable(p, alpha) {
        var k :| 0 <= k < |p| && PowerSign(p[k], alpha) != 0;
        assert p[k] > 0.0;
      }
    } else if alpha < 0.0 {
      assert forall k :: 0 <= k < |p| ==> (PowerDefined(p[k], alpha) <==> p[k] > 0.0);
      if AllPositive(p) {
        assert PowerSign(p[0], alpha) > 0;
      }
    }
  }

  /** The priorities a running agent keeps: none negative, and the slots no
      transition occupies yet still at their initial 0. */
  predicate Healthy(s: BufferState)
    requires Inv(s)
  {
    && (forall k :: 0 <= k < s.capacity ==> s.priorities[k] >= 0.0)
    && (forall k :: |s.memory| <= k < s.capacity ==> s.priorities[k] == 0.0)
  }

  /** A draw `np.random.choice` can return for a batch of `batchSize`: that
      many occupied slots, each of positive probability when the
      probabilities are defined at all. */
  predicate DrawFrom(s: BufferState, alpha: real, batchSize: nat, draw: seq<int>)
    requires Inv(s)
  {
    && |draw| == batchSize
    && (forall k :: 0 <= k < |draw| ==> 0 <= draw[k] < |s.memory|)
    && (Drawable(SamplingPriorities(s), alpha) ==> forall k :: 0 <= k < |draw| ==> Possible(s.priorities[draw[k]], alpha))
  }

  /** Storing keeps the priorities healthy, and keeps a healthy buffer
      drawable: the new slot gets the largest priority (1.0 in an empty
      buffer), which is positive as soon as one stored priority is. For
      `alpha >= 0` the converse holds too: once every stored priority has
      dropped to 0 (`alpha > 0`), the new slots get 0 as well and the buffer
      stays undrawable. For `alpha < 0` it does not (NegativeAlphaStoreRepairs). */
  lemma StoredKeepsDrawable(s: BufferState, t: Transition, alpha: real)
    requires Inv(s) && s.capacity > 0 && Healthy(s)
    ensures Healthy(Stored(s, t))
    ensures |s.memory| == 0 || Drawable(SamplingPriorities(s), alpha) ==> Drawable(SamplingPriorities(Stored(s, t)), alpha)
    ensures alpha >= 0.0 && Drawable(SamplingPriorities(Stored(s, t)), alpha) ==>
      |s.memory| == 0 || Drawable(SamplingPriorities(s), alpha)
  {
    var before, after := SamplingPriorities(s), SamplingPriorities(Stored(s, t));
    StoredSigns(s, t);
    if alpha == 0.0 {
      DrawableZeroAlpha(before);
      DrawableZeroAlpha(after);
    } else {
      HealthyNonNegative(s);
      HealthyNonNegative(Stored(s, t));
      DrawableNonNegative(before, alpha);
      DrawableNonNegative(after, alpha);
    }
  }

  /** With `alpha == 0` every power is 1: any non-empty vector is drawable. */
  lemma DrawableZeroAlpha(p: seq<real>)
    ensures Drawable(p, 0.0) <==> |p| > 0
  {
    if |p| > 0 {
      assert PowerSign(p[0], 0.0) > 0;
    }
  }

  /** Healthy sampling priorities are non-negative. */
  lemma HealthyNonNegative(s: BufferState)
    requires Inv(s) && Healthy(s)
    ensures forall k :: 0 <= k < |SamplingPriorities(s)| ==> SamplingPriorities(s)[k] >= 0.0
  {
  }

  /** Some entry of `p` is positive. */
  predicate SomePositive(p: seq<real>)
  {
    exists k :: 0 <= k < |p| && p[k] > 0.0
  }

  /** `p` is non-empty and every entry is positive. */
  predicate AllPositive(p: seq<real>)
  {
    |p| > 0 && forall k :: 0 <= k < |p| ==> p[k] > 0.0
  }

  /** The signs of the sampling priorities across one store. */
  lemma StoredSigns(s: BufferState, t: Transition)
    requires Inv(s) && s.capacity > 0 && Healthy(s)
    ensures Healthy(Stored(s, t))
    ensures |s.memory| == 0 || SomePositive(SamplingPriorities(s)) <==> SomePositive(SamplingPriorities(Stored(s, t)))
    ensures |s.memory| == 0 || AllPositive(SamplingPriorities(s)) ==> AllPositive(SamplingPriorities(Stored(s, t)))
  {
    var r := Stored(s, t);
    var p := r.priorities[s.pos];
    StoredPriority(s, t);
    if |s.memory| > 0 && SomePositive(SamplingPriorities(s)) {
      var j :| 0 <= j < |s.memory| && s.priorities[..|s.memory|][j] > 0.0;
      assert r.priorities[..|r.memory|][s.pos] == p >= s.priorities[j] > 0.0;
    } else if |s.memory| == 0 {
      assert r.priorities[..|r.memory|][s.pos] == p == 1.0;
    } else {
      forall k | 0 <= k < |r.memory| ensures r.priorities[k] <= 0.0 {
        if k != s.pos {
          assert s.priorities[..|s.memory|][k] == s.priorities[k];
        }
      }
    }
    if |s.memory| == 0 || AllPositive(SamplingPriorities(s)) {
      forall k | 0 <= k < |r.memory| ensures r.priorities[..|r.memory|][k] > 0.0 {
        if k != s.pos {
          assert s.priorities[..|s.memory|][k] == s.priorities[k];
        } else if |s.memory| > 0 {
          assert p >= s.priorities[..|s.memory|][0] > 0.0;
        }
      }
    }
  }

  /** With a negative `alpha` a store can make an undrawable buffer drawable:
      a full buffer whose only zero priority sits at the write position gets
      that slot overwritten with the largest priority. */
  lemma NegativeAlphaStoreRepairs(t: Transition)
    ensures var s := BufferState(2, [t, t], [0.0, 5.0], 0);
      && Inv(s) && Healthy(s)
      && !Drawable(SamplingPriorities(s), -1.0)
      && Drawable(SamplingPriorities(Stored(s, t)), -1.0)
  {
    var s := BufferState(2, [t, t], [0.0, 5.0], 0);
    assert SamplingPriorities(s)[0] == 0.0;
    var m := Max(s.priorities);
    assert m >= s.priorities[1] == 5.0;
    assert Stored(s, t).priorities == [m, 5.0];
  }

  /** Writing non-negative priorities into occupied slots keeps the
      priorities healthy. */
  lemma {:induction false} UpdatesKeepHealthy(s: BufferState, indices: seq<int>, prios: seq<real>)
    requires Inv(s) && Healthy(s)
    requires forall k :: 0 <= k < Pairs(indices, prios) ==> 0 <= indices[k] < |s.memory|
    requires forall k :: 0 <= k < Pairs(indices, prios) ==> prios[k] >= 0.0
    ensures Inv(s.(priorities := ApplyUpdates(s.priorities, indices, prios)))
    ensures Healthy(s.(priorities := ApplyUpdates(s.priorities, indices, prios)))
    decreases |indices|
  {
    if |indices| > 0 && |prios| > 0 {
      var first := indices[0];
      assert Slot(first, |s.priorities|) == Some(first);
      var s' := s.(priorities := s.priorities[first := prios[0]]);
      forall k | 0 <= k < Pairs(indices[1..], prios[1..])
        ensures 0 <= indices[1..][k] < |s'.memory| && prios[1..][k] >= 0.0
      {
        assert indices[1..][k] == indices[k + 1] && prios[1..][k] == prios[k + 1];
      }
      UpdatesKeepHealthy(s', indices[1..], prios[1..]);
    }
  }

  lemma DivAtMostOne(a: real, m: real)
    requires 0.0 < a <= m
    ensures 0.0 < a / m <= 1.0
    ensures a == m ==> a / m == 1.0
  {
    assert a / m * m == a;
  }

  /** Importance weights divided by their largest one: every weight ends in
      (0, 1] and the largest becomes exactly 1. */
  function NormalizeWeights(w: seq<real>): (r: seq<real>)
    requires |w| > 0
    requires forall k :: 0 <= k < |w| ==> w[k] > 0.0
    ensures |r| == |w|
    ensures forall k :: 0 <= k < |w| ==> r[k] == w[k] / Max(w)
    ensures forall k :: 0 <= k < |r| ==> 0.0 < r[k] <= 1.0
    ensures exists k :: 0 <= k < |r| && r[k] == 1.0
  {
    var j := Argmax(w);
    var r := seq(|w|, k requires 0 <= k < |w| => w[k] / w[j]);
    forall k | 0 <= k < |r| ensures 0.0 < r[k] <= 1.0 {
      DivAtMostOne(w[k], w[j]);
    }
    DivAtMostOne(w[j], w[j]);
    assert r[j] == 1.0;
    r
  }

  /** `beta` after one `sample`: raised by the increment only while below 1. */
  function NextBeta(beta: real, increment: real): (r: real)
    ensures increment >= 0.0 ==> r >= beta
    ensures beta >= 1.0 ==> r == beta
    ensures r != beta ==> r - beta == increment
  {
    if beta < 1.0 then beta + increment else beta
  }

  /** `beta` after `n` calls of `sample`. */
  function BetaAfter(beta: real, increment: real, n: nat): real
  {
    if n == 0 then beta else NextBeta(BetaAfter(beta, increment, n - 1), increment)
  }

  /** With the default start 0.4 and increment 1000, the first `sample`
      lifts `beta` to 1000.4 and no later call changes it. */
  lemma {:induction false} DefaultBetaSaturates(n: nat)
    requires n >= 1
    ensures BetaAfter(0.4, 1000.0, n) == 1000.4
  {
    if n > 1 {
      DefaultBetaSaturates(n - 1);
    }
  }

  /** A non-negative increment never lowers `beta`, and once `beta` reaches 1
      it stays where it is. */
  lemma {:induction false} BetaMonotone(beta: real, increment: real, n: nat)
    requires increment >= 0.0
    ensures BetaAfter(beta, increment, n) >= beta
    ensures beta >= 1.0 ==> BetaAfter(beta, increment, n) == beta
  {
    if n > 0 {
      BetaMonotone(beta, increment, n - 1);
    }
  }

  /** The replay buffer object: `memory` is the Python list it appends to
      and overwrites, `priorities` the fixed-size priority array. */
  class PrioritizedReplayBuffer {
    const capacity: nat
    const alpha: real
    const betaIncrement: real
    var beta: real
    var pos: nat
    var memory: seq<Transition>
    const priorities: array<real>

    function State(): BufferState
      reads this, priorities
    {
      BufferState(capacity, memory, priorities[..], pos)
    }

    ghost predicate Valid()
      reads this, priorities
    {
      Inv(State())
    }

    constructor (capacity: nat, alpha: real := 0.6, beta: real := 0.4, betaIncrement: real := 1000.0)
      ensures Valid() && fresh(priorities)
      ensures State() == Empty(capacity)
      ensures this.alpha == alpha && this.beta == beta && this.betaIncrement == betaIncrement
    {
      this.capacity := capacity;
      this.alpha := alpha;
      this.beta := beta;
      this.betaIncrement := betaIncrement;
      pos := 0;
      memory := [];
      priorities := new real[capacity](_ => 0.0);
      new;
      assert priorities[..] == Empty(capacity).priorities;
    }

    /** `len(buffer)`: the number of stored transitions. */
    function Len(): (n: nat)
      reads this, priorities
      requires Valid()
      ensures n <= capacity
      ensures n < capacity ==> n == pos
    {
      |memory|
    }

    /** `store`: fails (IndexError in the source, nothing changed) only when
      the capacity is 0; otherwise the new state is `Stored` of the old one. */
    method Store(observation: seq<real>, action: int, reward: real, nextObservation: seq<real>, done: bool)
      returns (stored: bool)
      requires Valid()
      modifies this, priorities
      ensures Valid()
      ensures stored == (capacity > 0)
      ensures stored ==> State() == Stored(old(State()), Transition(observation, action, reward, nextObservation, done))
      ensures !stored ==> State() == old(State())
      ensures beta == old(beta)
    {
      var t := Transition(observation, action, reward, nextObservation, done);
      var maxPrior := if |memory| > 0 then Max(priorities[..]) else 1.0;
      if |memory| < capacity {
        memory := memory + [t];
      } else if pos < |memory| {
        memory := memory[pos := t];
      } else {
        // assigning to slot 0 of an empty list: IndexError
        return false;
      }
      priorities[pos] := maxPrior;
      ModStep(pos, capacity);
      pos := (pos + 1) % capacity;
      stored := true;
    }

    /** `sample` with the random draw given as `draw` (slots of positive
      probability, as `np.random.choice` returns them): fails before anything
      changes when the sampling priorities raised to `alpha` are not
      `Drawable`; otherwise
      raises `beta` while it is below 1 and gathers the drawn transitions. A
      batch size of 0 fails after `beta` moved (the maximum of no weights),
      and so do drawn observations of different lengths (`np.concatenate`). */
    method Sample(batchSize: nat, draw: seq<int>) returns (batch: Option<Batch>)
      requires Valid() && |memory| > 0 && DrawFrom(State(), alpha, batchSize, draw)
      modifies this`beta
      ensures Valid()
      ensures !Drawable(SamplingPriorities(old(State())), alpha) ==> batch.None? && beta == old(beta)
      ensures Drawable(SamplingPriorities(old(State())), alpha) ==>
        beta == NextBeta(old(beta), betaIncrement)
        && (batch.Some? <==> batchSize > 0 && Concatenable(Gather(memory, draw)))
      ensures batch.Some? ==> batch.value.indices == draw && batch.value.transitions == Gather(memory, draw)
    {
      var probs := if |memory| < capacity then priorities[..|memory|] else priorities[..];
      if !Drawable(probs, alpha) {
        // the normalised probabilities hold NaN: ValueError
        return None;
      }
      var transitions := Gather(memory, draw);
      if beta < 1.0 {
        beta := beta + betaIncrement;
      }
      if batchSize == 0 {
        return None;
      }
      if !Concatenable(transitions) {
        // observations of different shapes: ValueError
        return None;
      }
      batch := Some(Batch(draw, transitions));
    }

    /** `update_priorities`: writes the zipped pairs in order; an index out of
      range stops the loop (IndexError) with the earlier writes kept. */
    method UpdatePriorities(indices: seq<int>, prios: seq<real>) returns (ok: bool)
      requires Valid()
      modifies priorities
      ensures Valid()
      ensures priorities[..] == ApplyUpdates(old(priorities[..]), indices, prios)
      ensures ok <==> AllInRange(indices, prios, capacity)
    {
      var n := Pairs(indices, prios);
      var k := 0;
      while k < n
        invariant 0 <= k <= n
        invariant ApplyUpdates(priorities[..], indices[k..], prios[k..]) == ApplyUpdates(old(priorities[..]), indices, prios)
        invariant forall j :: 0 <= j < k ==> Slot(indices[j], capacity).Some?
      {
        var slot := Slot(indices[k], priorities.Length);
        if slot.None? {
          return false;
        }
        assert indices[k..][1..] == indices[k + 1..] && prios[k..][1..] == prios[k + 1..];
        priorities[slot.value] := prios[k];
        k := k + 1;
      }
      ok := true;
    }
  }
}
