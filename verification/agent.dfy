/** The PER-D3QN agent: an evaluation and a target dueling network, a
    prioritized replay buffer and an epsilon-greedy exploration schedule.

    What the agent does to its state is specified on values first — a
    `Snapshot` of the buffer, `beta` and both networks, and the functions
    `TrainStep` and `LearnStep` on it — and the methods of the class
    `PERD3QNAgent` are proved to move the object from one snapshot to the
    next. The optimiser step and every random draw are parameters. */
module Perd3qn {
  import opened Numerics
  import opened ReplayBuffer
  import opened Dueling

  const EpsilonStart: real := 0.9
  const EpsilonMin: real := 0.05
  const Decay: real := 0.99

  // ---------------------------------------------------------------------
  // Exploration schedule

  /** One call of `get_action` in training mode with a new episode number:
      epsilon is multiplied by the decay only while above the floor. */
  function Decayed(epsilon: real): (r: real)
    ensures epsilon >= 0.0 ==> 0.0 <= r <= epsilon
    ensures r == epsilon <==> epsilon <= EpsilonMin
  {
    if epsilon > EpsilonMin then epsilon * Decay else epsilon
  }

  /** Epsilon after `n` new episodes, starting from `epsilon`. */
  function EpsilonAfter(epsilon: real, n: nat): real
  {
    if n == 0 then epsilon else Decayed(EpsilonAfter(epsilon, n - 1))
  }

  /** Starting anywhere above `EpsilonMin * Decay`, epsilon never rises and
      never reaches `EpsilonMin * Decay`. */
  lemma {:induction false} EpsilonScheduleBounds(epsilon: real, n: nat)
    requires EpsilonMin * Decay < epsilon
    ensures EpsilonMin * Decay < EpsilonAfter(epsilon, n) <= epsilon
    ensures EpsilonAfter(epsilon, n + 1) <= EpsilonAfter(epsilon, n)
  {
    if n > 0 {
      EpsilonScheduleBounds(epsilon, n - 1);
    }
  }

  /** Epsilon is not clamped at the floor: the step that crosses it lands
      below `EpsilonMin`, and from there on epsilon stays put. */
  lemma EpsilonOvershoots(epsilon: real)
    requires EpsilonMin < epsilon < EpsilonMin / Decay
    ensures Decayed(epsilon) < EpsilonMin
    ensures Decayed(Decayed(epsilon)) == Decayed(epsilon)
  {
    assert epsilon * Decay < EpsilonMin / Decay * Decay;
  }

  // ---------------------------------------------------------------------
  // The TD rule of `train`

  function Observations(batch: seq<Transition>): (obs: seq<seq<real>>)
    ensures |obs| == |batch|
  {
    seq(|batch|, k requires 0 <= k < |batch| => batch[k].observation)
  }

  function NextObservations(batch: seq<Transition>): (obs: seq<seq<real>>)
    ensures |obs| == |batch|
  {
    seq(|batch|, k requires 0 <= k < |batch| => batch[k].nextObservation)
  }

  /** `gather` along the action dimension succeeds: every action indexes a
      column of the action values. */
  predicate ActionsInRange(batch: seq<Transition>, actions: nat)
  {
    forall k :: 0 <= k < |batch| ==> 0 <= batch[k].action < actions
  }

  /** The first layer `fc` takes observations of `inputDim` entries; both
      forwards of `train` raise on any other length. */
  predicate ObservationsFit(batch: seq<Transition>, inputDim: nat)
  {
    forall k :: 0 <= k < |batch| ==>
      |batch[k].observation| == inputDim && |batch[k].nextObservation| == inputDim
  }

  /** The new priorities `train` writes back: the absolute difference between
      the target network's best next action value and the evaluation
      network's value of the action taken. */
  function TdPriorities(batch: seq<Transition>, eval: Network, target: Network, actions: nat): (p: seq<real>)
    requires WellFormed(eval, actions) && WellFormed(target, actions) && actions > 0
    requires |batch| > 0 && ActionsInRange(batch, actions)
    ensures |p| == |batch|
    ensures forall k :: 0 <= k < |p| ==> p[k] >= 0.0
  {
    var q := Forward(eval, actions, Observations(batch));
    var next := Forward(target, actions, NextObservations(batch));
    seq(|batch|, k requires 0 <= k < |batch| => RowPriority(q[k], next[k], batch[k].action))
  }

  function RowPriority(q: seq<real>, next: seq<real>, action: int): (p: real)
    requires 0 <= action < |q| && |next| > 0
    ensures p >= 0.0
  {
    Abs(Max(next) - q[action])
  }

  /** The regression targets of the loss: the reward, plus the discounted
      best next action value of the target network unless the step ended
      the episode. */
  function TdTargets(batch: seq<Transition>, target: Network, actions: nat, gamma: real): (y: seq<real>)
    requires WellFormed(target, actions) && actions > 0 && |batch| > 0
    ensures |y| == |batch|
    ensures forall k :: 0 <= k < |y| && batch[k].done ==> y[k] == batch[k].reward
  {
    var next := Forward(target, actions, NextObservations(batch));
    seq(|batch|, k requires 0 <= k < |batch| =>
      batch[k].reward + gamma * (if batch[k].done then 0.0 else 1.0) * Max(next[k]))
  }

  /** The priorities depend on observations and actions only: two batches
      that differ in rewards and end-of-episode flags get the same ones. */
  lemma PrioritiesIgnoreRewards(b1: seq<Transition>, b2: seq<Transition>, eval: Network, target: Network, actions: nat)
    requires WellFormed(eval, actions) && WellFormed(target, actions) && actions > 0
    requires |b1| == |b2| > 0 && ActionsInRange(b1, actions)
    requires forall k :: 0 <= k < |b1| ==>
      b1[k].observation == b2[k].observation && b1[k].action == b2[k].action
      && b1[k].nextObservation == b2[k].nextObservation
    ensures TdPriorities(b1, eval, target, actions) == TdPriorities(b2, eval, target, actions)
  {
    assert Observations(b1) == Observations(b2);
    assert NextObservations(b1) == NextObservations(b2);
  }

  /** The network that answers 0 for every action and every observation. */
  function ZeroNetwork(): (net: Network)
    ensures WellFormed(net, 1)
  {
    Network([], x => [0.0], x => 0.0)
  }

  /** The priority is not the TD error of the loss: for a terminal step of
      reward 1 under the zero network the action value is 0 and the target 1,
      so the TD error is 1, while the priority written back is 0. */
  lemma PriorityIsNotTdError(gamma: real)
    ensures TdPriorities([Transition([], 0, 1.0, [], true)], ZeroNetwork(), ZeroNetwork(), 1) == [0.0]
    ensures Forward(ZeroNetwork(), 1, [[]]) == [[0.0]]
    ensures TdTargets([Transition([], 0, 1.0, [], true)], ZeroNetwork(), 1, gamma) == [1.0]
  {
    var batch := [Transition([], 0, 1.0, [], true)];
    var net := ZeroNetwork();
    assert Observations(batch) == [[]];
    assert NextObservations(batch) == [[]];
    assert Advantages(net, [[]]) == [[0.0]];
    assert Values(net, [[]]) == [0.0];
    assert MatrixSum([[0.0]]) == 0.0;
    assert Shift([0.0], -0.0) == [0.0];
    assert Forward(net, 1, [[]]) == [[0.0]];
    assert Max([0.0]) == 0.0;
    assert RowPriority([0.0], [0.0], 0) == 0.0;
  }

  // ---------------------------------------------------------------------
  // The agent's state as a value, and what `train` and `learn` do to it

  /** Everything `train` and `learn` may change. */
  datatype Snapshot = Snapshot(buffer: BufferState, beta: real, evalNet: Network, targetNet: Network)

  /** A new snapshot and whether the call finished without raising. */
  datatype Step = Step(after: Snapshot, ok: bool)

  /** The settings `train` and `learn` consult. */
  datatype Settings = Settings(
    inputDim: nat,
    actions: nat,
    exploration: int,
    softUpdateFreq: nat,
    trainFreq: nat,
    batchSize: nat,
    alpha: real,
    betaIncrement: real)

  ghost predicate Ready(s: Snapshot, cfg: Settings)
  {
    && Inv(s.buffer) && Healthy(s.buffer)
    && cfg.actions > 0
    && WellFormed(s.evalNet, cfg.actions) && WellFormed(s.targetNet, cfg.actions)
  }

  /** `train` with the sampled slots `draw` and `stepped` the evaluation
      network after the optimiser step. Sampling fails (nothing changed)
      when the probabilities are undefined and after moving `beta` when the
      batch is empty or its observations differ in length; the forwards fail
      on observations that are not `inputDim` long, and `gather` on an action
      out of range. Otherwise
      the drawn slots get the TD priorities and the evaluation network is
      replaced. */
  function TrainStep(s: Snapshot, cfg: Settings, draw: seq<int>, stepped: Network): (r: Step)
    requires Ready(s, cfg) && |s.buffer.memory| > 0 && DrawFrom(s.buffer, cfg.alpha, cfg.batchSize, draw)
    ensures r.after.targetNet == s.targetNet && r.after.buffer.memory == s.buffer.memory
    ensures r.after.evalNet == if r.ok then stepped else s.evalNet
    ensures !Drawable(SamplingPriorities(s.buffer), cfg.alpha) ==> r == Step(s, false)
  {
    if !Drawable(SamplingPriorities(s.buffer), cfg.alpha) then Step(s, false)
    else
      var moved := s.(beta := NextBeta(s.beta, cfg.betaIncrement));
      var batch := Gather(s.buffer.memory, draw);
      if cfg.batchSize == 0 || !Concatenable(batch) || !ObservationsFit(batch, cfg.inputDim)
         || !ActionsInRange(batch, cfg.actions)
      then Step(moved, false)
      else
        var p := TdPriorities(batch, s.evalNet, s.targetNet, cfg.actions);
        Step(moved.(buffer := s.buffer.(priorities := ApplyUpdates(s.buffer.priorities, draw, p)),
                    evalNet := stepped), true)
  }

  /** A successful `train` keeps the buffer healthy, leaves the transitions,
      the write position and the target network alone, gives every drawn
      slot that is not drawn again later its TD priority, and keeps every
      slot not drawn. */
  lemma TrainStepEffect(s: Snapshot, cfg: Settings, draw: seq<int>, stepped: Network)
    requires Ready(s, cfg) && |s.buffer.memory| > 0 && DrawFrom(s.buffer, cfg.alpha, cfg.batchSize, draw)
    requires WellFormed(stepped, cfg.actions)
    ensures var r := TrainStep(s, cfg, draw, stepped);
      && Ready(r.after, cfg)
      && r.after.buffer.memory == s.buffer.memory && r.after.buffer.pos == s.buffer.pos
      && r.after.targetNet == s.targetNet
      && (r.ok <==> Drawable(SamplingPriorities(s.buffer), cfg.alpha) && cfg.batchSize > 0
                    && ObservationsFit(Gather(s.buffer.memory, draw), cfg.inputDim)
                    && ActionsInRange(Gather(s.buffer.memory, draw), cfg.actions))
      && (!r.ok ==> r.after.buffer == s.buffer && r.after.evalNet == s.evalNet)
    ensures var r := TrainStep(s, cfg, draw, stepped);
      r.ok ==>
        && r.after.evalNet == stepped
        && (forall k :: 0 <= k < |draw| && (forall j :: k < j < |draw| ==> draw[j] != draw[k]) ==>
              r.after.buffer.priorities[draw[k]]
              == TdPriorities(Gather(s.buffer.memory, draw), s.evalNet, s.targetNet, cfg.actions)[k])
        && (forall i :: 0 <= i < s.buffer.capacity && (forall k :: 0 <= k < |draw| ==> draw[k] != i) ==>
              r.after.buffer.priorities[i] == s.buffer.priorities[i])
  {
    var r := TrainStep(s, cfg, draw, stepped);
    if r.ok {
      var batch := Gather(s.buffer.memory, draw);
      var p := TdPriorities(batch, s.evalNet, s.targetNet, cfg.actions);
      var n := |s.buffer.priorities|;
      assert Pairs(draw, p) == |draw|;
      UpdatesKeepHealthy(s.buffer, draw, p);
      forall k | 0 <= k < |draw| ensures Slot(draw[k], n) == Some(draw[k] as nat) { }
      forall k | 0 <= k < |draw| && (forall j :: k < j < |draw| ==> draw[j] != draw[k])
        ensures ApplyUpdates(s.buffer.priorities, draw, p)[draw[k]] == p[k]
      {
        UpdatesLastWins(s.buffer.priorities, draw, p, k);
      }
      forall i | 0 <= i < s.buffer.capacity && (forall k :: 0 <= k < |draw| ==> draw[k] != i)
        ensures ApplyUpdates(s.buffer.priorities, draw, p)[i] == s.buffer.priorities[i]
      {
        UpdatesFrame(s.buffer.priorities, draw, p, i);
      }
    }
  }

  /** `train` is due at this step: past the exploration phase, and at a
      multiple of the training frequency or on death (a frequency of 0
      raises before `dead` is looked at). */
  predicate TrainDue(cfg: Settings, age: int, dead: bool, nEpi: int)
  {
    nEpi > cfg.exploration && cfg.trainFreq > 0 && (age % cfg.trainFreq == 0 || dead)
  }

  /** `learn`: store the transition; past the exploration phase train when
      due, then copy the evaluation network into the target network at
      multiples of the update frequency. A frequency of 0 raises
      ZeroDivisionError where its `%` is evaluated. */
  function LearnStep(s: Snapshot, cfg: Settings, t: Transition, age: int, dead: bool, nEpi: int,
                     draw: seq<int>, stepped: Network): (r: Step)
    requires Ready(s, cfg)
    requires s.buffer.capacity > 0 && TrainDue(cfg, age, dead, nEpi) ==>
      DrawFrom(Stored(s.buffer, t), cfg.alpha, cfg.batchSize, draw)
    ensures r.after.buffer.capacity == s.buffer.capacity
    ensures nEpi <= cfg.exploration ==> r.ok == (s.buffer.capacity > 0) && r.after.targetNet == s.targetNet
  {
    if s.buffer.capacity == 0 then Step(s, false)
    else
      StoredKeepsDrawable(s.buffer, t, cfg.alpha);
      var s1 := s.(buffer := Stored(s.buffer, t));
      if nEpi <= cfg.exploration then Step(s1, true)
      else if cfg.trainFreq == 0 then Step(s1, false)
      else
        var s2 := if age % cfg.trainFreq == 0 || dead then TrainStep(s1, cfg, draw, stepped) else Step(s1, true);
        if !s2.ok then s2
        else if cfg.softUpdateFreq == 0 then Step(s2.after, false)
        else if nEpi % cfg.softUpdateFreq == 0 then Step(s2.after.(targetNet := s2.after.evalNet), true)
        else s2
  }

  /** What `learn` promises: the transition is always stored (the buffer's
      transitions and write position are those of `Stored`, even when a
      later step raises); when no training is due the buffer is exactly
      `Stored` and `beta` is kept, so `train` did not run; the evaluation
      network changes only by a due training step; the target network
      becomes the evaluation network exactly at a successful step past
      exploration whose episode is a multiple of the update frequency, and
      is untouched otherwise, in particular by every step that raises. */
  lemma LearnStepEffect(s: Snapshot, cfg: Settings, t: Transition, age: int, dead: bool, nEpi: int,
                        draw: seq<int>, stepped: Network)
    requires Ready(s, cfg) && WellFormed(stepped, cfg.actions)
    requires s.buffer.capacity > 0 && TrainDue(cfg, age, dead, nEpi) ==>
      DrawFrom(Stored(s.buffer, t), cfg.alpha, cfg.batchSize, draw)
    ensures var r := LearnStep(s, cfg, t, age, dead, nEpi, draw, stepped);
      && Ready(r.after, cfg)
      && (s.buffer.capacity == 0 ==> r.after == s && !r.ok)
      && (s.buffer.capacity > 0 ==>
            r.after.buffer.memory == Stored(s.buffer, t).memory && r.after.buffer.pos == Stored(s.buffer, t).pos)
      && (!TrainDue(cfg, age, dead, nEpi) ==> r.after.evalNet == s.evalNet)
      && (TrainDue(cfg, age, dead, nEpi) && r.ok ==> r.after.evalNet == stepped)
    ensures var r := LearnStep(s, cfg, t, age, dead, nEpi, draw, stepped);
      var sync := s.buffer.capacity > 0 && nEpi > cfg.exploration && cfg.softUpdateFreq > 0
        && nEpi % cfg.softUpdateFreq == 0;
      && (r.ok && sync ==> r.after.targetNet == r.after.evalNet)
      && (!sync ==> r.after.targetNet == s.targetNet)
      && (!r.ok ==> r.after.targetNet == s.targetNet)
    ensures var r := LearnStep(s, cfg, t, age, dead, nEpi, draw, stepped);
      s.buffer.capacity > 0 && !TrainDue(cfg, age, dead, nEpi) ==>
        r.after.buffer == Stored(s.buffer, t) && r.after.beta == s.beta
  {
    if s.buffer.capacity > 0 {
      StoredKeepsDrawable(s.buffer, t, cfg.alpha);
      var s1 := s.(buffer := Stored(s.buffer, t));
      if TrainDue(cfg, age, dead, nEpi) {
        TrainStepEffect(s1, cfg, draw, stepped);
      }
    }
  }

  /** `weight.add_(noise)` for a noise matrix of the weight's shape. */
  function AddNoise(weight: seq<seq<real>>, noise: seq<seq<real>>): (r: seq<seq<real>>)
    requires |noise| == |weight| && forall n :: 0 <= n < |weight| ==> |noise[n]| == |weight[n]|
    ensures |r| == |weight|
    ensures forall n, k :: 0 <= n < |r| && 0 <= k < |weight[n]| ==> |r[n]| == |weight[n]| && r[n][k] == weight[n][k] + noise[n][k]
  {
    seq(|weight|, n requires 0 <= n < |weight| =>
      seq(|weight[n]|, k requires 0 <= k < |weight[n]| => weight[n][k] + noise[n][k]))
  }

  /** The agent object. `buffer` is its replay buffer; the two networks are
      values that `load_state_dict` overwrites. */
  class PERD3QNAgent {
    const inputDim: nat
    const outputDim: nat
    const exploration: int
    const softUpdateFreq: nat
    const trainFreq: nat
    const batchSize: nat
    const gamma: real
    const training: bool
    const buffer: PrioritizedReplayBuffer
    var nEpi: int
    var epsilon: real
    var evalNet: Network
    var targetNet: Network

    function Config(): Settings
    {
      Settings(inputDim, outputDim, exploration, softUpdateFreq, trainFreq, batchSize, buffer.alpha, buffer.betaIncrement)
    }

    function State(): Snapshot
      reads this, buffer, buffer.priorities
    {
      Snapshot(buffer.State(), buffer.beta, evalNet, targetNet)
    }

    /** The object invariant: the buffer's own, healthy priorities, networks
      of `outputDim` actions, and epsilon inside the band its schedule keeps
      (0 when not training). */
    ghost predicate Valid()
      reads this, buffer, buffer.priorities
    {
      && buffer.Valid()
      && Ready(State(), Config())
      && (training ==> EpsilonMin * Decay < epsilon <= EpsilonStart)
      && (!training ==> epsilon == 0.0)
    }

    /** `__init__`: `init` is the freshly initialised target network, which
      the evaluation network copies; `loaded` is the network read from a
      saved model, if any, which replaces the evaluation network and, when
      training, the target network too. */
    constructor (init: Network, loaded: Option<Network>, inputDim: nat := 153, outputDim: nat := 8,
                 exploration: int := 1000, softUpdateFreq: nat := 200, trainFreq: nat := 20,
                 batchSize: nat := 64, capacity: nat := 10000, gamma: real := 0.99, training: bool := true)
      requires outputDim > 0 && WellFormed(init, outputDim)
      requires loaded.Some? ==> WellFormed(loaded.value, outputDim)
      ensures Valid() && fresh(buffer) && fresh(buffer.priorities)
      ensures buffer.State() == Empty(capacity) && buffer.beta == 0.4 && buffer.betaIncrement == 1000.0
      ensures buffer.alpha == 0.6
      ensures nEpi == 0 && epsilon == (if training then EpsilonStart else 0.0)
      ensures evalNet == (if loaded.Some? then loaded.value else init)
      ensures targetNet == (if loaded.Some? && training then loaded.value else init)
      ensures this.outputDim == outputDim && this.exploration == exploration && this.training == training
      ensures this.softUpdateFreq == softUpdateFreq && this.trainFreq == trainFreq && this.batchSize == batchSize
      ensures this.inputDim == inputDim && this.gamma == gamma
    {
      this.inputDim := inputDim;
      this.outputDim := outputDim;
      targetNet := init;
      evalNet := init;
      buffer := new PrioritizedReplayBuffer(capacity);
      this.exploration := exploration;
      this.softUpdateFreq := softUpdateFreq;
      this.trainFreq := trainFreq;
      this.batchSize := batchSize;
      this.gamma := gamma;
      nEpi := 0;
      epsilon := EpsilonStart;
      this.training := training;
      if !training {
        epsilon := 0.0;
      }
      if loaded.Some? {
        evalNet := loaded.value;
        if training {
          targetNet := loaded.value;
        }
      }
    }

    /** `get_action` with `u` the value of `random.random()` and
      `randomAction` that of `random.choice`. In training mode a new episode
      number is recorded and decays epsilon; the action is then chosen by
      `act` on the evaluation network. Its greedy choice is the first
      largest advantage of the state; on the greedy branch a state that is
      not `inputDim` long makes `fc` raise (`None`), after epsilon moved. */
    method GetAction(state: seq<real>, nEpiArg: int, u: real, randomAction: nat) returns (action: Option<nat>)
      requires Valid() && randomAction < outputDim
      modifies this`epsilon, this`nEpi
      ensures Valid()
      ensures nEpi == if training && nEpiArg > old(nEpi) then nEpiArg else old(nEpi)
      ensures epsilon == if training && nEpiArg > old(nEpi) then Decayed(old(epsilon)) else old(epsilon)
      ensures epsilon <= old(epsilon)
      ensures action.None? <==> u > epsilon && |state| != inputDim
      ensures action.Some? ==>
        && action.value == Act(Forward(evalNet, outputDim, [state])[0], epsilon, u, randomAction)
        && action.value < outputDim
      ensures u > epsilon && action.Some? ==> action.value == Argmax(evalNet.advantage(state))
      ensures u <= epsilon ==> action == Some(randomAction)
    {
      if training {
        if nEpiArg > nEpi {
          if epsilon > EpsilonMin {
            epsilon := epsilon * Decay;
          }
          nEpi := nEpiArg;
        }
      }
      if u > epsilon && |state| != inputDim {
        // `fc` on a state of the wrong length raises
        return None;
      }
      action := Some(Act(Forward(evalNet, outputDim, [state])[0], epsilon, u, randomAction));
      ActIgnoresValueHead(evalNet, outputDim, state, epsilon, u, randomAction);
    }

    /** `memorize`: store the transition in the buffer. */
    method Memorize(obs: seq<real>, action: int, reward: real, nextObs: seq<real>, done: bool)
      returns (stored: bool)
      requires Valid()
      modifies buffer, buffer.priorities
      ensures Valid()
      ensures stored == (buffer.capacity > 0)
      ensures stored ==> State() == old(State()).(buffer := Stored(old(buffer.State()), Transition(obs, action, reward, nextObs, done)))
      ensures !stored ==> State() == old(State())
    {
      ghost var t := Transition(obs, action, reward, nextObs, done);
      if buffer.capacity > 0 {
        StoredKeepsDrawable(buffer.State(), t, buffer.alpha);
      }
      stored := buffer.Store(obs, action, reward, nextObs, done);
    }

    /** `train` with the sampled slots `draw` and the evaluation network
      `stepped` that the optimiser step leaves. */
    method Train(draw: seq<int>, stepped: Network) returns (ok: bool)
      requires Valid() && |buffer.memory| > 0 && DrawFrom(buffer.State(), buffer.alpha, batchSize, draw)
      requires WellFormed(stepped, outputDim)
      modifies buffer`beta, buffer.priorities, this`evalNet
      ensures Valid()
      ensures Step(State(), ok) == TrainStep(old(State()), Config(), draw, stepped)
    {
      TrainStepEffect(State(), Config(), draw, stepped);
      var batch := buffer.Sample(batchSize, draw);
      if batch.None? {
        return false;
      }
      var transitions := batch.value.transitions;
      if !ObservationsFit(transitions, inputDim) {
        // `fc` on observations of the wrong length raises
        return false;
      }
      if !ActionsInRange(transitions, outputDim) {
        // `gather` with an action out of range raises
        return false;
      }
      var p := TdPriorities(transitions, evalNet, targetNet, outputDim);
      ok := buffer.UpdatePriorities(batch.value.indices, p);
      evalNet := stepped;
    }

    /** The random inputs fit a `learn` call: `stepped` has the right number
      of actions and, when `train` will run, `draw` is a draw from the buffer
      as it is after storing `t`. */
    ghost predicate CanLearn(t: Transition, age: int, dead: bool, nEpiArg: int, draw: seq<int>, stepped: Network)
      reads this, buffer, buffer.priorities
    {
      && Valid() && WellFormed(stepped, outputDim)
      && (buffer.capacity > 0 && TrainDue(Config(), age, dead, nEpiArg) ==>
            DrawFrom(Stored(buffer.State(), t), buffer.alpha, batchSize, draw))
    }

    /** `learn` with the episode number `nEpiArg`, the slots `draw` that
      `train` samples if it runs and the network `stepped` it leaves. */
    method Learn(age: int, dead: bool, action: int, state: seq<real>, reward: real, statePrime: seq<real>,
                 done: bool, nEpiArg: int, draw: seq<int>, stepped: Network) returns (ok: bool)
      requires CanLearn(Transition(state, action, reward, statePrime, done), age, dead, nEpiArg, draw, stepped)
      modifies buffer, buffer.priorities, this`evalNet, this`targetNet
      ensures Valid()
      ensures Step(State(), ok)
           == LearnStep(old(State()), Config(), Transition(state, action, reward, statePrime, done),
                        age, dead, nEpiArg, draw, stepped)
    {
      ok := Memorize(state, action, reward, statePrime, done);
      if !ok {
        return;
      }
      if nEpiArg > exploration {
        if trainFreq == 0 {
          // `age % 0`: ZeroDivisionError
          return false;
        }
        if age % trainFreq == 0 || dead {
          ok := Train(draw, stepped);
          if !ok {
            return;
          }
        }
        if softUpdateFreq == 0 {
          // `n_epi % 0`: ZeroDivisionError
          return false;
        }
        if nEpiArg % softUpdateFreq == 0 {
          targetNet := evalNet;
        }
      }
    }

    /** `apply_gaussian_noise`: the target network's first-layer weights get
      the Gaussian `noise` added, and are then overwritten by a copy of the
      evaluation network, so the noise never survives the call. */
    method ApplyGaussianNoise(noise: seq<seq<real>>)
      requires Valid()
      requires |noise| == |targetNet.fcWeight|
      requires forall n :: 0 <= n < |noise| ==> |noise[n]| == |targetNet.fcWeight[n]|
      modifies this`targetNet
      ensures Valid()
      ensures targetNet == evalNet
    {
      targetNet := targetNet.(fcWeight := AddNoise(targetNet.fcWeight, noise));
      targetNet := evalNet;
    }
  }
}
