# PER-D3QN agent and grid-world entities, modelled in Dafny

This project models the learning core of ReinLife, a grid-world artificial
life simulation in which agents carry reinforcement-learning brains. It
covers two parts.

The first is the PER-D3QN brain: a prioritized experience replay dueling
double deep Q-network. The model covers:

- the prioritized replay buffer: a circular store of transitions with a
  parallel priority array, the `beta` schedule and index sampling;
- the combine step of the dueling network, and its epsilon-greedy `act`;
- the agent's epsilon schedule;
- the TD priority rule of `train`;
- the train and target-sync schedule of `learn`;
- `apply_gaussian_noise`.

The second is the world's `Empty`, `Entity` and `Agent` objects, with the
agent's movement, its `learn` dispatch to the brain and `scramble_brain`.

Files and modules:

- `numerics.dfy` (`Numerics`): `Option`, absolute value, the first-index
  arg-max and the maximum, sums, constant shifts, and `Times` (repeated
  addition, which stands for a product).
- `replay_buffer.dfy` (`ReplayBuffer`):
  - the buffer's value `BufferState` and its invariant `Inv`;
  - the specification functions `Stored`, `StoreAll`, `ApplyUpdates` and
    `NextBeta`;
  - lemmas about many stores and about priority updates;
  - the class `PrioritizedReplayBuffer`, whose `memory` is a sequence field
    and whose `priorities` is an array. Its methods are proved against
    those functions.
- `dueling.dfy` (`Dueling`): a network as a value whose two heads are
  functions of one observation, the combine as written, `forward` and
  `act`.
- `agent.dfy` (`Perd3qn`):
  - the epsilon schedule;
  - the TD priorities and targets;
  - a `Snapshot` of everything `train` and `learn` change, with
    `TrainStep` and `LearnStep` on snapshots;
  - the class `PERD3QNAgent`, whose methods are proved to move the object
    from one snapshot to the next.
- `entities.dfy` (`World`): the classes `Empty`, `Entity` and `Agent`,
  the `Brain` type and the `learn` arguments.

Behaviour the model keeps as written:

- The dueling combine subtracts the mean of the whole batch's advantage
  matrix, not a per-row mean. `CombineTotal`, `CombineVersusRowwise` and
  `CombineUniformRows` say what that does.
- The priority written back by `train` is `|max next Q - Q(action)|`. The
  reward and the discount play no part in it, so it is not the TD error of
  the loss (`PriorityIsNotTdError`).
- `beta` starts at 0.4 and is raised by 1000 on the first `sample`.
- Epsilon is not clamped at its floor; it ends just below 0.05.
- `apply_gaussian_noise` adds noise to the target network and then
  overwrites the target network with the evaluation network.
- The class docstring gives gamma 0.98, but the constructor's default is
  0.99. The model follows the code.

Python exceptions are modelled as failure results (`ok == false` or
`None`), with the state the source leaves behind:

- a store into a buffer of capacity 0;
- a sample whose priorities give no probability distribution;
- a sample of batch size 0, which fails after `beta` moved;
- a sample whose drawn observations differ in length (`np.concatenate`),
  which also fails after `beta` moved;
- `fc` on an observation that is not `input_dim` long, in `train` and on
  the greedy branch of `act`;
- `gather` with an action out of range;
- `% 0` in `learn`;
- an index out of range in `update_priorities`.

Randomness and the optimiser are parameters:

- the sampled slots (`draw`);
- `random.random()` (`u`);
- `random.choice` (`randomAction`);
- `torch.randn` (`noise`);
- the network the Adam step leaves (`stepped`);
- the freshly initialised and the loaded network (`init`, `loaded`).

## Model

| member | source | states |
|---|---|---|
| ReplayBuffer.Stored | ReinLife/Models/PERD3QN.py:143-155 | one store keeps the circular-store invariant; appends while there is room, else overwrites exactly slot `pos`; every other transition and priority is unchanged |
| ReplayBuffer.StoreAllFromEmpty | ReinLife/Models/PERD3QN.py:143-155 | after any sequence of stores the length is min(n, capacity), `pos == n % capacity`, and the last `capacity` transitions sit at their slots `j % capacity` |
| ReplayBuffer.FiveStoresIntoFourSlots | ReinLife/Models/PERD3QN.py:149-155 | capacity 4 after 5 stores: length 4, the 5th transition in slot 0, slots 1-3 unchanged, `pos == 1` |
| ReplayBuffer.FullStoreOverwritesOldest | ReinLife/Models/PERD3QN.py:149-155 | once full, the write position holds the oldest transition still kept |
| ReplayBuffer.StoredPriority | ReinLife/Models/PERD3QN.py:147-153 | the stored entry's priority is 1.0 into an empty memory, else the largest priority of the array before the store |
| ReplayBuffer.StoredPriorityIsLargest | ReinLife/Models/PERD3QN.py:147-153 | the stored entry's priority is at least every priority afterwards |
| ReplayBuffer.StoredKeepsDrawable | ReinLife/Models/PERD3QN.py:147-165 | storing keeps priorities non-negative with unoccupied slots at 0; a buffer drawable or empty before the store is drawable after it, and for `alpha >= 0` only such a buffer is |
| ReplayBuffer.StoredSigns | ReinLife/Models/PERD3QN.py:147-153 | across one store, some sampling priority is positive afterwards iff one was before or the buffer was empty, and all positive before (or empty) keeps all positive after |
| ReplayBuffer.NegativePriorityPowers | ReinLife/Models/PERD3QN.py:162-165 | `[-1, 2]` is drawable under `alpha` 2, -2 and 0, but not under 1, -1 (powers of mixed sign) or 0.5 (NaN); `[-1, -2]` is drawable under odd `alpha` 1 and -1, because its powers are all negative and so is their sum |
| ReplayBuffer.NegativeAlphaStoreRepairs | ReinLife/Models/PERD3QN.py:147-164 | with `alpha < 0`, a full buffer whose only zero priority is at the write position is undrawable before a store and drawable after it |
| ReplayBuffer.Slot | ReinLife/Models/PERD3QN.py:177-179 | numpy indexing: in range iff `-n <= idx < n`, negative indices count from the end |
| ReplayBuffer.UpdatesFrame | ReinLife/Models/PERD3QN.py:177-179 | a slot no zipped index names keeps its priority |
| ReplayBuffer.UpdatesLastWins | ReinLife/Models/PERD3QN.py:177-179 | with every index in range, the slot of pair k ends with `prios[k]` unless a later pair names it |
| ReplayBuffer.UpdatesKeepHealthy | ReinLife/Models/PERD3QN.py:177-179 | writing non-negative priorities into occupied slots keeps them non-negative and the unoccupied slots at 0 |
| ReplayBuffer.Gather | ReinLife/Models/PERD3QN.py:165-166 | exactly one transition per drawn index, the k-th being `memory[draw[k]]` |
| ReplayBuffer.SamplingPriorities | ReinLife/Models/PERD3QN.py:158-161 | the sampling priorities are the occupied prefix of the array, the whole array once full |
| ReplayBuffer.ApplyUpdates | ReinLife/Models/PERD3QN.py:177-179 | the zipped writes in order, stopping at the first index out of range; the array keeps its length (what it writes: `UpdatesFrame`, `UpdatesLastWins`) |
| ReplayBuffer.NextBeta | ReinLife/Models/PERD3QN.py:168-169 | one `sample` never lowers beta for a non-negative increment, keeps it from 1 on, and any move it makes is by exactly the increment |
| ReplayBuffer.NormalizeWeights | ReinLife/Models/PERD3QN.py:171 | each weight is divided by the largest weight, so all end in (0, 1] with one equal to 1 |
| ReplayBuffer.DefaultBetaSaturates | ReinLife/Models/PERD3QN.py:134-138 | with start 0.4 and increment 1000, beta is 1000.4 after the first sample and after every later one |
| ReplayBuffer.BetaMonotone | ReinLife/Models/PERD3QN.py:168-170 | a non-negative increment never lowers beta; once beta reaches 1 it stays constant |
| ReplayBuffer.PrioritizedReplayBuffer.constructor | ReinLife/Models/PERD3QN.py:134-141 | empty memory, `pos` 0, every priority 0, alpha 0.6, beta 0.4, increment 1000 by default |
| ReplayBuffer.PrioritizedReplayBuffer.Len | ReinLife/Models/PERD3QN.py:181-182 | the length never exceeds the capacity, and equals `pos` while the buffer is not full |
| ReplayBuffer.PrioritizedReplayBuffer.Store | ReinLife/Models/PERD3QN.py:143-155 | the new state is `Stored` of the old; capacity 0 fails with nothing changed; beta untouched |
| ReplayBuffer.PrioritizedReplayBuffer.Sample | ReinLife/Models/PERD3QN.py:157-175 | fails with nothing changed when the priorities raised to `alpha` give no distribution (a power that is infinite or NaN, powers of mixed sign, or all of them zero; never for `alpha == 0`); otherwise beta moves by `NextBeta`; batch size 0 fails, and so do drawn observations (or next observations) of different lengths; else it returns the draw and the gathered transitions; memory, priorities and `pos` are untouched |
| ReplayBuffer.PrioritizedReplayBuffer.UpdatePriorities | ReinLife/Models/PERD3QN.py:177-179 | the array becomes `ApplyUpdates` of the old one; succeeds iff every zipped index is in range |
| Numerics.Argmax | ReinLife/Models/PERD3QN.py:207 | the index of a largest element, the first one on ties |
| Numerics.SumShift | ReinLife/Models/PERD3QN.py:202 | shifting a vector by c adds |s| copies of c to its sum |
| Numerics.ArgmaxShift | ReinLife/Models/PERD3QN.py:207 | a constant shift does not move the first largest element |
| Dueling.MeanTimesSize | ReinLife/Models/PERD3QN.py:202 | documents `Mean`, the `advantage.mean()` that `CombineTotal` cancels: the mean times the number of entries is the matrix total |
| Dueling.DuelingCombine | ReinLife/Models/PERD3QN.py:198-202 | advantage plus value minus the whole-batch advantage mean keeps the matrix shape |
| Dueling.RowwiseCombine | ReinLife/Models/PERD3QN.py:202 | the textbook per-row combine, as a reference: each row sums to actions times its value |
| Dueling.ShiftRowsSum | ReinLife/Models/PERD3QN.py:202 | shifting each row of a rectangular matrix adds `cols` copies of the shift sum to the total |
| Dueling.CombineTotal | ReinLife/Models/PERD3QN.py:202 | over the batch, the combine's entries add up to `actions` copies of the value sum, whatever the advantages |
| Dueling.CombineVersusRowwise | ReinLife/Models/PERD3QN.py:202 | each row of the combine as written is the textbook row shifted by the row mean minus the batch mean |
| Dueling.CombineUniformRows | ReinLife/Models/PERD3QN.py:202 | with all advantage rows equal, the combine as written equals the textbook one |
| Dueling.CombineKeepsGreedy | ReinLife/Models/PERD3QN.py:202-207 | the greedy action of a combined row is the greedy action of its advantages |
| Dueling.Forward | ReinLife/Models/PERD3QN.py:198-202 | one row of `actions` values per observation |
| Dueling.ForwardUniformBatch | ReinLife/Models/PERD3QN.py:198-202 | for a batch of equal observations, each row's action values sum to actions times the value head's output |
| Dueling.Act | ReinLife/Models/PERD3QN.py:204-210 | explores (returns the random action) iff `u <= epsilon`; otherwise returns a largest entry, the first one on ties |
| Dueling.ActIgnoresValueHead | ReinLife/Models/PERD3QN.py:204-210 | acting on one observation decides as if on the advantage head alone |
| Dueling.ActEpsilonEdges | ReinLife/Models/PERD3QN.py:205 | epsilon >= 1 always explores; epsilon 0 explores only on a draw of exactly 0.0 |
| Perd3qn.Decayed | ReinLife/Models/PERD3QN.py:83-85 | one decay step never raises a non-negative epsilon nor makes it negative, and leaves it unchanged exactly when it is at or below 0.05 |
| Perd3qn.EpsilonScheduleBounds | ReinLife/Models/PERD3QN.py:64-66 | starting above min·decay, epsilon never rises and never reaches min·decay |
| Perd3qn.EpsilonOvershoots | ReinLife/Models/PERD3QN.py:84-85 | the decay step that crosses the floor lands below 0.05, and from there epsilon stays put |
| Perd3qn.TdPriorities | ReinLife/Models/PERD3QN.py:103-110 | one priority per sampled transition, each non-negative |
| Perd3qn.TdTargets | ReinLife/Models/PERD3QN.py:104-107 | a terminal transition's target is its reward |
| Perd3qn.PrioritiesIgnoreRewards | ReinLife/Models/PERD3QN.py:105-110 | the priorities depend on observations and actions only, not on rewards or done flags |
| Perd3qn.PriorityIsNotTdError | ReinLife/Models/PERD3QN.py:107-110 | a terminal step of reward 1 under the zero network: the TD target is 1 and the action value 0, but the priority is 0 |
| Perd3qn.TrainStep | ReinLife/Models/PERD3QN.py:94-115 | `train` on the agent's snapshot: the transitions and the target network are kept, the evaluation network becomes the stepped one exactly on success, and undefined probabilities fail with nothing changed |
| Perd3qn.TrainStepEffect | ReinLife/Models/PERD3QN.py:94-115 | train succeeds iff the priorities are drawable, the batch is non-empty, every observation and next observation has `input_dim` entries and every action is in range. On success the evaluation network is the stepped one; each drawn slot not drawn again holds its TD priority; undrawn slots, transitions, `pos` and the target network are kept; priorities stay healthy. On failure the buffer and networks are unchanged |
| Perd3qn.LearnStep | ReinLife/Models/PERD3QN.py:117-125 | `learn` on the agent's snapshot: the capacity is kept; during exploration it succeeds iff the store does and leaves the target network alone |
| Perd3qn.LearnStepEffect | ReinLife/Models/PERD3QN.py:117-125 | the transition is always stored; when training is not due the buffer is exactly `Stored` and beta is kept, so `train` did not run; the evaluation network changes only by a due training step; the target copies the evaluation network exactly on a successful past-exploration step at a multiple of the update frequency, and is untouched otherwise, including by every step that raises |
| Perd3qn.PERD3QNAgent.constructor | ReinLife/Models/PERD3QN.py:48-79 | epsilon 0.9, or 0 when not training; `n_epi` 0; an empty buffer with alpha 0.6; evaluation network = target network = the initial one, replaced by a loaded model (the target only when training) |
| Perd3qn.PERD3QNAgent.GetAction | ReinLife/Models/PERD3QN.py:81-89 | `n_epi` moves iff training and the argument is larger; then epsilon decays if above 0.05; epsilon never rises; on the greedy branch a state not `input_dim` long raises; otherwise the action is `act` on the evaluation network, so greedy means the first largest advantage |
| Perd3qn.PERD3QNAgent.Memorize | ReinLife/Models/PERD3QN.py:91-92 | the buffer becomes `Stored`, or nothing changes at capacity 0 |
| Perd3qn.PERD3QNAgent.Train | ReinLife/Models/PERD3QN.py:94-115 | moves the agent as `TrainStep` says |
| Perd3qn.PERD3QNAgent.Learn | ReinLife/Models/PERD3QN.py:117-125 | moves the agent as `LearnStep` says |
| Perd3qn.AddNoise | ReinLife/Models/PERD3QN.py:129 | `weight.add_(noise)`: same shape, each entry the weight plus the noise at that position |
| Perd3qn.PERD3QNAgent.ApplyGaussianNoise | ReinLife/Models/PERD3QN.py:127-130 | ends with the target network equal to the evaluation network, which is unchanged |
| World.Empty.constructor | TheGame/World/Entities.py:3-6 | `i`, `j` and `coordinates` come from the pair, and the value is kept |
| World.Entity.constructor | TheGame/World/Entities.py:11-14 | `i`, `j` and `coordinates` come from the pair, and the value is kept |
| World.Agent.constructor | TheGame/World/Entities.py:19-43 | position and target coordinates from the pair; health 200, age 0, max age 50, not dead or done, action -1, ate_berry -1, fitness 0, killed 0, no target and no recorded step |
| World.Agent.Move | TheGame/World/Entities.py:52-55 | the position becomes the target and `coordinates == [i, j]`; health, age, dead, done and fitness are unchanged |
| World.Agent.TargetLocation | TheGame/World/Entities.py:57-60 | sets the target and `target_coordinates == [i, j]`; the position is unchanged |
| World.TargetThenMove | TheGame/World/Entities.py:52-60 | `target_location(a, b)` then `move()` leaves the agent at `[a, b]` |
| World.Method | TheGame/World/Entities.py:62-78 | the method name is "PERD3QN" exactly for a PER-D3QN brain |
| World.Agent.LearnCall | TheGame/World/Entities.py:62-74 | the agent's last step is always passed; `prob` is passed iff the method is PPO; extra kwargs go to every method except PPO, DQN, A2C and PERDQN; the call raises iff there is no brain or forwarded kwargs repeat one of the seven common argument names |
| World.Agent.Learn | TheGame/World/Entities.py:62-74 | a PER-D3QN brain learns as `LearnStep` says with `n_epi` from the kwargs; any other kwargs set raises with nothing changed; the brain's epsilon and `n_epi` are never changed |
| World.Agent.ScrambleBrain | TheGame/World/Entities.py:76-78 | a PER-D3QN brain ends with target = evaluation network; the brain's epsilon, `n_epi`, buffer and evaluation network are unchanged; other brains are untouched; no brain raises |

## Left out

- The layers of the networks are not modelled: the torch linear layers,
  ReLU, Adam, the MSE loss and `backward`. These are floating-point tensor
  code in a library outside the model. A network is a value whose two heads
  are opaque functions of one observation. The optimiser step is the
  parameter `stepped`. The first-layer weights are data that the heads do
  not read.
- The sampling probabilities and the importance-sampling weights are not
  computed: `priority ** alpha`, the normalisation and `(N * p) ** -beta`
  need real exponentiation. The model keeps only whether `priority ** alpha`
  normalises to a distribution (`Drawable`, from the sign of each power
  and whether it is finite) and the division of the weights by their maximum
  (`NormalizeWeights`). The draw is a parameter, constrained to occupied
  slots of positive probability; its distribution is not modelled.
- All arithmetic is on unbounded integers and mathematical reals, not
  float32 or float64.
- `random.random`, `random.choice`, `torch.randn`, `np.random.choice` and
  the network initialisation are parameters.
- Loading a model with `torch.load` is the `loaded` parameter; file I/O
  and `eval()` are not modelled.
- `BasicBrain` (the base class) is not part of this model, and neither is
  `learning_rate`.
- The NEAT genome and config of `Agent.__init__`, and the `info` field, are
  not modelled; neither is used by the code modelled here.
- Brains other than PER-D3QN are not modelled. Only their method name is
  kept, so for them only the arguments of `learn` are modelled, not its
  effect.
- test.py is a driver script that builds brains from file paths. It is not
  part of this model.
- Perd3qn.PERD3QNAgent.constructor: requires `output_dim > 0` and networks
  with that many actions. The source would raise on the first `act`
  instead.
- ReplayBuffer.PrioritizedReplayBuffer.Sample: requires a non-empty buffer.
  `np.random.choice` on 0 elements raises, and that error path is not
  modelled.
- World.Agent.Learn: requires the agent's state, reward and next state to
  be set. The source would store `None` and fail only when training on it.
- Perd3qn.PERD3QNAgent.constructor: the frequencies, the batch size and the
  capacity are natural numbers. A negative capacity makes `np.zeros` raise
  ValueError at construction, and a negative batch size makes
  `np.random.choice` raise in `sample`; neither error is modelled. Negative
  frequencies, which Python's `%` accepts, are not modelled either.
- Dueling.CombineTotal: states the total as `actions` copies of the value
  sum (`Times`), which `TimesIsProduct` equates with the product.
