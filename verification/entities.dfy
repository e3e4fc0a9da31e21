/** The tiles and agents of the grid world. An agent keeps its position, a
    movement target, counters for its life and a brain; `learn` hands the
    agent's last step to the brain with the arguments its learning method
    expects, and `scramble_brain` perturbs a PER-D3QN brain. */
module World {
  import opened Numerics
  import opened ReplayBuffer
  import opened Dueling
  import opened Perd3qn

  /** An empty tile at `coordinates`. */
  class Empty {
    var i: int
    var j: int
    var value: int
    var coordinates: seq<int>

    constructor (coordinates: (int, int), value: int)
      ensures i == coordinates.0 && j == coordinates.1 && this.value == value
      ensures this.coordinates == [i, j]
    {
      i, j := coordinates.0, coordinates.1;
      this.value := value;
      this.coordinates := [coordinates.0, coordinates.1];
    }
  }

  /** A non-agent entity (food, say) at `coordinates`. */
  class Entity {
    var i: int
    var j: int
    var value: int
    var coordinates: seq<int>

    constructor (coordinates: (int, int), value: int)
      ensures i == coordinates.0 && j == coordinates.1 && this.value == value
      ensures this.coordinates == [i, j]
    {
      i, j := coordinates.0, coordinates.1;
      this.value := value;
      this.coordinates := [coordinates.0, coordinates.1];
    }
  }

  /** The brain an agent carries: a PER-D3QN agent, or a brain of another
      learning method, identified only by its method name. */
  datatype BrainKind = Perd3qnBrain(agent: PERD3QNAgent) | OtherBrain(name: string)

  type Brain = b: BrainKind | b.Perd3qnBrain? || b.name != "PERD3QN" witness OtherBrain("")

  /** `brain.method`. */
  function Method(b: Brain): (m: string)
    ensures m == "PERD3QN" <==> b.Perd3qnBrain?
  {
    match b
    case Perd3qnBrain(_) => "PERD3QN"
    case OtherBrain(name) => name
  }

  /** The keyword arguments of one `brain.learn` call. `prob` is `None` when
      the argument is not passed at all; `kwargs` are the extra keyword
      arguments forwarded from `Agent.learn`. */
  datatype LearnArgs = LearnArgs(
    age: int,
    dead: bool,
    action: int,
    state: Option<seq<real>>,
    reward: Option<real>,
    statePrime: Option<seq<real>>,
    done: bool,
    prob: Option<Option<real>>,
    kwargs: map<string, int>)

  /** The methods whose `learn` takes the seven common arguments only. */
  predicate PlainLearner(name: string)
  {
    name == "DQN" || name == "A2C" || name == "PERDQN"
  }

  /** The methods to whose `learn` the extra keyword arguments are
      forwarded: every method except PPO and the plain learners. */
  predicate ForwardsKwargs(name: string)
  {
    name != "PPO" && !PlainLearner(name)
  }

  /** The keyword names `Agent.learn` always passes itself; an extra keyword
      argument of one of these names, when forwarded, raises TypeError
      (multiple values for one keyword argument). */
  const CommonLearnArgs: set<string> := {"age", "dead", "action", "state", "reward", "state_prime", "done"}

  class Agent {
    var i: Option<int>
    var j: Option<int>
    var health: int
    var value: int
    var coordinates: seq<Option<int>>
    var targetCoordinates: seq<int>
    var dead: bool
    var done: bool
    var age: int
    var maxAge: int
    const brain: Option<Brain>
    var iTarget: Option<int>
    var jTarget: Option<int>
    var reproduced: bool
    var gen: Option<int>
    var fitness: int
    var action: int
    var killed: int
    var ateBerry: int
    var reward: Option<real>
    var state: Option<seq<real>>
    var statePrime: Option<seq<real>>
    var prob: Option<real>

    /** A new agent at `coordinates`: full health, age 0, alive, no target
      yet and no recorded step. */
    constructor (coordinates: (int, int), value: int, brain: Option<Brain> := None, gen: Option<int> := None)
      ensures i == Some(coordinates.0) && j == Some(coordinates.1)
      ensures this.coordinates == [i, j] && targetCoordinates == [coordinates.0, coordinates.1]
      ensures health == 200 && age == 0 && maxAge == 50 && !dead && !done
      ensures action == -1 && ateBerry == -1 && fitness == 0 && killed == 0 && !reproduced
      ensures iTarget.None? && jTarget.None?
      ensures reward.None? && state.None? && statePrime.None? && prob.None?
      ensures this.value == value && this.brain == brain && this.gen == gen
    {
      i, j := Some(coordinates.0), Some(coordinates.1);
      health := 200;
      this.value := value;
      this.coordinates := [Some(coordinates.0), Some(coordinates.1)];
      targetCoordinates := [coordinates.0, coordinates.1];
      dead := false;
      done := false;
      age := 0;
      maxAge := 50;
      this.brain := brain;
      iTarget, jTarget := None, None;
      reproduced := false;
      this.gen := gen;
      fitness := 0;
      action := -1;
      killed := 0;
      ateBerry := -1;
      reward, state, statePrime, prob := None, None, None, None;
    }

    /** `move`: step onto the target. Before any `target_location` the
      target is `None`, and so the position becomes. */
    method Move()
      modifies this`i, this`j, this`coordinates
      ensures i == old(iTarget) && j == old(jTarget) && coordinates == [i, j]
      ensures health == old(health) && age == old(age) && dead == old(dead) && done == old(done)
      ensures fitness == old(fitness) && targetCoordinates == old(targetCoordinates)
    {
      i := iTarget;
      j := jTarget;
      coordinates := [i, j];
    }

    /** `target_location`: record where the next move goes; the position
      itself does not change. */
    method TargetLocation(i: int, j: int)
      modifies this`iTarget, this`jTarget, this`targetCoordinates
      ensures iTarget == Some(i) && jTarget == Some(j) && targetCoordinates == [i, j]
      ensures this.i == old(this.i) && this.j == old(this.j) && coordinates == old(coordinates)
      ensures health == old(health) && age == old(age) && dead == old(dead) && done == old(done)
      ensures fitness == old(fitness)
    {
      iTarget := Some(i);
      jTarget := Some(j);
      targetCoordinates := [i, j];
    }

    /** The arguments `learn(**kwargs)` passes to the brain: the agent's last
      step always; `prob` only to a PPO brain; the extra keyword arguments to
      every brain except PPO, DQN, A2C and PERDQN. The call raises (`None`)
      without a brain, and when forwarded keyword arguments repeat one of
      the common argument names. */
    function LearnCall(kwargs: map<string, int>): (call: Option<LearnArgs>)
      reads this
      ensures call.Some? <==>
        brain.Some? && (ForwardsKwargs(Method(brain.value)) ==> kwargs.Keys !! CommonLearnArgs)
      ensures call.Some? ==>
        && call.value.age == age && call.value.dead == dead && call.value.action == action
        && call.value.state == state && call.value.reward == reward
        && call.value.statePrime == statePrime && call.value.done == done
      ensures call.Some? ==> (call.value.prob.Some? <==> Method(brain.value) == "PPO")
      ensures call.Some? && call.value.prob.Some? ==> call.value.prob.value == prob
      ensures call.Some? ==>
        call.value.kwargs == if Method(brain.value) == "PPO" || PlainLearner(Method(brain.value)) then map[] else kwargs
    {
      if brain.None? then None
      else
        var name := Method(brain.value);
        var common := LearnArgs(age, dead, action, state, reward, statePrime, done, None, map[]);
        if name == "PPO" then Some(common.(prob := Some(prob)))
        else if name == "DRQN" then
          if kwargs.Keys !! CommonLearnArgs then Some(common.(kwargs := kwargs)) else None
        else if PlainLearner(name) then Some(common)
        else if kwargs.Keys !! CommonLearnArgs then Some(common.(kwargs := kwargs)) else None
    }

    /** The PER-D3QN agent behind the brain, if that is what it is. */
    function Perd3qnAgent(): (a: Option<PERD3QNAgent>)
    {
      if brain.Some? && brain.value.Perd3qnBrain? then Some(brain.value.agent) else None
    }

    /** `learn(**kwargs)` for a PER-D3QN brain, whose `learn` takes exactly
      one extra argument, `n_epi`: any other set of keyword arguments
      raises TypeError. `draw` and `stepped` are the random inputs of the
      brain's `learn`. */
    method Learn(kwargs: map<string, int>, draw: seq<int>, stepped: Network) returns (ok: bool)
      requires Perd3qnAgent().Some?
      requires state.Some? && reward.Some? && statePrime.Some?
      requires kwargs.Keys == {"n_epi"} ==>
        Perd3qnAgent().value.CanLearn(
          Transition(state.value, action, reward.value, statePrime.value, done),
          age, dead, kwargs["n_epi"], draw, stepped)
      requires kwargs.Keys != {"n_epi"} ==> Perd3qnAgent().value.Valid()
      modifies Perd3qnAgent().value, Perd3qnAgent().value.buffer, Perd3qnAgent().value.buffer.priorities
      ensures var a := Perd3qnAgent().value;
        a.Valid() && (kwargs.Keys != {"n_epi"} ==> !ok && a.State() == old(a.State()))
      ensures var a := Perd3qnAgent().value;
        a.epsilon == old(a.epsilon) && a.nEpi == old(a.nEpi)
      ensures var a := Perd3qnAgent().value;
        kwargs.Keys == {"n_epi"} ==>
          Step(a.State(), ok)
          == LearnStep(old(a.State()), a.Config(), Transition(state.value, action, reward.value, statePrime.value, done),
                       age, dead, kwargs["n_epi"], draw, stepped)
    {
      var brainAgent := brain.value.agent;
      var call := LearnCall(kwargs);
      if call.None? || call.value.kwargs.Keys != {"n_epi"} {
        // a repeated, unexpected or missing keyword argument: TypeError
        return false;
      }
      ok := brainAgent.Learn(age, dead, action, state.value, reward.value, statePrime.value, done,
                             call.value.kwargs["n_epi"], draw, stepped);
    }

    /** `scramble_brain`: a PER-D3QN brain applies Gaussian noise to its
      target network, which leaves that network a copy of the evaluation
      network; any other brain is left alone; no brain at all raises. */
    method ScrambleBrain(noise: seq<seq<real>>) returns (ok: bool)
      requires Perd3qnAgent().Some? ==> Perd3qnAgent().value.Valid()
      requires Perd3qnAgent().Some? ==>
        var net := Perd3qnAgent().value.targetNet;
        |noise| == |net.fcWeight| && forall n :: 0 <= n < |noise| ==> |noise[n]| == |net.fcWeight[n]|
      modifies if Perd3qnAgent().Some? then {Perd3qnAgent().value} else {}
      ensures ok <==> brain.Some?
      ensures Perd3qnAgent().Some? ==>
        var a := Perd3qnAgent().value;
        a.Valid() && a.targetNet == a.evalNet && a.evalNet == old(a.evalNet)
      ensures Perd3qnAgent().Some? ==>
        var a := Perd3qnAgent().value;
        a.epsilon == old(a.epsilon) && a.nEpi == old(a.nEpi) && a.State().buffer == old(a.State().buffer)
    {
      if brain.None? {
        // `None.method`: AttributeError
        return false;
      }
      if Method(brain.value) == "PERD3QN" {
        brain.value.agent.ApplyGaussianNoise(noise);
      }
      ok := true;
    }
  }

  /** A client of `Agent`: a target followed by a move puts the agent on the
      target. */
  method TargetThenMove(agent: Agent, a: int, b: int)
    modifies agent`i, agent`j, agent`coordinates, agent`iTarget, agent`jTarget, agent`targetCoordinates
    ensures agent.i == Some(a) && agent.j == Some(b) && agent.coordinates == [Some(a), Some(b)]
    ensures agent.targetCoordinates == [a, b]
    ensures agent.health == old(agent.health) && agent.age == old(agent.age)
    ensures agent.dead == old(agent.dead) && agent.done == old(agent.done)
    ensures agent.fitness == old(agent.fitness)
  {
    agent.TargetLocation(a, b);
    agent.Move();
  }
}
