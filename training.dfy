/**
 * One generation of the outer training loop of es_grad_v2.2.py (lines
 * 294-380) and the loop itself, as a state machine over the step counters,
 * the run log and a record of the calls made to the opaque collaborators.
 *
 * What the collaborators return is input to the model: the population
 * `es.ask` hands out, the parameters each gradient actor has after its
 * update, and the `(fitness, steps)` of every `evaluate` rollout. What the
 * loop hands to them (the actor and critic updates and the `evaluate`
 * rollouts in the order they are made, the arguments of `es.tell`) is recorded in the state so that it can be reasoned about.
 */
module Training {
  import opened Common

  /** A policy's flattened parameter vector. */
  type Params = Vec

  /** The command-line settings the loop reads. */
  datatype Config = Config(popSize: nat, nGrad: nat, startSteps: int, period: int, maxSteps: int,
                           sigmaInit: real, damp: real)

  /** The settings the `sepCEM` engine is built with. */
  datatype Engine = Engine(dim: nat, sigmaInit: real, damp: real, popSize: nat, antithetic: bool, parents: nat)

  /**
   * The engine construction of lines 294-295, given the sizes of the
   * gradient actors: the dimension is that of the first actor, antithetic
   * sampling is asked for exactly when the population is even, and the
   * number of parents is the number of gradient actors. Without a gradient
   * actor, `actors[0]` raises an IndexError (`None`).
   */
  function BuildEngine(cfg: Config, actorSizes: seq<nat>): (e: Option<Engine>)
    requires |actorSizes| == cfg.nGrad
    ensures e.None? <==> cfg.nGrad == 0
    ensures e.Some? ==> e.value.dim == actorSizes[0] && e.value.popSize == cfg.popSize
                        && e.value.parents == cfg.nGrad
                        && e.value.sigmaInit == cfg.sigmaInit && e.value.damp == cfg.damp
    ensures e.Some? ==> (e.value.antithetic <==> e.value.popSize % 2 == 0)
  {
    if |actorSizes| == 0 then None
    else Some(Engine(actorSizes[0], cfg.sigmaInit, cfg.damp, cfg.popSize, cfg.popSize % 2 == 0, cfg.nGrad))
  }

  /** What one `evaluate` call returns: the mean score and the number of steps. */
  datatype RolloutResult = RolloutResult(fitness: real, steps: nat)

  /**
   * One call the loop makes on the shared learners: `actors[i].update`
   * (line 317), `critic.update` after actor `i`'s (line 322), the rollout of
   * gradient actor `i` (line 325) or of candidate `j` of the population (line
   * 339). Every rollout is an `evaluate` call with `memory=memory`, so the
   * order of these calls is the order in which the shared replay memory is
   * fed and read.
   */
  datatype Call = ActorUpdate(actor: nat) | CriticUpdate(actor: nat) | ActorRollout(actor: nat) | CandidateRollout(candidate: nat)

  /** The arguments of one `es.tell(params, fitness)` call (line 355). */
  datatype TellCall = TellCall(params: seq<Params>, fitness: seq<real>)

  /** One summary record appended to the run log, tagged with `total_steps`. */
  datatype LogRecord = LogRecord(totalSteps: nat)

  /**
   * What the collaborators return during one generation: the population
   * `es.ask(pop_size)` hands out, the parameters of each gradient actor
   * after its update, and the results of the gradient actors' and of the
   * population's rollouts.
   */
  datatype GenInput = GenInput(asked: seq<Params>, rlParams: seq<Params>, rlRollouts: seq<RolloutResult>, eaRollouts: seq<RolloutResult>)

  /** One rollout per candidate and, for every gradient actor, its parameters and its rollout. */
  predicate Shaped(cfg: Config, g: GenInput)
  {
    |g.rlParams| == cfg.nGrad && |g.rlRollouts| == cfg.nGrad && |g.eaRollouts| == |g.asked|
  }

  /**
   * The loop's variables that outlive a generation: the counters
   * `total_steps`, `actor_steps`, `step_cpt`, the log `df`, the last
   * snapshot of it written to `log.pkl` (`None` before the first), and the
   * calls made on the learners and to `es.tell`.
   */
  datatype LoopState = LoopState(totalSteps: nat, actorSteps: nat, stepCpt: nat,
                                 log: seq<LogRecord>, saved: Option<seq<LogRecord>>,
                                 calls: seq<Call>, tells: seq<TellCall>)

  /** The state before the first generation (lines 298-302). */
  function Init(): (s: LoopState)
    ensures LogInv(s) && s.stepCpt == 0 && s.log == [] && s.calls == [] && s.tells == []
  {
    LoopState(0, 0, 0, [], None, [], [])
  }

  /** The warm-up gate of line 311: the gradient stage runs only past `start_steps`. */
  predicate GradientStage(cfg: Config, totalSteps: nat)
  {
    totalSteps > cfg.startSteps
  }

  /** The fitnesses of some rollouts, in order. */
  function Fitnesses(rs: seq<RolloutResult>): (f: seq<real>)
    ensures |f| == |rs|
    ensures forall i :: 0 <= i < |rs| ==> f[i] == rs[i].fitness
  {
    if rs == [] then [] else Fitnesses(rs[..|rs| - 1]) + [rs[|rs| - 1].fitness]
  }

  /**
   * The total number of steps of some rollouts: the left fold of `Sum`, over
   * whole numbers, since step counts are integers and `Sum` adds reals.
   */
  function SumSteps(rs: seq<RolloutResult>): nat
  {
    if rs == [] then 0 else SumSteps(rs[..|rs| - 1]) + rs[|rs| - 1].steps
  }

  /**
   * Every `evaluate` call takes at least one step per episode it plays, so
   * rollouts of at least `m` steps each take at least `m` steps apiece in
   * total; with `n_episodes >= 1` and a non-empty population this is the
   * premise of `RunReachesBudget`.
   */
  lemma {:induction false} SumStepsAtLeast(rs: seq<RolloutResult>, m: nat)
    requires forall i :: 0 <= i < |rs| ==> rs[i].steps >= m
    ensures SumSteps(rs) >= m * |rs|
  {
    if rs != [] {
      SumStepsAtLeast(rs[..|rs| - 1], m);
      assert m * |rs| == m * (|rs| - 1) + m;
    }
  }

  /**
   * The calls of the gradient stage (lines 313-329): for each actor in turn,
   * its own update, then the critic's, then its rollout, which feeds the
   * memory the next actor's update samples from.
   */
  function GradientCalls(n: nat): (u: seq<Call>)
    ensures |u| == 3 * n
    ensures forall j :: 0 <= j < |u| ==>
              u[j] == if j % 3 == 0 then ActorUpdate(j / 3) else if j % 3 == 1 then CriticUpdate(j / 3) else ActorRollout(j / 3)
  {
    if n == 0 then [] else GradientCalls(n - 1) + [ActorUpdate(n - 1), CriticUpdate(n - 1), ActorRollout(n - 1)]
  }

  /** The population's rollouts (lines 336-342): one per candidate, in the order `es.ask` gave them. */
  function PopulationCalls(m: nat): (u: seq<Call>)
    ensures |u| == m
    ensures forall j :: 0 <= j < m ==> u[j] == CandidateRollout(j)
  {
    if m == 0 then [] else PopulationCalls(m - 1) + [CandidateRollout(m - 1)]
  }

  /**
   * The parameter list handed to `es.tell` (lines 353-354): the population
   * alone when there is no gradient actor's parameters, otherwise the
   * population followed by them. Both branches are the concatenation.
   */
  function Fuse(eaParams: seq<Params>, rlParams: seq<Params>): (params: seq<Params>)
    ensures params == eaParams + rlParams
  {
    if |rlParams| == 0 then eaParams else eaParams + rlParams
  }

  /**
   * Lines 305-355 of a generation from state `s`, given what the
   * collaborators return: the gradient stage past the warm-up, the
   * population's rollouts, the step update and the fused `es.tell` call. The
   * gradient actors' steps are added to `actor_steps` and then lost when it
   * is reset at line 335.
   */
  function Advance(cfg: Config, s: LoopState, g: GenInput): (t: LoopState)
    requires Shaped(cfg, g)
    ensures t.totalSteps - s.totalSteps == t.stepCpt - s.stepCpt == t.actorSteps
    ensures t.log == s.log && t.saved == s.saved
    ensures |t.calls| >= |s.calls| + |g.asked| && t.calls[..|s.calls|] == s.calls
    ensures |t.tells| == |s.tells| + 1 && t.tells[..|s.tells|] == s.tells
  {
    var gradient := GradientStage(cfg, s.totalSteps);
    var rlParams := if gradient then g.rlParams else [];
    var fitnessRl := if gradient then Fitnesses(g.rlRollouts) else [];
    var eaSteps := SumSteps(g.eaRollouts);
    LoopState(s.totalSteps + eaSteps, eaSteps, s.stepCpt + eaSteps, s.log, s.saved,
              s.calls + (if gradient then GradientCalls(cfg.nGrad) else []) + PopulationCalls(|g.asked|),
              s.tells + [TellCall(Fuse(g.asked, rlParams), Fitnesses(g.eaRollouts) + fitnessRl)])
  }

  /**
   * Lines 358-377: once `step_cpt` reaches `period`, the log as it stands is
   * written to `log.pkl`, a record tagged with `total_steps` is appended to
   * it and `step_cpt` goes back to 0.
   */
  function Checkpoint(cfg: Config, s: LoopState): (t: LoopState)
    ensures t.stepCpt == 0 || t.stepCpt < cfg.period
    ensures t.log == s.log || (t.log == s.log + [LogRecord(s.totalSteps)] && t.saved == Some(s.log) && t.stepCpt == 0)
    ensures t.totalSteps == s.totalSteps && t.actorSteps == s.actorSteps && t.calls == s.calls && t.tells == s.tells
  {
    if s.stepCpt >= cfg.period then s.(stepCpt := 0, saved := Some(s.log), log := s.log + [LogRecord(s.totalSteps)])
    else s
  }

  /**
   * One generation: lines 305-380. `total_steps` grows by the steps counted
   * in `actor_steps`, `step_cpt` ends at 0 or below `period`, and exactly one
   * `es.tell` call is added.
   */
  function NextState(cfg: Config, s: LoopState, g: GenInput): (t: LoopState)
    requires Shaped(cfg, g)
    ensures t.totalSteps == s.totalSteps + t.actorSteps
    ensures t.stepCpt == 0 || t.stepCpt < cfg.period
    ensures |t.tells| == |s.tells| + 1 && t.tells[..|s.tells|] == s.tells
  {
    Checkpoint(cfg, Advance(cfg, s, g))
  }

  /** The loop of line 303, over the generations' inputs: it stops once `total_steps` reaches `max_steps`. */
  function Run(cfg: Config, s: LoopState, gens: seq<GenInput>): (t: LoopState)
    requires forall i :: 0 <= i < |gens| ==> Shaped(cfg, gens[i])
    ensures t.totalSteps >= s.totalSteps && |t.calls| >= |s.calls| && |t.tells| >= |s.tells|
    decreases |gens|
  {
    if gens == [] || s.totalSteps >= cfg.maxSteps then s
    else Run(cfg, NextState(cfg, s, gens[0]), gens[1..])
  }

  /** How many of the given generations the loop runs before it stops. */
  function Executed(cfg: Config, s: LoopState, gens: seq<GenInput>): (n: nat)
    requires forall i :: 0 <= i < |gens| ==> Shaped(cfg, gens[i])
    ensures n <= |gens|
    decreases |gens|
  {
    if gens == [] || s.totalSteps >= cfg.maxSteps then 0
    else 1 + Executed(cfg, NextState(cfg, s, gens[0]), gens[1..])
  }

  /**
   * What holds of the log at any point: `step_cpt` counts the steps since
   * the last log record (or since the start), the persisted snapshot is the
   * log without its last record, and the log's step tags never decrease.
   */
  predicate LogInv(s: LoopState)
  {
    (if s.log == [] then s.saved == None && s.stepCpt == s.totalSteps
     else s.saved == Some(s.log[..|s.log| - 1]) && s.log[|s.log| - 1].totalSteps + s.stepCpt == s.totalSteps) &&
    (forall i, j :: 0 <= i < j < |s.log| ==> s.log[i].totalSteps <= s.log[j].totalSteps)
  }

  /** What holds between generations: besides `LogInv`, `step_cpt` never rests at or above `period` unless it is 0. */
  predicate Inv(cfg: Config, s: LoopState)
  {
    LogInv(s) && (s.stepCpt == 0 || s.stepCpt < cfg.period)
  }

  /** The loop starts in a state that satisfies the invariant. */
  lemma InitSatisfiesInv(cfg: Config)
    ensures Inv(cfg, Init())
  {
  }

  /** Lines 305-355 keep the log invariant: both counters grow by the same amount. */
  lemma AdvanceKeepsLogInv(cfg: Config, s: LoopState, g: GenInput)
    requires Shaped(cfg, g) && LogInv(s)
    ensures LogInv(Advance(cfg, s, g))
  {
  }

  /** The checkpoint keeps the log invariant and brings `step_cpt` below `period` or to 0. */
  lemma CheckpointKeepsInv(cfg: Config, s: LoopState)
    requires LogInv(s)
    ensures Inv(cfg, Checkpoint(cfg, s))
  {
    if s.stepCpt >= cfg.period {
      var t := Checkpoint(cfg, s);
      assert t.log[..|t.log| - 1] == s.log;
      assert s.log != [] ==> s.log[|s.log| - 1].totalSteps <= s.totalSteps;
    }
  }

  /** One generation preserves the invariant. */
  lemma NextKeepsInv(cfg: Config, s: LoopState, g: GenInput)
    requires Shaped(cfg, g) && Inv(cfg, s)
    ensures Inv(cfg, NextState(cfg, s, g))
  {
    AdvanceKeepsLogInv(cfg, s, g);
    CheckpointKeepsInv(cfg, Advance(cfg, s, g));
  }

  /**
   * The gradient stage and the fusion: exactly one `es.tell` call is added;
   * its fitness list is the population's fitnesses followed by the gradient
   * actors', its parameter list the population followed by the gradient
   * actors' parameters, index by index; the gradient actors take part, each
   * updated once, followed by one critic update and its rollout, exactly
   * when `total_steps` is past `start_steps`, and otherwise the call gets the
   * population alone; the population's rollouts come after all of these.
   */
  lemma FusionPairsCandidates(cfg: Config, s: LoopState, g: GenInput)
    requires Shaped(cfg, g)
    ensures var t := NextState(cfg, s, g);
            var tell := t.tells[|s.tells|];
            var nRl := if GradientStage(cfg, s.totalSteps) then cfg.nGrad else 0;
            && |t.tells| == |s.tells| + 1 && t.tells[..|s.tells|] == s.tells
            && |tell.params| == |tell.fitness| == |g.asked| + nRl
            && (forall i :: 0 <= i < |g.asked| ==> tell.params[i] == g.asked[i] && tell.fitness[i] == g.eaRollouts[i].fitness)
            && (forall j :: 0 <= j < nRl ==>
                  tell.params[|g.asked| + j] == g.rlParams[j] && tell.fitness[|g.asked| + j] == g.rlRollouts[j].fitness)
            && (nRl == 0 ==> tell.params == g.asked)
            && t.calls == s.calls + GradientCalls(nRl) + PopulationCalls(|g.asked|)
  {
    var t := NextState(cfg, s, g);
    assert t.tells[..|s.tells|] == s.tells;
  }

  /**
   * Step accounting: `total_steps` and `step_cpt` grow by the population's
   * rollout steps and by nothing else; the gradient actors' rollout steps
   * never reach them (changing those steps changes neither counter nor the log).
   */
  lemma StepAccounting(cfg: Config, s: LoopState, g: GenInput, rlRollouts: seq<RolloutResult>)
    requires Shaped(cfg, g) && |rlRollouts| == cfg.nGrad
    ensures var t := NextState(cfg, s, g);
            && t.totalSteps == s.totalSteps + SumSteps(g.eaRollouts)
            && t.actorSteps == SumSteps(g.eaRollouts)
            && (t.stepCpt == 0 || t.stepCpt == s.stepCpt + SumSteps(g.eaRollouts))
    ensures var t, t' := NextState(cfg, s, g), NextState(cfg, s, g.(rlRollouts := rlRollouts));
            t'.totalSteps == t.totalSteps && t'.stepCpt == t.stepCpt && t'.log == t.log
  {
  }

  /**
   * Checkpoint cadence: a summary record tagged with the new `total_steps`
   * is appended, and `step_cpt` reset to 0, exactly when `step_cpt` after
   * the step update reaches `period`; the snapshot written then is the log
   * before the append. Otherwise the log, the snapshot and `step_cpt` after
   * the step update are kept.
   */
  lemma CheckpointCadence(cfg: Config, s: LoopState, g: GenInput)
    requires Shaped(cfg, g)
    ensures var t := NextState(cfg, s, g);
            var cpt := s.stepCpt + SumSteps(g.eaRollouts);
            && (cpt >= cfg.period ==> t.log == s.log + [LogRecord(t.totalSteps)] && t.stepCpt == 0 && t.saved == Some(s.log))
            && (cpt < cfg.period ==> t.log == s.log && t.stepCpt == cpt && t.saved == s.saved)
  {
  }

  /** The loop preserves the invariant over any number of generations. */
  lemma {:induction false} RunKeepsInv(cfg: Config, s: LoopState, gens: seq<GenInput>)
    requires forall i :: 0 <= i < |gens| ==> Shaped(cfg, gens[i])
    requires Inv(cfg, s)
    ensures Inv(cfg, Run(cfg, s, gens))
    decreases |gens|
  {
    if gens != [] && s.totalSteps < cfg.maxSteps {
      NextKeepsInv(cfg, s, gens[0]);
      RunKeepsInv(cfg, NextState(cfg, s, gens[0]), gens[1..]);
    }
  }

  /**
   * The loop only moves forward: `total_steps` never decreases (so once the
   * gradient stage is on it stays on), the log and the `es.tell` calls are
   * only appended to, one call per generation run, and the loop stops short
   * of its inputs only once `total_steps` has reached `max_steps`.
   */
  lemma {:induction false} RunMovesForward(cfg: Config, s: LoopState, gens: seq<GenInput>)
    requires forall i :: 0 <= i < |gens| ==> Shaped(cfg, gens[i])
    ensures var t := Run(cfg, s, gens);
            && t.totalSteps >= s.totalSteps
            && (GradientStage(cfg, s.totalSteps) ==> GradientStage(cfg, t.totalSteps))
            && |t.log| >= |s.log| && t.log[..|s.log|] == s.log
            && |t.tells| == |s.tells| + Executed(cfg, s, gens) && t.tells[..|s.tells|] == s.tells
            && (Executed(cfg, s, gens) < |gens| ==> t.totalSteps >= cfg.maxSteps)
    decreases |gens|
  {
    if gens != [] && s.totalSteps < cfg.maxSteps {
      var next := NextState(cfg, s, gens[0]);
      RunMovesForward(cfg, next, gens[1..]);
      var t := Run(cfg, next, gens[1..]);
      assert next.log[..|s.log|] == s.log;
      assert t.log[..|s.log|] == t.log[..|next.log|][..|s.log|];
      assert next.tells[..|s.tells|] == s.tells;
      assert t.tells[..|s.tells|] == t.tells[..|next.tells|][..|s.tells|];
    }
  }

  /**
   * The loop terminates within budget: when every generation's population
   * rollouts take at least one step, `max_steps - total_steps` generations
   * are enough to reach `max_steps`.
   */
  lemma {:induction false} RunReachesBudget(cfg: Config, s: LoopState, gens: seq<GenInput>)
    requires forall i :: 0 <= i < |gens| ==> Shaped(cfg, gens[i])
    requires forall i :: 0 <= i < |gens| ==> SumSteps(gens[i].eaRollouts) >= 1
    requires |gens| >= cfg.maxSteps - s.totalSteps
    ensures Run(cfg, s, gens).totalSteps >= cfg.maxSteps
    decreases |gens|
  {
    if gens != [] && s.totalSteps < cfg.maxSteps {
      RunReachesBudget(cfg, NextState(cfg, s, gens[0]), gens[1..]);
    }
  }

  /** The training loop's variables, updated in place generation after generation. */
  class Trainer {
    const cfg: Config
    var totalSteps: nat
    var actorSteps: nat
    var stepCpt: nat
    var log: seq<LogRecord>
    var saved: Option<seq<LogRecord>>
    var calls: seq<Call>
    var tells: seq<TellCall>

    /** The abstract value of the loop's variables. */
    function State(): LoopState
      reads this
    {
      LoopState(totalSteps, actorSteps, stepCpt, log, saved, calls, tells)
    }

    /** Lines 298-302: every counter at 0, an empty log, no call made yet. */
    constructor (cfg: Config)
      ensures this.cfg == cfg && State() == Init() && Inv(cfg, State())
    {
      this.cfg := cfg;
      totalSteps, actorSteps, stepCpt := 0, 0, 0;
      log, saved, calls, tells := [], None, [], [];
    }

    /** One pass of the loop body (lines 305-380). */
    method Generation(g: GenInput)
      requires Shaped(cfg, g)
      modifies this
      ensures State() == NextState(cfg, old(State()), g)
    {
      GatherAndTell(g);
      SaveIfDue();
    }

    /** Lines 305-355: the gradient stage, the population's rollouts, the step update and `es.tell`. */
    method GatherAndTell(g: GenInput)
      requires Shaped(cfg, g)
      modifies this
      ensures State() == Advance(cfg, old(State()), g)
    {
      var fitnessRl: seq<real> := [];
      var rlParams: seq<Params> := [];
      var eaParams := g.asked;
      if totalSteps > cfg.startSteps {
        rlParams, fitnessRl := TrainGradientActors(g);
      }
      var fitnessEa := EvaluatePopulation(g);

      totalSteps := totalSteps + actorSteps;
      stepCpt := stepCpt + actorSteps;

      var fitness := fitnessEa + fitnessRl;
      var params := if |rlParams| == 0 then eaParams else eaParams + rlParams;
      tells := tells + [TellCall(params, fitness)];
    }

    /**
     * Lines 313-329: for each gradient actor in turn, its update, a critic
     * update, its rollout (whose steps go to `actor_steps`), and its
     * parameters and fitness appended to `rl_params` and `fitness_rl`.
     */
    method TrainGradientActors(g: GenInput) returns (rlParams: seq<Params>, fitnessRl: seq<real>)
      requires Shaped(cfg, g)
      modifies this
      ensures rlParams == g.rlParams && fitnessRl == Fitnesses(g.rlRollouts)
      ensures calls == old(calls) + GradientCalls(cfg.nGrad)
      ensures actorSteps == old(actorSteps) + SumSteps(g.rlRollouts)
      ensures totalSteps == old(totalSteps) && stepCpt == old(stepCpt)
      ensures log == old(log) && saved == old(saved) && tells == old(tells)
    {
      rlParams, fitnessRl := [], [];
      var i := 0;
      while i < cfg.nGrad
        invariant i <= cfg.nGrad
        invariant rlParams == g.rlParams[..i]
        invariant fitnessRl == Fitnesses(g.rlRollouts[..i])
        invariant calls == old(calls) + GradientCalls(i)
        invariant actorSteps == old(actorSteps) + SumSteps(g.rlRollouts[..i])
        invariant totalSteps == old(totalSteps) && stepCpt == old(stepCpt)
        invariant log == old(log) && saved == old(saved) && tells == old(tells)
      {
        calls := calls + [ActorUpdate(i)];
        calls := calls + [CriticUpdate(i)];
        var rollout := g.rlRollouts[i];
        calls := calls + [ActorRollout(i)];
        assert g.rlRollouts[..i + 1][..i] == g.rlRollouts[..i];
        actorSteps := actorSteps + rollout.steps;
        rlParams := rlParams + [g.rlParams[i]];
        fitnessRl := fitnessRl + [rollout.fitness];
        i := i + 1;
      }
      assert g.rlParams[..i] == g.rlParams && g.rlRollouts[..i] == g.rlRollouts;
    }

    /**
     * Lines 335-342: `actor_steps` is reset, then every candidate of the
     * population is rolled out in turn (feeding the shared memory), its steps
     * added to `actor_steps` and its fitness appended to `fitness_ea`.
     */
    method EvaluatePopulation(g: GenInput) returns (fitnessEa: seq<real>)
      requires Shaped(cfg, g)
      modifies this
      ensures fitnessEa == Fitnesses(g.eaRollouts)
      ensures actorSteps == SumSteps(g.eaRollouts)
      ensures calls == old(calls) + PopulationCalls(|g.asked|)
      ensures totalSteps == old(totalSteps) && stepCpt == old(stepCpt)
      ensures log == old(log) && saved == old(saved) && tells == old(tells)
    {
      actorSteps := 0;
      fitnessEa := [];
      var j := 0;
      while j < |g.asked|
        invariant j <= |g.asked|
        invariant fitnessEa == Fitnesses(g.eaRollouts[..j])
        invariant actorSteps == SumSteps(g.eaRollouts[..j])
        invariant calls == old(calls) + PopulationCalls(j)
        invariant totalSteps == old(totalSteps) && stepCpt == old(stepCpt)
        invariant log == old(log) && saved == old(saved) && tells == old(tells)
      {
        var rollout := g.eaRollouts[j];
        calls := calls + [CandidateRollout(j)];
        assert g.eaRollouts[..j + 1][..j] == g.eaRollouts[..j];
        actorSteps := actorSteps + rollout.steps;
        fitnessEa := fitnessEa + [rollout.fitness];
        j := j + 1;
      }
      assert g.eaRollouts[..j] == g.eaRollouts;
    }

    /** Lines 358-377: the checkpoint, when `step_cpt` has reached `period`. */
    method SaveIfDue()
      modifies this
      ensures State() == Checkpoint(cfg, old(State()))
    {
      if stepCpt >= cfg.period {
        saved := Some(log);
        log := log + [LogRecord(totalSteps)];
        stepCpt := 0;
      }
    }

    /**
     * The loop of line 303 over the given generations' inputs: it runs them
     * in order while `total_steps < max_steps` and returns how many it ran.
     */
    method Train(gens: seq<GenInput>) returns (ran: nat)
      requires forall i :: 0 <= i < |gens| ==> Shaped(cfg, gens[i])
      modifies this
      ensures ran == Executed(cfg, old(State()), gens)
      ensures State() == Run(cfg, old(State()), gens)
    {
      ran := 0;
      while ran < |gens| && totalSteps < cfg.maxSteps
        invariant ran <= |gens|
        invariant Run(cfg, old(State()), gens) == Run(cfg, State(), gens[ran..])
        invariant Executed(cfg, old(State()), gens) == ran + Executed(cfg, State(), gens[ran..])
        decreases |gens| - ran
      {
        assert gens[ran..][1..] == gens[ran + 1..];
        Generation(gens[ran]);
        ran := ran + 1;
      }
    }
  }
}
