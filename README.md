# CEM-RL co-training loop: a verified model of its bookkeeping

`es_grad_v2.2.py` trains a population of policies with a separable
Cross-Entropy Method (CEM) and, alongside it, gradient-trained DDPG actors
sharing a critic and a replay memory. The networks, the gym environment
and the CEM engine are floating-point or foreign code. Under them sit two
sequential pieces of bookkeeping, and this project models and proves
them:

- **`evaluate`** (module `Rollout`, `rollout.dfy`). It runs `n_episodes`
  episodes. Each episode ends at the first step whose `done` is true. The
  function sums the rewards of each episode, counts the `env.step` calls
  across the whole call, and appends one transition per step to the replay
  memory. Each transition carries a "truncation-aware" done flag. The
  environment is a script: entry `i` is what the `i`-th `env.step` call of
  the call yields, together with the action the policy chose. Because the
  cumulative counter `steps` counts exactly those calls, it is also the
  position in the script. The observation the reset of episode `k` returns
  is `reset(k)`. The replay memory is a class (`Memory`) with an
  append-only sequence as its field.
- **The outer training loop** (module `Training`, `training.dfy`). Each
  generation asks the engine for a population. Once `total_steps` is past
  `start_steps`, it updates each gradient actor, then the critic, and
  evaluates that actor. It then evaluates the population, adds the
  population's steps to `total_steps` and `step_cpt`, and hands the fused
  lists (`ea ++ rl`, for both parameters and fitnesses) to `es.tell`. When
  `step_cpt` reaches `period` it writes a checkpoint. These are inputs: the
  population, the actors' parameters after their updates, and each
  rollout's `(fitness, steps)`. These are recorded in the state: the
  updates and the `evaluate` rollouts, in the order they are made, and the
  arguments of every `tell`. Every rollout feeds the shared replay memory,
  so that order is also the order in which rollouts feed the memory and
  updates sample from it. The loop's variables form a
  class (`Trainer`) whose methods update them in place. Each method is
  proved equal to a pure transition function (`Advance`, `Checkpoint`,
  `NextState`, `Run`), and the lemmas are proved about those functions.

`common.dfy` holds `Option`, sums, and numpy's mean (NaN is `None`).

Two quirks of the source are modelled as written. First, the done flag
compares the cumulative step counter of the whole `evaluate` call with
`_max_episode_steps`, not a per-episode counter (line 116).
`CumulativeDoneFlag` shows what this means for a second episode. Second,
the gradient actors' rollout steps are added to `actor_steps`, but that
counter is reset at line 335, so those steps never reach `total_steps`
(`StepAccounting`). The code updates each actor before the critic (lines
317, 322), and the model follows that order.

## Model

| member | source | states |
|---|---|---|
| `Common.Mean` | es_grad_v2.2.py:136 | `np.mean`: NaN (`None`) exactly for an empty list; otherwise the value times the length is the sum |
| `Rollout.Memory.constructor` | es_grad_v2.2.py:267 | a fresh replay memory holds no transition |
| `Rollout.Memory.Add` | es_grad_v2.2.py:122-123 | `memory.add` appends exactly the given transition and changes nothing else |
| `Rollout.Rewards` | es_grad_v2.2.py:115-118 | the rewards the first `n` `env.step` calls return, one per step, in step order |
| `Rollout.RewardsInIsSum` | es_grad_v2.2.py:118 | `RewardsIn`, the sum of the first `n` rewards indexed by a step count, is `Sum` of `Rewards`, so the rollout's reward total and the mean's `Sum` are the same left fold |
| `Rollout.DoneFlag` | es_grad_v2.2.py:116-117 | the flag is 0 or 1; it is 1 exactly when the env reported `done` and the counter before its increment is not one short of `_max_episode_steps` |
| `Rollout.ObsAt` | es_grad_v2.2.py:108-124 | computes the observation the policy acts on at step `i`: the reset observation of episode `k` (`k` being the number of dones before `i`) when `i` opens an episode, otherwise the previous step's `n_obs` (line 124) |
| `Rollout.TransitionAt` | es_grad_v2.2.py:113-123 | computes the tuple `(obs, n_obs, action, reward, done_bool)` handed to `memory.add` at step `i`, with `done_bool` from the cumulative index `i` |
| `Rollout.RecordedAt` | es_grad_v2.2.py:113-124 | entry `i` of what the steps record is step `i`'s observation (the reset one at an episode start, else the previous next observation), next observation, action, reward, and the done flag computed from the cumulative index `i` |
| `Rollout.ScanUpTo` | es_grad_v2.2.py:102-134 | the score bookkeeping closes one score per `done` seen |
| `Rollout.PlayEpisode` | es_grad_v2.2.py:107-134 | one episode runs from its start to its first `done` and no further; its score is appended to the scores; the memory gains exactly that episode's transitions in step order |
| `Rollout.Evaluate` | es_grad_v2.2.py:83-136 | `steps` is the shortest script prefix holding `n_episodes` dones (so `steps >= n_episodes`); the result is the mean of the per-episode scores; with a memory, exactly `steps` transitions are appended in step order after the earlier contents |
| `Rollout.ScanWithoutDone` | es_grad_v2.2.py:111-118 | steps without `done` only add their rewards to the running score |
| `Rollout.ScanOfEpisode` | es_grad_v2.2.py:105-134 | one episode gives exactly one score, the sum of its rewards |
| `Rollout.ScanOfPrefix` | es_grad_v2.2.py:105-134 | the bookkeeping of the first `n` steps does not depend on later steps |
| `Rollout.ScanAppend` | es_grad_v2.2.py:105-134 | after a closed episode, the following steps are scored as if a fresh call had started |
| `Rollout.ScanOfEpisodes` | es_grad_v2.2.py:102-134 | episodes played in sequence give one score each, in order, each the sum of that episode's rewards |
| `Rollout.ScanConservesReward` | es_grad_v2.2.py:107-134 | closed scores plus the running score equal the total reward: nothing lost or counted twice |
| `Rollout.EvaluateScoreIsMeanReturn` | es_grad_v2.2.py:134-136 | the returned score is the total reward of the consumed steps divided by `n_episodes`, and NaN when no episode is run |
| `Rollout.CumulativeDoneFlag` | es_grad_v2.2.py:116-117 | two one-step episodes with `_max_episode_steps == 1`: the first transition is flagged as truncated (0) and the second as terminal (1); the second starts from its own reset observation |
| `Training.BuildEngine` | es_grad_v2.2.py:294-295 | the engine gets the first actor's dimension, the population size, `parents == n_grad`, and antithetic sampling exactly when the population is even; without an actor, `actors[0]` fails |
| `Training.Fitnesses` | es_grad_v2.2.py:325-342 | the fitness list has one entry per rollout, in rollout order |
| `Training.GradientCalls` | es_grad_v2.2.py:313-329 | the gradient stage makes `3 * n_grad` calls: for each actor in order, its own update, then the critic's, then its rollout, which feeds the memory before the next actor's update |
| `Training.PopulationCalls` | es_grad_v2.2.py:336-342 | the population stage makes one rollout per candidate, in the order `es.ask` returned them |
| `Training.Fuse` | es_grad_v2.2.py:353-354 | both branches of the parameter fusion give the population followed by the gradient actors' parameters |
| `Training.Init` | es_grad_v2.2.py:298-302 | the loop starts with `step_cpt == 0`, an empty log, no calls and no `tell`, a state that satisfies the log invariant |
| `Training.GradientStage` | es_grad_v2.2.py:311 | computes the warm-up gate: the gradient stage runs exactly when `total_steps > start_steps`, strictly |
| `Training.Advance` | es_grad_v2.2.py:305-355 | a generation up to `es.tell`: `total_steps` and `step_cpt` grow by the same amount, the `actor_steps` of the population's rollouts; log and snapshot are untouched; calls are appended (at least one rollout per candidate) and exactly one `tell` is appended |
| `Training.Checkpoint` | es_grad_v2.2.py:358-377 | the checkpoint test leaves `step_cpt` at 0 or below `period`; it either keeps the log or appends one record tagged with `total_steps`, persisting the log before it and resetting `step_cpt`; counters, calls and `tell`s are untouched |
| `Training.NextState` | es_grad_v2.2.py:305-380 | one generation: `total_steps` grows by the final `actor_steps`, `step_cpt` ends at 0 or below `period`, and exactly one `tell` is appended |
| `Training.Run` | es_grad_v2.2.py:303-380 | the loop over the given generations, stopping at `max_steps`: `total_steps`, the calls and the `tell`s never shrink |
| `Training.Executed` | es_grad_v2.2.py:303 | the loop runs at most as many generations as it has inputs for |
| `Training.InitSatisfiesInv` | es_grad_v2.2.py:298-302 | the initial counters and the empty log satisfy the loop invariant |
| `Training.AdvanceKeepsLogInv` | es_grad_v2.2.py:347-349 | the step update keeps `step_cpt` equal to the steps since the last log record |
| `Training.CheckpointKeepsInv` | es_grad_v2.2.py:358-377 | after the checkpoint test, `step_cpt` is 0 or below `period`; the persisted snapshot is the log without its last record; log tags never decrease |
| `Training.NextKeepsInv` | es_grad_v2.2.py:305-377 | one generation preserves the loop invariant |
| `Training.FusionPairsCandidates` | es_grad_v2.2.py:305-355 | exactly one `tell` per generation; its lists have as many entries as the asked population plus `n_rl` with `n_rl = n_grad` past the warm-up (strict `>`) and 0 before; index `i` of the parameters pairs with index `i` of the fitnesses (population first, then the actors in order); before the warm-up ends, `tell` gets exactly the population; the calls added are the gradient stage's (if on) followed by one rollout per candidate |
| `Training.StepAccounting` | es_grad_v2.2.py:325-349 | `total_steps` grows by exactly the population's rollout steps, and `step_cpt` does too or is reset to 0 by the checkpoint (`CheckpointCadence` tells which); `actor_steps` ends as that sum; changing the gradient actors' rollout steps changes neither counter nor the log |
| `Training.CheckpointCadence` | es_grad_v2.2.py:358-377 | if `step_cpt` after the step update is at least `period`, exactly one record tagged with the new `total_steps` is appended, the snapshot is the log before the append, and `step_cpt` becomes 0; otherwise log, snapshot and `step_cpt` are kept |
| `Training.RunKeepsInv` | es_grad_v2.2.py:303-380 | the loop preserves the invariant over any number of generations |
| `Training.RunMovesForward` | es_grad_v2.2.py:303-380 | `total_steps` never decreases, so once the gradient stage is on it stays on; log and `tell` calls are only appended to, one `tell` per generation run; the loop stops early only once `total_steps >= max_steps` |
| `Training.SumStepsAtLeast` | es_grad_v2.2.py:336-341 | rollouts of at least `m` steps each (an `evaluate` call takes at least `n_episodes` steps) add at least `m` steps per rollout to `actor_steps`, so with `n_episodes >= 1` and a non-empty population every generation advances `total_steps` |
| `Training.RunReachesBudget` | es_grad_v2.2.py:303-349 | when each generation's population rollouts take at least one step, `max_steps - total_steps` generations suffice to reach the budget |
| `Training.Trainer.constructor` | es_grad_v2.2.py:298-302 | a fresh trainer has all counters at 0, an empty log, no snapshot and no calls, and satisfies the invariant |
| `Training.Trainer.Generation` | es_grad_v2.2.py:305-380 | one pass of the loop body moves the variables exactly as `NextState` |
| `Training.Trainer.GatherAndTell` | es_grad_v2.2.py:305-355 | the gradient stage (only past the warm-up gate), the population's rollouts, the step update and the fused `tell`, as `Advance` |
| `Training.Trainer.TrainGradientActors` | es_grad_v2.2.py:311-332 | `rl_params` and `fitness_rl` get one entry per actor in actor order; per actor, its update, a critic update and its rollout, in that order; those rollouts' steps go to `actor_steps` only |
| `Training.Trainer.EvaluatePopulation` | es_grad_v2.2.py:335-345 | `actor_steps` is reset and then equals the population's rollout steps; `fitness_ea` has one entry per candidate in order; one rollout call per candidate is recorded; nothing else changes |
| `Training.Trainer.SaveIfDue` | es_grad_v2.2.py:358-377 | the checkpoint test and its effect, as `Checkpoint` |
| `Training.Trainer.Train` | es_grad_v2.2.py:303 | runs the given generations in order while `total_steps < max_steps`, as `Run`, and returns how many it ran |

## Left out

- Actor and critic networks, forward passes, Adam steps and the soft target update with `tau` (lines 29-81, 139-197) are floating-point PyTorch numerics. An update is only recorded as a call.
- `sepCEM.ask` and `sepCEM.tell` are opaque, from ES.py, which is not part of this model. The population `ask` returns is an input, and the `tell` arguments are recorded. No mean, covariance or antithetic sampling is modelled, and neither are `es.mu` or the actors saved from it.
- The replay memory's capacity, ring-buffer overwrite and `memory.sample` are from memory.py, which is not part of this model. The memory is an unbounded append-only sequence. Whether an update is skipped while the memory holds fewer than `batch_size` transitions is decided in that file, so the model does not say.
- The gym environment is a script of step results plus a reset-observation function. The `env.reset()` after a `done` (line 132) has no modelled effect, because its result is discarded. `render` is I/O.
- Action selection is opaque. The policy's forward pass, the `GaussianNoise` branch, `np.clip` and the `random=True` branch are foreign or floating-point code. The action of each step is part of the script.
- Rewards and fitnesses are real numbers, not floats. Evaluating with `n_episodes == 0` gives NaN (`None`) in `Evaluate`. The training loop takes rollout fitnesses as plain reals.
- The content of a log record is only its `total_steps` tag. Its mean and max fields are numpy floats: during warm-up `np.mean([])` is NaN, and with an empty fitness list `np.max` raises.
- The checkpoint files (`os.makedirs`, `save_model`), `df.to_pickle` as a file write (modelled only as the snapshot value `saved`), argparse, `parameters.txt`, `get_output_folder`, printing and CUDA selection are I/O or device plumbing.
- The loop runs over a finite sequence of generation inputs. With `pop_size == 0` or rollouts of zero steps, the source never reaches `max_steps`. The model then stops when the inputs run out (`RunReachesBudget` states when it does not).
- Rollout.Evaluate: requires the script to hold at least `n_episodes` dones. An environment that never reports `done` makes the source loop forever, and a total model of that is not stated.
- The training model records each rollout's place among the calls, not the transitions it appends to the shared memory: those are `Rollout.Evaluate`'s, and the rollouts' `(fitness, steps)` are inputs here rather than computed from a script.
- Training.Trainer.TrainGradientActors: the name `f` printed after the gradient loop (line 332) is not modelled, because it only feeds a print.
