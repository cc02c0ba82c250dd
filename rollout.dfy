/**
 * The rollout bookkeeping of `evaluate` (es_grad_v2.2.py:83-136).
 *
 * The environment is a script: the `i`-th entry is what the `i`-th call to
 * `env.step` of one `evaluate` call yields, together with the action the
 * policy chose for it. Because the cumulative counter `steps` counts exactly
 * the `env.step` calls made so far, it is also the position in the script.
 * The observation returned by the reset that opens episode `k` is `reset(k)`.
 */
module Rollout {
  import opened Common

  /** One `env.step` call: the action taken and the environment's answer. */
  datatype Step = Step(action: Vec, nextObs: Vec, reward: real, done: bool)

  /** One replay-memory entry `(obs, n_obs, action, reward, done_bool)`. */
  datatype Transition = Transition(obs: Vec, nextObs: Vec, action: Vec, reward: real, doneFlag: real)

  /** The replay memory, seen as an append-only sequence of transitions. */
  class Memory {
    var contents: seq<Transition>

    constructor ()
      ensures contents == []
    {
      contents := [];
    }

    /** `memory.add`: appends one transition and changes nothing else. */
    method Add(t: Transition)
      modifies this
      ensures contents == old(contents) + [t]
    {
      contents := contents + [t];
    }
  }

  /** Number of the first `n` steps of `s` at which the environment reported `done`. */
  function DonesIn(s: seq<Step>, n: nat): (c: nat)
    requires n <= |s|
    ensures c <= n
  {
    if n == 0 then 0 else DonesIn(s, n - 1) + (if s[n - 1].done then 1 else 0)
  }

  /** Sum of the rewards of the first `n` steps of `s`. */
  function RewardsIn(s: seq<Step>, n: nat): real
    requires n <= |s|
  {
    if n == 0 then 0.0 else RewardsIn(s, n - 1) + s[n - 1].reward
  }

  /** The rewards of the first `n` steps of `s`, in step order. */
  function Rewards(s: seq<Step>, n: nat): (r: seq<real>)
    requires n <= |s|
    ensures |r| == n && forall i :: 0 <= i < n ==> r[i] == s[i].reward
  {
    if n == 0 then [] else Rewards(s, n - 1) + [s[n - 1].reward]
  }

  /**
   * `RewardsIn` is `Sum` of those rewards: the same left fold, indexed by a
   * step count so that prefixes of the script need no slicing.
   */
  lemma {:induction false} RewardsInIsSum(s: seq<Step>, n: nat)
    requires n <= |s|
    ensures RewardsIn(s, n) == Sum(Rewards(s, n))
  {
    if n > 0 {
      RewardsInIsSum(s, n - 1);
      assert Rewards(s, n)[..n - 1] == Rewards(s, n - 1);
    }
  }

  /**
   * The truncation-aware done flag of line 116: `0` when the cumulative step
   * counter of the call, before its increment, is one short of the
   * environment's `_max_episode_steps` (`None` when the environment has no
   * such limit); otherwise `1` exactly when the environment reported `done`.
   */
  function DoneFlag(steps: nat, maxEpisodeSteps: Option<int>, done: bool): (flag: real)
    ensures flag == 0.0 || flag == 1.0
    ensures flag == 1.0 <==> done && maxEpisodeSteps != Some(steps + 1)
  {
    if maxEpisodeSteps == Some(steps + 1) then 0.0 else if done then 1.0 else 0.0
  }

  /**
   * The observation the policy acts on at step `i` of the call: the reset
   * observation when `i` opens an episode (the first step, or the step after
   * a `done`), otherwise the previous step's next observation.
   */
  function ObsAt(script: seq<Step>, reset: nat -> Vec, i: nat): Vec
    requires i <= |script|
  {
    if i == 0 || script[i - 1].done then reset(DonesIn(script, i)) else script[i - 1].nextObs
  }

  /** The transition `evaluate` hands to `memory.add` at step `i` of the call. */
  function TransitionAt(script: seq<Step>, reset: nat -> Vec, maxEpisodeSteps: Option<int>, i: nat): Transition
    requires i < |script|
  {
    Transition(ObsAt(script, reset, i), script[i].nextObs, script[i].action, script[i].reward,
               DoneFlag(i, maxEpisodeSteps, script[i].done))
  }

  /** The transitions recorded by the first `n` steps of the call, in step order. */
  function Recorded(script: seq<Step>, reset: nat -> Vec, maxEpisodeSteps: Option<int>, n: nat): (r: seq<Transition>)
    requires n <= |script|
    ensures |r| == n
  {
    if n == 0 then [] else Recorded(script, reset, maxEpisodeSteps, n - 1) + [TransitionAt(script, reset, maxEpisodeSteps, n - 1)]
  }

  /** Entry `i` of what the first `n` steps record is the transition of step `i`. */
  lemma {:induction false} RecordedAt(script: seq<Step>, reset: nat -> Vec, maxEpisodeSteps: Option<int>, n: nat, i: nat)
    requires i < n <= |script|
    ensures Recorded(script, reset, maxEpisodeSteps, n)[i] == TransitionAt(script, reset, maxEpisodeSteps, i)
  {
    if i < n - 1 {
      RecordedAt(script, reset, maxEpisodeSteps, n - 1, i);
    }
  }

  /**
   * The score bookkeeping after some steps: `scores` of the episodes already
   * closed by a `done`, and the running `score` of the episode in progress.
   */
  datatype Tally = Tally(scores: seq<real>, score: real)

  /** The score bookkeeping of lines 107, 118 and 134 after the first `n` steps of `s`. */
  function ScanUpTo(s: seq<Step>, n: nat): (t: Tally)
    requires n <= |s|
    ensures |t.scores| == DonesIn(s, n)
  {
    if n == 0 then Tally([], 0.0)
    else
      var t := ScanUpTo(s, n - 1);
      if s[n - 1].done then Tally(t.scores + [t.score + s[n - 1].reward], 0.0) else Tally(t.scores, t.score + s[n - 1].reward)
  }

  /**
   * One pass of the episode loop of `evaluate` (lines 107-134): plays episode
   * `k`, which starts at script position `start`, up to and including its
   * first `done`, appending one transition per step to the memory when one is
   * given. `initial` is what the memory held when the call began.
   */
  method PlayEpisode(script: seq<Step>, reset: nat -> Vec, memory: Memory?, maxEpisodeSteps: Option<int>,
                     k: nat, start: nat, ghost scores: seq<real>, ghost initial: seq<Transition>)
    returns (episodeScore: real, steps: nat)
    requires start <= |script|
    requires DonesIn(script, start) == k < DonesIn(script, |script|)
    requires start == 0 || script[start - 1].done
    requires ScanUpTo(script, start) == Tally(scores, 0.0)
    requires memory != null ==> memory.contents == initial + Recorded(script, reset, maxEpisodeSteps, start)
    modifies memory
    ensures start < steps <= |script|
    ensures DonesIn(script, steps) == k + 1 && script[steps - 1].done
    ensures ScanUpTo(script, steps) == Tally(scores + [episodeScore], 0.0)
    ensures memory != null ==> memory.contents == initial + Recorded(script, reset, maxEpisodeSteps, steps)
  {
    episodeScore := 0.0;
    steps := start;
    var obs := reset(k);
    var done := false;
    while !done
      invariant start <= steps <= |script|
      invariant DonesIn(script, steps) == if done then k + 1 else k
      invariant done ==> start < steps && script[steps - 1].done
      invariant !done ==> obs == ObsAt(script, reset, steps)
      invariant done ==> ScanUpTo(script, steps) == Tally(scores + [episodeScore], 0.0)
      invariant !done ==> ScanUpTo(script, steps) == Tally(scores, episodeScore)
      invariant memory != null ==> memory.contents == initial + Recorded(script, reset, maxEpisodeSteps, steps)
      decreases |script| - steps
    {
      assert steps < |script|;  // an unfinished episode has a `done` ahead of it
      var action, nObs, reward := script[steps].action, script[steps].nextObs, script[steps].reward;
      done := script[steps].done;
      var doneFlag := DoneFlag(steps, maxEpisodeSteps, done);
      if memory != null {
        memory.Add(Transition(obs, nObs, action, reward, doneFlag));
      }
      episodeScore := episodeScore + reward;
      steps := steps + 1;
      obs := nObs;
      // The `env.reset()` after a `done` (line 132) returns an observation
      // that is discarded; the next episode starts from its own reset.
    }
  }

  /**
   * `evaluate(actor, env, memory, n_episodes)`: runs `nEpisodes` episodes, each
   * ending at its first `done`, and returns the mean episode score and the
   * number of `env.step` calls. `steps` is the shortest prefix of the script
   * holding `nEpisodes` dones; when a memory is given, exactly one transition
   * per step is appended to it, in step order.
   */
  method Evaluate(script: seq<Step>, reset: nat -> Vec, memory: Memory?, nEpisodes: nat, maxEpisodeSteps: Option<int>)
    returns (score: Option<real>, steps: nat)
    requires nEpisodes <= DonesIn(script, |script|)
    modifies memory
    ensures nEpisodes <= steps <= |script|
    ensures DonesIn(script, steps) == nEpisodes
    ensures steps == 0 || script[steps - 1].done
    ensures score == Mean(ScanUpTo(script, steps).scores)
    ensures memory != null ==> memory.contents == old(memory.contents) + Recorded(script, reset, maxEpisodeSteps, steps)
  {
    ghost var initial := if memory != null then memory.contents else [];
    var scores: seq<real> := [];
    steps := 0;
    var k := 0;
    while k < nEpisodes
      invariant k <= nEpisodes
      invariant steps <= |script|
      invariant DonesIn(script, steps) == k
      invariant steps == 0 || script[steps - 1].done
      invariant ScanUpTo(script, steps) == Tally(scores, 0.0)
      invariant memory != null ==> memory.contents == initial + Recorded(script, reset, maxEpisodeSteps, steps)
    {
      var episodeScore;
      episodeScore, steps := PlayEpisode(script, reset, memory, maxEpisodeSteps, k, steps, scores, initial);
      scores := scores + [episodeScore];
      k := k + 1;
    }
    score := Mean(scores);
  }

  /** An episode as `evaluate` plays it: at least one step, with `done` at its last step only. */
  predicate IsEpisode(e: seq<Step>)
  {
    |e| > 0 && e[|e| - 1].done && forall i :: 0 <= i < |e| - 1 ==> !e[i].done
  }

  /** The episodes played one after the other. */
  function Concat(episodes: seq<seq<Step>>): seq<Step>
  {
    if episodes == [] then [] else Concat(episodes[..|episodes| - 1]) + episodes[|episodes| - 1]
  }

  /** Steps without a `done` only add their rewards to the running score. */
  lemma {:induction false} ScanWithoutDone(s: seq<Step>, n: nat)
    requires n <= |s|
    requires forall i :: 0 <= i < n ==> !s[i].done
    ensures ScanUpTo(s, n) == Tally([], RewardsIn(s, n))
  {
    if n > 0 {
      ScanWithoutDone(s, n - 1);
    }
  }

  /** A single episode yields exactly one score: the sum of its rewards. */
  lemma ScanOfEpisode(e: seq<Step>)
    requires IsEpisode(e)
    ensures ScanUpTo(e, |e|) == Tally([RewardsIn(e, |e|)], 0.0)
  {
    ScanWithoutDone(e, |e| - 1);
  }

  /** The bookkeeping of the first `n` steps does not look at the steps after them. */
  lemma {:induction false} ScanOfPrefix(a: seq<Step>, b: seq<Step>, n: nat)
    requires n <= |a|
    ensures ScanUpTo(a + b, n) == ScanUpTo(a, n)
    ensures RewardsIn(a + b, n) == RewardsIn(a, n)
  {
    if n > 0 {
      ScanOfPrefix(a, b, n - 1);
    }
  }

  /**
   * Once the running score is zero (in particular after a `done`), the steps
   * that follow are scored on their own, as if a fresh call had started.
   */
  lemma {:induction false} ScanAppend(a: seq<Step>, b: seq<Step>, n: nat)
    requires n <= |b|
    requires ScanUpTo(a, |a|).score == 0.0
    ensures ScanUpTo(a + b, |a| + n) == Tally(ScanUpTo(a, |a|).scores + ScanUpTo(b, n).scores, ScanUpTo(b, n).score)
  {
    if n == 0 {
      ScanOfPrefix(a, b, |a|);
    } else {
      ScanAppend(a, b, n - 1);
      assert (a + b)[|a| + n - 1] == b[n - 1];
    }
  }

  /**
   * Scores of whole episodes: played one after the other, the episodes give
   * one score each, in order, and each is the sum of that episode's rewards.
   */
  lemma {:induction false} ScanOfEpisodes(episodes: seq<seq<Step>>)
    requires forall k :: 0 <= k < |episodes| ==> IsEpisode(episodes[k])
    ensures ScanUpTo(Concat(episodes), |Concat(episodes)|).score == 0.0
    ensures |ScanUpTo(Concat(episodes), |Concat(episodes)|).scores| == |episodes|
    ensures forall k :: 0 <= k < |episodes| ==>
              ScanUpTo(Concat(episodes), |Concat(episodes)|).scores[k] == RewardsIn(episodes[k], |episodes[k]|)
  {
    if episodes != [] {
      var init, last := episodes[..|episodes| - 1], episodes[|episodes| - 1];
      var played := Concat(init);
      assert Concat(episodes) == played + last;
      ScanOfEpisodes(init);
      ScanOfEpisode(last);
      ScanAppend(played, last, |last|);
      var before := ScanUpTo(played, |played|).scores;
      var after := ScanUpTo(played + last, |played| + |last|).scores;
      assert after == before + [RewardsIn(last, |last|)];
      forall k | 0 <= k < |episodes|
        ensures after[k] == RewardsIn(episodes[k], |episodes[k]|)
      {
        if k < |init| {
          assert episodes[k] == init[k];
        }
      }
    }
  }

  /** No reward is lost or counted twice: closed scores plus the running score is the total reward. */
  lemma {:induction false} ScanConservesReward(s: seq<Step>, n: nat)
    requires n <= |s|
    ensures Sum(ScanUpTo(s, n).scores) + ScanUpTo(s, n).score == RewardsIn(s, n)
  {
    if n > 0 {
      ScanConservesReward(s, n - 1);
      var t := ScanUpTo(s, n - 1);
      if s[n - 1].done {
        var closed := t.scores + [t.score + s[n - 1].reward];
        assert closed[..|closed| - 1] == t.scores;
      }
    }
  }

  /**
   * The score `evaluate` returns: over the steps it consumed (whole
   * episodes), the mean of the episode scores is the total reward divided by
   * the number of episodes, and NaN when no episode was run.
   */
  lemma EvaluateScoreIsMeanReturn(s: seq<Step>, steps: nat, nEpisodes: nat)
    requires steps <= |s|
    requires DonesIn(s, steps) == nEpisodes
    requires steps == 0 || s[steps - 1].done
    ensures nEpisodes == 0 ==> Mean(ScanUpTo(s, steps).scores) == None
    ensures nEpisodes > 0 ==> Mean(ScanUpTo(s, steps).scores) == Some(RewardsIn(s, steps) / (nEpisodes as real))
  {
    ScanConservesReward(s, steps);
  }

  /**
   * The done flag compares the cumulative counter of the call: with two
   * one-step episodes and `_max_episode_steps == 1`, the first transition is
   * marked as a truncation and the second as a true termination, though both
   * episodes ended at their first step.
   */
  lemma CumulativeDoneFlag(a: Step, b: Step, reset: nat -> Vec)
    requires a.done && b.done
    ensures TransitionAt([a, b], reset, Some(1), 0).doneFlag == 0.0
    ensures TransitionAt([a, b], reset, Some(1), 1).doneFlag == 1.0
    ensures TransitionAt([a, b], reset, Some(1), 1).obs == reset(1)
  {
  }
}
