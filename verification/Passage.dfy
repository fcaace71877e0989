/** One call running alone: its steps folded over the environments it meets. */
module Passage {
  import opened Protocol

  function Through<S, C>(step: (S, C, Env) -> (S, C), s: S, c: C, envs: seq<Env>): (S, C)
    decreases |envs|
  {
    if envs == [] then (s, c)
    else
      var (t, d) := Through(step, s, c, envs[..|envs| - 1]);
      step(t, d, envs[|envs| - 1])
  }

  lemma ThroughNone<S, C>(step: (S, C, Env) -> (S, C), s: S, c: C, envs: seq<Env>)
    ensures Through(step, s, c, envs[..0]) == (s, c)
  {
  }

  lemma ThroughNext<S, C>(step: (S, C, Env) -> (S, C), s: S, c: C, envs: seq<Env>, k: nat)
    requires k < |envs|
    ensures Through(step, s, c, envs[..k + 1]) == var (t, d) := Through(step, s, c, envs[..k]); step(t, d, envs[k])
  {
    assert envs[..k + 1][..k] == envs[..k];
  }

  /** A call that stands still has had its passage. */
  lemma {:induction false} ThroughDone<S, C>(step: (S, C, Env) -> (S, C), s: S, c: C, envs: seq<Env>, k: nat)
    requires k <= |envs|
    requires var (t, d) := Through(step, s, c, envs[..k]); forall e :: step(t, d, e) == (t, d)
    ensures Through(step, s, c, envs) == Through(step, s, c, envs[..k])
    decreases |envs| - k
  {
    if k == |envs| {
      assert envs[..k] == envs;
    } else {
      ThroughNext(step, s, c, envs, k);
      ThroughDone(step, s, c, envs, k + 1);
    }
  }

  lemma {:induction false} ThroughSplit<S, C>(step: (S, C, Env) -> (S, C), s: S, c: C, envs: seq<Env>, k: nat)
    requires k <= |envs|
    ensures Through(step, s, c, envs) == var (t, d) := Through(step, s, c, envs[..k]); Through(step, t, d, envs[k..])
    decreases |envs|
  {
    if k == |envs| {
      assert envs[..k] == envs;
    } else {
      var n := |envs| - 1;
      assert envs[..n][..k] == envs[..k];
      assert envs[..n][k..] == envs[k..][..n - k];
      ThroughSplit(step, s, c, envs[..n], k);
    }
  }
}
