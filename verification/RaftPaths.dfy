/** Sequences of steps from one state of the cluster to another. */
module RaftPaths {
  import opened RaftTypes
  import opened RaftCluster
  import opened RaftInvariant
  import opened RaftSafety
  import opened RaftTheorems

  /** Where the steps lead, if each can be taken in turn. */
  function EndOf(c: Cluster, steps: seq<Step>): Cluster {
    if steps == [] then c
    else
      var d, s := EndOf(c, steps[..|steps| - 1]), steps[|steps| - 1];
      if Enabled(d, s) then Do(d, s) else d
  }

  predicate Legal(c: Cluster, steps: seq<Step>) {
    steps == [] || (Legal(c, steps[..|steps| - 1]) && Enabled(EndOf(c, steps[..|steps| - 1]), steps[|steps| - 1]))
  }

  lemma OneMore(c: Cluster, steps: seq<Step>, s: Step)
    requires Legal(c, steps) && Enabled(EndOf(c, steps), s)
    ensures Legal(c, steps + [s]) && EndOf(c, steps + [s]) == Do(EndOf(c, steps), s)
  {
    assert (steps + [s])[..|steps|] == steps;
  }

  /** A run goes on with any legal steps. */
  lemma {:induction false} RunGoesOn(members: set<nat>, steps: seq<Step>, run: seq<Cluster>, more: seq<Step>)
    returns (run': seq<Cluster>)
    requires IsRun(members, steps, run) && Legal(run[|steps|], more)
    ensures IsRun(members, steps + more, run') && run <= run' && run'[|steps + more|] == EndOf(run[|steps|], more)
    decreases |more|
  {
    if more == [] {
      run' := run;
      assert steps + more == steps;
    } else {
      var n := |more| - 1;
      var run1 := RunGoesOn(members, steps, run, more[..n]);
      run' := run1 + [EndOf(run[|steps|], more)];
      assert (steps + more[..n]) + [more[n]] == steps + more;
      OneStep(members, steps + more[..n], run1, more[n], run');
    }
  }

  lemma OneStep(members: set<nat>, steps: seq<Step>, run: seq<Cluster>, s: Step, run': seq<Cluster>)
    requires IsRun(members, steps, run) && Enabled(run[|steps|], s) && run' == run + [Do(run[|steps|], s)]
    ensures IsRun(members, steps + [s], run')
  {
    var steps' := steps + [s];
    forall k: nat | k < |run'| ensures FollowsAt(members, steps', run', k) {
      if k <= |steps| {
        assert FollowsAt(members, steps, run, k);
        assert run'[k] == run[k] && (k > 0 ==> steps'[k - 1] == steps[k - 1] && run'[k - 1] == run[k - 1]);
      }
    }
  }

  lemma StartIsRun(members: set<nat>)
    requires NOBODY !in members
    ensures IsRun(members, [], [InitialCluster(members)])
  {
    assert FollowsAt(members, [], [InitialCluster(members)], 0);
  }

  // ---------------------------------------------------------------- reaching one state from another

  ghost predicate Reaches(c: Cluster, c': Cluster) {
    exists steps :: Legal(c, steps) && EndOf(c, steps) == c'
  }

  lemma ReachesSelf(c: Cluster)
    ensures Reaches(c, c)
  {
    assert Legal(c, []) && EndOf(c, []) == c;
  }

  lemma LastStep(c: Cluster, steps: seq<Step>)
    requires steps != [] && Legal(c, steps)
    ensures var n := |steps| - 1;
            && Legal(c, steps[..n]) && Enabled(EndOf(c, steps[..n]), steps[n])
            && EndOf(c, steps) == Do(EndOf(c, steps[..n]), steps[n])
  {
  }

  lemma Snoc<T>(a: seq<T>, b: seq<T>)
    requires b != []
    ensures a + b == a + b[..|b| - 1] + [b[|b| - 1]]
  {
  }

  lemma {:induction false} LegalThen(c: Cluster, a: seq<Step>, b: seq<Step>)
    requires Legal(c, a) && Legal(EndOf(c, a), b)
    ensures Legal(c, a + b) && EndOf(c, a + b) == EndOf(EndOf(c, a), b)
    decreases |b|
  {
    if b == [] {
      assert a + b == a;
    } else {
      var n := |b| - 1;
      LastStep(EndOf(c, a), b);
      LegalThen(c, a, b[..n]);
      OneMore(c, a + b[..n], b[n]);
      Snoc(a, b);
    }
  }

  lemma ReachesOn(c: Cluster, d: Cluster, e: Cluster)
    requires Reaches(c, d) && Reaches(d, e)
    ensures Reaches(c, e)
  {
    var a :| Legal(c, a) && EndOf(c, a) == d;
    var b :| Legal(d, b) && EndOf(d, b) == e;
    LegalThen(c, a, b);
  }

  /** From a state as the invariant describes it to another; no message is lost from the network. */
  ghost predicate Way(c: Cluster, c': Cluster) {
    Inv(c) && Inv(c') && c'.members == c.members && c.net <= c'.net && Reaches(c, c')
  }

  lemma WayOn(c: Cluster, d: Cluster, e: Cluster)
    requires Way(c, d) && Way(d, e)
    ensures Way(c, e)
  {
    ReachesOn(c, d, e);
  }

  lemma WaySelf(c: Cluster)
    requires Inv(c)
    ensures Way(c, c)
  {
    ReachesSelf(c);
  }

  lemma WayStep(c: Cluster, s: Step, c': Cluster)
    requires Inv(c) && Enabled(c, s) && c' == Do(c, s)
    ensures Way(c, c')
  {
    StepKeepsInv(c, c', s);
    StepKeepsMembers(c, c', s);
    NetGrows(c, s, c');
    ReachesSelf(c);
    OneMore(c, [], s);
    assert [] + [s] == [s];
  }

  lemma NetGrows(c: Cluster, s: Step, c': Cluster)
    requires Enabled(c, s) && c' == Do(c, s)
    ensures c.net <= c'.net
  {
  }

  /** A run goes on to whatever its last state reaches. */
  lemma RunReaches(members: set<nat>, steps: seq<Step>, run: seq<Cluster>, c: Cluster, c': Cluster)
    returns (steps': seq<Step>, run': seq<Cluster>)
    requires IsRun(members, steps, run) && c == run[|steps|] && Reaches(c, c')
    ensures IsRun(members, steps', run') && steps <= steps' && run <= run' && run'[|run'| - 1] == c'
  {
    var more :| Legal(c, more) && EndOf(c, more) == c';
    steps' := steps + more;
    run' := RunGoesOn(members, steps, run, more);
  }
}
