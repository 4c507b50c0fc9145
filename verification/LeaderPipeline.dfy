/** One term of a leader within a cluster run: the command loop, the persist queue and the apply loop of its
    process run beside the Raft thread, and what they submit reaches the cluster as client requests. */
module LeaderPipeline {
  import opened Common
  import opened RaftTypes
  import opened RaftCore
  import opened RaftCluster
  import opened RaftInvariant
  import opened RaftSafety
  import opened RaftTheorems
  import opened RaftTerms
  import RaftProbing
  import EventLoading
  import Handover

  /** A handover run of server v for a term, and for each of its states the moment in the cluster's run. */
  datatype Hosted<E> = Hosted(
    v: nat, term: nat, at: seq<nat>, steps: seq<Handover.Step<E>>, run: seq<Handover.State<E>>)

  ghost predicate StandsAt<E>(run: seq<Cluster>, h: Hosted<E>, k: nat) {
    && k < |h.run| == |h.at| && h.at[k] < |run| && IsServer(run[h.at[k]], h.v)
    && h.run[k].node == run[h.at[k]].nodes[h.v]
  }

  predicate SameProcess(c: Cluster, c': Cluster, v: nat) {
    v in c.incs && v in c'.incs && c'.incs[v] == c.incs[v]
  }

  /** Requests reach the Raft thread from the persist queue only; its other steps are seen as they are. */
  ghost predicate AdvancesAt<E>(steps: seq<Step>, run: seq<Cluster>, h: Hosted<E>, k: nat) {
    && k < |h.steps| && |h.at| == |h.run| == |h.steps| + 1 && |run| == |steps| + 1 && h.at[k] < |run|
    && match h.steps[k]
       case Raft(_) =>
         && h.at[k] < |steps| && h.at[k + 1] == h.at[k] + 1
         && !TakesRequests(run[h.at[k]], steps[h.at[k]], h.v) && SameProcess(run[h.at[k]], run[h.at[k] + 1], h.v)
       case Batch(n) =>
         && h.at[k] < |steps| && h.at[k + 1] == h.at[k] + 1
         && n <= |h.run[k].queue| && steps[h.at[k]] == Client(h.v, h.run[k].queue[..n])
       case _ => h.at[k + 1] == h.at[k]
  }

  /** v has just won the term. */
  ghost predicate WonAt(steps: seq<Step>, run: seq<Cluster>, v: nat, term: nat, i: nat) {
    && 1 <= i <= |steps| < |run| && steps[i - 1] == Lead(v)
    && v in run[i - 1].nodes && !run[i - 1].nodes[v].role.Leader? && LeadsTerm(run[i], v, term)
  }

  ghost predicate Hosts<E>(steps: seq<Step>, run: seq<Cluster>, d: EventLoading.Decoder<E>, h: Hosted<E>) {
    && Handover.IsRun(d, h.steps, h.run) && |h.at| == |h.run| && h.run[0].term == h.term
    && WonAt(steps, run, h.v, h.term, h.at[0])
    && (forall k: nat {:trigger StandsAt(run, h, k)} :: k < |h.run| ==> StandsAt(run, h, k))
    && (forall k: nat {:trigger AdvancesAt(steps, run, h, k)} :: k < |h.steps| ==> AdvancesAt(steps, run, h, k))
  }

  /** The pipeline is followed to the end of the cluster's run, or until its process crashes, or as far as one
      likes once the term is over: the process may lead again then, and take requests of that later term. */
  ghost predicate ToTheEnd<E>(steps: seq<Step>, run: seq<Cluster>, h: Hosted<E>) {
    && h.at != [] && |run| == |steps| + 1
    && var last := h.at[|h.at| - 1];
       || last == |steps|
       || (last < |steps| && (!LeadsTerm(run[last], h.v, h.term) || !SameProcess(run[last], run[last + 1], h.v)))
  }

  // ---------------------------------------------------------------- the log a term starts from

  /** Everything before the no-op at the end is of earlier terms. */
  ghost predicate BaseOk(base: seq<LogEntry>, t: nat) {
    && base != [] && base[|base| - 1].noop && base[|base| - 1].term == t
    && forall i {:trigger base[i]} :: 0 <= i < |base| - 1 ==> base[i].term < t
  }

  lemma WonLog(h: History, n: Node, n': Node)
    requires (n.role.Candidate? ==> CandidateOk(h, n)) && n' == BecomeLeader(n) && !n.role.Leader? && n'.role.Leader?
    ensures n'.term == n.term && BaseOk(n'.log, n.term)
  {
  }

  lemma WonStep(c: Cluster, c': Cluster, v: nat, t: nat)
    requires Inv(c) && IsServer(c, v) && c' == DoLead(c, v) && !c.nodes[v].role.Leader? && LeadsTerm(c', v, t)
    ensures BaseOk(c'.nodes[v].log, t)
  {
    var n := c.nodes[v];
    assert NodeOk(c.members, c.hist, v, n);
    if BecomeLeader(n) != n {
      MovesLead(c, c', v, BecomeLeader(n));
    }
    WonLog(c.hist, n, BecomeLeader(n));
  }

  lemma BaseStep(c: Cluster, c': Cluster, v: nat, t: nat)
    requires Inv(c) && Inv(c') && Enabled(c, Lead(v)) && c' == Do(c, Lead(v))
    requires v in c.nodes && !c.nodes[v].role.Leader? && LeadsTerm(c', v, t)
    ensures BaseOk(c'.nodes[v].log, t) && LedBy(c', v, t) && c'.hist.leaderLog[t] == c'.nodes[v].log
  {
    WonStep(c, c', v, t);
    LeaderLogIs(c', v, t);
  }

  lemma BaseIs(members: set<nat>, steps: seq<Step>, run: seq<Cluster>, v: nat, t: nat, i: nat)
    requires IsRun(members, steps, run) && WonAt(steps, run, v, t, i)
    ensures BaseOk(run[i].nodes[v].log, t) && LedBy(run[i], v, t) && run[i].hist.leaderLog[t] == run[i].nodes[v].log
  {
    RunInv(members, steps, run, i - 1);
    InvGoesOn(members, steps, run, i - 1);
    RunStep(members, steps, run, i - 1);
    BaseStep(run[i - 1], run[i], v, t);
  }

  // ---------------------------------------------------------------- what stays in step

  ghost predicate SubmittedOk(t: nat, base: seq<LogEntry>, submitted: seq<LogEntry>) {
    forall i {:trigger submitted[i]} :: 0 <= i < |submitted| ==>
      submitted[i].term == t && !submitted[i].noop && submitted[i].index == |base| + 1 + i
  }

  /** Whether or not the term is still led, its log is what it started from and the submitted entries that
      were taken; and the command loop counts on from there. */
  ghost predicate PipeInv<E>(c: Cluster, s: Handover.State<E>, v: nat, base: seq<LogEntry>) {
    && LedBy(c, v, s.term) && v in c.nodes && s.term <= c.nodes[v].term
    && s.accepted <= |s.submitted| && c.hist.leaderLog[s.term] == base + s.submitted[..s.accepted]
    && BaseOk(base, s.term) && SubmittedOk(s.term, base, s.submitted)
    && (forall i {:trigger s.queue[i]} :: 0 <= i < |s.queue| ==> s.queue[i].term <= s.term)
    && (s.wait.Ready? ==> s.wait.last == |base|)
    && (if s.wait.Leading? then s.lastCommandId == |base| + |s.submitted| else s.submitted == [])
  }

  /** A no-op of the term is the one it started with, in whatever log. */
  lemma UniqueNoop(log: seq<LogEntry>, L: TermLogs, t: nat, base: seq<LogEntry>, taken: seq<LogEntry>, i: nat)
    requires LogOk(log, L) && t in L && L[t] == base + taken && BaseOk(base, t) && SubmittedOk(t, base, taken)
    requires i < |log| && log[i].noop && log[i].term == t
    ensures i + 1 == |base|
  {
    assert LogOkAt(log, L, i);
    assert log[i] == log[..i + 1][i] == (base + taken)[i];
  }

  lemma SubmittedPrefix(t: nat, base: seq<LogEntry>, submitted: seq<LogEntry>, n: nat)
    requires SubmittedOk(t, base, submitted) && n <= |submitted|
    ensures SubmittedOk(t, base, submitted[..n])
  {
  }

  lemma LookKeeps<E>(c: Cluster, s: Handover.State<E>, s': Handover.State<E>, v: nat, base: seq<LogEntry>)
    requires Inv(c) && PipeInv(c, s, v, base) && s.node == c.nodes[v]
    requires s' == s.(wait := Handover.Looked(s)) && !s.wait.Leading?
    ensures PipeInv(c, s', v, base)
  {
    if s'.wait.Ready? && !s.wait.Ready? {
      assert NodeOk(c.members, c.hist, v, c.nodes[v]);
      SubmittedPrefix(s.term, base, s.submitted, s.accepted);
      UniqueNoop(s.node.log, c.hist.leaderLog, s.term, base, s.submitted[..s.accepted], s.wait.pos);
    }
  }

  lemma RaftKeeps<E>(c: Cluster, c': Cluster, r: Step, s: Handover.State<E>, s': Handover.State<E>, v: nat, base: seq<LogEntry>)
    requires Inv(c) && Enabled(c, r) && c' == Do(c, r) && !TakesRequests(c, r, v)
    requires PipeInv(c, s, v, base) && s' == s.(node := s'.node)
    ensures PipeInv(c', s', v, base)
  {
    OnlyRequestsAdd(c, c', r, v, s.term);
    RaftProbing.TermsRise(c, c', r, v);
  }

  /** The queue reaches the Raft thread when the term is led no longer: nothing is taken. */
  lemma NothingTaken(queue: seq<LogEntry>, term: nat, last: nat)
    requires forall i {:trigger queue[i]} :: 0 <= i < |queue| ==> queue[i].term != term
    ensures Accepted(queue, term, last) == []
  {
    Handover.StaleAreDropped(queue, |queue|, term, last);
  }

  lemma BatchTaken<E>(d: EventLoading.Decoder<E>, c: Cluster, c': Cluster, s: Handover.State<E>, s': Handover.State<E>,
                      v: nat, base: seq<LogEntry>, n: nat)
    requires Inv(c') && PipeInv(c, s, v, base) && s.node == c.nodes[v] && IsServer(c, v) && Handover.Leads(s)
    requires n <= |s.queue| && c' == Do(c, Client(v, s.queue[..n]))
    requires Handover.Enabled(d, s, Handover.Batch(n)) && s' == Handover.Next(d, s, Handover.Batch(n))
    requires Handover.PipelineOk(s'.term, base, s'.node.log, s'.queue, s'.submitted, s'.accepted)
    ensures PipeInv(c', s', v, base)
  {
    LeaderLogIs(c', v, s.term);
  }

  lemma BatchDropped<E>(d: EventLoading.Decoder<E>, s: Handover.State<E>, s': Handover.State<E>, n: nat)
    requires Handover.Enabled(d, s, Handover.Batch(n)) && s' == Handover.Next(d, s, Handover.Batch(n))
    requires !Handover.Leads(s) && s.term <= s.node.term
    requires forall i {:trigger s.queue[i]} :: 0 <= i < |s.queue| ==> s.queue[i].term <= s.term
    ensures s' == s.(node := s'.node, queue := s.queue[n..])
  {
    if s.node.role.Leader? {
      NothingTaken(s.queue[..n], s.node.term, |s.node.log|);
    }
  }

  lemma BatchKeeps<E>(d: EventLoading.Decoder<E>, c: Cluster, c': Cluster, s: Handover.State<E>, s': Handover.State<E>,
                      v: nat, base: seq<LogEntry>, n: nat)
    requires Inv(c) && PipeInv(c, s, v, base) && s.node == c.nodes[v] && IsServer(c, v)
    requires n <= |s.queue| && c' == Do(c, Client(v, s.queue[..n]))
    requires Handover.Enabled(d, s, Handover.Batch(n)) && s' == Handover.Next(d, s, Handover.Batch(n))
    requires Handover.Inv(d, s', base)
    ensures PipeInv(c', s', v, base)
  {
    var r := Client(v, s.queue[..n]);
    StepKeepsInv(c, c', r);
    if Handover.Leads(s) {
      BatchTaken(d, c, c', s, s', v, base, n);
    } else {
      OnlyRequestsAdd(c, c', r, v, s.term);
      RaftProbing.TermsRise(c, c', r, v);
      BatchDropped(d, s, s', n);
    }
  }

  lemma OtherKeeps<E>(d: EventLoading.Decoder<E>, c: Cluster, s: Handover.State<E>, s': Handover.State<E>,
                      v: nat, base: seq<LogEntry>, step: Handover.Step<E>)
    requires PipeInv(c, s, v, base) && !step.Raft? && !step.Batch? && !step.Look?
    requires Handover.Enabled(d, s, step) && s' == Handover.Next(d, s, step)
    ensures PipeInv(c, s', v, base)
  {
    if step.Submit? {
      assert s'.submitted[..s.accepted] == s.submitted[..s.accepted];
    }
  }

  /** A step of the pipeline and what the cluster does meanwhile. */
  ghost predicate Together<E>(c: Cluster, c': Cluster, r: Step, s: Handover.State<E>, v: nat, step: Handover.Step<E>) {
    match step
    case Raft(_) => Enabled(c, r) && c' == Do(c, r) && !TakesRequests(c, r, v)
    case Batch(n) => IsServer(c, v) && n <= |s.queue| && r == Client(v, s.queue[..n]) && c' == Do(c, r)
    case _ => c' == c
  }

  lemma HostedStep<E>(members: set<nat>, steps: seq<Step>, run: seq<Cluster>, d: EventLoading.Decoder<E>, h: Hosted<E>, k: nat)
    returns (r: Step)
    requires IsRun(members, steps, run) && Hosts(steps, run, d, h) && k < |h.steps|
    ensures StandsAt(run, h, k) && StandsAt(run, h, k + 1)
    ensures Handover.Enabled(d, h.run[k], h.steps[k]) && h.run[k + 1] == Handover.Next(d, h.run[k], h.steps[k])
    ensures Together(run[h.at[k]], run[h.at[k + 1]], r, h.run[k], h.v, h.steps[k])
  {
    assert StandsAt(run, h, k) && StandsAt(run, h, k + 1) && AdvancesAt(steps, run, h, k);
    Handover.RunStep(d, h.steps, h.run, k);
    if h.at[k] < |steps| {
      r := steps[h.at[k]];
      RunStep(members, steps, run, h.at[k]);
    } else {
      r := Elect(h.v);
    }
  }

  lemma StepKeepsPipe<E>(d: EventLoading.Decoder<E>, c: Cluster, c': Cluster, r: Step, s: Handover.State<E>, s': Handover.State<E>,
                         v: nat, base: seq<LogEntry>, step: Handover.Step<E>)
    requires Inv(c) && PipeInv(c, s, v, base) && s.node == c.nodes[v] && IsServer(c, v)
    requires Handover.Enabled(d, s, step) && s' == Handover.Next(d, s, step) && Handover.Inv(d, s', base)
    requires Together(c, c', r, s, v, step)
    ensures PipeInv(c', s', v, base)
  {
    match step
    case Raft(n) => RaftKeeps(c, c', r, s, s', v, base);
    case Batch(n) => BatchKeeps(d, c, c', s, s', v, base, n);
    case Look => LookKeeps(c, s, s', v, base);
    case _ => OtherKeeps(d, c, s, s', v, base, step);
  }

  lemma PipeStarts<E>(members: set<nat>, steps: seq<Step>, run: seq<Cluster>, d: EventLoading.Decoder<E>, h: Hosted<E>)
    requires IsRun(members, steps, run) && Hosts(steps, run, d, h)
    ensures StandsAt(run, h, 0) && PipeInv(run[h.at[0]], h.run[0], h.v, h.run[0].node.log)
  {
    assert StandsAt(run, h, 0);
    BaseIs(members, steps, run, h.v, h.term, h.at[0]);
  }

  lemma PipeGoesOn<E>(members: set<nat>, steps: seq<Step>, run: seq<Cluster>, d: EventLoading.Decoder<E>, h: Hosted<E>, k: nat)
    requires IsRun(members, steps, run) && Hosts(steps, run, d, h) && k < |h.steps|
    requires StandsAt(run, h, k) && PipeInv(run[h.at[k]], h.run[k], h.v, h.run[0].node.log)
    ensures StandsAt(run, h, k + 1) && PipeInv(run[h.at[k + 1]], h.run[k + 1], h.v, h.run[0].node.log)
  {
    Handover.RunInv(d, h.steps, h.run, k + 1);
    var r := HostedStep(members, steps, run, d, h, k);
    RunInv(members, steps, run, h.at[k]);
    StepKeepsPipe(d, run[h.at[k]], run[h.at[k + 1]], r, h.run[k], h.run[k + 1], h.v, h.run[0].node.log, h.steps[k]);
  }

  ghost predicate PipeHolds<E>(run: seq<Cluster>, h: Hosted<E>, k: nat) {
    StandsAt(run, h, k) && PipeInv(run[h.at[k]], h.run[k], h.v, h.run[0].node.log)
  }

  /** The pipeline is in step with the cluster at every moment it is hosted. */
  lemma PipeAt<E>(members: set<nat>, steps: seq<Step>, run: seq<Cluster>, d: EventLoading.Decoder<E>, h: Hosted<E>, k: nat)
    requires IsRun(members, steps, run) && Hosts(steps, run, d, h) && k < |h.run|
    ensures PipeHolds(run, h, k)
  {
    var p := (i: nat) => PipeHolds(run, h, i);
    PipeStarts(members, steps, run, d, h);
    forall i: nat | i < k ensures Goes(p, i) {
      if p(i) {
        PipeGoesOn(members, steps, run, d, h, i);
      }
    }
    Climb(p, k);
  }

  lemma {:induction false} MomentsRise<E>(steps: seq<Step>, run: seq<Cluster>, d: EventLoading.Decoder<E>, h: Hosted<E>, k: nat)
    requires Hosts(steps, run, d, h) && k < |h.run|
    ensures h.at[0] <= h.at[k]
    decreases k
  {
    if k > 0 {
      MomentsRise(steps, run, d, h, k - 1);
      assert AdvancesAt(steps, run, h, k - 1);
    }
  }

  // ---------------------------------------------------------------- the whole log of a term

  lemma CrashEndsTerm(c: Cluster, c': Cluster, s: Step, v: nat)
    requires Inv(c) && Enabled(c, s) && c' == Do(c, s) && v in c.nodes && !SameProcess(c, c', v)
    ensures !s.Client? && v in c'.nodes && !c'.nodes[v].role.Leader?
  {
    if v != Actor(s) {
      OthersStay(c, c', s, v);
    }
  }

  ghost predicate FrozenAt(run: seq<Cluster>, v: nat, t: nat, log: seq<LogEntry>, i: nat) {
    i < |run| && v in run[i].nodes && LedBy(run[i], v, t) && run[i].hist.leaderLog[t] == log && !LeadsTerm(run[i], v, t)
  }

  lemma FrozenGoesOn(members: set<nat>, steps: seq<Step>, run: seq<Cluster>, v: nat, t: nat, log: seq<LogEntry>, i: nat)
    requires IsRun(members, steps, run) && i < |steps| && FrozenAt(run, v, t, log, i)
    ensures FrozenAt(run, v, t, log, i + 1)
  {
    RunInv(members, steps, run, i);
    RunStep(members, steps, run, i);
    RaftProbing.TermsRise(run[i], run[i + 1], steps[i], v);
    LedOnce(run[i], run[i + 1], steps[i], v, t);
    OnlyRequestsAdd(run[i], run[i + 1], steps[i], v, t);
  }

  /** Once a term is led no longer its log is fixed. */
  lemma FrozenFrom(members: set<nat>, steps: seq<Step>, run: seq<Cluster>, v: nat, t: nat, log: seq<LogEntry>, i: nat, k: nat)
    requires IsRun(members, steps, run) && i <= k < |run| && FrozenAt(run, v, t, log, i)
    ensures FrozenAt(run, v, t, log, k)
  {
    var p := (n: nat) => FrozenAt(run, v, t, log, i + n);
    forall n: nat | n < k - i ensures Goes(p, n) {
      if p(n) {
        FrozenGoesOn(members, steps, run, v, t, log, i + n);
      }
    }
    Climb(p, k - i);
  }

  lemma TermLogAtEnd<E>(members: set<nat>, steps: seq<Step>, run: seq<Cluster>, d: EventLoading.Decoder<E>, h: Hosted<E>, s: Handover.State<E>)
    requires IsRun(members, steps, run) && Hosts(steps, run, d, h) && ToTheEnd(steps, run, h) && s == h.run[|h.run| - 1]
    ensures h.term in Final(run).leaderLog && s.accepted <= |s.submitted|
    ensures Final(run).leaderLog[h.term] == h.run[0].node.log + s.submitted[..s.accepted]
  {
    var last := h.at[|h.at| - 1];
    PipeAt(members, steps, run, d, h, |h.run| - 1);
    Handover.RunInv(d, h.steps, h.run, |h.run| - 1);
    if last < |steps| && !LeadsTerm(run[last], h.v, h.term) {
      FrozenFrom(members, steps, run, h.v, h.term, run[last].hist.leaderLog[h.term], last, |run| - 1);
    } else if last < |steps| {
      RunInv(members, steps, run, last);
      RunStep(members, steps, run, last);
      CrashEndsTerm(run[last], run[last + 1], steps[last], h.v);
      OnlyRequestsAdd(run[last], run[last + 1], steps[last], h.v, h.term);
      FrozenFrom(members, steps, run, h.v, h.term, run[last].hist.leaderLog[h.term], last + 1, |run| - 1);
    }
  }

  // ---------------------------------------------------------------- every cluster run can be followed

  lemma LogIsIndexed(members: set<nat>, steps: seq<Step>, run: seq<Cluster>, k: nat, v: nat)
    requires IsRun(members, steps, run) && k < |run| && v in run[k].nodes
    ensures Indexed(run[k].nodes[v].log)
  {
    forall i | 0 <= i < |run[k].nodes[v].log| ensures run[k].nodes[v].log[i].index == i + 1 {
      LogShape(members, steps, run, k, v, i, i);
    }
  }

  lemma TermStep(members: set<nat>, steps: seq<Step>, run: seq<Cluster>, v: nat, t: nat, i: nat)
    requires IsRun(members, steps, run) && i < |steps| && v in run[i].nodes && LedBy(run[i], v, t)
    requires !TakesRequests(run[i], steps[i], v) && LeadsTerm(run[i + 1], v, t)
    ensures LeadsTerm(run[i], v, t) && run[i + 1].nodes[v].log == run[i].nodes[v].log
  {
    RunInv(members, steps, run, i);
    RunInv(members, steps, run, i + 1);
    RunStep(members, steps, run, i);
    if !LeadsTerm(run[i], v, t) {
      LedOnce(run[i], run[i + 1], steps[i], v, t);
    } else {
      OnlyRequestsAdd(run[i], run[i + 1], steps[i], v, t);
      LeaderLogIs(run[i], v, t);
      LeaderLogIs(run[i + 1], v, t);
    }
  }

  /** Whatever the Raft thread of a process does after it has won a term, other than taking requests, the
      pipeline can follow. */
  lemma CanFollow<E>(members: set<nat>, steps: seq<Step>, run: seq<Cluster>, d: EventLoading.Decoder<E>, s: Handover.State<E>, v: nat, i: nat)
    requires IsRun(members, steps, run) && i < |steps| && v in run[i].nodes && v in run[i + 1].nodes
    requires s.node == run[i].nodes[v] && LedBy(run[i], v, s.term)
    requires !TakesRequests(run[i], steps[i], v) && SameProcess(run[i], run[i + 1], v)
    ensures Handover.Enabled(d, s, Handover.Raft(run[i + 1].nodes[v]))
  {
    LogIsIndexed(members, steps, run, i + 1, v);
    CommittedViewGrows(members, steps, run, i, i + 1, v);
    CommitIndexGrows(members, steps, run, i, i + 1, v);
    var c, a, b := run[i].nodes[v].commitIndex, run[i].nodes[v].log, run[i + 1].nodes[v].log;
    assert b[..c] == b[..run[i + 1].nodes[v].commitIndex][..c] == a[..c];
    if LeadsTerm(run[i + 1], v, s.term) {
      TermStep(members, steps, run, v, s.term, i);
    }
  }

  // ---------------------------------------------------------------- what a rejection rests on

  lemma PrefixOf(log: seq<LogEntry>, base: seq<LogEntry>, taken: seq<LogEntry>, submitted: seq<LogEntry>, n: nat)
    requires n == |base| + |submitted| && n <= |log| && log[..n] <= base + taken
    requires submitted <= taken || taken <= submitted
    ensures log[..n] == base + submitted
  {
    assert |submitted| <= |taken|;
    assert base + submitted <= base + taken;
  }

  /** An entry of the term is, with everything before it, in the log of the term. */
  lemma InTermLog(members: set<nat>, steps: seq<Step>, run: seq<Cluster>, j: nat, w: nat, index: nat, t: nat)
    requires IsRun(members, steps, run) && j < |run| && w in run[j].nodes && 1 <= index <= |run[j].nodes[w].log|
    requires run[j].nodes[w].log[index - 1].term == t
    ensures t in Final(run).leaderLog && run[j].nodes[w].log[..index] <= Final(run).leaderLog[t]
  {
    AtMoment(members, steps, run, j, w);
    assert LogOkAt(run[j].nodes[w].log, run[j].hist.leaderLog, index - 1);
  }

  /** A command loop that refuses a command in its k-th state names its last command id and its term. If an
      entry with that index and term is in the log of any server at any moment, then that log is, up to
      there, the one the term started from and everything submitted before the command was judged. */
  lemma RefusalRestsOnLog<E>(members: set<nat>, steps: seq<Step>, run: seq<Cluster>, d: EventLoading.Decoder<E>, h: Hosted<E>,
                             k: nat, j: nat, w: nat)
    requires IsRun(members, steps, run) && Hosts(steps, run, d, h) && ToTheEnd(steps, run, h)
    requires k < |h.run| && h.run[k].wait.Leading? && j < |run| && w in run[j].nodes
    requires 1 <= h.run[k].lastCommandId <= |run[j].nodes[w].log|
    requires run[j].nodes[w].log[h.run[k].lastCommandId - 1].term == h.term
    ensures run[j].nodes[w].log[..h.run[k].lastCommandId] == h.run[0].node.log + h.run[k].submitted
  {
    var index, last := h.run[k].lastCommandId, h.run[|h.run| - 1];
    InTermLog(members, steps, run, j, w, index, h.term);
    TermLogAtEnd(members, steps, run, d, h, last);
    PipeAt(members, steps, run, d, h, k);
    Handover.SubmittedGrows(d, h.steps, h.run, k, |h.run| - 1);
    Comparable(h.run[k].submitted, last.submitted, last.accepted);
    PrefixOf(run[j].nodes[w].log, h.run[0].node.log, last.submitted[..last.accepted], h.run[k].submitted, index);
  }

  lemma Comparable<T>(a: seq<T>, b: seq<T>, n: nat)
    requires a <= b && n <= |b|
    ensures a <= b[..n] || b[..n] <= a
  {
    if n <= |a| {
      assert b[..n] == a[..n];
    } else {
      assert b[..n][..|a|] == a;
    }
  }
}
