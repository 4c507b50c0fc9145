/** From one leader to the whole cluster: if every entry a leader appends for its clients has been judged
    against the log before it, then every log of every server is such a log, at every moment. */
module RaftJudged {
  import opened RaftTypes
  import opened RaftCore
  import opened RaftCluster
  import opened RaftInvariant
  import opened RaftLogs
  import opened RaftAct
  import opened RaftSafety
  import opened RaftTheorems

  /** A judge says whether an entry may follow a log. No-ops are not judged. */
  type Judge = (seq<LogEntry>, LogEntry) -> bool

  ghost predicate JudgedAt(judge: Judge, log: seq<LogEntry>, i: nat) {
    i < |log| && (log[i].noop || judge(log[..i], log[i]))
  }

  ghost predicate Judged(judge: Judge, log: seq<LogEntry>) {
    forall i: nat {:trigger JudgedAt(judge, log, i)} :: i < |log| ==> JudgedAt(judge, log, i)
  }

  lemma JudgedPrefix(judge: Judge, a: seq<LogEntry>, b: seq<LogEntry>)
    requires Judged(judge, b) && a <= b
    ensures Judged(judge, a)
  {
    forall i: nat | i < |a| ensures JudgedAt(judge, a, i) {
      assert JudgedAt(judge, b, i);
      assert a[..i] == b[..i];
    }
  }

  lemma JudgedMore(judge: Judge, log: seq<LogEntry>, log': seq<LogEntry>)
    requires Judged(judge, log) && log <= log'
    requires forall i: nat {:trigger JudgedAt(judge, log', i)} :: |log| <= i < |log'| ==> JudgedAt(judge, log', i)
    ensures Judged(judge, log')
  {
    forall i: nat | i < |log'| ensures JudgedAt(judge, log', i) {
      if i < |log| {
        assert JudgedAt(judge, log, i);
        assert log[..i] == log'[..i];
      }
    }
  }

  /** Every leader so far has had a judged log. */
  ghost predicate LeadersJudged(judge: Judge, L: TermLogs) {
    forall t {:trigger L[t]} :: t in L ==> Judged(judge, L[t])
  }

  /** Then so has everybody: any log is a beginning of some leader's log. */
  lemma LogJudged(judge: Judge, log: seq<LogEntry>, L: TermLogs)
    requires LeadersJudged(judge, L) && LogOk(log, L) && TermLogsOk(L)
    ensures Judged(judge, log)
  {
    LastTermBounds(log, L);
    if log != [] {
      JudgedPrefix(judge, log, L[LastTerm(log)]);
    }
  }

  /** What is asked of the clients: what a leader takes has been judged. */
  ghost predicate ClientsJudge(judge: Judge, c: Cluster, s: Step) {
    s.Client? && s.v in c.nodes && c.nodes[s.v].role.Leader? ==>
      var log' := HandleClientRequests(c.nodes[s.v], s.requests).log;
      forall i: nat {:trigger JudgedAt(judge, log', i)} :: |c.nodes[s.v].log| <= i < |log'| ==> JudgedAt(judge, log', i)
  }

  lemma StepKeepsJudged(judge: Judge, c: Cluster, c': Cluster, s: Step)
    requires Inv(c) && Enabled(c, s) && c' == Do(c, s) && ClientsJudge(judge, c, s)
    requires LeadersJudged(judge, c.hist.leaderLog)
    ensures LeadersJudged(judge, c'.hist.leaderLog)
  {
    if s.Client? {
      ClientKeepsJudged(judge, c, c', s.v, s.requests);
    } else if s.Lead? {
      LeadKeepsJudged(judge, c, c', s.v);
    } else {
      OthersKeepLeaders(c, c', s);
    }
  }

  lemma ClientKeepsJudged(judge: Judge, c: Cluster, c': Cluster, v: nat, requests: seq<LogEntry>)
    requires Inv(c) && IsServer(c, v) && c' == DoClient(c, v, requests) && ClientsJudge(judge, c, Client(v, requests))
    requires LeadersJudged(judge, c.hist.leaderLog)
    ensures LeadersJudged(judge, c'.hist.leaderLog)
  {
    var n, n' := c.nodes[v], HandleClientRequests(c.nodes[v], requests);
    assert NodeOk(c.members, c.hist, v, n);
    if n.role.Leader? {
      LogJudged(judge, n.log, c.hist.leaderLog);
      JudgedMore(judge, n.log, n'.log);
    }
  }

  lemma LeadKeepsJudged(judge: Judge, c: Cluster, c': Cluster, v: nat)
    requires Inv(c) && IsServer(c, v) && c' == DoLead(c, v) && LeadersJudged(judge, c.hist.leaderLog)
    ensures LeadersJudged(judge, c'.hist.leaderLog)
  {
    var n, n' := c.nodes[v], BecomeLeader(c.nodes[v]);
    assert NodeOk(c.members, c.hist, v, n);
    if n' != n {
      LogJudged(judge, n.log, c.hist.leaderLog);
      assert JudgedAt(judge, n'.log, |n.log|);
      JudgedMore(judge, n.log, n'.log);
    }
  }

  /** Only clients and elections change what leaders hold. */
  lemma OthersKeepLeaders(c: Cluster, c': Cluster, s: Step)
    requires Enabled(c, s) && c' == Do(c, s) && !s.Client? && !s.Lead?
    ensures c'.hist.leaderLog == c.hist.leaderLog
  {
  }

  lemma {:induction false} RunJudged(judge: Judge, members: set<nat>, steps: seq<Step>, run: seq<Cluster>, k: nat)
    requires IsRun(members, steps, run) && k < |run|
    requires forall i {:trigger steps[i]} :: 0 <= i < |steps| ==> ClientsJudge(judge, run[i], steps[i])
    ensures LeadersJudged(judge, run[k].hist.leaderLog)
    decreases k
  {
    if k == 0 {
      RunStart(members, steps, run);
    } else {
      RunJudged(judge, members, steps, run, k - 1);
      RunInv(members, steps, run, k - 1);
      RunStep(members, steps, run, k - 1);
      StepKeepsJudged(judge, run[k - 1], run[k], steps[k - 1]);
    }
  }

  /** On every server at every moment, every client entry has been judged against exactly the log that
      stands before it there. */
  lemma EveryLogIsJudged(judge: Judge, members: set<nat>, steps: seq<Step>, run: seq<Cluster>, k: nat, v: nat)
    requires IsRun(members, steps, run) && k < |run| && v in run[k].nodes
    requires forall i {:trigger steps[i]} :: 0 <= i < |steps| ==> ClientsJudge(judge, run[i], steps[i])
    ensures Judged(judge, run[k].nodes[v].log)
  {
    RunJudged(judge, members, steps, run, k);
    AtMoment(members, steps, run, k, v);
    LogJudged(judge, run[k].nodes[v].log, run[k].hist.leaderLog);
  }

  // ---------------------------------------------------------------- ids recorded once, cluster-wide

  /** A judge that lets an entry pass only if the ids it records are new. */
  function NewIds(ids: LogEntry -> set<string>): Judge {
    (log: seq<LogEntry>, e: LogEntry) => forall i :: 0 <= i < |log| ==> log[i].noop || ids(log[i]) !! ids(e)
  }

  /** If leaders accept only new ids, no id is recorded by two entries of any server's log, however many
      leaders have written it. */
  lemma NoIdTwice(ids: LogEntry -> set<string>, members: set<nat>, steps: seq<Step>, run: seq<Cluster>,
                  k: nat, v: nat, i: nat, j: nat)
    requires IsRun(members, steps, run) && k < |run| && v in run[k].nodes && i < j < |run[k].nodes[v].log|
    requires forall i {:trigger steps[i]} :: 0 <= i < |steps| ==> ClientsJudge(NewIds(ids), run[i], steps[i])
    requires !run[k].nodes[v].log[i].noop && !run[k].nodes[v].log[j].noop
    ensures ids(run[k].nodes[v].log[i]) !! ids(run[k].nodes[v].log[j])
  {
    EveryLogIsJudged(NewIds(ids), members, steps, run, k, v);
    var log := run[k].nodes[v].log;
    assert JudgedAt(NewIds(ids), log, j);
    assert log[..j][i] == log[i];
  }
}
