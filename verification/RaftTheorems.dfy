/** What Raft promises of every run: for any two servers at any two moments, with messages lost,
    reordered and duplicated and servers crashing and restarting in between. */
module RaftTheorems {
  import opened RaftTypes
  import opened RaftCore
  import opened RaftCluster
  import opened RaftInvariant
  import opened RaftLogs
  import opened RaftCompleteness
  import opened RaftReceive
  import opened RaftAct
  import opened RaftSafety
  import RaftNode

  // ---------------------------------------------------------------- the invariant along a run

  lemma InitInv(members: set<nat>)
    requires NOBODY !in members
    ensures Inv(InitialCluster(members))
  {
    var c := InitialCluster(members);
    forall v | v in c.nodes ensures NodeOk(members, c.hist, v, c.nodes[v]) {
      assert c.nodes[v].peers.Keys == members - {v};
    }
  }

  lemma RunStep(members: set<nat>, steps: seq<Step>, run: seq<Cluster>, k: nat)
    requires IsRun(members, steps, run) && k < |steps|
    ensures Enabled(run[k], steps[k]) && run[k + 1] == Do(run[k], steps[k])
  {
    assert FollowsAt(members, steps, run, k + 1);
  }

  lemma RunStart(members: set<nat>, steps: seq<Step>, run: seq<Cluster>)
    requires IsRun(members, steps, run)
    ensures NOBODY !in members && run[0] == InitialCluster(members)
  {
    assert FollowsAt(members, steps, run, 0);
  }

  lemma InvGoesOn(members: set<nat>, steps: seq<Step>, run: seq<Cluster>, k: nat)
    requires IsRun(members, steps, run) && k < |steps| && Inv(run[k]) && run[k].members == members
    ensures Inv(run[k + 1]) && run[k + 1].members == members
  {
    RunStep(members, steps, run, k);
    StepKeepsInv(run[k], run[k + 1], steps[k]);
    StepKeepsMembers(run[k], run[k + 1], steps[k]);
  }

  lemma {:induction false} RunInv(members: set<nat>, steps: seq<Step>, run: seq<Cluster>, k: nat)
    requires IsRun(members, steps, run) && k < |run|
    ensures Inv(run[k]) && run[k].members == members
    decreases k
  {
    if k == 0 {
      RunStart(members, steps, run);
      InitInv(members);
    } else {
      RunInv(members, steps, run, k - 1);
      InvGoesOn(members, steps, run, k - 1);
    }
  }

  lemma StepKeepsMembers(c: Cluster, c': Cluster, s: Step)
    requires Enabled(c, s) && c' == Do(c, s)
    ensures c'.members == c.members
  {
  }

  /** The history of a later moment holds all there was before. */
  ghost predicate Since(h: History, h': History) {
    && Grows(h.leaderLog, h'.leaderLog)
    && (forall t :: t in h.leaderOf ==> t in h'.leaderOf && h'.leaderOf[t] == h.leaderOf[t])
    && (forall k :: k in h.grants ==> k in h'.grants && h'.grants[k] == h.grants[k])
    && (forall k :: k in h.candLog ==> k in h'.candLog && h'.candLog[k] == h.candLog[k])
    && h.commits <= h'.commits
  }

  lemma RunExtends(members: set<nat>, steps: seq<Step>, run: seq<Cluster>, k: nat, h: History, h': History)
    requires IsRun(members, steps, run) && k < |steps| && h == run[k].hist && h' == run[k + 1].hist
    ensures Extends(Actor(steps[k]), h, h')
  {
    RunInv(members, steps, run, k);
    RunStep(members, steps, run, k);
    StepKeepsInv(run[k], run[k + 1], steps[k]);
  }

  lemma SinceSelf(h: History)
    ensures Since(h, h)
  {
  }

  ghost predicate Chain(hs: seq<History>, vs: seq<nat>) {
    |hs| == |vs| + 1 && forall i {:trigger vs[i]} :: 0 <= i < |vs| ==> Extends(vs[i], hs[i], hs[i + 1])
  }

  lemma {:induction false} ChainSince(hs: seq<History>, vs: seq<nat>, j: nat, k: nat)
    requires Chain(hs, vs) && j <= k < |hs|
    ensures Since(hs[j], hs[k])
    decreases k - j
  {
    if j == k {
      SinceSelf(hs[j]);
    } else {
      ChainSince(hs, vs, j, k - 1);
      SinceTrans(hs[j], hs[k - 1], hs[k], vs[k - 1]);
    }
  }

  lemma RunSince(members: set<nat>, steps: seq<Step>, run: seq<Cluster>, j: nat, k: nat)
    requires IsRun(members, steps, run) && j <= k < |run|
    ensures Since(run[j].hist, run[k].hist)
  {
    var hs := seq(|run|, i requires 0 <= i < |run| => run[i].hist);
    var vs := seq(|steps|, i requires 0 <= i < |steps| => Actor(steps[i]));
    forall i | 0 <= i < |vs| ensures Extends(vs[i], hs[i], hs[i + 1]) {
      RunExtends(members, steps, run, i, hs[i], hs[i + 1]);
    }
    ChainSince(hs, vs, j, k);
  }

  lemma SinceTrans(h: History, h1: History, h2: History, v: nat)
    requires Since(h, h1) && Extends(v, h1, h2)
    ensures Since(h, h2)
  {
    forall t | t in h.leaderLog ensures t in h2.leaderLog && h.leaderLog[t] <= h2.leaderLog[t] {
      PrefixTrans(h.leaderLog[t], h1.leaderLog[t], h2.leaderLog[t]);
    }
  }

  /** The last moment of a run carries a history that covers every earlier one. */
  function Final(run: seq<Cluster>): History
    requires run != []
  {
    run[|run| - 1].hist
  }

  lemma AtMoment(members: set<nat>, steps: seq<Step>, run: seq<Cluster>, k: nat, v: nat)
    requires IsRun(members, steps, run) && k < |run| && v in run[k].nodes
    ensures HistoryOk(members, Final(run)) && Since(run[k].hist, Final(run))
    ensures HistoryOk(members, run[k].hist) && NodeOk(members, run[k].hist, v, run[k].nodes[v])
  {
    RunInv(members, steps, run, k);
    RunInv(members, steps, run, |run| - 1);
    RunSince(members, steps, run, k, |run| - 1);
    assert NodeOk(members, run[k].hist, v, run[k].nodes[v]);
  }

  // ---------------------------------------------------------------- elections

  /** Election safety: over a whole run, no two servers ever lead the same term. */
  lemma ElectionSafety(members: set<nat>, steps: seq<Step>, run: seq<Cluster>, j: nat, k: nat, u: nat, v: nat)
    requires IsRun(members, steps, run) && j < |run| && k < |run| && u in run[j].nodes && v in run[k].nodes
    requires run[j].nodes[u].role.Leader? && run[k].nodes[v].role.Leader?
    requires run[j].nodes[u].term == run[k].nodes[v].term
    ensures u == v
  {
    AtMoment(members, steps, run, j, u);
    AtMoment(members, steps, run, k, v);
    var t := run[j].nodes[u].term;
    assert Final(run).leaderOf[t] == u;
    assert Final(run).leaderOf[t] == v;
  }

  /** One vote a term: two votes granted by one server in one term name the same candidate, whatever
      crashes lie between them. */
  lemma OneVotePerTerm(members: set<nat>, steps: seq<Step>, run: seq<Cluster>, j: nat, k: nat, a: Message, b: Message)
    requires IsRun(members, steps, run) && j < |run| && k < |run| && a in run[j].net && b in run[k].net
    requires a.RVResp? && b.RVResp? && a.rvResp.voteGranted && b.rvResp.voteGranted
    requires a.rvResp.id == b.rvResp.id && a.rvResp.savedTerm == b.rvResp.savedTerm
    ensures a.to == b.to
  {
    var last := |run| - 1;
    RunInv(members, steps, run, j);
    RunInv(members, steps, run, k);
    RunSince(members, steps, run, j, last);
    RunSince(members, steps, run, k, last);
    assert MessageOk(members, run[j].hist, a) && MessageOk(members, run[k].hist, b);
    var key := Key(a.rvResp.savedTerm, a.rvResp.id);
    assert Final(run).grants[key].cand == a.to;
    assert Final(run).grants[key].cand == b.to;
  }

  /** A server that stands in a term gives its vote of that term to nobody else. */
  lemma CandidateVotesForItself(members: set<nat>, steps: seq<Step>, run: seq<Cluster>, j: nat, k: nat, u: nat, a: Message)
    requires IsRun(members, steps, run) && j < |run| && k < |run| && u in run[j].nodes && a in run[k].net
    requires run[j].nodes[u].role.Candidate?
    requires a.RVResp? && a.rvResp.voteGranted && a.rvResp.id == u
    ensures a.rvResp.savedTerm != run[j].nodes[u].term
  {
    AtMoment(members, steps, run, j, u);
    RunInv(members, steps, run, k);
    RunSince(members, steps, run, k, |run| - 1);
    assert MessageOk(members, run[k].hist, a);
    var key := Key(run[j].nodes[u].term, u);
    assert Final(run).grants[key].cand == u;
    assert Final(run).grants[Key(a.rvResp.savedTerm, u)].cand == a.to;
  }

  // ---------------------------------------------------------------- logs

  /** Log matching: entries of equal index and term mean equal logs up to there. */
  lemma LogMatching(members: set<nat>, steps: seq<Step>, run: seq<Cluster>, j: nat, k: nat, u: nat, v: nat, i: nat)
    requires IsRun(members, steps, run) && j < |run| && k < |run| && u in run[j].nodes && v in run[k].nodes
    requires i <= |run[j].nodes[u].log| && i <= |run[k].nodes[v].log|
    requires TermAt(run[j].nodes[u].log, i) == TermAt(run[k].nodes[v].log, i)
    ensures run[j].nodes[u].log[..i] == run[k].nodes[v].log[..i]
  {
    AtMoment(members, steps, run, j, u);
    AtMoment(members, steps, run, k, v);
    LogOkGrows(run[j].nodes[u].log, run[j].hist.leaderLog, Final(run).leaderLog);
    LogOkGrows(run[k].nodes[v].log, run[k].hist.leaderLog, Final(run).leaderLog);
    AgreeUpTo(run[j].nodes[u].log, run[k].nodes[v].log, Final(run).leaderLog, i);
  }

  /** Logs are well formed at every moment: the entry at position i carries index i, terms never
      decrease and none exceeds the server's term. */
  lemma LogShape(members: set<nat>, steps: seq<Step>, run: seq<Cluster>, k: nat, v: nat, i: nat, j: nat)
    requires IsRun(members, steps, run) && k < |run| && v in run[k].nodes && i <= j < |run[k].nodes[v].log|
    ensures run[k].nodes[v].log[i].index == i + 1
    ensures run[k].nodes[v].log[i].term <= run[k].nodes[v].log[j].term <= run[k].nodes[v].term
  {
    AtMoment(members, steps, run, k, v);
    IndexedLog(run[k].nodes[v].log, run[k].hist.leaderLog);
    TermsOrdered(run[k].nodes[v].log, run[k].hist.leaderLog, i, j);
  }

  // ---------------------------------------------------------------- committed entries

  lemma CommittedLater(h: History, h': History, n: Node)
    requires CommittedPrefix(h, n.log, n.commitIndex, n.term) && Since(h, h')
    ensures CommittedPrefix(h', n.log, n.commitIndex, n.term)
  {
    CommittedPrefixGrows(h, h', n.log, n.commitIndex, n.term, n.log, n.term);
  }

  /** Leader completeness: what any server holds committed is in the log of every leader of a later
      term, whenever that leader leads. */
  lemma LeadersHaveCommitted(members: set<nat>, steps: seq<Step>, run: seq<Cluster>, j: nat, k: nat, u: nat, v: nat)
    requires IsRun(members, steps, run) && j < |run| && k < |run| && u in run[j].nodes && v in run[k].nodes
    requires run[k].nodes[v].role.Leader? && run[j].nodes[u].term < run[k].nodes[v].term
    ensures run[j].nodes[u].commitIndex <= |run[j].nodes[u].log|
    ensures run[j].nodes[u].log[..run[j].nodes[u].commitIndex] <= run[k].nodes[v].log
  {
    var n, l, h := run[j].nodes[u], run[k].nodes[v], Final(run);
    AtMoment(members, steps, run, j, u);
    AtMoment(members, steps, run, k, v);
    CommittedLater(run[j].hist, h, n);
    CommittedInCandidate(members, h, n.log, n.commitIndex, n.term, l.term);
    assert ElectionOk(members, run[k].hist, l.term);
    PrefixTrans(n.log[..n.commitIndex], h.candLog[Key(l.term, v)], l.log);
  }

  lemma CommittedAgree(members: set<nat>, h: History, a: Node, b: Node, i: nat, ca: Commit, cb: Commit)
    requires HistoryOk(members, h) && i <= a.commitIndex && i <= b.commitIndex && ca.term <= cb.term
    requires CommitWitness(h, a.log, a.commitIndex, a.term, ca)
    requires CommitWitness(h, b.log, b.commitIndex, b.term, cb)
    ensures a.log[..i] == b.log[..i]
  {
    if ca.term < cb.term {
      LeaderCompleteness(members, h, ca, cb.term);
    }
    var pa, pb := h.leaderLog[ca.term], h.leaderLog[cb.term];
    assert pa[..i] == pb[..i];
    assert a.log[..i] == a.log[..a.commitIndex][..i] == pa[..i];
    assert b.log[..i] == b.log[..b.commitIndex][..i] == pb[..i];
  }

  /** State machine safety: two servers, at any two moments, hold the same entries up to any index
      both have committed. */
  lemma StateMachineSafety(members: set<nat>, steps: seq<Step>, run: seq<Cluster>, j: nat, k: nat, u: nat, v: nat, i: nat)
    requires IsRun(members, steps, run) && j < |run| && k < |run| && u in run[j].nodes && v in run[k].nodes
    requires i <= run[j].nodes[u].commitIndex && i <= run[k].nodes[v].commitIndex
    ensures i <= |run[j].nodes[u].log| && i <= |run[k].nodes[v].log|
    ensures run[j].nodes[u].log[..i] == run[k].nodes[v].log[..i]
  {
    var a, b, h := run[j].nodes[u], run[k].nodes[v], Final(run);
    AtMoment(members, steps, run, j, u);
    AtMoment(members, steps, run, k, v);
    CommittedLater(run[j].hist, h, a);
    CommittedLater(run[k].hist, h, b);
    if i != 0 {
      var ca :| CommitWitness(h, a.log, a.commitIndex, a.term, ca);
      var cb :| CommitWitness(h, b.log, b.commitIndex, b.term, cb);
      if ca.term <= cb.term {
        CommittedAgree(members, h, a, b, i, ca, cb);
      } else {
        CommittedAgree(members, h, b, a, i, cb, ca);
      }
    }
  }

  // ---------------------------------------------------------------- committed entries stay

  /** A log moves by growing, or towards the log of its term's leader. */
  ghost predicate LogMoves(h: History, n: Node, n': Node) {
    && n.term <= n'.term
    && (n.log <= n'.log || (n'.term in h.leaderLog && KeepsShared(n.log, h.leaderLog[n'.term], n'.log)))
  }

  lemma AcceptMoves(c: Cluster, c': Cluster, m: Message, d: nat)
    requires Inv(c) && m.AEReq? && Deliverable(c, m) && c' == DoDeliver(c, m, d)
    requires c.nodes[m.to].term <= m.aeReq.term && LogIsOk(c.nodes[m.to].log, m.aeReq)
    ensures LogMoves(c.hist, c.nodes[m.to], c'.nodes[m.to])
    ensures c'.incs == c.incs && c.nodes[m.to].commitIndex <= c'.nodes[m.to].commitIndex
  {
    var n := c.nodes[m.to];
    NodeAndMessage(c, m);
    FollowLeaderOk(c.members, c.hist, m.to, n, m.from, m.aeReq);
    AcceptReplies(c.members, c.hist, m.to, n, m.from, m.aeReq);
    MergeKeepsShared(n.log, c.hist.leaderLog[m.aeReq.term], m.aeReq);
    assert c'.nodes[m.to] == TakenNode(n, m.aeReq);
  }

  lemma TruncateMoves(c: Cluster, c': Cluster, m: Message)
    requires Inv(c) && Enabled(c, CrashInTruncate(m)) && c' == Do(c, CrashInTruncate(m))
    ensures LogMoves(c.hist, c.nodes[m.to], c'.nodes[m.to])
  {
    var n := c.nodes[m.to];
    NodeAndMessage(c, m);
    FollowLeaderOk(c.members, c.hist, m.to, n, m.from, m.aeReq);
    MergeKeepsShared(n.log, c.hist.leaderLog[m.aeReq.term], m.aeReq);
  }

  lemma OtherMoves(c: Cluster, c': Cluster, m: Message, d: nat)
    requires Deliverable(c, m) && c' == DoDeliver(c, m, d)
    requires m.AEReq? ==> m.aeReq.term < c.nodes[m.to].term || !LogIsOk(c.nodes[m.to].log, m.aeReq)
    ensures c.nodes[m.to].term <= c'.nodes[m.to].term && c.nodes[m.to].log == c'.nodes[m.to].log
    ensures c'.incs == c.incs ==> c.nodes[m.to].commitIndex == c'.nodes[m.to].commitIndex
  {
  }

  /** One step of the acting server. */
  lemma ActorMoves(c: Cluster, c': Cluster, s: Step)
    requires Inv(c) && Enabled(c, s) && c' == Do(c, s)
    ensures var v := Actor(s);
            && v in c.nodes && v in c'.nodes && v in c.incs && v in c'.incs
            && LogMoves(c.hist, c.nodes[v], c'.nodes[v])
            && (c'.incs[v] == c.incs[v] ==> c.nodes[v].commitIndex <= c'.nodes[v].commitIndex)
  {
    match s
    case Deliver(m, d) =>
      if m.AEReq? && c.nodes[m.to].term <= m.aeReq.term && LogIsOk(c.nodes[m.to].log, m.aeReq) {
        AcceptMoves(c, c', m, d);
      } else {
        OtherMoves(c, c', m, d);
      }
    case CrashInTruncate(m) => TruncateMoves(c, c', m);
    case _ =>
  }

  lemma OthersStay(c: Cluster, c': Cluster, s: Step, u: nat)
    requires Enabled(c, s) && c' == Do(c, s) && u != Actor(s)
    ensures u in c.nodes <==> u in c'.nodes
    ensures u in c.nodes ==> c'.nodes[u] == c.nodes[u]
    ensures u in c.incs <==> u in c'.incs
    ensures u in c.incs ==> c'.incs[u] == c.incs[u]
  {
  }

  lemma StepKeepsCommitted(c: Cluster, c': Cluster, s: Step, u: nat, i: nat)
    requires Inv(c) && Enabled(c, s) && c' == Do(c, s) && u in c.nodes
    requires CommittedPrefix(c.hist, c.nodes[u].log, i, c.nodes[u].term)
    ensures u in c'.nodes && i <= |c.nodes[u].log| && c.nodes[u].log[..i] <= c'.nodes[u].log
    ensures CommittedPrefix(c'.hist, c'.nodes[u].log, i, c'.nodes[u].term)
  {
    StepKeepsInv(c, c', s);
    if u == Actor(s) {
      ActorMoves(c, c', s);
    } else {
      OthersStay(c, c', s, u);
    }
    MoveKeepsCommitted(c.members, c.hist, c.nodes[u], c'.nodes[u], i);
    KeptPrefix(c.hist, c'.hist, c.nodes[u], c'.nodes[u], i, Actor(s));
  }

  lemma MoveKeepsCommitted(members: set<nat>, h: History, n: Node, n': Node, i: nat)
    requires HistoryOk(members, h) && CommittedPrefix(h, n.log, i, n.term) && LogMoves(h, n, n')
    ensures n.log <= n'.log || (i <= |n.log| && n.log[..i] <= n'.log)
  {
    if !(n.log <= n'.log) {
      CommittedInLeaderLog(members, h, n.log, i, n.term, n'.term);
    }
  }

  lemma KeptPrefix(h: History, h': History, n: Node, n': Node, i: nat, v: nat)
    requires CommittedPrefix(h, n.log, i, n.term) && Extends(v, h, h') && n.term <= n'.term
    requires n.log <= n'.log || (i <= |n.log| && n.log[..i] <= n'.log)
    ensures i <= |n.log| && n.log[..i] <= n'.log && CommittedPrefix(h', n'.log, i, n'.term)
  {
    assert i <= |n.log| ==> n.log[..i] <= n'.log;
    assert i <= |n.log| ==> i <= |n'.log| && n'.log[..i] == n.log[..i];
    CommittedPrefixGrows(h, h', n.log, i, n.term, n'.log, n'.term);
  }

  ghost predicate KeepsAt(run: seq<Cluster>, u: nat, prefix: seq<LogEntry>, k: nat) {
    && k < |run| && u in run[k].nodes && prefix <= run[k].nodes[u].log
    && CommittedPrefix(run[k].hist, run[k].nodes[u].log, |prefix|, run[k].nodes[u].term)
  }

  lemma KeepsOn(members: set<nat>, steps: seq<Step>, run: seq<Cluster>, u: nat, prefix: seq<LogEntry>, k: nat)
    requires IsRun(members, steps, run) && k < |steps| && KeepsAt(run, u, prefix, k)
    ensures KeepsAt(run, u, prefix, k + 1)
  {
    RunInv(members, steps, run, k);
    RunStep(members, steps, run, k);
    StepKeepsCommitted(run[k], run[k + 1], steps[k], u, |prefix|);
    assert run[k].nodes[u].log[..|prefix|] == prefix;
  }

  lemma {:induction false} CommittedStaysFrom(members: set<nat>, steps: seq<Step>, run: seq<Cluster>, j: nat, k: nat, u: nat, prefix: seq<LogEntry>)
    requires IsRun(members, steps, run) && j <= k < |run| && KeepsAt(run, u, prefix, j)
    ensures KeepsAt(run, u, prefix, k)
    decreases k - j
  {
    if j < k {
      CommittedStaysFrom(members, steps, run, j, k - 1, u, prefix);
      KeepsOn(members, steps, run, u, prefix, k - 1);
    }
  }

  /** What a server has committed it keeps in its log for the rest of the run, through any number of
      leaders, truncations and crashes. */
  lemma CommittedStays(members: set<nat>, steps: seq<Step>, run: seq<Cluster>, j: nat, k: nat, u: nat)
    requires IsRun(members, steps, run) && j <= k < |run| && u in run[j].nodes
    ensures u in run[k].nodes && run[j].nodes[u].commitIndex <= |run[j].nodes[u].log|
    ensures run[j].nodes[u].log[..run[j].nodes[u].commitIndex] <= run[k].nodes[u].log
  {
    AtMoment(members, steps, run, j, u);
    var n := run[j].nodes[u];
    CommittedStaysFrom(members, steps, run, j, k, u, n.log[..n.commitIndex]);
  }

  /** Within one process incarnation the commit index never decreases. */
  lemma {:induction false} CommitIndexGrows(members: set<nat>, steps: seq<Step>, run: seq<Cluster>, j: nat, k: nat, u: nat)
    requires IsRun(members, steps, run) && j <= k < |run|
    requires u in run[j].nodes && u in run[k].nodes && u in run[j].incs && u in run[k].incs
    ensures run[j].incs[u] <= run[k].incs[u]
    ensures run[j].incs[u] == run[k].incs[u] ==> run[j].nodes[u].commitIndex <= run[k].nodes[u].commitIndex
    decreases k - j
  {
    if j < k {
      var s := steps[j];
      RunInv(members, steps, run, j);
      RunStep(members, steps, run, j);
      if u == Actor(s) {
        ActorMoves(run[j], run[j + 1], s);
      } else {
        OthersStay(run[j], run[j + 1], s, u);
      }
      IncsGrow(run[j], run[j + 1], s, u);
      CommitIndexGrows(members, steps, run, j + 1, k, u);
    }
  }

  /** What a process shows as committed only gets longer: the view that the readers of the log rely on. */
  lemma CommittedViewGrows(members: set<nat>, steps: seq<Step>, run: seq<Cluster>, j: nat, k: nat, u: nat)
    requires IsRun(members, steps, run) && j <= k < |run|
    requires u in run[j].nodes && u in run[k].nodes && u in run[j].incs && u in run[k].incs
    requires run[j].incs[u] == run[k].incs[u]
    ensures run[j].nodes[u].commitIndex <= |run[j].nodes[u].log| && run[k].nodes[u].commitIndex <= |run[k].nodes[u].log|
    ensures run[j].nodes[u].log[..run[j].nodes[u].commitIndex] <= run[k].nodes[u].log[..run[k].nodes[u].commitIndex]
  {
    CommittedStays(members, steps, run, j, k, u);
    CommittedStays(members, steps, run, k, k, u);
    CommitIndexGrows(members, steps, run, j, k, u);
  }

  lemma IncsGrow(c: Cluster, c': Cluster, s: Step, u: nat)
    requires Enabled(c, s) && c' == Do(c, s) && u in c.incs
    ensures u in c'.incs && c.incs[u] <= c'.incs[u]
  {
  }

  // ---------------------------------------------------------------- assertions that cannot fail

  /** In no reachable state does an AppendEntries request, a vote or the commit rule trip an
      assertion; in particular no committed entry is ever truncated. */
  lemma NoAbort(members: set<nat>, steps: seq<Step>, run: seq<Cluster>, k: nat, m: Message, v: nat, majority: nat)
    requires IsRun(members, steps, run) && k < |run|
    ensures m.AEReq? && Deliverable(run[k], m) ==> HandleAERequest(run[k].nodes[m.to], m.aeReq).AEReply?
    ensures m.AEResp? && Deliverable(run[k], m) && run[k].nodes[m.to].term == m.aeResp.savedTerm ==>
              run[k].nodes[m.to].role.Leader?
    ensures Enabled(run[k], Advance(v, majority)) ==> AdvanceCommit(run[k].nodes[v], majority).Now?
  {
    var c := run[k];
    RunInv(members, steps, run, k);
    if m.AEReq? && Deliverable(c, m) {
      var c' := DoDeliver(c, m, 0);
      StepDeliverReplies(c, c', m);
    }
    if m.AEResp? && Deliverable(c, m) {
      AnswerFindsLeader(c, m);
    }
    if Enabled(c, Advance(v, majority)) {
      var c' := DoAdvance(c, v, majority);
      StepAdvance(c, c', v, majority);
    }
  }

  lemma StepDeliverReplies(c: Cluster, c': Cluster, m: Message)
    requires Inv(c) && m.AEReq? && Deliverable(c, m) && c' == DoDeliver(c, m, 0)
    ensures HandleAERequest(c.nodes[m.to], m.aeReq).AEReply?
  {
    if m.aeReq.term < c.nodes[m.to].term || !LogIsOk(c.nodes[m.to].log, m.aeReq) {
      StaleAE(c, c', m, 0);
    } else {
      FreshAE(c, c', m, 0);
    }
  }

  /** The answers to AppendEntries are another matter: of the three assertions made about them, the one
      on acceptance always holds, and the two on rejection fail exactly for a rejection that is late,
      that is, one that names the current nextIndex although more is known to be held by now. */
  lemma LateRejectionAborts(members: set<nat>, steps: seq<Step>, run: seq<Cluster>, k: nat, m: Message, d: nat)
    requires IsRun(members, steps, run) && k < |run| && m.AEResp? && Deliverable(run[k], m)
    ensures var n, r := run[k].nodes[m.to], m.aeResp;
            ReceiveAEResponse(n, r, d).Aborted? <==>
              && n.term == r.savedTerm && r.term <= n.term && !r.success
              && r.savedPrevLogIndex + 1 == n.peers[r.id].nextIndex
              && (r.lastLogIndex < n.peers[r.id].matchIndex || r.savedPrevLogIndex == n.peers[r.id].matchIndex)
  {
    RunInv(members, steps, run, k);
    NodeAndMessage(run[k], m);
    AnswerFindsLeader(run[k], m);
    var n, r := run[k].nodes[m.to], m.aeResp;
    if n.term == r.savedTerm {
      assert LeaderOk(run[k].hist, n);
      assert PeerOk(run[k].hist, n, r.id);
    }
  }

  /** A leader after it has looked for the largest index m that more than half of the servers hold. */
  ghost predicate CommitsUpTo(n: Node, m: nat, n': Node) {
    && n.role.Leader? && RaftNode.LargestHeld(n, m) && (n.commitIndex < m ==> m <= |n.log|)
    && n' == n.(commitIndex := if n.commitIndex < m && n.log[m - 1].term == n.term then m else n.commitIndex)
  }

  lemma AdvanceIs(n: Node, m: nat, n': Node)
    requires n.id !in n.peers && n.role.Leader? && IsMajorityIndex(n, m) && AdvanceCommit(n, m) == Now(n')
    ensures CommitsUpTo(n, m, n')
  {
    RaftNode.HeldIsMajority(n, m);
  }

  /** The commit rule in a run: a leader that looks commits the largest index that more than half of the servers
      hold, if it is new and its entry is of the leader's term, and else leaves everything as it is. */
  lemma CommitRule(members: set<nat>, steps: seq<Step>, run: seq<Cluster>, k: nat, v: nat, n': Node)
    requires IsRun(members, steps, run) && k < |steps| && steps[k].Advance? && steps[k].v == v
    requires v in run[k + 1].nodes && n' == run[k + 1].nodes[v]
    ensures v in run[k].nodes && CommitsUpTo(run[k].nodes[v], steps[k].majority, n')
    ensures run[k + 1].nodes == run[k].nodes[v := n'] && run[k + 1].net == run[k].net && run[k + 1].incs == run[k].incs
  {
    var m, c := steps[k].majority, run[k];
    RunInv(members, steps, run, k);
    RunStep(members, steps, run, k);
    assert NodeOk(c.members, c.hist, v, c.nodes[v]);
    StepAdvance(c, run[k + 1], v, m);
    MovesAdvance(c, run[k + 1], v, AdvanceCommit(c.nodes[v], m).node, m);
    AdvanceIs(c.nodes[v], m, n');
  }
}
