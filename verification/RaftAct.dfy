/** What a server keeps when it acts on its own: elections, leadership, client requests, commit, crash. */
module RaftAct {
  import opened RaftTypes
  import opened RaftCore
  import opened RaftCluster
  import opened RaftInvariant
  import opened RaftLogs
  import opened RaftReceive

  // ---------------------------------------------------------------- the leader's log

  lemma IndexedLog(log: seq<LogEntry>, L: TermLogs)
    requires LogOk(log, L) && TermLogsOk(L)
    ensures Indexed(log)
  {
    LastTermBounds(log, L);
    if log != [] {
      assert TermLogOk(LastTerm(log), L);
    }
  }

  /** Replacing one leader's log by an extension of it (or adding a new leader's) keeps all logs sound. */
  lemma ExtendTermLog(L: TermLogs, t: nat, log: seq<LogEntry>, more: seq<LogEntry>)
    requires TermLogsOk(L) && LogOk(log, L) && 1 <= t && TermsUpTo(log, t)
    requires t in L ==> L[t] == log
    requires forall i :: 0 <= i < |more| ==> more[i].term == t && more[i].index == |log| + 1 + i
    requires t in L || more != []
    ensures TermLogsOk(L[t := log + more]) && Grows(L, L[t := log + more]) && LogOk(log + more, L[t := log + more])
  {
    var log' := log + more;
    var L' := L[t := log'];
    assert Grows(L, L');
    assert t in L ==> TermLogOk(t, L);
    ExtendedLogOk(L, L', t, log, more);
    IndexedLog(log, L);
    assert TermLogOk(t, L');
    forall t' | t' in L' ensures TermLogOk(t', L') {
      if t' != t {
        assert TermLogOk(t', L);
        LogOkGrows(L[t'], L, L');
      }
    }
  }

  lemma ExtendedLogOk(L: TermLogs, L': TermLogs, t: nat, log: seq<LogEntry>, more: seq<LogEntry>)
    requires LogOk(log, L) && Grows(L, L') && t in L' && L'[t] == log + more
    requires forall i :: 0 <= i < |more| ==> more[i].term == t
    ensures LogOk(log + more, L')
  {
    LogOkGrows(log, L, L');
    forall i: nat | i < |log + more| ensures LogOkAt(log + more, L', i) {
      if i < |log| {
        assert LogOkAt(log, L', i);
        assert (log + more)[..i + 1] == log[..i + 1];
      } else {
        assert (log + more)[i] == more[i - |log|];
      }
    }
  }

  lemma RetainedLonger(log: seq<LogEntry>, log': seq<LogEntry>, L: TermLogs, L': TermLogs, term: nat, i: nat, upTo: int)
    requires Retained(log, L, term, i, upTo) && TermLogsOk(L) && Grows(L, L') && log <= log'
    ensures Retained(log', L', term, i, upTo)
  {
    RetainedGrows(log, L, L', term, i, upTo, upTo);
    if L'[term][..i] <= log {
      PrefixTrans(L'[term][..i], log, log');
    }
  }

  /** A leader that appends credits itself with its whole log, and keeps older acknowledgements. */
  lemma AppendKeepsAcks(h: History, n: Node, n': Node)
    requires TermLogsOk(h.leaderLog) && AcksHeld(h, n) && n'.id == n.id && n'.term == n.term && n.log <= n'.log
    requires n.term in h.leaderLog ==> h.leaderLog[n.term] == n.log
    requires AckedBy(h, n.term, n.id) <= |n.log|
    ensures AcksHeld(RecordLeaderLog(h, n'), n')
  {
    var h' := RecordLeaderLog(h, n');
    forall k, i: nat | k in h'.acked && k.node == n.id && i <= h'.acked[k]
      ensures k.term <= n'.term && Retained(n'.log, h'.leaderLog, k.term, i, n'.term)
    {
      if k.term != n.term {
        assert Retained(n.log, h.leaderLog, k.term, i, n.term);
        RetainedLonger(n.log, n'.log, h.leaderLog, h'.leaderLog, k.term, i, n.term);
      }
    }
  }

  // ---------------------------------------------------------------- client requests

  lemma ClientExtends(h: History, n: Node, n': Node)
    requires h.leaderOf.Keys == h.leaderLog.Keys == h.electors.Keys && VotesKept(h, n)
    requires n.term in h.leaderLog && h.leaderLog[n.term] == n.log && h.leaderOf[n.term] == n.id
    requires n'.term == n.term && n'.id == n.id && n.log <= n'.log
    ensures var h' := RecordLeaderLog(h, n');
            Extends(n.id, h, h') && h'.leaderOf.Keys == h'.leaderLog.Keys == h'.electors.Keys
            && AcksBeforeVotesFixed(h, h') && NewVotesRetain(h, h')
  {
  }

  lemma ClientHistory(members: set<nat>, h: History, h': History, v: nat, n: Node, n': Node, more: seq<LogEntry>)
    requires HistoryOk(members, h) && NodeOk(members, h, v, n) && n.role.Leader?
    requires forall i :: 0 <= i < |more| ==> more[i].term == n.term && more[i].index == |n.log| + 1 + i
    requires n' == n.(log := n.log + more) && h' == RecordLeaderLog(h, n')
    ensures HistoryOk(members, h') && Extends(v, h, h') && LogOk(n'.log, h'.leaderLog)
  {
    assert TermLogOk(n.term, h.leaderLog);
    ExtendTermLog(h.leaderLog, n.term, n.log, more);
    ClientExtends(h, n, n');
    assert AckOk(members, h', Key(n.term, v));
    HistoryGrows(members, v, h, h');
  }

  lemma ClientNode(members: set<nat>, h: History, h': History, v: nat, n: Node, n': Node)
    requires TermLogsOk(h.leaderLog) && NodeOk(members, h, v, n) && n.role.Leader?
    requires n.log <= n'.log && n' == n.(log := n'.log) && h' == RecordLeaderLog(h, n')
    requires LogOk(n'.log, h'.leaderLog) && TermsUpTo(n'.log, n.term)
    ensures NodeOk(members, h', v, n')
  {
    AppendKeepsAcks(h, n, n');
    assert VotesKept(h', n');
    forall p | p in n'.peers ensures PeerOk(h', n', p) {
      assert PeerOk(h, n, p);
    }
    assert LeaderOk(h', n');
    CommittedPrefixLonger(h, h', n.log, n.commitIndex, n.term, n'.log);
  }

  lemma ClientKeeps(members: set<nat>, h: History, h': History, v: nat, n: Node, n': Node, requests: seq<LogEntry>)
    requires HistoryOk(members, h) && NodeOk(members, h, v, n) && n.role.Leader?
    requires n' == HandleClientRequests(n, requests) && h' == RecordLeaderLog(h, n')
    ensures HistoryOk(members, h') && Extends(v, h, h') && NodeOk(members, h', v, n')
  {
    ClientHistory(members, h, h', v, n, n', Accepted(requests, n.term, |n.log|));
    ClientNode(members, h, h', v, n, n');
  }

  // ---------------------------------------------------------------- becoming leader

  /** A majority that voted for a candidate shares a voter with the electors of the term's leader. */
  lemma SharedElector(members: set<nat>, h: History, t: nat, q: set<nat>, cand: nat)
    requires t in h.leaderLog && ElectionOk(members, h, t) && IsQuorum(members, q)
    requires forall x :: x in q ==> Key(t, x) in h.grants && h.grants[Key(t, x)].cand == cand
    ensures h.leaderOf[t] == cand
  {
    var x := QuorumsMeet(members, h.electors[t], q);
    assert h.grants[Key(t, x)].cand == cand;
  }

  lemma VotersVoted(members: set<nat>, h: History, v: nat, n: Node)
    requires NodeOk(members, h, v, n) && n.role.Candidate?
    requires |Voters(n)| >= Majority(|n.peers| + 1)
    ensures IsQuorum(members, Voters(n))
    ensures forall x :: x in Voters(n) ==> Key(n.term, x) in h.grants && h.grants[Key(n.term, x)].cand == v
  {
    assert members == n.peers.Keys + {v};
    assert |members| == |n.peers.Keys| + 1;
  }

  /** Election safety: nobody else can have been elected in the candidate's term. */
  lemma NoOtherLeader(members: set<nat>, h: History, v: nat, n: Node)
    requires HistoryOk(members, h) && NodeOk(members, h, v, n) && n.role.Candidate?
    requires |Voters(n)| >= Majority(|n.peers| + 1)
    ensures n.term !in h.leaderLog
  {
    VotersVoted(members, h, v, n);
    if n.term in h.leaderLog {
      assert ElectionOk(members, h, n.term);
      SharedElector(members, h, n.term, Voters(n), v);
    }
  }

  lemma NewElectionOk(members: set<nat>, h: History, v: nat, n: Node, n': Node)
    requires HistoryOk(members, h) && NodeOk(members, h, v, n) && n.role.Candidate?
    requires |Voters(n)| >= Majority(|n.peers| + 1) && n.term !in h.leaderLog
    requires n'.term == n.term && n'.id == v && n.log <= n'.log
    ensures ElectionOk(members, RecordLeader(h, n', Voters(n)), n.term)
  {
    VotersVoted(members, h, v, n);
    forall x | x in Voters(n) ensures !h.grants[Key(n.term, x)].late {
      assert GrantOk(members, h, Key(n.term, x));
    }
  }

  lemma LeadExtends(h: History, v: nat, n: Node, n': Node, voters: set<nat>)
    requires h.leaderOf.Keys == h.leaderLog.Keys == h.electors.Keys && n.term !in h.leaderLog && VotesKept(h, n)
    requires n.id == v && n'.term == n.term && n'.id == v && Key(n.term, v) !in h.acked
    ensures var h' := RecordLeader(h, n', voters);
            Extends(v, h, h') && h'.leaderOf.Keys == h'.leaderLog.Keys == h'.electors.Keys
            && AcksBeforeVotesFixed(h, h') && NewVotesRetain(h, h')
  {
  }

  lemma LeadHistory(members: set<nat>, h: History, h': History, v: nat, n: Node, n': Node)
    requires HistoryOk(members, h) && NodeOk(members, h, v, n) && n.role.Candidate?
    requires |Voters(n)| >= Majority(|n.peers| + 1) && n.term !in h.leaderLog
    requires n'.term == n.term && n'.id == v && n'.log == n.log + [Noop(n)]
    requires h' == RecordLeader(h, n', Voters(n))
    ensures HistoryOk(members, h') && Extends(v, h, h') && LogOk(n'.log, h'.leaderLog)
  {
    assert CandOk(members, h, Key(n.term, v));
    ExtendTermLog(h.leaderLog, n.term, n.log, [Noop(n)]);
    assert Key(n.term, v) in h.acked ==> AckOk(members, h, Key(n.term, v));
    LeadExtends(h, v, n, n', Voters(n));
    assert AckOk(members, h', Key(n.term, v));
    NewElectionOk(members, h, v, n, n');
    HistoryGrows(members, v, h, h');
  }

  lemma NewLeaderOk(h: History, h': History, n: Node, n': Node, voters: set<nat>)
    requires n.role.Candidate? && n' == BecomeLeader(n) && n'.role.Leader?
    requires AckedBy(h, n.term, n.id) == 0 && h' == RecordLeader(h, n', voters)
    ensures LeaderOk(h', n')
  {
    forall p | p in n'.peers ensures PeerOk(h', n', p) {
    }
  }

  lemma LeadNode(members: set<nat>, h: History, h': History, v: nat, n: Node, n': Node, voters: set<nat>)
    requires TermLogsOk(h.leaderLog) && NodeOk(members, h, v, n) && n.role.Candidate?
    requires n' == BecomeLeader(n) && n'.role.Leader? && n.term !in h.leaderOf && n.term !in h.leaderLog
    requires AckedBy(h, n.term, v) == 0 && h' == RecordLeader(h, n', voters)
    requires LogOk(n'.log, h'.leaderLog) && Extends(v, h, h')
    ensures NodeOk(members, h', v, n')
  {
    LeadShape(n, n');
    LeadKeepsAcks(h, h', n, n', voters);
    NewLeaderOk(h, h', n, n', voters);
    CommittedPrefixLonger(h, h', n.log, n.commitIndex, n.term, n'.log);
    LeadHint(h, h', n, n', voters);
  }

  lemma LeadShape(n: Node, n': Node)
    requires TermsUpTo(n.log, n.term) && n' == BecomeLeader(n)
    ensures n.log <= n'.log && TermsUpTo(n'.log, n'.term) && n'.peers.Keys == n.peers.Keys
    ensures n'.id == n.id && n'.term == n.term && n'.vote == n.vote && n'.commitIndex == n.commitIndex
    ensures n'.leaderId == n.leaderId
  {
  }

  lemma LeadHint(h: History, h': History, n: Node, n': Node, voters: set<nat>)
    requires VotesKept(h, n) && LeaderHintOk(h, n) && n.term !in h.leaderOf && n' == BecomeLeader(n)
    requires h' == RecordLeader(h, n', voters)
    ensures VotesKept(h', n') && LeaderHintOk(h', n')
  {
  }

  lemma LeadKeepsAcks(h: History, h': History, n: Node, n': Node, voters: set<nat>)
    requires TermLogsOk(h.leaderLog) && AcksHeld(h, n) && n'.id == n.id && n'.term == n.term && n.log <= n'.log
    requires n.term !in h.leaderLog && AckedBy(h, n.term, n.id) == 0 && h' == RecordLeader(h, n', voters)
    ensures AcksHeld(h', n')
  {
    AppendKeepsAcks(h, n, n');
    assert h'.acked == RecordLeaderLog(h, n').acked && h'.leaderLog == RecordLeaderLog(h, n').leaderLog;
  }

  lemma LeadKeeps(members: set<nat>, h: History, h': History, v: nat, n: Node, n': Node)
    requires HistoryOk(members, h) && NodeOk(members, h, v, n)
    requires n.role.Candidate? && |Voters(n)| >= Majority(|n.peers| + 1)
    requires n' == BecomeLeader(n) && h' == RecordLeader(h, n', Voters(n))
    ensures HistoryOk(members, h') && Extends(v, h, h') && NodeOk(members, h', v, n')
  {
    NoOtherLeader(members, h, v, n);
    LeadHistory(members, h, h', v, n, n');
    assert Key(n.term, v) in h.acked ==> AckOk(members, h, Key(n.term, v));
    LeadNode(members, h, h', v, n, n', Voters(n));
  }

  // ---------------------------------------------------------------- standing for election

  function ElectHistory(h: History, v: nat, n: Node): History {
    var g := RecordGrant(h, n.term + 1, v, v, n.log);
    g.(candLog := g.candLog[Key(n.term + 1, v) := n.log])
  }

  lemma ElectVotesGrow(h: History, h': History, v: nat, n: Node)
    requires Key(n.term + 1, v) !in h.candLog && h' == ElectHistory(h, v, n)
    ensures VotesGrow(v, h, h')
  {
  }

  lemma ElectExtends(h: History, h': History, v: nat, n: Node)
    requires Key(n.term + 1, v) !in h.candLog && h' == ElectHistory(h, v, n)
    ensures Extends(v, h, h') && AcksBeforeVotesFixed(h, h')
    ensures h'.grants == RecordGrant(h, n.term + 1, v, v, n.log).grants
    ensures h'.acked == h.acked && h'.leaderLog == h.leaderLog && h'.commits == h.commits
  {
    ElectVotesGrow(h, h', v, n);
  }

  lemma ElectHistoryOk(members: set<nat>, h: History, h': History, v: nat, n: Node)
    requires HistoryOk(members, h) && n.id == v && v in members && h' == ElectHistory(h, v, n)
    requires AcksHeld(h, n) && VotesKept(h, n) && LogOk(n.log, h.leaderLog) && TermsUpTo(n.log, n.term)
    ensures HistoryOk(members, h') && Extends(v, h, h')
  {
    var k := Key(n.term + 1, v);
    assert k !in h.grants && k !in h.candLog;
    ElectExtends(h, h', v, n);
    NewGrantRetains(h, h', n, n.term + 1, v);
    assert GrantOk(members, h', k) && CandOk(members, h', k);
    HistoryGrows(members, v, h, h');
  }

  lemma ElectNode(members: set<nat>, h: History, h': History, v: nat, n: Node, n': Node)
    requires TermLogsOk(h.leaderLog) && NodeOk(members, h, v, n) && !n.role.Leader?
    requires h' == ElectHistory(h, v, n) && n' == ElectionTimeout(n)
    requires n'.term in h.leaderOf ==> h.leaderOf[n'.term] != v
    ensures NodeOk(members, h', v, n')
  {
    assert Key(n'.term, v) !in h.grants;
    assert CandidateOk(h', n') && VotesKept(h', n');
    forall k, i: nat | k in h'.acked && k.node == v && i <= h'.acked[k]
      ensures k.term <= n'.term && Retained(n'.log, h'.leaderLog, k.term, i, n'.term)
    {
      RetainedGrows(n.log, h.leaderLog, h.leaderLog, k.term, i, n.term, n'.term);
    }
    CommittedPrefixGrows(h, h', n.log, n.commitIndex, n.term, n'.log, n'.term);
  }

  lemma ElectKeeps(members: set<nat>, h: History, h': History, v: nat, n: Node, n': Node)
    requires HistoryOk(members, h) && NodeOk(members, h, v, n) && !n.role.Leader?
    requires h' == ElectHistory(h, v, n) && n' == ElectionTimeout(n)
    ensures HistoryOk(members, h') && Extends(v, h, h') && NodeOk(members, h', v, n')
  {
    ElectHistoryOk(members, h, h', v, n);
    if n'.term in h.leaderLog {
      assert ElectionOk(members, h, n'.term);
    }
    ElectNode(members, h, h', v, n, n');
  }

  // ---------------------------------------------------------------- commit

  lemma CommitHistory(members: set<nat>, h: History, h': History, v: nat, cm: Commit)
    requires HistoryOk(members, h) && CommitOk(members, h, cm) && h' == h.(commits := h.commits + {cm})
    ensures HistoryOk(members, h') && Extends(v, h, h') && Untouched(v, h, h')
  {
    assert CommitOk(members, h', cm);
    HistoryGrows(members, v, h, h');
  }

  lemma AdvanceKeeps(members: set<nat>, h: History, h': History, v: nat, n: Node, n': Node, m: nat)
    requires HistoryOk(members, h) && NodeOk(members, h, v, n) && n.role.Leader? && IsMajorityIndex(n, m)
    requires n.commitIndex < m <= |n.log| && TermAt(n.log, m) == n.term
    requires h' == h.(commits := h.commits + {Commit(n.term, m, Holding(n, m))}) && n' == n.(commitIndex := m)
    ensures HistoryOk(members, h') && Extends(v, h, h') && NodeOk(members, h', v, n')
  {
    var cm := Commit(n.term, m, Holding(n, m));
    NewCommitOk(members, h, v, n, m);
    CommitHistory(members, h, h', v, cm);
    NodeFrame(members, v, h, h', v, n);
    assert CommitWitness(h', n.log, m, n.term, cm);
    Recommit(members, h', v, n, n');
  }

  lemma Recommit(members: set<nat>, h: History, v: nat, n: Node, n': Node)
    requires NodeOk(members, h, v, n) && n' == n.(commitIndex := n'.commitIndex)
    requires CommittedPrefix(h, n.log, n'.commitIndex, n.term)
    ensures NodeOk(members, h, v, n')
  {
    if n.role.Leader? {
      forall p | p in n'.peers ensures PeerOk(h, n', p) {
        assert PeerOk(h, n, p);
      }
    }
  }

  lemma MajorityInLog(h: History, n: Node, m: nat)
    requires LeaderOk(h, n) && IsMajorityIndex(n, m)
    ensures m <= |n.log|
  {
    var v :| v in Holding(n, m);
    assert v != n.id ==> PeerOk(h, n, v);
  }

  lemma NewCommitOk(members: set<nat>, h: History, v: nat, n: Node, m: nat)
    requires NodeOk(members, h, v, n) && n.role.Leader? && IsMajorityIndex(n, m)
    requires 1 <= m <= |n.log| && TermAt(n.log, m) == n.term
    ensures CommitOk(members, h, Commit(n.term, m, Holding(n, m)))
  {
    assert Servers(n) == members;
    forall u | u in Holding(n, m) ensures Key(n.term, u) in h.acked && h.acked[Key(n.term, u)] >= m {
      assert u != n.id ==> PeerOk(h, n, u);
    }
  }

  // ---------------------------------------------------------------- crash

  lemma CrashKeeps(members: set<nat>, h: History, v: nat, n: Node, n': Node, newTerm: nat, vote: nat)
    requires HistoryOk(members, h) && NodeOk(members, h, v, n) && n' == n.(term := newTerm, vote := vote)
    requires n.term <= newTerm && (n.term == newTerm ==> vote == n.vote)
    ensures NodeOk(members, h, v, Restart(n'))
  {
    RaiseTerm(members, h, v, n, Restart(n'));
  }

  /** A crash between the truncation and the append leaves a shorter log, but not one that lost
      anything acknowledged. */
  lemma TruncateCrashKeeps(members: set<nat>, h: History, v: nat, n: Node, from: nat, req: AERequest)
    requires HistoryOk(members, h) && NOBODY !in members && NodeOk(members, h, v, n)
    requires AERequestOk(members, h, from, v, req) && n.term <= req.term && LogIsOk(n.log, req)
    ensures NodeOk(members, h, v, Restart(FollowLeader(n, req).(log := TruncatedLog(n.log, req))))
  {
    FollowLeaderOk(members, h, v, n, from, req);
    var f, L, t := FollowLeader(n, req), h.leaderLog, req.term;
    var n' := Restart(f.(log := TruncatedLog(n.log, req)));
    MergeKeepsShared(n.log, L[t], req);
    assert n'.log == n.log[..|n'.log|];
    LogOkPrefix(n.log, L, |n'.log|);
    forall k, i: nat | k in h.acked && k.node == v && i <= h.acked[k]
      ensures k.term <= n'.term && Retained(n'.log, L, k.term, i, n'.term)
    {
      assert Retained(f.log, L, k.term, i, f.term);
      RetainedMove(f.log, n'.log, L, k.term, i, t);
    }
  }
}
