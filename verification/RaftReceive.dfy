/** What a server keeps when it handles AppendEntries and RequestVote, sent or answered. */
module RaftReceive {
  import opened RaftTypes
  import opened RaftCore
  import opened RaftCluster
  import opened RaftInvariant
  import opened RaftLogs
  import opened RaftCompleteness

  lemma AckExtends(h: History, n: Node, term: nat, index: nat)
    requires VotesKept(h, n) && n.term <= term
    ensures var h' := RecordAck(h, term, n.id, index);
            Extends(n.id, h, h') && AcksBeforeVotesFixed(h, h') && NewVotesRetain(h, h')
  {
  }

  /** The history after v acknowledged AppendEntries of its current term. */
  lemma AckHistory(members: set<nat>, h: History, h': History, v: nat, n: Node, term: nat, index: nat)
    requires HistoryOk(members, h) && n.id == v && v in members && VotesKept(h, n) && n.term <= term
    requires term in h.leaderLog && index <= |h.leaderLog[term]| && h' == RecordAck(h, term, v, index)
    ensures HistoryOk(members, h') && Extends(v, h, h')
  {
    AckExtends(h, n, term, index);
    assert Key(term, v) in h.acked ==> AckOk(members, h, Key(term, v));
    assert AckOk(members, h', Key(term, v));
    HistoryGrows(members, v, h, h');
  }

  lemma StepDownOk(members: set<nat>, h: History, v: nat, n: Node, newTerm: nat)
    requires TermLogsOk(h.leaderLog) && NodeOk(members, h, v, n)
    requires n.term < newTerm || (n.term == newTerm && n.role.Candidate?)
    ensures NodeOk(members, h, v, StepDown(n, newTerm))
  {
    RaiseTerm(members, h, v, n, StepDown(n, newTerm));
  }

  /** Dropping to follower, with the term kept or raised, keeps the invariant. */
  lemma RaiseTerm(members: set<nat>, h: History, v: nat, n: Node, n': Node)
    requires TermLogsOk(h.leaderLog) && NodeOk(members, h, v, n)
    requires n'.id == v && n'.log == n.log && n'.peers.Keys == n.peers.Keys && n'.role.Follower?
    requires n.term <= n'.term && (n.term == n'.term ==> n'.vote == n.vote)
    requires n'.commitIndex == 0 || n'.commitIndex == n.commitIndex
    requires n'.leaderId == NOBODY || (n'.term == n.term && n'.leaderId == n.leaderId)
    ensures NodeOk(members, h, v, n')
  {
    forall k, i: nat | k in h.acked && k.node == v && i <= h.acked[k]
      ensures k.term <= n'.term && Retained(n'.log, h.leaderLog, k.term, i, n'.term)
    {
      RetainedGrows(n.log, h.leaderLog, h.leaderLog, k.term, i, n.term, n'.term);
    }
    CommittedPrefixGrows(h, h, n.log, n.commitIndex, n.term, n.log, n'.term);
  }

  // ---------------------------------------------------------------- AppendEntries request

  /** Recognising the sender as leader of its term cannot fail, and leaves a follower. */
  lemma FollowLeaderOk(members: set<nat>, h: History, v: nat, n: Node, from: nat, req: AERequest)
    requires HistoryOk(members, h) && NOBODY !in members && NodeOk(members, h, v, n)
    requires AERequestOk(members, h, from, v, req) && n.term <= req.term
    ensures var f := FollowLeader(n, req);
            NodeOk(members, h, v, f) && f.role.Follower? && f.leaderId == req.leaderId && f.term == req.term
            && f.log == n.log && f.commitIndex == n.commitIndex
  {
    if n.term < req.term || n.role.Candidate? {
      StepDownOk(members, h, v, n, req.term);
    }
    assert n.role.Leader? ==> LeaderOk(h, n);
  }

  /** The entries are a slice of the log of the leader of the term. */
  ghost predicate FromLeaderLog(ll: seq<LogEntry>, req: AERequest) {
    && req.prevLogIndex + |req.entries| <= |ll|
    && req.entries == ll[req.prevLogIndex..req.prevLogIndex + |req.entries|]
    && req.prevLogTerm == TermAt(ll, req.prevLogIndex)
  }

  lemma MatchedAgrees(log: seq<LogEntry>, L: TermLogs, t: nat, req: AERequest)
    requires LogOk(log, L) && t in L && LogOk(L[t], L) && LogIsOk(log, req) && FromLeaderLog(L[t], req)
    ensures var k := MatchLen(log, req.prevLogIndex, req.entries);
            log[..req.prevLogIndex + k] == L[t][..req.prevLogIndex + k]
  {
    var prev, e := req.prevLogIndex, req.entries;
    var k := MatchLen(log, prev, e);
    if k > 0 {
      assert log[prev + (k - 1)].term == e[k - 1].term;
      assert e[k - 1] == L[t][prev + (k - 1)];
    }
    AgreeUpTo(log, L[t], L, prev + k);
  }

  /** Merging what a leader sent with an own log of the same lineage. */
  lemma MergeOk(log: seq<LogEntry>, L: TermLogs, t: nat, req: AERequest)
    requires LogOk(log, L) && t in L && LogOk(L[t], L) && LogIsOk(log, req) && FromLeaderLog(L[t], req)
    ensures var m := Merge(log, req.prevLogIndex, req.entries);
            var index := req.prevLogIndex + |req.entries|;
            L[t][..index] <= m && (m == log || m == L[t][..index])
  {
    var prev, e := req.prevLogIndex, req.entries;
    var k := MatchLen(log, prev, e);
    MatchedAgrees(log, L, t, req);
    if k < |e| {
      SliceConcat(L[t], prev, k, |e|);
    } else {
      assert L[t][..prev + |e|] == log[..prev + |e|];
    }
  }

  lemma SliceConcat(s: seq<LogEntry>, a: nat, k: nat, n: nat)
    requires k <= n && a + n <= |s|
    ensures s[..a + k] + s[a..a + n][k..] == s[..a + n]
  {
  }

  lemma EntriesContiguous(ll: seq<LogEntry>, req: AERequest)
    requires Indexed(ll) && FromLeaderLog(ll, req)
    ensures Contiguous(req.prevLogIndex, req.entries)
  {
    forall i | 0 <= i < |req.entries| ensures req.entries[i].index == req.prevLogIndex + 1 + i {
      assert req.entries[i] == ll[req.prevLogIndex + i];
    }
  }

  /** The first conflict lies beyond everything the two logs share. */
  lemma ConflictBeyondShared(log: seq<LogEntry>, ll: seq<LogEntry>, req: AERequest, i: nat)
    requires req.prevLogIndex <= |log| && FromLeaderLog(ll, req)
    requires i <= |log| && i <= |ll| && log[..i] == ll[..i]
    ensures var k := MatchLen(log, req.prevLogIndex, req.entries);
            k < |req.entries| && req.prevLogIndex + k < |log| ==> i <= req.prevLogIndex + k
  {
    forall j | 0 <= j < i ensures log[j] == ll[j] {
      assert log[..i][j] == ll[..i][j];
    }
    var k := MatchLen(log, req.prevLogIndex, req.entries);
    var c := req.prevLogIndex + k;
    if k < |req.entries| && c < |log| {
      assert req.entries[k] == ll[c];
    }
  }

  /** What the old log shares with the leader's log survives the merge and the truncation before it. */
  lemma SharedSurvives(log: seq<LogEntry>, ll: seq<LogEntry>, req: AERequest, i: nat)
    requires LogIsOk(log, req) && FromLeaderLog(ll, req)
    requires i <= |log| && i <= |ll| && log[..i] == ll[..i]
    ensures log[..i] <= Merge(log, req.prevLogIndex, req.entries)
    ensures log[..i] <= TruncatedLog(log, req)
  {
    var k := MatchLen(log, req.prevLogIndex, req.entries);
    ConflictBeyondShared(log, ll, req, i);
    if k < |req.entries| {
      assert i <= req.prevLogIndex + k;
      assert log[..i] <= log[..req.prevLogIndex + k];
    }
  }

  ghost predicate KeepsShared(log: seq<LogEntry>, ll: seq<LogEntry>, log': seq<LogEntry>) {
    forall i: nat {:trigger log[..i]} :: i <= |log| && i <= |ll| && log[..i] == ll[..i] ==> log[..i] <= log'
  }

  lemma MergeKeepsShared(log: seq<LogEntry>, ll: seq<LogEntry>, req: AERequest)
    requires LogIsOk(log, req) && FromLeaderLog(ll, req)
    ensures KeepsShared(log, ll, Merge(log, req.prevLogIndex, req.entries))
    ensures KeepsShared(log, ll, TruncatedLog(log, req))
  {
    forall i: nat {:trigger log[..i]} | i <= |log| && i <= |ll| && log[..i] == ll[..i]
      ensures log[..i] <= Merge(log, req.prevLogIndex, req.entries) && log[..i] <= TruncatedLog(log, req)
    {
      SharedSurvives(log, ll, req, i);
    }
  }

  /** A log that keeps what it shares with the leader of the current term keeps its acknowledgements. */
  lemma AcksSurvive(members: set<nat>, h: History, n: Node, n': Node, index: nat)
    requires HistoryOk(members, h) && AcksHeld(h, n) && n.term in h.leaderLog
    requires n'.id == n.id && n'.term == n.term && index <= |h.leaderLog[n.term]|
    requires KeepsShared(n.log, h.leaderLog[n.term], n'.log)
    requires h.leaderLog[n.term][..index] <= n'.log
    ensures AcksHeld(RecordAck(h, n.term, n.id, index), n')
  {
    var h' := RecordAck(h, n.term, n.id, index);
    var L := h.leaderLog;
    forall k, i: nat | k in h'.acked && k.node == n.id && i <= h'.acked[k]
      ensures k.term <= n'.term && Retained(n'.log, L, k.term, i, n'.term)
    {
      if k.term == n.term && i <= index {
        assert L[k.term][..i] <= L[k.term][..index];
      } else {
        assert Retained(n.log, L, k.term, i, n.term);
        RetainedMove(n.log, n'.log, L, k.term, i, n.term);
      }
    }
  }

  lemma RetainedMove(log: seq<LogEntry>, log': seq<LogEntry>, L: TermLogs, term: nat, i: nat, t: nat)
    requires Retained(log, L, term, i, t) && t in L && term <= t && KeepsShared(log, L[t], log')
    ensures Retained(log', L, term, i, t)
  {
    var p := L[term][..i];
    if p <= log {
      assert log[..i] == p;
      if p <= L[t] {
        assert L[t][..i] == p;
      }
    }
  }

  function TakenNode(n: Node, req: AERequest): Node
    requires n.term <= req.term && LogIsOk(n.log, req)
  {
    var f := FollowLeader(n, req);
    f.(log := Merge(n.log, req.prevLogIndex, req.entries), commitIndex := Max(f.commitIndex, req.commitIndex))
  }

  function TakenResponse(n: Node, req: AERequest): AEResponse
    requires LogIsOk(n.log, req)
  {
    AEResponse(req.term, true, n.id, req.term, req.prevLogIndex,
               |Merge(n.log, req.prevLogIndex, req.entries)|, req.prevLogIndex + |req.entries|)
  }

  /** Accepting AppendEntries fails no assertion: no gap, no committed entry truncated, the commit
      index inside the log. */
  lemma AcceptReplies(members: set<nat>, h: History, v: nat, n: Node, from: nat, req: AERequest)
    requires HistoryOk(members, h) && NOBODY !in members && NodeOk(members, h, v, n)
    requires AERequestOk(members, h, from, v, req) && n.term <= req.term && LogIsOk(n.log, req)
    ensures HandleAERequest(n, req) == AEReply(TakenNode(n, req), TakenResponse(n, req))
  {
    FollowLeaderOk(members, h, v, n, from, req);
    var L, t := h.leaderLog, req.term;
    assert TermLogOk(t, L);
    EntriesContiguous(L[t], req);
    CommittedInLeaderLog(members, h, n.log, n.commitIndex, n.term, t);
    ConflictBeyondShared(n.log, L[t], req, n.commitIndex);
    MergeOk(n.log, L, t, req);
  }

  /** A follower whose log moves towards the leader's keeps everything the invariant asks of it. */
  lemma AcceptNode(members: set<nat>, h: History, h': History, v: nat, f: Node, n': Node, index: nat)
    requires HistoryOk(members, h) && NodeOk(members, h, v, f) && f.role.Follower? && f.term in h.leaderLog
    requires index <= |h.leaderLog[f.term]| && h.leaderLog[f.term][..index] <= n'.log
    requires n' == f.(log := n'.log, commitIndex := n'.commitIndex)
    requires n'.log == f.log || n'.log == h.leaderLog[f.term][..index]
    requires KeepsShared(f.log, h.leaderLog[f.term], n'.log)
    requires CommittedPrefix(h, n'.log, n'.commitIndex, f.term) && h' == RecordAck(h, f.term, v, index)
    ensures NodeOk(members, h', v, n')
  {
    assert TermLogOk(f.term, h.leaderLog);
    AcksSurvive(members, h, f, n', index);
    AcceptedLogOk(h.leaderLog, f.term, index, f.log, n'.log);
    CommittedPrefixGrows(h, h', n'.log, n'.commitIndex, f.term, n'.log, f.term);
    assert VotesKept(h', n') && LeaderHintOk(h', n');
  }

  /** Accepting AppendEntries loses nothing acknowledged or committed. */
  lemma AcceptAE(members: set<nat>, h: History, h': History, v: nat, n: Node, n': Node, from: nat, req: AERequest)
    requires HistoryOk(members, h) && NOBODY !in members && NodeOk(members, h, v, n)
    requires AERequestOk(members, h, from, v, req) && n.term <= req.term && LogIsOk(n.log, req)
    requires h' == RecordAck(h, req.term, v, req.prevLogIndex + |req.entries|) && n' == TakenNode(n, req)
    ensures NodeOk(members, h', v, n')
  {
    FollowLeaderOk(members, h, v, n, from, req);
    var f, L, t, index := FollowLeader(n, req), h.leaderLog, req.term, req.prevLogIndex + |req.entries|;
    assert TermLogOk(t, L);
    MergeOk(n.log, L, t, req);
    MergeKeepsShared(n.log, L[t], req);
    AcceptedCommit(members, h, f, n'.log, req);
    AcceptNode(members, h, h', v, f, n', index);
  }

  lemma AcceptedLogOk(L: TermLogs, t: nat, index: nat, log: seq<LogEntry>, log': seq<LogEntry>)
    requires t in L && TermLogOk(t, L) && index <= |L[t]| && LogOk(log, L) && TermsUpTo(log, t)
    requires log' == log || log' == L[t][..index]
    ensures LogOk(log', L) && TermsUpTo(log', t)
  {
    LogOkPrefix(L[t], L, index);
  }

  lemma AcceptedCommit(members: set<nat>, h: History, f: Node, log: seq<LogEntry>, req: AERequest)
    requires HistoryOk(members, h) && CommittedPrefix(h, f.log, f.commitIndex, f.term)
    requires f.term == req.term && req.term in h.leaderLog && req.commitIndex <= req.prevLogIndex + |req.entries|
    requires req.prevLogIndex + |req.entries| <= |h.leaderLog[req.term]|
    requires CommittedPrefix(h, h.leaderLog[req.term], req.commitIndex, req.term)
    requires KeepsShared(f.log, h.leaderLog[req.term], log)
    requires h.leaderLog[req.term][..req.prevLogIndex + |req.entries|] <= log
    ensures CommittedPrefix(h, log, Max(f.commitIndex, req.commitIndex), f.term)
  {
    var ll := h.leaderLog[req.term];
    CommittedInLeaderLog(members, h, f.log, f.commitIndex, f.term, f.term);
    if req.commitIndex <= f.commitIndex {
      assert f.log[..f.commitIndex] <= log;
      CommittedPrefixGrows(h, h, f.log, f.commitIndex, f.term, log, f.term);
    } else {
      assert log[..req.commitIndex] == ll[..req.commitIndex];
      CommittedPrefixGrows(h, h, ll, req.commitIndex, f.term, log, f.term);
    }
  }

  // ---------------------------------------------------------------- AppendEntries response

  /** The send switch is nobody else's business. */
  lemma SwitchKeeps(members: set<nat>, h: History, v: nat, n: Node, n': Node, p: nat)
    requires NodeOk(members, h, v, n) && p in n.peers && p in n'.peers
    requires n' == n.(peers := n.peers[p := n.peers[p].(armed := n'.peers[p].armed,
                                                        suppressBulkData := n'.peers[p].suppressBulkData)])
    ensures NodeOk(members, h, v, n')
  {
    if n.role.Leader? {
      forall q | q in n'.peers ensures PeerOk(h, n', q) {
        assert PeerOk(h, n, q);
      }
    }
  }

  lemma AEResponseKeeps(members: set<nat>, h: History, v: nat, n: Node, resp: AEResponse, maxDecrStep: nat)
    requires HistoryOk(members, h) && NodeOk(members, h, v, n) && AEResponseOk(members, h, v, resp)
    requires HandleAEResponse(n, resp, maxDecrStep).Now?
    ensures NodeOk(members, h, v, HandleAEResponse(n, resp, maxDecrStep).node)
  {
    var n' := HandleAEResponse(n, resp, maxDecrStep).node;
    if n.term == resp.savedTerm && resp.term > n.term {
      StepDownOk(members, h, v, n, resp.term);
    } else if n' != n {
      assert LeaderOk(h, n);
      forall p | p in n'.peers ensures PeerOk(h, n', p) {
        assert PeerOk(h, n, p) && PeerOk(h, n, resp.id);
        assert Key(n.term, resp.id) in h.acked ==> AckOk(members, h, Key(n.term, resp.id));
      }
    }
  }

  // ---------------------------------------------------------------- RequestVote

  lemma NewGrantRetains(h: History, h': History, n: Node, term: nat, cand: nat)
    requires AcksHeld(h, n) && n.term <= term
    requires h'.grants == RecordGrant(h, term, n.id, cand, n.log).grants
    requires h'.acked == h.acked && h'.leaderLog == h.leaderLog
    ensures NewVotesRetain(h, h')
  {
    forall a, g, i: nat {:trigger Retained(h'.grants[g].log, h'.leaderLog, a.term, i, g.term - 1)}
      | a in h'.acked && g in h'.grants && g !in h.grants && a.node == g.node && a.term < g.term
        && !h'.grants[g].late && i <= h'.acked[a]
      ensures Retained(h'.grants[g].log, h'.leaderLog, a.term, i, g.term - 1)
    {
      assert Retained(n.log, h.leaderLog, a.term, i, n.term);
    }
  }

  lemma GrantExtends(h: History, h': History, term: nat, v: nat, cand: nat, log: seq<LogEntry>)
    requires h' == RecordGrant(h, term, v, cand, log)
    ensures VotesGrow(v, h, h') && AcksBeforeVotesFixed(h, h')
    ensures h'.leaderLog == h.leaderLog && h'.acked == h.acked && h'.candLog == h.candLog
  {
  }

  /** A vote is given with everything acknowledged in earlier terms still in the log. */
  lemma GrantHistory(members: set<nat>, h: History, h': History, v: nat, n: Node, term: nat, cand: nat)
    requires HistoryOk(members, h) && n.id == v && v in members && n.term <= term && cand in members
    requires AcksHeld(h, n) && LogOk(n.log, h.leaderLog)
    requires Key(term, cand) in h.candLog
    requires var cl := h.candLog[Key(term, cand)]; AtLeastAsUpToDate(|cl|, LastTerm(cl), n.log)
    requires h' == RecordGrant(h, term, v, cand, n.log)
    ensures HistoryOk(members, h') && Extends(v, h, h')
  {
    NewGrantRetains(h, h', n, term, cand);
    GrantExtends(h, h', term, v, cand, n.log);
    if Key(term, v) !in h.grants {
      assert GrantOk(members, h', Key(term, v));
    }
    HistoryGrows(members, v, h, h');
  }

  /** One vote a term: a second grant can only repeat the first. */
  lemma GrantKeeps(members: set<nat>, h: History, h': History, v: nat, n: Node, n': Node, cand: nat)
    requires HistoryOk(members, h) && NOBODY !in members && NodeOk(members, h, v, n) && cand in members
    requires (n.vote == NOBODY || n.vote == cand) && n' == n.(vote := cand)
    requires h' == RecordGrant(h, n.term, v, cand, n.log)
    ensures NodeOk(members, h', v, n')
    ensures Key(n.term, v) in h'.grants && h'.grants[Key(n.term, v)].cand == cand
  {
    assert Key(n.term, v) in h.grants ==> GrantOk(members, h, Key(n.term, v));
    assert VotesKept(h', n') && AcksHeld(h', n');
    CommittedPrefixGrows(h, h', n.log, n.commitIndex, n.term, n.log, n.term);
    if n.role.Leader? {
      forall p | p in n'.peers ensures PeerOk(h', n', p) {
        assert PeerOk(h, n, p);
      }
    }
  }

  function TermRaised(n: Node, term: nat): Node {
    if term > n.term then StepDown(n, term) else n
  }

  /** What the answer to a vote request says about the voter. */
  lemma VoteShape(n: Node, n': Node, req: RVRequest, resp: RVResponse)
    requires (n', resp) == HandleRVRequest(n, req)
    ensures resp.id == n.id && resp.savedTerm == req.term
    ensures !resp.voteGranted ==> n' == TermRaised(n, req.term)
    ensures resp.voteGranted ==>
              && n.term <= req.term && TermRaised(n, req.term).term == req.term
              && TermRaised(n, req.term).log == n.log && AtLeastAsUpToDate(req.lastLogIndex, req.lastLogTerm, n.log)
              && (TermRaised(n, req.term).vote == NOBODY || TermRaised(n, req.term).vote == req.candidateId)
              && n' == TermRaised(n, req.term).(vote := req.candidateId)
  {
  }

  lemma TermRaisedOk(members: set<nat>, h: History, v: nat, n: Node, n1: Node, term: nat)
    requires HistoryOk(members, h) && NodeOk(members, h, v, n) && n1 == TermRaised(n, term)
    ensures NodeOk(members, h, v, n1)
  {
    if term > n.term {
      StepDownOk(members, h, v, n, term);
    }
  }

  lemma VoteRefused(members: set<nat>, h: History, v: nat, n: Node, n': Node, from: nat, req: RVRequest, resp: RVResponse)
    requires HistoryOk(members, h) && NodeOk(members, h, v, n)
    requires RVRequestOk(members, h, from, v, req) && (n', resp) == HandleRVRequest(n, req) && !resp.voteGranted
    ensures NodeOk(members, h, v, n') && RVResponseOk(members, h, from, resp)
  {
    VoteShape(n, n', req, resp);
    TermRaisedOk(members, h, v, n, n', req.term);
  }

  lemma VoteGiven(members: set<nat>, h: History, h': History, v: nat, n: Node, n': Node,
                  from: nat, req: RVRequest, resp: RVResponse)
    requires HistoryOk(members, h) && NOBODY !in members && NodeOk(members, h, v, n)
    requires RVRequestOk(members, h, from, v, req) && (n', resp) == HandleRVRequest(n, req) && resp.voteGranted
    requires h' == RecordGrant(h, req.term, v, from, n.log)
    ensures HistoryOk(members, h') && Extends(v, h, h')
    ensures NodeOk(members, h', v, n') && RVResponseOk(members, h', from, resp)
  {
    VoteShape(n, n', req, resp);
    var n1 := TermRaised(n, req.term);
    TermRaisedOk(members, h, v, n, n1, req.term);
    GrantHistory(members, h, h', v, n, req.term, from);
    GrantKeeps(members, h, h', v, n1, n', from);
  }

  lemma RVResponseKeeps(members: set<nat>, h: History, v: nat, n: Node, resp: RVResponse)
    requires HistoryOk(members, h) && NodeOk(members, h, v, n) && RVResponseOk(members, h, v, resp)
    ensures NodeOk(members, h, v, HandleRVResponse(n, resp))
  {
    if n.term == resp.savedTerm && n.role.Candidate? && resp.term > n.term {
      StepDownOk(members, h, v, n, resp.term);
    }
  }
}
