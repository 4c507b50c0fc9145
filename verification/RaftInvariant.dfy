/** The invariant of the cluster. Its centre is LogOk: at every index, every log agrees with the log of
    the leader of that entry's term, all the way down. */
module RaftInvariant {
  import opened RaftTypes
  import opened RaftCore
  import opened RaftCluster

  // ---------------------------------------------------------------- logs

  ghost predicate LogOkAt(log: seq<LogEntry>, L: TermLogs, i: nat) {
    i < |log| && log[i].term in L && log[..i + 1] <= L[log[i].term]
  }

  ghost predicate LogOk(log: seq<LogEntry>, L: TermLogs) {
    forall i: nat {:trigger LogOkAt(log, L, i)} :: i < |log| ==> LogOkAt(log, L, i)
  }

  ghost predicate TermsUpTo(log: seq<LogEntry>, term: int) {
    forall i {:trigger log[i]} :: 0 <= i < |log| ==> log[i].term <= term
  }

  ghost predicate TermLogOk(term: nat, L: TermLogs)
    requires term in L
  {
    1 <= term && L[term] != [] && LastTerm(L[term]) == term
    && LogOk(L[term], L) && TermsUpTo(L[term], term) && Indexed(L[term])
  }

  ghost predicate TermLogsOk(L: TermLogs) {
    forall t {:trigger TermLogOk(t, L)} :: t in L ==> TermLogOk(t, L)
  }

  /** A server that once held L[term][..i] still holds it, unless some later leader, of a term up to
      `upTo`, lacked it. */
  ghost predicate Retained(log: seq<LogEntry>, L: TermLogs, term: nat, i: nat, upTo: int) {
    term in L && i <= |L[term]|
    && (L[term][..i] <= log || exists t :: t in L && term < t <= upTo && !(L[term][..i] <= L[t]))
  }

  // ---------------------------------------------------------------- history

  ghost predicate IsQuorum(members: set<nat>, q: set<nat>) {
    q <= members && |q| >= Majority(|members|)
  }

  ghost predicate ElectionOk(members: set<nat>, h: History, t: nat)
    requires t in h.leaderLog
  {
    && t in h.leaderOf && t in h.electors
    && IsQuorum(members, h.electors[t])
    && (forall v :: v in h.electors[t] ==>
          Key(t, v) in h.grants && h.grants[Key(t, v)].cand == h.leaderOf[t] && !h.grants[Key(t, v)].late)
    && h.leaderOf[t] in h.electors[t]
    && Key(t, h.leaderOf[t]) in h.candLog
    && h.candLog[Key(t, h.leaderOf[t])] <= h.leaderLog[t]
  }

  ghost predicate GrantOk(members: set<nat>, h: History, k: Key)
    requires k in h.grants
  {
    var g := h.grants[k];
    && k.node in members && g.cand in members
    && LogOk(g.log, h.leaderLog)
    && Key(k.term, g.cand) in h.candLog
    && AtLeastAsUpToDate(|h.candLog[Key(k.term, g.cand)]|, LastTerm(h.candLog[Key(k.term, g.cand)]), g.log)
    && (g.late ==> k.term in h.leaderLog)
  }

  ghost predicate CandOk(members: set<nat>, h: History, k: Key)
    requires k in h.candLog
  {
    k.node in members && 1 <= k.term && LogOk(h.candLog[k], h.leaderLog) && TermsUpTo(h.candLog[k], k.term - 1)
  }

  ghost predicate AckOk(members: set<nat>, h: History, k: Key)
    requires k in h.acked
  {
    k.node in members && k.term in h.leaderLog && h.acked[k] <= |h.leaderLog[k.term]|
  }

  /** A voter of a later term stood, when it voted, with everything it had acknowledged before. */
  ghost predicate VotersRetain(h: History) {
    forall a, g, i: nat {:trigger Retained(h.grants[g].log, h.leaderLog, a.term, i, g.term - 1)} ::
      a in h.acked && g in h.grants && a.node == g.node && a.term < g.term && !h.grants[g].late && i <= h.acked[a]
      ==> Retained(h.grants[g].log, h.leaderLog, a.term, i, g.term - 1)
  }

  ghost predicate CommitOk(members: set<nat>, h: History, cm: Commit) {
    && cm.term in h.leaderLog && 1 <= cm.index <= |h.leaderLog[cm.term]|
    && h.leaderLog[cm.term][cm.index - 1].term == cm.term
    && IsQuorum(members, cm.quorum)
    && forall v :: v in cm.quorum ==> Key(cm.term, v) in h.acked && h.acked[Key(cm.term, v)] >= cm.index
  }

  ghost predicate HistoryOk(members: set<nat>, h: History) {
    && TermLogsOk(h.leaderLog)
    && h.leaderOf.Keys == h.leaderLog.Keys == h.electors.Keys
    && (forall t {:trigger ElectionOk(members, h, t)} :: t in h.leaderLog ==> ElectionOk(members, h, t))
    && (forall k {:trigger GrantOk(members, h, k)} :: k in h.grants ==> GrantOk(members, h, k))
    && (forall k {:trigger CandOk(members, h, k)} :: k in h.candLog ==> CandOk(members, h, k))
    && (forall k {:trigger AckOk(members, h, k)} :: k in h.acked ==> AckOk(members, h, k))
    && VotersRetain(h)
    && (forall cm {:trigger CommitOk(members, h, cm)} :: cm in h.commits ==> CommitOk(members, h, cm))
  }

  // ---------------------------------------------------------------- servers

  /** The first `index` entries of the log lie inside a committed prefix of some leader's log. */
  ghost predicate CommitWitness(h: History, log: seq<LogEntry>, index: nat, term: nat, cm: Commit) {
    && cm in h.commits && cm.term <= term && index <= cm.index && index <= |log|
    && cm.term in h.leaderLog && index <= |h.leaderLog[cm.term]|
    && log[..index] == h.leaderLog[cm.term][..index]
  }

  ghost predicate CommittedPrefix(h: History, log: seq<LogEntry>, index: nat, term: nat) {
    index == 0 || exists cm :: CommitWitness(h, log, index, term, cm)
  }

  ghost predicate CandidateOk(h: History, n: Node) {
    && Key(n.term, n.id) in h.candLog && h.candLog[Key(n.term, n.id)] == n.log
    && Key(n.term, n.id) in h.grants && h.grants[Key(n.term, n.id)].cand == n.id
    && (forall p :: p in n.peers && n.peers[p].haveVote ==>
          Key(n.term, p) in h.grants && h.grants[Key(n.term, p)].cand == n.id)
    && TermsUpTo(n.log, n.term - 1)
    && (n.term in h.leaderOf ==> h.leaderOf[n.term] != n.id)
  }

  ghost predicate PeerOk(h: History, n: Node, p: nat)
    requires p in n.peers
  {
    n.peers[p].matchIndex < n.peers[p].nextIndex <= |n.log| + 1
    && (n.peers[p].matchIndex == 0
        || (Key(n.term, p) in h.acked && h.acked[Key(n.term, p)] >= n.peers[p].matchIndex))
  }

  ghost predicate LeaderOk(h: History, n: Node) {
    && n.term in h.leaderLog && h.leaderLog[n.term] == n.log
    && n.term in h.leaderOf && h.leaderOf[n.term] == n.id
    && Key(n.term, n.id) in h.acked && h.acked[Key(n.term, n.id)] == |n.log|
    && forall p {:trigger PeerOk(h, n, p)} :: p in n.peers ==> PeerOk(h, n, p)
  }

  ghost predicate AcksHeld(h: History, n: Node) {
    forall k :: k in h.acked && k.node == n.id ==>
      k.term <= n.term && forall i: nat :: i <= h.acked[k] ==> Retained(n.log, h.leaderLog, k.term, i, n.term)
  }

  ghost predicate VotesKept(h: History, n: Node) {
    && (forall k :: k in h.grants && k.node == n.id ==>
          k.term <= n.term && (k.term == n.term ==> n.vote == h.grants[k].cand))
    && (forall k :: k in h.candLog && k.node == n.id ==> k.term <= n.term)
  }

  ghost predicate LeaderHintOk(h: History, n: Node) {
    n.leaderId == NOBODY || (n.term in h.leaderOf && h.leaderOf[n.term] == n.leaderId)
  }

  ghost predicate NodeOk(members: set<nat>, h: History, v: nat, n: Node) {
    && n.id == v && v in members && n.peers.Keys == members - {v}
    && LogOk(n.log, h.leaderLog) && TermsUpTo(n.log, n.term)
    && VotesKept(h, n)
    && AcksHeld(h, n)
    && (n.role.Candidate? ==> CandidateOk(h, n))
    && (n.role.Leader? ==> LeaderOk(h, n))
    && CommittedPrefix(h, n.log, n.commitIndex, n.term)
    && LeaderHintOk(h, n)
  }

  // ---------------------------------------------------------------- messages

  ghost predicate AERequestOk(members: set<nat>, h: History, from: nat, to: nat, r: AERequest) {
    && from in members && to in members && from != to && r.leaderId == from
    && r.term in h.leaderLog && r.term in h.leaderOf && h.leaderOf[r.term] == from
    && r.prevLogIndex + |r.entries| <= |h.leaderLog[r.term]|
    && r.entries == h.leaderLog[r.term][r.prevLogIndex..r.prevLogIndex + |r.entries|]
    && r.prevLogTerm == TermAt(h.leaderLog[r.term], r.prevLogIndex)
    && r.commitIndex <= r.prevLogIndex + |r.entries|
    && CommittedPrefix(h, h.leaderLog[r.term], r.commitIndex, r.term)
  }

  ghost predicate AEResponseOk(members: set<nat>, h: History, to: nat, r: AEResponse) {
    && to in members && r.id in members && r.id != to
    && r.savedTerm in h.leaderLog && r.savedTerm in h.leaderOf && h.leaderOf[r.savedTerm] == to
    && r.savedTerm <= r.term
    && (r.success ==> r.savedPrevLogIndex <= r.matchIndex
                      && Key(r.savedTerm, r.id) in h.acked && h.acked[Key(r.savedTerm, r.id)] >= r.matchIndex)
  }

  ghost predicate RVRequestOk(members: set<nat>, h: History, from: nat, to: nat, r: RVRequest) {
    && from in members && to in members && from != to && r.candidateId == from
    && Key(r.term, from) in h.candLog
    && r.lastLogIndex == |h.candLog[Key(r.term, from)]| && r.lastLogTerm == LastTerm(h.candLog[Key(r.term, from)])
  }

  ghost predicate RVResponseOk(members: set<nat>, h: History, to: nat, r: RVResponse) {
    && to in members && r.id in members && r.id != to
    && (r.voteGranted ==> Key(r.savedTerm, r.id) in h.grants && h.grants[Key(r.savedTerm, r.id)].cand == to)
  }

  ghost predicate MessageOk(members: set<nat>, h: History, m: Message) {
    match m
    case AEReq(from, _, to, r) => AERequestOk(members, h, from, to, r)
    case AEResp(to, _, r) => AEResponseOk(members, h, to, r)
    case RVReq(from, _, to, r) => RVRequestOk(members, h, from, to, r)
    case RVResp(to, _, r) => RVResponseOk(members, h, to, r)
  }

  /** The incarnation that sent AppendEntries for a term leads as long as it is in that term. */
  ghost predicate SenderLeads(n: Node, nodeInc: nat, inc: nat, term: nat) {
    inc <= nodeInc && term <= n.term && (inc == nodeInc && n.term == term ==> n.role.Leader?)
  }

  ghost predicate SenderOk(c: Cluster, m: Message) {
    match m
    case AEReq(from, inc, _, r) => IsServer(c, from) && SenderLeads(c.nodes[from], c.incs[from], inc, r.term)
    case AEResp(to, inc, r) => IsServer(c, to) && SenderLeads(c.nodes[to], c.incs[to], inc, r.savedTerm)
    case RVReq(_, _, _, _) => true
    case RVResp(_, _, _) => true
  }

  ghost predicate Inv(c: Cluster) {
    && NOBODY !in c.members && c.nodes.Keys == c.members && c.incs.Keys == c.members
    && HistoryOk(c.members, c.hist)
    && (forall v {:trigger NodeOk(c.members, c.hist, v, c.nodes[v])} :: v in c.nodes ==> NodeOk(c.members, c.hist, v, c.nodes[v]))
    && (forall m {:trigger MessageOk(c.members, c.hist, m)} :: m in c.net ==> MessageOk(c.members, c.hist, m))
    && (forall m {:trigger SenderOk(c, m)} :: m in c.net ==> SenderOk(c, m))
  }
}
