/** N servers, a network that loses, reorders and duplicates, and crashes with restart.
    History records what has happened so far; no step of the protocol reads it. */
module RaftCluster {
  import opened RaftTypes
  import opened RaftCore

  /** `inc` names the process incarnation that sent the request: a response reaches only that one. */
  datatype Message =
    | AEReq(from: nat, inc: nat, to: nat, aeReq: AERequest)
    | AEResp(to: nat, inc: nat, aeResp: AEResponse)
    | RVReq(from: nat, inc: nat, to: nat, rvReq: RVRequest)
    | RVResp(to: nat, inc: nat, rvResp: RVResponse)

  datatype Key = Key(term: nat, node: nat)

  /** A vote: for whom, the voter's log at that moment, and whether the term already had a leader. */
  datatype Grant = Grant(cand: nat, log: seq<LogEntry>, late: bool)

  /** A leader of `term` found the entry at `index` on every server of `quorum`. */
  datatype Commit = Commit(term: nat, index: nat, quorum: set<nat>)

  type TermLogs = map<nat, seq<LogEntry>>

  datatype History = History(
    leaderLog: TermLogs,               // per term, the log of that term's leader while it led
    leaderOf: map<nat, nat>,           // per term, its leader
    electors: map<nat, set<nat>>,      // per term, the voters that elected the leader
    grants: map<Key, Grant>,           // per term and voter, the vote
    candLog: map<Key, seq<LogEntry>>,  // per term and candidate, the log it stood with
    acked: map<Key, nat>,              // per term and server, the largest index it acknowledged
    commits: set<Commit>)

  datatype Cluster = Cluster(
    members: set<nat>, nodes: map<nat, Node>, incs: map<nat, nat>, net: set<Message>, hist: History)

  datatype Step =
    | SendAE(v: nat, to: nat, count: nat)
    | SendRV(v: nat, to: nat)
    | Deliver(m: Message, maxDecrStep: nat)
    | FailAE(v: nat, to: nat)   // a call for AppendEntries, or for a vote, fails
    | FailRV(v: nat, to: nat)
    | Client(v: nat, requests: seq<LogEntry>)
    | Advance(v: nat, majority: nat)
    | Lead(v: nat)
    | Elect(v: nat)
    | LoseAuthority(v: nat)
    | Crash(v: nat)
    | CrashInTermWrite(v: nat, newTerm: nat, voteCleared: bool)
    | CrashInTruncate(m: Message)

  // ---------------------------------------------------------------- history records

  function RecordGrant(h: History, term: nat, voter: nat, cand: nat, log: seq<LogEntry>): History {
    if Key(term, voter) in h.grants then h
    else h.(grants := h.grants[Key(term, voter) := Grant(cand, log, term in h.leaderLog)])
  }

  function AckedBy(h: History, term: nat, v: nat): nat {
    if Key(term, v) in h.acked then h.acked[Key(term, v)] else 0
  }

  function RecordAck(h: History, term: nat, v: nat, index: nat): History {
    h.(acked := h.acked[Key(term, v) := Max(AckedBy(h, term, v), index)])
  }

  function RecordLeaderLog(h: History, n: Node): History {
    RecordAck(h.(leaderLog := h.leaderLog[n.term := n.log]), n.term, n.id, |n.log|)
  }

  function RecordLeader(h: History, n: Node, voters: set<nat>): History {
    RecordLeaderLog(h.(leaderOf := h.leaderOf[n.term := n.id], electors := h.electors[n.term := voters]), n)
  }

  // ---------------------------------------------------------------- steps

  function Put(c: Cluster, v: nat, n: Node): Cluster {
    c.(nodes := c.nodes[v := n])
  }

  function Send(c: Cluster, m: Message): Cluster {
    c.(net := c.net + {m})
  }

  function CrashWith(c: Cluster, v: nat, n: Node): Cluster
    requires v in c.incs
  {
    Put(c, v, Restart(n)).(incs := c.incs[v := c.incs[v] + 1])
  }

  predicate IsServer(c: Cluster, v: nat) {
    v in c.nodes && v in c.incs
  }

  predicate Deliverable(c: Cluster, m: Message) {
    && m in c.net
    && IsServer(c, m.to)
    && match m
       case AEReq(_, _, _, _) => true
       case RVReq(_, _, _, _) => true
       case AEResp(to, inc, resp) => inc == c.incs[to] && resp.id in c.nodes[to].peers
       case RVResp(to, inc, resp) => inc == c.incs[to] && resp.id in c.nodes[to].peers
  }

  /** The log between the truncation of conflicting entries and the append of the new ones. */
  function TruncatedLog(log: seq<LogEntry>, req: AERequest): seq<LogEntry>
    requires LogIsOk(log, req)
  {
    var k := MatchLen(log, req.prevLogIndex, req.entries);
    if k == |req.entries| then log else log[..req.prevLogIndex + k]
  }

  predicate Enabled(c: Cluster, s: Step) {
    match s
    case SendAE(v, to, count) =>
      && IsServer(c, v) && c.nodes[v].role.Leader? && to in c.nodes[v].peers
      && c.nodes[v].peers[to].armed && (c.nodes[v].peers[to].suppressBulkData ==> count == 0)
      && 1 <= c.nodes[v].peers[to].nextIndex && c.nodes[v].peers[to].nextIndex - 1 + count <= |c.nodes[v].log|
    case SendRV(v, to) =>
      && IsServer(c, v) && c.nodes[v].role.Candidate? && to in c.nodes[v].peers
      && c.nodes[v].peers[to].armed && !c.nodes[v].peers[to].requestVoteDone
    case FailAE(v, to) => IsServer(c, v) && to in c.nodes[v].peers
    case FailRV(v, to) => IsServer(c, v) && to in c.nodes[v].peers
    case Deliver(m, _) => Deliverable(c, m)
    case Client(v, _) => IsServer(c, v)
    case Advance(v, m) => IsServer(c, v) && c.nodes[v].role.Leader? && IsMajorityIndex(c.nodes[v], m)
    case Lead(v) => IsServer(c, v)
    case Elect(v) => IsServer(c, v)
    case LoseAuthority(v) => IsServer(c, v)
    case Crash(v) => IsServer(c, v)
    case CrashInTermWrite(v, newTerm, _) => IsServer(c, v) && c.nodes[v].term < newTerm
    case CrashInTruncate(m) =>
      && m.AEReq? && Deliverable(c, m) && c.nodes[m.to].term <= m.aeReq.term
      && LogIsOk(c.nodes[m.to].log, m.aeReq)
      && HandleAERequest(c.nodes[m.to], m.aeReq).AEReply?
  }

  function DoDeliver(c: Cluster, m: Message, maxDecrStep: nat): Cluster
    requires Deliverable(c, m)
  {
    var n := c.nodes[m.to];
    match m
    case AEReq(from, inc, to, req) => (
      match HandleAERequest(n, req)
      case AEAbort => CrashWith(c, to, n)
      case AEReply(n', resp) =>
        var h := if resp.success then RecordAck(c.hist, req.term, to, resp.matchIndex) else c.hist;
        Send(Put(c, to, n'), AEResp(from, inc, resp)).(hist := h))
    case AEResp(to, _, resp) => (
      match ReceiveAEResponse(n, resp, maxDecrStep)
      case Aborted => CrashWith(c, to, n)
      case Now(n') => Put(c, to, n'))
    case RVReq(from, inc, to, req) =>
      var (n', resp) := HandleRVRequest(n, req);
      var h := if resp.voteGranted then RecordGrant(c.hist, req.term, to, from, n.log) else c.hist;
      Send(Put(c, to, n'), RVResp(from, inc, resp)).(hist := h)
    case RVResp(to, _, resp) =>
      Put(c, to, ReceiveRVResponse(n, resp))
  }

  function DoClient(c: Cluster, v: nat, requests: seq<LogEntry>): Cluster
    requires IsServer(c, v)
  {
    var n' := HandleClientRequests(c.nodes[v], requests);
    Put(c, v, n').(hist := if n'.role.Leader? then RecordLeaderLog(c.hist, n') else c.hist)
  }

  function DoAdvance(c: Cluster, v: nat, m: nat): Cluster
    requires IsServer(c, v)
  {
    var n := c.nodes[v];
    match AdvanceCommit(n, m)
    case Aborted => CrashWith(c, v, n)
    case Now(n') =>
      var h := if n'.commitIndex == n.commitIndex then c.hist
               else c.hist.(commits := c.hist.commits + {Commit(n.term, m, Holding(n, m))});
      Put(c, v, n').(hist := h)
  }

  function DoLead(c: Cluster, v: nat): Cluster
    requires IsServer(c, v)
  {
    var n := c.nodes[v];
    var n' := BecomeLeader(n);
    if n' == n then c else Put(c, v, n').(hist := RecordLeader(c.hist, n', Voters(n)))
  }

  function DoElect(c: Cluster, v: nat): Cluster
    requires IsServer(c, v)
  {
    var n := c.nodes[v];
    var n' := ElectionTimeout(n);
    if n' == n then c
    else
      var h := RecordGrant(c.hist, n'.term, v, v, n.log);
      Put(c, v, n').(hist := h.(candLog := h.candLog[Key(n'.term, v) := n.log]))
  }

  function Do(c: Cluster, s: Step): Cluster
    requires Enabled(c, s)
  {
    match s
    case SendAE(v, to, count) =>
      Send(Put(c, v, Switched(c.nodes[v], to, false)), AEReq(v, c.incs[v], to, BuildAE(c.nodes[v], to, count)))
    case SendRV(v, to) =>
      Send(Put(c, v, Switched(c.nodes[v], to, false)), RVReq(v, c.incs[v], to, BuildRV(c.nodes[v])))
    case FailAE(v, to) => Put(c, v, AECallFailed(c.nodes[v], to))
    case FailRV(v, to) => Put(c, v, Switched(c.nodes[v], to, true))
    case Deliver(m, maxDecrStep) => DoDeliver(c, m, maxDecrStep)
    case Client(v, requests) => DoClient(c, v, requests)
    case Advance(v, m) => DoAdvance(c, v, m)
    case Lead(v) => DoLead(c, v)
    case Elect(v) => DoElect(c, v)
    case LoseAuthority(v) => Put(c, v, LeadershipTimeout(c.nodes[v]))
    case Crash(v) => CrashWith(c, v, c.nodes[v])
    case CrashInTermWrite(v, newTerm, voteCleared) =>
      var n := c.nodes[v];
      CrashWith(c, v, n.(term := newTerm, vote := if voteCleared then NOBODY else n.vote))
    case CrashInTruncate(m) =>
      var n := c.nodes[m.to];
      var f := FollowLeader(n, m.aeReq);
      CrashWith(c, m.to, f.(log := TruncatedLog(n.log, m.aeReq)))
  }

  // ---------------------------------------------------------------- runs

  function NewNode(members: set<nat>, v: nat): Node {
    Node(v, 0, NOBODY, [], Follower, 0, NOBODY, map p | p in members && p != v :: FRESH_PEER)
  }

  function InitialCluster(members: set<nat>): Cluster {
    Cluster(members, map v | v in members :: NewNode(members, v), map v | v in members :: 0, {},
            History(map[], map[], map[], map[], map[], map[], {}))
  }

  /** The cluster at moment k is as it first starts, or follows from the moment before by a step. */
  ghost predicate FollowsAt(members: set<nat>, steps: seq<Step>, run: seq<Cluster>, k: nat) {
    && k < |run| == |steps| + 1
    && if k == 0 then NOBODY !in members && run[0] == InitialCluster(members)
       else Enabled(run[k - 1], steps[k - 1]) && run[k] == Do(run[k - 1], steps[k - 1])
  }

  /** Every finite behaviour of the cluster from its first start. */
  ghost predicate IsRun(members: set<nat>, steps: seq<Step>, run: seq<Cluster>) {
    && |run| == |steps| + 1
    && forall k: nat {:trigger FollowsAt(members, steps, run, k)} :: k < |run| ==> FollowsAt(members, steps, run, k)
  }
}
