/** What each handler of one Raft server does, as functions on the server's state.
    An outcome of Abort stands for a C++ assertion that does not hold: the process stops.
    RaftNode proves that the step-by-step handlers compute these functions. */
module RaftCore {
  import opened RaftTypes

  datatype AEOutcome = AEAbort | AEReply(node: Node, response: AEResponse)

  datatype NodeOutcome = Aborted | Now(node: Node)

  const FRESH_PEER := Peer(false, false, 0, 1, true, true)

  function Majority(total: nat): nat {
    total / 2 + 1
  }

  function StepDown(n: Node, newTerm: nat): Node
    requires n.term < newTerm || (n.term == newTerm && n.role.Candidate?)
  {
    if n.term < newTerm
    then n.(role := Follower, term := newTerm, vote := NOBODY, leaderId := NOBODY)
    else n.(role := Follower)
  }

  // ---------------------------------------------------------------- AppendEntries, receiver

  predicate LogIsOk(log: seq<LogEntry>, req: AERequest) {
    req.prevLogIndex < 1
    || (req.prevLogIndex <= |log| && TermAt(log, req.prevLogIndex) == req.prevLogTerm)
  }

  predicate Contiguous(prev: nat, entries: seq<LogEntry>) {
    forall i :: 0 <= i < |entries| ==> entries[i].index == prev + 1 + i
  }

  /** The first position from i on at which the log ends or holds an entry of another term. */
  function MatchFrom(log: seq<LogEntry>, prev: nat, entries: seq<LogEntry>, i: nat): (k: nat)
    requires prev + i <= |log| && i <= |entries|
    ensures i <= k <= |entries| && prev + k <= |log|
    ensures forall j :: i <= j < k ==> log[prev + j].term == entries[j].term
    ensures k < |entries| && prev + k < |log| ==> log[prev + k].term != entries[k].term
    decreases |entries| - i
  {
    if i == |entries| || prev + i == |log| || log[prev + i].term != entries[i].term then i
    else MatchFrom(log, prev, entries, i + 1)
  }

  /** How many of the received entries the log already holds, position by position. */
  function MatchLen(log: seq<LogEntry>, prev: nat, entries: seq<LogEntry>): nat
    requires prev <= |log|
  {
    MatchFrom(log, prev, entries, 0)
  }

  /** The log after the received entries have been skipped, truncated to and appended. */
  function Merge(log: seq<LogEntry>, prev: nat, entries: seq<LogEntry>): seq<LogEntry>
    requires prev <= |log|
  {
    var k := MatchLen(log, prev, entries);
    if k == |entries| then log else log[..prev + k] + entries[k..]
  }

  function FollowLeader(n: Node, req: AERequest): Node
    requires req.term >= n.term
  {
    var n1 := if req.term > n.term || n.role.Candidate? then StepDown(n, req.term) else n;
    if n1.leaderId == NOBODY then n1.(leaderId := req.leaderId) else n1
  }

  function RejectAE(n: Node, term: nat, req: AERequest): AEResponse {
    AEResponse(term, false, n.id, req.term, req.prevLogIndex, |n.log|, 0)
  }

  function HandleAERequest(n: Node, req: AERequest): AEOutcome {
    if req.term < n.term then AEReply(n, RejectAE(n, n.term, req))
    else
      var f := FollowLeader(n, req);
      if f.leaderId != req.leaderId then AEAbort
      else if !LogIsOk(f.log, req) then AEReply(f, RejectAE(f, req.term, req))
      else if !Contiguous(req.prevLogIndex, req.entries) then AEAbort
      else
        var k := MatchLen(f.log, req.prevLogIndex, req.entries);
        var conflict := k < |req.entries| && req.prevLogIndex + k < |f.log|;
        if conflict && req.prevLogIndex + k + 1 <= f.commitIndex then AEAbort
        else
          var log := Merge(f.log, req.prevLogIndex, req.entries);
          if f.commitIndex < req.commitIndex && |log| < req.commitIndex then AEAbort
          else AEReply(
                 f.(log := log, commitIndex := Max(f.commitIndex, req.commitIndex)),
                 AEResponse(req.term, true, n.id, req.term, req.prevLogIndex, |log|,
                            req.prevLogIndex + |req.entries|))
  }

  // ---------------------------------------------------------------- the send switch

  function Switched(n: Node, p: nat, armed: bool): Node
    requires p in n.peers
  {
    n.(peers := n.peers[p := n.peers[p].(armed := armed)])
  }

  /** A call for AppendEntries to p has failed: nothing large is sent until an answer has come. */
  function AECallFailed(n: Node, p: nat): Node
    requires p in n.peers
  {
    n.(peers := n.peers[p := n.peers[p].(armed := true, suppressBulkData := true)])
  }

  // ---------------------------------------------------------------- AppendEntries, sender

  function BuildAE(n: Node, to: nat, count: nat): AERequest
    requires to in n.peers && 1 <= n.peers[to].nextIndex
    requires n.peers[to].nextIndex - 1 + count <= |n.log|
  {
    var prev := n.peers[to].nextIndex - 1;
    AERequest(n.term, n.id, prev, TermAt(n.log, prev), n.log[prev..prev + count], Min(n.commitIndex, prev + count))
  }

  function NextAfterReject(next: nat, match_: nat, last: nat, maxDecrStep: nat): nat
    requires match_ + 1 < next
  {
    if next > last + 1 then last + 1 else next - Min((next - match_) / 2, maxDecrStep)
  }

  function HandleAEResponse(n: Node, resp: AEResponse, maxDecrStep: nat): NodeOutcome
    requires resp.id in n.peers
  {
    if n.term != resp.savedTerm then Now(n)
    else if !n.role.Leader? then Aborted
    else if resp.term > n.term then Now(StepDown(n, resp.term))
    else
      var peer := n.peers[resp.id];
      if resp.savedPrevLogIndex + 1 != peer.nextIndex then Now(n)
      else if resp.success then
        if resp.matchIndex < peer.matchIndex then Aborted
        else Now(n.(peers := n.peers[resp.id := peer.(matchIndex := resp.matchIndex,
                                                        nextIndex := resp.matchIndex + 1,
                                                        suppressBulkData := false)]))
      else if resp.lastLogIndex < peer.matchIndex || peer.nextIndex <= peer.matchIndex + 1 then Aborted
      else
        var next := NextAfterReject(peer.nextIndex, peer.matchIndex, resp.lastLogIndex, maxDecrStep);
        Now(n.(peers := n.peers[resp.id := peer.(nextIndex := next)]))
  }

  /** An answer turns the switch on before it is looked at. */
  function ReceiveAEResponse(n: Node, resp: AEResponse, maxDecrStep: nat): NodeOutcome
    requires resp.id in n.peers
  {
    HandleAEResponse(Switched(n, resp.id, true), resp, maxDecrStep)
  }

  // ---------------------------------------------------------------- elections

  function BuildRV(n: Node): RVRequest {
    RVRequest(n.term, n.id, |n.log|, LastTerm(n.log))
  }

  predicate AtLeastAsUpToDate(lastIndex: nat, lastTerm: nat, log: seq<LogEntry>) {
    lastTerm > LastTerm(log) || (lastTerm == LastTerm(log) && lastIndex >= |log|)
  }

  function HandleRVRequest(n: Node, req: RVRequest): (Node, RVResponse) {
    if req.term < n.term then (n, RVResponse(n.term, false, n.id, req.term))
    else
      var n1 := if req.term > n.term then StepDown(n, req.term) else n;
      if AtLeastAsUpToDate(req.lastLogIndex, req.lastLogTerm, n1.log)
         && (n1.vote == NOBODY || n1.vote == req.candidateId)
      then (n1.(vote := req.candidateId), RVResponse(req.term, true, n.id, req.term))
      else (n1, RVResponse(req.term, false, n.id, req.term))
  }

  function HandleRVResponse(n: Node, resp: RVResponse): Node
    requires resp.id in n.peers
  {
    if n.term != resp.savedTerm || !n.role.Candidate? then n
    else if resp.term > n.term then StepDown(n, resp.term)
    else
      var peer := n.peers[resp.id];
      n.(peers := n.peers[resp.id := peer.(requestVoteDone := true,
                                           haveVote := peer.haveVote || resp.voteGranted)])
  }

  function ReceiveRVResponse(n: Node, resp: RVResponse): Node
    requires resp.id in n.peers
  {
    HandleRVResponse(Switched(n, resp.id, true), resp)
  }

  function Voters(n: Node): set<nat> {
    {n.id} + set p | p in n.peers && n.peers[p].haveVote
  }

  function Noop(n: Node): LogEntry {
    LogEntry(n.term, |n.log| + 1, true, [])
  }

  function BecomeLeader(n: Node): Node {
    if !n.role.Candidate? || |Voters(n)| < Majority(|n.peers| + 1) then n
    else n.(role := Leader, log := n.log + [Noop(n)],
            peers := map p | p in n.peers :: n.peers[p].(nextIndex := |n.log| + 1,
                                                         matchIndex := 0, suppressBulkData := true, armed := true))
  }

  function ElectionTimeout(n: Node): Node {
    if n.role.Leader? then n
    else n.(role := Candidate, term := n.term + 1, vote := n.id, leaderId := NOBODY,
            peers := map p | p in n.peers :: n.peers[p].(requestVoteDone := false, haveVote := false, armed := true))
  }

  function LeadershipTimeout(n: Node): Node {
    if n.role.Leader? then StepDown(n, n.term + 1) else n
  }

  // ---------------------------------------------------------------- client requests and commit

  /** The requests that continue the log: current term and next index, one after the other. */
  function Accepted(requests: seq<LogEntry>, term: nat, last: nat): (a: seq<LogEntry>)
    ensures |a| <= |requests|
    ensures forall i :: 0 <= i < |a| ==> a[i].term == term && a[i].index == last + 1 + i
  {
    if requests == [] then []
    else if requests[0].term == term && requests[0].index == last + 1
    then [requests[0]] + Accepted(requests[1..], term, last + 1)
    else Accepted(requests[1..], term, last)
  }

  function HandleClientRequests(n: Node, requests: seq<LogEntry>): Node {
    if !n.role.Leader? then n
    else n.(log := n.log + Accepted(requests, n.term, |n.log|))
  }

  function Servers(n: Node): set<nat> {
    n.peers.Keys + {n.id}
  }

  function MatchOf(n: Node, v: nat): nat
    requires v in Servers(n)
  {
    if v == n.id then |n.log| else n.peers[v].matchIndex
  }

  /** The servers known to hold the entry at an index. */
  function Holding(n: Node, index: nat): set<nat> {
    set v | v in Servers(n) && MatchOf(n, v) >= index
  }

  /** The largest index that a majority of the servers is known to hold. */
  predicate IsMajorityIndex(n: Node, m: nat) {
    |Holding(n, m)| >= Majority(|Servers(n)|) && |Holding(n, m + 1)| < Majority(|Servers(n)|)
  }

  function AdvanceCommit(n: Node, m: nat): NodeOutcome {
    if !n.role.Leader? || m <= n.commitIndex then Now(n)
    else if |n.log| < m then Aborted
    else if TermAt(n.log, m) != n.term then Now(n)
    else Now(n.(commitIndex := m))
  }

  // ---------------------------------------------------------------- crash and restart

  function Restart(n: Node): Node {
    n.(role := Follower, commitIndex := 0, leaderId := NOBODY,
       peers := map p | p in n.peers :: FRESH_PEER)
  }
}
