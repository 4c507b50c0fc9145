/** A cluster is never stuck: from every state of every run some continuation elects a leader, and commits what a
    client asks of it on every server. The continuation is built step by step. */
module RaftProgress {
  import opened RaftTypes
  import opened RaftCore
  import opened RaftCluster
  import opened RaftInvariant
  import opened RaftSafety
  import opened RaftTheorems
  import opened RaftPaths
  import RaftProbing

  // ---------------------------------------------------------------- single steps

  lemma Acts(c: Cluster, s: Step, v: nat, n': Node, c': Cluster)
    requires Inv(c) && Enabled(c, s) && c' == Do(c, s)
    requires match s
             case Elect(w) => w == v && !c.nodes[v].role.Leader? && n' == ElectionTimeout(c.nodes[v])
             case Lead(w) => w == v && n' == BecomeLeader(c.nodes[v])
             case Client(w, requests) => w == v && n' == HandleClientRequests(c.nodes[v], requests)
             case Advance(w, m) => w == v && AdvanceCommit(c.nodes[v], m) == Now(n')
             case _ => false
    ensures Way(c, c') && c'.nodes == c.nodes[v := n'] && c'.incs == c.incs
  {
    WayStep(c, s, c');
  }

  lemma Restarts(c: Cluster, v: nat, c': Cluster)
    requires Inv(c) && v in c.nodes && c' == Do(c, Crash(v))
    ensures Way(c, c') && c'.nodes == c.nodes[v := Restart(c.nodes[v])]
  {
    WayStep(c, Crash(v), c');
  }

  lemma SendsVote(c: Cluster, v: nat, p: nat, m: Message, c': Cluster)
    requires Inv(c) && Enabled(c, SendRV(v, p)) && c' == Do(c, SendRV(v, p)) && m == RVReq(v, c.incs[v], p, BuildRV(c.nodes[v]))
    ensures Way(c, c') && c'.nodes == c.nodes[v := Switched(c.nodes[v], p, false)] && c'.incs == c.incs && m in c'.net
  {
    WayStep(c, SendRV(v, p), c');
  }

  lemma Votes(c: Cluster, m: Message, n': Node, r: RVResponse, c': Cluster)
    requires Inv(c) && m.RVReq? && Deliverable(c, m) && c' == DoDeliver(c, m, 1) && (n', r) == HandleRVRequest(c.nodes[m.to], m.rvReq)
    ensures Way(c, c') && c'.nodes == c.nodes[m.to := n'] && c'.incs == c.incs && RVResp(m.from, m.inc, r) in c'.net
  {
    WayStep(c, Deliver(m, 1), c');
    MovesVote(c, c', m, 1, n', r);
  }

  lemma HearsVote(c: Cluster, m: Message, n': Node, c': Cluster)
    requires Inv(c) && m.RVResp? && Deliverable(c, m) && c' == DoDeliver(c, m, 1) && n' == ReceiveRVResponse(c.nodes[m.to], m.rvResp)
    ensures Way(c, c') && c'.nodes == c.nodes[m.to := n'] && c'.incs == c.incs
  {
    WayStep(c, Deliver(m, 1), c');
  }

  lemma SendsEntries(c: Cluster, v: nat, p: nat, count: nat, m: Message, c': Cluster)
    requires Inv(c) && Enabled(c, SendAE(v, p, count)) && c' == Do(c, SendAE(v, p, count))
    requires m == AEReq(v, c.incs[v], p, BuildAE(c.nodes[v], p, count))
    ensures Way(c, c') && c'.nodes == c.nodes[v := Switched(c.nodes[v], p, false)] && c'.incs == c.incs && m in c'.net
  {
    WayStep(c, SendAE(v, p, count), c');
  }

  lemma Answers(c: Cluster, m: Message, n': Node, r: AEResponse, c': Cluster)
    requires Inv(c) && m.AEReq? && Deliverable(c, m) && c' == DoDeliver(c, m, 1)
    requires HandleAERequest(c.nodes[m.to], m.aeReq) == AEReply(n', r)
    ensures Way(c, c') && c'.nodes == c.nodes[m.to := n'] && c'.incs == c.incs && AEResp(m.from, m.inc, r) in c'.net
  {
    WayStep(c, Deliver(m, 1), c');
  }

  lemma HearsAnswer(c: Cluster, m: Message, n': Node, c': Cluster)
    requires Inv(c) && m.AEResp? && Deliverable(c, m) && c' == DoDeliver(c, m, 1)
    requires ReceiveAEResponse(c.nodes[m.to], m.aeResp, 1) == Now(n')
    ensures Way(c, c') && c'.nodes == c.nodes[m.to := n'] && c'.incs == c.incs
  {
    WayStep(c, Deliver(m, 1), c');
  }

  // ---------------------------------------------------------------- a request and its answer

  lemma Again<K, V>(m: map<K, V>, a: K, x: V, y: V)
    ensures m[a := x][a := y] == m[a := y]
  {
  }

  lemma Swap<K, V>(m: map<K, V>, a: K, b: K, x: V, y: V, z: V)
    requires a != b
    ensures m[a := x][b := y][a := z] == m[a := z][b := y]
  {
  }

  /** Two servers of the cluster, each a peer of the other. */
  ghost predicate Pair(c: Cluster, v: nat, p: nat) {
    Inv(c) && v in c.nodes && p in c.nodes && v != p && p in c.nodes[v].peers && c.nodes[p].id == p && c.nodes[v].id == v
  }

  lemma IsPair(c: Cluster, v: nat, p: nat)
    requires Inv(c) && v in c.nodes && p in c.nodes && v != p
    ensures Pair(c, v, p) && c.nodes[v].peers.Keys == c.members - {v}
  {
    assert NodeOk(c.members, c.hist, v, c.nodes[v]) && NodeOk(c.members, c.hist, p, c.nodes[p]);
  }

  lemma VoteExchange(c: Cluster, v: nat, p: nat, a: Node, b: Node, r: RVResponse) returns (c': Cluster)
    requires Pair(c, v, p) && Enabled(c, SendRV(v, p)) && HandleRVRequest(c.nodes[p], BuildRV(c.nodes[v])) == (b, r) && r.id == p
    requires a == ReceiveRVResponse(Switched(c.nodes[v], p, false), r)
    ensures Way(c, c') && c'.nodes == c.nodes[v := a][p := b]
  {
    var m := RVReq(v, c.incs[v], p, BuildRV(c.nodes[v]));
    var c1 := Do(c, SendRV(v, p));
    SendsVote(c, v, p, m, c1);
    var c2 := DoDeliver(c1, m, 1);
    Votes(c1, m, b, r, c2);
    var m' := RVResp(v, c.incs[v], r);
    c' := DoDeliver(c2, m', 1);
    HearsVote(c2, m', a, c');
    WayOn(c, c1, c2);
    WayOn(c, c2, c');
    Swap(c.nodes, v, p, c1.nodes[v], b, a);
  }

  /** A request that a leader sends fails no assertion of the receiver. */
  lemma Replies(c: Cluster, v: nat, p: nat, count: nat)
    requires Pair(c, v, p) && Enabled(c, SendAE(v, p, count))
    ensures HandleAERequest(c.nodes[p], BuildAE(c.nodes[v], p, count)).AEReply?
  {
    var m := AEReq(v, c.incs[v], p, BuildAE(c.nodes[v], p, count));
    var c1 := Do(c, SendAE(v, p, count));
    SendsEntries(c, v, p, count, m, c1);
    StepDeliverReplies(c1, DoDeliver(c1, m, 0), m);
  }

  lemma Exchange(c: Cluster, v: nat, p: nat, count: nat, a: Node, b: Node, r: AEResponse) returns (c': Cluster)
    requires Pair(c, v, p) && Enabled(c, SendAE(v, p, count)) && r.id == p
    requires HandleAERequest(c.nodes[p], BuildAE(c.nodes[v], p, count)) == AEReply(b, r)
    requires ReceiveAEResponse(Switched(c.nodes[v], p, false), r, 1) == Now(a)
    ensures Way(c, c') && c'.nodes == c.nodes[v := a][p := b]
  {
    var m := AEReq(v, c.incs[v], p, BuildAE(c.nodes[v], p, count));
    var c1 := Do(c, SendAE(v, p, count));
    SendsEntries(c, v, p, count, m, c1);
    var c2 := DoDeliver(c1, m, 1);
    Answers(c1, m, b, r, c2);
    var m' := AEResp(v, c.incs[v], r);
    c' := DoDeliver(c2, m', 1);
    HearsAnswer(c2, m', a, c');
    WayOn(c, c1, c2);
    WayOn(c, c2, c');
    Swap(c.nodes, v, p, c1.nodes[v], b, a);
  }

  // ---------------------------------------------------------------- who is to lead, and in which term

  ghost predicate UpToDate(a: seq<LogEntry>, b: seq<LogEntry>) {
    AtLeastAsUpToDate(|a|, LastTerm(a), b)
  }

  /** Of any servers one has a log that is at least as up to date as those of the others. */
  lemma {:induction false} BestLog(nodes: map<nat, Node>, us: set<nat>) returns (v: nat)
    requires us != {} && us <= nodes.Keys
    ensures v in us && forall u {:trigger nodes[u]} :: u in us ==> UpToDate(nodes[v].log, nodes[u].log)
    decreases |us|
  {
    var w :| w in us;
    if us == {w} {
      v := w;
    } else {
      v := BestLog(nodes, us - {w});
      if !UpToDate(nodes[v].log, nodes[w].log) {
        v := w;
      }
    }
  }

  lemma {:induction false} NewTerm(nodes: map<nat, Node>, us: set<nat>) returns (t: nat)
    requires us <= nodes.Keys
    ensures forall u {:trigger nodes[u]} :: u in us ==> nodes[u].term < t
    decreases |us|
  {
    if us == {} {
      t := 0;
    } else {
      var w :| w in us;
      t := NewTerm(nodes, us - {w});
      if t <= nodes[w].term {
        t := nodes[w].term + 1;
      }
    }
  }

  // ---------------------------------------------------------------- an election

  /** A candidate that may ask everybody for a vote. */
  ghost predicate Stands(n: Node, t: nat, log: seq<LogEntry>) {
    && n.role.Candidate? && n.term == t && n.log == log && n.commitIndex == 0
    && forall p {:trigger n.peers[p]} :: p in n.peers ==> n.peers[p].armed && !n.peers[p].requestVoteDone
  }

  lemma StandsNext(n: Node, n': Node)
    requires !n.role.Leader? && n.commitIndex == 0 && n' == ElectionTimeout(n)
    ensures Stands(n', n.term + 1, n.log)
  {
  }

  lemma {:induction false} StandsUp(c: Cluster, v: nat, t: nat) returns (c': Cluster, n': Node)
    requires Inv(c) && v in c.nodes && !c.nodes[v].role.Leader? && c.nodes[v].term < t && c.nodes[v].commitIndex == 0
    ensures Way(c, c') && c'.nodes == c.nodes[v := n'] && Stands(n', t, c.nodes[v].log)
    decreases t - c.nodes[v].term
  {
    n' := ElectionTimeout(c.nodes[v]);
    StandsNext(c.nodes[v], n');
    c' := Do(c, Elect(v));
    Acts(c, Elect(v), v, n', c');
    if n'.term < t {
      var c1, n1 := c', n';
      c', n' := StandsUp(c1, v, t);
      WayOn(c, c1, c');
      Again(c.nodes, v, n1, n');
    }
  }

  ghost predicate FollowsIn(n: Node, t: nat) {
    n.term == t && n.role.Follower?
  }

  ghost predicate AskedAt(c: Cluster, v: nat, t: nat, done: set<nat>, p: nat) {
    && v in c.nodes && p in c.nodes && p in c.nodes[v].peers
    && if p in done then c.nodes[v].peers[p].haveVote && FollowsIn(c.nodes[p], t)
       else c.nodes[v].peers[p].armed && !c.nodes[v].peers[p].requestVoteDone && c.nodes[p].term < t
            && UpToDate(c.nodes[v].log, c.nodes[p].log)
  }

  /** The servers of `done` have voted for v, and the others can be asked. */
  ghost predicate Asking(c: Cluster, v: nat, t: nat, log: seq<LogEntry>, done: set<nat>) {
    && Inv(c) && v in c.nodes && v !in done
    && c.nodes[v].role.Candidate? && c.nodes[v].term == t && c.nodes[v].log == log && c.nodes[v].commitIndex == 0
    && forall p {:trigger AskedAt(c, v, t, done, p)} :: p in c.nodes && p != v ==> AskedAt(c, v, t, done, p)
  }

  lemma GrantsVote(n: Node, a: Node, b: Node, r: RVResponse)
    requires n.term < a.term && UpToDate(a.log, n.log)
    requires b == n.(role := Follower, term := a.term, vote := a.id, leaderId := NOBODY) && r == RVResponse(a.term, true, n.id, a.term)
    ensures HandleRVRequest(n, BuildRV(a)) == (b, r)
  {
  }

  lemma CountsVote(n: Node, p: nat, r: RVResponse, a: Node)
    requires p in n.peers && n.role.Candidate? && r == RVResponse(n.term, true, p, n.term)
    requires a == n.(peers := n.peers[p := n.peers[p].(armed := true, requestVoteDone := true, haveVote := true)])
    ensures ReceiveRVResponse(Switched(n, p, false), r) == a
  {
  }

  lemma AskOne(c: Cluster, v: nat, t: nat, log: seq<LogEntry>, done: set<nat>, p: nat) returns (c': Cluster)
    requires Asking(c, v, t, log, done) && p in c.nodes && p != v && p !in done
    ensures Way(c, c') && Asking(c', v, t, log, done + {p})
  {
    IsPair(c, v, p);
    assert AskedAt(c, v, t, done, p);
    var n, f := c.nodes[v], c.nodes[p];
    var b, r := f.(role := Follower, term := t, vote := v, leaderId := NOBODY), RVResponse(t, true, p, t);
    var a := n.(peers := n.peers[p := n.peers[p].(armed := true, requestVoteDone := true, haveVote := true)]);
    GrantsVote(f, n, b, r);
    CountsVote(n, p, r, a);
    c' := VoteExchange(c, v, p, a, b, r);
    forall q | q in c'.nodes && q != v ensures AskedAt(c', v, t, done + {p}, q) {
      assert AskedAt(c, v, t, done, q);
    }
  }

  lemma {:induction false} AskAll(c: Cluster, v: nat, t: nat, log: seq<LogEntry>, done: set<nat>) returns (c': Cluster)
    requires Asking(c, v, t, log, done) && done <= c.members
    ensures Way(c, c') && Asking(c', v, t, log, c.members - {v})
    decreases |c.members - done|
  {
    if p :| p in c.members && p != v && p !in done {
      var c1 := AskOne(c, v, t, log, done, p);
      assert c.members - (done + {p}) < c.members - done;
      Smaller(c.members - (done + {p}), c.members - done);
      c' := AskAll(c1, v, t, log, done + {p});
      WayOn(c, c1, c');
    } else {
      c' := c;
      WaySelf(c);
      assert done == c.members - {v};
    }
  }

  lemma Smaller<T>(a: set<T>, b: set<T>)
    requires a < b
    ensures |a| < |b|
  {
    assert |b - a| > 0 && b == a + (b - a);
  }

  // ---------------------------------------------------------------- the new leader

  ghost predicate FilledAt(c: Cluster, v: nat, t: nat, log: seq<LogEntry>, done: set<nat>, p: nat) {
    && v in c.nodes && p in c.nodes && p in c.nodes[v].peers && FollowsIn(c.nodes[p], t)
    && var q := c.nodes[v].peers[p];
       && q.armed
       && if p in done then q.matchIndex == |log| && q.nextIndex == |log| + 1 && !q.suppressBulkData
          else q.matchIndex == 0 && q.suppressBulkData
  }

  ghost predicate IsLeader(c: Cluster, v: nat, t: nat, log: seq<LogEntry>, commit: nat) {
    && Inv(c) && v in c.nodes
    && c.nodes[v].role.Leader? && c.nodes[v].term == t && c.nodes[v].log == log && c.nodes[v].commitIndex == commit
  }

  /** The servers of `done` hold the whole log of the leader. */
  ghost predicate Filling(c: Cluster, v: nat, t: nat, log: seq<LogEntry>, done: set<nat>) {
    && IsLeader(c, v, t, log, 0) && v !in done
    && forall p {:trigger FilledAt(c, v, t, log, done, p)} :: p in c.nodes && p != v ==> FilledAt(c, v, t, log, done, p)
  }

  lemma AllVoted(n: Node, members: set<nat>)
    requires n.role.Candidate? && n.id in members && n.peers.Keys == members - {n.id}
    requires forall p {:trigger n.peers[p]} :: p in n.peers ==> n.peers[p].haveVote
    ensures |Voters(n)| >= Majority(|n.peers| + 1)
  {
    assert Voters(n) == members;
    assert |members - {n.id}| == |members| - 1 && |n.peers| == |n.peers.Keys|;
  }

  /** A leader to whom nobody is known to hold anything. */
  ghost predicate Begins(n: Node, t: nat, log: seq<LogEntry>) {
    && n.role.Leader? && n.term == t && n.log == log && n.commitIndex == 0
    && forall p {:trigger n.peers[p]} :: p in n.peers ==>
         n.peers[p].armed && n.peers[p].matchIndex == 0 && n.peers[p].suppressBulkData
  }

  lemma BeginsToLead(n: Node, members: set<nat>, n': Node)
    requires n.role.Candidate? && n.id in members && n.peers.Keys == members - {n.id} && n.commitIndex == 0
    requires forall p {:trigger n.peers[p]} :: p in n.peers ==> n.peers[p].haveVote
    requires n' == BecomeLeader(n)
    ensures Begins(n', n.term, n.log + [LogEntry(n.term, |n.log| + 1, true, [])]) && n'.peers.Keys == n.peers.Keys
  {
    AllVoted(n, members);
  }

  lemma NothingFilled(c: Cluster, c': Cluster, v: nat, t: nat, log: seq<LogEntry>, n': Node, log': seq<LogEntry>)
    requires Asking(c, v, t, log, c.members - {v}) && Inv(c') && c'.nodes == c.nodes[v := n']
    requires Begins(n', t, log') && n'.peers.Keys == c.nodes[v].peers.Keys
    ensures Filling(c', v, t, log', {})
  {
    forall p | p in c'.nodes && p != v ensures FilledAt(c', v, t, log', {}, p) {
      assert AskedAt(c, v, t, c.members - {v}, p);
    }
  }

  lemma TakesOver(c: Cluster, v: nat, t: nat, log: seq<LogEntry>) returns (c': Cluster, log': seq<LogEntry>)
    requires Asking(c, v, t, log, c.members - {v})
    ensures Way(c, c') && Filling(c', v, t, log', {}) && log' == log + [LogEntry(t, |log| + 1, true, [])]
  {
    var n := c.nodes[v];
    assert NodeOk(c.members, c.hist, v, n);
    forall p | p in n.peers ensures n.peers[p].haveVote {
      assert AskedAt(c, v, t, c.members - {v}, p);
    }
    var n' := BecomeLeader(n);
    BeginsToLead(n, c.members, n');
    c' := Do(c, Lead(v));
    Acts(c, Lead(v), v, n', c');
    log' := n'.log;
    NothingFilled(c, c', v, t, log, n', log');
  }

  lemma TakesRequest(c: Cluster, v: nat, t: nat, log: seq<LogEntry>, payload: Bytes) returns (c': Cluster, log': seq<LogEntry>)
    requires Filling(c, v, t, log, {})
    ensures Way(c, c') && Filling(c', v, t, log', {}) && log' == log + [LogEntry(t, |log| + 1, false, payload)]
  {
    var e := LogEntry(t, |log| + 1, false, payload);
    assert Accepted([], t, |log| + 1) == [] && [e][1..] == [];
    assert Accepted([e], t, |log|) == [e];
    var n' := HandleClientRequests(c.nodes[v], [e]);
    c' := Do(c, Client(v, [e]));
    Acts(c, Client(v, [e]), v, n', c');
    log' := n'.log;
    forall p | p in c'.nodes && p != v ensures FilledAt(c', v, t, log', {}, p) {
      assert FilledAt(c, v, t, log, {}, p);
    }
  }

  // ---------------------------------------------------------------- everybody gets the log

  /** What an answer to the latest probe makes of the peer. */
  ghost predicate Moved(q: Peer, q': Peer, r: AEResponse) {
    if r.success then
      q' == q.(armed := true, matchIndex := r.matchIndex, nextIndex := r.matchIndex + 1, suppressBulkData := false)
    else
      q' == q.(armed := true, nextIndex := q'.nextIndex) && 1 <= q'.nextIndex < q.nextIndex
  }

  lemma HearsProbe(n: Node, p: nat, r: AEResponse) returns (q': Peer)
    requires p in n.peers && n.role.Leader? && r.id == p && r.savedTerm == n.term == r.term
    requires r.savedPrevLogIndex + 1 == n.peers[p].nextIndex
    requires if r.success then n.peers[p].matchIndex <= r.matchIndex else n.peers[p].matchIndex == 0 && 2 <= n.peers[p].nextIndex
    ensures ReceiveAEResponse(Switched(n, p, false), r, 1) == Now(n.(peers := n.peers[p := q'])) && Moved(n.peers[p], q', r)
  {
    q' := ReceiveAEResponse(Switched(n, p, false), r, 1).node.peers[p];
  }

  /** A follower of the leader's term answers in that term, and accepts exactly if its log has the entry. */
  lemma Answered(f: Node, req: AERequest, b: Node, r: AEResponse)
    requires FollowsIn(f, req.term) && HandleAERequest(f, req) == AEReply(b, r)
    ensures FollowsIn(b, req.term) && f.commitIndex <= b.commitIndex
    ensures r.id == f.id && r.term == r.savedTerm == req.term && r.savedPrevLogIndex == req.prevLogIndex
    ensures r.success <==> LogIsOk(f.log, req)
    ensures r.success ==> r.matchIndex == req.prevLogIndex + |req.entries| && req.commitIndex <= b.commitIndex
    ensures !r.success ==> b.log == f.log
  {
  }

  /** A request to a follower of the leader's term, which accepts it or is not known to hold anything, and its answer. */
  lemma Asks(c: Cluster, v: nat, t: nat, log: seq<LogEntry>, commit: nat, p: nat, count: nat, req: AERequest)
    returns (c': Cluster, q': Peer, b: Node, r: AEResponse)
    requires IsLeader(c, v, t, log, commit) && p in c.nodes && p != v && FollowsIn(c.nodes[p], t) && p in c.nodes[v].peers
    requires Enabled(c, SendAE(v, p, count)) && req == BuildAE(c.nodes[v], p, count)
    requires c.nodes[v].peers[p].matchIndex == 0 || LogIsOk(c.nodes[p].log, req)
    ensures Way(c, c') && c'.nodes == c.nodes[v := c.nodes[v].(peers := c.nodes[v].peers[p := q'])][p := b]
    ensures Moved(c.nodes[v].peers[p], q', r) && FollowsIn(b, t) && (r.success <==> LogIsOk(c.nodes[p].log, req))
    ensures r.success ==> r.matchIndex == req.prevLogIndex + |req.entries| && req.commitIndex <= b.commitIndex
  {
    IsPair(c, v, p);
    Replies(c, v, p, count);
    var n, f := c.nodes[v], c.nodes[p];
    b, r := HandleAERequest(f, req).node, HandleAERequest(f, req).response;
    Answered(f, req, b, r);
    assert NodeOk(c.members, c.hist, v, n) && PeerOk(c.hist, n, p);
    q' := HearsProbe(n, p, r);
    c' := Exchange(c, v, p, count, n.(peers := n.peers[p := q']), b, r);
  }

  /** What has been probed successfully is held: nothing lies between match index and next index. */
  ghost predicate Probed(c: Cluster, v: nat, t: nat, log: seq<LogEntry>, done: set<nat>, p: nat) {
    && IsLeader(c, v, t, log, 0) && v !in done && p in c.nodes && p != v && p in c.nodes[v].peers && FollowsIn(c.nodes[p], t)
    && c.nodes[v].peers[p].armed && !c.nodes[v].peers[p].suppressBulkData
    && c.nodes[v].peers[p].nextIndex == c.nodes[v].peers[p].matchIndex + 1
    && forall u {:trigger FilledAt(c, v, t, log, done, u)} :: u in c.nodes && u != v && u != p ==> FilledAt(c, v, t, log, done, u)
  }

  lemma OthersFilled(c: Cluster, c': Cluster, v: nat, t: nat, log: seq<LogEntry>, done: set<nat>, p: nat, q': Peer, b: Node)
    requires v in c.nodes && p in c.nodes && p != v && p in c.nodes[v].peers
    requires c'.nodes == c.nodes[v := c.nodes[v].(peers := c.nodes[v].peers[p := q'])][p := b]
    requires forall u {:trigger FilledAt(c, v, t, log, done, u)} :: u in c.nodes && u != v && u != p ==> FilledAt(c, v, t, log, done, u)
    ensures forall u {:trigger FilledAt(c', v, t, log, done, u)} :: u in c'.nodes && u != v && u != p ==> FilledAt(c', v, t, log, done, u)
  {
    forall u | u in c'.nodes && u != v && u != p ensures FilledAt(c', v, t, log, done, u) {
      assert FilledAt(c, v, t, log, done, u);
    }
  }

  /** The leader goes back until the follower accepts. */
  lemma {:induction false} Probes(c: Cluster, v: nat, t: nat, log: seq<LogEntry>, done: set<nat>, p: nat, next: nat) returns (c': Cluster)
    requires Filling(c, v, t, log, done) && p in c.nodes && p != v && p !in done && p in c.nodes[v].peers
    requires c.nodes[v].peers[p].nextIndex == next
    ensures Way(c, c') && Probed(c', v, t, log, done, p)
    decreases next
  {
    assert FilledAt(c, v, t, log, done, p);
    assert NodeOk(c.members, c.hist, v, c.nodes[v]) && PeerOk(c.hist, c.nodes[v], p);
    var q', b, r;
    c', q', b, r := Asks(c, v, t, log, 0, p, 0, BuildAE(c.nodes[v], p, 0));
    OthersFilled(c, c', v, t, log, done, p, q', b);
    if !r.success {
      var c1 := c';
      assert FilledAt(c1, v, t, log, done, p);
      c' := Probes(c1, v, t, log, done, p, q'.nextIndex);
      WayOn(c, c1, c');
    }
  }

  /** A follower accepts what continues what it is known to hold. */
  lemma HolderAccepts(c: Cluster, v: nat, p: nat, count: nat)
    requires Inv(c) && v in c.nodes && p in c.nodes && c.nodes[v].role.Leader? && p in c.nodes[v].peers
    requires c.nodes[p].term <= c.nodes[v].term && Enabled(c, SendAE(v, p, count))
    requires c.nodes[v].peers[p].nextIndex == c.nodes[v].peers[p].matchIndex + 1
    ensures LogIsOk(c.nodes[p].log, BuildAE(c.nodes[v], p, count))
  {
    RaftProbing.FollowerHolds(c, v, p);
    RaftProbing.HeldIsAccepted(c.nodes[p].log, c.nodes[v].log, c.nodes[v].peers[p].matchIndex, BuildAE(c.nodes[v], p, count));
  }

  lemma Fills(c: Cluster, v: nat, t: nat, log: seq<LogEntry>, done: set<nat>, p: nat) returns (c': Cluster)
    requires Probed(c, v, t, log, done, p)
    ensures Way(c, c') && Filling(c', v, t, log, done + {p})
  {
    assert NodeOk(c.members, c.hist, v, c.nodes[v]) && PeerOk(c.hist, c.nodes[v], p);
    var count := |log| - c.nodes[v].peers[p].matchIndex;
    HolderAccepts(c, v, p, count);
    var q', b, r;
    c', q', b, r := Asks(c, v, t, log, 0, p, count, BuildAE(c.nodes[v], p, count));
    OthersFilled(c, c', v, t, log, done, p, q', b);
    forall u | u in c'.nodes && u != v ensures FilledAt(c', v, t, log, done + {p}, u) {
      assert u != p ==> FilledAt(c', v, t, log, done, u);
    }
  }

  lemma {:induction false} FillAll(c: Cluster, v: nat, t: nat, log: seq<LogEntry>, done: set<nat>) returns (c': Cluster)
    requires Filling(c, v, t, log, done) && done <= c.members
    ensures Way(c, c') && Filling(c', v, t, log, c.members - {v})
    decreases |c.members - done|
  {
    if p :| p in c.members && p != v && p !in done {
      IsPair(c, v, p);
      var c1 := Probes(c, v, t, log, done, p, c.nodes[v].peers[p].nextIndex);
      var c2 := Fills(c1, v, t, log, done, p);
      assert c.members - (done + {p}) < c.members - done;
      Smaller(c.members - (done + {p}), c.members - done);
      c' := FillAll(c2, v, t, log, done + {p});
      WayOn(c, c1, c2);
      WayOn(c, c2, c');
    } else {
      c' := c;
      WaySelf(c);
      assert done == c.members - {v};
    }
  }

  // ---------------------------------------------------------------- and learns that it is committed

  lemma AllHold(n: Node, n': Node)
    requires n.role.Leader? && n.commitIndex == 0 && n.log != [] && n.log[|n.log| - 1].term == n.term
    requires forall p {:trigger n.peers[p]} :: p in n.peers ==> n.peers[p].matchIndex == |n.log|
    requires n' == n.(commitIndex := |n.log|)
    ensures IsMajorityIndex(n, |n.log|) && AdvanceCommit(n, |n.log|) == Now(n')
  {
    assert Holding(n, |n.log|) == Servers(n) && Holding(n, |n.log| + 1) == {};
    assert n.id in Servers(n);
  }

  ghost predicate ToldAt(c: Cluster, v: nat, t: nat, log: seq<LogEntry>, done: set<nat>, p: nat) {
    && v in c.nodes && p in c.nodes && p in c.nodes[v].peers && FollowsIn(c.nodes[p], t)
    && c.nodes[v].peers[p].matchIndex == |log|
    && if p in done then c.nodes[p].commitIndex >= |log|
       else c.nodes[v].peers[p].armed && c.nodes[v].peers[p].nextIndex == |log| + 1
  }

  /** The servers of `done` know that the whole log is committed. */
  ghost predicate Telling(c: Cluster, v: nat, t: nat, log: seq<LogEntry>, done: set<nat>) {
    && IsLeader(c, v, t, log, |log|) && v !in done
    && forall p {:trigger ToldAt(c, v, t, log, done, p)} :: p in c.nodes && p != v ==> ToldAt(c, v, t, log, done, p)
  }

  lemma Commits(c: Cluster, v: nat, t: nat, log: seq<LogEntry>) returns (c': Cluster)
    requires Filling(c, v, t, log, c.members - {v}) && log != [] && log[|log| - 1].term == t
    ensures Way(c, c') && Telling(c', v, t, log, {})
  {
    var n := c.nodes[v];
    assert NodeOk(c.members, c.hist, v, n);
    forall p | p in n.peers ensures n.peers[p].matchIndex == |n.log| {
      assert FilledAt(c, v, t, log, c.members - {v}, p);
    }
    var n' := n.(commitIndex := |log|);
    AllHold(n, n');
    c' := Do(c, Advance(v, |log|));
    Acts(c, Advance(v, |log|), v, n', c');
    forall p | p in c'.nodes && p != v ensures ToldAt(c', v, t, log, {}, p) {
      assert FilledAt(c, v, t, log, c.members - {v}, p);
    }
  }

  lemma Tells(c: Cluster, v: nat, t: nat, log: seq<LogEntry>, done: set<nat>, p: nat) returns (c': Cluster)
    requires Telling(c, v, t, log, done) && p in c.nodes && p != v && p !in done
    ensures Way(c, c') && Telling(c', v, t, log, done + {p})
  {
    assert ToldAt(c, v, t, log, done, p);
    HolderAccepts(c, v, p, 0);
    var q', b, r;
    c', q', b, r := Asks(c, v, t, log, |log|, p, 0, BuildAE(c.nodes[v], p, 0));
    forall u | u in c'.nodes && u != v ensures ToldAt(c', v, t, log, done + {p}, u) {
      assert ToldAt(c, v, t, log, done, u);
    }
  }

  lemma {:induction false} TellAll(c: Cluster, v: nat, t: nat, log: seq<LogEntry>, done: set<nat>) returns (c': Cluster)
    requires Telling(c, v, t, log, done) && done <= c.members
    ensures Way(c, c') && Telling(c', v, t, log, c.members - {v})
    decreases |c.members - done|
  {
    if p :| p in c.members && p != v && p !in done {
      var c1 := Tells(c, v, t, log, done, p);
      assert c.members - (done + {p}) < c.members - done;
      Smaller(c.members - (done + {p}), c.members - done);
      c' := TellAll(c1, v, t, log, done + {p});
      WayOn(c, c1, c');
    } else {
      c' := c;
      WaySelf(c);
      assert done == c.members - {v};
    }
  }

  // ---------------------------------------------------------------- from any state of any run

  /** Server u has the log committed. */
  ghost predicate HasCommitted(c: Cluster, u: nat, log: seq<LogEntry>) {
    u in c.nodes && |log| <= c.nodes[u].commitIndex <= |c.nodes[u].log| && log <= c.nodes[u].log
  }

  ghost predicate EverywhereCommitted(c: Cluster, members: set<nat>, log: seq<LogEntry>) {
    forall u {:trigger HasCommitted(c, u, log)} :: u in members ==> HasCommitted(c, u, log)
  }

  lemma AllCommitted(c: Cluster, v: nat, t: nat, log: seq<LogEntry>, u: nat)
    requires Telling(c, v, t, log, c.members - {v}) && u in c.nodes
    ensures HasCommitted(c, u, log)
  {
    assert NodeOk(c.members, c.hist, u, c.nodes[u]);
    if u != v {
      assert ToldAt(c, v, t, log, c.members - {v}, u);
      RaftProbing.FollowerHolds(c, v, u);
      assert c.nodes[v].log[..|log|] == log;
    }
  }

  lemma Candidate(c: Cluster) returns (c': Cluster, v: nat, t: nat, log: seq<LogEntry>)
    requires Inv(c) && c.members != {}
    ensures Way(c, c') && Asking(c', v, t, log, {})
  {
    v := BestLog(c.nodes, c.members);
    t := NewTerm(c.nodes, c.members);
    log := c.nodes[v].log;
    var c1 := Do(c, Crash(v));
    Restarts(c, v, c1);
    var n';
    c', n' := StandsUp(c1, v, t);
    WayOn(c, c1, c');
    Again(c.nodes, v, Restart(c.nodes[v]), n');
    forall p | p in c'.nodes && p != v ensures AskedAt(c', v, t, {}, p) {
      IsPair(c', v, p);
      assert UpToDate(c.nodes[v].log, c.nodes[p].log) && c.nodes[p].term < t;
    }
  }

  lemma Serves(c: Cluster, payload: Bytes) returns (c': Cluster, log: seq<LogEntry>)
    requires Inv(c) && c.members != {}
    ensures Way(c, c') && log != [] && log[|log| - 1].payload == payload && !log[|log| - 1].noop
    ensures EverywhereCommitted(c', c.members, log)
  {
    var c1, v, t, log0 := Candidate(c);
    var c2 := AskAll(c1, v, t, log0, {});
    WayOn(c, c1, c2);
    var c3, log1 := TakesOver(c2, v, t, log0);
    WayOn(c, c2, c3);
    var c4;
    c4, log := TakesRequest(c3, v, t, log1, payload);
    WayOn(c, c3, c4);
    var c5 := FillAll(c4, v, t, log, {});
    WayOn(c, c4, c5);
    var c6 := Commits(c5, v, t, log);
    WayOn(c, c5, c6);
    c' := TellAll(c6, v, t, log, {});
    WayOn(c, c6, c');
    forall u | u in c'.members ensures HasCommitted(c', u, log) {
      AllCommitted(c', v, t, log, u);
    }
  }

  /** Whatever has happened to a cluster, crashes, lost messages and elections without a winner included, it can
      still elect a leader and commit any request on every server. */
  lemma NeverStuck(members: set<nat>, steps: seq<Step>, run: seq<Cluster>, payload: Bytes)
    returns (steps': seq<Step>, run': seq<Cluster>, log: seq<LogEntry>)
    requires IsRun(members, steps, run) && members != {}
    ensures IsRun(members, steps', run') && steps <= steps' && run <= run'
    ensures log != [] && log[|log| - 1].payload == payload && !log[|log| - 1].noop
    ensures EverywhereCommitted(run'[|run'| - 1], members, log)
  {
    RunInv(members, steps, run, |steps|);
    var c';
    c', log := Serves(run[|steps|], payload);
    steps', run' := RunReaches(members, steps, run, run[|steps|], c');
  }
}
