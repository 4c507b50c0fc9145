/** Safety of whole runs: every step keeps the invariant, and what follows from it for any two moments. */
module RaftSafety {
  import opened RaftTypes
  import opened RaftCore
  import opened RaftCluster
  import opened RaftInvariant
  import opened RaftLogs
  import opened RaftCompleteness
  import opened RaftReceive
  import opened RaftAct

  // ---------------------------------------------------------------- one server acts

  /** A leader stays leader until its term ends or its process does. */
  ghost predicate LeadKept(n: Node, n': Node) {
    n.term <= n'.term && (n'.term == n.term && n.role.Leader? ==> n'.role.Leader?)
  }

  /** c' is c after server v moved to n', possibly through a crash, and sent some messages. */
  ghost predicate Moves(c: Cluster, c': Cluster, v: nat, n': Node, sent: set<Message>, crashed: bool) {
    && IsServer(c, v)
    && c'.members == c.members && c'.nodes == c.nodes[v := n'] && c'.net == c.net + sent
    && c'.incs == (if crashed then c.incs[v := c.incs[v] + 1] else c.incs)
    && c.nodes[v].term <= n'.term && (crashed || LeadKept(c.nodes[v], n'))
  }

  lemma OtherNodes(c: Cluster, c': Cluster, v: nat, n': Node, sent: set<Message>, crashed: bool)
    requires Inv(c) && Moves(c, c', v, n', sent, crashed)
    requires Extends(v, c.hist, c'.hist) && NodeOk(c.members, c'.hist, v, n')
    ensures forall u {:trigger NodeOk(c.members, c'.hist, u, c'.nodes[u])} ::
              u in c'.nodes ==> NodeOk(c.members, c'.hist, u, c'.nodes[u])
  {
    forall u | u in c'.nodes ensures NodeOk(c.members, c'.hist, u, c'.nodes[u]) {
      if u != v {
        assert NodeOk(c.members, c.hist, u, c.nodes[u]);
        OthersUntouched(v, u, c.hist, c'.hist);
        NodeFrame(c.members, v, c.hist, c'.hist, u, c.nodes[u]);
      }
    }
  }

  lemma OldMessages(c: Cluster, c': Cluster, v: nat, n': Node, sent: set<Message>, crashed: bool, m: Message)
    requires Inv(c) && Moves(c, c', v, n', sent, crashed) && Extends(v, c.hist, c'.hist) && m in c.net
    ensures MessageOk(c.members, c'.hist, m) && SenderOk(c', m)
  {
    assert MessageOk(c.members, c.hist, m);
    MessageFrame(c.members, v, c.hist, c'.hist, m);
    assert SenderOk(c, m);
  }

  lemma Assemble(c: Cluster, c': Cluster, v: nat, n': Node, sent: set<Message>, crashed: bool)
    requires Inv(c) && Moves(c, c', v, n', sent, crashed)
    requires HistoryOk(c.members, c'.hist) && Extends(v, c.hist, c'.hist)
    requires NodeOk(c.members, c'.hist, v, n')
    requires forall m :: m in sent ==> MessageOk(c.members, c'.hist, m) && SenderOk(c', m)
    ensures Inv(c')
  {
    OtherNodes(c, c', v, n', sent, crashed);
    forall m | m in c'.net ensures MessageOk(c.members, c'.hist, m) && SenderOk(c', m) {
      if m in c.net {
        OldMessages(c, c', v, n', sent, crashed, m);
      }
    }
  }

  lemma SameHistory(v: nat, h: History)
    ensures Extends(v, h, h)
  {
  }

  // ---------------------------------------------------------------- sending

  lemma CommittedPrefixShrinks(h: History, log: seq<LogEntry>, index: nat, index': nat, term: nat)
    requires CommittedPrefix(h, log, index, term) && index' <= index
    ensures CommittedPrefix(h, log, index', term)
  {
    if index' != 0 {
      var cm :| CommitWitness(h, log, index, term, cm);
      assert log[..index'] == log[..index][..index'] == h.leaderLog[cm.term][..index'];
      assert CommitWitness(h, log, index', term, cm);
    }
  }

  lemma StepSendAE(c: Cluster, c': Cluster, v: nat, to: nat, count: nat)
    requires Inv(c) && Enabled(c, SendAE(v, to, count)) && c' == Do(c, SendAE(v, to, count))
    ensures Inv(c') && Extends(v, c.hist, c'.hist)
  {
    var n := c.nodes[v];
    assert NodeOk(c.members, c.hist, v, n);
    var req := BuildAE(n, to, count);
    CommittedPrefixShrinks(c.hist, n.log, n.commitIndex, req.commitIndex, n.term);
    assert AERequestOk(c.members, c.hist, v, to, req);
    SameHistory(v, c.hist);
    var n' := Switched(n, to, false);
    SwitchKeeps(c.members, c.hist, v, n, n', to);
    Assemble(c, c', v, n', {AEReq(v, c.incs[v], to, req)}, false);
  }

  lemma StepSendRV(c: Cluster, c': Cluster, v: nat, to: nat)
    requires Inv(c) && Enabled(c, SendRV(v, to)) && c' == Do(c, SendRV(v, to))
    ensures Inv(c') && Extends(v, c.hist, c'.hist)
  {
    var n := c.nodes[v];
    assert NodeOk(c.members, c.hist, v, n);
    SameHistory(v, c.hist);
    var n' := Switched(n, to, false);
    SwitchKeeps(c.members, c.hist, v, n, n', to);
    Assemble(c, c', v, n', {RVReq(v, c.incs[v], to, BuildRV(n))}, false);
  }

  lemma StepFail(c: Cluster, c': Cluster, v: nat, n': Node, to: nat)
    requires Inv(c) && IsServer(c, v) && to in c.nodes[v].peers && c' == Put(c, v, n')
    requires n' == AECallFailed(c.nodes[v], to) || n' == Switched(c.nodes[v], to, true)
    ensures Inv(c') && Extends(v, c.hist, c'.hist)
  {
    assert NodeOk(c.members, c.hist, v, c.nodes[v]);
    SwitchKeeps(c.members, c.hist, v, c.nodes[v], n', to);
    SameHistory(v, c.hist);
    Assemble(c, c', v, n', {}, false);
  }

  // ---------------------------------------------------------------- receiving

  lemma NodeAndMessage(c: Cluster, m: Message)
    requires Inv(c) && Deliverable(c, m)
    ensures HistoryOk(c.members, c.hist) && NOBODY !in c.members
    ensures NodeOk(c.members, c.hist, m.to, c.nodes[m.to]) && MessageOk(c.members, c.hist, m)
  {
  }

  /** Answering AppendEntries: the server's new state and the answer are sound. */
  lemma AnswerAE(c: Cluster, c': Cluster, m: Message, n': Node, resp: AEResponse)
    requires Inv(c) && m.AEReq? && Deliverable(c, m)
    requires Moves(c, c', m.to, n', {AEResp(m.from, m.inc, resp)}, false)
    requires HistoryOk(c.members, c'.hist) && Extends(m.to, c.hist, c'.hist)
    requires NodeOk(c.members, c'.hist, m.to, n')
    requires AEResponseOk(c.members, c'.hist, m.from, resp) && resp.savedTerm == m.aeReq.term && m.from != m.to
    ensures Inv(c')
  {
    assert SenderOk(c, m);
    Assemble(c, c', m.to, n', {AEResp(m.from, m.inc, resp)}, false);
  }

  lemma RefuseAE(members: set<nat>, h: History, v: nat, n: Node, from: nat, req: AERequest)
    requires HistoryOk(members, h) && NOBODY !in members && NodeOk(members, h, v, n)
    requires AERequestOk(members, h, from, v, req)
    requires req.term < n.term || !LogIsOk(n.log, req)
    ensures var out := HandleAERequest(n, req);
            && out.AEReply? && !out.response.success && out.response.savedTerm == req.term
            && NodeOk(members, h, v, out.node) && LeadKept(n, out.node)
            && AEResponseOk(members, h, from, out.response)
  {
    if n.term <= req.term {
      FollowLeaderOk(members, h, v, n, from, req);
    }
  }

  lemma StaleAE(c: Cluster, c': Cluster, m: Message, maxDecrStep: nat)
    requires Inv(c) && m.AEReq? && Deliverable(c, m) && c' == DoDeliver(c, m, maxDecrStep)
    requires m.aeReq.term < c.nodes[m.to].term || !LogIsOk(c.nodes[m.to].log, m.aeReq)
    ensures HandleAERequest(c.nodes[m.to], m.aeReq).AEReply?
    ensures Inv(c') && Extends(m.to, c.hist, c'.hist)
  {
    var n := c.nodes[m.to];
    NodeAndMessage(c, m);
    RefuseAE(c.members, c.hist, m.to, n, m.from, m.aeReq);
    var out := HandleAERequest(n, m.aeReq);
    SameHistory(m.to, c.hist);
    AnswerAE(c, c', m, out.node, out.response);
  }

  lemma TakenAnswer(members: set<nat>, h: History, v: nat, n: Node, from: nat, req: AERequest)
    requires HistoryOk(members, h) && NOBODY !in members && NodeOk(members, h, v, n)
    requires AERequestOk(members, h, from, v, req) && n.term <= req.term && LogIsOk(n.log, req)
    ensures var index := req.prevLogIndex + |req.entries|;
            AEResponseOk(members, RecordAck(h, req.term, v, index), from, TakenResponse(n, req))
    ensures LeadKept(n, TakenNode(n, req))
  {
    FollowLeaderOk(members, h, v, n, from, req);
    assert n.role.Leader? ==> LeaderOk(h, n);
  }

  lemma TakenParts(members: set<nat>, h: History, h': History, v: nat, n: Node, n': Node, from: nat, req: AERequest)
    requires HistoryOk(members, h) && NOBODY !in members && NodeOk(members, h, v, n)
    requires AERequestOk(members, h, from, v, req) && n.term <= req.term && LogIsOk(n.log, req)
    requires h' == RecordAck(h, req.term, v, req.prevLogIndex + |req.entries|) && n' == TakenNode(n, req)
    ensures HistoryOk(members, h') && Extends(v, h, h') && NodeOk(members, h', v, n')
    ensures AEResponseOk(members, h', from, TakenResponse(n, req)) && LeadKept(n, n')
  {
    AckHistory(members, h, h', v, n, req.term, req.prevLogIndex + |req.entries|);
    AcceptAE(members, h, h', v, n, n', from, req);
    TakenAnswer(members, h, v, n, from, req);
  }

  lemma FreshAE(c: Cluster, c': Cluster, m: Message, maxDecrStep: nat)
    requires Inv(c) && m.AEReq? && Deliverable(c, m) && c' == DoDeliver(c, m, maxDecrStep)
    requires c.nodes[m.to].term <= m.aeReq.term && LogIsOk(c.nodes[m.to].log, m.aeReq)
    ensures HandleAERequest(c.nodes[m.to], m.aeReq).AEReply?
    ensures Inv(c') && Extends(m.to, c.hist, c'.hist)
  {
    var n, req := c.nodes[m.to], m.aeReq;
    NodeAndMessage(c, m);
    AcceptReplies(c.members, c.hist, m.to, n, m.from, req);
    var n', resp := TakenNode(n, req), TakenResponse(n, req);
    TakenParts(c.members, c.hist, c'.hist, m.to, n, n', m.from, req);
    AnswerAE(c, c', m, n', resp);
  }

  /** The incarnation that asked is still leader when the answer of its term arrives. */
  lemma AnswerFindsLeader(c: Cluster, m: Message)
    requires Inv(c) && m.AEResp? && Deliverable(c, m)
    ensures c.nodes[m.to].term == m.aeResp.savedTerm ==> c.nodes[m.to].role.Leader?
  {
    assert SenderOk(c, m);
  }

  lemma StepAEResp(c: Cluster, c': Cluster, m: Message, maxDecrStep: nat)
    requires Inv(c) && m.AEResp? && Deliverable(c, m) && c' == DoDeliver(c, m, maxDecrStep)
    ensures Inv(c') && Extends(m.to, c.hist, c'.hist)
  {
    var v, n := m.to, c.nodes[m.to];
    NodeAndMessage(c, m);
    SameHistory(v, c.hist);
    if ReceiveAEResponse(n, m.aeResp, maxDecrStep).Now? {
      var n1 := Switched(n, m.aeResp.id, true);
      SwitchKeeps(c.members, c.hist, v, n, n1, m.aeResp.id);
      AEResponseKeeps(c.members, c.hist, v, n1, m.aeResp, maxDecrStep);
      Assemble(c, c', v, ReceiveAEResponse(n, m.aeResp, maxDecrStep).node, {}, false);
    } else {
      CrashKeeps(c.members, c.hist, v, n, n, n.term, n.vote);
      MovesCrash(c, c', v, n);
      Assemble(c, c', v, Restart(n), {}, true);
    }
  }

  lemma MovesVote(c: Cluster, c': Cluster, m: Message, d: nat, n': Node, resp: RVResponse)
    requires m.RVReq? && Deliverable(c, m) && c' == DoDeliver(c, m, d) && (n', resp) == HandleRVRequest(c.nodes[m.to], m.rvReq)
    ensures Moves(c, c', m.to, n', {RVResp(m.from, m.inc, resp)}, false)
    ensures c'.hist == if resp.voteGranted then RecordGrant(c.hist, m.rvReq.term, m.to, m.from, c.nodes[m.to].log) else c.hist
  {
  }

  lemma StepRVReq(c: Cluster, c': Cluster, m: Message, maxDecrStep: nat)
    requires Inv(c) && m.RVReq? && Deliverable(c, m) && c' == DoDeliver(c, m, maxDecrStep)
    ensures Inv(c') && Extends(m.to, c.hist, c'.hist)
  {
    var n := c.nodes[m.to];
    NodeAndMessage(c, m);
    var (n', resp) := HandleRVRequest(n, m.rvReq);
    MovesVote(c, c', m, maxDecrStep, n', resp);
    if resp.voteGranted {
      VoteGiven(c.members, c.hist, c'.hist, m.to, n, n', m.from, m.rvReq, resp);
    } else {
      VoteRefused(c.members, c.hist, m.to, n, n', m.from, m.rvReq, resp);
      SameHistory(m.to, c.hist);
    }
    Assemble(c, c', m.to, n', {RVResp(m.from, m.inc, resp)}, false);
  }

  lemma StepRVResp(c: Cluster, c': Cluster, m: Message, maxDecrStep: nat)
    requires Inv(c) && m.RVResp? && Deliverable(c, m) && c' == DoDeliver(c, m, maxDecrStep)
    ensures Inv(c') && Extends(m.to, c.hist, c'.hist)
  {
    var v, n := m.to, c.nodes[m.to];
    NodeAndMessage(c, m);
    var n1 := Switched(n, m.rvResp.id, true);
    SwitchKeeps(c.members, c.hist, v, n, n1, m.rvResp.id);
    RVResponseKeeps(c.members, c.hist, v, n1, m.rvResp);
    SameHistory(v, c.hist);
    Assemble(c, c', v, ReceiveRVResponse(n, m.rvResp), {}, false);
  }

  lemma StepDeliver(c: Cluster, c': Cluster, m: Message, maxDecrStep: nat)
    requires Inv(c) && Deliverable(c, m) && c' == DoDeliver(c, m, maxDecrStep)
    ensures Inv(c') && Extends(m.to, c.hist, c'.hist)
  {
    match m
    case AEReq(_, _, to, req) =>
      if req.term < c.nodes[to].term || !LogIsOk(c.nodes[to].log, req) {
        StaleAE(c, c', m, maxDecrStep);
      } else {
        FreshAE(c, c', m, maxDecrStep);
      }
    case AEResp(_, _, _) => StepAEResp(c, c', m, maxDecrStep);
    case RVReq(_, _, _, _) => StepRVReq(c, c', m, maxDecrStep);
    case RVResp(_, _, _) => StepRVResp(c, c', m, maxDecrStep);
  }

  // ---------------------------------------------------------------- acting

  lemma StepClient(c: Cluster, c': Cluster, v: nat, requests: seq<LogEntry>)
    requires Inv(c) && IsServer(c, v) && c' == DoClient(c, v, requests)
    ensures Inv(c') && Extends(v, c.hist, c'.hist)
  {
    var n, n' := c.nodes[v], HandleClientRequests(c.nodes[v], requests);
    assert NodeOk(c.members, c.hist, v, n);
    if n.role.Leader? {
      ClientKeeps(c.members, c.hist, c'.hist, v, n, n', requests);
    } else {
      SameHistory(v, c.hist);
    }
    Assemble(c, c', v, n', {}, false);
  }

  lemma MovesAdvance(c: Cluster, c': Cluster, v: nat, n': Node, m: nat)
    requires IsServer(c, v) && AdvanceCommit(c.nodes[v], m) == Now(n') && c' == DoAdvance(c, v, m)
    ensures Moves(c, c', v, n', {}, false)
    ensures n' == c.nodes[v] ==> c'.hist == c.hist
    ensures n' != c.nodes[v] ==>
              c'.hist == c.hist.(commits := c.hist.commits + {Commit(n'.term, m, Holding(c.nodes[v], m))})
  {
  }

  lemma StepAdvance(c: Cluster, c': Cluster, v: nat, m: nat)
    requires Inv(c) && Enabled(c, Advance(v, m)) && c' == DoAdvance(c, v, m)
    ensures AdvanceCommit(c.nodes[v], m).Now?
    ensures Inv(c') && Extends(v, c.hist, c'.hist)
  {
    var n := c.nodes[v];
    assert NodeOk(c.members, c.hist, v, n);
    MajorityInLog(c.hist, n, m);
    var n' := AdvanceCommit(n, m).node;
    MovesAdvance(c, c', v, n', m);
    if n' == n {
      SameHistory(v, c.hist);
    } else {
      AdvanceKeeps(c.members, c.hist, c'.hist, v, n, n', m);
    }
    Assemble(c, c', v, n', {}, false);
  }

  lemma MovesLead(c: Cluster, c': Cluster, v: nat, n': Node)
    requires IsServer(c, v) && n' == BecomeLeader(c.nodes[v]) && n' != c.nodes[v] && c' == DoLead(c, v)
    ensures Moves(c, c', v, n', {}, false) && c'.hist == RecordLeader(c.hist, n', Voters(c.nodes[v]))
  {
  }

  lemma StepLead(c: Cluster, c': Cluster, v: nat)
    requires Inv(c) && IsServer(c, v) && c' == DoLead(c, v)
    ensures Inv(c') && Extends(v, c.hist, c'.hist)
  {
    var n := c.nodes[v];
    if BecomeLeader(n) == n {
      SameHistory(v, c.hist);
    } else {
      assert NodeOk(c.members, c.hist, v, n);
      var n' := BecomeLeader(n);
      MovesLead(c, c', v, n');
      LeadKeeps(c.members, c.hist, c'.hist, v, n, n');
      Assemble(c, c', v, n', {}, false);
    }
  }

  lemma MovesElect(c: Cluster, c': Cluster, v: nat, n': Node)
    requires IsServer(c, v) && !c.nodes[v].role.Leader? && n' == ElectionTimeout(c.nodes[v]) && c' == DoElect(c, v)
    ensures Moves(c, c', v, n', {}, false) && c'.hist == ElectHistory(c.hist, v, c.nodes[v])
  {
  }

  lemma StepElect(c: Cluster, c': Cluster, v: nat)
    requires Inv(c) && IsServer(c, v) && c' == DoElect(c, v)
    ensures Inv(c') && Extends(v, c.hist, c'.hist)
  {
    var n := c.nodes[v];
    if n.role.Leader? {
      SameHistory(v, c.hist);
    } else {
      assert NodeOk(c.members, c.hist, v, n);
      var n' := ElectionTimeout(n);
      MovesElect(c, c', v, n');
      ElectKeeps(c.members, c.hist, c'.hist, v, n, n');
      Assemble(c, c', v, n', {}, false);
    }
  }

  lemma StepLoseAuthority(c: Cluster, c': Cluster, v: nat)
    requires Inv(c) && IsServer(c, v) && c' == Put(c, v, LeadershipTimeout(c.nodes[v]))
    ensures Inv(c') && Extends(v, c.hist, c'.hist)
  {
    var n := c.nodes[v];
    assert NodeOk(c.members, c.hist, v, n);
    if n.role.Leader? {
      StepDownOk(c.members, c.hist, v, n, n.term + 1);
    }
    SameHistory(v, c.hist);
    Assemble(c, c', v, LeadershipTimeout(n), {}, false);
  }

  lemma StepCrash(c: Cluster, c': Cluster, v: nat, n': Node, newTerm: nat, vote: nat)
    requires Inv(c) && IsServer(c, v) && n' == c.nodes[v].(term := newTerm, vote := vote)
    requires c.nodes[v].term <= newTerm && (c.nodes[v].term == newTerm ==> vote == c.nodes[v].vote)
    requires c' == CrashWith(c, v, n')
    ensures Inv(c') && Extends(v, c.hist, c'.hist)
  {
    var n := c.nodes[v];
    assert NodeOk(c.members, c.hist, v, n);
    CrashKeeps(c.members, c.hist, v, n, n', newTerm, vote);
    SameHistory(v, c.hist);
    MovesCrash(c, c', v, n');
    Assemble(c, c', v, Restart(n'), {}, true);
  }

  lemma MovesCrash(c: Cluster, c': Cluster, v: nat, n': Node)
    requires IsServer(c, v) && c.nodes[v].term <= n'.term && c' == CrashWith(c, v, n')
    ensures Moves(c, c', v, Restart(n'), {}, true) && c'.hist == c.hist
  {
  }

  lemma StepCrashInTruncate(c: Cluster, c': Cluster, m: Message)
    requires Inv(c) && Enabled(c, CrashInTruncate(m)) && c' == Do(c, CrashInTruncate(m))
    ensures Inv(c') && Extends(m.to, c.hist, c'.hist)
  {
    var v, n := m.to, c.nodes[m.to];
    NodeAndMessage(c, m);
    TruncateCrashKeeps(c.members, c.hist, v, n, m.from, m.aeReq);
    SameHistory(v, c.hist);
    var n' := FollowLeader(n, m.aeReq).(log := TruncatedLog(n.log, m.aeReq));
    MovesCrash(c, c', v, n');
    Assemble(c, c', v, Restart(n'), {}, true);
  }

  function Actor(s: Step): nat {
    match s
    case Deliver(m, _) => m.to
    case CrashInTruncate(m) => m.to
    case _ => s.v
  }

  /** Every step keeps the invariant and only adds to the history. */
  lemma StepKeepsInv(c: Cluster, c': Cluster, s: Step)
    requires Inv(c) && Enabled(c, s) && c' == Do(c, s)
    ensures Inv(c') && Extends(Actor(s), c.hist, c'.hist)
  {
    match s
    case SendAE(v, to, count) => StepSendAE(c, c', v, to, count);
    case SendRV(v, to) => StepSendRV(c, c', v, to);
    case Deliver(m, d) => StepDeliver(c, c', m, d);
    case FailAE(v, to) => StepFail(c, c', v, AECallFailed(c.nodes[v], to), to);
    case FailRV(v, to) => StepFail(c, c', v, Switched(c.nodes[v], to, true), to);
    case Client(v, requests) => StepClient(c, c', v, requests);
    case Advance(v, m) => StepAdvance(c, c', v, m);
    case Lead(v) => StepLead(c, c', v);
    case Elect(v) => StepElect(c, c', v);
    case LoseAuthority(v) => StepLoseAuthority(c, c', v);
    case Crash(v) => StepCrash(c, c', v, c.nodes[v], c.nodes[v].term, c.nodes[v].vote);
    case CrashInTermWrite(v, newTerm, cleared) =>
      var vote := if cleared then NOBODY else c.nodes[v].vote;
      StepCrash(c, c', v, c.nodes[v].(term := newTerm, vote := vote), newTerm, vote);
    case CrashInTruncate(m) => StepCrashInTruncate(c, c', m);
  }
}
