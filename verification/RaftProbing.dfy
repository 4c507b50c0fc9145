/** A leader looking for the point where a follower's log agrees with its own, within whole cluster runs.
    A call is one AppendEntries with its answer. Everything here holds as long as a leader makes its calls to a
    follower in turn, one after the other. The switch sees to that unless an answer to something else arrives in
    between, turns it on again, and another call is made. */
module RaftProbing {
  import opened Common
  import opened RaftTypes
  import opened RaftCore
  import opened RaftCluster
  import opened RaftInvariant
  import opened RaftLogs
  import opened RaftReceive
  import opened RaftAct
  import opened RaftSafety
  import opened RaftTheorems

  // ---------------------------------------------------------------- calls

  /** The last call from one server to another, with the answers that have been given to it. */
  datatype Call = Idle | Waiting(inc: nat, req: AERequest, answers: set<AEResponse>)

  /** The server waits for an answer to a call of the term that it leads. */
  predicate Outstanding(c: Cluster, v: nat, call: Call) {
    v in c.nodes && call.Waiting? && c.nodes[v].role.Leader? && c.nodes[v].term == call.req.term
  }

  /** The call from v to u after a step. */
  function Tracked(c: Cluster, s: Step, v: nat, u: nat, call: Call): Call {
    if !Enabled(c, s) then call
    else
      match s
      case SendAE(w, to, count) =>
        if w == v && to == u then Waiting(c.incs[v], BuildAE(c.nodes[v], u, count), {}) else call
      case Deliver(m, _) =>
        if m.AEReq? && m.to == u && call.Waiting? && m == AEReq(v, call.inc, u, call.req)
           && HandleAERequest(c.nodes[u], call.req).AEReply?
        then call.(answers := call.answers + {HandleAERequest(c.nodes[u], call.req).response})
        else if m.AEResp? && m.to == v && m.aeResp.id == u && Outstanding(c, v, call)
                && m.aeResp.savedTerm == c.nodes[v].term
        then Idle
        else call
      case FailAE(w, to) => if w == v && to == u && Outstanding(c, v, call) then Idle else call
      case _ => call
  }

  function CallAt(steps: seq<Step>, run: seq<Cluster>, v: nat, u: nat, k: nat): Call
    requires k <= |steps| < |run|
  {
    if k == 0 then Idle else Tracked(run[k - 1], steps[k - 1], v, u, CallAt(steps, run, v, u, k - 1))
  }

  /** A call is made only when none is outstanding, and what comes back of the term led is the answer to the
      outstanding call. Nothing is said of votes, of answers of other terms and of calls that fail. */
  predicate InTurn(c: Cluster, s: Step, v: nat, u: nat, call: Call) {
    match s
    case SendAE(w, to, _) => w == v && to == u ==> !Outstanding(c, v, call)
    case Deliver(m, _) =>
      && m.AEResp? && m.to == v && m.aeResp.id == u && v in c.nodes && m.aeResp.savedTerm == c.nodes[v].term ==>
        Outstanding(c, v, call) && m.aeResp in call.answers
    case _ => true
  }

  ghost predicate InTurnAt(steps: seq<Step>, run: seq<Cluster>, v: nat, u: nat, k: nat) {
    k < |steps| < |run| && InTurn(run[k], steps[k], v, u, CallAt(steps, run, v, u, k))
  }

  ghost predicate CallsInTurn(steps: seq<Step>, run: seq<Cluster>, v: nat, u: nat) {
    forall k: nat {:trigger InTurnAt(steps, run, v, u, k)} :: k < |steps| ==> InTurnAt(steps, run, v, u, k)
  }

  // ---------------------------------------------------------------- what a call keeps

  /** A rejection in the leader's own term finds a gap, and a log that reaches what is known to be held. */
  ghost predicate AnswerOk(n: Node, u: nat, req: AERequest, r: AEResponse)
    requires u in n.peers
  {
    && r.id == u && r.savedTerm == req.term && r.savedPrevLogIndex == req.prevLogIndex
    && (r.term <= req.term && !r.success ==>
          n.peers[u].matchIndex <= r.lastLogIndex && n.peers[u].matchIndex + 1 < n.peers[u].nextIndex)
  }

  ghost predicate CallOk(c: Cluster, v: nat, u: nat, call: Call) {
    call.Waiting? ==>
      && IsServer(c, v) && u in c.nodes[v].peers && AEReq(v, call.inc, u, call.req) in c.net
      && (Outstanding(c, v, call) ==>
            && call.req.prevLogIndex + 1 == c.nodes[v].peers[u].nextIndex
            && forall r {:trigger AnswerOk(c.nodes[v], u, call.req, r)} ::
                 r in call.answers ==> AnswerOk(c.nodes[v], u, call.req, r))
  }

  /** What u has acknowledged to the leader of its own term, or of a later one, it holds. */
  lemma FollowerHolds(c: Cluster, v: nat, u: nat)
    requires Inv(c) && v in c.nodes && u in c.nodes && c.nodes[v].role.Leader? && u in c.nodes[v].peers
    requires c.nodes[u].term <= c.nodes[v].term
    ensures var n := c.nodes[v]; n.peers[u].matchIndex < n.peers[u].nextIndex <= |n.log| + 1
    ensures var n := c.nodes[v]; n.log[..n.peers[u].matchIndex] <= c.nodes[u].log
  {
    var n, f, h := c.nodes[v], c.nodes[u], c.hist;
    assert NodeOk(c.members, h, v, n) && NodeOk(c.members, h, u, f);
    assert LeaderOk(h, n) && PeerOk(h, n, u);
    var m := n.peers[u].matchIndex;
    if m != 0 {
      var key := Key(n.term, u);
      assert key in h.acked && key.node == f.id;
      assert Retained(f.log, h.leaderLog, key.term, m, f.term);
    }
  }

  lemma HeldIsAccepted(log: seq<LogEntry>, ll: seq<LogEntry>, m: nat, req: AERequest)
    requires m <= |ll| && ll[..m] <= log && req.prevLogIndex <= m && req.prevLogTerm == TermAt(ll, req.prevLogIndex)
    ensures LogIsOk(log, req)
  {
    if req.prevLogIndex != 0 {
      assert log[req.prevLogIndex - 1] == ll[..m][req.prevLogIndex - 1];
    }
  }

  /** A follower that rejects a probe lets the leader go back further. */
  lemma RejectionFindsGap(c: Cluster, v: nat, u: nat, call: Call, r: AEResponse)
    requires Inv(c) && CallOk(c, v, u, call) && Outstanding(c, v, call) && u in c.nodes
    requires HandleAERequest(c.nodes[u], call.req).AEReply? && r == HandleAERequest(c.nodes[u], call.req).response
    ensures AnswerOk(c.nodes[v], u, call.req, r)
  {
    var n, f, req := c.nodes[v], c.nodes[u], call.req;
    assert NodeOk(c.members, c.hist, u, f) && NodeOk(c.members, c.hist, v, n) && LeaderOk(c.hist, n);
    assert MessageOk(c.members, c.hist, AEReq(v, call.inc, u, req));
    if r.term <= req.term && !r.success {
      FollowerHolds(c, v, u);
      if req.prevLogIndex <= n.peers[u].matchIndex {
        HeldIsAccepted(f.log, n.log, n.peers[u].matchIndex, req);
      }
    }
  }

  // ---------------------------------------------------------------- every step keeps it

  lemma BecameLeader(c: Cluster, c': Cluster, s: Step, v: nat)
    requires Enabled(c, s) && c' == Do(c, s) && v in c.nodes && v in c'.nodes
    requires !c.nodes[v].role.Leader? && c'.nodes[v].role.Leader?
    ensures s.Lead? && c.nodes[v].role.Candidate? && c'.nodes[v].term == c.nodes[v].term
  {
  }

  /** A term is led once: a call that is over does not come back. */
  lemma NotRevived(c: Cluster, c': Cluster, s: Step, v: nat, u: nat, call: Call)
    requires Inv(c) && Enabled(c, s) && c' == Do(c, s) && CallOk(c, v, u, call) && !Outstanding(c, v, call)
    ensures !Outstanding(c', v, call)
  {
    if Outstanding(c', v, call) {
      var m := AEReq(v, call.inc, u, call.req);
      assert NodeOk(c.members, c.hist, v, c.nodes[v]) && MessageOk(c.members, c.hist, m) && SenderOk(c, m);
      TermsRise(c, c', s, v);
      BecameLeader(c, c', s, v);
    }
  }

  lemma TermsRise(c: Cluster, c': Cluster, s: Step, v: nat)
    requires Inv(c) && Enabled(c, s) && c' == Do(c, s) && v in c.nodes
    ensures v in c'.nodes && c.nodes[v].term <= c'.nodes[v].term
  {
    if v == Actor(s) {
      ActorMoves(c, c', s);
    } else {
      OthersStay(c, c', s, v);
    }
  }

  /** The step is about what v knows of u. */
  predicate Touches(s: Step, v: nat, u: nat) {
    match s
    case SendAE(w, to, _) => w == v && to == u
    case SendRV(w, to) => w == v && to == u
    case FailAE(w, to) => w == v && to == u
    case FailRV(w, to) => w == v && to == u
    case Deliver(m, _) =>
      m.to == v && ((m.AEResp? && m.aeResp.id == u) || (m.RVResp? && m.rvResp.id == u))
    case _ => false
  }

  lemma PeerKept(c: Cluster, c': Cluster, s: Step, v: nat, u: nat)
    requires Enabled(c, s) && c' == Do(c, s) && !Touches(s, v, u) && v in c.nodes && v in c'.nodes
    requires c.nodes[v].role.Leader? && c'.nodes[v].role.Leader? && u in c.nodes[v].peers
    ensures u in c'.nodes[v].peers && c'.nodes[v].peers[u] == c.nodes[v].peers[u]
  {
  }

  lemma StillThere(c: Cluster, c': Cluster, s: Step)
    requires Inv(c) && Enabled(c, s) && c' == Do(c, s)
    ensures c.net <= c'.net
  {
  }

  lemma CallStays(c: Cluster, c': Cluster, v: nat, u: nat, call: Call)
    requires Inv(c) && Inv(c') && c'.members == c.members && CallOk(c, v, u, call) && c.net <= c'.net
    requires Outstanding(c', v, call) ==>
               && Outstanding(c, v, call) && u in c'.nodes[v].peers
               && c'.nodes[v].peers[u].matchIndex == c.nodes[v].peers[u].matchIndex
               && c'.nodes[v].peers[u].nextIndex == c.nodes[v].peers[u].nextIndex
    ensures CallOk(c', v, u, call)
  {
    if call.Waiting? {
      assert NodeOk(c'.members, c'.hist, v, c'.nodes[v]) && NodeOk(c.members, c.hist, v, c.nodes[v]);
      if Outstanding(c', v, call) {
        forall r | r in call.answers ensures AnswerOk(c'.nodes[v], u, call.req, r) {
          assert AnswerOk(c.nodes[v], u, call.req, r);
        }
      }
    }
  }

  /** v does something with u. */
  lemma TouchKeeps(c: Cluster, c': Cluster, s: Step, v: nat, u: nat, call: Call)
    requires Inv(c) && Enabled(c, s) && c' == Do(c, s) && Inv(c') && CallOk(c, v, u, call) && Touches(s, v, u)
    requires InTurn(c, s, v, u, call)
    ensures CallOk(c', v, u, Tracked(c, s, v, u, call))
  {
    StillThere(c, c', s);
    StepKeepsMembers(c, c', s);
    if Tracked(c, s, v, u, call) == call {
      if !Outstanding(c, v, call) {
        NotRevived(c, c', s, v, u, call);
      }
      CallStays(c, c', v, u, call);
    }
  }

  /** The request of the call reaches u, which answers. */
  lemma AnswerKeeps(c: Cluster, c': Cluster, s: Step, v: nat, u: nat, call: Call, r: AEResponse)
    requires Inv(c) && CallOk(c, v, u, call) && CallOk(c', v, u, call) && call.Waiting? && u in c.nodes
    requires HandleAERequest(c.nodes[u], call.req).AEReply? && r == HandleAERequest(c.nodes[u], call.req).response
    requires v in c.nodes && v in c'.nodes && c'.nodes[v] == c.nodes[v]
    ensures CallOk(c', v, u, call.(answers := call.answers + {r}))
  {
    if Outstanding(c, v, call) {
      RejectionFindsGap(c, v, u, call, r);
    }
  }

  lemma TrackKeeps(c: Cluster, c': Cluster, s: Step, v: nat, u: nat, call: Call)
    requires Inv(c) && Enabled(c, s) && c' == Do(c, s) && CallOk(c, v, u, call)
    requires InTurn(c, s, v, u, call)
    ensures CallOk(c', v, u, Tracked(c, s, v, u, call))
  {
    StepKeepsInv(c, c', s);
    if Touches(s, v, u) {
      TouchKeeps(c, c', s, v, u, call);
    } else if call.Waiting? {
      StillThere(c, c', s);
      StepKeepsMembers(c, c', s);
      if Outstanding(c, v, call) {
        if Outstanding(c', v, call) {
          PeerKept(c, c', s, v, u);
        }
      } else {
        NotRevived(c, c', s, v, u, call);
      }
      CallStays(c, c', v, u, call);
      assert NodeOk(c.members, c.hist, v, c.nodes[v]);
      if Tracked(c, s, v, u, call) != call {
        OthersStay(c, c', s, v);
        AnswerKeeps(c, c', s, v, u, call, HandleAERequest(c.nodes[u], call.req).response);
      }
    }
  }

  ghost predicate CallOkAt(steps: seq<Step>, run: seq<Cluster>, v: nat, u: nat, k: nat) {
    k <= |steps| < |run| && CallOk(run[k], v, u, CallAt(steps, run, v, u, k))
  }

  lemma CallGoesOn(members: set<nat>, steps: seq<Step>, run: seq<Cluster>, v: nat, u: nat, k: nat)
    requires IsRun(members, steps, run) && CallsInTurn(steps, run, v, u) && k < |steps| && CallOkAt(steps, run, v, u, k)
    ensures CallOkAt(steps, run, v, u, k + 1)
  {
    RunInv(members, steps, run, k);
    RunStep(members, steps, run, k);
    assert InTurnAt(steps, run, v, u, k);
    TrackKeeps(run[k], run[k + 1], steps[k], v, u, CallAt(steps, run, v, u, k));
  }

  lemma RunCalls(members: set<nat>, steps: seq<Step>, run: seq<Cluster>, v: nat, u: nat, k: nat)
    requires IsRun(members, steps, run) && CallsInTurn(steps, run, v, u) && k < |run|
    ensures CallOkAt(steps, run, v, u, k)
  {
    var p := (i: nat) => CallOkAt(steps, run, v, u, i);
    forall i: nat | i < k ensures Goes(p, i) {
      if p(i) {
        CallGoesOn(members, steps, run, v, u, i);
      }
    }
    Climb(p, k);
  }

  // ---------------------------------------------------------------- no answer stops the leader

  /** Then no answer from u trips an assertion of v, whatever else happens to the two servers and to the others, and the match index stays below the next index. */
  lemma ProbingIsSafe(members: set<nat>, steps: seq<Step>, run: seq<Cluster>, v: nat, u: nat, k: nat)
    requires IsRun(members, steps, run) && CallsInTurn(steps, run, v, u) && k < |steps| && Enabled(run[k], steps[k])
    requires steps[k].Deliver? && steps[k].m.AEResp? && steps[k].m.to == v && steps[k].m.aeResp.id == u
    ensures ReceiveAEResponse(run[k].nodes[v], steps[k].m.aeResp, steps[k].maxDecrStep).Now?
    ensures run[k].nodes[v].role.Leader? ==>
              run[k].nodes[v].peers[u].matchIndex < run[k].nodes[v].peers[u].nextIndex
  {
    RunCalls(members, steps, run, v, u, k);
    RunInv(members, steps, run, k);
    RunStep(members, steps, run, k);
    var c, r, d := run[k], steps[k].m.aeResp, steps[k].maxDecrStep;
    var call := CallAt(steps, run, v, u, k);
    assert InTurnAt(steps, run, v, u, k);
    LateRejectionAborts(members, steps, run, k, steps[k].m, d);
    if c.nodes[v].term == r.savedTerm {
      assert AnswerOk(c.nodes[v], u, call.req, r);
    }
    assert NodeOk(c.members, c.hist, v, c.nodes[v]);
    if c.nodes[v].role.Leader? {
      assert PeerOk(c.hist, c.nodes[v], u);
    }
  }

  /** The step stops a process with a failed assertion. */
  predicate Fails(c: Cluster, s: Step)
    requires Enabled(c, s)
  {
    match s
    case Deliver(m, d) => (
      match m
      case AEReq(_, _, to, req) => HandleAERequest(c.nodes[to], req).AEAbort?
      case AEResp(to, _, resp) => ReceiveAEResponse(c.nodes[to], resp, d).Aborted?
      case _ => false)
    case Advance(v, m) => AdvanceCommit(c.nodes[v], m).Aborted?
    case _ => false
  }

  /** A run in which all calls are made in turn fails no assertion at all. */
  lemma NothingFails(members: set<nat>, steps: seq<Step>, run: seq<Cluster>, k: nat)
    requires IsRun(members, steps, run) && k < |steps|
    requires forall v, u {:trigger CallsInTurn(steps, run, v, u)} :: CallsInTurn(steps, run, v, u)
    ensures Enabled(run[k], steps[k]) && !Fails(run[k], steps[k])
  {
    RunStep(members, steps, run, k);
    match steps[k]
    case Deliver(m, _) =>
      if m.AEReq? {
        NoAbort(members, steps, run, k, m, 0, 0);
      } else if m.AEResp? {
        assert CallsInTurn(steps, run, m.to, m.aeResp.id);
        ProbingIsSafe(members, steps, run, m.to, m.aeResp.id, k);
      }
    case Advance(v, m) =>
      NoAbort(members, steps, run, k, RVResp(0, 0, RVResponse(0, false, 0, 0)), v, m);
    case _ =>
  }

  // ---------------------------------------------------------------- what the switch does

  /** Nothing turns the switch on while a call is outstanding but the answer to it, or its failure. */
  predicate InOrder(c: Cluster, s: Step, v: nat, u: nat, call: Call) {
    match s
    case Deliver(m, _) =>
      && (m.AEResp? && m.to == v && m.aeResp.id == u && v in c.nodes ==>
            if m.aeResp.savedTerm == c.nodes[v].term then Outstanding(c, v, call) && m.aeResp in call.answers
            else !Outstanding(c, v, call))
      && (m.RVResp? && m.to == v && m.rvResp.id == u ==> !Outstanding(c, v, call))
    case FailRV(w, to) => w == v && to == u ==> !Outstanding(c, v, call)
    case _ => true
  }

  ghost predicate InOrderAt(steps: seq<Step>, run: seq<Cluster>, v: nat, u: nat, k: nat) {
    k < |steps| < |run| && InOrder(run[k], steps[k], v, u, CallAt(steps, run, v, u, k))
  }

  ghost predicate AnswersInOrder(steps: seq<Step>, run: seq<Cluster>, v: nat, u: nat) {
    forall k: nat {:trigger InOrderAt(steps, run, v, u, k)} :: k < |steps| ==> InOrderAt(steps, run, v, u, k)
  }

  ghost predicate SwitchedOff(c: Cluster, v: nat, u: nat, call: Call) {
    Outstanding(c, v, call) ==> u in c.nodes[v].peers && !c.nodes[v].peers[u].armed
  }

  lemma OffIsInTurn(c: Cluster, s: Step, v: nat, u: nat, call: Call)
    requires Enabled(c, s) && SwitchedOff(c, v, u, call) && InOrder(c, s, v, u, call)
    ensures InTurn(c, s, v, u, call)
  {
  }

  lemma SwitchStaysOff(c: Cluster, c': Cluster, s: Step, v: nat, u: nat, call: Call)
    requires Inv(c) && Enabled(c, s) && c' == Do(c, s) && CallOk(c, v, u, call)
    requires SwitchedOff(c, v, u, call) && InOrder(c, s, v, u, call)
    ensures SwitchedOff(c', v, u, Tracked(c, s, v, u, call))
  {
    var call' := Tracked(c, s, v, u, call);
    if !s.SendAE? && Outstanding(c', v, call') {
      if !Outstanding(c, v, call) {
        NotRevived(c, c', s, v, u, call);
      } else if !Touches(s, v, u) {
        PeerKept(c, c', s, v, u);
      }
    }
  }

  ghost predicate OffAt(steps: seq<Step>, run: seq<Cluster>, v: nat, u: nat, k: nat) {
    CallOkAt(steps, run, v, u, k) && SwitchedOff(run[k], v, u, CallAt(steps, run, v, u, k))
  }

  lemma OffGoesOn(members: set<nat>, steps: seq<Step>, run: seq<Cluster>, v: nat, u: nat, k: nat)
    requires IsRun(members, steps, run) && AnswersInOrder(steps, run, v, u) && k < |steps| && OffAt(steps, run, v, u, k)
    ensures InTurnAt(steps, run, v, u, k) && OffAt(steps, run, v, u, k + 1)
  {
    RunInv(members, steps, run, k);
    RunStep(members, steps, run, k);
    assert InOrderAt(steps, run, v, u, k);
    var c, c', s, call := run[k], run[k + 1], steps[k], CallAt(steps, run, v, u, k);
    OffIsInTurn(c, s, v, u, call);
    TrackKeeps(c, c', s, v, u, call);
    SwitchStaysOff(c, c', s, v, u, call);
  }

  /** As long as nothing else turns it on, the switch lets one call out at a time. */
  lemma OneCallAtATime(members: set<nat>, steps: seq<Step>, run: seq<Cluster>, v: nat, u: nat)
    requires IsRun(members, steps, run) && AnswersInOrder(steps, run, v, u)
    ensures CallsInTurn(steps, run, v, u)
  {
    var p := (i: nat) => i <= |steps| && OffAt(steps, run, v, u, i);
    forall k: nat | k < |steps| ensures InTurnAt(steps, run, v, u, k) {
      forall i: nat | i < k ensures Goes(p, i) {
        if p(i) {
          OffGoesOn(members, steps, run, v, u, i);
        }
      }
      Climb(p, k);
      OffGoesOn(members, steps, run, v, u, k);
    }
  }

  // ---------------------------------------------------------------- probing comes to an end

  /** How far probing still is from what the follower is known to hold. */
  function Gap(n: Node, u: nat): int
    requires u in n.peers
  {
    n.peers[u].nextIndex - n.peers[u].matchIndex
  }

  /** The answer is to the probe at the current next index, in the leader's term. */
  predicate IsCurrent(n: Node, r: AEResponse)
    requires r.id in n.peers
  {
    n.role.Leader? && r.savedTerm == n.term && r.term <= n.term && r.savedPrevLogIndex + 1 == n.peers[r.id].nextIndex
  }

  /** Every rejection shrinks the gap. Once the gap is at most twice the largest step it is halved, but
      for a rejection by a follower whose log ends before the probe: there the leader goes back only to
      the end of that log. */
  lemma RejectionShrinks(n: Node, r: AEResponse, d: nat, n': Node)
    requires r.id in n.peers && d >= 1 && IsCurrent(n, r) && !r.success
    requires ReceiveAEResponse(n, r, d) == Now(n')
    ensures r.id in n'.peers && 1 <= Gap(n', r.id) < Gap(n, r.id)
    ensures var next, m := n.peers[r.id].nextIndex, n.peers[r.id].matchIndex;
            && (next > r.lastLogIndex + 1 ==> n'.peers[r.id].nextIndex == r.lastLogIndex + 1)
            && (Gap(n, r.id) <= 2 * d ==>
                  (Gap(n', r.id) <= (Gap(n, r.id) + 1) / 2 <==>
                   next <= r.lastLogIndex + 1 || r.lastLogIndex + 1 - m <= (Gap(n, r.id) + 1) / 2))
  {
  }

  /** For instance: nothing is known to be held, the probe is behind index 9, and the log ends at 8. */
  lemma ClampStopsHalving(n: Node, r: AEResponse)
    requires 2 in n.peers && n.peers[2] == Peer(true, true, 0, 10, true, false) && n.role.Leader?
    requires r == AEResponse(n.term, false, 2, n.term, 9, 8, 0)
    ensures ReceiveAEResponse(n, r, 100).Now? && Gap(n, 2) == 10
    ensures var n' := ReceiveAEResponse(n, r, 100).node; 2 in n'.peers && Gap(n', 2) == 9
  {
  }

  /** The step hands v a current answer of u. */
  predicate Answers(c: Cluster, s: Step, v: nat, u: nat, success: bool) {
    && s.Deliver? && s.m.AEResp? && s.m.to == v && s.m.aeResp.id == u && v in c.nodes && u in c.nodes[v].peers
    && IsCurrent(c.nodes[v], s.m.aeResp) && s.m.aeResp.success == success
  }

  function Rejections(steps: seq<Step>, run: seq<Cluster>, v: nat, u: nat, j: nat, k: nat): nat
    requires j <= k <= |steps| < |run|
    decreases k
  {
    if j == k then 0
    else Rejections(steps, run, v, u, j, k - 1) + if Answers(run[k - 1], steps[k - 1], v, u, false) then 1 else 0
  }

  predicate LeadsAt(run: seq<Cluster>, v: nat, term: nat, i: nat) {
    i < |run| && v in run[i].nodes && run[i].nodes[v].role.Leader? && run[i].nodes[v].term == term
  }

  /** The step fails no assertion and hands v no acceptance of u. */
  predicate NotAcceptedAt(steps: seq<Step>, run: seq<Cluster>, v: nat, u: nat, i: nat) {
    && i < |steps| < |run| && Enabled(run[i], steps[i]) && !Fails(run[i], steps[i])
    && !Answers(run[i], steps[i], v, u, true) && (steps[i].Deliver? ==> steps[i].maxDecrStep >= 1)
  }

  lemma GapKept(c: Cluster, c': Cluster, s: Step, v: nat, u: nat)
    requires Enabled(c, s) && c' == Do(c, s) && v in c.nodes && v in c'.nodes && u in c.nodes[v].peers
    requires c.nodes[v].role.Leader? && c'.nodes[v].role.Leader? && c'.nodes[v].term == c.nodes[v].term
    requires !Answers(c, s, v, u, false) && !Answers(c, s, v, u, true) && !Fails(c, s)
    ensures u in c'.nodes[v].peers && Gap(c'.nodes[v], u) == Gap(c.nodes[v], u)
  {
    if !Touches(s, v, u) {
      PeerKept(c, c', s, v, u);
    }
  }

  lemma RejectedStep(c: Cluster, c': Cluster, s: Step, v: nat, u: nat)
    requires Enabled(c, s) && c' == Do(c, s) && !Fails(c, s) && Answers(c, s, v, u, false) && s.maxDecrStep >= 1
    ensures v in c'.nodes && u in c'.nodes[v].peers && 1 <= Gap(c'.nodes[v], u) < Gap(c.nodes[v], u)
  {
    RejectionShrinks(c.nodes[v], s.m.aeResp, s.maxDecrStep, c'.nodes[v]);
  }

  lemma GapStep(members: set<nat>, steps: seq<Step>, run: seq<Cluster>, v: nat, u: nat, term: nat, k: nat)
    requires IsRun(members, steps, run) && k < |steps| && u in members && u != v
    requires LeadsAt(run, v, term, k) && LeadsAt(run, v, term, k + 1) && NotAcceptedAt(steps, run, v, u, k)
    ensures u in run[k].nodes[v].peers && u in run[k + 1].nodes[v].peers
    ensures Gap(run[k + 1].nodes[v], u) + (if Answers(run[k], steps[k], v, u, false) then 1 else 0) <= Gap(run[k].nodes[v], u)
  {
    RunStep(members, steps, run, k);
    AtMoment(members, steps, run, k, v);
    if Answers(run[k], steps[k], v, u, false) {
      RejectedStep(run[k], run[k + 1], steps[k], v, u);
    } else {
      GapKept(run[k], run[k + 1], steps[k], v, u);
    }
  }

  lemma GapOpen(members: set<nat>, steps: seq<Step>, run: seq<Cluster>, v: nat, u: nat, term: nat, k: nat)
    requires IsRun(members, steps, run) && u in members && u != v && LeadsAt(run, v, term, k)
    ensures u in run[k].nodes[v].peers && 1 <= Gap(run[k].nodes[v], u)
  {
    AtMoment(members, steps, run, k, v);
    assert PeerOk(run[k].hist, run[k].nodes[v], u);
  }

  ghost predicate Shrinks(steps: seq<Step>, run: seq<Cluster>, v: nat, u: nat, i: nat) {
    && i < |steps| < |run| && v in run[i].nodes && v in run[i + 1].nodes
    && u in run[i].nodes[v].peers && u in run[i + 1].nodes[v].peers
    && Gap(run[i + 1].nodes[v], u) + (if Answers(run[i], steps[i], v, u, false) then 1 else 0) <= Gap(run[i].nodes[v], u)
  }

  lemma {:induction false} AllShrink(steps: seq<Step>, run: seq<Cluster>, v: nat, u: nat, j: nat, k: nat)
    requires j < k <= |steps| < |run|
    requires forall i: nat {:trigger Shrinks(steps, run, v, u, i)} :: j <= i < k ==> Shrinks(steps, run, v, u, i)
    ensures Shrinks(steps, run, v, u, j) && Shrinks(steps, run, v, u, k - 1)
    ensures Rejections(steps, run, v, u, j, k) + Gap(run[k].nodes[v], u) <= Gap(run[j].nodes[v], u)
    decreases k
  {
    assert Shrinks(steps, run, v, u, j) && Shrinks(steps, run, v, u, k - 1);
    if j + 1 < k {
      AllShrink(steps, run, v, u, j, k - 1);
    }
  }

  /** Probing terminates: while v leads and before u has accepted, there are fewer rejections than the gap
      v started from, whatever else happens in the cluster. */
  lemma ProbingTerminates(members: set<nat>, steps: seq<Step>, run: seq<Cluster>, v: nat, u: nat,
                          term: nat, j: nat, k: nat)
    requires IsRun(members, steps, run) && j <= k < |run| && u in members && u != v
    requires forall i: nat {:trigger LeadsAt(run, v, term, i)} :: j <= i <= k ==> LeadsAt(run, v, term, i)
    requires forall i: nat {:trigger NotAcceptedAt(steps, run, v, u, i)} :: j <= i < k ==> NotAcceptedAt(steps, run, v, u, i)
    ensures LeadsAt(run, v, term, j) && u in run[j].nodes[v].peers
    ensures LeadsAt(run, v, term, k) && u in run[k].nodes[v].peers && 1 <= Gap(run[k].nodes[v], u)
    ensures Rejections(steps, run, v, u, j, k) + Gap(run[k].nodes[v], u) <= Gap(run[j].nodes[v], u)
  {
    assert LeadsAt(run, v, term, j) && LeadsAt(run, v, term, k);
    GapOpen(members, steps, run, v, u, term, j);
    GapOpen(members, steps, run, v, u, term, k);
    forall i: nat | j <= i < k ensures Shrinks(steps, run, v, u, i) {
      assert LeadsAt(run, v, term, i) && LeadsAt(run, v, term, i + 1) && NotAcceptedAt(steps, run, v, u, i);
      GapStep(members, steps, run, v, u, term, i);
    }
    if j < k {
      AllShrink(steps, run, v, u, j, k);
    }
  }

  /** Once the gap is closed, a follower that has not moved on to a later term accepts. */
  lemma ClosedGapAccepts(members: set<nat>, steps: seq<Step>, run: seq<Cluster>, v: nat, u: nat, k: nat)
    requires IsRun(members, steps, run) && CallsInTurn(steps, run, v, u) && k < |run| && u in run[k].nodes
    requires Outstanding(run[k], v, CallAt(steps, run, v, u, k)) && u in run[k].nodes[v].peers
    requires Gap(run[k].nodes[v], u) == 1 && run[k].nodes[u].term <= run[k].nodes[v].term
    ensures LogIsOk(run[k].nodes[u].log, CallAt(steps, run, v, u, k).req)
  {
    RunCalls(members, steps, run, v, u, k);
    RunInv(members, steps, run, k);
    var c, call := run[k], CallAt(steps, run, v, u, k);
    assert NodeOk(c.members, c.hist, v, c.nodes[v]) && LeaderOk(c.hist, c.nodes[v]);
    assert MessageOk(c.members, c.hist, AEReq(v, call.inc, u, call.req));
    FollowerHolds(c, v, u);
    HeldIsAccepted(c.nodes[u].log, c.nodes[v].log, c.nodes[v].peers[u].matchIndex, call.req);
  }
}
