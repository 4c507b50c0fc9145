/** A run of two servers in which an answer stops the leader. The answer to a vote request of an earlier term
    arrives when the leader waits for its first AppendEntries; that turns the switch on, the request goes out
    twice, both are rejected, and the follower has caught up before the second rejection arrives. */
module RaftLateAnswer {
  import opened RaftTypes
  import opened RaftCore
  import opened RaftCluster
  import opened RaftPaths
  import opened RaftProbing

  const BOTH: set<nat> := {1, 2}
  const START := InitialCluster(BOTH)

  function One(term: nat, vote: nat, log: seq<LogEntry>, role: Role, peer: Peer): Node {
    Node(1, term, vote, log, role, 0, NOBODY, map[2 := peer])
  }

  function Two(term: nat, vote: nat, log: seq<LogEntry>, leaderId: nat): Node {
    Node(2, term, vote, log, Follower, 0, leaderId, map[1 := FRESH_PEER])
  }

  /** Neither server has crashed. */
  predicate Is(c: Cluster, a: Node, b: Node) {
    c.nodes == map[1 := a, 2 := b] && c.incs == map[1 := 0, 2 := 0]
  }

  // ---------------------------------------------------------------- single steps

  predicate Goes(steps: seq<Step>, a: Node, b: Node, net: set<Message>) {
    Legal(START, steps) && Is(EndOf(START, steps), a, b) && net <= EndOf(START, steps).net
  }

  lemma Go(steps: seq<Step>, s: Step, c: Cluster, a: Node, b: Node, net: set<Message>)
    requires Legal(START, steps) && Enabled(EndOf(START, steps), s) && c == Do(EndOf(START, steps), s) && Is(c, a, b) && net <= c.net
    ensures Goes(steps + [s], a, b, net)
  {
    OneMore(START, steps, s);
  }

  lemma Starts()
    ensures Goes([], One(0, NOBODY, [], Follower, FRESH_PEER), Two(0, NOBODY, [], NOBODY), {})
  {
    var c := InitialCluster(BOTH);
    assert NewNode(BOTH, 1).peers == map[2 := FRESH_PEER] && NewNode(BOTH, 2).peers == map[1 := FRESH_PEER];
    assert c.nodes == map[1 := NewNode(BOTH, 1), 2 := NewNode(BOTH, 2)] && c.incs == map[1 := 0, 2 := 0];
  }

  lemma Act(c: Cluster, s: Step, a: Node, a': Node, b: Node)
    requires Is(c, a, b)
    requires match s
             case Elect(v) => v == 1 && !a.role.Leader? && a' == ElectionTimeout(a)
             case Lead(v) => v == 1 && a' == BecomeLeader(a)
             case LoseAuthority(v) => v == 1 && a' == LeadershipTimeout(a)
             case _ => false
    ensures Enabled(c, s) && Is(Do(c, s), a', b) && Do(c, s).net == c.net
  {
    assert c.nodes[1 := a'] == map[1 := a', 2 := b];
  }

  /** Server 1 does something on its own. */
  lemma Acts(steps: seq<Step>, s: Step, a: Node, a': Node, b: Node, net: set<Message>)
    requires Goes(steps, a, b, net)
    requires match s
             case Elect(v) => v == 1 && !a.role.Leader? && a' == ElectionTimeout(a)
             case Lead(v) => v == 1 && a' == BecomeLeader(a)
             case LoseAuthority(v) => v == 1 && a' == LeadershipTimeout(a)
             case _ => false
    ensures Goes(steps + [s], a', b, net)
  {
    Act(EndOf(START, steps), s, a, a', b);
    Go(steps, s, Do(EndOf(START, steps), s), a', b, net);
  }

  lemma SendsRV(steps: seq<Step>, a: Node, b: Node, net: set<Message>, m: Message)
    requires Goes(steps, a, b, net) && a.role.Candidate? && 2 in a.peers
    requires a.peers[2].armed && !a.peers[2].requestVoteDone && m == RVReq(1, 0, 2, BuildRV(a))
    ensures Goes(steps + [SendRV(1, 2)], Switched(a, 2, false), b, net + {m})
  {
    var c, s, a' := EndOf(START, steps), SendRV(1, 2), Switched(a, 2, false);
    assert c.nodes[1 := a'] == map[1 := a', 2 := b];
    Go(steps, s, Do(c, s), a', b, net + {m});
  }

  lemma SendsAE(steps: seq<Step>, a: Node, b: Node, net: set<Message>, count: nat, m: Message)
    requires Goes(steps, a, b, net) && a.role.Leader? && 2 in a.peers && a.peers[2].armed
    requires 1 <= a.peers[2].nextIndex && a.peers[2].nextIndex - 1 + count <= |a.log|
    requires (a.peers[2].suppressBulkData ==> count == 0) && m == AEReq(1, 0, 2, BuildAE(a, 2, count))
    ensures Goes(steps + [SendAE(1, 2, count)], Switched(a, 2, false), b, net + {m})
  {
    var c, s, a' := EndOf(START, steps), SendAE(1, 2, count), Switched(a, 2, false);
    assert c.nodes[1 := a'] == map[1 := a', 2 := b];
    Go(steps, s, Do(c, s), a', b, net + {m});
  }

  /** A request reaches server 2. */
  lemma Asks(steps: seq<Step>, d: nat, a: Node, b: Node, b': Node, net: set<Message>, m: Message, r: Message)
    requires Goes(steps, a, b, net) && m in net && m.to == 2
    requires match m
             case AEReq(_, _, _, req) => r.AEResp? && HandleAERequest(b, req) == AEReply(b', r.aeResp) && r == AEResp(m.from, m.inc, r.aeResp)
             case RVReq(_, _, _, req) => r.RVResp? && HandleRVRequest(b, req) == (b', r.rvResp) && r == RVResp(m.from, m.inc, r.rvResp)
             case _ => false
    ensures Goes(steps + [Deliver(m, d)], a, b', net + {r})
  {
    var c, s := EndOf(START, steps), Deliver(m, d);
    assert c.nodes[2 := b'] == map[1 := a, 2 := b'];
    Go(steps, s, Do(c, s), a, b', net + {r});
  }

  lemma Hear(c: Cluster, d: nat, a: Node, a': Node, b: Node, m: Message)
    requires Is(c, a, b) && m in c.net && m.to == 1
    requires match m
             case AEResp(_, inc, resp) => inc == 0 && resp.id in a.peers && ReceiveAEResponse(a, resp, d) == Now(a')
             case RVResp(_, inc, resp) => inc == 0 && resp.id in a.peers && ReceiveRVResponse(a, resp) == a'
             case _ => false
    ensures Enabled(c, Deliver(m, d)) && Is(Do(c, Deliver(m, d)), a', b) && Do(c, Deliver(m, d)).net == c.net
  {
    assert c.nodes[1 := a'] == map[1 := a', 2 := b];
  }

  /** An answer reaches server 1. */
  lemma Hears(steps: seq<Step>, d: nat, a: Node, a': Node, b: Node, net: set<Message>, m: Message)
    requires Goes(steps, a, b, net) && m in net && m.to == 1
    requires match m
             case AEResp(_, inc, resp) => inc == 0 && resp.id in a.peers && ReceiveAEResponse(a, resp, d) == Now(a')
             case RVResp(_, inc, resp) => inc == 0 && resp.id in a.peers && ReceiveRVResponse(a, resp) == a'
             case _ => false
    ensures Goes(steps + [Deliver(m, d)], a', b, net)
  {
    Hear(EndOf(START, steps), d, a, a', b, m);
    Go(steps, Deliver(m, d), Do(EndOf(START, steps), Deliver(m, d)), a', b, net);
  }

  // ---------------------------------------------------------------- what server 1 does

  lemma Three<T>(s: seq<T>, a: T, b: T, c: T)
    ensures s + [a] + [b] + [c] == s + [a, b, c]
  {
  }

  lemma Four<T>(s: seq<T>, a: T, b: T, c: T, d: T)
    ensures s + [a] + [b] + [c] + [d] == s + [a, b, c, d]
  {
  }

  lemma Only<T>(x: T)
    ensures {} + {x} == {x}
  {
  }

  lemma SwitchedOne(t: nat, vote: nat, log: seq<LogEntry>, role: Role, p: Peer, armed: bool)
    ensures Switched(One(t, vote, log, role, p), 2, armed) == One(t, vote, log, role, p.(armed := armed))
  {
  }

  lemma Stands(t: nat, vote: nat, log: seq<LogEntry>, role: Role, p: Peer)
    requires !role.Leader?
    ensures ElectionTimeout(One(t, vote, log, role, p))
            == One(t + 1, 1, log, Candidate, p.(requestVoteDone := false, haveVote := false, armed := true))
  {
    var n := One(t, vote, log, role, p);
    assert ElectionTimeout(n).peers == map[2 := p.(requestVoteDone := false, haveVote := false, armed := true)];
  }

  lemma Leads(t: nat, log: seq<LogEntry>, p: Peer)
    requires p.haveVote
    ensures BecomeLeader(One(t, 1, log, Candidate, p))
            == One(t, 1, log + [LogEntry(t, |log| + 1, true, [])], Leader,
                   p.(nextIndex := |log| + 1, matchIndex := 0, suppressBulkData := true, armed := true))
  {
    var n := One(t, 1, log, Candidate, p);
    assert Voters(n) == {1, 2};
    assert BecomeLeader(n).peers
        == map[2 := p.(nextIndex := |log| + 1, matchIndex := 0, suppressBulkData := true, armed := true)];
  }

  lemma Counted(t: nat, log: seq<LogEntry>, p: Peer)
    ensures ReceiveRVResponse(One(t, 1, log, Candidate, p), RVResponse(t, true, 2, t))
            == One(t, 1, log, Candidate, p.(requestVoteDone := true, haveVote := true, armed := true))
  {
  }

  // ---------------------------------------------------------------- the run

  const E1 := LogEntry(1, 1, true, [])
  const E4 := LogEntry(4, 2, true, [])

  function Vote(term: nat, log: seq<LogEntry>): Message { RVReq(1, 0, 2, RVRequest(term, 1, |log|, LastTerm(log))) }
  function Grant(term: nat): Message { RVResp(1, 0, RVResponse(term, true, 2, term)) }
  const LATE := RVResp(1, 0, RVResponse(4, false, 2, 3))
  const PROBE1 := AEReq(1, 0, 2, AERequest(4, 1, 1, 1, [], 0))
  const NO := AEResp(1, 0, AEResponse(4, false, 2, 4, 1, 0, 0))
  const PROBE0 := AEReq(1, 0, 2, AERequest(4, 1, 0, 0, [], 0))
  const YES := AEResp(1, 0, AEResponse(4, true, 2, 4, 0, 0, 0))
  const BULK := AEReq(1, 0, 2, AERequest(4, 1, 0, 0, [E1], 0))
  const TAKEN := AEResp(1, 0, AEResponse(4, true, 2, 4, 0, 1, 1))

  /** A candidate asks server 2, gets its vote and leads. */
  function Winning(t: nat, log: seq<LogEntry>, d: nat): seq<Step> {
    [SendRV(1, 2), Deliver(Vote(t, log), d), Deliver(Grant(t), d), Lead(1)]
  }

  /** Leader of term 1 steps down, stands in term 3, and again in term 4 before term 3's vote is answered. */
  const STANDING := [LoseAuthority(1), Elect(1), SendRV(1, 2), Elect(1)]

  /** The first request goes out, the late vote answer arrives, the request goes out again. */
  function Twice(d: nat): seq<Step> {
    [SendAE(1, 2, 0), Deliver(Vote(3, [E1]), d), Deliver(LATE, d), SendAE(1, 2, 0)]
  }

  /** Both are rejected; after the first rejection the leader probes further back and is accepted. */
  function Rejecting(d: nat): seq<Step> {
    [Deliver(PROBE1, d), Deliver(PROBE1, d), Deliver(NO, d)]
  }

  function Accepting(d: nat): seq<Step> {
    [SendAE(1, 2, 0), Deliver(PROBE0, d), Deliver(YES, d)]
  }

  function CatchingUp(d: nat): seq<Step> {
    [SendAE(1, 2, 1), Deliver(BULK, d), Deliver(TAKEN, d)]
  }

  function LateSteps(d: nat): seq<Step> {
    [Elect(1)] + Winning(1, [], d) + STANDING + Winning(4, [E1], d) + Twice(d) + Rejecting(d) + Accepting(d) + CatchingUp(d)
  }

  lemma Wins(steps: seq<Step>, d: nat, t: nat, log: seq<LogEntry>, p: Peer, q: Peer,
             t2: nat, vote2: nat, net: set<Message>)
    requires Goes(steps, One(t, 1, log, Candidate, p), Two(t2, vote2, [], NOBODY), net)
    requires t2 < t && p.armed && !p.requestVoteDone
    requires q == Peer(true, true, 0, |log| + 1, true, true)
    ensures Goes(steps + Winning(t, log, d), One(t, 1, log + [LogEntry(t, |log| + 1, true, [])], Leader, q),
                 Two(t, 1, [], NOBODY), net)
  {
    var a, b, v, g := One(t, 1, log, Candidate, p), Two(t2, vote2, [], NOBODY), Vote(t, log), Grant(t);
    SendsRV(steps, a, b, net, v);
    var s1 := steps + [SendRV(1, 2)];
    var a1, b1 := One(t, 1, log, Candidate, p.(armed := false)), Two(t, 1, [], NOBODY);
    SwitchedOne(t, 1, log, Candidate, p, false);
    Asks(s1, d, a1, b, b1, net + {v}, v, g);
    var s2 := s1 + [Deliver(v, d)];
    var a2 := One(t, 1, log, Candidate, p.(requestVoteDone := true, haveVote := true, armed := true));
    Counted(t, log, p.(armed := false));
    Hears(s2, d, a1, a2, b1, net + {v} + {g}, g);
    var s3 := s2 + [Deliver(g, d)];
    Leads(t, log, a2.peers[2]);
    Acts(s3, Lead(1), a2, BecomeLeader(a2), b1, net + {v} + {g});
    Four(steps, SendRV(1, 2), Deliver(v, d), Deliver(g, d), Lead(1));
  }

  lemma StandsAgain(steps: seq<Step>, p: Peer, b: Node)
    requires Goes(steps, One(1, 1, [E1], Leader, p), b, {}) && p == Peer(true, true, 0, 1, true, true)
    ensures Goes(steps + STANDING, One(4, 1, [E1], Candidate, Peer(false, false, 0, 1, true, true)), b, {Vote(3, [E1])})
  {
    var a, q := One(1, 1, [E1], Leader, p), Peer(false, false, 0, 1, true, true);
    Acts(steps, LoseAuthority(1), a, One(2, NOBODY, [E1], Follower, p), b, {});
    var s1 := steps + [LoseAuthority(1)];
    Stands(2, NOBODY, [E1], Follower, p);
    Acts(s1, Elect(1), One(2, NOBODY, [E1], Follower, p), One(3, 1, [E1], Candidate, q), b, {});
    var s2 := s1 + [Elect(1)];
    SendsRV(s2, One(3, 1, [E1], Candidate, q), b, {}, Vote(3, [E1]));
    var s3, off := s2 + [SendRV(1, 2)], q.(armed := false);
    SwitchedOne(3, 1, [E1], Candidate, q, false);
    Stands(3, 1, [E1], Candidate, off);
    Only(Vote(3, [E1]));
    Acts(s3, Elect(1), One(3, 1, [E1], Candidate, off), One(4, 1, [E1], Candidate, q), b, {Vote(3, [E1])});
    Four(steps, LoseAuthority(1), Elect(1), SendRV(1, 2), Elect(1));
  }

  /** The leader of term 4 as far as it knows server 2. */
  function Leading(m: nat, next: nat, suppress: bool, armed: bool): Node {
    One(4, 1, [E1, E4], Leader, Peer(true, true, m, next, suppress, armed))
  }

  // What the two servers make of each request and its answer.

  lemma Exchange1(d: nat)
    ensures Switched(Leading(0, 2, true, true), 2, false) == Leading(0, 2, true, false)
    ensures BuildAE(Leading(0, 2, true, true), 2, 0) == PROBE1.aeReq
    ensures HandleRVRequest(Two(4, 1, [], NOBODY), Vote(3, [E1]).rvReq) == (Two(4, 1, [], NOBODY), LATE.rvResp)
    ensures ReceiveRVResponse(Leading(0, 2, true, false), LATE.rvResp) == Leading(0, 2, true, true)
  {
  }

  lemma Exchange2(d: nat)
    ensures HandleAERequest(Two(4, 1, [], NOBODY), PROBE1.aeReq) == AEReply(Two(4, 1, [], 1), NO.aeResp)
    ensures HandleAERequest(Two(4, 1, [], 1), PROBE1.aeReq) == AEReply(Two(4, 1, [], 1), NO.aeResp)
    ensures ReceiveAEResponse(Leading(0, 2, true, false), NO.aeResp, d) == Now(Leading(0, 1, true, true))
  {
  }

  lemma Exchange3(d: nat)
    ensures Switched(Leading(0, 1, true, true), 2, false) == Leading(0, 1, true, false)
    ensures BuildAE(Leading(0, 1, true, true), 2, 0) == PROBE0.aeReq
    ensures HandleAERequest(Two(4, 1, [], 1), PROBE0.aeReq) == AEReply(Two(4, 1, [], 1), YES.aeResp)
    ensures ReceiveAEResponse(Leading(0, 1, true, false), YES.aeResp, d) == Now(Leading(0, 1, false, true))
  {
  }

  lemma Exchange4(d: nat)
    ensures Switched(Leading(0, 1, false, true), 2, false) == Leading(0, 1, false, false)
    ensures BuildAE(Leading(0, 1, false, true), 2, 1) == BULK.aeReq
    ensures HandleAERequest(Two(4, 1, [], 1), BULK.aeReq) == AEReply(Two(4, 1, [E1], 1), TAKEN.aeResp)
    ensures ReceiveAEResponse(Leading(0, 1, false, false), TAKEN.aeResp, d) == Now(Leading(1, 2, false, true))
  {
    assert Merge([], 0, [E1]) == [E1];
  }

  lemma SendsTwice(steps: seq<Step>, d: nat)
    requires Goes(steps, Leading(0, 2, true, true), Two(4, 1, [], NOBODY), {Vote(3, [E1])})
    ensures Goes(steps + Twice(d), Leading(0, 2, true, false), Two(4, 1, [], NOBODY), {PROBE1})
  {
    var a, off, b, v := Leading(0, 2, true, true), Leading(0, 2, true, false), Two(4, 1, [], NOBODY), Vote(3, [E1]);
    Exchange1(d);
    SendsAE(steps, a, b, {v}, 0, PROBE1);
    var s1 := steps + [SendAE(1, 2, 0)];
    Asks(s1, d, off, b, b, {v} + {PROBE1}, v, LATE);
    var s2 := s1 + [Deliver(v, d)];
    Hears(s2, d, off, a, b, {v} + {PROBE1} + {LATE}, LATE);
    var s3 := s2 + [Deliver(LATE, d)];
    SendsAE(s3, a, b, {v} + {PROBE1} + {LATE}, 0, PROBE1);
    Four(steps, SendAE(1, 2, 0), Deliver(v, d), Deliver(LATE, d), SendAE(1, 2, 0));
  }

  lemma Rejects(steps: seq<Step>, d: nat)
    requires Goes(steps, Leading(0, 2, true, false), Two(4, 1, [], NOBODY), {PROBE1})
    ensures Goes(steps + Rejecting(d), Leading(0, 1, true, true), Two(4, 1, [], 1), {NO})
  {
    var a, b := Leading(0, 2, true, false), Two(4, 1, [], 1);
    Exchange2(d);
    Asks(steps, d, a, Two(4, 1, [], NOBODY), b, {PROBE1}, PROBE1, NO);
    var s1 := steps + [Deliver(PROBE1, d)];
    Asks(s1, d, a, b, b, {PROBE1} + {NO}, PROBE1, NO);
    var s2 := s1 + [Deliver(PROBE1, d)];
    Hears(s2, d, a, Leading(0, 1, true, true), b, {PROBE1} + {NO} + {NO}, NO);
    Three(steps, Deliver(PROBE1, d), Deliver(PROBE1, d), Deliver(NO, d));
  }

  lemma Accepts(steps: seq<Step>, d: nat)
    requires Goes(steps, Leading(0, 1, true, true), Two(4, 1, [], 1), {NO})
    ensures Goes(steps + Accepting(d), Leading(0, 1, false, true), Two(4, 1, [], 1), {NO})
  {
    var a, off, b := Leading(0, 1, true, true), Leading(0, 1, true, false), Two(4, 1, [], 1);
    Exchange3(d);
    SendsAE(steps, a, b, {NO}, 0, PROBE0);
    var s1 := steps + [SendAE(1, 2, 0)];
    Asks(s1, d, off, b, b, {NO} + {PROBE0}, PROBE0, YES);
    var s2 := s1 + [Deliver(PROBE0, d)];
    Hears(s2, d, off, Leading(0, 1, false, true), b, {NO} + {PROBE0} + {YES}, YES);
    Three(steps, SendAE(1, 2, 0), Deliver(PROBE0, d), Deliver(YES, d));
  }

  lemma CatchesUp(steps: seq<Step>, d: nat)
    requires Goes(steps, Leading(0, 1, false, true), Two(4, 1, [], 1), {NO})
    ensures Goes(steps + CatchingUp(d), Leading(1, 2, false, true), Two(4, 1, [E1], 1), {NO})
  {
    var a, off, b, b1 := Leading(0, 1, false, true), Leading(0, 1, false, false), Two(4, 1, [], 1), Two(4, 1, [E1], 1);
    Exchange4(d);
    SendsAE(steps, a, b, {NO}, 1, BULK);
    var s1 := steps + [SendAE(1, 2, 1)];
    Asks(s1, d, off, b, b1, {NO} + {BULK}, BULK, TAKEN);
    var s2 := s1 + [Deliver(BULK, d)];
    Hears(s2, d, off, Leading(1, 2, false, true), b1, {NO} + {BULK} + {TAKEN}, TAKEN);
    Three(steps, SendAE(1, 2, 1), Deliver(BULK, d), Deliver(TAKEN, d));
  }

  lemma LeadsTerm1(d: nat)
    ensures Goes([Elect(1)] + Winning(1, [], d), One(1, 1, [E1], Leader, Peer(true, true, 0, 1, true, true)),
                 Two(1, 1, [], NOBODY), {})
  {
    var p := FRESH_PEER;
    Starts();
    Stands(0, NOBODY, [], Follower, p);
    Acts([], Elect(1), One(0, NOBODY, [], Follower, p), One(1, 1, [], Candidate, p), Two(0, NOBODY, [], NOBODY), {});
    assert [] + [Elect(1)] == [Elect(1)] && [] + [E1] == [E1];
    Wins([Elect(1)], d, 1, [], p, Peer(true, true, 0, 1, true, true), 0, NOBODY, {});
  }

  lemma LeadsTerm4(steps: seq<Step>, d: nat)
    requires steps == [Elect(1)] + Winning(1, [], d)
    ensures Goes(steps + STANDING + Winning(4, [E1], d), Leading(0, 2, true, true), Two(4, 1, [], NOBODY), {Vote(3, [E1])})
  {
    LeadsTerm1(d);
    StandsAgain(steps, Peer(true, true, 0, 1, true, true), Two(1, 1, [], NOBODY));
    assert [E1] + [E4] == [E1, E4];
    Wins(steps + STANDING, d, 4, [E1], Peer(false, false, 0, 1, true, true), Peer(true, true, 0, 2, true, true), 1, 1,
         {Vote(3, [E1])});
  }

  lemma LateStepsGo(d: nat)
    ensures Goes(LateSteps(d), Leading(1, 2, false, true), Two(4, 1, [E1], 1), {NO})
  {
    var s0 := [Elect(1)] + Winning(1, [], d);
    LeadsTerm4(s0, d);
    var s1 := s0 + STANDING + Winning(4, [E1], d);
    SendsTwice(s1, d);
    Rejects(s1 + Twice(d), d);
    Accepts(s1 + Twice(d) + Rejecting(d), d);
    CatchesUp(s1 + Twice(d) + Rejecting(d) + Accepting(d), d);
  }

  /** A run of the cluster, at the end of which the second rejection fails an assertion of the leader. */
  lemma TwoOutstandingAbort(d: nat) returns (run: seq<Cluster>)
    ensures IsRun(BOTH, LateSteps(d), run)
    ensures Enabled(run[|LateSteps(d)|], Deliver(NO, d)) && Fails(run[|LateSteps(d)|], Deliver(NO, d))
  {
    LateStepsGo(d);
    StartIsRun(BOTH);
    run := RunGoesOn(BOTH, [], [START], LateSteps(d));
    assert [] + LateSteps(d) == LateSteps(d);
  }
}
