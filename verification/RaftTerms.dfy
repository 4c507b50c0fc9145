/** A term is led once, and while it is led only client requests add to its log. */
module RaftTerms {
  import opened RaftTypes
  import opened RaftCore
  import opened RaftCluster
  import opened RaftInvariant
  import opened RaftLogs
  import opened RaftSafety
  import opened RaftTheorems
  import RaftJudged
  import RaftProbing

  predicate LeadsTerm(c: Cluster, v: nat, t: nat) {
    v in c.nodes && c.nodes[v].role.Leader? && c.nodes[v].term == t
  }

  /** The term has been led, by v. */
  predicate LedBy(c: Cluster, v: nat, t: nat) {
    t in c.hist.leaderOf && c.hist.leaderOf[t] == v && t in c.hist.leaderLog
  }

  lemma LedOnce(c: Cluster, c': Cluster, s: Step, v: nat, t: nat)
    requires Inv(c) && Enabled(c, s) && c' == Do(c, s) && LedBy(c, v, t) && !LeadsTerm(c, v, t) && v in c.nodes
    ensures !LeadsTerm(c', v, t)
  {
    if LeadsTerm(c', v, t) {
      assert NodeOk(c.members, c.hist, v, c.nodes[v]);
      if !c.nodes[v].role.Leader? {
        RaftProbing.BecameLeader(c, c', s, v);
      } else {
        LeaderKeepsTerm(c, c', s, v);
      }
    }
  }

  lemma DeliverKeepsTerm(c: Cluster, c': Cluster, m: Message, d: nat)
    requires Deliverable(c, m) && c' == DoDeliver(c, m, d)
    requires c.nodes[m.to].role.Leader? && c'.nodes[m.to].role.Leader?
    ensures c'.nodes[m.to].term == c.nodes[m.to].term
  {
  }

  /** A leader that leads after a step leads the same term. */
  lemma LeaderKeepsTerm(c: Cluster, c': Cluster, s: Step, v: nat)
    requires Enabled(c, s) && c' == Do(c, s) && v in c.nodes && v in c'.nodes
    requires c.nodes[v].role.Leader? && c'.nodes[v].role.Leader?
    ensures c'.nodes[v].term == c.nodes[v].term
  {
    if v != Actor(s) {
      OthersStay(c, c', s, v);
    } else if s.Deliver? {
      DeliverKeepsTerm(c, c', s.m, s.maxDecrStep);
    }
  }

  predicate TakesRequests(c: Cluster, s: Step, v: nat) {
    s.Client? && s.v == v && v in c.nodes && c.nodes[v].role.Leader?
  }

  lemma RequestsElsewhere(c: Cluster, c': Cluster, w: nat, requests: seq<LogEntry>, v: nat, t: nat)
    requires Inv(c) && Inv(c') && IsServer(c, w) && c' == DoClient(c, w, requests) && LedBy(c, v, t)
    requires !LeadsTerm(c, v, t) || w != v
    ensures LedBy(c', v, t) && c'.hist.leaderLog[t] == c.hist.leaderLog[t]
  {
    assert NodeOk(c.members, c.hist, w, c.nodes[w]);
  }

  /** A candidate cannot win a term that has been led. */
  lemma NotWonAgain(members: set<nat>, h: History, h': History, w: nat, n: Node, n': Node, v: nat, t: nat)
    requires NodeOk(members, h, w, n) && NodeOk(members, h', w, n') && Extends(w, h, h') && n.role.Candidate?
    requires n'.role.Leader? && n'.term == n.term && t in h.leaderOf && h.leaderOf[t] == v
    ensures n'.term != t
  {
  }

  lemma ElectedElsewhere(c: Cluster, c': Cluster, w: nat, v: nat, t: nat)
    requires Inv(c) && Inv(c') && IsServer(c, w) && c' == DoLead(c, w) && LedBy(c, v, t)
    requires Extends(w, c.hist, c'.hist)
    ensures LedBy(c', v, t) && c'.hist.leaderLog[t] == c.hist.leaderLog[t]
  {
    var n, n' := c.nodes[w], BecomeLeader(c.nodes[w]);
    if n' != n {
      MovesLead(c, c', w, n');
      assert NodeOk(c.members, c.hist, w, n) && NodeOk(c'.members, c'.hist, w, n');
      NotWonAgain(c.members, c.hist, c'.hist, w, n, n', v, t);
    }
  }

  /** While a term is led, only client requests add to its log. */
  lemma OnlyRequestsAdd(c: Cluster, c': Cluster, s: Step, v: nat, t: nat)
    requires Inv(c) && Enabled(c, s) && c' == Do(c, s) && LedBy(c, v, t) && v in c.nodes
    requires !(TakesRequests(c, s, v) && LeadsTerm(c, v, t))
    ensures LedBy(c', v, t) && c'.hist.leaderLog[t] == c.hist.leaderLog[t]
  {
    StepKeepsInv(c, c', s);
    if s.Client? {
      RequestsElsewhere(c, c', s.v, s.requests, v, t);
    } else if s.Lead? {
      ElectedElsewhere(c, c', s.v, v, t);
    } else {
      RaftJudged.OthersKeepLeaders(c, c', s);
    }
  }

  lemma LeaderLogIs(c: Cluster, v: nat, t: nat)
    requires Inv(c) && LeadsTerm(c, v, t)
    ensures LedBy(c, v, t) && c.hist.leaderLog[t] == c.nodes[v].log
  {
    assert NodeOk(c.members, c.hist, v, c.nodes[v]);
  }
}
