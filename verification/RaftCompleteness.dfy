/** Leader completeness: a committed entry is in the log of every leader of a later term. */
module RaftCompleteness {
  import opened RaftTypes
  import opened RaftCore
  import opened RaftCluster
  import opened RaftInvariant
  import opened RaftLogs

  lemma {:induction false} LeaderCompleteness(members: set<nat>, h: History, cm: Commit, t: nat)
    requires HistoryOk(members, h) && cm in h.commits && t in h.leaderLog && cm.term < t
    ensures cm.term in h.leaderLog && cm.index <= |h.leaderLog[cm.term]|
    ensures h.leaderLog[cm.term][..cm.index] <= h.leaderLog[t]
    ensures ElectionOk(members, h, t) && h.leaderLog[cm.term][..cm.index] <= h.candLog[Key(t, h.leaderOf[t])]
    decreases t
  {
    assert CommitOk(members, h, cm) && ElectionOk(members, h, t);
    var p := h.leaderLog[cm.term][..cm.index];
    var v := QuorumsMeet(members, cm.quorum, h.electors[t]);
    var a, k := Key(cm.term, v), Key(t, v);
    assert Retained(h.grants[k].log, h.leaderLog, a.term, cm.index, k.term - 1);
    forall t' | t' in h.leaderLog && cm.term < t' < t ensures p <= h.leaderLog[t'] {
      LeaderCompleteness(members, h, cm, t');
    }
    CandidateHasCommitted(members, h, cm, t, v);
    PrefixTrans(p, h.candLog[Key(t, h.leaderOf[t])], h.leaderLog[t]);
  }

  /** The voter held the committed prefix, so the candidate it found up to date holds it too. */
  lemma CandidateHasCommitted(members: set<nat>, h: History, cm: Commit, t: nat, v: nat)
    requires HistoryOk(members, h) && cm in h.commits && CommitOk(members, h, cm)
    requires t in h.leaderLog && ElectionOk(members, h, t) && v in h.electors[t] && cm.term < t
    requires h.leaderLog[cm.term][..cm.index] <= h.grants[Key(t, v)].log
    requires forall t' :: t' in h.leaderLog && cm.term < t' < t ==>
               h.leaderLog[cm.term][..cm.index] <= h.leaderLog[t']
    ensures h.leaderLog[cm.term][..cm.index] <= h.candLog[Key(t, h.leaderOf[t])]
  {
    var L := h.leaderLog;
    var p := L[cm.term][..cm.index];
    var g := h.grants[Key(t, v)].log;
    var kc := Key(t, h.leaderOf[t]);
    var cl := h.candLog[kc];
    assert GrantOk(members, h, Key(t, v)) && CandOk(members, h, kc);
    assert TermLogOk(cm.term, L);
    LastTermBounds(g, L);
    LastTermBounds(cl, L);
    assert g[cm.index - 1] == p[cm.index - 1];
    var last := LastTerm(cl);
    assert cm.term <= LastTerm(g) <= last;
    if last == cm.term {
      PrefixOfBoth(p, cl, L[last]);
    } else {
      assert cl[|cl| - 1].term == last;
      assert L[last][|cl| - 1] == cl[|cl| - 1];
      assert p <= L[last];
      LaterTermBeyond(p, L[last], |cl|, cm.term);
      PrefixOfBoth(p, cl, L[last]);
    }
  }

  lemma LaterTermBeyond(p: seq<LogEntry>, log: seq<LogEntry>, n: nat, term: nat)
    requires p <= log && TermsUpTo(p, term) && 1 <= n <= |log| && term < log[n - 1].term
    ensures |p| < n
  {
  }

  /** What is committed under a term lies in the log of the leader of any later or equal term. */
  lemma CommittedInLeaderLog(members: set<nat>, h: History, log: seq<LogEntry>, index: nat, term: nat, t: nat)
    requires HistoryOk(members, h) && CommittedPrefix(h, log, index, term)
    requires t in h.leaderLog && term <= t
    ensures index <= |log| && index <= |h.leaderLog[t]| && log[..index] == h.leaderLog[t][..index]
  {
    if index != 0 {
      var cm :| CommitWitness(h, log, index, term, cm);
      assert CommitOk(members, h, cm);
      if cm.term < t {
        LeaderCompleteness(members, h, cm, t);
        var p := h.leaderLog[cm.term][..cm.index];
        assert log[..index] == p[..index] == h.leaderLog[t][..index];
      }
    }
  }

  /** It even lay in the log with which that leader stood for election. */
  lemma CommittedInCandidate(members: set<nat>, h: History, log: seq<LogEntry>, index: nat, term: nat, t: nat)
    requires HistoryOk(members, h) && CommittedPrefix(h, log, index, term) && t in h.leaderLog && term < t
    ensures ElectionOk(members, h, t)
    ensures index <= |log| && log[..index] <= h.candLog[Key(t, h.leaderOf[t])]
  {
    assert ElectionOk(members, h, t);
    if index != 0 {
      var cm :| CommitWitness(h, log, index, term, cm);
      assert CommitOk(members, h, cm);
      LeaderCompleteness(members, h, cm, t);
      var p := h.leaderLog[cm.term][..cm.index];
      assert log[..index] == p[..index];
      PrefixTrans(p[..index], p, h.candLog[Key(t, h.leaderOf[t])]);
    }
  }
}
