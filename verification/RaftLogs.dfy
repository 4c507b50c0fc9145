/** Facts about logs and about histories that only grow, used by every step of the safety proof. */
module RaftLogs {
  import opened RaftTypes
  import opened RaftCore
  import opened RaftCluster
  import opened RaftInvariant

  // ---------------------------------------------------------------- prefixes

  lemma PrefixOfBoth(a: seq<LogEntry>, b: seq<LogEntry>, c: seq<LogEntry>)
    requires a <= c && b <= c && |a| <= |b|
    ensures a <= b
  {
    assert a == c[..|a|] && b == c[..|b|];
    assert b[..|a|] == c[..|a|];
  }

  lemma PrefixTrans(a: seq<LogEntry>, b: seq<LogEntry>, c: seq<LogEntry>)
    requires a <= b && b <= c
    ensures a <= c
  {
  }

  /** Terms never decrease along a log. */
  lemma TermsOrdered(log: seq<LogEntry>, L: TermLogs, i: nat, j: nat)
    requires LogOk(log, L) && TermLogsOk(L) && i <= j < |log|
    ensures log[i].term <= log[j].term
  {
    var t := log[j].term;
    assert LogOkAt(log, L, j);
    assert log[i] == log[..j + 1][i] == L[t][i];
    assert TermLogOk(t, L);
  }

  lemma LastTermBounds(log: seq<LogEntry>, L: TermLogs)
    requires LogOk(log, L) && TermLogsOk(L)
    ensures TermsUpTo(log, LastTerm(log))
    ensures log != [] ==> LastTerm(log) in L && log <= L[LastTerm(log)]
  {
    if log != [] {
      assert LogOkAt(log, L, |log| - 1);
      assert log[..|log|] == log;
      forall i | 0 <= i < |log| ensures log[i].term <= LastTerm(log) {
        TermsOrdered(log, L, i, |log| - 1);
      }
    }
  }

  /** Log matching: equal terms at an index mean equal logs up to that index. */
  lemma AgreeUpTo(a: seq<LogEntry>, b: seq<LogEntry>, L: TermLogs, i: nat)
    requires LogOk(a, L) && LogOk(b, L)
    requires i <= |a| && i <= |b| && TermAt(a, i) == TermAt(b, i)
    ensures a[..i] == b[..i]
  {
    if i > 0 {
      var t := a[i - 1].term;
      assert LogOkAt(a, L, i - 1) && LogOkAt(b, L, i - 1);
      assert a[..i] == L[t][..i] == b[..i];
    }
  }

  lemma LogOkPrefix(log: seq<LogEntry>, L: TermLogs, k: nat)
    requires LogOk(log, L) && k <= |log|
    ensures LogOk(log[..k], L)
  {
    forall i: nat | i < k ensures LogOkAt(log[..k], L, i) {
      assert LogOkAt(log, L, i);
      assert log[..k][i] == log[i] && log[..k][..i + 1] == log[..i + 1];
    }
  }

  // ---------------------------------------------------------------- growth of the leaders' logs

  ghost predicate Grows(L: TermLogs, L': TermLogs) {
    forall t :: t in L ==> t in L' && L[t] <= L'[t]
  }

  lemma LogOkGrows(log: seq<LogEntry>, L: TermLogs, L': TermLogs)
    requires LogOk(log, L) && Grows(L, L')
    ensures LogOk(log, L')
  {
    forall i: nat | i < |log| ensures LogOkAt(log, L', i) {
      assert LogOkAt(log, L, i);
      PrefixTrans(log[..i + 1], L[log[i].term], L'[log[i].term]);
    }
  }

  /** What a leader's log lacks of an older term, it lacks for good. */
  lemma LackStays(p: seq<LogEntry>, a: seq<LogEntry>, b: seq<LogEntry>, t: nat)
    requires a <= b && a != [] && LastTerm(a) == t
    requires forall i :: 0 <= i < |p| ==> p[i].term < t
    requires !(p <= a)
    ensures !(p <= b)
  {
    if |p| <= |a| {
      assert b[..|p|] == a[..|p|];
    } else {
      assert b[|a| - 1] == a[|a| - 1] != p[|a| - 1];
    }
  }

  lemma RetainedGrows(log: seq<LogEntry>, L: TermLogs, L': TermLogs, term: nat, i: nat, upTo: int, upTo': int)
    requires Retained(log, L, term, i, upTo) && Grows(L, L') && TermLogsOk(L) && upTo <= upTo'
    ensures Retained(log, L', term, i, upTo')
  {
    assert L[term][..i] == L'[term][..i];
    if !(L[term][..i] <= log) {
      var t :| t in L && term < t <= upTo && !(L[term][..i] <= L[t]);
      assert TermLogOk(t, L) && TermLogOk(term, L);
      LackStays(L[term][..i], L[t], L'[t], t);
    }
  }

  lemma CommittedPrefixGrows(h: History, h': History, log: seq<LogEntry>, index: nat, term: nat, log': seq<LogEntry>, term': nat)
    requires CommittedPrefix(h, log, index, term)
    requires Grows(h.leaderLog, h'.leaderLog) && h.commits <= h'.commits
    requires index <= |log| ==> index <= |log'| && log'[..index] == log[..index]
    requires term <= term'
    ensures CommittedPrefix(h', log', index, term')
  {
    if index != 0 {
      var cm :| CommitWitness(h, log, index, term, cm);
      assert h.leaderLog[cm.term] <= h'.leaderLog[cm.term];
      assert CommitWitness(h', log', index, term', cm);
    }
  }

  lemma CommittedPrefixLonger(h: History, h': History, log: seq<LogEntry>, index: nat, term: nat, log': seq<LogEntry>)
    requires CommittedPrefix(h, log, index, term) && log <= log'
    requires Grows(h.leaderLog, h'.leaderLog) && h.commits <= h'.commits
    ensures CommittedPrefix(h', log', index, term)
  {
    assert index <= |log| ==> log'[..index] == log[..index];
    CommittedPrefixGrows(h, h', log, index, term, log', term);
  }

  // ---------------------------------------------------------------- growth of the history

  ghost predicate LeadersGrow(v: nat, h: History, h': History) {
    && Grows(h.leaderLog, h'.leaderLog)
    && (forall t :: t in h.leaderOf ==> t in h'.leaderOf && h'.leaderOf[t] == h.leaderOf[t])
    && (forall t :: t in h'.leaderOf && t !in h.leaderOf ==> h'.leaderOf[t] == v)
    && (forall t :: t in h.electors ==> t in h'.electors && h'.electors[t] == h.electors[t])
    && (forall t :: t in h.leaderLog && h'.leaderLog[t] != h.leaderLog[t] ==> t in h.leaderOf && h.leaderOf[t] == v)
  }

  ghost predicate VotesGrow(v: nat, h: History, h': History) {
    && (forall k :: k in h.grants ==> k in h'.grants && h'.grants[k] == h.grants[k])
    && (forall k :: k in h.candLog ==> k in h'.candLog && h'.candLog[k] == h.candLog[k])
    && (forall k :: k in h'.grants && k.node != v ==> k in h.grants)
    && (forall k :: k in h'.candLog && k.node != v ==> k in h.candLog)
  }

  ghost predicate AcksGrow(v: nat, h: History, h': History) {
    && (forall k :: k in h.acked ==> k in h'.acked && h'.acked[k] >= h.acked[k])
    && (forall k :: k in h'.acked && k.node != v ==> k in h.acked && h'.acked[k] == h.acked[k])
  }

  /** The history has grown by something server v did. */
  ghost predicate Extends(v: nat, h: History, h': History) {
    LeadersGrow(v, h, h') && VotesGrow(v, h, h') && AcksGrow(v, h, h') && h.commits <= h'.commits
  }

  /** Nothing has been added about server u. */
  ghost predicate Untouched(u: nat, h: History, h': History) {
    && (forall k :: k in h'.grants && k.node == u ==> k in h.grants)
    && (forall k :: k in h'.candLog && k.node == u ==> k in h.candLog)
    && (forall k :: k in h'.acked && k.node == u ==> k in h.acked && h'.acked[k] == h.acked[k])
    && (forall t :: t in h.leaderLog && t in h.leaderOf && h.leaderOf[t] == u ==>
          t in h'.leaderLog && h'.leaderLog[t] == h.leaderLog[t])
    && (forall t :: t in h'.leaderOf && t !in h.leaderOf ==> h'.leaderOf[t] != u)
  }

  lemma OthersUntouched(v: nat, u: nat, h: History, h': History)
    requires Extends(v, h, h') && u != v
    ensures Untouched(u, h, h')
  {
  }

  lemma NodeFrame(members: set<nat>, v: nat, h: History, h': History, u: nat, n: Node)
    requires TermLogsOk(h.leaderLog) && NodeOk(members, h, u, n) && Extends(v, h, h') && Untouched(u, h, h')
    ensures NodeOk(members, h', u, n)
  {
    LogOkGrows(n.log, h.leaderLog, h'.leaderLog);
    AcksFrame(h, h', n);
    CommittedPrefixGrows(h, h', n.log, n.commitIndex, n.term, n.log, n.term);
    if n.role.Leader? {
      LeaderFrame(h, h', n);
    }
  }

  lemma LeaderFrame(h: History, h': History, n: Node)
    requires LeaderOk(h, n) && Untouched(n.id, h, h')
    requires forall t :: t in h.leaderOf ==> t in h'.leaderOf && h'.leaderOf[t] == h.leaderOf[t]
    requires forall k :: k in h.acked ==> k in h'.acked && h'.acked[k] >= h.acked[k]
    ensures LeaderOk(h', n)
  {
    forall p | p in n.peers ensures PeerOk(h', n, p) {
      assert PeerOk(h, n, p);
    }
  }

  lemma AcksFrame(h: History, h': History, n: Node)
    requires TermLogsOk(h.leaderLog) && Grows(h.leaderLog, h'.leaderLog) && AcksHeld(h, n)
    requires forall k :: k in h'.acked && k.node == n.id ==> k in h.acked && h'.acked[k] == h.acked[k]
    ensures AcksHeld(h', n)
  {
    forall k, i: nat | k in h'.acked && k.node == n.id && i <= h'.acked[k]
      ensures k.term <= n.term && Retained(n.log, h'.leaderLog, k.term, i, n.term)
    {
      RetainedGrows(n.log, h.leaderLog, h'.leaderLog, k.term, i, n.term, n.term);
    }
  }

  lemma MessageFrame(members: set<nat>, v: nat, h: History, h': History, m: Message)
    requires MessageOk(members, h, m) && Extends(v, h, h')
    ensures MessageOk(members, h', m)
  {
    match m
    case AEReq(from, _, to, r) =>
      var a, b := h.leaderLog[r.term], h'.leaderLog[r.term];
      assert a <= b;
      assert b[r.prevLogIndex..r.prevLogIndex + |r.entries|] == a[r.prevLogIndex..r.prevLogIndex + |r.entries|];
      CommittedPrefixGrows(h, h', a, r.commitIndex, r.term, b, r.term);
    case AEResp(_, _, _) =>
    case RVReq(_, _, _, _) =>
    case RVResp(_, _, _) =>
  }

  lemma ElectionFrame(members: set<nat>, v: nat, h: History, h': History, t: nat)
    requires t in h.leaderLog && ElectionOk(members, h, t) && Extends(v, h, h')
    ensures ElectionOk(members, h', t)
  {
    PrefixTrans(h.candLog[Key(t, h.leaderOf[t])], h.leaderLog[t], h'.leaderLog[t]);
  }

  lemma GrantFrame(members: set<nat>, v: nat, h: History, h': History, k: Key)
    requires k in h.grants && GrantOk(members, h, k) && Extends(v, h, h')
    ensures GrantOk(members, h', k)
  {
    LogOkGrows(h.grants[k].log, h.leaderLog, h'.leaderLog);
  }

  lemma CandFrame(members: set<nat>, v: nat, h: History, h': History, k: Key)
    requires k in h.candLog && CandOk(members, h, k) && Extends(v, h, h')
    ensures CandOk(members, h', k)
  {
    LogOkGrows(h.candLog[k], h.leaderLog, h'.leaderLog);
  }

  lemma CommitFrame(members: set<nat>, v: nat, h: History, h': History, cm: Commit)
    requires CommitOk(members, h, cm) && Extends(v, h, h')
    ensures CommitOk(members, h', cm)
  {
    assert h.leaderLog[cm.term] <= h'.leaderLog[cm.term];
  }

  /** No server has been credited with more before a vote it had already given. */
  ghost predicate AcksBeforeVotesFixed(h: History, h': History) {
    forall a, g {:trigger a in h'.acked, g in h.grants} ::
      a in h'.acked && g in h.grants && a.node == g.node && a.term < g.term
      ==> a in h.acked && h'.acked[a] == h.acked[a]
  }

  ghost predicate NewVotesRetain(h: History, h': History) {
    forall a, g, i: nat {:trigger Retained(h'.grants[g].log, h'.leaderLog, a.term, i, g.term - 1)} ::
      a in h'.acked && g in h'.grants && g !in h.grants && a.node == g.node && a.term < g.term
      && !h'.grants[g].late && i <= h'.acked[a]
      ==> Retained(h'.grants[g].log, h'.leaderLog, a.term, i, g.term - 1)
  }

  lemma VotersRetainGrows(v: nat, h: History, h': History)
    requires VotersRetain(h) && TermLogsOk(h.leaderLog) && Extends(v, h, h')
    requires AcksBeforeVotesFixed(h, h') && NewVotesRetain(h, h')
    ensures VotersRetain(h')
  {
    forall a, g, i: nat {:trigger Retained(h'.grants[g].log, h'.leaderLog, a.term, i, g.term - 1)}
      | a in h'.acked && g in h'.grants && a.node == g.node && a.term < g.term
        && !h'.grants[g].late && i <= h'.acked[a]
      ensures Retained(h'.grants[g].log, h'.leaderLog, a.term, i, g.term - 1)
    {
      if g in h.grants {
        assert Retained(h.grants[g].log, h.leaderLog, a.term, i, g.term - 1);
        RetainedGrows(h.grants[g].log, h.leaderLog, h'.leaderLog, a.term, i, g.term - 1, g.term - 1);
      }
    }
  }

  /** A grown history is sound when what has been added is. */
  lemma HistoryGrows(members: set<nat>, v: nat, h: History, h': History)
    requires HistoryOk(members, h) && Extends(v, h, h')
    requires TermLogsOk(h'.leaderLog) && h'.leaderOf.Keys == h'.leaderLog.Keys == h'.electors.Keys
    requires AcksBeforeVotesFixed(h, h') && NewVotesRetain(h, h')
    requires forall t {:trigger ElectionOk(members, h', t)} ::
               t in h'.leaderLog && t !in h.leaderLog ==> ElectionOk(members, h', t)
    requires forall k {:trigger GrantOk(members, h', k)} :: k in h'.grants && k !in h.grants ==> GrantOk(members, h', k)
    requires forall k {:trigger CandOk(members, h', k)} :: k in h'.candLog && k !in h.candLog ==> CandOk(members, h', k)
    requires forall k {:trigger AckOk(members, h', k)} ::
               k in h'.acked && !(k in h.acked && h.acked[k] == h'.acked[k]) ==> AckOk(members, h', k)
    requires forall cm {:trigger CommitOk(members, h', cm)} ::
               cm in h'.commits && cm !in h.commits ==> CommitOk(members, h', cm)
    ensures HistoryOk(members, h')
  {
    VotersRetainGrows(v, h, h');
    forall t | t in h'.leaderLog ensures ElectionOk(members, h', t) {
      if t in h.leaderLog {
        assert ElectionOk(members, h, t);
        ElectionFrame(members, v, h, h', t);
      }
    }
    forall k | k in h'.grants ensures GrantOk(members, h', k) {
      if k in h.grants {
        assert GrantOk(members, h, k);
        GrantFrame(members, v, h, h', k);
      }
    }
    forall k | k in h'.candLog ensures CandOk(members, h', k) {
      if k in h.candLog {
        assert CandOk(members, h, k);
        CandFrame(members, v, h, h', k);
      }
    }
    forall k | k in h'.acked ensures AckOk(members, h', k) {
      if k in h.acked && h.acked[k] == h'.acked[k] {
        assert AckOk(members, h, k);
        assert h.leaderLog[k.term] <= h'.leaderLog[k.term];
      }
    }
    forall cm | cm in h'.commits ensures CommitOk(members, h', cm) {
      if cm in h.commits {
        assert CommitOk(members, h, cm);
        CommitFrame(members, v, h, h', cm);
      }
    }
  }

  // ---------------------------------------------------------------- quorums

  lemma SubsetSize(a: set<nat>, b: set<nat>)
    requires a <= b
    ensures |a| <= |b|
  {
    assert b == a + (b - a);
    assert |b| == |a| + |b - a|;
  }

  /** Any two majorities share a server. */
  lemma QuorumsMeet(members: set<nat>, a: set<nat>, b: set<nat>) returns (v: nat)
    requires IsQuorum(members, a) && IsQuorum(members, b)
    ensures v in a && v in b
  {
    if a * b == {} {
      assert |a + b| == |a| + |b|;
      SubsetSize(a + b, members);
      assert false;
    }
    v :| v in a * b;
  }
}
