/** One Raft server as the object it is: fields changed step by step by its handlers. Every handler is
    proved to compute the function of the same name in RaftCore, abort for abort, so that what holds of whole
    runs holds of it; and what it leaves in the fields and answers is said beside that in full. */
module RaftNode {
  import opened Common
  import opened RaftTypes
  import opened RaftCore
  import opened MajorityIndex

  // ---------------------------------------------------------------- the skip / truncate / append loop

  /** The log has another term at position j than the request that has its entries behind the first prev. */
  predicate Disputed(log: seq<LogEntry>, prev: nat, entries: seq<LogEntry>, j: nat) {
    prev <= j < |log| && j < prev + |entries| && log[j].term != entries[j - prev].term
  }

  ghost predicate AnyDisputed(log: seq<LogEntry>, prev: nat, entries: seq<LogEntry>, limit: nat) {
    exists j: nat :: j < limit && Disputed(log, prev, entries, j)
  }

  /** What the log has at position j after a request: what it had, if nothing up to there is in dispute, and
      else what was received. */
  ghost predicate MergedAt(log: seq<LogEntry>, prev: nat, entries: seq<LogEntry>, merged: seq<LogEntry>, j: nat) {
    && j < |merged|
    && if j < |log| && !AnyDisputed(log, prev, entries, j + 1) then merged[j] == log[j]
       else prev <= j < prev + |entries| && merged[j] == entries[j - prev]
  }

  /** The log after a request, position by position; what lay behind the received entries stays if nothing was
      in dispute. */
  ghost predicate IsMerged(log: seq<LogEntry>, prev: nat, entries: seq<LogEntry>, merged: seq<LogEntry>) {
    && |merged| == (if AnyDisputed(log, prev, entries, |log|) then prev + |entries| else Max(|log|, prev + |entries|))
    && forall j: nat {:trigger MergedAt(log, prev, entries, merged, j)} ::
         j < |merged| ==> MergedAt(log, prev, entries, merged, j)
  }

  lemma FirstDisputed(log: seq<LogEntry>, prev: nat, entries: seq<LogEntry>, limit: nat)
    requires prev <= |log|
    ensures var k := MatchLen(log, prev, entries);
            AnyDisputed(log, prev, entries, limit) <==> k < |entries| && prev + k < |log| && prev + k < limit
  {
    var k := MatchLen(log, prev, entries);
    if k < |entries| && prev + k < |log| && prev + k < limit {
      assert Disputed(log, prev, entries, prev + k);
    }
    if AnyDisputed(log, prev, entries, limit) {
      var j: nat :| j < limit && Disputed(log, prev, entries, j);
      assert k <= j - prev;
    }
  }

  lemma MergeAt(log: seq<LogEntry>, prev: nat, entries: seq<LogEntry>, merged: seq<LogEntry>, j: nat)
    requires prev <= |log| && merged == Merge(log, prev, entries) && j < |merged|
    ensures MergedAt(log, prev, entries, merged, j)
  {
    FirstDisputed(log, prev, entries, j + 1);
    var k := MatchLen(log, prev, entries);
    if k < |entries| {
      assert merged[j] == if j < prev + k then log[j] else entries[k..][j - (prev + k)];
    }
  }

  lemma MergeIs(log: seq<LogEntry>, prev: nat, entries: seq<LogEntry>, merged: seq<LogEntry>)
    requires prev <= |log| && merged == Merge(log, prev, entries)
    ensures IsMerged(log, prev, entries, merged)
  {
    FirstDisputed(log, prev, entries, |log|);
    forall j: nat | j < |merged| ensures MergedAt(log, prev, entries, merged, j) {
      MergeAt(log, prev, entries, merged, j);
    }
  }

  /** After i entries: all skipped so far, or the log cut at the first conflict and the rest set aside. */
  ghost predicate Taken(log0: seq<LogEntry>, prev: nat, entries: seq<LogEntry>, i: nat,
                        log: seq<LogEntry>, added: seq<LogEntry>)
  {
    && prev <= |log0| && i <= |entries|
    && var k := MatchLen(log0, prev, entries);
       if i <= k then log == log0 && added == [] && k == MatchFrom(log0, prev, entries, i)
       else log == log0[..prev + k] && added == entries[k..i]
  }

  /** The first conflict lies within what is committed. */
  ghost predicate ConflictCommitted(log0: seq<LogEntry>, prev: nat, entries: seq<LogEntry>, commitIndex: nat)
    requires prev <= |log0|
  {
    var k := MatchLen(log0, prev, entries);
    k < |entries| && prev + k < |log0| && prev + k + 1 <= commitIndex
  }

  lemma TakeSkip(log0: seq<LogEntry>, prev: nat, entries: seq<LogEntry>, i: nat, log: seq<LogEntry>, added: seq<LogEntry>)
    requires Taken(log0, prev, entries, i, log, added) && i < |entries|
    requires prev + i < |log| && log[prev + i].term == entries[i].term
    ensures Taken(log0, prev, entries, i + 1, log, added) && i < MatchLen(log0, prev, entries)
  {
  }

  lemma TakeAdd(log0: seq<LogEntry>, prev: nat, entries: seq<LogEntry>, i: nat, log: seq<LogEntry>, added: seq<LogEntry>,
                commitIndex: nat)
    requires Taken(log0, prev, entries, i, log, added) && i < |entries|
    requires prev + i < |log| ==> log[prev + i].term != entries[i].term
    ensures Taken(log0, prev, entries, i + 1, if prev + i < |log| then log[..prev + i] else log, added + [entries[i]])
    ensures MatchLen(log0, prev, entries) <= i
    ensures prev + i < |log| ==> (ConflictCommitted(log0, prev, entries, commitIndex) <==> prev + i + 1 <= commitIndex)
    ensures MatchLen(log0, prev, entries) == i && |log| <= prev + i ==>
              !ConflictCommitted(log0, prev, entries, commitIndex)
  {
    var k := MatchLen(log0, prev, entries);
    assert k <= i;
    assert entries[k..i + 1] == entries[k..i] + [entries[i]];
    if k == i {
      assert prev + i >= |log| ==> log0[..prev + k] == log0;
    }
  }

  lemma TakenAll(log0: seq<LogEntry>, prev: nat, entries: seq<LogEntry>, log: seq<LogEntry>, added: seq<LogEntry>)
    requires Taken(log0, prev, entries, |entries|, log, added)
    ensures log + added == Merge(log0, prev, entries)
  {
  }

  lemma {:induction false} AcceptedSnoc(requests: seq<LogEntry>, r: LogEntry, term: nat, last: nat)
    ensures var a := Accepted(requests, term, last);
            Accepted(requests + [r], term, last)
            == if r.term == term && r.index == last + |a| + 1 then a + [r] else a
  {
    if requests == [] {
      assert requests + [r] == [r];
    } else {
      assert (requests + [r])[1..] == requests[1..] + [r];
      if requests[0].term == term && requests[0].index == last + 1 {
        AcceptedSnoc(requests[1..], r, term, last + 1);
        var b := Accepted(requests[1..], term, last + 1);
        assert [requests[0]] + (b + [r]) == [requests[0]] + b + [r];
      } else {
        AcceptedSnoc(requests[1..], r, term, last);
      }
    }
  }

  // ---------------------------------------------------------------- loops over the peers

  /** The servers of `done` and n itself that are known to hold the entry at x. */
  ghost function HoldingAmong(n: Node, done: set<nat>, x: nat): set<nat>
    requires done <= n.peers.Keys
  {
    set v | v in done + {n.id} && MatchOf(n, v) >= x
  }

  ghost predicate CountsAmong(n: Node, done: set<nat>, indices: seq<nat>) {
    && done <= n.peers.Keys
    && forall x: nat {:trigger CountGE(indices, x)} :: CountGE(indices, x) == |HoldingAmong(n, done, x)|
  }

  lemma CountSelf(n: Node)
    ensures CountsAmong(n, {}, [|n.log|])
  {
    forall x: nat ensures CountGE([|n.log|], x) == |HoldingAmong(n, {}, x)| {
      assert HoldingAmong(n, {}, x) == if |n.log| >= x then {n.id} else {};
    }
  }

  lemma CountPeer(n: Node, done: set<nat>, indices: seq<nat>, p: nat)
    requires CountsAmong(n, done, indices) && p in n.peers && p !in done && n.id !in n.peers
    ensures CountsAmong(n, done + {p}, indices + [n.peers[p].matchIndex])
  {
    var m := n.peers[p].matchIndex;
    forall x: nat ensures CountGE(indices + [m], x) == |HoldingAmong(n, done + {p}, x)| {
      CountConcat(indices, [m], x);
      assert HoldingAmong(n, done + {p}, x) == HoldingAmong(n, done, x) + if m >= x then {p} else {};
    }
  }

  lemma CountEverybody(n: Node, done: set<nat>, indices: seq<nat>)
    requires CountsAmong(n, done, indices) && done == n.peers.Keys && n.id !in n.peers && |indices| == |done| + 1
    ensures |indices| == |Servers(n)|
    ensures forall x: nat :: CountGE(indices, x) == |Holding(n, x)|
  {
    forall x: nat ensures CountGE(indices, x) == |Holding(n, x)| {
      assert HoldingAmong(n, done, x) == Holding(n, x);
    }
  }

  ghost function VotersAmong(n: Node, done: set<nat>): set<nat> {
    {n.id} + set p | p in n.peers && p in done && n.peers[p].haveVote
  }

  lemma VotersStep(n: Node, done: set<nat>, p: nat)
    requires p in n.peers && p !in done && n.id !in n.peers
    ensures |VotersAmong(n, done + {p})| == |VotersAmong(n, done)| + if n.peers[p].haveVote then 1 else 0
  {
    assert VotersAmong(n, done + {p}) == VotersAmong(n, done) + if n.peers[p].haveVote then {p} else {};
  }

  lemma VotersEnds(n: Node)
    ensures VotersAmong(n, {}) == {n.id} && VotersAmong(n, n.peers.Keys) == Voters(n)
  {
  }

  /** In nanoseconds. */
  const MAX_ELECTION_TIMEOUT: nat := 2_000_000_000

  /** The peers heard of at or after a time. */
  function HeardSince(heard: map<nat, nat>, time: nat): set<nat> {
    set p | p in heard && heard[p] >= time
  }

  ghost function HeardAmong(heard: map<nat, nat>, done: set<nat>, time: nat): set<nat> {
    set p | p in heard && p in done && heard[p] >= time
  }

  lemma CountTime(heard: map<nat, nat>, done: set<nat>, times: seq<nat>, now: nat, p: nat)
    requires p in heard && p !in done
    requires forall x: nat {:trigger CountGE(times, x)} :: x <= now ==> CountGE(times, x) == |HeardAmong(heard, done, x)| + 1
    ensures forall x: nat {:trigger CountGE(times + [heard[p]], x)} ::
              x <= now ==> CountGE(times + [heard[p]], x) == |HeardAmong(heard, done + {p}, x)| + 1
  {
    forall x: nat | x <= now ensures CountGE(times + [heard[p]], x) == |HeardAmong(heard, done + {p}, x)| + 1 {
      CountConcat(times, [heard[p]], x);
      assert HeardAmong(heard, done + {p}, x) == HeardAmong(heard, done, x) + if heard[p] >= x then {p} else {};
    }
  }

  /** The servers that hold the entry at an index as far as n knows, itself included. */
  ghost function KnownToHold(n: Node, index: nat): set<nat> {
    (set p | p in n.peers && n.peers[p].matchIndex >= index) + if |n.log| >= index then {n.id} else {}
  }

  /** m is the largest index that more than half of the servers hold as far as n knows. */
  ghost predicate LargestHeld(n: Node, m: nat) {
    2 * |KnownToHold(n, m)| > |n.peers| + 1 >= 2 * |KnownToHold(n, m + 1)|
  }

  lemma KnownIsHolding(n: Node, index: nat)
    requires n.id !in n.peers
    ensures KnownToHold(n, index) == Holding(n, index) && |Servers(n)| == |n.peers| + 1
  {
    assert |n.peers.Keys + {n.id}| == |n.peers.Keys| + 1;
  }

  lemma HalfIs(x: nat, total: nat)
    ensures x >= Majority(total) <==> 2 * x > total
  {
  }

  lemma HeldIsMajority(n: Node, m: nat)
    requires n.id !in n.peers
    ensures LargestHeld(n, m) <==> IsMajorityIndex(n, m)
  {
    KnownIsHolding(n, m);
    KnownIsHolding(n, m + 1);
    HalfIs(|KnownToHold(n, m)|, |n.peers| + 1);
    HalfIs(|KnownToHold(n, m + 1)|, |n.peers| + 1);
  }

  /** A request to a peer: the entries from its next index on, and all that is committed of what the request
      brings or presupposes. */
  ghost predicate IsRequest(n: Node, to: nat, count: nat, req: AERequest) {
    && to in n.peers && 1 <= n.peers[to].nextIndex && n.peers[to].nextIndex - 1 + count <= |n.log|
    && var next := n.peers[to].nextIndex;
       && req.term == n.term && req.leaderId == n.id && req.prevLogIndex == next - 1
       && req.prevLogTerm == (if next == 1 then 0 else n.log[next - 2].term)
       && req.entries == n.log[next - 1..next - 1 + count]
       && req.commitIndex == (if n.commitIndex <= next - 1 + count then n.commitIndex else next - 1 + count)
  }

  lemma BuiltIs(n: Node, to: nat, count: nat)
    requires to in n.peers && 1 <= n.peers[to].nextIndex && n.peers[to].nextIndex - 1 + count <= |n.log|
    ensures IsRequest(n, to, count, BuildAE(n, to, count))
  {
  }

  /** The peers that granted their vote. */
  ghost function GrantedTo(n: Node): set<nat> {
    set p | p in n.peers && n.peers[p].haveVote
  }

  /** A candidate that more than half of the servers voted for, itself included. */
  ghost predicate HasWon(n: Node) {
    n.role.Candidate? && 2 * (1 + |GrantedTo(n)|) > |n.peers| + 1
  }

  lemma VotersAre(n: Node)
    requires n.id !in n.peers
    ensures |Voters(n)| == 1 + |GrantedTo(n)|
  {
    assert Voters(n) == {n.id} + GrantedTo(n);
  }

  /** Every peer is to be probed at `next`, and nothing is known of it but how it voted. */
  ghost predicate IsReset(peers: map<nat, Peer>, next: nat, peers': map<nat, Peer>) {
    && peers'.Keys == peers.Keys
    && forall p {:trigger peers'[p]} :: p in peers' ==>
         peers'[p] == Peer(peers[p].requestVoteDone, peers[p].haveVote, 0, next, true, true)
  }

  lemma LeadIs(n: Node, n': Node)
    requires n.id !in n.peers
    requires if HasWon(n) then
               && n' == n.(role := Leader, log := n'.log, peers := n'.peers)
               && n'.log == n.log + [LogEntry(n.term, |n.log| + 1, true, [])] && IsReset(n.peers, |n.log| + 1, n'.peers)
             else n' == n
    ensures n' == BecomeLeader(n)
  {
    VotersAre(n);
    HalfIs(|Voters(n)|, |n.peers| + 1);
    assert HasWon(n) ==> n'.peers == BecomeLeader(n).peers;
  }

  /** The peers heard of within the timeout. */
  function Recent(heard: map<nat, nat>, now: nat): set<nat> {
    set p | p in heard && heard[p] + 2_000_000_000 > now
  }

  lemma RecentIs(heard: map<nat, nat>, now: nat)
    ensures Recent(heard, now) == if now >= MAX_ELECTION_TIMEOUT then HeardSince(heard, now - MAX_ELECTION_TIMEOUT + 1) else heard.Keys
  {
  }

  class RaftServer {
    const id: nat
    // on disk
    var term: nat
    var vote: nat
    var log: seq<LogEntry>
    // lost in a crash
    var role: Role
    var commitIndex: nat
    var leaderId: nat
    var peers: map<nat, Peer>

    function View(): Node
      reads this
    {
      Node(id, term, vote, log, role, commitIndex, leaderId, peers)
    }

    /** A server is never among its own peers. */
    predicate Valid()
      reads this
    {
      id !in peers
    }

    /** Starts a process on what is on disk. */
    constructor (n: Node, members: set<nat>)
      requires n.peers.Keys == members - {n.id}
      ensures Valid() && View() == Restart(n)
      ensures id == n.id && term == n.term && vote == n.vote && log == n.log
      ensures role == Follower && commitIndex == 0 && leaderId == 0 && peers.Keys == members - {n.id}
      ensures forall p :: p in peers ==> peers[p] == Peer(false, false, 0, 1, true, true)
    {
      id, term, vote, log := n.id, n.term, n.vote, n.log;
      role, commitIndex, leaderId := Follower, 0, NOBODY;
      peers := map p | p in members && p != n.id :: FRESH_PEER;
      new;
      assert peers == Restart(n).peers;
    }

    method DoStepDown(newTerm: nat)
      requires Valid() && (term < newTerm || (term == newTerm && role.Candidate?))
      modifies this
      ensures Valid() && View() == StepDown(old(View()), newTerm)
      ensures role == Follower && term == newTerm && log == old(log) && commitIndex == old(commitIndex) && peers == old(peers)
      ensures vote == (if newTerm > old(term) then 0 else old(vote))
      ensures leaderId == (if newTerm > old(term) then 0 else old(leaderId))
    {
      role := Follower;
      if term < newTerm {
        term := newTerm;
        vote := NOBODY;
        leaderId := NOBODY;
      }
    }

    // -------------------------------------------------------------- AppendEntries

    /** One entry of a request: skipped, or set aside after the log has been cut before it. */
    method TakeEntry(ghost log0: seq<LogEntry>, prev: nat, ghost entries: seq<LogEntry>, i: nat, entry: LogEntry,
                     added: seq<LogEntry>)
      returns (aborted: bool, added': seq<LogEntry>)
      requires Taken(log0, prev, entries, i, log, added) && i < |entries| && entry == entries[i] && entry.index == prev + 1 + i
      requires MatchLen(log0, prev, entries) < i ==> !ConflictCommitted(log0, prev, entries, commitIndex)
      modifies this`log
      ensures aborted ==> ConflictCommitted(log0, prev, entries, commitIndex)
      ensures !aborted ==> Taken(log0, prev, entries, i + 1, log, added')
      ensures !aborted && MatchLen(log0, prev, entries) < i + 1 ==> !ConflictCommitted(log0, prev, entries, commitIndex)
    {
      aborted, added' := false, added;
      if entry.index <= |log| && entry.term == TermAt(log, entry.index) {
        TakeSkip(log0, prev, entries, i, log, added);
      } else {
        TakeAdd(log0, prev, entries, i, log, added, commitIndex);
        if entry.index <= |log| {
          if entry.index <= commitIndex {
            return true, added;
          }
          log := log[..entry.index - 1];
        }
        added' := added + [entry];
      }
    }

    /** The skip / truncate / append loop. */
    method TakeEntries(req: AERequest) returns (aborted: bool)
      requires LogIsOk(log, req)
      modifies this`log
      ensures aborted <==> !Contiguous(req.prevLogIndex, req.entries)
                           || ConflictCommitted(old(log), req.prevLogIndex, req.entries, commitIndex)
      ensures !aborted ==> log == Merge(old(log), req.prevLogIndex, req.entries)
    {
      var prev, entries := req.prevLogIndex, req.entries;
      ghost var log0 := log;
      var added := [];
      var i := 0;
      while i < |entries|
        invariant 0 <= i <= |entries| && Taken(log0, prev, entries, i, log, added)
        invariant forall j :: 0 <= j < i ==> entries[j].index == prev + 1 + j
        invariant MatchLen(log0, prev, entries) < i ==> !ConflictCommitted(log0, prev, entries, commitIndex)
      {
        if entries[i].index != prev + 1 + i {
          return true;
        }
        aborted, added := TakeEntry(log0, prev, entries, i, entries[i], added);
        if aborted {
          return;
        }
        i := i + 1;
      }
      TakenAll(log0, prev, entries, log, added);
      log := log + added;
      return false;
    }

    /** The sender of a request that is not of an earlier term is the leader; there can be no other. */
    method FollowSender(req: AERequest) returns (aborted: bool)
      requires Valid() && req.term >= term
      modifies this
      ensures Valid() && (aborted <==> FollowLeader(old(View()), req).leaderId != req.leaderId)
      ensures !aborted ==> View() == FollowLeader(old(View()), req)
      ensures !aborted ==> term == req.term && leaderId == req.leaderId
      ensures vote == (if req.term > old(term) then 0 else old(vote))
      ensures role == (if req.term > old(term) || old(role).Candidate? then Follower else old(role))
      ensures log == old(log) && commitIndex == old(commitIndex) && peers == old(peers)
      ensures aborted <==> req.term == old(term) && old(leaderId) != 0 && old(leaderId) != req.leaderId
    {
      if req.term > term || (req.term == term && role.Candidate?) {
        DoStepDown(req.term);
      }
      if leaderId == NOBODY {
        leaderId := req.leaderId;
      } else if leaderId != req.leaderId {
        return true;
      }
      return false;
    }

    method HandleAppendEntriesRequest(req: AERequest) returns (aborted: bool, response: AEResponse)
      requires Valid()
      modifies this
      ensures Valid()
      ensures aborted <==> HandleAERequest(old(View()), req).AEAbort?
      ensures !aborted ==> HandleAERequest(old(View()), req) == AEReply(View(), response)
      // a request of an earlier term changes nothing
      ensures req.term < old(term) ==>
                !aborted && View() == old(View()) && response == AEResponse(term, false, id, req.term, req.prevLogIndex, |log|, 0)
      // any other is answered in its own term, by a server that takes the sender for its leader
      ensures req.term >= old(term) && !aborted ==>
                && term == req.term == response.term == response.savedTerm && leaderId == req.leaderId
                && response.id == id && response.savedPrevLogIndex == req.prevLogIndex && response.lastLogIndex == |log|
                && vote == (if req.term > old(term) then 0 else old(vote)) && peers == old(peers)
                && role == (if req.term > old(term) || old(role).Candidate? then Follower else old(role))
      // and succeeds exactly if the log has the entry before those sent
      ensures req.term >= old(term) && !aborted ==>
                (response.success <==> req.prevLogIndex == 0
                                       || (req.prevLogIndex <= |old(log)| && old(log)[req.prevLogIndex - 1].term == req.prevLogTerm))
      ensures req.term >= old(term) && !aborted ==>
                if response.success then
                  && response.matchIndex == req.prevLogIndex + |req.entries|
                  && IsMerged(old(log), req.prevLogIndex, req.entries, log)
                  && commitIndex == Max(old(commitIndex), req.commitIndex)
                else response.matchIndex == 0 && log == old(log) && commitIndex == old(commitIndex)
    {
      aborted := false;
      response := AEResponse(term, false, id, req.term, req.prevLogIndex, |log|, 0);
      if req.term < term {
        return;
      }
      response := response.(term := req.term);
      aborted := FollowSender(req);
      if aborted {
        return;
      }
      var logIsOk := req.prevLogIndex < 1
        || (req.prevLogIndex <= |log| && TermAt(log, req.prevLogIndex) == req.prevLogTerm);
      if !logIsOk {
        return;
      }
      aborted := Accept(req);
      response := response.(success := true, lastLogIndex := |log|, matchIndex := req.prevLogIndex + |req.entries|);
    }

    /** Takes the entries and the commit index of a request that fits the log. */
    method Accept(req: AERequest) returns (aborted: bool)
      requires LogIsOk(log, req)
      modifies this`log, this`commitIndex
      ensures var merged := Merge(old(log), req.prevLogIndex, req.entries);
              && (aborted <==>
                    || !Contiguous(req.prevLogIndex, req.entries)
                    || ConflictCommitted(old(log), req.prevLogIndex, req.entries, old(commitIndex))
                    || (old(commitIndex) < req.commitIndex && |merged| < req.commitIndex))
              && (!aborted ==> log == merged && commitIndex == Max(old(commitIndex), req.commitIndex))
      ensures aborted <==>
                || (exists i :: 0 <= i < |req.entries| && req.entries[i].index != req.prevLogIndex + 1 + i)
                || AnyDisputed(old(log), req.prevLogIndex, req.entries, old(commitIndex))
                || (old(commitIndex) < req.commitIndex && |log| < req.commitIndex)
      ensures !aborted ==> IsMerged(old(log), req.prevLogIndex, req.entries, log)
    {
      FirstDisputed(log, req.prevLogIndex, req.entries, commitIndex);
      MergeIs(log, req.prevLogIndex, req.entries, Merge(log, req.prevLogIndex, req.entries));
      aborted := TakeEntries(req);
      if aborted {
        return;
      }
      if commitIndex < req.commitIndex {
        commitIndex := req.commitIndex;
        if commitIndex > |log| {
          aborted := true;
        }
      }
    }

    /** An answer to a request of the term that this server leads. */
    predicate IsAnswered(resp: AEResponse)
      reads this
    {
      role.Leader? && term == resp.savedTerm && resp.id in peers
    }

    predicate IsCurrent(resp: AEResponse)
      reads this
    {
      IsAnswered(resp) && resp.term <= term && resp.savedPrevLogIndex + 1 == peers[resp.id].nextIndex
    }

    method HandleAppendEntriesResponse(resp: AEResponse, maxDecrStep: nat) returns (aborted: bool)
      requires Valid() && resp.id in peers
      modifies this
      ensures Valid()
      ensures aborted <==> HandleAEResponse(old(View()), resp, maxDecrStep).Aborted?
      ensures !aborted ==> HandleAEResponse(old(View()), resp, maxDecrStep) == Now(View())
      // an answer to another term, or not to the latest probe, changes nothing
      ensures old(term) != resp.savedTerm ==> !aborted && View() == old(View())
      ensures old(term) == resp.savedTerm && !old(role).Leader? ==> aborted
      ensures old(IsAnswered(resp)) && resp.term > old(term) ==>
                && !aborted && role == Follower && term == resp.term && vote == leaderId == 0
                && log == old(log) && commitIndex == old(commitIndex) && peers == old(peers)
      ensures old(IsAnswered(resp)) && resp.term <= old(term) && resp.savedPrevLogIndex + 1 != old(peers[resp.id].nextIndex) ==>
                !aborted && View() == old(View())
      // the latest one does: a success moves both indices, a rejection moves the next index back
      ensures old(IsCurrent(resp)) && resp.success ==>
                && (aborted <==> resp.matchIndex < old(peers[resp.id].matchIndex))
                && (!aborted ==> View() == old(View()).(peers := old(peers)[resp.id := old(peers[resp.id]).(
                      matchIndex := resp.matchIndex, nextIndex := resp.matchIndex + 1, suppressBulkData := false)]))
      ensures old(IsCurrent(resp)) && !resp.success ==>
                var m, next := old(peers[resp.id].matchIndex), old(peers[resp.id].nextIndex);
                && (aborted <==> resp.lastLogIndex < m || next <= m + 1)
                && (!aborted ==> View() == old(View()).(peers := old(peers)[resp.id := old(peers[resp.id]).(
                      nextIndex := if resp.lastLogIndex + 1 < next then resp.lastLogIndex + 1
                                   else next - Min((next - m) / 2, maxDecrStep))]))
    {
      aborted := false;
      if term != resp.savedTerm {
        return;
      }
      if !role.Leader? {
        return true;
      }
      if resp.term > term {
        DoStepDown(resp.term);
        return;
      }
      var peer := peers[resp.id];
      if resp.savedPrevLogIndex != peer.nextIndex - 1 {
        return;
      }
      if resp.success {
        if peer.matchIndex > resp.matchIndex {
          return true;
        }
        peer := peer.(matchIndex := resp.matchIndex);
        peer := peer.(nextIndex := peer.matchIndex + 1);
        peer := peer.(suppressBulkData := false);
      } else {
        if peer.matchIndex > resp.lastLogIndex || peer.matchIndex + 1 >= peer.nextIndex {
          return true;
        }
        if peer.nextIndex > resp.lastLogIndex + 1 {
          peer := peer.(nextIndex := resp.lastLogIndex + 1);
        } else {
          var binaryDecrStep := (peer.nextIndex - peer.matchIndex) / 2;
          peer := peer.(nextIndex := peer.nextIndex - Min(binaryDecrStep, maxDecrStep));
        }
      }
      peers := peers[resp.id := peer];
    }

    // -------------------------------------------------------------- RequestVote

    method HandleRequestVoteRequest(req: RVRequest) returns (response: RVResponse)
      requires Valid()
      modifies this
      ensures Valid() && (View(), response) == HandleRVRequest(old(View()), req)
      // granted exactly if the term is not below the own one, the last entry of the candidate is not below the
      // own last entry, by term and then by index, and the vote of that term is free or was given to it
      ensures response.voteGranted <==>
                && req.term >= old(term)
                && (old(log) == [] || req.lastLogTerm > old(log)[|old(log)| - 1].term
                    || (req.lastLogTerm == old(log)[|old(log)| - 1].term && req.lastLogIndex >= |old(log)|))
                && (req.term > old(term) || old(vote) == 0 || old(vote) == req.candidateId)
      ensures vote == if response.voteGranted then req.candidateId else if req.term > old(term) then 0 else old(vote)
      ensures term == response.term == Max(old(term), req.term) && response.id == id && response.savedTerm == req.term
      ensures role == (if req.term > old(term) then Follower else old(role))
      ensures leaderId == (if req.term > old(term) then 0 else old(leaderId))
      ensures log == old(log) && commitIndex == old(commitIndex) && peers == old(peers)
    {
      response := RVResponse(term, false, id, req.term);
      if req.term < term {
        return;
      }
      if req.term > term {
        response := response.(term := req.term);
        DoStepDown(req.term);
      }
      var lastLogTerm := TermAt(log, |log|);
      var logIsOk := req.lastLogTerm > lastLogTerm
        || (req.lastLogTerm == lastLogTerm && req.lastLogIndex >= |log|);
      if logIsOk && (vote == NOBODY || vote == req.candidateId) {
        vote := req.candidateId;
        response := response.(voteGranted := true);
      }
    }

    method HandleRequestVoteResponse(resp: RVResponse)
      requires Valid() && resp.id in peers
      modifies this
      ensures Valid() && View() == HandleRVResponse(old(View()), resp)
      ensures old(term) != resp.savedTerm || !old(role).Candidate? ==> View() == old(View())
      ensures old(term) == resp.savedTerm && old(role).Candidate? ==>
                if resp.term > old(term) then
                  && role == Follower && term == resp.term && vote == leaderId == 0
                  && log == old(log) && commitIndex == old(commitIndex) && peers == old(peers)
                else
                  View() == old(View()).(peers := old(peers)[resp.id := old(peers[resp.id]).(
                    requestVoteDone := true, haveVote := old(peers[resp.id].haveVote) || resp.voteGranted)])
    {
      if term != resp.savedTerm || !role.Candidate? {
        return;
      }
      if resp.term > term {
        DoStepDown(resp.term);
        return;
      }
      var peer := peers[resp.id].(requestVoteDone := true);
      if resp.voteGranted {
        peer := peer.(haveVote := true);
      }
      peers := peers[resp.id := peer];
    }

    // -------------------------------------------------------------- leading

    method DoClientRequests(requests: seq<LogEntry>)
      requires Valid()
      modifies this
      ensures Valid() && View() == HandleClientRequests(old(View()), requests)
      ensures View() == old(View()).(log := old(log) + if old(role).Leader? then Accepted(requests, term, |old(log)|) else [])
    {
      if !role.Leader? {
        return;
      }
      var lastLogIndex := |log|;
      var entries := [];
      var i := 0;
      while i < |requests|
        invariant 0 <= i <= |requests|
        invariant entries == Accepted(requests[..i], term, |log|)
        invariant lastLogIndex == |log| + |entries|
        modifies {}
      {
        var entry := requests[i];
        assert requests[..i + 1] == requests[..i] + [entry];
        AcceptedSnoc(requests[..i], entry, term, |log|);
        if entry.term == term && entry.index == lastLogIndex + 1 {
          entries := entries + [entry];
          lastLogIndex := lastLogIndex + 1;
        }
        i := i + 1;
      }
      assert requests[..i] == requests;
      log := log + entries;
    }

    /** What every server is known to hold, one number each. */
    method MatchIndices() returns (indices: seq<nat>)
      requires Valid()
      ensures |indices| == |Servers(View())|
      ensures forall x: nat :: CountGE(indices, x) == |Holding(View(), x)|
    {
      indices := [|log|];
      var rest := peers.Keys;
      ghost var n := View();
      ghost var done: set<nat> := {};
      CountSelf(n);
      while rest != {}
        invariant rest + done == peers.Keys && rest !! done && |indices| == |done| + 1
        invariant CountsAmong(n, done, indices)
        decreases rest
      {
        var p :| p in rest;
        CountPeer(n, done, indices, p);
        indices := indices + [peers[p].matchIndex];
        rest := rest - {p};
        done := done + {p};
      }
      assert done == peers.Keys;
      CountEverybody(n, done, indices);
    }

    /** Sorted in descending order, the middle one of the indices known is the largest that a majority holds. */
    method MajorityHeld() returns (index: nat)
      requires Valid()
      ensures IsMajorityIndex(View(), index) && LargestHeld(View(), index)
    {
      var indices := MatchIndices();
      var sorted := SortDescending(indices);
      SameCount(sorted, indices, 0);
      index := sorted[|sorted| / 2];
      SameCount(sorted, indices, index);
      SameCount(sorted, indices, index + 1);
      MajorityPosition(sorted, index);
      MajorityPosition(sorted, index + 1);
      HeldIsMajority(View(), index);
    }

    /** The commit rule: the largest index that more than half of the servers hold is committed if it is above
        what is committed already and its entry is of the current term. */
    method AdvanceCommitIndex() returns (aborted: bool, ghost majority: nat)
      requires Valid()
      modifies this
      ensures Valid()
      ensures old(role).Leader? ==> IsMajorityIndex(old(View()), majority)
      ensures aborted <==> AdvanceCommit(old(View()), majority).Aborted?
      ensures !aborted ==> AdvanceCommit(old(View()), majority) == Now(View())
      ensures old(role).Leader? ==> LargestHeld(old(View()), majority)
      ensures aborted <==> old(role).Leader? && old(commitIndex) < majority && |old(log)| < majority
      ensures !aborted ==>
                View() == old(View()).(commitIndex :=
                  if old(role).Leader? && old(commitIndex) < majority && old(log)[majority - 1].term == old(term) then majority
                  else old(commitIndex))
    {
      aborted, majority := false, 0;
      if !role.Leader? {
        return;
      }
      var majorityIndex := MajorityHeld();
      majority := majorityIndex;
      if commitIndex >= majorityIndex {
        return;
      }
      if majorityIndex > |log| {
        return true, majority;
      }
      if TermAt(log, majorityIndex) != term {
        return;
      }
      commitIndex := majorityIndex;
    }

    /** One vote for itself and one for every peer that granted one. */
    method CountVotes() returns (votes: nat)
      requires Valid()
      ensures votes == |Voters(View())| == 1 + |GrantedTo(View())|
    {
      votes := 1;
      var rest := peers.Keys;
      ghost var n := View();
      ghost var done: set<nat> := {};
      VotersEnds(n);
      while rest != {}
        invariant rest + done == peers.Keys && rest !! done
        invariant votes == |VotersAmong(n, done)|
        decreases rest
      {
        var p :| p in rest;
        VotersStep(n, done, p);
        if peers[p].haveVote {
          votes := votes + 1;
        }
        rest := rest - {p};
        done := done + {p};
      }
      assert done == peers.Keys;
      VotersAre(n);
    }

    method DoBecomeLeader()
      requires Valid()
      modifies this
      ensures Valid() && View() == BecomeLeader(old(View()))
      ensures if HasWon(old(View())) then
                && role == Leader && log == old(log) + [LogEntry(term, |old(log)| + 1, true, [])]
                && term == old(term) && vote == old(vote) && commitIndex == old(commitIndex) && leaderId == old(leaderId)
                && IsReset(old(peers), |old(log)| + 1, peers)
              else View() == old(View())
    {
      ghost var n := View();
      if !role.Candidate? {
        LeadIs(n, n);
        return;
      }
      var votes := CountVotes();
      HalfIs(votes, |peers| + 1);
      if votes < Majority(|peers| + 1) {
        LeadIs(n, n);
        return;
      }
      role := Leader;
      ResetPeers();
      log := log + [LogEntry(term, |log| + 1, true, [])];
      LeadIs(n, View());
    }

    /** Every follower is probed from the end of the log, and nothing is known to be held by it. */
    method ResetPeers()
      modifies this`peers
      ensures IsReset(old(peers), |log| + 1, peers)
    {
      var rest := peers.Keys;
      while rest != {}
        invariant rest <= peers.Keys == old(peers).Keys
        invariant forall q :: q in peers && q in rest ==> peers[q] == old(peers)[q]
        invariant forall q :: q in peers && q !in rest ==>
                    peers[q] == old(peers)[q].(nextIndex := |log| + 1, matchIndex := 0, suppressBulkData := true, armed := true)
        decreases rest
      {
        var p :| p in rest;
        peers := peers[p := peers[p].(nextIndex := |log| + 1, matchIndex := 0, suppressBulkData := true, armed := true)];
        rest := rest - {p};
      }
    }

    // -------------------------------------------------------------- timeouts

    method DoElectionTimeout()
      requires Valid()
      modifies this
      ensures Valid() && View() == ElectionTimeout(old(View()))
      ensures old(role).Leader? ==> View() == old(View())
      ensures !old(role).Leader? ==>
                && role == Candidate && term == old(term) + 1 && vote == id && leaderId == 0
                && log == old(log) && commitIndex == old(commitIndex) && peers.Keys == old(peers).Keys
                && forall p :: p in peers ==>
                     peers[p] == old(peers)[p].(requestVoteDone := false, haveVote := false, armed := true)
    {
      if role.Leader? {
        return;
      }
      role := Candidate;
      term := term + 1;
      vote := id;
      leaderId := NOBODY;
      var rest := peers.Keys;
      while rest != {}
        invariant rest <= peers.Keys == old(peers).Keys
        invariant forall q :: q in peers && q in rest ==> peers[q] == old(peers)[q]
        invariant forall q :: q in peers && q !in rest ==>
                    peers[q] == old(peers)[q].(requestVoteDone := false, haveVote := false, armed := true)
        modifies this`peers
        decreases rest
      {
        var p :| p in rest;
        peers := peers[p := peers[p].(requestVoteDone := false, haveVote := false, armed := true)];
        rest := rest - {p};
      }
      assert peers == ElectionTimeout(old(View())).peers;
    }

    /** When each server last answered, the own one now. */
    method TimePoints(now: nat, heard: map<nat, nat>) returns (times: seq<nat>)
      requires heard.Keys == peers.Keys
      ensures |times| == |peers| + 1
      ensures forall x: nat :: x <= now ==> CountGE(times, x) == |HeardSince(heard, x)| + 1
    {
      times := [now];
      var rest := peers.Keys;
      ghost var done: set<nat> := {};
      while rest != {}
        invariant rest + done == peers.Keys && rest !! done && |times| == |done| + 1
        invariant forall x: nat {:trigger CountGE(times, x)} ::
                    x <= now ==> CountGE(times, x) == |HeardAmong(heard, done, x)| + 1
        decreases rest
      {
        var p :| p in rest;
        CountTime(heard, done, times, now, p);
        times := times + [heard[p]];
        rest := rest - {p};
        done := done + {p};
      }
      assert done == peers.Keys;
      forall x: nat | x <= now ensures CountGE(times, x) == |HeardSince(heard, x)| + 1 {
        assert HeardAmong(heard, done, x) == HeardSince(heard, x);
      }
    }

    /** A leader steps down exactly when, itself included, fewer than a majority of the servers have been
        heard of within the longest election timeout. */
    method DoLeadershipTimeout(now: nat, heard: map<nat, nat>)
      requires Valid() && heard.Keys == peers.Keys && forall p :: p in heard ==> heard[p] <= now
      modifies this
      ensures Valid()
      ensures var lost := now >= MAX_ELECTION_TIMEOUT
                          && |HeardSince(heard, now - MAX_ELECTION_TIMEOUT + 1)| + 1 < Majority(|old(peers)| + 1);
              View() == if lost then LeadershipTimeout(old(View())) else old(View())
      ensures if old(role).Leader? && 2 * (1 + |Recent(heard, now)|) <= |old(peers)| + 1 then
                && role == Follower && term == old(term) + 1 && vote == leaderId == 0
                && log == old(log) && commitIndex == old(commitIndex) && peers == old(peers)
              else View() == old(View())
    {
      RecentIs(heard, now);
      assert |heard.Keys| == |peers.Keys|;
      if !role.Leader? {
        return;
      }
      var times := TimePoints(now, heard);
      var sorted := SortDescending(times);
      SameCount(sorted, times, 0);
      var point := sorted[|sorted| / 2];
      if now >= MAX_ELECTION_TIMEOUT {
        ghost var x := now - MAX_ELECTION_TIMEOUT + 1;
        SameCount(sorted, times, x);
        assert CountGE(times, x) == |HeardSince(heard, x)| + 1;
        MajorityPosition(sorted, x);
      }
      if now - point < MAX_ELECTION_TIMEOUT {
        return;
      }
      DoStepDown(term + 1);
    }

    // -------------------------------------------------------------- the send switch

    /** One round of appendEntries() for a peer. `available` is how many entries the limits of a batch let
        through from the next index on. */
    method SendAppendEntries(to: nat, available: nat) returns (sent: Option<AERequest>)
      requires Valid() && to in peers
      requires role.Leader? ==> 1 <= peers[to].nextIndex && peers[to].nextIndex - 1 + available <= |log|
      modifies this`peers
      ensures Valid()
      ensures sent.Some? <==> role.Leader? && old(peers[to].armed)
      ensures sent.Some? ==>
                && View() == Switched(old(View()), to, false)
                && sent.value == BuildAE(old(View()), to, if old(peers[to].suppressBulkData) then 0 else available)
      ensures sent.Some? ==>
                && IsRequest(old(View()), to, if old(peers[to].suppressBulkData) then 0 else available, sent.value)
                && peers == old(peers)[to := old(peers[to]).(armed := false)]
      ensures sent.None? ==> View() == old(View())
    {
      if !role.Leader? || !peers[to].armed {
        return None;
      }
      BuiltIs(View(), to, if peers[to].suppressBulkData then 0 else available);
      var prevLogIndex := peers[to].nextIndex - 1;
      var entries := [];
      if !peers[to].suppressBulkData {
        entries := log[prevLogIndex..prevLogIndex + available];
      }
      var commit := Min(commitIndex, prevLogIndex + |entries|);
      sent := Some(AERequest(term, id, prevLogIndex, TermAt(log, prevLogIndex), entries, commit));
      peers := peers[to := peers[to].(armed := false)];
    }

    /** One round of requestVote() for a peer. */
    method SendRequestVote(to: nat) returns (sent: Option<RVRequest>)
      requires Valid() && to in peers
      modifies this`peers
      ensures Valid()
      ensures sent.Some? <==> role.Candidate? && old(peers[to].armed && !peers[to].requestVoteDone)
      ensures sent.Some? ==> View() == Switched(old(View()), to, false) && sent.value == BuildRV(old(View()))
      ensures sent.Some? ==>
                && sent.value == RVRequest(term, id, |log|, if log == [] then 0 else log[|log| - 1].term)
                && peers == old(peers)[to := old(peers[to]).(armed := false)]
      ensures sent.None? ==> View() == old(View())
    {
      if !role.Candidate? || !peers[to].armed || peers[to].requestVoteDone {
        return None;
      }
      sent := Some(RVRequest(term, id, |log|, TermAt(log, |log|)));
      peers := peers[to := peers[to].(armed := false)];
    }

    /** A call for AppendEntries has ended, with an answer or without. */
    method ReceiveAppendEntriesResult(from: nat, ok: bool, resp: AEResponse, maxDecrStep: nat) returns (aborted: bool)
      requires Valid() && from in peers && (ok ==> resp.id == from)
      modifies this
      ensures Valid()
      ensures aborted <==> ok && ReceiveAEResponse(old(View()), resp, maxDecrStep).Aborted?
      ensures ok && !aborted ==> ReceiveAEResponse(old(View()), resp, maxDecrStep) == Now(View())
      ensures !ok ==> View() == AECallFailed(old(View()), from)
      ensures !ok ==> View() == old(View()).(peers := old(peers)[from := old(peers[from]).(armed := true, suppressBulkData := true)])
      ensures ok && !aborted ==> peers[from].armed
    {
      aborted := false;
      peers := peers[from := peers[from].(armed := true)];
      if ok {
        aborted := HandleAppendEntriesResponse(resp, maxDecrStep);
      } else {
        peers := peers[from := peers[from].(suppressBulkData := true)];
      }
    }

    /** A call for a vote has ended, however late. */
    method ReceiveRequestVoteResult(from: nat, ok: bool, resp: RVResponse)
      requires Valid() && from in peers && (ok ==> resp.id == from)
      modifies this
      ensures Valid()
      ensures View() == if ok then ReceiveRVResponse(old(View()), resp) else Switched(old(View()), from, true)
      ensures !ok ==> View() == old(View()).(peers := old(peers)[from := old(peers[from]).(armed := true)])
      ensures ok ==> peers[from].armed
    {
      peers := peers[from := peers[from].(armed := true)];
      if ok {
        HandleRequestVoteResponse(resp);
      }
    }
  }
}
