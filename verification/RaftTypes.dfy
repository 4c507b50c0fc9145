/** Values shared by the Raft model: log entries, peers, node state and RPC messages. */
module RaftTypes {

  newtype Byte = x: int | 0 <= x < 256

  type Bytes = seq<Byte>

  /** 0 is never a node id: a vote or a leader hint of 0 means "nobody". */
  const NOBODY: nat := 0

  datatype Role = Leader | Follower | Candidate

  datatype LogEntry = LogEntry(term: nat, index: nat, noop: bool, payload: Bytes)

  /** What a leader or candidate remembers about another server. `armed` is the switch that lets the next
      request go out: sending turns it off, an answer or a failed call turns it on. How long an armed
      switch waits is left out: a request may be sent at any moment. */
  datatype Peer = Peer(
    requestVoteDone: bool, haveVote: bool, matchIndex: nat, nextIndex: nat, suppressBulkData: bool, armed: bool)

  /** `term`, `vote` and `log` are on disk; the other fields are lost in a crash.
      The entry with index i is log[i - 1]. */
  datatype Node = Node(
    id: nat, term: nat, vote: nat, log: seq<LogEntry>,
    role: Role, commitIndex: nat, leaderId: nat, peers: map<nat, Peer>)

  datatype AERequest = AERequest(
    term: nat, leaderId: nat, prevLogIndex: nat, prevLogTerm: nat, entries: seq<LogEntry>, commitIndex: nat)

  datatype AEResponse = AEResponse(
    term: nat, success: bool, id: nat, savedTerm: nat, savedPrevLogIndex: nat, lastLogIndex: nat, matchIndex: nat)

  datatype RVRequest = RVRequest(term: nat, candidateId: nat, lastLogIndex: nat, lastLogTerm: nat)

  datatype RVResponse = RVResponse(term: nat, voteGranted: bool, id: nat, savedTerm: nat)

  /** The term of the entry at an index, index 0 standing before the first entry. */
  function TermAt(log: seq<LogEntry>, index: nat): nat
    requires index <= |log|
  {
    if index == 0 then 0 else log[index - 1].term
  }

  function LastTerm(log: seq<LogEntry>): nat {
    TermAt(log, |log|)
  }

  /** The entry at position i has index i + 1. */
  predicate Indexed(log: seq<LogEntry>) {
    forall i {:trigger log[i]} :: 0 <= i < |log| ==> log[i].index == i + 1
  }

  function Min(a: nat, b: nat): nat {
    if a <= b then a else b
  }

  function Max(a: nat, b: nat): nat {
    if a <= b then b else a
  }
}
