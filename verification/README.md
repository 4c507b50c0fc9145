# A verified model of MySuperLedger

MySuperLedger is a double-entry ledger built by event sourcing. A command is judged by a state machine and
becomes events; the events go through a Raft log; every server applies the committed events to its own copy
of the books. This project models the hard parts of that path in Dafny and proves what they keep over every
run: the consensus protocol and its server, the segmented log on disk, the bridge between the log and the
application, and the ledger itself with its durable store.

## How it is organised

| layer | modules |
|---|---|
| consensus | `RaftTypes`, `RaftCore` (each handler as a function), `RaftNode` (the server as a class; each method equal to its handler, with what it does to every field beside), `MajorityIndex`, `RaftCluster` (servers, network, crashes; what a run is), `RaftInvariant`, `RaftLogs`, `RaftCompleteness`, `RaftReceive`, `RaftAct`, `RaftSafety` (every step keeps the invariant), `RaftTheorems` (what holds of whole runs), `RaftProbing`, `RaftPaths`, `RaftLateAnswer`, `RaftProgress` (what a cluster can always still do), `RaftTerms`, `RaftJudged` |
| storage | `SegmentFile`, `Segment` (a pair of files as arrays), `LogView`, `InMemoryLog`, `SegmentLayout`, `SegmentLog`, `StorageCompare` |
| bridge | `DoubleBufferQueue`, `RoleRefresh`, `ReplyLoop`, `EventLoading`, `Handover`, `LeaderPipeline` (a hand-over hosted by a server of a Raft run), `Refusals` |
| ledger | `LedgerTypes`, `Ledger`, `LedgerMachine`, `Conservation`, `DurableLedger`, `CrashRecovery`, `JournalCodec`, `LedgerOnRaft` (the ledger served by the leaders of a Raft run) |
| shared | `Common` |

**Consensus.** A cluster is a set of members, their nodes, a network that loses, repeats and reorders messages,
and an incarnation number per member. A step is a timeout, a send, a delivery, a failed call, a batch of client
requests, a commit advance, a crash (also between two writes of one handler, and in the middle of a truncation).
A message answers only the incarnation that asked. Each peer has the switch of the source: a send turns it off,
an answer or a failed call turns it on, and nothing is sent while it is off. History variables (`History`) record
what leaders appended, who voted for whom, what was acknowledged and committed; no handler reads them. An `assert`
of the source is an explicit `Aborted` outcome, so that its absence is a theorem.

**Parameters.** Timers and random timeouts are the free choice of the next step; the times at which peers were last
heard are an argument. The network is the set of messages ever sent. Serialisation, HMAC and the list of key
versions are a `Codec`; the decryption and decoding of entries is a `Decoder`. What is asked of them is said in
`Faithful` (an encoded entry decodes to itself, a digest fills its field, there is a key if encryption is on),
`IdsCarried` (a decoded command carries the index of its entry) and `CrashRecovery.Carried` (events come back from
the log as they were written).

**Integers.** Amounts and balances are 64 bits wide and wrap as in the source. Indices, terms and sizes are
unbounded.

## What was found

- `RaftCore.cpp:555` and `:558` assert, on a rejection, that the follower's log still reaches the match index and
  that the next index is above it. `LateRejectionAborts` says exactly which rejections fail there. No run has one
  as long as a leader makes a call to a follower only when none is outstanding and each call is answered once,
  whatever votes, answers of other terms and failures arrive in between (`NothingFails`, `ProbingIsSafe`). The
  switch of a peer does not quite see to that: it does if only the answer or the failure of the call turns it on
  (`OneCallAtATime`), but the answer to a vote request of an earlier term turns it on as well.
  `RaftLateAnswer.TwoOutstandingAbort` is a whole run of two servers in which such an answer lets a second call
  out, and the rejection of the first one fails the assertion.
- A rejection halves the distance between match index and next index, unless the next index is first clamped to
  the follower's log: `RejectionShrinks` has the exact condition, `ClampStopsHalving` a case (10 becomes 9). It
  always shrinks, so probing ends.
- `MpscDoubleBufferQueue` can leave an element behind: a producer that has seen the queue open may add to it
  after the consumer was told to stop. `NothingLeftBehind` and `PoisedLeftBehind` are the two halves,
  `LatecomerIsLeftBehind` the shortest case.
- `SegmentLog::truncatePrefix` can leave an in-progress file behind: exactly when the index kept is past the last
  index and past the first index of the active segment (`PrefixCutStrays`). A later start finds two such files and
  fails the assertion at `SegmentLog.cpp:115`: `Reopen` fails exactly when there is a stray, and `CutPastEnd` and
  `CutPastEndStopsStart` are a case.
- `SegmentLog::truncateSuffix` to before the first index leaves a first index behind the last one:
  `SuffixCutSoundIff` is the exact condition, `CutBelowFirst` a case, `BelowFirstIsUnreadable` the cost.
- A batch read from the segmented log stops at the end of a segment, where the simple log goes on
  (`SegmentedLog.GetEntries`), and the term just before the first index is 0 there (`SegmentedLog.GetTerm`).
- `JournalEntry::encodeTo` copies the id of the destination onto itself, so a recorded entry comes back from the
  log without its id. `RoundTripIffNoId`, `SecondReplayAborts`, `ReplayIffOneEntry` and `ReplayedIdIsForgotten`
  say what that costs. The theorems of `CrashRecovery` therefore have the hypothesis that events come back as they
  were written, and `CarriedIffNoIds` says exactly which logs meet it with the codec of the source. The same
  hypothesis is part of `LedgerOnRaft.RunsLedger`, and so of `ServedIsJudged` and `EveryLogApplies`: what an entry
  decodes to is the events that the command was answered with.
- Totals of an entry are compared modulo 2^64, and a balance wraps. `NetIsExact` has the exact law: the signed sum
  of all balances is that of the opening balances plus 2^64 times what the accepted entries and the wrapped
  balances have added up to, and so it is conserved if and only if these cancel. `NetFromNothing` is a run of three
  commands that brings 2^64 out of nothing.
- The state handed to the command loop is complete if the server still leads when it is taken. If it stepped down
  in between, it is a beginning of what that server had committed, and nothing is ever submitted on it that a log
  keeps (`RefusedAfterTheTerm`, `NothingGetsIn`).

## Model

| member | source | states |
|---|---|---|
| `RaftNode.RaftServer.constructor` | src/infra/raft/v2/RaftCore.cpp:30-64 | a server that starts has the term, vote and log it had stored, and is a follower that has committed nothing |
| `RaftNode.RaftServer.TakeEntries` | src/infra/raft/v2/RaftCore.cpp:447-477 | the skip, truncate and append loop leaves the merge of log and request, and aborts exactly when the entries are not contiguous or the first conflict is committed |
| `RaftNode.MergeIs` | src/infra/raft/v2/RaftCore.cpp:447-477 | the merge position by position: what the log had stays up to the first position where the request has another term, the received entries fill the rest, and what lay behind them stays only if there is no such position |
| `RaftNode.FirstDisputed` | src/infra/raft/v2/RaftCore.cpp:447-477 | the loop stops skipping exactly at the first position in dispute |
| `RaftNode.RaftServer.FollowSender` | src/infra/raft/v2/RaftCore.cpp:411-435 | the sender is taken for the leader, a newer term or a candidacy gives way, and the assertion fails exactly for a second leader of the same term |
| `RaftNode.RaftServer.Accept` | src/infra/raft/v2/RaftCore.cpp:447-507 | after a successful consistency test the log is the merge, the commit index the larger of the two; aborts exactly for a gap in the indices, a dispute about a committed entry, or a commit index past the log |
| `RaftNode.RaftServer.HandleAppendEntriesRequest` | src/infra/raft/v2/RaftCore.cpp:387-507 | a request of an earlier term changes nothing; any other is answered in its own term by a server that follows the sender, succeeds exactly if the log has the entry before those sent, and then merges them, takes the larger commit index and answers with the index of the last entry sent; and all this is the handler function of which the run theorems speak |
| `RaftNode.RaftServer.HandleAppendEntriesResponse` | src/infra/raft/v2/RaftCore.cpp:509-570 | what an answer does in each case: another term or another probe nothing, a higher term a step down, a success both indices, a rejection the bounded step back; with its three assertions |
| `RaftNode.RaftServer.HandleRequestVoteRequest` | src/infra/raft/v2/RaftCore.cpp:572-621 | the vote is granted exactly if the term is not below the own one, the candidate's last entry is not below the own one by term and then by index, and the vote of that term is free or was given to it; with term, vote, role and hint left behind in each case |
| `RaftNode.RaftServer.HandleRequestVoteResponse` | src/infra/raft/v2/RaftCore.cpp:623-650 | only a candidate of the term asked for takes it: a higher term makes it step down, else the answer and the vote are noted |
| `RaftNode.RaftServer.DoClientRequests` | src/infra/raft/v2/RaftCore.cpp:652-692 | the log grows by the requests that carry the current term and the next index, in order |
| `RaftNode.AcceptedSnoc` | src/infra/raft/v2/RaftCore.cpp:668-688 | one more request is accepted exactly when it has the current term and the index behind the last accepted one |
| `RaftNode.RaftServer.MatchIndices` | src/infra/raft/v2/RaftCore.cpp:719-732 | as many of the collected indices reach x as servers are known to hold x, for every x |
| `RaftNode.RaftServer.MajorityHeld` | src/infra/raft/v2/RaftCore.cpp:719-742 | the middle of the sorted indices is the largest index that more than half of the servers hold |
| `MajorityIndex.SortDescending` | src/infra/raft/v2/RaftCore.cpp:734-737 | the result is in descending order and a permutation of the input |
| `MajorityIndex.InsertDescending` | src/infra/raft/v2/RaftCore.cpp:734-737 | one insertion keeps the order and adds exactly one element |
| `MajorityIndex.MajorityPosition` | src/infra/raft/v2/RaftCore.cpp:734-742 | in descending order, a majority reaches x exactly when x is at most the middle element |
| `MajorityIndex.SameCount` | src/infra/raft/v2/RaftCore.cpp:734-742 | sorting does not change how many indices reach x |
| `RaftNode.RaftServer.AdvanceCommitIndex` | src/infra/raft/v2/RaftCore.cpp:714-776 | the commit index becomes the largest index that more than half of the servers hold exactly if that is above it and the entry is of the current term; nothing else changes; aborts exactly if that index is past the log |
| `RaftNode.RaftServer.CountVotes` | src/infra/raft/v2/RaftCore.cpp:783-797 | one more than the number of peers that granted their vote |
| `RaftNode.RaftServer.ResetPeers` | src/infra/raft/v2/RaftCore.cpp:804-814 | every peer is to be probed behind the log, with nothing known to be held, bulk data suppressed and the switch on |
| `RaftNode.RaftServer.DoBecomeLeader` | src/infra/raft/v2/RaftCore.cpp:778-831 | a candidate that more than half of the servers voted for leads, with a no-op of its term behind its log and its peers reset; otherwise nothing changes |
| `RaftNode.RaftServer.DoElectionTimeout` | src/infra/raft/v2/RaftCore.cpp:833-869 | anyone but a leader stands in the next term, votes for itself and forgets earlier votes and the leader |
| `RaftNode.RaftServer.TimePoints` | src/infra/raft/v2/RaftCore.cpp:878-888 | as many of the collected times reach x as servers were heard since x, this one included, for every x |
| `RaftNode.RaftServer.DoLeadershipTimeout` | src/infra/raft/v2/RaftCore.cpp:871-904 | a leader gives up its term exactly when fewer than a majority, itself included, were heard within the election timeout; otherwise nothing changes |
| `RaftNode.RaftServer.SendAppendEntries` | src/infra/raft/v2/RaftCore.cpp:283-345 | a request is sent exactly by a leader whose switch for the peer is on, and turns it off; it has the entries from the next index on, none while bulk data is suppressed, and as commit index the largest committed one that they reach |
| `RaftNode.RaftServer.SendRequestVote` | src/infra/raft/v2/RaftCore.cpp:347-385 | a vote request is sent exactly by a candidate that has no answer of the peer yet and whose switch for it is on, and turns it off |
| `RaftNode.RaftServer.ReceiveAppendEntriesResult` | src/infra/raft/v2/RaftCore.cpp:228-246 | the switch on, then the answer handled; after a failed call bulk data suppressed instead |
| `RaftNode.RaftServer.ReceiveRequestVoteResult` | src/infra/raft/v2/RaftCore.cpp:255-270 | the switch on, whatever term the answer is from, then the vote handled |
| `RaftNode.RaftServer.DoStepDown` | src/infra/raft/v2/RaftCore.cpp:906-951 | the new term forgets vote and leader; in the same term only a candidate steps down and keeps its vote |
| `RaftSafety.StepKeepsInv` | src/infra/raft/v2/RaftCore.cpp:184-281 | every step of every server, delivery, loss, crash and restart included, keeps the invariant and only extends the history |
| `RaftLogs.QuorumsMeet` | src/infra/raft/v2/RaftCore.h:239 | two majorities of the members share a server |
| `RaftTheorems.InitInv` | src/infra/raft/v2/RaftCore.cpp:30-64 | the first state satisfies the invariant |
| `RaftTheorems.RunInv` | src/infra/raft/v2/RaftCore.cpp:184-281 | every state of every run satisfies the invariant |
| `RaftTheorems.RunSince` | src/infra/raft/v2/RaftCore.cpp:184-281 | what an earlier state records of leaders, votes, acknowledgements and commits still stands in every later one |
| `RaftTheorems.ElectionSafety` | src/infra/raft/v2/RaftCore.cpp:778-831 | two leaders of one term, at any two moments of a run, are the same server |
| `RaftTheorems.OneVotePerTerm` | src/infra/raft/v2/RaftCore.cpp:572-621 | all votes a server ever grants in a term go to one candidate, across crashes |
| `RaftTheorems.CandidateVotesForItself` | src/infra/raft/v2/RaftCore.cpp:833-869 | a server that was a candidate in a term grants no vote to another in that term |
| `RaftTheorems.LogMatching` | src/infra/raft/v2/RaftCore.cpp:387-507 | two logs, of any servers at any moments, that have the same term at an index are equal up to it |
| `RaftTheorems.LogShape` | src/infra/raft/v2/RaftCore.cpp:447-477 | indices are consecutive from 1, terms never fall and never exceed the server's term |
| `RaftCompleteness.LeaderCompleteness` | src/infra/raft/v2/RaftCore.cpp:599-609 | what was committed in a term is in the log of every leader of a later term, and in the log it was elected with |
| `RaftCompleteness.CommittedInLeaderLog` | src/infra/raft/v2/RaftCore.cpp:492-501 | a prefix known to be committed agrees with the log of the leader of that or any later term |
| `RaftTheorems.LeadersHaveCommitted` | src/infra/raft/v2/RaftCore.cpp:599-609 | what any server has committed, at any moment, begins the log of every leader of a higher term |
| `RaftTheorems.StateMachineSafety` | src/infra/raft/v2/RaftCore.cpp:714-776 | up to the smaller commit index, any two servers at any two moments have the same log |
| `RaftTheorems.CommittedStays` | src/infra/raft/v2/RaftCore.cpp:461-472 | what a server has committed stays in its log for ever, also across crashes and truncation |
| `RaftTheorems.CommitIndexGrows` | src/infra/raft/v2/RaftCore.cpp:492-501 | the commit index of a server never falls between two restarts |
| `RaftTheorems.CommittedViewGrows` | src/infra/raft/v2/RaftCore.cpp:492-501 | the committed log a server shows only ever grows between two restarts |
| `RaftTheorems.NoAbort` | src/infra/raft/v2/RaftCore.cpp:435-518 | in no run does an assertion fail in the request handler, on the role of the receiver of an answer, or in the commit advance |
| `RaftTheorems.LateRejectionAborts` | src/infra/raft/v2/RaftCore.cpp:528-569 | in any run, handling an answer aborts exactly for a current rejection of the probe at the next index whose sender's log has fallen below the match index or that probed the match index itself |
| `RaftTheorems.CommitRule` | src/infra/raft/v2/RaftCore.cpp:714-776 | in any run, a leader that looks commits the largest index that more than half of the servers hold if it is new and of the leader's term, and else leaves everything as it is |
| `RaftProgress.NeverStuck` | src/infra/raft/v2/RaftCore.cpp:184-281 | from every state of every run of a cluster that is not empty, some continuation elects a leader and commits any given request on every server |
| `RaftProgress.AskAll` | src/infra/raft/v2/RaftCore.cpp:572-621 | a candidate of a new term whose log is at least as up to date as all others can get every vote |
| `RaftProgress.Probes` | src/infra/raft/v2/RaftCore.cpp:554-569 | a leader that goes back on each rejection reaches a request that the follower accepts |
| `RaftProgress.FillAll` | src/infra/raft/v2/RaftCore.cpp:283-345 | a new leader can bring its whole log to every follower, whatever they hold |
| `RaftProbing.TrackKeeps` | src/infra/raft/v2/RaftCore.cpp:228-345 | if calls are made in turn, every step of the cluster keeps what is known of the last call from one server to another: its probe is the next index, and any answer given to it finds what the leader expects |
| `RaftProbing.OneCallAtATime` | src/infra/raft/v2/RaftCore.cpp:283-345 | in every run in which only the answer to an outstanding call, or its failure, turns the switch on, calls are made in turn |
| `RaftProbing.ProbingIsSafe` | src/infra/raft/v2/RaftCore.cpp:528-569 | in every run of the cluster in which a leader makes a call to a peer only when none is outstanding and each is answered once, no answer fails an assertion and the match index stays below the next index, whatever votes, other answers and failures come in between |
| `RaftProbing.NothingFails` | src/infra/raft/v2/RaftCore.cpp:184-281 | if calls are made in turn between all pairs, no step of the run fails any assertion |
| `RaftProbing.RejectionShrinks` | src/infra/raft/v2/RaftCore.cpp:554-569 | a current rejection strictly shrinks the gap; within the step limit it halves it exactly when the clamp to the follower's log does not stop short |
| `RaftProbing.ClampStopsHalving` | src/infra/raft/v2/RaftCore.cpp:560-561 | match index 0, next index 10, a follower's log of 8: the gap goes from 10 to 9 |
| `RaftProbing.GapStep` | src/infra/raft/v2/RaftCore.cpp:528-569 | while a server leads, a step that is no acceptance by the follower never widens the gap, and a rejection narrows it |
| `RaftProbing.ProbingTerminates` | src/infra/raft/v2/RaftCore.cpp:554-569 | in every run, between two moments of a term that is led throughout without an acceptance, the rejections and the gap left are together at most the gap at the beginning |
| `RaftProbing.ClosedGapAccepts` | src/infra/raft/v2/RaftCore.cpp:438-445 | if calls are made in turn, then once the gap is one the outstanding call passes the follower's consistency test, whatever the follower took from others |
| `RaftLateAnswer.TwoOutstandingAbort` | src/infra/raft/v2/RaftCore.cpp:228-270 | a run of two servers, from the start, in which the late answer to a vote request turns the switch on while a call is outstanding, so that a rejection fails an assertion |
| `RaftTerms.LedOnce` | src/infra/raft/v2/RaftCore.cpp:778-831 | a server that has led a term and no longer does never leads it again |
| `RaftTerms.OnlyRequestsAdd` | src/infra/raft/v2/RaftCore.cpp:652-692 | the log of a term grows only by requests that its leader takes while it leads |
| `RaftJudged.EveryLogIsJudged` | src/infra/raft/v2/RaftCore.cpp:652-692 | if every client entry was judged against the leader's log before it, then in every log of every run each entry is judged against the log before it |
| `RaftJudged.NoIdTwice` | src/app_ledger/v2/AppStateMachine.cpp:108-196 | if leaders judge on their whole log, no id occurs in two entries of any log of any run |
| `SegmentFile.AddStores` | src/infra/raft/storage/Segment.cpp:223-292 | bytes and slots written behind those in use give files that hold the old entries and then the new ones |
| `SegmentFile.CutStores` | src/infra/raft/storage/Segment.cpp:430-467 | zeroing the slots from n on gives files that hold the first n entries |
| `SegmentFile.ScanStops` | src/infra/raft/storage/Segment.cpp:139-155 | scanning the slots from the first stops exactly behind the last entry held |
| `SegmentFile.BatchIs` | src/infra/raft/storage/Segment.cpp:376-428 | a batch is the longest beginning within both limits |
| `SegmentFile.BatchOfPart` | src/infra/raft/storage/Segment.cpp:376-428 | a batch of a beginning is the batch of the whole, or all of that beginning |
| `Segment.LogSegment.Create` | src/infra/raft/storage/Segment.cpp:80-107 | a new segment is valid, active and empty |
| `Segment.LogSegment.Open` | src/infra/raft/storage/Segment.cpp:109-171 | files that hold some entries open as a segment with exactly these entries |
| `Segment.LogSegment.CloseActive` | src/infra/raft/storage/Segment.cpp:173-193 | closing keeps the entries |
| `Segment.LogSegment.ShouldRoll` | src/infra/raft/storage/Segment.cpp:195-221 | true exactly when the batch does not fit behind what the two files hold |
| `Segment.LogSegment.WriteEntries` | src/infra/raft/storage/Segment.cpp:229-268 | the bytes of each entry and its slot are right and nothing already written is touched |
| `Segment.LogSegment.AppendEntries` | src/infra/raft/storage/Segment.cpp:223-292 | the segment then holds its entries followed by the new ones |
| `Segment.LogSegment.TruncateSuffix` | src/infra/raft/storage/Segment.cpp:430-467 | the segment then holds its entries up to the index kept |
| `Segment.AllTried` | src/infra/raft/storage/Segment.cpp:500-529 | from wherever the search starts, one round tries every key |
| `Segment.FindKey` | src/infra/raft/storage/Segment.cpp:500-529 | a key is found exactly when one of the versions gives this digest |
| `Segment.LogSegment.VerifyHMAC` | src/infra/raft/storage/Segment.cpp:500-529 | succeeds exactly when encryption is off, the digest is the all-zero one, or some key version gives it |
| `Segment.LogSegment.GetEntry` | src/infra/raft/storage/Segment.cpp:324-336 | the entry at an index, or nothing outside the segment |
| `Segment.LogSegment.GetTerm` | src/infra/raft/storage/Segment.cpp:338-346 | the term at an index, or nothing outside the segment |
| `Segment.LogSegment.GetEntries` | src/infra/raft/storage/Segment.cpp:376-428 | the longest beginning of the rest of the segment within both limits |
| `InMemoryLog.MemoryLog.constructor` | src/infra/raft/storage/InMemoryLog.h:31-39 | an empty log that begins at 1 |
| `InMemoryLog.MemoryLog.AppendEntry` | src/infra/raft/storage/InMemoryLog.h:31-39 | taken exactly when its index is the next |
| `InMemoryLog.MemoryLog.AppendEntries` | src/infra/raft/storage/InMemoryLog.h:41-48 | takes the longest beginning with consecutive indices, also when the batch as a whole is refused |
| `InMemoryLog.MemoryLog.GetEntry` | src/infra/raft/storage/InMemoryLog.h:50-66 | the entry of the log seen as a value; an empty entry at index 0 |
| `InMemoryLog.MemoryLog.GetTerm` | src/infra/raft/storage/InMemoryLog.h:68-80 | the term of the log seen as a value; 0 at index 0 |
| `InMemoryLog.MemoryLog.GetEntries` | src/infra/raft/storage/InMemoryLog.h:94-136 | the longest beginning of the rest of the log within both limits |
| `InMemoryLog.MemoryLog.TruncatePrefix` | src/infra/raft/storage/InMemoryLog.h:138-158 | the log from an index on, empty if that is past the end |
| `InMemoryLog.MemoryLog.TruncateSuffix` | src/infra/raft/storage/InMemoryLog.h:160-179 | the log up to an index, empty if that is before the beginning |
| `LogView.AppendIs` | src/infra/raft/storage/InMemoryLog.h:31-48 | appending changes no entry that was there, and puts the new ones at the next indices |
| `LogView.CutPrefixIs` | src/infra/raft/storage/InMemoryLog.h:138-158 | truncating before an index removes exactly the entries below it, at every index |
| `LogView.CutSuffixIs` | src/infra/raft/storage/InMemoryLog.h:160-179 | truncating behind an index removes exactly the entries above it, at every index |
| `SegmentLayout.LookupSeen` | src/infra/raft/storage/SegmentLog.cpp:185-209 | the segment that owns an index holds there what the whole log has there |
| `SegmentLayout.PartBatch` | src/infra/raft/storage/SegmentLog.cpp:235-254 | a batch from the owning segment is that of the whole log cut where the segment ends, and equal to it exactly when that one ends within the segment |
| `SegmentLayout.RollKeeps` | src/infra/raft/storage/SegmentLog.cpp:170-183 | rolling to a new segment changes nothing that is seen |
| `SegmentLayout.AppendKeeps` | src/infra/raft/storage/SegmentLog.cpp:280-305 | appending, with or without rolling, adds the entries to what is seen |
| `SegmentLayout.PrefixCutKeeps` | src/infra/raft/storage/SegmentLog.cpp:307-350 | the layout stays sound and what is seen then starts at the index kept |
| `SegmentLayout.PrefixCutStrays` | src/infra/raft/storage/SegmentLog.cpp:340-350 | the file of the active segment is left behind exactly when the index kept is past the last index and past the first index of that segment |
| `SegmentLayout.CutPastEnd` | src/infra/raft/storage/SegmentLog.cpp:340-350 | a log of one entry that then has two in-progress files |
| `SegmentLayout.SuffixCutKeeps` | src/infra/raft/storage/SegmentLog.cpp:352-429 | what is seen then ends at the index kept, whether it lies in the active segment, in a closed one, or nothing is left |
| `SegmentLayout.SuffixCutSoundIff` | src/infra/raft/storage/SegmentLog.cpp:352-429 | the layout stays sound exactly when the truncation does not reach before the first index |
| `SegmentLayout.BelowFirstIsUnreadable` | src/infra/raft/storage/SegmentLog.cpp:352-429 | after one that does, entries appended are found by no lookup, while the simple log returns them |
| `SegmentLayout.CutBelowFirst` | src/infra/raft/storage/SegmentLog.cpp:352-429 | a log of three entries for which this happens |
| `SegmentLog.SegmentedLog.constructor` | src/infra/raft/storage/SegmentLog.cpp:68-88 | a new directory gives an empty log that begins at 1 |
| `SegmentLog.SegmentedLog.AppendEntries` | src/infra/raft/storage/SegmentLog.cpp:280-305 | refuses a batch exactly when it does not follow on, else the log grows by it, over files that hold it; a new segment is begun exactly when it does not fit behind the active one |
| `SegmentLog.SegmentedLog.GetSegment` | src/infra/raft/storage/SegmentLog.cpp:185-209 | finds the owning segment exactly for an index within the log |
| `SegmentLog.SegmentedLog.GetEntry` | src/infra/raft/storage/SegmentLog.cpp:211-220 | the entry of the log seen as a value |
| `SegmentLog.SegmentedLog.GetTerm` | src/infra/raft/storage/SegmentLog.cpp:222-233 | the term of the log seen as a value, but 0 just before the first index |
| `SegmentLog.SegmentedLog.GetEntries` | src/infra/raft/storage/SegmentLog.cpp:235-254 | the batch of the log seen as a value, cut where the owning segment ends; nothing before the first index or behind the last |
| `SegmentLog.SegmentedLog.TruncatePrefix` | src/infra/raft/storage/SegmentLog.cpp:307-350 | the log from an index on; closed segments that end before it are let go; the active file becomes a stray exactly when that index is past the last one and past the first of the active segment |
| `SegmentLog.SegmentedLog.TruncateSuffix` | src/infra/raft/storage/SegmentLog.cpp:352-429 | the log up to an index; the log stays valid exactly when that does not reach before the first index |
| `SegmentLog.SegmentedLog.RecoverClosed` | src/infra/raft/storage/SegmentLog.cpp:90-148 | closed files are opened in order, those before the first index are left alone |
| `SegmentLog.SegmentedLog.RecoverActive` | src/infra/raft/storage/SegmentLog.cpp:150-168 | the in-progress files are opened, and the last index is found in them |
| `SegmentLog.SegmentedLog.OneInProgress` | src/infra/raft/storage/SegmentLog.cpp:90-121 | listing the files passes the assertion exactly when at most one of them is in progress |
| `SegmentLog.SegmentedLog.Reopen` | src/infra/raft/storage/SegmentLog.cpp:68-168 | opening the files of another log fails exactly when a stray is among them, and otherwise gives that log |
| `StorageCompare.AllOrNothing` | src/infra/raft/storage/InMemoryLog.h:41-48 | for a contiguous batch the two logs agree on what they take |
| `StorageCompare.StepBoth` | src/infra/raft/StorageMain.cpp:51-173 | an operation on both logs gives equal answers and equal logs |
| `StorageCompare.RunBoth` | src/infra/raft/StorageMain.cpp:51-173 | after any sequence of appends, reads, truncations and reopenings the two logs are equal, and were at every step |
| `StorageCompare.CutPastEndStopsStart` | src/infra/raft/storage/SegmentLog.cpp:90-121 | writing one entry, truncating before index 3 and starting again fails, for every entry |
| `DoubleBufferQueue.BufferQueue.constructor` | src/infra/mpscqueue/MpscDoubleBufferQueue.cpp:17-34 | a new queue is empty and open |
| `DoubleBufferQueue.BufferQueue.Enqueue` | src/infra/mpscqueue/MpscDoubleBufferQueue.cpp:17-34 | adds at the end, unless the queue is shut down |
| `DoubleBufferQueue.BufferQueue.Dequeue` | src/infra/mpscqueue/MpscDoubleBufferQueue.cpp:36-72 | takes the oldest element, whichever buffer holds it; stops only when empty and shut down |
| `DoubleBufferQueue.RunIsFifo` | src/infra/mpscqueue/MpscDoubleBufferQueue.cpp:17-72 | under every interleaving of producers and the consumer, what was taken is a beginning of what was added, and nothing is lost between the buffers |
| `DoubleBufferQueue.NothingWaits` | src/infra/mpscqueue/MpscDoubleBufferQueue.cpp:36-72 | the consumer stands still only when everything added has been taken |
| `DoubleBufferQueue.ConsumerGoesOn` | src/infra/mpscqueue/MpscDoubleBufferQueue.cpp:36-72 | each of its steps brings it nearer to that |
| `DoubleBufferQueue.StopAfterDrain` | src/infra/mpscqueue/MpscDoubleBufferQueue.cpp:36-72 | when the consumer is told to stop it has taken everything added so far |
| `DoubleBufferQueue.ShutdownIsFinal` | src/infra/mpscqueue/MpscDoubleBufferQueue.cpp:17-34 | after shutdown only producers already past the test can add, each once |
| `DoubleBufferQueue.NothingLeftBehind` | src/infra/mpscqueue/MpscDoubleBufferQueue.cpp:36-72 | if no producer is past the test when the consumer stops, nothing is ever left behind |
| `DoubleBufferQueue.PoisedLeftBehind` | src/infra/mpscqueue/MpscDoubleBufferQueue.cpp:36-72 | if one is, a continuation leaves its element behind |
| `DoubleBufferQueue.LatecomerIsLeftBehind` | src/infra/mpscqueue/MpscDoubleBufferQueue.cpp:17-72 | the shortest such run |
| `RoleRefresh.RunInv` | src/infra/raft/RaftLogStore.cpp:44-78 | under every interleaving of the Raft thread with the reads of term, role and term, what is stored was true of the term stored |
| `RoleRefresh.StoredLeaderLed` | src/infra/raft/RaftLogStore.cpp:44-78 | a stored leader role is always of a term the server really led |
| `RoleRefresh.DetectionsAreSound` | src/infra/es/store/RaftCommandEventStore.cpp:60-118 | no assertion of the detection fails, and "same leader" is reported only for a term that was led and is the one handed over |
| `RoleRefresh.NeverDemotedWithinTerm` | src/infra/raft/RaftLogStore.cpp:44-78 | within one term a stored leader is never stored as anything else |
| `RoleRefresh.ReadIsStored` | src/infra/raft/RaftLogStore.cpp:44-78 | a read that finds one term twice stores it, as led exactly if it was seen led now or before, and tells exactly what changed; one that does not is begun again |
| `RoleRefresh.LedIsStored` | src/infra/raft/RaftLogStore.cpp:44-78 | a term that is led from the first read to the last is stored as led and told as such |
| `ReplyLoop.RunInv` | src/infra/raft/RaftReplyLoop.cpp:58-199 | under every interleaving of the reply threads with the Raft thread, every queued reply is in a sound stage |
| `ReplyLoop.RepliesAreSound` | src/infra/raft/RaftReplyLoop.cpp:129-199 | every popped reply was answered exactly once, and with its own code only if the entry at its index has its term and is committed |
| `ReplyLoop.RepliesAreExact` | src/infra/raft/RaftReplyLoop.cpp:129-199 | 301 is answered only if the loop was stopped, another entry is committed at the index, or at some earlier moment the term was above its own and the log ended before its index; any other answer is the own code of a committed entry |
| `ReplyLoop.CommittedIsAnswered` | src/infra/raft/RaftReplyLoop.cpp:129-199 | a task whose entry is committed, in a loop that runs and never saw such a moment, leaves the queue with its own code |
| `ReplyLoop.RoundIs` | src/infra/raft/RaftReplyLoop.cpp:129-173 | one round of a thread while nothing else moves: when it gives up, when it waits on, and what it answers |
| `ReplyLoop.AnsweredInEight` | src/infra/raft/RaftReplyLoop.cpp:129-199 | wherever a thread stands, eight steps answer a task at whose index something is committed |
| `ReplyLoop.NothingIsLost` | src/infra/raft/RaftReplyLoop.cpp:58-127 | every task pushed is in the queue or has left it, once and in order |
| `ReplyLoop.ReadsAreSafe` | src/infra/raft/RaftReplyLoop.cpp:129-173 | the term of an entry is read only at a committed index, and only after a term at least its own was seen |
| `EventLoading.DecryptEntries` | src/infra/es/store/ReadonlyRaftCommandEventStore.cpp:263-300 | appends, in order, one bundle for each entry that is not a no-op and holds events |
| `EventLoading.BundleOfOne` | src/infra/es/store/ReadonlyRaftCommandEventStore.cpp:263-300 | an entry becomes a bundle exactly if it is no no-op and has events |
| `EventLoading.RunInv` | src/infra/es/store/ReadonlyRaftCommandEventStore.cpp:220-401 | under every interleaving of loading, decrypting and consuming threads, what is delivered, cached, queued and held is in order what was loaded |
| `EventLoading.AsyncDelivers` | src/infra/es/store/ReadonlyRaftCommandEventStore.cpp:113-134 | the bundles delivered are, in index order and each once, a beginning of those committed after the offset, and all loaded ones once the queues are empty |
| `EventLoading.QuietMeansDelivered` | src/infra/es/store/ReadonlyRaftCommandEventStore.cpp:220-401 | the threads stand still only when everything committed has been delivered |
| `EventLoading.LoadingFinishes` | src/infra/es/store/ReadonlyRaftCommandEventStore.cpp:220-401 | without new commits they do after a number of steps that is known beforehand |
| `EventLoading.AsyncRefinesSync` | src/infra/es/store/ReadonlyRaftCommandEventStore.cpp:337-401 | seen by the consumer, every step of asynchronous loading is a step of synchronous loading or none |
| `Handover.RunInv` | src/infra/es/store/ReadonlyRaftCommandEventStore.cpp:174-214 | under every interleaving, in a leader's term and after it, applied events, log, persist queue and submissions stay in step |
| `Handover.EntryIsThere` | src/infra/es/store/ReadonlyRaftCommandEventStore.cpp:198-201 | under every interleaving, also after the term is lost, the wait finds every entry it looks through |
| `Handover.CaughtUpIsReady` | src/infra/es/store/ReadonlyRaftCommandEventStore.cpp:174-214 | a leader with everything committed and loaded, and only no-ops behind what is applied, the last of its term, is found ready after five reads and one for each no-op |
| `Handover.LostTermQuits` | src/infra/es/store/ReadonlyRaftCommandEventStore.cpp:179-186 | a round of the wait quits exactly if the term is another |
| `Handover.HandedStateIsComplete` | src/app_util/EventApplyLoop.h:108-113 | the state handed to the command loop of a leader is the one after exactly the events of its whole log |
| `Handover.AcceptedArePrefix` | src/infra/raft/RaftLogStore.cpp:98-149 | while the leader leads, its log is the one it was elected with followed by a beginning of what the command loop submitted |
| `LeaderPipeline.PipeAt` | src/app_util/CommandProcessLoop.h:173-251 | on a server of any Raft run, at every moment, the log of the term is the one the leader was elected with followed by what was taken of the submissions, in the term and after it |
| `LeaderPipeline.TermLogAtEnd` | src/app_util/CommandProcessLoop.h:173-251 | at the end of the Raft run too, whether the server still leads, crashed, or stepped down and perhaps leads and takes requests again in a later term |
| `LeaderPipeline.CanFollow` | src/infra/raft/v2/RaftCore.cpp:184-281 | any step of the cluster that does not take requests on this server is one the hand-over can follow |
| `LeaderPipeline.RefusalRestsOnLog` | src/app_ledger/should_be_generated/domain/CommandProcessLoop.hpp:23-56 | a log of any server that has, at the last command id of the loop, an entry of the leader's term is up to there the log it was elected with followed by all that was submitted so far |
| `Refusals.RefusalIsSound` | src/infra/es/store/RaftCommandEventStore.cpp:31-58 | a command without events that is answered with its own code, in the term, after it or when the server leads again, was judged behind submissions that are by then all committed: up to its index the committed log is the one the leader was elected with followed by these, even if they were still queued when it was judged |
| `Refusals.JudgedState` | src/app_util/EventApplyLoop.h:108-113 | the state a leader's command loop judges on is that of the events of its log and of everything submitted behind it |
| `Refusals.RefusedOnCommittedState` | src/infra/raft/RaftReplyLoop.cpp:129-199 | so the state of the refusal is that of exactly the committed events up to its index |
| `Refusals.NothingGetsIn` | src/app_util/CommandProcessLoop.h:220-251 | if the server had stepped down when it took the state and has submitted nothing, no log ever has an entry of its term behind those it was elected with |
| `Refusals.RefusedAfterTheTerm` | src/infra/raft/RaftReplyLoop.cpp:129-199 | and a refusal answered with its own code was then judged behind no submission, on a beginning of what the server had committed when the state was taken |
| `Ledger.ApartIsDisjoint` | src/app_ledger/v2/AppStateMachine.cpp:26-63 | two metadata ranges that pass the overlap test have no code in common |
| `Ledger.ApartIffDisjoint` | src/app_ledger/v2/AppStateMachine.cpp:38-45 | for ranges that are not empty, the overlap test fails exactly if some code lies in both |
| `Ledger.ConfiguredCovers` | src/app_ledger/v2/AppStateMachine.cpp:47-54 | an accepted configuration covers every account of its type and shares no code with the range of another type |
| `Ledger.CoveredStays` | src/app_ledger/v2/AppStateMachine.cpp:26-63 | an account once within the range of its type stays there, whatever commands follow |
| `Ledger.Booked` | src/app_ledger/should_be_generated/domain/Account.h:130-194 | which of the six types a debit raises and which it lowers, and the reverse for a credit, at 64 bits; an unknown type or side is not booked |
| `Ledger.LinesMove` | src/app_ledger/should_be_generated/domain/Account.h:130-194 | after an entry every account has moved by what was debited and credited to it in all, up or down by its type, whatever the order of the lines |
| `Ledger.AcceptedIsApplicable` | src/app_ledger/v2/AppStateMachine.cpp:65-223 | an event produced by a judged command applies without a failed assertion and leaves sound books |
| `Ledger.ReachedIsSound` | src/app_ledger/v2/AppStateMachine.cpp:26-223 | any sequence of well-formed commands from empty books is processed without a failed assertion and leaves the ranges of different types disjoint and every account with a known type; nothing is claimed of an account's place in the ranges, which creating it does not consult |
| `Ledger.LinesBook` | src/app_ledger/v2/AppStateMachine.cpp:198-223 | lines that passed the judgement can all be booked, and change balances only |
| `LedgerMachine.StateMachine.constructor` | src/app_ledger/AppStateMachine.cpp:21-49 | a new machine has empty books |
| `LedgerMachine.StateMachine.ProcessConfigure` | src/app_ledger/v2/AppStateMachine.cpp:26-63 | 1001 exactly if the range meets that of another type, which for ranges that are not empty means that some code lies in both; else 1002 exactly if an account of the type lies outside; else 200 and exactly the one event |
| `LedgerMachine.StateMachine.ProcessCreate` | src/app_ledger/v2/AppStateMachine.cpp:73-96 | 400 without an account, 1000 exactly if the code is taken, else 200 and exactly the one event |
| `LedgerMachine.StateMachine.CheckLines` | src/app_ledger/v2/AppStateMachine.cpp:134-190 | the code of the first bad line, 1004, 1009 or 1008; else 1005 or 1006 for a missing side; else 1007 for totals that differ modulo 2^64; else 200 |
| `LedgerMachine.StateMachine.ProcessRecord` | src/app_ledger/v2/AppStateMachine.cpp:108-196 | 1003 exactly if the id is in memory or stored, else the code of the lines; an event exactly with 200; aborts exactly without an entry |
| `LedgerMachine.StateMachine.ApplyEntry` | src/app_ledger/v2/AppStateMachine.cpp:198-223 | every account moves by what is booked on it, and the id is remembered with its valid time; aborts exactly for a known id, a missing account or an unknown type or side |
| `LedgerMachine.StateMachine.ApplyEvent` | src/app_ledger/v2/AppStateMachine.cpp:65-106 | likewise for every event |
| `LedgerMachine.StateMachine.ProcessCommandAndApply` | src/app_ledger/AppStateMachine.cpp:51-62 | the books after judging a command and applying its events, and its verdict |
| `Conservation.BookLinesNet` | src/app_ledger/should_be_generated/domain/Account.h:130-194 | booking lines moves the signed sum of all balances by debits less credits, plus 2^64 times the carries of the lines |
| `Conservation.FittingDoesNotCarry` | src/app_ledger/should_be_generated/domain/Account.h:130-194 | if no balance wraps, the carries are 0 |
| `Conservation.NetIsConserved` | src/app_ledger/v2/AppStateMachine.cpp:108-223 | after any commands, the signed sum of all balances is that of the opening balances, modulo 2^64 |
| `Conservation.NetIsExact` | src/app_ledger/v2/AppStateMachine.cpp:108-223 | it is that of the opening balances plus 2^64 times the accumulated differences and carries, so equal to it if and only if these cancel |
| `Conservation.NetFromNothing` | src/app_ledger/v2/AppStateMachine.cpp:134-190 | three accepted commands, with opening balances of 0, after which it is 2^64 |
| `DurableLedger.DurableMachine.constructor` | src/app_ledger/v2/RocksDBBackedAppStateMachine.cpp:21-31 | a machine over a store begins as a recovered one |
| `DurableLedger.DurableMachine.FlushToStore` | src/app_ledger/v2/RocksDBBackedAppStateMachine.cpp:109-121 | the batch is written as a whole, and then empty; the store then has what is in memory |
| `DurableLedger.DurableMachine.Commit` | src/app_ledger/v2/RocksDBBackedAppStateMachine.cpp:33-51 | from the 500th index after the last flush on, the batch is written: it is empty, the stored and the last flushed index are the applied one, and the store has accounts, metadata and ids; before, only the index joins the batch |
| `DurableLedger.DurableMachine.ApplyEntry` | src/app_ledger/v2/RocksDBBackedAppStateMachine.cpp:208-234 | books and batch after an entry, every account moved by what is booked on it; aborts exactly when applying does |
| `DurableLedger.DurableMachine.ApplyEvent` | src/app_ledger/v2/RocksDBBackedAppStateMachine.cpp:178-234 | likewise for every event, and the store with the batch still mirrors the books |
| `DurableLedger.DurableMachine.RecoverSelf` | src/app_ledger/v2/RocksDBBackedAppStateMachine.cpp:123-176 | the books are those of the store, and the index to go on from is the stored one |
| `DurableLedger.PutsMirror` | src/app_ledger/v2/RocksDBBackedAppStateMachine.cpp:178-234 | writing what an event put into the batch to a store equal to the books gives a store equal to the books after it |
| `DurableLedger.CommittedKeepsUp` | src/app_ledger/v2/RocksDBBackedAppStateMachine.cpp:33-51 | what a commit leaves in store and batch, with and without a flush |
| `CrashRecovery.RunInv` | src/app_util/EventApplyLoop.h:159-200 | under every sequence of applied commands, flushes, crashes and recoveries, books, store and batch stay in step with the log |
| `CrashRecovery.StoreIsWholeCommands` | src/app_ledger/v2/RocksDBBackedAppStateMachine.cpp:33-51 | the store always holds the books after some whole number of commands, with the index of the last |
| `CrashRecovery.NeverFarBehind` | src/app_ledger/v2/RocksDBBackedAppStateMachine.cpp:33-51 | in every run with flushes, crashes and hand-overs, the stored index is less than 500 behind the last command run |
| `CrashRecovery.CrashEquivalent` | src/app_util/EventApplyLoop.h:352-365 | if the codec brings events back unchanged, crashing at any moment, recovering and replaying from the stored index gives the accounts and metadata of an undisturbed machine |
| `CrashRecovery.EveryIdIsRemembered` | src/app_ledger/v2/RocksDBBackedAppStateMachine.cpp:224-234 | at every moment the ids in memory and in the store together are exactly those recorded so far |
| `CrashRecovery.LeaderJudgesOnFullHistory` | src/app_ledger/v2/AppStateMachine.cpp:114-133 | a verdict from the books and the stored ids is the verdict from the whole history, and stays so after it |
| `CrashRecovery.AddedIsDistinct` | src/app_ledger/v2/AppStateMachine.cpp:114-133 | commands judged on books and stored ids that together hold a history add no id that it has, and none twice |
| `CrashRecovery.RecordedExactlyOnce` | src/app_ledger/v2/AppStateMachine.cpp:114-133 | at every moment of every run with flushes, crashes and recoveries, no id occurs twice in the history so far and whatever a new leader adds to it with the books and the store of that moment |
| `JournalCodec.EncodeTo` | src/app_ledger/should_be_generated/domain/JournalEntry.h:52-70 | the message takes every field of the entry but the id, and the lines behind those it has |
| `JournalCodec.RoundTripIffNoId` | src/app_ledger/should_be_generated/domain/JournalEntry.h:29-70 | decoding an encoded entry gives it without its id, so the round trip is exact only for an empty id |
| `JournalCodec.SecondReplayAborts` | src/app_ledger/should_be_generated/domain/JournalEntry.h:52-70 | of two entries that came through the log the second always fails the assertion that its id is new |
| `JournalCodec.ReplayIffOneEntry` | src/app_ledger/should_be_generated/domain/JournalEntry.h:52-70 | a history that applies can be replayed from the log exactly when it records at most one entry (none if the empty id is taken), and then gives the same accounts and metadata |
| `JournalCodec.ReplayedIdIsForgotten` | src/app_ledger/should_be_generated/domain/JournalEntry.h:52-70 | after such a replay the id of the entry counts as new again |
| `JournalCodec.CarriedIffNoIds` | src/app_ledger/should_be_generated/domain/JournalEntry.h:29-70 | the codec brings the events of a log back unchanged exactly when every journal entry in it has the empty id |
| `LedgerOnRaft.MachineIsUpToDate` | src/app_util/EventApplyLoop.h:159-200 | a machine that ran, crashed and recovered up to the end of the log its server was elected with has the books of that log, ids in memory and store together |
| `LedgerOnRaft.ServedIsJudged` | src/app_ledger/should_be_generated/domain/CommandProcessLoop.hpp:23-56 | what a leader takes from the ledger's command loop applies to the log it is appended to, if entries decode to the events they were made from |
| `LedgerOnRaft.EveryLogApplies` | src/app_ledger/v2/AppStateMachine.cpp:108-223 | in every Raft run whose leaders take requests only from the ledger's command loop and whose entries decode to the events they were made from (see `CarriedIffNoIds`), the events of every log of every server at every moment apply to empty books without a failed assertion, and no journal entry id occurs twice |

## Left out

- gRPC, TLS, DNS, streaming, the net administration service and the front end: transport only.
- The learner's log synchronisation (`handleSyncRequest`) and log compaction inside the cluster model: a server's log is whole there.
- The timers themselves: any step may come at any moment. `NeverStuck` says what can still happen, not when it does.
- The handles of waiting clients in `RaftCore`: they decide who is told, not what is decided.
- The heartbeat interval of a peer's switch: it is on or off, and may be used as soon as it is on.
- `mmap`, `msync` and `rename` as system calls, and a crash between two of them inside the storage layer; a crash between two writes of a handler is in the cluster model.
- Reopening a log with other segment size limits.
- Segments larger than their files: a batch that does not fit an empty segment overruns it in the source; the model asks that it fits.
- Readers beside the writer of the segmented log: its methods are called one at a time here.
- AES, HMAC and protobuf: a `Codec` and a `Decoder` with the properties named above.
- Wrap-around of indices, terms and sizes at 2^64.
- Version fields of messages; only version 1 exists.
- SQLite and default event stores, snapshots, metrics and logging.
- Conservation per currency: the sum is over all accounts.
- Threads of the queue, the reply loop, the event loader and the hand-over are atomic steps on values, one for each access to shared state; the class `BufferQueue` is the sequential form.
- Accounts, peers and metadata are values in maps and sets, so aliasing of shared objects is not captured.
- RaftServer.AdvanceCommitIndex: does not model the replies to waiting clients, because they change nothing the protocol reads.
