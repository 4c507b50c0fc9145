/** A new leader takes over: the command loop waits until the apply loop has caught up with the log,
    takes its state, and from then on gives every command the index its entry will have. */
module Handover {
  import opened Common
  import opened RaftTypes
  import opened RaftCore
  import opened EventLoading

  /** Where the command loop stands. The values are those it has read, one at a time. */
  datatype Wait =
    | Begin
    | KnowTerm
    | KnowLast(last: nat)
    | KnowCommit(last: nat, commit: nat)
    | KnowLoaded(last: nat, commit: nat, loaded: nat)
    | Scan(last: nat, applied: nat, pos: nat)   // about to read the entry behind the first pos ones
    | Ready(last: nat)
    | Quit
    | Failed                                    // the entry to read was not there
    | Leading

  /** `term` is the term waited for. `delivered` are the bundles in the apply loop's state, on top of
      those up to `offset`; `handed` those in the state the command loop has taken. `queue` is what lies
      between the command loop and the Raft thread, `accepted` counts the entries that thread has taken. */
  datatype State<E> = State(
    term: nat, node: Node,
    offset: nat, loaded: nat, delivered: seq<Bundle<E>>, applying: nat, applied: nat,
    wait: Wait, handed: seq<Bundle<E>>, lastCommandId: nat,
    queue: seq<LogEntry>, submitted: seq<LogEntry>, accepted: nat)

  datatype Step<E> =
    | Raft(node: Node)                 // the Raft thread does anything but take requests
    | Load(loaded: nat)
    | Apply(b: Bundle<E>)              // loadNextCommandEvents() gives a bundle, and it is applied
    | ApplyNothing                     // loadNextCommandEvents() has nothing to give
    | Look                             // the next read of waitTillLeaderIsReadyOrStepDown()
    | Swap                             // swapStateAndTeardown()
    | Submit(payload: Bytes)           // a command with events
    | Batch(n: nat)                    // the first n queued entries reach the Raft thread

  predicate Leads<E>(s: State<E>) {
    s.node.role.Leader? && s.node.term == s.term
  }

  ghost predicate Enabled<E>(d: Decoder<E>, s: State<E>, step: Step<E>) {
    match step
    case Raft(n) =>
      // what is committed stays; a term is led once, and only requests add to the log while it is led
      && Indexed(n.log) && s.node.commitIndex <= n.commitIndex <= |n.log| && s.node.commitIndex <= |s.node.log|
      && n.log[..s.node.commitIndex] == s.node.log[..s.node.commitIndex]
      && (n.role.Leader? && n.term == s.term ==> Leads(s) && n.log == s.node.log)
    case Load(l) => true
    case Apply(b) =>
      // as EventLoading shows, the next event-bearing entry committed after those delivered
      s.node.commitIndex <= |s.node.log|
      && s.offset <= s.node.commitIndex
      && s.delivered + [b] <= Between(d, s.node.log, s.offset, s.node.commitIndex)
    case ApplyNothing => true
    case Look => !s.wait.Ready? && !s.wait.Quit? && !s.wait.Failed? && !s.wait.Leading?
    case Swap => s.wait.Ready?
    case Submit(_) => s.wait.Leading?
    case Batch(n) => n <= |s.queue|
  }

  /** One read. */
  function Looked<E>(s: State<E>): Wait {
    match s.wait
    case Begin => if s.node.term == s.term then KnowTerm else Quit
    case KnowTerm => KnowLast(|s.node.log|)
    case KnowLast(l) => KnowCommit(l, s.node.commitIndex)
    case KnowCommit(l, c) => KnowLoaded(l, c, s.loaded)
    case KnowLoaded(l, c, o) => if o != c || c != l then Begin else Scan(l, s.applied, s.applied)
    case Scan(l, a, i) =>
      if i >= l then Begin
      else if i >= |s.node.log| then Failed
      else if !s.node.log[i].noop then Begin
      else if i + 1 == l && s.node.log[i].term == s.term then Ready(l)
      else Scan(l, a, i + 1)
    case _ => s.wait
  }

  ghost function Next<E>(d: Decoder<E>, s: State<E>, step: Step<E>): State<E>
    requires Enabled(d, s, step)
  {
    match step
    case Raft(n) => s.(node := n)
    case Load(l) => s.(loaded := l)
    case Apply(b) => s.(applied := Max(s.applied, s.applying), delivered := s.delivered + [b], applying := b.id)
    case ApplyNothing => s.(applied := Max(s.applied, s.applying))
    case Look => s.(wait := Looked(s))
    case Swap => s.(wait := Leading, handed := s.delivered, lastCommandId := s.wait.last)
    case Submit(p) =>
      var e := LogEntry(s.term, s.lastCommandId + 1, false, p);
      s.(lastCommandId := s.lastCommandId + 1, queue := s.queue + [e], submitted := s.submitted + [e])
    case Batch(n) =>
      var node := HandleClientRequests(s.node, s.queue[..n]);
      s.(node := node, queue := s.queue[n..], accepted := s.accepted + (|node.log| - |s.node.log|))
  }

  // ---------------------------------------------------------------- bundles and indices

  /** The payload of an entry names the command by the index of the entry. */
  ghost predicate IdsCarried<E>(d: Decoder<E>) {
    forall e: LogEntry {:trigger d.decode(e)} :: !e.noop ==> d.decode(e).id == e.index
  }

  /** The bundles of the entries behind the first `a` and up to index `b`. */
  function Between<E>(d: Decoder<E>, log: seq<LogEntry>, a: nat, b: nat): seq<Bundle<E>>
    requires a <= b <= |log|
  {
    if a == b then []
    else if log[b - 1].noop || d.decode(log[b - 1]).events == [] then Between(d, log, a, b - 1)
    else Between(d, log, a, b - 1) + [d.decode(log[b - 1])]
  }

  lemma {:induction false} BetweenIs<E>(d: Decoder<E>, log: seq<LogEntry>, a: nat, b: nat)
    requires a <= b <= |log|
    ensures Between(d, log, a, b) == Bundles(d, log[a..b])
    decreases b
  {
    if a < b {
      assert log[a..b][..b - a - 1] == log[a..b - 1] && log[a..b][b - a - 1] == log[b - 1];
      BetweenIs(d, log, a, b - 1);
    }
  }

  lemma {:induction false} BetweenGrows<E>(d: Decoder<E>, log: seq<LogEntry>, a: nat, b: nat, c: nat)
    requires a <= b <= c <= |log|
    ensures Between(d, log, a, b) <= Between(d, log, a, c)
    decreases c
  {
    if b < c {
      BetweenGrows(d, log, a, b, c - 1);
    }
  }

  /** A beginning of the bundles ends where its last bundle says. */
  lemma {:induction false} EndsAtItsId<E>(d: Decoder<E>, log: seq<LogEntry>, a: nat, c: nat, given: seq<Bundle<E>>)
    requires IdsCarried(d) && Indexed(log) && a <= c <= |log| && given <= Between(d, log, a, c) && given != []
    ensures var x := given[|given| - 1].id; a < x <= c && given == Between(d, log, a, x)
    decreases c
  {
    if a < c {
      if given <= Between(d, log, a, c - 1) {
        EndsAtItsId(d, log, a, c - 1, given);
      }
    }
  }

  lemma {:induction false} NoopsAddNothing<E>(d: Decoder<E>, log: seq<LogEntry>, a: nat, b: nat, c: nat)
    requires a <= b <= c <= |log| && forall i {:trigger log[i]} :: b <= i < c ==> log[i].noop
    ensures Between(d, log, a, b) == Between(d, log, a, c)
    decreases c
  {
    if b < c {
      NoopsAddNothing(d, log, a, b, c - 1);
    }
  }

  // ---------------------------------------------------------------- what holds while the term is led

  /** The apply loop: what it has applied is a beginning of what is committed, and the applied index lies
      within it. */
  ghost predicate ApplierOk<E>(d: Decoder<E>, log: seq<LogEntry>, commit: nat, offset: nat,
                               delivered: seq<Bundle<E>>, applying: nat, applied: nat)
  {
    && commit <= |log|
    && (if offset <= commit then delivered <= Between(d, log, offset, commit) else delivered == [])
    && applying == (if delivered == [] then 0 else delivered[|delivered| - 1].id)
    && offset <= applied <= Max(offset, applying)
  }

  ghost predicate WaitOk<E>(d: Decoder<E>, s: State<E>, base: seq<LogEntry>) {
    match s.wait
    case KnowLast(l) => l == |base|
    case KnowCommit(l, _) => l == |base|
    case KnowLoaded(l, _, _) => l == |base|
    case Scan(l, a, i) =>
      && l == |base| && s.offset <= a <= s.applied && a <= i
      && forall j {:trigger base[j]} :: a <= j < i && j < |base| ==> base[j].noop
    case Ready(l) => l == |base| && s.offset <= |base| && s.delivered == Between(d, base, s.offset, |base|)
    case Leading => s.offset <= |base| && s.handed == Between(d, base, s.offset, |base|)
    case _ => true
  }

  /** Whether or not the term is still led: what was read of the commit index stays committed, and so the
      entries that are looked through stay in the log. */
  predicate ReadOk<E>(s: State<E>) {
    match s.wait
    case KnowCommit(_, c) => c <= s.node.commitIndex
    case KnowLoaded(_, c, _) => c <= s.node.commitIndex
    case Scan(l, _, _) => l <= s.node.commitIndex
    case Failed => false
    case _ => true
  }

  /** Of what was submitted the first entries are in the log, and the others are queued behind entries
      of other terms. */
  ghost predicate PipelineOk(term: nat, base: seq<LogEntry>, log: seq<LogEntry>, queue: seq<LogEntry>,
                             submitted: seq<LogEntry>, accepted: nat)
  {
    var left := |submitted| - accepted;
    && 0 <= left <= |queue| && log == base + submitted[..accepted]
    && queue[|queue| - left..] == submitted[accepted..]
    && (forall i {:trigger queue[i]} :: 0 <= i < |queue| - left ==> queue[i].term != term)
    && (forall i {:trigger submitted[i]} :: 0 <= i < |submitted| ==>
          submitted[i].term == term && submitted[i].index == |base| + 1 + i)
  }

  /** Before the handover nothing has been submitted, and nothing appended. */
  ghost predicate BeforeOk<E>(s: State<E>, base: seq<LogEntry>) {
    s.submitted == [] && s.node.log == base
  }

  ghost predicate Inv<E>(d: Decoder<E>, s: State<E>, base: seq<LogEntry>) {
    && IdsCarried(d) && Indexed(s.node.log) && ReadOk(s)
    && ApplierOk(d, s.node.log, s.node.commitIndex, s.offset, s.delivered, s.applying, s.applied)
    && (Leads(s) ==>
          && PipelineOk(s.term, base, s.node.log, s.queue, s.submitted, s.accepted) && WaitOk(d, s, base)
          && (if s.wait.Leading? then s.lastCommandId == |base| + |s.submitted| else BeforeOk(s, base)))
  }

  // ---------------------------------------------------------------- the pipeline

  lemma {:induction false} StaleAreDropped(queue: seq<LogEntry>, n: nat, term: nat, last: nat)
    requires n <= |queue| && forall i {:trigger queue[i]} :: 0 <= i < n ==> queue[i].term != term
    ensures Accepted(queue, term, last) == Accepted(queue[n..], term, last)
  {
    if n > 0 {
      StaleAreDropped(queue[1..], n - 1, term, last);
      assert queue[1..][n - 1..] == queue[n..];
    } else {
      assert queue[n..] == queue;
    }
  }

  lemma {:induction false} FollowingAreTaken(r: seq<LogEntry>, term: nat, last: nat)
    requires forall i {:trigger r[i]} :: 0 <= i < |r| ==> r[i].term == term && r[i].index == last + 1 + i
    ensures Accepted(r, term, last) == r
  {
    if r != [] {
      FollowingAreTaken(r[1..], term, last + 1);
    }
  }

  /** What of the queue the leader takes: the submitted entries among the first n, nothing else. */
  lemma BatchTakes(queue: seq<LogEntry>, stale: nat, n: nat, term: nat, last: nat)
    requires n <= |queue| && stale <= |queue|
    requires forall i {:trigger queue[i]} :: 0 <= i < stale ==> queue[i].term != term
    requires forall i {:trigger queue[i]} :: stale <= i < |queue| ==>
               queue[i].term == term && queue[i].index == last + 1 + i - stale
    ensures Accepted(queue[..n], term, last) == if n <= stale then [] else queue[stale..n]
  {
    var q := queue[..n];
    var k := if n <= stale then n else stale;
    StaleAreDropped(q, k, term, last);
    FollowingAreTaken(q[k..], term, last);
  }

  lemma BatchPipeline(term: nat, base: seq<LogEntry>, log: seq<LogEntry>, queue: seq<LogEntry>,
                      submitted: seq<LogEntry>, m: nat, n: nat, more: seq<LogEntry>)
    requires PipelineOk(term, base, log, queue, submitted, m) && n <= |queue|
    requires more == Accepted(queue[..n], term, |log|)
    ensures PipelineOk(term, base, log + more, queue[n..], submitted, m + |more|) && (submitted == [] ==> more == [])
  {
    var stale := |queue| - (|submitted| - m);
    forall i {:trigger queue[i]} | stale <= i < |queue|
      ensures queue[i].term == term && queue[i].index == |log| + 1 + i - stale
    {
      assert queue[i] == queue[stale..][i - stale] == submitted[m..][i - stale] == submitted[m + i - stale];
    }
    BatchTakes(queue, stale, n, term, |log|);
    if n <= stale {
      DropRest(queue, n, stale);
      assert log + more == log;
    } else {
      BatchMoves(queue, submitted, m, stale, n);
      Regroup(base, submitted[..m], queue[stale..n]);
      assert queue[n..][0..] == queue[n..];
    }
  }

  lemma DropRest(queue: seq<LogEntry>, n: nat, stale: nat)
    requires n <= stale <= |queue|
    ensures queue[n..][stale - n..] == queue[stale..]
  {
  }

  lemma BatchMoves(queue: seq<LogEntry>, submitted: seq<LogEntry>, m: nat, stale: nat, n: nat)
    requires stale <= n <= |queue| && m <= |submitted| && queue[stale..] == submitted[m..]
    ensures var m' := m + n - stale;
            m' <= |submitted| && submitted[..m] + queue[stale..n] == submitted[..m'] && queue[n..] == submitted[m'..]
  {
    var m' := m + n - stale;
    assert queue[stale..n] == queue[stale..][..n - stale] == submitted[m..][..n - stale] == submitted[m..m'];
    assert queue[n..] == queue[stale..][n - stale..] == submitted[m..][n - stale..] == submitted[m'..];
  }

  /** What is read of the committed entries does not depend on what comes behind them. */
  lemma {:induction false} BetweenSame<E>(d: Decoder<E>, log: seq<LogEntry>, log': seq<LogEntry>, a: nat, b: nat)
    requires a <= b <= |log| && b <= |log'| && log'[..b] == log[..b]
    ensures Between(d, log', a, b) == Between(d, log, a, b)
    decreases b
  {
    if a < b {
      assert log'[b - 1] == log'[..b][b - 1] == log[b - 1];
      assert log'[..b - 1] == log'[..b][..b - 1] == log[..b - 1];
      BetweenSame(d, log, log', a, b - 1);
    }
  }

  lemma ApplierKept<E>(d: Decoder<E>, log: seq<LogEntry>, log': seq<LogEntry>, c: nat, c': nat, offset: nat,
                       delivered: seq<Bundle<E>>, applying: nat, applied: nat)
    requires ApplierOk(d, log, c, offset, delivered, applying, applied)
    requires c <= c' <= |log'| && log'[..c] == log[..c]
    ensures ApplierOk(d, log', c', offset, delivered, applying, applied)
  {
    if offset <= c {
      BetweenSame(d, log, log', offset, c);
      BetweenGrows(d, log', offset, c, c');
    }
  }

  lemma Appended(log: seq<LogEntry>, more: seq<LogEntry>, c: nat)
    requires Indexed(log) && c <= |log|
    requires forall i {:trigger more[i]} :: 0 <= i < |more| ==> more[i].index == |log| + 1 + i
    ensures Indexed(log + more) && (log + more)[..c] == log[..c] && (more == [] ==> log + more == log)
  {
  }

  /** A batch adds to the log of a leader, if anything, and takes from the queue; no reader notices. */
  lemma BatchIs<E>(d: Decoder<E>, s: State<E>, s': State<E>, n: nat, more: seq<LogEntry>)
    requires Enabled(d, s, Batch(n)) && s' == Next(d, s, Batch(n))
    requires more == Accepted(s.queue[..n], s.node.term, |s.node.log|)
    ensures s' == s.(node := s'.node, queue := s.queue[n..], accepted := s'.accepted)
    ensures if s.node.role.Leader? then s'.node == s.node.(log := s.node.log + more) && s'.accepted == s.accepted + |more|
            else s'.node == s.node && s'.accepted == s.accepted
  {
  }

  lemma WaitKept<E>(d: Decoder<E>, s: State<E>, s': State<E>, base: seq<LogEntry>)
    requires WaitOk(d, s, base) && s' == s.(node := s'.node, queue := s'.queue, accepted := s'.accepted)
    ensures WaitOk(d, s', base)
  {
  }

  lemma BatchKeeps<E>(d: Decoder<E>, s: State<E>, s': State<E>, base: seq<LogEntry>, n: nat)
    requires Inv(d, s, base) && Enabled(d, s, Batch(n)) && s' == Next(d, s, Batch(n))
    ensures Inv(d, s', base)
  {
    var more, c := Accepted(s.queue[..n], s.node.term, |s.node.log|), s.node.commitIndex;
    BatchIs(d, s, s', n, more);
    Appended(s.node.log, more, c);
    if s.node.role.Leader? {
      ApplierKept(d, s.node.log, s'.node.log, c, c, s.offset, s.delivered, s.applying, s.applied);
    }
    if Leads(s) {
      BatchPipeline(s.term, base, s.node.log, s.queue, s.submitted, s.accepted, n, more);
      WaitKept(d, s, s', base);
    }
  }

  lemma SubmitKeeps<E>(d: Decoder<E>, s: State<E>, s': State<E>, base: seq<LogEntry>, payload: Bytes)
    requires Inv(d, s, base) && Enabled(d, s, Submit(payload)) && s' == Next(d, s, Submit(payload))
    ensures Inv(d, s', base)
  {
    if Leads(s) {
      var m, stale := s.accepted, |s.queue| - (|s.submitted| - s.accepted);
      var e := s'.submitted[|s.submitted|];
      assert s'.submitted[..m] == s.submitted[..m];
      assert s'.queue[stale..] == s.queue[stale..] + [e] == s.submitted[m..] + [e] == s'.submitted[m..];
    }
  }

  // ---------------------------------------------------------------- the apply loop and the wait

  lemma ApplyApplier<E>(d: Decoder<E>, log: seq<LogEntry>, c: nat, offset: nat,
                        delivered: seq<Bundle<E>>, applying: nat, applied: nat, b: Bundle<E>)
    requires IdsCarried(d) && Indexed(log) && ApplierOk(d, log, c, offset, delivered, applying, applied)
    requires offset <= c && delivered + [b] <= Between(d, log, offset, c)
    ensures ApplierOk(d, log, c, offset, delivered + [b], b.id, Max(applied, applying))
  {
    EndsAtItsId(d, log, offset, c, delivered + [b]);
    if delivered != [] {
      EndsAtItsId(d, log, offset, c, delivered);
      if b.id < applying {
        BetweenGrows(d, log, offset, b.id, applying);
      }
    }
  }

  lemma ApplyKeeps<E>(d: Decoder<E>, s: State<E>, s': State<E>, base: seq<LogEntry>, b: Bundle<E>)
    requires Inv(d, s, base) && Enabled(d, s, Apply(b)) && s' == Next(d, s, Apply(b))
    ensures Inv(d, s', base)
  {
    var c := s.node.commitIndex;
    ApplyApplier(d, s.node.log, c, s.offset, s.delivered, s.applying, s.applied, b);
    if Leads(s) && s.wait.Ready? {
      BetweenGrows(d, base, s.offset, c, |base|);
    }
  }

  lemma LookKeeps<E>(d: Decoder<E>, s: State<E>, s': State<E>, base: seq<LogEntry>)
    requires Inv(d, s, base) && Enabled(d, s, Look) && s' == Next(d, s, Look)
    ensures Inv(d, s', base)
  {
    if Leads(s) && s'.wait.Ready? {
      var a, l := s.wait.applied, |base|;
      NoopsAddNothing(d, base, s.offset, a, l);
      CaughtUp(d, s, base, a);
    }
  }

  /** Everything up to the applied index is in the state, and behind it there is nothing to apply. */
  lemma CaughtUp<E>(d: Decoder<E>, s: State<E>, base: seq<LogEntry>, a: nat)
    requires IdsCarried(d) && Indexed(base) && s.offset <= a <= s.applied && a <= |base|
    requires ApplierOk(d, base, s.node.commitIndex, s.offset, s.delivered, s.applying, s.applied)
    requires Between(d, base, s.offset, a) == Between(d, base, s.offset, |base|)
    ensures s.delivered == Between(d, base, s.offset, |base|)
  {
    var c := s.node.commitIndex;
    if s.delivered == [] {
      assert a == s.offset;
    } else {
      EndsAtItsId(d, base, s.offset, c, s.delivered);
      BetweenGrows(d, base, s.offset, c, |base|);
      if a <= s.applying {
        BetweenGrows(d, base, s.offset, a, s.applying);
      }
    }
  }

  lemma RaftKeeps<E>(d: Decoder<E>, s: State<E>, s': State<E>, base: seq<LogEntry>, n: Node)
    requires Inv(d, s, base) && Enabled(d, s, Raft(n)) && s' == Next(d, s, Raft(n))
    ensures Inv(d, s', base)
  {
    ApplierKept(d, s.node.log, n.log, s.node.commitIndex, n.commitIndex, s.offset, s.delivered, s.applying, s.applied);
  }

  lemma OtherKeeps<E>(d: Decoder<E>, s: State<E>, s': State<E>, base: seq<LogEntry>, step: Step<E>)
    requires Inv(d, s, base) && Enabled(d, s, step) && s' == Next(d, s, step)
    requires step.Load? || step.ApplyNothing? || step.Swap?
    ensures Inv(d, s', base)
  {
  }

  lemma StepKeepsInv<E>(d: Decoder<E>, s: State<E>, s': State<E>, base: seq<LogEntry>, step: Step<E>)
    requires Inv(d, s, base) && Enabled(d, s, step) && s' == Next(d, s, step)
    ensures Inv(d, s', base) && s'.term == s.term && s'.offset == s.offset
    ensures Leads(s') ==> Leads(s)
  {
    match step
    case Raft(n) => RaftKeeps(d, s, s', base, n);
    case Apply(b) => ApplyKeeps(d, s, s', base, b);
    case Look => LookKeeps(d, s, s', base);
    case Submit(p) => SubmitKeeps(d, s, s', base, p);
    case Batch(n) => BatchKeeps(d, s, s', base, n);
    case _ => OtherKeeps(d, s, s', base, step);
  }

  // ---------------------------------------------------------------- whole runs

  /** The server has just become leader of the term: what is still queued was meant for earlier terms, and
      the apply loop is somewhere behind. */
  ghost predicate Elected<E>(d: Decoder<E>, s: State<E>) {
    && IdsCarried(d) && Indexed(s.node.log) && Leads(s)
    && s.wait.Begin? && s.submitted == [] && s.accepted == 0
    && ApplierOk(d, s.node.log, s.node.commitIndex, s.offset, s.delivered, s.applying, s.applied)
    && (forall i {:trigger s.queue[i]} :: 0 <= i < |s.queue| ==> s.queue[i].term < s.term)
  }

  ghost predicate IsRun<E>(d: Decoder<E>, steps: seq<Step<E>>, run: seq<State<E>>) {
    && |run| == |steps| + 1 && Elected(d, run[0])
    && forall k {:trigger steps[k]} :: 0 <= k < |steps| ==>
         Enabled(d, run[k], steps[k]) && run[k + 1] == Next(d, run[k], steps[k])
  }

  lemma {:induction false} RunInv<E>(d: Decoder<E>, steps: seq<Step<E>>, run: seq<State<E>>, k: nat)
    requires IsRun(d, steps, run) && k < |run|
    ensures Inv(d, run[k], run[0].node.log) && run[k].term == run[0].term && run[k].offset == run[0].offset
    decreases k
  {
    if k == 0 {
      var s := run[0];
      assert s.node.log + s.submitted[..0] == s.node.log;
    } else {
      RunInv(d, steps, run, k - 1);
      StepKeepsInv(d, run[k - 1], run[k], run[0].node.log, steps[k - 1]);
    }
  }

  /** The wait never looks for an entry that is not there, also when the term is lost while it looks and the
      end of the log is cut off. */
  lemma EntryIsThere<E>(d: Decoder<E>, steps: seq<Step<E>>, run: seq<State<E>>, k: nat)
    requires IsRun(d, steps, run) && k < |run|
    ensures !run[k].wait.Failed?
    ensures run[k].wait.Scan? && run[k].wait.pos < run[k].wait.last ==> run[k].wait.pos < |run[k].node.log|
  {
    RunInv(d, steps, run, k);
  }

  /** If the wait has returned an index and the server still leads the term when the states are swapped,
      the state taken holds every event of the whole log up to that index, and nothing else. */
  lemma HandedStateIsComplete<E>(d: Decoder<E>, steps: seq<Step<E>>, run: seq<State<E>>, k: nat)
    requires IsRun(d, steps, run) && k < |run| && run[k].wait.Ready? && Leads(run[k])
    ensures run[k].wait.last == |run[k].node.log| && run[k].offset <= |run[k].node.log|
    ensures Next(d, run[k], Swap).handed == Bundles(d, run[k].node.log[run[k].offset..])
  {
    RunInv(d, steps, run, k);
    var s, base := run[k], run[0].node.log;
    BetweenIs(d, base, s.offset, |base|);
    assert base[s.offset..|base|] == base[s.offset..];
  }

  /** As long as the term is led, the entries accepted after the handover are a beginning of those
      submitted, and each is stored at the index equal to its command id. */
  lemma AcceptedArePrefix<E>(d: Decoder<E>, steps: seq<Step<E>>, run: seq<State<E>>, k: nat)
    requires IsRun(d, steps, run) && k < |run| && Leads(run[k])
    ensures run[0].node.log <= run[k].node.log
    ensures run[k].node.log[|run[0].node.log|..] <= run[k].submitted
    ensures Indexed(run[k].node.log)
  {
    RunInv(d, steps, run, k);
    var s, base := run[k], run[0].node.log;
    assert s.node.log[|base|..] == s.submitted[..s.accepted];
    forall i | 0 <= i < |s.node.log| ensures s.node.log[i].index == i + 1 {
      if i >= |base| {
        assert s.node.log[i] == s.submitted[i - |base|];
      }
    }
  }

  lemma RunStep<E>(d: Decoder<E>, steps: seq<Step<E>>, run: seq<State<E>>, k: nat)
    requires IsRun(d, steps, run) && k < |steps|
    ensures Enabled(d, run[k], steps[k]) && run[k + 1] == Next(d, run[k], steps[k])
  {
  }

  /** What has been submitted stays submitted. */
  lemma {:induction false} SubmittedGrows<E>(d: Decoder<E>, steps: seq<Step<E>>, run: seq<State<E>>, j: nat, k: nat)
    requires IsRun(d, steps, run) && j <= k < |run|
    ensures run[j].submitted <= run[k].submitted
    decreases k
  {
    if j < k {
      SubmittedGrows(d, steps, run, j, k - 1);
      RunStep(d, steps, run, k - 1);
    }
  }

  /** The command loop takes a state once. */
  lemma {:induction false} HandedStays<E>(d: Decoder<E>, steps: seq<Step<E>>, run: seq<State<E>>, j: nat, k: nat)
    requires IsRun(d, steps, run) && j <= k < |run| && run[j].wait.Leading?
    ensures run[k].wait.Leading? && run[k].handed == run[j].handed
    decreases k
  {
    if j < k {
      HandedStays(d, steps, run, j, k - 1);
      RunStep(d, steps, run, k - 1);
    }
  }

  /** A term that is led has been led all the while. */
  lemma {:induction false} LedAllTheWhile<E>(d: Decoder<E>, steps: seq<Step<E>>, run: seq<State<E>>, j: nat, k: nat)
    requires IsRun(d, steps, run) && j <= k < |run| && Leads(run[k])
    ensures Leads(run[j])
    decreases k
  {
    if j < k {
      RunInv(d, steps, run, k - 1);
      RunStep(d, steps, run, k - 1);
      StepKeepsInv(d, run[k - 1], run[k], run[0].node.log, steps[k - 1]);
      LedAllTheWhile(d, steps, run, j, k - 1);
    }
  }

  lemma {:induction false} TookOver<E>(d: Decoder<E>, steps: seq<Step<E>>, run: seq<State<E>>, k: nat) returns (w: nat)
    requires IsRun(d, steps, run) && k < |run| && run[k].wait.Leading?
    ensures w < k && steps[w].Swap?
    decreases k
  {
    RunStep(d, steps, run, k - 1);
    if run[k - 1].wait.Leading? {
      w := TookOver(d, steps, run, k - 1);
    } else {
      w := k - 1;
    }
  }

  // ---------------------------------------------------------------- the wait ends when it should

  /** Everything is committed and loaded, and behind what is applied there are only no-ops, the last of them
      of the term waited for. */
  ghost predicate HasCaughtUp<E>(s: State<E>) {
    && s.loaded == s.node.commitIndex == |s.node.log| && s.applied < |s.node.log|
    && (forall i {:trigger s.node.log[i]} :: s.applied <= i < |s.node.log| ==> s.node.log[i].noop)
    && s.node.log[|s.node.log| - 1].term == s.term
  }

  function LookedTimes<E>(s: State<E>, n: nat): State<E>
    decreases n
  {
    if n == 0 then s else LookedTimes(s.(wait := Looked(s)), n - 1)
  }

  lemma {:induction false} ScanEnds<E>(s: State<E>, i: nat)
    requires HasCaughtUp(s) && s.applied <= i < |s.node.log| && s.wait == Scan(|s.node.log|, s.applied, i)
    ensures LookedTimes(s, |s.node.log| - i) == s.(wait := Ready(|s.node.log|))
    decreases |s.node.log| - i
  {
    if i + 1 == |s.node.log| {
      assert LookedTimes(s, 1) == LookedTimes(s.(wait := Looked(s)), 0);
    } else {
      ScanEnds(s.(wait := Looked(s)), i + 1);
    }
  }

  lemma LookedOnce<E>(s: State<E>, w: Wait, n: nat)
    requires Looked(s) == w
    ensures LookedTimes(s, n + 1) == LookedTimes(s.(wait := w), n)
  {
  }

  lemma FirstReads<E>(s: State<E>, l: nat, n: nat)
    requires s.wait == Begin && s.node.term == s.term && |s.node.log| == l
    ensures LookedTimes(s, n + 2) == LookedTimes(s.(wait := KnowLast(l)), n)
  {
    LookedOnce(s, KnowTerm, n + 1);
    LookedOnce(s.(wait := KnowTerm), KnowLast(l), n);
  }

  lemma LastReads<E>(s: State<E>, l: nat, n: nat)
    requires s.wait == KnowLast(l) && s.node.commitIndex == s.loaded == l
    ensures LookedTimes(s, n + 3) == LookedTimes(s.(wait := Scan(l, s.applied, s.applied)), n)
  {
    LookedOnce(s, KnowCommit(l, l), n + 2);
    LookedOnce(s.(wait := KnowCommit(l, l)), KnowLoaded(l, l, l), n + 1);
    LookedOnce(s.(wait := KnowLoaded(l, l, l)), Scan(l, s.applied, s.applied), n);
  }

  /** A leader whose apply loop has caught up is found ready, after five reads and one for each no-op. */
  lemma CaughtUpIsReady<E>(s: State<E>, n: nat)
    requires HasCaughtUp(s) && s.wait == Begin && s.node.term == s.term && n == |s.node.log| - s.applied
    ensures LookedTimes(s, n + 5) == s.(wait := Ready(|s.node.log|))
  {
    var l := |s.node.log|;
    FirstReads(s, l, n + 3);
    LastReads(s.(wait := KnowLast(l)), l, n);
    ScanEnds(s.(wait := Scan(l, s.applied, s.applied)), s.applied);
  }

  /** A term that is over ends it at the next round. */
  lemma LostTermQuits<E>(s: State<E>)
    requires s.wait == Begin
    ensures Looked(s) == Quit <==> s.node.term != s.term
  {
  }
}
