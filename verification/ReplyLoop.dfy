/** Clients are answered by a pool of threads, each of which waits for the log entry of a task to commit. */
module ReplyLoop {
  import opened RaftTypes

  datatype Reply = Own(code: nat) | NotLeader

  /** 0, 1 and 2 in the atomic flag of a task. */
  datatype Flag = Fresh | Doing | Done

  /** Where the thread that has claimed a task stands. */
  datatype Stage =
    | Idle
    | Check                       // about to look whether the loop still runs
    | ReadTerm1
    | ReadLast(term1: nat)
    | ReadTerm2(term1: nat, last: nat)
    | ReadCommit
    | ReadEntry
    | Decided(committed: bool)
    | Sent

  datatype Task = Task(index: nat, term: nat, code: nat, flag: Flag, stage: Stage, replies: seq<Reply>)

  /** `term`, `last` and `committed` are what the Raft thread shows; committed entries only get more. */
  datatype State = State(
    term: nat, last: nat, committed: seq<LogEntry>, running: bool,
    queue: seq<Task>, popSeen: bool, popped: seq<Task>)

  datatype Step =
    | Raft(term: nat, last: nat, more: seq<LogEntry>)
    | Push(index: nat, term: nat, code: nat)
    | Claim(i: nat)             // compare-and-swap of the flag from 0 to 1
    | Work(i: nat)              // the next read of the thread that has task i, or its reply
    | Release(i: nat)           // the flag becomes 2
    | SeePop                    // the pop thread sees a finished task in front
    | Pop
    | StopRunning

  predicate Enabled(s: State, step: Step) {
    match step
    case Raft(t, _, _) => t >= s.term
    case Push(index, t, _) => 1 <= index && t <= s.term
    case Claim(i) => i < |s.queue| && s.queue[i].flag.Fresh?
    case Work(i) => i < |s.queue| && s.queue[i].flag.Doing? && !s.queue[i].stage.Sent? && !s.queue[i].stage.Idle?
    case Release(i) => i < |s.queue| && s.queue[i].flag.Doing? && s.queue[i].stage.Sent?
    case SeePop => s.queue != [] && s.queue[0].flag.Done? && !s.popSeen
    case Pop => s.popSeen && s.queue != []
    case StopRunning => true
  }

  /** One atomic action of waitTillCommittedOrQuit() and replyTask(). */
  function Worked(s: State, t: Task): Task {
    match t.stage
    case Idle => t
    case Check => t.(stage := if s.running then ReadTerm1 else Decided(false))
    case ReadTerm1 => t.(stage := ReadLast(s.term))
    case ReadLast(t1) => t.(stage := ReadTerm2(t1, s.last))
    case ReadTerm2(t1, last) =>
      if s.term != t1 then t.(stage := ReadTerm1)
      else if last < t.index && t1 > t.term then t.(stage := Decided(false))
      else t.(stage := ReadCommit)
    case ReadCommit => t.(stage := if |s.committed| < t.index then Check else ReadEntry)
    case ReadEntry =>
      t.(stage := Decided(1 <= t.index <= |s.committed| && s.committed[t.index - 1].term == t.term))
    case Decided(ok) => t.(stage := Sent, replies := t.replies + [if ok then Own(t.code) else NotLeader])
    case Sent => t
  }

  function Next(s: State, step: Step): State
    requires Enabled(s, step)
  {
    match step
    case Raft(t, last, more) => s.(term := t, last := last, committed := s.committed + more)
    case Push(index, t, code) => s.(queue := s.queue + [Task(index, t, code, Fresh, Idle, [])])
    case Claim(i) => s.(queue := s.queue[i := s.queue[i].(flag := Doing, stage := Check)])
    case Work(i) => s.(queue := s.queue[i := Worked(s, s.queue[i])])
    case Release(i) => s.(queue := s.queue[i := s.queue[i].(flag := Done)])
    case SeePop => s.(popSeen := true)
    case Pop => s.(popSeen := false, popped := s.popped + [s.queue[0]], queue := s.queue[1..])
    case StopRunning => s.(running := false)
  }

  ghost predicate IsRun(steps: seq<Step>, run: seq<State>) {
    && |run| == |steps| + 1 && run[0] == State(run[0].term, run[0].last, run[0].committed, true, [], false, [])
    && forall k {:trigger steps[k]} :: 0 <= k < |steps| ==> Enabled(run[k], steps[k]) && run[k + 1] == Next(run[k], steps[k])
  }

  // ---------------------------------------------------------------- what every interleaving keeps

  predicate CommittedAt(committed: seq<LogEntry>, index: nat, term: nat) {
    1 <= index <= |committed| && committed[index - 1].term == term
  }

  ghost predicate StageOk(s: State, t: Task) {
    match t.stage
    case ReadLast(t1) => t.term <= t1 <= s.term
    case ReadTerm2(t1, _) => t.term <= t1 <= s.term
    case ReadEntry => t.index <= |s.committed|
    case Decided(ok) => ok ==> CommittedAt(s.committed, t.index, t.term)
    case _ => true
  }

  ghost predicate TaskOk(s: State, t: Task) {
    && 1 <= t.index && t.term <= s.term && StageOk(s, t)
    && (t.flag.Fresh? ==> t.stage.Idle?) && (t.flag.Doing? ==> !t.stage.Idle?) && (t.flag.Done? ==> t.stage.Sent?)
    && |t.replies| == (if t.stage.Sent? then 1 else 0)
    && (t.replies != [] ==> t.replies[0] == NotLeader
                            || (t.replies[0] == Own(t.code) && CommittedAt(s.committed, t.index, t.term)))
  }

  ghost predicate Inv(s: State) {
    && (forall i {:trigger s.queue[i]} :: 0 <= i < |s.queue| ==> TaskOk(s, s.queue[i]))
    && (forall i {:trigger s.popped[i]} :: 0 <= i < |s.popped| ==> TaskOk(s, s.popped[i]) && s.popped[i].flag.Done?)
    && (s.popSeen ==> s.queue != [] && s.queue[0].flag.Done?)
  }

  lemma TaskKept(s: State, s': State, t: Task)
    requires TaskOk(s, t) && s.term <= s'.term && s.committed <= s'.committed
    ensures TaskOk(s', t)
  {
  }

  lemma WorkedOk(s: State, t: Task)
    requires TaskOk(s, t) && t.flag.Doing? && !t.stage.Sent?
    ensures TaskOk(s, Worked(s, t))
  {
  }

  lemma StepKeepsInv(s: State, s': State, step: Step)
    requires Inv(s) && Enabled(s, step) && s' == Next(s, step)
    ensures Inv(s') && s.committed <= s'.committed
  {
    forall t | TaskOk(s, t) ensures TaskOk(s', t) {
      TaskKept(s, s', t);
    }
    if step.Work? {
      WorkedOk(s, s.queue[step.i]);
    }
    forall i | 0 <= i < |s'.queue| ensures TaskOk(s', s'.queue[i]) {
      assert step.Pop? ==> s'.queue[i] == s.queue[i + 1];
      assert !step.Pop? && i < |s.queue| ==> TaskOk(s, s.queue[i]);
    }
  }

  lemma {:induction false} RunInv(steps: seq<Step>, run: seq<State>, k: nat)
    requires IsRun(steps, run) && k < |run|
    ensures Inv(run[k])
    decreases k
  {
    if k > 0 {
      RunInv(steps, run, k - 1);
      StepKeepsInv(run[k - 1], run[k], steps[k - 1]);
    }
  }

  /** Reply soundness: at any moment a task, queued or popped, has been answered at most once, one that
      is popped exactly once; and it was answered with its own code only if the entry with its index and
      term is committed. */
  lemma RepliesAreSound(steps: seq<Step>, run: seq<State>, k: nat, t: Task)
    requires IsRun(steps, run) && k < |run| && (t in run[k].queue || t in run[k].popped)
    ensures |t.replies| <= 1 && (t in run[k].popped ==> t.flag.Done? && |t.replies| == 1)
    ensures forall r :: r in t.replies ==>
              r == NotLeader || (r == Own(t.code) && CommittedAt(run[k].committed, t.index, t.term))
  {
    RunInv(steps, run, k);
  }

  // ---------------------------------------------------------------- when a client is told to go elsewhere

  /** At an earlier moment the term was above that of t, and the log ended before its index. */
  ghost predicate PassedBy(run: seq<State>, k: nat, t: Task) {
    exists j: nat {:trigger run[j]} :: j <= k && j < |run| && run[j].term > t.term && run[j].last < t.index
  }

  /** The loop has been stopped, another entry is committed at its index, or the term has moved on
      while the log did not reach that far. The last does not say that the entry will not be committed. */
  ghost predicate Excused(run: seq<State>, k: nat, t: Task) {
    && k < |run|
    && (!run[k].running
        || (1 <= t.index <= |run[k].committed| && run[k].committed[t.index - 1].term != t.term)
        || PassedBy(run, k, t))
  }

  ghost predicate SawLast(run: seq<State>, k: nat, term1: nat, last: nat) {
    exists j: nat {:trigger run[j]} :: j <= k && j < |run| && run[j].term >= term1 && run[j].last == last
  }

  ghost predicate ReasonOk(run: seq<State>, k: nat, t: Task) {
    && (t.stage.ReadTerm2? ==> SawLast(run, k, t.stage.term1, t.stage.last))
    && ((t.stage.Decided? && !t.stage.committed) || NotLeader in t.replies ==> Excused(run, k, t))
  }

  ghost predicate ReasonsAt(run: seq<State>, k: nat) {
    && k < |run|
    && (forall i {:trigger run[k].queue[i]} :: 0 <= i < |run[k].queue| ==> ReasonOk(run, k, run[k].queue[i]))
    && (forall i {:trigger run[k].popped[i]} :: 0 <= i < |run[k].popped| ==> ReasonOk(run, k, run[k].popped[i]))
  }

  lemma RunStep(steps: seq<Step>, run: seq<State>, k: nat)
    requires IsRun(steps, run) && k < |steps|
    ensures Enabled(run[k], steps[k]) && run[k + 1] == Next(run[k], steps[k])
  {
  }

  lemma ReasonKept(run: seq<State>, k: nat, t: Task)
    requires k + 1 < |run| && ReasonOk(run, k, t) && run[k].committed <= run[k + 1].committed
    requires run[k + 1].running ==> run[k].running
    ensures ReasonOk(run, k + 1, t)
  {
    if t.stage.ReadTerm2? {
      var j: nat :| j <= k && run[j].term >= t.stage.term1 && run[j].last == t.stage.last;
    }
    if PassedBy(run, k, t) {
      var j: nat :| j <= k && run[j].term > t.term && run[j].last < t.index;
    }
  }

  lemma WorkGivesReason(run: seq<State>, k: nat, t: Task)
    requires k < |run| && ReasonOk(run, k, t) && TaskOk(run[k], t)
    ensures ReasonOk(run, k, Worked(run[k], t))
  {
    if t.stage.ReadTerm2? {
      var j: nat :| j <= k && run[j].term >= t.stage.term1 && run[j].last == t.stage.last;
    }
  }

  lemma ReasonsGoOn(steps: seq<Step>, run: seq<State>, k: nat)
    requires IsRun(steps, run) && k < |steps| && ReasonsAt(run, k)
    ensures ReasonsAt(run, k + 1)
  {
    RunStep(steps, run, k);
    RunInv(steps, run, k);
    StepKeepsInv(run[k], run[k + 1], steps[k]);
    var s, s', step := run[k], run[k + 1], steps[k];
    forall i | 0 <= i < |s'.queue| ensures ReasonOk(run, k + 1, s'.queue[i]) {
      if step.Push? && i == |s.queue| {
      } else {
        var t := s.queue[if step.Pop? then i + 1 else i];
        if step.Work? && i == step.i {
          WorkGivesReason(run, k, t);
        }
        ReasonKept(run, k, s'.queue[i]);
      }
    }
    forall i | 0 <= i < |s'.popped| ensures ReasonOk(run, k + 1, s'.popped[i]) {
      assert ReasonOk(run, k, if i < |s.popped| then s.popped[i] else s.queue[0]);
      ReasonKept(run, k, s'.popped[i]);
    }
  }

  lemma {:induction false} Reasons(steps: seq<Step>, run: seq<State>, k: nat)
    requires IsRun(steps, run) && k < |run|
    ensures ReasonsAt(run, k)
    decreases k
  {
    if k > 0 {
      Reasons(steps, run, k - 1);
      ReasonsGoOn(steps, run, k - 1);
    }
  }

  /** What a task is answered: its own code only if its entry is committed, and 301 only with a reason. */
  lemma RepliesAreExact(steps: seq<Step>, run: seq<State>, k: nat, t: Task)
    requires IsRun(steps, run) && k < |run| && (t in run[k].queue || t in run[k].popped)
    ensures NotLeader in t.replies ==> Excused(run, k, t)
    ensures t.replies != [] && !Excused(run, k, t) ==>
              t.replies == [Own(t.code)] && CommittedAt(run[k].committed, t.index, t.term)
  {
    Reasons(steps, run, k);
    RepliesAreSound(steps, run, k, t);
    if !Excused(run, k, t) && t.replies != [] {
      assert t.replies[0] in t.replies;
    }
  }

  /** A task whose entry is committed, in a loop that runs and never saw the term move on ahead of the log,
      leaves the queue with its own code. */
  lemma CommittedIsAnswered(steps: seq<Step>, run: seq<State>, k: nat, t: Task)
    requires IsRun(steps, run) && k < |run| && t in run[k].popped
    requires run[k].running && CommittedAt(run[k].committed, t.index, t.term) && !PassedBy(run, k, t)
    ensures t.replies == [Own(t.code)]
  {
    RepliesAreExact(steps, run, k, t);
    RepliesAreSound(steps, run, k, t);
  }

  // ---------------------------------------------------------------- every task is answered in its turn

  /** The steps left to a thread that has a task, while the Raft thread stands still. */
  function StepsLeft(s: State, t: Task): nat {
    match t.stage
    case Idle => 0
    case Check => 7
    case ReadTerm1 => 6
    case ReadLast(t1) => if t1 == s.term then 5 else 8
    case ReadTerm2(t1, _) => if t1 == s.term then 4 else 7
    case ReadCommit => 3
    case ReadEntry => 2
    case Decided(_) => 1
    case Sent => 0
  }

  function WorkedTimes(s: State, t: Task, n: nat): Task
    decreases n
  {
    if n == 0 then t else WorkedTimes(s, Worked(s, t), n - 1)
  }

  lemma {:induction false} AnsweredIn(s: State, t: Task, n: nat)
    requires 1 <= t.index <= |s.committed| && !t.stage.Idle? && StepsLeft(s, t) <= n
    ensures WorkedTimes(s, t, n).stage.Sent?
    decreases n
  {
    if n > 0 {
      AnsweredIn(s, Worked(s, t), n - 1);
    }
  }

  /** Once something is committed at its index, eight steps of its thread answer a task, wherever it stood. */
  lemma AnsweredInEight(s: State, t: Task)
    requires 1 <= t.index <= |s.committed| && !t.stage.Idle?
    ensures WorkedTimes(s, t, 8).stage.Sent?
  {
    AnsweredIn(s, t, 8);
  }

  /** One round of a thread while nothing else moves: a stopped loop gives up, and so does one whose term has
      moved on ahead of its log; what is not committed is waited for, and what is decides the answer. */
  lemma RoundIs(s: State, t: Task)
    requires t.stage.Check? && 1 <= t.index
    ensures !s.running ==> WorkedTimes(s, t, 2) == t.(stage := Sent, replies := t.replies + [NotLeader])
    ensures s.running && s.last < t.index && t.term < s.term ==>
              WorkedTimes(s, t, 5) == t.(stage := Sent, replies := t.replies + [NotLeader])
    ensures s.running && !(s.last < t.index && t.term < s.term) ==>
              if |s.committed| < t.index then WorkedTimes(s, t, 5) == t
              else WorkedTimes(s, t, 7) == t.(stage := Sent, replies := t.replies + [
                     if s.committed[t.index - 1].term == t.term then Own(t.code) else NotLeader])
  {
    if !s.running {
      Twice(s, t, t.(stage := Decided(false)), 0);
    } else if s.last < t.index && t.term < s.term {
      GivesUp(s, t);
    } else if |s.committed| < t.index {
      GoesRound(s, t);
    } else {
      Decides(s, t);
    }
  }

  lemma GivesUp(s: State, t: Task)
    requires t.stage.Check? && s.running && s.last < t.index && t.term < s.term
    ensures WorkedTimes(s, t, 5) == t.(stage := Sent, replies := t.replies + [NotLeader])
  {
    ReadsThree(s, t, 2);
    Twice(s, t.(stage := ReadTerm2(s.term, s.last)), t.(stage := Decided(false)), 0);
  }

  lemma GoesRound(s: State, t: Task)
    requires t.stage.Check? && s.running && !(s.last < t.index && t.term < s.term) && |s.committed| < t.index
    ensures WorkedTimes(s, t, 5) == t
  {
    ReadsThree(s, t, 2);
    Twice(s, t.(stage := ReadTerm2(s.term, s.last)), t.(stage := ReadCommit), 0);
  }

  lemma Decides(s: State, t: Task)
    requires t.stage.Check? && s.running && !(s.last < t.index && t.term < s.term) && 1 <= t.index <= |s.committed|
    ensures WorkedTimes(s, t, 7) == t.(stage := Sent, replies := t.replies + [
              if s.committed[t.index - 1].term == t.term then Own(t.code) else NotLeader])
  {
    ReadsThree(s, t, 4);
    Twice(s, t.(stage := ReadTerm2(s.term, s.last)), t.(stage := ReadCommit), 2);
    Twice(s, t.(stage := ReadEntry), t.(stage := Decided(s.committed[t.index - 1].term == t.term)), 0);
  }

  lemma Twice(s: State, t: Task, t1: Task, n: nat)
    requires t1 == Worked(s, t)
    ensures WorkedTimes(s, t, n + 2) == WorkedTimes(s, Worked(s, t1), n)
  {
    assert WorkedTimes(s, t, n + 2) == WorkedTimes(s, t1, n + 1);
  }

  lemma ReadsThree(s: State, t: Task, n: nat)
    requires t.stage.Check? && s.running
    ensures WorkedTimes(s, t, n + 3) == WorkedTimes(s, t.(stage := ReadTerm2(s.term, s.last)), n)
  {
    Twice(s, t, t.(stage := ReadTerm1), n + 1);
  }

  datatype Asked = Asked(index: nat, term: nat, code: nat)

  function AskedBy(ts: seq<Task>): seq<Asked> {
    seq(|ts|, i requires 0 <= i < |ts| => Asked(ts[i].index, ts[i].term, ts[i].code))
  }

  function Pushed(steps: seq<Step>): seq<Asked> {
    if steps == [] then []
    else
      var rest := Pushed(steps[..|steps| - 1]);
      match steps[|steps| - 1]
      case Push(index, term, code) => rest + [Asked(index, term, code)]
      case _ => rest
  }

  lemma StepKeepsAsked(s: State, s': State, step: Step)
    requires Enabled(s, step) && s' == Next(s, step)
    ensures AskedBy(s'.popped + s'.queue)
            == AskedBy(s.popped + s.queue) + if step.Push? then [Asked(step.index, step.term, step.code)] else []
  {
    if step.Pop? {
      assert s'.popped + s'.queue == s.popped + s.queue;
    }
  }

  /** Every task is in the queue or has left it, once and in the order in which they were pushed. */
  lemma {:induction false} NothingIsLost(steps: seq<Step>, run: seq<State>, k: nat)
    requires IsRun(steps, run) && k < |run|
    ensures AskedBy(run[k].popped + run[k].queue) == Pushed(steps[..k])
    decreases k
  {
    if k > 0 {
      NothingIsLost(steps, run, k - 1);
      StepKeepsAsked(run[k - 1], run[k], steps[k - 1]);
      assert steps[..k][..k - 1] == steps[..k - 1];
    }
  }

  /** The term read by a thread is never below that of its task, and the entry it reads is committed. */
  lemma ReadsAreSafe(steps: seq<Step>, run: seq<State>, k: nat, i: nat)
    requires IsRun(steps, run) && k < |run| && i < |run[k].queue|
    ensures var t := run[k].queue[i];
            && (t.stage.ReadTerm2? ==> t.stage.term1 >= t.term)
            && (t.stage.ReadEntry? ==> 1 <= t.index <= |run[k].committed|)
  {
    RunInv(steps, run, k);
  }
}
