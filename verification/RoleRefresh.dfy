/** The command loop learns of elections without a lock: it reads term, role and term again while the
    Raft thread writes role and term one after the other. */
module RoleRefresh {
  import opened RaftTypes

  datatype Transition =
    | OldLeaderToNewLeader | LeaderToFollower | FollowerToLeader | OldFollowerToNewFollower
    | SameLeader | SameFollower

  /** None: an assertion fails. */
  datatype Detected = None | Some(transition: Transition)

  // ---------------------------------------------------------------- the two loops' own steps

  /** What refresh() stores after reading a term twice with a role in between. */
  function Refreshed(logTerm: nat, logRole: Role, term: nat, role: Role): (nat, Role) {
    if logTerm == term && logRole.Leader? && !role.Leader? then (logTerm, logRole) else (term, role)
  }

  function DetectTransition(lastTerm: nat, lastRole: Role, term: nat, role: Role): Detected {
    if lastTerm != term then
      if lastTerm > term then None
      else if lastRole.Leader? then Some(if role.Leader? then OldLeaderToNewLeader else LeaderToFollower)
      else Some(if role.Leader? then FollowerToLeader else OldFollowerToNewFollower)
    else if lastRole.Leader? then (if role.Leader? then Some(SameLeader) else None)
    else Some(if role.Leader? then FollowerToLeader else SameFollower)
  }

  // ---------------------------------------------------------------- interleaved

  /** Where the command loop stands: between reads, or waiting to be handed a state. */
  datatype Reader = Idle | GotTerm(term1: nat) | GotRole(term1: nat, role: Role) | Waiting

  datatype Outcome = Outcome(detected: Detected, term: nat, handed: nat)

  datatype State = State(
    // written by the Raft thread; `pending` is the term it is about to write, 0 for none
    term: nat, role: Role, pending: nat, led: set<nat>,
    // owned by the command loop; `handed` is the term for which it was last handed a state, 0 for none
    reader: Reader, logTerm: nat, logRole: Role, lastTerm: nat, lastRole: Role, handed: nat,
    outcomes: seq<Outcome>)

  datatype Step =
    | LeaveRole(newRole: Role, newTerm: nat)  // first write of a step-down or of an election
    | WriteTerm                               // second write
    | Yield                                   // a candidate becomes follower of its own term
    | Lead                                    // a candidate becomes leader
    | ReadTerm
    | ReadRole
    | ReadAgain                               // and, if the terms agree, store and detect
    | TakeOver                                // the wait has found the state machine ready
    | GiveUp                                  // the wait has found another term

  predicate Enabled(s: State, step: Step) {
    match step
    case LeaveRole(r, t) => s.pending == 0 && !r.Leader? && t > s.term && (r.Candidate? ==> !s.role.Leader? && t == s.term + 1)
    case WriteTerm => s.pending != 0
    case Yield => s.pending == 0 && s.role.Candidate?
    case Lead => s.pending == 0 && s.role.Candidate?
    case ReadTerm => s.reader.Idle?
    case ReadRole => s.reader.GotTerm?
    case ReadAgain => s.reader.GotRole?
    case TakeOver => s.reader.Waiting?
    case GiveUp => s.reader.Waiting? && s.term != s.lastTerm
  }

  function Finish(s: State, role: Role): State {
    var (t, r) := Refreshed(s.logTerm, s.logRole, s.term, role);
    var d := DetectTransition(s.lastTerm, s.lastRole, t, r);
    var becomes := d == Some(OldLeaderToNewLeader) || d == Some(FollowerToLeader);
    s.(logTerm := t, logRole := r, lastTerm := t, lastRole := r, reader := if becomes then Waiting else Idle,
       outcomes := s.outcomes + [Outcome(d, t, s.handed)])
  }

  function Next(s: State, step: Step): State
    requires Enabled(s, step)
  {
    match step
    case LeaveRole(r, t) => s.(role := r, pending := t)
    case WriteTerm => s.(term := s.pending, pending := 0)
    case Yield => s.(role := Follower)
    case Lead => s.(role := Leader, led := s.led + {s.term})
    case ReadTerm => s.(reader := GotTerm(s.term))
    case ReadRole => s.(reader := GotRole(s.reader.term1, s.role))
    case ReadAgain => if s.term == s.reader.term1 then Finish(s, s.reader.role) else s.(reader := Idle)
    case TakeOver => s.(reader := Idle, handed := s.lastTerm)
    case GiveUp => s.(reader := Idle)
  }

  function Start(term: nat): State {
    State(term, Follower, 0, {}, Idle, 0, Follower, 0, Follower, 0, [])
  }

  ghost predicate IsRun(steps: seq<Step>, run: seq<State>) {
    && |run| == |steps| + 1 && run[0] == Start(run[0].term)
    && forall k {:trigger steps[k]} :: 0 <= k < |steps| ==> Enabled(run[k], steps[k]) && run[k + 1] == Next(run[k], steps[k])
  }

  // ---------------------------------------------------------------- what every interleaving keeps

  ghost predicate ReaderOk(s: State) {
    match s.reader
    case Idle => true
    case GotTerm(t) => s.logTerm <= t <= s.term
    case GotRole(t, r) => s.logTerm <= t <= s.term && (r.Leader? ==> t in s.led || t < s.term)
    case Waiting => s.lastRole.Leader?
  }

  /** What a detection must have found: no assertion has failed, a leader is reported only for a term
      this server led, and commands are accepted only on a state handed over for that very term. */
  ghost predicate OutcomeOk(led: set<nat>, o: Outcome) {
    && o.detected.Some?
    && (o.detected.transition in {SameLeader, FollowerToLeader, OldLeaderToNewLeader} ==> o.term in led)
    && (o.detected.transition.SameLeader? ==> o.handed == o.term)
  }

  ghost predicate Inv(s: State) {
    && (s.pending != 0 ==> s.pending > s.term && !s.role.Leader?)
    && (forall t :: t in s.led ==> t <= s.term)
    && (s.role.Leader? <==> s.term in s.led && s.pending == 0)
    && s.logTerm <= s.term && s.lastTerm == s.logTerm && s.lastRole == s.logRole
    && (s.logRole.Leader? ==> s.logTerm in s.led)
    && (s.lastRole.Leader? ==> s.handed == s.lastTerm || s.lastTerm < s.term || s.reader.Waiting?)
    && ReaderOk(s)
    && (forall i {:trigger s.outcomes[i]} :: 0 <= i < |s.outcomes| ==> OutcomeOk(s.led, s.outcomes[i]))
  }

  lemma StepKeepsInv(s: State, s': State, step: Step)
    requires Inv(s) && Enabled(s, step) && s' == Next(s, step)
    ensures Inv(s') && s.logTerm <= s'.logTerm
  {
  }

  lemma {:induction false} RunInv(steps: seq<Step>, run: seq<State>, k: nat)
    requires IsRun(steps, run) && k < |run|
    ensures Inv(run[k])
    decreases k
  {
    if k > 0 {
      RunInv(steps, run, k - 1);
      StepKeepsInv(run[k - 1], run[k], steps[k - 1]);
    }
  }

  /** A stored pair (t, Leader) means that the server really led term t. */
  lemma StoredLeaderLed(steps: seq<Step>, run: seq<State>, k: nat)
    requires IsRun(steps, run) && k < |run|
    ensures run[k].logRole.Leader? ==> run[k].logTerm in run[k].led
  {
    RunInv(steps, run, k);
  }

  /** The assertions of detectTransition() never fail, and the accepting branch runs only on a state that
      was handed over for the same term. */
  lemma DetectionsAreSound(steps: seq<Step>, run: seq<State>, k: nat, i: nat)
    requires IsRun(steps, run) && k < |run| && i < |run[k].outcomes|
    ensures run[k].outcomes[i].detected.Some?
    ensures run[k].outcomes[i].detected.transition.SameLeader? ==>
              run[k].outcomes[i].handed == run[k].outcomes[i].term && run[k].outcomes[i].term in run[k].led
  {
    RunInv(steps, run, k);
  }

  /** The promise to the application: once a term has been seen as led, it is never seen as not led. */
  lemma {:induction false} NeverDemotedWithinTerm(steps: seq<Step>, run: seq<State>, j: nat, k: nat)
    requires IsRun(steps, run) && j <= k < |run| && run[j].logRole.Leader?
    ensures run[k].logTerm == run[j].logTerm ==> run[k].logRole.Leader?
    ensures run[j].logTerm <= run[k].logTerm
    decreases k - j
  {
    if j < k {
      NeverDemotedWithinTerm(steps, run, j, k - 1);
      RunInv(steps, run, k - 1);
      StepKeepsInv(run[k - 1], run[k], steps[k - 1]);
    }
  }

  // ---------------------------------------------------------------- what is read is stored and told

  /** Which transition is told for what was stored and what is stored now. */
  function Told(term: nat, role: Role, term': nat, role': Role): Transition {
    match (role == Leader, role' == Leader)
    case (true, true) => if term == term' then SameLeader else OldLeaderToNewLeader
    case (true, false) => LeaderToFollower
    case (false, true) => FollowerToLeader
    case (false, false) => if term == term' then SameFollower else OldFollowerToNewFollower
  }

  /** A read that finds the same term twice stores that term, as led exactly if the server was seen leading it
      now or before, and tells what has changed since the last one. A change to leader is then waited for. */
  lemma ReadIsStored(steps: seq<Step>, run: seq<State>, k: nat)
    requires IsRun(steps, run) && k < |steps| && steps[k].ReadAgain?
    ensures run[k].reader.GotRole?
    ensures var s, s' := run[k], run[k + 1];
            if s.term != s.reader.term1 then s' == s.(reader := Idle)
            else
              && s'.logTerm == s.term
              && (s'.logRole == Leader <==> s.reader.role == Leader || (s.logRole == Leader && s.logTerm == s.term))
              && (s'.logRole != Leader ==> s'.logRole == s.reader.role)
              && var told := Told(s.logTerm, s.logRole, s'.logTerm, s'.logRole);
                 && s'.outcomes == s.outcomes + [Outcome(Some(told), s.term, s.handed)]
                 && s'.reader == if told in {FollowerToLeader, OldLeaderToNewLeader} then Waiting else Idle
  {
    RunInv(steps, run, k);
  }

  /** The command loop's own steps. */
  predicate Reads(step: Step) {
    step.ReadTerm? || step.ReadRole? || step.ReadAgain? || step.TakeOver? || step.GiveUp?
  }

  lemma {:induction false} ReaderKept(steps: seq<Step>, run: seq<State>, i: nat, j: nat)
    requires IsRun(steps, run) && i <= j < |run|
    requires forall m {:trigger steps[m]} :: i <= m < j ==> !Reads(steps[m])
    ensures run[j].reader == run[i].reader && run[j].logTerm == run[i].logTerm && run[j].logRole == run[i].logRole
    decreases j
  {
    if i < j {
      ReaderKept(steps, run, i, j - 1);
      assert !Reads(steps[j - 1]);
    }
  }

  /** A term that is led from the first of the three reads to the last is stored as led. */
  lemma LedIsStored(steps: seq<Step>, run: seq<State>, i: nat, j: nat, k: nat)
    requires IsRun(steps, run) && i < j < k < |steps|
    requires steps[i].ReadTerm? && steps[j].ReadRole? && steps[k].ReadAgain?
    requires forall m {:trigger steps[m]} :: i < m < k && m != j ==> !Reads(steps[m])
    requires forall m {:trigger run[m]} :: i <= m <= k ==> run[m].role == Leader && run[m].term == run[i].term
    ensures run[k + 1].logTerm == run[i].term && run[k + 1].logRole == Leader
    ensures run[k + 1].outcomes != []
    ensures var o := run[k + 1].outcomes[|run[k + 1].outcomes| - 1];
            o.term == run[i].term && o.detected.Some? && o.detected.transition in {SameLeader, FollowerToLeader, OldLeaderToNewLeader}
  {
    assert run[i + 1] == Next(run[i], steps[i]) && run[j + 1] == Next(run[j], steps[j]);
    ReaderKept(steps, run, i + 1, j);
    ReaderKept(steps, run, j + 1, k);
    assert run[i].term == run[j].term == run[k].term && run[j].role == Leader;
    ReadIsStored(steps, run, k);
  }
}
