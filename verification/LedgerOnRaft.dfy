/** The ledger on top of the cluster: every leader takes over the books of the committed log and executes
    commands on them. On every server at every moment the events of the whole log can be applied, one after
    the other, and no journal entry id is recorded twice. */
module LedgerOnRaft {
  import opened Common
  import opened RaftTypes
  import opened RaftCore
  import opened RaftCluster
  import opened RaftTheorems
  import opened RaftTerms
  import opened LeaderPipeline
  import RaftJudged
  import EventLoading
  import Handover
  import LedgerTypes
  import Ledger
  import DurableLedger
  import CrashRecovery

  type Decoder = EventLoading.Decoder<LedgerTypes.Event>

  // ---------------------------------------------------------------- the events of a log

  function EntryEvents(d: Decoder, e: LogEntry): seq<LedgerTypes.Event> {
    if e.noop then [] else d.decode(e).events
  }

  function AllEvents(d: Decoder, log: seq<LogEntry>): seq<LedgerTypes.Event> {
    if log == [] then [] else AllEvents(d, log[..|log| - 1]) + EntryEvents(d, log[|log| - 1])
  }

  lemma {:induction false} EventsConcat(d: Decoder, a: seq<LogEntry>, b: seq<LogEntry>)
    ensures AllEvents(d, a + b) == AllEvents(d, a) + AllEvents(d, b)
    decreases b
  {
    if b == [] {
      assert a + b == a;
    } else {
      assert (a + b)[..|a + b| - 1] == a + b[..|b| - 1];
      EventsConcat(d, a, b[..|b| - 1]);
    }
  }

  predicate Applies(d: Decoder, log: seq<LogEntry>) {
    Ledger.ApplyAll(Ledger.EMPTY, AllEvents(d, log)).Some?
  }

  /** A judge that lets an entry pass if its events can be applied after those of the log. */
  function Applicable(d: Decoder): RaftJudged.Judge {
    (log: seq<LogEntry>, e: LogEntry) => Applies(d, log + [e])
  }

  lemma {:induction false} JudgedApplies(d: Decoder, log: seq<LogEntry>)
    requires RaftJudged.Judged(Applicable(d), log)
    ensures Applies(d, log)
    decreases log
  {
    if log != [] {
      var n := |log| - 1;
      assert RaftJudged.JudgedAt(Applicable(d), log, n);
      assert log[..n] + [log[n]] == log;
      if log[n].noop {
        RaftJudged.JudgedPrefix(Applicable(d), log[..n], log);
        JudgedApplies(d, log[..n]);
        assert AllEvents(d, log) == AllEvents(d, log[..n]);
      }
    }
  }

  // ---------------------------------------------------------------- the same events as bundles

  lemma {:induction false} HistoryPrefix(a: seq<DurableLedger.CommandEvents>, b: seq<DurableLedger.CommandEvents>, n: nat)
    requires n <= |a| && a <= b
    ensures CrashRecovery.History(b, n) == CrashRecovery.History(a, n)
    decreases n
  {
    if n > 0 {
      HistoryPrefix(a, b, n - 1);
    }
  }

  lemma {:induction false} HistoryIs(d: Decoder, log: seq<LogEntry>, all: seq<DurableLedger.CommandEvents>)
    requires all == EventLoading.Bundles(d, log)
    ensures CrashRecovery.History(all, |all|) == AllEvents(d, log)
    decreases log
  {
    if log != [] {
      var front := EventLoading.Bundles(d, log[..|log| - 1]);
      HistoryIs(d, log[..|log| - 1], front);
      HistoryPrefix(front, all, |front|);
    }
  }

  lemma {:induction false} FoldedHistory(all: seq<DurableLedger.CommandEvents>, n: nat)
    requires n <= |all| && Ledger.ApplyAll(Ledger.EMPTY, CrashRecovery.History(all, n)).Some?
    ensures CrashRecovery.Folded(all, n) == Ledger.ApplyAll(Ledger.EMPTY, CrashRecovery.History(all, n))
    decreases n
  {
    if n > 0 {
      var before := CrashRecovery.History(all, n - 1);
      if Ledger.ApplyAll(Ledger.EMPTY, before).None? {
        NoneStays(Ledger.EMPTY, before, all[n - 1].events);
      }
      FoldedHistory(all, n - 1);
      CrashRecovery.ApplyConcat(Ledger.EMPTY, before, all[n - 1].events);
    }
  }

  lemma {:induction false} NoneStays(b: LedgerTypes.Books, x: seq<LedgerTypes.Event>, y: seq<LedgerTypes.Event>)
    requires Ledger.ApplyAll(b, x).None?
    ensures Ledger.ApplyAll(b, x + y).None?
    decreases y
  {
    if y == [] {
      assert x + y == x;
    } else {
      assert (x + y)[..|x + y| - 1] == x + y[..|y| - 1];
      NoneStays(b, x, y[..|y| - 1]);
    }
  }

  /** Bundles carry the index of their entry, so their ids rise. */
  lemma {:induction false} IdsRise(d: Decoder, log: seq<LogEntry>, all: seq<DurableLedger.CommandEvents>)
    requires Handover.IdsCarried(d) && Indexed(log) && all == EventLoading.Bundles(d, log)
    ensures forall i {:trigger all[i]} :: 0 <= i < |all| ==> 1 <= all[i].id <= |log|
    ensures forall i, j {:trigger all[i], all[j]} :: 0 <= i < j < |all| ==> all[i].id < all[j].id
    decreases log
  {
    if log != [] {
      var front := EventLoading.Bundles(d, log[..|log| - 1]);
      IdsRise(d, log[..|log| - 1], front);
      assert d.decode(log[|log| - 1]).id == |log| || log[|log| - 1].noop;
    }
  }

  lemma BundlesAreGood(d: Decoder, log: seq<LogEntry>, all: seq<DurableLedger.CommandEvents>)
    requires Handover.IdsCarried(d) && Indexed(log) && all == EventLoading.Bundles(d, log) && Applies(d, log)
    ensures CrashRecovery.GoodLog(all)
    ensures CrashRecovery.Folded(all, |all|) == Ledger.ApplyAll(Ledger.EMPTY, AllEvents(d, log))
  {
    HistoryIs(d, log, all);
    FoldedHistory(all, |all|);
    IdsRise(d, log, all);
    forall i, j | 0 <= i < j <= |all| ensures CrashRecovery.IdAt(all, i) < CrashRecovery.IdAt(all, j) {
      assert i > 0 ==> all[i - 1].id < all[j - 1].id;
      assert 1 <= all[j - 1].id;
    }
  }

  // ---------------------------------------------------------------- a leader's command loop

  /** A hosted term with the life of the machine that is handed over, and the commands that were accepted,
      one for each entry submitted. */
  datatype LedgerTerm = LedgerTerm(
    h: Hosted<LedgerTypes.Event>, csteps: seq<CrashRecovery.Step>, crun: seq<CrashRecovery.State>, cs: seq<LedgerTypes.Command>)
  {
    function Base(): seq<LogEntry>
      requires h.run != []
    {
      h.run[0].node.log
    }

    /** The machine as it is handed over. */
    function Machine(): DurableLedger.Machine
      requires crun != []
    {
      crun[|crun| - 1].machine
    }

    /** The ids in the snapshot of the store that the leader looks at. */
    function Stored(): set<string>
      requires crun != []
    {
      DurableLedger.Flushed(Machine()).store.done.Keys
    }
  }

  /** Events are read back from the log as the decoder gives them. */
  function AsRead(): CrashRecovery.Codec {
    (e: LedgerTypes.Event) => e
  }

  /** The machine swapped in at step w has gone through crashes, recoveries and handovers on the commands of
      the log; it has run those up to the offset and those delivered since. */
  ghost predicate TakesBooks(d: Decoder, l: LedgerTerm, w: nat) {
    && w < |l.h.run| && l.crun != []
    && CrashRecovery.IsRun(AsRead(), EventLoading.Bundles(d, l.Base()), l.csteps, l.crun)
    && (l.h.run[w].offset <= |l.Base()| ==>
          l.crun[|l.crun| - 1].next
          == |EventLoading.Bundles(d, l.Base()[..l.h.run[w].offset])| + |l.h.run[w].delivered|)
  }

  /** The events of the i-th entry submitted are those of the i-th command accepted; the codec carries them. */
  ghost predicate ExecutesAt(d: Decoder, b: LedgerTypes.Books, stored: set<string>, cs: seq<LedgerTypes.Command>,
                             submitted: seq<LogEntry>, i: nat)
  {
    && i < |cs| && i < |submitted| && Ledger.ExecuteAll(b, stored, cs[..i]).Some?
    && var v := Ledger.Process(Ledger.ExecuteAll(b, stored, cs[..i]).value, stored, cs[i]);
       v.Some? && d.decode(submitted[i]).events == v.value.events
  }

  ghost predicate RunsLedger(d: Decoder, l: LedgerTerm) {
    && |l.h.run| == |l.h.steps| + 1
    && forall w: nat {:trigger TakesBooks(d, l, w)} ::
         w < |l.h.steps| && l.h.steps[w].Swap? && Handover.Leads(l.h.run[w]) ==>
           && TakesBooks(d, l, w)
           && var submitted := l.h.run[|l.h.run| - 1].submitted;
              && |l.cs| == |submitted| && Ledger.ExecuteAll(l.Machine().books, l.Stored(), l.cs).Some?
              && forall i: nat {:trigger ExecutesAt(d, l.Machine().books, l.Stored(), l.cs, submitted, i)} ::
                   i < |l.cs| ==> ExecutesAt(d, l.Machine().books, l.Stored(), l.cs, submitted, i)
  }

  lemma {:induction false} ExecutedBefore(b: LedgerTypes.Books, stored: set<string>, cs: seq<LedgerTypes.Command>, n: nat)
    requires n <= |cs| && Ledger.ExecuteAll(b, stored, cs).Some?
    ensures Ledger.ExecuteAll(b, stored, cs[..n]).Some?
    decreases cs
  {
    if n == |cs| {
      assert cs[..n] == cs;
    } else {
      ExecutedBefore(b, stored, cs[..|cs| - 1], n);
      assert cs[..|cs| - 1][..n] == cs[..n];
    }
  }

  /** The events of the submitted entries are those the leader has added. */
  lemma {:induction false} AddedAre(d: Decoder, b: LedgerTypes.Books, stored: set<string>, cs: seq<LedgerTypes.Command>,
                                    submitted: seq<LogEntry>, n: nat)
    requires n <= |cs| == |submitted| && Ledger.ExecuteAll(b, stored, cs).Some?
    requires forall i {:trigger submitted[i]} :: 0 <= i < |submitted| ==> !submitted[i].noop
    requires forall i: nat {:trigger ExecutesAt(d, b, stored, cs, submitted, i)} :: i < |cs| ==> ExecutesAt(d, b, stored, cs, submitted, i)
    ensures CrashRecovery.Added(b, stored, cs[..n]) == AllEvents(d, submitted[..n])
    decreases n
  {
    if n > 0 {
      AddedAre(d, b, stored, cs, submitted, n - 1);
      assert ExecutesAt(d, b, stored, cs, submitted, n - 1);
      assert cs[..n][..n - 1] == cs[..n - 1] && submitted[..n][..n - 1] == submitted[..n - 1];
    }
  }

  /** If the log a term started from applies, so does what the leader submits on top of it. */
  lemma SubmittedApply(d: Decoder, l: LedgerTerm, w: nat, n: nat, all: seq<DurableLedger.CommandEvents>, submitted: seq<LogEntry>)
    requires Handover.IsRun(d, l.h.steps, l.h.run) && RunsLedger(d, l) && submitted == l.h.run[|l.h.run| - 1].submitted
    requires w < |l.h.steps| && l.h.steps[w].Swap? && Handover.Leads(l.h.run[w]) && n <= |submitted|
    requires all == EventLoading.Bundles(d, l.Base()) && Applies(d, l.Base())
    requires forall i {:trigger submitted[i]} :: 0 <= i < |submitted| ==> !submitted[i].noop
    ensures Applies(d, l.Base() + submitted[..n])
  {
    assert TakesBooks(d, l, w);
    var b, stored, base := l.Machine().books, l.Stored(), l.Base();
    MachineIsUpToDate(d, l, w, all);
    ExecutedBefore(b, stored, l.cs, n);
    var full := Ledger.ApplyAll(Ledger.EMPTY, AllEvents(d, base)).value;
    CrashRecovery.LeaderExtends(full, b, stored, l.cs[..n]);
    AddedAre(d, b, stored, l.cs, submitted, n);
    EventsConcat(d, base, submitted[..n]);
    CrashRecovery.ApplyConcat(Ledger.EMPTY, AllEvents(d, base), AllEvents(d, submitted[..n]));
  }

  /** At the handover the apply loop has been given everything behind its offset. */
  lemma DeliveredIsRest(d: Decoder, h: Hosted<LedgerTypes.Event>, w: nat, base: seq<LogEntry>)
    requires Handover.IsRun(d, h.steps, h.run) && base == h.run[0].node.log
    requires w < |h.steps| && h.steps[w].Swap? && Handover.Leads(h.run[w])
    ensures Handover.IdsCarried(d) && Indexed(base) && h.run[w].offset <= |base|
    ensures h.run[w].delivered == EventLoading.Bundles(d, base[h.run[w].offset..])
  {
    Handover.RunStep(d, h.steps, h.run, w);
    Handover.RunInv(d, h.steps, h.run, w);
    Handover.HandedStateIsComplete(d, h.steps, h.run, w);
  }

  lemma RunsTheWholeLog(d: Decoder, l: LedgerTerm, w: nat, all: seq<DurableLedger.CommandEvents>, base: seq<LogEntry>)
    requires Handover.IsRun(d, l.h.steps, l.h.run) && TakesBooks(d, l, w) && base == l.Base()
    requires w < |l.h.steps| && l.h.steps[w].Swap? && Handover.Leads(l.h.run[w])
    requires all == EventLoading.Bundles(d, base)
    ensures Handover.IdsCarried(d) && Indexed(base) && l.crun[|l.crun| - 1].next == |all|
  {
    var o := l.h.run[w].offset;
    DeliveredIsRest(d, l.h, w, base);
    EventLoading.BundlesConcat(d, base[..o], base[o..]);
    assert base[..o] + base[o..] == base;
  }

  /** A machine that has run a whole log remembers every id of it. */
  lemma UpToDate(all: seq<DurableLedger.CommandEvents>, csteps: seq<CrashRecovery.Step>, crun: seq<CrashRecovery.State>, full: LedgerTypes.Books)
    requires CrashRecovery.GoodLog(all) && CrashRecovery.Folded(all, |all|) == Some(full)
    requires crun != [] && CrashRecovery.IsRun(AsRead(), all, csteps, crun) && crun[|crun| - 1].next == |all|
    ensures var m := crun[|crun| - 1].machine;
            && m.books.accounts == full.accounts && m.books.metadata == full.metadata
            && full.done.Keys == m.books.done.Keys + DurableLedger.Flushed(m).store.done.Keys
  {
    assert CrashRecovery.Carried(AsRead(), all);
    CrashRecovery.EveryIdIsRemembered(AsRead(), all, csteps, crun, |crun| - 1);
  }

  /** The machine handed over has run the whole log, and remembers every id. */
  lemma MachineIsUpToDate(d: Decoder, l: LedgerTerm, w: nat, all: seq<DurableLedger.CommandEvents>)
    requires Handover.IsRun(d, l.h.steps, l.h.run) && TakesBooks(d, l, w)
    requires w < |l.h.steps| && l.h.steps[w].Swap? && Handover.Leads(l.h.run[w])
    requires all == EventLoading.Bundles(d, l.Base()) && Applies(d, l.Base())
    ensures var full, b := Ledger.ApplyAll(Ledger.EMPTY, AllEvents(d, l.Base())).value, l.Machine().books;
            && b.accounts == full.accounts && b.metadata == full.metadata
            && full.done.Keys == b.done.Keys + l.Stored()
  {
    RunsTheWholeLog(d, l, w, all, l.Base());
    BundlesAreGood(d, l.Base(), all);
    UpToDate(all, l.csteps, l.crun, Ledger.ApplyAll(Ledger.EMPTY, AllEvents(d, l.Base())).value);
  }

  // ---------------------------------------------------------------- the whole cluster

  /** The k-th step of the hosted term is what the leader takes at moment i. */
  ghost predicate Serves(steps: seq<Step>, run: seq<Cluster>, d: Decoder, l: LedgerTerm, i: nat, k: nat) {
    && Hosts(steps, run, d, l.h) && RunsLedger(d, l)
    && i < |steps| < |run| && steps[i].Client? && l.h.v == steps[i].v && LeadsTerm(run[i], l.h.v, l.h.term)
    && k < |l.h.steps| && l.h.steps[k].Batch? && l.h.at[k] == i
  }

  ghost predicate ServedAt(steps: seq<Step>, run: seq<Cluster>, d: Decoder, ls: seq<LedgerTerm>, i: nat) {
    && i < |steps| < |run|
    && (steps[i].Client? && TakesRequests(run[i], steps[i], steps[i].v) ==>
          exists x: nat, k: nat :: x < |ls| && Serves(steps, run, d, ls[x], i, k))
  }

  /** Whatever a leader takes comes from the ledger's command loop. */
  ghost predicate AllServed(steps: seq<Step>, run: seq<Cluster>, d: Decoder, ls: seq<LedgerTerm>) {
    forall i: nat {:trigger ServedAt(steps, run, d, ls, i)} :: i < |steps| ==> ServedAt(steps, run, d, ls, i)
  }

  /** The step of the hosted term and the cluster's step make the same log. */
  lemma ServedLog(members: set<nat>, steps: seq<Step>, run: seq<Cluster>, d: Decoder, l: LedgerTerm, i: nat, k: nat)
    requires IsRun(members, steps, run) && Serves(steps, run, d, l, i, k)
    ensures i + 1 < |run| && l.h.v in run[i].nodes && l.h.v in run[i + 1].nodes && k + 1 < |l.h.run|
    ensures run[i + 1].nodes[l.h.v] == HandleClientRequests(run[i].nodes[l.h.v], steps[i].requests)
    ensures Handover.Leads(l.h.run[k + 1]) && l.h.run[k + 1].accepted <= |l.h.run[k + 1].submitted|
    ensures run[i + 1].nodes[l.h.v].log == l.Base() + l.h.run[k + 1].submitted[..l.h.run[k + 1].accepted]
    ensures |l.Base()| <= |run[i].nodes[l.h.v].log|
  {
    assert StandsAt(run, l.h, k) && StandsAt(run, l.h, k + 1) && AdvancesAt(steps, run, l.h, k);
    RunStep(members, steps, run, i);
    RunInv(members, steps, run, i + 1);
    RunInv(members, steps, run, i);
    PipeAt(members, steps, run, d, l.h, k);
    PipeAt(members, steps, run, d, l.h, k + 1);
    Handover.RunInv(d, l.h.steps, l.h.run, k + 1);
    LeaderLogIs(run[i], l.h.v, l.h.term);
    LeaderLogIs(run[i + 1], l.h.v, l.h.term);
  }

  /** A term starts from the log of its leader. */
  lemma BaseApplies(members: set<nat>, steps: seq<Step>, run: seq<Cluster>, d: Decoder, l: LedgerTerm)
    requires IsRun(members, steps, run) && Hosts(steps, run, d, l.h)
    requires RaftJudged.LeadersJudged(Applicable(d), run[l.h.at[0]].hist.leaderLog)
    ensures Applies(d, l.Base())
  {
    BaseIs(members, steps, run, l.h.v, l.h.term, l.h.at[0]);
    assert StandsAt(run, l.h, 0);
    assert RaftJudged.Judged(Applicable(d), run[l.h.at[0]].hist.leaderLog[l.h.term]);
    JudgedApplies(d, l.Base());
  }

  lemma TakenApplies(members: set<nat>, steps: seq<Step>, run: seq<Cluster>, d: Decoder, l: LedgerTerm, k: nat, n: nat,
                     taken: seq<LogEntry>)
    requires IsRun(members, steps, run) && Hosts(steps, run, d, l.h) && RunsLedger(d, l) && k < |l.h.run|
    requires Handover.Leads(l.h.run[k]) && n <= |l.h.run[k].submitted| && Applies(d, l.Base())
    requires taken == l.Base() + l.h.run[k].submitted[..n]
    ensures Applies(d, taken)
  {
    var last := |l.h.run| - 1;
    PipeAt(members, steps, run, d, l.h, k);
    PipeAt(members, steps, run, d, l.h, last);
    if n == 0 {
      assert taken == l.Base();
    } else {
      var w := Handover.TookOver(d, l.h.steps, l.h.run, k);
      Handover.LedAllTheWhile(d, l.h.steps, l.h.run, w, k);
      Handover.SubmittedGrows(d, l.h.steps, l.h.run, k, last);
      var submitted := l.h.run[last].submitted;
      assert submitted[..n] == l.h.run[k].submitted[..n];
      SubmittedApply(d, l, w, n, EventLoading.Bundles(d, l.Base()), submitted);
    }
  }

  lemma Piece(log: seq<LogEntry>, base: seq<LogEntry>, submitted: seq<LogEntry>, m: nat, j: nat)
    requires m <= |submitted| && log == base + submitted[..m] && |base| <= j < |log|
    ensures log[..j] + [log[j]] == base + submitted[..j + 1 - |base|]
  {
  }

  lemma AppliesJudged(d: Decoder, log: seq<LogEntry>, j: nat, taken: seq<LogEntry>)
    requires j < |log| && taken == log[..j] + [log[j]] && Applies(d, taken)
    ensures RaftJudged.JudgedAt(Applicable(d), log, j)
  {
  }

  lemma TakenJudged(members: set<nat>, steps: seq<Step>, run: seq<Cluster>, d: Decoder, l: LedgerTerm, k: nat,
                    log: seq<LogEntry>, j: nat)
    requires IsRun(members, steps, run) && Hosts(steps, run, d, l.h) && RunsLedger(d, l) && k < |l.h.run|
    requires Handover.Leads(l.h.run[k]) && Applies(d, l.Base()) && l.h.run[k].accepted <= |l.h.run[k].submitted|
    requires log == l.Base() + l.h.run[k].submitted[..l.h.run[k].accepted] && |l.Base()| <= j < |log|
    ensures RaftJudged.JudgedAt(Applicable(d), log, j)
  {
    var taken := log[..j] + [log[j]];
    Piece(log, l.Base(), l.h.run[k].submitted, l.h.run[k].accepted, j);
    TakenApplies(members, steps, run, d, l, k, j + 1 - |l.Base()|, taken);
    AppliesJudged(d, log, j, taken);
  }

  /** What the command loop of a leader submits has been judged against the log it is appended to. */
  lemma ServedIsJudged(members: set<nat>, steps: seq<Step>, run: seq<Cluster>, d: Decoder, l: LedgerTerm, i: nat, k: nat)
    requires IsRun(members, steps, run) && Serves(steps, run, d, l, i, k)
    requires RaftJudged.LeadersJudged(Applicable(d), run[l.h.at[0]].hist.leaderLog)
    ensures RaftJudged.ClientsJudge(Applicable(d), run[i], steps[i])
  {
    ServedLog(members, steps, run, d, l, i, k);
    BaseApplies(members, steps, run, d, l);
    var log' := run[i + 1].nodes[l.h.v].log;
    forall j: nat | |run[i].nodes[l.h.v].log| <= j < |log'| ensures RaftJudged.JudgedAt(Applicable(d), log', j) {
      TakenJudged(members, steps, run, d, l, k + 1, log', j);
    }
  }

  lemma {:induction false} JudgedUpTo(members: set<nat>, steps: seq<Step>, run: seq<Cluster>, d: Decoder, ls: seq<LedgerTerm>, k: nat)
    requires IsRun(members, steps, run) && AllServed(steps, run, d, ls) && k < |run|
    ensures RaftJudged.LeadersJudged(Applicable(d), run[k].hist.leaderLog)
    decreases k
  {
    if k == 0 {
      RunStart(members, steps, run);
    } else {
      var i := k - 1;
      JudgedUpTo(members, steps, run, d, ls, i);
      assert ServedAt(steps, run, d, ls, i);
      if steps[i].Client? && TakesRequests(run[i], steps[i], steps[i].v) {
        var x: nat, n: nat :| x < |ls| && Serves(steps, run, d, ls[x], i, n);
        MomentsRise(steps, run, d, ls[x].h, n);
        JudgedUpTo(members, steps, run, d, ls, ls[x].h.at[0]);
        ServedIsJudged(members, steps, run, d, ls[x], i, n);
      }
      JudgedStep(members, steps, run, Applicable(d), i);
    }
  }

  lemma JudgedStep(members: set<nat>, steps: seq<Step>, run: seq<Cluster>, judge: RaftJudged.Judge, i: nat)
    requires IsRun(members, steps, run) && i < |steps| && RaftJudged.LeadersJudged(judge, run[i].hist.leaderLog)
    requires RaftJudged.ClientsJudge(judge, run[i], steps[i])
    ensures RaftJudged.LeadersJudged(judge, run[i + 1].hist.leaderLog)
  {
    RunInv(members, steps, run, i);
    RunStep(members, steps, run, i);
    RaftJudged.StepKeepsJudged(judge, run[i], run[i + 1], steps[i]);
  }

  /** In every run of the cluster with the ledger on top, the events of the log of any server at any moment
      can be applied from the empty books without a failed assertion, and record no id twice. */
  lemma EveryLogApplies(members: set<nat>, steps: seq<Step>, run: seq<Cluster>, d: Decoder, ls: seq<LedgerTerm>, k: nat, v: nat)
    requires IsRun(members, steps, run) && AllServed(steps, run, d, ls) && k < |run| && v in run[k].nodes
    ensures Applies(d, run[k].nodes[v].log)
    ensures CrashRecovery.Distinct(CrashRecovery.Ids(AllEvents(d, run[k].nodes[v].log)))
  {
    JudgedUpTo(members, steps, run, d, ls, k);
    AtMoment(members, steps, run, k, v);
    RaftJudged.LogJudged(Applicable(d), run[k].nodes[v].log, run[k].hist.leaderLog);
    JudgedApplies(d, run[k].nodes[v].log);
    CrashRecovery.AppliedIsDistinct(Ledger.EMPTY, AllEvents(d, run[k].nodes[v].log));
  }
}
