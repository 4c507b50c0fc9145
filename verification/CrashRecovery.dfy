/** Crashing and recovering, wherever flushes fall, gives the same books as never crashing; and no journal
    entry id is ever forgotten. */
module CrashRecovery {
  import opened Common
  import opened LedgerTypes
  import opened Ledger
  import opened DurableLedger

  /** The books after the first n commands, never having crashed. */
  function Folded(all: seq<CommandEvents>, n: nat): Option<Books>
    requires n <= |all|
  {
    if n == 0 then Some(EMPTY)
    else
      match Folded(all, n - 1)
      case None => None
      case Some(b) => ApplyAll(b, all[n - 1].events)
  }

  function IdAt(all: seq<CommandEvents>, n: nat): nat
    requires n <= |all|
  {
    if n == 0 then 0 else all[n - 1].id
  }

  /** The machine stands where the uncrashed books stand: same accounts and metadata in memory, the same
      in the store once the batch is written, and every id in memory or in the store. */
  ghost predicate Tracks(full: Books, m: Machine) {
    && Filed(full)
    && m.books.accounts == full.accounts && m.books.metadata == full.metadata
    && full.done.Keys == m.books.done.Keys + m.store.done.Keys
    && var w := WrittenAll(m.store, m.batch);
       w.accounts == full.accounts && w.metadata == full.metadata && w.done == full.done
  }

  /** An event does the same to the books in memory as to those that remember every id. */
  lemma SameEffect(full: Books, b: Books, e: Event, full': Books)
    requires b.accounts == full.accounts && b.metadata == full.metadata && b.done.Keys <= full.done.Keys
    requires Apply(full, e) == Some(full')
    ensures Apply(b, e).Some? && Puts(b, e) == Puts(full, e)
    ensures var b' := Apply(b, e).value;
            && b'.accounts == full'.accounts && b'.metadata == full'.metadata
            && full'.done == (if e.EntryRecorded? then full.done[e.entry.id := e.entry.validTime] else full.done)
            && b'.done.Keys == b.done.Keys + (if e.EntryRecorded? then {e.entry.id} else {})
  {
  }

  lemma AppliedTracks(full: Books, m: Machine, e: Event, full': Books)
    requires Tracks(full, m) && Apply(full, e) == Some(full')
    ensures Applied(m, e).Some?
    ensures var m' := Applied(m, e).value;
            && Tracks(full', m') && m'.store == m.store && m'.lastFlushed == m.lastFlushed
            && WrittenAll(m'.store, m'.batch).lastApplied == WrittenAll(m.store, m.batch).lastApplied
  {
    SameEffect(full, m.books, e, full');
    WrittenConcat(m.store, m.batch, Puts(full, e));
    PutsMirror(WrittenAll(m.store, m.batch), full, e, full');
  }

  lemma {:induction false} AllTrack(full: Books, m: Machine, es: seq<Event>, full': Books)
    requires Tracks(full, m) && ApplyAll(full, es) == Some(full')
    ensures AppliedAll(m, es).Some?
    ensures var m' := AppliedAll(m, es).value;
            && Tracks(full', m') && m'.store == m.store && m'.lastFlushed == m.lastFlushed
            && WrittenAll(m'.store, m'.batch).lastApplied == WrittenAll(m.store, m.batch).lastApplied
    decreases es
  {
    if es != [] {
      var n := |es| - 1;
      var before := ApplyAll(full, es[..n]).value;
      AllTrack(full, m, es[..n], before);
      AppliedTracks(before, AppliedAll(m, es[..n]).value, es[n], full');
    }
  }

  // ---------------------------------------------------------------- runs

  /** What an event is when it comes back from the log. */
  type Codec = Event -> Event

  function ReadBack(back: Codec, c: CommandEvents): CommandEvents {
    c.(events := seq(|c.events|, i requires 0 <= i < |c.events| => back(c.events[i])))
  }

  /** The codec carries all there is to the events of a log, ids included. */
  ghost predicate Carried(back: Codec, all: seq<CommandEvents>) {
    forall i, j {:trigger all[i].events[j]} :: 0 <= i < |all| && 0 <= j < |all[i].events| ==>
      back(all[i].events[j]) == all[i].events[j]
  }

  lemma CarriedBack(back: Codec, all: seq<CommandEvents>, i: nat)
    requires Carried(back, all) && i < |all|
    ensures ReadBack(back, all[i]) == all[i]
  {
    assert ReadBack(back, all[i]).events == all[i].events;
  }

  /** `next` is the number of commands in the machine, the position from which the log is read on. */
  datatype State = State(machine: Machine, next: nat)

  datatype Step =
    | RunNext     // the apply loop takes the next command of the log and commits
    | HandOver    // its state is swapped out after a flush, and it recovers
    | Crash       // memory and batch are lost, and it recovers

  /** The number of commands in the store, as its stored index tells; it is recovered as the offset to
      read from. */
  ghost predicate StoredUpTo(all: seq<CommandEvents>, store: Store, n: nat) {
    n <= |all| && store.lastApplied == IdAt(all, n)
  }

  ghost predicate Next(back: Codec, all: seq<CommandEvents>, s: State, step: Step, s': State) {
    match step
    case RunNext => s.next < |all| && Ran(s.machine, ReadBack(back, all[s.next])) == Some(s'.machine) && s'.next == s.next + 1
    case HandOver => s'.machine == Recovered(Flushed(s.machine)) && StoredUpTo(all, s'.machine.store, s'.next)
    case Crash => s'.machine == Recovered(s.machine.(batch := [])) && StoredUpTo(all, s'.machine.store, s'.next)
  }

  ghost predicate IsRun(back: Codec, all: seq<CommandEvents>, steps: seq<Step>, run: seq<State>) {
    && |run| == |steps| + 1
    && run[0] == State(Machine(EMPTY, Store(map[], map[], map[], 0), [], 0), 0)
    && forall k {:trigger steps[k]} :: 0 <= k < |steps| ==> Next(back, all, run[k], steps[k], run[k + 1])
  }

  /** The log of commands: indices increase, and without crashes all of it can be applied. */
  ghost predicate GoodLog(all: seq<CommandEvents>) {
    && Folded(all, |all|).Some?
    && forall i, j :: 0 <= i < j <= |all| ==> IdAt(all, i) < IdAt(all, j)
  }

  lemma {:induction false} FoldedBefore(all: seq<CommandEvents>, n: nat, m: nat)
    requires n <= m <= |all| && Folded(all, m).Some?
    ensures Folded(all, n).Some?
    decreases m
  {
    if n < m {
      FoldedBefore(all, n, m - 1);
    }
  }

  /** The store holds exactly the first k commands. */
  ghost predicate StoreIs(all: seq<CommandEvents>, store: Store, k: nat) {
    && k <= |all| && Folded(all, k).Some? && Filed(Folded(all, k).value)
    && var g := Folded(all, k).value;
       store == Store(g.accounts, g.metadata, g.done, IdAt(all, k))
  }

  ghost predicate Inv(all: seq<CommandEvents>, s: State, k: nat) {
    && GoodLog(all) && k <= s.next <= |all| && StoreIs(all, s.machine.store, k)
    && Folded(all, s.next).Some? && Tracks(Folded(all, s.next).value, s.machine)
    && WrittenAll(s.machine.store, s.machine.batch).lastApplied == IdAt(all, s.next)
  }

  /** A command is applied, its index goes into the batch, and the batch may be flushed. */
  lemma RanIs(m: Machine, c: CommandEvents, m': Machine) returns (flush: bool)
    requires Ran(m, c) == Some(m')
    ensures AppliedAll(m, c.events).Some?
    ensures var m1 := AppliedAll(m, c.events).value; m' == WithIndex(m1, c.id, flush)
  {
    flush := (c.id - AppliedAll(m, c.events).value.lastFlushed) % TWO_64 >= MAX_BATCH;
  }

  function WithIndex(m: Machine, id: nat, flush: bool): Machine {
    var m' := m.(batch := m.batch + [PutIndex(id)]);
    if flush then Flushed(m').(lastFlushed := id) else m'
  }

  lemma IndexedTracks(full: Books, m: Machine, id: nat, flush: bool)
    requires Tracks(full, m)
    ensures var m' := WithIndex(m, id, flush);
            && Tracks(full, m') && WrittenAll(m'.store, m'.batch).lastApplied == id
            && m'.store == if flush then Store(full.accounts, full.metadata, full.done, id) else m.store
  {
    WrittenLast(m.store, m.batch, PutIndex(id));
    var m1 := m.(batch := m.batch + [PutIndex(id)]);
    var w := WrittenAll(m1.store, m1.batch);
    assert w == Store(full.accounts, full.metadata, full.done, id);
    if flush {
      FlushTracks(full, m1, w, WithIndex(m, id, flush));
    }
  }

  lemma FlushTracks(full: Books, m: Machine, w: Store, m': Machine)
    requires Filed(full) && m.books.accounts == full.accounts && m.books.metadata == full.metadata
    requires full.done.Keys == m.books.done.Keys + m.store.done.Keys
    requires w.accounts == full.accounts && w.metadata == full.metadata && w.done == full.done
    requires m'.books == m.books && m'.store == w && m'.batch == []
    ensures Tracks(full, m') && WrittenAll(m'.store, m'.batch) == w
  {
  }

  lemma RunKeeps(all: seq<CommandEvents>, s: State, s': State, k: nat, m: Machine, flush: bool) returns (k': nat)
    requires Inv(all, s, k) && s.next < |all| && AppliedAll(s.machine, all[s.next].events) == Some(m)
    requires s' == State(WithIndex(m, all[s.next].id, flush), s.next + 1)
    ensures Inv(all, s', k')
  {
    FoldedBefore(all, s.next + 1, |all|);
    var f, f' := Folded(all, s.next).value, Folded(all, s.next + 1).value;
    AllTrack(f, s.machine, all[s.next].events, f');
    IndexedTracks(f', m, all[s.next].id, flush);
    k' := if flush then s.next + 1 else k;
  }

  lemma IdTells(all: seq<CommandEvents>, a: nat, b: nat)
    requires GoodLog(all) && a <= |all| && b <= |all| && IdAt(all, a) == IdAt(all, b)
    ensures a == b
  {
  }

  lemma RecoverKeeps(all: seq<CommandEvents>, s': State, k: nat)
    requires GoodLog(all) && StoreIs(all, s'.machine.store, k) && s'.machine.batch == []
    requires s'.machine.books == Books(s'.machine.store.accounts, s'.machine.store.metadata, map[])
    requires StoredUpTo(all, s'.machine.store, s'.next)
    ensures s'.next == k && Inv(all, s', k)
  {
    IdTells(all, s'.next, k);
  }

  lemma StepKeeps(back: Codec, all: seq<CommandEvents>, s: State, step: Step, s': State, k: nat) returns (k': nat)
    requires Inv(all, s, k) && Carried(back, all) && Next(back, all, s, step, s')
    ensures Inv(all, s', k')
  {
    match step
    case RunNext =>
      CarriedBack(back, all, s.next);
      var flush := RanIs(s.machine, all[s.next], s'.machine);
      k' := RunKeeps(all, s, s', k, AppliedAll(s.machine, all[s.next].events).value, flush);
    case HandOver =>
      RecoverKeeps(all, s', s.next);
      k' := s.next;
    case Crash =>
      RecoverKeeps(all, s', k);
      k' := k;
  }

  lemma {:induction false} RunInv(back: Codec, all: seq<CommandEvents>, steps: seq<Step>, run: seq<State>, i: nat) returns (k: nat)
    requires GoodLog(all) && Carried(back, all) && IsRun(back, all, steps, run) && i < |run|
    ensures Inv(all, run[i], k)
    decreases i
  {
    if i == 0 {
      k := 0;
      FoldedBefore(all, 0, |all|);
    } else {
      k := RunInv(back, all, steps, run, i - 1);
      k := StepKeeps(back, all, run[i - 1], steps[i - 1], run[i], k);
    }
  }

  // ---------------------------------------------------------------- theorems

  /** At every moment the store is the fold of whole commands, up to and including the one whose index it
      names. */
  lemma StoreIsWholeCommands(back: Codec, all: seq<CommandEvents>, steps: seq<Step>, run: seq<State>, i: nat)
    requires GoodLog(all) && Carried(back, all) && IsRun(back, all, steps, run) && i < |run|
    ensures exists k :: StoreIs(all, run[i].machine.store, k)
  {
    var k := RunInv(back, all, steps, run, i);
  }

  /** The index of the last command run is less than 500 ahead of the stored one, at 64 bits. */
  ghost predicate KeepsUp(all: seq<CommandEvents>, s: State) {
    && s.next <= |all| && s.machine.lastFlushed == s.machine.store.lastApplied
    && (IdAt(all, s.next) - s.machine.store.lastApplied) % TWO_64 < 500
  }

  lemma CommitCloses(m: Machine, index: nat, m': Machine)
    requires m.lastFlushed == m.store.lastApplied && m' == Committed(m, index)
    ensures m'.lastFlushed == m'.store.lastApplied && (index - m'.store.lastApplied) % TWO_64 < 500
  {
    CommittedKeepsUp(m, index, m');
    if (index - m.lastFlushed) % TWO_64 >= 500 {
      assert index - m'.store.lastApplied == 0;
    } else {
      assert m'.store.lastApplied == m.lastFlushed;
    }
  }

  lemma RunKeepsUp(all: seq<CommandEvents>, s: State, s': State, k: nat)
    requires Inv(all, s, k) && KeepsUp(all, s) && s.next < |all| && s'.next == s.next + 1
    requires Ran(s.machine, all[s.next]) == Some(s'.machine)
    ensures KeepsUp(all, s')
  {
    FoldedBefore(all, s.next + 1, |all|);
    AllTrack(Folded(all, s.next).value, s.machine, all[s.next].events, Folded(all, s.next + 1).value);
    CommitCloses(AppliedAll(s.machine, all[s.next].events).value, all[s.next].id, s'.machine);
  }

  lemma StepKeepsUp(back: Codec, all: seq<CommandEvents>, s: State, step: Step, s': State, k: nat)
    requires Inv(all, s, k) && KeepsUp(all, s) && Carried(back, all) && Next(back, all, s, step, s')
    ensures KeepsUp(all, s')
  {
    match step
    case RunNext =>
      CarriedBack(back, all, s.next);
      RunKeepsUp(all, s, s', k);
    case HandOver =>
    case Crash =>
  }

  /** After every commit fewer than 500 indices remain to be replayed from the log. */
  lemma {:induction false} NeverFarBehind(back: Codec, all: seq<CommandEvents>, steps: seq<Step>, run: seq<State>, i: nat)
    requires GoodLog(all) && Carried(back, all) && IsRun(back, all, steps, run) && i < |run|
    ensures KeepsUp(all, run[i])
    ensures IdAt(all, |all|) < TWO_64 ==>
              run[i].machine.store.lastApplied <= IdAt(all, run[i].next) < run[i].machine.store.lastApplied + 500
    decreases i
  {
    var k := RunInv(back, all, steps, run, i);
    if i > 0 {
      var k0 := RunInv(back, all, steps, run, i - 1);
      NeverFarBehind(back, all, steps, run, i - 1);
      StepKeepsUp(back, all, run[i - 1], steps[i - 1], run[i], k0);
    }
    CloseAtLast(all, run[i], k);
  }

  lemma CloseAtLast(all: seq<CommandEvents>, s: State, k: nat)
    requires Inv(all, s, k) && KeepsUp(all, s)
    ensures IdAt(all, |all|) < TWO_64 ==> s.machine.store.lastApplied <= IdAt(all, s.next) < s.machine.store.lastApplied + 500
  {
    assert IdAt(all, k) <= IdAt(all, s.next) <= IdAt(all, |all|);
  }

  /** Replaying from fewer remembered ids gives the same accounts and metadata. */
  lemma {:induction false} ReplayForgets(full: Books, b: Books, es: seq<Event>)
    requires b.accounts == full.accounts && b.metadata == full.metadata && b.done.Keys <= full.done.Keys
    requires ApplyAll(full, es).Some?
    ensures ApplyAll(b, es).Some?
    ensures var f, r := ApplyAll(full, es).value, ApplyAll(b, es).value;
            r.accounts == f.accounts && r.metadata == f.metadata && r.done.Keys <= f.done.Keys
    decreases es
  {
    if es != [] {
      ReplayForgets(full, b, es[..|es| - 1]);
    }
  }

  /** The books after recovery and the replay of commands n up to m. */
  function Replayed(back: Codec, b: Books, all: seq<CommandEvents>, n: nat, m: nat): Option<Books>
    requires n <= m <= |all|
  {
    if n == m then Some(b)
    else
      match Replayed(back, b, all, n, m - 1)
      case None => None
      case Some(b') => ApplyAll(b', ReadBack(back, all[m - 1]).events)
  }

  lemma {:induction false} ReplayCatchesUp(back: Codec, b: Books, all: seq<CommandEvents>, n: nat, m: nat)
    requires Carried(back, all) && n <= m <= |all| && Folded(all, n).Some? && Folded(all, m).Some?
    requires var f := Folded(all, n).value;
             b.accounts == f.accounts && b.metadata == f.metadata && b.done.Keys <= f.done.Keys
    ensures Replayed(back, b, all, n, m).Some?
    ensures var f, r := Folded(all, m).value, Replayed(back, b, all, n, m).value;
            r.accounts == f.accounts && r.metadata == f.metadata && r.done.Keys <= f.done.Keys
    decreases m
  {
    if n < m {
      FoldedBefore(all, m - 1, m);
      ReplayCatchesUp(back, b, all, n, m - 1);
      CarriedBack(back, all, m - 1);
      ReplayForgets(Folded(all, m - 1).value, Replayed(back, b, all, n, m - 1).value, all[m - 1].events);
    }
  }

  /** Crash-equivalent recovery, if the codec carries the events: crash at any moment of any run, recover,
      replay the log from the offset recovered, and accounts and metadata are those of never having crashed. */
  lemma CrashEquivalent(back: Codec, all: seq<CommandEvents>, steps: seq<Step>, run: seq<State>, i: nat, offset: nat)
    requires GoodLog(all) && Carried(back, all) && IsRun(back, all, steps, run) && i < |run|
    requires StoredUpTo(all, run[i].machine.store, offset)
    ensures var replayed := Replayed(back, Recovered(run[i].machine.(batch := [])).books, all, offset, |all|);
            && replayed.Some?
            && replayed.value.accounts == Folded(all, |all|).value.accounts
            && replayed.value.metadata == Folded(all, |all|).value.metadata
  {
    var k := RunInv(back, all, steps, run, i);
    var m := Recovered(run[i].machine.(batch := []));
    RecoverKeeps(all, State(m, offset), k);
    ReplayCatchesUp(back, m.books, all, offset, |all|);
  }

  /** Whatever has been recorded is remembered: after a handover the ids in the state handed over together
      with those in the snapshot of the store are exactly the ids recorded by the commands so far. */
  lemma EveryIdIsRemembered(back: Codec, all: seq<CommandEvents>, steps: seq<Step>, run: seq<State>, i: nat)
    requires GoodLog(all) && Carried(back, all) && IsRun(back, all, steps, run) && i < |run|
    ensures var m, n := run[i].machine, run[i].next;
            && n <= |all| && Folded(all, n).Some?
            && m.books.done.Keys + Flushed(m).store.done.Keys == Folded(all, n).value.done.Keys
            && m.books.accounts == Folded(all, n).value.accounts && m.books.metadata == Folded(all, n).value.metadata
  {
    var k := RunInv(back, all, steps, run, i);
  }

  // ---------------------------------------------------------------- exactly once

  /** The ids of the entries recorded by a list of events. */
  function Ids(es: seq<Event>): seq<string> {
    if es == [] then []
    else
      var e := es[|es| - 1];
      Ids(es[..|es| - 1]) + if e.EntryRecorded? then [e.entry.id] else []
  }

  predicate Distinct(ids: seq<string>) {
    forall i, j :: 0 <= i < j < |ids| ==> ids[i] != ids[j]
  }

  /** Events that can be applied one after the other never record an id twice. */
  lemma {:induction false} AppliedIsDistinct(b: Books, es: seq<Event>)
    requires ApplyAll(b, es).Some?
    ensures Distinct(Ids(es)) && (forall x :: x in Ids(es) ==> x !in b.done)
    ensures ApplyAll(b, es).value.done.Keys == b.done.Keys + set x | x in Ids(es)
  {
    if es != [] {
      AppliedIsDistinct(b, es[..|es| - 1]);
    }
  }

  /** A leader that has been handed books and a snapshot that together remember every id judges as the
      full history would, and what it accepts can be applied to the full history. */
  lemma LeaderJudgesOnFullHistory(full: Books, b: Books, stored: set<string>, c: Command)
    requires b.accounts == full.accounts && b.metadata == full.metadata
    requires full.done.Keys == b.done.Keys + stored
    requires Execute(b, stored, c).Some?
    ensures Process(b, stored, c) == Process(full, {}, c)
    ensures var es := Process(b, stored, c).value.events;
            && ApplyAll(full, es).Some?
            && var full', b' := ApplyAll(full, es).value, Execute(b, stored, c).value;
               && b'.accounts == full'.accounts && b'.metadata == full'.metadata
               && full'.done.Keys == b'.done.Keys + stored
  {
    assert c.RecordJournalEntry? && c.entry.Some? ==>
        JudgeEntry(b, stored, c.entry.value) == JudgeEntry(full, {}, c.entry.value);
    var es := Process(b, stored, c).value.events;
    if es != [] {
      assert es[..0] == [];
      assert ApplyAll(full, es) == Apply(full, es[0]);
      assert ApplyAll(b, es) == Apply(b, es[0]);
    }
  }

  /** The events a leader adds by executing commands. */
  function Added(b: Books, stored: set<string>, cs: seq<Command>): seq<Event> {
    if cs == [] then []
    else
      var before := cs[..|cs| - 1];
      match ExecuteAll(b, stored, before)
      case None => []
      case Some(b') =>
        match Process(b', stored, cs[|cs| - 1])
        case None => []
        case Some(v) => Added(b, stored, before) + v.events
  }

  lemma {:induction false} ApplyConcat(b: Books, a: seq<Event>, c: seq<Event>)
    requires ApplyAll(b, a).Some?
    ensures ApplyAll(b, a + c) == ApplyAll(ApplyAll(b, a).value, c)
  {
    if c == [] {
      assert a + c == a;
    } else {
      assert (a + c)[..|a + c| - 1] == a + c[..|c| - 1];
      ApplyConcat(b, a, c[..|c| - 1]);
    }
  }

  lemma {:induction false} LeaderExtends(full: Books, b: Books, stored: set<string>, cs: seq<Command>)
    requires b.accounts == full.accounts && b.metadata == full.metadata
    requires full.done.Keys == b.done.Keys + stored && ExecuteAll(b, stored, cs).Some?
    ensures ApplyAll(full, Added(b, stored, cs)).Some?
    ensures var f, r := ApplyAll(full, Added(b, stored, cs)).value, ExecuteAll(b, stored, cs).value;
            r.accounts == f.accounts && r.metadata == f.metadata && f.done.Keys == r.done.Keys + stored
    decreases cs
  {
    if cs != [] {
      var before, c := cs[..|cs| - 1], cs[|cs| - 1];
      LeaderExtends(full, b, stored, before);
      var f, r := ApplyAll(full, Added(b, stored, before)).value, ExecuteAll(b, stored, before).value;
      LeaderJudgesOnFullHistory(f, r, stored, c);
      ApplyConcat(full, Added(b, stored, before), Process(r, stored, c).value.events);
    }
  }

  /** The events of the first n commands, one after the other. */
  function History(all: seq<CommandEvents>, n: nat): seq<Event>
    requires n <= |all|
  {
    if n == 0 then [] else History(all, n - 1) + all[n - 1].events
  }

  lemma {:induction false} FoldedIs(all: seq<CommandEvents>, n: nat)
    requires n <= |all| && Folded(all, n).Some?
    ensures ApplyAll(EMPTY, History(all, n)) == Folded(all, n)
    decreases n
  {
    if n > 0 {
      FoldedBefore(all, n - 1, n);
      FoldedIs(all, n - 1);
      ApplyConcat(EMPTY, History(all, n - 1), all[n - 1].events);
    }
  }

  /** Events that a leader adds to a history it knows in full record no id twice, nor one of the history's. */
  lemma AddedIsDistinct(history: seq<Event>, full: Books, b: Books, stored: set<string>, cs: seq<Command>)
    requires ApplyAll(EMPTY, history) == Some(full)
    requires b.accounts == full.accounts && b.metadata == full.metadata && full.done.Keys == b.done.Keys + stored
    requires ExecuteAll(b, stored, cs).Some?
    ensures Distinct(Ids(history + Added(b, stored, cs)))
  {
    LeaderExtends(full, b, stored, cs);
    ApplyConcat(EMPTY, history, Added(b, stored, cs));
    AppliedIsDistinct(EMPTY, history + Added(b, stored, cs));
  }

  /** Exactly once, if the codec carries the ids: after any crashes, recoveries and handovers, a leader takes
      over the books and the snapshot of the flushed store, and executes commands. No two entries recorded
      by the commands of the log so far, or by those it adds, share an id. */
  lemma RecordedExactlyOnce(back: Codec, all: seq<CommandEvents>, steps: seq<Step>, run: seq<State>, i: nat,
                            stored: set<string>, cs: seq<Command>)
    requires GoodLog(all) && Carried(back, all) && IsRun(back, all, steps, run) && i < |run|
    requires stored == Flushed(run[i].machine).store.done.Keys && ExecuteAll(run[i].machine.books, stored, cs).Some?
    ensures run[i].next <= |all|
    ensures Distinct(Ids(History(all, run[i].next) + Added(run[i].machine.books, stored, cs)))
  {
    EveryIdIsRemembered(back, all, steps, run, i);
    var b, n := run[i].machine.books, run[i].next;
    FoldedIs(all, n);
    AddedIsDistinct(History(all, n), Folded(all, n).value, b, stored, cs);
  }
}
