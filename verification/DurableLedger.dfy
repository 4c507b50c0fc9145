/** The twin of the state machine that writes through to a durable store, in batches that are written
    whole. Nothing but whole commands ever reaches the store. */
module DurableLedger {
  import opened Common
  import opened LedgerTypes
  import opened Ledger
  import EventLoading
  import LedgerMachine

  /** A command of the log with the events it led to. */
  type CommandEvents = EventLoading.Bundle<Event>

  datatype Put =
    | PutAccount(account: Account)
    | PutMetadata(metadata: Metadata)
    | PutDone(id: string, validTime: U64)
    | PutIndex(index: nat)

  datatype Store = Store(
    accounts: map<U64, Account>, metadata: map<AccountType, Metadata>, done: map<string, U64>, lastApplied: nat)

  const MAX_BATCH: nat := 500

  function Written(s: Store, p: Put): Store {
    match p
    case PutAccount(a) => s.(accounts := s.accounts[a.code := a])
    case PutMetadata(m) => s.(metadata := s.metadata[m.accountType := m])
    case PutDone(id, t) => s.(done := s.done[id := t])
    case PutIndex(i) => s.(lastApplied := i)
  }

  function WrittenAll(s: Store, ps: seq<Put>): Store {
    if ps == [] then s else Written(WrittenAll(s, ps[..|ps| - 1]), ps[|ps| - 1])
  }

  /** What the callbacks put into the batch while the lines of an entry are booked. */
  function LinePuts(accounts: map<U64, Account>, lines: seq<Line>): seq<Put> {
    if lines == [] then []
    else
      var l := lines[|lines| - 1];
      var after := BookLines(accounts, lines);
      if after.None? || l.code !in after.value then []
      else LinePuts(accounts, lines[..|lines| - 1]) + [PutAccount(after.value[l.code])]
  }

  lemma NextLine(accounts: map<U64, Account>, lines: seq<Line>, i: nat, m: map<U64, Account>)
    requires i < |lines| && BookLines(accounts, lines[..i]) == Some(m)
    ensures var l, after := lines[i], BookLines(accounts, lines[..i + 1]);
            if l.code !in m || l.side.UnknownSide? || m[l.code].accountType.UnknownType? then after.None?
            else
              var a := Booked(m[l.code], l.side, l.amount);
              && a.Some? && after == Some(m[l.code := a.value])
              && LinePuts(accounts, lines[..i + 1]) == LinePuts(accounts, lines[..i]) + [PutAccount(a.value)]
  {
    assert lines[..i + 1][..i] == lines[..i];
  }

  function Puts(b: Books, e: Event): seq<Put> {
    match e
    case MetadataConfigured(m) => [PutMetadata(m)]
    case AccountCreated(a) => [PutAccount(a)]
    case EntryRecorded(j) => [PutDone(j.id, j.validTime)] + LinePuts(b.accounts, j.lines)
  }

  /** The state in memory, the store on disk and the batch between them. */
  datatype Machine = Machine(books: Books, store: Store, batch: seq<Put>, lastFlushed: nat)

  function Applied(m: Machine, e: Event): Option<Machine> {
    match Apply(m.books, e)
    case None => None
    case Some(b) => Some(m.(books := b, batch := m.batch + Puts(m.books, e)))
  }

  function AppliedAll(m: Machine, es: seq<Event>): Option<Machine> {
    if es == [] then Some(m)
    else
      match AppliedAll(m, es[..|es| - 1])
      case None => None
      case Some(m') => Applied(m', es[|es| - 1])
  }

  function Flushed(m: Machine): Machine {
    m.(store := WrittenAll(m.store, m.batch), batch := [])
  }

  /** The index goes into the batch last; the difference is taken modulo 2^64. */
  function Committed(m: Machine, index: nat): Machine {
    var m' := m.(batch := m.batch + [PutIndex(index)]);
    if (index - m.lastFlushed) % TWO_64 < MAX_BATCH then m' else Flushed(m').(lastFlushed := index)
  }

  /** The ids already processed are not loaded back. */
  function Recovered(m: Machine): Machine {
    m.(books := Books(m.store.accounts, m.store.metadata, map[]), lastFlushed := m.store.lastApplied)
  }

  function Ran(m: Machine, c: CommandEvents): Option<Machine> {
    match AppliedAll(m, c.events)
    case None => None
    case Some(m') => Some(Committed(m', c.id))
  }

  // ---------------------------------------------------------------- the store mirrors the books

  ghost predicate Filed(b: Books) {
    && (forall c :: c in b.accounts ==> b.accounts[c].code == c)
    && (forall t :: t in b.metadata ==> b.metadata[t].accountType == t)
  }

  lemma {:induction false} WrittenConcat(s: Store, a: seq<Put>, b: seq<Put>)
    ensures WrittenAll(s, a + b) == WrittenAll(WrittenAll(s, a), b)
  {
    if b == [] {
      assert a + b == a;
    } else {
      assert (a + b)[..|a + b| - 1] == a + b[..|b| - 1];
      WrittenConcat(s, a, b[..|b| - 1]);
    }
  }

  lemma WrittenLast(s: Store, ps: seq<Put>, p: Put)
    ensures WrittenAll(s, ps + [p]) == Written(WrittenAll(s, ps), p)
  {
    assert (ps + [p])[..|ps|] == ps;
  }

  lemma {:induction false} LinePutsMirror(s: Store, b: Books, lines: seq<Line>, m: map<U64, Account>)
    requires Filed(b) && s.accounts == b.accounts && BookLines(b.accounts, lines) == Some(m)
    ensures WrittenAll(s, LinePuts(b.accounts, lines)) == s.(accounts := m) && Filed(b.(accounts := m))
    decreases lines
  {
    if lines != [] {
      var n := |lines| - 1;
      var before := BookLines(b.accounts, lines[..n]).value;
      LinePutsMirror(s, b, lines[..n], before);
      var puts := LinePuts(b.accounts, lines[..n]);
      assert LinePuts(b.accounts, lines) == puts + [PutAccount(m[lines[n].code])];
      assert (puts + [PutAccount(m[lines[n].code])])[..|puts|] == puts;
    }
  }

  lemma PutsMirror(s: Store, b: Books, e: Event, b': Books)
    requires Filed(b) && s.accounts == b.accounts && s.metadata == b.metadata && Apply(b, e) == Some(b')
    ensures var s' := WrittenAll(s, Puts(b, e));
            && s'.accounts == b'.accounts && s'.metadata == b'.metadata && s'.lastApplied == s.lastApplied
            && s'.done == (if e.EntryRecorded? then s.done[e.entry.id := e.entry.validTime] else s.done)
    ensures Filed(b')
  {
    match e
    case EntryRecorded(j) =>
      var p := PutDone(j.id, j.validTime);
      WrittenConcat(s, [p], LinePuts(b.accounts, j.lines));
      assert [p][..0] == [];
      assert WrittenAll(s, [p]) == Written(s, p);
      LinePutsMirror(Written(s, p), b, j.lines, b'.accounts);
    case MetadataConfigured(m) =>
      assert [PutMetadata(m)][..0] == [];
    case AccountCreated(a) =>
      assert [PutAccount(a)][..0] == [];
  }

  /** Every id remembered in memory is in the store, with its time. */
  ghost predicate Remembered(done: map<string, U64>, stored: map<string, U64>) {
    forall id :: id in done ==> id in stored && stored[id] == done[id]
  }

  /** The store has the accounts and metadata in memory. */
  ghost predicate Mirrored(b: Books, s: Store) {
    Filed(b) && s.accounts == b.accounts && s.metadata == b.metadata && Remembered(b.done, s.done)
  }

  /** It has once the batch is written. */
  ghost predicate Mirrors(m: Machine) {
    Mirrored(m.books, WrittenAll(m.store, m.batch))
  }

  lemma AppliedMirrors(m: Machine, e: Event, m': Machine)
    requires Mirrors(m) && Applied(m, e) == Some(m')
    ensures Mirrors(m')
  {
    WrittenConcat(m.store, m.batch, Puts(m.books, e));
    PutsMirror(WrittenAll(m.store, m.batch), m.books, e, m'.books);
  }

  /** A flush is due from the 500th index after the last one on. */
  lemma CommittedKeepsUp(m: Machine, index: nat, m': Machine)
    requires m' == Committed(m, index)
    ensures var w := WrittenAll(m.store, m.batch).(lastApplied := index);
            && m'.books == m.books && WrittenAll(m'.store, m'.batch) == w
            && if (index - m.lastFlushed) % TWO_64 >= 500 then m'.batch == [] && m'.lastFlushed == index && m'.store == w
               else m'.store == m.store && m'.lastFlushed == m.lastFlushed && m'.batch == m.batch + [PutIndex(index)]
  {
    WrittenLast(m.store, m.batch, PutIndex(index));
  }

  // ---------------------------------------------------------------- the object

  class DurableMachine {
    var accounts: map<U64, Account>
    var metadata: map<AccountType, Metadata>
    var done: map<string, U64>
    var store: Store
    var writeBatch: seq<Put>
    var lastFlushedIndex: nat

    function View(): Machine
      reads this
    {
      Machine(Books(accounts, metadata, done), store, writeBatch, lastFlushedIndex)
    }

    /** Opens the store as a crash or a shutdown has left it. */
    constructor (store: Store)
      ensures View() == Recovered(Machine(EMPTY, store, [], 0))
      ensures this.store == store && writeBatch == [] && lastFlushedIndex == store.lastApplied
      ensures accounts == store.accounts && metadata == store.metadata && done == map[]
    {
      this.store, writeBatch := store, [];
      accounts, metadata, done, lastFlushedIndex := store.accounts, store.metadata, map[], store.lastApplied;
    }

    method FlushToStore()
      modifies this`store, this`writeBatch
      ensures View() == Flushed(old(View()))
      ensures writeBatch == [] && (old(Mirrors(View())) ==> Mirrored(View().books, store))
    {
      var s := store;
      var i := 0;
      while i < |writeBatch|
        invariant 0 <= i <= |writeBatch| && s == WrittenAll(store, writeBatch[..i])
        modifies {}
      {
        assert writeBatch[..i + 1][..i] == writeBatch[..i];
        s := Written(s, writeBatch[i]);
        i := i + 1;
      }
      assert writeBatch[..i] == writeBatch;
      store := s;
      writeBatch := [];
    }

    method Commit(appliedIndex: nat)
      modifies this
      ensures View() == Committed(old(View()), appliedIndex)
      ensures accounts == old(accounts) && metadata == old(metadata) && done == old(done)
      ensures if (appliedIndex - old(lastFlushedIndex)) % TWO_64 >= 500 then
                && writeBatch == [] && lastFlushedIndex == store.lastApplied == appliedIndex
                && (old(Mirrors(View())) ==> Mirrored(View().books, store))
              else
                && store == old(store) && lastFlushedIndex == old(lastFlushedIndex)
                && writeBatch == old(writeBatch) + [PutIndex(appliedIndex)] && (old(Mirrors(View())) ==> Mirrors(View()))
    {
      CommittedKeepsUp(View(), appliedIndex, Committed(View(), appliedIndex));
      writeBatch := writeBatch + [PutIndex(appliedIndex)];
      if (appliedIndex - lastFlushedIndex) % TWO_64 < MAX_BATCH {
        return;
      }
      FlushToStore();
      lastFlushedIndex := appliedIndex;
    }

    /** Applying an entry books line by line, and every callback adds to the batch. */
    method ApplyEntry(j: JournalEntry) returns (aborted: bool)
      modifies this
      ensures aborted <==> Applied(old(View()), EntryRecorded(j)).None?
      ensures !aborted ==> Applied(old(View()), EntryRecorded(j)) == Some(View())
      ensures !aborted ==>
                && done == old(done)[j.id := j.validTime] && metadata == old(metadata)
                && EntryMoves(old(accounts), j.lines, accounts)
    {
      if j.id in done {
        return true;
      }
      done := done[j.id := j.validTime];
      writeBatch := writeBatch + [PutDone(j.id, j.validTime)];
      ghost var accounts0, batch0 := accounts, writeBatch;
      var i := 0;
      while i < |j.lines|
        invariant 0 <= i <= |j.lines| && BookLines(accounts0, j.lines[..i]) == Some(accounts)
        invariant writeBatch == batch0 + LinePuts(accounts0, j.lines[..i])
        modifies this`accounts, this`writeBatch
      {
        var l := j.lines[i];
        NextLine(accounts0, j.lines, i, accounts);
        if l.code !in accounts || l.side.UnknownSide? || accounts[l.code].accountType.UnknownType? {
          LedgerMachine.StaysNone(accounts0, j.lines, i + 1);
          return true;
        }
        var a := Booked(accounts[l.code], l.side, l.amount).value;
        accounts := accounts[l.code := a];
        Regroup(batch0, LinePuts(accounts0, j.lines[..i]), [PutAccount(a)]);
        writeBatch := writeBatch + [PutAccount(a)];
        i := i + 1;
      }
      assert j.lines[..i] == j.lines;
      Regroup(old(writeBatch), [PutDone(j.id, j.validTime)], LinePuts(accounts0, j.lines));
      LinesMove(accounts0, j.lines, accounts);
      return false;
    }

    method ApplyEvent(e: Event) returns (aborted: bool)
      modifies this
      ensures aborted <==> Applied(old(View()), e).None?
      ensures !aborted ==> Applied(old(View()), e) == Some(View())
      ensures !aborted && old(Mirrors(View())) ==> Mirrors(View())
      ensures e.MetadataConfigured? ==>
                !aborted && metadata == old(metadata)[e.metadata.accountType := e.metadata] && accounts == old(accounts) && done == old(done)
      ensures e.AccountCreated? ==>
                && (aborted <==> e.account.code in old(accounts))
                && (!aborted ==> accounts == old(accounts)[e.account.code := e.account] && metadata == old(metadata) && done == old(done))
      ensures e.EntryRecorded? && !aborted ==>
                && done == old(done)[e.entry.id := e.entry.validTime] && metadata == old(metadata)
                && EntryMoves(old(accounts), e.entry.lines, accounts)
    {
      aborted := ApplyOne(e);
      if !aborted && old(Mirrors(View())) {
        AppliedMirrors(old(View()), e, View());
      }
    }

    method ApplyOne(e: Event) returns (aborted: bool)
      modifies this
      ensures aborted <==> Applied(old(View()), e).None?
      ensures !aborted ==> Applied(old(View()), e) == Some(View())
      ensures e.EntryRecorded? && !aborted ==> EntryMoves(old(accounts), e.entry.lines, accounts)
    {
      aborted := false;
      match e
      case MetadataConfigured(m) =>
        metadata := metadata[m.accountType := m];
        writeBatch := writeBatch + [PutMetadata(m)];
      case AccountCreated(a) =>
        if a.code in accounts {
          return true;
        }
        accounts := accounts[a.code := a];
        writeBatch := writeBatch + [PutAccount(a)];
      case EntryRecorded(j) =>
        aborted := ApplyEntry(j);
    }

    /** recoverSelf() asserts that the batch is empty. */
    method RecoverSelf() returns (offset: nat)
      requires writeBatch == []
      modifies this
      ensures View() == Recovered(old(View())) && offset == lastFlushedIndex
      ensures accounts == store.accounts && metadata == store.metadata && done == map[] && store == old(store)
      ensures offset == store.lastApplied && writeBatch == []
    {
      accounts, metadata, done := store.accounts, store.metadata, map[];
      lastFlushedIndex := store.lastApplied;
      offset := lastFlushedIndex;
    }
  }
}
