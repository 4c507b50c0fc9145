/** The ledger's state machine as the object it is: validation by loops over the maps and the lines,
    application by changing the maps. */
module LedgerMachine {
  import opened Common
  import opened LedgerTypes
  import opened Ledger

  lemma {:induction false} FirstBadIs(accounts: map<U64, Account>, lines: seq<Line>, i: nat)
    requires i <= |lines| && forall j :: 0 <= j < i ==> LineCode(accounts, lines[j]) == OK
    requires i < |lines| ==> LineCode(accounts, lines[i]) != OK
    ensures FirstBad(accounts, lines) == i
  {
    if i > 0 {
      assert i < |lines| ==> lines[1..][i - 1] == lines[i];
      FirstBadIs(accounts, lines[1..], i - 1);
    }
  }

  lemma AddWraps(a: nat, b: U64)
    ensures Add64(a % TWO_64, b) == (a + b) % TWO_64
  {
  }

  /** A line that cannot be booked: no such account, another currency, or neither debit nor credit. */
  predicate IsBad(accounts: map<U64, Account>, l: Line) {
    l.code !in accounts || accounts[l.code].currency != l.currency || l.side == UnknownSide
  }

  /** Booking the line fails an assertion or makes the process exit. */
  predicate CannotBook(accounts: map<U64, Account>, l: Line) {
    l.code !in accounts || l.side == UnknownSide || accounts[l.code].accountType == UnknownType
  }

  predicate IsFirstBad(accounts: map<U64, Account>, lines: seq<Line>, i: nat) {
    i < |lines| && IsBad(accounts, lines[i]) && forall j :: 0 <= j < i ==> !IsBad(accounts, lines[j])
  }

  /** The code for the lines of an entry: that of the first bad line, and without one that of the entry. */
  ghost predicate JudgedAs(accounts: map<U64, Account>, lines: seq<Line>, code: nat) {
    && (forall i: nat {:trigger IsFirstBad(accounts, lines, i)} :: IsFirstBad(accounts, lines, i) ==>
          code == if lines[i].code !in accounts then 1004
                  else if accounts[lines[i].code].currency != lines[i].currency then 1009 else 1008)
    && ((forall i {:trigger lines[i]} :: 0 <= i < |lines| ==> !IsBad(accounts, lines[i])) ==>
          code == if forall i {:trigger lines[i]} :: 0 <= i < |lines| ==> lines[i].side != Debit then 1005
                  else if forall i {:trigger lines[i]} :: 0 <= i < |lines| ==> lines[i].side != Credit then 1006
                  else if Total(lines, Debit) % TWO_64 != Total(lines, Credit) % TWO_64 then 1007
                  else 200)
  }

  lemma JudgedIs(accounts: map<U64, Account>, lines: seq<Line>, code: nat)
    requires var i := FirstBad(accounts, lines);
             code == if i < |lines| then LineCode(accounts, lines[i])
                     else if !HasSide(lines, Debit) then NO_DEBIT
                     else if !HasSide(lines, Credit) then NO_CREDIT
                     else if Total(lines, Debit) % TWO_64 != Total(lines, Credit) % TWO_64 then CREDIT_NOT_EQUAL_TO_DEBIT
                     else OK
    ensures JudgedAs(accounts, lines, code)
  {
    forall l: Line ensures LineCode(accounts, l) != OK <==> IsBad(accounts, l) {
    }
    forall i: nat | IsFirstBad(accounts, lines, i) ensures FirstBad(accounts, lines) == i {
      FirstBadIs(accounts, lines, i);
    }
  }

  class StateMachine {
    var accounts: map<U64, Account>
    var metadata: map<AccountType, Metadata>
    var done: map<string, U64>
    const stored: set<string>

    function View(): Books
      reads this
    {
      Books(accounts, metadata, done)
    }

    constructor (stored: set<string>)
      ensures View() == EMPTY && this.stored == stored
    {
      accounts, metadata, done := map[], map[], map[];
      this.stored := stored;
    }

    // -------------------------------------------------------------- validation

    method ProcessConfigure(c: Option<Metadata>) returns (code: nat, events: seq<Event>)
      ensures Process(View(), stored, ConfigureMetadata(c)) == Some(Verdict(code, events))
      ensures c.None? ==> code == 200 && events == []
      ensures c.Some? ==>
                if exists t :: t in metadata && t != c.value.accountType
                               && c.value.low <= metadata[t].high && metadata[t].low <= c.value.high
                then code == 1001 && events == []
                else if exists x :: x in accounts && accounts[x].accountType == c.value.accountType && !(c.value.low <= x <= c.value.high)
                then code == 1002 && events == []
                else code == 200 && events == [MetadataConfigured(c.value)]
      // for ranges that are not empty, the first of these is that some code lies in both
      ensures c.Some? && c.value.low <= c.value.high && (forall t :: t in metadata ==> metadata[t].low <= metadata[t].high) ==>
                (code == 1001 <==> exists t, x :: t in metadata && t != c.value.accountType && InRange(c.value, x) && InRange(metadata[t], x))
    {
      code, events := OK, [];
      if c.None? {
        return;
      }
      var m := c.value;
      forall t | t in metadata && m.low <= m.high && metadata[t].low <= metadata[t].high
        ensures Apart(m, metadata[t]) <==> !exists x :: InRange(m, x) && InRange(metadata[t], x)
      {
        ApartIffDisjoint(m, metadata[t]);
      }
      var types := metadata.Keys;
      while types != {}
        invariant types <= metadata.Keys
        invariant forall t :: t in metadata && t !in types && t != m.accountType ==> Apart(m, metadata[t])
        decreases types
      {
        var t :| t in types;
        if t != m.accountType && !(m.low > metadata[t].high || m.high < metadata[t].low) {
          return METADATA_RANGE_OVERLAP, [];
        }
        types := types - {t};
      }
      var codes := accounts.Keys;
      while codes != {}
        invariant codes <= accounts.Keys
        invariant forall x :: x in accounts && x !in codes && accounts[x].accountType == m.accountType ==> m.low <= x <= m.high
        decreases codes
      {
        var x :| x in codes;
        if m.accountType == accounts[x].accountType && (x < m.low || x > m.high) {
          return METADATA_RANGE_NOT_COVER_EXISTING_ACCOUNT, [];
        }
        codes := codes - {x};
      }
      events := [MetadataConfigured(m)];
    }

    method ProcessCreate(c: Option<Account>) returns (code: nat, events: seq<Event>)
      ensures Process(View(), stored, CreateAccount(c)) == Some(Verdict(code, events))
      ensures if c.None? then code == 400 && events == []
              else if c.value.code in accounts then code == 1000 && events == []
              else code == 200 && events == [AccountCreated(c.value)]
    {
      code, events := OK, [];
      if c.Some? {
        if c.value.code in accounts {
          code := ACCOUNT_ALREADY_EXISTS;
        } else {
          events := [AccountCreated(c.value)];
        }
      } else {
        code := BAD_REQUEST;
      }
    }

    /** The lines are checked and added up in one loop, with sums that wrap. */
    method CheckLines(lines: seq<Line>) returns (code: nat)
      ensures var i := FirstBad(accounts, lines);
              code == if i < |lines| then LineCode(accounts, lines[i])
                      else if !HasSide(lines, Debit) then NO_DEBIT
                      else if !HasSide(lines, Credit) then NO_CREDIT
                      else if Total(lines, Debit) % TWO_64 != Total(lines, Credit) % TWO_64 then CREDIT_NOT_EQUAL_TO_DEBIT
                      else OK
      ensures JudgedAs(accounts, lines, code)
    {
      code := AddUp(lines);
      JudgedIs(accounts, lines, code);
    }

    method AddUp(lines: seq<Line>) returns (code: nat)
      ensures var i := FirstBad(accounts, lines);
              code == if i < |lines| then LineCode(accounts, lines[i])
                      else if !HasSide(lines, Debit) then NO_DEBIT
                      else if !HasSide(lines, Credit) then NO_CREDIT
                      else if Total(lines, Debit) % TWO_64 != Total(lines, Credit) % TWO_64 then CREDIT_NOT_EQUAL_TO_DEBIT
                      else OK
    {
      var debits, credits := 0, 0;
      var debitSum: U64, creditSum: U64 := 0, 0;
      var i := 0;
      while i < |lines|
        invariant 0 <= i <= |lines|
        invariant forall j :: 0 <= j < i ==> LineCode(accounts, lines[j]) == OK
        invariant debits > 0 <==> HasSide(lines[..i], Debit)
        invariant credits > 0 <==> HasSide(lines[..i], Credit)
        invariant debits >= 0 && credits >= 0
        invariant debitSum == Total(lines[..i], Debit) % TWO_64 && creditSum == Total(lines[..i], Credit) % TWO_64
      {
        var l := lines[i];
        if l.code !in accounts || accounts[l.code].currency != l.currency || l.side.UnknownSide? {
          FirstBadIs(accounts, lines, i);
          return LineCode(accounts, l);
        }
        SideAdded(lines, i, Debit);
        SideAdded(lines, i, Credit);
        if l.side.Debit? {
          debits := debits + 1;
          debitSum := Add64(debitSum, l.amount);
        }
        if l.side.Credit? {
          credits := credits + 1;
          creditSum := Add64(creditSum, l.amount);
        }
        i := i + 1;
      }
      assert lines[..i] == lines;
      FirstBadIs(accounts, lines, i);
      code := if debits == 0 then NO_DEBIT else if credits == 0 then NO_CREDIT
              else if debitSum != creditSum then CREDIT_NOT_EQUAL_TO_DEBIT else OK;
    }

    method ProcessRecord(c: Option<JournalEntry>) returns (aborted: bool, code: nat, events: seq<Event>)
      ensures aborted <==> Process(View(), stored, RecordJournalEntry(c)).None?
      ensures !aborted ==> Process(View(), stored, RecordJournalEntry(c)) == Some(Verdict(code, events))
      ensures aborted <==> c.None?
      ensures c.Some? ==>
                if c.value.id in done || c.value.id in stored then code == 1003 && events == []
                else JudgedAs(accounts, c.value.lines, code) && events == if code == 200 then [EntryRecorded(c.value)] else []
    {
      if c.None? {
        return true, 0, [];
      }
      var e := c.value;
      aborted, events := false, [];
      if e.id in done || e.id in stored {
        code := ENTRY_ALREADY_PROCESSED;
        return;
      }
      code := CheckLines(e.lines);
      if code == OK {
        events := [EntryRecorded(e)];
      }
    }

    // -------------------------------------------------------------- application

    method ApplyEntry(j: JournalEntry) returns (aborted: bool)
      modifies this
      ensures aborted <==> Apply(old(View()), EntryRecorded(j)).None?
      ensures !aborted ==> Apply(old(View()), EntryRecorded(j)) == Some(View())
      ensures aborted <==>
                || j.id in old(done)
                || exists i :: 0 <= i < |j.lines| && CannotBook(old(accounts), j.lines[i])
      ensures !aborted ==>
                && done == old(done)[j.id := j.validTime] && metadata == old(metadata)
                && EntryMoves(old(accounts), j.lines, accounts)
    {
      if j.id in done {
        return true;
      }
      done := done[j.id := j.validTime];
      var i := 0;
      while i < |j.lines|
        invariant 0 <= i <= |j.lines| && BookLines(old(accounts), j.lines[..i]) == Some(accounts)
        invariant SameButBalances(old(accounts), accounts)
        invariant forall n :: 0 <= n < i ==> !CannotBook(old(accounts), j.lines[n])
        modifies this`accounts
      {
        var l := j.lines[i];
        assert j.lines[..i + 1][..i] == j.lines[..i];
        if l.code !in accounts || l.side.UnknownSide? || accounts[l.code].accountType.UnknownType? {
          StaysNone(old(accounts), j.lines, i + 1);
          return true;
        }
        accounts := accounts[l.code := Booked(accounts[l.code], l.side, l.amount).value];
        i := i + 1;
      }
      assert j.lines[..i] == j.lines;
      LinesMove(old(accounts), j.lines, accounts);
      return false;
    }

    method ApplyEvent(e: Event) returns (aborted: bool)
      modifies this
      ensures aborted <==> Apply(old(View()), e).None?
      ensures !aborted ==> Apply(old(View()), e) == Some(View())
      ensures e.MetadataConfigured? ==>
                !aborted && View() == old(View()).(metadata := old(metadata)[e.metadata.accountType := e.metadata])
      ensures e.AccountCreated? ==>
                && (aborted <==> e.account.code in old(accounts))
                && (!aborted ==> View() == old(View()).(accounts := old(accounts)[e.account.code := e.account]))
      ensures e.EntryRecorded? && !aborted ==>
                && done == old(done)[e.entry.id := e.entry.validTime] && metadata == old(metadata)
                && EntryMoves(old(accounts), e.entry.lines, accounts)
    {
      aborted := false;
      match e
      case MetadataConfigured(m) =>
        metadata := metadata[m.accountType := m];
      case AccountCreated(a) =>
        if a.code in accounts {
          return true;
        }
        accounts := accounts[a.code := a];
      case EntryRecorded(j) =>
        aborted := ApplyEntry(j);
    }

    method ProcessCommand(c: Command) returns (aborted: bool, code: nat, events: seq<Event>)
      ensures aborted <==> Process(View(), stored, c).None?
      ensures !aborted ==> Process(View(), stored, c) == Some(Verdict(code, events))
    {
      aborted := false;
      match c
      case ConfigureMetadata(m) => code, events := ProcessConfigure(m);
      case CreateAccount(a) => code, events := ProcessCreate(a);
      case RecordJournalEntry(e) => aborted, code, events := ProcessRecord(e);
    }

    /** Events are applied one after the other; with none the state is left alone. */
    method ProcessCommandAndApply(c: Command) returns (aborted: bool, code: nat, events: seq<Event>)
      modifies this
      ensures aborted <==> Execute(old(View()), stored, c).None?
      ensures !aborted ==> Execute(old(View()), stored, c) == Some(View())
      ensures !aborted ==> Process(old(View()), stored, c) == Some(Verdict(code, events))
    {
      aborted, code, events := ProcessCommand(c);
      if aborted || events == [] {
        return;
      }
      var i := 0;
      while i < |events|
        invariant 0 <= i <= |events| && !aborted && ApplyAll(old(View()), events[..i]) == Some(View())
      {
        assert events[..i + 1][..i] == events[..i];
        aborted := ApplyEvent(events[i]);
        if aborted {
          EventsStayNone(old(View()), events, i + 1);
          return;
        }
        i := i + 1;
      }
      assert events[..i] == events;
    }
  }

  /** One more line: whether a side occurs, and what it adds up to at 64 bits. */
  lemma SideAdded(lines: seq<Line>, i: nat, side: Side)
    requires i < |lines|
    ensures HasSide(lines[..i + 1], side) <==> HasSide(lines[..i], side) || lines[i].side == side
    ensures Total(lines[..i + 1], side) % TWO_64
            == if lines[i].side == side then Add64(Total(lines[..i], side) % TWO_64, lines[i].amount)
               else Total(lines[..i], side) % TWO_64
  {
    assert lines[..i + 1][..i] == lines[..i] && lines[..i + 1][i] == lines[i];
    AddWraps(Total(lines[..i], side), lines[i].amount);
    if HasSide(lines[..i], side) {
      var j :| 0 <= j < i && lines[..i][j].side == side;
      assert lines[..i + 1][j].side == side;
    }
    if lines[i].side == side {
      assert lines[..i + 1][i].side == side;
    }
    if HasSide(lines[..i + 1], side) && lines[i].side != side {
      var j :| 0 <= j < i + 1 && lines[..i + 1][j].side == side;
      assert lines[..i][j].side == side;
    }
  }

  lemma {:induction false} StaysNone(accounts: map<U64, Account>, lines: seq<Line>, i: nat)
    requires i <= |lines| && BookLines(accounts, lines[..i]).None?
    ensures BookLines(accounts, lines).None?
    decreases |lines| - i
  {
    if i < |lines| {
      assert lines[..i + 1][..i] == lines[..i];
      StaysNone(accounts, lines, i + 1);
    } else {
      assert lines[..i] == lines;
    }
  }

  lemma {:induction false} EventsStayNone(b: Books, es: seq<Event>, i: nat)
    requires i <= |es| && ApplyAll(b, es[..i]).None?
    ensures ApplyAll(b, es).None?
    decreases |es| - i
  {
    if i < |es| {
      assert es[..i + 1][..i] == es[..i];
      EventsStayNone(b, es, i + 1);
    } else {
      assert es[..i] == es;
    }
  }
}
