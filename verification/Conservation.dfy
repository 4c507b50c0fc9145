/** Double entry: debit-normal balances minus credit-normal balances stay what the accounts were opened
    with. Sums and balances wrap at 64 bits, so they do modulo 2^64; over the integers they are off by 2^64
    for every sum and every balance that wraps, and this module counts them. */
module Conservation {
  import opened Common
  import opened LedgerTypes
  import opened Ledger

  /** Assets, capital, cost of goods sold and expenses count up, liabilities and income down. */
  function Signed(a: Account): int {
    match a.accountType
    case Asset => a.balance
    case Capital => a.balance
    case CostOfGoodsSold => a.balance
    case Expense => a.balance
    case Liability => -(a.balance as int)
    case Income => -(a.balance as int)
    case UnknownType => 0
  }

  ghost function NetOver(accounts: map<U64, Account>, codes: set<U64>): int
    requires codes <= accounts.Keys
    decreases |codes|
  {
    if codes == {} then 0
    else
      var c :| c in codes;
      Signed(accounts[c]) + NetOver(accounts, codes - {c})
  }

  /** Debit-normal balances minus credit-normal balances. */
  ghost function Net(accounts: map<U64, Account>): int {
    NetOver(accounts, accounts.Keys)
  }

  /** The sum does not depend on the order in which it is taken. */
  lemma {:induction false} NetTake(accounts: map<U64, Account>, codes: set<U64>, x: U64)
    requires codes <= accounts.Keys && x in codes
    ensures NetOver(accounts, codes) == Signed(accounts[x]) + NetOver(accounts, codes - {x})
    decreases |codes|
  {
    var c :| c in codes && NetOver(accounts, codes) == Signed(accounts[c]) + NetOver(accounts, codes - {c});
    if c != x {
      NetTake(accounts, codes - {c}, x);
      NetTake(accounts, codes - {x}, c);
      assert codes - {c} - {x} == codes - {x} - {c};
    }
  }

  lemma {:induction false} NetSame(a: map<U64, Account>, b: map<U64, Account>, codes: set<U64>)
    requires codes <= a.Keys && codes <= b.Keys && forall c :: c in codes ==> a[c] == b[c]
    ensures NetOver(a, codes) == NetOver(b, codes)
    decreases |codes|
  {
    if codes != {} {
      var c :| c in codes;
      NetTake(a, codes, c);
      NetTake(b, codes, c);
      NetSame(a, b, codes - {c});
    }
  }

  lemma NetUpdate(accounts: map<U64, Account>, c: U64, a: Account)
    ensures Net(accounts[c := a]) == Net(accounts) + Signed(a) - if c in accounts then Signed(accounts[c]) else 0
  {
    var m, rest := accounts[c := a], accounts.Keys - {c};
    assert m.Keys == rest + {c} && m.Keys - {c} == rest;
    NetTake(m, m.Keys, c);
    NetSame(m, accounts, rest);
    if c in accounts {
      NetTake(accounts, accounts.Keys, c);
    } else {
      assert accounts.Keys == rest;
    }
  }

  // ---------------------------------------------------------------- one entry

  function Effect(l: Line): int {
    if l.side.Debit? then l.amount as int else if l.side.Credit? then -(l.amount as int) else 0
  }

  /** Whether booking a line stays within 64 bits. */
  predicate LineFits(accounts: map<U64, Account>, l: Line) {
    l.code in accounts ==>
      if (accounts[l.code].accountType in {Liability, Income}) == l.side.Credit?
      then accounts[l.code].balance + l.amount < TWO_64
      else l.amount <= accounts[l.code].balance
  }

  /** What the net gains, in units of 2^64, when the balance a line is booked on wraps. */
  function Carry(accounts: map<U64, Account>, l: Line): (c: int)
    ensures -1 <= c <= 1
  {
    if LineFits(accounts, l) then 0 else if l.side.Debit? then -1 else 1
  }

  function Carries(accounts: map<U64, Account>, lines: seq<Line>): int {
    if lines == [] then 0
    else
      var before := lines[..|lines| - 1];
      Carries(accounts, before)
      + match BookLines(accounts, before)
        case None => 0
        case Some(m) => Carry(m, lines[|lines| - 1])
  }

  lemma BookLineNet(accounts: map<U64, Account>, l: Line, m: map<U64, Account>)
    requires BookLine(accounts, l) == Some(m)
    ensures Net(m) == Net(accounts) + Effect(l) + TWO_64 * Carry(accounts, l)
  {
    NetUpdate(accounts, l.code, m[l.code]);
  }

  /** Booking lines, repeated accounts or not, moves the net by debits minus credits and by the carries. */
  lemma {:induction false} BookLinesNet(accounts: map<U64, Account>, lines: seq<Line>, m: map<U64, Account>)
    requires BookLines(accounts, lines) == Some(m)
    ensures Net(m) == Net(accounts) + Total(lines, Debit) - Total(lines, Credit) + TWO_64 * Carries(accounts, lines)
    decreases lines
  {
    if lines != [] {
      var n := |lines| - 1;
      var before := BookLines(accounts, lines[..n]).value;
      BookLinesNet(accounts, lines[..n], before);
      BookLineNet(before, lines[n], m);
    }
  }

  // ---------------------------------------------------------------- whole runs

  /** What an accepted command adds: an account with its opening balance, or nothing. */
  function Opening(v: Outcome): int {
    if v.Some? && |v.value.events| == 1 && v.value.events[0].AccountCreated? then Signed(v.value.events[0].account) else 0
  }

  /** The signed sum of the opening balances of the accounts created. */
  function Opened(b: Books, stored: set<string>, cs: seq<Command>): int {
    if cs == [] then 0
    else
      var before := cs[..|cs| - 1];
      Opened(b, stored, before)
      + match ExecuteAll(b, stored, before)
        case None => 0
        case Some(b') => Opening(Process(b', stored, cs[|cs| - 1]))
  }

  /** How often the two sums of an accepted entry wrap apart, and the balances it touches with them. */
  function Drift(b: Books, v: Outcome): int {
    if v.Some? && |v.value.events| == 1 && v.value.events[0].EntryRecorded?
    then
      var lines := v.value.events[0].entry.lines;
      Total(lines, Debit) / TWO_64 - Total(lines, Credit) / TWO_64 + Carries(b.accounts, lines)
    else 0
  }

  function Drifts(b: Books, stored: set<string>, cs: seq<Command>): int {
    if cs == [] then 0
    else
      var before := cs[..|cs| - 1];
      Drifts(b, stored, before)
      + match ExecuteAll(b, stored, before)
        case None => 0
        case Some(b') => Drift(b', Process(b', stored, cs[|cs| - 1]))
  }

  lemma EqualTotals(d: nat, c: nat)
    requires d % TWO_64 == c % TWO_64
    ensures d - c == TWO_64 * (d / TWO_64 - c / TWO_64)
  {
  }

  lemma ExecuteNet(b: Books, stored: set<string>, c: Command, b': Books, v: Outcome)
    requires v == Process(b, stored, c) && Execute(b, stored, c) == Some(b')
    ensures Net(b'.accounts) == Net(b.accounts) + Opening(v) + TWO_64 * Drift(b, v)
  {
    var es := v.value.events;
    if es != [] {
      assert es[..0] == [];
      assert ApplyAll(b, es) == Apply(b, es[0]);
      match es[0]
      case AccountCreated(a) => NetUpdate(b.accounts, a.code, a);
      case EntryRecorded(j) =>
        EqualTotals(Total(j.lines, Debit), Total(j.lines, Credit));
        BookLinesNet(b.accounts, j.lines, b'.accounts);
      case MetadataConfigured(_) =>
    }
  }

  /** Conservation over every run of commands: the net is the signed sum of what the accounts were opened
      with, and 2^64 times the drift on top. So it is that sum exactly when the drifts cancel. */
  lemma {:induction false} NetIsExact(stored: set<string>, cs: seq<Command>, b: Books)
    requires ExecuteAll(EMPTY, stored, cs) == Some(b)
    ensures Net(b.accounts) == Opened(EMPTY, stored, cs) + TWO_64 * Drifts(EMPTY, stored, cs)
    ensures Net(b.accounts) == Opened(EMPTY, stored, cs) <==> Drifts(EMPTY, stored, cs) == 0
    decreases cs
  {
    if cs != [] {
      var before, c := cs[..|cs| - 1], cs[|cs| - 1];
      var p := ExecuteAll(EMPTY, stored, before).value;
      NetIsExact(stored, before, p);
      ExecuteNet(p, stored, c, b, Process(p, stored, c));
    }
  }

  /** And modulo 2^64 always. */
  lemma NetIsConserved(stored: set<string>, cs: seq<Command>, b: Books)
    requires ExecuteAll(EMPTY, stored, cs) == Some(b)
    ensures (Net(b.accounts) - Opened(EMPTY, stored, cs)) % TWO_64 == 0
  {
    NetIsExact(stored, cs, b);
    MultipleOf(Drifts(EMPTY, stored, cs));
  }

  lemma MultipleOf(k: int)
    ensures (TWO_64 * k) % TWO_64 == 0
  {
  }

  // ---------------------------------------------------------------- when nothing drifts, and when something does

  /** Every line of an entry books within 64 bits. */
  ghost predicate LinesFit(accounts: map<U64, Account>, lines: seq<Line>) {
    forall i: nat {:trigger LineFitsAt(accounts, lines, i)} :: i < |lines| ==> LineFitsAt(accounts, lines, i)
  }

  predicate LineFitsAt(accounts: map<U64, Account>, lines: seq<Line>, i: nat) {
    && i < |lines| && BookLines(accounts, lines[..i]).Some?
    && LineFits(BookLines(accounts, lines[..i]).value, lines[i])
  }

  /** An entry neither of whose sums nor any of whose balances wraps does not drift. */
  lemma {:induction false} FittingDoesNotCarry(accounts: map<U64, Account>, lines: seq<Line>)
    requires LinesFit(accounts, lines)
    ensures Carries(accounts, lines) == 0
  {
    if lines != [] {
      var n := |lines| - 1;
      forall i: nat | i < n ensures LineFitsAt(accounts, lines[..n], i) {
        assert LineFitsAt(accounts, lines, i);
        assert lines[..n][..i] == lines[..i] && lines[..n][i] == lines[i];
      }
      FittingDoesNotCarry(accounts, lines[..n]);
      assert LineFitsAt(accounts, lines, n);
    }
  }

  const HALF: U64 := 0x8000_0000_0000_0000

  function EmptyAsset(code: U64): Account {
    Account(Asset, code, "", "", 0, 0)
  }

  /** Two halves of 2^64 on the debit side, nothing on the credit side: the sums agree modulo 2^64. */
  const FROM_NOTHING := JournalEntry("a", 0, 0, "",
    [Line(1, Debit, HALF, 0, ""), Line(2, Debit, HALF, 0, ""), Line(1, Credit, 0, 0, "")])

  const DRIFTING := [
    CreateAccount(Some(EmptyAsset(1))), CreateAccount(Some(EmptyAsset(2))), RecordJournalEntry(Some(FROM_NOTHING))]

  lemma FromNothingTotals()
    ensures Total(FROM_NOTHING.lines, Debit) == TWO_64 && Total(FROM_NOTHING.lines, Credit) == 0
  {
    var l := FROM_NOTHING.lines;
    assert l[..2][..1] == l[..1] && l[..1][..0] == [];
    assert Total(l[..1], Debit) == HALF && Total(l[..1], Credit) == 0;
    assert Total(l[..2], Debit) == TWO_64 && Total(l[..2], Credit) == 0;
  }

  const TWO_ASSETS := Books(map[1 := EmptyAsset(1), 2 := EmptyAsset(2)], map[], map[])

  lemma AssetsOpened()
    ensures ExecuteAll(EMPTY, {}, DRIFTING[..2]) == Some(TWO_ASSETS)
    ensures Opened(EMPTY, {}, DRIFTING[..2]) == Drifts(EMPTY, {}, DRIFTING[..2]) == 0
  {
    var cs, one := DRIFTING, Books(map[1 := EmptyAsset(1)], map[], map[]);
    assert cs[..2][..1] == cs[..1] && cs[..1][..0] == [];
    Applies(EMPTY, AccountCreated(EmptyAsset(1)));
    assert Execute(EMPTY, {}, cs[0]) == Some(one);
    assert ExecuteAll(EMPTY, {}, cs[..1]) == Some(one);
    assert Opened(EMPTY, {}, cs[..1]) == Drifts(EMPTY, {}, cs[..1]) == 0;
    Applies(one, AccountCreated(EmptyAsset(2)));
    assert Execute(one, {}, cs[1]) == Some(TWO_ASSETS);
  }

  lemma Applies(b: Books, e: Event)
    ensures ApplyAll(b, [e]) == Apply(b, e)
  {
    assert [e][..0] == [];
  }

  /** The balances end at half of 2^64 each, and no booking wraps. */
  lemma FromNothingBooks()
    ensures BookLines(TWO_ASSETS.accounts, FROM_NOTHING.lines).Some? && Carries(TWO_ASSETS.accounts, FROM_NOTHING.lines) == 0
  {
    var l, m := FROM_NOTHING.lines, TWO_ASSETS.accounts;
    assert l[..2][..1] == l[..1] && l[..1][..0] == [];
    var m1 := m[1 := EmptyAsset(1).(balance := HALF)];
    assert BookLines(m, l[..1]) == Some(m1) && Carries(m, l[..1]) == 0;
    var m2 := m1[2 := EmptyAsset(2).(balance := HALF)];
    assert BookLines(m, l[..2]) == Some(m2) && Carries(m, l[..2]) == 0;
  }

  lemma FromNothingAccepted()
    ensures Process(TWO_ASSETS, {}, RecordJournalEntry(Some(FROM_NOTHING))) == Accept(EntryRecorded(FROM_NOTHING))
  {
    var l := FROM_NOTHING.lines;
    FromNothingTotals();
    assert l[0].side == Debit && l[2].side == Credit;
    assert forall i :: 0 <= i < 3 ==> LineCode(TWO_ASSETS.accounts, l[i]) == OK;
  }

  /** For instance: from empty accounts, an accepted entry leaves a net of 2^64. */
  lemma NetFromNothing(b: Option<Books>)
    requires b == ExecuteAll(EMPTY, {}, DRIFTING)
    ensures b.Some? && Opened(EMPTY, {}, DRIFTING) == 0 && Net(b.value.accounts) == TWO_64
  {
    AssetsOpened();
    FromNothingAccepted();
    FromNothingBooks();
    FromNothingTotals();
    Applies(TWO_ASSETS, EntryRecorded(FROM_NOTHING));
    NetIsExact({}, DRIFTING, b.value);
  }
}
