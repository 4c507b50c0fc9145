/** What the ledger accepts and what accepted events do, as functions. */
module Ledger {
  import opened Common
  import opened LedgerTypes

  /** None: an assertion fails or the process exits. */
  type Outcome = Option<Verdict>

  datatype Verdict = Verdict(code: nat, events: seq<Event>)

  function Refuse(code: nat): Outcome {
    Some(Verdict(code, []))
  }

  function Accept(e: Event): Outcome {
    Some(Verdict(OK, [e]))
  }

  // ---------------------------------------------------------------- judging commands

  predicate Apart(a: Metadata, b: Metadata) {
    a.low > b.high || a.high < b.low
  }

  predicate OverlapsAnother(b: Books, m: Metadata) {
    exists t :: t in b.metadata && t != m.accountType && !Apart(m, b.metadata[t])
  }

  predicate LeavesAccountOut(b: Books, m: Metadata) {
    exists c :: c in b.accounts && b.accounts[c].accountType == m.accountType && (c < m.low || c > m.high)
  }

  function LineCode(accounts: map<U64, Account>, l: Line): nat {
    if l.code !in accounts then ACCOUNT_NOT_EXIST
    else if accounts[l.code].currency != l.currency then CURRENCY_MISMATCH
    else if l.side.UnknownSide? then INVALID_SIDE
    else OK
  }

  /** The first line that is not in order, or the number of lines. */
  function FirstBad(accounts: map<U64, Account>, lines: seq<Line>): (i: nat)
    ensures i <= |lines|
    ensures forall j :: 0 <= j < i ==> LineCode(accounts, lines[j]) == OK
    ensures i < |lines| ==> LineCode(accounts, lines[i]) != OK
  {
    if lines == [] || LineCode(accounts, lines[0]) != OK then 0 else 1 + FirstBad(accounts, lines[1..])
  }

  /** What the lines of one side add up to, over the integers. */
  function Total(lines: seq<Line>, side: Side): nat {
    if lines == [] then 0
    else
      var l := lines[|lines| - 1];
      Total(lines[..|lines| - 1], side) + if l.side == side then l.amount else 0
  }

  predicate HasSide(lines: seq<Line>, side: Side) {
    exists i :: 0 <= i < |lines| && lines[i].side == side
  }

  predicate Seen(b: Books, stored: set<string>, id: string) {
    id in b.done || id in stored
  }

  function JudgeEntry(b: Books, stored: set<string>, e: JournalEntry): nat {
    var i := FirstBad(b.accounts, e.lines);
    if Seen(b, stored, e.id) then ENTRY_ALREADY_PROCESSED
    else if i < |e.lines| then LineCode(b.accounts, e.lines[i])
    else if !HasSide(e.lines, Debit) then NO_DEBIT
    else if !HasSide(e.lines, Credit) then NO_CREDIT
    else if Total(e.lines, Debit) % TWO_64 != Total(e.lines, Credit) % TWO_64 then CREDIT_NOT_EQUAL_TO_DEBIT
    else OK
  }

  /** `stored` are the ids in the snapshot of the durable store that the leader looks at. */
  function Process(b: Books, stored: set<string>, c: Command): Outcome {
    match c
    case ConfigureMetadata(None) => Refuse(OK)
    case ConfigureMetadata(Some(m)) =>
      if OverlapsAnother(b, m) then Refuse(METADATA_RANGE_OVERLAP)
      else if LeavesAccountOut(b, m) then Refuse(METADATA_RANGE_NOT_COVER_EXISTING_ACCOUNT)
      else Accept(MetadataConfigured(m))
    case CreateAccount(None) => Refuse(BAD_REQUEST)
    case CreateAccount(Some(a)) =>
      if a.code in b.accounts then Refuse(ACCOUNT_ALREADY_EXISTS) else Accept(AccountCreated(a))
    case RecordJournalEntry(None) => None
    case RecordJournalEntry(Some(e)) =>
      if JudgeEntry(b, stored, e) == OK then Accept(EntryRecorded(e)) else Refuse(JudgeEntry(b, stored, e))
  }

  // ---------------------------------------------------------------- applying events

  predicate DebitNormal(t: AccountType) {
    t.Asset? || t.Capital? || t.CostOfGoodsSold? || t.Expense?
  }

  /** An account of unknown type makes the process exit. */
  function Booked(a: Account, side: Side, amount: U64): (r: Option<Account>)
    ensures r.None? <==> a.accountType == UnknownType || side == UnknownSide
    ensures a.accountType in {Asset, Capital, CostOfGoodsSold, Expense} ==>
              && (side == Debit ==> r == Some(a.(balance := (a.balance + amount) % TWO_64)))
              && (side == Credit ==> r == Some(a.(balance := (a.balance - amount) % TWO_64)))
    ensures a.accountType in {Liability, Income} ==>
              && (side == Debit ==> r == Some(a.(balance := (a.balance - amount) % TWO_64)))
              && (side == Credit ==> r == Some(a.(balance := (a.balance + amount) % TWO_64)))
  {
    if a.accountType.UnknownType? || side.UnknownSide? then None
    else if DebitNormal(a.accountType) == side.Debit? then Some(a.(balance := Add64(a.balance, amount)))
    else Some(a.(balance := Sub64(a.balance, amount)))
  }

  function BookLine(accounts: map<U64, Account>, l: Line): Option<map<U64, Account>> {
    if l.code !in accounts then None
    else
      match Booked(accounts[l.code], l.side, l.amount)
      case None => None
      case Some(a) => Some(accounts[l.code := a])
  }

  function BookLines(accounts: map<U64, Account>, lines: seq<Line>): Option<map<U64, Account>> {
    if lines == [] then Some(accounts)
    else
      match BookLines(accounts, lines[..|lines| - 1])
      case None => None
      case Some(m) => BookLine(m, lines[|lines| - 1])
  }

  function Apply(b: Books, e: Event): Option<Books> {
    match e
    case MetadataConfigured(m) => Some(b.(metadata := b.metadata[m.accountType := m]))
    case AccountCreated(a) => if a.code in b.accounts then None else Some(b.(accounts := b.accounts[a.code := a]))
    case EntryRecorded(j) =>
      if j.id in b.done then None
      else
        match BookLines(b.accounts, j.lines)
        case None => None
        case Some(m) => Some(b.(accounts := m, done := b.done[j.id := j.validTime]))
  }

  function ApplyAll(b: Books, es: seq<Event>): Option<Books> {
    if es == [] then Some(b)
    else
      match ApplyAll(b, es[..|es| - 1])
      case None => None
      case Some(b') => Apply(b', es[|es| - 1])
  }

  const EMPTY := Books(map[], map[], map[])

  // ---------------------------------------------------------------- what reached states have in common

  /** Every account is filed under its code and has a known type, every range under its type; the ranges
      of different types are apart. */
  ghost predicate Sound(b: Books) {
    && (forall c :: c in b.accounts ==> b.accounts[c].code == c && !b.accounts[c].accountType.UnknownType?)
    && (forall t :: t in b.metadata ==> b.metadata[t].accountType == t)
    && (forall t, u :: t in b.metadata && u in b.metadata && t != u ==> Apart(b.metadata[t], b.metadata[u]))
  }

  /** The command names a known type of account. */
  predicate Recognised(c: Command) {
    c.CreateAccount? && c.account.Some? ==> !c.account.value.accountType.UnknownType?
  }

  predicate InRange(m: Metadata, code: U64) {
    m.low <= code <= m.high
  }

  /** Unless one of the ranges is empty, they are apart exactly when no code lies in both. */
  lemma ApartIffDisjoint(a: Metadata, b: Metadata)
    requires a.low <= a.high && b.low <= b.high
    ensures Apart(a, b) <==> !exists code :: InRange(a, code) && InRange(b, code)
  {
    if !Apart(a, b) {
      var code: U64 := if a.low <= b.low then b.low else a.low;
      assert InRange(a, code) && InRange(b, code);
    }
  }

  /** Apart is as good as disjoint: no code lies in both ranges. */
  lemma ApartIsDisjoint(a: Metadata, b: Metadata, code: U64)
    requires Apart(a, b) && a.low <= code <= a.high
    ensures !(b.low <= code <= b.high)
  {
  }

  /** Booking lines changes balances, nothing else. */
  ghost predicate SameButBalances(a: map<U64, Account>, b: map<U64, Account>) {
    a.Keys == b.Keys && forall c :: c in a ==> b[c] == a[c].(balance := b[c].balance)
  }

  lemma {:induction false} LinesBook(b: Books, lines: seq<Line>)
    requires Sound(b) && forall i :: 0 <= i < |lines| ==> LineCode(b.accounts, lines[i]) == OK
    ensures BookLines(b.accounts, lines).Some? && SameButBalances(b.accounts, BookLines(b.accounts, lines).value)
  {
    if lines != [] {
      LinesBook(b, lines[..|lines| - 1]);
      assert LineCode(b.accounts, lines[|lines| - 1]) == OK;
    }
  }

  // ---------------------------------------------------------------- what an entry does to one account

  /** What the lines of one side add up to on one account, over the integers. */
  function TotalOn(lines: seq<Line>, code: U64, side: Side): nat {
    if lines == [] then 0
    else
      var l := lines[|lines| - 1];
      TotalOn(lines[..|lines| - 1], code, side) + if l.code == code && l.side == side then l.amount else 0
  }

  /** An account after an entry: it is moved by what was debited and credited to it in all, up or down by its
      type, whatever the order of the lines and however often it occurs in them. */
  ghost predicate MovedBy(a: Account, a': Account, debits: nat, credits: nat) {
    && a' == a.(balance := a'.balance)
    && a'.balance == match a.accountType
                     case Asset => (a.balance + debits - credits) % TWO_64
                     case Capital => (a.balance + debits - credits) % TWO_64
                     case CostOfGoodsSold => (a.balance + debits - credits) % TWO_64
                     case Expense => (a.balance + debits - credits) % TWO_64
                     case Liability => (a.balance + credits - debits) % TWO_64
                     case Income => (a.balance + credits - debits) % TWO_64
                     case UnknownType => a.balance
  }

  ghost predicate MovesAt(accounts: map<U64, Account>, lines: seq<Line>, m: map<U64, Account>, c: U64) {
    c in accounts && c in m && MovedBy(accounts[c], m[c], TotalOn(lines, c, Debit), TotalOn(lines, c, Credit))
  }

  ghost predicate EntryMoves(accounts: map<U64, Account>, lines: seq<Line>, m: map<U64, Account>) {
    m.Keys == accounts.Keys && forall c {:trigger MovesAt(accounts, lines, m, c)} :: c in m ==> MovesAt(accounts, lines, m, c)
  }

  lemma WrapsOnce(a: int, b: int)
    ensures (a % TWO_64 + b) % TWO_64 == (a + b) % TWO_64
  {
    var q := a / TWO_64;
    assert a == q * TWO_64 + a % TWO_64;
    assert (a % TWO_64 + b) + q * TWO_64 == a + b;
  }

  lemma LineMoves(a: Account, b: Account, b': Account, d: nat, c: nat, side: Side, amount: U64)
    requires MovedBy(a, b, d, c) && Booked(b, side, amount) == Some(b')
    ensures MovedBy(a, b', d + (if side == Debit then amount else 0), c + (if side == Credit then amount else 0))
  {
    WrapsOnce(a.balance + d - c, amount);
    WrapsOnce(a.balance + d - c, -(amount as int));
    WrapsOnce(a.balance + c - d, amount);
    WrapsOnce(a.balance + c - d, -(amount as int));
  }

  lemma MovesOn(a: Account, before: map<U64, Account>, l: Line, m: map<U64, Account>, c: U64, d: nat, cr: nat)
    requires c in before && MovedBy(a, before[c], d, cr) && BookLine(before, l) == Some(m)
    ensures MovedBy(a, m[c], d + (if l.code == c && l.side == Debit then l.amount else 0),
                    cr + (if l.code == c && l.side == Credit then l.amount else 0))
  {
    if c == l.code {
      LineMoves(a, before[c], m[c], d, cr, l.side, l.amount);
    }
  }

  lemma NothingMoves(accounts: map<U64, Account>, c: U64)
    requires c in accounts
    ensures MovesAt(accounts, [], accounts, c)
  {
  }

  lemma NextMoves(accounts: map<U64, Account>, lines: seq<Line>, before: map<U64, Account>, m: map<U64, Account>, c: U64)
    requires lines != [] && BookLine(before, lines[|lines| - 1]) == Some(m)
    requires MovesAt(accounts, lines[..|lines| - 1], before, c)
    ensures MovesAt(accounts, lines, m, c)
  {
    var n := |lines| - 1;
    MovesOn(accounts[c], before, lines[n], m, c, TotalOn(lines[..n], c, Debit), TotalOn(lines[..n], c, Credit));
  }

  lemma {:induction false} LinesMove(accounts: map<U64, Account>, lines: seq<Line>, m: map<U64, Account>)
    requires BookLines(accounts, lines) == Some(m)
    ensures EntryMoves(accounts, lines, m)
    decreases lines
  {
    if lines == [] {
      forall c | c in m ensures MovesAt(accounts, lines, m, c) {
        NothingMoves(accounts, c);
      }
    } else {
      var n := |lines| - 1;
      var before := BookLines(accounts, lines[..n]).value;
      LinesMove(accounts, lines[..n], before);
      forall c | c in m ensures MovesAt(accounts, lines, m, c) {
        assert MovesAt(accounts, lines[..n], before, c);
        NextMoves(accounts, lines, before, m, c);
      }
    }
  }

  /** An accepted command can be applied: no assertion fails, no account is missing, no unknown type makes
      the process exit; and the state stays sound. */
  lemma AcceptedIsApplicable(b: Books, stored: set<string>, c: Command)
    requires Sound(b) && Recognised(c) && Process(b, stored, c).Some?
    ensures var es := Process(b, stored, c).value.events;
            |es| <= 1 && ApplyAll(b, es).Some? && Sound(ApplyAll(b, es).value)
  {
    var es := Process(b, stored, c).value.events;
    if es != [] {
      assert es[..0] == [];
      assert ApplyAll(b, es) == Apply(b, es[0]);
      if es[0].EntryRecorded? {
        LinesBook(b, es[0].entry.lines);
      }
    }
  }

  /** processCommandAndApply(): None if an assertion fails or the process exits. */
  function Execute(b: Books, stored: set<string>, c: Command): Option<Books> {
    match Process(b, stored, c)
    case None => None
    case Some(v) => ApplyAll(b, v.events)
  }

  function ExecuteAll(b: Books, stored: set<string>, cs: seq<Command>): Option<Books> {
    if cs == [] then Some(b)
    else
      match ExecuteAll(b, stored, cs[..|cs| - 1])
      case None => None
      case Some(b') => Execute(b', stored, cs[|cs| - 1])
  }

  /** What a request must have passed before it gets here. */
  predicate Verified(c: Command) {
    Recognised(c) && (c.RecordJournalEntry? ==> c.entry.Some?)
  }

  /** In every state reached through validation, whatever the commands, nothing fails and the ranges of
      different types are disjoint. */
  lemma {:induction false} ReachedIsSound(stored: set<string>, cs: seq<Command>)
    requires forall i {:trigger cs[i]} :: 0 <= i < |cs| ==> Verified(cs[i])
    ensures ExecuteAll(EMPTY, stored, cs).Some? && Sound(ExecuteAll(EMPTY, stored, cs).value)
  {
    if cs != [] {
      ReachedIsSound(stored, cs[..|cs| - 1]);
      var b, c := ExecuteAll(EMPTY, stored, cs[..|cs| - 1]).value, cs[|cs| - 1];
      assert Verified(c);
      assert Process(b, stored, c).Some?;
      AcceptedIsApplicable(b, stored, c);
    }
  }

  // ---------------------------------------------------------------- ranges and accounts

  /** The account lies within the range configured for its type. */
  predicate Covered(b: Books, code: U64) {
    && code in b.accounts && b.accounts[code].accountType in b.metadata
    && InRange(b.metadata[b.accounts[code].accountType], code)
  }

  /** A configuration that is accepted is apart from the ranges of all other types and covers every account of
      its type. */
  lemma ConfiguredCovers(b: Books, stored: set<string>, m: Metadata, code: U64, t: AccountType)
    requires Process(b, stored, ConfigureMetadata(Some(m))).Some?
    requires Process(b, stored, ConfigureMetadata(Some(m))).value.events != []
    ensures var b' := Execute(b, stored, ConfigureMetadata(Some(m)));
            && b' == Some(b.(metadata := b.metadata[m.accountType := m]))
            && (code in b.accounts && b.accounts[code].accountType == m.accountType ==> InRange(m, code) && Covered(b'.value, code))
            && (t in b.metadata && t != m.accountType && InRange(m, code) ==> !InRange(b.metadata[t], code))
  {
    assert ApplyAll(b, [MetadataConfigured(m)][..0]) == Some(b);
    assert code in b.accounts && b.accounts[code].accountType == m.accountType ==> InRange(m, code);
    if t in b.metadata && t != m.accountType && InRange(m, code) {
      assert Apart(m, b.metadata[t]);
    }
  }

  lemma StepCovers(b: Books, stored: set<string>, c: Command, b': Books, code: U64)
    requires Execute(b, stored, c) == Some(b') && Covered(b, code)
    ensures Covered(b', code)
  {
    var es := Process(b, stored, c).value.events;
    if es != [] {
      assert es[..0] == [];
      assert ApplyAll(b, es) == Apply(b, es[0]);
      if es[0].EntryRecorded? {
        LinesMove(b.accounts, es[0].entry.lines, b'.accounts);
        assert MovesAt(b.accounts, es[0].entry.lines, b'.accounts, code);
      }
    }
  }

  /** Once within the range of its type, an account stays there, whatever is configured later. So an account
      outside was created after the last configuration of its type. */
  lemma {:induction false} CoveredStays(stored: set<string>, cs: seq<Command>, i: nat, code: U64)
    requires i <= |cs| && ExecuteAll(EMPTY, stored, cs).Some? && ExecuteAll(EMPTY, stored, cs[..i]).Some?
    requires Covered(ExecuteAll(EMPTY, stored, cs[..i]).value, code)
    ensures Covered(ExecuteAll(EMPTY, stored, cs).value, code)
    decreases |cs|
  {
    if i == |cs| {
      assert cs[..i] == cs;
    } else {
      var n := |cs| - 1;
      assert cs[..n][..i] == cs[..i];
      CoveredStays(stored, cs[..n], i, code);
      StepCovers(ExecuteAll(EMPTY, stored, cs[..n]).value, stored, cs[n], ExecuteAll(EMPTY, stored, cs).value, code);
    }
  }
}
