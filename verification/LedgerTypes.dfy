/** Accounts, journal entries, commands and events of the ledger. */
module LedgerTypes {
  import opened Common

  const TWO_64: int := 0x1_0000_0000_0000_0000

  /** A 64-bit unsigned number. */
  type U64 = x: int | 0 <= x < TWO_64

  /** Addition and subtraction as the machine does them. */
  function Add64(a: U64, b: U64): (r: U64)
    ensures r == a + b || r == a + b - TWO_64
  {
    (a + b) % TWO_64
  }

  function Sub64(a: U64, b: U64): (r: U64)
    ensures r == a - b || r == a - b + TWO_64
  {
    (a - b) % TWO_64
  }

  datatype AccountType = UnknownType | Asset | Liability | Capital | Income | CostOfGoodsSold | Expense

  datatype Side = UnknownSide | Debit | Credit

  datatype Account = Account(accountType: AccountType, code: U64, name: string, desc: string, currency: U64, balance: U64)

  /** The range of nominal codes meant for a type of account. */
  datatype Metadata = Metadata(accountType: AccountType, low: U64, high: U64)

  datatype Line = Line(code: U64, side: Side, amount: U64, currency: U64, refData: string)

  datatype JournalEntry = JournalEntry(id: string, validTime: U64, recordTime: U64, purpose: string, lines: seq<Line>)

  datatype Command =
    | ConfigureMetadata(metadata: Option<Metadata>)
    | CreateAccount(account: Option<Account>)
    | RecordJournalEntry(entry: Option<JournalEntry>)

  datatype Event =
    | MetadataConfigured(metadata: Metadata)
    | AccountCreated(account: Account)
    | EntryRecorded(entry: JournalEntry)

  /** The state in memory. */
  datatype Books = Books(
    accounts: map<U64, Account>,
    metadata: map<AccountType, Metadata>,
    done: map<string, U64>)

  const OK: nat := 200
  const BAD_REQUEST: nat := 400
  const ACCOUNT_ALREADY_EXISTS: nat := 1000
  const METADATA_RANGE_OVERLAP: nat := 1001
  const METADATA_RANGE_NOT_COVER_EXISTING_ACCOUNT: nat := 1002
  const ENTRY_ALREADY_PROCESSED: nat := 1003
  const ACCOUNT_NOT_EXIST: nat := 1004
  const NO_DEBIT: nat := 1005
  const NO_CREDIT: nat := 1006
  const CREDIT_NOT_EQUAL_TO_DEBIT: nat := 1007
  const INVALID_SIDE: nat := 1008
  const CURRENCY_MISMATCH: nat := 1009
}
