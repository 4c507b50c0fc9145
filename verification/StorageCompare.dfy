/** Any sequence of operations on the two logs side by side: they stay the same log. */
module StorageCompare {
  import opened RaftTypes
  import opened SegmentFile
  import opened LogView
  import InMemoryLog
  import SegmentLayout
  import SegmentLog

  datatype Op =
    | Write(more: seq<LogEntry>)
    | Read(index: nat)
    | CutPrefix(kept: nat)
    | CutSuffix(kept: nat)
    | CloseAndReopen

  /** What the callers of the segmented log must observe. */
  ghost predicate Allowed(k: Codec, dataLimit: nat, metaLimit: nat, v: View, op: Op) {
    match op
    case Write(more) =>
      && LogView.Contiguous(more) && |more| <= metaLimit / META_SIZE && Size(k, more) <= dataLimit
      && forall j :: 0 <= j < |more| ==> KeyOk(k, more[j])
    case Read(index) => v.first <= index <= v.Last()
    case CutPrefix(kept) => kept <= v.Last() || kept <= v.first
    case CutSuffix(kept) => v.first <= kept + 1
    case CloseAndReopen => true
  }

  function After(v: View, op: Op): View {
    match op
    case Write(more) => if more == [] || more[0].index == v.Last() + 1 then v.Append(more) else v
    case Read(_) => v
    case CutPrefix(kept) => v.CutPrefix(kept)
    case CutSuffix(kept) => v.CutSuffix(kept)
    case CloseAndReopen => v
  }

  /** The log after the first n operations. */
  function AfterFirst(v: View, ops: seq<Op>, n: nat): View
    requires n <= |ops|
  {
    if n == 0 then v else After(AfterFirst(v, ops, n - 1), ops[n - 1])
  }

  ghost predicate AllowedAt(k: Codec, dataLimit: nat, metaLimit: nat, ops: seq<Op>, i: nat) {
    i < |ops| && Allowed(k, dataLimit, metaLimit, AfterFirst(View(1, []), ops, i), ops[i])
  }

  ghost predicate AllAllowed(k: Codec, dataLimit: nat, metaLimit: nat, ops: seq<Op>) {
    forall i: nat {:trigger AllowedAt(k, dataLimit, metaLimit, ops, i)} ::
      i < |ops| ==> AllowedAt(k, dataLimit, metaLimit, ops, i)
  }

  /** A contiguous batch is taken as a whole or not at all. */
  lemma {:induction false} AllOrNothing(last: nat, more: seq<LogEntry>)
    requires LogView.Contiguous(more)
    ensures InMemoryLog.Continuing(last, more) == if more == [] || more[0].index == last + 1 then more else []
  {
    var n := if more == [] || more[0].index == last + 1 then |more| else 0;
    InMemoryLog.ContinuingIs(last, more, n);
    assert more[..|more|] == more;
  }

  /** The two logs, apart from each other, stand for the same log. */
  ghost predicate Same(mem: InMemoryLog.MemoryLog, seg: SegmentLog.SegmentedLog)
    reads mem, seg, seg.files
  {
    mem.Valid() && seg.Valid() && seg.strays == {} && mem !in seg.files && mem.Contents() == seg.Contents()
  }

  method WriteBoth(mem: InMemoryLog.MemoryLog, seg: SegmentLog.SegmentedLog, more: seq<LogEntry>) returns (same: bool)
    requires Same(mem, seg) && Allowed(seg.k, seg.dataLimit, seg.metaLimit, mem.Contents(), Write(more))
    modifies mem, seg, seg.files
    ensures Same(mem, seg) && fresh(seg.files - old(seg.files)) && same
    ensures mem.Contents() == After(old(mem.Contents()), Write(more))
  {
    SegmentLayout.SeenLast(seg.State());
    AllOrNothing(mem.lastIndex, more);
    var ok1 := mem.AppendEntries(more);
    var ok2 := seg.AppendEntries(more);
    same := ok1 == ok2;
  }

  method ReadBoth(mem: InMemoryLog.MemoryLog, seg: SegmentLog.SegmentedLog, index: nat) returns (same: bool)
    requires Same(mem, seg) && mem.Contents().first <= index <= mem.Contents().Last()
    modifies seg.files
    ensures Same(mem, seg) && same && mem.Contents() == old(mem.Contents())
  {
    SegmentLayout.SeenLast(seg.State());
    var t1 := mem.GetTerm(index);
    var t2 := seg.GetTerm(index);
    var e1 := mem.GetEntry(index);
    var e2 := seg.GetEntry(index);
    same := e1 == e2 && t1 == t2 && e1.Some?;
  }

  method CutPrefixBoth(mem: InMemoryLog.MemoryLog, seg: SegmentLog.SegmentedLog, kept: nat)
    requires Same(mem, seg) && (kept <= mem.Contents().Last() || kept <= mem.Contents().first)
    modifies mem, seg
    ensures Same(mem, seg) && fresh(seg.files - old(seg.files))
    ensures mem.Contents() == old(mem.Contents()).CutPrefix(kept)
  {
    SegmentLayout.SeenLast(seg.State());
    mem.TruncatePrefix(kept);
    seg.TruncatePrefix(kept);
  }

  method CutSuffixBoth(mem: InMemoryLog.MemoryLog, seg: SegmentLog.SegmentedLog, kept: nat)
    requires Same(mem, seg) && mem.Contents().first <= kept + 1
    modifies mem, seg, seg.files
    ensures Same(mem, seg) && fresh(seg.files - old(seg.files))
    ensures mem.Contents() == old(mem.Contents()).CutSuffix(kept)
  {
    mem.TruncateSuffix(kept);
    seg.TruncateSuffix(kept);
  }

  /** Both hold the log v. */
  ghost predicate Running(mem: InMemoryLog.MemoryLog, seg: SegmentLog.SegmentedLog,
                          k: Codec, dataLimit: nat, metaLimit: nat, v: View)
    reads mem, seg, seg.files
  {
    && seg.k == k && seg.dataLimit == dataLimit && seg.metaLimit == metaLimit
    && Same(mem, seg) && mem.Contents() == v
  }

  method StepBoth(mem: InMemoryLog.MemoryLog, seg: SegmentLog.SegmentedLog, op: Op,
                  ghost k: Codec, ghost dataLimit: nat, ghost metaLimit: nat, ghost v: View)
    returns (seg': SegmentLog.SegmentedLog, same: bool)
    requires Running(mem, seg, k, dataLimit, metaLimit, v) && Allowed(k, dataLimit, metaLimit, v, op)
    modifies mem, seg, seg.files
    ensures Running(mem, seg', k, dataLimit, metaLimit, After(v, op)) && same
    ensures (seg' == seg || fresh(seg')) && fresh(seg'.files - old(seg.files))
  {
    seg', same := seg, true;
    if op.Write? {
      same := WriteBoth(mem, seg, op.more);
    } else if op.Read? {
      same := ReadBoth(mem, seg, op.index);
    } else if op.CutPrefix? {
      CutPrefixBoth(mem, seg, op.kept);
    } else if op.CutSuffix? {
      CutSuffixBoth(mem, seg, op.kept);
    } else {
      seg' := SegmentLog.SegmentedLog.Reopen(seg);
    }
  }

  method StartBoth(k: Codec, dataLimit: nat, metaLimit: nat)
    returns (mem: InMemoryLog.MemoryLog, seg: SegmentLog.SegmentedLog)
    requires Faithful(k)
    ensures fresh(mem) && fresh(seg) && fresh(seg.files) && Running(mem, seg, k, dataLimit, metaLimit, View(1, []))
  {
    mem := new InMemoryLog.MemoryLog();
    seg := new SegmentLog.SegmentedLog(k, dataLimit, metaLimit);
  }

  /** The first n operations. */
  method RunFirst(k: Codec, dataLimit: nat, metaLimit: nat, ops: seq<Op>, n: nat)
    returns (mem: InMemoryLog.MemoryLog, seg: SegmentLog.SegmentedLog, same: bool)
    requires Faithful(k) && AllAllowed(k, dataLimit, metaLimit, ops) && n <= |ops|
    ensures fresh(mem) && fresh(seg) && fresh(seg.files) && same
    ensures Running(mem, seg, k, dataLimit, metaLimit, AfterFirst(View(1, []), ops, n))
  {
    if n == 0 {
      mem, seg := StartBoth(k, dataLimit, metaLimit);
      same := true;
    } else {
      mem, seg, same := RunFirst(k, dataLimit, metaLimit, ops, n - 1);
      assert AllowedAt(k, dataLimit, metaLimit, ops, n - 1);
      seg, same := StepBoth(mem, seg, ops[n - 1], k, dataLimit, metaLimit, AfterFirst(View(1, []), ops, n - 1));
    }
  }

  /** From empty, over any allowed operations, closing and reopening included: every write and every read
      gives the same on both, and in the end both hold the same log. */
  method RunBoth(k: Codec, dataLimit: nat, metaLimit: nat, ops: seq<Op>)
    returns (mem: InMemoryLog.MemoryLog, seg: SegmentLog.SegmentedLog, same: bool)
    requires Faithful(k) && AllAllowed(k, dataLimit, metaLimit, ops)
    ensures fresh(mem) && fresh(seg) && Same(mem, seg) && same
    ensures mem.Contents() == AfterFirst(View(1, []), ops, |ops|)
  {
    mem, seg, same := RunFirst(k, dataLimit, metaLimit, ops, |ops|);
  }

  method NewLog(k: Codec, dataLimit: nat, metaLimit: nat) returns (seg: SegmentLog.SegmentedLog)
    requires Faithful(k)
    ensures fresh(seg) && fresh(seg.files) && seg.Valid() && seg.lastIndex == 0 && seg.strays == {}
    ensures seg.k == k && seg.dataLimit == dataLimit && seg.metaLimit == metaLimit && seg.Contents() == View(1, [])
  {
    seg := new SegmentLog.SegmentedLog(k, dataLimit, metaLimit);
    SegmentLayout.SeenLast(seg.State());
  }

  method WriteOne(seg: SegmentLog.SegmentedLog, e: LogEntry)
    requires seg.Valid() && seg.lastIndex == 0 && seg.strays == {} && seg.Contents() == View(1, [])
    requires KeyOk(seg.k, e) && e.index == 1 && seg.FitsEmpty([e])
    modifies seg, seg.files
    ensures seg.Valid() && seg.lastIndex == 1 && seg.strays == {} && fresh(seg.files - old(seg.files))
  {
    var ok := seg.AppendEntries([e]);
    SegmentLayout.SeenLast(seg.State());
  }

  /** For instance: one entry is written, the log is cut to begin behind it, and the next start fails. */
  method CutPastEndStopsStart(k: Codec, dataLimit: nat, metaLimit: nat, e: LogEntry)
    returns (again: SegmentLog.SegmentedLog?)
    requires Faithful(k) && KeyOk(k, e) && e.index == 1 && 1 <= metaLimit / META_SIZE && Size(k, [e]) <= dataLimit
    ensures again == null
  {
    var seg := NewLog(k, dataLimit, metaLimit);
    WriteOne(seg, e);
    seg.TruncatePrefix(3);
    again := SegmentLog.SegmentedLog.Reopen(seg);
  }
}
