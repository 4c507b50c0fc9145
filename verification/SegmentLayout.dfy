/** How the log is laid out over segments, as values: what each operation of the segmented log does to
    the list of segments, and that the log seen through it changes as it should. */
module SegmentLayout {
  import opened Common
  import opened RaftTypes
  import opened SegmentFile
  import opened LogView

  datatype Seg = Seg(first: nat, entries: seq<LogEntry>)
  {
    function Last(): int { first + |entries| - 1 }
  }

  /** The name of a pair of closed files. */
  datatype Name = Name(first: nat, last: nat)

  datatype Layout = Layout(
    first: nat, last: nat,
    segs: seq<Seg>,         // the closed segments in the order of their first index, then the active one
    storedFirst: nat,       // on disk: the file first_index
    retained: seq<Name>,    // on disk: closed files that a prefix truncation has let go
    strays: set<nat>)       // on disk: the first indices of files named in-progress that nothing refers to any more

  // ---------------------------------------------------------------- segments end to end

  function Joined(segs: seq<Seg>): seq<LogEntry> {
    if segs == [] then [] else Joined(segs[..|segs| - 1]) + segs[|segs| - 1].entries
  }

  predicate LinkAt(segs: seq<Seg>, i: nat) {
    i + 1 < |segs| && segs[i + 1].first == segs[i].first + |segs[i].entries|
  }

  /** Each segment begins where the one before it ends. */
  predicate Chain(segs: seq<Seg>) {
    forall i: nat {:trigger LinkAt(segs, i)} :: i + 1 < |segs| ==> LinkAt(segs, i)
  }

  lemma {:induction false} JoinedConcat(a: seq<Seg>, b: seq<Seg>)
    ensures Joined(a + b) == Joined(a) + Joined(b)
  {
    if b == [] {
      assert a + b == a;
    } else {
      assert (a + b)[..|a + b| - 1] == a + b[..|b| - 1];
      JoinedConcat(a, b[..|b| - 1]);
    }
  }

  lemma JoinedLast(a: seq<Seg>, s: Seg)
    ensures Joined(a + [s]) == Joined(a) + s.entries
  {
    assert (a + [s])[..|a|] == a;
  }

  /** Segment i begins where the entries before it end. */
  lemma {:induction false} Position(segs: seq<Seg>, i: nat)
    requires Chain(segs) && i < |segs|
    ensures segs[i].first == segs[0].first + |Joined(segs[..i])|
    decreases i
  {
    if i > 0 {
      assert segs[..i] == segs[..i - 1] + [segs[i - 1]];
      JoinedLast(segs[..i - 1], segs[i - 1]);
      assert LinkAt(segs, i - 1);
      Position(segs, i - 1);
    }
  }

  /** The entries of segment i are found in their place in the whole. */
  lemma PartOf(segs: seq<Seg>, i: nat)
    requires Chain(segs) && i < |segs|
    ensures var a := segs[i].first - segs[0].first;
            0 <= a && a + |segs[i].entries| <= |Joined(segs)|
            && Joined(segs)[a..a + |segs[i].entries|] == segs[i].entries
  {
    Position(segs, i);
    assert segs == segs[..i] + [segs[i]] + segs[i + 1..];
    JoinedLast(segs[..i], segs[i]);
    JoinedConcat(segs[..i] + [segs[i]], segs[i + 1..]);
  }

  lemma {:induction false} FirstsGrow(segs: seq<Seg>, i: nat, j: nat)
    requires Chain(segs) && i <= j < |segs|
    ensures segs[i].first <= segs[j].first && (i < j ==> segs[i].first + |segs[i].entries| <= segs[j].first)
    decreases j
  {
    if i < j {
      assert LinkAt(segs, j - 1);
      FirstsGrow(segs, i, j - 1);
    }
  }

  lemma ChainLast(a: seq<Seg>, x: Seg)
    requires Chain(a) && (a != [] ==> x.first == a[|a| - 1].first + |a[|a| - 1].entries|)
    ensures Chain(a + [x])
  {
    forall i: nat | i < |a| ensures LinkAt(a + [x], i) {
      assert i + 1 < |a| ==> LinkAt(a, i);
    }
  }

  lemma ChainParts(segs: seq<Seg>, j: nat)
    requires Chain(segs) && j <= |segs|
    ensures Chain(segs[..j]) && Chain(segs[j..])
  {
    forall n: nat | n + 1 < j ensures LinkAt(segs[..j], n) {
      assert LinkAt(segs, n);
    }
    forall n: nat | n + 1 < |segs| - j ensures LinkAt(segs[j..], n) {
      assert LinkAt(segs, j + n);
    }
  }

  lemma JoinedSplit(segs: seq<Seg>, j: nat)
    requires j <= |segs|
    ensures Joined(segs) == Joined(segs[..j]) + Joined(segs[j..])
  {
    assert segs == segs[..j] + segs[j..];
    JoinedConcat(segs[..j], segs[j..]);
  }

  lemma HalvesOf(w: seq<LogEntry>, a: seq<LogEntry>, b: seq<LogEntry>)
    requires w == a + b
    ensures w[..|a|] == a && w[|a|..] == b
  {
  }

  lemma DropTwice(w: seq<LogEntry>, a: nat, b: nat)
    requires a <= b <= |w|
    ensures w[a..][b - a..] == w[b..]
  {
  }

  // ---------------------------------------------------------------- a sound layout

  /** The index behind the last entry. */
  function End(segs: seq<Seg>): nat
    requires segs != []
  {
    segs[|segs| - 1].first + |segs[|segs| - 1].entries|
  }

  ghost predicate Sound(s: Layout) {
    && s.segs != [] && Chain(s.segs) && 1 <= s.segs[0].first <= s.first <= s.last + 1 == End(s.segs)
    && (forall i {:trigger s.segs[i]} :: 0 <= i < |s.segs| - 1 ==> s.segs[i].entries != [])
    && (if |s.segs| == 1 then s.first == s.segs[0].first || s.first <= s.last else s.first <= s.segs[0].Last())
    && s.storedFirst == s.first
    && (forall i {:trigger s.retained[i]} :: 0 <= i < |s.retained| ==>
          s.retained[i].first <= s.retained[i].last < s.segs[0].first)
    && (forall x :: x in s.strays ==> x < s.segs[0].first)
  }

  lemma JoinedLength(segs: seq<Seg>)
    requires segs != [] && Chain(segs)
    ensures |Joined(segs)| == End(segs) - segs[0].first
  {
    Position(segs, |segs| - 1);
  }

  /** The log a sound layout stands for. */
  ghost function Seen(s: Layout): View
    requires Sound(s)
  {
    JoinedLength(s.segs);
    View(s.first, Joined(s.segs)[s.first - s.segs[0].first..])
  }

  lemma EmptySound(s: Layout)
    requires s == Layout(1, 0, [Seg(1, [])], 1, [], {})
    ensures Sound(s) && Seen(s) == View(1, [])
  {
    assert Joined(s.segs) == [];
  }

  lemma SeenLast(s: Layout)
    requires Sound(s)
    ensures Seen(s).Last() == s.last
  {
    JoinedLength(s.segs);
  }

  // ---------------------------------------------------------------- lookup

  /** The segment an index belongs to: the last one that does not begin behind it. */
  predicate Owner(segs: seq<Seg>, index: nat, i: nat) {
    i < |segs| && segs[i].first <= index && (i + 1 < |segs| ==> index < segs[i + 1].first)
  }

  lemma OwnerHolds(segs: seq<Seg>, index: nat, i: nat)
    requires segs != [] && Chain(segs) && segs[0].first <= index < End(segs) && Owner(segs, index, i)
    ensures index <= segs[i].Last()
    ensures index - segs[0].first <= |Joined(segs)|
    ensures segs[i].entries[index - segs[i].first..] <= Joined(segs)[index - segs[0].first..]
  {
    PartOf(segs, i);
    JoinedLength(segs);
    assert i + 1 < |segs| ==> LinkAt(segs, i);
    SliceTail(Joined(segs), segs[i].entries, segs[i].first - segs[0].first, index - segs[i].first);
  }

  lemma SliceTail(w: seq<LogEntry>, e: seq<LogEntry>, a: nat, n: nat)
    requires a + |e| <= |w| && w[a..a + |e|] == e && n <= |e|
    ensures e[n..] <= w[a + n..]
  {
    assert e[n..] == w[a + n..a + |e|];
  }

  /** What is read at an index in its segment is what the log seen through the layout has there. */
  lemma LookupSeen(s: Layout, index: nat, i: nat)
    requires Sound(s) && s.first <= index <= s.last && Owner(s.segs, index, i)
    ensures index <= s.segs[i].Last()
    ensures Seen(s).Entry(index) == Some(s.segs[i].entries[index - s.segs[i].first])
    ensures s.segs[i].entries[index - s.segs[i].first..] <= Seen(s).entries[index - s.first..]
  {
    OwnerHolds(s.segs, index, i);
    SeenLast(s);
    var whole, b := Joined(s.segs), s.segs[0].first;
    assert whole[s.first - b..][index - s.first..] == whole[index - b..];
    assert s.segs[i].entries[index - s.segs[i].first..][0] == whole[index - b..][0];
  }

  /** A batch cut behind n entries: all of it exactly when it has no more than n. */
  ghost predicate CutBehind(batch: seq<LogEntry>, n: nat, es: seq<LogEntry>) {
    es == batch[..Min(|batch|, n)] && (es == batch <==> |batch| <= n)
  }

  lemma PartIsCut(k: Codec, part: seq<LogEntry>, rest: seq<LogEntry>, maxLen: nat, maxCount: nat)
    requires part <= rest
    ensures CutBehind(Batch(k, rest, maxLen, maxCount), |part|, Batch(k, part, maxLen, maxCount))
  {
    BatchOfPart(k, part, rest, maxLen, maxCount);
    var batch := Batch(k, rest, maxLen, maxCount);
    assert |batch| <= |part| ==> batch[..|batch|] == batch;
  }

  /** A batch read from an index that segment i owns: the one the whole log would give, cut where that
      segment ends. So it is that of the whole log exactly when that one ends within the segment. */
  ghost predicate BatchFrom(k: Codec, s: Layout, start: nat, maxLen: nat, maxCount: nat, i: nat, es: seq<LogEntry>)
    requires Sound(s) && s.first <= start <= s.last && Owner(s.segs, start, i)
  {
    SeenLast(s);
    && start <= s.segs[i].Last()
    && CutBehind(Batch(k, Seen(s).entries[start - s.first..], maxLen, maxCount), s.segs[i].Last() + 1 - start, es)
  }

  lemma PartBatch(k: Codec, s: Layout, start: nat, i: nat, maxLen: nat, maxCount: nat)
    requires Sound(s) && s.first <= start <= s.last && Owner(s.segs, start, i)
    ensures start <= s.segs[i].Last()
    ensures BatchFrom(k, s, start, maxLen, maxCount, i,
                      Batch(k, s.segs[i].entries[start - s.segs[i].first..], maxLen, maxCount))
  {
    SeenLast(s);
    LookupSeen(s, start, i);
    PartIsCut(k, s.segs[i].entries[start - s.segs[i].first..], Seen(s).entries[start - s.first..], maxLen, maxCount);
  }

  // ---------------------------------------------------------------- append

  function Rolled(s: Layout): Layout {
    s.(segs := s.segs + [Seg(s.last + 1, [])])
  }

  lemma RollKeeps(s: Layout, s': Layout)
    requires Sound(s) && s.segs[|s.segs| - 1].entries != [] && s' == Rolled(s)
    ensures Sound(s') && Seen(s') == Seen(s)
  {
    JoinedLast(s.segs, Seg(s.last + 1, []));
    assert Joined(s.segs) + [] == Joined(s.segs);
    ChainLast(s.segs, Seg(s.last + 1, []));
  }

  function Extended(s: Layout, more: seq<LogEntry>): Layout
    requires s.segs != []
  {
    var n := |s.segs| - 1;
    s.(segs := s.segs[n := s.segs[n].(entries := s.segs[n].entries + more)], last := s.last + |more|)
  }

  lemma ChainExtend(segs: seq<Seg>, segs': seq<Seg>, more: seq<LogEntry>)
    requires segs != [] && Chain(segs)
    requires var n := |segs| - 1; segs' == segs[n := segs[n].(entries := segs[n].entries + more)]
    ensures Chain(segs')
  {
    forall i: nat | i + 1 < |segs'| ensures LinkAt(segs', i) {
      assert LinkAt(segs, i);
    }
  }

  lemma JoinedExtendLast(head: seq<Seg>, x: Seg, more: seq<LogEntry>)
    ensures Joined(head + [x.(entries := x.entries + more)]) == Joined(head + [x]) + more
  {
    JoinedLast(head, x);
    JoinedLast(head, x.(entries := x.entries + more));
    Regroup(Joined(head), x.entries, more);
  }

  lemma JoinedExtend(segs: seq<Seg>, segs': seq<Seg>, more: seq<LogEntry>)
    requires segs != []
    requires var n := |segs| - 1; segs' == segs[n := segs[n].(entries := segs[n].entries + more)]
    ensures Joined(segs') == Joined(segs) + more
  {
    var n := |segs| - 1;
    JoinedExtendLast(segs[..n], segs[n], more);
    assert segs == segs[..n] + [segs[n]];
    assert segs' == segs[..n] + [segs[n].(entries := segs[n].entries + more)];
  }

  lemma ExtendKeeps(s: Layout, s': Layout, more: seq<LogEntry>)
    requires Sound(s) && s' == Extended(s, more)
    ensures Sound(s') && Seen(s') == Seen(s).Append(more)
  {
    ChainExtend(s.segs, s'.segs, more);
    JoinedExtend(s.segs, s'.segs, more);
    JoinedLength(s.segs);
    var a := s.first - s.segs[0].first;
    assert (Joined(s.segs) + more)[a..] == Joined(s.segs)[a..] + more;
  }

  /** Entries go to the active segment, after a new one has been opened if they do not fit. */
  function Appended(s: Layout, roll: bool, more: seq<LogEntry>): Layout
    requires s.segs != []
  {
    if roll then Extended(Rolled(s), more) else Extended(s, more)
  }

  lemma AppendKeeps(s: Layout, s': Layout, roll: bool, more: seq<LogEntry>)
    requires Sound(s) && (roll ==> s.segs[|s.segs| - 1].entries != []) && s' == Appended(s, roll, more)
    ensures Sound(s') && Seen(s') == Seen(s).Append(more)
  {
    if roll {
      RollKeeps(s, Rolled(s));
      ExtendKeeps(Rolled(s), s', more);
    } else {
      ExtendKeeps(s, s', more);
    }
  }

  // ---------------------------------------------------------------- truncation of the prefix

  /** The first segment from i on that is kept: the active one, or one that reaches `kept`. */
  function FirstKept(segs: seq<Seg>, kept: nat, i: nat): (j: nat)
    requires i < |segs|
    ensures i <= j < |segs|
    ensures forall n {:trigger segs[n]} :: i <= n < j ==> segs[n].Last() < kept
    ensures j + 1 < |segs| ==> kept <= segs[j].Last()
    decreases |segs| - i
  {
    if i + 1 == |segs| || segs[i].Last() >= kept then i else FirstKept(segs, kept, i + 1)
  }

  lemma {:induction false} FirstKeptIs(segs: seq<Seg>, kept: nat, i: nat, j: nat)
    requires i <= j < |segs| && forall n {:trigger segs[n]} :: i <= n < j ==> segs[n].Last() < kept
    requires j + 1 < |segs| ==> kept <= segs[j].Last()
    ensures FirstKept(segs, kept, i) == j
    decreases j - i
  {
    if i < j {
      FirstKeptIs(segs, kept, i + 1, j);
    }
  }

  function Names(segs: seq<Seg>): (names: seq<Name>)
    requires forall i :: 0 <= i < |segs| ==> segs[i].entries != []
    ensures |names| == |segs| && forall i {:trigger names[i]} :: 0 <= i < |segs| ==>
              names[i].first == segs[i].first && names[i].last == segs[i].Last()
  {
    if segs == [] then []
    else
      var x := segs[|segs| - 1];
      Names(segs[..|segs| - 1]) + [Name(x.first, x.Last())]
  }

  /** Lets go of the closed segments that end before `kept`. */
  function Released(s: Layout, kept: nat): Layout
    requires s.segs != [] && forall i :: 0 <= i < |s.segs| - 1 ==> s.segs[i].entries != []
  {
    var j := FirstKept(s.segs, kept, 0);
    s.(first := kept, storedFirst := kept, segs := s.segs[j..], retained := s.retained + Names(s.segs[..j]))
  }

  /** If nothing is left but an active segment that ends before the first index, starts afresh. The new
      segment has the old one's file if both begin at the same index, and leaves it behind otherwise. */
  function Restarted(s: Layout): Layout
    requires s.segs != [] && 1 <= s.first
  {
    if |s.segs| == 1 && s.segs[0].Last() < s.first
    then s.(last := s.first - 1, segs := [Seg(s.first, [])], strays := s.strays + {s.segs[0].first} - {s.first})
    else s
  }

  function PrefixCut(s: Layout, kept: nat): Layout
    requires s.segs != [] && forall i :: 0 <= i < |s.segs| - 1 ==> s.segs[i].entries != []
  {
    if kept <= s.first then s else Restarted(Released(s, kept))
  }

  lemma PrefixCutNames(s: Layout, j: nat)
    requires Sound(s) && j < |s.segs|
    ensures forall i {:trigger Names(s.segs[..j])[i]} :: 0 <= i < j ==>
              Names(s.segs[..j])[i].first <= Names(s.segs[..j])[i].last < s.segs[j].first
  {
    forall i | 0 <= i < j ensures s.segs[i].Last() < s.segs[j].first && s.segs[i].entries != [] {
      FirstsGrow(s.segs, i, j);
    }
  }

  lemma JoinedTail(segs: seq<Seg>, j: nat)
    requires Chain(segs) && j < |segs|
    ensures Chain(segs[j..]) && 0 <= segs[j].first - segs[0].first <= |Joined(segs)|
    ensures Joined(segs[j..]) == Joined(segs)[segs[j].first - segs[0].first..]
  {
    ChainParts(segs, j);
    Position(segs, j);
    JoinedSplit(segs, j);
    HalvesOf(Joined(segs), Joined(segs[..j]), Joined(segs[j..]));
  }

  /** The segments before j go, and the log is read from `kept` on, inside segment j. */
  lemma PrefixCutLive(s: Layout, s': Layout, kept: nat, j: nat)
    requires Sound(s) && s.first < kept <= s.last && j < |s.segs| && s.segs[j].first <= kept
    requires s'.first == kept && s'.last == s.last && s'.segs == s.segs[j..] && Sound(s')
    ensures Seen(s') == Seen(s).CutPrefix(kept)
  {
    JoinedTail(s.segs, j);
    JoinedLength(s.segs);
    SeenLast(s);
    var b := s.segs[0].first;
    DropTwice(Joined(s.segs), s.segs[j].first - b, kept - b);
    DropTwice(Joined(s.segs), s.first - b, kept - b);
  }

  lemma PrefixCutSound(s: Layout, s': Layout, kept: nat, j: nat)
    requires Sound(s) && s.first < kept <= s.last && j == FirstKept(s.segs, kept, 0)
    requires s' == s.(first := kept, storedFirst := kept, segs := s.segs[j..], retained := s.retained + Names(s.segs[..j]))
    ensures Sound(s') && s.segs[j].first <= kept
  {
    PrefixCutNames(s, j);
    ChainParts(s.segs, j);
    FirstsGrow(s.segs, 0, j);
    if j > 0 {
      assert LinkAt(s.segs, j - 1) && s.segs[j - 1].Last() < kept;
    }
  }

  /** Nothing of the log is left, and a new segment begins at `kept`. */
  lemma PrefixCutPast(s: Layout, s': Layout, kept: nat)
    requires Sound(s) && kept > s.last && kept > s.first && s' == PrefixCut(s, kept)
    ensures s'.segs == [Seg(kept, [])] && Sound(s') && Seen(s') == View(kept, [])
  {
    var j := FirstKept(s.segs, kept, 0);
    FirstsGrow(s.segs, 0, j);
    FirstsGrow(s.segs, j, |s.segs| - 1);
    assert s.segs[j..] == [s.segs[|s.segs| - 1]];
    PrefixCutNames(s, j);
    assert Joined(s'.segs) == [];
  }

  lemma PrefixCutKeeps(s: Layout, s': Layout, kept: nat)
    requires Sound(s) && s' == PrefixCut(s, kept)
    ensures Sound(s') && Seen(s') == Seen(s).CutPrefix(kept)
  {
    SeenLast(s);
    if kept > s.first {
      if kept <= s.last {
        var j := FirstKept(s.segs, kept, 0);
        FirstsGrow(s.segs, j, |s.segs| - 1);
        PrefixCutSound(s, s', kept, j);
        PrefixCutLive(s, s', kept, j);
      } else {
        PrefixCutPast(s, s', kept);
      }
    }
  }

  /** A file is left behind exactly when the log is cut to begin behind its end, unless the active segment is
      empty and begins just there. */
  lemma PrefixCutStrays(s: Layout, s': Layout, kept: nat, active: nat)
    requires Sound(s) && s' == PrefixCut(s, kept) && active == s.segs[|s.segs| - 1].first
    ensures active <= s.last + 1
    ensures s'.strays == if kept <= s.last || kept <= active then s.strays else s.strays + {active}
    ensures s'.strays == s.strays <==> kept <= s.last || kept <= active
  {
    var n := |s.segs| - 1;
    FirstsGrow(s.segs, 0, n);
    if kept > s.first {
      var j := FirstKept(s.segs, kept, 0);
      FirstsGrow(s.segs, j, n);
      if j < n {
        assert kept <= s.last;
      } else {
        assert s.segs[j..] == [s.segs[n]];
      }
    }
  }

  /** The files named in-progress. A start finds its active segment among them, and fails if it finds two. */
  function InProgress(s: Layout): set<nat>
    requires s.segs != []
  {
    s.strays + {s.segs[|s.segs| - 1].first}
  }

  /** For instance: one entry, and the log cut to begin at 3. */
  lemma CutPastEnd(e: LogEntry, s: Layout, cut: Layout)
    requires s == Layout(1, 1, [Seg(1, [e])], 1, [], {}) && cut == PrefixCut(s, 3)
    ensures Sound(s) && Sound(cut) && InProgress(cut) == {1, 3}
  {
    PrefixCutKeeps(s, cut, 3);
    PrefixCutStrays(s, cut, 3, 1);
  }

  // ---------------------------------------------------------------- truncation of the suffix

  /** How many segments begin at or before `kept`. */
  function Reaching(segs: seq<Seg>, kept: nat): (n: nat)
    ensures n <= |segs|
    ensures n > 0 ==> segs[n - 1].first <= kept
    ensures forall i {:trigger segs[i]} :: n <= i < |segs| ==> segs[i].first > kept
  {
    if segs == [] || segs[|segs| - 1].first <= kept then |segs| else Reaching(segs[..|segs| - 1], kept)
  }

  lemma {:induction false} ReachingIs(segs: seq<Seg>, kept: nat, n: nat)
    requires n <= |segs| && (n > 0 ==> segs[n - 1].first <= kept)
    requires forall i {:trigger segs[i]} :: n <= i < |segs| ==> segs[i].first > kept
    ensures Reaching(segs, kept) == n
  {
    if n < |segs| {
      ReachingIs(segs[..|segs| - 1], kept, n);
    }
  }

  function CutSeg(x: Seg, kept: nat): Seg
    requires x.first <= kept
  {
    if kept >= x.Last() then x else x.(entries := x.entries[..kept + 1 - x.first])
  }

  function SuffixCut(s: Layout, kept: nat): Layout {
    if s.last <= kept then s
    else
      var n := Reaching(s.segs, kept);
      s.(last := kept, first := if n == 0 then kept + 1 else s.first, segs := SuffixCutSegs(s.segs, s.first, kept, n),
         strays := if n == |s.segs| && s.first <= kept then s.strays else s.strays - {kept + 1})
  }

  /** The segments after a suffix truncation that does something. */
  function SuffixCutSegs(segs: seq<Seg>, first: nat, kept: nat, n: nat): seq<Seg>
    requires n <= |segs| && (n > 0 ==> segs[n - 1].first <= kept)
  {
    if n == 0 then [Seg(kept + 1, [])]
    else if first > kept then segs[..n - 1] + [Seg(kept + 1, [])]
    else if n == |segs| then segs[..n - 1] + [CutSeg(segs[n - 1], kept)]
    else segs[..n - 1] + [CutSeg(segs[n - 1], kept), Seg(kept + 1, [])]
  }

  lemma SuffixCutKeeps(s: Layout, s': Layout, kept: nat)
    requires Sound(s) && s.first <= kept + 1 && s' == SuffixCut(s, kept)
    ensures Sound(s') && Seen(s') == Seen(s).CutSuffix(kept)
    ensures s'.first == s.first && s'.strays == s.strays
  {
    SeenLast(s);
    if kept < s.last {
      if s.first > kept {
        SuffixCutAll(s, s', kept);
      } else {
        SuffixCutSome(s, s', kept);
      }
    }
  }

  /** A suffix truncation leaves a sound layout exactly when it does not reach before the first index: the
      first index on disk is never lowered, and the one in memory only if no segment is left. */
  lemma SuffixCutSoundIff(s: Layout, s': Layout, kept: nat)
    requires Sound(s) && s' == SuffixCut(s, kept)
    ensures Sound(s') <==> s.first <= kept + 1
  {
    if s.first <= kept + 1 {
      SuffixCutKeeps(s, s', kept);
    }
  }

  /** What it costs to reach further back: entries appended afterwards lie before the first index, and the
      log finds none of them until that index is reached again. */
  lemma BelowFirstIsUnreadable(s: Layout, cut: Layout, kept: nat, more: seq<LogEntry>, index: nat)
    requires Sound(s) && s.segs[0].first <= kept && kept + |more| < s.first
    requires cut == SuffixCut(s, kept) && more != []
    ensures !Sound(cut) && Extended(cut, more).last == kept + |more|
    ensures !(Extended(cut, more).first <= index <= Extended(cut, more).last)
    ensures Seen(s).CutSuffix(kept).Append(more) == View(kept + 1, more)
    ensures Seen(s).CutSuffix(kept).Append(more).Entry(kept + 1) == Some(more[0])
  {
    SeenLast(s);
    assert Reaching(s.segs, kept) > 0;
    assert [] + more == more;
  }

  /** For instance: three entries in one segment, of which the third is kept, cut back to the first. */
  lemma CutBelowFirst(es: seq<LogEntry>, e: LogEntry, s: Layout, cut: Layout)
    requires |es| == 3 && s == Layout(3, 3, [Seg(1, es)], 3, [], {}) && cut == SuffixCut(s, 1)
    ensures Sound(s) && !Sound(cut)
    ensures Seen(s).CutSuffix(1).Append([e]).Entry(2) == Some(e) && Extended(cut, [e]).first > 2
  {
    SuffixCutSoundIff(s, cut, 1);
    BelowFirstIsUnreadable(s, cut, 1, [e], 2);
  }

  lemma SuffixCutAll(s: Layout, s': Layout, kept: nat)
    requires Sound(s) && s.first == kept + 1 <= s.last && s' == SuffixCut(s, kept)
    ensures Sound(s') && Seen(s') == View(kept + 1, []) && s'.first == s.first && s'.strays == s.strays
  {
    var n := Reaching(s.segs, kept);
    if n > 1 {
      FirstsGrow(s.segs, 0, n - 1);
    }
    assert n <= 1;
    assert s'.segs == [Seg(kept + 1, [])];
    assert Joined(s'.segs) == [];
  }

  /** Cutting the segment that holds `kept` and dropping those behind it. */
  lemma JoinedCut(segs: seq<Seg>, r: seq<Seg>, x: Seg, n: nat, kept: nat)
    requires Chain(segs) && 1 <= n <= |segs| && segs[0].first <= kept && Owner(segs, kept, n - 1) && kept < End(segs)
    requires x.first == segs[n - 1].first && x.Last() == kept && x.entries <= segs[n - 1].entries
    requires r == segs[..n - 1] + [x]
    ensures Chain(r) && End(r) == kept + 1 && r[0].first == segs[0].first
    ensures kept + 1 - segs[0].first <= |Joined(segs)| && Joined(r) == Joined(segs)[..kept + 1 - segs[0].first]
  {
    Position(segs, n - 1);
    ChainParts(segs, n - 1);
    if n > 1 {
      assert LinkAt(segs, n - 2);
    }
    ChainLast(segs[..n - 1], x);
    JoinedLast(segs[..n - 1], x);
    JoinedLength(segs);
    JoinedSplit(segs, n - 1);
    JoinedHead(segs[n - 1..]);
    PrefixTo(x.entries, segs[n - 1].entries, Joined(segs[n - 1..]));
    HeadOf(Joined(segs), Joined(segs[..n - 1]), Joined(segs[n - 1..]), x.entries);
  }

  lemma PrefixTo(a: seq<LogEntry>, b: seq<LogEntry>, c: seq<LogEntry>)
    requires a <= b <= c
    ensures a <= c
  {
  }

  lemma JoinedHead(segs: seq<Seg>)
    requires segs != []
    ensures segs[0].entries <= Joined(segs)
  {
    JoinedSplit(segs, 1);
    assert segs[..1] == [] + [segs[0]];
    JoinedLast([], segs[0]);
  }

  lemma HeadOf(w: seq<LogEntry>, a: seq<LogEntry>, b: seq<LogEntry>, x: seq<LogEntry>)
    requires w == a + b && x <= b
    ensures w[..|a| + |x|] == a + x
  {
  }

  lemma SuffixCutSome(s: Layout, s': Layout, kept: nat)
    requires Sound(s) && s.first <= kept < s.last && s' == SuffixCut(s, kept)
    ensures Sound(s') && Seen(s') == Seen(s).CutSuffix(kept) && s'.first == s.first && s'.strays == s.strays
  {
    var n := Reaching(s.segs, kept);
    assert s.segs[0].first <= kept;
    var mid := s.(last := kept, segs := s.segs[..n - 1] + [CutSeg(s.segs[n - 1], kept)]);
    CutAtOwner(s, mid, n, kept);
    if n < |s.segs| {
      RollKeeps(mid, s');
    }
  }

  lemma CutAtOwner(s: Layout, mid: Layout, n: nat, kept: nat)
    requires Sound(s) && s.first <= kept < s.last && 1 <= n && Owner(s.segs, kept, n - 1)
    requires mid == s.(last := kept, segs := s.segs[..n - 1] + [CutSeg(s.segs[n - 1], kept)])
    ensures Sound(mid) && Seen(mid) == Seen(s).CutSuffix(kept) && mid.segs[n - 1].entries != []
  {
    OwnerHolds(s.segs, kept, n - 1);
    JoinedCut(s.segs, mid.segs, mid.segs[n - 1], n, kept);
    SuffixCutSound(s, mid, mid.segs, n, kept);
    SuffixSeen(s, mid, kept);
  }

  lemma SuffixCutSound(s: Layout, s': Layout, r: seq<Seg>, n: nat, kept: nat)
    requires Sound(s) && s.first <= kept < s.last && 1 <= n <= |s.segs| && |r| == n && Chain(r)
    requires End(r) == kept + 1 && r[..n - 1] == s.segs[..n - 1] && r[0].first == s.segs[0].first
    requires r[n - 1].entries != [] && r[n - 1].Last() == kept && s' == s.(last := kept, segs := r)
    ensures Sound(s')
  {
    forall i | 0 <= i < n - 1 ensures r[i] == s.segs[i] {
      assert r[..n - 1][i] == s.segs[..n - 1][i];
    }
  }

  lemma SuffixSeen(s: Layout, s': Layout, kept: nat)
    requires Sound(s) && s.first <= kept < s.last && s'.first == s.first && Sound(s')
    requires s'.segs[0].first == s.segs[0].first && kept + 1 - s.segs[0].first <= |Joined(s.segs)|
    requires Joined(s'.segs) == Joined(s.segs)[..kept + 1 - s.segs[0].first]
    ensures Seen(s') == Seen(s).CutSuffix(kept)
  {
    SeenLast(s);
    TakeDrop(Joined(s.segs), s.first - s.segs[0].first, kept + 1 - s.segs[0].first);
  }

  lemma TakeDrop(w: seq<LogEntry>, a: nat, b: nat)
    requires a <= b <= |w|
    ensures w[..b][a..] == w[a..][..b - a]
  {
  }
}
