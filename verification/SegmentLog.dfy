/** The segmented log as the object it is. Its operations change the layout as SegmentLayout says. */
module SegmentLog {
  import opened Common
  import opened RaftTypes
  import opened SegmentFile
  import opened Segment
  import opened LogView
  import opened SegmentLayout

  class SegmentedLog {
    const k: Codec
    const dataLimit: nat
    const metaLimit: nat
    var firstIndex: nat
    var lastIndex: nat
    var closed: seq<LogSegment>   // in the order of their first index
    var active: LogSegment
    // on disk, besides the files of these segments
    var storedFirst: nat
    var retained: seq<Name>
    var strays: set<nat>

    ghost var segs: seq<Seg>      // what the segments hold, the active one last
    ghost var files: set<object>  // the segments and what they are mapped to

    ghost function State(): Layout
      reads this
    {
      Layout(firstIndex, lastIndex, segs, storedFirst, retained, strays)
    }

    ghost predicate Owned(s: LogSegment)
      reads this`files
    {
      s in files && s.meta in files && s.data in files
    }

    ghost predicate Apart(s: LogSegment, r: LogSegment) {
      s != r && s.meta != r.meta && s.data != r.data
    }

    ghost predicate Holds(s: LogSegment, x: Seg)
      reads s, s.meta, s.data
    {
      s.Valid() && s.k == k && s.first == x.first && s.entries == x.entries
    }

    ghost predicate ClosedOk(i: nat)
      reads this`closed, this`active, this`segs, this`files, files
    {
      && i < |closed| && i < |segs|
      && Owned(closed[i]) && Holds(closed[i], segs[i]) && !closed[i].active && Apart(closed[i], active)
      && forall j :: i < j < |closed| ==> Apart(closed[i], closed[j])
    }

    ghost predicate ActiveOk()
      reads this`closed, this`active, this`segs, this`files, files
    {
      && |segs| == |closed| + 1
      && Owned(active) && Holds(active, segs[|closed|]) && active.active
      && active.meta.Length == metaLimit / META_SIZE && active.data.Length == dataLimit
    }

    /** The segments hold what they should. */
    ghost predicate Linked()
      reads this`closed, this`active, this`segs, this`files, files
    {
      && Faithful(k) && this !in files
      && ActiveOk() && (forall i: nat {:trigger ClosedOk(i)} :: i < |closed| ==> ClosedOk(i))
    }

    ghost predicate Valid()
      reads this, files
    {
      Linked() && Sound(State())
    }

    /** The log this object stands for. */
    ghost function Contents(): View
      requires Valid()
      reads this, files
    {
      Seen(State())
    }

    ghost predicate FitsEmpty(more: seq<LogEntry>) {
      |more| <= metaLimit / META_SIZE && Size(k, more) <= dataLimit
    }

    constructor (k: Codec, dataLimit: nat, metaLimit: nat)
      requires Faithful(k)
      ensures Valid() && fresh(files) && Contents() == View(1, []) && strays == {}
      ensures this.k == k && this.dataLimit == dataLimit && this.metaLimit == metaLimit
    {
      this.k, this.dataLimit, this.metaLimit := k, dataLimit, metaLimit;
      firstIndex, lastIndex, storedFirst := 1, 0, 1;
      closed, retained, strays := [], [], {};
      segs := [Seg(1, [])];
      var s := new LogSegment.Create(k, 1, dataLimit, metaLimit);
      active := s;
      files := {s, s.meta, s.data};
      new;
      EmptySound(State());
    }

    // -------------------------------------------------------------- append

    method RollActiveSegment()
      requires Linked() && 1 <= lastIndex + 1
      modifies this`closed, this`active, this`files, this`segs, active`active
      ensures Linked() && fresh(files - old(files)) && active.entries == []
      ensures fresh(active) && fresh(active.meta) && fresh(active.data)
      ensures segs == old(segs) + [Seg(lastIndex + 1, [])]
    {
      active.CloseActive();
      var s := new LogSegment.Create(k, lastIndex + 1, dataLimit, metaLimit);
      segs := segs + [Seg(lastIndex + 1, [])];
      closed := closed + [active];
      active := s;
      files := files + {s, s.meta, s.data};
      forall i: nat | i < |closed| ensures ClosedOk(i) {
        assert i < |closed| - 1 ==> old(ClosedOk(i));
      }
    }

    /** Writes to the active segment, which has room. */
    method Extend(more: seq<LogEntry>)
      requires Linked() && more != [] && active.Fits(more)
      requires forall j :: 0 <= j < |more| ==> more[j].index == active.last + 1 + j && KeyOk(k, more[j])
      modifies this`segs, active, active.meta, active.data
      ensures Linked()
      ensures segs == old(segs)[|closed| := Seg(active.first, old(segs)[|closed|].entries + more)]
    {
      active.AppendEntries(more);
      segs := segs[|closed| := Seg(active.first, active.entries)];
      forall i: nat | i < |closed| ensures ClosedOk(i) {
        assert old(ClosedOk(i));
      }
    }

    /** Whether entries continue the log and can be stored. */
    ghost predicate Storable(more: seq<LogEntry>)
      reads this`lastIndex
    {
      && more != [] && FitsEmpty(more)
      && forall j :: 0 <= j < |more| ==> more[j].index == lastIndex + 1 + j && KeyOk(k, more[j])
    }

    method AppendHere(more: seq<LogEntry>)
      requires Linked() && Storable(more) && active.Fits(more) && active.last == lastIndex
      modifies this`segs, this`lastIndex, active, active.meta, active.data
      ensures Linked() && State() == Extended(old(State()), more)
    {
      Extend(more);
      lastIndex := lastIndex + |more|;
    }

    method AppendRolled(more: seq<LogEntry>)
      requires Linked() && Storable(more)
      modifies this`segs, this`lastIndex, this`closed, this`active, this`files, active`active
      ensures Linked() && fresh(files - old(files)) && State() == Extended(Rolled(old(State())), more)
    {
      RollActiveSegment();
      assert Size(k, []) == 0;
      AppendHere(more);
    }

    method AppendStorable(more: seq<LogEntry>)
      requires Valid() && Storable(more)
      modifies this, files
      ensures Linked() && fresh(files - old(files)) && Sound(State()) && strays == old(strays)
      ensures Seen(State()) == Seen(old(State())).Append(more)
      ensures |segs| == |old(segs)| + if old(active.Fits(more)) then 0 else 1
    {
      var roll := active.ShouldRoll(more);
      AppendKeeps(State(), Appended(State(), roll, more), roll, more);
      if roll {
        AppendRolled(more);
      } else {
        AppendHere(more);
      }
    }

    method AppendEntries(more: seq<LogEntry>) returns (ok: bool)
      requires Valid() && FitsEmpty(more) && LogView.Contiguous(more)
      requires forall j :: 0 <= j < |more| ==> KeyOk(k, more[j])
      modifies this, files
      ensures Valid() && fresh(files - old(files)) && strays == old(strays)
      ensures ok <==> more == [] || more[0].index == old(lastIndex) + 1
      ensures Contents() == if ok then old(Contents()).Append(more) else old(Contents())
      // a new segment is begun exactly for a batch that does not fit behind the entries of the active one
      ensures |segs| == |old(segs)| + if ok && more != [] && !old(active.Fits(more)) then 1 else 0
    {
      if more == [] {
        return true;
      }
      if more[0].index != lastIndex + 1 {
        return false;
      }
      AppendStorable(more);
      return true;
    }

    // -------------------------------------------------------------- read

    /** The segment that holds an index, found as the last one that does not begin behind it. */
    method GetSegment(index: nat) returns (s: LogSegment?, ghost i: nat)
      requires Valid()
      ensures s == null <==> !(firstIndex <= index <= lastIndex)
      ensures s != null ==> Owner(segs, index, i) && Holds(s, segs[i]) && Owned(s)
      ensures s != null ==> s == if i < |closed| then closed[i] else active
    {
      i := |closed|;
      if index < firstIndex || index > lastIndex {
        return null, i;
      }
      if index >= active.first {
        return active, i;
      }
      var j := |closed|;
      while closed[j - 1].first > index
        invariant 0 < j <= |closed| && index < segs[j].first
        decreases j
      {
        assert ClosedOk(j - 1);
        j := j - 1;
      }
      i := j - 1;
      assert ClosedOk(i);
      s := closed[j - 1];
    }

    method GetEntry(index: nat) returns (entry: Option<LogEntry>)
      requires Valid()
      modifies files
      ensures Valid() && entry == Contents().Entry(index)
    {
      var s, i := GetSegment(index);
      SeenLast(State());
      if s == null {
        return None;
      }
      LookupSeen(State(), index, i);
      entry := s.GetEntry(index);
      forall j: nat | j < |closed| ensures ClosedOk(j) {
        assert old(ClosedOk(j));
      }
    }

    /** The index before the first answers with term 0. */
    method GetTerm(index: nat) returns (term: Option<nat>)
      requires Valid()
      ensures index + 1 != firstIndex ==> term == Contents().Term(index)
      ensures index + 1 == firstIndex ==> term == Some(0)
    {
      if index == firstIndex - 1 {
        return Some(0);
      }
      var s, i := GetSegment(index);
      SeenLast(State());
      if s == null {
        return None;
      }
      LookupSeen(State(), index, i);
      term := s.GetTerm(index);
    }

    method ReadFrom(s: LogSegment, ghost i: nat, start: nat, maxLen: nat, maxCount: nat) returns (es: seq<LogEntry>)
      requires Linked() && i <= |closed| && s == (if i < |closed| then closed[i] else active) && Holds(s, segs[i])
      requires segs[i].first <= start <= segs[i].Last()
      modifies s`recentKey
      ensures Linked() && es == Batch(k, segs[i].entries[start - segs[i].first..], maxLen, maxCount)
    {
      es := s.GetEntries(start, maxLen, maxCount);
      forall j: nat | j < |closed| ensures ClosedOk(j) {
        assert old(ClosedOk(j));
      }
    }

    method GetEntries(start: nat, maxLen: nat, maxCount: nat) returns (es: seq<LogEntry>)
      requires Valid() && start <= lastIndex + 1
      modifies files
      ensures Valid() && Contents() == old(Contents())
      ensures firstIndex <= start <= lastIndex ==>
                exists i :: Owner(segs, start, i) && BatchFrom(k, State(), start, maxLen, maxCount, i, es)
      ensures start < firstIndex || start > lastIndex ==> es == []
    {
      if start > lastIndex {
        return [];
      }
      var s, i := GetSegment(start);
      if s == null {
        return [];
      }
      PartBatch(k, State(), start, i, maxLen, maxCount);
      es := ReadFrom(s, i, start, maxLen, maxCount);
    }

    // -------------------------------------------------------------- truncate

    /** Lets go of the first closed segment; its files stay on disk. */
    method ReleaseFirst()
      requires Linked() && closed != [] && segs[0].entries != []
      modifies this`closed, this`retained, this`segs
      ensures Linked() && closed == old(closed)[1..]
      ensures segs == old(segs)[1..]
      ensures retained == old(retained) + [Name(old(segs)[0].first, old(segs)[0].Last())]
    {
      assert ClosedOk(0);
      retained := retained + [Name(closed[0].first, closed[0].last)];
      closed := closed[1..];
      segs := segs[1..];
      forall i: nat | i < |closed| ensures ClosedOk(i) {
        assert old(ClosedOk(i + 1));
      }
    }

    method ReleaseClosed(kept: nat) returns (ghost j: nat)
      requires Linked() && forall i :: 0 <= i < |closed| ==> segs[i].entries != []
      modifies this`closed, this`retained, this`segs
      ensures Linked() && j == FirstKept(old(segs), kept, 0)
      ensures segs == old(segs)[j..]
      ensures retained == old(retained) + Names(old(segs)[..j])
    {
      ghost var all := segs;
      j := 0;
      while closed != [] && closed[0].last < kept
        invariant Linked() && j < |all| && segs == all[j..]
        invariant forall n {:trigger all[n]} :: 0 <= n < j ==> all[n].Last() < kept
        invariant retained == old(retained) + Names(all[..j])
        decreases closed
      {
        assert ClosedOk(0) && segs[0] == all[j];
        ReleaseFirst();
        assert all[..j + 1][..j] == all[..j];
        j := j + 1;
      }
      assert closed != [] ==> ClosedOk(0);
      FirstKeptIs(all, kept, 0, j);
    }

    /** Starts a new active segment and forgets the old one, whose file keeps its name. */
    method ResetActive()
      requires Linked() && closed == [] && 1 <= firstIndex
      modifies this`active, this`lastIndex, this`strays, this`files, this`segs
      ensures Linked() && fresh(files - old(files))
      ensures lastIndex == firstIndex - 1 && strays == old(strays) + {old(segs)[0].first} - {firstIndex}
      ensures segs == [Seg(firstIndex, [])]
    {
      var was := active.first;
      lastIndex := firstIndex - 1;
      var s := new LogSegment.Create(k, lastIndex + 1, dataLimit, metaLimit);
      active := s;
      files := files + {s, s.meta, s.data};
      strays := strays + {was} - {firstIndex};
      segs := [Seg(firstIndex, [])];
    }

    method RestartIfBehind()
      requires Linked() && 1 <= firstIndex
      modifies this`active, this`lastIndex, this`strays, this`files, this`segs
      ensures Linked() && fresh(files - old(files)) && State() == Restarted(old(State()))
    {
      if closed == [] && active.last < firstIndex {
        ResetActive();
      }
    }

    method ReleaseBefore(kept: nat)
      requires Linked() && forall i :: 0 <= i < |closed| ==> segs[i].entries != []
      modifies this`firstIndex, this`storedFirst, this`closed, this`retained, this`segs
      ensures Linked() && State() == Released(old(State()), kept)
    {
      storedFirst := kept;
      firstIndex := kept;
      ghost var j := ReleaseClosed(kept);
    }

    method CutPrefix(kept: nat)
      requires Linked() && kept > firstIndex
      requires forall i :: 0 <= i < |closed| ==> segs[i].entries != []
      modifies this
      ensures Linked() && fresh(files - old(files)) && State() == PrefixCut(old(State()), kept)
    {
      ReleaseBefore(kept);
      RestartIfBehind();
    }

    method TruncatePrefix(kept: nat)
      requires Valid()
      modifies this
      ensures Valid() && fresh(files - old(files))
      ensures Contents() == old(Contents()).CutPrefix(kept)
      ensures old(active.first) <= old(lastIndex) + 1
      ensures strays == if kept <= old(firstIndex) || kept <= old(lastIndex) || kept <= old(active.first) then old(strays)
                        else old(strays) + {old(active.first)}
      ensures strays == old(strays) <==> kept <= old(lastIndex) || kept <= old(active.first)
      // closed segments that end before the index kept are let go
      ensures kept > old(firstIndex) && closed != [] ==> kept <= segs[0].Last()
    {
      PrefixCutKeeps(State(), PrefixCut(State(), kept), kept);
      PrefixCutStrays(State(), PrefixCut(State(), kept), kept, active.first);
      if firstIndex >= kept {
        return;
      }
      CutPrefix(kept);
    }

    /** Drops the active segment. */
    method DropActive(first: nat)
      requires Linked() && 1 <= first
      modifies this`active, this`files, this`segs, this`strays
      ensures Linked() && fresh(files - old(files)) && strays == old(strays) - {first}
      ensures segs == old(segs)[..|closed|] + [Seg(first, [])]
    {
      strays := strays - {first};
      var s := new LogSegment.Create(k, first, dataLimit, metaLimit);
      active := s;
      files := files + {s, s.meta, s.data};
      segs := segs[..|closed|] + [Seg(first, [])];
      forall i: nat | i < |closed| ensures ClosedOk(i) {
        assert old(ClosedOk(i));
      }
    }

    /** Cuts the active segment. */
    method CutActive(kept: nat)
      requires Linked() && segs[|closed|].first <= kept
      modifies this`segs, active, active.meta
      ensures Linked() && segs == old(segs)[..|closed|] + [CutSeg(old(segs)[|closed|], kept)]
    {
      active.TruncateSuffix(kept);
      segs := segs[..|closed|] + [CutSeg(segs[|closed|], kept)];
      forall i: nat | i < |closed| ensures ClosedOk(i) {
        assert old(ClosedOk(i));
      }
    }

    /** Cuts the last closed segment. */
    method CutLastClosed(kept: nat)
      requires Linked() && closed != [] && segs[|closed| - 1].first <= kept
      modifies this`segs, closed[|closed| - 1], closed[|closed| - 1].meta
      ensures Linked()
      ensures segs == old(segs)[|closed| - 1 := CutSeg(old(segs)[|closed| - 1], kept)]
    {
      var n := |closed| - 1;
      assert ClosedOk(n);
      closed[n].TruncateSuffix(kept);
      segs := segs[n := CutSeg(segs[n], kept)];
      forall i: nat | i < |closed| ensures ClosedOk(i) {
        assert old(ClosedOk(i));
      }
    }

    method DropLastClosed()
      requires Linked() && closed != []
      modifies this`closed, this`segs
      ensures Linked() && closed == old(closed)[..|old(closed)| - 1]
      ensures segs == old(segs)[..|closed|] + [old(segs)[|old(closed)|]]
    {
      ghost var n := |closed| - 1;
      closed := closed[..|closed| - 1];
      segs := segs[..n] + [segs[n + 1]];
      forall i: nat | i < |closed| ensures ClosedOk(i) {
        assert old(ClosedOk(i));
      }
    }

    /** Drops the closed segments that begin behind `kept`, from the last one on. */
    method DropClosed(kept: nat)
      requires Linked() && segs[|closed|].first > kept
      modifies this`closed, this`segs
      ensures Linked() && |closed| <= |old(closed)|
      ensures |closed| == Reaching(old(segs), kept) && segs == old(segs)[..|closed|] + [old(segs)[|old(closed)|]]
    {
      ghost var all := segs;
      while closed != [] && closed[|closed| - 1].first > kept
        invariant Linked() && |closed| <= |old(closed)|
        invariant segs == all[..|closed|] + [all[|old(closed)|]]
        invariant forall i {:trigger all[i]} :: |closed| <= i < |all| ==> all[i].first > kept
        decreases closed
      {
        assert ClosedOk(|closed| - 1) && segs[|closed| - 1] == all[|closed| - 1];
        DropLastClosed();
      }
      assert closed != [] ==> ClosedOk(|closed| - 1);
      ReachingIs(all, kept, |closed|);
    }

    /** The active segment reaches `kept`: it is cut, or dropped if nothing of the log is left in it. */
    method CutInActive(kept: nat)
      requires Linked() && segs[|closed|].first <= kept
      modifies this`active, this`files, this`segs, this`strays, active, active.meta
      ensures Linked() && fresh(files - old(files))
      ensures segs == SuffixCutSegs(old(segs), firstIndex, kept, |old(segs)|)
      ensures strays == if firstIndex <= kept then old(strays) else old(strays) - {kept + 1}
    {
      if firstIndex <= kept {
        CutActive(kept);
      } else {
        DropActive(kept + 1);
      }
    }

    /** The last closed segment reaches `kept`. */
    method CutInLastClosed(kept: nat)
      requires Linked() && closed != [] && segs[|closed| - 1].first <= kept
      modifies this`closed, this`segs, closed[|closed| - 1], closed[|closed| - 1].meta
      ensures Linked()
      ensures segs[..|closed|] + [Seg(kept + 1, [])] == SuffixCutSegs(old(segs), firstIndex, kept, |old(closed)|)
    {
      if firstIndex <= kept {
        CutLastClosed(kept);
      } else {
        DropLastClosed();
      }
    }

    /** Drops what begins behind `kept`, and cuts the last segment left. */
    method DropBehind(kept: nat)
      requires Linked() && segs[|closed|].first > kept
      modifies this`closed, this`segs, this`firstIndex, files
      ensures Linked() && Reaching(old(segs), kept) < |old(segs)|
      ensures firstIndex == if Reaching(old(segs), kept) == 0 then kept + 1 else old(firstIndex)
      ensures segs[..|closed|] + [Seg(kept + 1, [])]
              == SuffixCutSegs(old(segs), old(firstIndex), kept, Reaching(old(segs), kept))
    {
      DropClosed(kept);
      if closed == [] {
        firstIndex := kept + 1;
      } else {
        assert ClosedOk(|closed| - 1);
        CutInLastClosed(kept);
      }
    }

    /** The active segment begins behind `kept`: it is dropped too, and a new one takes its place. */
    method CutInClosed(kept: nat)
      requires Linked() && segs[|closed|].first > kept
      modifies this`closed, this`active, this`files, this`segs, this`strays, this`firstIndex, files
      ensures Linked() && fresh(files - old(files)) && Reaching(old(segs), kept) < |old(segs)|
      ensures strays == old(strays) - {kept + 1}
      ensures firstIndex == if Reaching(old(segs), kept) == 0 then kept + 1 else old(firstIndex)
      ensures segs == SuffixCutSegs(old(segs), old(firstIndex), kept, Reaching(old(segs), kept))
    {
      DropBehind(kept);
      DropActive(kept + 1);
    }

    method CutSuffix(kept: nat)
      requires Linked() && kept < lastIndex
      modifies this, files
      ensures Linked() && fresh(files - old(files)) && State() == SuffixCut(old(State()), kept)
    {
      lastIndex := kept;
      if active.first <= kept {
        ReachingIs(segs, kept, |segs|);
        CutInActive(kept);
      } else {
        CutInClosed(kept);
      }
    }

    method TruncateSuffix(kept: nat)
      requires Valid()
      modifies this, files
      ensures Linked() && fresh(files - old(files)) && State() == SuffixCut(old(State()), kept)
      ensures Valid() <==> old(firstIndex) <= kept + 1
      ensures old(firstIndex) <= kept + 1 ==>
                Contents() == old(Contents()).CutSuffix(kept) && firstIndex == old(firstIndex) && strays == old(strays)
    {
      SuffixCutSoundIff(State(), SuffixCut(State(), kept), kept);
      if firstIndex <= kept + 1 {
        SuffixCutKeeps(State(), SuffixCut(State(), kept), kept);
      }
      if lastIndex <= kept {
        return;
      }
      CutSuffix(kept);
    }

    // -------------------------------------------------------------- close and reopen

    /** Closed segment i is open again, over the files it had in the log that was closed. */
    ghost predicate ReopenedAt(dir: SegmentedLog, i: nat)
      reads this`closed, this`active, this`files, files, dir, dir.files
    {
      && i < |closed| && i < |dir.closed| && i < |dir.segs|
      && Owned(closed[i]) && Holds(closed[i], dir.segs[i]) && !closed[i].active
      && closed[i].meta == dir.closed[i].meta && closed[i].data == dir.closed[i].data
      && closed[i] != active && forall j :: i < j < |closed| ==> closed[i] != closed[j]
    }

    /** The first closed segments are open again, and the active one. */
    ghost predicate Reopening(dir: SegmentedLog)
      reads this`closed, this`active, this`files, files, dir, dir.files
    {
      && dir != this && this !in dir.files && dir.Linked() && this !in files && k == dir.k
      && (forall i: nat {:trigger ReopenedAt(dir, i)} :: i < |closed| ==> ReopenedAt(dir, i))
      && Owned(active) && Holds(active, dir.segs[|dir.closed|]) && active.active
      && active.meta == dir.active.meta && active.data == dir.active.data
    }

    method OpenClosed(dir: SegmentedLog, i: nat)
      requires Reopening(dir) && i == |closed| < |dir.closed|
      modifies this`closed, this`files
      ensures Reopening(dir) && |closed| == i + 1
      ensures fresh(files - old(files) - dir.files)
    {
      assert dir.ClosedOk(i);
      var f := dir.closed[i];
      var s := new LogSegment.Open(k, f.first, f.last, false, f.meta, f.data, f.metaLimit, f.entries);
      closed := closed + [s];
      files := files + {s, s.meta, s.data};
      forall j: nat | j < |closed| ensures ReopenedAt(dir, j) {
        assert j < i ==> old(ReopenedAt(dir, j));
      }
    }

    method RecoverClosed(dir: SegmentedLog)
      requires dir.Valid() && Reopening(dir) && closed == [] && retained == [] && firstIndex == dir.firstIndex
      modifies this`closed, this`retained, this`files, this`lastIndex
      ensures Reopening(dir) && |closed| == |dir.closed| && retained == dir.retained
      ensures lastIndex == if closed == [] then old(lastIndex) else dir.segs[|closed| - 1].Last()
      ensures fresh(files - old(files) - dir.files)
    {
      var n := |dir.retained|;
      var i := 0;
      while i < n + |dir.closed|
        invariant 0 <= i <= n + |dir.closed| && Reopening(dir)
        invariant retained == dir.retained[..Min(i, n)] && |closed| == i - Min(i, n)
        invariant lastIndex == if closed == [] then old(lastIndex) else dir.segs[|closed| - 1].Last()
        invariant fresh(files - old(files) - dir.files)
      {
        if i >= n {
          assert dir.ClosedOk(i - n);
        }
        var name := if i < n then dir.retained[i] else Name(dir.closed[i - n].first, dir.closed[i - n].last);
        assert name.first <= name.last;
        assert closed != [] ==> LinkAt(dir.segs, |closed| - 1) && name.first == lastIndex + 1;
        assert closed == [] ==> firstIndex >= name.first;
        if closed == [] && firstIndex > name.last {
          retained := retained + [name];
        } else {
          OpenClosed(dir, i - n);
          lastIndex := name.last;
        }
        i := i + 1;
      }
    }

    method RecoverActive(dir: SegmentedLog)
      requires dir.Valid() && Reopening(dir) && |closed| == |dir.closed| && segs == dir.segs
      requires firstIndex == dir.firstIndex && dataLimit == dir.dataLimit && metaLimit == dir.metaLimit
      requires lastIndex == if closed == [] then 0 else dir.segs[|closed| - 1].Last()
      requires strays == {}
      modifies this`active, this`files, this`segs, this`lastIndex, this`strays
      ensures Linked() && segs == dir.segs && lastIndex == dir.lastIndex && strays == {}
      ensures fresh(files - old(files) - dir.files)
    {
      assert closed == [] ==> firstIndex >= active.first;
      assert closed != [] ==> LinkAt(segs, |closed| - 1) && active.first == lastIndex + 1;
      forall i: nat | i < |closed| ensures ClosedOk(i) {
        assert ReopenedAt(dir, i) && dir.ClosedOk(i);
        forall j | i < j < |closed| ensures Apart(closed[i], closed[j]) {
          assert ReopenedAt(dir, j);
        }
      }
      if firstIndex > active.last {
        FirstsGrow(segs, 0, |closed|);
        if lastIndex == 0 {
          lastIndex := firstIndex - 1;
        }
        assert segs == [Seg(firstIndex, [])];
        DropActive(lastIndex + 1);
      } else {
        lastIndex := active.last;
      }
    }

    method Recover(dir: SegmentedLog)
      requires dir.Valid() && Reopening(dir) && closed == [] && retained == [] && segs == dir.segs
      requires firstIndex == storedFirst == dir.storedFirst && lastIndex == 0 && strays == dir.strays == {}
      requires dataLimit == dir.dataLimit && metaLimit == dir.metaLimit
      modifies this
      ensures Linked() && State() == dir.State() && fresh(files - old(files) - dir.files)
    {
      RecoverClosed(dir);
      RecoverActive(dir);
    }

    /** Reads the directory a log has left behind when it was closed: the file first_index, the names of
        the closed files, and the files. Nothing else of `dir` is looked at. */
    constructor Restore(dir: SegmentedLog)
      requires dir.Valid() && dir.strays == {}
      ensures k == dir.k && dataLimit == dir.dataLimit && metaLimit == dir.metaLimit
      ensures Valid() && State() == dir.State() && Contents() == dir.Contents()
      ensures fresh(files - dir.files)
    {
      k, dataLimit, metaLimit := dir.k, dir.dataLimit, dir.metaLimit;
      firstIndex, lastIndex, storedFirst, strays := dir.storedFirst, 0, dir.storedFirst, {};
      closed, retained := [], [];
      segs := dir.segs;
      var s := new LogSegment.Open(dir.k, dir.active.first, 0, true,
                                   dir.active.meta, dir.active.data, dir.active.metaLimit, dir.active.entries);
      active := s;
      files := {s, s.meta, s.data};
      new;
      Recover(dir);
    }

    /** listSegments() asserts that it comes across one in-progress file only. */
    static method OneInProgress(names: set<nat>) returns (ok: bool)
      ensures ok <==> |names| <= 1
    {
      var rest, found := names, false;
      while rest != {}
        invariant rest <= names && |names| == |rest| + if found then 1 else 0
        decreases rest
      {
        if found {
          return false;
        }
        var name :| name in rest;
        rest, found := rest - {name}, true;
      }
      return true;
    }

    /** Opens the log again; null stands for a start that fails an assertion. */
    static method Reopen(dir: SegmentedLog) returns (log: SegmentedLog?)
      requires dir.Valid()
      ensures log == null <==> dir.strays != {}
      ensures log != null ==>
                && fresh(log) && log.k == dir.k && log.dataLimit == dir.dataLimit && log.metaLimit == dir.metaLimit
                && log.Valid() && log.State() == dir.State() && log.Contents() == dir.Contents()
                && fresh(log.files - dir.files)
    {
      var names := dir.strays + {dir.active.first};
      FirstsGrow(dir.segs, 0, |dir.closed|);
      assert |names| == |dir.strays| + 1;
      var ok := OneInProgress(names);
      if !ok {
        return null;
      }
      log := new SegmentedLog.Restore(dir);
    }
  }
}
