/** The log kept in a vector, which serves as the specification of the segmented one. */
module InMemoryLog {
  import opened Common
  import opened RaftTypes
  import opened SegmentFile
  import opened LogView

  /** The entries up to the first one that does not continue the log. */
  function Continuing(last: nat, more: seq<LogEntry>): (good: seq<LogEntry>)
    ensures good <= more
    ensures forall j :: 0 <= j < |good| ==> good[j].index == last + 1 + j
    ensures |good| < |more| ==> more[|good|].index != last + 1 + |good|
    decreases |more|
  {
    if more == [] || more[0].index != last + 1 then [] else [more[0]] + Continuing(last + 1, more[1..])
  }

  lemma {:induction false} ContinuingIs(last: nat, more: seq<LogEntry>, n: nat)
    requires n <= |more| && forall j :: 0 <= j < n ==> more[j].index == last + 1 + j
    requires n < |more| ==> more[n].index != last + 1 + n
    ensures Continuing(last, more) == more[..n]
    decreases n
  {
    if n > 0 {
      assert n < |more| ==> more[1..][n - 1] == more[n];
      ContinuingIs(last + 1, more[1..], n - 1);
      assert more[..n] == [more[0]] + more[1..][..n - 1];
    }
  }

  class MemoryLog {
    var log: seq<LogEntry>
    var firstIndex: nat
    var lastIndex: nat

    predicate Valid()
      reads this
    {
      1 <= firstIndex && lastIndex + 1 == firstIndex + |log|
    }

    function Contents(): View
      reads this
    {
      View(firstIndex, log)
    }

    constructor ()
      ensures Valid() && Contents() == View(1, [])
    {
      log, firstIndex, lastIndex := [], 1, 0;
    }

    method AppendEntry(entry: LogEntry) returns (ok: bool)
      requires Valid()
      modifies this
      ensures Valid() && ok == (entry.index == old(Contents()).Last() + 1)
      ensures Contents() == if ok then old(Contents()).Append([entry]) else old(Contents())
    {
      if lastIndex + 1 != entry.index {
        return false;
      }
      lastIndex := lastIndex + 1;
      log := log + [entry];
      return true;
    }

    /** Stops at the first entry that does not continue the log; what came before it stays. */
    method AppendEntries(more: seq<LogEntry>) returns (ok: bool)
      requires Valid()
      modifies this
      ensures Valid()
      ensures Contents() == old(Contents()).Append(Continuing(old(lastIndex), more))
      ensures ok <==> |Continuing(old(lastIndex), more)| == |more|
    {
      var i := 0;
      while i < |more|
        invariant 0 <= i <= |more| && Valid() && lastIndex == old(lastIndex) + i
        invariant Contents() == old(Contents()).Append(more[..i])
        invariant forall j :: 0 <= j < i ==> more[j].index == old(lastIndex) + 1 + j
      {
        ok := AppendEntry(more[i]);
        if !ok {
          ContinuingIs(old(lastIndex), more, i);
          return;
        }
        assert more[..i + 1] == more[..i] + [more[i]];
        i := i + 1;
      }
      assert more[..i] == more;
      ContinuingIs(old(lastIndex), more, i);
      return true;
    }

    /** Index 0 answers with a dummy of term 0. */
    method GetEntry(index: nat) returns (entry: Option<LogEntry>)
      requires Valid()
      ensures index >= 1 ==> entry == Contents().Entry(index)
      ensures index == 0 ==> entry == Some(LogEntry(0, 0, false, []))
    {
      if index == 0 {
        return Some(LogEntry(0, 0, false, []));
      }
      if index < firstIndex || index > lastIndex {
        return None;
      }
      return Some(log[index - firstIndex]);
    }

    method GetTerm(index: nat) returns (term: Option<nat>)
      requires Valid()
      ensures index >= 1 ==> term == Contents().Term(index)
      ensures index == 0 ==> term == Some(0)
    {
      if index == 0 {
        return Some(0);
      }
      if index < firstIndex || index > lastIndex {
        return None;
      }
      return Some(log[index - firstIndex].term);
    }

    method GetEntries(k: Codec, start: nat, maxLen: nat, maxCount: nat) returns (es: seq<LogEntry>)
      requires Valid() && firstIndex <= start <= lastIndex + 1
      ensures es == Batch(k, log[start - firstIndex..], maxLen, maxCount)
    {
      ghost var rest := log[start - firstIndex..];
      es := [];
      if start > lastIndex {
        BatchIs(k, rest, maxLen, maxCount, 0);
        return;
      }
      var limit := Min(maxCount, lastIndex + 1 - start);
      var len := 0;
      while |es| < limit
        invariant |es| <= limit && es == rest[..|es|] && len == Offset(k, rest, |es|) <= maxLen
        decreases limit - |es|
      {
        var e := log[start + |es| - firstIndex];
        assert e == rest[|es|];
        var size := |k.encode(e)|;
        if len + size > maxLen {
          break;
        }
        len := len + size;
        es := es + [e];
      }
      BatchIs(k, rest, maxLen, maxCount, |es|);
    }

    method TruncatePrefix(kept: nat)
      requires Valid()
      modifies this
      ensures Valid() && Contents() == old(Contents()).CutPrefix(kept)
    {
      if firstIndex >= kept {
        return;
      }
      var prev := firstIndex;
      firstIndex := kept;
      if firstIndex > lastIndex {
        lastIndex := firstIndex - 1;
        log := [];
      } else {
        log := log[firstIndex - prev..];
      }
    }

    method TruncateSuffix(kept: nat)
      requires Valid()
      modifies this
      ensures Valid() && Contents() == old(Contents()).CutSuffix(kept)
    {
      if lastIndex <= kept {
        return;
      }
      lastIndex := kept;
      if lastIndex < firstIndex {
        firstIndex := lastIndex + 1;
        log := [];
      } else {
        log := log[..lastIndex + 1 - firstIndex];
      }
    }
  }
}
