/** What a log is to its user: the entries from a first index on. Both log classes compute these. */
module LogView {
  import opened Common
  import opened RaftTypes
  import opened SegmentFile

  datatype View = View(first: nat, entries: seq<LogEntry>)
  {
    function Last(): int { first + |entries| - 1 }

    function Entry(index: nat): Option<LogEntry> {
      if first <= index <= Last() then Some(entries[index - first]) else None
    }

    function Term(index: nat): Option<nat> {
      if first <= index <= Last() then Some(entries[index - first].term) else None
    }

    function Append(more: seq<LogEntry>): View {
      this.(entries := entries + more)
    }

    function CutPrefix(kept: nat): View {
      if kept <= first then this
      else if kept > Last() then View(kept, [])
      else View(kept, entries[kept - first..])
    }

    function CutSuffix(kept: nat): View {
      if Last() <= kept then this
      else if kept < first then View(kept + 1, [])
      else View(first, entries[..kept + 1 - first])
    }
  }

  predicate Contiguous(more: seq<LogEntry>) {
    forall j :: 0 <= j < |more| ==> more[j].index == more[0].index + j
  }

  // What the three changes do to the entry at every index.

  lemma AppendIs(v: View, more: seq<LogEntry>, index: nat)
    ensures var v' := v.Append(more);
            && v'.first == v.first && v'.Last() == v.Last() + |more|
            && (index <= v.Last() ==> v'.Entry(index) == v.Entry(index))
            && (v.first <= index && v.Last() < index <= v.Last() + |more| ==> v'.Entry(index) == Some(more[index - v.Last() - 1]))
            && (index > v.Last() + |more| ==> v'.Entry(index) == None)
  {
  }

  lemma CutPrefixIs(v: View, kept: nat, index: nat)
    ensures var v' := v.CutPrefix(kept);
            && v'.Entry(index) == (if index < kept then None else v.Entry(index))
            && v'.first == (if kept <= v.first then v.first else kept)
            && v'.Last() == (if kept <= v.first || kept <= v.Last() then v.Last() else kept - 1)
  {
  }

  lemma CutSuffixIs(v: View, kept: nat, index: nat)
    ensures var v' := v.CutSuffix(kept);
            && v'.Entry(index) == (if index > kept then None else v.Entry(index))
            && v'.Last() == (if v.Last() <= kept then v.Last() else kept)
            && v'.first == (if v.Last() > kept && kept < v.first then kept + 1 else v.first)
  {
  }
}
