/** One segment of the log: a pair of memory-mapped files, written behind what they already hold. */
module Segment {
  import opened Common
  import opened RaftTypes
  import opened SegmentFile

  /** The position j places after `start` in a ring of n. */
  ghost function Around(start: nat, j: nat, n: nat): (p: nat)
    requires start < n
    ensures p < n
  {
    if j == 0 then start
    else if Around(start, j - 1, n) + 1 == n then 0
    else Around(start, j - 1, n) + 1
  }

  /** Where the j-th attempt of a search that starts at `start` looks. */
  method Attempt(start: nat, j: nat, n: nat) returns (p: nat)
    requires start < n && j < n
    ensures p == Around(start, j, n)
  {
    p := (start + j + n) % n;
    AroundSum(start, j, n);
    if start + j < n {
      RemainderOf(1, n, start + j);
    } else {
      RemainderOf(2, n, start + j - n);
    }
  }

  lemma {:induction false} AroundSum(start: nat, j: nat, n: nat)
    requires start < n && j < n
    ensures Around(start, j, n) == if start + j < n then start + j else start + j - n
  {
    if j > 0 {
      AroundSum(start, j - 1, n);
    }
  }

  /** Starting anywhere, every position is tried in one round. */
  lemma AllTried(start: nat, n: nat, p: nat) returns (j: nat)
    requires start < n && p < n
    ensures j < n && Around(start, j, n) == p
  {
    j := if start <= p then p - start else p + n - start;
    AroundSum(start, j, n);
  }

  lemma RemainderOf(q: nat, n: nat, p: nat)
    requires p < n
    ensures (n * q + p) % n == p
  {
    var x := n * q + p;
    OneQuotient(n, x / n, x % n, q, p);
  }

  lemma OneQuotient(n: nat, d: nat, r: nat, q: nat, p: nat)
    requires r < n && p < n && n * d + r == n * q + p
    ensures d == q && r == p
  {
    if d < q {
      TimesGrows(n, d + 1, q);
    } else if q < d {
      TimesGrows(n, q + 1, d);
    }
  }

  lemma TimesGrows(n: nat, a: nat, b: nat)
    requires a <= b
    ensures n * a <= n * b
  {
    assert n * b == n * a + n * (b - a);
  }

  method FindKey(k: Codec, index: nat, message: Bytes, digest: Bytes, recent: nat) returns (found: Option<nat>)
    requires digest != [] && recent < |k.versions|
    ensures found.Some? ==> found.value < |k.versions| && k.hmac(index, message, k.versions[found.value]) == digest
    ensures found.None? ==> forall v :: v in k.versions ==> k.hmac(index, message, v) != digest
  {
    var n := |k.versions|;
    var i := 0;
    while i < n
      invariant 0 <= i <= n
      invariant forall j: nat {:trigger Around(recent, j, n)} ::
                  j < i ==> k.hmac(index, message, k.versions[Around(recent, j, n)]) != digest
    {
      var tried := Attempt(recent, i, n);
      var actual := k.hmac(index, message, k.versions[tried]);
      if actual != [] && actual == digest {
        return Some(tried);
      }
      i := i + 1;
    }
    forall v | v in k.versions ensures k.hmac(index, message, v) != digest {
      var p :| 0 <= p < n && k.versions[p] == v;
      var j := AllTried(recent, n, p);
    }
    return None;
  }

  class LogSegment {
    const k: Codec
    const first: nat
    const meta: array<LogMeta>   // the meta file, slot by slot
    const data: array<Byte>      // the data file
    const metaLimit: nat         // size of the meta file in bytes
    var last: nat                // first - 1 for an empty segment
    var metaOffset: nat
    var dataOffset: nat
    var active: bool
    var recentKey: nat           // where the search for an HMAC key starts
    ghost var entries: seq<LogEntry>

    ghost predicate Valid()
      reads this, meta, data
    {
      && Faithful(k) && Stores(k, first, meta[..], data[..], entries)
      && meta.Length == metaLimit / META_SIZE
      && last + 1 == first + |entries|
      && metaOffset == |entries| * META_SIZE && dataOffset == Size(k, entries)
      && (k.enabled ==> recentKey < |k.versions|)
    }

    /** Whether the entries find room behind what is there. */
    ghost predicate Fits(es: seq<LogEntry>)
      reads this
    {
      |entries| + |es| <= meta.Length && Size(k, entries) + Size(k, es) <= data.Length
    }

    /** An active segment over newly created files, which are all zero. */
    constructor Create(k: Codec, first: nat, dataLimit: nat, metaLimit: nat)
      requires 1 <= first && Faithful(k)
      ensures Valid() && entries == [] && active && fresh(meta) && fresh(data)
      ensures this.k == k && this.first == first && this.metaLimit == metaLimit && data.Length == dataLimit
    {
      this.k, this.first, this.metaLimit := k, first, metaLimit;
      meta := new LogMeta[metaLimit / META_SIZE](_ => ZERO_META);
      data := new Byte[dataLimit](_ => 0);
      last, metaOffset, dataOffset, active, recentKey := first - 1, 0, 0, true, 0;
      entries := [];
    }

    /** A segment over existing files. The name of closed files tells the last index, and the scan of
        the slots must agree; for active files only the scan tells. */
    constructor Open(k: Codec, first: nat, namedLast: nat, active: bool,
                     meta: array<LogMeta>, data: array<Byte>, metaLimit: nat, ghost es: seq<LogEntry>)
      requires Faithful(k) && Stores(k, first, meta[..], data[..], es) && meta.Length == metaLimit / META_SIZE
      requires !active ==> namedLast + 1 == first + |es|
      ensures Valid() && entries == es && this.active == active
      ensures this.k == k && this.first == first && this.metaLimit == metaLimit
      ensures this.meta == meta && this.data == data
    {
      this.k, this.first, this.metaLimit, this.meta, this.data := k, first, metaLimit, meta, data;
      this.last, this.active, this.recentKey := namedLast, active, 0;
      this.entries := es;
      new;
      var pos := 0;
      var lastIndex := first - 1;
      forall i: nat | i < meta.Length ensures meta[i].index == first + i <==> i < |es| {
        ScanStops(k, first, meta[..], data[..], es, i);
      }
      while pos < metaLimit / META_SIZE && meta[pos].index == lastIndex + 1
        invariant 0 <= pos <= |es| && lastIndex + 1 == first + pos
        decreases meta.Length - pos
      {
        pos := pos + 1;
        lastIndex := lastIndex + 1;
      }
      assert pos == |es|;
      assert active || lastIndex == namedLast;
      this.last := lastIndex;
      this.metaOffset := (this.last + 1 - first) * META_SIZE;
      if this.last + 1 == first {
        this.dataOffset := 0;
      } else {
        assert SlotOk(k, first, meta[..], data[..], es, |es| - 1);
        this.dataOffset := meta[this.last - first].offset + meta[this.last - first].length;
      }
    }

    method CloseActive()
      requires Valid() && active
      modifies this`active
      ensures Valid() && !active
    {
      active := false;
    }

    // -------------------------------------------------------------- writing

    method ShouldRoll(es: seq<LogEntry>) returns (roll: bool)
      requires Valid() && active
      ensures roll <==> !Fits(es)
    {
      var metaLen := |es| * META_SIZE;
      if metaOffset + metaLen > metaLimit {
        return true;
      }
      var dataLen := 0;
      var i := 0;
      while i < |es|
        invariant 0 <= i <= |es| && dataLen == Offset(k, es, i)
      {
        dataLen := dataLen + |k.encode(es[i])|;
        i := i + 1;
      }
      roll := dataOffset + dataLen > data.Length;
    }

    method PutBytes(at: nat, b: Bytes)
      requires at + |b| <= data.Length
      modifies data
      ensures data[..] == old(data[..])[..at] + b + old(data[..])[at + |b|..]
    {
      var i := 0;
      while i < |b|
        invariant 0 <= i <= |b|
        invariant data[..] == old(data[..])[..at] + b[..i] + old(data[..])[at + i..]
      {
        data[at + i] := b[i];
        i := i + 1;
      }
    }

    /** Writes one serialised entry and tells the slot that will point at it. */
    method WriteEntry(e: LogEntry, at: nat) returns (m: LogMeta)
      requires at + |k.encode(e)| <= data.Length
      modifies data
      ensures data[..] == old(data[..])[..at] + k.encode(e) + old(data[..])[at + |k.encode(e)|..]
      ensures m == LogMeta(at, |k.encode(e)|, e.term, e.index, Digest(k, e))
    {
      var b := k.encode(e);
      PutBytes(at, b);
      var digest := ZERO_DIGEST;
      if k.enabled {
        digest := k.hmac(e.index, b, KeyFor(k, e));
      }
      m := LogMeta(at, |b|, e.term, e.index, digest);
    }

    method WriteEntries(more: seq<LogEntry>) returns (metas: seq<LogMeta>, end: nat)
      requires dataOffset == Size(k, entries) && Fits(more)
      modifies data
      ensures data[..][..dataOffset] == old(data[..])[..dataOffset]
      ensures end == Size(k, entries + more) && |metas| == |more|
      ensures MetasFrom(k, entries + more, metas, |entries|)
      ensures BytesFrom(k, entries + more, data[..], |entries|, |entries| + |more|)
    {
      ghost var n, all := |entries|, entries + more;
      OffsetConcat(k, entries, more, |more|);
      OffsetConcat(k, entries, more, 0);
      metas, end := [], dataOffset;
      var i := 0;
      while i < |more|
        invariant 0 <= i <= |more| && |metas| == i && dataOffset <= end == Offset(k, all, n + i)
        invariant data[..][..dataOffset] == old(data[..])[..dataOffset]
        invariant MetasFrom(k, all, metas, n) && BytesFrom(k, all, data[..], n, n + i)
      {
        assert all[n + i] == more[i];
        OffsetsGrow(k, all, n + i + 1, |all|);
        assert Offset(k, all, n + i + 1) == end + |k.encode(more[i])|;
        ghost var before := data[..];
        var m := WriteEntry(more[i], end);
        BytesPut(k, all, before, data[..], n, n + i);
        assert data[..][..dataOffset] == data[..][..end][..dataOffset] == before[..dataOffset];
        metas := metas + [m];
        end := end + m.length;
        i := i + 1;
      }
    }

    /** First the bytes, then the slots that point at them. */
    method AppendEntries(more: seq<LogEntry>)
      requires Valid() && active && more != [] && Fits(more)
      requires forall j :: 0 <= j < |more| ==> more[j].index == last + 1 + j && KeyOk(k, more[j])
      modifies this, meta, data
      ensures Valid() && entries == old(entries) + more && active
    {
      ghost var es := entries;
      ghost var meta0, data0 := meta[..], data[..];
      var metas, end := WriteEntries(more);
      PutSlots(metaOffset / META_SIZE, metas);
      dataOffset := end;
      metaOffset := metaOffset + |more| * META_SIZE;
      last := last + |more|;
      entries := es + more;
      OffsetConcat(k, es, more, |more|);
      AddStores(k, first, meta0, data0, es, more, metas, meta[..], data[..]);
    }

    method PutSlots(at: nat, metas: seq<LogMeta>)
      requires at + |metas| <= meta.Length
      modifies meta
      ensures meta[..] == old(meta[..])[..at] + metas + old(meta[..])[at + |metas|..]
    {
      var i := 0;
      while i < |metas|
        invariant 0 <= i <= |metas|
        invariant meta[..] == old(meta[..])[..at] + metas[..i] + old(meta[..])[at + i..]
      {
        meta[at + i] := metas[i];
        i := i + 1;
      }
    }

    /** Clears the slots behind the last entry kept. The segment is not emptied. */
    method TruncateSuffix(lastKept: nat)
      requires Valid() && first <= lastKept
      modifies this, meta
      ensures Valid() && active == old(active)
      ensures entries == if lastKept >= old(last) then old(entries) else old(entries)[..lastKept + 1 - first]
    {
      if lastKept >= last {
        return;
      }
      var n := lastKept + 1 - first;
      var cleared := last - lastKept;
      ghost var meta0 := meta[..];
      PutSlots(n, seq(cleared, _ => ZERO_META));
      assert SlotOk(k, first, meta0, data[..], entries, n - 1);
      CutStores(k, first, meta0, data[..], entries, meta[..], n);
      last := lastKept;
      metaOffset := n * META_SIZE;
      dataOffset := meta[n - 1].offset + meta[n - 1].length;
      entries := entries[..n];
    }

    // -------------------------------------------------------------- reading

    /** Tries all key versions, beginning with the one used last. */
    method VerifyHMAC(m: LogMeta) returns (ok: bool)
      requires Valid() && m.offset + m.length <= data.Length && |m.digest| == DIGEST_SIZE
      modifies this`recentKey
      ensures Valid()
      ensures ok <==>
                || !k.enabled || m.digest == ZERO_DIGEST
                || exists v :: v in k.versions && k.hmac(m.index, data[m.offset..m.offset + m.length], v) == m.digest
    {
      if !k.enabled || m.digest == ZERO_DIGEST {
        return true;
      }
      var message := data[m.offset..m.offset + m.length];
      var found := FindKey(k, m.index, message, m.digest, recentKey);
      if found.Some? {
        recentKey := found.value;
        assert k.versions[found.value] in k.versions;
      }
      ok := found.Some?;
    }

    method GetEntry(index: nat) returns (result: Option<LogEntry>)
      requires Valid()
      modifies this`recentKey
      ensures Valid() && entries == old(entries)
      ensures result == if first <= index <= last then Some(entries[index - first]) else None
    {
      if index < first || index > last {
        return None;
      }
      var m := meta[index - first];
      assert SlotOk(k, first, meta[..], data[..], entries, index - first);
      var genuine := VerifyHMAC(m);
      assert genuine;
      result := k.decode(data[m.offset..m.offset + m.length]);
    }

    method GetTerm(index: nat) returns (result: Option<nat>)
      requires Valid()
      ensures result == if first <= index <= last then Some(entries[index - first].term) else None
    {
      if index < first || index > last {
        return None;
      }
      assert SlotOk(k, first, meta[..], data[..], entries, index - first);
      result := Some(meta[index - first].term);
    }

    /** As many entries of this segment as the two limits allow. */
    method GetEntries(start: nat, maxLen: nat, maxCount: nat) returns (es: seq<LogEntry>)
      requires Valid() && first <= start <= last
      modifies this`recentKey
      ensures Valid() && entries == old(entries)
      ensures es == Batch(k, entries[start - first..], maxLen, maxCount)
    {
      ghost var rest := entries[start - first..];
      var limit := Min(maxCount, last + 1 - start);
      es := [];
      var len := 0;
      while |es| < limit
        invariant Valid() && |es| <= limit && es == rest[..|es|] && len == Offset(k, rest, |es|) <= maxLen
        decreases limit - |es|
        modifies this`recentKey
      {
        var index := start + |es|;
        var m := meta[index - first];
        assert SlotOk(k, first, meta[..], data[..], entries, index - first);
        if len + m.length > maxLen {
          break;
        }
        var genuine := VerifyHMAC(m);
        assert genuine;
        var e := k.decode(data[m.offset..m.offset + m.length]);
        len := len + m.length;
        es := es + [e.value];
      }
      BatchIs(k, rest, maxLen, maxCount, |es|);
    }
  }
}
