/** What a pair of segment files holds: meta slots, one per entry, over a stretch of serialised entries. */
module SegmentFile {
  import opened Common
  import opened RaftTypes

  /** Serialisation and HMAC, whose code lies outside this model. */
  datatype Codec = Codec(
    encode: LogEntry -> Bytes,
    decode: Bytes -> Option<LogEntry>,
    enabled: bool,                      // whether entries carry an HMAC
    versions: seq<nat>,                 // key versions, newest first
    version: LogEntry -> nat,           // the key version an entry names
    hmac: (nat, Bytes, nat) -> Bytes)   // of index, serialised entry and key version

  datatype LogMeta = LogMeta(offset: nat, length: nat, term: nat, index: nat, digest: Bytes)

  const META_SIZE: nat := 64
  const DIGEST_SIZE: nat := 32
  const ZERO_DIGEST: Bytes := seq(DIGEST_SIZE, _ => 0)
  const ZERO_META := LogMeta(0, 0, 0, 0, ZERO_DIGEST)
  const NO_VERSION: nat := 0

  /** What is assumed of the code outside: decoding undoes encoding, digests fill their field. */
  ghost predicate Faithful(k: Codec) {
    && (forall e {:trigger k.encode(e)} :: k.decode(k.encode(e)) == Some(e))
    && (k.enabled ==> k.versions != [])
    && (forall i, b, v {:trigger k.hmac(i, b, v)} :: v in k.versions ==> |k.hmac(i, b, v)| == DIGEST_SIZE)
  }

  function KeyFor(k: Codec, e: LogEntry): nat {
    if k.version(e) == NO_VERSION && k.versions != [] then k.versions[|k.versions| - 1] else k.version(e)
  }

  predicate KeyOk(k: Codec, e: LogEntry) {
    k.enabled ==> KeyFor(k, e) in k.versions
  }

  function Digest(k: Codec, e: LogEntry): Bytes {
    if k.enabled then k.hmac(e.index, k.encode(e), KeyFor(k, e)) else ZERO_DIGEST
  }

  /** The length of the first i serialised entries. */
  function Offset(k: Codec, es: seq<LogEntry>, i: nat): nat
    requires i <= |es|
  {
    if i == 0 then 0 else Offset(k, es, i - 1) + |k.encode(es[i - 1])|
  }

  function Size(k: Codec, es: seq<LogEntry>): nat {
    Offset(k, es, |es|)
  }

  function MetaOf(k: Codec, es: seq<LogEntry>, i: nat): LogMeta
    requires i < |es|
  {
    LogMeta(Offset(k, es, i), |k.encode(es[i])|, es[i].term, es[i].index, Digest(k, es[i]))
  }

  /** Slot i and the bytes it points at are those of entry i. */
  ghost predicate SlotOk(k: Codec, first: nat, meta: seq<LogMeta>, data: Bytes, es: seq<LogEntry>, i: nat) {
    && i < |es| && i < |meta|
    && es[i].index == first + i && KeyOk(k, es[i]) && meta[i] == MetaOf(k, es, i)
    && meta[i].offset + meta[i].length <= |data|
    && data[meta[i].offset..meta[i].offset + meta[i].length] == k.encode(es[i])
  }

  /** The files hold exactly these entries: every slot is right, and the slots behind them are empty. */
  ghost predicate Stores(k: Codec, first: nat, meta: seq<LogMeta>, data: Bytes, es: seq<LogEntry>) {
    && 1 <= first && |es| <= |meta| && Size(k, es) <= |data|
    && (forall i: nat {:trigger SlotOk(k, first, meta, data, es, i)} :: i < |es| ==> SlotOk(k, first, meta, data, es, i))
    && (forall i {:trigger meta[i]} :: |es| <= i < |meta| ==> meta[i].index == 0)
  }

  // ---------------------------------------------------------------- offsets

  lemma {:induction false} OffsetPrefix(k: Codec, a: seq<LogEntry>, b: seq<LogEntry>, i: nat)
    requires i <= |a| && i <= |b| && a[..i] == b[..i]
    ensures Offset(k, a, i) == Offset(k, b, i)
    decreases i
  {
    if i > 0 {
      assert a[i - 1] == a[..i][i - 1] == b[..i][i - 1] == b[i - 1];
      assert a[..i - 1] == a[..i][..i - 1] == b[..i - 1];
      OffsetPrefix(k, a, b, i - 1);
    }
  }

  lemma {:induction false} OffsetsGrow(k: Codec, es: seq<LogEntry>, i: nat, j: nat)
    requires i <= j <= |es|
    ensures Offset(k, es, i) <= Offset(k, es, j)
    decreases j
  {
    if i < j {
      OffsetsGrow(k, es, i, j - 1);
    }
  }

  lemma {:induction false} OffsetConcat(k: Codec, a: seq<LogEntry>, b: seq<LogEntry>, i: nat)
    requires i <= |b|
    ensures Offset(k, a + b, |a| + i) == Size(k, a) + Offset(k, b, i)
    decreases i
  {
    if i == 0 {
      assert (a + b)[..|a|] == a[..|a|];
      OffsetPrefix(k, a + b, a, |a|);
    } else {
      OffsetConcat(k, a, b, i - 1);
      assert (a + b)[|a| + i - 1] == b[i - 1];
    }
  }

  // ---------------------------------------------------------------- what keeps files right

  /** Slots are not disturbed by changes behind them. */
  lemma SlotKept(k: Codec, first: nat, meta: seq<LogMeta>, data: Bytes, es: seq<LogEntry>,
                 meta': seq<LogMeta>, data': Bytes, es': seq<LogEntry>, i: nat)
    requires SlotOk(k, first, meta, data, es, i) && i < |es'| && i < |meta'| && |data| <= |data'|
    requires es'[..i + 1] == es[..i + 1] && meta'[i] == meta[i]
    requires data'[..meta[i].offset + meta[i].length] == data[..meta[i].offset + meta[i].length]
    ensures SlotOk(k, first, meta', data', es', i)
  {
    assert es'[i] == es'[..i + 1][i] == es[i];
    assert es'[..i] == es'[..i + 1][..i] == es[..i];
    OffsetPrefix(k, es, es', i);
    var a, b := meta[i].offset, meta[i].offset + meta[i].length;
    assert data'[a..b] == data'[..b][a..b] == data[..b][a..b] == data[a..b];
  }

  /** Cutting the entries behind n and clearing their slots. */
  lemma CutStores(k: Codec, first: nat, meta: seq<LogMeta>, data: Bytes, es: seq<LogEntry>, meta': seq<LogMeta>, n: nat)
    requires Stores(k, first, meta, data, es) && n <= |es| && |meta'| == |meta|
    requires forall i :: 0 <= i < n ==> meta'[i] == meta[i]
    requires forall i :: n <= i < |meta| ==> meta'[i].index == 0
    ensures Stores(k, first, meta', data, es[..n])
    ensures Size(k, es[..n]) == Offset(k, es, n)
  {
    assert es[..n][..n] == es[..n];
    OffsetPrefix(k, es, es[..n], n);
    OffsetsGrow(k, es, n, |es|);
    forall i: nat | i < n ensures SlotOk(k, first, meta', data, es[..n], i) {
      assert SlotOk(k, first, meta, data, es, i);
      assert es[..n][..i + 1] == es[..i + 1];
      SlotKept(k, first, meta, data, es, meta', data, es[..n], i);
    }
  }

  /** The bytes of entry i are in their place. */
  ghost predicate BytesAt(k: Codec, es: seq<LogEntry>, data: Bytes, i: nat) {
    i < |es| && Offset(k, es, i + 1) <= |data| && data[Offset(k, es, i)..Offset(k, es, i + 1)] == k.encode(es[i])
  }

  /** Writing entry i behind the bytes of the others. */
  lemma PutKeepsBytes(k: Codec, es: seq<LogEntry>, data: Bytes, data': Bytes, i: nat, j: nat)
    requires j < i < |es| && |data'| == |data| && BytesAt(k, es, data, j) && Offset(k, es, i) <= |data|
    requires data'[..Offset(k, es, i)] == data[..Offset(k, es, i)]
    ensures BytesAt(k, es, data', j)
  {
    OffsetsGrow(k, es, j + 1, i);
    var a, b, c := Offset(k, es, j), Offset(k, es, j + 1), Offset(k, es, i);
    assert data'[a..b] == data'[..c][a..b] == data[..c][a..b] == data[a..b];
  }

  /** The bytes of the entries from n up to m are in their places. */
  ghost predicate BytesFrom(k: Codec, es: seq<LogEntry>, data: Bytes, n: nat, m: nat) {
    forall j: nat {:trigger BytesAt(k, es, data, j)} :: n <= j < m ==> BytesAt(k, es, data, j)
  }

  /** The slots of the entries from n on. */
  ghost predicate MetasFrom(k: Codec, es: seq<LogEntry>, metas: seq<LogMeta>, n: nat) {
    n + |metas| <= |es| && forall j {:trigger metas[j]} :: 0 <= j < |metas| ==> metas[j] == MetaOf(k, es, n + j)
  }

  /** The bytes of entry i written at its place leave those before it alone. */
  lemma BytesPut(k: Codec, es: seq<LogEntry>, data: Bytes, data': Bytes, n: nat, i: nat)
    requires n <= i < |es| && Offset(k, es, i + 1) <= |data|
    requires BytesFrom(k, es, data, n, i)
    requires data' == data[..Offset(k, es, i)] + k.encode(es[i]) + data[Offset(k, es, i) + |k.encode(es[i])|..]
    ensures BytesFrom(k, es, data', n, i + 1) && data'[..Offset(k, es, i)] == data[..Offset(k, es, i)]
  {
    forall j: nat | n <= j < i + 1 ensures BytesAt(k, es, data', j) {
      if j < i {
        assert BytesAt(k, es, data, j);
        PutKeepsBytes(k, es, data, data', i, j);
      }
    }
  }

  /** Entries are added behind the others, their bytes behind the others' bytes. */
  lemma AddStores(k: Codec, first: nat, meta: seq<LogMeta>, data: Bytes, es: seq<LogEntry>,
                  more: seq<LogEntry>, metas: seq<LogMeta>, meta': seq<LogMeta>, data': Bytes)
    requires Stores(k, first, meta, data, es) && |metas| == |more| && |data'| == |data|
    requires |es| + |more| <= |meta| && Size(k, es + more) <= |data|
    requires forall j :: 0 <= j < |more| ==> more[j].index == first + |es| + j && KeyOk(k, more[j])
    requires data'[..Size(k, es)] == data[..Size(k, es)]
    requires meta' == meta[..|es|] + metas + meta[|es| + |more|..]
    requires MetasFrom(k, es + more, metas, |es|) && BytesFrom(k, es + more, data', |es|, |es| + |more|)
    ensures Stores(k, first, meta', data', es + more)
  {
    forall i: nat | i < |es + more| ensures SlotOk(k, first, meta', data', es + more, i) {
      if i < |es| {
        assert SlotOk(k, first, meta, data, es, i);
        assert (es + more)[..i + 1] == es[..i + 1];
        OffsetsGrow(k, es, i + 1, |es|);
        var b := meta[i].offset + meta[i].length;
        assert data'[..b] == data'[..Size(k, es)][..b] == data[..b];
        SlotKept(k, first, meta, data, es, meta', data', es + more, i);
      } else {
        assert BytesAt(k, es + more, data', i);
        assert (es + more)[i] == more[i - |es|] && meta'[i] == metas[i - |es|];
      }
    }
  }

  /** The recovery scan stops exactly behind the last entry: the slots that carry the index expected
      of them are those of the entries. */
  lemma ScanStops(k: Codec, first: nat, meta: seq<LogMeta>, data: Bytes, es: seq<LogEntry>, i: nat)
    requires Stores(k, first, meta, data, es) && i < |meta|
    ensures meta[i].index == first + i <==> i < |es|
  {
    if i < |es| {
      assert SlotOk(k, first, meta, data, es, i);
    }
  }

  // ---------------------------------------------------------------- reading a batch

  /** The longest run of entries from the start within a number of entries and a number of bytes. */
  function Batch(k: Codec, es: seq<LogEntry>, maxLen: nat, maxCount: nat): (b: seq<LogEntry>)
    ensures b <= es && |b| <= maxCount
    decreases maxCount
  {
    if es == [] || maxCount == 0 || |k.encode(es[0])| > maxLen then []
    else [es[0]] + Batch(k, es[1..], maxLen - |k.encode(es[0])|, maxCount - 1)
  }

  /** The loop form: the n first entries taken so far, and nothing more fits, make the batch. */
  lemma {:induction false} BatchIs(k: Codec, es: seq<LogEntry>, maxLen: nat, maxCount: nat, n: nat)
    requires n <= |es| && n <= maxCount && Offset(k, es, n) <= maxLen
    requires n == |es| || n == maxCount || Offset(k, es, n) + |k.encode(es[n])| > maxLen
    ensures Batch(k, es, maxLen, maxCount) == es[..n]
    decreases n
  {
    if n > 0 {
      FirstOffset(k, es, n);
      var l := |k.encode(es[0])|;
      assert n < |es| ==> es[1..][n - 1] == es[n];
      BatchIs(k, es[1..], maxLen - l, maxCount - 1, n - 1);
      assert es[..n] == [es[0]] + es[1..][..n - 1];
    }
  }

  /** Reading a batch from a part of the entries gives a part of the batch, cut short only by the end of
      that part. */
  lemma {:induction false} BatchOfPart(k: Codec, a: seq<LogEntry>, b: seq<LogEntry>, maxLen: nat, maxCount: nat)
    requires a <= b
    ensures Batch(k, a, maxLen, maxCount) <= Batch(k, b, maxLen, maxCount)
    ensures Batch(k, a, maxLen, maxCount) == Batch(k, b, maxLen, maxCount) || |Batch(k, a, maxLen, maxCount)| == |a|
    decreases maxCount
  {
    if a != [] && maxCount > 0 && |k.encode(a[0])| <= maxLen {
      BatchOfPart(k, a[1..], b[1..], maxLen - |k.encode(a[0])|, maxCount - 1);
    }
  }

  lemma {:induction false} FirstOffset(k: Codec, es: seq<LogEntry>, n: nat)
    requires 1 <= n <= |es|
    ensures Offset(k, es, n) == |k.encode(es[0])| + Offset(k, es[1..], n - 1)
  {
    assert es == [es[0]] + es[1..];
    OffsetConcat(k, [es[0]], es[1..], n - 1);
    assert Size(k, [es[0]]) == Offset(k, [es[0]], 0) + |k.encode(es[0])|;
  }
}
