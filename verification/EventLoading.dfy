/** Committed entries become bundles of events for the apply loop: read by one thread, decrypted by any
    number of threads, handed out in order; or all of it by the apply loop itself. */
module EventLoading {
  import opened Common
  import opened RaftTypes

  /** A command with its events. */
  datatype Bundle<E> = Bundle(id: nat, events: seq<E>)

  /** What decryption and decoding make of an entry's payload; their code lies outside this model. */
  datatype Decoder<!E> = Decoder(decode: LogEntry -> Bundle<E>)

  /** The bundles of a stretch of the log: one for each entry that is not a no-op and has events. */
  function Bundles<E>(d: Decoder<E>, es: seq<LogEntry>): seq<Bundle<E>> {
    if es == [] then []
    else
      var e := es[|es| - 1];
      var rest := Bundles(d, es[..|es| - 1]);
      if e.noop || d.decode(e).events == [] then rest else rest + [d.decode(e)]
  }

  lemma {:induction false} BundlesConcat<E>(d: Decoder<E>, a: seq<LogEntry>, b: seq<LogEntry>)
    ensures Bundles(d, a + b) == Bundles(d, a) + Bundles(d, b)
  {
    if b == [] {
      assert a + b == a;
    } else {
      assert (a + b)[..|a + b| - 1] == a + b[..|b| - 1];
      BundlesConcat(d, a, b[..|b| - 1]);
    }
  }

  /** With BundlesConcat this says which entries become bundles, and which. */
  lemma BundleOfOne<E>(d: Decoder<E>, e: LogEntry)
    ensures Bundles(d, [e]) == if e.noop || |d.decode(e).events| == 0 then [] else [d.decode(e)]
  {
    assert [e][..0] == [];
  }

  lemma {:induction false} NotMoreBundles<E>(d: Decoder<E>, es: seq<LogEntry>)
    ensures |Bundles(d, es)| <= |es|
  {
    if es != [] {
      NotMoreBundles(d, es[..|es| - 1]);
    }
  }

  /** decryptEntries() as the loop it is. */
  method DecryptEntries<E>(d: Decoder<E>, es: seq<LogEntry>, bundles: seq<Bundle<E>>) returns (r: seq<Bundle<E>>)
    ensures r == bundles + Bundles(d, es)
  {
    r := bundles;
    var i := 0;
    while i < |es|
      invariant 0 <= i <= |es| && r == bundles + Bundles(d, es[..i])
    {
      assert es[..i + 1][..i] == es[..i];
      if !es[i].noop {
        var b := d.decode(es[i]);
        if |b.events| != 0 {
          r := r + [b];
        }
      }
      i := i + 1;
    }
    assert es[..i] == es;
  }

  // ---------------------------------------------------------------- asynchronous loading

  datatype Flag = Fresh | Doing | Done

  datatype Task<E> = Task(entries: seq<LogEntry>, bundles: seq<Bundle<E>>, flag: Flag, written: bool)

  datatype Held<E> = Nothing | Holding(task: Task<E>)

  /** `held` is the batch the load thread has read but not queued yet: the loaded index is ahead of the
      queue in between. `delivered` records what the apply loop has been given. */
  datatype State<E> = State(
    committed: seq<LogEntry>, offset: nat, loaded: nat, held: Held<E>,
    queue: seq<Task<E>>, cached: seq<Bundle<E>>, delivered: seq<Bundle<E>>)

  datatype Step =
    | Commit(more: seq<LogEntry>)
    | Read(n: nat)           // the load thread reads n entries and moves the loaded index
    | Enqueue                // and queues the batch
    | Claim(i: nat)          // a decrypt thread takes a task by compare-and-swap
    | Decrypt(i: nat)
    | Release(i: nat)
    | Fetch                  // the apply loop takes over the bundles of a finished task in front
    | Deliver                // and the next bundle

  predicate Enabled<E>(s: State<E>, step: Step) {
    match step
    case Commit(_) => true
    case Read(n) => s.held.Nothing? && s.loaded < |s.committed| && n <= |s.committed| - s.loaded
    case Enqueue => s.held.Holding?
    case Claim(i) => i < |s.queue| && s.queue[i].flag.Fresh?
    case Decrypt(i) => i < |s.queue| && s.queue[i].flag.Doing? && !s.queue[i].written
    case Release(i) => i < |s.queue| && s.queue[i].flag.Doing? && s.queue[i].written
    case Fetch => s.cached == [] && s.queue != [] && s.queue[0].flag.Done?
    case Deliver => s.cached != []
  }

  function Next<E>(d: Decoder<E>, s: State<E>, step: Step): State<E>
    requires Enabled(s, step)
  {
    match step
    case Commit(more) => s.(committed := s.committed + more)
    case Read(n) => s.(loaded := s.loaded + n, held := Holding(Task(s.committed[s.loaded..s.loaded + n], [], Fresh, false)))
    case Enqueue => s.(queue := s.queue + [s.held.task], held := Nothing)
    case Claim(i) => s.(queue := s.queue[i := s.queue[i].(flag := Doing)])
    case Decrypt(i) =>
      s.(queue := s.queue[i := s.queue[i].(bundles := s.queue[i].bundles + Bundles(d, s.queue[i].entries), written := true)])
    case Release(i) => s.(queue := s.queue[i := s.queue[i].(flag := Done)])
    case Fetch => s.(cached := s.queue[0].bundles, queue := s.queue[1..])
    case Deliver => s.(delivered := s.delivered + [s.cached[0]], cached := s.cached[1..])
  }

  function Start<E>(committed: seq<LogEntry>, offset: nat): State<E> {
    State(committed, offset, offset, Nothing, [], [], [])
  }

  ghost predicate IsRun<E>(d: Decoder<E>, steps: seq<Step>, run: seq<State<E>>) {
    && |run| == |steps| + 1 && run[0] == Start(run[0].committed, run[0].offset)
    && forall k {:trigger steps[k]} :: 0 <= k < |steps| ==> Enabled(run[k], steps[k]) && run[k + 1] == Next(d, run[k], steps[k])
  }

  // ---------------------------------------------------------------- what every interleaving keeps

  function Entries<E>(queue: seq<Task<E>>): seq<LogEntry> {
    if queue == [] then [] else Entries(queue[..|queue| - 1]) + queue[|queue| - 1].entries
  }

  function HeldEntries<E>(h: Held<E>): seq<LogEntry> {
    if h.Nothing? then [] else h.task.entries
  }

  ghost predicate TaskOk<E>(d: Decoder<E>, t: Task<E>) {
    t.bundles == (if t.written then Bundles(d, t.entries) else []) && (t.flag.Done? ==> t.written)
    && (t.flag.Fresh? ==> !t.written)
  }

  /** The stretch of the log that has been loaded. An offset may lie ahead of what is committed. */
  function Loaded<E>(s: State<E>): seq<LogEntry> {
    if s.offset <= s.loaded <= |s.committed| then s.committed[s.offset..s.loaded] else []
  }

  /** Everything loaded is delivered, cached, queued or held, in this order. */
  ghost predicate Inv<E>(d: Decoder<E>, s: State<E>) {
    && s.offset <= s.loaded && (s.loaded <= |s.committed| || s.loaded == s.offset)
    && (forall i {:trigger s.queue[i]} :: 0 <= i < |s.queue| ==> TaskOk(d, s.queue[i]))
    && (s.held.Holding? ==> TaskOk(d, s.held.task) && s.held.task.flag.Fresh?)
    && s.delivered + s.cached + Bundles(d, Entries(s.queue)) + Bundles(d, HeldEntries(s.held)) == Bundles(d, Loaded(s))
  }

  lemma {:induction false} EntriesConcat<E>(a: seq<Task<E>>, b: seq<Task<E>>)
    ensures Entries(a + b) == Entries(a) + Entries(b)
  {
    if b == [] {
      assert a + b == a;
    } else {
      assert (a + b)[..|a + b| - 1] == a + b[..|b| - 1];
      EntriesConcat(a, b[..|b| - 1]);
    }
  }

  lemma {:induction false} SameEntries<E>(a: seq<Task<E>>, b: seq<Task<E>>)
    requires |a| == |b| && forall i :: 0 <= i < |a| ==> a[i].entries == b[i].entries
    ensures Entries(a) == Entries(b)
  {
    if a != [] {
      SameEntries(a[..|a| - 1], b[..|b| - 1]);
    }
  }

  lemma FirstEntries<E>(q: seq<Task<E>>)
    requires q != []
    ensures Entries(q) == q[0].entries + Entries(q[1..])
  {
    assert q == q[..1] + q[1..];
    EntriesConcat(q[..1], q[1..]);
    assert Entries(q[..1]) == q[0].entries;
  }

  lemma LoadedMore<E>(d: Decoder<E>, s: State<E>, s': State<E>, n: nat)
    requires s.offset <= s.loaded && Enabled(s, Read(n)) && s' == Next(d, s, Read(n))
    ensures Loaded(s') == Loaded(s) + HeldEntries(s'.held)
  {
  }

  lemma AddTail<T>(x: seq<T>, l: seq<T>, b: seq<T>)
    requires x + [] == l
    ensures x + b == l + b
  {
  }

  lemma ReadKeeps<E>(d: Decoder<E>, s: State<E>, s': State<E>, n: nat)
    requires Inv(d, s) && Enabled(s, Read(n)) && s' == Next(d, s, Read(n))
    ensures Inv(d, s')
  {
    LoadedMore(d, s, s', n);
    BundlesConcat(d, Loaded(s), HeldEntries(s'.held));
    AddTail(s.delivered + s.cached + Bundles(d, Entries(s.queue)), Bundles(d, Loaded(s)), Bundles(d, HeldEntries(s'.held)));
  }

  lemma EnqueueKeeps<E>(d: Decoder<E>, s: State<E>, s': State<E>)
    requires Inv(d, s) && Enabled(s, Enqueue) && s' == Next(d, s, Enqueue)
    ensures Inv(d, s')
  {
    EntriesConcat(s.queue, [s.held.task]);
    assert [s.held.task][..0] == [];
    assert Entries([s.held.task]) == s.held.task.entries;
    BundlesConcat(d, Entries(s.queue), s.held.task.entries);
    Regroup(s.delivered + s.cached, Bundles(d, Entries(s.queue)), Bundles(d, s.held.task.entries));
    assert s'.delivered + s'.cached + Bundles(d, Entries(s'.queue)) + [] == s'.delivered + s'.cached + Bundles(d, Entries(s'.queue));
  }

  lemma FetchKeeps<E>(d: Decoder<E>, s: State<E>, s': State<E>)
    requires Inv(d, s) && Enabled(s, Fetch) && s' == Next(d, s, Fetch)
    ensures Inv(d, s')
  {
    var t := s.queue[0];
    assert TaskOk(d, t);
    FirstEntries(s.queue);
    BundlesConcat(d, t.entries, Entries(s.queue[1..]));
    assert s.delivered + s.cached == s.delivered;
    Regroup(s.delivered, t.bundles, Bundles(d, Entries(s.queue[1..])));
    forall i | 0 <= i < |s'.queue| ensures TaskOk(d, s'.queue[i]) {
      assert s'.queue[i] == s.queue[i + 1];
    }
  }

  lemma DeliverKeeps<E>(d: Decoder<E>, s: State<E>, s': State<E>)
    requires Inv(d, s) && Enabled(s, Deliver) && s' == Next(d, s, Deliver)
    ensures Inv(d, s')
  {
    MoveOne(s.delivered, s.cached);
  }

  lemma MoveOne<T>(a: seq<T>, b: seq<T>)
    requires b != []
    ensures (a + [b[0]]) + b[1..] == a + b
  {
  }

  lemma CommitKeeps<E>(d: Decoder<E>, s: State<E>, s': State<E>, more: seq<LogEntry>)
    requires Inv(d, s) && s' == Next(d, s, Commit(more))
    ensures Inv(d, s')
  {
    assert Loaded(s') == Loaded(s);
  }

  lemma WorkKeeps<E>(d: Decoder<E>, s: State<E>, s': State<E>, step: Step)
    requires Inv(d, s) && Enabled(s, step) && s' == Next(d, s, step)
    requires step.Claim? || step.Decrypt? || step.Release?
    ensures Inv(d, s')
  {
    SameEntries(s.queue, s'.queue);
    assert Loaded(s') == Loaded(s);
    forall i | 0 <= i < |s'.queue| ensures TaskOk(d, s'.queue[i]) {
      assert TaskOk(d, s.queue[i]);
    }
  }

  lemma StepKeepsInv<E>(d: Decoder<E>, s: State<E>, s': State<E>, step: Step)
    requires Inv(d, s) && Enabled(s, step) && s' == Next(d, s, step)
    ensures Inv(d, s')
  {
    match step
    case Commit(more) => CommitKeeps(d, s, s', more);
    case Read(n) => ReadKeeps(d, s, s', n);
    case Enqueue => EnqueueKeeps(d, s, s');
    case Fetch => FetchKeeps(d, s, s');
    case Deliver => DeliverKeeps(d, s, s');
    case _ => WorkKeeps(d, s, s', step);
  }

  lemma StartInv<E>(d: Decoder<E>, s: State<E>)
    requires s == Start(s.committed, s.offset)
    ensures Inv(d, s)
  {
    assert Loaded(s) == [];
  }

  lemma RunStep<E>(d: Decoder<E>, steps: seq<Step>, run: seq<State<E>>, k: nat)
    requires IsRun(d, steps, run) && k < |steps|
    ensures Enabled(run[k], steps[k]) && run[k + 1] == Next(d, run[k], steps[k])
  {
  }

  ghost predicate InvAt<E>(d: Decoder<E>, run: seq<State<E>>, k: nat) {
    k < |run| && Inv(d, run[k]) && run[k].offset == run[0].offset
  }

  lemma InvGoesOn<E>(d: Decoder<E>, steps: seq<Step>, run: seq<State<E>>, k: nat)
    requires IsRun(d, steps, run) && k < |steps| && InvAt(d, run, k)
    ensures InvAt(d, run, k + 1)
  {
    RunStep(d, steps, run, k);
    StepKeepsInv(d, run[k], run[k + 1], steps[k]);
  }

  lemma InvStarts<E>(d: Decoder<E>, steps: seq<Step>, run: seq<State<E>>)
    requires IsRun(d, steps, run)
    ensures InvAt(d, run, 0)
  {
    StartInv(d, run[0]);
  }

  lemma {:induction false} RunInv<E>(d: Decoder<E>, steps: seq<Step>, run: seq<State<E>>, k: nat)
    requires IsRun(d, steps, run) && k < |run|
    ensures InvAt(d, run, k)
    decreases k
  {
    if k == 0 {
      InvStarts(d, steps, run);
    } else {
      RunInv(d, steps, run, k - 1);
      InvGoesOn(d, steps, run, k - 1);
    }
  }

  /** Under every interleaving the bundles delivered are, in index order and each once, the beginning of
      the event-bearing entries committed after the offset. */
  lemma AsyncDelivers<E>(d: Decoder<E>, steps: seq<Step>, run: seq<State<E>>, k: nat)
    requires IsRun(d, steps, run) && k < |run|
    ensures run[k].offset <= |run[k].committed| ==>
              run[k].delivered <= Bundles(d, run[k].committed[run[k].offset..])
    ensures run[k].cached == [] && run[k].queue == [] && run[k].held.Nothing? ==>
              run[k].delivered == Bundles(d, Loaded(run[k]))
  {
    RunInv(d, steps, run, k);
    InvDelivers(d, run[k]);
  }

  lemma InvDelivers<E>(d: Decoder<E>, s: State<E>)
    requires Inv(d, s)
    ensures s.offset <= |s.committed| ==> s.delivered <= Bundles(d, s.committed[s.offset..])
    ensures s.cached == [] && s.queue == [] && s.held.Nothing? ==> s.delivered == Bundles(d, Loaded(s))
  {
    var q, h := Bundles(d, Entries(s.queue)), Bundles(d, HeldEntries(s.held));
    FirstOfFour(s.delivered, s.cached, q, h);
    if s.offset <= |s.committed| {
      assert s.committed[s.offset..] == Loaded(s) + s.committed[s.loaded..];
      BundlesConcat(d, Loaded(s), s.committed[s.loaded..]);
      FirstOfFour(s.delivered + s.cached + q, h, Bundles(d, s.committed[s.loaded..]), []);
    }
  }

  lemma FirstOfFour<T>(a: seq<T>, b: seq<T>, c: seq<T>, e: seq<T>)
    ensures a <= a + b + c + e
  {
  }

  // ---------------------------------------------------------------- loading comes to an end

  /** No thread can do anything: nothing to read, queue, decrypt, fetch or deliver. */
  ghost predicate Quiet<E>(s: State<E>) {
    forall step {:trigger Enabled(s, step)} :: Enabled(s, step) ==> step.Commit? || step == Read(0)
  }

  lemma FrontCanMove<E>(d: Decoder<E>, s: State<E>)
    requires Inv(d, s) && s.cached == [] && s.queue != []
    ensures Enabled(s, Claim(0)) || Enabled(s, Decrypt(0)) || Enabled(s, Release(0)) || Enabled(s, Fetch)
  {
    assert TaskOk(d, s.queue[0]);
  }

  lemma QuietIsEmpty<E>(d: Decoder<E>, s: State<E>)
    requires Inv(d, s) && Quiet(s)
    ensures s.cached == [] && s.queue == [] && s.held.Nothing? && s.loaded >= |s.committed|
  {
    assert !Enabled(s, Deliver) && !Enabled(s, Enqueue) && !Enabled(s, Read(1));
    if s.queue != [] {
      FrontCanMove(d, s);
      assert false;
    }
  }

  /** The threads stand still only when everything committed has been delivered. */
  lemma QuietMeansDelivered<E>(d: Decoder<E>, steps: seq<Step>, run: seq<State<E>>, k: nat)
    requires IsRun(d, steps, run) && k < |run| && Quiet(run[k]) && run[k].offset <= |run[k].committed|
    ensures run[k].delivered == Bundles(d, run[k].committed[run[k].offset..])
  {
    RunInv(d, steps, run, k);
    QuietIsEmpty(d, run[k]);
    InvDelivers(d, run[k]);
    assert Loaded(run[k]) == run[k].committed[run[k].offset..];
  }

  /** The steps left to a task, and to the bundles in it. */
  function TaskLeft<E>(t: Task<E>): nat {
    |t.entries| + match t.flag case Fresh => 5 case Doing => if t.written then 3 else 4 case Done => 2
  }

  function QueueLeft<E>(q: seq<Task<E>>): nat {
    if q == [] then 0 else QueueLeft(q[..|q| - 1]) + TaskLeft(q[|q| - 1])
  }

  /** At most this many steps are needed for what is committed. */
  function WorkLeft<E>(s: State<E>): nat {
    (if s.loaded <= |s.committed| then 8 * (|s.committed| - s.loaded) else 0)
    + (if s.held.Holding? then 1 + TaskLeft(s.held.task) else 0) + QueueLeft(s.queue) + |s.cached|
  }

  lemma {:induction false} QueueLeftConcat<E>(a: seq<Task<E>>, b: seq<Task<E>>)
    ensures QueueLeft(a + b) == QueueLeft(a) + QueueLeft(b)
  {
    if b == [] {
      assert a + b == a;
    } else {
      assert (a + b)[..|a + b| - 1] == a + b[..|b| - 1];
      QueueLeftConcat(a, b[..|b| - 1]);
    }
  }

  lemma Around<T>(q: seq<T>, i: nat)
    requires i < |q|
    ensures q == q[..i] + [q[i]] + q[i + 1..]
  {
  }

  lemma LeftOfOne<E>(t: Task<E>)
    ensures QueueLeft([t]) == TaskLeft(t)
  {
    assert [t][..0] == [];
  }

  lemma QueueLeftAt<E>(q: seq<Task<E>>, i: nat)
    requires i < |q|
    ensures QueueLeft(q) == QueueLeft(q[..i]) + TaskLeft(q[i]) + QueueLeft(q[i + 1..])
  {
    Around(q, i);
    LeftOfOne(q[i]);
    QueueLeftConcat(q[..i] + [q[i]], q[i + 1..]);
    QueueLeftConcat(q[..i], [q[i]]);
  }

  lemma QueueLeftUpdate<E>(q: seq<Task<E>>, i: nat, t: Task<E>)
    requires i < |q|
    ensures QueueLeft(q[i := t]) == QueueLeft(q) - TaskLeft(q[i]) + TaskLeft(t)
  {
    QueueLeftAt(q, i);
    QueueLeftAt(q[i := t], i);
    assert q[i := t][..i] == q[..i] && q[i := t][i + 1..] == q[i + 1..];
  }

  /** Every step but a commit brings the end nearer. */
  lemma WorkGetsLess<E>(d: Decoder<E>, s: State<E>, s': State<E>, step: Step)
    requires Inv(d, s) && Enabled(s, step) && s' == Next(d, s, step) && !step.Commit? && step != Read(0)
    ensures WorkLeft(s') < WorkLeft(s)
  {
    match step
    case Enqueue =>
      QueueLeftConcat(s.queue, [s.held.task]);
      assert [s.held.task][..0] == [];
    case Claim(i) => QueueLeftUpdate(s.queue, i, s'.queue[i]);
    case Decrypt(i) => QueueLeftUpdate(s.queue, i, s'.queue[i]);
    case Release(i) =>
      assert TaskOk(d, s.queue[i]);
      QueueLeftUpdate(s.queue, i, s'.queue[i]);
    case Fetch =>
      QueueLeftAt(s.queue, 0);
      assert TaskOk(d, s.queue[0]) && s.queue[..0] == [];
      NotMoreBundles(d, s.queue[0].entries);
    case _ =>
  }

  /** So without new commits a run soon stands still, with everything delivered. */
  lemma {:induction false} LoadingFinishes<E>(d: Decoder<E>, steps: seq<Step>, run: seq<State<E>>, j: nat, k: nat)
    requires IsRun(d, steps, run) && j <= k < |run|
    requires forall i {:trigger steps[i]} :: j <= i < k ==> !steps[i].Commit? && steps[i] != Read(0)
    ensures k - j + WorkLeft(run[k]) <= WorkLeft(run[j])
    decreases k
  {
    if j < k {
      LoadingFinishes(d, steps, run, j, k - 1);
      RunInv(d, steps, run, k - 1);
      RunStep(d, steps, run, k - 1);
      WorkGetsLess(d, run[k - 1], run[k], steps[k - 1]);
    }
  }

  // ---------------------------------------------------------------- synchronous loading

  datatype SyncState<E> = SyncState(
    committed: seq<LogEntry>, offset: nat, loaded: nat, cached: seq<Bundle<E>>, delivered: seq<Bundle<E>>)

  datatype SyncStep = SyncCommit(more: seq<LogEntry>) | SyncLoad(n: nat) | SyncDeliver

  predicate SyncEnabled<E>(s: SyncState<E>, step: SyncStep) {
    match step
    case SyncCommit(_) => true
    case SyncLoad(n) => s.cached == [] && s.loaded < |s.committed| && n <= |s.committed| - s.loaded
    case SyncDeliver => s.cached != []
  }

  function SyncNext<E>(d: Decoder<E>, s: SyncState<E>, step: SyncStep): SyncState<E>
    requires SyncEnabled(s, step)
  {
    match step
    case SyncCommit(more) => s.(committed := s.committed + more)
    case SyncLoad(n) => s.(loaded := s.loaded + n, cached := Bundles(d, s.committed[s.loaded..s.loaded + n]))
    case SyncDeliver => s.(delivered := s.delivered + [s.cached[0]], cached := s.cached[1..])
  }

  /** What the synchronous form does between the same two deliveries as the asynchronous one. */
  function AsSync<E>(s: State<E>): SyncState<E> {
    var ahead := AheadOf(s);
    SyncState(s.committed, s.offset, if |ahead| <= s.loaded then s.loaded - |ahead| else 0, s.cached, s.delivered)
  }

  /** The entries still on their way are the last ones loaded. */
  ghost predicate Ahead<E>(s: State<E>) {
    var ahead := AheadOf(s);
    && s.offset + |ahead| <= s.loaded
    && (ahead != [] ==> s.loaded <= |s.committed|)
    && (s.loaded <= |s.committed| ==> s.committed[s.loaded - |ahead|..s.loaded] == ahead)
    && (s.loaded > |s.committed| ==> s.loaded == s.offset)
  }

  function AheadOf<E>(s: State<E>): seq<LogEntry> {
    Entries(s.queue) + HeldEntries(s.held)
  }

  lemma AheadAfter<E>(d: Decoder<E>, s: State<E>, s': State<E>, step: Step)
    requires Enabled(s, step) && s' == Next(d, s, step) && !step.Read? && !step.Fetch?
    ensures AheadOf(s') == AheadOf(s)
  {
    match step
    case Enqueue =>
      EntriesConcat(s.queue, [s.held.task]);
      assert [s.held.task][..0] == [];
      assert Entries([s.held.task]) == s.held.task.entries;
    case Claim(_) => SameEntries(s.queue, s'.queue);
    case Decrypt(_) => SameEntries(s.queue, s'.queue);
    case Release(_) => SameEntries(s.queue, s'.queue);
    case _ =>
  }

  lemma AheadFetch<E>(d: Decoder<E>, s: State<E>, s': State<E>)
    requires Enabled(s, Fetch) && s' == Next(d, s, Fetch)
    ensures AheadOf(s) == s.queue[0].entries + AheadOf(s')
  {
    FirstEntries(s.queue);
    Regroup(s.queue[0].entries, Entries(s.queue[1..]), HeldEntries(s.held));
  }

  lemma SliceMore<T>(w: seq<T>, a: nat, b: nat, n: nat)
    requires a <= b <= b + n <= |w|
    ensures w[a..b] + w[b..b + n] == w[a..b + n]
  {
  }

  lemma SliceLess<T>(w: seq<T>, a: nat, b: nat, x: seq<T>, y: seq<T>)
    requires a <= b <= |w| && w[a..b] == x + y
    ensures w[b - |y|..b] == y
  {
    assert w[b - |y|..b] == w[a..b][|x|..];
  }

  lemma AheadRead<E>(d: Decoder<E>, s: State<E>, s': State<E>, n: nat)
    requires Ahead(s) && Enabled(s, Read(n)) && s' == Next(d, s, Read(n))
    ensures Ahead(s')
  {
    SliceMore(s.committed, s.loaded - |AheadOf(s)|, s.loaded, n);
    assert AheadOf(s) == Entries(s.queue);
    assert AheadOf(s') == AheadOf(s) + s.committed[s.loaded..s.loaded + n];
  }

  lemma AheadLess<E>(d: Decoder<E>, s: State<E>, s': State<E>)
    requires Ahead(s) && Enabled(s, Fetch) && s' == Next(d, s, Fetch)
    ensures Ahead(s')
  {
    AheadFetch(d, s, s');
    if s.loaded <= |s.committed| {
      SliceLess(s.committed, s.loaded - |AheadOf(s)|, s.loaded, s.queue[0].entries, AheadOf(s'));
    }
  }

  lemma AheadKept<E>(d: Decoder<E>, s: State<E>, s': State<E>, step: Step)
    requires Ahead(s) && Enabled(s, step) && s' == Next(d, s, step)
    ensures Ahead(s')
  {
    if step.Read? {
      AheadRead(d, s, s', step.n);
    } else if step.Fetch? {
      AheadLess(d, s, s');
    } else {
      AheadAfter(d, s, s', step);
    }
  }

  /** The synchronous form makes this step, or none. */
  ghost predicate SyncMove<E>(d: Decoder<E>, a: SyncState<E>, b: SyncState<E>) {
    a == b || exists st :: SyncEnabled(a, st) && b == SyncNext(d, a, st)
  }

  /** Fetching a task is loading its entries, at the moment they are needed. */
  lemma FetchIsLoad<E>(d: Decoder<E>, s: State<E>, s': State<E>, load: SyncStep)
    requires Ahead(s) && Enabled(s, Fetch) && TaskOk(d, s.queue[0]) && s' == Next(d, s, Fetch)
    requires load == SyncLoad(|s.queue[0].entries|) && s.queue[0].entries != []
    ensures SyncEnabled(AsSync(s), load) && AsSync(s') == SyncNext(d, AsSync(s), load)
  {
    AheadFetch(d, s, s');
    HeadOfSlice(s.committed, AsSync(s).loaded, s.loaded, s.queue[0].entries, AheadOf(s'));
  }

  lemma FetchRefines<E>(d: Decoder<E>, s: State<E>, s': State<E>)
    requires Ahead(s) && Enabled(s, Fetch) && TaskOk(d, s.queue[0]) && s' == Next(d, s, Fetch)
    ensures SyncMove(d, AsSync(s), AsSync(s'))
  {
    if s.queue[0].entries == [] {
      AheadFetch(d, s, s');
      assert AheadOf(s) == AheadOf(s');
    } else {
      FetchIsLoad(d, s, s', SyncLoad(|s.queue[0].entries|));
    }
  }

  lemma HeadOfSlice<T>(w: seq<T>, a: nat, b: nat, x: seq<T>, y: seq<T>)
    requires a <= b <= |w| && w[a..b] == x + y
    ensures a + |x| <= |w| && w[a..a + |x|] == x
  {
    assert w[a..a + |x|] == w[a..b][..|x|];
  }

  lemma QuietRefines<E>(d: Decoder<E>, s: State<E>, s': State<E>, step: Step)
    requires Ahead(s) && Enabled(s, step) && s' == Next(d, s, step)
    requires !step.Commit? && !step.Fetch? && !step.Deliver?
    ensures AsSync(s') == AsSync(s)
  {
    if !step.Read? {
      AheadAfter(d, s, s', step);
    }
  }

  lemma StepRefines<E>(d: Decoder<E>, s: State<E>, s': State<E>, step: Step)
    requires Inv(d, s) && Ahead(s) && Enabled(s, step) && s' == Next(d, s, step)
    ensures SyncMove(d, AsSync(s), AsSync(s'))
  {
    match step
    case Commit(more) =>
      assert SyncEnabled(AsSync(s), SyncCommit(more));
      assert AsSync(s') == SyncNext(d, AsSync(s), SyncCommit(more));
    case Fetch => FetchRefines(d, s, s');
    case Deliver =>
      assert SyncEnabled(AsSync(s), SyncDeliver);
      assert AsSync(s') == SyncNext(d, AsSync(s), SyncDeliver);
    case _ => QuietRefines(d, s, s', step);
  }

  /** Asynchronous loading refines synchronous loading: seen from the apply loop, every run of the load
      thread, the decrypt threads and the apply loop is a run of the synchronous form. */
  lemma AsyncRefinesSync<E>(d: Decoder<E>, steps: seq<Step>, run: seq<State<E>>, k: nat)
    requires IsRun(d, steps, run) && k < |steps|
    ensures SyncMove(d, AsSync(run[k]), AsSync(run[k + 1]))
    ensures AsSync(run[0]) == SyncState(run[0].committed, run[0].offset, run[0].offset, [], [])
  {
    RunInv(d, steps, run, k);
    RunAhead(d, steps, run, k);
    StepRefines(d, run[k], run[k + 1], steps[k]);
  }

  lemma {:induction false} RunAhead<E>(d: Decoder<E>, steps: seq<Step>, run: seq<State<E>>, k: nat)
    requires IsRun(d, steps, run) && k < |run|
    ensures Ahead(run[k])
    decreases k
  {
    if k > 0 {
      RunAhead(d, steps, run, k - 1);
      AheadKept(d, run[k - 1], run[k], steps[k - 1]);
    }
  }
}
