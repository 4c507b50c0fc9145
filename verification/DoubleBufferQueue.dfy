/** The queue with two buffers: producers fill one under a lock, the consumer empties the other without
    one, and the two are swapped when the consumer's runs empty. */
module DoubleBufferQueue {

  datatype Dequeued<T> = Item(item: T) | Stopped | MustWait

  /** The queue as its callers use it, one call at a time. */
  class BufferQueue<T> {
    var producer: seq<T>
    var consumer: seq<T>
    var size: nat
    var shouldExit: bool

    predicate Valid()
      reads this
    {
      size == |consumer| + |producer|
    }

    /** One queue: what the consumer has yet to read, then what producers have added since. */
    function Contents(): seq<T>
      reads this
    {
      consumer + producer
    }

    constructor ()
      ensures Valid() && Contents() == [] && !shouldExit
    {
      producer, consumer, size, shouldExit := [], [], 0, false;
    }

    method Enqueue(t: T) returns (stopped: bool)
      requires Valid()
      modifies this
      ensures Valid() && stopped == old(shouldExit) && shouldExit == old(shouldExit)
      ensures Contents() == if stopped then old(Contents()) else old(Contents()) + [t]
    {
      if shouldExit {
        return true;
      }
      producer := producer + [t];
      size := size + 1;
      return false;
    }

    /** Waiting is up to the caller: MustWait says that nothing is queued and nothing is stopped. */
    method Dequeue() returns (r: Dequeued<T>)
      requires Valid()
      modifies this
      ensures Valid() && shouldExit == old(shouldExit)
      ensures if old(Contents()) == [] then Contents() == [] && r == (if shouldExit then Stopped else MustWait)
              else r == Item(old(Contents())[0]) && Contents() == old(Contents())[1..]
    {
      if consumer == [] {
        if producer == [] {
          return if shouldExit then Stopped else MustWait;
        }
        producer, consumer := consumer, producer;
      }
      size := size - 1;
      r := Item(consumer[0]);
      consumer := consumer[1..];
    }

    method Shutdown()
      requires Valid()
      modifies this`shouldExit
      ensures Valid() && shouldExit
    {
      shouldExit := true;
    }
  }

  // ---------------------------------------------------------------- all interleavings

  /** `poised` are items whose producers have seen the exit flag unset but do not hold the lock yet;
      `taking` is set between the consumer's update of the size and its pop. `added` and `taken` record
      what has gone in and out. */
  datatype State<T> = State(
    producer: seq<T>, consumer: seq<T>, size: int, shouldExit: bool,
    poised: seq<T>, taking: bool, stopped: bool,
    added: seq<T>, taken: seq<T>)

  datatype Step<T> =
    | Check(t: T)        // a producer reads the exit flag
    | Push(i: nat)       // a producer adds its item under the lock
    | Flip               // the consumer swaps the buffers under the lock
    | Count              // the consumer lowers the size
    | Take               // the consumer pops
    | Stop               // the consumer finds both buffers empty and the flag set
    | Shutdown

  predicate Enabled<T>(s: State<T>, step: Step<T>) {
    match step
    case Check(_) => true
    case Push(i) => i < |s.poised|
    case Flip => !s.taking && s.consumer == [] && s.producer != []
    case Count => !s.taking && s.consumer != []
    case Take => s.taking && s.consumer != []
    case Stop => !s.taking && s.consumer == [] && s.producer == [] && s.shouldExit
    case Shutdown => true
  }

  function Next<T>(s: State<T>, step: Step<T>): State<T>
    requires Enabled(s, step)
  {
    match step
    case Check(t) => if s.shouldExit then s else s.(poised := s.poised + [t])
    case Push(i) =>
      s.(producer := s.producer + [s.poised[i]], size := s.size + 1, added := s.added + [s.poised[i]],
         poised := s.poised[..i] + s.poised[i + 1..])
    case Flip => s.(producer := s.consumer, consumer := s.producer)
    case Count => s.(size := s.size - 1, taking := true)
    case Take => s.(consumer := s.consumer[1..], taking := false, taken := s.taken + [s.consumer[0]])
    case Stop => s.(stopped := true)
    case Shutdown => s.(shouldExit := true)
  }

  function Initial<T>(): State<T> {
    State([], [], 0, false, [], false, false, [], [])
  }

  ghost predicate IsRun<T>(steps: seq<Step<T>>, run: seq<State<T>>) {
    && |run| == |steps| + 1 && run[0] == Initial()
    && forall k {:trigger steps[k]} :: 0 <= k < |steps| ==> Enabled(run[k], steps[k]) && run[k + 1] == Next(run[k], steps[k])
  }

  /** Nothing lost, nothing twice, nothing out of order; the size is that of both buffers. */
  ghost predicate Fifo<T>(s: State<T>) {
    && s.added == s.taken + s.consumer + s.producer
    && s.size + (if s.taking then 1 else 0) == |s.consumer| + |s.producer|
    && (s.taking ==> s.consumer != [])
  }

  lemma StepKeepsFifo<T>(s: State<T>, s': State<T>, step: Step<T>)
    requires Fifo(s) && Enabled(s, step) && s' == Next(s, step)
    ensures Fifo(s')
  {
    match step
    case Push(i) =>
      assert s.taken + s.consumer + s.producer + [s.poised[i]] == s.taken + s.consumer + (s.producer + [s.poised[i]]);
    case Flip =>
      assert s.taken + s.consumer + s.producer == s.taken + s.producer + s.consumer;
    case Take =>
      assert s.taken + s.consumer == s.taken + [s.consumer[0]] + s.consumer[1..];
    case _ =>
  }

  /** In every run under every interleaving, what has come out is, in order, the beginning of what has
      gone in, and the rest is in the two buffers. */
  lemma {:induction false} RunIsFifo<T>(steps: seq<Step<T>>, run: seq<State<T>>, k: nat)
    requires IsRun(steps, run) && k < |run|
    ensures Fifo(run[k]) && run[k].taken <= run[k].added && run[k].size >= 0
    decreases k
  {
    if k > 0 {
      RunIsFifo(steps, run, k - 1);
      StepKeepsFifo(run[k - 1], run[k], steps[k - 1]);
      assert run[k].taken + run[k].consumer + run[k].producer == run[k].taken + (run[k].consumer + run[k].producer);
    }
  }

  /** The consumer stands still only when everything added has been taken. */
  lemma NothingWaits<T>(steps: seq<Step<T>>, run: seq<State<T>>, k: nat)
    requires IsRun(steps, run) && k < |run| && !Enabled(run[k], Flip) && !Enabled(run[k], Count) && !Enabled(run[k], Take)
    ensures run[k].taken == run[k].added
  {
    RunIsFifo(steps, run, k);
  }

  /** At most this many steps of the consumer are needed for what is queued. */
  function StepsLeft<T>(s: State<T>): int {
    3 * |s.producer| + 2 * |s.consumer| - if s.taking then 1 else 0
  }

  lemma ConsumerGoesOn<T>(s: State<T>, s': State<T>, step: Step<T>)
    requires Fifo(s) && Enabled(s, step) && s' == Next(s, step) && (step.Flip? || step.Count? || step.Take?)
    ensures 0 <= StepsLeft(s') < StepsLeft(s)
  {
  }

  /** After a shutdown the queued items drain first: the stop is raised only when everything added by
      then has been taken. */
  lemma StopAfterDrain<T>(steps: seq<Step<T>>, run: seq<State<T>>, k: nat)
    requires IsRun(steps, run) && k < |run| && Enabled(run[k], Stop)
    ensures run[k].taken == run[k].added && run[k].shouldExit
  {
    RunIsFifo(steps, run, k);
  }

  lemma StepAfterShutdown<T>(s: State<T>, s': State<T>, step: Step<T>)
    requires s.shouldExit && Enabled(s, step) && s' == Next(s, step)
    ensures s'.shouldExit && s.added <= s'.added && |s'.added| + |s'.poised| == |s.added| + |s.poised|
    ensures multiset(s'.added) + multiset(s'.poised) == multiset(s.added) + multiset(s.poised)
  {
    if step.Push? {
      var p, i := s.poised, step.i;
      assert p == p[..i] + [p[i]] + p[i + 1..];
      assert multiset(p) == multiset(p[..i]) + multiset{p[i]} + multiset(p[i + 1..]);
      assert multiset(s'.poised) == multiset(p[..i]) + multiset(p[i + 1..]);
    }
  }

  /** The exit flag stays set, and whatever is added from then on was poised at that moment. */
  lemma {:induction false} ShutdownIsFinal<T>(steps: seq<Step<T>>, run: seq<State<T>>, j: nat, k: nat)
    requires IsRun(steps, run) && j <= k < |run| && run[j].shouldExit
    ensures run[k].shouldExit && run[j].added <= run[k].added
    ensures |run[k].added| + |run[k].poised| == |run[j].added| + |run[j].poised|
    ensures multiset(run[k].added) + multiset(run[k].poised) == multiset(run[j].added) + multiset(run[j].poised)
    decreases k - j
  {
    if j < k {
      ShutdownIsFinal(steps, run, j, k - 1);
      StepAfterShutdown(run[k - 1], run[k], steps[k - 1]);
    }
  }

  /** That nothing is left behind once the consumer has been stopped holds in every continuation of a
      run if and only if no producer is poised when it is stopped: this is the one half. */
  lemma NothingLeftBehind<T>(steps: seq<Step<T>>, run: seq<State<T>>, j: nat, k: nat)
    requires IsRun(steps, run) && j <= k < |run| && Enabled(run[j], Stop) && run[j].poised == []
    ensures run[k].added == run[j].taken
  {
    StopAfterDrain(steps, run, j);
    ShutdownIsFinal(steps, run, j, k);
  }

  /** And this the other: a poised producer may still add. */
  lemma PoisedLeftBehind<T>(steps: seq<Step<T>>, run: seq<State<T>>)
    requires IsRun(steps, run) && Enabled(run[|run| - 1], Stop) && run[|run| - 1].poised != []
    ensures var last := run[|run| - 1];
            && Enabled(last, Push(0)) && IsRun(steps + [Push(0)], run + [Next(last, Push(0))])
            && Next(last, Push(0)).added != last.taken
  {
    StopAfterDrain(steps, run, |run| - 1);
    var steps', run' := steps + [Push(0)], run + [Next(run[|run| - 1], Push(0))];
    forall k {:trigger steps'[k]} | 0 <= k < |steps'|
      ensures Enabled(run'[k], steps'[k]) && run'[k + 1] == Next(run'[k], steps'[k])
    {
      if k < |steps| {
        assert steps'[k] == steps[k] && run'[k] == run[k] && run'[k + 1] == run[k + 1];
      }
    }
  }

  /** A producer that read the flag before the shutdown can add after the stop. */
  lemma LatecomerIsLeftBehind()
    ensures var steps := [Check(7), Shutdown, Stop, Push(0)];
            var run := [Initial(), Initial().(poised := [7]), Initial().(poised := [7], shouldExit := true),
                        Initial().(poised := [7], shouldExit := true, stopped := true),
                        Initial().(shouldExit := true, stopped := true, producer := [7], added := [7], size := 1)];
            IsRun(steps, run) && run[4].added != run[4].taken
  {
  }
}
