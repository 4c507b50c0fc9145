/** A command without events is answered when the entry before it is committed. So a refusal reaches the
    client only after the state it was judged against has committed. */
module Refusals {
  import opened RaftTypes
  import opened RaftCluster
  import opened RaftTheorems
  import opened LeaderPipeline
  import EventLoading
  import Handover
  import ReplyLoop

  /** What a server shows as committed. */
  function Shown(n: Node): seq<LogEntry> {
    if n.commitIndex <= |n.log| then n.log[..n.commitIndex] else n.log
  }

  /** The task answers a command that was refused in the k-th state of the pipeline. */
  ghost predicate IsRefusal<E>(h: Hosted<E>, k: nat, t: ReplyLoop.Task) {
    k < |h.run| && h.run[k].wait.Leading? && t.index == h.run[k].lastCommandId && t.term == h.term
  }

  /** The command loop took over in step w. */
  ghost predicate SwapsAt<E>(h: Hosted<E>, w: nat, k: nat) {
    w < k < |h.run| && k <= |h.steps| && h.steps[w].Swap?
  }

  lemma ShownAt(n: Node, index: nat, term: nat)
    requires ReplyLoop.CommittedAt(Shown(n), index, term)
    ensures 1 <= index <= |n.log| && n.log[index - 1].term == term && Shown(n)[..index] == n.log[..index]
  {
  }

  /** When a refusal is answered with its own code, everything the log had when the command was judged, and
      everything submitted by then, is committed, in that order and with nothing in between. */
  lemma RefusalIsSound<E>(members: set<nat>, steps: seq<Step>, run: seq<Cluster>, d: EventLoading.Decoder<E>, h: Hosted<E>, k: nat,
                          psteps: seq<ReplyLoop.Step>, prun: seq<ReplyLoop.State>, q: nat, t: ReplyLoop.Task, j: nat)
    requires IsRun(members, steps, run) && Hosts(steps, run, d, h) && ToTheEnd(steps, run, h)
    requires ReplyLoop.IsRun(psteps, prun) && q < |prun| && (t in prun[q].queue || t in prun[q].popped)
    requires ReplyLoop.Own(t.code) in t.replies && IsRefusal(h, k, t)
    requires j < |run| && h.v in run[j].nodes && prun[q].committed == Shown(run[j].nodes[h.v])
    ensures t.index <= |prun[q].committed|
    ensures prun[q].committed[..t.index] == h.run[0].node.log + h.run[k].submitted
  {
    ReplyLoop.RepliesAreSound(psteps, prun, q, t);
    ShownAt(run[j].nodes[h.v], t.index, t.term);
    RefusalRestsOnLog(members, steps, run, d, h, k, j, h.v);
  }

  /** If the server still led when the states were swapped, the state a command is judged against holds the
      events of the log up to the last command id, all of them and nothing else. */
  lemma JudgedState<E>(d: EventLoading.Decoder<E>, h: Hosted<E>, w: nat, k: nat)
    requires Handover.IsRun(d, h.steps, h.run) && SwapsAt(h, w, k) && Handover.Leads(h.run[w])
    ensures h.run[w].offset <= |h.run[0].node.log|
    ensures h.run[k].handed + EventLoading.Bundles(d, h.run[k].submitted)
            == EventLoading.Bundles(d, (h.run[0].node.log + h.run[k].submitted)[h.run[w].offset..])
  {
    var base, o, more := h.run[0].node.log, h.run[w].offset, h.run[k].submitted;
    Handover.RunStep(d, h.steps, h.run, w);
    Handover.RunInv(d, h.steps, h.run, w);
    Handover.HandedStateIsComplete(d, h.steps, h.run, w);
    Handover.HandedStays(d, h.steps, h.run, w + 1, k);
    EventLoading.BundlesConcat(d, base[o..], more);
    assert (base + more)[o..] == base[o..] + more;
  }

  /** So what a refusal was judged against is the committed log. */
  lemma RefusedOnCommittedState<E>(members: set<nat>, steps: seq<Step>, run: seq<Cluster>, d: EventLoading.Decoder<E>, h: Hosted<E>, w: nat, k: nat,
                                   psteps: seq<ReplyLoop.Step>, prun: seq<ReplyLoop.State>, q: nat, t: ReplyLoop.Task, j: nat)
    requires IsRun(members, steps, run) && Hosts(steps, run, d, h) && ToTheEnd(steps, run, h)
    requires ReplyLoop.IsRun(psteps, prun) && q < |prun| && (t in prun[q].queue || t in prun[q].popped)
    requires ReplyLoop.Own(t.code) in t.replies && IsRefusal(h, k, t)
    requires j < |run| && h.v in run[j].nodes && prun[q].committed == Shown(run[j].nodes[h.v])
    requires SwapsAt(h, w, k) && Handover.Leads(h.run[w])
    ensures h.run[w].offset <= t.index <= |prun[q].committed|
    ensures h.run[k].handed + EventLoading.Bundles(d, h.run[k].submitted)
            == EventLoading.Bundles(d, prun[q].committed[h.run[w].offset..t.index])
  {
    RefusalIsSound(members, steps, run, d, h, k, psteps, prun, q, t, j);
    JudgedState(d, h, w, k);
    var c, o := prun[q].committed, h.run[w].offset;
    assert c[o..t.index] == c[..t.index][o..];
  }

  /** What is submitted after the term has been lost never comes into a log. */
  lemma NothingGetsIn<E>(members: set<nat>, steps: seq<Step>, run: seq<Cluster>, d: EventLoading.Decoder<E>, h: Hosted<E>, w: nat,
                         j: nat, u: nat, index: nat)
    requires IsRun(members, steps, run) && Hosts(steps, run, d, h) && w < |h.run|
    requires !Handover.Leads(h.run[w]) && h.run[w].submitted == []
    requires j < |run| && u in run[j].nodes && 1 <= index <= |run[j].nodes[u].log|
    requires run[j].nodes[u].log[index - 1].term == h.term
    ensures index <= |h.run[0].node.log|
  {
    var base := h.run[0].node.log;
    Handover.RunInv(d, h.steps, h.run, w);
    PipeAt(members, steps, run, d, h, w);
    assert base + [] == base;
    FrozenFrom(members, steps, run, h.v, h.term, base, h.at[w], |run| - 1);
    InTermLog(members, steps, run, j, u, index, h.term);
  }

  lemma TakenState<E>(d: EventLoading.Decoder<E>, h: Hosted<E>, w: nat, k: nat)
    requires Handover.IsRun(d, h.steps, h.run) && SwapsAt(h, w, k)
    ensures var n, o := h.run[w].node, h.run[w].offset;
            if o <= |Shown(n)| then h.run[k].handed <= EventLoading.Bundles(d, Shown(n)[o..]) else h.run[k].handed == []
  {
    var s := h.run[w];
    Handover.RunStep(d, h.steps, h.run, w);
    Handover.RunInv(d, h.steps, h.run, w);
    Handover.HandedStays(d, h.steps, h.run, w + 1, k);
    if s.offset <= s.node.commitIndex {
      Handover.BetweenIs(d, s.node.log, s.offset, s.node.commitIndex);
      assert Shown(s.node)[s.offset..] == s.node.log[s.offset..s.node.commitIndex];
    }
  }

  /** And if it led no longer when the states were swapped, nothing had been submitted when the command was
      refused, and the state it took holds events of entries that it had committed by then. */
  lemma RefusedAfterTheTerm<E>(members: set<nat>, steps: seq<Step>, run: seq<Cluster>, d: EventLoading.Decoder<E>, h: Hosted<E>, w: nat, k: nat,
                               psteps: seq<ReplyLoop.Step>, prun: seq<ReplyLoop.State>, q: nat, t: ReplyLoop.Task, j: nat)
    requires IsRun(members, steps, run) && Hosts(steps, run, d, h) && ToTheEnd(steps, run, h)
    requires ReplyLoop.IsRun(psteps, prun) && q < |prun| && (t in prun[q].queue || t in prun[q].popped)
    requires ReplyLoop.Own(t.code) in t.replies && IsRefusal(h, k, t)
    requires j < |run| && h.v in run[j].nodes && prun[q].committed == Shown(run[j].nodes[h.v])
    requires SwapsAt(h, w, k) && !Handover.Leads(h.run[w])
    ensures h.run[k].submitted == []
    ensures var n, o := h.run[w].node, h.run[w].offset;
            if o <= |Shown(n)| then h.run[k].handed <= EventLoading.Bundles(d, Shown(n)[o..]) else h.run[k].handed == []
  {
    TakenState(d, h, w, k);
    RefusalIsSound(members, steps, run, d, h, k, psteps, prun, q, t, j);
    ReplyLoop.RepliesAreSound(psteps, prun, q, t);
    ShownAt(run[j].nodes[h.v], t.index, t.term);
    Handover.RunStep(d, h.steps, h.run, w);
    PipeAt(members, steps, run, d, h, w);
    NothingGetsIn(members, steps, run, d, h, w, j, h.v, t.index);
  }
}
