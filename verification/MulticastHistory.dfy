/** What has once been proposed, decided or handled stays so, in every run. */
module MulticastHistory {
  import opened Messages
  import opened HoldBackQueues
  import opened ContinuousMsgSenders
  import opened MulticastServices
  import opened MulticastProtocol
  import opened MulticastFrames
  import opened MulticastSenders
  import opened MulticastReceivers
  import opened MulticastInvariant

  lemma HandleGrows(s: State, src: Pid, dst: Pid)
    requires Enabled(s, Receive(src, dst)) && WithinCounters(s)
    requires Inv(s)
    ensures Grows(s.hist, Apply(s, Receive(src, dst)).hist)
  {
    hide HistOk, RcvOk, SndOk, NetOk, CounterOk, ListsOk, MarkDeliverable, RemoveRecipient, OnlyBy;
    var m, p, h := Chan(s, src, dst)[0], s.procs[dst], s.hist;
    match m
    case Data(_, _, _) =>
      if m.Id() !in p.queue.pending {
        FirstDataIsNew(s, src, dst);
        GrowsByOne(h, AfterProposal(h, dst, m.Id(), p.latestSeq + 1), dst);
      }
    case Ack(_, _, _, _) =>
      AckAtHead(s, src, dst);
      AckIsObserved(s, src, dst);
      AckOnlyBy(s.hosts, h, p, m);
      GrowsByOne(h, AfterAck(h, p, m), p.id);
    case _ =>
  }

  lemma GrowsByOne(h: History, h': History, r: Pid)
    requires OnlyBy(h, h', r)
    ensures Grows(h, h')
  {
  }

  lemma StepGrows(s: State, step: Step)
    requires Enabled(s, step) && WithinCounters(Apply(s, step))
    requires Inv(s)
    ensures Grows(s.hist, Apply(s, step).hist)
  {
    hide HistOk, RcvOk, SndOk, NetOk, Grows;
    match step
    case Receive(src, dst) =>
      HandleKeepsSent(s, src, dst);
      HandleGrows(s, src, dst);
    case Multicast(p, data) =>
      MulticastIsNew(s, p, data);
      SentGrows(s, p, data);
    case _ => Unchanged(s.hist);
  }

  lemma Unchanged(h: History)
    ensures Grows(h, h)
  {
  }

  lemma SentGrows(s: State, p: Pid, data: nat)
    requires Enabled(s, Multicast(p, data))
    requires MsgIdentifier(StartMulticast(s.procs[p], s.hosts, data).msgCounter, p) !in s.hist.sent
    ensures Grows(s.hist, Apply(s, Multicast(p, data)).hist)
  {
    MulticastOnlyBy(s.hist, MsgIdentifier(StartMulticast(s.procs[p], s.hosts, data).msgCounter, p), data);
  }

  // Nothing in the history is ever taken back or changed: not a message, not a proposal, not a final key.
  lemma {:induction false} RunGrows(s: State, steps: seq<Step>, s': State)
    requires Inv(s) && Run(s, steps, s') && WithinCounters(s')
    ensures Grows(s.hist, s'.hist)
    decreases |steps|
  {
    hide Apply, Enabled, HistOk, RcvOk, SndOk, NetOk;
    if steps != [] {
      var s1 := Apply(s, steps[0]);
      RunEndsWithin(s1, steps[1..], s');
      StepKeepsInv(s, steps[0]);
      StepGrows(s, steps[0]);
      RunGrows(s1, steps[1..], s');
    }
  }

  // All acknowledgements a process ever sends for a message carry the same proposal.
  lemma OneProposalEach(s: State, steps: seq<Step>, s': State, r: Pid, p: Pid, a: Message, b: Message)
    requires Reachable(s) && Run(s, steps, s') && WithinCounters(s')
    requires a in Chan(s, r, p) && b in Chan(s', r, p) && a.Ack? && b.Ack? && a.Id() == b.Id()
    ensures a == b
  {
    hide HistOk, RcvOk, SndOk, NetOk;
    RunEndsWithin(s, steps, s');
    ReachableHasInv(s);
    RunKeepsInv(s, steps, s');
    RunGrows(s, steps, s');
    ChanIsOk(s, r, p);
    ChanIsOk(s', r, p);
  }

  // The final key of a message never changes once its sender has decided it.
  lemma FinalKeyIsFinal(s: State, steps: seq<Step>, s': State, m: MsgIdentifier)
    requires Reachable(s) && Run(s, steps, s') && WithinCounters(s') && m in s.hist.final
    ensures m in s'.hist.final && s'.hist.final[m] == s.hist.final[m]
  {
    hide HistOk, RcvOk, SndOk, NetOk;
    RunEndsWithin(s, steps, s');
    ReachableHasInv(s);
    RunGrows(s, steps, s');
  }

  // No copy of a data message travels behind its sequence message, or to a process that has handled one.
  lemma NoLateData(s: State, src: Pid, dst: Pid, j: nat)
    requires Reachable(s) && WithinCounters(s) && j < |Chan(s, src, dst)| && Chan(s, src, dst)[j].Data?
    ensures (dst, Chan(s, src, dst)[j].Id()) !in s.hist.marked
    ensures forall i :: 0 <= i < j && Chan(s, src, dst)[i].Seq? ==>
              Chan(s, src, dst)[i].Id() != Chan(s, src, dst)[j].Id()
  {
    hide HistOk, RcvOk, SndOk, NetOk;
    ReachableHasInv(s);
    ChanIsOk(s, src, dst);
    assert Chan(s, src, dst)[j] in Chan(s, src, dst);
  }
}
