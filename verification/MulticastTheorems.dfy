/** What the multicast promises, in every reachable state of every run. */
module MulticastTheorems {
  import opened Messages
  import opened HoldBackQueues
  import opened ContinuousMsgSenders
  import opened MulticastServices
  import opened MulticastProtocol
  import opened MulticastSenders
  import opened MulticastReceivers
  import opened MulticastInvariant

  // The messages process p has delivered, in order, with the keys it delivered them under.
  function Log(s: State, p: Pid): seq<PendingMsg>
    requires p in s.procs
  {
    s.procs[p].queue.delivered
  }

  function KeyOf(e: PendingMsg): Key {
    Key(e.finalSeqId, e.finalSeqProposer)
  }

  /* ----- what a sender knows ----- */

  lemma SenderAt(s: State, p: Pid, k: nat)
    requires Inv(s) && p in s.hosts && MsgIdentifier(k, p) in s.hist.sent
    ensures p in s.procs && s.procs[p].id == p && MsgSndOk(s.hosts, s.hist, s.procs[p], k) && HistOk(s.hosts, s.hist)
  {
    hide HistOk, RcvOk, NetOk, CounterOk, ListsOk, MsgSndOk;
    ProcAt(s, p);
  }

  // Of each message a process has multicast it keeps, for good, exactly the proposals of those that have
  // acknowledged it. It has decided the final key exactly when all have, and that is the maximum of them.
  lemma SenderKnows(s: State, p: Pid, k: nat)
    requires Reachable(s) && WithinCounters(s) && p in s.hosts && MsgIdentifier(k, p) in s.hist.sent
    ensures p in s.procs
    ensures var m, h, proposals := MsgIdentifier(k, p), s.hist, ProposalsFor(s.procs[p], k);
            && proposals.Keys == s.hosts - Waiting(s.procs[p].dataList, k)
            && (forall r :: r in proposals ==> (r, m) in h.prop && h.prop[(r, m)] == proposals[r])
            && (m in h.final <==> proposals.Keys == s.hosts)
            && (m in h.final ==> IsMaxProposal(proposals, h.final[m]))
  {
    hide Inv;
    ReachableHasInv(s);
    hide Reachable, WithinCounters;
    SenderAt(s, p, k);
    hide Waiting, ProposalsFor, ProposalsDiffer;
    var m := MsgIdentifier(k, p);
    if m in s.hist.final {
      assert FinalOk(s.hosts, s.hist, m);
    }
  }

  /* ----- logs only grow ----- */

  lemma ProcessExtendsLog(hosts: set<Pid>, h: History, r: Pid, p: Proc, m: Message)
    requires HistOk(hosts, h) && RcvOk(h, r, p) && r in hosts && (m.Seq? ==> SeqOk(h, m.sender, m)) && m.sender in hosts
    ensures p.queue.delivered <= Process(p, hosts, m).proc.queue.delivered
  {
    hide RemoveRecipient, MaxProposal, MarkDeliverable;
    if m.Seq? {
      if (r, m.Id()) in h.marked {
        RepeatedSeqIsIdle(hosts, h, r, p, m);
      } else {
        FirstSeqAdvances(hosts, h, r, p, m);
        FirstSeqHasEffect(hosts, h, r, p, m);
      }
    }
  }

  lemma StepExtendsLogs(s: State, step: Step, r: Pid)
    requires Enabled(s, step) && r in s.hosts && Inv(s)
    ensures r in s.procs && r in Apply(s, step).procs && Log(s, r) <= Log(Apply(s, step), r)
  {
    hide HistOk, RcvOk, SndOk, NetOk, Process, CounterOk, ListsOk;
    if step.Receive? {
      HeadIsOk(s, step.src, step.dst);
      ProcAt(s, step.dst);
      ProcessExtendsLog(s.hosts, s.hist, step.dst, s.procs[step.dst], Chan(s, step.src, step.dst)[0]);
    }
  }

  lemma {:induction false} RunExtendsLogs(s: State, steps: seq<Step>, s': State, r: Pid)
    requires Inv(s) && Run(s, steps, s') && WithinCounters(s') && r in s.hosts
    ensures r in s.procs && r in s'.procs && Log(s, r) <= Log(s', r)
    decreases |steps|
  {
    hide Apply, Enabled, HistOk, RcvOk, SndOk, NetOk;
    if steps != [] {
      var s1 := Apply(s, steps[0]);
      RunEndsWithin(s1, steps[1..], s');
      StepKeepsInv(s, steps[0]);
      StepExtendsLogs(s, steps[0], r);
      RunExtendsLogs(s1, steps[1..], s', r);
    }
  }

  /* ----- the delivery barrier ----- */

  lemma DeliveredEntry(s: State, r: Pid, e: PendingMsg)
    requires Inv(s) && r in s.hosts && e in Log(s, r)
    ensures EntryOk(s.hist, r, e) && e.deliverable && e.Id() in s.hist.final && s.hist.final[e.Id()] == KeyOf(e)
  {
    var p := s.procs[r];
    assert RcvOk(s.hist, r, p);
    assert e in p.queue.Timeline();
  }

  lemma LogIsSorted(s: State, r: Pid, i: nat, j: nat)
    requires Inv(s) && r in s.hosts && i < j < |Log(s, r)|
    ensures Log(s, r)[i].Less(Log(s, r)[j]) && KeyOf(Log(s, r)[i]).Less(KeyOf(Log(s, r)[j]))
  {
    var p := s.procs[r];
    assert RcvOk(s.hist, r, p);
    StrictlySortedConcat(p.queue.delivered, p.queue.deque);
    DeliveredEntry(s, r, Log(s, r)[i]);
    DeliveredEntry(s, r, Log(s, r)[j]);
  }

  // Every numbered message a process has not delivered has a larger key than all it has delivered.
  lemma BarrierNow(s: State, r: Pid, e: PendingMsg, m: MsgIdentifier)
    requires Inv(s) && r in s.hosts && e in Log(s, r) && m in s.hist.final && m !in Ids(Log(s, r))
    ensures KeyOf(e).Less(s.hist.final[m])
  {
    var p := s.procs[r];
    assert RcvOk(s.hist, r, p) && FinalOk(s.hosts, s.hist, m);
    assert m in Ids(p.queue.Timeline());
    var d :| d in p.queue.Timeline() && d.Id() == m;
    assert d !in p.queue.delivered;
    StrictlySortedConcat(p.queue.delivered, p.queue.deque);
    assert e.Less(d);
    assert EntryOk(s.hist, r, d);
    DeliveredEntry(s, r, e);
  }

  // The barrier over time: whatever key a message gets later, if r had not delivered it when it
  // delivered e, that key is larger than the one of e.
  lemma DeliveryBarrier(s: State, steps: seq<Step>, s': State, r: Pid, e: PendingMsg, m: MsgIdentifier)
    requires Reachable(s) && Run(s, steps, s') && WithinCounters(s')
    requires r in s.hosts && r in s.procs && e in Log(s, r) && m !in Ids(Log(s, r)) && m in s'.hist.final
    ensures KeyOf(e).Less(s'.hist.final[m])
  {
    RunEndsWithin(s, steps, s');
    ReachableHasInv(s);
    RunKeepsInv(s, steps, s');
    RunExtendsLogs(s, steps, s', r);
    BarrierFromPrefix(s', r, Log(s, r), e, m);
  }

  lemma BarrierFromPrefix(s: State, r: Pid, prefix: seq<PendingMsg>, e: PendingMsg, m: MsgIdentifier)
    requires Inv(s) && r in s.hosts && prefix <= Log(s, r) && e in prefix && m !in Ids(prefix) && m in s.hist.final
    ensures KeyOf(e).Less(s.hist.final[m])
  {
    hide HistOk, RcvOk, SndOk, NetOk;
    var log := Log(s, r);
    var i :| 0 <= i < |prefix| && prefix[i] == e;
    assert log[i] == e;
    if m in Ids(log) {
      var d :| d in log && d.Id() == m;
      var j :| 0 <= j < |log| && log[j] == d;
      assert forall k :: 0 <= k < |prefix| ==> prefix[k].Id() in Ids(prefix) && prefix[k] == log[k];
      assert j >= |prefix|;
      LogIsSorted(s, r, i, j);
      DeliveredEntry(s, r, d);
    } else {
      BarrierNow(s, r, e, m);
    }
  }

  /* ----- agreement ----- */

  // One message has one entry, whoever delivers it.
  lemma SameMessageSameEntry(s: State, p: Pid, q: Pid, a: PendingMsg, b: PendingMsg)
    requires Inv(s) && p in s.hosts && q in s.hosts && a in Log(s, p) && b in Log(s, q) && a.Id() == b.Id()
    ensures a == b
  {
    DeliveredEntry(s, p, a);
    DeliveredEntry(s, q, b);
  }

  lemma NoRepeats(s: State, p: Pid, i: nat, j: nat)
    requires Inv(s) && p in s.hosts && i < |Log(s, p)| && j < |Log(s, p)| && Log(s, p)[i].Id() == Log(s, p)[j].Id()
    ensures i == j
  {
    SameMessageSameEntry(s, p, p, Log(s, p)[i], Log(s, p)[j]);
    if i < j {
      LogIsSorted(s, p, i, j);
    } else if j < i {
      LogIsSorted(s, p, j, i);
    }
  }

  function CommonPrefix(a: seq<PendingMsg>, b: seq<PendingMsg>): (k: nat)
    ensures k <= |a| && k <= |b| && a[..k] == b[..k]
    ensures k < |a| && k < |b| ==> a[k] != b[k]
  {
    if a == [] || b == [] || a[0] != b[0] then
      0
    else
      var k := CommonPrefix(a[1..], b[1..]);
      assert a[..k + 1] == [a[0]] + a[1..][..k];
      assert b[..k + 1] == [b[0]] + b[1..][..k];
      k + 1
  }

  // Where two logs part, neither entry can have the smaller key.
  lemma NoFork(s: State, p: Pid, q: Pid, k: nat)
    requires Inv(s) && p in s.hosts && q in s.hosts && k < |Log(s, p)| && k < |Log(s, q)|
    requires Log(s, p)[..k] == Log(s, q)[..k] && Log(s, p)[k] != Log(s, q)[k]
    ensures !KeyOf(Log(s, p)[k]).Less(KeyOf(Log(s, q)[k]))
  {
    hide HistOk, RcvOk, SndOk, NetOk;
    var a, b := Log(s, p)[k], Log(s, q)[k];
    DeliveredEntry(s, p, a);
    DeliveredEntry(s, q, b);
    if a.Id() in Ids(Log(s, q)) {
      var d :| d in Log(s, q) && d.Id() == a.Id();
      var j :| 0 <= j < |Log(s, q)| && Log(s, q)[j] == d;
      SameMessageSameEntry(s, p, q, a, d);
      if j < k {
        assert Log(s, p)[..k][j] == Log(s, q)[..k][j];
        NoRepeats(s, p, j, k);
      } else {
        LogIsSorted(s, q, k, j);
      }
    } else {
      BarrierNow(s, q, b, a.Id());
    }
  }

  lemma LogsAgree(s: State, p: Pid, q: Pid)
    requires Inv(s) && p in s.hosts && q in s.hosts
    ensures Log(s, p) <= Log(s, q) || Log(s, q) <= Log(s, p)
  {
    hide HistOk, RcvOk, SndOk, NetOk;
    var a, b := Log(s, p), Log(s, q);
    var k := CommonPrefix(a, b);
    if k < |a| && k < |b| {
      NoFork(s, p, q, k);
      NoFork(s, q, p, k);
      DeliveredEntry(s, p, a[k]);
      DeliveredEntry(s, q, b[k]);
      FinalKeysDiffer(s.hosts, s.hist, a[k].Id(), b[k].Id());
      SameMessageSameEntry(s, p, q, a[k], b[k]);
    }
  }

  // The logs of any two processes are always one a prefix of the other.
  lemma PrefixAgreement(s: State, p: Pid, q: Pid)
    requires Reachable(s) && WithinCounters(s) && p in s.hosts && q in s.hosts
    ensures p in s.procs && q in s.procs
    ensures Log(s, p) <= Log(s, q) || Log(s, q) <= Log(s, p)
  {
    ReachableHasInv(s);
    LogsAgree(s, p, q);
  }

  // The entry is a message some host multicast, with its data.
  ghost predicate Genuine(s: State, e: PendingMsg) {
    && e.Id() in s.hist.sent && e.Id().sender in s.hosts
    && e.dataMsg == Data(e.Id().sender, e.Id().msgId, s.hist.sent[e.Id()])
  }

  lemma DeliveredIsGenuine(s: State, p: Pid, e: PendingMsg)
    requires Inv(s) && p in s.hosts && e in Log(s, p)
    ensures Genuine(s, e)
  {
    DeliveredEntry(s, p, e);
  }

  // Nothing is delivered twice, and what is delivered was multicast, with that data.
  lemma DeliveredAtMostOnce(s: State, p: Pid)
    requires Reachable(s) && WithinCounters(s) && p in s.hosts
    ensures p in s.procs
    ensures forall i, j :: 0 <= i < j < |Log(s, p)| ==> Log(s, p)[i].Id() != Log(s, p)[j].Id()
    ensures forall e :: e in Log(s, p) ==> Genuine(s, e)
  {
    hide HistOk, RcvOk, SndOk, NetOk, EntryOk;
    ReachableHasInv(s);
    forall i, j | 0 <= i < j < |Log(s, p)| ensures Log(s, p)[i].Id() != Log(s, p)[j].Id() {
      if Log(s, p)[i].Id() == Log(s, p)[j].Id() {
        NoRepeats(s, p, i, j);
      }
    }
    forall e | e in Log(s, p) ensures Genuine(s, e) {
      DeliveredIsGenuine(s, p, e);
    }
  }

  // No handler ever throws: a repeated data message always finds its cached acknowledgement, and
  // every answer goes to a known host.
  lemma NoProcessCrashes(s: State, p: Pid)
    requires Reachable(s) && WithinCounters(s) && p in s.hosts
    ensures Running(s, p)
  {
    ReachableHasInv(s);
    ProcAt(s, p);
  }

  // The sender numbers a message once, and no two messages get the same number.
  lemma FinalKeysAreUnique(s: State, m1: MsgIdentifier, m2: MsgIdentifier)
    requires Reachable(s) && WithinCounters(s) && m1 in s.hist.final && m2 in s.hist.final
    ensures s.hist.final[m1] == s.hist.final[m2] ==> m1 == m2
  {
    ReachableHasInv(s);
    if s.hist.final[m1] == s.hist.final[m2] {
      FinalKeysDiffer(s.hosts, s.hist, m1, m2);
    }
  }

  // Only an acknowledgement makes the list of sequence messages longer, the one that completes the proposals.
  lemma SeqListGrows(hosts: set<Pid>, h: History, p: Proc, m: Message)
    requires ListsOk(h, p) && (m.Ack? ==> AckOk(hosts, h, p, m) && MsgSndOk(hosts, h, p, m.msgId))
    ensures |Process(p, hosts, m).proc.seqList| > |p.seqList| ==> m.Ack? && Completes(p, m) && m.Id() !in h.final
  {
    hide MaxProposal, MarkDeliverable, AddToQueue, RemoveRecipient;
    if m.Ack? {
      AckShape(hosts, h, p, m);
      hide ProcessAck;
      if Completes(p, m) {
        ProposalsAfterAck(hosts, h, p, m);
      }
    } else if m.SeqAck? {
      RemovedLoad(p.seqList, m.msgId, m.ackSender);
    }
  }

  lemma NumberedOnce(s: State, src: Pid, dst: Pid)
    requires Reachable(s) && WithinCounters(s) && Enabled(s, Receive(src, dst))
    ensures var m := Chan(s, src, dst)[0];
            var s' := Apply(s, Receive(src, dst));
            && dst in s'.procs
            && (|s'.procs[dst].seqList| > |s.procs[dst].seqList| ==>
                  m.Ack? && m.Id() !in s.hist.final && m.Id() in s'.hist.final)
  {
    hide HistOk, RcvOk, SndOk, NetOk, ListsOk, CounterOk, MsgSndOk, AckOk;
    ReachableHasInv(s);
    var m, p := Chan(s, src, dst)[0], s.procs[dst];
    if m.Ack? {
      AckAtHead(s, src, dst);
      AckIsObserved(s, src, dst);
    } else {
      ProcAt(s, dst);
    }
    hide ProcessData, ProcessAck, ProcessSeq, ProcessSeqAck, ProcsOk;
    SeqListGrows(s.hosts, s.hist, p, m);
  }

  // Every counter, proposal and final number is at most the number of first receipts, so at most
  // the number of processes times the number of messages.
  lemma ArithmeticBound(s: State, p: Pid)
    requires Reachable(s) && WithinCounters(s) && p in s.hosts
    ensures p in s.procs
    ensures s.procs[p].latestSeq <= |s.hist.prop| <= |s.hosts| * |s.hist.sent| < U32_LIMIT
    ensures forall m :: (p, m) in s.hist.prop ==> s.hist.prop[(p, m)] <= |s.hist.prop|
    ensures forall m :: m in s.hist.final ==> s.hist.final[m].seqId <= |s.hist.prop|
    ensures s.procs[p].msgCounter <= |s.hist.sent|
  {
    ReachableHasInv(s);
    ProcAt(s, p);
    ProposalsAreFew(s.hosts, s.hist);
    forall m | m in s.hist.final ensures s.hist.final[m].seqId <= |s.hist.prop| {
      assert FinalOk(s.hosts, s.hist, m);
    }
  }

  /* ----- quiescence ----- */

  ghost predicate Quiet(s: State) {
    forall p :: p in s.hosts ==> p in s.procs && s.procs[p].dataList == [] && s.procs[p].seqList == []
  }

  // With nothing left to retransmit, every process has handled the sequence message of every message.
  lemma QuietIsMarked(s: State, r: Pid, m: MsgIdentifier)
    requires Inv(s) && Quiet(s) && r in s.hosts && m in s.hist.sent
    ensures m in s.hist.final && (r, m) in s.hist.marked && (r, m) in s.hist.prop
  {
    var p := s.procs[m.sender];
    assert m.sender in s.hosts;
    ProcAt(s, m.sender);
    assert MsgIdentifier(m.msgId, p.id) == m && MsgSndOk(s.hosts, s.hist, p, m.msgId);
    assert FinalOk(s.hosts, s.hist, m);
  }

  lemma QuietQueueIsEmpty(s: State, r: Pid)
    requires Inv(s) && Quiet(s) && r in s.hosts
    ensures s.procs[r].queue.deque == []
  {
    var p := s.procs[r];
    assert RcvOk(s.hist, r, p);
    if p.queue.deque != [] {
      var e := p.queue.deque[0];
      assert e in p.queue.Timeline() && EntryOk(s.hist, r, e);
      QuietIsMarked(s, r, e.Id());
    }
  }

  lemma QuietLogIsComplete(s: State, r: Pid)
    requires Inv(s) && Quiet(s) && r in s.hosts
    ensures Ids(Log(s, r)) == s.hist.sent.Keys
  {
    var p := s.procs[r];
    ProcAt(s, r);
    QuietQueueIsEmpty(s, r);
    assert p.queue.Timeline() == p.queue.delivered;
    forall m ensures m in Ids(Log(s, r)) <==> m in s.hist.sent.Keys {
      if m in s.hist.sent {
        QuietIsMarked(s, r, m);
      }
      if m in Ids(Log(s, r)) {
        var e :| e in Log(s, r) && e.Id() == m;
        DeliveredEntry(s, r, e);
      }
    }
  }

  lemma CompletePrefixIsWhole(s: State, p: Pid, q: Pid)
    requires Inv(s) && p in s.hosts && q in s.hosts
    requires Log(s, p) <= Log(s, q) && Ids(Log(s, q)) <= Ids(Log(s, p))
    ensures Log(s, p) == Log(s, q)
  {
    hide HistOk, RcvOk, SndOk, NetOk;
    var a, b := Log(s, p), Log(s, q);
    if |a| < |b| {
      assert b[|a|].Id() in Ids(b);
      var e :| e in a && e.Id() == b[|a|].Id();
      var i :| 0 <= i < |a| && a[i] == e;
      assert b[i] == e;
      NoRepeats(s, q, i, |a|);
    }
  }

  lemma QuietIsComplete(s: State, p: Pid, q: Pid)
    requires Inv(s) && Quiet(s) && p in s.hosts && q in s.hosts
    ensures s.procs[p].queue.deque == [] && Log(s, p) == Log(s, q) && Ids(Log(s, p)) == s.hist.sent.Keys
  {
    hide HistOk, RcvOk, SndOk, NetOk;
    QuietQueueIsEmpty(s, p);
    QuietLogIsComplete(s, p);
    QuietLogIsComplete(s, q);
    LogsAgree(s, p, q);
    if Log(s, p) <= Log(s, q) {
      CompletePrefixIsWhole(s, p, q);
    } else {
      CompletePrefixIsWhole(s, q, p);
    }
  }

  // When no process has anything to retransmit, whatever is still on its way: every process has
  // delivered every message that was ever multicast, exactly once, all in the same order.
  lemma QuiescenceCompleteness(s: State, p: Pid, q: Pid)
    requires Reachable(s) && WithinCounters(s) && Quiet(s) && p in s.hosts && q in s.hosts
    ensures s.procs[p].queue.deque == []
    ensures Ids(Log(s, p)) == s.hist.sent.Keys && |Log(s, p)| == |s.hist.sent|
    ensures Log(s, p) == Log(s, q)
  {
    ReachableHasInv(s);
    QuietIsComplete(s, p, q);
    DeliveredAtMostOnce(s, p);
    DistinctIdsCount(Log(s, p));
  }

  lemma {:induction false} DistinctIdsCount(t: seq<PendingMsg>)
    requires forall i, j :: 0 <= i < j < |t| ==> t[i].Id() != t[j].Id()
    ensures |Ids(t)| == |t|
  {
    if t != [] {
      var n := |t| - 1;
      DistinctIdsCount(t[..n]);
      assert t == t[..n] + [t[n]];
      assert Ids(t) == Ids(t[..n]) + {t[n].Id()};
      forall e | e in t[..n] ensures e.Id() != t[n].Id() {
        var i :| 0 <= i < n && t[i] == e;
      }
    }
  }
}
