/** Every step of the multicast keeps the invariant, so every reachable state has it. */
module MulticastInvariant {
  import opened FiniteSets
  import opened Messages
  import opened HoldBackQueues
  import opened ContinuousMsgSenders
  import opened MulticastServices
  import opened MulticastProtocol
  import opened MulticastFrames
  import opened MulticastSenders
  import opened MulticastReceivers

  /* ----- one process changes ----- */

  predicate SameSender(p: Proc, p': Proc) {
    p' == p.(latestSeq := p'.latestSeq, queue := p'.queue, cache := p'.cache, crashed := p'.crashed)
  }

  predicate SameReceiver(p: Proc, p': Proc) {
    p' == p.(msgCounter := p'.msgCounter, proposed := p'.proposed, dataList := p'.dataList, seqList := p'.seqList)
  }

  lemma SndSameFields(hosts: set<Pid>, h: History, p: Proc, p': Proc)
    requires SndOk(hosts, h, p) && SameSender(p, p')
    ensures SndOk(hosts, h, p')
  {
    forall k: nat | MsgIdentifier(k, p.id) in h.sent ensures MsgSndOk(hosts, h, p', k) {
      assert MsgSndOk(hosts, h, p, k);
    }
  }

  lemma RcvSameFields(h: History, r: Pid, p: Proc, p': Proc)
    requires RcvOk(h, r, p) && SameReceiver(p, p')
    ensures RcvOk(h, r, p')
  {
  }

  lemma ProcAt(s: State, r: Pid)
    requires ProcsOk(s) && r in s.hosts
    ensures var p := s.procs[r];
            && p.id == r && !p.crashed
            && RcvOk(s.hist, r, p) && SndOk(s.hosts, s.hist, p) && CounterOk(s.hist, p) && ListsOk(s.hist, p)
    ensures HistOk(s.hosts, s.hist)
  {
    assert RcvOk(s.hist, r, s.procs[r]) && SndOk(s.hosts, s.hist, s.procs[r]);
  }

  lemma UpdateProc(s: State, r: Pid, p': Proc, h': History)
    requires ProcsOk(s) && r in s.hosts && OnlyBy(s.hist, h', r)
    requires HistOk(s.hosts, h') && RcvOk(h', r, p') && SndOk(s.hosts, h', p')
    ensures ProcsOk(s.(procs := s.procs[r := p'], hist := h'))
  {
    hide HistOk, RcvOk, SndOk, Grows, QuietFor;
    forall q | q in s.hosts && q != r ensures RcvOk(h', q, s.procs[q]) && SndOk(s.hosts, h', s.procs[q]) {
      ProcAt(s, q);
      RcvFrame(s.hist, h', q, s.procs[q]);
      SndFrame(s.hosts, s.hist, h', s.procs[q]);
    }
  }

  /* ----- steps that only touch a channel, or only send ----- */

  lemma LoseKeepsInv(s: State, src: Pid, dst: Pid, i: nat)
    requires Inv(s) && Enabled(s, Lose(src, dst, i))
    ensures Inv(Apply(s, Lose(src, dst, i)))
  {
    hide HistOk, RcvOk, SndOk, ChanOk;
    var c := Chan(s, src, dst);
    ChanIsOk(s, src, dst);
    ChanErase(s.hist, src, dst, c, i);
    PutKeepsNet(s, src, dst, c[..i] + c[i + 1..]);
  }

  lemma RepeatKeepsInv(s: State, src: Pid, dst: Pid, i: nat)
    requires Inv(s) && Enabled(s, Repeat(src, dst, i))
    ensures Inv(Apply(s, Repeat(src, dst, i)))
  {
    hide HistOk, RcvOk, SndOk, ChanOk, Repeated;
    var c := Chan(s, src, dst);
    ChanIsOk(s, src, dst);
    ChanRepeat(s.hist, src, dst, c, i);
    PutKeepsNet(s, src, dst, Repeated(c, i));
  }

  lemma SwapKeepsInv(s: State, src: Pid, dst: Pid, i: nat)
    requires Inv(s) && Enabled(s, Swap(src, dst, i))
    ensures Inv(Apply(s, Swap(src, dst, i)))
  {
    hide HistOk, RcvOk, SndOk, ChanOk, Swapped;
    var c := Chan(s, src, dst);
    ChanIsOk(s, src, dst);
    ChanSwap(s.hist, src, dst, c, i);
    PutKeepsNet(s, src, dst, Swapped(c, i));
  }

  lemma RetransmitKeepsInv(s: State, p: Pid, r: Pid, m: Message)
    requires Inv(s) && Enabled(s, Retransmit(p, r, m))
    ensures Inv(Apply(s, Retransmit(p, r, m)))
  {
    hide HistOk, RcvOk, SndOk, ChanOk, PacketOk;
    ProcAt(s, p);
    ChanIsOk(s, p, r);
    if Holds(s.procs[p].dataList, r, m) {
      HeldDataIsUnnumbered(s.hosts, s.hist, s.procs[p], r, m);
    } else {
      HeldSeqIsFinal(s.hosts, s.hist, s.procs[p], r, m);
    }
    ChanAppend(s.hist, p, r, Chan(s, p, r), m);
  }

  lemma HostsBound(s: State)
    requires s.hosts != {} && WithinCounters(s)
    ensures |s.hist.sent| < U32_LIMIT
  {
    assert |s.hosts| >= 1;
    assert |s.hosts| * |s.hist.sent| >= 1 * |s.hist.sent|;
  }

  lemma MulticastKeepsInv(s: State, p: Pid, data: nat)
    requires Inv(s) && Enabled(s, Multicast(p, data)) && WithinCounters(Apply(s, Multicast(p, data)))
    ensures Inv(Apply(s, Multicast(p, data)))
  {
    hide HistOk, RcvOk, SndOk, CounterOk, ListsOk, OnlyBy, NetOk, ProcsOk, MulticastEffect, StartMulticast;
    var s' := Apply(s, Multicast(p, data));
    var proc := s.procs[p];
    var proc' := StartMulticast(proc, s.hosts, data);
    var m := MsgIdentifier(proc'.msgCounter, p);
    HostsBound(s');
    ProcAt(s, p);
    MulticastIsNew(s, p, data);
    MulticastHasEffect(s.hosts, s.hist, proc, data);
    MulticastOnlyBy(s.hist, m, data);
    MulticastKeepsHist(s.hosts, s.hist, m, data);
    MulticastKeepsSnd(s.hosts, s.hist, proc, data, proc');
    RcvFrame(s.hist, s'.hist, p, proc);
    RcvSameFields(s'.hist, p, proc, proc');
    UpdateProc(s, p, proc', s'.hist);
    MulticastKeepsNet(s, m, data, s'.procs);
  }

  lemma MulticastKeepsNet(s: State, m: MsgIdentifier, data: nat, procs: map<Pid, Proc>)
    requires NetOk(s) && m !in s.hist.sent
    ensures NetOk(s.(procs := procs, hist := AfterMulticast(s.hist, m, data)))
  {
    var h' := AfterMulticast(s.hist, m, data);
    MulticastOnlyBy(s.hist, m, data);
    forall src, dst, m | (src, dst) in s.net && m in s.net[(src, dst)] && m.Data? ensures (dst, m.Id()) !in h'.marked {
      assert PacketOk(s.hist, src, dst, m);
    }
    NetFrame(s, h');
  }

  lemma MulticastIsNew(s: State, p: Pid, data: nat)
    requires Inv(s) && Enabled(s, Multicast(p, data)) && |Apply(s, Multicast(p, data)).hist.sent| < U32_LIMIT
    ensures var proc' := StartMulticast(s.procs[p], s.hosts, data);
            proc'.msgCounter == s.procs[p].msgCounter + 1 && MsgIdentifier(proc'.msgCounter, p) !in s.hist.sent
    ensures |s.hist.sent| + 1 < U32_LIMIT
  {
    hide HistOk, RcvOk, MsgSndOk, ListsOk, ChanOk, NetOk;
    var proc := s.procs[p];
    ProcAt(s, p);
    var m := MsgIdentifier(U32Succ(proc.msgCounter), p);
    assert s.hist.sent[m := data].Keys == s.hist.sent.Keys + {m};
    SuccWrapsOnlyAtLimit(proc.msgCounter);
    assert m !in s.hist.sent;
  }

  /* ----- receiving ----- */

  function Pop(s: State, src: Pid, dst: Pid): State
    requires Chan(s, src, dst) != []
  {
    Put(s, src, dst, Chan(s, src, dst)[1..])
  }

  // With the head of the channel taken, no data message on its way is one its receiver has marked.
  ghost predicate NoMarkedData(s: State, src: Pid, dst: Pid, h': History)
    requires Chan(s, src, dst) != []
  {
    forall a, b, m :: (a, b) in Pop(s, src, dst).net && m in Pop(s, src, dst).net[(a, b)] && m.Data? ==>
      (b, m.Id()) !in h'.marked
  }

  lemma PopKeepsNet(s: State, src: Pid, dst: Pid, h': History)
    requires NetOk(s) && Chan(s, src, dst) != [] && Grows(s.hist, h') && NoMarkedData(s, src, dst, h')
    ensures NetOk(Pop(s, src, dst).(hist := h'))
  {
    hide HistOk, RcvOk, SndOk, Grows, ChanOk;
    ChanIsOk(s, src, dst);
    ChanErase(s.hist, src, dst, Chan(s, src, dst), 0);
    assert Chan(s, src, dst)[..0] + Chan(s, src, dst)[1..] == Chan(s, src, dst)[1..];
    PutKeepsNet(s, src, dst, Chan(s, src, dst)[1..]);
    NetFrame(Pop(s, src, dst), h');
  }

  lemma ReplyKeepsNet(s: State, src: Pid, dst: Pid, m: Message)
    requires NetOk(s) && src in s.hosts && dst in s.hosts && PacketOk(s.hist, src, dst, m) && !m.Data?
    ensures NetOk(Put(s, src, dst, Chan(s, src, dst) + [m]))
  {
    hide ChanOk, PacketOk;
    ChanIsOk(s, src, dst);
    ChanAppend(s.hist, src, dst, Chan(s, src, dst), m);
  }

  ghost predicate ReplyOk(s: State, h': History, dst: Pid, reply: Option<(Pid, Message)>) {
    reply.Some? ==> reply.value.0 in s.hosts && !reply.value.1.Data? && PacketOk(h', dst, reply.value.0, reply.value.1)
  }

  // The state is fine after the handler of the head of a channel has run.
  lemma FinishReceive(s: State, src: Pid, dst: Pid, p': Proc, h': History, reply: Option<(Pid, Message)>)
    requires Inv(s) && Chan(s, src, dst) != [] && OnlyBy(s.hist, h', dst) && dst in s.hosts
    requires HistOk(s.hosts, h') && RcvOk(h', dst, p') && SndOk(s.hosts, h', p')
    requires NoMarkedData(s, src, dst, h') && ReplyOk(s, h', dst, reply)
    ensures var s2 := Pop(s, src, dst).(procs := s.procs[dst := p'], hist := h');
            Inv(if reply.None? then s2 else Put(s2, dst, reply.value.0, Chan(s2, dst, reply.value.0) + [reply.value.1]))
  {
    hide HistOk, RcvOk, SndOk, Grows, QuietFor, ChanOk, PacketOk, NoMarkedData;
    UpdateProc(s, dst, p', h');
    PopKeepsNet(s, src, dst, h');
    var s2 := Pop(s, src, dst).(procs := s.procs[dst := p'], hist := h');
    if reply.Some? {
      ReplyKeepsNet(s2, dst, reply.value.0, reply.value.1);
    }
  }

  // The number of first receipts never reaches the width of the counters.
  lemma ProposalsAreFew(hosts: set<Pid>, h: History)
    requires HistOk(hosts, h)
    ensures |h.prop| <= |hosts| * |h.sent|
  {
    var pairs := Pairs(hosts, h.sent.Keys);
    forall rm | rm in h.prop.Keys ensures rm in pairs {
      assert (rm.0, rm.1) in h.prop;
    }
    assert h.prop.Keys <= pairs;
    PairsCount(hosts, h.sent.Keys);
    SubsetSize(h.prop.Keys, pairs);
  }

  function Pairs(a: set<Pid>, b: set<MsgIdentifier>): set<(Pid, MsgIdentifier)> {
    set r, m | r in a && m in b :: (r, m)
  }

  lemma {:induction false} PairsCount(a: set<Pid>, b: set<MsgIdentifier>)
    ensures |Pairs(a, b)| == |a| * |b|
    decreases |a|
  {
    if a == {} {
    } else {
      var r :| r in a;
      var rest := a - {r};
      PairsCount(rest, b);
      RowCount(r, b);
      assert Pairs(a, b) == Pairs(rest, b) + Pairs({r}, b);
      assert |a| == |rest| + 1;
      assert (|rest| + 1) * |b| == |rest| * |b| + |b|;
    }
  }

  lemma {:induction false} RowCount(r: Pid, b: set<MsgIdentifier>)
    ensures |Pairs({r}, b)| == |b|
    decreases |b|
  {
    if b == {} {
    } else {
      var m :| m in b;
      RowCount(r, b - {m});
      assert Pairs({r}, b) == Pairs({r}, b - {m}) + {(r, m)};
    }
  }

  // What the message at the head of a channel is, and where it may be answered.
  lemma HeadIsOk(s: State, src: Pid, dst: Pid)
    requires Inv(s) && Chan(s, src, dst) != []
    ensures var m := Chan(s, src, dst)[0];
            && src in s.hosts && dst in s.hosts && PacketOk(s.hist, src, dst, m)
            && m.sender in s.hosts && m.Id() in s.hist.sent
            && (m.Seq? || m.SeqAck? ==> m.Id() in s.hist.final)
  {
    hide RcvOk, SndOk, FifoOk;
    var m := Chan(s, src, dst)[0];
    ChanIsOk(s, src, dst);
    PacketIsKnown(s.hosts, s.hist, src, dst, m);
  }

  // Every message on its way is about one that was multicast; those that carry a final number, about one that has it.
  lemma PacketIsKnown(hosts: set<Pid>, h: History, src: Pid, dst: Pid, m: Message)
    requires HistOk(hosts, h) && PacketOk(h, src, dst, m)
    ensures m.sender in hosts && m.Id() in h.sent && (m.Seq? || m.SeqAck? ==> m.Id() in h.final)
  {
    if m.Seq? || m.SeqAck? {
      FinalIsSent(hosts, h, m.Id());
    }
  }

  lemma ReceiveRepeatedDataKeepsInv(s: State, src: Pid, dst: Pid)
    requires Enabled(s, Receive(src, dst)) && Chan(s, src, dst)[0].Data?
    requires Chan(s, src, dst)[0].Id() in s.procs[dst].queue.pending
    requires Inv(s)
    ensures Inv(Apply(s, Receive(src, dst)))
  {
    hide HistOk, RcvOk, SndOk, NetOk, OnlyBy, CounterOk, ListsOk, NoMarkedData;
    var d, p, h := Chan(s, src, dst)[0], s.procs[dst], s.hist;
    HeadIsOk(s, src, dst);
    ProcAt(s, dst);
    RepeatedDataIsAnswered(s.hosts, h, dst, p, d);
    NothingNew(h, dst);
    OldDataIsUnmarked(s, src, dst, h);
    FinishReceive(s, src, dst, p, h, ProcessData(p, s.hosts, d).reply);
  }

  // What a first copy of a data message does to the process that receives it.
  lemma FirstDataAtReceiver(hosts: set<Pid>, h: History, r: Pid, p: Proc, d: Message)
    requires d.Data? && d.sender in hosts && p.id == r
    requires RcvOk(h, r, p) && SndOk(hosts, h, p) && NewData(h, r, p, d)
    requires (r, d.Id()) !in h.prop && OnlyBy(h, AfterProposal(h, r, d.Id(), p.latestSeq + 1), r)
    requires |AfterProposal(h, r, d.Id(), p.latestSeq + 1).prop| == |h.prop| + 1
    ensures var p' := ProcessData(p, hosts, d).proc;
            var h' := AfterProposal(h, r, d.Id(), p.latestSeq + 1);
            RcvOk(h', r, p') && SndOk(hosts, h', p')
    ensures ProcessData(p, hosts, d).reply == Some((d.sender, Ack(d.sender, d.msgId, p.latestSeq + 1, r)))
  {
    hide RcvOk, SndOk, OnlyBy, NewData, DataEffect, ProcessData;
    var p' := ProcessData(p, hosts, d).proc;
    NewDataHasEffect(hosts, h, r, p, d);
    NewDataChangesReceiver(p, d, p');
    NewDataKeepsRcv(h, r, p, d, p');
    ProposalKeepsSnd(hosts, h, r, d.Id(), p.latestSeq + 1, p, p');
  }

  lemma DataAtHead(s: State, src: Pid, dst: Pid)
    requires Inv(s) && Enabled(s, Receive(src, dst)) && Chan(s, src, dst)[0].Data?
    ensures var d, p, h := Chan(s, src, dst)[0], s.procs[dst], s.hist;
            && d.Id() in h.sent && h.sent[d.Id()] == d.data && (dst, d.Id()) !in h.marked
            && src in s.hosts && dst in s.hosts && d.sender == src && p.id == dst && NetOk(s)
            && HistOk(s.hosts, h) && RcvOk(h, dst, p) && SndOk(s.hosts, h, p)
  {
    hide HistOk, RcvOk, SndOk, NetOk, CounterOk, ListsOk;
    HeadIsOk(s, src, dst);
    ProcAt(s, dst);
  }

  lemma FirstDataOutcome(s: State, src: Pid, dst: Pid)
    requires Enabled(s, Receive(src, dst)) && Chan(s, src, dst)[0].Data? && WithinCounters(s)
    requires Chan(s, src, dst)[0].Id() !in s.procs[dst].queue.pending
    requires Inv(s)
    ensures var d, p, h := Chan(s, src, dst)[0], s.procs[dst], s.hist;
            var r := ProcessData(p, s.hosts, d);
            var h' := AfterProposal(h, dst, d.Id(), p.latestSeq + 1);
            && RcvOk(h', dst, r.proc) && SndOk(s.hosts, h', r.proc) && NoMarkedData(s, src, dst, h')
            && r.reply == Some((d.sender, Ack(d.sender, d.msgId, p.latestSeq + 1, dst)))
            && src in s.hosts && dst in s.hosts && d.sender == src
  {
    hide Inv, HistOk, RcvOk, SndOk, NetOk, OnlyBy, NoMarkedData, NewData, ProcessData;
    var d, p, h := Chan(s, src, dst)[0], s.procs[dst], s.hist;
    DataAtHead(s, src, dst);
    FirstDataIsNew(s, src, dst);
    FirstDataAtReceiver(s.hosts, h, dst, p, d);
    OldDataIsUnmarked(s, src, dst, AfterProposal(h, dst, d.Id(), p.latestSeq + 1));
  }

  lemma ReceiveFirstDataKeepsInv(s: State, src: Pid, dst: Pid)
    requires Enabled(s, Receive(src, dst)) && Chan(s, src, dst)[0].Data? && WithinCounters(s)
    requires Chan(s, src, dst)[0].Id() !in s.procs[dst].queue.pending
    requires Inv(s)
    ensures Inv(Apply(s, Receive(src, dst)))
  {
    hide HistOk, RcvOk, SndOk, NetOk, OnlyBy, NoMarkedData, NewData, ProcessData;
    var d, p := Chan(s, src, dst)[0], s.procs[dst];
    var r := ProcessData(p, s.hosts, d);
    FirstDataIsNew(s, src, dst);
    FirstDataOutcome(s, src, dst);
    FinishReceive(s, src, dst, r.proc, AfterProposal(s.hist, dst, d.Id(), p.latestSeq + 1), r.reply);
  }

  lemma NewDataChangesReceiver(p: Proc, d: Message, p': Proc)
    requires d.Data? && DataEffect(p, d, p')
    ensures SameSender(p, p') && p'.latestSeq == p.latestSeq + 1
  {
  }

  lemma ProposalKeepsSnd(hosts: set<Pid>, h: History, r: Pid, m: MsgIdentifier, v: nat, p: Proc, p': Proc)
    requires SndOk(hosts, h, p) && SameSender(p, p') && OnlyBy(h, AfterProposal(h, r, m, v), r)
    ensures SndOk(hosts, AfterProposal(h, r, m, v), p')
  {
    hide SndOk, QuietFor;
    var h' := AfterProposal(h, r, m, v);
    SndFrame(hosts, h, h', p);
    SndSameFields(hosts, h', p, p');
  }

  lemma ReceiveDataKeepsInv(s: State, src: Pid, dst: Pid)
    requires Enabled(s, Receive(src, dst)) && WithinCounters(s) && Chan(s, src, dst)[0].Data?
    requires Inv(s)
    ensures Inv(Apply(s, Receive(src, dst)))
  {
    hide Inv, Process;
    if Chan(s, src, dst)[0].Id() in s.procs[dst].queue.pending {
      ReceiveRepeatedDataKeepsInv(s, src, dst);
    } else {
      ReceiveFirstDataKeepsInv(s, src, dst);
    }
  }

  // A message that is neither pending nor numbered is new, and all numbers so far are smaller than the next.
  lemma UnmarkedIsUnproposed(h: History, r: Pid, p: Proc, m: MsgIdentifier)
    requires RcvOk(h, r, p) && m !in p.queue.pending && (r, m) !in h.marked
    ensures (r, m) !in h.prop && p.latestSeq <= |h.prop|
    ensures forall m1 :: (r, m1) in h.prop ==> h.prop[(r, m1)] < p.latestSeq + 1
  {
    hide Ordered, EntryOk;
  }

  lemma FirstDataIsNew(s: State, src: Pid, dst: Pid)
    requires Enabled(s, Receive(src, dst)) && WithinCounters(s) && Chan(s, src, dst)[0].Data?
    requires Chan(s, src, dst)[0].Id() !in s.procs[dst].queue.pending
    requires Inv(s)
    ensures var d, p, h := Chan(s, src, dst)[0], s.procs[dst], s.hist;
            var h' := AfterProposal(h, dst, d.Id(), p.latestSeq + 1);
            && NewData(h, dst, p, d) && (dst, d.Id()) !in h.prop && U32Succ(p.latestSeq) == p.latestSeq + 1
            && HistOk(s.hosts, h') && OnlyBy(h, h', dst) && |h'.prop| == |h.prop| + 1
  {
    hide Inv, HistOk, RcvOk, SndOk, NetOk, NewData, OnlyBy;
    DataAtHead(s, src, dst);
    NewDataIsProposed(s.hosts, s.hist, dst, s.procs[dst], Chan(s, src, dst)[0]);
  }

  lemma NewDataIsProposed(hosts: set<Pid>, h: History, r: Pid, p: Proc, d: Message)
    requires d.Data? && d.Id() in h.sent && h.sent[d.Id()] == d.data && (r, d.Id()) !in h.marked
    requires r in hosts && HistOk(hosts, h) && RcvOk(h, r, p) && d.Id() !in p.queue.pending
    requires |hosts| * |h.sent| < U32_LIMIT
    ensures var h' := AfterProposal(h, r, d.Id(), p.latestSeq + 1);
            && NewData(h, r, p, d) && (r, d.Id()) !in h.prop && U32Succ(p.latestSeq) == p.latestSeq + 1
            && HistOk(hosts, h') && OnlyBy(h, h', r) && |h'.prop| == |h.prop| + 1
  {
    hide HistOk, RcvOk, OnlyBy;
    UnmarkedIsUnproposed(h, r, p, d.Id());
    ProposalOnlyBy(h, r, d.Id(), p.latestSeq + 1);
    ProposalKeepsHist(hosts, h, r, d.Id(), p.latestSeq + 1);
    ProposalsAreFew(hosts, AfterProposal(h, r, d.Id(), p.latestSeq + 1));
    SuccWithinLimit(p.latestSeq);
  }

  lemma OldDataIsUnmarked(s: State, src: Pid, dst: Pid, h': History)
    requires NetOk(s) && Chan(s, src, dst) != [] && h'.marked == s.hist.marked
    ensures NoMarkedData(s, src, dst, h')
  {
    ChanIsOk(s, src, dst);
    forall a, b, m | (a, b) in s.net && m in Pop(s, src, dst).net[(a, b)] && m.Data?
      ensures (b, m.Id()) !in h'.marked {
      assert m in s.net[(a, b)];
      assert PacketOk(s.hist, a, b, m);
    }
  }

  lemma AckAtHead(s: State, src: Pid, dst: Pid)
    requires Inv(s) && Enabled(s, Receive(src, dst)) && Chan(s, src, dst)[0].Ack?
    ensures var a, p := Chan(s, src, dst)[0], s.procs[dst];
            && AckOk(s.hosts, s.hist, p, a) && MsgSndOk(s.hosts, s.hist, p, a.msgId) && a.Id() in s.hist.sent
            && SndOk(s.hosts, s.hist, p) && CounterOk(s.hist, p) && ListsOk(s.hist, p)
            && RcvOk(s.hist, dst, p) && p.id == dst
            && HistOk(s.hosts, s.hist) && NetOk(s)
  {
    hide MsgSndOk, ListsOk, CounterOk, HistOk, RcvOk, NetOk;
    HeadIsOk(s, src, dst);
    ProcAt(s, dst);
  }

  lemma ReceiveAckKeepsInv(s: State, src: Pid, dst: Pid)
    requires Inv(s) && Enabled(s, Receive(src, dst)) && Chan(s, src, dst)[0].Ack?
    ensures Inv(Apply(s, Receive(src, dst)))
  {
    hide HistOk, RcvOk, SndOk, MsgSndOk, CounterOk, ListsOk, NetOk, AckEffect, NoMarkedData, AckOk, ProcsOk;
    var a, p, h := Chan(s, src, dst)[0], s.procs[dst], s.hist;
    AckAtHead(s, src, dst);
    var p' := ProcessAck(p, s.hosts, a).proc;
    var h' := AfterAck(h, p, a);
    AckShape(s.hosts, h, p, a);
    AckIsObserved(s, src, dst);
    AckOnlyBy(s.hosts, h, p, a);
    AckKeepsHist(s.hosts, h, p, a);
    AckHasEffects(s.hosts, h, p, a);
    AckKeepsSnd(s.hosts, h, p, a, p');
    RcvFrame(h, h', dst, p);
    RcvSameFields(h', dst, p, p');
    OldDataIsUnmarked(s, src, dst, h');
    FinishReceive(s, src, dst, p', h', None);
  }

  lemma AckHasEffects(hosts: set<Pid>, h: History, p: Proc, a: Message)
    requires ListsOk(h, p) && AckOk(hosts, h, p, a) && MsgSndOk(hosts, h, p, a.msgId) && hosts != {}
    ensures AckEffect(hosts, p, a, ProcessAck(p, hosts, a).proc)
  {
    ListsAfterAck(hosts, h, p, a);
    ProposalsAreUpdated(hosts, h, p, a);
  }

  lemma AckObservation(hosts: set<Pid>, h: History, p: Proc, a: Message)
    requires AckOk(hosts, h, p, a) && MsgSndOk(hosts, h, p, a.msgId)
    ensures Observe(h, p.id, p, ProcessAck(p, hosts, a).proc, a) == AfterAck(h, p, a)
  {
    AckShape(hosts, h, p, a);
    hide AckOk, MsgSndOk, ProcessAck, RemoveRecipient;
  }

  lemma AckIsObserved(s: State, src: Pid, dst: Pid)
    requires Inv(s) && Enabled(s, Receive(src, dst)) && Chan(s, src, dst)[0].Ack?
    ensures var a, p := Chan(s, src, dst)[0], s.procs[dst];
            Observe(s.hist, dst, p, ProcessAck(p, s.hosts, a).proc, a) == AfterAck(s.hist, p, a)
  {
    hide HistOk, RcvOk, SndOk, MsgSndOk, CounterOk, ListsOk, NetOk, AckOk, Observe, AfterAck, ProcessAck;
    AckAtHead(s, src, dst);
    AckObservation(s.hosts, s.hist, s.procs[dst], Chan(s, src, dst)[0]);
  }

  lemma ReceiveSeqKeepsInv(s: State, src: Pid, dst: Pid)
    requires Inv(s) && Enabled(s, Receive(src, dst)) && Chan(s, src, dst)[0].Seq?
    ensures Inv(Apply(s, Receive(src, dst)))
  {
    hide HistOk, RcvOk, SndOk, NetOk, OnlyBy, CounterOk, ListsOk, NoMarkedData, MarkDeliverable, Advances;
    var m, p, h := Chan(s, src, dst)[0], s.procs[dst], s.hist;
    HeadIsOk(s, src, dst);
    ProcAt(s, dst);
    var p' := ProcessSeq(p, s.hosts, m).proc;
    var h' := AfterMark(h, dst, m.Id());
    MarkOnlyBy(h, dst, m.Id());
    MarkKeepsHist(s.hosts, h, dst, m.Id());
    if (dst, m.Id()) in h.marked {
      RepeatedSeqIsIdle(s.hosts, h, dst, p, m);
      RepeatedSeqKeepsRcv(h, dst, p, m.Id());
    } else {
      FirstSeqAdvances(s.hosts, h, dst, p, m);
      FirstSeqHasEffect(s.hosts, h, dst, p, m);
      FirstSeqKeepsRcv(s.hosts, h, dst, p, m, p');
    }
    SndFrame(s.hosts, h, h', p);
    SndSameFields(s.hosts, h', p, p');
    SeqLeavesNoData(s, src, dst);
    FinishReceive(s, src, dst, p', h', Some((m.sender, SeqAck(m.sender, m.msgId, dst))));
  }

  // First-in first-out channels: behind a sequence message there is no copy of its data message.
  lemma SeqLeavesNoData(s: State, src: Pid, dst: Pid)
    requires Inv(s) && Chan(s, src, dst) != [] && Chan(s, src, dst)[0].Seq?
    ensures NoMarkedData(s, src, dst, AfterMark(s.hist, dst, Chan(s, src, dst)[0].Id()))
  {
    hide HistOk, RcvOk, SndOk, ProcsOk;
    var c := Chan(s, src, dst);
    OldDataIsUnmarked(s, src, dst, s.hist);
    HeadIsOk(s, src, dst);
    ChanIsOk(s, src, dst);
    forall a, b, m | (a, b) in s.net && m in Pop(s, src, dst).net[(a, b)] && m.Data?
      ensures (b, m.Id()) !in AfterMark(s.hist, dst, c[0].Id()).marked {
      if (a, b) == (src, dst) {
        var j :| 1 <= j < |c| && c[j] == m;
        assert c[0].Id() != c[j].Id();
      } else {
        assert m in s.net[(a, b)] && PacketOk(s.hist, a, b, m);
      }
    }
  }

  lemma ReceiveSeqAckKeepsInv(s: State, src: Pid, dst: Pid)
    requires Inv(s) && Enabled(s, Receive(src, dst)) && Chan(s, src, dst)[0].SeqAck?
    ensures Inv(Apply(s, Receive(src, dst)))
  {
    hide HistOk, RcvOk, SndOk, NetOk, CounterOk, ListsOk, OnlyBy, NoMarkedData, RemoveRecipient;
    var a, p, h := Chan(s, src, dst)[0], s.procs[dst], s.hist;
    HeadIsOk(s, src, dst);
    ProcAt(s, dst);
    var p' := ProcessSeqAck(p, s.hosts, a).proc;
    SeqAckKeepsSnd(s.hosts, h, p, a);
    RcvSameFields(h, dst, p, p');
    NothingNew(h, dst);
    OldDataIsUnmarked(s, src, dst, h);
    FinishReceive(s, src, dst, p', h, None);
  }

  lemma ReceiveKeepsInv(s: State, src: Pid, dst: Pid)
    requires Inv(s) && Enabled(s, Receive(src, dst)) && WithinCounters(s)
    ensures Inv(Apply(s, Receive(src, dst)))
  {
    hide Inv;
    match Chan(s, src, dst)[0]
    case Data(_, _, _) => ReceiveDataKeepsInv(s, src, dst);
    case Ack(_, _, _, _) => ReceiveAckKeepsInv(s, src, dst);
    case Seq(_, _, _, _) => ReceiveSeqKeepsInv(s, src, dst);
    case SeqAck(_, _, _) => ReceiveSeqAckKeepsInv(s, src, dst);
  }

  lemma StepKeepsInv(s: State, step: Step)
    requires Inv(s) && Enabled(s, step) && WithinCounters(Apply(s, step))
    ensures Inv(Apply(s, step)) && Apply(s, step).hosts == s.hosts
  {
    hide Inv;
    match step
    case Multicast(p, data) => MulticastKeepsInv(s, p, data);
    case Retransmit(p, r, m) => RetransmitKeepsInv(s, p, r, m);
    case Receive(src, dst) => ReceiveKeepsInv(s, src, dst);
    case Lose(src, dst, i) => LoseKeepsInv(s, src, dst, i);
    case Repeat(src, dst, i) => RepeatKeepsInv(s, src, dst, i);
    case Swap(src, dst, i) => SwapKeepsInv(s, src, dst, i);
  }

  lemma InitHasInv(hosts: set<Pid>)
    requires hosts != {}
    ensures Inv(Init(hosts))
  {
    forall p | p in hosts ensures SndOk(hosts, Init(hosts).hist, InitProc(p)) {
      InitSndOk(hosts, p);
    }
    hide SndOk;
  }

  lemma InitSndOk(hosts: set<Pid>, p: Pid)
    ensures SndOk(hosts, Init(hosts).hist, InitProc(p))
  {
  }

  // The number of multicast messages never shrinks, so a run that ends within the counters stays within them.
  lemma HandleKeepsSent(s: State, src: Pid, dst: Pid)
    requires Running(s, dst) && Chan(s, src, dst) != []
    ensures Handle(s, src, dst).hist.sent == s.hist.sent && Handle(s, src, dst).hosts == s.hosts
  {
    hide Process, MarkDeliverable, RemoveRecipient;
  }

  lemma StepKeepsSent(s: State, step: Step)
    requires Enabled(s, step)
    ensures s.hist.sent.Keys <= Apply(s, step).hist.sent.Keys && Apply(s, step).hosts == s.hosts
  {
    hide Handle, U32Succ;
    if step.Receive? {
      HandleKeepsSent(s, step.src, step.dst);
    }
  }

  lemma SentNeverShrinks(s: State, step: Step)
    requires Enabled(s, step) && WithinCounters(Apply(s, step))
    ensures WithinCounters(s) && Apply(s, step).hosts == s.hosts
  {
    hide Apply, Enabled;
    var s' := Apply(s, step);
    StepKeepsSent(s, step);
    SubsetSize(s.hist.sent.Keys, s'.hist.sent.Keys);
    assert |s.hosts| * |s.hist.sent| <= |s.hosts| * |s'.hist.sent|;
  }

  lemma {:induction false} RunKeepsInv(s: State, steps: seq<Step>, s': State)
    requires Inv(s) && Run(s, steps, s') && WithinCounters(s')
    ensures Inv(s') && WithinCounters(s) && s'.hosts == s.hosts
    decreases |steps|
  {
    if steps != [] {
      RunEndsWithin(Apply(s, steps[0]), steps[1..], s');
      SentNeverShrinks(s, steps[0]);
      StepKeepsInv(s, steps[0]);
      RunKeepsInv(Apply(s, steps[0]), steps[1..], s');
    }
  }

  lemma {:induction false} RunEndsWithin(s: State, steps: seq<Step>, s': State)
    requires Run(s, steps, s') && WithinCounters(s')
    ensures WithinCounters(s) && s'.hosts == s.hosts
    decreases |steps|
  {
    if steps != [] {
      RunEndsWithin(Apply(s, steps[0]), steps[1..], s');
      SentNeverShrinks(s, steps[0]);
    }
  }

  lemma ReachableHasInv(s: State)
    requires Reachable(s) && WithinCounters(s)
    ensures Inv(s)
  {
    var steps :| Run(Init(s.hosts), steps, s);
    InitHasInv(s.hosts);
    RunKeepsInv(Init(s.hosts), steps, s);
  }
}
