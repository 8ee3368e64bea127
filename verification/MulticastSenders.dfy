/** The sending side of a process: queueing a message, collecting proposals, fixing the final number. */
module MulticastSenders {
  import opened FiniteSets
  import opened Messages
  import opened ContinuousMsgSenders
  import opened MulticastServices
  import opened MulticastProtocol
  import opened MulticastFrames

  lemma HeldMsg(list: seq<MsgHolder>, r: Pid, m: Message)
    requires ListOk(list) && Holds(list, r, m)
    ensures m in Msgs(list) && r in Waiting(list, m.msgId)
  {
    var h :| h in list && h.orgMsg == m && r in h.recipients;
    var i :| 0 <= i < |list| && list[i] == h;
    WaitingAt(list, i);
  }

  lemma WaitingMsg(list: seq<MsgHolder>, k: nat)
    ensures Waiting(list, k) != {} ==> exists m :: m in Msgs(list) && m.msgId == k
  {
    var i := FindMsg(list, k);
    if i < |list| {
      assert list[i].orgMsg in Msgs(list);
    }
  }

  // A message still on the data list has no sequence number yet.
  lemma HeldDataIsUnnumbered(hosts: set<Pid>, h: History, p: Proc, r: Pid, m: Message)
    requires HistOk(hosts, h) && SndOk(hosts, h, p) && Holds(p.dataList, r, m)
    ensures PacketOk(h, p.id, r, m) && m.Data? && m.Id() !in h.final && r in hosts
  {
    HeldMsg(p.dataList, r, m);
    assert MsgSndOk(hosts, h, p, m.msgId);
  }

  lemma HeldSeqIsFinal(hosts: set<Pid>, h: History, p: Proc, r: Pid, m: Message)
    requires HistOk(hosts, h) && SndOk(hosts, h, p) && Holds(p.seqList, r, m)
    ensures PacketOk(h, p.id, r, m) && m.Seq? && r in hosts
  {
    HeldMsg(p.seqList, r, m);
    FinalIsSent(hosts, h, m.Id());
    assert MsgSndOk(hosts, h, p, m.msgId);
  }

  lemma FinalIsSent(hosts: set<Pid>, h: History, m: MsgIdentifier)
    requires HistOk(hosts, h) && m in h.final
    ensures m in h.sent && m.sender in hosts
  {
    assert FinalOk(hosts, h, m);
  }

  ghost function AfterMulticast(h: History, m: MsgIdentifier, data: nat): History {
    h.(sent := h.sent[m := data])
  }

  lemma MulticastOnlyBy(h: History, m: MsgIdentifier, data: nat)
    requires m !in h.sent
    ensures OnlyBy(h, AfterMulticast(h, m, data), m.sender)
  {
  }

  lemma MulticastKeepsHist(hosts: set<Pid>, h: History, m: MsgIdentifier, data: nat)
    requires HistOk(hosts, h) && m !in h.sent && m.sender in hosts
    ensures HistOk(hosts, AfterMulticast(h, m, data))
    ensures m !in h.final
  {
    var h' := AfterMulticast(h, m, data);
    forall m1 | m1 in h'.final ensures FinalOk(hosts, h', m1) {
      assert FinalOk(hosts, h, m1);
    }
    if m in h.final {
      FinalIsSent(hosts, h, m);
    }
  }

  // How queueing a data message changes the sending side.
  ghost predicate MulticastEffect(hosts: set<Pid>, p: Proc, data: nat, p': Proc) {
    && p' == p.(msgCounter := p.msgCounter + 1, dataList := p'.dataList) && ListOk(p'.dataList)
    && Msgs(p'.dataList) == Msgs(p.dataList) + {Data(p.id, p'.msgCounter, data)}
    && (forall j :: Waiting(p'.dataList, j) == if j == p'.msgCounter then hosts else Waiting(p.dataList, j))
  }

  lemma MulticastHasEffect(hosts: set<Pid>, h: History, p: Proc, data: nat)
    requires CounterOk(h, p) && ListsOk(h, p) && |h.sent| + 1 < U32_LIMIT && hosts != {}
    ensures MulticastEffect(hosts, p, data, StartMulticast(p, hosts, data))
  {
    SuccWithinLimit(p.msgCounter);
    UnusedIdWaitsForNobody(h, p, p.msgCounter + 1);
    QueueMsgEffect(p.dataList, Data(p.id, p.msgCounter + 1, data), hosts);
  }

  lemma UnusedIdWaitsForNobody(h: History, p: Proc, k: nat)
    requires ListsOk(h, p)
    ensures MsgIdentifier(k, p.id) !in h.sent ==> Waiting(p.dataList, k) == {}
    ensures MsgIdentifier(k, p.id) !in h.final ==> Waiting(p.seqList, k) == {}
  {
    WaitingMsg(p.dataList, k);
    WaitingMsg(p.seqList, k);
  }

  lemma MulticastKeepsCounter(hosts: set<Pid>, h: History, p: Proc, data: nat, p': Proc)
    requires CounterOk(h, p) && MulticastEffect(hosts, p, data, p')
    ensures var m := MsgIdentifier(p'.msgCounter, p.id);
            m !in h.sent && CounterOk(AfterMulticast(h, m, data), p')
  {
  }

  lemma MulticastKeepsLists(hosts: set<Pid>, h: History, p: Proc, data: nat, p': Proc)
    requires ListsOk(h, p) && MulticastEffect(hosts, p, data, p') && MsgIdentifier(p'.msgCounter, p.id) !in h.sent
    ensures ListsOk(AfterMulticast(h, MsgIdentifier(p'.msgCounter, p.id), data), p')
  {
    var h' := AfterMulticast(h, MsgIdentifier(p'.msgCounter, p.id), data);
    forall m | m in Msgs(p'.dataList) ensures DataOk(h', p.id, m) {
      assert m in Msgs(p.dataList) || m == Data(p.id, p'.msgCounter, data);
    }
    forall m | m in Msgs(p'.seqList) ensures SeqOk(h', p.id, m) {
      assert m in Msgs(p.seqList);
    }
  }

  lemma MulticastKeepsSnd(hosts: set<Pid>, h: History, p: Proc, data: nat, p': Proc)
    requires SndOk(hosts, h, p) && MulticastEffect(hosts, p, data, p')
    requires MsgIdentifier(p'.msgCounter, p.id) !in h.final
    ensures SndOk(hosts, AfterMulticast(h, MsgIdentifier(p'.msgCounter, p.id), data), p')
  {
    var k := p'.msgCounter;
    var h' := AfterMulticast(h, MsgIdentifier(k, p.id), data);
    MulticastKeepsCounter(hosts, h, p, data, p');
    MulticastKeepsLists(hosts, h, p, data, p');
    UnusedIdWaitsForNobody(h, p, k);
    forall j: nat | MsgIdentifier(j, p.id) in h'.sent ensures MsgSndOk(hosts, h', p', j) {
      if j == k {
        assert hosts - hosts == {};
        MulticastMsgView(hosts, h', p', k);
      } else {
        assert MsgSndOk(hosts, h, p, j);
      }
    }
  }

  // A message nobody has acknowledged yet.
  lemma MulticastMsgView(hosts: set<Pid>, h: History, p: Proc, k: nat)
    requires Waiting(p.dataList, k) == hosts != {} && Waiting(p.seqList, k) == {} && k !in p.proposed
    requires MsgIdentifier(k, p.id) !in h.final
    ensures MsgSndOk(hosts, h, p, k)
  {
  }

  lemma SeqAckKeepsSnd(hosts: set<Pid>, h: History, p: Proc, a: Message)
    requires HistOk(hosts, h) && SndOk(hosts, h, p)
    requires a.SeqAck? && a.sender == p.id && a.ackSender in hosts && (a.ackSender, a.Id()) in h.marked
    ensures SndOk(hosts, h, ProcessSeqAck(p, hosts, a).proc)
  {
    var p' := ProcessSeqAck(p, hosts, a).proc;
    RemoveRecipientEffect(p.seqList, a.msgId, a.ackSender);
    forall k: nat | MsgIdentifier(k, p.id) in h.sent ensures MsgSndOk(hosts, h, p', k) {
      assert MsgSndOk(hosts, h, p, k);
    }
  }

  /* ----- acknowledgements ----- */

  ghost predicate AckOk(hosts: set<Pid>, h: History, p: Proc, a: Message) {
    && a.Ack? && a.sender == p.id && a.proposer in hosts
    && (a.proposer, a.Id()) in h.prop && h.prop[(a.proposer, a.Id())] == a.proposedSeq
  }

  // The acknowledgement that completes the set of proposals.
  ghost predicate Completes(p: Proc, a: Message)
    requires a.Ack?
  {
    Waiting(p.dataList, a.msgId) == {a.proposer}
  }

  function WithAck(p: Proc, a: Message): (proposals: map<Pid, nat>)
    requires a.Ack?
    ensures proposals != map[]
  {
    assert a.proposer in ProposalsFor(p, a.msgId)[a.proposer := a.proposedSeq];
    ProposalsFor(p, a.msgId)[a.proposer := a.proposedSeq]
  }

  ghost function AfterAck(h: History, p: Proc, a: Message): History
    requires a.Ack?
  {
    if Completes(p, a) then h.(final := h.final[a.Id() := MaxProposal(WithAck(p, a))]) else h
  }

  lemma ProposalsAfterAck(hosts: set<Pid>, h: History, p: Proc, a: Message)
    requires AckOk(hosts, h, p, a) && MsgSndOk(hosts, h, p, a.msgId)
    requires Removes(p.dataList, a.msgId, a.proposer)
    ensures WithAck(p, a).Keys == hosts - (Waiting(p.dataList, a.msgId) - {a.proposer})
    ensures |WithAck(p, a)| == |hosts| <==> Completes(p, a)
    ensures forall r :: r in WithAck(p, a) ==> (r, a.Id()) in h.prop && h.prop[(r, a.Id())] == WithAck(p, a)[r]
    ensures a.Id() !in h.final
  {
    KnownAfterAck(hosts, h, p, a);
    hide MsgSndOk, AckOk, WithAck, Waiting;
    var left := Waiting(p.dataList, a.msgId) - {a.proposer};
    assert hosts - left == hosts <==> left == {};
    SubsetSize(hosts - left, hosts);
    assert |WithAck(p, a)| == |WithAck(p, a).Keys|;
  }

  lemma KnownAfterAck(hosts: set<Pid>, h: History, p: Proc, a: Message)
    requires AckOk(hosts, h, p, a) && MsgSndOk(hosts, h, p, a.msgId)
    requires Removes(p.dataList, a.msgId, a.proposer)
    ensures WithAck(p, a).Keys == hosts - (Waiting(p.dataList, a.msgId) - {a.proposer})
    ensures Waiting(p.dataList, a.msgId) <= hosts && a.proposer in Waiting(p.dataList, a.msgId)
    ensures forall r :: r in WithAck(p, a) ==> (r, a.Id()) in h.prop && h.prop[(r, a.Id())] == WithAck(p, a)[r]
    ensures a.Id() !in h.final
  {
    hide Waiting;
  }

  // When the last acknowledgement arrives, its sender knows the proposals of all processes.
  lemma CompleteProposalsAreFinal(hosts: set<Pid>, h: History, p: Proc, a: Message)
    requires AckOk(hosts, h, p, a) && MsgSndOk(hosts, h, p, a.msgId) && Completes(p, a)
    ensures FinalOk(hosts, AfterAck(h, p, a), a.Id())
  {
    ProposalsAfterAck(hosts, h, p, a);
    var k := MaxProposal(WithAck(p, a));
    assert WithAck(p, a).Keys == hosts;
    assert forall r :: r in hosts ==> WithAck(p, a)[r] <= k.seqId;
  }

  lemma AckOnlyBy(hosts: set<Pid>, h: History, p: Proc, a: Message)
    requires AckOk(hosts, h, p, a) && MsgSndOk(hosts, h, p, a.msgId)
    ensures OnlyBy(h, AfterAck(h, p, a), p.id)
  {
    hide MaxProposal, WithAck;
    if Completes(p, a) {
      assert a.Id() !in h.final;
    }
  }

  lemma AckKeepsHist(hosts: set<Pid>, h: History, p: Proc, a: Message)
    requires HistOk(hosts, h) && AckOk(hosts, h, p, a) && MsgSndOk(hosts, h, p, a.msgId)
    ensures HistOk(hosts, AfterAck(h, p, a))
  {
    if Completes(p, a) {
      ProposalsAfterAck(hosts, h, p, a);
      CompleteProposalsAreFinal(hosts, h, p, a);
      FinalKeepsHist(hosts, h, a.Id(), MaxProposal(WithAck(p, a)));
    }
  }

  lemma FinalKeepsHist(hosts: set<Pid>, h: History, m: MsgIdentifier, k: Key)
    requires HistOk(hosts, h) && m !in h.final && FinalOk(hosts, h.(final := h.final[m := k]), m)
    ensures HistOk(hosts, h.(final := h.final[m := k]))
  {
    var h' := h.(final := h.final[m := k]);
    forall m1 | m1 in h'.final ensures FinalOk(hosts, h', m1) {
      if m1 != m {
        assert FinalOk(hosts, h, m1);
      }
    }
  }

  ghost function SeqFor(p: Proc, a: Message): Message
    requires a.Ack?
  {
    var k := MaxProposal(WithAck(p, a));
    Seq(a.sender, a.msgId, k.seqId, k.proposer)
  }

  lemma AckShape(hosts: set<Pid>, h: History, p: Proc, a: Message)
    requires AckOk(hosts, h, p, a) && MsgSndOk(hosts, h, p, a.msgId)
    ensures ProcessAck(p, hosts, a) == Reaction(
              p.(dataList := RemoveRecipient(p.dataList, a.msgId, a.proposer),
                 proposed := if Removes(p.dataList, a.msgId, a.proposer) then p.proposed[a.msgId := WithAck(p, a)]
                             else p.proposed,
                 seqList := if Completes(p, a) then p.seqList + [MsgHolder(SeqFor(p, a), hosts)] else p.seqList),
              None)
  {
    if Removes(p.dataList, a.msgId, a.proposer) {
      ProposalsAfterAck(hosts, h, p, a);
    }
  }

  // How an acknowledgement changes the sending side.
  ghost predicate AckListEffect(hosts: set<Pid>, p: Proc, a: Message, dataList: seq<MsgHolder>, seqList: seq<MsgHolder>)
    requires a.Ack?
  {
    && ListOk(dataList) && ListOk(seqList)
    && Msgs(dataList) <= Msgs(p.dataList)
    && Msgs(seqList) == Msgs(p.seqList) + (if Completes(p, a) then {SeqFor(p, a)} else {})
    && (forall k :: Waiting(dataList, k) ==
          if k == a.msgId then Waiting(p.dataList, k) - {a.proposer} else Waiting(p.dataList, k))
    && (forall k :: Waiting(seqList, k) == if k == a.msgId && Completes(p, a) then hosts else Waiting(p.seqList, k))
  }

  ghost predicate AckProposalEffect(p: Proc, a: Message, p': Proc)
    requires a.Ack?
  {
    && p' == p.(dataList := p'.dataList, seqList := p'.seqList, proposed := p'.proposed)
    && (forall k :: ProposalsFor(p', k) ==
          if k == a.msgId && Removes(p.dataList, a.msgId, a.proposer) then WithAck(p, a) else ProposalsFor(p, k))
    && (forall k :: k in p'.proposed ==> k in p.proposed || k == a.msgId)
  }

  lemma SeqListAfterAck(hosts: set<Pid>, h: History, p: Proc, a: Message)
    requires ListsOk(h, p) && a.Ack? && a.sender == p.id && hosts != {} && (Completes(p, a) ==> a.Id() !in h.final)
    ensures var list := if Completes(p, a) then p.seqList + [MsgHolder(SeqFor(p, a), hosts)] else p.seqList;
            && ListOk(list) && Msgs(list) == Msgs(p.seqList) + (if Completes(p, a) then {SeqFor(p, a)} else {})
            && forall k :: Waiting(list, k) == if k == a.msgId && Completes(p, a) then hosts else Waiting(p.seqList, k)
  {
    if Completes(p, a) {
      UnusedIdWaitsForNobody(h, p, a.msgId);
      QueueMsgEffect(p.seqList, SeqFor(p, a), hosts);
    }
  }

  lemma ListsAfterAck(hosts: set<Pid>, h: History, p: Proc, a: Message)
    requires ListsOk(h, p) && AckOk(hosts, h, p, a) && MsgSndOk(hosts, h, p, a.msgId) && hosts != {}
    ensures var p' := ProcessAck(p, hosts, a).proc;
            AckListEffect(hosts, p, a, p'.dataList, p'.seqList)
  {
    AckShape(hosts, h, p, a);
    RemoveRecipientEffect(p.dataList, a.msgId, a.proposer);
    SeqListAfterAck(hosts, h, p, a);
  }

  lemma ProposalsAfter(p: Proc, a: Message, p': Proc)
    requires a.Ack? && p' == p.(dataList := p'.dataList, seqList := p'.seqList, proposed := p'.proposed)
    requires p'.proposed ==
             if Removes(p.dataList, a.msgId, a.proposer) then p.proposed[a.msgId := WithAck(p, a)] else p.proposed
    ensures AckProposalEffect(p, a, p')
  {
  }

  lemma ProposalsAreUpdated(hosts: set<Pid>, h: History, p: Proc, a: Message)
    requires AckOk(hosts, h, p, a) && MsgSndOk(hosts, h, p, a.msgId)
    ensures AckProposalEffect(p, a, ProcessAck(p, hosts, a).proc)
  {
    AckShape(hosts, h, p, a);
    ProposalsAfter(p, a, ProcessAck(p, hosts, a).proc);
  }

  // One more acknowledgement, seen by the sender of the message.
  lemma ViewAfterAck(hosts: set<Pid>, h: History, h': History, m: MsgIdentifier, r: Pid, v: nat,
                     dw: set<Pid>, sw: set<Pid>, proposals: map<Pid, nat>)
    requires MsgViewOk(hosts, h, m, dw, sw, proposals) && r in dw
    requires (r, m) in h.prop && h.prop[(r, m)] == v
    requires h'.prop == h.prop && (m in h'.final <==> dw == {r})
    ensures MsgViewOk(hosts, h', m, dw - {r}, if dw == {r} then hosts else sw, proposals[r := v])
  {
    assert hosts - (dw - {r}) == hosts - dw + {r};
  }

  ghost predicate AckEffect(hosts: set<Pid>, p: Proc, a: Message, p': Proc)
    requires a.Ack?
  {
    AckProposalEffect(p, a, p') && AckListEffect(hosts, p, a, p'.dataList, p'.seqList)
  }

  lemma AckKeepsMsgSnd(hosts: set<Pid>, h: History, p: Proc, a: Message, p': Proc, k: nat)
    requires AckOk(hosts, h, p, a) && MsgSndOk(hosts, h, p, a.msgId)
    requires AckEffect(hosts, p, a, p') && MsgSndOk(hosts, h, p, k)
    ensures MsgSndOk(hosts, AfterAck(h, p, a), p', k)
  {
    var dw, sw := Waiting(p.dataList, k), Waiting(p.seqList, k);
    if k == a.msgId && Removes(p.dataList, k, a.proposer) {
      ViewAfterAck(hosts, h, AfterAck(h, p, a), a.Id(), a.proposer, a.proposedSeq, dw, sw, ProposalsFor(p, k));
    } else {
      assert Waiting(p'.dataList, k) == dw;
      assert MsgViewOk(hosts, AfterAck(h, p, a), MsgIdentifier(k, p.id), dw, sw, ProposalsFor(p, k));
    }
  }

  lemma AckKeepsSeqMsgs(hosts: set<Pid>, h: History, p: Proc, a: Message, p': Proc)
    requires forall m :: m in Msgs(p.seqList) ==> SeqOk(h, p.id, m)
    requires AckOk(hosts, h, p, a) && AckEffect(hosts, p, a, p') && Grows(h, AfterAck(h, p, a))
    ensures forall m :: m in Msgs(p'.seqList) ==> SeqOk(AfterAck(h, p, a), p.id, m)
  {
    forall m | m in Msgs(p'.seqList) ensures SeqOk(AfterAck(h, p, a), p.id, m) {
      assert m in Msgs(p.seqList) || m == SeqFor(p, a);
    }
  }

  lemma AckKeepsSnd(hosts: set<Pid>, h: History, p: Proc, a: Message, p': Proc)
    requires SndOk(hosts, h, p) && AckOk(hosts, h, p, a) && a.Id() in h.sent
    requires AckEffect(hosts, p, a, p') && Grows(h, AfterAck(h, p, a))
    ensures SndOk(hosts, AfterAck(h, p, a), p')
  {
    assert MsgSndOk(hosts, h, p, a.msgId);
    AckKeepsSeqMsgs(hosts, h, p, a, p');
    forall k: nat | MsgIdentifier(k, p.id) in h.sent ensures MsgSndOk(hosts, AfterAck(h, p, a), p', k) {
      assert MsgSndOk(hosts, h, p, k);
      AckKeepsMsgSnd(hosts, h, p, a, p', k);
    }
  }
}
