/** The receiving side of a process: proposing a number, taking the final one, delivering. */
module MulticastReceivers {
  import opened Messages
  import opened HoldBackQueues
  import opened MulticastServices
  import opened MulticastProtocol
  import opened MulticastFrames

  /* ----- data messages ----- */

  ghost function AfterProposal(h: History, r: Pid, m: MsgIdentifier, v: nat): History {
    h.(prop := h.prop[(r, m) := v])
  }

  lemma ProposalCounts(h: History, r: Pid, m: MsgIdentifier, v: nat)
    requires (r, m) !in h.prop
    ensures |AfterProposal(h, r, m, v).prop| == |h.prop| + 1
  {
    assert AfterProposal(h, r, m, v).prop.Keys == h.prop.Keys + {(r, m)};
  }

  lemma ProposalOnlyBy(h: History, r: Pid, m: MsgIdentifier, v: nat)
    requires (r, m) !in h.prop
    ensures OnlyBy(h, AfterProposal(h, r, m, v), r) && |AfterProposal(h, r, m, v).prop| == |h.prop| + 1
  {
    ProposalCounts(h, r, m, v);
  }

  lemma ProposalStaysDifferent(h: History, r: Pid, m: MsgIdentifier, v: nat)
    requires ProposalsDiffer(h) && (r, m) !in h.prop
    requires forall m1 :: (r, m1) in h.prop ==> h.prop[(r, m1)] < v
    ensures ProposalsDiffer(AfterProposal(h, r, m, v))
  {
  }

  lemma ProposalKeepsFinal(hosts: set<Pid>, h: History, r: Pid, m: MsgIdentifier, v: nat, m1: MsgIdentifier)
    requires m1 in h.final && FinalOk(hosts, h, m1) && (r, m) !in h.prop
    ensures FinalOk(hosts, AfterProposal(h, r, m, v), m1)
  {
  }

  lemma ProposalKeepsHist(hosts: set<Pid>, h: History, r: Pid, m: MsgIdentifier, v: nat)
    requires HistOk(hosts, h) && r in hosts && m in h.sent && (r, m) !in h.prop && v <= |h.prop| + 1
    requires forall m1 :: (r, m1) in h.prop ==> h.prop[(r, m1)] < v
    ensures HistOk(hosts, AfterProposal(h, r, m, v))
  {
    hide FinalOk, ProposalsDiffer;
    var h' := AfterProposal(h, r, m, v);
    ProposalCounts(h, r, m, v);
    ProposalStaysDifferent(h, r, m, v);
    assert forall q, m1 :: (q, m1) in h'.prop <==> (q, m1) in h.prop || (q, m1) == (r, m);
    forall m1 | m1 in h'.final ensures FinalOk(hosts, h', m1) {
      ProposalKeepsFinal(hosts, h, r, m, v, m1);
    }
  }

  // A first copy of a data message.
  ghost predicate NewData(h: History, r: Pid, p: Proc, d: Message) {
    && d.Data? && d.Id() in h.sent && h.sent[d.Id()] == d.data
    && d.Id() !in p.queue.pending && (r, d.Id()) !in h.marked
    && p.latestSeq + 1 < U32_LIMIT
  }

  ghost predicate DataEffect(p: Proc, d: Message, p': Proc)
    requires d.Data?
  {
    var v := p.latestSeq + 1;
    && p' == p.(queue := p'.queue, latestSeq := v,
                cache := p.cache[d.Id() := Ack(d.sender, d.msgId, v, p.id)])
    && p'.queue.pending == p.queue.pending + {d.Id()}
    && p'.queue.Timeline() == p.queue.Timeline() + [PendingMsg(d, v, p.id, false)]
    && Ordered(p'.queue)
  }

  lemma NewDataHasEffect(hosts: set<Pid>, h: History, r: Pid, p: Proc, d: Message)
    requires RcvOk(h, r, p) && NewData(h, r, p, d) && d.sender in hosts
    ensures DataEffect(p, d, ProcessData(p, hosts, d).proc)
    ensures ProcessData(p, hosts, d).reply == Some((d.sender, Ack(d.sender, d.msgId, p.latestSeq + 1, r)))
    ensures ProcessData(p, hosts, d).proc.queue.delivered == p.queue.delivered
  {
    SuccWithinLimit(p.latestSeq);
    AddKeepsOrder(p.queue, d, p.latestSeq + 1, p.id);
  }

  lemma NewDataKeepsEntries(h: History, r: Pid, p: Proc, d: Message, p': Proc)
    requires RcvOk(h, r, p) && NewData(h, r, p, d) && DataEffect(p, d, p') && (r, d.Id()) !in h.prop
    ensures forall e :: e in p'.queue.Timeline() ==>
              EntryOk(AfterProposal(h, r, d.Id(), p'.latestSeq), r, e) && e.finalSeqId <= p'.latestSeq
  {
    var h' := AfterProposal(h, r, d.Id(), p'.latestSeq);
    forall e | e in p'.queue.Timeline() ensures EntryOk(h', r, e) && e.finalSeqId <= p'.latestSeq {
      if e in p.queue.Timeline() {
        assert EntryOk(h, r, e);
      }
    }
  }

  lemma NewDataKeepsRcv(h: History, r: Pid, p: Proc, d: Message, p': Proc)
    requires RcvOk(h, r, p) && NewData(h, r, p, d) && DataEffect(p, d, p') && (r, d.Id()) !in h.prop
    requires |AfterProposal(h, r, d.Id(), p'.latestSeq).prop| == |h.prop| + 1
    ensures RcvOk(AfterProposal(h, r, d.Id(), p'.latestSeq), r, p')
  {
    var h' := AfterProposal(h, r, d.Id(), p'.latestSeq);
    NewDataKeepsEntries(h, r, p, d, p');
    forall m | (r, m) in h'.prop ensures m in Ids(p'.queue.Timeline()) && h'.prop[(r, m)] <= p'.latestSeq {
      if m == d.Id() {
        assert PendingMsg(d, p'.latestSeq, p.id, false) in p'.queue.Timeline();
      } else {
        assert m in Ids(p.queue.Timeline());
        var e :| e in p.queue.Timeline() && e.Id() == m;
        assert e in p'.queue.Timeline();
      }
    }
  }

  // A repeated copy finds its acknowledgement in the cache and changes nothing.
  lemma RepeatedDataIsAnswered(hosts: set<Pid>, h: History, r: Pid, p: Proc, d: Message)
    requires RcvOk(h, r, p) && d.Data? && d.sender in hosts
    requires d.Id() in p.queue.pending && (r, d.Id()) !in h.marked
    ensures (r, d.Id()) in h.prop
    ensures ProcessData(p, hosts, d) == Reaction(p, Some((d.sender, Ack(d.sender, d.msgId, h.prop[(r, d.Id())], r))))
  {
  }

  /* ----- sequence messages ----- */

  ghost function AfterMark(h: History, r: Pid, m: MsgIdentifier): History {
    h.(marked := h.marked + {(r, m)})
  }

  lemma MarkOnlyBy(h: History, r: Pid, m: MsgIdentifier)
    ensures OnlyBy(h, AfterMark(h, r, m), r)
  {
  }

  lemma MarkKeepsHist(hosts: set<Pid>, h: History, r: Pid, m: MsgIdentifier)
    requires HistOk(hosts, h) && r in hosts && m in h.final
    ensures HistOk(hosts, AfterMark(h, r, m))
  {
    var h' := AfterMark(h, r, m);
    forall m1 | m1 in h'.final ensures FinalOk(hosts, h', m1) {
      assert FinalOk(hosts, h, m1);
    }
  }

  // Two messages never share a final key.
  lemma FinalKeysDiffer(hosts: set<Pid>, h: History, m1: MsgIdentifier, m2: MsgIdentifier)
    requires HistOk(hosts, h) && m1 in h.final && m2 in h.final && h.final[m1] == h.final[m2]
    ensures m1 == m2
  {
    assert FinalOk(hosts, h, m1) && FinalOk(hosts, h, m2);
  }

  // The one entry of a message that waits for its sequence number.
  lemma WaitingEntry(h: History, r: Pid, p: Proc, m: MsgIdentifier)
    requires RcvOk(h, r, p) && (r, m) in h.prop && (r, m) !in h.marked
    ensures var i := FindId(p.queue.deque, m);
            && i < |p.queue.deque|
            && p.queue.deque[i] == PendingMsg(Data(m.sender, m.msgId, h.sent[m]), h.prop[(r, m)], r, false)
            && forall e :: e in p.queue.Timeline() && e.Id() == m ==> e == p.queue.deque[i]
  {
    assert m in Ids(p.queue.Timeline());
    var e :| e in p.queue.Timeline() && e.Id() == m;
    forall e1 | e1 in p.queue.Timeline() && e1.Id() == m
      ensures e1 == PendingMsg(Data(m.sender, m.msgId, h.sent[m]), h.prop[(r, m)], r, false) {
      assert EntryOk(h, r, e1);
    }
    assert e in p.queue.deque;
    var i := FindId(p.queue.deque, m);
    assert p.queue.deque[i] in p.queue.Timeline();
  }

  lemma FirstSeqAdvances(hosts: set<Pid>, h: History, r: Pid, p: Proc, m: Message)
    requires HistOk(hosts, h) && RcvOk(h, r, p) && r in hosts && SeqOk(h, m.sender, m) && (r, m.Id()) !in h.marked
    ensures (r, m.Id()) in h.prop && Advances(p.queue, m)
  {
    assert FinalOk(hosts, h, m.Id());
    WaitingEntry(h, r, p, m.Id());
    forall e | e in p.queue.deque && e.deliverable
      && Key(e.finalSeqId, e.finalSeqProposer) == Key(m.finalSeq, m.finalSeqProposer)
      ensures false {
      assert e in p.queue.Timeline() && EntryOk(h, r, e);
      FinalKeysDiffer(hosts, h, e.Id(), m.Id());
    }
  }

  ghost predicate SeqEffect(p: Proc, m: Message, entry: PendingMsg, p': Proc)
    requires m.Seq?
  {
    && p' == p.(queue := p'.queue, cache := p.cache - {m.Id()},
                latestSeq := if p.latestSeq < m.finalSeq then m.finalSeq else p.latestSeq)
    && p.queue.pending - {m.Id()} <= p'.queue.pending <= p.queue.pending
    && Ordered(p'.queue) && p.queue.delivered <= p'.queue.delivered
    && (forall e :: e in p'.queue.Timeline() <==> e == Finalized(entry, m) || (e in p.queue.Timeline() && e != entry))
  }

  lemma FirstSeqHasEffect(hosts: set<Pid>, h: History, r: Pid, p: Proc, m: Message)
    requires RcvOk(h, r, p) && Advances(p.queue, m) && m.sender in hosts
    ensures SeqEffect(p, m, p.queue.deque[FindId(p.queue.deque, m.Id())], ProcessSeq(p, hosts, m).proc)
    ensures ProcessSeq(p, hosts, m).reply == Some((m.sender, SeqAck(m.sender, m.msgId, r)))
  {
    MarkKeepsOrder(p.queue, m);
  }

  lemma FirstSeqKeepsEntries(h: History, r: Pid, p: Proc, m: Message, entry: PendingMsg, p': Proc)
    requires RcvOk(h, r, p) && SeqOk(h, m.sender, m) && SeqEffect(p, m, entry, p')
    requires entry in p.queue.Timeline() && entry.Id() == m.Id() && (r, m.Id()) in h.prop
    requires forall e :: e in p.queue.Timeline() && e.Id() == m.Id() ==> e == entry
    ensures forall e :: e in p'.queue.Timeline() ==>
              EntryOk(AfterMark(h, r, m.Id()), r, e) && e.finalSeqId <= p'.latestSeq
    ensures Ids(p'.queue.Timeline()) == Ids(p.queue.Timeline())
  {
    var h' := AfterMark(h, r, m.Id());
    assert EntryOk(h, r, entry);
    forall e | e in p'.queue.Timeline() ensures EntryOk(h', r, e) && e.finalSeqId <= p'.latestSeq {
      if e != Finalized(entry, m) {
        assert EntryOk(h, r, e) && e.Id() != m.Id();
      }
    }
    assert Finalized(entry, m) in p'.queue.Timeline() && Finalized(entry, m).Id() == entry.Id();
    forall id ensures id in Ids(p'.queue.Timeline()) <==> id in Ids(p.queue.Timeline()) {
      if id in Ids(p.queue.Timeline()) {
        var e :| e in p.queue.Timeline() && e.Id() == id;
        assert e == entry || e in p'.queue.Timeline();
      }
    }
  }

  lemma FirstSeqKeepsRcv(hosts: set<Pid>, h: History, r: Pid, p: Proc, m: Message, p': Proc)
    requires HistOk(hosts, h) && RcvOk(h, r, p) && r in hosts && SeqOk(h, m.sender, m) && (r, m.Id()) !in h.marked
    requires (r, m.Id()) in h.prop && FindId(p.queue.deque, m.Id()) < |p.queue.deque|
    requires SeqEffect(p, m, p.queue.deque[FindId(p.queue.deque, m.Id())], p')
    ensures RcvOk(AfterMark(h, r, m.Id()), r, p')
  {
    var entry := p.queue.deque[FindId(p.queue.deque, m.Id())];
    FinalIsFew(hosts, h, m);
    hide HistOk, SeqEffect, RcvOk;
    WaitingEntry(h, r, p, m.Id());
    assert entry in p.queue.Timeline();
    FinalizedKeepsRcv(h, r, p, m, entry, p');
  }

  lemma FinalizedKeepsRcv(h: History, r: Pid, p: Proc, m: Message, entry: PendingMsg, p': Proc)
    requires RcvOk(h, r, p) && SeqOk(h, m.sender, m) && m.finalSeq <= |h.prop| && SeqEffect(p, m, entry, p')
    requires entry in p.queue.Timeline() && entry.Id() == m.Id() && (r, m.Id()) in h.prop
    requires forall e :: e in p.queue.Timeline() && e.Id() == m.Id() ==> e == entry
    ensures RcvOk(AfterMark(h, r, m.Id()), r, p')
  {
    FirstSeqKeepsEntries(h, r, p, m, entry, p');
    FirstSeqKeepsPending(h, r, p, m, entry, p');
    FirstSeqKeepsFields(h, r, p, m, entry, p');
    hide SeqEffect, SeqOk, EntryOk, Ids, Ordered;
  }

  lemma FirstSeqKeepsFields(h: History, r: Pid, p: Proc, m: Message, entry: PendingMsg, p': Proc)
    requires RcvOk(h, r, p) && m.Seq? && SeqEffect(p, m, entry, p') && m.finalSeq <= |h.prop|
    ensures p'.id == r && !p'.crashed && Ordered(p'.queue) && p'.latestSeq <= |h.prop|
    ensures forall id :: (r, id) in h.prop ==> id in Ids(p.queue.Timeline()) && h.prop[(r, id)] <= p'.latestSeq
  {
    hide EntryOk, Ordered;
  }

  lemma FinalIsFew(hosts: set<Pid>, h: History, m: Message)
    requires HistOk(hosts, h) && SeqOk(h, m.sender, m)
    ensures m.finalSeq <= |h.prop|
  {
    assert FinalOk(hosts, h, m.Id());
  }

  // Its own identifier apart, every message it has proposed a number for and not seen numbered stays pending.
  lemma FirstSeqKeepsPending(h: History, r: Pid, p: Proc, m: Message, entry: PendingMsg, p': Proc)
    requires RcvOk(h, r, p) && m.Seq? && (r, m.Id()) in h.prop && SeqEffect(p, m, entry, p')
    ensures forall id :: id in p'.queue.pending ==> (r, id) in h.prop
    ensures forall id :: (r, id) in h.prop && (r, id) !in AfterMark(h, r, m.Id()).marked ==>
              id in p'.queue.pending && id in p'.cache &&
              p'.cache[id] == p.cache[id] == Ack(id.sender, id.msgId, h.prop[(r, id)], r)
  {
    hide EntryOk, Ordered;
  }

  // A repeated sequence message only clears the cache.
  lemma RepeatedSeqIsIdle(hosts: set<Pid>, h: History, r: Pid, p: Proc, m: Message)
    requires RcvOk(h, r, p) && SeqOk(h, m.sender, m) && (r, m.Id()) in h.marked && m.sender in hosts
    ensures ProcessSeq(p, hosts, m) ==
            Reaction(p.(cache := p.cache - {m.Id()}), Some((m.sender, SeqAck(m.sender, m.msgId, r))))
  {
    forall e | e in p.queue.Timeline() && e.Id() == m.Id() ensures e == Finalized(e, m) && e.finalSeqId <= p.latestSeq {
      assert EntryOk(h, r, e);
    }
    assert forall e :: e in p.queue.deque ==> e in p.queue.Timeline();
    RepeatedMarkIsIdle(p.queue, m);
    var i := FindId(p.queue.deque, m.Id());
    if i < |p.queue.deque| {
      assert p.queue.deque[i] in p.queue.Timeline();
    }
  }

  lemma RepeatedSeqKeepsRcv(h: History, r: Pid, p: Proc, m: MsgIdentifier)
    requires RcvOk(h, r, p) && (r, m) in h.marked
    ensures RcvOk(AfterMark(h, r, m), r, p.(cache := p.cache - {m}))
  {
    assert AfterMark(h, r, m).marked == h.marked;
  }
}
