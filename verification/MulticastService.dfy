/** One process of the total-order multicast: its state, its message handlers and its class. */
module MulticastServices {
  import opened Messages
  import opened HoldBackQueues
  import opened ContinuousMsgSenders

  datatype Key = Key(seqId: nat, proposer: Pid) {
    predicate Less(other: Key) {
      seqId < other.seqId || (seqId == other.seqId && proposer < other.proposer)
    }
  }

  datatype Proc = Proc(
    id: Pid,
    msgCounter: nat,
    latestSeq: nat,
    proposed: map<nat, map<Pid, nat>>,
    queue: QueueState,
    dataList: seq<MsgHolder>,
    seqList: seq<MsgHolder>,
    cache: map<MsgIdentifier, Message>,
    crashed: bool
  )

  datatype Reaction = Reaction(proc: Proc, reply: Option<(Pid, Message)>)

  function InitProc(id: Pid): Proc {
    Proc(id, 0, 0, map[], QueueState({}, [], []), [], [], map[], false)
  }

  // An exception thrown by `.at` leaves the listener thread and ends the process.
  function Crash(p: Proc): Reaction {
    Reaction(p.(crashed := true), None)
  }

  function StartMulticast(p: Proc, hosts: set<Pid>, data: nat): Proc {
    var k := U32Succ(p.msgCounter);
    p.(msgCounter := k, dataList := p.dataList + [MsgHolder(Data(p.id, k, data), hosts)])
  }

  function ProcessData(p: Proc, hosts: set<Pid>, d: Message): Reaction
    requires d.Data?
  {
    var proposedSeq := U32Succ(p.latestSeq);
    var added := d.Id() !in p.queue.pending;
    var queue := AddToQueue(p.queue, d, proposedSeq, p.id);
    var cache := if added then p.cache[d.Id() := Ack(d.sender, d.msgId, proposedSeq, p.id)] else p.cache;
    if d.Id() !in cache then
      Crash(p)
    else
      var p' := p.(queue := queue, cache := cache, latestSeq := if added then proposedSeq else p.latestSeq);
      if d.sender !in hosts then Crash(p') else Reaction(p', Some((d.sender, cache[d.Id()])))
  }

  // The final sequence number: the largest proposal, and among equal ones the smallest proposer.
  ghost predicate IsMaxProposal(proposals: map<Pid, nat>, k: Key) {
    && k.proposer in proposals && proposals[k.proposer] == k.seqId
    && forall q :: q in proposals ==> proposals[q] < k.seqId || (proposals[q] == k.seqId && k.proposer <= q)
  }

  lemma {:induction false} MaxProposalExists(proposals: map<Pid, nat>)
    requires proposals != map[]
    ensures exists k :: IsMaxProposal(proposals, k)
    decreases |proposals|
  {
    var p: Pid :| p in proposals;
    var rest := proposals - {p};
    if rest == map[] {
      assert forall q :: q in proposals && q != p ==> q in rest;
      assert IsMaxProposal(proposals, Key(proposals[p], p));
    } else {
      MaxProposalExists(rest);
      var k :| IsMaxProposal(rest, k);
      var better := proposals[p] < k.seqId || (proposals[p] == k.seqId && k.proposer <= p);
      var best := if better then k else Key(proposals[p], p);
      assert forall q :: q in proposals && q != p ==> q in rest;
      assert IsMaxProposal(proposals, best);
    }
  }

  // Whatever the iteration order of the hash map, std::max_element finds the same pair.
  lemma MaxProposalIsUnique(proposals: map<Pid, nat>, k1: Key, k2: Key)
    requires IsMaxProposal(proposals, k1) && IsMaxProposal(proposals, k2)
    ensures k1 == k2
  {
  }

  ghost function MaxProposal(proposals: map<Pid, nat>): (k: Key)
    requires proposals != map[]
    ensures IsMaxProposal(proposals, k)
  {
    MaxProposalExists(proposals);
    var k :| IsMaxProposal(proposals, k);
    k
  }

  // One more proposal wins exactly if its number is larger, or the same and its proposer smaller.
  lemma OneMoreProposal(proposals: map<Pid, nat>, q: Pid, v: nat)
    requires q !in proposals
    ensures q in proposals[q := v]
    ensures MaxProposal(proposals[q := v]) ==
            if proposals == map[] then Key(v, q)
            else
              var k := MaxProposal(proposals);
              if v > k.seqId || (v == k.seqId && q < k.proposer) then Key(v, q) else k
  {
    var after := proposals[q := v];
    if proposals == map[] {
      assert IsMaxProposal(after, Key(v, q));
      MaxProposalIsUnique(after, MaxProposal(after), Key(v, q));
    } else {
      var k := MaxProposal(proposals);
      var best := if v > k.seqId || (v == k.seqId && q < k.proposer) then Key(v, q) else k;
      assert IsMaxProposal(after, best);
      MaxProposalIsUnique(after, MaxProposal(after), best);
    }
  }

  function ProposalsFor(p: Proc, messageId: nat): map<Pid, nat> {
    if messageId in p.proposed then p.proposed[messageId] else map[]
  }

  ghost function ProcessAck(p: Proc, hosts: set<Pid>, a: Message): Reaction
    requires a.Ack?
  {
    if a.proposer !in hosts then
      Crash(p)
    else
      var p1 := p.(dataList := RemoveRecipient(p.dataList, a.msgId, a.proposer));
      if !Removes(p.dataList, a.msgId, a.proposer) then
        Reaction(p1, None)
      else
        var proposals := ProposalsFor(p, a.msgId)[a.proposer := a.proposedSeq];
        var p2 := p1.(proposed := p.proposed[a.msgId := proposals]);
        if |proposals| == |hosts| then
          var k := MaxProposal(proposals);
          Reaction(p2.(seqList := p.seqList + [MsgHolder(Seq(a.sender, a.msgId, k.seqId, k.proposer), hosts)]), None)
        else
          Reaction(p2, None)
  }

  function ProcessSeq(p: Proc, hosts: set<Pid>, m: Message): Reaction
    requires m.Seq?
  {
    var p1 := p.(queue := MarkDeliverable(p.queue, m),
                 latestSeq := if IsMarked(p.queue, m) && p.latestSeq < m.finalSeq then m.finalSeq else p.latestSeq);
    if m.sender !in hosts then
      Crash(p1)
    else
      Reaction(p1.(cache := p.cache - {m.Id()}), Some((m.sender, SeqAck(m.sender, m.msgId, p.id))))
  }

  function ProcessSeqAck(p: Proc, hosts: set<Pid>, a: Message): Reaction
    requires a.SeqAck?
  {
    if a.ackSender !in hosts then
      Crash(p)
    else
      Reaction(p.(seqList := RemoveRecipient(p.seqList, a.msgId, a.ackSender)), None)
  }

  // The body of the listening loop, once a message is received and not dropped.
  ghost function Process(p: Proc, hosts: set<Pid>, m: Message): Reaction {
    match m
    case Data(_, _, _) => ProcessData(p, hosts, m)
    case Ack(_, _, _, _) => ProcessAck(p, hosts, m)
    case Seq(_, _, _, _) => ProcessSeq(p, hosts, m)
    case SeqAck(_, _, _) => ProcessSeqAck(p, hosts, m)
  }

  // A sequence message raises the counter to its number, never lowers it, and only if it finds its entry;
  // if not, it changes nothing else. In either case it drops its own acknowledgement from the cache.
  lemma SeqRaisesCounter(p: Proc, hosts: set<Pid>, m: Message)
    requires m.Seq? && Ordered(p.queue)
    ensures var p' := ProcessSeq(p, hosts, m).proc;
            var finds := m.Id() in p.queue.pending && exists e :: e in p.queue.deque && e.Id() == m.Id();
            && p.latestSeq <= p'.latestSeq && (finds ==> m.finalSeq <= p'.latestSeq)
            && p'.latestSeq in (if finds then {p.latestSeq, m.finalSeq} else {p.latestSeq})
            && (m.sender in hosts ==> p'.cache == p.cache - {m.Id()})
            && (!finds && m.sender in hosts ==> p' == p.(cache := p'.cache))
  {
    var i := FindId(p.queue.deque, m.Id());
    assert i < |p.queue.deque| ==> p.queue.deque[i] in p.queue.deque;
    if forall e :: e in p.queue.deque ==> e.Id() != m.Id() {
      RepeatedMarkIsIdle(p.queue, m);
    }
    hide MarkDeliverable;
  }

  // A message ends the process exactly if a lookup throws: that of a host that is none of the recipients,
  // or of the acknowledgement of a repeated data message that is no longer cached. Data and sequence
  // messages are answered, to their sender, unless it does.
  lemma LookupsThrow(p: Proc, hosts: set<Pid>, m: Message)
    requires !p.crashed
    ensures var r := Process(p, hosts, m);
            && (r.proc.crashed <==>
                  match m
                  case Data(sender, _, _) =>
                    sender !in hosts || (m.Id() in p.queue.pending && m.Id() !in p.cache)
                  case Ack(_, _, _, proposer) => proposer !in hosts
                  case Seq(sender, _, _, _) => sender !in hosts
                  case SeqAck(_, _, ackSender) => ackSender !in hosts)
            && (r.reply.Some? <==> (m.Data? || m.Seq?) && !r.proc.crashed)
            && (r.reply.Some? ==>
                  r.reply.value.0 == m.sender && r.reply.value.1 ==
                    if m.Seq? then SeqAck(m.sender, m.msgId, p.id)
                    else if m.Id() in p.queue.pending then p.cache[m.Id()]
                    else Ack(m.sender, m.msgId, U32Succ(p.latestSeq), p.id))
  {
    hide MaxProposal, RemoveRecipient, MarkDeliverable;
  }

  // A copy of a data message that arrives after its message was delivered is never harmless. It is
  // queued once more exactly when the identifier has left `pending`; it ends the process when the
  // identifier was left behind there.
  lemma LateDataIsNeverHarmless(p: Proc, hosts: set<Pid>, d: Message)
    requires d.Data? && d.sender in hosts && !p.crashed
    requires d.Id() !in p.cache && (exists e :: e in p.queue.delivered && e.Id() == d.Id())
    ensures var p' := ProcessData(p, hosts, d).proc;
            && (!p'.crashed <==> d.Id() !in p.queue.pending)
            && (!p'.crashed <==> |p'.queue.Timeline()| == |p.queue.Timeline()| + 1)
            && (!p'.crashed ==>
                p'.queue.Timeline() == p.queue.Timeline() + [PendingMsg(d, U32Succ(p.latestSeq), p.id, false)])
  {
  }

  // If the sequence message is repeated, too, the message is then delivered a second time, under its old key.
  lemma LateDataIsDeliveredAgain(p: Proc, hosts: set<Pid>, d: Message, e: PendingMsg)
    requires d.Data? && d.sender in hosts && !p.crashed && Ordered(p.queue)
    requires d.Id() !in p.queue.pending && e in p.queue.delivered && e.Id() == d.Id()
    requires forall x :: x in p.queue.deque ==> x.Id() != d.Id()
    ensures var p1 := ProcessData(p, hosts, d).proc;
            var p2 := ProcessSeq(p1, hosts, Seq(d.sender, d.msgId, e.finalSeqId, e.finalSeqProposer)).proc;
            && !p2.crashed && p2.queue.deque == p.queue.deque
            && p2.queue.delivered == p.queue.delivered + [PendingMsg(d, e.finalSeqId, e.finalSeqProposer, true)]
  {
    DeliveredAgain(p.queue, d, U32Succ(p.latestSeq), p.id, e);
  }

  // The process after any messages.
  ghost function ProcessAll(p: Proc, hosts: set<Pid>, msgs: seq<Message>): Proc
    decreases |msgs|
  {
    if msgs == [] then p else ProcessAll(Process(p, hosts, msgs[0]).proc, hosts, msgs[1..])
  }

  // Whatever messages come, an undeliverable entry stays in the queue until a sequence message of its own.
  lemma {:induction false} EntryStays(p: Proc, hosts: set<Pid>, msgs: seq<Message>, e: PendingMsg)
    requires e in p.queue.deque && !e.deliverable
    requires forall m :: m in msgs && m.Seq? ==> m.Id() != e.Id()
    ensures e in ProcessAll(p, hosts, msgs).queue.deque
    decreases |msgs|
  {
    hide MarkDeliverable, RemoveRecipient, MaxProposal;
    if msgs != [] {
      if msgs[0].Seq? {
        UndeliverableStays(p.queue, msgs[0], e);
      }
      assert forall m :: m in msgs[1..] ==> m in msgs;
      EntryStays(Process(p, hosts, msgs[0]).proc, hosts, msgs[1..], e);
    }
  }

  // So does the entry of a late copy of a data message.
  lemma LateDataStays(p: Proc, hosts: set<Pid>, d: Message, msgs: seq<Message>)
    requires d.Data? && d.sender in hosts && d.Id() !in p.queue.pending
    requires forall m :: m in msgs && m.Seq? ==> m.Id() != d.Id()
    ensures PendingMsg(d, U32Succ(p.latestSeq), p.id, false) in
              ProcessAll(ProcessData(p, hosts, d).proc, hosts, msgs).queue.deque
  {
    var p1 := ProcessData(p, hosts, d).proc;
    var late := PendingMsg(d, U32Succ(p.latestSeq), p.id, false);
    assert late in p1.queue.deque;
    EntryStays(p1, hosts, msgs, late);
  }

  class MulticastService {
    const senderId: Pid
    const recipients: set<Pid>
    var msgId: nat
    var latestSeqId: nat
    var proposedSeqIdMap: map<nat, map<Pid, nat>>
    const holdBackQueue: HoldBackQueue
    const dataMsgSender: ContinuousMsgSender
    const seqMsgSender: ContinuousMsgSender
    var ackMessageCache: map<MsgIdentifier, Message>
    var crashed: bool

    ghost predicate Valid()
      reads this
    {
      && dataMsgSender != seqMsgSender
      && dataMsgSender.recipients == recipients == seqMsgSender.recipients
    }

    ghost function State(): Proc
      reads this, holdBackQueue, dataMsgSender, seqMsgSender
    {
      Proc(senderId, msgId, latestSeqId, proposedSeqIdMap, holdBackQueue.State(),
           dataMsgSender.msgList, seqMsgSender.msgList, ackMessageCache, crashed)
    }

    constructor (senderId: Pid, recipients: set<Pid>)
      ensures Valid() && this.recipients == recipients
      ensures fresh(holdBackQueue) && fresh(dataMsgSender) && fresh(seqMsgSender)
      ensures State() == InitProc(senderId)
    {
      this.senderId := senderId;
      this.recipients := recipients;
      holdBackQueue := new HoldBackQueue();
      dataMsgSender := new ContinuousMsgSender(recipients);
      seqMsgSender := new ContinuousMsgSender(recipients);
      msgId, latestSeqId, proposedSeqIdMap, ackMessageCache, crashed := 0, 0, map[], map[], false;
    }

    method Multicast(data: nat)
      requires Valid()
      modifies this, dataMsgSender
      ensures Valid()
      ensures State() == StartMulticast(old(State()), recipients, data)
    {
      msgId := U32Succ(msgId);
      dataMsgSender.Queue(Data(senderId, msgId, data));
    }

    method ProcessDataMsg(dataMsg: Message) returns (reply: Option<(Pid, Message)>)
      requires Valid() && dataMsg.Data?
      modifies this, holdBackQueue
      ensures Valid()
      ensures Reaction(State(), reply) == ProcessData(old(State()), recipients, dataMsg)
    {
      reply := None;
      var proposedSeq := U32Succ(latestSeqId);
      var added := holdBackQueue.Add(dataMsg, proposedSeq, senderId);
      if added {
        ackMessageCache := ackMessageCache[dataMsg.Id() := Ack(dataMsg.sender, dataMsg.msgId, proposedSeq, senderId)];
      }
      if dataMsg.Id() !in ackMessageCache {
        crashed := true;
        return;
      }
      var ackMsg := ackMessageCache[dataMsg.Id()];
      if added {
        latestSeqId := U32Succ(latestSeqId);
      }
      if dataMsg.sender !in recipients {
        crashed := true;
        return;
      }
      reply := Some((dataMsg.sender, ackMsg));
    }

    // std::max_element over the proposals, visited in any order.
    method CreateSeqMessage(ackMsg: Message, proposals: map<Pid, nat>) returns (seqMsg: Message)
      requires ackMsg.Ack? && proposals != map[]
      ensures var k := MaxProposal(proposals);
              seqMsg == Seq(ackMsg.sender, ackMsg.msgId, k.seqId, k.proposer)
    {
      var best: Pid :| best in proposals;
      var left := proposals.Keys - {best};
      while left != {}
        invariant left <= proposals.Keys && best in proposals.Keys - left
        invariant forall q :: q in proposals && q !in left ==>
                    proposals[q] < proposals[best] || (proposals[q] == proposals[best] && best <= q)
        decreases left
      {
        var p: Pid :| p in left;
        if proposals[best] < proposals[p] || (proposals[best] == proposals[p] && p < best) {
          best := p;
        }
        left := left - {p};
      }
      MaxProposalIsUnique(proposals, Key(proposals[best], best), MaxProposal(proposals));
      seqMsg := Seq(ackMsg.sender, ackMsg.msgId, proposals[best], best);
    }

    method ProcessAckMsg(ackMsg: Message)
      requires Valid() && ackMsg.Ack?
      modifies this, dataMsgSender, seqMsgSender
      ensures Valid()
      ensures Reaction(State(), None) == ProcessAck(old(State()), recipients, ackMsg)
    {
      if ackMsg.proposer !in recipients {
        crashed := true;
        return;
      }
      var removed := dataMsgSender.Remove(ackMsg.msgId, ackMsg.proposer);
      if removed {
        var proposals := if ackMsg.msgId in proposedSeqIdMap then proposedSeqIdMap[ackMsg.msgId] else map[];
        proposals := proposals[ackMsg.proposer := ackMsg.proposedSeq];
        proposedSeqIdMap := proposedSeqIdMap[ackMsg.msgId := proposals];
        if |proposals| == |recipients| {
          assert ackMsg.proposer in proposals;
          var seqMsg := CreateSeqMessage(ackMsg, proposals);
          seqMsgSender.Queue(seqMsg);
        }
      }
    }

    method ProcessSeqMsg(seqMsg: Message) returns (reply: Option<(Pid, Message)>)
      requires Valid() && seqMsg.Seq?
      modifies this, holdBackQueue
      ensures Valid()
      ensures Reaction(State(), reply) == ProcessSeq(old(State()), recipients, seqMsg)
    {
      reply := None;
      var marked := holdBackQueue.Mark(seqMsg);
      if marked && latestSeqId < seqMsg.finalSeq {
        latestSeqId := seqMsg.finalSeq;
      }
      if seqMsg.sender !in recipients {
        crashed := true;
        return;
      }
      reply := Some((seqMsg.sender, SeqAck(seqMsg.sender, seqMsg.msgId, senderId)));
      ackMessageCache := ackMessageCache - {seqMsg.Id()};
    }

    method ProcessSeqAckMsg(seqAckMsg: Message)
      requires Valid() && seqAckMsg.SeqAck?
      modifies this, seqMsgSender
      ensures Valid()
      ensures Reaction(State(), None) == ProcessSeqAck(old(State()), recipients, seqAckMsg)
    {
      if seqAckMsg.ackSender !in recipients {
        crashed := true;
        return;
      }
      var _ := seqMsgSender.Remove(seqAckMsg.msgId, seqAckMsg.ackSender);
    }

    // One turn of the listening loop.
    method Listen(m: Message) returns (reply: Option<(Pid, Message)>)
      requires Valid()
      modifies this, holdBackQueue, dataMsgSender, seqMsgSender
      ensures Valid()
      ensures Reaction(State(), reply) == Process(old(State()), recipients, m)
    {
      reply := None;
      match m {
        case Data(_, _, _) => reply := ProcessDataMsg(m);
        case Ack(_, _, _, _) => ProcessAckMsg(m);
        case Seq(_, _, _, _) => reply := ProcessSeqMsg(m);
        case SeqAck(_, _, _) => ProcessSeqAckMsg(m);
      }
    }
  }
}
