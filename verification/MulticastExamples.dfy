/** Why a data message must not fall behind its sequence message. */
module MulticastExamples {
  import opened Messages
  import opened HoldBackQueues
  import opened ContinuousMsgSenders
  import opened MulticastServices
  import opened MulticastProtocol

  /* ----- a multicast of one process to itself ----- */

  predicate At(s: State, p: Proc, c: seq<Message>) {
    s.hosts == {0} && s.procs == map[0 := p] && Chan(s, 0, 0) == c && !p.crashed && |s.hist.sent| <= 1
  }

  lemma RetransmitAt(s: State, p: Proc, c: seq<Message>, m: Message)
    requires At(s, p, c) && (Holds(p.dataList, 0, m) || Holds(p.seqList, 0, m))
    ensures Enabled(s, Retransmit(0, 0, m)) && At(Apply(s, Retransmit(0, 0, m)), p, c + [m])
  {
  }

  lemma ReceiveAt(s: State, p: Proc, c: seq<Message>, p': Proc, replies: seq<Message>)
    requires At(s, p, c) && c != [] && !p'.crashed && |replies| <= 1
    requires Process(p, {0}, c[0]) == Reaction(p', if replies == [] then None else Some((0, replies[0])))
    ensures Enabled(s, Receive(0, 0)) && At(Apply(s, Receive(0, 0)), p', c[1..] + replies)
  {
    hide Process;
  }

  function DataMsg(data: nat): Message {
    Data(0, 1, data)
  }

  const THE_ACK := Ack(0, 1, 1, 0)
  const THE_SEQ := Seq(0, 1, 1, 0)
  const SEQ_ACK := SeqAck(0, 1, 0)

  function Entry(data: nat, seqId: nat, deliverable: bool): PendingMsg {
    PendingMsg(DataMsg(data), seqId, 0, deliverable)
  }

  function Started(data: nat): Proc {
    InitProc(0).(msgCounter := 1, dataList := [MsgHolder(DataMsg(data), {0})])
  }

  // The process has proposed a number for its message.
  function Proposed(data: nat): Proc {
    Started(data).(latestSeq := 1, queue := QueueState({MsgIdentifier(1, 0)}, [Entry(data, 1, false)], []),
                   cache := map[MsgIdentifier(1, 0) := THE_ACK])
  }

  // It has numbered the message.
  function Numbered(data: nat): Proc {
    Proposed(data).(proposed := map[1 := map[0 := 1]], dataList := [], seqList := [MsgHolder(THE_SEQ, {0})])
  }

  function Delivered(data: nat): Proc {
    Numbered(data).(queue := QueueState({}, [], [Entry(data, 1, true)]), cache := map[])
  }

  // A late copy of the data message is queued once more.
  function Requeued(data: nat): Proc {
    Delivered(data).(latestSeq := 2,
                     queue := QueueState({MsgIdentifier(1, 0)}, [Entry(data, 2, false)], [Entry(data, 1, true)]),
                     cache := map[MsgIdentifier(1, 0) := Ack(0, 1, 2, 0)])
  }

  lemma FirstData(data: nat)
    ensures Process(Started(data), {0}, DataMsg(data)) == Reaction(Proposed(data), Some((0, THE_ACK)))
  {
    assert [] + [Entry(data, 1, false)] == [Entry(data, 1, false)];
  }

  lemma RepeatedData(data: nat)
    ensures Process(Proposed(data), {0}, DataMsg(data)) == Reaction(Proposed(data), Some((0, THE_ACK)))
  {
  }

  lemma FirstAck(data: nat)
    ensures Process(Proposed(data), {0}, THE_ACK) == Reaction(Numbered(data), None)
  {
    var p := Proposed(data);
    var h := MsgHolder(DataMsg(data), {0});
    assert FindMsg([h], 1) == 0;
    assert {0} - {0} == {};
    assert Struck([h], 1, 0) == [h.(recipients := {})];
    assert RemoveRecipient([h], 1, 0) == [];
    assert 0 in map[0 := 1];
    MaxProposalIsUnique(map[0 := 1], Key(1, 0), MaxProposal(map[0 := 1]));
    assert map[][0 := 1] == map[0 := 1];
    assert [] + [MsgHolder(THE_SEQ, {0})] == [MsgHolder(THE_SEQ, {0})];
  }

  lemma MarkOnly(data: nat, seqId: nat, delivered: seq<PendingMsg>)
    ensures var q := QueueState({MsgIdentifier(1, 0)}, [Entry(data, seqId, false)], delivered);
            MarkDeliverable(q, THE_SEQ) ==
            QueueState({}, [], delivered + [Entry(data, 1, true)]) && IsMarked(q, THE_SEQ)
  {
    var e := Entry(data, 1, true);
    assert FindId([Entry(data, seqId, false)], MsgIdentifier(1, 0)) == 0;
    assert Marked([Entry(data, seqId, false)], THE_SEQ) == [e];
    assert [e][1..] == [];
    assert Sort([e]) == [e];
    assert DeliverableCount([e]) == 1;
    assert {MsgIdentifier(1, 0)} - {MsgIdentifier(1, 0)} == {};
  }

  lemma FirstSeq(data: nat)
    ensures Process(Numbered(data), {0}, THE_SEQ) == Reaction(Delivered(data), Some((0, SEQ_ACK)))
  {
    MarkOnly(data, 1, []);
    assert [] + [Entry(data, 1, true)] == [Entry(data, 1, true)];
    hide MarkDeliverable;
    assert map[MsgIdentifier(1, 0) := THE_ACK] - {MsgIdentifier(1, 0)} == map[];
  }

  lemma LateData(data: nat)
    ensures Process(Delivered(data), {0}, DataMsg(data)) == Reaction(Requeued(data), Some((0, Ack(0, 1, 2, 0))))
  {
    assert [] + [Entry(data, 2, false)] == [Entry(data, 2, false)];
  }

  lemma RepeatedSeq(data: nat)
    ensures var r := Process(Requeued(data), {0}, THE_SEQ);
            && r.reply == Some((0, SEQ_ACK)) && !r.proc.crashed
            && r.proc.queue.delivered == [Entry(data, 1, true), Entry(data, 1, true)]
  {
    MarkOnly(data, 2, [Entry(data, 1, true)]);
    hide MarkDeliverable;
  }

  /* ----- two deliveries ----- */

  lemma OneStep(s: State, step: Step)
    requires Reachable(s) && Enabled(s, step) && Apply(s, step).hosts == s.hosts
    ensures Reachable(Apply(s, step))
  {
    hide Apply, Enabled;
    var steps :| Run(Init(s.hosts), steps, s);
    RunAppend(Init(s.hosts), steps, s, step);
  }

  lemma {:induction false} RunAppend(s0: State, steps: seq<Step>, s: State, step: Step)
    requires Run(s0, steps, s) && Enabled(s, step)
    ensures Run(s0, steps + [step], Apply(s, step))
    decreases |steps|
  {
    hide Apply, Enabled;
    if steps == [] {
      assert [step][1..] == [] && steps + [step] == [step];
      assert Run(Apply(s, step), [], Apply(s, step));
    } else {
      assert (steps + [step])[1..] == steps[1..] + [step];
      RunAppend(Apply(s0, steps[0]), steps[1..], s, step);
    }
  }

  // A copy of the data message is on its way ahead of two copies of its sequence message.
  lemma DataAheadOfSeq(data: nat) returns (s: State)
    ensures Reachable(s) && At(s, Numbered(data), [DataMsg(data), THE_SEQ, THE_SEQ])
  {
    hide Reachable, Apply, Enabled, Process;
    var d := DataMsg(data);
    var s1 := FirstRound(data);
    assert Holds([MsgHolder(THE_SEQ, {0})], 0, THE_SEQ) by {
      assert MsgHolder(THE_SEQ, {0}) in [MsgHolder(THE_SEQ, {0})];
    }
    RetransmitAt(s1, Numbered(data), [d], THE_SEQ);
    var s2 := Apply(s1, Retransmit(0, 0, THE_SEQ));
    OneStep(s1, Retransmit(0, 0, THE_SEQ));
    RetransmitAt(s2, Numbered(data), [d] + [THE_SEQ], THE_SEQ);
    OneStep(s2, Retransmit(0, 0, THE_SEQ));
    s := Apply(s2, Retransmit(0, 0, THE_SEQ));
    assert [d] + [THE_SEQ] + [THE_SEQ] == [d, THE_SEQ, THE_SEQ];
  }

  lemma Begin(data: nat) returns (s: State)
    ensures Reachable(s) && At(s, Started(data), [])
  {
    var s0 := Init({0});
    assert Run(s0, [], s0);
    assert s0.procs == map[0 := InitProc(0)];
    s := Apply(s0, Multicast(0, data));
    OneStep(s0, Multicast(0, data));
    assert [] + [MsgHolder(DataMsg(data), {0})] == [MsgHolder(DataMsg(data), {0})];
  }

  // The data message is received, sent once more, and numbered.
  lemma FirstRound(data: nat) returns (s: State)
    ensures Reachable(s) && At(s, Numbered(data), [DataMsg(data)])
  {
    hide Reachable, Apply, Enabled, Process;
    var d := DataMsg(data);
    var s0 := Begin(data);
    assert Holds([MsgHolder(d, {0})], 0, d) by {
      assert MsgHolder(d, {0}) in [MsgHolder(d, {0})];
    }
    RetransmitAt(s0, Started(data), [], d);
    OneStep(s0, Retransmit(0, 0, d));
    var s1 := Apply(s0, Retransmit(0, 0, d));
    FirstData(data);
    ReceiveAt(s1, Started(data), [] + [d], Proposed(data), [THE_ACK]);
    OneStep(s1, Receive(0, 0));
    var s2 := Apply(s1, Receive(0, 0));
    assert ([] + [d])[1..] + [THE_ACK] == [THE_ACK];
    RetransmitAt(s2, Proposed(data), [THE_ACK], d);
    OneStep(s2, Retransmit(0, 0, d));
    var s3 := Apply(s2, Retransmit(0, 0, d));
    FirstAck(data);
    ReceiveAt(s3, Proposed(data), [THE_ACK] + [d], Numbered(data), []);
    OneStep(s3, Receive(0, 0));
    s := Apply(s3, Receive(0, 0));
    assert ([THE_ACK] + [d])[1..] + [] == [d];
  }

  // Three receipts, after the one swap that the channels are assumed not to make.
  lemma ThreeReceipts(s: State, data: nat) returns (s': State)
    requires At(s, Numbered(data), [THE_SEQ, DataMsg(data), THE_SEQ])
    ensures Run(s, [Receive(0, 0), Receive(0, 0), Receive(0, 0)], s')
    ensures s'.procs.Keys == {0} && s'.procs[0].queue.delivered == [Entry(data, 1, true), Entry(data, 1, true)]
  {
    hide Apply, Enabled, Process;
    var d := DataMsg(data);
    var c := [THE_SEQ, d, THE_SEQ];
    FirstSeq(data);
    ReceiveAt(s, Numbered(data), c, Delivered(data), [SEQ_ACK]);
    var s1 := Apply(s, Receive(0, 0));
    var c1 := c[1..] + [SEQ_ACK];
    LateData(data);
    assert c1[0] == d;
    ReceiveAt(s1, Delivered(data), c1, Requeued(data), [Ack(0, 1, 2, 0)]);
    var s2 := Apply(s1, Receive(0, 0));
    var c2 := c1[1..] + [Ack(0, 1, 2, 0)];
    assert c2[0] == THE_SEQ;
    RepeatedSeq(data);
    ReceiveAt(s2, Requeued(data), c2, Process(Requeued(data), {0}, THE_SEQ).proc, [SEQ_ACK]);
    s' := Apply(s2, Receive(0, 0));
    var r := Receive(0, 0);
    assert [r][1..] == [] && [r, r][1..] == [r] && [r, r, r][1..] == [r, r];
    assert Run(s', [], s') && Run(s2, [r], s') && Run(s1, [r, r], s');
  }

  // If a copy of a data message may fall behind its sequence message, a message can be delivered twice:
  // one such swap in a reachable state, and three receipts.
  lemma DeliveredTwiceAfterSwap(data: nat) returns (s: State, s': State)
    ensures Reachable(s) && WithinCounters(s) && |Chan(s, 0, 0)| == 3
    ensures FallsBehind(Chan(s, 0, 0)[0], Chan(s, 0, 0)[1])
    ensures Run(Put(s, 0, 0, Swapped(Chan(s, 0, 0), 0)), [Receive(0, 0), Receive(0, 0), Receive(0, 0)], s')
    ensures 0 in s'.procs && |s'.procs[0].queue.delivered| == 2
    ensures s'.procs[0].queue.delivered[0].Id() == s'.procs[0].queue.delivered[1].Id()
  {
    hide Run, Reachable, Numbered;
    s := DataAheadOfSeq(data);
    var d := DataMsg(data);
    assert Swapped([d, THE_SEQ, THE_SEQ], 0) == [THE_SEQ, d, THE_SEQ];
    s' := ThreeReceipts(Put(s, 0, 0, [THE_SEQ, d, THE_SEQ]), data);
  }
}
