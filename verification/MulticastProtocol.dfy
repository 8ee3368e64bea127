/** The multicast as a whole: n processes over channels that lose, repeat and reorder, any interleaving. */
module MulticastProtocol {
  import opened Messages
  import opened HoldBackQueues
  import opened ContinuousMsgSenders
  import opened MulticastServices

  // What has happened so far. The processes never read it.
  datatype History = History(
    sent: map<MsgIdentifier, nat>,         // the data of every multicast message
    prop: map<(Pid, MsgIdentifier), nat>,  // the first proposal of a process for a message
    final: map<MsgIdentifier, Key>,        // the key of every SeqMessage queued by its sender
    marked: set<(Pid, MsgIdentifier)>      // processes that have handled a SeqMessage for a message
  )

  datatype State = State(
    hosts: set<Pid>,
    procs: map<Pid, Proc>,
    net: map<(Pid, Pid), seq<Message>>,    // from, to
    hist: History
  )

  // Each handler runs alone on the listening thread, so one message is one step. Losing a message
  // covers both the network and dropMessage. The network may also repeat a message, and swap two
  // neighbours, time and again; only a copy of a data message does not fall behind its sequence message.
  datatype Step =
    | Multicast(p: Pid, data: nat)
    | Retransmit(p: Pid, r: Pid, m: Message)
    | Receive(src: Pid, dst: Pid)
    | Lose(src: Pid, dst: Pid, i: nat)
    | Repeat(src: Pid, dst: Pid, i: nat)
    | Swap(src: Pid, dst: Pid, i: nat)

  function Chan(s: State, src: Pid, dst: Pid): seq<Message> {
    if (src, dst) in s.net then s.net[(src, dst)] else []
  }

  function Put(s: State, src: Pid, dst: Pid, c: seq<Message>): State {
    s.(net := s.net[(src, dst) := c])
  }

  function Init(hosts: set<Pid>): State {
    State(hosts, map p | p in hosts :: InitProc(p), map[], History(map[], map[], map[], {}))
  }

  predicate Running(s: State, p: Pid) {
    p in s.hosts && p in s.procs && !s.procs[p].crashed
  }

  predicate Holds(list: seq<MsgHolder>, r: Pid, m: Message) {
    exists h :: h in list && h.orgMsg == m && r in h.recipients
  }

  predicate Enabled(s: State, step: Step) {
    match step
    case Multicast(p, _) => Running(s, p)
    case Retransmit(p, r, m) => Running(s, p) && (Holds(s.procs[p].dataList, r, m) || Holds(s.procs[p].seqList, r, m))
    case Receive(src, dst) => Running(s, dst) && Chan(s, src, dst) != []
    case Lose(src, dst, i) => i < |Chan(s, src, dst)|
    case Repeat(src, dst, i) => i < |Chan(s, src, dst)|
    case Swap(src, dst, i) =>
      i + 1 < |Chan(s, src, dst)| && !FallsBehind(Chan(s, src, dst)[i], Chan(s, src, dst)[i + 1])
  }

  // The first is a copy of the data message that the second one numbers.
  predicate FallsBehind(m1: Message, m2: Message) {
    m1.Data? && m2.Seq? && m1.Id() == m2.Id()
  }

  function Repeated(c: seq<Message>, i: nat): seq<Message>
    requires i < |c|
  {
    c[..i] + [c[i]] + c[i..]
  }

  function Swapped(c: seq<Message>, i: nat): seq<Message>
    requires i + 1 < |c|
  {
    c[i := c[i + 1]][i + 1 := c[i]]
  }

  // What a handler at process r adds to the history when it turns p into p'.
  ghost function Observe(h: History, r: Pid, p: Proc, p': Proc, m: Message): History {
    match m
    case Data(_, _, _) =>
      if m.Id() in p.queue.pending then h else h.(prop := h.prop[(r, m.Id()) := U32Succ(p.latestSeq)])
    case Ack(_, _, _, _) =>
      if |p'.seqList| > |p.seqList| && p'.seqList[|p.seqList|].orgMsg.Seq? then
        var q := p'.seqList[|p.seqList|].orgMsg;
        h.(final := h.final[m.Id() := Key(q.finalSeq, q.finalSeqProposer)])
      else h
    case Seq(_, _, _, _) => h.(marked := h.marked + {(r, m.Id())})
    case SeqAck(_, _, _) => h
  }

  ghost function Handle(s: State, src: Pid, dst: Pid): State
    requires Running(s, dst) && Chan(s, src, dst) != []
  {
    var m := Chan(s, src, dst)[0];
    var p := s.procs[dst];
    var reaction := Process(p, s.hosts, m);
    var s1 := Put(s, src, dst, Chan(s, src, dst)[1..]);
    var s2 := s1.(procs := s.procs[dst := reaction.proc], hist := Observe(s.hist, dst, p, reaction.proc, m));
    match reaction.reply
    case None => s2
    case Some((r, reply)) => Put(s2, dst, r, Chan(s2, dst, r) + [reply])
  }

  ghost function Apply(s: State, step: Step): State
    requires Enabled(s, step)
  {
    match step
    case Multicast(p, data) =>
      var proc := StartMulticast(s.procs[p], s.hosts, data);
      s.(procs := s.procs[p := proc],
         hist := s.hist.(sent := s.hist.sent[MsgIdentifier(proc.msgCounter, p) := data]))
    case Retransmit(p, r, m) => Put(s, p, r, Chan(s, p, r) + [m])
    case Receive(src, dst) => Handle(s, src, dst)
    case Lose(src, dst, i) =>
      var c := Chan(s, src, dst);
      Put(s, src, dst, c[..i] + c[i + 1..])
    case Repeat(src, dst, i) => Put(s, src, dst, Repeated(Chan(s, src, dst), i))
    case Swap(src, dst, i) => Put(s, src, dst, Swapped(Chan(s, src, dst), i))
  }

  // A run from s through the given steps ends in s'.
  ghost predicate Run(s: State, steps: seq<Step>, s': State)
    decreases |steps|
  {
    if steps == [] then
      s == s'
    else
      Enabled(s, steps[0]) && Run(Apply(s, steps[0]), steps[1..], s')
  }

  ghost predicate Reachable(s: State) {
    s.hosts != {} && exists steps :: Run(Init(s.hosts), steps, s)
  }

  // The counters are 32 bits wide; nothing wraps while there are fewer proposals than that.
  ghost predicate WithinCounters(s: State) {
    |s.hosts| * |s.hist.sent| < U32_LIMIT
  }

  /* ----- the invariant ----- */

  ghost predicate HistOk(hosts: set<Pid>, h: History) {
    && (forall m :: m in h.sent ==> m.sender in hosts)
    && (forall r, m :: (r, m) in h.prop ==> r in hosts && m in h.sent && h.prop[(r, m)] <= |h.prop|)
    && ProposalsDiffer(h)
    && (forall m :: m in h.final ==> FinalOk(hosts, h, m))
    && (forall r, m :: (r, m) in h.marked ==> r in hosts && m in h.final)
  }

  // A process never proposes one number for two messages.
  ghost predicate ProposalsDiffer(h: History) {
    forall r, m1, m2 :: (r, m1) in h.prop && (r, m2) in h.prop && h.prop[(r, m1)] == h.prop[(r, m2)] ==> m1 == m2
  }

  // The final key of a message is the largest of all proposals for it, by the smallest of its proposers.
  ghost predicate FinalOk(hosts: set<Pid>, h: History, m: MsgIdentifier)
    requires m in h.final
  {
    var k := h.final[m];
    && (k.proposer, m) in h.prop && h.prop[(k.proposer, m)] == k.seqId
    && forall r :: r in hosts ==>
         (r, m) in h.prop && (h.prop[(r, m)] < k.seqId || (h.prop[(r, m)] == k.seqId && k.proposer <= r))
  }

  ghost predicate EntryOk(h: History, r: Pid, e: PendingMsg) {
    && e.dataMsg.Data? && e.Id() in h.sent && h.sent[e.Id()] == e.dataMsg.data
    && (r, e.Id()) in h.prop
    && if e.deliverable then
         (r, e.Id()) in h.marked && e.Id() in h.final && h.final[e.Id()] == Key(e.finalSeqId, e.finalSeqProposer)
       else
         (r, e.Id()) !in h.marked && e.finalSeqId == h.prop[(r, e.Id())] && e.finalSeqProposer == r
  }

  // The receiving side of process r.
  ghost predicate RcvOk(h: History, r: Pid, p: Proc) {
    && p.id == r && !p.crashed && p.latestSeq <= |h.prop|
    && Ordered(p.queue)
    && (forall e :: e in p.queue.Timeline() ==> EntryOk(h, r, e) && e.finalSeqId <= p.latestSeq)
    && (forall m :: (r, m) in h.prop ==> m in Ids(p.queue.Timeline()) && h.prop[(r, m)] <= p.latestSeq)
    && (forall m :: m in p.queue.pending ==> (r, m) in h.prop)
    && (forall m :: (r, m) in h.prop && (r, m) !in h.marked ==>
          m in p.queue.pending && m in p.cache && p.cache[m] == Ack(m.sender, m.msgId, h.prop[(r, m)], r))
  }

  // What the sender of a message knows about it: who has not acknowledged its data (dw) or its
  // sequence number (sw), and what the others have proposed.
  ghost predicate MsgViewOk(hosts: set<Pid>, h: History, m: MsgIdentifier, dw: set<Pid>, sw: set<Pid>,
      proposals: map<Pid, nat>)
  {
    && dw <= hosts && sw <= hosts
    && proposals.Keys == hosts - dw
    && (forall r :: r in proposals ==> (r, m) in h.prop && h.prop[(r, m)] == proposals[r])
    && (m in h.final <==> dw == {})
    && (m in h.final ==> forall r :: r in hosts && r !in sw ==> (r, m) in h.marked)
  }

  ghost predicate MsgSndOk(hosts: set<Pid>, h: History, p: Proc, k: nat) {
    MsgViewOk(hosts, h, MsgIdentifier(k, p.id), Waiting(p.dataList, k), Waiting(p.seqList, k), ProposalsFor(p, k))
  }

  // Message ids 1, 2, ... up to the counter have been used.
  ghost predicate CounterOk(h: History, p: Proc) {
    && p.msgCounter <= |h.sent|
    && (forall k: nat :: MsgIdentifier(k, p.id) in h.sent <==> 1 <= k <= p.msgCounter)
    && (forall k: nat :: k in p.proposed ==> MsgIdentifier(k, p.id) in h.sent)
  }

  ghost predicate ListsOk(h: History, p: Proc) {
    && ListOk(p.dataList) && ListOk(p.seqList)
    && (forall m :: m in Msgs(p.dataList) ==> DataOk(h, p.id, m))
    && (forall m :: m in Msgs(p.seqList) ==> SeqOk(h, p.id, m))
  }

  // The sending side of a process.
  ghost predicate SndOk(hosts: set<Pid>, h: History, p: Proc) {
    && CounterOk(h, p) && ListsOk(h, p)
    && (forall k: nat :: MsgIdentifier(k, p.id) in h.sent ==> MsgSndOk(hosts, h, p, k))
  }

  ghost predicate DataOk(h: History, src: Pid, m: Message) {
    m.Data? && m.sender == src && m.Id() in h.sent && h.sent[m.Id()] == m.data
  }

  ghost predicate SeqOk(h: History, src: Pid, m: Message) {
    m.Seq? && m.sender == src && m.Id() in h.final && h.final[m.Id()] == Key(m.finalSeq, m.finalSeqProposer)
  }

  ghost predicate PacketOk(h: History, src: Pid, dst: Pid, m: Message) {
    match m
    case Data(_, _, _) => DataOk(h, src, m) && (dst, m.Id()) !in h.marked
    case Ack(_, _, _, _) =>
      m.sender == dst && m.proposer == src && (src, m.Id()) in h.prop && h.prop[(src, m.Id())] == m.proposedSeq
    case Seq(_, _, _, _) => SeqOk(h, src, m)
    case SeqAck(_, _, _) => m.sender == dst && m.ackSender == src && (src, m.Id()) in h.marked
  }

  // No copy of a data message travels behind its sequence message.
  ghost predicate FifoOk(c: seq<Message>) {
    forall i, j :: 0 <= i < j < |c| && c[i].Seq? && c[j].Data? ==> c[i].Id() != c[j].Id()
  }

  ghost predicate ChanOk(h: History, src: Pid, dst: Pid, c: seq<Message>) {
    FifoOk(c) && forall m :: m in c ==> PacketOk(h, src, dst, m)
  }

  ghost predicate NetOk(s: State) {
    forall src, dst :: (src, dst) in s.net ==>
      src in s.hosts && dst in s.hosts && ChanOk(s.hist, src, dst, s.net[(src, dst)])
  }

  ghost predicate ProcsOk(s: State) {
    && s.procs.Keys == s.hosts && HistOk(s.hosts, s.hist)
    && (forall r :: r in s.hosts ==> RcvOk(s.hist, r, s.procs[r]))
    && (forall r :: r in s.hosts ==> SndOk(s.hosts, s.hist, s.procs[r]))
  }

  ghost predicate Inv(s: State) {
    s.hosts != {} && ProcsOk(s) && NetOk(s)
  }
}
