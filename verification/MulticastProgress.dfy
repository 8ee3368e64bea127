/** The multicast is never stuck: from every reachable state, retransmitting and receiving complete it. */
module MulticastProgress {
  import opened Messages
  import opened HoldBackQueues
  import opened ContinuousMsgSenders
  import opened MulticastServices
  import opened MulticastProtocol
  import opened MulticastFrames
  import opened MulticastSenders
  import opened MulticastReceivers
  import opened MulticastInvariant
  import opened MulticastTheorems

  /* ----- the work left ----- */

  // Acknowledgements still missing, with those of the sequence messages yet to be sent.
  function ProcWork(p: Proc, n: nat): nat {
    Load(p.dataList) + Load(p.seqList) + n * |p.dataList|
  }

  ghost function Work(S: set<Pid>, procs: map<Pid, Proc>, n: nat): nat
    requires S <= procs.Keys
    decreases |S|
  {
    if S == {} then 0 else var p :| p in S; ProcWork(procs[p], n) + Work(S - {p}, procs, n)
  }

  ghost function TotalWork(s: State): nat
    requires s.hosts <= s.procs.Keys
  {
    Work(s.hosts, s.procs, |s.hosts|)
  }

  lemma {:induction false} WorkPick(S: set<Pid>, procs: map<Pid, Proc>, n: nat, p: Pid)
    requires S <= procs.Keys && p in S
    ensures Work(S, procs, n) == ProcWork(procs[p], n) + Work(S - {p}, procs, n)
    decreases |S|
  {
    var q :| q in S && Work(S, procs, n) == ProcWork(procs[q], n) + Work(S - {q}, procs, n);
    if q != p {
      WorkPick(S - {q}, procs, n, p);
      WorkPick(S - {p}, procs, n, q);
      assert S - {q} - {p} == S - {p} - {q};
    }
  }

  lemma {:induction false} WorkFrame(S: set<Pid>, procs: map<Pid, Proc>, procs': map<Pid, Proc>, n: nat)
    requires S <= procs.Keys && S <= procs'.Keys
    requires forall p :: p in S ==> ProcWork(procs[p], n) == ProcWork(procs'[p], n)
    ensures Work(S, procs, n) == Work(S, procs', n)
    decreases |S|
  {
    if S != {} {
      var p :| p in S;
      WorkPick(S, procs, n, p);
      WorkPick(S, procs', n, p);
      WorkFrame(S - {p}, procs, procs', n);
    }
  }

  lemma WorkUpdate(S: set<Pid>, procs: map<Pid, Proc>, n: nat, p: Pid, p': Proc)
    requires S <= procs.Keys && p in S
    ensures Work(S, procs[p := p'], n) == Work(S, procs, n) - ProcWork(procs[p], n) + ProcWork(p', n)
  {
    var procs' := procs[p := p'];
    WorkPick(S, procs, n, p);
    WorkPick(S, procs', n, p);
    WorkFrame(S - {p}, procs, procs', n);
  }

  /* ----- how steps change it ----- */

  predicate SameLists(p: Proc, p': Proc) {
    p'.dataList == p.dataList && p'.seqList == p.seqList
  }

  lemma IdleRemove(list: seq<MsgHolder>, k: nat, r: Pid)
    requires ListOk(list) && !Removes(list, k, r)
    ensures RemoveRecipient(list, k, r) == list
  {
    StruckShape(list, k, r);
    var i := FindMsg(list, k);
    if i < |list| {
      var x :| x in list[i].recipients;
      assert list[i].recipients - {r} == list[i].recipients;
    }
  }

  // A message moved from one list to the other takes the work foreseen for it along.
  lemma FewerRows(n: nat, rows: nat, gone: nat)
    requires gone <= rows && gone <= 1
    ensures n * (rows - gone) == n * rows - if gone == 1 then n else 0
  {
  }

  lemma RemovedWork(list: seq<MsgHolder>, k: nat, r: Pid, n: nat)
    requires ListOk(list) && Removes(list, k, r)
    ensures var list' := RemoveRecipient(list, k, r);
            Load(list') + n * |list'| == Load(list) - 1 + n * |list| - if Waiting(list, k) == {r} then n else 0
  {
    hide ListOk, RemoveRecipient, Waiting;
    RemovedLoad(list, k, r);
    FewerRows(n, |list|, if Waiting(list, k) == {r} then 1 else 0);
  }

  lemma AckWork(hosts: set<Pid>, h: History, p: Proc, a: Message)
    requires AckOk(hosts, h, p, a) && MsgSndOk(hosts, h, p, a.msgId) && ListsOk(h, p)
    ensures var p' := ProcessAck(p, hosts, a).proc;
            if Removes(p.dataList, a.msgId, a.proposer) then ProcWork(p', |hosts|) < ProcWork(p, |hosts|)
            else SameLists(p, p')
  {
    AckShape(hosts, h, p, a);
    if Removes(p.dataList, a.msgId, a.proposer) {
      RemovedWork(p.dataList, a.msgId, a.proposer, |hosts|);
      hide ProcessAck, RemoveRecipient, Waiting, AckOk, MsgSndOk, ListsOk;
      LoadConcat(p.seqList, [MsgHolder(SeqFor(p, a), hosts)]);
      assert Load([MsgHolder(SeqFor(p, a), hosts)]) == |hosts|;
    } else {
      IdleRemove(p.dataList, a.msgId, a.proposer);
    }
  }

  lemma SeqAckWork(hosts: set<Pid>, h: History, p: Proc, a: Message)
    requires a.SeqAck? && a.ackSender in hosts && ListsOk(h, p)
    ensures var p' := ProcessSeqAck(p, hosts, a).proc;
            if Removes(p.seqList, a.msgId, a.ackSender) then ProcWork(p', |hosts|) < ProcWork(p, |hosts|)
            else SameLists(p, p')
  {
    if Removes(p.seqList, a.msgId, a.ackSender) {
      RemovedLoad(p.seqList, a.msgId, a.ackSender);
    } else {
      IdleRemove(p.seqList, a.msgId, a.ackSender);
    }
  }

  // The acknowledgement at the head of a channel is the first one of its sender.
  predicate Settles(p: Proc, m: Message) {
    || (m.Ack? && Removes(p.dataList, m.msgId, m.proposer))
    || (m.SeqAck? && Removes(p.seqList, m.msgId, m.ackSender))
  }

  lemma HandleWork(s: State, src: Pid, dst: Pid)
    requires Enabled(s, Receive(src, dst))
    requires Inv(s)
    ensures var p := s.procs[dst];
            var m := Chan(s, src, dst)[0];
            var p' := Process(p, s.hosts, m).proc;
            if Settles(p, m) then ProcWork(p', |s.hosts|) < ProcWork(p, |s.hosts|) else SameLists(p, p')
  {
    hide HistOk, RcvOk, SndOk, NetOk, MarkDeliverable, AddToQueue, MaxProposal, RemoveRecipient, Waiting;
    var p, m := s.procs[dst], Chan(s, src, dst)[0];
    HeadIsOk(s, src, dst);
    ProcAt(s, dst);
    if m.Ack? {
      AckAtHead(s, src, dst);
      AckWork(s.hosts, s.hist, p, m);
    } else if m.SeqAck? {
      SeqAckWork(s.hosts, s.hist, p, m);
    }
  }

  ghost predicate SameWork(s: State, s': State)
    requires s.hosts == s.procs.Keys
  {
    s'.hosts == s.hosts && s'.procs.Keys == s.hosts && forall p :: p in s.hosts ==> SameLists(s.procs[p], s'.procs[p])
  }

  ghost predicate LessWork(s: State, s': State)
    requires s.hosts == s.procs.Keys
  {
    s'.hosts == s.hosts && s'.procs.Keys == s.hosts && TotalWork(s') < TotalWork(s)
  }

  lemma ApplyReceive(s: State, src: Pid, dst: Pid)
    requires Enabled(s, Receive(src, dst))
    ensures Apply(s, Receive(src, dst)).procs ==
            s.procs[dst := Process(s.procs[dst], s.hosts, Chan(s, src, dst)[0]).proc]
    ensures Apply(s, Receive(src, dst)).hosts == s.hosts
  {
    hide Process;
  }

  // Handling a message settles a missing acknowledgement, or leaves all that is missing as it was.
  lemma ReceiveWork(s: State, src: Pid, dst: Pid)
    requires Enabled(s, Receive(src, dst))
    requires Inv(s)
    ensures var s' := Apply(s, Receive(src, dst));
            if Settles(s.procs[dst], Chan(s, src, dst)[0]) then LessWork(s, s') else SameWork(s, s')
  {
    hide HistOk, RcvOk, SndOk, NetOk, Process, Handle, Settles, ProcWork;
    HandleWork(s, src, dst);
    ApplyReceive(s, src, dst);
    WorkUpdate(s.hosts, s.procs, |s.hosts|, dst, Process(s.procs[dst], s.hosts, Chan(s, src, dst)[0]).proc);
  }

  // No step but a new multicast adds to what is missing.
  lemma WorkNeverGrows(s: State, step: Step)
    requires Inv(s) && Enabled(s, step) && !step.Multicast?
    ensures var s' := Apply(s, step);
            s'.hosts == s'.procs.Keys && TotalWork(s') <= TotalWork(s)
  {
    hide HistOk, RcvOk, SndOk, NetOk, Handle;
    if step.Receive? {
      ReceiveWork(s, step.src, step.dst);
      if !Settles(s.procs[step.dst], Chan(s, step.src, step.dst)[0]) {
        SameWorkIsEqual(s, Apply(s, step));
      }
    }
  }

  lemma SameWorkIsEqual(s: State, s': State)
    requires s.hosts == s.procs.Keys && SameWork(s, s')
    ensures TotalWork(s') == TotalWork(s)
  {
    WorkFrame(s.hosts, s.procs, s'.procs, |s.hosts|);
  }

  /* ----- continuations without loss and without new messages ----- */

  ghost predicate Leads(s: State, steps: seq<Step>, s': State) {
    Run(s, steps, s') && forall i :: 0 <= i < |steps| ==> steps[i].Retransmit? || steps[i].Receive?
  }

  ghost predicate Fine(s: State) {
    Inv(s) && WithinCounters(s)
  }

  lemma LeadsFirst(s: State, step: Step, steps: seq<Step>, s': State)
    requires Enabled(s, step) && (step.Retransmit? || step.Receive?) && Leads(Apply(s, step), steps, s')
    ensures Leads(s, [step] + steps, s')
  {
    hide Apply, Enabled;
    assert ([step] + steps)[1..] == steps;
  }

  lemma {:induction false} LeadsTrans(s: State, a: seq<Step>, s1: State, b: seq<Step>, s2: State)
    requires Leads(s, a, s1) && Leads(s1, b, s2)
    ensures Leads(s, a + b, s2)
    decreases |a|
  {
    hide Apply, Enabled;
    if a == [] {
      assert a + b == b;
    } else {
      assert forall i :: 0 <= i < |a[1..]| ==> a[1..][i] == a[i + 1];
      LeadsTrans(Apply(s, a[0]), a[1..], s1, b, s2);
      assert [a[0]] + (a[1..] + b) == a + b;
      LeadsFirst(s, a[0], a[1..] + b, s2);
    }
  }

  lemma StepStaysFine(s: State, step: Step)
    requires Fine(s) && Enabled(s, step) && (step.Retransmit? || step.Receive?)
    ensures Fine(Apply(s, step)) && Apply(s, step).hosts == s.hosts && Apply(s, step).hist.sent == s.hist.sent
  {
    hide Inv, Handle;
    if step.Receive? {
      HandleKeepsSent(s, step.src, step.dst);
    }
    StepKeepsInv(s, step);
  }

  // Receiving moves every other message of the channel one place closer to its head.
  lemma ReceiveShifts(s: State, src: Pid, dst: Pid, i: nat)
    requires Enabled(s, Receive(src, dst)) && 0 < i < |Chan(s, src, dst)|
    ensures var c := Chan(Apply(s, Receive(src, dst)), src, dst);
            i - 1 < |c| && c[i - 1] == Chan(s, src, dst)[i]
  {
    hide Process;
  }

  // Receiving one message of a channel moves up the others, unless it settles some work.
  lemma ReceiveOne(s: State, src: Pid, dst: Pid, i: nat)
    requires Fine(s) && 0 < i < |Chan(s, src, dst)|
    ensures s.hosts == s.procs.Keys && Enabled(s, Receive(src, dst))
    ensures var s1 := Apply(s, Receive(src, dst));
            && Fine(s1) && s1.hist.sent == s.hist.sent
            && (LessWork(s, s1) ||
                (SameWork(s, s1) && TotalWork(s1) == TotalWork(s) &&
                 i - 1 < |Chan(s1, src, dst)| && Chan(s1, src, dst)[i - 1] == Chan(s, src, dst)[i]))
  {
    hide HistOk, RcvOk, SndOk, NetOk, Apply, WithinCounters, TotalWork;
    ChanIsOk(s, src, dst);
    ProcAt(s, dst);
    ReceiveWork(s, src, dst);
    StepStaysFine(s, Receive(src, dst));
    if !LessWork(s, Apply(s, Receive(src, dst))) {
      ReceiveShifts(s, src, dst, i);
      SameWorkIsEqual(s, Apply(s, Receive(src, dst)));
    }
  }

  // A message at any place of a channel reaches its head by receiving alone, unless work is settled before.
  lemma DrainTo(s: State, src: Pid, dst: Pid, i: nat) returns (steps: seq<Step>, s': State)
    requires Fine(s) && i < |Chan(s, src, dst)|
    ensures s.hosts == s.procs.Keys
    ensures Leads(s, steps, s') && Fine(s') && s'.hist.sent == s.hist.sent
    ensures LessWork(s, s') ||
            (SameWork(s, s') && Chan(s', src, dst) != [] && Chan(s', src, dst)[0] == Chan(s, src, dst)[i])
    decreases i
  {
    hide Apply, Enabled, TotalWork, ProcsOk, NetOk, WithinCounters;
    if i == 0 {
      FineHosts(s);
      steps, s' := [], s;
    } else {
      ReceiveOne(s, src, dst, i);
      var s1 := Apply(s, Receive(src, dst));
      if LessWork(s, s1) {
        steps, s' := [], s1;
      } else {
        steps, s' := DrainTo(s1, src, dst, i - 1);
      }
      LeadsFirst(s, Receive(src, dst), steps, s');
      steps := [Receive(src, dst)] + steps;
    }
  }

  lemma FineHosts(s: State)
    requires Fine(s)
    ensures s.hosts == s.procs.Keys
  {
  }

  // The answer to a data or sequence message.
  predicate Answers(m: Message, r: Pid, a: Message) {
    a.msgId == m.msgId && if m.Data? then a.Ack? && a.proposer == r else a.SeqAck? && a.ackSender == r
  }

  lemma AnswerIsSent(s: State, p: Pid, r: Pid)
    requires Enabled(s, Receive(p, r)) && WithinCounters(s)
    requires Chan(s, p, r)[0].Data? || Chan(s, p, r)[0].Seq?
    requires Inv(s)
    ensures var c := Chan(Apply(s, Receive(p, r)), r, p);
            c != [] && Answers(Chan(s, p, r)[0], r, c[|c| - 1])
  {
    hide HistOk, RcvOk, SndOk, NetOk, Process;
    HeadIsOk(s, p, r);
    ProcAt(s, r);
    HandlerAnswers(s, p, r);
  }

  lemma HandlerAnswers(s: State, p: Pid, r: Pid)
    requires Enabled(s, Receive(p, r)) && WithinCounters(s)
    requires Chan(s, p, r)[0].Data? || Chan(s, p, r)[0].Seq?
    requires Inv(s)
    ensures var m := Chan(s, p, r)[0];
            var reply := Process(s.procs[r], s.hosts, m).reply;
            m.sender == p && reply.Some? && reply.value.0 == p && Answers(m, r, reply.value.1)
  {
    hide HistOk, RcvOk, SndOk, NetOk, MarkDeliverable, CounterOk, ListsOk;
    var m, q := Chan(s, p, r)[0], s.procs[r];
    HeadIsOk(s, p, r);
    ProcAt(s, r);
    if m.Data? && m.Id() in q.queue.pending {
      RepeatedDataIsAnswered(s.hosts, s.hist, r, q, m);
    } else if m.Data? {
      FirstDataIsNew(s, p, r);
      NewDataHasEffect(s.hosts, s.hist, r, q, m);
    }
  }

  lemma SomethingHeld(s: State) returns (p: Pid, r: Pid, m: Message)
    requires Inv(s) && !Quiet(s)
    ensures Running(s, p) && r in s.hosts && (m.Data? || m.Seq?)
    ensures Enabled(s, Retransmit(p, r, m)) && Waits(s.procs[p], r, m)
  {
    hide HistOk, NetOk, RcvOk, SndOk;
    p :| p in s.hosts && (s.procs[p].dataList != [] || s.procs[p].seqList != []);
    ProcAt(s, p);
    if s.procs[p].dataList != [] {
      r, m := FirstHeld(s.procs[p].dataList);
      HeldDataIsUnnumbered(s.hosts, s.hist, s.procs[p], r, m);
    } else {
      r, m := FirstHeld(s.procs[p].seqList);
      HeldSeqIsFinal(s.hosts, s.hist, s.procs[p], r, m);
    }
  }

  lemma FirstHeld(list: seq<MsgHolder>) returns (r: Pid, m: Message)
    requires ListOk(list) && list != []
    ensures Holds(list, r, m) && r in Waiting(list, m.msgId)
  {
    r :| r in list[0].recipients;
    m := list[0].orgMsg;
    HeldMsg(list, r, m);
  }

  // Process p still misses an acknowledgement of m by r.
  predicate Waits(p: Proc, r: Pid, m: Message) {
    if m.Data? then r in Waiting(p.dataList, m.msgId) else r in Waiting(p.seqList, m.msgId)
  }

  // Receiving the answer at the head of a channel settles what p waits for.
  lemma AnswerSettles(s: State, p: Pid, r: Pid, m: Message)
    requires Enabled(s, Receive(r, p)) && Answers(m, r, Chan(s, r, p)[0]) && Waits(s.procs[p], r, m)
    requires Fine(s)
    ensures s.hosts == s.procs.Keys
    ensures var s' := Apply(s, Receive(r, p));
            Leads(s, [Receive(r, p)], s') && Fine(s') && LessWork(s, s') && s'.hist.sent == s.hist.sent
  {
    hide HistOk, RcvOk, SndOk, NetOk, Apply, WithinCounters, TotalWork;
    var s' := Apply(s, Receive(r, p));
    ReceiveWork(s, r, p);
    StepStaysFine(s, Receive(r, p));
    assert Leads(s', [], s');
    LeadsFirst(s, Receive(r, p), [], s');
    assert [Receive(r, p)] + [] == [Receive(r, p)];
  }

  // From the arrival of m at r to the settled acknowledgement.
  lemma RoundTrip(s: State, p: Pid, r: Pid, m: Message) returns (steps: seq<Step>, s': State)
    requires Fine(s) && Running(s, p) && Running(s, r) && Chan(s, p, r) != [] && Chan(s, p, r)[0] == m
    requires (m.Data? || m.Seq?) && Waits(s.procs[p], r, m)
    ensures s.hosts == s.procs.Keys
    ensures Leads(s, steps, s') && Fine(s') && LessWork(s, s') && s'.hist.sent == s.hist.sent
  {
    hide HistOk, RcvOk, SndOk, NetOk, Apply, WithinCounters, TotalWork, Leads, Answers;
    var s1 := Apply(s, Receive(p, r));
    AnswerIsSent(s, p, r);
    ReceiveWork(s, p, r);
    SameWorkIsEqual(s, s1);
    StepStaysFine(s, Receive(p, r));
    steps, s' := DrainTo(s1, r, p, |Chan(s1, r, p)| - 1);
    if !LessWork(s1, s') {
      ProcAt(s', p);
      SameWorkIsEqual(s1, s');
      AnswerSettles(s', p, r, m);
      LeadsTrans(s1, steps, s', [Receive(r, p)], Apply(s', Receive(r, p)));
      steps, s' := steps + [Receive(r, p)], Apply(s', Receive(r, p));
    }
    LeadsFirst(s, Receive(p, r), steps, s');
    steps := [Receive(p, r)] + steps;
  }

  // One missing acknowledgement can always be settled.
  // A message p still waits for, in its channel to r: reading up to it, and the answer to it, settle something.
  lemma SettleInFlight(s: State, p: Pid, r: Pid, m: Message) returns (steps: seq<Step>, s': State)
    requires Fine(s) && Running(s, p) && Running(s, r) && (m.Data? || m.Seq?) && Waits(s.procs[p], r, m)
    requires Chan(s, p, r) != [] && Chan(s, p, r)[|Chan(s, p, r)| - 1] == m
    ensures s.hosts == s.procs.Keys
    ensures Leads(s, steps, s') && Fine(s') && LessWork(s, s') && s'.hist.sent == s.hist.sent
  {
    hide HistOk, RcvOk, SndOk, NetOk, WithinCounters, TotalWork, Leads, Quiet, Handle;
    steps, s' := DrainTo(s, p, r, |Chan(s, p, r)| - 1);
    if !LessWork(s, s') {
      ProcAt(s', p);
      ProcAt(s', r);
      SameWorkIsEqual(s, s');
      var more, s2 := RoundTrip(s', p, r, m);
      LeadsTrans(s, steps, s', more, s2);
      steps, s' := steps + more, s2;
    }
  }

  lemma SettleOne(s: State) returns (steps: seq<Step>, s': State)
    requires Fine(s) && !Quiet(s)
    ensures s.hosts == s.procs.Keys
    ensures Leads(s, steps, s') && Fine(s') && LessWork(s, s') && s'.hist.sent == s.hist.sent
  {
    hide HistOk, RcvOk, SndOk, NetOk, WithinCounters, TotalWork, Leads, Quiet, Handle;
    var p, r, m := SomethingHeld(s);
    ProcAt(s, r);
    var s1 := Apply(s, Retransmit(p, r, m));
    StepStaysFine(s, Retransmit(p, r, m));
    SameWorkIsEqual(s, s1);
    steps, s' := SettleInFlight(s1, p, r, m);
    LeadsFirst(s, Retransmit(p, r, m), steps, s');
    steps := [Retransmit(p, r, m)] + steps;
  }

  lemma {:induction false} SettleAll(s: State) returns (steps: seq<Step>, s': State)
    requires Fine(s)
    ensures s.hosts == s.procs.Keys && s'.hosts == s.hosts
    ensures Leads(s, steps, s') && Fine(s') && Quiet(s') && s'.hist.sent == s.hist.sent
    decreases TotalWork(s)
  {
    hide HistOk, RcvOk, SndOk, NetOk, Apply, Enabled, WithinCounters, Quiet;
    if Quiet(s) {
      steps, s' := [], s;
    } else {
      var first, s1 := SettleOne(s);
      var rest, s2 := SettleAll(s1);
      LeadsTrans(s, first, s1, rest, s2);
      steps, s' := first + rest, s2;
    }
  }

  // No stuck state: from every reachable state, retransmitting and receiving alone, losing nothing and
  // sending nothing new, lead to a state where every process has delivered every message, all in one order.
  lemma NoStuckState(s: State) returns (steps: seq<Step>, s': State)
    requires Reachable(s) && WithinCounters(s)
    ensures Run(s, steps, s') && forall i :: 0 <= i < |steps| ==> steps[i].Retransmit? || steps[i].Receive?
    ensures s'.hosts == s.hosts && s'.procs.Keys == s.hosts && Quiet(s')
    ensures forall p :: p in s.hosts ==> s'.procs[p].queue.deque == [] && Ids(Log(s', p)) == s.hist.sent.Keys
    ensures forall p, q :: p in s.hosts && q in s.hosts ==> Log(s', p) == Log(s', q)
  {
    hide HistOk, RcvOk, SndOk, NetOk, Apply, Enabled, Quiet;
    ReachableHasInv(s);
    steps, s' := SettleAll(s);
    forall p, q | p in s.hosts && q in s.hosts
      ensures s'.procs[p].queue.deque == [] && Ids(Log(s', p)) == s.hist.sent.Keys && Log(s', p) == Log(s', q) {
      QuietIsComplete(s', p, q);
    }
  }
}
