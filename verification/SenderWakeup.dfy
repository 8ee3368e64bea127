/** The sending thread of a ContinuousMsgSender among the threads that queue and acknowledge messages. */
module SenderWakeup {
  import opened Messages
  import opened ContinuousMsgSenders

  // Where the sending thread is.
  datatype Thread =
    | Top        // about to look whether the list is empty
    | AtWait     // about to test `queueContainsData`, under the lock
    | Asleep     // blocked on the condition variable
    | Sending    // about to send everything in the list

  datatype Shared = Shared(
    thread: Thread,
    list: seq<MsgHolder>,
    queueContainsData: bool,
    notifies: nat,        // calls of queueMsg that have released the lock and not yet notified
    passes: seq<seq<MsgHolder>>  // history: the list at each pass of the sending loop
  )

  datatype Step =
    | Look
    | TestFlag
    | SendAll
    | SpuriousWakeup
    | Push(m: Message)
    | Notify
    | Remove(messageId: nat, recipient: Pid)

  function Init(): Shared {
    Shared(Top, [], false, 0, [])
  }

  predicate Enabled(s: Shared, step: Step) {
    match step
    case Look => s.thread.Top?
    case TestFlag => s.thread.AtWait?
    case SendAll => s.thread.Sending?
    case SpuriousWakeup => s.thread.Asleep?
    case Push(m) => Waiting(s.list, m.msgId) == {}
    case Notify => s.notifies > 0
    case Remove(_, _) => true
  }

  function Apply(s: Shared, step: Step, recipients: set<Pid>): Shared
    requires Enabled(s, step)
  {
    match step
    case Look => s.(thread := if s.list == [] then AtWait else Sending)
    case TestFlag =>
      if s.queueContainsData then s.(thread := Sending, queueContainsData := false) else s.(thread := Asleep)
    case SendAll => s.(thread := Top, passes := s.passes + [s.list])
    case SpuriousWakeup => s.(thread := AtWait)
    case Push(m) =>
      s.(list := s.list + [MsgHolder(m, recipients)], queueContainsData := true, notifies := s.notifies + 1)
    case Notify => s.(notifies := s.notifies - 1, thread := if s.thread.Asleep? then AtWait else s.thread)
    case Remove(id, r) => s.(list := RemoveRecipient(s.list, id, r))
  }

  ghost predicate Run(s: Shared, steps: seq<Step>, s': Shared, recipients: set<Pid>)
    decreases |steps|
  {
    if steps == [] then
      s == s'
    else
      Enabled(s, steps[0]) && Run(Apply(s, steps[0], recipients), steps[1..], s', recipients)
  }

  ghost predicate Reachable(s: Shared, recipients: set<Pid>) {
    exists steps :: Run(Init(), steps, s, recipients)
  }

  ghost predicate SharedOk(s: Shared) {
    && ListOk(s.list)
    && (s.thread.AtWait? || s.thread.Asleep? ==> s.list != [] ==> s.queueContainsData)
    && (s.thread.Asleep? && s.queueContainsData ==> s.notifies > 0)
  }

  lemma StepKeepsOk(s: Shared, step: Step, recipients: set<Pid>)
    requires Enabled(s, step) && SharedOk(s) && recipients != {}
    ensures SharedOk(Apply(s, step, recipients))
  {
    match step
    case Push(m) =>
      hide Waiting;
      QueueMsgEffect(s.list, m, recipients);
    case Remove(id, r) =>
      RemoveRecipientEffect(s.list, id, r);
      RemovedLoad(s.list, id, r);
    case _ =>
  }

  lemma {:induction false} RunKeepsOk(s: Shared, steps: seq<Step>, s': Shared, recipients: set<Pid>)
    requires SharedOk(s) && recipients != {} && Run(s, steps, s', recipients)
    ensures SharedOk(s')
    decreases |steps|
  {
    if steps != [] {
      StepKeepsOk(s, steps[0], recipients);
      RunKeepsOk(Apply(s, steps[0], recipients), steps[1..], s', recipients);
    }
  }

  // No entry of the list waits for nobody; while the list has entries, a sending thread that waits finds
  // the flag up, and one that sleeps is about to be notified.
  lemma NoLostWakeup(s: Shared, recipients: set<Pid>)
    requires Reachable(s, recipients) && recipients != {}
    ensures forall h :: h in s.list ==> h.recipients != {}
    ensures s.list != [] && (s.thread.AtWait? || s.thread.Asleep?) ==> s.queueContainsData
    ensures s.list != [] && s.thread.Asleep? ==> s.notifies > 0
  {
    var steps :| Run(Init(), steps, s, recipients);
    RunKeepsOk(Init(), steps, s, recipients);
  }

  predicate ByThread(step: Step) {
    step.Look? || step.TestFlag? || step.SendAll? || step.Notify?
  }

  // The next steps of the sending thread until a pass over the list, counting a notification it sleeps for.
  function StepsToPass(s: Shared): seq<Step> {
    match s.thread
    case Sending => [SendAll]
    case Top => [Look, SendAll]
    case AtWait => [TestFlag, SendAll]
    case Asleep => [Notify, TestFlag, SendAll]
  }

  // So nothing that waits for an acknowledgement is forgotten: at most three steps later, none of them a
  // new message, all that is in the list has been sent to all that have not acknowledged it.
  lemma ListIsSent(s: Shared, recipients: set<Pid>) returns (s': Shared)
    requires Reachable(s, recipients) && recipients != {} && s.list != []
    ensures Run(s, StepsToPass(s), s', recipients)
    ensures s'.passes == s.passes + [s.list] && s'.list == s.list
    ensures forall step :: step in StepsToPass(s) ==> ByThread(step)
  {
    NoLostWakeup(s, recipients);
    match s.thread
    case Sending =>
      s' := Apply(s, SendAll, recipients);
      RunCons(s, SendAll, [], s', recipients);
    case Top =>
      var s1 := Apply(s, Look, recipients);
      s' := Apply(s1, SendAll, recipients);
      RunCons(s1, SendAll, [], s', recipients);
      RunCons(s, Look, [SendAll], s', recipients);
    case AtWait =>
      var s1 := Apply(s, TestFlag, recipients);
      s' := Apply(s1, SendAll, recipients);
      RunCons(s1, SendAll, [], s', recipients);
      RunCons(s, TestFlag, [SendAll], s', recipients);
    case Asleep =>
      var s1 := Apply(s, Notify, recipients);
      var s2 := Apply(s1, TestFlag, recipients);
      s' := Apply(s2, SendAll, recipients);
      RunCons(s2, SendAll, [], s', recipients);
      RunCons(s1, TestFlag, [SendAll], s', recipients);
      RunCons(s, Notify, [TestFlag, SendAll], s', recipients);
  }

  /* ----- an idle sender ----- */

  // The steps that the sending thread takes of its own accord; asleep, it takes none.
  predicate IsOwn(step: Step) {
    step.Look? || step.TestFlag? || step.SendAll?
  }

  // How many of them are left before it sleeps, if the list stays empty.
  function StepsToSleep(s: Shared): nat {
    var toTest := match s.thread case Asleep => 0 case AtWait => 1 case Top => 2 case Sending => 3;
    if s.queueContainsData && !s.thread.Asleep? then toTest + 3 else toTest
  }

  lemma IdleStep(s: Shared, step: Step, recipients: set<Pid>)
    requires Enabled(s, step) && IsOwn(step) && s.list == []
    ensures Apply(s, step, recipients).list == []
    ensures StepsToSleep(Apply(s, step, recipients)) == StepsToSleep(s) - 1
  {
  }

  // While the list is empty and nothing is queued, the sending thread goes to sleep: it can always go on
  // until it sleeps, has at most six steps to go, and stops nowhere else.
  lemma IdleSleeps(s: Shared, steps: seq<Step>, s': Shared, recipients: set<Pid>)
    requires s.list == [] && Run(s, steps, s', recipients) && forall step :: step in steps ==> IsOwn(step)
    ensures s'.list == [] && |steps| <= 6
    ensures s'.thread.Asleep? <==> forall step :: Enabled(s', step) ==> !IsOwn(step)
    ensures |steps| == 6 ==> s'.thread.Asleep?
    decreases |steps|
  {
    IdleRun(s, steps, s', recipients);
    if !s'.thread.Asleep? {
      var next := if s'.thread.Top? then Look else if s'.thread.AtWait? then TestFlag else SendAll;
      assert Enabled(s', next);
    }
  }

  lemma {:induction false} IdleRun(s: Shared, steps: seq<Step>, s': Shared, recipients: set<Pid>)
    requires s.list == [] && Run(s, steps, s', recipients) && forall step :: step in steps ==> IsOwn(step)
    ensures s'.list == [] && StepsToSleep(s') == StepsToSleep(s) - |steps|
    decreases |steps|
  {
    if steps != [] {
      IdleStep(s, steps[0], recipients);
      IdleRun(Apply(s, steps[0], recipients), steps[1..], s', recipients);
    }
  }

  function EmptyPasses(passes: seq<seq<MsgHolder>>): nat {
    if passes == [] then 0
    else EmptyPasses(passes[..|passes| - 1]) + if passes[|passes| - 1] == [] then 1 else 0
  }

  function Pushes(steps: seq<Step>): nat {
    if steps == [] then 0 else (if steps[0].Push? then 1 else 0) + Pushes(steps[1..])
  }

  // Passes over an empty list, and what can still bring one about: the flag, an entry, a pass under way.
  function EmptyLoad(s: Shared): nat {
    EmptyPasses(s.passes) + (if s.queueContainsData then 1 else 0) + |s.list|
    + if s.thread.Sending? && s.list == [] then 1 else 0
  }

  lemma StepAddsEmptyLoad(s: Shared, step: Step, recipients: set<Pid>)
    requires Enabled(s, step) && SharedOk(s)
    ensures EmptyLoad(Apply(s, step, recipients)) <= EmptyLoad(s) + if step.Push? then 2 else 0
  {
    match step
    case Remove(id, r) => RemovedLoad(s.list, id, r);
    case SendAll => assert (s.passes + [s.list])[..|s.passes|] == s.passes;
    case _ =>
  }

  lemma {:induction false} RunAddsEmptyLoad(s: Shared, steps: seq<Step>, s': Shared, recipients: set<Pid>)
    requires SharedOk(s) && recipients != {} && Run(s, steps, s', recipients)
    ensures EmptyLoad(s') <= EmptyLoad(s) + 2 * Pushes(steps)
    decreases |steps|
  {
    hide EmptyLoad, SharedOk, Apply, Enabled;
    if steps != [] {
      StepAddsEmptyLoad(s, steps[0], recipients);
      StepKeepsOk(s, steps[0], recipients);
      RunAddsEmptyLoad(Apply(s, steps[0], recipients), steps[1..], s', recipients);
    }
  }

  // Each message queued costs at most two passes over an empty list, in any run.
  lemma FewEmptyPasses(steps: seq<Step>, s: Shared, recipients: set<Pid>)
    requires recipients != {} && Run(Init(), steps, s, recipients)
    ensures EmptyPasses(s.passes) <= 2 * Pushes(steps)
  {
    RunAddsEmptyLoad(Init(), steps, s, recipients);
  }

  const PASS_TWICE := [SendAll] + ([Look] + ([TestFlag] + [SendAll]))

  lemma PassesTwice(s: Shared, recipients: set<Pid>) returns (s': Shared)
    requires s.thread.Sending? && s.list == [] && s.queueContainsData
    ensures Run(s, PASS_TWICE, s', recipients) && s'.passes == s.passes + [[]] + [[]]
  {
    var s1 := Apply(s, SendAll, recipients);
    var s2 := Apply(s1, Look, recipients);
    var s3 := Apply(s2, TestFlag, recipients);
    s' := Apply(s3, SendAll, recipients);
    assert Run(s', [], s', recipients);
    hide Run;
    RunCons(s3, SendAll, [], s', recipients);
    RunCons(s2, TestFlag, [SendAll], s', recipients);
    RunCons(s1, Look, [TestFlag] + [SendAll], s', recipients);
    RunCons(s, SendAll, [Look] + ([TestFlag] + [SendAll]), s', recipients);
  }

  lemma TwoEmpty(passes: seq<seq<MsgHolder>>)
    requires |passes| == 2 && passes[0] == passes[1] == []
    ensures EmptyPasses(passes) == 2
  {
    assert passes[..1][..0] == [] && EmptyPasses(passes[..1]) == 1;
  }

  lemma NoPush(steps: seq<Step>)
    requires forall step :: step in steps ==> !step.Push?
    ensures Pushes(steps) == 0
  {
  }

  lemma AckEmpties(m: Message)
    ensures RemoveRecipient([MsgHolder(m, {m.sender})], m.msgId, m.sender) == []
  {
    StruckShape([MsgHolder(m, {m.sender})], m.msgId, m.sender);
  }

  lemma LeavesFlag(m: Message) returns (s1: Shared, s2: Shared, s3: Shared)
    ensures Enabled(Init(), Push(m)) && s1 == Apply(Init(), Push(m), {m.sender})
    ensures Enabled(s1, Look) && s2 == Apply(s1, Look, {m.sender})
    ensures Enabled(s2, Step.Remove(m.msgId, m.sender))
    ensures s3 == Apply(s2, Step.Remove(m.msgId, m.sender), {m.sender})
    ensures s3.thread.Sending? && s3.list == [] && s3.queueContainsData && s3.passes == []
  {
    hide RemoveRecipient;
    AckEmpties(m);
    s1 := Apply(Init(), Push(m), {m.sender});
    assert s1.list == [MsgHolder(m, {m.sender})];
    s2 := Apply(s1, Look, {m.sender});
    s3 := Apply(s2, Step.Remove(m.msgId, m.sender), {m.sender});
  }

  // And one message can cost two: acknowledged before the first pass, it leaves the flag up for the second.
  lemma TwoEmptyPasses(m: Message) returns (steps: seq<Step>, s: Shared)
    ensures Run(Init(), steps, s, {m.sender}) && Pushes(steps) == 1 && EmptyPasses(s.passes) == 2
  {
    hide Run, Apply, Enabled;
    var all, ack := {m.sender}, Step.Remove(m.msgId, m.sender);
    var s1, s2, s3 := LeavesFlag(m);
    s := PassesTwice(s3, all);
    RunCons(s2, ack, PASS_TWICE, s, all);
    RunCons(s1, Look, [ack] + PASS_TWICE, s, all);
    RunCons(Init(), Push(m), [Look] + ([ack] + PASS_TWICE), s, all);
    steps := [Push(m)] + ([Look] + ([ack] + PASS_TWICE));
    NoPush(steps[1..]);
    TwoEmpty(s.passes);
  }

  lemma RunCons(s: Shared, step: Step, steps: seq<Step>, s': Shared, recipients: set<Pid>)
    requires Enabled(s, step) && Run(Apply(s, step, recipients), steps, s', recipients)
    ensures Run(s, [step] + steps, s', recipients)
  {
    assert ([step] + steps)[1..] == steps;
  }
}
