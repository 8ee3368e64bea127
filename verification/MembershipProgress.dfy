/** Every change and every recovery comes to its end, whatever the order of the steps. */
module MembershipProgress {
  import opened FiniteSets
  import opened Memberships
  import opened MembershipProtocol
  import opened MembershipInvariant
  import opened MembershipFailover

  // Messages on their way to followers.
  function Unread(links: map<PeerId, Link>): nat
    decreases |links.Keys|
  {
    if links.Keys == {} then
      0
    else
      var f := Least(links.Keys);
      |links[f].toPeer| + Unread(links - {f})
  }

  lemma {:induction false} UnreadUpdate(links: map<PeerId, Link>, f: PeerId, l: Link)
    requires f in links
    ensures Unread(links[f := l]) == Unread(links) - |links[f].toPeer| + |l.toPeer|
    decreases |links.Keys|
  {
    var links' := links[f := l];
    assert links'.Keys == links.Keys;
    var n := Least(links.Keys);
    if n == f {
      assert links' - {n} == links - {n};
    } else {
      assert links' - {n} == (links - {n})[f := l];
      UnreadUpdate(links - {n}, f, l);
    }
  }

  // Steps left of the leader's program, and the receipt of all that it will yet send: a change that
  // asks `n` peers takes at most this many.
  function ChangeWork(n: nat): nat {
    2 * n + 1 + n + 1 + 2 * (n + 1) + 1
  }

  function PhaseWork(phase: Phase, alive: set<PeerId>): nat {
    match phase
    case Idle => 0
    case Asking(_, todo) => 2 * |todo| + 1 + |alive| + 1 + 2 * (|alive| + 1) + 1
    case Gathering(_, todo) => |todo| + 1 + 2 * (|alive| + 1) + 1
    case Announcing(_, todo) => 2 * |todo| + 1
    case Greeting(todo, reached) => 2 * |todo| + 1 + |todo| + |reached| + 1 + ChangeWork(|todo| + |reached|)
    case Collecting(todo, _) => |todo| + 1 + ChangeWork(|alive|)
    case Aborted => 0
  }

  function Work(g: Group): nat {
    PhaseWork(g.phase, g.leader.alive) + Unread(g.links)
  }

  lemma Without(s: set<PeerId>, f: PeerId)
    requires f in s
    ensures |s - {f}| == |s| - 1
  {
  }

  lemma UnreadAfterSend(g: Group, f: PeerId, m: Msg)
    requires f in g.links
    ensures Unread(Send(g, f, m).links) == Unread(g.links) + 1
  {
    UnreadUpdate(g.links, f, Send(g, f, m).links[f]);
  }

  lemma UnreadAfterReply(g: Group, f: PeerId)
    requires f in g.links && g.links[f].toLeader != []
    ensures Unread(g.links[f := g.links[f].(toLeader := g.links[f].toLeader[1..])]) == Unread(g.links)
  {
    UnreadUpdate(g.links, f, g.links[f].(toLeader := g.links[f].toLeader[1..]));
  }

  lemma SendingIsProgress(g: Group, step: Step)
    requires (step.Ask? || step.Announce? || step.Greet?) && Enabled(g, step)
    ensures Work(Apply(g, step)) < Work(g)
  {
    hide Unread;
    Without(g.phase.todo, step.f);
    match step
    case Ask(f) => UnreadAfterSend(g, f, RequestMsg(g.phase.q));
    case Announce(f) =>
      if g.views != [] {
        UnreadAfterSend(g, f, ViewMsg(NewestView(g.views)));
      }
    case Greet(f) =>
      if f in g.links {
        UnreadAfterSend(g, f, NewLeaderMsg(g.leader.requestCounter, g.leader.viewId));
      }
  }

  lemma TakingIsProgress(g: Group, step: Step)
    requires (step.TakeOk? || step.TakePending?) && Enabled(g, step)
    ensures Work(Apply(g, step)) < Work(g)
  {
    hide Unread;
    UnreadAfterReply(g, step.f);
    Without(g.phase.todo, step.f);
  }

  // The steps between the loops of the leader's program.
  lemma TurningIsProgress(g: Group, step: Step)
    requires step.AllAsked? || step.AllAgreed? || step.AllAnnounced? || step.AllGreeted? || step.Decide?
    requires Enabled(g, step)
    ensures Work(Apply(g, step)) < Work(g)
  {
    hide Unread;
    if step.AllAgreed? {
      SubsetSize(Apply(g, step).leader.alive, g.leader.alive + {g.phase.q.peerId});
    } else if step.Decide? {
      SubsetSize(Apply(g, step).leader.alive, g.leader.alive);
    }
  }

  // Every quiet step is progress.
  lemma QuietStepIsProgress(g: Group, step: Step)
    requires Enabled(g, step) && !IsEvent(step)
    ensures Work(Apply(g, step)) < Work(g)
  {
    if step.Receive? {
      hide Unread;
      UnreadUpdate(g.links, step.f, Apply(g, step).links[step.f]);
    } else {
      hide Work, Apply, Enabled;
      if step.Ask? || step.Announce? || step.Greet? {
        SendingIsProgress(g, step);
      } else if step.TakeOk? || step.TakePending? {
        TakingIsProgress(g, step);
      } else {
        TurningIsProgress(g, step);
      }
    }
  }

  // So the length of every quiet run is bounded beforehand.
  lemma {:induction false} QuietRunsAreBounded(g: Group, steps: seq<Step>, g': Group)
    requires QuietRun(g, steps, g')
    ensures |steps| + Work(g') <= Work(g)
    decreases |steps|
  {
    hide Apply, Enabled, Work;
    if steps != [] {
      assert !IsEvent(steps[0]);
      QuietStepIsProgress(g, steps[0]);
      QuietRunsAreBounded(Apply(g, steps[0]), steps[1..], g');
    }
  }

  // A group that has not settled can always take a quiet step.
  lemma NotStuck(g: Group) returns (step: Step)
    requires GroupOk(g) && !Settled(g)
    ensures Enabled(g, step) && !IsEvent(step)
  {
    hide RecoveryOk, ViewsOk, HistoryOk;
    if f :| f in g.links && g.links[f].toPeer != [] {
      assert LinkOk(g, f, g.links[f]);
      step := Receive(f);
    } else {
      step := LeaderStep(g);
    }
  }

  // A follower that has read everything has answered.
  lemma AnswerIsThere(g: Group, f: PeerId)
    requires GroupOk(g) && (g.phase.Gathering? || g.phase.Collecting?) && f in g.phase.todo
    requires forall p :: p in g.links ==> g.links[p].toPeer == []
    ensures f in g.links && g.links[f].toLeader != []
  {
    hide RecoveryOk, ViewsOk, HistoryOk;
    assert LinkOk(g, f, g.links[f]);
  }

  // With nothing unread, the leader itself can go on.
  lemma LeaderStep(g: Group) returns (step: Step)
    requires GroupOk(g) && !g.phase.Idle? && forall f :: f in g.links ==> g.links[f].toPeer == []
    ensures Enabled(g, step) && !IsEvent(step)
  {
    hide RecoveryOk, ViewsOk, LinksOk;
    match g.phase
    case Asking(_, todo) =>
      if todo == {} {
        step := AllAsked;
      } else {
        step := Ask(Least(todo));
      }
    case Gathering(_, todo) =>
      if todo == {} {
        step := AllAgreed;
      } else {
        AnswerIsThere(g, Least(todo));
        step := TakeOk(Least(todo));
      }
    case Announcing(_, todo) =>
      if todo == {} {
        step := AllAnnounced;
      } else {
        step := Announce(Least(todo));
      }
    case Greeting(todo, _) =>
      if todo == {} {
        step := AllGreeted;
      } else {
        step := Greet(Least(todo));
      }
    case Collecting(todo, _) =>
      if todo == {} {
        step := Decide;
      } else {
        AnswerIsThere(g, Least(todo));
        step := TakePending(Least(todo));
      }
  }

  lemma {:induction false} SettlesFrom(g: Group) returns (steps: seq<Step>, g': Group)
    requires GroupOk(g)
    ensures QuietRun(g, steps, g') && Settled(g')
    decreases Work(g)
  {
    hide GroupOk, Apply, Enabled, Work, Settled;
    if Settled(g) {
      steps, g' := [], g;
    } else {
      var step := NotStuck(g);
      QuietStepIsProgress(g, step);
      StepKeepsOk(g, step);
      var rest;
      rest, g' := SettlesFrom(Apply(g, step));
      steps := [step] + rest;
      assert steps[1..] == rest;
    }
  }

  // Left to itself, a group always settles: no quiet run is longer than the work at its start, each can
  // be continued until nothing is left to be done, and it can only stop there.
  lemma AlwaysSettles(g: Group, steps: seq<Step>, g': Group)
    requires Reachable(g) && QuietRun(g, steps, g')
    ensures |steps| <= Work(g)
    ensures Settled(g') <==> forall step :: Enabled(g', step) ==> IsEvent(step)
    ensures exists more, end :: QuietRun(g', more, end) && Settled(end)
  {
    ReachableIsOk(g);
    QuietRunsAreBounded(g, steps, g');
    RunKeepsOk(g, steps, g');
    if !Settled(g') {
      var step := NotStuck(g');
    }
    var more, end := SettlesFrom(g');
  }
}
