/** Whole changes and whole recoveries: every run of the machine ends where the leader's program does. */
module MembershipOutcome {
  import opened FiniteSets
  import opened Memberships
  import opened MembershipProtocol
  import opened MembershipInvariant
  import opened MembershipFailover

  // In a settled group everybody holds the leader's view.
  lemma SettledGroup(g: Group, f: PeerId)
    requires GroupOk(g) && Settled(g) && f in g.links
    ensures g.links[f].peer.viewId == g.leader.viewId && g.links[f].peer.GroupMembers() == g.leader.GroupMembers()
  {
    hide RecoveryOk;
    assert LinkOk(g, f, g.links[f]);
  }

  // So each follower is a peer of which everything but its own counter is known.
  lemma SettledPeer(g: Group, f: PeerId)
    requires GroupOk(g) && Settled(g) && f in g.links
    ensures f in g.leader.alive
    ensures g.links[f].peer == Peer(f, g.leader.me, g.links[f].peer.requestCounter, g.leader.viewId,
                                    g.leader.GroupMembers() - {f}, NO_REQUEST)
  {
    hide RecoveryOk;
    assert LinkOk(g, f, g.links[f]);
  }

  ghost predicate SameCounters(g: Group, g': Group) {
    && g'.leader.me == g.leader.me && g'.links.Keys == g.links.Keys
    && forall f :: f in g.links ==> g'.links[f].peer.requestCounter == g.links[f].peer.requestCounter
  }

  lemma QuietStepKeepsCounters(g: Group, step: Step)
    requires Enabled(g, step) && !IsEvent(step)
    ensures SameCounters(g, Apply(g, step))
  {
  }

  lemma {:induction false} QuietRunKeepsCounters(g: Group, steps: seq<Step>, g': Group)
    requires QuietRun(g, steps, g')
    ensures SameCounters(g, g')
    decreases |steps|
  {
    hide Apply, Enabled;
    if steps != [] {
      assert !IsEvent(steps[0]);
      QuietStepKeepsCounters(g, steps[0]);
      QuietRunKeepsCounters(Apply(g, steps[0]), steps[1..], g');
    }
  }

  lemma {:induction false} DrainedKeeps(p: Peer, msgs: seq<Msg>)
    ensures var p' := Drained(p, msgs); p'.me == p.me && p'.leader == p.leader && p'.requestCounter == p.requestCounter
    decreases |msgs|
  {
    if msgs != [] {
      DrainedKeeps(Took(p, msgs[0]), msgs[1..]);
    }
  }

  // Whoever reads a view last, after at most a request, holds that view.
  lemma ReadsView(p: Peer, msgs: seq<Msg>, id: nat, members: set<PeerId>)
    requires 1 <= |msgs| <= 2 && msgs[|msgs| - 1] == NewViewMsg(id, members)
    requires |msgs| == 2 ==> msgs[0].RequestMsg?
    ensures Drained(p, msgs) == Peer(p.me, p.leader, p.requestCounter, id, members - {p.me}, NO_REQUEST)
  {
    DrainedFew(p, msgs[0], msgs[|msgs| - 1]);
    assert |msgs| == 2 ==> msgs == [msgs[0], msgs[1]];
  }

  /* ----- a change ----- */

  // The leader during and after the change that `p` has begun.
  ghost predicate Changing(g: Group, p: Peer, operation: Operation, x: PeerId) {
    match g.phase
    case Asking(q, _) => q == NextRequest(p, operation, x) && g.leader == StartChange(p, operation, x)
    case Gathering(q, _) => q == NextRequest(p, operation, x) && g.leader == StartChange(p, operation, x)
    case Announcing(_, _) => g.leader == Commit(StartChange(p, operation, x), operation, x)
    case Idle => g.leader == Commit(StartChange(p, operation, x), operation, x)
    case _ => false
  }

  lemma QuietStepKeepsChange(g: Group, step: Step, p: Peer, operation: Operation, x: PeerId)
    requires GroupOk(g) && Enabled(g, step) && !IsEvent(step) && Changing(g, p, operation, x)
    ensures Changing(Apply(g, step), p, operation, x)
  {
    hide LinksOk, RecoveryOk, ViewsOk, FollowerReceive, StartChange, Commit;
    if step.TakeOk? {
      TakesOk(g, step.f);
    }
  }

  lemma {:induction false} QuietRunKeepsChange(g: Group, steps: seq<Step>, g': Group,
      p: Peer, operation: Operation, x: PeerId)
    requires GroupOk(g) && QuietRun(g, steps, g') && Changing(g, p, operation, x)
    ensures GroupOk(g') && Changing(g', p, operation, x)
    decreases |steps|
  {
    hide GroupOk, Apply, Enabled, Changing;
    if steps != [] {
      assert !IsEvent(steps[0]);
      StepKeepsOk(g, steps[0]);
      QuietStepKeepsChange(g, steps[0], p, operation, x);
      QuietRunKeepsChange(Apply(g, steps[0]), steps[1..], g', p, operation, x);
    }
  }

  function OperationOf(step: Step): Operation {
    if step.Join? then Add else Del
  }

  // However the steps of leader and followers interleave: a change that settles leaves the leader as its
  // program does when all agree, and every follower with the leader's view.
  lemma ChangeOutcome(g: Group, step: Step, steps: seq<Step>, g': Group, conns: Conns, replies: map<PeerId, seq<Msg>>)
    requires Reachable(g) && (step.Join? || step.Remove?) && Enabled(g, step)
    requires QuietRun(Apply(g, step), steps, g') && Settled(g')
    requires AllAgree(g.leader, conns, OperationOf(step), step.x, replies)
    ensures g'.leader == Modify(g.leader, conns, OperationOf(step), step.x, replies).peer
    ensures forall f :: f in g'.links ==>
              g'.links[f].peer.viewId == g'.leader.viewId && g'.links[f].peer.GroupMembers() == g'.leader.GroupMembers()
  {
    hide GroupOk, Modify, AllAgree, QuietRun;
    ReachableIsOk(g);
    StepKeepsOk(g, step);
    var p, operation := g.leader, OperationOf(step);
    assert Changing(Apply(g, step), p, operation, step.x);
    hide Apply, Enabled;
    QuietRunKeepsChange(Apply(g, step), steps, g', p, operation, step.x);
    ChangeCompletes(p, conns, operation, step.x, replies);
    forall f | f in g'.links
      ensures g'.links[f].peer.viewId == g'.leader.viewId && g'.links[f].peer.GroupMembers() == g'.leader.GroupMembers()
    {
      SettledGroup(g', f);
    }
  }

  // What the program has sent a peer since.
  function News(before: Conns, after: Conns, f: PeerId): seq<Msg>
    requires f in before && f in after && |before[f].sent| <= |after[f].sent|
  {
    after[f].sent[|before[f].sent|..]
  }

  lemma ChangeNews(p: Peer, conns: Conns, operation: Operation, x: PeerId, replies: map<PeerId, seq<Msg>>, f: PeerId)
    requires Modify(p, conns, operation, x, replies).outcome == Done
    requires f in Modify(p, conns, operation, x, replies).peer.alive && (operation.Add? ==> x !in p.alive)
    ensures var r := Modify(p, conns, operation, x, replies);
            && f in conns && f in r.conns && conns[f].sent <= r.conns[f].sent
            && News(conns, r.conns, f) ==
                 (if operation.Add? && f == x then [] else [RequestMsg(NextRequest(p, operation, x))])
                 + [NewViewMsg(r.peer.viewId, r.peer.GroupMembers())]
  {
    hide Modify, AllAgree, ToRead;
    ChangeCompletes(p, conns, operation, x, replies);
    ChangeSends(p, conns, operation, x, replies);
  }

  // A follower that reads what the program of its leader sends it becomes the follower of the settled group.
  lemma ChangeIsInstalled(g: Group, step: Step, steps: seq<Step>, g': Group, conns: Conns,
                          replies: map<PeerId, seq<Msg>>, f: PeerId)
    requires Reachable(g) && (step.Join? || step.Remove?) && Enabled(g, step)
    requires QuietRun(Apply(g, step), steps, g') && Settled(g') && f in g'.links
    requires Modify(g.leader, conns, OperationOf(step), step.x, replies).outcome == Done
    ensures var r := Modify(g.leader, conns, OperationOf(step), step.x, replies);
            && f in Apply(g, step).links && f in conns && f in r.conns && conns[f].sent <= r.conns[f].sent
            && Drained(AtCrash(Apply(g, step), f), News(conns, r.conns, f)) == g'.links[f].peer
  {
    hide GroupOk, Modify, AllAgree, Run, Drained, News;
    ReachableIsOk(g);
    StepKeepsOk(g, step);
    QuietRunKeepsCounters(Apply(g, step), steps, g');
    ChangeCompletes(g.leader, conns, OperationOf(step), step.x, replies);
    ChangeOutcome(g, step, steps, g', conns, replies);
    NewcomerIsNoMember(g, step);
    assert Apply(g, step).phase.Asking?;
    RunKeepsOk(Apply(g, step), steps, g');
    hide Apply, Enabled, Reachable;
    SettledPeer(g', f);
    ChangeNews(g.leader, conns, OperationOf(step), step.x, replies, f);
    var r := Modify(g.leader, conns, OperationOf(step), step.x, replies);
    var l := Apply(g, step).links[f];
    DrainedKeeps(l.peer, l.toPeer);
    ReadsView(AtCrash(Apply(g, step), f), News(conns, r.conns, f), r.peer.viewId, r.peer.GroupMembers());
    MeOfLink(Apply(g, step), f);
  }

  lemma NewcomerIsNoMember(g: Group, step: Step)
    requires GroupOk(g) && Enabled(g, step)
    ensures step.Join? ==> step.x !in g.leader.alive
  {
  }

  lemma MeOfLink(g: Group, f: PeerId)
    requires GroupOk(g) && f in g.links && g.phase.Asking?
    ensures g.links[f].peer.me == f && g.links[f].peer.leader == g.leader.me
  {
    assert LinkOk(g, f, g.links[f]);
  }

  /* ----- a recovery ----- */

  // The new leader, before it has told the others, and after: `p` is what it was when it had read all.
  function Promoted(p: Peer, n: PeerId, alive: set<PeerId>): Peer {
    p.(requestCounter := p.requestCounter + 1, leader := n, alive := alive)
  }

  function AfterRecovery(p: Peer, removal: bool, x: PeerId): Peer {
    if removal then Commit(StartChange(p, Del, x), Del, x) else p
  }

  ghost predicate Recovering(g: Group, p0: Peer, p1: Peer, removal: bool, x: PeerId) {
    match g.phase
    case Greeting(_, _) => g.leader == p0
    case Collecting(_, found) =>
      g.leader == p1 && (found.operation.Nothing? || (found.operation.Del? && found.peerId == x))
    case Asking(q, _) => q.operation.Del? && q.peerId == x && g.leader == StartChange(p1, Del, x)
    case Gathering(q, _) => q.operation.Del? && q.peerId == x && g.leader == StartChange(p1, Del, x) && removal
    case Announcing(_, _) => g.leader == AfterRecovery(p1, removal, x)
    case Idle => g.leader == AfterRecovery(p1, removal, x)
    case Aborted => false
  }

  // All that is reported is the removal of one peer.
  ghost predicate ReportsOnly(reports: map<PeerId, Request>, x: PeerId) {
    forall f :: f in reports ==> reports[f].operation.Nothing? || (reports[f].operation.Del? && reports[f].peerId == x)
  }

  lemma TakesReport(g: Group, f: PeerId)
    requires GroupOk(g) && Enabled(g, TakePending(f)) && g.recovery.Recovery?
    ensures f in g.recovery.reports && g.links[f].toLeader[0].RequestMsg?
    ensures var r, report := g.links[f].toLeader[0].request, g.recovery.reports[f];
            r.operation == report.operation && r.peerId == report.peerId
  {
    hide LinksOk, ViewsOk;
    TakesPending(g, f);
  }

  lemma QuietStepKeepsLeader(g: Group, step: Step, p0: Peer, x: PeerId, followers: set<PeerId>, recovery: Recovery)
    requires GroupOk(g) && InRecovery(g, p0.me, followers, recovery) && ReportsOnly(recovery.reports, x)
    requires Enabled(g, step) && !IsEvent(step)
    requires Recovering(g, p0, p0.(alive := followers), SomeReport(recovery.reports, recovery.reports.Keys), x)
    ensures Recovering(Apply(g, step), p0, p0.(alive := followers),
                       SomeReport(recovery.reports, recovery.reports.Keys), x)
  {
    hide LinksOk, ViewsOk, FollowerReceive, StartChange, Commit, SomeReport, RemovalOnly;
    match step
    case TakeOk(f) => TakesOk(g, f);
    case TakePending(f) => TakesReport(g, f);
    case Decide => assert recovery.reports.Keys - {} == recovery.reports.Keys;
    case _ =>
  }

  lemma {:induction false} QuietRunKeepsLeader(g: Group, steps: seq<Step>, g': Group, p0: Peer, x: PeerId,
                                               followers: set<PeerId>, recovery: Recovery)
    requires GroupOk(g) && InRecovery(g, p0.me, followers, recovery) && ReportsOnly(recovery.reports, x)
    requires QuietRun(g, steps, g')
    requires Recovering(g, p0, p0.(alive := followers), SomeReport(recovery.reports, recovery.reports.Keys), x)
    ensures Recovering(g', p0, p0.(alive := followers), SomeReport(recovery.reports, recovery.reports.Keys), x)
    decreases |steps|
  {
    hide GroupOk, Apply, Enabled, InRecovery, Recovering, SomeReport, ReportsOnly;
    if steps != [] {
      assert !IsEvent(steps[0]);
      QuietStepKeepsLeader(g, steps[0], p0, x, followers, recovery);
      StepKeepsOk(g, steps[0]);
      QuietStepKeepsRecovery(g, steps[0], p0.me, followers, recovery);
      QuietRunKeepsLeader(Apply(g, steps[0]), steps[1..], g', p0, x, followers, recovery);
    }
  }

  // The peer being removed when the leader crashes, if there is one.
  function RemovedPeer(g: Group): PeerId {
    if g.phase.Asking? || g.phase.Gathering? || g.phase.Announcing? then g.phase.q.peerId else 0
  }

  lemma ReportsAtCrash(g: Group)
    requires GroupOk(g) && CrashPoint(g)
    ensures ReportsOnly(TakeOver(g).recovery.reports, RemovedPeer(g))
  {
    hide GroupOk, Drained;
    var reports := TakeOver(g).recovery.reports;
    forall f | f in reports
      ensures reports[f].operation.Nothing? || (reports[f].operation.Del? && reports[f].peerId == RemovedPeer(g))
    {
      assert reports[f] == AtCrash(g, f).pending;
      WhoReports(g, f);
    }
  }

  // However the recovery runs: where it settles, its leader is this one.
  lemma LeaderAfterRecovery(g: Group, steps: seq<Step>, g': Group)
    requires Reachable(g) && CrashPoint(g) && QuietRun(TakeOver(g), steps, g') && Settled(g')
    ensures var n := Least(g.links.Keys);
            g'.leader == AfterRecovery(Promoted(AtCrash(g, n), n, g.links.Keys - {n}), RemovalFound(g), RemovedPeer(g))
  {
    hide GroupOk, Drained, InRecovery, SomeReport, ReportsOnly, RemovalFound, QuietRun;
    var n := Least(g.links.Keys);
    RecoveryRun(g, steps, g');
    TakeOverIsRecovery(g);
    TakeOverLeader(g);
    ReportsAtCrash(g);
    var p0 := TakeOver(g).leader;
    QuietRunKeepsLeader(TakeOver(g), steps, g', p0, RemovedPeer(g), g.links.Keys - {n}, TakeOver(g).recovery);
  }

  /* ----- the same by the new leader's program ----- */

  function OtherSurvivors(g: Group): set<PeerId>
    requires g.links != map[]
  {
    g.links.Keys - {Least(g.links.Keys)}
  }

  // What the other survivors send it.
  function Reported(g: Group): map<PeerId, seq<Msg>>
    requires g.links != map[]
  {
    map f | f in OtherSurvivors(g) && f in g.links :: [PendingFor(AtCrash(g, f))]
  }

  function Waiting(g: Group): Conns
    requires g.links != map[]
  {
    var p := AtCrash(g, Least(g.links.Keys));
    Arrived(Greeted(OtherSurvivors(g), NewLeaderMsg(p.requestCounter + 1, p.viewId)), Reported(g))
  }

  lemma ReportOf(g: Group, f: PeerId)
    requires GroupOk(g) && CrashPoint(g) && f in OtherSurvivors(g)
    ensures f in Waiting(g) && |Waiting(g)[f].inbox| == 1 && HasPending(Waiting(g), f)
    ensures var r := Waiting(g)[f].inbox[0].request;
            if Reports(g, f) then r.operation.Del? && r.peerId == RemovedPeer(g) else r.operation.Nothing?
  {
    hide GroupOk, Drained;
    WhoReports(g, f);
  }

  lemma FindsRemoval(g: Group)
    requires GroupOk(g) && CrashPoint(g)
    ensures Waiting(g).Keys == OtherSurvivors(g)
    ensures var r := CollectPending(Waiting(g), OtherSurvivors(g), NO_REQUEST);
            && r.outcome == Done && r.conns.Keys == OtherSurvivors(g)
            && (forall f :: f in r.conns ==> r.conns[f].inbox == [])
            && if RemovalFound(g) then r.found.operation.Del? && r.found.peerId == RemovedPeer(g)
               else r.found.operation.Nothing?
  {
    var waiting, others := Waiting(g), OtherSurvivors(g);
    assert waiting.Keys == others;
    assert RemovalFound(g) <==> exists f :: f in others && Reports(g, f) by {
      assert forall f :: Reports(g, f) ==> f in g.links;
    }
    hide GroupOk, Drained, Waiting, CrashPoint, CollectPending, OtherSurvivors, Reports, RemovalFound;
    forall f | f in others
      ensures HasPending(waiting, f) && |waiting[f].inbox| == 1
      ensures var r := waiting[f].inbox[0].request;
              if Reports(g, f) then r.operation.Del? && r.peerId == RemovedPeer(g) else r.operation.Nothing?
    {
      ReportOf(g, f);
    }
    CollectKnown(waiting, Del, RemovedPeer(g));
    if RemovalFound(g) {
      var f :| f in others && Reports(g, f);
      assert ReportsChange(waiting, others, f);
    }
  }

  // The new leader regards all other survivors as members.
  lemma SurvivorsAreMembers(g: Group)
    requires GroupOk(g) && CrashPoint(g)
    ensures var n := Least(g.links.Keys);
            var p := AtCrash(g, n);
            p.me == n && (p.alive - {p.leader}) * g.links.Keys == OtherSurvivors(g)
  {
    hide RecoveryOk, Drained, LinkInPhase, HistoryOk, PhaseOk;
    var n := Least(g.links.Keys);
    TakeOverLeader(g);
    CrashedIsNoOrphan(g, n);
    assert LinkOk(g, n, g.links[n]);
    DrainedKeeps(g.links[n].peer, g.links[n].toPeer);
  }

  lemma CrashedIsNoOrphan(g: Group, f: PeerId)
    requires GroupOk(g) && CrashPoint(g) && f in g.links
    ensures !g.links[f].orphan
  {
    assert LinkOk(g, f, g.links[f]);
  }

  // What the new leader's program makes of what it finds.
  lemma ProgramRecovers(p: Peer, reachable: set<PeerId>, answers: map<PeerId, seq<Msg>>, replies: map<PeerId, seq<Msg>>,
                        removal: bool, x: PeerId)
    requires var others := (p.alive - {p.leader}) * reachable;
             var r := CollectPending(Arrived(Greeted(others, NewLeaderMsg(p.requestCounter + 1, p.viewId)), answers),
                                     others, NO_REQUEST);
             && r.outcome == Done && r.conns.Keys == others && (forall f :: f in r.conns ==> r.conns[f].inbox == [])
             && if removal then r.found.operation.Del? && r.found.peerId == x else r.found.operation.Nothing?
    ensures var others := (p.alive - {p.leader}) * reachable;
            var r := Recover(p, reachable, answers, replies);
            && (!removal || AllReply(others, replies, p.requestCounter + 2) ==> r.outcome == Done)
            && (r.outcome == Done ==> r.peer == AfterRecovery(Promoted(p, p.me, others), removal, x))
  {
    hide CollectPending, Arrived, Greeted, SendAll, Modify, AllAgree, OkFirst;
    var others := (p.alive - {p.leader}) * reachable;
    var p1 := p.(requestCounter := p.requestCounter + 1, alive := others);
    var collected := CollectPending(Arrived(Greeted(others, NewLeaderMsg(p.requestCounter + 1, p.viewId)), answers),
                                    others, NO_REQUEST);
    var found := collected.found;
    if removal {
      ChangeCompletes(p1, collected.conns, found.operation, found.peerId, replies);
      if AllReply(others, replies, p.requestCounter + 2) {
        OksAgree(p1, collected.conns, found.operation, found.peerId, replies);
      }
    } else {
      SendAllReaches(collected.conns, others, NewViewMsg(p1.viewId, p1.GroupMembers()));
    }
  }

  // However the recovery runs: where it settles, the leader is what its program makes of the pending
  // requests of the others. The program succeeds if it finds nothing, or all send the right Ok.
  lemma RecoveryOutcome(g: Group, steps: seq<Step>, g': Group, replies: map<PeerId, seq<Msg>>)
    requires Reachable(g) && CrashPoint(g) && QuietRun(TakeOver(g), steps, g') && Settled(g')
    ensures var p := AtCrash(g, Least(g.links.Keys));
            var r := Recover(p, g.links.Keys, Reported(g), replies);
            && (!RemovalFound(g) || AllReply(OtherSurvivors(g), replies, p.requestCounter + 2) ==> r.outcome == Done)
            && (r.outcome == Done ==> r.peer == g'.leader)
  {
    hide GroupOk, Drained, QuietRun, CollectPending, RemovalFound, Reported, Arrived, Greeted, Recover, AllReply;
    ReachableIsOk(g);
    var p := AtCrash(g, Least(g.links.Keys));
    LeaderAfterRecovery(g, steps, g');
    SurvivorsAreMembers(g);
    FindsRemoval(g);
    ProgramRecovers(p, g.links.Keys, Reported(g), replies, RemovalFound(g), RemovedPeer(g));
  }

  // The report of a survivor carries the view it holds, whatever view its pending request was made in.
  lemma ReportCarriesView(g: Group, f: PeerId)
    requires CrashPoint(g) && f in OtherSurvivors(g)
    ensures f in Reported(g) && |Reported(g)[f]| == 1 && Reported(g)[f][0].RequestMsg?
    ensures Reported(g)[f][0].request.currentViewId == AtCrash(g, f).viewId
  {
  }

  lemma RecoveryNews(p: Peer, reachable: set<PeerId>, answers: map<PeerId, seq<Msg>>, replies: map<PeerId, seq<Msg>>,
                     f: PeerId)
    requires Recover(p, reachable, answers, replies).outcome == Done
    requires f in Recover(p, reachable, answers, replies).conns
    ensures var r := Recover(p, reachable, answers, replies);
            && r.conns[f].sent != [] && r.conns[f].sent[0] == NewLeaderMsg(p.requestCounter + 1, p.viewId)
            && (|r.conns[f].sent[1..]| == 2 ==> r.conns[f].sent[1].RequestMsg?)
            && 1 <= |r.conns[f].sent[1..]| <= 2
            && r.conns[f].sent[|r.conns[f].sent| - 1] == NewViewMsg(r.peer.viewId, r.peer.GroupMembers())
  {
    hide Recover, Answered;
    RecoverySends(p, reachable, answers, replies);
  }

  lemma TakeOverPeers(g: Group)
    requires GroupOk(g) && CrashPoint(g)
    ensures TakeOver(g).leader.me == Least(g.links.Keys) && TakeOver(g).links.Keys == OtherSurvivors(g)
    ensures forall f :: f in TakeOver(g).links ==>
              TakeOver(g).links[f].peer == AtCrash(g, f) && AtCrash(g, f).me == f
  {
    hide GroupOk, Drained;
    forall f | f in g.links ensures AtCrash(g, f).me == f {
      DrainedKeeps(g.links[f].peer, g.links[f].toPeer);
      assert g.links[f].peer.me == f by {
        MeOfFollower(g, f);
      }
    }
  }

  lemma MeOfFollower(g: Group, f: PeerId)
    requires GroupOk(g) && f in g.links
    ensures g.links[f].peer.me == f
  {
    assert LinkOk(g, f, g.links[f]);
  }

  // A survivor that reads what the new leader's program sends it, first who leads, becomes the follower of
  // the settled group.
  lemma RecoveryIsInstalled(g: Group, steps: seq<Step>, g': Group, replies: map<PeerId, seq<Msg>>, f: PeerId)
    requires Reachable(g) && CrashPoint(g) && QuietRun(TakeOver(g), steps, g') && Settled(g') && f in g'.links
    requires Recover(AtCrash(g, Least(g.links.Keys)), g.links.Keys, Reported(g), replies).outcome == Done
    ensures var n := Least(g.links.Keys);
            var r := Recover(AtCrash(g, n), g.links.Keys, Reported(g), replies);
            && f in g.links && f in r.conns && r.conns[f].sent != [] && r.conns[f].sent[0].NewLeaderMsg?
            && Drained(OnNewLeader(AtCrash(g, f), n), r.conns[f].sent[1..]) == g'.links[f].peer
  {
    hide GroupOk, Drained, Run, Recover, Reported, InRecovery, RemovalFound, Settled, Answered, TakeOver;
    var n := Least(g.links.Keys);
    var p := AtCrash(g, n);
    var r := Recover(p, g.links.Keys, Reported(g), replies);
    RecoveryRun(g, steps, g');
    TakeOverPeers(g);
    QuietRunKeepsCounters(TakeOver(g), steps, g');
    RecoveryOutcome(g, steps, g', replies);
    hide QuietRun, Reachable, CrashPoint;
    RecoverySends(p, g.links.Keys, Reported(g), replies);
    SettledPeer(g', f);
    RecoveryNews(p, g.links.Keys, Reported(g), replies, f);
    ReadsView(OnNewLeader(AtCrash(g, f), n), r.conns[f].sent[1..], r.peer.viewId, r.peer.GroupMembers());
  }
}
