/** What becomes of the group after a crash of its leader. */
module MembershipFailover {
  import opened FiniteSets
  import opened Memberships
  import opened MembershipProtocol
  import opened MembershipInvariant

  // Joins, crashes, and the removal of a crashed peer start something; every other step continues it.
  predicate IsEvent(step: Step) {
    step.Join? || step.PeerCrash? || step.Remove? || step.LeaderCrash?
  }

  ghost predicate QuietRun(g: Group, steps: seq<Step>, g': Group) {
    Run(g, steps, g') && forall i :: 0 <= i < |steps| ==> !IsEvent(steps[i])
  }

  // Nothing is left to be done.
  predicate Settled(g: Group) {
    g.phase.Idle? && forall f :: f in g.links ==> g.links[f].toPeer == []
  }

  // What a survivor has become when it has read all that its crashed leader sent.
  function AtCrash(g: Group, f: PeerId): Peer
    requires f in g.links
  {
    Drained(g.links[f].peer, g.links[f].toPeer)
  }

  predicate Reports(g: Group, f: PeerId) {
    f in g.links && !AtCrash(g, f).pending.operation.Nothing?
  }

  // The last message read decides what is pending.
  lemma {:induction false} LastDecides(p: Peer, msgs: seq<Msg>)
    requires forall i :: 0 <= i < |msgs| ==> msgs[i].RequestMsg? || msgs[i].NewViewMsg?
    ensures Drained(p, msgs).pending ==
            if msgs == [] then p.pending
            else if msgs[|msgs| - 1].RequestMsg? then msgs[|msgs| - 1].request else NO_REQUEST
    decreases |msgs|
  {
    if msgs != [] {
      LastDecides(Took(p, msgs[0]), msgs[1..]);
    }
  }

  // A survivor reports the removal under way exactly when it was asked and has not been told the new view.
  lemma WhoReports(g: Group, f: PeerId)
    requires GroupOk(g) && CrashPoint(g) && f in g.links
    ensures Reports(g, f) <==>
              match g.phase
              case Asking(_, todo) => f !in todo
              case Gathering(_, _) => true
              case Announcing(_, todo) => f in todo
              case _ => false
    ensures Reports(g, f) ==> !g.phase.Idle? && g.phase.q.operation.Del? && AtCrash(g, f).pending == g.phase.q
  {
    hide RecoveryOk, ViewsOk, Drained;
    var l := g.links[f];
    assert LinkOk(g, f, l);
    LastDecides(l.peer, l.toPeer);
  }

  // The new leader finishes the removal when somebody else than it reports one.
  ghost predicate RemovalFound(g: Group)
    requires g.links != map[]
  {
    exists f :: f != Least(g.links.Keys) && Reports(g, f)
  }

  /* ----- a recovery ----- */

  // What all quiet steps of a recovery keep.
  ghost predicate InRecovery(g: Group, leader: PeerId, followers: set<PeerId>, recovery: Recovery) {
    && g.leader.me == leader && g.links.Keys == followers && g.recovery == recovery
    && recovery.Recovery? && g.down == {}
    && if g.phase.Idle? || g.phase.Announcing? then |g.views| == 1 else g.views == []
  }

  lemma QuietStepKeepsRecovery(g: Group, step: Step, leader: PeerId, followers: set<PeerId>, recovery: Recovery)
    requires GroupOk(g) && Enabled(g, step) && !IsEvent(step) && InRecovery(g, leader, followers, recovery)
    ensures InRecovery(Apply(g, step), leader, followers, recovery)
  {
    hide RecoveryOk, LinksOk, FollowerReceive;
    match step
    case TakeOk(f) => TakesOk(g, f);
    case TakePending(f) => TakesPending(g, f);
    case _ =>
  }

  lemma {:induction false} QuietRunKeepsRecovery(g: Group, steps: seq<Step>, g': Group,
                                                 leader: PeerId, followers: set<PeerId>, recovery: Recovery)
    requires GroupOk(g) && QuietRun(g, steps, g') && InRecovery(g, leader, followers, recovery)
    ensures GroupOk(g') && InRecovery(g', leader, followers, recovery)
    decreases |steps|
  {
    hide GroupOk, Apply, Enabled, InRecovery;
    if steps != [] {
      assert !IsEvent(steps[0]);
      StepKeepsOk(g, steps[0]);
      QuietStepKeepsRecovery(g, steps[0], leader, followers, recovery);
      QuietRunKeepsRecovery(Apply(g, steps[0]), steps[1..], g', leader, followers, recovery);
    }
  }

  lemma ReportsAreRecorded(g: Group)
    requires CrashPoint(g)
    ensures var reports := TakeOver(g).recovery.reports;
            SomeReport(reports, reports.Keys) <==> RemovalFound(g)
  {
    hide Drained;
    var reports := TakeOver(g).recovery.reports;
    if SomeReport(reports, reports.Keys) {
      var f :| f in reports.Keys && f in reports && !reports[f].operation.Nothing?;
      assert Reports(g, f);
    }
    if RemovalFound(g) {
      var f :| f != Least(g.links.Keys) && Reports(g, f);
      assert f in reports.Keys && reports[f] == AtCrash(g, f).pending;
    }
  }

  lemma TakeOverIsRecovery(g: Group)
    requires GroupOk(g) && CrashPoint(g)
    ensures var n := Least(g.links.Keys);
            && GroupOk(TakeOver(g))
            && InRecovery(TakeOver(g), n, g.links.Keys - {n}, TakeOver(g).recovery)
            && TakeOver(g).recovery.base == AtCrash(g, n).viewId
  {
    hide GroupOk, Drained;
    LeaderCrashKeepsOk(g);
    TakeOverLeader(g);
  }

  lemma RecoveryRun(g0: Group, steps: seq<Step>, g: Group)
    requires Reachable(g0) && CrashPoint(g0) && QuietRun(TakeOver(g0), steps, g)
    ensures GroupOk(g0) && GroupOk(g)
    ensures var n := Least(g0.links.Keys);
            var recovery := TakeOver(g0).recovery;
            && InRecovery(g, n, g0.links.Keys - {n}, recovery)
            && recovery.base == AtCrash(g0, n).viewId
            && (SomeReport(recovery.reports, recovery.reports.Keys) <==> RemovalFound(g0))
  {
    hide GroupOk, InRecovery, QuietRun;
    ReachableIsOk(g0);
    TakeOverIsRecovery(g0);
    ReportsAreRecorded(g0);
    var n := Least(g0.links.Keys);
    QuietRunKeepsRecovery(TakeOver(g0), steps, g, n, g0.links.Keys - {n}, TakeOver(g0).recovery);
  }

  // Once the recovery has settled, the survivors and nobody else form the group, all hold the same view,
  // and its id is that of the new leader at the crash, one more iff another survivor reported a removal.
  lemma FailoverConverges(g: Group, steps: seq<Step>, g': Group)
    requires Reachable(g) && CrashPoint(g) && QuietRun(TakeOver(g), steps, g') && Settled(g')
    ensures var n := Least(g.links.Keys);
            && g'.leader.me == n && g'.links.Keys == g.links.Keys - {n}
            && g'.leader.viewId == AtCrash(g, n).viewId + (if RemovalFound(g) then 1 else 0)
            && g'.leader.GroupMembers() == g.links.Keys
            && forall f :: f in g'.links ==>
                 && g'.links[f].peer.viewId == g'.leader.viewId
                 && g'.links[f].peer.GroupMembers() == g.links.Keys
                 && g'.links[f].peer.pending == NO_REQUEST && g'.links[f].peer.leader == n
  {
    hide Drained, GroupOk, RemovalFound;
    var n := Least(g.links.Keys);
    RecoveryRun(g, steps, g');
    SettledRecovery(g', n, g.links.Keys - {n}, TakeOver(g).recovery);
    assert g.links.Keys - {n} + {n} == g.links.Keys;
  }

  lemma SettledRecovery(g: Group, leader: PeerId, followers: set<PeerId>, recovery: Recovery)
    requires GroupOk(g) && InRecovery(g, leader, followers, recovery) && Settled(g)
    ensures g.leader.viewId == recovery.base + if SomeReport(recovery.reports, recovery.reports.Keys) then 1 else 0
    ensures g.leader.GroupMembers() == followers + {leader}
    ensures forall f :: f in g.links ==>
              && g.links[f].peer.viewId == g.leader.viewId
              && g.links[f].peer.GroupMembers() == followers + {leader}
              && g.links[f].peer.pending == NO_REQUEST && g.links[f].peer.leader == leader
  {
    forall f | f in g.links
      ensures && g.links[f].peer.viewId == g.leader.viewId
              && g.links[f].peer.GroupMembers() == followers + {leader}
              && g.links[f].peer.pending == NO_REQUEST && g.links[f].peer.leader == leader
    {
      assert LinkOk(g, f, g.links[f]);
    }
  }

  // The new leader's id: that of the view it held, one more once it has completed a removal it found.
  lemma LeaderIdInRecovery(g: Group, leader: PeerId, followers: set<PeerId>, recovery: Recovery)
    requires GroupOk(g) && InRecovery(g, leader, followers, recovery)
    ensures g.leader.viewId ==
            recovery.base + if g.views != [] && SomeReport(recovery.reports, recovery.reports.Keys) then 1 else 0
    ensures g.views != [] ==> g.views[0].id == g.leader.viewId
  {
    hide LinksOk, PhaseOk, RemovalOnly;
  }

  lemma FirstViewOfRecovery(g: Group, steps: seq<Step>, g': Group)
    requires Reachable(g) && CrashPoint(g) && QuietRun(TakeOver(g), steps, g') && g'.views != []
    ensures var n := Least(g.links.Keys);
            && |g'.views| == 1
            && g'.views[0].id == AtCrash(g, n).viewId + (if RemovalFound(g) then 1 else 0)
            && g.leader.me !in g'.views[0].members
  {
    hide Drained, GroupOk, RemovalFound;
    var n := Least(g.links.Keys);
    RecoveryRun(g, steps, g');
    LeaderIdInRecovery(g', n, g.links.Keys - {n}, TakeOver(g).recovery);
    OldLeaderIsOut(g, n);
    ViewOfOne(g', g.leader.me);
  }

  lemma OldLeaderIsOut(g: Group, n: PeerId)
    requires GroupOk(g) && n in g.links
    ensures g.leader.me !in g.links && g.leader.me != n
  {
  }

  lemma ViewOfOne(g: Group, x: PeerId)
    requires GroupOk(g) && |g.views| == 1 && (g.phase.Idle? || g.phase.Announcing?)
    requires g.down == {} && x !in g.links && x != g.leader.me
    ensures x !in g.views[0].members
  {
    hide LinksOk, RecoveryOk;
  }

  // A recovery announces other members under an id that the crashed leader had used already, if and only
  // if it finds no removal to complete, or the crash came after the crashed leader had installed a view
  // and before it announced that view to the new leader: the removal then takes the same id once more.
  // Survivors have installed the id only in the first case.
  lemma ViewIdReused(g: Group, steps: seq<Step>, g': Group)
    requires Reachable(g) && CrashPoint(g) && QuietRun(TakeOver(g), steps, g') && g'.views != []
    ensures var n := Least(g.links.Keys);
            var v := g'.views[0];
            && ((exists i :: 0 <= i < |g.views| && g.views[i].id == v.id) <==>
                  !RemovalFound(g) || (g.phase.Announcing? && n in g.phase.todo))
            && (forall i :: 0 <= i < |g.views| && g.views[i].id == v.id ==> g.views[i].members != v.members)
            && ((exists f :: f in g.links && AtCrash(g, f).viewId == v.id) <==> !RemovalFound(g))
  {
    hide Drained, LinksOk, RecoveryOk, RemovalFound;
    ReachableIsOk(g);
    FirstViewOfRecovery(g, steps, g');
    var n := Least(g.links.Keys);
    var v := g'.views[0];
    DrainedFollower(g, n);
    var k := |g.views| - if g.phase.Announcing? && n in g.phase.todo then 2 else 1;
    if !RemovalFound(g) {
      assert g.views[k].id == v.id;
    } else if k + 1 < |g.views| {
      assert g.views[k + 1].id == v.id;
    }
    forall f | f in g.links ensures AtCrash(g, f).viewId <= AtCrash(g, n).viewId {
      NewLeaderIsNewest(g, f);
    }
  }

  /* ----- who is behind ----- */

  // Until it installs a view of the new leader, a survivor holds the view it had at the crash.
  ghost predicate Holds(g: Group, ids: map<PeerId, nat>) {
    forall f :: f in g.links && g.links[f].installed == [] ==> f in ids && g.links[f].peer.viewId == ids[f]
  }

  lemma QuietStepHolds(g: Group, step: Step, ids: map<PeerId, nat>)
    requires Enabled(g, step) && !IsEvent(step) && Holds(g, ids)
    ensures Holds(Apply(g, step), ids)
  {
  }

  lemma {:induction false} QuietRunHolds(g: Group, steps: seq<Step>, g': Group, ids: map<PeerId, nat>)
    requires QuietRun(g, steps, g') && Holds(g, ids)
    ensures Holds(g', ids)
    decreases |steps|
  {
    hide Apply, Enabled, Holds;
    if steps != [] {
      assert !IsEvent(steps[0]);
      QuietStepHolds(g, steps[0], ids);
      QuietRunHolds(Apply(g, steps[0]), steps[1..], g', ids);
    }
  }

  // The crash came between the announcement of a view to the new leader and that to this survivor.
  predicate MissedView(g: Group, f: PeerId)
    requires g.links != map[]
  {
    g.phase.Announcing? && f in g.phase.todo && Least(g.links.Keys) !in g.phase.todo
  }

  lemma InstalledInRecovery(g: Group, f: PeerId)
    requires GroupOk(g) && |g.views| <= 1 && f in g.links && g.links[f].installed != []
    ensures g.links[f].peer.viewId == g.leader.viewId
  {
    hide PhaseOk, RecoveryOk, LinkInPhase;
    assert LinkOk(g, f, g.links[f]);
  }

  lemma HoldsAtTakeOver(g: Group)
    requires g.links != map[]
    ensures Holds(TakeOver(g), map p | p in g.links :: AtCrash(g, p).viewId)
  {
    hide Drained;
  }

  // How far each survivor is behind the new leader, at every point of the recovery: one view if it missed
  // one at the crash, one more from the moment an inherited removal is committed, none once it has
  // installed the new leader's view.
  lemma LagAfterFailover(g0: Group, steps: seq<Step>, g: Group, f: PeerId)
    requires Reachable(g0) && CrashPoint(g0) && QuietRun(TakeOver(g0), steps, g) && f in g.links
    ensures f in g0.links
    ensures g.leader.viewId - g.links[f].peer.viewId ==
            if g.links[f].installed != [] then 0
            else (if MissedView(g0, f) then 1 else 0) + (if g.views != [] && RemovalFound(g0) then 1 else 0)
  {
    hide Drained, RemovalFound, GroupOk, QuietRun;
    var n := Least(g0.links.Keys);
    RecoveryRun(g0, steps, g);
    LeaderIdInRecovery(g, n, g0.links.Keys - {n}, TakeOver(g0).recovery);
    if g.links[f].installed != [] {
      InstalledInRecovery(g, f);
    } else {
      HoldsAtTakeOver(g0);
      QuietRunHolds(TakeOver(g0), steps, g, map p | p in g0.links :: AtCrash(g0, p).viewId);
      NewLeaderIsNewest(g0, f);
    }
  }

  // So the commit point of an inherited removal finds a member two views behind, if and only if that
  // member missed a view at the crash.
  lemma CommitPointOfRecovery(g0: Group, steps: seq<Step>, g: Group, f: PeerId)
    requires Reachable(g0) && CrashPoint(g0) && QuietRun(TakeOver(g0), steps, g)
    requires g.views == [] && Enabled(g, AllAgreed) && f in g.leader.alive
    ensures f in g.links && RemovalFound(g0)
    ensures Apply(g, AllAgreed).leader.viewId == g.links[f].peer.viewId + if MissedView(g0, f) then 2 else 1
  {
    hide Drained, RemovalFound, QuietRun, GroupOk;
    RecoveryRun(g0, steps, g);
    CommitsRemoval(g, f);
    LagAfterFailover(g0, steps, g, f);
  }

  lemma CommitsRemoval(g: Group, f: PeerId)
    requires GroupOk(g) && g.recovery.Recovery? && g.views == [] && Enabled(g, AllAgreed) && f in g.leader.alive
    ensures f in g.links && g.links[f].installed == []
    ensures SomeReport(g.recovery.reports, g.recovery.reports.Keys)
  {
    assert f in g.links;
    assert LinkOk(g, f, g.links[f]);
  }
}
