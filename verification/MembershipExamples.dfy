/** Reachable groups in which a failover does what a reader may not expect. */
module MembershipExamples {
  import opened FiniteSets
  import opened Memberships
  import opened MembershipProtocol
  import opened MembershipInvariant
  import opened MembershipFailover
  import opened MembershipProgress

  /* ----- ways to a state ----- */

  // A settled group of one leader that has not yet failed, with these followers.
  ghost predicate Settling(g: Group, leader: PeerId, followers: set<PeerId>) {
    g.leader.me == leader && g.links.Keys == followers && g.down == {} && g.recovery.FirstLeader?
  }

  lemma QuietStepKeepsPeers(g: Group, step: Step, leader: PeerId, followers: set<PeerId>)
    requires Enabled(g, step) && !IsEvent(step) && Settling(g, leader, followers)
    ensures Settling(Apply(g, step), leader, followers)
  {
    hide FollowerReceive;
  }

  lemma {:induction false} QuietRunKeepsPeers(g: Group, steps: seq<Step>, g': Group,
      leader: PeerId, followers: set<PeerId>)
    requires QuietRun(g, steps, g') && Settling(g, leader, followers)
    ensures Settling(g', leader, followers)
    decreases |steps|
  {
    hide Apply, Enabled, Settling;
    if steps != [] {
      assert !IsEvent(steps[0]);
      QuietStepKeepsPeers(g, steps[0], leader, followers);
      QuietRunKeepsPeers(Apply(g, steps[0]), steps[1..], g', leader, followers);
    }
  }

  // A settled group can take in any peer, and settles again.
  lemma CanJoin(g: Group, leader: PeerId, followers: set<PeerId>, x: PeerId) returns (g': Group)
    requires Reachable(g) && Settled(g) && Settling(g, leader, followers) && x !in followers && x != leader
    ensures Reachable(g') && Settled(g') && Settling(g', leader, followers + {x})
  {
    hide GroupOk;
    var g1 := Apply(g, Join(x));
    StepStaysReachable(g, Join(x));
    ReachableIsOk(g1);
    var steps;
    steps, g' := SettlesFrom(g1);
    QuietRunKeepsPeers(g1, steps, g', leader, followers + {x});
    RunStaysReachable(g1, steps, g');
  }

  // From the request on, a change gets to the point where all have agreed.
  lemma {:induction false} ReachAgreement(g: Group) returns (steps: seq<Step>, g': Group)
    requires GroupOk(g) && (g.phase.Asking? || g.phase.Gathering?)
    ensures QuietRun(g, steps, g') && GroupOk(g') && Enabled(g', AllAgreed)
    ensures g'.phase.q == g.phase.q && g'.leader == g.leader && g'.views == g.views
    ensures g'.links.Keys == g.links.Keys && g'.down == g.down && g'.recovery == g.recovery
    decreases Work(g)
  {
    hide GroupOk, Work, Settled;
    if Enabled(g, AllAgreed) {
      steps, g' := [], g;
    } else {
      NotSettled(g);
      var step := NotStuck(g);
      QuietStepIsProgress(g, step);
      StepKeepsOk(g, step);
      TowardsAgreement(g, step);
      hide Apply;
      var rest;
      rest, g' := ReachAgreement(Apply(g, step));
      RunCons(g, step, rest, g');
      steps := [step] + rest;
    }
  }

  lemma NotSettled(g: Group)
    requires !g.phase.Idle?
    ensures !Settled(g)
  {
  }

  lemma TowardsAgreement(g: Group, step: Step)
    requires GroupOk(g) && Enabled(g, step) && !IsEvent(step) && step != AllAgreed
    requires g.phase.Asking? || g.phase.Gathering?
    ensures var g' := Apply(g, step);
            && (g'.phase.Asking? || g'.phase.Gathering?) && g'.phase.q == g.phase.q && g'.leader == g.leader
            && g'.views == g.views && g'.links.Keys == g.links.Keys && g'.down == g.down && g'.recovery == g.recovery
  {
    hide GroupOk, FollowerReceive;
    if step.TakeOk? {
      TakesOk(g, step.f);
    }
  }

  // A recovery that has found a removal gets to the point where it asks for it.
  lemma {:induction false} ReachRequest(g: Group, leader: PeerId, followers: set<PeerId>, recovery: Recovery)
    returns (steps: seq<Step>, g': Group)
    requires GroupOk(g) && InRecovery(g, leader, followers, recovery)
    requires SomeReport(recovery.reports, recovery.reports.Keys)
    requires g.phase.Greeting? || g.phase.Collecting? || (g.phase.Asking? && g.views == [])
    ensures QuietRun(g, steps, g') && GroupOk(g') && InRecovery(g', leader, followers, recovery)
    ensures g'.phase.Asking? && g'.views == []
    decreases Work(g)
  {
    hide GroupOk, Work, Settled, InRecovery, Enabled;
    if g.phase.Asking? {
      steps, g' := [], g;
    } else {
      NotSettled(g);
      var step := NotStuck(g);
      QuietStepIsProgress(g, step);
      StepKeepsOk(g, step);
      QuietStepKeepsRecovery(g, step, leader, followers, recovery);
      TowardsRequest(g, step, leader, followers, recovery);
      hide Apply;
      var rest;
      rest, g' := ReachRequest(Apply(g, step), leader, followers, recovery);
      RunCons(g, step, rest, g');
      steps := [step] + rest;
    }
  }

  lemma TowardsRequest(g: Group, step: Step, leader: PeerId, followers: set<PeerId>, recovery: Recovery)
    requires GroupOk(g) && InRecovery(g, leader, followers, recovery)
    requires SomeReport(recovery.reports, recovery.reports.Keys)
    requires (g.phase.Greeting? || g.phase.Collecting?) && Enabled(g, step) && !IsEvent(step)
    ensures var g' := Apply(g, step);
            g'.phase.Greeting? || g'.phase.Collecting? || (g'.phase.Asking? && g'.views == [])
  {
    hide LinksOk, FollowerReceive;
    if step.TakePending? {
      TakesPending(g, step.f);
    } else if step.Decide? {
      assert recovery.reports.Keys - {} == recovery.reports.Keys;
    }
  }

  /* ----- groups with leader 1 ----- */

  lemma OneFollower() returns (g: Group)
    ensures Reachable(g) && Settled(g) && Settling(g, 1, {2})
  {
    var g0 := InitGroup(1);
    assert Run(g0, [], g0);
    g := CanJoin(g0, 1, {}, 2);
    assert {} + {2} == {2};
  }

  lemma ThreeFollowers() returns (g: Group)
    ensures Reachable(g) && Settled(g) && Settling(g, 1, {2, 3, 4})
  {
    hide Settled, Settling, Reachable;
    var g1 := OneFollower();
    var g2 := CanJoin(g1, 1, {2}, 3);
    assert {2} + {3} == {2, 3};
    g := CanJoin(g2, 1, {2, 3}, 4);
    assert {2, 3} + {4} == {2, 3, 4};
  }

  // Peer 4 has crashed, and 2 and 3 have agreed to its removal.
  lemma RemovalAgreed() returns (g: Group)
    ensures Reachable(g) && Settling(g, 1, {2, 3}) && Enabled(g, AllAgreed)
    ensures g.phase.q.operation.Del? && g.leader.alive == {2, 3} && g.views != []
  {
    hide GroupOk, Reachable;
    var g0 := ThreeFollowers();
    var g1 := Apply(g0, PeerCrash(4));
    assert {2, 3, 4} - {4} == {2, 3};
    var g2 := Apply(g1, Remove(4));
    StepStaysReachable(g0, PeerCrash(4));
    StepStaysReachable(g1, Remove(4));
    ReachableIsOk(g2);
    RemovalAsks(g2);
    var steps;
    steps, g := ReachAgreement(g2);
    RunStaysReachable(g2, steps, g);
  }

  lemma RemovalAsks(g: Group)
    requires GroupOk(g) && g.phase.Asking? && g.phase.q.operation.Del? && g.recovery.FirstLeader?
    ensures g.leader.alive == g.links.Keys && g.views != []
  {
  }

  // Peer 1 has installed the view without 4, and told nobody.
  lemma Unannounced() returns (g: Group)
    ensures Reachable(g) && g.links.Keys == {2, 3} && CrashPoint(g) && g.phase.Announcing? && g.phase.todo == {2, 3}
    ensures Least(g.links.Keys) == 2
  {
    hide Reachable;
    var g0 := RemovalAgreed();
    g := Apply(g0, AllAgreed);
    StepStaysReachable(g0, AllAgreed);
    assert 2 in {2, 3} && Least({2, 3}) <= 2;
  }

  // Peer 1 has told 2, but not 3.
  lemma HalfAnnounced() returns (g: Group)
    ensures Reachable(g) && g.links.Keys == {2, 3} && CrashPoint(g) && MissedView(g, 3)
    ensures Least(g.links.Keys) == 2
  {
    hide Reachable;
    var g0 := Unannounced();
    ReachableIsOk(g0);
    assert IsLeast(2, g0.phase.todo);
    g := Apply(g0, Announce(2));
    AnnouncesView(g0);
    StepStaysReachable(g0, Announce(2));
    assert g.links.Keys == {2, 3};
  }

  lemma AnnouncesView(g: Group)
    requires GroupOk(g) && g.phase.Announcing?
    ensures g.views != [] && g.links.Keys <= g.clients
  {
  }

  /* ----- what they do when the leader crashes ----- */

  // An id used again: nothing was under way, and the new leader announces other members under the id
  // of the view that all have.
  lemma IdUsedAgain() returns (g: Group, steps: seq<Step>, g': Group)
    ensures Reachable(g) && CrashPoint(g) && QuietRun(TakeOver(g), steps, g') && g'.views != []
    ensures !RemovalFound(g)
    ensures exists i :: 0 <= i < |g.views| &&
              g.views[i].id == g'.views[0].id && g.views[i].members != g'.views[0].members
  {
    hide Reachable, GroupOk, TakeOver, QuietRun;
    g := OneFollower();
    ReachableIsOk(g);
    IdleIsCrashPoint(g);
    steps, g' := Recovers(g);
    if RemovalFound(g) {
      var f :| f != Least(g.links.Keys) && Reports(g, f);
      WhoReports(g, f);
    }
    ViewIdReused(g, steps, g');
  }

  lemma IdleIsCrashPoint(g: Group)
    requires GroupOk(g) && g.phase.Idle? && g.links != map[]
    ensures CrashPoint(g)
  {
  }

  // Every recovery can be carried through to the new leader's first view.
  lemma Recovers(g: Group) returns (steps: seq<Step>, g': Group)
    requires Reachable(g) && CrashPoint(g)
    ensures QuietRun(TakeOver(g), steps, g') && Settled(g') && g'.views != []
  {
    hide GroupOk;
    ReachableIsOk(g);
    LeaderCrashKeepsOk(g);
    steps, g' := SettlesFrom(TakeOver(g));
    RecoveryRun(g, steps, g');
  }

  // An id used again although a removal is completed: the crashed leader had used it and told nobody.
  lemma UnannouncedIdUsedAgain() returns (g: Group, steps: seq<Step>, g': Group)
    ensures Reachable(g) && CrashPoint(g) && QuietRun(TakeOver(g), steps, g') && g'.views != []
    ensures RemovalFound(g)
    ensures exists i :: 0 <= i < |g.views| &&
              g.views[i].id == g'.views[0].id && g.views[i].members != g'.views[0].members
  {
    hide Reachable, GroupOk, TakeOver, QuietRun;
    g := Unannounced();
    ReachableIsOk(g);
    steps, g' := Recovers(g);
    assert 3 in g.links.Keys;
    WhoReports(g, 3);
    assert RemovalFound(g);
    ViewIdReused(g, steps, g');
  }

  // A survivor that missed a view: when the new leader completes the removal, 3 is two views behind.
  lemma LagOfTwo() returns (g0: Group, steps: seq<Step>, g: Group)
    ensures Reachable(g0) && CrashPoint(g0) && QuietRun(TakeOver(g0), steps, g)
    ensures g.views == [] && Enabled(g, AllAgreed) && 3 in g.leader.alive && 3 in g.links
    ensures Apply(g, AllAgreed).leader.viewId == g.links[3].peer.viewId + 2
  {
    hide Reachable, GroupOk, Apply, Drained, InRecovery;
    g0 := HalfAnnounced();
    ReachableIsOk(g0);
    var n := Least(g0.links.Keys);
    assert 3 in g0.links.Keys;
    WhoReports(g0, 3);
    assert RemovalFound(g0);
    TakeOverIsRecovery(g0);
    ReportsAreRecorded(g0);
    var a, g1 := ReachRequest(TakeOver(g0), n, g0.links.Keys - {n}, TakeOver(g0).recovery);
    var b;
    b, g := ReachAgreement(g1);
    steps := a + b;
    RunConcat(TakeOver(g0), a, g1, b, g);
    RecoveryRun(g0, steps, g);
    RecoveryAsksAll(g, n, g0.links.Keys - {n}, TakeOver(g0).recovery);
    CommitPointOfRecovery(g0, steps, g, 3);
  }

  lemma RecoveryAsksAll(g: Group, leader: PeerId, followers: set<PeerId>, recovery: Recovery)
    requires GroupOk(g) && InRecovery(g, leader, followers, recovery) && g.phase.Gathering?
    ensures g.leader.alive == followers
  {
    hide LinksOk;
  }
}
