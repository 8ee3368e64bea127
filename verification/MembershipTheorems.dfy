/** What the membership service guarantees in every reachable group. */
module MembershipTheorems {
  import opened Memberships
  import opened MembershipProtocol
  import opened MembershipInvariant

  // No CHECK fails, no unexpected message is read, and no client is ever missing.
  lemma NoCheckFails(g: Group)
    requires Reachable(g)
    ensures !g.phase.Aborted? && forall f :: f in g.links ==> !g.links[f].aborted
    ensures forall f ::
              Enabled(g, Ask(f)) || Enabled(g, TakeOk(f)) || Enabled(g, Announce(f)) || Enabled(g, TakePending(f)) ==>
              f in g.clients
    ensures forall f :: Enabled(g, TakeOk(f)) ==>
              g.links[f].toLeader[0] == OkMsg(g.phase.q.requestId, g.links[f].peer.viewId)
    ensures forall f :: Enabled(g, TakePending(f)) ==>
              g.links[f].toLeader[0] ==
              RequestMsg(g.links[f].peer.pending.(currentViewId := g.links[f].peer.viewId))
  {
    hide RecoveryOk, ViewsOk, LinkInPhase, HistoryOk;
    ReachableIsOk(g);
    forall f | f in g.links ensures !g.links[f].aborted {
      assert LinkOk(g, f, g.links[f]);
    }
    forall f | Enabled(g, TakeOk(f))
      ensures g.links[f].toLeader[0] == OkMsg(g.phase.q.requestId, g.links[f].peer.viewId)
    {
      TakesOk(g, f);
    }
    forall f | Enabled(g, TakePending(f)) ensures g.links[f].toLeader[0] == PendingFor(g.links[f].peer) {
      TakesPending(g, f);
    }
  }

  // When the leader raises its view id, every member that stays has agreed to this very request; and
  // unless the leader is completing an inherited removal, each holds the view that ends.
  lemma CommitPoint(g: Group, f: PeerId)
    requires Reachable(g) && Enabled(g, AllAgreed) && f in g.leader.alive
    ensures f in g.links && g.links[f].peer.pending == g.phase.q && Silent(g.links[f])
    ensures g.views != [] ==>
              g.links[f].peer.viewId == g.leader.viewId && g.links[f].peer.GroupMembers() == NewestView(g.views).members
    ensures g.leader.viewId - 1 <= g.links[f].peer.viewId <= g.leader.viewId
    ensures Apply(g, AllAgreed).leader.viewId == g.leader.viewId + 1
  {
    hide RecoveryOk;
    ReachableIsOk(g);
    assert f in g.links;
    assert LinkOk(g, f, g.links[f]);
  }

  // The views a follower has installed under this leader are a contiguous block of the leader's own,
  // and its fields are those of the last of them.
  lemma InstalledBlock(g: Group, f: PeerId)
    requires Reachable(g) && f in g.links
    ensures var l := g.links[f];
            var n := l.join + |l.installed|;
            && n <= |g.views| && l.installed == g.views[l.join..n]
            && (l.installed != [] ==>
                  l.peer.viewId == g.views[n - 1].id == g.views[0].id + n - 1
                  && l.peer.GroupMembers() == g.views[n - 1].members)
  {
    ReachableIsOk(g);
    var l := g.links[f];
    assert LinkOk(g, f, l);
    if l.installed != [] {
      assert f in g.views[l.join + |l.installed| - 1].members;
    }
  }

  // Within the reign of one leader a view id determines the members, whoever has installed it and whenever.
  lemma ViewAgreement(g: Group, f1: PeerId, f2: PeerId, i: nat, j: nat)
    requires Reachable(g) && f1 in g.links && f2 in g.links
    requires i < |g.links[f1].installed| && j < |g.links[f2].installed|
    requires g.links[f1].installed[i].id == g.links[f2].installed[j].id
    ensures g.links[f1].installed[i] == g.links[f2].installed[j]
  {
    hide PhaseOk, RecoveryOk, LinksOk;
    ReachableIsOk(g);
    InstalledBlock(g, f1);
    InstalledBlock(g, f2);
    var l1, l2 := g.links[f1], g.links[f2];
    assert l1.installed[i] == g.views[l1.join + i] && l2.installed[j] == g.views[l2.join + j];
    assert g.views[l1.join + i].id == g.views[0].id + l1.join + i;
    assert g.views[l2.join + j].id == g.views[0].id + l2.join + j;
  }

  // So members that hold the same view of this leader have the same group.
  lemma SameViewSameGroup(g: Group, f1: PeerId, f2: PeerId)
    requires Reachable(g) && f1 in g.links && f2 in g.links
    requires g.links[f1].installed != [] && g.links[f2].installed != []
    requires g.links[f1].peer.viewId == g.links[f2].peer.viewId
    ensures g.links[f1].peer.GroupMembers() == g.links[f2].peer.GroupMembers()
    ensures g.views != [] && (g.links[f1].peer.viewId == g.leader.viewId ==>
              g.links[f1].peer.GroupMembers() == g.views[|g.views| - 1].members)
  {
    hide PhaseOk, RecoveryOk, LinksOk;
    ReachableIsOk(g);
    InstalledBlock(g, f1);
    InstalledBlock(g, f2);
  }

  // No follower is more than one of the leader's views behind. Once it has installed one, its view id is
  // the leader's or one less; a survivor of a failover that has not may be two less (LagAfterFailover).
  lemma LagIsBounded(g: Group, f: PeerId)
    requires Reachable(g) && f in g.links
    ensures 0 <= Behind(g.views, g.links[f]) <= 1
    ensures g.links[f].installed != [] ==> g.leader.viewId - 1 <= g.links[f].peer.viewId <= g.leader.viewId
    ensures g.links[f].installed == [] && g.links[f].join == 0 ==>
              g.leader.viewId - 2 <= g.links[f].peer.viewId <= g.leader.viewId
  {
    hide RecoveryOk;
    ReachableIsOk(g);
    InstalledBlock(g, f);
    assert LinkOk(g, f, g.links[f]);
  }

  /* ----- view ids ----- */

  predicate Up(g: Group, f: PeerId) {
    f == g.leader.me || f in g.links
  }

  function PeerOf(g: Group, f: PeerId): Peer
    requires Up(g, f)
  {
    if f == g.leader.me then g.leader else g.links[f].peer
  }

  lemma ReceiveRaisesViewId(g: Group, f: PeerId)
    requires GroupOk(g) && Enabled(g, Receive(f))
    ensures g.links[f].peer.viewId <= FollowerReceive(g.links[f], g.leader.me).peer.viewId
  {
    hide PhaseOk, RecoveryOk, LinkInPhase;
    var l := g.links[f];
    assert LinkOk(g, f, l);
    if l.toPeer[0].NewViewMsg? && !l.orphan {
      ReceivedIsNewest(g, f);
    }
  }

  lemma CrashRaisesViewId(g: Group, f: PeerId)
    requires GroupOk(g) && CrashPoint(g) && f in g.links
    ensures g.links[f].peer.viewId <= Drained(g.links[f].peer, g.links[f].toPeer).viewId
  {
    hide PhaseOk, RecoveryOk, LinkInPhase, Drained;
    DrainedFollower(g, f);
    UnderWay(g, f);
    assert LinkOk(g, f, g.links[f]);
  }

  lemma StepRaisesViewId(g: Group, step: Step, f: PeerId)
    requires GroupOk(g) && Enabled(g, step) && Up(g, f) && Up(Apply(g, step), f)
    ensures PeerOf(g, f).viewId <= PeerOf(Apply(g, step), f).viewId
  {
    hide PhaseOk, RecoveryOk, LinksOk, FollowerReceive, Drained;
    if step.Receive? {
      ReceiveRaisesViewId(g, step.f);
    } else if step.LeaderCrash? {
      TakeOverLeader(g);
      if f in g.links {
        CrashRaisesViewId(g, f);
      }
    }
  }

  // A run during which the peer does not crash.
  ghost predicate RunWithUp(g: Group, steps: seq<Step>, g': Group, f: PeerId)
    decreases |steps|
  {
    Up(g, f) &&
    if steps == [] then
      g == g'
    else
      Enabled(g, steps[0]) && RunWithUp(Apply(g, steps[0]), steps[1..], g', f)
  }

  // The view id of a peer never falls while it is up: not by a change, not by a crash of its leader, not
  // by becoming the leader itself.
  lemma {:induction false} ViewIdNeverFalls(g: Group, steps: seq<Step>, g': Group, f: PeerId)
    requires Reachable(g) && RunWithUp(g, steps, g', f)
    ensures Up(g', f) && PeerOf(g, f).viewId <= PeerOf(g', f).viewId
  {
    ReachableIsOk(g);
    OkViewIdNeverFalls(g, steps, g', f);
  }

  lemma {:induction false} OkViewIdNeverFalls(g: Group, steps: seq<Step>, g': Group, f: PeerId)
    requires GroupOk(g) && RunWithUp(g, steps, g', f)
    ensures Up(g', f) && PeerOf(g, f).viewId <= PeerOf(g', f).viewId
    decreases |steps|
  {
    hide GroupOk, Apply, Enabled;
    if steps != [] {
      StepKeepsOk(g, steps[0]);
      OkViewIdNeverFalls(Apply(g, steps[0]), steps[1..], g', f);
      StepRaisesViewId(g, steps[0], f);
    }
  }

  /* ----- request ids ----- */

  // The steps that make a request.
  ghost predicate MakesRequest(g: Group, step: Step) {
    Enabled(g, step) && (step.Join? || step.Remove? || (step.Decide? && !g.phase.found.operation.Nothing?))
  }

  lemma CounterGrows(g: Group, step: Step)
    requires Enabled(g, step) && !step.LeaderCrash?
    ensures g.leader.requestCounter <= Apply(g, step).leader.requestCounter
    ensures MakesRequest(g, step) ==>
              && Apply(g, step).phase.Asking?
              && g.leader.requestCounter < Apply(g, step).phase.q.requestId <= Apply(g, step).leader.requestCounter
  {
  }

  lemma {:induction false} CounterNeverFalls(g: Group, steps: seq<Step>, g': Group)
    requires Run(g, steps, g') && LeaderCrash !in steps
    ensures g.leader.requestCounter <= g'.leader.requestCounter
    decreases |steps|
  {
    hide Apply, Enabled;
    if steps != [] {
      CounterGrows(g, steps[0]);
      CounterNeverFalls(Apply(g, steps[0]), steps[1..], g');
    }
  }

  // No two requests of one leader have the same id, so an Ok for one is never taken for an Ok for another.
  lemma RequestIdsDiffer(g: Group, first: Step, steps: seq<Step>, g': Group, second: Step)
    requires MakesRequest(g, first) && Run(Apply(g, first), steps, g') && LeaderCrash !in steps
    requires MakesRequest(g', second)
    ensures Apply(g, first).phase.Asking? && Apply(g', second).phase.Asking?
    ensures Apply(g, first).phase.q.requestId < Apply(g', second).phase.q.requestId
  {
    CounterGrows(g, first);
    CounterNeverFalls(Apply(g, first), steps, g');
    CounterGrows(g', second);
  }
}
