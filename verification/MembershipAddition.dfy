/** The crash of a leader while it asks for the addition of a peer: what the new leader's recovery does. */
module MembershipAddition {
  import opened FiniteSets
  import opened Memberships
  import opened MembershipProtocol
  import opened MembershipInvariant
  import opened MembershipFailover
  import opened MembershipExamples

  // The leader is asking its members about a new peer.
  predicate AddPoint(g: Group) {
    && g.views != [] && (g.phase.Asking? || g.phase.Gathering?) && g.phase.q.operation.Add?
    && g.leader.alive <= g.links.Keys && g.links != map[]
  }

  // One of the members leads after it, not the new peer.
  predicate MemberLeads(g: Group)
    requires AddPoint(g)
  {
    Least(g.links.Keys) in g.leader.alive
  }

  predicate AskedAt(g: Group, f: PeerId)
    requires AddPoint(g)
  {
    g.phase.Gathering? || f !in g.phase.todo
  }

  // What may be under way to a member.
  lemma UnderWayToMember(g: Group, f: PeerId)
    requires LinksOk(g) && AddPoint(g) && f in g.leader.alive
    ensures f in g.links
    ensures var l := g.links[f];
            && l.peer.me == f && l.peer.leader == g.leader.me && HistoryOk(g.views, l) && l.join < |g.views|
            && if AskedAt(g, f) then
                 || (l.toPeer == [] && Behind(g.views, l) == 0 && l.peer.pending == g.phase.q)
                 || (l.toPeer == [RequestMsg(g.phase.q)] && Behind(g.views, l) == 0)
                 || (l.toPeer == [ViewMsg(NewestView(g.views)), RequestMsg(g.phase.q)] && Behind(g.views, l) == 1)
               else
                 || (l.toPeer == [] && Behind(g.views, l) == 0 && l.peer.pending == NO_REQUEST)
                 || (l.toPeer == [ViewMsg(NewestView(g.views))] && Behind(g.views, l) == 1)
  {
    hide HistoryOk;
    assert f in g.links.Keys;
    assert LinkOk(g, f, g.links[f]);
    if g.links[f].installed == [] && g.links[f].toPeer == [] {
      HistoryStarts(g.views, g.links[f]);
    }
  }

  lemma HistoryStarts(views: seq<View>, l: Link)
    requires Behind(views, l) == 0 && l.installed == []
    ensures l.join == |views|
  {
  }

  // A member that has read all its leader sent holds the newest view; the addition is pending iff it was asked.
  lemma MemberAtCrash(g: Group, f: PeerId)
    requires GroupOk(g) && AddPoint(g) && f in g.leader.alive
    ensures f in g.links
    ensures var p := AtCrash(g, f);
            && p.me == f && p.leader == g.leader.me && p.viewId == NewestView(g.views).id
            && p.alive == NewestView(g.views).members - {f}
            && p.pending == if AskedAt(g, f) then g.phase.q else NO_REQUEST
  {
    hide RecoveryOk, ViewsOk, PhaseOk, LinksOk, AskedAt;
    UnderWayToMember(g, f);
    var l := g.links[f];
    if l.toPeer != [] {
      DrainedFew(l.peer, l.toPeer[0], l.toPeer[|l.toPeer| - 1]);
    }
  }

  lemma NewestIsLeaders(g: Group)
    requires GroupOk(g) && AddPoint(g)
    ensures NewestView(g.views).members == g.leader.alive + {g.leader.me} && NewestView(g.views).id == g.leader.viewId
    ensures g.phase.q.peerId !in g.leader.alive && g.leader.me !in g.leader.alive
  {
    hide LinksOk, RecoveryOk;
  }

  function OtherMembers(g: Group): set<PeerId>
    requires AddPoint(g)
  {
    g.leader.alive - {Least(g.links.Keys)}
  }

  // What the other members send the new leader.
  function Answers(g: Group): map<PeerId, seq<Msg>>
    requires AddPoint(g)
  {
    map f | f in OtherMembers(g) && f in g.links :: [PendingFor(AtCrash(g, f))]
  }

  predicate SomeoneAsked(g: Group)
    requires AddPoint(g)
  {
    exists f :: f in OtherMembers(g) && AskedAt(g, f)
  }

  // The new leader's connections once they have answered.
  function Answered(g: Group): Conns
    requires AddPoint(g)
  {
    var p := AtCrash(g, Least(g.links.Keys));
    Arrived(Greeted(OtherMembers(g), NewLeaderMsg(p.requestCounter + 1, p.viewId)), Answers(g))
  }

  lemma AnswerOf(g: Group, f: PeerId)
    requires GroupOk(g) && AddPoint(g) && f in OtherMembers(g)
    ensures f in Answered(g) && |Answered(g)[f].inbox| == 1 && HasPending(Answered(g), f)
    ensures var r := Answered(g)[f].inbox[0].request;
            if AskedAt(g, f) then r.operation.Add? && r.peerId == g.phase.q.peerId else r.operation.Nothing?
  {
    hide GroupOk, Drained;
    MemberAtCrash(g, f);
  }

  // What the new leader finds when it waits for them.
  lemma FindsAddition(g: Group)
    requires GroupOk(g) && AddPoint(g) && MemberLeads(g)
    ensures forall f :: f in OtherMembers(g) ==> HasPending(Answered(g), f)
    ensures var r := CollectPending(Answered(g), OtherMembers(g), NO_REQUEST);
            && r.outcome == Done && r.conns.Keys == OtherMembers(g)
            && (forall f :: f in r.conns ==> r.conns[f].inbox == [])
            && if SomeoneAsked(g) then r.found.operation.Add? && r.found.peerId == g.phase.q.peerId
               else r.found.operation.Nothing?
  {
    var waiting, others := Answered(g), OtherMembers(g);
    assert waiting.Keys == others;
    hide GroupOk, Drained, Answered, AskedAt, AddPoint, CollectPending, OtherMembers;
    forall f | f in others
      ensures HasPending(waiting, f) && |waiting[f].inbox| == 1
      ensures var r := waiting[f].inbox[0].request;
              if AskedAt(g, f) then r.operation.Add? && r.peerId == g.phase.q.peerId else r.operation.Nothing?
    {
      AnswerOf(g, f);
    }
    CollectKnown(waiting, Add, g.phase.q.peerId);
    if SomeoneAsked(g) {
      var f :| f in others && AskedAt(g, f);
      assert ReportsChange(waiting, others, f);
    }
  }

  // If a member leads, its recovery succeeds, and then leaves view and members as they are, if and only if
  // no other member was asked. Otherwise, when all agree to what it found, it raises its view id and then
  // fails: it has no client for the new peer.
  lemma MemberRecovers(g: Group, replies: map<PeerId, seq<Msg>>)
    requires Reachable(g) && AddPoint(g) && MemberLeads(g)
    ensures var p := AtCrash(g, Least(g.links.Keys));
            var r := Recover(p, g.leader.alive, Answers(g), replies);
            && (r.outcome == Done <==> !SomeoneAsked(g))
            && (r.outcome == Done ==> r.peer.viewId == g.leader.viewId && r.peer.GroupMembers() == g.leader.alive)
            && (SomeoneAsked(g) && AllReply(OtherMembers(g), replies, p.requestCounter + 2) ==>
                  r.outcome == NoClient(g.phase.q.peerId) && r.peer.viewId == g.leader.viewId + 1)
  {
    hide GroupOk, Drained, Recover, CollectPending, AllAgree, Arrived, Greeted, HasPending, SomeoneAsked, OkFirst;
    ReachableIsOk(g);
    var n := Least(g.links.Keys);
    var p := AtCrash(g, n);
    var others := OtherMembers(g);
    MemberAtCrash(g, n);
    NewestIsLeaders(g);
    FindsAddition(g);
    assert (p.alive - {p.leader}) * g.leader.alive == others;
    assert others + {n} == g.leader.alive;
    hide AddPoint, AtCrash, NewestView, MemberLeads;
    RecoveryCompletes(p, g.leader.alive, Answers(g), replies);
    var collected := CollectPending(Answered(g), others, NO_REQUEST);
    var p1 := p.(requestCounter := p.requestCounter + 1, alive := others);
    if SomeoneAsked(g) && AllReply(others, replies, p.requestCounter + 2) {
      OksAgree(p1, collected.conns, Add, collected.found.peerId, replies);
    }
  }

  // The new peer, if it leads, knows nobody: it tells nobody, and its recovery succeeds all alone.
  lemma NewPeerLeadsAlone(x: PeerId, leader: PeerId, reachable: set<PeerId>, answers: map<PeerId, seq<Msg>>,
                          replies: map<PeerId, seq<Msg>>)
    ensures var r := Recover(NewPeer(x, leader), reachable, answers, replies);
            r.outcome == Done && r.conns == map[] && r.peer.GroupMembers() == {x}
  {
    assert ({} - {leader}) * reachable == {};
    assert Arrived(Greeted({}, NewLeaderMsg(2, 1)), answers) == map[];
  }

  lemma NewPeerAtCrash(g: Group)
    requires GroupOk(g) && AddPoint(g) && !MemberLeads(g)
    ensures var x := Least(g.links.Keys);
            x == g.phase.q.peerId && x !in g.leader.alive && AtCrash(g, x) == NewPeer(x, g.leader.me)
  {
    hide RecoveryOk, ViewsOk, HistoryOk;
    var x := Least(g.links.Keys);
    assert LinkOk(g, x, g.links[x]);
  }

  // The new leader finishes its part, and no member is left behind.
  ghost predicate Recovered(g: Group, replies: map<PeerId, seq<Msg>>)
    requires AddPoint(g)
  {
    var r := Recover(AtCrash(g, Least(g.links.Keys)), g.leader.alive, Answers(g), replies);
    r.outcome == Done && g.leader.alive <= r.peer.GroupMembers()
  }

  // The members get over a crash during an addition if and only if there are none, or one of them leads and
  // no other was asked. The two ways to fail: the new peer has the smallest id, leads and tells nobody; or a
  // member finds the addition and has no client for the new peer.
  lemma AdditionRecovery(g: Group, replies: map<PeerId, seq<Msg>>)
    requires Reachable(g) && AddPoint(g)
    ensures Recovered(g, replies) <==> g.leader.alive == {} || (MemberLeads(g) && !SomeoneAsked(g))
  {
    hide GroupOk, Drained, Recover, SomeoneAsked;
    ReachableIsOk(g);
    if MemberLeads(g) {
      MemberRecovers(g, replies);
    } else {
      NewPeerAtCrash(g);
      NewPeerLeadsAlone(g.phase.q.peerId, g.leader.me, g.leader.alive, Answers(g), replies);
    }
  }

  lemma AdditionAsks(g: Group)
    requires GroupOk(g) && g.phase.Asking? && g.phase.q.operation.Add? && g.recovery.FirstLeader?
    ensures g.views != [] && g.leader.alive == g.links.Keys - {g.phase.q.peerId}
  {
    hide LinksOk, RecoveryOk;
  }

  // A reachable group in which it fails: 2 and 3 have agreed to take in 4.
  lemma RecoveredAdditionFails() returns (g: Group, replies: map<PeerId, seq<Msg>>)
    ensures Reachable(g) && AddPoint(g) && g.phase.q.peerId == 4
    ensures var p := AtCrash(g, Least(g.links.Keys));
            var r := Recover(p, g.leader.alive, Answers(g), replies);
            r.outcome == NoClient(4) && r.peer.viewId == g.leader.viewId + 1
  {
    hide GroupOk, Reachable, Recover, Drained;
    var g0 := OneFollower();
    var g1 := CanJoin(g0, 1, {2}, 3);
    assert {2} + {3} == {2, 3};
    var g2 := Apply(g1, Join(4));
    StepStaysReachable(g1, Join(4));
    ReachableIsOk(g2);
    AdditionAsks(g2);
    assert g2.links.Keys == {2, 3, 4};
    var steps;
    steps, g := ReachAgreement(g2);
    RunStaysReachable(g2, steps, g);
    assert 2 in g.links.Keys;
    assert Least(g.links.Keys) == 2 && g.leader.alive == {2, 3};
    assert 3 in OtherMembers(g) && AskedAt(g, 3);
    var p := AtCrash(g, 2);
    replies := map f | f in OtherMembers(g) :: [OkMsg(p.requestCounter + 2, p.viewId)];
    MemberRecovers(g, replies);
  }

  // A reachable group in which the new peer leads alone: 2 joins 1 and 3, and 1 crashes before it asks 3.
  lemma JoinerLeadsAlone() returns (g: Group)
    ensures Reachable(g) && AddPoint(g) && 3 in g.leader.alive && 3 in g.links && !SomeoneAsked(g)
    ensures forall replies ::
              var r := Recover(AtCrash(g, Least(g.links.Keys)), g.leader.alive, Answers(g), replies);
              r.outcome == Done && r.conns == map[] && r.peer.GroupMembers() == {2}
  {
    hide GroupOk, Recover, Drained;
    var g0 := InitGroup(1);
    assert Run(g0, [], g0);
    var g1 := CanJoin(g0, 1, {}, 3);
    assert {} + {3} == {3};
    ReachableIsOk(g1);
    IdleKnowsAll(g1);
    g := Apply(g1, Join(2));
    StepStaysReachable(g1, Join(2));
    ReachableIsOk(g);
    assert g.links.Keys == {3, 2} && g.leader.alive == {3};
    assert 2 in g.links.Keys && Least(g.links.Keys) == 2;
    NewPeerAtCrash(g);
    forall replies
      ensures var r := Recover(AtCrash(g, 2), g.leader.alive, Answers(g), replies);
              r.outcome == Done && r.conns == map[] && r.peer.GroupMembers() == {2}
    {
      NewPeerLeadsAlone(2, g.leader.me, g.leader.alive, Answers(g), replies);
    }
  }

  lemma IdleKnowsAll(g: Group)
    requires GroupOk(g) && g.phase.Idle? && g.down == {}
    ensures g.leader.alive == g.links.Keys && g.views != []
  {
  }
}
