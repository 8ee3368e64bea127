/** Every step of the membership service keeps the invariant, so every reachable group has it. */
module MembershipInvariant {
  import opened FiniteSets
  import opened Memberships
  import opened MembershipProtocol

  /* ----- followers ----- */

  lemma SameHistory(views: seq<View>, l: Link, l': Link)
    requires HistoryOk(views, l) && l'.join == l.join && l'.installed == l.installed
    requires l'.peer.me == l.peer.me && l'.peer.viewId == l.peer.viewId && l'.peer.alive == l.peer.alive
    ensures HistoryOk(views, l')
  {
  }

  lemma NextInHistory(views: seq<View>, l: Link, l': Link)
    requires HistoryOk(views, l) && Behind(views, l) == 1 && views != []
    requires l'.join == l.join && l'.installed == l.installed + [NewestView(views)]
    requires l'.peer == OnNewView(l.peer, NewestView(views).id, NewestView(views).members)
    ensures HistoryOk(views, l')
  {
    var n := l.join + |l.installed|;
    assert views[l.join..n + 1] == views[l.join..n] + [views[n]];
  }

  lemma ReceiveKeepsHistory(views: seq<View>, l: Link, leader: PeerId)
    requires l.toPeer != [] && HistoryOk(views, l)
    requires l.toPeer[0].NewViewMsg? ==>
             views != [] && Behind(views, l) == 1 && l.toPeer[0] == ViewMsg(NewestView(views))
    ensures HistoryOk(views, FollowerReceive(l, leader))
  {
    hide HistoryOk;
    if l.toPeer[0].NewViewMsg? && !l.orphan {
      NextInHistory(views, l, FollowerReceive(l, leader));
    } else {
      SameHistory(views, l, FollowerReceive(l, leader));
    }
  }

  // A follower can take what the leader has sent it, and ends where the leader's program expects it.
  lemma ReceiveKeepsPhase(g: Group, f: PeerId)
    requires f in g.links && LinkInPhase(g, f, g.links[f]) && g.links[f].toPeer != []
    ensures var l' := FollowerReceive(g.links[f], g.leader.me);
            l'.peer.me == g.links[f].peer.me && l'.join == g.links[f].join && l'.aborted == g.links[f].aborted &&
            LinkInPhase(g, f, l')
  {
  }

  lemma ReceivedIsNewest(g: Group, f: PeerId)
    requires f in g.links && LinkInPhase(g, f, g.links[f])
    requires g.links[f].toPeer != [] && g.links[f].toPeer[0].NewViewMsg?
    ensures g.views != [] && Behind(g.views, g.links[f]) == 1 && g.links[f].toPeer[0] == ViewMsg(NewestView(g.views))
  {
  }

  lemma ReceiveKeepsLink(g: Group, f: PeerId)
    requires f in g.links && LinkOk(g, f, g.links[f]) && g.links[f].toPeer != []
    ensures LinkOk(g, f, FollowerReceive(g.links[f], g.leader.me))
  {
    hide LinkInPhase, HistoryOk;
    ReceiveKeepsPhase(g, f);
    if g.links[f].toPeer[0].NewViewMsg? {
      ReceivedIsNewest(g, f);
    }
    ReceiveKeepsHistory(g.views, g.links[f], g.leader.me);
  }

  // The links of all other followers, when the leader and its history stay the same.
  lemma LinksFrame(g: Group, g': Group, f: PeerId)
    requires LinksOk(g) && g'.leader == g.leader && g'.views == g.views && g'.phase == g.phase
    requires f in g'.links ==> LinkOk(g, f, g'.links[f])
    requires forall q :: q in g'.links && q != f ==> q in g.links && g'.links[q] == g.links[q]
    ensures LinksOk(g')
  {
    forall q | q in g'.links ensures LinkOk(g', q, g'.links[q]) {
      assert LinkOk(g, q, g'.links[q]);
    }
  }

  lemma ReceiveKeepsRecovery(g: Group, f: PeerId)
    requires Enabled(g, Receive(f)) && RecoveryOk(g) && LinkOk(g, f, g.links[f])
    ensures RecoveryOk(Apply(g, Receive(f)))
  {
    hide LinkOk;
    assert Apply(g, Receive(f)).links.Keys == g.links.Keys;
    if g.phase.Greeting? || g.phase.Collecting? {
      ReceiveKeepsPending(g, f);
    }
  }

  lemma ReceiveKeepsOk(g: Group, f: PeerId)
    requires GroupOk(g) && Enabled(g, Receive(f))
    ensures GroupOk(Apply(g, Receive(f)))
  {
    hide LinkOk, RecoveryOk, FollowerReceive;
    ReceiveKeepsLink(g, f);
    LinksFrame(g, Apply(g, Receive(f)), f);
    ReceiveKeepsRecovery(g, f);
  }

  lemma ReceiveKeepsPending(g: Group, f: PeerId)
    requires f in g.links && LinkOk(g, f, g.links[f]) && g.links[f].toPeer != []
    requires g.phase.Greeting? || g.phase.Collecting?
    ensures FollowerReceive(g.links[f], g.leader.me).peer.pending == g.links[f].peer.pending
  {
  }

  /* ----- events ----- */

  lemma JoinKeepsOk(g: Group, x: PeerId)
    requires GroupOk(g) && Enabled(g, Join(x))
    ensures GroupOk(Apply(g, Join(x)))
  {
    var g' := Apply(g, Join(x));
    forall f | f in g'.links ensures LinkOk(g', f, g'.links[f]) {
      if f != x {
        assert LinkOk(g, f, g.links[f]);
      }
    }
  }

  lemma PeerCrashKeepsOk(g: Group, x: PeerId)
    requires GroupOk(g) && Enabled(g, PeerCrash(x))
    ensures GroupOk(Apply(g, PeerCrash(x)))
  {
    var g' := Apply(g, PeerCrash(x));
    forall f | f in g'.links ensures LinkOk(g', f, g'.links[f]) {
      assert LinkOk(g, f, g.links[f]);
    }
  }

  lemma RemoveKeepsOk(g: Group, x: PeerId)
    requires GroupOk(g) && Enabled(g, Remove(x))
    ensures GroupOk(Apply(g, Remove(x)))
  {
    var g' := Apply(g, Remove(x));
    forall f | f in g'.links ensures LinkOk(g', f, g'.links[f]) {
      assert LinkOk(g, f, g.links[f]);
    }
  }

  // Installing a view leaves the histories of the followers, now one view behind.
  lemma HistoryGrows(views: seq<View>, v: View, l: Link)
    requires HistoryOk(views, l) && l.peer.me in v.members
    ensures HistoryOk(views + [v], l) && Behind(views + [v], l) == Behind(views, l) + 1
  {
    var n := l.join + |l.installed|;
    assert (views + [v])[l.join..n] == views[l.join..n];
  }

  /* ----- a change ----- */

  lemma AskKeepsLink(g: Group, f: PeerId, q: PeerId)
    requires Enabled(g, Ask(f)) && PhaseOk(g) && q in g.links && LinkOk(g, q, g.links[q])
    ensures LinkOk(Apply(g, Ask(f)), q, Apply(g, Ask(f)).links[q])
  {
    hide HistoryOk;
    SameHistory(g.views, g.links[q], Apply(g, Ask(f)).links[q]);
  }

  lemma AskKeepsOk(g: Group, f: PeerId)
    requires GroupOk(g) && Enabled(g, Ask(f))
    ensures GroupOk(Apply(g, Ask(f)))
  {
    hide LinkOk;
    var g' := Apply(g, Ask(f));
    forall q | q in g'.links ensures LinkOk(g', q, g'.links[q]) {
      AskKeepsLink(g, f, q);
    }
  }

  lemma AllAskedKeepsOk(g: Group)
    requires GroupOk(g) && Enabled(g, AllAsked)
    ensures GroupOk(Apply(g, AllAsked))
  {
    var g' := Apply(g, AllAsked);
    forall q | q in g'.links ensures LinkOk(g', q, g'.links[q]) {
      assert LinkOk(g, q, g.links[q]);
    }
  }

  // The CHECKs on the type and the request id of an Ok hold.
  lemma TakesOk(g: Group, f: PeerId)
    requires GroupOk(g) && Enabled(g, TakeOk(f))
    ensures g.links[f].toLeader[0] == OkMsg(g.phase.q.requestId, g.links[f].peer.viewId)
  {
    hide RecoveryOk, ViewsOk, PhaseOk;
    assert LinkOk(g, f, g.links[f]);
  }

  lemma TakeOkKeepsLink(g: Group, f: PeerId, q: PeerId)
    requires Enabled(g, TakeOk(f)) && PhaseOk(g) && q in g.links && LinkOk(g, q, g.links[q])
    requires g.links[f].toLeader[0].OkMsg? && g.links[f].toLeader[0].requestId == g.phase.q.requestId
    ensures LinkOk(Apply(g, TakeOk(f)), q, Apply(g, TakeOk(f)).links[q])
  {
    hide HistoryOk;
    SameHistory(g.views, g.links[q], Apply(g, TakeOk(f)).links[q]);
  }

  lemma TakeOkKeepsOk(g: Group, f: PeerId)
    requires GroupOk(g) && Enabled(g, TakeOk(f))
    ensures GroupOk(Apply(g, TakeOk(f)))
  {
    hide LinkOk;
    var g' := Apply(g, TakeOk(f));
    TakesOk(g, f);
    forall q | q in g'.links ensures LinkOk(g', q, g'.links[q]) {
      TakeOkKeepsLink(g, f, q);
    }
  }

  // Where everybody is when the leader installs the view they have agreed to.
  lemma AgreedIsDue(g: Group, f: PeerId)
    requires Enabled(g, AllAgreed) && PhaseOk(g) && f in g.links && LinkOk(g, f, g.links[f])
    ensures var l := g.links[f];
            && Silent(l) && Behind(g.views, l) == 0 && !l.orphan && !l.aborted
            && l.peer.me == f && l.peer.leader == g.leader.me
            && HistoryOk(g.views, l)
            && f in Commit(g.leader, g.phase.q.operation, g.phase.q.peerId).alive
            && (l.peer.pending == g.phase.q || (l.peer.pending == NO_REQUEST && g.phase.q.operation.Add?))
            && (g.phase.q.operation.Del? && g.views != [] ==> l.join < |g.views|)
            && (l.installed == [] ==> l.peer.viewId <= FirstId(g))
            && (l.installed == [] && l.join == 0 ==>
                  FirstId(g) <= l.peer.viewId + 2 && (g.views == [] ==> FirstId(g) <= l.peer.viewId + 1))
            && (g.views == [] ==> l.join == 0)
  {
    hide HistoryOk;
  }

  lemma DueLinkIsOk(g: Group, f: PeerId, l: Link)
    requires g.phase.Announcing? && g.views != [] && f in g.phase.todo
    requires !l.orphan && !l.aborted && l.peer.me == f && l.peer.leader == g.leader.me && HistoryOk(g.views, l)
    requires Due(g.views, g.phase.q, l) && l.join < |g.views|
    requires g.phase.q.operation.Del? && |g.views| >= 2 ==> l.join + 1 < |g.views| && l.peer.pending == g.phase.q
    requires l.installed == [] ==> l.peer.viewId <= FirstId(g)
    requires l.installed == [] && l.join == 0 ==> FirstId(g) <= l.peer.viewId + 2
    ensures LinkOk(g, f, l)
  {
    hide HistoryOk;
  }

  lemma AllAgreedKeepsLink(g: Group, f: PeerId)
    requires Enabled(g, AllAgreed) && PhaseOk(g) && f in g.links && LinkOk(g, f, g.links[f])
    ensures LinkOk(Apply(g, AllAgreed), f, g.links[f])
  {
    hide PhaseOk, HistoryOk, LinkOk;
    AgreedIsDue(g, f);
    HistoryGrows(g.views, NewestView(Apply(g, AllAgreed).views), g.links[f]);
    DueLinkIsOk(Apply(g, AllAgreed), f, g.links[f]);
  }

  lemma AllAgreedKeepsOk(g: Group)
    requires GroupOk(g) && Enabled(g, AllAgreed)
    ensures GroupOk(Apply(g, AllAgreed))
  {
    hide LinkOk;
    var g' := Apply(g, AllAgreed);
    assert ViewsOk(g');
    assert PhaseOk(g') by {
      if g.views != [] {
        assert g'.views[|g'.views| - 2] == NewestView(g.views);
      }
    }
    assert RecoveryOk(g');
    forall f | f in g'.links ensures LinkOk(g', f, g'.links[f]) {
      AllAgreedKeepsLink(g, f);
    }
  }

  lemma AnnounceKeepsLink(g: Group, f: PeerId, q: PeerId)
    requires Enabled(g, Announce(f)) && PhaseOk(g) && q in g.links && LinkOk(g, q, g.links[q])
    ensures LinkOk(Apply(g, Announce(f)), q, Apply(g, Announce(f)).links[q])
  {
    hide HistoryOk;
    SameHistory(g.views, g.links[q], Apply(g, Announce(f)).links[q]);
  }

  lemma AnnounceKeepsOk(g: Group, f: PeerId)
    requires GroupOk(g) && Enabled(g, Announce(f))
    ensures GroupOk(Apply(g, Announce(f)))
  {
    hide LinkOk;
    var g' := Apply(g, Announce(f));
    assert PhaseOk(g') by {
      assert forall p :: p in g.leader.alive - g'.phase.todo ==> p == f || p in g.leader.alive - g.phase.todo;
    }
    forall q | q in g'.links ensures LinkOk(g', q, g'.links[q]) {
      AnnounceKeepsLink(g, f, q);
    }
  }

  lemma AllAnnouncedKeepsOk(g: Group)
    requires GroupOk(g) && Enabled(g, AllAnnounced)
    ensures GroupOk(Apply(g, AllAnnounced))
  {
    var g' := Apply(g, AllAnnounced);
    forall q | q in g'.links ensures LinkOk(g', q, g'.links[q]) {
      assert LinkOk(g, q, g.links[q]);
    }
  }

  /* ----- a recovery ----- */

  lemma GreetKeepsLink(g: Group, f: PeerId, q: PeerId)
    requires Enabled(g, Greet(f)) && PhaseOk(g) && q in g.links && LinkOk(g, q, g.links[q])
    ensures LinkOk(Apply(g, Greet(f)), q, Apply(g, Greet(f)).links[q])
  {
    hide HistoryOk;
    SameHistory(g.views, g.links[q], Apply(g, Greet(f)).links[q]);
  }

  lemma GreetKeepsOk(g: Group, f: PeerId)
    requires GroupOk(g) && Enabled(g, Greet(f))
    ensures GroupOk(Apply(g, Greet(f)))
  {
    hide LinkOk;
    var g' := Apply(g, Greet(f));
    forall q | q in g'.links ensures LinkOk(g', q, g'.links[q]) {
      GreetKeepsLink(g, f, q);
    }
  }

  lemma AllGreetedKeepsOk(g: Group)
    requires GroupOk(g) && Enabled(g, AllGreeted)
    ensures GroupOk(Apply(g, AllGreeted))
  {
    var g' := Apply(g, AllGreeted);
    forall q | q in g'.links ensures LinkOk(g', q, g'.links[q]) {
      assert LinkOk(g, q, g.links[q]);
    }
  }

  // So does the CHECK that a survivor answers the new leader with a request: its pending one.
  lemma TakesPending(g: Group, f: PeerId)
    requires GroupOk(g) && Enabled(g, TakePending(f))
    ensures var l := g.links[f];
            l.toLeader[0] == PendingFor(l.peer)
  {
    hide RecoveryOk, ViewsOk, PhaseOk;
    assert LinkOk(g, f, g.links[f]);
  }

  lemma TakePendingKeepsLink(g: Group, f: PeerId, q: PeerId)
    requires Enabled(g, TakePending(f)) && PhaseOk(g) && q in g.links && LinkOk(g, q, g.links[q])
    requires g.links[f].toLeader[0].RequestMsg?
    ensures LinkOk(Apply(g, TakePending(f)), q, Apply(g, TakePending(f)).links[q])
  {
    hide HistoryOk;
    SameHistory(g.views, g.links[q], Apply(g, TakePending(f)).links[q]);
  }

  lemma TakePendingKeepsOk(g: Group, f: PeerId)
    requires GroupOk(g) && Enabled(g, TakePending(f))
    ensures GroupOk(Apply(g, TakePending(f)))
  {
    hide LinkOk;
    var g' := Apply(g, TakePending(f));
    TakesPending(g, f);
    forall q | q in g'.links ensures LinkOk(g', q, g'.links[q]) {
      TakePendingKeepsLink(g, f, q);
    }
  }

  lemma DecideKeepsOk(g: Group)
    requires GroupOk(g) && Enabled(g, Decide)
    ensures GroupOk(Apply(g, Decide))
  {
    var g' := Apply(g, Decide);
    forall q | q in g'.links ensures LinkOk(g', q, g'.links[q]) {
      assert LinkOk(g, q, g.links[q]);
      if g'.views != [] {
        HistoryGrows(g.views, NewestView(g'.views), g.links[q]);
      }
    }
  }

  /* ----- the crash of a leader ----- */

  // What the crashed leader may have under way to a follower.
  lemma UnderWay(g: Group, f: PeerId)
    requires LinksOk(g) && PhaseOk(g) && CrashPoint(g) && f in g.links
    ensures var l := g.links[f];
            && l.peer.me == f && HistoryOk(g.views, l) && l.join < |g.views|
            && (l.toPeer == [] ==> RemovalOnly(g, l.peer.pending))
            && if g.phase.Announcing? && f in g.phase.todo then
                 l.toPeer == [] && Behind(g.views, l) == 1 && l.installed != []
               else
                 || (l.toPeer == [] && Behind(g.views, l) == 0)
                 || (l.toPeer == [ViewMsg(NewestView(g.views))] && Behind(g.views, l) == 1)
                 || (!g.phase.Idle? && RemovalOnly(g, g.phase.q) &&
                     (|| (l.toPeer == [RequestMsg(g.phase.q)] && Behind(g.views, l) == 0)
                      || (l.toPeer == [ViewMsg(NewestView(g.views)), RequestMsg(g.phase.q)]
                          && Behind(g.views, l) == 1)))
  {
    assert LinkOk(g, f, g.links[f]);
  }

  // What a follower has become when it has read everything its crashed leader sent: it holds one of
  // that leader's views, and at most the removal of a crashed peer is pending.
  lemma DrainedFollower(g: Group, f: PeerId)
    requires GroupOk(g) && CrashPoint(g) && f in g.links
    ensures var l := g.links[f];
            var p := Drained(l.peer, l.toPeer);
            var n := |g.views| - if g.phase.Announcing? && f in g.phase.todo then 2 else 1;
            && p.me == f && RemovalOnly(g, p.pending) && 0 <= n
            && p.viewId == g.views[n].id == g.views[0].id + n
            && p.alive == g.views[n].members - {f} && f in g.views[n].members
  {
    hide RecoveryOk, LinksOk, PhaseOk;
    var l := g.links[f];
    UnderWay(g, f);
    if l.toPeer != [] {
      DrainedFew(l.peer, l.toPeer[0], l.toPeer[|l.toPeer| - 1]);
    }
  }

  // The new leader knows every other survivor, and is no longer held up by the old leader.
  lemma TakeOverLeader(g: Group)
    requires GroupOk(g) && CrashPoint(g)
    ensures var g' := TakeOver(g);
            var n := Least(g.links.Keys);
            && g'.leader.me == n && n !in g'.leader.alive && g'.links.Keys == g.links.Keys - {n} <= g'.leader.alive
            && g.leader.me !in g'.leader.alive
            && g'.leader.viewId == Drained(g.links[n].peer, g.links[n].toPeer).viewId
            && (forall f :: f in g'.links ==>
                  g'.links[f] == Link(Drained(g.links[f].peer, g.links[f].toPeer), true, [], [], 0, [], false))
  {
    hide RecoveryOk, LinksOk, LinkOk, Drained, RemovalOnly;
    DrainedFollower(g, Least(g.links.Keys));
  }

  // Views are announced in ascending order of the peers, and the survivor with the smallest id leads:
  // no other survivor holds a newer view, and one holds an older view exactly when the crash came
  // between the announcement to the new leader and the announcement to it.
  lemma NewLeaderIsNewest(g: Group, f: PeerId)
    requires GroupOk(g) && CrashPoint(g) && f in g.links
    ensures var n := Least(g.links.Keys);
            var p := Drained(g.links[f].peer, g.links[f].toPeer);
            var base := Drained(g.links[n].peer, g.links[n].toPeer).viewId;
            var skipped := g.phase.Announcing? && f in g.phase.todo && n !in g.phase.todo;
            1 <= p.viewId && base == p.viewId + if skipped then 1 else 0
  {
    hide RecoveryOk, LinksOk, LinkOk, Drained, RemovalOnly;
    var n := Least(g.links.Keys);
    DrainedFollower(g, f);
    DrainedFollower(g, n);
    assert f in g.links.Keys && n <= f;
    assert g.phase.Announcing? && f !in g.phase.todo ==> f in g.leader.alive - g.phase.todo;
  }

  lemma TakeOverReports(g: Group)
    requires GroupOk(g) && CrashPoint(g)
    ensures var g' := TakeOver(g);
            var reports := g'.recovery.reports;
            && g'.recovery == Recovery(g'.leader.viewId, reports) && reports.Keys == g'.links.Keys
            && forall f :: f in reports ==> reports[f] == g'.links[f].peer.pending && RemovalOnly(g', reports[f])
  {
    hide RecoveryOk, LinksOk, LinkOk, Drained, PhaseOk, ViewsOk;
    var g' := TakeOver(g);
    TakeOverLeader(g);
    forall f | f in g'.links ensures RemovalOnly(g', g'.links[f].peer.pending) {
      DrainedFollower(g, f);
    }
  }

  lemma FreshLinkIsOk(g: Group, f: PeerId)
    requires f in g.links && g.views == [] && g.phase.Greeting? && f in g.phase.todo
    requires g.links[f].peer.me == f && g.links[f].peer.viewId <= g.leader.viewId <= g.links[f].peer.viewId + 1
    requires g.links[f] == Link(g.links[f].peer, true, [], [], 0, [], false)
    ensures LinkOk(g, f, g.links[f])
  {
  }

  lemma TakeOverLink(g: Group, f: PeerId)
    requires GroupOk(g) && CrashPoint(g) && f in g.links && f != Least(g.links.Keys)
    ensures LinkOk(TakeOver(g), f, TakeOver(g).links[f])
  {
    hide GroupOk, LinkOk, Drained, RemovalOnly;
    TakeOverLeader(g);
    DrainedFollower(g, f);
    NewLeaderIsNewest(g, f);
    FreshLinkIsOk(TakeOver(g), f);
  }

  lemma LinksMakeGroup(g: Group)
    requires ViewsOk(g) && PhaseOk(g) && RecoveryOk(g) && forall f :: f in g.links ==> LinkOk(g, f, g.links[f])
    ensures GroupOk(g)
  {
    hide ViewsOk, PhaseOk, RecoveryOk, LinkOk;
  }

  lemma TakeOverShape(g: Group)
    requires CrashPoint(g)
    requires var g' := TakeOver(g);
             var n := Least(g.links.Keys);
             && g'.leader.me == n && n !in g'.leader.alive && g'.links.Keys == g.links.Keys - {n} <= g'.leader.alive
             && 1 <= g'.leader.viewId && g'.recovery == Recovery(g'.leader.viewId, g'.recovery.reports)
             && g'.recovery.reports.Keys == g'.links.Keys
             && forall f :: f in g'.recovery.reports ==>
                  g'.recovery.reports[f] == g'.links[f].peer.pending && RemovalOnly(g', g'.recovery.reports[f])
    ensures ViewsOk(TakeOver(g)) && PhaseOk(TakeOver(g)) && RecoveryOk(TakeOver(g))
  {
    hide Drained, RemovalOnly;
  }

  lemma LeaderCrashKeepsOk(g: Group)
    requires GroupOk(g) && Enabled(g, LeaderCrash)
    ensures GroupOk(Apply(g, LeaderCrash))
  {
    hide LinkOk, Drained, RemovalOnly, GroupOk;
    var g' := TakeOver(g);
    TakeOverLeader(g);
    TakeOverReports(g);
    NewLeaderIsNewest(g, Least(g.links.Keys));
    TakeOverShape(g);
    hide TakeOver;
    forall f | f in g'.links ensures LinkOk(g', f, g'.links[f]) {
      TakeOverLink(g, f);
    }
    LinksMakeGroup(g');
  }

  lemma StepKeepsOk(g: Group, step: Step)
    requires GroupOk(g) && Enabled(g, step)
    ensures GroupOk(Apply(g, step))
  {
    hide GroupOk;
    match step
    case Join(x) => JoinKeepsOk(g, x);
    case PeerCrash(x) => PeerCrashKeepsOk(g, x);
    case Remove(x) => RemoveKeepsOk(g, x);
    case Ask(f) => AskKeepsOk(g, f);
    case AllAsked => AllAskedKeepsOk(g);
    case TakeOk(f) => TakeOkKeepsOk(g, f);
    case AllAgreed => AllAgreedKeepsOk(g);
    case Announce(f) => AnnounceKeepsOk(g, f);
    case AllAnnounced => AllAnnouncedKeepsOk(g);
    case Greet(f) => GreetKeepsOk(g, f);
    case AllGreeted => AllGreetedKeepsOk(g);
    case TakePending(f) => TakePendingKeepsOk(g, f);
    case Decide => DecideKeepsOk(g);
    case Receive(f) => ReceiveKeepsOk(g, f);
    case LeaderCrash => LeaderCrashKeepsOk(g);
  }

  lemma InitIsOk(me: PeerId)
    ensures GroupOk(InitGroup(me))
  {
  }

  lemma {:induction false} RunKeepsOk(g: Group, steps: seq<Step>, g': Group)
    requires GroupOk(g) && Run(g, steps, g')
    ensures GroupOk(g')
    decreases |steps|
  {
    hide GroupOk, Apply, Enabled;
    if steps != [] {
      StepKeepsOk(g, steps[0]);
      RunKeepsOk(Apply(g, steps[0]), steps[1..], g');
    }
  }

  lemma ReachableIsOk(g: Group)
    requires Reachable(g)
    ensures GroupOk(g)
  {
    var me, steps :| Run(InitGroup(me), steps, g);
    InitIsOk(me);
    RunKeepsOk(InitGroup(me), steps, g);
  }
}
