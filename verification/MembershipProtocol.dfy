/** The membership service as a whole: a leader's program, its followers, and reliable first-in first-out links. */
module MembershipProtocol {
  import opened FiniteSets
  import opened Memberships

  datatype View = View(id: nat, members: set<PeerId>)

  // A follower and its connection. `join` and `installed` are history: the views of the present leader
  // it has installed, starting at position `join` of the leader's own.
  datatype Link = Link(
    peer: Peer,
    orphan: bool,           // its leader has crashed; it waits for a new one
    toPeer: seq<Msg>,
    toLeader: seq<Msg>,
    join: nat,
    installed: seq<View>,
    aborted: bool           // a CHECK or LOG(FATAL) has ended it
  )

  // Where the leader's program is; every step is one iteration of one of its loops.
  datatype Phase =
    | Idle
    | Asking(q: Request, todo: set<PeerId>)
    | Gathering(q: Request, todo: set<PeerId>)
    | Announcing(q: Request, todo: set<PeerId>)
    | Greeting(todo: set<PeerId>, reached: set<PeerId>)
    | Collecting(todo: set<PeerId>, found: Request)
    | Aborted

  // What a new leader found: its own view id and the pending requests of the other survivors.
  datatype Recovery = FirstLeader | Recovery(base: nat, reports: map<PeerId, Request>)

  datatype Group = Group(
    leader: Peer,
    clients: set<PeerId>,         // keys of the leader's tcpClientMap
    phase: Phase,
    links: map<PeerId, Link>,     // all followers that are up
    down: set<PeerId>,            // crashed members not yet removed
    views: seq<View>,             // history: the views installed by this leader
    recovery: Recovery            // history
  )

  datatype Step =
    | Join(x: PeerId)
    | PeerCrash(x: PeerId)
    | Remove(x: PeerId)
    | Ask(f: PeerId)
    | AllAsked
    | TakeOk(f: PeerId)
    | AllAgreed
    | Announce(f: PeerId)
    | AllAnnounced
    | Greet(f: PeerId)
    | AllGreeted
    | TakePending(f: PeerId)
    | Decide
    | Receive(f: PeerId)
    | LeaderCrash

  function InitGroup(me: PeerId): Group {
    Group(NewPeer(me, me), {}, Idle, map[], {}, [View(1, {me})], FirstLeader)
  }

  function NewestView(views: seq<View>): View
    requires views != []
  {
    views[|views| - 1]
  }

  function ViewMsg(v: View): Msg {
    NewViewMsg(v.id, v.members)
  }

  /* ----- steps ----- */

  // A follower takes the next message of its leader.
  function FollowerReceive(l: Link, leader: PeerId): Link
    requires l.toPeer != []
  {
    var l1 := l.(toPeer := l.toPeer[1..]);
    match l.toPeer[0]
    case NewLeaderMsg(_, _) =>
      if l.orphan then
        l1.(orphan := false, peer := OnNewLeader(l.peer, leader), toLeader := l.toLeader + [PendingFor(l.peer)])
      else l1.(aborted := true)
    case RequestMsg(r) =>
      if l.orphan then l1.(aborted := true)
      else
        var p := OnRequest(l.peer, r);
        l1.(peer := p, toLeader := l.toLeader + [OkFor(p)])
    case NewViewMsg(id, members) =>
      if l.orphan then l1.(aborted := true)
      else l1.(peer := OnNewView(l.peer, id, members), installed := l.installed + [View(id, members)])
    case OkMsg(_, _) => l1.(aborted := true)
  }

  // A follower that its leader can no longer hear takes one message.
  function Took(p: Peer, m: Msg): Peer {
    match m
    case RequestMsg(r) => OnRequest(p, r)
    case NewViewMsg(id, members) => OnNewView(p, id, members)
    case _ => p
  }

  // What a follower has become when it has read all that its crashed leader sent.
  function Drained(p: Peer, msgs: seq<Msg>): Peer
    decreases |msgs|
  {
    if msgs == [] then p else Drained(Took(p, msgs[0]), msgs[1..])
  }

  lemma DrainedFew(p: Peer, m1: Msg, m2: Msg)
    ensures Drained(p, [m1]) == Took(p, m1)
    ensures Drained(p, [m1, m2]) == Took(Took(p, m1), m2)
  {
    assert [m1][1..] == [] && [m2][1..] == [] && [m1, m2][1..] == [m2];
    assert Drained(Took(p, m1), [m2]) == Took(Took(p, m1), m2);
  }

  function Send(g: Group, f: PeerId, m: Msg): Group
    requires f in g.links
  {
    g.(links := g.links[f := g.links[f].(toPeer := g.links[f].toPeer + [m])])
  }

  function Start(g: Group, operation: Operation, x: PeerId): Group {
    var p := StartChange(g.leader, operation, x);
    g.(leader := p, phase := Asking(NextRequest(g.leader, operation, x), p.alive),
       clients := if operation.Del? then g.clients - {x} else g.clients)
  }

  function Install(g: Group, p: Peer, q: Request): Group {
    g.(leader := p, views := g.views + [View(p.viewId, p.GroupMembers())], phase := Announcing(q, p.alive))
  }

  // The survivor with the smallest id leads; the others are told so. Peers it cannot reach will be dropped.
  ghost function TakeOver(g: Group): Group
    requires g.links != map[]
  {
    var n := Least(g.links.Keys);
    var was := map f | f in g.links :: Drained(g.links[f].peer, g.links[f].toPeer);
    var p := was[n];
    var others := g.links.Keys - {n};
    Group(p.(requestCounter := p.requestCounter + 1, leader := n, alive := p.alive - {g.leader.me}), {},
          Greeting(p.alive - {g.leader.me}, {}),
          map f | f in others :: Link(was[f], true, [], [], 0, [], false), {}, [],
          Recovery(p.viewId, map f | f in others :: was[f].pending))
  }

  // The group is idle or removing a peer; in the announcement of a view that is not this leader's first.
  predicate CrashPoint(g: Group) {
    g.links != map[] && g.views != [] &&
    match g.phase
    case Idle => true
    case Asking(q, _) => q.operation.Del?
    case Gathering(q, _) => q.operation.Del?
    case Announcing(q, _) => q.operation.Del? && |g.views| >= 2
    case _ => false
  }

  ghost predicate Enabled(g: Group, step: Step) {
    match step
    case Join(x) => g.phase.Idle? && g.down == {} && x !in g.links && x != g.leader.me
    case PeerCrash(x) => g.phase.Idle? && g.down == {} && x in g.links
    case Remove(x) => g.phase.Idle? && x in g.down
    case Ask(f) => g.phase.Asking? && f in g.phase.todo && f in g.links
    case AllAsked => g.phase.Asking? && g.phase.todo == {}
    case TakeOk(f) => g.phase.Gathering? && f in g.phase.todo && f in g.links && g.links[f].toLeader != []
    case AllAgreed => g.phase.Gathering? && g.phase.todo == {}
    case Announce(f) => g.phase.Announcing? && IsLeast(f, g.phase.todo) && f in g.links
    case AllAnnounced => g.phase.Announcing? && g.phase.todo == {}
    case Greet(f) => g.phase.Greeting? && f in g.phase.todo
    case AllGreeted => g.phase.Greeting? && g.phase.todo == {}
    case TakePending(f) => g.phase.Collecting? && f in g.phase.todo && f in g.links && g.links[f].toLeader != []
    case Decide => g.phase.Collecting? && g.phase.todo == {}
    case Receive(f) => f in g.links && !g.links[f].aborted && g.links[f].toPeer != []
    case LeaderCrash => CrashPoint(g)
  }

  ghost function Apply(g: Group, step: Step): Group
    requires Enabled(g, step)
  {
    match step
    case Join(x) =>
      Start(g.(links := g.links[x := Link(NewPeer(x, g.leader.me), false, [], [], |g.views|, [], false)],
               clients := g.clients + {x}), Add, x)
    case PeerCrash(x) => g.(links := g.links - {x}, down := g.down + {x})
    case Remove(x) => Start(g.(down := g.down - {x}), Del, x)
    case Ask(f) => Send(g, f, RequestMsg(g.phase.q)).(phase := Asking(g.phase.q, g.phase.todo - {f}))
    case AllAsked => g.(phase := Gathering(g.phase.q, g.leader.alive))
    case TakeOk(f) =>
      var l := g.links[f];
      var g1 := g.(links := g.links[f := l.(toLeader := l.toLeader[1..])]);
      if l.toLeader[0].OkMsg? && l.toLeader[0].requestId == g.phase.q.requestId then
        g1.(phase := Gathering(g.phase.q, g.phase.todo - {f}))
      else g1.(phase := Aborted)
    case AllAgreed => Install(g, Commit(g.leader, g.phase.q.operation, g.phase.q.peerId), g.phase.q)
    case Announce(f) =>
      if f in g.clients && g.views != [] then
        Send(g, f, ViewMsg(NewestView(g.views))).(phase := Announcing(g.phase.q, g.phase.todo - {f}))
      else g.(phase := Aborted)
    case AllAnnounced => g.(phase := Idle)
    case Greet(f) =>
      if f in g.links then
        Send(g, f, NewLeaderMsg(g.leader.requestCounter, g.leader.viewId)).(
          phase := Greeting(g.phase.todo - {f}, g.phase.reached + {f}), clients := g.clients + {f})
      else
        g.(phase := Greeting(g.phase.todo - {f}, g.phase.reached))
    case AllGreeted =>
      g.(leader := g.leader.(alive := g.phase.reached), phase := Collecting(g.phase.reached, NO_REQUEST))
    case TakePending(f) =>
      var l := g.links[f];
      var g1 := g.(links := g.links[f := l.(toLeader := l.toLeader[1..])]);
      if l.toLeader[0].RequestMsg? then
        var r := l.toLeader[0].request;
        g1.(phase := Collecting(g.phase.todo - {f}, if r.operation.Nothing? then g.phase.found else r))
      else g1.(phase := Aborted)
    case Decide =>
      if g.phase.found.operation.Nothing? then
        Install(g, g.leader, NO_REQUEST)
      else
        Start(g, g.phase.found.operation, g.phase.found.peerId)
    case Receive(f) => g.(links := g.links[f := FollowerReceive(g.links[f], g.leader.me)])
    case LeaderCrash => TakeOver(g)
  }

  ghost predicate Run(g: Group, steps: seq<Step>, g': Group)
    decreases |steps|
  {
    if steps == [] then
      g == g'
    else
      Enabled(g, steps[0]) && Run(Apply(g, steps[0]), steps[1..], g')
  }

  ghost predicate Reachable(g: Group) {
    exists me, steps :: Run(InitGroup(me), steps, g)
  }

  lemma RunCons(g: Group, step: Step, steps: seq<Step>, g': Group)
    requires Enabled(g, step) && Run(Apply(g, step), steps, g')
    ensures Run(g, [step] + steps, g')
  {
    assert ([step] + steps)[1..] == steps;
  }

  lemma {:induction false} RunConcat(g: Group, a: seq<Step>, g1: Group, b: seq<Step>, g2: Group)
    requires Run(g, a, g1) && Run(g1, b, g2)
    ensures Run(g, a + b, g2)
    decreases |a|
  {
    hide Apply, Enabled;
    if a == [] {
      assert a + b == b;
    } else {
      assert (a + b)[1..] == a[1..] + b;
      RunConcat(Apply(g, a[0]), a[1..], g1, b, g2);
    }
  }

  lemma RunStaysReachable(g: Group, steps: seq<Step>, g': Group)
    requires Reachable(g) && Run(g, steps, g')
    ensures Reachable(g')
  {
    hide Run;
    var me, past :| Run(InitGroup(me), past, g);
    RunConcat(InitGroup(me), past, g, steps, g');
  }

  lemma StepStaysReachable(g: Group, step: Step)
    requires Reachable(g) && Enabled(g, step)
    ensures Reachable(Apply(g, step))
  {
    hide Apply, Enabled;
    assert Run(Apply(g, step), [], Apply(g, step));
    RunCons(g, step, [], Apply(g, step));
    RunStaysReachable(g, [step], Apply(g, step));
  }

  /* ----- the invariant ----- */

  ghost predicate HistoryOk(views: seq<View>, l: Link) {
    var n := l.join + |l.installed|;
    && n <= |views| && l.installed == views[l.join..n]
    && (l.installed != [] ==> l.peer.viewId == views[n - 1].id && l.peer.alive == views[n - 1].members - {l.peer.me})
    && (forall i :: l.join <= i < |views| ==> l.peer.me in views[i].members)
  }

  // Number of the leader's views the follower has not installed.
  function Behind(views: seq<View>, l: Link): int {
    |views| - l.join - |l.installed|
  }

  // Nothing on its way but, at most, the newest view.
  ghost predicate UpToDate(views: seq<View>, l: Link) {
    && l.toLeader == []
    && ((l.toPeer == [] && Behind(views, l) == 0 && (l.installed != [] ==> l.peer.pending == NO_REQUEST))
        || (views != [] && l.toPeer == [ViewMsg(NewestView(views))] && Behind(views, l) == 1))
  }

  ghost predicate Asked(views: seq<View>, q: Request, l: Link) {
    || (l.toLeader == [] && l.toPeer == [RequestMsg(q)] && Behind(views, l) == 0)
    || (l.toLeader == [] && views != [] &&
        l.toPeer == [ViewMsg(NewestView(views)), RequestMsg(q)] && Behind(views, l) == 1)
    || (l.toLeader == [OkMsg(q.requestId, l.peer.viewId)]
        && l.toPeer == [] && Behind(views, l) == 0 && l.peer.pending == q)
  }

  ghost predicate Confirmed(views: seq<View>, q: Request, l: Link) {
    l.toPeer == [] && l.toLeader == [] && Behind(views, l) == 0 && l.peer.pending == q
  }

  // A new peer, before the view that includes it.
  ghost predicate Joining(views: seq<View>, l: Link) {
    Silent(l) && Behind(views, l) == 0 && l.peer == NewPeer(l.peer.me, l.peer.leader)
  }

  ghost predicate Due(views: seq<View>, q: Request, l: Link) {
    l.toPeer == [] && l.toLeader == [] && Behind(views, l) == 1 &&
    (l.peer.pending == q || l.peer.pending.operation.Nothing?)
  }

  ghost predicate InGreeting(l: Link) {
    || (l.orphan && l.toLeader == [] && |l.toPeer| == 1 && l.toPeer[0].NewLeaderMsg?)
    || (!l.orphan && l.toPeer == [] && l.toLeader == [PendingFor(l.peer)])
  }

  ghost predicate Silent(l: Link) {
    l.toPeer == [] && l.toLeader == []
  }

  // Each follower is where the leader's program says it is.
  ghost predicate LinkInPhase(g: Group, f: PeerId, l: Link) {
    match g.phase
    case Idle => !l.orphan && UpToDate(g.views, l) && l.join < |g.views|
    case Asking(q, todo) =>
      !l.orphan && (f in g.leader.alive && g.views != [] ==> l.join < |g.views|) &&
      if f !in g.leader.alive then Joining(g.views, l)
      else if f in todo then UpToDate(g.views, l) else Asked(g.views, q, l)
    case Gathering(q, todo) =>
      !l.orphan && (f in g.leader.alive && g.views != [] ==> l.join < |g.views|) &&
      if f !in g.leader.alive then Joining(g.views, l)
      else if f in todo then Asked(g.views, q, l) else Confirmed(g.views, q, l)
    case Announcing(q, todo) =>
      !l.orphan && l.join < |g.views| &&
      (q.operation.Del? && |g.views| >= 2 ==> l.join + 1 < |g.views| && (f in todo ==> l.peer.pending == q)) &&
      if f in todo then Due(g.views, q, l) else UpToDate(g.views, l)
    case Greeting(todo, _) => if f in todo then l.orphan && Silent(l) else InGreeting(l)
    case Collecting(todo, _) => if f in todo then InGreeting(l) else !l.orphan && Silent(l)
    case Aborted => false
  }

  // The id from which this leader's views start.
  function FirstId(g: Group): nat {
    if g.views == [] then g.leader.viewId else g.views[0].id
  }

  ghost predicate LinkOk(g: Group, f: PeerId, l: Link) {
    && !l.aborted && l.peer.me == f && (!l.orphan ==> l.peer.leader == g.leader.me) && HistoryOk(g.views, l)
    && (l.installed == [] ==> l.peer.viewId <= FirstId(g))
    && (l.installed == [] && l.join == 0 ==> FirstId(g) <= l.peer.viewId + 2)
    && (g.views == [] ==> l.join == 0 && l.installed == [] && g.leader.viewId <= l.peer.viewId + 1)
    && LinkInPhase(g, f, l)
  }

  ghost predicate ViewsOk(g: Group) {
    && 1 <= FirstId(g)
    && (forall i :: 0 <= i < |g.views| ==> g.views[i].id == g.views[0].id + i && g.leader.me in g.views[i].members)
    && (g.views != [] ==> NewestView(g.views).id == g.leader.viewId)
    && g.leader.me !in g.leader.alive && g.leader.me !in g.links
  }

  // A change under way: who is asked, and how the newest view differs from the coming one.
  ghost predicate ChangeOk(g: Group, q: Request) {
    && g.down == {} && g.leader.alive <= g.clients && q.peerId != g.leader.me
    && (g.views != [] ==>
          NewestView(g.views).members == g.leader.GroupMembers() + (if q.operation.Del? then {q.peerId} else {}))
    && match q.operation
       case Nothing => false
       case Add =>
         && g.views != [] && q.peerId !in g.leader.alive
         && g.links.Keys == g.leader.alive + {q.peerId} && q.peerId in g.clients
       case Del => q.peerId !in g.links && g.links.Keys == g.leader.alive
  }

  ghost predicate PhaseOk(g: Group) {
    match g.phase
    case Idle =>
      && g.views != [] && g.leader.alive == g.links.Keys + g.down && g.links.Keys !! g.down && g.links.Keys <= g.clients
      && NewestView(g.views).members == g.leader.GroupMembers()
      && (forall x, y :: x in g.down && y in g.down ==> x == y)
    case Asking(q, todo) => todo <= g.leader.alive && ChangeOk(g, q)
    case Gathering(q, todo) => todo <= g.leader.alive && ChangeOk(g, q)
    case Announcing(q, todo) =>
      && g.views != [] && g.down == {} && todo <= g.leader.alive == g.links.Keys && g.links.Keys <= g.clients
      && NewestView(g.views).members == g.leader.GroupMembers()
      && (q.operation.Del? ==> q.peerId !in g.links && q.peerId != g.leader.me)
      && (q.operation.Del? && |g.views| >= 2 ==> g.leader.GroupMembers() <= g.views[|g.views| - 2].members)
      && (forall f, t :: f in g.leader.alive - todo && t in todo ==> f < t)
    case Greeting(todo, reached) =>
      && g.views == [] && g.down == {} && g.clients == reached && reached <= g.links.Keys <= todo + reached
      && g.leader.me !in todo + reached && todo !! reached
    case Collecting(todo, _) =>
      g.views == [] && g.down == {} && todo <= g.leader.alive == g.links.Keys == g.clients
    case Aborted => false
  }

  predicate SomeReport(reports: map<PeerId, Request>, from: set<PeerId>) {
    exists f :: f in from && f in reports && !reports[f].operation.Nothing?
  }

  // A reported request removes a peer that is gone.
  ghost predicate RemovalOnly(g: Group, r: Request) {
    r.operation.Nothing? || (r.operation.Del? && r.peerId !in g.links && r.peerId != g.leader.me)
  }

  ghost predicate RecoveryOk(g: Group) {
    match g.recovery
    case FirstLeader => g.views != []
    case Recovery(base, reports) =>
      if g.views != [] then
        g.views[0].id == base + if SomeReport(reports, reports.Keys) then 1 else 0
      else
        && g.leader.viewId == base && reports.Keys == g.links.Keys
        && (forall f :: f in reports ==> RemovalOnly(g, reports[f]))
        && match g.phase
           case Greeting(_, _) => forall f :: f in reports ==> g.links[f].peer.pending == reports[f]
           case Collecting(todo, found) =>
             && (forall f :: f in reports ==> g.links[f].peer.pending == reports[f])
             && RemovalOnly(g, found)
             && (found.operation.Nothing? <==> !SomeReport(reports, reports.Keys - todo))
           case Asking(q, _) => q.operation.Del? && SomeReport(reports, reports.Keys)
           case Gathering(q, _) => q.operation.Del? && SomeReport(reports, reports.Keys)
           case _ => false
  }

  ghost predicate LinksOk(g: Group) {
    forall f :: f in g.links ==> LinkOk(g, f, g.links[f])
  }

  ghost predicate GroupOk(g: Group) {
    ViewsOk(g) && PhaseOk(g) && RecoveryOk(g) && LinksOk(g)
  }
}
