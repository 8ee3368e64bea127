/** The loops of one leader are runs of the membership machine. */
module MembershipRefinement {
  import opened FiniteSets
  import opened Memberships
  import opened MembershipProtocol

  // The connections of the leader: what it has sent and is still unread, and what it has yet to receive.
  function Conns(g: Group): Conns {
    map f | f in g.links :: Conn(g.links[f].toPeer, g.links[f].toLeader)
  }

  // Sending the request to all: one Ask for each peer.
  lemma {:induction false} AskingIsSending(g: Group) returns (steps: seq<Step>, g': Group)
    requires g.phase.Asking? && g.phase.todo <= g.links.Keys
    ensures Run(g, steps, g') && g'.phase == Asking(g.phase.q, {}) && g'.leader == g.leader
    ensures Sending(Conns(g'), Done) == SendAll(Conns(g), g.phase.todo, RequestMsg(g.phase.q))
    decreases |g.phase.todo|
  {
    if g.phase.todo == {} {
      steps, g' := [], g;
    } else {
      var f := Least(g.phase.todo);
      var g1 := Apply(g, Ask(f));
      assert Conns(g1) == Conns(g)[f := Conns(g)[f].(sent := Conns(g)[f].sent + [RequestMsg(g.phase.q)])];
      var rest;
      rest, g' := AskingIsSending(g1);
      RunCons(g, Ask(f), rest, g');
      steps := [Ask(f)] + rest;
    }
  }

  // Waiting for the Oks, when the wait ends well: one TakeOk for each peer.
  lemma {:induction false} GatheringIsWaiting(g: Group) returns (steps: seq<Step>, g': Group)
    requires g.phase.Gathering? && g.phase.todo <= g.links.Keys
    requires GatherOks(Conns(g), g.phase.todo, g.phase.q.requestId).outcome == Done
    ensures Run(g, steps, g') && g'.phase == Gathering(g.phase.q, {}) && g'.leader == g.leader
    ensures Waiting(Conns(g'), Done) == GatherOks(Conns(g), g.phase.todo, g.phase.q.requestId)
    decreases |g.phase.todo|
  {
    if g.phase.todo == {} {
      steps, g' := [], g;
    } else {
      var f := Least(g.phase.todo);
      var g1 := Apply(g, TakeOk(f));
      assert Conns(g1) == Popped(Conns(g), f);
      var rest;
      rest, g' := GatheringIsWaiting(g1);
      RunCons(g, TakeOk(f), rest, g');
      steps := [TakeOk(f)] + rest;
    }
  }

  // Announcing the new view: one Announce for each peer, in ascending order.
  lemma {:induction false} AnnouncingIsSending(g: Group) returns (steps: seq<Step>, g': Group)
    requires g.phase.Announcing? && g.phase.todo <= g.links.Keys * g.clients && g.views != []
    ensures Run(g, steps, g') && g'.phase == Announcing(g.phase.q, {}) && g'.leader == g.leader
    ensures Sending(Conns(g'), Done) == SendAll(Conns(g), g.phase.todo, ViewMsg(NewestView(g.views)))
    decreases |g.phase.todo|
  {
    if g.phase.todo == {} {
      steps, g' := [], g;
    } else {
      var f := Least(g.phase.todo);
      var g1 := Apply(g, Announce(f));
      var m := ViewMsg(NewestView(g.views));
      assert Conns(g1) == Conns(g)[f := Conns(g)[f].(sent := Conns(g)[f].sent + [m])];
      var rest;
      rest, g' := AnnouncingIsSending(g1);
      RunCons(g, Announce(f), rest, g');
      steps := [Announce(f)] + rest;
    }
  }

  // Collecting the survivors' pending requests, when all answer: one TakePending for each.
  lemma {:induction false} CollectingIsWaiting(g: Group) returns (steps: seq<Step>, g': Group)
    requires g.phase.Collecting? && g.phase.todo <= g.links.Keys
    requires CollectPending(Conns(g), g.phase.todo, g.phase.found).outcome == Done
    ensures Run(g, steps, g') && g'.phase.Collecting? && g'.phase.todo == {} && g'.leader == g.leader
    ensures Collection(Conns(g'), Done, g'.phase.found) == CollectPending(Conns(g), g.phase.todo, g.phase.found)
    decreases |g.phase.todo|
  {
    if g.phase.todo == {} {
      steps, g' := [], g;
    } else {
      var f := Least(g.phase.todo);
      var g1 := Apply(g, TakePending(f));
      assert Conns(g1) == Popped(Conns(g), f);
      var rest;
      rest, g' := CollectingIsWaiting(g1);
      RunCons(g, TakePending(f), rest, g');
      steps := [TakePending(f)] + rest;
    }
  }

  // The peers told of the new leader have a new connection with this one message; the others are as before.
  ghost predicate Told(g: Group, g': Group, peers: set<PeerId>) {
    && g'.leader == g.leader && g'.links.Keys == g.links.Keys
    && forall f :: f in g.links ==>
         Conns(g')[f] ==
           if f in peers then Conn([NewLeaderMsg(g.leader.requestCounter, g.leader.viewId)], []) else Conns(g)[f]
  }

  ghost predicate NewConns(g: Group, peers: set<PeerId>) {
    forall f :: f in peers && f in g.links ==> Conns(g)[f] == Conn([], [])
  }

  lemma GreetOne(g: Group, f: PeerId)
    requires g.phase.Greeting? && f in g.phase.todo && NewConns(g, g.phase.todo)
    ensures Enabled(g, Greet(f))
    ensures var g1 := Apply(g, Greet(f));
            var told := if f in g.links then {f} else {};
            && g1.phase == Greeting(g.phase.todo - {f}, g.phase.reached + told) && g1.clients == g.clients + told
            && Told(g, g1, {f}) && NewConns(g1, g.phase.todo - {f})
  {
    assert Apply(g, Greet(f)).links.Keys == g.links.Keys;
  }

  // `base` with the peers of `todo` that are up.
  function With(base: set<PeerId>, todo: set<PeerId>, up: set<PeerId>): set<PeerId> {
    base + todo * up
  }

  lemma WithOneMore(base: set<PeerId>, todo: set<PeerId>, up: set<PeerId>, f: PeerId)
    requires f in todo
    ensures With(base + (if f in up then {f} else {}), todo - {f}, up) == With(base, todo, up)
  {
  }

  lemma WithNone(base: set<PeerId>, up: set<PeerId>)
    ensures With(base, {}, up) == base
  {
  }

  lemma ToldMore(g: Group, g1: Group, g': Group, f: PeerId, rest: set<PeerId>)
    requires Told(g, g1, {f}) && Told(g1, g', rest)
    ensures Told(g, g', rest + {f})
  {
    hide Conns;
  }

  lemma {:induction false} GreetAll(g: Group) returns (steps: seq<Step>, g': Group)
    requires g.phase.Greeting? && NewConns(g, g.phase.todo)
    ensures Run(g, steps, g') && Told(g, g', g.phase.todo)
    ensures g'.phase == Greeting({}, With(g.phase.reached, g.phase.todo, g.links.Keys))
    ensures g'.clients == With(g.clients, g.phase.todo, g.links.Keys)
    decreases |g.phase.todo|
  {
    hide With;
    if g.phase.todo == {} {
      steps, g' := [], g;
      WithNone(g.phase.reached, g.links.Keys);
      WithNone(g.clients, g.links.Keys);
    } else {
      var f := Least(g.phase.todo);
      var g1 := Apply(g, Greet(f));
      GreetOne(g, f);
      WithOneMore(g.phase.reached, g.phase.todo, g.links.Keys, f);
      WithOneMore(g.clients, g.phase.todo, g.links.Keys, f);
      assert g1.links.Keys == g.links.Keys;
      assert g1.phase.todo + {f} == g.phase.todo;
      hide Apply, Enabled, Told, NewConns, Run;
      var rest;
      rest, g' := GreetAll(g1);
      ToldMore(g, g1, g', f, g1.phase.todo);
      RunCons(g, Greet(f), rest, g');
      steps := [Greet(f)] + rest;
    }
  }

  // Telling the survivors of the new leader: one Greet for each peer. Those that can be reached get a new
  // connection with this one message in it; the others are skipped.
  lemma GreetingIsReconnecting(g: Group) returns (steps: seq<Step>, g': Group)
    requires g.phase.Greeting? && forall f :: f in g.phase.todo && f in g.links ==> Conns(g)[f] == Conn([], [])
    ensures Run(g, steps, g') && g'.leader == g.leader && g'.links.Keys == g.links.Keys
    ensures g'.phase == Greeting({}, g.phase.reached + g.phase.todo * g.links.Keys)
    ensures g'.clients == g.clients + g.phase.todo * g.links.Keys
    ensures var told := Greeted(g.phase.todo, NewLeaderMsg(g.leader.requestCounter, g.leader.viewId));
            forall f :: f in g.links ==> Conns(g')[f] == if f in told then told[f] else Conns(g)[f]
  {
    hide Run, Conns;
    steps, g' := GreetAll(g);
  }
}
