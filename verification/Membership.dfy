/** One peer of the membership service: its fields, its handlers and the loops of a leader over its peers. */
module Memberships {
  import opened FiniteSets

  type PeerId = nat

  datatype Operation = Nothing | Add | Del

  datatype Request = Request(requestId: nat, currentViewId: nat, operation: Operation, peerId: PeerId)

  const NO_REQUEST := Request(0, 0, Nothing, 0)

  datatype Msg =
    | RequestMsg(request: Request)
    | OkMsg(requestId: nat, viewId: nat)
    | NewViewMsg(newViewId: nat, members: set<PeerId>)
    | NewLeaderMsg(requestId: nat, viewId: nat)

  datatype Peer = Peer(
    me: PeerId,
    leader: PeerId,
    requestCounter: nat,
    viewId: nat,
    alive: set<PeerId>,
    pending: Request
  ) {
    function GroupMembers(): set<PeerId> {
      alive + {me}
    }
  }

  function NewPeer(me: PeerId, leader: PeerId): Peer {
    Peer(me, leader, 1, 1, {}, NO_REQUEST)
  }

  /* ----- a follower's handlers ----- */

  function OnRequest(p: Peer, r: Request): Peer {
    p.(pending := r)
  }

  function OkFor(p: Peer): Msg {
    OkMsg(p.pending.requestId, p.viewId)
  }

  function OnNewView(p: Peer, newViewId: nat, members: set<PeerId>): Peer {
    p.(viewId := newViewId, alive := members - {p.me}, pending := NO_REQUEST)
  }

  function OnNewLeader(p: Peer, leader: PeerId): Peer {
    p.(leader := leader)
  }

  // What a follower tells a new leader: its pending request, stamped with its own view.
  function PendingFor(p: Peer): Msg {
    RequestMsg(p.pending.(currentViewId := p.viewId))
  }

  /* ----- a leader's steps ----- */

  function NextRequest(p: Peer, operation: Operation, peerId: PeerId): Request {
    Request(p.requestCounter + 1, p.viewId, operation, peerId)
  }

  // createRequestMsg, and the removal of a deleted peer before anybody is asked.
  function StartChange(p: Peer, operation: Operation, peerId: PeerId): Peer {
    p.(requestCounter := p.requestCounter + 1, alive := if operation.Del? then p.alive - {peerId} else p.alive)
  }

  // All have agreed: the new view.
  function Commit(p: Peer, operation: Operation, peerId: PeerId): Peer {
    p.(viewId := p.viewId + 1, alive := if operation.Add? then p.alive + {peerId} else p.alive)
  }

  /* ----- connections ----- */

  // A connection as its owner sees it: what it has sent, and what it has yet to receive.
  datatype Conn = Conn(sent: seq<Msg>, inbox: seq<Msg>)

  type Conns = map<PeerId, Conn>

  datatype Outcome = Done | NoClient(peer: PeerId) | Blocked(peer: PeerId) | CheckFailed(peer: PeerId)

  datatype Sending = Sending(conns: Conns, outcome: Outcome)

  // `tcpClientMap.at(peer).send(msg)` for every peer, in ascending order.
  function SendAll(conns: Conns, peers: set<PeerId>, msg: Msg): Sending
    decreases |peers|
  {
    if peers == {} then
      Sending(conns, Done)
    else
      var p := Least(peers);
      if p !in conns then
        Sending(conns, NoClient(p))
      else
        SendAll(conns[p := conns[p].(sent := conns[p].sent + [msg])], peers - {p}, msg)
  }

  // Sending reaches every peer unless one has no client; then it reaches exactly the smaller ones.
  lemma {:induction false} SendAllReaches(conns: Conns, peers: set<PeerId>, msg: Msg)
    ensures var r := SendAll(conns, peers, msg);
            && r.conns.Keys == conns.Keys
            && (r.outcome == Done <==> peers <= conns.Keys)
            && (r.outcome != Done ==> r.outcome.NoClient? && r.outcome.peer in peers - conns.Keys)
            && forall q :: q in conns ==>
                 r.conns[q] == if q in peers && (r.outcome.NoClient? ==> q < r.outcome.peer)
                               then conns[q].(sent := conns[q].sent + [msg]) else conns[q]
    decreases |peers|
  {
    if peers != {} {
      var p := Least(peers);
      if p in conns {
        SendAllReaches(conns[p := conns[p].(sent := conns[p].sent + [msg])], peers - {p}, msg);
      }
    }
  }

  datatype Waiting = Waiting(conns: Conns, outcome: Outcome)

  function Popped(conns: Conns, p: PeerId): Conns
    requires p in conns && conns[p].inbox != []
  {
    conns[p := conns[p].(inbox := conns[p].inbox[1..])]
  }

  // waitForOkMsg: one Ok with the expected id from every peer, in ascending order.
  function GatherOks(conns: Conns, peers: set<PeerId>, expected: nat): Waiting
    decreases |peers|
  {
    if peers == {} then
      Waiting(conns, Done)
    else
      var p := Least(peers);
      if p !in conns then
        Waiting(conns, NoClient(p))
      else if conns[p].inbox == [] then
        Waiting(conns, Blocked(p))
      else if conns[p].inbox[0].OkMsg? && conns[p].inbox[0].requestId == expected then
        GatherOks(Popped(conns, p), peers - {p}, expected)
      else
        Waiting(Popped(conns, p), CheckFailed(p))
  }

  ghost predicate HasOk(conns: Conns, p: PeerId, expected: nat) {
    p in conns && conns[p].inbox != [] && conns[p].inbox[0].OkMsg? && conns[p].inbox[0].requestId == expected
  }

  // The wait ends well exactly when every peer has the right Ok first in its inbox.
  lemma {:induction false} GatherNeedsEveryOk(conns: Conns, peers: set<PeerId>, expected: nat)
    ensures GatherOks(conns, peers, expected).outcome == Done <==> forall p :: p in peers ==> HasOk(conns, p, expected)
    decreases |peers|
  {
    if peers != {} {
      var p := Least(peers);
      if HasOk(conns, p, expected) {
        var conns1 := Popped(conns, p);
        GatherNeedsEveryOk(conns1, peers - {p}, expected);
        assert forall q :: q in peers - {p} ==> (HasOk(conns1, q, expected) <==> HasOk(conns, q, expected));
      }
    }
  }

  // Why a wait does not go on at p.
  function Stop(conns: Conns, p: PeerId): Outcome {
    if p !in conns then NoClient(p) else if conns[p].inbox == [] then Blocked(p) else CheckFailed(p)
  }

  // Otherwise it stops at the smallest peer that has not: a client is missing, nothing has come, or the
  // wrong message, which a CHECK finds.
  lemma {:induction false} GatherStops(conns: Conns, peers: set<PeerId>, expected: nat)
    requires GatherOks(conns, peers, expected).outcome != Done
    ensures var outcome := GatherOks(conns, peers, expected).outcome;
            exists p :: && p in peers && !HasOk(conns, p, expected) && outcome == Stop(conns, p)
                        && forall q :: q in peers && q < p ==> HasOk(conns, q, expected)
    decreases |peers|
  {
    var p := Least(peers);
    if HasOk(conns, p, expected) {
      var conns1, rest := Popped(conns, p), peers - {p};
      GatherStops(conns1, rest, expected);
      var r :| && r in rest && !HasOk(conns1, r, expected)
               && GatherOks(conns1, rest, expected).outcome == Stop(conns1, r)
               && forall q :: q in rest && q < r ==> HasOk(conns1, q, expected);
      assert forall q :: q in rest ==> (HasOk(conns1, q, expected) <==> HasOk(conns, q, expected));
      assert r in peers && !HasOk(conns, r, expected) && Stop(conns1, r) == Stop(conns, r);
    } else {
      assert forall q :: q in peers ==> p <= q;
    }
  }

  datatype Collection = Collection(conns: Conns, outcome: Outcome, found: Request)

  // waitForPendingRequestMsg: peers without a client are skipped, the last request that is one is kept.
  function CollectPending(conns: Conns, peers: set<PeerId>, found: Request): Collection
    decreases |peers|
  {
    if peers == {} then
      Collection(conns, Done, found)
    else
      var p := Least(peers);
      if p !in conns then
        CollectPending(conns, peers - {p}, found)
      else if conns[p].inbox == [] then
        Collection(conns, Blocked(p), found)
      else
        var m := conns[p].inbox[0];
        if m.RequestMsg? then
          CollectPending(Popped(conns, p), peers - {p}, if m.request.operation.Nothing? then found else m.request)
        else
          Collection(Popped(conns, p), CheckFailed(p), found)
  }

  // What arrives from the peers while the leader waits.
  function Arrived(conns: Conns, replies: map<PeerId, seq<Msg>>): Conns {
    map p | p in conns :: conns[p].(inbox := conns[p].inbox + if p in replies then replies[p] else [])
  }

  // New connections, each opened with the same greeting.
  function Greeted(peers: set<PeerId>, msg: Msg): Conns {
    map p | p in peers :: Conn([msg], [])
  }

  datatype Change = Change(peer: Peer, conns: Conns, outcome: Outcome)

  function ClientsFor(conns: Conns, operation: Operation, peerId: PeerId): Conns {
    if operation.Del? then conns - {peerId} else conns
  }

  // modifyGroupMembership: ask everybody, wait for everybody, install the new view, announce it.
  function Modify(p: Peer, conns: Conns, operation: Operation, peerId: PeerId, replies: map<PeerId, seq<Msg>>): Change {
    var request := NextRequest(p, operation, peerId);
    var p1 := StartChange(p, operation, peerId);
    var asked := SendAll(ClientsFor(conns, operation, peerId), p1.alive, RequestMsg(request));
    if asked.outcome != Done then
      Change(p1, asked.conns, asked.outcome)
    else
      var gathered := GatherOks(Arrived(asked.conns, replies), p1.alive, request.requestId);
      if gathered.outcome != Done then
        Change(p1, gathered.conns, gathered.outcome)
      else
        var p2 := Commit(p1, operation, peerId);
        var announced := SendAll(gathered.conns, p2.alive, NewViewMsg(p2.viewId, p2.GroupMembers()));
        Change(p2, announced.conns, announced.outcome)
  }

  // The wait sends nothing. It takes one message of each peer if it ends well.
  lemma {:induction false} GatherPops(conns: Conns, peers: set<PeerId>, expected: nat)
    ensures var r := GatherOks(conns, peers, expected);
            && r.conns.Keys == conns.Keys
            && (forall q :: q in conns ==> r.conns[q].sent == conns[q].sent)
            && (r.outcome == Done ==> forall q :: q in conns ==>
                  if q in peers then conns[q].inbox != [] && r.conns[q].inbox == conns[q].inbox[1..]
                  else r.conns[q].inbox == conns[q].inbox)
    decreases |peers|
  {
    if peers != {} {
      var p := Least(peers);
      if HasOk(conns, p, expected) {
        GatherPops(Popped(conns, p), peers - {p}, expected);
      }
    }
  }

  // Every remaining peer has a client and sends the right Ok.
  ghost predicate AllAgree(p: Peer, conns: Conns, operation: Operation, peerId: PeerId,
      replies: map<PeerId, seq<Msg>>)
  {
    var remaining := StartChange(p, operation, peerId).alive;
    var clients := ClientsFor(conns, operation, peerId);
    var asked := SendAll(clients, remaining, RequestMsg(NextRequest(p, operation, peerId))).conns;
    && remaining <= clients.Keys
    && forall q :: q in remaining ==> HasOk(Arrived(asked, replies), q, p.requestCounter + 1)
  }

  // A change completes exactly when all agree and a peer to be added has a client. The view id has grown
  // by one iff all have agreed, even when the announcement then fails: so it does for an added peer
  // without a client.
  lemma ChangeCompletes(p: Peer, conns: Conns, operation: Operation, peerId: PeerId, replies: map<PeerId, seq<Msg>>)
    ensures var r := Modify(p, conns, operation, peerId, replies);
            var p1 := StartChange(p, operation, peerId);
            var agreed := AllAgree(p, conns, operation, peerId, replies);
            && r.peer == (if agreed then Commit(p1, operation, peerId) else p1)
            && (r.outcome == Done <==> agreed && (operation.Add? ==> peerId in conns))
            && (agreed && r.outcome != Done ==> r.outcome == NoClient(peerId))
  {
    var request := NextRequest(p, operation, peerId);
    var p1 := StartChange(p, operation, peerId);
    var clients := ClientsFor(conns, operation, peerId);
    SendAllReaches(clients, p1.alive, RequestMsg(request));
    var asked := SendAll(clients, p1.alive, RequestMsg(request));
    if asked.outcome == Done {
      var waiting := Arrived(asked.conns, replies);
      GatherNeedsEveryOk(waiting, p1.alive, request.requestId);
      GatherPops(waiting, p1.alive, request.requestId);
      var p2 := Commit(p1, operation, peerId);
      SendAllReaches(GatherOks(waiting, p1.alive, request.requestId).conns,
          p2.alive, NewViewMsg(p2.viewId, p2.GroupMembers()));
    }
  }

  // What is read of a connection while a change is made: what has been left there, and what arrives.
  function ToRead(conns: Conns, q: PeerId, replies: map<PeerId, seq<Msg>>): seq<Msg>
    requires q in conns
  {
    conns[q].inbox + if q in replies then replies[q] else []
  }

  // A change to which all agree has sent every peer that stays the request and then the new view, an added
  // peer the view alone, and nobody else anything; it has read one message of each peer that was asked. If an
  // added peer has no client, the view has only reached the smaller peers.
  ghost predicate ChangeSent(p: Peer, conns: Conns, operation: Operation, x: PeerId, replies: map<PeerId, seq<Msg>>,
      r: Change)
  {
    var asked := if operation.Del? then p.alive - {x} else p.alive;
    var request := RequestMsg(Request(p.requestCounter + 1, p.viewId, operation, x));
    var view := NewViewMsg(r.peer.viewId, r.peer.GroupMembers());
    && r.peer.requestCounter == p.requestCounter + 1 && r.peer.viewId == p.viewId + 1
    && r.peer.alive == (if operation.Add? then asked + {x} else asked)
    && (r.outcome == Done ==> r.peer.alive <= r.conns.Keys)
    && r.conns.Keys == (if operation.Del? then conns.Keys - {x} else conns.Keys)
    && forall q :: q in r.conns ==>
         && r.conns[q].sent == conns[q].sent + (if q in asked then [request] else [])
             + (if q in r.peer.alive && (r.outcome == Done || q < x) then [view] else [])
         && q in conns && (q in asked ==> ToRead(conns, q, replies) != [])
         && r.conns[q].inbox == ToRead(conns, q, replies)[if q in asked then 1 else 0..]
  }

  // The connections when the wait for the Oks has ended well.
  lemma AskedAndHeard(conns: Conns, asked: set<PeerId>, request: Msg, replies: map<PeerId, seq<Msg>>, expected: nat)
    requires asked <= conns.Keys
    ensures var r := GatherOks(Arrived(SendAll(conns, asked, request).conns, replies), asked, expected);
            && r.conns.Keys == conns.Keys
            && (forall q :: q in conns ==> r.conns[q].sent == conns[q].sent + if q in asked then [request] else [])
            && (r.outcome == Done ==> forall q :: q in conns ==>
                  && (q in asked ==> ToRead(conns, q, replies) != [])
                  && r.conns[q].inbox == ToRead(conns, q, replies)[if q in asked then 1 else 0..])
  {
    hide SendAll, GatherOks;
    SendAllReaches(conns, asked, request);
    GatherPops(Arrived(SendAll(conns, asked, request).conns, replies), asked, expected);
  }

  // The connections just before the announcement.
  function Heard(p: Peer, conns: Conns, operation: Operation, x: PeerId, replies: map<PeerId, seq<Msg>>): Conns {
    var asked := StartChange(p, operation, x).alive;
    var request := NextRequest(p, operation, x);
    GatherOks(Arrived(SendAll(ClientsFor(conns, operation, x), asked, RequestMsg(request)).conns, replies),
              asked, request.requestId).conns
  }

  lemma AgreedChange(p: Peer, conns: Conns, operation: Operation, x: PeerId, replies: map<PeerId, seq<Msg>>)
    requires AllAgree(p, conns, operation, x, replies)
    ensures var p2 := Commit(StartChange(p, operation, x), operation, x);
            var announced := SendAll(Heard(p, conns, operation, x, replies),
                                     p2.alive, NewViewMsg(p2.viewId, p2.GroupMembers()));
            Modify(p, conns, operation, x, replies) == Change(p2, announced.conns, announced.outcome)
  {
    hide SendAll, GatherOks, Arrived;
    var request := NextRequest(p, operation, x);
    var asked := StartChange(p, operation, x).alive;
    var clients := ClientsFor(conns, operation, x);
    SendAllReaches(clients, asked, RequestMsg(request));
    GatherNeedsEveryOk(Arrived(SendAll(clients, asked, RequestMsg(request)).conns, replies), asked, request.requestId);
  }

  lemma HeardAll(p: Peer, conns: Conns, operation: Operation, x: PeerId, replies: map<PeerId, seq<Msg>>)
    requires AllAgree(p, conns, operation, x, replies)
    ensures var asked := StartChange(p, operation, x).alive;
            var heard := Heard(p, conns, operation, x, replies);
            && heard.Keys == ClientsFor(conns, operation, x).Keys
            && forall q :: q in heard ==>
                 && q in conns && (q in asked ==> ToRead(conns, q, replies) != [])
                 && heard[q].sent ==
                      conns[q].sent + (if q in asked then [RequestMsg(NextRequest(p, operation, x))] else [])
                 && heard[q].inbox == ToRead(conns, q, replies)[if q in asked then 1 else 0..]
  {
    hide SendAll, GatherOks, Arrived;
    var request := NextRequest(p, operation, x);
    var asked := StartChange(p, operation, x).alive;
    var clients := ClientsFor(conns, operation, x);
    SendAllReaches(clients, asked, RequestMsg(request));
    GatherNeedsEveryOk(Arrived(SendAll(clients, asked, RequestMsg(request)).conns, replies), asked, request.requestId);
    AskedAndHeard(clients, asked, RequestMsg(request), replies, request.requestId);
    hide ToRead;
    ReadThroughClients(conns, operation, x, replies);
  }

  lemma ChangeSends(p: Peer, conns: Conns, operation: Operation, x: PeerId, replies: map<PeerId, seq<Msg>>)
    requires AllAgree(p, conns, operation, x, replies)
    ensures ChangeSent(p, conns, operation, x, replies, Modify(p, conns, operation, x, replies))
  {
    hide Modify, Heard, ToRead, AllAgree;
    AgreedChange(p, conns, operation, x, replies);
    HeardAll(p, conns, operation, x, replies);
    ChangeCompletes(p, conns, operation, x, replies);
    var p2 := Commit(StartChange(p, operation, x), operation, x);
    SendAllReaches(Heard(p, conns, operation, x, replies), p2.alive, NewViewMsg(p2.viewId, p2.GroupMembers()));
    hide SendAll;
  }

  lemma ReadThroughClients(conns: Conns, operation: Operation, x: PeerId, replies: map<PeerId, seq<Msg>>)
    ensures forall q :: q in ClientsFor(conns, operation, x) ==>
              q in conns && ToRead(ClientsFor(conns, operation, x), q, replies) == ToRead(conns, q, replies)
  {
  }

  // Unless all agree, nobody is sent more than the request.
  lemma NoViewUnlessAgreed(p: Peer, conns: Conns, operation: Operation, x: PeerId, replies: map<PeerId, seq<Msg>>)
    requires !AllAgree(p, conns, operation, x, replies)
    ensures var r := Modify(p, conns, operation, x, replies);
            forall q :: q in r.conns ==>
              && q in conns
              && r.conns[q].sent <= conns[q].sent + [RequestMsg(Request(p.requestCounter + 1, p.viewId, operation, x))]
  {
    hide SendAll, GatherOks;
    var request := NextRequest(p, operation, x);
    var remaining := StartChange(p, operation, x).alive;
    var clients := ClientsFor(conns, operation, x);
    var asked := SendAll(clients, remaining, RequestMsg(request));
    SendAllReaches(clients, remaining, RequestMsg(request));
    GatherNeedsEveryOk(Arrived(asked.conns, replies), remaining, request.requestId);
    GatherPops(Arrived(asked.conns, replies), remaining, request.requestId);
  }

  predicate OkFirst(msgs: seq<Msg>, requestId: nat) {
    msgs != [] && msgs[0].OkMsg? && msgs[0].requestId == requestId
  }

  ghost predicate AllReply(peers: set<PeerId>, replies: map<PeerId, seq<Msg>>, requestId: nat) {
    forall f :: f in peers ==> f in replies && OkFirst(replies[f], requestId)
  }

  // All agree when nothing is left to be read and each sends the right Ok.
  lemma OksAgree(p: Peer, conns: Conns, operation: Operation, x: PeerId, replies: map<PeerId, seq<Msg>>)
    requires p.alive == conns.Keys && forall f :: f in conns ==> conns[f].inbox == []
    requires AllReply(conns.Keys, replies, p.requestCounter + 1)
    ensures AllAgree(p, conns, operation, x, replies)
  {
    SendAllReaches(ClientsFor(conns, operation, x), StartChange(p, operation, x).alive,
                   RequestMsg(NextRequest(p, operation, x)));
  }

  ghost predicate HasPending(conns: Conns, p: PeerId) {
    p in conns && conns[p].inbox != [] && conns[p].inbox[0].RequestMsg?
  }

  ghost predicate ReportsChange(conns: Conns, peers: set<PeerId>, p: PeerId) {
    p in peers && HasPending(conns, p) && !conns[p].inbox[0].request.operation.Nothing?
  }

  // The wait for the survivors ends well exactly when each of them with a client answers with a request.
  // It then yields the request of the survivor with the largest id among those that report one.
  lemma {:induction false} LastReportWins(conns: Conns, peers: set<PeerId>, found: Request)
    ensures var r := CollectPending(conns, peers, found);
            && r.conns.Keys == conns.Keys
            && (r.outcome == Done <==> forall p :: p in peers && p in conns ==> HasPending(conns, p))
            && (r.outcome == Done ==>
                  || (r.found == found && forall p :: !ReportsChange(conns, peers, p))
                  || (exists p :: ReportsChange(conns, peers, p) && r.found == conns[p].inbox[0].request &&
                                  forall q :: ReportsChange(conns, peers, q) ==> q <= p))
    decreases |peers|
  {
    if peers != {} {
      var p := Least(peers);
      var rest := peers - {p};
      if p !in conns {
        LastReportWins(conns, rest, found);
        assert forall q :: ReportsChange(conns, rest, q) <==> ReportsChange(conns, peers, q);
      } else if HasPending(conns, p) {
        var m := conns[p].inbox[0];
        var conns1 := Popped(conns, p);
        var found1 := if m.request.operation.Nothing? then found else m.request;
        LastReportWins(conns1, rest, found1);
        assert forall q :: q in rest ==> (HasPending(conns1, q) <==> HasPending(conns, q));
        assert forall q :: q != p ==> (ReportsChange(conns1, rest, q) <==> ReportsChange(conns, peers, q));
        assert !ReportsChange(conns1, rest, p);
      }
    }
  }

  // Otherwise it stops at the smallest one with a client that has answered nothing, or not with a request.
  lemma {:induction false} CollectStops(conns: Conns, peers: set<PeerId>, found: Request)
    requires CollectPending(conns, peers, found).outcome != Done
    ensures var outcome := CollectPending(conns, peers, found).outcome;
            exists p :: && p in peers && p in conns && !HasPending(conns, p) && outcome == Stop(conns, p)
                        && forall q :: q in peers && q in conns && q < p ==> HasPending(conns, q)
    decreases |peers|
  {
    var p := Least(peers);
    var rest := peers - {p};
    assert forall q :: q in peers ==> p <= q;
    if p !in conns || HasPending(conns, p) {
      var conns1 := if p in conns then Popped(conns, p) else conns;
      var found1 :=
        if p !in conns || conns[p].inbox[0].request.operation.Nothing? then found else conns[p].inbox[0].request;
      CollectStops(conns1, rest, found1);
      var r :| && r in rest && r in conns1 && !HasPending(conns1, r)
               && CollectPending(conns1, rest, found1).outcome == Stop(conns1, r)
               && forall q :: q in rest && q in conns1 && q < r ==> HasPending(conns1, q);
      assert forall q :: q in rest ==> (HasPending(conns1, q) <==> HasPending(conns, q));
      assert r in peers && !HasPending(conns, r) && Stop(conns1, r) == Stop(conns, r);
    }
  }

  // It takes one message of each.
  lemma {:induction false} CollectPops(conns: Conns, peers: set<PeerId>, found: Request)
    requires CollectPending(conns, peers, found).outcome == Done
    ensures var r := CollectPending(conns, peers, found);
            && r.conns.Keys == conns.Keys
            && forall p :: p in conns ==>
                 if p in peers then conns[p].inbox != [] && r.conns[p] == conns[p].(inbox := conns[p].inbox[1..])
                 else r.conns[p] == conns[p]
    decreases |peers|
  {
    if peers != {} {
      var p := Least(peers);
      if p !in conns {
        CollectPops(conns, peers - {p}, found);
      } else {
        var m := conns[p].inbox[0];
        CollectPops(Popped(conns, p), peers - {p}, if m.request.operation.Nothing? then found else m.request);
      }
    }
  }

  // Where all answer, and all that report a change report the same one, that one is found.
  lemma CollectKnown(conns: Conns, operation: Operation, x: PeerId)
    requires !operation.Nothing?
    requires forall p :: p in conns ==> |conns[p].inbox| == 1 && HasPending(conns, p)
    requires forall p :: p in conns && HasPending(conns, p) ==>
               var r := conns[p].inbox[0].request;
               r.operation.Nothing? || (r.operation == operation && r.peerId == x)
    ensures var r := CollectPending(conns, conns.Keys, NO_REQUEST);
            && r.outcome == Done && r.conns.Keys == conns.Keys && (forall p :: p in conns ==> r.conns[p].inbox == [])
            && if exists p :: ReportsChange(conns, conns.Keys, p)
               then r.found.operation == operation && r.found.peerId == x else r.found.operation.Nothing?
  {
    LastReportWins(conns, conns.Keys, NO_REQUEST);
    CollectPops(conns, conns.Keys, NO_REQUEST);
  }

  // The new leader's half of handleLeaderCrash. `reachable` are the peers it can connect to, `answers`
  // and `replies` what they send while it waits for their pending requests and for their Oks.
  function Recover(p: Peer, reachable: set<PeerId>, answers: map<PeerId, seq<Msg>>,
      replies: map<PeerId, seq<Msg>>): Change
  {
    var p1 := p.(requestCounter := p.requestCounter + 1, alive := (p.alive - {p.leader}) * reachable);
    var greeted := Greeted(p1.alive, NewLeaderMsg(p1.requestCounter, p1.viewId));
    var collected := CollectPending(Arrived(greeted, answers), p1.alive, NO_REQUEST);
    if collected.outcome != Done then
      Change(p1, collected.conns, collected.outcome)
    else
      var r :=
        if collected.found.operation.Nothing? then
          var announced := SendAll(collected.conns, p1.alive, NewViewMsg(p1.viewId, p1.GroupMembers()));
          Change(p1, announced.conns, announced.outcome)
        else
          Modify(p1, collected.conns, collected.found.operation, collected.found.peerId, replies);
      if r.outcome == Done then r.(peer := r.peer.(leader := p.me)) else r
  }

  lemma GreetedAreClients(peers: set<PeerId>, msg: Msg, answers: map<PeerId, seq<Msg>>)
    ensures Arrived(Greeted(peers, msg), answers).Keys == peers
  {
  }

  // A recovery succeeds if and only if every survivor answers, and, where a change is found, all agree to
  // it and a peer to be added is a survivor. The view id grows iff a change is found and all agree: so it
  // has grown when the announcement of a recovered addition fails for want of a client.
  lemma RecoveryCompletes(p: Peer, reachable: set<PeerId>, answers: map<PeerId, seq<Msg>>,
      replies: map<PeerId, seq<Msg>>)
    ensures var r := Recover(p, reachable, answers, replies);
            var survivors := (p.alive - {p.leader}) * reachable;
            var p1 := p.(requestCounter := p.requestCounter + 1, alive := survivors);
            var waiting := Arrived(Greeted(survivors, NewLeaderMsg(p.requestCounter + 1, p.viewId)), answers);
            var collected := CollectPending(waiting, survivors, NO_REQUEST);
            var found := collected.found;
            var answered := forall q :: q in survivors ==> HasPending(waiting, q);
            var agreed := AllAgree(p1, collected.conns, found.operation, found.peerId, replies);
            && (r.outcome == Done <==>
                  answered && (found.operation.Nothing? ||
                               (agreed && (found.operation.Add? ==> found.peerId in survivors))))
            && r.peer.viewId == p.viewId + (if answered && !found.operation.Nothing? && agreed then 1 else 0)
            && (answered && agreed && found.operation.Add? && found.peerId !in survivors ==>
                  r.outcome == NoClient(found.peerId))
            && (r.outcome == Done ==>
                  && r.peer.leader == p.me
                  && r.peer.GroupMembers() ==
                      (if found.operation.Del? then survivors - {found.peerId} else survivors) + {p.me})
  {
    hide SendAll, GatherOks, CollectPending, Modify, Arrived, HasPending, HasOk, Greeted, AllAgree;
    var p1 := p.(requestCounter := p.requestCounter + 1, alive := (p.alive - {p.leader}) * reachable);
    var waiting := Arrived(Greeted(p1.alive, NewLeaderMsg(p1.requestCounter, p1.viewId)), answers);
    var collected := CollectPending(waiting, p1.alive, NO_REQUEST);
    GreetedAreClients(p1.alive, NewLeaderMsg(p1.requestCounter, p1.viewId), answers);
    LastReportWins(waiting, p1.alive, NO_REQUEST);
    if collected.outcome == Done {
      SendAllReaches(collected.conns, p1.alive, NewViewMsg(p1.viewId, p1.GroupMembers()));
      ChangeCompletes(p1, collected.conns, collected.found.operation, collected.found.peerId, replies);
    }
  }

  // The first change of all: peer 1 leads alone, and peer 2 joins it.
  lemma FirstJoin()
    ensures Modify(NewPeer(1, 1), map[2 := Conn([], [])], Add, 2, map[]) ==
            Change(Peer(1, 1, 2, 2, {2}, NO_REQUEST), map[2 := Conn([NewViewMsg(2, {1, 2})], [])], Done)
  {
    var conns := map[2 := Conn([], [])];
    assert Arrived(conns, map[]) == conns;
    assert {} + {2} == {2} && {2} + {1} == {1, 2};
    var view := NewViewMsg(2, {1, 2});
    SendAllReaches(conns, {2}, view);
    var announced := SendAll(conns, {2}, view).conns;
    assert announced.Keys == {2} && announced[2] == Conn([view], []);
    assert announced == map[2 := Conn([view], [])];
  }

  // The connections of the new leader when all have answered it, and the request it has found.
  function Answered(p: Peer, reachable: set<PeerId>, answers: map<PeerId, seq<Msg>>): Collection {
    var survivors := (p.alive - {p.leader}) * reachable;
    var greeted := Greeted(survivors, NewLeaderMsg(p.requestCounter + 1, p.viewId));
    CollectPending(Arrived(greeted, answers), survivors, NO_REQUEST)
  }

  lemma AnsweredOnce(p: Peer, reachable: set<PeerId>, answers: map<PeerId, seq<Msg>>)
    requires Answered(p, reachable, answers).outcome == Done
    ensures var r := Answered(p, reachable, answers);
            && r.conns.Keys == (p.alive - {p.leader}) * reachable
            && forall q :: q in r.conns ==> r.conns[q].sent == [NewLeaderMsg(p.requestCounter + 1, p.viewId)]
  {
    hide CollectPending;
    var survivors := (p.alive - {p.leader}) * reachable;
    var greeted := Greeted(survivors, NewLeaderMsg(p.requestCounter + 1, p.viewId));
    CollectPops(Arrived(greeted, answers), survivors, NO_REQUEST);
  }

  // A recovery that succeeds sends every member of its group the same: first who leads, then, where a change
  // is completed, the request, and last the view in which the new leader ends.
  lemma RecoverySends(p: Peer, reachable: set<PeerId>, answers: map<PeerId, seq<Msg>>, replies: map<PeerId, seq<Msg>>)
    requires Recover(p, reachable, answers, replies).outcome == Done
    ensures var r := Recover(p, reachable, answers, replies);
            var found := Answered(p, reachable, answers).found;
            && r.conns.Keys == r.peer.alive
            && forall q :: q in r.conns ==>
                 r.conns[q].sent ==
                   [NewLeaderMsg(p.requestCounter + 1, p.viewId)]
                   + (if found.operation.Nothing? then []
                      else [RequestMsg(Request(p.requestCounter + 2, p.viewId, found.operation, found.peerId))])
                   + [NewViewMsg(r.peer.viewId, r.peer.GroupMembers())]
  {
    hide CollectPending, Arrived, Greeted, SendAll, Modify, ToRead, AllAgree;
    AnsweredOnce(p, reachable, answers);
    RecoveryCompletes(p, reachable, answers, replies);
    var p1 := p.(requestCounter := p.requestCounter + 1, alive := (p.alive - {p.leader}) * reachable);
    var collected := Answered(p, reachable, answers);
    hide Answered;
    if collected.found.operation.Nothing? {
      SendAllReaches(collected.conns, p1.alive, NewViewMsg(p1.viewId, p1.GroupMembers()));
    } else {
      ChangeCompletes(p1, collected.conns, collected.found.operation, collected.found.peerId, replies);
      ChangeSends(p1, collected.conns, collected.found.operation, collected.found.peerId, replies);
    }
  }

  class MembershipService {
    const myPeerId: PeerId
    var leaderPeerId: PeerId
    var requestCounter: nat
    var viewId: nat
    var alivePeers: set<PeerId>
    var tcpClientMap: map<PeerId, Conn>
    var pendingRequest: Request

    function State(): Peer
      reads this
    {
      Peer(myPeerId, leaderPeerId, requestCounter, viewId, alivePeers, pendingRequest)
    }

    constructor (myPeerId: PeerId, leaderPeerId: PeerId)
      ensures State() == NewPeer(myPeerId, leaderPeerId) && tcpClientMap == map[]
    {
      this.myPeerId := myPeerId;
      this.leaderPeerId := leaderPeerId;
      requestCounter, viewId, alivePeers, tcpClientMap, pendingRequest := 1, 1, {}, map[], NO_REQUEST;
    }

    method ProcessRequestMsg(request: Request) returns (ok: Msg)
      modifies this
      ensures State() == OnRequest(old(State()), request) && ok == OkFor(State())
      ensures tcpClientMap == old(tcpClientMap)
    {
      pendingRequest := request;
      ok := OkMsg(pendingRequest.requestId, viewId);
    }

    method ProcessNewViewMsg(newViewId: nat, members: set<PeerId>)
      modifies this
      ensures State() == OnNewView(old(State()), newViewId, members)
      ensures tcpClientMap == old(tcpClientMap)
    {
      viewId := newViewId;
      alivePeers := members - {myPeerId};
      pendingRequest := NO_REQUEST;
    }

    // The sending loops of sendRequestMsg, sendNewViewMsg.
    method Send(msg: Msg) returns (outcome: Outcome)
      modifies this
      ensures State() == old(State())
      ensures Sending(tcpClientMap, outcome) == SendAll(old(tcpClientMap), alivePeers, msg)
    {
      var todo := alivePeers;
      while todo != {}
        invariant State() == old(State())
        invariant SendAll(tcpClientMap, todo, msg) == SendAll(old(tcpClientMap), alivePeers, msg)
        decreases |todo|
      {
        var p := Least(todo);
        if p !in tcpClientMap {
          return NoClient(p);
        }
        tcpClientMap := tcpClientMap[p := tcpClientMap[p].(sent := tcpClientMap[p].sent + [msg])];
        todo := todo - {p};
      }
      outcome := Done;
    }

    method WaitForOkMsg(expectedRequestId: nat) returns (outcome: Outcome)
      modifies this
      ensures State() == old(State())
      ensures Waiting(tcpClientMap, outcome) == GatherOks(old(tcpClientMap), alivePeers, expectedRequestId)
    {
      var todo := alivePeers;
      while todo != {}
        invariant State() == old(State())
        invariant GatherOks(tcpClientMap, todo, expectedRequestId) ==
                    GatherOks(old(tcpClientMap), alivePeers, expectedRequestId)
        decreases |todo|
      {
        var p := Least(todo);
        if p !in tcpClientMap {
          return NoClient(p);
        }
        if tcpClientMap[p].inbox == [] {
          return Blocked(p);
        }
        var m := tcpClientMap[p].inbox[0];
        tcpClientMap := tcpClientMap[p := tcpClientMap[p].(inbox := tcpClientMap[p].inbox[1..])];
        if !(m.OkMsg? && m.requestId == expectedRequestId) {
          return CheckFailed(p);
        }
        todo := todo - {p};
      }
      outcome := Done;
    }

    method WaitForPendingRequestMsg() returns (outcome: Outcome, found: Request)
      modifies this
      ensures State() == old(State())
      ensures Collection(tcpClientMap, outcome, found) == CollectPending(old(tcpClientMap), alivePeers, NO_REQUEST)
    {
      found := NO_REQUEST;
      var todo := alivePeers;
      while todo != {}
        invariant State() == old(State())
        invariant CollectPending(tcpClientMap, todo, found) == CollectPending(old(tcpClientMap), alivePeers, NO_REQUEST)
        decreases |todo|
      {
        var p := Least(todo);
        if p in tcpClientMap {
          if tcpClientMap[p].inbox == [] {
            outcome := Blocked(p);
            return;
          }
          var m := tcpClientMap[p].inbox[0];
          tcpClientMap := tcpClientMap[p := tcpClientMap[p].(inbox := tcpClientMap[p].inbox[1..])];
          if !m.RequestMsg? {
            outcome := CheckFailed(p);
            return;
          }
          if !m.request.operation.Nothing? {
            found := m.request;
          }
        }
        todo := todo - {p};
      }
      outcome := Done;
    }

    // sendNewLeaderMsg, after the old connections are dropped. `reachable` are the peers that can be
    // connected to; the others leave the group.
    method SendNewLeaderMsg(reachable: set<PeerId>)
      modifies this
      ensures State() == old(State()).(requestCounter := old(requestCounter) + 1, alive := old(alivePeers) * reachable)
      ensures tcpClientMap == Greeted(alivePeers, NewLeaderMsg(requestCounter, viewId))
    {
      requestCounter := requestCounter + 1;
      tcpClientMap := map[];
      var todo, kept := alivePeers, {};
      while todo != {}
        invariant State() == old(State()).(requestCounter := old(requestCounter) + 1)
        invariant todo <= alivePeers && kept == (alivePeers - todo) * reachable
        invariant tcpClientMap == Greeted(kept, NewLeaderMsg(requestCounter, viewId))
        decreases |todo|
      {
        var p := Least(todo);
        if p in reachable {
          tcpClientMap := tcpClientMap[p := Conn([NewLeaderMsg(requestCounter, viewId)], [])];
          kept := kept + {p};
        }
        todo := todo - {p};
      }
      alivePeers := kept;
    }

    // `replies` is what the peers send while the leader waits.
    method ModifyGroupMembership(peerId: PeerId, operation: Operation, replies: map<PeerId, seq<Msg>>)
      returns (outcome: Outcome)
      modifies this
      ensures Change(State(), tcpClientMap, outcome) ==
              Modify(old(State()), old(tcpClientMap), operation, peerId, replies)
    {
      hide SendAll, GatherOks, Arrived;
      var request := Request(requestCounter + 1, viewId, operation, peerId);
      requestCounter := requestCounter + 1;
      if operation.Del? {
        tcpClientMap := tcpClientMap - {peerId};
        alivePeers := alivePeers - {peerId};
      }
      outcome := Send(RequestMsg(request));
      if outcome != Done {
        return;
      }
      tcpClientMap := Arrived(tcpClientMap, replies);
      outcome := WaitForOkMsg(request.requestId);
      if outcome != Done {
        return;
      }
      if operation.Add? {
        alivePeers := alivePeers + {peerId};
      }
      viewId := viewId + 1;
      outcome := Send(NewViewMsg(viewId, alivePeers + {myPeerId}));
    }

    // handleLeaderCrash, for the survivor that is to lead.
    method TakeOver(reachable: set<PeerId>, answers: map<PeerId, seq<Msg>>, replies: map<PeerId, seq<Msg>>)
      returns (outcome: Outcome)
      modifies this
      ensures Change(State(), tcpClientMap, outcome) == Recover(old(State()), reachable, answers, replies)
    {
      hide SendAll, CollectPending, Arrived, Modify, Greeted;
      alivePeers := alivePeers - {leaderPeerId};
      SendNewLeaderMsg(reachable);
      tcpClientMap := Arrived(tcpClientMap, answers);
      var found;
      outcome, found := WaitForPendingRequestMsg();
      if outcome != Done {
        return;
      }
      if found.operation.Nothing? {
        outcome := Send(NewViewMsg(viewId, alivePeers + {myPeerId}));
      } else {
        outcome := ModifyGroupMembership(found.peerId, found.operation, replies);
      }
      if outcome == Done {
        leaderPeerId := myPeerId;
      }
    }
  }
}
