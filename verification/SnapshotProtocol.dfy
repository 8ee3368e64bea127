/** One global snapshot: n processes, their messages and their markers. */
module SnapshotProtocol {
  import opened Messages
  import opened SnapshotServices

  // The state of a process, as far as a cut is concerned: all it has sent to and received from each process.
  datatype App = App(sent: map<Pid, seq<string>>, rcvd: map<Pid, seq<string>>)

  function Log(logs: map<Pid, seq<string>>, p: Pid): seq<string> {
    if p in logs then logs[p] else []
  }

  function Logged(logs: map<Pid, seq<string>>, p: Pid, message: string): map<Pid, seq<string>> {
    logs[p := Log(logs, p) + [message]]
  }

  datatype Letter = Letter(src: Pid, message: string)

  // `toTell` are the peers to which the marker is still to be sent, and `told`, a history, what had been
  // sent to the others when theirs was. `hand` is the message that the listening thread has passed to the
  // snapshot service and not yet dropped or handled; `missed`, a history, what was in hand when the state
  // was recorded.
  datatype Node = Node(
    app: App,
    snap: Snap<App>,
    toTell: set<Pid>,
    told: map<Pid, seq<string>>,
    hand: Option<Letter>,
    missed: Option<Letter>
  )

  datatype Wire = Wire(src: Pid, dst: Pid)

  datatype World = World(
    initiator: Pid,
    nodes: map<Pid, Node>,
    flying: multiset<Wire>,       // markers on their way
    markersSent: multiset<Wire>,  // history
    handled: set<Wire>            // history: markers that have been processed
  )

  datatype Step =
    | Send(src: Pid, dst: Pid, message: string)
    | Arrive(src: Pid, dst: Pid, message: string)
    | Handle(dst: Pid)
    | Drop(dst: Pid)
    | Initiate
    | TakeOwn
    | Tell(src: Pid, dst: Pid)
    | Marker(src: Pid, dst: Pid)

  function Peers(w: World, p: Pid): set<Pid> {
    w.nodes.Keys - {p}
  }

  function Wires(nodes: set<Pid>): set<Wire> {
    set p, q | p in nodes && q in nodes && p != q :: Wire(p, q)
  }

  function InitWorld(initiator: Pid, nodes: set<Pid>): World {
    var node := Node(App(map[], map[]), NewSnap(), {}, map[], None, None);
    World(initiator, map p | p in nodes :: node, multiset{}, multiset{}, {})
  }

  // Messages may be lost, repeated and reordered: what arrives is not tied to what was sent. While a process
  // sends its markers it holds the lock that recording a message and handling a marker take.
  predicate Enabled(w: World, step: Step) {
    match step
    case Send(p, q, _) => p in w.nodes && q in w.nodes
    case Arrive(p, q, _) =>
      && p in w.nodes && q in w.nodes && w.nodes[q].snap.Valid() && w.nodes[q].hand.None?
      && w.nodes[q].toTell == {}
    case Handle(q) => q in w.nodes && w.nodes[q].hand.Some?
    case Drop(q) => q in w.nodes && w.nodes[q].hand.Some?
    case Initiate => w.initiator in w.nodes && !w.nodes[w.initiator].snap.initiated
    case TakeOwn =>
      && w.initiator in w.nodes && w.nodes[w.initiator].snap.initiated
      && w.nodes[w.initiator].snap.localState.None?
    case Tell(p, q) => p in w.nodes && q in w.nodes[p].toTell
    case Marker(p, q) => q in w.nodes && Wire(p, q) in w.flying && w.nodes[q].toTell == {}
  }

  function Apply(w: World, step: Step): World
    requires Enabled(w, step)
  {
    match step
    case Send(p, q, m) =>
      var n := w.nodes[p];
      w.(nodes := w.nodes[p := n.(app := n.app.(sent := Logged(n.app.sent, q, m)))])
    case Arrive(p, q, m) =>
      var n := w.nodes[q];
      w.(nodes := w.nodes[q := n.(snap := RecordIncoming(n.snap, p, m), hand := Some(Letter(p, m)))])
    case Handle(q) =>
      var n := w.nodes[q];
      var l := n.hand.value;
      w.(nodes := w.nodes[q := n.(app := n.app.(rcvd := Logged(n.app.rcvd, l.src, l.message)), hand := None)])
    case Drop(q) => w.(nodes := w.nodes[q := w.nodes[q].(hand := None)])
    case Initiate =>
      var n := w.nodes[w.initiator];
      w.(nodes := w.nodes[w.initiator := n.(snap := n.snap.(initiated := true))])
    case TakeOwn =>
      var n := w.nodes[w.initiator];
      var peers := Peers(w, w.initiator);
      var n1 := n.(snap := TakeLocal(n.snap, n.app, peers));
      w.(nodes := w.nodes[w.initiator := n1.(toTell := peers, missed := n.hand)])
    case Tell(p, q) =>
      var n := w.nodes[p];
      w.(nodes := w.nodes[p := n.(toTell := n.toTell - {q}, told := n.told[q := Log(n.app.sent, q)])],
         flying := w.flying + multiset{Wire(p, q)},
         markersSent := w.markersSent + multiset{Wire(p, q)})
    case Marker(p, q) =>
      var n := w.nodes[q];
      var n1 := n.(snap := OnMarker(n.snap, p, n.app, Peers(w, q)));
      w.(nodes := w.nodes[q := if n.snap.initiated then n1 else n1.(toTell := Peers(w, q), missed := n.hand)],
         flying := w.flying - multiset{Wire(p, q)},
         handled := w.handled + {Wire(p, q)})
  }

  ghost predicate Run(w: World, steps: seq<Step>, w': World)
    decreases |steps|
  {
    if steps == [] then
      w == w'
    else
      Enabled(w, steps[0]) && Run(Apply(w, steps[0]), steps[1..], w')
  }

  ghost predicate Reachable(w: World) {
    exists nodes, steps :: w.initiator in nodes && Run(InitWorld(w.initiator, nodes), steps, w)
  }

  predicate Taken(w: World, p: Pid) {
    p in w.nodes && w.nodes[p].snap.localState.Some?
  }

  /* ----- the accounting ----- */

  ghost predicate NodeOk(w: World, p: Pid)
    requires p in w.nodes
  {
    var s := w.nodes[p].snap;
    && (s.localState.Some? ==> s.initiated)
    && (s.initiated && s.localState.None? ==> p == w.initiator)
    && s.toRecord == (if s.localState.Some? then set r | r in Peers(w, p) && Wire(r, p) !in w.handled else {})
    && s.Valid() && (s.localState.None? ==> s.incoming == map[])
    && (forall r :: r in w.nodes && r != p && s.localState.None? ==> Wire(r, p) !in w.handled)
  }

  // The marker of p for q has been sent.
  predicate Told(w: World, p: Pid, q: Pid) {
    p in w.nodes && q in w.nodes[p].told
  }

  ghost predicate TellOk(w: World, p: Pid)
    requires p in w.nodes
  {
    var n := w.nodes[p];
    && n.toTell <= Peers(w, p) && n.told.Keys == (if Taken(w, p) then Peers(w, p) - n.toTell else {})
    && (!Taken(w, p) ==> n.toTell == {})
  }

  ghost predicate WiresOk(w: World) {
    && (forall e: Wire :: Told(w, e.src, e.dst) ==> e in Wires(w.nodes.Keys) && Taken(w, e.src))
    && (forall e :: w.markersSent[e] == if Told(w, e.src, e.dst) then 1 else 0)
    && (forall e :: w.flying[e] + (if e in w.handled then 1 else 0) == w.markersSent[e])
  }

  ghost predicate WorldOk(w: World) {
    && w.initiator in w.nodes && WiresOk(w)
    && (forall p :: p in w.nodes ==> NodeOk(w, p) && TellOk(w, p))
    && (!Taken(w, w.initiator) ==> forall p :: !Taken(w, p))
  }

  lemma SameNodes(w: World, step: Step)
    requires Enabled(w, step)
    ensures Apply(w, step).nodes.Keys == w.nodes.Keys && Apply(w, step).initiator == w.initiator
  {
    hide OnMarker, TakeLocal, RecordIncoming, Logged;
  }

  // Which snapshot a step changes, and how.
  lemma StepChanges(w: World, step: Step, p: Pid)
    requires Enabled(w, step) && p in w.nodes
    ensures var s := w.nodes[p].snap;
            p in Apply(w, step).nodes &&
            Apply(w, step).nodes[p].snap ==
              match step
              case Arrive(r, q, m) => if p == q then RecordIncoming(s, r, m) else s
              case Initiate => if p == w.initiator then s.(initiated := true) else s
              case TakeOwn => if p == w.initiator then TakeLocal(s, w.nodes[p].app, Peers(w, p)) else s
              case Marker(r, q) => if p == q then OnMarker(s, r, w.nodes[p].app, Peers(w, p)) else s
              case _ => s
    ensures Taken(Apply(w, step), p) <==>
              || Taken(w, p)
              || (step.TakeOwn? && p == w.initiator)
              || (step.Marker? && p == step.dst && !w.nodes[p].snap.initiated)
  {
  }

  // Which markers a step leaves to be sent, and which it sends.
  lemma TellingChanges(w: World, step: Step, p: Pid)
    requires Enabled(w, step) && p in w.nodes
    ensures var n := w.nodes[p];
            p in Apply(w, step).nodes &&
            Apply(w, step).nodes[p].toTell ==
              match step
              case TakeOwn => if p == w.initiator then Peers(w, p) else n.toTell
              case Tell(r, q) => if p == r then n.toTell - {q} else n.toTell
              case Marker(r, q) => if p == q && !n.snap.initiated then Peers(w, p) else n.toTell
              case _ => n.toTell
    ensures var n := w.nodes[p];
            Apply(w, step).nodes[p].told ==
              if step.Tell? && p == step.src then n.told[step.dst := Log(n.app.sent, step.dst)] else n.told
  {
  }

  // A marker on its way has a sender that has taken its snapshot, and has not been handled.
  lemma FlyingMarker(w: World, p: Pid, q: Pid)
    requires WiresOk(w) && Wire(p, q) in w.flying
    ensures w.flying[Wire(p, q)] == 1 && Wire(p, q) !in w.handled
    ensures Told(w, p, q) && Taken(w, p) && q in Peers(w, p)
  {
    assert w.markersSent[Wire(p, q)] == if Told(w, p, q) then 1 else 0;
    assert Told(w, Wire(p, q).src, Wire(p, q).dst);
  }

  lemma StepKeepsNode(w: World, step: Step, p: Pid)
    requires Enabled(w, step) && p in w.nodes && NodeOk(w, p)
    requires step.Marker? ==> step.src in Peers(w, step.dst) && Taken(w, w.initiator)
    ensures p in Apply(w, step).nodes && NodeOk(Apply(w, step), p)
  {
    hide NodeOk, OnMarker, RecordIncoming, TakeLocal;
    SameNodes(w, step);
    StepChanges(w, step, p);
    hide Apply;
    if step.Marker? {
      HandledGrows(w, step);
      MarkerKeepsNode(w, Apply(w, step), step.src, step.dst, p);
    } else {
      SameHandled(w, step);
      OtherKeepsNode(w, Apply(w, step), step, p);
    }
  }

  lemma HandledGrows(w: World, step: Step)
    requires step.Marker? && Enabled(w, step)
    ensures Apply(w, step).handled == w.handled + {Wire(step.src, step.dst)}
  {
  }

  lemma SameHandled(w: World, step: Step)
    requires !step.Marker? && Enabled(w, step)
    ensures Apply(w, step).handled == w.handled
  {
  }

  lemma MarkerKeepsNode(w: World, w': World, p: Pid, q: Pid, r: Pid)
    requires w'.nodes.Keys == w.nodes.Keys && w'.initiator == w.initiator && r in w.nodes && q in w.nodes
    requires NodeOk(w, r) && p in Peers(w, q) && Taken(w, w.initiator) && w'.handled == w.handled + {Wire(p, q)}
    requires w'.nodes[r].snap ==
             if r == q then OnMarker(w.nodes[r].snap, p, w.nodes[r].app, Peers(w, r)) else w.nodes[r].snap
    ensures NodeOk(w', r)
  {
  }

  lemma OtherKeepsNode(w: World, w': World, step: Step, p: Pid)
    requires !step.Marker? && Enabled(w, step) && p in w.nodes && NodeOk(w, p)
    requires w'.nodes.Keys == w.nodes.Keys && w'.initiator == w.initiator && w'.handled == w.handled
    requires var s := w.nodes[p].snap;
             w'.nodes[p].snap ==
               match step
               case Arrive(r, q, m) => if p == q then RecordIncoming(s, r, m) else s
               case Initiate => if p == w.initiator then s.(initiated := true) else s
               case TakeOwn => if p == w.initiator then TakeLocal(s, w.nodes[p].app, Peers(w, p)) else s
               case _ => s
    ensures NodeOk(w', p)
  {
  }

  lemma SameMarkersKeepWires(w: World, w': World)
    requires WiresOk(w) && w'.nodes.Keys == w.nodes.Keys
    requires forall p :: Taken(w, p) ==> Taken(w', p)
    requires forall p, q :: Told(w', p, q) <==> Told(w, p, q)
    requires w'.markersSent == w.markersSent
    requires forall e :: w'.flying[e] + (if e in w'.handled then 1 else 0) ==
                         w.flying[e] + (if e in w.handled then 1 else 0)
    ensures WiresOk(w')
  {
    hide Taken, Told, Wires;
  }

  lemma WhoIsTold(w: World, step: Step)
    requires Enabled(w, step)
    ensures forall p, q :: Told(Apply(w, step), p, q) <==> Told(w, p, q) || step == Tell(p, q)
  {
    hide Apply;
    SameNodes(w, step);
    forall p | p in w.nodes
      ensures forall q :: Told(Apply(w, step), p, q) <==> Told(w, p, q) || step == Tell(p, q)
    {
      TellingChanges(w, step, p);
    }
  }

  lemma WhoHasTaken(w: World, step: Step)
    requires Enabled(w, step)
    ensures forall p :: Taken(Apply(w, step), p) <==>
              || Taken(w, p)
              || (step.TakeOwn? && p == w.initiator)
              || (step.Marker? && p == step.dst && !w.nodes[p].snap.initiated)
  {
    SameNodes(w, step);
    forall p | p in w.nodes
      ensures Taken(Apply(w, step), p) <==>
                || Taken(w, p)
                || (step.TakeOwn? && p == w.initiator)
                || (step.Marker? && p == step.dst && !w.nodes[p].snap.initiated)
    {
      StepChanges(w, step, p);
    }
  }

  lemma MarkersAfter(w: World, step: Step)
    requires Enabled(w, step) && !step.Tell? && WiresOk(w)
    ensures Apply(w, step).markersSent == w.markersSent
    ensures forall e :: Apply(w, step).flying[e] + (if e in Apply(w, step).handled then 1 else 0) ==
                        w.flying[e] + (if e in w.handled then 1 else 0)
  {
    hide WiresOk, OnMarker, TakeLocal, RecordIncoming;
    if step.Marker? {
      FlyingMarker(w, step.src, step.dst);
    }
  }

  lemma OneMoreMarker(w: World, w': World, p: Pid, q: Pid)
    requires WiresOk(w) && w'.nodes.Keys == w.nodes.Keys && Wire(p, q) in Wires(w.nodes.Keys)
    requires !Told(w, p, q) && Taken(w, p) && forall r :: Taken(w, r) ==> Taken(w', r)
    requires forall r, t :: Told(w', r, t) <==> Told(w, r, t) || (r == p && t == q)
    requires w'.markersSent == w.markersSent + multiset{Wire(p, q)}
    requires w'.flying == w.flying + multiset{Wire(p, q)} && w'.handled == w.handled
    ensures WiresOk(w')
  {
    hide Taken, Told, Wires;
    assert forall e: Wire :: e == Wire(p, q) <==> e.src == p && e.dst == q;
  }

  lemma TellKeepsWires(w: World, p: Pid, q: Pid)
    requires Enabled(w, Tell(p, q)) && WiresOk(w) && TellOk(w, p)
    ensures WiresOk(Apply(w, Tell(p, q)))
  {
    var w' := Apply(w, Tell(p, q));
    assert !Told(w, p, q) && Taken(w, p) && Wire(p, q) in Wires(w.nodes.Keys);
    hide WiresOk, TellOk, Taken, Told, Wires;
    SameNodes(w, Tell(p, q));
    WhoHasTaken(w, Tell(p, q));
    WhoIsTold(w, Tell(p, q));
    OneMoreMarker(w, w', p, q);
  }

  lemma StepKeepsWires(w: World, step: Step)
    requires Enabled(w, step) && WiresOk(w) && (step.Tell? ==> TellOk(w, step.src))
    ensures WiresOk(Apply(w, step))
  {
    hide WiresOk, Apply, TellOk;
    if step.Tell? {
      TellKeepsWires(w, step.src, step.dst);
    } else {
      SameNodes(w, step);
      WhoHasTaken(w, step);
      WhoIsTold(w, step);
      MarkersAfter(w, step);
      SameMarkersKeepWires(w, Apply(w, step));
    }
  }

  lemma StepKeepsTelling(w: World, step: Step, p: Pid)
    requires Enabled(w, step) && p in w.nodes && NodeOk(w, p) && TellOk(w, p)
    ensures p in Apply(w, step).nodes && TellOk(Apply(w, step), p)
  {
    hide Apply;
    SameNodes(w, step);
    StepChanges(w, step, p);
    TellingChanges(w, step, p);
    hide OnMarker, TakeLocal, RecordIncoming;
  }

  lemma StepKeepsOk(w: World, step: Step)
    requires Enabled(w, step) && WorldOk(w)
    ensures WorldOk(Apply(w, step))
  {
    hide Enabled, Apply, WiresOk, NodeOk, TellOk;
    var w' := Apply(w, step);
    SameNodes(w, step);
    if step.Marker? {
      MarkerIsFlying(w, step.src, step.dst);
    } else if step.Tell? {
      TellerIsThere(w, step.src, step.dst);
    }
    StepKeepsWires(w, step);
    forall p | p in w'.nodes ensures NodeOk(w', p) && TellOk(w', p) {
      StepKeepsNode(w, step, p);
      StepKeepsTelling(w, step, p);
    }
    if !Taken(w', w.initiator) {
      StepChanges(w, step, w.initiator);
      forall p | p in w.nodes ensures !Taken(w', p) {
        StepChanges(w, step, p);
      }
    }
  }

  lemma TellerIsThere(w: World, p: Pid, q: Pid)
    requires Enabled(w, Tell(p, q))
    ensures p in w.nodes
  {
  }

  lemma MarkerIsFlying(w: World, p: Pid, q: Pid)
    requires Enabled(w, Marker(p, q)) && WiresOk(w)
    ensures q in w.nodes && p in Peers(w, q) && Taken(w, p)
  {
    FlyingMarker(w, p, q);
  }

  lemma InitIsOk(initiator: Pid, nodes: set<Pid>)
    requires initiator in nodes
    ensures WorldOk(InitWorld(initiator, nodes))
  {
  }

  lemma {:induction false} RunKeepsOk(w: World, steps: seq<Step>, w': World)
    requires WorldOk(w) && Run(w, steps, w')
    ensures WorldOk(w')
    decreases |steps|
  {
    hide WorldOk, Enabled, Apply;
    if steps != [] {
      StepKeepsOk(w, steps[0]);
      RunKeepsOk(Apply(w, steps[0]), steps[1..], w');
    }
  }

  lemma ReachableIsOk(w: World)
    requires Reachable(w)
    ensures WorldOk(w)
  {
    hide WorldOk;
    var nodes, steps :| w.initiator in nodes && Run(InitWorld(w.initiator, nodes), steps, w);
    InitIsOk(w.initiator, nodes);
    RunKeepsOk(InitWorld(w.initiator, nodes), steps, w);
  }
}
