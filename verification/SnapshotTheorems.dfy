/** What a finished snapshot is worth. */
module SnapshotTheorems {
  import opened FiniteSets
  import opened Messages
  import opened SnapshotServices
  import opened SnapshotProtocol

  /* ----- accounting, whatever the network does to messages and in whatever order markers come ----- */

  // Each process that has recorded its state has sent one marker to every peer, or is still to send it, and
  // no other process has sent any; it records a channel exactly as long as the marker of that channel has
  // not been handled, and always has a place for what arrives there.
  lemma SnapshotAccounting(w: World, p: Pid)
    requires Reachable(w) && p in w.nodes
    ensures forall q :: w.markersSent[Wire(p, q)] ==
              if Taken(w, p) && q in Peers(w, p) && q !in w.nodes[p].toTell then 1 else 0
    ensures w.nodes[p].toTell <= Peers(w, p) && (!Taken(w, p) ==> w.nodes[p].toTell == {})
    ensures forall r :: r in Peers(w, p) ==>
              (r in w.nodes[p].snap.toRecord <==> Taken(w, p) && Wire(r, p) !in w.handled)
    ensures w.nodes[p].snap.Valid() && w.nodes[p].snap.toRecord <= Peers(w, p)
  {
    ReachableIsOk(w);
    assert NodeOk(w, p) && TellOk(w, p);
  }

  // The recorded state is never replaced.
  lemma LocalStateIsFinal(w: World, steps: seq<Step>, w': World, p: Pid)
    requires Reachable(w) && Taken(w, p) && Run(w, steps, w')
    ensures Taken(w', p) && w'.nodes[p].snap.localState == w.nodes[p].snap.localState
  {
    ReachableIsOk(w);
    RunKeepsState(w, steps, w', p);
  }

  lemma {:induction false} RunKeepsState(w: World, steps: seq<Step>, w': World, p: Pid)
    requires WorldOk(w) && Taken(w, p) && Run(w, steps, w')
    ensures Taken(w', p) && w'.nodes[p].snap.localState == w.nodes[p].snap.localState
    decreases |steps|
  {
    hide WorldOk, Enabled, Apply;
    if steps != [] {
      StepKeepsOk(w, steps[0]);
      StateIsKept(w, steps[0], p);
      RunKeepsState(Apply(w, steps[0]), steps[1..], w', p);
    }
  }

  lemma StateIsKept(w: World, step: Step, p: Pid)
    requires Enabled(w, step) && WorldOk(w) && Taken(w, p)
    ensures Taken(Apply(w, step), p) && Apply(w, step).nodes[p].snap.localState == w.nodes[p].snap.localState
  {
    hide Enabled, Apply, WiresOk;
    StepChanges(w, step, p);
    assert NodeOk(w, p);
    if step.TakeOwn? && p == w.initiator {
      OwnIsFirst(w);
    }
  }

  lemma OwnIsFirst(w: World)
    requires Enabled(w, TakeOwn)
    ensures !Taken(w, w.initiator)
  {
  }

  // The channels the snapshot of p lists: all of them, but for the one whose marker came first.
  ghost predicate Lists(w: World, p: Pid)
    requires p in w.nodes
  {
    var listed := w.nodes[p].snap.incoming.Keys;
    if !Taken(w, p) then listed == {}
    else if p == w.initiator then listed == Peers(w, p)
    else exists r :: r in Peers(w, p) && Wire(r, p) in w.handled && listed == Peers(w, p) - {r}
  }

  lemma FirstMarkerOpens(s: Snap<App>, sender: Pid, state: App, peers: set<Pid>)
    requires !s.initiated && s.incoming == map[]
    ensures OnMarker(s, sender, state, peers).incoming.Keys == peers - {sender}
  {
  }

  lemma AtFirstMarker(w: World, r: Pid, p: Pid)
    requires Enabled(w, Marker(r, p)) && WorldOk(w) && p in w.nodes && !Taken(w, p)
    ensures r in Peers(w, p) && p != w.initiator
    ensures !w.nodes[p].snap.initiated && w.nodes[p].snap.incoming == map[]
  {
    NodeIsOk(w, p);
    MarkerIsFlying(w, r, p);
    assert Taken(w, w.initiator);
  }

  lemma FirstMarkerLists(w: World, r: Pid, p: Pid)
    requires Enabled(w, Marker(r, p)) && WorldOk(w) && p in w.nodes && !Taken(w, p)
    ensures p in Apply(w, Marker(r, p)).nodes && Lists(Apply(w, Marker(r, p)), p)
  {
    hide Apply, OnMarker, Enabled, WorldOk, Taken;
    AtFirstMarker(w, r, p);
    FirstMarkerOpens(w.nodes[p].snap, r, w.nodes[p].app, Peers(w, p));
    SameNodes(w, Marker(r, p));
    StepChanges(w, Marker(r, p), p);
    HandledGrows(w, Marker(r, p));
    assert Wire(r, p) in Apply(w, Marker(r, p)).handled;
  }

  lemma OtherStepLists(w: World, step: Step, p: Pid)
    requires Enabled(w, step) && p in w.nodes && NodeOk(w, p) && Lists(w, p)
    requires step.Marker? ==> Taken(w, p) || p != step.dst
    ensures p in Apply(w, step).nodes && Lists(Apply(w, step), p)
  {
    hide Apply;
    SameNodes(w, step);
    StepChanges(w, step, p);
    if step.Marker? {
      HandledGrows(w, step);
    } else {
      SameHandled(w, step);
    }
    hide Enabled;
    if Taken(w, p) && p != w.initiator {
      var r :| r in Peers(w, p) && Wire(r, p) in w.handled && w.nodes[p].snap.incoming.Keys == Peers(w, p) - {r};
      assert Wire(r, p) in Apply(w, step).handled;
    }
  }

  lemma StepKeepsLists(w: World, step: Step, p: Pid)
    requires Enabled(w, step) && WorldOk(w) && p in w.nodes && Lists(w, p)
    ensures p in Apply(w, step).nodes && Lists(Apply(w, step), p)
  {
    hide Apply, Lists, Enabled, Taken;
    NodeIsOk(w, p);
    hide WorldOk, NodeOk, WiresOk;
    if step.Marker? && p == step.dst && !Taken(w, p) {
      FirstMarkerLists(w, step.src, p);
    } else {
      OtherStepLists(w, step, p);
    }
  }

  lemma NodeIsOk(w: World, p: Pid)
    requires WorldOk(w) && p in w.nodes
    ensures NodeOk(w, p) && WiresOk(w)
  {
  }

  lemma {:induction false} RunKeepsLists(w: World, steps: seq<Step>, w': World, p: Pid)
    requires WorldOk(w) && p in w.nodes && Lists(w, p) && Run(w, steps, w')
    ensures p in w'.nodes && Lists(w', p)
    decreases |steps|
  {
    hide WorldOk, Enabled, Apply, Lists;
    if steps != [] {
      StepKeepsOk(w, steps[0]);
      StepKeepsLists(w, steps[0], p);
      RunKeepsLists(Apply(w, steps[0]), steps[1..], w', p);
    }
  }

  // The initiator's snapshot lists every channel, that of any other process all but the one over which it
  // first heard of the snapshot.
  lemma ListedChannels(w: World, p: Pid)
    requires Reachable(w) && p in w.nodes
    ensures Lists(w, p)
  {
    hide WorldOk;
    var nodes, steps :| w.initiator in nodes && Run(InitWorld(w.initiator, nodes), steps, w);
    InitIsOk(w.initiator, nodes);
    RunKeepsNodes(InitWorld(w.initiator, nodes), steps, w);
    RunKeepsLists(InitWorld(w.initiator, nodes), steps, w, p);
  }

  lemma {:induction false} RunKeepsNodes(w: World, steps: seq<Step>, w': World)
    requires Run(w, steps, w')
    ensures w'.nodes.Keys == w.nodes.Keys && w'.initiator == w.initiator
    decreases |steps|
  {
    hide Apply, Enabled;
    if steps != [] {
      SameNodes(w, steps[0]);
      RunKeepsNodes(Apply(w, steps[0]), steps[1..], w');
    }
  }

  function Undelivered(w: World): int {
    |Wires(w.nodes.Keys)| - |w.handled|
  }

  function MarkerSteps(steps: seq<Step>): nat {
    if steps == [] then 0 else (if steps[0].Marker? then 1 else 0) + MarkerSteps(steps[1..])
  }

  lemma HandledAreWires(w: World)
    requires WiresOk(w)
    ensures w.handled <= Wires(w.nodes.Keys) && 0 <= Undelivered(w)
  {
    forall e | e in w.handled ensures e in Wires(w.nodes.Keys) {
      assert w.markersSent[e] >= 1;
      assert Told(w, e.src, e.dst);
    }
    SubsetSize(w.handled, Wires(w.nodes.Keys));
  }

  lemma StepDelivers(w: World, step: Step)
    requires Enabled(w, step) && WiresOk(w)
    ensures Undelivered(Apply(w, step)) == Undelivered(w) - if step.Marker? then 1 else 0
  {
    hide Wires, WiresOk;
    SameNodes(w, step);
    if step.Marker? {
      FlyingMarker(w, step.src, step.dst);
    }
  }

  // Every marker handled is one of n * (n - 1), so no run handles more.
  lemma MarkersRunOut(w: World, steps: seq<Step>, w': World)
    requires Reachable(w) && Run(w, steps, w')
    ensures MarkerSteps(steps) + Undelivered(w') == Undelivered(w) && 0 <= Undelivered(w')
  {
    ReachableIsOk(w);
    RunDelivers(w, steps, w');
  }

  lemma {:induction false} RunDelivers(w: World, steps: seq<Step>, w': World)
    requires WorldOk(w) && Run(w, steps, w')
    ensures MarkerSteps(steps) + Undelivered(w') == Undelivered(w) && 0 <= Undelivered(w')
    decreases |steps|
  {
    hide WorldOk, Enabled, Apply, Undelivered;
    if steps == [] {
      OkGivesWires(w);
      HandledAreWires(w);
    } else {
      OkGivesWires(w);
      StepDelivers(w, steps[0]);
      StepKeepsOk(w, steps[0]);
      RunDelivers(Apply(w, steps[0]), steps[1..], w');
    }
  }

  lemma OkGivesWires(w: World)
    requires WorldOk(w)
    ensures WiresOk(w)
  {
  }

  // No marker is on its way or still to be sent.
  predicate Quiet(w: World) {
    w.flying == multiset{} && forall p :: p in w.nodes ==> w.nodes[p].toTell == {}
  }

  lemma SentIsHandled(w: World, p: Pid, q: Pid)
    requires WorldOk(w) && Quiet(w) && Taken(w, p) && p in w.nodes && q in w.nodes && p != q
    ensures Wire(p, q) in w.handled
  {
    assert TellOk(w, p);
    assert Told(w, p, q);
    assert w.markersSent[Wire(p, q)] == 1;
  }

  lemma EverybodyTakes(w: World, p: Pid)
    requires WorldOk(w) && Taken(w, w.initiator) && Quiet(w) && p in w.nodes
    ensures Taken(w, p)
  {
    assert NodeOk(w, p);
    if p != w.initiator {
      SentIsHandled(w, w.initiator, p);
    }
  }

  lemma EverybodyCloses(w: World, p: Pid)
    requires WorldOk(w) && Taken(w, w.initiator) && Quiet(w) && p in w.nodes
    ensures w.nodes[p].snap.toRecord == {}
  {
    hide Taken;
    EverybodyTakes(w, p);
    OkGivesWires(w);
    assert NodeOk(w, p);
    if r :| r in w.nodes[p].snap.toRecord {
      EverybodyTakes(w, r);
      SentIsHandled(w, r, p);
    }
  }

  lemma QuietHandlesAll(w: World)
    requires WorldOk(w) && Taken(w, w.initiator) && Quiet(w)
    ensures w.handled == Wires(w.nodes.Keys)
  {
    OkGivesWires(w);
    HandledAreWires(w);
    hide WorldOk, WiresOk, Taken, Undelivered, Quiet;
    forall e | e in Wires(w.nodes.Keys) ensures e in w.handled {
      EverybodyTakes(w, e.src);
      SentIsHandled(w, e.src, e.dst);
    }
  }

  lemma QuietIsComplete(w: World)
    requires WorldOk(w) && Taken(w, w.initiator) && Quiet(w)
    ensures w.handled == Wires(w.nodes.Keys)
    ensures forall p :: p in w.nodes ==> Taken(w, p) && w.nodes[p].snap.toRecord == {}
  {
    hide WorldOk, Wires, Taken, Quiet;
    QuietHandlesAll(w);
    forall p | p in w.nodes ensures Taken(w, p) && w.nodes[p].snap.toRecord == {} {
      EverybodyTakes(w, p);
      EverybodyCloses(w, p);
    }
  }

  lemma AllHandledIsQuiet(w: World)
    requires WorldOk(w) && w.handled == Wires(w.nodes.Keys)
    ensures Quiet(w)
  {
    hide NodeOk, Taken;
    forall e ensures w.flying[e] == 0 {
      assert w.markersSent[e] <= 1;
    }
    forall p | p in w.nodes ensures w.nodes[p].toTell == {} {
      assert TellOk(w, p);
      assert forall q :: q in Peers(w, p) ==> w.markersSent[Wire(p, q)] == 1;
      assert forall q :: q in Peers(w, p) ==> Told(w, p, q);
    }
  }

  lemma AllClosedHandlesAll(w: World)
    requires WorldOk(w) && forall p :: p in w.nodes ==> Taken(w, p) && w.nodes[p].snap.toRecord == {}
    ensures w.handled == Wires(w.nodes.Keys)
  {
    HandledAreWires(w);
    hide WiresOk, Taken;
    forall e | e in Wires(w.nodes.Keys) ensures e in w.handled {
      assert NodeOk(w, e.dst) && Taken(w, e.dst);
      assert e.src in Peers(w, e.dst) && e == Wire(e.src, e.dst);
      assert e.src !in w.nodes[e.dst].snap.toRecord;
    }
  }

  // Once the initiator has recorded its state, the snapshot is complete exactly when no marker is on its
  // way or still to be sent: all processes have recorded their state and no channel is recorded any more.
  lemma SnapshotTerminates(w: World)
    requires Reachable(w) && Taken(w, w.initiator)
    ensures Quiet(w) <==> w.handled == Wires(w.nodes.Keys)
    ensures Quiet(w) <==> forall p :: p in w.nodes ==> Taken(w, p) && w.nodes[p].snap.toRecord == {}
    ensures Quiet(w) <==> Undelivered(w) == 0
  {
    ReachableIsOk(w);
    OkGivesWires(w);
    HandledAreWires(w);
    SubsetSize(w.handled, Wires(w.nodes.Keys));
    hide WorldOk, WiresOk, Wires, Taken, Quiet;
    if Quiet(w) {
      QuietIsComplete(w);
    }
    if w.handled == Wires(w.nodes.Keys) {
      AllHandledIsQuiet(w);
    }
    if forall p :: p in w.nodes ==> Taken(w, p) && w.nodes[p].snap.toRecord == {} {
      AllClosedHandlesAll(w);
    }
  }

  /* ----- completion ----- */

  predicate IsData(step: Step) {
    step.Send? || step.Arrive? || step.Handle? || step.Drop?
  }

  lemma RunCons(w: World, step: Step, steps: seq<Step>, w': World)
    requires Enabled(w, step) && Run(Apply(w, step), steps, w')
    ensures Run(w, [step] + steps, w')
  {
    assert ([step] + steps)[1..] == steps;
  }

  function Untold(w: World): set<Wire> {
    set e | e in Wires(w.nodes.Keys) && !Told(w, e.src, e.dst)
  }

  lemma UntoldFalls(w: World, w1: World, e: Wire)
    requires w1.nodes.Keys == w.nodes.Keys && e in Wires(w.nodes.Keys)
    requires !Told(w, e.src, e.dst) && Told(w1, e.src, e.dst)
    requires forall p, q :: Told(w, p, q) ==> Told(w1, p, q)
    ensures |Untold(w1)| < |Untold(w)|
  {
    hide Told, Wires;
    assert Untold(w1) <= Untold(w) - {e};
    SubsetSize(Untold(w1), Untold(w) - {e});
  }

  lemma StepGoesOn(w: World, step: Step)
    requires Enabled(w, step) && WorldOk(w) && Taken(w, w.initiator)
    ensures var w1 := Apply(w, step);
            WorldOk(w1) && w1.initiator == w.initiator && Taken(w1, w.initiator) && 0 <= Undelivered(w1)
            && Undelivered(w1) == Undelivered(w) - if step.Marker? then 1 else 0
  {
    OkGivesWires(w);
    hide Enabled, Apply, WorldOk, WiresOk, Undelivered, Taken;
    StepDelivers(w, step);
    StepKeepsOk(w, step);
    StateIsKept(w, step, w.initiator);
    SameNodes(w, step);
    OkGivesWires(Apply(w, step));
    HandledAreWires(Apply(w, step));
  }

  lemma UntoldAtTell(w: World, p: Pid, q: Pid)
    requires WorldOk(w) && p in w.nodes && q in w.nodes[p].toTell
    ensures Enabled(w, Tell(p, q)) && Wire(p, q) in Wires(w.nodes.Keys) && !Told(w, p, q)
  {
    assert TellOk(w, p);
  }

  lemma TellOne(w: World, p: Pid, q: Pid)
    requires WorldOk(w) && Taken(w, w.initiator) && p in w.nodes && q in w.nodes[p].toTell
    ensures Enabled(w, Tell(p, q))
    ensures var w1 := Apply(w, Tell(p, q));
            WorldOk(w1) && w1.initiator == w.initiator && Taken(w1, w.initiator)
            && Undelivered(w1) == Undelivered(w) && |Untold(w1)| < |Untold(w)|
  {
    UntoldAtTell(w, p, q);
    hide Enabled, Apply, WorldOk, Undelivered, Untold, Taken, Told, Wires;
    StepGoesOn(w, Tell(p, q));
    SameNodes(w, Tell(p, q));
    WhoIsTold(w, Tell(p, q));
    UntoldFalls(w, Apply(w, Tell(p, q)), Wire(p, q));
  }

  // A marker on its way can be handled as soon as its receiver has sent its own.
  lemma MarkerCanBeHandled(w: World, e: Wire)
    requires WorldOk(w) && e in w.flying && (e.dst in w.nodes ==> w.nodes[e.dst].toTell == {})
    ensures Enabled(w, Marker(e.src, e.dst))
  {
    OkGivesWires(w);
    FlyingMarker(w, e.src, e.dst);
  }

  lemma DeliverOne(w: World, e: Wire)
    requires WorldOk(w) && Taken(w, w.initiator) && e in w.flying
    requires forall p :: p in w.nodes ==> w.nodes[p].toTell == {}
    ensures Enabled(w, Marker(e.src, e.dst))
    ensures var w1 := Apply(w, Marker(e.src, e.dst));
            WorldOk(w1) && w1.initiator == w.initiator && Taken(w1, w.initiator)
            && 0 <= Undelivered(w1) < Undelivered(w)
  {
    hide Enabled, Apply, WorldOk, Undelivered, Taken;
    MarkerCanBeHandled(w, e);
    StepGoesOn(w, Marker(e.src, e.dst));
  }

  lemma {:induction false} DeliversFrom(w: World) returns (steps: seq<Step>, w': World)
    requires WorldOk(w) && Taken(w, w.initiator)
    ensures Run(w, steps, w') && WorldOk(w') && Taken(w', w'.initiator) && Quiet(w')
    ensures forall s :: s in steps ==> !IsData(s)
    decreases Undelivered(w), |Untold(w)|
  {
    hide WorldOk, Undelivered, Untold, Enabled, Apply, Taken;
    var rest;
    if p, q :| p in w.nodes && q in w.nodes[p].toTell {
      TellOne(w, p, q);
      rest, w' := DeliversFrom(Apply(w, Tell(p, q)));
      RunCons(w, Tell(p, q), rest, w');
      steps := [Tell(p, q)] + rest;
    } else if e :| e in w.flying {
      DeliverOne(w, e);
      rest, w' := DeliversFrom(Apply(w, Marker(e.src, e.dst)));
      RunCons(w, Marker(e.src, e.dst), rest, w');
      steps := [Marker(e.src, e.dst)] + rest;
    } else {
      steps, w' := [], w;
    }
  }

  // The initiator can take its snapshot, from wherever it is.
  lemma CanStart(w: World) returns (steps: seq<Step>, w': World)
    requires WorldOk(w) && !Taken(w, w.initiator)
    ensures Run(w, steps, w') && WorldOk(w') && Taken(w', w'.initiator)
    ensures steps == [TakeOwn] || steps == [Initiate, TakeOwn]
  {
    hide WorldOk, Apply, Enabled;
    var w1 := w;
    if !IsInitiated(w) {
      NotInitiated(w);
      StepKeepsOk(w, Initiate);
      w1 := Apply(w, Initiate);
    }
    OwnComesNext(w1);
    StepKeepsOk(w1, TakeOwn);
    w' := Apply(w1, TakeOwn);
    RunCons(w1, TakeOwn, [], w');
    steps := [TakeOwn];
    if !IsInitiated(w) {
      RunCons(w, Initiate, [TakeOwn], w');
      steps := [Initiate, TakeOwn];
    }
  }

  predicate IsInitiated(w: World) {
    w.initiator in w.nodes && w.nodes[w.initiator].snap.initiated
  }

  lemma NotInitiated(w: World)
    requires WorldOk(w) && !IsInitiated(w)
    ensures Enabled(w, Initiate)
    ensures var w1 := Apply(w, Initiate);
            w1.initiator == w.initiator && IsInitiated(w1) && (Taken(w1, w.initiator) <==> Taken(w, w.initiator))
  {
  }

  lemma {:induction false} RunConcat(w: World, a: seq<Step>, w1: World, b: seq<Step>, w2: World)
    requires Run(w, a, w1) && Run(w1, b, w2)
    ensures Run(w, a + b, w2)
    decreases |a|
  {
    hide Apply, Enabled;
    if a == [] {
      assert a + b == b;
    } else {
      assert (a + b)[1..] == a[1..] + b;
      RunConcat(Apply(w, a[0]), a[1..], w1, b, w2);
    }
  }

  lemma CompletesFrom(w: World) returns (steps: seq<Step>, w': World)
    requires WorldOk(w)
    ensures Run(w, steps, w') && WorldOk(w') && Taken(w', w'.initiator) && Quiet(w')
    ensures forall s :: s in steps ==> !IsData(s)
  {
    hide WorldOk, Run, Taken;
    if Taken(w, w.initiator) {
      steps, w' := DeliversFrom(w);
    } else {
      var a, w1 := CanStart(w);
      var b;
      b, w' := DeliversFrom(w1);
      RunConcat(w, a, w1, b, w');
      steps := a + b;
    }
  }

  // From every reachable state some run of the snapshot alone completes it.
  lemma SnapshotCanComplete(w: World) returns (steps: seq<Step>, w': World)
    requires Reachable(w)
    ensures Run(w, steps, w') && forall s :: s in steps ==> !IsData(s)
    ensures w'.handled == Wires(w'.nodes.Keys)
    ensures forall p :: p in w'.nodes ==> Taken(w', p) && w'.nodes[p].snap.toRecord == {}
  {
    hide WorldOk, Run;
    ReachableIsOk(w);
    steps, w' := CompletesFrom(w);
    QuietIsComplete(w');
  }

  lemma OwnComesNext(w: World)
    requires WorldOk(w) && !Taken(w, w.initiator) && IsInitiated(w)
    ensures Enabled(w, TakeOwn) && Apply(w, TakeOwn).initiator == w.initiator && Taken(Apply(w, TakeOwn), w.initiator)
  {
    StepChanges(w, TakeOwn, w.initiator);
  }
}
