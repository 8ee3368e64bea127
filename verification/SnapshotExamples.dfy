/** Reachable snapshots in which a channel is not right. */
module SnapshotExamples {
  import opened SnapshotServices
  import opened SnapshotProtocol
  import opened SnapshotCut

  lemma {:induction false} FifoRunSnoc(w: World, steps: seq<Step>, w1: World, step: Step, markers: bool)
    requires FifoRun(w, steps, w1, markers)
    requires Enabled(w1, step) && InOrder(w1, step) && (markers ==> MarkerInOrder(w1, step))
    ensures FifoRun(w, steps + [step], Apply(w1, step), markers)
    decreases |steps|
  {
    hide Enabled, Apply, InOrder, MarkerInOrder;
    if steps == [] {
      assert ([step])[1..] == [];
    } else {
      assert (steps + [step])[1..] == steps[1..] + [step];
      FifoRunSnoc(Apply(w, steps[0]), steps[1..], w1, step, markers);
    }
  }

  lemma StepStaysFifo(w: World, step: Step, markers: bool)
    requires FifoReachable(w, markers)
    requires Enabled(w, step) && InOrder(w, step) && (markers ==> MarkerInOrder(w, step))
    ensures FifoReachable(Apply(w, step), markers)
  {
    var nodes, steps :| w.initiator in nodes && FifoRun(InitWorld(w.initiator, nodes), steps, w, markers);
    FifoRunSnoc(InitWorld(w.initiator, nodes), steps, w, step, markers);
    SameNodes(w, step);
  }

  lemma InitIsFifo(markers: bool)
    ensures FifoReachable(InitWorld(0, {0, 1}), markers)
  {
    assert FifoRun(InitWorld(0, {0, 1}), [], InitWorld(0, {0, 1}), markers);
  }

  // Process 0 has not begun the snapshot.
  predicate AtStart(w: World) {
    && w.initiator == 0 && w.nodes.Keys == {0, 1} && w.flying == multiset{} && w.handled == {}
    && w.nodes[0].snap == NewSnap() && w.nodes[0].toTell == {} && w.nodes[0].told == map[]
    && w.nodes[1].snap == NewSnap() && w.nodes[1].toTell == {}
  }

  // It has recorded its state and sent no marker.
  predicate AtTelling(w: World) {
    && w.initiator == 0 && w.nodes.Keys == {0, 1} && w.flying == multiset{} && w.handled == {}
    && Taken(w, 0) && w.nodes[0].toTell == {1} && w.nodes[0].told == map[]
    && w.nodes[1].snap == NewSnap() && w.nodes[1].toTell == {}
  }

  lemma RecordAtStart(w: World, markers: bool) returns (w': World)
    requires FifoReachable(w, markers) && AtStart(w)
    ensures FifoReachable(w', markers) && AtTelling(w')
    ensures w'.nodes[0].app == w.nodes[0].app && w'.nodes[1] == w.nodes[1]
    ensures CutSent(w', 0, 1) == SentLog(w, 0, 1)
  {
    hide FifoReachable;
    var w1 := Apply(w, Initiate);
    StepStaysFifo(w, Initiate, markers);
    w' := Apply(w1, TakeOwn);
    StepStaysFifo(w1, TakeOwn, markers);
    assert Peers(w1, 0) == {1};
  }

  lemma SendMarker(w: World, markers: bool) returns (w': World)
    requires FifoReachable(w, markers) && AtTelling(w)
    ensures FifoReachable(w', markers) && Taken(w', 0) && Told(w', 0, 1) && 1 in w'.nodes && w'.nodes[1] == w.nodes[1]
    ensures w'.nodes.Keys == {0, 1} && Wire(0, 1) in w'.flying && w'.nodes[0].app == w.nodes[0].app
    ensures CutSent(w', 0, 1) == CutSent(w, 0, 1) && MarkedSent(w', 0, 1) == SentLog(w, 0, 1)
  {
    hide FifoReachable;
    StepStaysFifo(w, Tell(0, 1), markers);
    w' := Apply(w, Tell(0, 1));
  }

  // The service sends markers over connections of their own, where one can overtake a message: the
  // channel is then closed, and the message is neither received nor recorded.
  lemma MarkerCanOvertake() returns (w: World)
    ensures FifoReachable(w, false) && Enabled(w, Marker(0, 1)) && Taken(w, 0) && Outstanding(w, 0, 1) == 1
    ensures !ChannelIsRight(Apply(w, Marker(0, 1)), 0, 1)
  {
    hide FifoReachable;
    var w0 := InitWorld(0, {0, 1});
    InitIsFifo(false);
    var w1 := Apply(w0, Send(0, 1, "m"));
    StepStaysFifo(w0, Send(0, 1, "m"), false);
    w := RecordAtStart(w1, false);
    w := SendMarker(w, false);
    assert ArrivedLog(w, 0, 1) == [] && CutSent(w, 0, 1) == ["m"];
    assert Enabled(w, Marker(0, 1));
    hide Apply, Enabled, CutSent, CutHeard, CutTaken, CutRcvd, Missed, ArrivedLog, Taken;
    MarkerPlaceDecides(w, 0, 1, [], Apply(w, Marker(0, 1)));
  }

  // The listening thread passes a message to the snapshot service before it handles it. If the marker thread
  // records the state in between, the message is in no recorded state and in no recorded channel.
  lemma MessageInHandIsLost() returns (w: World)
    ensures FifoReachable(w, true) && Wire(0, 1) in w.handled && 0 in w.nodes && 1 in Peers(w, 0)
    ensures Taken(w, 0) && Taken(w, 1) && Told(w, 0, 1) && MarkedSent(w, 0, 1) == CutSent(w, 0, 1) == ["m"]
    ensures Missed(w, 0, 1) == ["m"] && !ChannelIsRight(w, 0, 1)
  {
    hide FifoReachable;
    var w0 := InitWorld(0, {0, 1});
    InitIsFifo(true);
    var w1 := Apply(w0, Send(0, 1, "m"));
    StepStaysFifo(w0, Send(0, 1, "m"), true);
    assert SentLog(w1, 0, 1) == ["m"];
    var w2 := Apply(w1, Arrive(0, 1, "m"));
    StepStaysFifo(w1, Arrive(0, 1, "m"), true);
    var w3 := RecordAtStart(w2, true);
    assert CutSent(w3, 0, 1) == ["m"];
    assert SentLog(w3, 0, 1) == ["m"];
    var w4 := SendMarker(w3, true);
    assert CutSent(w4, 0, 1) == MarkedSent(w4, 0, 1) == ["m"];
    assert Enabled(w4, Marker(0, 1));
    StepStaysFifo(w4, Marker(0, 1), true);
    w := Apply(w4, Marker(0, 1));
    hide Apply;
    ConsistentCut(w, 0, 1);
  }

  // The service sends its markers after it has recorded the state, one by one, while other threads send
  // messages. Such a message can be in the receiver's state and not in the sender's.
  lemma LateMessageIsReceived() returns (w: World)
    ensures FifoReachable(w, true) && Wire(0, 1) in w.handled && 0 in w.nodes && 1 in Peers(w, 0)
    ensures Taken(w, 0) && Taken(w, 1) && CutSent(w, 0, 1) == [] && CutRcvd(w, 0, 1) == ["m"]
    ensures Missed(w, 0, 1) == [] && !ChannelIsRight(w, 0, 1)
  {
    hide FifoReachable;
    InitIsFifo(true);
    var w1 := RecordAtStart(InitWorld(0, {0, 1}), true);
    StepStaysFifo(w1, Send(0, 1, "m"), true);
    var w2 := Apply(w1, Send(0, 1, "m"));
    var w3 := SendMarker(w2, true);
    StepStaysFifo(w3, Arrive(0, 1, "m"), true);
    var w4 := Apply(w3, Arrive(0, 1, "m"));
    StepStaysFifo(w4, Handle(1), true);
    var w5 := Apply(w4, Handle(1));
    StepStaysFifo(w5, Marker(0, 1), true);
    w := Apply(w5, Marker(0, 1));
  }
}
