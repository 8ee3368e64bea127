/** When the recorded channels are the messages of a consistent cut. */
module SnapshotCut {
  import opened Messages
  import opened SnapshotServices
  import opened SnapshotProtocol
  import opened SnapshotTheorems

  function SentLog(w: World, p: Pid, q: Pid): seq<string>
    requires p in w.nodes
  {
    Log(w.nodes[p].app.sent, q)
  }

  function FromHand(hand: Option<Letter>, p: Pid): seq<string> {
    if hand.Some? && hand.value.src == p then [hand.value.message] else []
  }

  // All of p that q has taken off the channel: what it has received, and what it has in hand.
  function ArrivedLog(w: World, p: Pid, q: Pid): seq<string>
    requires q in w.nodes
  {
    Log(w.nodes[q].app.rcvd, p) + FromHand(w.nodes[q].hand, p)
  }

  // All that p had sent to q when it recorded its state.
  function CutSent(w: World, p: Pid, q: Pid): seq<string>
    requires Taken(w, p)
  {
    Log(w.nodes[p].snap.localState.value.sent, q)
  }

  // All that p had sent to q when it sent its marker.
  function MarkedSent(w: World, p: Pid, q: Pid): seq<string>
    requires Told(w, p, q)
  {
    w.nodes[p].told[q]
  }

  // What p sent to q between recording its state and sending the marker.
  function Late(w: World, p: Pid, q: Pid): seq<string>
    requires Taken(w, p) && Told(w, p, q) && CutSent(w, p, q) <= MarkedSent(w, p, q)
  {
    MarkedSent(w, p, q)[|CutSent(w, p, q)|..]
  }

  // All that q had received from p when it recorded its state.
  function CutRcvd(w: World, p: Pid, q: Pid): seq<string>
    requires Taken(w, q)
  {
    Log(w.nodes[q].snap.localState.value.rcvd, p)
  }

  // What q had in hand of p when it recorded its state: it is neither in the state nor recorded.
  function Missed(w: World, p: Pid, q: Pid): seq<string>
    requires Taken(w, q)
  {
    FromHand(w.nodes[q].missed, p)
  }

  function RecordedOf(w: World, p: Pid, q: Pid): seq<string>
    requires q in w.nodes
  {
    w.nodes[q].snap.Recorded(p)
  }

  // What the snapshot says of the messages from p to q: received, or in the channel.
  function CutHeard(w: World, p: Pid, q: Pid): seq<string>
    requires Taken(w, q)
  {
    CutRcvd(w, p, q) + RecordedOf(w, p, q)
  }

  // Nothing is missing from the cut, and nothing is in it that was sent after it.
  predicate ChannelIsRight(w: World, p: Pid, q: Pid) {
    Taken(w, p) && Taken(w, q) && CutHeard(w, p, q) == CutSent(w, p, q)
  }

  // The same, with the message in hand.
  function CutTaken(w: World, p: Pid, q: Pid): seq<string>
    requires Taken(w, q)
  {
    CutRcvd(w, p, q) + Missed(w, p, q) + RecordedOf(w, p, q)
  }

  // It is what was sent before the marker.
  predicate ChannelIsCovered(w: World, p: Pid, q: Pid) {
    Told(w, p, q) && Taken(w, q) && CutTaken(w, p, q) == MarkedSent(w, p, q)
  }

  // Number of messages of the cut that have not been taken off the channel; negative if later ones have.
  function Outstanding(w: World, p: Pid, q: Pid): int
    requires Taken(w, p) && q in w.nodes
  {
    |CutSent(w, p, q)| - |ArrivedLog(w, p, q)|
  }

  // Number of messages sent before the marker and still ahead of it; negative if later ones have been taken.
  function AheadOfMarker(w: World, p: Pid, q: Pid): int
    requires Told(w, p, q) && q in w.nodes
  {
    |MarkedSent(w, p, q)| - |ArrivedLog(w, p, q)|
  }

  // Messages of a channel are neither lost nor repeated nor reordered.
  predicate InOrder(w: World, step: Step)
    requires Enabled(w, step)
  {
    !step.Drop? && (step.Arrive? ==>
      var n := |ArrivedLog(w, step.src, step.dst)|;
      n < |SentLog(w, step.src, step.dst)| && step.message == SentLog(w, step.src, step.dst)[n])
  }

  // The marker keeps its place among them.
  predicate MarkerInOrder(w: World, step: Step)
    requires Enabled(w, step)
  {
    match step
    case Marker(p, q) => Told(w, p, q) && AheadOfMarker(w, p, q) == 0
    case Arrive(p, q, _) => Wire(p, q) in w.flying ==> Told(w, p, q) && AheadOfMarker(w, p, q) > 0
    case _ => true
  }

  // Runs over channels that are first-in first-out for messages, and with `markers` for markers, too.
  ghost predicate FifoRun(w: World, steps: seq<Step>, w': World, markers: bool)
    decreases |steps|
  {
    if steps == [] then
      w == w'
    else
      && Enabled(w, steps[0]) && InOrder(w, steps[0]) && (markers ==> MarkerInOrder(w, steps[0]))
      && FifoRun(Apply(w, steps[0]), steps[1..], w', markers)
  }

  ghost predicate FifoReachable(w: World, markers: bool) {
    exists nodes, steps :: w.initiator in nodes && FifoRun(InitWorld(w.initiator, nodes), steps, w, markers)
  }

  /* ----- invariants of the logs ----- */

  ghost predicate ChannelOk(w: World, p: Pid, q: Pid)
    requires p in w.nodes && q in w.nodes
  {
    && ArrivedLog(w, p, q) <= SentLog(w, p, q)
    && (Taken(w, p) ==> CutSent(w, p, q) <= SentLog(w, p, q))
    && (Told(w, p, q) ==> Taken(w, p) && CutSent(w, p, q) <= MarkedSent(w, p, q) <= SentLog(w, p, q))
    && (p != q && Taken(w, q) && Wire(p, q) !in w.handled ==> CutTaken(w, p, q) == ArrivedLog(w, p, q))
  }

  ghost predicate MarkerOk(w: World, p: Pid, q: Pid)
    requires p in w.nodes && q in w.nodes
  {
    && (Wire(p, q) in w.flying ==> Told(w, p, q) && AheadOfMarker(w, p, q) >= 0)
    && (Wire(p, q) in w.handled ==> ChannelIsCovered(w, p, q))
  }

  lemma SentLogAfter(w: World, step: Step, p: Pid, q: Pid)
    requires Enabled(w, step) && p in w.nodes
    ensures p in Apply(w, step).nodes
    ensures SentLog(Apply(w, step), p, q) ==
            SentLog(w, p, q) + if step.Send? && step.src == p && step.dst == q then [step.message] else []
  {
    hide OnMarker, TakeLocal, RecordIncoming;
  }

  lemma ArrivedLogAfter(w: World, step: Step, p: Pid, q: Pid)
    requires Enabled(w, step) && q in w.nodes
    ensures q in Apply(w, step).nodes
    ensures !step.Drop? ==>
              (ArrivedLog(Apply(w, step), p, q) ==
               ArrivedLog(w, p, q) + if step.Arrive? && step.src == p && step.dst == q then [step.message] else [])
  {
    hide OnMarker, TakeLocal, RecordIncoming;
  }

  lemma CutSentAfter(w: World, step: Step, p: Pid, q: Pid)
    requires Enabled(w, step) && p in w.nodes && NodeOk(w, p)
    ensures Taken(w, p) ==> Taken(Apply(w, step), p)
    ensures Taken(Apply(w, step), p) ==>
              CutSent(Apply(w, step), p, q) == if Taken(w, p) then CutSent(w, p, q) else SentLog(w, p, q)
  {
    hide Apply;
    StepChanges(w, step, p);
  }

  lemma MarkedSentAfter(w: World, step: Step, p: Pid, q: Pid)
    requires Enabled(w, step) && p in w.nodes && TellOk(w, p)
    ensures Told(Apply(w, step), p, q) <==> Told(w, p, q) || step == Tell(p, q)
    ensures Told(Apply(w, step), p, q) ==>
              MarkedSent(Apply(w, step), p, q) == if Told(w, p, q) then MarkedSent(w, p, q) else SentLog(w, p, q)
    ensures step == Tell(p, q) ==> Taken(w, p) && !Told(w, p, q)
  {
    hide Apply;
    TellingChanges(w, step, p);
  }

  // The message in hand is noted when the state is recorded, and never again.
  lemma MissedAfter(w: World, step: Step, q: Pid)
    requires Enabled(w, step) && q in w.nodes && NodeOk(w, q)
    ensures q in Apply(w, step).nodes
    ensures Taken(Apply(w, step), q) ==>
              Apply(w, step).nodes[q].missed == if Taken(w, q) then w.nodes[q].missed else w.nodes[q].hand
  {
    hide OnMarker, TakeLocal, RecordIncoming;
    StepChanges(w, step, q);
  }

  lemma CutTakenAfter(w: World, step: Step, p: Pid, q: Pid)
    requires Enabled(w, step) && q in w.nodes && NodeOk(w, q) && p in Peers(w, q)
    ensures Taken(Apply(w, step), q) ==>
              CutTaken(Apply(w, step), p, q) ==
                if !Taken(w, q) then ArrivedLog(w, p, q)
                else if step.Arrive? && step.src == p && step.dst == q && Wire(p, q) !in w.handled
                then CutTaken(w, p, q) + [step.message] else CutTaken(w, p, q)
  {
    hide Apply;
    StepChanges(w, step, q);
    MissedAfter(w, step, q);
  }

  lemma WiresAfter(w: World, step: Step, p: Pid, q: Pid)
    requires Enabled(w, step) && WiresOk(w) && p in w.nodes
    ensures Wire(p, q) in Apply(w, step).handled <==> Wire(p, q) in w.handled || step == Marker(p, q)
    ensures Wire(p, q) in Apply(w, step).flying ==>
              step != Marker(p, q) && (Wire(p, q) in w.flying || step == Tell(p, q))
  {
    hide Wires, OnMarker, TakeLocal, RecordIncoming;
    if step.Marker? {
      FlyingMarker(w, step.src, step.dst);
    }
  }

  lemma StepKeepsOrder(w: World, step: Step, p: Pid, q: Pid)
    requires Enabled(w, step) && InOrder(w, step)
    requires p in w.nodes && q in w.nodes && ArrivedLog(w, p, q) <= SentLog(w, p, q)
    ensures p in Apply(w, step).nodes && q in Apply(w, step).nodes
    ensures ArrivedLog(Apply(w, step), p, q) <= SentLog(Apply(w, step), p, q)
  {
    hide Enabled, Apply, SentLog, ArrivedLog;
    SentLogAfter(w, step, p, q);
    ArrivedLogAfter(w, step, p, q);
  }

  lemma StepKeepsHeard(w: World, step: Step, p: Pid, q: Pid)
    requires Enabled(w, step) && !step.Drop? && WorldOk(w)
    requires p in w.nodes && q in w.nodes && ChannelOk(w, p, q) && p != q
    ensures p in Apply(w, step).nodes && q in Apply(w, step).nodes
    ensures Taken(Apply(w, step), q) && Wire(p, q) !in Apply(w, step).handled ==>
              CutTaken(Apply(w, step), p, q) == ArrivedLog(Apply(w, step), p, q)
  {
    hide Enabled, Apply, WorldOk, SentLog, ArrivedLog, CutSent, CutTaken, Taken;
    NodesAreOk(w, p);
    NodesAreOk(w, q);
    hide NodeOk, WiresOk;
    SentLogAfter(w, step, p, q);
    ArrivedLogAfter(w, step, p, q);
    WiresAfter(w, step, p, q);
    CutTakenAfter(w, step, p, q);
    if step.Arrive? {
      NotTakenYet(w, step, q);
    }
  }

  lemma StepKeepsMarkedSent(w: World, step: Step, p: Pid, q: Pid)
    requires Enabled(w, step) && !step.Drop? && WorldOk(w)
    requires p in w.nodes && q in w.nodes && ChannelOk(w, p, q)
    ensures var w' := Apply(w, step);
            && p in w'.nodes
            && (Taken(w', p) ==> CutSent(w', p, q) <= SentLog(w', p, q))
            && (Told(w', p, q) ==> Taken(w', p) && CutSent(w', p, q) <= MarkedSent(w', p, q) <= SentLog(w', p, q))
  {
    hide Enabled, Apply, WorldOk, SentLog, ArrivedLog, CutSent, CutTaken, MarkedSent, Taken, Told;
    NodesAreOk(w, p);
    hide NodeOk, TellOk, WiresOk;
    SentLogAfter(w, step, p, q);
    ArrivedLogAfter(w, step, p, q);
    CutSentAfter(w, step, p, q);
    MarkedSentAfter(w, step, p, q);
  }

  lemma StepKeepsChannel(w: World, step: Step, p: Pid, q: Pid)
    requires Enabled(w, step) && InOrder(w, step) && WorldOk(w) && p in w.nodes && q in w.nodes && ChannelOk(w, p, q)
    ensures p in Apply(w, step).nodes && q in Apply(w, step).nodes && ChannelOk(Apply(w, step), p, q)
  {
    assert !step.Drop?;
    hide Enabled, Apply, WorldOk, SentLog, ArrivedLog, CutSent, CutTaken, MarkedSent, Taken, Told, InOrder;
    StepKeepsOrder(w, step, p, q);
    StepKeepsMarkedSent(w, step, p, q);
    if p != q {
      StepKeepsHeard(w, step, p, q);
    }
  }

  lemma NodesAreOk(w: World, p: Pid)
    requires WorldOk(w) && p in w.nodes
    ensures NodeOk(w, p) && TellOk(w, p) && WiresOk(w)
  {
  }

  // A process does not record its state while it receives a message.
  lemma NotTakenYet(w: World, step: Step, q: Pid)
    requires Enabled(w, step) && q in w.nodes && (step.Arrive? || step.Send?)
    ensures Taken(Apply(w, step), q) <==> Taken(w, q)
  {
    hide Apply;
    StepChanges(w, step, q);
  }

  lemma FlyingAtMarker(w: World, p: Pid, q: Pid)
    requires Enabled(w, Marker(p, q)) && WiresOk(w)
    ensures Taken(w, p) && Told(w, p, q) && p in w.nodes && p in Peers(w, q) && Wire(p, q) !in w.handled
  {
    FlyingMarker(w, p, q);
  }

  lemma TakenAfterMarker(w: World, p: Pid, q: Pid)
    requires Enabled(w, Marker(p, q)) && q in w.nodes && NodeOk(w, q) && WorldOk(w)
    ensures Taken(Apply(w, Marker(p, q)), q)
  {
    FlyingAtMarker(w, p, q);
    hide Apply;
    StepChanges(w, Marker(p, q), q);
  }

  lemma PrefixesByLength(a: seq<string>, b: seq<string>, c: seq<string>)
    requires a <= c && b <= c
    ensures |a| == |b| <==> a == b
    ensures Comparable(a, b)
  {
    assert a == c[..|a|] && b == c[..|b|];
  }

  lemma HeardAtMarker(w: World, p: Pid, q: Pid)
    requires Enabled(w, Marker(p, q)) && WorldOk(w) && p in w.nodes && q in w.nodes && ChannelOk(w, p, q)
    ensures var w' := Apply(w, Marker(p, q));
            Taken(w', q) && CutTaken(w', p, q) == ArrivedLog(w, p, q)
  {
    hide Apply, SentLog, ArrivedLog, CutSent, CutTaken;
    NodesAreOk(w, q);
    FlyingAtMarker(w, p, q);
    TakenAfterMarker(w, p, q);
    hide WorldOk, NodeOk, WiresOk, Enabled, Taken;
    CutTakenAfter(w, Marker(p, q), p, q);
  }

  lemma SentAtMarker(w: World, p: Pid, q: Pid)
    requires Enabled(w, Marker(p, q)) && WorldOk(w) && p in w.nodes && q in w.nodes && ChannelOk(w, p, q)
    ensures Taken(w, p) && CutSent(w, p, q) <= SentLog(w, p, q) && ArrivedLog(w, p, q) <= SentLog(w, p, q)
    ensures Told(w, p, q) && MarkedSent(w, p, q) <= SentLog(w, p, q)
    ensures var w' := Apply(w, Marker(p, q));
            && Taken(w', p) && CutSent(w', p, q) == CutSent(w, p, q)
            && Told(w', p, q) && MarkedSent(w', p, q) == MarkedSent(w, p, q)
  {
    hide Apply, SentLog, ArrivedLog, CutSent, CutTaken, MarkedSent;
    NodesAreOk(w, p);
    FlyingAtMarker(w, p, q);
    hide WorldOk, NodeOk, TellOk, WiresOk, Enabled, Taken, Told;
    CutSentAfter(w, Marker(p, q), p, q);
    MarkedSentAfter(w, Marker(p, q), p, q);
  }

  // Over channels that keep messages in order, the marker's place in its channel decides: exactly what was
  // sent before a point, be it the marker or the recording of the state, has been taken in the end, if and
  // only if exactly that has been taken when the marker is handled.
  lemma PlaceDecides(w: World, p: Pid, q: Pid)
    requires Enabled(w, Marker(p, q)) && WorldOk(w) && p in w.nodes && q in w.nodes && ChannelOk(w, p, q)
    ensures Taken(w, p) && Told(w, p, q)
    ensures var w' := Apply(w, Marker(p, q));
            && Taken(w', p) && Taken(w', q) && CutTaken(w', p, q) == ArrivedLog(w, p, q)
            && CutSent(w', p, q) == CutSent(w, p, q)
            && (CutTaken(w', p, q) == CutSent(w', p, q) <==> Outstanding(w, p, q) == 0)
            && (ChannelIsCovered(w', p, q) <==> AheadOfMarker(w, p, q) == 0)
            && Comparable(CutTaken(w', p, q), CutSent(w', p, q))
  {
    hide Enabled, Apply, WorldOk, ChannelOk, SentLog, ArrivedLog, CutSent, CutTaken, MarkedSent, Taken, Told;
    HeardAtMarker(w, p, q);
    SentAtMarker(w, p, q);
    PrefixesByLength(ArrivedLog(w, p, q), CutSent(w, p, q), SentLog(w, p, q));
    PrefixesByLength(ArrivedLog(w, p, q), MarkedSent(w, p, q), SentLog(w, p, q));
  }

  predicate Comparable(a: seq<string>, b: seq<string>) {
    a <= b || b <= a
  }

  /* ----- runs ----- */

  ghost predicate ChannelsOk(w: World) {
    forall p, q :: p in w.nodes && q in w.nodes ==> ChannelOk(w, p, q)
  }

  ghost predicate MarkersOk(w: World) {
    forall p, q :: p in w.nodes && q in w.nodes ==> MarkerOk(w, p, q)
  }

  lemma StepKeepsFlying(w: World, step: Step, p: Pid, q: Pid)
    requires Enabled(w, step) && InOrder(w, step) && MarkerInOrder(w, step) && WorldOk(w)
    requires p in w.nodes && q in w.nodes && ChannelOk(w, p, q) && MarkerOk(w, p, q)
    ensures p in Apply(w, step).nodes && q in Apply(w, step).nodes
    ensures Wire(p, q) in Apply(w, step).flying ==>
              Told(Apply(w, step), p, q) && AheadOfMarker(Apply(w, step), p, q) >= 0
  {
    assert !step.Drop?;
    hide Enabled, Apply, WorldOk, SentLog, ArrivedLog, MarkedSent, CutSent, CutTaken, Taken, Told, Peers, InOrder;
    NodesAreOk(w, p);
    hide NodeOk, TellOk, WiresOk, ChannelIsCovered;
    SentLogAfter(w, step, p, q);
    ArrivedLogAfter(w, step, p, q);
    MarkedSentAfter(w, step, p, q);
    WiresAfter(w, step, p, q);
  }

  lemma StepKeepsMarker(w: World, step: Step, p: Pid, q: Pid)
    requires Enabled(w, step) && InOrder(w, step) && MarkerInOrder(w, step) && WorldOk(w)
    requires p in w.nodes && q in w.nodes && ChannelOk(w, p, q) && MarkerOk(w, p, q)
    ensures p in Apply(w, step).nodes && q in Apply(w, step).nodes && MarkerOk(Apply(w, step), p, q)
  {
    hide Enabled, Apply, WorldOk, ChannelOk, AheadOfMarker, Outstanding, Taken, Told, InOrder;
    hide ChannelIsCovered, SameCut;
    StepKeepsFlying(w, step, p, q);
    NodesAreOk(w, p);
    hide NodeOk, TellOk, WiresOk;
    WiresAfter(w, step, p, q);
    if step == Marker(p, q) {
      PlaceDecides(w, p, q);
    } else if Wire(p, q) in w.handled {
      HandledIsFinal(w, step, p, q);
      SameCutIsCovered(w, Apply(w, step), p, q);
    }
  }

  lemma SameCutIsCovered(w: World, w': World, p: Pid, q: Pid)
    requires SameCut(w, w', p, q) && ChannelIsCovered(w, p, q)
    ensures ChannelIsCovered(w', p, q)
  {
    hide CutSent, CutTaken, CutRcvd, MarkedSent, Missed, CutHeard, Taken, Told;
  }

  // Once its marker is handled, what the snapshot says of a channel never changes.
  ghost predicate SameCut(w: World, w': World, p: Pid, q: Pid) {
    && Taken(w, p) && Taken(w, q) && Taken(w', p) && Taken(w', q) && Told(w, p, q) && Told(w', p, q)
    && MarkedSent(w', p, q) == MarkedSent(w, p, q) && RecordedOf(w', p, q) == RecordedOf(w, p, q)
    && CutSent(w', p, q) == CutSent(w, p, q) && CutRcvd(w', p, q) == CutRcvd(w, p, q)
    && Missed(w', p, q) == Missed(w, p, q) && CutTaken(w', p, q) == CutTaken(w, p, q)
    && CutHeard(w', p, q) == CutHeard(w, p, q)
  }

  lemma RecordedIsFinal(w: World, step: Step, p: Pid, q: Pid)
    requires Enabled(w, step) && q in w.nodes && NodeOk(w, q)
    requires p in Peers(w, q) && Taken(w, q) && Wire(p, q) in w.handled
    ensures q in Apply(w, step).nodes && Apply(w, step).nodes[q].snap.Recorded(p) == w.nodes[q].snap.Recorded(p)
  {
    hide Apply;
    StepChanges(w, step, q);
  }

  lemma HandledIsFinal(w: World, step: Step, p: Pid, q: Pid)
    requires Enabled(w, step) && WorldOk(w) && Wire(p, q) in w.handled
    ensures Wire(p, q) in Apply(w, step).handled && SameCut(w, Apply(w, step), p, q)
  {
    hide Enabled, Apply, Peers, Snap.Recorded;
    HandledHasBoth(w, p, q);
    hide WorldOk, NodeOk, TellOk, WiresOk;
    CutSentAfter(w, step, p, q);
    MarkedSentAfter(w, step, p, q);
    MissedAfter(w, step, q);
    RecordedIsFinal(w, step, p, q);
    WiresAfter(w, step, p, q);
    StateIsKept(w, step, q);
  }

  lemma HandledHasBoth(w: World, p: Pid, q: Pid)
    requires WorldOk(w) && Wire(p, q) in w.handled
    ensures p in w.nodes && q in w.nodes && p in Peers(w, q) && Taken(w, p) && Taken(w, q) && Told(w, p, q)
    ensures WiresOk(w) && NodeOk(w, p) && NodeOk(w, q) && TellOk(w, p)
  {
    HandledAreWires(w);
    assert w.markersSent[Wire(p, q)] == if Told(w, p, q) then 1 else 0;
    assert Told(w, Wire(p, q).src, Wire(p, q).dst);
    assert NodeOk(w, p) && NodeOk(w, q);
  }

  lemma {:induction false} FifoRunKeepsLogs(w: World, steps: seq<Step>, w': World, markers: bool)
    requires WorldOk(w) && ChannelsOk(w) && (markers ==> MarkersOk(w)) && FifoRun(w, steps, w', markers)
    ensures WorldOk(w') && ChannelsOk(w') && (markers ==> MarkersOk(w'))
    decreases |steps|
  {
    hide WorldOk, Enabled, Apply, ChannelOk, MarkerOk, InOrder, MarkerInOrder;
    if steps != [] {
      var w1 := Apply(w, steps[0]);
      StepKeepsOk(w, steps[0]);
      SameNodes(w, steps[0]);
      forall p, q | p in w1.nodes && q in w1.nodes
        ensures ChannelOk(w1, p, q) && (markers ==> MarkerOk(w1, p, q))
      {
        assert ChannelOk(w, p, q) && (markers ==> MarkerOk(w, p, q));
        StepKeepsChannel(w, steps[0], p, q);
        if markers {
          StepKeepsMarker(w, steps[0], p, q);
        }
      }
      FifoRunKeepsLogs(w1, steps[1..], w', markers);
    }
  }

  lemma InitLogsAreOk(initiator: Pid, nodes: set<Pid>)
    requires initiator in nodes
    ensures ChannelsOk(InitWorld(initiator, nodes)) && MarkersOk(InitWorld(initiator, nodes))
  {
  }

  lemma FifoReachableIsOk(w: World, markers: bool)
    requires FifoReachable(w, markers)
    ensures WorldOk(w) && ChannelsOk(w) && (markers ==> MarkersOk(w))
  {
    var nodes, steps :| w.initiator in nodes && FifoRun(InitWorld(w.initiator, nodes), steps, w, markers);
    InitIsOk(w.initiator, nodes);
    InitLogsAreOk(w.initiator, nodes);
    hide WorldOk, ChannelsOk, MarkersOk, FifoRun;
    FifoRunKeepsLogs(InitWorld(w.initiator, nodes), steps, w, markers);
  }

  lemma {:induction false} CutIsFinal(w: World, p: Pid, q: Pid, steps: seq<Step>, w': World)
    requires WorldOk(w) && Wire(p, q) in w.handled && Run(w, steps, w')
    ensures SameCut(w, w', p, q)
    decreases |steps|
  {
    hide WorldOk, Enabled, Apply;
    if steps == [] {
      HandledHasBoth(w, p, q);
    } else {
      hide CutSent, CutRcvd, MarkedSent, RecordedOf, Missed, CutTaken, CutHeard, Taken, Told;
      HandledIsFinal(w, steps[0], p, q);
      StepKeepsOk(w, steps[0]);
      CutIsFinal(Apply(w, steps[0]), p, q, steps[1..], w');
    }
  }

  /* ----- when a channel is right ----- */

  // Leaving out one element changes a sequence from there on, unless all that follow are like it.
  lemma LeaveOneOut(a: seq<string>, m: string, b: seq<string>)
    ensures a + b <= a + [m] + b <==> forall i :: 0 <= i < |b| ==> b[i] == m
  {
    var whole := a + [m] + b;
    if a + b <= whole {
      var i := 0;
      while i < |b|
        invariant 0 <= i <= |b| && forall j :: 0 <= j < i ==> b[j] == m
      {
        assert (a + b)[|a| + i] == whole[|a| + i];
        i := i + 1;
      }
    }
  }

  // All that is recorded reads like the message that was in hand, if there was one.
  predicate ReadsLikeMissed(w: World, p: Pid, q: Pid)
    requires Taken(w, q)
  {
    Missed(w, p, q) == [] || forall i :: 0 <= i < |RecordedOf(w, p, q)| ==> RecordedOf(w, p, q)[i] == Missed(w, p, q)[0]
  }

  // A channel is right if and only if as many messages too many were taken as were in hand, none or one, and
  // leaving out the one does not show.
  lemma RightIff(w: World, p: Pid, q: Pid)
    requires Taken(w, p) && Taken(w, q) && Comparable(CutTaken(w, p, q), CutSent(w, p, q))
    ensures ChannelIsRight(w, p, q) <==>
              |CutTaken(w, p, q)| == |CutSent(w, p, q)| + |Missed(w, p, q)| && ReadsLikeMissed(w, p, q)
  {
    var a, b, missed := CutRcvd(w, p, q), RecordedOf(w, p, q), Missed(w, p, q);
    assert |missed| <= 1;
    hide CutSent, CutRcvd, RecordedOf, Missed, Taken;
    if missed == [] {
      assert a + missed + b == a + b;
    } else {
      assert missed == [missed[0]];
      LeaveOneOut(a, missed[0], b);
    }
  }

  // If messages come in order, the place of the marker where it is handled decides whether its channel is
  // right, now and whatever happens later. If its receiver had none of the channel in hand when it recorded
  // its state, the channel is right if and only if exactly the messages of the cut have been taken. If it
  // had one, exactly one too many must have been taken, and what is recorded must read like the one in hand.
  lemma MarkerPlaceDecides(w: World, p: Pid, q: Pid, steps: seq<Step>, w': World)
    requires FifoReachable(w, false) && Enabled(w, Marker(p, q)) && Run(Apply(w, Marker(p, q)), steps, w')
    ensures Taken(w, p) && Taken(w', p) && Taken(w', q)
    ensures CutTaken(w', p, q) == CutSent(w', p, q) <==> Outstanding(w, p, q) == 0
    ensures ChannelIsRight(w', p, q) <==> Outstanding(w, p, q) == -|Missed(w', p, q)| && ReadsLikeMissed(w', p, q)
  {
    var w1 := Apply(w, Marker(p, q));
    FifoReachableIsOk(w, false);
    OkGivesWires(w);
    FlyingAtMarker(w, p, q);
    assert ChannelOk(w, p, q);
    StepKeepsOk(w, Marker(p, q));
    hide WorldOk, WiresOk, FifoReachable, ChannelsOk, ChannelOk, Apply;
    MarkerIsHandled(w, p, q);
    PlaceDecides(w, p, q);
    hide Enabled;
    CutIsFinal(w1, p, q, steps, w');
    hide Run, CutSent, CutRcvd, RecordedOf, MarkedSent, Missed, CutTaken, CutHeard, ArrivedLog, Taken, Told;
    RightIff(w', p, q);
  }

  lemma MarkerIsHandled(w: World, p: Pid, q: Pid)
    requires Enabled(w, Marker(p, q))
    ensures Wire(p, q) in Apply(w, Marker(p, q)).handled
  {
  }

  // If markers keep their place among the messages, too, a finished snapshot accounts for every message of
  // a channel: what was sent before the cut, and then what was sent between the recording of the state and
  // the marker, is what was received before the cut, then what was in hand, then what is recorded. So the
  // snapshot is a consistent cut, with exactly the messages sent and not received before it in the
  // channel, whenever nothing was sent late and nothing was in hand, and otherwise only if it is one
  // message of each, and what is recorded reads like the one in hand.
  lemma ConsistentCut(w: World, p: Pid, q: Pid)
    requires FifoReachable(w, true) && p in w.nodes && q in Peers(w, p)
    requires Wire(p, q) in w.handled || (Taken(w, w.initiator) && Quiet(w))
    ensures Taken(w, p) && Taken(w, q) && Told(w, p, q) && CutSent(w, p, q) <= MarkedSent(w, p, q)
    ensures CutSent(w, p, q) + Late(w, p, q) == CutRcvd(w, p, q) + Missed(w, p, q) + RecordedOf(w, p, q)
    ensures ChannelIsRight(w, p, q) <==> |Late(w, p, q)| == |Missed(w, p, q)| && ReadsLikeMissed(w, p, q)
    ensures ChannelIsRight(w, p, q) ==> RecordedOf(w, p, q) == CutSent(w, p, q)[|CutRcvd(w, p, q)|..]
  {
    hide WorldOk, FifoReachable, Taken, Told, Quiet;
    FifoReachableIsOk(w, true);
    if Wire(p, q) !in w.handled {
      QuietIsComplete(w);
    }
    assert MarkerOk(w, p, q) && ChannelOk(w, p, q);
    hide *;
    CoveredIsConsistent(w, p, q);
  }

  lemma CoveredIsConsistent(w: World, p: Pid, q: Pid)
    requires p in w.nodes && q in w.nodes && ChannelIsCovered(w, p, q) && ChannelOk(w, p, q)
    ensures Taken(w, p) && Taken(w, q) && Told(w, p, q) && CutSent(w, p, q) <= MarkedSent(w, p, q)
    ensures CutSent(w, p, q) + Late(w, p, q) == CutRcvd(w, p, q) + Missed(w, p, q) + RecordedOf(w, p, q)
    ensures ChannelIsRight(w, p, q) <==> |Late(w, p, q)| == |Missed(w, p, q)| && ReadsLikeMissed(w, p, q)
    ensures ChannelIsRight(w, p, q) ==> RecordedOf(w, p, q) == CutSent(w, p, q)[|CutRcvd(w, p, q)|..]
  {
    hide SentLog, CutSent, CutRcvd, RecordedOf, MarkedSent, Missed, ArrivedLog, Taken, Told, ReadsLikeMissed;
    assert CutSent(w, p, q) + Late(w, p, q) == MarkedSent(w, p, q);
    RightIff(w, p, q);
  }
}
