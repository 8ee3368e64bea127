/** The snapshot service of one process. */
module SnapshotServices {
  import opened Messages

  // `S` is the state of the process; `incoming` holds what has been recorded per channel.
  datatype Snap<S> = Snap(
    initiated: bool,
    localState: Option<S>,
    toRecord: set<Pid>,
    incoming: map<Pid, seq<string>>
  ) {
    predicate Valid() {
      toRecord <= incoming.Keys
    }

    // What the snapshot says was in the channel from `sender`.
    function Recorded(sender: Pid): seq<string> {
      if sender in incoming then incoming[sender] else []
    }
  }

  function NewSnap<S>(): (s: Snap<S>)
    ensures s.Valid()
  {
    Snap(false, None, {}, map[])
  }

  function TakeLocal<S>(s: Snap<S>, state: S, channels: set<Pid>): (s': Snap<S>)
    ensures s.Valid() ==> s'.Valid()
  {
    s.(localState := Some(state),
       toRecord := s.toRecord + channels,
       incoming := s.incoming + map c | c in channels :: [])
  }

  // Channels can be added one at a time.
  lemma TakeLocalOneMore<S>(s: Snap<S>, state: S, channels: set<Pid>, c: Pid)
    ensures var r := TakeLocal(s, state, channels);
            TakeLocal(s, state, channels + {c}) == r.(toRecord := r.toRecord + {c}, incoming := r.incoming[c := []])
  {
  }

  function OnMarker<S>(s: Snap<S>, sender: Pid, state: S, peers: set<Pid>): (s': Snap<S>)
    ensures s.Valid() ==> s'.Valid()
  {
    var s1 := if s.initiated then s else TakeLocal(s, state, peers - {sender}).(initiated := true);
    s1.(toRecord := s1.toRecord - {sender})
  }

  function RecordIncoming<S>(s: Snap<S>, sender: Pid, message: string): (s': Snap<S>)
    requires s.Valid()
    ensures s'.Valid()
  {
    if sender in s.toRecord then s.(incoming := s.incoming[sender := s.incoming[sender] + [message]]) else s
  }

  // The list without one peer, in the same order.
  function Without(peers: seq<Pid>, sender: Pid): seq<Pid> {
    if peers == [] then []
    else
      var last := peers[|peers| - 1];
      Without(peers[..|peers| - 1], sender) + if last == sender then [] else [last]
  }

  predicate NoDuplicates(peers: seq<Pid>) {
    forall i, j :: 0 <= i < j < |peers| ==> peers[i] != peers[j]
  }

  function Elements(peers: seq<Pid>): set<Pid> {
    set p | p in peers
  }

  lemma WithoutLast(init: seq<Pid>, last: Pid, sender: Pid)
    ensures Without(init + [last], sender) == Without(init, sender) + if last == sender then [] else [last]
  {
    assert (init + [last])[..|init|] == init;
  }

  lemma NextPeer(peers: seq<Pid>, i: nat)
    requires NoDuplicates(peers) && i < |peers|
    ensures peers[..i + 1] == peers[..i] + [peers[i]] && peers[i] !in peers[..i]
    ensures i + 1 == |peers| ==> peers[..i + 1] == peers
  {
  }

  lemma ElementsAdd(init: seq<Pid>, last: Pid)
    ensures Elements(init + [last]) == Elements(init) + {last}
  {
  }

  // The copy fits in one slot less than there are peers exactly when the sender is one of them.
  lemma {:induction false} WithoutFits(peers: seq<Pid>, sender: Pid)
    requires NoDuplicates(peers)
    ensures |Without(peers, sender)| == |peers| - if sender in peers then 1 else 0
    ensures Elements(Without(peers, sender)) == Elements(peers) - {sender}
    decreases |peers|
  {
    if peers != [] {
      var init, last := peers[..|peers| - 1], peers[|peers| - 1];
      assert peers == init + [last];
      WithoutFits(init, sender);
      WithoutLast(init, last, sender);
      ElementsAdd(init, last);
      ElementsAdd(Without(init, sender), last);
      assert last !in Elements(init);
      hide Without, Elements;
    }
  }

  class SnapshotService<S> {
    const allPeers: seq<Pid>
    var localState: Option<S>
    var incomingChannels: map<Pid, seq<string>>
    var channelsToBeRecorded: set<Pid>
    var snapshotInitiated: bool
    var markersSent: seq<Pid>

    function State(): Snap<S>
      reads this
    {
      Snap(snapshotInitiated, localState, channelsToBeRecorded, incomingChannels)
    }

    constructor (peers: seq<Pid>)
      ensures State() == NewSnap() && allPeers == peers && markersSent == []
    {
      allPeers := peers;
      localState, incomingChannels, channelsToBeRecorded, snapshotInitiated, markersSent := None, map[], {}, false, [];
    }

    method SendMarkerMessageToPeers()
      modifies this`markersSent
      ensures markersSent == old(markersSent) + allPeers
    {
      for i := 0 to |allPeers|
        invariant markersSent == old(markersSent) + allPeers[..i]
      {
        markersSent := markersSent + [allPeers[i]];
      }
    }

    method TakeLocalSnapshot(channelsToRecord: seq<Pid>, state: S)
      modifies this
      ensures State() == TakeLocal(old(State()), state, Elements(channelsToRecord))
      ensures markersSent == old(markersSent) + allPeers
    {
      localState := Some(state);
      for i := 0 to |channelsToRecord|
        invariant snapshotInitiated == old(snapshotInitiated) && markersSent == old(markersSent)
        invariant localState == Some(state)
        invariant State() == TakeLocal(old(State()), state, Elements(channelsToRecord[..i]))
      {
        var channel := channelsToRecord[i];
        assert Elements(channelsToRecord[..i + 1]) == Elements(channelsToRecord[..i]) + {channel};
        TakeLocalOneMore(old(State()), state, Elements(channelsToRecord[..i]), channel);
        channelsToBeRecorded := channelsToBeRecorded + {channel};
        incomingChannels := incomingChannels[channel := []];
      }
      assert channelsToRecord[..|channelsToRecord|] == channelsToRecord;
      SendMarkerMessageToPeers();
    }

    method TakeSnapshot(state: S)
      modifies this
      ensures State() == TakeLocal(old(State()), state, Elements(allPeers)).(initiated := true)
      ensures markersSent == old(markersSent) + allPeers
    {
      snapshotInitiated := true;
      TakeLocalSnapshot(allPeers, state);
    }

    // The peers other than the sender of the first marker, copied into a vector of one slot less. There is
    // no vector if the copy would leave it.
    method RemainingPeers(sender: Pid) returns (remaining: Option<array<Pid>>)
      requires NoDuplicates(allPeers)
      ensures remaining.Some? <==> sender in allPeers
      ensures remaining.Some? ==> fresh(remaining.value) && remaining.value[..] == Without(allPeers, sender)
    {
      if |allPeers| == 0 {
        return None;
      }
      hide Without, NoDuplicates;
      var copy := new Pid[|allPeers| - 1];
      WithoutFits([], sender);
      var k := 0;
      ghost var seen := false;
      for i := 0 to |allPeers|
        invariant seen <==> sender in allPeers[..i]
        invariant k == (if seen then i - 1 else i) <= copy.Length
        invariant copy[..k] == Without(allPeers[..i], sender)
      {
        NextPeer(allPeers, i);
        WithoutLast(allPeers[..i], allPeers[i], sender);
        if allPeers[i] != sender {
          if k == copy.Length {
            return None;
          }
          copy[k] := allPeers[i];
          k := k + 1;
        } else {
          seen := true;
        }
      }
      assert allPeers[..|allPeers|] == allPeers;
      remaining := Some(copy);
    }

    // The handling of one marker. It fails for a first marker whose sender is no peer.
    method ProcessMarkerMsg(sender: Pid, state: S) returns (ok: bool)
      requires NoDuplicates(allPeers)
      modifies this
      ensures ok <==> old(snapshotInitiated) || sender in allPeers
      ensures State() == if ok then OnMarker(old(State()), sender, state, Elements(allPeers)) else old(State())
      ensures markersSent == old(markersSent) + if ok && !old(snapshotInitiated) then allPeers else []
    {
      ok := true;
      if !snapshotInitiated {
        var remaining := RemainingPeers(sender);
        if remaining.None? {
          return false;
        }
        WithoutFits(allPeers, sender);
        TakeLocalSnapshot(remaining.value[..], state);
        snapshotInitiated := true;
      }
      channelsToBeRecorded := channelsToBeRecorded - {sender};
    }

    method RecordIncomingMessages(sender: Pid, message: string)
      requires State().Valid()
      modifies this
      ensures State() == RecordIncoming(old(State()), sender, message) && markersSent == old(markersSent)
    {
      if sender in channelsToBeRecorded {
        incomingChannels := incomingChannels[sender := incomingChannels[sender] + [message]];
      }
    }
  }
}
