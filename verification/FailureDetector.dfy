/** The heartbeat failure detector: a countdown per peer, scanned in any order, at most one report a scan. */
module FailureDetectors {
  import opened Messages

  type PeerId = nat

  const FULL_COUNT: int := 2

  type Counts = map<PeerId, int>

  // The detector's history: heartbeats arriving and scans of the map, each in some iteration order.
  datatype Event = Heartbeat(peer: PeerId) | Tick(order: seq<PeerId>)

  datatype Scan = Scan(counts: Counts, crashed: Option<PeerId>)

  ghost predicate IsOrder(order: seq<PeerId>, keys: set<PeerId>) {
    && (forall p :: p in order <==> p in keys)
    && (forall i, j :: 0 <= i < j < |order| ==> order[i] != order[j])
  }

  // One scan: count down peer by peer; the first one found at zero is removed and ends the scan.
  function ScanFrom(counts: Counts, order: seq<PeerId>): Scan
    requires forall p :: p in order ==> p in counts
  {
    if order == [] then
      Scan(counts, None)
    else if counts[order[0]] == 0 then
      Scan(counts - {order[0]}, Some(order[0]))
    else
      ScanFrom(counts[order[0] := counts[order[0]] - 1], order[1..])
  }

  ghost predicate CountsOk(counts: Counts) {
    forall p :: p in counts ==> 0 <= counts[p] <= FULL_COUNT
  }

  // The scan has counted down the peers of `order` and touched nobody else; all of them were positive.
  ghost predicate CountedDown(counts: Counts, order: seq<PeerId>, after: Counts) {
    && (forall p :: p in order && p in counts ==> counts[p] > 0)
    && (forall p :: p in after && p in counts ==> after[p] == counts[p] - if p in order then 1 else 0)
  }

  // It has found the peer at position i of `order` at zero.
  ghost predicate StoppedAt(counts: Counts, order: seq<PeerId>, i: int, r: Scan) {
    && 0 <= i < |order| && r.crashed == Some(order[i]) && order[i] in counts && counts[order[i]] == 0
    && r.counts.Keys == counts.Keys - {order[i]} && CountedDown(counts, order[..i], r.counts)
  }

  // A scan that reports a peer has counted down exactly the peers before it; one that reports nobody has
  // counted down all.
  ghost predicate Exact(counts: Counts, order: seq<PeerId>, r: Scan) {
    if r.crashed.None? then r.counts.Keys == counts.Keys && CountedDown(counts, order, r.counts)
    else exists i :: StoppedAt(counts, order, i, r)
  }

  lemma {:induction false} ScanIsExact(counts: Counts, order: seq<PeerId>)
    requires CountsOk(counts) && forall p :: p in order ==> p in counts
    requires forall i, j :: 0 <= i < j < |order| ==> order[i] != order[j]
    ensures Exact(counts, order, ScanFrom(counts, order))
  {
    if order == [] {
    } else if counts[order[0]] == 0 {
      assert StoppedAt(counts, order, 0, ScanFrom(counts, order));
    } else {
      hide Exact, StoppedAt, CountedDown;
      var counts1, rest := counts[order[0] := counts[order[0]] - 1], order[1..];
      assert forall i :: 0 <= i < |rest| ==> rest[i] == order[i + 1];
      ScanIsExact(counts1, rest);
      assert order == [order[0]] + rest;
      ExactOneMore(counts, order[0], rest, ScanFrom(counts, order));
    }
  }

  lemma ExactOneMore(counts: Counts, p: PeerId, rest: seq<PeerId>, r: Scan)
    requires p in counts && p !in rest && counts[p] > 0 && Exact(counts[p := counts[p] - 1], rest, r)
    ensures Exact(counts, [p] + rest, r)
  {
    hide CountedDown;
    if r.crashed.None? {
      OneMoreDown(counts, p, rest, r.counts);
    } else {
      var i :| StoppedAt(counts[p := counts[p] - 1], rest, i, r);
      assert ([p] + rest)[..i + 1] == [p] + rest[..i];
      OneMoreDown(counts, p, rest[..i], r.counts);
      assert StoppedAt(counts, [p] + rest, i + 1, r);
    }
  }

  lemma OneMoreDown(counts: Counts, p: PeerId, rest: seq<PeerId>, after: Counts)
    requires p in counts && p !in rest && counts[p] > 0
    requires CountedDown(counts[p := counts[p] - 1], rest, after)
    ensures CountedDown(counts, [p] + rest, after)
  {
  }

  // What a scan can do, whatever the order.
  ghost predicate ScanEffect(counts: Counts, scanned: set<PeerId>, r: Scan) {
    match r.crashed
    case None =>
      && r.counts.Keys == counts.Keys
      && (forall p :: p in counts ==> r.counts[p] == if p in scanned then counts[p] - 1 else counts[p])
      && (forall p :: p in scanned && p in counts ==> counts[p] > 0)
    case Some(c) =>
      && c in counts && c in scanned && counts[c] == 0 && r.counts.Keys == counts.Keys - {c}
      && (forall p :: p in r.counts ==>
            r.counts[p] == counts[p] || (p in scanned && counts[p] > 0 && r.counts[p] == counts[p] - 1))
  }

  lemma ScanHasEffect(counts: Counts, order: seq<PeerId>)
    requires CountsOk(counts)
    requires forall p :: p in order ==> p in counts
    requires forall i, j :: 0 <= i < j < |order| ==> order[i] != order[j]
    ensures ScanEffect(counts, (set p | p in order), ScanFrom(counts, order))
    ensures CountsOk(ScanFrom(counts, order).counts)
  {
    hide ScanFrom;
    ScanIsExact(counts, order);
  }

  // An event applied to the map. A scan order that does not fit the map cannot happen.
  ghost predicate Fits(counts: Counts, e: Event) {
    e.Tick? ==> IsOrder(e.order, counts.Keys)
  }

  function After(counts: Counts, e: Event): Scan
    requires e.Tick? ==> forall p :: p in e.order ==> p in counts
  {
    match e
    case Heartbeat(p) => Scan(counts[p := FULL_COUNT], None)
    case Tick(order) => ScanFrom(counts, order)
  }

  ghost predicate Possible(counts: Counts, events: seq<Event>)
    decreases |events|
  {
    events == [] || (Fits(counts, events[0]) && Possible(After(counts, events[0]).counts, events[1..]))
  }

  function AfterAll(counts: Counts, events: seq<Event>): Counts
    requires Possible(counts, events)
    decreases |events|
  {
    if events == [] then counts else AfterAll(After(counts, events[0]).counts, events[1..])
  }

  function Reported(counts: Counts, events: seq<Event>): set<PeerId>
    requires Possible(counts, events)
    decreases |events|
  {
    if events == [] then
      {}
    else
      var r := After(counts, events[0]);
      (if r.crashed.Some? then {r.crashed.value} else {}) + Reported(r.counts, events[1..])
  }

  function Ticks(events: seq<Event>): nat {
    if events == [] then 0 else (if events[0].Tick? then 1 else 0) + Ticks(events[1..])
  }

  // Scans since the last heartbeat of p.
  function TicksSince(events: seq<Event>, p: PeerId): nat {
    if events == [] then
      0
    else
      var last := events[|events| - 1];
      if last == Heartbeat(p) then 0
      else TicksSince(events[..|events| - 1], p) + if last.Tick? then 1 else 0
  }

  /* ----- runs ----- */

  lemma EventKeepsCounts(counts: Counts, e: Event)
    requires CountsOk(counts) && Fits(counts, e)
    ensures CountsOk(After(counts, e).counts)
  {
    if e.Tick? {
      ScanHasEffect(counts, e.order);
    }
  }

  lemma {:induction false} CountsStayOk(counts: Counts, events: seq<Event>)
    requires CountsOk(counts) && Possible(counts, events)
    ensures CountsOk(AfterAll(counts, events))
    decreases |events|
  {
    if events != [] {
      EventKeepsCounts(counts, events[0]);
      CountsStayOk(After(counts, events[0]).counts, events[1..]);
    }
  }

  lemma {:induction false} AfterConcat(counts: Counts, a: seq<Event>, b: seq<Event>)
    requires Possible(counts, a + b)
    ensures Possible(counts, a) && Possible(AfterAll(counts, a), b)
    ensures AfterAll(counts, a + b) == AfterAll(AfterAll(counts, a), b)
    decreases |a|
  {
    if a == [] {
      assert a + b == b;
    } else {
      assert (a + b)[1..] == a[1..] + b;
      AfterConcat(After(counts, a[0]).counts, a[1..], b);
    }
  }

  /* ----- accuracy ----- */

  // A peer's count falls by at most one a scan, so it tells how recent its last heartbeat is.
  lemma {:induction false} CountTellsAge(events: seq<Event>, p: PeerId)
    requires Possible(map[], events) && p in AfterAll(map[], events)
    ensures AfterAll(map[], events)[p] + TicksSince(events, p) >= FULL_COUNT
  {
    if events != [] {
      var n := |events| - 1;
      var last := events[n];
      assert events == events[..n] + [last];
      AfterConcat(map[], events[..n], [last]);
      var counts := AfterAll(map[], events[..n]);
      assert AfterAll(counts, [last]) == AfterAll(After(counts, last).counts, []);
      CountsStayOk(map[], events[..n]);
      if last.Tick? {
        ScanHasEffect(counts, last.order);
        CountTellsAge(events[..n], p);
      } else if last.peer != p {
        CountTellsAge(events[..n], p);
      }
    }
  }

  // A peer is reported only by the third scan, or a later one, after its last heartbeat.
  lemma ReportedOnlyWhenSilent(past: seq<Event>, order: seq<PeerId>)
    requires Possible(map[], past) && IsOrder(order, AfterAll(map[], past).Keys)
    ensures var r := ScanFrom(AfterAll(map[], past), order);
            r.crashed.Some? ==> TicksSince(past + [Tick(order)], r.crashed.value) >= 3
  {
    var counts := AfterAll(map[], past);
    CountsStayOk(map[], past);
    ScanHasEffect(counts, order);
    var r := ScanFrom(counts, order);
    if r.crashed.Some? {
      var p := r.crashed.value;
      CountTellsAge(past, p);
      assert (past + [Tick(order)])[..|past|] == past;
    }
  }

  // A peer that, once heard, is heard at least once in every window of three scans is never removed.
  lemma {:induction false} PunctualPeerStays(events: seq<Event>, p: PeerId)
    requires Possible(map[], events) && Heartbeat(p) in events
    requires forall i :: 0 <= i <= |events| && Heartbeat(p) in events[..i] ==> TicksSince(events[..i], p) <= 2
    ensures p in AfterAll(map[], events)
  {
    var n := |events| - 1;
    var last := events[n];
    assert events == events[..n] + [last];
    AfterConcat(map[], events[..n], [last]);
    var counts := AfterAll(map[], events[..n]);
    assert AfterAll(counts, [last]) == AfterAll(After(counts, last).counts, []);
    if last != Heartbeat(p) {
      assert forall i :: 0 <= i <= n ==> events[..n][..i] == events[..i];
      assert Heartbeat(p) in events[..n];
      PunctualPeerStays(events[..n], p);
      if last.Tick? {
        CountsStayOk(map[], events[..n]);
        ScanHasEffect(counts, last.order);
        ReportedOnlyWhenSilent(events[..n], last.order);
        assert events[..n + 1] == events;
      }
    }
  }

  /* ----- completeness ----- */

  // No peer outside S is at zero when a scan starts.
  ghost predicate OthersPunctual(counts: Counts, events: seq<Event>, S: set<PeerId>)
    requires Possible(counts, events)
    decreases |events|
  {
    events == [] ||
    ((events[0].Tick? ==> forall p :: p in counts && p !in S ==> counts[p] > 0) &&
     OthersPunctual(After(counts, events[0]).counts, events[1..], S))
  }

  ghost predicate SilentIn(S: set<PeerId>, events: seq<Event>) {
    forall i :: 0 <= i < |events| && events[i].Heartbeat? ==> events[i].peer !in S
  }

  // A scan that finds nobody at zero brings all silent peers down by one; any other one reports one of them.
  lemma ScanMakesProgress(counts: Counts, order: seq<PeerId>, S: set<PeerId>, c: int)
    requires CountsOk(counts) && IsOrder(order, counts.Keys)
    requires forall p :: p in counts && p !in S ==> counts[p] > 0
    requires forall p :: p in counts && p in S ==> counts[p] <= c
    ensures var r := ScanFrom(counts, order);
            if r.crashed.Some? then
              r.crashed.value in S * counts.Keys && r.counts.Keys == counts.Keys - {r.crashed.value} &&
              forall p :: p in r.counts && p in S ==> r.counts[p] <= c
            else
              r.counts.Keys == counts.Keys && forall p :: p in r.counts && p in S ==> r.counts[p] <= c - 1
  {
    ScanHasEffect(counts, order);
  }

  lemma {:induction false} SilentPeersRunOut(counts: Counts, events: seq<Event>, S: set<PeerId>, c: int)
    requires CountsOk(counts) && Possible(counts, events) && SilentIn(S, events) && OthersPunctual(counts, events, S)
    requires c >= 0 && forall p :: p in counts && p in S ==> counts[p] <= c
    requires Ticks(events) >= |S * counts.Keys| + c
    ensures S * AfterAll(counts, events).Keys == {}
    ensures S * counts.Keys <= Reported(counts, events)
    decreases |events|
  {
    if S * counts.Keys == {} {
      StayGone(counts, events, S);
    } else if events != [] {
      var r := After(counts, events[0]);
      assert SilentIn(S, events[1..]) by {
        assert forall i :: 0 <= i < |events[1..]| ==> events[1..][i] == events[i + 1];
      }
      EventKeepsCounts(counts, events[0]);
      if events[0].Tick? {
        ScanMakesProgress(counts, events[0].order, S, c);
        if r.crashed.Some? {
          assert S * r.counts.Keys == S * counts.Keys - {r.crashed.value};
          SilentPeersRunOut(r.counts, events[1..], S, c);
        } else {
          var p :| p in S * counts.Keys;
          assert r.counts[p] <= c - 1;
          assert S * r.counts.Keys == S * counts.Keys;
          SilentPeersRunOut(r.counts, events[1..], S, c - 1);
        }
      } else {
        assert S * r.counts.Keys == S * counts.Keys;
        SilentPeersRunOut(r.counts, events[1..], S, c);
      }
    }
  }

  lemma {:induction false} StayGone(counts: Counts, events: seq<Event>, S: set<PeerId>)
    requires CountsOk(counts) && Possible(counts, events) && SilentIn(S, events) && S * counts.Keys == {}
    ensures S * AfterAll(counts, events).Keys == {}
    decreases |events|
  {
    if events != [] {
      assert forall i :: 0 <= i < |events[1..]| ==> events[1..][i] == events[i + 1];
      EventKeepsCounts(counts, events[0]);
      if events[0].Tick? {
        ScanHasEffect(counts, events[0].order);
      }
      StayGone(After(counts, events[0]).counts, events[1..], S);
    }
  }

  // All k peers that fall silent are reported within k + 2 scans, in any iteration order and in spite
  // of the early exit after each report, as long as no other peer is overdue.
  lemma AllSilentPeersReported(past: seq<Event>, events: seq<Event>, S: set<PeerId>)
    requires Possible(map[], past) && Possible(AfterAll(map[], past), events)
    requires S <= AfterAll(map[], past).Keys && SilentIn(S, events)
    requires OthersPunctual(AfterAll(map[], past), events, S)
    requires Ticks(events) >= |S| + 2
    ensures S <= Reported(AfterAll(map[], past), events)
    ensures S * AfterAll(AfterAll(map[], past), events).Keys == {}
  {
    var counts := AfterAll(map[], past);
    CountsStayOk(map[], past);
    assert S * counts.Keys == S;
    SilentPeersRunOut(counts, events, S, FULL_COUNT);
  }

  /* ----- the same from the heartbeats ----- */

  // Every other peer heard so far is heard again before the third scan in a row.
  ghost predicate OthersHeard(past: seq<Event>, events: seq<Event>, S: set<PeerId>) {
    forall i, p :: 0 <= i < |events| && events[i].Tick? && p !in S && Heartbeat(p) in past + events[..i] ==>
      TicksSince(past + events[..i + 1], p) <= 2
  }

  lemma {:induction false} KnownWereHeard(events: seq<Event>, p: PeerId)
    requires Possible(map[], events) && p in AfterAll(map[], events)
    ensures Heartbeat(p) in events
  {
    if events != [] {
      var n := |events| - 1;
      var last := events[n];
      assert events == events[..n] + [last];
      AfterConcat(map[], events[..n], [last]);
      var counts := AfterAll(map[], events[..n]);
      assert AfterAll(counts, [last]) == AfterAll(After(counts, last).counts, []);
      CountsStayOk(map[], events[..n]);
      if last != Heartbeat(p) {
        if last.Tick? {
          ScanHasEffect(counts, last.order);
        }
        KnownWereHeard(events[..n], p);
      }
    }
  }

  lemma {:induction false} PossibleConcat(counts: Counts, a: seq<Event>, b: seq<Event>)
    requires Possible(counts, a) && Possible(AfterAll(counts, a), b)
    ensures Possible(counts, a + b)
    decreases |a|
  {
    if a == [] {
      assert a + b == b;
    } else {
      assert (a + b)[1..] == a[1..] + b;
      PossibleConcat(After(counts, a[0]).counts, a[1..], b);
    }
  }

  lemma HeardAfter(past: seq<Event>, events: seq<Event>, S: set<PeerId>)
    requires OthersHeard(past, events, S) && events != []
    ensures OthersHeard(past + [events[0]], events[1..], S)
  {
    var past1, rest := past + [events[0]], events[1..];
    forall i, p | 0 <= i < |rest| && rest[i].Tick? && p !in S && Heartbeat(p) in past1 + rest[..i]
      ensures TicksSince(past1 + rest[..i + 1], p) <= 2
    {
      assert past1 + rest[..i] == past + events[..i + 1];
      assert past1 + rest[..i + 1] == past + events[..i + 2];
    }
  }

  // A peer that the detector counts and that is heard before the third scan is not at zero when one starts.
  lemma HeardIsPositive(past: seq<Event>, events: seq<Event>, S: set<PeerId>, p: PeerId)
    requires Possible(map[], past) && OthersHeard(past, events, S) && events != [] && events[0].Tick?
    requires p in AfterAll(map[], past) && p !in S
    ensures AfterAll(map[], past)[p] > 0
  {
    KnownWereHeard(past, p);
    CountTellsAge(past, p);
    assert events[..0] == [] && events[..1] == [events[0]] && past + [] == past;
    assert (past + [events[0]])[..|past|] == past;
  }

  lemma {:induction false} HeardArePunctual(past: seq<Event>, events: seq<Event>, S: set<PeerId>)
    requires Possible(map[], past) && Possible(AfterAll(map[], past), events) && OthersHeard(past, events, S)
    ensures OthersPunctual(AfterAll(map[], past), events, S)
    decreases |events|
  {
    if events != [] {
      var counts := AfterAll(map[], past);
      var past1 := past + [events[0]];
      assert AfterAll(counts, [events[0]]) == AfterAll(After(counts, events[0]).counts, []);
      PossibleConcat(map[], past, [events[0]]);
      AfterConcat(map[], past, [events[0]]);
      forall p | events[0].Tick? && p in counts && p !in S ensures counts[p] > 0 {
        HeardIsPositive(past, events, S, p);
      }
      HeardAfter(past, events, S);
      HeardArePunctual(past1, events[1..], S);
    }
  }

  // All k peers that fall silent are reported within k + 2 scans, whenever every other peer is heard at
  // least once in every window of three scans.
  lemma SilentPeersReportedInTime(past: seq<Event>, events: seq<Event>, S: set<PeerId>)
    requires Possible(map[], past) && Possible(AfterAll(map[], past), events)
    requires S <= AfterAll(map[], past).Keys && SilentIn(S, events) && OthersHeard(past, events, S)
    requires Ticks(events) >= |S| + 2
    ensures S <= Reported(AfterAll(map[], past), events)
    ensures S * AfterAll(AfterAll(map[], past), events).Keys == {}
  {
    HeardArePunctual(past, events, S);
    AllSilentPeersReported(past, events, S);
  }

  lemma ScanIsSlow(counts: Counts, order: seq<PeerId>, c: nat)
    requires CountsOk(counts) && IsOrder(order, counts.Keys) && forall p :: p in counts ==> counts[p] >= c
    ensures var r := ScanFrom(counts, order);
            var c' := if c > 0 then c - 1 else 0;
            && |r.counts.Keys| + c' >= |counts.Keys| + c - 1
            && forall p :: p in r.counts ==> r.counts[p] >= c'
  {
    ScanHasEffect(counts, order);
    var r := ScanFrom(counts, order);
    if r.crashed.Some? {
      assert counts.Keys == r.counts.Keys + {r.crashed.value};
    }
  }

  // The bound is exact: peers that all fall silent right after a heartbeat are not all reported sooner.
  lemma {:induction false} NoSooner(counts: Counts, events: seq<Event>, c: nat)
    requires CountsOk(counts) && Possible(counts, events) && counts != map[]
    requires forall i :: 0 <= i < |events| ==> events[i].Tick?
    requires forall p :: p in counts ==> counts[p] >= c
    requires |events| < |counts.Keys| + c
    ensures AfterAll(counts, events) != map[]
    decreases |events|
  {
    if events != [] {
      var r := After(counts, events[0]);
      assert forall i :: 0 <= i < |events[1..]| ==> events[1..][i] == events[i + 1];
      EventKeepsCounts(counts, events[0]);
      ScanIsSlow(counts, events[0].order, c);
      ScanHasEffect(counts, events[0].order);
      NoSooner(r.counts, events[1..], if c > 0 then c - 1 else 0);
    }
  }

  class FailureDetector {
    var peerHeartBeatMap: map<PeerId, int>
    var reported: seq<PeerId>  // calls of the failure callbacks

    constructor ()
      ensures peerHeartBeatMap == map[] && reported == []
    {
      peerHeartBeatMap, reported := map[], [];
    }

    // The detector thread's scan. `order` is the order in which the hash map yields its entries.
    method Scan(order: seq<PeerId>)
      requires IsOrder(order, peerHeartBeatMap.Keys)
      modifies this
      ensures var r := ScanFrom(old(peerHeartBeatMap), order);
              && peerHeartBeatMap == r.counts
              && reported == old(reported) + if r.crashed.Some? then [r.crashed.value] else []
    {
      for i := 0 to |order|
        invariant peerHeartBeatMap.Keys == old(peerHeartBeatMap).Keys && reported == old(reported)
        invariant ScanFrom(peerHeartBeatMap, order[i..]) == ScanFrom(old(peerHeartBeatMap), order)
      {
        var p := order[i];
        var peerCrashed := peerHeartBeatMap[p] == 0;
        ghost var before := peerHeartBeatMap;
        peerHeartBeatMap := peerHeartBeatMap[p := peerHeartBeatMap[p] - 1];
        assert order[i..][1..] == order[i + 1..];
        if peerCrashed {
          peerHeartBeatMap := peerHeartBeatMap - {p};
          reported := reported + [p];
          assert peerHeartBeatMap == before - {p};
          break;
        }
      }
    }

    // The listener thread's reset.
    method HeartBeat(p: PeerId)
      modifies this
      ensures peerHeartBeatMap == After(old(peerHeartBeatMap), Heartbeat(p)).counts
      ensures reported == old(reported)
    {
      peerHeartBeatMap := peerHeartBeatMap[p := FULL_COUNT];
    }

    // Who is alive, as far as this detector knows.
    method GetAlivePeers() returns (alivePeers: set<PeerId>)
      ensures alivePeers == peerHeartBeatMap.Keys
    {
      alivePeers := {};
      var left := peerHeartBeatMap.Keys;
      while left != {}
        invariant left <= peerHeartBeatMap.Keys && alivePeers == peerHeartBeatMap.Keys - left
        decreases left
      {
        var p :| p in left;
        alivePeers := alivePeers + {p};
        left := left - {p};
      }
    }
  }
}
