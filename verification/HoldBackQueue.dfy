/** The hold-back queue: data messages waiting for their final sequence number. */
module HoldBackQueues {
  import opened Messages

  datatype PendingMsg = PendingMsg(dataMsg: Message, finalSeqId: nat, finalSeqProposer: Pid, deliverable: bool) {

    function Id(): MsgIdentifier {
      dataMsg.Id()
    }

    // The source's operator<: by sequence number, then undeliverable first, then by proposer.
    predicate Less(other: PendingMsg) {
      if finalSeqId == other.finalSeqId then
        if deliverable == other.deliverable then
          finalSeqProposer < other.finalSeqProposer
        else
          other.deliverable
      else
        finalSeqId < other.finalSeqId
    }
  }

  // std::sort demands a strict weak order of its comparison.
  lemma LessIsStrictWeakOrder(a: PendingMsg, b: PendingMsg, c: PendingMsg)
    ensures !a.Less(a)
    ensures a.Less(b) ==> !b.Less(a)
    ensures a.Less(b) && b.Less(c) ==> a.Less(c)
    ensures !a.Less(b) && !b.Less(a) && !b.Less(c) && !c.Less(b) ==> !a.Less(c) && !c.Less(a)
  {
  }

  ghost predicate StrictlySorted(s: seq<PendingMsg>) {
    forall i, j :: 0 <= i < j < |s| ==> s[i].Less(s[j])
  }

  ghost predicate AllLess(s: seq<PendingMsg>, t: seq<PendingMsg>) {
    forall x, y :: x in s && y in t ==> x.Less(y)
  }

  lemma StrictlySortedConcat(s: seq<PendingMsg>, t: seq<PendingMsg>)
    ensures StrictlySorted(s + t) <==> StrictlySorted(s) && StrictlySorted(t) && AllLess(s, t)
  {
    var st := s + t;
    if StrictlySorted(st) {
      forall i, j | 0 <= i < j < |t| ensures t[i].Less(t[j]) {
        assert st[|s| + i].Less(st[|s| + j]);
      }
      forall i, j | 0 <= i < j < |s| ensures s[i].Less(s[j]) {
        assert st[i].Less(st[j]);
      }
      forall x, y | x in s && y in t ensures x.Less(y) {
        var i :| 0 <= i < |s| && s[i] == x;
        var j :| 0 <= j < |t| && t[j] == y;
        assert st[i].Less(st[|s| + j]);
      }
    }
  }

  ghost predicate PairwiseComparable(s: seq<PendingMsg>) {
    forall i, j :: 0 <= i < j < |s| ==> s[i].Less(s[j]) || s[j].Less(s[i])
  }

  function Insert(e: PendingMsg, s: seq<PendingMsg>): seq<PendingMsg> {
    if s == [] || e.Less(s[0]) then [e] + s else [s[0]] + Insert(e, s[1..])
  }

  // What std::sort leaves behind. SortIsDetermined shows that the choice of algorithm does not matter.
  function Sort(s: seq<PendingMsg>): seq<PendingMsg> {
    if s == [] then [] else Insert(s[0], Sort(s[1..]))
  }

  lemma {:induction false} InsertAdds(e: PendingMsg, s: seq<PendingMsg>)
    ensures multiset(Insert(e, s)) == multiset(s) + multiset{e}
    ensures forall x :: x in Insert(e, s) ==> x == e || x in s
  {
    if s == [] || e.Less(s[0]) {
    } else {
      assert s == [s[0]] + s[1..];
      InsertAdds(e, s[1..]);
    }
  }

  lemma {:induction false} SortPermutes(s: seq<PendingMsg>)
    ensures multiset(Sort(s)) == multiset(s)
    ensures forall x :: x in Sort(s) ==> x in s
  {
    if s == [] {
    } else {
      assert s == [s[0]] + s[1..];
      SortPermutes(s[1..]);
      InsertAdds(s[0], Sort(s[1..]));
    }
  }

  lemma {:induction false} InsertKeepsOrder(e: PendingMsg, s: seq<PendingMsg>)
    requires StrictlySorted(s)
    requires forall x :: x in s ==> e.Less(x) || x.Less(e)
    ensures StrictlySorted(Insert(e, s))
  {
    if s == [] || e.Less(s[0]) {
    } else {
      var rest := Insert(e, s[1..]);
      InsertKeepsOrder(e, s[1..]);
      InsertAdds(e, s[1..]);
      assert forall x :: x in rest ==> s[0].Less(x);
    }
  }

  lemma {:induction false} SortOrders(s: seq<PendingMsg>)
    requires PairwiseComparable(s)
    ensures StrictlySorted(Sort(s))
  {
    if s == [] {
    } else {
      var tail := Sort(s[1..]);
      SortOrders(s[1..]);
      SortPermutes(s[1..]);
      InsertKeepsOrder(s[0], tail);
    }
  }

  lemma HeadAndTail(s: seq<PendingMsg>)
    requires s != []
    ensures multiset(s[1..]) == multiset(s) - multiset{s[0]}
  {
    assert s == [s[0]] + s[1..];
  }

  lemma SameHead(s: seq<PendingMsg>, t: seq<PendingMsg>)
    requires s != [] && StrictlySorted(s) && StrictlySorted(t)
    requires multiset(s) == multiset(t)
    ensures t != [] && s[0] == t[0]
  {
    assert s[0] in multiset(s) && s[0] in multiset(t);
    assert t[0] in multiset(t) && t[0] in multiset(s);
  }

  lemma {:induction false} StrictOrderIsUnique(s: seq<PendingMsg>, t: seq<PendingMsg>)
    requires StrictlySorted(s) && StrictlySorted(t)
    requires multiset(s) == multiset(t)
    ensures s == t
  {
    if s == [] {
      assert |multiset(s)| == |multiset(t)|;
    } else {
      SameHead(s, t);
      HeadAndTail(s);
      HeadAndTail(t);
      StrictOrderIsUnique(s[1..], t[1..]);
    }
  }

  // On pairwise comparable entries every strictly sorted rearrangement is the same one,
  // so it is the result of any correct sort.
  lemma SortIsDetermined(s: seq<PendingMsg>, t: seq<PendingMsg>)
    requires PairwiseComparable(s)
    requires multiset(t) == multiset(s)
    ensures StrictlySorted(t) <==> t == Sort(s)
  {
    SortOrders(s);
    SortPermutes(s);
    if StrictlySorted(t) {
      StrictOrderIsUnique(t, Sort(s));
    }
  }

  // Index of the first entry with the given identifier, or the length of the queue.
  function FindId(deque: seq<PendingMsg>, id: MsgIdentifier): (i: nat)
    ensures i <= |deque|
    ensures i < |deque| ==> deque[i].Id() == id
    ensures forall j :: 0 <= j < i ==> deque[j].Id() != id
  {
    if deque == [] || deque[0].Id() == id then 0 else 1 + FindId(deque[1..], id)
  }

  // Length of the longest prefix of deliverable entries.
  function DeliverableCount(deque: seq<PendingMsg>): (n: nat)
    ensures n <= |deque|
    ensures forall j :: 0 <= j < n ==> deque[j].deliverable
    ensures n < |deque| ==> !deque[n].deliverable
  {
    if deque == [] || !deque[0].deliverable then 0 else 1 + DeliverableCount(deque[1..])
  }

  // `delivered` records the calls of the delivery callback, with the keys the source logs.
  datatype QueueState = QueueState(
    pending: set<MsgIdentifier>,
    deque: seq<PendingMsg>,
    delivered: seq<PendingMsg>
  ) {
    // Everything this process has ever accepted: delivered messages, then waiting ones.
    function Timeline(): seq<PendingMsg> {
      delivered + deque
    }
  }

  function AddToQueue(q: QueueState, d: Message, proposedSeq: nat, proposer: Pid): QueueState {
    if d.Id() in q.pending then
      q
    else
      q.(pending := q.pending + {d.Id()},
         deque := q.deque + [PendingMsg(d, proposedSeq, proposer, false)])
  }

  function Finalized(e: PendingMsg, m: Message): PendingMsg
    requires m.Seq?
  {
    e.(deliverable := true, finalSeqId := m.finalSeq, finalSeqProposer := m.finalSeqProposer)
  }

  function Marked(deque: seq<PendingMsg>, m: Message): seq<PendingMsg>
    requires m.Seq?
  {
    var i := FindId(deque, m.Id());
    if i < |deque| then deque[i := Finalized(deque[i], m)] else deque
  }

  predicate IsMarked(q: QueueState, m: Message) {
    m.Id() in q.pending && FindId(q.deque, m.Id()) < |q.deque|
  }

  // The identifier dropped from `pending` is the one of the sequence message, whichever
  // messages are delivered, and only if at least one is delivered.
  function MarkDeliverable(q: QueueState, m: Message): QueueState
    requires m.Seq?
  {
    if m.Id() !in q.pending then
      q
    else
      var sorted := Sort(Marked(q.deque, m));
      var n := DeliverableCount(sorted);
      QueueState(if n > 0 then q.pending - {m.Id()} else q.pending, sorted[n..], q.delivered + sorted[..n])
  }

  // The order every queue is kept in: the timeline is strictly sorted, its delivered part is
  // deliverable and the head of the rest is not.
  ghost predicate Ordered(q: QueueState) {
    && StrictlySorted(q.Timeline())
    && (forall e :: e in q.delivered ==> e.deliverable)
    && (q.deque != [] ==> !q.deque[0].deliverable)
  }

  lemma AddKeepsOrder(q: QueueState, d: Message, proposedSeq: nat, proposer: Pid)
    requires Ordered(q)
    requires forall e :: e in q.Timeline() ==> e.finalSeqId < proposedSeq
    ensures Ordered(AddToQueue(q, d, proposedSeq, proposer))
    ensures d.Id() !in q.pending ==>
              AddToQueue(q, d, proposedSeq, proposer).Timeline() ==
              q.Timeline() + [PendingMsg(d, proposedSeq, proposer, false)]
  {
    var q' := AddToQueue(q, d, proposedSeq, proposer);
    if d.Id() !in q.pending {
      assert q'.Timeline() == q.Timeline() + [PendingMsg(d, proposedSeq, proposer, false)];
    }
  }

  // The entry that a first sequence message finds, and what replaces it.
  ghost predicate Advances(q: QueueState, m: Message) {
    && m.Seq?
    && IsMarked(q, m)
    && var entry := q.deque[FindId(q.deque, m.Id())];
    && !entry.deliverable
    && entry.finalSeqId <= m.finalSeq
    && (forall e :: e in q.deque && e.deliverable ==>
        e.finalSeqId != m.finalSeq || e.finalSeqProposer != m.finalSeqProposer)
  }

  lemma ReplaceEntry(s: seq<PendingMsg>, i: nat, e: PendingMsg)
    requires i < |s|
    ensures multiset(s[i := e]) == multiset(s) - multiset{s[i]} + multiset{e}
    ensures s[i] in multiset(s)
    ensures forall x :: x in s[i := e] ==> x == e || x in s
  {
  }

  lemma MarkedIsComparable(q: QueueState, m: Message)
    requires StrictlySorted(q.deque) && Advances(q, m)
    ensures PairwiseComparable(Marked(q.deque, m))
  {
    var i := FindId(q.deque, m.Id());
    var deque' := Marked(q.deque, m);
    forall k, j | 0 <= k < j < |deque'| ensures deque'[k].Less(deque'[j]) || deque'[j].Less(deque'[k]) {
      assert q.deque[k].Less(q.deque[j]);
    }
  }

  lemma MarkedIsSorted(q: QueueState, m: Message)
    requires Ordered(q) && Advances(q, m)
    ensures var sorted := Sort(Marked(q.deque, m));
            var entry := q.deque[FindId(q.deque, m.Id())];
            && StrictlySorted(q.delivered + sorted)
            && multiset(sorted) == multiset(q.deque) - multiset{entry} + multiset{Finalized(entry, m)}
            && entry in multiset(q.deque)
  {
    var i := FindId(q.deque, m.Id());
    var sorted := Sort(Marked(q.deque, m));
    StrictlySortedConcat(q.delivered, q.deque);
    MarkedIsComparable(q, m);
    SortOrders(Marked(q.deque, m));
    SortPermutes(Marked(q.deque, m));
    ReplaceEntry(q.deque, i, Finalized(q.deque[i], m));
    assert AllLess(q.delivered, sorted) by {
      forall x, y | x in q.delivered && y in sorted ensures x.Less(y) {
        assert x.Less(q.deque[i]);
      }
    }
    StrictlySortedConcat(q.delivered, sorted);
  }

  lemma ReplaceInUnion(a: multiset<PendingMsg>, b: multiset<PendingMsg>, x: PendingMsg, y: PendingMsg)
    requires x in b
    ensures a + (b - multiset{x} + multiset{y}) == a + b - multiset{x} + multiset{y}
  {
  }

  lemma PopKeepsOrder(delivered: seq<PendingMsg>, sorted: seq<PendingMsg>, pending: set<MsgIdentifier>)
    requires StrictlySorted(delivered + sorted)
    requires forall e :: e in delivered ==> e.deliverable
    ensures var n := DeliverableCount(sorted);
            var q := QueueState(pending, sorted[n..], delivered + sorted[..n]);
            && Ordered(q)
            && q.Timeline() == delivered + sorted
  {
    var n := DeliverableCount(sorted);
    assert sorted == sorted[..n] + sorted[n..];
    assert (delivered + sorted[..n]) + sorted[n..] == delivered + sorted;
  }

  lemma {:induction false} SortedHasNoRepeats(s: seq<PendingMsg>, e: PendingMsg)
    requires StrictlySorted(s)
    ensures multiset(s)[e] <= 1
  {
    if s != [] {
      assert s == [s[0]] + s[1..];
      SortedHasNoRepeats(s[1..], e);
      assert s[0] !in s[1..];
    }
  }

  lemma MembersAfterReplace(t: seq<PendingMsg>, t': seq<PendingMsg>, x: PendingMsg, y: PendingMsg)
    requires StrictlySorted(t) && x in multiset(t)
    requires multiset(t') == multiset(t) - multiset{x} + multiset{y}
    ensures forall e :: e in t' <==> e == y || (e in t && e != x)
  {
    SortedHasNoRepeats(t, x);
    forall e ensures e in t' <==> e == y || (e in t && e != x) {
      assert e in t' <==> e in multiset(t');
      assert e in t <==> e in multiset(t);
    }
  }

  // A first sequence message replaces one entry, keeps the order and only extends what was delivered.
  lemma MarkKeepsOrder(q: QueueState, m: Message)
    requires Ordered(q) && Advances(q, m)
    ensures var q' := MarkDeliverable(q, m);
            var entry := q.deque[FindId(q.deque, m.Id())];
            && Ordered(q')
            && q.delivered <= q'.delivered
            && entry in q.Timeline()
            && forall e :: e in q'.Timeline() <==> e == Finalized(entry, m) || (e in q.Timeline() && e != entry)
  {
    var entry := q.deque[FindId(q.deque, m.Id())];
    var sorted := Sort(Marked(q.deque, m));
    MarkedIsSorted(q, m);
    PopKeepsOrder(q.delivered, sorted, MarkDeliverable(q, m).pending);
    ReplaceInUnion(multiset(q.delivered), multiset(q.deque), entry, Finalized(entry, m));
    MembersAfterReplace(q.Timeline(), q.delivered + sorted, entry, Finalized(entry, m));
  }

  // A repeated sequence message changes nothing, whether its entry is still waiting or long gone.
  lemma RepeatedMarkIsIdle(q: QueueState, m: Message)
    requires Ordered(q)
    requires m.Seq?
    requires forall e :: e in q.deque && e.Id() == m.Id() ==> e == Finalized(e, m)
    ensures MarkDeliverable(q, m) == q
  {
    if m.Id() in q.pending {
      assert Marked(q.deque, m) == q.deque;
      StrictlySortedConcat(q.delivered, q.deque);
      SortIsDetermined(q.deque, q.deque);
    }
  }

  /* ----- the identifier that is dropped ----- */

  function Ids(t: seq<PendingMsg>): set<MsgIdentifier> {
    set e | e in t :: e.Id()
  }

  ghost predicate DistinctIds(t: seq<PendingMsg>) {
    forall i, j :: 0 <= i < j < |t| ==> t[i].Id() != t[j].Id()
  }

  lemma {:induction false} TwiceInSequence(t: seq<PendingMsg>, i: nat, j: nat)
    requires i < j < |t| && t[i] == t[j]
    ensures multiset(t)[t[i]] >= 2
  {
    assert t == t[..j] + [t[j]] + t[j + 1..];
    assert t[..j][i] == t[i];
    assert t[i] in multiset(t[..j]);
  }

  lemma {:induction false} OnceInSequence(t: seq<PendingMsg>, e: PendingMsg)
    requires DistinctIds(t)
    ensures multiset(t)[e] <= 1
  {
    if t != [] {
      assert t == [t[0]] + t[1..];
      assert DistinctIds(t[1..]) by {
        assert forall i :: 0 <= i < |t[1..]| ==> t[1..][i] == t[i + 1];
      }
      OnceInSequence(t[1..], e);
      assert t[0] !in t[1..];
    }
  }

  lemma PermutationKeepsIds(t: seq<PendingMsg>, t': seq<PendingMsg>)
    requires DistinctIds(t) && multiset(t') == multiset(t)
    ensures DistinctIds(t') && Ids(t') == Ids(t)
  {
    assert forall e :: e in t' <==> e in multiset(t');
    assert forall e :: e in t <==> e in multiset(t);
    forall i, j | 0 <= i < j < |t'| ensures t'[i].Id() != t'[j].Id() {
      if t'[i].Id() == t'[j].Id() {
        assert t'[i] in t && t'[j] in t;
        TwiceInSequence(t', i, j);
        OnceInSequence(t, t'[i]);
      }
    }
  }

  lemma MarkedIds(deque: seq<PendingMsg>, m: Message)
    requires m.Seq? && DistinctIds(deque)
    ensures DistinctIds(Marked(deque, m)) && Ids(Marked(deque, m)) == Ids(deque)
  {
    var marked := Marked(deque, m);
    assert forall i :: 0 <= i < |marked| ==> marked[i].Id() == deque[i].Id();
    forall id | id in Ids(deque) ensures id in Ids(marked) {
      var i :| 0 <= i < |marked| && deque[i].Id() == id;
      assert marked[i].Id() == id;
    }
  }

  lemma SplitIds(t: seq<PendingMsg>, n: nat)
    requires DistinctIds(t) && n <= |t|
    ensures Ids(t) == Ids(t[..n]) + Ids(t[n..]) && Ids(t[..n]) !! Ids(t[n..])
    ensures n > 0 <==> Ids(t[..n]) != {}
  {
    assert t == t[..n] + t[n..];
    assert n > 0 ==> t[..n][0].Id() in Ids(t[..n]);
  }

  // The queue drops the identifier of the sequence message it handles, not those of the messages it
  // delivers: so the two must be the same.
  lemma ReleasedDecides(q: QueueState, m: Message)
    requires m.Seq? && DistinctIds(q.deque) && q.pending == Ids(q.deque) && m.Id() in q.pending
    ensures var q' := MarkDeliverable(q, m);
            var sorted := Sort(Marked(q.deque, m));
            q'.pending == Ids(q'.deque) <==> Ids(sorted[..DeliverableCount(sorted)]) <= {m.Id()}
  {
    hide DistinctIds, Ids, Marked, Sort;
    var marked := Marked(q.deque, m);
    var sorted := Sort(marked);
    MarkedIds(q.deque, m);
    SortPermutes(marked);
    PermutationKeepsIds(marked, sorted);
    SplitIds(sorted, DeliverableCount(sorted));
  }

  // A sequence message for a later entry releases nothing: the head stays, and is not deliverable.
  lemma LaterEntryReleasesNothing(q: QueueState, m: Message)
    requires Ordered(q) && Advances(q, m) && FindId(q.deque, m.Id()) > 0
    ensures DeliverableCount(Sort(Marked(q.deque, m))) == 0
  {
    var i := FindId(q.deque, m.Id());
    var marked := Marked(q.deque, m);
    StrictlySortedConcat(q.delivered, q.deque);
    SortPermutes(marked[1..]);
    forall e | e in marked[1..] ensures marked[0].Less(e) {
      var k :| 0 <= k < |marked[1..]| && marked[1..][k] == e;
      assert q.deque[0].Less(q.deque[k + 1]);
    }
    if Sort(marked[1..]) != [] {
      assert Sort(marked[1..])[0] in Sort(marked[1..]);
    }
  }

  // One for the head releases the head alone, or nothing, or the entry behind it, too.
  lemma HeadEntryReleases(q: QueueState, m: Message)
    requires Ordered(q) && Advances(q, m) && FindId(q.deque, m.Id()) == 0
    ensures var sorted := Sort(Marked(q.deque, m));
            var released := sorted[..DeliverableCount(sorted)];
            if |q.deque| == 1 || !q.deque[1].deliverable then
              forall e :: e in released ==> e.Id() == m.Id()
            else
              q.deque[1] in released
  {
    var rest := q.deque[1..];
    var e := Finalized(q.deque[0], m);
    StrictlySortedConcat(q.delivered, q.deque);
    assert Marked(q.deque, m) == [e] + rest;
    assert ([e] + rest)[1..] == rest;
    assert PairwiseComparable(rest) && StrictlySorted(rest);
    SortIsDetermined(rest, rest);
    var sorted := Insert(e, rest);
    assert sorted == Sort(Marked(q.deque, m));
    if rest != [] {
      assert rest[0] == q.deque[1];
      if e.Less(rest[0]) {
        assert sorted[1..] == rest;
        assert rest[0].deliverable ==> sorted[1] in sorted[..DeliverableCount(sorted)];
      } else {
        assert rest[0].deliverable ==> sorted[0] in sorted[..DeliverableCount(sorted)];
      }
    }
  }

  // A first sequence message leaves `pending` naming exactly the waiting messages if and only if its
  // entry is not at the head, or nothing deliverable waits directly behind it.
  lemma PendingMirrorsQueueIff(q: QueueState, m: Message)
    requires Ordered(q) && Advances(q, m) && DistinctIds(q.deque) && q.pending == Ids(q.deque)
    ensures var q' := MarkDeliverable(q, m);
            q'.pending == Ids(q'.deque) <==>
            FindId(q.deque, m.Id()) > 0 || |q.deque| == 1 || !q.deque[1].deliverable
  {
    ReleasedDecides(q, m);
    var sorted := Sort(Marked(q.deque, m));
    var released := sorted[..DeliverableCount(sorted)];
    hide Sort, Marked, Ordered, MarkDeliverable;
    if FindId(q.deque, m.Id()) > 0 {
      LaterEntryReleasesNothing(q, m);
      assert Ids(released) == {};
    } else {
      HeadEntryReleases(q, m);
      if |q.deque| > 1 && q.deque[1].deliverable {
        assert q.deque[1].Id() in Ids(released);
        assert q.deque[0].Id() == m.Id();
      }
    }
  }

  lemma SortedPairStays(x: PendingMsg, y: PendingMsg)
    requires x.Less(y)
    ensures Sort([x, y]) == [x, y]
  {
    assert [x, y][1..] == [y] && [y][1..] == [];
    assert Sort([y]) == [y];
  }

  lemma MarkSecond(x: PendingMsg, y: PendingMsg, pending: set<MsgIdentifier>, m: Message)
    requires m.Seq? && m.Id() in pending && m.Id() == y.Id() && x.Id() != y.Id()
    requires !x.deliverable && x.Less(Finalized(y, m))
    ensures MarkDeliverable(QueueState(pending, [x, y], []), m) == QueueState(pending, [x, Finalized(y, m)], [])
  {
    assert [x, y][1..] == [y];
    assert Marked([x, y], m) == [x, Finalized(y, m)];
    SortedPairStays(x, Finalized(y, m));
    hide Sort, Marked;
    assert DeliverableCount([x, Finalized(y, m)]) == 0;
  }

  lemma MarkFirst(x: PendingMsg, y: PendingMsg, pending: set<MsgIdentifier>, m: Message)
    requires m.Seq? && m.Id() in pending && m.Id() == x.Id()
    requires y.deliverable && Finalized(x, m).Less(y)
    ensures MarkDeliverable(QueueState(pending, [x, y], []), m) ==
              QueueState(pending - {m.Id()}, [], [Finalized(x, m), y])
  {
    assert Marked([x, y], m) == [Finalized(x, m), y];
    SortedPairStays(Finalized(x, m), y);
    hide Sort, Marked;
    assert [Finalized(x, m), y][1..] == [y];
    assert DeliverableCount([y]) == 1;
  }

  // Of two messages with the same final number the one with the smaller proposer is delivered first,
  // although the other one came first; until then it waits behind that one, which has no final number yet.
  lemma TieGoesToSmallerProposer(first: Message, second: Message, n: nat, early: Pid, late: Pid, proposer: Pid)
    requires first.Data? && second.Data? && first.Id() != second.Id() && early < late
    ensures var both := {first.Id(), second.Id()};
            var x, y := PendingMsg(first, n, proposer, false), PendingMsg(second, n, early, true);
            && Sort([y, x]) == [x, y]
            && MarkDeliverable(QueueState(both, [x, y], []), Seq(first.sender, first.msgId, n, late)) ==
                 QueueState({second.Id()}, [], [y, PendingMsg(first, n, late, true)])
  {
    var both := {first.Id(), second.Id()};
    var x, y := PendingMsg(first, n, proposer, false), PendingMsg(second, n, early, true);
    var x' := PendingMsg(first, n, late, true);
    SortedPairTurns(y, x);
    SortedPairTurns(x', y);
    assert Marked([x, y], Seq(first.sender, first.msgId, n, late)) == [x', y];
    hide Sort, Marked;
    assert [y, x'][1..] == [x'] && DeliverableCount([x']) == 1;
    assert both - {first.Id()} == {second.Id()};
  }

  lemma SortedPairTurns(x: PendingMsg, y: PendingMsg)
    requires y.Less(x)
    ensures Sort([x, y]) == [y, x]
  {
    assert [x, y][1..] == [y] && [y][1..] == [];
    assert Sort([y]) == [y] && Insert(x, []) == [x];
  }

  // Two messages arrive; the second is numbered before the first. When the first is, both are delivered,
  // and the identifier of the second stays behind in `pending` although nothing waits.
  lemma WrongIdIsDropped(first: Message, second: Message, proposer: Pid)
    requires first.Data? && second.Data? && first.Id() != second.Id()
    ensures var q0 := AddToQueue(AddToQueue(QueueState({}, [], []), first, 1, proposer), second, 2, proposer);
            var q1 := MarkDeliverable(q0, Seq(second.sender, second.msgId, 2, proposer));
            var q2 := MarkDeliverable(q1, Seq(first.sender, first.msgId, 1, proposer));
            && q1.deque == [PendingMsg(first, 1, proposer, false), PendingMsg(second, 2, proposer, true)]
            && |q2.delivered| == 2 && q2.deque == [] && q2.pending == {second.Id()}
            && !IsMarked(q2, Seq(second.sender, second.msgId, 2, proposer))
  {
    hide MarkDeliverable;
    var a, b := PendingMsg(first, 1, proposer, false), PendingMsg(second, 2, proposer, false);
    assert [] + [a] + [b] == [a, b];
    var both := {first.Id(), second.Id()};
    assert {} + {first.Id()} + {second.Id()} == both;
    MarkSecond(a, b, both, Seq(second.sender, second.msgId, 2, proposer));
    MarkFirst(a, b.(deliverable := true), both, Seq(first.sender, first.msgId, 1, proposer));
    assert both - {first.Id()} == {second.Id()};
  }

  /* ----- late copies ----- */

  // An undeliverable entry stays until a sequence message of its own comes.
  lemma UndeliverableStays(q: QueueState, m: Message, e: PendingMsg)
    requires m.Seq? && e in q.deque && !e.deliverable && e.Id() != m.Id()
    ensures e in MarkDeliverable(q, m).deque
  {
    var marked := Marked(q.deque, m);
    var i :| 0 <= i < |q.deque| && q.deque[i] == e;
    assert marked[i] == e;
    SortPermutes(marked);
    assert e in multiset(Sort(marked));
    var k :| 0 <= k < |Sort(marked)| && Sort(marked)[k] == e;
    if m.Id() in q.pending {
      assert MarkDeliverable(q, m).deque[k - DeliverableCount(Sort(marked))] == e;
    }
  }

  // A message queued once more after its delivery gets its old key back, and with it comes first.
  lemma DeliveredAgain(q: QueueState, d: Message, proposedSeq: nat, proposer: Pid, e: PendingMsg)
    requires Ordered(q) && d.Data? && d.Id() !in q.pending && e in q.delivered && e.Id() == d.Id()
    requires forall x :: x in q.deque ==> x.Id() != d.Id()
    ensures var m := Seq(d.sender, d.msgId, e.finalSeqId, e.finalSeqProposer);
            var q' := MarkDeliverable(AddToQueue(q, d, proposedSeq, proposer), m);
            && q'.delivered == q.delivered + [PendingMsg(d, e.finalSeqId, e.finalSeqProposer, true)]
            && q'.deque == q.deque
  {
    var m := Seq(d.sender, d.msgId, e.finalSeqId, e.finalSeqProposer);
    var late := PendingMsg(d, proposedSeq, proposer, false);
    var again := Finalized(late, m);
    var deque := q.deque + [late];
    assert deque[|q.deque|] == late && late.Id() == d.Id();
    assert forall i :: 0 <= i < |q.deque| ==> deque[i] in q.deque;
    assert FindId(deque, d.Id()) == |q.deque|;
    assert Marked(deque, m) == q.deque + [again];
    hide Sort, Marked, FindId;
    StrictlySortedConcat(q.delivered, q.deque);
    StrictlySortedConcat([again], q.deque);
    AgainIsFirst(q.deque, again);
    assert ([again] + q.deque)[1..] == q.deque;
    assert ([again] + q.deque)[..1] == [again];
  }

  lemma AgainIsFirst(deque: seq<PendingMsg>, again: PendingMsg)
    requires StrictlySorted([again] + deque)
    ensures Sort(deque + [again]) == [again] + deque
  {
    var s, t := deque + [again], [again] + deque;
    assert multiset(t) == multiset(s);
    forall i, j | 0 <= i < j < |s| ensures s[i].Less(s[j]) || s[j].Less(s[i]) {
      assert i < |deque| && t[i + 1] == s[i];
      assert if j < |deque| then t[j + 1] == s[j] else t[0] == s[j];
    }
    SortIsDetermined(s, t);
  }

  class HoldBackQueue {
    var pendingMsgSet: set<MsgIdentifier>
    var deque: seq<PendingMsg>
    var delivered: seq<PendingMsg>

    function State(): QueueState
      reads this
    {
      QueueState(pendingMsgSet, deque, delivered)
    }

    constructor ()
      ensures State() == QueueState({}, [], [])
    {
      pendingMsgSet, deque, delivered := {}, [], [];
    }

    method Add(dataMsg: Message, proposedSeq: nat, proposer: Pid) returns (added: bool)
      modifies this
      ensures added <==> dataMsg.Id() !in old(pendingMsgSet)
      ensures State() == AddToQueue(old(State()), dataMsg, proposedSeq, proposer)
    {
      added := false;
      if dataMsg.Id() !in pendingMsgSet {
        pendingMsgSet := pendingMsgSet + {dataMsg.Id()};
        deque := deque + [PendingMsg(dataMsg, proposedSeq, proposer, false)];
        added := true;
      }
    }

    method Mark(seqMsg: Message) returns (marked: bool)
      requires seqMsg.Seq?
      modifies this
      ensures marked <==> IsMarked(old(State()), seqMsg)
      ensures State() == MarkDeliverable(old(State()), seqMsg)
    {
      marked := false;
      if seqMsg.Id() in pendingMsgSet {
        var i := 0;
        while i < |deque| && deque[i].Id() != seqMsg.Id()
          invariant i <= FindId(deque, seqMsg.Id())
        {
          i := i + 1;
        }
        if i < |deque| {
          deque := deque[i := Finalized(deque[i], seqMsg)];
          marked := true;
        }
        deque := Sort(deque);
        Deliver(seqMsg.Id());
      }
    }

    // The delivery loop of markDeliverable.
    method Deliver(id: MsgIdentifier)
      modifies this
      ensures var n := DeliverableCount(old(deque));
              && deque == old(deque)[n..]
              && delivered == old(delivered) + old(deque)[..n]
              && pendingMsgSet == if n > 0 then old(pendingMsgSet) - {id} else old(pendingMsgSet)
    {
      ghost var n := 0;
      while deque != [] && deque[0].deliverable
        invariant n <= DeliverableCount(old(deque))
        invariant deque == old(deque)[n..]
        invariant delivered == old(delivered) + old(deque)[..n]
        invariant pendingMsgSet == if n > 0 then old(pendingMsgSet) - {id} else old(pendingMsgSet)
        decreases |deque|
      {
        delivered := delivered + [deque[0]];
        pendingMsgSet := pendingMsgSet - {id};
        deque := deque[1..];
        n := n + 1;
      }
    }
  }
}
