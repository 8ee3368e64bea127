/** The retransmission list: a message is sent again and again to every recipient that has not acknowledged it. */
module ContinuousMsgSenders {
  import opened Messages

  datatype MsgHolder = MsgHolder(orgMsg: Message, recipients: set<Pid>)

  // Index of the first holder of the message, or the length of the list.
  function FindMsg(list: seq<MsgHolder>, messageId: nat): (i: nat)
    ensures i <= |list|
    ensures i < |list| ==> list[i].orgMsg.msgId == messageId
    ensures forall j :: 0 <= j < i ==> list[j].orgMsg.msgId != messageId
  {
    if list == [] || list[0].orgMsg.msgId == messageId then 0 else 1 + FindMsg(list[1..], messageId)
  }

  // Index of the first holder that waits for nobody, or the length of the list.
  function FindDone(list: seq<MsgHolder>): (i: nat)
    ensures i <= |list|
    ensures i < |list| ==> list[i].recipients == {}
    ensures forall j :: 0 <= j < i ==> list[j].recipients != {}
  {
    if list == [] || list[0].recipients == {} then 0 else 1 + FindDone(list[1..])
  }

  function Struck(list: seq<MsgHolder>, messageId: nat, recipient: Pid): seq<MsgHolder> {
    var i := FindMsg(list, messageId);
    if i < |list| then list[i := list[i].(recipients := list[i].recipients - {recipient})] else list
  }

  function DropDone(list: seq<MsgHolder>): seq<MsgHolder> {
    var i := FindDone(list);
    if i < |list| then list[..i] + list[i + 1..] else list
  }

  function RemoveRecipient(list: seq<MsgHolder>, messageId: nat, recipient: Pid): seq<MsgHolder> {
    DropDone(Struck(list, messageId, recipient))
  }

  predicate Removes(list: seq<MsgHolder>, messageId: nat, recipient: Pid) {
    recipient in Waiting(list, messageId)
  }

  // The recipients that have not acknowledged the message yet.
  function Waiting(list: seq<MsgHolder>, messageId: nat): set<Pid> {
    var i := FindMsg(list, messageId);
    if i < |list| then list[i].recipients else {}
  }

  ghost predicate ListOk(list: seq<MsgHolder>) {
    && (forall i :: 0 <= i < |list| ==> list[i].recipients != {})
    && (forall i, j :: 0 <= i < j < |list| ==> list[i].orgMsg.msgId != list[j].orgMsg.msgId)
  }

  function Msgs(list: seq<MsgHolder>): set<Message> {
    set h | h in list :: h.orgMsg
  }

  // Number of (message, recipient) pairs still to be acknowledged.
  function Load(list: seq<MsgHolder>): nat {
    if list == [] then 0 else |list[0].recipients| + Load(list[1..])
  }

  lemma WaitingAt(list: seq<MsgHolder>, i: nat)
    requires ListOk(list) && i < |list|
    ensures FindMsg(list, list[i].orgMsg.msgId) == i
    ensures Waiting(list, list[i].orgMsg.msgId) == list[i].recipients
  {
  }

  lemma QueueMsgEffect(list: seq<MsgHolder>, m: Message, recipients: set<Pid>)
    requires ListOk(list) && recipients != {} && Waiting(list, m.msgId) == {}
    ensures var list' := list + [MsgHolder(m, recipients)];
            && ListOk(list')
            && Msgs(list') == Msgs(list) + {m}
            && Load(list') == Load(list) + |recipients|
            && forall k :: Waiting(list', k) == if k == m.msgId then recipients else Waiting(list, k)
  {
    var list' := list + [MsgHolder(m, recipients)];
    assert FindMsg(list, m.msgId) == |list|;
    forall k ensures Waiting(list', k) == if k == m.msgId then recipients else Waiting(list, k) {
      FindMsgIsFirst(list', k, FindMsg(list, k));
    }
    LoadConcat(list, [MsgHolder(m, recipients)]);
  }

  lemma {:induction false} LoadConcat(a: seq<MsgHolder>, b: seq<MsgHolder>)
    ensures Load(a + b) == Load(a) + Load(b)
  {
    if a == [] {
      assert a + b == b;
    } else {
      assert (a + b)[1..] == a[1..] + b;
      LoadConcat(a[1..], b);
    }
  }

  lemma FindMsgIsFirst(list: seq<MsgHolder>, messageId: nat, i: nat)
    requires i <= |list|
    requires forall j :: 0 <= j < i ==> list[j].orgMsg.msgId != messageId
    requires i == |list| || list[i].orgMsg.msgId == messageId || (i + 1 == |list| && list[i].orgMsg.msgId != messageId)
    ensures FindMsg(list, messageId) == if i < |list| && list[i].orgMsg.msgId == messageId then i else |list|
  {
  }

  lemma StruckShape(list: seq<MsgHolder>, messageId: nat, recipient: Pid)
    requires ListOk(list)
    ensures var i := FindMsg(list, messageId);
            RemoveRecipient(list, messageId, recipient) ==
            if i == |list| then list
            else if list[i].recipients <= {recipient} then list[..i] + list[i + 1..]
            else list[i := list[i].(recipients := list[i].recipients - {recipient})]
  {
    var i := FindMsg(list, messageId);
    var list1 := Struck(list, messageId, recipient);
    if i < |list| && list[i].recipients <= {recipient} {
      assert list1[i].recipients == {};
      assert FindDone(list1) == i;
    } else {
      assert FindDone(list1) == |list|;
    }
  }

  lemma WaitingAfterErase(list: seq<MsgHolder>, i: nat, k: nat)
    requires ListOk(list) && i < |list|
    ensures var list' := list[..i] + list[i + 1..];
            ListOk(list') && Waiting(list', k) == if k == list[i].orgMsg.msgId then {} else Waiting(list, k)
  {
    var list' := list[..i] + list[i + 1..];
    assert forall j :: 0 <= j < |list'| ==> list'[j] == list[if j < i then j else j + 1];
    var n := FindMsg(list, k);
    FindMsgIsFirst(list', k, if n <= i then if n < i then n else |list'| else n - 1);
  }

  lemma WaitingAfterStrike(list: seq<MsgHolder>, i: nat, recipient: Pid, k: nat)
    requires ListOk(list) && i < |list| && !(list[i].recipients <= {recipient})
    ensures var list' := list[i := list[i].(recipients := list[i].recipients - {recipient})];
            && ListOk(list')
            && Waiting(list', k) ==
                    if k == list[i].orgMsg.msgId then Waiting(list, k) - {recipient} else Waiting(list, k)
  {
    var list' := list[i := list[i].(recipients := list[i].recipients - {recipient})];
    FindMsgIsFirst(list', k, FindMsg(list, k));
    if k == list[i].orgMsg.msgId {
      WaitingAt(list, i);
    }
  }

  lemma RemovedWaiting(list: seq<MsgHolder>, messageId: nat, recipient: Pid, k: nat)
    requires ListOk(list)
    ensures ListOk(RemoveRecipient(list, messageId, recipient))
    ensures Waiting(RemoveRecipient(list, messageId, recipient), k) ==
            if k == messageId then Waiting(list, k) - {recipient} else Waiting(list, k)
  {
    hide ListOk, RemoveRecipient;
    var i := FindMsg(list, messageId);
    StruckShape(list, messageId, recipient);
    if i < |list| {
      if list[i].recipients <= {recipient} {
        WaitingAfterErase(list, i, k);
      } else {
        hide Waiting;
        WaitingAfterStrike(list, i, recipient, k);
      }
    }
  }

  lemma {:induction false} LoadReplace(list: seq<MsgHolder>, i: nat, h: MsgHolder)
    requires i < |list|
    ensures Load(list[i := h]) == Load(list) - |list[i].recipients| + |h.recipients|
    ensures Load(list[..i] + list[i + 1..]) == Load(list) - |list[i].recipients|
  {
    if i == 0 {
      assert list[..0] + list[1..] == list[1..];
    } else {
      assert list[i := h][1..] == list[1..][i - 1 := h];
      assert (list[..i] + list[i + 1..])[1..] == list[1..][..i - 1] + list[1..][i..];
      LoadReplace(list[1..], i - 1, h);
    }
  }

  lemma RemovedLoad(list: seq<MsgHolder>, messageId: nat, recipient: Pid)
    requires ListOk(list)
    ensures var list' := RemoveRecipient(list, messageId, recipient);
            && Msgs(list') <= Msgs(list)
            && Load(list') == Load(list) - (if Removes(list, messageId, recipient) then 1 else 0)
            && |list'| == |list| - (if Waiting(list, messageId) == {recipient} then 1 else 0)
  {
    var i := FindMsg(list, messageId);
    StruckShape(list, messageId, recipient);
    if i < |list| {
      var rs := list[i].recipients;
      LoadReplace(list, i, list[i].(recipients := rs - {recipient}));
      assert |rs - {recipient}| == |rs| - if recipient in rs then 1 else 0;
      assert rs <= {recipient} ==> rs == {recipient};
      hide ListOk, RemoveRecipient, Load;
    }
  }

  // The whole effect of one acknowledgement on a well-formed list.
  lemma RemoveRecipientEffect(list: seq<MsgHolder>, messageId: nat, recipient: Pid)
    requires ListOk(list)
    ensures var list' := RemoveRecipient(list, messageId, recipient);
            && ListOk(list')
            && Msgs(list') <= Msgs(list)
            && forall k :: Waiting(list', k) ==
                    if k == messageId then Waiting(list, k) - {recipient} else Waiting(list, k)
  {
    RemovedLoad(list, messageId, recipient);
    forall k ensures Waiting(RemoveRecipient(list, messageId, recipient), k) ==
                     if k == messageId then Waiting(list, k) - {recipient} else Waiting(list, k) {
      RemovedWaiting(list, messageId, recipient, k);
    }
    RemovedWaiting(list, messageId, recipient, 0);
  }

  // A history of calls on one list. No message is queued twice: message ids are fresh.
  datatype Call = QueueMsg(m: Message) | Remove(messageId: nat, recipient: Pid)

  function AfterCall(list: seq<MsgHolder>, c: Call, all: set<Pid>): seq<MsgHolder> {
    match c
    case QueueMsg(m) => list + [MsgHolder(m, all)]
    case Remove(id, r) => RemoveRecipient(list, id, r)
  }

  function AfterCalls(list: seq<MsgHolder>, calls: seq<Call>, all: set<Pid>): seq<MsgHolder>
    decreases |calls|
  {
    if calls == [] then list else AfterCalls(AfterCall(list, calls[0], all), calls[1..], all)
  }

  ghost predicate FreshIds(calls: seq<Call>) {
    forall i, j :: 0 <= i < j < |calls| && calls[i].QueueMsg? && calls[j].QueueMsg? ==>
      calls[i].m.msgId != calls[j].m.msgId
  }

  // Nothing that waits now, or will ever be queued again, in these calls.
  lemma {:induction false} StaysRemoved(list: seq<MsgHolder>, calls: seq<Call>, all: set<Pid>, id: nat, r: Pid)
    requires ListOk(list) && all != {} && FreshIds(calls)
    requires forall i :: 0 <= i < |calls| && calls[i].QueueMsg? ==>
               Waiting(list, calls[i].m.msgId) == {} && calls[i].m.msgId != id
    requires r !in Waiting(list, id)
    ensures ListOk(AfterCalls(list, calls, all))
    ensures r !in Waiting(AfterCalls(list, calls, all), id)
    decreases |calls|
  {
    if calls != [] {
      var c := calls[0];
      var list' := AfterCall(list, c, all);
      match c {
        case QueueMsg(m) => QueueMsgEffect(list, m, all);
        case Remove(k, p) => RemoveRecipientEffect(list, k, p);
      }
      forall i | 0 <= i < |calls[1..]| && calls[1..][i].QueueMsg?
        ensures Waiting(list', calls[1..][i].m.msgId) == {} && calls[1..][i].m.msgId != id {
        assert calls[1..][i] == calls[i + 1];
      }
      StaysRemoved(list', calls[1..], all, id, r);
    }
  }

  // removeRecipient answers true at most once for a message and a recipient: once it has,
  // it answers false whatever calls come in between.
  lemma RemovedOnce(list: seq<MsgHolder>, calls: seq<Call>, all: set<Pid>, id: nat, r: Pid)
    requires ListOk(list) && all != {} && FreshIds(calls)
    requires forall i :: 0 <= i < |calls| && calls[i].QueueMsg? ==> Waiting(list, calls[i].m.msgId) == {}
    requires Removes(list, id, r)
    ensures !Removes(AfterCalls(RemoveRecipient(list, id, r), calls, all), id, r)
  {
    RemoveRecipientEffect(list, id, r);
    StaysRemoved(RemoveRecipient(list, id, r), calls, all, id, r);
  }

  function Copies(recipients: set<Pid>, m: Message): set<(Pid, Message)> {
    set r | r in recipients :: (r, m)
  }

  // What one pass sends: the messages in the order of the list, each once to each recipient, in any order.
  ghost predicate IsPass(sent: seq<(Pid, Message)>, list: seq<MsgHolder>)
    decreases |list|
  {
    if list == [] then
      sent == []
    else
      var n := |list| - 1;
      exists k :: && 0 <= k <= |sent| && IsPass(sent[..k], list[..n])
                  && multiset(sent[k..]) == multiset(Copies(list[n].recipients, list[n].orgMsg))
  }

  lemma PassOneMore(sent: seq<(Pid, Message)>, list: seq<MsgHolder>, h: MsgHolder, more: seq<(Pid, Message)>)
    requires IsPass(sent, list) && multiset(more) == multiset(Copies(h.recipients, h.orgMsg))
    ensures IsPass(sent + more, list + [h])
  {
    assert (list + [h])[..|list|] == list;
    assert (sent + more)[..|sent|] == sent && (sent + more)[|sent|..] == more;
  }

  lemma NoPass()
    ensures IsPass([], [])
  {
  }

  lemma NoCopies(m: Message)
    ensures Copies({}, m) == {}
  {
  }

  lemma OneMoreCopy(recipients: set<Pid>, r: Pid, m: Message)
    requires r !in recipients
    ensures (r, m) !in Copies(recipients, m) && Copies(recipients + {r}, m) == Copies(recipients, m) + {(r, m)}
  {
  }

  lemma CopiesMembers(copies: seq<(Pid, Message)>, recipients: set<Pid>, m: Message)
    requires multiset(copies) == multiset(Copies(recipients, m))
    ensures forall r, m1 :: (r, m1) in copies <==> m1 == m && r in recipients
  {
    assert forall c :: c in copies <==> c in multiset(copies);
  }

  // Somebody still has to acknowledge the message.
  ghost predicate ToSend(list: seq<MsgHolder>, r: Pid, m: Message) {
    exists h :: h in list && h.orgMsg == m && r in h.recipients
  }

  lemma ToSendOneMore(list: seq<MsgHolder>, h: MsgHolder, r: Pid, m: Message)
    ensures ToSend(list + [h], r, m) <==> ToSend(list, r, m) || (m == h.orgMsg && r in h.recipients)
  {
    if m == h.orgMsg && r in h.recipients {
      assert h in list + [h];
    }
    if ToSend(list, r, m) {
      var h1 :| h1 in list && h1.orgMsg == m && r in h1.recipients;
      assert h1 in list + [h];
    }
  }

  lemma InEither(sent: seq<(Pid, Message)>, k: nat, c: (Pid, Message))
    requires k <= |sent|
    ensures c in sent <==> c in sent[..k] || c in sent[k..]
  {
    assert sent == sent[..k] + sent[k..];
  }

  lemma {:induction false} PassMembers(sent: seq<(Pid, Message)>, list: seq<MsgHolder>)
    requires IsPass(sent, list)
    ensures forall r: Pid, m :: (r, m) in sent <==> ToSend(list, r, m)
    decreases |list|
  {
    if list != [] {
      var n := |list| - 1;
      var h := list[n];
      var k :| && 0 <= k <= |sent| && IsPass(sent[..k], list[..n])
               && multiset(sent[k..]) == multiset(Copies(h.recipients, h.orgMsg));
      PassMembers(sent[..k], list[..n]);
      CopiesMembers(sent[k..], h.recipients, h.orgMsg);
      hide IsPass, Copies, ToSend;
      assert list == list[..n] + [h];
      forall r: Pid, m ensures (r, m) in sent <==> ToSend(list, r, m) {
        InEither(sent, k, (r, m));
        ToSendOneMore(list[..n], h, r, m);
      }
    }
  }

  // So a pass sends as much as is still to be acknowledged.
  lemma {:induction false} PassLength(sent: seq<(Pid, Message)>, list: seq<MsgHolder>)
    requires IsPass(sent, list)
    ensures |sent| == Load(list)
    decreases |list|
  {
    if list != [] {
      var n := |list| - 1;
      var h := list[n];
      var k :| && 0 <= k <= |sent| && IsPass(sent[..k], list[..n])
               && multiset(sent[k..]) == multiset(Copies(h.recipients, h.orgMsg));
      PassLength(sent[..k], list[..n]);
      CopiesCount(h.recipients, h.orgMsg);
      assert |multiset(sent[k..])| == |sent[k..]|;
      assert list == list[..n] + [h];
      LoadConcat(list[..n], [h]);
    }
  }

  lemma {:induction false} CopiesCount(recipients: set<Pid>, m: Message)
    ensures |Copies(recipients, m)| == |recipients|
    decreases |recipients|
  {
    if recipients != {} {
      var r :| r in recipients;
      CopiesCount(recipients - {r}, m);
      assert Copies(recipients, m) == Copies(recipients - {r}, m) + {(r, m)};
    }
  }

  class ContinuousMsgSender {
    const recipients: set<Pid>
    var msgList: seq<MsgHolder>
    var queueContainsData: bool

    constructor (recipients: set<Pid>)
      ensures this.recipients == recipients && msgList == [] && !queueContainsData
    {
      this.recipients := recipients;
      msgList, queueContainsData := [], false;
    }

    method Queue(message: Message)
      modifies this
      ensures msgList == old(msgList) + [MsgHolder(message, recipients)]
      ensures queueContainsData
    {
      msgList := msgList + [MsgHolder(message, recipients)];
      queueContainsData := true;
    }

    method IndexOfMsg(messageId: nat) returns (i: nat)
      ensures i == FindMsg(msgList, messageId)
    {
      i := 0;
      while i < |msgList| && msgList[i].orgMsg.msgId != messageId
        invariant i <= FindMsg(msgList, messageId)
      {
        i := i + 1;
      }
    }

    method IndexOfDone() returns (i: nat)
      ensures i == FindDone(msgList)
    {
      i := 0;
      while i < |msgList| && msgList[i].recipients != {}
        invariant i <= FindDone(msgList)
      {
        i := i + 1;
      }
    }

    method Remove(messageId: nat, recipient: Pid) returns (removed: bool)
      modifies this
      ensures removed <==> Removes(old(msgList), messageId, recipient)
      ensures msgList == RemoveRecipient(old(msgList), messageId, recipient)
      ensures queueContainsData == old(queueContainsData)
    {
      removed := false;
      var i := IndexOfMsg(messageId);
      if i < |msgList| {
        removed := recipient in msgList[i].recipients;
        msgList := msgList[i := msgList[i].(recipients := msgList[i].recipients - {recipient})];
      }
      i := IndexOfDone();
      if i < |msgList| {
        msgList := msgList[..i] + msgList[i + 1..];
      }
    }

    // One pass of the sending loop. The recipients of a message are visited in any order.
    method SendAll() returns (sent: seq<(Pid, Message)>)
      ensures IsPass(sent, msgList) && |sent| == Load(msgList)
      ensures forall r: Pid, m :: (r, m) in sent <==> ToSend(msgList, r, m)
    {
      hide IsPass, Copies;
      sent := [];
      NoPass();
      for i := 0 to |msgList|
        invariant IsPass(sent, msgList[..i])
      {
        var h := msgList[i];
        var copies := [];
        var left := h.recipients;
        NoCopies(h.orgMsg);
        assert h.recipients - left == {};
        while left != {}
          invariant left <= h.recipients
          invariant multiset(copies) == multiset(Copies(h.recipients - left, h.orgMsg))
          decreases left
        {
          var r :| r in left;
          OneMoreCopy(h.recipients - left, r, h.orgMsg);
          assert h.recipients - (left - {r}) == h.recipients - left + {r};
          copies := copies + [(r, h.orgMsg)];
          left := left - {r};
        }
        assert h.recipients - left == h.recipients;
        PassOneMore(sent, msgList[..i], h, copies);
        assert msgList[..i + 1] == msgList[..i] + [h];
        sent := sent + copies;
      }
      assert msgList[..|msgList|] == msgList;
      PassMembers(sent, msgList);
      PassLength(sent, msgList);
    }
  }
}
