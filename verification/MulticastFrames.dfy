/** How the invariant survives changes elsewhere: in the history, in another process, in a channel. */
module MulticastFrames {
  import opened Messages
  import opened MulticastServices
  import opened MulticastProtocol

  /* ----- the history only grows ----- */

  ghost predicate Grows(h: History, h': History) {
    && (forall m :: m in h.sent ==> m in h'.sent && h'.sent[m] == h.sent[m])
    && (forall r, m :: (r, m) in h.prop ==> (r, m) in h'.prop && h'.prop[(r, m)] == h.prop[(r, m)])
    && (forall m :: m in h.final ==> m in h'.final && h'.final[m] == h.final[m])
    && (forall r, m :: (r, m) in h.marked ==> (r, m) in h'.marked)
    && |h.sent| <= |h'.sent| && |h.prop| <= |h'.prop|
  }

  // Nothing new concerns process r as a receiver.
  ghost predicate QuietFor(h: History, h': History, r: Pid) {
    && (forall m :: (r, m) in h'.prop ==> (r, m) in h.prop)
    && (forall m :: (r, m) in h'.marked ==> (r, m) in h.marked)
  }

  // What process r did is of no concern to the others: they neither received, sent nor numbered anything new.
  ghost predicate OnlyBy(h: History, h': History, r: Pid) {
    && Grows(h, h')
    && (forall q :: q != r ==> QuietFor(h, h', q))
    && (forall m: MsgIdentifier :: m.sender != r && m in h'.sent ==> m in h.sent)
    && (forall m: MsgIdentifier :: m.sender != r && m in h'.final ==> m in h.final)
  }

  lemma NothingNew(h: History, r: Pid)
    ensures OnlyBy(h, h, r)
  {
  }

  lemma RcvFrame(h: History, h': History, r: Pid, p: Proc)
    requires RcvOk(h, r, p) && Grows(h, h') && QuietFor(h, h', r)
    ensures RcvOk(h', r, p)
  {
  }

  lemma SndFrame(hosts: set<Pid>, h: History, h': History, p: Proc)
    requires SndOk(hosts, h, p) && Grows(h, h')
    requires forall m: MsgIdentifier :: m.sender == p.id && m in h'.sent ==> m in h.sent
    requires forall m: MsgIdentifier :: m.sender == p.id && m in h'.final ==> m in h.final
    ensures SndOk(hosts, h', p)
  {
    forall k: nat | MsgIdentifier(k, p.id) in h'.sent ensures MsgSndOk(hosts, h', p, k) {
      assert MsgSndOk(hosts, h, p, k);
    }
  }

  lemma ChanFrame(h: History, h': History, src: Pid, dst: Pid, c: seq<Message>)
    requires ChanOk(h, src, dst, c) && Grows(h, h')
    requires forall m :: m in c && m.Data? ==> (dst, m.Id()) !in h'.marked
    ensures ChanOk(h', src, dst, c)
  {
  }

  /* ----- channels ----- */

  lemma ChanErase(h: History, src: Pid, dst: Pid, c: seq<Message>, i: nat)
    requires ChanOk(h, src, dst, c) && i < |c|
    ensures ChanOk(h, src, dst, c[..i] + c[i + 1..])
  {
    var c' := c[..i] + c[i + 1..];
    assert forall j :: 0 <= j < |c'| ==> c'[j] == c[if j < i then j else j + 1];
  }

  lemma ChanRepeat(h: History, src: Pid, dst: Pid, c: seq<Message>, i: nat)
    requires ChanOk(h, src, dst, c) && i < |c|
    ensures ChanOk(h, src, dst, Repeated(c, i))
  {
    var c' := Repeated(c, i);
    assert forall j :: 0 <= j < |c'| ==> c'[j] == c[if j <= i then j else j - 1];
  }

  lemma ChanSwap(h: History, src: Pid, dst: Pid, c: seq<Message>, i: nat)
    requires ChanOk(h, src, dst, c) && i + 1 < |c| && !FallsBehind(c[i], c[i + 1])
    ensures ChanOk(h, src, dst, Swapped(c, i))
  {
    var c' := Swapped(c, i);
    assert forall j :: 0 <= j < |c'| ==> c'[j] == c[if j == i then i + 1 else if j == i + 1 then i else j];
  }

  lemma ChanAppend(h: History, src: Pid, dst: Pid, c: seq<Message>, m: Message)
    requires ChanOk(h, src, dst, c) && PacketOk(h, src, dst, m)
    requires m.Data? ==> m.Id() !in h.final
    ensures ChanOk(h, src, dst, c + [m])
  {
    forall i | 0 <= i < |c| && c[i].Seq? && m.Data? ensures c[i].Id() != m.Id() {
      assert PacketOk(h, src, dst, c[i]);
    }
  }

  lemma PutKeepsNet(s: State, src: Pid, dst: Pid, c: seq<Message>)
    requires NetOk(s) && src in s.hosts && dst in s.hosts && ChanOk(s.hist, src, dst, c)
    ensures NetOk(Put(s, src, dst, c))
  {
  }

  lemma ChanIsOk(s: State, src: Pid, dst: Pid)
    requires NetOk(s)
    ensures ChanOk(s.hist, src, dst, Chan(s, src, dst))
    ensures Chan(s, src, dst) != [] ==> src in s.hosts && dst in s.hosts
  {
  }

  lemma NetFrame(s: State, h': History)
    requires NetOk(s) && Grows(s.hist, h')
    requires forall src, dst, m :: (src, dst) in s.net && m in s.net[(src, dst)] && m.Data? ==>
               (dst, m.Id()) !in h'.marked
    ensures NetOk(s.(hist := h'))
  {
    forall src, dst | (src, dst) in s.net ensures ChanOk(h', src, dst, s.net[(src, dst)]) {
      ChanFrame(s.hist, h', src, dst, s.net[(src, dst)]);
    }
  }
}
