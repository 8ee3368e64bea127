/** The NewView message: filled from the member set, written in network order, read back. */
module NewViewMessages {
  import opened FiniteSets

  type Byte = b: nat | b < 256
  type Word = w: nat | w < 0x1_0000_0000
  type PeerId = Word

  const MAX_PEERS: nat := 10
  const NEW_VIEW: Word := 3
  const SIZE: nat := 12 + 4 * MAX_PEERS

  // An `int` of the source: 32 bits, two's complement.
  type Int32 = i: int | -0x8000_0000 <= i < 0x8000_0000

  function ToWord(i: Int32): Word {
    if i < 0 then i + 0x1_0000_0000 else i
  }

  function ToInt32(w: Word): Int32 {
    if w < 0x8000_0000 then w else w - 0x1_0000_0000
  }

  // Only the first `numberOfMembers` of the member slots mean anything.
  datatype NewViewMsg = NewViewMsg(msgType: Word, newViewId: Word, numberOfMembers: Int32, members: seq<PeerId>)

  // Loop bound of the source: no slot is used when the number is negative.
  function Used(msg: NewViewMsg): nat {
    if msg.numberOfMembers < 0 then 0 else msg.numberOfMembers
  }

  // A message whose loops stay inside the member array.
  predicate InBounds(msg: NewViewMsg) {
    |msg.members| == MAX_PEERS && msg.numberOfMembers <= MAX_PEERS
  }

  function BigEndian(a: nat, b: nat, c: nat, d: nat): Word
    requires a < 256 && b < 256 && c < 256 && d < 256
  {
    0x100_0000 * a + 0x1_0000 * b + 256 * c + d
  }

  // The word at a word offset, most significant byte first.
  function WordAt(bytes: seq<Byte>, k: nat): Word
    requires 4 * k + 4 <= |bytes|
  {
    BigEndian(bytes[4 * k], bytes[4 * k + 1], bytes[4 * k + 2], bytes[4 * k + 3])
  }

  // The words at k differ first in their byte i, and the one of `a` is smaller there.
  ghost predicate LessAtByte(a: seq<Byte>, b: seq<Byte>, k: nat, i: int)
    requires 4 * k + 4 <= |a| && 4 * k + 4 <= |b|
  {
    0 <= i < 4 && a[4 * k + i] < b[4 * k + i] && forall j :: 4 * k <= j < 4 * k + i ==> a[j] == b[j]
  }

  // Network order: words compare as their bytes do from the first one on.
  lemma FirstDifferenceDecides(a: seq<Byte>, b: seq<Byte>, k: nat)
    requires 4 * k + 4 <= |a| && 4 * k + 4 <= |b|
    ensures WordAt(a, k) < WordAt(b, k) <==> exists i :: LessAtByte(a, b, k, i)
  {
    if WordAt(a, k) < WordAt(b, k) {
      var n := 4 * k;
      var i := if a[n] != b[n] then 0 else if a[n + 1] != b[n + 1] then 1 else if a[n + 2] != b[n + 2] then 2 else 3;
      assert LessAtByte(a, b, k, i);
    }
  }

  ghost predicate Encodes(bytes: seq<Byte>, msg: NewViewMsg) {
    && |bytes| == SIZE && InBounds(msg)
    && WordAt(bytes, 0) == msg.msgType
    && WordAt(bytes, 1) == msg.newViewId
    && ToInt32(WordAt(bytes, 2)) == msg.numberOfMembers
    && forall i :: 0 <= i < Used(msg) ==> WordAt(bytes, 3 + i) == msg.members[i]
  }

  // htonl and store.
  method PutWord(buffer: array<Byte>, k: nat, w: Word)
    requires 4 * k + 4 <= buffer.Length
    modifies buffer
    ensures WordAt(buffer[..], k) == w
    ensures forall j :: 0 <= j < buffer.Length && !(4 * k <= j < 4 * k + 4) ==> buffer[j] == old(buffer[j])
  {
    var low24 := w % 0x100_0000;
    var low16 := low24 % 0x1_0000;
    assert BigEndian(w / 0x100_0000, low24 / 0x1_0000, low16 / 256, low16 % 256) == w;
    hide BigEndian;
    buffer[4 * k] := w / 0x100_0000;
    buffer[4 * k + 1] := low24 / 0x1_0000;
    buffer[4 * k + 2] := low16 / 256;
    buffer[4 * k + 3] := low16 % 256;
  }

  lemma OtherWords(before: seq<Byte>, after: seq<Byte>, k: nat)
    requires |before| == |after| && 4 * k + 4 <= |before|
    requires forall j :: 0 <= j < |before| && !(4 * k <= j < 4 * k + 4) ==> after[j] == before[j]
    ensures forall m: nat :: 4 * m + 4 <= |before| && m != k ==> WordAt(after, m) == WordAt(before, m)
  {
  }

  // The buffer has the size of a message. The loop leaves it if the message announces more members than
  // there are slots.
  method SerializeNewViewMsg(msg: NewViewMsg, buffer: array<Byte>) returns (inBounds: bool)
    requires |msg.members| == MAX_PEERS && buffer.Length == SIZE
    modifies buffer
    ensures inBounds <==> InBounds(msg)
    ensures inBounds ==> Encodes(buffer[..], msg)
    ensures inBounds ==> forall j :: 12 + 4 * Used(msg) <= j < SIZE ==> buffer[j] == old(buffer[j])
  {
    PutWord(buffer, 0, msg.msgType);
    PutWord(buffer, 1, msg.newViewId);
    PutWord(buffer, 2, ToWord(msg.numberOfMembers));
    var i := 0;
    while i < msg.numberOfMembers
      invariant 0 <= i <= Used(msg) && i <= MAX_PEERS
      invariant WordAt(buffer[..], 0) == msg.msgType
      invariant WordAt(buffer[..], 1) == msg.newViewId
      invariant WordAt(buffer[..], 2) == ToWord(msg.numberOfMembers)
      invariant forall k :: 0 <= k < i ==> WordAt(buffer[..], 3 + k) == msg.members[k]
      invariant forall j :: 12 + 4 * i <= j < SIZE ==> buffer[j] == old(buffer[j])
    {
      if i == MAX_PEERS {
        return false;
      }
      ghost var before := buffer[..];
      PutWord(buffer, 3 + i, msg.members[i]);
      OtherWords(before, buffer[..], 3 + i);
      i := i + 1;
    }
    inBounds := true;
  }

  // The source CHECKs the size of a message, but not how many members it announces: with more than there
  // are slots its loop leaves the array.
  datatype Decoding = Decoded(msg: NewViewMsg) | WrongSize | OutOfBounds

  // `slots` is whatever the local member array held before.
  method DeserializeNewViewMsg(bytes: seq<Byte>, slots: seq<PeerId>) returns (r: Decoding)
    requires |slots| == MAX_PEERS
    ensures r.WrongSize? <==> |bytes| != SIZE
    ensures r.OutOfBounds? <==> |bytes| == SIZE && ToInt32(WordAt(bytes, 2)) > MAX_PEERS
    ensures r.Decoded? ==> Encodes(bytes, r.msg)
    ensures r.Decoded? ==> forall i :: Used(r.msg) <= i < MAX_PEERS ==> r.msg.members[i] == slots[i]
  {
    if |bytes| != SIZE {
      return WrongSize;
    }
    var msg := NewViewMsg(WordAt(bytes, 0), WordAt(bytes, 1), ToInt32(WordAt(bytes, 2)), slots);
    var i := 0;
    while i < msg.numberOfMembers
      invariant 0 <= i <= Used(msg) && i <= MAX_PEERS
      invariant |msg.members| == MAX_PEERS
      invariant msg == NewViewMsg(WordAt(bytes, 0), WordAt(bytes, 1), ToInt32(WordAt(bytes, 2)), msg.members)
      invariant forall k :: 0 <= k < i ==> msg.members[k] == WordAt(bytes, 3 + k)
      invariant forall k :: i <= k < MAX_PEERS ==> msg.members[k] == slots[k]
    {
      if i == MAX_PEERS {
        return OutOfBounds;
      }
      msg := msg.(members := msg.members[i := WordAt(bytes, 3 + i)]);
      i := i + 1;
    }
    r := Decoded(msg);
  }

  function MemberSet(msg: NewViewMsg): set<PeerId>
    requires InBounds(msg)
  {
    FirstSlots(msg.members, Used(msg))
  }

  // Two messages with the same bytes announce the same view.
  lemma SameBytesSameView(bytes: seq<Byte>, a: NewViewMsg, b: NewViewMsg)
    requires Encodes(bytes, a) && Encodes(bytes, b)
    ensures a.msgType == b.msgType && a.newViewId == b.newViewId && a.numberOfMembers == b.numberOfMembers
    ensures MemberSet(a) == MemberSet(b)
  {
    forall i | 0 <= i < Used(a) ensures a.members[i] == b.members[i] {
      assert WordAt(bytes, 3 + i) == a.members[i];
    }
  }

  // The bytes of one message: view 258 of the peers 1 and 10.
  lemma ViewOnTheWire(bytes: seq<Byte>, msg: NewViewMsg)
    requires Encodes(bytes, msg) && msg.msgType == NEW_VIEW && msg.newViewId == 258 && msg.numberOfMembers == 2
    requires msg.members[0] == 1 && msg.members[1] == 10
    ensures |bytes| == 52
    ensures bytes[..20] == [0, 0, 0, 3, 0, 0, 1, 2, 0, 0, 0, 2, 0, 0, 0, 1, 0, 0, 0, 10]
  {
    assert WordAt(bytes, 3) == 1 && WordAt(bytes, 4) == 10;
  }

  /* ----- the two ends ----- */

  // Peer ids are positions in a host file of at most ten lines.
  ghost predicate Group(members: set<PeerId>, hosts: nat) {
    hosts <= MAX_PEERS && forall p :: p in members ==> 1 <= p <= hosts
  }

  lemma {:induction false} GroupFits(members: set<PeerId>, hosts: nat)
    requires forall p :: p in members ==> 1 <= p <= hosts
    ensures |members| <= hosts
    decreases hosts
  {
    if hosts == 0 {
      assert members == {};
    } else {
      GroupFits(members - {hosts}, hosts - 1);
    }
  }

  function FirstSlots(slots: seq<PeerId>, n: nat): set<PeerId>
    requires n <= |slots|
  {
    set k | 0 <= k < n :: slots[k]
  }

  lemma FillSlot(slots: seq<PeerId>, n: nat, p: PeerId)
    requires n < |slots|
    ensures FirstSlots(slots[n := p], n + 1) == FirstSlots(slots, n) + {p}
  {
    var slots' := slots[n := p];
    forall q ensures q in FirstSlots(slots', n + 1) <==> q in FirstSlots(slots, n) + {p} {
      if q in FirstSlots(slots, n) {
        var k :| 0 <= k < n && slots[k] == q;
        assert slots'[k] == q;
      }
      assert slots'[n] == p;
    }
  }

  // The first slots hold the members taken so far, in ascending order and below those left.
  ghost predicate Filled(slots: seq<PeerId>, i: nat, members: set<PeerId>, left: set<PeerId>) {
    && |slots| == MAX_PEERS && left <= members && i + |left| == |members| <= MAX_PEERS
    && FirstSlots(slots, i) == members - left
    && (forall k, p :: 0 <= k < i && p in left ==> slots[k] < p)
    && (forall k, j :: 0 <= k < j < i ==> slots[k] < slots[j])
  }

  lemma FillNext(slots: seq<PeerId>, i: nat, members: set<PeerId>, left: set<PeerId>, p: PeerId)
    requires Filled(slots, i, members, left) && IsLeast(p, left)
    ensures i < MAX_PEERS && Filled(slots[i := p], i + 1, members, left - {p})
  {
    hide FirstSlots;
    assert |left - {p}| == |left| - 1;
    FillSlot(slots, i, p);
    assert members - left + {p} == members - (left - {p});
  }

  // The fill loop of the leader: std::set yields the members in ascending order.
  method FillNewViewMsg(viewId: Word, members: set<PeerId>, hosts: nat, slots: seq<PeerId>) returns (msg: NewViewMsg)
    requires Group(members, hosts) && |slots| == MAX_PEERS
    ensures InBounds(msg) && msg.msgType == NEW_VIEW && msg.newViewId == viewId
    ensures msg.numberOfMembers == |members| && MemberSet(msg) == members
    ensures forall i, j :: 0 <= i < j < |members| ==> msg.members[i] < msg.members[j]
  {
    GroupFits(members, hosts);
    var filled: seq<PeerId> := slots;
    var left: set<PeerId> := members;
    var i := 0;
    while left != {}
      invariant 0 <= i && Filled(filled, i, members, left)
      decreases |left|
    {
      var peer: PeerId := Least(left);
      FillNext(filled, i, members, left, peer);
      filled := filled[i := peer];
      left := left - {peer};
      i := i + 1;
    }
    msg := NewViewMsg(NEW_VIEW, viewId, |members|, filled);
  }

  // The follower's alivePeers: the members of the message without itself.
  method InstallMembers(msg: NewViewMsg, me: PeerId) returns (alivePeers: set<PeerId>)
    requires InBounds(msg)
    ensures alivePeers == MemberSet(msg) - {me}
  {
    alivePeers := {};
    var i := 0;
    while i < msg.numberOfMembers
      invariant 0 <= i <= Used(msg)
      invariant alivePeers == FirstSlots(msg.members, i)
    {
      FillSlot(msg.members, i, msg.members[i]);
      assert msg.members[i := msg.members[i]] == msg.members;
      alivePeers := alivePeers + {msg.members[i]};
      i := i + 1;
    }
    alivePeers := alivePeers - {me};
  }

  // From the leader's member set over the wire to the follower's: view id and members arrive as they
  // were, whatever the buffer and the slots held before, and no loop leaves the ten slots.
  method AnnounceAndInstall(viewId: Word, members: set<PeerId>, hosts: nat, me: PeerId,
                            buffer: array<Byte>, leaderSlots: seq<PeerId>, followerSlots: seq<PeerId>)
    returns (installedId: Word, alivePeers: set<PeerId>)
    requires Group(members, hosts) && buffer.Length == SIZE && |leaderSlots| == |followerSlots| == MAX_PEERS
    modifies buffer
    ensures installedId == viewId && alivePeers == members - {me}
  {
    var sent := FillNewViewMsg(viewId, members, hosts, leaderSlots);
    var _ := SerializeNewViewMsg(sent, buffer);
    var received := DeserializeNewViewMsg(buffer[..], followerSlots);
    SameBytesSameView(buffer[..], sent, received.msg);
    installedId := received.msg.newViewId;
    alivePeers := InstallMembers(received.msg, me);
  }
}
