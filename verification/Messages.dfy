/** The wire messages of the total-order multicast and the 32-bit counters they carry. */
module Messages {

  // Process identifiers. The host file numbers the hosts; only their order and identity matter here.
  type Pid = nat

  datatype Option<+T> = None | Some(value: T)

  datatype MsgIdentifier = MsgIdentifier(msgId: nat, sender: Pid)

  datatype Message =
    | Data(sender: Pid, msgId: nat, data: nat)
    | Ack(sender: Pid, msgId: nat, proposedSeq: nat, proposer: Pid)
    | Seq(sender: Pid, msgId: nat, finalSeq: nat, finalSeqProposer: Pid)
    | SeqAck(sender: Pid, msgId: nat, ackSender: Pid)
  {
    // `sender` is always the process that multicast the data message, whatever the kind of message.
    function Id(): MsgIdentifier {
      MsgIdentifier(msgId, sender)
    }
  }

  const U32_LIMIT: nat := 0x1_0000_0000

  // Increment of a uint32_t.
  function U32Succ(x: nat): nat {
    (x + 1) % U32_LIMIT
  }

  lemma SuccWrapsOnlyAtLimit(x: nat)
    requires x < U32_LIMIT
    ensures U32Succ(x) == if x + 1 == U32_LIMIT then 0 else x + 1
  {
  }

  lemma SuccWithinLimit(x: nat)
    requires x + 1 < U32_LIMIT
    ensures U32Succ(x) == x + 1
  {
  }
}
