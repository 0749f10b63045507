/** The sending side of the transport as the protocol handlers see it:
    packets queued in order, and new keys handed over once a key exchange
    completes. */
module Outbox {
  import opened Encrypt
  import opened Packets

  class Outbox {
    /** Every packet queued so far, oldest first. */
    var sent: seq<Packet>
    /** Every key set handed over, oldest first. */
    var rekeys: seq<Keys>

    constructor ()
      ensures sent == [] && rekeys == []
    {
      sent := [];
      rekeys := [];
    }

    /** Queues one packet after the ones already queued. */
    method Send(p: Packet)
      modifies this
      ensures sent == old(sent) + [p] && rekeys == old(rekeys)
    {
      sent := sent + [p];
    }

    /** Takes new keys into use for the packets that follow. */
    method Rekey(k: Keys)
      modifies this
      ensures rekeys == old(rekeys) + [k] && sent == old(sent)
    {
      rekeys := rekeys + [k];
    }
  }
}
