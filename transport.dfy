/** A scripted stand-in for the two I2C primitives the driver calls: a blocking
    transmit of a buffer, and a blocking receive of n bytes. It returns the
    statuses and bytes it was scripted with, and logs every transmitted buffer
    and every requested receive length, so that the driver's bus traffic can be
    stated exactly. */
module Transport {
  import opened McpTypes

  /** The answer to one receive call: its status and the bytes delivered. */
  datatype Reply = Reply(status: Status, data: seq<byte>)

  /** The n bytes a receive buffer holds after a reply carrying `data`: the
      reply's bytes, cut or zero-filled to n. */
  function Received(data: seq<byte>, n: nat): (r: seq<byte>)
    ensures |r| == n
  {
    seq(n, i requires 0 <= i < n => if i < |data| then data[i] else 0)
  }

  class I2CBus {
    /** Statuses of successive transmit calls (FAILURE once exhausted). */
    const transmitScript: seq<Status>
    /** Replies to successive receive calls (a failed, empty reply once exhausted). */
    const receiveScript: seq<Reply>
    /** Every buffer transmitted so far, oldest first. */
    var transmitted: seq<seq<byte>>
    /** The length of every receive requested so far, oldest first. */
    var requested: seq<nat>

    constructor (transmitScript: seq<Status>, receiveScript: seq<Reply>)
      ensures this.transmitScript == transmitScript && this.receiveScript == receiveScript
      ensures transmitted == [] && requested == []
    {
      this.transmitScript := transmitScript;
      this.receiveScript := receiveScript;
      transmitted := [];
      requested := [];
    }

    /** The status the next transmit returns. */
    function NextTransmit(): Status
      reads this
    {
      if |transmitted| < |transmitScript| then transmitScript[|transmitted|] else Failure
    }

    /** The reply the next receive returns. */
    function NextReply(): Reply
      reads this
    {
      if |requested| < |receiveScript| then receiveScript[|requested|] else Reply(Failure, [])
    }

    /** The bytes the next receive of n bytes delivers. */
    function Incoming(n: nat): (r: seq<byte>)
      reads this
      ensures |r| == n
    {
      Received(NextReply().data, n)
    }

    /** Transmits `buf` (the I2C_Write of the driver). */
    method Transmit(buf: seq<byte>) returns (status: Status)
      modifies this
      ensures transmitted == old(transmitted) + [buf] && requested == old(requested)
      ensures status == old(NextTransmit())
    {
      status := NextTransmit();
      transmitted := transmitted + [buf];
    }

    /** Receives n bytes (the I2C_Read of the driver); the bytes are delivered
        whatever the status, since the buffer's contents after a failed read
        are not specified. */
    method Receive(n: nat) returns (status: Status, buf: seq<byte>)
      modifies this
      ensures requested == old(requested) + [n] && transmitted == old(transmitted)
      ensures status == old(NextReply()).status && buf == old(Incoming(n))
    {
      status := NextReply().status;
      buf := Incoming(n);
      requested := requested + [n];
    }
  }
}
