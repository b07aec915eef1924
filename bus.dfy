/** The outbound push socket: everything sent on it, in send order. */
module Bus {
  import opened Values

  class Outbox {
    var sent: seq<seq<Value>>

    constructor ()
      ensures sent == []
    {
      sent := [];
    }

    /** Sends one multipart message. Delivery beyond this point is not modelled. */
    method Send(message: seq<Value>)
      modifies this
      ensures sent == old(sent) + [message]
    {
      sent := sent + [message];
    }
  }
}
