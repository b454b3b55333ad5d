/** The messages the core sends to a front end, and the sending end of their channel. */
module Frontend {

  /** `FrontendMessage`: what a front end is asked to do. */
  datatype FrontendMessage = ShowOrHide | Show | Hide | ShowWithQuery(query: string) | Exit

  /**
    The sending end of the `mpsc` channel to the front end. Only what has been sent is
    modelled; the receiving thread is not.
  */
  class Channel {
    var sent: seq<FrontendMessage>

    constructor ()
      ensures sent == []
    {
      sent := [];
    }

    /**
      Sends the messages in order; sending never blocks. A send after the receiver has
      gone would be lost; the model records every message as sent.
    */
    method SendAll(messages: seq<FrontendMessage>)
      modifies this
      ensures sent == old(sent) + messages
    {
      sent := sent + messages;
    }
  }
}
