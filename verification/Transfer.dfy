/** From concurrent senders to the receiving loop of the other side. */
module Transfer {
  import opened Common
  import opened Framing
  import opened Sending
  import opened Receiving

  /**
   Whatever the interleaving of the senders and however their bytes arrive, the
   receiver hands over exactly the messages sent, in the order in which the senders
   took the mutex, provided no send failed half way.
   */
  method Transmit(r: Receiver, supply: seq<Event>, ghost ws: seq<Wire>, ghost actions: seq<Action>)
    requires r.Valid() && IsRun(ws, actions)
    requires var w := ws[|actions|]; w.holder == None && w.torn == 0 && Stream(supply) == w.bytes
    modifies r, r.lengthBuffer
    ensures r.Valid() && r.handed == ws[|actions|].log
    ensures r.dispatched == Filter(r.parses, ws[|actions|].log)
  {
    ReceiverRecoversLog(ws, actions, |actions|);
    r.Connection(supply);
  }
}
