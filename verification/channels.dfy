// Go channels as the injectors use them.
module Channels {
  import opened DisruptionTypes

  // A nil channel, an open one with its capacity and the number of buffered messages, or a closed one.
  datatype Chan = Nil | Open(capacity: nat, count: nat) | Closed

  function Cap(c: Chan): nat {
    if c.Open? then c.capacity else 0
  }

  // A send that finds room; it waits otherwise.
  function Send(c: Chan): (r: Option<Chan>)
    requires !c.Closed?
  {
    if c.Open? && c.count < c.capacity then Some(c.(count := c.count + 1)) else None
  }
}
