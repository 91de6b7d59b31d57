/** What the server asks of the connections, in order: bytes to send, results to report, disconnections. */
module Network {
  import opened SwitchTypes
  import opened Entities

  // `total`: the number of receivers that a publish result reports; other result texts are not part of the model.
  datatype Effect =
    | Sent(to: Connection, bytes: seq<Byte>)
    | Result(to: Connection, cmd: Byte, errcode: Byte, total: Option<nat>)
    | Disconnecting(c: Connection)

  lemma OneByOne(log: seq<Effect>, first: seq<Effect>, last: seq<Effect>)
    ensures log + first + last == log + (first + last)
  {
  }

  class Outbox {
    var log: seq<Effect>

    constructor ()
      ensures log == []
    {
      log := [];
    }

    method Add(effect: Effect)
      modifies this
      ensures log == old(log) + [effect]
    {
      log := log + [effect];
    }
  }
}
