/** The inbox transaction, and the consumer's loop body that acknowledges around it. */
module Inbox {
  import opened Options
  import opened Outbox

  /** The inbox table and the log of committed callbacks, by consumer and message. */
  datatype Box = Box(markers: set<(int, int)>, effects: seq<(int, int)>)

  /** What one successful transaction leaves: marker and effect, or nothing new when
      the marker was there. */
  function Taken(b: Box, consumer: int, message: int): Box {
    if (consumer, message) in b.markers then b
    else Box(b.markers + {(consumer, message)}, b.effects + [(consumer, message)])
  }

  class Handler {
    var markers: set<(int, int)>
    var effects: seq<(int, int)>

    constructor ()
      ensures Value() == Box({}, [])
    {
      markers, effects := {}, [];
    }

    function Value(): Box
      reads this
    {
      Box(markers, effects)
    }

    /** `raises` stands for an exception from the callback or the commit. */
    method Call(consumer: int, message: int, raises: bool) returns (handled: bool)
      modifies this
      ensures Value() == if handled then Taken(old(Value()), consumer, message) else old(Value())
      ensures handled <==> (consumer, message) in old(markers) || !raises
      ensures markers == if handled then old(markers) + {(consumer, message)} else old(markers)
      ensures effects == old(effects)
                         + if !raises && (consumer, message) !in old(markers) then [(consumer, message)] else []
    {
      var saved := Value();
      if (consumer, message) in markers {
        return true;
      }
      markers := markers + {(consumer, message)};
      effects := effects + [(consumer, message)];
      if raises {
        markers, effects := saved.markers, saved.effects;
        return false;
      }
      return true;
    }
  }

  /** How one delivery ends for the broker. */
  datatype Ending = Acknowledged | Unconfirmed | Returned(delay: nat)

  /** A message as it was fetched: its id, if it decodes, its place in the stream and
      the number of its deliveries. */
  datatype Fetched = Fetched(id: Option<int>, sequence: nat, deliveries: nat)

  class Subscription {
    const consumer: int
    const maxDeliver: nat
    const ackWait: nat
    const handler: Handler
    /** Sequences the broker counts as acknowledged, and as recorded dead letters. */
    var acked: set<nat>
    var dead: set<nat>

    constructor (consumer: int, maxDeliver: nat, ackWait: nat, handler: Handler)
      ensures this.handler == handler && this.consumer == consumer && acked == {} && dead == {}
      ensures this.maxDeliver == maxDeliver && this.ackWait == ackWait
    {
      this.consumer, this.maxDeliver, this.ackWait, this.handler := consumer, maxDeliver, ackWait, handler;
      acked, dead := {}, {};
    }

    /** The message decodes, and its handler has nothing left to do or does it. */
    predicate Handles(m: Fetched, raises: bool)
      reads this, handler
    {
      m.id.Some? && (!raises || (consumer, m.id.value) in handler.markers)
    }

    /** One message of a fetched batch. `buried` and `answered` say whether the broker
        takes a dead letter and whether that is heard; `confirmed` whether an
        acknowledgement arrives. A message is acknowledged only with its marker and
        effect committed or with its dead letter taken after enough deliveries. */
    method Process(m: Fetched, raises: bool, buried: bool, answered: bool, confirmed: bool) returns (ending: Ending)
      modifies this`acked, this`dead, handler
      ensures old(Handles(m, raises)) ==>
                && handler.Value() == Taken(old(handler.Value()), consumer, m.id.value)
                && (consumer, m.id.value) in handler.markers && dead == old(dead)
                && ending == if confirmed then Acknowledged else Unconfirmed
      ensures !old(Handles(m, raises)) ==> handler.Value() == old(handler.Value())
      ensures !old(Handles(m, raises)) && m.deliveries < maxDeliver ==>
                dead == old(dead) && ending == Returned(Min(Power(Min(m.deliveries, 8)), ackWait))
      ensures !old(Handles(m, raises)) && m.deliveries >= maxDeliver ==>
                && dead == (if buried then old(dead) + {m.sequence} else old(dead))
                && ending == if buried && answered && confirmed then Acknowledged else Returned(ackWait)
      ensures acked == if ending == Acknowledged then old(acked) + {m.sequence} else old(acked)
      ensures ending == Acknowledged ==>
                || (m.id.Some? && (consumer, m.id.value) in handler.markers
                    && handler.Value() == Taken(old(handler.Value()), consumer, m.id.value))
                || (m.sequence in dead && m.deliveries >= maxDeliver)
      ensures dead == old(dead) || (dead == old(dead) + {m.sequence} && m.deliveries >= maxDeliver)
      ensures ending.Returned? ==> handler.Value() == old(handler.Value())
      ensures ending.Returned? && m.deliveries < maxDeliver ==> ending.delay <= ackWait
    {
      var handled := false;
      if m.id.Some? {
        handled := handler.Call(consumer, m.id.value, raises);
      }
      if handled {
        if confirmed {
          acked := acked + {m.sequence};
          return Acknowledged;
        }
        return Unconfirmed;
      }
      if m.deliveries < maxDeliver {
        return Returned(Min(Power(Min(m.deliveries, 8)), ackWait));
      }
      if buried {
        dead := dead + {m.sequence};
        if answered && confirmed {
          acked := acked + {m.sequence};
          return Acknowledged;
        }
      }
      return Returned(ackWait);
    }
  }
}
