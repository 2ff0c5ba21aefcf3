/** Outbox, broker, durable consumers and inbox as one labelled transition system:
    several publishers, expired leases, lost answers, redeliveries and crashes. */
module Delivery {
  import Inbox
  import opened Options
  import opened Outbox

  type EventId = int

  datatype Settings = Settings(leaseSeconds: nat, batchSize: nat, maxDeliver: nat)

  /** `valid` says that topic and payload pass the publisher's own check. */
  datatype Event = Event(valid: bool, row: Row)

  datatype Phase =
    | Batch(queue: seq<EventId>)
    | Loaded(queue: seq<EventId>, event: EventId, attempts: nat)
    | Accepted(queue: seq<EventId>, event: EventId)
    | Failing(queue: seq<EventId>, event: EventId, attempts: nat, permanent: bool)

  /** A publishing process, at rest with an empty batch; owners need not be unique. */
  datatype Publisher = Publisher(owner: int, phase: Phase)

  /** What a consuming process does with the message at a stream sequence. */
  datatype Work =
    | Free
    | Got(consumer: int, sequence: nat, deliveries: nat)
    | Handled(consumer: int, sequence: nat)
    | Failed(consumer: int, sequence: nat, deliveries: nat)
    | Buried(consumer: int, sequence: nat)

  /** `stream` holds the accepted messages, each named by its event; `markers` are the
      inbox rows and `effects` the log of committed callbacks. */
  datatype State = State(
    events: map<EventId, Event>, publishers: map<int, Publisher>, stream: seq<EventId>,
    workers: map<int, Work>, counts: map<(int, nat), nat>, acked: set<(int, nat)>, dead: set<(int, nat)>,
    markers: set<(int, EventId)>, effects: seq<(int, EventId)>, clock: int)

  const INIT := State(map[], map[], [], map[], map[], {}, {}, {}, [], 0)

  /** What became of a message offered to the broker: appended, recognised as a
      duplicate, appended with the answer lost, or refused. */
  datatype Answer = Appended | Duplicate | AnswerLost | Refused

  datatype Step =
    | Emit(e: EventId, valid: bool, now: int)
    | StartPublisher(p: int, owner: int)
    | Claim(p: int, batch: seq<EventId>, now: int)
    | Load(p: int)
    | Offer(p: int, answer: Answer)
    | MarkDelivered(p: int, now: int)
    | MarkFailed(p: int, now: int)
    | StartWorker(w: int)
    | Fetch(w: int, consumer: int, sequence: nat)
    | Handle(w: int)
    | HandleFails(w: int, committed: bool)
    | Ack(w: int, confirmed: bool)
    | Nak(w: int)
    | Bury(w: int, answer: Answer)

  predicate Working(s: State, w: int) {
    w in s.workers
  }

  predicate Publishing(s: State, p: int) {
    p in s.publishers
  }

  /** By creation and id, each once, all claimable. */
  predicate IsBatch(s: State, batch: seq<EventId>, now: int, limit: nat) {
    && |batch| <= limit
    && (forall i | 0 <= i < |batch| :: batch[i] in s.events && Claimable(s.events[batch[i]].row, now))
    && forall i, j | 0 <= i < j < |batch| ::
         var a, b := s.events[batch[i]].row.created, s.events[batch[j]].row.created;
         a < b || (a == b && batch[i] < batch[j])
  }

  predicate Enabled(s: State, a: Step, c: Settings) {
    match a
    case Emit(e, _, now) => e !in s.events && s.clock <= now
    case StartPublisher(p, _) => true
    case Claim(p, batch, now) =>
      Publishing(s, p) && s.publishers[p].phase == Batch([]) && s.clock <= now && IsBatch(s, batch, now, c.batchSize)
    case Load(p) => Publishing(s, p) && s.publishers[p].phase.Batch? && s.publishers[p].phase.queue != []
    case Offer(p, answer) =>
      && Publishing(s, p) && s.publishers[p].phase.Loaded?
      && s.publishers[p].phase.event in s.events && s.events[s.publishers[p].phase.event].valid
      && (answer == Duplicate ==> s.publishers[p].phase.event in s.stream)
    case MarkDelivered(p, now) =>
      Publishing(s, p) && s.publishers[p].phase.Accepted? && s.publishers[p].phase.event in s.events && s.clock <= now
    case MarkFailed(p, now) =>
      Publishing(s, p) && s.publishers[p].phase.Failing? && s.publishers[p].phase.event in s.events && s.clock <= now
    case StartWorker(w) => true
    case Fetch(w, consumer, sequence) =>
      && Working(s, w) && s.workers[w].Free?
      && sequence < |s.stream| && (consumer, sequence) !in s.acked
    case Handle(w) => Working(s, w) && s.workers[w].Got? && s.workers[w].sequence < |s.stream|
    case HandleFails(w, _) => Working(s, w) && s.workers[w].Got? && s.workers[w].sequence < |s.stream|
    case Ack(w, _) => Working(s, w) && (s.workers[w].Handled? || s.workers[w].Buried?)
    case Nak(w) => Working(s, w) && s.workers[w].Failed? && s.workers[w].deliveries < c.maxDeliver
    case Bury(w, _) => Working(s, w) && s.workers[w].Failed? && s.workers[w].deliveries >= c.maxDeliver
  }

  function Going(s: State, p: int, phase: Phase): State
    requires Publishing(s, p)
  {
    s.(publishers := s.publishers[p := s.publishers[p].(phase := phase)])
  }

  function Doing(s: State, w: int, work: Work): State {
    s.(workers := s.workers[w := work])
  }

  function ClaimedRows(s: State, batch: seq<EventId>, owner: int, now: int, leaseSeconds: nat): map<EventId, Event> {
    map e | e in s.events ::
      if e in batch then s.events[e].(row := Claimed(s.events[e].row, owner, now, leaseSeconds)) else s.events[e]
  }

  function Count(s: State, consumer: int, sequence: nat): nat {
    if (consumer, sequence) in s.counts then s.counts[(consumer, sequence)] else 0
  }

  /** The inbox transaction: marker and effect together, or nothing when the marker is there. */
  function Processed(s: State, consumer: int, e: EventId): State {
    var box := Inbox.Taken(Inbox.Box(s.markers, s.effects), consumer, e);
    s.(markers := box.markers, effects := box.effects)
  }

  function Next(s: State, a: Step, c: Settings): State
    requires Enabled(s, a, c)
  {
    match a
    case Emit(e, valid, now) => s.(events := s.events[e := Event(valid, Emitted(now))], clock := now)
    case StartPublisher(p, owner) => s.(publishers := s.publishers[p := Publisher(owner, Batch([]))])
    case Claim(p, batch, now) =>
      Going(s.(events := ClaimedRows(s, batch, s.publishers[p].owner, now, c.leaseSeconds), clock := now), p, Batch(batch))
    case Load(p) =>
      var queue := s.publishers[p].phase.queue;
      var e, rest := queue[0], queue[1..];
      if e !in s.events || !Held(s.events[e].row, s.publishers[p].owner) then Going(s, p, Batch(rest))
      else if !s.events[e].valid then Going(s, p, Failing(rest, e, s.events[e].row.attempts, true))
      else Going(s, p, Loaded(rest, e, s.events[e].row.attempts))
    case Offer(p, answer) =>
      var ph := s.publishers[p].phase;
      var s' := if answer == Appended || answer == AnswerLost then s.(stream := s.stream + [ph.event]) else s;
      if answer == Appended || answer == Duplicate then Going(s', p, Accepted(ph.queue, ph.event))
      else Going(s', p, Failing(ph.queue, ph.event, ph.attempts, false))
    case MarkDelivered(p, now) =>
      var ph := s.publishers[p].phase;
      var row := Delivered(s.events[ph.event].row, s.publishers[p].owner, now);
      Going(s.(events := s.events[ph.event := s.events[ph.event].(row := row)], clock := now), p, Batch(ph.queue))
    case MarkFailed(p, now) =>
      var ph := s.publishers[p].phase;
      var row := Postponed(s.events[ph.event].row, s.publishers[p].owner, ph.attempts, ph.permanent, now);
      Going(s.(events := s.events[ph.event := s.events[ph.event].(row := row)], clock := now), p, Batch(ph.queue))
    case StartWorker(w) => Doing(s, w, Free)
    case Fetch(w, consumer, sequence) =>
      var n := Count(s, consumer, sequence) + 1;
      Doing(s.(counts := s.counts[(consumer, sequence) := n]), w, Got(consumer, sequence, n))
    case Handle(w) =>
      var k := s.workers[w];
      Doing(Processed(s, k.consumer, s.stream[k.sequence]), w, Handled(k.consumer, k.sequence))
    case HandleFails(w, committed) =>
      var k := s.workers[w];
      Doing(if committed then Processed(s, k.consumer, s.stream[k.sequence]) else s,
            w, Failed(k.consumer, k.sequence, k.deliveries))
    case Ack(w, confirmed) =>
      var k := s.workers[w];
      Doing(if confirmed then s.(acked := s.acked + {(k.consumer, k.sequence)}) else s, w, Free)
    case Nak(w) => Doing(s, w, Free)
    case Bury(w, answer) =>
      var k := s.workers[w];
      var s' := if answer == Refused then s else s.(dead := s.dead + {(k.consumer, k.sequence)});
      Doing(s', w, if answer == Appended || answer == Duplicate then Buried(k.consumer, k.sequence) else Free)
  }
}
