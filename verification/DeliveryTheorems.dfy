/** At-least-once delivery makes at-most-once effects, and loses nothing. */
module DeliveryTheorems {
  import opened Delivery
  import opened Options
  import opened Outbox

  // ---- the invariant ----

  ghost predicate RowGood(s: State, e: EventId, c: Settings)
    requires e in s.events
  {
    var r := s.events[e].row;
    && (r.delivered.Some? ==> e in s.stream && r.owner == None && r.lease == None)
    && (r.owner.Some? <==> r.lease.Some?)
    && (r.lease.Some? ==> r.lease.value <= s.clock + c.leaseSeconds)
    && r.available <= s.clock + RETRY_DELAY_MAX && r.created <= s.clock
    && r.attempts <= ATTEMPT_COUNTER_MAX
    && (r.fault == Permanent ==> !s.events[e].valid)
  }

  ghost predicate PublisherGood(s: State, p: int)
    requires p in s.publishers
  {
    match s.publishers[p].phase
    case Batch(_) => true
    case Loaded(_, e, _) => e in s.events && s.events[e].valid
    case Accepted(_, e) => e in s.events && e in s.stream
    case Failing(_, e, _, permanent) => e in s.events && (permanent ==> !s.events[e].valid)
  }

  ghost predicate WorkGood(s: State, w: int, c: Settings)
    requires w in s.workers
  {
    match s.workers[w]
    case Free => true
    case Got(consumer, q, n) => q < |s.stream| && n <= Count(s, consumer, q)
    case Handled(consumer, q) => q < |s.stream| && (consumer, s.stream[q]) in s.markers
    case Failed(consumer, q, n) => q < |s.stream| && n <= Count(s, consumer, q)
    case Buried(consumer, q) => (consumer, q) in s.dead
  }

  ghost predicate MessageGood(s: State, consumer: int, q: nat, c: Settings) {
    && ((consumer, q) in s.dead ==> q < |s.stream| && Count(s, consumer, q) >= c.maxDeliver)
    && ((consumer, q) in s.acked ==>
          q < |s.stream| && ((consumer, s.stream[q]) in s.markers || (consumer, q) in s.dead))
  }

  /** The marker is there exactly when the effect was committed, once. */
  ghost predicate EffectGood(s: State, consumer: int, e: EventId) {
    && multiset(s.effects)[(consumer, e)] == (if (consumer, e) in s.markers then 1 else 0)
    && ((consumer, e) in s.markers ==> e in s.stream)
  }

  ghost predicate Inv(s: State, c: Settings) {
    && (forall e | e in s.events :: RowGood(s, e, c))
    && (forall p | p in s.publishers :: PublisherGood(s, p))
    && (forall w | w in s.workers :: WorkGood(s, w, c))
    && (forall consumer: int, q: nat :: MessageGood(s, consumer, q, c))
    && (forall consumer: int, e :: EffectGood(s, consumer, e))
    && (forall e | e in s.stream :: e in s.events && s.events[e].valid)
  }

  // ---- it is kept ----

  predicate ByPublisher(a: Step) {
    a.Emit? || a.StartPublisher? || a.Claim? || a.Load? || a.Offer? || a.MarkDelivered? || a.MarkFailed?
  }

  lemma ClaimedRowKept(s: State, a: Step, c: Settings, e: EventId)
    requires Enabled(s, a, c) && a.Claim? && (e in s.events ==> RowGood(s, e, c))
    ensures e in Next(s, a, c).events ==> RowGood(Next(s, a, c), e, c)
  {
  }

  lemma DeliveredRowKept(s: State, a: Step, c: Settings, e: EventId)
    requires Enabled(s, a, c) && a.MarkDelivered? && PublisherGood(s, a.p) && (e in s.events ==> RowGood(s, e, c))
    ensures e in Next(s, a, c).events ==> RowGood(Next(s, a, c), e, c)
  {
  }

  lemma PostponedRowKept(s: State, a: Step, c: Settings, e: EventId)
    requires Enabled(s, a, c) && a.MarkFailed? && PublisherGood(s, a.p) && (e in s.events ==> RowGood(s, e, c))
    ensures e in Next(s, a, c).events ==> RowGood(Next(s, a, c), e, c)
  {
    hide Delay;
    var ph := s.publishers[a.p].phase;
    DelayGrows(ph.attempts, ph.attempts);
  }

  lemma RowLeft(s: State, a: Step, c: Settings, e: EventId)
    requires Enabled(s, a, c) && ByPublisher(a) && !a.Claim? && !a.MarkDelivered? && !a.MarkFailed?
    requires e in s.events ==> RowGood(s, e, c)
    ensures e in Next(s, a, c).events ==> RowGood(Next(s, a, c), e, c)
  {
    hide Held, Claimable;
  }

  lemma RowKept(s: State, a: Step, c: Settings, e: EventId)
    requires Inv(s, c) && Enabled(s, a, c) && ByPublisher(a)
    ensures e in Next(s, a, c).events ==> RowGood(Next(s, a, c), e, c)
  {
    assert a.MarkDelivered? || a.MarkFailed? ==> PublisherGood(s, a.p);
    assert e in s.events ==> RowGood(s, e, c);
    hide Inv, Next, Enabled, RowGood, PublisherGood;
    match a
    case Claim(_, _, _) => ClaimedRowKept(s, a, c, e);
    case MarkDelivered(_, _) => DeliveredRowKept(s, a, c, e);
    case MarkFailed(_, _) => PostponedRowKept(s, a, c, e);
    case _ => RowLeft(s, a, c, e);
  }

  /** Events stay and keep their validity, and the stream only grows. */
  lemma EventsStay(s: State, a: Step, c: Settings, e: EventId)
    requires Enabled(s, a, c) && ByPublisher(a) && e in s.events
    ensures var s' := Next(s, a, c);
            && e in s'.events && s'.events[e].valid == s.events[e].valid && (e in s.stream ==> e in s'.stream)
  {
    hide IsBatch, Claimable, Held, Claimed, Delivered, Postponed;
  }

  predicate ActsAs(a: Step, p: int)
    requires ByPublisher(a)
  {
    !a.Emit? && a.p == p
  }

  lemma OtherPublisherKept(s: State, a: Step, c: Settings, p: int)
    requires Enabled(s, a, c) && ByPublisher(a) && !ActsAs(a, p)
    ensures p in Next(s, a, c).publishers ==> p in s.publishers && Next(s, a, c).publishers[p] == s.publishers[p]
  {
    hide IsBatch, Claimable, Held, Claimed, Delivered, Postponed, ClaimedRows;
  }

  lemma OwnPublisherKept(s: State, a: Step, c: Settings)
    requires Enabled(s, a, c) && ByPublisher(a) && !a.Emit? && (a.p in s.publishers ==> PublisherGood(s, a.p))
    ensures a.p in Next(s, a, c).publishers && PublisherGood(Next(s, a, c), a.p)
  {
    hide IsBatch, Claimable, Claimed, Delivered, Postponed, ClaimedRows, Held;
  }

  lemma PublisherKept(s: State, a: Step, c: Settings, p: int)
    requires Inv(s, c) && Enabled(s, a, c) && ByPublisher(a)
    ensures p in Next(s, a, c).publishers ==> PublisherGood(Next(s, a, c), p)
  {
    assert p in s.publishers ==> PublisherGood(s, p);
    hide Inv, Next, Enabled;
    if ActsAs(a, p) {
      OwnPublisherKept(s, a, c);
    } else {
      OtherPublisherKept(s, a, c, p);
      if p in s.publishers && !s.publishers[p].phase.Batch? && s.publishers[p].phase.event in s.events {
        EventsStay(s, a, c, s.publishers[p].phase.event);
      }
    }
  }

  lemma InboxUntouched(s: State, a: Step, c: Settings)
    requires Enabled(s, a, c) && ByPublisher(a)
    ensures var s' := Next(s, a, c);
            && s'.workers == s.workers && s'.counts == s.counts && s'.acked == s.acked
            && s'.dead == s.dead && s'.markers == s.markers && s'.effects == s.effects
            && s.stream <= s'.stream
  {
    hide Claimable, IsBatch, Delivered, Postponed, Claimed, ClaimedRows, Held, Emitted;
    match a
    case Emit(_, _, _) =>
    case StartPublisher(_, _) =>
    case Claim(_, _, _) =>
    case Load(_) =>
    case Offer(_, _) =>
    case MarkDelivered(_, _) =>
    case MarkFailed(_, _) =>
  }

  lemma StreamKept(s: State, a: Step, c: Settings)
    requires Enabled(s, a, c) && ByPublisher(a) && (a.Offer? ==> PublisherGood(s, a.p))
    requires forall e | e in s.stream :: e in s.events && s.events[e].valid
    ensures forall e | e in Next(s, a, c).stream :: e in Next(s, a, c).events && Next(s, a, c).events[e].valid
  {
    if !a.Offer? {
      SameStream(s, a, c);
    }
    hide Claimable, IsBatch, Delivered, Postponed, Claimed, ClaimedRows;
  }

  lemma SameStream(s: State, a: Step, c: Settings)
    requires Enabled(s, a, c) && !a.Offer?
    ensures Next(s, a, c).stream == s.stream
  {
  }

  lemma PublisherStepKeeps(s: State, a: Step, c: Settings)
    requires Inv(s, c) && Enabled(s, a, c) && ByPublisher(a)
    ensures Inv(Next(s, a, c), c)
  {
    var s' := Next(s, a, c);
    InboxUntouched(s, a, c);
    if a.Offer? {
      assert PublisherGood(s, a.p);
    }
    StreamKept(s, a, c);
    hide Next, RowGood, PublisherGood, Enabled;
    forall e | e in s'.events
      ensures RowGood(s', e, c)
    {
      RowKept(s, a, c, e);
    }
    forall p | p in s'.publishers
      ensures PublisherGood(s', p)
    {
      PublisherKept(s, a, c, p);
    }
    forall w | w in s'.workers
      ensures WorkGood(s', w, c)
    {
      assert WorkGood(s, w, c);
    }
    forall consumer: int, q: nat
      ensures MessageGood(s', consumer, q, c)
    {
      assert MessageGood(s, consumer, q, c);
    }
    forall consumer: int, e
      ensures EffectGood(s', consumer, e)
    {
      assert EffectGood(s, consumer, e);
    }
  }

  lemma OwnWorkKept(s: State, a: Step, c: Settings, w: int)
    requires w in s.workers ==> WorkGood(s, w, c)
    requires Enabled(s, a, c) && !ByPublisher(a) && a.w == w
    ensures w in Next(s, a, c).workers && WorkGood(Next(s, a, c), w, c)
  {
  }

  lemma InboxGrows(s: State, a: Step, c: Settings, w: int)
    requires Enabled(s, a, c) && !ByPublisher(a) && w in s.workers && a.w != w
    ensures var s' := Next(s, a, c);
            && w in s'.workers && s'.workers[w] == s.workers[w] && s'.stream == s.stream
            && s.markers <= s'.markers && s.dead <= s'.dead
            && forall consumer: int, q: nat :: Count(s, consumer, q) <= Count(s', consumer, q)
  {
  }

  lemma OtherWorkKept(s: State, a: Step, c: Settings, w: int)
    requires w in s.workers && WorkGood(s, w, c)
    requires Enabled(s, a, c) && !ByPublisher(a) && a.w != w
    ensures w in Next(s, a, c).workers && WorkGood(Next(s, a, c), w, c)
  {
    InboxGrows(s, a, c, w);
    hide Next, Enabled, Count;
  }

  lemma WorkKept(s: State, a: Step, c: Settings, w: int)
    requires Inv(s, c) && Enabled(s, a, c) && !ByPublisher(a) && (w in s.workers || a.w == w)
    ensures w in Next(s, a, c).workers ==> WorkGood(Next(s, a, c), w, c)
  {
    hide Enabled, Next, WorkGood;
    if a.w == w {
      OwnWorkKept(s, a, c, w);
    } else {
      OtherWorkKept(s, a, c, w);
    }
  }

  lemma MessageKept(s: State, a: Step, c: Settings, consumer: int, q: nat)
    requires Inv(s, c) && Enabled(s, a, c) && !ByPublisher(a)
    ensures MessageGood(Next(s, a, c), consumer, q, c)
  {
    hide RowGood, EffectGood, PublisherGood;
    assert MessageGood(s, consumer, q, c);
    if a.Bury? || a.Ack? {
      assert WorkGood(s, a.w, c);
      if s.workers[a.w].Buried? {
        assert MessageGood(s, s.workers[a.w].consumer, s.workers[a.w].sequence, c);
      }
    }
  }

  lemma EffectKept(s: State, a: Step, c: Settings, consumer: int, e: EventId)
    requires Inv(s, c) && Enabled(s, a, c) && !ByPublisher(a)
    ensures EffectGood(Next(s, a, c), consumer, e)
  {
    assert EffectGood(s, consumer, e);
    if a.Handle? || (a.HandleFails? && a.committed) {
      hide Inv;
      EffectTaken(s, a, c, consumer, e);
    } else {
      hide Inv, Next;
      EffectSame(s, a, c);
    }
  }

  lemma EffectSame(s: State, a: Step, c: Settings)
    requires Enabled(s, a, c) && !ByPublisher(a) && !a.Handle? && !(a.HandleFails? && a.committed)
    ensures var s' := Next(s, a, c);
            s'.markers == s.markers && s'.effects == s.effects && s'.stream == s.stream && s'.events == s.events
  {
  }

  lemma EffectTaken(s: State, a: Step, c: Settings, consumer: int, e: EventId)
    requires Enabled(s, a, c) && (a.Handle? || (a.HandleFails? && a.committed)) && EffectGood(s, consumer, e)
    ensures EffectGood(Next(s, a, c), consumer, e)
  {
  }

  lemma OutboxUntouched(s: State, a: Step, c: Settings)
    requires Enabled(s, a, c) && !ByPublisher(a)
    ensures var s' := Next(s, a, c);
            s'.stream == s.stream && s'.events == s.events && s'.publishers == s.publishers && s'.clock == s.clock
    ensures forall w | w in Next(s, a, c).workers :: w in s.workers || a.w == w
  {
  }

  lemma ConsumerStepKeeps(s: State, a: Step, c: Settings)
    requires Inv(s, c) && Enabled(s, a, c) && !ByPublisher(a)
    ensures Inv(Next(s, a, c), c)
  {
    var s' := Next(s, a, c);
    OutboxUntouched(s, a, c);
    hide Next, WorkGood, MessageGood, EffectGood, Enabled;
    forall e | e in s'.events
      ensures RowGood(s', e, c)
    {
      assert RowGood(s, e, c);
    }
    forall p | p in s'.publishers
      ensures PublisherGood(s', p)
    {
      assert PublisherGood(s, p);
    }
    forall w | w in s'.workers
      ensures WorkGood(s', w, c)
    {
      WorkKept(s, a, c, w);
    }
    forall consumer: int, q: nat
      ensures MessageGood(s', consumer, q, c)
    {
      MessageKept(s, a, c, consumer, q);
    }
    forall consumer: int, e
      ensures EffectGood(s', consumer, e)
    {
      EffectKept(s, a, c, consumer, e);
    }
  }

  lemma StepKeepsInv(s: State, a: Step, c: Settings)
    requires Inv(s, c) && Enabled(s, a, c)
    ensures Inv(Next(s, a, c), c)
  {
    if ByPublisher(a) {
      PublisherStepKeeps(s, a, c);
    } else {
      ConsumerStepKeeps(s, a, c);
    }
  }

  /** `acts` is a run from `s` to `t`. */
  ghost predicate Leads(s: State, acts: seq<Step>, t: State, c: Settings)
    decreases |acts|
  {
    if acts == [] then t == s
    else Enabled(s, acts[0], c) && Leads(Next(s, acts[0], c), acts[1..], t, c)
  }

  ghost predicate Reachable(s: State, c: Settings) {
    exists acts :: Leads(INIT, acts, s, c)
  }

  lemma {:induction false} RunKeepsInv(s: State, acts: seq<Step>, t: State, c: Settings)
    requires Inv(s, c) && Leads(s, acts, t, c)
    ensures Inv(t, c)
    decreases |acts|
  {
    if acts != [] {
      StepKeepsInv(s, acts[0], c);
      RunKeepsInv(Next(s, acts[0], c), acts[1..], t, c);
    }
  }

  lemma ReachableInv(s: State, c: Settings)
    requires Reachable(s, c)
    ensures Inv(s, c)
  {
    var acts :| Leads(INIT, acts, s, c);
    RunKeepsInv(INIT, acts, s, c);
  }

  // ---- the theorems ----

  /** Whatever publishers repeat and brokers redeliver, each event takes effect at most
      once on each consumer; the marker is there exactly when it did; and it did only
      for an event that was emitted and accepted. */
  lemma EffectAtMostOnce(s: State, c: Settings, consumer: int, e: EventId)
    requires Reachable(s, c)
    ensures multiset(s.effects)[(consumer, e)] <= 1
    ensures (consumer, e) in s.markers <==> multiset(s.effects)[(consumer, e)] == 1
    ensures (consumer, e) in s.effects ==> e in s.stream && e in s.events && s.events[e].valid
  {
    ReachableInv(s, c);
    assert EffectGood(s, consumer, e);
    assert (consumer, e) in s.effects <==> (consumer, e) in multiset(s.effects);
  }

  /** An event is marked delivered only after the broker accepted it. */
  lemma DeliveredWasAccepted(s: State, c: Settings, e: EventId)
    requires Reachable(s, c) && e in s.events && s.events[e].row.delivered.Some?
    ensures e in s.stream
  {
    ReachableInv(s, c);
    assert RowGood(s, e, c);
  }

  /** The mark is set once: no later step of any run moves or removes it, or publishes
      the event again as a claim. */
  lemma {:induction false} DeliveredOnce(s: State, acts: seq<Step>, t: State, c: Settings, e: EventId)
    requires Leads(s, acts, t, c) && e in s.events && s.events[e].row.delivered.Some?
    ensures e in t.events && t.events[e].row == s.events[e].row
    decreases |acts|
  {
    if acts != [] {
      var s' := Next(s, acts[0], c);
      assert e in s'.events && s'.events[e].row == s.events[e].row;
      DeliveredOnce(s', acts[1..], t, c, e);
    }
  }

  /** A message is acknowledged only with its marker and effect committed, or with a
      dead letter for its sequence accepted, and that only after enough deliveries. */
  lemma AcknowledgedIsSettled(s: State, c: Settings, consumer: int, q: nat)
    requires Reachable(s, c) && (consumer, q) in s.acked
    ensures q < |s.stream|
    ensures multiset(s.effects)[(consumer, s.stream[q])] == 1
         || ((consumer, q) in s.dead && Count(s, consumer, q) >= c.maxDeliver)
  {
    ReachableInv(s, c);
    assert MessageGood(s, consumer, q, c);
    assert EffectGood(s, consumer, s.stream[q]);
  }

  /** Nothing is lost in the outbox: a valid event that is not delivered is claimable
      once the longest lease and backoff have passed, whatever happened to it so far. */
  lemma NoEventForgotten(s: State, c: Settings, e: EventId, now: int)
    requires Reachable(s, c) && e in s.events && s.events[e].valid && s.events[e].row.delivered == None
    requires now > s.clock + c.leaseSeconds && now >= s.clock + RETRY_DELAY_MAX
    ensures Claimable(s.events[e].row, now)
  {
    ReachableInv(s, c);
    assert RowGood(s, e, c);
  }

  /** A quarantined event is one the publisher's own check rejects. */
  lemma QuarantineIsDeserved(s: State, c: Settings, e: EventId)
    requires Reachable(s, c) && e in s.events && s.events[e].row.fault == Permanent
    ensures !s.events[e].valid && e !in s.stream && s.events[e].row.delivered == None
    ensures forall consumer: int :: (consumer, e) !in s.effects
  {
    ReachableInv(s, c);
    assert RowGood(s, e, c);
    forall consumer: int
      ensures (consumer, e) !in s.effects
    {
      EffectAtMostOnce(s, c, consumer, e);
    }
  }

  // ---- what a step does to the logs ----

  /** The pair a worker is busy with. */
  function Pair(k: Work): (int, nat)
    requires !k.Free?
  {
    (k.consumer, k.sequence)
  }

  /** The stream grows by a message exactly when the broker took one, whether or not the
      publisher got to know. */
  lemma StreamGrowsExactly(s: State, a: Step, c: Settings)
    requires Enabled(s, a, c)
    ensures Next(s, a, c).stream == s.stream
              + if a.Offer? && a.answer in {Appended, AnswerLost} then [s.publishers[a.p].phase.event] else []
  {
    if !a.Offer? {
      SameStream(s, a, c);
    }
  }

  /** A message becomes acknowledged exactly by a confirmed acknowledgement of the worker
      that has it, and gets its dead letter exactly when a failed worker gives it up and
      the broker takes the letter. */
  lemma AcknowledgedExactly(s: State, a: Step, c: Settings, consumer: int, q: nat)
    requires Enabled(s, a, c)
    ensures (consumer, q) in Next(s, a, c).acked <==>
              (consumer, q) in s.acked || (a.Ack? && a.confirmed && Pair(s.workers[a.w]) == (consumer, q))
    ensures (consumer, q) in Next(s, a, c).dead <==>
              || (consumer, q) in s.dead
              || (a.Bury? && a.answer != Refused && Pair(s.workers[a.w]) == (consumer, q))
  {
    hide Claimable, IsBatch, Delivered, Postponed, Claimed, ClaimedRows, Held, Emitted;
  }

  /** An event takes effect exactly by a committed callback that finds no marker, even if
      the worker then reports a failure. */
  lemma EffectsGrowExactly(s: State, a: Step, c: Settings)
    requires Enabled(s, a, c)
    ensures Next(s, a, c).effects == s.effects +
              if a.Handle? || (a.HandleFails? && a.committed) then
                var k := s.workers[a.w];
                if (k.consumer, s.stream[k.sequence]) in s.markers then [] else [(k.consumer, s.stream[k.sequence])]
              else []
  {
    if ByPublisher(a) {
      InboxUntouched(s, a, c);
    } else if !a.Handle? && !(a.HandleFails? && a.committed) {
      EffectSame(s, a, c);
    }
  }

  /** A batch is worked off by creation, and within it by id, each event once. */
  lemma OldestFirst(s: State, a: Step, c: Settings, i: nat, j: nat)
    requires Enabled(s, a, c) && a.Claim? && i < j < |a.batch|
    ensures a.batch[i] != a.batch[j]
    ensures s.events[a.batch[i]].row.created <= s.events[a.batch[j]].row.created
    ensures s.events[a.batch[i]].row.created == s.events[a.batch[j]].row.created ==> a.batch[i] < a.batch[j]
  {
  }

  // ---- everything valid can still get through ----

  ghost predicate CanReach(s: State, t: State, c: Settings) {
    exists acts :: Leads(s, acts, t, c)
  }

  lemma {:induction false} LeadsOn(s: State, acts: seq<Step>, t: State, a: Step, c: Settings)
    requires Leads(s, acts, t, c) && Enabled(t, a, c)
    ensures Leads(s, acts + [a], Next(t, a, c), c)
    decreases |acts|
  {
    hide Enabled, Next;
    if acts == [] {
      assert Leads(Next(t, a, c), ([a])[1..], Next(t, a, c), c);
      assert acts + [a] == [a];
    } else {
      LeadsOn(Next(s, acts[0], c), acts[1..], t, a, c);
      assert (acts + [a])[1..] == acts[1..] + [a];
    }
  }

  lemma Onward(s: State, t: State, a: Step, c: Settings)
    requires CanReach(s, t, c) && Enabled(t, a, c)
    ensures CanReach(s, Next(t, a, c), c)
  {
    hide Enabled, Next;
    var acts :| Leads(s, acts, t, c);
    LeadsOn(s, acts, t, a, c);
  }

  lemma StaysPut(s: State, c: Settings)
    ensures CanReach(s, s, c)
  {
    assert Leads(s, [], s, c);
  }

  /** A restarted publisher can always publish a valid event that is not delivered. */
  lemma CanPublish(s: State, c: Settings, e: EventId) returns (t: State)
    requires Inv(s, c) && e in s.events && s.events[e].valid && s.events[e].row.delivered == None && c.batchSize > 0
    ensures CanReach(s, t, c)
    ensures e in t.events && t.events[e].row.delivered.Some? && t.stream == s.stream + [e] && t.acked == s.acked
  {
    hide CanReach, Inv;
    var now := s.clock + c.leaseSeconds + RETRY_DELAY_MAX + 1;
    RowOf(s, c, e);
    StaysPut(s, c);
    var started := Next(s, StartPublisher(0, 0), c);
    Onward(s, s, StartPublisher(0, 0), c);
    var claimed := Next(started, Claim(0, [e], now), c);
    Onward(s, started, Claim(0, [e], now), c);
    var loaded := Next(claimed, Load(0), c);
    Onward(s, claimed, Load(0), c);
    var accepted := Next(loaded, Offer(0, Appended), c);
    Onward(s, loaded, Offer(0, Appended), c);
    t := Next(accepted, MarkDelivered(0, now), c);
    Onward(s, accepted, MarkDelivered(0, now), c);
  }

  /** A lost answer puts a valid event into the stream twice, and it still takes effect
      once: the publisher cannot tell, the consumer need not. */
  lemma LostAnswerRepeats(s: State, c: Settings, e: EventId, consumer: int) returns (u: State)
    requires Reachable(s, c) && e in s.events && s.events[e].valid && s.events[e].row.delivered == None
    requires c.batchSize > 0
    ensures CanReach(s, u, c) && u.stream == s.stream + [e, e]
    ensures e in u.events && u.events[e].row.delivered.Some?
    ensures multiset(u.effects)[(consumer, e)] == 1
    ensures (consumer, |s.stream|) in u.acked && (consumer, |s.stream| + 1) in u.acked
  {
    hide CanReach, Inv;
    ReachableInv(s, c);
    var failed := LosesAnswer(s, c, e);
    ReachesInv(s, failed, c);
    var published := CanPublish(failed, c, e);
    ThenReaches(s, failed, published, c);
    assert published.stream == s.stream + [e, e];
    NotYet(s, c, consumer);
    var once := CanHandle(s, published, c, consumer, |s.stream|);
    u := CanHandle(s, once, c, consumer, |s.stream| + 1);
    ReachesInv(s, u, c);
    CountedOnce(u, c, consumer, e);
  }

  lemma LosesAnswer(s: State, c: Settings, e: EventId) returns (t: State)
    requires Inv(s, c) && e in s.events && s.events[e].valid && s.events[e].row.delivered == None && c.batchSize > 0
    ensures CanReach(s, t, c) && t.stream == s.stream + [e] && t.acked == s.acked
    ensures e in t.events && t.events[e].valid && t.events[e].row.delivered == None
  {
    hide CanReach, Inv;
    var now := s.clock + c.leaseSeconds + RETRY_DELAY_MAX + 1;
    RowOf(s, c, e);
    StaysPut(s, c);
    var started := Next(s, StartPublisher(0, 0), c);
    Onward(s, s, StartPublisher(0, 0), c);
    var claimed := Next(started, Claim(0, [e], now), c);
    Onward(s, started, Claim(0, [e], now), c);
    var loaded := Next(claimed, Load(0), c);
    Onward(s, claimed, Load(0), c);
    t := Next(loaded, Offer(0, AnswerLost), c);
    Onward(s, loaded, Offer(0, AnswerLost), c);
  }

  /** An event the publisher's own check rejects can always be quarantined. */
  lemma CanQuarantine(s: State, c: Settings, e: EventId) returns (t: State)
    requires Reachable(s, c) && e in s.events && !s.events[e].valid && s.events[e].row.fault != Permanent
    requires c.batchSize > 0
    ensures CanReach(s, t, c) && e in t.events && t.events[e].row.fault == Permanent && t.stream == s.stream
  {
    hide CanReach, Inv;
    ReachableInv(s, c);
    var now := s.clock + c.leaseSeconds + RETRY_DELAY_MAX + 1;
    RowOf(s, c, e);
    NeverDelivered(s, c, e);
    StaysPut(s, c);
    var started := Next(s, StartPublisher(0, 0), c);
    Onward(s, s, StartPublisher(0, 0), c);
    var claimed := Next(started, Claim(0, [e], now), c);
    Onward(s, started, Claim(0, [e], now), c);
    var loaded := Next(claimed, Load(0), c);
    Onward(s, claimed, Load(0), c);
    t := Next(loaded, MarkFailed(0, now), c);
    Onward(s, loaded, MarkFailed(0, now), c);
  }

  lemma NeverDelivered(s: State, c: Settings, e: EventId)
    requires Inv(s, c) && e in s.events && !s.events[e].valid
    ensures s.events[e].row.delivered == None
  {
    assert RowGood(s, e, c);
  }

  lemma NotYet(s: State, c: Settings, consumer: int)
    requires Inv(s, c)
    ensures (consumer, |s.stream|) !in s.acked && (consumer, |s.stream| + 1) !in s.acked
  {
    assert MessageGood(s, consumer, |s.stream|, c) && MessageGood(s, consumer, |s.stream| + 1, c);
  }

  lemma CountedOnce(s: State, c: Settings, consumer: int, e: EventId)
    requires Inv(s, c) && (consumer, e) in s.markers
    ensures multiset(s.effects)[(consumer, e)] == 1
  {
    assert EffectGood(s, consumer, e);
  }

  lemma {:induction false} LeadsThrough(s: State, acts: seq<Step>, t: State, more: seq<Step>, u: State, c: Settings)
    requires Leads(s, acts, t, c) && Leads(t, more, u, c)
    ensures Leads(s, acts + more, u, c)
    decreases |acts|
  {
    hide Enabled, Next;
    if acts == [] {
      assert acts + more == more;
    } else {
      LeadsThrough(Next(s, acts[0], c), acts[1..], t, more, u, c);
      assert (acts + more)[1..] == acts[1..] + more;
    }
  }

  lemma ThenReaches(s: State, t: State, u: State, c: Settings)
    requires CanReach(s, t, c) && CanReach(t, u, c)
    ensures CanReach(s, u, c)
  {
    var acts :| Leads(s, acts, t, c);
    var more :| Leads(t, more, u, c);
    LeadsThrough(s, acts, t, more, u, c);
  }

  lemma RowOf(s: State, c: Settings, e: EventId)
    requires Inv(s, c) && e in s.events
    ensures RowGood(s, e, c)
  {
  }

  /** A restarted worker can always settle a message that is not acknowledged. */
  lemma CanHandle(s: State, t: State, c: Settings, consumer: int, q: nat) returns (u: State)
    requires CanReach(s, t, c) && q < |t.stream| && (consumer, q) !in t.acked
    ensures CanReach(s, u, c) && u.events == t.events && u.stream == t.stream
    ensures (consumer, t.stream[q]) in u.markers && u.acked == t.acked + {(consumer, q)}
  {
    hide CanReach;
    var started := Next(t, StartWorker(0), c);
    Onward(s, t, StartWorker(0), c);
    var got := Next(started, Fetch(0, consumer, q), c);
    Onward(s, started, Fetch(0, consumer, q), c);
    var handled := Next(got, Handle(0), c);
    Onward(s, got, Handle(0), c);
    u := Next(handled, Ack(0, true), c);
    Onward(s, handled, Ack(0, true), c);
  }

  /** From every reachable state a valid event that is not delivered can still be
      delivered, take its one effect and be acknowledged. */
  lemma CanStillGetThrough(s: State, c: Settings, e: EventId, consumer: int) returns (u: State)
    requires Reachable(s, c) && e in s.events && s.events[e].valid && s.events[e].row.delivered == None
    requires c.batchSize > 0
    ensures CanReach(s, u, c)
    ensures e in u.events && u.events[e].row.delivered.Some?
    ensures multiset(u.effects)[(consumer, e)] == 1
    ensures exists q: nat :: q < |u.stream| && u.stream[q] == e && (consumer, q) in u.acked
  {
    hide CanReach;
    ReachableInv(s, c);
    var t := CanPublish(s, c, e);
    var q := |s.stream|;
    assert MessageGood(s, consumer, q, c);
    u := CanHandle(s, t, c, consumer, q);
    ReachesInv(s, u, c);
    assert EffectGood(u, consumer, e);
  }

  lemma ReachesInv(s: State, u: State, c: Settings)
    requires Inv(s, c) && CanReach(s, u, c)
    ensures Inv(u, c)
  {
    var acts :| Leads(s, acts, u, c);
    RunKeepsInv(s, acts, u, c);
  }
}
