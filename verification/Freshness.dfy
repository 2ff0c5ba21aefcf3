/** Commits, the events that announce them and the search projection together: why a
    committed revision is never lost on its way to the index. */
module Freshness {
  import opened Options
  import Delivery
  import DeliveryTheorems
  import SearchProgress
  import SearchProtocol
  import SearchSafety
  import SearchTheorems

  type EventId = Delivery.EventId
  type NewsId = SearchProtocol.NewsId

  /** The consumer whose inbox callback moves search projections. */
  const PIPELINE: int := 0

  /** What the payload of an announcing event names. */
  datatype Request = Request(news: NewsId, revision: nat)

  datatype Settings = Settings(mail: Delivery.Settings, lease: nat)

  datatype State = State(mail: Delivery.State, search: SearchProtocol.State, requests: map<EventId, Request>)

  const INIT := State(Delivery.INIT, SearchProtocol.INIT, map[])

  /** A commit writes the news and its event in one transaction, and the inbox moves the
      projection in the one that writes the marker; all else happens on one side only.
      Commits that announce nothing and events of other topics are search steps. */
  datatype Action =
    | Commit(write: SearchProtocol.Action, emit: Delivery.Step)
    | Take(handle: Delivery.Step, event: SearchProtocol.Action)
    | Mail(step: Delivery.Step)
    | Search(action: SearchProtocol.Action)

  /** The event that takes its effect on the projections in this step. */
  function TakenBy(m: Delivery.State, d: Delivery.Step): Option<EventId> {
    if (d.Handle? || (d.HandleFails? && d.committed)) && d.w in m.workers && m.workers[d.w].Got?
       && m.workers[d.w].consumer == PIPELINE && m.workers[d.w].sequence < |m.stream|
       && (PIPELINE, m.stream[m.workers[d.w].sequence]) !in m.markers then
      Some(m.stream[m.workers[d.w].sequence])
    else None
  }

  predicate Requests(s: State, d: Delivery.Step) {
    TakenBy(s.mail, d).Some? && TakenBy(s.mail, d).value in s.requests
  }

  predicate Announces(write: SearchProtocol.Action) {
    write.Create? || write.Write?
  }

  predicate Asks(event: SearchProtocol.Action, r: Request) {
    event.Event? && event.n == r.news && event.requested == r.revision
  }

  predicate Enabled(s: State, a: Action, c: Settings) {
    match a
    case Commit(write, emit) =>
      && Announces(write) && SearchProtocol.Enabled(s.search, write, c.lease)
      && emit.Emit? && Delivery.Enabled(s.mail, emit, c.mail)
    case Take(handle, event) =>
      && Delivery.Enabled(s.mail, handle, c.mail) && Requests(s, handle)
      && Asks(event, s.requests[TakenBy(s.mail, handle).value])
      && SearchProtocol.Enabled(s.search, event, c.lease)
    case Mail(step) => Delivery.Enabled(s.mail, step, c.mail) && !Requests(s, step)
    case Search(action) => SearchProtocol.Enabled(s.search, action, c.lease)
  }

  function Next(s: State, a: Action, c: Settings): State
    requires Enabled(s, a, c)
  {
    match a
    case Commit(write, emit) =>
      State(Delivery.Next(s.mail, emit, c.mail), SearchProtocol.Step(s.search, write, c.lease),
            s.requests[emit.e := Request(write.n, write.snap.revision)])
    case Take(handle, event) =>
      s.(mail := Delivery.Next(s.mail, handle, c.mail), search := SearchProtocol.Step(s.search, event, c.lease))
    case Mail(step) => s.(mail := Delivery.Next(s.mail, step, c.mail))
    case Search(action) => s.(search := SearchProtocol.Step(s.search, action, c.lease))
  }

  // ---- what each side does to what the other relies on ----

  lemma MarkersGrow(m: Delivery.State, d: Delivery.Step, c: Delivery.Settings, e: EventId)
    requires Delivery.Enabled(m, d, c)
    ensures e in m.events ==> e in Delivery.Next(m, d, c).events
    ensures (PIPELINE, e) in Delivery.Next(m, d, c).markers <==> (PIPELINE, e) in m.markers || TakenBy(m, d) == Some(e)
  {
    hide Delivery.IsBatch;
  }

  /** The news item's newest committed revision. */
  function Newest(s: SearchProtocol.State, n: NewsId): nat
    requires n in s.log && |s.log[n]| > 0
  {
    SearchProtocol.Now(s.log[n]).revision
  }

  lemma NewestGrows(s: SearchProtocol.State, a: SearchProtocol.Action, lease: nat, n: NewsId)
    requires SearchProtocol.Enabled(s, a, lease) && n in s.log && |s.log[n]| > 0
    ensures var s' := SearchProtocol.Step(s, a, lease);
            n in s'.log && |s'.log[n]| > 0 && Newest(s, n) <= Newest(s', n)
  {
  }

  lemma TargetGrows(s: SearchProtocol.State, a: SearchProtocol.Action, lease: nat, n: NewsId)
    requires SearchProtocol.Enabled(s, a, lease) && n in s.rows
    ensures var s' := SearchProtocol.Step(s, a, lease);
            n in s'.rows && s.rows[n].desired <= s'.rows[n].desired
  {
  }

  lemma Committed(s: SearchProtocol.State, a: SearchProtocol.Action, lease: nat)
    requires SearchProtocol.Enabled(s, a, lease) && Announces(a)
    ensures var s' := SearchProtocol.Step(s, a, lease);
            a.n in s'.log && |s'.log[a.n]| > 0 && Newest(s', a.n) == a.snap.revision
  {
  }

  lemma Asked(s: SearchProtocol.State, a: SearchProtocol.Action, lease: nat)
    requires SearchProtocol.Enabled(s, a, lease) && a.Event?
    ensures var s' := SearchProtocol.Step(s, a, lease);
            a.n in s'.rows && s'.rows[a.n].desired >= a.requested
  {
  }

  // ---- the invariant ----

  /** A request names a committed revision, and once it has taken effect the projection
      aims at least there. */
  ghost predicate RequestGood(s: State, e: EventId)
    requires e in s.requests
  {
    var r := s.requests[e];
    && e in s.mail.events
    && r.news in s.search.log && |s.search.log[r.news]| > 0 && r.revision <= Newest(s.search, r.news)
    && ((PIPELINE, e) in s.mail.markers ==> r.news in s.search.rows && r.revision <= s.search.rows[r.news].desired)
  }

  /** Each side is where it could be on its own. */
  ghost predicate Inv(s: State, c: Settings) {
    && DeliveryTheorems.Reachable(s.mail, c.mail) && SearchTheorems.Reachable(s.search, c.lease)
    && forall e | e in s.requests :: RequestGood(s, e)
  }

  lemma MailReaches(m: Delivery.State, d: Delivery.Step, c: Delivery.Settings)
    requires DeliveryTheorems.Reachable(m, c) && Delivery.Enabled(m, d, c)
    ensures DeliveryTheorems.Reachable(Delivery.Next(m, d, c), c)
  {
    hide Delivery.Next, Delivery.Enabled;
    var acts :| DeliveryTheorems.Leads(Delivery.INIT, acts, m, c);
    DeliveryTheorems.LeadsOn(Delivery.INIT, acts, m, d, c);
  }

  lemma SearchReaches(s: SearchProtocol.State, a: SearchProtocol.Action, lease: nat)
    requires SearchTheorems.Reachable(s, lease) && SearchProtocol.Enabled(s, a, lease)
    ensures SearchTheorems.Reachable(SearchProtocol.Step(s, a, lease), lease)
  {
    hide SearchProtocol.Step, SearchProtocol.Enabled;
    var acts :| SearchTheorems.Leads(SearchProtocol.INIT, acts, s, lease);
    SearchProgress.LeadsOn(SearchProtocol.INIT, acts, s, a, lease);
  }

  lemma MailKeeps(s: State, a: Action, c: Settings, e: EventId)
    requires Enabled(s, a, c) && !a.Search?
    requires e in s.requests && RequestGood(s, e)
    ensures e in Next(s, a, c).mail.events
    ensures (PIPELINE, e) in Next(s, a, c).mail.markers ==>
              (PIPELINE, e) in s.mail.markers || (a.Take? && TakenBy(s.mail, a.handle) == Some(e))
  {
    hide Delivery.Enabled, Delivery.Next, SearchProtocol.Enabled, SearchProtocol.Step;
    var d := if a.Commit? then a.emit else if a.Take? then a.handle else a.step;
    MarkersGrow(s.mail, d, c.mail, e);
  }

  lemma RequestKept(s: State, a: Action, c: Settings, e: EventId)
    requires Enabled(s, a, c) && e in s.requests && RequestGood(s, e) && (a.Commit? ==> e != a.emit.e)
    ensures e in Next(s, a, c).requests && RequestGood(Next(s, a, c), e)
  {
    hide Delivery.Enabled, Delivery.Next, SearchProtocol.Enabled, SearchProtocol.Step, Newest;
    var n := s.requests[e].news;
    if !a.Mail? {
      var b := if a.Commit? then a.write else if a.Take? then a.event else a.action;
      NewestGrows(s.search, b, c.lease, n);
      if n in s.search.rows {
        TargetGrows(s.search, b, c.lease, n);
      }
      if a.Take? {
        Asked(s.search, b, c.lease);
      }
    }
    if !a.Search? {
      MailKeeps(s, a, c, e);
    }
  }

  lemma CommitAnnounces(s: State, a: Action, c: Settings)
    requires Inv(s, c) && Enabled(s, a, c) && a.Commit?
    ensures a.emit.e !in s.requests
    ensures a.emit.e in Next(s, a, c).requests && RequestGood(Next(s, a, c), a.emit.e)
  {
    var e := a.emit.e;
    assert e !in s.mail.events;
    assert e in s.requests ==> RequestGood(s, e);
    DeliveryTheorems.EffectAtMostOnce(s.mail, c.mail, PIPELINE, e);
    assert e in Delivery.Next(s.mail, a.emit, c.mail).events;
    Committed(s.search, a.write, c.lease);
    MarkersGrow(s.mail, a.emit, c.mail, e);
    hide SearchProtocol.Step, SearchProtocol.Enabled, Delivery.Enabled, Delivery.Next, DeliveryTheorems.Reachable;
    assert (PIPELINE, e) !in s.mail.markers by { Unmarked(s.mail, c.mail, e); }
  }

  lemma Unmarked(m: Delivery.State, c: Delivery.Settings, e: EventId)
    requires DeliveryTheorems.Reachable(m, c) && e !in m.events
    ensures (PIPELINE, e) !in m.markers
  {
    DeliveryTheorems.EffectAtMostOnce(m, c, PIPELINE, e);
    assert (PIPELINE, e) in m.effects <==> multiset(m.effects)[(PIPELINE, e)] > 0;
  }

  lemma StepKeepsInv(s: State, a: Action, c: Settings)
    requires Inv(s, c) && Enabled(s, a, c)
    ensures Inv(Next(s, a, c), c)
  {
    if a.Commit? {
      CommitAnnounces(s, a, c);
    }
    hide Delivery.Enabled, Delivery.Next, SearchProtocol.Enabled, SearchProtocol.Step, RequestGood;
    hide DeliveryTheorems.Reachable, SearchTheorems.Reachable, Requests, Asks;
    if !a.Search? {
      MailReaches(s.mail, if a.Commit? then a.emit else if a.Take? then a.handle else a.step, c.mail);
    }
    if !a.Mail? {
      SearchReaches(s.search, if a.Commit? then a.write else if a.Take? then a.event else a.action, c.lease);
    }
    forall e | e in Next(s, a, c).requests
      ensures RequestGood(Next(s, a, c), e)
    {
      if !(a.Commit? && e == a.emit.e) {
        RequestKept(s, a, c, e);
      }
    }
  }

  // ---- whole runs ----

  ghost predicate Leads(s: State, acts: seq<Action>, t: State, c: Settings)
    decreases |acts|
  {
    if acts == [] then t == s
    else Enabled(s, acts[0], c) && Leads(Next(s, acts[0], c), acts[1..], t, c)
  }

  ghost predicate CanReach(s: State, t: State, c: Settings) {
    exists acts :: Leads(s, acts, t, c)
  }

  ghost predicate Reachable(s: State, c: Settings) {
    CanReach(INIT, s, c)
  }

  lemma {:induction false} RunKeepsInv(s: State, acts: seq<Action>, t: State, c: Settings)
    requires Inv(s, c) && Leads(s, acts, t, c)
    ensures Inv(t, c)
    decreases |acts|
  {
    hide Inv, Enabled, Next;
    if acts != [] {
      StepKeepsInv(s, acts[0], c);
      RunKeepsInv(Next(s, acts[0], c), acts[1..], t, c);
    }
  }

  lemma ReachableInv(s: State, c: Settings)
    requires Reachable(s, c)
    ensures Inv(s, c)
  {
    assert DeliveryTheorems.Leads(Delivery.INIT, [], Delivery.INIT, c.mail);
    assert SearchTheorems.Leads(SearchProtocol.INIT, [], SearchProtocol.INIT, c.lease);
    var acts :| Leads(INIT, acts, s, c);
    RunKeepsInv(INIT, acts, s, c);
  }

  lemma {:induction false} LeadsOn(s: State, acts: seq<Action>, t: State, a: Action, c: Settings)
    requires Leads(s, acts, t, c) && Enabled(t, a, c)
    ensures Leads(s, acts + [a], Next(t, a, c), c)
    decreases |acts|
  {
    hide Enabled, Next;
    if acts == [] {
      assert Leads(Next(t, a, c), ([a])[1..], Next(t, a, c), c);
      assert acts + [a] == [a];
    } else {
      LeadsOn(Next(s, acts[0], c), acts[1..], t, a, c);
      assert (acts + [a])[1..] == acts[1..] + [a];
    }
  }

  lemma Onward(s: State, t: State, a: Action, c: Settings)
    requires CanReach(s, t, c) && Enabled(t, a, c)
    ensures CanReach(s, Next(t, a, c), c)
  {
    hide Enabled, Next;
    var acts :| Leads(s, acts, t, c);
    LeadsOn(s, acts, t, a, c);
  }

  lemma StaysPut(s: State, c: Settings)
    ensures CanReach(s, s, c)
  {
    assert Leads(s, [], s, c);
  }

  // ---- nothing is lost on the way ----

  /** The event is not delivered, or some message of it is not acknowledged or was given
      up as a dead letter. */
  ghost predicate OnItsWay(m: Delivery.State, e: EventId) {
    || (e in m.events && m.events[e].row.delivered == None)
    || exists q: nat :: q < |m.stream| && m.stream[q] == e && ((PIPELINE, q) !in m.acked || (PIPELINE, q) in m.dead)
  }

  /** A projection that does not aim at an announced revision has its event still on its
      way: undelivered, unacknowledged or dead. */
  lemma LagIsExplained(s: State, c: Settings, e: EventId)
    requires Reachable(s, c) && e in s.requests
    ensures var n := s.requests[e].news;
            || (n in s.search.rows && s.search.rows[n].desired >= s.requests[e].revision)
            || ((PIPELINE, e) !in s.mail.markers && OnItsWay(s.mail, e))
  {
    ReachableInv(s, c);
    assert RequestGood(s, e);
    hide Reachable;
    if (PIPELINE, e) !in s.mail.markers && s.mail.events[e].row.delivered.Some? {
      DeliveryTheorems.DeliveredWasAccepted(s.mail, c.mail, e);
      var q: nat :| q < |s.mail.stream| && s.mail.stream[q] == e;
      if (PIPELINE, q) in s.mail.acked {
        DeliveryTheorems.AcknowledgedIsSettled(s.mail, c.mail, PIPELINE, q);
        DeliveryTheorems.EffectAtMostOnce(s.mail, c.mail, PIPELINE, e);
      }
    }
  }

  // ---- every announced revision can still be indexed ----

  /** A run of the delivery alone is one of both: where the inbox takes a request the
      projection is moved. It commits nothing. */
  lemma {:induction false} LiftMail(
    s: State, t: State, acts: seq<Delivery.Step>, m: Delivery.State, c: Settings) returns (u: State)
    requires CanReach(s, t, c) && Inv(t, c) && DeliveryTheorems.Leads(t.mail, acts, m, c.mail)
    ensures CanReach(s, u, c) && Inv(u, c)
    ensures u.mail == m && u.search.log == t.search.log && u.requests == t.requests
    decreases |acts|
  {
    hide CanReach, Inv, Delivery.Enabled, Delivery.Next;
    if acts == [] {
      return t;
    }
    var d := acts[0];
    var a := Lifted(t, d, c);
    StepKeepsInv(t, a, c);
    Onward(s, t, a, c);
    u := LiftMail(s, Next(t, a, c), acts[1..], m, c);
  }

  lemma Lifted(t: State, d: Delivery.Step, c: Settings) returns (a: Action)
    requires Inv(t, c) && Delivery.Enabled(t.mail, d, c.mail)
    ensures Enabled(t, a, c)
    ensures Next(t, a, c).mail == Delivery.Next(t.mail, d, c.mail)
    ensures Next(t, a, c).search.log == t.search.log && Next(t, a, c).requests == t.requests
  {
    hide Delivery.Enabled, Delivery.Next;
    if !Requests(t, d) {
      return Mail(d);
    }
    var e := TakenBy(t.mail, d).value;
    assert RequestGood(t, e);
    var r := t.requests[e];
    RevisionsBegin(t.search, c.lease, r.news);
    a := Take(d, SearchProtocol.Event(r.news, r.revision, Newest(t.search, r.news), t.search.clock));
  }

  lemma RevisionsBegin(s: SearchProtocol.State, lease: nat, n: NewsId)
    requires SearchTheorems.Reachable(s, lease) && n in s.log && |s.log[n]| > 0
    ensures Newest(s, n) >= 1
  {
    SearchTheorems.ReachableInv(s, lease);
    assert SearchSafety.ItemInv(s, n);
  }

  /** So is a run of the search side alone. */
  lemma {:induction false} LiftSearch(
    s: State, t: State, acts: seq<SearchProtocol.Action>, v: SearchProtocol.State, c: Settings) returns (u: State)
    requires CanReach(s, t, c) && SearchTheorems.Leads(t.search, acts, v, c.lease)
    ensures CanReach(s, u, c) && u == t.(search := v)
    decreases |acts|
  {
    hide CanReach, SearchProtocol.Enabled, SearchProtocol.Step;
    if acts == [] {
      return t;
    }
    Onward(s, t, Search(acts[0]), c);
    u := LiftSearch(s, Next(t, Search(acts[0]), c), acts[1..], v, c);
  }

  /** The index serves what was read at some revision of at least `revision`. */
  ghost predicate IndexedAt(s: SearchProtocol.State, n: NewsId, revision: nat) {
    && n in s.rows && n in s.log && revision <= s.rows[n].indexed
    && SearchSafety.ReadWithin(s.log[n], SearchProtocol.Served(s, n), s.rows[n].indexed, s.rows[n].indexed)
  }

  /** The event can still take its effect: it is valid and not delivered, or a message of
      it is not acknowledged, or it has taken it. */
  ghost predicate NotGivenUp(m: Delivery.State, e: EventId) {
    || (PIPELINE, e) in m.markers
    || (e in m.events && m.events[e].valid && m.events[e].row.delivered == None)
    || exists q: nat :: q < |m.stream| && m.stream[q] == e && (PIPELINE, q) !in m.acked
  }

  lemma MailArrives(m: Delivery.State, c: Delivery.Settings, e: EventId) returns (m': Delivery.State)
    requires DeliveryTheorems.Reachable(m, c) && NotGivenUp(m, e) && c.batchSize > 0
    ensures DeliveryTheorems.CanReach(m, m', c) && (PIPELINE, e) in m'.markers
  {
    DeliveryTheorems.StaysPut(m, c);
    DeliveryTheorems.ReachableInv(m, c);
    if (PIPELINE, e) in m.markers {
      return m;
    }
    if e in m.events && m.events[e].valid && m.events[e].row.delivered == None {
      m' := DeliveryTheorems.CanStillGetThrough(m, c, e, PIPELINE);
      hide DeliveryTheorems.CanReach;
      DeliveryTheorems.ReachesInv(m, m', c);
      assert DeliveryTheorems.EffectGood(m', PIPELINE, e);
    } else {
      var q: nat :| q < |m.stream| && m.stream[q] == e && (PIPELINE, q) !in m.acked;
      m' := DeliveryTheorems.CanHandle(m, m, c, PIPELINE, q);
    }
  }

  /** From every reachable state an announced revision that delivery has not given up can
      still be indexed, without a further commit: its event arrives, the projection aims
      at it, and the indexer catches up. */
  lemma CanStillBeIndexed(s: State, c: Settings, e: EventId) returns (u: State)
    requires Reachable(s, c) && e in s.requests && NotGivenUp(s.mail, e) && c.mail.batchSize > 0
    ensures CanReach(s, u, c) && u.search.log == s.search.log
    ensures IndexedAt(u.search, s.requests[e].news, s.requests[e].revision)
  {
    ReachableInv(s, c);
    StaysPut(s, c);
    hide Reachable, CanReach;
    var n, revision := s.requests[e].news, s.requests[e].revision;
    var m := MailArrives(s.mail, c.mail, e);
    var acts :| DeliveryTheorems.Leads(s.mail, acts, m, c.mail);
    var t := LiftMail(s, s, acts, m, c);
    assert RequestGood(t, e);
    hide Inv;
    u := t;
    if t.search.rows[n].indexed < t.search.rows[n].desired {
      assert SearchTheorems.Reachable(t.search, c.lease) by { SideReachable(t, c); }
      var v := SearchProgress.AlwaysCatchesUp(t.search, n, c.lease);
      var more :| SearchTheorems.Leads(t.search, more, v, c.lease);
      u := LiftSearch(s, t, more, v, c);
    } else {
      SideReachable(t, c);
      SettledIsServed(t.search, c.lease, n);
    }
  }

  lemma SideReachable(s: State, c: Settings)
    requires Inv(s, c)
    ensures SearchTheorems.Reachable(s.search, c.lease)
  {
  }

  lemma SettledIsServed(s: SearchProtocol.State, lease: nat, n: NewsId)
    requires SearchTheorems.Reachable(s, lease) && n in s.rows && s.rows[n].indexed >= s.rows[n].desired
    ensures n in s.log && IndexedAt(s, n, s.rows[n].desired)
  {
    SearchTheorems.ReachableInv(s, lease);
    assert SearchSafety.ItemInv(s, n);
  }
}
