/** The row of an event waiting to be published, and what the publisher does to it. */
module Outbox {
  import opened Options

  const RETRY_DELAY_MAX: nat := 900
  const RETRY_EXPONENT_MAX: nat := 10
  const ATTEMPT_COUNTER_MAX: nat := 2_000_000_000

  /** What `last_error` says: nothing, something worth a retry, or a quarantine. */
  datatype Fault = NoFault | Transient | Permanent

  datatype Row = Row(
    created: int, available: int, lease: Option<int>, owner: Option<int>, attempts: nat,
    delivered: Option<int>, fault: Fault)

  function Min(a: nat, b: nat): nat {
    if a < b then a else b
  }

  function Power(exponent: nat): nat {
    if exponent == 0 then 1 else 2 * Power(exponent - 1)
  }

  function Delay(attempts: nat): nat {
    Min(Power(Min(attempts, RETRY_EXPONENT_MAX)), RETRY_DELAY_MAX)
  }

  function Emitted(now: int): Row {
    Row(now, now, None, None, 0, None, NoFault)
  }

  predicate Claimable(r: Row, now: int) {
    && r.delivered == None
    && r.available <= now
    && r.fault != Permanent
    && (r.lease == None || r.lease.value < now)
  }

  function Claimed(r: Row, owner: int, now: int, leaseSeconds: nat): Row {
    r.(owner := Some(owner), lease := Some(now + leaseSeconds), attempts := Min(r.attempts + 1, ATTEMPT_COUNTER_MAX))
  }

  /** The guard of both closing updates: the row is still this owner's and undelivered. */
  predicate Held(r: Row, owner: int) {
    r.owner == Some(owner) && r.delivered == None
  }

  function Delivered(r: Row, owner: int, now: int): Row {
    if Held(r, owner) then r.(delivered := Some(now), lease := None, owner := None, fault := NoFault) else r
  }

  function Postponed(r: Row, owner: int, attempts: nat, permanent: bool, now: int): Row {
    if Held(r, owner) then
      r.(owner := None, lease := None, available := now + Delay(attempts),
         fault := if permanent then Permanent else Transient)
    else r
  }

  lemma {:induction false} PowerGrows(m: nat, n: nat)
    requires m <= n
    ensures 1 <= Power(m) <= Power(n)
  {
    if m < n {
      PowerGrows(m, n - 1);
    } else if m > 0 {
      PowerGrows(m - 1, n - 1);
    }
  }

  /** The backoff never shrinks, and lies between a second and fifteen minutes. */
  lemma DelayGrows(m: nat, n: nat)
    requires m <= n
    ensures 1 <= Delay(m) <= Delay(n) <= RETRY_DELAY_MAX
  {
    PowerGrows(Min(m, RETRY_EXPONENT_MAX), Min(n, RETRY_EXPONENT_MAX));
  }

  /** When an event may be claimed: one just claimed when its lease has run out, one put
      off when its backoff has, and none that is delivered or quarantined. */
  lemma ClaimableWhen(r: Row, owner: int, claimed: int, leaseSeconds: nat, attempts: nat, permanent: bool, now: int)
    ensures r.delivered.Some? || r.fault == Permanent ==> !Claimable(r, now)
    ensures r.delivered == None && r.fault != Permanent && r.lease == None ==> (Claimable(r, now) <==> r.available <= now)
    ensures r.delivered == None && r.fault != Permanent ==>
              (Claimable(Claimed(r, owner, claimed, leaseSeconds), now) <==>
                 r.available <= now && claimed + leaseSeconds < now)
    ensures Held(r, owner) ==>
              (Claimable(Postponed(r, owner, attempts, permanent, claimed), now) <==>
                 !permanent && claimed + Delay(attempts) <= now)
  {
    hide Delay;
  }

  /** The backoff in seconds: doubling from one, and a quarter of an hour from the tenth
      attempt on. */
  lemma DelayTable(attempts: nat)
    ensures Power(0) == 1 && Power(attempts + 1) == 2 * Power(attempts)
    ensures attempts >= 10 ==> Delay(attempts) == 900
    ensures attempts < 10 ==> Delay(attempts) == [1, 2, 4, 8, 16, 32, 64, 128, 256, 512][attempts]
  {
    assert Power(2) == 4 && Power(4) == 16 && Power(6) == 64 && Power(8) == 256 && Power(10) == 1024;
  }

  class OutboxEvent {
    const created: int
    var available: int
    var lease: Option<int>
    var owner: Option<int>
    var attempts: nat
    var delivered: Option<int>
    var fault: Fault

    constructor (now: int)
      ensures Value() == Emitted(now)
    {
      created, available, lease, owner, attempts, delivered, fault := now, now, None, None, 0, None, NoFault;
    }

    function Value(): Row
      reads this
    {
      Row(created, available, lease, owner, attempts, delivered, fault)
    }

    method Claim(holder: int, now: int, leaseSeconds: nat)
      modifies this
      ensures Value() == Claimed(old(Value()), holder, now, leaseSeconds)
      ensures owner == Some(holder) && lease == Some(now + leaseSeconds)
      ensures attempts == if old(attempts) < ATTEMPT_COUNTER_MAX then old(attempts) + 1 else ATTEMPT_COUNTER_MAX
      ensures available == old(available) && delivered == old(delivered) && fault == old(fault)
    {
      owner := Some(holder);
      lease := Some(now + leaseSeconds);
      attempts := Min(attempts + 1, ATTEMPT_COUNTER_MAX);
    }

    method MarkDelivered(holder: int, now: int)
      modifies this
      ensures Value() == Delivered(old(Value()), holder, now)
      ensures old(owner) == Some(holder) && old(delivered) == None ==>
                && delivered == Some(now) && lease == None && owner == None && fault == NoFault
                && available == old(available) && attempts == old(attempts)
      ensures old(owner) != Some(holder) || old(delivered).Some? ==> Value() == old(Value())
    {
      if owner == Some(holder) && delivered == None {
        delivered := Some(now);
        lease := None;
        owner := None;
        fault := NoFault;
      }
    }

    method MarkFailed(holder: int, tried: nat, permanent: bool, now: int)
      modifies this
      ensures Value() == Postponed(old(Value()), holder, tried, permanent, now)
      ensures old(owner) == Some(holder) && old(delivered) == None ==>
                && available == now + Delay(tried) && lease == None && owner == None && delivered == None
                && fault == (if permanent then Permanent else Transient) && attempts == old(attempts)
      ensures old(owner) != Some(holder) || old(delivered).Some? ==> Value() == old(Value())
    {
      var delay := Min(Power(Min(tried, RETRY_EXPONENT_MAX)), RETRY_DELAY_MAX);
      if owner == Some(holder) && delivered == None {
        owner := None;
        lease := None;
        available := now + delay;
        fault := if permanent then Permanent else Transient;
      }
    }
  }
}
