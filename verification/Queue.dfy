/** The durable work queue of `benchmarks/performance/imx_perf/durable_queue.py`, as far as the
    kill test uses it: claims with exclusive expiring leases, a durable submission intent, an
    effect ledger and recovery of lapsed leases.

    Every operation takes the clock reading it works with as a parameter. Nothing is assumed of
    these readings: what is proved here and in `Chaos` holds for any clock. */
module Queue {
  import opened Wrappers

  type Owner = (nat, nat) // worker index, incarnation
  type Token = nat

  datatype Kind = Apply | Resume | Reconcile
  datatype Phase = Ready | Running | Done | Dead

  /** What the lease columns of a row hold. */
  datatype Hold = Hold(owner: Owner, token: Token, expires: real)

  /** A row of `work_items`; rows are numbered in the order they were enqueued. */
  datatype Item = Item(
    kind: Kind,
    phase: Phase,
    attempts: nat,
    maxAttempts: nat,
    availableAt: real,
    hold: Option<Hold>)

  datatype Lease = Lease(item: nat, owner: Owner, token: Token)

  /** The key of a side effect: `submit:<application>`, one application per item. */
  datatype EffectKey = Submit(item: nat)

  /** The lines of the event log that matter here. */
  datatype Event =
    | Granted(item: nat, kind: Kind)
    | Intent(item: nat)
    | Applied(key: EffectKey)
    | AlreadyApplied(key: EffectKey)
    | Completed(item: nat)

  datatype Error = LeaseLost | Refused | DuplicateIntent

  datatype Db = Db(
    items: seq<Item>,
    intents: set<nat>,
    effects: seq<EffectKey>,
    log: seq<Event>)

  predicate Dispatches(k: Kind) { k.Apply? || k.Resume? }

  // ---- Specification of the operations --------------------------------------------------

  /** `_check`: the row still carries this lease and it has not lapsed. */
  predicate Held(db: Db, lease: Lease, now: real) {
    && lease.item < |db.items|
    && var it := db.items[lease.item];
    && it.phase.Running?
    && it.hold.Some?
    && it.hold.value.token == lease.token
    && it.hold.value.owner == lease.owner
    && now < it.hold.value.expires
  }

  predicate Lapsed(it: Item, now: real) {
    it.phase.Running? && it.hold.Some? && it.hold.value.expires <= now
  }

  /** `_recover` on one row. A lapsed item whose intent is on record becomes a reconciliation. */
  function RecoveredItem(it: Item, intended: bool, now: real): Item {
    if !Lapsed(it, now) then it
    else if Dispatches(it.kind) && intended then
      it.(kind := Reconcile, phase := Ready, attempts := 0, availableAt := now, hold := None)
    else if it.attempts >= it.maxAttempts then it.(phase := Dead, hold := None)
    else it.(phase := Ready, hold := None)
  }

  function Recovered(db: Db, now: real): Db {
    db.(items := seq(|db.items|, i requires 0 <= i < |db.items| => RecoveredItem(db.items[i], i in db.intents, now)))
  }

  predicate Claimable(db: Db, pick: nat, now: real) {
    pick < |db.items| && db.items[pick].phase.Ready? && db.items[pick].availableAt <= now
  }

  function Granting(db: Db, pick: nat, owner: Owner, token: Token, expires: real): Db
    requires pick < |db.items|
  {
    var it := db.items[pick];
    db.(items := db.items[pick := it.(phase := Running, attempts := it.attempts + 1, hold := Some(Hold(owner, token, expires)))],
        log := db.log + [Granted(pick, it.kind)])
  }

  /** `claim_next`. Which eligible row wins (priority, age, free lanes) is the parameter `pick`. */
  function Claimed(db: Db, owner: Owner, token: Token, ttl: real, now: real, pick: Option<nat>): (Db, Option<Lease>) {
    var db1 := Recovered(db, now);
    if pick.Some? && Claimable(db1, pick.value, now)
    then (Granting(db1, pick.value, owner, token, now + ttl), Some(Lease(pick.value, owner, token)))
    else (db1, None)
  }

  function Renewed(db: Db, lease: Lease, ttl: real, now: real): Result<Db, Error> {
    if !Held(db, lease, now) then Failure(LeaseLost)
    else
      var it := db.items[lease.item];
      Success(db.(items := db.items[lease.item := it.(hold := Some(it.hold.value.(expires := now + ttl)))]))
  }

  function Begun(db: Db, lease: Lease, now: real): Result<Db, Error> {
    if !Held(db, lease, now) then Failure(LeaseLost)
    else if !Dispatches(db.items[lease.item].kind) then Failure(Refused)
    else if lease.item in db.intents then Failure(DuplicateIntent)
    else Success(db.(intents := db.intents + {lease.item}, log := db.log + [Intent(lease.item)]))
  }

  /** `apply_effect`: insert-or-ignore, with an event saying which of the two it was. */
  function EffectDone(db: Db, lease: Lease, key: EffectKey, now: real): Result<(Db, bool), Error> {
    if !Held(db, lease, now) then Failure(LeaseLost)
    else if db.items[lease.item].kind.Reconcile? then Failure(Refused)
    else if key in db.effects then Success((db.(log := db.log + [AlreadyApplied(key)]), false))
    else Success((db.(effects := db.effects + [key], log := db.log + [Applied(key)]), true))
  }

  function CompletedBy(db: Db, lease: Lease, now: real): Result<Db, Error> {
    if !Held(db, lease, now) then Failure(LeaseLost)
    else
      var it := db.items[lease.item];
      Success(db.(items := db.items[lease.item := it.(phase := Done, hold := None)], log := db.log + [Completed(lease.item)]))
  }

  function Fresh(count: nat, maxAttempts: nat, now: real): Db {
    Db(seq(count, _ => Item(Apply, Ready, 0, maxAttempts, now, None)), {}, [], [])
  }

  // ---- The queue object ------------------------------------------------------------------

  class DurableQueue {
    var items: seq<Item>
    var intents: set<nat>
    var effects: seq<EffectKey>
    var log: seq<Event>

    ghost function Contents(): Db
      reads this
    {
      Db(items, intents, effects, log)
    }

    /** The queue of a run: one `apply` item per application, enqueued in order. */
    constructor (count: nat, maxAttempts: nat, now: real)
      ensures Contents() == Fresh(count, maxAttempts, now)
    {
      items := seq(count, _ => Item(Apply, Ready, 0, maxAttempts, now, None));
      intents, effects, log := {}, [], [];
    }

    /** `_recover`: the rows are visited one by one and updated in place. */
    method RecoverExpired(now: real)
      modifies this
      ensures Contents() == Recovered(old(Contents()), now)
    {
      for k := 0 to |items|
        invariant |items| == |old(items)|
        invariant intents == old(intents) && effects == old(effects) && log == old(log)
        invariant forall i :: 0 <= i < k ==> items[i] == RecoveredItem(old(items)[i], i in intents, now)
        invariant forall i :: k <= i < |items| ==> items[i] == old(items)[i]
      {
        var row := items[k];
        if Lapsed(row, now) {
          if Dispatches(row.kind) && k in intents {
            items := items[k := row.(kind := Reconcile, phase := Ready, attempts := 0, availableAt := now, hold := None)];
          } else if row.attempts >= row.maxAttempts {
            items := items[k := row.(phase := Dead, hold := None)];
          } else {
            items := items[k := row.(phase := Ready, hold := None)];
          }
        }
      }
      assert items == Recovered(old(Contents()), now).items;
    }

    method ClaimNext(owner: Owner, token: Token, ttl: real, now: real, pick: Option<nat>) returns (lease: Option<Lease>)
      modifies this
      ensures (Contents(), lease) == Claimed(old(Contents()), owner, token, ttl, now, pick)
    {
      RecoverExpired(now);
      if pick.None? || |items| <= pick.value || !items[pick.value].phase.Ready? || now < items[pick.value].availableAt {
        return None;
      }
      var row := items[pick.value];
      items := items[pick.value := row.(phase := Running, attempts := row.attempts + 1,
                                           hold := Some(Hold(owner, token, now + ttl)))];
      log := log + [Granted(pick.value, row.kind)];
      lease := Some(Lease(pick.value, owner, token));
    }

    /** `_check`, as a query. */
    method Check(lease: Lease, now: real) returns (held: bool)
      ensures held == Held(Contents(), lease, now)
    {
      held := false;
      if lease.item < |items| {
        var row := items[lease.item];
        if row.phase.Running? && row.hold.Some? {
          held := row.hold.value.token == lease.token && row.hold.value.owner == lease.owner && now < row.hold.value.expires;
        }
      }
    }

    method Renew(lease: Lease, ttl: real, now: real) returns (outcome: Outcome<Error>)
      modifies this
      ensures match Renewed(old(Contents()), lease, ttl, now)
              case Success(db) => outcome == Pass && Contents() == db
              case Failure(e) => outcome == Fail(e) && Contents() == old(Contents())
    {
      var held := Check(lease, now);
      if !held { return Fail(LeaseLost); }
      var row := items[lease.item];
      items := items[lease.item := row.(hold := Some(Hold(row.hold.value.owner, row.hold.value.token, now + ttl)))];
      outcome := Pass;
    }

    method BeginSubmission(lease: Lease, now: real) returns (outcome: Outcome<Error>)
      modifies this
      ensures match Begun(old(Contents()), lease, now)
              case Success(db) => outcome == Pass && Contents() == db
              case Failure(e) => outcome == Fail(e) && Contents() == old(Contents())
    {
      var held := Check(lease, now);
      if !held { return Fail(LeaseLost); }
      if items[lease.item].kind.Reconcile? { return Fail(Refused); }
      if lease.item in intents { return Fail(DuplicateIntent); }
      intents := intents + {lease.item};
      log := log + [Intent(lease.item)];
      outcome := Pass;
    }

    method ApplyEffect(lease: Lease, key: EffectKey, now: real) returns (outcome: Result<bool, Error>)
      modifies this
      ensures match EffectDone(old(Contents()), lease, key, now)
              case Success((db, applied)) => outcome == Success(applied) && Contents() == db
              case Failure(e) => outcome == Failure(e) && Contents() == old(Contents())
    {
      var held := Check(lease, now);
      if !held { return Failure(LeaseLost); }
      if items[lease.item].kind.Reconcile? { return Failure(Refused); }
      var applied := key !in effects;
      if applied {
        effects := effects + [key];
      }
      log := log + [if applied then Applied(key) else AlreadyApplied(key)];
      outcome := Success(applied);
    }

    method Complete(lease: Lease, now: real) returns (outcome: Outcome<Error>)
      modifies this
      ensures match CompletedBy(old(Contents()), lease, now)
              case Success(db) => outcome == Pass && Contents() == db
              case Failure(e) => outcome == Fail(e) && Contents() == old(Contents())
    {
      var held := Check(lease, now);
      if !held { return Fail(LeaseLost); }
      items := items[lease.item := items[lease.item].(phase := Done, hold := None)];
      log := log + [Completed(lease.item)];
      outcome := Pass;
    }
  }
}
