/** The kill test of `benchmarks/performance/imx_perf/chaos.py`: any number of workers claim items,
    record their intent, apply the submit effect and complete, while workers are killed, leases
    lapse and heartbeats renew them.

    A run is a sequence of moves, one per database transaction or shared-counter update. A move
    that is not enabled leaves the system as it is, so every sequence of moves is a run. */
module Chaos {
  import opened Wrappers
  import opened Queue

  /** Where a worker stands in its loop. */
  datatype Pc =
    | Idle
    | Working(lease: Lease, step: nat)    // at the top of iteration `step`
    | Reconciling(lease: Lease)           // holds an item of kind `reconcile`
    | Counting(item: nat)                 // completed a reconciliation, counters not updated yet
    | Exited(failed: bool)

  datatype Worker = Worker(pc: Pc, incarnation: nat)

  datatype System = System(
    db: Db,
    workers: seq<Worker>,
    issued: map<Token, nat>,              // every lease token handed out so far, and to which worker
    reconciledWithoutEffect: nat,
    steps: nat)                           // cfg.steps_per_item

  datatype Move =
    | Claim(w: nat, token: Token, ttl: real, now: real, pick: Option<nat>)
    | Iterate(w: nat, killed: bool, now: real)
    | Finish(w: nat, now: real)
    | Reconcile(w: nat, now: real)
    | Count(w: nat)
    | Leave(w: nat)
    | Heartbeat(lease: Lease, ttl: real, now: real) // the renewal thread of whoever holds this lease
    | Sweep(now: real)                    // recover_expired

  function Set(s: System, w: nat, pc: Pc): System
    requires w < |s.workers|
  {
    s.(workers := s.workers[w := s.workers[w].(pc := pc)])
  }

  /** A killed worker abandons its item without releasing it and comes back as its next incarnation. */
  function Killed(s: System, w: nat): System
    requires w < |s.workers|
  {
    s.(workers := s.workers[w := Worker(Idle, s.workers[w].incarnation + 1)])
  }

  /** One iteration of the step loop: a kill, else the intent two steps before the end, else the
      effect one step before the end. A lost lease ends the loop; any other error ends the worker. */
  function Iteration(s: System, w: nat, killed: bool, now: real): System
    requires w < |s.workers| && s.workers[w].pc.Working?
  {
    var Working(lease, step) := s.workers[w].pc;
    var ahead := Working(lease, step + 1);
    if killed then Killed(s, w)
    else if step == s.steps - 3 then
      match Begun(s.db, lease, now)
      case Success(db) => Set(s.(db := db), w, ahead)
      case Failure(LeaseLost) => Set(s, w, Idle)
      case Failure(_) => Set(s, w, Exited(true))
    else if step == s.steps - 2 then
      match EffectDone(s.db, lease, Submit(lease.item), now)
      case Success((db, _)) => Set(s.(db := db), w, ahead)
      case Failure(LeaseLost) => Set(s, w, Idle)
      case Failure(_) => Set(s, w, Exited(true))
    else Set(s, w, ahead)
  }

  function Next(s: System, m: Move): System {
    match m
    case Claim(w, token, ttl, now, pick) =>
      if w < |s.workers| && s.workers[w].pc.Idle? && token !in s.issued then
        var (db, granted) := Claimed(s.db, (w, s.workers[w].incarnation), token, ttl, now, pick);
        var s1 := s.(db := db, issued := s.issued[token := w]);
        match granted
        case None => s1
        case Some(lease) =>
          Set(s1, w, if lease.item < |db.items| && db.items[lease.item].kind.Reconcile? then Reconciling(lease) else Working(lease, 0))
      else s
    case Iterate(w, killed, now) =>
      if w < |s.workers| && s.workers[w].pc.Working? && s.workers[w].pc.step < s.steps then Iteration(s, w, killed, now) else s
    case Finish(w, now) =>
      if w < |s.workers| && s.workers[w].pc.Working? && s.workers[w].pc.step >= s.steps then
        match CompletedBy(s.db, s.workers[w].pc.lease, now)
        case Success(db) => Set(s.(db := db), w, Idle)
        case Failure(_) => Set(s, w, Idle)
      else s
    case Reconcile(w, now) =>
      if w < |s.workers| && s.workers[w].pc.Reconciling? then
        match CompletedBy(s.db, s.workers[w].pc.lease, now)
        case Success(db) => Set(s.(db := db), w, Counting(s.workers[w].pc.lease.item))
        case Failure(_) => Set(s, w, Exited(true))   // not caught in this branch
      else s
    case Count(w) =>
      if w < |s.workers| && s.workers[w].pc.Counting? then
        var more := if Submit(s.workers[w].pc.item) in s.db.effects then 0 else 1;
        Set(s.(reconciledWithoutEffect := s.reconciledWithoutEffect + more), w, Idle)
      else s
    case Leave(w) =>
      if w < |s.workers| && s.workers[w].pc.Idle? then Set(s, w, Exited(false)) else s
    case Heartbeat(lease, ttl, now) =>
      (match Renewed(s.db, lease, ttl, now)
       case Success(db) => s.(db := db)
       case Failure(_) => s)
    case Sweep(now) => s.(db := Recovered(s.db, now))
  }

  function Start(items: nat, maxAttempts: nat, workers: nat, steps: nat, now: real): System {
    System(Fresh(items, maxAttempts, now), seq(workers, _ => Worker(Idle, 0)), map[], 0, steps)
  }

  function Run(s: System, moves: seq<Move>): System {
    if moves == [] then s else Next(Run(s, moves[..|moves|-1]), moves[|moves|-1])
  }

  // ---- What the test checks ------------------------------------------------------------------

  /** No effect was ever applied a second time: the log holds at most one line per key. */
  ghost predicate AtMostOnce(db: Db) {
    && (forall p :: 0 <= p < |db.log| ==> !db.log[p].AlreadyApplied?)
    && (forall p, q :: 0 <= p < q < |db.log| && db.log[p].Applied? && db.log[q].Applied? ==> db.log[p].key != db.log[q].key)
  }

  /** Once an intent is on record the item is never granted for applying again. */
  ghost predicate NeverReapplied(db: Db) {
    forall p, q :: 0 <= p < q < |db.log| && db.log[p].Intent? && db.log[q].Granted? && db.log[q].item == db.log[p].item
                   ==> db.log[q].kind.Reconcile?
  }

  predicate AllDone(db: Db) {
    forall i :: 0 <= i < |db.items| ==> db.items[i].phase.Done?
  }

  /** No worker stands between completing a reconciliation and counting it. */
  predicate Settled(s: System) {
    forall w :: 0 <= w < |s.workers| ==> !s.workers[w].pc.Counting?
  }

  /** `effects + reconciled_without_effect == cfg.items`, in a state where every item is done. */
  predicate Balanced(s: System) {
    AllDone(s.db) && Settled(s) ==> |s.db.effects| + s.reconciledWithoutEffect == |s.db.items|
  }

  ghost predicate Passes(s: System) {
    AtMostOnce(s.db) && NeverReapplied(s.db) && Balanced(s)
  }

  // ---- Items and workers -----------------------------------------------------------------------

  predicate HasEffect(db: Db, i: nat) { Submit(i) in db.effects }

  /** The item still carries the worker's lease. */
  predicate Current(db: Db, lease: Lease) {
    && lease.item < |db.items|
    && db.items[lease.item].hold.Some?
    && db.items[lease.item].hold.value.token == lease.token
  }

  predicate ItemOk(s: System, i: nat)
    requires i < |s.db.items|
  {
    var it := s.db.items[i];
    && (it.hold.Some? <==> it.phase.Running?)
    && (it.hold.Some? ==> it.hold.value.token in s.issued)
    && (HasEffect(s.db, i) ==> i in s.db.intents)
    && (it.kind.Reconcile? ==> i in s.db.intents)
    && (Dispatches(it.kind) && (it.phase.Ready? || it.phase.Dead?) ==> i !in s.db.intents)
    && (Dispatches(it.kind) && it.phase.Done? ==> HasEffect(s.db, i))
  }

  predicate WorkerOk(s: System, w: nat)
    requires w < |s.workers|
  {
    match s.workers[w].pc
    case Working(lease, step) =>
      && lease.item < |s.db.items|
      && lease.token in s.issued && s.issued[lease.token] == w
      && (Current(s.db, lease) ==>
            && Dispatches(s.db.items[lease.item].kind)
            && (lease.item in s.db.intents <==> step > s.steps - 3)
            && (HasEffect(s.db, lease.item) <==> step > s.steps - 2))
    case Reconciling(lease) =>
      && lease.item < |s.db.items|
      && lease.token in s.issued && s.issued[lease.token] == w
      && (Current(s.db, lease) ==> s.db.items[lease.item].kind.Reconcile?)
    case Counting(i) => i < |s.db.items| && s.db.items[i].phase.Done? && s.db.items[i].kind.Reconcile?
    case Idle => true
    case Exited(_) => true
  }

  predicate Core(s: System) {
    && s.steps >= 3
    && (forall i :: 0 <= i < |s.db.items| ==> ItemOk(s, i))
    && (forall w :: 0 <= w < |s.workers| ==> WorkerOk(s, w))
  }

  lemma SweepKeepsCore(s: System, now: real)
    requires Core(s)
    ensures Core(s.(db := Recovered(s.db, now)))
  {
    var s' := s.(db := Recovered(s.db, now));
    forall i | 0 <= i < |s'.db.items| ensures ItemOk(s', i) {
      assert ItemOk(s, i);
    }
    forall w | 0 <= w < |s'.workers| ensures WorkerOk(s', w) {
      assert WorkerOk(s, w);
    }
  }

  /** The state right after worker `w` was granted the ready item `pick` under a fresh token. */
  function Grant(s: System, w: nat, token: Token, pick: nat, expires: real): System
    requires w < |s.workers| && pick < |s.db.items|
  {
    var lease := Lease(pick, (w, s.workers[w].incarnation), token);
    var db := Granting(s.db, pick, lease.owner, token, expires);
    Set(s.(db := db, issued := s.issued[token := w]), w,
        if db.items[pick].kind.Reconcile? then Reconciling(lease) else Working(lease, 0))
  }

  lemma GrantKeepsCore(s: System, w: nat, token: Token, pick: nat, expires: real)
    requires Core(s) && w < |s.workers| && token !in s.issued
    requires pick < |s.db.items| && s.db.items[pick].phase.Ready?
    ensures Core(Grant(s, w, token, pick, expires))
  {
    var s' := Grant(s, w, token, pick, expires);
    assert ItemOk(s, pick);
    forall i | 0 <= i < |s'.db.items| ensures ItemOk(s', i) {
      assert ItemOk(s, i);
    }
    forall v | 0 <= v < |s'.workers| ensures WorkerOk(s', v) {
      assert WorkerOk(s, v);
    }
  }

  /** A claim is a sweep, then a grant or nothing; the token is spent either way. */
  lemma ClaimIs(s: System, m: Move)
    requires m.Claim? && m.w < |s.workers| && s.workers[m.w].pc.Idle? && m.token !in s.issued
    ensures var t := s.(db := Recovered(s.db, m.now));
            Next(s, m) == if m.pick.Some? && Claimable(t.db, m.pick.value, m.now)
                          then Grant(t, m.w, m.token, m.pick.value, m.now + m.ttl)
                          else t.(issued := t.issued[m.token := m.w])
  {
  }

  lemma ClaimKeepsCore(s: System, m: Move)
    requires Core(s) && m.Claim? && m.w < |s.workers| && s.workers[m.w].pc.Idle? && m.token !in s.issued
    ensures Core(Next(s, m))
  {
    ClaimIs(s, m);
    var t := s.(db := Recovered(s.db, m.now));
    SweepKeepsCore(s, m.now);
    if m.pick.Some? && Claimable(t.db, m.pick.value, m.now) {
      GrantKeepsCore(t, m.w, m.token, m.pick.value, m.now + m.ttl);
    } else {
      var t' := Next(s, m);
      forall i | 0 <= i < |t'.db.items| ensures ItemOk(t', i) {
        assert ItemOk(t, i);
      }
      forall v | 0 <= v < |t'.workers| ensures WorkerOk(t', v) {
        assert WorkerOk(t, v);
      }
    }
  }

  lemma IterateKeepsCore(s: System, m: Move)
    requires Core(s) && m.Iterate? && m.w < |s.workers| && s.workers[m.w].pc.Working?
    ensures Core(Iteration(s, m.w, m.killed, m.now))
  {
    var s' := Iteration(s, m.w, m.killed, m.now);
    assert s'.issued == s.issued && s'.steps == s.steps && |s'.workers| == |s.workers|;
    assert WorkerOk(s, m.w);
    forall i | 0 <= i < |s'.db.items| ensures ItemOk(s', i) {
      assert ItemOk(s, i);
    }
    forall v | 0 <= v < |s'.workers| ensures WorkerOk(s', v) {
      IterateKeepsWorker(s, m, v);
    }
  }

  lemma IterateKeepsWorker(s: System, m: Move, v: nat)
    requires Core(s) && m.Iterate? && m.w < |s.workers| && s.workers[m.w].pc.Working? && v < |s.workers|
    ensures WorkerOk(Iteration(s, m.w, m.killed, m.now), v)
  {
    assert WorkerOk(s, m.w) && WorkerOk(s, v);
  }

  lemma CompletionKeepsCore(s: System, m: Move)
    requires Core(s) && (m.Finish? || m.Reconcile?)
    ensures Core(Next(s, m))
  {
    var s' := Next(s, m);
    if m.w < |s.workers| {
      assert WorkerOk(s, m.w);
      forall i | 0 <= i < |s'.db.items| ensures ItemOk(s', i) {
        assert ItemOk(s, i);
      }
      forall v | 0 <= v < |s'.workers| ensures WorkerOk(s', v) {
        CompletionKeepsWorker(s, m, v);
      }
    }
  }

  lemma CompletionKeepsWorker(s: System, m: Move, v: nat)
    requires Core(s) && (m.Finish? || m.Reconcile?) && m.w < |s.workers| && v < |s.workers|
    ensures WorkerOk(Next(s, m), v)
  {
    assert WorkerOk(s, m.w) && WorkerOk(s, v);
  }

  lemma NextKeepsCore(s: System, m: Move)
    requires Core(s)
    ensures Core(Next(s, m))
  {
    var s' := Next(s, m);
    match m
    case Claim(w, token, _, _, _) =>
      if w < |s.workers| && s.workers[w].pc.Idle? && token !in s.issued { ClaimKeepsCore(s, m); }
    case Iterate(w, _, _) =>
      if w < |s.workers| && s.workers[w].pc.Working? && s.workers[w].pc.step < s.steps { IterateKeepsCore(s, m); }
    case Finish(_, _) => CompletionKeepsCore(s, m);
    case Reconcile(_, _) => CompletionKeepsCore(s, m);
    case Sweep(now) => SweepKeepsCore(s, now);
    case _ =>
      forall i | 0 <= i < |s'.db.items| ensures ItemOk(s', i) {
        assert ItemOk(s, i);
      }
      forall v | 0 <= v < |s'.workers| ensures WorkerOk(s', v) {
        assert WorkerOk(s, v);
      }
  }

  // ---- The log -----------------------------------------------------------------------------------

  /** The log and the tables agree, and the log shows no second application. */
  ghost predicate Ledger(db: Db) {
    && (forall p :: 0 <= p < |db.log| && db.log[p].Intent? ==> db.log[p].item in db.intents)
    && (forall p :: 0 <= p < |db.log| && db.log[p].Applied? ==> db.log[p].key in db.effects)
    && (forall j :: 0 <= j < |db.effects| ==> db.effects[j].item < |db.items|)
    && (forall j, k :: 0 <= j < k < |db.effects| ==> db.effects[j] != db.effects[k])
    && AtMostOnce(db)
    && NeverReapplied(db)
  }

  lemma NextKeepsLedger(s: System, m: Move)
    requires Core(s) && Ledger(s.db)
    ensures Ledger(Next(s, m).db)
  {
    if m.Claim? {
      ClaimKeepsLedger(s, m);
    } else if m.Iterate? && m.w < |s.workers| && s.workers[m.w].pc.Working? {
      IterateKeepsLedger(s, m);
    }
  }

  lemma IterateKeepsLedger(s: System, m: Move)
    requires Core(s) && Ledger(s.db) && m.Iterate? && m.w < |s.workers| && s.workers[m.w].pc.Working?
    ensures Ledger(Iteration(s, m.w, m.killed, m.now).db)
  {
    assert WorkerOk(s, m.w);
  }

  lemma ClaimKeepsLedger(s: System, m: Move)
    requires Core(s) && Ledger(s.db) && m.Claim?
    ensures Ledger(Next(s, m).db)
  {
    if m.w < |s.workers| && s.workers[m.w].pc.Idle? && m.token !in s.issued {
      var t := s.(db := Recovered(s.db, m.now));
      SweepKeepsCore(s, m.now);
      assert m.pick.Some? && Claimable(t.db, m.pick.value, m.now) ==> ItemOk(t, m.pick.value);
      ClaimIs(s, m);
    }
  }

  // ---- Conservation --------------------------------------------------------------------------------

  /** Items reconciled without an effect. */
  function Written(db: Db): set<nat> {
    set i | 0 <= i < |db.items| && db.items[i].phase.Done? && db.items[i].kind.Reconcile? && !HasEffect(db, i)
  }

  /** Workers that have yet to count one of them. */
  function Uncounted(s: System): set<nat> {
    set w | 0 <= w < |s.workers| && s.workers[w].pc.Counting? && !HasEffect(s.db, s.workers[w].pc.item)
  }

  /** Every item reconciled without an effect is counted once, now or by the worker about to. */
  predicate Counted(s: System) {
    s.reconciledWithoutEffect + |Uncounted(s)| == |Written(s.db)|
  }

  lemma NextKeepsCounted(s: System, m: Move)
    requires Core(s) && Counted(s)
    ensures Counted(Next(s, m))
  {
    match m
    case Iterate(_, _, _) => IterateKeepsCounted(s, m);
    case Reconcile(_, _) => ReconcileKeepsCounted(s, m);
    case Count(_) => CountKeepsCounted(s, m);
    case _ => OtherMovesKeepCounted(s, m);
  }

  lemma IterateKeepsCounted(s: System, m: Move)
    requires Core(s) && Counted(s) && m.Iterate?
    ensures Counted(Next(s, m))
  {
    var s' := Next(s, m);
    if m.w < |s.workers| {
      assert WorkerOk(s, m.w);
      forall v | 0 <= v < |s.workers| ensures v in Uncounted(s') <==> v in Uncounted(s) {
        assert WorkerOk(s, v);
      }
    }
    assert Uncounted(s') == Uncounted(s) && Written(s'.db) == Written(s.db);
  }

  predicate Reconciled(it: Item) { it.phase.Done? && it.kind.Reconcile? }

  /** The same items are reconciled and the same workers stand before the counters. */
  predicate SameTally(s: System, t: System) {
    && s.db.effects == t.db.effects
    && |s.db.items| == |t.db.items| && |s.workers| == |t.workers|
    && (forall i :: 0 <= i < |s.db.items| ==> (Reconciled(s.db.items[i]) <==> Reconciled(t.db.items[i])))
    && (forall w :: 0 <= w < |s.workers| ==> (s.workers[w].pc.Counting? || t.workers[w].pc.Counting? ==> s.workers[w] == t.workers[w]))
    && s.reconciledWithoutEffect == t.reconciledWithoutEffect
  }

  lemma SameTallyKeepsCounted(s: System, t: System)
    requires SameTally(s, t) && Counted(s)
    ensures Counted(t)
  {
    assert Uncounted(t) == Uncounted(s);
    assert Written(t.db) == Written(s.db);
  }

  lemma ReconcileKeepsCounted(s: System, m: Move)
    requires Core(s) && Counted(s) && m.Reconcile?
    ensures Counted(Next(s, m))
  {
    var s', w := Next(s, m), m.w;
    if w < |s.workers| && s.workers[w].pc.Reconciling? {
      assert WorkerOk(s, w);
      var i := s.workers[w].pc.lease.item;
      if !Held(s.db, s.workers[w].pc.lease, m.now) {
        SameTallyKeepsCounted(s, s');
      } else {
        CompletionCounts(s, w, i);
      }
    }
  }

  lemma WrittenAfter(db: Db, i: nat, it: Item, log: seq<Event>)
    requires i < |db.items| && Reconciled(it) && !Reconciled(db.items[i])
    ensures |Written(db.(items := db.items[i := it], log := log))| == |Written(db)| + if HasEffect(db, i) then 0 else 1
  {
    var db' := db.(items := db.items[i := it], log := log);
    assert Written(db') == if HasEffect(db, i) then Written(db) else Written(db) + {i};
  }

  lemma UncountedAfter(s: System, w: nat, i: nat)
    requires w < |s.workers| && !s.workers[w].pc.Counting?
    ensures |Uncounted(Set(s, w, Counting(i)))| == |Uncounted(s)| + if HasEffect(s.db, i) then 0 else 1
  {
    assert Uncounted(Set(s, w, Counting(i))) == if HasEffect(s.db, i) then Uncounted(s) else Uncounted(s) + {w};
  }

  /** Completing the reconciliation of `i` adds it to the tally and puts `w` before the counters. */
  lemma CompletionCounts(s: System, w: nat, i: nat)
    requires Counted(s) && w < |s.workers| && !s.workers[w].pc.Counting?
    requires i < |s.db.items| && s.db.items[i].kind.Reconcile? && !s.db.items[i].phase.Done?
    ensures var done := s.db.items[i].(phase := Done, hold := None);
            Counted(Set(s.(db := s.db.(items := s.db.items[i := done], log := s.db.log + [Completed(i)])), w, Counting(i)))
  {
    var done := s.db.items[i].(phase := Done, hold := None);
    var db' := s.db.(items := s.db.items[i := done], log := s.db.log + [Completed(i)]);
    WrittenAfter(s.db, i, done, db'.log);
    UncountedAfter(s.(db := db'), w, i);
    assert Uncounted(s.(db := db')) == Uncounted(s);
  }

  lemma CountKeepsCounted(s: System, m: Move)
    requires Core(s) && Counted(s) && m.Count?
    ensures Counted(Next(s, m))
  {
    var s' := Next(s, m);
    assert Written(s'.db) == Written(s.db);
    assert Uncounted(s') == Uncounted(s) - {m.w};
  }

  lemma OtherMovesKeepCounted(s: System, m: Move)
    requires Core(s) && Counted(s) && (m.Claim? || m.Finish? || m.Leave? || m.Heartbeat? || m.Sweep?)
    ensures Counted(Next(s, m))
  {
    OtherMovesKeepTally(s, m);
    SameTallyKeepsCounted(s, Next(s, m));
  }

  lemma {:induction false} ClaimKeepsTally(s: System, m: Move)
    requires Core(s) && m.Claim?
    ensures SameTally(s, Next(s, m))
  {
    if m.w < |s.workers| && s.workers[m.w].pc.Idle? && m.token !in s.issued { ClaimIs(s, m); }
  }

  lemma {:induction false} FinishKeepsTally(s: System, m: Move)
    requires Core(s) && m.Finish?
    ensures SameTally(s, Next(s, m))
  {
    if m.w < |s.workers| { assert WorkerOk(s, m.w); }
  }

  lemma {:induction false} OtherMovesKeepTally(s: System, m: Move)
    requires Core(s) && (m.Claim? || m.Finish? || m.Leave? || m.Heartbeat? || m.Sweep?)
    ensures SameTally(s, Next(s, m))
  {
    if m.Claim? { ClaimKeepsTally(s, m); } else if m.Finish? { FinishKeepsTally(s, m); }
  }
}
