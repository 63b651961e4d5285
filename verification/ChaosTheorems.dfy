/** What the kill test promises of every run, and the exact number of steps an item it takes. */
module ChaosTheorems {
  import opened Wrappers
  import opened Queue
  import opened Chaos

  // ---- The balance at the end -----------------------------------------------------------------------

  function EffectItems(effects: seq<EffectKey>): set<nat> {
    set k | k in effects :: k.item
  }

  lemma {:induction false} EffectsAreItems(effects: seq<EffectKey>)
    requires forall j, k :: 0 <= j < k < |effects| ==> effects[j] != effects[k]
    ensures |EffectItems(effects)| == |effects|
  {
    if effects != [] {
      var front, last := effects[..|effects|-1], effects[|effects|-1];
      EffectsAreItems(front);
      assert effects == front + [last];
      assert last.item !in EffectItems(front);
      assert EffectItems(effects) == EffectItems(front) + {last.item};
    }
  }

  function Below(n: nat): (numbers: set<nat>)
    ensures forall i: nat :: i in numbers <==> i < n
    ensures |numbers| == n
  {
    if n == 0 then {} else Below(n - 1) + {n - 1}
  }

  lemma CountedIsBalanced(s: System)
    requires Core(s) && Ledger(s.db) && Counted(s)
    ensures Balanced(s)
  {
    if AllDone(s.db) && Settled(s) {
      var db := s.db;
      assert Uncounted(s) == {};
      forall i: nat ensures i in EffectItems(db.effects) <==> i < |db.items| && HasEffect(db, i) {
        if i in EffectItems(db.effects) {
          var k :| k in db.effects && k.item == i;
          assert k == Submit(i);
        }
      }
      forall i | i in Below(|db.items|) ensures i in EffectItems(db.effects) || i in Written(db) {
        assert ItemOk(s, i);
      }
      assert Below(|db.items|) == EffectItems(db.effects) + Written(db);
      EffectsAreItems(db.effects);
    }
  }

  // ---- The theorems -----------------------------------------------------------------------------------

  lemma {:induction false} RunKeeps(s: System, moves: seq<Move>)
    requires Core(s) && Ledger(s.db) && Counted(s)
    ensures var t := Run(s, moves); Core(t) && Ledger(t.db) && Counted(t)
  {
    if moves != [] {
      var t := Run(s, moves[..|moves|-1]);
      RunKeeps(s, moves[..|moves|-1]);
      NextKeepsCore(t, moves[|moves|-1]);
      NextKeepsLedger(t, moves[|moves|-1]);
      NextKeepsCounted(t, moves[|moves|-1]);
    }
  }

  /** With at least three steps an item, every run of any number of workers passes: whoever is
      killed, whichever leases lapse, and whatever the clock shows. */
  lemma {:induction false} EveryRunPasses(items: nat, maxAttempts: nat, workers: nat, steps: nat, now: real, moves: seq<Move>)
    requires steps >= 3
    ensures Passes(Run(Start(items, maxAttempts, workers, steps, now), moves))
  {
    var s := Start(items, maxAttempts, workers, steps, now);
    assert Uncounted(s) == {} && Written(s.db) == {};
    RunKeeps(s, moves);
    CountedIsBalanced(Run(s, moves));
  }

  lemma RunOf4(s: System, m1: Move, m2: Move, m3: Move, m4: Move)
    ensures Run(s, [m1, m2, m3, m4]) == Next(Next(Next(Next(s, m1), m2), m3), m4)
  {
    assert [m1, m2, m3, m4][..3] == [m1, m2, m3] && [m1, m2, m3][..2] == [m1, m2] && [m1, m2][..1] == [m1];
    assert Run(s, [m1]) == Next(s, m1);
    assert Run(s, [m1, m2]) == Next(Next(s, m1), m2);
  }

  /** Two workers and one item of two steps, once the first worker has applied the effect. */
  function EffectApplied(): System {
    System(Db([Item(Apply, Running, 1, 50, 0.0, Some(Hold((0, 0), 1, 1.0)))], {}, [Submit(0)], [Granted(0, Apply), Applied(Submit(0))]),
           [Worker(Working(Lease(0, (0, 0), 1), 1), 0), Worker(Idle, 0)], map[1 := 0], 0, 2)
  }

  lemma {:induction false} FirstApplication()
    ensures Next(Next(Start(1, 50, 2, 2, 0.0), Claim(0, 1, 1.0, 0.0, Some(0))), Iterate(0, false, 0.5)) == EffectApplied()
  {
    var lease, row := Lease(0, (0, 0), 1), Item(Apply, Running, 1, 50, 0.0, Some(Hold((0, 0), 1, 1.0)));
    var s1 := System(Db([row], {}, [], [Granted(0, Apply)]), [Worker(Working(lease, 0), 0), Worker(Idle, 0)], map[1 := 0], 0, 2);
    assert Next(Start(1, 50, 2, 2, 0.0), Claim(0, 1, 1.0, 0.0, Some(0))) == s1;
  }

  /** Two workers, one item, two steps: the first worker's lease lapses after the effect. */
  lemma {:induction false} SecondApplication() returns (moves: seq<Move>)
    ensures var log := Run(Start(1, 50, 2, 2, 0.0), moves).db.log;
            log != [] && log[|log| - 1] == AlreadyApplied(Submit(0))
  {
    var m1, m2, m3, m4 := Claim(0, 1, 1.0, 0.0, Some(0)), Iterate(0, false, 0.5), Claim(1, 2, 1.0, 2.0, Some(0)), Iterate(1, false, 2.5);
    FirstApplication();
    var s2 := EffectApplied();
    var again := s2.db.items[0].(attempts := 2, hold := Some(Hold((1, 0), 2, 3.0)));
    var s3 := System(Db([again], {}, [Submit(0)], s2.db.log + [Granted(0, Apply)]),
                     [s2.workers[0], Worker(Working(Lease(0, (1, 0), 2), 0), 0)], map[1 := 0, 2 := 1], 0, 2);
    assert Next(s2, m3) == s3;
    assert Next(s3, m4).db.log == s3.db.log + [AlreadyApplied(Submit(0))];
    RunOf4(Start(1, 50, 2, 2, 0.0), m1, m2, m3, m4);
    moves := [m1, m2, m3, m4];
  }

  /** One worker, one item, one step or none: the item is completed with no effect at all. */
  lemma {:induction false} LostEffect(steps: nat) returns (moves: seq<Move>)
    requires steps < 2
    ensures var s := Run(Start(1, 50, 1, steps, 0.0), moves);
            AllDone(s.db) && Settled(s) && |s.db.items| == 1 && s.db.effects == [] && s.reconciledWithoutEffect == 0
  {
    var s0 := Start(1, 50, 1, steps, 0.0);
    var m1, m2, m3, m4 := Claim(0, 1, 1.0, 0.0, Some(0)), Iterate(0, false, 0.5), Finish(0, 0.5), Leave(0);
    var lease, row := Lease(0, (0, 0), 1), Item(Apply, Running, 1, 50, 0.0, Some(Hold((0, 0), 1, 1.0)));
    var s1 := System(Db([row], {}, [], [Granted(0, Apply)]), [Worker(Working(lease, 0), 0)], map[1 := 0], 0, steps);
    assert Next(s0, m1) == s1;
    var s2 := s1.(workers := [Worker(Working(lease, steps), 0)]);
    assert Next(s1, m2) == s2;
    var s3 := s2.(db := Db([row.(phase := Done, hold := None)], {}, [], s1.db.log + [Completed(0)]), workers := [Worker(Idle, 0)]);
    assert Next(s2, m3) == s3;
    assert Next(s3, m4) == s3.(workers := [Worker(Exited(false), 0)]);
    RunOf4(s0, m1, m2, m3, m4);
    moves := [m1, m2, m3, m4];
  }

  /** The bound is exact: every run passes if and only if there are at least three steps an item. */
  lemma ThreeStepsAreNeeded(steps: nat)
    ensures (forall items: nat, maxAttempts: nat, workers: nat, now: real, moves: seq<Move> ::
               Passes(Run(Start(items, maxAttempts, workers, steps, now), moves))) <==> steps >= 3
  {
    if steps >= 3 {
      forall items: nat, maxAttempts: nat, workers: nat, now: real, moves: seq<Move>
        ensures Passes(Run(Start(items, maxAttempts, workers, steps, now), moves))
      {
        EveryRunPasses(items, maxAttempts, workers, steps, now, moves);
      }
    } else if steps == 2 {
      var moves := SecondApplication();
      assert !Passes(Run(Start(1, 50, 2, 2, 0.0), moves));
    } else {
      var moves := LostEffect(steps);
      assert !Passes(Run(Start(1, 50, 1, steps, 0.0), moves));
    }
  }

  /** The queue never refuses a worker: in its step loop a worker only ever sees a lost lease, so it
      fails exactly on completing a reconciliation whose lease it has lost. */
  lemma {:induction false} OnlyReconciliationFails(items: nat, maxAttempts: nat, workers: nat, steps: nat, now: real, moves: seq<Move>, m: Move, w: nat)
    requires steps >= 3
    ensures var s := Run(Start(items, maxAttempts, workers, steps, now), moves);
            var t := Next(s, m);
            w < |s.workers| ==>
              && w < |t.workers|
              && (t.workers[w].pc == Exited(true) && s.workers[w].pc != Exited(true)
                  <==> m.Reconcile? && m.w == w && s.workers[w].pc.Reconciling? && !Held(s.db, s.workers[w].pc.lease, m.now))
  {
    var s0 := Start(items, maxAttempts, workers, steps, now);
    assert Uncounted(s0) == {} && Written(s0.db) == {};
    RunKeeps(s0, moves);
    assert w < |Run(s0, moves).workers| ==> WorkerOk(Run(s0, moves), w);
  }

  // ---- Dead letters -------------------------------------------------------------------------------------

  /** How often the item was granted for reconciling, or for applying. */
  function GrantsAs(log: seq<Event>, i: nat, reconcile: bool): nat {
    if log == [] then 0
    else
      var e := log[|log| - 1];
      GrantsAs(log[..|log| - 1], i, reconcile) + if e.Granted? && e.item == i && e.kind.Reconcile? == reconcile then 1 else 0
  }

  lemma GrantsMore(log: seq<Event>, e: Event, i: nat, reconcile: bool)
    ensures GrantsAs(log + [e], i, reconcile)
            == GrantsAs(log, i, reconcile) + if e.Granted? && e.item == i && e.kind.Reconcile? == reconcile then 1 else 0
  {
  }

  /** The row's attempts are the grants of the item as what it is now; before it is reconciled, it never was. */
  predicate RowBudgeted(db: Db, i: nat, maxAttempts: nat)
    requires i < |db.items|
  {
    var it := db.items[i];
    && it.maxAttempts == maxAttempts
    && it.attempts == GrantsAs(db.log, i, it.kind.Reconcile?)
    && (!it.kind.Reconcile? ==> GrantsAs(db.log, i, true) == 0)
    && (it.phase.Dead? ==> it.attempts >= maxAttempts)
  }

  predicate Budgeted(db: Db, maxAttempts: nat) {
    forall i :: 0 <= i < |db.items| ==> RowBudgeted(db, i, maxAttempts)
  }

  lemma RecoveryKeepsBudget(db: Db, now: real, maxAttempts: nat)
    requires Budgeted(db, maxAttempts)
    ensures Budgeted(Recovered(db, now), maxAttempts)
  {
    forall i | 0 <= i < |db.items| ensures RowBudgeted(Recovered(db, now), i, maxAttempts) { assert RowBudgeted(db, i, maxAttempts); }
  }

  lemma GrantKeepsBudget(db: Db, pick: nat, owner: Owner, token: Token, expires: real, maxAttempts: nat)
    requires Budgeted(db, maxAttempts) && pick < |db.items| && !db.items[pick].phase.Dead?
    ensures Budgeted(Granting(db, pick, owner, token, expires), maxAttempts)
  {
    var db' := Granting(db, pick, owner, token, expires);
    forall i | 0 <= i < |db.items| ensures RowBudgeted(db', i, maxAttempts) {
      assert RowBudgeted(db, i, maxAttempts);
      GrantsMore(db.log, Granted(pick, db.items[pick].kind), i, true);
      GrantsMore(db.log, Granted(pick, db.items[pick].kind), i, false);
    }
  }

  /** Neither another log line nor a row changed in phase, lease or expiry alone. */
  lemma OtherKeepsBudget(db: Db, db': Db, maxAttempts: nat)
    requires Budgeted(db, maxAttempts) && |db'.items| == |db.items|
    requires db'.log == db.log || (exists e: Event :: !e.Granted? && db'.log == db.log + [e])
    requires forall i :: 0 <= i < |db.items| ==>
               && db'.items[i].(phase := Ready, hold := None) == db.items[i].(phase := Ready, hold := None)
               && (db'.items[i].phase.Dead? ==> db.items[i].phase.Dead?)
    ensures Budgeted(db', maxAttempts)
  {
    forall i | 0 <= i < |db.items| ensures RowBudgeted(db', i, maxAttempts) {
      assert RowBudgeted(db, i, maxAttempts);
      if e: Event :| !e.Granted? && db'.log == db.log + [e] {
        GrantsMore(db.log, e, i, true);
        GrantsMore(db.log, e, i, false);
      }
    }
  }

  lemma {:induction false} NextKeepsBudget(s: System, m: Move, maxAttempts: nat)
    requires Budgeted(s.db, maxAttempts)
    ensures Budgeted(Next(s, m).db, maxAttempts)
  {
    if m.Claim? {
      if m.w < |s.workers| && s.workers[m.w].pc.Idle? && m.token !in s.issued {
        ClaimIs(s, m);
        var db1 := Recovered(s.db, m.now);
        RecoveryKeepsBudget(s.db, m.now, maxAttempts);
        if m.pick.Some? && Claimable(db1, m.pick.value, m.now) {
          GrantKeepsBudget(db1, m.pick.value, (m.w, s.workers[m.w].incarnation), m.token, m.now + m.ttl, maxAttempts);
        }
      }
    } else if m.Sweep? {
      RecoveryKeepsBudget(s.db, m.now, maxAttempts);
    } else {
      var db' := Next(s, m).db;
      if db'.log != s.db.log { assert db'.log == s.db.log + [db'.log[|s.db.log|]]; }
      OtherKeepsBudget(s.db, db', maxAttempts);
    }
  }

  lemma {:induction false} RunKeepsBudget(s: System, moves: seq<Move>, maxAttempts: nat)
    requires Budgeted(s.db, maxAttempts)
    ensures Budgeted(Run(s, moves).db, maxAttempts)
  {
    if moves != [] {
      RunKeepsBudget(s, moves[..|moves|-1], maxAttempts);
      NextKeepsBudget(Run(s, moves[..|moves|-1]), moves[|moves|-1], maxAttempts);
    }
  }

  /** An item is dead-lettered only after it was claimed `maxAttempts` times as what it is, for applying
      or for reconciling. */
  lemma {:induction false} DeadOnlyAfterBudget(items: nat, maxAttempts: nat, workers: nat, steps: nat, now: real, moves: seq<Move>, i: nat)
    ensures var db := Run(Start(items, maxAttempts, workers, steps, now), moves).db;
            i < |db.items| && db.items[i].phase.Dead? ==> GrantsAs(db.log, i, db.items[i].kind.Reconcile?) >= maxAttempts
  {
    RunKeepsBudget(Start(items, maxAttempts, workers, steps, now), moves, maxAttempts);
    assert i < |Run(Start(items, maxAttempts, workers, steps, now), moves).db.items| ==>
        RowBudgeted(Run(Start(items, maxAttempts, workers, steps, now), moves).db, i, maxAttempts);
  }

  /** A sweep dead-letters exactly the lapsed items with no attempt left, but for those it turns into
      reconciliations: after it, an item is dead if and only if it was, or its lease had lapsed, it had
      been claimed `maxAttempts` times as what it is, and no intent of it waits to be reconciled. */
  lemma {:induction false} DeadLettersExactly(items: nat, maxAttempts: nat, workers: nat, steps: nat, start: real, moves: seq<Move>, now: real, i: nat)
    ensures var s := Run(Start(items, maxAttempts, workers, steps, start), moves);
            var t := Next(s, Sweep(now));
            i < |s.db.items| ==>
              var it := s.db.items[i];
              (t.db.items[i].phase.Dead?
               <==> it.phase.Dead?
                    || (it.phase.Running? && it.hold.Some? && it.hold.value.expires <= now
                        && GrantsAs(s.db.log, i, it.kind.Reconcile?) >= maxAttempts && !(!it.kind.Reconcile? && i in s.db.intents)))
  {
    var s := Run(Start(items, maxAttempts, workers, steps, start), moves);
    RunKeepsBudget(Start(items, maxAttempts, workers, steps, start), moves, maxAttempts);
    if i < |s.db.items| { assert RowBudgeted(s.db, i, maxAttempts); }
  }

  // ---- The log --------------------------------------------------------------------------------------------

  /** What the log says of one item is what the tables hold: its intent, its effect and its completion. */
  ghost predicate Told(db: Db, i: nat) {
    && (Intent(i) in db.log <==> i in db.intents)
    && (Applied(Submit(i)) in db.log <==> HasEffect(db, i))
    && (Completed(i) in db.log <==> i < |db.items| && db.items[i].phase.Done?)
  }

  lemma {:induction false} OneLineMore(db: Db, e: Event, x: Event)
    ensures x in db.log + [e] <==> x in db.log || x == e
  {
  }

  lemma {:induction false} ClaimKeepsTold(s: System, m: Move, i: nat)
    requires m.Claim? && m.w < |s.workers| && s.workers[m.w].pc.Idle? && m.token !in s.issued && Told(s.db, i)
    ensures Told(Next(s, m).db, i)
  {
    ClaimIs(s, m);
    var db1, db' := Recovered(s.db, m.now), Next(s, m).db;
    if db' != db1 {
      var e := Granted(m.pick.value, db1.items[m.pick.value].kind);
      OneLineMore(db1, e, Intent(i));
      OneLineMore(db1, e, Applied(Submit(i)));
      OneLineMore(db1, e, Completed(i));
    }
  }

  lemma {:induction false} NextKeepsTold(s: System, m: Move, i: nat)
    requires Told(s.db, i)
    ensures Told(Next(s, m).db, i)
  {
    if m.Claim? {
      if m.w < |s.workers| && s.workers[m.w].pc.Idle? && m.token !in s.issued { ClaimKeepsTold(s, m, i); }
    } else {
      var db' := Next(s, m).db;
      if db'.log != s.db.log {
        var e := db'.log[|s.db.log|];
        OneLineMore(s.db, e, Intent(i));
        OneLineMore(s.db, e, Applied(Submit(i)));
        OneLineMore(s.db, e, Completed(i));
      }
    }
  }

  /** The event log leaves nothing out and makes nothing up: over any run, with any number of steps, it
      holds an item's intent, effect and completion exactly when the tables do. */
  lemma {:induction false} LogTellsAll(items: nat, maxAttempts: nat, workers: nat, steps: nat, now: real, moves: seq<Move>, i: nat)
    ensures Told(Run(Start(items, maxAttempts, workers, steps, now), moves).db, i)
  {
    if moves != [] {
      var n := |moves| - 1;
      LogTellsAll(items, maxAttempts, workers, steps, now, moves[..n], i);
      NextKeepsTold(Run(Start(items, maxAttempts, workers, steps, now), moves[..n]), moves[n], i);
    }
  }

  // ---- Incarnations ------------------------------------------------------------------------------------------

  /** The move kills this worker in its loop. */
  predicate Kills(s: System, m: Move, w: nat) {
    && m.Iterate? && m.killed && m.w == w && w < |s.workers|
    && s.workers[w].pc.Working? && s.workers[w].pc.step < s.steps
  }

  function KillsOf(s: System, moves: seq<Move>, w: nat): nat {
    if moves == [] then 0
    else
      var n := |moves| - 1;
      KillsOf(s, moves[..n], w) + if Kills(Run(s, moves[..n]), moves[n], w) then 1 else 0
  }

  lemma {:induction false} KillCounts(s: System, m: Move, w: nat)
    requires w < |s.workers|
    ensures w < |Next(s, m).workers|
    ensures Next(s, m).workers[w].incarnation == s.workers[w].incarnation + if Kills(s, m, w) then 1 else 0
  {
  }

  /** A worker comes back under a new identity after every kill, and keeps its own otherwise. */
  lemma {:induction false} IncarnationsCountKills(items: nat, maxAttempts: nat, workers: nat, steps: nat, now: real, moves: seq<Move>, w: nat)
    requires w < workers
    ensures var s := Start(items, maxAttempts, workers, steps, now);
            w < |Run(s, moves).workers| && Run(s, moves).workers[w].incarnation == KillsOf(s, moves, w)
  {
    if moves != [] {
      var n := |moves| - 1;
      IncarnationsCountKills(items, maxAttempts, workers, steps, now, moves[..n], w);
      KillCounts(Run(Start(items, maxAttempts, workers, steps, now), moves[..n]), moves[n], w);
    }
  }
}
