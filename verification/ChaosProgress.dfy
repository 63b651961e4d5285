/** Workers get their work done: whatever the other workers do meanwhile, an item that is worked on
    undisturbed and in time ends done, with its effect applied, or reconciled. */
module ChaosProgress {
  import opened Wrappers
  import opened Queue
  import opened Chaos
  import opened ChaosTheorems

  // ---- What a worker needs ------------------------------------------------------------------------------

  /** The row can be claimed for applying: it waits, or its lease has lapsed before any intent and an attempt is left. */
  predicate CanApply(it: Item, intended: bool, now: real) {
    && Dispatches(it.kind) && it.availableAt <= now
    && (it.phase.Ready?
        || (it.phase.Running? && it.hold.Some? && it.hold.value.expires <= now && !intended && it.attempts < it.maxAttempts))
  }

  /** The row can be claimed for reconciling: it waits, its lease has lapsed with an attempt left, or the
      lease of an item whose intent is on record has lapsed. */
  predicate CanReconcile(it: Item, intended: bool, now: real) {
    || (it.kind.Reconcile? && it.availableAt <= now
        && (it.phase.Ready? || (it.phase.Running? && it.hold.Some? && it.hold.value.expires <= now && it.attempts < it.maxAttempts)))
    || (Dispatches(it.kind) && it.phase.Running? && it.hold.Some? && it.hold.value.expires <= now && intended)
  }

  /** The worker makes the move, rather than another one, a heartbeat or a sweep. */
  predicate Own(m: Move, w: nat) {
    match m
    case Claim(v, _, _, _, _) => v == w
    case Iterate(v, _, _) => v == w
    case Finish(v, _) => v == w
    case Reconcile(v, _) => v == w
    case Count(v) => v == w
    case Leave(v) => v == w
    case _ => false
  }

  function OwnMoves(moves: seq<Move>, w: nat): seq<Move> {
    if moves == [] then []
    else
      var n := |moves| - 1;
      OwnMoves(moves[..n], w) + if Own(moves[n], w) then [moves[n]] else []
  }

  /** Nothing in the move reads a clock at which a lease that lasts to the deadline has lapsed. */
  predicate InTime(m: Move, lease: Lease, deadline: real) {
    match m
    case Claim(_, _, _, now, _) => now < deadline
    case Iterate(_, _, now) => now < deadline
    case Finish(_, now) => now < deadline
    case Reconcile(_, now) => now < deadline
    case Sweep(now) => now < deadline
    case Heartbeat(l, _, now) => l == lease ==> now < deadline
    case _ => true
  }

  /** How long the lease lasts after the move: a heartbeat of this very lease renews it. */
  function After(m: Move, lease: Lease, deadline: real): real {
    if m.Heartbeat? && m.lease == lease then m.now + m.ttl else deadline
  }

  function Deadline(moves: seq<Move>, lease: Lease, deadline: real): real {
    if moves == [] then deadline
    else var n := |moves| - 1; After(moves[n], lease, Deadline(moves[..n], lease, deadline))
  }

  /** Every move comes before the lease, as last renewed, has lapsed. */
  predicate AllInTime(moves: seq<Move>, lease: Lease, deadline: real) {
    forall k :: 0 <= k < |moves| ==> InTime(moves[k], lease, Deadline(moves[..k], lease, deadline))
  }

  /** Row `i` carries the worker's lease, which lasts just to the deadline. */
  predicate Holds(s: System, w: nat, i: nat, token: Token, deadline: real) {
    && w < |s.workers| && i < |s.db.items| && s.db.items[i].phase.Running? && s.db.items[i].hold.Some?
    && s.db.items[i].hold.value.owner == (w, s.workers[w].incarnation)
    && s.db.items[i].hold.value.token == token && s.db.items[i].hold.value.expires == deadline
  }

  function LeaseOf(s: System, w: nat, i: nat, token: Token): Lease
    requires w < |s.workers|
  {
    Lease(i, (w, s.workers[w].incarnation), token)
  }

  /** The worker has made `k` iterations on its item. */
  predicate Applying(s: System, w: nat, i: nat, token: Token, deadline: real, k: nat) {
    && Holds(s, w, i, token, deadline) && Dispatches(s.db.items[i].kind)
    && s.workers[w].pc == Working(LeaseOf(s, w, i, token), k)
  }

  predicate Routing(s: System, w: nat, i: nat, token: Token, deadline: real) {
    && Holds(s, w, i, token, deadline) && s.db.items[i].kind.Reconcile?
    && s.workers[w].pc == Reconciling(LeaseOf(s, w, i, token))
  }

  // ---- The others do not disturb ------------------------------------------------------------------------------

  /** What is done stays done, what is recorded stays recorded, and the worker stays where it is. */
  predicate Later(s: System, t: System, w: nat) {
    && |t.db.items| == |s.db.items| && |t.workers| == |s.workers| && t.steps == s.steps
    && s.db.intents <= t.db.intents && (forall key :: key in s.db.effects ==> key in t.db.effects)
    && (forall j :: 0 <= j < |s.db.items| && s.db.items[j].phase.Done? ==> t.db.items[j] == s.db.items[j])
    && (w < |s.workers| ==> t.workers[w] == s.workers[w])
  }

  lemma {:induction false} OthersKeep(s: System, m: Move, w: nat)
    requires !Own(m, w)
    ensures Later(s, Next(s, m), w)
  {
  }

  lemma {:induction false} HeartbeatKeepsHold(s: System, m: Move, w: nat, i: nat, token: Token, deadline: real)
    requires Core(s) && Holds(s, w, i, token, deadline) && m.Heartbeat? && InTime(m, LeaseOf(s, w, i, token), deadline)
    ensures Holds(Next(s, m), w, i, token, After(m, LeaseOf(s, w, i, token), deadline))
    ensures Next(s, m).db.items[i].kind == s.db.items[i].kind
  {
  }

  lemma {:induction false} RecoveryKeepsHold(s: System, m: Move, w: nat, i: nat, token: Token, deadline: real)
    requires Core(s) && Holds(s, w, i, token, deadline) && !Own(m, w) && (m.Claim? || m.Sweep?) && m.now < deadline
    ensures Holds(Next(s, m), w, i, token, deadline) && Next(s, m).db.items[i].kind == s.db.items[i].kind
  {
  }

  /** Only the holder of the lease, a lapse or a heartbeat of the lease changes the row. */
  lemma {:induction false} OthersKeepHold(s: System, m: Move, w: nat, i: nat, token: Token, deadline: real)
    requires Core(s) && Holds(s, w, i, token, deadline) && !Own(m, w) && InTime(m, LeaseOf(s, w, i, token), deadline)
    requires s.workers[w].pc.Working? || s.workers[w].pc.Reconciling?
    requires s.workers[w].pc.lease == LeaseOf(s, w, i, token)
    ensures Holds(Next(s, m), w, i, token, After(m, LeaseOf(s, w, i, token), deadline))
    ensures Next(s, m).db.items[i].kind == s.db.items[i].kind
  {
    if m.Heartbeat? {
      HeartbeatKeepsHold(s, m, w, i, token, deadline);
    } else if m.Claim? || m.Sweep? {
      RecoveryKeepsHold(s, m, w, i, token, deadline);
    } else {
      assert WorkerOk(s, w);
      if (m.Iterate? || m.Finish? || m.Reconcile?) && m.w < |s.workers| { assert WorkerOk(s, m.w); }
    }
  }

  /** Only an iteration of the holder applies the item's effect. */
  lemma {:induction false} OthersKeepEffect(s: System, m: Move, w: nat, i: nat, token: Token, deadline: real)
    requires Core(s) && Routing(s, w, i, token, deadline) && !Own(m, w)
    ensures HasEffect(Next(s, m).db, i) <==> HasEffect(s.db, i)
  {
    assert WorkerOk(s, w);
    if m.Iterate? && m.w < |s.workers| { assert WorkerOk(s, m.w); }
  }

  // ---- Applying --------------------------------------------------------------------------------------------------

  /** The claimed row is the worker's to apply. */
  lemma {:induction false} ClaimApplies(s: System, w: nat, i: nat, token: Token, ttl: real, now: real)
    requires Core(s) && w < |s.workers| && s.workers[w].pc.Idle? && token !in s.issued
    requires i < |s.db.items| && CanApply(s.db.items[i], i in s.db.intents, now)
    ensures var t := Next(s, Claim(w, token, ttl, now, Some(i)));
            Applying(t, w, i, token, now + ttl, 0) && LeaseOf(t, w, i, token) == LeaseOf(s, w, i, token) && t.steps == s.steps
  {
  }

  /** One iteration that is not killed and in time, wherever it stands in the loop. */
  lemma {:induction false} IterationApplies(s: System, w: nat, i: nat, token: Token, deadline: real, k: nat, now: real)
    requires Core(s) && Applying(s, w, i, token, deadline, k) && k < s.steps && now < deadline
    ensures Applying(Next(s, Iterate(w, false, now)), w, i, token, deadline, k + 1)
  {
    assert WorkerOk(s, w);
  }

  /** The item is done, its intent and its effect are on record, and its worker is idle. */
  predicate Finished(s: System, w: nat, i: nat) {
    && w < |s.workers| && s.workers[w].pc.Idle?
    && i < |s.db.items| && s.db.items[i].phase.Done? && s.db.items[i].hold.None?
    && i in s.db.intents && HasEffect(s.db, i)
  }

  lemma {:induction false} FinishApplies(s: System, w: nat, i: nat, token: Token, deadline: real, now: real)
    requires Core(s) && Applying(s, w, i, token, deadline, s.steps) && now < deadline
    ensures Finished(Next(s, Finish(w, now)), w, i)
  {
    assert WorkerOk(s, w);
  }

  /** The worker's own moves are the loop, not killed, and the finish, as far as they have come. */
  predicate Loop(own: seq<Move>, w: nat, steps: nat) {
    && |own| <= steps + 1
    && forall k :: 0 <= k < |own| ==> if k < steps then own[k].Iterate? && !own[k].killed else own[k].Finish?
  }

  lemma {:induction false} PrefixInTime(moves: seq<Move>, n: nat, lease: Lease, deadline: real)
    requires AllInTime(moves, lease, deadline) && n <= |moves|
    ensures AllInTime(moves[..n], lease, deadline)
    ensures n < |moves| ==> InTime(moves[n], lease, Deadline(moves[..n], lease, deadline))
  {
    forall k | 0 <= k < n ensures InTime(moves[..n][k], lease, Deadline(moves[..n][..k], lease, deadline)) {
      assert moves[..n][..k] == moves[..k];
    }
  }

  /** How far the worker has come, on a lease that lasts to the deadline. */
  predicate Comes(t: System, w: nat, i: nat, token: Token, lease: Lease, deadline: real, k: nat) {
    && Core(t)
    && if k <= t.steps then Applying(t, w, i, token, deadline, k) && LeaseOf(t, w, i, token) == lease else Finished(t, w, i)
  }

  lemma {:induction false} OneMoreMove(t: System, m: Move, w: nat, i: nat, token: Token, lease: Lease, deadline: real, k: nat)
    requires Comes(t, w, i, token, lease, deadline, k) && InTime(m, lease, deadline)
    requires Own(m, w) ==> k <= t.steps && if k < t.steps then m.Iterate? && !m.killed else m.Finish?
    ensures Comes(Next(t, m), w, i, token, lease, After(m, lease, deadline), if Own(m, w) then k + 1 else k)
    ensures Next(t, m).steps == t.steps
  {
    NextKeepsCore(t, m);
    if Own(m, w) {
      if k < t.steps { IterationApplies(t, w, i, token, deadline, k, m.now); } else { FinishApplies(t, w, i, token, deadline, m.now); }
    } else {
      OthersKeep(t, m, w);
      if k <= t.steps { OthersKeepHold(t, m, w, i, token, deadline); }
    }
  }

  lemma {:induction false} LoopApplies(s: System, moves: seq<Move>, w: nat, i: nat, token: Token, deadline: real)
    requires Core(s) && Applying(s, w, i, token, deadline, 0) && AllInTime(moves, LeaseOf(s, w, i, token), deadline)
    requires Loop(OwnMoves(moves, w), w, s.steps)
    ensures var lease := LeaseOf(s, w, i, token);
            && Run(s, moves).steps == s.steps
            && Comes(Run(s, moves), w, i, token, lease, Deadline(moves, lease, deadline), |OwnMoves(moves, w)|)
  {
    if moves != [] {
      var n, lease := |moves| - 1, LeaseOf(s, w, i, token);
      var own := OwnMoves(moves[..n], w);
      assert own == OwnMoves(moves, w)[..|own|];
      PrefixInTime(moves, n, lease, deadline);
      LoopApplies(s, moves[..n], w, i, token, deadline);
      if Own(moves[n], w) { assert OwnMoves(moves, w)[|own|] == moves[n]; }
      OneMoreMove(Run(s, moves[..n]), moves[n], w, i, token, lease, Deadline(moves[..n], lease, deadline), |own|);
    }
  }

  lemma {:induction false} ClaimedIsDone(s: System, w: nat, i: nat, token: Token, ttl: real, now: real, moves: seq<Move>)
    requires Core(s) && w < |s.workers| && s.workers[w].pc.Idle? && token !in s.issued
    requires i < |s.db.items| && CanApply(s.db.items[i], i in s.db.intents, now)
    requires AllInTime(moves, LeaseOf(s, w, i, token), now + ttl)
    requires |OwnMoves(moves, w)| == s.steps + 1 && Loop(OwnMoves(moves, w), w, s.steps)
    ensures Finished(Run(Next(s, Claim(w, token, ttl, now, Some(i))), moves), w, i)
  {
    var claim := Claim(w, token, ttl, now, Some(i));
    NextKeepsCore(s, claim);
    ClaimApplies(s, w, i, token, ttl, now);
    LoopApplies(Next(s, claim), moves, w, i, token, now + ttl);
  }

  /** In any state reached by any run, an idle worker that claims a row for applying, makes its unkilled
      iterations and finishes, all before the lease as last renewed lapses, leaves the item done with its
      intent and its effect on record, whatever moves of other workers, heartbeats and sweeps come in
      between. */
  lemma {:induction false} WorkedItemIsDone(items: nat, maxAttempts: nat, workers: nat, steps: nat, start: real, before: seq<Move>,
                                            w: nat, i: nat, token: Token, ttl: real, now: real, moves: seq<Move>)
    requires steps >= 3
    requires var s := Run(Start(items, maxAttempts, workers, steps, start), before);
             && w < |s.workers| && s.workers[w].pc.Idle? && token !in s.issued
             && i < |s.db.items| && CanApply(s.db.items[i], i in s.db.intents, now)
             && AllInTime(moves, LeaseOf(s, w, i, token), now + ttl)
    requires |OwnMoves(moves, w)| == steps + 1 && Loop(OwnMoves(moves, w), w, steps)
    ensures var s := Run(Start(items, maxAttempts, workers, steps, start), before);
            Finished(Run(Next(s, Claim(w, token, ttl, now, Some(i))), moves), w, i)
  {
    var s0 := Start(items, maxAttempts, workers, steps, start);
    assert Uncounted(s0) == {} && Written(s0.db) == {};
    RunKeeps(s0, before);
    RunKeepsSteps(s0, before);
    ClaimedIsDone(Run(s0, before), w, i, token, ttl, now, moves);
  }

  lemma {:induction false} RunKeepsSteps(s: System, moves: seq<Move>)
    ensures Run(s, moves).steps == s.steps
  {
    if moves != [] { RunKeepsSteps(s, moves[..|moves| - 1]); }
  }

  // ---- Reconciling -------------------------------------------------------------------------------------------------

  lemma {:induction false} ClaimRoutes(s: System, w: nat, i: nat, token: Token, ttl: real, now: real)
    requires Core(s) && w < |s.workers| && s.workers[w].pc.Idle? && token !in s.issued
    requires i < |s.db.items| && CanReconcile(s.db.items[i], i in s.db.intents, now)
    ensures var t := Next(s, Claim(w, token, ttl, now, Some(i)));
            Routing(t, w, i, token, now + ttl) && LeaseOf(t, w, i, token) == LeaseOf(s, w, i, token) && (HasEffect(t.db, i) <==> HasEffect(s.db, i))
  {
  }

  /** The item is done and waits to be counted, once the worker has completed it. */
  predicate Routed(s: System, w: nat, i: nat, applied: bool) {
    && w < |s.workers| && s.workers[w].pc == Counting(i) && i < |s.db.items|
    && s.db.items[i].phase.Done? && s.db.items[i].kind.Reconcile? && (HasEffect(s.db, i) <==> applied)
  }

  /** A done reconciliation gets no effect any more. */
  lemma {:induction false} OthersKeepRouted(s: System, m: Move, w: nat, i: nat)
    requires Core(s) && i < |s.db.items| && s.db.items[i].phase.Done? && s.db.items[i].kind.Reconcile?
    ensures HasEffect(Next(s, m).db, i) <==> HasEffect(s.db, i)
  {
    if m.Iterate? && m.w < |s.workers| { assert WorkerOk(s, m.w); }
    assert ItemOk(s, i);
  }

  /** The worker's own moves complete the reconciliation and count it, as far as they have come. */
  predicate Route(own: seq<Move>) {
    && |own| <= 2 && (|own| > 0 ==> own[0].Reconcile?) && (|own| > 1 ==> own[1].Count?)
  }

  predicate Reconciled(s: System, w: nat, i: nat, applied: bool) {
    && w < |s.workers| && s.workers[w].pc.Idle? && i < |s.db.items|
    && s.db.items[i].phase.Done? && s.db.items[i].kind.Reconcile? && (HasEffect(s.db, i) <==> applied)
  }

  lemma {:induction false} RouteCompletes(s: System, moves: seq<Move>, w: nat, i: nat, token: Token, deadline: real)
    requires Core(s) && Routing(s, w, i, token, deadline) && AllInTime(moves, LeaseOf(s, w, i, token), deadline)
    requires Route(OwnMoves(moves, w))
    ensures var t, k, last := Run(s, moves), |OwnMoves(moves, w)|, Deadline(moves, LeaseOf(s, w, i, token), deadline);
            && Core(t)
            && if k == 0 then
                 && Routing(t, w, i, token, last) && LeaseOf(t, w, i, token) == LeaseOf(s, w, i, token)
                 && (HasEffect(t.db, i) <==> HasEffect(s.db, i))
               else if k == 1 then Routed(t, w, i, HasEffect(s.db, i))
               else Reconciled(t, w, i, HasEffect(s.db, i))
  {
    if moves != [] {
      var n := |moves| - 1;
      var before, m := moves[..n], moves[n];
      var own := OwnMoves(before, w);
      assert own == OwnMoves(moves, w)[..|own|];
      PrefixInTime(moves, n, LeaseOf(s, w, i, token), deadline);
      RouteCompletes(s, before, w, i, token, deadline);
      var t, last := Run(s, before), Deadline(before, LeaseOf(s, w, i, token), deadline);
      NextKeepsCore(t, m);
      if Own(m, w) {
        assert OwnMoves(moves, w)[|own|] == m;
      } else {
        OthersKeep(t, m, w);
        if |own| == 0 {
          OthersKeepHold(t, m, w, i, token, last);
          OthersKeepEffect(t, m, w, i, token, last);
        } else {
          OthersKeepRouted(t, m, w, i);
        }
      }
    }
  }

  lemma {:induction false} ClaimedIsReconciled(s: System, w: nat, i: nat, token: Token, ttl: real, now: real, moves: seq<Move>)
    requires Core(s) && w < |s.workers| && s.workers[w].pc.Idle? && token !in s.issued
    requires i < |s.db.items| && CanReconcile(s.db.items[i], i in s.db.intents, now)
    requires AllInTime(moves, LeaseOf(s, w, i, token), now + ttl) && |OwnMoves(moves, w)| == 2 && Route(OwnMoves(moves, w))
    ensures Reconciled(Run(Next(s, Claim(w, token, ttl, now, Some(i))), moves), w, i, HasEffect(s.db, i))
  {
    var claim := Claim(w, token, ttl, now, Some(i));
    NextKeepsCore(s, claim);
    ClaimRoutes(s, w, i, token, ttl, now);
    RouteCompletes(Next(s, claim), moves, w, i, token, now + ttl);
  }

  /** The same for a row claimed for reconciling: it is completed and counted, and its effect is neither
      applied nor taken back. */
  lemma {:induction false} ReconciledItemIsDone(items: nat, maxAttempts: nat, workers: nat, steps: nat, start: real, before: seq<Move>,
                                                w: nat, i: nat, token: Token, ttl: real, now: real, moves: seq<Move>)
    requires steps >= 3
    requires var s := Run(Start(items, maxAttempts, workers, steps, start), before);
             && w < |s.workers| && s.workers[w].pc.Idle? && token !in s.issued
             && i < |s.db.items| && CanReconcile(s.db.items[i], i in s.db.intents, now)
             && AllInTime(moves, LeaseOf(s, w, i, token), now + ttl)
    requires |OwnMoves(moves, w)| == 2 && Route(OwnMoves(moves, w))
    ensures var s := Run(Start(items, maxAttempts, workers, steps, start), before);
            Reconciled(Run(Next(s, Claim(w, token, ttl, now, Some(i))), moves), w, i, HasEffect(s.db, i))
  {
    var s0 := Start(items, maxAttempts, workers, steps, start);
    assert Uncounted(s0) == {} && Written(s0.db) == {};
    RunKeeps(s0, before);
    ClaimedIsReconciled(Run(s0, before), w, i, token, ttl, now, moves);
  }

  /** A worker that has lost its lease leaves the item, and changes nothing, at its next call to the queue:
      for the intent, for the effect or to finish. */
  lemma {:induction false} LostLeaseIsLeft(s: System, w: nat, m: Move)
    requires w < |s.workers| && s.workers[w].pc.Working?
    requires m.Iterate? ==> !m.killed && s.workers[w].pc.step < s.steps
                            && (s.workers[w].pc.step == s.steps - 3 || s.workers[w].pc.step == s.steps - 2)
    requires m.Finish? ==> s.workers[w].pc.step >= s.steps
    requires (m.Iterate? || m.Finish?) && m.w == w && !Held(s.db, s.workers[w].pc.lease, m.now)
    ensures Next(s, m).db == s.db && Next(s, m).workers[w].pc.Idle?
  {
  }
}
