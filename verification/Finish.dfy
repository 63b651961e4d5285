/** `finish_greenhouse_code` of `scripts/real_chrome_policy.py`: recording an observed confirmation in
    several durable steps, any of which may be the last before a crash. */
module Finish {
  import opened Wrappers
  import opened Cooldown

  /** A line of the run's ledger: the reservation it names and whether its result is `submitted`. */
  datatype Line = Line(token: nat, submitted: bool)

  datatype Lane = Applied | Elsewhere(name: string)

  datatype Card = Card(lane: Lane, revision: nat)

  /** What is durable: the pending file, the reservation's row, the ledger file and the linked card. */
  datatype State = State(pending: bool, row: Option<Row>, ledger: seq<Line>, card: Option<Card>)

  /** What the pending file says: the reservation's token and whether it names a pipeline card. */
  datatype Job = Job(token: nat, linked: bool)

  // ---- The durable steps -----------------------------------------------------------------------------

  function Count(ledger: seq<Line>, token: nat): nat {
    if ledger == [] then 0
    else
      var n := |ledger| - 1;
      Count(ledger[..n], token) + (if ledger[n] == Line(token, true) then 1 else 0)
  }

  function AfterCommit(s: State, now: real): State {
    if s.row.Some? && s.row.value.status.Pending? then s.(row := Some(s.row.value.(status := Consumed, at := Some(now)))) else s
  }

  function AfterRecord(s: State, job: Job, already: bool): State {
    if already then s else s.(ledger := s.ledger + [Line(job.token, true)])
  }

  function AfterMove(s: State): State {
    if s.card.Some? && !s.card.value.lane.Applied? then s.(card := Some(Card(Applied, s.card.value.revision + 1))) else s
  }

  /** One uninterrupted call. */
  function Finished(s: State, job: Job, now: real): State {
    var a := AfterRecord(AfterCommit(s, now), job, Line(job.token, true) in s.ledger);
    (if job.linked then AfterMove(a) else a).(pending := false)
  }

  class Records {
    var pending: bool
    var row: Option<Row>
    var ledger: seq<Line>
    var card: Option<Card>

    ghost function Contents(): State
      reads this
    {
      State(pending, row, ledger, card)
    }

    constructor (s: State)
      ensures Contents() == s
    {
      pending, row, ledger, card := s.pending, s.row, s.ledger, s.card;
    }

    method AlreadyRecorded(token: nat) returns (found: bool)
      ensures found <==> Line(token, true) in ledger
    {
      found := false;
      for k := 0 to |ledger|
        invariant found <==> Line(token, true) in ledger[..k]
      {
        assert ledger[..k + 1] == ledger[..k] + [ledger[k]];
        if ledger[k].token == token && ledger[k].submitted { found := true; }
      }
      assert ledger[..|ledger|] == ledger;
    }

    /** Fails, with nothing changed, for a missing file, a wrong receipt or an unknown reservation;
        a missing card fails only after the line is written. */
    method FinishGreenhouseCode(job: Job, receiptOk: bool, now: real) returns (ok: bool)
      modifies this
      ensures ok <==> old(pending) && receiptOk && old(row).Some? && (job.linked ==> old(card).Some?)
      ensures ok ==> Contents() == Finished(old(Contents()), job, now)
      ensures !ok && old(pending) && receiptOk && old(row).Some? ==>
                Contents() == AfterRecord(AfterCommit(old(Contents()), now), job, Line(job.token, true) in old(ledger))
      ensures !(old(pending) && receiptOk && old(row).Some?) ==> Contents() == old(Contents())
    {
      ok := false;
      if !pending || !receiptOk || row.None? { return; }
      if row.value.status.Pending? { row := Some(row.value.(status := Consumed, at := Some(now))); }
      var already := AlreadyRecorded(job.token);
      if !already { ledger := ledger + [Line(job.token, true)]; }
      if job.linked {
        if card.None? { return; }
        if !card.value.lane.Applied? { card := Some(Card(Applied, card.value.revision + 1)); }
      }
      pending := false;
      ok := true;
    }
  }

  // ---- Crashes and reruns -----------------------------------------------------------------------------------

  /** How far a call has come. */
  datatype Phase = Began | Found | Committed | Checked(already: bool) | Recorded | Looked(card: Card) | Moved

  datatype System = System(state: State, calls: map<nat, Phase>)

  datatype Event =
    | Begin(p: nat, receiptOk: bool)
    | Advance(p: nat, now: real)
    | Crash(p: nat)
    | OtherLine(line: Line)
    | EditCard(lane: Lane)

  /** The event begins a call. */
  predicate Starts(s: System, e: Event) {
    e.Begin? && s.state.pending && e.receiptOk && e.p !in s.calls
  }

  function To(s: System, p: nat, state: State, phase: Phase): System {
    System(state, s.calls[p := phase])
  }

  function Stopped(s: System, p: nat): System {
    s.(calls := s.calls - {p})
  }

  function Advanced(s: System, p: nat, now: real, job: Job): System
    requires p in s.calls
  {
    match s.calls[p]
    case Began => if s.state.row.None? then Stopped(s, p) else To(s, p, s.state, Found)
    case Found => To(s, p, AfterCommit(s.state, now), Committed)
    case Committed => To(s, p, s.state, Checked(Line(job.token, true) in s.state.ledger))
    case Checked(already) => To(s, p, AfterRecord(s.state, job, already), Recorded)
    case Recorded =>
      if !job.linked then To(s, p, s.state, Moved)
      else if s.state.card.None? then Stopped(s, p)
      else To(s, p, s.state, Looked(s.state.card.value))
    case Looked(card) =>
      if card.lane.Applied? then To(s, p, s.state, Moved)
      else if s.state.card == Some(card) then To(s, p, AfterMove(s.state), Moved)
      else Stopped(s, p)
    case Moved => Stopped(s, p).(state := s.state.(pending := false))
  }

  /** One atomic step; a step that is not due does nothing. Nobody else records this token as
      submitted or takes its card out of the applied lane. */
  function Next(s: System, e: Event, job: Job): System {
    match e
    case Begin(p, _) => if Starts(s, e) then To(s, p, s.state, Began) else s
    case Advance(p, now) => if p in s.calls then Advanced(s, p, now, job) else s
    case Crash(p) => Stopped(s, p)
    case OtherLine(line) => if line == Line(job.token, true) then s else s.(state := s.state.(ledger := s.state.ledger + [line]))
    case EditCard(lane) =>
      if s.state.card.Some? && !s.state.card.value.lane.Applied?
      then s.(state := s.state.(card := Some(Card(lane, s.state.card.value.revision + 1)))) else s
  }

  function RunFrom(s: System, events: seq<Event>, job: Job): System {
    if events == [] then s
    else var n := |events| - 1; Next(RunFrom(s, events[..n], job), events[n], job)
  }

  function Run(start: State, events: seq<Event>, job: Job): System { RunFrom(System(start, map[]), events, job) }

  /** The job is pending, and at most once recorded as submitted. */
  predicate Ready(start: State, job: Job) { start.pending && Count(start.ledger, job.token) <= 1 }

  /** Nothing is under way, or what is under way can no longer write the line: it is there already, or
      the reservation is unknown. All of it can be read before a call begins. */
  predicate Clear(s: System, job: Job) {
    s.calls == map[] || Line(job.token, true) in s.state.ledger || s.state.row.None?
  }

  /** Every call of the run begins when it is clear. */
  predicate Careful(s: System, events: seq<Event>, job: Job) {
    events == [] ||
    var n := |events| - 1;
    var before := RunFrom(s, events[..n], job);
    Careful(s, events[..n], job) && (Starts(before, events[n]) ==> Clear(before, job))
  }

  /** No call of the run begins while another one is under way. */
  predicate OneAtATime(s: System, events: seq<Event>, job: Job) {
    events == [] ||
    var n := |events| - 1;
    var before := RunFrom(s, events[..n], job);
    OneAtATime(s, events[..n], job) && (Starts(before, events[n]) ==> before.calls == map[])
  }

  lemma {:induction false} OneAtATimeIsCareful(s: System, events: seq<Event>, job: Job)
    requires OneAtATime(s, events, job)
    ensures Careful(s, events, job)
  {
    if events != [] { OneAtATimeIsCareful(s, events[..|events| - 1], job); }
  }

  // ---- What every careful run keeps -----------------------------------------------------------------------------

  predicate IsConsumed(s: State) { s.row.Some? && s.row.value.status.Consumed? }

  predicate CardDone(s: State, job: Job) {
    job.linked ==> s.card.Some? && s.card.value.lane.Applied?
  }

  /** The token is committed, exactly one line says so, and a linked card is in the applied lane. */
  predicate Complete(s: State, job: Job) {
    IsConsumed(s) && Count(s.ledger, job.token) == 1 && CardDone(s, job)
  }

  predicate Safe(s: State, job: Job) {
    Count(s.ledger, job.token) <= 1 && (!s.pending ==> Complete(s, job))
  }

  predicate PhaseOk(s: State, phase: Phase, job: Job) {
    match phase
    case Began => true
    case Found => s.row.Some?
    case Committed => IsConsumed(s)
    case Checked(already) => IsConsumed(s) && (already <==> Count(s.ledger, job.token) == 1)
    case Recorded => IsConsumed(s) && Count(s.ledger, job.token) == 1
    case Looked(card) => IsConsumed(s) && Count(s.ledger, job.token) == 1 && s.card.Some? && (card.lane.Applied? ==> CardDone(s, job))
    case Moved => Complete(s, job)
  }

  /** Before the line is written only one call is under way, unless none can get beyond its start. */
  predicate Inv(s: System, job: Job) {
    && Safe(s.state, job)
    && (Count(s.state.ledger, job.token) == 0 && s.state.row.Some? ==> forall p, q :: p in s.calls && q in s.calls ==> p == q)
    && (forall p :: p in s.calls ==> PhaseOk(s.state, s.calls[p], job))
  }

  lemma CountMore(ledger: seq<Line>, line: Line, token: nat)
    ensures Count(ledger + [line], token) == Count(ledger, token) + (if line == Line(token, true) then 1 else 0)
  {
  }

  lemma {:induction false} CountedExactly(ledger: seq<Line>, token: nat)
    ensures Line(token, true) in ledger <==> Count(ledger, token) > 0
  {
    if ledger != [] {
      var n := |ledger| - 1;
      CountedExactly(ledger[..n], token);
      assert ledger == ledger[..n] + [ledger[n]];
    }
  }

  /** Nothing recorded is taken back, and the count of lines stays. */
  predicate Follows(s: State, t: State, job: Job) {
    && (s.row.Some? ==> t.row.Some?) && (IsConsumed(s) ==> IsConsumed(t))
    && Count(t.ledger, job.token) == Count(s.ledger, job.token)
    && (s.card.Some? ==> t.card.Some?) && (CardDone(s, job) ==> CardDone(t, job))
  }

  lemma PhaseFollows(s: State, t: State, phase: Phase, job: Job)
    requires PhaseOk(s, phase, job) && Follows(s, t, job)
    ensures PhaseOk(t, phase, job)
  {
  }

  lemma OwnPhase(s: System, p: nat, now: real, job: Job)
    requires Inv(s, job) && p in s.calls
    ensures var t := Advanced(s, p, now, job);
            && Safe(t.state, job) && (s.state.row.Some? <==> t.state.row.Some?)
            && (p in t.calls ==> PhaseOk(t.state, t.calls[p], job))
            && (forall q :: q != p ==> (q in t.calls <==> q in s.calls) && (q in t.calls ==> t.calls[q] == s.calls[q]))
            && (Follows(s.state, t.state, job)
                || (s.calls[p] == Checked(false) && Count(s.state.ledger, job.token) == 0 && Count(t.state.ledger, job.token) == 1))
  {
    assert PhaseOk(s.state, s.calls[p], job);
    CountedExactly(s.state.ledger, job.token);
    CountMore(s.state.ledger, Line(job.token, true), job.token);
  }

  lemma AdvanceKeepsInv(s: System, p: nat, now: real, job: Job)
    requires Inv(s, job) && p in s.calls
    ensures Inv(Advanced(s, p, now, job), job)
  {
    var t := Advanced(s, p, now, job);
    OwnPhase(s, p, now, job);
    forall q | q in t.calls ensures PhaseOk(t.state, t.calls[q], job) {
      if q != p {
        assert PhaseOk(s.state, s.calls[q], job);
        assert PhaseOk(s.state, s.calls[p], job);
        PhaseFollows(s.state, t.state, s.calls[q], job);
      }
    }
  }

  lemma StateKeepsInv(s: System, t: State, job: Job)
    requires Inv(s, job) && Safe(t, job) && Follows(s.state, t, job) && (t.row.Some? ==> s.state.row.Some?)
    ensures Inv(s.(state := t), job)
  {
    forall p | p in s.calls ensures PhaseOk(t, s.calls[p], job) { PhaseFollows(s.state, t, s.calls[p], job); }
  }

  lemma BeginKeepsInv(s: System, p: nat, job: Job)
    requires Inv(s, job) && Clear(s, job)
    ensures Inv(To(s, p, s.state, Began), job)
  {
    CountedExactly(s.state.ledger, job.token);
  }

  lemma LineKeepsInv(s: System, line: Line, job: Job)
    requires Inv(s, job) && line != Line(job.token, true)
    ensures Inv(s.(state := s.state.(ledger := s.state.ledger + [line])), job)
  {
    CountMore(s.state.ledger, line, job.token);
    StateKeepsInv(s, s.state.(ledger := s.state.ledger + [line]), job);
  }

  lemma NextKeepsInv(s: System, e: Event, job: Job)
    requires Inv(s, job) && (Starts(s, e) ==> Clear(s, job))
    ensures Inv(Next(s, e, job), job)
  {
    match e
    case Begin(p, _) => if Starts(s, e) { BeginKeepsInv(s, p, job); }
    case Advance(p, now) => if p in s.calls { AdvanceKeepsInv(s, p, now, job); }
    case Crash(p) =>
    case OtherLine(line) =>
      if line != Line(job.token, true) { LineKeepsInv(s, line, job); }
    case EditCard(lane) =>
      if s.state.card.Some? && !s.state.card.value.lane.Applied? {
        StateKeepsInv(s, s.state.(card := Some(Card(lane, s.state.card.value.revision + 1))), job);
      }
  }

  lemma {:induction false} RunKeepsInv(s: System, events: seq<Event>, job: Job)
    requires Inv(s, job) && Careful(s, events, job)
    ensures Inv(RunFrom(s, events, job), job)
  {
    if events != [] {
      var n := |events| - 1;
      RunKeepsInv(s, events[..n], job);
      NextKeepsInv(RunFrom(s, events[..n], job), events[n], job);
    }
  }

  // ---- Theorems -------------------------------------------------------------------------------------------------

  /** However calls crash and are run again, if each begins when it is clear, the ledger never holds two
      submitted lines of the token, and once the pending file is gone everything is recorded. */
  lemma ExactlyOnce(start: State, events: seq<Event>, job: Job)
    requires Ready(start, job) && Careful(System(start, map[]), events, job)
    ensures Safe(Run(start, events, job).state, job)
  {
    RunKeepsInv(System(start, map[]), events, job);
  }

  lemma FinishedCompletes(s: State, job: Job, now: real)
    requires Count(s.ledger, job.token) <= 1 && s.row.Some? && (job.linked ==> s.card.Some?)
    ensures var t := Finished(s, job, now); !t.pending && Complete(t, job)
  {
    CountedExactly(s.ledger, job.token);
    CountMore(s.ledger, Line(job.token, true), job.token);
    assert Finished(s, job, now).ledger == if Line(job.token, true) in s.ledger then s.ledger else s.ledger + [Line(job.token, true)];
  }

  /** An undisturbed call after any such run leaves the pending file gone and all recorded. */
  lemma RerunCompletes(start: State, events: seq<Event>, job: Job, now: real)
    requires Ready(start, job) && Careful(System(start, map[]), events, job)
    requires var s := Run(start, events, job).state; s.pending && s.row.Some? && (job.linked ==> s.card.Some?)
    ensures var t := Finished(Run(start, events, job).state, job, now); !t.pending && Complete(t, job)
  {
    RunKeepsInv(System(start, map[]), events, job);
    FinishedCompletes(Run(start, events, job).state, job, now);
  }

  function Times(s: System, p: nat, now: real, n: nat, job: Job): System {
    if n == 0 then s else Next(Times(s, p, now, n - 1, job), Advance(p, now), job)
  }

  lemma FirstSteps(s: System, p: nat, now: real, job: Job)
    requires p in s.calls && s.calls[p].Began? && s.state.row.Some?
    ensures var t := AfterRecord(AfterCommit(s.state, now), job, Line(job.token, true) in s.state.ledger);
            Times(s, p, now, 4, job) == To(s, p, t, Recorded)
  {
    var already := Line(job.token, true) in s.state.ledger;
    assert Times(s, p, now, 1, job) == To(s, p, s.state, Found);
    assert Times(s, p, now, 2, job) == To(s, p, AfterCommit(s.state, now), Committed);
    assert Times(s, p, now, 3, job) == To(s, p, AfterCommit(s.state, now), Checked(already));
  }

  /** The steps of a call that nothing disturbs are the whole call. */
  lemma StepsAreTheCall(s: System, p: nat, now: real, job: Job)
    requires p in s.calls && s.calls[p].Began? && s.state.row.Some? && (job.linked ==> s.state.card.Some?)
    ensures Times(s, p, now, if job.linked then 7 else 6, job).state == Finished(s.state, job, now)
  {
    FirstSteps(s, p, now, job);
    var t := Times(s, p, now, 4, job).state;
    if job.linked {
      assert Times(s, p, now, 5, job) == To(s, p, t, Looked(t.card.value));
      assert Times(s, p, now, 6, job) == To(s, p, AfterMove(t), Moved);
    } else {
      assert Times(s, p, now, 5, job) == To(s, p, t, Moved);
    }
  }

  // ---- When a call may begin ---------------------------------------------------------------------------------------

  lemma {:induction false} RunOn(s: System, a: seq<Event>, b: seq<Event>, job: Job)
    ensures RunFrom(s, a + b, job) == RunFrom(RunFrom(s, a, job), b, job)
  {
    if b == [] {
      assert a + b == a;
    } else {
      var n := |b| - 1;
      assert (a + b)[..|a + b| - 1] == a + b[..n];
      RunOn(s, a, b[..n], job);
    }
  }

  lemma RunOne(s: System, e: Event, job: Job)
    ensures RunFrom(s, [e], job) == Next(s, e, job)
  {
    assert [e][..0] == [];
    assert RunFrom(s, [], job) == s;
  }

  /** No event of the run begins a call. */
  predicate Quiet(events: seq<Event>) { forall e :: e in events ==> !e.Begin? }

  lemma {:induction false} QuietIsCareful(s: System, events: seq<Event>, job: Job)
    requires Quiet(events)
    ensures Careful(s, events, job)
  {
    if events != [] {
      var n := |events| - 1;
      assert events[n] in events;
      QuietIsCareful(s, events[..n], job);
    }
  }

  /** A call that has not written the line yet. */
  predicate Early(phase: Phase) { phase.Began? || phase.Found? || phase.Committed? || phase == Checked(false) }

  function Left(phase: Phase): nat {
    match phase
    case Began => 3
    case Found => 2
    case Committed => 1
    case _ => 0
  }

  /** It comes to have looked for the line, which is not there yet; no other call has moved. */
  lemma {:induction false} LooksForLine(s: System, p: nat, job: Job) returns (events: seq<Event>)
    requires p in s.calls && Early(s.calls[p]) && s.state.row.Some? && Line(job.token, true) !in s.state.ledger
    ensures Quiet(events)
    ensures var t := RunFrom(s, events, job);
            t.calls == s.calls[p := Checked(false)] && t.state.ledger == s.state.ledger && t.state.row.Some?
    decreases Left(s.calls[p])
  {
    if s.calls[p].Checked? {
      events := [];
    } else {
      var t := Next(s, Advance(p, 0.0), job);
      RunOne(s, Advance(p, 0.0), job);
      var more := LooksForLine(t, p, job);
      RunOn(s, [Advance(p, 0.0)], more, job);
      events := [Advance(p, 0.0)] + more;
    }
  }

  /** Two calls that both look before either writes record the line twice. */
  lemma {:induction false} BothRecord(s: System, p: nat, q: nat, job: Job) returns (events: seq<Event>)
    requires p in s.calls && q in s.calls && p != q && Early(s.calls[p]) && Early(s.calls[q])
    requires s.state.row.Some? && Line(job.token, true) !in s.state.ledger
    ensures Quiet(events) && !Safe(RunFrom(s, events, job).state, job)
  {
    var line := Line(job.token, true);
    var a := LooksForLine(s, p, job);
    var t := RunFrom(s, a, job);
    var b := LooksForLine(t, q, job);
    RunOn(s, a, b, job);
    var u := RunFrom(t, b, job);
    var v := Next(u, Advance(p, 0.0), job);
    RunOne(u, Advance(p, 0.0), job);
    RunOn(s, a + b, [Advance(p, 0.0)], job);
    RunOne(v, Advance(q, 0.0), job);
    RunOn(s, a + b + [Advance(p, 0.0)], [Advance(q, 0.0)], job);
    events := a + b + [Advance(p, 0.0)] + [Advance(q, 0.0)];
    CountMore(u.state.ledger, line, job.token);
    CountMore(u.state.ledger + [line], line, job.token);
  }

  /** When a call may begin, exactly: after any careful run, a call that begins leaves every continuation
      in which no further call begins safe if and only if it begins when it is clear. */
  lemma {:induction false} ExactlyOnceExactly(start: State, events: seq<Event>, e: Event, job: Job)
    requires Ready(start, job) && Careful(System(start, map[]), events, job) && Starts(Run(start, events, job), e)
    ensures var s := Run(start, events, job);
            (forall more :: Quiet(more) ==> Safe(RunFrom(Next(s, e, job), more, job).state, job)) <==> Clear(s, job)
  {
    var s := Run(start, events, job);
    var t := Next(s, e, job);
    RunKeepsInv(System(start, map[]), events, job);
    CountedExactly(s.state.ledger, job.token);
    if Clear(s, job) {
      NextKeepsInv(s, e, job);
      forall more | Quiet(more) ensures Safe(RunFrom(t, more, job).state, job) {
        QuietIsCareful(t, more, job);
        RunKeepsInv(t, more, job);
      }
    } else {
      var q :| q in s.calls;
      assert PhaseOk(s.state, s.calls[q], job);
      var more := BothRecord(t, e.p, q, job);
      assert !Safe(RunFrom(t, more, job).state, job);
    }
  }

  // ---- What one call records --------------------------------------------------------------------------

  /** The reservation is consumed at the time it was, or else at the call's. */
  predicate ConsumedAt(r: Row, before: Row, now: real) {
    r.company == before.company && r.status.Consumed? && r.at == if before.status.Pending? then Some(now) else before.at
  }

  /** An undisturbed call that can finish removes the pending file, consumes the reservation with its own
      time unless it was consumed before, adds the token's line at the end exactly if there was none, and
      moves a linked card that is not there yet to the applied lane, one revision on. */
  lemma {:induction false} FinishRecords(s: State, job: Job, now: real)
    requires s.row.Some? && (job.linked ==> s.card.Some?)
    ensures var t := Finished(s, job, now);
            && !t.pending
            && t.row.Some? && ConsumedAt(t.row.value, s.row.value, now)
            && (exists k :: 0 <= k < |t.ledger| && t.ledger[k] == Line(job.token, true))
            && s.ledger <= t.ledger
            && |t.ledger| == |s.ledger| + (if exists k :: 0 <= k < |s.ledger| && s.ledger[k] == Line(job.token, true) then 0 else 1)
            && (!job.linked || s.card.value.lane.Applied? ==> t.card == s.card)
            && (job.linked && !s.card.value.lane.Applied? ==> t.card == Some(Card(Applied, s.card.value.revision + 1)))
  {
    var t := Finished(s, job, now);
    if Line(job.token, true) in s.ledger {
      assert t.ledger == s.ledger;
    } else {
      assert t.ledger == s.ledger + [Line(job.token, true)];
      assert t.ledger[|s.ledger|] == Line(job.token, true);
    }
  }
}
