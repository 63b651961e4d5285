/** Guarded fills over every run: any number of processes, crashes and interrupts anywhere. */
module CooldownTheorems {
  import opened Wrappers
  import opened Cooldown

  /** One guarded run, known by its reservation's token: the reading it reserved with, whether its tracker
      saw a submit, when submit clicks reached the browser, and how it ended. */
  datatype Fill = Fill(company: string, reservedAt: real, dispatched: bool, clicks: seq<real>, end: Option<Ending>)

  /** A call that has read the clock and not yet opened its transaction. */
  datatype Call = ToReserve(company: string, at: real) | ToCommit(token: nat, at: real)

  datatype System = System(ledger: Ledger, fills: map<nat, Fill>, calls: map<nat, Call>)

  datatype Event =
    | ReadToReserve(p: nat, company: string, now: real)
    | Reserve(p: nat)
    | SetFlag(token: nat)
    | Click(token: nat, now: real)
    | End(token: nat, ending: Ending)
    | ReadToCommit(p: nat, token: nat, now: real)
    | Commit(p: nat)
    | Drop(p: nat)
    | History(company: string, at: Option<real>, source: string)

  predicate Running(s: System, token: nat) {
    token in s.fills && s.fills[token].end.None?
  }

  predicate Reserving(s: System, p: nat) { p in s.calls && s.calls[p].ToReserve? }

  predicate Committing(s: System, p: nat) { p in s.calls && s.calls[p].ToCommit? }

  function With(s: System, token: nat, fill: Fill): System {
    s.(fills := s.fills[token := fill])
  }

  function Calling(s: System, p: nat, call: Call): System {
    s.(calls := s.calls[p := call])
  }

  function Without(s: System, p: nat): System {
    s.(calls := s.calls - {p})
  }

  function Begun(s: System, company: string, at: real): System {
    System(Reserved(s.ledger, company), s.fills[s.ledger.issued := Fill(company, at, false, [], None)], s.calls)
  }

  function Ended(s: System, t: nat, ending: Ending): System
    requires t in s.fills
  {
    System(AfterEnd(s.ledger, t, s.fills[t].dispatched, ending), s.fills[t := s.fills[t].(end := Some(ending))], s.calls)
  }

  /** One atomic step; a step that is not due does nothing. A crash is an interrupted end, or a dropped
      call. The wrapper, or the finishing of a confirmed code, commits a run that has ended. */
  ghost function Next(s: System, e: Event, cooldown: real): System {
    match e
    case ReadToReserve(p, company, now) => if p in s.calls then s else Calling(s, p, ToReserve(company, now))
    case Reserve(p) =>
      if !Reserving(s, p) then s
      else
        var c := s.calls[p];
        Without(if Free(s.ledger, c.company, c.at, cooldown) then Begun(s, c.company, c.at) else s, p)
    case SetFlag(t) => if Running(s, t) then With(s, t, s.fills[t].(dispatched := true)) else s
    case Click(t, now) =>
      if Running(s, t) && s.fills[t].dispatched then With(s, t, s.fills[t].(clicks := s.fills[t].clicks + [now])) else s
    case End(t, ending) => if Running(s, t) then Ended(s, t, ending) else s
    case ReadToCommit(p, t, now) =>
      if p !in s.calls && t in s.fills && s.fills[t].end.Some? then Calling(s, p, ToCommit(t, now)) else s
    case Commit(p) =>
      if Committing(s, p) then Without(s.(ledger := Committed(s.ledger, s.calls[p].token, s.calls[p].at)), p) else s
    case Drop(p) => Without(s, p)
    case History(company, at, source) => s.(ledger := Recorded(s.ledger, company, at, source))
  }

  const START := System(Ledger(map[], {}, 0), map[], map[])

  ghost function RunFrom(s: System, events: seq<Event>, cooldown: real): System {
    if events == [] then s
    else var n := |events| - 1; Next(RunFrom(s, events[..n], cooldown), events[n], cooldown)
  }

  ghost function Run(events: seq<Event>, cooldown: real): System { RunFrom(START, events, cooldown) }

  // ---- What every run keeps -------------------------------------------------------------------------------

  /** The reservation was given back: the run reported no acceptance, or raised before any submit. */
  predicate Freed(f: Fill) {
    f.end == Some(NoAcceptance) || (f.end == Some(Raised) && !f.dispatched)
  }

  predicate FillOk(l: Ledger, t: nat, f: Fill) {
    && t < l.issued
    && (f.clicks != [] ==> f.dispatched)
    && (t in l.rows <==> !Freed(f))
    && (t in l.rows ==> l.rows[t].company == f.company && (l.rows[t].status.Consumed? <==> l.rows[t].at.Some?))
    && (f.end.None? ==> IsPending(l, t))
  }

  /** Only ended runs are committed. */
  predicate CallOk(fills: map<nat, Fill>, c: Call) {
    c.ToCommit? ==> c.token in fills && fills[c.token].end.Some?
  }

  /** A held reservation was consumed a full cooldown before the company was reserved again. */
  predicate Apart(l: Ledger, fills: map<nat, Fill>, cooldown: real, t: nat, u: nat) {
    t in fills && u in fills && t < u && t in l.rows && fills[t].company == fills[u].company ==>
      l.rows[t].status.Consumed? && l.rows[t].at.Some? && l.rows[t].at.value + cooldown <= fills[u].reservedAt
  }

  ghost predicate Inv(s: System, cooldown: real) {
    && (forall t :: t in s.ledger.rows ==> t < s.ledger.issued)
    && (forall t :: t in s.fills ==> FillOk(s.ledger, t, s.fills[t]))
    && (forall t, u :: Apart(s.ledger, s.fills, cooldown, t, u))
    && (forall p :: p in s.calls ==> CallOk(s.fills, s.calls[p]))
  }

  lemma ReserveKeepsPairs(s: System, company: string, at: real, cooldown: real, t: nat, u: nat)
    requires Inv(s, cooldown) && Free(s.ledger, company, at, cooldown)
    ensures Apart(Begun(s, company, at).ledger, Begun(s, company, at).fills, cooldown, t, u)
  {
    var n := s.ledger.issued;
    assert Apart(s.ledger, s.fills, cooldown, t, u);
    if u == n && t in s.fills && t in s.ledger.rows {
      assert FillOk(s.ledger, t, s.fills[t]) && !Blocks(s.ledger.rows[t], company, at, cooldown);
    }
    if u in s.fills { assert FillOk(s.ledger, u, s.fills[u]); }
  }

  lemma ReserveKeepsInv(s: System, company: string, at: real, cooldown: real)
    requires Inv(s, cooldown) && Free(s.ledger, company, at, cooldown)
    ensures Inv(Begun(s, company, at), cooldown)
  {
    var n, x := s.ledger.issued, Begun(s, company, at);
    forall t, u ensures Apart(x.ledger, x.fills, cooldown, t, u) { ReserveKeepsPairs(s, company, at, cooldown, t, u); }
    forall t | t in x.fills ensures FillOk(x.ledger, t, x.fills[t]) { if t != n { assert FillOk(s.ledger, t, s.fills[t]); } }
    forall p | p in x.calls ensures CallOk(x.fills, x.calls[p]) {
      assert CallOk(s.fills, s.calls[p]);
      assert n in s.fills ==> FillOk(s.ledger, n, s.fills[n]);
    }
  }

  /** A running fill moved on: its row is pending, so no later fill of the company exists. */
  lemma FillKeepsInv(s: System, t: nat, f: Fill, cooldown: real)
    requires Inv(s, cooldown) && Running(s, t) && f.end.None? && f.company == s.fills[t].company && f.reservedAt == s.fills[t].reservedAt
    requires f.clicks != [] ==> f.dispatched
    ensures Inv(With(s, t, f), cooldown)
  {
    var fills := s.fills[t := f];
    assert FillOk(s.ledger, t, s.fills[t]);
    forall a, b ensures Apart(s.ledger, fills, cooldown, a, b) { assert Apart(s.ledger, s.fills, cooldown, a, b); }
    forall p | p in s.calls ensures CallOk(fills, s.calls[p]) { assert CallOk(s.fills, s.calls[p]); }
  }

  /** A pending row consumed or removed separates no other pair. */
  lemma RowKeepsPair(l: Ledger, m: Ledger, fills: map<nat, Fill>, gills: map<nat, Fill>, cooldown: real, t: nat, a: nat, b: nat)
    requires IsPending(l, t) && Apart(l, fills, cooldown, a, b)
    requires fills.Keys == gills.Keys
    requires forall x :: x in fills ==> gills[x].company == fills[x].company && gills[x].reservedAt == fills[x].reservedAt
    requires forall x :: x != t ==> (x in m.rows <==> x in l.rows) && (x in l.rows ==> m.rows[x] == l.rows[x])
    ensures Apart(m, gills, cooldown, a, b)
  {
  }

  lemma EndKeepsInv(s: System, t: nat, ending: Ending, cooldown: real)
    requires Inv(s, cooldown) && Running(s, t)
    ensures Inv(Ended(s, t, ending), cooldown)
  {
    var x := Ended(s, t, ending);
    assert FillOk(s.ledger, t, s.fills[t]);
    forall a, b ensures Apart(x.ledger, x.fills, cooldown, a, b) {
      assert Apart(s.ledger, s.fills, cooldown, a, b);
      RowKeepsPair(s.ledger, x.ledger, s.fills, x.fills, cooldown, t, a, b);
    }
    forall a | a in x.fills ensures FillOk(x.ledger, a, x.fills[a]) { assert FillOk(s.ledger, a, s.fills[a]); }
    forall p | p in x.calls ensures CallOk(x.fills, x.calls[p]) { assert CallOk(s.fills, s.calls[p]); }
  }

  lemma CommitKeepsInv(s: System, t: nat, at: real, cooldown: real)
    requires Inv(s, cooldown) && t in s.fills && s.fills[t].end.Some?
    ensures Inv(s.(ledger := Committed(s.ledger, t, at)), cooldown)
  {
    var l := Committed(s.ledger, t, at);
    forall a, b ensures Apart(l, s.fills, cooldown, a, b) {
      assert Apart(s.ledger, s.fills, cooldown, a, b);
      if IsPending(s.ledger, t) { RowKeepsPair(s.ledger, l, s.fills, s.fills, cooldown, t, a, b); }
    }
    forall a | a in s.fills ensures FillOk(l, a, s.fills[a]) { assert FillOk(s.ledger, a, s.fills[a]); }
  }

  lemma HistoryKeepsInv(s: System, company: string, at: Option<real>, source: string, cooldown: real)
    requires Inv(s, cooldown)
    ensures Inv(s.(ledger := Recorded(s.ledger, company, at, source)), cooldown)
  {
    var l := Recorded(s.ledger, company, at, source);
    forall a | a in s.fills ensures FillOk(l, a, s.fills[a]) { assert FillOk(s.ledger, a, s.fills[a]); }
    forall a, b ensures Apart(l, s.fills, cooldown, a, b) {
      assert Apart(s.ledger, s.fills, cooldown, a, b);
      if a in s.fills { assert FillOk(s.ledger, a, s.fills[a]); }
    }
  }

  lemma CallsKeepInv(s: System, calls: map<nat, Call>, cooldown: real)
    requires Inv(s, cooldown) && forall p :: p in calls ==> CallOk(s.fills, calls[p])
    ensures Inv(s.(calls := calls), cooldown)
  {
  }

  lemma WithoutKeepsInv(s: System, p: nat, cooldown: real)
    requires Inv(s, cooldown)
    ensures Inv(Without(s, p), cooldown)
  {
    var calls := s.calls - {p};
    forall q | q in calls ensures CallOk(s.fills, calls[q]) { assert CallOk(s.fills, s.calls[q]); }
    CallsKeepInv(s, calls, cooldown);
  }

  lemma CallingKeepsInv(s: System, p: nat, c: Call, cooldown: real)
    requires Inv(s, cooldown) && CallOk(s.fills, c)
    ensures Inv(Calling(s, p, c), cooldown)
  {
    var calls := s.calls[p := c];
    forall q | q in calls ensures CallOk(s.fills, calls[q]) { if q != p { assert CallOk(s.fills, s.calls[q]); } }
    CallsKeepInv(s, calls, cooldown);
  }

  lemma NextKeepsInv(s: System, e: Event, cooldown: real)
    requires Inv(s, cooldown)
    ensures Inv(Next(s, e, cooldown), cooldown)
  {
    match e
    case ReadToReserve(p, company, now) => if p !in s.calls { CallingKeepsInv(s, p, ToReserve(company, now), cooldown); }
    case Reserve(p) =>
      if Reserving(s, p) {
        var c := s.calls[p];
        if Free(s.ledger, c.company, c.at, cooldown) {
          ReserveKeepsInv(s, c.company, c.at, cooldown);
          WithoutKeepsInv(Begun(s, c.company, c.at), p, cooldown);
        } else {
          WithoutKeepsInv(s, p, cooldown);
        }
      }
    case SetFlag(t) => if Running(s, t) { FillKeepsInv(s, t, s.fills[t].(dispatched := true), cooldown); }
    case Click(t, now) =>
      if Running(s, t) && s.fills[t].dispatched { FillKeepsInv(s, t, s.fills[t].(clicks := s.fills[t].clicks + [now]), cooldown); }
    case End(t, ending) => if Running(s, t) { EndKeepsInv(s, t, ending, cooldown); }
    case ReadToCommit(p, t, now) =>
      if p !in s.calls && t in s.fills && s.fills[t].end.Some? { CallingKeepsInv(s, p, ToCommit(t, now), cooldown); }
    case Commit(p) =>
      if Committing(s, p) {
        var c := s.calls[p];
        assert CallOk(s.fills, c);
        CommitKeepsInv(s, c.token, c.at, cooldown);
        WithoutKeepsInv(s.(ledger := Committed(s.ledger, c.token, c.at)), p, cooldown);
      }
    case Drop(p) => WithoutKeepsInv(s, p, cooldown);
    case History(company, at, source) => HistoryKeepsInv(s, company, at, source, cooldown);
  }

  lemma {:induction false} RunKeepsInv(s: System, events: seq<Event>, cooldown: real)
    requires Inv(s, cooldown)
    ensures Inv(RunFrom(s, events, cooldown), cooldown)
  {
    if events != [] {
      var n := |events| - 1;
      RunKeepsInv(s, events[..n], cooldown);
      NextKeepsInv(RunFrom(s, events[..n], cooldown), events[n], cooldown);
    }
  }

  // ---- What a steady clock keeps --------------------------------------------------------------------------

  function Reading(e: Event): Option<real> {
    match e
    case ReadToReserve(_, _, now) => Some(now)
    case Click(_, now) => Some(now)
    case ReadToCommit(_, _, now) => Some(now)
    case _ => None
  }

  predicate NotAfter(e: Event, now: real) { Reading(e).Some? ==> Reading(e).value <= now }

  predicate InOrder(e: Event, later: Event) { Reading(later).Some? ==> NotAfter(e, Reading(later).value) }

  /** The clock is never set back: no reading of the run is below an earlier one. */
  predicate Steady(events: seq<Event>) {
    forall i, j :: 0 <= i < j < |events| ==> InOrder(events[i], events[j])
  }

  /** Clicks are not before the reading of the reservation, nor after that of the commit. */
  predicate TimesOk(l: Ledger, t: nat, f: Fill, now: real) {
    && f.reservedAt <= now
    && (forall i :: 0 <= i < |f.clicks| ==> f.reservedAt <= f.clicks[i] <= now)
    && (t in l.rows && l.rows[t].at.Some? ==> forall i :: 0 <= i < |f.clicks| ==> f.clicks[i] <= l.rows[t].at.value)
  }

  predicate ReadingOk(fills: map<nat, Fill>, c: Call, now: real) {
    c.at <= now && (c.ToCommit? && c.token in fills ==> forall i :: 0 <= i < |fills[c.token].clicks| ==> fills[c.token].clicks[i] <= c.at)
  }

  ghost predicate Timed(s: System, now: real) {
    && (forall t :: t in s.fills ==> TimesOk(s.ledger, t, s.fills[t], now))
    && (forall p :: p in s.calls ==> ReadingOk(s.fills, s.calls[p], now))
  }

  lemma ReserveKeepsTimes(s: System, p: nat, cooldown: real, now: real)
    requires Inv(s, cooldown) && Timed(s, now) && Reserving(s, p)
    ensures Timed(Next(s, Reserve(p), cooldown), now)
  {
    var n, c, x := s.ledger.issued, s.calls[p], Next(s, Reserve(p), cooldown);
    assert ReadingOk(s.fills, c, now);
    forall t | t in x.fills ensures TimesOk(x.ledger, t, x.fills[t], now) {
      if t in s.fills { assert FillOk(s.ledger, t, s.fills[t]) && TimesOk(s.ledger, t, s.fills[t], now); }
    }
    forall q | q in x.calls ensures ReadingOk(x.fills, x.calls[q], now) {
      assert CallOk(s.fills, s.calls[q]) && ReadingOk(s.fills, s.calls[q], now);
      if s.calls[q].ToCommit? { assert FillOk(s.ledger, s.calls[q].token, s.fills[s.calls[q].token]); }
    }
  }

  /** A running fill clicks: its row is undated and nothing commits it yet. */
  lemma ClickKeepsTimes(s: System, t: nat, cooldown: real, now: real)
    requires Inv(s, cooldown) && Timed(s, now) && Running(s, t)
    ensures Timed(Next(s, Click(t, now), cooldown), now)
  {
    var x := Next(s, Click(t, now), cooldown);
    assert FillOk(s.ledger, t, s.fills[t]);
    forall a | a in x.fills ensures TimesOk(x.ledger, a, x.fills[a], now) { assert TimesOk(s.ledger, a, s.fills[a], now); }
    forall q | q in x.calls ensures ReadingOk(x.fills, x.calls[q], now) {
      assert CallOk(s.fills, s.calls[q]) && ReadingOk(s.fills, s.calls[q], now);
    }
  }

  lemma CommitKeepsTimes(s: System, p: nat, cooldown: real, now: real)
    requires Inv(s, cooldown) && Timed(s, now) && Committing(s, p)
    ensures Timed(Next(s, Commit(p), cooldown), now)
  {
    var x := Next(s, Commit(p), cooldown);
    assert ReadingOk(s.fills, s.calls[p], now);
    forall a | a in x.fills ensures TimesOk(x.ledger, a, x.fills[a], now) { assert TimesOk(s.ledger, a, s.fills[a], now); }
    forall q | q in x.calls ensures ReadingOk(x.fills, x.calls[q], now) { assert ReadingOk(s.fills, s.calls[q], now); }
  }

  lemma HistoryKeepsTimes(s: System, company: string, at: Option<real>, source: string, cooldown: real, now: real)
    requires Inv(s, cooldown) && Timed(s, now)
    ensures Timed(Next(s, History(company, at, source), cooldown), now)
  {
    var x := Next(s, History(company, at, source), cooldown);
    forall a | a in x.fills ensures TimesOk(x.ledger, a, x.fills[a], now) {
      assert FillOk(s.ledger, a, s.fills[a]) && TimesOk(s.ledger, a, s.fills[a], now);
    }
  }

  /** The steps that neither read the clock nor date a row. */
  lemma PlainKeepsTimes(s: System, e: Event, cooldown: real, now: real)
    requires Inv(s, cooldown) && Timed(s, now) && (e.SetFlag? || e.End? || e.Drop?)
    ensures Timed(Next(s, e, cooldown), now)
  {
    var x := Next(s, e, cooldown);
    forall a | a in x.fills ensures TimesOk(x.ledger, a, x.fills[a], now) { assert TimesOk(s.ledger, a, s.fills[a], now); }
    forall q | q in x.calls ensures ReadingOk(x.fills, x.calls[q], now) { assert ReadingOk(s.fills, s.calls[q], now); }
  }

  lemma ReadKeepsTimes(s: System, e: Event, cooldown: real, now: real)
    requires Timed(s, now) && (e.ReadToReserve? || e.ReadToCommit?) && Reading(e) == Some(now)
    ensures Timed(Next(s, e, cooldown), now)
  {
    var x := Next(s, e, cooldown);
    forall q | q in x.calls ensures ReadingOk(x.fills, x.calls[q], now) {
      if q in s.calls { assert ReadingOk(s.fills, s.calls[q], now); }
      if e.ReadToCommit? && e.token in s.fills { assert TimesOk(s.ledger, e.token, s.fills[e.token], now); }
    }
  }

  lemma NextKeepsTimes(s: System, e: Event, cooldown: real, now: real)
    requires Inv(s, cooldown) && Timed(s, now) && (Reading(e).Some? ==> Reading(e).value == now)
    ensures Timed(Next(s, e, cooldown), now)
  {
    match e
    case ReadToReserve(_, _, _) => ReadKeepsTimes(s, e, cooldown, now);
    case Reserve(p) => if Reserving(s, p) { ReserveKeepsTimes(s, p, cooldown, now); }
    case Click(t, _) => if Running(s, t) { ClickKeepsTimes(s, t, cooldown, now); }
    case ReadToCommit(_, _, _) => ReadKeepsTimes(s, e, cooldown, now);
    case Commit(p) => if Committing(s, p) { CommitKeepsTimes(s, p, cooldown, now); }
    case History(company, at, source) => HistoryKeepsTimes(s, company, at, source, cooldown, now);
    case _ => PlainKeepsTimes(s, e, cooldown, now);
  }

  lemma TimedLater(s: System, now: real, later: real)
    requires Timed(s, now) && now <= later
    ensures Timed(s, later)
  {
    forall t | t in s.fills ensures TimesOk(s.ledger, t, s.fills[t], later) { assert TimesOk(s.ledger, t, s.fills[t], now); }
    forall p | p in s.calls ensures ReadingOk(s.fills, s.calls[p], later) { assert ReadingOk(s.fills, s.calls[p], now); }
  }

  lemma {:induction false} RunKeepsTimes(events: seq<Event>, cooldown: real, now: real)
    requires Steady(events) && forall i :: 0 <= i < |events| ==> NotAfter(events[i], now)
    ensures Timed(Run(events, cooldown), now)
  {
    if events != [] {
      var n := |events| - 1;
      var e, before := events[n], events[..n];
      var last := if Reading(e).Some? then Reading(e).value else now;
      assert NotAfter(e, now);
      forall i | 0 <= i < n ensures NotAfter(before[i], last) { assert InOrder(events[i], events[n]) && NotAfter(events[i], now); }
      RunKeepsTimes(before, cooldown, last);
      RunKeepsInv(START, before, cooldown);
      NextKeepsTimes(Run(before, cooldown), e, cooldown, last);
      TimedLater(Run(events, cooldown), last, now);
    }
  }

  /** Some time is not before any reading of the run. */
  lemma {:induction false} Latest(events: seq<Event>) returns (now: real)
    ensures forall i :: 0 <= i < |events| ==> NotAfter(events[i], now)
  {
    now := 0.0;
    for k := 0 to |events|
      invariant forall i :: 0 <= i < k ==> NotAfter(events[i], now)
    {
      if Reading(events[k]).Some? && Reading(events[k]).value > now { now := Reading(events[k]).value; }
    }
  }

  // ---- Theorems ------------------------------------------------------------------------------------------

  /** A reservation is given back exactly if its run reported a definite non-acceptance, or raised
      before any submit click was dispatched; then none ever reached the browser. */
  lemma FreedExactly(events: seq<Event>, cooldown: real, t: nat)
    requires t in Run(events, cooldown).fills
    ensures var s := Run(events, cooldown);
            && (t !in s.ledger.rows <==> Freed(s.fills[t]))
            && (t !in s.ledger.rows && s.fills[t].end == Some(Raised) ==> s.fills[t].clicks == [])
  {
    RunKeepsInv(START, events, cooldown);
    assert FillOk(Run(events, cooldown).ledger, t, Run(events, cooldown).fills[t]);
  }

  /** A submit click reached the browser and the run did not report a non-acceptance. */
  predicate PossiblyAccepted(f: Fill) {
    f.clicks != [] && f.end != Some(NoAcceptance)
  }

  /** Of two runs for one company, the earlier, possibly accepted one was committed a full cooldown
      before the later one reserved; while it is uncertain there is no later one. */
  lemma CommittedBeforeReserved(events: seq<Event>, cooldown: real, t: nat, u: nat)
    requires var s := Run(events, cooldown);
             t in s.fills && u in s.fills && t < u && s.fills[t].company == s.fills[u].company && PossiblyAccepted(s.fills[t])
    ensures var s := Run(events, cooldown);
            && t in s.ledger.rows && s.ledger.rows[t].status.Consumed? && s.ledger.rows[t].at.Some?
            && s.ledger.rows[t].at.value + cooldown <= s.fills[u].reservedAt
  {
    RunKeepsInv(START, events, cooldown);
    var s := Run(events, cooldown);
    assert FillOk(s.ledger, t, s.fills[t]) && Apart(s.ledger, s.fills, cooldown, t, u);
  }

  /** No two possibly accepted applications to one company were clicked within the cooldown. */
  predicate ClicksApart(s: System, cooldown: real) {
    forall t, u :: t in s.fills && u in s.fills && t < u && s.fills[t].company == s.fills[u].company
                   && PossiblyAccepted(s.fills[t]) && PossiblyAccepted(s.fills[u]) ==>
      forall i, j :: 0 <= i < |s.fills[t].clicks| && 0 <= j < |s.fills[u].clicks| ==>
        s.fills[t].clicks[i] + cooldown <= s.fills[u].clicks[j]
  }
}
