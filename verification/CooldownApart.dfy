/** How far apart the clicks of one company are: what keeps them a cooldown apart, and exactly which
    commit lets them come closer. */
module CooldownApart {
  import opened Wrappers
  import opened Cooldown
  import opened CooldownTheorems

  // ---- What keeps the clicks apart ---------------------------------------------------------------------------

  /** A row that keeps the company's next reservation a full cooldown after the click. */
  predicate Later(r: Row, company: string, click: real) {
    r.company == company && r.status.Consumed? && (r.at.None? || r.at.value >= click)
  }

  predicate Covered(l: Ledger, company: string, click: real) {
    exists t :: t in l.rows && Later(l.rows[t], company, click)
  }

  predicate AllCovered(l: Ledger, f: Fill) {
    forall i :: 0 <= i < |f.clicks| ==> Covered(l, f.company, f.clicks[i])
  }

  /** The reading the call commits with is not before a click of its run, or another application of the
      company, undated or no earlier than that click, is on record. */
  predicate InTime(s: System, p: nat)
    requires Committing(s, p)
  {
    var c := s.calls[p];
    c.token in s.fills ==> AllCovered(Committed(s.ledger, c.token, c.at), s.fills[c.token])
  }

  /** No click is before the reading its run reserved with, and no reservation is committed too early. */
  predicate Timely(s: System, e: Event) {
    match e
    case Click(t, now) => Running(s, t) ==> s.fills[t].reservedAt <= now
    case Commit(p) => Committing(s, p) && IsPending(s.ledger, s.calls[p].token) ==> InTime(s, p)
    case _ => true
  }

  ghost predicate TimelyRun(s: System, events: seq<Event>, cooldown: real) {
    events == [] ||
    var n := |events| - 1;
    TimelyRun(s, events[..n], cooldown) && Timely(RunFrom(s, events[..n], cooldown), events[n])
  }

  /** A run that holds its reservation clicked a cooldown before any later run of the company reserved. */
  predicate ClickedBefore(s: System, cooldown: real, t: nat, u: nat) {
    t in s.fills && u in s.fills && t < u && t in s.ledger.rows && s.fills[t].company == s.fills[u].company ==>
      forall i :: 0 <= i < |s.fills[t].clicks| ==> s.fills[t].clicks[i] + cooldown <= s.fills[u].reservedAt
  }

  predicate ClicksOk(l: Ledger, t: nat, f: Fill) {
    && (forall i :: 0 <= i < |f.clicks| ==> f.reservedAt <= f.clicks[i])
    && (t in l.rows && l.rows[t].status.Consumed? ==> AllCovered(l, f))
  }

  ghost predicate Separated(s: System, cooldown: real) {
    && (forall t :: t in s.fills ==> ClicksOk(s.ledger, t, s.fills[t]))
    && (forall t, u :: ClickedBefore(s, cooldown, t, u))
  }

  /** Consumed rows are never changed or removed. */
  predicate Grows(l: Ledger, m: Ledger) {
    forall t :: t in l.rows && l.rows[t].status.Consumed? ==> t in m.rows && m.rows[t] == l.rows[t]
  }

  lemma CoveredGrows(l: Ledger, m: Ledger, f: Fill)
    requires Grows(l, m) && AllCovered(l, f)
    ensures AllCovered(m, f)
  {
    forall i | 0 <= i < |f.clicks| ensures Covered(m, f.company, f.clicks[i]) {
      assert Covered(l, f.company, f.clicks[i]);
      var t :| t in l.rows && Later(l.rows[t], f.company, f.clicks[i]);
      assert t in m.rows && Later(m.rows[t], f.company, f.clicks[i]);
    }
  }

  lemma FreeAfterCover(s: System, t: nat, company: string, at: real, cooldown: real)
    requires Free(s.ledger, company, at, cooldown) && t in s.fills && t in s.ledger.rows && s.ledger.rows[t].company == company
    requires ClicksOk(s.ledger, t, s.fills[t]) && s.fills[t].company == company
    ensures forall i :: 0 <= i < |s.fills[t].clicks| ==> s.fills[t].clicks[i] + cooldown <= at
  {
    var f := s.fills[t];
    assert !Blocks(s.ledger.rows[t], company, at, cooldown);
    forall i | 0 <= i < |f.clicks| ensures f.clicks[i] + cooldown <= at {
      assert Covered(s.ledger, company, f.clicks[i]);
      var r :| r in s.ledger.rows && Later(s.ledger.rows[r], company, f.clicks[i]);
      assert !Blocks(s.ledger.rows[r], company, at, cooldown);
    }
  }

  lemma BegunSeparated(s: System, company: string, at: real, cooldown: real)
    requires Inv(s, cooldown) && Separated(s, cooldown) && Free(s.ledger, company, at, cooldown)
    ensures Separated(Begun(s, company, at), cooldown)
  {
    var n, x := s.ledger.issued, Begun(s, company, at);
    forall t | t in x.fills ensures ClicksOk(x.ledger, t, x.fills[t]) {
      if t in s.fills {
        assert FillOk(s.ledger, t, s.fills[t]) && ClicksOk(s.ledger, t, s.fills[t]);
        if t in s.ledger.rows && s.ledger.rows[t].status.Consumed? { CoveredGrows(s.ledger, x.ledger, s.fills[t]); }
      }
    }
    forall t, u ensures ClickedBefore(x, cooldown, t, u) {
      assert ClickedBefore(s, cooldown, t, u);
      if t in s.fills {
        assert FillOk(s.ledger, t, s.fills[t]);
        if u == n && t in s.ledger.rows && s.fills[t].company == company { FreeAfterCover(s, t, company, at, cooldown); }
      }
      if u in s.fills { assert FillOk(s.ledger, u, s.fills[u]); }
    }
  }

  /** A running fill moved on: nobody of its company reserved after it. */
  lemma FillSeparated(s: System, t: nat, f: Fill, cooldown: real)
    requires Inv(s, cooldown) && Separated(s, cooldown) && Running(s, t)
    requires f.company == s.fills[t].company && f.reservedAt == s.fills[t].reservedAt
    requires forall i :: 0 <= i < |f.clicks| ==> f.reservedAt <= f.clicks[i]
    ensures Separated(With(s, t, f), cooldown)
  {
    var x := With(s, t, f);
    assert FillOk(s.ledger, t, s.fills[t]);
    forall a | a in x.fills ensures ClicksOk(x.ledger, a, x.fills[a]) { assert ClicksOk(s.ledger, a, s.fills[a]); }
    forall a, b ensures ClickedBefore(x, cooldown, a, b) {
      assert ClickedBefore(s, cooldown, a, b) && Apart(s.ledger, s.fills, cooldown, a, b);
    }
  }

  /** Rows change, but no consumed one; a row consumed now covers its clicks. */
  lemma RowsSeparated(s: System, m: Ledger, cooldown: real)
    requires Separated(s, cooldown) && Grows(s.ledger, m)
    requires forall t :: t in s.fills && t in m.rows ==> t in s.ledger.rows
    requires forall t :: t in s.fills && t in m.rows && m.rows[t].status.Consumed? && !s.ledger.rows[t].status.Consumed? ==> AllCovered(m, s.fills[t])
    ensures Separated(s.(ledger := m), cooldown)
  {
    forall t | t in s.fills ensures ClicksOk(m, t, s.fills[t]) {
      assert ClicksOk(s.ledger, t, s.fills[t]);
      if t in m.rows && s.ledger.rows[t].status.Consumed? { CoveredGrows(s.ledger, m, s.fills[t]); }
    }
    forall t, u ensures ClickedBefore(s.(ledger := m), cooldown, t, u) { assert ClickedBefore(s, cooldown, t, u); }
  }

  lemma CallsSeparated(s: System, calls: map<nat, Call>, cooldown: real)
    requires Separated(s, cooldown)
    ensures Separated(s.(calls := calls), cooldown)
  {
    forall t, u ensures ClickedBefore(s.(calls := calls), cooldown, t, u) { assert ClickedBefore(s, cooldown, t, u); }
  }

  lemma EndSeparated(s: System, t: nat, ending: Ending, cooldown: real)
    requires Inv(s, cooldown) && Separated(s, cooldown) && Running(s, t)
    ensures Separated(Ended(s, t, ending), cooldown)
  {
    var f := s.fills[t];
    assert FillOk(s.ledger, t, f) && ClicksOk(s.ledger, t, f);
    FillSeparated(s, t, f.(end := Some(ending)), cooldown);
    RowsSeparated(With(s, t, f.(end := Some(ending))), AfterEnd(s.ledger, t, f.dispatched, ending), cooldown);
  }

  lemma CommitSeparated(s: System, p: nat, cooldown: real)
    requires Inv(s, cooldown) && Separated(s, cooldown) && Committing(s, p) && Timely(s, Commit(p))
    ensures Separated(Next(s, Commit(p), cooldown), cooldown)
  {
    var c := s.calls[p];
    assert CallOk(s.fills, c);
    var l := Committed(s.ledger, c.token, c.at);
    RowsSeparated(s, l, cooldown);
    CallsSeparated(s.(ledger := l), s.calls - {p}, cooldown);
  }

  lemma HistorySeparated(s: System, company: string, at: Option<real>, source: string, cooldown: real)
    requires Inv(s, cooldown) && Separated(s, cooldown)
    ensures Separated(s.(ledger := Recorded(s.ledger, company, at, source)), cooldown)
  {
    forall t | t in s.fills ensures t < s.ledger.issued { assert FillOk(s.ledger, t, s.fills[t]); }
    RowsSeparated(s, Recorded(s.ledger, company, at, source), cooldown);
  }

  lemma ClickSeparated(s: System, t: nat, now: real, cooldown: real)
    requires Inv(s, cooldown) && Separated(s, cooldown) && Running(s, t) && s.fills[t].reservedAt <= now
    ensures Separated(Next(s, Click(t, now), cooldown), cooldown)
  {
    assert ClicksOk(s.ledger, t, s.fills[t]);
    if s.fills[t].dispatched { FillSeparated(s, t, s.fills[t].(clicks := s.fills[t].clicks + [now]), cooldown); }
  }

  lemma NextSeparated(s: System, e: Event, cooldown: real)
    requires Inv(s, cooldown) && Separated(s, cooldown) && Timely(s, e)
    ensures Separated(Next(s, e, cooldown), cooldown)
  {
    match e
    case Reserve(p) =>
      if Reserving(s, p) {
        var c := s.calls[p];
        if Free(s.ledger, c.company, c.at, cooldown) {
          BegunSeparated(s, c.company, c.at, cooldown);
          CallsSeparated(Begun(s, c.company, c.at), s.calls - {p}, cooldown);
        } else {
          CallsSeparated(s, s.calls - {p}, cooldown);
        }
      }
    case SetFlag(t) =>
      if Running(s, t) {
        assert ClicksOk(s.ledger, t, s.fills[t]);
        FillSeparated(s, t, s.fills[t].(dispatched := true), cooldown);
      }
    case Click(t, now) => if Running(s, t) { ClickSeparated(s, t, now, cooldown); }
    case End(t, ending) => if Running(s, t) { EndSeparated(s, t, ending, cooldown); }
    case Commit(p) => if Committing(s, p) { CommitSeparated(s, p, cooldown); }
    case History(company, at, source) => HistorySeparated(s, company, at, source, cooldown);
    case ReadToReserve(p, company, now) => CallsSeparated(s, s.calls[p := ToReserve(company, now)], cooldown);
    case ReadToCommit(p, t, now) => CallsSeparated(s, s.calls[p := ToCommit(t, now)], cooldown);
    case Drop(p) => CallsSeparated(s, s.calls - {p}, cooldown);
  }

  lemma {:induction false} RunSeparated(s: System, events: seq<Event>, cooldown: real)
    requires Inv(s, cooldown) && Separated(s, cooldown) && TimelyRun(s, events, cooldown)
    ensures Inv(RunFrom(s, events, cooldown), cooldown) && Separated(RunFrom(s, events, cooldown), cooldown)
  {
    if events != [] {
      var n := |events| - 1;
      RunSeparated(s, events[..n], cooldown);
      NextKeepsInv(RunFrom(s, events[..n], cooldown), events[n], cooldown);
      NextSeparated(RunFrom(s, events[..n], cooldown), events[n], cooldown);
    }
  }

  lemma SeparatedApart(s: System, cooldown: real)
    requires Inv(s, cooldown) && Separated(s, cooldown)
    ensures ClicksApart(s, cooldown)
  {
    forall t, u | t in s.fills && u in s.fills && t < u && s.fills[t].company == s.fills[u].company
                  && PossiblyAccepted(s.fills[t]) && PossiblyAccepted(s.fills[u])
      ensures forall i, j :: 0 <= i < |s.fills[t].clicks| && 0 <= j < |s.fills[u].clicks| ==>
                s.fills[t].clicks[i] + cooldown <= s.fills[u].clicks[j]
    {
      assert FillOk(s.ledger, t, s.fills[t]) && ClickedBefore(s, cooldown, t, u) && ClicksOk(s.ledger, u, s.fills[u]);
    }
  }

  /** If no click is before its run's reservation and no commit is too early, the possibly accepted
      applications to one company are a cooldown apart, whatever other companies' and dropped calls read. */
  lemma TimelyClicksApart(events: seq<Event>, cooldown: real)
    requires TimelyRun(START, events, cooldown)
    ensures ClicksApart(Run(events, cooldown), cooldown)
  {
    RunSeparated(START, events, cooldown);
    SeparatedApart(Run(events, cooldown), cooldown);
  }

  lemma TimedIsTimely(s: System, e: Event, now: real, cooldown: real)
    requires Inv(s, cooldown) && Timed(s, now) && (Reading(e).Some? ==> Reading(e).value == now)
    ensures Timely(s, e)
  {
    match e
    case Click(t, _) => if Running(s, t) { assert TimesOk(s.ledger, t, s.fills[t], now); }
    case Commit(p) =>
      if Committing(s, p) && IsPending(s.ledger, s.calls[p].token) {
        var c := s.calls[p];
        assert ReadingOk(s.fills, c, now);
        var l := Committed(s.ledger, c.token, c.at);
        if c.token in s.fills {
          assert FillOk(s.ledger, c.token, s.fills[c.token]);
          forall i | 0 <= i < |s.fills[c.token].clicks| ensures Covered(l, s.fills[c.token].company, s.fills[c.token].clicks[i]) {
            assert c.token in l.rows && Later(l.rows[c.token], s.fills[c.token].company, s.fills[c.token].clicks[i]);
          }
        }
      }
    case _ =>
  }

  /** A clock that is never set back keeps every click and commit timely. */
  lemma {:induction false} SteadyIsTimely(events: seq<Event>, cooldown: real)
    requires Steady(events)
    ensures TimelyRun(START, events, cooldown)
  {
    if events != [] {
      var n := |events| - 1;
      var before, e := events[..n], events[n];
      forall i, j | 0 <= i < j < n ensures InOrder(before[i], before[j]) { assert InOrder(events[i], events[j]); }
      SteadyIsTimely(before, cooldown);
      var now := if Reading(e).Some? then Reading(e).value else 0.0;
      if Reading(e).Some? {
        forall i | 0 <= i < n ensures NotAfter(before[i], now) { assert InOrder(events[i], e); }
      } else {
        now := Latest(before);
      }
      RunKeepsTimes(before, cooldown, now);
      RunKeepsInv(START, before, cooldown);
      TimedIsTimely(Run(before, cooldown), e, now, cooldown);
    }
  }

  /** Even if a call waits between reading the clock and its transaction, while others reserve and commit. */
  lemma {:induction false} SteadyClicksApart(events: seq<Event>, cooldown: real)
    requires Steady(events)
    ensures ClicksApart(Run(events, cooldown), cooldown)
  {
    SteadyIsTimely(events, cooldown);
    TimelyClicksApart(events, cooldown);
  }

  // ---- A commit that is too early -----------------------------------------------------------------------------------

  lemma RunOn(s: System, events: seq<Event>, e: Event, cooldown: real)
    ensures RunFrom(s, events + [e], cooldown) == Next(RunFrom(s, events, cooldown), e, cooldown)
    ensures TimelyRun(s, events + [e], cooldown) <==> TimelyRun(s, events, cooldown) && Timely(RunFrom(s, events, cooldown), e)
  {
    assert (events + [e])[..|events|] == events;
  }

  lemma {:induction false} Above(numbers: set<nat>) returns (n: nat)
    ensures forall x :: x in numbers ==> x < n
  {
    n := 0;
    var left := numbers;
    while left != {}
      invariant left <= numbers && forall x :: x in numbers && x !in left ==> x < n
    {
      var x :| x in left;
      left := left - {x};
      if x >= n { n := x + 1; }
    }
  }

  /** All dates of the company are before the click: some time before it is not before any of them. */
  lemma {:induction false} LatestDate(l: Ledger, company: string, click: real) returns (latest: real)
    requires !Covered(l, company, click)
    ensures latest < click
    ensures forall t :: t in l.rows && l.rows[t].company == company && l.rows[t].at.Some? && l.rows[t].status.Consumed? ==>
              l.rows[t].at.value <= latest
  {
    latest := click - 1.0;
    var left := l.rows.Keys;
    while left != {}
      invariant left <= l.rows.Keys && latest < click
      invariant forall t :: t in l.rows && t !in left && l.rows[t].company == company && l.rows[t].at.Some? && l.rows[t].status.Consumed? ==>
                  l.rows[t].at.value <= latest
    {
      var t :| t in left;
      left := left - {t};
      var r := l.rows[t];
      if r.company == company && r.status.Consumed? && r.at.Some? {
        assert !Later(r, company, click);
        if r.at.value > latest { latest := r.at.value; }
      }
    }
  }

  /** A call reads the clock, reserves and clicks at once. */
  lemma {:induction false} Applies(s: System, company: string, at: real, cooldown: real) returns (events: seq<Event>)
    requires Free(s.ledger, company, at, cooldown) && s.ledger.issued !in s.fills
    ensures TimelyRun(s, events, cooldown)
    ensures RunFrom(s, events, cooldown).fills == s.fills[s.ledger.issued := Fill(company, at, true, [at], None)]
  {
    var t := s.ledger.issued;
    var p := Above(s.calls.Keys);
    var a := [] + [ReadToReserve(p, company, at)];
    RunOn(s, [], ReadToReserve(p, company, at), cooldown);
    var b := a + [Reserve(p)];
    RunOn(s, a, Reserve(p), cooldown);
    assert RunFrom(s, b, cooldown).fills == s.fills[t := Fill(company, at, false, [], None)];
    var c := b + [SetFlag(t)];
    RunOn(s, b, SetFlag(t), cooldown);
    assert RunFrom(s, c, cooldown).fills == s.fills[t := Fill(company, at, true, [], None)];
    events := c + [Click(t, at)];
    RunOn(s, c, Click(t, at), cooldown);
    assert [] + [at] == [at];
  }

  /** The run of `t` is committed, and nothing on record covers its click: the company can be reserved
      less than a cooldown after it. */
  lemma {:induction false} SetBack(s: System, t: nat, i: nat, cooldown: real) returns (events: seq<Event>)
    requires Inv(s, cooldown) && t in s.fills && t in s.ledger.rows && s.ledger.rows[t].status.Consumed?
    requires forall u :: u in s.ledger.rows && s.ledger.rows[u].company == s.fills[t].company ==> s.ledger.rows[u].status.Consumed?
    requires i < |s.fills[t].clicks| && !Covered(s.ledger, s.fills[t].company, s.fills[t].clicks[i])
    ensures TimelyRun(s, events, cooldown) && !ClicksApart(RunFrom(s, events, cooldown), cooldown)
  {
    var f := s.fills[t];
    var latest := LatestDate(s.ledger, f.company, f.clicks[i]);
    var at := latest + cooldown;
    forall u | u in s.ledger.rows ensures !Blocks(s.ledger.rows[u], f.company, at, cooldown) {
      assert !Later(s.ledger.rows[u], f.company, f.clicks[i]);
    }
    assert FillOk(s.ledger, t, f);
    assert s.ledger.issued in s.fills ==> FillOk(s.ledger, s.ledger.issued, s.fills[s.ledger.issued]);
    events := Applies(s, f.company, at, cooldown);
    var x := RunFrom(s, events, cooldown);
    assert x.fills[t].clicks[i] + cooldown > x.fills[s.ledger.issued].clicks[0];
  }

  /** While a reservation is pending, no other row of its company is. */
  lemma OnlyPending(s: System, t: nat, u: nat, cooldown: real)
    requires Inv(s, cooldown) && Rows(s) && t in s.fills && IsPending(s.ledger, t)
    requires u in s.ledger.rows && u != t && s.ledger.rows[u].company == s.fills[t].company
    ensures s.ledger.rows[u].status.Consumed?
  {
    if IsPending(s.ledger, u) {
      assert FillOk(s.ledger, t, s.fills[t]) && FillOk(s.ledger, u, s.fills[u]);
      assert Apart(s.ledger, s.fills, cooldown, t, u) && Apart(s.ledger, s.fills, cooldown, u, t);
    }
  }

  /** Only runs have pending rows. */
  predicate Rows(s: System) { forall t :: t in s.ledger.rows && s.ledger.rows[t].status.Pending? ==> t in s.fills }

  lemma {:induction false} RunKeepsRows(events: seq<Event>, cooldown: real)
    ensures Rows(Run(events, cooldown))
  {
    if events != [] { RunKeepsRows(events[..|events| - 1], cooldown); }
  }

  /** When a reservation may be committed, exactly: after any timely run, a commit leaves the clicks a
      cooldown apart in every timely continuation if and only if its reading is not before a click of its
      run, or another record of the company covers that click. */
  lemma {:induction false} ApartExactly(events: seq<Event>, p: nat, cooldown: real)
    requires TimelyRun(START, events, cooldown) && Committing(Run(events, cooldown), p)
    requires var s := Run(events, cooldown); IsPending(s.ledger, s.calls[p].token)
    ensures var s := Run(events, cooldown);
            (forall more :: TimelyRun(Next(s, Commit(p), cooldown), more, cooldown)
                            ==> ClicksApart(RunFrom(Next(s, Commit(p), cooldown), more, cooldown), cooldown)) <==> InTime(s, p)
  {
    var s := Run(events, cooldown);
    var x := Next(s, Commit(p), cooldown);
    RunSeparated(START, events, cooldown);
    RunKeepsRows(events, cooldown);
    NextKeepsInv(s, Commit(p), cooldown);
    if InTime(s, p) {
      NextSeparated(s, Commit(p), cooldown);
      forall more | TimelyRun(x, more, cooldown) ensures ClicksApart(RunFrom(x, more, cooldown), cooldown) {
        RunSeparated(x, more, cooldown);
        SeparatedApart(RunFrom(x, more, cooldown), cooldown);
      }
    } else {
      var t := s.calls[p].token;
      var i :| 0 <= i < |s.fills[t].clicks| && !Covered(x.ledger, s.fills[t].company, s.fills[t].clicks[i]);
      forall u | u in x.ledger.rows && x.ledger.rows[u].company == x.fills[t].company ensures x.ledger.rows[u].status.Consumed? {
        if u != t { OnlyPending(s, t, u, cooldown); }
      }
      var more := SetBack(x, t, i, cooldown);
      assert !ClicksApart(RunFrom(x, more, cooldown), cooldown);
    }
  }
}
