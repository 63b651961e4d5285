/** `CompanyCooldownGuard` (`packages/core/src/interviewmaxxing_core/company_guard.py`) and the runs it
    guards (`guarded_fill` of `scripts/real_chrome_policy.py`). */
module Cooldown {
  import opened Wrappers
  import opened Text

  datatype Status = Pending | Consumed

  /** `at` is when a consumed row applied; history may not know. */
  datatype Row = Row(company: string, status: Status, at: Option<real>)

  /** The table, the sources imported so far, and how many tokens were given out: none is given twice. */
  datatype Ledger = Ledger(rows: map<nat, Row>, sources: set<string>, issued: nat)

  datatype Reason = PendingOrAmbiguous | UnknownHistoricalDate | CompanyCooldown(until: real)

  datatype Reservation = Allowed(token: nat) | Refused(reason: Reason)

  // ---- The table's operations ---------------------------------------------------------------------------

  predicate Blocks(r: Row, company: string, now: real, cooldown: real) {
    r.company == company && (r.status.Pending? || r.at.None? || r.at.value + cooldown > now)
  }

  /** No reservation or application of the company stands in the way. */
  predicate Free(l: Ledger, company: string, now: real, cooldown: real) {
    forall t :: t in l.rows ==> !Blocks(l.rows[t], company, now, cooldown)
  }

  function Reserved(l: Ledger, company: string): Ledger {
    Ledger(l.rows[l.issued := Row(company, Pending, None)], l.sources, l.issued + 1)
  }

  predicate IsPending(l: Ledger, token: nat) {
    token in l.rows && l.rows[token].status.Pending?
  }

  function Released(l: Ledger, token: nat): Ledger {
    if IsPending(l, token) then l.(rows := l.rows - {token}) else l
  }

  function Committed(l: Ledger, token: nat, now: real): Ledger {
    if IsPending(l, token) then l.(rows := l.rows[token := l.rows[token].(status := Consumed, at := Some(now))]) else l
  }

  function Recorded(l: Ledger, company: string, at: Option<real>, source: string): Ledger {
    if source in l.sources then l
    else Ledger(l.rows[l.issued := Row(company, Consumed, at)], l.sources + {source}, l.issued + 1)
  }

  /** What `reserve` answers: pending first, then undated, then the cooldown of the latest application. */
  ghost predicate Answers(r: Reservation, l: Ledger, company: string, now: real, cooldown: real) {
    if Free(l, company, now, cooldown) then r == Allowed(l.issued)
    else if exists t :: t in l.rows && l.rows[t].company == company && l.rows[t].status.Pending? then r == Refused(PendingOrAmbiguous)
    else if exists t :: t in l.rows && l.rows[t].company == company && l.rows[t].at.None? then r == Refused(UnknownHistoricalDate)
    else
      && r.Refused? && r.reason.CompanyCooldown? && r.reason.until > now
      && (exists t :: t in l.rows && l.rows[t].company == company && l.rows[t].at == Some(r.reason.until - cooldown))
      && (forall t :: t in l.rows && l.rows[t].company == company && l.rows[t].at.Some? ==> l.rows[t].at.value + cooldown <= r.reason.until)
  }

  class Guard {
    const cooldown: real
    var rows: map<nat, Row>
    var sources: set<string>
    var issued: nat

    ghost function Contents(): Ledger
      reads this
    {
      Ledger(rows, sources, issued)
    }

    constructor (cooldown: real)
      ensures this.cooldown == cooldown && Contents() == Ledger(map[], {}, 0)
    {
      this.cooldown := cooldown;
      rows, sources, issued := map[], {}, 0;
    }

    /** The latest application time of the company, among rows that all have one. */
    method Latest(company: string) returns (latest: Option<real>)
      requires forall t :: t in rows && rows[t].company == company ==> rows[t].at.Some?
      ensures latest.None? <==> forall t :: t in rows ==> rows[t].company != company
      ensures latest.Some? ==> exists t :: t in rows && rows[t].company == company && rows[t].at == latest
      ensures latest.Some? ==> forall t :: t in rows && rows[t].company == company ==> rows[t].at.value <= latest.value
    {
      latest := None;
      var left := rows.Keys;
      while left != {}
        invariant left <= rows.Keys
        invariant latest.None? <==> forall t :: t in rows && t !in left ==> rows[t].company != company
        invariant latest.Some? ==> exists t :: t in rows && rows[t].company == company && rows[t].at == latest
        invariant latest.Some? ==> forall t :: t in rows && t !in left && rows[t].company == company ==> rows[t].at.value <= latest.value
      {
        var t :| t in left;
        left := left - {t};
        if rows[t].company == company && (latest.None? || rows[t].at.value > latest.value) {
          latest := rows[t].at;
        }
      }
    }

    method Reserve(company: string, now: real) returns (r: Reservation)
      modifies this
      ensures Answers(r, old(Contents()), company, now, cooldown)
      ensures Contents() == if r.Allowed? then Reserved(old(Contents()), company) else old(Contents())
    {
      if exists t :: t in rows && rows[t].company == company && rows[t].status.Pending? {
        return Refused(PendingOrAmbiguous);
      }
      if exists t :: t in rows && rows[t].company == company && rows[t].at.None? {
        return Refused(UnknownHistoricalDate);
      }
      var latest := Latest(company);
      if latest.Some? && latest.value + cooldown > now {
        return Refused(CompanyCooldown(latest.value + cooldown));
      }
      r := Allowed(issued);
      rows := rows[issued := Row(company, Pending, None)];
      issued := issued + 1;
    }

    method Release(token: nat) returns (done: bool)
      modifies this
      ensures Contents() == Released(old(Contents()), token) && (done <==> IsPending(old(Contents()), token))
    {
      done := token in rows && rows[token].status.Pending?;
      if done { rows := rows - {token}; }
    }

    method Commit(token: nat, now: real) returns (done: bool)
      modifies this
      ensures Contents() == Committed(old(Contents()), token, now) && (done <==> IsPending(old(Contents()), token))
    {
      done := token in rows && rows[token].status.Pending?;
      if done { rows := rows[token := rows[token].(status := Consumed, at := Some(now))]; }
    }

    method RecordHistory(company: string, at: Option<real>, source: string) returns (done: bool)
      modifies this
      ensures Contents() == Recorded(old(Contents()), company, at, source) && (done <==> source !in old(sources))
    {
      done := source !in sources;
      if done {
        rows, sources := rows[issued := Row(company, Consumed, at)], sources + {source};
        issued := issued + 1;
      }
    }
  }

  // ---- The tracked browser --------------------------------------------------------------------------------

  const SUBMIT := "submit application"

  predicate IsSubmit(args: seq<string>) {
    args != [] && args[0] == "click" && exists i :: 1 <= i < |args| && Lower(args[i]) == SUBMIT
  }

  class Chrome {
    var commands: seq<seq<string>>

    constructor ()
      ensures commands == []
    {
      commands := [];
    }

    method Cli(args: seq<string>)
      modifies this
      ensures commands == old(commands) + [args]
    {
      commands := commands + [args];
    }
  }

  class DispatchTracker {
    const chrome: Chrome
    var dispatched: bool

    /** No submit click reaches the browser before the flag is set. */
    ghost predicate Valid()
      reads this, chrome
    {
      (exists i :: 0 <= i < |chrome.commands| && IsSubmit(chrome.commands[i])) ==> dispatched
    }

    constructor (chrome: Chrome)
      requires chrome.commands == []
      ensures this.chrome == chrome && !dispatched && Valid()
    {
      this.chrome, dispatched := chrome, false;
    }

    method Cli(args: seq<string>)
      requires Valid()
      modifies this, chrome
      ensures Valid() && chrome.commands == old(chrome.commands) + [args]
      ensures dispatched == (old(dispatched) || IsSubmit(args))
    {
      if IsSubmit(args) { dispatched := true; }
      chrome.Cli(args);
    }
  }

  /** How the wrapped function ends. Results outside both lists, and interrupts, are uncertain. */
  datatype Ending = Raised | Interrupted | AcceptedResult | NoAcceptance | Uncertain

  /** What an end gives back at once. */
  function AfterEnd(l: Ledger, token: nat, dispatched: bool, ending: Ending): Ledger {
    match ending
    case Raised => if dispatched then l else Released(l, token)
    case NoAcceptance => Released(l, token)
    case _ => l
  }

  /** An accepted result is committed, by a clock read after the end. */
  function Settled(l: Ledger, token: nat, dispatched: bool, ending: Ending, now: real): Ledger {
    if ending.AcceptedResult? then Committed(l, token, now) else AfterEnd(l, token, dispatched, ending)
  }

  method Settle(guard: Guard, tracker: DispatchTracker, token: nat, ending: Ending, now: real)
    modifies guard
    ensures guard.Contents() == Settled(old(guard.Contents()), token, tracker.dispatched, ending, now)
  {
    if ending.Raised? {
      if !tracker.dispatched { var _ := guard.Release(token); }
    } else if ending.AcceptedResult? {
      var _ := guard.Commit(token, now);
    } else if ending.NoAcceptance? {
      var _ := guard.Release(token);
    }
  }

  // ---- What stands in the way ---------------------------------------------------------------------------

  lemma {:induction false} OneMoreRow(l: Ledger, m: Ledger, t: nat, company: string, now: real, cooldown: real)
    requires t in m.rows && m.rows.Keys == l.rows.Keys + {t} && t !in l.rows
    requires forall u :: u in l.rows ==> m.rows[u] == l.rows[u]
    ensures Free(m, company, now, cooldown) <==> Free(l, company, now, cooldown) && !Blocks(m.rows[t], company, now, cooldown)
  {
    if Free(m, company, now, cooldown) {
      forall u | u in l.rows ensures !Blocks(l.rows[u], company, now, cooldown) { assert !Blocks(m.rows[u], company, now, cooldown); }
    }
  }

  /** What each change does to the way of a company: a reservation blocks its company at once and at any
      time, an imported application blocks it until a cooldown after it, and for good if it has no date,
      and a source imported before changes nothing. Other companies are left alone. */
  lemma {:induction false} WhatBlocks(l: Ledger, company: string, at: Option<real>, source: string, other: string, now: real, cooldown: real)
    requires forall t :: t in l.rows ==> t < l.issued
    ensures Free(Reserved(l, company), other, now, cooldown) <==> Free(l, other, now, cooldown) && other != company
    ensures Free(Recorded(l, company, at, source), other, now, cooldown)
            <==> && Free(l, other, now, cooldown)
                 && (other == company && source !in l.sources ==> at.Some? && at.value + cooldown <= now)
  {
    OneMoreRow(l, Reserved(l, company), l.issued, other, now, cooldown);
    if source !in l.sources { OneMoreRow(l, Recorded(l, company, at, source), l.issued, other, now, cooldown); }
  }

  lemma {:induction false} RowReplaced(l: Ledger, m: Ledger, token: nat, company: string, now: real, cooldown: real)
    requires token in l.rows && m.rows.Keys <= l.rows.Keys && l.rows.Keys <= m.rows.Keys + {token}
    requires forall t :: t in m.rows && t != token ==> m.rows[t] == l.rows[t]
    requires forall t :: t in l.rows && t != token ==> !Blocks(l.rows[t], company, now, cooldown)
    ensures Free(m, company, now, cooldown) <==> (token in m.rows ==> !Blocks(m.rows[token], company, now, cooldown))
  {
  }

  /** A pending reservation that alone stands in the way of its company: released, it leaves the way
      free at once, committed, from a cooldown after the commit. */
  lemma {:induction false} WhatFrees(l: Ledger, token: nat, company: string, committedAt: real, now: real, cooldown: real)
    requires IsPending(l, token) && l.rows[token].company == company
    requires forall t :: t in l.rows && t != token ==> !Blocks(l.rows[t], company, now, cooldown)
    ensures !Free(l, company, now, cooldown) && Free(Released(l, token), company, now, cooldown)
    ensures Free(Committed(l, token, committedAt), company, now, cooldown) <==> committedAt + cooldown <= now
  {
    RowReplaced(l, Released(l, token), token, company, now, cooldown);
    RowReplaced(l, Committed(l, token, committedAt), token, company, now, cooldown);
  }

  /** A submit is a click whose arguments name the button, in upper or lower case. */
  lemma {:induction false} SubmitInAnyCase(args: seq<string>)
    ensures IsSubmit(args)
            <==> |args| >= 2 && args[0] == "click"
                 && exists i :: 1 <= i < |args| && |args[i]| == |"submit application"|
                                && forall k :: 0 <= k < |args[i]| ==> SameLetter(args[i][k], "submit application"[k])
  {
    var button := "submit application";
    LowerFolds(button, button);
    assert Lower(button) == button;
    forall i | 1 <= i < |args|
      ensures Lower(args[i]) == button <==> |args[i]| == |button| && forall k :: 0 <= k < |args[i]| ==> SameLetter(args[i][k], button[k])
    {
      LowerFolds(args[i], button);
    }
  }
}
