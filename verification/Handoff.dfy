/** The email-code handoff of `scripts/greenhouse_code_handoff.py`: a pending record on disk, a code
    field in a browser tab, and calls into the page that may act and still lose their reply. */
module Handoff {
  import opened Wrappers

  /** An input of the page; `tag` is the challenge its dataset names. */
  datatype Input = Input(value: string, tag: Option<nat>, connected: bool, usable: bool, codeLike: bool)

  /** `window.__imxEmailChallenge`. */
  datatype Binding = Binding(challenge: nat, url: string, node: nat)

  datatype Page = Page(url: string, inputs: map<nat, Input>, bound: Option<Binding>)

  datatype Record = Record(challenge: nat, filled: bool, url: string)

  // ---- The page scripts -----------------------------------------------------------------------------------

  function CodeFields(p: Page): set<nat> {
    set n | n in p.inputs && p.inputs[n].connected && p.inputs[n].usable && p.inputs[n].codeLike
  }

  /** `BIND_JS`: exactly one code field, or none is bound. */
  ghost function Bound(p: Page, challenge: nat): (bool, Page) {
    var fields := CodeFields(p);
    if |fields| != 1 then (false, p)
    else
      var n :| n in fields;
      (true, Page(p.url, p.inputs[n := p.inputs[n].(tag := Some(challenge))], Some(Binding(challenge, p.url, n))))
  }

  /** The field still is the one bound to the challenge, on the page it was bound on. */
  predicate StillBound(p: Page, challenge: nat, url: string) {
    && p.bound.Some? && p.bound.value.challenge == challenge && p.bound.value.url == p.url == url
    && p.bound.value.node in p.inputs
    && var e := p.inputs[p.bound.value.node];
       e.connected && e.tag == Some(challenge) && e.usable
  }

  predicate Accepts(p: Page, challenge: nat, url: string, code: string) {
    StillBound(p, challenge, url) && (p.inputs[p.bound.value.node].value == "" || p.inputs[p.bound.value.node].value == code)
  }

  /** `FILL_JS` up to its events. */
  function Filled(p: Page, challenge: nat, url: string, code: string): Page {
    if Accepts(p, challenge, url, code) then
      var n := p.bound.value.node;
      p.(inputs := p.inputs[n := p.inputs[n].(value := code)])
    else p
  }

  /** `VERIFY_JS`. */
  predicate Verified(p: Page, challenge: nat, url: string, code: string) {
    && p.bound.Some? && p.bound.value.challenge == challenge && p.bound.value.url == p.url == url
    && p.bound.value.node in p.inputs
    && p.inputs[p.bound.value.node].connected && p.inputs[p.bound.value.node].value == code
  }

  class Tab {
    var page: Page

    constructor (page: Page)
      ensures this.page == page
    {
      this.page := page;
    }

    method Bind(challenge: nat) returns (ok: bool)
      modifies this
      ensures (ok, page) == Bound(old(page), challenge)
    {
      var fields := CodeFields(page);
      ok := |fields| == 1;
      if !ok { return; }
      var n :| n in fields;
      OnlyField(fields, n);
      page := Page(page.url, page.inputs[n := page.inputs[n].(tag := Some(challenge))], Some(Binding(challenge, page.url, n)));
    }

    method Fill(challenge: nat, url: string, code: string) returns (ok: bool)
      modifies this
      ensures page == Filled(old(page), challenge, url, code) && (ok <==> Accepts(old(page), challenge, url, code))
    {
      ok := false;
      var b := page.bound;
      if b.None? || b.value.challenge != challenge || b.value.url != page.url || page.url != url { return; }
      var n := b.value.node;
      if n !in page.inputs || !page.inputs[n].connected || page.inputs[n].tag != Some(challenge) || !page.inputs[n].usable { return; }
      if page.inputs[n].value != "" && page.inputs[n].value != code { return; }
      page := page.(inputs := page.inputs[n := page.inputs[n].(value := code)]);
      ok := true;
    }
  }

  /** The pending record's file. */
  class Pending {
    var record: Record

    constructor (record: Record)
      ensures this.record == record
    {
      this.record := record;
    }

    /** One undisturbed `fill_from_gmail`: `code` is what the one matching email holds, `filled` and
        `read` say whether the browser's two answers arrive, and `react` is what the page's own
        handlers make of the input events. */
    method FillFromGmail(tab: Tab, challenge: nat, code: Option<string>, filled: bool, read: bool, react: Page -> Page)
      returns (ok: bool)
      modifies this, tab
      ensures ok <==>
                && challenge == old(record).challenge && !old(record).filled && code.Some? && filled && read
                && Accepts(old(tab.page), challenge, old(record).url, code.value)
                && Verified(react(Filled(old(tab.page), challenge, old(record).url, code.value)), challenge, old(record).url, code.value)
      ensures record == if ok then old(record).(filled := true) else old(record)
      ensures ok ==> Verified(tab.page, challenge, record.url, code.value)
      ensures !(challenge == old(record).challenge && !old(record).filled && code.Some?) ==> tab.page == old(tab.page)
    {
      ok := false;
      if challenge != record.challenge || record.filled || code.None? { return; }
      var entered := tab.Fill(challenge, record.url, code.value);
      if !entered { return; }
      tab.page := react(tab.page);
      if !filled || !read || !Verified(tab.page, challenge, record.url, code.value) { return; }
      record := record.(filled := true);
      ok := true;
    }
  }

  lemma OnlyField(s: set<nat>, n: nat)
    requires |s| == 1 && n in s
    ensures forall m :: m in s ==> m == n
  {
    var rest := s - {n};
    assert |rest| == 0 && s == {n} + rest;
  }

  /** A fill never replaces a nonempty value by another one, and touches no other input. */
  lemma FillOverwritesNothing(p: Page, challenge: nat, url: string, code: string)
    ensures var q := Filled(p, challenge, url, code);
            && q.inputs.Keys == p.inputs.Keys
            && forall n :: n in p.inputs && q.inputs[n].value != p.inputs[n].value ==>
                 p.inputs[n].value == "" && q.inputs[n].value == code && p.bound == Some(Binding(challenge, url, n))
  {
  }

  /** A fill whose reply was lost: repeating it is accepted exactly with the same code. */
  lemma RetryExactly(p: Page, challenge: nat, url: string, code: string, other: string)
    requires Accepts(p, challenge, url, code) && code != ""
    ensures Accepts(Filled(p, challenge, url, code), challenge, url, other) <==> other == code
    ensures Verified(Filled(p, challenge, url, code), challenge, url, code)
  {
  }

  /** Binding takes the field over for the new challenge: the old challenge's fill is refused. */
  lemma RebindingRetires(p: Page, challenge: nat, former: nat, url: string, code: string)
    requires Bound(p, challenge).0 && former != challenge
    ensures Accepts(Bound(p, challenge).1, challenge, p.url, code)
            <==> forall n :: n in CodeFields(p) ==> p.inputs[n].value == "" || p.inputs[n].value == code
    ensures !Accepts(Bound(p, challenge).1, former, url, code)
  {
    var n := Bound(p, challenge).1.bound.value.node;
    assert n in CodeFields(p);
    OnlyField(CodeFields(p), n);
  }

  // ---- Runs ------------------------------------------------------------------------------------------------

  /** A `fill_from_gmail` under way, holding the lock: its field to fill, filled, or read back. */
  datatype Fill = ToFill(record: Record, code: string) | ToVerify(record: Record, code: string) | ToWrite(record: Record)

  /** A `create_handoff` under way: its field to bind, or bound. */
  datatype Bind = ToBind(url: string, challenge: nat) | ToRecord(url: string, challenge: nat)

  /** `fills` are the challenges of the fills that succeeded, `issued` counts the challenges made. */
  datatype System = System(record: Option<Record>, page: Page, fill: Option<Fill>, binds: map<nat, Bind>, issued: nat, fills: seq<nat>)

  /** `reply` says whether a browser call's answer arrives; `b` names one of any number of binding calls. */
  datatype Event =
    | BeginFill(challenge: nat, code: Option<string>)
    | RunFill(reply: bool)
    | RunVerify(reply: bool)
    | WriteFilled
    | StopFill
    | BeginCreate(b: nat, url: string)
    | BeginRebind(b: nat, url: string)
    | RunBind(b: nat, reply: bool)
    | WriteBound(b: nat)
    | StopBind(b: nat)
    | PageActs(page: Page)
    | Remove

  /** The fill's checks of the record and the envelope; `code` is what the matching email holds, if one does. */
  function FillBegun(s: System, challenge: nat, code: Option<string>): Option<Fill> {
    if s.record.None? || challenge != s.record.value.challenge || s.record.value.filled || code.None? then None
    else Some(ToFill(s.record.value, code.value))
  }

  function FillRun(s: System, reply: bool): System
    requires s.fill.Some? && s.fill.value.ToFill?
  {
    var r, code := s.fill.value.record, s.fill.value.code;
    s.(page := Filled(s.page, r.challenge, r.url, code),
       fill := if reply && Accepts(s.page, r.challenge, r.url, code) then Some(ToVerify(r, code)) else None)
  }

  function VerifyRun(s: System, reply: bool): System
    requires s.fill.Some? && s.fill.value.ToVerify?
  {
    var r, code := s.fill.value.record, s.fill.value.code;
    s.(fill := if reply && Verified(s.page, r.challenge, r.url, code) then Some(ToWrite(r)) else None)
  }

  ghost function BindRun(s: System, b: nat, reply: bool): System
    requires b in s.binds && s.binds[b].ToBind?
  {
    var call := s.binds[b];
    var (ok, page) := Bound(s.page, call.challenge);
    s.(page := page,
       binds := if ok && reply && page.url == call.url then s.binds[b := ToRecord(call.url, call.challenge)] else s.binds - {b})
  }

  /** The event begins a fill: fills hold a lock. */
  predicate BeginsFill(s: System, e: Event) {
    e.BeginFill? && s.fill.None? && FillBegun(s, e.challenge, e.code).Some?
  }

  /** The event begins a binding, which takes no lock: a first one, or a new one of an unfilled record. */
  predicate BeginsBind(s: System, e: Event) {
    || (e.BeginCreate? && e.b !in s.binds && s.record.None?)
    || (e.BeginRebind? && e.b !in s.binds && s.record.Some? && !s.record.value.filled)
  }

  function BindBegun(s: System, b: nat, url: string): System {
    s.(binds := s.binds[b := ToBind(url, s.issued)], issued := s.issued + 1)
  }

  /** One atomic step; a step that is not due does nothing. */
  ghost function Next(s: System, e: Event): System {
    match e
    case BeginFill(challenge, code) => if BeginsFill(s, e) then s.(fill := FillBegun(s, challenge, code)) else s
    case RunFill(reply) => if s.fill.Some? && s.fill.value.ToFill? then FillRun(s, reply) else s
    case RunVerify(reply) => if s.fill.Some? && s.fill.value.ToVerify? then VerifyRun(s, reply) else s
    case WriteFilled =>
      if s.fill.Some? && s.fill.value.ToWrite? then
        var r := s.fill.value.record;
        s.(record := Some(r.(filled := true)), fill := None, fills := s.fills + [r.challenge])
      else s
    case StopFill => s.(fill := None)
    case BeginCreate(b, url) => if BeginsBind(s, e) then BindBegun(s, b, url) else s
    case BeginRebind(b, url) => if BeginsBind(s, e) then BindBegun(s, b, url) else s
    case RunBind(b, reply) => if b in s.binds && s.binds[b].ToBind? then BindRun(s, b, reply) else s
    case WriteBound(b) =>
      if b in s.binds && s.binds[b].ToRecord?
      then s.(record := Some(Record(s.binds[b].challenge, false, s.binds[b].url)), binds := s.binds - {b}) else s
    case StopBind(b) => s.(binds := s.binds - {b})
    case PageActs(page) => s.(page := page)
    case Remove => s.(record := None)
  }

  ghost function RunFrom(s: System, events: seq<Event>): System {
    if events == [] then s
    else var n := |events| - 1; Next(RunFrom(s, events[..n]), events[n])
  }

  function Start(page: Page): System { System(None, page, None, map[], 0, []) }

  // ---- What every run keeps -----------------------------------------------------------------------------------

  function FillOf(f: Fill): nat { f.record.challenge }

  predicate FillsOk(s: System) {
    && (forall i :: 0 <= i < |s.fills| ==> s.fills[i] < s.issued)
    && (forall i, j :: 0 <= i < j < |s.fills| ==> s.fills[i] != s.fills[j])
  }

  /** A challenge that was filled is in no unfilled record and in no fill under way. */
  predicate RecordOk(s: System) {
    && (s.record.Some? ==> s.record.value.challenge < s.issued && (!s.record.value.filled ==> s.record.value.challenge !in s.fills))
    && (s.fill.Some? ==> FillOf(s.fill.value) < s.issued && FillOf(s.fill.value) !in s.fills)
    && (s.record.Some? && s.record.value.filled && s.fill.Some? ==> s.record.value.challenge != FillOf(s.fill.value))
  }

  /** The challenge of a binding is nowhere else yet. */
  predicate BindOk(s: System, b: nat)
    requires b in s.binds
  {
    var challenge := s.binds[b].challenge;
    && challenge < s.issued && challenge !in s.fills
    && (s.fill.Some? ==> challenge != FillOf(s.fill.value))
    && (s.record.Some? ==> challenge != s.record.value.challenge)
    && (forall a :: a in s.binds && a != b ==> challenge != s.binds[a].challenge)
  }

  ghost predicate Inv(s: System) {
    FillsOk(s) && RecordOk(s) && forall b :: b in s.binds ==> BindOk(s, b)
  }

  lemma FillKeepsInv(s: System, e: Event)
    requires Inv(s) && (e.BeginFill? || e.RunFill? || e.RunVerify? || e.WriteFilled? || e.StopFill?)
    ensures Inv(Next(s, e))
  {
    forall b | b in s.binds ensures BindOk(Next(s, e), b) { assert BindOk(s, b); }
  }

  lemma {:induction false} BegunBindKeepsInv(s: System, b: nat, url: string)
    requires Inv(s) && b !in s.binds
    ensures Inv(BindBegun(s, b, url))
  {
    var x := BindBegun(s, b, url);
    forall a | a in x.binds ensures BindOk(x, a) { if a != b { assert BindOk(s, a); } }
  }

  lemma {:induction false} BindKeepsInv(s: System, e: Event)
    requires Inv(s) && (e.RunBind? || e.WriteBound? || e.StopBind?)
    ensures Inv(Next(s, e))
  {
    var x := Next(s, e);
    if e.b in s.binds { assert BindOk(s, e.b); }
    forall a | a in x.binds ensures BindOk(x, a) { assert BindOk(s, a); }
  }

  lemma NextKeepsInv(s: System, e: Event)
    requires Inv(s)
    ensures Inv(Next(s, e))
  {
    if e.PageActs? || e.Remove? {
      forall b | b in s.binds ensures BindOk(Next(s, e), b) { assert BindOk(s, b); }
    } else if e.BeginFill? || e.RunFill? || e.RunVerify? || e.WriteFilled? || e.StopFill? {
      FillKeepsInv(s, e);
    } else if e.BeginCreate? || e.BeginRebind? {
      if BeginsBind(s, e) { BegunBindKeepsInv(s, e.b, e.url); }
    } else {
      BindKeepsInv(s, e);
    }
  }

  lemma {:induction false} RunKeepsInv(page: Page, events: seq<Event>)
    ensures Inv(RunFrom(Start(page), events))
  {
    if events != [] {
      var n := |events| - 1;
      RunKeepsInv(page, events[..n]);
      NextKeepsInv(RunFrom(Start(page), events[..n]), events[n]);
    }
  }

  // ---- Theorems ----------------------------------------------------------------------------------------------------

  /** At most one fill succeeds per challenge, whatever replies are lost, calls repeated, fields
      rebound and pages changed, even with any number of bindings racing each other and the fills. */
  lemma OneFillPerChallenge(page: Page, events: seq<Event>)
    ensures var fills := RunFrom(Start(page), events).fills;
            forall i, j :: 0 <= i < j < |fills| ==> fills[i] != fills[j]
  {
    RunKeepsInv(page, events);
  }

  /** A fill succeeds only after the page, at its readback, shows the code in the bound field. */
  lemma SuccessWasReadBack(s: System, reply: bool)
    requires s.fill.Some? && s.fill.value.ToVerify? && VerifyRun(s, reply).fill.Some?
    ensures var r := s.fill.value.record;
            s.page.url == r.url && s.page.bound.Some? && s.page.bound.value.challenge == r.challenge
            && s.page.bound.value.node in s.page.inputs && s.page.inputs[s.page.bound.value.node].value == s.fill.value.code
  {
  }

  /** No binding begins beside a fill, nor a fill beside a binding. */
  predicate Yields(s: System, e: Event) {
    (BeginsFill(s, e) ==> s.binds == map[]) && (BeginsBind(s, e) ==> s.fill.None?)
  }

  /** In this run no binding is under way beside a fill. */
  ghost predicate Serial(s: System, events: seq<Event>) {
    events == [] ||
    var n := |events| - 1;
    Serial(s, events[..n]) && Yields(RunFrom(s, events[..n]), events[n])
  }

  /** A filled record has no binding or fill under way that would replace it. */
  predicate Calm(s: System) {
    && (s.fill.None? || s.binds == map[])
    && (s.record.Some? && s.record.value.filled ==> s.binds == map[] && s.fill.None?)
  }

  lemma CalmStep(s: System, e: Event)
    requires Calm(s) && Yields(s, e)
    ensures Calm(Next(s, e))
  {
  }

  lemma {:induction false} CalmRun(s: System, events: seq<Event>)
    requires Calm(s) && Serial(s, events)
    ensures Calm(RunFrom(s, events))
  {
    if events != [] {
      var n := |events| - 1;
      CalmRun(s, events[..n]);
      CalmStep(RunFrom(s, events[..n]), events[n]);
    }
  }

  /** Nothing but its removal changes a record whose code is filled. */
  ghost predicate FilledStays(s: System, e: Event) {
    s.record.Some? && s.record.value.filled && !e.Remove? ==> Next(s, e).record == s.record
  }

  /** It stays so at every step of the run. */
  ghost predicate StaysFilled(s: System, events: seq<Event>) {
    events == [] ||
    var n := |events| - 1;
    StaysFilled(s, events[..n]) && FilledStays(RunFrom(s, events[..n]), events[n])
  }

  /** In a run where no binding is under way beside a fill, a filled record is changed by nothing else. */
  lemma {:induction false} SerialStaysFilled(s: System, events: seq<Event>)
    requires Calm(s) && Serial(s, events)
    ensures StaysFilled(s, events)
  {
    if events != [] {
      var n := |events| - 1;
      SerialStaysFilled(s, events[..n]);
      CalmRun(s, events[..n]);
    }
  }

  // ---- A binding beside a fill -----------------------------------------------------------------------------------------

  /** No event begins a fill or a binding. */
  predicate Quiet(events: seq<Event>) { forall e :: e in events ==> !e.BeginFill? && !e.BeginCreate? && !e.BeginRebind? }

  lemma {:induction false} QuietIsSerial(s: System, events: seq<Event>)
    requires Quiet(events)
    ensures Serial(s, events)
  {
    if events != [] {
      var n := |events| - 1;
      assert events[n] in events;
      QuietIsSerial(s, events[..n]);
    }
  }

  lemma RunOn(s: System, events: seq<Event>, e: Event)
    ensures RunFrom(s, events + [e]) == Next(RunFrom(s, events), e)
  {
  }

  /** A page whose only input is a code field with this value, bound to the challenge. */
  function Simple(url: string, value: string, challenge: nat): Page {
    Page(url, map[0 := Input(value, Some(challenge), true, true, true)], Some(Binding(challenge, url, 0)))
  }

  lemma BindsSimple(url: string, value: string, former: nat, challenge: nat)
    ensures Bound(Simple(url, value, former), challenge).0
    ensures Bound(Simple(url, value, former), challenge).1.url == url
  {
    assert CodeFields(Simple(url, value, former)) == {0};
  }

  /** A fill of a page that keeps its field is accepted. */
  lemma {:induction false} FillsOn(s: System, before: seq<Event>) returns (events: seq<Event>)
    requires Quiet(before) && RunFrom(s, before).fill.Some? && RunFrom(s, before).fill.value.ToFill?
    ensures Quiet(events)
    ensures var t, u := RunFrom(s, before), RunFrom(s, events);
            && u.fill == Some(ToVerify(t.fill.value.record, t.fill.value.code))
            && u.binds == t.binds && u.record == t.record
  {
    var fill := RunFrom(s, before).fill.value;
    var page := Simple(fill.record.url, fill.code, fill.record.challenge);
    var a := before + [PageActs(page)];
    RunOn(s, before, PageActs(page));
    events := a + [RunFill(true)];
    RunOn(s, a, RunFill(true));
  }

  /** It is read back, and comes to its last write. */
  lemma {:induction false} VerifiesOn(s: System, before: seq<Event>) returns (events: seq<Event>)
    requires Quiet(before) && RunFrom(s, before).fill.Some? && RunFrom(s, before).fill.value.ToVerify?
    ensures Quiet(events)
    ensures var t, u := RunFrom(s, before), RunFrom(s, events);
            u.fill == Some(ToWrite(t.fill.value.record)) && u.binds == t.binds && u.record == t.record
  {
    var fill := RunFrom(s, before).fill.value;
    var page := Simple(fill.record.url, fill.code, fill.record.challenge);
    var a := before + [PageActs(page)];
    RunOn(s, before, PageActs(page));
    events := a + [RunVerify(true)];
    RunOn(s, a, RunVerify(true));
  }

  /** The binding of a page with one code field comes to its last write. */
  lemma {:induction false} BindsOn(s: System, before: seq<Event>, b: nat) returns (events: seq<Event>)
    requires Quiet(before) && b in RunFrom(s, before).binds
    ensures Quiet(events)
    ensures var t, u := RunFrom(s, before), RunFrom(s, events);
            u.fill == t.fill && u.record == t.record && b in u.binds && u.binds[b] == ToRecord(t.binds[b].url, t.binds[b].challenge)
  {
    var call := RunFrom(s, before).binds[b];
    if call.ToRecord? { return before; }
    var page := Simple(call.url, "", call.challenge);
    BindsSimple(call.url, "", call.challenge, call.challenge);
    var a := before + [PageActs(page)];
    RunOn(s, before, PageActs(page));
    events := a + [RunBind(b, true)];
    RunOn(s, a, RunBind(b, true));
  }

  /** The fill writes its record, and the binding beside it replaces it. */
  lemma {:induction false} RebindRaces(s: System, b: nat) returns (events: seq<Event>)
    requires s.fill.Some? && b in s.binds
    ensures Quiet(events) && !StaysFilled(s, events)
  {
    var x: seq<Event> := [];
    if s.fill.value.ToFill? { x := FillsOn(s, x); }
    if RunFrom(s, x).fill.value.ToVerify? { x := VerifiesOn(s, x); }
    var y := BindsOn(s, x, b);
    var z := y + [WriteFilled];
    RunOn(s, y, WriteFilled);
    var last := RunFrom(s, z);
    assert last.record.value.filled && !Next(last, WriteBound(b)).record.value.filled;
    events := z + [WriteBound(b)];
    assert events[..|events| - 1] == z;
  }

  /** When a fill or a binding may begin, exactly: after any serial run, an event leaves a filled record
      unchanged in every continuation in which nothing further begins if and only if it begins no binding
      beside a fill and no fill beside a binding. */
  lemma {:induction false} FilledStaysExactly(page: Page, events: seq<Event>, e: Event)
    requires Serial(Start(page), events)
    ensures var s := RunFrom(Start(page), events);
            (forall more :: Quiet(more) ==> StaysFilled(Next(s, e), more)) <==> Yields(s, e)
  {
    var s := RunFrom(Start(page), events);
    var t := Next(s, e);
    CalmRun(Start(page), events);
    if Yields(s, e) {
      CalmStep(s, e);
      forall more | Quiet(more) ensures StaysFilled(t, more) {
        QuietIsSerial(t, more);
        SerialStaysFilled(t, more);
      }
    } else {
      var b :| b in t.binds;
      var more := RebindRaces(t, b);
      assert !StaysFilled(t, more);
    }
  }

  // ---- Calls that nothing disturbs ------------------------------------------------------------------------

  lemma RunOfThree(s: System, a: Event, b: Event, c: Event)
    ensures RunFrom(s, [a, b, c]) == Next(Next(Next(s, a), b), c)
  {
    assert [a, b, c][..2] == [a, b] && [a, b][..1] == [a];
    assert RunFrom(s, [a]) == Next(s, a);
  }

  /** A binding that nothing disturbs makes the page's one code field the field of a new challenge, and
      records the challenge, not filled yet. */
  lemma {:induction false} BindCompletes(s: System, b: nat, n: nat, begin: Event)
    requires CodeFields(s.page) == {n} && BeginsBind(s, begin) && begin.b == b && begin.url == s.page.url
    ensures var t := RunFrom(s, [begin, RunBind(b, true), WriteBound(b)]);
            && t.record == Some(Record(s.issued, false, s.page.url)) && t.issued == s.issued + 1
            && t.page.url == s.page.url && t.page.bound == Some(Binding(s.issued, s.page.url, n))
            && t.page.inputs == s.page.inputs[n := s.page.inputs[n].(tag := Some(s.issued))]
            && b !in t.binds && t.fills == s.fills
  {
    RunOfThree(s, begin, RunBind(b, true), WriteBound(b));
    var m := Bound(s.page, s.issued).1.bound.value.node;
    assert m in CodeFields(s.page);
  }

  /** A fill that nothing disturbs enters the code of the email and marks the challenge filled, once the
      field was empty or held that code already. */
  lemma {:induction false} FillCompletes(s: System, code: string)
    requires s.fill.None? && s.record.Some? && !s.record.value.filled
    requires Accepts(s.page, s.record.value.challenge, s.record.value.url, code)
    ensures var r, n := s.record.value, s.page.bound.value.node;
            var t := Next(RunFrom(s, [BeginFill(r.challenge, Some(code)), RunFill(true), RunVerify(true)]), WriteFilled);
            && t.record == Some(r.(filled := true)) && t.fills == s.fills + [r.challenge] && t.fill.None?
            && t.page == s.page.(inputs := s.page.inputs[n := s.page.inputs[n].(value := code)])
  {
    var r := s.record.value;
    RunOfThree(s, BeginFill(r.challenge, Some(code)), RunFill(true), RunVerify(true));
  }

  // ---- Where a challenge was bound ------------------------------------------------------------------------

  /** Event `k` of the run binds this challenge on this page, to its one code field. */
  ghost predicate BoundAt(page: Page, events: seq<Event>, k: nat, challenge: nat, url: string) {
    && k < |events| && events[k].RunBind?
    && var s := RunFrom(Start(page), events[..k]);
       && events[k].b in s.binds && s.binds[events[k].b] == ToBind(url, challenge)
       && s.page.url == url && |CodeFields(s.page)| == 1
  }

  ghost predicate WasBound(page: Page, events: seq<Event>, challenge: nat, url: string) {
    exists k: nat :: BoundAt(page, events, k, challenge, url)
  }

  lemma {:induction false} StillBoundBefore(page: Page, events: seq<Event>, challenge: nat, url: string)
    requires events != [] && WasBound(page, events[..|events| - 1], challenge, url)
    ensures WasBound(page, events, challenge, url)
  {
    var n := |events| - 1;
    var k: nat :| BoundAt(page, events[..n], k, challenge, url);
    assert events[..n][..k] == events[..k];
    assert BoundAt(page, events, k, challenge, url);
  }

  /** What the record, the fill and the bindings that have been made name was bound. */
  ghost predicate AllBound(page: Page, events: seq<Event>) {
    var s := RunFrom(Start(page), events);
    && (s.record.Some? ==> WasBound(page, events, s.record.value.challenge, s.record.value.url))
    && (s.fill.Some? ==> WasBound(page, events, s.fill.value.record.challenge, s.fill.value.record.url))
    && (forall b :: b in s.binds && s.binds[b].ToRecord? ==> WasBound(page, events, s.binds[b].challenge, s.binds[b].url))
  }

  lemma {:induction false} RecordsStayBound(page: Page, events: seq<Event>)
    requires events != [] && AllBound(page, events[..|events| - 1])
    ensures var t := RunFrom(Start(page), events);
            && (t.record.Some? ==> WasBound(page, events, t.record.value.challenge, t.record.value.url))
            && (t.fill.Some? ==> WasBound(page, events, t.fill.value.record.challenge, t.fill.value.record.url))
  {
    var s, e := RunFrom(Start(page), events[..|events| - 1]), events[|events| - 1];
    RecordComesFrom(s, e);
    if s.record.Some? { StillBoundBefore(page, events, s.record.value.challenge, s.record.value.url); }
    if s.fill.Some? { StillBoundBefore(page, events, s.fill.value.record.challenge, s.fill.value.record.url); }
    if e.WriteBound? && e.b in s.binds && s.binds[e.b].ToRecord? {
      StillBoundBefore(page, events, s.binds[e.b].challenge, s.binds[e.b].url);
    }
  }

  predicate SameBinding(a: Record, b: Record) { a.challenge == b.challenge && a.url == b.url }

  /** The record and the fill are about what the record, the fill or the binding were about. */
  lemma {:induction false} RecordComesFrom(s: System, e: Event)
    ensures var t := Next(s, e);
            && (t.record.Some? ==>
                  || (s.record.Some? && SameBinding(t.record.value, s.record.value))
                  || (s.fill.Some? && SameBinding(t.record.value, s.fill.value.record))
                  || (e.WriteBound? && e.b in s.binds && s.binds[e.b].ToRecord?
                      && t.record.value.challenge == s.binds[e.b].challenge && t.record.value.url == s.binds[e.b].url))
            && (t.fill.Some? ==>
                  || (s.record.Some? && SameBinding(t.fill.value.record, s.record.value))
                  || (s.fill.Some? && SameBinding(t.fill.value.record, s.fill.value.record)))
  {
  }

  /** A binding that has been made was there already, or is made by this event. */
  lemma {:induction false} BindComesFrom(s: System, e: Event, b: nat)
    requires b in Next(s, e).binds && Next(s, e).binds[b].ToRecord?
    ensures b in s.binds
    ensures var c, d := s.binds[b], Next(s, e).binds[b];
            || d == c
            || (e.RunBind? && e.b == b && c == ToBind(d.url, d.challenge) && s.page.url == d.url && |CodeFields(s.page)| == 1)
  {
  }

  lemma {:induction false} StepKeepsBound(page: Page, events: seq<Event>)
    requires events != [] && AllBound(page, events[..|events| - 1])
    ensures AllBound(page, events)
  {
    var n := |events| - 1;
    var s, t, e := RunFrom(Start(page), events[..n]), RunFrom(Start(page), events), events[n];
    RecordsStayBound(page, events);
    forall b | b in t.binds && t.binds[b].ToRecord? ensures WasBound(page, events, t.binds[b].challenge, t.binds[b].url) {
      BindComesFrom(s, e, b);
      if t.binds[b] == s.binds[b] {
        StillBoundBefore(page, events, s.binds[b].challenge, s.binds[b].url);
      } else {
        assert BoundAt(page, events, n, t.binds[b].challenge, t.binds[b].url);
      }
    }
  }

  /** In every run, the challenge a record names was bound to the one code field of the page at the record's
      URL. */
  lemma {:induction false} RecordWasBound(page: Page, events: seq<Event>)
    ensures AllBound(page, events)
  {
    if events != [] {
      RecordWasBound(page, events[..|events| - 1]);
      StepKeepsBound(page, events);
    }
  }
}
