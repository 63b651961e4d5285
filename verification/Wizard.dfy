/** The Workday-style wizard of `scripts/mock_workday.py`: the server's check of one page, and the
    page script's save, back and submit against the server's draft. */
module Wizard {
  import opened Wrappers
  import opened Text
  import opened JsonValues
  import opened Store

  /** `PhoneText` and `EmailText` are the text fields named `phoneNumber` and `email`. */
  datatype Kind =
    | Dropdown | Radio | Checkgroup | Prompt | Checkbox | Date
    | PlainText | PhoneText | EmailText | File | AddSection

  /** A prompt offers the leaves of its tree or, without one, its options' labels. */
  datatype Field = Field(
    name: string, kind: Kind, required: bool, single: bool,
    options: seq<(string, string)>, tree: seq<seq<string>>)

  datatype Page = Page(id: string, fields: seq<Field>)

  /** `str`, and the patterns and the calendar the checks use. */
  datatype Checks = Checks(str: Json -> string, email: string -> bool, phone: string -> bool, date: string -> bool)

  datatype Message = UnknownPage | Missing | NotListed | NotOneBox | NotAnItem | NotADate | CodeIncluded | NotTenDigits | NotAnEmail

  type Answers = map<string, Json>

  // ---- One page ------------------------------------------------------------------------------------

  /** `value in (None, "", [], False)`: zero equals False. */
  predicate Empty(v: Json) {
    v.Null? || v == Str("") || v == List([]) || v == Bool(false) || v == Number(0.0)
  }

  function Answer(values: Answers, name: string): Json {
    if name in values then values[name] else Null
  }

  function Chosen(v: Json): seq<Json> {
    if v.List? then v.items else [v]
  }

  predicate IsValue(f: Field, v: Json) {
    v.Str? && exists i :: 0 <= i < |f.options| && f.options[i].0 == v.s
  }

  function Leaves(tree: seq<seq<string>>): seq<string> {
    if tree == [] then [] else tree[0] + Leaves(tree[1..])
  }

  function PromptLeaves(f: Field): seq<string> {
    if f.tree != [] then Leaves(f.tree) else seq(|f.options|, i requires 0 <= i < |f.options| => f.options[i].1)
  }

  predicate IsLeaf(f: Field, v: Json) {
    v.Str? && v.s in PromptLeaves(f)
  }

  function FormatError(f: Field, v: Json, checks: Checks): Option<Message> {
    match f.kind
    case Dropdown => if IsValue(f, v) then None else Some(NotListed)
    case Radio => if IsValue(f, v) then None else Some(NotListed)
    case Checkgroup => if |Chosen(v)| == 1 && IsValue(f, Chosen(v)[0]) then None else Some(NotOneBox)
    case Prompt =>
      if Chosen(v) == [] || (exists i :: 0 <= i < |Chosen(v)| && !IsLeaf(f, Chosen(v)[i])) || (f.single && |Chosen(v)| != 1)
      then Some(NotAnItem) else None
    case Checkbox => if v == Bool(true) then None else Some(Missing)
    case Date => if checks.date(checks.str(v)) then None else Some(NotADate)
    case PhoneText =>
      var text := Strip(checks.str(v));
      if "+" <= text then Some(CodeIncluded)
      else if !checks.phone(text) || |Digits(text)| != 10 then Some(NotTenDigits)
      else None
    case EmailText => if checks.email(checks.str(v)) then None else Some(NotAnEmail)
    case _ => None
  }

  function FieldError(f: Field, values: Answers, resume: Option<nat>, checks: Checks): Option<Message> {
    var v := Answer(values, f.name);
    if f.kind.AddSection? then None
    else if (if f.kind.File? then resume.None? else Empty(v)) then (if f.required then Some(Missing) else None)
    else FormatError(f, v, checks)
  }

  function FieldErrors(fields: seq<Field>, values: Answers, resume: Option<nat>, checks: Checks): map<string, Message> {
    if fields == [] then map[]
    else
      var n := |fields| - 1;
      var before := FieldErrors(fields[..n], values, resume, checks);
      match FieldError(fields[n], values, resume, checks)
      case None => before
      case Some(m) => before[fields[n].name := m]
  }

  function PageOf(pages: seq<Page>, id: string): Option<Page> {
    if pages == [] then None else if pages[0].id == id then Some(pages[0]) else PageOf(pages[1..], id)
  }

  function PageErrors(pages: seq<Page>, id: string, values: Answers, resume: Option<nat>, checks: Checks): map<string, Message> {
    match PageOf(pages, id)
    case None => map["_page" := UnknownPage]
    case Some(page) => FieldErrors(page.fields, values, resume, checks)
  }

  method ValidatePage(pages: seq<Page>, id: string, values: Answers, resume: Option<nat>, checks: Checks)
    returns (errors: map<string, Message>)
    ensures errors == PageErrors(pages, id, values, resume, checks)
  {
    var page := PageOf(pages, id);
    if page.None? { return map["_page" := UnknownPage]; }
    var fields := page.value.fields;
    errors := map[];
    for k := 0 to |fields|
      invariant errors == FieldErrors(fields[..k], values, resume, checks)
    {
      assert fields[..k + 1][..k] == fields[..k];
      var f := fields[k];
      if !f.kind.AddSection? {
        var value := Answer(values, f.name);
        var empty := Empty(value);
        if f.kind.File? { empty := resume.None?; }
        if empty {
          if f.required { errors := errors[f.name := Missing]; }
        } else {
          var error := FormatError(f, value, checks);
          if error.Some? { errors := errors[f.name := error.value]; }
        }
      }
    }
    assert fields[..|fields|] == fields;
  }

  lemma {:induction false} NoErrorsExactly(fields: seq<Field>, values: Answers, resume: Option<nat>, checks: Checks)
    ensures FieldErrors(fields, values, resume, checks) == map[]
            <==> forall i :: 0 <= i < |fields| ==> FieldError(fields[i], values, resume, checks).None?
  {
    if fields != [] {
      var n := |fields| - 1;
      NoErrorsExactly(fields[..n], values, resume, checks);
      assert forall i :: 0 <= i < n ==> fields[..n][i] == fields[i];
      if FieldError(fields[n], values, resume, checks).Some? {
        assert fields[n].name in FieldErrors(fields, values, resume, checks);
      }
    }
  }

  /** A resume can only be added or replaced: what was accepted without one, or with another, still is. */
  predicate AtLeast(before: Option<nat>, after: Option<nat>) {
    before.Some? ==> after.Some?
  }

  lemma StillValid(pages: seq<Page>, id: string, values: Answers, before: Option<nat>, after: Option<nat>, checks: Checks)
    requires AtLeast(before, after) && PageErrors(pages, id, values, before, checks) == map[]
    ensures PageErrors(pages, id, values, after, checks) == map[]
  {
    var page := PageOf(pages, id);
    if page.Some? {
      NoErrorsExactly(page.value.fields, values, before, checks);
      NoErrorsExactly(page.value.fields, values, after, checks);
    }
  }

  // ---- The script and the server ------------------------------------------------------------------------

  /** A save on its way: sent, its draft read by the server, answered. */
  datatype Stage = Sent | Checking(resume: Option<nat>) | Replied(ok: bool)

  datatype Save = Save(page: nat, values: Answers, stage: Stage)

  /** One open wizard document: its account, its page, its saves under way and its submits under way. */
  datatype Client = Client(email: string, index: nat, saves: seq<Save>, submits: nat)

  /** A save whose answer never reaches its document: the server may still take it. */
  datatype Orphan = Orphan(email: string, save: Save)

  /** `outcomes` are the server's answers to the submits. */
  datatype System = System(drafts: map<string, WdDraft>, clients: map<nat, Client>, orphans: seq<Orphan>, outcomes: seq<bool>)

  datatype Event =
    | Load(c: nat, email: string)
    | Click(c: nat, values: Answers)
    | Back(c: nat)
    | ReadDraft(c: nat, k: nat)
    | Decide(c: nat, k: nat)
    | Receive(c: nat, k: nat)
    | Lose(c: nat, k: nat)
    | ReadForOrphan(j: nat)
    | DecideOrphan(j: nat)
    | ReadSubmit(c: nat)
    | Upload(email: string, resume: nat)
    | Restart

  datatype World = World(pages: seq<Page>, checks: Checks)

  function DraftIn(drafts: map<string, WdDraft>, email: string): WdDraft {
    if email in drafts then drafts[email] else BLANK
  }

  function WithPage(drafts: map<string, WdDraft>, email: string, id: string, values: Answers): map<string, WdDraft> {
    var d := DraftIn(drafts, email);
    drafts[email := d.(pages := d.pages[id := values])]
  }

  function WithResume(drafts: map<string, WdDraft>, email: string, resume: nat): map<string, WdDraft> {
    drafts[email := DraftIn(drafts, email).(resume := Some(resume))]
  }

  predicate Stored(d: WdDraft, id: string, w: World) {
    id in d.pages && PageErrors(w.pages, id, d.pages[id], d.resume, w.checks) == map[]
  }

  /** The server's answer to a submit: no page is missing or no longer valid. */
  predicate Accepts(d: WdDraft, w: World) {
    forall i :: 0 <= i < |w.pages| ==> Stored(d, w.pages[i].id, w)
  }

  /** The button of the footer: "Save and Continue", or "Submit" on Review. */
  function Clicked(c: Client, values: Answers, w: World): Client {
    if c.index >= |w.pages| then c.(submits := c.submits + 1)
    else c.(saves := c.saves + [Save(c.index, values, Sent)])
  }

  function Without(saves: seq<Save>, k: nat): seq<Save>
    requires k < |saves|
  {
    saves[..k] + saves[k + 1..]
  }

  predicate AtStage(s: System, c: nat, k: nat) {
    c in s.clients && k < |s.clients[c].saves|
  }

  /** The server's check of a save, with the resume it read. */
  predicate Passes(save: Save, w: World)
    requires save.stage.Checking? && save.page < |w.pages|
  {
    PageErrors(w.pages, w.pages[save.page].id, save.values, save.stage.resume, w.checks) == map[]
  }

  function Taken(drafts: map<string, WdDraft>, email: string, save: Save, w: World): map<string, WdDraft>
    requires save.stage.Checking? && save.page < |w.pages|
  {
    if Passes(save, w) then WithPage(drafts, email, w.pages[save.page].id, save.values) else drafts
  }

  function Decided(s: System, c: nat, k: nat, w: World): System
    requires AtStage(s, c, k) && s.clients[c].saves[k].stage.Checking? && s.clients[c].saves[k].page < |w.pages|
  {
    var client := s.clients[c];
    var save := client.saves[k];
    s.(drafts := Taken(s.drafts, client.email, save, w),
       clients := s.clients[c := client.(saves := client.saves[k := save.(stage := Replied(Passes(save, w)))])])
  }

  function OrphanDecided(s: System, j: nat, w: World): System
    requires j < |s.orphans| && s.orphans[j].save.stage.Checking? && s.orphans[j].save.page < |w.pages|
  {
    var o := s.orphans[j];
    s.(drafts := Taken(s.drafts, o.email, o.save, w),
       orphans := s.orphans[j := o.(save := o.save.(stage := Replied(Passes(o.save, w))))])
  }

  function Received(c: Client, k: nat): Client
    requires k < |c.saves| && c.saves[k].stage.Replied?
  {
    Client(c.email, if c.saves[k].stage.ok then c.index + 1 else c.index, Without(c.saves, k), c.submits)
  }

  function WentBack(c: Client): Client {
    if c.index > 0 then c.(index := c.index - 1) else c
  }

  /** The document's script: its page, and the requests it waits for. */
  class Script {
    const w: World
    const email: string
    var index: nat
    var saves: seq<Save>
    var submits: nat

    ghost function Shows(): Client
      reads this
    {
      Client(email, index, saves, submits)
    }

    constructor (w: World, email: string)
      ensures this.w == w && Shows() == Client(email, 0, [], 0)
    {
      this.w, this.email := w, email;
      index, saves, submits := 0, [], 0;
    }

    method OnNext(values: Answers)
      modifies this
      ensures Shows() == Clicked(old(Shows()), values, w)
    {
      if index >= |w.pages| {
        submits := submits + 1;
        return;
      }
      saves := saves + [Save(index, values, Sent)];
    }

    method OnBack()
      modifies this
      ensures Shows() == WentBack(old(Shows()))
    {
      if index > 0 { index := index - 1; }
    }

    /** A save's answer: the page advances from where it is by then, if the server took the save. */
    method OnReply(k: nat)
      requires k < |saves| && saves[k].stage.Replied?
      modifies this
      ensures Shows() == Received(old(Shows()), k)
    {
      if saves[k].stage.ok { index := index + 1; }
      saves := saves[..k] + saves[k + 1..];
    }
  }

  /** One atomic step; a step that is not due does nothing. */
  function Next(s: System, e: Event, w: World): System {
    match e
    case Load(c, email) => s.(clients := s.clients[c := Client(email, 0, [], 0)])
    case Click(c, values) => if c in s.clients then s.(clients := s.clients[c := Clicked(s.clients[c], values, w)]) else s
    case Back(c) =>
      if c in s.clients then s.(clients := s.clients[c := WentBack(s.clients[c])]) else s
    case ReadDraft(c, k) =>
      if AtStage(s, c, k) && s.clients[c].saves[k].stage.Sent? then
        var client := s.clients[c];
        var save := client.saves[k].(stage := Checking(DraftIn(s.drafts, client.email).resume));
        s.(clients := s.clients[c := client.(saves := client.saves[k := save])])
      else s
    case Decide(c, k) =>
      if AtStage(s, c, k) && s.clients[c].saves[k].stage.Checking? && s.clients[c].saves[k].page < |w.pages|
      then Decided(s, c, k, w) else s
    case Receive(c, k) =>
      if AtStage(s, c, k) && s.clients[c].saves[k].stage.Replied?
      then s.(clients := s.clients[c := Received(s.clients[c], k)]) else s
    case Lose(c, k) =>
      if AtStage(s, c, k) then
        s.(clients := s.clients[c := s.clients[c].(saves := Without(s.clients[c].saves, k))],
           orphans := s.orphans + [Orphan(s.clients[c].email, s.clients[c].saves[k])])
      else s
    case ReadForOrphan(j) =>
      if j < |s.orphans| && s.orphans[j].save.stage.Sent? then
        var o := s.orphans[j];
        s.(orphans := s.orphans[j := o.(save := o.save.(stage := Checking(DraftIn(s.drafts, o.email).resume)))])
      else s
    case DecideOrphan(j) =>
      if j < |s.orphans| && s.orphans[j].save.stage.Checking? && s.orphans[j].save.page < |w.pages| then OrphanDecided(s, j, w) else s
    case ReadSubmit(c) =>
      if c in s.clients && s.clients[c].submits > 0 then
        s.(clients := s.clients[c := s.clients[c].(submits := s.clients[c].submits - 1)],
           outcomes := s.outcomes + [Accepts(DraftIn(s.drafts, s.clients[c].email), w)])
      else s
    case Upload(email, resume) => s.(drafts := WithResume(s.drafts, email, resume))
    case Restart => s.(clients := map c | c in s.clients :: s.clients[c].(saves := [], submits := 0), orphans := [])
  }

  const START := System(map[], map[], [], [])

  function RunFrom(s: System, events: seq<Event>, w: World): System
    decreases |events|
  {
    if events == [] then s else RunFrom(Next(s, events[0], w), events[1..], w)
  }

  function Run(events: seq<Event>, w: World): System { RunFrom(START, events, w) }

  /** The drafts here are the store's. */
  lemma StoreKeepsDrafts(d: Data, email: string, id: string, values: Answers, resume: nat, lib: Lib)
    ensures Applied(d, WdSavePage(email, id, values), lib).wizards == WithPage(d.wizards, email, id, values)
    ensures Applied(d, WdSetResume(email, resume), lib).wizards == WithResume(d.wizards, email, resume)
    ensures DraftOf(d, email) == DraftIn(d.wizards, email)
  {
  }
}
