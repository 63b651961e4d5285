/** The wizard over every run: which clicks keep a document from getting ahead of its saved pages, and
    that Submit from Review is then always accepted. */
module WizardTheorems {
  import opened Wrappers
  import opened JsonValues
  import opened Store
  import opened Wizard

  // ---- Which clicks are careful -------------------------------------------------------------------------------

  /** The server can still take the save, or has; a resume can be uploaded before it looks. */
  predicate Could(save: Save, w: World) {
    save.page < |w.pages|
    && (match save.stage
        case Sent => PageErrors(w.pages, w.pages[save.page].id, save.values, Some(0), w.checks) == map[]
        case Checking(resume) => Passes(save, w)
        case Replied(ok) => ok)
  }

  /** An answer that can take the document on although it stores nothing for page `n`. */
  predicate Skips(save: Save, n: nat, w: World) { save.page != n && Could(save, w) }

  function Others(saves: seq<Save>, n: nat, w: World): nat {
    if saves == [] then 0
    else
      var k := |saves| - 1;
      Others(saves[..k], n, w) + (if Skips(saves[k], n, w) then 1 else 0)
  }

  /** Page `n` is stored, or all answers the document waits for cannot take it beyond the page without storing it. */
  predicate Behind(c: Client, d: WdDraft, n: nat, w: World)
    requires n < |w.pages|
  {
    Stored(d, w.pages[n].id, w) || c.index + Others(c.saves, n, w) <= n
  }

  /** The click submits, or leaves the document behind every later page that is not stored. */
  predicate MayClick(c: Client, d: WdDraft, values: Answers, w: World) {
    forall n :: c.index < n < |w.pages| ==> Behind(Clicked(c, values, w), d, n, w)
  }

  predicate Allowed(s: System, e: Event, w: World) {
    e.Click? && e.c in s.clients ==> MayClick(s.clients[e.c], DraftIn(s.drafts, s.clients[e.c].email), e.values, w)
  }

  predicate Careful(s: System, events: seq<Event>, w: World)
    decreases |events|
  {
    events == [] || (Allowed(s, events[0], w) && Careful(Next(s, events[0], w), events[1..], w))
  }

  /** No click sends a page while the document still waits for the answer to another save. */
  predicate Waits(s: System, e: Event, w: World) {
    e.Click? && e.c in s.clients && s.clients[e.c].index < |w.pages| ==> s.clients[e.c].saves == []
  }

  /** In this run every document waits for each save's answer before it sends another page. */
  predicate OneAtATime(s: System, events: seq<Event>, w: World)
    decreases |events|
  {
    events == [] || (Waits(s, events[0], w) && OneAtATime(Next(s, events[0], w), events[1..], w))
  }

  lemma OneSave(save: Save, n: nat, w: World)
    ensures Others([save], n, w) <= 1
  {
    assert [save][..0] == [];
  }

  lemma WaitingMayClick(c: Client, d: WdDraft, values: Answers, w: World)
    requires c.saves == [] || c.index >= |w.pages|
    ensures MayClick(c, d, values, w)
  {
    var x := Clicked(c, values, w);
    forall n | c.index < n < |w.pages| ensures Behind(x, d, n, w) {
      OneSave(Save(c.index, values, Sent), n, w);
      assert x.saves == [Save(c.index, values, Sent)];
    }
  }

  lemma {:induction false} OneAtATimeIsCareful(s: System, events: seq<Event>, w: World)
    requires OneAtATime(s, events, w)
    ensures Careful(s, events, w)
    decreases |events|
  {
    if events != [] {
      var e := events[0];
      if e.Click? && e.c in s.clients { WaitingMayClick(s.clients[e.c], DraftIn(s.drafts, s.clients[e.c].email), e.values, w); }
      OneAtATimeIsCareful(Next(s, e, w), events[1..], w);
    }
  }

  // ---- Counting the answers that skip a page ------------------------------------------------------------------

  function One(save: Save, n: nat, w: World): nat { if Skips(save, n, w) then 1 else 0 }

  lemma OthersMore(saves: seq<Save>, save: Save, n: nat, w: World)
    ensures Others(saves + [save], n, w) == Others(saves, n, w) + One(save, n, w)
  {
    assert (saves + [save])[..|saves|] == saves;
  }

  lemma {:induction false} OthersUpdated(saves: seq<Save>, k: nat, save: Save, n: nat, w: World)
    requires k < |saves|
    ensures Others(saves[k := save], n, w) + One(saves[k], n, w) == Others(saves, n, w) + One(save, n, w)
  {
    var m := |saves| - 1;
    if k == m {
      assert saves[k := save][..m] == saves[..m];
    } else {
      OthersUpdated(saves[..m], k, save, n, w);
      assert saves[k := save][..m] == saves[..m][k := save];
    }
  }

  lemma {:induction false} OthersWithout(saves: seq<Save>, k: nat, n: nat, w: World)
    requires k < |saves|
    ensures Others(Without(saves, k), n, w) + One(saves[k], n, w) == Others(saves, n, w)
  {
    var m := |saves| - 1;
    if k == m {
      assert Without(saves, k) == saves[..m];
    } else {
      OthersWithout(saves[..m], k, n, w);
      assert Without(saves, k) == Without(saves[..m], k) + [saves[m]];
      OthersMore(Without(saves[..m], k), saves[m], n, w);
    }
  }

  lemma {:induction false} SomeOther(saves: seq<Save>, n: nat, w: World) returns (k: nat)
    requires Others(saves, n, w) > 0
    ensures k < |saves| && Skips(saves[k], n, w)
  {
    k := |saves| - 1;
    if !Skips(saves[k], n, w) { k := SomeOther(saves[..k], n, w); }
  }

  // ---- What every careful run keeps -----------------------------------------------------------------------------

  predicate SaveOk(save: Save, d: WdDraft, w: World) {
    && save.page < |w.pages|
    && (match save.stage
        case Sent => true
        case Checking(resume) => AtLeast(resume, d.resume)
        case Replied(ok) => ok ==> Stored(d, w.pages[save.page].id, w))
  }

  predicate ClientOk(c: Client, d: WdDraft, w: World) {
    && (forall n :: 0 <= n < |w.pages| ==> Behind(c, d, n, w))
    && (forall k :: 0 <= k < |c.saves| ==> SaveOk(c.saves[k], d, w))
    && (c.submits > 0 ==> Accepts(d, w))
  }

  predicate ClientsOk(s: System, w: World) {
    forall c :: c in s.clients ==> ClientOk(s.clients[c], DraftIn(s.drafts, s.clients[c].email), w)
  }

  predicate OrphanOk(o: Orphan, d: WdDraft, w: World) {
    o.save.page < |w.pages| && (o.save.stage.Checking? ==> AtLeast(o.save.stage.resume, d.resume))
  }

  predicate OrphansOk(s: System, w: World) {
    forall j :: 0 <= j < |s.orphans| ==> OrphanOk(s.orphans[j], DraftIn(s.drafts, s.orphans[j].email), w)
  }

  /** What is saved stays valid. */
  predicate DraftOk(d: WdDraft, w: World) {
    forall id :: id in d.pages ==> Stored(d, id, w)
  }

  predicate DraftsOk(s: System, w: World) {
    forall email :: email in s.drafts ==> DraftOk(s.drafts[email], w)
  }

  predicate Inv(s: System, w: World) {
    && ClientsOk(s, w) && OrphansOk(s, w) && DraftsOk(s, w)
    && forall i :: 0 <= i < |s.outcomes| ==> s.outcomes[i]
  }

  /** The later draft has every page of the earlier one, still valid, and a resume if that had one. */
  predicate Follows(a: WdDraft, b: WdDraft, w: World) {
    AtLeast(a.resume, b.resume) && forall id :: id in a.pages && Stored(a, id, w) ==> Stored(b, id, w)
  }

  lemma ClientOkFollows(c: Client, a: WdDraft, b: WdDraft, w: World)
    requires ClientOk(c, a, w) && Follows(a, b, w)
    ensures ClientOk(c, b, w)
  {
    forall n | 0 <= n < |w.pages| ensures Behind(c, b, n, w) { assert Behind(c, a, n, w); }
    forall k | 0 <= k < |c.saves| ensures SaveOk(c.saves[k], b, w) { assert SaveOk(c.saves[k], a, w); }
    if c.submits > 0 {
      forall i | 0 <= i < |w.pages| ensures Stored(b, w.pages[i].id, w) { assert Stored(a, w.pages[i].id, w); }
    }
  }

  lemma PageFollows(a: WdDraft, id: string, values: Answers, read: Option<nat>, w: World)
    requires AtLeast(read, a.resume) && PageErrors(w.pages, id, values, read, w.checks) == map[]
    ensures Follows(a, a.(pages := a.pages[id := values]), w) && Stored(a.(pages := a.pages[id := values]), id, w)
  {
    StillValid(w.pages, id, values, read, a.resume, w.checks);
  }

  lemma ResumeFollows(a: WdDraft, resume: nat, w: World)
    ensures Follows(a, a.(resume := Some(resume)), w)
  {
    var b := a.(resume := Some(resume));
    forall id | id in a.pages && Stored(a, id, w) ensures Stored(b, id, w) {
      StillValid(w.pages, id, a.pages[id], a.resume, b.resume, w.checks);
    }
  }

  /** A draft that follows, and is in order, leaves all in order, whichever account it belongs to. */
  lemma DraftKeepsInv(s: System, email: string, b: WdDraft, w: World)
    requires Inv(s, w) && Follows(DraftIn(s.drafts, email), b, w) && DraftOk(b, w)
    ensures Inv(s.(drafts := s.drafts[email := b]), w)
  {
    var t := s.(drafts := s.drafts[email := b]);
    forall c | c in t.clients ensures ClientOk(t.clients[c], DraftIn(t.drafts, t.clients[c].email), w) {
      assert ClientOk(s.clients[c], DraftIn(s.drafts, s.clients[c].email), w);
      if s.clients[c].email == email { ClientOkFollows(s.clients[c], DraftIn(s.drafts, email), b, w); }
    }
  }

  /** A save the server takes, read with a resume no newer than the draft's, keeps all in order. */
  lemma TakenKeepsInv(s: System, email: string, save: Save, w: World)
    requires Inv(s, w) && save.stage.Checking? && save.page < |w.pages|
    requires AtLeast(save.stage.resume, DraftIn(s.drafts, email).resume)
    ensures Inv(s.(drafts := Taken(s.drafts, email, save, w)), w)
    ensures Passes(save, w) ==> Stored(DraftIn(Taken(s.drafts, email, save, w), email), w.pages[save.page].id, w)
  {
    var d, id := DraftIn(s.drafts, email), w.pages[save.page].id;
    if Passes(save, w) {
      PageFollows(d, id, save.values, save.stage.resume, w);
      var b := d.(pages := d.pages[id := save.values]);
      assert DraftOk(d, w);
      forall i | i in b.pages ensures Stored(b, i, w) { if i != id { assert Stored(d, i, w); } }
      DraftKeepsInv(s, email, b, w);
    }
  }

  lemma ClientKeepsInv(s: System, c: nat, client: Client, w: World)
    requires Inv(s, w) && ClientOk(client, DraftIn(s.drafts, client.email), w)
    ensures Inv(s.(clients := s.clients[c := client]), w)
  {
    var t := s.(clients := s.clients[c := client]);
    forall x | x in t.clients ensures ClientOk(t.clients[x], DraftIn(t.drafts, t.clients[x].email), w) {
      if x != c { assert ClientOk(s.clients[x], DraftIn(s.drafts, s.clients[x].email), w); }
    }
  }

  /** The answer to a save moved on: it can skip no page it could not skip before. */
  lemma SaveMovedOn(c: Client, d: WdDraft, k: nat, save: Save, w: World)
    requires ClientOk(c, d, w) && k < |c.saves| && SaveOk(save, d, w)
    requires save.page == c.saves[k].page && (Could(save, w) ==> Could(c.saves[k], w))
    ensures ClientOk(c.(saves := c.saves[k := save]), d, w)
  {
    var x := c.(saves := c.saves[k := save]);
    forall n | 0 <= n < |w.pages| ensures Behind(x, d, n, w) {
      assert Behind(c, d, n, w);
      OthersUpdated(c.saves, k, save, n, w);
    }
    forall j | 0 <= j < |x.saves| ensures SaveOk(x.saves[j], d, w) { if j != k { assert SaveOk(c.saves[j], d, w); } }
  }

  lemma ReadKeepsInv(s: System, c: nat, k: nat, w: World)
    requires Inv(s, w) && AtStage(s, c, k) && s.clients[c].saves[k].stage.Sent?
    ensures Inv(Next(s, ReadDraft(c, k), w), w)
  {
    var client := s.clients[c];
    var d, save := DraftIn(s.drafts, client.email), client.saves[k];
    assert ClientOk(client, d, w) && SaveOk(save, d, w);
    var read := save.(stage := Checking(d.resume));
    if Passes(read, w) { StillValid(w.pages, w.pages[save.page].id, save.values, d.resume, Some(0), w.checks); }
    SaveMovedOn(client, d, k, read, w);
    ClientKeepsInv(s, c, client.(saves := client.saves[k := read]), w);
  }

  lemma DecideKeepsInv(s: System, c: nat, k: nat, w: World)
    requires Inv(s, w) && AtStage(s, c, k) && s.clients[c].saves[k].stage.Checking? && s.clients[c].saves[k].page < |w.pages|
    ensures Inv(Decided(s, c, k, w), w)
  {
    var client := s.clients[c];
    var save, d := client.saves[k], DraftIn(s.drafts, client.email);
    assert ClientOk(client, d, w) && SaveOk(save, d, w);
    TakenKeepsInv(s, client.email, save, w);
    var t := s.(drafts := Taken(s.drafts, client.email, save, w));
    var decided := save.(stage := Replied(Passes(save, w)));
    assert ClientOk(t.clients[c], DraftIn(t.drafts, client.email), w);
    SaveMovedOn(client, DraftIn(t.drafts, client.email), k, decided, w);
    ClientKeepsInv(t, c, client.(saves := client.saves[k := decided]), w);
  }

  lemma OrphanKeepsInv(s: System, j: nat, o: Orphan, w: World)
    requires Inv(s, w) && j < |s.orphans| && OrphanOk(o, DraftIn(s.drafts, o.email), w)
    ensures Inv(s.(orphans := s.orphans[j := o]), w)
  {
  }

  lemma OrphanDecideKeepsInv(s: System, j: nat, w: World)
    requires Inv(s, w) && j < |s.orphans| && s.orphans[j].save.stage.Checking? && s.orphans[j].save.page < |w.pages|
    ensures Inv(OrphanDecided(s, j, w), w)
  {
    var o := s.orphans[j];
    assert OrphanOk(o, DraftIn(s.drafts, o.email), w);
    TakenKeepsInv(s, o.email, o.save, w);
    var t := s.(drafts := Taken(s.drafts, o.email, o.save, w));
    OrphanKeepsInv(t, j, o.(save := o.save.(stage := Replied(Passes(o.save, w)))), w);
  }

  lemma ReceiveKeepsInv(s: System, c: nat, k: nat, w: World)
    requires Inv(s, w) && AtStage(s, c, k) && s.clients[c].saves[k].stage.Replied?
    ensures Inv(Next(s, Receive(c, k), w), w)
  {
    var client := s.clients[c];
    var d, x := DraftIn(s.drafts, client.email), Received(client, k);
    assert ClientOk(client, d, w) && SaveOk(client.saves[k], d, w);
    forall n | 0 <= n < |w.pages| ensures Behind(x, d, n, w) {
      assert Behind(client, d, n, w);
      OthersWithout(client.saves, k, n, w);
    }
    forall j | 0 <= j < |x.saves| ensures SaveOk(x.saves[j], d, w) { assert SaveOk(client.saves[if j < k then j else j + 1], d, w); }
    ClientKeepsInv(s, c, x, w);
  }

  lemma LoseKeepsInv(s: System, c: nat, k: nat, w: World)
    requires Inv(s, w) && AtStage(s, c, k)
    ensures Inv(Next(s, Lose(c, k), w), w)
  {
    var client := s.clients[c];
    var d, x := DraftIn(s.drafts, client.email), client.(saves := Without(client.saves, k));
    assert ClientOk(client, d, w) && SaveOk(client.saves[k], d, w);
    forall n | 0 <= n < |w.pages| ensures Behind(x, d, n, w) {
      assert Behind(client, d, n, w);
      OthersWithout(client.saves, k, n, w);
    }
    forall j | 0 <= j < |x.saves| ensures SaveOk(x.saves[j], d, w) { assert SaveOk(client.saves[if j < k then j else j + 1], d, w); }
    ClientKeepsInv(s, c, x, w);
    assert OrphanOk(Orphan(client.email, client.saves[k]), d, w);
  }

  lemma ClickKeepsInv(s: System, c: nat, values: Answers, w: World)
    requires Inv(s, w) && c in s.clients && Allowed(s, Click(c, values), w)
    ensures Inv(Next(s, Click(c, values), w), w)
  {
    var client := s.clients[c];
    var d, x := DraftIn(s.drafts, client.email), Clicked(client, values, w);
    assert ClientOk(client, d, w);
    if client.index < |w.pages| {
      forall n | 0 <= n < |w.pages| ensures Behind(x, d, n, w) {
        assert Behind(client, d, n, w);
        OthersMore(client.saves, Save(client.index, values, Sent), n, w);
      }
      forall j | 0 <= j < |x.saves| ensures SaveOk(x.saves[j], d, w) { if j < |client.saves| { assert SaveOk(client.saves[j], d, w); } }
    } else {
      forall n | 0 <= n < |w.pages| ensures Behind(x, d, n, w) && Stored(d, w.pages[n].id, w) { assert Behind(client, d, n, w); }
    }
    ClientKeepsInv(s, c, x, w);
  }

  lemma BackKeepsInv(s: System, c: nat, w: World)
    requires Inv(s, w) && c in s.clients
    ensures Inv(Next(s, Back(c), w), w)
  {
    var client := s.clients[c];
    var d := DraftIn(s.drafts, client.email);
    assert ClientOk(client, d, w);
    forall n | 0 <= n < |w.pages| ensures Behind(WentBack(client), d, n, w) { assert Behind(client, d, n, w); }
    ClientKeepsInv(s, c, WentBack(client), w);
  }

  lemma RestartKeepsInv(s: System, w: World)
    requires Inv(s, w)
    ensures Inv(Next(s, Restart, w), w)
  {
    var t := Next(s, Restart, w);
    forall c | c in t.clients ensures ClientOk(t.clients[c], DraftIn(t.drafts, t.clients[c].email), w) {
      var client := s.clients[c];
      var d := DraftIn(s.drafts, client.email);
      assert ClientOk(client, d, w);
      forall n | 0 <= n < |w.pages| ensures Behind(t.clients[c], d, n, w) { assert Behind(client, d, n, w); }
    }
  }

  lemma UploadKeepsInv(s: System, email: string, resume: nat, w: World)
    requires Inv(s, w)
    ensures Inv(Next(s, Upload(email, resume), w), w)
  {
    var d := DraftIn(s.drafts, email);
    ResumeFollows(d, resume, w);
    assert DraftOk(d, w);
    DraftKeepsInv(s, email, d.(resume := Some(resume)), w);
  }

  lemma SubmitKeepsInv(s: System, c: nat, w: World)
    requires Inv(s, w) && c in s.clients && s.clients[c].submits > 0
    ensures Inv(Next(s, ReadSubmit(c), w), w)
  {
    var client := s.clients[c];
    var d := DraftIn(s.drafts, client.email);
    assert ClientOk(client, d, w);
    var x := client.(submits := client.submits - 1);
    forall n | 0 <= n < |w.pages| ensures Behind(x, d, n, w) { assert Behind(client, d, n, w); }
    ClientKeepsInv(s, c, x, w);
  }

  lemma LoadKeepsInv(s: System, c: nat, email: string, w: World)
    requires Inv(s, w)
    ensures Inv(Next(s, Load(c, email), w), w)
  {
    ClientKeepsInv(s, c, Client(email, 0, [], 0), w);
  }

  lemma {:induction false} ServerKeepsInv(s: System, e: Event, w: World)
    requires Inv(s, w) && (e.ReadDraft? || e.Decide? || e.ReadForOrphan? || e.DecideOrphan? || e.ReadSubmit? || e.Upload?)
    ensures Inv(Next(s, e, w), w)
  {
    match e
    case ReadDraft(c, k) => if AtStage(s, c, k) && s.clients[c].saves[k].stage.Sent? { ReadKeepsInv(s, c, k, w); }
    case Decide(c, k) =>
      if AtStage(s, c, k) && s.clients[c].saves[k].stage.Checking? && s.clients[c].saves[k].page < |w.pages| { DecideKeepsInv(s, c, k, w); }
    case ReadForOrphan(j) =>
      if j < |s.orphans| && s.orphans[j].save.stage.Sent? {
        var o := s.orphans[j];
        OrphanKeepsInv(s, j, o.(save := o.save.(stage := Checking(DraftIn(s.drafts, o.email).resume))), w);
      }
    case DecideOrphan(j) =>
      if j < |s.orphans| && s.orphans[j].save.stage.Checking? && s.orphans[j].save.page < |w.pages| { OrphanDecideKeepsInv(s, j, w); }
    case ReadSubmit(c) => if c in s.clients && s.clients[c].submits > 0 { SubmitKeepsInv(s, c, w); }
    case Upload(email, resume) => UploadKeepsInv(s, email, resume, w);
  }

  lemma {:induction false} NextKeepsInv(s: System, e: Event, w: World)
    requires Inv(s, w) && Allowed(s, e, w)
    ensures Inv(Next(s, e, w), w)
  {
    match e
    case Load(c, email) => LoadKeepsInv(s, c, email, w);
    case Click(c, values) => if c in s.clients { ClickKeepsInv(s, c, values, w); }
    case Back(c) => if c in s.clients { BackKeepsInv(s, c, w); }
    case Receive(c, k) => if AtStage(s, c, k) && s.clients[c].saves[k].stage.Replied? { ReceiveKeepsInv(s, c, k, w); }
    case Lose(c, k) => if AtStage(s, c, k) { LoseKeepsInv(s, c, k, w); }
    case Restart => RestartKeepsInv(s, w);
    case _ => ServerKeepsInv(s, e, w);
  }

  lemma {:induction false} RunKeepsInv(s: System, events: seq<Event>, w: World)
    requires Inv(s, w) && Careful(s, events, w)
    ensures Inv(RunFrom(s, events, w), w)
    decreases |events|
  {
    if events != [] {
      NextKeepsInv(s, events[0], w);
      RunKeepsInv(Next(s, events[0], w), events[1..], w);
    }
  }

  // ---- Theorems ---------------------------------------------------------------------------------------------

  predicate AllAccepted(outcomes: seq<bool>) {
    forall i :: 0 <= i < |outcomes| ==> outcomes[i]
  }

  /** In a run of careful clicks, Submit from Review is accepted, whatever pages are saved again, answers
      lost and resumes replaced meanwhile. Sending one page at a time is careful. */
  lemma SubmitIsAccepted(events: seq<Event>, w: World)
    requires Careful(START, events, w) || OneAtATime(START, events, w)
    ensures AllAccepted(Run(events, w).outcomes)
  {
    if OneAtATime(START, events, w) { OneAtATimeIsCareful(START, events, w); }
    RunKeepsInv(START, events, w);
  }

  /** Every page before a document's own is stored and still valid for its account. */
  lemma ReachedPagesAreStored(events: seq<Event>, w: World, c: nat, i: nat)
    requires Careful(START, events, w) && c in Run(events, w).clients
    requires i < |w.pages| && i < Run(events, w).clients[c].index
    ensures var s := Run(events, w); Stored(DraftIn(s.drafts, s.clients[c].email), w.pages[i].id, w)
  {
    RunKeepsInv(START, events, w);
    var s := Run(events, w);
    assert ClientOk(s.clients[c], DraftIn(s.drafts, s.clients[c].email), w);
    assert Behind(s.clients[c], DraftIn(s.drafts, s.clients[c].email), i, w);
  }

  // ---- A click that is not careful ----------------------------------------------------------------------------

  /** No two pages share a name. */
  predicate Distinct(w: World) {
    forall i, j :: 0 <= i < j < |w.pages| ==> w.pages[i].id != w.pages[j].id
  }

  /** Each page can be completed, once there is a resume. */
  predicate Completable(w: World, answers: seq<Answers>) {
    |answers| == |w.pages|
    && forall i :: 0 <= i < |answers| ==> PageErrors(w.pages, w.pages[i].id, answers[i], Some(0), w.checks) == map[]
  }

  /** Some careful continuation has a submit refused. */
  ghost predicate Refused(s: System, w: World) {
    exists events :: Careful(s, events, w) && !AllAccepted(RunFrom(s, events, w).outcomes)
  }

  lemma RefusedBefore(s: System, e: Event, w: World)
    requires Allowed(s, e, w) && Refused(Next(s, e, w), w)
    ensures Refused(s, w)
  {
    var more :| Careful(Next(s, e, w), more, w) && !AllAccepted(RunFrom(Next(s, e, w), more, w).outcomes);
    var events := [e] + more;
    assert events[0] == e && events[1..] == more;
    assert Careful(s, events, w) && !AllAccepted(RunFrom(s, events, w).outcomes);
  }

  /** The account has a resume, and nothing saved for page `n`. */
  predicate Lacks(s: System, c: nat, n: nat, w: World) {
    && n < |w.pages| && c in s.clients
    && DraftIn(s.drafts, s.clients[c].email).resume.Some?
    && w.pages[n].id !in DraftIn(s.drafts, s.clients[c].email).pages
  }

  lemma SubmitRefused(s: System, c: nat, n: nat, w: World)
    requires Lacks(s, c, n, w) && s.clients[c].index >= |w.pages|
    ensures Refused(s, w)
  {
    var t := Next(s, Click(c, map[]), w);
    var u := Next(t, ReadSubmit(c), w);
    assert !Stored(DraftIn(t.drafts, t.clients[c].email), w.pages[n].id, w);
    assert !u.outcomes[|s.outcomes|];
    assert Careful(u, [], w) && !AllAccepted(RunFrom(u, [], w).outcomes);
    RefusedBefore(t, ReadSubmit(c), w);
    RefusedBefore(s, Click(c, map[]), w);
  }

  /** One save of page `j`, alone and answered, takes an idle document to the next page. */
  lemma SaveOnce(s: System, c: nat, n: nat, v: Answers, w: World)
    requires Lacks(s, c, n, w) && Distinct(w) && s.clients[c].saves == [] && n < s.clients[c].index < |w.pages|
    requires PageErrors(w.pages, w.pages[s.clients[c].index].id, v, Some(0), w.checks) == map[]
    ensures var t := Next(Next(Next(Next(s, Click(c, v), w), ReadDraft(c, 0), w), Decide(c, 0), w), Receive(c, 0), w);
            Lacks(t, c, n, w) && t.clients[c].saves == [] && t.clients[c].index == s.clients[c].index + 1
  {
    var client := s.clients[c];
    var j, d := client.index, DraftIn(s.drafts, client.email);
    StillValid(w.pages, w.pages[j].id, v, Some(0), d.resume, w.checks);
    var a := Next(s, Click(c, v), w);
    assert a.clients[c].saves == [Save(j, v, Sent)];
    var b := Next(a, ReadDraft(c, 0), w);
    assert b.clients[c].saves == [Save(j, v, Checking(d.resume))];
    var e := Next(b, Decide(c, 0), w);
    assert e.clients[c].saves == [Save(j, v, Replied(true))];
    assert DraftIn(e.drafts, client.email) == d.(pages := d.pages[w.pages[j].id := v]);
  }

  /** Past the missing page, the document goes on to Review and submits. */
  lemma {:induction false} PastIsRefused(s: System, c: nat, n: nat, answers: seq<Answers>, w: World)
    requires Lacks(s, c, n, w) && Distinct(w) && Completable(w, answers) && s.clients[c].saves == [] && n < s.clients[c].index
    ensures Refused(s, w)
    decreases |w.pages| - s.clients[c].index
  {
    if s.clients[c].index >= |w.pages| {
      SubmitRefused(s, c, n, w);
    } else {
      var v := answers[s.clients[c].index];
      SaveOnce(s, c, n, v, w);
      WaitingMayClick(s.clients[c], DraftIn(s.drafts, s.clients[c].email), v, w);
      var a := Next(s, Click(c, v), w);
      var b := Next(a, ReadDraft(c, 0), w);
      var e := Next(b, Decide(c, 0), w);
      PastIsRefused(Next(e, Receive(c, 0), w), c, n, answers, w);
      RefusedBefore(e, Receive(c, 0), w);
      RefusedBefore(b, Decide(c, 0), w);
      RefusedBefore(a, ReadDraft(c, 0), w);
      RefusedBefore(s, Click(c, v), w);
    }
  }

  /** What is still unanswered may be lost. */
  lemma {:induction false} LosesTheRest(s: System, c: nat, n: nat, answers: seq<Answers>, w: World)
    requires Lacks(s, c, n, w) && Distinct(w) && Completable(w, answers) && n < s.clients[c].index
    ensures Refused(s, w)
    decreases |s.clients[c].saves|
  {
    if s.clients[c].saves == [] {
      PastIsRefused(s, c, n, answers, w);
    } else {
      LosesTheRest(Next(s, Lose(c, 0), w), c, n, answers, w);
      RefusedBefore(s, Lose(c, 0), w);
    }
  }

  function Left(stage: Stage): nat {
    match stage
    case Sent => 2
    case Checking(_) => 1
    case Replied(_) => 0
  }

  /** The event that moves the save on. */
  function Moves(c: nat, k: nat, stage: Stage): Event {
    match stage
    case Sent => ReadDraft(c, k)
    case Checking(_) => Decide(c, k)
    case Replied(_) => Receive(c, k)
  }

  /** A save that skips page `n` moves on, and still does, until it takes the document on. */
  lemma SkipMovesOn(s: System, c: nat, n: nat, k: nat, w: World)
    requires Lacks(s, c, n, w) && Distinct(w) && k < |s.clients[c].saves| && Skips(s.clients[c].saves[k], n, w)
    ensures var t := Next(s, Moves(c, k, s.clients[c].saves[k].stage), w);
            && Lacks(t, c, n, w)
            && (if s.clients[c].saves[k].stage.Replied? then
                  t.clients[c].index == s.clients[c].index + 1 && t.clients[c].saves == Without(s.clients[c].saves, k)
                else
                  && t.clients[c].index == s.clients[c].index && |t.clients[c].saves| == |s.clients[c].saves|
                  && t.clients[c].saves == s.clients[c].saves[k := t.clients[c].saves[k]]
                  && Skips(t.clients[c].saves[k], n, w) && Left(t.clients[c].saves[k].stage) == Left(s.clients[c].saves[k].stage) - 1)
  {
    var save, d := s.clients[c].saves[k], DraftIn(s.drafts, s.clients[c].email);
    if save.stage.Sent? { StillValid(w.pages, w.pages[save.page].id, save.values, Some(0), d.resume, w.checks); }
    assert w.pages[save.page].id != w.pages[n].id;
  }

  /** The answers that skip page `n` take the document beyond it. */
  lemma {:induction false} SkipsAhead(s: System, c: nat, n: nat, k: nat, answers: seq<Answers>, w: World)
    requires Lacks(s, c, n, w) && Distinct(w) && Completable(w, answers)
    requires s.clients[c].index <= n && s.clients[c].index + Others(s.clients[c].saves, n, w) > n
    requires k < |s.clients[c].saves| && Skips(s.clients[c].saves[k], n, w)
    ensures Refused(s, w)
    decreases n - s.clients[c].index, Left(s.clients[c].saves[k].stage)
  {
    var saves := s.clients[c].saves;
    var e := Moves(c, k, saves[k].stage);
    var t := Next(s, e, w);
    SkipMovesOn(s, c, n, k, w);
    if saves[k].stage.Replied? {
      OthersWithout(saves, k, n, w);
      if t.clients[c].index > n {
        LosesTheRest(t, c, n, answers, w);
      } else {
        var j := SomeOther(t.clients[c].saves, n, w);
        SkipsAhead(t, c, n, j, answers, w);
      }
    } else {
      OthersUpdated(saves, k, t.clients[c].saves[k], n, w);
      SkipsAhead(t, c, n, k, answers, w);
    }
    RefusedBefore(s, e, w);
  }

  /** A document that can get ahead of a page that is not stored comes to be refused. */
  lemma {:induction false} AheadIsRefused(s: System, c: nat, n: nat, answers: seq<Answers>, w: World)
    requires c in s.clients && n < |w.pages| && Distinct(w) && Completable(w, answers) && s.clients[c].index <= n
    requires w.pages[n].id !in DraftIn(s.drafts, s.clients[c].email).pages
    requires s.clients[c].index + Others(s.clients[c].saves, n, w) > n
    ensures Refused(s, w)
  {
    var e := Upload(s.clients[c].email, 0);
    var k := SomeOther(s.clients[c].saves, n, w);
    SkipsAhead(Next(s, e, w), c, n, k, answers, w);
    RefusedBefore(s, e, w);
  }

  lemma {:induction false} CarelessIsRefused(s: System, c: nat, values: Answers, answers: seq<Answers>, w: World)
    requires Inv(s, w) && Distinct(w) && Completable(w, answers) && c in s.clients && !Allowed(s, Click(c, values), w)
    ensures Refused(Next(s, Click(c, values), w), w)
  {
    var client := s.clients[c];
    var d := DraftIn(s.drafts, client.email);
    var n :| client.index < n < |w.pages| && !Behind(Clicked(client, values, w), d, n, w);
    assert DraftOk(d, w);
    AheadIsRefused(Next(s, Click(c, values), w), c, n, answers, w);
  }

  lemma {:induction false} CarefulIsAccepted(s: System, w: World)
    requires Inv(s, w)
    ensures !Refused(s, w)
  {
    forall events | Careful(s, events, w) ensures AllAccepted(RunFrom(s, events, w).outcomes) { RunKeepsInv(s, events, w); }
  }

  /** When the button may be clicked, exactly: after any careful run, for pages that can be completed, a
      click has no submit of any careful continuation refused if and only if it is careful itself: the
      answers the document then waits for cannot take it past a page that is not stored. */
  lemma {:induction false} AcceptedExactly(events: seq<Event>, c: nat, values: Answers, answers: seq<Answers>, w: World)
    requires Distinct(w) && Completable(w, answers)
    requires Careful(START, events, w) && c in Run(events, w).clients
    ensures !Refused(Next(Run(events, w), Click(c, values), w), w) <==> Allowed(Run(events, w), Click(c, values), w)
  {
    var s := Run(events, w);
    RunKeepsInv(START, events, w);
    if Allowed(s, Click(c, values), w) {
      NextKeepsInv(s, Click(c, values), w);
      CarefulIsAccepted(Next(s, Click(c, values), w), w);
    } else {
      CarelessIsRefused(s, c, values, answers, w);
    }
  }

  /** A second click while a document's one unanswered save, of its own page, can still be taken: careful
      exactly if the next page is Review or stored. */
  lemma DoubleClick(c: Client, d: WdDraft, values: Answers, w: World)
    requires c.index < |w.pages| && |c.saves| == 1 && c.saves[0].page == c.index && Could(c.saves[0], w)
    requires PageErrors(w.pages, w.pages[c.index].id, values, Some(0), w.checks) == map[]
    ensures MayClick(c, d, values, w) <==> (c.index + 1 < |w.pages| ==> Stored(d, w.pages[c.index + 1].id, w))
  {
    var i, saves := c.index, Clicked(c, values, w).saves;
    assert c.saves[..0] == [];
    forall n | i < n < |w.pages| ensures Others(saves, n, w) == 2 { OthersMore(c.saves, Save(i, values, Sent), n, w); }
    if i + 1 < |w.pages| && MayClick(c, d, values, w) { assert Behind(Clicked(c, values, w), d, i + 1, w); }
  }

  // ---- A save that nothing disturbs ---------------------------------------------------------------------------

  lemma RunMore(s: System, e: Event, more: seq<Event>, w: World)
    ensures RunFrom(s, [e] + more, w) == RunFrom(Next(s, e, w), more, w)
  {
    assert ([e] + more)[1..] == more;
  }

  lemma RunOfFour(s: System, a: Event, b: Event, c: Event, d: Event, w: World)
    ensures RunFrom(s, [a, b, c, d], w) == Next(Next(Next(Next(s, a, w), b, w), c, w), d, w)
  {
    assert [a, b, c, d] == [a] + ([b] + ([c] + ([d] + [])));
    RunMore(s, a, [b] + ([c] + ([d] + [])), w);
    RunMore(Next(s, a, w), b, [c] + ([d] + []), w);
    RunMore(Next(Next(s, a, w), b, w), c, [d] + [], w);
    RunMore(Next(Next(Next(s, a, w), b, w), c, w), d, [], w);
  }

  /** The drafts differ in nothing but this page of this account. */
  predicate PageStored(before: map<string, WdDraft>, after: map<string, WdDraft>, email: string, id: string, values: Answers) {
    && after.Keys == before.Keys + {email}
    && (forall other :: other in before && other != email ==> after[other] == before[other])
    && after[email].resume == DraftIn(before, email).resume
    && after[email].pages.Keys == DraftIn(before, email).pages.Keys + {id} && after[email].pages[id] == values
    && (forall page :: page in DraftIn(before, email).pages && page != id ==> after[email].pages[page] == DraftIn(before, email).pages[page])
  }

  lemma {:induction false} WithPageStores(drafts: map<string, WdDraft>, email: string, id: string, values: Answers)
    ensures PageStored(drafts, WithPage(drafts, email, id, values), email, id, values)
  {
  }

  /** A click on a page that waits for nothing, taken without disturbance: if the server finds no error,
      it stores exactly these answers of exactly this page, and the document goes one page on; if it
      does, nothing is stored and the document stays. */
  lemma {:induction false} SaveCompletes(s: System, c: nat, values: Answers, w: World)
    requires c in s.clients && s.clients[c].saves == [] && s.clients[c].index < |w.pages|
    ensures var client := s.clients[c];
            var id := w.pages[client.index].id;
            var t := RunFrom(s, [Click(c, values), ReadDraft(c, 0), Decide(c, 0), Receive(c, 0)], w);
            && c in t.clients && t.clients[c].saves == [] && t.clients[c].email == client.email
            && if PageErrors(w.pages, id, values, DraftIn(s.drafts, client.email).resume, w.checks) == map[]
               then PageStored(s.drafts, t.drafts, client.email, id, values) && t.clients[c].index == client.index + 1
               else t.drafts == s.drafts && t.clients[c].index == client.index
  {
    var client := s.clients[c];
    var save := Save(client.index, values, Checking(DraftIn(s.drafts, client.email).resume));
    RunOfFour(s, Click(c, values), ReadDraft(c, 0), Decide(c, 0), Receive(c, 0), w);
    var sent := save.(stage := Sent);
    assert [] + [sent] == [sent] && [sent][0 := save] == [save];
    var s1 := s.(clients := s.clients[c := client.(saves := [sent])]);
    assert Next(s, Click(c, values), w) == s1;
    var s2 := s.(clients := s.clients[c := client.(saves := [save])]);
    assert Next(s1, ReadDraft(c, 0), w) == s2;
    WithPageStores(s.drafts, client.email, w.pages[client.index].id, values);
    var s3 := Next(s2, Decide(c, 0), w);
    var answered := save.(stage := Replied(Passes(save, w)));
    assert [save][0 := answered] == [answered] && Without([answered], 0) == [];
    assert s3.clients[c] == client.(saves := [answered]);
  }

  /** An uploaded resume is the draft's from then on, until another one is uploaded, and no page changes. */
  lemma {:induction false} UploadIsKept(s: System, email: string, resume: nat, events: seq<Event>, w: World)
    requires forall e :: e in events ==> !e.Upload? || e.email != email
    ensures DraftIn(Next(s, Upload(email, resume), w).drafts, email).pages == DraftIn(s.drafts, email).pages
    ensures DraftIn(RunFrom(Next(s, Upload(email, resume), w), events, w).drafts, email).resume == Some(resume)
  {
    ResumeStays(Next(s, Upload(email, resume), w), email, events, w);
  }

  lemma {:induction false} ResumeStays(s: System, email: string, events: seq<Event>, w: World)
    requires forall e :: e in events ==> !e.Upload? || e.email != email
    ensures DraftIn(RunFrom(s, events, w).drafts, email).resume == DraftIn(s.drafts, email).resume
    decreases |events|
  {
    if events != [] {
      assert events[0] in events;
      StepKeepsResume(s, events[0], email, w);
      ResumeStays(Next(s, events[0], w), email, events[1..], w);
    }
  }

  lemma {:induction false} StepKeepsResume(s: System, e: Event, email: string, w: World)
    requires !e.Upload? || e.email != email
    ensures DraftIn(Next(s, e, w).drafts, email).resume == DraftIn(s.drafts, email).resume
  {
  }

  // ---- From the first page to Submit ----------------------------------------------------------------------------

  /** Every page answered in turn, each save awaited. */
  function Saving(c: nat, answers: seq<Answers>): seq<Event> {
    if answers == [] then []
    else
      var n := |answers| - 1;
      Saving(c, answers[..n]) + [Click(c, answers[n]), ReadDraft(c, 0), Decide(c, 0), Receive(c, 0)]
  }

  lemma {:induction false} RunOn(s: System, a: seq<Event>, b: seq<Event>, w: World)
    ensures RunFrom(s, a + b, w) == RunFrom(RunFrom(s, a, w), b, w)
    decreases |a|
  {
    if a == [] {
      assert a + b == b;
    } else {
      RunMore(s, a[0], a[1..] + b, w);
      assert a + b == [a[0]] + (a[1..] + b);
      RunOn(Next(s, a[0], w), a[1..], b, w);
    }
  }

  /** The document waits for nothing on this page, and the pages before it are stored and valid. */
  ghost predicate Stands(s: System, c: nat, email: string, page: nat, resume: Option<nat>, w: World) {
    && c in s.clients && s.clients[c] == Client(email, page, [], 0) && page <= |w.pages|
    && DraftIn(s.drafts, email).resume == resume
    && forall i :: 0 <= i < page ==> Stored(DraftIn(s.drafts, email), w.pages[i].id, w)
  }

  lemma {:induction false} SaveStands(s: System, c: nat, email: string, page: nat, resume: Option<nat>, values: Answers, w: World)
    requires Stands(s, c, email, page, resume, w) && page < |w.pages|
    requires PageErrors(w.pages, w.pages[page].id, values, resume, w.checks) == map[]
    ensures var t := RunFrom(s, [Click(c, values), ReadDraft(c, 0), Decide(c, 0), Receive(c, 0)], w);
            Stands(t, c, email, page + 1, resume, w) && t.outcomes == s.outcomes
  {
    var t := RunFrom(s, [Click(c, values), ReadDraft(c, 0), Decide(c, 0), Receive(c, 0)], w);
    SaveCompletes(s, c, values, w);
    SavesSubmitNothing(s, c, values, w);
    assert PageStored(s.drafts, t.drafts, email, w.pages[page].id, values);
    forall i | 0 <= i < page + 1 ensures Stored(DraftIn(t.drafts, email), w.pages[i].id, w) {
      if w.pages[i].id != w.pages[page].id { assert Stored(DraftIn(s.drafts, email), w.pages[i].id, w); }
    }
  }

  lemma {:induction false} SavesSubmitNothing(s: System, c: nat, values: Answers, w: World)
    requires c in s.clients && s.clients[c].index < |w.pages|
    ensures var t := RunFrom(s, [Click(c, values), ReadDraft(c, 0), Decide(c, 0), Receive(c, 0)], w);
            t.outcomes == s.outcomes && c in t.clients && t.clients[c].submits == s.clients[c].submits
  {
    RunOfFour(s, Click(c, values), ReadDraft(c, 0), Decide(c, 0), Receive(c, 0), w);
  }

  lemma {:induction false} SavingStands(s: System, c: nat, email: string, resume: Option<nat>, answers: seq<Answers>, w: World)
    requires Stands(s, c, email, 0, resume, w) && |answers| <= |w.pages|
    requires forall i :: 0 <= i < |answers| ==> PageErrors(w.pages, w.pages[i].id, answers[i], resume, w.checks) == map[]
    ensures var t := RunFrom(s, Saving(c, answers), w); Stands(t, c, email, |answers|, resume, w) && t.outcomes == s.outcomes
  {
    if answers != [] {
      var n := |answers| - 1;
      SavingStands(s, c, email, resume, answers[..n], w);
      RunOn(s, Saving(c, answers[..n]), [Click(c, answers[n]), ReadDraft(c, 0), Decide(c, 0), Receive(c, 0)], w);
      SaveStands(RunFrom(s, Saving(c, answers[..n]), w), c, email, n, resume, answers[n], w);
    }
  }

  /** A wizard can be completed: a document loaded anew, whose pages are answered in turn without errors
      and without disturbance, comes to Review, and its Submit is accepted. */
  lemma {:induction false} WizardCompletes(s: System, c: nat, email: string, answers: seq<Answers>, last: Answers, w: World)
    requires |answers| == |w.pages|
    requires forall i :: 0 <= i < |answers| ==>
               PageErrors(w.pages, w.pages[i].id, answers[i], DraftIn(s.drafts, email).resume, w.checks) == map[]
    ensures RunFrom(s, [Load(c, email)] + Saving(c, answers) + [Click(c, last), ReadSubmit(c)], w).outcomes == s.outcomes + [true]
  {
    var loaded := Next(s, Load(c, email), w);
    var resume := DraftIn(s.drafts, email).resume;
    var ending := [Click(c, last), ReadSubmit(c)];
    SavingStands(loaded, c, email, resume, answers, w);
    assert [Load(c, email)] + Saving(c, answers) + ending == [Load(c, email)] + (Saving(c, answers) + ending);
    RunMore(s, Load(c, email), Saving(c, answers) + ending, w);
    RunOn(loaded, Saving(c, answers), ending, w);
    var t := RunFrom(loaded, Saving(c, answers), w);
    assert ending == [Click(c, last)] + ([ReadSubmit(c)] + []);
    RunMore(t, Click(c, last), [ReadSubmit(c)] + [], w);
    RunMore(Next(t, Click(c, last), w), ReadSubmit(c), [], w);
    assert Accepts(DraftIn(t.drafts, email), w);
  }

  /** Back goes one page back, not before the first, whatever the document waits for; a restart of the
      server loses every request under way, and keeps the documents where they are. */
  lemma {:induction false} BackAndRestart(s: System, c: nat, w: World)
    requires c in s.clients
    ensures var t := Next(s, Back(c), w);
            && t.drafts == s.drafts && t.outcomes == s.outcomes && c in t.clients
            && t.clients[c] == s.clients[c].(index := t.clients[c].index)
            && t.clients[c].index == if s.clients[c].index == 0 then 0 else s.clients[c].index - 1
    ensures var t := Next(s, Restart, w);
            && t.drafts == s.drafts && t.orphans == [] && c in t.clients
            && t.clients[c] == Client(s.clients[c].email, s.clients[c].index, [], 0)
  {
  }
}
