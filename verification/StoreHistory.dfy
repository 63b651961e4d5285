/** What the store holds, told from the operations performed on it: every fact is what the last operation
    that wrote its place wrote there. */
module StoreHistory {
  import opened Wrappers
  import opened Store
  import opened JsonValues
  import V = Validation

  /** Places of the state, with what they hold. */
  datatype Fact =
    | LoadCount(job: string, count: nat)
    | Upload(meta: V.Meta, record: Recorded)
    | Application(i: nat, id: nat, job: string, draft: Option<nat>, fields: Values, files: map<string, V.Meta>)
    | Visible(i: nat, visible: bool)
    | Rejection(i: nat, id: nat, job: string)
    | Alert(i: nat, job: string, email: string)
    | Captcha(token: nat, answer: string)
    | Spent(token: nat, used: bool)
    | Session(name: string, email: string)
    | Account(email: string, digest: string)
    | Wizard(email: string)
    | WizardPage(email: string, page: string, answers: map<string, Json>)
    | WizardResume(email: string, meta: V.Meta)
    | DraftJob(id: nat, job: string)
    | DraftStep(id: nat, step: nat, values: Values)
    | DraftFile(id: nat, file: string, meta: V.Meta)

  predicate Holds(d: Data, f: Fact) {
    match f
    case LoadCount(job, count) => job in d.loads && d.loads[job] == count
    case Upload(meta, record) => meta in d.uploads && d.uploads[meta] == record
    case Application(i, id, job, draft, fields, files) =>
      i < |d.submissions| && d.submissions[i] == Submission(id, job, d.submissions[i].visible, draft, fields, files)
    case Visible(i, visible) => i < |d.submissions| && d.submissions[i].visible == visible
    case Rejection(i, id, job) => i < |d.rejections| && d.rejections[i] == (id, job)
    case Alert(i, job, email) => i < |d.alerts| && d.alerts[i] == (job, email)
    case Captcha(token, answer) => token in d.captchas && d.captchas[token].answer == answer
    case Spent(token, used) => token in d.captchas && d.captchas[token].used == used
    case Session(name, email) => name in d.sessions && d.sessions[name] == email
    case Account(email, digest) => email in d.accounts && d.accounts[email] == digest
    case Wizard(email) => email in d.wizards
    case WizardPage(email, page, answers) =>
      email in d.wizards && page in d.wizards[email].pages && d.wizards[email].pages[page] == answers
    case WizardResume(email, meta) => email in d.wizards && d.wizards[email].resume == Some(meta)
    case DraftJob(id, job) => id in d.drafts && d.drafts[id].job == job
    case DraftStep(id, step, values) => id in d.drafts && step in d.drafts[id].steps && d.drafts[id].steps[step] == values
    case DraftFile(id, file, meta) => id in d.drafts && file in d.drafts[id].files && d.drafts[id].files[file] == meta
  }

  /** The application that an id names: the first that has it. */
  predicate FirstWith(submissions: seq<Submission>, id: nat, i: nat) {
    i < |submissions| && submissions[i].id == id && forall j :: 0 <= j < i ==> submissions[j].id != id
  }

  /** The save adds to this draft, or makes it as the next new one. */
  predicate SavesIn(d: Data, op: Op, id: nat) {
    op.SaveStep? && if op.draft.Some? then op.draft.value == id && id in d.drafts else id == d.counters.draft + 1
  }

  /** The operation writes the place the fact is about. */
  predicate Writes(d: Data, op: Op, f: Fact, lib: Lib) {
    match f
    case LoadCount(job, _) => op == CountLoad(job)
    case Upload(meta, _) => op.StoreUpload? && meta == d.counters.upload + 1
    case Application(i, _, _, _, _, _) => op.AddSubmission? && i == |d.submissions|
    case Visible(i, _) => (op.AddSubmission? && i == |d.submissions|) || (op.RevealSubmission? && FirstWith(d.submissions, op.id, i))
    case Rejection(i, _, _) => op.AddRejection? && i == |d.rejections|
    case Alert(i, _, _) => op.AddAlert? && i == |d.alerts|
    case Captcha(token, _) => op.NewCaptcha? && token == d.counters.captcha + 1
    case Spent(token, _) =>
      (op.NewCaptcha? && token == d.counters.captcha + 1) || (op.ConsumeCaptcha? && op.token == token && token in d.captchas)
    case Session(name, _) => op.NewSession? && name == lib.session(d.counters.session + 1)
    case Account(email, _) => op.WdCreateAccount? && op.email == email && email !in d.accounts && email != SIGNIN_EMAIL
    case Wizard(email) => (op.WdOpen? || op.WdSavePage? || op.WdSetResume?) && op.email == email
    case WizardPage(email, page, _) => op.WdSavePage? && op.email == email && op.page == page
    case WizardResume(email, _) => op.WdSetResume? && op.email == email
    case DraftJob(id, _) => SavesIn(d, op, id) && op.draft.None?
    case DraftStep(id, step, _) => SavesIn(d, op, id) && op.step == step
    case DraftFile(id, file, _) => SavesIn(d, op, id) && file in op.files
  }

  /** What it writes there is what the fact says. */
  predicate WritesJust(d: Data, op: Op, f: Fact, lib: Lib)
    requires Writes(d, op, f, lib)
  {
    match f
    case LoadCount(job, count) => count == if job in d.loads then d.loads[job] + 1 else 1
    case Upload(_, record) => record == Recorded(op.upload.filename, |op.upload.data|, lib.digest(op.upload.data))
    case Application(i, id, job, draft, fields, files) =>
      && id == d.counters.submission + 1 && job == op.job && draft == op.draft && fields == op.fields && files == op.files
    case Visible(_, visible) => visible == (op.RevealSubmission? || op.visible)
    case Rejection(_, id, job) => id == d.counters.rejection + 1 && job == op.job
    case Alert(_, job, email) => job == op.job && email == op.email
    case Captcha(token, answer) => answer == lib.answer(token)
    case Spent(_, used) => used == op.ConsumeCaptcha?
    case Session(_, email) => email == op.email
    case Account(_, digest) => digest == lib.digest(op.password)
    case Wizard(_) => true
    case WizardPage(_, _, answers) => answers == op.answers
    case WizardResume(_, meta) => op.resume == meta
    case DraftJob(_, job) => job == op.job
    case DraftStep(_, _, values) => values == op.values
    case DraftFile(_, file, meta) => op.files[file] == meta
  }

  // ---- One operation -------------------------------------------------------------------------------------

  predicate NewDraftsAreNew(d: Data) {
    forall id :: id in d.drafts ==> id <= d.counters.draft
  }

  lemma {:induction false} MadeVisibleAt(submissions: seq<Submission>, id: nat, i: nat)
    requires i < |submissions|
    ensures |MadeVisible(submissions, id)| == |submissions|
    ensures MadeVisible(submissions, id)[i]
            == if FirstWith(submissions, id, i) then submissions[i].(visible := true) else submissions[i]
  {
    if submissions[0].id == id {
      assert i > 0 ==> !FirstWith(submissions, id, i);
    } else if i > 0 {
      MadeVisibleAt(submissions[1..], id, i - 1);
      assert FirstWith(submissions, id, i) <==> FirstWith(submissions[1..], id, i - 1) by {
        assert forall j :: 0 <= j < i - 1 ==> submissions[1..][j] == submissions[j + 1];
        assert forall j :: 0 < j < i ==> submissions[j] == submissions[1..][j - 1];
      }
    } else if |submissions| > 1 {
      MadeVisibleAt(submissions[1..], id, 0);
    }
  }

  lemma {:induction false} HiddenIsFirst(submissions: seq<Submission>, id: nat, i: nat)
    requires FirstWith(submissions, id, i)
    ensures Hidden(submissions, id) <==> !submissions[i].visible
  {
    if i > 0 {
      assert forall j :: 0 <= j < i - 1 ==> submissions[1..][j] == submissions[j + 1];
      HiddenIsFirst(submissions[1..], id, i - 1);
    }
  }

  predicate OfApplication(f: Fact) { f.Application? || f.Visible? }
  predicate OfWizard(f: Fact) { f.Wizard? || f.WizardPage? || f.WizardResume? }
  predicate OfDraft(f: Fact) { f.DraftJob? || f.DraftStep? || f.DraftFile? }
  predicate OfCaptcha(f: Fact) { f.Captcha? || f.Spent? }

  /** One operation, one fact: the place it writes holds what it writes, any other what it held. */
  predicate Told(d: Data, e: Data, op: Op, f: Fact, lib: Lib) {
    Holds(e, f) <==> if Writes(d, op, f, lib) then WritesJust(d, op, f, lib) else Holds(d, f)
  }

  lemma {:induction false} SubmissionsAre(d: Data, op: Op, lib: Lib)
    ensures Applied(d, op, lib).submissions
            == match op
               case AddSubmission(job, visible, fields, files, draft) =>
                 d.submissions + [Submission(d.counters.submission + 1, job, visible, draft, fields, files)]
               case RevealSubmission(id) => if Hidden(d.submissions, id) then MadeVisible(d.submissions, id) else d.submissions
               case _ => d.submissions
  {
  }

  lemma {:induction false} ApplicationTold(d: Data, e: Data, op: Op, f: Fact, lib: Lib)
    requires OfApplication(f) && !op.RevealSubmission?
    requires e.submissions == if op.AddSubmission?
                              then d.submissions + [Submission(d.counters.submission + 1, op.job, op.visible, op.draft, op.fields, op.files)]
                              else d.submissions
    ensures Told(d, e, op, f, lib)
  {
  }

  lemma {:induction false} RevealTold(d: Data, e: Data, op: Op, f: Fact, lib: Lib)
    requires OfApplication(f) && op.RevealSubmission?
    requires e.submissions == if Hidden(d.submissions, op.id) then MadeVisible(d.submissions, op.id) else d.submissions
    ensures Told(d, e, op, f, lib)
  {
    if f.i < |d.submissions| {
      MadeVisibleAt(d.submissions, op.id, f.i);
      if FirstWith(d.submissions, op.id, f.i) { HiddenIsFirst(d.submissions, op.id, f.i); }
    } else if d.submissions != [] {
      MadeVisibleAt(d.submissions, op.id, 0);
    }
  }

  lemma {:induction false} WizardsAre(d: Data, op: Op, lib: Lib)
    ensures Applied(d, op, lib).wizards
            == match op
               case WdOpen(email) => d.wizards[email := DraftOf(d, email)]
               case WdSavePage(email, page, answers) =>
                 d.wizards[email := DraftOf(d, email).(pages := DraftOf(d, email).pages[page := answers])]
               case WdSetResume(email, resume) => d.wizards[email := DraftOf(d, email).(resume := Some(resume))]
               case _ => d.wizards
  {
  }

  lemma {:induction false} WizardTold(d: Data, e: Data, op: Op, f: Fact, lib: Lib)
    requires OfWizard(f)
    requires e.wizards == match op
                          case WdOpen(email) => d.wizards[email := DraftOf(d, email)]
                          case WdSavePage(email, page, answers) =>
                            d.wizards[email := DraftOf(d, email).(pages := DraftOf(d, email).pages[page := answers])]
                          case WdSetResume(email, resume) => d.wizards[email := DraftOf(d, email).(resume := Some(resume))]
                          case _ => d.wizards
    ensures Told(d, e, op, f, lib)
  {
  }

  lemma {:induction false} DraftsAre(d: Data, op: Op, lib: Lib)
    ensures var e := Applied(d, op, lib);
            if op.SaveStep? && (op.draft.Some? ==> op.draft.value in d.drafts) then
              var id := StepDraft(d, op.draft);
              var before := if op.draft.Some? then d.drafts[id] else Draft(op.job, map[], map[]);
              && e.drafts == d.drafts[id := before.(steps := before.steps[op.step := op.values], files := before.files + op.files)]
              && e.counters.draft == if op.draft.Some? then d.counters.draft else id
            else e.drafts == d.drafts && e.counters.draft == d.counters.draft
  {
  }

  lemma {:induction false} DraftTold(d: Data, e: Data, op: Op, f: Fact, before: Draft, lib: Lib)
    requires OfDraft(f) && op.SaveStep? && (op.draft.Some? ==> op.draft.value in d.drafts)
    requires op.draft.None? ==> StepDraft(d, op.draft) !in d.drafts
    requires before == if op.draft.Some? then d.drafts[op.draft.value] else Draft(op.job, map[], map[])
    requires e.drafts == d.drafts[StepDraft(d, op.draft) :=
                                    before.(steps := before.steps[op.step := op.values], files := before.files + op.files)]
    ensures Told(d, e, op, f, lib)
  {
  }

  lemma {:induction false} CaptchasAre(d: Data, op: Op, lib: Lib)
    ensures Applied(d, op, lib).captchas
            == match op
               case NewCaptcha => d.captchas[d.counters.captcha + 1 := Challenge(lib.answer(d.counters.captcha + 1), false)]
               case ConsumeCaptcha(token, _) =>
                 if token in d.captchas && !d.captchas[token].used then d.captchas[token := d.captchas[token].(used := true)]
                 else d.captchas
               case _ => d.captchas
  {
  }

  lemma {:induction false} CaptchaTold(d: Data, e: Data, op: Op, f: Fact, lib: Lib)
    requires OfCaptcha(f)
    requires e.captchas == match op
                           case NewCaptcha => d.captchas[d.counters.captcha + 1 := Challenge(lib.answer(d.counters.captcha + 1), false)]
                           case ConsumeCaptcha(token, _) =>
                             if token in d.captchas && !d.captchas[token].used then d.captchas[token := d.captchas[token].(used := true)]
                             else d.captchas
                           case _ => d.captchas
    ensures Told(d, e, op, f, lib)
  {
  }

  /** What the operation leaves alone. */
  predicate LeavesAlone(d: Data, e: Data, op: Op) {
    && (!op.CountLoad? ==> e.loads == d.loads) && (!op.StoreUpload? ==> e.uploads == d.uploads)
    && (!op.AddRejection? ==> e.rejections == d.rejections) && (!op.AddAlert? ==> e.alerts == d.alerts)
    && (!op.NewSession? ==> e.sessions == d.sessions) && (!op.WdCreateAccount? ==> e.accounts == d.accounts)
  }

  lemma {:induction false} OthersAre(d: Data, op: Op, lib: Lib)
    ensures LeavesAlone(d, Applied(d, op, lib), op)
  {
    if Saves(d, op) { MutatedLeaves(d, op, lib); }
  }

  lemma {:induction false} MutatedLeaves(d: Data, op: Op, lib: Lib)
    requires Saves(d, op)
    ensures LeavesAlone(d, Mutated(d, op, lib), op)
  {
  }

  lemma {:induction false} CounterTold(d: Data, op: Op, f: Fact, lib: Lib)
    requires (f.LoadCount? && op.CountLoad?) || (f.Upload? && op.StoreUpload?) || (f.Session? && op.NewSession?)
    ensures Told(d, Applied(d, op, lib), op, f, lib)
  {
  }

  lemma {:induction false} ListTold(d: Data, op: Op, f: Fact, lib: Lib)
    requires (f.Rejection? && op.AddRejection?) || (f.Alert? && op.AddAlert?) || (f.Account? && op.WdCreateAccount?)
    ensures Told(d, Applied(d, op, lib), op, f, lib)
  {
  }

  lemma {:induction false} OtherTold(d: Data, e: Data, op: Op, f: Fact, lib: Lib)
    requires (f.LoadCount? && !op.CountLoad?) || (f.Upload? && !op.StoreUpload?) || (f.Session? && !op.NewSession?)
             || (f.Rejection? && !op.AddRejection?) || (f.Alert? && !op.AddAlert?) || (f.Account? && !op.WdCreateAccount?)
    requires LeavesAlone(d, e, op)
    ensures Told(d, e, op, f, lib)
  {
  }

  lemma {:induction false} PlainFactTold(d: Data, op: Op, f: Fact, lib: Lib)
    requires !OfApplication(f) && !OfWizard(f) && !OfDraft(f) && !OfCaptcha(f)
    ensures Told(d, Applied(d, op, lib), op, f, lib)
  {
    if (f.LoadCount? && op.CountLoad?) || (f.Upload? && op.StoreUpload?) || (f.Session? && op.NewSession?) {
      CounterTold(d, op, f, lib);
    } else if (f.Rejection? && op.AddRejection?) || (f.Alert? && op.AddAlert?) || (f.Account? && op.WdCreateAccount?) {
      ListTold(d, op, f, lib);
    } else {
      OthersAre(d, op, lib);
      OtherTold(d, Applied(d, op, lib), op, f, lib);
    }
  }

  lemma {:induction false} DraftFactTold(d: Data, op: Op, f: Fact, lib: Lib)
    requires OfDraft(f) && NewDraftsAreNew(d)
    ensures Told(d, Applied(d, op, lib), op, f, lib)
  {
    DraftsAre(d, op, lib);
    if op.SaveStep? && (op.draft.Some? ==> op.draft.value in d.drafts) {
      var before := if op.draft.Some? then d.drafts[op.draft.value] else Draft(op.job, map[], map[]);
      DraftTold(d, Applied(d, op, lib), op, f, before, lib);
    }
  }

  lemma {:induction false} FactTold(d: Data, op: Op, f: Fact, lib: Lib)
    requires NewDraftsAreNew(d)
    ensures Told(d, Applied(d, op, lib), op, f, lib)
  {
    if OfApplication(f) {
      SubmissionsAre(d, op, lib);
      if op.RevealSubmission? { RevealTold(d, Applied(d, op, lib), op, f, lib); }
      else { ApplicationTold(d, Applied(d, op, lib), op, f, lib); }
    } else if OfWizard(f) {
      WizardsAre(d, op, lib);
      WizardTold(d, Applied(d, op, lib), op, f, lib);
    } else if OfDraft(f) {
      DraftFactTold(d, op, f, lib);
    } else if OfCaptcha(f) {
      CaptchasAre(d, op, lib);
      CaptchaTold(d, Applied(d, op, lib), op, f, lib);
    } else {
      PlainFactTold(d, op, f, lib);
    }
  }

  lemma {:induction false} DraftsStayNew(d: Data, op: Op, lib: Lib)
    requires NewDraftsAreNew(d)
    ensures NewDraftsAreNew(Applied(d, op, lib))
  {
    DraftsAre(d, op, lib);
  }

  // ---- Any number of operations --------------------------------------------------------------------------

  /** What memory holds after these operations on an empty store. */
  function After(ops: seq<Op>, lib: Lib): Data {
    if ops == [] then EMPTY else var n := |ops| - 1; Applied(After(ops[..n], lib), ops[n], lib)
  }

  ghost predicate WrittenAt(ops: seq<Op>, k: nat, f: Fact, lib: Lib) {
    k < |ops| && Writes(After(ops[..k], lib), ops[k], f, lib)
  }

  /** Operation `k` is the last that wrote the place of the fact, and wrote just this. */
  ghost predicate LastWritten(ops: seq<Op>, k: nat, f: Fact, lib: Lib) {
    && WrittenAt(ops, k, f, lib) && WritesJust(After(ops[..k], lib), ops[k], f, lib)
    && forall j :: k < j < |ops| ==> !WrittenAt(ops, j, f, lib)
  }

  lemma {:induction false} AfterKeepsDrafts(ops: seq<Op>, lib: Lib)
    ensures NewDraftsAreNew(After(ops, lib))
  {
    if ops != [] {
      var n := |ops| - 1;
      AfterKeepsDrafts(ops[..n], lib);
      DraftsStayNew(After(ops[..n], lib), ops[n], lib);
    }
  }

  lemma {:induction false} SamePrefix(ops: seq<Op>, n: nat, j: nat)
    requires j < n <= |ops|
    ensures ops[..n][..j] == ops[..j] && ops[..n][j] == ops[j]
  {
  }

  lemma {:induction false} LastOfPrefix(ops: seq<Op>, n: nat, k: nat, f: Fact, lib: Lib)
    requires n + 1 == |ops| && k < n && !WrittenAt(ops, n, f, lib)
    ensures LastWritten(ops, k, f, lib) <==> LastWritten(ops[..n], k, f, lib)
  {
    forall j | 0 <= j < n ensures WrittenAt(ops, j, f, lib) == WrittenAt(ops[..n], j, f, lib) { SamePrefix(ops, n, j); }
    SamePrefix(ops, n, k);
  }

  /** After any operations, the store holds a fact exactly if the last operation that wrote its place
      wrote just that. */
  lemma {:induction false} HoldsWhatWasLastWritten(ops: seq<Op>, f: Fact, lib: Lib)
    ensures Holds(After(ops, lib), f) <==> exists k: nat :: LastWritten(ops, k, f, lib)
  {
    if ops != [] {
      var n := |ops| - 1;
      var d := After(ops[..n], lib);
      HoldsWhatWasLastWritten(ops[..n], f, lib);
      AfterKeepsDrafts(ops[..n], lib);
      FactTold(d, ops[n], f, lib);
      if WrittenAt(ops, n, f, lib) {
        if WritesJust(d, ops[n], f, lib) { assert LastWritten(ops, n, f, lib); }
      } else {
        forall k: nat | k < n ensures LastWritten(ops, k, f, lib) <==> LastWritten(ops[..n], k, f, lib) {
          LastOfPrefix(ops, n, k, f, lib);
        }
      }
    }
  }

  // ---- Counters --------------------------------------------------------------------------------------------

  datatype Number = Submissions | Rejections | Uploads | Drafts | Captchas | Sessions

  function Counter(c: Counters, n: Number): nat {
    match n
    case Submissions => c.submission
    case Rejections => c.rejection
    case Uploads => c.upload
    case Drafts => c.draft
    case Captchas => c.captcha
    case Sessions => c.session
  }

  predicate Makes(op: Op, n: Number) {
    match n
    case Submissions => op.AddSubmission?
    case Rejections => op.AddRejection?
    case Uploads => op.StoreUpload?
    case Drafts => op.SaveStep? && op.draft.None?
    case Captchas => op.NewCaptcha?
    case Sessions => op.NewSession?
  }

  function CountOf(ops: seq<Op>, n: Number): nat {
    if ops == [] then 0 else var k := |ops| - 1; CountOf(ops[..k], n) + if Makes(ops[k], n) then 1 else 0
  }

  lemma {:induction false} CountersAre(d: Data, op: Op, lib: Lib)
    ensures var c, e := d.counters, Applied(d, op, lib).counters;
            match op
            case AddSubmission(_, _, _, _, _) => e == c.(submission := c.submission + 1)
            case AddRejection(_) => e == c.(rejection := c.rejection + 1)
            case StoreUpload(_) => e == c.(upload := c.upload + 1)
            case SaveStep(_, draft, _, _, _) => e == if draft.None? then c.(draft := c.draft + 1) else c
            case NewCaptcha => e == c.(captcha := c.captcha + 1)
            case NewSession(_) => e == c.(session := c.session + 1)
            case _ => e == c
  {
  }

  lemma {:induction false} CounterMoves(d: Data, op: Op, n: Number, lib: Lib)
    ensures Counter(Applied(d, op, lib).counters, n) == Counter(d.counters, n) + if Makes(op, n) then 1 else 0
  {
    CountersAre(d, op, lib);
  }

  /** Numbers count what was made, so none is given twice. */
  lemma {:induction false} NumbersCount(ops: seq<Op>, n: Number, lib: Lib)
    ensures Counter(After(ops, lib).counters, n) == CountOf(ops, n)
  {
    if ops != [] {
      var k := |ops| - 1;
      NumbersCount(ops[..k], n, lib);
      CounterMoves(After(ops[..k], lib), ops[k], n, lib);
    }
  }
}
