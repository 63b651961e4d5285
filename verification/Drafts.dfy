/** Multistep applications of `scripts/mock_ats.py`: concurrent step posts and submits, each a
    handler of several atomic steps on the store. */
module Drafts {
  import opened Wrappers
  import opened Fields
  import opened Validation
  import opened ValidationTheorems
  import opened Store

  /** Each multistep job's steps. */
  type Jobs = map<string, seq<seq<Field>>>

  /** The jobs, and the phone rule and country table every step is validated by. */
  datatype World = World(jobs: Jobs, rules: Rules)

  /** A step's answers as they were read, with the posting they were saved from. */
  datatype Part = Part(values: Values, posting: Posting)

  datatype Handler =
    | Opened(job: string, draft: Option<nat>, n: nat, read: map<string, Meta>)
    | Judged(job: string, draft: Option<nat>, n: nat, posting: Posting, report: Report, metas: map<string, Meta>)
    | Looking(job: string, id: nat, k: nat)
    | Reading(job: string, id: nat, parts: seq<Part>)
    | Ready(job: string, id: nat, parts: seq<Part>, files: map<string, Meta>)

  /** A step of a draft saved from a posting. */
  datatype Entry = Entry(job: string, id: nat, n: nat, posting: Posting)

  /** Beside the store and the handlers, what a run is known by: every save so far, the posting each
      stored step was saved from, and the parts each application was merged from. */
  datatype System = System(
    data: Data, handlers: map<nat, Handler>,
    saved: set<Entry>, basis: map<(nat, nat), Posting>, origins: map<nat, seq<Part>>)

  datatype Event =
    | OpenPost(h: nat, job: string, draft: Option<nat>, n: nat)
    | Retain(h: nat, name: string)
    | Judging(h: nat, posting: Posting)
    | StoreFile(h: nat, name: string)
    | EndPost(h: nat, otherErrors: bool)
    | OpenSubmit(h: nat, job: string, draft: Option<nat>)
    | Look(h: nat)
    | ReadStep(h: nat)
    | TakeFiles(h: nat)
    | Submit(h: nat)
    | Drop(h: nat)
    | Other(op: Op)
    | Restart

  // ---- The handlers' steps -------------------------------------------------------------------------------

  /** `_draft`: the draft exists and belongs to the job. */
  predicate Owns(d: Data, id: nat, job: string) {
    id in d.drafts && d.drafts[id].job == job
  }

  predicate CanOpen(s: System, h: nat, w: World, job: string, draft: Option<nat>, n: nat) {
    && h !in s.handlers && job in w.jobs && 1 <= n <= |w.jobs[job]|
    && (if draft.Some? then Owns(s.data, draft.value, job) else n == 1)
  }

  /** The files that can be retained are read one by one from the live draft. */
  predicate CanRetain(s: System, h: nat, name: string) {
    && h in s.handlers && s.handlers[h].Opened? && s.handlers[h].draft.Some? && s.handlers[h].draft.value in s.data.drafts
    && name in s.data.drafts[s.handlers[h].draft.value].files
  }

  function Reads(s: System, h: nat, name: string): Handler
    requires CanRetain(s, h, name)
  {
    var c := s.handlers[h];
    c.(read := c.read[name := s.data.drafts[c.draft.value].files[name]])
  }

  /** Judging goes by the files read. */
  predicate CanJudge(s: System, h: nat, posting: Posting, w: World) {
    h in s.handlers && s.handlers[h].Opened? && posting.rules == w.rules && posting.retained == s.handlers[h].read
  }

  function RetainedOf(report: Report): map<string, Meta> {
    map name | name in report.files && report.files[name].Retained? :: report.files[name].meta
  }

  ghost function Judgement(c: Handler, posting: Posting, w: World): Handler
    requires c.Opened? && c.job in w.jobs && 1 <= c.n <= |w.jobs[c.job]|
  {
    var report := Validated(Revealed(w.jobs[c.job][c.n - 1], posting.form), posting);
    Judged(c.job, c.draft, c.n, posting, report, RetainedOf(report))
  }

  predicate CanStore(s: System, h: nat, name: string) {
    && h in s.handlers && s.handlers[h].Judged?
    && name in s.handlers[h].report.files && s.handlers[h].report.files[name].New? && name !in s.handlers[h].metas
  }

  predicate CanEnd(s: System, h: nat) {
    && h in s.handlers && s.handlers[h].Judged?
    && s.handlers[h].metas.Keys == s.handlers[h].report.files.Keys
  }

  function Ended(c: Handler, otherErrors: bool): Op
    requires c.Judged?
  {
    if otherErrors || c.report.errors != map[] then AddRejection(c.job)
    else SaveStep(c.job, c.draft, c.n, c.report.values, c.metas)
  }

  /** `values.update(...)` step by step: a later step's answer replaces an earlier one's of the same name. */
  function Merged(taken: seq<Values>): Values {
    if taken == [] then map[] else Merged(taken[..|taken| - 1]) + taken[|taken| - 1]
  }

  function Taken(parts: seq<Part>): (taken: seq<Values>)
    ensures |taken| == |parts|
  {
    seq(|parts|, i requires 0 <= i < |parts| => parts[i].values)
  }

  function Submitted(c: Handler): Op
    requires c.Ready?
  {
    AddSubmission(c.job, true, Merged(Taken(c.parts)), c.files, Some(c.id))
  }

  predicate EndsInSave(c: Handler, otherErrors: bool) {
    c.Judged? && !otherErrors && c.report.errors == map[]
  }

  /** The save a handler makes, of the draft it makes or adds to. */
  function SaveOf(s: System, c: Handler): Entry
    requires c.Judged?
  {
    Entry(c.job, StepDraft(s.data, c.draft), c.n, c.posting)
  }

  function BasisOf(s: System, id: nat, n: nat, w: World): Posting {
    if (id, n) in s.basis then s.basis[(id, n)] else Posting(map[], map[], map[], w.rules)
  }

  function Without(handlers: map<nat, Handler>, h: nat): map<nat, Handler> {
    handlers - {h}
  }

  /** Nothing but step posts saves steps, and nothing but submits accepts a draft's application. */
  predicate Unrelated(op: Op) {
    !op.SaveStep? && !(op.AddSubmission? && op.draft.Some?)
  }

  /** One atomic step; a step that is not due does nothing. */
  ghost function Next(s: System, e: Event, w: World, lib: Lib): System {
    match e
    case OpenPost(h, job, draft, n) =>
      if CanOpen(s, h, w, job, draft, n) then s.(handlers := s.handlers[h := Opened(job, draft, n, map[])]) else s
    case Retain(h, name) => if CanRetain(s, h, name) then s.(handlers := s.handlers[h := Reads(s, h, name)]) else s
    case Judging(h, posting) =>
      if CanJudge(s, h, posting, w) && s.handlers[h].job in w.jobs && 1 <= s.handlers[h].n <= |w.jobs[s.handlers[h].job]| then
        s.(handlers := s.handlers[h := Judgement(s.handlers[h], posting, w)])
      else s
    case StoreFile(h, name) =>
      if CanStore(s, h, name) then
        var c := s.handlers[h];
        s.(data := Applied(s.data, StoreUpload(c.report.files[name].upload), lib),
           handlers := s.handlers[h := c.(metas := c.metas[name := s.data.counters.upload + 1])])
      else s
    case EndPost(h, otherErrors) =>
      if CanEnd(s, h) then
        var c, e := s.handlers[h], SaveOf(s, s.handlers[h]);
        s.(data := Applied(s.data, Ended(c, otherErrors), lib),
           handlers := Without(s.handlers, h),
           saved := if EndsInSave(c, otherErrors) then s.saved + {e} else s.saved,
           basis := if EndsInSave(c, otherErrors) then s.basis[(e.id, e.n) := e.posting] else s.basis)
      else s
    case OpenSubmit(h, job, draft) =>
      if draft.Some? && CanOpen(s, h, w, job, draft, 1) then s.(handlers := s.handlers[h := Looking(job, draft.value, 0)]) else s
    case Look(h) =>
      if h in s.handlers && s.handlers[h].Looking? && s.handlers[h].job in w.jobs then s.(handlers := Looked(s, h, w)) else s
    case ReadStep(h) =>
      if h in s.handlers && s.handlers[h].Reading? && Owns(s.data, s.handlers[h].id, s.handlers[h].job)
         && |s.handlers[h].parts| + 1 in s.data.drafts[s.handlers[h].id].steps
      then s.(handlers := s.handlers[h := WithPart(s, s.handlers[h], w)]) else s
    case TakeFiles(h) =>
      if h in s.handlers && s.handlers[h].Reading? && s.handlers[h].job in w.jobs && s.handlers[h].id in s.data.drafts
         && |s.handlers[h].parts| == |w.jobs[s.handlers[h].job]|
      then
        var c := s.handlers[h];
        s.(handlers := s.handlers[h := Ready(c.job, c.id, c.parts, s.data.drafts[c.id].files)])
      else s
    case Submit(h) =>
      if h in s.handlers && s.handlers[h].Ready? then
        s.(data := Applied(s.data, Submitted(s.handlers[h]), lib),
           handlers := Without(s.handlers, h),
           origins := s.origins[s.data.counters.submission + 1 := s.handlers[h].parts])
      else s
    case Drop(h) => s.(handlers := Without(s.handlers, h))
    case Other(op) => if Unrelated(op) then s.(data := Applied(s.data, op, lib)) else s
    case Restart => s.(handlers := map[])
  }

  /** The next step read from the live draft. */
  function WithPart(s: System, c: Handler, w: World): Handler
    requires c.Reading? && c.id in s.data.drafts && |c.parts| + 1 in s.data.drafts[c.id].steps
  {
    var n := |c.parts| + 1;
    Reading(c.job, c.id, c.parts + [Part(s.data.drafts[c.id].steps[n], BasisOf(s, c.id, n, w))])
  }

  /** `_first_incomplete`, one step at a time: a missing step ends the submit, the last one lets it read. */
  function Looked(s: System, h: nat, w: World): map<nat, Handler>
    requires h in s.handlers && s.handlers[h].Looking? && s.handlers[h].job in w.jobs
  {
    var c := s.handlers[h];
    if c.k == |w.jobs[c.job]| then s.handlers[h := Reading(c.job, c.id, [])]
    else if c.id in s.data.drafts && c.k + 1 in s.data.drafts[c.id].steps then s.handlers[h := c.(k := c.k + 1)]
    else Without(s.handlers, h)
  }

  const START := System(EMPTY, map[], {}, map[], map[])

  ghost function Run(events: seq<Event>, w: World, lib: Lib): System {
    RunFrom(START, events, w, lib)
  }

  ghost function RunFrom(s: System, events: seq<Event>, w: World, lib: Lib): System {
    if events == [] then s
    else var n := |events| - 1; Next(RunFrom(s, events[..n], w, lib), events[n], w, lib)
  }

  // ---- What every run keeps ------------------------------------------------------------------------------

  /** `values` is the error-free result of validating what this posting shows of the step. */
  ghost predicate SavedBy(fields: seq<Field>, posting: Posting, values: Values, files: set<string>) {
    var r := Validated(Revealed(fields, posting.form), posting);
    r.errors == map[] && r.values == values && r.files.Keys <= files
  }

  ghost predicate StepOk(saved: set<Entry>, job: string, id: nat, n: nat, part: Part, files: set<string>, w: World)
    requires job in w.jobs && 1 <= n <= |w.jobs[job]|
  {
    SavedBy(w.jobs[job][n - 1], part.posting, part.values, files) && Entry(job, id, n, part.posting) in saved
  }

  ghost predicate DraftOk(s: System, id: nat, d: Draft, w: World) {
    && d.job in w.jobs
    && forall n :: n in d.steps ==>
         1 <= n <= |w.jobs[d.job]| && (id, n) in s.basis
         && StepOk(s.saved, d.job, id, n, Part(d.steps[n], s.basis[(id, n)]), d.files.Keys, w)
  }

  ghost predicate DraftsOk(s: System, w: World) {
    forall id :: id in s.data.drafts ==> id <= s.data.counters.draft && DraftOk(s, id, s.data.drafts[id], w)
  }

  ghost predicate PartsOk(saved: set<Entry>, job: string, id: nat, parts: seq<Part>, files: set<string>, w: World)
    requires job in w.jobs
  {
    |parts| <= |w.jobs[job]| && forall i :: 0 <= i < |parts| ==> StepOk(saved, job, id, i + 1, parts[i], files, w)
  }

  /** The application merges one error-free result of every step. */
  ghost predicate SubmissionOk(saved: set<Entry>, origins: map<nat, seq<Part>>, r: Submission, w: World) {
    && r.draft.Some? && r.job in w.jobs && r.id in origins && |origins[r.id]| == |w.jobs[r.job]|
    && r.fields == Merged(Taken(origins[r.id]))
    && PartsOk(saved, r.job, r.draft.value, origins[r.id], r.files.Keys, w)
  }

  ghost predicate SubmissionsOk(submissions: seq<Submission>, last: nat, saved: set<Entry>, origins: map<nat, seq<Part>>, w: World) {
    forall r :: r in submissions ==> r.id <= last && (r.draft.Some? ==> SubmissionOk(saved, origins, r, w))
  }

  ghost predicate HandlerOk(c: Handler, drafts: map<nat, Draft>, saved: set<Entry>, w: World) {
    c.job in w.jobs
    && match c
       case Opened(_, draft, n, _) => 1 <= n <= |w.jobs[c.job]| && (draft.Some? ==> draft.value in drafts && drafts[draft.value].job == c.job)
       case Judged(_, draft, n, posting, report, metas) =>
         && 1 <= n <= |w.jobs[c.job]| && (draft.Some? ==> draft.value in drafts && drafts[draft.value].job == c.job)
         && posting.rules == w.rules
         && (report.errors == map[] ==> SavedBy(w.jobs[c.job][n - 1], posting, report.values, report.files.Keys))
       case Looking(_, id, k) => id in drafts && drafts[id].job == c.job
       case Reading(_, id, parts) => id in drafts && drafts[id].job == c.job && PartsOk(saved, c.job, id, parts, drafts[id].files.Keys, w)
       case Ready(_, id, parts, files) => |parts| == |w.jobs[c.job]| && PartsOk(saved, c.job, id, parts, files.Keys, w)
  }

  ghost predicate HandlersOk(handlers: map<nat, Handler>, drafts: map<nat, Draft>, saved: set<Entry>, w: World) {
    forall h :: h in handlers ==> HandlerOk(handlers[h], drafts, saved, w)
  }

  predicate RulesOk(saved: set<Entry>, w: World) {
    forall e :: e in saved ==> e.posting.rules == w.rules
  }

  ghost predicate Inv(s: System, w: World) {
    && DraftsOk(s, w)
    && SubmissionsOk(s.data.submissions, s.data.counters.submission, s.saved, s.origins, w)
    && HandlersOk(s.handlers, s.data.drafts, s.saved, w)
    && RulesOk(s.saved, w)
  }

  /** Drafts, their steps and their files are never removed. */
  predicate Grows(a: map<nat, Draft>, b: map<nat, Draft>) {
    forall id :: id in a ==>
      id in b && b[id].job == a[id].job && a[id].steps.Keys <= b[id].steps.Keys && a[id].files.Keys <= b[id].files.Keys
  }

  lemma StepOkGrows(a: set<Entry>, b: set<Entry>, job: string, id: nat, n: nat, part: Part, f: set<string>, g: set<string>, w: World)
    requires job in w.jobs && 1 <= n <= |w.jobs[job]| && StepOk(a, job, id, n, part, f, w) && a <= b && f <= g
    ensures StepOk(b, job, id, n, part, g, w)
  {
  }

  lemma PartsOkGrow(a: set<Entry>, b: set<Entry>, job: string, id: nat, parts: seq<Part>, f: set<string>, g: set<string>, w: World)
    requires job in w.jobs && PartsOk(a, job, id, parts, f, w) && a <= b && f <= g
    ensures PartsOk(b, job, id, parts, g, w)
  {
    forall i | 0 <= i < |parts| ensures StepOk(b, job, id, i + 1, parts[i], g, w) {
      StepOkGrows(a, b, job, id, i + 1, parts[i], f, g, w);
    }
  }

  lemma HandlerOkGrows(c: Handler, a: map<nat, Draft>, b: map<nat, Draft>, p: set<Entry>, q: set<Entry>, w: World)
    requires HandlerOk(c, a, p, w) && Grows(a, b) && p <= q
    ensures HandlerOk(c, b, q, w)
  {
    match c
    case Reading(job, id, parts) => PartsOkGrow(p, q, job, id, parts, a[id].files.Keys, b[id].files.Keys, w);
    case Ready(job, id, parts, files) => PartsOkGrow(p, q, job, id, parts, files.Keys, files.Keys, w);
    case _ =>
  }

  lemma SubmissionsOkGrow(submissions: seq<Submission>, last: nat, a: set<Entry>, b: set<Entry>, origins: map<nat, seq<Part>>, w: World)
    requires SubmissionsOk(submissions, last, a, origins, w) && a <= b
    ensures SubmissionsOk(submissions, last, b, origins, w)
  {
    forall r | r in submissions && r.draft.Some? ensures SubmissionOk(b, origins, r, w) {
      PartsOkGrow(a, b, r.job, r.draft.value, origins[r.id], r.files.Keys, r.files.Keys, w);
    }
  }

  // ---- Steps that leave drafts alone -------------------------------------------------------------------------

  lemma {:induction false} MadeVisibleKeepsContents(submissions: seq<Submission>, id: nat, r: Submission)
    requires r in MadeVisible(submissions, id)
    ensures exists q :: q in submissions && r == q.(visible := r.visible)
  {
    if submissions[0].id == id {
      if r == submissions[0].(visible := true) { assert submissions[0] in submissions; } else { assert r in submissions; }
    } else if r == submissions[0] {
      assert r in submissions;
    } else {
      MadeVisibleKeepsContents(submissions[1..], id, r);
    }
  }

  lemma UnrelatedKeepsDrafts(d: Data, op: Op, lib: Lib)
    requires Unrelated(op)
    ensures Applied(d, op, lib).drafts == d.drafts && Applied(d, op, lib).counters.draft == d.counters.draft
  {
  }

  lemma UnrelatedKeepsSubmissions(d: Data, op: Op, saved: set<Entry>, origins: map<nat, seq<Part>>, w: World, lib: Lib)
    requires Unrelated(op) && SubmissionsOk(d.submissions, d.counters.submission, saved, origins, w)
    ensures var e := Applied(d, op, lib); SubmissionsOk(e.submissions, e.counters.submission, saved, origins, w)
  {
    var e := Applied(d, op, lib);
    if op.RevealSubmission? {
      forall r | r in MadeVisible(d.submissions, op.id)
        ensures r.id <= d.counters.submission && (r.draft.Some? ==> SubmissionOk(saved, origins, r, w))
      {
        MadeVisibleKeepsContents(d.submissions, op.id, r);
        var q :| q in d.submissions && r == q.(visible := r.visible);
        assert r.draft.Some? ==> SubmissionOk(saved, origins, q, w);
      }
    } else if op.AddSubmission? {
      var record := Submission(d.counters.submission + 1, op.job, op.visible, op.draft, op.fields, op.files);
      assert e.submissions == d.submissions + [record] && e.counters.submission == d.counters.submission + 1;
    } else {
      assert e.submissions == d.submissions && e.counters.submission == d.counters.submission;
    }
  }

  lemma OtherKeepsInv(s: System, op: Op, w: World, lib: Lib)
    requires Inv(s, w) && Unrelated(op)
    ensures Inv(s.(data := Applied(s.data, op, lib)), w)
  {
    UnrelatedKeepsDrafts(s.data, op, lib);
    UnrelatedKeepsSubmissions(s.data, op, s.saved, s.origins, w, lib);
    var t := s.(data := Applied(s.data, op, lib));
    forall id | id in t.data.drafts ensures DraftOk(t, id, t.data.drafts[id], w) { assert DraftOk(s, id, s.data.drafts[id], w); }
  }

  /** Handlers replaced by ones that are in order. */
  lemma HandlersKeepInv(s: System, handlers: map<nat, Handler>, w: World)
    requires Inv(s, w) && HandlersOk(handlers, s.data.drafts, s.saved, w)
    ensures Inv(s.(handlers := handlers), w)
  {
    var t := s.(handlers := handlers);
    forall id | id in t.data.drafts ensures DraftOk(t, id, t.data.drafts[id], w) { assert DraftOk(s, id, s.data.drafts[id], w); }
  }

  lemma HandlerKeepsInv(s: System, h: nat, c: Handler, w: World)
    requires Inv(s, w) && HandlerOk(c, s.data.drafts, s.saved, w)
    ensures Inv(s.(handlers := s.handlers[h := c]), w)
  {
    HandlersKeepInv(s, s.handlers[h := c], w);
  }

  lemma LeavingKeepsInv(s: System, h: nat, w: World)
    requires Inv(s, w)
    ensures Inv(s.(handlers := Without(s.handlers, h)), w)
  {
    HandlersKeepInv(s, Without(s.handlers, h), w);
  }

  // ---- Posting a step -------------------------------------------------------------------------------------------

  /** One more save is known. */
  lemma SaveKnown(s: System, e: Entry, w: World)
    requires Inv(s, w) && e.posting.rules == w.rules
    ensures Inv(s.(saved := s.saved + {e}), w)
  {
    var t := s.(saved := s.saved + {e});
    forall id | id in s.data.drafts ensures DraftOk(t, id, s.data.drafts[id], w) {
      var d := s.data.drafts[id];
      assert DraftOk(s, id, d, w);
      forall n | n in d.steps ensures StepOk(t.saved, d.job, id, n, Part(d.steps[n], s.basis[(id, n)]), d.files.Keys, w) {
        StepOkGrows(s.saved, t.saved, d.job, id, n, Part(d.steps[n], s.basis[(id, n)]), d.files.Keys, d.files.Keys, w);
      }
    }
    SubmissionsOkGrow(s.data.submissions, s.data.counters.submission, s.saved, t.saved, s.origins, w);
    forall h | h in s.handlers ensures HandlerOk(s.handlers[h], s.data.drafts, t.saved, w) {
      HandlerOkGrows(s.handlers[h], s.data.drafts, s.data.drafts, s.saved, t.saved, w);
    }
  }

  lemma RetainKeepsInv(s: System, h: nat, name: string, w: World)
    requires Inv(s, w) && CanRetain(s, h, name)
    ensures Inv(s.(handlers := s.handlers[h := Reads(s, h, name)]), w)
  {
    assert HandlerOk(s.handlers[h], s.data.drafts, s.saved, w);
    HandlerKeepsInv(s, h, Reads(s, h, name), w);
  }

  lemma JudgeKeepsInv(s: System, h: nat, posting: Posting, w: World)
    requires Inv(s, w) && h in s.handlers && s.handlers[h].Opened? && posting.rules == w.rules
    requires s.handlers[h].job in w.jobs && 1 <= s.handlers[h].n <= |w.jobs[s.handlers[h].job]|
    ensures Inv(s.(handlers := s.handlers[h := Judgement(s.handlers[h], posting, w)]), w)
  {
    assert HandlerOk(s.handlers[h], s.data.drafts, s.saved, w);
    HandlerKeepsInv(s, h, Judgement(s.handlers[h], posting, w), w);
  }

  lemma StoreIs(s: System, h: nat, name: string, w: World, lib: Lib)
    requires CanStore(s, h, name)
    ensures var c := s.handlers[h];
            Next(s, StoreFile(h, name), w, lib)
            == s.(data := Applied(s.data, StoreUpload(c.report.files[name].upload), lib),
                  handlers := s.handlers[h := c.(metas := c.metas[name := s.data.counters.upload + 1])])
  {
  }

  lemma FileKeepsHandler(c: Handler, metas: map<string, Meta>, drafts: map<nat, Draft>, saved: set<Entry>, w: World)
    requires c.Judged? && HandlerOk(c, drafts, saved, w)
    ensures HandlerOk(c.(metas := metas), drafts, saved, w)
  {
  }

  lemma StoreKeepsInv(s: System, h: nat, name: string, w: World, lib: Lib)
    requires Inv(s, w) && CanStore(s, h, name)
    ensures Inv(Next(s, StoreFile(h, name), w, lib), w)
  {
    var c := s.handlers[h];
    var op := StoreUpload(c.report.files[name].upload);
    assert HandlerOk(c, s.data.drafts, s.saved, w);
    OtherKeepsInv(s, op, w, lib);
    UnrelatedKeepsDrafts(s.data, op, lib);
    var metas := c.metas[name := s.data.counters.upload + 1];
    FileKeepsHandler(c, metas, s.data.drafts, s.saved, w);
    HandlerKeepsInv(s.(data := Applied(s.data, op, lib)), h, c.(metas := metas), w);
    StoreIs(s, h, name, w, lib);
  }

  /** A posting judged without errors, entered as a step of the draft it is saved in. */
  lemma StepEntered(s: System, id: nat, before: Draft, n: nat, part: Part, files: map<string, Meta>, w: World)
    requires DraftOk(s, id, before, w) && 1 <= n <= |w.jobs[before.job]|
    requires StepOk(s.saved, before.job, id, n, part, files.Keys, w)
    ensures DraftOk(s.(basis := s.basis[(id, n) := part.posting]), id,
                    before.(steps := before.steps[n := part.values], files := before.files + files), w)
  {
    var after := before.(steps := before.steps[n := part.values], files := before.files + files);
    var t := s.(basis := s.basis[(id, n) := part.posting]);
    forall m | m in after.steps
      ensures 1 <= m <= |w.jobs[before.job]| && (id, m) in t.basis
              && StepOk(s.saved, before.job, id, m, Part(after.steps[m], t.basis[(id, m)]), after.files.Keys, w)
    {
      if m == n {
        StepOkGrows(s.saved, s.saved, before.job, id, m, part, files.Keys, after.files.Keys, w);
      } else {
        StepOkGrows(s.saved, s.saved, before.job, id, m, Part(before.steps[m], s.basis[(id, m)]), before.files.Keys, after.files.Keys, w);
      }
    }
  }

  lemma SaveGrows(d: Data, job: string, draft: Option<nat>, step: nat, values: Values, files: map<string, Meta>)
    requires draft.Some? ==> draft.value in d.drafts
    requires d.counters.draft + 1 !in d.drafts
    ensures Grows(d.drafts, WithStep(d, job, draft, step, values, files).drafts)
  {
  }

  /** Other drafts keep what their steps were saved from. */
  lemma OtherDraftKept(s: System, t: System, id: nat, d: Draft, w: World)
    requires DraftOk(s, id, d, w) && t.saved == s.saved
    requires forall n :: (id, n) in s.basis ==> (id, n) in t.basis && t.basis[(id, n)] == s.basis[(id, n)]
    ensures DraftOk(t, id, d, w)
  {
    forall n | n in d.steps ensures (id, n) in t.basis && StepOk(t.saved, d.job, id, n, Part(d.steps[n], t.basis[(id, n)]), d.files.Keys, w) {
      assert (id, n) in s.basis;
    }
  }

  lemma SavedStep(s: System, job: string, draft: Option<nat>, n: nat, part: Part, files: map<string, Meta>, w: World)
    requires DraftsOk(s, w) && job in w.jobs && 1 <= n <= |w.jobs[job]|
    requires SavedBy(w.jobs[job][n - 1], part.posting, part.values, files.Keys)
    requires Entry(job, StepDraft(s.data, draft), n, part.posting) in s.saved
    requires draft.Some? ==> Owns(s.data, draft.value, job)
    ensures var id := StepDraft(s.data, draft);
            DraftsOk(s.(data := WithStep(s.data, job, draft, n, part.values, files), basis := s.basis[(id, n) := part.posting]), w)
  {
    var d, id := s.data, StepDraft(s.data, draft);
    var before := if draft.Some? then d.drafts[id] else Draft(job, map[], map[]);
    var t := s.(data := WithStep(d, job, draft, n, part.values, files), basis := s.basis[(id, n) := part.posting]);
    assert draft.Some? ==> DraftOk(s, id, d.drafts[id], w);
    StepEntered(s, id, before, n, part, files, w);
    var after := before.(steps := before.steps[n := part.values], files := before.files + files);
    assert t.data.drafts == d.drafts[id := after];
    OtherDraftKept(s.(basis := t.basis), t, id, after, w);
    forall other | other in t.data.drafts ensures DraftOk(t, other, t.data.drafts[other], w) {
      if other != id {
        assert DraftOk(s, other, d.drafts[other], w);
        OtherDraftKept(s, t, other, d.drafts[other], w);
      }
    }
  }

  lemma SaveIs(s: System, h: nat, w: World, lib: Lib)
    requires CanEnd(s, h) && s.handlers[h].report.errors == map[]
    requires s.handlers[h].draft.Some? ==> s.handlers[h].draft.value in s.data.drafts
    ensures var c, e := s.handlers[h], SaveOf(s, s.handlers[h]);
            Next(s, EndPost(h, false), w, lib)
            == s.(data := WithStep(s.data, c.job, c.draft, c.n, c.report.values, c.metas), handlers := Without(s.handlers, h),
                  saved := s.saved + {e}, basis := s.basis[(e.id, e.n) := e.posting])
  {
  }

  lemma SaveKeepsHandlers(s: System, h: nat, drafts: map<nat, Draft>, w: World)
    requires HandlersOk(s.handlers, s.data.drafts, s.saved, w) && Grows(s.data.drafts, drafts)
    ensures HandlersOk(Without(s.handlers, h), drafts, s.saved, w)
  {
    forall g | g in Without(s.handlers, h) ensures HandlerOk(s.handlers[g], drafts, s.saved, w) {
      HandlerOkGrows(s.handlers[g], s.data.drafts, drafts, s.saved, s.saved, w);
    }
  }

  lemma StepKeepsSubmissions(d: Data, job: string, draft: Option<nat>, n: nat, values: Values, files: map<string, Meta>)
    requires draft.Some? ==> draft.value in d.drafts
    ensures var e := WithStep(d, job, draft, n, values, files);
            e.submissions == d.submissions && e.counters.submission == d.counters.submission
  {
  }

  lemma SaveKeepsInv(s: System, h: nat, w: World, lib: Lib)
    requires Inv(s, w) && CanEnd(s, h) && s.handlers[h].report.errors == map[]
    ensures Inv(Next(s, EndPost(h, false), w, lib), w)
  {
    var c, entry := s.handlers[h], SaveOf(s, s.handlers[h]);
    assert HandlerOk(c, s.data.drafts, s.saved, w);
    SaveKnown(s, entry, w);
    var known := s.(saved := s.saved + {entry});
    var e := WithStep(s.data, c.job, c.draft, c.n, c.report.values, c.metas);
    var basis := s.basis[(entry.id, entry.n) := entry.posting];
    SavedStep(known, c.job, c.draft, c.n, Part(c.report.values, c.posting), c.metas, w);
    SaveGrows(s.data, c.job, c.draft, c.n, c.report.values, c.metas);
    SaveKeepsHandlers(known, h, e.drafts, w);
    StepKeepsSubmissions(s.data, c.job, c.draft, c.n, c.report.values, c.metas);
    DraftsIgnoreHandlers(known.(data := e, basis := basis), Without(s.handlers, h), w);
    SaveIs(s, h, w, lib);
  }

  lemma DraftsIgnoreHandlers(s: System, handlers: map<nat, Handler>, w: World)
    requires DraftsOk(s, w)
    ensures DraftsOk(s.(handlers := handlers), w)
  {
    var t := s.(handlers := handlers);
    forall id | id in t.data.drafts ensures DraftOk(t, id, t.data.drafts[id], w) { assert DraftOk(s, id, s.data.drafts[id], w); }
  }

  lemma EndKeepsInv(s: System, h: nat, otherErrors: bool, w: World, lib: Lib)
    requires Inv(s, w) && CanEnd(s, h)
    ensures Inv(Next(s, EndPost(h, otherErrors), w, lib), w)
  {
    var c := s.handlers[h];
    if otherErrors || c.report.errors != map[] {
      LeavingKeepsInv(s, h, w);
      OtherKeepsInv(s.(handlers := Without(s.handlers, h)), AddRejection(c.job), w, lib);
    } else {
      SaveKeepsInv(s, h, w, lib);
    }
  }

  // ---- Submitting ---------------------------------------------------------------------------------------------------

  lemma ReadKeepsInv(s: System, h: nat, w: World)
    requires Inv(s, w) && h in s.handlers && s.handlers[h].Reading? && Owns(s.data, s.handlers[h].id, s.handlers[h].job)
    requires |s.handlers[h].parts| + 1 in s.data.drafts[s.handlers[h].id].steps
    ensures Inv(s.(handlers := s.handlers[h := WithPart(s, s.handlers[h], w)]), w)
  {
    var c := s.handlers[h];
    assert HandlerOk(c, s.data.drafts, s.saved, w) && DraftOk(s, c.id, s.data.drafts[c.id], w);
    HandlerKeepsInv(s, h, WithPart(s, c, w), w);
  }

  lemma SubmitAdds(d: Data, c: Handler, lib: Lib)
    requires c.Ready?
    ensures var e := Applied(d, Submitted(c), lib);
            && e.submissions == d.submissions + [Submission(d.counters.submission + 1, c.job, true, Some(c.id), Merged(Taken(c.parts)), c.files)]
            && e.drafts == d.drafts && e.counters.draft == d.counters.draft && e.counters.submission == d.counters.submission + 1
  {
  }

  lemma OneMoreSubmission(submissions: seq<Submission>, r: Submission, last: nat, saved: set<Entry>, origins: map<nat, seq<Part>>, parts: seq<Part>, w: World)
    requires SubmissionsOk(submissions, last, saved, origins, w) && r.id == last + 1
    requires SubmissionOk(saved, origins[r.id := parts], r, w)
    ensures SubmissionsOk(submissions + [r], last + 1, saved, origins[r.id := parts], w)
  {
    forall q | q in submissions && q.draft.Some? ensures SubmissionOk(saved, origins[r.id := parts], q, w) {
      assert SubmissionOk(saved, origins, q, w);
    }
  }

  lemma SubmitKeepsDrafts(s: System, t: System, w: World)
    requires DraftsOk(s, w) && t.saved == s.saved && t.basis == s.basis
    requires t.data.drafts == s.data.drafts && t.data.counters.draft == s.data.counters.draft
    ensures DraftsOk(t, w)
  {
    forall id | id in t.data.drafts ensures DraftOk(t, id, t.data.drafts[id], w) {
      assert DraftOk(s, id, s.data.drafts[id], w);
      OtherDraftKept(s, t, id, s.data.drafts[id], w);
    }
  }

  lemma SubmittedIsOk(c: Handler, drafts: map<nat, Draft>, saved: set<Entry>, origins: map<nat, seq<Part>>, id: nat, w: World)
    requires c.Ready? && HandlerOk(c, drafts, saved, w)
    ensures SubmissionOk(saved, origins[id := c.parts], Submission(id, c.job, true, Some(c.id), Merged(Taken(c.parts)), c.files), w)
  {
  }

  lemma SubmitIs(s: System, h: nat, w: World, lib: Lib)
    requires h in s.handlers && s.handlers[h].Ready?
    ensures Next(s, Submit(h), w, lib)
            == s.(data := Applied(s.data, Submitted(s.handlers[h]), lib), handlers := Without(s.handlers, h),
                  origins := s.origins[s.data.counters.submission + 1 := s.handlers[h].parts])
  {
  }

  lemma SubmissionKeepsInv(s: System, h: nat, e: Data, record: Submission, w: World)
    requires Inv(s, w) && h in s.handlers && s.handlers[h].Ready?
    requires var c := s.handlers[h];
             record == Submission(s.data.counters.submission + 1, c.job, true, Some(c.id), Merged(Taken(c.parts)), c.files)
    requires e.submissions == s.data.submissions + [record] && e.counters.submission == record.id
    requires e.drafts == s.data.drafts && e.counters.draft == s.data.counters.draft
    ensures Inv(s.(data := e, handlers := Without(s.handlers, h), origins := s.origins[record.id := s.handlers[h].parts]), w)
  {
    var c := s.handlers[h];
    SubmittedIsOk(c, s.data.drafts, s.saved, s.origins, record.id, w);
    OneMoreSubmission(s.data.submissions, record, s.data.counters.submission, s.saved, s.origins, c.parts, w);
    SubmitKeepsDrafts(s, s.(data := e, handlers := Without(s.handlers, h), origins := s.origins[record.id := c.parts]), w);
    SaveKeepsHandlers(s, h, s.data.drafts, w);
  }

  lemma SubmitKeepsInv(s: System, h: nat, w: World, lib: Lib)
    requires Inv(s, w) && h in s.handlers && s.handlers[h].Ready?
    ensures Inv(Next(s, Submit(h), w, lib), w)
  {
    var c := s.handlers[h];
    var record := Submission(s.data.counters.submission + 1, c.job, true, Some(c.id), Merged(Taken(c.parts)), c.files);
    SubmitAdds(s.data, c, lib);
    SubmissionKeepsInv(s, h, Applied(s.data, Submitted(c), lib), record, w);
    SubmitIs(s, h, w, lib);
  }

  lemma TakeKeepsInv(s: System, h: nat, w: World)
    requires Inv(s, w) && h in s.handlers && s.handlers[h].Reading? && s.handlers[h].job in w.jobs && s.handlers[h].id in s.data.drafts
    requires |s.handlers[h].parts| == |w.jobs[s.handlers[h].job]|
    ensures var c := s.handlers[h];
            Inv(s.(handlers := s.handlers[h := Ready(c.job, c.id, c.parts, s.data.drafts[c.id].files)]), w)
  {
    var c := s.handlers[h];
    assert HandlerOk(c, s.data.drafts, s.saved, w);
    HandlerKeepsInv(s, h, Ready(c.job, c.id, c.parts, s.data.drafts[c.id].files), w);
  }

  lemma LookKeepsInv(s: System, h: nat, w: World)
    requires Inv(s, w) && h in s.handlers && s.handlers[h].Looking? && s.handlers[h].job in w.jobs
    ensures Inv(s.(handlers := Looked(s, h, w)), w)
  {
    var c := s.handlers[h];
    assert HandlerOk(c, s.data.drafts, s.saved, w);
    if c.k == |w.jobs[c.job]| {
      HandlerKeepsInv(s, h, Reading(c.job, c.id, []), w);
    } else if c.id in s.data.drafts && c.k + 1 in s.data.drafts[c.id].steps {
      HandlerKeepsInv(s, h, c.(k := c.k + 1), w);
    } else {
      LeavingKeepsInv(s, h, w);
    }
  }

  // ---- Every step --------------------------------------------------------------------------------------------------

  lemma PostStepKeepsInv(s: System, e: Event, w: World, lib: Lib)
    requires Inv(s, w) && (e.OpenPost? || e.Retain? || e.Judging? || e.StoreFile? || e.EndPost?)
    ensures Inv(Next(s, e, w, lib), w)
  {
    match e
    case OpenPost(h, job, draft, n) => if CanOpen(s, h, w, job, draft, n) { HandlerKeepsInv(s, h, Opened(job, draft, n, map[]), w); }
    case Retain(h, name) => if CanRetain(s, h, name) { RetainKeepsInv(s, h, name, w); }
    case Judging(h, posting) =>
      if CanJudge(s, h, posting, w) && s.handlers[h].job in w.jobs && 1 <= s.handlers[h].n <= |w.jobs[s.handlers[h].job]| {
        JudgeKeepsInv(s, h, posting, w);
      }
    case StoreFile(h, name) => if CanStore(s, h, name) { StoreKeepsInv(s, h, name, w, lib); }
    case EndPost(h, otherErrors) => if CanEnd(s, h) { EndKeepsInv(s, h, otherErrors, w, lib); }
  }

  lemma SubmitStepKeepsInv(s: System, e: Event, w: World, lib: Lib)
    requires Inv(s, w) && (e.OpenSubmit? || e.Look? || e.ReadStep? || e.TakeFiles? || e.Submit?)
    ensures Inv(Next(s, e, w, lib), w)
  {
    if e.OpenSubmit? {
      if e.draft.Some? && CanOpen(s, e.h, w, e.job, e.draft, 1) { HandlerKeepsInv(s, e.h, Looking(e.job, e.draft.value, 0), w); }
    } else if Next(s, e, w, lib) != s {
      match e
      case Look(h) => LookKeepsInv(s, h, w);
      case ReadStep(h) => ReadKeepsInv(s, h, w);
      case TakeFiles(h) => TakeKeepsInv(s, h, w);
      case Submit(h) => SubmitKeepsInv(s, h, w, lib);
    }
  }

  lemma {:induction false} NextKeepsInv(s: System, e: Event, w: World, lib: Lib)
    requires Inv(s, w)
    ensures Inv(Next(s, e, w, lib), w)
  {
    match e
    case Drop(h) => LeavingKeepsInv(s, h, w);
    case Other(op) => if Unrelated(op) { OtherKeepsInv(s, op, w, lib); }
    case Restart => HandlersKeepInv(s, map[], w);
    case _ =>
      if e.OpenPost? || e.Retain? || e.Judging? || e.StoreFile? || e.EndPost? { PostStepKeepsInv(s, e, w, lib); }
      else { SubmitStepKeepsInv(s, e, w, lib); }
  }

  lemma {:induction false} RunKeepsInv(events: seq<Event>, w: World, lib: Lib)
    ensures Inv(Run(events, w, lib), w)
  {
    if events != [] {
      var n := |events| - 1;
      RunKeepsInv(events[..n], w, lib);
      NextKeepsInv(RunFrom(START, events[..n], w, lib), events[n], w, lib);
    }
  }

  // ---- Where postings come from ---------------------------------------------------------------------------------------

  /** Event `k` of the run is this handler's judging of the posting, opened for this step. */
  ghost predicate PostedAt(events: seq<Event>, k: nat, h: nat, job: string, draft: Option<nat>, n: nat, posting: Posting, w: World, lib: Lib) {
    && k < |events| && events[k] == Judging(h, posting)
    && var handlers := Run(events[..k], w, lib).handlers;
       h in handlers && handlers[h] == Opened(job, draft, n, posting.retained)
  }

  lemma {:induction false} StillJudged(s: System, e: Event, h: nat, w: World, lib: Lib)
    requires h in Next(s, e, w, lib).handlers && Next(s, e, w, lib).handlers[h].Judged?
    ensures h in s.handlers
    ensures var c, d := s.handlers[h], Next(s, e, w, lib).handlers[h];
            || (e == Judging(h, d.posting) && c == Opened(d.job, d.draft, d.n, d.posting.retained))
            || (c.Judged? && c.job == d.job && c.draft == d.draft && c.n == d.n && c.posting == d.posting)
  {
  }

  lemma {:induction false} JudgedWasPosted(events: seq<Event>, h: nat, w: World, lib: Lib) returns (k: nat)
    requires h in Run(events, w, lib).handlers && Run(events, w, lib).handlers[h].Judged?
    ensures var c := Run(events, w, lib).handlers[h]; PostedAt(events, k, h, c.job, c.draft, c.n, c.posting, w, lib)
  {
    var n := |events| - 1;
    var s, c := Run(events[..n], w, lib), Run(events, w, lib).handlers[h];
    StillJudged(s, events[n], h, w, lib);
    if s.handlers[h].Judged? {
      k := JudgedWasPosted(events[..n], h, w, lib);
      assert events[..n][..k] == events[..k];
    } else {
      k := n;
    }
  }

  /** Event `k` of the run saves this step of this draft, by the handler that judged this very posting:
      it adds to the draft, or makes it. */
  ghost predicate SavedAt(events: seq<Event>, k: nat, e: Entry, w: World, lib: Lib) {
    && k < |events| && events[k].EndPost?
    && var s, h := Run(events[..k], w, lib), events[k].h;
       && CanEnd(s, h) && EndsInSave(s.handlers[h], events[k].otherErrors) && SaveOf(s, s.handlers[h]) == e
       && exists j :: PostedAt(events[..k], j, h, e.job, s.handlers[h].draft, e.n, e.posting, w, lib)
  }

  lemma {:induction false} SavedOnlyBy(s: System, e: Event, w: World, lib: Lib, entry: Entry)
    requires entry in Next(s, e, w, lib).saved && entry !in s.saved
    ensures e.EndPost? && CanEnd(s, e.h) && EndsInSave(s.handlers[e.h], e.otherErrors) && SaveOf(s, s.handlers[e.h]) == entry
  {
  }

  lemma {:induction false} SavedWasPosted(events: seq<Event>, w: World, lib: Lib, e: Entry)
    requires e in Run(events, w, lib).saved
    ensures exists k :: SavedAt(events, k, e, w, lib)
  {
    var n := |events| - 1;
    var s := Run(events[..n], w, lib);
    if e in s.saved {
      SavedWasPosted(events[..n], w, lib, e);
      var k: nat :| SavedAt(events[..n], k, e, w, lib);
      assert events[..n][..k] == events[..k];
      assert SavedAt(events, k, e, w, lib);
    } else {
      SavedOnlyBy(s, events[n], w, lib, e);
      var j := JudgedWasPosted(events[..n], events[n].h, w, lib);
      assert SavedAt(events, n, e, w, lib);
    }
  }

  /** Under the run's rules, the run saved this step of this draft from this posting. */
  ghost predicate PostedFor(events: seq<Event>, job: string, id: nat, n: nat, posting: Posting, w: World, lib: Lib) {
    posting.rules == w.rules && exists k :: SavedAt(events, k, Entry(job, id, n, posting), w, lib)
  }

  lemma SavedForWasPosted(events: seq<Event>, job: string, id: nat, n: nat, posting: Posting, w: World, lib: Lib)
    requires Entry(job, id, n, posting) in Run(events, w, lib).saved && RulesOk(Run(events, w, lib).saved, w)
    ensures PostedFor(events, job, id, n, posting, w, lib)
  {
    SavedWasPosted(events, w, lib, Entry(job, id, n, posting));
  }

  // ---- Theorems ------------------------------------------------------------------------------------------------------

  /** Every stored step of every draft is the error-free result of validating the posting that a handler
      of the run judged and saved it from, and the draft holds the files that came with it. */
  lemma StoredStepsAreValid(events: seq<Event>, w: World, lib: Lib, id: nat, n: nat)
    requires id in Run(events, w, lib).data.drafts && n in Run(events, w, lib).data.drafts[id].steps
    ensures var d := Run(events, w, lib).data.drafts[id];
            && d.job in w.jobs && 1 <= n <= |w.jobs[d.job]|
            && exists posting ::
                 SavedBy(w.jobs[d.job][n - 1], posting, d.steps[n], d.files.Keys) && PostedFor(events, d.job, id, n, posting, w, lib)
  {
    RunKeepsInv(events, w, lib);
    var s := Run(events, w, lib);
    var d := s.data.drafts[id];
    assert DraftOk(s, id, d, w);
    SavedForWasPosted(events, d.job, id, n, s.basis[(id, n)], w, lib);
  }

  lemma OtherOpsKeepDrafts(d: Data, op: Op, lib: Lib)
    requires !op.SaveStep? && Saves(d, op)
    ensures Mutated(d, op, lib).drafts == d.drafts
  {
  }

  lemma {:induction false} OpGrows(d: Data, op: Op, lib: Lib)
    requires d.counters.draft + 1 !in d.drafts
    ensures Grows(d.drafts, Applied(d, op, lib).drafts)
  {
    if Saves(d, op) {
      if op.SaveStep? { SaveGrows(d, op.job, op.draft, op.step, op.values, op.files); } else { OtherOpsKeepDrafts(d, op, lib); }
    }
  }

  /** The store operation a step of the run performs, if any. */
  ghost function Operation(s: System, e: Event): Option<Op> {
    match e
    case StoreFile(h, name) => if CanStore(s, h, name) then Some(StoreUpload(s.handlers[h].report.files[name].upload)) else None
    case EndPost(h, otherErrors) => if CanEnd(s, h) then Some(Ended(s.handlers[h], otherErrors)) else None
    case Submit(h) => if h in s.handlers && s.handlers[h].Ready? then Some(Submitted(s.handlers[h])) else None
    case Other(op) => if Unrelated(op) then Some(op) else None
    case _ => None
  }

  lemma StepPerforms(s: System, e: Event, w: World, lib: Lib)
    ensures Next(s, e, w, lib).data
            == if Operation(s, e).Some? then Applied(s.data, Operation(s, e).value, lib) else s.data
  {
  }

  /** However a run goes on, no draft, no step of it and no file of it is ever removed. */
  lemma {:induction false} StepsAreNeverRemoved(events: seq<Event>, more: seq<Event>, w: World, lib: Lib)
    ensures var s := Run(events, w, lib);
            Inv(RunFrom(s, more, w, lib), w) && Grows(s.data.drafts, RunFrom(s, more, w, lib).data.drafts)
  {
    var s := Run(events, w, lib);
    if more == [] {
      RunKeepsInv(events, w, lib);
    } else {
      var n := |more| - 1;
      StepsAreNeverRemoved(events, more[..n], w, lib);
      var t := RunFrom(s, more[..n], w, lib);
      NextKeepsInv(t, more[n], w, lib);
      StepPerforms(t, more[n], w, lib);
      if Operation(t, more[n]).Some? { OpGrows(t.data, Operation(t, more[n]).value, lib); }
    }
  }

  lemma {:induction false} MergedHasAll(taken: seq<Values>, i: nat)
    requires i < |taken|
    ensures taken[i].Keys <= Merged(taken).Keys
  {
    var n := |taken| - 1;
    if i < n { MergedHasAll(taken[..n], i); }
  }

  /** The application answers what this part's posting shows of the step: its values are that posting's
      error-free result, and every question required as the posting shows the step is carried. */
  ghost predicate Answers(r: Submission, step: seq<Field>, part: Part) {
    var shown := Revealed(step, part.posting.form);
    && SavedBy(step, part.posting, part.values, r.files.Keys)
    && forall k :: 0 <= k < |shown| && Active(shown[k]) && shown[k].required ==> Carries(r.fields, r.files.Keys, shown[k].name)
  }

  lemma PartIsAnswered(r: Submission, step: seq<Field>, part: Part)
    requires SavedBy(step, part.posting, part.values, r.files.Keys) && part.values.Keys <= r.fields.Keys
    ensures Answers(r, step, part)
  {
    var shown := Revealed(step, part.posting.form);
    forall k | 0 <= k < |shown| && Active(shown[k]) && shown[k].required ensures Carries(r.fields, r.files.Keys, shown[k].name) {
      RequiredIsCarried(shown, part.posting, k);
    }
  }

  /** The application is the merge of these parts, one for each step, each saved by the run as that step
      of its draft, and each answered. */
  ghost predicate Composed(events: seq<Event>, r: Submission, parts: seq<Part>, w: World, lib: Lib)
    requires r.job in w.jobs && r.draft.Some?
  {
    && |parts| == |w.jobs[r.job]|
    && r.fields == Merged(Taken(parts))
    && forall n :: 0 <= n < |parts| ==>
         Answers(r, w.jobs[r.job][n], parts[n]) && PostedFor(events, r.job, r.draft.value, n + 1, parts[n].posting, w, lib)
  }

  /** Every accepted multistep application merges, in order, one saved result of every step: each the
      error-free result of a posting that a handler of the run judged and saved as that step of that very
      draft, whose every required question the application carries with an answer or a file, whatever
      was saved again meanwhile. */
  lemma SubmissionsAreComplete(events: seq<Event>, w: World, lib: Lib, r: Submission)
    requires r in Run(events, w, lib).data.submissions && r.draft.Some?
    ensures r.job in w.jobs && exists parts :: Composed(events, r, parts, w, lib)
  {
    RunKeepsInv(events, w, lib);
    var s := Run(events, w, lib);
    assert SubmissionOk(s.saved, s.origins, r, w);
    var parts := s.origins[r.id];
    forall n | 0 <= n < |parts|
      ensures Answers(r, w.jobs[r.job][n], parts[n]) && PostedFor(events, r.job, r.draft.value, n + 1, parts[n].posting, w, lib)
    {
      assert StepOk(s.saved, r.job, r.draft.value, n + 1, parts[n], r.files.Keys, w);
      MergedHasAll(Taken(parts), n);
      PartIsAnswered(r, w.jobs[r.job][n], parts[n]);
      SavedForWasPosted(events, r.job, r.draft.value, n + 1, parts[n].posting, w, lib);
    }
    assert Composed(events, r, parts, w, lib);
  }
}
