/** What drafts and accepted applications hold over whole runs of concurrent posts and submits: each
    step's answers and each file are those of the last save that brought any. */
module DraftFiles {
  import opened Wrappers
  import opened Fields
  import opened Validation
  import opened ValidationExact
  import opened Store
  import opened Drafts
  import opened Handlers

  // ---- What a save brings ------------------------------------------------------------------------------

  /** A step's answers, or the record of a file. */
  datatype Piece = Step(n: nat, values: Values) | Attachment(name: string, meta: Meta)

  predicate Has(d: Draft, p: Piece) {
    match p
    case Step(n, values) => n in d.steps && d.steps[n] == values
    case Attachment(name, meta) => name in d.files && d.files[name] == meta
  }

  predicate Brings(c: Handler, p: Piece)
    requires c.Judged?
  {
    match p
    case Step(n, values) => c.n == n && c.report.values == values
    case Attachment(name, meta) => name in c.metas && c.metas[name] == meta
  }

  /** The post brings something for the place of this piece. */
  predicate Touches(c: Handler, p: Piece)
    requires c.Judged?
  {
    match p
    case Step(n, _) => c.n == n
    case Attachment(name, _) => name in c.report.files
  }

  /** The step ends a post in a save of this draft, which it adds to or makes as the next new one. */
  predicate SavesTo(s: System, e: Event, id: nat) {
    && e.EndPost? && CanEnd(s, e.h) && EndsInSave(s.handlers[e.h], e.otherErrors)
    && id == (if s.handlers[e.h].draft.Some? then s.handlers[e.h].draft.value else s.data.counters.draft + 1)
  }

  ghost predicate BroughtAt(events: seq<Event>, k: nat, id: nat, p: Piece, w: World, lib: Lib) {
    && k < |events|
    && var s := Run(events[..k], w, lib);
       SavesTo(s, events[k], id) && Brings(s.handlers[events[k].h], p)
  }

  ghost predicate TouchedAt(events: seq<Event>, k: nat, id: nat, p: Piece, w: World, lib: Lib) {
    && k < |events|
    && var s := Run(events[..k], w, lib);
       SavesTo(s, events[k], id) && Touches(s.handlers[events[k].h], p)
  }

  /** Event `k` is the last save of the draft that brings anything for the place, and brings this. */
  ghost predicate LastBrought(events: seq<Event>, k: nat, id: nat, p: Piece, w: World, lib: Lib) {
    BroughtAt(events, k, id, p, w, lib) && forall j :: k < j < |events| ==> !TouchedAt(events, j, id, p, w, lib)
  }

  ghost predicate Holds(s: System, id: nat, p: Piece) {
    id in s.data.drafts && Has(s.data.drafts[id], p)
  }

  lemma {:induction false} EnteredHas(before: Draft, after: Draft, c: Handler, p: Piece)
    requires c.Judged? && c.metas.Keys == c.report.files.Keys && Entered(before, after, c.n, c.report.values, c.metas)
    ensures Has(after, p) <==> if Touches(c, p) then Brings(c, p) else Has(before, p)
  {
  }

  lemma {:induction false} SaveEnters(s: System, e: Event, id: nat, p: Piece, w: World, lib: Lib)
    requires Inv(s, w) && SavesTo(s, e, id)
    ensures var c := s.handlers[e.h];
            Holds(Next(s, e, w, lib), id, p) <==> if Touches(c, p) then Brings(c, p) else Holds(s, id, p)
  {
    var c := s.handlers[e.h];
    assert HandlerOk(c, s.data.drafts, s.saved, w);
    if c.draft.None? { assert id !in s.data.drafts; }
    StepPerforms(s, e, w, lib);
    StepIsSaved(s.data, c.job, c.draft, c.n, c.report.values, c.metas, lib);
    EnteredHas(if c.draft.Some? then s.data.drafts[id] else Draft(c.job, map[], map[]), Next(s, e, w, lib).data.drafts[id], c, p);
  }

  lemma {:induction false} OthersKeepPieces(s: System, e: Event, id: nat, p: Piece, w: World, lib: Lib)
    requires Inv(s, w) && !SavesTo(s, e, id)
    ensures Holds(Next(s, e, w, lib), id, p) <==> Holds(s, id, p)
  {
    StepPerforms(s, e, w, lib);
    if Operation(s, e).Some? {
      var op := Operation(s, e).value;
      if !op.SaveStep? {
        if Saves(s.data, op) { OtherOpsKeepDrafts(s.data, op, lib); }
      } else {
        var c := s.handlers[e.h];
        assert HandlerOk(c, s.data.drafts, s.saved, w);
        StepIsSaved(s.data, c.job, c.draft, c.n, c.report.values, c.metas, lib);
        var drafts := Next(s, e, w, lib).data.drafts;
        var other := StepDraft(s.data, c.draft);
        assert id in drafts - {other} <==> id in s.data.drafts - {other};
        if id in drafts { assert (drafts - {other})[id] == (s.data.drafts - {other})[id]; }
      }
    }
  }

  lemma LastOfPrefix(events: seq<Event>, k: nat, id: nat, p: Piece, w: World, lib: Lib)
    requires events != [] && k < |events| - 1 && !TouchedAt(events, |events| - 1, id, p, w, lib)
    ensures LastBrought(events, k, id, p, w, lib) <==> LastBrought(events[..|events| - 1], k, id, p, w, lib)
  {
    var n := |events| - 1;
    assert forall j :: 0 <= j < n ==> events[..n][..j] == events[..j];
    assert forall j :: 0 <= j < n ==> TouchedAt(events, j, id, p, w, lib) == TouchedAt(events[..n], j, id, p, w, lib);
  }

  /** At any moment of any run, a draft holds a step's answers, or a file's record, exactly if they are what
      the last save of it brought that brought any. */
  lemma {:induction false} DraftsHoldWhatWasLastBrought(events: seq<Event>, id: nat, p: Piece, w: World, lib: Lib)
    ensures Holds(Run(events, w, lib), id, p) <==> exists k: nat :: LastBrought(events, k, id, p, w, lib)
  {
    if events != [] {
      var n := |events| - 1;
      var s := Run(events[..n], w, lib);
      DraftsHoldWhatWasLastBrought(events[..n], id, p, w, lib);
      RunKeepsInv(events[..n], w, lib);
      if TouchedAt(events, n, id, p, w, lib) {
        SaveEnters(s, events[n], id, p, w, lib);
        if Brings(s.handlers[events[n].h], p) { assert LastBrought(events, n, id, p, w, lib); }
      } else {
        if SavesTo(s, events[n], id) { SaveEnters(s, events[n], id, p, w, lib); } else { OthersKeepPieces(s, events[n], id, p, w, lib); }
        forall k: nat | k < n
          ensures LastBrought(events, k, id, p, w, lib) <==> LastBrought(events[..n], k, id, p, w, lib)
        {
          LastOfPrefix(events, k, id, p, w, lib);
        }
      }
    }
  }

  // ---- Where a file comes from ---------------------------------------------------------------------------

  /** The record of what was posted: of the upload stored under its number, or the one retained. */
  predicate RecordOf(meta: Meta, posted: Attached, d: Data, lib: Lib) {
    match posted
    case New(u) => meta in d.uploads && d.uploads[meta] == Recorded(u.filename, |u.data|, lib.digest(u.data))
    case Retained(m) => m == meta
  }

  predicate Numbered(d: Data) {
    forall m :: m in d.uploads ==> m <= d.counters.upload
  }

  ghost predicate JudgedOk(c: Handler, d: Data, w: World, lib: Lib)
    requires c.Judged?
  {
    && c.job in w.jobs && 1 <= c.n <= |w.jobs[c.job]|
    && c.report == Validated(Revealed(w.jobs[c.job][c.n - 1], c.posting.form), c.posting)
    && forall name :: name in c.metas ==> name in c.report.files && RecordOf(c.metas[name], c.report.files[name], d, lib)
  }

  ghost predicate FilesInv(s: System, w: World, lib: Lib) {
    Numbered(s.data) && forall h :: h in s.handlers && s.handlers[h].Judged? ==> JudgedOk(s.handlers[h], s.data, w, lib)
  }

  predicate UploadsStay(d: Data, e: Data) {
    forall m :: m in d.uploads ==> m in e.uploads && e.uploads[m] == d.uploads[m]
  }

  lemma {:induction false} UploadsStayUnder(d: Data, op: Op, lib: Lib)
    requires Numbered(d)
    ensures Numbered(Applied(d, op, lib)) && UploadsStay(d, Applied(d, op, lib))
    ensures op.StoreUpload? ==> RecordOf(d.counters.upload + 1, New(op.upload), Applied(d, op, lib), lib)
  {
    if Saves(d, op) && !op.StoreUpload? {
      assert Mutated(d, op, lib).uploads == d.uploads && Mutated(d, op, lib).counters.upload == d.counters.upload;
    }
  }

  lemma {:induction false} StepKeepsUploads(s: System, e: Event, w: World, lib: Lib)
    requires Numbered(s.data)
    ensures var t := Next(s, e, w, lib); Numbered(t.data) && UploadsStay(s.data, t.data)
  {
    StepPerforms(s, e, w, lib);
    if Operation(s, e).Some? { UploadsStayUnder(s.data, Operation(s, e).value, lib); }
  }

  lemma {:induction false} StillJudgedOk(c: Handler, d: Data, e: Data, w: World, lib: Lib)
    requires c.Judged? && JudgedOk(c, d, w, lib) && UploadsStay(d, e)
    ensures JudgedOk(c, e, w, lib)
  {
    forall name | name in c.metas ensures name in c.report.files && RecordOf(c.metas[name], c.report.files[name], e, lib) {
      assert RecordOf(c.metas[name], c.report.files[name], d, lib);
    }
  }

  lemma {:induction false} RetainedAreRecords(report: Report, d: Data, lib: Lib)
    ensures forall name :: name in RetainedOf(report) ==>
              name in report.files && RecordOf(RetainedOf(report)[name], report.files[name], d, lib)
  {
  }

  /** A handler that has judged was there already, but for the file it may have stored. */
  lemma {:induction false} JudgedComesFrom(s: System, e: Event, h: nat, w: World, lib: Lib)
    requires h in Next(s, e, w, lib).handlers && Next(s, e, w, lib).handlers[h].Judged?
    ensures h in s.handlers
    ensures var c, d := s.handlers[h], Next(s, e, w, lib).handlers[h];
            || d == c
            || (e == Judging(h, d.posting) && c.Opened? && c.job in w.jobs && 1 <= c.n <= |w.jobs[c.job]| && d == Judgement(c, d.posting, w))
            || (e.StoreFile? && e.h == h && CanStore(s, h, e.name) && d == c.(metas := c.metas[e.name := s.data.counters.upload + 1]))
  {
  }

  lemma {:induction false} JudgementIsOk(c: Handler, posting: Posting, d: Data, w: World, lib: Lib)
    requires c.Opened? && c.job in w.jobs && 1 <= c.n <= |w.jobs[c.job]|
    ensures JudgedOk(Judgement(c, posting, w), d, w, lib)
  {
    RetainedAreRecords(Judgement(c, posting, w).report, d, lib);
  }

  lemma {:induction false} OneMoreFileIsOk(c: Handler, name: string, meta: Meta, d: Data, w: World, lib: Lib)
    requires c.Judged? && JudgedOk(c, d, w, lib) && name in c.report.files && RecordOf(meta, c.report.files[name], d, lib)
    ensures JudgedOk(c.(metas := c.metas[name := meta]), d, w, lib)
  {
  }

  lemma {:induction false} HandlerStaysOk(s: System, e: Event, h: nat, w: World, lib: Lib)
    requires FilesInv(s, w, lib) && h in Next(s, e, w, lib).handlers && Next(s, e, w, lib).handlers[h].Judged?
    ensures JudgedOk(Next(s, e, w, lib).handlers[h], Next(s, e, w, lib).data, w, lib)
  {
    var d, t := s.data, Next(s, e, w, lib).data;
    StepKeepsUploads(s, e, w, lib);
    JudgedComesFrom(s, e, h, w, lib);
    var c := s.handlers[h];
    if c.Judged? {
      StillJudgedOk(c, d, t, w, lib);
      if e.StoreFile? && e.h == h && CanStore(s, h, e.name) {
        FileIsRecorded(s, h, e.name, w, lib);
        OneMoreFileIsOk(c, e.name, d.counters.upload + 1, t, w, lib);
      }
    } else {
      JudgementIsOk(c, Next(s, e, w, lib).handlers[h].posting, t, w, lib);
    }
  }

  lemma {:induction false} NextKeepsFiles(s: System, e: Event, w: World, lib: Lib)
    requires FilesInv(s, w, lib)
    ensures FilesInv(Next(s, e, w, lib), w, lib)
  {
    var t := Next(s, e, w, lib);
    StepKeepsUploads(s, e, w, lib);
    forall h | h in t.handlers && t.handlers[h].Judged? ensures JudgedOk(t.handlers[h], t.data, w, lib) {
      HandlerStaysOk(s, e, h, w, lib);
    }
  }

  lemma {:induction false} FileIsRecorded(s: System, h: nat, name: string, w: World, lib: Lib)
    requires CanStore(s, h, name) && Numbered(s.data)
    ensures RecordOf(s.data.counters.upload + 1, s.handlers[h].report.files[name], Next(s, StoreFile(h, name), w, lib).data, lib)
  {
    StepPerforms(s, StoreFile(h, name), w, lib);
    UploadsStayUnder(s.data, StoreUpload(s.handlers[h].report.files[name].upload), lib);
  }

  lemma {:induction false} RunKeepsFiles(events: seq<Event>, w: World, lib: Lib)
    ensures FilesInv(Run(events, w, lib), w, lib)
  {
    if events != [] {
      var n := |events| - 1;
      RunKeepsFiles(events[..n], w, lib);
      NextKeepsFiles(Run(events[..n], w, lib), events[n], w, lib);
    }
  }

  lemma {:induction false} UploadsStayFrom(events: seq<Event>, k: nat, w: World, lib: Lib)
    requires k <= |events|
    ensures UploadsStay(Run(events[..k], w, lib).data, Run(events, w, lib).data)
  {
    if k == |events| {
      assert events[..k] == events;
    } else {
      var n := |events| - 1;
      UploadsStayFrom(events[..n], k, w, lib);
      assert events[..n][..k] == events[..k];
      RunKeepsFiles(events[..n], w, lib);
      StepKeepsUploads(Run(events[..n], w, lib), events[n], w, lib);
    }
  }

  /** Event `k` of the run is this handler's reading of the draft's file. */
  ghost predicate ReadAt(events: seq<Event>, k: nat, h: nat, id: nat, name: string, meta: Meta, w: World, lib: Lib) {
    k < |events| && events[k] == Retain(h, name) && Holds(Run(events[..k], w, lib), id, Attachment(name, meta))
  }

  lemma {:induction false} StillRead(s: System, e: Event, h: nat, name: string, w: World, lib: Lib)
    requires h in Next(s, e, w, lib).handlers && Next(s, e, w, lib).handlers[h].Opened? && name in Next(s, e, w, lib).handlers[h].read
    ensures var d := Next(s, e, w, lib).handlers[h];
            && h in s.handlers && s.handlers[h].Opened? && s.handlers[h].draft == d.draft
            && if e == Retain(h, name) && CanRetain(s, h, name) then d == Reads(s, h, name)
               else name in s.handlers[h].read && s.handlers[h].read[name] == d.read[name]
  {
  }

  lemma {:induction false} ReadWasHeld(events: seq<Event>, h: nat, name: string, w: World, lib: Lib) returns (k: nat)
    requires var s := Run(events, w, lib); h in s.handlers && s.handlers[h].Opened? && name in s.handlers[h].read
    ensures var c := Run(events, w, lib).handlers[h]; c.draft.Some? && ReadAt(events, k, h, c.draft.value, name, c.read[name], w, lib)
  {
    var n := |events| - 1;
    var s := Run(events[..n], w, lib);
    StillRead(s, events[n], h, name, w, lib);
    if events[n] == Retain(h, name) && CanRetain(s, h, name) {
      k := n;
    } else {
      k := ReadWasHeld(events[..n], h, name, w, lib);
      assert events[..n][..k] == events[..k];
    }
  }

  /** A file of a report is what became of one of the questions. */
  lemma {:induction false} FileWasJudged(fields: seq<Field>, verdicts: seq<Verdict>, country: string, name: string)
    requires |verdicts| == |fields| && name in Tally(fields, verdicts, country).files
    ensures exists k :: 0 <= k < |fields| && fields[k].name == name && verdicts[k] == Filed(Tally(fields, verdicts, country).files[name])
  {
    var n := |fields| - 1;
    if !(fields[n].name == name && verdicts[n].Filed?) {
      FileWasJudged(fields[..n], verdicts[..n], country, name);
    }
  }

  lemma {:induction false} FileIsAsPosted(fields: seq<Field>, p: Posting, name: string) returns (f: Field)
    requires name in Validated(fields, p).files
    ensures f in fields && f.name == name && FileOutcome(f, p, Filed(Validated(fields, p).files[name]))
  {
    FileWasJudged(fields, Judgements(fields, p), PhoneCountry(p), name);
    var k :| 0 <= k < |fields| && fields[k].name == name && Judgements(fields, p)[k] == Filed(Validated(fields, p).files[name]);
    f := fields[k];
    JudgeIs(f, p);
  }

  lemma {:induction false} RetainedWasRead(events: seq<Event>, j: nat, h: nat, job: string, draft: Option<nat>, n: nat, posting: Posting,
                                           name: string, w: World, lib: Lib)
    returns (i: nat)
    requires PostedAt(events, j, h, job, draft, n, posting, w, lib) && name in posting.retained
    ensures draft.Some? && i < j && ReadAt(events, i, h, draft.value, name, posting.retained[name], w, lib)
  {
    i := ReadWasHeld(events[..j], h, name, w, lib);
    assert events[..j][..i] == events[..i];
  }

  /** What stands under this number at the end of the run: the upload for good, or the record this handler
      had read from the draft. */
  ghost predicate KeptAs(events: seq<Event>, j: nat, h: nat, id: nat, name: string, meta: Meta, posted: Attached, w: World, lib: Lib) {
    match posted
    case New(u) =>
      var uploads := Run(events, w, lib).data.uploads;
      meta in uploads && uploads[meta] == Recorded(u.filename, |u.data|, lib.digest(u.data))
    case Retained(m) => m == meta && exists i: nat :: i < j && ReadAt(events, i, h, id, name, meta, w, lib)
  }

  lemma {:induction false} BroughtFileIsKept(events: seq<Event>, k: nat, j: nat, id: nat, name: string, meta: Meta, w: World, lib: Lib)
    requires BroughtAt(events, k, id, Attachment(name, meta), w, lib)
    requires var c := Run(events[..k], w, lib).handlers[events[k].h];
             && PostedAt(events[..k], j, events[k].h, c.job, c.draft, c.n, c.posting, w, lib) && name in c.report.files
             && RecordOf(meta, c.report.files[name], Run(events[..k], w, lib).data, lib)
             && (c.report.files[name].Retained? ==> name in c.posting.retained && c.posting.retained[name] == meta)
    ensures KeptAs(events, j, events[k].h, id, name, meta, Run(events[..k], w, lib).handlers[events[k].h].report.files[name], w, lib)
  {
    var h := events[k].h;
    var c := Run(events[..k], w, lib).handlers[h];
    if c.report.files[name].Retained? {
      var i := RetainedWasRead(events[..k], j, h, c.job, c.draft, c.n, c.posting, name, w, lib);
      assert events[..k][..i] == events[..i];
      assert ReadAt(events, i, h, id, name, meta, w, lib);
    } else {
      UploadsStayFrom(events, k, w, lib);
    }
  }

  /** The file a save brings under a name is what became of a question of that name, as the handler that
      saved it had judged the step: the record of the first upload posted under it, which is kept for
      good, or the record that this handler had read from the draft before it judged. */
  lemma {:induction false} BroughtFileWasPosted(events: seq<Event>, k: nat, id: nat, name: string, meta: Meta, w: World, lib: Lib)
    returns (j: nat, f: Field, posted: Attached)
    requires BroughtAt(events, k, id, Attachment(name, meta), w, lib)
    ensures var h := events[k].h;
            var c := Run(events[..k], w, lib).handlers[h];
            && PostedAt(events[..k], j, h, c.job, c.draft, c.n, c.posting, w, lib)
            && c.job in w.jobs && 1 <= c.n <= |w.jobs[c.job]|
            && f in Revealed(w.jobs[c.job][c.n - 1], c.posting.form) && f.name == name && FileOutcome(f, c.posting, Filed(posted))
            && KeptAs(events, j, h, id, name, meta, posted, w, lib)
  {
    var s, h := Run(events[..k], w, lib), events[k].h;
    var c := s.handlers[h];
    RunKeepsFiles(events[..k], w, lib);
    assert JudgedOk(c, s.data, w, lib);
    posted := c.report.files[name];
    j := JudgedWasPosted(events[..k], h, w, lib);
    f := FileIsAsPosted(Revealed(w.jobs[c.job][c.n - 1], c.posting.form), c.posting, name);
    BroughtFileIsKept(events, k, j, id, name, meta, w, lib);
  }

  /** A save brings all of what its handler judged: the step's values, and every file of the report. */
  lemma {:induction false} SavesBringTheirReport(events: seq<Event>, k: nat, id: nat, w: World, lib: Lib)
    requires k < |events| && SavesTo(Run(events[..k], w, lib), events[k], id)
    ensures var c := Run(events[..k], w, lib).handlers[events[k].h];
            && c.job in w.jobs && 1 <= c.n <= |w.jobs[c.job]|
            && var report := Validated(Revealed(w.jobs[c.job][c.n - 1], c.posting.form), c.posting);
            && report.errors == map[]
            && BroughtAt(events, k, id, Step(c.n, report.values), w, lib)
            && forall name :: name in report.files ==> exists meta :: BroughtAt(events, k, id, Attachment(name, meta), w, lib)
  {
    var s := Run(events[..k], w, lib);
    var c := s.handlers[events[k].h];
    RunKeepsFiles(events[..k], w, lib);
    assert JudgedOk(c, s.data, w, lib);
    forall name | name in c.report.files ensures exists meta :: BroughtAt(events, k, id, Attachment(name, meta), w, lib) {
      assert BroughtAt(events, k, id, Attachment(name, c.metas[name]), w, lib);
    }
  }

  // ---- What an application takes from its draft ---------------------------------------------------------------

  /** Event `k` of the run is this handler's reading of the draft's files, when it had read these parts. */
  ghost predicate TakenAt(events: seq<Event>, k: nat, h: nat, job: string, id: nat, parts: seq<Part>, files: map<string, Meta>, w: World, lib: Lib) {
    && k < |events| && events[k] == TakeFiles(h)
    && var s := Run(events[..k], w, lib);
       && h in s.handlers && s.handlers[h] == Reading(job, id, parts)
       && job in w.jobs && |parts| == |w.jobs[job]|
       && id in s.data.drafts && s.data.drafts[id].files == files
  }

  lemma {:induction false} StillReady(s: System, e: Event, h: nat, w: World, lib: Lib)
    requires h in Next(s, e, w, lib).handlers && Next(s, e, w, lib).handlers[h].Ready?
    ensures h in s.handlers
    ensures var c, d := s.handlers[h], Next(s, e, w, lib).handlers[h];
            || d == c
            || (e == TakeFiles(h) && c == Reading(d.job, d.id, d.parts) && d.job in w.jobs && |d.parts| == |w.jobs[d.job]|
                && d.id in s.data.drafts && s.data.drafts[d.id].files == d.files)
  {
  }

  lemma {:induction false} TakenBefore(events: seq<Event>, n: nat, k: nat, h: nat, job: string, id: nat, parts: seq<Part>,
                                       files: map<string, Meta>, w: World, lib: Lib)
    requires n <= |events| && TakenAt(events[..n], k, h, job, id, parts, files, w, lib)
    ensures TakenAt(events, k, h, job, id, parts, files, w, lib)
  {
    assert events[..n][..k] == events[..k];
  }

  lemma {:induction false} ReadyWasTaken(events: seq<Event>, h: nat, w: World, lib: Lib) returns (k: nat)
    requires var s := Run(events, w, lib); h in s.handlers && s.handlers[h].Ready?
    ensures var c := Run(events, w, lib).handlers[h]; TakenAt(events, k, h, c.job, c.id, c.parts, c.files, w, lib)
  {
    var n := |events| - 1;
    var s, c := Run(events[..n], w, lib), Run(events, w, lib).handlers[h];
    StillReady(s, events[n], h, w, lib);
    if s.handlers[h] == c {
      k := ReadyWasTaken(events[..n], h, w, lib);
      assert events[..n][..k] == events[..k];
    } else {
      k := n;
    }
  }

  /** Event `k` of the run is this handler's reading of the draft's next step, after these parts. */
  ghost predicate PartReadAt(events: seq<Event>, k: nat, h: nat, job: string, id: nat, before: seq<Part>, values: Values, w: World, lib: Lib) {
    && k < |events| && events[k] == ReadStep(h)
    && var s := Run(events[..k], w, lib);
       && h in s.handlers && s.handlers[h] == Reading(job, id, before)
       && Holds(s, id, Step(|before| + 1, values))
  }

  lemma {:induction false} StillReading(s: System, e: Event, h: nat, w: World, lib: Lib)
    requires h in Next(s, e, w, lib).handlers && Next(s, e, w, lib).handlers[h].Reading? && Next(s, e, w, lib).handlers[h].parts != []
    ensures h in s.handlers && s.handlers[h].Reading?
    ensures var c, d := s.handlers[h], Next(s, e, w, lib).handlers[h];
            || d == c
            || (e == ReadStep(h) && Owns(s.data, c.id, c.job) && |c.parts| + 1 in s.data.drafts[c.id].steps && d == WithPart(s, c, w))
  {
  }

  lemma {:induction false} PartWasRead(events: seq<Event>, h: nat, i: nat, w: World, lib: Lib) returns (k: nat)
    requires var s := Run(events, w, lib); h in s.handlers && s.handlers[h].Reading? && i < |s.handlers[h].parts|
    ensures var c := Run(events, w, lib).handlers[h];
            PartReadAt(events, k, h, c.job, c.id, c.parts[..i], c.parts[i].values, w, lib)
  {
    var n := |events| - 1;
    var s, d := Run(events[..n], w, lib), Run(events, w, lib).handlers[h];
    StillReading(s, events[n], h, w, lib);
    var c := s.handlers[h];
    if d == c || i < |c.parts| {
      k := PartWasRead(events[..n], h, i, w, lib);
      assert events[..n][..k] == events[..k];
      assert c.parts[..i] == d.parts[..i];
    } else {
      k := n;
      assert d.parts[..i] == c.parts;
    }
  }

  lemma {:induction false} SubmissionsUnder(d: Data, op: Op, lib: Lib, r: Submission)
    requires r in Applied(d, op, lib).submissions
    ensures || (exists q :: q in d.submissions && r == q.(visible := r.visible))
            || (op.AddSubmission? && r == Submission(d.counters.submission + 1, op.job, op.visible, op.draft, op.fields, op.files))
  {
    if r in d.submissions {
      assert r == r.(visible := r.visible);
    } else if op.RevealSubmission? {
      MadeVisibleKeepsContents(d.submissions, op.id, r);
    }
  }

  /** A draft's application was there already, but for its visibility, or is just submitted. */
  lemma {:induction false} SubmissionComesFrom(s: System, e: Event, r: Submission, w: World, lib: Lib)
    requires r in Next(s, e, w, lib).data.submissions && r.draft.Some?
    ensures || (exists q :: q in s.data.submissions && r == q.(visible := r.visible))
            || (e.Submit? && e.h in s.handlers && s.handlers[e.h].Ready?
                && var c := s.handlers[e.h];
                   r.job == c.job && r.draft == Some(c.id) && r.files == c.files && r.fields == Merged(Taken(c.parts)))
  {
    StepPerforms(s, e, w, lib);
    if Operation(s, e).Some? {
      SubmissionsUnder(s.data, Operation(s, e).value, lib, r);
    } else {
      assert r == r.(visible := r.visible);
    }
  }

  /** Every accepted application of a draft holds exactly the draft's files as one event of the run found
      them, and merges the steps that its handler had read by then. */
  lemma {:induction false} ApplicationsWereTaken(events: seq<Event>, r: Submission, w: World, lib: Lib)
    returns (k: nat, h: nat, parts: seq<Part>)
    requires r in Run(events, w, lib).data.submissions && r.draft.Some?
    ensures TakenAt(events, k, h, r.job, r.draft.value, parts, r.files, w, lib) && r.fields == Merged(Taken(parts))
  {
    var n := |events| - 1;
    var s := Run(events[..n], w, lib);
    SubmissionComesFrom(s, events[n], r, w, lib);
    if q :| q in s.data.submissions && r == q.(visible := r.visible) {
      k, h, parts := ApplicationsWereTaken(events[..n], q, w, lib);
    } else {
      h, parts := events[n].h, s.handlers[events[n].h].parts;
      k := ReadyWasTaken(events[..n], h, w, lib);
    }
    TakenBefore(events, n, k, h, r.job, r.draft.value, parts, r.files, w, lib);
  }

  /** Each of these parts is the draft's step as an earlier event found it, one after the other. */
  lemma {:induction false} TakenPartsWereRead(events: seq<Event>, k: nat, h: nat, job: string, id: nat, parts: seq<Part>,
                                              files: map<string, Meta>, i: nat, w: World, lib: Lib)
    returns (j: nat)
    requires TakenAt(events, k, h, job, id, parts, files, w, lib) && i < |parts|
    ensures j < k && PartReadAt(events, j, h, job, id, parts[..i], parts[i].values, w, lib)
  {
    j := PartWasRead(events[..k], h, i, w, lib);
    assert events[..k][..j] == events[..j];
  }

  ghost predicate WasLastBrought(events: seq<Event>, id: nat, p: Piece, w: World, lib: Lib) {
    exists k: nat :: LastBrought(events, k, id, p, w, lib)
  }

  /** Every accepted application of a draft carries exactly the files that, when they were read, the last
      saves to bring them had brought. */
  lemma {:induction false} ApplicationsCarryTheLastFiles(events: seq<Event>, r: Submission, w: World, lib: Lib) returns (k: nat)
    requires r in Run(events, w, lib).data.submissions && r.draft.Some?
    ensures k < |events| && events[k].TakeFiles?
    ensures forall name, meta ::
              WasLastBrought(events[..k], r.draft.value, Attachment(name, meta), w, lib) <==> name in r.files && r.files[name] == meta
  {
    var h, parts;
    k, h, parts := ApplicationsWereTaken(events, r, w, lib);
    forall name, meta
      ensures WasLastBrought(events[..k], r.draft.value, Attachment(name, meta), w, lib) <==> name in r.files && r.files[name] == meta
    {
      DraftsHoldWhatWasLastBrought(events[..k], r.draft.value, Attachment(name, meta), w, lib);
    }
  }
}
