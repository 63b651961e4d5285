/** Posts and submits get their work done: what a handler of `scripts/mock_ats.py` does when nothing
    disturbs it, step by step, is what the undisturbed request does. */
module DraftProgress {
  import opened Wrappers
  import opened Fields
  import opened Validation
  import opened Store
  import opened Drafts
  import opened Handlers
  import opened DraftFiles

  lemma {:induction false} RunMore(s: System, events: seq<Event>, e: Event, w: World, lib: Lib)
    ensures RunFrom(s, events + [e], w, lib) == Next(RunFrom(s, events, w, lib), e, w, lib)
  {
    assert (events + [e])[..|events|] == events;
  }

  lemma {:induction false} RunOn(s: System, a: seq<Event>, b: seq<Event>, w: World, lib: Lib)
    ensures RunFrom(s, a + b, w, lib) == RunFrom(RunFrom(s, a, w, lib), b, w, lib)
  {
    if b == [] {
      assert a + b == a;
    } else {
      var n := |b| - 1;
      RunOn(s, a, b[..n], w, lib);
      RunMore(s, a + b[..n], b[n], w, lib);
      assert a + b == a + b[..n] + [b[n]];
    }
  }

  predicate AllOf(events: seq<Event>, h: nat) {
    forall e :: e in events ==>
      match e
      case OpenPost(g, _, _, _) => g == h
      case Retain(g, _) => g == h
      case Judging(g, _) => g == h
      case StoreFile(g, _) => g == h
      case EndPost(g, otherErrors) => g == h && !otherErrors
      case OpenSubmit(g, _, _) => g == h
      case Look(g) => g == h
      case ReadStep(g) => g == h
      case TakeFiles(g) => g == h
      case Submit(g) => g == h
      case _ => false
  }

  lemma {:induction false} AllOfBoth(a: seq<Event>, b: seq<Event>, h: nat)
    requires AllOf(a, h) && AllOf(b, h)
    ensures AllOf(a + b, h)
  {
  }

  function At(s: System, h: nat, c: Handler): System {
    s.(handlers := s.handlers[h := c])
  }

  lemma {:induction false} AtAt(s: System, h: nat, c: Handler, d: Handler)
    ensures At(At(s, h, c), h, d) == At(s, h, d)
  {
    assert s.handlers[h := c][h := d] == s.handlers[h := d];
  }

  // ---- A submit ------------------------------------------------------------------------------------------

  lemma {:induction false} OpenSubmitIs(s: System, h: nat, job: string, id: nat, w: World, lib: Lib)
    requires h !in s.handlers && job in w.jobs && w.jobs[job] != [] && Owns(s.data, id, job)
    ensures Next(s, OpenSubmit(h, job, Some(id)), w, lib) == At(s, h, Looking(job, id, 0))
  {
  }

  lemma {:induction false} LookIs(s: System, h: nat, job: string, id: nat, k: nat, w: World, lib: Lib)
    requires job in w.jobs && id in s.data.drafts && (k == |w.jobs[job]| || k + 1 in s.data.drafts[id].steps)
    ensures Next(At(s, h, Looking(job, id, k)), Look(h), w, lib)
            == At(s, h, if k == |w.jobs[job]| then Reading(job, id, []) else Looking(job, id, k + 1))
  {
    AtAt(s, h, Looking(job, id, k), if k == |w.jobs[job]| then Reading(job, id, []) else Looking(job, id, k + 1));
  }

  lemma {:induction false} Looks(s: System, h: nat, job: string, id: nat, m: nat, w: World, lib: Lib) returns (events: seq<Event>)
    requires job in w.jobs && m <= |w.jobs[job]| && id in s.data.drafts && forall n :: 1 <= n <= m ==> n in s.data.drafts[id].steps
    ensures AllOf(events, h) && RunFrom(At(s, h, Looking(job, id, 0)), events, w, lib) == At(s, h, Looking(job, id, m))
  {
    if m == 0 {
      events := [];
    } else {
      var before := Looks(s, h, job, id, m - 1, w, lib);
      events := before + [Look(h)];
      RunMore(At(s, h, Looking(job, id, 0)), before, Look(h), w, lib);
      LookIs(s, h, job, id, m - 1, w, lib);
    }
  }

  /** From nothing to the reading of the steps. */
  lemma {:induction false} Begins(s: System, h: nat, job: string, id: nat, w: World, lib: Lib) returns (events: seq<Event>)
    requires h !in s.handlers && job in w.jobs && w.jobs[job] != [] && Owns(s.data, id, job)
    requires forall n :: 1 <= n <= |w.jobs[job]| ==> n in s.data.drafts[id].steps
    ensures AllOf(events, h) && RunFrom(s, events, w, lib) == At(s, h, Reading(job, id, []))
  {
    var opening := [OpenSubmit(h, job, Some(id))];
    var looks := Looks(s, h, job, id, |w.jobs[job]|, w, lib);
    OpenSubmitIs(s, h, job, id, w, lib);
    RunMore(s, [], OpenSubmit(h, job, Some(id)), w, lib);
    assert [] + opening == opening;
    RunOn(s, opening, looks, w, lib);
    RunMore(s, opening + looks, Look(h), w, lib);
    LookIs(s, h, job, id, |w.jobs[job]|, w, lib);
    events := opening + looks + [Look(h)];
  }

  lemma {:induction false} TakenMore(parts: seq<Part>, part: Part)
    ensures Taken(parts + [part]) == Taken(parts) + [part.values]
  {
  }

  lemma {:induction false} ReadIs(s: System, h: nat, job: string, id: nat, parts: seq<Part>, w: World, lib: Lib)
    requires Owns(s.data, id, job) && |parts| + 1 in s.data.drafts[id].steps
    ensures var n := |parts| + 1;
            Next(At(s, h, Reading(job, id, parts)), ReadStep(h), w, lib)
            == At(s, h, Reading(job, id, parts + [Part(s.data.drafts[id].steps[n], BasisOf(s, id, n, w))]))
  {
    var n := |parts| + 1;
    AtAt(s, h, Reading(job, id, parts), Reading(job, id, parts + [Part(s.data.drafts[id].steps[n], BasisOf(s, id, n, w))]));
  }

  lemma {:induction false} ReadsInOrder(s: System, h: nat, job: string, id: nat, m: nat, w: World, lib: Lib)
    returns (events: seq<Event>, parts: seq<Part>)
    requires Owns(s.data, id, job) && forall n :: 1 <= n <= m ==> n in s.data.drafts[id].steps
    ensures AllOf(events, h) && |parts| == m && Taken(parts) == InOrder(s.data.drafts[id].steps, m)
    ensures RunFrom(At(s, h, Reading(job, id, [])), events, w, lib) == At(s, h, Reading(job, id, parts))
  {
    if m == 0 {
      events, parts := [], [];
    } else {
      var before, some := ReadsInOrder(s, h, job, id, m - 1, w, lib);
      var part := Part(s.data.drafts[id].steps[m], BasisOf(s, id, m, w));
      events, parts := before + [ReadStep(h)], some + [part];
      TakenMore(some, part);
      RunMore(At(s, h, Reading(job, id, [])), before, ReadStep(h), w, lib);
      ReadIs(s, h, job, id, some, w, lib);
    }
  }

  lemma {:induction false} TakeIs(s: System, h: nat, job: string, id: nat, parts: seq<Part>, w: World, lib: Lib)
    requires job in w.jobs && |parts| == |w.jobs[job]| && id in s.data.drafts
    ensures Next(At(s, h, Reading(job, id, parts)), TakeFiles(h), w, lib)
            == At(s, h, Ready(job, id, parts, s.data.drafts[id].files))
  {
    AtAt(s, h, Reading(job, id, parts), Ready(job, id, parts, s.data.drafts[id].files));
  }

  lemma {:induction false} SubmitsIt(s: System, h: nat, c: Handler, w: World, lib: Lib)
    requires h !in s.handlers && c.Ready?
    ensures var t := Next(At(s, h, c), Submit(h), w, lib);
            && t.data.submissions
               == s.data.submissions
                  + [Submission(s.data.counters.submission + 1, c.job, true, Some(c.id), Merged(Taken(c.parts)), c.files)]
            && t.data.drafts == s.data.drafts && t.handlers == s.handlers
  {
    SubmitIs(At(s, h, c), h, w, lib);
    SubmitAdds(s.data, c, lib);
    assert Without(s.handlers[h := c], h) == s.handlers;
  }

  /** An undisturbed submit of a draft that lacks no step adds the application that `PostSubmit` adds: all
      steps merged in order, and the draft's files. */
  lemma {:induction false} SubmitCompletes(s: System, h: nat, job: string, id: nat, w: World, lib: Lib) returns (events: seq<Event>)
    requires h !in s.handlers && job in w.jobs && w.jobs[job] != [] && Owns(s.data, id, job)
    requires forall n :: 1 <= n <= |w.jobs[job]| ==> n in s.data.drafts[id].steps
    ensures AllOf(events, h)
    ensures var d, t := s.data.drafts[id], RunFrom(s, events, w, lib);
            && t.data.submissions
               == s.data.submissions
                  + [Submission(s.data.counters.submission + 1, job, true, Some(id), Merged(InOrder(d.steps, |w.jobs[job]|)), d.files)]
            && t.data.drafts == s.data.drafts && t.handlers == s.handlers
  {
    var beginning := Begins(s, h, job, id, w, lib);
    var readings, parts := ReadsInOrder(s, h, job, id, |w.jobs[job]|, w, lib);
    RunOn(s, beginning, readings, w, lib);
    RunMore(s, beginning + readings, TakeFiles(h), w, lib);
    TakeIs(s, h, job, id, parts, w, lib);
    AllOfBoth(beginning, readings, h);
    AllOfBoth(beginning + readings, [TakeFiles(h)], h);
    AllOfBoth(beginning + readings + [TakeFiles(h)], [Submit(h)], h);
    RunMore(s, beginning + readings + [TakeFiles(h)], Submit(h), w, lib);
    SubmitsIt(s, h, Ready(job, id, parts, s.data.drafts[id].files), w, lib);
    events := beginning + readings + [TakeFiles(h)] + [Submit(h)];
  }

  // ---- A post ----------------------------------------------------------------------------------------------

  lemma {:induction false} OpenPostIs(s: System, h: nat, job: string, draft: Option<nat>, n: nat, w: World, lib: Lib)
    requires CanOpen(s, h, w, job, draft, n)
    ensures Next(s, OpenPost(h, job, draft, n), w, lib) == At(s, h, Opened(job, draft, n, map[]))
  {
  }

  lemma {:induction false} RetainIs(s: System, h: nat, job: string, id: nat, n: nat, some: map<string, Meta>, name: string, w: World, lib: Lib)
    requires id in s.data.drafts && name in s.data.drafts[id].files
    ensures Next(At(s, h, Opened(job, Some(id), n, some)), Retain(h, name), w, lib)
            == At(s, h, Opened(job, Some(id), n, some[name := s.data.drafts[id].files[name]]))
  {
    AtAt(s, h, Opened(job, Some(id), n, some), Opened(job, Some(id), n, some[name := s.data.drafts[id].files[name]]));
  }

  lemma {:induction false} RetainsAll(s: System, h: nat, job: string, id: nat, n: nat, names: set<string>, w: World, lib: Lib)
    returns (events: seq<Event>, read: map<string, Meta>)
    requires id in s.data.drafts && names <= s.data.drafts[id].files.Keys
    ensures AllOf(events, h)
    ensures read.Keys == names && forall name :: name in names ==> read[name] == s.data.drafts[id].files[name]
    ensures RunFrom(At(s, h, Opened(job, Some(id), n, map[])), events, w, lib) == At(s, h, Opened(job, Some(id), n, read))
    decreases names
  {
    if names == {} {
      events, read := [], map[];
    } else {
      var name :| name in names;
      var before, some := RetainsAll(s, h, job, id, n, names - {name}, w, lib);
      events, read := before + [Retain(h, name)], some[name := s.data.drafts[id].files[name]];
      RunMore(At(s, h, Opened(job, Some(id), n, map[])), before, Retain(h, name), w, lib);
      RetainIs(s, h, job, id, n, some, name, w, lib);
    }
  }

  /** The handler after some of the new files are stored: nothing else has changed but the uploads. */
  predicate Storing(s: System, t: System, h: nat, c: Handler, left: set<string>)
    requires c.Judged?
  {
    && h in t.handlers && t.handlers[h].Judged? && t.handlers[h] == c.(metas := t.handlers[h].metas)
    && t.handlers[h].metas.Keys == c.report.files.Keys - left
    && t.handlers - {h} == s.handlers - {h}
    && t.data.drafts == s.data.drafts && t.data.counters.draft == s.data.counters.draft
  }

  lemma {:induction false} StoresAll(s: System, h: nat, c: Handler, left: set<string>, w: World, lib: Lib) returns (events: seq<Event>)
    requires h in s.handlers && s.handlers[h] == c && c.Judged? && c.metas == RetainedOf(c.report)
    requires left <= set name | name in c.report.files && c.report.files[name].New?
    ensures AllOf(events, h)
    ensures Storing(s, RunFrom(s, events, w, lib), h, c, (set name | name in c.report.files && c.report.files[name].New?) - left)
    decreases left
  {
    var news := set name | name in c.report.files && c.report.files[name].New?;
    if left == {} {
      events := [];
      assert c.metas.Keys == c.report.files.Keys - (news - left);
      assert c == c.(metas := c.metas);
    } else {
      var name :| name in left;
      var before := StoresAll(s, h, c, left - {name}, w, lib);
      var t := RunFrom(s, before, w, lib);
      events := before + [StoreFile(h, name)];
      RunMore(s, before, StoreFile(h, name), w, lib);
      StoreIs(t, h, name, w, lib);
      UnrelatedKeepsDrafts(t.data, StoreUpload(c.report.files[name].upload), lib);
      assert news - (left - {name}) == (news - left) + {name};
    }
  }

  /** What an undisturbed post of a step judges. */
  ghost function Judges(s: System, job: string, draft: Option<nat>, n: nat, posting: Posting, w: World): Report
    requires job in w.jobs && 1 <= n <= |w.jobs[job]| && (draft.Some? ==> draft.value in s.data.drafts)
  {
    StepReport(w.jobs[job][n - 1], posting, if draft.Some? then s.data.drafts[draft.value].files else map[])
  }

  lemma {:induction false} JudgingIs(s: System, h: nat, c: Handler, posting: Posting, w: World, lib: Lib)
    requires c.Opened? && posting.rules == w.rules && posting.retained == c.read && c.job in w.jobs && 1 <= c.n <= |w.jobs[c.job]|
    ensures Next(At(s, h, c), Judging(h, posting), w, lib) == At(s, h, Judgement(c, posting, w))
  {
    AtAt(s, h, c, Judgement(c, posting, w));
  }

  lemma {:induction false} JudgesAsPosted(s: System, h: nat, job: string, draft: Option<nat>, n: nat, posting: Posting, w: World, lib: Lib)
    returns (events: seq<Event>, c: Handler)
    requires h !in s.handlers && CanOpen(s, h, w, job, draft, n) && posting.rules == w.rules
    ensures AllOf(events, h) && c.Judged? && c.job == job && c.draft == draft && c.n == n
    ensures c.report == Judges(s, job, draft, n, posting, w) && c.metas == RetainedOf(c.report)
    ensures RunFrom(s, events, w, lib) == At(s, h, c)
  {
    var opening := [OpenPost(h, job, draft, n)];
    RunMore(s, [], OpenPost(h, job, draft, n), w, lib);
    assert [] + opening == opening;
    OpenPostIs(s, h, job, draft, n, w, lib);
    assert AllOf(opening, h);
    var files := if draft.Some? then s.data.drafts[draft.value].files else map[];
    var retained := RetainedFor(Revealed(w.jobs[job][n - 1], posting.form), files);
    var retains, read := [], map[];
    if draft.Some? { retains, read := RetainsAll(s, h, job, draft.value, n, retained.Keys, w, lib); }
    assert read == retained;
    var judged := posting.(retained := retained);
    events := opening + retains + [Judging(h, judged)];
    RunOn(s, opening, retains, w, lib);
    RunMore(s, opening + retains, Judging(h, judged), w, lib);
    JudgingIs(s, h, Opened(job, draft, n, retained), judged, w, lib);
    AllOfBoth(opening, retains, h);
    AllOfBoth(opening + retains, [Judging(h, judged)], h);
    c := Judgement(Opened(job, draft, n, retained), judged, w);
  }

  /** The draft holds the step's values and, for every file of the report, exactly that file's record. */
  ghost predicate HoldsReport(t: System, id: nat, n: nat, report: Report, lib: Lib) {
    && Holds(t, id, Step(n, report.values))
    && forall name :: name in report.files ==>
         exists meta :: Holds(t, id, Attachment(name, meta)) && RecordOf(meta, report.files[name], t.data, lib)
  }

  /** The save at the end enters the report. */
  lemma {:induction false} EndEnters(v: System, h: nat, id: nat, w: World, lib: Lib)
    requires Inv(v, w) && FilesInv(v, w, lib) && SavesTo(v, EndPost(h, false), id)
    ensures HoldsReport(Next(v, EndPost(h, false), w, lib), id, v.handlers[h].n, v.handlers[h].report, lib)
  {
    var c, t := v.handlers[h], Next(v, EndPost(h, false), w, lib);
    StepKeepsUploads(v, EndPost(h, false), w, lib);
    SaveEnters(v, EndPost(h, false), id, Step(c.n, c.report.values), w, lib);
    assert JudgedOk(c, v.data, w, lib);
    forall name | name in c.report.files
      ensures exists meta :: Holds(t, id, Attachment(name, meta)) && RecordOf(meta, c.report.files[name], t.data, lib)
    {
      SaveEnters(v, EndPost(h, false), id, Attachment(name, c.metas[name]), w, lib);
      assert RecordOf(c.metas[name], c.report.files[name], v.data, lib);
    }
  }

  lemma {:induction false} PostEnters(s: System, h: nat, job: string, draft: Option<nat>, n: nat, posting: Posting, w: World, lib: Lib)
    returns (events: seq<Event>)
    requires Inv(s, w) && FilesInv(s, w, lib)
    requires h !in s.handlers && CanOpen(s, h, w, job, draft, n) && posting.rules == w.rules
    requires Judges(s, job, draft, n, posting, w).errors == map[]
    ensures AllOf(events, h)
    ensures HoldsReport(RunFrom(s, events, w, lib), StepDraft(s.data, draft), n, Judges(s, job, draft, n, posting, w), lib)
  {
    var id := StepDraft(s.data, draft);
    var judging, c := JudgesAsPosted(s, h, job, draft, n, posting, w, lib);
    var news := set name | name in c.report.files && c.report.files[name].New?;
    var storing := StoresAll(At(s, h, c), h, c, news, w, lib);
    RunOn(s, judging, storing, w, lib);
    RunMore(s, judging + storing, EndPost(h, false), w, lib);
    StillInOrder(s, judging + storing, w, lib);
    assert news - news == {};
    AllOfBoth(judging, storing, h);
    AllOfBoth(judging + storing, [EndPost(h, false)], h);
    EndEnters(RunFrom(s, judging + storing, w, lib), h, id, w, lib);
    events := judging + storing + [EndPost(h, false)];
  }

  lemma {:induction false} StillInOrder(s: System, events: seq<Event>, w: World, lib: Lib)
    requires Inv(s, w) && FilesInv(s, w, lib)
    ensures Inv(RunFrom(s, events, w, lib), w) && FilesInv(RunFrom(s, events, w, lib), w, lib)
  {
    if events != [] {
      var n := |events| - 1;
      StillInOrder(s, events[..n], w, lib);
      NextKeepsInv(RunFrom(s, events[..n], w, lib), events[n], w, lib);
      NextKeepsFiles(RunFrom(s, events[..n], w, lib), events[n], w, lib);
    }
  }

  /** At any moment of any run, an undisturbed post of a step enters it as `PostStep` does: without errors,
      the draft holds the report's values and, for every file of the report, exactly that file's record. */
  lemma {:induction false} PostCompletes(before: seq<Event>, h: nat, job: string, draft: Option<nat>, n: nat, posting: Posting, w: World, lib: Lib)
    returns (events: seq<Event>)
    requires var s := Run(before, w, lib);
             && h !in s.handlers && CanOpen(s, h, w, job, draft, n) && posting.rules == w.rules
             && Judges(s, job, draft, n, posting, w).errors == map[]
    ensures var s := Run(before, w, lib);
            && AllOf(events, h)
            && HoldsReport(RunFrom(s, events, w, lib), StepDraft(s.data, draft), n, Judges(s, job, draft, n, posting, w), lib)
  {
    RunKeepsInv(before, w, lib);
    RunKeepsFiles(before, w, lib);
    events := PostEnters(Run(before, w, lib), h, job, draft, n, posting, w, lib);
  }
}
