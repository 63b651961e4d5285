/** The request handlers of `scripts/mock_ats.py` as one thread runs them, undisturbed, on the store:
    `_post_step`, `post_submit` and the captcha half of `post_apply`. */
module Handlers {
  import opened Wrappers
  import opened Text
  import opened Fields
  import opened Validation
  import opened Store
  import opened Drafts

  datatype Reply = NoSuchDraft | Turned(errors: map<string, Message>) | Saved(draft: nat) | Incomplete(step: nat) | Accepted(record: Submission)

  /** The files of the draft kept for the shown fields. */
  function RetainedFor(shown: seq<Field>, files: map<string, Meta>): map<string, Meta> {
    map name | name in files && name in Names(shown) :: files[name]
  }

  /** Only the uploads of the state may differ. */
  predicate SameButUploads(a: Data, b: Data) {
    a.(uploads := b.uploads, counters := a.counters.(upload := b.counters.upload)) == b
  }

  /** The record stands for what was posted: the upload stored since the counter read `last`, its bytes
      on the disk, or the record retained. */
  predicate StandsFor(record: Meta, posted: Attached, last: nat, d: Data, disk: map<Meta, string>, lib: Lib) {
    match posted
    case New(u) =>
      && last < record <= d.counters.upload
      && record in d.uploads && d.uploads[record] == Recorded(u.filename, |u.data|, lib.digest(u.data))
      && record in disk && disk[record] == u.data
    case Retained(meta) => record == meta
  }

  predicate AllStandFor(metas: map<string, Meta>, files: map<string, Attached>, last: nat, d: Data, disk: map<Meta, string>, lib: Lib) {
    metas.Keys == files.Keys && forall name :: name in files ==> StandsFor(metas[name], files[name], last, d, disk, lib)
  }

  lemma StillStandFor(metas: map<string, Meta>, files: map<string, Attached>, last: nat, d: Data, e: Data, disk: map<Meta, string>, lib: Lib)
    requires AllStandFor(metas, files, last, d, disk, lib)
    requires e.uploads == d.uploads && e.counters.upload == d.counters.upload
    ensures AllStandFor(metas, files, last, e, disk, lib)
  {
    forall name | name in files ensures StandsFor(metas[name], files[name], last, e, disk, lib) {
      assert StandsFor(metas[name], files[name], last, d, disk, lib);
    }
  }

  /** No two new uploads share a number. */
  predicate OwnNumbers(metas: map<string, Meta>, files: map<string, Attached>)
    requires metas.Keys <= files.Keys
  {
    forall a, b :: a in metas && b in metas && files[a].New? && files[b].New? && metas[a] == metas[b] ==> a == b
  }

  lemma OwnNumbersGrow(metas: map<string, Meta>, files: map<string, Attached>, name: string, id: Meta)
    requires metas.Keys <= files.Keys && OwnNumbers(metas, files) && name in files
    requires files[name].New? ==> forall other :: other in metas && files[other].New? ==> metas[other] < id
    ensures OwnNumbers(metas[name := id], files)
  {
  }

  /** One more upload under the next number: what stood for something still does. */
  lemma UploadStands(metas: map<string, Meta>, files: map<string, Attached>, last: nat, d: Data, u: Upload, disk: map<Meta, string>, lib: Lib)
    requires last <= d.counters.upload
    requires forall name :: name in metas ==> name in files && StandsFor(metas[name], files[name], last, d, disk, lib)
    ensures var e, id := Applied(d, Op.StoreUpload(u), lib), d.counters.upload + 1;
            && SameButUploads(d, e) && e.counters.upload == id
            && StandsFor(id, New(u), last, e, disk[id := u.data], lib)
            && forall name :: name in metas ==> StandsFor(metas[name], files[name], last, e, disk[id := u.data], lib)
  {
    var e, id := Applied(d, Op.StoreUpload(u), lib), d.counters.upload + 1;
    forall name | name in metas ensures StandsFor(metas[name], files[name], last, e, disk[id := u.data], lib) {
      assert StandsFor(metas[name], files[name], last, d, disk, lib);
    }
  }

  /** `_store_files`: every new upload is stored under a number of its own, every retained file keeps its
      record. */
  method StoreFiles(store: Store, files: map<string, Attached>, ghost torn: string) returns (metas: map<string, Meta>)
    modifies store`data, store.disk
    ensures SameButUploads(old(store.data), store.data) && old(store.data.counters.upload) <= store.data.counters.upload
    ensures AllStandFor(metas, files, old(store.data.counters.upload), store.data, store.disk.files, store.lib)
    ensures OwnNumbers(metas, files)
  {
    metas := map[];
    var left := files.Keys;
    while left != {}
      invariant left <= files.Keys && metas.Keys == files.Keys - left
      invariant SameButUploads(old(store.data), store.data) && store.data.counters.upload >= old(store.data.counters.upload)
      invariant forall name :: name in metas ==>
                  StandsFor(metas[name], files[name], old(store.data.counters.upload), store.data, store.disk.files, store.lib)
      invariant OwnNumbers(metas, files)
    {
      var name :| name in left;
      left := left - {name};
      if files[name].New? {
        UploadStands(metas, files, old(store.data.counters.upload), store.data, files[name].upload, store.disk.files, store.lib);
        var id := store.StoreUpload(files[name].upload, torn);
        OwnNumbersGrow(metas, files, name, id);
        metas := metas[name := id];
      } else {
        OwnNumbersGrow(metas, files, name, files[name].meta);
        metas := metas[name := files[name].meta];
      }
    }
  }

  /** What one step's post validates. */
  ghost function StepReport(fields: seq<Field>, posting: Posting, files: map<string, Meta>): Report {
    var shown := Revealed(fields, posting.form);
    Validated(shown, posting.(retained := RetainedFor(shown, files)))
  }

  /** The draft `after` is `before` with one step's values and files entered: what they carry stands as
      carried, and all the rest as it was. */
  predicate Entered(before: Draft, after: Draft, n: nat, values: Values, metas: map<string, Meta>) {
    && after.job == before.job
    && n in after.steps && after.steps[n] == values
    && (forall m :: m in after.steps && m != n ==> m in before.steps && after.steps[m] == before.steps[m])
    && (forall m :: m in before.steps ==> m in after.steps)
    && (forall name :: name in metas ==> name in after.files && after.files[name] == metas[name])
    && (forall name :: name in after.files && name !in metas ==> name in before.files && after.files[name] == before.files[name])
    && (forall name :: name in before.files ==> name in after.files)
  }

  /** The draft `after` is `before` with the step as the report says: the step holds its values, every
      name it carries a file for holds the record of exactly that file, and all the rest is as it was. */
  predicate Stepped(before: Draft, after: Draft, n: nat, report: Report, last: nat, d: Data, disk: map<Meta, string>, lib: Lib) {
    && after.job == before.job
    && after.steps.Keys == before.steps.Keys + {n} && after.steps[n] == report.values
    && (forall m :: m in before.steps && m != n ==> after.steps[m] == before.steps[m])
    && after.files.Keys == before.files.Keys + report.files.Keys
    && (forall name :: name in report.files ==> StandsFor(after.files[name], report.files[name], last, d, disk, lib))
    && (forall name :: name in before.files && name !in report.files ==> after.files[name] == before.files[name])
  }

  lemma EnteredIsStepped(before: Draft, after: Draft, n: nat, report: Report, metas: map<string, Meta>, last: nat, d: Data,
                         disk: map<Meta, string>, lib: Lib)
    requires Entered(before, after, n, report.values, metas) && AllStandFor(metas, report.files, last, d, disk, lib)
    ensures Stepped(before, after, n, report, last, d, disk, lib)
  {
    forall name | name in report.files ensures name in after.files && StandsFor(after.files[name], report.files[name], last, d, disk, lib) {
      assert after.files[name] == metas[name];
    }
  }

  lemma StepIsSaved(d: Data, job: string, draft: Option<nat>, n: nat, values: Values, metas: map<string, Meta>, lib: Lib)
    requires draft.Some? ==> draft.value in d.drafts
    ensures var e, id := Applied(d, Op.SaveStep(job, draft, n, values, metas), lib), StepDraft(d, draft);
            && id in e.drafts && e.drafts - {id} == d.drafts - {id} && e.uploads == d.uploads
            && e.counters.upload == d.counters.upload
            && Entered(if draft.Some? then d.drafts[id] else Draft(job, map[], map[]), e.drafts[id], n, values, metas)
  {
  }

  lemma RefusalKeeps(d: Data, job: string, lib: Lib)
    ensures var e := Applied(d, Op.AddRejection(job), lib);
            && e.drafts == d.drafts && e.submissions == d.submissions && e.captchas == d.captchas
            && e.rejections == d.rejections + [(d.counters.rejection + 1, job)]
  {
  }

  /** `captcha` is the error of the job's captcha step, if this is it and its token is not the expected one. */
  method PostStep(store: Store, job: string, steps: seq<seq<Field>>, draft: Option<nat>, n: nat, posting: Posting,
                  captcha: map<string, Message>, ghost torn: string)
    returns (reply: Reply)
    requires 1 <= n <= |steps|
    modifies store`data, store.disk
    ensures reply.NoSuchDraft? <==> draft.Some? && !Owns(old(store.data), draft.value, job)
    ensures reply.NoSuchDraft? ==> store.data == old(store.data)
    ensures !reply.NoSuchDraft? ==>
              var before := if draft.Some? then old(store.data).drafts[draft.value] else Draft(job, map[], map[]);
              var report := StepReport(steps[n - 1], posting, before.files);
              if report.errors + captcha != map[] then
                && reply == Turned(report.errors + captcha) && store.data.drafts == old(store.data.drafts)
                && store.data.rejections == old(store.data.rejections) + [(old(store.data.counters.rejection) + 1, job)]
              else
                && reply == Saved(StepDraft(old(store.data), draft))
                && reply.draft in store.data.drafts
                && store.data.drafts - {reply.draft} == old(store.data.drafts) - {reply.draft}
                && Stepped(before, store.data.drafts[reply.draft], n, report, old(store.data.counters.upload), store.data,
                           store.disk.files, store.lib)
  {
    if draft.Some? && !Owns(store.data, draft.value, job) { return NoSuchDraft; }
    ghost var last := store.data.counters.upload;
    ghost var before := if draft.Some? then store.data.drafts[draft.value] else Draft(job, map[], map[]);
    var files := if draft.Some? then store.data.drafts[draft.value].files else map[];
    var shown := RevealedFields(steps[n - 1], posting.form);
    var report := Validate(shown, posting.(retained := RetainedFor(shown, files)));
    var metas := StoreFiles(store, report.files, torn);
    var errors := report.errors + captcha;
    if errors != map[] {
      RefusalKeeps(store.data, job, store.lib);
      store.AddRejection(job);
      return Turned(errors);
    }
    StepIsSaved(store.data, job, draft, n, report.values, metas, store.lib);
    ghost var stored := store.data;
    var saved := store.SaveStep(job, draft, n, report.values, metas);
    StillStandFor(metas, report.files, last, stored, store.data, store.disk.files, store.lib);
    EnteredIsStepped(before, store.data.drafts[saved.value], n, report, metas, last, store.data, store.disk.files, store.lib);
    reply := Saved(saved.value);
  }

  // ---- Submitting a draft ------------------------------------------------------------------------------

  method FirstIncomplete(steps: map<nat, Values>, count: nat) returns (first: Option<nat>)
    ensures first.None? <==> forall n :: 1 <= n <= count ==> n in steps
    ensures first.Some? ==> 1 <= first.value <= count && first.value !in steps && forall n :: 1 <= n < first.value ==> n in steps
  {
    for n := 1 to count + 1
      invariant forall m :: 1 <= m < n ==> m in steps
    {
      if n !in steps { return Some(n); }
    }
    first := None;
  }

  /** The stored answers of the first steps, in order. */
  function InOrder(steps: map<nat, Values>, count: nat): seq<Values>
    requires forall n :: 1 <= n <= count ==> n in steps
  {
    if count == 0 then [] else InOrder(steps, count - 1) + [steps[count]]
  }

  lemma MergedMore(taken: seq<Values>, values: Values)
    ensures Merged(taken + [values]) == Merged(taken) + values
  {
  }

  method MergeSteps(steps: map<nat, Values>, count: nat) returns (values: Values)
    requires forall n :: 1 <= n <= count ==> n in steps
    ensures values == Merged(InOrder(steps, count))
  {
    values := map[];
    for n := 1 to count + 1
      invariant values == Merged(InOrder(steps, n - 1))
    {
      MergedMore(InOrder(steps, n - 1), steps[n]);
      values := values + steps[n];
    }
  }

  method PostSubmit(store: Store, job: string, id: nat, count: nat) returns (reply: Reply)
    modifies store`data, store.disk
    ensures reply.NoSuchDraft? || reply.Incomplete? || reply.Accepted?
    ensures reply.NoSuchDraft? <==> !Owns(old(store.data), id, job)
    ensures !reply.Accepted? ==> store.data == old(store.data)
    ensures reply.Incomplete? ==> 1 <= reply.step <= count && reply.step !in old(store.data).drafts[id].steps
    ensures reply.Accepted? ==>
              var d := old(store.data).drafts[id];
              && (forall n :: 1 <= n <= count ==> n in d.steps)
              && reply.record.fields == Merged(InOrder(d.steps, count))
              && reply.record.files == d.files && reply.record.draft == Some(id) && reply.record.job == job
              && store.data.submissions == old(store.data.submissions) + [reply.record]
  {
    if !Owns(store.data, id, job) { return NoSuchDraft; }
    var d := store.data.drafts[id];
    var first := FirstIncomplete(d.steps, count);
    if first.Some? { return Incomplete(first.value); }
    var values := MergeSteps(d.steps, count);
    var record := store.AddSubmission(job, true, values, d.files, Some(id));
    reply := Accepted(record);
  }

  // ---- An application behind a captcha ---------------------------------------------------------------------

  /** A blank answer is an error before the challenge is touched; any other spends it. */
  method CaptchaPassed(store: Store, token: nat, answer: string) returns (passed: bool)
    modifies store`data, store.disk
    ensures passed <==>
              && Strip(answer) != "" && token in old(store.data).captchas && !old(store.data).captchas[token].used
              && store.lib.upper(Strip(answer)) == old(store.data).captchas[token].answer
    ensures store.data == old(store.data).(captchas := store.data.captchas) && store.disk.files == old(store.disk.files)
    ensures store.data.captchas == if Strip(answer) != "" && token in old(store.data).captchas
                                   then old(store.data.captchas)[token := old(store.data).captchas[token].(used := true)]
                                   else old(store.data.captchas)
  {
    passed := false;
    if Strip(answer) != "" { passed := store.ConsumeCaptcha(token, answer); }
  }

  lemma NoErrors(a: map<string, Message>, b: map<string, Message>, c: map<string, Message>)
    ensures a + b + c == map[] <==> a == map[] && b == map[] && c == map[]
  {
    assert forall name :: name in a + b + c <==> name in a || name in b || name in c;
    if a + b + c == map[] {
      assert forall name :: name !in a && name !in b && name !in c;
    }
  }

  lemma ApplicationAdds(d: Data, job: string, values: Values, metas: map<string, Meta>, files: map<string, Attached>, last: nat,
                        disk: map<Meta, string>, lib: Lib)
    requires AllStandFor(metas, files, last, d, disk, lib)
    ensures var e := Applied(d, Op.AddSubmission(job, true, values, metas, None), lib);
            && e.submissions == d.submissions + [Submission(d.counters.submission + 1, job, true, None, values, metas)]
            && e.captchas == d.captchas
            && AllStandFor(metas, files, last, e, disk, lib)
  {
    StillStandFor(metas, files, last, d, Applied(d, Op.AddSubmission(job, true, values, metas, None), lib), disk, lib);
  }

  /** `identity` are the fixture's identity errors, which also drop the files they name; `others` are the
      honeypot's and the widget captchas' errors. Both are found apart from the report. */
  method PostApply(store: Store, job: string, fields: seq<Field>, posting: Posting, token: nat, answer: string,
                   identity: map<string, Message>, others: map<string, Message>, ghost torn: string)
    returns (reply: Reply)
    modifies store`data, store.disk
    ensures reply.Accepted? || reply.Turned?
    ensures reply.Accepted? <==>
              && Validated(Revealed(fields, posting.form), posting).errors == map[] && identity == map[] && others == map[]
              && Strip(answer) != "" && token in old(store.data).captchas && !old(store.data).captchas[token].used
              && store.lib.upper(Strip(answer)) == old(store.data).captchas[token].answer
    ensures reply.Accepted? ==>
              && store.data.submissions == old(store.data.submissions) + [reply.record]
              && reply.record.fields == Validated(Revealed(fields, posting.form), posting).values
              && reply.record.job == job && reply.record.draft.None? && reply.record.visible
              && AllStandFor(reply.record.files, Validated(Revealed(fields, posting.form), posting).files,
                             old(store.data.counters.upload), store.data, store.disk.files, store.lib)
    ensures reply.Turned? ==>
              && store.data.submissions == old(store.data.submissions)
              && store.data.rejections == old(store.data.rejections) + [(old(store.data.counters.rejection) + 1, job)]
    ensures store.data.captchas == if Strip(answer) != "" && token in old(store.data).captchas
                                   then old(store.data.captchas)[token := old(store.data).captchas[token].(used := true)]
                                   else old(store.data.captchas)
  {
    var shown := RevealedFields(fields, posting.form);
    var report := Validate(shown, posting);
    ghost var last := store.data.counters.upload;
    var errors := identity + report.errors;
    var metas := StoreFiles(store, report.files - (identity.Keys - report.errors.Keys), torn);
    ghost var stored := store.data;
    var passed := CaptchaPassed(store, token, answer);
    StillStandFor(metas, report.files - (identity.Keys - report.errors.Keys), last, stored, store.data, store.disk.files, store.lib);
    errors := errors + others;
    if !passed || errors != map[] {
      NoErrors(identity, report.errors, others);
      RefusalKeeps(store.data, job, store.lib);
      store.AddRejection(job);
      return Turned(errors);
    }
    NoErrors(identity, report.errors, others);
    assert report.files - {} == report.files;
    ApplicationAdds(store.data, job, report.values, metas, report.files, last, store.disk.files, store.lib);
    var record := store.AddSubmission(job, true, report.values, metas, None);
    reply := Accepted(record);
  }
}
