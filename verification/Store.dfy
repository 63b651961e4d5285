/** The server's `Store` (`scripts/mock_ats.py`): JSON state persisted by writing a temporary
    file and renaming it, uploads in files of their own, identifiers from counters. */
module Store {
  import opened Wrappers
  import opened Text
  import opened JsonValues
  import V = Validation

  type Values = map<string, V.Value>

  /** Hashes, and how the answers and the tokens are derived from counters. */
  datatype Lib = Lib(
    digest: string -> string,
    answer: nat -> string,
    session: nat -> string,
    upper: string -> string)

  datatype Counters = Counters(submission: nat, rejection: nat, upload: nat, draft: nat, captcha: nat, session: nat)

  datatype Recorded = Recorded(filename: string, size: nat, digest: string)

  datatype Submission = Submission(
    id: nat, job: string, visible: bool, draft: Option<nat>, fields: Values, files: map<string, V.Meta>)

  datatype Draft = Draft(job: string, steps: map<nat, Values>, files: map<string, V.Meta>)

  datatype Challenge = Challenge(answer: string, used: bool)

  datatype WdDraft = WdDraft(pages: map<string, map<string, Json>>, resume: Option<V.Meta>)

  datatype Data = Data(
    counters: Counters,
    submissions: seq<Submission>,
    rejections: seq<(nat, string)>,
    uploads: map<V.Meta, Recorded>,
    drafts: map<nat, Draft>,
    captchas: map<nat, Challenge>,
    sessions: map<string, string>,
    loads: map<string, nat>,
    alerts: seq<(string, string)>,
    accounts: map<string, string>,
    wizards: map<string, WdDraft>)

  const SIGNIN_EMAIL := "avery.quill@example.test"

  const BLANK := WdDraft(map[], None)

  const EMPTY := Data(Counters(0, 0, 0, 0, 0, 0), [], [], map[], map[], map[], map[], map[], [], map[], map[])

  // ---- Operations as functions of the state ------------------------------------------------------------

  datatype Op =
    | CountLoad(job: string)
    | StoreUpload(upload: V.Upload)
    | AddSubmission(job: string, visible: bool, fields: Values, files: map<string, V.Meta>, draft: Option<nat>)
    | AddRejection(job: string)
    | RevealSubmission(id: nat)
    | AddAlert(job: string, email: string)
    | SaveStep(job: string, draft: Option<nat>, step: nat, values: Values, files: map<string, V.Meta>)
    | NewCaptcha
    | ConsumeCaptcha(token: nat, answer: string)
    | NewSession(email: string)
    | WdCreateAccount(email: string, password: string)
    | WdOpen(email: string)
    | WdSavePage(email: string, page: string, answers: map<string, Json>)
    | WdSetResume(email: string, resume: V.Meta)

  function DraftOf(d: Data, email: string): WdDraft {
    if email in d.wizards then d.wizards[email] else BLANK
  }

  function WithUpload(d: Data, u: V.Upload, lib: Lib): Data {
    var n := d.counters.upload + 1;
    d.(counters := d.counters.(upload := n),
       uploads := d.uploads[n := Recorded(u.filename, |u.data|, lib.digest(u.data))])
  }

  function WithSubmission(d: Data, job: string, visible: bool, fields: Values, files: map<string, V.Meta>, draft: Option<nat>): Data {
    var n := d.counters.submission + 1;
    d.(counters := d.counters.(submission := n), submissions := d.submissions + [Submission(n, job, visible, draft, fields, files)])
  }

  function MadeVisible(submissions: seq<Submission>, id: nat): seq<Submission> {
    if submissions == [] then []
    else if submissions[0].id == id then [submissions[0].(visible := true)] + submissions[1..]
    else [submissions[0]] + MadeVisible(submissions[1..], id)
  }

  predicate Hidden(submissions: seq<Submission>, id: nat) {
    submissions != [] && (if submissions[0].id == id then !submissions[0].visible else Hidden(submissions[1..], id))
  }

  /** The draft a step is saved in: the given one, or a new one under the next number. */
  function StepDraft(d: Data, draft: Option<nat>): nat {
    if draft.Some? then draft.value else d.counters.draft + 1
  }

  function WithStep(d: Data, job: string, draft: Option<nat>, step: nat, values: Values, files: map<string, V.Meta>): Data
    requires draft.Some? ==> draft.value in d.drafts
  {
    var id := StepDraft(d, draft);
    var before := if draft.Some? then d.drafts[id] else Draft(job, map[], map[]);
    var after := before.(steps := before.steps[step := values], files := before.files + files);
    d.(counters := if draft.Some? then d.counters else d.counters.(draft := id), drafts := d.drafts[id := after])
  }

  /** Whether the operation changes anything and saves; the others only read, or fail. */
  predicate Saves(d: Data, op: Op) {
    match op
    case RevealSubmission(id) => Hidden(d.submissions, id)
    case SaveStep(_, draft, _, _, _) => draft.Some? ==> draft.value in d.drafts
    case ConsumeCaptcha(token, _) => token in d.captchas && !d.captchas[token].used
    case WdCreateAccount(email, _) => email !in d.accounts && email != SIGNIN_EMAIL
    case WdOpen(_) => false
    case _ => true
  }

  function Mutated(d: Data, op: Op, lib: Lib): Data
    requires Saves(d, op)
  {
    match op
    case CountLoad(job) => d.(loads := d.loads[job := (if job in d.loads then d.loads[job] else 0) + 1])
    case StoreUpload(u) => WithUpload(d, u, lib)
    case AddSubmission(job, visible, fields, files, draft) => WithSubmission(d, job, visible, fields, files, draft)
    case AddRejection(job) =>
      var n := d.counters.rejection + 1;
      d.(counters := d.counters.(rejection := n), rejections := d.rejections + [(n, job)])
    case RevealSubmission(id) => d.(submissions := MadeVisible(d.submissions, id))
    case AddAlert(job, email) => d.(alerts := d.alerts + [(job, email)])
    case SaveStep(job, draft, step, values, files) => WithStep(d, job, draft, step, values, files)
    case NewCaptcha =>
      var n := d.counters.captcha + 1;
      d.(counters := d.counters.(captcha := n), captchas := d.captchas[n := Challenge(lib.answer(n), false)])
    case ConsumeCaptcha(token, _) => d.(captchas := d.captchas[token := d.captchas[token].(used := true)])
    case NewSession(email) =>
      var n := d.counters.session + 1;
      d.(counters := d.counters.(session := n), sessions := d.sessions[lib.session(n) := email])
    case WdCreateAccount(email, password) => d.(accounts := d.accounts[email := lib.digest(password)])
    case WdOpen(email) => d
    case WdSavePage(email, page, values) =>
      var w := DraftOf(d, email);
      d.(wizards := d.wizards[email := w.(pages := w.pages[page := values])])
    case WdSetResume(email, upload) =>
      d.(wizards := d.wizards[email := DraftOf(d, email).(resume := Some(upload))])
  }

  /** What memory holds after the operation: opening a wizard draft makes it, without saving. */
  function Applied(d: Data, op: Op, lib: Lib): Data {
    if Saves(d, op) then Mutated(d, op, lib)
    else if op.WdOpen? then d.(wizards := d.wizards[op.email := DraftOf(d, op.email)])
    else d
  }

  // ---- The disk ----------------------------------------------------------------------------------------------

  /** What a crash can leave behind, the temporary file aside: it is never read. */
  datatype Image = Image(state: Option<Data>, files: map<V.Meta, string>)

  class Disk {
    var state: Option<Data>
    var temporary: Option<Data>
    var files: map<V.Meta, string>
    /** Every image the disk has had. */
    ghost var seen: seq<Image>

    ghost function Now(): Image
      reads this
    {
      Image(state, files)
    }

    constructor ()
      ensures Now() == Image(None, map[]) && seen == [Image(None, map[])]
    {
      state, temporary, files := None, None, map[];
      seen := [Image(None, map[])];
    }

    method WriteTemporary(data: Data)
      modifies this
      ensures temporary == Some(data) && Now() == old(Now()) && seen == old(seen) + [Now()]
    {
      temporary := Some(data);
      seen := seen + [Now()];
    }

    /** `os.replace`: atomic. */
    method Replace()
      modifies this
      ensures Now() == Image(old(temporary), old(files)) && seen == old(seen) + [Now()]
    {
      state := temporary;
      temporary := None;
      seen := seen + [Now()];
    }

    /** Writing a file is not atomic: on the way it holds anything. */
    method WriteBytes(id: V.Meta, bytes: string, ghost torn: string)
      modifies this
      ensures Now() == Image(old(state), old(files)[id := bytes])
      ensures seen == old(seen) + [Image(old(state), old(files)[id := torn]), Now()]
    {
      seen := seen + [Image(state, files[id := torn])];
      files := files[id := bytes];
      seen := seen + [Now()];
    }
  }

  /** The images an operation goes through. */
  function Images(now: Image, d: Data, op: Op, lib: Lib, torn: string): seq<Image> {
    if !Saves(d, op) then []
    else
      var after := Some(Mutated(d, op, lib));
      match op
      case StoreUpload(u) =>
        var id := d.counters.upload + 1;
        var files := now.files[id := u.data];
        [Image(now.state, now.files[id := torn]), Image(now.state, files), Image(now.state, files), Image(after, files)]
      case _ => [now, Image(after, now.files)]
  }

  // ---- The store -----------------------------------------------------------------------------------------------

  class Store {
    const disk: Disk
    const lib: Lib
    var data: Data

    /** The operation took memory and disk where its description says, through the images it names. */
    twostate predicate Performed(op: Op, torn: string)
      reads this, disk
    {
      && data == Applied(old(data), op, lib)
      && disk.seen == old(disk.seen) + Images(old(disk.Now()), old(data), op, lib, torn)
      && (disk.Now() == if Saves(old(data), op) then Image(Some(data), After(old(disk.files), old(data), op)) else old(disk.Now()))
    }

    static function After(files: map<V.Meta, string>, d: Data, op: Op): map<V.Meta, string> {
      if op.StoreUpload? then files[d.counters.upload + 1 := op.upload.data] else files
    }

    /** Start: load the state file, or begin an empty one. */
    constructor (disk: Disk, lib: Lib)
      modifies disk
      ensures this.disk == disk && this.lib == lib
      ensures data == if old(disk.state).Some? then old(disk.state).value else EMPTY
      ensures disk.Now() == Image(Some(data), old(disk.files))
      ensures old(disk.state).Some? ==> disk.seen == old(disk.seen)
    {
      this.disk, this.lib := disk, lib;
      data := if disk.state.Some? then disk.state.value else EMPTY;
      new;
      if disk.state.None? { Save(); }
    }

    method Save()
      modifies disk
      ensures disk.Now() == Image(Some(data), old(disk.files))
      ensures disk.seen == old(disk.seen) + [old(disk.Now()), disk.Now()]
    {
      disk.WriteTemporary(data);
      disk.Replace();
    }

    method CountLoad(job: string) returns (count: nat)
      modifies this`data, disk
      ensures Performed(Op.CountLoad(job), "") && job in data.loads && count == data.loads[job]
    {
      var before := if job in data.loads then data.loads[job] else 0;
      data := data.(loads := data.loads[job := before + 1]);
      Save();
      count := data.loads[job];
    }

    method StoreUpload(upload: V.Upload, ghost torn: string) returns (id: V.Meta)
      modifies this`data, disk
      ensures Performed(Op.StoreUpload(upload), torn) && id == old(data.counters.upload) + 1
    {
      data := data.(counters := data.counters.(upload := data.counters.upload + 1));
      id := data.counters.upload;
      disk.WriteBytes(id, upload.data, torn);
      data := data.(uploads := data.uploads[id := Recorded(upload.filename, |upload.data|, lib.digest(upload.data))]);
      Save();
    }

    method AddSubmission(job: string, visible: bool, fields: Values, files: map<string, V.Meta>, draft: Option<nat>)
      returns (record: Submission)
      modifies this`data, disk
      ensures Performed(Op.AddSubmission(job, visible, fields, files, draft), "")
      ensures record == Submission(old(data.counters.submission) + 1, job, visible, draft, fields, files)
    {
      data := data.(counters := data.counters.(submission := data.counters.submission + 1));
      record := Submission(data.counters.submission, job, visible, draft, fields, files);
      data := data.(submissions := data.submissions + [record]);
      Save();
    }

    method AddRejection(job: string)
      modifies this`data, disk
      ensures Performed(Op.AddRejection(job), "")
    {
      data := data.(counters := data.counters.(rejection := data.counters.rejection + 1));
      data := data.(rejections := data.rejections + [(data.counters.rejection, job)]);
      Save();
    }

    method Reveal(id: nat)
      modifies this`data, disk
      ensures Performed(Op.RevealSubmission(id), "")
    {
      if Hidden(data.submissions, id) {
        data := data.(submissions := MadeVisible(data.submissions, id));
        Save();
      }
    }

    method AddAlert(job: string, email: string)
      modifies this`data, disk
      ensures Performed(Op.AddAlert(job, email), "")
    {
      data := data.(alerts := data.alerts + [(job, email)]);
      Save();
    }

    /** Fails, changing nothing, for a draft that does not exist. */
    method SaveStep(job: string, draft: Option<nat>, step: nat, values: Values, files: map<string, V.Meta>)
      returns (saved: Option<nat>)
      modifies this`data, disk
      ensures Performed(Op.SaveStep(job, draft, step, values, files), "")
      ensures saved == if draft.Some? && draft.value !in old(data.drafts) then None else Some(StepDraft(old(data), draft))
    {
      var id;
      if draft.None? {
        id := data.counters.draft + 1;
        data := data.(counters := data.counters.(draft := id), drafts := data.drafts[id := Draft(job, map[], map[])]);
      } else {
        id := draft.value;
        if id !in data.drafts { return None; }
      }
      var before := data.drafts[id];
      data := data.(drafts := data.drafts[id := before.(steps := before.steps[step := values])]);
      data := data.(drafts := data.drafts[id := data.drafts[id].(files := data.drafts[id].files + files)]);
      assert data.drafts == WithStep(old(data), job, draft, step, values, files).drafts;
      Save();
      saved := Some(id);
    }

    method NewCaptcha() returns (token: nat)
      modifies this`data, disk
      ensures Performed(Op.NewCaptcha, "") && token == old(data.counters.captcha) + 1
    {
      data := data.(counters := data.counters.(captcha := data.counters.captcha + 1));
      token := data.counters.captcha;
      data := data.(captchas := data.captchas[token := Challenge(lib.answer(token), false)]);
      Save();
    }

    /** Any attempt on an unused challenge spends it. */
    method ConsumeCaptcha(token: nat, answer: string) returns (ok: bool)
      modifies this`data, disk
      ensures Performed(Op.ConsumeCaptcha(token, answer), "")
      ensures ok <==> Saves(old(data), Op.ConsumeCaptcha(token, answer))
                      && lib.upper(Strip(answer)) == old(data).captchas[token].answer
    {
      if token !in data.captchas || data.captchas[token].used { return false; }
      data := data.(captchas := data.captchas[token := data.captchas[token].(used := true)]);
      Save();
      ok := lib.upper(Strip(answer)) == data.captchas[token].answer;
    }

    method NewSession(email: string) returns (token: string)
      modifies this`data, disk
      ensures Performed(Op.NewSession(email), "") && token in data.sessions && data.sessions[token] == email
    {
      data := data.(counters := data.counters.(session := data.counters.session + 1));
      token := lib.session(data.counters.session);
      data := data.(sessions := data.sessions[token := email]);
      Save();
    }

    method WdCreateAccount(email: string, password: string) returns (created: bool)
      modifies this`data, disk
      ensures Performed(Op.WdCreateAccount(email, password), "") && (created <==> email !in old(data.accounts) && email != SIGNIN_EMAIL)
    {
      if email in data.accounts || email == SIGNIN_EMAIL { return false; }
      data := data.(accounts := data.accounts[email := lib.digest(password)]);
      Save();
      created := true;
    }

    /** `setdefault` keeps a blank draft in memory; nothing is saved. */
    method WdOpen(email: string) returns (draft: WdDraft)
      modifies this`data, disk
      ensures Performed(Op.WdOpen(email), "") && draft == DraftOf(old(data), email)
    {
      if email !in data.wizards { data := data.(wizards := data.wizards[email := BLANK]); }
      assert email in old(data).wizards ==> data.wizards == old(data).wizards[email := old(data).wizards[email]];
      draft := data.wizards[email];
    }

    method WdSavePage(email: string, page: string, values: map<string, Json>)
      modifies this`data, disk
      ensures Performed(Op.WdSavePage(email, page, values), "")
    {
      if email !in data.wizards { data := data.(wizards := data.wizards[email := BLANK]); }
      var draft := data.wizards[email];
      data := data.(wizards := data.wizards[email := draft.(pages := draft.pages[page := values])]);
      assert data.wizards == Mutated(old(data), Op.WdSavePage(email, page, values), lib).wizards;
      Save();
    }

    method WdSetResume(email: string, upload: V.Meta)
      modifies this`data, disk
      ensures Performed(Op.WdSetResume(email, upload), "")
    {
      if email !in data.wizards { data := data.(wizards := data.wizards[email := BLANK]); }
      data := data.(wizards := data.wizards[email := data.wizards[email].(resume := Some(upload))]);
      assert data.wizards == Mutated(old(data), Op.WdSetResume(email, upload), lib).wizards;
      Save();
    }
  }
}
