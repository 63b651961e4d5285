/** The captcha job of `scripts/mock_ats.py`: any number of concurrent applications, each a request
    handler that takes several atomic steps on the store. */
module Captcha {
  import opened Wrappers
  import opened Text
  import opened Store

  /** Where a handler of `post_apply` is: its form is read, its captcha decided, its request answered. */
  datatype Phase = Read | Passed | Failed | Accepted | Turned | Gone

  datatype Handler = Handler(phase: Phase, token: nat, answer: string, otherErrors: bool)

  /** `won` and `accepted` record which handler each captcha let through and which were accepted. */
  datatype System = System(data: Data, handlers: map<nat, Handler>, won: map<nat, nat>, accepted: seq<nat>)

  datatype Event =
    | Issue
    | Arrive(h: nat, token: nat, answer: string, otherErrors: bool)
    | Decide(h: nat)
    | Answer(h: nat, fields: Values)
    | Other(op: Op)
    | Restart

  /** What the rest of the server does meanwhile: nothing else touches captchas or accepts for this job. */
  predicate Unrelated(op: Op, job: string) {
    !op.NewCaptcha? && !op.ConsumeCaptcha? && !(op.AddSubmission? && op.job == job)
  }

  function Moved(s: System, h: nat, phase: Phase): map<nat, Handler>
    requires h in s.handlers
  {
    s.handlers[h := s.handlers[h].(phase := phase)]
  }

  /** A blank answer is refused before the challenge is looked at; any other attempt spends it. */
  function Decided(s: System, h: nat, lib: Lib): System
    requires h in s.handlers
  {
    var c := s.handlers[h];
    var op := ConsumeCaptcha(c.token, c.answer);
    if Strip(c.answer) == "" || !Saves(s.data, op) then s.(handlers := Moved(s, h, Failed))
    else
      var spent := s.(data := Mutated(s.data, op, lib));
      if lib.upper(Strip(c.answer)) == s.data.captchas[c.token].answer
      then spent.(handlers := Moved(s, h, Passed), won := s.won[c.token := h])
      else spent.(handlers := Moved(s, h, Failed))
  }

  function Answered(s: System, h: nat, job: string, fields: Values, lib: Lib): System
    requires h in s.handlers
  {
    if s.handlers[h].phase.Passed? && !s.handlers[h].otherErrors then
      s.(data := Applied(s.data, AddSubmission(job, true, fields, map[], None), lib),
         handlers := Moved(s, h, Accepted),
         accepted := s.accepted + [h])
    else s.(data := Applied(s.data, AddRejection(job), lib), handlers := Moved(s, h, Turned))
  }

  predicate Finished(phase: Phase) { phase.Accepted? || phase.Turned? }

  /** A crash loses every unfinished handler; the store keeps its state (`StoreTheorems.CrashIsAtomic`). */
  function Restarted(s: System): System {
    s.(handlers := map h | h in s.handlers ::
                     if Finished(s.handlers[h].phase) then s.handlers[h] else s.handlers[h].(phase := Gone))
  }

  /** One atomic step; a step that is not due does nothing. */
  function Next(s: System, e: Event, job: string, lib: Lib): System {
    match e
    case Issue => s.(data := Applied(s.data, NewCaptcha, lib))
    case Arrive(h, token, answer, errors) =>
      if h in s.handlers then s else s.(handlers := s.handlers[h := Handler(Read, token, answer, errors)])
    case Decide(h) => if h in s.handlers && s.handlers[h].phase.Read? then Decided(s, h, lib) else s
    case Answer(h, fields) =>
      if h in s.handlers && (s.handlers[h].phase.Passed? || s.handlers[h].phase.Failed?) then Answered(s, h, job, fields, lib) else s
    case Other(op) => if Unrelated(op, job) then s.(data := Applied(s.data, op, lib)) else s
    case Restart => Restarted(s)
  }

  const START := System(EMPTY, map[], map[], [])

  function Run(events: seq<Event>, job: string, lib: Lib): System {
    RunFrom(START, events, job, lib)
  }

  function RunFrom(s: System, events: seq<Event>, job: string, lib: Lib): System {
    if events == [] then s
    else var n := |events| - 1; Next(RunFrom(s, events[..n], job, lib), events[n], job, lib)
  }

  // ---- What every run keeps ------------------------------------------------------------------------------

  function JobCount(submissions: seq<Submission>, job: string): nat {
    if submissions == [] then 0
    else
      var n := |submissions| - 1;
      JobCount(submissions[..n], job) + (if submissions[n].job == job then 1 else 0)
  }

  /** A handler that got past its captcha is the one the captcha let through. */
  predicate HandlerOk(c: Handler, won: map<nat, nat>, h: nat) {
    c.phase.Passed? || c.phase.Accepted? ==> c.token in won && won[c.token] == h
  }

  /** A captcha that let a handler through is issued and used, and that handler is past reading. */
  predicate TokenOk(captchas: map<nat, Challenge>, issued: nat, won: map<nat, nat>, handlers: map<nat, Handler>, token: nat) {
    && (token in captchas <==> 1 <= token <= issued)
    && (token in won ==>
          && token in captchas && captchas[token].used
          && won[token] in handlers && handlers[won[token]].token == token && !handlers[won[token]].phase.Read?)
  }

  ghost predicate HandlersOk(s: System) {
    forall h :: h in s.handlers ==> HandlerOk(s.handlers[h], s.won, h)
  }

  ghost predicate TokensOk(s: System) {
    forall token :: TokenOk(s.data.captchas, s.data.counters.captcha, s.won, s.handlers, token)
  }

  predicate AcceptedOk(accepted: seq<nat>, handlers: map<nat, Handler>) {
    && (forall i :: 0 <= i < |accepted| ==> accepted[i] in handlers && handlers[accepted[i]].phase.Accepted?)
    && (forall i, j :: 0 <= i < j < |accepted| ==> accepted[i] != accepted[j])
  }

  ghost predicate Inv(s: System, job: string) {
    && HandlersOk(s)
    && TokensOk(s)
    && AcceptedOk(s.accepted, s.handlers)
    && |s.data.captchas| == s.data.counters.captcha
    && JobCount(s.data.submissions, job) == |s.accepted|
  }

  lemma {:induction false} ShownKeepsJobs(submissions: seq<Submission>, id: nat)
    ensures |MadeVisible(submissions, id)| == |submissions|
    ensures forall i :: 0 <= i < |submissions| ==> MadeVisible(submissions, id)[i].job == submissions[i].job
  {
    if submissions != [] && submissions[0].id != id { ShownKeepsJobs(submissions[1..], id); }
  }

  lemma {:induction false} CountByJobs(a: seq<Submission>, b: seq<Submission>, job: string)
    requires |a| == |b| && forall i :: 0 <= i < |a| ==> a[i].job == b[i].job
    ensures JobCount(a, job) == JobCount(b, job)
  {
    if a != [] { CountByJobs(a[..|a| - 1], b[..|a| - 1], job); }
  }

  lemma CountOneMore(submissions: seq<Submission>, s: Submission, job: string)
    ensures JobCount(submissions + [s], job) == JobCount(submissions, job) + (if s.job == job then 1 else 0)
  {
  }

  lemma UnrelatedKeepsCount(d: Data, op: Op, job: string, lib: Lib)
    requires Unrelated(op, job)
    ensures JobCount(Applied(d, op, lib).submissions, job) == JobCount(d.submissions, job)
  {
    if op.RevealSubmission? {
      ShownKeepsJobs(d.submissions, op.id);
      CountByJobs(MadeVisible(d.submissions, op.id), d.submissions, job);
    } else if op.AddSubmission? {
      var record := Submission(d.counters.submission + 1, op.job, op.visible, op.draft, op.fields, op.files);
      CountOneMore(d.submissions, record, job);
      assert Applied(d, op, lib).submissions == d.submissions + [record];
    } else {
      assert Applied(d, op, lib).submissions == d.submissions;
    }
  }

  lemma UnrelatedKeepsCaptchas(d: Data, op: Op, job: string, lib: Lib)
    requires Unrelated(op, job)
    ensures Applied(d, op, lib).captchas == d.captchas && Applied(d, op, lib).counters.captcha == d.counters.captcha
  {
  }

  lemma Issued(d: Data, lib: Lib)
    ensures var n, e := d.counters.captcha + 1, Applied(d, NewCaptcha, lib);
            && e.captchas == d.captchas[n := Challenge(lib.answer(n), false)] && e.counters.captcha == n
            && e.submissions == d.submissions
  {
  }

  lemma Consumed(d: Data, token: nat, answer: string, lib: Lib)
    requires Saves(d, ConsumeCaptcha(token, answer))
    ensures var e := Mutated(d, ConsumeCaptcha(token, answer), lib);
            && e.captchas == d.captchas[token := d.captchas[token].(used := true)] && e.counters == d.counters
            && e.submissions == d.submissions
  {
  }

  lemma IssuedTokenOk(captchas: map<nat, Challenge>, n: nat, c: Challenge, won: map<nat, nat>, handlers: map<nat, Handler>, token: nat)
    requires n > 0 && TokenOk(captchas, n - 1, won, handlers, token) && TokenOk(captchas, n - 1, won, handlers, n)
    ensures TokenOk(captchas[n := c], n, won, handlers, token)
  {
  }

  lemma IssueKeepsInv(s: System, job: string, lib: Lib)
    requires Inv(s, job)
    ensures Inv(s.(data := Applied(s.data, NewCaptcha, lib)), job)
  {
    var captchas, n := s.data.captchas, s.data.counters.captcha + 1;
    Issued(s.data, lib);
    var more := captchas[n := Challenge(lib.answer(n), false)];
    assert TokenOk(captchas, n - 1, s.won, s.handlers, n);
    forall token ensures TokenOk(more, n, s.won, s.handlers, token) {
      assert TokenOk(captchas, n - 1, s.won, s.handlers, token);
      IssuedTokenOk(captchas, n, Challenge(lib.answer(n), false), s.won, s.handlers, token);
    }
    assert more.Keys == captchas.Keys + {n};
  }

  lemma ArriveKeepsInv(s: System, h: nat, c: Handler, job: string)
    requires Inv(s, job) && h !in s.handlers && c.phase.Read?
    ensures Inv(s.(handlers := s.handlers[h := c]), job)
  {
    var next := s.handlers[h := c];
    forall token ensures TokenOk(s.data.captchas, s.data.counters.captcha, s.won, next, token) {
      assert TokenOk(s.data.captchas, s.data.counters.captcha, s.won, s.handlers, token);
    }
  }

  /** A handler moved on without passing. */
  lemma MoveKeepsInv(s: System, h: nat, phase: Phase, job: string)
    requires Inv(s, job) && h in s.handlers && !s.handlers[h].phase.Accepted?
    requires phase.Failed? || phase.Turned? || phase.Gone?
    ensures Inv(s.(handlers := Moved(s, h, phase)), job)
  {
    var next := Moved(s, h, phase);
    forall token ensures TokenOk(s.data.captchas, s.data.counters.captcha, s.won, next, token) {
      assert TokenOk(s.data.captchas, s.data.counters.captcha, s.won, s.handlers, token);
    }
  }

  lemma SpendKeepsInv(s: System, token: nat, answer: string, job: string, lib: Lib)
    requires Inv(s, job) && Saves(s.data, ConsumeCaptcha(token, answer))
    ensures Inv(s.(data := Mutated(s.data, ConsumeCaptcha(token, answer), lib)), job)
  {
    Consumed(s.data, token, answer, lib);
    var captchas := s.data.captchas[token := s.data.captchas[token].(used := true)];
    forall other ensures TokenOk(captchas, s.data.counters.captcha, s.won, s.handlers, other) {
      assert TokenOk(s.data.captchas, s.data.counters.captcha, s.won, s.handlers, other);
    }
    assert captchas.Keys == s.data.captchas.Keys;
  }

  /** An unwon captcha, just spent, lets a reading handler through. */
  lemma WinKeepsInv(s: System, h: nat, job: string)
    requires Inv(s, job) && h in s.handlers && s.handlers[h].phase.Read?
    requires s.handlers[h].token in s.data.captchas && s.data.captchas[s.handlers[h].token].used && s.handlers[h].token !in s.won
    ensures Inv(s.(handlers := Moved(s, h, Passed), won := s.won[s.handlers[h].token := h]), job)
  {
    var won, next := s.won[s.handlers[h].token := h], Moved(s, h, Passed);
    forall token ensures TokenOk(s.data.captchas, s.data.counters.captcha, won, next, token) {
      assert TokenOk(s.data.captchas, s.data.counters.captcha, s.won, s.handlers, token);
    }
  }

  lemma DecideKeepsInv(s: System, h: nat, job: string, lib: Lib)
    requires Inv(s, job) && h in s.handlers && s.handlers[h].phase.Read?
    ensures Inv(Decided(s, h, lib), job)
  {
    var c := s.handlers[h];
    var op := ConsumeCaptcha(c.token, c.answer);
    if Strip(c.answer) == "" || !Saves(s.data, op) {
      MoveKeepsInv(s, h, Failed, job);
    } else {
      var spent := s.(data := Mutated(s.data, op, lib));
      SpendKeepsInv(s, c.token, c.answer, job, lib);
      Consumed(s.data, c.token, c.answer, lib);
      if lib.upper(Strip(c.answer)) == s.data.captchas[c.token].answer {
        assert TokenOk(s.data.captchas, s.data.counters.captcha, s.won, s.handlers, c.token);
        WinKeepsInv(spent, h, job);
      } else {
        MoveKeepsInv(spent, h, Failed, job);
      }
    }
  }

  lemma AcceptKeepsInv(s: System, h: nat, job: string, fields: Values, lib: Lib)
    requires Inv(s, job) && h in s.handlers && s.handlers[h].phase.Passed?
    ensures Inv(Answered(s, h, job, fields, lib), job)
  {
    var d := s.data;
    var record := Submission(d.counters.submission + 1, job, true, None, fields, map[]);
    CountOneMore(d.submissions, record, job);
    assert Applied(d, AddSubmission(job, true, fields, map[], None), lib).submissions == d.submissions + [record];
    var next := Moved(s, h, Accepted);
    forall token ensures TokenOk(d.captchas, d.counters.captcha, s.won, next, token) {
      assert TokenOk(d.captchas, d.counters.captcha, s.won, s.handlers, token);
    }
    if s.handlers[h].otherErrors { MoveKeepsInv(s, h, Turned, job); } else {
      assert AcceptedOk(s.accepted + [h], Moved(s, h, Accepted));
    }
  }

  lemma AnswerKeepsInv(s: System, h: nat, job: string, fields: Values, lib: Lib)
    requires Inv(s, job) && h in s.handlers && (s.handlers[h].phase.Passed? || s.handlers[h].phase.Failed?)
    ensures Inv(Answered(s, h, job, fields, lib), job)
  {
    if s.handlers[h].phase.Passed? {
      AcceptKeepsInv(s, h, job, fields, lib);
    } else {
      MoveKeepsInv(s, h, Turned, job);
    }
  }

  lemma RestartKeepsInv(s: System, job: string)
    requires Inv(s, job)
    ensures Inv(Restarted(s), job)
  {
    var t := Restarted(s);
    forall token ensures TokenOk(s.data.captchas, s.data.counters.captcha, s.won, t.handlers, token) {
      assert TokenOk(s.data.captchas, s.data.counters.captcha, s.won, s.handlers, token);
    }
    forall h | h in t.handlers ensures HandlerOk(t.handlers[h], s.won, h) { assert HandlerOk(s.handlers[h], s.won, h); }
  }

  lemma OtherKeepsInv(s: System, op: Op, job: string, lib: Lib)
    requires Inv(s, job) && Unrelated(op, job)
    ensures Inv(s.(data := Applied(s.data, op, lib)), job)
  {
    UnrelatedKeepsCaptchas(s.data, op, job, lib);
    UnrelatedKeepsCount(s.data, op, job, lib);
  }

  lemma NextKeepsInv(s: System, e: Event, job: string, lib: Lib)
    requires Inv(s, job)
    ensures Inv(Next(s, e, job, lib), job)
  {
    match e
    case Issue => IssueKeepsInv(s, job, lib);
    case Arrive(h, token, answer, errors) =>
      if h !in s.handlers { ArriveKeepsInv(s, h, Handler(Read, token, answer, errors), job); }
    case Decide(h) => if h in s.handlers && s.handlers[h].phase.Read? { DecideKeepsInv(s, h, job, lib); }
    case Answer(h, fields) =>
      if h in s.handlers && (s.handlers[h].phase.Passed? || s.handlers[h].phase.Failed?) { AnswerKeepsInv(s, h, job, fields, lib); }
    case Other(op) => if Unrelated(op, job) { OtherKeepsInv(s, op, job, lib); }
    case Restart => RestartKeepsInv(s, job);
  }

  lemma {:induction false} RunKeepsInv(events: seq<Event>, job: string, lib: Lib)
    ensures Inv(Run(events, job, lib), job)
  {
    if events != [] {
      var n := |events| - 1;
      RunKeepsInv(events[..n], job, lib);
      NextKeepsInv(Run(events[..n], job, lib), events[n], job, lib);
    }
  }

  // ---- Theorems ---------------------------------------------------------------------------------------------

  /** The captcha that let the `i`-th accepted application through. */
  function TokenOf(s: System, i: nat): nat
    requires i < |s.accepted| && s.accepted[i] in s.handlers
  {
    s.handlers[s.accepted[i]].token
  }

  /** Accepted applications map injectively to issued captchas, which they spent. */
  lemma AcceptedByDistinctTokens(events: seq<Event>, job: string, lib: Lib)
    ensures var s := Run(events, job, lib);
            && JobCount(s.data.submissions, job) == |s.accepted|
            && (forall i :: 0 <= i < |s.accepted| ==>
                  && s.accepted[i] in s.handlers
                  && 1 <= TokenOf(s, i) <= s.data.counters.captcha
                  && TokenOf(s, i) in s.data.captchas && s.data.captchas[TokenOf(s, i)].used)
            && (forall i, j :: 0 <= i < j < |s.accepted| && s.accepted[i] in s.handlers && s.accepted[j] in s.handlers
                               ==> TokenOf(s, i) != TokenOf(s, j))
  {
    RunKeepsInv(events, job, lib);
    var s := Run(events, job, lib);
    forall i | 0 <= i < |s.accepted|
      ensures s.accepted[i] in s.handlers && TokenOf(s, i) in s.won && s.won[TokenOf(s, i)] == s.accepted[i]
      ensures TokenOk(s.data.captchas, s.data.counters.captcha, s.won, s.handlers, TokenOf(s, i))
    {
      assert HandlerOk(s.handlers[s.accepted[i]], s.won, s.accepted[i]);
    }
  }

  lemma PositiveBound(tokens: seq<nat>, n: nat)
    requires tokens != [] && forall i :: 0 <= i < |tokens| ==> 1 <= tokens[i] <= n
    ensures n > 0
  {
    assert tokens[0] <= n;
  }

  lemma {:induction false} DistinctWithin(tokens: seq<nat>, n: nat)
    requires forall i :: 0 <= i < |tokens| ==> 1 <= tokens[i] <= n
    requires forall i, j :: 0 <= i < j < |tokens| ==> tokens[i] != tokens[j]
    ensures |tokens| <= n
  {
    if tokens != [] { PositiveBound(tokens, n); }
    if n > 0 && n in tokens {
      var k :| 0 <= k < |tokens| && tokens[k] == n;
      var rest := tokens[..k] + tokens[k + 1..];
      DistinctWithin(rest, n - 1);
    } else if n > 0 {
      DistinctWithin(tokens, n - 1);
    }
  }

  /** Accepted applications never outnumber the captchas issued. */
  lemma NeverMoreThanIssued(events: seq<Event>, job: string, lib: Lib)
    ensures var d := Run(events, job, lib).data; JobCount(d.submissions, job) <= d.counters.captcha
  {
    AcceptedByDistinctTokens(events, job, lib);
    var s := Run(events, job, lib);
    DistinctWithin(seq(|s.accepted|, i requires 0 <= i < |s.accepted| && s.accepted[i] in s.handlers => TokenOf(s, i)), s.data.counters.captcha);
  }

  predicate Spent(s: System, token: nat) {
    token in s.data.captchas && s.data.captchas[token].used
  }

  lemma DecideStays(s: System, h: nat, lib: Lib, token: nat)
    requires h in s.handlers && Spent(s, token)
    ensures Spent(Decided(s, h, lib), token)
    ensures token in Decided(s, h, lib).won <==> token in s.won
    ensures token in s.won ==> Decided(s, h, lib).won[token] == s.won[token]
  {
    var c := s.handlers[h];
    if Saves(s.data, ConsumeCaptcha(c.token, c.answer)) { Consumed(s.data, c.token, c.answer, lib); }
  }

  lemma IssueStays(s: System, job: string, lib: Lib, token: nat)
    requires Inv(s, job) && Spent(s, token)
    ensures Spent(s.(data := Applied(s.data, NewCaptcha, lib)), token)
  {
    Issued(s.data, lib);
    assert TokenOk(s.data.captchas, s.data.counters.captcha, s.won, s.handlers, token);
  }

  lemma AnswerStays(s: System, h: nat, job: string, fields: Values, lib: Lib, token: nat)
    requires h in s.handlers && Spent(s, token)
    ensures Spent(Answered(s, h, job, fields, lib), token) && Answered(s, h, job, fields, lib).won == s.won
  {
  }

  lemma {:induction false} SpentStepStays(s: System, e: Event, job: string, lib: Lib, token: nat)
    requires Inv(s, job) && Spent(s, token)
    ensures Spent(Next(s, e, job, lib), token)
    ensures token in Next(s, e, job, lib).won <==> token in s.won
    ensures token in s.won ==> Next(s, e, job, lib).won[token] == s.won[token]
  {
    match e
    case Issue => IssueStays(s, job, lib, token);
    case Other(op) => if Unrelated(op, job) { UnrelatedKeepsCaptchas(s.data, op, job, lib); }
    case Decide(h) => if h in s.handlers { DecideStays(s, h, lib, token); }
    case Answer(h, fields) => if h in s.handlers { AnswerStays(s, h, job, fields, lib, token); }
    case Arrive(_, _, _, _) =>
    case Restart =>
  }

  /** Any attempt with a nonblank answer spends the challenge, right or wrong. */
  lemma AttemptSpends(s: System, h: nat, job: string, lib: Lib)
    requires h in s.handlers && s.handlers[h].phase.Read? && Strip(s.handlers[h].answer) != ""
    requires s.handlers[h].token in s.data.captchas
    ensures Spent(Next(s, Decide(h), job, lib), s.handlers[h].token)
  {
  }

  /** A spent challenge lets nobody else through, however the run goes on. */
  lemma {:induction false} SpentForGood(before: seq<Event>, after: seq<Event>, job: string, lib: Lib, token: nat)
    requires Spent(Run(before, job, lib), token)
    ensures var s, t := Run(before, job, lib), RunFrom(Run(before, job, lib), after, job, lib);
            Inv(t, job) && Spent(t, token) && (token in t.won <==> token in s.won) && (token in s.won ==> t.won[token] == s.won[token])
  {
    if after == [] {
      RunKeepsInv(before, job, lib);
    } else {
      var n := |after| - 1;
      SpentForGood(before, after[..n], job, lib, token);
      var t := RunFrom(Run(before, job, lib), after[..n], job, lib);
      NextKeepsInv(t, after[n], job, lib);
      SpentStepStays(t, after[n], job, lib, token);
    }
  }

  /** The answer is the challenge's, and the challenge is not used yet. */
  predicate Right(d: Data, token: nat, answer: string, lib: Lib) {
    Strip(answer) != "" && token in d.captchas && !d.captchas[token].used && lib.upper(Strip(answer)) == d.captchas[token].answer
  }

  /** An application that nothing disturbs is accepted, and added to the submissions, exactly if its answer
      is right and it has no other errors; otherwise it is turned away, and recorded as a rejection. */
  lemma {:induction false} AnswersDecide(s: System, h: nat, token: nat, answer: string, errors: bool, fields: Values, job: string, lib: Lib)
    requires h !in s.handlers
    ensures var t := Next(Next(Next(s, Arrive(h, token, answer, errors), job, lib), Decide(h), job, lib), Answer(h, fields), job, lib);
            if Right(s.data, token, answer, lib) && !errors then
              && t.accepted == s.accepted + [h] && t.data.rejections == s.data.rejections
              && t.data.submissions == s.data.submissions + [Submission(s.data.counters.submission + 1, job, true, None, fields, map[])]
            else
              && t.accepted == s.accepted && t.data.submissions == s.data.submissions
              && t.data.rejections == s.data.rejections + [(s.data.counters.rejection + 1, job)]
  {
    var arrived := Next(s, Arrive(h, token, answer, errors), job, lib);
    DecisionIs(arrived, h, lib);
    AnswerIs(Next(arrived, Decide(h), job, lib), h, fields, job, lib);
  }

  lemma {:induction false} DecisionIs(s: System, h: nat, lib: Lib)
    requires h in s.handlers && s.handlers[h].phase.Read?
    ensures var c, t := s.handlers[h], Decided(s, h, lib);
            && t.data == s.data.(captchas := t.data.captchas) && t.accepted == s.accepted
            && h in t.handlers && t.handlers[h] == c.(phase := if Right(s.data, c.token, c.answer, lib) then Passed else Failed)
  {
  }

  lemma {:induction false} AnswerIs(s: System, h: nat, fields: Values, job: string, lib: Lib)
    requires h in s.handlers && (s.handlers[h].phase.Passed? || s.handlers[h].phase.Failed?)
    ensures var c, t := s.handlers[h], Answered(s, h, job, fields, lib);
            if c.phase.Passed? && !c.otherErrors then
              && t.accepted == s.accepted + [h] && t.data.rejections == s.data.rejections
              && t.data.submissions == s.data.submissions + [Submission(s.data.counters.submission + 1, job, true, None, fields, map[])]
            else
              && t.accepted == s.accepted && t.data.submissions == s.data.submissions
              && t.data.rejections == s.data.rejections + [(s.data.counters.rejection + 1, job)]
  {
  }
}
