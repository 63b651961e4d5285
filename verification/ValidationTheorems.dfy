/** What `validate` of `scripts/mock_ats.py` accepts, records and rejects. */
module ValidationTheorems {
  import opened Wrappers
  import opened Text
  import opened Countries
  import opened Fields
  import opened Validation

  // ---- What an acceptable answer is, said without the order of the checks --------------------------

  /** The number is a US national number of ten digits, written alone or after the dial code. */
  predicate UsNumber(v: string, country: string, countries: seq<Country>) {
    && country == "us"
    && var us := ByIso(countries, country);
    if "+" <= Strip(v) then us.Some? && us.value.code <= Digits(v) && |Digits(v)| == |us.value.code| + 10 else |Digits(v)| == 10
  }

  predicate Fits(f: Field, v: string, p: Posting) {
    && (f.options != [] ==> Listed(f, v))
    && (f.kind.IntlTel? ==> UsNumber(v, PhoneCountry(p), p.rules.countries))
    && (f.kind.Checkbox? ==> v == "yes")
    && (f.kind.Email? ==> EmailOk(v))
    && (f.kind.Url? ==> "https://" <= v || "http://" <= v)
    && (f.kind.Tel? && p.rules.strictPhone ==> TenDigits(v))
    && |v| <= MAX_TEXT_CHARS
  }

  ghost predicate TextOk(f: Field, p: Posting) {
    && (forall u, v :: u in Posted(p.form, f.name) && v in Posted(p.form, f.name) && Strip(u) != "" && Strip(v) != ""
                       ==> Strip(u) == Strip(v))
    && (forall v :: v in Posted(p.form, f.name) && Strip(v) != "" ==> Fits(f, Strip(v), p))
    && (f.required ==> exists v :: v in Posted(p.form, f.name) && Strip(v) != "")
  }

  ghost predicate ChoicesOk(f: Field, p: Posting) {
    && (forall v :: v in Posted(p.form, f.name) && v != "" ==> Listed(f, v))
    && (f.required ==> exists v :: v in Posted(p.form, f.name) && v != "")
  }

  predicate FileOk(f: Field, p: Posting) {
    if Uploaded(p, f.name) != [] then UploadError(Uploaded(p, f.name)[0]).None?
    else f.required ==> f.name in p.retained
  }

  ghost predicate Acceptable(f: Field, p: Posting) {
    if f.TakesFile() then FileOk(f, p) else if f.Multi() then ChoicesOk(f, p) else TextOk(f, p)
  }

  lemma FormatExact(f: Field, v: string, p: Posting)
    ensures FormatError(f, v, p).None? <==> Fits(f, v, p)
  {
  }

  lemma AnotherMember(s: set<string>, a: string)
    requires a in s && |s| > 1
    ensures exists b :: b in s && b != a
  {
    var rest := s - {a};
    assert |rest| == |s| - 1;
    var b :| b in rest;
  }

  lemma TextExact(f: Field, p: Posting)
    ensures TextVerdict(f, p).Rejected? <==> !TextOk(f, p)
    ensures TextVerdict(f, p).Told? ==> exists v :: v in Posted(p.form, f.name) && Strip(v) == TextVerdict(f, p).text
  {
    var posted := Posted(p.form, f.name);
    var answers := Stripped(posted);
    if |answers| > 1 {
      var a :| a in answers;
      AnotherMember(answers, a);
      assert !TextOk(f, p);
    } else if answers == {} {
      forall v | v in posted ensures Strip(v) == "" {
        assert Strip(v) != "" ==> Strip(v) in answers;
      }
    } else {
      var answer :| answer in answers;
      OnlyMember(answers, answer);
      forall v | v in posted && Strip(v) != "" ensures Strip(v) == answer {
        assert Strip(v) in answers;
      }
      FormatExact(f, answer, p);
    }
  }

  lemma ChoicesExact(f: Field, p: Posting)
    ensures ChoicesVerdict(f, p).Rejected? <==> !ChoicesOk(f, p)
  {
    var posted := Posted(p.form, f.name);
    var chosen := NonEmpty(posted);
    if chosen != [] { assert chosen[0] in chosen; }
    if exists v :: v in posted && v != "" {
      var v :| v in posted && v != "";
      assert v in chosen;
    }
  }

  lemma JudgeExact(f: Field, p: Posting)
    ensures Judge(f, p).Rejected? <==> Active(f) && !Acceptable(f, p)
  {
    TextExact(f, p);
    ChoicesExact(f, p);
  }

  // ---- What ends up in the report ---------------------------------------------------------------------

  lemma {:induction false} TallyErrors(fields: seq<Field>, verdicts: seq<Verdict>, country: string)
    requires |verdicts| == |fields|
    ensures Tally(fields, verdicts, country).errors == map[] <==> forall k :: 0 <= k < |fields| ==> !verdicts[k].Rejected?
  {
    if fields != [] {
      var n := |fields| - 1;
      TallyErrors(fields[..n], verdicts[..n], country);
      var before, after := Tally(fields[..n], verdicts[..n], country).errors, Tally(fields, verdicts, country).errors;
      if before != map[] {
        var name :| name in before;
        assert name in after;
      }
      if verdicts[n].Rejected? { assert fields[n].name in after; }
      assert forall k :: 0 <= k < n ==> verdicts[..n][k] == verdicts[k];
    }
  }

  /** The report is free of errors exactly when every enabled, named field is acceptable. */
  lemma SoundAndComplete(fields: seq<Field>, p: Posting)
    ensures Validated(fields, p).errors == map[] <==> forall k :: 0 <= k < |fields| && Active(fields[k]) ==> Acceptable(fields[k], p)
  {
    TallyErrors(fields, Judgements(fields, p), PhoneCountry(p));
    forall k | 0 <= k < |fields|
      ensures Judgements(fields, p)[k].Rejected? <==> Active(fields[k]) && !Acceptable(fields[k], p)
    {
      JudgeExact(fields[k], p);
    }
  }

  /** Some phone number was accepted. */
  predicate PhoneTold(fields: seq<Field>, verdicts: seq<Verdict>)
    requires |verdicts| == |fields|
  {
    exists i :: 0 <= i < |fields| && fields[i].kind.IntlTel? && verdicts[i].Told?
  }

  /** Nothing is reported under a name that is not a field's, except a phone widget's country. */
  lemma {:induction false} KeysAreNames(fields: seq<Field>, verdicts: seq<Verdict>, country: string)
    requires |verdicts| == |fields|
    ensures var r := Tally(fields, verdicts, country);
            && r.errors.Keys <= Names(fields) && r.files.Keys <= Names(fields)
            && (forall name :: name in r.values ==> name in Names(fields) || (name == PHONE_COUNTRY && PhoneTold(fields, verdicts)))
  {
    if fields != [] {
      var n := |fields| - 1;
      KeysAreNames(fields[..n], verdicts[..n], country);
      assert fields[n] in fields;
      assert forall f :: f in fields[..n] ==> f in fields;
      assert PhoneTold(fields[..n], verdicts[..n]) ==> PhoneTold(fields, verdicts);
    }
  }

  /** What a verdict records as a value. */
  function ValueOf(v: Verdict): Option<Value> {
    match v
    case Chosen(cs) => Some(Many(cs))
    case Told(t) => Some(One(t))
    case _ => None
  }

  predicate Holds<T(==)>(m: map<string, T>, name: string, value: Option<T>) {
    if value.None? then name !in m else name in m && m[name] == value.value
  }

  /** The report says of a field exactly what became of it. */
  predicate Reports(r: Report, name: string, v: Verdict) {
    && Holds(r.errors, name, if v.Rejected? then Some(v.message) else None)
    && Holds(r.files, name, if v.Filed? then Some(v.attached) else None)
  }

  lemma NotedElsewhere(r: Report, f: Field, v: Verdict, country: string, name: string, w: Verdict)
    requires name != f.name
    ensures Reports(r, name, w) ==> Reports(Noted(r, f, v, country), name, w)
    ensures (name != PHONE_COUNTRY || !(f.kind.IntlTel? && v.Told?)) && Holds(r.values, name, ValueOf(w))
            ==> Holds(Noted(r, f, v, country).values, name, ValueOf(w))
  {
  }

  lemma NotedHere(r: Report, f: Field, v: Verdict, country: string)
    requires f.name !in r.errors && f.name !in r.files
    ensures Reports(Noted(r, f, v, country), f.name, v)
    ensures f.name !in r.values && (f.name != PHONE_COUNTRY || !(f.kind.IntlTel? && v.Told?))
            ==> Holds(Noted(r, f, v, country).values, f.name, ValueOf(v))
  {
  }

  lemma {:induction false} TallyIsExact(fields: seq<Field>, verdicts: seq<Verdict>, country: string, k: nat)
    requires |verdicts| == |fields| && DistinctNames(fields) && k < |fields|
    ensures var r := Tally(fields, verdicts, country);
            && Reports(r, fields[k].name, verdicts[k])
            && (fields[k].name != PHONE_COUNTRY || !PhoneTold(fields, verdicts)
                ==> Holds(r.values, fields[k].name, ValueOf(verdicts[k])))
  {
    var n := |fields| - 1;
    var before := Tally(fields[..n], verdicts[..n], country);
    assert PhoneTold(fields[..n], verdicts[..n]) ==> PhoneTold(fields, verdicts);
    if k == n {
      KeysAreNames(fields[..n], verdicts[..n], country);
      assert fields[k].name !in Names(fields[..n]);
      NotedHere(before, fields[n], verdicts[n], country);
    } else {
      TallyIsExact(fields[..n], verdicts[..n], country, k);
      NotedElsewhere(before, fields[n], verdicts[n], country, fields[k].name, verdicts[k]);
    }
  }

  /** Every field is reported exactly: a rejected one as an error, an accepted one with its answer,
      a blank one not at all. */
  lemma ReportIsExact(fields: seq<Field>, p: Posting, k: nat)
    requires DistinctNames(fields) && k < |fields|
    ensures var r, v := Validated(fields, p), Judge(fields[k], p);
            && Reports(r, fields[k].name, v)
            && (fields[k].name != PHONE_COUNTRY || !PhoneTold(fields, Judgements(fields, p))
                ==> Holds(r.values, fields[k].name, ValueOf(v)))
  {
    TallyIsExact(fields, Judgements(fields, p), PhoneCountry(p), k);
  }

  // ---- Errors and answers are kept apart ---------------------------------------------------------------

  /** No key is both an error and a recorded value or file. */
  predicate Apart(r: Report) {
    r.errors.Keys !! r.values.Keys && r.errors.Keys !! r.files.Keys
  }

  /** An answer the phone widget is told, with the one country it accepts. */
  predicate Callable(f: Field, v: string, rules: Rules) {
    && v != "" && Strip(v) == v && (f.options != [] ==> Listed(f, v))
    && UsNumber(v, "us", rules.countries) && |v| <= MAX_TEXT_CHARS
  }

  /** The widget can be told something: any ten digits, or an option that is a number it accepts. */
  predicate TakesNumbers(f: Field, rules: Rules) {
    f.options == [] || exists i :: 0 <= i < |f.options| && Callable(f, f.options[i].value, rules)
  }

  /** A phone widget beside another field that goes by the name the widget's country is recorded under. */
  predicate Clash(fields: seq<Field>, rules: Rules) {
    exists i, j :: 0 <= i < |fields| && 0 <= j < |fields| && i != j
                   && Active(fields[i]) && fields[i].kind.IntlTel? && TakesNumbers(fields[i], rules)
                   && Active(fields[j]) && fields[j].name == PHONE_COUNTRY
  }

  lemma ToldIsCallable(f: Field, p: Posting)
    requires f.kind.IntlTel? && Judge(f, p).Told?
    ensures Active(f) && TakesNumbers(f, p.rules)
  {
    JudgeExact(f, p);
    TextExact(f, p);
    var v :| v in Posted(p.form, f.name) && Strip(v) == TextVerdict(f, p).text;
    StripIsIdempotent(v);
    assert Strip(v) in Stripped(Posted(p.form, f.name));
    assert Fits(f, Strip(v), p);
    assert PhoneCountry(p) == "us";
    if f.options != [] {
      var i :| 0 <= i < |f.options| && f.options[i].value == Strip(v) && !f.options[i].disabled;
      assert Callable(f, f.options[i].value, p.rules);
    }
  }

  lemma ApartUnlessClash(fields: seq<Field>, p: Posting)
    requires DistinctNames(fields) && !Clash(fields, p.rules)
    ensures Apart(Validated(fields, p))
  {
    var r, verdicts := Validated(fields, p), Judgements(fields, p);
    KeysAreNames(fields, verdicts, PhoneCountry(p));
    forall name | name in r.errors ensures name !in r.values && name !in r.files {
      var f :| f in fields && f.name == name;
      var k :| 0 <= k < |fields| && fields[k] == f;
      if name == PHONE_COUNTRY && PhoneTold(fields, verdicts) {
        var i :| 0 <= i < |fields| && fields[i].kind.IntlTel? && verdicts[i].Told?;
        ToldIsCallable(fields[i], p);
      }
      TallyIsExact(fields, verdicts, PhoneCountry(p), k);
    }
  }

  lemma {:induction false} CountryIsRecorded(fields: seq<Field>, verdicts: seq<Verdict>, country: string)
    requires |verdicts| == |fields| && PhoneTold(fields, verdicts)
    ensures PHONE_COUNTRY in Tally(fields, verdicts, country).values
  {
    var n := |fields| - 1;
    var i :| 0 <= i < |fields| && fields[i].kind.IntlTel? && verdicts[i].Told?;
    if i < n {
      assert fields[..n][i] == fields[i] && verdicts[..n][i] == verdicts[i];
      CountryIsRecorded(fields[..n], verdicts[..n], country);
    }
  }

  function Xs(n: nat): string { seq(n, _ => 'x') }

  /** A value longer than every option. */
  function Unlisted(options: seq<Choice>): (v: string)
    ensures |v| >= 3 && (forall i :: 0 <= i < |v| ==> v[i] == 'x')
    ensures forall i :: 0 <= i < |options| ==> |v| > |options[i].value|
  {
    if options == [] then Xs(3)
    else
      var rest := Unlisted(options[1..]);
      if |rest| > |options[0].value| then rest else Xs(|options[0].value| + 1 + |rest|)
  }

  /** A posting that a phone widget accepts and that the field recorded under its country rejects. */
  function ClashingPosting(phone: string, number: string, clashing: Field, rules: Rules): Posting {
    Posting(map[phone := [number], PHONE_COUNTRY := ["us", Unlisted(clashing.options)]],
            map[PHONE_COUNTRY := [Upload("x", "")]], map[], rules)
  }

  lemma TenDigitsAreCallable(f: Field, v: string, rules: Rules)
    requires f.options == [] && TenDigits(v)
    ensures Callable(f, v, rules)
  {
    DigitsOfDigits(v);
    assert IsDigit(v[0]) && IsDigit(v[|v| - 1]);
  }

  /** A lone answer that needs no stripping and fits is accepted. */
  lemma LoneAnswerIsTold(f: Field, p: Posting, v: string)
    requires Active(f) && !f.TakesFile() && !f.Multi()
    requires Posted(p.form, f.name) == [v] && Strip(v) == v && v != "" && Fits(f, v, p)
    ensures Judge(f, p).Told?
  {
    assert v in Posted(p.form, f.name);
    TextExact(f, p);
    assert v in Stripped(Posted(p.form, f.name));
  }

  lemma PhoneIsAccepted(f: Field, number: string, clashing: Field, rules: Rules)
    requires Callable(f, number, rules) && Active(f) && f.kind.IntlTel? && f.name != PHONE_COUNTRY
    ensures Judge(f, ClashingPosting(f.name, number, clashing, rules)).Told?
  {
    var p := ClashingPosting(f.name, number, clashing, rules);
    assert PhoneCountry(p) == "us";
    LoneAnswerIsTold(f, p, number);
  }

  lemma ClashingIsRejected(phone: string, number: string, f: Field, rules: Rules)
    requires Active(f) && f.name == PHONE_COUNTRY && phone != PHONE_COUNTRY
    ensures Judge(f, ClashingPosting(phone, number, f, rules)).Rejected?
  {
    var p, other := ClashingPosting(phone, number, f, rules), Unlisted(f.options);
    var posted := Posted(p.form, f.name);
    assert posted == ["us", other] && posted[1] == other;
    if f.TakesFile() {
      assert Uploaded(p, f.name) == [Upload("x", "")];
      assert |Lower("x")| == 1;
    } else if f.Multi() {
      assert !Listed(f, other);
      assert other in NonEmpty(posted);
    } else {
      assert Strip("us") == "us" && Strip(other) == other;
      assert "us" in posted && other in posted && !TextOk(f, p);
      TextExact(f, p);
    }
  }

  /** The widget and the field under its country's name, both enabled, in one posting. */
  lemma {:induction false} ClashIsRecorded(fields: seq<Field>, i: nat, j: nat, number: string, rules: Rules)
    requires DistinctNames(fields) && i < |fields| && j < |fields| && i != j
    requires Active(fields[i]) && fields[i].kind.IntlTel? && Callable(fields[i], number, rules)
    requires Active(fields[j]) && fields[j].name == PHONE_COUNTRY
    ensures !Apart(Validated(fields, ClashingPosting(fields[i].name, number, fields[j], rules)))
  {
    assert fields[i].name != fields[j].name;
    var p := ClashingPosting(fields[i].name, number, fields[j], rules);
    PhoneIsAccepted(fields[i], number, fields[j], rules);
    ClashingIsRejected(fields[i].name, number, fields[j], rules);
    var verdicts := Judgements(fields, p);
    assert verdicts[i].Told?;
    CountryIsRecorded(fields, verdicts, PhoneCountry(p));
    TallyIsExact(fields, verdicts, PhoneCountry(p), j);
  }

  /** Errors and answers are kept apart on every posting if and only if no other field goes by the
      name under which a phone widget that can be told a number records its country. */
  lemma {:induction false} ApartExactly(fields: seq<Field>, rules: Rules)
    requires DistinctNames(fields)
    ensures (forall p: Posting :: p.rules == rules ==> Apart(Validated(fields, p))) <==> !Clash(fields, rules)
  {
    if Clash(fields, rules) {
      var i, j :| 0 <= i < |fields| && 0 <= j < |fields| && i != j
                  && Active(fields[i]) && fields[i].kind.IntlTel? && TakesNumbers(fields[i], rules)
                  && Active(fields[j]) && fields[j].name == PHONE_COUNTRY;
      var number := "3035550142";
      assert TenDigits(number);
      if fields[i].options == [] {
        TenDigitsAreCallable(fields[i], number, rules);
      } else {
        var k :| 0 <= k < |fields[i].options| && Callable(fields[i], fields[i].options[k].value, rules);
        number := fields[i].options[k].value;
      }
      ClashIsRecorded(fields, i, j, number, rules);
      assert ClashingPosting(fields[i].name, number, fields[j], rules).rules == rules;
    } else {
      forall p: Posting | p.rules == rules ensures Apart(Validated(fields, p)) {
        ApartUnlessClash(fields, p);
      }
    }
  }

  // ---- Required questions and follow-ups ------------------------------------------------------------------

  /** The report holds an answer or a file under this name. */
  predicate Carries(values: map<string, Value>, files: set<string>, name: string) {
    name in values || name in files
  }

  /** An error-free report carries an answer or a file for every enabled field that is required,
      even if names repeat. */
  lemma RequiredIsCarried(fields: seq<Field>, p: Posting, k: nat)
    requires Validated(fields, p).errors == map[] && k < |fields| && Active(fields[k]) && fields[k].required
    ensures var r := Validated(fields, p); Carries(r.values, r.files.Keys, fields[k].name)
  {
    TallyErrors(fields, Judgements(fields, p), PhoneCountry(p));
    TallyCarries(fields, Judgements(fields, p), PhoneCountry(p), k);
  }

  lemma {:induction false} TallyCarries(fields: seq<Field>, verdicts: seq<Verdict>, country: string, k: nat)
    requires |verdicts| == |fields| && k < |fields| && !verdicts[k].Rejected? && !verdicts[k].Blank?
    ensures var r := Tally(fields, verdicts, country); Carries(r.values, r.files.Keys, fields[k].name)
  {
    var n := |fields| - 1;
    if k < n { TallyCarries(fields[..n], verdicts[..n], country, k); }
  }

  /** A follow-up, at any depth, whose trigger was not posted is never recorded or reported. */
  lemma UntriggeredIsNeverRecorded(fields: seq<Field>, p: Posting, f: Field, name: string)
    requires Distinct(fields) && Within(f, fields) && !Triggered(f, p.form) && name in AllNames(f.followUps)
    requires name != PHONE_COUNTRY
    ensures var r := Validated(Revealed(fields, p.form), p);
            name !in r.values && name !in r.files && name !in r.errors
  {
    var shown := Revealed(fields, p.form);
    UntriggeredStaysHidden(fields, p.form, f, name);
    KeysAreNames(shown, Judgements(shown, p), PhoneCountry(p));
  }
}
