/** What becomes of each question in a report, said from the posting alone. */
module ValidationExact {
  import opened Wrappers
  import opened Text
  import opened Countries
  import opened Fields
  import opened Validation
  import opened ValidationTheorems

  // ---- Files ---------------------------------------------------------------------------------------------

  /** The first upload under the name that has a file name. */
  predicate FirstNamed(p: Posting, name: string, u: Upload) {
    && name in p.uploads
    && exists k :: 0 <= k < |p.uploads[name]| && p.uploads[name][k] == u && u.filename != ""
                   && forall j :: 0 <= j < k ==> p.uploads[name][j].filename == ""
  }

  predicate NoneNamed(p: Posting, name: string) {
    name in p.uploads ==> forall k :: 0 <= k < |p.uploads[name]| ==> p.uploads[name][k].filename == ""
  }

  ghost predicate IsDocument(u: Upload) {
    exists stem: string, extension: string :: Lower(u.filename) == stem + extension && extension in [".pdf", ".doc", ".docx", ".txt"]
  }

  /** What is wrong with an upload, if anything. */
  ghost predicate UploadIs(u: Upload, error: Option<Message>) {
    match error
    case Some(WrongType) => !IsDocument(u)
    case Some(EmptyFile) => IsDocument(u) && u.data == ""
    case Some(TooLarge) => IsDocument(u) && |u.data| > 5 * 1024 * 1024
    case None => IsDocument(u) && 0 < |u.data| <= 5 * 1024 * 1024
    case _ => false
  }

  ghost predicate FileOutcome(f: Field, p: Posting, v: Verdict) {
    if exists u :: FirstNamed(p, f.name, u) then
      exists u :: FirstNamed(p, f.name, u) && if v.Rejected? then UploadIs(u, Some(v.message)) else v == Filed(New(u)) && UploadIs(u, None)
    else if f.name in p.retained then v == Filed(Retained(p.retained[f.name]))
    else v == if f.required then Rejected(Missing) else Blank
  }

  // ---- Choices -------------------------------------------------------------------------------------------

  predicate Offered(f: Field, v: string) { Choice(v, false) in f.options }

  /** How many of the first `n` values are not empty. */
  function Before(values: seq<string>, n: nat): (count: nat)
    requires n <= |values|
    ensures count <= n
  {
    if n == 0 then 0 else Before(values, n - 1) + if values[n - 1] != "" then 1 else 0
  }

  /** The list holds the nonempty values, each as often as posted and in their order: it is as long as
      there are any, and each stands behind as many as were posted before it. */
  predicate Keeps(values: seq<string>, kept: seq<string>) {
    |kept| == Before(values, |values|) && forall j :: 0 <= j < |values| ==> Stands(values, kept, j)
  }

  predicate Stands(values: seq<string>, kept: seq<string>, j: nat)
    requires j < |values|
  {
    values[j] != "" ==> Before(values, j) < |kept| && kept[Before(values, j)] == values[j]
  }

  ghost predicate ChoicesOutcome(f: Field, p: Posting, v: Verdict) {
    var posted := if f.name in p.form then p.form[f.name] else [];
    if exists k :: 0 <= k < |posted| && posted[k] != "" && !Offered(f, posted[k]) then v == Rejected(NotListed)
    else if exists k :: 0 <= k < |posted| && posted[k] != "" then v.Chosen? && Keeps(posted, v.choices)
    else v == if f.required then Rejected(Missing) else Blank
  }

  // ---- Text ----------------------------------------------------------------------------------------------

  /** One of the values posted under the name is this answer, between white space. */
  predicate Answers(p: Posting, name: string, a: string) {
    a != "" && name in p.form && exists k :: 0 <= k < |p.form[name]| && Strip(p.form[name][k]) == a
  }

  /** The country the widget posted, and the dial code of the first country of that name in the table. */
  function Country(p: Posting): string {
    if PHONE_COUNTRY in p.form && |p.form[PHONE_COUNTRY]| > 0 then p.form[PHONE_COUNTRY][0] else ""
  }

  predicate DialCode(p: Posting, code: string) {
    exists i :: 0 <= i < |p.rules.countries| && p.rules.countries[i] == Countries.Country(Country(p), code)
                && forall j :: 0 <= j < i ==> p.rules.countries[j].iso != Country(p)
  }

  /** The national digits of the number: all of them, or what follows the country's code after a plus sign. */
  ghost predicate National(p: Posting, a: string, national: string) {
    if "+" <= Strip(a) then exists code :: DialCode(p, code) && Digits(a) == code + national
    else national == Digits(a)
  }

  /** `^[^@\s]+@[^@\s]+\.[^@\s]+$` */
  ghost predicate IsEmail(a: string) {
    exists local: string, domain: string, top: string ::
      && a == local + "@" + domain + "." + top && local != "" && domain != "" && top != ""
      && forall i :: 0 <= i < |local + domain + top| ==> !IsSpace((local + domain + top)[i]) && (local + domain + top)[i] != '@'
  }

  /** What the checks before the one for length object to, in their order. */
  ghost predicate Objects(f: Field, a: string, p: Posting, m: Message) {
    if f.options != [] && !Offered(f, a) then m.NotListed?
    else
      match m
      case CountryMismatch => f.kind.IntlTel? && !exists national :: National(p, a, national)
      case NotUs => f.kind.IntlTel? && (exists national :: National(p, a, national)) && Country(p) != "us"
      case NotTenDigits => f.kind.IntlTel? && (exists national :: National(p, a, national) && |national| != 10) && Country(p) == "us"
      case BadBox => f.kind.Checkbox? && a != "yes"
      case BadEmail => f.kind.Email? && !IsEmail(a)
      case BadUrl => f.kind.Url? && !("https://" <= a) && !("http://" <= a)
      case BadPhone => f.kind.Tel? && p.rules.strictPhone && !(|a| == 10 && Digits(a) == a)
      case _ => false
  }

  ghost predicate TextOutcome(f: Field, p: Posting, v: Verdict) {
    if exists a, b :: Answers(p, f.name, a) && Answers(p, f.name, b) && a != b then v == Rejected(NotSingle)
    else if exists a :: Answers(p, f.name, a) then
      exists a :: Answers(p, f.name, a)
        && if exists m :: Objects(f, a, p, m) then v.Rejected? && Objects(f, a, p, v.message)
           else v == if |a| > 5000 then Rejected(TooLong) else Told(a)
    else v == if f.required then Rejected(Missing) else Blank
  }

  /** What becomes of a question. */
  ghost predicate Outcome(f: Field, p: Posting, v: Verdict) {
    if f.disabled || f.unnamed then v == Blank
    else
      match f.kind
      case File => FileOutcome(f, p, v)
      case CustomFile => FileOutcome(f, p, v)
      case LabelFile => FileOutcome(f, p, v)
      case CheckboxGroup => ChoicesOutcome(f, p, v)
      case MultiSelect => ChoicesOutcome(f, p, v)
      case ReactMulti => ChoicesOutcome(f, p, v)
      case _ => TextOutcome(f, p, v)
  }

  // ---- The verdicts have these outcomes ---------------------------------------------------------------

  lemma {:induction false} NamedIs(uploads: seq<Upload>)
    ensures Named(uploads) == [] <==> forall k :: 0 <= k < |uploads| ==> uploads[k].filename == ""
    ensures Named(uploads) != [] ==>
              exists k :: 0 <= k < |uploads| && uploads[k] == Named(uploads)[0] && uploads[k].filename != ""
                          && forall j :: 0 <= j < k ==> uploads[j].filename == ""
  {
    if uploads != [] && uploads[0].filename == "" {
      NamedIs(uploads[1..]);
      assert forall k :: 0 < k < |uploads| ==> uploads[k] == uploads[1..][k - 1];
      if Named(uploads) != [] {
        var k :| 0 <= k < |uploads[1..]| && uploads[1..][k] == Named(uploads)[0] && uploads[1..][k].filename != ""
                 && forall j :: 0 <= j < k ==> uploads[1..][j].filename == "";
        assert uploads[k + 1] == Named(uploads)[0] && forall j :: 0 <= j < k + 1 ==> uploads[j].filename == "";
      }
    }
  }

  lemma {:induction false} EndIs(s: string, extension: string)
    ensures EndsWith(s, extension) <==> exists stem: string :: s == stem + extension
  {
    if EndsWith(s, extension) { assert s == s[..|s| - |extension|] + extension; }
    if stem: string :| s == stem + extension { assert s[|s| - |extension|..] == extension; }
  }

  lemma {:induction false} UploadErrorIs(u: Upload)
    ensures UploadIs(u, UploadError(u))
  {
    var name := Lower(u.filename);
    EndIs(name, ".pdf");
    EndIs(name, ".doc");
    EndIs(name, ".docx");
    EndIs(name, ".txt");
    assert IsDocument(u) <==> EndsWith(name, ".pdf") || EndsWith(name, ".doc") || EndsWith(name, ".docx") || EndsWith(name, ".txt");
  }

  lemma {:induction false} FileVerdictIs(f: Field, p: Posting)
    ensures FileOutcome(f, p, FileVerdict(f, p))
  {
    var uploads := if f.name in p.uploads then p.uploads[f.name] else [];
    NamedIs(uploads);
    if Uploaded(p, f.name) != [] {
      var u := Uploaded(p, f.name)[0];
      assert FirstNamed(p, f.name, u);
      UploadErrorIs(u);
    }
  }

  lemma ListedIs(f: Field, v: string)
    ensures Listed(f, v) <==> Offered(f, v)
  {
  }

  lemma {:induction false} NonEmptyMore(values: seq<string>, v: string)
    ensures NonEmpty(values + [v]) == NonEmpty(values) + if v != "" then [v] else []
  {
    if values == [] {
      assert values + [v] == [v] && [v][1..] == [];
    } else {
      NonEmptyMore(values[1..], v);
      assert (values + [v])[1..] == values[1..] + [v];
    }
  }

  lemma {:induction false} BeforeOfPrefix(values: seq<string>, m: nat, n: nat)
    requires n <= m <= |values|
    ensures Before(values[..m], n) == Before(values, n)
  {
    if n > 0 { BeforeOfPrefix(values, m, n - 1); }
  }

  /** The nonempty values are kept, each as often as posted and in their order; nothing else keeps them. */
  lemma {:induction false} NonEmptyKeeps(values: seq<string>, kept: seq<string>)
    ensures Keeps(values, kept) <==> kept == NonEmpty(values)
  {
    if values != [] {
      var m := |values| - 1;
      var less := values[..m];
      assert values == less + [values[m]];
      NonEmptyMore(less, values[m]);
      forall j | 0 <= j <= m ensures Before(less, j) == Before(values, j) { BeforeOfPrefix(values, m, j); }
      if values[m] == "" {
        NonEmptyKeeps(less, kept);
        assert forall j :: 0 <= j < m ==> (Stands(values, kept, j) <==> Stands(less, kept, j));
        assert Stands(values, kept, m);
      } else if kept != [] {
        var n := |kept| - 1;
        NonEmptyKeeps(less, kept[..n]);
        KeepsOneMore(values, kept);
        assert kept == kept[..n] + [kept[n]];
      }
    }
  }

  lemma {:induction false} StandsAlike(values: seq<string>, kept: seq<string>, m: nat, j: nat)
    requires j < m < |values| && |kept| == Before(values, m) + 1
    ensures Stands(values, kept, j) <==> Stands(values[..m], kept[..|kept| - 1], j)
  {
    BeforeOfPrefix(values, m, j);
    if values[j] != "" { BeforeGrows(values, j, m); }
  }

  lemma {:induction false} KeepsOneMore(values: seq<string>, kept: seq<string>)
    requires values != [] && values[|values| - 1] != "" && kept != []
    ensures Keeps(values, kept) <==> Keeps(values[..|values| - 1], kept[..|kept| - 1]) && kept[|kept| - 1] == values[|values| - 1]
  {
    var m, n := |values| - 1, |kept| - 1;
    BeforeOfPrefix(values, m, m);
    if |kept| == Before(values, m) + 1 {
      forall j | 0 <= j < m ensures Stands(values, kept, j) <==> Stands(values[..m], kept[..n], j) { StandsAlike(values, kept, m, j); }
      assert Stands(values, kept, m) <==> kept[n] == values[m];
    }
  }

  lemma {:induction false} BeforeGrows(values: seq<string>, j: nat, n: nat)
    requires j < n <= |values| && values[j] != ""
    ensures Before(values, j) < Before(values, n)
  {
    if j < n - 1 { BeforeGrows(values, j, n - 1); }
  }

  lemma {:induction false} ChoicesVerdictIs(f: Field, p: Posting)
    ensures ChoicesOutcome(f, p, ChoicesVerdict(f, p))
  {
    var posted := Posted(p.form, f.name);
    var chosen := NonEmpty(posted);
    NonEmptyKeeps(posted, chosen);
    forall v ensures Listed(f, v) <==> Offered(f, v) { ListedIs(f, v); }
    if k :| 0 <= k < |posted| && posted[k] != "" { assert posted[k] in posted && posted[k] in chosen; }
    if chosen != [] { assert chosen[0] in chosen; }
  }

  lemma {:induction false} FirstOfCountry(countries: seq<Country>, iso: string)
    ensures ByIso(countries, iso).None? <==> forall j :: 0 <= j < |countries| ==> countries[j].iso != iso
    ensures ByIso(countries, iso).Some? ==>
              exists i :: 0 <= i < |countries| && countries[i] == ByIso(countries, iso).value && countries[i].iso == iso
                          && forall j :: 0 <= j < i ==> countries[j].iso != iso
  {
    if countries != [] && countries[0].iso != iso {
      FirstOfCountry(countries[1..], iso);
      assert forall j :: 0 < j < |countries| ==> countries[j] == countries[1..][j - 1];
      if ByIso(countries, iso).Some? {
        var i :| 0 <= i < |countries[1..]| && countries[1..][i] == ByIso(countries, iso).value && countries[1..][i].iso == iso
                 && forall j :: 0 <= j < i ==> countries[1..][j].iso != iso;
        assert countries[i + 1] == ByIso(countries, iso).value && forall j :: 0 <= j < i + 1 ==> countries[j].iso != iso;
      }
    }
  }

  lemma {:induction false} DialCodeIs(p: Posting, code: string)
    ensures DialCode(p, code) <==> ByIso(p.rules.countries, Country(p)) == Some(Countries.Country(Country(p), code))
  {
    FirstOfCountry(p.rules.countries, Country(p));
  }

  lemma {:induction false} NationalIs(p: Posting, a: string, national: string)
    ensures var c := ByIso(p.rules.countries, Country(p));
            National(p, a, national)
            <==> if "+" <= Strip(a) then c.Some? && c.value.code <= Digits(a) && national == Digits(a)[|c.value.code|..] else national == Digits(a)
  {
    var c := ByIso(p.rules.countries, Country(p));
    FirstOfCountry(p.rules.countries, Country(p));
    forall code ensures DialCode(p, code) <==> c == Some(Countries.Country(Country(p), code)) { DialCodeIs(p, code); }
    if "+" <= Strip(a) && c.Some? {
      var code := c.value.code;
      assert c == Some(Countries.Country(Country(p), code));
      assert code <= Digits(a) ==> Digits(a) == code + Digits(a)[|code|..];
      assert Digits(a) == code + national ==> code <= Digits(a) && Digits(a)[|code|..] == national;
    }
  }

  lemma {:induction false} PhoneErrorIs(f: Field, a: string, p: Posting)
    requires f.kind.IntlTel? && (f.options != [] ==> Offered(f, a))
    ensures var e := IntlPhoneError(a, Country(p), p.rules.countries);
            forall m :: Objects(f, a, p, m) <==> e == Some(m)
  {
    var c, digits := ByIso(p.rules.countries, Country(p)), Digits(a);
    forall national
      ensures National(p, a, national)
              <==> if "+" <= Strip(a) then c.Some? && c.value.code <= digits && national == digits[|c.value.code|..] else national == digits
    {
      NationalIs(p, a, national);
    }
    if "+" <= Strip(a) {
      if c.Some? && c.value.code <= digits { assert National(p, a, digits[|c.value.code|..]); }
    } else {
      assert National(p, a, digits);
    }
  }

  lemma {:induction false} EmailIs(a: string)
    ensures EmailOk(a) <==> IsEmail(a)
  {
    if EmailOk(a) { PartsOfEmail(a); }
    if local: string, domain: string, top: string :|
      a == local + "@" + domain + "." + top && local != "" && domain != "" && top != ""
      && forall i :: 0 <= i < |local + domain + top| ==> !IsSpace((local + domain + top)[i]) && (local + domain + top)[i] != '@'
    {
      EmailOfParts(a, local, domain, top);
    }
  }

  lemma {:induction false} PartsOfEmail(a: string)
    requires EmailOk(a)
    ensures IsEmail(a)
  {
    var at :| 0 < at < |a| && a[at] == '@' && (forall i :: 0 <= i < |a| && i != at ==> a[i] != '@')
              && exists dot :: at + 1 < dot < |a| - 1 && a[dot] == '.';
    var dot :| at + 1 < dot < |a| - 1 && a[dot] == '.';
    var local, domain, top := a[..at], a[at + 1..dot], a[dot + 1..];
    assert a == local + "@" + domain + "." + top;
    var all := local + domain + top;
    forall i | 0 <= i < |all| ensures !IsSpace(all[i]) && all[i] != '@' {
      if i < at {
        assert all[i] == a[i];
      } else if i < dot - 1 {
        assert all[i] == domain[i - at] == a[i + 1];
      } else {
        assert all[i] == top[i - (dot - 1)] == a[i + 2];
      }
    }
  }

  lemma {:induction false} EmailOfParts(a: string, local: string, domain: string, top: string)
    requires a == local + "@" + domain + "." + top && local != "" && domain != "" && top != ""
    requires forall i :: 0 <= i < |local + domain + top| ==> !IsSpace((local + domain + top)[i]) && (local + domain + top)[i] != '@'
    ensures EmailOk(a)
  {
    var at, dot := |local|, |local| + 1 + |domain|;
    var all := local + domain + top;
    assert a[at] == '@' && a[dot] == '.';
    forall j | 0 <= j < |a| && j != at ensures !IsSpace(a[j]) && a[j] != '@' {
      if j != dot {
        var i := if j < at then j else if j < dot then j - 1 else j - 2;
        assert a[j] == all[i];
      }
    }
  }

  lemma {:induction false} TenDigitsIs(a: string)
    ensures TenDigits(a) <==> |a| == 10 && Digits(a) == a
  {
    if TenDigits(a) { DigitsOfDigits(a); }
    if Digits(a) == a { assert forall i :: 0 <= i < |a| ==> IsDigit(Digits(a)[i]); }
  }

  /** The first error of the checks, in their order. */
  lemma {:induction false} FormatErrorIs(f: Field, a: string, p: Posting)
    ensures FormatError(f, a, p) == None <==> |a| <= 5000 && !exists m :: Objects(f, a, p, m)
    ensures forall m :: Objects(f, a, p, m) ==> FormatError(f, a, p) == Some(m)
    ensures FormatError(f, a, p).Some? && !(exists m :: Objects(f, a, p, m)) ==> FormatError(f, a, p) == Some(TooLong)
  {
    ListedIs(f, a);
    if f.options != [] && !Offered(f, a) {
      assert Objects(f, a, p, NotListed);
    } else if f.kind.IntlTel? {
      PhoneErrorIs(f, a, p);
      assert PhoneCountry(p) == Country(p);
      var e := IntlPhoneError(a, Country(p), p.rules.countries);
      if e.Some? { assert Objects(f, a, p, e.value); }
    } else {
      EmailIs(a);
      TenDigitsIs(a);
      if f.kind.Checkbox? && a != "yes" { assert Objects(f, a, p, BadBox); }
      if f.kind.Email? && !IsEmail(a) { assert Objects(f, a, p, BadEmail); }
      if f.kind.Url? && !("https://" <= a) && !("http://" <= a) { assert Objects(f, a, p, BadUrl); }
      if f.kind.Tel? && p.rules.strictPhone && !TenDigits(a) { assert Objects(f, a, p, BadPhone); }
    }
  }

  lemma {:induction false} AnswersAre(p: Posting, name: string, a: string)
    ensures Answers(p, name, a) <==> a in Stripped(Posted(p.form, name))
  {
    var posted := Posted(p.form, name);
    if v :| v in posted && Strip(v) == a && a != "" {
      var k :| 0 <= k < |posted| && posted[k] == v;
      assert Strip(p.form[name][k]) == a;
    }
  }

  lemma {:induction false} TextVerdictIs(f: Field, p: Posting)
    ensures TextOutcome(f, p, TextVerdict(f, p))
  {
    var answers := Stripped(Posted(p.form, f.name));
    forall a ensures Answers(p, f.name, a) <==> a in answers { AnswersAre(p, f.name, a); }
    if |answers| > 1 {
      var a :| a in answers;
      AnotherMember(answers, a);
    } else if answers != {} {
      var a :| a in answers;
      OnlyMember(answers, a);
      FormatErrorIs(f, a, p);
      assert Answers(p, f.name, a);
    }
  }

  lemma {:induction false} JudgeIs(f: Field, p: Posting)
    ensures Outcome(f, p, Judge(f, p))
  {
    if f.TakesFile() { FileVerdictIs(f, p); } else if f.Multi() { ChoicesVerdictIs(f, p); } else { TextVerdictIs(f, p); }
  }

  // ---- An outcome is the only one -------------------------------------------------------------------------

  lemma {:induction false} FirstNamedIsOne(p: Posting, name: string, u: Upload, v: Upload)
    requires FirstNamed(p, name, u) && FirstNamed(p, name, v)
    ensures u == v
  {
  }

  /** The posting leaves no choice of what becomes of a question. */
  lemma {:induction false} OutcomeIsOne(f: Field, p: Posting, v: Verdict)
    requires Outcome(f, p, v)
    ensures v == Judge(f, p)
  {
    var w := Judge(f, p);
    JudgeIs(f, p);
    if f.disabled || f.unnamed {
    } else if f.TakesFile() {
      FileOutcomeIsOne(f, p, v, w);
    } else if f.Multi() {
      ChoicesOutcomeIsOne(f, p, v, w);
    } else if a :| Answers(p, f.name, a) {
      FormatErrorIs(f, a, p);
    }
  }

  lemma {:induction false} ChoicesOutcomeIsOne(f: Field, p: Posting, v: Verdict, w: Verdict)
    requires ChoicesOutcome(f, p, v) && ChoicesOutcome(f, p, w)
    ensures v == w
  {
    var posted := if f.name in p.form then p.form[f.name] else [];
    if v.Chosen? && w.Chosen? {
      NonEmptyKeeps(posted, v.choices);
      NonEmptyKeeps(posted, w.choices);
    }
  }

  lemma {:induction false} FileOutcomeIsOne(f: Field, p: Posting, v: Verdict, w: Verdict)
    requires FileOutcome(f, p, v) && FileOutcome(f, p, w)
    ensures v == w
  {
    if u :| FirstNamed(p, f.name, u) {
      forall x | FirstNamed(p, f.name, x) ensures x == u { FirstNamedIsOne(p, f.name, x, u); }
    }
  }

  // ---- The report -----------------------------------------------------------------------------------------------

  /** Some phone widget was told a number. */
  ghost predicate PhoneAnswered(fields: seq<Field>, p: Posting) {
    exists k, a :: 0 <= k < |fields| && fields[k].kind.IntlTel? && Outcome(fields[k], p, Told(a))
  }

  /** The report says of each question what the posting makes of it: its one error and message, or its
      recorded answer or file, or nothing. */
  lemma {:induction false} ReportIsAsPosted(fields: seq<Field>, p: Posting, k: nat)
    requires DistinctNames(fields) && k < |fields|
    ensures var r, name := Validated(fields, p), fields[k].name;
            exists v :: Outcome(fields[k], p, v) && Reports(r, name, v)
                        && (name != PHONE_COUNTRY || !PhoneAnswered(fields, p) ==> Holds(r.values, name, ValueOf(v)))
  {
    var verdicts := Judgements(fields, p);
    JudgeIs(fields[k], p);
    TallyIsExact(fields, verdicts, PhoneCountry(p), k);
    if PhoneTold(fields, verdicts) {
      var i :| 0 <= i < |fields| && fields[i].kind.IntlTel? && verdicts[i].Told?;
      JudgeIs(fields[i], p);
      assert Outcome(fields[i], p, Told(verdicts[i].text));
    }
  }

  lemma {:induction false} CountryIsNoted(fields: seq<Field>, verdicts: seq<Verdict>, country: string)
    requires |verdicts| == |fields| && forall k :: 0 <= k < |fields| ==> fields[k].name != PHONE_COUNTRY
    ensures var r := Tally(fields, verdicts, country);
            Holds(r.values, PHONE_COUNTRY, if PhoneTold(fields, verdicts) then Some(One(country)) else None)
  {
    if fields != [] {
      var n := |fields| - 1;
      CountryIsNoted(fields[..n], verdicts[..n], country);
      assert PhoneTold(fields[..n], verdicts[..n]) ==> PhoneTold(fields, verdicts);
      if PhoneTold(fields, verdicts) && !(fields[n].kind.IntlTel? && verdicts[n].Told?) {
        var i :| 0 <= i < |fields| && fields[i].kind.IntlTel? && verdicts[i].Told?;
        assert fields[..n][i] == fields[i] && verdicts[..n][i] == verdicts[i];
      }
    }
  }

  /** Beside an accepted phone number the report holds the first country posted, and only then. */
  lemma {:induction false} CountryIsAsPosted(fields: seq<Field>, p: Posting)
    requires forall k :: 0 <= k < |fields| ==> fields[k].name != PHONE_COUNTRY
    ensures Holds(Validated(fields, p).values, PHONE_COUNTRY, if PhoneAnswered(fields, p) then Some(One(Country(p))) else None)
  {
    var verdicts := Judgements(fields, p);
    CountryIsNoted(fields, verdicts, PhoneCountry(p));
    if k, a :| 0 <= k < |fields| && fields[k].kind.IntlTel? && Outcome(fields[k], p, Told(a)) {
      OutcomeIsOne(fields[k], p, Told(a));
      assert verdicts[k].Told?;
    }
    if PhoneTold(fields, verdicts) {
      var i :| 0 <= i < |fields| && fields[i].kind.IntlTel? && verdicts[i].Told?;
      JudgeIs(fields[i], p);
      assert Outcome(fields[i], p, Told(verdicts[i].text));
    }
  }

  // ---- Fields that a box takes away ------------------------------------------------------------------------

  /** No value but empty ones is posted under the name. */
  predicate NothingPosted(p: Posting, name: string) {
    name in p.form ==> forall k :: 0 <= k < |p.form[name]| ==> p.form[name][k] == ""
  }

  /** Nothing is posted, attached or retained that answers the question. */
  predicate Unanswered(f: Field, p: Posting) {
    if f.TakesFile() then NoneNamed(p, f.name) && f.name !in p.retained
    else if f.Multi() then NothingPosted(p, f.name)
    else f.name in p.form ==> forall k :: 0 <= k < |p.form[f.name]| ==> Strip(p.form[f.name][k]) == ""
  }

  lemma {:induction false} MissingFile(f: Field, p: Posting)
    requires f.TakesFile()
    ensures FileVerdict(f, p) == Rejected(Missing) <==> f.required && Unanswered(f, p)
  {
    var uploads := if f.name in p.uploads then p.uploads[f.name] else [];
    NamedIs(uploads);
    if Uploaded(p, f.name) != [] { UploadErrorIs(Uploaded(p, f.name)[0]); }
  }

  lemma {:induction false} MissingChoices(f: Field, p: Posting)
    requires f.Multi() && !f.TakesFile()
    ensures ChoicesVerdict(f, p) == Rejected(Missing) <==> f.required && Unanswered(f, p)
  {
    ChoicesVerdictIs(f, p);
  }

  lemma {:induction false} MissingText(f: Field, p: Posting)
    requires !f.Multi() && !f.TakesFile()
    ensures TextVerdict(f, p) == Rejected(Missing) <==> f.required && Unanswered(f, p)
  {
    TextVerdictIs(f, p);
    if Unanswered(f, p) {
      assert !exists a :: Answers(p, f.name, a);
    } else {
      var k :| 0 <= k < |p.form[f.name]| && Strip(p.form[f.name][k]) != "";
      var a := Strip(p.form[f.name][k]);
      assert Answers(p, f.name, a);
      AnswersAre(p, f.name, a);
      forall b ensures FormatError(f, b, p) != Some(Missing) { FormatErrorIs(f, b, p); }
    }
  }

  lemma {:induction false} MissingVerdict(f: Field, p: Posting)
    ensures Judge(f, p) == Rejected(Missing) <==> !f.disabled && !f.unnamed && f.required && Unanswered(f, p)
  {
    if f.TakesFile() { MissingFile(f, p); } else if f.Multi() { MissingChoices(f, p); } else { MissingText(f, p); }
  }

  /** A question is reported as missing exactly if it is shown, is required as it is shown, which a
      filled group can make it and a checked box can lift, and nothing answers it. */
  lemma {:induction false} MissingExactly(fields: seq<Field>, p: Posting, f: Field)
    requires Distinct(fields) && Within(f, fields)
    ensures var shown := Revealed(fields, p.form);
            Holds(Validated(shown, p).errors, f.name, Some(Missing))
            <==> && f.name in Names(shown) && !f.disabled && !f.unnamed
                 && (f.required || Filled(p.form, f.requiredAfter)) && !Filled(p.form, f.disabledBy)
                 && Unanswered(f, p)
  {
    var shown := Revealed(fields, p.form);
    ShownAreDistinct(fields, p.form);
    if f.name in Names(shown) {
      var k :| 0 <= k < |shown| && shown[k].name == f.name;
      var g := shown[k];
      ShownExactly(fields, p.form, f, g);
      MissingVerdict(g, p);
      assert Unanswered(g, p) <==> Unanswered(f, p);
      MissingIsReported(shown, p, k);
    } else {
      KeysAreNames(shown, Judgements(shown, p), PhoneCountry(p));
    }
  }

  lemma {:induction false} MissingIsReported(fields: seq<Field>, p: Posting, k: nat)
    requires DistinctNames(fields) && k < |fields|
    ensures Holds(Validated(fields, p).errors, fields[k].name, Some(Missing)) <==> Judge(fields[k], p) == Rejected(Missing)
  {
    TallyIsExact(fields, Judgements(fields, p), PhoneCountry(p), k);
  }
}
