/** `validate` of `scripts/mock_ats.py`. */
module Validation {
  import opened Wrappers
  import opened Text
  import opened Countries
  import opened Fields

  const MAX_TEXT_CHARS := 5000
  const PHONE_COUNTRY := "phone_country"
  const MAX_UPLOAD_BYTES := 5 * 1024 * 1024

  datatype Upload = Upload(filename: string, data: string)

  /** What is kept of an upload once it is stored. */
  type Meta = nat

  datatype Attached = New(upload: Upload) | Retained(meta: Meta)

  datatype Value = One(text: string) | Many(choices: seq<string>)

  datatype Message =
    | Missing | WrongType | EmptyFile | TooLarge
    | NotListed | NotSingle | BadBox | BadEmail | BadUrl | BadPhone | TooLong
    | CountryMismatch | NotUs | NotTenDigits

  /** Everything a request posts beside the field definitions. */
  datatype Posting = Posting(
    form: Form,
    uploads: map<string, seq<Upload>>,
    retained: map<string, Meta>,
    rules: Rules)

  /** What the server validates by: the job's phone format, and the country table. */
  datatype Rules = Rules(strictPhone: bool, countries: seq<Country>)

  datatype Report = Report(values: map<string, Value>, files: map<string, Attached>, errors: map<string, Message>)

  // ---- Formats ------------------------------------------------------------------------------------

  predicate EndsWith(s: string, tail: string) {
    |tail| <= |s| && s[|s| - |tail|..] == tail
  }

  function UploadError(u: Upload): Option<Message> {
    var name := Lower(u.filename);
    if !(EndsWith(name, ".pdf") || EndsWith(name, ".doc") || EndsWith(name, ".docx") || EndsWith(name, ".txt")) then Some(WrongType)
    else if u.data == "" then Some(EmptyFile)
    else if |u.data| > MAX_UPLOAD_BYTES then Some(TooLarge)
    else None
  }

  /** `^[^@\s]+@[^@\s]+\.[^@\s]+$` */
  predicate EmailOk(v: string) {
    && (forall i :: 0 <= i < |v| ==> !IsSpace(v[i]))
    && exists at :: 0 < at < |v| && v[at] == '@'
         && (forall i :: 0 <= i < |v| && i != at ==> v[i] != '@')
         && exists dot :: at + 1 < dot < |v| - 1 && v[dot] == '.'
  }

  predicate TenDigits(v: string) {
    |v| == 10 && forall i :: 0 <= i < |v| ==> IsDigit(v[i])
  }

  function First(values: seq<string>): string {
    if values == [] then "" else values[0]
  }

  /** `_intl_phone_error`. */
  function IntlPhoneError(value: string, country: string, countries: seq<Country>): Option<Message> {
    var digits := Digits(value);
    var c := ByIso(countries, country);
    var international := "+" <= Strip(value);
    if international && !(c.Some? && c.value.code <= digits) then Some(CountryMismatch)
    else
      var national := if international then digits[|c.value.code|..] else digits;
      if country != "us" then Some(NotUs)
      else if |national| != 10 then Some(NotTenDigits)
      else None
  }

  function PhoneCountry(p: Posting): string { First(Posted(p.form, PHONE_COUNTRY)) }

  function FormatError(f: Field, v: string, p: Posting): Option<Message> {
    if f.options != [] && !Listed(f, v) then Some(NotListed)
    else if f.kind.IntlTel? && IntlPhoneError(v, PhoneCountry(p), p.rules.countries).Some?
    then IntlPhoneError(v, PhoneCountry(p), p.rules.countries)
    else if f.kind.Checkbox? && v != "yes" then Some(BadBox)
    else if f.kind.Email? && !EmailOk(v) then Some(BadEmail)
    else if f.kind.Url? && !("https://" <= v || "http://" <= v) then Some(BadUrl)
    else if f.kind.Tel? && p.rules.strictPhone && !TenDigits(v) then Some(BadPhone)
    else if |v| > MAX_TEXT_CHARS then Some(TooLong)
    else None
  }

  /** The value is an option that can be chosen. */
  predicate Listed(f: Field, v: string) {
    exists i :: 0 <= i < |f.options| && f.options[i].value == v && !f.options[i].disabled
  }

  // ---- One field ------------------------------------------------------------------------------------

  datatype Verdict =
    | Blank
    | Rejected(message: Message)
    | Filed(attached: Attached)
    | Chosen(choices: seq<string>)
    | Told(text: string)

  function Named(uploads: seq<Upload>): seq<Upload> {
    if uploads == [] then []
    else if uploads[0].filename != "" then [uploads[0]] + Named(uploads[1..]) else Named(uploads[1..])
  }

  function Uploaded(p: Posting, name: string): seq<Upload> {
    Named(if name in p.uploads then p.uploads[name] else [])
  }

  /** The distinct answers left after stripping. */
  function Stripped(values: seq<string>): (r: set<string>)
    ensures forall a :: a in r <==> a != "" && exists v :: v in values && Strip(v) == a
  {
    set v | v in values && Strip(v) != "" :: Strip(v)
  }

  predicate Active(f: Field) { !f.disabled && !f.unnamed }

  function IfRequired(f: Field): Verdict { if f.required then Rejected(Missing) else Blank }

  function FileVerdict(f: Field, p: Posting): Verdict {
    var attached := Uploaded(p, f.name);
    if attached != [] then
      (match UploadError(attached[0])
       case Some(m) => Rejected(m)
       case None => Filed(New(attached[0])))
    else if f.name in p.retained then Filed(Retained(p.retained[f.name]))
    else IfRequired(f)
  }

  function ChoicesVerdict(f: Field, p: Posting): Verdict {
    var chosen := NonEmpty(Posted(p.form, f.name));
    if exists v :: v in chosen && !Listed(f, v) then Rejected(NotListed)
    else if chosen != [] then Chosen(chosen)
    else IfRequired(f)
  }

  ghost function TextVerdict(f: Field, p: Posting): Verdict {
    var answers := Stripped(Posted(p.form, f.name));
    if |answers| > 1 then Rejected(NotSingle)
    else if answers == {} then IfRequired(f)
    else
      var answer :| answer in answers;
      match FormatError(f, answer, p)
      case Some(m) => Rejected(m)
      case None => Told(answer)
  }

  ghost function Judge(f: Field, p: Posting): Verdict {
    if !Active(f) then Blank
    else if f.TakesFile() then FileVerdict(f, p)
    else if f.Multi() then ChoicesVerdict(f, p)
    else TextVerdict(f, p)
  }

  // ---- The whole form ---------------------------------------------------------------------------------

  /** A verdict entered in the report. An accepted phone number also records its widget's country. */
  function Noted(r: Report, f: Field, v: Verdict, country: string): Report {
    match v
    case Blank => r
    case Rejected(m) => r.(errors := r.errors[f.name := m])
    case Filed(a) => r.(files := r.files[f.name := a])
    case Chosen(cs) => r.(values := r.values[f.name := Many(cs)])
    case Told(t) =>
      var values := r.values[f.name := One(t)];
      r.(values := if f.kind.IntlTel? then values[PHONE_COUNTRY := One(country)] else values)
  }

  function Tally(fields: seq<Field>, verdicts: seq<Verdict>, country: string): Report
    requires |verdicts| == |fields|
  {
    if fields == [] then Report(map[], map[], map[])
    else
      var n := |fields| - 1;
      Noted(Tally(fields[..n], verdicts[..n], country), fields[n], verdicts[n], country)
  }

  ghost function Judgements(fields: seq<Field>, p: Posting): (r: seq<Verdict>)
    ensures |r| == |fields|
  {
    seq(|fields|, i requires 0 <= i < |fields| => Judge(fields[i], p))
  }

  ghost function Validated(fields: seq<Field>, p: Posting): Report {
    Tally(fields, Judgements(fields, p), PhoneCountry(p))
  }

  method Validate(fields: seq<Field>, p: Posting) returns (r: Report)
    ensures r == Validated(fields, p)
  {
    r := Report(map[], map[], map[]);
    ghost var verdicts := Judgements(fields, p);
    for k := 0 to |fields|
      invariant r == Tally(fields[..k], verdicts[..k], PhoneCountry(p))
    {
      assert fields[..k + 1][..k] == fields[..k] && verdicts[..k + 1][..k] == verdicts[..k];
      var f := fields[k];
      if !f.disabled && !f.unnamed {
        if f.TakesFile() {
          r := ValidateFile(r, f, p);
        } else if f.Multi() {
          r := ValidateChoices(r, f, p);
        } else {
          r := ValidateText(r, f, p);
        }
      }
    }
    assert fields[..|fields|] == fields && verdicts[..|fields|] == verdicts;
  }

  method ValidateFile(before: Report, f: Field, p: Posting) returns (r: Report)
    ensures r == Noted(before, f, FileVerdict(f, p), PhoneCountry(p))
  {
    r := before;
    var attached := Uploaded(p, f.name);
    if attached != [] {
      var error := UploadError(attached[0]);
      if error.Some? {
        r := r.(errors := r.errors[f.name := error.value]);
      } else {
        r := r.(files := r.files[f.name := New(attached[0])]);
      }
    } else if f.name in p.retained {
      r := r.(files := r.files[f.name := Retained(p.retained[f.name])]);
    } else if f.required {
      r := r.(errors := r.errors[f.name := Missing]);
    }
  }

  method ValidateChoices(before: Report, f: Field, p: Posting) returns (r: Report)
    ensures r == Noted(before, f, ChoicesVerdict(f, p), PhoneCountry(p))
  {
    r := before;
    var chosen := NonEmpty(Posted(p.form, f.name));
    if exists v :: v in chosen && !Listed(f, v) {
      r := r.(errors := r.errors[f.name := NotListed]);
    } else if chosen != [] {
      r := r.(values := r.values[f.name := Many(chosen)]);
    } else if f.required {
      r := r.(errors := r.errors[f.name := Missing]);
    }
  }

  method ValidateText(before: Report, f: Field, p: Posting) returns (r: Report)
    ensures r == Noted(before, f, TextVerdict(f, p), PhoneCountry(p))
  {
    r := before;
    var answers := Stripped(Posted(p.form, f.name));
    if |answers| > 1 {
      r := r.(errors := r.errors[f.name := NotSingle]);
      return;
    }
    if answers == {} {
      if f.required { r := r.(errors := r.errors[f.name := Missing]); }
      return;
    }
    var value :| value in answers;
    OnlyMember(answers, value);
    var error := FormatError(f, value, p);
    if error.Some? {
      r := r.(errors := r.errors[f.name := error.value]);
    } else {
      r := r.(values := r.values[f.name := One(value)]);
      if f.kind.IntlTel? {
        r := r.(values := r.values[PHONE_COUNTRY := One(PhoneCountry(p))]);
      }
    }
  }

  lemma OnlyMember(s: set<string>, a: string)
    requires a in s && |s| <= 1
    ensures forall b :: b in s ==> b == a
  {
    forall b | b in s ensures b == a {
      assert {a, b} <= s;
      if b != a { SubsetSize({a, b}, s); }
    }
  }

  lemma SubsetSize(a: set<string>, b: set<string>)
    requires a <= b
    ensures |a| <= |b|
  {
    assert b == a + (b - a);
  }
}
