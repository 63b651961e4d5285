/** Which answers a wizard page accepts, and what it says to the others, question by question. */
module WizardPages {
  import opened Wrappers
  import opened Text
  import opened JsonValues
  import opened Wizard

  // ---- What a question asks for ------------------------------------------------------------------------

  predicate Blank(v: Json) { v in {Null, Str(""), List([]), Bool(false), Number(0.0)} }

  /** The value of one of the options. */
  predicate OneOfValues(f: Field, v: Json) {
    exists i :: 0 <= i < |f.options| && v == Str(f.options[i].0)
  }

  /** A leaf of the tree or, without one, the label of one of the options. */
  predicate OneOfItems(f: Field, v: Json) {
    if f.tree != [] then exists i, j :: 0 <= i < |f.tree| && 0 <= j < |f.tree[i]| && v == Str(f.tree[i][j])
    else exists i :: 0 <= i < |f.options| && v == Str(f.options[i].1)
  }

  /** A list has its items; another value is one item. */
  function Items(v: Json): nat { if v.List? then |v.items| else 1 }

  function Item(v: Json, k: nat): Json
    requires k < Items(v)
  {
    if v.List? then v.items[k] else v
  }

  /** The number of characters that are digits. */
  function DigitCount(s: string): nat {
    if s == "" then 0 else DigitCount(s[..|s| - 1]) + if '0' <= s[|s| - 1] <= '9' then 1 else 0
  }

  /** An answer that is not blank is what the question asks for. */
  predicate Fits(f: Field, v: Json, checks: Checks) {
    match f.kind
    case Dropdown => OneOfValues(f, v)
    case Radio => OneOfValues(f, v)
    case Checkgroup => Items(v) == 1 && OneOfValues(f, Item(v, 0))
    case Prompt =>
      && Items(v) > 0 && (f.single ==> Items(v) == 1)
      && forall k :: 0 <= k < Items(v) ==> OneOfItems(f, Item(v, k))
    case Checkbox => v == Bool(true)
    case Date => checks.date(checks.str(v))
    case PhoneText =>
      var text := Strip(checks.str(v));
      (text == "" || text[0] != '+') && checks.phone(text) && DigitCount(text) == 10
    case EmailText => checks.email(checks.str(v))
    case PlainText => true
    case File => true
    case AddSection => true
  }

  /** What the page says to an answer that is not blank and does not fit. */
  function Reproach(f: Field, v: Json, checks: Checks): Message {
    match f.kind
    case Dropdown => NotListed
    case Radio => NotListed
    case Checkgroup => NotOneBox
    case Prompt => NotAnItem
    case Date => NotADate
    case PhoneText => if Strip(checks.str(v)) != "" && Strip(checks.str(v))[0] == '+' then CodeIncluded else NotTenDigits
    case EmailText => NotAnEmail
    case _ => Missing
  }

  /** The question is answered as it asks: a resume is there, or the answer fits, or nothing need be answered. */
  predicate Acceptable(f: Field, values: Answers, resume: Option<nat>, checks: Checks) {
    match f.kind
    case AddSection => true
    case File => f.required ==> resume.Some?
    case _ => if f.name in values && !Blank(values[f.name]) then Fits(f, values[f.name], checks) else !f.required
  }

  predicate SaysOf(f: Field, values: Answers, m: Message, checks: Checks) {
    m == if f.kind.File? || f.name !in values || Blank(values[f.name]) then Missing else Reproach(f, values[f.name], checks)
  }

  // ---- One question -------------------------------------------------------------------------------------

  lemma BlankIs(v: Json)
    ensures Empty(v) <==> Blank(v)
  {
  }

  lemma ValueIs(f: Field, v: Json)
    ensures IsValue(f, v) <==> OneOfValues(f, v)
  {
  }

  lemma {:induction false} LeavesAre(tree: seq<seq<string>>, s: string)
    ensures s in Leaves(tree) <==> exists i, j :: 0 <= i < |tree| && 0 <= j < |tree[i]| && tree[i][j] == s
  {
    if tree != [] {
      LeavesAre(tree[1..], s);
      if i, j :| 0 <= i < |tree| && 0 <= j < |tree[i]| && tree[i][j] == s {
        if i > 0 { assert tree[1..][i - 1] == tree[i]; }
      }
      if s in Leaves(tree[1..]) {
        var i, j :| 0 <= i < |tree[1..]| && 0 <= j < |tree[1..][i]| && tree[1..][i][j] == s;
        assert tree[i + 1][j] == s;
      } else if s in tree[0] {
        var j :| 0 <= j < |tree[0]| && tree[0][j] == s;
      }
    }
  }

  lemma {:induction false} LeafIs(f: Field, v: Json)
    ensures IsLeaf(f, v) <==> OneOfItems(f, v)
  {
    if v.Str? {
      if f.tree != [] {
        LeavesAre(f.tree, v.s);
      } else {
        var labels := PromptLeaves(f);
        assert forall i :: 0 <= i < |labels| ==> labels[i] == f.options[i].1;
      }
    }
  }

  lemma {:induction false} DigitCountIs(s: string)
    ensures DigitCount(s) == |Digits(s)|
  {
    if s != "" {
      var n := |s| - 1;
      DigitCountIs(s[..n]);
      DigitsAppend(s[..n], s[n]);
      assert s == s[..n] + [s[n]];
    }
  }

  lemma {:induction false} ItemsAre(v: Json)
    ensures |Chosen(v)| == Items(v) && forall k :: 0 <= k < Items(v) ==> Chosen(v)[k] == Item(v, k)
  {
  }

  lemma {:induction false} ItemsFit(f: Field, v: Json)
    ensures (exists i :: 0 <= i < |Chosen(v)| && !IsLeaf(f, Chosen(v)[i]))
            <==> !forall k :: 0 <= k < Items(v) ==> OneOfItems(f, Item(v, k))
  {
    ItemsAre(v);
    forall item ensures IsLeaf(f, item) <==> OneOfItems(f, item) { LeafIs(f, item); }
  }

  lemma {:induction false} FormatIs(f: Field, v: Json, checks: Checks)
    ensures FormatError(f, v, checks) == if Fits(f, v, checks) then None else Some(Reproach(f, v, checks))
  {
    match f.kind
    case Dropdown => ValueIs(f, v);
    case Radio => ValueIs(f, v);
    case Checkgroup =>
      ItemsAre(v);
      if |Chosen(v)| == 1 { ValueIs(f, Chosen(v)[0]); }
    case Prompt =>
      ItemsAre(v);
      ItemsFit(f, v);
    case PhoneText => DigitCountIs(Strip(checks.str(v)));
    case _ =>
  }

  lemma {:induction false} ErrorIs(f: Field, values: Answers, resume: Option<nat>, checks: Checks)
    ensures var e := FieldError(f, values, resume, checks);
            (e.None? <==> Acceptable(f, values, resume, checks)) && (e.Some? ==> SaysOf(f, values, e.value, checks))
  {
    var v := Answer(values, f.name);
    BlankIs(v);
    FormatIs(f, v, checks);
  }

  // ---- The page -------------------------------------------------------------------------------------------

  predicate LastRejected(fields: seq<Field>, values: Answers, resume: Option<nat>, checks: Checks, k: nat)
    requires k < |fields|
  {
    && !Acceptable(fields[k], values, resume, checks)
    && forall j :: k < j < |fields| && fields[j].name == fields[k].name ==> Acceptable(fields[j], values, resume, checks)
  }

  /** One question more: its name is added with what it is told, or nothing is. */
  lemma {:induction false} OneMoreField(fields: seq<Field>, values: Answers, resume: Option<nat>, checks: Checks)
    requires fields != []
    ensures var n := |fields| - 1;
            var before, errors := FieldErrors(fields[..n], values, resume, checks), FieldErrors(fields, values, resume, checks);
            if Acceptable(fields[n], values, resume, checks) then errors == before
            else fields[n].name in errors && SaysOf(fields[n], values, errors[fields[n].name], checks)
                 && errors == before[fields[n].name := errors[fields[n].name]]
  {
    ErrorIs(fields[|fields| - 1], values, resume, checks);
  }

  lemma {:induction false} LastOfMore(fields: seq<Field>, values: Answers, resume: Option<nat>, checks: Checks, k: nat)
    requires k < |fields| - 1
    ensures LastRejected(fields, values, resume, checks, k)
            <==> LastRejected(fields[..|fields| - 1], values, resume, checks, k)
                 && (fields[|fields| - 1].name == fields[k].name ==> Acceptable(fields[|fields| - 1], values, resume, checks))
  {
    var n := |fields| - 1;
    assert forall j :: 0 <= j < n ==> fields[..n][j] == fields[j];
  }

  /** What is rejected is reported, as the last of its name is told. */
  lemma {:induction false} RejectedIsReported(fields: seq<Field>, values: Answers, resume: Option<nat>, checks: Checks, k: nat)
    requires k < |fields| && !Acceptable(fields[k], values, resume, checks)
    ensures var errors := FieldErrors(fields, values, resume, checks);
            && fields[k].name in errors
            && (LastRejected(fields, values, resume, checks, k) ==> SaysOf(fields[k], values, errors[fields[k].name], checks))
  {
    var n := |fields| - 1;
    OneMoreField(fields, values, resume, checks);
    if k < n {
      RejectedIsReported(fields[..n], values, resume, checks, k);
      LastOfMore(fields, values, resume, checks, k);
    }
  }

  /** What is reported is rejected. */
  lemma {:induction false} ReportedIsRejected(fields: seq<Field>, values: Answers, resume: Option<nat>, checks: Checks, name: string)
    returns (k: nat)
    requires name in FieldErrors(fields, values, resume, checks)
    ensures k < |fields| && fields[k].name == name && LastRejected(fields, values, resume, checks, k)
  {
    var n := |fields| - 1;
    OneMoreField(fields, values, resume, checks);
    if !Acceptable(fields[n], values, resume, checks) && fields[n].name == name {
      k := n;
    } else {
      k := ReportedIsRejected(fields[..n], values, resume, checks, name);
      LastOfMore(fields, values, resume, checks, k);
    }
  }

  lemma {:induction false} PageIs(pages: seq<Page>, id: string)
    ensures PageOf(pages, id).None? <==> forall i :: 0 <= i < |pages| ==> pages[i].id != id
    ensures PageOf(pages, id).Some? ==> exists i :: 0 <= i < |pages| && FirstPage(pages, id, i) && pages[i] == PageOf(pages, id).value
  {
    if pages != [] && pages[0].id != id {
      PageIs(pages[1..], id);
      assert forall j :: 0 < j < |pages| ==> pages[j] == pages[1..][j - 1];
      if PageOf(pages, id).Some? {
        var i :| 0 <= i < |pages[1..]| && FirstPage(pages[1..], id, i) && pages[1..][i] == PageOf(pages, id).value;
        assert FirstPage(pages, id, i + 1) && pages[i + 1] == PageOf(pages, id).value;
      }
    } else if pages != [] {
      assert FirstPage(pages, id, 0);
    }
  }

  predicate FirstPage(pages: seq<Page>, id: string, i: nat)
    requires i < |pages|
  {
    pages[i].id == id && forall j :: 0 <= j < i ==> pages[j].id != id
  }

  /** A page is saved without an error exactly if it is one of the wizard's and each of its questions is
      answered as it asks. */
  lemma {:induction false} AcceptedExactly(pages: seq<Page>, id: string, values: Answers, resume: Option<nat>, checks: Checks)
    ensures PageErrors(pages, id, values, resume, checks) == map[]
            <==> exists i :: 0 <= i < |pages| && FirstPage(pages, id, i)
                             && forall k :: 0 <= k < |pages[i].fields| ==> Acceptable(pages[i].fields[k], values, resume, checks)
  {
    PageIs(pages, id);
    if PageOf(pages, id).Some? {
      var i :| 0 <= i < |pages| && FirstPage(pages, id, i) && pages[i] == PageOf(pages, id).value;
      assert forall j :: 0 <= j < |pages| && FirstPage(pages, id, j) ==> j == i;
      var errors := PageErrors(pages, id, values, resume, checks);
      if errors != map[] {
        var name :| name in errors;
        var k := ReportedIsRejected(pages[i].fields, values, resume, checks, name);
      } else {
        forall k | 0 <= k < |pages[i].fields| ensures Acceptable(pages[i].fields[k], values, resume, checks) {
          if !Acceptable(pages[i].fields[k], values, resume, checks) { RejectedIsReported(pages[i].fields, values, resume, checks, k); }
        }
      }
    } else {
      assert "_page" in PageErrors(pages, id, values, resume, checks);
    }
  }

  /** On a page whose questions have names of their own, the errors are the names of exactly those not
      answered as they ask, each with what it is told; a page that is none of the wizard's is unknown. */
  lemma {:induction false} ErrorsExactly(pages: seq<Page>, id: string, values: Answers, resume: Option<nat>, checks: Checks)
    ensures var errors := PageErrors(pages, id, values, resume, checks);
            && ((forall i :: 0 <= i < |pages| ==> pages[i].id != id) ==> errors == map["_page" := UnknownPage])
            && forall i :: 0 <= i < |pages| && FirstPage(pages, id, i) && OwnNames(pages[i].fields) ==>
                 && (forall name :: name in errors ==> exists k :: 0 <= k < |pages[i].fields| && pages[i].fields[k].name == name)
                 && forall k :: 0 <= k < |pages[i].fields| ==>
                      var f := pages[i].fields[k];
                      && (f.name in errors <==> !Acceptable(f, values, resume, checks))
                      && (f.name in errors ==> SaysOf(f, values, errors[f.name], checks))
  {
    PageIs(pages, id);
    if PageOf(pages, id).Some? {
      var i :| 0 <= i < |pages| && FirstPage(pages, id, i) && pages[i] == PageOf(pages, id).value;
      assert forall j :: 0 <= j < |pages| && FirstPage(pages, id, j) ==> j == i;
      if OwnNames(pages[i].fields) { OwnErrorsExactly(pages[i].fields, values, resume, checks); }
    }
  }

  predicate OwnNames(fields: seq<Field>) {
    forall i, j :: 0 <= i < j < |fields| ==> fields[i].name != fields[j].name
  }

  lemma OwnNameIsOne(fields: seq<Field>, j: nat, k: nat)
    requires OwnNames(fields) && j < |fields| && k < |fields| && fields[j].name == fields[k].name
    ensures j == k
  {
  }

  lemma {:induction false} OwnErrorsExactly(fields: seq<Field>, values: Answers, resume: Option<nat>, checks: Checks)
    requires OwnNames(fields)
    ensures var errors := FieldErrors(fields, values, resume, checks);
            && (forall name :: name in errors ==> exists k :: 0 <= k < |fields| && fields[k].name == name)
            && forall k :: 0 <= k < |fields| ==>
                 && (fields[k].name in errors <==> !Acceptable(fields[k], values, resume, checks))
                 && (fields[k].name in errors ==> SaysOf(fields[k], values, errors[fields[k].name], checks))
  {
    var errors := FieldErrors(fields, values, resume, checks);
    forall name | name in errors ensures exists k :: 0 <= k < |fields| && fields[k].name == name {
      var k := ReportedIsRejected(fields, values, resume, checks, name);
    }
    forall k | 0 <= k < |fields|
      ensures fields[k].name in errors <==> !Acceptable(fields[k], values, resume, checks)
      ensures fields[k].name in errors ==> SaysOf(fields[k], values, errors[fields[k].name], checks)
    {
      if !Acceptable(fields[k], values, resume, checks) {
        RejectedIsReported(fields, values, resume, checks, k);
      }
      if fields[k].name in errors {
        var j := ReportedIsRejected(fields, values, resume, checks, fields[k].name);
        OwnNameIsOne(fields, j, k);
      }
    }
  }
}
