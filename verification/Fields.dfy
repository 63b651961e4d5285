/** Form fields and `revealed_fields` of `scripts/mock_ats.py`. */
module Fields {
  import opened Wrappers

  /** The field kinds the server tells apart; `Widget` stands for every kind validated like text. */
  datatype Kind =
    | Text | Email | Url | Tel | Select | Radio | Checkbox | IntlTel | Widget
    | CheckboxGroup | MultiSelect | ReactMulti
    | File | CustomFile | LabelFile

  datatype Choice = Choice(value: string, disabled: bool)

  datatype Field = Field(
    name: string,
    kind: Kind,
    required: bool,
    options: seq<Choice>,
    disabled: bool,
    unnamed: bool,
    followUps: seq<Field>,
    trigger: Option<string>,
    requiredAfter: Option<string>,
    disabledBy: Option<string>)
  {
    predicate Multi() { kind.CheckboxGroup? || kind.MultiSelect? || kind.ReactMulti? }
    predicate TakesFile() { kind.File? || kind.CustomFile? || kind.LabelFile? }
  }

  /** A posted form: the values under each name, in order. */
  type Form = map<string, seq<string>>

  function Posted(form: Form, name: string): seq<string> {
    if name in form then form[name] else []
  }

  function NonEmpty(values: seq<string>): (r: seq<string>)
    ensures forall v :: v in r <==> v in values && v != ""
  {
    if values == [] then []
    else if values[0] != "" then [values[0]] + NonEmpty(values[1..]) else NonEmpty(values[1..])
  }

  /** Whether the form answers the group an optional attribute names. */
  predicate Answered(form: Form, group: Option<string>) {
    group.Some? && group.value != "" && exists v :: v in Posted(form, group.value) && v != ""
  }

  /** The field as the page shows it: required once its group is answered, and not required while
      the box that takes it away is checked. */
  function Shown(f: Field, form: Form): Field {
    var g := if !f.required && Answered(form, f.requiredAfter) then f.(required := true) else f;
    if g.required && Answered(form, g.disabledBy) then g.(required := false) else g
  }

  predicate Triggered(f: Field, form: Form) {
    var chosen := NonEmpty(Posted(form, f.name));
    chosen != [] && (f.trigger.None? || f.trigger.value in chosen)
  }

  /** The fields with the follow-ups of every triggered one inserted right after it. */
  function Revealed(fields: seq<Field>, form: Form): seq<Field> {
    if fields == [] then []
    else
      [Shown(fields[0], form)]
      + (if Triggered(fields[0], form) then Revealed(fields[0].followUps, form) else [])
      + Revealed(fields[1..], form)
  }

  method ShownNow(field: Field, form: Form) returns (f: Field)
    ensures f == Shown(field, form)
  {
    f := field;
    if !f.required && Answered(form, f.requiredAfter) {
      f := f.(required := true);
    }
    if f.required && Answered(form, f.disabledBy) {
      f := f.(required := false);
    }
  }

  method RevealedFields(fields: seq<Field>, form: Form) returns (shown: seq<Field>)
    ensures shown == Revealed(fields, form)
    decreases fields
  {
    shown := [];
    for k := 0 to |fields|
      invariant shown + Revealed(fields[k..], form) == Revealed(fields, form)
    {
      ghost var before := shown;
      var f := ShownNow(fields[k], form);
      shown := shown + [f];
      var more := [];
      if Triggered(fields[k], form) {
        more := RevealedFields(fields[k].followUps, form);
        shown := shown + more;
      }
      RevealedFrom(fields, form, k);
      Regroup(before, [f], more, Revealed(fields[k + 1..], form));
    }
  }

  lemma RevealedFrom(fields: seq<Field>, form: Form, k: nat)
    requires k < |fields|
    ensures Revealed(fields[k..], form)
            == [Shown(fields[k], form)] + (if Triggered(fields[k], form) then Revealed(fields[k].followUps, form) else [])
               + Revealed(fields[k + 1..], form)
  {
  }

  lemma Regroup(a: seq<Field>, b: seq<Field>, c: seq<Field>, d: seq<Field>)
    ensures a + (b + c + d) == (a + b) + c + d
    ensures c == [] ==> a + (b + c + d) == (a + b) + d
  {
  }

  // ---- What is revealed ------------------------------------------------------------------------------

  function Names(fields: seq<Field>): set<string> {
    set f | f in fields :: f.name
  }

  /** The names of the fields and of all their follow-ups, at any depth. */
  function AllNames(fields: seq<Field>): set<string> {
    if fields == [] then {}
    else {fields[0].name} + AllNames(fields[0].followUps) + AllNames(fields[1..])
  }

  /** No name is used twice, at any depth. */
  predicate Distinct(fields: seq<Field>) {
    fields == []
    || (&& Distinct(fields[0].followUps) && Distinct(fields[1..])
        && fields[0].name !in AllNames(fields[0].followUps)
        && fields[0].name !in AllNames(fields[1..])
        && AllNames(fields[0].followUps) !! AllNames(fields[1..]))
  }

  /** The field is among the fields or among their follow-ups, at any depth. */
  predicate Within(f: Field, fields: seq<Field>) {
    fields != [] && (f == fields[0] || Within(f, fields[0].followUps) || Within(f, fields[1..]))
  }

  lemma RevealedNames(fields: seq<Field>, form: Form)
    requires fields != []
    ensures Names(Revealed(fields, form))
            == {fields[0].name} + (if Triggered(fields[0], form) then Names(Revealed(fields[0].followUps, form)) else {})
               + Names(Revealed(fields[1..], form))
  {
  }

  lemma {:induction false} RevealedWithinAll(fields: seq<Field>, form: Form)
    ensures Names(Revealed(fields, form)) <= AllNames(fields)
  {
    if fields != [] {
      RevealedNames(fields, form);
      RevealedWithinAll(fields[0].followUps, form);
      RevealedWithinAll(fields[1..], form);
    }
  }

  lemma {:induction false} FollowUpsWithinAll(f: Field, fields: seq<Field>)
    requires Within(f, fields)
    ensures AllNames(f.followUps) <= AllNames(fields)
  {
    if f == fields[0] {
    } else if Within(f, fields[0].followUps) {
      FollowUpsWithinAll(f, fields[0].followUps);
    } else {
      FollowUpsWithinAll(f, fields[1..]);
    }
  }

  /** A follow-up, at any depth, of a field whose trigger was not posted is never shown. */
  lemma {:induction false} UntriggeredStaysHidden(fields: seq<Field>, form: Form, f: Field, name: string)
    requires Distinct(fields) && Within(f, fields) && !Triggered(f, form) && name in AllNames(f.followUps)
    ensures name !in Names(Revealed(fields, form))
    decreases fields
  {
    RevealedNames(fields, form);
    RevealedWithinAll(fields[0].followUps, form);
    RevealedWithinAll(fields[1..], form);
    if f == fields[0] {
    } else if Within(f, fields[0].followUps) {
      FollowUpsWithinAll(f, fields[0].followUps);
      UntriggeredStaysHidden(fields[0].followUps, form, f, name);
    } else {
      FollowUpsWithinAll(f, fields[1..]);
      UntriggeredStaysHidden(fields[1..], form, f, name);
    }
  }

  /** Every top-level question is shown, and every follow-up of a triggered one. */
  lemma {:induction false} TriggeredIsShown(fields: seq<Field>, form: Form, k: nat)
    requires k < |fields|
    ensures Shown(fields[k], form) in Revealed(fields, form)
    ensures Triggered(fields[k], form) ==> forall g :: g in Revealed(fields[k].followUps, form) ==> g in Revealed(fields, form)
  {
    if k > 0 { TriggeredIsShown(fields[1..], form, k - 1); }
  }

  // ---- What is shown of a field ----------------------------------------------------------------------

  /** A value that is not empty is posted under the name, if there is one. */
  predicate Filled(form: Form, name: Option<string>) {
    name.Some? && name.value != "" && name.value in form && exists k :: 0 <= k < |form[name.value]| && form[name.value][k] != ""
  }

  /** The field as it is defined, but for being required: it is if it was or its group is filled, unless
      the box that takes it away is. */
  predicate IsCopy(g: Field, f: Field, form: Form) {
    && g == f.(required := g.required)
    && (g.required <==> (f.required || Filled(form, f.requiredAfter)) && !Filled(form, f.disabledBy))
  }

  lemma {:induction false} FilledIs(form: Form, name: Option<string>)
    ensures Answered(form, name) <==> Filled(form, name)
  {
    if name.Some? {
      var posted := Posted(form, name.value);
      if v :| v in posted && v != "" {
        var k :| 0 <= k < |posted| && posted[k] == v;
        assert form[name.value][k] != "";
      }
      if k :| 0 <= k < |posted| && posted[k] != "" { assert posted[k] in posted; }
    }
  }

  lemma {:induction false} ShownIsCopy(f: Field, form: Form)
    ensures IsCopy(Shown(f, form), f, form)
  {
    FilledIs(form, f.requiredAfter);
    FilledIs(form, f.disabledBy);
  }

  lemma {:induction false} WithinRest(fields: seq<Field>, f: Field)
    requires fields != [] && (Within(f, fields[0].followUps) || Within(f, fields[1..]))
    ensures Within(f, fields)
  {
  }

  /** Everything shown is a copy of a field of the tree. */
  lemma {:induction false} ShownAreCopies(fields: seq<Field>, form: Form, g: Field)
    requires g in Revealed(fields, form)
    ensures exists f :: Within(f, fields) && IsCopy(g, f, form)
  {
    ShownIsCopy(fields[0], form);
    if g == Shown(fields[0], form) {
      assert Within(fields[0], fields);
    } else if Triggered(fields[0], form) && g in Revealed(fields[0].followUps, form) {
      ShownAreCopies(fields[0].followUps, form, g);
      var f :| Within(f, fields[0].followUps) && IsCopy(g, f, form);
      WithinRest(fields, f);
    } else {
      ShownAreCopies(fields[1..], form, g);
      var f :| Within(f, fields[1..]) && IsCopy(g, f, form);
      WithinRest(fields, f);
    }
  }

  lemma {:induction false} WithinIsNamed(fields: seq<Field>, f: Field)
    requires Within(f, fields)
    ensures f.name in AllNames(fields)
  {
    if f == fields[0] {
    } else if Within(f, fields[0].followUps) {
      WithinIsNamed(fields[0].followUps, f);
    } else {
      WithinIsNamed(fields[1..], f);
    }
  }

  /** A name belongs to one field of the tree. */
  lemma {:induction false} OneOfAName(fields: seq<Field>, f: Field, g: Field)
    requires Distinct(fields) && Within(f, fields) && Within(g, fields) && f.name == g.name
    ensures f == g
  {
    if f != g {
      if Within(f, fields[0].followUps) { WithinIsNamed(fields[0].followUps, f); }
      if Within(f, fields[1..]) { WithinIsNamed(fields[1..], f); }
      if Within(g, fields[0].followUps) { WithinIsNamed(fields[0].followUps, g); }
      if Within(g, fields[1..]) { WithinIsNamed(fields[1..], g); }
      if Within(f, fields[0].followUps) && Within(g, fields[0].followUps) {
        OneOfAName(fields[0].followUps, f, g);
      } else if Within(f, fields[1..]) && Within(g, fields[1..]) {
        OneOfAName(fields[1..], f, g);
      }
    }
  }

  /** Of each field of the tree, at any depth, nothing but its copy is shown under its name. */
  lemma {:induction false} ShownExactly(fields: seq<Field>, form: Form, f: Field, g: Field)
    requires Distinct(fields) && Within(f, fields) && g in Revealed(fields, form) && g.name == f.name
    ensures IsCopy(g, f, form)
  {
    ShownAreCopies(fields, form, g);
    var h :| Within(h, fields) && IsCopy(g, h, form);
    OneOfAName(fields, f, h);
  }

  predicate DistinctNames(fields: seq<Field>) {
    forall i, j :: 0 <= i < j < |fields| ==> fields[i].name != fields[j].name
  }

  lemma {:induction false} DistinctTogether(a: seq<Field>, b: seq<Field>)
    requires DistinctNames(a) && DistinctNames(b) && Names(a) !! Names(b)
    ensures DistinctNames(a + b)
  {
    forall i, j | 0 <= i < |a| && 0 <= j < |b| ensures a[i].name != b[j].name {
      assert a[i].name in Names(a) && b[j].name in Names(b);
    }
  }

  /** No name is shown twice. */
  lemma {:induction false} ShownAreDistinct(fields: seq<Field>, form: Form)
    requires Distinct(fields)
    ensures DistinctNames(Revealed(fields, form))
  {
    if fields != [] {
      var first, rest := [Shown(fields[0], form)], Revealed(fields[1..], form);
      var below := if Triggered(fields[0], form) then Revealed(fields[0].followUps, form) else [];
      ShownAreDistinct(fields[0].followUps, form);
      ShownAreDistinct(fields[1..], form);
      RevealedWithinAll(fields[0].followUps, form);
      RevealedWithinAll(fields[1..], form);
      assert Names(first) == {fields[0].name};
      DistinctTogether(first, below);
      assert Names(first + below) == Names(first) + Names(below);
      DistinctTogether(first + below, rest);
    }
  }
}
